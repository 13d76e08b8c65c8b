/**
 * Static reference data. The acceptable / permissible limits follow the Indian drinking-water
 * specification IS 10500:2012, as the engine's limit table lists them; the pH hazard band and the
 * supply standard are the engine's own.
 */
module Thresholds {
  const PhMin: real := 6.5
  const PhMax: real := 8.5
  const TdsAcceptable: real := 500.0
  const TdsPermissible: real := 2000.0
  const TurbidityAcceptable: real := 1.0
  const TurbidityPermissible: real := 5.0
  const ChlorideAcceptable: real := 250.0
  const ChloridePermissible: real := 1000.0
  const FluorideAcceptable: real := 1.0
  const FluoridePermissible: real := 1.5
  const ArsenicMaxPpb: real := 10.0
  const IronAcceptable: real := 0.3
  const IronPermissible: real := 1.0
  const NitrateMax: real := 45.0

  /** pH outside [5.0, 9.5] grades a sample hazardous: the grading code's own band. */
  const PhHazardLow: real := 5.0
  const PhHazardHigh: real := 9.5

  /** Jal Jeevan Mission supply standard, litres per person per day. */
  const JjmLpcdStandard: int := 55
}
