/**
 * The value records of the water-data engine: enumerations, records with the field bounds their
 * validation enforces (as `Valid` predicates), and the derived quantities computed from them.
 * Derived percentages and differences are stated before the rounding the records apply for display.
 */
module Models {

  datatype WaterSourceType =
    Borewell | Handpump | OpenWell | River | Pond | Spring | Reservoir | Rainwater | Pipeline

  datatype WaterQualityGrade = Safe | Acceptable | Contaminated | Hazardous

  datatype SeasonType = PreMonsoon | Monsoon | PostMonsoon | Winter

  datatype AlertLevel = Info | Warning | Critical | Emergency

  /** The text value of a season, which is also what the groundwater history sorts by. */
  function SeasonLabel(s: SeasonType): string
  {
    match s
    case PreMonsoon => "pre_monsoon"
    case Monsoon => "monsoon"
    case PostMonsoon => "post_monsoon"
    case Winter => "winter"
  }

  datatype WaterSource = WaterSource(
    sourceId: string,
    panchayatId: string,
    name: string,
    sourceType: WaterSourceType,
    latitude: real,
    longitude: real,
    capacityLitersPerDay: real,
    currentYieldLpd: real,
    depthMeters: real,
    isFunctional: bool,
    lastTestedDate: string)

  predicate ValidSource(s: WaterSource)
  {
    && -90.0 <= s.latitude <= 90.0
    && -180.0 <= s.longitude <= 180.0
    && s.capacityLitersPerDay >= 0.0
    && s.currentYieldLpd >= 0.0
    && s.depthMeters >= 0.0
  }

  /** `part / whole * 100` is at most 100 exactly when the part is at most the whole. */
  lemma PercentAtMostHundred(part: real, whole: real)
    requires whole != 0.0
    ensures whole > 0.0 ==> ((part / whole) * 100.0 <= 100.0 <==> part <= whole)
  {
    if whole > 0.0 {
      var q := part / whole;
      assert part == q * whole;
      if q <= 1.0 {
        assert q * whole <= 1.0 * whole;
      } else {
        assert q * whole > 1.0 * whole;
      }
    }
  }

  /** Current yield as a percentage of rated capacity; 0 for a source of zero capacity. */
  function YieldPct(s: WaterSource): (r: real)
    ensures s.capacityLitersPerDay == 0.0 ==> r == 0.0
    ensures s.capacityLitersPerDay != 0.0 ==> r * s.capacityLitersPerDay == s.currentYieldLpd * 100.0
    ensures ValidSource(s) ==> r >= 0.0
    ensures ValidSource(s) && s.capacityLitersPerDay > 0.0 ==>
              (r <= 100.0 <==> s.currentYieldLpd <= s.capacityLitersPerDay)
  {
    if s.capacityLitersPerDay == 0.0 then 0.0
    else
      PercentAtMostHundred(s.currentYieldLpd, s.capacityLitersPerDay);
      (s.currentYieldLpd / s.capacityLitersPerDay) * 100.0
  }

  datatype WaterQualityReport = WaterQualityReport(
    reportId: string,
    sourceId: string,
    testDate: string,
    ph: real,
    tdsPpm: real,
    turbidityNtu: real,
    chloridePpm: real,
    fluoridePpm: real,
    arsenicPpb: real,
    ironPpm: real,
    nitratePpm: real,
    coliformPresent: bool,
    grade: WaterQualityGrade)

  predicate ValidReport(r: WaterQualityReport)
  {
    && 0.0 <= r.ph <= 14.0
    && r.tdsPpm >= 0.0
    && r.turbidityNtu >= 0.0
    && r.chloridePpm >= 0.0
    && r.fluoridePpm >= 0.0
    && r.arsenicPpb >= 0.0
    && r.ironPpm >= 0.0
    && r.nitratePpm >= 0.0
  }

  /** Household tap-connection status of one panchayat. The counts are not bounded by one another. */
  datatype FHTCStatus = FHTCStatus(
    panchayatId: string,
    panchayatName: string,
    totalHouseholds: int,
    fhtcProvided: int,
    fhtcFunctional: int,
    targetDate: string,
    reportDate: string)

  predicate ValidStatus(f: FHTCStatus)
  {
    f.totalHouseholds >= 0 && f.fhtcProvided >= 0 && f.fhtcFunctional >= 0
  }

  /** Connections provided as a percentage of households; 0 when there are no households. */
  function CoveragePct(f: FHTCStatus): (r: real)
    ensures f.totalHouseholds == 0 ==> r == 0.0
    ensures f.totalHouseholds != 0 ==> r * (f.totalHouseholds as real) == (f.fhtcProvided as real) * 100.0
    ensures ValidStatus(f) ==> r >= 0.0
    ensures ValidStatus(f) && f.totalHouseholds > 0 ==> (r <= 100.0 <==> f.fhtcProvided <= f.totalHouseholds)
  {
    if f.totalHouseholds == 0 then 0.0
    else
      PercentAtMostHundred(f.fhtcProvided as real, f.totalHouseholds as real);
      ((f.fhtcProvided as real) / (f.totalHouseholds as real)) * 100.0
  }

  /** Functional connections as a percentage of connections provided; 0 when none are provided. */
  function FunctionalPct(f: FHTCStatus): (r: real)
    ensures f.fhtcProvided == 0 ==> r == 0.0
    ensures f.fhtcProvided != 0 ==> r * (f.fhtcProvided as real) == (f.fhtcFunctional as real) * 100.0
    ensures ValidStatus(f) ==> r >= 0.0
    ensures ValidStatus(f) && f.fhtcProvided > 0 ==> (r <= 100.0 <==> f.fhtcFunctional <= f.fhtcProvided)
  {
    if f.fhtcProvided == 0 then 0.0
    else
      PercentAtMostHundred(f.fhtcFunctional as real, f.fhtcProvided as real);
      ((f.fhtcFunctional as real) / (f.fhtcProvided as real)) * 100.0
  }

  datatype GroundwaterLevel = GroundwaterLevel(
    panchayatId: string,
    season: SeasonType,
    year: int,
    depthMeters: real,
    previousYearDepth: real)

  predicate ValidLevel(g: GroundwaterLevel)
  {
    g.depthMeters >= 0.0 && g.previousYearDepth >= 0.0
  }

  /** Depth change over the year; positive means the water table fell. */
  function ChangeMeters(g: GroundwaterLevel): real
  {
    g.depthMeters - g.previousYearDepth
  }

  /** The water table is deeper than a year earlier. */
  predicate IsDeclining(g: GroundwaterLevel)
  {
    g.depthMeters > g.previousYearDepth
  }

  /** A level is declining exactly when its change is positive, and then it is deeper by that change. */
  lemma DecliningMeansPositiveChange(g: GroundwaterLevel)
    ensures IsDeclining(g) <==> ChangeMeters(g) > 0.0
    ensures g.depthMeters == g.previousYearDepth + ChangeMeters(g)
  {
  }

  datatype WaterAlert = WaterAlert(
    alertId: nat,
    panchayatId: string,
    level: AlertLevel,
    category: AlertCategory,
    sourceId: string,
    date: string,
    isActive: bool)

  /** The category tags the alert engine uses. */
  datatype AlertCategory = WaterQuality | GroundwaterDepth | GroundwaterTrend | Supply | Drought | Flood

  datatype WaterBudget = WaterBudget(
    panchayatId: string,
    year: int,
    totalDemandLpd: real,
    totalSupplyLpd: real,
    domesticDemandLpd: real,
    agricultureDemandLpd: real,
    industrialDemandLpd: real)

  predicate ValidBudget(b: WaterBudget)
  {
    && b.totalDemandLpd >= 0.0
    && b.totalSupplyLpd >= 0.0
    && b.domesticDemandLpd >= 0.0
    && b.agricultureDemandLpd >= 0.0
    && b.industrialDemandLpd >= 0.0
  }

  function SurplusDeficitLpd(b: WaterBudget): real
  {
    b.totalSupplyLpd - b.totalDemandLpd
  }

  predicate IsDeficit(b: WaterBudget)
  {
    b.totalSupplyLpd < b.totalDemandLpd
  }

  /** A budget is in deficit exactly when its surplus is negative, and supply is demand plus surplus. */
  lemma DeficitMeansNegativeSurplus(b: WaterBudget)
    ensures IsDeficit(b) <==> SurplusDeficitLpd(b) < 0.0
    ensures b.totalSupplyLpd == b.totalDemandLpd + SurplusDeficitLpd(b)
  {
  }

  datatype RainfallRecord = RainfallRecord(
    panchayatId: string,
    month: int,
    year: int,
    rainfallMm: real,
    normalMm: real)

  predicate ValidRainfall(r: RainfallRecord)
  {
    1 <= r.month <= 12 && r.rainfallMm >= 0.0 && r.normalMm >= 0.0
  }

  /** `(actual - normal) / normal * 100`, defined as 0 when the normal is 0. */
  function PercentDeviation(actual: real, normal: real): (r: real)
    ensures normal == 0.0 ==> r == 0.0
    ensures normal > 0.0 ==> (r < 0.0 <==> actual < normal) && (r == 0.0 <==> actual == normal)
    ensures normal > 0.0 && actual >= 0.0 ==> r >= -100.0
    ensures normal != 0.0 ==> actual == normal + r * normal / 100.0
  {
    if normal == 0.0 then 0.0 else ((actual - normal) / normal) * 100.0
  }

  function DeviationPct(r: RainfallRecord): (d: real)
    ensures r.normalMm == 0.0 ==> d == 0.0
    ensures ValidRainfall(r) && r.normalMm > 0.0 ==> (d < 0.0 <==> r.rainfallMm < r.normalMm)
  {
    PercentDeviation(r.rainfallMm, r.normalMm)
  }
}
