/**
 * Rainfall analysis: monthly rainfall readings against their normals, the yearly totals of a
 * panchayat, the deviation from normal, and the drought and flood bands read off that deviation.
 */
module Rainfall {
  import opened Seqs
  import opened Models

  function InYear(p: string, y: int): RainfallRecord -> bool
  {
    (r: RainfallRecord) => r.panchayatId == p && r.year == y
  }

  /** June to September of one year. */
  function InMonsoon(p: string, y: int): RainfallRecord -> bool
  {
    (r: RainfallRecord) => r.panchayatId == p && r.year == y && r.month in {6, 7, 8, 9}
  }

  function RainOf(): RainfallRecord -> real
  {
    (r: RainfallRecord) => r.rainfallMm
  }

  function NormalOf(): RainfallRecord -> real
  {
    (r: RainfallRecord) => r.normalMm
  }

  predicate AllValid(xs: seq<RainfallRecord>)
  {
    forall r :: r in xs ==> ValidRainfall(r)
  }

  /** Rainfall of a panchayat summed over the readings of one year. */
  function AnnualTotalOf(xs: seq<RainfallRecord>, p: string, y: int): (t: real)
    ensures (forall r :: r in xs ==> !(r.panchayatId == p && r.year == y)) ==> t == 0.0
    ensures AllValid(xs) ==> t >= 0.0
  {
    FilterNone(xs, InYear(p, y));
    SumNonNegative(Filter(xs, InYear(p, y)), RainOf());
    Sum(Filter(xs, InYear(p, y)), RainOf())
  }

  /** Normal rainfall of a panchayat summed over the readings of one year. */
  function AnnualNormalOf(xs: seq<RainfallRecord>, p: string, y: int): (n: real)
    ensures (forall r :: r in xs ==> !(r.panchayatId == p && r.year == y)) ==> n == 0.0
    ensures AllValid(xs) ==> n >= 0.0
  {
    FilterNone(xs, InYear(p, y));
    SumNonNegative(Filter(xs, InYear(p, y)), NormalOf());
    Sum(Filter(xs, InYear(p, y)), NormalOf())
  }

  /** Adding a reading raises the yearly totals of its own panchayat and year by its amounts, and no others. */
  lemma AddedReadingTotals(xs: seq<RainfallRecord>, rec: RainfallRecord, p: string, y: int)
    ensures AnnualTotalOf(xs + [rec], p, y)
         == AnnualTotalOf(xs, p, y) + (if rec.panchayatId == p && rec.year == y then rec.rainfallMm else 0.0)
    ensures AnnualNormalOf(xs + [rec], p, y)
         == AnnualNormalOf(xs, p, y) + (if rec.panchayatId == p && rec.year == y then rec.normalMm else 0.0)
  {
    SumFilterAppendOne(xs, rec, InYear(p, y), RainOf());
    SumFilterAppendOne(xs, rec, InYear(p, y), NormalOf());
  }

  /** Percentage deviation of the yearly total from the yearly normal; 0 when the normal is 0. */
  function AnnualDeviationOf(xs: seq<RainfallRecord>, p: string, y: int): (d: real)
    ensures AnnualNormalOf(xs, p, y) == 0.0 ==> d == 0.0
    ensures AnnualNormalOf(xs, p, y) > 0.0 ==>
              (d < 0.0 <==> AnnualTotalOf(xs, p, y) < AnnualNormalOf(xs, p, y))
  {
    var normal := AnnualNormalOf(xs, p, y);
    if normal == 0.0 then 0.0 else PercentDeviation(AnnualTotalOf(xs, p, y), normal)
  }

  /** For a positive normal, comparing the deviation with `t` percent is comparing the rainfall with `(1 + t/100)` normals. */
  lemma DeviationCompare(actual: real, normal: real, t: real)
    requires normal > 0.0
    ensures PercentDeviation(actual, normal) <= t <==> actual <= normal + t * normal / 100.0
    ensures PercentDeviation(actual, normal) >= t <==> actual >= normal + t * normal / 100.0
  {
    var d := PercentDeviation(actual, normal);
    assert actual - (normal + t * normal / 100.0) == (d - t) * normal / 100.0;
    if d > t {
      assert (d - t) * normal > 0.0;
    } else if d < t {
      assert (d - t) * normal < 0.0;
    }
  }

  datatype DroughtRisk = SevereDrought | ModerateDrought | MildDrought | NoDrought

  datatype FloodRisk = HighFloodRisk | ModerateFloodRisk | NoFloodRisk

  /** Drought bands of the rainfall deviation: at most -60, -40 and -20 percent. */
  function DroughtBand(deviationPct: real): (b: DroughtRisk)
    ensures b == SevereDrought <==> deviationPct <= -60.0
    ensures b == ModerateDrought <==> -60.0 < deviationPct <= -40.0
    ensures b == MildDrought <==> -40.0 < deviationPct <= -20.0
    ensures b == NoDrought <==> deviationPct > -20.0
  {
    if deviationPct <= -60.0 then SevereDrought
    else if deviationPct <= -40.0 then ModerateDrought
    else if deviationPct <= -20.0 then MildDrought
    else NoDrought
  }

  /** Flood bands of the rainfall deviation: at least 60 and 30 percent. */
  function FloodBand(deviationPct: real): (b: FloodRisk)
    ensures b == HighFloodRisk <==> deviationPct >= 60.0
    ensures b == ModerateFloodRisk <==> 30.0 <= deviationPct < 60.0
    ensures b == NoFloodRisk <==> deviationPct < 30.0
  {
    if deviationPct >= 60.0 then HighFloodRisk
    else if deviationPct >= 30.0 then ModerateFloodRisk
    else NoFloodRisk
  }

  /** No deviation is in a drought band and a flood band at once. */
  lemma DroughtAndFloodExclusive(deviationPct: real)
    ensures DroughtBand(deviationPct) == NoDrought || FloodBand(deviationPct) == NoFloodRisk
  {
  }

  function DroughtRiskOf(xs: seq<RainfallRecord>, p: string, y: int): DroughtRisk
  {
    DroughtBand(AnnualDeviationOf(xs, p, y))
  }

  function FloodRiskOf(xs: seq<RainfallRecord>, p: string, y: int): FloodRisk
  {
    FloodBand(AnnualDeviationOf(xs, p, y))
  }

  /** Without a normal on record a year carries no risk. */
  lemma NoNormalNoRisk(xs: seq<RainfallRecord>, p: string, y: int)
    requires AnnualNormalOf(xs, p, y) == 0.0
    ensures DroughtRiskOf(xs, p, y) == NoDrought && FloodRiskOf(xs, p, y) == NoFloodRisk
  {
  }

  /** The drought bands as shares of the normal: at most 40%, at most 60%, at most 80% of it. */
  lemma DroughtByRainfallShare(xs: seq<RainfallRecord>, p: string, y: int)
    requires AnnualNormalOf(xs, p, y) > 0.0
    ensures var t, n := AnnualTotalOf(xs, p, y), AnnualNormalOf(xs, p, y);
            && (DroughtRiskOf(xs, p, y) == SevereDrought <==> t <= 0.4 * n)
            && (DroughtRiskOf(xs, p, y) == ModerateDrought <==> 0.4 * n < t <= 0.6 * n)
            && (DroughtRiskOf(xs, p, y) == MildDrought <==> 0.6 * n < t <= 0.8 * n)
            && (DroughtRiskOf(xs, p, y) == NoDrought <==> t > 0.8 * n)
  {
    var t, n := AnnualTotalOf(xs, p, y), AnnualNormalOf(xs, p, y);
    DeviationCompare(t, n, -60.0);
    DeviationCompare(t, n, -40.0);
    DeviationCompare(t, n, -20.0);
  }

  /** The flood bands as shares of the normal: at least 160% and at least 130% of it. */
  lemma FloodByRainfallShare(xs: seq<RainfallRecord>, p: string, y: int)
    requires AnnualNormalOf(xs, p, y) > 0.0
    ensures var t, n := AnnualTotalOf(xs, p, y), AnnualNormalOf(xs, p, y);
            && (FloodRiskOf(xs, p, y) == HighFloodRisk <==> t >= 1.6 * n)
            && (FloodRiskOf(xs, p, y) == ModerateFloodRisk <==> 1.3 * n <= t < 1.6 * n)
            && (FloodRiskOf(xs, p, y) == NoFloodRisk <==> t < 1.3 * n)
  {
    var t, n := AnnualTotalOf(xs, p, y), AnnualNormalOf(xs, p, y);
    DeviationCompare(t, n, 60.0);
    DeviationCompare(t, n, 30.0);
  }

  datatype MonsoonPerformance = MonsoonPerformance(actualMm: real, normalMm: real, deviationPct: real)

  /**
   * June-to-September rainfall and normal of one year, and the deviation; the deviation is 0 unless
   * the monsoon normal is positive.
   */
  function MonsoonOf(xs: seq<RainfallRecord>, p: string, y: int): (m: MonsoonPerformance)
    ensures AllValid(xs) ==> 0.0 <= m.actualMm <= AnnualTotalOf(xs, p, y)
    ensures AllValid(xs) ==> 0.0 <= m.normalMm <= AnnualNormalOf(xs, p, y)
    ensures m.normalMm <= 0.0 ==> m.deviationPct == 0.0
    ensures m.normalMm > 0.0 ==> m.deviationPct == PercentDeviation(m.actualMm, m.normalMm)
    ensures m.normalMm > 0.0 ==> (m.deviationPct < 0.0 <==> m.actualMm < m.normalMm)
  {
    var recs := Filter(xs, InMonsoon(p, y));
    var actual := Sum(recs, RainOf());
    var normal := Sum(recs, NormalOf());
    var m := MonsoonPerformance(actual, normal, if normal > 0.0 then PercentDeviation(actual, normal) else 0.0);
    SumFilterNarrower(xs, InYear(p, y), InMonsoon(p, y), RainOf());
    SumFilterNarrower(xs, InYear(p, y), InMonsoon(p, y), NormalOf());
    SumNonNegative(recs, RainOf());
    SumNonNegative(recs, NormalOf());
    m
  }

  /**
   * A new reading adds its rainfall and normal to the monsoon amounts of its own panchayat and year
   * when it falls in June to September, and changes no other monsoon amounts.
   */
  lemma AddedReadingMonsoon(xs: seq<RainfallRecord>, rec: RainfallRecord, p: string, y: int)
    ensures var inSeason := rec.panchayatId == p && rec.year == y && rec.month in {6, 7, 8, 9};
            && MonsoonOf(xs + [rec], p, y).actualMm
               == MonsoonOf(xs, p, y).actualMm + (if inSeason then rec.rainfallMm else 0.0)
            && MonsoonOf(xs + [rec], p, y).normalMm
               == MonsoonOf(xs, p, y).normalMm + (if inSeason then rec.normalMm else 0.0)
  {
    SumFilterAppendOne(xs, rec, InMonsoon(p, y), RainOf());
    SumFilterAppendOne(xs, rec, InMonsoon(p, y), NormalOf());
  }

  /** With no readings there is no monsoon rainfall and no normal. */
  lemma NoReadingsNoMonsoon(p: string, y: int)
    ensures MonsoonOf([], p, y) == MonsoonPerformance(0.0, 0.0, 0.0)
  {
  }

  // ---------------------------------------------------------------------------------------------
  // The analyzer

  class RainfallAnalyzer {
    /** Every reading, in the order added. */
    var records: seq<RainfallRecord>

    constructor ()
      ensures records == []
    {
      records := [];
    }

    method Add(rec: RainfallRecord)
      modifies this
      ensures records == old(records) + [rec]
    {
      records := records + [rec];
    }

    function AnnualTotal(p: string, y: int): real
      reads this
    {
      AnnualTotalOf(records, p, y)
    }

    function AnnualNormal(p: string, y: int): real
      reads this
    {
      AnnualNormalOf(records, p, y)
    }

    function AnnualDeviationPct(p: string, y: int): real
      reads this
    {
      AnnualDeviationOf(records, p, y)
    }

    function Drought(p: string, y: int): DroughtRisk
      reads this
    {
      DroughtRiskOf(records, p, y)
    }

    function Flood(p: string, y: int): FloodRisk
      reads this
    {
      FloodRiskOf(records, p, y)
    }

    function Monsoon(p: string, y: int): MonsoonPerformance
      reads this
    {
      MonsoonOf(records, p, y)
    }
  }
}
