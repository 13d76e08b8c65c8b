/**
 * Jal Jeevan Mission tracking: the latest household tap-connection status per panchayat, the
 * average coverage across panchayats, the connection gap of one panchayat, and the check of a
 * supply against the per-person standard.
 */
module Coverage {
  import opened Wrappers
  import opened Seqs
  import opened Models
  import opened Thresholds
  import Dict

  function CoverageOf(): FHTCStatus -> real
  {
    (f: FHTCStatus) => CoveragePct(f)
  }

  function FunctionalOf(): FHTCStatus -> real
  {
    (f: FHTCStatus) => FunctionalPct(f)
  }

  function HasConnections(): FHTCStatus -> bool
  {
    (f: FHTCStatus) => f.fhtcProvided > 0
  }

  function CoverageBelow(targetPct: real): FHTCStatus -> bool
  {
    (f: FHTCStatus) => CoveragePct(f) < targetPct
  }

  /** The statuses whose connections are fully counted: at most one per household, at most one working per connection. */
  predicate Consistent(f: FHTCStatus)
  {
    ValidStatus(f) && f.fhtcProvided <= f.totalHouseholds && f.fhtcFunctional <= f.fhtcProvided
  }

  datatype CoverageSummary = CoverageSummary(avgCoveragePct: real, avgFunctionalPct: real)

  /** Arithmetic mean, 0 for no terms. */
  function Mean<T>(xs: seq<T>, f: T -> real): (r: real)
    ensures xs == [] ==> r == 0.0
    ensures xs != [] ==> r * (|xs| as real) == Sum(xs, f)
  {
    if xs == [] then 0.0 else Sum(xs, f) / (|xs| as real)
  }

  /** A mean of terms that all lie in [lo, hi] lies in [lo, hi]. */
  lemma MeanBounds<T>(xs: seq<T>, f: T -> real, lo: real, hi: real)
    requires xs != []
    requires forall x :: x in xs ==> lo <= f(x) <= hi
    ensures lo <= Mean(xs, f) <= hi
  {
    SumBounds(xs, f, lo, hi);
    var n := |xs| as real;
    var m := Mean(xs, f);
    assert m - lo == (Sum(xs, f) - n * lo) / n;
    assert hi - m == (n * hi - Sum(xs, f)) / n;
  }

  /**
   * Average coverage over every status, and average functionality over the statuses that have
   * any connection; both 0 when nothing is tracked.
   */
  function Summarize(xs: seq<FHTCStatus>): (r: CoverageSummary)
    ensures xs == [] ==> r == CoverageSummary(0.0, 0.0)
    ensures xs != [] ==> r.avgCoveragePct * (|xs| as real) == Sum(xs, CoverageOf())
    ensures Filter(xs, HasConnections()) == [] ==> r.avgFunctionalPct == 0.0
    ensures r.avgFunctionalPct == Mean(Filter(xs, HasConnections()), FunctionalOf())
  {
    if xs == [] then CoverageSummary(0.0, 0.0)
    else CoverageSummary(Mean(xs, CoverageOf()), Mean(Filter(xs, HasConnections()), FunctionalOf()))
  }

  /** For consistent statuses both averages are percentages. */
  lemma SummaryInRange(xs: seq<FHTCStatus>)
    ensures (forall f :: f in xs ==> Consistent(f)) ==>
              0.0 <= Summarize(xs).avgCoveragePct <= 100.0 && 0.0 <= Summarize(xs).avgFunctionalPct <= 100.0
  {
    if xs != [] && forall f :: f in xs ==> Consistent(f) {
      forall f | f in xs ensures 0.0 <= CoverageOf()(f) <= 100.0 {
        if f.totalHouseholds > 0 {
          assert CoveragePct(f) <= 100.0;
        }
      }
      MeanBounds(xs, CoverageOf(), 0.0, 100.0);
      var withConnections := Filter(xs, HasConnections());
      if withConnections != [] {
        forall f | f in withConnections ensures 0.0 <= FunctionalOf()(f) <= 100.0 {
          assert FunctionalPct(f) <= 100.0;
        }
        MeanBounds(withConnections, FunctionalOf(), 0.0, 100.0);
      }
    }
  }

  /** The statuses whose coverage is below `targetPct`. */
  function BelowTargetOf(xs: seq<FHTCStatus>, targetPct: real): (r: seq<FHTCStatus>)
    ensures forall f :: f in r <==> f in xs && CoveragePct(f) < targetPct
  {
    Filter(xs, CoverageBelow(targetPct))
  }

  /**
   * With the default target of 100%, a consistent status with at least one household is below
   * target exactly when some household lacks a connection. (A status with no households has
   * coverage 0, so it is always below target.)
   */
  lemma BelowFullTarget(xs: seq<FHTCStatus>, f: FHTCStatus)
    requires f in xs && Consistent(f) && f.totalHouseholds > 0
    ensures f in BelowTargetOf(xs, 100.0) <==> f.fhtcProvided < f.totalHouseholds
  {
    var h := f.totalHouseholds as real;
    var c := CoveragePct(f);
    assert c * h == (f.fhtcProvided as real) * 100.0;
    if f.fhtcProvided < f.totalHouseholds {
      assert c * h < 100.0 * h;
    } else {
      assert c * h == 100.0 * h;
    }
  }

  /** Households still to be connected in a panchayat: 0 when it is untracked or fully connected. */
  function Gap(status: Option<FHTCStatus>): (r: int)
    ensures r >= 0
    ensures status.None? ==> r == 0
    ensures status.Some? && status.value.fhtcProvided <= status.value.totalHouseholds ==>
              status.value.fhtcProvided + r == status.value.totalHouseholds
    ensures status.Some? && status.value.fhtcProvided >= status.value.totalHouseholds ==> r == 0
  {
    match status
    case None => 0
    case Some(f) => if f.totalHouseholds - f.fhtcProvided > 0 then f.totalHouseholds - f.fhtcProvided else 0
  }

  /** Supply per person, the standard, and the litres per day missing to meet it. */
  datatype LpcdResult = LpcdResult(actualLpcd: real, requiredLpcd: real, gapLpd: real)

  /**
   * The supply check against the 55 litres per person per day standard. A panchayat of population 0
   * reports no supply and no gap.
   */
  function LpcdCheck(population: int, totalSupplyLpd: real): (r: LpcdResult)
    ensures r.requiredLpcd == JjmLpcdStandard as real
    ensures r.gapLpd >= 0.0
    ensures population == 0 ==> r.actualLpcd == 0.0 && r.gapLpd == 0.0
    ensures population != 0 ==> r.actualLpcd * (population as real) == totalSupplyLpd
    ensures population != 0 ==>
              (r.gapLpd == 0.0 <==> totalSupplyLpd >= (population * JjmLpcdStandard) as real)
    ensures population != 0 && r.gapLpd > 0.0 ==>
              totalSupplyLpd + r.gapLpd == (population * JjmLpcdStandard) as real
  {
    if population == 0 then LpcdResult(0.0, JjmLpcdStandard as real, 0.0)
    else
      var required := (population * JjmLpcdStandard) as real;
      LpcdResult(totalSupplyLpd / (population as real), JjmLpcdStandard as real,
                 if required - totalSupplyLpd > 0.0 then required - totalSupplyLpd else 0.0)
  }

  /** For a positive population, the gap is zero exactly when the supply per person meets the standard. */
  lemma LpcdGapMeansBelowStandard(population: int, totalSupplyLpd: real)
    requires population > 0
    ensures LpcdCheck(population, totalSupplyLpd).gapLpd == 0.0
        <==> LpcdCheck(population, totalSupplyLpd).actualLpcd >= JjmLpcdStandard as real
  {
    var r := LpcdCheck(population, totalSupplyLpd);
    var n := population as real;
    assert r.actualLpcd * n == totalSupplyLpd;
    assert (population * JjmLpcdStandard) as real == 55.0 * n;
    if r.actualLpcd >= 55.0 {
      assert r.actualLpcd * n >= 55.0 * n;
    } else {
      assert r.actualLpcd * n < 55.0 * n;
    }
  }

  // ---------------------------------------------------------------------------------------------
  // The tracker

  class JJMTracker {
    /** The latest status per panchayat id, and the ids in first-update order. */
    var records: map<string, FHTCStatus>
    var order: seq<string>

    /** The dictionary is well formed and every status is stored under its own panchayat id. */
    ghost predicate Valid()
      reads this
    {
      Dict.WellFormed(order, records) && forall k :: k in records ==> records[k].panchayatId == k
    }

    constructor ()
      ensures Valid()
      ensures records == map[] && order == []
    {
      records := map[];
      order := [];
    }

    /** Stores the status under its panchayat, replacing an earlier one in place. */
    method Update(status: FHTCStatus)
      requires Valid()
      modifies this
      ensures Valid()
      ensures records == old(records)[status.panchayatId := status]
      ensures order == Dict.KeysAfterPut(old(order), old(records), status.panchayatId)
      ensures status.panchayatId !in old(records) ==> AllStatuses() == old(AllStatuses()) + [status]
      ensures status.panchayatId in old(records) ==>
                status.panchayatId in old(order)
                && Dict.IndexOf(old(order), status.panchayatId) < |old(AllStatuses())|
      ensures status.panchayatId in old(records) ==>
                AllStatuses() == old(AllStatuses())[Dict.IndexOf(old(order), status.panchayatId) := status]
      ensures Get(status.panchayatId) == Some(status)
      ensures forall id :: id != status.panchayatId ==> Get(id) == old(Get(id))
    {
      if status.panchayatId in records {
        Dict.PutExisting(order, records, status.panchayatId, status);
      } else {
        Dict.PutNew(order, records, status.panchayatId, status);
      }
      order := Dict.KeysAfterPut(order, records, status.panchayatId);
      records := records[status.panchayatId := status];
    }

    function Get(panchayatId: string): (r: Option<FHTCStatus>)
      reads this
      ensures r.Some? <==> panchayatId in records
      ensures Valid() && r.Some? ==> r.value.panchayatId == panchayatId
    {
      if panchayatId in records then Some(records[panchayatId]) else None
    }

    /** The tracked statuses in first-update order. */
    function AllStatuses(): (r: seq<FHTCStatus>)
      requires Valid()
      reads this
      ensures |r| == |order|
      ensures forall f :: f in r <==> f in records.Values
    {
      Dict.ValuesAt(order, records);
      Dict.ValuesMembers(order, records);
      Dict.Values(order, records)
    }

    function Summary(): (r: CoverageSummary)
      requires Valid()
      reads this
      ensures records == map[] ==> r == CoverageSummary(0.0, 0.0)
      ensures (forall f :: f in records.Values ==> Consistent(f)) ==>
                0.0 <= r.avgCoveragePct <= 100.0 && 0.0 <= r.avgFunctionalPct <= 100.0
    {
      SummaryInRange(AllStatuses());
      Summarize(AllStatuses())
    }

    function BelowTarget(targetPct: real): (r: seq<FHTCStatus>)
      requires Valid()
      reads this
      ensures forall f :: f in r <==> f in records.Values && CoveragePct(f) < targetPct
    {
      BelowTargetOf(AllStatuses(), targetPct)
    }

    function DemandGap(panchayatId: string): (r: int)
      reads this
      ensures r >= 0
      ensures panchayatId !in records ==> r == 0
    {
      Gap(Get(panchayatId))
    }
  }
}
