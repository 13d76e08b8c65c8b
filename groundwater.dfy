/**
 * Groundwater monitoring: a growing list of seasonal depth readings per panchayat, the history in
 * (year, season) order, the latest reading, whether pre-monsoon depth has been falling year on
 * year, the recovery over the latest monsoon, and the depth categories.
 */
module Groundwater {
  import opened Wrappers
  import opened Seqs
  import opened Sorting
  import opened Models

  // ---------------------------------------------------------------------------------------------
  // History order

  /**
   * Python orders the history by the tuple (year, season text). Text compares character by
   * character, a proper prefix first.
   */
  predicate TextLess(a: string, b: string)
  {
    if a == [] then b != []
    else if b == [] then false
    else if a[0] != b[0] then a[0] < b[0]
    else TextLess(a[1..], b[1..])
  }

  /** Position of a season among the season texts in text order. */
  function SeasonRank(s: SeasonType): (k: int)
    ensures 0 <= k < 4
  {
    match s
    case Monsoon => 0
    case PostMonsoon => 1
    case PreMonsoon => 2
    case Winter => 3
  }

  /** The rank order is the text order of the season values. */
  lemma SeasonRankIsTextOrder(s: SeasonType, t: SeasonType)
    ensures SeasonRank(s) < SeasonRank(t) <==> TextLess(SeasonLabel(s), SeasonLabel(t))
  {
    var a, b := SeasonLabel(s), SeasonLabel(t);
    if s == PreMonsoon && t == PostMonsoon {
      assert a[0] == b[0] && a[1] != b[1];
      assert !TextLess(a[1..], b[1..]);
    } else if s == PostMonsoon && t == PreMonsoon {
      assert a[0] == b[0] && a[1] != b[1];
      assert TextLess(a[1..], b[1..]);
    } else if s == t {
      TextLessIrreflexive(a);
    } else {
      assert a[0] != b[0];
    }
  }

  lemma {:induction false} TextLessIrreflexive(a: string)
    ensures !TextLess(a, a)
  {
    if a != [] {
      TextLessIrreflexive(a[1..]);
    }
  }

  /** The sort key of a reading as one integer: year first, then season rank. */
  function HistoryKey(): GroundwaterLevel -> int
  {
    (g: GroundwaterLevel) => g.year * 4 + SeasonRank(g.season)
  }

  /** Python's `(g.year, g.season.value) < (h.year, h.season.value)`. */
  predicate TupleLess(g: GroundwaterLevel, h: GroundwaterLevel)
  {
    g.year < h.year || (g.year == h.year && TextLess(SeasonLabel(g.season), SeasonLabel(h.season)))
  }

  /** The integer key orders readings as the tuple key does, and ties exactly when the tuples are equal. */
  lemma HistoryKeyIsTupleOrder(g: GroundwaterLevel, h: GroundwaterLevel)
    ensures HistoryKey()(g) < HistoryKey()(h) <==> TupleLess(g, h)
    ensures HistoryKey()(g) == HistoryKey()(h) <==> g.year == h.year && g.season == h.season
  {
    SeasonRankIsTextOrder(g.season, h.season);
    var rg, rh := SeasonRank(g.season), SeasonRank(h.season);
    if g.year < h.year {
      assert g.year * 4 + rg < h.year * 4 + rh;
    } else if g.year > h.year {
      assert g.year * 4 + rg > h.year * 4 + rh;
    }
    if rg == rh {
      assert g.season == h.season by {
        SeasonRankInjective(g.season, h.season);
      }
    }
  }

  lemma SeasonRankInjective(s: SeasonType, t: SeasonType)
    requires SeasonRank(s) == SeasonRank(t)
    ensures s == t
  {
  }

  function InUnit(p: string): GroundwaterLevel -> bool
  {
    (g: GroundwaterLevel) => g.panchayatId == p
  }

  function SeasonIn(p: string, s: SeasonType): GroundwaterLevel -> bool
  {
    (g: GroundwaterLevel) => g.panchayatId == p && g.season == s
  }

  function YearOf(): GroundwaterLevel -> int
  {
    (g: GroundwaterLevel) => g.year
  }

  /** The readings of one panchayat, stably sorted by (year, season text). */
  function History(xs: seq<GroundwaterLevel>, p: string): (r: seq<GroundwaterLevel>)
    ensures multiset(r) == multiset(Filter(xs, InUnit(p)))
    ensures forall g :: g in r <==> g in xs && g.panchayatId == p
  {
    SortByMembers(Filter(xs, InUnit(p)), HistoryKey());
    SortBy(Filter(xs, InUnit(p)), HistoryKey())
  }

  /** The history is in tuple order: no reading precedes one that is tuple-smaller. */
  lemma HistoryOrdered(xs: seq<GroundwaterLevel>, p: string)
    ensures forall i, j :: 0 <= i < j < |History(xs, p)| ==> !TupleLess(History(xs, p)[j], History(xs, p)[i])
  {
    var r := History(xs, p);
    SortBySorted(Filter(xs, InUnit(p)), HistoryKey());
    forall i, j | 0 <= i < j < |r| ensures !TupleLess(r[j], r[i]) {
      HistoryKeyIsTupleOrder(r[j], r[i]);
    }
  }

  /** Readings of the same year and season keep the order in which they were added. */
  lemma HistoryStable(xs: seq<GroundwaterLevel>, p: string, k: int)
    ensures Filter(History(xs, p), HasKey(HistoryKey(), k)) == Filter(Filter(xs, InUnit(p)), HasKey(HistoryKey(), k))
  {
    SortByStable(Filter(xs, InUnit(p)), HistoryKey(), k);
  }

  /** The last entry of the history, if any. */
  function LatestOf(xs: seq<GroundwaterLevel>, p: string): (r: Option<GroundwaterLevel>)
    ensures r.None? <==> forall g :: g in xs ==> g.panchayatId != p
    ensures r.Some? ==> r.value in xs && r.value.panchayatId == p
  {
    var h := History(xs, p);
    if h == [] then None
    else
      assert h[|h| - 1] in h;
      Some(h[|h| - 1])
  }

  /**
   * The latest reading has the greatest (year, season) of the panchayat, and among readings of
   * that year and season it is the one added last.
   */
  lemma LatestIsGreatest(xs: seq<GroundwaterLevel>, p: string)
    requires LatestOf(xs, p).Some?
    ensures forall g :: g in xs && g.panchayatId == p ==> !TupleLess(LatestOf(xs, p).value, g)
    ensures var l := LatestOf(xs, p).value;
            var same := Filter(Filter(xs, InUnit(p)), HasKey(HistoryKey(), HistoryKey()(l)));
            same != [] && same[|same| - 1] == l
  {
    LatestHasGreatestKey(xs, p);
    LatestIsLastOfKey(xs, p);
  }

  lemma LatestHasGreatestKey(xs: seq<GroundwaterLevel>, p: string)
    requires LatestOf(xs, p).Some?
    ensures forall g :: g in xs && g.panchayatId == p ==> !TupleLess(LatestOf(xs, p).value, g)
  {
    var h := History(xs, p);
    var n := |h|;
    var l := h[n - 1];
    assert LatestOf(xs, p).value == l;
    SortBySorted(Filter(xs, InUnit(p)), HistoryKey());
    SortedLastIsMax(h, HistoryKey());
    forall g | g in xs && g.panchayatId == p ensures !TupleLess(l, g) {
      HistoryKeyIsTupleOrder(l, g);
    }
  }

  lemma LatestIsLastOfKey(xs: seq<GroundwaterLevel>, p: string)
    requires LatestOf(xs, p).Some?
    ensures var l := LatestOf(xs, p).value;
            var same := Filter(Filter(xs, InUnit(p)), HasKey(HistoryKey(), HistoryKey()(l)));
            same != [] && same[|same| - 1] == l
  {
    LatestIsSortedLast(xs, p);
    SortedLastIsLastOfKey(Filter(xs, InUnit(p)), HistoryKey(), LatestOf(xs, p).value);
  }

  /** The latest reading is the last of the panchayat's readings sorted by key. */
  lemma LatestIsSortedLast(xs: seq<GroundwaterLevel>, p: string)
    requires LatestOf(xs, p).Some?
    ensures Filter(xs, InUnit(p)) != []
    ensures LatestOf(xs, p).value == SortBy(Filter(xs, InUnit(p)), HistoryKey())[|Filter(xs, InUnit(p))| - 1]
  {
    LatestIsHistoryLast(xs, p);
    HistoryIsSort(xs, p);
  }

  lemma LatestIsHistoryLast(xs: seq<GroundwaterLevel>, p: string)
    requires LatestOf(xs, p).Some?
    ensures History(xs, p) != [] && LatestOf(xs, p).value == History(xs, p)[|History(xs, p)| - 1]
  {
  }

  lemma HistoryIsSort(xs: seq<GroundwaterLevel>, p: string)
    ensures History(xs, p) == SortBy(Filter(xs, InUnit(p)), HistoryKey())
  {
  }

  // ---------------------------------------------------------------------------------------------
  // Declining trend

  /** The pre-monsoon readings of a panchayat, stably sorted by year. */
  function PreMonsoonHistory(xs: seq<GroundwaterLevel>, p: string): (r: seq<GroundwaterLevel>)
    ensures multiset(r) == multiset(Filter(xs, SeasonIn(p, PreMonsoon)))
    ensures SortedBy(r, YearOf())
    ensures forall k :: Filter(r, HasKey(YearOf(), k)) == Filter(Filter(xs, SeasonIn(p, PreMonsoon)), HasKey(YearOf(), k))
  {
    SortBySorted(Filter(xs, SeasonIn(p, PreMonsoon)), YearOf());
    SortByStableAll(Filter(xs, SeasonIn(p, PreMonsoon)), YearOf());
    SortBy(Filter(xs, SeasonIn(p, PreMonsoon)), YearOf())
  }

  /**
   * `recs[-years:]` when there are at least `years` readings, else all of them. With Python's
   * slice rules a positive `years` keeps the last `years`, 0 keeps everything, and a negative
   * count drops the first `-years`.
   */
  function RecentWindow(recs: seq<GroundwaterLevel>, years: int): seq<GroundwaterLevel>
  {
    recs[WindowStart(|recs|, years)..]
  }

  /** Where the window starts in a list of `n` readings. */
  function WindowStart(n: nat, years: int): (start: nat)
    ensures start <= n
    ensures years > 0 ==> start == n - (if years < n then years else n)
    ensures years <= 0 ==> start == (if -years < n then -years else n)
  {
    if n < years then 0
    else if years > 0 then n - years
    else if -years < n then -years
    else n
  }

  /** Each reading of the window is deeper than the one before it, and there are at least two. */
  predicate Deepening(w: seq<GroundwaterLevel>)
  {
    |w| >= 2 && forall i :: 1 <= i < |w| ==> w[i].depthMeters > w[i - 1].depthMeters
  }

  /** Deepening step by step is the same as every later reading being deeper than every earlier one. */
  lemma DeepeningIsStrictlyIncreasing(w: seq<GroundwaterLevel>)
    ensures Deepening(w) <==> |w| >= 2 && forall i, j :: 0 <= i < j < |w| ==> w[i].depthMeters < w[j].depthMeters
  {
    if Deepening(w) {
      forall i, j | 0 <= i < j < |w| ensures w[i].depthMeters < w[j].depthMeters {
        DeepeningFrom(w, i, j);
      }
    }
  }

  lemma {:induction false} DeepeningFrom(w: seq<GroundwaterLevel>, i: int, j: int)
    requires Deepening(w) && 0 <= i < j < |w|
    ensures w[i].depthMeters < w[j].depthMeters
    decreases j - i
  {
    if j > i + 1 {
      DeepeningFrom(w, i, j - 1);
    }
  }

  /** The declining-trend verdict, as a function of the readings. */
  predicate DecliningOf(xs: seq<GroundwaterLevel>, p: string, years: int)
  {
    Deepening(RecentWindow(PreMonsoonHistory(xs, p), years))
  }

  /**
   * For a positive window, the trend holds exactly when the last `min(years, n)` of the `n`
   * pre-monsoon readings number at least two and every later one is deeper than every earlier one.
   */
  lemma DecliningMeansLastYearsDeepen(xs: seq<GroundwaterLevel>, p: string, years: int)
    requires years > 0
    ensures var recs := PreMonsoonHistory(xs, p);
            var k := if years < |recs| then years else |recs|;
            DecliningOf(xs, p, years) <==>
              k >= 2 && forall i, j :: |recs| - k <= i < j < |recs| ==> recs[i].depthMeters < recs[j].depthMeters
  {
    var recs := PreMonsoonHistory(xs, p);
    DeepeningIsStrictlyIncreasing(RecentWindow(recs, years));
    SuffixIncreasing(recs, WindowStart(|recs|, years));
  }

  /** A suffix is increasing in depth exactly when the readings from its start on are. */
  lemma SuffixIncreasing(recs: seq<GroundwaterLevel>, start: nat)
    requires start <= |recs|
    ensures (forall i, j :: 0 <= i < j < |recs[start..]| ==> recs[start..][i].depthMeters < recs[start..][j].depthMeters)
        <==> (forall i, j :: start <= i < j < |recs| ==> recs[i].depthMeters < recs[j].depthMeters)
  {
    var w := recs[start..];
    if forall i, j :: start <= i < j < |recs| ==> recs[i].depthMeters < recs[j].depthMeters {
      forall i, j | 0 <= i < j < |w| ensures w[i].depthMeters < w[j].depthMeters {
        assert w[i] == recs[start + i] && w[j] == recs[start + j];
      }
    }
    if forall i, j :: 0 <= i < j < |w| ==> w[i].depthMeters < w[j].depthMeters {
      forall i, j | start <= i < j < |recs| ensures recs[i].depthMeters < recs[j].depthMeters {
        assert recs[i] == w[i - start] && recs[j] == w[j - start];
      }
    }
  }

  /** Fewer than two pre-monsoon readings can never show a trend, whatever the window. */
  lemma NoTrendFromFewReadings(xs: seq<GroundwaterLevel>, p: string, years: int)
    requires |Filter(xs, SeasonIn(p, PreMonsoon))| < 2
    ensures !DecliningOf(xs, p, years)
  {
    var recs := PreMonsoonHistory(xs, p);
    assert |recs| == |multiset(recs)|;
  }

  /** A window of one year can never show a trend. */
  lemma NoTrendFromOneYear(xs: seq<GroundwaterLevel>, p: string)
    ensures !DecliningOf(xs, p, 1)
  {
  }

  // ---------------------------------------------------------------------------------------------
  // Recharge potential and depth categories

  /** Index of the first reading of the greatest year, as `max(..., key=year)` picks it. */
  function FirstLatestYear(xs: seq<GroundwaterLevel>): (i: nat)
    requires xs != []
    ensures i < |xs|
    ensures forall j :: 0 <= j < |xs| ==> xs[j].year <= xs[i].year
    ensures forall j :: 0 <= j < i ==> xs[j].year < xs[i].year
  {
    if |xs| == 1 then 0
    else
      var k := FirstLatestYear(xs[..|xs| - 1]);
      if xs[|xs| - 1].year > xs[k].year then |xs| - 1 else k
  }

  datatype Recharge = RechargeHigh | RechargeModerate | RechargeLow | RechargeNegligible | InsufficientData

  /** Recovery bands in metres: above 5 high, above 2 moderate, above 0 low, else negligible. */
  function RechargeBand(recovery: real): (r: Recharge)
    ensures r != InsufficientData
    ensures r == RechargeHigh <==> recovery > 5.0
    ensures r == RechargeModerate <==> 2.0 < recovery <= 5.0
    ensures r == RechargeLow <==> 0.0 < recovery <= 2.0
    ensures r == RechargeNegligible <==> recovery <= 0.0
  {
    if recovery > 5.0 then RechargeHigh
    else if recovery > 2.0 then RechargeModerate
    else if recovery > 0.0 then RechargeLow
    else RechargeNegligible
  }

  function BandStrength(r: Recharge): int
  {
    match r
    case RechargeHigh => 3
    case RechargeModerate => 2
    case RechargeLow => 1
    case RechargeNegligible => 0
    case InsufficientData => -1
  }

  /** More monsoon recovery never gives a weaker band. */
  lemma RechargeBandMonotone(a: real, b: real)
    requires a <= b
    ensures BandStrength(RechargeBand(a)) <= BandStrength(RechargeBand(b))
  {
  }

  /**
   * Recharge from the latest pre-monsoon and post-monsoon readings: their depths differ by the
   * monsoon recovery. Both seasons must be on record and their latest readings of the same year.
   */
  function RechargeOf(xs: seq<GroundwaterLevel>, p: string): (r: Recharge)
    ensures r == InsufficientData <==>
              || Filter(xs, SeasonIn(p, PreMonsoon)) == []
              || Filter(xs, SeasonIn(p, PostMonsoon)) == []
              || LatestPre(xs, p).year != LatestPost(xs, p).year
    ensures r != InsufficientData ==>
              r == RechargeBand(LatestPre(xs, p).depthMeters - LatestPost(xs, p).depthMeters)
  {
    var pre := Filter(xs, SeasonIn(p, PreMonsoon));
    var post := Filter(xs, SeasonIn(p, PostMonsoon));
    if pre == [] || post == [] then InsufficientData
    else
      var latestPre := pre[FirstLatestYear(pre)];
      var latestPost := post[FirstLatestYear(post)];
      if latestPre.year != latestPost.year then InsufficientData
      else RechargeBand(latestPre.depthMeters - latestPost.depthMeters)
  }

  /** The pre-monsoon reading of the greatest year (the first one added, on a tie). */
  function LatestPre(xs: seq<GroundwaterLevel>, p: string): (g: GroundwaterLevel)
    requires Filter(xs, SeasonIn(p, PreMonsoon)) != []
    ensures g in xs && g.panchayatId == p && g.season == PreMonsoon
    ensures forall h :: h in xs && h.panchayatId == p && h.season == PreMonsoon ==> h.year <= g.year
    ensures g == Filter(xs, SeasonIn(p, PreMonsoon))[FirstLatestYear(Filter(xs, SeasonIn(p, PreMonsoon)))]
  {
    LatestOfSeason(xs, p, PreMonsoon)
  }

  /** The post-monsoon reading of the greatest year (the first one added, on a tie). */
  function LatestPost(xs: seq<GroundwaterLevel>, p: string): (g: GroundwaterLevel)
    requires Filter(xs, SeasonIn(p, PostMonsoon)) != []
    ensures g in xs && g.panchayatId == p && g.season == PostMonsoon
    ensures forall h :: h in xs && h.panchayatId == p && h.season == PostMonsoon ==> h.year <= g.year
    ensures g == Filter(xs, SeasonIn(p, PostMonsoon))[FirstLatestYear(Filter(xs, SeasonIn(p, PostMonsoon)))]
  {
    LatestOfSeason(xs, p, PostMonsoon)
  }

  /** The reading of season `s` with the greatest year; on a tie, the first one added. */
  function LatestOfSeason(xs: seq<GroundwaterLevel>, p: string, s: SeasonType): (g: GroundwaterLevel)
    requires Filter(xs, SeasonIn(p, s)) != []
    ensures g in xs && g.panchayatId == p && g.season == s
    ensures forall h :: h in xs && h.panchayatId == p && h.season == s ==> h.year <= g.year
    ensures g == Filter(xs, SeasonIn(p, s))[FirstLatestYear(Filter(xs, SeasonIn(p, s)))]
  {
    var ys := Filter(xs, SeasonIn(p, s));
    var i := FirstLatestYear(ys);
    assert ys[i] in ys;
    forall h | h in xs && h.panchayatId == p && h.season == s ensures h.year <= ys[i].year {
      assert h in ys;
      var j :| 0 <= j < |ys| && ys[j] == h;
    }
    ys[i]
  }

  datatype DepthCategory = VeryShallow | Shallow | ModerateDepth | Deep | VeryDeep

  /** Depth bands in metres: below 2, below 8, below 20, below 40, and 40 or more. */
  function CategorizeLevel(depthMeters: real): (c: DepthCategory)
    ensures c == VeryShallow <==> depthMeters < 2.0
    ensures c == Shallow <==> 2.0 <= depthMeters < 8.0
    ensures c == ModerateDepth <==> 8.0 <= depthMeters < 20.0
    ensures c == Deep <==> 20.0 <= depthMeters < 40.0
    ensures c == VeryDeep <==> depthMeters >= 40.0
  {
    if depthMeters < 2.0 then VeryShallow
    else if depthMeters < 8.0 then Shallow
    else if depthMeters < 20.0 then ModerateDepth
    else if depthMeters < 40.0 then Deep
    else VeryDeep
  }

  function CategoryDepthRank(c: DepthCategory): int
  {
    match c
    case VeryShallow => 0
    case Shallow => 1
    case ModerateDepth => 2
    case Deep => 3
    case VeryDeep => 4
  }

  /** A deeper water table is never in a shallower category. */
  lemma CategorizeLevelMonotone(a: real, b: real)
    requires a <= b
    ensures CategoryDepthRank(CategorizeLevel(a)) <= CategoryDepthRank(CategorizeLevel(b))
  {
  }

  // ---------------------------------------------------------------------------------------------
  // The monitor

  class GroundwaterMonitor {
    /** Every reading, in the order added. */
    var records: seq<GroundwaterLevel>

    constructor ()
      ensures records == []
    {
      records := [];
    }

    method Add(g: GroundwaterLevel)
      modifies this
      ensures records == old(records) + [g]
    {
      records := records + [g];
    }

    function ByPanchayat(p: string): seq<GroundwaterLevel>
      reads this
    {
      History(records, p)
    }

    function Latest(p: string): Option<GroundwaterLevel>
      reads this
    {
      LatestOf(records, p)
    }

    /**
     * Whether the pre-monsoon depth of the last `years` years (all years when fewer are on
     * record) rose from each year to the next.
     */
    method DecliningTrend(p: string, years: int) returns (declining: bool)
      ensures declining == DecliningOf(records, p, years)
    {
      var recs := Filter(records, SeasonIn(p, PreMonsoon));
      recs := SortBy(recs, YearOf());
      assert recs == PreMonsoonHistory(records, p);
      var recent := RecentWindow(recs, years);
      assert DecliningOf(records, p, years) == Deepening(recent);
      if |recent| < 2 {
        return false;
      }
      var i := 1;
      while i < |recent|
        invariant 1 <= i <= |recent|
        invariant forall j :: 1 <= j < i ==> recent[j].depthMeters > recent[j - 1].depthMeters
      {
        if recent[i].depthMeters <= recent[i - 1].depthMeters {
          return false;
        }
        i := i + 1;
      }
      return true;
    }

    function RechargePotential(p: string): Recharge
      reads this
    {
      RechargeOf(records, p)
    }
  }
}
