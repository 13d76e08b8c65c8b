/**
 * The water-source registry of a panchayat: sources keyed by their id, queried by panchayat, by
 * kind, by working state and by yield. The queries are functions of the list of registered
 * sources in registration order; the registry class holds that list as a dictionary.
 */
module Sources {
  import opened Wrappers
  import opened Seqs
  import opened Models
  import Dict

  // ---------------------------------------------------------------------------------------------
  // Queries over the registered sources, in registration order

  function InUnit(p: string): WaterSource -> bool
  {
    (s: WaterSource) => s.panchayatId == p
  }

  function OfKind(t: WaterSourceType): WaterSource -> bool
  {
    (s: WaterSource) => s.sourceType == t
  }

  function Working(): WaterSource -> bool
  {
    (s: WaterSource) => s.isFunctional
  }

  function NotWorking(): WaterSource -> bool
  {
    (s: WaterSource) => !s.isFunctional
  }

  function YieldBelow(thresholdPct: real): WaterSource -> bool
  {
    (s: WaterSource) => YieldPct(s) < thresholdPct
  }

  function YieldOf(): WaterSource -> real
  {
    (s: WaterSource) => s.currentYieldLpd
  }

  /** The sources of one panchayat. */
  function UnitSources(xs: seq<WaterSource>, p: string): (r: seq<WaterSource>)
    ensures forall s :: s in r <==> s in xs && s.panchayatId == p
  {
    Filter(xs, InUnit(p))
  }

  /** The sources of one kind, across all panchayats. */
  function SourcesOfType(xs: seq<WaterSource>, t: WaterSourceType): (r: seq<WaterSource>)
    ensures forall s :: s in r <==> s in xs && s.sourceType == t
  {
    Filter(xs, OfKind(t))
  }

  /** The working sources of one panchayat. */
  function FunctionalSources(xs: seq<WaterSource>, p: string): (r: seq<WaterSource>)
    ensures forall s :: s in r <==> s in xs && s.panchayatId == p && s.isFunctional
  {
    Filter(UnitSources(xs, p), Working())
  }

  /** The sources of one panchayat that are out of order. */
  function NonFunctionalSources(xs: seq<WaterSource>, p: string): (r: seq<WaterSource>)
    ensures forall s :: s in r <==> s in xs && s.panchayatId == p && !s.isFunctional
  {
    Filter(UnitSources(xs, p), NotWorking())
  }

  /** The working sources of one panchayat whose yield is below `thresholdPct` percent of capacity. */
  function LowYieldSources(xs: seq<WaterSource>, p: string, thresholdPct: real): (r: seq<WaterSource>)
    ensures forall s :: s in r <==> s in xs && s.panchayatId == p && s.isFunctional && YieldPct(s) < thresholdPct
  {
    Filter(FunctionalSources(xs, p), YieldBelow(thresholdPct))
  }

  /** Daily supply of a panchayat: the summed current yield of its working sources. */
  function TotalSupply(xs: seq<WaterSource>, p: string): (r: real)
    ensures (forall s :: s in xs ==> ValidSource(s)) ==> r >= 0.0
  {
    SumNonNegative(FunctionalSources(xs, p), YieldOf());
    Sum(FunctionalSources(xs, p), YieldOf())
  }

  /** What one source adds to a panchayat's supply: its yield if it belongs there and works, else nothing. */
  function ContributionTo(p: string): WaterSource -> real
  {
    (s: WaterSource) => if s.panchayatId == p && s.isFunctional then s.currentYieldLpd else 0.0
  }

  /** Reference definition of the supply: the sum of every registered source's contribution. */
  lemma {:induction false} TotalSupplyIsSum(xs: seq<WaterSource>, p: string)
    ensures TotalSupply(xs, p) == Sum(xs, ContributionTo(p))
  {
    if xs != [] {
      var x, rest := xs[0], xs[1..];
      TotalSupplyIsSum(rest, p);
      var us, fs := UnitSources(rest, p), FunctionalSources(rest, p);
      if x.panchayatId == p {
        assert UnitSources(xs, p) == [x] + us;
        assert ([x] + us)[1..] == us;
        if x.isFunctional {
          assert FunctionalSources(xs, p) == [x] + fs;
          assert ([x] + fs)[1..] == fs;
        } else {
          assert FunctionalSources(xs, p) == fs;
        }
      } else {
        assert UnitSources(xs, p) == us;
      }
    }
  }

  /** A panchayat's sources split into its working and its non-working ones. */
  lemma FunctionalPartition(xs: seq<WaterSource>, p: string)
    ensures multiset(FunctionalSources(xs, p)) + multiset(NonFunctionalSources(xs, p))
         == multiset(UnitSources(xs, p))
  {
    FilterPartition(UnitSources(xs, p), Working(), NotWorking());
  }

  /** Adding a source to the end of the list adds its contribution to every panchayat's supply. */
  lemma AppendSupply(xs: seq<WaterSource>, s: WaterSource, p: string)
    ensures TotalSupply(xs + [s], p) == TotalSupply(xs, p) + ContributionTo(p)(s)
  {
    TotalSupplyIsSum(xs + [s], p);
    TotalSupplyIsSum(xs, p);
    SumAppend(xs, [s], ContributionTo(p));
    assert [s][1..] == [];
  }

  /**
   * Registering a source changes a panchayat's supply by the new source's contribution, less the
   * contribution of the source it replaces when its id was already registered.
   */
  lemma RegisterSupply(ks: seq<string>, m: map<string, WaterSource>, s: WaterSource, p: string)
    requires Dict.WellFormed(ks, m)
    ensures TotalSupply(Dict.Values(Dict.KeysAfterPut(ks, m, s.sourceId), m[s.sourceId := s]), p)
         == TotalSupply(Dict.Values(ks, m), p)
            - (if s.sourceId in m then ContributionTo(p)(m[s.sourceId]) else 0.0)
            + ContributionTo(p)(s)
  {
    var vs := Dict.Values(ks, m);
    if s.sourceId in m {
      Dict.PutExisting(ks, m, s.sourceId, s);
      var i := Dict.IndexOf(ks, s.sourceId);
      Dict.ValuesAt(ks, m);
      TotalSupplyIsSum(vs, p);
      TotalSupplyIsSum(vs[i := s], p);
      SumUpdate(vs, i, s, ContributionTo(p));
    } else {
      Dict.PutNew(ks, m, s.sourceId, s);
      AppendSupply(vs, s, p);
    }
  }

  /** Registering a source that is out of order, under a new id or over a source that is also out of order, leaves every supply unchanged. */
  lemma RegisterNonFunctionalKeepsSupply(ks: seq<string>, m: map<string, WaterSource>, s: WaterSource, p: string)
    requires Dict.WellFormed(ks, m)
    requires !s.isFunctional
    requires s.sourceId in m ==> !m[s.sourceId].isFunctional
    ensures TotalSupply(Dict.Values(Dict.KeysAfterPut(ks, m, s.sourceId), m[s.sourceId := s]), p)
         == TotalSupply(Dict.Values(ks, m), p)
  {
    RegisterSupply(ks, m, s, p);
  }

  // ---------------------------------------------------------------------------------------------
  // The registry

  class SourceManager {
    /** The registered sources by id, and the ids in first-registration order. */
    var sources: map<string, WaterSource>
    var order: seq<string>

    /** The dictionary is well formed and every source is stored under its own id. */
    ghost predicate Valid()
      reads this
    {
      Dict.WellFormed(order, sources) && forall k :: k in sources ==> sources[k].sourceId == k
    }

    constructor ()
      ensures Valid()
      ensures sources == map[] && order == []
    {
      sources := map[];
      order := [];
    }

    /** The registered sources in first-registration order. */
    function AllSources(): seq<WaterSource>
      reads this
    {
      Dict.Values(order, sources)
    }

    function Get(sourceId: string): (r: Option<WaterSource>)
      reads this
      ensures r.Some? <==> sourceId in sources
      ensures Valid() && r.Some? ==> r.value.sourceId == sourceId
    {
      if sourceId in sources then Some(sources[sourceId]) else None
    }

    /**
     * Stores the source under its id. A new id goes to the end of the registration order; a known
     * id keeps its place and its previous source is replaced.
     */
    method Register(s: WaterSource)
      requires Valid()
      modifies this
      ensures Valid()
      ensures sources == old(sources)[s.sourceId := s]
      ensures order == Dict.KeysAfterPut(old(order), old(sources), s.sourceId)
      ensures s.sourceId !in old(sources) ==> AllSources() == old(AllSources()) + [s]
      ensures s.sourceId in old(sources) ==>
                s.sourceId in old(order) && Dict.IndexOf(old(order), s.sourceId) < |old(AllSources())|
      ensures s.sourceId in old(sources) ==>
                AllSources() == old(AllSources())[Dict.IndexOf(old(order), s.sourceId) := s]
      ensures Get(s.sourceId) == Some(s)
      ensures forall id :: id != s.sourceId ==> Get(id) == old(Get(id))
    {
      if s.sourceId in sources {
        Dict.PutExisting(order, sources, s.sourceId, s);
      } else {
        Dict.PutNew(order, sources, s.sourceId, s);
      }
      order := Dict.KeysAfterPut(order, sources, s.sourceId);
      sources := sources[s.sourceId := s];
    }

    function ByPanchayat(p: string): (r: seq<WaterSource>)
      requires Valid()
      reads this
      ensures forall s :: s in r <==> s in sources.Values && s.panchayatId == p
    {
      Dict.ValuesMembers(order, sources);
      UnitSources(AllSources(), p)
    }

    function ByType(t: WaterSourceType): (r: seq<WaterSource>)
      requires Valid()
      reads this
      ensures forall s :: s in r <==> s in sources.Values && s.sourceType == t
    {
      Dict.ValuesMembers(order, sources);
      SourcesOfType(AllSources(), t)
    }

    function Functional(p: string): (r: seq<WaterSource>)
      requires Valid()
      reads this
      ensures forall s :: s in r <==> s in sources.Values && s.panchayatId == p && s.isFunctional
    {
      Dict.ValuesMembers(order, sources);
      FunctionalSources(AllSources(), p)
    }

    function NonFunctional(p: string): (r: seq<WaterSource>)
      requires Valid()
      reads this
      ensures forall s :: s in r <==> s in sources.Values && s.panchayatId == p && !s.isFunctional
    {
      Dict.ValuesMembers(order, sources);
      NonFunctionalSources(AllSources(), p)
    }

    function LowYield(p: string, thresholdPct: real): (r: seq<WaterSource>)
      requires Valid()
      reads this
      ensures forall s :: s in r <==>
                s in sources.Values && s.panchayatId == p && s.isFunctional && YieldPct(s) < thresholdPct
    {
      Dict.ValuesMembers(order, sources);
      LowYieldSources(AllSources(), p, thresholdPct)
    }

    function TotalSupplyLpd(p: string): (r: real)
      reads this
      ensures (forall s :: s in AllSources() ==> ValidSource(s)) ==> r >= 0.0
    {
      TotalSupply(AllSources(), p)
    }
  }
}
