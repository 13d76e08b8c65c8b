/**
 * Quality grading engine: grades a water sample, lists the parameters that exceed their acceptable
 * limit, and suggests treatments. The grade is always recomputed from the measurements; the
 * `grade` field a report carries is ignored.
 */
module Quality {
  import opened Models
  import opened Thresholds

  // ---------------------------------------------------------------------------------------------
  // Grading

  /** Some measurement is beyond a hazard-tier bound, or coliform bacteria are present. */
  predicate HazardTier(r: WaterQualityReport)
  {
    || r.ph < PhHazardLow || r.ph > PhHazardHigh
    || r.tdsPpm > TdsPermissible
    || r.fluoridePpm > FluoridePermissible
    || r.arsenicPpb > ArsenicMaxPpb
    || r.nitratePpm > NitrateMax
    || r.coliformPresent
  }

  /** Some measurement is beyond a contaminated-tier bound (turbidity and iron at their permissible limit). */
  predicate ContaminatedTier(r: WaterQualityReport)
  {
    || r.ph < PhMin || r.ph > PhMax
    || r.tdsPpm > TdsAcceptable
    || r.turbidityNtu > TurbidityPermissible
    || r.fluoridePpm > FluorideAcceptable
    || r.ironPpm > IronPermissible
  }

  /** The four parameters that decide between safe and acceptable are all within their acceptable limit. */
  predicate WithinAcceptable(r: WaterQualityReport)
  {
    && r.tdsPpm <= TdsAcceptable
    && r.turbidityNtu <= TurbidityAcceptable
    && r.fluoridePpm <= FluorideAcceptable
    && r.ironPpm <= IronAcceptable
  }

  /** The grade, by precedence: hazardous over contaminated over safe-or-acceptable. */
  function Grade(r: WaterQualityReport): WaterQualityGrade
  {
    if HazardTier(r) then Hazardous
    else if ContaminatedTier(r) then Contaminated
    else if WithinAcceptable(r) then Safe
    else Acceptable
  }

  /**
   * Each parameter is checked in turn and may set one of two flags, without early return; the
   * flags are combined at the end. The result is the precedence grade.
   */
  method GradeReport(r: WaterQualityReport) returns (g: WaterQualityGrade)
    ensures g == Grade(r)
    ensures r.coliformPresent ==> g == Hazardous
    ensures g == Safe <==> !HazardTier(r) && !ContaminatedTier(r) && WithinAcceptable(r)
  {
    var hazardous := false;
    var contaminated := false;

    if r.ph < PhHazardLow || r.ph > PhHazardHigh {
      hazardous := true;
    } else if r.ph < PhMin || r.ph > PhMax {
      contaminated := true;
    }

    if r.tdsPpm > TdsPermissible {
      hazardous := true;
    } else if r.tdsPpm > TdsAcceptable {
      contaminated := true;
    }

    if r.turbidityNtu > TurbidityPermissible {
      contaminated := true;
    }

    if r.fluoridePpm > FluoridePermissible {
      hazardous := true;
    } else if r.fluoridePpm > FluorideAcceptable {
      contaminated := true;
    }

    if r.arsenicPpb > ArsenicMaxPpb {
      hazardous := true;
    }

    if r.ironPpm > IronPermissible {
      contaminated := true;
    }

    if r.nitratePpm > NitrateMax {
      hazardous := true;
    }

    if r.coliformPresent {
      hazardous := true;
    }

    if hazardous {
      return Hazardous;
    }
    if contaminated {
      return Contaminated;
    }
    if r.tdsPpm <= TdsAcceptable && r.turbidityNtu <= TurbidityAcceptable
       && r.fluoridePpm <= FluorideAcceptable && r.ironPpm <= IronAcceptable
    {
      return Safe;
    }
    return Acceptable;
  }

  // ---------------------------------------------------------------------------------------------
  // Contaminant listing

  /** One issue per acceptable-tier bound; the description text is not modelled. */
  datatype Contaminant =
    PhLow | PhHigh | HighTds | HighTurbidity | HighFluoride | HighArsenic | HighIron | HighNitrate
    | HighChloride | Coliform

  const ContaminantCount: nat := 10

  /** Position of an issue in the fixed reporting order. */
  function ContaminantRank(c: Contaminant): (k: nat)
    ensures k < ContaminantCount
  {
    match c
    case PhLow => 0
    case PhHigh => 1
    case HighTds => 2
    case HighTurbidity => 3
    case HighFluoride => 4
    case HighArsenic => 5
    case HighIron => 6
    case HighNitrate => 7
    case HighChloride => 8
    case Coliform => 9
  }

  /** The issue at a position of the reporting order. */
  function ContaminantAt(k: nat): (c: Contaminant)
    requires k < ContaminantCount
    ensures ContaminantRank(c) == k
  {
    if k == 0 then PhLow
    else if k == 1 then PhHigh
    else if k == 2 then HighTds
    else if k == 3 then HighTurbidity
    else if k == 4 then HighFluoride
    else if k == 5 then HighArsenic
    else if k == 6 then HighIron
    else if k == 7 then HighNitrate
    else if k == 8 then HighChloride
    else Coliform
  }

  lemma ContaminantAtRank(c: Contaminant)
    ensures ContaminantAt(ContaminantRank(c)) == c
  {
    match c
    case PhLow =>
    case PhHigh =>
    case HighTds =>
    case HighTurbidity =>
    case HighFluoride =>
    case HighArsenic =>
    case HighIron =>
    case HighNitrate =>
    case HighChloride =>
    case Coliform =>
  }

  /** The guard under which an issue is reported. */
  predicate Exceeds(r: WaterQualityReport, c: Contaminant)
  {
    match c
    case PhLow => r.ph < PhMin
    case PhHigh => r.ph > PhMax
    case HighTds => r.tdsPpm > TdsAcceptable
    case HighTurbidity => r.turbidityNtu > TurbidityAcceptable
    case HighFluoride => r.fluoridePpm > FluorideAcceptable
    case HighArsenic => r.arsenicPpb > ArsenicMaxPpb
    case HighIron => r.ironPpm > IronAcceptable
    case HighNitrate => r.nitratePpm > NitrateMax
    case HighChloride => r.chloridePpm > ChlorideAcceptable
    case Coliform => r.coliformPresent
  }

  /** The issues among the first `k` positions of the reporting order, in that order. */
  function IssuesBelow(r: WaterQualityReport, k: nat): seq<Contaminant>
    requires k <= ContaminantCount
  {
    if k == 0 then []
    else if Exceeds(r, ContaminantAt(k - 1)) then IssuesBelow(r, k - 1) + [ContaminantAt(k - 1)]
    else IssuesBelow(r, k - 1)
  }

  lemma {:induction false} IssuesBelowSpec(r: WaterQualityReport, k: nat)
    requires k <= ContaminantCount
    ensures forall c :: c in IssuesBelow(r, k) <==> ContaminantRank(c) < k && Exceeds(r, c)
    ensures forall i, j :: 0 <= i < j < |IssuesBelow(r, k)| ==>
              ContaminantRank(IssuesBelow(r, k)[i]) < ContaminantRank(IssuesBelow(r, k)[j])
  {
    if k > 0 {
      IssuesBelowSpec(r, k - 1);
      forall c | ContaminantRank(c) == k - 1 ensures c == ContaminantAt(k - 1) {
        ContaminantAtRank(c);
      }
    }
  }

  /**
   * The issues of a report: exactly the parameters whose guard holds, each once, in the fixed
   * reporting order.
   */
  function Contaminants(r: WaterQualityReport): (cs: seq<Contaminant>)
    ensures forall c :: c in cs <==> Exceeds(r, c)
    ensures forall i, j :: 0 <= i < j < |cs| ==> ContaminantRank(cs[i]) < ContaminantRank(cs[j])
  {
    IssuesBelowSpec(r, ContaminantCount);
    IssuesBelow(r, ContaminantCount)
  }

  method IdentifyContaminants(r: WaterQualityReport) returns (issues: seq<Contaminant>)
    ensures issues == Contaminants(r)
  {
    issues := [];
    if r.ph < PhMin {
      issues := issues + [PhLow];
    }
    assert issues == IssuesBelow(r, 1) by { assert ContaminantAt(0) == PhLow; }
    if r.ph > PhMax {
      issues := issues + [PhHigh];
    }
    assert issues == IssuesBelow(r, 2) by { assert ContaminantAt(1) == PhHigh; }
    if r.tdsPpm > TdsAcceptable {
      issues := issues + [HighTds];
    }
    assert issues == IssuesBelow(r, 3) by { assert ContaminantAt(2) == HighTds; }
    if r.turbidityNtu > TurbidityAcceptable {
      issues := issues + [HighTurbidity];
    }
    assert issues == IssuesBelow(r, 4) by { assert ContaminantAt(3) == HighTurbidity; }
    if r.fluoridePpm > FluorideAcceptable {
      issues := issues + [HighFluoride];
    }
    assert issues == IssuesBelow(r, 5) by { assert ContaminantAt(4) == HighFluoride; }
    if r.arsenicPpb > ArsenicMaxPpb {
      issues := issues + [HighArsenic];
    }
    assert issues == IssuesBelow(r, 6) by { assert ContaminantAt(5) == HighArsenic; }
    if r.ironPpm > IronAcceptable {
      issues := issues + [HighIron];
    }
    assert issues == IssuesBelow(r, 7) by { assert ContaminantAt(6) == HighIron; }
    if r.nitratePpm > NitrateMax {
      issues := issues + [HighNitrate];
    }
    assert issues == IssuesBelow(r, 8) by { assert ContaminantAt(7) == HighNitrate; }
    if r.chloridePpm > ChlorideAcceptable {
      issues := issues + [HighChloride];
    }
    assert issues == IssuesBelow(r, 9) by { assert ContaminantAt(8) == HighChloride; }
    if r.coliformPresent {
      issues := issues + [Coliform];
    }
    assert issues == IssuesBelow(r, 10) by { assert ContaminantAt(9) == Coliform; }
  }

  // ---------------------------------------------------------------------------------------------
  // Treatment recommendations

  /** One suggestion per contaminant; the suggestion text is not modelled. */
  datatype Treatment =
    Disinfection | ReverseOsmosis | Defluoridation | ArsenicRemoval | IronRemoval | SandFiltration
    | Denitrification | LimeDosing | AcidDosing

  const TreatmentCount: nat := 9

  /** Position of a treatment in the fixed suggestion order. */
  function TreatmentRank(t: Treatment): (k: nat)
    ensures k < TreatmentCount
  {
    match t
    case Disinfection => 0
    case ReverseOsmosis => 1
    case Defluoridation => 2
    case ArsenicRemoval => 3
    case IronRemoval => 4
    case SandFiltration => 5
    case Denitrification => 6
    case LimeDosing => 7
    case AcidDosing => 8
  }

  /** The treatment at a position of the suggestion order. */
  function TreatmentAt(k: nat): (t: Treatment)
    requires k < TreatmentCount
    ensures TreatmentRank(t) == k
  {
    if k == 0 then Disinfection
    else if k == 1 then ReverseOsmosis
    else if k == 2 then Defluoridation
    else if k == 3 then ArsenicRemoval
    else if k == 4 then IronRemoval
    else if k == 5 then SandFiltration
    else if k == 6 then Denitrification
    else if k == 7 then LimeDosing
    else AcidDosing
  }

  lemma TreatmentAtRank(t: Treatment)
    ensures TreatmentAt(TreatmentRank(t)) == t
  {
    match t
    case Disinfection =>
    case ReverseOsmosis =>
    case Defluoridation =>
    case ArsenicRemoval =>
    case IronRemoval =>
    case SandFiltration =>
    case Denitrification =>
    case LimeDosing =>
    case AcidDosing =>
  }

  /** The guard under which a treatment is suggested. */
  predicate Needs(r: WaterQualityReport, t: Treatment)
  {
    match t
    case Disinfection => r.coliformPresent
    case ReverseOsmosis => r.tdsPpm > TdsAcceptable
    case Defluoridation => r.fluoridePpm > FluorideAcceptable
    case ArsenicRemoval => r.arsenicPpb > ArsenicMaxPpb
    case IronRemoval => r.ironPpm > IronAcceptable
    case SandFiltration => r.turbidityNtu > TurbidityAcceptable
    case Denitrification => r.nitratePpm > NitrateMax
    case LimeDosing => r.ph < PhMin
    case AcidDosing => r.ph > PhMax
  }

  /** The treatments among the first `k` positions of the suggestion order, in that order. */
  function TreatmentsBelow(r: WaterQualityReport, k: nat): seq<Treatment>
    requires k <= TreatmentCount
  {
    if k == 0 then []
    else if Needs(r, TreatmentAt(k - 1)) then TreatmentsBelow(r, k - 1) + [TreatmentAt(k - 1)]
    else TreatmentsBelow(r, k - 1)
  }

  lemma {:induction false} TreatmentsBelowSpec(r: WaterQualityReport, k: nat)
    requires k <= TreatmentCount
    ensures forall t :: t in TreatmentsBelow(r, k) <==> TreatmentRank(t) < k && Needs(r, t)
    ensures forall i, j :: 0 <= i < j < |TreatmentsBelow(r, k)| ==>
              TreatmentRank(TreatmentsBelow(r, k)[i]) < TreatmentRank(TreatmentsBelow(r, k)[j])
  {
    if k > 0 {
      TreatmentsBelowSpec(r, k - 1);
      forall t | TreatmentRank(t) == k - 1 ensures t == TreatmentAt(k - 1) {
        TreatmentAtRank(t);
      }
    }
  }

  /** The suggestions for a report: exactly the treatments whose guard holds, once each, in the fixed order. */
  function Treatments(r: WaterQualityReport): (ts: seq<Treatment>)
    ensures forall t :: t in ts <==> Needs(r, t)
    ensures forall i, j :: 0 <= i < j < |ts| ==> TreatmentRank(ts[i]) < TreatmentRank(ts[j])
  {
    TreatmentsBelowSpec(r, TreatmentCount);
    TreatmentsBelow(r, TreatmentCount)
  }

  method RecommendTreatment(r: WaterQualityReport) returns (treatments: seq<Treatment>)
    ensures treatments == Treatments(r)
  {
    treatments := [];
    if r.coliformPresent {
      treatments := treatments + [Disinfection];
    }
    assert treatments == TreatmentsBelow(r, 1) by { assert TreatmentAt(0) == Disinfection; }
    if r.tdsPpm > TdsAcceptable {
      treatments := treatments + [ReverseOsmosis];
    }
    assert treatments == TreatmentsBelow(r, 2) by { assert TreatmentAt(1) == ReverseOsmosis; }
    if r.fluoridePpm > FluorideAcceptable {
      treatments := treatments + [Defluoridation];
    }
    assert treatments == TreatmentsBelow(r, 3) by { assert TreatmentAt(2) == Defluoridation; }
    if r.arsenicPpb > ArsenicMaxPpb {
      treatments := treatments + [ArsenicRemoval];
    }
    assert treatments == TreatmentsBelow(r, 4) by { assert TreatmentAt(3) == ArsenicRemoval; }
    if r.ironPpm > IronAcceptable {
      treatments := treatments + [IronRemoval];
    }
    assert treatments == TreatmentsBelow(r, 5) by { assert TreatmentAt(4) == IronRemoval; }
    if r.turbidityNtu > TurbidityAcceptable {
      treatments := treatments + [SandFiltration];
    }
    assert treatments == TreatmentsBelow(r, 6) by { assert TreatmentAt(5) == SandFiltration; }
    if r.nitratePpm > NitrateMax {
      treatments := treatments + [Denitrification];
    }
    assert treatments == TreatmentsBelow(r, 7) by { assert TreatmentAt(6) == Denitrification; }
    if r.ph < PhMin {
      treatments := treatments + [LimeDosing];
    }
    assert treatments == TreatmentsBelow(r, 8) by { assert TreatmentAt(7) == LimeDosing; }
    if r.ph > PhMax {
      treatments := treatments + [AcidDosing];
    }
    assert treatments == TreatmentsBelow(r, 9) by { assert TreatmentAt(8) == AcidDosing; }
  }

  // ---------------------------------------------------------------------------------------------
  // How the lists relate to the grade

  /** A report needs no treatment exactly when it grades safe. */
  lemma NoTreatmentIffSafe(r: WaterQualityReport)
    ensures Treatments(r) == [] <==> Grade(r) == Safe
  {
    var ts := Treatments(r);
    if ts == [] {
      assert !Needs(r, Disinfection) && !Needs(r, ReverseOsmosis) && !Needs(r, Defluoridation);
      assert !Needs(r, ArsenicRemoval) && !Needs(r, IronRemoval) && !Needs(r, SandFiltration);
      assert !Needs(r, Denitrification) && !Needs(r, LimeDosing) && !Needs(r, AcidDosing);
    } else {
      assert Needs(r, ts[0]);
    }
  }

  /**
   * A report lists no issue exactly when it grades safe and its chloride is within the acceptable
   * limit: chloride is listed as an issue but never affects the grade.
   */
  lemma NoIssueIffSafeAndLowChloride(r: WaterQualityReport)
    ensures Contaminants(r) == [] <==> Grade(r) == Safe && r.chloridePpm <= ChlorideAcceptable
  {
    var cs := Contaminants(r);
    if cs == [] {
      assert !Exceeds(r, PhLow) && !Exceeds(r, PhHigh) && !Exceeds(r, HighTds);
      assert !Exceeds(r, HighTurbidity) && !Exceeds(r, HighFluoride) && !Exceeds(r, HighArsenic);
      assert !Exceeds(r, HighIron) && !Exceeds(r, HighNitrate) && !Exceeds(r, HighChloride);
      assert !Exceeds(r, Coliform);
    } else {
      assert Exceeds(r, cs[0]);
    }
  }
}
