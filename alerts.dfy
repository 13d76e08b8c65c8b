/**
 * The alert engine: turns a quality report, a groundwater reading, a supply figure or a rainfall
 * deviation into zero or more alerts, numbering them from one running counter so that no two
 * alerts share an id. Which alerts a check raises is a function of its input and the counter.
 */
module Alerts {
  import opened Models
  import opened Thresholds
  import Quality
  import Coverage
  import Rainfall

  /** Alert ids run consecutively from `start + 1`. */
  predicate NumberedFrom(alerts: seq<WaterAlert>, start: nat)
  {
    forall i :: 0 <= i < |alerts| ==> alerts[i].alertId == start + 1 + i
  }

  // ---------------------------------------------------------------------------------------------
  // What each check raises

  /** A hazardous sample raises an emergency, a contaminated one a warning, any other nothing. */
  function QualityAlerts(r: WaterQualityReport, start: nat): (alerts: seq<WaterAlert>)
    ensures NumberedFrom(alerts, start)
    ensures |alerts| <= 1
    ensures |alerts| == 1 <==> Quality.Grade(r) == Hazardous || Quality.Grade(r) == Contaminated
    ensures Quality.Grade(r) == Hazardous ==> |alerts| == 1 && alerts[0].level == Emergency
    ensures Quality.Grade(r) == Contaminated ==> |alerts| == 1 && alerts[0].level == Warning
    ensures forall a :: a in alerts ==>
              a.category == WaterQuality && a.sourceId == r.sourceId && a.date == r.testDate && a.isActive
  {
    var g := Quality.Grade(r);
    if g == Hazardous then [WaterAlert(start + 1, "", Emergency, WaterQuality, r.sourceId, r.testDate, true)]
    else if g == Contaminated then [WaterAlert(start + 1, "", Warning, WaterQuality, r.sourceId, r.testDate, true)]
    else []
  }

  /** Bacteria in a sample always raise exactly one alert, an emergency. */
  lemma ColiformRaisesEmergency(r: WaterQualityReport, start: nat)
    requires r.coliformPresent
    ensures |QualityAlerts(r, start)| == 1 && QualityAlerts(r, start)[0].level == Emergency
  {
  }

  /** An emergency is raised exactly for a sample beyond a hazard-tier bound. */
  lemma QualityEmergencyIffHazardTier(r: WaterQualityReport, start: nat)
    ensures (exists a :: a in QualityAlerts(r, start) && a.level == Emergency) <==> Quality.HazardTier(r)
  {
    if Quality.HazardTier(r) {
      assert QualityAlerts(r, start)[0] in QualityAlerts(r, start);
    }
  }

  /**
   * A depth alert, critical beyond 40 m and a warning beyond 20 m, followed by a trend warning
   * when the water table fell by more than 2 m over the year.
   */
  function GroundwaterAlerts(g: GroundwaterLevel, start: nat): (alerts: seq<WaterAlert>)
    ensures NumberedFrom(alerts, start)
    ensures |alerts| == (if g.depthMeters > 20.0 then 1 else 0)
                      + (if IsDeclining(g) && ChangeMeters(g) > 2.0 then 1 else 0)
    ensures forall a :: a in alerts ==> a.panchayatId == g.panchayatId && a.isActive
    ensures forall a :: a in alerts && a.category == GroundwaterDepth ==>
              a.level == (if g.depthMeters > 40.0 then Critical else Warning)
    ensures forall a :: a in alerts ==> a.category == GroundwaterDepth || a.category == GroundwaterTrend
    ensures g.depthMeters > 20.0 <==> (|alerts| > 0 && alerts[0].category == GroundwaterDepth)
    ensures (IsDeclining(g) && ChangeMeters(g) > 2.0)
        <==> (|alerts| > 0 && alerts[|alerts| - 1].category == GroundwaterTrend)
    ensures forall a :: a in alerts && a.category == GroundwaterTrend ==> a.level == Warning
  {
    var depth :=
      if g.depthMeters > 40.0 then [WaterAlert(start + 1, g.panchayatId, Critical, GroundwaterDepth, "", "", true)]
      else if g.depthMeters > 20.0 then [WaterAlert(start + 1, g.panchayatId, Warning, GroundwaterDepth, "", "", true)]
      else [];
    var trend :=
      if IsDeclining(g) && ChangeMeters(g) > 2.0 then
        [WaterAlert(start + |depth| + 1, g.panchayatId, Warning, GroundwaterTrend, "", "", true)]
      else [];
    depth + trend
  }

  /** The decline test is implied by the 2 m threshold: a trend alert is raised exactly for a 2 m fall. */
  lemma TrendAlertIffFallAboveTwo(g: GroundwaterLevel, start: nat)
    ensures (exists a :: a in GroundwaterAlerts(g, start) && a.category == GroundwaterTrend)
        <==> ChangeMeters(g) > 2.0
  {
    var alerts := GroundwaterAlerts(g, start);
    if ChangeMeters(g) > 2.0 {
      assert alerts[|alerts| - 1] in alerts;
    }
  }

  /** Supply per person below half the standard is an emergency, below the standard a warning. */
  function SupplyAlerts(population: int, totalSupplyLpd: real, start: nat): (alerts: seq<WaterAlert>)
    ensures NumberedFrom(alerts, start)
    ensures |alerts| <= 1
    ensures population == 0 ==> alerts == []
    ensures population != 0 ==>
              (|alerts| == 1 <==> totalSupplyLpd / (population as real) < JjmLpcdStandard as real)
    ensures population != 0 && |alerts| == 1 ==>
              (alerts[0].level == Emergency <==> totalSupplyLpd / (population as real) < 27.0)
    ensures forall a :: a in alerts ==> a.level == Emergency || a.level == Warning
    ensures forall a :: a in alerts ==> a.category == Supply && a.isActive
  {
    if population == 0 then []
    else
      var lpcd := totalSupplyLpd / (population as real);
      if lpcd < 27.0 then [WaterAlert(start + 1, "", Emergency, Supply, "", "", true)]
      else if lpcd < JjmLpcdStandard as real then [WaterAlert(start + 1, "", Warning, Supply, "", "", true)]
      else []
  }

  /**
   * For a positive population a supply alert is raised exactly when the supply check reports a
   * gap, and it is an emergency exactly when the supply is under 27 litres per person.
   */
  lemma SupplyAlertIffGap(population: int, totalSupplyLpd: real, start: nat)
    requires population > 0
    ensures |SupplyAlerts(population, totalSupplyLpd, start)| == 1
        <==> Coverage.LpcdCheck(population, totalSupplyLpd).gapLpd > 0.0
    ensures (|SupplyAlerts(population, totalSupplyLpd, start)| == 1
             && SupplyAlerts(population, totalSupplyLpd, start)[0].level == Emergency)
        <==> totalSupplyLpd < 27.0 * (population as real)
  {
    Coverage.LpcdGapMeansBelowStandard(population, totalSupplyLpd);
    var n := population as real;
    var lpcd := totalSupplyLpd / n;
    assert lpcd * n == totalSupplyLpd;
    if lpcd < 27.0 {
      assert lpcd * n < 27.0 * n;
    } else {
      assert lpcd * n >= 27.0 * n;
    }
  }

  /** A deviation of at most -40% is a drought emergency; otherwise one of at least 60% a flood emergency. */
  function RainfallAlerts(p: string, deviationPct: real, start: nat): (alerts: seq<WaterAlert>)
    ensures NumberedFrom(alerts, start)
    ensures |alerts| <= 1
    ensures forall a :: a in alerts ==> a.panchayatId == p && a.level == Critical && a.isActive
    ensures alerts == [] <==> -40.0 < deviationPct < 60.0
    ensures forall a :: a in alerts ==> (a.category == Drought <==> deviationPct <= -40.0)
    ensures forall a :: a in alerts ==> (a.category == Flood <==> deviationPct >= 60.0)
  {
    if deviationPct <= -40.0 then [WaterAlert(start + 1, p, Critical, Drought, "", "", true)]
    else if deviationPct >= 60.0 then [WaterAlert(start + 1, p, Critical, Flood, "", "", true)]
    else []
  }

  /**
   * The rainfall alerts agree with the analyzer's bands: a drought alert for a moderate or severe
   * drought, a flood alert for a high flood risk, and nothing otherwise.
   */
  lemma RainfallAlertsMatchBands(p: string, deviationPct: real, start: nat)
    ensures var alerts := RainfallAlerts(p, deviationPct, start);
            && ((|alerts| == 1 && alerts[0].category == Drought)
                <==> Rainfall.DroughtBand(deviationPct) in {Rainfall.SevereDrought, Rainfall.ModerateDrought})
            && ((|alerts| == 1 && alerts[0].category == Flood)
                <==> Rainfall.FloodBand(deviationPct) == Rainfall.HighFloodRisk)
            && (alerts == []
                <==> Rainfall.DroughtBand(deviationPct) !in {Rainfall.SevereDrought, Rainfall.ModerateDrought}
                     && Rainfall.FloodBand(deviationPct) != Rainfall.HighFloodRisk)
  {
  }

  // ---------------------------------------------------------------------------------------------
  // The engine

  class AlertEngine {
    /** The last id handed out; ids start at 1. */
    var counter: nat
    /** Every id handed out so far, in order. */
    ghost var issued: seq<nat>

    ghost predicate Valid()
      reads this
    {
      |issued| == counter && forall i :: 0 <= i < |issued| ==> issued[i] == i + 1
    }

    constructor ()
      ensures Valid()
      ensures counter == 0
    {
      counter := 0;
      issued := [];
    }

    /** The ids handed out so far are strictly increasing, so none repeats. */
    lemma IssuedIncreasing()
      requires Valid()
      ensures forall i, j :: 0 <= i < j < |issued| ==> issued[i] < issued[j]
      ensures counter == 0 || (|issued| > 0 && issued[|issued| - 1] == counter)
    {
    }

    /** Advances the counter and hands out its new value. */
    method NextId() returns (id: nat)
      requires Valid()
      modifies this
      ensures Valid()
      ensures counter == old(counter) + 1 && id == counter
      ensures issued == old(issued) + [id]
      ensures forall i :: 0 <= i < |old(issued)| ==> old(issued)[i] < id
    {
      counter := counter + 1;
      id := counter;
      issued := issued + [id];
    }

    method CheckQuality(r: WaterQualityReport) returns (alerts: seq<WaterAlert>)
      requires Valid()
      modifies this
      ensures Valid()
      ensures alerts == QualityAlerts(r, old(counter))
      ensures counter == old(counter) + |alerts|
      ensures forall a, i :: a in alerts && 0 <= i < |old(issued)| ==> a.alertId > old(issued)[i]
    {
      var grade := Quality.GradeReport(r);
      alerts := [];
      if grade == Hazardous {
        var id := NextId();
        alerts := alerts + [WaterAlert(id, "", Emergency, WaterQuality, r.sourceId, r.testDate, true)];
      } else if grade == Contaminated {
        var id := NextId();
        alerts := alerts + [WaterAlert(id, "", Warning, WaterQuality, r.sourceId, r.testDate, true)];
      }
    }

    method CheckGroundwater(g: GroundwaterLevel) returns (alerts: seq<WaterAlert>)
      requires Valid()
      modifies this
      ensures Valid()
      ensures alerts == GroundwaterAlerts(g, old(counter))
      ensures counter == old(counter) + |alerts|
      ensures forall a, i :: a in alerts && 0 <= i < |old(issued)| ==> a.alertId > old(issued)[i]
    {
      alerts := [];
      if g.depthMeters > 40.0 {
        var id := NextId();
        alerts := alerts + [WaterAlert(id, g.panchayatId, Critical, GroundwaterDepth, "", "", true)];
      } else if g.depthMeters > 20.0 {
        var id := NextId();
        alerts := alerts + [WaterAlert(id, g.panchayatId, Warning, GroundwaterDepth, "", "", true)];
      }
      if IsDeclining(g) && ChangeMeters(g) > 2.0 {
        var id := NextId();
        alerts := alerts + [WaterAlert(id, g.panchayatId, Warning, GroundwaterTrend, "", "", true)];
      }
    }

    method CheckSupply(population: int, totalSupplyLpd: real) returns (alerts: seq<WaterAlert>)
      requires Valid()
      modifies this
      ensures Valid()
      ensures alerts == SupplyAlerts(population, totalSupplyLpd, old(counter))
      ensures counter == old(counter) + |alerts|
      ensures forall a, i :: a in alerts && 0 <= i < |old(issued)| ==> a.alertId > old(issued)[i]
    {
      alerts := [];
      if population == 0 {
        return;
      }
      var lpcd := totalSupplyLpd / (population as real);
      if lpcd < 27.0 {
        var id := NextId();
        alerts := alerts + [WaterAlert(id, "", Emergency, Supply, "", "", true)];
      } else if lpcd < JjmLpcdStandard as real {
        var id := NextId();
        alerts := alerts + [WaterAlert(id, "", Warning, Supply, "", "", true)];
      }
    }

    method CheckRainfall(p: string, deviationPct: real) returns (alerts: seq<WaterAlert>)
      requires Valid()
      modifies this
      ensures Valid()
      ensures alerts == RainfallAlerts(p, deviationPct, old(counter))
      ensures counter == old(counter) + |alerts|
      ensures forall a, i :: a in alerts && 0 <= i < |old(issued)| ==> a.alertId > old(issued)[i]
    {
      alerts := [];
      if deviationPct <= -40.0 {
        var id := NextId();
        alerts := alerts + [WaterAlert(id, p, Critical, Drought, "", "", true)];
      } else if deviationPct >= 60.0 {
        var id := NextId();
        alerts := alerts + [WaterAlert(id, p, Critical, Flood, "", "", true)];
      }
    }
  }
}
