/**
 * Water budget planning: the daily demand of a panchayat from its people, livestock and irrigated
 * land, and a 0-100 sustainability index of supply against demand.
 */
module Budget {
  import opened Wrappers
  import opened Models

  const DomesticLpcd: int := 55
  const LivestockLpcd: int := 30
  const IrrigationMmPerHectare: int := 500

  /** Daily irrigation demand in litres: the seasonal depth over the land, spread over a year. */
  function IrrigationLpd(irrigatedHectares: real): real
  {
    irrigatedHectares * (IrrigationMmPerHectare as real) * 1000.0 / 365.0
  }

  /**
   * The demand breakdown of a panchayat, with no supply and no industrial demand recorded. The
   * budget record rejects a negative quantity, so an input that would make one gives no budget.
   */
  function EstimateDemand(population: int, livestock: int, irrigatedHectares: real): (b: Option<WaterBudget>)
    ensures b.Some? <==>
              && population * DomesticLpcd >= 0
              && IrrigationLpd(irrigatedHectares) + (livestock * LivestockLpcd) as real >= 0.0
    ensures b.Some? ==> ValidBudget(b.value)
    ensures b.Some? ==> b.value.domesticDemandLpd == (population * DomesticLpcd) as real
    ensures b.Some? ==> b.value.totalDemandLpd == b.value.domesticDemandLpd + b.value.agricultureDemandLpd
    ensures b.Some? ==> b.value.totalSupplyLpd == 0.0 && b.value.industrialDemandLpd == 0.0
  {
    var domestic := (population * DomesticLpcd) as real;
    var agriculture := IrrigationLpd(irrigatedHectares);
    var livestockDemand := (livestock * LivestockLpcd) as real;
    if domestic < 0.0 || agriculture + livestockDemand < 0.0 then None
    else Some(WaterBudget("", 0, domestic + agriculture + livestockDemand, 0.0, domestic,
                          agriculture + livestockDemand, 0.0))
  }

  /** Counts and areas that cannot be negative always give a budget, whose demand is their weighted sum. */
  lemma EstimateDemandNonNegative(population: nat, livestock: nat, irrigatedHectares: real)
    requires irrigatedHectares >= 0.0
    ensures EstimateDemand(population, livestock, irrigatedHectares).Some?
    ensures EstimateDemand(population, livestock, irrigatedHectares).value.totalDemandLpd
         == (55 * population + 30 * livestock) as real + irrigatedHectares * 500000.0 / 365.0
  {
  }

  /** More people, livestock or land never lowers the estimated demand. */
  lemma EstimateDemandMonotone(p1: nat, l1: nat, h1: real, p2: nat, l2: nat, h2: real)
    requires 0.0 <= h1 <= h2 && p1 <= p2 && l1 <= l2
    ensures EstimateDemand(p1, l1, h1).value.totalDemandLpd <= EstimateDemand(p2, l2, h2).value.totalDemandLpd
  {
    EstimateDemandNonNegative(p1, l1, h1);
    EstimateDemandNonNegative(p2, l2, h2);
  }

  /** Supply as a percentage of demand, capped at 100; 100 when there is no demand. */
  function SustainabilityIndex(b: WaterBudget): (r: real)
    ensures r <= 100.0
    ensures ValidBudget(b) ==> r >= 0.0
    ensures b.totalDemandLpd == 0.0 ==> r == 100.0
    ensures b.totalDemandLpd > 0.0 ==> (r == 100.0 <==> b.totalSupplyLpd >= b.totalDemandLpd)
    ensures b.totalDemandLpd > 0.0 && b.totalSupplyLpd < b.totalDemandLpd ==>
              r * b.totalDemandLpd == b.totalSupplyLpd * 100.0
  {
    if b.totalDemandLpd == 0.0 then 100.0
    else
      var pct := (b.totalSupplyLpd / b.totalDemandLpd) * 100.0;
      PercentAtMostHundred(b.totalSupplyLpd, b.totalDemandLpd);
      if pct < 100.0 then pct else 100.0
  }

  /** A valid budget is fully sustainable exactly when it is not in deficit. */
  lemma SustainableIffNoDeficit(b: WaterBudget)
    requires ValidBudget(b)
    ensures SustainabilityIndex(b) == 100.0 <==> !IsDeficit(b)
  {
  }

  /** More supply for the same demand never lowers the index. */
  lemma SustainabilityMonotone(b: WaterBudget, extraSupply: real)
    requires ValidBudget(b) && extraSupply >= 0.0
    ensures SustainabilityIndex(b) <= SustainabilityIndex(b.(totalSupplyLpd := b.totalSupplyLpd + extraSupply))
  {
    var b' := b.(totalSupplyLpd := b.totalSupplyLpd + extraSupply);
    if b.totalDemandLpd > 0.0 {
      var d := b.totalDemandLpd;
      assert b'.totalSupplyLpd / d >= b.totalSupplyLpd / d by {
        assert b'.totalSupplyLpd / d - b.totalSupplyLpd / d == extraSupply / d;
      }
    }
  }
}
