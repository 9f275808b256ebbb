/**
 * The fuel cost estimator (server/frer.js:69-78): litres needed at a fixed
 * consumption per 100 km, times a fixed price per litre. Arithmetic is over
 * the reals; floating-point rounding is not modelled.
 */
module FuelEstimator {

  /** Litres per 100 km. */
  const FuelConsumptionRate: real := 8.0

  /** Price per litre. */
  const FuelPrice: real := 2.20

  /** Estimated fuel cost of driving `totalDistance` kilometres: 0.176 per kilometre. */
  function FuelCost(totalDistance: real): (cost: real)
    ensures cost == (totalDistance / 100.0) * FuelConsumptionRate * FuelPrice
    ensures cost == 0.176 * totalDistance
    ensures 0.0 <= totalDistance ==> 0.0 <= cost
  {
    var fuelRequired := (totalDistance / 100.0) * FuelConsumptionRate;
    fuelRequired * FuelPrice
  }

  lemma FuelCostAtZero()
    ensures FuelCost(0.0) == 0.0
  {
  }

  /** 100 km cost exactly one consumption unit at the fuel price. */
  lemma FuelCostOfHundredKm()
    ensures FuelCost(100.0) == FuelConsumptionRate * FuelPrice == 17.6
  {
  }

  lemma FuelCostMonotone(d1: real, d2: real)
    requires d1 <= d2
    ensures FuelCost(d1) <= FuelCost(d2)
  {
  }

  /** Splitting a distance into two parts does not change the cost. */
  lemma FuelCostAdditive(d1: real, d2: real)
    ensures FuelCost(d1 + d2) == FuelCost(d1) + FuelCost(d2)
  {
  }
}
