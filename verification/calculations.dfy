/** The two calculation primitives of the billing engine. Decimal values are
    exact reals, so equality here is Decimal equality. */
module Calculations {

  /** Consumption between two readings of one meter, less an adjustment.
      A reading that went down is taken as a meter reset and gives zero;
      the adjustment is not floored, so the result can be negative. */
  function CalculateConsumption(current: real, previous: real, adjustment: real): (r: real)
    ensures current < previous ==> r == 0.0
    ensures previous <= current ==> r + adjustment == current - previous
  {
    if current < previous then 0.0
    else
      var raw := current - previous;
      raw - adjustment
  }

  /** Money owed for a consumption at a rate, with no rounding. */
  function CalculateCost(consumption: real, rate: real): (r: real)
    ensures consumption == 0.0 || rate == 0.0 ==> r == 0.0
    ensures 0.0 <= consumption && 0.0 <= rate ==> 0.0 <= r
  {
    consumption * rate
  }

  /** With the default adjustment the consumption is never negative, and it is
      zero exactly when the reading did not go up. */
  lemma DefaultAdjustmentIsNonNegative(current: real, previous: real)
    ensures 0.0 <= CalculateConsumption(current, previous, 0.0)
    ensures CalculateConsumption(current, previous, 0.0) == 0.0 <==> current <= previous
  {
  }

  /** A reset masks the adjustment: it is ignored when the reading went down. */
  lemma ResetIgnoresAdjustment(current: real, previous: real, a: real, b: real)
    requires current < previous
    ensures CalculateConsumption(current, previous, a) == CalculateConsumption(current, previous, b)
  {
  }

  /** The adjustment is subtracted one for one: raising it by `k` lowers the
      consumption by `k` whenever the reading did not go down. */
  lemma AdjustmentIsSubtractedExactly(current: real, previous: real, a: real, k: real)
    requires previous <= current
    ensures CalculateConsumption(current, previous, a + k) == CalculateConsumption(current, previous, a) - k
  {
  }

  /** Costing distributes over a difference of consumptions at one rate. This
      is what makes re-pricing a reduced consumption equal to subtracting the
      priced reduction. */
  lemma CostOfDifference(a: real, b: real, rate: real)
    ensures CalculateCost(a - b, rate) == CalculateCost(a, rate) - CalculateCost(b, rate)
  {
  }
}
