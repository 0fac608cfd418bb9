/**
 * The cost channel: useCorrelationData reports each call's estimated cost
 * through onCostUpdate, and the dashboard adds it to a running total that
 * starts at 0 (src/App.tsx). Costs are counted in whole units of 1e-5 of a
 * currency unit instead of floating point.
 */
module CostTracking {

  /** Cost units in one currency unit. */
  const UNITS_PER_CURRENCY: nat := 100000

  /** The quoted rate, 0.00001 per token, in cost units. */
  const UNITS_PER_TOKEN: nat := 1

  /** `total_tokens * 0.00001`, in cost units. */
  function CostUnits(totalTokens: nat): nat
  {
    totalTokens * UNITS_PER_TOKEN
  }

  function Sum(s: seq<nat>): nat
  {
    if s == [] then 0 else s[0] + Sum(s[1..])
  }

  /** Adding one report to the history adds exactly its amount to the total. */
  lemma {:induction false} SumAppend(s: seq<nat>, x: nat)
    ensures Sum(s + [x]) == Sum(s) + x
  {
    if s != [] {
      assert (s + [x])[1..] == s[1..] + [x];
      SumAppend(s[1..], x);
    }
  }

  /** The running estimate in the dashboard: every report passed to onCostUpdate, in order. */
  class CostLedger {
    var reports: seq<nat>

    function Total(): nat
      reads this
    {
      Sum(reports)
    }

    constructor ()
      ensures reports == [] && Total() == 0
    {
      reports := [];
    }

    /** onCostUpdate: `prev + cost`. */
    method Report(units: nat)
      modifies this
      ensures reports == old(reports) + [units]
      ensures Total() == old(Total()) + units
    {
      SumAppend(reports, units);
      reports := reports + [units];
    }
  }
}
