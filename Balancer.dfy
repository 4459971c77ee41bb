/**
 * Balancing step of the transportation solver: when total demand exceeds
 * total supply, a fictitious supplier with supply equal to the shortage and
 * an all-zero cost row is appended; otherwise the instance is left as it is.
 */
module Balancer {
  import opened Sums

  /**
   * The instance handed to the LP solver: the (possibly extended) supply
   * and cost lists, the solver's supplier count and whether a fictitious
   * supplier was appended.
   */
  datatype BalancedInstance = BalancedInstance(
    supply: seq<real>,
    costs: seq<seq<real>>,
    numSuppliers: nat,
    fictitiousAdded: bool)

  /** The amount by which total demand exceeds total supply. */
  function Shortage(supply: seq<real>, demand: seq<real>): real
  {
    Sum(demand) - Sum(supply)
  }

  /**
   * Balancing as a value: the strict test `total_demand > total_supply`
   * decides; equal totals add nothing.
   */
  function Balance(supply: seq<real>, demand: seq<real>, costs: seq<seq<real>>): (b: BalancedInstance)
    // a fictitious supplier is added exactly when demand is strictly larger
    ensures b.fictitiousAdded <==> Sum(demand) > Sum(supply)
    // afterwards the suppliers can cover all demand, exactly so if one was added
    ensures Sum(demand) <= Sum(b.supply)
    ensures b.fictitiousAdded ==> Sum(b.supply) == Sum(demand)
    // exactly one supplier is counted and stored more, and only when added
    ensures b.numSuppliers == |supply| + (if b.fictitiousAdded then 1 else 0)
    ensures |b.supply| == b.numSuppliers
    ensures |b.costs| == |costs| + (if b.fictitiousAdded then 1 else 0)
    // the existing suppliers and cost rows are untouched
    ensures b.supply[..|supply|] == supply && b.costs[..|costs|] == costs
    // the appended supplier has the shortage as supply and costs nothing
    ensures b.fictitiousAdded ==> b.supply[|supply|] == Shortage(supply, demand) > 0.0
    ensures b.fictitiousAdded ==> b.costs[|costs|] == Zeros(|demand|)
  {
    if Sum(demand) > Sum(supply) then
      SumAppend(supply, Shortage(supply, demand));
      assert (supply + [Shortage(supply, demand)])[..|supply|] == supply;
      assert (costs + [Zeros(|demand|)])[..|costs|] == costs;
      BalancedInstance(supply + [Shortage(supply, demand)], costs + [Zeros(|demand|)], |supply| + 1, true)
    else
      BalancedInstance(supply, costs, |supply|, false)
  }

  /** Balancing an instance that balancing produced changes nothing more. */
  lemma BalanceIdempotent(supply: seq<real>, demand: seq<real>, costs: seq<seq<real>>)
    ensures var b := Balance(supply, demand, costs);
            Balance(b.supply, demand, b.costs)
              == BalancedInstance(b.supply, b.costs, |b.supply|, false)
  {
  }
}
