/**
 * Result projection: the solver's flow is split into the shipment plan of
 * the genuine suppliers and the shipments of the fictitious supplier.
 */
module Projector {
  import opened Sums

  /**
   * Fills a fresh `numSuppliersOrig x numConsumers` plan cell by cell from
   * the first rows of `flow`, and collects the last solver row as the
   * fictitious shipments when a fictitious supplier was added.
   */
  method Project(flow: seq<seq<real>>, numSuppliersOrig: nat, numConsumers: nat,
                 fictitiousAdded: bool, numSuppliersSolver: nat)
    returns (plan: array2<real>, fictitiousShipments: seq<real>)
    requires IsMatrix(flow, numSuppliersSolver, numConsumers)
    requires numSuppliersOrig <= numSuppliersSolver
    requires fictitiousAdded ==> numSuppliersSolver >= 1
    ensures fresh(plan)
    ensures plan.Length0 == numSuppliersOrig && plan.Length1 == numConsumers
    ensures forall i, j :: 0 <= i < numSuppliersOrig && 0 <= j < numConsumers ==>
              plan[i, j] == flow[i][j]
    ensures fictitiousAdded ==> fictitiousShipments == flow[numSuppliersSolver - 1]
    ensures !fictitiousAdded ==> fictitiousShipments == []
  {
    plan := new real[numSuppliersOrig, numConsumers]((_, _) => 0.0);
    for i := 0 to numSuppliersOrig
      invariant forall i', j :: 0 <= i' < i && 0 <= j < numConsumers ==> plan[i', j] == flow[i'][j]
    {
      for j := 0 to numConsumers
        invariant forall i', j' :: 0 <= i' < i && 0 <= j' < numConsumers ==> plan[i', j'] == flow[i'][j']
        invariant forall j' :: 0 <= j' < j ==> plan[i, j'] == flow[i][j']
      {
        plan[i, j] := flow[i][j];
      }
    }

    fictitiousShipments := [];
    if fictitiousAdded {
      var fictitiousIndex := numSuppliersSolver - 1;
      for j := 0 to numConsumers
        invariant fictitiousShipments == flow[fictitiousIndex][..j]
      {
        fictitiousShipments := fictitiousShipments + [flow[fictitiousIndex][j]];
      }
      assert flow[fictitiousIndex][..numConsumers] == flow[fictitiousIndex];
    }
  }
}
