/**
 * The transportation linear program the solver is handed: one variable
 * x[i][j] >= 0 per supplier/consumer pair, the cost objective, a `<=`
 * capacity constraint per supplier and an `==` demand constraint per
 * consumer. The LP solve itself is not modelled: whatever flow satisfies
 * `Feasible` stands for the solver's answer.
 */
module Formulation {
  import opened Sums
  import opened Balancer

  /** `sum(cost[j] * x[j] for j ...)` over one supplier's row. */
  function RowCost(costRow: seq<real>, flowRow: seq<real>): real
    requires |costRow| == |flowRow|
  {
    if |flowRow| == 0 then 0.0
    else RowCost(costRow[..|costRow| - 1], flowRow[..|flowRow| - 1])
         + costRow[|costRow| - 1] * flowRow[|flowRow| - 1]
  }

  /** Cost and flow have the same shape. */
  predicate SameShape(flow: seq<seq<real>>, costs: seq<seq<real>>)
  {
    |flow| == |costs| && forall i :: 0 <= i < |flow| ==> |flow[i]| == |costs[i]|
  }

  /** The objective: the sum of `cost[i][j] * x[i][j]` over all pairs. */
  function Objective(flow: seq<seq<real>>, costs: seq<seq<real>>): real
    requires SameShape(flow, costs)
  {
    if |flow| == 0 then 0.0
    else Objective(flow[..|flow| - 1], costs[..|costs| - 1])
         + RowCost(costs[|costs| - 1], flow[|flow| - 1])
  }

  /**
   * The constraint system: a non-negative |supply| x |demand| flow whose
   * row sums stay within the supplies and whose column sums meet the
   * demands exactly.
   */
  predicate Feasible(flow: seq<seq<real>>, supply: seq<real>, demand: seq<real>)
  {
    && IsMatrix(flow, |supply|, |demand|)
    && (forall i :: 0 <= i < |flow| ==> AllNonNegative(flow[i]))
    && (forall i :: 0 <= i < |flow| ==> Sum(flow[i]) <= supply[i])
    && (forall j :: 0 <= j < |demand| ==> Sum(Column(flow, j)) == demand[j])
  }

  lemma {:induction false} RowCostOfZeros(flowRow: seq<real>)
    ensures RowCost(Zeros(|flowRow|), flowRow) == 0.0
  {
    var n := |flowRow|;
    if n > 0 {
      assert Zeros(n)[..n - 1] == Zeros(n - 1);
      RowCostOfZeros(flowRow[..n - 1]);
    }
  }

  /**
   * An all-zero cost row contributes nothing: the objective over the
   * extended costs equals the objective over the original rows only.
   */
  lemma ZeroRowAddsNoCost(flow: seq<seq<real>>, costs: seq<seq<real>>)
    requires |flow| == |costs| + 1
    requires SameShape(flow[..|costs|], costs)
    ensures SameShape(flow, costs + [Zeros(|flow[|costs|]|)])
    ensures Objective(flow, costs + [Zeros(|flow[|costs|]|)]) == Objective(flow[..|costs|], costs)
  {
    var m := |costs|;
    var extended := costs + [Zeros(|flow[m]|)];
    assert extended[..m] == costs;
    RowCostOfZeros(flow[m]);
  }

  /**
   * The solver's objective over the balanced instance equals the cost of
   * the genuine suppliers' shipments at the original costs.
   */
  lemma BalancedObjectiveIsRealCost(supply: seq<real>, demand: seq<real>, costs: seq<seq<real>>,
                                    flow: seq<seq<real>>)
    requires IsMatrix(costs, |supply|, |demand|)
    requires Feasible(flow, Balance(supply, demand, costs).supply, demand)
    ensures SameShape(flow, Balance(supply, demand, costs).costs)
    ensures SameShape(flow[..|supply|], costs)
    ensures Objective(flow, Balance(supply, demand, costs).costs) == Objective(flow[..|supply|], costs)
  {
    var b := Balance(supply, demand, costs);
    if b.fictitiousAdded {
      ZeroRowAddsNoCost(flow, costs);
    } else {
      assert flow[..|supply|] == flow;
    }
  }

  /**
   * Every feasible flow of an instance whose supplies add up to its
   * demands uses each supplier to capacity.
   */
  lemma FeasibleFlowIsTight(flow: seq<seq<real>>, supply: seq<real>, demand: seq<real>)
    requires Feasible(flow, supply, demand)
    requires Sum(supply) == Sum(demand)
    ensures forall i :: 0 <= i < |supply| ==> Sum(flow[i]) == supply[i]
  {
    // the flow ships the total demand
    RowsThenColumns(flow, |demand|);
    assert ColSums(flow, |demand|) == demand;
    // so the unused capacities are non-negative and add up to nothing
    var rows := RowSums(flow);
    var slack := seq(|supply|, i requires 0 <= i < |supply| => supply[i] - rows[i]);
    SumAdd(slack, rows, supply);
    forall i | 0 <= i < |supply|
      ensures Sum(flow[i]) == supply[i]
    {
      ElementAtMostSum(slack, i);
    }
  }

  /**
   * After balancing with a fictitious supplier, every feasible flow has the
   * genuine suppliers ship their whole supply and the fictitious supplier
   * ship exactly the shortage.
   */
  lemma FictitiousRowIsShortage(supply: seq<real>, demand: seq<real>, costs: seq<seq<real>>,
                                flow: seq<seq<real>>)
    requires Sum(demand) > Sum(supply)
    requires Feasible(flow, Balance(supply, demand, costs).supply, demand)
    ensures |flow| == |supply| + 1
    ensures Sum(flow[|supply|]) == Sum(demand) - Sum(supply)
    ensures forall i :: 0 <= i < |supply| ==> Sum(flow[i]) == supply[i]
  {
    var b := Balance(supply, demand, costs);
    FeasibleFlowIsTight(flow, b.supply, demand);
    assert forall i :: 0 <= i < |supply| ==> b.supply[i] == b.supply[..|supply|][i];
  }

  /** `k * v[j]` for every entry of `v`. */
  function Scale(k: real, v: seq<real>): (r: seq<real>)
    ensures |r| == |v| && forall j :: 0 <= j < |v| ==> r[j] == k * v[j]
  {
    seq(|v|, j requires 0 <= j < |v| => k * v[j])
  }

  /**
   * Each supplier ships its share `supply[i] / total` of every demand; with
   * a zero total nothing is shipped.
   */
  function Shares(supply: seq<real>, demand: seq<real>, total: real): (flow: seq<seq<real>>)
    ensures IsMatrix(flow, |supply|, |demand|)
  {
    seq(|supply|, i requires 0 <= i < |supply| => ShareRow(supply[i], demand, total))
  }

  /** One supplier's row of `Shares`. */
  function ShareRow(part: real, demand: seq<real>, total: real): (row: seq<real>)
    ensures |row| == |demand|
  {
    if total == 0.0 then Zeros(|demand|) else Scale(part / total, demand)
  }

  /** A flow that meets every demand within the supplies: shares of the total supply. */
  function ProportionalFlow(supply: seq<real>, demand: seq<real>): (flow: seq<seq<real>>)
    ensures IsMatrix(flow, |supply|, |demand|)
  {
    Shares(supply, demand, Sum(supply))
  }

  // Real arithmetic of shares, kept apart from the sequence reasoning so
  // that the solver's non-linear arithmetic works on reals only.

  /** `a` of the total `t` times `b` is `b` of `t` times `a`. */
  lemma ShareSwap(a: real, b: real, t: real)
    requires t != 0.0
    ensures (a / t) * b == (b / t) * a
  {
    assert (a / t) * b == (a * b) / t;
  }

  /** A non-negative share of at most the whole total is at most the part. */
  lemma ShareWithinPart(a: real, d: real, t: real)
    requires a >= 0.0 && t > 0.0 && d <= t
    ensures (a / t) * d <= a
    ensures a / t >= 0.0
  {
    assert (a / t) * t == a;
  }

  /** A supplier's share row is non-negative and within its supply. */
  lemma ShareRowWithinSupply(supply: seq<real>, demand: seq<real>, total: real, i: nat)
    requires AllNonNegative(demand) && i < |supply| && supply[i] >= 0.0
    requires total > 0.0 && Sum(demand) <= total
    ensures AllNonNegative(Shares(supply, demand, total)[i])
    ensures Sum(Shares(supply, demand, total)[i]) <= supply[i]
  {
    var share := supply[i] / total;
    var row := Shares(supply, demand, total)[i];
    assert row == ShareRow(supply[i], demand, total) == Scale(share, demand);
    ShareWithinPart(supply[i], Sum(demand), total);
    forall j | 0 <= j < |demand| ensures row[j] >= 0.0 {
      assert row[j] == share * demand[j];
    }
    SumScale(demand, row, share);
  }

  /** The share flow of the whole supply meets each demand exactly. */
  lemma ShareColumnMeetsDemand(supply: seq<real>, demand: seq<real>, total: real, j: nat)
    requires total == Sum(supply) && total != 0.0 && j < |demand|
    ensures Sum(Column(Shares(supply, demand, total), j)) == demand[j]
  {
    var flow := Shares(supply, demand, total);
    var col := Column(flow, j);
    var perUnit := demand[j] / total;
    forall i | 0 <= i < |supply|
      ensures col[i] == perUnit * supply[i]
    {
      assert flow[i] == ShareRow(supply[i], demand, total) == Scale(supply[i] / total, demand);
      ShareSwap(supply[i], demand[j], total);
    }
    SumScale(supply, col, perUnit);
    assert perUnit * total == demand[j];
  }

  /** With no supply and no demand, shipping nothing meets every constraint. */
  lemma NothingShippedMeetsNoDemand(supply: seq<real>, demand: seq<real>)
    requires AllNonNegative(supply) && AllNonNegative(demand)
    requires Sum(demand) <= Sum(supply) == 0.0
    ensures Feasible(Shares(supply, demand, 0.0), supply, demand)
  {
    var flow := Shares(supply, demand, 0.0);
    SumNonNegative(demand);
    forall i | 0 <= i < |flow| ensures Sum(flow[i]) <= supply[i] {
      assert flow[i] == ShareRow(supply[i], demand, 0.0) == Zeros(|demand|);
      SumZeros(|demand|);
    }
    forall j | 0 <= j < |demand| ensures Sum(Column(flow, j)) == demand[j] {
      ElementAtMostSum(demand, j);
      assert Column(flow, j) == Zeros(|supply|);
      SumZeros(|supply|);
    }
  }

  /**
   * Non-negative supplies that add up to at least the total of the
   * non-negative demands admit a feasible flow: the exact demand
   * constraints are safe.
   */
  lemma CoveredDemandIsFeasible(supply: seq<real>, demand: seq<real>)
    requires AllNonNegative(supply) && AllNonNegative(demand)
    requires Sum(demand) <= Sum(supply)
    ensures Feasible(ProportionalFlow(supply, demand), supply, demand)
  {
    var total := Sum(supply);
    var flow := Shares(supply, demand, total);
    SumNonNegative(demand);
    if total == 0.0 {
      NothingShippedMeetsNoDemand(supply, demand);
    } else {
      forall i | 0 <= i < |flow|
        ensures AllNonNegative(flow[i]) && Sum(flow[i]) <= supply[i]
      {
        ShareRowWithinSupply(supply, demand, total, i);
      }
      forall j | 0 <= j < |demand|
        ensures Sum(Column(flow, j)) == demand[j]
      {
        ShareColumnMeetsDemand(supply, demand, total, j);
      }
    }
  }

  /**
   * With non-negative inputs, the balanced instance always has a feasible
   * flow, so the LP handed to the solver is never infeasible.
   */
  lemma BalancedInstanceIsFeasible(supply: seq<real>, demand: seq<real>, costs: seq<seq<real>>)
    requires AllNonNegative(supply) && AllNonNegative(demand)
    ensures exists flow :: Feasible(flow, Balance(supply, demand, costs).supply, demand)
  {
    var b := Balance(supply, demand, costs);
    forall k | 0 <= k < |b.supply| ensures b.supply[k] >= 0.0 {
      if k < |supply| {
        assert b.supply[k] == b.supply[..|supply|][k];
      }
    }
    CoveredDemandIsFeasible(b.supply, demand);
  }
}
