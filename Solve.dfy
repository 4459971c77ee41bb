/**
 * The solve request: balance the instance, hand the transportation LP to
 * the solver, and project its answer onto the genuine suppliers.
 */
module Solve {
  import opened Sums
  import opened Balancer
  import opened Formulation
  import opened Projector

  /** The statuses the LP solver reports. */
  datatype LpStatus = Optimal | NotSolved | Infeasible | Unbounded | Undefined

  /** The solver's reply: its status, the variable values and the objective value. */
  datatype LpAnswer = LpAnswer(status: LpStatus, flow: seq<seq<real>>, objective: real)

  /**
   * What the solver guarantees when it reports an optimum for the balanced
   * instance `b`: its flow satisfies the constraints and its objective
   * value is the cost of that flow.
   */
  predicate SolverContract(answer: LpAnswer, b: BalancedInstance, demand: seq<real>)
  {
    answer.status == Optimal ==>
      && Feasible(answer.flow, b.supply, demand)
      && SameShape(answer.flow, b.costs)
      && answer.objective == Objective(answer.flow, b.costs)
  }

  /** The page data of a solved request. */
  datatype Report = Report(
    totalCost: real,
    plan: array2<real>,
    supply: seq<real>,
    demand: seq<real>,
    costs: seq<seq<real>>,
    totalSupply: real,
    totalDemand: real,
    numSuppliers: nat,
    numConsumers: nat,
    fictitiousAdded: bool,
    fictitiousShipments: seq<real>)

  datatype Outcome = Solved(report: Report) | NoOptimum(status: LpStatus)

  /**
   * The balancing step as the handler runs it: the solver's supply and cost
   * lists start as the inputs and grow by one appended entry each, and the
   * solver's supplier count by one, when demand exceeds supply.
   */
  method BalanceForSolver(supply: seq<real>, demand: seq<real>, costs: seq<seq<real>>)
    returns (solverSupply: seq<real>, solverCosts: seq<seq<real>>,
             numSuppliersSolver: nat, isFictitiousSupplierAdded: bool)
    ensures BalancedInstance(solverSupply, solverCosts, numSuppliersSolver, isFictitiousSupplierAdded)
            == Balance(supply, demand, costs)
  {
    var totalSupply := Sum(supply);
    var totalDemand := Sum(demand);
    solverSupply, solverCosts := supply, costs;
    isFictitiousSupplierAdded := false;
    numSuppliersSolver := |supply|;

    if totalDemand > totalSupply {
      isFictitiousSupplierAdded := true;
      var shortage := totalDemand - totalSupply;
      solverSupply := solverSupply + [shortage];
      solverCosts := solverCosts + [Zeros(|demand|)];
      numSuppliersSolver := numSuppliersSolver + 1;
    }
  }

  /**
   * What a feasible flow of the balanced instance gives the report: its
   * objective is the genuine rows' cost at the original costs and, when a
   * fictitious supplier was added, its last row is exactly the shortage
   * while every genuine supplier ships its whole supply.
   */
  lemma SolvedFlowFacts(supply: seq<real>, demand: seq<real>, costs: seq<seq<real>>,
                        flow: seq<seq<real>>)
    requires IsMatrix(costs, |supply|, |demand|)
    requires Feasible(flow, Balance(supply, demand, costs).supply, demand)
    ensures SameShape(flow, Balance(supply, demand, costs).costs)
    ensures SameShape(flow[..|supply|], costs)
    ensures Objective(flow, Balance(supply, demand, costs).costs) == Objective(flow[..|supply|], costs)
    ensures Sum(demand) > Sum(supply) ==>
              |flow| == |supply| + 1
              && Sum(flow[|supply|]) == Sum(demand) - Sum(supply)
              && forall i :: 0 <= i < |supply| ==> Sum(flow[i]) == supply[i]
  {
    BalancedObjectiveIsRealCost(supply, demand, costs, flow);
    if Sum(demand) > Sum(supply) {
      FictitiousRowIsShortage(supply, demand, costs, flow);
    }
  }

  /**
   * One solve request. `answer` is the solver's reply to the LP built from
   * the balanced instance; everything around that call is modelled.
   */
  method Solve(supply: seq<real>, demand: seq<real>, costs: seq<seq<real>>, answer: LpAnswer)
    returns (outcome: Outcome)
    requires IsMatrix(costs, |supply|, |demand|)
    requires SolverContract(answer, Balance(supply, demand, costs), demand)
    ensures outcome.Solved? <==> answer.status == Optimal
    ensures outcome.NoOptimum? ==> outcome.status == answer.status
    // the genuine suppliers' plan, read off the solver's flow
    ensures outcome.Solved? ==> fresh(outcome.report.plan)
    ensures outcome.Solved? ==>
              outcome.report.plan.Length0 == |supply| && outcome.report.plan.Length1 == |demand|
    ensures outcome.Solved? ==>
              forall i, j :: 0 <= i < |supply| && 0 <= j < |demand| ==>
                outcome.report.plan[i, j] == answer.flow[i][j]
    // the reported cost is the solver's, and equals the genuine plan at the original costs
    ensures outcome.Solved? ==> outcome.report.totalCost == answer.objective
    ensures outcome.Solved? ==>
              SameShape(answer.flow[..|supply|], costs)
              && outcome.report.totalCost == Objective(answer.flow[..|supply|], costs)
    // the shortage is reported separately, and is exactly what the suppliers cannot cover
    ensures outcome.Solved? ==> (outcome.report.fictitiousAdded <==> Sum(demand) > Sum(supply))
    ensures outcome.Solved? && outcome.report.fictitiousAdded ==>
              && outcome.report.fictitiousShipments == answer.flow[|supply|]
              && Sum(outcome.report.fictitiousShipments) == Sum(demand) - Sum(supply)
              && forall i :: 0 <= i < |supply| ==> Sum(answer.flow[i]) == supply[i]
    ensures outcome.Solved? && !outcome.report.fictitiousAdded ==>
              outcome.report.fictitiousShipments == []
    // the original instance is reported unchanged by the balancing
    ensures outcome.Solved? ==>
              outcome.report.supply == supply && outcome.report.demand == demand
              && outcome.report.costs == costs
    ensures outcome.Solved? ==>
              outcome.report.totalSupply == Sum(supply) && outcome.report.totalDemand == Sum(demand)
    ensures outcome.Solved? ==>
              outcome.report.numSuppliers == |supply| && outcome.report.numConsumers == |demand|
  {
    // The solver's lists are the balanced ones, `Balance(supply, demand, costs)`
    // by the method's contract; the LP built from them is not modelled, and
    // the requires states the solver's reply `answer` in terms of that same
    // balanced instance. The inputs themselves stay as they are for the report.
    var solverSupply, solverCosts, numSuppliersSolver, isFictitiousSupplierAdded :=
      BalanceForSolver(supply, demand, costs);

    if answer.status != Optimal {
      outcome := NoOptimum(answer.status);
      return;
    }
    SolvedFlowFacts(supply, demand, costs, answer.flow);

    var plan, fictitiousShipments :=
      Project(answer.flow, |supply|, |demand|, isFictitiousSupplierAdded, numSuppliersSolver);

    outcome := Solved(Report(
      answer.objective, plan, supply, demand, costs, Sum(supply), Sum(demand),
      |supply|, |demand|, isFictitiousSupplierAdded, fictitiousShipments));
  }
}
