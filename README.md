# Transportation problem solver: a Dafny model of its core

The application solves the classical transportation problem. There are `M`
suppliers with capacities `supply[i]`, `N` consumers with requirements
`demand[j]`, and a cost `costs[i][j]` per unit shipped from supplier `i` to
consumer `j`. The `solve()` request handler does three things in order:

1. **Balancing.** When total demand is strictly greater than total supply,
   it appends a fictitious supplier. That supplier's supply is the shortage
   `total_demand - total_supply` and its cost row is all zeros. The solver's
   supplier count goes up by one and a flag records the addition.
   Otherwise nothing changes. The original supply, costs and total supply
   are kept separately for the report.
2. **The transportation LP.** There is one variable `x[i][j] >= 0` per
   pair. The objective is `Σ cost[i][j]·x[i][j]`. Each supplier's row sum
   must be `<= supply[i]` and each consumer's column sum must be
   `== demand[j]`. An external LP library solves it.
3. **Projection.** Rows `0..M-1` of the solver's flow are copied cell by
   cell into the `M×N` shipment plan. When a fictitious supplier was
   added, its row becomes the list of fictitious shipments, which is the
   unmet demand. Otherwise that list stays empty.

Modules:

- `Sums` (Sums.dfy): left-fold sums of reals, rows and columns of a
  matrix, and the lemma that a matrix total is the same whether it is added
  up by rows or by columns.
- `Balancer` (Balancer.dfy): the balanced instance as a value (`Balance`).
- `Formulation` (Formulation.dfy): the constraint system (`Feasible`), the
  objective (`Objective`), and the theorems about them. These say that the
  zero-cost row does not change the cost, that balancing guarantees a
  feasible flow, and that every feasible flow gives the fictitious
  supplier exactly the shortage.
- `Projector` (Projector.dfy): the nested loops that fill the plan and
  collect the fictitious shipments.
- `Solve` (Solve.dfy): the request. `BalanceForSolver` does the balancing
  appends step by step and is proved to produce `Balance`'s instance.
  `Solve` takes the solver's reply as a parameter and projects it.

All quantities are exact `real`s. The solver is abstract. The model takes
its reply as an `LpAnswer`, and `SolverContract` states the only things the
solver is relied on for. When the solver reports `Optimal`, its flow
satisfies the constraints of the balanced instance and its objective value
is the cost of that flow. Every property below is proved for every such
flow.

The code decides with the exact strict test `total_demand > total_supply`,
without a tolerance. When the totals are equal, no supplier is added. The
model follows the code. The code also has no input validation: negative
amounts are not rejected. The model adds none. Non-negativity appears only
as a hypothesis of the feasibility lemmas, which need it.

## Model

| member | source | states |
|---|---|---|
| `Sums.Sum` | app.py:51-52 | The total of a list, folded left to right from 0 as Python's `sum` does (defined by its body, no contract of its own). |
| `Balancer.Shortage` | app.py:70-71 | The shortage is total demand minus total supply (defined by its body, no contract of its own). |
| `Formulation.Objective` | app.py:94-97 | The objective is the sum over every supplier row `i` and consumer `j` of `costs[i][j] * x[i][j]` (defined by its body, no contract of its own). |
| `Formulation.Feasible` | app.py:88-109 | A flow satisfies the LP's constraints when it is an `M'×N` matrix of variables with lower bound 0, each supplier's row sum is at most its supply, and each consumer's column sum equals its demand (defined by its body, no contract of its own). |
| `Balancer.Balance` | app.py:51-83 | A supplier is added exactly when total demand is strictly greater than total supply. Afterwards, total supply is at least total demand, and exactly equal when a supplier was added. Exactly one supplier and one cost row are added, and only in that case. The appended supply is the shortage, which is positive, and the appended cost row is `N` zeros. The existing suppliers and cost rows are unchanged. |
| `Balancer.BalanceIdempotent` | app.py:63-83 | Balancing an instance that balancing produced adds nothing, leaves supply and costs as they are, and keeps the flag false. |
| `Solve.BalanceForSolver` | app.py:63-81 | Starting from the input lists, the flag false and the count `M`, the step-by-step appends and counter increment produce exactly the balanced instance `Balance` describes. |
| `Formulation.ZeroRowAddsNoCost` | app.py:76-97 | For any flow, the objective over costs extended with an all-zero row equals the objective over the original rows alone. |
| `Formulation.BalancedObjectiveIsRealCost` | app.py:94-97 | For any feasible flow of the balanced instance, the objective the solver minimises equals the cost of the genuine suppliers' rows at the original costs. |
| `Formulation.FeasibleFlowIsTight` | app.py:101-109 | When total supply equals total demand, every flow meeting the `<=` supply and `==` demand constraints uses each supplier's whole supply. |
| `Formulation.FictitiousRowIsShortage` | app.py:67-74 | In the unbalanced case, every feasible flow of the balanced instance has `M+1` rows. The fictitious row sums exactly to the shortage, and each genuine supplier's row sums exactly to its supply. |
| `Formulation.CoveredDemandIsFeasible` | app.py:105-109 | With non-negative data and total supply at least total demand, the proportional flow `supply[i]·demand[j]/total_supply` (or the zero flow when there is no supply) satisfies every constraint. So exact demand constraints are safe. |
| `Formulation.BalancedInstanceIsFeasible` | app.py:99-109 | With non-negative supplies and demands, the LP built from the balanced instance always has a feasible flow. |
| `Projector.Project` | app.py:119-130 | The plan is a fresh `M×N` array with `plan[i,j] == flow[i][j]` for every genuine supplier. The fictitious shipments are the solver's last row when a supplier was added, and empty otherwise. |
| `Solve.Solve` | app.py:51-130 | A report is produced exactly when the solver reports `Optimal`; otherwise the solver's status is returned. The report's plan is the genuine rows of the flow. The reported total cost is the solver's objective, which equals the genuine plan's cost at the original costs. The flag is set exactly when demand exceeds supply. In that case the fictitious shipments are the last row and sum to the shortage, and each genuine supplier ships its whole supply. Otherwise the fictitious shipments are empty. The original supply, demand, costs, totals and counts are reported unchanged by the balancing. |

## Left out

- The web layer is not modelled. This covers the setup and input pages, template rendering, reading form fields, converting them with `int`/`float` and the error pages for failed conversions, and the 1..10 range check on the counts (app.py:1-49, 132-168). The model starts from lists that the form layer has already parsed. It requires only that the cost matrix has one row of `N` entries per supplier, which is how the handler builds it.
- The LP library is not modelled: building the problem object, the simplex solve, and the mapping of status codes to names. The solver's reply is a parameter. Optimality of the reply is not modelled: the properties hold for every feasible flow, so they hold in particular for the optimal one.
- Floating point is not modelled. Sums, the strict comparison and the objective are exact over `real`, so float rounding in `sum`, and a shortage that rounding could make appear or vanish, are outside the model.
- Rounding to two decimals for display (`round`, numpy `.round(2)`) and numpy array conversion happen only at the output boundary and are left out.
- A variable value of `None` (unset by the solver) cannot occur in the model, because every flow entry is a real.
- Python list aliasing is not modelled. Lists are Dafny sequences, which are values. So the copies kept for the report cannot be disturbed by the appends, which is what the explicit copies in the code ensure. The model shows that the reported originals equal the inputs, but not the copying itself.
