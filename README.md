# Locomotive and car assignment on periodic rail routes

These scripts build Gurobi mixed-integer models. Each model decides which locomotive type runs
each route, with how many cars, and (from level 2 on) when each train departs from and arrives
at every station of its out-and-back trip within a repeating period. There are five scripts,
and each adds features to the one before:

- `toy_example/my_exampleV4.py`: one route, one type. The cycle time and train count are
  entered by hand.
- `toy_examples/toy_example_toyData.py`: two routes and two types, with a precomputed
  train count per pair.
- `level1/level1_model.py`: the MP40 on a ten-edge line. Its train count comes from the
  round-trip time and the period.
- `level2/level2_model.py`: adds event times, speed limits, event ordering and a cycle-time
  variable. Each pair is weighted by `cycletime/period` instead of a fixed train count.
- `level3/level3_model_toydata.py`: adds per-route edge tables, a dwell at every station,
  and a lower bound on both routes' departure from a shared union station.

The model is symbolic. A script's model is a list of declared variables, a list of linear or
bilinear constraints, and an objective expression. All three are built exactly as the
scripts' loops build them. A *solution* is a valuation of the variables that satisfies every
constraint and respects the variable domains: `x` is binary, `w` is a non-negative integer,
and every other variable is non-negative. The solver is not modelled. What is proved is what
the constraints mean, that every referenced variable is declared, and bounds on (and, for the
toy models, level 1 and level 3, the value of) the optimum.

Modules:

| module | role |
|---|---|
| `Network`, `RollingStock` | stations, edges, routes, edge tables; locomotive/car types |
| `Symbolic` | variables, expressions, constraints, evaluation, variable domains |
| `Timing` | `ceil`, `calc_cycle_time`, `calc_num_trains`, `value_to_minutes`, the reported locomotive count |
| `Families`, `FamilyShape` | each constraint family as the exact sequence the loops add; membership and counts |
| `Objective` | the per-pair cost term and the objective sum; their values and monotonicity |
| `Layout` | the declared variables in declaration order; every variable used is declared |
| `Instances` | one description of a script's data and its features; validation of the lookups the loops make |
| `Feasibility`, `Traversal`, `Solutions` | what satisfying each family, and the whole model, means |
| `Builder` | the model object (`addVar`, `addConstr`, `setObjective`) and the loops that fill it |
| `Level1`, `Level2`, `Level3`, `ToyData`, `ToyV4` | each script's data, its run, and its concrete consequences |

Units and conventions:

- Times are in hours. Run times are `length/speed` and the level 3 dwell is `1/60`. The
  objective weight divides the cycle time by `period` (60), so it is a uniform scale factor.
- In levels 1 and 2, `route_dist` (101.39) is the one-way length, the sum of the ten edges.
  `calc_cycle_time` doubles it. In the toy scripts and level 3, `route_dist` is already the
  round trip (80 = 2·40, 160 = 2·80, and 60 in V4).
- In V4, `edge_len` is 20, although the accompanying comment says 30 km. No constraint uses
  it. The hand-entered cycle time of 120 minutes equals `route_dist/speed·60` = 60/30·60, not
  the level-1 formula on the edge length (20·2/30·60 = 80).
- Level 3 is a Python 3 script, so `1/60` and `5/60` are true division and are modelled as
  exact reals.

The comments above the cycle-time loops (level2/level2_model.py:275,
level3/level3_model_toydata.py:245) say that the cycle time is set to zero when a type is not
used on a route. The equality those loops add (level 2 lines 280-282, level 3 lines 250-252) is
multiplied on both sides by `x`, so for an unused pair it holds whatever the cycle time is. The
model follows the code. So do `Solutions.UnusedPairFree` and the cost
terms, which are zero for an unused pair only because `x` and `w` are both zero.

## Model

| member | source | states |
|---|---|---|
| Timing.Ceil | level1/level1_model.py:124-125 | the result is the least integer not below its argument |
| Timing.CeilLeast | level1/level1_model.py:124-125 | every integer not below the argument is at least `ceil` of it |
| Timing.CeilOfInt | level1/level1_model.py:124-125 | `ceil` of a whole number is that number |
| Timing.CalcCycleTime | level1/level1_model.py:110-111 | minutes·speed = route distance·120 (round trip at speed, in minutes); positive for positive inputs |
| Timing.CalcNumTrains | level1/level1_model.py:124-125 | for a positive period, k trains cover the cycle (k·period ≥ cycle) and k−1 do not; for a negative period the same two products compare the other way, as `ceil` of the negative quotient gives |
| Timing.NumTrainsLeast | level1/level1_model.py:124-125 | any count that covers the cycle is at least `calc_num_trains` |
| Timing.ValueToMinutes | level3/level3_model_toydata.py:271-272 | the minutes value divided by 60 gives back the hour value |
| Timing.LocoCount | level3/level3_model_toydata.py:285 | the reported locomotive count is the fewest trains whose periods cover the cycle in minutes; for a negative period, the two products compare the other way |
| Timing.LocoCountLeast | level3/level3_model_toydata.py:285 | any covering count is at least the reported one |
| Instances.WeightOf | level3/level3_model_toydata.py:161 | definition: a linear instance weighs each pair by its train-count table, a timed one by `cycletime/period` |
| Instances.Dwell | level3/level3_model_toydata.py:210-221 | definition: the dwell between edges is `wait_time_at_station / period` |
| Instances.OverlapBounds | level3/level3_model_toydata.py:256-261 | definition: with an overlap, the two named routes' first forward departures are bounded below by `minutes/period`; otherwise none |
| Instances.AllConstraints | level3/level3_model_toydata.py:170-261 | definition: fleet, then capacity, then for a timed instance speed, ordering, cycle and the overlap bounds, in the order the script adds them |
| Instances.ObjectiveOfInstance | level3/level3_model_toydata.py:155-164 | definition: the objective over the instance's routes and types with its weight |
| Instances.FindRoute | level3/level3_model_toydata.py:258-259 | returns a listed route with that id, and nothing exactly when no route has it |
| Instances.MissingCount | toy_examples/toy_example_toyData.py:101-102 | nothing missing exactly when every route/type pair has a train count; otherwise names a missing pair |
| Instances.MissingCountFor | toy_examples/toy_example_toyData.py:101-102 | as above for the types of one route |
| Instances.MissingEdge | level3/level3_model_toydata.py:178-182 | nothing missing exactly when every route's edges are in its edge table; otherwise names one that is not |
| Instances.MissingEdgeFor | level3/level3_model_toydata.py:178-182 | as above for the edges of one route |
| Instances.FirstEmpty | level3/level3_model_toydata.py:246-252 | nothing found exactly when every route has an edge (`route_edges[route][0]` exists) |
| Instances.Validate | level3/level3_model_toydata.py:170-261 | passes exactly when every lookup the loops make succeeds; a failure names a real defect |
| Instances.WellFormedWeighs | level3/level3_model_toydata.py:155-164 | every pair of a well-formed instance has a weight (a train count or a non-zero period) |
| Feasibility.FleetPairMeaning | level3/level3_model_toydata.py:170-174 | for binary `x`, both bounds hold iff unused with no cars, or used with min..max cars |
| Feasibility.FleetMeaning | level3/level3_model_toydata.py:170-174 | the fleet family holds iff every pair is gated that way |
| Feasibility.SupplyValue | level3/level3_model_toydata.py:178-182 | the capacity expression evaluates to the route's seats: Σ cars·capacity over types |
| Feasibility.CapacityMeaning | level3/level3_model_toydata.py:178-182 | the capacity family holds iff every edge's demand is at most its route's seats |
| Feasibility.SpeedConstraintMeaning | level3/level3_model_toydata.py:189-204 | the gated speed constraint holds iff the type is unused or the run takes at least length/speed |
| Feasibility.PairKeepsSpeed | level3/level3_model_toydata.py:189-204 | the speed family makes every used pair respect its speed on every edge and direction |
| Feasibility.SpeedHolds | level3/level3_model_toydata.py:189-204 | conversely, pairs that respect their speed satisfy every speed constraint |
| Feasibility.SpeedMeaning | level3/level3_model_toydata.py:189-204 | the speed family holds iff every used pair respects its speed |
| Feasibility.CycleConstraintMeaning | level3/level3_model_toydata.py:246-252 | the gated cycle constraint holds iff unused, or the cycle time equals the arrival back at the first station |
| Feasibility.CycleMeaning | level3/level3_model_toydata.py:246-252 | the cycle family holds iff that is so for every pair |
| Traversal.AfterMeaning | level3/level3_model_toydata.py:216-224 | the ordering constraint holds iff the departure is at least the arrival plus the dwell |
| Traversal.ForwardHolds | level3/level3_model_toydata.py:216-224 | a route's satisfied ordering constraints make each outbound edge arrive no earlier than it departs, and depart at least a dwell after the previous edge's arrival |
| Traversal.ReverseHolds | level3/level3_model_toydata.py:233-240 | they also make the return leg depart a dwell after the outbound arrival, and order each return edge the same way, walking backwards |
| Traversal.StepHolds | level3/level3_model_toydata.py:226-229 | conversely, an ordered traversal satisfies every constraint that any iteration of either loop emits |
| Traversal.RouteOrderingMeaning | level3/level3_model_toydata.py:210-241 | a route's ordering constraints hold iff its events form one ordered out-and-back traversal |
| Traversal.OrderingMeaning | level3/level3_model_toydata.py:210-241 | the ordering family holds iff every route's traversal is ordered |
| Traversal.TimelineStep | level3/level3_model_toydata.py:210-241 | along an ordered traversal each event is at least the previous one plus its dwell or run |
| Traversal.TimelineSteps | level3/level3_model_toydata.py:210-241 | that holds at every step of the event timeline |
| Traversal.ChainUp | level3/level3_model_toydata.py:210-241 | a later event is no earlier than an earlier one plus the steps between them |
| Traversal.TimelineNonDecreasing | level3/level3_model_toydata.py:210-241 | event times never decrease along the traversal |
| Traversal.ForwardBound | level3/level3_model_toydata.py:216-224 | the outbound arrival at edge i is at least the first departure plus the dwells and run times so far |
| Traversal.TurnBound | level3/level3_model_toydata.py:226-229 | the return arrival at the last edge is at least the first departure plus n dwells, the outbound run times and that edge's return run |
| Traversal.ReverseStep | level3/level3_model_toydata.py:233-240 | each return edge adds its dwell and run time to the bound |
| Traversal.ReverseBound | level3/level3_model_toydata.py:233-240 | the return arrival at edge i is at least the first departure plus every dwell and run time up to it |
| Traversal.TraversalBound | level3/level3_model_toydata.py:210-241 | the arrival back at the origin is at least the first departure plus (2n−1) dwells plus twice the total run time |
| Families.CarMin | level3/level3_model_toydata.py:173 | definition: the cars are at least `car_min` times the use variable |
| Families.CarMax | level3/level3_model_toydata.py:174 | definition: the cars are at most `car_max` times the use variable |
| Families.Fleet | level3/level3_model_toydata.py:170-174 | definition: both fleet bounds for every pair, route-major, min before max |
| Families.Supply | level3/level3_model_toydata.py:179 | definition: the route's capacity expression, cars times car capacity summed over the types from 0 |
| Families.CapacityOf | level3/level3_model_toydata.py:182 | definition: the edge's passenger demand is at most the route's capacity expression |
| Families.Capacity | level3/level3_model_toydata.py:178-182 | definition: one demand bound per edge of each route, in route and edge order |
| Families.SpeedOf | level3/level3_model_toydata.py:198-204 | definition: `x`·length ≤ `x`·speed·(arrival − departure) on one edge and direction |
| Families.SpeedBlock | level3/level3_model_toydata.py:198-204 | definition: the forward then the reverse speed bound of one edge |
| Families.Speed | level3/level3_model_toydata.py:189-204 | definition: the speed blocks of every route, type and edge, in loop order |
| Families.After | level3/level3_model_toydata.py:221 | definition: a departure is at least an arrival plus the dwell |
| Families.ArriveAfter | level3/level3_model_toydata.py:223 | definition: an edge's arrival is no earlier than its departure |
| Families.FwdStep | level3/level3_model_toydata.py:216-224 | definition: forward iteration i emits the link to edge i−1 when i ≠ 0, then the arrival bound |
| Families.FwdBlocks | level3/level3_model_toydata.py:216-224 | definition: the forward iterations for i = 0 … n−1 |
| Families.Turnaround | level3/level3_model_toydata.py:226-229 | definition: the reverse departure on the last edge follows the forward arrival on it by the dwell |
| Families.RevStep | level3/level3_model_toydata.py:233-240 | definition: reverse iteration i emits the link to edge i+1 when i ≠ n−1, then the arrival bound |
| Families.RevBlocks | level3/level3_model_toydata.py:232-241 | definition: the reverse iterations for i = n−1 down to 0 |
| Families.RouteOrdering | level3/level3_model_toydata.py:211-241 | definition: one route's forward blocks, the turnaround, then its reverse blocks |
| Families.Ordering | level3/level3_model_toydata.py:210-241 | definition: every route's ordering constraints, in route order |
| Families.CycleOf | level3/level3_model_toydata.py:250-252 | definition: `x`·cycletime = `x`·arrival back at the first station |
| Families.Cycle | level3/level3_model_toydata.py:246-252 | definition: one cycle equality per pair, route-major |
| Families.OverlapOf | level3/level3_model_toydata.py:260-261 | definition: a route's first forward departure is at least the offset |
| FamilyShape.FleetMember | level3/level3_model_toydata.py:170-174 | a constraint is in the fleet family iff it is the min or max bound of a listed pair |
| FamilyShape.CapacityMember | level3/level3_model_toydata.py:178-182 | a constraint is in the capacity family iff it is a listed route's demand bound for one of its edges |
| FamilyShape.SpeedMember | level3/level3_model_toydata.py:189-204 | a constraint is in the speed family iff it is the speed bound of a listed pair, edge and direction |
| FamilyShape.CycleMember | level3/level3_model_toydata.py:246-252 | a constraint is in the cycle family iff it is a listed pair's cycle equality |
| FamilyShape.OrderingMember | level3/level3_model_toydata.py:210-241 | a constraint is in the ordering family iff it is in some route's ordering sequence |
| FamilyShape.StepWidthsTotal | level3/level3_model_toydata.py:216-240 | the blocks of one direction's loop hold 2n−1 constraints: one in the first iteration, two after |
| FamilyShape.OrderingCount | level3/level3_model_toydata.py:210-241 | a route with n edges gets 4n−1 ordering constraints |
| FamilyShape.FwdMember | level3/level3_model_toydata.py:216-224 | a constraint comes from the forward loop iff some iteration i < n emits it |
| FamilyShape.RevMember | level3/level3_model_toydata.py:233-240 | a constraint comes from the reverse loop iff some iteration i < n emits it |
| Objective.FixedCost | level3/level3_model_toydata.py:158 | definition: `x`·locomotive fixed cost + `w`·car fixed cost |
| Objective.VariableCost | level3/level3_model_toydata.py:159 | definition: route distance times (`x`·locomotive cost per km + `w`·car cost per km) |
| Objective.TrainCost | level3/level3_model_toydata.py:158-161 | definition: fixed plus variable cost |
| Objective.Term | level3/level3_model_toydata.py:161 | definition: the pair's cost times its train count, or times `cycletime/period` |
| Objective.Sum | level3/level3_model_toydata.py:155-161 | definition: `obj = 0` followed by `obj += term` for each term in order |
| Objective.ObjectiveOf | level3/level3_model_toydata.py:155-164 | definition: the sum of every pair's term, route-major |
| Objective.TrainCostValue | level3/level3_model_toydata.py:158-159 | the fixed-plus-kilometre cost expression evaluates to the pair's cost at its `x` and `w` |
| Objective.TermValue | level3/level3_model_toydata.py:155-164 | a pair's term is its weight (train count or cycletime/period) times that cost |
| Objective.PerPeriodTermValue | level3/level3_model_toydata.py:161 | with the per-period weight, the term is cycletime/period times the cost |
| Objective.UnusedTermZero | level3/level3_model_toydata.py:155-164 | a pair with no locomotive and no cars costs nothing |
| Objective.SumValue | level3/level3_model_toydata.py:155-164 | the summed objective evaluates to the sum of its terms' values |
| Objective.TotalMonotone | level3/level3_model_toydata.py:155-164 | the total does not decrease when no term decreases |
| Objective.TermsMember | level3/level3_model_toydata.py:155-164 | the objective has one term for each route/type pair and no others |
| Objective.SinglePairValue | level1/level1_model.py:142-150 | a one-route, one-type objective is that pair's term |
| Objective.TwoByTwoValue | toy_examples/toy_example_toyData.py:114-122 | a two-route, two-type objective is the sum of its four pair terms |
| Objective.CostMonotone | level3/level3_model_toydata.py:158-159 | with non-negative prices and distance, more locomotives or more cars never make a train cheaper |
| Objective.TermMonotone | level3/level3_model_toydata.py:155-164 | with non-negative prices, a pair whose locomotives, cars and multiplier (train count or cycletime/period) do not decrease, from non-negative values, gets no smaller term |
| Objective.ObjectiveMonotone | level3/level3_model_toydata.py:155-164 | with non-negative prices and distances, no pair's locomotives, cars or multiplier decreasing never lowers the objective |
| Layout.PairVars | level3/level3_model_toydata.py:106-109 | definition: one variable per route/type pair, route-major |
| Layout.EdgeTimes | level3/level3_model_toydata.py:127-135 | definition: an edge's forward departure and arrival, then its reverse departure and arrival |
| Layout.TimeVars | level3/level3_model_toydata.py:120-137 | definition: the event times of every edge of every route, in loop order |
| Layout.DeclaredVars | level3/level3_model_toydata.py:106-152 | definition: `x`, then `w`, then for a timed instance the event times and the cycle times |
| Layout.PairDeclared | level3/level3_model_toydata.py:106-109 | every listed pair's variable is declared by the `addVars` call |
| Layout.TimeDeclared | level3/level3_model_toydata.py:120-137 | every edge's departure and arrival in both directions are declared |
| Layout.PairsDeclared | level3/level3_model_toydata.py:106-152 | `x`, `w` and, for timed models, the cycle time of every pair are declared |
| Layout.TimesDeclared | level3/level3_model_toydata.py:120-137 | the event times of every edge of a timed model are declared |
| Layout.SupplyVars | level3/level3_model_toydata.py:178-182 | the capacity sum mentions only the route's car variables |
| Layout.FleetDeclared | level3/level3_model_toydata.py:170-174 | the fleet family mentions only declared variables |
| Layout.CapacityDeclared | level3/level3_model_toydata.py:178-182 | the capacity family mentions only declared variables |
| Layout.SpeedDeclared | level3/level3_model_toydata.py:189-204 | the speed family mentions only declared variables |
| Layout.StepDeclared | level3/level3_model_toydata.py:210-241 | a route's ordering constraints mention only declared variables |
| Layout.OrderingDeclared | level3/level3_model_toydata.py:210-241 | the ordering family mentions only declared variables |
| Layout.CycleDeclared | level3/level3_model_toydata.py:246-252 | the cycle family mentions only declared variables |
| Layout.OverlapDeclared | level3/level3_model_toydata.py:256-261 | the overlap bounds mention only declared variables |
| Layout.ConstraintsDeclared | level3/level3_model_toydata.py:106-261 | no constraint of a well-formed instance mentions an undeclared variable |
| Layout.SumVars | level3/level3_model_toydata.py:155-164 | a variable of a sum is a variable of one of its terms |
| Layout.TermVars | level3/level3_model_toydata.py:155-164 | a term mentions exactly its pair's `x`, `w` and (per-period) cycle time |
| Layout.ObjectiveDeclared | level3/level3_model_toydata.py:155-164 | the objective mentions only declared variables |
| Layout.ModelDeclared | level3/level3_model_toydata.py:106-261 | a well-formed instance's model refers to no undeclared variable |
| Solutions.SatisfiesSplit | level3/level3_model_toydata.py:170-261 | constraints added after others hold together iff both parts hold |
| Solutions.OverlapMeaning | level3/level3_model_toydata.py:256-261 | the overlap bounds hold iff both named routes' first departures are at least minutes/period |
| Solutions.TimedParts | level3/level3_model_toydata.py:189-261 | a solution of a timed model satisfies each timed family |
| Solutions.SolutionMeaning | level3/level3_model_toydata.py:170-261 | within the domains, a valuation is a solution iff every family's meaning holds |
| Solutions.SolutionGated | level3/level3_model_toydata.py:170-174 | in every solution, each pair is unused with no cars or used with min..max cars |
| Solutions.SolutionServed | level3/level3_model_toydata.py:178-182 | in every solution, each route seats every edge's demand |
| Solutions.LinearSingleMeaning | level1/level1_model.py:156-168 | a one-pair linear model means: gated and serving the route |
| Solutions.LinearTwoByTwoMeaning | toy_examples/toy_example_toyData.py:128-140 | a two-route, two-type linear model means: four pairs gated and both routes served |
| Solutions.UnusedPairFree | level3/level3_model_toydata.py:155-174 | in a solution, an unused pair has no cars and adds nothing to the objective |
| Solutions.RunTimesTotal | level3/level3_model_toydata.py:189-204 | the run times of a route's edges sum to its length over the speed |
| Solutions.OneEdgeRoundTrip | level3/level3_model_toydata.py:210-241 | a one-edge route's shortest round trip is one dwell plus two runs |
| Solutions.SpeedRunTimes | level3/level3_model_toydata.py:189-204 | a used pair that keeps its speed spends at least each edge's run time on it |
| Solutions.RouteCycleBound | level3/level3_model_toydata.py:210-252 | a used pair's cycle time is at least its first departure plus the shortest round trip |
| Solutions.SolutionKeepsSpeed | level3/level3_model_toydata.py:189-204 | in a solution every used pair keeps its speed |
| Solutions.SolutionOrdered | level3/level3_model_toydata.py:210-241 | in a solution every route's traversal is ordered |
| Solutions.SolutionCycleDefined | level3/level3_model_toydata.py:246-252 | in a solution every used pair's cycle time is its arrival back at the origin |
| Solutions.UsedCycleBound | level3/level3_model_toydata.py:189-252 | in a solution, a used pair's cycle time is at least its first departure plus the shortest round trip |
| Solutions.OverlapCycleBound | level3/level3_model_toydata.py:256-261 | with the overlap bound, a used pair's cycle time on either named route is at least minutes/period plus the round trip |
| Builder.AccumulateRow | level3/level3_model_toydata.py:156-161 | the inner loop's accumulated objective is the sum so far plus this route's terms |
| Builder.BuildObjective | level3/level3_model_toydata.py:155-161 | the objective loop builds exactly the objective sum over all pairs, route-major |
| Builder.ModelBuilder.constructor | level3/level3_model_toydata.py:106 | a new model has no variables, no constraints and a zero objective |
| Builder.ModelBuilder.AddVar | toy_example/my_exampleV4.py:93 | appends one variable and changes nothing else |
| Builder.ModelBuilder.AddVars | level3/level3_model_toydata.py:106-109 | appends one variable per pair, route-major, and changes nothing else |
| Builder.ModelBuilder.AddRouteTimes | level3/level3_model_toydata.py:120-137 | appends one route's event times and changes nothing else |
| Builder.ModelBuilder.AddTimes | level3/level3_model_toydata.py:120-137 | appends every route's event times, in loop order |
| Builder.ModelBuilder.AddCycleTimeRow | level3/level3_model_toydata.py:147-152 | appends one route's cycle-time variables |
| Builder.ModelBuilder.AddCycleTimes | level3/level3_model_toydata.py:147-152 | appends every pair's cycle-time variable, route-major |
| Builder.ModelBuilder.DeclareVariables | level3/level3_model_toydata.py:106-152 | appends exactly the instance's declared variables |
| Builder.ModelBuilder.AddConstr | toy_example/my_exampleV4.py:103-108 | appends one constraint and changes nothing else |
| Builder.ModelBuilder.SetObjective | level3/level3_model_toydata.py:163-164 | replaces the objective and changes nothing else |
| Builder.ModelBuilder.AddFleetRow | level3/level3_model_toydata.py:170-174 | appends one route's fleet bounds |
| Builder.ModelBuilder.AddFleet | level3/level3_model_toydata.py:170-174 | appends exactly the fleet family |
| Builder.ModelBuilder.AddCapacityRow | level3/level3_model_toydata.py:178-182 | appends one route's demand bounds |
| Builder.ModelBuilder.AddCapacity | level3/level3_model_toydata.py:178-182 | appends exactly the capacity family |
| Builder.ModelBuilder.AddSpeedEdges | level3/level3_model_toydata.py:189-204 | appends one pair's speed bounds over its edges |
| Builder.ModelBuilder.AddSpeedRow | level3/level3_model_toydata.py:189-204 | appends one route's speed bounds |
| Builder.ModelBuilder.AddSpeed | level3/level3_model_toydata.py:189-204 | appends exactly the speed family |
| Builder.ModelBuilder.AddForward | level3/level3_model_toydata.py:216-224 | the forward loop appends exactly its blocks |
| Builder.ModelBuilder.AddReverse | level3/level3_model_toydata.py:233-240 | the reverse loop appends exactly its blocks |
| Builder.ModelBuilder.AddRouteOrdering | level3/level3_model_toydata.py:210-241 | appends one route's ordering: forward, turnaround, reverse |
| Builder.ModelBuilder.AddOrdering | level3/level3_model_toydata.py:210-241 | appends exactly the ordering family |
| Builder.ModelBuilder.AddCycleRow | level3/level3_model_toydata.py:246-252 | appends one route's cycle equalities |
| Builder.ModelBuilder.AddCycle | level3/level3_model_toydata.py:246-252 | appends exactly the cycle family |
| Builder.ModelBuilder.AddTimed | level2/level2_model.py:223-282 | appends speed, ordering and cycle families in that order |
| Builder.ModelBuilder.AddTimedFamilies | level3/level3_model_toydata.py:189-261 | appends the timed families and then the overlap bounds |
| Builder.ModelBuilder.AddConstraints | level3/level3_model_toydata.py:170-261 | appends exactly the instance's constraints |
| Builder.ModelBuilder.AddOverlap | level3/level3_model_toydata.py:256-261 | appends exactly the overlap bounds, if any |
| Builder.BuildModel | level3/level3_model_toydata.py:106-261 | the outcome is the validation result; on success the model holds exactly the declared variables, constraints and objective, all of them referring only to declared variables; on failure the model is left empty |
| Level1.NumTrains | level1/level1_model.py:113-127 | definition: `calc_num_trains` of `calc_cycle_time` for the MP40 on the line |
| Level1.NumTrainsIsThree | level1/level1_model.py:110-127 | the MP40 on the line needs three trains |
| Level1.DataWellFormed | level1/level1_model.py:33-102 | the level 1 data passes validation |
| Level1.LineDemand | level1/level1_model.py:76-86 | every edge of the line has demand 550 |
| Level1.LineLengths | level1/level1_model.py:76-86 | the line's edge lengths in order |
| Level1.LineLength | level1/level1_model.py:76-91 | the edge lengths add up to `route_dist`, so `route_dist` is one way |
| Level1.LineServed | level1/level1_model.py:164-168 | seating 550 needs 162 seats per car times the cars |
| Level1.CarsNeeded | level1/level1_model.py:156-168 | gated and served iff the MP40 runs with 4 to 12 cars |
| Level1.DataMeaning | level1/level1_model.py:156-168 | the model's meaning is: gated and served |
| Level1.Feasible | level1/level1_model.py:136-168 | within the domains, the solutions are exactly x = 1 with 4 to 12 cars |
| Level1.ObjectiveValue | level1/level1_model.py:142-150 | the objective is three times the pair's cost |
| Level1.Optimum | level1/level1_model.py:136-168 | every solution costs at least 75169.5321, reached with four cars |
| Level1.Run | level1/level1_model.py:136-168 | running the script builds exactly the level 1 model |
| Level2.DataWellFormed | level2/level2_model.py:34-104 | the level 2 data passes validation, the speed is positive and there is no dwell |
| Level2.SolutionFleet | level2/level2_model.py:204-216 | every solution runs the MP40 with 4 to 12 cars |
| Level2.RoundTrip | level2/level2_model.py:223-271 | the shortest round trip at 91 km/h is 202.78/91 hours |
| Level2.CycleBound | level2/level2_model.py:223-282 | every solution's cycle time is at least the first departure plus 202.78/91 |
| Level2.ObjectiveValue | level2/level2_model.py:189-198 | the objective is cycletime/60 times the pair's cost |
| Level2.CostBound | level2/level2_model.py:189-282 | every solution's objective is at least (202.78/91)/60 times the four-car cost 101.39·247.13: the fewest cars over the shortest cycle |
| Level2.Run | level2/level2_model.py:140-282 | running the script builds exactly the level 2 model |
| Level3.DataWellFormed | level3/level3_model_toydata.py:41-100 | the level 3 data passes validation with positive speeds and a dwell of 1/60 |
| Level3.SeatsOf | level3/level3_model_toydata.py:178-182 | a route's seats are ten per car of either type |
| Level3.DemandR1 | level3/level3_model_toydata.py:84-85 | r1 is served iff it has seats for 40 |
| Level3.DemandR2 | level3/level3_model_toydata.py:84-85 | r2 is served iff it has seats for 20 |
| Level3.RoutesServed | level3/level3_model_toydata.py:178-182 | every solution seats both routes' demand |
| Level3.EveryRouteRuns | level3/level3_model_toydata.py:170-182 | every solution runs some locomotive on each route |
| Level3.RoundTrips | level3/level3_model_toydata.py:189-241 | each pair's shortest round trip, run times plus one dwell |
| Level3.CycleBounds | level3/level3_model_toydata.py:189-261 | a used pair's cycle time is at least 2.1, 1.1, 4.1 or 2.1 hours |
| Level3.LocoCounts | level3/level3_model_toydata.py:285 | a used pair reports at least 3, 2, 5 or 3 locomotives |
| Level3.ObjectiveTerms | level3/level3_model_toydata.py:155-164 | the objective is the sum of the four pair terms |
| Level3.PairCostsR1 | level3/level3_model_toydata.py:155-164 | r1's two terms as cycletime/60 times the pair's linear cost |
| Level3.PairCostsR2 | level3/level3_model_toydata.py:155-164 | r2's two terms likewise |
| Level3.ObjectiveValue | level3/level3_model_toydata.py:155-164 | the objective as the four weighted pair costs |
| Level3.FactsR1 | level3/level3_model_toydata.py:170-252 | what a solution forces on r1: binary use, gating, cycle bounds, demand |
| Level3.FactsR2 | level3/level3_model_toydata.py:170-252 | the same for r2 |
| Level3.CheapestR1 | level3/level3_model_toydata.py:155-164 | under those facts r1 costs at least 3948/60 |
| Level3.CheapestR2 | level3/level3_model_toydata.py:155-164 | under those facts r2 costs at least 7544/60 |
| Level3.CheapestBoth | level3/level3_model_toydata.py:155-164 | the two routes together cost at least 11492/60 |
| Level3.CostBound | level3/level3_model_toydata.py:155-261 | every solution's objective is at least 11492/60 |
| Level3.CheapestValues | level3/level3_model_toydata.py:170-261 | the cheapest timetable respects the variable domains: type a alone, 4 and 2 cars, leaving at 5/60, cycle times 2.1 and 4.1 |
| Level3.MeaningR1 | level3/level3_model_toydata.py:170-252 | those values gate both r1 pairs, keep type a's speed, order r1's events and define its cycle times |
| Level3.MeaningR2 | level3/level3_model_toydata.py:170-252 | the same on r2 |
| Level3.MeaningAt | level3/level3_model_toydata.py:170-261 | those values meet every family, the overlap bounds included |
| Level3.CostAt | level3/level3_model_toydata.py:155-164 | those values cost exactly 11492/60 |
| Level3.OptimalAt | level3/level3_model_toydata.py:155-261 | any valuation in the domains with those values is a solution costing 11492/60 |
| Level3.CheapestIsOptimal | level3/level3_model_toydata.py:155-261 | the bound 11492/60 is reached, so it is the level 3 optimum |
| Level3.Run | level3/level3_model_toydata.py:106-261 | running the script builds exactly the level 3 model |
| ToyData.CycleTableAgrees | toy_examples/toy_example_toyData.py:92-94 | the hand-entered cycle times are `calc_cycle_time` of the edge length and speed, and equally the stored round-trip `route_dist` over the speed, in minutes |
| ToyData.CountsAgree | toy_examples/toy_example_toyData.py:101-102 | the train counts are `calc_num_trains` of those cycle times |
| ToyData.DataWellFormed | toy_examples/toy_example_toyData.py:30-102 | the toy data passes validation |
| ToyData.Demands | toy_examples/toy_example_toyData.py:69-71 | r1 needs seats for 40, r2 for 20 |
| ToyData.DataMeaning | toy_examples/toy_example_toyData.py:128-140 | the model means: four pairs gated and both routes served |
| ToyData.Feasible | toy_examples/toy_example_toyData.py:108-140 | within the domains, those are exactly the solutions |
| ToyData.EveryRouteRuns | toy_examples/toy_example_toyData.py:128-140 | every solution runs some locomotive type on each route, since both demands are positive and an unused type carries no cars |
| ToyData.ObjectiveTerms | toy_examples/toy_example_toyData.py:114-122 | the objective is the sum of the four pair terms |
| ToyData.PairCostsR1 | toy_examples/toy_example_toyData.py:114-122 | r1's two terms as linear costs |
| ToyData.PairCostsR2 | toy_examples/toy_example_toyData.py:114-122 | r2's two terms as linear costs |
| ToyData.ObjectiveValue | toy_examples/toy_example_toyData.py:114-122 | the objective as a linear function of the `x` and `w` values |
| ToyData.CostBound | toy_examples/toy_example_toyData.py:108-140 | every solution costs at least 11120 |
| ToyData.CheapestDomain | toy_examples/toy_example_toyData.py:108-111 | the cheapest assignment respects the variable domains |
| ToyData.CheapestValues | toy_examples/toy_example_toyData.py:108-111 | type a on both routes, four and two cars |
| ToyData.OptimalAt | toy_examples/toy_example_toyData.py:108-140 | any valuation with those values is a solution costing 11120 |
| ToyData.CheapestIsOptimal | toy_examples/toy_example_toyData.py:108-140 | the bound 11120 is reached, so it is the optimum |
| ToyData.Run | toy_examples/toy_example_toyData.py:108-140 | running the script builds exactly the toy model |
| ToyV4.Variables | toy_example/my_exampleV4.py:93-96 | definition: the script's two variables, `x` then `w` |
| ToyV4.Goal | toy_example/my_exampleV4.py:98-99 | definition: the train count times the pair's fixed plus per-kilometre cost |
| ToyV4.Constraints | toy_example/my_exampleV4.py:103-108 | definition: the two car bounds, `x = 1`, and the demand bound, in script order |
| ToyV4.HandEnteredTimes | toy_example/my_exampleV4.py:80-87 | the hand-entered cycle time is the round trip at speed, and 2 trains is `calc_num_trains` of it |
| ToyV4.ModelDeclared | toy_example/my_exampleV4.py:93-108 | the constraints and objective use only the two declared variables |
| ToyV4.Feasible | toy_example/my_exampleV4.py:103-108 | within the domains, the solutions are exactly x = 1 with 4 to 8 cars |
| ToyV4.ObjectiveValue | toy_example/my_exampleV4.py:98-99 | the objective is 2240·x + 320·w |
| ToyV4.MoreCarsCostMore | toy_example/my_exampleV4.py:98-99 | with the same `x`, more cars cost strictly more |
| ToyV4.Optimum | toy_example/my_exampleV4.py:93-108 | every solution costs at least 3520, and exactly that only with four cars |
| ToyV4.FewestDomain | toy_example/my_exampleV4.py:93-96 | the one-train, four-car assignment respects the variable domains |
| ToyV4.OptimalAt | toy_example/my_exampleV4.py:93-108 | any valuation with x = 1 and four cars is a solution costing 3520 |
| ToyV4.FewestIsOptimal | toy_example/my_exampleV4.py:93-108 | the bound 3520 is reached |
| ToyV4.Build | toy_example/my_exampleV4.py:93-108 | the script's statements build exactly its two variables, its objective and its four constraints |

## Left out

- The solver itself is not modelled: `m.optimize()`, the `NonConvex` parameter and the exception handlers. The optimum is characterised by lemmas instead: the value is proved for V4, the toy data, level 1 and level 3, and a lower bound for level 2.
- Gurobi's `Model`, `addVar` and `addVars` are library calls. Each becomes an append to the model object's lists. Variable names, bounds other than the domain, and `vtype` flags only enter through `Symbolic.Domain`.
- Printing and reporting after the solve (the per-route schedule, `.x` values, `Number of loco used`) are not modelled. Only the arithmetic they print is: `Timing.ValueToMinutes` and `Timing.LocoCount`.
- Floating point is not modelled. All quantities are exact reals, so `202.78/91` and `5/60` carry no rounding.
- Time is a single linear pass per cycle. The scripts have no modulo or periodic tension variables, and neither does the model.
- The two files under `OLDtoy_examples/` are earlier drafts of V4 and are not part of this model.
- A Python script that fails on a missing dictionary key stops part-way, with some constraints already added. `Builder.BuildModel` instead runs `Instances.Validate` first and builds nothing on failure. For a timed instance, a zero period is rejected even with no pairs to divide by.
- In level 2, `dep >= arr` is written as `dep >= arr + 0` (a dwell of 0). Division by `period` in the objective is written as multiplication by `1/period`. Both are value-equal.
- Timing.CalcCycleTime: a zero speed is a precondition instead of an error result. The script raises ZeroDivisionError there (level1/level1_model.py:111), and this helper does not return that error.
- Timing.CalcNumTrains: a zero period is a precondition instead of an error result, where the script raises ZeroDivisionError (level1/level1_model.py:125). A negative period is covered by the contract.
- Timing.LocoCount: a zero period is a precondition instead of an error result, where the report line raises ZeroDivisionError (level3/level3_model_toydata.py:285). A negative period is covered by the contract.
- Feasibility.SpeedConstraintMeaning: a zero or negative speed is not characterised. It and the speed and solution lemmas built on it require positive speeds, which every script's data have, while well-formedness does not. In the script such a speed with a positive edge length forces `x = 0`.
- Edge tables (`Network.EdgeData`): an edge's length and demand are one table entry, while the scripts keep two dictionaries (level3/level3_model_toydata.py:84-85) that the speed loop and the capacity loop look up separately. A table where one dictionary has a key the other lacks, so that only one of the loops raises KeyError, cannot be expressed; no script's data is like that.
- Instances.Validate: it does not check that a route's edges form a contiguous path or that route and type ids are distinct, because the scripts never check either.
- Solutions.UsedCycleBound: it gives only the lower bound on the cycle time. That some schedule reaches it is not proved in general or for level 2; for level 3, `Level3.CheapestIsOptimal` exhibits one (8 event times and 4 cycle times).
- An unused pair's cycle time is left unconstrained, as in the code (its equality is multiplied by `x = 0`). Timing.LocoCount of it therefore says nothing.
- Level2.CostBound: the global optimum of level 2 is not computed. The objective is bilinear in cycle time and use, and only the lower bound `Level2.CostBound` is proved, not that a timetable reaches it.
- Solutions.OverlapMeaning: it fixes only a minimum first departure at the shared station, as the code does. A joint presence window of both trains at the union station is not required, because the code never requires it.
