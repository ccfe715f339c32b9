/**
 * The toy data example: level 3's two train types and two one-edge routes, one shared edge table,
 * and the linear model of level 1 whose pair costs are multiplied by hand-entered train counts.
 */
module ToyData {
  import opened Wrappers
  import opened Network
  import opened RollingStock
  import opened Symbolic
  import opened Families
  import opened Objective
  import opened Instances
  import opened Feasibility
  import opened Solutions
  import opened Timing
  import opened Layout
  import opened Builder
  import Level3

  /** Lengths (km) and passenger demand, shared by the routes. */
  const Table: map<Edge, EdgeData> := map[
    Edge("s1", "s2") := EdgeData(40.0, 40),
    Edge("s2", "s3") := EdgeData(80.0, 20)]

  const Period := 60.0

  /** The hand-entered cycle times (minutes) of each route and type. */
  const CycleTable: map<(string, string), real> :=
    map[("r1", "a") := 120.0, ("r1", "b") := 60.0, ("r2", "a") := 240.0, ("r2", "b") := 120.0]

  /** The hand-entered train counts of each route and type, the objective's multipliers. */
  const TrainCounts: map<(string, string), int> :=
    map[("r1", "a") := 2, ("r1", "b") := 1, ("r2", "a") := 4, ("r2", "b") := 2]

  function Data(): Instance
  {
    Instance([Level3.R1, Level3.R2], [Level3.TypeA, Level3.TypeB], Shared(Table), Period, Linear(TrainCounts))
  }

  /**
   * The cycle times agree with `calc_cycle_time` of level 1 applied to the one edge's length, which
   * is half the stored route distance: the out-and-back run at the type's speed, in minutes. Equally,
   * each is the stored round-trip distance over the speed, times 60.
   */
  lemma CycleTableAgrees()
    ensures CycleTable[("r1", "a")] == CalcCycleTime(Table[Edge("s1", "s2")].len, Level3.TypeA.speed)
    ensures CycleTable[("r1", "b")] == CalcCycleTime(Table[Edge("s1", "s2")].len, Level3.TypeB.speed)
    ensures CycleTable[("r2", "a")] == CalcCycleTime(Table[Edge("s2", "s3")].len, Level3.TypeA.speed)
    ensures CycleTable[("r2", "b")] == CalcCycleTime(Table[Edge("s2", "s3")].len, Level3.TypeB.speed)
    ensures CycleTable[("r1", "a")] * Level3.TypeA.speed == Level3.R1.dist * 60.0
    ensures CycleTable[("r1", "b")] * Level3.TypeB.speed == Level3.R1.dist * 60.0
    ensures CycleTable[("r2", "a")] * Level3.TypeA.speed == Level3.R2.dist * 60.0
    ensures CycleTable[("r2", "b")] * Level3.TypeB.speed == Level3.R2.dist * 60.0
  {
    assert CalcCycleTime(40.0, 40.0) * 40.0 == 4800.0;
    assert CalcCycleTime(40.0, 80.0) * 80.0 == 4800.0;
    assert CalcCycleTime(80.0, 40.0) * 40.0 == 9600.0;
    assert CalcCycleTime(80.0, 80.0) * 80.0 == 9600.0;
  }

  /** The train counts are `calc_num_trains` of the cycle times over the hourly period. */
  lemma CountsAgree()
    ensures forall k :: k in CycleTable ==> k in TrainCounts && TrainCounts[k] == CalcNumTrains(CycleTable[k], Period)
  {
    var k1, k2, k3 := CalcNumTrains(120.0, 60.0), CalcNumTrains(60.0, 60.0), CalcNumTrains(240.0, 60.0);
    assert k1 as real * 60.0 >= 120.0 && (k1 - 1) as real * 60.0 < 120.0;
    assert k2 as real * 60.0 >= 60.0 && (k2 - 1) as real * 60.0 < 60.0;
    assert k3 as real * 60.0 >= 240.0 && (k3 - 1) as real * 60.0 < 240.0;
    assert k1 == 2 && k2 == 1 && k3 == 4;
  }

  lemma DataWellFormed()
    ensures WellFormed(Data()) && Validate(Data()).Pass?
  {
    assert Covers(Shared(Table), Level3.R1);
    assert Covers(Shared(Table), Level3.R2);
  }

  /** Route r1's edge carries 40 passengers and route r2's edge 20. */
  lemma Demands(a: Valuation)
    ensures Covers(Shared(Table), Level3.R1) && Covers(Shared(Table), Level3.R2)
    ensures Served(a, Shared(Table), Level3.R1, [Level3.TypeA, Level3.TypeB]) <==>
      40.0 <= a(W("r1", "a")) * 10.0 + a(W("r1", "b")) * 10.0
    ensures Served(a, Shared(Table), Level3.R2, [Level3.TypeA, Level3.TypeB]) <==>
      20.0 <= a(W("r2", "a")) * 10.0 + a(W("r2", "b")) * 10.0
  {
    assert Covers(Shared(Table), Level3.R1);
    assert Covers(Shared(Table), Level3.R2);
    Level3.SeatsOf(a, "r1");
    Level3.SeatsOf(a, "r2");
    assert Edge("s1", "s2") in Level3.R1.edges;
    assert Edge("s2", "s3") in Level3.R2.edges;
  }

  /** The model says: every pair is gated, and each route's cars seat its edge's passengers. */
  lemma DataMeaning(a: Valuation)
    ensures WellFormed(Data())
    ensures Meaning(a, Data()) <==>
      && FleetGated(a, Level3.R1, Level3.TypeA) && FleetGated(a, Level3.R1, Level3.TypeB)
      && FleetGated(a, Level3.R2, Level3.TypeA) && FleetGated(a, Level3.R2, Level3.TypeB)
      && 40.0 <= a(W("r1", "a")) * 10.0 + a(W("r1", "b")) * 10.0
      && 20.0 <= a(W("r2", "a")) * 10.0 + a(W("r2", "b")) * 10.0
  {
    DataWellFormed();
    Demands(a);
    LinearTwoByTwoMeaning(a, Data(), Level3.R1, Level3.R2, Level3.TypeA, Level3.TypeB);
  }

  /** A valuation in the variable domains solves the toy model exactly when it has that meaning. */
  lemma Feasible(a: Valuation)
    requires Domain(a)
    ensures WellFormed(Data())
    ensures Solution(a, Data()) <==>
      && FleetGated(a, Level3.R1, Level3.TypeA) && FleetGated(a, Level3.R1, Level3.TypeB)
      && FleetGated(a, Level3.R2, Level3.TypeA) && FleetGated(a, Level3.R2, Level3.TypeB)
      && 40.0 <= a(W("r1", "a")) * 10.0 + a(W("r1", "b")) * 10.0
      && 20.0 <= a(W("r2", "a")) * 10.0 + a(W("r2", "b")) * 10.0
  {
    DataWellFormed();
    SolutionMeaning(a, Data());
    DataMeaning(a);
  }

  /** An unused type carries no cars and both demands are positive, so each route runs some type. */
  lemma EveryRouteRuns(a: Valuation)
    requires Solution(a, Data())
    ensures a(X("r1", "a")) == 1.0 || a(X("r1", "b")) == 1.0
    ensures a(X("r2", "a")) == 1.0 || a(X("r2", "b")) == 1.0
  {
    DataWellFormed();
    Feasible(a);
    SolutionGated(a, Data(), Level3.R1, Level3.TypeA);
    SolutionGated(a, Data(), Level3.R1, Level3.TypeB);
    SolutionGated(a, Data(), Level3.R2, Level3.TypeA);
    SolutionGated(a, Data(), Level3.R2, Level3.TypeB);
  }

  lemma ObjectiveShape()
    ensures WellFormed(Data())
    ensures ObjectiveOfInstance(Data()) ==
      ObjectiveOf(Counts(TrainCounts), [Level3.R1, Level3.R2], [Level3.TypeA, Level3.TypeB])
  {
    DataWellFormed();
  }

  /** The objective is the sum of the four pairs' terms. */
  lemma ObjectiveTerms(a: Valuation)
    ensures WellFormed(Data())
    ensures Eval(a, ObjectiveOfInstance(Data())) ==
      Eval(a, Term(Counts(TrainCounts), Level3.R1, Level3.TypeA)) +
      Eval(a, Term(Counts(TrainCounts), Level3.R1, Level3.TypeB)) +
      Eval(a, Term(Counts(TrainCounts), Level3.R2, Level3.TypeA)) +
      Eval(a, Term(Counts(TrainCounts), Level3.R2, Level3.TypeB))
  {
    ObjectiveShape();
    TwoByTwoValue(a, Counts(TrainCounts), Level3.R1, Level3.R2, Level3.TypeA, Level3.TypeB);
  }

  /**
   * On r1, two type a trains at 1160x + 180w each and one type b train at 2320x + 360w: both pairs
   * cost 2320x + 360w.
   */
  lemma PairCostsR1(a: Valuation)
    ensures Eval(a, Term(Counts(TrainCounts), Level3.R1, Level3.TypeA)) ==
      2320.0 * a(X("r1", "a")) + 360.0 * a(W("r1", "a"))
    ensures Eval(a, Term(Counts(TrainCounts), Level3.R1, Level3.TypeB)) ==
      2320.0 * a(X("r1", "b")) + 360.0 * a(W("r1", "b"))
  {
    TermValue(a, Counts(TrainCounts), Level3.R1, Level3.TypeA);
    TermValue(a, Counts(TrainCounts), Level3.R1, Level3.TypeB);
  }

  /** On r2, four type a trains and two type b trains: both pairs cost 5280x + 1040w. */
  lemma PairCostsR2(a: Valuation)
    ensures Eval(a, Term(Counts(TrainCounts), Level3.R2, Level3.TypeA)) ==
      5280.0 * a(X("r2", "a")) + 1040.0 * a(W("r2", "a"))
    ensures Eval(a, Term(Counts(TrainCounts), Level3.R2, Level3.TypeB)) ==
      5280.0 * a(X("r2", "b")) + 1040.0 * a(W("r2", "b"))
  {
    TermValue(a, Counts(TrainCounts), Level3.R2, Level3.TypeA);
    TermValue(a, Counts(TrainCounts), Level3.R2, Level3.TypeB);
  }

  /** The objective is linear: per route, one price per locomotive and one per car, whatever the type. */
  lemma ObjectiveValue(a: Valuation)
    ensures WellFormed(Data())
    ensures Eval(a, ObjectiveOfInstance(Data())) ==
      2320.0 * (a(X("r1", "a")) + a(X("r1", "b"))) + 360.0 * (a(W("r1", "a")) + a(W("r1", "b"))) +
      5280.0 * (a(X("r2", "a")) + a(X("r2", "b"))) + 1040.0 * (a(W("r2", "a")) + a(W("r2", "b")))
  {
    ObjectiveTerms(a);
    PairCostsR1(a);
    PairCostsR2(a);
  }

  /** Every solution costs at least 11120: one train with 4 cars on r1 and one with 2 cars on r2. */
  lemma CostBound(a: Valuation)
    requires Domain(a) && Solution(a, Data())
    ensures Eval(a, ObjectiveOfInstance(Data())) >= 11120.0
  {
    Feasible(a);
    ObjectiveValue(a);
  }

  /** Type a on both routes, with 4 cars on r1 and 2 on r2; everything else zero. */
  function Cheapest(): Valuation
  {
    v => if v == X("r1", "a") || v == X("r2", "a") then 1.0
         else if v == W("r1", "a") then 4.0
         else if v == W("r2", "a") then 2.0
         else 0.0
  }

  lemma CheapestDomain()
    ensures Domain(Cheapest())
  {
    forall v ensures InDomain(v, Cheapest()(v)) {
    }
  }

  lemma CheapestValues()
    ensures Cheapest()(X("r1", "a")) == 1.0 && Cheapest()(X("r2", "a")) == 1.0
    ensures Cheapest()(X("r1", "b")) == 0.0 && Cheapest()(X("r2", "b")) == 0.0
    ensures Cheapest()(W("r1", "a")) == 4.0 && Cheapest()(W("r2", "a")) == 2.0
    ensures Cheapest()(W("r1", "b")) == 0.0 && Cheapest()(W("r2", "b")) == 0.0
  {
  }

  /** A valuation in the domains with those values is a solution that costs 11120. */
  lemma OptimalAt(a: Valuation)
    requires Domain(a)
    requires a(X("r1", "a")) == 1.0 && a(X("r2", "a")) == 1.0
    requires a(X("r1", "b")) == 0.0 && a(X("r2", "b")) == 0.0
    requires a(W("r1", "a")) == 4.0 && a(W("r2", "a")) == 2.0
    requires a(W("r1", "b")) == 0.0 && a(W("r2", "b")) == 0.0
    ensures WellFormed(Data())
    ensures Solution(a, Data()) && Eval(a, ObjectiveOfInstance(Data())) == 11120.0
  {
    Feasible(a);
    ObjectiveValue(a);
  }

  /** The bound is attained: `Cheapest()` is a solution that costs 11120. */
  lemma CheapestIsOptimal()
    ensures WellFormed(Data())
    ensures Domain(Cheapest()) && Solution(Cheapest(), Data())
    ensures Eval(Cheapest(), ObjectiveOfInstance(Data())) == 11120.0
  {
    CheapestDomain();
    CheapestValues();
    OptimalAt(Cheapest());
  }

  /** The toy data script: the model it hands to the solver. */
  method Run() returns (m: ModelBuilder)
    ensures fresh(m)
    ensures m.variables == DeclaredVars(Data())
    ensures m.constraints == AllConstraints(Data()) && m.objective == ObjectiveOfInstance(Data())
  {
    DataWellFormed();
    var outcome;
    outcome, m := BuildModel(Data());
  }
}
