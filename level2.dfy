/**
 * Level 2: the level 1 Barrie line data with event times. Each train's cycle time becomes a
 * variable bounded by the out-and-back traversal, and each pair's cost is weighed by
 * `cycletime/period`. The script departs as soon as it arrives (no dwell) and has no overlap
 * bound.
 */
module Level2 {
  import opened Wrappers
  import opened Network
  import opened RollingStock
  import opened Symbolic
  import opened Families
  import opened Objective
  import opened Instances
  import opened Feasibility
  import opened Traversal
  import opened Solutions
  import opened Layout
  import opened Builder
  import Level1

  /** The same locomotive, cars, edges, route and period as level 1; the ordering has no wait term. */
  function Data(): Instance
  {
    Instance([Level1.R1], [Level1.Mp40], Shared(Level1.Table), Level1.Period, Timed(0.0, None))
  }

  lemma DataWellFormed()
    ensures WellFormed(Data()) && Validate(Data()).Pass?
    ensures PositiveSpeeds(Data().types)
    ensures Dwell(Data()) == 0.0
  {
    DataCovers();
  }

  lemma DataCovers()
    ensures WellFormed(Data())
  {
    Level1.DataWellFormed();
    assert Covers(Data().edges, Level1.R1);
  }

  /** As in level 1, a solution runs the MP40 with 4 to 12 cars. */
  lemma SolutionFleet(a: Valuation)
    requires Solution(a, Data())
    ensures a(X("r1", "MP40")) == 1.0 && 4.0 <= a(W("r1", "MP40")) <= 12.0
  {
    DataWellFormed();
    SolutionGated(a, Data(), Level1.R1, Level1.Mp40);
    SolutionServed(a, Data(), Level1.R1);
    Level1.LineServed(a);
    Level1.CarsNeeded(a);
  }

  /** The running times at 91 km/h add up to 101.39/91 hours each way. */
  lemma RoundTrip()
    ensures Covers(Shared(Level1.Table), Level1.R1)
    ensures MinRoundTrip(Shared(Level1.Table), Level1.R1, 91.0, 0.0) == 202.78 / 91.0
  {
    Level1.LineLength();
    RunTimesTotal(Shared(Level1.Table), Level1.R1, 91.0, 10);
  }

  /**
   * In every solution the MP40's cycle time is at least its first departure plus the round trip
   * at full speed, 202.78/91 hours (about 133.7 minutes).
   */
  lemma CycleBound(a: Valuation)
    requires Solution(a, Data())
    ensures a(CycleTime("r1", "MP40")) >= a(Dep("r1", Forward, Edge("s1", "s2"))) + 202.78 / 91.0
  {
    DataWellFormed();
    SolutionFleet(a);
    UsedCycleBound(a, Data(), Level1.R1, Level1.Mp40);
    RoundTrip();
  }

  lemma ObjectiveShape()
    ensures WellFormed(Data())
    ensures ObjectiveOfInstance(Data()) == ObjectiveOf(PerPeriod(60.0), [Level1.R1], [Level1.Mp40])
  {
    DataWellFormed();
  }

  /** The objective is the MP40's cost weighed by its cycle time over the period. */
  lemma ObjectiveValue(a: Valuation)
    ensures WellFormed(Data())
    ensures Eval(a, ObjectiveOfInstance(Data())) ==
      a(CycleTime("r1", "MP40")) / 60.0 * CostValue(Level1.Mp40, 101.39, a(X("r1", "MP40")), a(W("r1", "MP40")))
  {
    ObjectiveShape();
    SinglePairValue(a, PerPeriod(60.0), Level1.R1, Level1.Mp40);
  }

  /**
   * Every solution costs at least the fewest cars (4) over the shortest cycle (202.78/91 hours) would:
   * (202.78/91)/60 times the four-car cost 101.39 · 247.13.
   */
  lemma CostBound(a: Valuation)
    requires Solution(a, Data())
    ensures Eval(a, ObjectiveOfInstance(Data())) >= 202.78 / 91.0 / 60.0 * (101.39 * 247.13)
  {
    var x, w, c := a(X("r1", "MP40")), a(W("r1", "MP40")), a(CycleTime("r1", "MP40"));
    SolutionFleet(a);
    CycleBound(a);
    DomainAt(a, Dep("r1", Forward, Edge("s1", "s2")));
    ObjectiveValue(a);
    assert NonNegativePrices(Level1.Mp40);
    CostMonotone(Level1.Mp40, 101.39, 1.0, 4.0, x, w);
    assert CostValue(Level1.Mp40, 101.39, 1.0, 4.0) == 101.39 * 247.13;
    WeighedAtLeast(c, 202.78 / 91.0, CostValue(Level1.Mp40, 101.39, x, w), 101.39 * 247.13);
  }

  /** The level 2 script: the model it hands to the solver. */
  method Run() returns (m: ModelBuilder)
    ensures fresh(m)
    ensures m.variables == DeclaredVars(Data())
    ensures m.constraints == AllConstraints(Data()) && m.objective == ObjectiveOfInstance(Data())
  {
    DataWellFormed();
    var outcome;
    outcome, m := BuildModel(Data());
  }
}
