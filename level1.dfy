/**
 * Level 1: the Barrie line (Union to Allendale, ten edges) served by MP40 locomotives with bi-level
 * cars. The number of trains is a constant computed before the model, and the model holds fleet and
 * capacity constraints only.
 */
module Level1 {
  import opened Wrappers
  import opened Network
  import opened RollingStock
  import opened Symbolic
  import opened Families
  import opened Objective
  import opened Instances
  import opened Feasibility
  import opened Traversal
  import opened Solutions
  import opened Timing
  import opened Layout
  import opened Builder

  /** Locomotive: no fixed cost, 98.09 per km, 91 km/h; car: no fixed cost, 37.26 per km, 162 seats, 1 to 12 per train. */
  const Mp40 := TrainType("MP40", 0.0, 98.09, 91.0, 0.0, 37.26, 162, 1, 12)

  const Line: seq<Edge> := [
    Edge("s1", "s2"), Edge("s2", "s3"), Edge("s3", "s4"), Edge("s4", "s5"), Edge("s5", "s6"),
    Edge("s6", "s7"), Edge("s7", "s8"), Edge("s8", "s9"), Edge("s9", "s10"), Edge("s10", "s11")]

  /** Every edge carries 550 passengers, the Union to York University peak. */
  const Table: map<Edge, EdgeData> := map[
    Edge("s1", "s2") := EdgeData(17.54, 550), Edge("s2", "s3") := EdgeData(9.34, 550),
    Edge("s3", "s4") := EdgeData(2.57, 550), Edge("s4", "s5") := EdgeData(7.08, 550),
    Edge("s5", "s6") := EdgeData(11.59, 550), Edge("s6", "s7") := EdgeData(6.93, 550),
    Edge("s7", "s8") := EdgeData(2.08, 550), Edge("s8", "s9") := EdgeData(9.66, 550),
    Edge("s9", "s10") := EdgeData(28.97, 550), Edge("s10", "s11") := EdgeData(5.63, 550)]

  const R1 := Route("r1", Line, 101.39)

  const Period := 60.0

  /** `calc_num_trains('r1', 'MP40')` over `calc_cycle_time('r1', 'MP40')`. */
  function NumTrains(): int
  {
    CalcNumTrains(CalcCycleTime(R1.dist, Mp40.speed), Period)
  }

  function Data(): Instance
  {
    Instance([R1], [Mp40], Shared(Table), Period, Linear(map[("r1", "MP40") := NumTrains()]))
  }

  /** The round trip takes 12166.8/91, about 133.7 minutes, so three trains cover the hourly period. */
  lemma NumTrainsIsThree()
    ensures NumTrains() == 3
  {
    var c := CalcCycleTime(R1.dist, Mp40.speed);
    assert c * 91.0 == 12166.8;
    assert c == 12166.8 / 91.0;
    var k := NumTrains();
    assert k as real * 60.0 >= c && (k - 1) as real * 60.0 < c;
  }

  lemma DataWellFormed()
    ensures WellFormed(Data()) && Validate(Data()).Pass?
  {
    forall e | e in Line ensures e in Table {
    }
    assert Covers(Shared(Table), R1);
  }

  lemma LineDemand()
    ensures forall e :: e in Line ==> e in Table && Table[e].demand == 550
  {
  }

  /** The edge lengths in route order (km). */
  const EdgeLengths: seq<real> := [17.54, 9.34, 2.57, 7.08, 11.59, 6.93, 2.08, 9.66, 28.97, 5.63]

  lemma LineLengths()
    ensures Covers(Shared(Table), R1)
    ensures Solutions.Lengths(Shared(Table), R1) == EdgeLengths
  {
    LineDemand();
  }

  /** The route's distance, 101.39 km, is the sum of its edges' lengths: one way, not the round trip. */
  lemma LineLength()
    ensures Covers(Shared(Table), R1)
    ensures PrefixSum(Solutions.Lengths(Shared(Table), R1), |R1.edges|) == R1.dist
  {
    LineLengths();
    assert PrefixSum(EdgeLengths, 1) == 17.54;
    assert PrefixSum(EdgeLengths, 2) == 26.88;
    assert PrefixSum(EdgeLengths, 3) == 29.45;
    assert PrefixSum(EdgeLengths, 4) == 36.53;
    assert PrefixSum(EdgeLengths, 5) == 48.12;
    assert PrefixSum(EdgeLengths, 6) == 55.05;
    assert PrefixSum(EdgeLengths, 7) == 57.13;
    assert PrefixSum(EdgeLengths, 8) == 66.79;
    assert PrefixSum(EdgeLengths, 9) == 95.76;
    assert PrefixSum(EdgeLengths, 10) == 101.39;
  }

  /** The route's seats meet every edge's demand exactly when they reach 550. */
  lemma LineServed(a: Valuation)
    ensures Covers(Shared(Table), R1)
    ensures Served(a, Shared(Table), R1, [Mp40]) <==> 550.0 <= a(W("r1", "MP40")) * 162.0
  {
    LineDemand();
    assert [Mp40][..0] == [];
    assert Seats(a, "r1", [Mp40]) == a(W("r1", "MP40")) * 162.0;
    assert Line[0] in R1.edges;
  }

  /** A gated MP40 whose cars seat 550 passengers runs with 4 to 12 cars. */
  lemma CarsNeeded(a: Valuation)
    requires Domain(a)
    ensures FleetGated(a, R1, Mp40) && 550.0 <= a(W("r1", "MP40")) * 162.0 <==>
      a(X("r1", "MP40")) == 1.0 && 4.0 <= a(W("r1", "MP40")) <= 12.0
  {
    DomainAt(a, W("r1", "MP40"));
    var w := a(W("r1", "MP40"));
    if 550.0 <= w * 162.0 {
      assert w > 3.0;
    }
  }

  /** Level 1's constraints say: the MP40 is gated, and its cars seat every edge's 550 passengers. */
  lemma DataMeaning(a: Valuation)
    ensures WellFormed(Data())
    ensures Meaning(a, Data()) <==>
      FleetGated(a, R1, Mp40) && 550.0 <= a(W("r1", "MP40")) * 162.0
  {
    DataWellFormed();
    LineServed(a);
    LinearSingleMeaning(a, Data(), R1, Mp40);
  }

  /**
   * A valuation in the variable domains solves level 1 exactly when the MP40 is used with 4 to 12
   * cars: 3 cars seat 486, fewer than the 550 passengers every edge carries.
   */
  lemma Feasible(a: Valuation)
    requires Domain(a)
    ensures Solution(a, Data()) <==>
      a(X("r1", "MP40")) == 1.0 && 4.0 <= a(W("r1", "MP40")) <= 12.0
  {
    DataMeaning(a);
    SolutionMeaning(a, Data());
    CarsNeeded(a);
  }

  /** The objective is three trains' cost: with x = 1, `3 * 101.39 * (98.09 + 37.26 * w)`. */
  lemma ObjectiveValue(a: Valuation)
    ensures Eval(a, ObjectiveOfInstance(Data())) ==
      3.0 * CostValue(Mp40, 101.39, a(X("r1", "MP40")), a(W("r1", "MP40")))
  {
    DataWellFormed();
    var inst := Data();
    var wt := Counts(map[("r1", "MP40") := NumTrains()]);
    assert WeightOf(inst) == wt;
    assert ObjectiveOfInstance(inst) == ObjectiveOf(wt, [R1], [Mp40]);
    SinglePairValue(a, wt, R1, Mp40);
    NumTrainsIsThree();
    assert Multiplier(a, wt, R1, Mp40) == 3.0;
  }

  /**
   * Every solution costs at least 75169.5321, the cost of one MP40 with 4 cars, and a solution
   * with 4 cars attains it.
   */
  lemma Optimum(a: Valuation)
    requires Domain(a) && Solution(a, Data())
    ensures Eval(a, ObjectiveOfInstance(Data())) >= 75169.5321
    ensures a(W("r1", "MP40")) == 4.0 ==> Eval(a, ObjectiveOfInstance(Data())) == 75169.5321
  {
    Feasible(a);
    ObjectiveValue(a);
  }

  /** The level 1 script: the model it hands to the solver, and the number of trains it assumed. */
  method Run() returns (m: ModelBuilder)
    ensures fresh(m)
    ensures m.variables == DeclaredVars(Data())
    ensures m.constraints == AllConstraints(Data()) && m.objective == ObjectiveOfInstance(Data())
  {
    DataWellFormed();
    var outcome;
    outcome, m := BuildModel(Data());
  }
}
