/**
 * Level 3 on toy data: two one-edge routes sharing station s2, two locomotive types, per-route edge
 * tables, a one-minute dwell at every station (including the turn-around) and the five-minute
 * overlap at Union station, which holds back the first departure of each route.
 */
module Level3 {
  import opened Wrappers
  import opened Network
  import opened RollingStock
  import opened Symbolic
  import opened Families
  import opened Objective
  import opened Instances
  import opened Feasibility
  import opened Traversal
  import opened Solutions
  import opened Timing
  import opened Layout
  import opened Builder

  /** Locomotive 1000 fixed, 2 per km, 40 km/h; car 100 fixed, 1 per km, 10 seats, 1 to 8 per train. */
  const TypeA := TrainType("a", 1000.0, 2.0, 40.0, 100.0, 1.0, 10, 1, 8)

  /** Locomotive 2000 fixed, 4 per km, 80 km/h; car 200 fixed, 2 per km, 10 seats, 1 to 4 per train. */
  const TypeB := TrainType("b", 2000.0, 4.0, 80.0, 200.0, 2.0, 10, 1, 4)

  /** Route r1 runs s1 to s2 and back, 80 km in all. */
  const R1 := Route("r1", [Edge("s1", "s2")], 80.0)

  /** Route r2 runs s2 to s3 and back, 160 km in all. */
  const R2 := Route("r2", [Edge("s2", "s3")], 160.0)

  /** Per-route lengths (km) and passenger demand of each edge. */
  const Tables: map<string, map<Edge, EdgeData>> := map[
    "r1" := map[Edge("s1", "s2") := EdgeData(40.0, 40)],
    "r2" := map[Edge("s2", "s3") := EdgeData(80.0, 20)]]

  const Period := 60.0

  /** The first departure of both routes is at least five minutes into the period. */
  const Union := Overlap("r1", "r2", 5.0)

  function Data(): Instance
  {
    Instance([R1, R2], [TypeA, TypeB], PerRoute(Tables), Period, Timed(1.0, Some(Union)))
  }

  lemma DataWellFormed()
    ensures WellFormed(Data()) && Validate(Data()).Pass?
    ensures PositiveSpeeds(Data().types)
    ensures Dwell(Data()) == 1.0 / 60.0
    ensures FindRoute(Data().routes, "r1") == Some(R1) && FindRoute(Data().routes, "r2") == Some(R2)
  {
    assert Covers(PerRoute(Tables), R1);
    assert Covers(PerRoute(Tables), R2);
  }

  /** Seats of a route: ten per car of either type. */
  lemma SeatsOf(a: Valuation, rid: string)
    ensures Seats(a, rid, [TypeA, TypeB]) == a(W(rid, "a")) * 10.0 + a(W(rid, "b")) * 10.0
  {
    assert [TypeA, TypeB][..1] == [TypeA];
    assert [TypeA][..0] == [];
    assert Seats(a, rid, [TypeA]) == a(W(rid, "a")) * 10.0;
  }

  /** Route r1's one edge carries 40 passengers. */
  lemma DemandR1(a: Valuation)
    ensures Covers(PerRoute(Tables), R1)
    ensures Served(a, PerRoute(Tables), R1, [TypeA, TypeB]) <==>
      40.0 <= a(W("r1", "a")) * 10.0 + a(W("r1", "b")) * 10.0
  {
    assert Covers(PerRoute(Tables), R1);
    SeatsOf(a, "r1");
    assert Edge("s1", "s2") in R1.edges;
  }

  /** Route r2's one edge carries 20 passengers. */
  lemma DemandR2(a: Valuation)
    ensures Covers(PerRoute(Tables), R2)
    ensures Served(a, PerRoute(Tables), R2, [TypeA, TypeB]) <==>
      20.0 <= a(W("r2", "a")) * 10.0 + a(W("r2", "b")) * 10.0
  {
    assert Covers(PerRoute(Tables), R2);
    SeatsOf(a, "r2");
    assert Edge("s2", "s3") in R2.edges;
  }

  /** In every solution the cars on r1 seat its 40 passengers and the cars on r2 its 20. */
  lemma RoutesServed(a: Valuation)
    requires Solution(a, Data())
    ensures 40.0 <= a(W("r1", "a")) * 10.0 + a(W("r1", "b")) * 10.0
    ensures 20.0 <= a(W("r2", "a")) * 10.0 + a(W("r2", "b")) * 10.0
  {
    DataWellFormed();
    SolutionServed(a, Data(), R1);
    SolutionServed(a, Data(), R2);
    DemandR1(a);
    DemandR2(a);
  }

  /** With a type unused its cars are zero, so the seats come from used types: each route runs one. */
  lemma EveryRouteRuns(a: Valuation)
    requires Solution(a, Data())
    ensures a(X("r1", "a")) == 1.0 || a(X("r1", "b")) == 1.0
    ensures a(X("r2", "a")) == 1.0 || a(X("r2", "b")) == 1.0
  {
    DataWellFormed();
    RoutesServed(a);
    SolutionGated(a, Data(), R1, TypeA);
    SolutionGated(a, Data(), R1, TypeB);
    SolutionGated(a, Data(), R2, TypeA);
    SolutionGated(a, Data(), R2, TypeB);
  }

  /** The least round trips: one dwell at the turn-around plus twice the edge's running time. */
  lemma RoundTrips()
    ensures Covers(PerRoute(Tables), R1) && Covers(PerRoute(Tables), R2)
    ensures MinRoundTrip(PerRoute(Tables), R1, 40.0, 1.0 / 60.0) == 2.0 + 1.0 / 60.0
    ensures MinRoundTrip(PerRoute(Tables), R1, 80.0, 1.0 / 60.0) == 1.0 + 1.0 / 60.0
    ensures MinRoundTrip(PerRoute(Tables), R2, 40.0, 1.0 / 60.0) == 4.0 + 1.0 / 60.0
    ensures MinRoundTrip(PerRoute(Tables), R2, 80.0, 1.0 / 60.0) == 2.0 + 1.0 / 60.0
  {
    assert Covers(PerRoute(Tables), R1);
    assert Covers(PerRoute(Tables), R2);
    OneEdgeRoundTrip(PerRoute(Tables), R1, 40.0, 1.0 / 60.0);
    OneEdgeRoundTrip(PerRoute(Tables), R1, 80.0, 1.0 / 60.0);
    OneEdgeRoundTrip(PerRoute(Tables), R2, 40.0, 1.0 / 60.0);
    OneEdgeRoundTrip(PerRoute(Tables), R2, 80.0, 1.0 / 60.0);
  }

  /**
   * In every solution a used type's cycle time (in hours) is at least the five-minute overlap plus its
   * round trip: 2.1 and 1.1 on r1, 4.1 and 2.1 on r2, for types a and b.
   */
  lemma CycleBounds(a: Valuation)
    requires Solution(a, Data())
    ensures a(X("r1", "a")) == 1.0 ==> a(CycleTime("r1", "a")) >= 2.1
    ensures a(X("r1", "b")) == 1.0 ==> a(CycleTime("r1", "b")) >= 1.1
    ensures a(X("r2", "a")) == 1.0 ==> a(CycleTime("r2", "a")) >= 4.1
    ensures a(X("r2", "b")) == 1.0 ==> a(CycleTime("r2", "b")) >= 2.1
  {
    DataWellFormed();
    RoundTrips();
    OverlapCycleBound(a, Data(), Union, TypeA);
    OverlapCycleBound(a, Data(), Union, TypeB);
  }

  /**
   * The reported locomotive count `ceil(cycletime * 60 / period)` of a used type: at least 3 and 2 on
   * r1, 5 and 3 on r2, for types a and b.
   */
  lemma LocoCounts(a: Valuation)
    requires Solution(a, Data())
    ensures a(X("r1", "a")) == 1.0 ==> LocoCount(a(CycleTime("r1", "a")), Period) >= 3
    ensures a(X("r1", "b")) == 1.0 ==> LocoCount(a(CycleTime("r1", "b")), Period) >= 2
    ensures a(X("r2", "a")) == 1.0 ==> LocoCount(a(CycleTime("r2", "a")), Period) >= 5
    ensures a(X("r2", "b")) == 1.0 ==> LocoCount(a(CycleTime("r2", "b")), Period) >= 3
  {
    CycleBounds(a);
  }

  lemma ObjectiveShape()
    ensures WellFormed(Data())
    ensures ObjectiveOfInstance(Data()) == ObjectiveOf(PerPeriod(60.0), [R1, R2], [TypeA, TypeB])
  {
    DataWellFormed();
  }

  /** The objective is the sum of the four pairs' terms. */
  lemma ObjectiveTerms(a: Valuation)
    ensures WellFormed(Data())
    ensures Eval(a, ObjectiveOfInstance(Data())) ==
      Eval(a, Term(PerPeriod(60.0), R1, TypeA)) + Eval(a, Term(PerPeriod(60.0), R1, TypeB)) +
      Eval(a, Term(PerPeriod(60.0), R2, TypeA)) + Eval(a, Term(PerPeriod(60.0), R2, TypeB))
  {
    ObjectiveShape();
    TwoByTwoValue(a, PerPeriod(60.0), R1, R2, TypeA, TypeB);
  }

  /**
   * Each pair's term is `cycletime/period` times its cost, which is linear in the locomotive x and
   * the cars w: on r1 (80 km) 1160x + 180w for type a and 2320x + 360w for type b.
   */
  lemma PairCostsR1(a: Valuation)
    ensures Eval(a, Term(PerPeriod(60.0), R1, TypeA)) ==
      a(CycleTime("r1", "a")) / 60.0 * (1160.0 * a(X("r1", "a")) + 180.0 * a(W("r1", "a")))
    ensures Eval(a, Term(PerPeriod(60.0), R1, TypeB)) ==
      a(CycleTime("r1", "b")) / 60.0 * (2320.0 * a(X("r1", "b")) + 360.0 * a(W("r1", "b")))
  {
    PerPeriodTermValue(a, 60.0, R1, TypeA);
    PerPeriodTermValue(a, 60.0, R1, TypeB);
  }

  /** On r2 (160 km): 1320x + 260w for type a and 2640x + 520w for type b. */
  lemma PairCostsR2(a: Valuation)
    ensures Eval(a, Term(PerPeriod(60.0), R2, TypeA)) ==
      a(CycleTime("r2", "a")) / 60.0 * (1320.0 * a(X("r2", "a")) + 260.0 * a(W("r2", "a")))
    ensures Eval(a, Term(PerPeriod(60.0), R2, TypeB)) ==
      a(CycleTime("r2", "b")) / 60.0 * (2640.0 * a(X("r2", "b")) + 520.0 * a(W("r2", "b")))
  {
    PerPeriodTermValue(a, 60.0, R2, TypeA);
    PerPeriodTermValue(a, 60.0, R2, TypeB);
  }

  /** The objective, pair by pair in route-then-type order. */
  lemma ObjectiveValue(a: Valuation)
    ensures WellFormed(Data())
    ensures Eval(a, ObjectiveOfInstance(Data())) ==
      a(CycleTime("r1", "a")) / 60.0 * (1160.0 * a(X("r1", "a")) + 180.0 * a(W("r1", "a"))) +
      a(CycleTime("r1", "b")) / 60.0 * (2320.0 * a(X("r1", "b")) + 360.0 * a(W("r1", "b"))) +
      a(CycleTime("r2", "a")) / 60.0 * (1320.0 * a(X("r2", "a")) + 260.0 * a(W("r2", "a"))) +
      a(CycleTime("r2", "b")) / 60.0 * (2640.0 * a(X("r2", "b")) + 520.0 * a(W("r2", "b")))
  {
    ObjectiveTerms(a);
    PairCostsR1(a);
    PairCostsR2(a);
  }

  /** What a solution fixes on route r1: binary gates, gated cars, enough seats and the cycle bounds. */
  lemma FactsR1(a: Valuation)
    requires Solution(a, Data())
    ensures a(X("r1", "a")) == 0.0 || a(X("r1", "a")) == 1.0
    ensures a(X("r1", "b")) == 0.0 || a(X("r1", "b")) == 1.0
    ensures a(X("r1", "a")) == 0.0 ==> a(W("r1", "a")) == 0.0
    ensures a(X("r1", "b")) == 0.0 ==> a(W("r1", "b")) == 0.0
    ensures a(X("r1", "a")) == 1.0 ==> a(W("r1", "a")) >= 1.0 && a(CycleTime("r1", "a")) >= 2.1
    ensures a(X("r1", "b")) == 1.0 ==> a(W("r1", "b")) >= 1.0 && a(CycleTime("r1", "b")) >= 1.1
    ensures 40.0 <= a(W("r1", "a")) * 10.0 + a(W("r1", "b")) * 10.0
    ensures a(CycleTime("r1", "a")) >= 0.0 && a(CycleTime("r1", "b")) >= 0.0
  {
    DataWellFormed();
    SolutionGated(a, Data(), R1, TypeA);
    SolutionGated(a, Data(), R1, TypeB);
    RoutesServed(a);
    CycleBounds(a);
    DomainAt(a, CycleTime("r1", "a"));
    DomainAt(a, CycleTime("r1", "b"));
  }

  /**
   * Route r1 costs at least 3948/60 (65.8) whatever values a solution gives its pairs: type a alone
   * with 4 cars over 2.1 hours; type b alone or both types cost more.
   */
  lemma CheapestR1(xa: real, wa: real, ca: real, xb: real, wb: real, cb: real)
    requires xa == 0.0 || xa == 1.0
    requires xb == 0.0 || xb == 1.0
    requires xa == 0.0 ==> wa == 0.0
    requires xb == 0.0 ==> wb == 0.0
    requires xa == 1.0 ==> wa >= 1.0 && ca >= 2.1
    requires xb == 1.0 ==> wb >= 1.0 && cb >= 1.1
    requires 40.0 <= wa * 10.0 + wb * 10.0
    requires ca >= 0.0 && cb >= 0.0
    ensures ca / 60.0 * (1160.0 * xa + 180.0 * wa) + cb / 60.0 * (2320.0 * xb + 360.0 * wb) >= 3948.0 / 60.0
  {
    var ka, kb := 1160.0 * xa + 180.0 * wa, 2320.0 * xb + 360.0 * wb;
    if xb == 0.0 {
      WeighedAtLeast(ca, 2.1, ka, 1880.0);
      assert cb / 60.0 * kb == 0.0;
    } else if xa == 0.0 {
      WeighedAtLeast(cb, 1.1, kb, 3760.0);
      assert ca / 60.0 * ka == 0.0;
    } else {
      WeighedAtLeast(ca, 2.1, ka, 1340.0);
      WeighedAtLeast(cb, 1.1, kb, 2680.0);
    }
  }

  /** What a solution fixes on route r2: binary gates, gated cars, enough seats and the cycle bounds. */
  lemma FactsR2(a: Valuation)
    requires Solution(a, Data())
    ensures a(X("r2", "a")) == 0.0 || a(X("r2", "a")) == 1.0
    ensures a(X("r2", "b")) == 0.0 || a(X("r2", "b")) == 1.0
    ensures a(X("r2", "a")) == 0.0 ==> a(W("r2", "a")) == 0.0
    ensures a(X("r2", "b")) == 0.0 ==> a(W("r2", "b")) == 0.0
    ensures a(X("r2", "a")) == 1.0 ==> a(W("r2", "a")) >= 1.0 && a(CycleTime("r2", "a")) >= 4.1
    ensures a(X("r2", "b")) == 1.0 ==> a(W("r2", "b")) >= 1.0 && a(CycleTime("r2", "b")) >= 2.1
    ensures 20.0 <= a(W("r2", "a")) * 10.0 + a(W("r2", "b")) * 10.0
    ensures a(CycleTime("r2", "a")) >= 0.0 && a(CycleTime("r2", "b")) >= 0.0
  {
    DataWellFormed();
    SolutionGated(a, Data(), R2, TypeA);
    SolutionGated(a, Data(), R2, TypeB);
    RoutesServed(a);
    CycleBounds(a);
    DomainAt(a, CycleTime("r2", "a"));
    DomainAt(a, CycleTime("r2", "b"));
  }

  /**
   * Route r2 costs at least 7544/60 (about 125.73): type a alone with 2 cars over 4.1 hours; type b
   * alone or both types cost more.
   */
  lemma CheapestR2(xa: real, wa: real, ca: real, xb: real, wb: real, cb: real)
    requires xa == 0.0 || xa == 1.0
    requires xb == 0.0 || xb == 1.0
    requires xa == 0.0 ==> wa == 0.0
    requires xb == 0.0 ==> wb == 0.0
    requires xa == 1.0 ==> wa >= 1.0 && ca >= 4.1
    requires xb == 1.0 ==> wb >= 1.0 && cb >= 2.1
    requires 20.0 <= wa * 10.0 + wb * 10.0
    requires ca >= 0.0 && cb >= 0.0
    ensures ca / 60.0 * (1320.0 * xa + 260.0 * wa) + cb / 60.0 * (2640.0 * xb + 520.0 * wb) >= 7544.0 / 60.0
  {
    var ka, kb := 1320.0 * xa + 260.0 * wa, 2640.0 * xb + 520.0 * wb;
    if xb == 0.0 {
      WeighedAtLeast(ca, 4.1, ka, 1840.0);
      assert cb / 60.0 * kb == 0.0;
    } else if xa == 0.0 {
      WeighedAtLeast(cb, 2.1, kb, 3680.0);
      assert ca / 60.0 * ka == 0.0;
    } else {
      WeighedAtLeast(ca, 4.1, ka, 1580.0);
      WeighedAtLeast(cb, 2.1, kb, 3160.0);
    }
  }

  /** The facts of a solution on route `rid` that its cost depends on (see FactsR1 and FactsR2). */
  predicate RouteFacts(a: Valuation, rid: string, ba: real, bb: real, dem: real)
  {
    && (a(X(rid, "a")) == 0.0 || a(X(rid, "a")) == 1.0)
    && (a(X(rid, "b")) == 0.0 || a(X(rid, "b")) == 1.0)
    && (a(X(rid, "a")) == 0.0 ==> a(W(rid, "a")) == 0.0)
    && (a(X(rid, "b")) == 0.0 ==> a(W(rid, "b")) == 0.0)
    && (a(X(rid, "a")) == 1.0 ==> a(W(rid, "a")) >= 1.0 && a(CycleTime(rid, "a")) >= ba)
    && (a(X(rid, "b")) == 1.0 ==> a(W(rid, "b")) >= 1.0 && a(CycleTime(rid, "b")) >= bb)
    && dem <= a(W(rid, "a")) * 10.0 + a(W(rid, "b")) * 10.0
    && a(CycleTime(rid, "a")) >= 0.0 && a(CycleTime(rid, "b")) >= 0.0
  }

  /** A valuation with those facts on both routes costs at least 11492/60. */
  lemma CheapestBoth(a: Valuation)
    requires RouteFacts(a, "r1", 2.1, 1.1, 40.0) && RouteFacts(a, "r2", 4.1, 2.1, 20.0)
    ensures a(CycleTime("r1", "a")) / 60.0 * (1160.0 * a(X("r1", "a")) + 180.0 * a(W("r1", "a"))) +
      a(CycleTime("r1", "b")) / 60.0 * (2320.0 * a(X("r1", "b")) + 360.0 * a(W("r1", "b"))) +
      a(CycleTime("r2", "a")) / 60.0 * (1320.0 * a(X("r2", "a")) + 260.0 * a(W("r2", "a"))) +
      a(CycleTime("r2", "b")) / 60.0 * (2640.0 * a(X("r2", "b")) + 520.0 * a(W("r2", "b"))) >= 11492.0 / 60.0
  {
    CheapestR1(a(X("r1", "a")), a(W("r1", "a")), a(CycleTime("r1", "a")),
      a(X("r1", "b")), a(W("r1", "b")), a(CycleTime("r1", "b")));
    CheapestR2(a(X("r2", "a")), a(W("r2", "a")), a(CycleTime("r2", "a")),
      a(X("r2", "b")), a(W("r2", "b")), a(CycleTime("r2", "b")));
  }

  /** Every solution costs at least 11492/60 (about 191.53). */
  lemma CostBound(a: Valuation)
    requires Solution(a, Data())
    ensures Eval(a, ObjectiveOfInstance(Data())) >= 11492.0 / 60.0
  {
    FactsR1(a);
    FactsR2(a);
    assert RouteFacts(a, "r1", 2.1, 1.1, 40.0) && RouteFacts(a, "r2", 4.1, 2.1, 20.0);
    CheapestBoth(a);
    ObjectiveValue(a);
  }

  /**
   * The cheapest timetable: type a alone on each route (4 cars on r1, 2 on r2), leaving five minutes
   * into the period, running each edge at full speed and turning round after the one-minute dwell.
   */
  function Cheapest(): Valuation
  {
    (v: Var) => match v
      case X(_, t) => if t == "a" then 1.0 else 0.0
      case W(r, t) => if t != "a" then 0.0 else if r == "r1" then 4.0 else 2.0
      case CycleTime(r, t) => if t != "a" then 0.0 else if r == "r1" then 2.1 else 4.1
      case Dep(r, d, _) => if d == Forward then 5.0 / 60.0 else if r == "r1" then 66.0 / 60.0 else 126.0 / 60.0
      case Arr(r, d, _) =>
        if r == "r1" then (if d == Forward then 65.0 / 60.0 else 2.1)
        else if d == Forward then 125.0 / 60.0 else 4.1
  }

  /** The values the cheapest timetable gives the variables of both routes. */
  predicate CheapestAt(a: Valuation)
  {
    var e1, e2 := Edge("s1", "s2"), Edge("s2", "s3");
    && a(X("r1", "a")) == 1.0 && a(X("r1", "b")) == 0.0 && a(X("r2", "a")) == 1.0 && a(X("r2", "b")) == 0.0
    && a(W("r1", "a")) == 4.0 && a(W("r1", "b")) == 0.0 && a(W("r2", "a")) == 2.0 && a(W("r2", "b")) == 0.0
    && a(CycleTime("r1", "a")) == 2.1 && a(CycleTime("r1", "b")) == 0.0
    && a(CycleTime("r2", "a")) == 4.1 && a(CycleTime("r2", "b")) == 0.0
    && a(Dep("r1", Forward, e1)) == 5.0 / 60.0 && a(Arr("r1", Forward, e1)) == 65.0 / 60.0
    && a(Dep("r1", Reverse, e1)) == 66.0 / 60.0 && a(Arr("r1", Reverse, e1)) == 2.1
    && a(Dep("r2", Forward, e2)) == 5.0 / 60.0 && a(Arr("r2", Forward, e2)) == 125.0 / 60.0
    && a(Dep("r2", Reverse, e2)) == 126.0 / 60.0 && a(Arr("r2", Reverse, e2)) == 4.1
  }

  lemma CheapestValues()
    ensures Domain(Cheapest()) && CheapestAt(Cheapest())
  {
    forall v ensures InDomain(v, Cheapest()(v)) {
    }
  }

  /** On route r1 such a valuation gates both pairs, keeps type a's speed, orders and closes the trip. */
  lemma MeaningR1(a: Valuation)
    requires CheapestAt(a)
    ensures FleetGated(a, R1, TypeA) && FleetGated(a, R1, TypeB)
    ensures Covers(PerRoute(Tables), R1)
    ensures KeepsSpeed(a, PerRoute(Tables), R1, TypeA) && KeepsSpeed(a, PerRoute(Tables), R1, TypeB)
    ensures OrderedTraversal(a, "r1", R1.edges, 1.0 / 60.0)
    ensures CycleDefined(a, R1, TypeA) && CycleDefined(a, R1, TypeB)
  {
    assert Covers(PerRoute(Tables), R1);
    forall e, d | e in R1.edges
      ensures a(Arr("r1", d, e)) - a(Dep("r1", d, e)) >= Entry(PerRoute(Tables), "r1", e).len / TypeA.speed
    {
      assert e == Edge("s1", "s2") && Entry(PerRoute(Tables), "r1", e).len == 40.0;
      if d == Forward {
      } else {
      }
    }
  }

  /** The same on route r2. */
  lemma MeaningR2(a: Valuation)
    requires CheapestAt(a)
    ensures FleetGated(a, R2, TypeA) && FleetGated(a, R2, TypeB)
    ensures Covers(PerRoute(Tables), R2)
    ensures KeepsSpeed(a, PerRoute(Tables), R2, TypeA) && KeepsSpeed(a, PerRoute(Tables), R2, TypeB)
    ensures OrderedTraversal(a, "r2", R2.edges, 1.0 / 60.0)
    ensures CycleDefined(a, R2, TypeA) && CycleDefined(a, R2, TypeB)
  {
    assert Covers(PerRoute(Tables), R2);
    forall e, d | e in R2.edges
      ensures a(Arr("r2", d, e)) - a(Dep("r2", d, e)) >= Entry(PerRoute(Tables), "r2", e).len / TypeA.speed
    {
      assert e == Edge("s2", "s3") && Entry(PerRoute(Tables), "r2", e).len == 80.0;
      if d == Forward {
      } else {
      }
    }
  }

  /** Such a valuation meets every family of the level 3 model. */
  lemma MeaningAt(a: Valuation)
    requires CheapestAt(a)
    ensures WellFormed(Data()) && PositiveSpeeds(Data().types)
    ensures Meaning(a, Data())
  {
    var inst := Data();
    DataWellFormed();
    MeaningR1(a);
    MeaningR2(a);
    DemandR1(a);
    DemandR2(a);
    forall r, t | r in inst.routes && t in inst.types
      ensures FleetGated(a, r, t) && KeepsSpeed(a, inst.edges, r, t) && CycleDefined(a, r, t)
    {
      assert r == R1 || r == R2;
      assert t == TypeA || t == TypeB;
    }
    forall r | r in inst.routes
      ensures Served(a, inst.edges, r, inst.types) && OrderedTraversal(a, r.id, r.edges, Dwell(inst))
    {
      assert r == R1 || r == R2;
    }
    assert Edge("s1", "s2") == R1.edges[0] && Edge("s2", "s3") == R2.edges[0];
    OverlapMeaning(a, inst);
  }

  /** Such a valuation costs 3948/60 on r1 plus 7544/60 on r2, the two routes' lower bounds. */
  lemma CostAt(a: Valuation)
    requires CheapestAt(a)
    ensures WellFormed(Data())
    ensures Eval(a, ObjectiveOfInstance(Data())) == 11492.0 / 60.0
  {
    ObjectiveValue(a);
    assert 2.1 / 60.0 * (1160.0 * 1.0 + 180.0 * 4.0) + 0.0 / 60.0 * (2320.0 * 0.0 + 360.0 * 0.0) +
      4.1 / 60.0 * (1320.0 * 1.0 + 260.0 * 2.0) + 0.0 / 60.0 * (2640.0 * 0.0 + 520.0 * 0.0) == 11492.0 / 60.0;
  }

  /** A valuation in the domains with the timetable's values is a solution costing 11492/60. */
  lemma OptimalAt(a: Valuation)
    requires Domain(a) && CheapestAt(a)
    ensures WellFormed(Data())
    ensures Solution(a, Data()) && Eval(a, ObjectiveOfInstance(Data())) == 11492.0 / 60.0
  {
    MeaningAt(a);
    SolutionMeaning(a, Data());
    CostAt(a);
  }

  /** The bound is attained: `Cheapest()` is a solution that costs exactly 11492/60. */
  lemma CheapestIsOptimal()
    ensures WellFormed(Data())
    ensures Solution(Cheapest(), Data())
    ensures Eval(Cheapest(), ObjectiveOfInstance(Data())) == 11492.0 / 60.0
  {
    CheapestValues();
    OptimalAt(Cheapest());
  }

  /** The level 3 script: the model it hands to the solver. */
  method Run() returns (m: ModelBuilder)
    ensures fresh(m)
    ensures m.variables == DeclaredVars(Data())
    ensures m.constraints == AllConstraints(Data()) && m.objective == ObjectiveOfInstance(Data())
  {
    DataWellFormed();
    var outcome;
    outcome, m := BuildModel(Data());
  }
}
