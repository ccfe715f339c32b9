/**
 * What a reported solution of a whole script means: the families together, and the bound on a used
 * type's cycle time that the speed, ordering and cycle families give between them.
 */
module Solutions {
  import opened Wrappers
  import opened Network
  import opened RollingStock
  import opened Symbolic
  import opened Families
  import opened Objective
  import opened Feasibility
  import opened Traversal
  import opened Instances

  lemma SatisfiesSplit(a: Valuation, cs1: seq<Constraint>, cs2: seq<Constraint>)
    ensures SatisfiesAll(a, cs1 + cs2) <==> SatisfiesAll(a, cs1) && SatisfiesAll(a, cs2)
  {
  }

  predicate PositiveSpeeds(ts: seq<TrainType>)
  {
    forall t :: t in ts ==> t.speed > 0.0
  }

  lemma OverlapMeaning(a: Valuation, inst: Instance)
    requires WellFormed(inst) && inst.config.Timed?
    ensures SatisfiesAll(a, OverlapBounds(inst)) <==>
      match inst.config.overlap
      case None => true
      case Some(o) =>
        var r1, r2 := FindRoute(inst.routes, o.first).value, FindRoute(inst.routes, o.second).value;
        a(Dep(r1.id, Forward, r1.edges[0])) >= o.minutes / inst.period &&
        a(Dep(r2.id, Forward, r2.edges[0])) >= o.minutes / inst.period
  {
    match inst.config.overlap
    case None =>
    case Some(o) =>
      var r1, r2 := FindRoute(inst.routes, o.first).value, FindRoute(inst.routes, o.second).value;
      var c1, c2 := OverlapOf(r1, o.minutes / inst.period), OverlapOf(r2, o.minutes / inst.period);
      assert OverlapBounds(inst) == [c1, c2];
      assert Holds(a, c1) <==> a(Dep(r1.id, Forward, r1.edges[0])) >= o.minutes / inst.period;
      assert Holds(a, c2) <==> a(Dep(r2.id, Forward, r2.edges[0])) >= o.minutes / inst.period;
      assert SatisfiesAll(a, [c1, c2]) <==> Holds(a, c1) && Holds(a, c2);
  }

  /** A solution of a timed instance satisfies each of the timed families. */
  lemma TimedParts(a: Valuation, inst: Instance)
    requires WellFormed(inst) && inst.config.Timed? && Solution(a, inst)
    ensures SatisfiesAll(a, Speed(inst.routes, inst.types, inst.edges))
    ensures SatisfiesAll(a, Ordering(inst.routes, Dwell(inst)))
    ensures SatisfiesAll(a, Cycle(inst.routes, inst.types))
    ensures SatisfiesAll(a, OverlapBounds(inst))
  {
    var rs, ts, tbl := inst.routes, inst.types, inst.edges;
    var sp, od, cy, ov := Speed(rs, ts, tbl), Ordering(rs, Dwell(inst)), Cycle(rs, ts), OverlapBounds(inst);
    assert AllConstraints(inst) == (Fleet(rs, ts) + Capacity(rs, ts, tbl)) + (sp + od + cy + ov);
    SatisfiesSplit(a, Fleet(rs, ts) + Capacity(rs, ts, tbl), sp + od + cy + ov);
    SatisfiesSplit(a, sp + od + cy, ov);
    SatisfiesSplit(a, sp + od, cy);
    SatisfiesSplit(a, sp, od);
  }

  /** The facts every family states about a valuation, for the instance's families. */
  ghost predicate Meaning(a: Valuation, inst: Instance)
    requires WellFormed(inst) && (inst.config.Timed? ==> PositiveSpeeds(inst.types))
  {
    var rs, ts, tbl := inst.routes, inst.types, inst.edges;
    && (forall r, t :: r in rs && t in ts ==> FleetGated(a, r, t))
    && (forall r :: r in rs ==> Served(a, tbl, r, ts))
    && (inst.config.Timed? ==>
         && (forall r, t :: r in rs && t in ts ==> KeepsSpeed(a, tbl, r, t))
         && (forall r :: r in rs ==> OrderedTraversal(a, r.id, r.edges, Dwell(inst)))
         && (forall r, t :: r in rs && t in ts ==> CycleDefined(a, r, t))
         && SatisfiesAll(a, OverlapBounds(inst)))
  }

  /** A valuation in the variable domains satisfies the whole model exactly when every family's meaning holds. */
  lemma SolutionMeaning(a: Valuation, inst: Instance)
    requires WellFormed(inst) && (inst.config.Timed? ==> PositiveSpeeds(inst.types))
    requires Domain(a)
    ensures Solution(a, inst) <==> Meaning(a, inst)
  {
    var rs, ts, tbl := inst.routes, inst.types, inst.edges;
    FleetMeaning(a, rs, ts);
    CapacityMeaning(a, rs, ts, tbl);
    SatisfiesSplit(a, Fleet(rs, ts), Capacity(rs, ts, tbl));
    match inst.config
    case Linear(_) =>
      assert AllConstraints(inst) == Fleet(rs, ts) + Capacity(rs, ts, tbl) + [];
    case Timed(_, _) =>
      var dwell := Dwell(inst);
      SpeedMeaning(a, rs, ts, tbl);
      OrderingMeaning(a, rs, dwell);
      CycleMeaning(a, rs, ts);
      var base := Fleet(rs, ts) + Capacity(rs, ts, tbl);
      var timed := Speed(rs, ts, tbl) + Ordering(rs, dwell) + Cycle(rs, ts) + OverlapBounds(inst);
      assert AllConstraints(inst) == base + timed;
      SatisfiesSplit(a, base, timed);
      SatisfiesSplit(a, Speed(rs, ts, tbl) + Ordering(rs, dwell) + Cycle(rs, ts), OverlapBounds(inst));
      SatisfiesSplit(a, Speed(rs, ts, tbl) + Ordering(rs, dwell), Cycle(rs, ts));
      SatisfiesSplit(a, Speed(rs, ts, tbl), Ordering(rs, dwell));
  }

  /** In a solution, every pair is gated by its locomotive. */
  lemma SolutionGated(a: Valuation, inst: Instance, r: Route, t: TrainType)
    requires WellFormed(inst) && Solution(a, inst)
    requires r in inst.routes && t in inst.types
    ensures FleetGated(a, r, t)
  {
    var rs, ts := inst.routes, inst.types;
    assert AllConstraints(inst) == Fleet(rs, ts) + (AllConstraints(inst)[|Fleet(rs, ts)|..]);
    SatisfiesSplit(a, Fleet(rs, ts), AllConstraints(inst)[|Fleet(rs, ts)|..]);
    FleetMeaning(a, rs, ts);
  }

  /** In a solution, every route's seats cover every one of its edges' demand. */
  lemma SolutionServed(a: Valuation, inst: Instance, r: Route)
    requires WellFormed(inst) && Solution(a, inst)
    requires r in inst.routes
    ensures Covers(inst.edges, r) && Served(a, inst.edges, r, inst.types)
  {
    var rs, ts, tbl := inst.routes, inst.types, inst.edges;
    var fc := Fleet(rs, ts) + Capacity(rs, ts, tbl);
    assert AllConstraints(inst) == fc + (AllConstraints(inst)[|fc|..]);
    SatisfiesSplit(a, fc, AllConstraints(inst)[|fc|..]);
    SatisfiesSplit(a, Fleet(rs, ts), Capacity(rs, ts, tbl));
    CapacityMeaning(a, rs, ts, tbl);
  }

  /** With one route, one train type and no time variables, the model says: gated, and served. */
  lemma LinearSingleMeaning(a: Valuation, inst: Instance, r: Route, t: TrainType)
    requires WellFormed(inst) && inst.config.Linear?
    requires inst.routes == [r] && inst.types == [t]
    ensures Covers(inst.edges, r)
    ensures Meaning(a, inst) <==> FleetGated(a, r, t) && Served(a, inst.edges, r, [t])
  {
    assert r in inst.routes;
  }

  /** Two routes and two types, linear: the meaning spelled out pair by pair and route by route. */
  lemma LinearTwoByTwoMeaning(a: Valuation, inst: Instance, r1: Route, r2: Route, t1: TrainType, t2: TrainType)
    requires WellFormed(inst) && inst.config.Linear?
    requires inst.routes == [r1, r2] && inst.types == [t1, t2]
    ensures Covers(inst.edges, r1) && Covers(inst.edges, r2)
    ensures Meaning(a, inst) <==>
      && FleetGated(a, r1, t1) && FleetGated(a, r1, t2) && FleetGated(a, r2, t1) && FleetGated(a, r2, t2)
      && Served(a, inst.edges, r1, [t1, t2]) && Served(a, inst.edges, r2, [t1, t2])
  {
    assert r1 in inst.routes && r2 in inst.routes;
    assert t1 in inst.types && t2 in inst.types;
  }

  // ---------------------------------------------------------------- unused pairs

  /** In a solution, an unused pair has no cars and adds nothing to the objective, whatever its cycle time. */
  lemma UnusedPairFree(a: Valuation, inst: Instance, r: Route, t: TrainType)
    requires WellFormed(inst) && Solution(a, inst)
    requires r in inst.routes && t in inst.types
    requires a(X(r.id, t.id)) == 0.0
    ensures a(W(r.id, t.id)) == 0.0
    ensures Eval(a, Term(WeightOf(inst), r, t)) == 0.0
  {
    var rs, ts := inst.routes, inst.types;
    assert AllConstraints(inst) == Fleet(rs, ts) + (AllConstraints(inst)[|Fleet(rs, ts)|..]);
    SatisfiesSplit(a, Fleet(rs, ts), AllConstraints(inst)[|Fleet(rs, ts)|..]);
    FleetMeaning(a, rs, ts);
    assert FleetGated(a, r, t);
    UnusedTermZero(a, WeightOf(inst), r, t);
  }

  // ---------------------------------------------------------------- cycle-time bound

  /** The least running time of each edge of `r` at `speed`: `len/speed`. */
  function RunTimes(tbl: EdgeTable, r: Route, speed: real): (tr: seq<real>)
    requires Covers(tbl, r) && speed != 0.0
    ensures |tr| == |r.edges|
  {
    seq(|r.edges|, i requires 0 <= i < |r.edges| => Entry(tbl, r.id, r.edges[i]).len / speed)
  }

  /** The lengths of the edges of `r`, in order. */
  function Lengths(tbl: EdgeTable, r: Route): (ls: seq<real>)
    requires Covers(tbl, r)
    ensures |ls| == |r.edges|
  {
    seq(|r.edges|, i requires 0 <= i < |r.edges| => Entry(tbl, r.id, r.edges[i]).len)
  }

  /** The running time of the first `m` edges is their length over the speed. */
  lemma {:induction false} RunTimesTotal(tbl: EdgeTable, r: Route, speed: real, m: nat)
    requires Covers(tbl, r) && speed != 0.0 && m <= |r.edges|
    ensures PrefixSum(RunTimes(tbl, r, speed), m) == PrefixSum(Lengths(tbl, r), m) / speed
  {
    if m > 0 {
      RunTimesTotal(tbl, r, speed, m - 1);
      var l := Lengths(tbl, r)[m - 1];
      assert RunTimes(tbl, r, speed)[m - 1] == l / speed;
      assert PrefixSum(Lengths(tbl, r), m - 1) / speed + l / speed == (PrefixSum(Lengths(tbl, r), m - 1) + l) / speed;
    }
  }

  /**
   * The shortest out-and-back traversal of `r` at `speed`: the 2n-1 dwells between its edges plus
   * twice its total running time.
   */
  function MinRoundTrip(tbl: EdgeTable, r: Route, speed: real, dwell: real): real
    requires Covers(tbl, r) && speed > 0.0
  {
    ((2 * |r.edges| - 1) as real) * dwell + 2.0 * PrefixSum(RunTimes(tbl, r, speed), |r.edges|)
  }

  /** A one-edge route's shortest round trip: the turn-around dwell and the edge run both ways. */
  lemma OneEdgeRoundTrip(tbl: EdgeTable, r: Route, speed: real, dwell: real)
    requires Covers(tbl, r) && speed > 0.0 && |r.edges| == 1
    ensures HasEntry(tbl, r.id, r.edges[0])
    ensures MinRoundTrip(tbl, r, speed, dwell) == dwell + 2.0 * (Entry(tbl, r.id, r.edges[0]).len / speed)
  {
    assert r.edges[0] in r.edges;
    assert PrefixSum(RunTimes(tbl, r, speed), 1) == RunTimes(tbl, r, speed)[0];
  }

  /** The speed family gives a used type's least running times. */
  lemma SpeedRunTimes(a: Valuation, tbl: EdgeTable, r: Route, t: TrainType)
    requires Covers(tbl, r) && t.speed > 0.0
    requires KeepsSpeed(a, tbl, r, t) && a(X(r.id, t.id)) == 1.0
    ensures MinRunTimes(a, r.id, r.edges, RunTimes(tbl, r, t.speed))
  {
    var tr := RunTimes(tbl, r, t.speed);
    forall i, d | 0 <= i < |r.edges|
      ensures a(Arr(r.id, d, r.edges[i])) - a(Dep(r.id, d, r.edges[i])) >= tr[i]
    {
      assert r.edges[i] in r.edges;
    }
  }

  /** The bound for one route from the running times, the ordering and the cycle facts alone. */
  lemma RouteCycleBound(a: Valuation, tbl: EdgeTable, r: Route, t: TrainType, dwell: real)
    requires Covers(tbl, r) && t.speed > 0.0 && |r.edges| > 0
    requires MinRunTimes(a, r.id, r.edges, RunTimes(tbl, r, t.speed))
    requires OrderedTraversal(a, r.id, r.edges, dwell) && CycleDefined(a, r, t)
    requires a(X(r.id, t.id)) == 1.0
    ensures a(CycleTime(r.id, t.id)) >= a(Dep(r.id, Forward, r.edges[0])) + MinRoundTrip(tbl, r, t.speed, dwell)
  {
    var tr := RunTimes(tbl, r, t.speed);
    TraversalBound(a, r.id, r.edges, dwell, tr);
  }

  lemma SolutionKeepsSpeed(a: Valuation, inst: Instance, r: Route, t: TrainType)
    requires WellFormed(inst) && inst.config.Timed? && PositiveSpeeds(inst.types) && Solution(a, inst)
    requires r in inst.routes && t in inst.types
    ensures KeepsSpeed(a, inst.edges, r, t)
  {
    TimedParts(a, inst);
    SpeedMeaning(a, inst.routes, inst.types, inst.edges);
  }

  lemma SolutionOrdered(a: Valuation, inst: Instance, r: Route)
    requires WellFormed(inst) && inst.config.Timed? && Solution(a, inst)
    requires r in inst.routes
    ensures OrderedTraversal(a, r.id, r.edges, Dwell(inst))
  {
    TimedParts(a, inst);
    OrderingMeaning(a, inst.routes, Dwell(inst));
  }

  lemma SolutionCycleDefined(a: Valuation, inst: Instance, r: Route, t: TrainType)
    requires WellFormed(inst) && inst.config.Timed? && Solution(a, inst)
    requires r in inst.routes && t in inst.types
    ensures CycleDefined(a, r, t)
  {
    TimedParts(a, inst);
    CycleMeaning(a, inst.routes, inst.types);
  }

  /**
   * In a solution, a used type's cycle time is at least its first forward departure plus the
   * shortest round trip at its speed.
   */
  lemma UsedCycleBound(a: Valuation, inst: Instance, r: Route, t: TrainType)
    requires WellFormed(inst) && inst.config.Timed? && PositiveSpeeds(inst.types)
    requires Solution(a, inst)
    requires r in inst.routes && t in inst.types
    requires a(X(r.id, t.id)) == 1.0
    ensures a(CycleTime(r.id, t.id)) >= a(Dep(r.id, Forward, r.edges[0])) + MinRoundTrip(inst.edges, r, t.speed, Dwell(inst))
  {
    SolutionKeepsSpeed(a, inst, r, t);
    SolutionOrdered(a, inst, r);
    SolutionCycleDefined(a, inst, r, t);
    SpeedRunTimes(a, inst.edges, r, t);
    RouteCycleBound(a, inst.edges, r, t, Dwell(inst));
  }

  /** With the overlap bound on a route, the same cycle-time bound starts from `minutes/period`. */
  lemma OverlapCycleBound(a: Valuation, inst: Instance, o: Overlap, t: TrainType)
    requires WellFormed(inst) && inst.config.Timed? && inst.config.overlap == Some(o)
    requires PositiveSpeeds(inst.types) && Solution(a, inst) && t in inst.types
    ensures var r := FindRoute(inst.routes, o.first).value;
      a(X(r.id, t.id)) == 1.0 ==>
        a(CycleTime(r.id, t.id)) >= o.minutes / inst.period + MinRoundTrip(inst.edges, r, t.speed, Dwell(inst))
    ensures var r := FindRoute(inst.routes, o.second).value;
      a(X(r.id, t.id)) == 1.0 ==>
        a(CycleTime(r.id, t.id)) >= o.minutes / inst.period + MinRoundTrip(inst.edges, r, t.speed, Dwell(inst))
  {
    TimedParts(a, inst);
    OverlapMeaning(a, inst);
    var r1, r2 := FindRoute(inst.routes, o.first).value, FindRoute(inst.routes, o.second).value;
    if a(X(r1.id, t.id)) == 1.0 {
      UsedCycleBound(a, inst, r1, t);
    }
    if a(X(r2.id, t.id)) == 1.0 {
      UsedCycleBound(a, inst, r2, t);
    }
  }
}
