/**
 * The model object the scripts fill: `m.addConstr` appends to the constraint list and
 * `m.setObjective` replaces the objective. Each family is added by the scripts' own loops.
 */
module Builder {
  import opened Wrappers
  import opened Seqs
  import opened Network
  import opened RollingStock
  import opened Symbolic
  import opened Families
  import opened Objective
  import opened Instances
  import opened Layout

  lemma SumSnoc(es: seq<Expr>, e: Expr)
    ensures Sum(es + [e]) == Add(Sum(es), e)
  {
    assert (es + [e])[..|es|] == es;
  }

  /** The inner loop over types for one route, adding each pair's term to the objective. */
  method AccumulateRow(obj0: Expr, ghost prefix: seq<Expr>, wt: Weight, r: Route, ts: seq<TrainType>)
    returns (obj: Expr)
    requires forall t :: t in ts ==> Weighs(wt, r, t)
    requires obj0 == Sum(prefix)
    ensures obj == Sum(prefix + TermRow(wt, r, ts))
  {
    ghost var row := TermRow(wt, r, ts);
    assert prefix + row[..0] == prefix;
    obj := obj0;
    for j := 0 to |ts|
      invariant obj == Sum(prefix + row[..j])
    {
      var term := Term(wt, r, ts[j]);
      SumSnoc(prefix + row[..j], term);
      assert prefix + row[..j + 1] == (prefix + row[..j]) + [term];
      obj := Add(obj, term);
    }
    assert row[..|ts|] == row;
  }

  /** The objective loop: start from zero, then add every pair's term, route-major. */
  method BuildObjective(wt: Weight, rs: seq<Route>, ts: seq<TrainType>) returns (obj: Expr)
    requires forall r, t :: r in rs && t in ts ==> Weighs(wt, r, t)
    ensures obj == ObjectiveOf(wt, rs, ts)
  {
    ghost var rows := TermRows(wt, rs, ts);
    obj := Const(0.0);
    for i := 0 to |rs|
      invariant obj == Sum(Concat(rows[..i]))
    {
      obj := AccumulateRow(obj, Concat(rows[..i]), wt, rs[i], ts);
      ConcatStep(rows, i);
    }
    ConcatWhole(rows);
  }

  class ModelBuilder {
    var variables: seq<Var>
    var constraints: seq<Constraint>
    var objective: Expr

    constructor ()
      ensures variables == [] && constraints == [] && objective == Const(0.0)
    {
      variables := [];
      constraints := [];
      objective := Const(0.0);
    }

    /** `m.addVar(...)` */
    method AddVar(v: Var)
      modifies this
      ensures variables == old(variables) + [v]
      ensures constraints == old(constraints) && objective == old(objective)
    {
      variables := variables + [v];
    }

    /** `m.addVars(routes, loco_types, ...)`: one variable per pair, route-major, in one call. */
    method AddVars(kind: PairKind, rs: seq<Route>, ts: seq<TrainType>)
      modifies this
      ensures variables == old(variables) + PairVars(kind, rs, ts)
      ensures constraints == old(constraints) && objective == old(objective)
    {
      variables := variables + PairVars(kind, rs, ts);
    }

    /** The inner time-variable loop for one route: forward then reverse departure and arrival, per edge. */
    method AddRouteTimes(r: Route)
      modifies this
      ensures variables == old(variables) + Concat(RouteTimes(r))
      ensures constraints == old(constraints) && objective == old(objective)
    {
      ghost var blocks := RouteTimes(r);
      for k := 0 to |r.edges|
        invariant variables == old(variables) + Concat(blocks[..k])
        invariant constraints == old(constraints) && objective == old(objective)
      {
        var e := r.edges[k];
        AddVar(Dep(r.id, Forward, e));
        AddVar(Arr(r.id, Forward, e));
        AddVar(Dep(r.id, Reverse, e));
        AddVar(Arr(r.id, Reverse, e));
        ConcatStep(blocks, k);
      }
      ConcatWhole(blocks);
    }

    method AddTimes(rs: seq<Route>)
      modifies this
      ensures variables == old(variables) + TimeVars(rs)
      ensures constraints == old(constraints) && objective == old(objective)
    {
      ghost var rows := TimeRows(rs);
      for i := 0 to |rs|
        invariant variables == old(variables) + Concat(rows[..i])
        invariant constraints == old(constraints) && objective == old(objective)
      {
        AddRouteTimes(rs[i]);
        ConcatStep(rows, i);
      }
      ConcatWhole(rows);
    }

    /** The inner `cycle_times` loop for one route: one variable per type. */
    method AddCycleTimeRow(r: Route, ts: seq<TrainType>)
      modifies this
      ensures variables == old(variables) + PairRow(CycleVar, r, ts)
      ensures constraints == old(constraints) && objective == old(objective)
    {
      ghost var row := PairRow(CycleVar, r, ts);
      for j := 0 to |ts|
        invariant variables == old(variables) + row[..j]
        invariant constraints == old(constraints) && objective == old(objective)
      {
        AddVar(CycleTime(r.id, ts[j].id));
        assert row[..j + 1] == row[..j] + [row[j]];
      }
      assert row[..|ts|] == row;
    }

    method AddCycleTimes(rs: seq<Route>, ts: seq<TrainType>)
      modifies this
      ensures variables == old(variables) + PairVars(CycleVar, rs, ts)
      ensures constraints == old(constraints) && objective == old(objective)
    {
      ghost var rows := PairRows(CycleVar, rs, ts);
      for i := 0 to |rs|
        invariant variables == old(variables) + Concat(rows[..i])
        invariant constraints == old(constraints) && objective == old(objective)
      {
        AddCycleTimeRow(rs[i], ts);
        ConcatStep(rows, i);
      }
      ConcatWhole(rows);
    }

    /** Every variable the script declares, in its order. */
    method DeclareVariables(inst: Instance)
      modifies this
      ensures variables == old(variables) + DeclaredVars(inst)
      ensures constraints == old(constraints) && objective == old(objective)
    {
      var rs, ts := inst.routes, inst.types;
      AddVars(UsedVar, rs, ts);
      AddVars(CarsVar, rs, ts);
      if inst.config.Timed? {
        AddTimes(rs);
        AddCycleTimes(rs, ts);
      }
    }

    /** `m.addConstr(c)` */
    method AddConstr(c: Constraint)
      modifies this
      ensures constraints == old(constraints) + [c] && objective == old(objective) && variables == old(variables)
    {
      constraints := constraints + [c];
    }

    /** `m.setObjective(obj, GRB.MINIMIZE)` */
    method SetObjective(obj: Expr)
      modifies this
      ensures objective == obj && constraints == old(constraints) && variables == old(variables)
    {
      objective := obj;
    }

    /** The inner fleet loop for one route: car_min and car_max for every type. */
    method AddFleetRow(r: Route, ts: seq<TrainType>)
      modifies this
      ensures constraints == old(constraints) + Concat(FleetRow(r, ts)) && objective == old(objective) && variables == old(variables)
    {
      ghost var row := FleetRow(r, ts);
      for j := 0 to |ts|
        invariant constraints == old(constraints) + Concat(row[..j])
        invariant objective == old(objective) && variables == old(variables)
      {
        AddConstr(CarMin(r, ts[j]));
        AddConstr(CarMax(r, ts[j]));
        ConcatStep(row, j);
      }
      ConcatWhole(row);
    }

    method AddFleet(rs: seq<Route>, ts: seq<TrainType>)
      modifies this
      ensures constraints == old(constraints) + Fleet(rs, ts) && objective == old(objective) && variables == old(variables)
    {
      ghost var rows := FleetRows(rs, ts);
      for i := 0 to |rs|
        invariant constraints == old(constraints) + Concat(rows[..i])
        invariant objective == old(objective) && variables == old(variables)
      {
        AddFleetRow(rs[i], ts);
        ConcatStep(rows, i);
      }
      ConcatWhole(rows);
    }

    /** The inner capacity loop for one route: its capacity expression against every edge's demand. */
    method AddCapacityRow(r: Route, ts: seq<TrainType>, tbl: EdgeTable)
      requires Covers(tbl, r)
      modifies this
      ensures constraints == old(constraints) + Concat(CapacityRow(r, ts, tbl)) && objective == old(objective) && variables == old(variables)
    {
      var supply := Supply(r.id, ts);
      ghost var row := CapacityRow(r, ts, tbl);
      for k := 0 to |r.edges|
        invariant constraints == old(constraints) + Concat(row[..k])
        invariant objective == old(objective) && variables == old(variables)
      {
        AddConstr(Le(Const(Entry(tbl, r.id, r.edges[k]).demand as real), supply));
        assert row[k] == [CapacityOf(r, ts, tbl, r.edges[k])];
        ConcatStep(row, k);
      }
      ConcatWhole(row);
    }

    method AddCapacity(rs: seq<Route>, ts: seq<TrainType>, tbl: EdgeTable)
      requires forall r :: r in rs ==> Covers(tbl, r)
      modifies this
      ensures constraints == old(constraints) + Capacity(rs, ts, tbl) && objective == old(objective) && variables == old(variables)
    {
      ghost var rows := CapacityRows(rs, ts, tbl);
      for i := 0 to |rs|
        invariant constraints == old(constraints) + Concat(rows[..i])
        invariant objective == old(objective) && variables == old(variables)
      {
        assert rs[i] in rs;
        AddCapacityRow(rs[i], ts, tbl);
        ConcatStep(rows, i);
      }
      ConcatWhole(rows);
    }

    /** The innermost speed loop for one route and type: both directions of every edge. */
    method AddSpeedEdges(r: Route, t: TrainType, tbl: EdgeTable)
      requires Covers(tbl, r)
      modifies this
      ensures constraints == old(constraints) + Concat(SpeedEdges(r, t, tbl)) && objective == old(objective) && variables == old(variables)
    {
      ghost var blocks := SpeedEdges(r, t, tbl);
      for k := 0 to |r.edges|
        invariant constraints == old(constraints) + Concat(blocks[..k])
        invariant objective == old(objective) && variables == old(variables)
      {
        var e := r.edges[k];
        var len := Entry(tbl, r.id, e).len;
        AddConstr(SpeedOf(r, t, Forward, e, len));
        AddConstr(SpeedOf(r, t, Reverse, e, len));
        ConcatStep(blocks, k);
      }
      ConcatWhole(blocks);
    }

    method AddSpeedRow(r: Route, ts: seq<TrainType>, tbl: EdgeTable)
      requires Covers(tbl, r)
      modifies this
      ensures constraints == old(constraints) + Concat(SpeedRow(r, ts, tbl)) && objective == old(objective) && variables == old(variables)
    {
      ghost var row := SpeedRow(r, ts, tbl);
      for j := 0 to |ts|
        invariant constraints == old(constraints) + Concat(row[..j])
        invariant objective == old(objective) && variables == old(variables)
      {
        AddSpeedEdges(r, ts[j], tbl);
        ConcatStep(row, j);
      }
      ConcatWhole(row);
    }

    method AddSpeed(rs: seq<Route>, ts: seq<TrainType>, tbl: EdgeTable)
      requires forall r :: r in rs ==> Covers(tbl, r)
      modifies this
      ensures constraints == old(constraints) + Speed(rs, ts, tbl) && objective == old(objective) && variables == old(variables)
    {
      ghost var rows := SpeedRows(rs, ts, tbl);
      for i := 0 to |rs|
        invariant constraints == old(constraints) + Concat(rows[..i])
        invariant objective == old(objective) && variables == old(variables)
      {
        assert rs[i] in rs;
        AddSpeedRow(rs[i], ts, tbl);
        assert rows[i] == Concat(SpeedRow(rs[i], ts, tbl));
        ConcatStep(rows, i);
        AppendAssoc(old(constraints), Concat(rows[..i]), rows[i]);
      }
      ConcatWhole(rows);
    }

    /** The forward loop over the edges, first to last. */
    method AddForward(rid: string, es: seq<Edge>, dwell: real)
      modifies this
      ensures constraints == old(constraints) + Concat(FwdBlocks(rid, es, dwell)) && objective == old(objective) && variables == old(variables)
    {
      ghost var fwd := FwdBlocks(rid, es, dwell);
      var i := 0;
      while i < |es|
        invariant 0 <= i <= |es|
        invariant constraints == old(constraints) + Concat(fwd[..i])
        invariant objective == old(objective) && variables == old(variables)
      {
        ghost var before := constraints;
        var edge := es[i];
        if i != 0 {
          var prev := es[i - 1];
          AddConstr(After(Dep(rid, Forward, edge), Arr(rid, Forward, prev), dwell));
        }
        AddConstr(ArriveAfter(rid, Forward, edge));
        assert constraints == before + FwdStep(rid, es, dwell, i);
        assert fwd[i] == FwdStep(rid, es, dwell, i);
        ConcatStep(fwd, i);
        i := i + 1;
      }
      ConcatWhole(fwd);
    }

    /** The reverse loop over the edges, last to first. */
    method AddReverse(rid: string, es: seq<Edge>, dwell: real)
      modifies this
      ensures constraints == old(constraints) + Concat(RevBlocks(rid, es, dwell)) && objective == old(objective) && variables == old(variables)
    {
      var n := |es|;
      ghost var rev := RevBlocks(rid, es, dwell);
      var i := n - 1;
      while i >= 0
        invariant -1 <= i <= n - 1
        invariant constraints == old(constraints) + Concat(rev[..n - 1 - i])
        invariant objective == old(objective) && variables == old(variables)
      {
        ghost var before := constraints;
        var edge := es[i];
        if i != n - 1 {
          var prev := es[i + 1];
          AddConstr(After(Dep(rid, Reverse, edge), Arr(rid, Reverse, prev), dwell));
        }
        AddConstr(ArriveAfter(rid, Reverse, edge));
        assert constraints == before + RevStep(rid, es, dwell, i);
        assert rev[n - 1 - i] == RevStep(rid, es, dwell, i);
        ConcatStep(rev, n - 1 - i);
        i := i - 1;
      }
      ConcatWhole(rev);
    }

    /** The ordering loops for one route: forward chain, turnaround at the last edge, reverse chain. */
    method AddRouteOrdering(r: Route, dwell: real)
      requires |r.edges| > 0
      modifies this
      ensures constraints == old(constraints) + RouteOrdering(r, dwell) && objective == old(objective) && variables == old(variables)
    {
      AddForward(r.id, r.edges, dwell);
      AddConstr(Turnaround(r.id, r.edges, dwell));
      AddReverse(r.id, r.edges, dwell);
    }

    method AddOrdering(rs: seq<Route>, dwell: real)
      requires forall r :: r in rs ==> |r.edges| > 0
      modifies this
      ensures constraints == old(constraints) + Ordering(rs, dwell) && objective == old(objective) && variables == old(variables)
    {
      ghost var rows := OrderingRows(rs, dwell);
      for i := 0 to |rs|
        invariant constraints == old(constraints) + Concat(rows[..i])
        invariant objective == old(objective) && variables == old(variables)
      {
        assert rs[i] in rs;
        AddRouteOrdering(rs[i], dwell);
        ConcatStep(rows, i);
      }
      ConcatWhole(rows);
    }

    /** The inner cycle-time loop for one route: the gated equality for every type. */
    method AddCycleRow(r: Route, ts: seq<TrainType>)
      requires |r.edges| > 0
      modifies this
      ensures constraints == old(constraints) + Concat(CycleRow(r, ts)) && objective == old(objective) && variables == old(variables)
    {
      ghost var row := CycleRow(r, ts);
      for j := 0 to |ts|
        invariant constraints == old(constraints) + Concat(row[..j])
        invariant objective == old(objective) && variables == old(variables)
      {
        AddConstr(CycleOf(r, ts[j]));
        ConcatStep(row, j);
      }
      ConcatWhole(row);
    }

    method AddCycle(rs: seq<Route>, ts: seq<TrainType>)
      requires forall r :: r in rs ==> |r.edges| > 0
      modifies this
      ensures constraints == old(constraints) + Cycle(rs, ts) && objective == old(objective) && variables == old(variables)
    {
      ghost var rows := CycleRows(rs, ts);
      for i := 0 to |rs|
        invariant constraints == old(constraints) + Concat(rows[..i])
        invariant objective == old(objective) && variables == old(variables)
      {
        assert rs[i] in rs;
        AddCycleRow(rs[i], ts);
        ConcatStep(rows, i);
      }
      ConcatWhole(rows);
    }

    /** The speed, ordering and cycle-time families of levels 2 and 3, in the order the scripts add them. */
    method AddTimed(rs: seq<Route>, ts: seq<TrainType>, tbl: EdgeTable, dwell: real)
      requires forall r :: r in rs ==> Covers(tbl, r) && |r.edges| > 0
      modifies this
      ensures constraints == old(constraints) + (Speed(rs, ts, tbl) + Ordering(rs, dwell) + Cycle(rs, ts))
      ensures objective == old(objective) && variables == old(variables)
    {
      AddSpeed(rs, ts, tbl);
      AddOrdering(rs, dwell);
      AddCycle(rs, ts);
    }

    /** Speed, ordering, cycle time and overlap, for a timed instance. */
    method AddTimedFamilies(inst: Instance)
      requires WellFormed(inst) && inst.config.Timed?
      modifies this
      ensures constraints == old(constraints)
        + (Speed(inst.routes, inst.types, inst.edges) + Ordering(inst.routes, Dwell(inst)) + Cycle(inst.routes, inst.types))
        + OverlapBounds(inst)
      ensures objective == old(objective) && variables == old(variables)
    {
      assert forall r :: r in inst.routes ==> Covers(inst.edges, r) && |r.edges| > 0;
      AddTimed(inst.routes, inst.types, inst.edges, Dwell(inst));
      AddOverlap(inst);
    }

    /** Every constraint family of the instance, in the scripts' order. */
    method AddConstraints(inst: Instance)
      requires WellFormed(inst)
      modifies this
      ensures constraints == old(constraints) + AllConstraints(inst)
      ensures objective == old(objective) && variables == old(variables)
    {
      var rs, ts, tbl := inst.routes, inst.types, inst.edges;
      ghost var fc := Fleet(rs, ts) + Capacity(rs, ts, tbl);
      AddFleet(rs, ts);
      AddCapacity(rs, ts, tbl);
      assert constraints == old(constraints) + fc;
      if inst.config.Timed? {
        ghost var timed := (Speed(rs, ts, tbl) + Ordering(rs, Dwell(inst)) + Cycle(rs, ts)) + OverlapBounds(inst);
        AddTimedFamilies(inst);
        TimedConstraints(inst);
        AppendAssoc(old(constraints), fc, timed);
      } else {
        LinearConstraints(inst);
      }
    }

    /** The two straight-line overlap bounds. */
    method AddOverlap(inst: Instance)
      requires WellFormed(inst) && inst.config.Timed?
      modifies this
      ensures constraints == old(constraints) + OverlapBounds(inst) && objective == old(objective) && variables == old(variables)
    {
      match inst.config.overlap {
        case None =>
        case Some(o) =>
          var offset := o.minutes / inst.period;
          var r1 := FindRoute(inst.routes, o.first).value;
          var r2 := FindRoute(inst.routes, o.second).value;
          AddConstr(OverlapOf(r1, offset));
          AddConstr(OverlapOf(r2, offset));
      }
    }
  }

  /**
   * A script: variables first (`x_rt`, `w_rt`, then for levels 2 and 3 the event times and cycle
   * times), then the objective, then fleet and capacity, then (levels 2 and 3) speed, ordering, cycle
   * time and overlap. An instance with a failing lookup yields that failure instead.
   */
  method BuildModel(inst: Instance) returns (outcome: Outcome<InputError>, m: ModelBuilder)
    ensures fresh(m)
    ensures outcome == Validate(inst)
    ensures outcome.Pass? ==>
      && WellFormed(inst)
      && m.variables == DeclaredVars(inst)
      && m.constraints == AllConstraints(inst)
      && m.objective == ObjectiveOfInstance(inst)
    ensures outcome.Pass? ==> AllDeclared(m.variables, m.constraints, m.objective)
    ensures outcome.Fail? ==> m.variables == [] && m.constraints == [] && m.objective == Const(0.0)
  {
    m := new ModelBuilder();
    outcome := Validate(inst);
    if outcome.Fail? {
      return;
    }
    m.DeclareVariables(inst);
    ModelDeclared(inst);
    WellFormedWeighs(inst);
    var obj := BuildObjective(WeightOf(inst), inst.routes, inst.types);
    m.SetObjective(obj);
    m.AddConstraints(inst);
  }
}
