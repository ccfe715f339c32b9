/**
 * The decision variables each script declares, in declaration order, and the fact that every
 * variable a constraint or the objective mentions has been declared: none of the lookups
 * `x_rt[route, loco_type]`, `departure_times[route][dir][edge]`, `cycle_times[route][loco_type]`
 * can fail.
 */
module Layout {
  import opened Wrappers
  import opened Seqs
  import opened Network
  import opened RollingStock
  import opened Symbolic
  import opened Families
  import opened FamilyShape
  import opened Objective
  import opened Instances

  /** Which of the three per-pair variable families. */
  datatype PairKind = UsedVar | CarsVar | CycleVar

  function PairVar(kind: PairKind, rid: string, tid: string): Var
  {
    match kind
    case UsedVar => X(rid, tid)
    case CarsVar => W(rid, tid)
    case CycleVar => CycleTime(rid, tid)
  }

  /** One route's variables of a family, one per type in order. */
  function PairRow(kind: PairKind, r: Route, ts: seq<TrainType>): seq<Var>
  {
    seq(|ts|, j requires 0 <= j < |ts| => PairVar(kind, r.id, ts[j].id))
  }

  function PairRows(kind: PairKind, rs: seq<Route>, ts: seq<TrainType>): seq<seq<Var>>
  {
    seq(|rs|, i requires 0 <= i < |rs| => PairRow(kind, rs[i], ts))
  }

  /** `addVars(routes, loco_types)` and the `cycle_times` loops: one variable per pair, route-major. */
  function PairVars(kind: PairKind, rs: seq<Route>, ts: seq<TrainType>): seq<Var>
  {
    Concat(PairRows(kind, rs, ts))
  }

  /** The departure and arrival, forward then reverse, that the time-variable loop declares for one edge. */
  function EdgeTimes(rid: string, e: Edge): seq<Var>
  {
    [Dep(rid, Forward, e), Arr(rid, Forward, e), Dep(rid, Reverse, e), Arr(rid, Reverse, e)]
  }

  /** What the inner time-variable loop declares for one route, edge by edge. */
  function RouteTimes(r: Route): seq<seq<Var>>
  {
    seq(|r.edges|, k requires 0 <= k < |r.edges| => EdgeTimes(r.id, r.edges[k]))
  }

  function TimeRows(rs: seq<Route>): seq<seq<Var>>
  {
    seq(|rs|, i requires 0 <= i < |rs| => Concat(RouteTimes(rs[i])))
  }

  function TimeVars(rs: seq<Route>): seq<Var>
  {
    Concat(TimeRows(rs))
  }

  /** `x_rt`, `w_rt`, then (levels 2 and 3) the time variables and `cycle_times`. */
  function DeclaredVars(inst: Instance): seq<Var>
  {
    var rs, ts := inst.routes, inst.types;
    PairVars(UsedVar, rs, ts) + PairVars(CarsVar, rs, ts) +
    match inst.config
    case Linear(_) => []
    case Timed(_, _) => TimeVars(rs) + PairVars(CycleVar, rs, ts)
  }

  /** Every variable the constraints and the objective mention is among `vars`. */
  ghost predicate AllDeclared(vars: seq<Var>, cs: seq<Constraint>, obj: Expr)
  {
    && (forall c, v :: c in cs && v in ConstraintVars(c) ==> v in vars)
    && (forall v :: v in ExprVars(obj) ==> v in vars)
  }

  function ExprVars(e: Expr): set<Var>
  {
    match e
    case Const(_) => {}
    case V(v) => {v}
    case Add(l, r) => ExprVars(l) + ExprVars(r)
    case Sub(l, r) => ExprVars(l) + ExprVars(r)
    case Mul(l, r) => ExprVars(l) + ExprVars(r)
  }

  function ConstraintVars(c: Constraint): set<Var>
  {
    ExprVars(c.lhs) + ExprVars(c.rhs)
  }

  // ---------------------------------------------------------------- what is declared

  lemma PairDeclared(kind: PairKind, rs: seq<Route>, ts: seq<TrainType>, r: Route, t: TrainType)
    requires r in rs && t in ts
    ensures PairVar(kind, r.id, t.id) in PairVars(kind, rs, ts)
  {
    var rows := PairRows(kind, rs, ts);
    var i :| 0 <= i < |rs| && rs[i] == r;
    var j :| 0 <= j < |ts| && ts[j] == t;
    assert rows[i][j] == PairVar(kind, r.id, t.id);
    ConcatMember(rows, PairVar(kind, r.id, t.id));
  }

  lemma TimeDeclared(rs: seq<Route>, r: Route, e: Edge, d: Dir)
    requires r in rs && e in r.edges
    ensures Dep(r.id, d, e) in TimeVars(rs) && Arr(r.id, d, e) in TimeVars(rs)
  {
    var rows := TimeRows(rs);
    var i :| 0 <= i < |rs| && rs[i] == r;
    var k :| 0 <= k < |r.edges| && r.edges[k] == e;
    var blocks := RouteTimes(r);
    assert blocks[k] == EdgeTimes(r.id, e);
    assert Dep(r.id, d, e) in blocks[k] && Arr(r.id, d, e) in blocks[k];
    ConcatMember(blocks, Dep(r.id, d, e));
    ConcatMember(blocks, Arr(r.id, d, e));
    assert rows[i] == Concat(blocks);
    ConcatMember(rows, Dep(r.id, d, e));
    ConcatMember(rows, Arr(r.id, d, e));
  }

  /** The `x`, `w` and (timed) cycle-time variables of a pair of the instance are declared. */
  lemma PairsDeclared(inst: Instance, r: Route, t: TrainType)
    requires r in inst.routes && t in inst.types
    ensures X(r.id, t.id) in DeclaredVars(inst) && W(r.id, t.id) in DeclaredVars(inst)
    ensures inst.config.Timed? ==> CycleTime(r.id, t.id) in DeclaredVars(inst)
  {
    PairDeclared(UsedVar, inst.routes, inst.types, r, t);
    PairDeclared(CarsVar, inst.routes, inst.types, r, t);
    PairDeclared(CycleVar, inst.routes, inst.types, r, t);
  }

  /** The four event times of an edge of a route of a timed instance are declared. */
  lemma TimesDeclared(inst: Instance, r: Route, e: Edge)
    requires inst.config.Timed? && r in inst.routes && e in r.edges
    ensures forall d :: Dep(r.id, d, e) in DeclaredVars(inst) && Arr(r.id, d, e) in DeclaredVars(inst)
  {
    forall d ensures Dep(r.id, d, e) in DeclaredVars(inst) && Arr(r.id, d, e) in DeclaredVars(inst) {
      TimeDeclared(inst.routes, r, e, d);
    }
  }

  // ---------------------------------------------------------------- what the families mention

  lemma {:induction false} SupplyVars(rid: string, ts: seq<TrainType>, v: Var)
    requires v in ExprVars(Supply(rid, ts))
    ensures exists t :: t in ts && v == W(rid, t.id)
    decreases |ts|
  {
    if ts != [] {
      var n := |ts| - 1;
      var t := ts[n];
      assert Supply(rid, ts) == Add(Supply(rid, ts[..n]), Mul(V(W(rid, t.id)), Const(t.carCap as real)));
      if v in ExprVars(Supply(rid, ts[..n])) {
        SupplyVars(rid, ts[..n], v);
        var t' :| t' in ts[..n] && v == W(rid, t'.id);
        assert t' in ts;
      } else {
        assert ExprVars(Mul(V(W(rid, t.id)), Const(t.carCap as real))) == {W(rid, t.id)};
        assert v == W(rid, t.id) && t in ts;
      }
    }
  }

  lemma FleetDeclared(inst: Instance, c: Constraint, v: Var)
    requires c in Fleet(inst.routes, inst.types) && v in ConstraintVars(c)
    ensures v in DeclaredVars(inst)
  {
    FleetMember(inst.routes, inst.types, c);
    var r, t :| r in inst.routes && t in inst.types && (c == CarMin(r, t) || c == CarMax(r, t));
    assert ExprVars(Mul(Const(t.carMin as real), XOf(r, t))) == {X(r.id, t.id)};
    assert ExprVars(Mul(Const(t.carMax as real), XOf(r, t))) == {X(r.id, t.id)};
    assert ConstraintVars(c) == {W(r.id, t.id), X(r.id, t.id)};
    PairsDeclared(inst, r, t);
  }

  lemma CapacityDeclared(inst: Instance, c: Constraint, v: Var)
    requires forall r :: r in inst.routes ==> Covers(inst.edges, r)
    requires c in Capacity(inst.routes, inst.types, inst.edges) && v in ConstraintVars(c)
    ensures v in DeclaredVars(inst)
  {
    CapacityMember(inst.routes, inst.types, inst.edges, c);
    var r, e :| r in inst.routes && e in r.edges && c == CapacityOf(r, inst.types, inst.edges, e);
    assert v in ExprVars(Supply(r.id, inst.types));
    SupplyVars(r.id, inst.types, v);
    var t :| t in inst.types && v == W(r.id, t.id);
    PairsDeclared(inst, r, t);
  }

  lemma SpeedDeclared(inst: Instance, c: Constraint, v: Var)
    requires inst.config.Timed? && forall r :: r in inst.routes ==> Covers(inst.edges, r)
    requires c in Speed(inst.routes, inst.types, inst.edges) && v in ConstraintVars(c)
    ensures v in DeclaredVars(inst)
  {
    SpeedMember(inst.routes, inst.types, inst.edges, c);
    var r, t, e, d :| r in inst.routes && t in inst.types && e in r.edges &&
      c == SpeedOf(r, t, d, e, Entry(inst.edges, r.id, e).len);
    var len := Entry(inst.edges, r.id, e).len;
    assert ExprVars(Mul(XOf(r, t), Const(len))) == {X(r.id, t.id)};
    assert ExprVars(Mul(XOf(r, t), Const(t.speed))) == {X(r.id, t.id)};
    assert ExprVars(Sub(V(Arr(r.id, d, e)), V(Dep(r.id, d, e)))) == {Arr(r.id, d, e), Dep(r.id, d, e)};
    assert ConstraintVars(c) == {X(r.id, t.id), Arr(r.id, d, e), Dep(r.id, d, e)};
    PairsDeclared(inst, r, t);
    TimesDeclared(inst, r, e);
  }

  lemma AfterVars(dep: Var, arr: Var, dwell: real)
    ensures ConstraintVars(After(dep, arr, dwell)) == {dep, arr}
  {
    assert ExprVars(Add(V(arr), Const(dwell))) == {arr};
  }

  lemma StepDeclared(inst: Instance, r: Route, dwell: real, c: Constraint, v: Var)
    requires inst.config.Timed? && r in inst.routes && |r.edges| > 0
    requires c in RouteOrdering(r, dwell) && v in ConstraintVars(c)
    ensures v in DeclaredVars(inst)
  {
    var rid, es := r.id, r.edges;
    var n := |es|;
    if c in Concat(FwdBlocks(rid, es, dwell)) {
      FwdMember(rid, es, dwell, c);
      var i :| 0 <= i < n && c in FwdStep(rid, es, dwell, i);
      TimesDeclared(inst, r, es[i]);
      if i != 0 && c == After(Dep(rid, Forward, es[i]), Arr(rid, Forward, es[i - 1]), dwell) {
        AfterVars(Dep(rid, Forward, es[i]), Arr(rid, Forward, es[i - 1]), dwell);
        TimesDeclared(inst, r, es[i - 1]);
      } else {
        assert c == ArriveAfter(rid, Forward, es[i]);
      }
    } else if c in Concat(RevBlocks(rid, es, dwell)) {
      RevMember(rid, es, dwell, c);
      var i :| 0 <= i < n && c in RevStep(rid, es, dwell, i);
      TimesDeclared(inst, r, es[i]);
      if i != n - 1 && c == After(Dep(rid, Reverse, es[i]), Arr(rid, Reverse, es[i + 1]), dwell) {
        AfterVars(Dep(rid, Reverse, es[i]), Arr(rid, Reverse, es[i + 1]), dwell);
        TimesDeclared(inst, r, es[i + 1]);
      } else {
        assert c == ArriveAfter(rid, Reverse, es[i]);
      }
    } else {
      assert c == Turnaround(rid, es, dwell);
      AfterVars(Dep(rid, Reverse, es[n - 1]), Arr(rid, Forward, es[n - 1]), dwell);
      TimesDeclared(inst, r, es[n - 1]);
    }
  }

  lemma OrderingDeclared(inst: Instance, dwell: real, c: Constraint, v: Var)
    requires inst.config.Timed? && forall r :: r in inst.routes ==> |r.edges| > 0
    requires c in Ordering(inst.routes, dwell) && v in ConstraintVars(c)
    ensures v in DeclaredVars(inst)
  {
    OrderingMember(inst.routes, dwell, c);
    var r :| r in inst.routes && c in RouteOrdering(r, dwell);
    StepDeclared(inst, r, dwell, c, v);
  }

  lemma CycleDeclared(inst: Instance, c: Constraint, v: Var)
    requires inst.config.Timed? && forall r :: r in inst.routes ==> |r.edges| > 0
    requires c in Cycle(inst.routes, inst.types) && v in ConstraintVars(c)
    ensures v in DeclaredVars(inst)
  {
    CycleMember(inst.routes, inst.types, c);
    var r, t :| r in inst.routes && t in inst.types && c == CycleOf(r, t);
    assert ExprVars(Mul(XOf(r, t), V(CycleTime(r.id, t.id)))) == {X(r.id, t.id), CycleTime(r.id, t.id)};
    assert ExprVars(Mul(XOf(r, t), V(Arr(r.id, Reverse, r.edges[0])))) == {X(r.id, t.id), Arr(r.id, Reverse, r.edges[0])};
    assert ConstraintVars(c) == {X(r.id, t.id), CycleTime(r.id, t.id), Arr(r.id, Reverse, r.edges[0])};
    PairsDeclared(inst, r, t);
    TimesDeclared(inst, r, r.edges[0]);
  }

  lemma OverlapDeclared(inst: Instance, c: Constraint, v: Var)
    requires WellFormed(inst) && inst.config.Timed?
    requires c in OverlapBounds(inst) && v in ConstraintVars(c)
    ensures v in DeclaredVars(inst)
  {
    var o := inst.config.overlap.value;
    var r1, r2 := FindRoute(inst.routes, o.first).value, FindRoute(inst.routes, o.second).value;
    var off := o.minutes / inst.period;
    if c == OverlapOf(r1, off) {
      assert ConstraintVars(c) == {Dep(r1.id, Forward, r1.edges[0])};
      TimesDeclared(inst, r1, r1.edges[0]);
    } else {
      assert ConstraintVars(c) == {Dep(r2.id, Forward, r2.edges[0])};
      TimesDeclared(inst, r2, r2.edges[0]);
    }
  }

  /**
   * Every variable any constraint of a well-formed instance mentions is one the script has
   * declared (no `KeyError` in the constraint loops).
   */
  lemma ConstraintsDeclared(inst: Instance)
    requires WellFormed(inst)
    ensures forall c, v :: c in AllConstraints(inst) && v in ConstraintVars(c) ==> v in DeclaredVars(inst)
  {
    var rs, ts, tbl := inst.routes, inst.types, inst.edges;
    forall c, v | c in AllConstraints(inst) && v in ConstraintVars(c) ensures v in DeclaredVars(inst) {
      if c in Fleet(rs, ts) {
        FleetDeclared(inst, c, v);
      } else if c in Capacity(rs, ts, tbl) {
        CapacityDeclared(inst, c, v);
      } else if inst.config.Timed? {
        TimedConstraints(inst);
        if c in Speed(rs, ts, tbl) {
          SpeedDeclared(inst, c, v);
        } else if c in Ordering(rs, Dwell(inst)) {
          OrderingDeclared(inst, Dwell(inst), c, v);
        } else if c in Cycle(rs, ts) {
          CycleDeclared(inst, c, v);
        } else {
          OverlapDeclared(inst, c, v);
        }
      }
    }
  }

  // ---------------------------------------------------------------- what the objective mentions

  lemma {:induction false} SumVars(es: seq<Expr>, v: Var)
    requires v in ExprVars(Sum(es))
    ensures exists e :: e in es && v in ExprVars(e)
    decreases |es|
  {
    if es != [] {
      var n := |es| - 1;
      assert Sum(es) == Add(Sum(es[..n]), es[n]);
      if v in ExprVars(Sum(es[..n])) {
        SumVars(es[..n], v);
        var e :| e in es[..n] && v in ExprVars(e);
        assert e in es;
      } else {
        assert es[n] in es;
      }
    }
  }

  /** A pair's cost term mentions its `x` and `w`, and its cycle time when weighted by the period. */
  lemma TermVars(wt: Weight, r: Route, t: TrainType)
    requires Weighs(wt, r, t)
    ensures ExprVars(Term(wt, r, t)) ==
      {X(r.id, t.id), W(r.id, t.id)} + (if wt.PerPeriod? then {CycleTime(r.id, t.id)} else {})
  {
    var x, w := X(r.id, t.id), W(r.id, t.id);
    assert ExprVars(FixedCost(r, t)) == {x, w} by {
      assert ExprVars(Mul(XOf(r, t), Const(t.locoCfix))) == {x};
      assert ExprVars(Mul(WOf(r, t), Const(t.carCfix))) == {w};
    }
    assert ExprVars(VariableCost(r, t)) == {x, w} by {
      assert ExprVars(Mul(XOf(r, t), Const(t.locoCkm))) == {x};
      assert ExprVars(Mul(WOf(r, t), Const(t.carCkm))) == {w};
    }
    assert ExprVars(TrainCost(r, t)) == {x, w};
    if wt.PerPeriod? {
      assert ExprVars(Mul(V(CycleTime(r.id, t.id)), Const(1.0 / wt.period))) == {CycleTime(r.id, t.id)};
    }
  }

  /** Every variable of the objective is declared: `x`, `w`, and for a timed instance the cycle times. */
  lemma ObjectiveDeclared(inst: Instance)
    requires WellFormed(inst)
    ensures forall v :: v in ExprVars(ObjectiveOfInstance(inst)) ==> v in DeclaredVars(inst)
  {
    var wt, rs, ts := WeightOf(inst), inst.routes, inst.types;
    WellFormedWeighs(inst);
    forall v | v in ExprVars(ObjectiveOfInstance(inst)) ensures v in DeclaredVars(inst) {
      SumVars(Terms(wt, rs, ts), v);
      var e :| e in Terms(wt, rs, ts) && v in ExprVars(e);
      TermsMember(wt, rs, ts, e);
      var r, t :| r in rs && t in ts && e == Term(wt, r, t);
      TermVars(wt, r, t);
      PairsDeclared(inst, r, t);
    }
  }

  /** The whole model of a well-formed instance refers only to declared variables. */
  lemma ModelDeclared(inst: Instance)
    requires WellFormed(inst)
    ensures AllDeclared(DeclaredVars(inst), AllConstraints(inst), ObjectiveOfInstance(inst))
  {
    ConstraintsDeclared(inst);
    ObjectiveDeclared(inst);
  }
}
