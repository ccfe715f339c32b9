/**
 * The constraint families the scripts add with `m.addConstr`, each as the exact sequence of
 * constraints its loops emit, in emission order.
 */
module Families {
  import opened Seqs
  import opened Network
  import opened RollingStock
  import opened Symbolic

  function XOf(r: Route, t: TrainType): Expr { V(X(r.id, t.id)) }
  function WOf(r: Route, t: TrainType): Expr { V(W(r.id, t.id)) }

  // ---- Fleet bounds: w[r,t] >= car_min*x[r,t] and w[r,t] <= car_max*x[r,t] ----

  function CarMin(r: Route, t: TrainType): Constraint
  {
    Ge(WOf(r, t), Mul(Const(t.carMin as real), XOf(r, t)))
  }

  function CarMax(r: Route, t: TrainType): Constraint
  {
    Le(WOf(r, t), Mul(Const(t.carMax as real), XOf(r, t)))
  }

  function FleetRow(r: Route, ts: seq<TrainType>): seq<seq<Constraint>>
  {
    seq(|ts|, j requires 0 <= j < |ts| => [CarMin(r, ts[j]), CarMax(r, ts[j])])
  }

  function FleetRows(rs: seq<Route>, ts: seq<TrainType>): seq<seq<Constraint>>
  {
    seq(|rs|, i requires 0 <= i < |rs| => Concat(FleetRow(rs[i], ts)))
  }

  function Fleet(rs: seq<Route>, ts: seq<TrainType>): seq<Constraint>
  {
    Concat(FleetRows(rs, ts))
  }

  // ---- Capacity: edge_Npassengers <= sum over types of w[r,t]*car_cap[t], per edge of r ----

  /** The route's capacity expression: cars times car capacity summed over the types, a left fold from 0. */
  function Supply(rid: string, ts: seq<TrainType>): Expr
    decreases |ts|
  {
    if ts == [] then Const(0.0)
    else
      var t := ts[|ts| - 1];
      Add(Supply(rid, ts[..|ts| - 1]), Mul(V(W(rid, t.id)), Const(t.carCap as real)))
  }

  function CapacityOf(r: Route, ts: seq<TrainType>, tbl: EdgeTable, e: Edge): Constraint
    requires HasEntry(tbl, r.id, e)
  {
    Le(Const(Entry(tbl, r.id, e).demand as real), Supply(r.id, ts))
  }

  function CapacityRow(r: Route, ts: seq<TrainType>, tbl: EdgeTable): seq<seq<Constraint>>
    requires Covers(tbl, r)
  {
    seq(|r.edges|, k requires 0 <= k < |r.edges| => [CapacityOf(r, ts, tbl, r.edges[k])])
  }

  function CapacityRows(rs: seq<Route>, ts: seq<TrainType>, tbl: EdgeTable): seq<seq<Constraint>>
    requires forall r :: r in rs ==> Covers(tbl, r)
  {
    seq(|rs|, i requires 0 <= i < |rs| => Concat(CapacityRow(rs[i], ts, tbl)))
  }

  function Capacity(rs: seq<Route>, ts: seq<TrainType>, tbl: EdgeTable): seq<Constraint>
    requires forall r :: r in rs ==> Covers(tbl, r)
  {
    Concat(CapacityRows(rs, ts, tbl))
  }

  // ---- Speed: x*len <= x*speed*(arr - dep), per route, type, edge and direction ----

  function SpeedOf(r: Route, t: TrainType, d: Dir, e: Edge, len: real): Constraint
  {
    Le(Mul(XOf(r, t), Const(len)),
       Mul(Mul(XOf(r, t), Const(t.speed)), Sub(V(Arr(r.id, d, e)), V(Dep(r.id, d, e)))))
  }

  function SpeedBlock(r: Route, t: TrainType, tbl: EdgeTable, e: Edge): seq<Constraint>
    requires HasEntry(tbl, r.id, e)
  {
    var len := Entry(tbl, r.id, e).len;
    [SpeedOf(r, t, Forward, e, len), SpeedOf(r, t, Reverse, e, len)]
  }

  function SpeedEdges(r: Route, t: TrainType, tbl: EdgeTable): seq<seq<Constraint>>
    requires Covers(tbl, r)
  {
    seq(|r.edges|, k requires 0 <= k < |r.edges| => SpeedBlock(r, t, tbl, r.edges[k]))
  }

  function SpeedRow(r: Route, ts: seq<TrainType>, tbl: EdgeTable): seq<seq<Constraint>>
    requires Covers(tbl, r)
  {
    seq(|ts|, j requires 0 <= j < |ts| => Concat(SpeedEdges(r, ts[j], tbl)))
  }

  function SpeedRows(rs: seq<Route>, ts: seq<TrainType>, tbl: EdgeTable): seq<seq<Constraint>>
    requires forall r :: r in rs ==> Covers(tbl, r)
  {
    seq(|rs|, i requires 0 <= i < |rs| => Concat(SpeedRow(rs[i], ts, tbl)))
  }

  function Speed(rs: seq<Route>, ts: seq<TrainType>, tbl: EdgeTable): seq<Constraint>
    requires forall r :: r in rs ==> Covers(tbl, r)
  {
    Concat(SpeedRows(rs, ts, tbl))
  }

  // ---- Event ordering along the out-and-back traversal, with dwell `dwell` ----

  /** `dep >= arr + dwell`: leave a station no earlier than `dwell` after arriving there. */
  function After(dep: Var, arr: Var, dwell: real): Constraint
  {
    Ge(V(dep), Add(V(arr), Const(dwell)))
  }

  /** `arr >= dep` on one edge. */
  function ArriveAfter(rid: string, d: Dir, e: Edge): Constraint
  {
    Ge(V(Arr(rid, d, e)), V(Dep(rid, d, e)))
  }

  /** What iteration `i` of the forward `while` loop emits. */
  function FwdStep(rid: string, es: seq<Edge>, dwell: real, i: nat): seq<Constraint>
    requires i < |es|
  {
    (if i != 0 then [After(Dep(rid, Forward, es[i]), Arr(rid, Forward, es[i - 1]), dwell)] else [])
    + [ArriveAfter(rid, Forward, es[i])]
  }

  function FwdBlocks(rid: string, es: seq<Edge>, dwell: real): seq<seq<Constraint>>
  {
    seq(|es|, i requires 0 <= i < |es| => FwdStep(rid, es, dwell, i))
  }

  /** The turnaround: the reverse departure from the last station follows the forward arrival. */
  function Turnaround(rid: string, es: seq<Edge>, dwell: real): Constraint
    requires |es| > 0
  {
    After(Dep(rid, Reverse, es[|es| - 1]), Arr(rid, Forward, es[|es| - 1]), dwell)
  }

  /** What iteration `i` (counting down from |es|-1) of the reverse `while` loop emits. */
  function RevStep(rid: string, es: seq<Edge>, dwell: real, i: nat): seq<Constraint>
    requires i < |es|
  {
    (if i != |es| - 1 then [After(Dep(rid, Reverse, es[i]), Arr(rid, Reverse, es[i + 1]), dwell)] else [])
    + [ArriveAfter(rid, Reverse, es[i])]
  }

  /** Block `j` is iteration `i = |es| - 1 - j`. */
  function RevBlocks(rid: string, es: seq<Edge>, dwell: real): seq<seq<Constraint>>
  {
    seq(|es|, j requires 0 <= j < |es| => RevStep(rid, es, dwell, |es| - 1 - j))
  }

  function RouteOrdering(r: Route, dwell: real): seq<Constraint>
    requires |r.edges| > 0
  {
    Concat(FwdBlocks(r.id, r.edges, dwell)) + [Turnaround(r.id, r.edges, dwell)]
    + Concat(RevBlocks(r.id, r.edges, dwell))
  }

  function OrderingRows(rs: seq<Route>, dwell: real): seq<seq<Constraint>>
    requires forall r :: r in rs ==> |r.edges| > 0
  {
    seq(|rs|, i requires 0 <= i < |rs| => RouteOrdering(rs[i], dwell))
  }

  function Ordering(rs: seq<Route>, dwell: real): seq<Constraint>
    requires forall r :: r in rs ==> |r.edges| > 0
  {
    Concat(OrderingRows(rs, dwell))
  }

  // ---- Cycle time: x*cycletime == x*arr[reverse][first edge] ----

  function CycleOf(r: Route, t: TrainType): Constraint
    requires |r.edges| > 0
  {
    Eq(Mul(XOf(r, t), V(CycleTime(r.id, t.id))), Mul(XOf(r, t), V(Arr(r.id, Reverse, r.edges[0]))))
  }

  function CycleRow(r: Route, ts: seq<TrainType>): seq<seq<Constraint>>
    requires |r.edges| > 0
  {
    seq(|ts|, j requires 0 <= j < |ts| => [CycleOf(r, ts[j])])
  }

  function CycleRows(rs: seq<Route>, ts: seq<TrainType>): seq<seq<Constraint>>
    requires forall r :: r in rs ==> |r.edges| > 0
  {
    seq(|rs|, i requires 0 <= i < |rs| => Concat(CycleRow(rs[i], ts)))
  }

  function Cycle(rs: seq<Route>, ts: seq<TrainType>): seq<Constraint>
    requires forall r :: r in rs ==> |r.edges| > 0
  {
    Concat(CycleRows(rs, ts))
  }

  // ---- Overlap: the first forward departure of a route is at least a fixed offset ----

  function OverlapOf(r: Route, offset: real): Constraint
    requires |r.edges| > 0
  {
    Ge(V(Dep(r.id, Forward, r.edges[0])), Const(offset))
  }
}

/** Which constraints each family contains, and how many the ordering loops emit. */
module FamilyShape {
  import opened Seqs
  import opened Network
  import opened RollingStock
  import opened Symbolic
  import opened Families

  lemma FleetIn(rs: seq<Route>, ts: seq<TrainType>, c: Constraint)
    requires c in Fleet(rs, ts)
    ensures exists r, t :: r in rs && t in ts && (c == CarMin(r, t) || c == CarMax(r, t))
  {
    var rows := FleetRows(rs, ts);
    ConcatMember(rows, c);
    var i :| 0 <= i < |rows| && c in rows[i];
    ConcatMember(FleetRow(rs[i], ts), c);
    var j :| 0 <= j < |ts| && c in FleetRow(rs[i], ts)[j];
    assert rs[i] in rs && ts[j] in ts;
  }

  lemma FleetHas(rs: seq<Route>, ts: seq<TrainType>, r: Route, t: TrainType)
    requires r in rs && t in ts
    ensures CarMin(r, t) in Fleet(rs, ts) && CarMax(r, t) in Fleet(rs, ts)
  {
    var rows := FleetRows(rs, ts);
    var i :| 0 <= i < |rs| && rs[i] == r;
    var j :| 0 <= j < |ts| && ts[j] == t;
    assert FleetRow(r, ts)[j] == [CarMin(r, t), CarMax(r, t)];
    ConcatMember(FleetRow(r, ts), CarMin(r, t));
    ConcatMember(FleetRow(r, ts), CarMax(r, t));
    assert rows[i] == Concat(FleetRow(r, ts));
    ConcatMember(rows, CarMin(r, t));
    ConcatMember(rows, CarMax(r, t));
  }

  lemma FleetMember(rs: seq<Route>, ts: seq<TrainType>, c: Constraint)
    ensures c in Fleet(rs, ts) <==>
      exists r, t :: r in rs && t in ts && (c == CarMin(r, t) || c == CarMax(r, t))
  {
    if c in Fleet(rs, ts) {
      FleetIn(rs, ts, c);
    }
    if exists r, t :: r in rs && t in ts && (c == CarMin(r, t) || c == CarMax(r, t)) {
      var r, t :| r in rs && t in ts && (c == CarMin(r, t) || c == CarMax(r, t));
      FleetHas(rs, ts, r, t);
    }
  }

  lemma CapacityIn(rs: seq<Route>, ts: seq<TrainType>, tbl: EdgeTable, c: Constraint)
    requires forall r :: r in rs ==> Covers(tbl, r)
    requires c in Capacity(rs, ts, tbl)
    ensures exists r, e :: r in rs && e in r.edges && c == CapacityOf(r, ts, tbl, e)
  {
    var rows := CapacityRows(rs, ts, tbl);
    ConcatMember(rows, c);
    var i :| 0 <= i < |rows| && c in rows[i];
    ConcatMember(CapacityRow(rs[i], ts, tbl), c);
    var k :| 0 <= k < |rs[i].edges| && c in CapacityRow(rs[i], ts, tbl)[k];
    assert rs[i] in rs && rs[i].edges[k] in rs[i].edges;
  }

  lemma CapacityHas(rs: seq<Route>, ts: seq<TrainType>, tbl: EdgeTable, r: Route, e: Edge)
    requires forall r :: r in rs ==> Covers(tbl, r)
    requires r in rs && e in r.edges
    ensures HasEntry(tbl, r.id, e) && CapacityOf(r, ts, tbl, e) in Capacity(rs, ts, tbl)
  {
    var c := CapacityOf(r, ts, tbl, e);
    var rows := CapacityRows(rs, ts, tbl);
    var i :| 0 <= i < |rs| && rs[i] == r;
    var k :| 0 <= k < |r.edges| && r.edges[k] == e;
    assert CapacityRow(r, ts, tbl)[k] == [c];
    ConcatMember(CapacityRow(r, ts, tbl), c);
    assert rows[i] == Concat(CapacityRow(r, ts, tbl));
    ConcatMember(rows, c);
  }

  lemma CapacityMember(rs: seq<Route>, ts: seq<TrainType>, tbl: EdgeTable, c: Constraint)
    requires forall r :: r in rs ==> Covers(tbl, r)
    ensures c in Capacity(rs, ts, tbl) <==>
      exists r, e :: r in rs && e in r.edges && c == CapacityOf(r, ts, tbl, e)
  {
    if c in Capacity(rs, ts, tbl) {
      CapacityIn(rs, ts, tbl, c);
    }
    if exists r, e :: r in rs && e in r.edges && c == CapacityOf(r, ts, tbl, e) {
      var r, e :| r in rs && e in r.edges && c == CapacityOf(r, ts, tbl, e);
      CapacityHas(rs, ts, tbl, r, e);
    }
  }

  lemma SpeedEdgesIn(r: Route, t: TrainType, tbl: EdgeTable, c: Constraint)
    requires Covers(tbl, r)
    requires c in Concat(SpeedEdges(r, t, tbl))
    ensures exists e, d :: e in r.edges && c == SpeedOf(r, t, d, e, Entry(tbl, r.id, e).len)
  {
    var blocks := SpeedEdges(r, t, tbl);
    ConcatMember(blocks, c);
    var k :| 0 <= k < |blocks| && c in blocks[k];
    var e := r.edges[k];
    assert e in r.edges;
    var len := Entry(tbl, r.id, e).len;
    assert c == SpeedOf(r, t, Forward, e, len) || c == SpeedOf(r, t, Reverse, e, len);
  }

  lemma SpeedEdgesHas(r: Route, t: TrainType, tbl: EdgeTable, e: Edge, d: Dir)
    requires Covers(tbl, r) && e in r.edges
    ensures SpeedOf(r, t, d, e, Entry(tbl, r.id, e).len) in Concat(SpeedEdges(r, t, tbl))
  {
    var c := SpeedOf(r, t, d, e, Entry(tbl, r.id, e).len);
    var blocks := SpeedEdges(r, t, tbl);
    var k :| 0 <= k < |r.edges| && r.edges[k] == e;
    assert blocks[k] == SpeedBlock(r, t, tbl, e);
    assert c in blocks[k] by {
      assert d == Forward || d == Reverse;
    }
    ConcatMember(blocks, c);
  }

  lemma SpeedRowIn(r: Route, ts: seq<TrainType>, tbl: EdgeTable, c: Constraint)
    requires Covers(tbl, r)
    requires c in Concat(SpeedRow(r, ts, tbl))
    ensures exists t, e, d :: t in ts && e in r.edges && c == SpeedOf(r, t, d, e, Entry(tbl, r.id, e).len)
  {
    var row := SpeedRow(r, ts, tbl);
    ConcatMember(row, c);
    var j :| 0 <= j < |row| && c in row[j];
    SpeedEdgesIn(r, ts[j], tbl, c);
    assert ts[j] in ts;
  }

  lemma SpeedRowHas(r: Route, ts: seq<TrainType>, tbl: EdgeTable, t: TrainType, e: Edge, d: Dir)
    requires Covers(tbl, r) && t in ts && e in r.edges
    ensures SpeedOf(r, t, d, e, Entry(tbl, r.id, e).len) in Concat(SpeedRow(r, ts, tbl))
  {
    var c := SpeedOf(r, t, d, e, Entry(tbl, r.id, e).len);
    var row := SpeedRow(r, ts, tbl);
    var j :| 0 <= j < |ts| && ts[j] == t;
    SpeedEdgesHas(r, t, tbl, e, d);
    assert c in row[j];
    ConcatMember(row, c);
  }

  lemma SpeedIn(rs: seq<Route>, ts: seq<TrainType>, tbl: EdgeTable, c: Constraint)
    requires forall r :: r in rs ==> Covers(tbl, r)
    requires c in Speed(rs, ts, tbl)
    ensures exists r, t, e, d :: r in rs && t in ts && e in r.edges &&
              c == SpeedOf(r, t, d, e, Entry(tbl, r.id, e).len)
  {
    var rows := SpeedRows(rs, ts, tbl);
    ConcatMember(rows, c);
    var i :| 0 <= i < |rows| && c in rows[i];
    SpeedRowIn(rs[i], ts, tbl, c);
    assert rs[i] in rs;
  }

  lemma SpeedHas(rs: seq<Route>, ts: seq<TrainType>, tbl: EdgeTable, r: Route, t: TrainType, e: Edge, d: Dir)
    requires forall r :: r in rs ==> Covers(tbl, r)
    requires r in rs && t in ts && e in r.edges
    ensures HasEntry(tbl, r.id, e) && SpeedOf(r, t, d, e, Entry(tbl, r.id, e).len) in Speed(rs, ts, tbl)
  {
    var c := SpeedOf(r, t, d, e, Entry(tbl, r.id, e).len);
    var rows := SpeedRows(rs, ts, tbl);
    var i :| 0 <= i < |rs| && rs[i] == r;
    SpeedRowHas(r, ts, tbl, t, e, d);
    assert c in rows[i];
    ConcatMember(rows, c);
  }

  lemma SpeedMember(rs: seq<Route>, ts: seq<TrainType>, tbl: EdgeTable, c: Constraint)
    requires forall r :: r in rs ==> Covers(tbl, r)
    ensures c in Speed(rs, ts, tbl) <==>
      exists r, t, e, d :: r in rs && t in ts && e in r.edges &&
        c == SpeedOf(r, t, d, e, Entry(tbl, r.id, e).len)
  {
    if c in Speed(rs, ts, tbl) {
      SpeedIn(rs, ts, tbl, c);
    }
    if exists r, t, e, d :: r in rs && t in ts && e in r.edges &&
         c == SpeedOf(r, t, d, e, Entry(tbl, r.id, e).len) {
      var r, t, e, d :| r in rs && t in ts && e in r.edges &&
         c == SpeedOf(r, t, d, e, Entry(tbl, r.id, e).len);
      SpeedHas(rs, ts, tbl, r, t, e, d);
    }
  }

  lemma CycleIn(rs: seq<Route>, ts: seq<TrainType>, c: Constraint)
    requires forall r :: r in rs ==> |r.edges| > 0
    requires c in Cycle(rs, ts)
    ensures exists r, t :: r in rs && t in ts && c == CycleOf(r, t)
  {
    var rows := CycleRows(rs, ts);
    ConcatMember(rows, c);
    var i :| 0 <= i < |rows| && c in rows[i];
    ConcatMember(CycleRow(rs[i], ts), c);
    var j :| 0 <= j < |ts| && c in CycleRow(rs[i], ts)[j];
    assert rs[i] in rs && ts[j] in ts;
  }

  lemma CycleHas(rs: seq<Route>, ts: seq<TrainType>, r: Route, t: TrainType)
    requires forall r :: r in rs ==> |r.edges| > 0
    requires r in rs && t in ts
    ensures CycleOf(r, t) in Cycle(rs, ts)
  {
    var c := CycleOf(r, t);
    var rows := CycleRows(rs, ts);
    var i :| 0 <= i < |rs| && rs[i] == r;
    var j :| 0 <= j < |ts| && ts[j] == t;
    assert CycleRow(r, ts)[j] == [c];
    ConcatMember(CycleRow(r, ts), c);
    assert rows[i] == Concat(CycleRow(r, ts));
    ConcatMember(rows, c);
  }

  lemma CycleMember(rs: seq<Route>, ts: seq<TrainType>, c: Constraint)
    requires forall r :: r in rs ==> |r.edges| > 0
    ensures c in Cycle(rs, ts) <==> exists r, t :: r in rs && t in ts && c == CycleOf(r, t)
  {
    if c in Cycle(rs, ts) {
      CycleIn(rs, ts, c);
    }
    if exists r, t :: r in rs && t in ts && c == CycleOf(r, t) {
      var r, t :| r in rs && t in ts && c == CycleOf(r, t);
      CycleHas(rs, ts, r, t);
    }
  }

  lemma OrderingMember(rs: seq<Route>, dwell: real, c: Constraint)
    requires forall r :: r in rs ==> |r.edges| > 0
    ensures c in Ordering(rs, dwell) <==> exists r :: r in rs && c in RouteOrdering(r, dwell)
  {
    var rows := OrderingRows(rs, dwell);
    ConcatMember(rows, c);
    if c in Ordering(rs, dwell) {
      var i :| 0 <= i < |rows| && c in rows[i];
      assert rs[i] in rs;
    }
    if exists r :: r in rs && c in RouteOrdering(r, dwell) {
      var r :| r in rs && c in RouteOrdering(r, dwell);
      var i :| 0 <= i < |rs| && rs[i] == r;
      assert c in rows[i];
    }
  }

  /** The width of the blocks the two `while` loops emit: 1 in their first iteration, 2 after. */
  function StepWidths(n: nat): seq<nat>
  {
    seq(n, i requires 0 <= i < n => if i == 0 then 1 else 2)
  }

  lemma {:induction false} StepWidthsTotal(n: nat)
    requires n > 0
    ensures Total(StepWidths(n)) == 2 * n - 1
  {
    if n > 1 {
      StepWidthsTotal(n - 1);
      assert StepWidths(n)[..n - 1] == StepWidths(n - 1);
    }
  }

  /**
   * For a route with n >= 1 edges the ordering loops emit exactly 4n - 1 constraints: n - 1 forward
   * chain links, n forward `arr >= dep`, the turnaround, n - 1 reverse links, n reverse `arr >= dep`.
   */
  lemma OrderingCount(r: Route, dwell: real)
    requires |r.edges| > 0
    ensures |RouteOrdering(r, dwell)| == 4 * |r.edges| - 1
  {
    var n := |r.edges|;
    ConcatLength(FwdBlocks(r.id, r.edges, dwell), StepWidths(n));
    var rev := RevBlocks(r.id, r.edges, dwell);
    forall j | 0 <= j < n ensures |rev[j]| == StepWidths(n)[j] {
      assert rev[j] == RevStep(r.id, r.edges, dwell, n - 1 - j);
    }
    ConcatLength(rev, StepWidths(n));
    StepWidthsTotal(n);
  }

  lemma FwdMember(rid: string, es: seq<Edge>, dwell: real, c: Constraint)
    ensures c in Concat(FwdBlocks(rid, es, dwell)) <==>
      exists i :: 0 <= i < |es| && c in FwdStep(rid, es, dwell, i)
  {
    var blocks := FwdBlocks(rid, es, dwell);
    ConcatMember(blocks, c);
    if c in Concat(blocks) {
      var i :| 0 <= i < |blocks| && c in blocks[i];
      assert c in FwdStep(rid, es, dwell, i);
    }
    if exists i :: 0 <= i < |es| && c in FwdStep(rid, es, dwell, i) {
      var i :| 0 <= i < |es| && c in FwdStep(rid, es, dwell, i);
      assert c in blocks[i];
    }
  }

  lemma RevMember(rid: string, es: seq<Edge>, dwell: real, c: Constraint)
    ensures c in Concat(RevBlocks(rid, es, dwell)) <==>
      exists i :: 0 <= i < |es| && c in RevStep(rid, es, dwell, i)
  {
    var blocks := RevBlocks(rid, es, dwell);
    ConcatMember(blocks, c);
    if c in Concat(blocks) {
      var j :| 0 <= j < |blocks| && c in blocks[j];
      assert c in RevStep(rid, es, dwell, |es| - 1 - j);
    }
    if exists i :: 0 <= i < |es| && c in RevStep(rid, es, dwell, i) {
      var i :| 0 <= i < |es| && c in RevStep(rid, es, dwell, i);
      assert c in blocks[|es| - 1 - i];
    }
  }
}
