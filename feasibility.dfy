/**
 * What a valuation satisfying a constraint family means, family by family: the facts a reported
 * solution is guaranteed to have.
 */
module Feasibility {
  import opened Seqs
  import opened Network
  import opened RollingStock
  import opened Symbolic
  import opened Families
  import opened FamilyShape

  lemma DomainAt(a: Valuation, v: Var)
    requires Domain(a)
    ensures InDomain(v, a(v))
  {
  }

  // ---------------------------------------------------------------- fleet bounds

  /** Zero cars when the type is unused; between car_min and car_max cars when it is used. */
  ghost predicate FleetGated(a: Valuation, r: Route, t: TrainType)
  {
    var x, w := a(X(r.id, t.id)), a(W(r.id, t.id));
    (x == 0.0 && w == 0.0) || (x == 1.0 && t.carMin as real <= w <= t.carMax as real)
  }

  lemma FleetPairMeaning(a: Valuation, r: Route, t: TrainType)
    requires a(X(r.id, t.id)) == 0.0 || a(X(r.id, t.id)) == 1.0
    ensures (Holds(a, CarMin(r, t)) && Holds(a, CarMax(r, t))) <==> FleetGated(a, r, t)
  {
    var x := a(X(r.id, t.id));
    assert Eval(a, Mul(Const(t.carMin as real), XOf(r, t))) == t.carMin as real * x;
    assert Eval(a, Mul(Const(t.carMax as real), XOf(r, t))) == t.carMax as real * x;
  }

  /** A binary `x` satisfies the fleet family exactly when every pair is gated. */
  lemma FleetMeaning(a: Valuation, rs: seq<Route>, ts: seq<TrainType>)
    requires Domain(a)
    ensures SatisfiesAll(a, Fleet(rs, ts)) <==>
      forall r, t :: r in rs && t in ts ==> FleetGated(a, r, t)
  {
    if SatisfiesAll(a, Fleet(rs, ts)) {
      forall r, t | r in rs && t in ts ensures FleetGated(a, r, t) {
        FleetMember(rs, ts, CarMin(r, t));
        FleetMember(rs, ts, CarMax(r, t));
        DomainAt(a, X(r.id, t.id));
        FleetPairMeaning(a, r, t);
      }
    }
    if forall r, t :: r in rs && t in ts ==> FleetGated(a, r, t) {
      forall c | c in Fleet(rs, ts) ensures Holds(a, c) {
        FleetMember(rs, ts, c);
        var r, t :| r in rs && t in ts && (c == CarMin(r, t) || c == CarMax(r, t));
        DomainAt(a, X(r.id, t.id));
        FleetPairMeaning(a, r, t);
      }
    }
  }

  // ---------------------------------------------------------------- capacity

  /** The number of seats on route `rid`: the sum over types of cars times car capacity. */
  function Seats(a: Valuation, rid: string, ts: seq<TrainType>): real
    decreases |ts|
  {
    if ts == [] then 0.0
    else Seats(a, rid, ts[..|ts| - 1]) + a(W(rid, ts[|ts| - 1].id)) * ts[|ts| - 1].carCap as real
  }

  lemma {:induction false} SupplyValue(a: Valuation, rid: string, ts: seq<TrainType>)
    ensures Eval(a, Supply(rid, ts)) == Seats(a, rid, ts)
    decreases |ts|
  {
    if ts != [] {
      var t := ts[|ts| - 1];
      SupplyValue(a, rid, ts[..|ts| - 1]);
      assert Eval(a, Mul(V(W(rid, t.id)), Const(t.carCap as real))) == a(W(rid, t.id)) * t.carCap as real;
    }
  }

  /** Every edge of `r` has no more demand than the route's seats. */
  ghost predicate Served(a: Valuation, tbl: EdgeTable, r: Route, ts: seq<TrainType>)
    requires Covers(tbl, r)
  {
    forall e :: e in r.edges ==> Entry(tbl, r.id, e).demand as real <= Seats(a, r.id, ts)
  }

  lemma CapacityMeaning(a: Valuation, rs: seq<Route>, ts: seq<TrainType>, tbl: EdgeTable)
    requires forall r :: r in rs ==> Covers(tbl, r)
    ensures SatisfiesAll(a, Capacity(rs, ts, tbl)) <==> forall r :: r in rs ==> Served(a, tbl, r, ts)
  {
    if SatisfiesAll(a, Capacity(rs, ts, tbl)) {
      forall r | r in rs ensures Served(a, tbl, r, ts) {
        forall e | e in r.edges
          ensures Entry(tbl, r.id, e).demand as real <= Seats(a, r.id, ts)
        {
          CapacityMember(rs, ts, tbl, CapacityOf(r, ts, tbl, e));
          SupplyValue(a, r.id, ts);
        }
      }
    }
    if forall r :: r in rs ==> Served(a, tbl, r, ts) {
      forall c | c in Capacity(rs, ts, tbl) ensures Holds(a, c) {
        CapacityMember(rs, ts, tbl, c);
        var r, e :| r in rs && e in r.edges && c == CapacityOf(r, ts, tbl, e);
        SupplyValue(a, r.id, ts);
      }
    }
  }

  // ---------------------------------------------------------------- speed

  /**
   * The gated speed constraint says nothing when the type is unused and, when it is used, is the
   * speed law `arr - dep >= len/speed`.
   */
  lemma SpeedConstraintMeaning(a: Valuation, r: Route, t: TrainType, d: Dir, e: Edge, len: real)
    requires a(X(r.id, t.id)) == 0.0 || a(X(r.id, t.id)) == 1.0
    requires t.speed > 0.0
    ensures Holds(a, SpeedOf(r, t, d, e, len)) <==>
      (a(X(r.id, t.id)) == 0.0 || a(Arr(r.id, d, e)) - a(Dep(r.id, d, e)) >= len / t.speed)
  {
    var x := a(X(r.id, t.id));
    var gap := a(Arr(r.id, d, e)) - a(Dep(r.id, d, e));
    assert Eval(a, Mul(XOf(r, t), Const(len))) == x * len;
    assert Eval(a, Sub(V(Arr(r.id, d, e)), V(Dep(r.id, d, e)))) == gap;
    assert Eval(a, Mul(XOf(r, t), Const(t.speed))) == x * t.speed;
    assert Holds(a, SpeedOf(r, t, d, e, len)) <==> x * len <= (x * t.speed) * gap;
    if x == 1.0 {
      assert len <= t.speed * gap <==> len / t.speed <= gap;
    }
  }

  /** A used type runs no edge of `r`, in either direction, faster than its speed. */
  ghost predicate KeepsSpeed(a: Valuation, tbl: EdgeTable, r: Route, t: TrainType)
    requires Covers(tbl, r)
    requires t.speed > 0.0
  {
    a(X(r.id, t.id)) == 1.0 ==>
      forall e, d :: e in r.edges ==>
        a(Arr(r.id, d, e)) - a(Dep(r.id, d, e)) >= Entry(tbl, r.id, e).len / t.speed
  }

  /** Every used pair of a valuation satisfying the speed family keeps to its speed. */
  lemma PairKeepsSpeed(a: Valuation, rs: seq<Route>, ts: seq<TrainType>, tbl: EdgeTable, r: Route, t: TrainType)
    requires Domain(a)
    requires forall r :: r in rs ==> Covers(tbl, r)
    requires r in rs && t in ts && t.speed > 0.0
    requires SatisfiesAll(a, Speed(rs, ts, tbl))
    ensures KeepsSpeed(a, tbl, r, t)
  {
    DomainAt(a, X(r.id, t.id));
    forall e, d | e in r.edges && a(X(r.id, t.id)) == 1.0
      ensures a(Arr(r.id, d, e)) - a(Dep(r.id, d, e)) >= Entry(tbl, r.id, e).len / t.speed
    {
      var len := Entry(tbl, r.id, e).len;
      SpeedHas(rs, ts, tbl, r, t, e, d);
      SpeedConstraintMeaning(a, r, t, d, e, len);
    }
  }

  /** A speed constraint holds when its pair keeps to its speed. */
  lemma SpeedHolds(a: Valuation, rs: seq<Route>, ts: seq<TrainType>, tbl: EdgeTable, c: Constraint)
    requires Domain(a)
    requires forall r :: r in rs ==> Covers(tbl, r)
    requires forall t :: t in ts ==> t.speed > 0.0
    requires forall r, t :: r in rs && t in ts ==> KeepsSpeed(a, tbl, r, t)
    requires c in Speed(rs, ts, tbl)
    ensures Holds(a, c)
  {
    SpeedIn(rs, ts, tbl, c);
    var r, t, e, d :| r in rs && t in ts && e in r.edges &&
      c == SpeedOf(r, t, d, e, Entry(tbl, r.id, e).len);
    assert KeepsSpeed(a, tbl, r, t);
    DomainAt(a, X(r.id, t.id));
    SpeedConstraintMeaning(a, r, t, d, e, Entry(tbl, r.id, e).len);
  }

  lemma SpeedMeaning(a: Valuation, rs: seq<Route>, ts: seq<TrainType>, tbl: EdgeTable)
    requires Domain(a)
    requires forall r :: r in rs ==> Covers(tbl, r)
    requires forall t :: t in ts ==> t.speed > 0.0
    ensures SatisfiesAll(a, Speed(rs, ts, tbl)) <==>
      forall r, t :: r in rs && t in ts ==> KeepsSpeed(a, tbl, r, t)
  {
    if SatisfiesAll(a, Speed(rs, ts, tbl)) {
      forall r, t | r in rs && t in ts ensures KeepsSpeed(a, tbl, r, t) {
        PairKeepsSpeed(a, rs, ts, tbl, r, t);
      }
    }
    if forall r, t :: r in rs && t in ts ==> KeepsSpeed(a, tbl, r, t) {
      forall c | c in Speed(rs, ts, tbl) ensures Holds(a, c) {
        SpeedHolds(a, rs, ts, tbl, c);
      }
    }
  }

  // ---------------------------------------------------------------- cycle time

  lemma CycleConstraintMeaning(a: Valuation, r: Route, t: TrainType)
    requires |r.edges| > 0
    requires a(X(r.id, t.id)) == 0.0 || a(X(r.id, t.id)) == 1.0
    ensures Holds(a, CycleOf(r, t)) <==>
      (a(X(r.id, t.id)) == 0.0 || a(CycleTime(r.id, t.id)) == a(Arr(r.id, Reverse, r.edges[0])))
  {
    var x := a(X(r.id, t.id));
    assert Eval(a, Mul(XOf(r, t), V(CycleTime(r.id, t.id)))) == x * a(CycleTime(r.id, t.id));
    assert Eval(a, Mul(XOf(r, t), V(Arr(r.id, Reverse, r.edges[0])))) == x * a(Arr(r.id, Reverse, r.edges[0]));
  }

  /** A used type's cycle time is the reverse arrival back at the route's first station. */
  ghost predicate CycleDefined(a: Valuation, r: Route, t: TrainType)
    requires |r.edges| > 0
  {
    a(X(r.id, t.id)) == 1.0 ==> a(CycleTime(r.id, t.id)) == a(Arr(r.id, Reverse, r.edges[0]))
  }

  lemma CycleMeaning(a: Valuation, rs: seq<Route>, ts: seq<TrainType>)
    requires Domain(a)
    requires forall r :: r in rs ==> |r.edges| > 0
    ensures SatisfiesAll(a, Cycle(rs, ts)) <==>
      forall r, t :: r in rs && t in ts ==> CycleDefined(a, r, t)
  {
    if SatisfiesAll(a, Cycle(rs, ts)) {
      forall r, t | r in rs && t in ts ensures CycleDefined(a, r, t) {
        CycleMember(rs, ts, CycleOf(r, t));
        DomainAt(a, X(r.id, t.id));
        CycleConstraintMeaning(a, r, t);
      }
    }
    if forall r, t :: r in rs && t in ts ==> CycleDefined(a, r, t) {
      forall c | c in Cycle(rs, ts) ensures Holds(a, c) {
        CycleMember(rs, ts, c);
        var r, t :| r in rs && t in ts && c == CycleOf(r, t);
        DomainAt(a, X(r.id, t.id));
        CycleConstraintMeaning(a, r, t);
      }
    }
  }
}
