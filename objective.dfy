/**
 * The cost objective: per route and type, the fixed cost of the locomotive and its cars plus the
 * distance times their cost per km, weighted by a constant train count (level 1) or by
 * `cycletime/period` (levels 2 and 3), and summed by `obj += ...` in route-then-type order.
 */
module Objective {
  import opened Seqs
  import opened Network
  import opened RollingStock
  import opened Symbolic
  import opened Families

  /** `x*loco_Cfix + w*car_Cfix` */
  function FixedCost(r: Route, t: TrainType): Expr
  {
    Add(Mul(XOf(r, t), Const(t.locoCfix)), Mul(WOf(r, t), Const(t.carCfix)))
  }

  /** `route_dist * (x*loco_Ckm + w*car_Ckm)` */
  function VariableCost(r: Route, t: TrainType): Expr
  {
    Mul(Const(r.dist), Add(Mul(XOf(r, t), Const(t.locoCkm)), Mul(WOf(r, t), Const(t.carCkm))))
  }

  function TrainCost(r: Route, t: TrainType): Expr
  {
    Add(FixedCost(r, t), VariableCost(r, t))
  }

  /** How a pair's cost is weighted: by a table of train counts, or by the cycle time over the period. */
  datatype Weight =
    | Counts(table: map<(string, string), int>)
    | PerPeriod(period: real)

  /** Whether the weight of a pair can be formed (a missing count is a KeyError, a zero period a division by zero). */
  predicate Weighs(wt: Weight, r: Route, t: TrainType)
  {
    match wt
    case Counts(tb) => (r.id, t.id) in tb
    case PerPeriod(p) => p != 0.0
  }

  /** `num_trains[r][t] * (fixed + variable)` or `(cycletime[r][t] / period) * (fixed + variable)`. */
  function Term(wt: Weight, r: Route, t: TrainType): Expr
    requires Weighs(wt, r, t)
  {
    match wt
    case Counts(tb) => Mul(Const(tb[(r.id, t.id)] as real), TrainCost(r, t))
    case PerPeriod(p) => Mul(Mul(V(CycleTime(r.id, t.id)), Const(1.0 / p)), TrainCost(r, t))
  }

  function TermRow(wt: Weight, r: Route, ts: seq<TrainType>): seq<Expr>
    requires forall t :: t in ts ==> Weighs(wt, r, t)
  {
    seq(|ts|, j requires 0 <= j < |ts| => Term(wt, r, ts[j]))
  }

  function TermRows(wt: Weight, rs: seq<Route>, ts: seq<TrainType>): seq<seq<Expr>>
    requires forall r, t :: r in rs && t in ts ==> Weighs(wt, r, t)
  {
    seq(|rs|, i requires 0 <= i < |rs| => TermRow(wt, rs[i], ts))
  }

  function Terms(wt: Weight, rs: seq<Route>, ts: seq<TrainType>): seq<Expr>
    requires forall r, t :: r in rs && t in ts ==> Weighs(wt, r, t)
  {
    Concat(TermRows(wt, rs, ts))
  }

  /** `obj = 0` followed by `obj += e` for each `e`. */
  function Sum(es: seq<Expr>): Expr
    decreases |es|
  {
    if es == [] then Const(0.0) else Add(Sum(es[..|es| - 1]), es[|es| - 1])
  }

  function ObjectiveOf(wt: Weight, rs: seq<Route>, ts: seq<TrainType>): Expr
    requires forall r, t :: r in rs && t in ts ==> Weighs(wt, r, t)
  {
    Sum(Terms(wt, rs, ts))
  }

  // ---------------------------------------------------------------- values

  /** The cost of one train of type `t` with `x` locomotives and `w` cars over distance `dist`. */
  function CostValue(t: TrainType, dist: real, x: real, w: real): real
  {
    (x * t.locoCfix + w * t.carCfix) + dist * (x * t.locoCkm + w * t.carCkm)
  }

  /** The number of trains a pair's cost is multiplied by, under valuation `a`. */
  function Multiplier(a: Valuation, wt: Weight, r: Route, t: TrainType): real
    requires Weighs(wt, r, t)
  {
    match wt
    case Counts(tb) => tb[(r.id, t.id)] as real
    case PerPeriod(p) => a(CycleTime(r.id, t.id)) / p
  }

  /** `fixed + variable` evaluates to the train's cost. */
  lemma TrainCostValue(a: Valuation, r: Route, t: TrainType)
    ensures Eval(a, TrainCost(r, t)) == CostValue(t, r.dist, a(X(r.id, t.id)), a(W(r.id, t.id)))
  {
    var x, w := a(X(r.id, t.id)), a(W(r.id, t.id));
    assert Eval(a, Mul(XOf(r, t), Const(t.locoCfix))) == x * t.locoCfix;
    assert Eval(a, Mul(WOf(r, t), Const(t.carCfix))) == w * t.carCfix;
    assert Eval(a, Mul(XOf(r, t), Const(t.locoCkm))) == x * t.locoCkm;
    assert Eval(a, Mul(WOf(r, t), Const(t.carCkm))) == w * t.carCkm;
    assert Eval(a, FixedCost(r, t)) == x * t.locoCfix + w * t.carCfix;
    assert Eval(a, Add(Mul(XOf(r, t), Const(t.locoCkm)), Mul(WOf(r, t), Const(t.carCkm)))) ==
      x * t.locoCkm + w * t.carCkm;
    assert Eval(a, VariableCost(r, t)) == r.dist * (x * t.locoCkm + w * t.carCkm);
  }

  lemma TermValue(a: Valuation, wt: Weight, r: Route, t: TrainType)
    requires Weighs(wt, r, t)
    ensures Eval(a, Term(wt, r, t)) ==
      Multiplier(a, wt, r, t) * CostValue(t, r.dist, a(X(r.id, t.id)), a(W(r.id, t.id)))
  {
    TrainCostValue(a, r, t);
    var cost := Eval(a, TrainCost(r, t));
    match wt
    case Counts(tb) =>
      assert Eval(a, Term(wt, r, t)) == (tb[(r.id, t.id)] as real) * cost;
    case PerPeriod(p) =>
      var c := a(CycleTime(r.id, t.id));
      assert Eval(a, Mul(V(CycleTime(r.id, t.id)), Const(1.0 / p))) == c * (1.0 / p);
      assert c * (1.0 / p) == c / p;
      assert Eval(a, Term(wt, r, t)) == (c / p) * cost;
  }

  /** A pair's term under the cycle-time weight: its cost times `cycletime/period`. */
  lemma PerPeriodTermValue(a: Valuation, p: real, r: Route, t: TrainType)
    requires p != 0.0
    ensures Eval(a, Term(PerPeriod(p), r, t)) ==
      a(CycleTime(r.id, t.id)) / p * CostValue(t, r.dist, a(X(r.id, t.id)), a(W(r.id, t.id)))
  {
    TermValue(a, PerPeriod(p), r, t);
  }

  /** A pair with no locomotive and no cars adds nothing, whatever its train count or cycle time. */
  lemma UnusedTermZero(a: Valuation, wt: Weight, r: Route, t: TrainType)
    requires Weighs(wt, r, t)
    requires a(X(r.id, t.id)) == 0.0 && a(W(r.id, t.id)) == 0.0
    ensures Eval(a, Term(wt, r, t)) == 0.0
  {
    TermValue(a, wt, r, t);
  }

  /** The value of a sum of expressions: the sum of their values. */
  function Total(a: Valuation, es: seq<Expr>): real
    decreases |es|
  {
    if es == [] then 0.0 else Total(a, es[..|es| - 1]) + Eval(a, es[|es| - 1])
  }

  lemma {:induction false} SumValue(a: Valuation, es: seq<Expr>)
    ensures Eval(a, Sum(es)) == Total(a, es)
    decreases |es|
  {
    if es != [] {
      SumValue(a, es[..|es| - 1]);
    }
  }

  lemma {:induction false} TotalMonotone(a: Valuation, b: Valuation, es: seq<Expr>)
    requires forall e :: e in es ==> Eval(a, e) <= Eval(b, e)
    ensures Total(a, es) <= Total(b, es)
    decreases |es|
  {
    if es != [] {
      var n := |es| - 1;
      assert es[n] in es;
      forall e | e in es[..n] ensures Eval(a, e) <= Eval(b, e) {
        assert e in es;
      }
      TotalMonotone(a, b, es[..n]);
    }
  }

  lemma TermsMember(wt: Weight, rs: seq<Route>, ts: seq<TrainType>, e: Expr)
    requires forall r, t :: r in rs && t in ts ==> Weighs(wt, r, t)
    ensures e in Terms(wt, rs, ts) <==> exists r, t :: r in rs && t in ts && e == Term(wt, r, t)
  {
    var rows := TermRows(wt, rs, ts);
    ConcatMember(rows, e);
    if e in Terms(wt, rs, ts) {
      var i :| 0 <= i < |rows| && e in rows[i];
      var j :| 0 <= j < |ts| && TermRow(wt, rs[i], ts)[j] == e;
      assert rs[i] in rs && ts[j] in ts;
    }
    if exists r, t :: r in rs && t in ts && e == Term(wt, r, t) {
      var r, t :| r in rs && t in ts && e == Term(wt, r, t);
      var i :| 0 <= i < |rs| && rs[i] == r;
      var j :| 0 <= j < |ts| && ts[j] == t;
      assert TermRow(wt, r, ts)[j] == e;
      assert e in rows[i];
    }
  }

  /** With one route and one train type, the objective is that pair's weighted train cost. */
  lemma SinglePairValue(a: Valuation, wt: Weight, r: Route, t: TrainType)
    requires Weighs(wt, r, t)
    ensures Eval(a, ObjectiveOf(wt, [r], [t])) ==
      Multiplier(a, wt, r, t) * CostValue(t, r.dist, a(X(r.id, t.id)), a(W(r.id, t.id)))
  {
    assert TermRow(wt, r, [t]) == [Term(wt, r, t)];
    assert TermRows(wt, [r], [t]) == [TermRow(wt, r, [t])];
    assert Terms(wt, [r], [t]) == Concat([[Term(wt, r, t)]]) == [Term(wt, r, t)];
    SumValue(a, [Term(wt, r, t)]);
    assert Total(a, [Term(wt, r, t)]) == Total(a, []) + Eval(a, Term(wt, r, t));
    TermValue(a, wt, r, t);
  }

  /** The terms of two routes and two types, route-major. */
  lemma TwoByTwoTerms(wt: Weight, r1: Route, r2: Route, t1: TrainType, t2: TrainType)
    requires forall r, t :: r in [r1, r2] && t in [t1, t2] ==> Weighs(wt, r, t)
    ensures Terms(wt, [r1, r2], [t1, t2]) ==
      [Term(wt, r1, t1), Term(wt, r1, t2), Term(wt, r2, t1), Term(wt, r2, t2)]
  {
    var ts := [t1, t2];
    var es := [Term(wt, r1, t1), Term(wt, r1, t2), Term(wt, r2, t1), Term(wt, r2, t2)];
    assert TermRow(wt, r1, ts) == es[..2];
    assert TermRow(wt, r2, ts) == es[2..];
    assert TermRows(wt, [r1, r2], ts) == [es[..2], es[2..]];
    assert Concat([es[..2], es[2..]]) == es[..2] + Concat([es[2..]]);
    assert Concat([es[2..]]) == es[2..] + Concat([]);
  }

  lemma TotalOfFour(a: Valuation, es: seq<Expr>)
    requires |es| == 4
    ensures Total(a, es) == Eval(a, es[0]) + Eval(a, es[1]) + Eval(a, es[2]) + Eval(a, es[3])
  {
    assert es[..3][..2] == es[..2] && es[..2][..1] == es[..1] && es[..1][..0] == [];
    assert Total(a, es[..1]) == Eval(a, es[0]);
    assert Total(a, es[..2]) == Total(a, es[..1]) + Eval(a, es[1]);
    assert Total(a, es[..3]) == Total(a, es[..2]) + Eval(a, es[2]);
  }

  /** With two routes and two train types, the objective adds the four pairs' terms, route-major. */
  lemma TwoByTwoValue(a: Valuation, wt: Weight, r1: Route, r2: Route, t1: TrainType, t2: TrainType)
    requires forall r, t :: r in [r1, r2] && t in [t1, t2] ==> Weighs(wt, r, t)
    ensures Eval(a, ObjectiveOf(wt, [r1, r2], [t1, t2])) ==
      Eval(a, Term(wt, r1, t1)) + Eval(a, Term(wt, r1, t2)) + Eval(a, Term(wt, r2, t1)) + Eval(a, Term(wt, r2, t2))
  {
    var es := [Term(wt, r1, t1), Term(wt, r1, t2), Term(wt, r2, t1), Term(wt, r2, t2)];
    TwoByTwoTerms(wt, r1, r2, t1, t2);
    SumValue(a, es);
    TotalOfFour(a, es);
  }

  // ---------------------------------------------------------------- monotonicity

  /**
   * A cycle time and a cost both at least their bounds give an hourly-period term (the cycle time
   * over 60 times the cost) at least the bounds' term.
   */
  lemma WeighedAtLeast(c: real, c0: real, k: real, k0: real)
    requires c >= c0 >= 0.0 && k >= k0 >= 0.0
    ensures c / 60.0 * k >= c0 / 60.0 * k0
  {
    assert (c - c0) * k >= 0.0;
    assert c0 * (k - k0) >= 0.0;
  }

  /** All four prices of a type are non-negative. */
  predicate NonNegativePrices(t: TrainType)
  {
    t.locoCfix >= 0.0 && t.carCfix >= 0.0 && t.locoCkm >= 0.0 && t.carCkm >= 0.0
  }

  /** With non-negative prices and distance, more locomotives or more cars never make a train cheaper. */
  lemma CostMonotone(t: TrainType, dist: real, x1: real, w1: real, x2: real, w2: real)
    requires NonNegativePrices(t) && dist >= 0.0 && x1 <= x2 && w1 <= w2
    ensures CostValue(t, dist, x1, w1) <= CostValue(t, dist, x2, w2)
  {
    ScaleMonotone(t.locoCfix, x1, x2);
    ScaleMonotone(t.carCfix, w1, w2);
    ScaleMonotone(t.locoCkm, x1, x2);
    ScaleMonotone(t.carCkm, w1, w2);
    assert x1 * t.locoCfix + w1 * t.carCfix <= x2 * t.locoCfix + w2 * t.carCfix;
    assert x1 * t.locoCkm + w1 * t.carCkm <= x2 * t.locoCkm + w2 * t.carCkm;
    ScaleMonotone(dist, x1 * t.locoCkm + w1 * t.carCkm, x2 * t.locoCkm + w2 * t.carCkm);
  }

  /** Under the same conditions a train with no negative locomotives or cars costs nothing negative. */
  lemma CostNonNegative(t: TrainType, dist: real, x: real, w: real)
    requires NonNegativePrices(t) && dist >= 0.0 && x >= 0.0 && w >= 0.0
    ensures CostValue(t, dist, x, w) >= 0.0
  {
    CostMonotone(t, dist, 0.0, 0.0, x, w);
  }

  /** For pair `(r, t)`, `b` has at least `a`'s locomotives, cars and multiplier, and `a`'s are not negative. */
  ghost predicate Dominates(a: Valuation, b: Valuation, wt: Weight, r: Route, t: TrainType)
    requires Weighs(wt, r, t)
  {
    && 0.0 <= a(X(r.id, t.id)) <= b(X(r.id, t.id))
    && 0.0 <= a(W(r.id, t.id)) <= b(W(r.id, t.id))
    && 0.0 <= Multiplier(a, wt, r, t) <= Multiplier(b, wt, r, t)
  }

  /** A pair's term does not decrease when its locomotives, cars and multiplier do not. */
  lemma TermMonotone(a: Valuation, b: Valuation, wt: Weight, r: Route, t: TrainType)
    requires Weighs(wt, r, t) && Dominates(a, b, wt, r, t)
    requires NonNegativePrices(t) && r.dist >= 0.0
    ensures Eval(a, Term(wt, r, t)) <= Eval(b, Term(wt, r, t))
  {
    TermValue(a, wt, r, t);
    TermValue(b, wt, r, t);
    var m1, m2 := Multiplier(a, wt, r, t), Multiplier(b, wt, r, t);
    var x1, w1 := a(X(r.id, t.id)), a(W(r.id, t.id));
    var x2, w2 := b(X(r.id, t.id)), b(W(r.id, t.id));
    var c1, c2 := CostValue(t, r.dist, x1, w1), CostValue(t, r.dist, x2, w2);
    CostNonNegative(t, r.dist, x1, w1);
    CostMonotone(t, r.dist, x1, w1, x2, w2);
    ProductMonotone(m1, m2, c1, c2);
  }

  /** Products of non-negative factors do not decrease when neither factor does. */
  lemma ProductMonotone(m1: real, m2: real, c1: real, c2: real)
    requires 0.0 <= m1 <= m2 && 0.0 <= c1 <= c2
    ensures m1 * c1 <= m2 * c2
  {
    ScaleMonotone(m1, c1, c2);
    ScaleMonotone(c2, m1, m2);
    assert m2 * c2 == c2 * m2 && m1 * c2 == c2 * m1;
  }

  lemma ScaleMonotone(m: real, u: real, v: real)
    requires m >= 0.0 && u <= v
    ensures m * u <= m * v
  {
    assert m * v - m * u == m * (v - u);
  }

  /**
   * With non-negative prices and distances, the objective does not decrease when no pair's
   * locomotives, cars or multiplier decrease.
   */
  lemma ObjectiveMonotone(a: Valuation, b: Valuation, wt: Weight, rs: seq<Route>, ts: seq<TrainType>)
    requires forall r, t :: r in rs && t in ts ==> Weighs(wt, r, t)
    requires forall t :: t in ts ==> NonNegativePrices(t)
    requires forall r :: r in rs ==> r.dist >= 0.0
    requires forall r, t :: r in rs && t in ts ==> Dominates(a, b, wt, r, t)
    ensures Eval(a, ObjectiveOf(wt, rs, ts)) <= Eval(b, ObjectiveOf(wt, rs, ts))
  {
    var es := Terms(wt, rs, ts);
    forall e | e in es ensures Eval(a, e) <= Eval(b, e) {
      TermsMember(wt, rs, ts, e);
      var r, t :| r in rs && t in ts && e == Term(wt, r, t);
      TermMonotone(a, b, wt, r, t);
    }
    TotalMonotone(a, b, es);
    SumValue(a, es);
    SumValue(b, es);
  }
}
