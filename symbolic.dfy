/**
 * The symbolic model the scripts hand to the solver: decision variables, the (bi)linear expressions
 * built from them, and the constraints `lhs <= rhs`, `lhs >= rhs`, `lhs == rhs`.
 */
module Symbolic {
  import opened Network

  /** Direction on a route: 0 (forward, increasing stations) or 1 (reverse). */
  datatype Dir = Forward | Reverse

  /**
   * Decision variables: `x[r,t]` (type t used on route r), `w[r,t]` (its number of cars),
   * `cycletime[r,t]`, and a departure and an arrival time per route, direction and edge.
   */
  datatype Var =
    | X(route: string, train: string)
    | W(route: string, train: string)
    | CycleTime(route: string, train: string)
    | Dep(route: string, dir: Dir, edge: Edge)
    | Arr(route: string, dir: Dir, edge: Edge)

  datatype Expr =
    | Const(c: real)
    | V(v: Var)
    | Add(l: Expr, r: Expr)
    | Sub(l: Expr, r: Expr)
    | Mul(l: Expr, r: Expr)

  datatype Constraint =
    | Le(lhs: Expr, rhs: Expr)
    | Ge(lhs: Expr, rhs: Expr)
    | Eq(lhs: Expr, rhs: Expr)

  /** A value for every variable, e.g. the one a solver reports. */
  type Valuation = Var -> real

  function Eval(a: Valuation, e: Expr): real
  {
    match e
    case Const(c) => c
    case V(v) => a(v)
    case Add(l, r) => Eval(a, l) + Eval(a, r)
    case Sub(l, r) => Eval(a, l) - Eval(a, r)
    case Mul(l, r) => Eval(a, l) * Eval(a, r)
  }

  predicate Holds(a: Valuation, c: Constraint)
  {
    match c
    case Le(l, r) => Eval(a, l) <= Eval(a, r)
    case Ge(l, r) => Eval(a, l) >= Eval(a, r)
    case Eq(l, r) => Eval(a, l) == Eval(a, r)
  }

  ghost predicate SatisfiesAll(a: Valuation, cs: seq<Constraint>)
  {
    forall c :: c in cs ==> Holds(a, c)
  }

  predicate IsNat(v: real)
  {
    v >= 0.0 && v.Floor as real == v
  }

  /**
   * The variable domains: `x` binary, `w` a non-negative integer, every continuous variable at or
   * above the solver's default lower bound 0.
   */
  predicate InDomain(v: Var, value: real)
  {
    match v
    case X(_, _) => value == 0.0 || value == 1.0
    case W(_, _) => IsNat(value)
    case _ => value >= 0.0
  }

  ghost predicate Domain(a: Valuation)
  {
    forall v :: InDomain(v, a(v))
  }
}
