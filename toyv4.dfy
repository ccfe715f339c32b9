/**
 * The smallest example: one train type on one one-edge route, the cycle time and train count
 * entered by hand, and the model written out term by term instead of by the families' loops.
 */
module ToyV4 {
  import opened Network
  import opened RollingStock
  import opened Symbolic
  import opened Families
  import opened Objective
  import opened Timing
  import opened Layout
  import opened Builder

  const TypeA := TrainType("a", 1000.0, 2.0, 30.0, 100.0, 1.0, 10, 1, 8)

  /** The route's round-trip distance is entered directly (km). */
  const R1 := Route("r1", [Edge("s1", "s2")], 60.0)

  /** The edge's length and passenger demand; the length enters no constraint. */
  const EdgeLen := 20.0
  const Demand := 40

  const Period := 60.0
  const CycleMinutes := 120.0
  const NumTrains := 2

  function Variables(): seq<Var>
  {
    [X(R1.id, TypeA.id), W(R1.id, TypeA.id)]
  }

  /** The train count times the pair's fixed cost plus its per-kilometre cost over the route. */
  function Goal(): Expr
  {
    Mul(Const(NumTrains as real), TrainCost(R1, TypeA))
  }

  /** The car bounds, the forced use of the one pair, and the edge's demand. */
  function Constraints(): seq<Constraint>
  {
    [ CarMin(R1, TypeA),
      CarMax(R1, TypeA),
      Eq(XOf(R1, TypeA), Const(1.0)),
      Ge(Mul(Const(TypeA.carCap as real), WOf(R1, TypeA)), Const(Demand as real)) ]
  }

  ghost predicate Solves(a: Valuation)
  {
    Domain(a) && SatisfiesAll(a, Constraints())
  }

  /** The hand-entered cycle time is the round trip at the type's speed, and the count covers it. */
  lemma HandEnteredTimes()
    ensures CycleMinutes == R1.dist / TypeA.speed * 60.0
    ensures NumTrains == CalcNumTrains(CycleMinutes, Period)
  {
    var k := CalcNumTrains(CycleMinutes, Period);
    assert k as real * 60.0 >= 120.0 && (k - 1) as real * 60.0 < 120.0;
    assert k >= 2 && k < 3;
  }

  /** Every variable the constraints and the objective mention is declared. */
  lemma ModelDeclared()
    ensures AllDeclared(Variables(), Constraints(), Goal())
  {
    var x, w := X(R1.id, TypeA.id), W(R1.id, TypeA.id);
    var cs := Constraints();
    assert ExprVars(Goal()) == {x, w};
    assert ConstraintVars(cs[0]) == {x, w};
    assert ExprVars(cs[1].rhs) == {x};
    assert ConstraintVars(cs[1]) == {x, w};
    assert ConstraintVars(cs[2]) == {x};
    assert ExprVars(cs[3].lhs) == {w};
    assert ConstraintVars(cs[3]) == {w};
    forall c, v | c in cs && v in ConstraintVars(c)
      ensures v in Variables()
    {
      assert c == cs[0] || c == cs[1] || c == cs[2] || c == cs[3];
    }
  }

  /** Within the variable domains, the constraints hold exactly when the pair runs with 4 to 8 cars. */
  lemma Feasible(a: Valuation)
    requires Domain(a)
    ensures SatisfiesAll(a, Constraints()) <==>
      a(X("r1", "a")) == 1.0 && 4.0 <= a(W("r1", "a")) <= 8.0
  {
    var cs := Constraints();
    var x, w := a(X("r1", "a")), a(W("r1", "a"));
    assert TypeA.carMin as real == 1.0 && TypeA.carMax as real == 8.0 && TypeA.carCap as real == 10.0;
    assert Holds(a, cs[0]) <==> w >= 1.0 * x;
    assert Holds(a, cs[1]) <==> w <= 8.0 * x;
    assert Holds(a, cs[2]) <==> x == 1.0;
    assert Holds(a, cs[3]) <==> 10.0 * w >= 40.0;
    if x == 1.0 && 4.0 <= w <= 8.0 {
      forall c | c in cs ensures Holds(a, c) {
        assert c == cs[0] || c == cs[1] || c == cs[2] || c == cs[3];
      }
    }
  }

  /** The objective is the two trains' fixed and per-kilometre cost of the locomotive and its cars. */
  lemma ObjectiveValue(a: Valuation)
    ensures Eval(a, Goal()) == 2240.0 * a(X("r1", "a")) + 320.0 * a(W("r1", "a"))
  {
    var x, w := a(X("r1", "a")), a(W("r1", "a"));
    assert Eval(a, TrainCost(R1, TypeA)) == (x * 1000.0 + w * 100.0) + 60.0 * (x * 2.0 + w * 1.0);
  }

  /** With the same locomotive use, each further car costs more, so the fewest feasible cars is the only optimum. */
  lemma MoreCarsCostMore(a: Valuation, b: Valuation)
    requires a(X("r1", "a")) == b(X("r1", "a")) && a(W("r1", "a")) < b(W("r1", "a"))
    ensures Eval(a, Goal()) < Eval(b, Goal())
  {
    ObjectiveValue(a);
    ObjectiveValue(b);
  }

  /** Every solution costs at least 3520, and exactly that when it runs the fewest cars, four. */
  lemma Optimum(a: Valuation)
    requires Solves(a)
    ensures Eval(a, Goal()) >= 3520.0
    ensures Eval(a, Goal()) == 3520.0 <==> a(W("r1", "a")) == 4.0
  {
    Feasible(a);
    ObjectiveValue(a);
  }

  /** One train of four cars, every other variable zero. */
  function Fewest(): Valuation
  {
    v => if v == X("r1", "a") then 1.0 else if v == W("r1", "a") then 4.0 else 0.0
  }

  lemma FewestDomain()
    ensures Domain(Fewest())
    ensures Fewest()(X("r1", "a")) == 1.0 && Fewest()(W("r1", "a")) == 4.0
  {
    forall v ensures InDomain(v, Fewest()(v)) {
    }
  }

  /** A valuation in the domains running one train of four cars is a solution that costs 3520. */
  lemma OptimalAt(a: Valuation)
    requires Domain(a) && a(X("r1", "a")) == 1.0 && a(W("r1", "a")) == 4.0
    ensures Solves(a) && Eval(a, Goal()) == 3520.0
  {
    Feasible(a);
    ObjectiveValue(a);
  }

  /** The bound is reached: `Fewest()` is a solution costing 3520. */
  lemma FewestIsOptimal()
    ensures Solves(Fewest()) && Eval(Fewest(), Goal()) == 3520.0
  {
    FewestDomain();
    OptimalAt(Fewest());
  }

  /** The script's statements in order: two variables, the objective, then the four constraints. */
  method Build() returns (m: ModelBuilder)
    ensures fresh(m)
    ensures m.variables == Variables() && m.constraints == Constraints() && m.objective == Goal()
  {
    m := new ModelBuilder();
    m.AddVar(X(R1.id, TypeA.id));
    m.AddVar(W(R1.id, TypeA.id));
    m.SetObjective(Goal());
    var cs := Constraints();
    m.AddConstr(cs[0]);
    m.AddConstr(cs[1]);
    m.AddConstr(cs[2]);
    m.AddConstr(cs[3]);
  }
}
