/**
 * A script's input as one value: the routes, the train types, the edge tables, the period and what
 * kind of model it builds; the lookups that would abort the script; and the constraint list and
 * objective it hands to the solver.
 */
module Instances {
  import opened Wrappers
  import opened Seqs
  import opened Network
  import opened RollingStock
  import opened Symbolic
  import opened Families
  import opened Objective

  /** Level 3's union-station bound: the first departures of two routes are at least `minutes/period`. */
  datatype Overlap = Overlap(first: string, second: string, minutes: real)

  /**
   * Level 1 weighs each pair by a constant train count and emits fleet and capacity only; levels 2
   * and 3 add time variables, speed, ordering with a dwell of `wait/period`, cycle time and
   * optionally the overlap bounds, and weigh each pair by `cycletime/period`.
   */
  datatype Config =
    | Linear(counts: map<(string, string), int>)
    | Timed(wait: real, overlap: Option<Overlap>)

  datatype Instance = Instance(
    routes: seq<Route>, types: seq<TrainType>, edges: EdgeTable, period: real, config: Config)

  /** Why a script would stop with KeyError, IndexError or ZeroDivisionError before finishing the model. */
  datatype InputError =
    | MissingTrainCount(route: string, train: string)
    | ZeroPeriod
    | MissingEdgeData(route: string, edge: Edge)
    | EmptyRoute(route: string)
    | UnknownRoute(route: string)

  /** The lookup `route_edges[id]`: the first route with that identifier. */
  function FindRoute(rs: seq<Route>, id: string): (o: Option<Route>)
    ensures o.Some? ==> o.value in rs && o.value.id == id
    ensures o.None? <==> forall r :: r in rs ==> r.id != id
  {
    if rs == [] then None
    else if rs[0].id == id then Some(rs[0])
    else FindRoute(rs[1..], id)
  }

  predicate CountsCover(counts: map<(string, string), int>, rs: seq<Route>, ts: seq<TrainType>)
  {
    forall r, t :: r in rs && t in ts ==> (r.id, t.id) in counts
  }

  predicate OverlapKnown(rs: seq<Route>, ov: Option<Overlap>)
  {
    ov.Some? ==> FindRoute(rs, ov.value.first).Some? && FindRoute(rs, ov.value.second).Some?
  }

  /** Every lookup the script performs succeeds. */
  predicate WellFormed(inst: Instance)
  {
    && (forall r :: r in inst.routes ==> Covers(inst.edges, r))
    && match inst.config
       case Linear(counts) => CountsCover(counts, inst.routes, inst.types)
       case Timed(_, ov) =>
         && inst.period != 0.0
         && (forall r :: r in inst.routes ==> |r.edges| > 0)
         && OverlapKnown(inst.routes, ov)
  }

  /** `err` is a lookup of `inst` that fails. */
  predicate Defect(inst: Instance, err: InputError)
  {
    match err
    case MissingTrainCount(rid, tid) =>
      inst.config.Linear? && (rid, tid) !in inst.config.counts &&
      (exists r :: r in inst.routes && r.id == rid) && (exists t :: t in inst.types && t.id == tid)
    case ZeroPeriod => inst.config.Timed? && inst.period == 0.0
    case MissingEdgeData(rid, e) =>
      (exists r :: r in inst.routes && r.id == rid && e in r.edges) && !HasEntry(inst.edges, rid, e)
    case EmptyRoute(rid) =>
      inst.config.Timed? && exists r :: r in inst.routes && r.id == rid && |r.edges| == 0
    case UnknownRoute(rid) =>
      inst.config.Timed? && inst.config.overlap.Some? &&
      (rid == inst.config.overlap.value.first || rid == inst.config.overlap.value.second) &&
      FindRoute(inst.routes, rid).None?
  }

  // ---------------------------------------------------------------- searching for a failing lookup

  function MissingCount(counts: map<(string, string), int>, rs: seq<Route>, ts: seq<TrainType>): (o: Option<(string, string)>)
    ensures o.None? <==> CountsCover(counts, rs, ts)
    ensures o.Some? ==> (o.value !in counts &&
      (exists r :: r in rs && r.id == o.value.0) && (exists t :: t in ts && t.id == o.value.1))
    decreases |rs|
  {
    if rs == [] then None
    else match MissingCountFor(counts, rs[0], ts)
      case Some(tid) => Some((rs[0].id, tid))
      case None => MissingCount(counts, rs[1..], ts)
  }

  function MissingCountFor(counts: map<(string, string), int>, r: Route, ts: seq<TrainType>): (o: Option<string>)
    ensures o.None? <==> forall t :: t in ts ==> (r.id, t.id) in counts
    ensures o.Some? ==> (r.id, o.value) !in counts && exists t :: t in ts && t.id == o.value
    decreases |ts|
  {
    if ts == [] then None
    else if (r.id, ts[0].id) !in counts then Some(ts[0].id)
    else MissingCountFor(counts, r, ts[1..])
  }

  function MissingEdge(tbl: EdgeTable, rs: seq<Route>): (o: Option<(string, Edge)>)
    ensures o.None? <==> forall r :: r in rs ==> Covers(tbl, r)
    ensures o.Some? ==> (!HasEntry(tbl, o.value.0, o.value.1) &&
      exists r :: r in rs && r.id == o.value.0 && o.value.1 in r.edges)
    decreases |rs|
  {
    if rs == [] then None
    else match MissingEdgeFor(tbl, rs[0].id, rs[0].edges)
      case Some(e) =>
        assert rs[0] in rs && !Covers(tbl, rs[0]);
        Some((rs[0].id, e))
      case None => MissingEdge(tbl, rs[1..])
  }

  function MissingEdgeFor(tbl: EdgeTable, rid: string, es: seq<Edge>): (o: Option<Edge>)
    ensures o.None? <==> forall e :: e in es ==> HasEntry(tbl, rid, e)
    ensures o.Some? ==> o.value in es && !HasEntry(tbl, rid, o.value)
    decreases |es|
  {
    if es == [] then None
    else if !HasEntry(tbl, rid, es[0]) then Some(es[0])
    else MissingEdgeFor(tbl, rid, es[1..])
  }

  function FirstEmpty(rs: seq<Route>): (o: Option<string>)
    ensures o.None? <==> forall r :: r in rs ==> |r.edges| > 0
    ensures o.Some? ==> exists r :: r in rs && r.id == o.value && |r.edges| == 0
    decreases |rs|
  {
    if rs == [] then None
    else if |rs[0].edges| == 0 then Some(rs[0].id)
    else FirstEmpty(rs[1..])
  }

  /**
   * The lookups in the order the script meets them: train counts (or the period) in the objective
   * loop, the edge tables in the capacity loop, the first and last edge in the ordering loop, the
   * overlap routes last.
   */
  function Validate(inst: Instance): (o: Outcome<InputError>)
    ensures o.Pass? <==> WellFormed(inst)
    ensures o.Fail? ==> Defect(inst, o.error)
  {
    var countCheck :=
      match inst.config
      case Linear(counts) =>
        (match MissingCount(counts, inst.routes, inst.types)
         case Some(k) => Fail(MissingTrainCount(k.0, k.1))
         case None => Pass)
      case Timed(_, _) => if inst.period == 0.0 then Fail(ZeroPeriod) else Pass;
    if countCheck.Fail? then countCheck
    else match MissingEdge(inst.edges, inst.routes)
      case Some(k) => Fail(MissingEdgeData(k.0, k.1))
      case None =>
        match inst.config
        case Linear(_) => Pass
        case Timed(_, ov) =>
          match FirstEmpty(inst.routes)
          case Some(rid) => Fail(EmptyRoute(rid))
          case None =>
            if ov.Some? && FindRoute(inst.routes, ov.value.first).None? then Fail(UnknownRoute(ov.value.first))
            else if ov.Some? && FindRoute(inst.routes, ov.value.second).None? then Fail(UnknownRoute(ov.value.second))
            else Pass
  }

  // ---------------------------------------------------------------- the model a well-formed instance yields

  function WeightOf(inst: Instance): Weight
  {
    match inst.config
    case Linear(counts) => Counts(counts)
    case Timed(_, _) => PerPeriod(inst.period)
  }

  lemma WellFormedWeighs(inst: Instance)
    requires WellFormed(inst)
    ensures forall r, t :: r in inst.routes && t in inst.types ==> Weighs(WeightOf(inst), r, t)
  {
  }

  /** The dwell the ordering family charges between edges: `wait_time_at_station / period`. */
  function Dwell(inst: Instance): real
    requires inst.config.Timed? && inst.period != 0.0
  {
    inst.config.wait / inst.period
  }

  function OverlapBounds(inst: Instance): seq<Constraint>
    requires WellFormed(inst) && inst.config.Timed?
  {
    match inst.config.overlap
    case None => []
    case Some(o) =>
      var r1, r2 := FindRoute(inst.routes, o.first).value, FindRoute(inst.routes, o.second).value;
      [OverlapOf(r1, o.minutes / inst.period), OverlapOf(r2, o.minutes / inst.period)]
  }

  /** Every constraint the script adds, in the order it adds them. */
  function AllConstraints(inst: Instance): seq<Constraint>
    requires WellFormed(inst)
  {
    var rs, ts, tbl := inst.routes, inst.types, inst.edges;
    Fleet(rs, ts) + Capacity(rs, ts, tbl) +
    match inst.config
    case Linear(_) => []
    case Timed(_, _) => Speed(rs, ts, tbl) + Ordering(rs, Dwell(inst)) + Cycle(rs, ts) + OverlapBounds(inst)
  }

  lemma TimedConstraints(inst: Instance)
    requires WellFormed(inst) && inst.config.Timed?
    ensures AllConstraints(inst) ==
      (Fleet(inst.routes, inst.types) + Capacity(inst.routes, inst.types, inst.edges))
      + ((Speed(inst.routes, inst.types, inst.edges) + Ordering(inst.routes, Dwell(inst)) + Cycle(inst.routes, inst.types))
         + OverlapBounds(inst))
  {
  }

  lemma LinearConstraints(inst: Instance)
    requires WellFormed(inst) && inst.config.Linear?
    ensures AllConstraints(inst) == Fleet(inst.routes, inst.types) + Capacity(inst.routes, inst.types, inst.edges)
  {
  }

  function ObjectiveOfInstance(inst: Instance): Expr
    requires WellFormed(inst)
  {
    WellFormedWeighs(inst);
    ObjectiveOf(WeightOf(inst), inst.routes, inst.types)
  }

  /** A valuation the solver could report: in the variable domains and satisfying every constraint. */
  ghost predicate Solution(a: Valuation, inst: Instance)
    requires WellFormed(inst)
  {
    Domain(a) && SatisfiesAll(a, AllConstraints(inst))
  }
}
