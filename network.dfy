/** Stations, edges and routes of the rail network, and the per-edge data tables. */
module Network {

  type StationId = string

  /** A directed edge (from, to); a route also runs it backwards on its return leg. */
  datatype Edge = Edge(from: StationId, to: StationId)

  /** A route: its identifier, its edges in forward order, and the distance the scripts store for it. */
  datatype Route = Route(id: string, edges: seq<Edge>, dist: real)

  /** Length (km) and passenger demand of an edge. */
  datatype EdgeData = EdgeData(len: real, demand: nat)

  /**
   * The edge tables: one table shared by all routes (levels 1 and 2, the toy data), or one table per
   * route (level 3, where `edge_len[route][edge]` is looked up).
   */
  datatype EdgeTable =
    | Shared(table: map<Edge, EdgeData>)
    | PerRoute(tables: map<string, map<Edge, EdgeData>>)

  /** Whether the lookup of edge `e` for route `rid` succeeds (otherwise the script raises KeyError). */
  predicate HasEntry(tbl: EdgeTable, rid: string, e: Edge)
  {
    match tbl
    case Shared(m) => e in m
    case PerRoute(mm) => rid in mm && e in mm[rid]
  }

  function Entry(tbl: EdgeTable, rid: string, e: Edge): EdgeData
    requires HasEntry(tbl, rid, e)
  {
    match tbl
    case Shared(m) => m[e]
    case PerRoute(mm) => mm[rid][e]
  }

  /** Every edge of route `r` has an entry under that route. */
  predicate Covers(tbl: EdgeTable, r: Route)
  {
    forall e :: e in r.edges ==> HasEntry(tbl, r.id, e)
  }
}

/** Locomotive and car catalogue: in every script the car type is indexed by the locomotive type. */
module RollingStock {

  /**
   * A train type: locomotive fixed cost, cost per km and speed (km/h); car fixed cost, cost per km,
   * passenger capacity, and the least and greatest number of cars per train.
   */
  datatype TrainType = TrainType(
    id: string,
    locoCfix: real, locoCkm: real, speed: real,
    carCfix: real, carCkm: real, carCap: nat, carMin: nat, carMax: nat)
}
