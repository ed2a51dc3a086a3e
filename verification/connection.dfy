/** A `Connection`: one trip departing at a stop, enriched with the route it
    runs on. GTFS stop_times rows do not name a route, so the trips table
    (trips.txt, indexed by trip_id) links a trip to its route_id. The routes table
    (routes.txt, indexed by route_id) then gives the route's short name, long name
    and route_type code. The code becomes a vehicle label through a fixed table.
    Both tables are passed in as immutable maps instead of being read from files. */
module Connections {
  import opened Wrappers
  import opened Maps

  /** The routes.txt columns a connection reads. */
  datatype RouteRow = RouteRow(shortName: string, longName: string, routeType: string)

  /** trips.txt indexed by trip_id, keeping its route_id column. */
  type TripsTable = map<string, string>

  /** routes.txt indexed by route_id. */
  type RoutesTable = map<string, RouteRow>

  /** The `KeyError` a missing index label raises; it carries that label. */
  datatype KeyError = KeyError(key: string)

  datatype Connection = Connection(
    tripId: string,
    routeId: string,
    routeShortName: string,
    routeLongName: string,
    vehicle: string)

  /** The label of a route_type code the table does not list. */
  const Unknown := "???"

  /** Vehicle labels of the route_type codes the feed uses. */
  const VehicleLabels: map<string, string> := map[
    "0" := "Stra\U{00DF}enbahn",
    "2" := "City-Bahn",
    "3" := "Bus",
    "7" := "Drahtseilbahn"]

  /** `DataFrame.at[key, column]` on a table indexed by `key`'s column: the row, or a `KeyError`. */
  function At<V>(table: map<string, V>, key: string): (r: Result<V, KeyError>)
    ensures r.Ok? <==> key in table
    ensures r.Ok? ==> r.value == table[key]
    ensures r.Err? ==> r.error == KeyError(key)
  {
    if key in table then Ok(table[key]) else Err(KeyError(key))
  }

  /** `map_route_type`: total, never raises; an unlisted code gives the sentinel. */
  function MapRouteType(routeType: string): (vehicle: string)
    ensures vehicle == Unknown <==> routeType !in VehicleLabels
    ensures vehicle != Unknown ==> vehicle == VehicleLabels[routeType]
  {
    if routeType in VehicleLabels then VehicleLabels[routeType] else Unknown
  }

  /** `get_route_id`: the trip's route_id, or a `KeyError` naming the trip. */
  function GetRouteId(trips: TripsTable, tripId: string): (r: Result<string, KeyError>)
    ensures r.Ok? <==> tripId in trips
    ensures r.Ok? ==> r.value == trips[tripId]
    ensures r.Err? ==> r.error == KeyError(tripId)
  {
    At(trips, tripId)
  }

  /** `get_short_name`: the route's short name, or a `KeyError` naming the route. */
  function GetShortName(routes: RoutesTable, routeId: string): (r: Result<string, KeyError>)
    ensures r.Ok? <==> routeId in routes
    ensures r.Ok? ==> r.value == routes[routeId].shortName
    ensures r.Err? ==> r.error == KeyError(routeId)
  {
    var row :- At(routes, routeId);
    Ok(row.shortName)
  }

  /** `get_long_name`: the route's long name, or a `KeyError` naming the route. */
  function GetLongName(routes: RoutesTable, routeId: string): (r: Result<string, KeyError>)
    ensures r.Ok? <==> routeId in routes
    ensures r.Ok? ==> r.value == routes[routeId].longName
    ensures r.Err? ==> r.error == KeyError(routeId)
  {
    var row :- At(routes, routeId);
    Ok(row.longName)
  }

  /** `get_vehicle_type`: the label of the route's route_type, or a `KeyError` naming the route. */
  function GetVehicleType(routes: RoutesTable, routeId: string): (r: Result<string, KeyError>)
    ensures r.Ok? <==> routeId in routes
    ensures r.Ok? ==> r.value == MapRouteType(routes[routeId].routeType)
    ensures r.Err? ==> r.error == KeyError(routeId)
  {
    var row :- At(routes, routeId);
    Ok(MapRouteType(row.routeType))
  }

  /** What it means for `c` to be the connection of `tripId`: every field is read
      off the trip's row and the row of the route that trip names. */
  predicate Joins(trips: TripsTable, routes: RoutesTable, tripId: string, c: Connection) {
    && c.tripId == tripId
    && tripId in trips
    && c.routeId == trips[tripId]
    && c.routeId in routes
    && c.routeShortName == routes[c.routeId].shortName
    && c.routeLongName == routes[c.routeId].longName
    && c.vehicle == MapRouteType(routes[c.routeId].routeType)
  }

  /** `Connection(trip_id)`: the fields are filled in the order the constructor
      assigns them, and the first lookup that misses aborts with its `KeyError`. */
  function NewConnection(trips: TripsTable, routes: RoutesTable, tripId: string): (r: Result<Connection, KeyError>)
    ensures r.Ok? <==> tripId in trips && trips[tripId] in routes
    ensures r.Ok? ==> Joins(trips, routes, tripId, r.value)
    ensures tripId !in trips ==> r == Err(KeyError(tripId))
    ensures tripId in trips && trips[tripId] !in routes ==> r == Err(KeyError(trips[tripId]))
  {
    var routeId :- GetRouteId(trips, tripId);
    var shortName :- GetShortName(routes, routeId);
    // Once the short name is found the route's row exists, so the two lookups
    // below cannot miss; `Connection.__init__` still makes them, one after the other.
    match GetLongName(routes, routeId)
    case Err(e) => Err(e)
    case Ok(longName) =>
      match GetVehicleType(routes, routeId)
      case Err(e) => Err(e)
      case Ok(vehicle) => Ok(Connection(tripId, routeId, shortName, longName, vehicle))
  }

  /** At most one connection joins a trip: a connection built any other way that
      reads its fields off the same rows is the one `NewConnection` returns. */
  lemma JoinDeterminesConnection(trips: TripsTable, routes: RoutesTable, tripId: string, c: Connection)
    requires Joins(trips, routes, tripId, c)
    ensures NewConnection(trips, routes, tripId) == Ok(c)
  {
  }

  /** Construction fails exactly when no connection joins the trip. */
  lemma NewConnectionFailsIffNoJoin(trips: TripsTable, routes: RoutesTable, tripId: string)
    ensures NewConnection(trips, routes, tripId).Err? <==> forall c :: !Joins(trips, routes, tripId, c)
  {
    var r := NewConnection(trips, routes, tripId);
    if r.Err? {
      forall c
        ensures !Joins(trips, routes, tripId, c)
      {
        if Joins(trips, routes, tripId, c) {
          JoinDeterminesConnection(trips, routes, tripId, c);
        }
      }
    } else {
      assert Joins(trips, routes, tripId, r.value);
    }
  }

  /** The result, failure included, depends only on the trip's row and on the row of
      the route that trip names: any other rows of either table may differ. */
  lemma NewConnectionIsLocal(
    trips: TripsTable, routes: RoutesTable,
    trips': TripsTable, routes': RoutesTable,
    tripId: string)
    requires AgreeOn(trips, trips', tripId)
    requires tripId in trips ==> AgreeOn(routes, routes', trips[tripId])
    ensures NewConnection(trips, routes, tripId) == NewConnection(trips', routes', tripId)
  {
  }

  /** Distinct listed codes have distinct labels, and none of them is the
      sentinel, so a label other than the sentinel identifies its code. */
  lemma MapRouteTypeInjective(a: string, b: string)
    requires MapRouteType(a) == MapRouteType(b) != Unknown
    ensures a == b
  {
  }

  /** The `mappings` table of `map_route_type`: tram, commuter rail, bus and
      funicular, and the sentinel for every code outside it. */
  lemma MapRouteTypeTable()
    ensures MapRouteType("0") == "Stra\U{00DF}enbahn"
    ensures MapRouteType("2") == "City-Bahn"
    ensures MapRouteType("3") == "Bus"
    ensures MapRouteType("7") == "Drahtseilbahn"
    ensures forall code :: code != "0" && code != "2" && code != "3" && code != "7" ==> MapRouteType(code) == Unknown
  {
  }
}
