/** The direct-to-provider client in src/services/realDataService.ts:
    Nominatim for place search and GraphHopper for routes, converted to the
    app's route shape. Each remote reply is an input. */
module RealDataService {
  import opened Common
  import opened Json
  import BackendService

  /** The step modes the route shape allows. */
  datatype TransportMode = Walking | Bus | Metro | Bike | Train

  /** A place as this client returns it. */
  datatype RealLocation = RealLocation(lat: real, lng: real, name: Json, address: Option<Json>)

  datatype RealRouteStep = RealRouteStep(instruction: Json, duration: real, distance: real, mode: TransportMode)

  /** Coordinates are `(lat, lng)` pairs, ready for the map. */
  datatype RealRoute = RealRoute(
    totalDuration: real,
    totalDistance: real,
    totalCost: real,
    steps: seq<RealRouteStep>,
    geometry: seq<(real, real)>)

  /** One GraphHopper instruction: `text`, `time` in ms, `distance` in m. */
  datatype GhInstruction = GhInstruction(text: Json, time: real, distance: real)

  /** One GraphHopper path: `points.coordinates` as `(lng, lat)` pairs. */
  datatype GhPath = GhPath(coordinates: seq<(real, real)>, instructions: seq<GhInstruction>, time: real, distance: real)

  const SearchLimit := 10
  const DefaultVehicle := "foot"

  // ---------------------------------------------------------------- search

  /** `searchLocations(query)` given Nominatim's items: each item once, in
      order, named and addressed by its `display_name`; `[]` on any error. */
  function SearchLocations(reply: Outcome<seq<BackendService.NominatimItem>>): (r: seq<RealLocation>)
    ensures reply.Fail? ==> r == []
    ensures reply.Ok? ==> |r| == |reply.value|
    ensures reply.Ok? ==> forall k :: 0 <= k < |r| ==>
      && r[k].name == reply.value[k].displayName
      && r[k].address == Some(reply.value[k].displayName)
      && r[k].lat == reply.value[k].lat && r[k].lng == reply.value[k].lon
  {
    match reply
    case Fail => []
    case Ok(items) => ToLocations(items)
  }

  /** The Nominatim request `searchLocations(query)` sends: the query as
      typed, at most ten results, for every query, however short. */
  function SearchRequest(query: string): (c: BackendService.Call)
    ensures c.NominatimSearch? && c.q == query && c.limit == SearchLimit
  {
    BackendService.NominatimSearch(query, SearchLimit)
  }

  /** This client asks Nominatim more widely than the backend client's
      fallback tier: no locality suffix, two more results, and even for a
      query the backend client would not send anywhere. */
  lemma AsksWiderThanBackendTier(query: string, backend: Outcome<Json>, nominatim: Outcome<seq<BackendService.NominatimItem>>)
    ensures |query| >= 2 && backend.Fail? ==>
      var theirs := BackendService.SearchLocations(query, backend, nominatim).calls[1];
      && theirs.q == SearchRequest(query).q + BackendService.LocalitySuffix
      && SearchRequest(query).limit == theirs.limit + 2
      && theirs != SearchRequest(query)
    ensures |query| < 2 ==>
      && BackendService.SearchLocations(query, backend, nominatim).calls == []
      && SearchRequest(query).NominatimSearch?
  {
  }

  function ToLocations(items: seq<BackendService.NominatimItem>): (r: seq<RealLocation>)
    ensures |r| == |items|
    ensures forall k :: 0 <= k < |r| ==> r[k] == ToLocation(items[k])
  {
    if items == [] then [] else [ToLocation(items[0])] + ToLocations(items[1..])
  }

  function ToLocation(item: BackendService.NominatimItem): RealLocation {
    RealLocation(item.lat, item.lon, item.displayName, Some(item.displayName))
  }

  /** This client and the backend client's Nominatim tier read an item
      alike: same coordinates, same name. */
  lemma AgreesWithBackendTier(items: seq<BackendService.NominatimItem>, k: nat)
    requires k < |items|
    ensures var mine := SearchLocations(Ok(items))[k];
      var theirs := BackendService.NominatimLocations(items)[k];
      && Field(theirs, "name") == mine.name
      && Field(theirs, "lat") == JNum(mine.lat)
      && Field(theirs, "lng") == JNum(mine.lng)
  {
  }

  // -------------------------------------------------------------- vehicles

  /** `mapVehicleToMode`: `car` is approximated as a bus, and every vehicle
      other than `bike` and `car` walks. */
  function MapVehicleToMode(vehicle: string): (m: TransportMode)
    ensures m == Bike <==> vehicle == "bike"
    ensures m == Bus <==> vehicle == "car"
    ensures m == Walking <==> vehicle != "bike" && vehicle != "car"
  {
    match vehicle
    case "foot" => Walking
    case "bike" => Bike
    case "car" => Bus
    case _ => Walking
  }

  /** `calculateCost(distance, vehicle)` in rupees, with km = distance/1000. */
  function CalculateCost(distance: real, vehicle: string): real {
    var km := distance / 1000.0;
    match vehicle
    case "foot" => 0.0
    case "bike" => 0.0
    case "car" => km * 2.0
    case _ => km * 1.5
  }

  /** The rate per km of each vehicle: nothing on foot or by bike, 2 by
      car and 1.5 otherwise; so the cost is linear in the distance. */
  lemma CostIsLinear(d1: real, d2: real, vehicle: string)
    ensures CalculateCost(d1 + d2, vehicle) == CalculateCost(d1, vehicle) + CalculateCost(d2, vehicle)
    ensures CalculateCost(1000.0, vehicle) ==
      (if vehicle == "foot" || vehicle == "bike" then 0.0 else if vehicle == "car" then 2.0 else 1.5)
  {
  }

  /** Walking is free only for `foot`: any unlisted vehicle walks and still
      pays the default rate. */
  lemma UnlistedVehicleWalksAndPays(vehicle: string, distance: real)
    requires vehicle != "foot" && vehicle != "bike" && vehicle != "car"
    requires distance > 0.0
    ensures MapVehicleToMode(vehicle) == MapVehicleToMode(DefaultVehicle) == Walking
    ensures CalculateCost(distance, vehicle) > 0.0 == CalculateCost(distance, DefaultVehicle)
  {
  }

  // ------------------------------------------------------------ conversion

  /** `[coord[1], coord[0]]` over every coordinate. */
  function SwapCoordinates(coords: seq<(real, real)>): (r: seq<(real, real)>)
    ensures |r| == |coords|
    ensures forall k :: 0 <= k < |r| ==> r[k].0 == coords[k].1 && r[k].1 == coords[k].0
  {
    if coords == [] then [] else [(coords[0].1, coords[0].0)] + SwapCoordinates(coords[1..])
  }

  /** Swapping twice restores the path's own coordinates. */
  lemma SwapIsInvolution(coords: seq<(real, real)>)
    ensures SwapCoordinates(SwapCoordinates(coords)) == coords
  {
    var r := SwapCoordinates(SwapCoordinates(coords));
    assert forall k :: 0 <= k < |r| ==> r[k] == coords[k];
  }

  /** One step per instruction, in order, every one in the vehicle's mode. */
  function ToSteps(instructions: seq<GhInstruction>, vehicle: string): (r: seq<RealRouteStep>)
    ensures |r| == |instructions|
    ensures forall k :: 0 <= k < |r| ==>
      && r[k].instruction == instructions[k].text
      && r[k].duration * 1000.0 == instructions[k].time
      && r[k].distance == instructions[k].distance
      && r[k].mode == MapVehicleToMode(vehicle)
  {
    if instructions == [] then []
    else
      var i := instructions[0];
      [RealRouteStep(i.text, i.time / 1000.0, i.distance, MapVehicleToMode(vehicle))] + ToSteps(instructions[1..], vehicle)
  }

  /** `calculateRoute(start, end, vehicle)`, given GraphHopper's `paths`
      (`Fail` for a request error or a body without `paths`): `null` when
      there is no first path, else that path converted. */
  function CalculateRoute(reply: Outcome<seq<GhPath>>, vehicle: string): (r: Option<RealRoute>)
    ensures r.None? <==> reply.Fail? || reply.value == []
    ensures r.Some? ==> var p := reply.value[0];
      && r.value.totalDuration * 1000.0 == p.time
      && r.value.totalDistance == p.distance
      && r.value.totalCost == CalculateCost(p.distance, vehicle)
      && r.value.steps == ToSteps(p.instructions, vehicle)
      && SwapCoordinates(r.value.geometry) == p.coordinates
  {
    match reply
    case Fail => None
    case Ok(paths) =>
      if paths == [] then None
      else
        var p := paths[0];
        SwapIsInvolution(p.coordinates);
        Some(RealRoute(
          p.time / 1000.0,
          p.distance,
          CalculateCost(p.distance, vehicle),
          ToSteps(p.instructions, vehicle),
          SwapCoordinates(p.coordinates)))
  }

  /** Later paths are ignored: only the first one shapes the route. */
  lemma OnlyFirstPathCounts(p: GhPath, rest: seq<GhPath>, vehicle: string)
    ensures CalculateRoute(Ok([p] + rest), vehicle) == CalculateRoute(Ok([p]), vehicle)
  {
  }

  /** `getCurrentLocation()`: the fix named "Current Location", or `null`;
      it matches the backend client's own current-location reading. */
  function CurrentLocation(fix: Outcome<(real, real)>): (r: Option<RealLocation>)
    ensures r.Some? <==> BackendService.CurrentLocation(fix).Some?
    ensures r.Some? ==> var p := BackendService.CurrentLocation(fix).value;
      r.value == RealLocation(p.lat, p.lng, JStr(p.name), None)
  {
    match fix
    case Ok((lat, lng)) => Some(RealLocation(lat, lng, JStr("Current Location"), None))
    case Fail => None
  }
}
