/** The backend client (src/services/backendService.ts) with every remote
    call replaced by its outcome: the location-search tier chain, the
    bundled catalogue, route repair and error mapping, and the fallbacks of
    the other endpoints. Nothing here keeps state. */
module BackendService {
  import opened Common
  import opened Json
  import opened Text

  /** A location the client itself builds (catalogue entries, defaults,
      geolocation fixes). */
  datatype Place = Place(lat: real, lng: real, name: string)

  function PlaceJson(p: Place): Json {
    JObj(map["lat" := JNum(p.lat), "lng" := JNum(p.lng), "name" := JStr(p.name)])
  }

  function PlacesJson(ps: seq<Place>): (r: seq<Json>)
    ensures |r| == |ps|
    ensures forall k :: 0 <= k < |ps| ==> r[k] == PlaceJson(ps[k])
  {
    if ps == [] then [] else [PlaceJson(ps[0])] + PlacesJson(ps[1..])
  }

  // ---------------------------------------------------------------- constants

  const BackendAddress := "192.168.0.147:8000"
  const CannotConnectText := "Cannot connect to backend server. Please make sure it is running on " + BackendAddress
  const TryAgainText := "Failed to calculate route. Please try again."
  const LocalitySuffix := ", Delhi, India"
  const NominatimLimit := 8
  const MockLimit := 8

  /** The bundled points of interest searched when both remote tiers fail. */
  function Catalogue(): (c: seq<Place>)
    ensures |c| == 8
  {
    [ Place(28.6129, 77.2295, "India Gate, New Delhi"),
      Place(28.6328, 77.2197, "Connaught Place, New Delhi"),
      Place(28.6514, 77.1909, "Karol Bagh, New Delhi"),
      Place(28.5450, 77.1925, "IIT Delhi, New Delhi"),
      Place(28.7041, 77.1025, "Delhi University, North Campus"),
      Place(28.5545, 77.2567, "Hauz Khas, New Delhi"),
      Place(28.6692, 77.2311, "Red Fort, Old Delhi"),
      Place(28.5246, 77.2065, "Qutub Minar, Mehrauli") ]
  }

  /** The sample locations used when the sample endpoint fails or answers
      in an unexpected shape. */
  function DefaultSamples(): (c: seq<Place>)
    ensures |c| == 8
  {
    [ Place(28.6328, 77.2197, "Connaught Place"),
      Place(28.5450, 77.1925, "IIT Delhi"),
      Place(28.6514, 77.1909, "Karol Bagh"),
      Place(28.6129, 77.2295, "India Gate"),
      Place(28.7041, 77.1025, "Delhi University"),
      Place(28.5545, 77.2567, "Hauz Khas"),
      Place(28.5246, 77.2065, "Qutub Minar"),
      Place(28.6692, 77.2311, "Red Fort") ]
  }

  // ------------------------------------------------------- offline catalogue

  /** `name.toLowerCase().includes(query.toLowerCase())`. */
  predicate NameMatches(p: Place, query: string) {
    Includes(Lower(p.name), Lower(query))
  }

  /** `ps.filter(NameMatches)`. */
  function FilterMatching(ps: seq<Place>, query: string): (r: seq<Place>)
    ensures |r| <= |ps|
    ensures forall p :: p in r <==> p in ps && NameMatches(p, query)
  {
    if ps == [] then []
    else if NameMatches(ps[0], query) then [ps[0]] + FilterMatching(ps[1..], query)
    else FilterMatching(ps[1..], query)
  }

  /** `s.slice(0, n)`. */
  function Take<T>(s: seq<T>, n: nat): (r: seq<T>)
    ensures |r| == if |s| <= n then |s| else n
    ensures r == s[..|r|]
    ensures |s| <= n ==> r == s
  {
    if |s| <= n then s else s[..n]
  }

  /** `getMockLocations`: the catalogue entries whose lower-cased name
      contains the lower-cased query, in catalogue order, at most eight. */
  function MockLocations(query: string): (r: seq<Place>)
    ensures |r| <= MockLimit
    ensures forall p :: p in r <==> p in Catalogue() && NameMatches(p, query)
  {
    Take(FilterMatching(Catalogue(), query), MockLimit)
  }

  /** `a` is `b` with some elements dropped, order kept. */
  ghost predicate IsSubsequence<T>(a: seq<T>, b: seq<T>)
    decreases |b|
  {
    a == [] || (b != [] && if a[0] == b[0] then IsSubsequence(a[1..], b[1..]) else IsSubsequence(a, b[1..]))
  }

  lemma {:induction false} FilterIsSubsequence(ps: seq<Place>, query: string)
    ensures IsSubsequence(FilterMatching(ps, query), ps)
  {
    if ps != [] {
      FilterIsSubsequence(ps[1..], query);
      var rest := FilterMatching(ps[1..], query);
      if NameMatches(ps[0], query) {
        assert ([ps[0]] + rest)[1..] == rest;
      }
    }
  }

  /** The offline result keeps catalogue order: it is a subsequence of the
      eight-entry catalogue. */
  lemma MockLocationsKeepOrder(query: string)
    ensures IsSubsequence(MockLocations(query), Catalogue())
  {
    FilterIsSubsequence(Catalogue(), query);
  }

  // ---------------------------------------------------- location search chain

  /** One element of a Nominatim reply, with `lat`/`lon` already parsed. */
  datatype NominatimItem = NominatimItem(lat: real, lon: real, displayName: Json)

  /** The remote requests a search issued, in order. */
  datatype Call =
    | BackendSearch(q: string)
    | NominatimSearch(q: string, limit: nat)

  /** What `searchLocations` resolves to, with the requests it made. */
  datatype Search = Search(result: Json, calls: seq<Call>)

  /** `{lat, lng, name: item.display_name}`. */
  function NominatimLocation(item: NominatimItem): (r: Json)
    ensures Field(r, "name") == item.displayName
    ensures Field(r, "lat") == JNum(item.lat) && Field(r, "lng") == JNum(item.lon)
  {
    JObj(map["lat" := JNum(item.lat), "lng" := JNum(item.lon), "name" := item.displayName])
  }

  function NominatimLocations(items: seq<NominatimItem>): (r: seq<Json>)
    ensures |r| == |items|
    ensures forall k :: 0 <= k < |items| ==> r[k] == NominatimLocation(items[k])
  {
    if items == [] then [] else [NominatimLocation(items[0])] + NominatimLocations(items[1..])
  }

  /** `searchLocations(query)`: `backend` is what the backend search endpoint
      does with `query`, `nominatim` what Nominatim does with the suffixed
      query (a reply that is not an array is a `Fail`, since mapping over it
      throws inside the same `try`). */
  function SearchLocations(query: string, backend: Outcome<Json>, nominatim: Outcome<seq<NominatimItem>>): (r: Search)
    // short queries: nothing is asked of anybody
    ensures |query| < 2 ==> r.result == JArr([]) && r.calls == []
    // the backend's answer is final and returned untouched
    ensures |query| >= 2 && backend.Ok? ==>
      r.result == backend.value && r.calls == [BackendSearch(query)]
    // Nominatim: one location per item, same order, name = display_name
    ensures |query| >= 2 && backend.Fail? && nominatim.Ok? ==>
      && r.calls == [BackendSearch(query), NominatimSearch(query + LocalitySuffix, NominatimLimit)]
      && r.result == JArr(NominatimLocations(nominatim.value))
    // both remote tiers down: the catalogue filter
    ensures |query| >= 2 && backend.Fail? && nominatim.Fail? ==>
      && r.calls == [BackendSearch(query), NominatimSearch(query + LocalitySuffix, NominatimLimit)]
      && r.result == JArr(PlacesJson(MockLocations(query)))
  {
    if |query| < 2 then Search(JArr([]), [])
    else match backend
      case Ok(data) => Search(data, [BackendSearch(query)])
      case Fail =>
        var calls := [BackendSearch(query), NominatimSearch(query + LocalitySuffix, NominatimLimit)];
        match nominatim
        case Ok(items) => Search(JArr(NominatimLocations(items)), calls)
        case Fail => Search(JArr(PlacesJson(MockLocations(query))), calls)
  }

  /** The Nominatim tier gives exactly one location per item, in the same
      order, named by the item's `display_name`. */
  lemma NominatimTierMapsEachItem(query: string, items: seq<NominatimItem>)
    requires |query| >= 2
    ensures var r := SearchLocations(query, Fail, Ok(items)).result;
      && r.JArr? && |r.items| == |items|
      && forall k :: 0 <= k < |items| ==>
           Field(r.items[k], "name") == items[k].displayName
           && Field(r.items[k], "lat") == JNum(items[k].lat)
           && Field(r.items[k], "lng") == JNum(items[k].lon)
  {
  }

  /** Whatever the remote tiers do, a search never rejects, and with both
      remote tiers down the answer has at most eight catalogue entries. */
  lemma OfflineSearchIsBounded(query: string)
    requires |query| >= 2
    ensures SearchLocations(query, Fail, Fail).result.JArr?
    ensures |SearchLocations(query, Fail, Fail).result.items| <= MockLimit
    ensures forall j :: j in SearchLocations(query, Fail, Fail).result.items ==>
      exists p :: p in Catalogue() && NameMatches(p, query) && j == PlaceJson(p)
  {
    var items := SearchLocations(query, Fail, Fail).result.items;
    var ps := MockLocations(query);
    forall j | j in items
      ensures exists p :: p in Catalogue() && NameMatches(p, query) && j == PlaceJson(p)
    {
      var k :| 0 <= k < |items| && items[k] == j;
      assert ps[k] in ps;
    }
  }

  // ------------------------------------------------------ sample locations

  /** The shapes `getSampleLocations` recognises; `None` is "unexpected format". */
  function SampleShape(data: Json): (r: Option<seq<Json>>)
    ensures data.JArr? ==> r == Some(data.items)
    ensures !IsObjectLike(data) ==> r == None
  {
    if data.JArr? then Some(data.items)
    else if data.JObj? then
      if Field(data, "locations").JArr? then Some(Field(data, "locations").items)
      else if Field(data, "data").JArr? then Some(Field(data, "data").items)
      else if Field(data, "results").JArr? then Some(Field(data, "results").items)
      else if Truthy(Field(data, "lat")) && Truthy(Field(data, "lng")) then Some([data])
      else None
    else None
  }

  /** `getSampleLocations()`, given what the sample endpoint did. */
  function SampleLocations(reply: Outcome<Json>): (r: seq<Json>)
    ensures reply.Fail? ==> r == PlacesJson(DefaultSamples())
    ensures reply.Ok? && reply.value.JArr? ==> r == reply.value.items
    ensures reply.Ok? && !IsObjectLike(reply.value) ==> r == PlacesJson(DefaultSamples())
  {
    var defaults := PlacesJson(DefaultSamples());
    match reply
    case Ok(data) => (match SampleShape(data) case Some(items) => items case None => defaults)
    case Fail => defaults
  }

  /** The wrapper fields are tried in the order `locations`, `data`,
      `results`, and a single location is recognised only by truthy `lat` and
      `lng`, so a location on the equator (`lat: 0`) falls back to the
      defaults. */
  lemma SampleLocationsPriority(data: Json)
    requires data.JObj?
    ensures Field(data, "locations").JArr? ==> SampleLocations(Ok(data)) == Field(data, "locations").items
    ensures !Field(data, "locations").JArr? && Field(data, "data").JArr? ==>
      SampleLocations(Ok(data)) == Field(data, "data").items
    ensures !Field(data, "locations").JArr? && !Field(data, "data").JArr? && Field(data, "results").JArr? ==>
      SampleLocations(Ok(data)) == Field(data, "results").items
    ensures !Field(data, "locations").JArr? && !Field(data, "data").JArr? && !Field(data, "results").JArr? ==>
      SampleLocations(Ok(data)) ==
        if Truthy(Field(data, "lat")) && Truthy(Field(data, "lng")) then [data] else PlacesJson(DefaultSamples())
  {
    var shape := SampleShape(data);
    assert shape.Some? ==> SampleLocations(Ok(data)) == shape.value;
    assert shape.None? ==> SampleLocations(Ok(data)) == PlacesJson(DefaultSamples());
  }

  // ------------------------------------------------------------- routes

  /** What reaches the `catch` of `calculateRoute`: an axios failure (with
      `error.response` holding the reply data, or only `error.request`), or
      the error thrown for an empty body, which has neither. */
  datatype Caught =
    | AxiosFailure(response: Option<Json>, request: bool)
    | EmptyBody

  /** The message of the `Error` a failed route calculation throws. A
      backend rejection shows `"Backend error: "` followed by `detail` (when
      truthy, through `String`) or by `JSON.stringify` of the reply data; the
      text conversion itself is not modelled. */
  datatype ErrorMessage =
    | Fixed(text: string)
    | BackendError(shown: Json, stringified: bool)

  const NullDetailText := "Cannot read properties of null (reading 'detail')"
  const UndefinedDetailText := "Cannot read properties of undefined (reading 'detail')"

  /** The `catch` block of `calculateRoute`. Reading `detail` of a nullish
      reply body throws a `TypeError` out of the handler (V8 wording). */
  function RouteErrorMessage(c: Caught): (m: ErrorMessage)
    ensures c.AxiosFailure? && c.response.Some? && !Nullish(c.response.value) ==>
      m == (var detail := Field(c.response.value, "detail");
            if Truthy(detail) then BackendError(detail, false) else BackendError(c.response.value, true))
    ensures c.AxiosFailure? && c.response == Some(JNull) ==> m == Fixed(NullDetailText)
    ensures c.AxiosFailure? && c.response == Some(JUndefined) ==> m == Fixed(UndefinedDetailText)
    ensures c.AxiosFailure? && c.response.None? && c.request ==> m == Fixed(CannotConnectText)
    ensures c.EmptyBody? || (c.response.None? && !c.request) ==> m == Fixed(TryAgainText)
  {
    match c
    case AxiosFailure(Some(data), _) =>
      if data.JNull? then Fixed(NullDetailText)
      else if data.JUndefined? then Fixed(UndefinedDetailText)
      else
        var detail := Field(data, "detail");
        if Truthy(detail) then BackendError(detail, false) else BackendError(data, true)
    case AxiosFailure(None, true) => Fixed(CannotConnectText)
    case _ => Fixed(TryAgainText)
  }

  /** The reply to `POST /api/calculate-route`. */
  datatype RouteReply = Replied(data: Json) | Rejected(response: Option<Json>, request: bool)

  const TotalKeys: seq<string> := ["total_duration", "total_distance", "total_cost"]
  const RouteKeys: set<string> := {"total_duration", "total_distance", "total_cost", "steps", "geometry"}

  /** The three totals are all of `typeof` number. */
  predicate HasNumericTotals(d: Json) {
    Field(d, "total_duration").JNum? && Field(d, "total_distance").JNum? && Field(d, "total_cost").JNum?
  }

  /** The fresh object built for a body that failed the numeric check. */
  function Repaired(d: Json): (r: Json)
    ensures r.JObj? && r.fields.Keys == RouteKeys
    ensures Field(r, "steps").JArr?
  {
    JObj(map[
      "total_duration" := Or(Field(d, "total_duration"), JNum(0.0)),
      "total_distance" := Or(Field(d, "total_distance"), JNum(0.0)),
      "total_cost" := Or(Field(d, "total_cost"), JNum(0.0)),
      "steps" := (if Field(d, "steps").JArr? then Field(d, "steps") else JArr([])),
      "geometry" := Or(Field(d, "geometry"), JArr([]))])
  }

  /** `calculateRoute(start, end, preference)`, given the reply. */
  function CalculateRoute(reply: RouteReply): (r: Result<Json, ErrorMessage>)
    // a falsy body is an error, and the generic one, since it is caught by the same catch
    ensures reply.Replied? && !Truthy(reply.data) ==> r == Failure(Fixed(TryAgainText))
    // numeric totals: the body verbatim, `steps` unchecked
    ensures reply.Replied? && Truthy(reply.data) && HasNumericTotals(reply.data) ==> r == Success(reply.data)
    // transport failures go through the catch block
    ensures reply.Rejected? ==> r == Failure(RouteErrorMessage(AxiosFailure(reply.response, reply.request)))
    // every route handed out is an object
    ensures r.Success? ==> r.value.JObj? || (r.value == reply.data && HasNumericTotals(reply.data))
  {
    match reply
    case Rejected(response, request) => Failure(RouteErrorMessage(AxiosFailure(response, request)))
    case Replied(d) =>
      if !Truthy(d) then Failure(RouteErrorMessage(EmptyBody))
      else if HasNumericTotals(d) then Success(d)
      else Success(Repaired(d))
  }

  /** A body failing the numeric check: each total is kept when truthy (so a
      non-number like `"x"` survives) and is 0 otherwise; `steps` is kept
      only when it is an array; `geometry` is kept when truthy. */
  lemma RepairRule(d: Json, key: string)
    requires Truthy(d) && !HasNumericTotals(d)
    requires key in TotalKeys
    ensures CalculateRoute(Replied(d)).Success?
    ensures var r := CalculateRoute(Replied(d)).value;
      && Field(r, key) == (if Truthy(Field(d, key)) then Field(d, key) else JNum(0.0))
      && Field(r, "steps") == (if Field(d, "steps").JArr? then Field(d, "steps") else JArr([]))
      && Field(r, "geometry") == (if Truthy(Field(d, "geometry")) then Field(d, "geometry") else JArr([]))
      && r.fields.Keys == RouteKeys
  {
  }

  /** A non-numeric but truthy total survives the repair: `{total_duration:
      "x"}` becomes `{total_duration: "x", total_distance: 0, total_cost: 0,
      steps: [], geometry: []}`. */
  lemma NonNumericTotalSurvives()
    ensures CalculateRoute(Replied(JObj(map["total_duration" := JStr("x")]))) ==
      Success(JObj(map[
        "total_duration" := JStr("x"), "total_distance" := JNum(0.0), "total_cost" := JNum(0.0),
        "steps" := JArr([]), "geometry" := JArr([])]))
  {
  }

  /** The service accepts its own output unchanged: a route it returned,
      sent back as a reply, comes out identical. */
  lemma {:induction false} CalculateRouteIsIdempotent(reply: RouteReply)
    requires CalculateRoute(reply).Success?
    ensures CalculateRoute(Replied(CalculateRoute(reply).value)) == CalculateRoute(reply)
  {
    var d := reply.data;
    if !HasNumericTotals(d) {
      var r := Repaired(d);
      assert Truthy(r);
      if !HasNumericTotals(r) {
        var rr := Repaired(r);
        forall k | k in RouteKeys ensures rr.fields[k] == r.fields[k] {
          assert Field(r, k) == r.fields[k];
        }
        assert rr.fields == r.fields;
      }
    }
  }

  /** The request body sent to `POST /api/calculate-route`. */
  function RouteRequest(start: Json, end: Json, preference: string): (body: Json)
    ensures Field(body, "start_lat") == Field(start, "lat") && Field(body, "start_lng") == Field(start, "lng")
    ensures Field(body, "end_lat") == Field(end, "lat") && Field(body, "end_lng") == Field(end, "lng")
    ensures Field(body, "preference") == JStr(preference)
  {
    JObj(map[
      "start_lat" := Field(start, "lat"), "start_lng" := Field(start, "lng"),
      "end_lat" := Field(end, "lat"), "end_lng" := Field(end, "lng"),
      "preference" := JStr(preference)])
  }

  // ------------------------------------------------- other endpoints

  datatype TransportMode = TransportMode(id: string, name: string, icon: string, description: string)

  function TransportModeJson(m: TransportMode): Json {
    JObj(map["id" := JStr(m.id), "name" := JStr(m.name), "icon" := JStr(m.icon), "description" := JStr(m.description)])
  }

  function DefaultTransportModes(): seq<TransportMode> {
    [ TransportMode("metro", "Metro", "\U{1F687}", "Delhi Metro"),
      TransportMode("bus", "Bus", "\U{1F68C}", "DTC Bus"),
      TransportMode("walking", "Walking", "\U{1F6B6}", "Walk") ]
  }

  /** `getTransportModes()`: the reply data untouched, or the three built-in
      modes (metro, bus, walking) when the request fails. */
  function TransportModes(reply: Outcome<Json>): (r: Json)
    ensures reply.Ok? ==> r == reply.value
    ensures reply.Fail? ==>
      && r.JArr? && |r.items| == 3
      && Field(r.items[0], "id") == JStr("metro")
      && Field(r.items[1], "id") == JStr("bus")
      && Field(r.items[2], "id") == JStr("walking")
  {
    match reply
    case Ok(data) => data
    case Fail =>
      var ms := DefaultTransportModes();
      JArr([TransportModeJson(ms[0]), TransportModeJson(ms[1]), TransportModeJson(ms[2])])
  }

  /** `checkHealth()`: true exactly when the request succeeded and its data
      has `status === 'healthy'`. A nullish body makes the read throw, which
      the same `catch` turns into `false`. */
  function CheckHealth(reply: Outcome<Json>): (healthy: bool)
    ensures healthy <==> reply.Ok? && Field(reply.value, "status") == JStr("healthy")
  {
    match reply
    case Ok(data) => !Nullish(data) && Field(data, "status") == JStr("healthy")
    case Fail => false
  }

  /** `getBackendInfo()`: the health data, or a connection error. */
  function BackendInfo(reply: Outcome<Json>): (r: Result<Json, ErrorMessage>)
    ensures reply.Ok? <==> r.Success?
    ensures reply.Ok? ==> r.value == reply.value
    ensures reply.Fail? ==> r.error == Fixed("Cannot connect to backend at " + BackendAddress)
  {
    match reply
    case Ok(data) => Success(data)
    case Fail => Failure(Fixed("Cannot connect to backend at " + BackendAddress))
  }

  /** `getCurrentLocation()`: a fix named "Current Location", or `null` when
      geolocation is missing or fails. */
  function CurrentLocation(fix: Outcome<(real, real)>): (r: Option<Place>)
    ensures r.Some? <==> fix.Ok?
    ensures fix.Ok? ==> r.value == Place(fix.value.0, fix.value.1, "Current Location")
  {
    match fix
    case Ok((lat, lng)) => Some(Place(lat, lng, "Current Location"))
    case Fail => None
  }
}
