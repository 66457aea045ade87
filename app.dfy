/** The route session held by src/App.tsx: the chosen start and end, the
    route on display, the `isCalculating` flag, and the alerts raised. */
module App {
  import opened Common
  import opened Json
  import opened BackendService
  import ResultsPanel

  /** What the awaited route calculation threw. */
  datatype Thrown = ErrorThrown(message: ErrorMessage) | NonError

  const InvalidRouteAlert := Fixed("Received invalid route data from server")
  const FallbackAlert := Fixed("Failed to calculate route")

  /** `error instanceof Error ? error.message : 'Failed to calculate route'`. */
  function AlertFor(t: Thrown): (m: ErrorMessage)
    ensures t.ErrorThrown? ==> m == t.message
    ensures t.NonError? ==> m == FallbackAlert
  {
    match t
    case ErrorThrown(message) => message
    case NonError => FallbackAlert
  }

  /** `route && typeof route === 'object'`. */
  predicate IsUsableRoute(route: Json) {
    Truthy(route) && IsObjectLike(route)
  }

  /** How the awaited `backendService.calculateRoute` ended. */
  function ServiceOutcome(r: Result<Json, ErrorMessage>): Result<Json, Thrown> {
    match r
    case Success(route) => Success(route)
    case Failure(m) => Failure(ErrorThrown(m))
  }

  /** Every route the backend client resolves to passes the handler's
      check, so the "invalid route data" alert is never raised for it. */
  lemma ServiceRoutesAreUsable(reply: RouteReply)
    ensures CalculateRoute(reply).Success? ==> IsUsableRoute(CalculateRoute(reply).value)
  {
  }

  class Session {
    var startLocation: Option<Json>
    var endLocation: Option<Json>
    var currentRoute: Option<Json>
    var isCalculating: bool
    var alerts: seq<ErrorMessage>

    constructor ()
      ensures startLocation == None && endLocation == None && currentRoute == None
      ensures !isCalculating && alerts == []
    {
      startLocation, endLocation, currentRoute := None, None, None;
      isCalculating, alerts := false, [];
    }

    /** The part of `handleRouteCalculate` before the `await`. */
    method BeginRoute(start: Json, end: Json)
      modifies this
      ensures startLocation == Some(start) && endLocation == Some(end)
      ensures isCalculating && currentRoute == None
      ensures alerts == old(alerts)
      ensures ResultsPanel.Render(currentRoute, isCalculating).Shown?
      ensures ResultsPanel.Render(currentRoute, isCalculating).body == ResultsPanel.Calculating
    {
      startLocation := Some(start);
      endLocation := Some(end);
      isCalculating := true;
      currentRoute := None;
    }

    /** The part after the `await`: a usable route is shown, anything else
        raises one alert and leaves the route as it was; the `finally`
        clears `isCalculating` on every path. */
    method FinishRoute(outcome: Result<Json, Thrown>)
      modifies this
      ensures !isCalculating
      ensures startLocation == old(startLocation) && endLocation == old(endLocation)
      ensures outcome.Success? && IsUsableRoute(outcome.value) ==>
        currentRoute == Some(outcome.value) && alerts == old(alerts)
      ensures outcome.Success? && !IsUsableRoute(outcome.value) ==>
        currentRoute == old(currentRoute) && alerts == old(alerts) + [InvalidRouteAlert]
      ensures outcome.Failure? ==>
        currentRoute == old(currentRoute) && alerts == old(alerts) + [AlertFor(outcome.error)]
    {
      match outcome {
        case Success(route) =>
          if IsUsableRoute(route) {
            currentRoute := Some(route);
          } else {
            alerts := alerts + [InvalidRouteAlert];
          }
        case Failure(t) =>
          alerts := alerts + [AlertFor(t)];
      }
      isCalculating := false;
    }

    /** `handleRouteCalculate(start, end, preference)` against the backend
        client, given the backend's reply. Returns the request it sent. */
    method HandleRouteCalculate(start: Json, end: Json, preference: string, reply: RouteReply)
      returns (request: Json)
      modifies this
      ensures request == RouteRequest(start, end, preference)
      ensures startLocation == Some(start) && endLocation == Some(end) && !isCalculating
      ensures CalculateRoute(reply).Success? ==>
        currentRoute == Some(CalculateRoute(reply).value) && alerts == old(alerts)
      ensures CalculateRoute(reply).Failure? ==>
        currentRoute == None && alerts == old(alerts) + [CalculateRoute(reply).error]
      ensures ResultsPanel.Visible(currentRoute, isCalculating) <==> CalculateRoute(reply).Success?
    {
      BeginRoute(start, end);
      request := RouteRequest(start, end, preference);
      var outcome := CalculateRoute(reply);
      ServiceRoutesAreUsable(reply);
      FinishRoute(ServiceOutcome(outcome));
    }

    /** `handleCloseResults`: drops the route and nothing else. */
    method CloseResults()
      modifies this
      ensures currentRoute == None
      ensures startLocation == old(startLocation) && endLocation == old(endLocation)
      ensures isCalculating == old(isCalculating) && alerts == old(alerts)
      ensures ResultsPanel.Visible(currentRoute, isCalculating) <==> isCalculating
    {
      currentRoute := None;
    }
  }

  /** A backend that cannot be reached: the route stays empty, the alert
      carries the connection message and the flag is down again. */
  method UnreachableScenario(start: Json, end: Json) returns (route: Option<Json>, shown: seq<ErrorMessage>, busy: bool)
    ensures route == None && shown == [Fixed(CannotConnectText)] && !busy
  {
    var s := new Session();
    var _ := s.HandleRouteCalculate(start, end, "fastest", Rejected(None, true));
    route, shown, busy := s.currentRoute, s.alerts, s.isCalculating;
  }
}
