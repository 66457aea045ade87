/** The search form in src/components/Search/SimpleSearchPanel.tsx: the
    response normaliser, the suggestion labels, and the per-field state
    cells that the debounce effects, the timer callbacks and the event
    handlers update. Real time is replaced by events: a keystroke (re)arms a
    field's pending timer, `Fire` is that timer elapsing, `Settle` is the
    search promise resolving or rejecting. */
module SimpleSearchPanel {
  import opened Common
  import opened Json
  import opened Text
  import BackendService

  // ------------------------------------------------------------ normaliser

  /** `ensureArray(data)`. */
  function EnsureArray(data: Json): (r: seq<Json>)
    ensures !Truthy(data) ==> r == []
    ensures data.JArr? ==> r == data.items
    ensures !IsObjectLike(data) ==> r == []
  {
    if !Truthy(data) then []
    else if data.JArr? then data.items
    else if data.JObj? then
      if Truthy(Field(data, "locations")) && Field(data, "locations").JArr? then Field(data, "locations").items
      else if Truthy(Field(data, "data")) && Field(data, "data").JArr? then Field(data, "data").items
      else if Truthy(Field(data, "results")) && Field(data, "results").JArr? then Field(data, "results").items
      else if Truthy(Field(data, "lat")) && Truthy(Field(data, "lng")) then [data]
      else []
    else []
  }

  /** For an object: the first of `locations`, `data`, `results` that is an
      array wins; otherwise the object itself when `lat` and `lng` are both
      truthy; otherwise nothing. */
  lemma EnsureArrayOnObjects(data: Json)
    requires data.JObj?
    ensures Field(data, "locations").JArr? ==> EnsureArray(data) == Field(data, "locations").items
    ensures !Field(data, "locations").JArr? && Field(data, "data").JArr? ==>
      EnsureArray(data) == Field(data, "data").items
    ensures !Field(data, "locations").JArr? && !Field(data, "data").JArr? && Field(data, "results").JArr? ==>
      EnsureArray(data) == Field(data, "results").items
    ensures !Field(data, "locations").JArr? && !Field(data, "data").JArr? && !Field(data, "results").JArr? ==>
      EnsureArray(data) == if Truthy(Field(data, "lat")) && Truthy(Field(data, "lng")) then [data] else []
  {
  }

  /** `lat: 0` is falsy, so a single location on the equator is dropped. */
  lemma EquatorIsDropped(lng: real, name: string)
    ensures EnsureArray(JObj(map["lat" := JNum(0.0), "lng" := JNum(lng), "name" := JStr(name)])) == []
  {
  }

  /** The panel's normaliser and the sample-location normaliser of the
      backend client recognise the same shapes; they differ only in what an
      unrecognised shape becomes (nothing here, the defaults there). */
  lemma EnsureArrayMatchesSampleShape(data: Json)
    ensures EnsureArray(data) == BackendService.SampleShape(data).GetOr([])
    ensures BackendService.SampleShape(data).Some? ==>
      BackendService.SampleLocations(Ok(data)) == EnsureArray(data)
  {
  }

  /** Normalising an already normalised list changes nothing, and every
      element of the result is the input itself or an element of the input
      or of one of its three wrapper fields. */
  lemma EnsureArrayIsStable(data: Json)
    ensures EnsureArray(JArr(EnsureArray(data))) == EnsureArray(data)
    ensures forall x :: x in EnsureArray(data) ==>
      || x == data
      || (data.JArr? && x in data.items)
      || (Field(data, "locations").JArr? && x in Field(data, "locations").items)
      || (Field(data, "data").JArr? && x in Field(data, "data").items)
      || (Field(data, "results").JArr? && x in Field(data, "results").items)
  {
  }

  // ------------------------------------------------------------ labels

  /** The grey line: `name.split(',').slice(1, 3).join(',').trim()`. */
  function Secondary(name: string): (r: string)
    ensures ',' !in name ==> r == ""
    ensures r == [] || (!IsSpace(r[0]) && !IsSpace(r[|r| - 1]))
  {
    var parts := Split(name, ',');
    Trim(Join(parts[1..if |parts| < 3 then |parts| else 3], ','))
  }

  /** With comma-free segments `a, b, c, d`, the primary label is `a` and
      the secondary label is `b,c` trimmed: a fourth segment never shows. */
  lemma {:induction false} LabelsOfFourSegments(a: string, b: string, c: string, d: string)
    requires ',' !in a && ',' !in b && ',' !in c && ',' !in d
    ensures Primary(a + "," + b + "," + c + "," + d) == a
    ensures Secondary(a + "," + b + "," + c + "," + d) == Trim(b + "," + c)
  {
    var parts := [a, b, c, d];
    JoinOfFour(a, b, c, d);
    SplitJoin(parts, ',');
    assert parts[1..3] == [b, c];
    assert Join([b, c], ',') == b + "," + c by {
      assert Join([b, c][1..], ',') == c;
    }
  }

  lemma JoinOfFour(a: string, b: string, c: string, d: string)
    ensures Join([a, b, c, d], ',') == a + "," + b + "," + c + "," + d
  {
    var parts := [a, b, c, d];
    assert Join(parts[3..], ',') == d;
    assert Join(parts[2..], ',') == c + "," + d;
    assert Join(parts[1..], ',') == b + "," + c + "," + d;
  }

  // --------------------------------------------------------- default pills

  /** `getDefaultLocations()`: the six "Popular Destinations" pills. */
  function DefaultLocations(): (r: seq<BackendService.Place>)
    ensures |r| == 6
  {
    [ BackendService.Place(28.6328, 77.2197, "Connaught Place"),
      BackendService.Place(28.5450, 77.1925, "IIT Delhi"),
      BackendService.Place(28.6514, 77.1909, "Karol Bagh"),
      BackendService.Place(28.6129, 77.2295, "India Gate"),
      BackendService.Place(28.7041, 77.1025, "Delhi University"),
      BackendService.Place(28.5545, 77.2567, "Hauz Khas") ]
  }

  // ------------------------------------------------------- per-field state

  const MinQueryLength := 2
  const DebounceMs := 600

  /** The state cells of one input field. `timer` is the pending debounce
      timer, holding the text its search will use; `inFlight` lists the
      searches that fired and have not settled, oldest first. */
  datatype FieldState = FieldState(
    input: string,
    suggestions: seq<Json>,
    visible: bool,
    timer: Option<string>,
    inFlight: seq<string>,
    location: Option<Json>)

  const Idle := FieldState("", [], false, None, [], None)

  /** A pending timer always belongs to the current text, which is long
      enough to search: a superseded timer cannot fire. */
  predicate TimerIsCurrent(f: FieldState) {
    f.timer.Some? ==> f.timer.value == f.input && |f.input| >= MinQueryLength
  }

  /** `setInput(text)` followed by the effect on `[input]`: the effect (and
      the cleanup that clears the previous timer) runs only when the text
      changed. */
  function Typed(f: FieldState, text: string): (g: FieldState)
    ensures g.input == text && g.location == f.location && g.inFlight == f.inFlight
    ensures f.input == text ==> g == f
    ensures f.input != text && |text| < MinQueryLength ==>
      g.suggestions == [] && !g.visible && g.timer == None
    ensures f.input != text && |text| >= MinQueryLength ==>
      g.timer == Some(text) && g.suggestions == f.suggestions && g.visible == f.visible
    ensures TimerIsCurrent(f) ==> TimerIsCurrent(g)
  {
    if f.input == text then f
    else if |text| < MinQueryLength then f.(input := text, timer := None, suggestions := [], visible := false)
    else f.(input := text, timer := Some(text))
  }

  /** The debounce timer elapses: its search starts. Nothing happens when
      no timer is pending. */
  function Fired(f: FieldState): (g: FieldState)
    ensures f.timer.None? ==> g == f
    ensures f.timer.Some? ==> g == f.(timer := None, inFlight := f.inFlight + [f.timer.value])
    ensures TimerIsCurrent(g)
  {
    match f.timer
    case None => f
    case Some(q) => f.(timer := None, inFlight := f.inFlight + [q])
  }

  /** The `i`-th outstanding search settles. Its result is written whatever
      the field's text is now: nothing discards a stale answer. */
  function Settled(f: FieldState, i: nat, result: Outcome<Json>): (g: FieldState)
    requires i < |f.inFlight|
    ensures |g.inFlight| == |f.inFlight| - 1
    ensures g.input == f.input && g.timer == f.timer && g.location == f.location
    ensures result.Ok? ==> g.suggestions == EnsureArray(result.value) && g.visible
    ensures result.Fail? ==> g.suggestions == [] && !g.visible
    ensures TimerIsCurrent(f) ==> TimerIsCurrent(g)
  {
    var rest := f.inFlight[..i] + f.inFlight[i + 1..];
    match result
    case Ok(data) => f.(suggestions := EnsureArray(data), visible := true, inFlight := rest)
    case Fail => f.(suggestions := [], visible := false, inFlight := rest)
  }

  /** `location.name || 'Selected Location'` (a string name is assumed). */
  function SelectedName(location: Json): (s: string)
    ensures s != ""
    ensures Field(location, "name").JStr? && Field(location, "name").s != "" ==> s == Field(location, "name").s
    ensures !Truthy(Field(location, "name")) ==> s == "Selected Location"
  {
    var name := Field(location, "name");
    if name.JStr? && name.s != "" then name.s else "Selected Location"
  }

  /** `handleLocationSelect` on one field: the location is taken, the text
      becomes its name, the panel closes; the suggestion list survives
      unless the new text is too short to search. */
  function Selected(f: FieldState, location: Json): (g: FieldState)
    ensures g.location == Some(location) && g.input == SelectedName(location) && !g.visible
    ensures |SelectedName(location)| >= MinQueryLength || f.input == SelectedName(location) ==>
      g.suggestions == f.suggestions
    ensures TimerIsCurrent(f) ==> TimerIsCurrent(g)
  {
    Typed(f.(location := Some(location), visible := false), SelectedName(location))
  }

  /** `handleInputFocus` on one field: the panel reopens only when there is
      something to show. */
  function Focused(f: FieldState): (g: FieldState)
    ensures g.visible == (f.visible || |f.suggestions| > 0)
    ensures g.(visible := f.visible) == f
  {
    if |f.suggestions| > 0 then f.(visible := true) else f
  }

  /** What `renderSuggestions` draws for a field; the render throws when a
      listed location cannot draw its labels. */
  datatype SuggestionView = Hidden | Searching | Items(items: seq<Json>) | NoResults | RenderFault

  /** The call `handleSearch` makes to `onRouteCalculate`. */
  datatype RouteCall = RouteCall(start: Json, end: Json, preference: Preference)

  class Panel {
    var start: FieldState
    var end: FieldState
    var isSearching: bool
    var activeSearch: Option<Side>
    var preference: Preference

    function Get(side: Side): FieldState
      reads this
    {
      if side == Start then start else end
    }

    /** The cells shared by both fields. */
    function Shared(): (bool, Option<Side>, Preference)
      reads this
    {
      (isSearching, activeSearch, preference)
    }

    ghost predicate Valid()
      reads this
    {
      TimerIsCurrent(start) && TimerIsCurrent(end)
    }

    constructor ()
      ensures Valid()
      ensures start == Idle && end == Idle
      ensures !isSearching && activeSearch == None && preference == Fastest
    {
      start, end := Idle, Idle;
      isSearching, activeSearch, preference := false, None, Fastest;
    }

    method Put(side: Side, f: FieldState)
      modifies this
      ensures Get(side) == f && Get(side.Other()) == old(Get(side.Other()))
      ensures Shared() == old(Shared())
    {
      if side == Start { start := f; } else { end := f; }
    }

    /** `onChange` of a field's input. The other field is untouched. */
    method Keystroke(side: Side, text: string)
      requires Valid()
      modifies this
      ensures Valid()
      ensures Get(side) == Typed(old(Get(side)), text)
      ensures Get(side.Other()) == old(Get(side.Other())) && Shared() == old(Shared())
    {
      Put(side, Typed(Get(side), text));
    }

    /** The field's debounce timer elapses and its search starts; the
        single `isSearching` flag goes up. */
    method Fire(side: Side)
      requires Valid()
      modifies this
      ensures Valid()
      ensures Get(side) == Fired(old(Get(side)))
      ensures Get(side.Other()) == old(Get(side.Other()))
      ensures isSearching == (old(isSearching) || old(Get(side)).timer.Some?)
      ensures activeSearch == old(activeSearch) && preference == old(preference)
    {
      var f := Get(side);
      if f.timer.Some? {
        Put(side, Fired(f));
        isSearching := true;
      }
    }

    /** The `i`-th outstanding search of a field settles. `isSearching`
        drops whichever field it was, even if the other field still has a
        search outstanding. */
    method Settle(side: Side, i: nat, result: Outcome<Json>)
      requires Valid()
      requires i < |Get(side).inFlight|
      modifies this
      ensures Valid()
      ensures Get(side) == Settled(old(Get(side)), i, result)
      ensures Get(side.Other()) == old(Get(side.Other()))
      ensures !isSearching && activeSearch == old(activeSearch) && preference == old(preference)
    {
      Put(side, Settled(Get(side), i, result));
      isSearching := false;
    }

    /** A suggestion (or a pill) is chosen for a field. */
    method Select(side: Side, location: Json)
      requires Valid()
      modifies this
      ensures Valid()
      ensures Get(side) == Selected(old(Get(side)), location)
      ensures Get(side.Other()) == old(Get(side.Other())) && Shared() == old(Shared())
    {
      Put(side, Selected(Get(side), location));
    }

    /** "Current" button: with a fix, it becomes the start location and
        its name the start text, and the start panel closes. */
    method UseCurrentLocation(fix: Option<BackendService.Place>)
      requires Valid()
      modifies this
      ensures Valid()
      ensures fix.None? ==> start == old(start)
      ensures fix.Some? ==> start == Typed(old(start).(location := Some(BackendService.PlaceJson(fix.value)), visible := false),
                                           if fix.value.name != "" then fix.value.name else "Current Location")
      ensures end == old(end) && Shared() == old(Shared())
    {
      if fix.Some? {
        var p := fix.value;
        var f := start.(location := Some(BackendService.PlaceJson(p)), visible := false);
        start := Typed(f, if p.name != "" then p.name else "Current Location");
      }
    }

    method Focus(side: Side)
      requires Valid()
      modifies this
      ensures Valid()
      ensures Get(side) == Focused(old(Get(side)))
      ensures Get(side.Other()) == old(Get(side.Other()))
      ensures activeSearch == Some(side) && isSearching == old(isSearching) && preference == old(preference)
    {
      Put(side, Focused(Get(side)));
      activeSearch := Some(side);
    }

    /** The 200 ms blur timer elapses. */
    method BlurElapsed()
      modifies this
      ensures activeSearch == None
      ensures start == old(start) && end == old(end)
      ensures isSearching == old(isSearching) && preference == old(preference)
    {
      activeSearch := None;
    }

    /** A mouse-down outside the suggestion box hides both panels and
        changes nothing else. */
    method ClickOutside()
      requires Valid()
      modifies this
      ensures Valid()
      ensures start == old(start).(visible := false) && end == old(end).(visible := false)
      ensures Shared() == old(Shared())
    {
      start := start.(visible := false);
      end := end.(visible := false);
    }

    method SetPreference(p: Preference)
      modifies this
      ensures preference == p
      ensures start == old(start) && end == old(end)
      ensures isSearching == old(isSearching) && activeSearch == old(activeSearch)
    {
      preference := p;
    }

    /** `handleSearch`: the route is requested exactly when both locations
        are set, with those locations and the current preference. */
    method HandleSearch() returns (call: Option<RouteCall>)
      ensures call.Some? <==> start.location.Some? && end.location.Some?
      ensures call.Some? ==> call.value == RouteCall(start.location.value, end.location.value, preference)
    {
      if start.location.Some? && end.location.Some? {
        call := Some(RouteCall(start.location.value, end.location.value, preference));
      } else {
        call := None;
      }
    }

    /** `renderSuggestions` for a field: nothing when hidden, the spinner
        while searching from this field, else the list or "No locations
        found". The spinner shows in the field last focused, whichever
        field's search raised the shared flag. */
    function View(side: Side): (v: SuggestionView)
      reads this
      ensures v.Hidden? <==> !Get(side).visible
      ensures v.Searching? <==> Get(side).visible && isSearching && activeSearch == Some(side)
      ensures v.Items? <==> (Get(side).visible && !(isSearching && activeSearch == Some(side))
                             && Get(side).suggestions != [] && AllNamesRender(Get(side).suggestions))
      ensures v.Items? ==> v.items == Get(side).suggestions
      ensures v.RenderFault? <==> (Get(side).visible && !(isSearching && activeSearch == Some(side))
                                   && Get(side).suggestions != [] && !AllNamesRender(Get(side).suggestions))
      ensures v.NoResults? <==> (Get(side).visible && !(isSearching && activeSearch == Some(side))
                                 && Get(side).suggestions == [])
    {
      var f := Get(side);
      if !f.visible then Hidden
      else if isSearching && activeSearch == Some(side) then Searching
      else if |f.suggestions| > 0 then
        if AllNamesRender(f.suggestions) then Items(f.suggestions) else RenderFault
      else NoResults
    }
  }

  /** The answer to an older query is still shown: type "Ka", let its timer
      fire, type "Kar", and let the first search settle. */
  method StaleAnswerIsShown(answer: seq<Json>) returns (text: string, shown: seq<Json>)
    ensures text == "Kar" && shown == answer
  {
    var p := new Panel();
    p.Keystroke(Start, "Ka");
    p.Fire(Start);
    p.Keystroke(Start, "Kar");
    p.Settle(Start, 0, Ok(JArr(answer)));
    text, shown := p.start.input, p.start.suggestions;
  }
}
