/** The older search form in src/components/Search/SearchPanel.tsx. Against
    the newer panel it searches only from three characters on, after 500 ms,
    stores the search result exactly as returned, has no visibility flags
    (a list shows whenever it is non-empty) and clears the list on select. */
module SearchPanel {
  import opened Common
  import opened Json
  import opened Text
  import BackendService

  /** A search runs only for text strictly longer than this. */
  const SearchAbove := 2
  const DebounceMs := 500

  /** One field's state cells; `suggestions` holds whatever the search
      resolved to, array or not. */
  datatype FieldState = FieldState(
    input: string,
    suggestions: Json,
    timer: Option<string>,
    inFlight: seq<string>,
    location: Option<Json>)

  const Idle := FieldState("", JArr([]), None, [], None)

  predicate TimerIsCurrent(f: FieldState) {
    f.timer.Some? ==> f.timer.value == f.input && |f.input| > SearchAbove
  }

  /** `setInput(text)` and the effect on `[input]`, which runs only when the
      text changed: above two characters a fresh timer replaces the old one,
      otherwise the list is emptied and no timer is left. */
  function Typed(f: FieldState, text: string): (g: FieldState)
    ensures g.input == text && g.location == f.location && g.inFlight == f.inFlight
    ensures f.input == text ==> g == f
    ensures f.input != text && |text| <= SearchAbove ==> g.suggestions == JArr([]) && g.timer == None
    ensures f.input != text && |text| > SearchAbove ==> g.timer == Some(text) && g.suggestions == f.suggestions
    ensures TimerIsCurrent(f) ==> TimerIsCurrent(g)
  {
    if f.input == text then f
    else if |text| > SearchAbove then f.(input := text, timer := Some(text))
    else f.(input := text, timer := None, suggestions := JArr([]))
  }

  function Fired(f: FieldState): (g: FieldState)
    ensures f.timer.None? ==> g == f
    ensures f.timer.Some? ==> g.inFlight == f.inFlight + [f.timer.value] && g.timer == None
    ensures g.input == f.input && g.suggestions == f.suggestions && g.location == f.location
    ensures TimerIsCurrent(g)
  {
    match f.timer
    case None => f
    case Some(q) => f.(timer := None, inFlight := f.inFlight + [q])
  }

  /** The `i`-th outstanding search resolves: its value becomes the list,
      not normalised and not checked against the current text. */
  function Settled(f: FieldState, i: nat, result: Json): (g: FieldState)
    requires i < |f.inFlight|
    ensures g.suggestions == result
    ensures |g.inFlight| == |f.inFlight| - 1
    ensures g.input == f.input && g.timer == f.timer && g.location == f.location
    ensures TimerIsCurrent(f) ==> TimerIsCurrent(g)
  {
    f.(suggestions := result, inFlight := f.inFlight[..i] + f.inFlight[i + 1..])
  }

  /** `location.name || 'Selected Location'` (a string name is assumed). */
  function SelectedName(location: Json): (s: string)
    ensures s != ""
    ensures Field(location, "name").JStr? && Field(location, "name").s != "" ==> s == Field(location, "name").s
    ensures !Truthy(Field(location, "name")) ==> s == "Selected Location"
  {
    var name := Field(location, "name");
    if name.JStr? && name.s != "" then name.s else "Selected Location"
  }

  /** `handleLocationSelect` on one field: the location is taken, the text
      becomes its name and the list is emptied. */
  function Selected(f: FieldState, location: Json): (g: FieldState)
    ensures g.location == Some(location) && g.input == SelectedName(location)
    ensures g.suggestions == JArr([])
    ensures TimerIsCurrent(f) ==> TimerIsCurrent(g)
  {
    Typed(f.(location := Some(location), suggestions := JArr([])), SelectedName(location))
  }

  /** What a field shows under its input: `suggestions.length > 0 &&
      renderSuggestions(...)`. The render throws when `suggestions` is
      nullish (no `length`), when a non-array passes the length test (no
      `map`), and when a listed location cannot draw its labels. */
  datatype ListView = NoList | Items(items: seq<Json>) | RenderFault

  /** `length > 0` for a `length` property an object carries: a positive
      number or `true`. */
  predicate PositiveLength(length: Json) {
    (length.JNum? && length.n > 0.0) || length == JBool(true)
  }

  function View(suggestions: Json): (v: ListView)
    ensures v.Items? <==> suggestions.JArr? && suggestions.items != [] && AllNamesRender(suggestions.items)
    ensures v.Items? ==> v.items == suggestions.items
    ensures v.RenderFault? <==>
      || Nullish(suggestions)
      || (suggestions.JStr? && suggestions.s != "")
      || (suggestions.JObj? && PositiveLength(Field(suggestions, "length")))
      || (suggestions.JArr? && suggestions.items != [] && !AllNamesRender(suggestions.items))
    ensures suggestions.JNum? || suggestions.JBool? ==> v == NoList
  {
    match suggestions
    case JUndefined => RenderFault
    case JNull => RenderFault
    case JArr(items) =>
      if items == [] then NoList
      else if AllNamesRender(items) then Items(items)
      else RenderFault
    case JStr(s) => if s != "" then RenderFault else NoList
    case JObj(_) => if PositiveLength(Field(suggestions, "length")) then RenderFault else NoList
    case _ => NoList
  }

  /** A backend reply that wraps its list in an object is stored as it is
      and shows nothing: this panel does no normalisation. */
  lemma WrappedReplyShowsNothing(f: FieldState, i: nat, list: seq<Json>)
    requires i < |f.inFlight|
    ensures View(Settled(f, i, JObj(map["locations" := JArr(list)])).suggestions) == NoList
  {
  }

  /** The grey line: `name.split(',').slice(1).join(',').trim()`. */
  function Secondary(name: string): (r: string)
    ensures ',' !in name ==> r == ""
    ensures r == [] || (!IsSpace(r[0]) && !IsSpace(r[|r| - 1]))
  {
    Trim(Join(Split(name, ',')[1..], ','))
  }

  /** The name is its primary label, a comma and the untrimmed secondary
      text: nothing after the first segment is lost. */
  lemma {:induction false} LabelsCoverName(name: string)
    requires ',' in name
    ensures name == Primary(name) + "," + Join(Split(name, ',')[1..], ',')
    ensures Secondary(name) == Trim(name[|Primary(name)| + 1..])
  {
    var parts := Split(name, ',');
    JoinSplit(name, ',');
    PrimaryIsFirstSegment(name);
    assert |parts| > 1;
    assert name == parts[0] + [','] + Join(parts[1..], ',');
    assert name[|parts[0]| + 1..] == Join(parts[1..], ',');
  }

  /** The four "Popular Delhi Locations" buttons, each selecting a destination. */
  function QuickLocations(): (r: seq<BackendService.Place>)
    ensures |r| == 4
  {
    [ BackendService.Place(28.6328, 77.2197, "Connaught Place, Delhi"),
      BackendService.Place(28.5450, 77.1925, "IIT Delhi"),
      BackendService.Place(28.6514, 77.1909, "Karol Bagh, Delhi"),
      BackendService.Place(28.6129, 77.2295, "India Gate, Delhi") ]
  }

  datatype RouteCall = RouteCall(start: Json, end: Json, preference: Preference)

  class Panel {
    var start: FieldState
    var end: FieldState
    var preference: Preference

    function Get(side: Side): FieldState
      reads this
    {
      if side == Start then start else end
    }

    ghost predicate Valid()
      reads this
    {
      TimerIsCurrent(start) && TimerIsCurrent(end)
    }

    constructor ()
      ensures Valid()
      ensures start == Idle && end == Idle && preference == Fastest
    {
      start, end, preference := Idle, Idle, Fastest;
    }

    method Put(side: Side, f: FieldState)
      modifies this
      ensures Get(side) == f && Get(side.Other()) == old(Get(side.Other()))
      ensures preference == old(preference)
    {
      if side == Start { start := f; } else { end := f; }
    }

    /** `onChange` of a field; the other field is untouched. */
    method Keystroke(side: Side, text: string)
      requires Valid()
      modifies this
      ensures Valid()
      ensures Get(side) == Typed(old(Get(side)), text)
      ensures Get(side.Other()) == old(Get(side.Other())) && preference == old(preference)
    {
      Put(side, Typed(Get(side), text));
    }

    /** A field's 500 ms timer elapses and its search starts. */
    method Fire(side: Side)
      requires Valid()
      modifies this
      ensures Valid()
      ensures Get(side) == Fired(old(Get(side)))
      ensures Get(side.Other()) == old(Get(side.Other())) && preference == old(preference)
    {
      Put(side, Fired(Get(side)));
    }

    /** The `i`-th outstanding search of a field resolves. */
    method Settle(side: Side, i: nat, result: Json)
      requires Valid()
      requires i < |Get(side).inFlight|
      modifies this
      ensures Valid()
      ensures Get(side) == Settled(old(Get(side)), i, result)
      ensures Get(side.Other()) == old(Get(side.Other())) && preference == old(preference)
    {
      Put(side, Settled(Get(side), i, result));
    }

    method Select(side: Side, location: Json)
      requires Valid()
      modifies this
      ensures Valid()
      ensures Get(side) == Selected(old(Get(side)), location)
      ensures Get(side.Other()) == old(Get(side.Other())) && preference == old(preference)
    {
      Put(side, Selected(Get(side), location));
    }

    /** With a fix, it becomes the start location and the start text is
        literally "Current Location" (whatever the fix is named). */
    method UseCurrentLocation(fix: Option<BackendService.Place>)
      requires Valid()
      modifies this
      ensures Valid()
      ensures fix.None? ==> start == old(start)
      ensures fix.Some? ==>
        start == Typed(old(start).(location := Some(BackendService.PlaceJson(fix.value))), "Current Location")
      ensures end == old(end) && preference == old(preference)
    {
      if fix.Some? {
        start := Typed(start.(location := Some(BackendService.PlaceJson(fix.value))), "Current Location");
      }
    }

    method SetPreference(p: Preference)
      modifies this
      ensures preference == p && start == old(start) && end == old(end)
    {
      preference := p;
    }

    /** `handleSearch`: the route is requested exactly when both locations
        are set. */
    method HandleSearch() returns (call: Option<RouteCall>)
      ensures call.Some? <==> start.location.Some? && end.location.Some?
      ensures call.Some? ==> call.value == RouteCall(start.location.value, end.location.value, preference)
    {
      if start.location.Some? && end.location.Some? {
        call := Some(RouteCall(start.location.value, end.location.value, preference));
      } else {
        call := None;
      }
    }
  }

  /** Two characters are not enough here: "Ka" empties the list and leaves
      no timer, where the newer panel would search. */
  method TwoCharactersDoNotSearch() returns (timer: Option<string>, shown: ListView)
    ensures timer == None && shown == NoList
  {
    var p := new Panel();
    p.Keystroke(End, "Ka");
    timer, shown := p.end.timer, View(p.end.suggestions);
  }
}
