# RouteMaster client core, modelled in Dafny

RouteMaster is a multi-modal journey planner for Delhi. This project models
its browser client, not its user interface:

- the backend client (`backendService.ts`): the location-search fallback
  chain (backend, then Nominatim, then an offline catalogue), the repair
  of partial route bodies, the error messages, the sample-location
  normaliser, and the transport-mode and health fallbacks;
- the two search forms (`SimpleSearchPanel.tsx` and the older
  `SearchPanel.tsx`): their per-field state cells, the debounce effects
  and the selection, focus and click-outside handlers;
- the route session in `App.tsx`;
- the figures and step lines of the results panel (`ResultsPanel.tsx`);
- the direct GraphHopper/Nominatim client (`realDataService.ts`).

Values from the network are a `Json` datatype that carries JavaScript
truthiness, `typeof` and `undefined` property reads (module `Json`). Every
remote call is an input: `Outcome<T> = Ok(value) | Fail` or a richer reply
type. Search results carry the list of requests made, so "no request was
sent" can be stated.

Time is replaced by events. A keystroke arms or re-arms a field's pending
debounce timer, which records the text it will search. `Fire` is that timer
elapsing. `Settle(i, …)` is the `i`-th outstanding search resolving. The
predicate `TimerIsCurrent` holds in every reachable state: a pending timer
always belongs to the current text.

The backend client and the result display are pure and are modelled as
functions and lemmas. The search forms and the App session update state
cells one at a time. They are classes (`SimpleSearchPanel.Panel`,
`SearchPanel.Panel`, `App.Session`) whose methods are specified by
per-field step functions (`Typed`, `Fired`, `Settled`, `Selected`,
`Focused`).

Some behaviours of the code are easy to miss:

- **Stale searches.** No stale search result is discarded. A search that
  fired before a newer keystroke still writes its answer, and
  `SimpleSearchPanel.StaleAnswerIsShown` shows this.
- **Route repair.** The repair keeps any truthy total, even a non-number
  such as `"x"`, rather than resetting it to 0.
- **Nominatim limit.** The backend client asks Nominatim for 8 results.
  The direct client asks for 10.
- **Zero coordinates.** A single location with `lat: 0` is not recognised
  as a location, because 0 is falsy.

The results panel reads `step.instructions` and `step.mode`. The
`RouteStep` interface (src/services/backendService.ts:11-17) and the direct
client name those fields `instruction` and `transport_mode`, so a step in
the interface's shape shows "No instruction", the default colour and no
badge (`ResultsPanel.InterfaceShapedStepShowsDefaults`).

## Model

| member | source | states |
|---|---|---|
| Text.Lower | src/services/backendService.ts:223 | `toLowerCase` keeps the length and lower-cases each ASCII letter in place |
| Text.Includes | src/services/backendService.ts:225 | a needle at the start of the text is included, and an included needle is no longer than the text |
| Text.IncludesIff | src/services/backendService.ts:225 | `includes` holds exactly when the needle occurs at some index |
| Text.Split | src/components/Search/SimpleSearchPanel.tsx:206-209 | `split` gives at least one part, no part holds the separator, the first part is a prefix of the text, and a text without separator is its only part |
| Text.Join | src/components/Search/SimpleSearchPanel.tsx:209 | `join` of no parts is empty; the first part is a prefix of the result, followed by the separator when there are more parts |
| Text.JoinSplit | src/components/Search/SimpleSearchPanel.tsx:206-209 | joining the `split(',')` parts with the separator gives back the name |
| Text.SplitJoin | src/components/Search/SimpleSearchPanel.tsx:206-209 | splitting a join of separator-free parts gives back the parts |
| Text.Trim | src/components/Search/SimpleSearchPanel.tsx:209 | `trim` yields a piece of the text that occurs in it with only white space before and after, and that neither starts nor ends with white space |
| Text.PrimaryIsFirstSegment | src/components/Search/SimpleSearchPanel.tsx:206 | the primary label is the comma-free prefix before the first comma, and it is shorter than the name exactly when the name has a comma |
| Text.Primary | src/components/Search/SimpleSearchPanel.tsx:206 | the bold label is a comma-free prefix of the name, and the whole name when it has no comma |
| Text.Upper | src/components/Results/ResultsPanel.tsx:218 | `toUpperCase` keeps the length and upper-cases each ASCII letter in place |
| Text.UpperKeepsLowerForm | src/components/Results/ResultsPanel.tsx:218 | upper-casing changes nothing that a lower-cased comparison sees |
| BackendService.Catalogue | src/services/backendService.ts:212-221 | the offline catalogue has eight places |
| BackendService.DefaultSamples | src/services/backendService.ts:229-240 | the default sample list has eight places |
| BackendService.FilterMatching | src/services/backendService.ts:224-225 | the filter keeps exactly the entries whose lower-cased name contains the lower-cased query |
| BackendService.Take | src/services/backendService.ts:226 | `slice(0, n)` is the prefix of the list of length min(length, n) |
| BackendService.MockLocations | src/services/backendService.ts:211-227 | at most eight places, and a place is in the result iff it is in the catalogue and its name matches the query case-insensitively |
| BackendService.FilterIsSubsequence | src/services/backendService.ts:224-225 | filtering keeps the original order: the result is a subsequence of the input |
| BackendService.MockLocationsKeepOrder | src/services/backendService.ts:211-227 | the offline result is a subsequence of the catalogue |
| BackendService.NominatimLocation | src/services/backendService.ts:165-169 | an item becomes `{lat, lng, name}` with `name` the item's `display_name` |
| BackendService.NominatimLocations | src/services/backendService.ts:165-169 | one location per item, in order |
| BackendService.SearchLocations | src/services/backendService.ts:133-177 | a query shorter than 2 gives `[]` with no request; a backend answer is returned untouched after one request; otherwise Nominatim is asked for `query + ", Delhi, India"` with limit 8 and its items are mapped; with both down, the catalogue filter is returned |
| BackendService.NominatimTierMapsEachItem | src/services/backendService.ts:153-171 | the Nominatim tier yields one location per item, in order, with the item's name and coordinates |
| BackendService.OfflineSearchIsBounded | src/services/backendService.ts:172-175 | with both remote tiers down the search still resolves to an array of at most eight catalogue places, each matching the query |
| BackendService.SampleShape | src/services/backendService.ts:186-200 | an array is taken as it is; a non-object is not recognised |
| BackendService.SampleLocations | src/services/backendService.ts:180-208 | a failed request or an unrecognised shape gives the eight defaults; an array reply is returned as it is |
| BackendService.SampleLocationsPriority | src/services/backendService.ts:188-203 | for an object the `locations`, `data`, `results` arrays are tried in that order, then a single place with truthy `lat` and `lng`, then the defaults |
| BackendService.RouteErrorMessage | src/services/backendService.ts:101-112 | a reply with data shows `detail` when truthy and the stringified data otherwise; a `null` or `undefined` reply body gives the TypeError text of reading `detail`; a request without reply shows the cannot-connect text; anything else the try-again text |
| BackendService.Repaired | src/services/backendService.ts:89-95 | the repaired route is an object with exactly the five route keys and an array `steps` |
| BackendService.CalculateRoute | src/services/backendService.ts:53-113 | a falsy body fails with the try-again text; numeric totals return the body verbatim; transport failures go through the error mapping; every other success is an object |
| BackendService.RepairRule | src/services/backendService.ts:84-97 | on repair each total is kept when truthy and 0 otherwise, `steps` kept only when an array, `geometry` kept when truthy |
| BackendService.NonNumericTotalSurvives | src/services/backendService.ts:89-95 | `{total_duration: "x"}` is repaired to keep `"x"` and zero the other totals |
| BackendService.CalculateRouteIsIdempotent | src/services/backendService.ts:84-100 | a route the client returned, fed back as a reply, comes out unchanged |
| BackendService.RouteRequest | src/services/backendService.ts:65-71 | the request body carries the start and end coordinates and the preference unchanged |
| BackendService.TransportModes | src/services/backendService.ts:116-130 | the reply data untouched, or the metro, bus and walking defaults on failure |
| BackendService.CheckHealth | src/services/backendService.ts:41-50 | healthy iff the request succeeded and `status` is `"healthy"` |
| BackendService.BackendInfo | src/services/backendService.ts:274-281 | the health data on success, the cannot-connect-to-backend error on failure |
| BackendService.CurrentLocation | src/services/backendService.ts:243-271 | a fix becomes a place named "Current Location"; no fix gives `null` |
| SimpleSearchPanel.EnsureArray | src/components/Search/SimpleSearchPanel.tsx:30-40 | falsy input gives `[]`, an array is returned unchanged, a non-object gives `[]` |
| SimpleSearchPanel.EnsureArrayOnObjects | src/components/Search/SimpleSearchPanel.tsx:33-39 | for an object the first array among `locations`, `data`, `results` wins, else `[data]` when `lat` and `lng` are truthy, else `[]` |
| SimpleSearchPanel.EquatorIsDropped | src/components/Search/SimpleSearchPanel.tsx:37 | a single place with `lat: 0` normalises to `[]` |
| SimpleSearchPanel.EnsureArrayMatchesSampleShape | src/components/Search/SimpleSearchPanel.tsx:30-40 | the panel's normaliser recognises the same shapes as the backend client's sample-location reader and agrees with it wherever a shape is recognised |
| SimpleSearchPanel.EnsureArrayIsStable | src/components/Search/SimpleSearchPanel.tsx:30-40 | normalising twice equals normalising once, and every element comes from the input or one of its wrapper arrays |
| SimpleSearchPanel.LabelsOfFourSegments | src/components/Search/SimpleSearchPanel.tsx:206-209 | for `a,b,c,d` the primary label is `a` and the secondary is `b,c` trimmed |
| SimpleSearchPanel.Secondary | src/components/Search/SimpleSearchPanel.tsx:209 | the grey label is empty for a name without a comma, and never starts or ends with white space |
| SimpleSearchPanel.DefaultLocations | src/components/Search/SimpleSearchPanel.tsx:57-66 | six default destinations |
| SimpleSearchPanel.Typed | src/components/Search/SimpleSearchPanel.tsx:68-91 | unchanged text changes nothing; text shorter than 2 clears and hides the list with no timer; otherwise a timer for exactly this text replaces the old one; the current-timer invariant is kept |
| SimpleSearchPanel.Fired | src/components/Search/SimpleSearchPanel.tsx:75-78 | a pending timer's text joins the searches in flight; without a timer nothing happens |
| SimpleSearchPanel.Settled | src/components/Search/SimpleSearchPanel.tsx:75-88 | a settled search writes `ensureArray(results)` and shows the list, or on rejection clears and hides it, whatever the current text |
| SimpleSearchPanel.SelectedName | src/components/Search/SimpleSearchPanel.tsx:148 | a non-empty string name is taken as it is; a falsy name gives "Selected Location"; the text is never empty |
| SimpleSearchPanel.Selected | src/components/Search/SimpleSearchPanel.tsx:145-155 | the location is taken, the text becomes its name, the panel is hidden, and the suggestion list is kept unless the name is shorter than 2 |
| SimpleSearchPanel.Focused | src/components/Search/SimpleSearchPanel.tsx:165-173 | focus shows the panel only if it was shown or there are suggestions, and changes nothing else |
| SimpleSearchPanel.Panel.constructor | src/components/Search/SimpleSearchPanel.tsx:12-24 | both fields empty, no search running, preference "fastest" |
| SimpleSearchPanel.Panel.Keystroke | src/components/Search/SimpleSearchPanel.tsx:68-116 | the typed field steps by `Typed`; the other field and the shared cells are unchanged |
| SimpleSearchPanel.Panel.Fire | src/components/Search/SimpleSearchPanel.tsx:75-78 | the field steps by `Fired` and the shared searching flag goes up when a timer was pending |
| SimpleSearchPanel.Panel.Settle | src/components/Search/SimpleSearchPanel.tsx:76-87 | the field steps by `Settled`, and the one shared searching flag drops even if the other field is still searching |
| SimpleSearchPanel.Panel.Select | src/components/Search/SimpleSearchPanel.tsx:145-155 | the chosen field steps by `Selected`; nothing else changes |
| SimpleSearchPanel.Panel.UseCurrentLocation | src/components/Search/SimpleSearchPanel.tsx:132-143 | a fix becomes the start location, its name or "Current Location" the start text, and the start panel closes; no fix changes nothing |
| SimpleSearchPanel.Panel.Focus | src/components/Search/SimpleSearchPanel.tsx:165-173 | the field steps by `Focused` and becomes the active search field |
| SimpleSearchPanel.Panel.BlurElapsed | src/components/Search/SimpleSearchPanel.tsx:175-179 | the active search field is cleared and nothing else changes |
| SimpleSearchPanel.Panel.ClickOutside | src/components/Search/SimpleSearchPanel.tsx:118-124 | both panels are hidden and nothing else changes |
| SimpleSearchPanel.Panel.SetPreference | src/components/Search/SimpleSearchPanel.tsx:354 | only the preference changes |
| SimpleSearchPanel.Panel.HandleSearch | src/components/Search/SimpleSearchPanel.tsx:157-163 | the route is requested iff both locations are set, with those locations and the preference |
| SimpleSearchPanel.Panel.View | src/components/Search/SimpleSearchPanel.tsx:181-221 | hidden iff the panel flag is off; the spinner iff shown and the shared search flag is up with this field last focused; otherwise the field's suggestions iff non-empty and every location can draw its labels, a render crash iff non-empty and some location is nullish or has a non-string name, "No locations found" iff empty |
| SimpleSearchPanel.StaleAnswerIsShown | src/components/Search/SimpleSearchPanel.tsx:75-91 | after "Ka" fires and "Kar" is typed, the answer for "Ka" is what the field shows |
| SearchPanel.Typed | src/components/Search/SearchPanel.tsx:30-52 | unchanged text changes nothing; up to 2 characters empty the list with no timer; longer text arms a timer for exactly this text |
| SearchPanel.Fired | src/components/Search/SearchPanel.tsx:32-35 | a pending timer's text joins the searches in flight |
| SearchPanel.Settled | src/components/Search/SearchPanel.tsx:33-34 | the result is stored exactly as returned, whatever the current text |
| SearchPanel.SelectedName | src/components/Search/SearchPanel.tsx:65 | a non-empty string name is taken as it is; a falsy name gives "Selected Location"; the text is never empty |
| SearchPanel.Selected | src/components/Search/SearchPanel.tsx:62-72 | the location is taken, the text becomes its name and the list is emptied |
| SearchPanel.View | src/components/Search/SearchPanel.tsx:82-100 | items show iff the stored result is a non-empty array whose every location can draw its labels; the render crashes iff the result is nullish, a non-empty string, an object whose `length` is positive, or a non-empty array with a nullish location or a non-string name; numbers and booleans show nothing |
| SearchPanel.WrappedReplyShowsNothing | src/components/Search/SearchPanel.tsx:33-34 | a reply wrapping its list in an object shows no list, since nothing normalises it |
| SearchPanel.LabelsCoverName | src/components/Search/SearchPanel.tsx:92-94 | the name is the primary label, a comma and the untrimmed rest; the secondary label is that rest trimmed |
| SearchPanel.Secondary | src/components/Search/SearchPanel.tsx:94 | the grey label is empty for a name without a comma, and never starts or ends with white space |
| SearchPanel.QuickLocations | src/components/Search/SearchPanel.tsx:102-107 | four quick destinations |
| SearchPanel.Panel.constructor | src/components/Search/SearchPanel.tsx:11-17 | both fields empty, preference "fastest" |
| SearchPanel.Panel.Keystroke | src/components/Search/SearchPanel.tsx:30-52 | the typed field steps by `Typed`; the other field is unchanged |
| SearchPanel.Panel.Fire | src/components/Search/SearchPanel.tsx:32-35 | the field steps by `Fired` |
| SearchPanel.Panel.Settle | src/components/Search/SearchPanel.tsx:33-34 | the field steps by `Settled` |
| SearchPanel.Panel.Select | src/components/Search/SearchPanel.tsx:62-72 | the chosen field steps by `Selected` |
| SearchPanel.Panel.UseCurrentLocation | src/components/Search/SearchPanel.tsx:54-60 | a fix becomes the start location and the start text is literally "Current Location" |
| SearchPanel.Panel.SetPreference | src/components/Search/SearchPanel.tsx:189 | only the preference changes |
| SearchPanel.Panel.HandleSearch | src/components/Search/SearchPanel.tsx:74-80 | the route is requested iff both locations are set |
| SearchPanel.TwoCharactersDoNotSearch | src/components/Search/SearchPanel.tsx:31-39 | two characters leave no timer and show no list |
| App.AlertFor | src/App.tsx:37 | an `Error`'s message, or "Failed to calculate route" for any other throw |
| App.ServiceRoutesAreUsable | src/App.tsx:29 | every route the backend client resolves to is a truthy object, so the invalid-data alert never fires for it |
| App.Session.constructor | src/App.tsx:11-14 | no locations, no route, not calculating |
| App.Session.BeginRoute | src/App.tsx:19-22 | start and end are set, the route cleared, the flag raised, and the results panel shows its spinner |
| App.Session.FinishRoute | src/App.tsx:24-40 | a truthy object becomes the route; otherwise exactly one alert is raised (invalid data, or the thrown message) and the route stays; the flag is down on every path |
| App.Session.HandleRouteCalculate | src/App.tsx:16-41 | with the backend's reply: a success is shown with no alert, a failure leaves no route and raises the service's message; the panel is visible iff the calculation succeeded |
| App.Session.CloseResults | src/App.tsx:44-47 | only the route is cleared |
| App.UnreachableScenario | src/App.tsx:16-41 | an unreachable backend leaves no route, one cannot-connect alert and the flag down |
| ResultsPanel.FractionValue | src/components/Results/ResultsPanel.tsx:49-50 | a fraction's digits denote a value in [0, 1) |
| ResultsPanel.FractionValueScaled | src/components/Results/ResultsPanel.tsx:49-50 | the fraction of `d1..dk` moved k decimal places to the left is the integer `d1..dk` (`ResultsPanel.ShiftIsProduct`: moving n places multiplies by 10^n), so `.5` is one half and `.25` one quarter |
| ResultsPanel.LeadingInteger | src/components/Results/ResultsPanel.tsx:29-30 | no match exactly when the text has no digit; a match is the value of the first maximal digit run |
| ResultsPanel.LeadingDecimal | src/components/Results/ResultsPanel.tsx:49-50 | no match exactly when the text has no digit; a match lies between the value of the first digit run and that value plus 1 |
| ResultsPanel.LeadingIntegerOfDecimalText | src/components/Results/ResultsPanel.tsx:29-30 | a written number after digit-free text and before a non-digit is read back as that number, by both patterns when no `.` follows |
| ResultsPanel.LeadingDecimalOfFraction | src/components/Results/ResultsPanel.tsx:49-50 | a written number with a fraction, after digit-free text, is read back with its fraction |
| ResultsPanel.MinutesOf | src/components/Results/ResultsPanel.tsx:24-31 | a number is taken as it is; a string gives a whole non-negative count, 0 when it has no digit; other values give 0 |
| ResultsPanel.SplitMinutes | src/components/Results/ResultsPanel.tsx:33-39 | under 60 the minutes show as they are; otherwise whole hours of at least 1 plus leftover minutes strictly between 0 and 60, or hours alone, accounting for every minute |
| ResultsPanel.FormatDuration | src/components/Results/ResultsPanel.tsx:23-40 | the text shown accounts for exactly the duration read, and shows minutes alone iff under 60 |
| ResultsPanel.DurationTextReadsAsNumber | src/components/Results/ResultsPanel.tsx:23-31 | a duration sent as text such as "45 min" is formatted as the number 45 would be |
| ResultsPanel.OnlyFirstDigitRunCounts | src/components/Results/ResultsPanel.tsx:29-30 | "1 hr 30 min" is read as 1 minute |
| ResultsPanel.MetresOf | src/components/Results/ResultsPanel.tsx:44-51 | a number is taken as it is; a string gives a non-negative value, 0 when it has no digit; other values give 0 |
| ResultsPanel.FormatMetres | src/components/Results/ResultsPanel.tsx:53-57 | the km branch is taken iff the value is at least 1000, showing the value divided by 1000 |
| ResultsPanel.FormatDistance | src/components/Results/ResultsPanel.tsx:43-58 | the text shown accounts for exactly the distance read, in km iff at least 1000 m |
| ResultsPanel.DistanceTextReadsAsNumber | src/components/Results/ResultsPanel.tsx:43-57 | a distance sent as text such as "2500 m" is formatted as the number, and uses km iff it is at least 1000 |
| ResultsPanel.ParseFloat | src/components/Results/ResultsPanel.tsx:108 | a number parses to itself, a string as its text, and any other value gives NaN |
| ResultsPanel.ParseFloatText | src/components/Results/ResultsPanel.tsx:108 | after leading white space a digit gives a non-negative number, and anything but a digit, sign or `.` gives NaN |
| ResultsPanel.SignedPrefix | src/components/Results/ResultsPanel.tsx:108 | a number is read only with a digit among the first three characters; a leading digit reads as the unsigned number |
| ResultsPanel.NoDigitIsNaN | src/components/Results/ResultsPanel.tsx:108 | a text without digits gives NaN |
| ResultsPanel.ParseFloatReadsDecimalText | src/components/Results/ResultsPanel.tsx:108 | white space, a written integer and a tail without digit, `.` or exponent parse back to that integer |
| ResultsPanel.ParseFloatReadsNegative | src/components/Results/ResultsPanel.tsx:108 | the same with a minus sign parses to the negated integer |
| ResultsPanel.ParseFloatReadsFraction | src/components/Results/ResultsPanel.tsx:108 | white space, a written integer, `.` and fraction digits parse back to the integer plus the fraction |
| ResultsPanel.SumDistancesAppend | src/components/Results/ResultsPanel.tsx:107-110 | the total over a split step list is the sum of the totals of the parts |
| ResultsPanel.UnreadableStepsAddNothing | src/components/Results/ResultsPanel.tsx:108-109 | steps whose distance does not parse count 0 |
| ResultsPanel.StepDistance | src/components/Results/ResultsPanel.tsx:108 | a number distance counts as it is, a distance neither number nor string counts 0, and a string starting with a digit counts a non-negative value |
| ResultsPanel.SumDistances | src/components/Results/ResultsPanel.tsx:107-110 | no steps sum to 0 and one step sums to its own distance |
| ResultsPanel.TotalBoundsEachStep | src/components/Results/ResultsPanel.tsx:107-110 | with non-negative step distances the total bounds each step's distance |
| ResultsPanel.NonNegativeSum | src/components/Results/ResultsPanel.tsx:107-110 | non-negative step distances give a non-negative total |
| ResultsPanel.TotalDistance | src/components/Results/ResultsPanel.tsx:107-110 | no route, or nullish `steps`, gives 0; an array of steps gives the sum of their distances; the render throws exactly when `steps` is neither nullish nor an array |
| ResultsPanel.TotalIgnoresRouteDistance | src/components/Results/ResultsPanel.tsx:107-110 | the shown distance ignores `total_distance`: a route with no steps shows 0 |
| ResultsPanel.ModeIcon | src/components/Results/ResultsPanel.tsx:61-76 | the walker iff the mode is `walking`, the train iff `metro`, the bus iff `bus`, the car iff car, cab or taxi, and the pin for every other value |
| ResultsPanel.ModeColour | src/components/Results/ResultsPanel.tsx:78-95 | #64748b iff `walking`, #2563eb iff `metro`, #16a34a iff `bus`, #9333ea iff car, cab or taxi, #f59e0b iff `auto`, and the default #0ea5e9 for every other value |
| ResultsPanel.IconAndColourAgree | src/components/Results/ResultsPanel.tsx:61-95 | the icon fixes the colour except for `auto`, which has its own colour and the default pin; car, cab and taxi share the car colour and icon |
| ResultsPanel.Badge | src/components/Results/ResultsPanel.tsx:211-220 | a badge appears iff the mode is a non-empty string, and shows it upper-cased, the same letters up to case |
| ResultsPanel.ViewStep | src/components/Results/ResultsPanel.tsx:177-225 | the heading is `instructions` or "No instruction"; the cost appears iff truthy; the duration and distance texts follow the two formatters; the colour, icon and badge follow the mode |
| ResultsPanel.ViewSteps | src/components/Results/ResultsPanel.tsx:176 | one line per step, in order |
| ResultsPanel.InterfaceShapedStepShowsDefaults | src/components/Results/ResultsPanel.tsx:177-218 | a step with `instruction` and `transport_mode` shows "No instruction", the default colour, the pin and no badge |
| ResultsPanel.Render | src/components/Results/ResultsPanel.tsx:105-234 | hidden iff not visible; crashes iff visible and `steps` is neither nullish nor an array; the header shows the route's duration, its cost or 0 and the summed step distance; the spinner shows iff calculating; the journey lists every step, or none for nullish `steps` |
| ResultsPanel.Visible | src/components/Results/ResultsPanel.tsx:105 | the panel shows while calculating, and otherwise iff there is a truthy route |
| RealDataService.SearchLocations | src/services/realDataService.ts:34-55 | one location per item, in order, with `name` and `address` both the `display_name`; `[]` on failure |
| RealDataService.ToLocations | src/services/realDataService.ts:45-50 | one location per item, in order |
| RealDataService.AgreesWithBackendTier | src/services/realDataService.ts:45-50 | this client and the backend client's Nominatim tier give an item the same name and coordinates |
| RealDataService.SearchRequest | src/services/realDataService.ts:36-42 | Nominatim is asked for the query as typed, with limit 10, for every query |
| RealDataService.AsksWiderThanBackendTier | src/services/realDataService.ts:36-42 | compared with the backend client's fallback tier, the query has no ", Delhi, India" suffix and the limit is two higher; a query under 2 characters is sent here but not by the backend client |
| RealDataService.MapVehicleToMode | src/services/realDataService.ts:104-111 | `bike` gives bike, `car` gives bus, and every other vehicle walks |
| RealDataService.CostIsLinear | src/services/realDataService.ts:113-122 | the cost is linear in distance at 0 per km for foot and bike, 2 for car and 1.5 otherwise |
| RealDataService.UnlistedVehicleWalksAndPays | src/services/realDataService.ts:104-122 | an unlisted vehicle walks like `foot` yet pays the default rate |
| RealDataService.SwapCoordinates | src/services/realDataService.ts:79-81 | same length and order, each pair swapped |
| RealDataService.SwapIsInvolution | src/services/realDataService.ts:79-81 | swapping twice restores the coordinates |
| RealDataService.ToSteps | src/services/realDataService.ts:84-89 | one step per instruction, in order, with the text, time/1000, the distance and the vehicle's mode |
| RealDataService.CalculateRoute | src/services/realDataService.ts:58-102 | `null` iff the request fails or there is no first path; otherwise totals from the first path, cost by the cost rule, its steps, and a geometry that swaps back to the path's coordinates |
| RealDataService.OnlyFirstPathCounts | src/services/realDataService.ts:74 | later paths do not affect the route |
| RealDataService.CurrentLocation | src/services/realDataService.ts:125-146 | a fix named "Current Location", agreeing with the backend client's reading, or `null` |

## Left out

- Network I/O is not modelled: axios, Nominatim, GraphHopper, `/health` and
  `navigator.geolocation`. Each becomes an input outcome.
- `console` logging and `alert` are not modelled. The App session records
  alert texts in `alerts`.
- Real time is not modelled: the 600 ms and 500 ms debounce delays, the
  15 s and 5 s axios timeouts and the 200 ms blur delay. Each is an event.
- Nominatim sends `lat` and `lon` as strings. `NominatimItem` holds them
  already parsed, so the NaN a malformed coordinate would give is not
  modelled.
- Text lengths count characters, whereas JavaScript counts UTF-16 code
  units. A character outside the Basic Multilingual Plane has length 2 in
  JavaScript and 1 here. So a one-emoji query such as "\u{1F687}" is
  searched by the code, while `BackendService.SearchLocations` makes no
  call for it. The same gap affects the length thresholds of both search
  forms (src/components/Search/SimpleSearchPanel.tsx:69 and :94,
  src/components/Search/SearchPanel.tsx:31 and :43).
- Number-to-text formatting is left out: template literals, `toFixed(1)`,
  `String(detail)` and `JSON.stringify`. The results keep the numbers.
  `ErrorMessage.BackendError` records what would be stringified.
- Floating point is left out: durations, distances and costs are exact
  reals. NaN, infinities and rounding are not modelled.
- ResultsPanel.FractionValue: its own contract gives only the range
  [0, 1). The exact value is stated by `ResultsPanel.FractionValueScaled`.
- ResultsPanel.LeadingDecimal: its own contract bounds the match by the
  first digit run. The exact value of a written number, with or without a
  fraction, is stated by `ResultsPanel.LeadingIntegerOfDecimalText` and
  `ResultsPanel.LeadingDecimalOfFraction`.
- ResultsPanel.ParseFloatText: its own contract says when a number is read
  and when NaN results. Exact values are stated by the three
  `ResultsPanel.ParseFloatReads…` lemmas, for integers, negated integers
  and fractions; a leading `+` and a bare `.5` have no lemma of their own.
- ResultsPanel.Badge: a truthy mode that is not a string gets no badge
  here. The code would throw when calling `toUpperCase` on it.
- ResultsPanel.ParseFloat: an exponent is not read, so `1e3` counts as 1
  where the code reads 1000; `Infinity` and arrays converted through
  `String` count as NaN.
- Case conversion and `trim` cover ASCII letters and the common white-space
  characters only. Unicode case mapping and the full white-space set are
  left out.
- ResultsPanel.Render: does not model the crash when a step is `null` or
  when a mode is truthy but not a string. Only the crash for non-array
  `steps` is modelled.
- SimpleSearchPanel.SelectedName: a truthy non-string `name` is treated
  like an absent one. The code would pass the value into the input.
- SearchPanel.SelectedName: the same simplification for a truthy
  non-string `name`.
- SearchPanel.View: a `length` property that is a string, an array or an
  object is taken as not positive. JavaScript would compare it as a
  number, so `"3"` would pass the test and crash the render.
- SearchPanel.View and SimpleSearchPanel.Panel.View: the crash is
  reported as a single outcome. Which location crashed, and the React
  error boundary, are not modelled.
- The backend status badge ("Demo"/"Live") and `initializeBackend` are
  left out, because they only feed a label. So is the sample-location list
  state, which is set to the defaults either way.
- The minimise and full-screen toggles, JSX, CSS and icons are left out.
  Icons are reduced to a tag.
- The click-outside handler is modelled as an event. The check of which
  element was clicked is left out, and so is React's ref to the last
  rendered suggestion box.
- `RealDataService.CalculateRoute` takes the GraphHopper reply already
  decoded. A body without `paths`, `points` or `instructions` is a `Fail`,
  as the code's `catch` turns it into `null`. The request parameters (the
  "lat,lng" point strings and the API key) are left out.
- `useAppStore.ts` and `MapContainer.tsx` are not part of this model.
