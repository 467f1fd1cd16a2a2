# VendiMate map core, modelled in Dafny

VendiMate is a map front-end for finding vending machines on campus. It has two map views. The Google Maps view lists machines, picks the nearest one, shows walking directions and drives a Street View panorama. The Mapbox view also picks the nearest machine, and it walks the user through a route step by step. Almost all of the code is glue around the map SDKs. This project models the few pieces of decision logic that sit inside the event handlers and proves properties about them:

- **Route-step navigation** (`RouteHelper`, from `src/library/map/helper.js`). This covers the step cursor of `navigateToStep` with its clamping, and the camera bearing. It covers the modifier-to-icon table with the arrival override, and the instruction record with its rounded distance. It also covers the initial instruction of a new route, `processRouteInformation`, `toggleViewMode` and `showDirections`.
- **Nearest-machine scan** (`NearestScan`). Both views run the same single-pass minimum search. It uses strict `<` and starts from Infinity, so ties go to the earliest entry. An entry with no numeric distance is skipped.
- **Google Maps view** (`GoogleMaps`, `StreetView` and `HtmlText`, from `src/library/map/googleMaps.js`). This covers coordinate sanitising, the nearest scan, and the tag stripping of the first instruction. It covers the wrap-around angular difference, the target heading of a relative turn, and the sorting of panorama links by closeness. It covers the choice of the link to move along, with the 45-degree threshold. It also covers the state resets of hiding Street View and of stopping navigation.
- **Mapbox view** (`MapboxMap`, from `src/library/map/map.js`). This covers the nearest-location record, and the predicates that disable the Prev and Next buttons. It also covers the view's state, kept as a class whose handlers are methods.

Headings are integer degrees. JavaScript's `%` is modelled explicitly (`StreetView.JsRem360`), so each formula means the same as in the source for every integer. The properties about ranges assume headings in [0, 360). The distance estimate and `parseFloat` are function parameters. `NaN` is `None`.

Points where the model follows the code's exact behaviour:
- A link exactly 45 degrees off is not moved to. The code requires `minDiff < 45`.
- Modifiers are the strings `'slight left'`, `'sharp right'` and so on, with a space.
- Sanitising drops only `NaN` coordinates. Infinite ones are not dropped.
- The cursor is not clamped when it already lies outside the route. `CursorStaysInRange` needs it to start inside.

## Model

| member | source | states |
|---|---|---|
| `RouteHelper.NavigationOutcome` | src/library/map/helper.js:13-59 | The cursor is set exactly when there are steps and the direction is 'next' or 'prev'. An instruction and a camera move happen together, and exactly when the target step exists and has a location. The instruction is that step's, and the camera flies to its location with the direction's bearing. |
| `RouteHelper.NavigateToStep` | src/library/map/helper.js:5-60 | The chain of guards and setter calls produces exactly `NavigationOutcome`. |
| `RouteHelper.NextCursor` | src/library/map/helper.js:15-21 | A cursor is produced exactly for a non-empty route and 'next'/'prev'. 'next' never goes past the last index or more than one ahead. 'prev' never goes below 0 or more than one back. |
| `RouteHelper.CursorStaysInRange` | src/library/map/helper.js:15-18 | From a cursor inside the route, the new cursor is inside the route. |
| `RouteHelper.CursorMovesByOne` | src/library/map/helper.js:15-18 | 'next' on the last step and 'prev' on the first leave the cursor unchanged. Anywhere else the cursor moves by exactly one. |
| `RouteHelper.PrevUndoesNext` | src/library/map/helper.js:15-18 | 'prev' after 'next' returns to the start away from the end. 'next' after 'prev' does the same away from the beginning. |
| `RouteHelper.NavigationNoOp` | src/library/map/helper.js:13-21 | Missing or empty steps, or any other direction, give no cursor update, no instruction and no camera move. |
| `RouteHelper.CursorMovesWithoutLocation` | src/library/map/helper.js:23-26 | A target step without a location still gets the cursor, but gets no instruction and no camera move. |
| `RouteHelper.BearingFor` | src/library/map/helper.js:28-33 | The bearing is `bearing_after` for 'next' and `bearing_before` for 'prev', and 0 when absent. |
| `RouteHelper.IconFor` | src/library/map/helper.js:36-43 | An arrival shows the flag. Every other maneuver shows one of the table's arrows. |
| `RouteHelper.DirectionIcon` | src/library/map/helper.js:36-43 | The overwriting chain of `if`s gives the icon of the ordered table, with the arrival override. |
| `RouteHelper.IconOfTableModifier` | src/library/map/helper.js:36-42 | Each table modifier (left, right, slight/sharp left/right) gets its own arrow unless the maneuver is an arrival. |
| `RouteHelper.IconDefaults` | src/library/map/helper.js:36-43 | An arrival gets the flag whatever its modifier. A modifier outside the table, or none, gets the right arrow. |
| `RouteHelper.RoundedDistance` | src/library/map/helper.js:48 | A distance that is missing or 0 gives null. Otherwise the result is the nearest integer, with halves rounded up. |
| `RouteHelper.ZeroDistanceIsNull` | src/library/map/helper.js:128 | A step of 0 metres shows no distance. |
| `RouteHelper.InstructionFor` | src/library/map/helper.js:45-49 | The instruction carries the maneuver's text and one of the known icons. Its distance is null exactly when the step's distance is missing or 0. |
| `RouteHelper.FlyTo` | src/library/map/helper.js:51-58 | The camera flies to the given centre with the given bearing, at zoom 19 and pitch 60, as an essential move of 1000 ms. |
| `RouteHelper.BuildInstruction` | src/library/map/helper.js:36-49 | The record built is icon, instruction text and rounded distance, as `InstructionFor` defines. |
| `RouteHelper.InitialInstruction` | src/library/map/helper.js:113-130 | An instruction exists exactly when the route has a first step, and it is that step's instruction. No location is required. |
| `RouteHelper.InitialAgreesWithNavigation` | src/library/map/helper.js:116-129 | The initial path uses the same table. Its instruction equals what stepping back onto the first step shows. |
| `RouteHelper.ProcessRouteInformation` | src/library/map/helper.js:227-239 | The result holds the first route's distance, duration and geometry and its first leg's steps. It is None (the TypeError) exactly when there is no first route or no first leg. |
| `RouteHelper.ToggleViewMode` | src/library/map/helper.js:72-78 | The result is '2d' exactly for '3d', and '3d' for any other value. |
| `RouteHelper.ToggleViewModeTwice` | src/library/map/helper.js:72-78 | On '2d' and '3d', toggling twice returns the starting mode. |
| `RouteHelper.ShowDirections` | src/library/map/helper.js:62-70 | A selection is made exactly when there is a nearest location. It copies latitude, longitude and id. |
| `NearestScan.FirstMinimum` | src/library/map/googleMaps.js:75-89 | The result is None exactly when no entry has a distance. Otherwise it is the first entry whose distance is ≤ all others, and strictly below every earlier one. |
| `NearestScan.FirstMinimumUnique` | src/library/map/map.js:194-197 | At most one index satisfies the first-minimum property, so the scan's result is determined. |
| `GoogleMaps.ParseCoordinates` | src/library/map/googleMaps.js:57-62 | Each machine keeps its fields and gains `lat`/`lng` parsed from its coordinate strings, in the same order. |
| `GoogleMaps.KeepValid` | src/library/map/googleMaps.js:63 | A machine is kept exactly when it is in the input and both coordinates are numbers. |
| `GoogleMaps.Sanitize` | src/library/map/googleMaps.js:56-64 | The stored list holds only parsed machines with both coordinates. A machine's parsed form is kept exactly when both its coordinate strings parse to numbers. |
| `GoogleMaps.KeepValidAppend` | src/library/map/googleMaps.js:63 | The filter distributes over concatenation, so it keeps the original order. |
| `GoogleMaps.KeepValidFixesValid` | src/library/map/googleMaps.js:63 | A list of valid machines passes unchanged. |
| `GoogleMaps.KeepValidIdempotent` | src/library/map/googleMaps.js:56-64 | Sanitising an already sanitised list changes nothing. |
| `GoogleMaps.Distances` | src/library/map/googleMaps.js:78-84 | A machine with coordinates gets its distance from the user. A machine with a NaN coordinate gets none. |
| `GoogleMaps.FindNearestMachine` | src/library/map/googleMaps.js:75-89 | The result is null exactly when no machine has coordinates. Otherwise it is the first machine with coordinates whose distance is ≤ every other valid machine's. |
| `GoogleMaps.GoogleMapsView.UpdateNearest` | src/library/map/googleMaps.js:73-91 | With no user location or an empty list, `nearest` is left untouched. Otherwise it becomes the scan's result. |
| `GoogleMaps.GoogleMapsView.ReceiveMachines` | src/library/map/googleMaps.js:56-64 | The stored list is the sanitised response, and every entry in it has coordinates. |
| `GoogleMaps.GoogleMapsView.HideStreetView` | src/library/map/googleMaps.js:156-162 | The panel is closed, the position cleared, availability set to true, the links emptied and dragging cleared. Nothing else changes. |
| `GoogleMaps.GoogleMapsView.ToggleNavigation` | src/library/map/googleMaps.js:291-300 | `navigating` flips. Stopping clears `isDragging`; starting leaves it alone. |
| `GoogleMaps.GoogleMapsView.PanoChanged` | src/library/map/googleMaps.js:179-197 | With a mounted panorama, the heading is recorded. The links become a sorted permutation of the reported links, but only when there are some. |
| `GoogleMaps.GoogleMapsView.constructor` | src/library/map/googleMaps.js:25-36 | The initial state: the UCI location, no machines, no nearest machine, not navigating, no panel, availability true, no links, heading 0. |
| `GoogleMaps.MainInstruction` | src/library/map/googleMaps.js:164-176 | The result is '' without directions, a first leg or a first step. Otherwise it is the first step's instructions with tags stripped, and it holds no tag. |
| `HtmlText.StripTags` | src/library/map/googleMaps.js:171-175 | The global replace of `<[^>]+>`. The result is no longer than the input and uses only characters of the input. |
| `HtmlText.StripTagsWithoutAngle` | src/library/map/googleMaps.js:172-175 | A string with no `<` is unchanged. |
| `HtmlText.StripTagsLeavesNoTags` | src/library/map/googleMaps.js:172-175 | After stripping, the pattern matches nowhere. |
| `HtmlText.StripTagsFixesUntagged` | src/library/map/googleMaps.js:172-175 | A string without tags is unchanged. |
| `HtmlText.StripTagsIdempotent` | src/library/map/googleMaps.js:172-175 | Stripping twice gives the same result as stripping once. |
| `StreetView.JsRem360` | src/library/map/googleMaps.js:213 | JavaScript's `% 360` agrees with the mathematical remainder on non-negative operands. It is non-positive and above -360 on negative ones. |
| `StreetView.AngularDiff` | src/library/map/googleMaps.js:228 | The difference is never negative. For headings in [0, 360) it is at most 180. |
| `StreetView.LinkDiff` | src/library/map/googleMaps.js:190-191 | A link's difference from a heading in [0, 360) lies in [0, 180]. |
| `StreetView.AngularDiffIsCircularDistance` | src/library/map/googleMaps.js:228 | For headings in [0, 360), the formula equals the shorter way round the circle, `min(|h-t|, 360-|h-t|)`. |
| `StreetView.AngularDiffProperties` | src/library/map/googleMaps.js:190-191 | For headings in [0, 360), the difference is in [0, 180]. It is 0 exactly when the headings are equal, and it is symmetric. |
| `StreetView.AngularDiffWraps` | src/library/map/googleMaps.js:228 | 350 and 10 degrees are 20 apart, not 340. |
| `StreetView.TargetHeading` | src/library/map/googleMaps.js:208-220 | A target exists exactly for 'forward', 'left' and 'right'. 'forward' keeps the current heading. |
| `StreetView.TargetHeadingProperties` | src/library/map/googleMaps.js:212-217 | 'left' and 'right' aim at headings in [0, 360) that are a quarter turn away, and the two undo each other. 'left' is anticlockwise: a quarter turn clockwise from it gives the heading back. 'right' is the heading plus 90, modulo 360. |
| `StreetView.TargetHeadingExamples` | src/library/map/googleMaps.js:212-217 | From 10 degrees, 'left' aims at 280 and 'right' at 100. |
| `StreetView.SortLinks` | src/library/map/googleMaps.js:189-193 | The copy is sorted ascending by angular difference from the heading, and it is a permutation of the links. |
| `StreetView.ClosestLink` | src/library/map/googleMaps.js:223-233 | The result is the first link with the minimal difference, together with that difference. It is None only when every link is 360 or more off. |
| `StreetView.ClosestLinkExists` | src/library/map/googleMaps.js:223-236 | With headings in [0, 360) and at least one link, some link is closer than the initial 360. |
| `StreetView.MoveStreetView` | src/library/map/googleMaps.js:200-254 | A move happens exactly when the panorama is mounted, there are links, the direction is known and some link is under 45 degrees off the target. The move goes to the first closest link's panorama, facing along that link, with pitch 0. |
| `StreetView.MoveExamples` | src/library/map/googleMaps.js:236 | Seen from 90 degrees, a link at 95 is 5 off and is taken. One at 260 is 170 off, and one at 200 is 110 off, past the threshold. |
| `StreetView.MoveStreetViewExamples` | src/library/map/googleMaps.js:200-254 | Seen from 90 degrees, links at 95 and 260 give a move along the 95-degree link. A single link at 200 gives no move. |
| `MapboxMap.FindNearestLocation` | src/library/map/map.js:176-207 | The record is null exactly when no distance is a number. Otherwise it holds the first nearest location's `x_coordinate`, `y_coordinate`, id and distance. |
| `MapboxMap.MapView.UpdateNearestLocation` | src/library/map/map.js:174-209 | With locations, a user location and some numeric distance, the record becomes the first nearest location's record. Otherwise it is left untouched. |
| `MapboxMap.PrevDisabled` | src/library/map/map.js:380 | Prev is disabled exactly at the one cursor that stepping back leaves unchanged on any non-empty route. |
| `MapboxMap.NextDisabled` | src/library/map/map.js:400-402 | On a route with steps, Next is disabled exactly when stepping on leaves the cursor unchanged. Without steps, it is disabled exactly at cursor 0. |
| `MapboxMap.NextLimit` | src/library/map/map.js:401 | `steps?.length - 1 \|\| 0` is 0 without steps and the last index otherwise (-1 for an empty list). |
| `MapboxMap.PrevDisabledExactlyAtStart` | src/library/map/map.js:380 | On a route with steps, Prev is disabled exactly when pressing it would not move the cursor. |
| `MapboxMap.NextDisabledExactlyAtEnd` | src/library/map/map.js:400-402 | On a route with steps, Next is disabled exactly when pressing it would not move the cursor. |
| `MapboxMap.NextDisabledWithoutSteps` | src/library/map/map.js:401 | Without steps, Next is disabled exactly at cursor 0. With an empty list, it is disabled exactly at -1. |
| `MapboxMap.ButtonStepsAsWritten` | src/library/map/map.js:374 | `route?.legs?.[0]?.steps` on the stored step list is always undefined. |
| `MapboxMap.ButtonsInertAsWritten` | src/library/map/map.js:370-402 | As written, Prev and Next never move the cursor, and Next is disabled exactly at cursor 0. |
| `MapboxMap.NextButtonCounterexample` | src/library/map/map.js:394-401 | On a two-step route at step 0, Next is disabled as written, although stepping on would reach step 1. |
| `MapboxMap.ButtonSteps` | src/library/map/map.js:374 | The corrected button steps are the stored route's steps. |
| `MapboxMap.ButtonsWorkCorrected` | src/library/map/map.js:370-402 | With the correction, Next is enabled before the last step and advances by one. Prev is enabled after the first step and goes back by one. |
| `MapboxMap.MapView.PressStep` | src/library/map/map.js:353-402 | While the navigation bar is hidden (`navigationMode` false), or when the button is disabled, a click changes nothing. Otherwise the cursor and instruction take `navigateToStep`'s values. The cursor stays inside the route. |
| `MapboxMap.MapView.ReceiveRoute` | src/library/map/helper.js:89-130 | With no user location or no destination, nothing changes. Nothing changes either when the response has no first route or leg. Otherwise the steps and coordinates are stored and the cursor is reset to 0. The first step's instruction is shown, and the old one stays when the route has no step. |
| `MapboxMap.MapView.ToggleView` | src/library/map/map.js:339 | The view mode becomes the toggled mode. |
| `MapboxMap.MapView.FindNearest` | src/library/map/map.js:329 | The destination becomes the nearest location's coordinates and id. Without a nearest location, nothing changes. |
| `MapboxMap.MapView.constructor` | src/library/map/map.js:26-41 | The initial state: no locations, the UCI location, no destination, no route, cursor 0, no instruction, mode '3d', navigation bar hidden. The cursor lies in the route. |

## Findings

| source | as written | input that shows it | evidently intended | confidence | as-written member | corrected member |
|---|---|---|---|---|---|---|
| src/library/map/map.js:374 | The Prev/Next buttons pass `route?.legs?.[0]?.steps`, and the Next limit reads the same path (map.js:401). But `route` holds the step list itself, set by `setRoute(routeSteps)` at helper.js:109. A list has no `legs`, so the steps are always undefined. | A route of two steps with the cursor at 0: Next is disabled, and neither button ever moves the cursor. The bar holding the buttons is rendered only while `navigationMode` is true (map.js:353). That flag starts false (map.js:36) and nothing sets it, so a user sees the defect only once the bar is switched on. | Pass the stored steps, `route`, so that Next advances before the last step and Prev goes back after the first. | high, not executed | `MapboxMap.ButtonsInertAsWritten` | `MapboxMap.ButtonsWorkCorrected` |

`MapboxMap.MapView.PressStep` uses the corrected `ButtonSteps`. It ignores every click while `navigationMode` is false, and nothing in the view sets it to true.

## Left out

- The flat-earth distance (cosine, square root, the factors 111.32 and 110.57) is floating point. It is a function parameter, and only the minimum search over it is modelled.
- `parseFloat` is a function parameter, with None standing for `NaN`. Infinite coordinates cannot be expressed, so the model does not show that they pass the `isNaN` filter.
- A step distance of `NaN` cannot be expressed. Only absence and 0 stand for the falsy distances.
- Headings and bearings are integer degrees. The source uses floating-point degrees.
- All network I/O is left out: the coordinates and inventory requests, the directions HTTP call, and their alerts. Responses arrive as method parameters.
- Map-SDK effects are returned as values (`CameraMove`, `PovMove`) or left out. Left out are `addSource`/`addLayer`/`removeLayer`, `fitMapToRoute`, `DirectionsService`, `StreetViewService` (`handleShowStreetView`), `panTo`, and the `computeHeading` of `handlePanoClick`.
- The re-read of the panorama 100 ms after a move (`setTimeout`) is left out, and so are React rendering, markers, popups, the injected CSS and the DOM style changes.
- MapboxMap.MapView.PressStep: no handler of the view sets `navigationMode`, so as written the Prev/Next bar is never shown and `PressStep` changes nothing. The Prev/Next cases are modelled for a bar that has been switched on.
- The call at map.js:372-378 omits the `setCurrentInstruction` argument. This defect is not modelled: `PressStep` applies the instruction that `navigateToStep` computes.
- `step.maneuver` is taken to be always present. In the source, the initial-instruction block would fail without it, and `navigateToStep` would skip the step.
- `GoogleMaps.MainInstruction` requires at least one route when there are directions. The source reads `routes[0]` unguarded, and the directions service reports a result only with a route.
- `StreetView.SortLinks` does not state stability, that links with equal differences keep their input order. JavaScript's sort guarantees it, and the insertion sort keeps it, but the contract proves only sortedness and permutation.
- The user location is an Option in both views so that the source's `!userLocation` guards are modelled. The source always holds a location there.
- The inventory panel, marker clicks, `handleShowRoute`, `handleMapClick` and the other presentational components are outside this model.
