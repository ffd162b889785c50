# Emergency resource locator: a verified model

This project models the core of a small single-page emergency-resource locator in Dafny. The app finds the user's position and makes up 15 nearby mock resources (hospitals, ambulances, blood banks, shelters). It annotates each resource with its distance and sorts the list by it. It then shows the list, filtered by type, both as cards and as map markers.

The model has four modules, one per source file plus one for string rendering:

- `Data` (`data.dfy`, js/data.js): the name pools and type keys, and the resource record. `GenerateResources` is the generator's counted loop. Math.random is replaced by a supplied sequence of `Draw` records. There is one record per iteration. Its type, name, bed and suffix fields are integers already in the range that `Math.floor(Math.random() * k)` yields, and its `offset` is the pair of reals that `randomGeo` adds to the centre.
- `App` (`app.dfy`, js/app.js): the session state is a `Session` class. Its fields are `userLocation`, `allResources` and `currentFilter`, plus the list the render step leaves in the list container. The module also has the start step (annotate, sort), the filter, the card rendering and the geolocation fallback.
- `MapView` (`mapview.dfy`, js/map.js): the module state around the Leaflet calls, as the `MapState` class. It holds the one-time `map` guard, the view centre and zoom, the user marker, the `resourceMarkers` list, and the set of layers the map shows. Leaflet layers are opaque integer handles.
- `Text` (`text.dfy`): `${n}` for non-negative integers, `toFixed(1)` on distances held as whole tenths, and `toUpperCase` on ASCII. The first two come with the parser that inverts them, so names, phone numbers, card element ids and distance texts can be read back. `ToUpper` has no inverse; its contract gives the length and the letter-by-letter mapping.

`calculateDistance` is a parameter `dist: (Coord, Coord) -> nat` that gives whole tenths of a kilometre. The source formats the distance to one decimal (js/data.js:80) and the sort parses it back (js/app.js:64). `Text.ParseTenths` is the model's reading of that parse, and `Text.ParseFormatTenths` proves that it returns exactly the tenths that were formatted. That `parseFloat` of such a string orders the same way as its tenths is assumed, not proved, since `parseFloat` and double arithmetic are not modelled. Under that assumption, sorting on the integer tenths gives the source's order.

## Model

| member | source | states |
|---|---|---|
| Text.NatToString | js/data.js:54 | `${n}` is a non-empty string of decimal digits with no leading zero |
| Text.ParseNatToString | js/data.js:54 | parsing the rendering of n gives back n |
| Text.NatToStringParse | js/data.js:54 | every canonical digit string is the rendering of its value (the other direction of the round trip) |
| Text.NatToStringInjective | js/app.js:116 | different integers render differently, so `res-${id}` tells resources apart |
| Text.FormatTenths | js/data.js:80 | `toFixed(1)` gives digits, a point, and exactly one digit |
| Text.ParseFormatTenths | js/app.js:64 | `parseFloat` of the formatted distance is the same number of tenths |
| Text.Numbered | js/data.js:54 | `${name} ${n}` starts with the name, then one space, then exactly the digits of n |
| Text.SplitNumbered | js/data.js:54 | a split of `"<name> <n>"`, when one exists, rebuilds the string exactly |
| Text.SplitNumberedRoundTrip | js/data.js:54 | every `"<name> <n>"` splits back into that name and that n |
| Text.ToUpper | js/app.js:123 | `type.toUpperCase()` keeps the length, maps each letter, and leaves no lower-case letter |
| Data.TypeKeysAreNameKeys | js/data.js:6-19 | the four type keys are exactly the keys of the name pools, with no repeats |
| Data.Pick | js/data.js:22 | `rand(arr)` with its draw fixed returns an element of `arr` |
| Data.StatusFor | js/data.js:50 | status is Available iff beds > 3, otherwise Critical |
| Data.MakeResource | js/data.js:43-64 | record i has id i, distance 0, the drawn type key, the position randomGeo gives, the drawn bed count, and status Available iff beds > 3 |
| Data.MakeResourceWellFormed | js/data.js:43-64 | record i has id i, a type among the keys, beds in [0,19], status Available iff beds > 3, and distance 0; its name splits into an entry of its type's pool plus a number in [0,99]; its phone is the prefix "+1 555-01" plus a number in [0,98] |
| Data.Batch | js/data.js:39-68 | the batch has 15 records; record i has id i and a type among the four keys |
| Data.BatchWellFormed | js/data.js:39-68 | the batch has 15 records, each well formed; ids are pairwise distinct and lie in [0,14] |
| Data.GenerateResources | js/data.js:39-68 | the loop returns exactly the batch: 15 records, the i-th with id i and distance 0, status tied to beds |
| MapView.PinIcon | js/map.js:10-17 | a type other than the four keys gets the red default pin; each of the four keys gets some other icon |
| MapView.PinIconsDistinct | js/map.js:14-17 | the four types get four different icons, none equal to the default pin |
| MapView.CreateIcon | js/map.js:10-17 | the sequential reassignments of colour and icon class leave exactly the pin of the table |
| MapView.MarkerFor | js/map.js:64-72 | the marker made for a resource carries that type's pin; a click on it flies to the resource's position and passes the resource's id only when a callback was supplied |
| MapView.Click | js/map.js:69-72 | a marker click flies to the marker at zoom 15 and passes the marker's own resource id, only when a callback was supplied |
| MapView.MapState.constructor | js/map.js:5-7 | the module starts with no map, no user marker and no resource markers |
| MapView.MapState.InitMap | js/map.js:30-53 | the first call creates the map at the position, zoom 13, with the user's marker; every later call changes nothing |
| MapView.MapState.ClearMarkers | js/map.js:55-58 | every resource marker leaves the map, the list ends empty, nothing else changes |
| MapView.MapState.AddResourceMarkers | js/map.js:60-76 | one fresh marker per resource, in order, with that resource's position, pin and id; no marker from before stays on the map or in the list |
| MapView.MapState.AddMarker | js/map.js:64-74 | one iteration of the loop: a fresh marker with the resource's position, pin and id goes on the map and at the end of the list |
| MapView.MapState.FlyToLocation | js/map.js:78-80 | recentres at zoom 16 when the map exists, and changes nothing when it was never initialized |
| MapView.MapState.ClickMarker | js/map.js:69-72 | a click on the i-th marker moves the view to it and returns the argument the callback receives |
| App.LocateStart | js/app.js:19-38 | a reported position starts the app there without an alert; a failed request (any error callback) or a missing geolocation starts it at (40.7128, -74.0060) after the matching alert |
| App.Annotate | js/app.js:58-61 | the map keeps length and order; each record gets the distance from the user, and every other field stays as it was |
| App.Insert | js/app.js:64 | one step of the sort: the list grows by one and holds the inserted resource |
| App.SortByDistance | js/app.js:64 | the sort keeps the list's length; App.SortByDistanceCorrect proves order and permutation |
| App.InsertSorted | js/app.js:64 | inserting into a distance-ordered list keeps it ordered |
| App.InsertMultiset | js/app.js:64 | inserting adds exactly that one resource |
| App.SortByDistanceCorrect | js/app.js:64 | the sorted list is non-decreasing by distance and is a permutation of its input |
| App.SortKeepsDistinct | js/app.js:64 | sorting keeps resource ids pairwise distinct |
| App.AnnotateKeepsDistinct | js/app.js:58-61 | attaching distances keeps resource ids pairwise distinct |
| App.StartList | js/app.js:55-64 | the list the start step leaves (batch, then distances, then sort) has 15 resources |
| App.StartedList | js/app.js:55-64 | the list the start step leaves has 15 resources with distinct ids; it is a permutation of the annotated batch, ordered by distance |
| App.FilterByType | js/app.js:94 | the filter keeps exactly the resources of that type and never grows the list |
| App.FilterAppend | js/app.js:94 | filtering a concatenation filters each part and keeps the parts in order, so relative order is preserved |
| App.FilterKeepsMatching | js/app.js:94 | a list whose resources all have the type passes through unchanged |
| App.FilterKeepsDistinct | js/app.js:94 | filtering a list with distinct ids gives a list with distinct ids |
| App.FilterKeepsSorted | js/app.js:92-94 | the filtered subset of a distance-ordered list is still ordered by distance |
| App.Visible | js/app.js:92-94 | with filter 'all' the displayed subset is the whole list; otherwise it holds exactly the resources of that type |
| App.VisibleKeepsDistinct | js/app.js:92-94 | for every filter value, the displayed subset of a list with distinct ids has distinct ids |
| App.BadgeFor | js/app.js:126-127 | the badge reads "● Available" iff the status is Available, otherwise "● Critical / Full", with the matching CSS class |
| App.CardId | js/app.js:116 | the element id is `res-` followed by exactly the decimal digits of the resource id |
| App.CardIdRoundTrip | js/app.js:116 | the card element id `res-<id>` parses back to the resource id |
| App.CardFor | js/app.js:114-130 | the card's element id parses back to the resource's id; it shows the resource's name and phone and the badge for its status |
| App.CardTexts | js/app.js:119-129 | the card's distance text is the one-decimal distance plus " km" and parses back to the distance; the type label is the type upper-cased character by character; the beds text is the bed count's digits plus " Beds" |
| App.BuildList | js/app.js:107-137 | an empty subset leaves only the "No resources found nearby." placeholder; otherwise one card per resource, in order |
| App.CardIdsDistinct | js/app.js:116 | resources with distinct ids get cards with distinct element ids |
| App.FindCard | js/app.js:99 | `getElementById` finds the first card with that element id, or reports that there is none |
| App.MarkerFindsItsCard | js/app.js:97-105 | the id a marker click passes, looked up as `res-${id}`, finds the card of that same resource |
| App.StartedMarkerFindsItsCard | js/app.js:55-105 | after the start step, for every filter value, the id a marker click passes finds the card of that same resource |
| App.Session.constructor | js/app.js:5-7 | the session starts at (0, 0) with no resources and filter 'all' |
| App.Session.Render | js/app.js:87-138 | list and markers both show exactly the filtered subset; no old marker stays on the map |
| App.Session.SetFilter | js/app.js:74-84 | the filter changes and the view is rebuilt for it: the list shows the new subset, there is one fresh marker per resource of it with that resource's position, pin and id, and no previous marker stays on the map; the resource list and the location stay as they were |
| App.Session.StartApp | js/app.js:41-69 | records the location, initializes the map, leaves allResources as the batch annotated and then sorted (`StartList`, whose order, permutation and distinct ids App.StartedList proves), and renders it; an existing map keeps its centre and zoom; the list shows the filtered subset, each marker is the marker for the matching resource of it, and no previous marker stays on the map |
| App.Session.SelectCard | js/app.js:132-134 | clicking a card flies the map to that resource |
| App.Session.FindHelp | js/app.js:19-38 | a failed or unsupported geolocation always starts the session at the fallback coordinate, after the matching alert; the filter is kept, the map is initialized and, on the first start, centred on the start coordinate, while an existing map keeps its view; the started list, the rendered cards and the markers are as for StartApp |
| App.FilterRoundTrip | js/app.js:81-94 | switching to any type and back to 'all' shows the full list again, with one marker per resource in order, and the resources are unchanged |

## Left out

- `Math.random`: it is replaced by the `Draw` sequence. Only the first 15 draws are read, and each must lie in its source range (`Data.ValidDraw`).
- `randomGeo`'s polar sampling, square root and trigonometry: these are floating point. The draw carries the resulting offset, and only the final addition (js/data.js:36) is modelled. The source divides by `Math.cos` of the latitude in degrees, not radians. The model does not reason about that.
- `calculateDistance` and `deg2rad` (haversine): these are floating point. They become the `dist` parameter, in whole tenths of a kilometre.
- All DOM and CSS work: view switching, button labels, class toggling, `innerHTML` markup, `scrollIntoView`, the two-second border highlight. The list container is modelled as a sequence of items.
- `alert` dialogs: the find-help handler returns the alert text instead. `triggerSOS` and its red flash are not modelled, being pure UI.
- Timers: the 500 ms start delay is run at once, so the start step is sequential.
- The asynchronous geolocation callback: its outcome is the `GeoOutcome` input.
- Leaflet internals: map construction, the tile layer, `divIcon` markup, `flyTo` animation and popups. Layers are opaque handles, and `layers` is the set on the map.
- App.SortByDistanceCorrect: it does not state stability, i.e. in what order equal-distance resources stay. The model sorts stably, as Array.prototype.sort does, but no contract promises it.
- App.BuildList: the `meta.beds !== undefined` test (js/app.js:129) is always true in the model, because every generated record has a bed count. The beds line is always present.
- Hospital pins use the default pin's colour `#FF4757`; only the icon classes are all distinct.
- The name suffix is any integer in [0,99], so it may be one digit; the phone suffix is in [0,98]. A filter value outside the four types shows nothing and so renders the placeholder.
- Text.ToUpper: it upper-cases ASCII letters only; other characters pass unchanged. The type keys it is applied to are ASCII, so this covers every value the source passes it.
