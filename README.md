# Emergency map widget — a Dafny model

The widget (`sebl-front/kvs.js`) is one page script around a Leaflet map.
It has three buttons:

- **SOS** sends the user's live position to the police and the ambulance
  service as WhatsApp deep links.
- **Medical** and **police** look up hospitals or police stations within 25 km
  with a geodata query. Each result gets a marker on the map, and the page
  opens a prompt listing the results.
- The prompt's **navigate** button asks a routing service for the way to the
  chosen place and draws it as a single route line.

Under the browser glue sits a small state machine. It owns the user's
position, the marker list and the route layer, and it governs what the map
shows. This project models that state machine and proves what its handlers
promise.

Module layout:

- `wrappers.dfy` — `Option`.
- `layers.dfy` — positions, route geometries, and map layers with Leaflet's
  unique layer stamps.
- `messages.dfy` — the emergency text, the map link inside it, the WhatsApp
  deep links, and a parser that inverts them.
- `places.dfy` — search results, the name fallback, and the marker and
  prompt entry made for each result.
- `selectors.dfy` — the page's open selection prompts and what a click on
  a navigate button does. It has two versions: the wiring as written and the
  corrected wiring (see Findings).
- `orchestrator.dfy` — class `Orchestrator`. Its fields are the page
  variables, the Leaflet map as a set of layers, the open prompts, and logs
  of the alerts shown, the links opened and the routes requested. Each event
  handler is a method. `Valid()` ties the map to the variables, and every
  handler keeps it.

Network replies come in as decoded values, as method arguments. A search
reply is `SearchFailed`, `NoElementList` or `Elements(els)`. A route reply is
`RouteFailed` or `Routes(geometries)`. `encodeURIComponent` is the
class's `encode` function, left uninterpreted. Positions are kept as the
decimal text the script would render. The widget's two geolocation
callbacks are the methods `LocationGranted` and `LocationDenied`.

Two facts about the search handler shape its contracts:

- A failed request or failed JSON parse never reaches the clear step, so
  the old markers and route stay (`sebl-front/kvs.js:74-77,101`).
- The map is cleared for an empty result too (`sebl-front/kvs.js:77-82`).

## Model

| member | source | states |
|---|---|---|
| Messages.MapsLink | sebl-front/kvs.js:40 | the map link `https://maps.google.com/?q=<lat>,<lon>` of a position; what it carries is stated by MessageCarriesMapsLink |
| Messages.EmergencyMessage | sebl-front/kvs.js:42 | the fixed emergency header followed by the map link; MapsLinkOf recovers the link from it |
| Messages.WhatsAppLink | sebl-front/kvs.js:56 | the deep link `https://wa.me/<number>?text=<encoded text>`; ParseWhatsAppLinkInverts proves it can be split back into its parts |
| Messages.MapsLinkOf | sebl-front/kvs.js:40-42 | a recovered map link is exactly what follows the fixed emergency header in the message |
| Messages.MessageCarriesMapsLink | sebl-front/kvs.js:38-42 | the emergency message for a position carries that position's `https://maps.google.com/?q=<lat>,<lon>` link, after the fixed header |
| Messages.ParseWhatsAppLink | sebl-front/kvs.js:56 | a parsed link is the `https://wa.me/<number>?text=<text>` link of the number and text it returns, and the number holds no `?` |
| Messages.ParseWhatsAppLinkInverts | sebl-front/kvs.js:56 | building a deep link and parsing it gives back the number and the encoded text, for every number without `?` |
| Messages.SosLinks | sebl-front/kvs.js:38-50 | exactly two links: the first goes to the police number, the second to the ambulance number, and both carry the same encoded emergency message |
| Places.UpperAscii | sebl-front/kvs.js:89 | `toUpperCase` of one character, for ASCII letters; Capitalize states what it makes of the first letter |
| Places.Capitalize | sebl-front/kvs.js:89 | first letter upper-cased (and so not a lower-case letter), the rest and the length unchanged, empty stays empty |
| Places.CapitalizeIdempotent | sebl-front/kvs.js:89 | capitalising twice is capitalising once |
| Places.FallbackLabelsOfSearches | sebl-front/kvs.js:89 | unnamed places are labelled "🏥 Hospital" by the medical search and "🚔 Police" by the police search |
| Places.FallbackLabel | sebl-front/kvs.js:89 | glyph, space and the amenity type with its first letter capitalised; FallbackLabelsOfSearches gives its two values |
| Places.Label | sebl-front/kvs.js:89 | never empty; it is the place's name exactly when the name is present and non-empty, and otherwise the generated fallback label |
| Places.Popup | sebl-front/kvs.js:93 | a marker's popup text: glyph, space, label |
| Places.MarkerFor | sebl-front/kvs.js:91-93 | the marker of one tagged element: at its position, with the popup of its label; PlaceMarkerAt places it in the marker list |
| Places.OptionFor | sebl-front/kvs.js:96 | the prompt entry of one tagged element: its position as value and its label as text; PlaceOptionAt places it in the entry list |
| Places.PlaceMarkers | sebl-front/kvs.js:86-94 | one marker per element |
| Places.PlaceOptions | sebl-front/kvs.js:86-96 | one prompt entry per element |
| Places.Extend | sebl-front/kvs.js:86-96 | handling one more element appends exactly its marker and its entry |
| Places.FirstUntagged | sebl-front/kvs.js:86-89 | every element before the returned index has tags, and the one at the index, if any, has none |
| Places.PlaceMarkerAt | sebl-front/kvs.js:91-94 | the i-th marker is the i-th element's marker, with the i-th stamp after the counter's starting value (consecutive numbering is a modelling choice; the stamp stands for layer identity) |
| Places.PlaceOptionAt | sebl-front/kvs.js:96 | the i-th prompt entry is the i-th element's entry |
| Places.MarkersMatchElements | sebl-front/kvs.js:86-97 | markers follow element order, each a distinct layer with the next stamp of the model's counter, at the elements' positions; entry i names marker i's position, and marker i's popup is the glyph and entry i's label |
| Selectors.Selected | sebl-front/kvs.js:124 | the position named by the dropdown's current value, which is the selected entry's |
| Selectors.RemoveId | sebl-front/kvs.js:128 | after `removeChild`, the page keeps exactly the prompts with another id, and every kept dropdown still has a selection |
| Selectors.ShowAsWritten | sebl-front/kvs.js:105-123 | the new prompt goes to the end of the page; its handler joins the listeners of the first prompt's button; every other field and every other prompt is unchanged |
| Selectors.RunAsWritten | sebl-front/kvs.js:123-129 | the listeners of one button run in registration order; each reads the first remaining prompt's dropdown, asks for a route to it and removes its own prompt; TwoPromptsAsWritten shows the outcome with two prompts |
| Selectors.ClickAsWritten | sebl-front/kvs.js:123-129 | a click on a prompt's button runs the listeners registered on that button |
| Selectors.TwoPromptsAsWritten | sebl-front/kvs.js:121-129 | with two prompts open, the second prompt's button does nothing, and the first prompt's button asks for two routes and closes both prompts |
| Selectors.Show | sebl-front/kvs.js:121-123 | corrected: the new prompt goes to the end of the page with its handler on its own button; ShowKeepsOwned states the invariant it keeps |
| Selectors.Run | sebl-front/kvs.js:123-129 | corrected: each listener reads its own prompt's dropdown, asks for a route to it and removes its own prompt |
| Selectors.Click | sebl-front/kvs.js:123-129 | corrected: a click on a prompt's button runs the listeners registered on it; ClickRoutesOwnChoice states the outcome |
| Selectors.WiringsAgreeOnOnePrompt | sebl-front/kvs.js:121-129 | with only one prompt open, a click does the same under the wiring as written and under the corrected wiring |
| Selectors.ShowKeepsOwned | sebl-front/kvs.js:121-123 | a new prompt with a fresh id keeps every prompt wired only to its own handler |
| Selectors.Lookup | sebl-front/kvs.js:124 | a found prompt is on the page and has the id asked for; when none is found, no prompt has that id |
| Selectors.LookupUnique | sebl-front/kvs.js:124 | with unique ids, a lookup by the k-th prompt's id finds the k-th prompt |
| Selectors.RemoveUnique | sebl-front/kvs.js:128 | removing a prompt whose id is unique takes out that prompt and only it, keeping the order of the others |
| Selectors.RemoveAbsent | sebl-front/kvs.js:128 | removing an id that no prompt has changes nothing |
| Selectors.ClickRoutesOwnChoice | sebl-front/kvs.js:123-129 | a click on the k-th prompt asks for exactly one route, to that prompt's selected place, and closes that prompt and no other |
| Selectors.RemoveAtKeepsOwned | sebl-front/kvs.js:128 | closing one prompt keeps each other prompt, with its selection and its own handler |
| Orchestration.NoneFound | sebl-front/kvs.js:80 | the "none found" alert for an amenity type, with the plural `s` and the 25 km radius |
| Orchestration.RouteReply.HasRoute | sebl-front/kvs.js:153 | the reply parsed and holds at least one route |
| Orchestration.ShownElements | sebl-front/kvs.js:79-97 | the elements that get markers: a prefix of the reply's list, all tagged, ending just before the first element without tags (the whole list when every element has tags), and nothing when there is no list |
| Orchestration.PlacingKeepsConsistent | sebl-front/kvs.js:91-94 | adding freshly stamped place markers to a cleared map keeps the map consistent with the variables |
| Orchestration.MarkElements | sebl-front/kvs.js:86-97 | the loop handles the elements up to the first untagged one and produces exactly their markers, stamped by the model's counter in order, and their entries |
| Orchestration.Orchestrator.constructor | sebl-front/kvs.js:9-29 | nothing is marked, no route, no prompt; the position request is pending when geolocation exists, and otherwise the one alert is "not supported" |
| Orchestration.Orchestrator.LocationGranted | sebl-front/kvs.js:16-23 | the position is stored, and one fresh "📍 You are here" marker is added at it |
| Orchestration.Orchestrator.LocationDenied | sebl-front/kvs.js:25 | one "access denied" alert; the position stays absent |
| Orchestration.Orchestrator.SendWhatsAppMessage | sebl-front/kvs.js:55-58 | exactly one link is opened: the deep link of the number and the encoded message |
| Orchestration.Orchestrator.SendWhatsAppLocation | sebl-front/kvs.js:32-52 | without a position: one alert and no link. With one: the two SOS links, police first, then the confirmation alert |
| Orchestration.Orchestrator.ClearMarkers | sebl-front/kvs.js:133-139 | the tracked markers and the route layer are taken off the map, the marker list is emptied, `routeLayer` keeps its value, and only the user marker can remain |
| Orchestration.Orchestrator.ShowLocationSelector | sebl-front/kvs.js:105-123 | one new prompt with a fresh id is appended, first entry selected; its handler is on its own button, which is the corrected wiring (see Left out) |
| Orchestration.Orchestrator.FetchNearbyPlaces | sebl-front/kvs.js:61-102 | without a position, or when the request fails: one alert and no state change. With a parsed reply: every earlier marker and the route line leave the map, and the shown elements get fresh markers in order. A reply with no list gives the error alert, an empty list gives "none found", an untagged element gives the error alert after the markers before it, and otherwise one prompt lists every element |
| Orchestration.Orchestrator.AddMarkers | sebl-front/kvs.js:91-94 | the placed markers are on the map and tracked, all newer than anything before |
| Orchestration.Orchestrator.ShowPlaces | sebl-front/kvs.js:79-99 | an empty list gives "none found" and no marker; otherwise markers up to the first untagged element; the prompt appears only when every element has tags |
| Orchestration.Orchestrator.CalculateShortestRoute | sebl-front/kvs.js:142-171 | without a position: one alert, no request, no change. A failure or zero routes: one alert, map and route unchanged. Otherwise the old route line is replaced by a fresh line along the first route, followed by the confirmation alert, or by the route error alert when that path is empty (fitting the view to it throws); markers are never touched |
| Orchestration.Orchestrator.DrawRoute | sebl-front/kvs.js:158-165 | the previous route line leaves the map and one fresh line along the route takes its place |
| Orchestration.Orchestrator.Choose | sebl-front/kvs.js:109 | picking an entry changes only that prompt's selection |
| Orchestration.Orchestrator.Navigate | sebl-front/kvs.js:123-129 | one route request, to the prompt's selected place; the prompt closes whatever the reply is; the route outcome is as in CalculateShortestRoute |
| Orchestration.Orchestrator.AtMostOneRouteLine | sebl-front/kvs.js:158-165 | the map never shows more than one route line |

## Left out

- Leaflet rendering is left out: tiles, popups, `setView`, `fitBounds` and the route line's style. The map is a set of layers.
- The DOM building and inline styling of the prompt (`sebl-front/kvs.js:106-120`) are left out. A prompt keeps its parsed entries rather than the option markup string.
- `parseFloat` and the `"lat,lon"` string round trip are left out, because positions stay abstract. The route destination is the selected entry's position.
- `fetch`, the geodata query text, the routing URL and JSON decoding are left out. Replies arrive already decoded.
- A reply element without `lat`/`lon` is not modelled. In the script, Leaflet's marker constructor throws on it before the push (`sebl-front/kvs.js:91`), so it ends like an untagged element: the markers before it stay and the search error alert follows (`sebl-front/kvs.js:101`).
- A route without geometry is not modelled. In the script the old route line is replaced by an empty one (`sebl-front/kvs.js:158-165`), then `fitBounds` throws (`sebl-front/kvs.js:167`) and the route error alert is shown instead of the confirmation (`sebl-front/kvs.js:170`).
- `window.open` becomes an entry in `openedLinks`. `alert` becomes an entry in `alerts`.
- `encodeURIComponent` is an arbitrary function passed to the constructor. Its escaping rules are not modelled.
- The geolocation request is one pending flag, answered once by `LocationGranted` or `LocationDenied`. The denied case also covers errors from the geolocation service.
- Two overlapping searches or route requests from quick re-clicks are not modelled. Each reply is handled in the method call that issues its request, so replies never interleave.
- The button wiring (`sebl-front/kvs.js:173-184`) is not a member. The SOS button calls `SendWhatsAppLocation`. The medical and police buttons call `FetchNearbyPlaces` with `HospitalAmenity`/`HospitalEmoji` and `PoliceAmenity`/`PoliceEmoji`.
- Places.Capitalize: upper-cases ASCII letters only, while `toUpperCase` also maps other scripts. Only the fixed ASCII amenity names reach it.
- Orchestration.Orchestrator.Navigate: the route reply is handled before the prompt is removed, whereas the script removes the prompt first and the reply arrives later. The two steps change disjoint state, so the final state is the same.
- Orchestration.Orchestrator.ShowLocationSelector: puts the new prompt's handler on its own button (the corrected wiring). The script puts it on the first open prompt's button (`sebl-front/kvs.js:123`). The two agree while at most one prompt is open (Selectors.WiringsAgreeOnOnePrompt). A second search that finds places while a prompt is open makes the `selectors` clause differ from the script.
- Orchestration.Orchestrator.ShowLocationSelector: keeps each label as literal entry text. The script splices labels unescaped into `innerHTML` (`sebl-front/kvs.js:96,107-109`). A place name holding markup or an entity (`</option>`, `&lt;`) changes the number or text of the entries, so "one entry per element" holds only for names without markup. Places.OptionFor has the same limit.
- Orchestration.Orchestrator.ShowPlaces: its `selectors` clause, through `Rendered`, uses the corrected wiring and literal labels. It differs from the script once a prompt is already open, or when a name holds markup.
- Orchestration.Orchestrator.FetchNearbyPlaces: its `selectors` clause, through `Rendered`, uses the corrected wiring and literal labels. It differs from the script once a prompt is already open, or when a name holds markup.
- Orchestration.Orchestrator.Navigate: uses the corrected prompt wiring. The wiring as written is modelled in the `Selectors` functions with the `AsWritten` suffix.

## Findings

| source | as written | input that shows it | evidently intended | confidence | as-written member | corrected member |
|---|---|---|---|---|---|---|
| sebl-front/kvs.js:123-129 | every prompt uses the fixed ids `navigateButton` and `locationSelect`, and `getElementById` returns the first prompt's elements, so each new handler is added to the first prompt's button and reads the first remaining dropdown | two searches that both find places, leaving two prompts open | each prompt's button routes to that prompt's own choice and closes only that prompt | high, not executed | Selectors.TwoPromptsAsWritten | Selectors.ClickRoutesOwnChoice |
