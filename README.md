# Nearby markers: the in-memory marker collections and their rules

This project models, in Dafny, the parts of the map-annotation application
that hold state and decide things:

- the client's marker cache (`MarkerService`): a list of markers bounded to
  the newest 1000 on insertion, a truthiness-based validator, removal by id,
  a full reload, and a registry of callbacks that each receive a copy of the
  list after every change;
- the two server stores: `server/server.js`, a `Map` keyed by the marker's
  `id` (a POST overwrites), and `server.js`, a plain array (a POST appends,
  a DELETE removes every entry with the id);
- the category table and the reference-point holder (`src/types/types.ts`);
- the map view's colour lookup, its click handler (a form opens within
  1000 m of the reference point) and its submit handler;
- the legend's grouping of the category table.

JavaScript values are modelled as `Js.Value`, with truthiness and property
reads written out: reading a property of `undefined` or `null` throws, and
every `marker.id` filter inherits that. Network requests become an input
`Fetch` (rejected, or a response with an `ok` flag and a body that may fail
to parse as JSON). `JSON.parse` is a parameter that returns `None` where the
real one throws. The callbacks registered with the cache are identity
tokens. The calls made to them are recorded in the order they are made.

Two facts the proofs bring out:

- The map view submits a `MarkerFormData` object (`src/components/Map.tsx:223-229`),
  which has no `id`, `proof`, `timestamp` or encoded fields. The cache's
  validator (`src/services/markerService.ts:84`) rejects any object without
  them. So every submission with a pending position ends in the error branch
  and the cache is never changed. `MapView.FormDataIsNeverValid` and
  `MapView.MapComponent.HandleMarkerSubmit` state this.
- `addMarker` validates the marker it is given but appends the server's echo
  unvalidated. `loadMarkers` filters but does not trim to 1000. So neither
  "every cached marker is valid" nor "at most 1000 markers" is an invariant
  of the cache. The bound holds only right after an insertion
  (`Service.AppendKeepsNewest`).

## Model

| member | source | states |
|---|---|---|
| `Js.Prop` | src/services/markerService.ts:88-94 | a property read throws exactly on `undefined`/`null`, yields the own field of an object, and yields `undefined` on other primitives |
| `Js.WithoutId` | server.js:27 | `filter(m => m.id !== id)` throws iff some element's `id` cannot be read; otherwise every kept element lacks the id and comes from the list |
| `Js.WithoutIdCounts` | server.js:27 | each element whose id differs is kept as often as it occurred; each element with the id is dropped |
| `Js.WithoutIdKeepsOrder` | src/services/markerService.ts:74 | the id filter distributes over any split of the list, so the remaining entries keep their relative order |
| `Js.WithoutAbsentId` | server.js:26-28 | removing an id that no entry carries leaves the list equal to before |
| `Js.NaNIdKept` | src/services/markerService.ts:74 | `NaN !== NaN`, so a cached entry whose id is `NaN` is kept by every removal, with its full multiplicity |
| `Js.WithoutIdIdempotent` | server.js:26-28 | a second removal of the same id succeeds and changes nothing |
| `Sequences.Filter` | src/services/markerService.ts:22 | `Array.prototype.filter`: the result is no longer than the input and holds only elements of the input that pass the callback |
| `Sequences.FilterAppend` | src/services/markerService.ts:112 | `filter` distributes over concatenation (order is preserved) |
| `Sequences.FilterCount` | src/services/markerService.ts:112 | `filter` keeps each element that passes with its full multiplicity and drops the others |
| `Sequences.FilterIdempotent` | src/services/markerService.ts:112 | filtering twice with the same callback equals filtering once |
| `Types.CategoryTableIsComplete` | src/types/types.ts:39-47 | the table has 7 rows, each category of the union at exactly one position (ids pairwise distinct), each group one of danger/warning/info/secondary |
| `Types.LiteralsDistinct` | src/types/types.ts:10 | distinct categories stand for distinct string literals |
| `Types.ReferencePointStore.constructor` | src/types/types.ts:50 | the holder starts with no reference point, so `get` returns null before any `set` |
| `Types.ReferencePointStore.Set` | src/types/types.ts:52-54 | after `set(p)` the held point is `p`, overwriting any earlier one |
| `Types.ReferencePointStore.Get` | src/types/types.ts:56-58 | `get` returns the held point and changes nothing |
| `Service.IsValidMarker` | src/services/markerService.ts:82-103 | valid iff the marker is truthy, all five required fields are truthy, and both encoded fields parse to values with truthy latitude/longitude and name/category; a throwing parse or read means invalid |
| `Service.MissingFieldRejected` | src/services/markerService.ts:84-86 | a falsy `id`, `encryptedCoordinates`, `encryptedMetadata`, `timestamp` or `proof` makes the marker invalid |
| `Service.ZeroCoordinateRejected` | src/services/markerService.ts:88-91 | a parsed latitude or longitude of 0 makes the marker invalid |
| `Service.ParseFailureRejected` | src/services/markerService.ts:88-102 | a `JSON.parse` that throws on either encoded field makes the marker invalid |
| `Service.Received` | src/services/markerService.ts:50-52 | a body is received iff the request resolved, the response is ok and its JSON parsed |
| `Service.KeepNewest` | src/services/markerService.ts:55-57 | the trimmed list is the newest `min(length, 1000)` entries of the list, in order |
| `Service.AppendKeepsNewest` | src/services/markerService.ts:53-57 | after append-and-trim the new marker is last, the length is at most 1000, only the oldest entries are dropped and the rest keep their order; below the bound nothing is dropped |
| `Service.MarkerService.constructor` | src/services/markerService.ts:7-8 | the cache starts with no markers, no subscribers and no calls made |
| `Service.MarkerService.GetMarkers` | src/services/markerService.ts:105-107 | returns a fresh array equal to the list, so later writes to it do not reach the cache |
| `Service.MarkerService.NotifySubscribers` | src/services/markerService.ts:116-118 | each subscriber, in registration order, is called once with a copy of the list; list and subscribers unchanged |
| `Service.MarkerService.SubscribeToMarkers` | src/services/markerService.ts:109-114 | appends the callback and returns the closure that unsubscribes it |
| `Service.MarkerService.Unsubscribe` | src/services/markerService.ts:111-113 | removes every registration of the callback and keeps the other subscribers in order |
| `Service.SubscribeThenUnsubscribe` | src/services/markerService.ts:109-114 | subscribing a new callback and then calling the returned closure restores the subscriber list exactly |
| `Service.MarkerService.ClearAllMarkers` | src/services/markerService.ts:120-123 | the list becomes empty and every subscriber gets an empty copy, in order |
| `Service.MarkerService.LoadMarkers` | src/services/markerService.ts:17-28 | on a received JSON array the list becomes its valid entries in order; on any failure (including a non-array body) it is cleared; subscribers are notified once either way |
| `Service.MarkerService.AddMarker` | src/services/markerService.ts:36-64 | an invalid marker throws before any request, with nothing changed or notified; a failed request or unparsable body throws with nothing changed; on success the echo is appended, the list trimmed to the newest 1000, and subscribers notified |
| `Service.MarkerService.RemoveMarker` | src/services/markerService.ts:66-80 | the id is any value (the caller at `src/components/Map.tsx:489` passes a cached marker's `id`); a failed request throws with nothing changed; on success every entry whose id is strictly equal to it is dropped, the rest kept in order, and subscribers notified; an entry whose id cannot be read makes it throw with nothing changed |
| `KeyedServer.ValuesInOrder` | server/server.js:22 | the listing has one value per key, the value stored under that key, in key insertion order |
| `KeyedServer.DistinctKeysCoverMap` | server/server.js:7 | the map's insertion-ordered keys are as many as its entries |
| `KeyedServer.ListIsOnePerKey` | server/server.js:20-23 | GET returns exactly one value per stored key: every listed value is stored and every stored value is listed |
| `KeyedServer.FilterKeepsDistinct` | server/server.js:43 | deleting a key keeps the remaining keys distinct |
| `KeyedServer.MarkerStore.constructor` | server/server.js:7 | the store starts empty |
| `KeyedServer.MarkerStore.List` | server/server.js:20-23 | GET answers 200 with the stored values in key insertion order |
| `KeyedServer.MarkerStore.Post` | server/server.js:26-36 | any body is stored under `body.id`, overwriting an entry with that id in place (never two entries per id), and echoed; a body whose `id` cannot be read gets a 500 and changes nothing |
| `KeyedServer.MarkerStore.Delete` | server/server.js:39-49 | removes the entry for the id and nothing else, answers `{success: true}` whether or not it existed, so a repeat changes nothing |
| `ArrayServer.MarkerStore.constructor` | server.js:7 | the store starts empty |
| `ArrayServer.MarkerStore.List` | server.js:13-15 | GET answers with the array in insertion order |
| `ArrayServer.MarkerStore.Post` | server.js:18-22 | the body is appended unchanged (length grows by one, duplicate ids allowed) and echoed |
| `ArrayServer.MarkerStore.Delete` | server.js:25-29 | every entry with the id is removed, the rest in order, with `{success: true}`; an entry whose id cannot be read escapes to the framework's error page and the array is kept |
| `MapView.FindCategory` | src/components/Map.tsx:257 | the result is the first row whose id equals the category, and none exactly when no row matches |
| `MapView.GetMarkerColor` | src/components/Map.tsx:256-259 | a category no row carries gets `#808080`; any other colour returned is the colour of a row whose id is the category |
| `MapView.ColorOfKnownCategory` | src/components/Map.tsx:256-258 | each category of the union gets the colour of its own table row |
| `MapView.ColorOfUnknownCategory` | src/components/Map.tsx:258 | any other string gets `#808080` |
| `MapView.FormOnlyCategoriesAreGrey` | src/components/Map.tsx:256-258 | the form-only categories `incident`, `service` and `poi` are shown grey |
| `MapView.FormDataIsNeverValid` | src/components/Map.tsx:223-229 | the form data handed to `addMarker` is rejected by the validator whatever `JSON.parse` does |
| `MapView.MapComponent.constructor` | src/components/Map.tsx:108-116 | no form shown, no pending position, no reference point, no error, empty status |
| `MapView.MapComponent.OnUserLocation` | src/components/Map.tsx:120-136 | a known location yields a reference point at that location with radius 1000, stored in the holder and the view |
| `MapView.MapComponent.HandleMapClick` | src/components/Map.tsx:187-206 | the form opens at the click iff a reference point exists and the distance is at most 1000; beyond that the user is alerted and nothing changes |
| `MapView.MapComponent.FailSubmission` | src/components/Map.tsx:234-241 | the catch block sets the error message, hides the form and drops the pending position |
| `MapView.MapComponent.HandleMarkerSubmit` | src/components/Map.tsx:208-242 | without a pending position nothing happens; otherwise the submission always ends in the catch block (form hidden, pending position dropped, error set) and the cache is unchanged |
| `Legend.Push` | src/components/CategoryLegend.tsx:62-66 | one reduce step adds a group exactly when the row's key is not yet present |
| `Legend.Grouped` | src/components/CategoryLegend.tsx:61-67 | the reduce yields at most one group per table row |
| `Legend.PushEffect` | src/components/CategoryLegend.tsx:62-66 | one reduce step appends the row to its own group only, creating the group at the end on first sight |
| `Legend.PushLookup` | src/components/CategoryLegend.tsx:62-66 | one reduce step extends only the row's own group, at its end |
| `Legend.PushKeys` | src/components/CategoryLegend.tsx:62-64 | one reduce step keeps the keys, adding the row's key at the end on first sight |
| `Legend.FirstAppearancesDistinct` | src/components/CategoryLegend.tsx:61-72 | the legend's group keys are pairwise distinct and are exactly the groups occurring in the table |
| `Legend.GroupedPartitions` | src/components/CategoryLegend.tsx:61-67 | the rows under each key are exactly the table's rows of that group, each once, in table order |
| `Legend.GroupedKeyOrder` | src/components/CategoryLegend.tsx:61-72 | groups are listed in order of first appearance in the table, each key once |
| `Legend.GroupCategories` | src/components/CategoryLegend.tsx:61-67 | the in-place reduce computes the grouping |
| `Legend.LegendGroupOrder` | src/components/CategoryLegend.tsx:61-72 | for the category table the groups are danger, warning, info, secondary in that order |
| `Legend.GroupTitle` | src/components/CategoryLegend.tsx:74-79 | a group has a non-empty title iff it is one of the four known groups |

## Left out

- Network and timers: `fetch` is replaced by its outcome (`Fetch`). The five-minute `setInterval` resync and the constructor's first load are each one call of `LoadMarkers`.
- `JSON.parse` is a parameter. `JSON.stringify` of the request body is not modelled: values have no cycles.
- Subscriber callbacks are identity tokens and only their invocation is recorded. A callback that throws, re-enters the cache or unsubscribes during a notification is not modelled.
- `reset()` is `clearAllMarkers()` plus `clearSensitiveData()`, which only touches browser storage. It has no member of its own.
- Console logging everywhere, and the Express setup, CORS, logging and error middleware, `listen` and SIGTERM handling.
- Request bodies are any `Js.Value`. With the JSON body parser's defaults a body is always an object or array, and then the 500 branch of `server/server.js` POST cannot occur.
- `KeyedServer.MarkerStore.Post`: keys are compared by value. A JavaScript `Map` compares object and array keys by identity, so two bodies whose `id` is an equal object would be two entries, not one.
- Numbers inside `Js.Value` are `real` or `NaN`; `-0` and floating-point rounding are not modelled. The `real` fields of `Types.Coordinates`, which `MapView.MapComponent.HandleMarkerSubmit` tests with `!latitude`, have no `NaN`, so a `NaN` coordinate (falsy in JavaScript) is not modelled there.
- `Js.StrictEquals` compares arrays and objects by contents, where `===` compares references: a marker whose `id` is an object is removed by an equal copy of that object in the model, not in JavaScript.
- `Service.MarkerService.GetMarkers` returns a new array of the same values. `[...this.markers]` is a shallow copy whose marker objects are shared with the cache; markers here are immutable values, so a caller's write to a marker object in the copy, which would reach the cache, is not modelled.
- `Js.Prop` reads own data properties only. Inherited properties such as `length` or `constructor` are ignored: no key the core reads is one. The legend's accumulator is likewise safe because its keys are the four fixed group names, which are not numeric, so `Object.entries` lists them in insertion order.
- React state updates are modelled as immediate field assignments. Each handler reads the state once, as its closure would.
- The status-message effect (`src/components/Map.tsx:173-185`), the `try/catch` around setting the reference point (nothing in it can throw) and the alert text.
- Geodesic distance (`getDistance`) and the radius circle drawing: the distance of a click is an input in metres.
- Geolocation (`useUserLocation`), encryption (`src/crypto/encryption.ts`), theming, and all rendering and styling components.
- Four-hour expiry, ownership checks, NotFound/Forbidden answers and a push channel: none is implemented in the code.
