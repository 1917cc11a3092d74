# waypoints-poc route resolution, in Dafny

The browser client of waypoints-poc turns two typed locations into a driving
route. It posts the locations to a mock routing backend for a token, polls
the backend with that token until the route stops being "in progress", and
reports the path, total distance and total time, or an error message. The
drawer shows the loading, error and result states of that chain.

This project models the client's logic and proves properties of it:

- `Js` (js.dfy): the JavaScript values the client inspects, with the `in`
  operator, `typeof`, truthiness, plain property access (which throws on
  `null` and `undefined`) and lodash `get` (which first reads a key equal
  to the whole dotted path, and only otherwise walks the keys). `Try` is the outcome of
  a try block: a value returned or a value thrown.
- `Utils` (utils.dfy): `isError`.
- `Api` (api.dfy): the token client `getRouteToken` and the polling client
  `getRoutePathByToken`. Each HTTP exchange is a `Fetch` value:
  - a rejection, with its reason;
  - a non-ok status;
  - an ok response, with its parsed body.

  The poll consumes a finite sequence of answers and either settles on one
  of them or runs out while the route is still in progress.
- `Schemas` (schemas.dfy): the four JSON Schemas of src/utils/schemas.ts,
  held as values of a small draft-07 validator. Each schema has a lemma
  stating in plain terms exactly which values it accepts.
- `MapsApi` (maps_api.dfy): place suggestions (`getAutocompleteSuggestions`)
  and the route polyline request (`getRoutePolyline`). The API key and the
  response are inputs.
- `Conformance` (conformance.dfy): how each schema relates to the client
  check it describes. A schema-valid token body always succeeds. A
  schema-valid path body succeeds unless its status is "in progress",
  which the path schema allows and which makes the client poll again. A
  schema-valid suggestion or route may also carry a literal dotted key,
  which lodash `get` reads first. The clients also accept bodies their
  schema rejects.
- `DrawerContext` (drawer_context.dfy): `DrawerContextProvider` as a class
  whose fields are the provider's state, plus the parent's waypoints and
  mobile-drawer state behind its setter props. `OnSubmit` takes what each
  client call settles to. It returns the calls it awaited, with what the
  context showed meanwhile.
- `DrawerFields` (drawer_fields.dfy): the binding of the two location
  fields to the context values and to the required-flag pair.
- `LocationInput` and `LocationInputs` (location_input.dfy,
  location_inputs.dfy): the current and the older location field.
- `DrawerContent` (drawer_content.dfy): the older drawer, which holds the
  same state itself.

Three behaviours of the code are worth stating:

- **"failure" status.** The poll does not special-case a `"failure"`
  status. Such a body fails the shape check and ends in the generic
  "Failed to fetch route"; the server's `error` text is never shown. The
  repository's tests treat that body as an error state
  (src/utils/api.test.ts:164 and :216).
- **Extra fields.** Neither client rejects extra fields. The token client
  needs only a string `token`. The polling client needs only an array
  `path` and numeric totals, and an empty `path` array passes. Only the
  schemas forbid extra fields, and the clients do not consult them.
- **Dotted keys.** getAutocompleteSuggestions filters with lodash
  `get(suggestion, "placePrediction.text.text")` but maps with the plain
  chain `suggestion.placePrediction.text.text`. A suggestion whose literal
  key "placePrediction.text.text" is truthy passes the filter. The map then
  throws when the nested object is missing, so the whole list becomes
  `null`. When the nested text is present, the map returns it, even empty.
  getRoutePolyline likewise returns the string under a literal key
  "polyline.encodedPolyline" of the first route.

## Model

| member | source | states |
|---|---|---|
| Js.GetPath | src/utils/mapsApi.ts:56-57 | wherever the key-by-key walk reaches a defined value, the plain property chain reaches the same value without throwing; wherever the chain does not throw, it reaches what the walk does |
| Js.Member | src/utils/mapsApi.ts:57 | a plain property access throws exactly on `null` and `undefined` and otherwise reads the property, or `undefined` |
| Js.LodashGetPlainKeys | src/utils/mapsApi.ts:53 | on an object none of whose keys holds a ".", lodash `get` of a dotted path is the key-by-key walk |
| Js.In | src/utils/api.ts:31 | `key in v` throws exactly on non-objects (primitives, null, undefined); it is true exactly for an object holding the key |
| Utils.IsError | src/utils/utils.ts:5-9 | a value is error-like exactly when it is an object whose `message` property is a string |
| Utils.IsErrorCases | src/utils/utils.ts:5-9 | null and undefined are not errors; nothing whose typeof is not "object" is, a string included; an object without `message` or with a non-string `message` is not; any string `message`, even "", makes an error, as does `new Error(m)` |
| Api.PostRouteResponse.Status | src/utils/api.ts:3-11 | the status tag is "SUCCESS" exactly for a token and "ERROR" exactly for an error message |
| Api.GetRouteResponse.Status | src/utils/api.ts:55-65 | the status tag is "SUCCESS" exactly for a path result and "ERROR" exactly for an error message |
| Api.CatchMessage | src/utils/api.ts:41-46 | a caught string becomes the message itself; any other caught value gives the fallback |
| Api.GetRouteToken | src/utils/api.ts:13-53 | success exactly when the response is ok and the body has a string `token`, which is returned as is; otherwise an error whose message is the rejection reason when that is a string and the origin/destination fallback otherwise |
| Api.TokenClientCases | src/utils/api.test.ts:7-81 | a `{token}` body gives that token; a body without a token, a rejection with an object reason and a non-ok status all give the fallback message naming origin and destination |
| Api.TokenIgnoresOtherFields | src/utils/api.ts:31-40 | two ok bodies that agree on `token` give the same result, whatever their other fields |
| Api.PollStep | src/utils/api.ts:79-89 | an answer asks for another fetch exactly when it is ok with an object body whose `status` is "in progress" |
| Api.Respond | src/utils/api.ts:91-122 | a settling answer succeeds exactly when it is ok with an array `path` and numeric `total_distance` and `total_time`, returned under the client's names; otherwise an error whose message is the rejection reason when that is a string and "Failed to fetch route" otherwise |
| Api.GetRoutePathByToken | src/utils/api.ts:67-124 | the poll keeps polling exactly while every answer so far is "in progress"; otherwise it settles on the first answer that is not, after exactly that many fetches, and the result is that answer's handling |
| Api.InProgressPrefix | src/utils/api.ts:81-89 | any run of "in progress" answers before the rest only adds to the fetch count and leaves the result unchanged |
| Api.LaterAnswersUnread | src/utils/api.ts:81-89 | once the poll has settled, answers the server would have given later change nothing |
| Api.ThreeInProgressThenSuccess | __tests__/api.test.tsx:79-157 | three "in progress" answers then a route give success with that route after 4 fetches |
| Api.FailureBodyDropsServerText | src/utils/api.ts:91-117 | a `{status: "failure", error}` body after any number of "in progress" answers ends in "Failed to fetch route"; the server's text is dropped |
| Api.FailedFetchEndsPoll | src/utils/api.ts:72-77 | a rejection or non-ok status after any number of "in progress" answers ends the poll there with an error; a non-string reason or a bad status gives "Failed to fetch route" |
| Api.PathIgnoresOtherFields | src/utils/api.ts:81-111 | two ok bodies that agree on `status`, `path`, `total_distance` and `total_time` are handled alike, so extra fields such as `status: "success"` are tolerated |
| Schemas.TypeOnlyAccepts | src/utils/schemas.ts:11 | a schema holding only `type` accepts exactly the values of that JSON type |
| Schemas.TokenSchemaAccepts | src/utils/schemas.ts:8-15 | the token schema accepts exactly objects whose only key is `token` with a string value |
| Schemas.CoordinateSchemaAccepts | src/utils/schemas.ts:31-36 | a path element is valid exactly when it is an array of two strings |
| Schemas.PathArraySchemaAccepts | src/utils/schemas.ts:29-37 | `path` is valid exactly when it is a non-empty array of two-string arrays |
| Schemas.PathSchemaAccepts | src/utils/schemas.ts:24-44 | the path schema accepts exactly objects with the keys status, path, total_distance and total_time and no others, a string status, a valid `path` and numeric totals |
| Schemas.TextSchemaAccepts | src/utils/schemas.ts:71-79 | the inner `text` object is valid exactly when it is an object with a string `text` |
| Schemas.PlacePredictionSchemaAccepts | src/utils/schemas.ts:68-83 | `placePrediction` is valid exactly when it is an object whose `text.text` is a string, whatever else it holds |
| Schemas.SuggestionSchemaAccepts | src/utils/schemas.ts:65-87 | a suggestion is valid exactly when it is an object with a valid `placePrediction` and no key named "additionalProperties"; the `false` at line 84 declares a property of that name and forbids no other key |
| Schemas.AutocompleteSchemaAccepts | src/utils/schemas.ts:59-91 | the autocomplete schema accepts exactly objects with a `suggestions` array of valid suggestions, extra top-level keys allowed |
| Schemas.RouteSchemaAccepts | src/utils/schemas.ts:110-125 | a route is valid exactly when it is an object whose `polyline.encodedPolyline` is a string, extra keys allowed |
| Schemas.PolylineSchemaAccepts | src/utils/schemas.ts:104-131 | the polyline schema accepts exactly objects with a non-empty `routes` array of valid routes, extra keys allowed |
| MapsApi.PlainSuggestionRead | src/utils/mapsApi.ts:50-58 | for a suggestion without the literal dotted key, whenever the filter's text is truthy the map reads that same text without throwing |
| MapsApi.WithText | src/utils/mapsApi.ts:50-54 | the filter keeps only suggestions drawn from the input, each with a truthy `get(s, "placePrediction.text.text")`, and never more than it was given |
| MapsApi.MapTexts | src/utils/mapsApi.ts:56-58 | the map succeeds exactly when every kept suggestion's plain read succeeds, and then gives those reads, one per suggestion, in order |
| MapsApi.SuggestionTexts | src/utils/mapsApi.ts:50-58 | when no suggestion carries the literal dotted key, the map cannot throw and gives, for each kept suggestion, the truthy text the filter checked |
| MapsApi.GetAutocompleteSuggestions | src/utils/mapsApi.ts:9-64 | null without a key; otherwise a list exactly when the response is ok, the body has an array `suggestions` and the map does not throw, and the list is the filter-then-map result; with plain suggestions, a list of truthy texts |
| MapsApi.WithTextAppend | src/utils/mapsApi.ts:52-54 | filtering two runs of suggestions is filtering each and joining, so the original order is kept |
| MapsApi.MapTextsAppend | src/utils/mapsApi.ts:56-58 | mapping two runs succeeds exactly when mapping each does, and gives the first run's reads, then the second's |
| MapsApi.SuggestionTextsAppend | src/utils/mapsApi.ts:50-58 | the texts of two runs of suggestions are the first run's texts followed by the second's, and null if either run's map throws |
| MapsApi.SuggestionTextsSingle | src/utils/mapsApi.ts:50-58 | a single suggestion contributes nothing when its filter text is falsy, so an empty text is dropped; otherwise its plain read, or null when that throws |
| MapsApi.AllTextsKept | src/utils/mapsApi.ts:50-58 | when every suggestion's filter text is truthy, all are kept in place and the result is the map over all of them |
| MapsApi.DottedKeyNullsTheList | src/utils/mapsApi.ts:50-63 | a suggestion holding only the literal key "placePrediction.text.text" passes the filter, makes the map throw, and turns the whole result into null |
| MapsApi.DottedKeyShadowsText | src/utils/mapsApi.ts:50-60 | a truthy literal dotted key over an empty nested text lets the empty text into the result |
| MapsApi.GetRoutePolyline | src/utils/mapsApi.ts:66-136 | the first waypoint is the origin, the last the destination and the ones between the intermediates in order, with no destination for fewer than two; travel mode DRIVE, no alternatives; a polyline exactly when the key is set, the response ok, `routes` a non-empty array and lodash `get(routes[0], "polyline.encodedPolyline")` a string, which is returned |
| MapsApi.LiteralPolylineKey | src/utils/mapsApi.ts:124-130 | a first route holding the literal key "polyline.encodedPolyline" yields that key's string |
| Conformance.TokenSchemaImpliesTokenSuccess | src/utils/schemas.ts:8-15 | every body the token schema accepts makes the token client succeed with the body's token |
| Conformance.TokenClientLaxerThanSchema | src/utils/api.ts:31-40 | a body with an extra key is refused by the schema but still accepted by the token client |
| Conformance.PathSchemaImpliesPathSuccess | src/utils/schemas.ts:24-44 | every body the path schema accepts whose status is not "in progress" settles the poll with success and the body's path and totals |
| Conformance.PathClientLaxerThanSchema | src/utils/api.ts:91-111 | a body without `status` and with an empty path is refused by the schema but accepted by the polling client |
| Conformance.ValidSuggestionsRead | src/utils/schemas.ts:65-87 | the map never throws on suggestions the schema accepts, and reads a string from each |
| Conformance.AutocompleteSchemaImpliesStrings | src/utils/schemas.ts:59-91 | on a schema-valid body, with a key, the suggestion list is present and every entry is a string, non-empty when no suggestion carries the literal dotted key |
| Conformance.SchemaValidEmptyText | src/utils/schemas.ts:65-87 | the schema accepts a suggestion with an empty nested text and a truthy literal dotted key, and the client then returns the empty text |
| Conformance.PolylineSchemaImpliesPolyline | src/utils/schemas.ts:104-131 | on a schema-valid body, with a key, getRoutePolyline returns lodash's read of the first route's polyline, always a string unless that route carries the literal dotted key |
| Conformance.SchemaValidDottedPolylineIsNull | src/utils/schemas.ts:104-131 | a schema-valid route whose literal dotted key holds a number yields no polyline, although its nested polyline is a string |
| DrawerContext.DefaultContextValue | src/pages/context/DrawerContext.tsx:43-58 | the default context is not mobile, not loading, has no route and no error, empty locations and no flags |
| DrawerContext.CaughtMessage | src/pages/context/DrawerContext.tsx:130-133 | an error-like caught value shows its message; anything else shows "Failed to fetch route data" |
| DrawerContext.Settle | src/pages/context/DrawerContext.tsx:98-135 | a token error shows its message whatever the path call would give; a thrown value is classified; a path error shows its message; a path success yields the path and totals |
| DrawerContext.Reset | src/pages/context/DrawerContext.tsx:149-156 | reset clears the error, both locations, the route, the waypoints and the flags, and keeps the loading flag and the drawer state |
| DrawerContext.DrawerContextProvider.constructor | src/pages/context/DrawerContext.tsx:75-83 | a new provider's state is the default context value for its viewport |
| DrawerContext.DrawerContextProvider.OnSubmit | src/pages/context/DrawerContext.tsx:87-138 | an empty location flags the empty fields and calls nothing. Otherwise it awaits the token call and, only after a token, the path call, showing loading with no error or route meanwhile. It ends not loading, with the outcome of `Settle`: route and waypoints, and a closed drawer on mobile, or the message and no waypoints. An error and a route are never shown together |
| DrawerContext.DrawerContextProvider.OnReset | src/pages/context/DrawerContext.tsx:149-156 | the new state is `Reset` of the old one |
| DrawerContext.ResetIdempotent | src/pages/context/DrawerContext.tsx:149-156 | resetting twice is resetting once |
| DrawerContext.DrawerContextProvider.SetStartingLocation | src/pages/context/DrawerContext.tsx:79 | only the starting location changes |
| DrawerContext.DrawerContextProvider.SetDropoffLocation | src/pages/context/DrawerContext.tsx:80 | only the drop-off location changes |
| DrawerContext.DrawerContextProvider.SetInputIsRequiredError | src/pages/context/DrawerContext.tsx:81-83 | only the flag pair changes |
| DrawerContext.SubmitEndToEnd | src/pages/context/DrawerContext.tsx:101-129 | a token then a route leaves the provider not loading, without error, with the route's totals and its path as waypoints |
| DrawerFields.ClearFlag | src/pages/components/Drawer/DrawerContent.tsx:28-44 | a field's clear closure turns its own flag off and keeps the other field's flag |
| DrawerFields.ClearBoth | src/pages/components/Drawer/DrawerContent.tsx:33-44 | clearing both flags, in either order, leaves neither set |
| DrawerFields.OnFieldInput | src/pages/components/Drawer/DrawerContent.tsx:28-45 | typing into a field sets that field's context value, turns its flag and helper text off, keeps the other field and its flag, and schedules the fetch for the typed value |
| DrawerFields.EmptyStartThenTyped | src/pages/components/Drawer/DrawerContent.tsx:28-35 | after a submission flags an empty starting field, typing into it clears its flag and keeps the drop-off flag |
| LocationInput.OnInputChange | src/pages/components/LocationInput.tsx:78-86 | each change passes the new value unchanged to `setValue` and to the debounced fetch, and clears the flag exactly when it is set, even for an empty value; the older field's handler (LocationInputs.tsx lines 49-56) is the same |
| LocationInput.HelperText | src/pages/components/LocationInput.tsx:94-95 | the helper text is empty exactly when not flagged, and is the label followed by " can not be empty" when flagged; the older field's (LocationInputs.tsx lines 63-64) is the same |
| LocationInput.LocationInput.constructor | src/pages/components/LocationInput.tsx:29-31 | suggestions start empty |
| LocationInput.LocationInput.DebouncedFetchAutocompleteSuggestions | src/pages/components/LocationInput.tsx:44-75 | an empty value empties the options offered without a request; otherwise they become the request's result, or empty when that is null; every option is a truthy text when no suggestion carries the literal dotted key |
| LocationInputs.LocationInput.FetchAutocompleteSuggestions | src/pages/components/LocationInputs.tsx:26-36 | an empty value returns `[]` without a request and keeps the list; otherwise a non-null result replaces the list and a null one keeps it |
| DrawerContent.Reset | src/pages/components/DrawerContent.tsx:97-104 | reset clears the error, locations, waypoints and flags, restores the initial route data, and keeps the loading flag |
| DrawerContent.ResetIdempotent | src/pages/components/DrawerContent.tsx:97-104 | resetting twice is resetting once |
| DrawerContent.DrawerContent.constructor | src/pages/components/DrawerContent.tsx:22-35 | the drawer starts with the initial route data, no error, not loading, empty locations and no flags |
| DrawerContent.DrawerContent.OnSubmit | src/pages/components/DrawerContent.tsx:37-95 | an empty location flags the empty fields and calls nothing. Otherwise both calls run as in the current provider, with the initial route data shown meanwhile. It ends not loading, with the outcome of `DrawerContext.Settle`. An error is only ever shown with the initial route data |
| DrawerContent.DrawerContent.OnReset | src/pages/components/DrawerContent.tsx:97-104 | the new state is `Reset` of the old one |
| DrawerContent.DrawerContent.OnFieldInput | src/pages/components/DrawerContent.tsx:117-134 | typing into a field sets it, turns its flag off and keeps the other field and its flag |

## Left out

- Transport is not modelled: URLs, headers, request bodies sent as JSON and
  `res.json()`. A response is an abstract `Fetch` value. A body that fails
  to parse counts as a rejection whose reason is not a string, which is what
  the catch blocks see.
- Api.GetRoutePathByToken: the real poll may never end. The model bounds it
  by the finite sequence of answers it is given and reports `StillPolling`
  when they run out.
- Async scheduling and React are not modelled: interleaved submissions,
  `useCallback`/`useMemo`, stale closures, and responses arriving after a
  reset. Each method runs to completion; awaited calls are inputs.
- LocationInput.LocationInput.DebouncedFetchAutocompleteSuggestions: the
  400 ms debounce is not modelled. The method is the handler at the moment
  it fires.
- Numbers are opaque reals. The bias circle, `Number.isFinite` display
  checks and number-to-coordinate conversions are not modelled.
- Polyline decoding, done by a foreign library, is not modelled.
- `validateResponseWithSchema`, a thin wrapper over Ajv, is not modelled.
  The schemas are modelled by a draft-07 validator covering only the
  keywords these schemas use.
- Js.In: array indices, `length` and prototype members are not modelled, so
  arrays and functions report no key. None of the keys the client asks
  about is of that kind.
- `console.error` logging is not modelled.
- `API_RESPONSE_STATUS` is imported from src/utils/api.ts by both drawers
  and by the tests, but that file does not define it. The model assumes
  `API_RESPONSE_STATUS.ERROR` is `"ERROR"` and `API_RESPONSE_STATUS.SUCCESS`
  is `"SUCCESS"`, the tags the clients return. Otherwise no client error
  would ever be rethrown.
- LocationInput.LocationInput.DebouncedFetchAutocompleteSuggestions: every
  option is a truthy text only when no suggestion carries the literal key
  "placePrediction.text.text". Such a key can let an empty nested text
  through (MapsApi.DottedKeyShadowsText).
- Conformance.AutocompleteSchemaImpliesStrings: the entries are non-empty
  only when no suggestion carries the literal dotted key. The schema
  allows that key, and Conformance.SchemaValidEmptyText exhibits an empty
  entry.
- Conformance.PolylineSchemaImpliesPolyline: a polyline is promised only
  when the first route has no literal key "polyline.encodedPolyline".
  Conformance.SchemaValidDottedPolylineIsNull exhibits a schema-valid body
  that yields none.
- Js.LodashGet: lodash's bracket syntax and its `in Object(v)` test on
  arrays, strings and functions are not modelled. Only plain objects are
  asked for the literal dotted key, and the paths here hold no brackets.
- MapsApi.GetAutocompleteSuggestions: the search text and bias circle of
  the request are not modelled. The response stands for the answer to the
  request for the typed value.
