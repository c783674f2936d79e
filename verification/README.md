# DataForSEO MCP server: the verified core

This project models the logic of the DataForSEO MCP server that is not I/O glue, and proves properties of that model:

- **Field projection** (`src/utils/field-filter.ts`). `filterFields` prunes a JSON value down to a list of dotted paths. A path may contain the `*` wildcard. `parseFieldPaths` turns `base[index]` strings into two-segment paths. These are modules `FieldFilter` and `FieldFilterProps`.
- **Response post-processing** in the tool base class (`src/modules/base.tool.ts`). This covers status validation, which part of a result is filtered, the per-item field picker, and error text. It is module `BaseTool`.
- **Session and authentication bookkeeping** of the HTTP/SSE server (`src/main/index-sse-http.ts`). It is an explicit state machine over the transport table and the set of SSE sessions. Time, the request stream and base64 decoding are parameters. It is module `SseServer`.
- **The command-line launcher** (`src/cli.ts`). It covers the mode, the `--configuration` option, the arguments passed to the child, and the choice of script. It is module `Cli`.
- **The two location-list tools** (`src/core/modules/serp/tools/serp-organic-locations-list.tool.ts`, `serp-youtube-locations-list.tool.ts`). This covers the payload, the request, and turning the answer into output. The HTTP client is a parameter. It is module `LocationTools`.

JavaScript values are the datatype `Json.Json` (`json.dfy`):
- `null`, booleans, integers and strings;
- arrays as `seq<Option<Json>>`, where `None` is a hole;
- objects as property lists in insertion order.

Property reads and writes follow JavaScript:
- Array elements are addressed by canonical decimal keys (`Strings.IndexKeyRoundTrip`).
- Primitives have no properties.
- A write into a primitive is the strict-mode `TypeError`, modelled as `Result.TypeError`.

Truthiness is `Json.Truthy`. `Strings` models `split`, `join`, `replace` with a one-character pattern, and the decimal rendering of integers in template literals.

### Behaviour a caller might not expect

The model follows the code in each case below.

- **Top-level arrays.** A caller might expect `filterFields` on a top-level array with the field `a` to filter each element. The code returns `{}`: the root result is always a fresh object, and line 72 rebinds a local array that is never attached (`FieldFilterProps.TopLevelArraySingleSegment`, `FieldFilterProps.TopLevelArrayExample`).
- **Idempotence.** A caller might expect projecting an already projected value to change nothing. It does change it: a terminal `*` appends, so `a.*` listed twice doubles the array on every application (`FieldFilterProps.ProjectionNotIdempotent`).
- **Malformed brackets.** `parseFieldPaths` never rejects a field:
  - `items[0` parses as `["items", "0"]`;
  - everything from a second `[` on is dropped (`FieldFilterProps.UnclosedBracketAccepted`, `FieldFilterProps.SecondBracketDropped`).
- **`response.items` in the location tools.** The response type these tools use comes from `src/core/modules/base.tool.ts`, which is not part of this model. The model takes `items` as an optional part of the answer. When it is not an array, the `.map` call throws and the tool answers with an error text.
- **Session ids naming inherited properties.** The transport table is a plain object. A `sessionId` such as `constructor` reads an inherited property that is truthy and is no transport, so `/messages` answers the "different transport protocol" error instead of "No transport found" (`SseServer.InheritedNameGetsWrongProtocol`).
- **Messages act as the stream's opener.** A message posted to `/messages` is handled by the server created at `GET /sse`, with that request's credentials. The credentials of the message itself only decide the 401 (`SseServer.PostMessage`).

## Model

| member | source | states |
|---|---|---|
| FieldFilter.FilterFields | src/utils/field-filter.ts:3-8 | A falsy `data` or an empty field list gives `data` back unchanged. Otherwise a successful result is a plain object with distinct keys, even when `data` is an array. |
| FieldFilter.ApplyFields | src/utils/field-filter.ts:10-13 | Fields are applied in order to one shared result. No field removes a key of the output built so far or shortens an array in it. |
| FieldFilter.ApplyPath | src/utils/field-filter.ts:16-65 | A path walk keeps every key of the output it writes into and never shortens an output array. Values under existing keys may be replaced. |
| FieldFilter.WildcardOverArray | src/utils/field-filter.ts:20-35 | The intermediate `*` over an array never shortens the output array it merges into. |
| FieldFilter.WildcardOverObject | src/utils/field-filter.ts:36-50 | The intermediate `*` over an object keeps every key of the output object it merges into. |
| FieldFilter.Terminal | src/utils/field-filter.ts:67-94 | Writing the last segment keeps every key of its target and never shortens a target array. Line 92 may replace the value under an existing key. |
| FieldFilter.CopyKeyFromItems | src/utils/field-filter.ts:80-87 | Copying a key from array elements never shortens the output array. |
| FieldFilter.ParseFieldPath | src/utils/field-filter.ts:103-107 | A string without `[` stays a dotted path. One with `[` becomes a two-segment path, and neither part contains `[`. |
| FieldFilter.ParseFieldPaths | src/utils/field-filter.ts:100-108 | The count and order of the fields are kept, and each field is parsed on its own. |
| Strings.Split | src/utils/field-filter.ts:11 | `split('.')` gives at least one piece. No piece contains the separator, the pieces join back to the input, and there are two or more pieces exactly when the separator occurs. |
| Strings.SplitJoin | src/utils/field-filter.ts:28-30 | Splitting the join of separator-free pieces returns those pieces. So the rest of a path, re-joined for the nested call, is walked segment by segment as before. |
| Strings.IndexKeyRoundTrip | src/utils/field-filter.ts:24-25 | Array index `i` and its property key name each other both ways. A key addresses an element only if it is the canonical spelling of that index. |
| Strings.RemoveFirstAt | src/utils/field-filter.ts:105 | `replace(']', '')` removes only the first `]`. |
| Json.PutLookup | src/utils/field-filter.ts:92 | After `target[k] = x`, reading `k` gives `x`, every other key reads as before, and keys stay distinct. |
| Json.SetIndex | src/utils/field-filter.ts:85 | Writing index `i` past the end lengthens the array to `i + 1` and leaves holes. Other slots are unchanged. |
| Json.Set | src/utils/field-filter.ts:62 | A property write succeeds exactly on objects and arrays, then reads back the written value on an object. It keeps every key of its target and never shortens a target array. |
| JsonLemmas.AssignFresh | src/utils/field-filter.ts:31 | `Object.assign` of properties that are all new appends them in order. |
| JsonLemmas.AssignIntoEmpty | src/utils/field-filter.ts:24-31 | `Object.assign({}, n)` is `n` when `n` is an object with distinct keys, and `{}` for a primitive. |
| FieldFilterProps.DottedSegments | src/utils/field-filter.ts:11 | A dotted string whose segments contain no `.` is walked by exactly those segments. |
| FieldFilterProps.TerminalObjectKey | src/utils/field-filter.ts:91-93 | A single key on an object is copied whenever it is defined, falsy values included, and is absent otherwise. |
| FieldFilterProps.TopLevelArraySingleSegment | src/utils/field-filter.ts:70-97 | A single segment over a top-level array gives `{}`. The exception is a non-`*` key with a `null` element, which throws. |
| FieldFilterProps.TopLevelArrayExample | src/utils/field-filter.ts:70-73 | `[{"a":1,"b":2},{"a":3}]` projected on `a` is `{}`. |
| FieldFilterProps.CopyIntoFreshSlots | src/utils/field-filter.ts:80-87 | A terminal key over array elements throws exactly when an element is `null`. Otherwise slot `j` is `{key: item[key]}` when element `j` defines the key, and a hole when it does not. |
| FieldFilterProps.TerminalKeyOverArray | src/utils/field-filter.ts:67-87 | `a.key` over an array under `a` gives `{a: [...]}`. Slot `j` is `{key: e[j][key]}` for the elements that define it and a hole elsewhere, and the result throws exactly when some element is `null`. |
| FieldFilterProps.MissingIntermediateKeepsContainer | src/utils/field-filter.ts:55-64 | `a.b.c` with a falsy or missing `a.b` gives `{a: {}}` (or `{a: []}`). The field is abandoned, and the container made for `a` stays. |
| FieldFilterProps.SharedPrefixMerges | src/utils/field-filter.ts:58-93 | `k.x` and `k.y` reuse one container: the result is `{k: {x, y}}`. |
| FieldFilterProps.LaterFieldsOnlyAdd | src/utils/field-filter.ts:10 | Appending fields never removes a top-level key of the result, and an error stays an error. |
| FieldFilterProps.ApplyFieldsAppend | src/utils/field-filter.ts:10 | Applying `fs + gs` is applying `fs`, then `gs` to its result. |
| FieldFilterProps.TerminalWildcardAppends | src/utils/field-filter.ts:75-77 | A terminal `*` copies the whole array, and listing it twice duplicates every element. |
| FieldFilterProps.ProjectionNotIdempotent | src/utils/field-filter.ts:75-77 | Projecting `{a:[1]}` on `a.*` twice gives `[1,1]`, and projecting that again gives `[1,1,1,1]`. |
| FieldFilterProps.WildcardIntoFreshArray | src/utils/field-filter.ts:23-35 | The `*` loop over an array into fresh slots throws exactly when a nested call throws. Otherwise slot `j` holds element `j`'s nested result as an object, and holes stay holes. |
| FieldFilterProps.WildcardOverArrayPerElement | src/utils/field-filter.ts:20-52 | `a.*.rest` over an array puts at index `j` the nested projection of element `j` by `rest`, shallow-merged into `{}`. A dense input gives an output of the same length, and any nested error is an error of the whole. |
| FieldFilterProps.WildcardIntoFreshObject | src/utils/field-filter.ts:36-50 | The `*` loop over an object agrees with the reference `MergedProps`: one entry per key, in key order, or an error if a nested call throws. |
| FieldFilterProps.MergedPropsAt | src/utils/field-filter.ts:38-46 | The reference merge throws exactly when a nested call throws. Otherwise entry `j` is key `j` with its nested result as an object. |
| FieldFilterProps.WildcardOverObjectPerKey | src/utils/field-filter.ts:36-52 | `a.*.rest` over an object gives `{a: {...}}` with one property per key of the input, in order, each the nested projection. Any nested error is an error of the whole. |
| FieldFilterProps.NestedObjectKey | src/utils/field-filter.ts:55-93 | `a.b` through an object gives `{a: {b: v}}` when `b` is defined, and `{a: {}}` otherwise. |
| FieldFilterProps.WildcardExample | src/utils/field-filter.ts:20-35 | `{"items":[{"v":1},{"v":2}]}` projected on `items.*.v` is itself. |
| FieldFilterProps.TwoSelfProjectingElements | src/utils/field-filter.ts:20-35 | An array of two objects that the rest of the path leaves unchanged is reproduced by `a.*.rest`. |
| FieldFilterProps.DottedPathExample | src/utils/field-filter.ts:55-93 | `{"x":{"y":5,"z":6}}` projected on `x.y` is `{"x":{"y":5}}`. |
| FieldFilterProps.MissingKeyExample | src/utils/field-filter.ts:91-93 | Projecting on an absent key gives `{}`. |
| FieldFilterProps.BracketWalksLikeDotted | src/utils/field-filter.ts:11 | The path `[base, index]` is walked exactly like the dotted string `base.index`. |
| FieldFilterProps.SameSegmentsSameResult | src/utils/field-filter.ts:11 | Field lists whose paths split into the same segments give the same result. |
| FieldFilterProps.BracketRoundTrip | src/utils/field-filter.ts:103-105 | `base[index]` parses back to `[base, index]`, and the base is not split on `.`. |
| FieldFilterProps.SecondBracketDropped | src/utils/field-filter.ts:104 | In `base[i][more`, everything from the second `[` on is dropped. |
| FieldFilterProps.UnclosedBracketAccepted | src/utils/field-filter.ts:103-105 | A `[` without its `]` is accepted, and the rest of the string becomes the index. |
| FieldFilterProps.DoubleIndexExample | src/utils/field-filter.ts:103-105 | `a.b[0][1]` parses as `["a.b", "0"]`. |
| BaseTool.StatusFailsExactly | src/modules/base.tool.ts:61 | `status_code / 100 !== 200` is false exactly for the code 20000. |
| BaseTool.ValidateResponse | src/modules/base.tool.ts:60-77 | The response passes exactly when the status is 20000, `tasks_error <= 0`, there is a task, and the first task's status is 20000. The checks run in that order, and the first failure decides the message. |
| BaseTool.OnlyFirstTaskChecked | src/modules/base.tool.ts:73-76 | Changing or adding tasks after the first never changes the verdict or the message. |
| BaseTool.FilterResponseFields | src/modules/base.tool.ts:117-124 | An empty field list returns the response. Otherwise the result is a projection of a truthy response, an object, or the falsy response itself. |
| BaseTool.BracketFieldLikeDotted | src/modules/base.tool.ts:122-123 | The field `base[index]` filters a response exactly as `base.index` does. |
| BaseTool.FilterEach | src/modules/base.tool.ts:86-88 | Mapping the filter keeps length, order and holes, and throws exactly when one element's filter throws. |
| BaseTool.HandleItemsResult | src/modules/base.tool.ts:79-89 | Falsy or missing `result[0].items` filters the whole `result`. With no fields the items come back unchanged. Otherwise item `i` of an equally long list is item `i` filtered. |
| BaseTool.ItemsIgnoreLaterEntries | src/modules/base.tool.ts:80-88 | When `result[0].items` is truthy, entries after the first never affect the outcome. |
| BaseTool.HandleDirectResult | src/modules/base.tool.ts:91-95 | Length and order are kept, and element `i` is element `i` filtered. It throws exactly when one element's filter throws. |
| BaseTool.DirectResultNoFields | src/modules/base.tool.ts:91-95 | With no fields, every element comes back unchanged. |
| BaseTool.PickOne | src/modules/base.tool.ts:102-108 | The picked object has exactly the listed fields the item has (`field in item`), with the item's values and distinct keys. |
| BaseTool.PickFields | src/modules/base.tool.ts:97-110 | An empty field list returns the data. Otherwise every element becomes an object with exactly the listed fields it has, length is kept, and a primitive element throws. |
| BaseTool.FormatErrorResponse | src/modules/base.tool.ts:49-58 | One text item, "Error: " followed by the formatted error. |
| BaseTool.ErrorTextInjective | src/modules/base.tool.ts:49-58 | Distinct error messages give distinct error responses. |
| SseServer.AdmittedSpellsCredentials | src/main/index-sse-http.ts:122-148 | With a username configured, an admitted request carries `Basic <token>`, followed by nothing or by a space and more. The token decodes to `user`, then `:pass` exactly when a password is set, then nothing or more `:`-text. The request is then admitted as the configured user. |
| SseServer.SpelledCredentialsAdmitted | src/main/index-sse-http.ts:122-134 | Every header of that shape is admitted with the configured credentials, whatever follows the token or the password. |
| SseServer.OnlyConfiguredUserAdmitted | src/main/index-sse-http.ts:131-148 | With a username configured, the only credentials ever admitted are the configured ones. |
| SseServer.ConfiguredCredentialsAdmitted | src/main/index-sse-http.ts:126-134 | `Basic <token>` whose decoding is `user:pass` is admitted when those are the configured credentials. |
| SseServer.UnsetPasswordMatchesMissingPiece | src/main/index-sse-http.ts:130-131 | With no password configured, a decoded token without `:` matches, because the missing piece is `undefined` too. |
| SseServer.ResolveCredentials | src/main/index-sse-http.ts:177-194 | Request credentials are used when either is set. Otherwise both environment credentials are used, and if either is missing the reply is 401 with code -32001. |
| SseServer.FallbackNeverSuppliesEnv | src/main/index-sse-http.ts:348-365 | Behind `basicAuth` the environment fallback never fires: the admitted credentials are used or the request is rejected. |
| SseServer.Cleanup | src/main/index-sse-http.ts:52-65 | Exactly the sessions with `now - lastActivity > 30000` are removed. The others are untouched, and the SSE set is unchanged. |
| SseServer.CleanupLater | src/main/index-sse-http.ts:52-65 | Cleaning at `t1` and then at `t2 >= t1` is the same as cleaning at `t2`. |
| SseServer.RecentSessionSurvives | src/main/index-sse-http.ts:55 | A session used within the timeout survives cleanup unchanged. |
| SseServer.CleanupKeepsSseIds | src/main/index-sse-http.ts:52-65 | A stale SSE session leaves the transport table but stays in the SSE set. |
| SseServer.OpenSse | src/main/index-sse-http.ts:254-281 | Opening a stream stores the new id in both tables and touches no other session. It keeps every stored session an SSE session. A later message to that id is forwarded with the credentials `basicAuth` gave the opening request, whoever sends it. |
| SseServer.CloseSse | src/main/index-sse-http.ts:297-324 | A client close or stream error takes the id out of the SSE set. Every message is then answered exactly as before, and every stored session stays an SSE session. |
| SseServer.PostMessage | src/main/index-sse-http.ts:344-389 | The messages endpoint answers as follows. Missing credentials get 401. An id with no own session gets 400 "No transport found for sessionId", or -32000 when it names an inherited `Object.prototype` property. A non-SSE session gets -32000. Otherwise the message is forwarded with the stored session's credentials, and only that session's `lastActivity` changes; a rejected message changes nothing. |
| SseServer.MessageTouchesOnlyItsSession | src/main/index-sse-http.ts:385-386 | A message never changes another session's record. |
| SseServer.ClosedSessionStillAccepts | src/main/index-sse-http.ts:297-388 | A session closed by its client still forwards messages, with its opener's credentials, until cleanup removes it. |
| SseServer.Handle | src/main/index-sse-http.ts:112-254 | `express.json()` answers a malformed body with 400 and an oversized one with 413 before any route or `basicAuth` runs. OPTIONS gets Express's own answer on the four paths and 404 elsewhere, changing nothing. Routes match case-insensitively, with an optional trailing slash. GET, HEAD and DELETE on `/http` and `/mcp` always answer 405 with -32000, and a challenged request to a guarded route gets the challenge. Unguarded requests change nothing. Only GET or HEAD on `/sse` adds sessions, and an admitted one always does. |
| SseServer.AllowListsServedVerbs | src/main/index-sse-http.ts:241-344 | The verbs in Express's OPTIONS `Allow` list for a path are exactly those whose requests reach a registered route instead of the 404. |
| SseServer.HeadOpensSession | src/main/index-sse-http.ts:254-276 | `HEAD /SSE/` opens a session just as `GET /sse` does. |
| SseServer.Step | src/main/index-sse-http.ts:297-324 | A client close keeps the transport table and removes the id from the SSE set. A cleanup tick only removes transports. |
| SseServer.StepKeepsAllSse | src/main/index-sse-http.ts:268-324 | Every stored transport being an SSE transport is preserved by every event. |
| SseServer.RunKeepsAllSse | src/main/index-sse-http.ts:268-276 | The invariant holds after any sequence of events. |
| SseServer.WrongProtocolOnlyForInheritedNames | src/main/index-sse-http.ts:367-383 | From the initial state, the wrong-protocol reply is produced only for a `sessionId` that names an inherited property. |
| SseServer.InheritedNameGetsWrongProtocol | src/main/index-sse-http.ts:367-383 | `sessionId=constructor` gets the wrong-protocol reply from the initial state. |
| Cli.Mode | src/cli.ts:12 | The mode is the first argument, or `local` when that is absent or empty. |
| Cli.IndexOf | src/cli.ts:13 | `indexOf` gives the first position of the flag, or -1 exactly when it is absent. |
| Cli.ConfigPath | src/cli.ts:13-14 | The configuration path is the argument after the first `--configuration`. It is `null` when the flag is absent or last. |
| Cli.FieldConfigPath | src/cli.ts:13-20 | `FIELD_CONFIG_PATH` becomes the argument after the first `--configuration` when that argument is non-empty. It keeps its inherited value when that argument is empty, when the flag is last, or when the flag is absent. |
| Cli.ChildArgs | src/cli.ts:23-25 | The child gets `args[1..]` in order, without the first `--configuration` and its value. With no flag nothing is removed, and a trailing flag alone is still removed. |
| Cli.ChildArgsShorter | src/cli.ts:23 | The mode word is never passed on. |
| Cli.Launcher | src/cli.ts:27-50 | `http`, `sse` and `local` start `index-http.js`, `index-sse-http.js` and `index.js` with the child arguments. Any other mode exits with status 1. |
| Cli.UsageRoundTrip | src/cli.ts:10-50 | `node cli.js <mode> [args] --configuration <path>` reads back the mode, the path and the other arguments, for every valid mode. |
| Cli.SecondFlagPassedOn | src/cli.ts:13-25 | Only the first `--configuration` and its value are removed; a second one reaches the server. |
| Cli.FlagAsMode | src/cli.ts:12-49 | `--configuration` in the mode position is an invalid mode, yet its value is still exported. |
| LocationTools.OrganicPayload | src/core/modules/serp/tools/serp-organic-locations-list.tool.ts:35-45 | The payload has `country_iso_code`, `location_type` and `location_name` exactly when each parameter is truthy, with its value, and no other key. It is empty exactly when all three are falsy. |
| LocationTools.YoutubePayload | src/core/modules/serp/tools/serp-youtube-locations-list.tool.ts:35-45 | `country_iso_code` is always present, even when falsy. The other two keys are present exactly when truthy, and there are no other keys. |
| LocationTools.LocationsPathNamesEngine | src/core/modules/serp/tools/serp-organic-locations-list.tool.ts:51 | The request path is `/v3/serp/` + engine + `/locations`, and the engine can be read back from it. |
| LocationTools.LocationsPathInjective | src/core/modules/serp/tools/serp-organic-locations-list.tool.ts:51 | Distinct engines are sent to distinct endpoints. |
| LocationTools.YoutubeRequest | src/core/modules/serp/tools/serp-youtube-locations-list.tool.ts:47 | The YouTube request goes to the fixed path `/v3/serp/youtube/locations`, the engine path for "youtube", by POST with body `[payload]`. |
| LocationTools.LocationNames | src/core/modules/serp/tools/serp-organic-locations-list.tool.ts:53 | The output has one entry per item, in order, and each entry is the item's `location_name`. A non-array `items` or a `null` item throws. |
| LocationTools.Answer | src/core/modules/serp/tools/serp-organic-locations-list.tool.ts:51-56 | The tool answers with data exactly when the request returned, the envelope validates, and the items map. A thrown value or a failed check becomes the "Error: " response for it. |
| LocationTools.OrganicHandle | src/core/modules/serp/tools/serp-organic-locations-list.tool.ts:32-57 | With no location parameter set, the answer is the "At least one of the following fields must be specified" error. Otherwise it is the answer to the request. |
| LocationTools.EmptyPayloadNoRequest | src/core/modules/serp/tools/serp-organic-locations-list.tool.ts:47-49 | An empty payload fails before any request is made, whatever the client would do. |
| LocationTools.FailuresAreErrorText | src/core/modules/serp/tools/serp-organic-locations-list.tool.ts:54-56 | Nothing escapes `handle`: every failure is a single "Error: " text. |
| LocationTools.YoutubeHandle | src/core/modules/serp/tools/serp-youtube-locations-list.tool.ts:32-53 | The YouTube tool has no empty-payload check. Its answer is data exactly when the client's reply to its request validates and its items map to names. A thrown value, a failed check or a `TypeError` becomes the matching "Error: " response. |

## Left out

- I/O and timers are not modelled:
  - Express internals, response writing and headers (routing is modelled as `SseServer.Handle`);
  - the MCP SDK server and transports, `server.connect`, `handleRequest`, `handlePostMessage`;
  - the keep-alive `setInterval`, the cleanup interval, SIGINT shutdown, `spawn` and console output.
  Time enters as `now: int`, events as an explicit list, and the spawned process as the `Launch` value.
- Base64 decoding of the `Authorization` token is the parameter `decode`, because it is a foreign call.
- `JSON.stringify` in `formatResponse` is not modelled. Tool output is the value handed to it.
- `DataForSEOClient.makeRequest` is the parameter `fetch` of the location tools. The core `base.tool` those tools extend is not part of this model; its `validateResponse` and `formatErrorResponse` are taken to be those of `src/modules/base.tool.ts`.
- The engine's `TypeError` messages are not modelled. The filter reports a unit `TypeError`, and the location tools take the message as the parameter `typeErrorMessage`.
- The 500 paths of `basicAuth`, `handleMcpRequest` and `/sse` are not modelled. They are reached only when Express or the SDK throws.
- The query form `?sessionId=a&sessionId=b`, which gives an array, is not modelled. A missing `sessionId` is the key "undefined", as the source's string conversion makes it.
- Named properties on arrays are dropped: a non-index key written into an array is invisible to `JSON.stringify`.
- In JSON values, array `length`, string indexing and inherited prototype properties are not modelled; primitives have no properties. A field named `constructor`, say, is taken to be absent. This also affects `field in item` in the private field picker, where `"length" in []` would be true. The transport table's inherited names are modelled (`SseServer.InheritedNames`).
- Integer-like keys of JavaScript objects are kept in insertion order, not moved to the front as `Object.keys` does.
- Numbers are unbounded integers. Fractions, floating-point rounding, array indices above 2^32 - 2, and the exponent form that template literals use above 10^21 are not modelled. The status check divides exactly, as a `real`.
- `filterFields` with `fields` undefined, and `result` values that are not arrays in `handleItemsResult`/`handleDirectResult`, are not modelled. The callers always pass arrays.
- Aliasing between the input and the output of `filterFields` is not modelled, because values are immutable. A terminal `*` puts the same element objects into the output, and later writes through the output could alter the input.
- Per-tool zod schemas and descriptions are not modelled. Schema defaults (`search_engine` is "google") are taken as already applied. The YouTube country code is the string its schema requires.
- FieldFilterProps.WildcardOverObjectPerKey: requires the input object's keys to be distinct, as every JavaScript object's are. The model's property lists do not enforce this by type.
- SseServer.Handle: route matching folds ASCII letters only and does not decode percent-escapes. Both agree with Express for the ASCII route literals used here. Routes other than the four paths answer `NotFound`, Express's default 404. The body check is reduced to its verdict (`BodyCheck`): JSON parsing, the content-type test and the 100 kB limit are taken as given, and the error page Express writes is not modelled. An OPTIONS answer is modelled as its set of verbs, not the order or spelling of the `Allow` header.
- SseServer.OpenSse: a fresh id is taken to be an own-property key. A `randomUUID` value never spells `__proto__`, the one key a plain object stores differently.
