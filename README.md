# AgentEnvironment readiness checker — a Dafny model

AgentEnvironment is a small web application that checks whether a contact-centre
agent's workstation is ready. The browser client walks the agent through seven
stages and probes network latency and TURN connectivity to seven AWS regions.
It posts the sanitised results to an API. Three Lambda functions serve that
API: VerifyLogin checks the origin and the API key, CaptureData stores one item
per submission, and ProcessStream re-exports the whole table to S3 as CSV and
as JSON.

This project models the logic inside that plumbing. The page is an abstract map
from element id to element state. Times, dates, scan pages, ICE events and the
outcome of each AWS call are passed in as parameters.

| file | module | models |
|---|---|---|
| `wrappers.dfy` | `Wrappers` | `Option` and `Result` |
| `json.dfy` | `Json` | JSON values, ordered object members, key lookup |
| `ui.dfy` | `Ui` | page elements, the jQuery show/hide/val/html/class operations, number formatting |
| `network_tests.dfy` | `NetworkTests` | the region registry, the latency walk, the TURN probe and its race, the page updates |
| `csv_safe.dfy` | `CsvSafe` | the per-field sanitiser of `sendResults` |
| `app.dfy` | `App` | the stage table and its transitions, the `sendResults` body, `each_upto`, the `timeUpload` payload and URL |
| `gateway.dfy` | `Gateway` | the origin and API-key checks and the response builders shared by both API handlers |
| `verify_login.dfy` | `VerifyLogin` | the login handler |
| `capture_data.dfy` | `CaptureData` | the stored item and the capture handler |
| `process_stream.dfy` | `ProcessStream` | record extraction, the paginated scan, the four S3 writes, the export handler |

`lambda/CaptureData.js` and `lambda/VerifyLogin.js` each carry their own copy of
`verifyAPIKey`, `verifyOrigin` and the three `build*Response` functions. The two
copies are identical in code; only their comments and one log message differ (VerifyLogin.js:35-116 and CaptureData.js:41-60,
104-160). They are defined once, in `Gateway`, and the rows below cite the
CaptureData.js copy.

Stateful code is modelled imperatively:
- The page and the browser's outgoing requests belong to the `Browser` class.
- The destructively shifted region list is the `RegionList` class.
- The settle-once `result` object of `createOffer` is the `OfferRace` class.
- The stored stage table is the `StageStore` class.
- The caller-owned records array is the `RecordList` class.

Each loop of the source (`runUDPTests`, `forEach` in `sendResults` and
`storeAgentData`, `each_upto`, the `timeUpload` payload, the scan loop) is a
method with a loop. Each such method is proved against a function, and the
function's properties are proved as lemmas.

## Model

| member | source | states |
|---|---|---|
| NetworkTests.AllRegions | web/js/network_tests.js:2-48 | The registry has seven regions with pairwise-distinct `region` ids, each with at least one NLB. |
| NetworkTests.LatencyClass | web/js/network_tests.js:92-103 | A latency gets `text-success` exactly when it is at most 400 ms, otherwise `text-warning`. |
| NetworkTests.ConnectivityClass | web/js/network_tests.js:280-291 | A TURN time gets `text-success` exactly when it is at most 300 ms, otherwise `text-warning`. |
| Ui.Reclass | web/js/network_tests.js:94-96 | After removing both classes and adding one, the element has exactly one of `text-success` and `text-warning`, and no other class changes. |
| NetworkTests.RegionList.Shift | web/js/network_tests.js:61 | `shift()` returns the head and leaves the tail. |
| NetworkTests.RegionList.Clone | web/js/app.js:127-130 | The JSON deep copy is a fresh list with the same regions, so shifting it never touches the original. |
| NetworkTests.ResetNetworkTests | web/js/network_tests.js:111-123 | For every registry region, both indicator rows are reset: success icon hidden, pending icon shown, text "Pending". Every other element is unchanged and no request is made. |
| NetworkTests.ResetIdempotent | web/js/network_tests.js:111-123 | Resetting an element twice is the same as resetting it once. |
| NetworkTests.LatencyElement | web/js/network_tests.js:83-103 | A latency result shows the success icon with exactly one threshold class, hides the pending icon, writes "`t` ms" and stores `t` as the value. |
| NetworkTests.LatencyShownAt | web/js/network_tests.js:86-103 | The page updates of `regionResult` change each element of the region's latency row as `LatencyElement` says. No other element changes, and none appears or disappears. |
| NetworkTests.PingLog | web/js/network_tests.js:61-74 | Each region is pinged exactly once, in list order, at `endPoint + "ping?x=" + token`. |
| NetworkTests.PingNext | web/js/network_tests.js:53-75 | Walking N regions empties the list. The page ends as `LatencyRun` (each row filled in order, then completion) and the requests are exactly `PingLog`. |
| NetworkTests.RegionResult | web/js/network_tests.js:81-106 | The region's row is filled with its time, then the walk continues on the remaining list. |
| NetworkTests.NetworkTestsComplete | web/js/network_tests.js:128-132 | Both buttons are shown and nothing else changes. |
| NetworkTests.RunLatencyTests | web/js/network_tests.js:137-140 | The walk runs on a deep copy, so `allRegions` is unchanged afterwards. The page and requests are those of walking every region. |
| NetworkTests.LatencyRunAt | web/js/network_tests.js:53-106 | After the walk over distinct regions, each region's latency row holds its own sample. Connectivity rows and rows of other regions are untouched, and the buttons are shown. |
| NetworkTests.IceServerFor | web/js/network_tests.js:197-205 | The ICE server has username and credential "test" and one URL `turn:<nlb>:3478` per NLB, in order. |
| NetworkTests.GetPeerConnection | web/js/network_tests.js:187-217 | It fails exactly when the browser cannot construct a peer connection (`supported` is false). Otherwise the connection has a single ICE server, built from the NLBs. |
| NetworkTests.Race | web/js/network_tests.js:224-255 | The promise settles with the first settling event. A failure is always a timeout. |
| NetworkTests.RaceFirstSettlingWins | web/js/network_tests.js:233-253 | The first 401 error or timer firing decides the result. |
| NetworkTests.RaceUnsettled | web/js/network_tests.js:233-253 | The promise stays pending exactly when no event settles it. |
| NetworkTests.RaceSettlesOnce | web/js/network_tests.js:239-252 | Once settled, later events change nothing. |
| NetworkTests.RaceIgnoresOtherCodes | web/js/network_tests.js:233-241 | An ICE error with a code other than 401 has no effect. |
| NetworkTests.Timed | web/js/network_tests.js:249-253 | The 1000 ms timer always fires after the given events, so the race always settles. A failed probe has cause TIMEOUT. |
| NetworkTests.OfferRace.Resolve | web/js/network_tests.js:226 | Only the first `resolve` takes effect. |
| NetworkTests.OfferRace.OnIceCandidateError | web/js/network_tests.js:233-241 | A 401 records success and the time, and resolves unless already settled. Other codes change nothing. |
| NetworkTests.OfferRace.OnTimeout | web/js/network_tests.js:249-253 | The timer records cause TIMEOUT and failure, and resolves unless already settled. |
| NetworkTests.CreateOffer | web/js/network_tests.js:224-255 | Feeding the events and then the timer to the `result` object yields the race's result. |
| NetworkTests.ProbeOutcome | web/js/network_tests.js:262-312 | The outcome is FAILED (thrown) exactly when no peer connection can be made. Otherwise it is a time exactly when the race succeeds, and a failure carries TIMEOUT. |
| NetworkTests.ConnectivityElement | web/js/network_tests.js:272-310 | On success: the success icon is shown with exactly one threshold class (≤ 300), the pending icon is hidden, the text is "`t` ms" and the value is `t`. On failure: the error icon is shown and the cause, or "FAILED", is the text and the value. |
| NetworkTests.ConnectivityShownAt | web/js/network_tests.js:272-310 | The page updates of `testTURNServer` change each element of the region's connectivity row as `ConnectivityElement` says for the outcome. No other element changes, and none appears or disappears. |
| NetworkTests.TestTurnServer | web/js/network_tests.js:260-313 | The page takes the row updates for the probe's outcome, which `ConnectivityShownAt` describes element by element. A peer connection is opened only when one can be made. |
| NetworkTests.OpenedAll | web/js/network_tests.js:162-169 | With WebRTC, one connection is opened per region, in index order, each with that region's NLBs. Without it, none is opened. |
| NetworkTests.ProbeRegions | web/js/network_tests.js:164-168 | The loop probes the listed regions one after another. The page ends as the probes' updates applied in list order, and the only requests are the peer connections `OpenedAll` names. |
| NetworkTests.RunUdpTests | web/js/network_tests.js:162-169 | Every registry region is probed in index order, whatever the earlier outcomes. |
| NetworkTests.ConnectivityRunAt | web/js/network_tests.js:162-169 | After the run over distinct regions, each region's connectivity row holds its own outcome. Latency rows, other regions and the rest of the page are untouched. |
| App.DefaultStagesShape | web/js/app.js:448-497 | The default table has seven stages chained identity→location→network→computer→audio→submit→done, and done has no `next`. Only identity starts current and with the banner. No stage starts complete or errored. |
| App.StageStore.GetStages | web/js/app.js:444-503 | The default table is stored only when nothing is stored. A stored table is returned unchanged. |
| App.AfterError | web/js/app.js:575-584 | `pageError(s)` sets current, errored and `success=false` on `s` only, and fails when `s` is not a stage. |
| App.StageStore.PageError | web/js/app.js:575-584 | The stored table becomes `AfterError` of the loaded one. On a failure it is the loaded table. |
| App.AfterSuccess | web/js/app.js:586-608 | `pageSuccess(s)` completes `s` (complete, not current, not errored) and enters its `next` (current, not complete, not errored). No other stage changes. It fails when `s` or its `next` is missing. |
| App.StageStore.PageSuccess | web/js/app.js:586-608 | The stored table becomes `AfterSuccess` of the loaded one. The page changes exactly when the stage has a `next`. |
| App.WalkStep | web/js/app.js:586-603 | Succeeding stage i of the chain, from the state where stages before i are complete, reaches the state where stages up to i are complete and i+1 is current. |
| App.WalkAll | web/js/app.js:586-608 | Succeeding every stage in order from the default table always succeeds and leaves every stage complete, not current and not errored. |
| App.SendResults | web/js/app.js:518-548 | It posts to `api + "/data"` with the `apiKey` header and the sanitised body, and fails with a TypeError exactly when a sent field is not a string. |
| App.FillBody | web/js/app.js:528-537 | The `forEach` loop builds exactly the filtered, cleaned body. |
| App.BodyKeys | web/js/app.js:528-537 | The body has exactly the keys of `results` other than `objects` and `apiKey`. |
| App.BodyValues | web/js/app.js:531-537 | Every body value is the cleaned string value of a result field of the same name. |
| App.BodyCsvSafe | web/js/app.js:535 | Every sent value is CSV-safe (see `CsvSafe.SanitizeIsCsvSafe`). |
| CsvSafe.Collapse | web/js/app.js:535 | The only junk character left by the replacement is the space, and there are never two spaces in a row. The other characters are kept in order. The result starts with a space exactly when the input starts with junk, and it is empty exactly when the input is empty. |
| CsvSafe.CollapseWords | web/js/app.js:535 | On a field that does not start with junk, the replacement gives the words joined by single spaces, possibly followed by one trailing space (which `trim()` then removes). A field with no words collapses to the empty string. |
| CsvSafe.SanitizeWords | web/js/app.js:535 | The sanitised field is exactly its words (maximal runs of characters other than whitespace, quotes and commas) joined by single spaces, so each run of junk between two words becomes exactly one space. |
| CsvSafe.SanitizeSeparates | web/js/app.js:535 | A comma between two kept characters becomes one space and does not join them. |
| CsvSafe.TrimStart | web/js/app.js:535 | `trim()` removes exactly the leading whitespace. |
| CsvSafe.TrimEnd | web/js/app.js:535 | `trim()` removes exactly the trailing whitespace. |
| CsvSafe.SanitizeIsCsvSafe | web/js/app.js:535 | A sanitised field has no quote, comma, CR or LF, no leading or trailing space and no two consecutive spaces, and keeps every other character in order. |
| CsvSafe.SanitizeIdempotent | web/js/app.js:535 | Sanitising twice is the same as sanitising once. |
| App.Upto | web/js/app.js:246 | The loop renders no elements when `max` is not positive, and otherwise `min(max, length)` elements. |
| App.Blocks | web/js/app.js:245-248 | Element i of the output is the block rendered for item i. |
| App.EachUpto | web/js/app.js:241-249 | A missing or empty array renders the inverse branch. Otherwise the output is the first `min(max, length)` items, rendered in order and joined. |
| App.Substring | web/js/app.js:741 | `substring(n)` is the suffix of the string that has `length - n` characters, or none when `n` passes the end. |
| App.TimeUpload | web/js/app.js:726-741 | The payload is an array of exactly `size*1024*1024` zeros (none for a non-positive size). The URL loses its first `origin.length` characters. |
| App.UploadUrlRoundTrip | web/js/app.js:741 | For a URL that starts with the origin, stripping leaves the path, and prefixing the origin again restores the URL. |
| Gateway.VerifyApiKey | lambda/CaptureData.js:41-48 | True exactly when the key is defined, non-empty and equal to `API_KEY`. |
| Gateway.VerifyOrigin | lambda/CaptureData.js:53-60 | True exactly when the origin is defined, non-empty and equal to `ORIGIN`. |
| Gateway.Successful | lambda/CaptureData.js:104-116 | 200, CORS headers, the given body. |
| Gateway.Errored | lambda/CaptureData.js:121-138 | 500, CORS headers, body `{data: {Error: err}}`. |
| Gateway.Rejected | lambda/CaptureData.js:143-160 | The given code, CORS headers, body `{data: {message}}`. |
| Gateway.Checked | lambda/CaptureData.js:14-24 | The origin is checked before the key is read. A bad origin gives 403 "Invalid request origin", and a good origin with a bad key gives 403 "Invalid API key". The request passes exactly when both hold. Reading a missing header or identity object throws. |
| Gateway.OriginFirst | lambda/CaptureData.js:14-18 | A rejected origin is rejected whatever API key the event carries. |
| VerifyLogin.Handle | lambda/VerifyLogin.js:4-30 | The response always has CORS headers. It is 200 with `{status: "success"}` exactly when both checks pass, 403 exactly when one fails, and 500 with `{data: {Error: {}}}` exactly when reading the event throws. |
| VerifyLogin.DecisionOrder | lambda/VerifyLogin.js:10-22 | The three outcomes, in the order the handler decides them. |
| VerifyLogin.NoUploadUrl | lambda/VerifyLogin.js:22 | The success body has `status` and no `uploadUrl`, although web/js/app.js:563 reads one. |
| VerifyLogin.ErrorBody | lambda/VerifyLogin.js:25-29 | A thrown error is answered with 500 and `{data: {Error: {}}}`. |
| CaptureData.BuildItem | lambda/CaptureData.js:65-90 | The `forEach` loop builds exactly `ItemOf(request)`. |
| CaptureData.ItemShape | lambda/CaptureData.js:69-90 | The item's keys are `email`, `captureDate` and the request's keys. `email` comes from the request and every other field is copied. The server's time stays unless the request carries a `captureDate`, which overwrites it. |
| CaptureData.TryBlock | lambda/CaptureData.js:10-30 | It answers 200 `{status: "success"}` exactly when both checks pass, the body parses and the store succeeds, and the check's 403 when a check fails. Everything else throws. |
| CaptureData.StoreAttempt | lambda/CaptureData.js:14-27 | The item is put only when both checks pass and the body parses, and it is `ItemOf(body)`. |
| CaptureData.CatchRaises | lambda/CaptureData.js:31-35 | As written, every exception caught in the handler escapes as a ReferenceError. |
| CaptureData.FailedStoreRaises | lambda/CaptureData.js:27-35 | A failed table write becomes a ReferenceError as written, and a 500 response as intended. |
| CaptureData.IntendedAlwaysResponds | lambda/CaptureData.js:8-36 | With the `catch` corrected, every invocation gets a CORS response: 200 exactly on a stored item, 403 exactly on a failed check, 500 exactly on an exception. |
| CaptureData.Handle | lambda/CaptureData.js:8-36 | The corrected handler's response: 200 `{status: "success"}` exactly on a stored item, the check's own 403, otherwise 500 `{data: {Error: {}}}`. |
| ProcessStream.ExtractItems | lambda/ProcessStream.js:62-73 | One record per item, in item order, up to the first item without `email` or `captureDate`. The run completes exactly when every item has both. |
| ProcessStream.RecordList.ExtractRecords | lambda/ProcessStream.js:62-73 | The records are appended after the existing ones, which are not touched. Nothing is appended when `Items` is undefined. It throws exactly when an item is unreadable. |
| ProcessStream.AllRecordsCount | lambda/ProcessStream.js:62-73 | When every page extracts, there is exactly one record per scanned item. |
| ProcessStream.LoadAsWritten | lambda/ProcessStream.js:30-57 | As written, loading succeeds exactly on a single, readable page. Any scan needing a second page throws a ReferenceError. |
| ProcessStream.LoadDataFromDynamo | lambda/ProcessStream.js:30-57 | Corrected: the first page is always scanned, and each next scan starts at the previous page's `LastEvaluatedKey`. It succeeds exactly when every page extracts, and returns all pages' records in order. On failure the last scan made is the first page that does not extract. |
| ProcessStream.OnePage | lambda/ProcessStream.js:40-48 | On a one-page table the corrected loader returns what the first page holds. |
| ProcessStream.AgentData | lambda/ProcessStream.js:107-110 | The JSON body's `agentData` is the records, in order. |
| ProcessStream.ExportPlan | lambda/ProcessStream.js:78-136 | Four writes in order: all-time CSV, dated CSV, all-time JSON, dated JSON. Each body is written identically to both keys. No or empty records give `""` and `{agentData: []}`, and otherwise the CSV text and `{agentData: records}`. An unset prefix renders as "undefined". |
| ProcessStream.ExportKeysDistinct | lambda/ProcessStream.js:82-85 | The four keys are pairwise distinct whatever the prefix and date. |
| ProcessStream.Performed | lambda/ProcessStream.js:104-127 | The writes made are a prefix of the plan. The export completes exactly when the whole plan is written, which is exactly when no write fails. Otherwise exactly the writes before the failing one are made. |
| ProcessStream.SaveToS3 | lambda/ProcessStream.js:141-159 | A refused write is thrown on and adds nothing. An accepted write is appended to the writes made. |
| ProcessStream.ExportDataToS3 | lambda/ProcessStream.js:78-135 | The four awaited writes, stopping at the first that throws, make exactly the writes `Performed` gives for the plan. |
| ProcessStream.Handle | lambda/ProcessStream.js:11-25 | With the corrected loader, success is reported exactly when every page loads and all four writes succeed. Nothing is written when loading fails. |

## Left out

- Timing: `performance.now()`, `setTimeout`, the ping image's load event and the real ICE negotiation are outside the model. Elapsed times arrive as naturals already floored, and the race is an ordered list of events that the 1000 ms timer always ends.
- The random ping token (network_tests.js:66) is a parameter.
- `runNetworkTests` (network_tests.js:145-156) is not modelled. It hides `#networkTestButton` and `#networkNextButton` (network_tests.js:147-148), sets the hidden `#networkTestsRun` field to `false`, runs the modelled reset, UDP and latency steps, and then sets the field to `true`. `NetworkTests.NetworkTestsComplete` shows the two buttons again.
- `console.log` output, including `JSON.stringify(event)`, is left out.
- `runSpeedTest`, `timeDownload`, `timeLatency` and the upload's timing arithmetic are left out because they are floating point over browser timing data. web/js/app.js:694 reads `results.objects.loginResults`, while web/js/app.js:675 stores `results.loginResult`. That defect is noted here and not modelled.
- jQuery, Handlebars templates, the router, `renderStages`, `changePage` and the other page helpers are left out. The page is an abstract map from element id to element state, and element ids are structured values instead of selector strings.
- `sessionStorage` is a field holding the stage table. Its JSON round trip is the identity on the table.
- `clone` is the identity on values. Its only effect that matters here, a fresh list, is `RegionList.Clone`.
- JSON text is left out. Bodies are JSON values; `JSON.stringify` and `JSON.parse` are not modelled.
- CaptureData's request body is either an object's members or absent. Absent stands for a body whose parse throws or gives `null`. A body that parses to another non-object value (an array, a number) is not modelled.
- `moment` date formatting is left out. The capture time and the `YYYY/MM/DD` date are opaque strings.
- The `csv-writer` library is left out. The CSV text is an opaque input.
- The AWS SDK calls are left out. A table write, each S3 write and each scan page are parameters, and the error object a failed S3 write throws is a fixed string.
- A thrown `Error` serialises to `{}` (`ThrownError`), because its own fields are not enumerable. The message is therefore not modelled.
- axios, the geo lookup and user-agent parsing are left out. `SendResults` returns the request it would post.
- `checkLogin` (web/js/app.js:550-573) is not modelled beyond `VerifyLogin.NoUploadUrl`.
- NetworkTests.PingNext: every ping is assumed to end in its image's `error` event, so there is one sample per region. The source (web/js/network_tests.js:53-75) listens only for `error` and has no timeout. If a ping image loads instead, the walk stops for good: later regions are never pinged and `networkTestsComplete` never shows the buttons. That stall is not modelled. Before each ping, the source also empties `#testImageSpan` and puts the hidden ping image there (network_tests.js:62-68). The page model has no such element, so that markup is not modelled.
- NetworkTests.RegionResult: it needs one sample per remaining region, for the reason given for `PingNext`.
- NetworkTests.RunLatencyTests: it needs one sample per registry region, for the reason given for `PingNext`.
- NetworkTests.RunUdpTests: `supported` is one flag for the whole run, so peer-connection construction either succeeds for every region or fails for every region. A browser where `new RTCPeerConnection` throws for one region and works for a later one is not modelled; `ProbeOutcome`, `TestTurnServer`, `ConnectivityRun` and `ProbeRegions` share that limit.
- NetworkTests.GetPeerConnection: the missing constructor (web/js/network_tests.js:191-195) and a constructor that throws or gives nothing (network_tests.js:209-215) are one case, `!supported`. The two error messages are not told apart; `testTURNServer` shows "FAILED" for both.
- ProcessStream.LoadDataFromDynamo: a scan request that DynamoDB rejects is not modelled. In the source (lambda/ProcessStream.js:40-56) the rejection is rethrown and the handler calls back with the error, so `ProcessStream.Handle` also presumes that every scan request is answered.
- ProcessStream.ExportPlan: both dated keys use one `date`. The source calls `moment()` once for each (lambda/ProcessStream.js:83 and 85), so the two keys can differ when the calls straddle midnight UTC.
- ProcessStream.LoadDataFromDynamo: `Paginated` requires every page but the last to carry a `LastEvaluatedKey`, which is what DynamoDB guarantees. A scan that never ends is not modelled.
- App.TimeUpload: `size` is an integer. A fractional size in megabytes is not modelled.
- App.EachUpto: `max` is an integer. JavaScript's comparison with a non-numeric `max` is not modelled.

## Findings

| source | as written | input that shows it | evidently intended | confidence | as-written member | corrected member |
|---|---|---|---|---|---|---|
| lambda/CaptureData.js:34 | The `catch` passes `err`, which is not declared (the caught variable is `error`). Building the error response therefore throws a ReferenceError, and the invocation fails without calling back. | An event whose origin and key pass but whose table write fails, or an event without `headers`. | A 500 response with the CORS headers, as VerifyLogin.js:28 produces. | not executed | CaptureData.CatchRaises | CaptureData.IntendedAlwaysResponds |
| lambda/ProcessStream.js:45 | The next scan's `ExclusiveStartKey` is read from `results`, which is not declared (the response variable is `scanResponse`). Any table larger than one scan page makes the load throw a ReferenceError. | Two scan pages, the first with a `LastEvaluatedKey`, both with readable items. | Continue from `scanResponse.LastEvaluatedKey` and return the records of every page. | not executed | ProcessStream.LoadAsWritten | ProcessStream.LoadDataFromDynamo |
