# dune-client, modelled in Dafny

This project models the core of `dune-client`, a Python client for the Dune
Analytics HTTP API, version 1. The modelled core has two parts.

- `DuneClient` (`dune_client/client.py`):
  - `execute` posts a query's parameters to `/query/{id}/execute`;
  - `get_status`, `get_result` and `cancel_execution` address
    `/execution/{job}/status`, `/results` and `/cancel`;
  - `refresh` executes a query, polls its status, sleeping `ping_frequency`
    seconds between polls, until the state reads `QUERY_STATE_COMPLETED`,
    then fetches the results and returns their rows;
  - `_handle_response` decodes every answer. Only an answer whose body is not
    JSON raises the HTTP error.
- The `from_dict` readers of the response records, as the unit tests in
  `tests/unit/test_models.py` pin them down:
  - `ExecutionResponse`, `TimeData`, `ResultMetadata`, `ExecutionResult`,
    `ExecutionStatusResponse` and `ResultsResponse`;
  - ISO-8601 timestamps whose fraction is truncated or padded to
    microseconds.

The project is organised as follows.

- **Data:**
  - `results.dfy`: Option and Result;
  - `json.dfy`: JSON values and required-field readers;
  - `decimal.dfy`: decimal digits;
  - `timestamps.dfy`: the timestamp reader and writer;
  - `models.dfy`: the records and their readers.
- **Laws about the data:** `model_laws.dfy` proves round trips and error
  cases. `model_fixtures.dfy` and `timestamp_fixtures.dfy` restate the unit
  tests' payloads as lemmas.
- **Endpoints:** `endpoints.dfy` builds the URLs and the execute body.
- **Specification of the calls:** `protocol.dfy` states, as functions over
  a script of HTTP answers, what each call returns, which requests and
  sleeps it issues, and which answers it consumes.
- **Laws about the calls:** `protocol_laws.dfy` and `protocol_fixtures.dfy`
  prove what refresh promises.
- **The client:** `client.dfy` holds the imperative classes.
  - `Transport` hands out the scripted answers and records a trace of
    requests and sleeps.
  - `DuneClient` has one method per call. Each method is proved to return
    what its protocol function says, to consume the same answers and to
    append the same events to the trace. The refresh loop is a `while` loop
    with its invariant.

## Model

| member | source | states |
|---|---|---|
| `Endpoints.RouteUrl` | dune_client/client.py:73-106 | every URL the client builds routes back to the endpoint it was built for, status, results and cancel included |
| `Endpoints.Url` | dune_client/client.py:73-106 | execute URLs continue the base URL with `/q`, the others with `/e`; an execution URL is the base, `/execution/`, the job id and its action, its action told by the character before the last |
| `Endpoints.UrlInjective` | dune_client/client.py:73-106 | equal URLs come from the same endpoint, for any query id and any job id: distinct endpoints (different queries, jobs or actions) are sent to distinct URLs |
| `Endpoints.RouteExecuteRoundTrip` | dune_client/client.py:73 | the query id written into the execute path reads back as the same integer, negative ids included |
| `Endpoints.ParameterMap` | dune_client/client.py:76 | every entry of the map is some parameter's key and value, and the last parameter's entry is always present |
| `Endpoints.ParameterMapKeys` | dune_client/client.py:75-77 | a key is in the query_parameters map exactly when some parameter has that key |
| `Endpoints.ParameterMapLastWins` | dune_client/client.py:75-77 | the dict comprehension keeps the value of the last parameter with a given key |
| `Endpoints.ExecuteBody` | dune_client/client.py:74-78 | the body is an object whose single key is query_parameters, an object whose values are all JSON strings |
| `Endpoints.ExecuteBodyParameters` | dune_client/client.py:74-78 | the execute body has the single key query_parameters, mapping each key to the last value given for it as a JSON string |
| `Endpoints.ExecuteBodyKeys` | dune_client/client.py:74-78 | the keys of query_parameters are exactly the parameters' keys |
| `Decimal.IntToDecimal` | dune_client/client.py:73 | the text starts with '-' exactly for a negative id; the rest is digits without a leading zero, except for 0 itself |
| `Decimal.IntToDecimalRoundTrip` | dune_client/client.py:73 | the f-string rendering of an int parses back to that int |
| `Decimal.IntToDecimalInjective` | dune_client/client.py:73 | distinct query ids render to distinct texts |
| `Protocol.HandleResponse` | dune_client/client.py:45-56 | a JSON body is returned whatever the status; otherwise a 4xx/5xx status raises the HTTP error and any other status the ValueError |
| `Protocol.WrapParse` | dune_client/client.py:80-83 | a reading that succeeds is returned as it is; a KeyError becomes DuneError(payload, name, key); any other error is raised unwrapped |
| `Protocol.ReadExecution` | dune_client/client.py:80-83 | the answer reads exactly when its body is JSON and from_dict accepts it; a missing key becomes DuneError(payload, "ExecutionResponse", key), any other reading error is raised as it is, and a body that is not JSON gives _handle_response's error |
| `Protocol.ReadStatus` | dune_client/client.py:90-93 | the same for ExecutionStatusResponse |
| `Protocol.ReadResults` | dune_client/client.py:98-101 | the same for ResultsResponse |
| `Protocol.ExecuteStep` | dune_client/client.py:72-83 | execute sends exactly one POST of ExecuteBody to the execute URL; its result is the first answer read as an ExecutionResponse, or a connection failure when there is none |
| `Protocol.StatusStep` | dune_client/client.py:87-93 | get_status sends exactly one GET of the status URL; its result is the first answer read as a status |
| `Protocol.ResultStep` | dune_client/client.py:97-101 | get_result sends exactly one GET of the results URL; its result is the first answer read as results |
| `Protocol.CancelStep` | dune_client/client.py:105-113 | cancel_execution sends exactly one POST without a body to the cancel URL; its result is the first answer read as a cancellation |
| `Protocol.PollLoop` | dune_client/client.py:123-131 | from COMPLETED the loop ends at once, well and silently; from any other state it sleeps and polls at least once |
| `Protocol.AwaitCompletion` | dune_client/client.py:122-131 | waiting starts with a status GET, not a sleep; with no answers it is a connection failure |
| `Protocol.RefreshRun` | dune_client/client.py:115-137 | refresh starts with the execute POST; when it returns rows, execute succeeded and the last request is the GET of that execution's results |
| `Protocol.ReadCancellation` | dune_client/client.py:108-113 | returns the `success` value as sent; a missing `success` is a DuneError naming CancellationResponse; a non-object payload is not wrapped |
| `Protocol.FetchRows` | dune_client/client.py:133-137 | one GET of the results; rows returned exactly when the answer reads and carries a result; a None result fails the assertion with the response |
| `Client.Transport.Get` | dune_client/client.py:60 | one GET: the next scripted answer (none once the script is used up) and GetSent appended to the trace |
| `Client.Transport.Post` | dune_client/client.py:65-67 | one POST with its JSON body, or none: the next answer, and PostSent appended |
| `Client.Transport.Sleep` | dune_client/client.py:130 | a sleep consumes no answer and appends Slept(seconds) |
| `Client.DuneClient.Get` | dune_client/client.py:58-61 | one GET, its answer handled as _handle_response does; a missing answer is a connection failure |
| `Client.DuneClient.Post` | dune_client/client.py:63-68 | one POST, its answer handled as _handle_response does |
| `Client.DuneClient.Execute` | dune_client/client.py:70-83 | returns ExecuteStep's result, posts the parameters to the execute URL and consumes one answer |
| `Client.DuneClient.GetStatus` | dune_client/client.py:85-93 | returns StatusStep's result after one GET of the status URL |
| `Client.DuneClient.GetResult` | dune_client/client.py:95-101 | returns ResultStep's result after one GET of the results URL |
| `Client.DuneClient.CancelExecution` | dune_client/client.py:103-113 | returns CancelStep's result after one POST with no body to the cancel URL |
| `Client.DuneClient.AwaitCompleted` | dune_client/client.py:122-131 | the first status poll then the loop: result, answers consumed and trace as AwaitCompletion says |
| `Client.DuneClient.PollUntilCompleted` | dune_client/client.py:123-131 | the while loop: sleep `ping`, poll, until COMPLETED; its result and trace are those of PollLoop from the state it starts in |
| `Client.DuneClient.FetchCompletedRows` | dune_client/client.py:133-137 | the result fetch and the assertion, as FetchRows |
| `Client.DuneClient.Refresh` | dune_client/client.py:115-137 | refresh's result, answers consumed and trace are those of RefreshRun |
| `ProtocolLaws.PollLoopCompletes` | dune_client/client.py:123-131 | a loop whose next n polls read non-COMPLETED states and then COMPLETED ends well after exactly those n polls, sleeping before each |
| `ProtocolLaws.PollLoopOk` | dune_client/client.py:123-131 | conversely, a loop that ends well has read some n polls that complete |
| `ProtocolLaws.AwaitCompletes` | dune_client/client.py:122-131 | the first poll plus the loop send one status GET then n-1 sleep/poll rounds when the n polls complete |
| `ProtocolLaws.AwaitOk` | dune_client/client.py:122-131 | the wait ends well only after polls that complete |
| `ProtocolLaws.PollLoopResume` | dune_client/client.py:130-131 | a loop known to continue from some state after given events goes on, after one more sleep and poll, from the state that poll reads, or ends with the poll's error |
| `ProtocolLaws.PollLoopRound` | dune_client/client.py:130-131 | one round of the loop: an unreadable poll ends it with that error; a readable one continues from the state read |
| `ProtocolLaws.AwaitFirstPoll` | dune_client/client.py:122 | the first poll is not preceded by a sleep; its error ends the wait |
| `ProtocolLaws.RefreshReturnsRows` | dune_client/client.py:115-137 | under a completed script refresh returns the results' rows unchanged, after exactly: the execute post, the polls with sleeps between them, one results GET |
| `ProtocolLaws.RefreshOk` | dune_client/client.py:115-137 | refresh returns rows only under a completed script |
| `ProtocolLaws.RowsOnlyAfterCompleted` | dune_client/client.py:123 | rows are returned only after some status answer read COMPLETED |
| `ProtocolLaws.CompletedScriptEndsCompleted` | dune_client/client.py:123 | the last poll of a completed script reads COMPLETED |
| `ProtocolLaws.RefreshMissingResult` | dune_client/client.py:134-136 | a completed execution whose results carry no result fails the assertion, after the same requests |
| `ProtocolLaws.RefreshStopsAtExecute` | dune_client/client.py:121 | an execute answer that does not read ends refresh with its error after the post alone |
| `ProtocolLaws.RefreshStopsAtFirstPoll` | dune_client/client.py:122 | a first status answer that does not read ends refresh with its error: no sleep and no results request |
| `ProtocolLaws.PollsAgainUnlessCompleted` | dune_client/client.py:123-131 | a poll reading any state but COMPLETED (FAILED, CANCELLED, EXPIRED included) is followed by another sleep and poll |
| `ProtocolLaws.StatusUrlIsNotResultsUrl` | dune_client/client.py:88-97 | the status and results requests of a job are different requests |
| `ProtocolLaws.PollScheduleAlternates` | dune_client/client.py:130-131 | in the loop's events, sleeps of `ping` seconds and status polls alternate |
| `ProtocolLaws.PollScheduleCounts` | dune_client/client.py:130-131 | k rounds hold k sleeps and k polls |
| `ProtocolLaws.PollScheduleOnly` | dune_client/client.py:130-131 | the loop's events hold nothing but sleeps of `ping` and status polls |
| `ProtocolLaws.PollScheduleExcludes` | dune_client/client.py:130-131 | neither the execute post nor the results GET is among the loop's events |
| `ProtocolLaws.PollLoopShape` | dune_client/client.py:123-131 | however the loop ends (COMPLETED read, a poll that does not read, answers used up), its events are whole sleep/poll rounds |
| `ProtocolLaws.AwaitShape` | dune_client/client.py:122-131 | however the wait ends, its events are one status GET followed by whole sleep/poll rounds |
| `ProtocolLaws.RefreshShape` | dune_client/client.py:115-137 | every refresh's events: the post alone when execute does not read; otherwise the post, n >= 1 status polls with a sleep of `ping` before each but the first, all on the execution's id, then possibly that execution's results GET, which is always there when rows are returned |
| `ProtocolLaws.RefreshTraceOrder` | dune_client/client.py:121-133 | in any such trace: the post first and never again, sleeps and status polls alternating, the results GET only last |
| `ProtocolLaws.RefreshTraceCounts` | dune_client/client.py:121-133 | any such trace with n polls holds one post, n status polls, n-1 sleeps and one results GET exactly when it reached the fetch |
| `ProtocolLaws.RefreshOrder` | dune_client/client.py:121-133 | for every refresh, however it ends: the post first and only once; after it, sleeps and status polls of the execution alternate, and a results GET can only be last |
| `ProtocolLaws.RefreshCounts` | dune_client/client.py:121-133 | for every refresh, however it ends: one post; after a readable execute answer at least one status poll, exactly one sleep fewer, at most one results GET, and one when rows are returned |
| `ProtocolFixtures.CallTargets` | dune_client/client.py:72-106 | each call sends one request to the endpoint it is named after; only execute sends a body |
| `ProtocolFixtures.RefreshUsesWholeScript` | dune_client/client.py:115-137 | a completed script that ends with the results answer is used up by refresh, which returns those rows |
| `ProtocolFixtures.PendingExecutingCompleted` | dune_client/client.py:115-137 | PENDING, EXECUTING, COMPLETED: refresh returns the rows after three polls |
| `ProtocolFixtures.ThreePollEvents` | dune_client/client.py:121-133 | that refresh sends the post, three polls and two sleeps, then the results GET |
| `ProtocolFixtures.ExecuteWithoutId` | dune_client/client.py:80-83 | an execute answer without execution_id raises DuneError(payload, "ExecutionResponse", "execution_id") |
| `ProtocolFixtures.ExecuteUnknownState` | dune_client/client.py:80-83 | an execute answer with an unknown state literal is not a KeyError and is raised unwrapped |
| `ProtocolFixtures.CancelSucceeds` | dune_client/client.py:103-111 | `{"success": true}` returns true after one POST without a body |
| `ProtocolFixtures.CancelWithoutSuccess` | dune_client/client.py:112-113 | an answer without `success` raises DuneError(payload, "CancellationResponse", "success") |
| `ProtocolFixtures.CancelUndecodableError` | dune_client/client.py:53-55 | a 502 whose body is not JSON raises the HTTP error |
| `Models.StateFromWire` | tests/unit/test_models.py:24 | reads exactly the six QUERY_STATE_ literals (WireNameRoundTrip is its partner) |
| `ModelLaws.WireNameRoundTrip` | tests/unit/test_models.py:24 | every state's wire literal reads back as that state |
| `ModelLaws.WireNameInjective` | tests/unit/test_models.py:24 | distinct states have distinct literals |
| `Models.ParseExecutionResponse` | tests/unit/test_models.py:67-75 | reads exactly when execution_id is a string and state a known literal; missing keys are reported by name |
| `ModelLaws.ExecutionResponseRoundTrip` | tests/unit/test_models.py:67-75 | an ExecutionResponse written as its payload reads back unchanged |
| `ModelFixtures.ExecutionResponseFixture` | tests/unit/test_models.py:22-25 | the test's execute payload reads as (the id, PENDING) |
| `Timestamps.ParseTimestamp` | tests/unit/test_models.py:30-31 | accepts exactly `YYYY-MM-DDTHH:MM:SS[.digits]Z`; year to second are the decimal values of their fixed-width fields; the microseconds are the fraction truncated or padded to six digits |
| `Timestamps.ParseFormatRoundTrip` | tests/unit/test_models.py:79-84 | a timestamp written with six fraction digits reads back with every field |
| `Timestamps.ParseWithFraction` | tests/unit/test_models.py:30-31 | a timestamp written with any fraction reads back with the fraction's microseconds |
| `Timestamps.FractionTruncates` | tests/unit/test_models.py:31 | more than six fraction digits keep only the first six |
| `Timestamps.FractionIgnoresExtraDigits` | tests/unit/test_models.py:31 | digits after the sixth never change the value |
| `Timestamps.FractionPads` | tests/unit/test_models.py:55 | fewer than six digits are right-padded with zeros |
| `TimestampFixtures.NineDigitFractionTruncated` | tests/unit/test_models.py:82 | `.916543331` reads as 916543 microseconds |
| `TimestampFixtures.FiveDigitFractionPadded` | tests/unit/test_models.py:80 | `.58847` reads as 588470 microseconds |
| `TimestampFixtures.SixDigitFractionKept` | tests/unit/test_models.py:79 | `.913138` reads as 913138 microseconds |
| `TimestampFixtures.OtherSixDigitFractionsKept` | tests/unit/test_models.py:82-84 | `.916543` and `.588467` are kept as they are |
| `TimestampFixtures.SubmittedAtRead` | tests/unit/test_models.py:30 | "2022-08-29T06:33:24.913138Z" reads as datetime(2022, 8, 29, 6, 33, 24, 913138) |
| `TimestampFixtures.StatusStartedAtRead` | tests/unit/test_models.py:31 | "2022-08-29T06:33:24.916543331Z" reads as datetime(2022, 8, 29, 6, 33, 24, 916543) |
| `TimestampFixtures.ExpiresAtRead` | tests/unit/test_models.py:55 | "2024-08-28T06:36:41.58847Z" reads as datetime(2024, 8, 28, 6, 36, 41, 588470) |
| `TimestampFixtures.ResultsStartedAtRead` | tests/unit/test_models.py:56 | "2022-08-29T06:33:24.916543Z" reads as datetime(2022, 8, 29, 6, 33, 24, 916543) |
| `TimestampFixtures.ResultsEndedAtRead` | tests/unit/test_models.py:57 | "2022-08-29T06:36:41.588467Z" reads as datetime(2022, 8, 29, 6, 36, 41, 588467) |
| `Models.ParseTimeData` | tests/unit/test_models.py:77-100 | submitted_at is required; the other three times are optional and read as None when absent or null; a present time must read |
| `ModelLaws.TimeDataRoundTrip` | tests/unit/test_models.py:77-100 | TimeData written into a payload reads back unchanged |
| `ModelLaws.OptionalTimestampRoundTrip` | tests/unit/test_models.py:90-97 | an optional time written or left out reads back as Some or None |
| `ModelLaws.OptionalTimesAbsent` | tests/unit/test_models.py:90-100 | missing expires_at and execution_ended_at read as None and never fail |
| `ModelFixtures.StatusFixtureTimes` | tests/unit/test_models.py:90-100 | the status payload's times are (submitted, None, started, None) |
| `ModelFixtures.ResultsFixtureTimes` | tests/unit/test_models.py:77-88 | all four times of the results payload are read |
| `ModelFixtures.StatusFixtureTimeData` | tests/unit/test_models.py:90-100 | TimeData.from_dict of the status payload, with its own strings, is (datetime(2022, 8, 29, 6, 33, 24, 913138), None, datetime(2022, 8, 29, 6, 33, 24, 916543), None) |
| `ModelFixtures.ResultsFixtureTimeData` | tests/unit/test_models.py:77-88 | TimeData.from_dict of the results payload, with its own strings, is the four datetimes the test expects |
| `Models.ParseResultMetadata` | tests/unit/test_models.py:125-137 | the six keys are required; column names are kept in order; numbers copied |
| `ModelLaws.MetadataRoundTrip` | tests/unit/test_models.py:125-137 | metadata written as a payload reads back unchanged |
| `ModelFixtures.MetadataFixtureRead` | tests/unit/test_models.py:33-40 | the test's metadata payload reads as (["ct", "TableName"], 194, 8, 2, 54, 900) |
| `Models.ParseExecutionResult` | tests/unit/test_models.py:145-159 | rows are kept in order and content; metadata is read as ResultMetadata |
| `ModelLaws.ExecutionResultRoundTrip` | tests/unit/test_models.py:145-159 | a result written as a payload reads back unchanged |
| `ModelFixtures.ResultFixtureRead` | tests/unit/test_models.py:58-64 | the test's result payload reads as its two rows and its metadata |
| `Models.ParseStatusResponse` | tests/unit/test_models.py:102-111 | the header fields, the times read from the same payload, result_metadata None exactly when absent; missing required keys fail |
| `ModelLaws.StatusRoundTrip` | tests/unit/test_models.py:102-111 | a status response written as a payload reads back unchanged |
| `ModelLaws.StatusWithoutMetadata` | tests/unit/test_models.py:102-111 | without result_metadata a status reads exactly when its header and times do, and has no metadata |
| `ModelLaws.StatusMissingKey` | dune_client/client.py:90-93 | a KeyError from a status payload names a key the payload lacks |
| `ModelFixtures.StatusFixtureRead` | tests/unit/test_models.py:26-32 | the test's status payload reads as (id, 980708, EXECUTING, its times, no metadata) |
| `Models.ParseResultsResponse` | tests/unit/test_models.py:161-174 | the header fields, the times, result None exactly when absent and otherwise read as ExecutionResult |
| `ModelLaws.ResultsRoundTrip` | tests/unit/test_models.py:161-174 | a results response written as a payload reads back unchanged |
| `ModelLaws.ResultsMissingKey` | dune_client/client.py:98-101 | a KeyError from a results payload names a key it or its result lacks |
| `ModelFixtures.ResultsFixtureRead` | tests/unit/test_models.py:50-65 | the test's results payload reads as (id, 980708, COMPLETED, its times, its result) |
| `ModelLaws.MetadataParity` | tests/unit/test_models.py:138-143 | the same metadata object reads the same under a status response and inside a results response |

## Left out

- HTTP itself: headers (the `x-dune-api-key` token is stored but not sent anywhere observable), timeouts, TLS and transport exceptions. The network is a script of answers; a used-up script stands for a connection failure.
- Logging and the `print` in the refresh loop: no observable effect in the model.
- Real time: `time.sleep` is a Slept event in the trace.
- A negative `ping_frequency`: `time.sleep` would raise; `ping` is a natural number.
- The default `ping_frequency` of 5 seconds (dune_client/client.py:115): the model has no default arguments, so every refresh is given its `ping` explicitly.
- Failure states: the refresh loop exits only on COMPLETED, as the code does, so FAILED, CANCELLED or EXPIRED keep it polling until the script runs out. No failure exit is invented.
- `dune_client/models.py`, `dune_client/types.py`, `dune_client/query.py` and `dune_client/interface.py` are not part of this model. The `from_dict` readers are reconstructed from the unit tests.
- Wrong-shaped payloads: only a missing key (a KeyError) is wrapped in DuneError, as `client.py` does. A wrong type or an unknown state literal propagates unwrapped, since `client.py` catches only KeyError.
- Models.ParseStatusResponse: an unknown state literal is rejected, as an Enum lookup would; this rejection is not stated as a separate property.
- `test_parse_status_response_completed` (tests/unit/test_models.py:113-123) is not restated: its fixture's state is EXECUTING while the expected record says COMPLETED, and its expected times omit the fixture's execution_ended_at.
- Timestamps: the calendar ranges of month, day, hour and so on are not checked, and only the `Z` (UTC) suffix is accepted, as the service sends.
- JSON numbers are integers: floating-point values are not modelled.
- Query parameter values are the strings `to_dict()["value"]` gives; the parameter types are not modelled.
- `Protocol.PollLoop` and the loop lemmas are stated for any status reader; the client uses them with ReadStatus.
