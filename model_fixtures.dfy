/**
 * The unit tests' payloads, read by the model. The record-level lemmas take
 * the timestamp strings as parameters together with what they parse to, so
 * each is about the keys, states, numbers and nesting of the payload;
 * StatusFixtureTimeData and ResultsFixtureTimeData then supply the fixtures'
 * own strings, whose readings TimestampFixtures proves.
 */
module ModelFixtures {
  import opened Results
  import opened Json
  import opened Timestamps
  import opened TimestampFixtures
  import opened Models
  import opened ModelLaws

  const ExecutionId: string := "01GBM4W2N0NMCGPZYW8AYK4YF1"
  const QueryId: int := 980708

  function MetadataFixture(): Json {
    JObject(map[
      "column_names" := JArray([JString("ct"), JString("TableName")]),
      "result_set_bytes" := JNumber(194),
      "total_row_count" := JNumber(8),
      "datapoint_count" := JNumber(2),
      "pending_time_millis" := JNumber(54),
      "execution_time_millis" := JNumber(900)])
  }

  function FirstRow(): Row {
    map["TableName" := JString("eth_blocks"), "ct" := JNumber(6296)]
  }

  function SecondRow(): Row {
    map["TableName" := JString("eth_traces"), "ct" := JNumber(4474223)]
  }

  function ResultFixture(): Json {
    JObject(map["rows" := JArray([JObject(FirstRow()), JObject(SecondRow())]), "metadata" := MetadataFixture()])
  }

  /** The execute answer: the id is copied and QUERY_STATE_PENDING reads as Pending. */
  lemma ExecutionResponseFixture()
    ensures ParseExecutionResponse(JObject(map["execution_id" := JString(ExecutionId), "state" := JString("QUERY_STATE_PENDING")]))
      == Ok(ExecutionResponse(ExecutionId, Pending))
  {
    WireNameRoundTrip(Pending);
  }

  /** All six metadata fields are copied, the column names in their order. */
  lemma MetadataFixtureRead()
    ensures ParseResultMetadata(MetadataFixture()) == Ok(ResultMetadata(["ct", "TableName"], 194, 8, 2, 54, 900))
  {
    var m := ResultMetadata(["ct", "TableName"], 194, 8, 2, 54, 900);
    assert StringsJson(m.columnNames) == [JString("ct"), JString("TableName")];
    assert MetadataFixture() == MetadataJson(m);
    MetadataRoundTrip(m);
  }

  /** Both rows are kept in order and content; the metadata reads as above. */
  lemma ResultFixtureRead()
    ensures ParseExecutionResult(ResultFixture()) ==
      Ok(ExecutionResult([FirstRow(), SecondRow()], ResultMetadata(["ct", "TableName"], 194, 8, 2, 54, 900)))
  {
    var x := ExecutionResult([FirstRow(), SecondRow()], ResultMetadata(["ct", "TableName"], 194, 8, 2, 54, 900));
    assert RowsJson(x.rows) == [JObject(FirstRow()), JObject(SecondRow())];
    MetadataFixtureRead();
    assert x.metadata == ResultMetadata(["ct", "TableName"], 194, 8, 2, 54, 900);
    assert StringsJson(x.metadata.columnNames) == [JString("ct"), JString("TableName")];
    assert MetadataFixture() == MetadataJson(x.metadata);
    assert ResultFixture() == ExecutionResultJson(x);
    ExecutionResultRoundTrip(x);
  }

  function StatusFixture(submitted: string, started: string): Json {
    JObject(map[
      "execution_id" := JString(ExecutionId),
      "query_id" := JNumber(QueryId),
      "state" := JString("QUERY_STATE_EXECUTING"),
      "submitted_at" := JString(submitted),
      "execution_started_at" := JString(started)])
  }

  function ResultsFixture(submitted: string, expires: string, started: string, ended: string): Json {
    JObject(map[
      "execution_id" := JString(ExecutionId),
      "query_id" := JNumber(QueryId),
      "state" := JString("QUERY_STATE_COMPLETED"),
      "submitted_at" := JString(submitted),
      "expires_at" := JString(expires),
      "execution_started_at" := JString(started),
      "execution_ended_at" := JString(ended),
      "result" := ResultFixture()])
  }

  /** A field holding a readable timestamp string reads as that timestamp, required or optional. */
  lemma TimestampSent(fields: map<string, Json>, key: string, text: string, t: Timestamp)
    requires key in fields && fields[key] == JString(text) && ParseTimestamp(text) == Some(t)
    ensures TimestampAt(fields, key) == Some(t)
    ensures OptionalTimestamp(fields, key) == Ok(Some(t))
  {
  }

  /** A payload holding four readable timestamp strings reads as the TimeData of what they parse to. */
  lemma AllTimesSent(fields: map<string, Json>, submitted: string, expires: string, started: string, ended: string, times: TimeData)
    requires ParseTimestamp(submitted) == Some(times.submittedAt)
    requires times.expiresAt.Some? && ParseTimestamp(expires) == times.expiresAt
    requires times.executionStartedAt.Some? && ParseTimestamp(started) == times.executionStartedAt
    requires times.executionEndedAt.Some? && ParseTimestamp(ended) == times.executionEndedAt
    requires "submitted_at" in fields && fields["submitted_at"] == JString(submitted)
    requires "expires_at" in fields && fields["expires_at"] == JString(expires)
    requires "execution_started_at" in fields && fields["execution_started_at"] == JString(started)
    requires "execution_ended_at" in fields && fields["execution_ended_at"] == JString(ended)
    ensures ParseTimeData(JObject(fields)) == Ok(times)
  {
    TimestampSent(fields, "submitted_at", submitted, times.submittedAt);
    TimestampSent(fields, "expires_at", expires, times.expiresAt.value);
    TimestampSent(fields, "execution_started_at", started, times.executionStartedAt.value);
    TimestampSent(fields, "execution_ended_at", ended, times.executionEndedAt.value);
    ParseTimeDataFromFields(fields, times);
  }

  lemma StatusFixtureHeader(submitted: string, started: string)
    ensures ParseHeader(StatusFixture(submitted, started).fields) == Ok(Header(ExecutionId, QueryId, Executing))
  {
    WireNameRoundTrip(Executing);
  }

  /** Where the status payload keeps its two timestamp strings, and the keys it leaves out. */
  lemma StatusFixtureLayout(submitted: string, started: string)
    ensures var fields := StatusFixture(submitted, started).fields;
      && "submitted_at" in fields && fields["submitted_at"] == JString(submitted)
      && "execution_started_at" in fields && fields["execution_started_at"] == JString(started)
      && "expires_at" !in fields && "execution_ended_at" !in fields && "result_metadata" !in fields
  {
  }

  /** The status payload has no expires_at and no execution_ended_at: both read as None. */
  lemma StatusFixtureTimes(submitted: string, started: string, s: Timestamp, t: Timestamp)
    requires ParseTimestamp(submitted) == Some(s) && ParseTimestamp(started) == Some(t)
    ensures ParseTimeData(StatusFixture(submitted, started)) == Ok(TimeData(s, None, Some(t), None))
  {
    StatusFixtureLayout(submitted, started);
    var data := StatusFixture(submitted, started);
    TimestampSent(data.fields, "submitted_at", submitted, s);
    TimestampSent(data.fields, "execution_started_at", started, t);
    OptionalTimesAbsent(data, s);
  }

  /**
   * The status fixture's times, as the test expects them: submitted at
   * 2022-08-29 06:33:24.913138, started at 06:33:24.916543 (the nine-digit
   * fraction truncated), with no expiry and no end.
   */
  lemma StatusFixtureTimeData()
    ensures ParseTimeData(StatusFixture("2022-08-29T06:33:24.913138Z", "2022-08-29T06:33:24.916543331Z")) ==
      Ok(TimeData(Timestamp(2022, 8, 29, 6, 33, 24, 913138), None, Some(Timestamp(2022, 8, 29, 6, 33, 24, 916543)), None))
  {
    var submitted, started := "2022-08-29T06:33:24.913138Z", "2022-08-29T06:33:24.916543331Z";
    var s, t := Timestamp(2022, 8, 29, 6, 33, 24, 913138), Timestamp(2022, 8, 29, 6, 33, 24, 916543);
    assert ParseTimestamp(submitted) == Some(s) by { SubmittedAtRead(); }
    assert ParseTimestamp(started) == Some(t) by { StatusStartedAtRead(); }
    StatusFixtureTimes(submitted, started, s, t);
  }

  /** The status payload reads as the record whose metadata is None and whose times are its TimeData. */
  lemma StatusFixtureRead(submitted: string, started: string, s: Timestamp, t: Timestamp)
    requires ParseTimestamp(submitted) == Some(s) && ParseTimestamp(started) == Some(t)
    ensures ParseStatusResponse(StatusFixture(submitted, started)) ==
      Ok(ExecutionStatusResponse(ExecutionId, QueryId, Executing, TimeData(s, None, Some(t), None), None))
  {
    var data := StatusFixture(submitted, started);
    StatusFixtureLayout(submitted, started);
    StatusFixtureHeader(submitted, started);
    StatusFixtureTimes(submitted, started, s, t);
    ParseStatusFromParts(data, ExecutionStatusResponse(ExecutionId, QueryId, Executing, TimeData(s, None, Some(t), None), None));
  }

  lemma ResultsFixtureHeader(submitted: string, expires: string, started: string, ended: string)
    ensures ParseHeader(ResultsFixture(submitted, expires, started, ended).fields) == Ok(Header(ExecutionId, QueryId, Completed))
  {
    WireNameRoundTrip(Completed);
  }

  /** Where the results payload keeps its four timestamp strings. */
  lemma ResultsFixtureLayout(submitted: string, expires: string, started: string, ended: string)
    ensures var fields := ResultsFixture(submitted, expires, started, ended).fields;
      && "submitted_at" in fields && fields["submitted_at"] == JString(submitted)
      && "expires_at" in fields && fields["expires_at"] == JString(expires)
      && "execution_started_at" in fields && fields["execution_started_at"] == JString(started)
      && "execution_ended_at" in fields && fields["execution_ended_at"] == JString(ended)
  {
  }

  /** All four times of the results payload are read. */
  lemma ResultsFixtureTimes(submitted: string, expires: string, started: string, ended: string, times: TimeData)
    requires ParseTimestamp(submitted) == Some(times.submittedAt)
    requires times.expiresAt.Some? && ParseTimestamp(expires) == times.expiresAt
    requires times.executionStartedAt.Some? && ParseTimestamp(started) == times.executionStartedAt
    requires times.executionEndedAt.Some? && ParseTimestamp(ended) == times.executionEndedAt
    ensures ParseTimeData(ResultsFixture(submitted, expires, started, ended)) == Ok(times)
  {
    ResultsFixtureLayout(submitted, expires, started, ended);
    AllTimesSent(ResultsFixture(submitted, expires, started, ended).fields, submitted, expires, started, ended, times);
  }

  /**
   * The results fixture's four times, as the test expects them: the
   * five-digit expiry fraction padded to 588470, the others kept.
   */
  lemma ResultsFixtureTimeData()
    ensures ParseTimeData(ResultsFixture("2022-08-29T06:33:24.913138Z", "2024-08-28T06:36:41.58847Z",
                                         "2022-08-29T06:33:24.916543Z", "2022-08-29T06:36:41.588467Z")) ==
      Ok(TimeData(Timestamp(2022, 8, 29, 6, 33, 24, 913138), Some(Timestamp(2024, 8, 28, 6, 36, 41, 588470)),
                  Some(Timestamp(2022, 8, 29, 6, 33, 24, 916543)), Some(Timestamp(2022, 8, 29, 6, 36, 41, 588467))))
  {
    var submitted, expires := "2022-08-29T06:33:24.913138Z", "2024-08-28T06:36:41.58847Z";
    var started, ended := "2022-08-29T06:33:24.916543Z", "2022-08-29T06:36:41.588467Z";
    var times := TimeData(Timestamp(2022, 8, 29, 6, 33, 24, 913138), Some(Timestamp(2024, 8, 28, 6, 36, 41, 588470)),
                          Some(Timestamp(2022, 8, 29, 6, 33, 24, 916543)), Some(Timestamp(2022, 8, 29, 6, 36, 41, 588467)));
    assert ParseTimestamp(submitted) == Some(times.submittedAt) by { SubmittedAtRead(); }
    assert ParseTimestamp(expires) == times.expiresAt by { ExpiresAtRead(); }
    assert ParseTimestamp(started) == times.executionStartedAt by { ResultsStartedAtRead(); }
    assert ParseTimestamp(ended) == times.executionEndedAt by { ResultsEndedAtRead(); }
    ResultsFixtureTimes(submitted, expires, started, ended, times);
  }

  /**
   * The results payload: QUERY_STATE_COMPLETED reads as Completed, the four
   * times are read, and the nested result reads as ResultFixtureRead says.
   */
  lemma ResultsFixtureRead(submitted: string, expires: string, started: string, ended: string, times: TimeData)
    requires ParseTimestamp(submitted) == Some(times.submittedAt)
    requires times.expiresAt.Some? && ParseTimestamp(expires) == times.expiresAt
    requires times.executionStartedAt.Some? && ParseTimestamp(started) == times.executionStartedAt
    requires times.executionEndedAt.Some? && ParseTimestamp(ended) == times.executionEndedAt
    ensures ParseResultsResponse(ResultsFixture(submitted, expires, started, ended)) ==
      Ok(ResultsResponse(ExecutionId, QueryId, Completed, times,
        Some(ExecutionResult([FirstRow(), SecondRow()], ResultMetadata(["ct", "TableName"], 194, 8, 2, 54, 900)))))
  {
    var data := ResultsFixture(submitted, expires, started, ended);
    assert "result" in data.fields && data.fields["result"] == ResultFixture();
    ResultsFixtureHeader(submitted, expires, started, ended);
    ResultsFixtureTimes(submitted, expires, started, ended, times);
    ResultFixtureRead();
    ParseResultsFromParts(data, ResultsResponse(ExecutionId, QueryId, Completed, times,
      Some(ExecutionResult([FirstRow(), SecondRow()], ResultMetadata(["ct", "TableName"], 194, 8, 2, 54, 900)))));
  }
}
