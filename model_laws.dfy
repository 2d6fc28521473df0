/**
 * What the response conversions promise: each record written as the
 * service's payload reads back as itself, optional keys that are left out
 * read as None, metadata reads the same wherever it is nested, and a key
 * missing deep inside a payload surfaces as a MissingKey for that key.
 */
module ModelLaws {
  import opened Results
  import opened Json
  import opened Timestamps
  import opened Models

  lemma WireNameRoundTrip(s: ExecutionState)
    ensures StateFromWire(WireName(s)) == Some(s)
  {
  }

  /** Distinct states have distinct wire literals, so reading a literal never confuses two states. */
  lemma WireNameInjective(s: ExecutionState, t: ExecutionState)
    requires WireName(s) == WireName(t)
    ensures s == t
  {
    WireNameRoundTrip(s);
    WireNameRoundTrip(t);
  }

  // ---- the payloads the service sends for each record ----

  predicate RepresentableTimes(t: TimeData) {
    && Representable(t.submittedAt)
    && (t.expiresAt.Some? ==> Representable(t.expiresAt.value))
    && (t.executionStartedAt.Some? ==> Representable(t.executionStartedAt.value))
    && (t.executionEndedAt.Some? ==> Representable(t.executionEndedAt.value))
  }

  function TimestampJson(t: Timestamp): Json
    requires Representable(t)
  {
    JString(FormatTimestamp(t))
  }

  /** An optional timestamp is sent only when it has a value. */
  function WithOptionalTimestamp(fields: map<string, Json>, key: string, t: Option<Timestamp>): map<string, Json>
    requires t.Some? ==> Representable(t.value)
  {
    if t.Some? then fields[key := TimestampJson(t.value)] else fields
  }

  /** `fields` with the time keys of t added. */
  function WithTimes(fields: map<string, Json>, t: TimeData): map<string, Json>
    requires RepresentableTimes(t)
  {
    var withSubmitted := fields["submitted_at" := TimestampJson(t.submittedAt)];
    var withExpiry := WithOptionalTimestamp(withSubmitted, "expires_at", t.expiresAt);
    var withStart := WithOptionalTimestamp(withExpiry, "execution_started_at", t.executionStartedAt);
    WithOptionalTimestamp(withStart, "execution_ended_at", t.executionEndedAt)
  }

  function ExecutionResponseJson(e: ExecutionResponse): Json {
    JObject(map["execution_id" := JString(e.executionId), "state" := JString(WireName(e.state))])
  }

  function StringsJson(names: seq<string>): (items: seq<Json>)
    ensures |items| == |names|
  {
    seq(|names|, i requires 0 <= i < |names| => JString(names[i]))
  }

  function MetadataJson(m: ResultMetadata): Json {
    JObject(map[
      "column_names" := JArray(StringsJson(m.columnNames)),
      "result_set_bytes" := JNumber(m.resultSetBytes),
      "total_row_count" := JNumber(m.totalRowCount),
      "datapoint_count" := JNumber(m.datapointCount),
      "pending_time_millis" := JNumber(m.pendingTimeMillis),
      "execution_time_millis" := JNumber(m.executionTimeMillis)])
  }

  function RowsJson(rows: seq<Row>): (items: seq<Json>)
    ensures |items| == |rows|
  {
    seq(|rows|, i requires 0 <= i < |rows| => JObject(rows[i]))
  }

  function ExecutionResultJson(x: ExecutionResult): Json {
    JObject(map["rows" := JArray(RowsJson(x.rows)), "metadata" := MetadataJson(x.metadata)])
  }

  function HeaderFields(id: string, queryId: int, state: ExecutionState): map<string, Json> {
    map["execution_id" := JString(id), "query_id" := JNumber(queryId), "state" := JString(WireName(state))]
  }

  /** A status payload: header, then result_metadata when present, then the time keys. */
  function StatusJson(s: ExecutionStatusResponse): Json
    requires RepresentableTimes(s.times)
  {
    JObject(WithTimes(StatusOther(s), s.times))
  }

  /** A results payload: header, then result when present, then the time keys. */
  function ResultsJson(r: ResultsResponse): Json
    requires RepresentableTimes(r.times)
  {
    JObject(WithTimes(ResultsOther(r), r.times))
  }

  // ---- round trips ----

  lemma ExecutionResponseRoundTrip(e: ExecutionResponse)
    ensures ParseExecutionResponse(ExecutionResponseJson(e)) == Ok(e)
  {
    WireNameRoundTrip(e.state);
  }

  lemma StringItemsRoundTrip(names: seq<string>)
    ensures StringItems(StringsJson(names)) == Some(names)
  {
    var items := StringsJson(names);
    assert forall i :: 0 <= i < |items| ==> items[i].JString?;
    var r := StringItems(items);
    assert forall i :: 0 <= i < |names| ==> r.value[i] == names[i] by {
      forall i | 0 <= i < |names| ensures r.value[i] == names[i] {
        assert items[i] == JString(r.value[i]);
      }
    }
    assert r.value == names;
  }

  lemma ObjectItemsRoundTrip(rows: seq<Row>)
    ensures ObjectItems(RowsJson(rows)) == Some(rows)
  {
    var items := RowsJson(rows);
    assert forall i :: 0 <= i < |items| ==> items[i].JObject?;
    var r := ObjectItems(items);
    assert forall i :: 0 <= i < |rows| ==> r.value[i] == rows[i] by {
      forall i | 0 <= i < |rows| ensures r.value[i] == rows[i] {
        assert items[i] == JObject(r.value[i]);
      }
    }
    assert r.value == rows;
  }

  lemma MetadataRoundTrip(m: ResultMetadata)
    ensures ParseResultMetadata(MetadataJson(m)) == Ok(m)
  {
    StringItemsRoundTrip(m.columnNames);
  }

  lemma ExecutionResultRoundTrip(x: ExecutionResult)
    ensures ParseExecutionResult(ExecutionResultJson(x)) == Ok(x)
  {
    ObjectItemsRoundTrip(x.rows);
    MetadataRoundTrip(x.metadata);
  }

  /** An optional timestamp that was sent reads back as itself, one that was left out as None. */
  lemma OptionalTimestampRoundTrip(fields: map<string, Json>, key: string, t: Option<Timestamp>)
    requires t.Some? ==> Representable(t.value)
    requires key !in fields
    ensures OptionalTimestamp(WithOptionalTimestamp(fields, key, t), key) == Ok(t)
  {
    if t.Some? {
      ParseFormatRoundTrip(t.value);
    }
  }

  /** Adding a different key leaves what a timestamp field reads as unchanged. */
  lemma OptionalTimestampFrame(fields: map<string, Json>, key: string, other: string, t: Option<Timestamp>)
    requires t.Some? ==> Representable(t.value)
    requires key != other
    ensures TimestampAt(WithOptionalTimestamp(fields, other, t), key) == TimestampAt(fields, key)
    ensures OptionalTimestamp(WithOptionalTimestamp(fields, other, t), key) == OptionalTimestamp(fields, key)
  {
    var updated := WithOptionalTimestamp(fields, other, t);
    assert Absent(updated, key) == Absent(fields, key);
    assert TimestampAt(updated, key) == TimestampAt(fields, key);
  }

  /** TimeData is read field by field: these four readings decide it. */
  lemma ParseTimeDataFromFields(fields: map<string, Json>, t: TimeData)
    requires TimestampAt(fields, "submitted_at") == Some(t.submittedAt)
    requires OptionalTimestamp(fields, "expires_at") == Ok(t.expiresAt)
    requires OptionalTimestamp(fields, "execution_started_at") == Ok(t.executionStartedAt)
    requires OptionalTimestamp(fields, "execution_ended_at") == Ok(t.executionEndedAt)
    ensures ParseTimeData(JObject(fields)) == Ok(t)
  {
  }

  lemma SubmittedSent(t: TimeData, other: map<string, Json>)
    requires RepresentableTimes(t)
    ensures TimestampAt(WithTimes(other, t), "submitted_at") == Some(t.submittedAt)
  {
    var withSubmitted := other["submitted_at" := TimestampJson(t.submittedAt)];
    var withExpiry := WithOptionalTimestamp(withSubmitted, "expires_at", t.expiresAt);
    var withStart := WithOptionalTimestamp(withExpiry, "execution_started_at", t.executionStartedAt);
    ParseFormatRoundTrip(t.submittedAt);
    assert TimestampAt(withSubmitted, "submitted_at") == Some(t.submittedAt);
    OptionalTimestampFrame(withSubmitted, "submitted_at", "expires_at", t.expiresAt);
    OptionalTimestampFrame(withExpiry, "submitted_at", "execution_started_at", t.executionStartedAt);
    OptionalTimestampFrame(withStart, "submitted_at", "execution_ended_at", t.executionEndedAt);
  }

  lemma ExpirySent(t: TimeData, other: map<string, Json>)
    requires RepresentableTimes(t)
    requires "expires_at" !in other
    ensures OptionalTimestamp(WithTimes(other, t), "expires_at") == Ok(t.expiresAt)
  {
    var withSubmitted := other["submitted_at" := TimestampJson(t.submittedAt)];
    var withExpiry := WithOptionalTimestamp(withSubmitted, "expires_at", t.expiresAt);
    var withStart := WithOptionalTimestamp(withExpiry, "execution_started_at", t.executionStartedAt);
    OptionalTimestampRoundTrip(withSubmitted, "expires_at", t.expiresAt);
    OptionalTimestampFrame(withExpiry, "expires_at", "execution_started_at", t.executionStartedAt);
    OptionalTimestampFrame(withStart, "expires_at", "execution_ended_at", t.executionEndedAt);
  }

  lemma StartSent(t: TimeData, other: map<string, Json>)
    requires RepresentableTimes(t)
    requires "execution_started_at" !in other
    ensures OptionalTimestamp(WithTimes(other, t), "execution_started_at") == Ok(t.executionStartedAt)
  {
    var withSubmitted := other["submitted_at" := TimestampJson(t.submittedAt)];
    var withExpiry := WithOptionalTimestamp(withSubmitted, "expires_at", t.expiresAt);
    var withStart := WithOptionalTimestamp(withExpiry, "execution_started_at", t.executionStartedAt);
    OptionalTimestampRoundTrip(withExpiry, "execution_started_at", t.executionStartedAt);
    OptionalTimestampFrame(withStart, "execution_started_at", "execution_ended_at", t.executionEndedAt);
  }

  lemma EndSent(t: TimeData, other: map<string, Json>)
    requires RepresentableTimes(t)
    requires "execution_ended_at" !in other
    ensures OptionalTimestamp(WithTimes(other, t), "execution_ended_at") == Ok(t.executionEndedAt)
  {
    var withSubmitted := other["submitted_at" := TimestampJson(t.submittedAt)];
    var withExpiry := WithOptionalTimestamp(withSubmitted, "expires_at", t.expiresAt);
    var withStart := WithOptionalTimestamp(withExpiry, "execution_started_at", t.executionStartedAt);
    OptionalTimestampRoundTrip(withStart, "execution_ended_at", t.executionEndedAt);
  }

  /** The time fields, sent alongside keys that are not time keys, read back as the same TimeData. */
  lemma TimeDataRoundTrip(t: TimeData, other: map<string, Json>)
    requires RepresentableTimes(t)
    requires "expires_at" !in other && "execution_started_at" !in other && "execution_ended_at" !in other
    ensures ParseTimeData(JObject(WithTimes(other, t))) == Ok(t)
  {
    SubmittedSent(t, other);
    ExpirySent(t, other);
    StartSent(t, other);
    EndSent(t, other);
    ParseTimeDataFromFields(WithTimes(other, t), t);
  }

  /** Adding the time keys leaves every other key's value as it was. */
  lemma WithTimesFrame(other: map<string, Json>, t: TimeData, key: string)
    requires RepresentableTimes(t)
    requires key in other
    requires key != "submitted_at" && key != "expires_at" && key != "execution_started_at" && key != "execution_ended_at"
    ensures key in WithTimes(other, t) && WithTimes(other, t)[key] == other[key]
  {
  }

  lemma HeaderRoundTrip(other: map<string, Json>, t: TimeData, id: string, queryId: int, state: ExecutionState)
    requires RepresentableTimes(t)
    requires "execution_id" in other && other["execution_id"] == JString(id)
    requires "query_id" in other && other["query_id"] == JNumber(queryId)
    requires "state" in other && other["state"] == JString(WireName(state))
    ensures ParseHeader(WithTimes(other, t)) == Ok(Header(id, queryId, state))
  {
    WithTimesFrame(other, t, "execution_id");
    WithTimesFrame(other, t, "query_id");
    WithTimesFrame(other, t, "state");
    WireNameRoundTrip(state);
  }

  /** A status response is decided by its header, its times and its result_metadata. */
  lemma ParseStatusFromParts(data: Json, s: ExecutionStatusResponse)
    requires data.JObject?
    requires ParseHeader(data.fields) == Ok(Header(s.executionId, s.queryId, s.state))
    requires ParseTimeData(data) == Ok(s.times)
    requires s.resultMetadata.None? ==> Absent(data.fields, "result_metadata")
    requires s.resultMetadata.Some? ==>
      "result_metadata" in data.fields && ParseResultMetadata(data.fields["result_metadata"]) == Ok(s.resultMetadata.value)
    ensures ParseStatusResponse(data) == Ok(s)
  {
  }

  /** A results response is decided by its header, its times and its result. */
  lemma ParseResultsFromParts(data: Json, r: ResultsResponse)
    requires data.JObject?
    requires ParseHeader(data.fields) == Ok(Header(r.executionId, r.queryId, r.state))
    requires ParseTimeData(data) == Ok(r.times)
    requires r.result.None? ==> Absent(data.fields, "result")
    requires r.result.Some? ==>
      "result" in data.fields && ParseExecutionResult(data.fields["result"]) == Ok(r.result.value)
    ensures ParseResultsResponse(data) == Ok(r)
  {
  }

  /** The payload's non-time keys, before the time keys are added. */
  function StatusOther(s: ExecutionStatusResponse): (other: map<string, Json>)
    ensures "execution_id" in other && other["execution_id"] == JString(s.executionId)
    ensures "query_id" in other && other["query_id"] == JNumber(s.queryId)
    ensures "state" in other && other["state"] == JString(WireName(s.state))
    ensures "expires_at" !in other && "execution_started_at" !in other && "execution_ended_at" !in other
  {
    var header := HeaderFields(s.executionId, s.queryId, s.state);
    if s.resultMetadata.Some? then header["result_metadata" := MetadataJson(s.resultMetadata.value)] else header
  }

  function ResultsOther(r: ResultsResponse): (other: map<string, Json>)
    ensures "execution_id" in other && other["execution_id"] == JString(r.executionId)
    ensures "query_id" in other && other["query_id"] == JNumber(r.queryId)
    ensures "state" in other && other["state"] == JString(WireName(r.state))
    ensures "expires_at" !in other && "execution_started_at" !in other && "execution_ended_at" !in other
  {
    var header := HeaderFields(r.executionId, r.queryId, r.state);
    if r.result.Some? then header["result" := ExecutionResultJson(r.result.value)] else header
  }

  lemma StatusMetadataSent(s: ExecutionStatusResponse)
    requires RepresentableTimes(s.times)
    ensures s.resultMetadata.None? ==> Absent(WithTimes(StatusOther(s), s.times), "result_metadata")
    ensures s.resultMetadata.Some? ==>
      && "result_metadata" in WithTimes(StatusOther(s), s.times)
      && ParseResultMetadata(WithTimes(StatusOther(s), s.times)["result_metadata"]) == Ok(s.resultMetadata.value)
  {
    var other := StatusOther(s);
    if s.resultMetadata.Some? {
      WithTimesFrame(other, s.times, "result_metadata");
      MetadataRoundTrip(s.resultMetadata.value);
    } else {
      assert "result_metadata" !in other;
    }
  }

  lemma ResultSent(r: ResultsResponse)
    requires RepresentableTimes(r.times)
    ensures r.result.None? ==> Absent(WithTimes(ResultsOther(r), r.times), "result")
    ensures r.result.Some? ==>
      && "result" in WithTimes(ResultsOther(r), r.times)
      && ParseExecutionResult(WithTimes(ResultsOther(r), r.times)["result"]) == Ok(r.result.value)
  {
    var other := ResultsOther(r);
    if r.result.Some? {
      WithTimesFrame(other, r.times, "result");
      ExecutionResultRoundTrip(r.result.value);
    } else {
      assert "result" !in other;
    }
  }

  /** A status record sent as the service's payload reads back as itself. */
  lemma StatusRoundTrip(s: ExecutionStatusResponse)
    requires RepresentableTimes(s.times)
    ensures ParseStatusResponse(StatusJson(s)) == Ok(s)
  {
    var other := StatusOther(s);
    assert StatusJson(s) == JObject(WithTimes(other, s.times));
    HeaderRoundTrip(other, s.times, s.executionId, s.queryId, s.state);
    TimeDataRoundTrip(s.times, other);
    StatusMetadataSent(s);
    ParseStatusFromParts(JObject(WithTimes(other, s.times)), s);
  }

  /** A results record sent as the service's payload reads back as itself. */
  lemma ResultsRoundTrip(r: ResultsResponse)
    requires RepresentableTimes(r.times)
    ensures ParseResultsResponse(ResultsJson(r)) == Ok(r)
  {
    var other := ResultsOther(r);
    assert ResultsJson(r) == JObject(WithTimes(other, r.times));
    HeaderRoundTrip(other, r.times, r.executionId, r.queryId, r.state);
    TimeDataRoundTrip(r.times, other);
    ResultSent(r);
    ParseResultsFromParts(JObject(WithTimes(other, r.times)), r);
  }

  // ---- laws the tests pin down ----

  /** Optional times that are absent or null read as None, and reading them never fails. */
  lemma OptionalTimesAbsent(data: Json, submitted: Timestamp)
    requires data.JObject? && TimestampAt(data.fields, "submitted_at") == Some(submitted)
    requires Absent(data.fields, "expires_at") && Absent(data.fields, "execution_ended_at")
    ensures ParseTimeData(data).Ok? <==> OptionalTimestamp(data.fields, "execution_started_at").Ok?
    ensures ParseTimeData(data).Ok? ==>
      ParseTimeData(data) == Ok(TimeData(submitted, None, OptionalTimestamp(data.fields, "execution_started_at").value, None))
  {
    if ParseTimeData(data).Ok? {
      ParseTimeDataFromFields(data.fields, ParseTimeData(data).value);
    }
  }

  /**
   * A status payload without result_metadata reads as the record whose
   * metadata is None and whose times are the TimeData of the same payload.
   */
  lemma StatusWithoutMetadata(data: Json)
    requires data.JObject? && Absent(data.fields, "result_metadata")
    ensures ParseStatusResponse(data).Ok? <==> ParseHeader(data.fields).Ok? && ParseTimeData(data).Ok?
    ensures ParseStatusResponse(data).Ok? ==>
      var h := ParseHeader(data.fields).value;
      ParseStatusResponse(data).value ==
        ExecutionStatusResponse(h.executionId, h.queryId, h.state, ParseTimeData(data).value, None)
  {
    if ParseHeader(data.fields).Ok? && ParseTimeData(data).Ok? {
      var h := ParseHeader(data.fields).value;
      ParseStatusFromParts(data, ExecutionStatusResponse(h.executionId, h.queryId, h.state, ParseTimeData(data).value, None));
    }
  }

  /**
   * The same metadata object reads as the same record whether it sits at the
   * top of a status payload or inside the result of a results payload.
   */
  lemma MetadataParity(status: Json, results: Json)
    requires status.JObject? && "result_metadata" in status.fields
    requires results.JObject? && "result" in results.fields && results.fields["result"].JObject?
    requires "metadata" in results.fields["result"].fields
    requires status.fields["result_metadata"] == results.fields["result"].fields["metadata"]
    requires ParseStatusResponse(status).Ok? && ParseResultsResponse(results).Ok?
    ensures ParseResultsResponse(results).value.result.Some?
    ensures ParseStatusResponse(status).value.resultMetadata == Some(ParseResultsResponse(results).value.result.value.metadata)
  {
    var x := ParseResultsResponse(results).value.result;
    assert !Absent(results.fields, "result");
    var m := results.fields["result"].fields["metadata"];
    assert ParseResultMetadata(m) == Ok(x.value.metadata);
    assert !Absent(status.fields, "result_metadata");
  }

  /**
   * A missing key in a status payload is one of the required top-level keys,
   * or a metadata key missing from result_metadata.
   */
  lemma StatusMissingKey(data: Json, key: string)
    requires ParseStatusResponse(data) == Err(MissingKey(key))
    ensures data.JObject?
    ensures
      || (key in {"execution_id", "query_id", "state", "submitted_at"} && key !in data.fields)
      || (&& "result_metadata" in data.fields && data.fields["result_metadata"].JObject?
          && key in MetadataKeys && key !in data.fields["result_metadata"].fields)
  {
    if ParseHeader(data.fields).Ok? && ParseTimeData(data).Ok? {
      assert ParseResultMetadata(data.fields["result_metadata"]) == Err(MissingKey(key));
    }
  }

  /**
   * A missing key in a results payload is one of the required top-level keys,
   * rows or metadata missing from the result, or a metadata key missing from
   * the result's metadata.
   */
  lemma ResultsMissingKey(data: Json, key: string)
    requires ParseResultsResponse(data) == Err(MissingKey(key))
    ensures data.JObject?
    ensures
      || (key in {"execution_id", "query_id", "state", "submitted_at"} && key !in data.fields)
      || (&& "result" in data.fields && data.fields["result"].JObject?
          && var x := data.fields["result"].fields;
          || (key in {"rows", "metadata"} && key !in x)
          || ("metadata" in x && x["metadata"].JObject? && key in MetadataKeys && key !in x["metadata"].fields))
  {
    if ParseHeader(data.fields).Ok? && ParseTimeData(data).Ok? {
      var x := data.fields["result"];
      assert ParseExecutionResult(x) == Err(MissingKey(key));
      if "metadata" in x.fields && ParseResultMetadata(x.fields["metadata"]) == Err(MissingKey(key)) {
        assert x.fields["metadata"].JObject?;
      }
    }
  }
}
