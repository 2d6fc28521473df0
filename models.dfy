/**
 * The typed records of the service's responses and their conversion from a
 * decoded JSON payload (`from_dict` on each record). Every conversion is a
 * validating parser: required keys raise MissingKey when absent, optional
 * keys that are absent or null give None, nested objects are read by the
 * same rules, and timestamps are read by Timestamps.ParseTimestamp.
 */
module Models {
  import opened Results
  import opened Json
  import opened Timestamps

  /** The lifecycle state of one execution. */
  datatype ExecutionState = Pending | Executing | Cancelled | Completed | Failed | Expired

  /** The exact, case-sensitive wire literal of each state. */
  function WireName(s: ExecutionState): string {
    match s
    case Pending => "QUERY_STATE_PENDING"
    case Executing => "QUERY_STATE_EXECUTING"
    case Cancelled => "QUERY_STATE_CANCELLED"
    case Completed => "QUERY_STATE_COMPLETED"
    case Failed => "QUERY_STATE_FAILED"
    case Expired => "QUERY_STATE_EXPIRED"
  }

  /** The state a wire literal names; None for any other string. */
  function StateFromWire(w: string): (r: Option<ExecutionState>)
    ensures r.Some? ==> WireName(r.value) == w
  {
    if w == "QUERY_STATE_PENDING" then Some(Pending)
    else if w == "QUERY_STATE_EXECUTING" then Some(Executing)
    else if w == "QUERY_STATE_CANCELLED" then Some(Cancelled)
    else if w == "QUERY_STATE_COMPLETED" then Some(Completed)
    else if w == "QUERY_STATE_FAILED" then Some(Failed)
    else if w == "QUERY_STATE_EXPIRED" then Some(Expired)
    else None
  }

  /** When the query ran. Only the submission time is always present. */
  datatype TimeData = TimeData(
    submittedAt: Timestamp,
    expiresAt: Option<Timestamp>,
    executionStartedAt: Option<Timestamp>,
    executionEndedAt: Option<Timestamp>)

  /** Sizes and timings of a result set; the column names keep the service's order. */
  datatype ResultMetadata = ResultMetadata(
    columnNames: seq<string>,
    resultSetBytes: int,
    totalRowCount: int,
    datapointCount: int,
    pendingTimeMillis: int,
    executionTimeMillis: int)

  /** One result row: column name to a dynamically typed value. */
  type Row = map<string, Json>

  datatype ExecutionResult = ExecutionResult(rows: seq<Row>, metadata: ResultMetadata)

  /** The answer to an execute request. */
  datatype ExecutionResponse = ExecutionResponse(executionId: string, state: ExecutionState)

  /** The answer to a status request. */
  datatype ExecutionStatusResponse = ExecutionStatusResponse(
    executionId: string,
    queryId: int,
    state: ExecutionState,
    times: TimeData,
    resultMetadata: Option<ResultMetadata>)

  /** The answer to a results request. */
  datatype ResultsResponse = ResultsResponse(
    executionId: string,
    queryId: int,
    state: ExecutionState,
    times: TimeData,
    result: Option<ExecutionResult>)

  const MetadataKeys: set<string> :=
    {"column_names", "result_set_bytes", "total_row_count", "datapoint_count",
     "pending_time_millis", "execution_time_millis"}

  // ---- field readers ----

  /** A required field holding a state's wire literal. */
  function RequiredState(fields: map<string, Json>, key: string): (r: Result<ExecutionState, ParseError>)
    ensures r.Ok? <==> key in fields && fields[key].JString? && StateFromWire(fields[key].s).Some?
    ensures r.Ok? ==> fields[key] == JString(WireName(r.value))
    ensures r.Err? ==> r.error == if key in fields then InvalidValue(key) else MissingKey(key)
  {
    var w :- RequiredString(fields, key);
    match StateFromWire(w)
    case Some(s) => Ok(s)
    case None => Err(InvalidValue(key))
  }

  /** The timestamp a field holds, if it holds a readable one. */
  function TimestampAt(fields: map<string, Json>, key: string): Option<Timestamp> {
    if key in fields && fields[key].JString? then ParseTimestamp(fields[key].s) else None
  }

  /** A required timestamp field. */
  function RequiredTimestamp(fields: map<string, Json>, key: string): (r: Result<Timestamp, ParseError>)
    ensures r.Ok? <==> TimestampAt(fields, key).Some?
    ensures r.Ok? ==> TimestampAt(fields, key) == Some(r.value)
    ensures r.Err? ==> r.error == if key in fields then InvalidValue(key) else MissingKey(key)
  {
    var s :- RequiredString(fields, key);
    match ParseTimestamp(s)
    case Some(t) => Ok(t)
    case None => Err(InvalidValue(key))
  }

  /** An optional timestamp field: absent or null is None, never an error. */
  function OptionalTimestamp(fields: map<string, Json>, key: string): (r: Result<Option<Timestamp>, ParseError>)
    ensures Absent(fields, key) ==> r == Ok(None)
    ensures !Absent(fields, key) ==> (r.Ok? <==> TimestampAt(fields, key).Some?)
    ensures !Absent(fields, key) && r.Ok? ==> r.value == TimestampAt(fields, key)
    ensures r.Err? ==> r.error == InvalidValue(key)
  {
    if Absent(fields, key) then Ok(None)
    else match TimestampAt(fields, key)
      case Some(t) => Ok(Some(t))
      case None => Err(InvalidValue(key))
  }

  /** The strings of a JSON array whose every item is a string, in order. */
  function StringItems(items: seq<Json>): (r: Option<seq<string>>)
    ensures r.Some? <==> forall i :: 0 <= i < |items| ==> items[i].JString?
    ensures r.Some? ==> |r.value| == |items| && forall i :: 0 <= i < |items| ==> items[i] == JString(r.value[i])
  {
    if items == [] then Some([])
    else match StringItems(items[1..])
      case None => None
      case Some(rest) =>
        if items[0].JString? then Some([items[0].s] + rest) else None
  }

  /** The objects of a JSON array whose every item is an object, in order. */
  function ObjectItems(items: seq<Json>): (r: Option<seq<Row>>)
    ensures r.Some? <==> forall i :: 0 <= i < |items| ==> items[i].JObject?
    ensures r.Some? ==> |r.value| == |items| && forall i :: 0 <= i < |items| ==> items[i] == JObject(r.value[i])
  {
    if items == [] then Some([])
    else match ObjectItems(items[1..])
      case None => None
      case Some(rest) =>
        if items[0].JObject? then Some([items[0].fields] + rest) else None
  }

  /** The identifying fields that status and results responses share. */
  datatype Header = Header(executionId: string, queryId: int, state: ExecutionState)

  /** Reads execution_id, query_id and state, in that order. */
  function ParseHeader(fields: map<string, Json>): (r: Result<Header, ParseError>)
    ensures r.Ok? ==>
      && "execution_id" in fields && fields["execution_id"] == JString(r.value.executionId)
      && "query_id" in fields && fields["query_id"] == JNumber(r.value.queryId)
      && "state" in fields && fields["state"] == JString(WireName(r.value.state))
    ensures r.Err? && r.error.MissingKey? ==>
      r.error.key in {"execution_id", "query_id", "state"} && r.error.key !in fields
  {
    var id :- RequiredString(fields, "execution_id");
    var queryId :- RequiredInt(fields, "query_id");
    var state :- RequiredState(fields, "state");
    Ok(Header(id, queryId, state))
  }

  // ---- from_dict ----

  /** `ExecutionResponse.from_dict`. */
  function ParseExecutionResponse(data: Json): (r: Result<ExecutionResponse, ParseError>)
    ensures r.Ok? <==>
      && data.JObject? && "execution_id" in data.fields && data.fields["execution_id"].JString?
      && "state" in data.fields && data.fields["state"].JString?
      && StateFromWire(data.fields["state"].s).Some?
    ensures r.Ok? ==> data.fields["execution_id"] == JString(r.value.executionId)
    ensures r.Ok? ==> data.fields["state"] == JString(WireName(r.value.state))
    ensures r.Err? && r.error.MissingKey? ==>
      data.JObject? && r.error.key in {"execution_id", "state"} && r.error.key !in data.fields
  {
    var fields :- Fields(data);
    var id :- RequiredString(fields, "execution_id");
    var state :- RequiredState(fields, "state");
    Ok(ExecutionResponse(id, state))
  }

  /** `TimeData.from_dict`: submitted_at is required, the other three are optional. */
  function ParseTimeData(data: Json): (r: Result<TimeData, ParseError>)
    ensures r.Ok? ==> data.JObject? && TimestampAt(data.fields, "submitted_at") == Some(r.value.submittedAt)
    ensures r.Ok? ==> OptionalTimestamp(data.fields, "expires_at") == Ok(r.value.expiresAt)
    ensures r.Ok? ==> OptionalTimestamp(data.fields, "execution_started_at") == Ok(r.value.executionStartedAt)
    ensures r.Ok? ==> OptionalTimestamp(data.fields, "execution_ended_at") == Ok(r.value.executionEndedAt)
    ensures r.Ok? <==>
      && data.JObject? && TimestampAt(data.fields, "submitted_at").Some?
      && OptionalTimestamp(data.fields, "expires_at").Ok?
      && OptionalTimestamp(data.fields, "execution_started_at").Ok?
      && OptionalTimestamp(data.fields, "execution_ended_at").Ok?
    ensures r.Err? && r.error.MissingKey? ==> data.JObject? && r.error.key == "submitted_at" && r.error.key !in data.fields
  {
    var fields :- Fields(data);
    var submitted :- RequiredTimestamp(fields, "submitted_at");
    var expires :- OptionalTimestamp(fields, "expires_at");
    var started :- OptionalTimestamp(fields, "execution_started_at");
    var ended :- OptionalTimestamp(fields, "execution_ended_at");
    Ok(TimeData(submitted, expires, started, ended))
  }

  /** `ResultMetadata.from_dict`: all six keys are required. */
  function ParseResultMetadata(data: Json): (r: Result<ResultMetadata, ParseError>)
    ensures r.Ok? ==> data.JObject? && MetadataKeys <= data.fields.Keys
    ensures r.Ok? ==>
      && data.fields["column_names"].JArray?
      && StringItems(data.fields["column_names"].items) == Some(r.value.columnNames)
    ensures r.Ok? ==>
      && data.fields["result_set_bytes"] == JNumber(r.value.resultSetBytes)
      && data.fields["total_row_count"] == JNumber(r.value.totalRowCount)
      && data.fields["datapoint_count"] == JNumber(r.value.datapointCount)
      && data.fields["pending_time_millis"] == JNumber(r.value.pendingTimeMillis)
      && data.fields["execution_time_millis"] == JNumber(r.value.executionTimeMillis)
    ensures data.JObject? && !(MetadataKeys <= data.fields.Keys) ==> r.Err?
    ensures r.Err? && r.error.MissingKey? ==>
      data.JObject? && r.error.key in MetadataKeys && r.error.key !in data.fields
  {
    var fields :- Fields(data);
    var columns :- Required(fields, "column_names");
    var names :- match (if columns.JArray? then StringItems(columns.items) else None)
      case Some(ns) => Ok(ns)
      case None => Err(InvalidValue("column_names"));
    var bytes :- RequiredInt(fields, "result_set_bytes");
    var total :- RequiredInt(fields, "total_row_count");
    var datapoints :- RequiredInt(fields, "datapoint_count");
    var pending :- RequiredInt(fields, "pending_time_millis");
    var running :- RequiredInt(fields, "execution_time_millis");
    Ok(ResultMetadata(names, bytes, total, datapoints, pending, running))
  }

  /** `ExecutionResult.from_dict`: rows kept in order, metadata read as ResultMetadata. */
  function ParseExecutionResult(data: Json): (r: Result<ExecutionResult, ParseError>)
    ensures r.Ok? ==> data.JObject? && "rows" in data.fields && data.fields["rows"].JArray?
    ensures r.Ok? ==> data.fields["rows"].items == seq(|r.value.rows|, i requires 0 <= i < |r.value.rows| => JObject(r.value.rows[i]))
    ensures r.Ok? ==> "metadata" in data.fields && ParseResultMetadata(data.fields["metadata"]) == Ok(r.value.metadata)
    ensures r.Err? && r.error.MissingKey? ==>
      data.JObject? &&
      ((r.error.key in {"rows", "metadata"} && r.error.key !in data.fields) ||
       ("metadata" in data.fields && ParseResultMetadata(data.fields["metadata"]) == Err(r.error)))
  {
    var fields :- Fields(data);
    var rowsJson :- Required(fields, "rows");
    var rows :- match (if rowsJson.JArray? then ObjectItems(rowsJson.items) else None)
      case Some(rs) => Ok(rs)
      case None => Err(InvalidValue("rows"));
    var metadataJson :- Required(fields, "metadata");
    var metadata :- ParseResultMetadata(metadataJson);
    Ok(ExecutionResult(rows, metadata))
  }

  /** `ExecutionStatusResponse.from_dict`: the times are read from the same payload. */
  function ParseStatusResponse(data: Json): (r: Result<ExecutionStatusResponse, ParseError>)
    ensures r.Ok? ==>
      && data.JObject?
      && ParseHeader(data.fields) == Ok(Header(r.value.executionId, r.value.queryId, r.value.state))
    ensures r.Ok? ==> ParseTimeData(data) == Ok(r.value.times)
    ensures r.Ok? ==> (r.value.resultMetadata.None? <==> Absent(data.fields, "result_metadata"))
    ensures r.Ok? && r.value.resultMetadata.Some? ==>
      ParseResultMetadata(data.fields["result_metadata"]) == Ok(r.value.resultMetadata.value)
    ensures data.JObject? && !({"execution_id", "query_id", "state", "submitted_at"} <= data.fields.Keys) ==> r.Err?
  {
    var fields :- Fields(data);
    var header :- ParseHeader(fields);
    var times :- ParseTimeData(data);
    var metadata :-
      if Absent(fields, "result_metadata") then Ok(None)
      else match ParseResultMetadata(fields["result_metadata"])
        case Ok(m) => Ok(Some(m))
        case Err(e) => Err(e);
    Ok(ExecutionStatusResponse(header.executionId, header.queryId, header.state, times, metadata))
  }

  /** `ResultsResponse.from_dict`: times from the payload, result read as ExecutionResult when present. */
  function ParseResultsResponse(data: Json): (r: Result<ResultsResponse, ParseError>)
    ensures r.Ok? ==>
      && data.JObject?
      && ParseHeader(data.fields) == Ok(Header(r.value.executionId, r.value.queryId, r.value.state))
    ensures r.Ok? ==> ParseTimeData(data) == Ok(r.value.times)
    ensures r.Ok? ==> (r.value.result.None? <==> Absent(data.fields, "result"))
    ensures r.Ok? && r.value.result.Some? ==>
      ParseExecutionResult(data.fields["result"]) == Ok(r.value.result.value)
    ensures data.JObject? && !({"execution_id", "query_id", "state", "submitted_at"} <= data.fields.Keys) ==> r.Err?
  {
    var fields :- Fields(data);
    var header :- ParseHeader(fields);
    var times :- ParseTimeData(data);
    var result :-
      if Absent(fields, "result") then Ok(None)
      else match ParseExecutionResult(fields["result"])
        case Ok(x) => Ok(Some(x))
        case Err(e) => Err(e);
    Ok(ResultsResponse(header.executionId, header.queryId, header.state, times, result))
  }
}
