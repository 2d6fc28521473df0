/**
 * What the client's calls do against a service that answers with a fixed
 * script of responses: the requests each call sends, how it reads the
 * answer, and the errors it raises. These functions are the specification
 * the client's methods are proved against.
 */
module Protocol {
  import opened Results
  import opened Json
  import opened Models
  import opened Endpoints

  /** An HTTP answer; its body is None when it does not decode as JSON. */
  datatype HttpResponse = HttpResponse(status: int, body: Option<Json>)

  /** What a client call can raise. */
  datatype ClientError =
    | DuneError(payload: Json, responseName: string, missingKey: string)  // a KeyError while converting, re-raised with the payload
    | Raised(error: ParseError)                // any other conversion failure, propagated as it is
    | HttpError(status: int)                   // raise_for_status on an undecodable answer
    | NotDecodable                             // the ValueError after raise_for_status did not raise
    | ConnectionFailed                         // no answer came back
    | MissingResult(response: ResultsResponse) // refresh's assertion that a completed execution has a result

  /** What the client does to the outside world, in order. */
  datatype Event =
    | GetSent(url: string)
    | PostSent(url: string, body: Option<Json>)
    | Slept(seconds: nat)

  /** `_handle_response`: a decodable body is returned whatever the status; otherwise an error is raised. */
  function HandleResponse(resp: HttpResponse): (r: Result<Json, ClientError>)
    ensures r.Ok? <==> resp.body.Some?
    ensures r.Ok? ==> r.value == resp.body.value
    ensures r.Err? ==> r.error == if 400 <= resp.status < 600 then HttpError(resp.status) else NotDecodable
  {
    match resp.body
    case Some(payload) => Ok(payload)
    case None => if 400 <= resp.status < 600 then Err(HttpError(resp.status)) else Err(NotDecodable)
  }

  /** The answer to the next request: the script's next response, or a connection failure once it is used up. */
  function Receive(replies: seq<HttpResponse>): Result<Json, ClientError> {
    if replies == [] then Err(ConnectionFailed) else HandleResponse(replies[0])
  }

  /** The script after one request. */
  function Remaining(replies: seq<HttpResponse>): seq<HttpResponse> {
    if replies == [] then [] else replies[1..]
  }

  /** `except KeyError as err: raise DuneError(payload, name, err)`: only a missing key is wrapped. */
  function WrapParse<T>(payload: Json, name: string, parsed: Result<T, ParseError>): (r: Result<T, ClientError>)
    ensures r.Ok? <==> parsed.Ok?
    ensures r.Ok? ==> r.value == parsed.value
    ensures parsed.Err? && parsed.error.MissingKey? ==> r == Err(DuneError(payload, name, parsed.error.key))
    ensures parsed.Err? && !parsed.error.MissingKey? ==> r == Err(Raised(parsed.error))
  {
    match parsed
    case Ok(v) => Ok(v)
    case Err(MissingKey(k)) => Err(DuneError(payload, name, k))
    case Err(e) => Err(Raised(e))
  }

  // ---- reading one answer ----

  function ReadExecution(reply: HttpResponse): (r: Result<ExecutionResponse, ClientError>)
    ensures r.Ok? <==> reply.body.Some? && ParseExecutionResponse(reply.body.value).Ok?
    ensures r.Ok? ==> Ok(r.value) == ParseExecutionResponse(reply.body.value)
    ensures r.Err? && r.error.DuneError? ==>
      && reply.body.Some? && r.error.payload == reply.body.value && r.error.responseName == "ExecutionResponse"
      && ParseExecutionResponse(reply.body.value) == Err(MissingKey(r.error.missingKey))
    ensures reply.body.Some? && ParseExecutionResponse(reply.body.value).Err? ==>
      var e := ParseExecutionResponse(reply.body.value).error;
      r == Err(if e.MissingKey? then DuneError(reply.body.value, "ExecutionResponse", e.key) else Raised(e))
    ensures reply.body.None? ==> r == Err(if 400 <= reply.status < 600 then HttpError(reply.status) else NotDecodable)
  {
    var payload :- HandleResponse(reply);
    WrapParse(payload, "ExecutionResponse", ParseExecutionResponse(payload))
  }

  function ReadStatus(reply: HttpResponse): (r: Result<ExecutionStatusResponse, ClientError>)
    ensures r.Ok? <==> reply.body.Some? && ParseStatusResponse(reply.body.value).Ok?
    ensures r.Ok? ==> Ok(r.value) == ParseStatusResponse(reply.body.value)
    ensures r.Err? && r.error.DuneError? ==>
      && reply.body.Some? && r.error.payload == reply.body.value && r.error.responseName == "ExecutionStatusResponse"
      && ParseStatusResponse(reply.body.value) == Err(MissingKey(r.error.missingKey))
    ensures reply.body.Some? && ParseStatusResponse(reply.body.value).Err? ==>
      var e := ParseStatusResponse(reply.body.value).error;
      r == Err(if e.MissingKey? then DuneError(reply.body.value, "ExecutionStatusResponse", e.key) else Raised(e))
    ensures reply.body.None? ==> r == Err(if 400 <= reply.status < 600 then HttpError(reply.status) else NotDecodable)
  {
    var payload :- HandleResponse(reply);
    WrapParse(payload, "ExecutionStatusResponse", ParseStatusResponse(payload))
  }

  function ReadResults(reply: HttpResponse): (r: Result<ResultsResponse, ClientError>)
    ensures r.Ok? <==> reply.body.Some? && ParseResultsResponse(reply.body.value).Ok?
    ensures r.Ok? ==> Ok(r.value) == ParseResultsResponse(reply.body.value)
    ensures r.Err? && r.error.DuneError? ==>
      && reply.body.Some? && r.error.payload == reply.body.value && r.error.responseName == "ResultsResponse"
      && ParseResultsResponse(reply.body.value) == Err(MissingKey(r.error.missingKey))
    ensures reply.body.Some? && ParseResultsResponse(reply.body.value).Err? ==>
      var e := ParseResultsResponse(reply.body.value).error;
      r == Err(if e.MissingKey? then DuneError(reply.body.value, "ResultsResponse", e.key) else Raised(e))
    ensures reply.body.None? ==> r == Err(if 400 <= reply.status < 600 then HttpError(reply.status) else NotDecodable)
  {
    var payload :- HandleResponse(reply);
    WrapParse(payload, "ResultsResponse", ParseResultsResponse(payload))
  }

  /** `response_json["success"]`: the value as it is, whatever its type. */
  function ReadCancellation(reply: HttpResponse): (r: Result<Json, ClientError>)
    ensures r.Ok? <==> reply.body.Some? && reply.body.value.JObject? && "success" in reply.body.value.fields
    ensures r.Ok? ==> r.value == reply.body.value.fields["success"]
    ensures reply.body.Some? && reply.body.value.JObject? && "success" !in reply.body.value.fields ==>
      r == Err(DuneError(reply.body.value, "CancellationResponse", "success"))
    ensures reply.body.Some? && !reply.body.value.JObject? ==> r == Err(Raised(NotAnObject))
  {
    var payload :- HandleResponse(reply);
    var fields :- WrapParse(payload, "CancellationResponse", Fields(payload));
    WrapParse(payload, "CancellationResponse", Required(fields, "success"))
  }

  // ---- one call each ----

  /** The outcome of a call, what it sent, and the script left after it. */
  datatype Step<T> = Step(result: Result<T, ClientError>, events: seq<Event>, rest: seq<HttpResponse>)

  /** Reading an answer that did not come is a connection failure. */
  function Answer<T>(replies: seq<HttpResponse>, read: HttpResponse -> Result<T, ClientError>): Result<T, ClientError> {
    if replies == [] then Err(ConnectionFailed) else read(replies[0])
  }

  /** `execute`: one POST of the parameters to the query's execute URL; its answer read as an ExecutionResponse. */
  function ExecuteStep(q: Query, replies: seq<HttpResponse>): (s: Step<ExecutionResponse>)
    ensures s.events == [PostSent(Url(ExecuteQuery(q.queryId)), Some(ExecuteBody(q)))]
    ensures replies == [] ==> s.result == Err(ConnectionFailed)
    ensures replies != [] ==> s.result == ReadExecution(replies[0])
  {
    Step(Answer(replies, ReadExecution), [PostSent(Url(ExecuteQuery(q.queryId)), Some(ExecuteBody(q)))], Remaining(replies))
  }

  /** `get_status`: one GET of the job's status URL; its answer read as an ExecutionStatusResponse. */
  function StatusStep(job: string, replies: seq<HttpResponse>): (s: Step<ExecutionStatusResponse>)
    ensures s.events == [GetSent(Url(Status(job)))]
    ensures replies == [] ==> s.result == Err(ConnectionFailed)
    ensures replies != [] ==> s.result == ReadStatus(replies[0])
  {
    Step(Answer(replies, ReadStatus), [GetSent(Url(Status(job)))], Remaining(replies))
  }

  /** `get_result`: one GET of the job's results URL; its answer read as a ResultsResponse. */
  function ResultStep(job: string, replies: seq<HttpResponse>): (s: Step<ResultsResponse>)
    ensures s.events == [GetSent(Url(Results(job)))]
    ensures replies == [] ==> s.result == Err(ConnectionFailed)
    ensures replies != [] ==> s.result == ReadResults(replies[0])
  {
    Step(Answer(replies, ReadResults), [GetSent(Url(Results(job)))], Remaining(replies))
  }

  /** `cancel_execution`: one POST with no body to the job's cancel URL; its answer's `success` returned. */
  function CancelStep(job: string, replies: seq<HttpResponse>): (s: Step<Json>)
    ensures s.events == [PostSent(Url(Cancel(job)), None)]
    ensures replies == [] ==> s.result == Err(ConnectionFailed)
    ensures replies != [] ==> s.result == ReadCancellation(replies[0])
  {
    Step(Answer(replies, ReadCancellation), [PostSent(Url(Cancel(job)), None)], Remaining(replies))
  }

  // ---- refresh ----

  /** How a status answer is read; the client reads it with ReadStatus. */
  type StatusReader = HttpResponse -> Result<ExecutionStatusResponse, ClientError>

  /**
   * The polling loop entered in `state`: sleep, poll, until a poll reads
   * COMPLETED. It does not depend on how an answer is read beyond the state
   * read from it, so it is stated for any reader.
   */
  function PollLoop(read: StatusReader, job: string, ping: nat, state: ExecutionState, replies: seq<HttpResponse>): (p: Step<()>)
    ensures state == Completed ==> p.result.Ok? && p.events == []
    ensures state != Completed ==> |p.events| >= 2
    decreases |replies|
  {
    if state == Completed then Step(Ok(()), [], replies)
    else if replies == [] then Step(Err(ConnectionFailed), [Slept(ping), GetSent(Url(Status(job)))], [])
    else match read(replies[0])
      case Err(e) => Step(Err(e), [Slept(ping), GetSent(Url(Status(job)))], replies[1..])
      case Ok(s) =>
        var p := PollLoop(read, job, ping, s.state, replies[1..]);
        Step(p.result, [Slept(ping), GetSent(Url(Status(job)))] + p.events, p.rest)
  }

  /** Lines 122-131 of `refresh`: a first status poll, then the polling loop from the state it reads. */
  function AwaitCompletion(read: StatusReader, job: string, ping: nat, replies: seq<HttpResponse>): (a: Step<()>)
    ensures a.events != [] && a.events[0] == GetSent(Url(Status(job)))
    ensures replies == [] ==> a.result == Err(ConnectionFailed)
  {
    if replies == [] then Step(Err(ConnectionFailed), [GetSent(Url(Status(job)))], [])
    else match read(replies[0])
      case Err(e) => Step(Err(e), [GetSent(Url(Status(job)))], replies[1..])
      case Ok(s) =>
        var p := PollLoop(read, job, ping, s.state, replies[1..]);
        Step(p.result, [GetSent(Url(Status(job)))] + p.events, p.rest)
  }

  /** Lines 133-137 of `refresh`: fetch the results once; a completed execution must carry a result. */
  function FetchRows(job: string, replies: seq<HttpResponse>): (f: Step<seq<Row>>)
    ensures f.events == [GetSent(Url(Results(job)))] && f.rest == Remaining(replies)
    ensures f.result.Ok? <==> |replies| >= 1 && ReadResults(replies[0]).Ok? && ReadResults(replies[0]).value.result.Some?
    ensures f.result.Ok? ==> f.result.value == ReadResults(replies[0]).value.result.value.rows
    ensures |replies| >= 1 && ReadResults(replies[0]).Ok? && ReadResults(replies[0]).value.result.None? ==>
      f.result == Err(MissingResult(ReadResults(replies[0]).value))
  {
    var r := ResultStep(job, replies);
    match r.result
    case Err(e) => Step(Err(e), r.events, r.rest)
    case Ok(resp) =>
      if resp.result.None? then Step(Err(MissingResult(resp)), r.events, r.rest)
      else Step(Ok(resp.result.value.rows), r.events, r.rest)
  }

  /** `refresh`: execute once, poll until COMPLETED, fetch the results once, return their rows. */
  function RefreshRun(q: Query, ping: nat, replies: seq<HttpResponse>): (r: Step<seq<Row>>)
    ensures r.events != [] && r.events[0] == PostSent(Url(ExecuteQuery(q.queryId)), Some(ExecuteBody(q)))
    ensures r.result.Ok? ==>
      && ExecuteStep(q, replies).result.Ok?
      && r.events[|r.events| - 1] == GetSent(Url(Results(ExecuteStep(q, replies).result.value.executionId)))
  {
    var e := ExecuteStep(q, replies);
    if e.result.Err? then Step(Err(e.result.error), e.events, e.rest)
    else
      var job := e.result.value.executionId;
      var a := AwaitCompletion(ReadStatus, job, ping, e.rest);
      if a.result.Err? then Step(Err(a.result.error), e.events + a.events, a.rest)
      else
        var f := FetchRows(job, a.rest);
        Step(f.result, e.events + a.events + f.events, f.rest)
  }
}
