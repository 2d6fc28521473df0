/**
 * Concrete runs of the client's calls: where each call sends its request,
 * a refresh that sees PENDING, EXECUTING and COMPLETED, and the answers to
 * a cancellation.
 */
module ProtocolFixtures {
  import opened Results
  import opened Json
  import opened Models
  import opened Endpoints
  import opened Protocol
  import opened ProtocolLaws

  /** Each call sends one request, to the endpoint named after it; only execute sends a body. */
  lemma CallTargets(q: Query, job: string, replies: seq<HttpResponse>)
    requires PathSegment(job)
    ensures var ev := ExecuteStep(q, replies).events;
      |ev| == 1 && ev[0].PostSent? && Route(ev[0].url) == Some(ExecuteQuery(q.queryId)) && ev[0].body == Some(ExecuteBody(q))
    ensures var ev := StatusStep(job, replies).events;
      |ev| == 1 && ev[0].GetSent? && Route(ev[0].url) == Some(Status(job))
    ensures var ev := ResultStep(job, replies).events;
      |ev| == 1 && ev[0].GetSent? && Route(ev[0].url) == Some(Results(job))
    ensures var ev := CancelStep(job, replies).events;
      |ev| == 1 && ev[0].PostSent? && Route(ev[0].url) == Some(Cancel(job)) && ev[0].body == None
  {
    RouteUrl(ExecuteQuery(q.queryId));
    RouteUrl(Status(job));
    RouteUrl(Results(job));
    RouteUrl(Cancel(job));
  }

  /** An answer that reads as a status in state `state`. */
  predicate ReadsState(read: StatusReader, reply: HttpResponse, state: ExecutionState) {
    read(reply).Ok? && read(reply).value.state == state
  }

  /** Polls reading PENDING, EXECUTING, COMPLETED complete after the third. */
  lemma PendingExecutingCompletedPolls(read: StatusReader, polls: seq<HttpResponse>)
    requires |polls| == 3
    requires ReadsState(read, polls[0], Pending) && ReadsState(read, polls[1], Executing)
    requires ReadsState(read, polls[2], Completed)
    ensures CompletesAfter(read, polls)
  {
  }

  /** Such a script is a completed script with three polls. */
  lemma PendingExecutingCompletedScript(replies: seq<HttpResponse>)
    requires |replies| == 5 && ReadExecution(replies[0]).Ok?
    requires ReadsState(ReadStatus, replies[1], Pending) && ReadsState(ReadStatus, replies[2], Executing)
    requires ReadsState(ReadStatus, replies[3], Completed)
    requires ReadResults(replies[4]).Ok? && ReadResults(replies[4]).value.result.Some?
    ensures CompletedScript(replies, 3)
  {
    var polls := replies[1..][..3];
    assert polls[0] == replies[1] && polls[1] == replies[2] && polls[2] == replies[3];
    PendingExecutingCompletedPolls(ReadStatus, polls);
  }

  /** A completed script with nothing after the results answer is used up by the refresh. */
  lemma RefreshUsesWholeScript(q: Query, ping: nat, replies: seq<HttpResponse>, n: nat)
    requires CompletedScript(replies, n) && |replies| == n + 2
    ensures var job := ReadExecution(replies[0]).value.executionId;
      RefreshRun(q, ping, replies) == Step(Ok(ReadResults(replies[n + 1]).value.result.value.rows), RefreshEvents(q, job, ping, n), [])
  {
    RefreshReturnsRows(q, ping, replies, n);
    assert replies[n + 2..] == [];
  }

  /**
   * Execute, then status answers PENDING, EXECUTING, COMPLETED, then the
   * results: refresh returns the rows after three polls.
   */
  lemma PendingExecutingCompleted(q: Query, ping: nat, replies: seq<HttpResponse>)
    requires |replies| == 5 && ReadExecution(replies[0]).Ok?
    requires ReadsState(ReadStatus, replies[1], Pending) && ReadsState(ReadStatus, replies[2], Executing)
    requires ReadsState(ReadStatus, replies[3], Completed)
    requires ReadResults(replies[4]).Ok? && ReadResults(replies[4]).value.result.Some?
    ensures var job := ReadExecution(replies[0]).value.executionId;
      RefreshRun(q, ping, replies) == Step(Ok(ReadResults(replies[4]).value.result.value.rows), RefreshEvents(q, job, ping, 3), [])
  {
    PendingExecutingCompletedScript(replies);
    RefreshUsesWholeScript(q, ping, replies, 3);
  }

  /** What such a refresh sends: the post, three status polls with two sleeps between them, the results request. */
  lemma ThreePollEvents(q: Query, job: string, ping: nat)
    ensures var events := RefreshEvents(q, job, ping, 3);
      && |events| == 7
      && events[0] == PostSent(Url(ExecuteQuery(q.queryId)), Some(ExecuteBody(q)))
      && events[6] == GetSent(Url(Results(job)))
      && multiset(events)[GetSent(Url(Status(job)))] == 3
      && multiset(events)[Slept(ping)] == 2
  {
    RefreshTraceCounts(q, job, ping, 3, true);
    RefreshTraceOrder(q, job, ping, 3, true);
  }

  /** `{"success": true}` */
  function CancelledBody(): Json {
    JObject(map["success" := JBool(true)])
  }

  /** A cancellation answered `{"success": true}` returns true. */
  lemma CancelSucceeds(job: string)
    ensures CancelStep(job, [HttpResponse(200, Some(CancelledBody()))]) ==
      Step(Ok(JBool(true)), [PostSent(Url(Cancel(job)), None)], [])
  {
    assert "success" in CancelledBody().fields;
  }

  /** A cancellation answered without `success` raises a DuneError naming the response and the key. */
  lemma CancelWithoutSuccess(job: string, message: string)
    ensures var body := JObject(map["error" := JString(message)]);
      CancelStep(job, [HttpResponse(403, Some(body))]).result == Err(DuneError(body, "CancellationResponse", "success"))
  {
    var body := JObject(map["error" := JString(message)]);
    assert "success" !in body.fields;
  }

  /** An error status whose body is not JSON raises the HTTP error. */
  lemma CancelUndecodableError(job: string)
    ensures CancelStep(job, [HttpResponse(502, None)]).result == Err(HttpError(502))
  {
    assert HandleResponse(HttpResponse(502, None)) == Err(HttpError(502));
  }

  /** An execute answer without `execution_id` raises a DuneError naming the response and the key. */
  lemma ExecuteWithoutId(q: Query)
    ensures var body := JObject(map["state" := JString("QUERY_STATE_PENDING")]);
      ExecuteStep(q, [HttpResponse(200, Some(body))]).result == Err(DuneError(body, "ExecutionResponse", "execution_id"))
  {
    var body := JObject(map["state" := JString("QUERY_STATE_PENDING")]);
    assert "execution_id" !in body.fields;
    assert ParseExecutionResponse(body) == Err(MissingKey("execution_id"));
  }

  /** A state the client does not know is not a KeyError: it propagates unwrapped. */
  lemma ExecuteUnknownState(q: Query, id: string)
    ensures var body := JObject(map["execution_id" := JString(id), "state" := JString("QUERY_STATE_UNKNOWN")]);
      ExecuteStep(q, [HttpResponse(200, Some(body))]).result == Err(Raised(InvalidValue("state")))
  {
    var body := JObject(map["execution_id" := JString(id), "state" := JString("QUERY_STATE_UNKNOWN")]);
    assert StateFromWire("QUERY_STATE_UNKNOWN") == None;
    assert ParseExecutionResponse(body) == Err(InvalidValue("state"));
  }
}
