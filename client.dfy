/**
 * The client itself, as objects that change state: a transport that hands
 * out the service's answers in order and records every request and sleep,
 * and `DuneClient`, whose calls are proved to do what the Protocol
 * functions say, request for request.
 */
module Client {
  import opened Results
  import opened Json
  import opened Models
  import opened Endpoints
  import opened Protocol
  import opened ProtocolLaws

  /** Appending in two steps appends the two parts in order. */
  lemma ConcatAssoc<T>(a: seq<T>, b: seq<T>, c: seq<T>)
    ensures (a + b) + c == a + (b + c)
  {
  }

  /**
   * The network and the clock. The service's answers come from `replies`,
   * one per request; `trace` records what was sent and how long the client
   * slept.
   */
  class Transport {
    var replies: seq<HttpResponse>
    ghost var trace: seq<Event>

    constructor(script: seq<HttpResponse>)
      ensures replies == script && trace == []
    {
      replies := script;
      trace := [];
    }

    /** Sends a GET; None when no answer comes back. */
    method Get(url: string) returns (r: Option<HttpResponse>)
      modifies this
      ensures r == if old(replies) == [] then None else Some(old(replies)[0])
      ensures replies == Remaining(old(replies))
      ensures trace == old(trace) + [GetSent(url)]
    {
      if replies == [] {
        r := None;
      } else {
        r := Some(replies[0]);
        replies := replies[1..];
      }
      trace := trace + [GetSent(url)];
    }

    /** Sends a POST with a JSON body, or with none; None when no answer comes back. */
    method Post(url: string, body: Option<Json>) returns (r: Option<HttpResponse>)
      modifies this
      ensures r == if old(replies) == [] then None else Some(old(replies)[0])
      ensures replies == Remaining(old(replies))
      ensures trace == old(trace) + [PostSent(url, body)]
    {
      if replies == [] {
        r := None;
      } else {
        r := Some(replies[0]);
        replies := replies[1..];
      }
      trace := trace + [PostSent(url, body)];
    }

    /** `time.sleep`: no request is sent and no answer is used. */
    method Sleep(seconds: nat)
      modifies this
      ensures replies == old(replies)
      ensures trace == old(trace) + [Slept(seconds)]
    {
      trace := trace + [Slept(seconds)];
    }
  }

  class DuneClient {
    /** The API key sent in the `x-dune-api-key` header. */
    const token: string
    const transport: Transport

    constructor(apiKey: string, transport: Transport)
      ensures token == apiKey && this.transport == transport
    {
      token := apiKey;
      this.transport := transport;
    }

    /**
     * The call returned the step's result, used up the answers the step
     * used, and added the step's events to what was sent before it.
     */
    ghost predicate Performed<T>(s: Step<T>, r: Result<T, ClientError>, before: seq<Event>)
      reads transport
    {
      r == s.result && transport.replies == s.rest && transport.trace == before + s.events
    }

    /** `_get`: one GET, its answer handled by HandleResponse. */
    method Get(url: string) returns (r: Result<Json, ClientError>)
      modifies transport
      ensures r == Receive(old(transport.replies))
      ensures transport.replies == Remaining(old(transport.replies))
      ensures transport.trace == old(transport.trace) + [GetSent(url)]
    {
      var resp := transport.Get(url);
      if resp.None? {
        r := Err(ConnectionFailed);
      } else {
        r := HandleResponse(resp.value);
      }
    }

    /** `_post`: one POST, its answer handled by HandleResponse. */
    method Post(url: string, body: Option<Json>) returns (r: Result<Json, ClientError>)
      modifies transport
      ensures r == Receive(old(transport.replies))
      ensures transport.replies == Remaining(old(transport.replies))
      ensures transport.trace == old(transport.trace) + [PostSent(url, body)]
    {
      var resp := transport.Post(url, body);
      if resp.None? {
        r := Err(ConnectionFailed);
      } else {
        r := HandleResponse(resp.value);
      }
    }

    /** `execute`: posts the query's parameters and reads an ExecutionResponse. */
    method Execute(q: Query) returns (r: Result<ExecutionResponse, ClientError>)
      modifies transport
      ensures Performed(ExecuteStep(q, old(transport.replies)), r, old(transport.trace))
    {
      var payload := Post(Url(ExecuteQuery(q.queryId)), Some(ExecuteBody(q)));
      if payload.Err? {
        return Err(payload.error);
      }
      r := WrapParse(payload.value, "ExecutionResponse", ParseExecutionResponse(payload.value));
    }

    /** `get_status`: reads an ExecutionStatusResponse for the job. */
    method GetStatus(job: string) returns (r: Result<ExecutionStatusResponse, ClientError>)
      modifies transport
      ensures Performed(StatusStep(job, old(transport.replies)), r, old(transport.trace))
    {
      var payload := Get(Url(Status(job)));
      if payload.Err? {
        return Err(payload.error);
      }
      r := WrapParse(payload.value, "ExecutionStatusResponse", ParseStatusResponse(payload.value));
    }

    /** `get_result`: reads a ResultsResponse for the job. */
    method GetResult(job: string) returns (r: Result<ResultsResponse, ClientError>)
      modifies transport
      ensures Performed(ResultStep(job, old(transport.replies)), r, old(transport.trace))
    {
      var payload := Get(Url(Results(job)));
      if payload.Err? {
        return Err(payload.error);
      }
      r := WrapParse(payload.value, "ResultsResponse", ParseResultsResponse(payload.value));
    }

    /** `cancel_execution`: posts no body and returns the answer's `success` value. */
    method CancelExecution(job: string) returns (r: Result<Json, ClientError>)
      modifies transport
      ensures Performed(CancelStep(job, old(transport.replies)), r, old(transport.trace))
    {
      var payload := Post(Url(Cancel(job)), None);
      if payload.Err? {
        return Err(payload.error);
      }
      var fields := WrapParse(payload.value, "CancellationResponse", Fields(payload.value));
      if fields.Err? {
        return Err(fields.error);
      }
      r := WrapParse(payload.value, "CancellationResponse", Required(fields.value, "success"));
    }

    /** Line 122 of `refresh` and the loop after it: poll the status, then wait until it reads COMPLETED. */
    method AwaitCompleted(job: string, ping: nat) returns (r: Result<(), ClientError>)
      modifies transport
      ensures Performed(AwaitCompletion(ReadStatus, job, ping, old(transport.replies)), r, old(transport.trace))
    {
      ghost var rs := transport.replies;
      ghost var before := transport.trace;
      AwaitFirstPoll(ReadStatus, job, ping, rs);
      var st := GetStatus(job);
      if st.Err? {
        return Err(st.error);
      }
      ghost var p := PollLoop(ReadStatus, job, ping, st.value.state, Remaining(rs));
      r := PollUntilCompleted(job, ping, st.value.state);
      ConcatAssoc(before, [GetSent(Url(Status(job)))], p.events);
    }

    /** Lines 123-131 of `refresh`: while the state is not COMPLETED, sleep `ping` seconds and poll again. */
    method PollUntilCompleted(job: string, ping: nat, state: ExecutionState) returns (r: Result<(), ClientError>)
      modifies transport
      ensures Performed(PollLoop(ReadStatus, job, ping, state, old(transport.replies)), r, old(transport.trace))
    {
      var current := state;
      ghost var rs := transport.replies;
      ghost var before := transport.trace;
      ghost var done: seq<Event> := [];
      ghost var round := [Slept(ping), GetSent(Url(Status(job)))];
      while current != Completed
        invariant transport.replies == rs
        invariant transport.trace == before + done
        invariant var p := PollLoop(ReadStatus, job, ping, current, rs);
          PollLoop(ReadStatus, job, ping, state, old(transport.replies)) == Step(p.result, done + p.events, p.rest)
        decreases |rs|
      {
        PollLoopResume(ReadStatus, job, ping, state, old(transport.replies), current, rs, done);
        transport.Sleep(ping);
        var st := GetStatus(job);
        assert st == Answer(rs, ReadStatus) && transport.replies == Remaining(rs);
        ConcatAssoc(before + done, [Slept(ping)], [GetSent(Url(Status(job)))]);
        ConcatAssoc(before, done, round);
        if st.Err? {
          return Err(st.error);
        }
        current := st.value.state;
        rs := Remaining(rs);
        done := done + round;
      }
      r := Ok(());
    }

    /** Lines 133-137 of `refresh`: fetch the results once and return their rows. */
    method FetchCompletedRows(job: string) returns (r: Result<seq<Row>, ClientError>)
      modifies transport
      ensures Performed(FetchRows(job, old(transport.replies)), r, old(transport.trace))
    {
      var full := GetResult(job);
      if full.Err? {
        return Err(full.error);
      }
      if full.value.result.None? {
        return Err(MissingResult(full.value));
      }
      r := Ok(full.value.result.value.rows);
    }

    /** `refresh`: execute, wait until COMPLETED, return the rows of the results. */
    method Refresh(q: Query, ping: nat) returns (r: Result<seq<Row>, ClientError>)
      modifies transport
      ensures Performed(RefreshRun(q, ping, old(transport.replies)), r, old(transport.trace))
    {
      ghost var before := transport.trace;
      ghost var es := ExecuteStep(q, transport.replies);
      var e := Execute(q);
      if e.Err? {
        return Err(e.error);
      }
      var job := e.value.executionId;
      ghost var aw := AwaitCompletion(ReadStatus, job, ping, es.rest);
      var a := AwaitCompleted(job, ping);
      ConcatAssoc(before, es.events, aw.events);
      if a.Err? {
        return Err(a.error);
      }
      ghost var fs := FetchRows(job, aw.rest);
      r := FetchCompletedRows(job);
      ConcatAssoc(before, es.events + aw.events, fs.events);
    }
  }
}
