/**
 * What the client's calls promise, proved of the protocol functions: refresh
 * executes once, polls the job it was given until a poll reads COMPLETED
 * with one sleep between polls, fetches the results once and returns their
 * rows unchanged; FAILED, CANCELLED and EXPIRED do not end the loop.
 */
module ProtocolLaws {
  import opened Results
  import opened Json
  import opened Models
  import opened Endpoints
  import opened Protocol

  /** k rounds of the loop body: a sleep, then a status poll. */
  function PollSchedule(job: string, ping: nat, k: nat): (s: seq<Event>)
    ensures |s| == 2 * k
  {
    if k == 0 then [] else [Slept(ping), GetSent(Url(Status(job)))] + PollSchedule(job, ping, k - 1)
  }

  /** An answer that reads as a status in state COMPLETED. */
  predicate ReadsCompleted(read: StatusReader, reply: HttpResponse) {
    read(reply).Ok? && read(reply).value.state == Completed
  }

  /** Every poll reads, the last one reads COMPLETED and no earlier one does. */
  predicate CompletesAfter(read: StatusReader, polls: seq<HttpResponse>) {
    && |polls| >= 1
    && (forall i :: 0 <= i < |polls| ==> read(polls[i]).Ok?)
    && (forall i :: 0 <= i < |polls| - 1 ==> read(polls[i]).value.state != Completed)
    && read(polls[|polls| - 1]).value.state == Completed
  }

  lemma CompletesAfterTail(read: StatusReader, polls: seq<HttpResponse>)
    requires |polls| >= 2 && CompletesAfter(read, polls)
    ensures CompletesAfter(read, polls[1..])
  {
    var tail := polls[1..];
    forall i | 0 <= i < |tail|
      ensures read(tail[i]).Ok?
    {
      assert tail[i] == polls[i + 1];
    }
    forall i | 0 <= i < |tail| - 1
      ensures read(tail[i]).value.state != Completed
    {
      assert tail[i] == polls[i + 1];
    }
    assert tail[|tail| - 1] == polls[|polls| - 1];
  }

  lemma CompletesAfterCons(read: StatusReader, polls: seq<HttpResponse>)
    requires |polls| >= 2 && CompletesAfter(read, polls[1..])
    requires read(polls[0]).Ok? && read(polls[0]).value.state != Completed
    ensures CompletesAfter(read, polls)
  {
    var tail := polls[1..];
    forall i | 1 <= i < |polls|
      ensures read(polls[i]).Ok?
    {
      assert polls[i] == tail[i - 1];
    }
    forall i | 1 <= i < |polls| - 1
      ensures read(polls[i]).value.state != Completed
    {
      assert polls[i] == tail[i - 1];
    }
    assert polls[|polls| - 1] == tail[|tail| - 1];
  }

  /** One round of the loop: sleep and poll; a poll that does not read ends it, one that reads goes on from its state. */
  lemma PollLoopRound(read: StatusReader, job: string, ping: nat, state: ExecutionState, replies: seq<HttpResponse>)
    requires state != Completed
    ensures var a := Answer(replies, read);
      var round := [Slept(ping), GetSent(Url(Status(job)))];
      && (a.Err? ==> PollLoop(read, job, ping, state, replies) == Step(Err(a.error), round, Remaining(replies)))
      && (a.Ok? ==>
            var p := PollLoop(read, job, ping, a.value.state, Remaining(replies));
            PollLoop(read, job, ping, state, replies) == Step(p.result, round + p.events, p.rest))
  {
  }

  /**
   * The loop resumed after some rounds whose events are `done`: one more
   * round either ends the whole loop with the poll's error or leaves it
   * resumed again, with that round added to `done`.
   */
  lemma PollLoopResume(read: StatusReader, job: string, ping: nat, state: ExecutionState, start: seq<HttpResponse>,
                       current: ExecutionState, replies: seq<HttpResponse>, done: seq<Event>)
    requires current != Completed
    requires var p := PollLoop(read, job, ping, current, replies);
      PollLoop(read, job, ping, state, start) == Step(p.result, done + p.events, p.rest)
    ensures var a := Answer(replies, read);
      var round := [Slept(ping), GetSent(Url(Status(job)))];
      && (a.Err? ==> PollLoop(read, job, ping, state, start) == Step(Err(a.error), done + round, Remaining(replies)))
      && (a.Ok? ==>
            var p := PollLoop(read, job, ping, a.value.state, Remaining(replies));
            PollLoop(read, job, ping, state, start) == Step(p.result, (done + round) + p.events, p.rest))
  {
    PollLoopRound(read, job, ping, current, replies);
    var a := Answer(replies, read);
    var round := [Slept(ping), GetSent(Url(Status(job)))];
    if a.Ok? {
      var p := PollLoop(read, job, ping, a.value.state, Remaining(replies));
      assert done + (round + p.events) == (done + round) + p.events;
    }
  }

  /** The first poll: one that does not read ends the wait, one that reads enters the loop in its state. */
  lemma AwaitFirstPoll(read: StatusReader, job: string, ping: nat, replies: seq<HttpResponse>)
    ensures var a := Answer(replies, read);
      && (a.Err? ==> AwaitCompletion(read, job, ping, replies) == Step(Err(a.error), [GetSent(Url(Status(job)))], Remaining(replies)))
      && (a.Ok? ==>
            var p := PollLoop(read, job, ping, a.value.state, Remaining(replies));
            AwaitCompletion(read, job, ping, replies) == Step(p.result, [GetSent(Url(Status(job)))] + p.events, p.rest))
  {
  }

  /** A loop entered in a state other than COMPLETED whose next n polls complete ends after exactly those n polls. */
  lemma {:induction false} PollLoopCompletes(read: StatusReader, job: string, ping: nat, state: ExecutionState, replies: seq<HttpResponse>, n: nat)
    requires state != Completed && 1 <= n <= |replies| && CompletesAfter(read, replies[..n])
    ensures PollLoop(read, job, ping, state, replies) == Step(Ok(()), PollSchedule(job, ping, n), replies[n..])
    decreases n
  {
    assert replies[..n][0] == replies[0];
    var s := read(replies[0]).value;
    if n == 1 {
      assert s.state == Completed;
    } else {
      assert replies[..n][n - 1] == replies[n - 1];
      CompletesAfterTail(read, replies[..n]);
      assert replies[..n][1..] == replies[1..][..n - 1];
      assert s.state != Completed;
      PollLoopCompletes(read, job, ping, s.state, replies[1..], n - 1);
      assert replies[1..][n - 1..] == replies[n..];
    }
  }

  /** A loop entered in a state other than COMPLETED ends well only after some n polls that complete. */
  lemma {:induction false} PollLoopOk(read: StatusReader, job: string, ping: nat, state: ExecutionState, replies: seq<HttpResponse>)
    requires state != Completed && PollLoop(read, job, ping, state, replies).result.Ok?
    ensures exists n :: 1 <= n <= |replies| && CompletesAfter(read, replies[..n])
    decreases |replies|
  {
    var s := read(replies[0]).value;
    if s.state == Completed {
      assert CompletesAfter(read, replies[..1]);
    } else {
      PollLoopOk(read, job, ping, s.state, replies[1..]);
      var m :| 1 <= m <= |replies[1..]| && CompletesAfter(read, replies[1..][..m]);
      assert replies[..m + 1][1..] == replies[1..][..m];
      assert replies[..m + 1][0] == replies[0];
      CompletesAfterCons(read, replies[..m + 1]);
    }
  }

  /** The first poll and the loop end after exactly the n polls that complete. */
  lemma AwaitCompletes(read: StatusReader, job: string, ping: nat, replies: seq<HttpResponse>, n: nat)
    requires 1 <= n <= |replies| && CompletesAfter(read, replies[..n])
    ensures AwaitCompletion(read, job, ping, replies) ==
      Step(Ok(()), [GetSent(Url(Status(job)))] + PollSchedule(job, ping, n - 1), replies[n..])
  {
    assert replies[..n][0] == replies[0];
    var s := read(replies[0]).value;
    if n == 1 {
      assert s.state == Completed;
    } else {
      assert replies[..n][n - 1] == replies[n - 1];
      CompletesAfterTail(read, replies[..n]);
      assert replies[..n][1..] == replies[1..][..n - 1];
      PollLoopCompletes(read, job, ping, s.state, replies[1..], n - 1);
      assert replies[1..][n - 1..] == replies[n..];
    }
  }

  /** The first poll and the loop end well only after some n polls that complete. */
  lemma AwaitOk(read: StatusReader, job: string, ping: nat, replies: seq<HttpResponse>)
    requires AwaitCompletion(read, job, ping, replies).result.Ok?
    ensures exists n :: 1 <= n <= |replies| && CompletesAfter(read, replies[..n])
  {
    var s := read(replies[0]).value;
    if s.state == Completed {
      assert CompletesAfter(read, replies[..1]);
    } else {
      PollLoopOk(read, job, ping, s.state, replies[1..]);
      var m :| 1 <= m <= |replies[1..]| && CompletesAfter(read, replies[1..][..m]);
      assert replies[..m + 1][1..] == replies[1..][..m];
      assert replies[..m + 1][0] == replies[0];
      CompletesAfterCons(read, replies[..m + 1]);
    }
  }

  /** Whatever the answers, the loop sends whole rounds: a sleep of `ping`, then a status poll, some k times. */
  lemma {:induction false} PollLoopShape(read: StatusReader, job: string, ping: nat, state: ExecutionState, replies: seq<HttpResponse>)
    ensures var events := PollLoop(read, job, ping, state, replies).events;
      |events| % 2 == 0 && events == PollSchedule(job, ping, |events| / 2)
    decreases |replies|
  {
    if state != Completed && replies != [] && read(replies[0]).Ok? {
      var s := read(replies[0]).value;
      PollLoopShape(read, job, ping, s.state, replies[1..]);
      var p := PollLoop(read, job, ping, s.state, replies[1..]);
      assert PollLoop(read, job, ping, state, replies).events == [Slept(ping), GetSent(Url(Status(job)))] + p.events;
    }
  }

  /** Whatever the answers, waiting sends one status poll and then whole rounds of the loop. */
  lemma AwaitShape(read: StatusReader, job: string, ping: nat, replies: seq<HttpResponse>)
    ensures var events := AwaitCompletion(read, job, ping, replies).events;
      |events| % 2 == 1 && events == [GetSent(Url(Status(job)))] + PollSchedule(job, ping, |events| / 2)
  {
    if replies != [] && read(replies[0]).Ok? {
      PollLoopShape(read, job, ping, read(replies[0]).value.state, replies[1..]);
    }
  }

  // ---- refresh from end to end ----

  /**
   * A script under which refresh returns rows after n status polls: the
   * execute answer reads, the n polls complete, and the results answer reads
   * with a result.
   */
  predicate CompletedScript(replies: seq<HttpResponse>, n: nat) {
    && 1 <= n && n + 2 <= |replies|
    && ReadExecution(replies[0]).Ok?
    && CompletesAfter(ReadStatus, replies[1..][..n])
    && ReadResults(replies[n + 1]).Ok? && ReadResults(replies[n + 1]).value.result.Some?
  }

  /**
   * The requests and sleeps of a refresh whose execute answer read: the
   * post, n status polls with a sleep before each but the first, and then
   * the results request when the polls got that far.
   */
  function RefreshTrace(q: Query, job: string, ping: nat, n: nat, fetched: bool): (events: seq<Event>)
    requires n >= 1
    ensures |events| == 2 * n + (if fetched then 1 else 0)
  {
    [PostSent(Url(ExecuteQuery(q.queryId)), Some(ExecuteBody(q)))]
    + ([GetSent(Url(Status(job)))] + PollSchedule(job, ping, n - 1))
    + (if fetched then [GetSent(Url(Results(job)))] else [])
  }

  /** The requests and sleeps of a refresh that polls n times and gets as far as the results request. */
  function RefreshEvents(q: Query, job: string, ping: nat, n: nat): (events: seq<Event>)
    requires n >= 1
    ensures |events| == 2 * n + 1
  {
    RefreshTrace(q, job, ping, n, true)
  }

  /** Under a completed script, refresh sends RefreshEvents and returns the result's rows as they were sent. */
  lemma RefreshReturnsRows(q: Query, ping: nat, replies: seq<HttpResponse>, n: nat)
    requires CompletedScript(replies, n)
    ensures var job := ReadExecution(replies[0]).value.executionId;
      RefreshRun(q, ping, replies) ==
        Step(Ok(ReadResults(replies[n + 1]).value.result.value.rows), RefreshEvents(q, job, ping, n), replies[n + 2..])
  {
    var job := ReadExecution(replies[0]).value.executionId;
    var e := ExecuteStep(q, replies);
    assert e.result == Ok(ReadExecution(replies[0]).value);
    assert e.rest == replies[1..];
    AwaitCompletes(ReadStatus, job, ping, replies[1..], n);
    var a := AwaitCompletion(ReadStatus, job, ping, e.rest);
    assert a.rest == replies[n + 1..] by {
      assert replies[1..][n..] == replies[n + 1..];
    }
    var f := FetchRows(job, a.rest);
    assert a.rest[0] == replies[n + 1];
    assert f.rest == replies[n + 2..] by {
      assert replies[n + 1..][1..] == replies[n + 2..];
    }
    assert f.result == Ok(ReadResults(replies[n + 1]).value.result.value.rows);
    assert RefreshRun(q, ping, replies) == Step(f.result, e.events + a.events + f.events, f.rest);
  }

  /** Refresh returns rows only under a completed script. */
  lemma RefreshOk(q: Query, ping: nat, replies: seq<HttpResponse>)
    requires RefreshRun(q, ping, replies).result.Ok?
    ensures exists n :: CompletedScript(replies, n)
  {
    var job := ReadExecution(replies[0]).value.executionId;
    AwaitOk(ReadStatus, job, ping, replies[1..]);
    var n :| 1 <= n <= |replies[1..]| && CompletesAfter(ReadStatus, replies[1..][..n]);
    AwaitCompletes(ReadStatus, job, ping, replies[1..], n);
    assert replies[1..][n..] == replies[n + 1..];
    assert replies[n + 1..][0] == replies[n + 1];
    assert CompletedScript(replies, n);
  }

  /** A completed execution whose results answer carries no result fails refresh's assertion. */
  lemma RefreshMissingResult(q: Query, ping: nat, replies: seq<HttpResponse>, n: nat)
    requires 1 <= n && n + 2 <= |replies|
    requires ReadExecution(replies[0]).Ok?
    requires CompletesAfter(ReadStatus, replies[1..][..n])
    requires ReadResults(replies[n + 1]).Ok? && ReadResults(replies[n + 1]).value.result.None?
    ensures var job := ReadExecution(replies[0]).value.executionId;
      RefreshRun(q, ping, replies) ==
        Step(Err(MissingResult(ReadResults(replies[n + 1]).value)), RefreshEvents(q, job, ping, n), replies[n + 2..])
  {
    var job := ReadExecution(replies[0]).value.executionId;
    var e := ExecuteStep(q, replies);
    assert e.result == Ok(ReadExecution(replies[0]).value);
    assert e.rest == replies[1..];
    AwaitCompletes(ReadStatus, job, ping, replies[1..], n);
    var a := AwaitCompletion(ReadStatus, job, ping, e.rest);
    assert a.rest == replies[n + 1..] by {
      assert replies[1..][n..] == replies[n + 1..];
    }
    var f := FetchRows(job, a.rest);
    assert a.rest[0] == replies[n + 1];
    assert f.rest == replies[n + 2..] by {
      assert replies[n + 1..][1..] == replies[n + 2..];
    }
    assert f.result == Err(MissingResult(ReadResults(replies[n + 1]).value));
    assert RefreshRun(q, ping, replies) == Step(f.result, e.events + a.events + f.events, f.rest);
  }

  /** An execute answer that does not read ends refresh with its error, after the post alone. */
  lemma RefreshStopsAtExecute(q: Query, ping: nat, replies: seq<HttpResponse>)
    requires |replies| >= 1 && ReadExecution(replies[0]).Err?
    ensures RefreshRun(q, ping, replies) ==
      Step(Err(ReadExecution(replies[0]).error), [PostSent(Url(ExecuteQuery(q.queryId)), Some(ExecuteBody(q)))], replies[1..])
  {
    var e := ExecuteStep(q, replies);
    assert e.result == Err(ReadExecution(replies[0]).error);
  }

  /** A first status answer that does not read ends refresh with its error: no sleep and no results request follow. */
  lemma RefreshStopsAtFirstPoll(q: Query, ping: nat, replies: seq<HttpResponse>)
    requires |replies| >= 2 && ReadExecution(replies[0]).Ok? && ReadStatus(replies[1]).Err?
    ensures var job := ReadExecution(replies[0]).value.executionId;
      RefreshRun(q, ping, replies) ==
        Step(Err(ReadStatus(replies[1]).error),
             [PostSent(Url(ExecuteQuery(q.queryId)), Some(ExecuteBody(q))), GetSent(Url(Status(job)))], replies[2..])
  {
    var job := ReadExecution(replies[0]).value.executionId;
    var e := ExecuteStep(q, replies);
    assert e.result == Ok(ReadExecution(replies[0]).value);
    assert e.rest == replies[1..];
    var a := AwaitCompletion(ReadStatus, job, ping, e.rest);
    assert e.rest[0] == replies[1];
    assert a == Step(Err(ReadStatus(replies[1]).error), [GetSent(Url(Status(job)))], replies[2..]);
  }

  /** Refresh returns rows only after a status answer read COMPLETED; FAILED, CANCELLED or EXPIRED never end it well. */
  lemma RowsOnlyAfterCompleted(q: Query, ping: nat, replies: seq<HttpResponse>)
    requires RefreshRun(q, ping, replies).result.Ok?
    ensures exists i :: 1 <= i < |replies| && ReadsCompleted(ReadStatus, replies[i])
  {
    RefreshOk(q, ping, replies);
    var n :| CompletedScript(replies, n);
    CompletedScriptEndsCompleted(replies, n);
  }

  /** The last of the n polls of a completed script reads COMPLETED. */
  lemma CompletedScriptEndsCompleted(replies: seq<HttpResponse>, n: nat)
    requires CompletedScript(replies, n)
    ensures ReadsCompleted(ReadStatus, replies[n])
  {
    assert replies[1..][..n][n - 1] == replies[n];
  }

  /** A poll that reads any state other than COMPLETED (FAILED included) is followed by another sleep and poll. */
  lemma PollsAgainUnlessCompleted(read: StatusReader, job: string, ping: nat, state: ExecutionState, replies: seq<HttpResponse>)
    requires state != Completed && |replies| >= 1
    requires read(replies[0]).Ok? && read(replies[0]).value.state != Completed
    ensures var events := PollLoop(read, job, ping, state, replies).events;
      |events| >= 4 && events[..4] == PollSchedule(job, ping, 2)
  {
    var s := read(replies[0]).value;
    var p := PollLoop(read, job, ping, s.state, replies[1..]);
    assert |p.events| >= 2 && p.events[..2] == [Slept(ping), GetSent(Url(Status(job)))];
  }

  /** A status URL is never the results URL: the two differ in length. */
  lemma StatusUrlIsNotResultsUrl(job: string)
    ensures GetSent(Url(Status(job))) != GetSent(Url(Results(job)))
  {
    assert |Url(Status(job))| + 1 == |Url(Results(job))|;
  }

  /** k rounds of the loop: sleeps and status polls alternate, each sleep for `ping`. */
  lemma {:induction false} PollScheduleAlternates(job: string, ping: nat, k: nat)
    ensures forall i :: 0 <= i < 2 * k ==>
      PollSchedule(job, ping, k)[i] == if i % 2 == 0 then Slept(ping) else GetSent(Url(Status(job)))
  {
    if k > 0 {
      PollScheduleAlternates(job, ping, k - 1);
      var s := PollSchedule(job, ping, k);
      var t := PollSchedule(job, ping, k - 1);
      assert s == [Slept(ping), GetSent(Url(Status(job)))] + t;
      forall i | 2 <= i < |s|
        ensures s[i] == if i % 2 == 0 then Slept(ping) else GetSent(Url(Status(job)))
      {
        assert s[i] == t[i - 2];
        assert (i - 2) % 2 == i % 2;
      }
    }
  }

  /** k rounds of the loop hold k sleeps and k status polls. */
  lemma {:induction false} PollScheduleCounts(job: string, ping: nat, k: nat)
    ensures multiset(PollSchedule(job, ping, k))[Slept(ping)] == k
    ensures multiset(PollSchedule(job, ping, k))[GetSent(Url(Status(job)))] == k
  {
    if k > 0 {
      PollScheduleCounts(job, ping, k - 1);
      assert PollSchedule(job, ping, k) == [Slept(ping), GetSent(Url(Status(job)))] + PollSchedule(job, ping, k - 1);
    }
  }

  /**
   * Whatever the answers, refresh sends the execute post alone when its
   * answer does not read, and otherwise a RefreshTrace for the job that
   * answer names, ending in the results request whenever rows are returned.
   */
  lemma RefreshShape(q: Query, ping: nat, replies: seq<HttpResponse>)
    ensures var r := RefreshRun(q, ping, replies);
      var e := ExecuteStep(q, replies);
      && (e.result.Err? ==> r.events == [PostSent(Url(ExecuteQuery(q.queryId)), Some(ExecuteBody(q)))])
      && (e.result.Ok? ==> exists n: nat, fetched: bool ::
            && n >= 1 && (r.result.Ok? ==> fetched)
            && r.events == RefreshTrace(q, e.result.value.executionId, ping, n, fetched))
  {
    var r := RefreshRun(q, ping, replies);
    var e := ExecuteStep(q, replies);
    if e.result.Ok? {
      var job := e.result.value.executionId;
      var a := AwaitCompletion(ReadStatus, job, ping, e.rest);
      AwaitShape(ReadStatus, job, ping, e.rest);
      var n := |a.events| / 2 + 1;
      var polled := e.events + a.events;
      assert polled == [PostSent(Url(ExecuteQuery(q.queryId)), Some(ExecuteBody(q)))]
                       + ([GetSent(Url(Status(job)))] + PollSchedule(job, ping, n - 1));
      if a.result.Err? {
        assert r.events == polled;
        assert polled + [] == polled;
        assert r.events == RefreshTrace(q, job, ping, n, false);
      } else {
        var f := FetchRows(job, a.rest);
        assert r.events == polled + f.events;
        assert r.events == RefreshTrace(q, job, ping, n, true);
      }
    }
  }

  /** The loop sends nothing but sleeps of `ping` and status polls. */
  lemma {:induction false} PollScheduleOnly(job: string, ping: nat, k: nat, ev: Event)
    requires ev != Slept(ping) && ev != GetSent(Url(Status(job)))
    ensures multiset(PollSchedule(job, ping, k))[ev] == 0
  {
    if k > 0 {
      PollScheduleOnly(job, ping, k - 1, ev);
      assert PollSchedule(job, ping, k) == [Slept(ping), GetSent(Url(Status(job)))] + PollSchedule(job, ping, k - 1);
    }
  }

  /**
   * In order: the execute post, then status polls and sleeps alternating,
   * then, when the polls got that far, the results request; the post
   * happens once and the results request at most once, last.
   */
  lemma RefreshTraceOrder(q: Query, job: string, ping: nat, n: nat, fetched: bool)
    requires n >= 1
    ensures var events := RefreshTrace(q, job, ping, n, fetched);
      && events[0] == PostSent(Url(ExecuteQuery(q.queryId)), Some(ExecuteBody(q)))
      && (forall i :: 1 <= i < 2 * n ==> events[i] == if i % 2 == 1 then GetSent(Url(Status(job))) else Slept(ping))
      && (fetched ==> events[|events| - 1] == GetSent(Url(Results(job))))
      && (forall i :: 1 <= i < |events| ==> !events[i].PostSent?)
      && (forall i :: 0 <= i < 2 * n ==> events[i] != GetSent(Url(Results(job))))
  {
    var events := RefreshTrace(q, job, ping, n, fetched);
    var polls := PollSchedule(job, ping, n - 1);
    PollScheduleAlternates(job, ping, n - 1);
    StatusUrlIsNotResultsUrl(job);
    forall i | 1 <= i < 2 * n
      ensures events[i] == if i % 2 == 1 then GetSent(Url(Status(job))) else Slept(ping)
    {
      if i >= 2 {
        assert events[i] == polls[i - 2];
        assert (i - 2) % 2 == i % 2;
      }
    }
  }

  /** Counting in a trace made of the post, one status poll, the loop's events and maybe the results request. */
  lemma TallyOfTrace(post: Event, status: Event, results: Event, sleep: Event, polls: seq<Event>, k: nat, fetched: bool)
    requires post != status && post != results && post != sleep
    requires status != results && status != sleep && results != sleep
    requires post !in polls && results !in polls
    requires multiset(polls)[status] == k && multiset(polls)[sleep] == k
    ensures var m := multiset([post] + ([status] + polls) + (if fetched then [results] else []));
      && m[post] == 1 && m[status] == k + 1 && m[sleep] == k
      && m[results] == if fetched then 1 else 0
  {
    var rest := if fetched then [results] else [];
    assert multiset([post] + ([status] + polls) + rest) == multiset{post, status} + multiset(polls) + multiset(rest);
  }

  /** Neither the execute post nor the results request occurs in the loop's events. */
  lemma PollScheduleExcludes(q: Query, job: string, ping: nat, k: nat)
    ensures PostSent(Url(ExecuteQuery(q.queryId)), Some(ExecuteBody(q))) !in PollSchedule(job, ping, k)
    ensures GetSent(Url(Results(job))) !in PollSchedule(job, ping, k)
  {
    PollScheduleOnly(job, ping, k, PostSent(Url(ExecuteQuery(q.queryId)), Some(ExecuteBody(q))));
    StatusUrlIsNotResultsUrl(job);
    PollScheduleOnly(job, ping, k, GetSent(Url(Results(job))));
  }

  /** A refresh that polls n times polls the status n times and sleeps n - 1 times, each time for `ping`. */
  lemma RefreshTraceCounts(q: Query, job: string, ping: nat, n: nat, fetched: bool)
    requires n >= 1
    ensures var events := RefreshTrace(q, job, ping, n, fetched);
      && multiset(events)[PostSent(Url(ExecuteQuery(q.queryId)), Some(ExecuteBody(q)))] == 1
      && multiset(events)[GetSent(Url(Status(job)))] == n
      && multiset(events)[Slept(ping)] == n - 1
      && multiset(events)[GetSent(Url(Results(job)))] == if fetched then 1 else 0
  {
    var status := GetSent(Url(Status(job)));
    PollScheduleCounts(job, ping, n - 1);
    PollScheduleExcludes(q, job, ping, n - 1);
    StatusUrlIsNotResultsUrl(job);
    TallyOfTrace(PostSent(Url(ExecuteQuery(q.queryId)), Some(ExecuteBody(q))), status, GetSent(Url(Results(job))),
      Slept(ping), PollSchedule(job, ping, n - 1), n - 1, fetched);
  }

  /**
   * Every refresh, however it ends (a poll that does not read, answers that
   * run out, or polls that never read COMPLETED), posts once, sleeps exactly
   * once less than it polls, and requests the results at most once, always
   * when it returns rows.
   */
  lemma RefreshCounts(q: Query, ping: nat, replies: seq<HttpResponse>)
    ensures var r := RefreshRun(q, ping, replies);
      var m := multiset(r.events);
      var e := ExecuteStep(q, replies);
      && m[PostSent(Url(ExecuteQuery(q.queryId)), Some(ExecuteBody(q)))] == 1
      && (e.result.Err? ==> |r.events| == 1)
      && (e.result.Ok? ==>
            var job := e.result.value.executionId;
            && m[GetSent(Url(Status(job)))] >= 1
            && m[Slept(ping)] == m[GetSent(Url(Status(job)))] - 1
            && m[GetSent(Url(Results(job)))] <= 1
            && (r.result.Ok? ==> m[GetSent(Url(Results(job)))] == 1))
  {
    RefreshShape(q, ping, replies);
    var e := ExecuteStep(q, replies);
    if e.result.Ok? {
      var r := RefreshRun(q, ping, replies);
      var job := e.result.value.executionId;
      var n: nat, fetched: bool :| n >= 1 && (r.result.Ok? ==> fetched) && r.events == RefreshTrace(q, job, ping, n, fetched);
      RefreshTraceCounts(q, job, ping, n, fetched);
    }
  }

  /**
   * Every refresh, however it ends, sends the execute post first and never
   * again, alternates status polls and sleeps after it, and sends the results
   * request, if at all, last.
   */
  lemma RefreshOrder(q: Query, ping: nat, replies: seq<HttpResponse>)
    ensures var events := RefreshRun(q, ping, replies).events;
      var e := ExecuteStep(q, replies);
      && events[0] == PostSent(Url(ExecuteQuery(q.queryId)), Some(ExecuteBody(q)))
      && (forall i :: 1 <= i < |events| ==> !events[i].PostSent?)
      && (e.result.Ok? ==>
            var job := e.result.value.executionId;
            && (forall i :: 0 <= i < |events| - 1 ==> events[i] != GetSent(Url(Results(job))))
            && (forall i :: 1 <= i < |events| && events[i] != GetSent(Url(Results(job))) ==>
                  events[i] == if i % 2 == 1 then GetSent(Url(Status(job))) else Slept(ping)))
  {
    RefreshShape(q, ping, replies);
    var e := ExecuteStep(q, replies);
    if e.result.Ok? {
      var r := RefreshRun(q, ping, replies);
      var job := e.result.value.executionId;
      var n: nat, fetched: bool :| n >= 1 && (r.result.Ok? ==> fetched) && r.events == RefreshTrace(q, job, ping, n, fetched);
      RefreshTraceOrder(q, job, ping, n, fetched);
    }
  }
}
