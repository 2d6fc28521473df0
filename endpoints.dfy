/**
 * The service's endpoints as the client addresses them, and the body of an
 * execute request: each query parameter's key mapped to its value, a later
 * parameter with the same key overriding an earlier one.
 */
module Endpoints {
  import opened Results
  import opened Decimal
  import opened Json

  const BaseUrl: string := "https://api.dune.com/api/v1"

  /** What a request is about: a query to execute, or an execution by its job id. */
  datatype Endpoint =
    | ExecuteQuery(queryId: int)
    | Status(jobId: string)
    | Results(jobId: string)
    | Cancel(jobId: string)

  /** A job id that stays one path segment once it is placed in a URL. */
  predicate PathSegment(s: string) {
    forall i :: 0 <= i < |s| ==> s[i] != '/'
  }

  predicate ValidEndpoint(e: Endpoint) {
    e.ExecuteQuery? || PathSegment(e.jobId)
  }

  /** The last path segment of an endpoint's URL, with its slash. */
  function Action(e: Endpoint): string {
    match e
    case ExecuteQuery(_) => "/execute"
    case Status(_) => "/status"
    case Results(_) => "/results"
    case Cancel(_) => "/cancel"
  }

  /**
   * The URL the client sends the request to: below the base URL, under
   * /query/ for an execute request and /execution/ otherwise; an execution
   * URL holds the job id as it is, followed by the action.
   */
  function Url(e: Endpoint): (u: string)
    ensures |u| > |BaseUrl| + 1 && u[|BaseUrl| + 1] == if e.ExecuteQuery? then 'q' else 'e'
    ensures !e.ExecuteQuery? ==> |u| == |BaseUrl| + 11 + |e.jobId| + |Action(e)| && u[|u| - 2] == ActionMark(e)
  {
    match e
    case ExecuteQuery(id) => BaseUrl + "/query/" + IntToDecimal(id) + "/execute"
    case Status(job) => BaseUrl + "/execution/" + job + "/status"
    case Results(job) => BaseUrl + "/execution/" + job + "/results"
    case Cancel(job) => BaseUrl + "/execution/" + job + "/cancel"
  }

  predicate StartsWith(s: string, prefix: string) {
    |prefix| <= |s| && s[..|prefix|] == prefix
  }

  predicate EndsWith(s: string, suffix: string) {
    |suffix| <= |s| && s[|s| - |suffix|..] == suffix
  }

  /** The job id in front of `action`, when `rest` is one segment followed by it. */
  function JobBefore(rest: string, action: string): Option<string> {
    if EndsWith(rest, action) && PathSegment(rest[..|rest| - |action|]) then Some(rest[..|rest| - |action|]) else None
  }

  /** The endpoint an execution path names. */
  function RouteExecution(rest: string): Option<Endpoint> {
    match JobBefore(rest, "/status")
    case Some(job) => Some(Status(job))
    case None =>
      match JobBefore(rest, "/results")
      case Some(job) => Some(Results(job))
      case None =>
        match JobBefore(rest, "/cancel")
        case Some(job) => Some(Cancel(job))
        case None => None
  }

  /** The endpoint a path below the base URL names. */
  function RoutePath(path: string): Option<Endpoint> {
    if StartsWith(path, "/query/") && |path| >= 15 && EndsWith(path, "/execute") then
      match ParseInt(path[7..|path| - 8])
      case Some(id) => Some(ExecuteQuery(id))
      case None => None
    else if StartsWith(path, "/execution/") then RouteExecution(path[11..])
    else None
  }

  /** Which endpoint a URL addresses; None for a URL the client never builds. */
  function Route(url: string): Option<Endpoint> {
    if StartsWith(url, BaseUrl) then RoutePath(url[|BaseUrl|..]) else None
  }

  lemma JobBeforeAction(job: string, action: string)
    requires PathSegment(job)
    ensures JobBefore(job + action, action) == Some(job)
  {
    var rest := job + action;
    assert rest[|rest| - |action|..] == action;
    assert rest[..|rest| - |action|] == job;
  }

  lemma JobBeforeOtherAction(job: string, action: string, other: string)
    requires |action| >= 1 && action[0] == '/' && PathSegment(action[1..])
    requires |other| >= 1 && other[0] == '/' && PathSegment(other[1..])
    requires other != action
    requires PathSegment(job)
    ensures JobBefore(job + other, action) == None
  {
  }

  /** The path of each execution endpoint, below the base URL. */
  function ExecutionPath(e: Endpoint): string
    requires !e.ExecuteQuery?
  {
    match e
    case Status(job) => "/execution/" + job + "/status"
    case Results(job) => "/execution/" + job + "/results"
    case Cancel(job) => "/execution/" + job + "/cancel"
  }

  /** A path under /execution/ is routed by what follows that prefix. */
  lemma RouteUnderExecution(rest: string)
    ensures RoutePath("/execution/" + rest) == RouteExecution(rest)
  {
    var path := "/execution/" + rest;
    assert path[1] == 'e';
    assert !StartsWith(path, "/query/");
    assert path[..11] == "/execution/";
    assert path[11..] == rest;
  }

  lemma RouteStatus(job: string)
    requires PathSegment(job)
    ensures RouteExecution(job + "/status") == Some(Status(job))
  {
    JobBeforeAction(job, "/status");
  }

  lemma RouteResults(job: string)
    requires PathSegment(job)
    ensures RouteExecution(job + "/results") == Some(Results(job))
  {
    JobBeforeOtherAction(job, "/status", "/results");
    JobBeforeAction(job, "/results");
  }

  lemma RouteCancel(job: string)
    requires PathSegment(job)
    ensures RouteExecution(job + "/cancel") == Some(Cancel(job))
  {
    JobBeforeOtherAction(job, "/status", "/cancel");
    JobBeforeOtherAction(job, "/results", "/cancel");
    JobBeforeAction(job, "/cancel");
  }

  lemma RouteExecutionRoundTrip(e: Endpoint)
    requires !e.ExecuteQuery? && PathSegment(e.jobId)
    ensures RoutePath(ExecutionPath(e)) == Some(e)
  {
    match e
    case Status(job) =>
      assert ExecutionPath(e) == "/execution/" + (job + "/status");
      RouteUnderExecution(job + "/status");
      RouteStatus(job);
    case Results(job) =>
      assert ExecutionPath(e) == "/execution/" + (job + "/results");
      RouteUnderExecution(job + "/results");
      RouteResults(job);
    case Cancel(job) =>
      assert ExecutionPath(e) == "/execution/" + (job + "/cancel");
      RouteUnderExecution(job + "/cancel");
      RouteCancel(job);
  }

  lemma RouteExecuteRoundTrip(id: int)
    ensures RoutePath("/query/" + IntToDecimal(id) + "/execute") == Some(ExecuteQuery(id))
  {
    var digits := IntToDecimal(id);
    var path := "/query/" + digits + "/execute";
    assert path[..7] == "/query/";
    assert path[|path| - 8..] == "/execute";
    assert path[7..|path| - 8] == digits;
    IntToDecimalRoundTrip(id);
  }

  lemma RouteBelowBase(path: string)
    ensures Route(BaseUrl + path) == RoutePath(path)
  {
    var url := BaseUrl + path;
    assert url[..|BaseUrl|] == BaseUrl;
    assert url[|BaseUrl|..] == path;
  }

  /** The execute URL is the base URL followed by the execute path. */
  lemma ExecuteUrlLayout(id: int)
    ensures Url(ExecuteQuery(id)) == BaseUrl + ("/query/" + IntToDecimal(id) + "/execute")
  {
    Regroup(BaseUrl, "/query/", IntToDecimal(id), "/execute");
  }

  /** An execution URL is the base URL followed by the execution path. */
  lemma ExecutionUrlLayout(e: Endpoint)
    requires !e.ExecuteQuery?
    ensures Url(e) == BaseUrl + ExecutionPath(e)
  {
    match e
    case Status(job) => Regroup(BaseUrl, "/execution/", job, "/status");
    case Results(job) => Regroup(BaseUrl, "/execution/", job, "/results");
    case Cancel(job) => Regroup(BaseUrl, "/execution/", job, "/cancel");
  }

  lemma Regroup(a: string, b: string, c: string, d: string)
    ensures a + b + c + d == a + (b + c + d)
  {
    assert a + b + c == a + (b + c);
    assert a + (b + c) + d == a + (b + c + d);
  }

  /** Every URL the client builds names the endpoint it was built for. */
  lemma RouteUrl(e: Endpoint)
    requires ValidEndpoint(e)
    ensures Route(Url(e)) == Some(e)
  {
    if e.ExecuteQuery? {
      ExecuteUrlLayout(e.queryId);
      RouteBelowBase("/query/" + IntToDecimal(e.queryId) + "/execute");
      RouteExecuteRoundTrip(e.queryId);
    } else {
      ExecutionUrlLayout(e);
      RouteBelowBase(ExecutionPath(e));
      RouteExecutionRoundTrip(e);
    }
  }

  /** The character that tells the three execution actions apart: the second to last. */
  function ActionMark(e: Endpoint): char
    requires !e.ExecuteQuery?
  {
    match e
    case Status(_) => 'u'
    case Results(_) => 't'
    case Cancel(_) => 'e'
  }

  /** An execution URL's action mark, and its job id between /execution/ and the action. */
  lemma ExecutionUrlParts(e: Endpoint)
    requires !e.ExecuteQuery?
    ensures var u := Url(e);
      && |u| >= |BaseUrl| + 11 + |Action(e)|
      && u[|u| - 2] == ActionMark(e)
      && u[|BaseUrl| + 11..|u| - |Action(e)|] == e.jobId
  {
    ExecutionUrlLayout(e);
    var u := Url(e);
    assert ExecutionPath(e) == "/execution/" + e.jobId + Action(e);
    assert u == BaseUrl + "/execution/" + e.jobId + Action(e);
  }

  /** An execute URL's query id, between /query/ and /execute. */
  lemma ExecuteUrlParts(id: int)
    ensures var u := Url(ExecuteQuery(id));
      |u| >= |BaseUrl| + 15 && u[|BaseUrl| + 7..|u| - 8] == IntToDecimal(id)
  {
    var u := Url(ExecuteQuery(id));
    assert u == BaseUrl + "/query/" + IntToDecimal(id) + "/execute";
  }

  lemma ExecuteUrlInjective(i: int, j: int)
    requires Url(ExecuteQuery(i)) == Url(ExecuteQuery(j))
    ensures i == j
  {
    ExecuteUrlParts(i);
    ExecuteUrlParts(j);
    IntToDecimalInjective(i, j);
  }

  lemma ExecutionUrlInjective(e: Endpoint, f: Endpoint)
    requires !e.ExecuteQuery? && !f.ExecuteQuery?
    requires Url(e) == Url(f)
    ensures e == f
  {
    ExecutionUrlParts(e);
    ExecutionUrlParts(f);
    assert ActionMark(e) == ActionMark(f);
    assert Action(e) == Action(f);
  }

  /** Distinct endpoints are sent to distinct URLs, whatever characters a job id holds. */
  lemma UrlInjective(e: Endpoint, f: Endpoint)
    requires Url(e) == Url(f)
    ensures e == f
  {
    assert e.ExecuteQuery? == f.ExecuteQuery? by {
      assert Url(e)[|BaseUrl| + 1] == Url(f)[|BaseUrl| + 1];
    }
    if e.ExecuteQuery? {
      ExecuteUrlInjective(e.queryId, f.queryId);
    } else {
      ExecutionUrlInjective(e, f);
    }
  }

  // ---- the execute request's body ----

  /** A query parameter as the request carries it: its key and the value `to_dict` gives it. */
  datatype QueryParameter = QueryParameter(key: string, value: string)

  datatype Query = Query(queryId: int, parameters: seq<QueryParameter>)

  /** `{p.key: p.to_dict()["value"] for p in parameters}`: filled in order, so a later key overrides. */
  function ParameterMap(ps: seq<QueryParameter>): (m: map<string, string>)
    ensures forall k :: k in m ==> exists i :: 0 <= i < |ps| && ps[i].key == k && ps[i].value == m[k]
    ensures ps != [] ==> ps[|ps| - 1].key in m && m[ps[|ps| - 1].key] == ps[|ps| - 1].value
  {
    if ps == [] then map[] else ParameterMap(ps[..|ps| - 1])[ps[|ps| - 1].key := ps[|ps| - 1].value]
  }

  /** The map has exactly the parameters' keys. */
  lemma {:induction false} ParameterMapKeys(ps: seq<QueryParameter>, k: string)
    ensures k in ParameterMap(ps) <==> exists i :: 0 <= i < |ps| && ps[i].key == k
  {
    if ps != [] {
      var init := ps[..|ps| - 1];
      ParameterMapKeys(init, k);
      if exists i :: 0 <= i < |init| && init[i].key == k {
        var i :| 0 <= i < |init| && init[i].key == k;
        assert ps[i].key == k;
      }
      if exists i :: 0 <= i < |ps| && ps[i].key == k {
        var i :| 0 <= i < |ps| && ps[i].key == k;
        if i < |init| {
          assert init[i].key == k;
        }
      }
    }
  }

  /** A key takes the value of the last parameter that has it. */
  lemma {:induction false} ParameterMapLastWins(ps: seq<QueryParameter>, i: int)
    requires 0 <= i < |ps|
    requires forall j :: i < j < |ps| ==> ps[j].key != ps[i].key
    ensures ps[i].key in ParameterMap(ps) && ParameterMap(ps)[ps[i].key] == ps[i].value
  {
    var init := ps[..|ps| - 1];
    if i < |ps| - 1 {
      assert forall j :: i < j < |init| ==> init[j].key != init[i].key by {
        forall j | i < j < |init| ensures init[j].key != init[i].key {
          assert init[j] == ps[j];
        }
      }
      ParameterMapLastWins(init, i);
      assert init[i] == ps[i];
    }
  }

  /** `{"query_parameters": {key: value, ...}}`, the values sent as strings. */
  function ExecuteBody(q: Query): (b: Json)
    ensures b.JObject? && b.fields.Keys == {"query_parameters"} && b.fields["query_parameters"].JObject?
    ensures forall k :: k in b.fields["query_parameters"].fields ==> b.fields["query_parameters"].fields[k].JString?
  {
    var m := ParameterMap(q.parameters);
    JObject(map["query_parameters" := JObject(map k | k in m :: JString(m[k]))])
  }

  /**
   * The execute body holds one query_parameters object whose keys are the
   * parameters' keys, each bound to the value of the last parameter with it.
   */
  lemma ExecuteBodyParameters(q: Query, i: int)
    requires 0 <= i < |q.parameters|
    requires forall j :: i < j < |q.parameters| ==> q.parameters[j].key != q.parameters[i].key
    ensures ExecuteBody(q).fields.Keys == {"query_parameters"}
    ensures var sent := ExecuteBody(q).fields["query_parameters"];
      && sent.JObject? && q.parameters[i].key in sent.fields
      && sent.fields[q.parameters[i].key] == JString(q.parameters[i].value)
  {
    ParameterMapLastWins(q.parameters, i);
  }

  /** Only the parameters' keys are sent. */
  lemma ExecuteBodyKeys(q: Query, k: string)
    ensures k in ExecuteBody(q).fields["query_parameters"].fields <==>
      exists i :: 0 <= i < |q.parameters| && q.parameters[i].key == k
  {
    ParameterMapKeys(q.parameters, k);
  }
}
