/** The run endpoints (gateway/api/v1/endpoints/runs.py): GET /runs/{run_id},
    GET /runs/{run_id}/result and DELETE /runs/{run_id}. Each response is a
    function of the client's outcomes; the methods add the calls made. */
module RunEndpoints {
  import opened Wrappers
  import opened Json
  import opened Http
  import opened Transport
  import opened Pydantic
  import opened PrefectClient
  import opened ExecutionSchemas

  const NotFoundPrefix: string := "Flow run not found: "
  const CancelPrefix: string := "Failed to cancel flow run: "
  const CancelledMessage: string := "Flow run cancelled successfully"

  /** GET /runs/{run_id}: 200 with the validated `FlowRunResponse`; a client
      error or a record the schema refuses is reported as 404. */
  function RunResponse(outcome: Result<Record, Exception>): (resp: HttpResponse)
    ensures resp.status == Ok200 <==> outcome.Ok? && FlowRunResponse(outcome.value).Ok?
    ensures resp.status == Ok200 ==> resp == Success(Ok200, JObj(FlowRunResponse(outcome.value).value))
    ensures resp.status != Ok200 ==> resp.status == NotFound404
    ensures outcome.Err? ==> resp == Fail(NotFound404, NotFoundPrefix + outcome.error.message)
    ensures outcome.Ok? && FlowRunResponse(outcome.value).Err? ==>
      resp == Fail(NotFound404, NotFoundPrefix + FlowRunResponse(outcome.value).error.message)
  {
    match outcome
    case Err(e) => Fail(NotFound404, NotFoundPrefix + e.message)
    case Ok(result) =>
      match FlowRunResponse(result)
      case Ok(body) => Success(Ok200, JObj(body))
      case Err(e) => Fail(NotFound404, NotFoundPrefix + e.message)
  }

  /** What the result endpoint does with the run it fetched. */
  datatype Branch = FetchResult | ReportFailure | Neither

  function BranchOf(runInfo: Record): (b: Branch)
    ensures b == FetchResult <==> Lookup(runInfo, "state_type", JNull) == JStr("COMPLETED")
    ensures b == ReportFailure <==> Lookup(runInfo, "state_type", JNull) == JStr("FAILED")
  {
    var stateType := Lookup(runInfo, "state_type", JNull);
    if stateType == JStr("COMPLETED") then FetchResult
    else if stateType == JStr("FAILED") then ReportFailure
    else Neither
  }

  /** `run_info.get("state", "UNKNOWN")`. */
  function ReportedState(runInfo: Record): (state: Json)
    ensures "state" in runInfo ==> state == runInfo["state"]
    ensures "state" !in runInfo ==> state == JStr("UNKNOWN")
  {
    Lookup(runInfo, "state", JStr("UNKNOWN"))
  }

  /** "Flow run failed: " followed by `str()` of the state, "None" when absent. */
  function FailureMessage(runInfo: Record): (msg: string)
    ensures |msg| >= 17 && msg[..17] == "Flow run failed: "
    ensures "state" in runInfo ==> msg[17..] == Display(runInfo["state"])
    ensures "state" !in runInfo ==> msg[17..] == "None"
  {
    "Flow run failed: " + Display(Lookup(runInfo, "state", JNull))
  }

  /** The fields the result endpoint hands to `FlowRunResultResponse`. */
  function ResultFields(runId: string, runInfo: Record, resultData: Json): (fields: Record)
    ensures fields.Keys == {"run_id", "state", "result", "error"}
    ensures fields["run_id"] == JStr(runId) && fields["state"] == ReportedState(runInfo)
    ensures fields["result"] == resultData
    ensures fields["error"] == (if BranchOf(runInfo) == ReportFailure then JStr(FailureMessage(runInfo)) else JNull)
  {
    var errorMessage := if BranchOf(runInfo) == ReportFailure then JStr(FailureMessage(runInfo)) else JNull;
    map["run_id" := JStr(runId), "state" := ReportedState(runInfo), "result" := resultData, "error" := errorMessage]
  }

  /** GET /runs/{run_id}/result, given the outcome of the status fetch and
      of the result fetch (consulted only for a COMPLETED run). */
  function RunResultResponse(runId: string, info: Result<Record, Exception>, result: Result<Json, Exception>): (resp: HttpResponse)
    ensures resp.status == Ok200 || resp.status == NotFound404
    ensures resp.status == Ok200 <==>
      && info.Ok?
      && (BranchOf(info.value) == FetchResult ==> result.Ok?)
      && ReportedState(info.value).JStr?
    ensures resp.status == NotFound404 ==> resp.body.JObj? && "detail" in resp.body.fields
    ensures info.Err? ==> resp == Fail(NotFound404, NotFoundPrefix + info.error.message)
    ensures info.Ok? && BranchOf(info.value) == FetchResult && result.Err? ==>
      resp == Fail(NotFound404, NotFoundPrefix + result.error.message)
    ensures info.Ok? && (BranchOf(info.value) == FetchResult ==> result.Ok?) ==>
      var data := if BranchOf(info.value) == FetchResult then result.value else JNull;
      var checked := FlowRunResultResponse(ResultFields(runId, info.value, data));
      checked.Err? ==> resp == Fail(NotFound404, NotFoundPrefix + checked.error.message)
    ensures resp.status == Ok200 ==>
      && resp.headers == map[] && resp.body.JObj?
      && resp.body.fields.Keys == {"run_id", "state", "result", "error"}
      && resp.body.fields["run_id"] == JStr(runId)
      && resp.body.fields["state"] == ReportedState(info.value)
      && resp.body.fields["result"] == (if BranchOf(info.value) == FetchResult then result.value else JNull)
      && resp.body.fields["error"] ==
           (if BranchOf(info.value) == ReportFailure then JStr(FailureMessage(info.value)) else JNull)
  {
    match info
    case Err(e) => Fail(NotFound404, NotFoundPrefix + e.message)
    case Ok(runInfo) =>
      var branch := BranchOf(runInfo);
      if branch == FetchResult && result.Err? then Fail(NotFound404, NotFoundPrefix + result.error.message)
      else
        var resultData := if branch == FetchResult then result.value else JNull;
        match FlowRunResultResponse(ResultFields(runId, runInfo, resultData))
        case Ok(body) => Success(Ok200, JObj(body))
        case Err(e) => Fail(NotFound404, NotFoundPrefix + e.message)
  }

  /** Only a COMPLETED run looks at the result fetch. */
  lemma ResultFetchOnlyWhenCompleted(runId: string, info: Result<Record, Exception>, a: Result<Json, Exception>, b: Result<Json, Exception>)
    requires info.Err? || BranchOf(info.value) != FetchResult
    ensures RunResultResponse(runId, info, a) == RunResultResponse(runId, info, b)
  {
  }

  /** The real client always reports a "state" key, so "UNKNOWN" never
      appears; a run whose remote state has no name has a null state, which
      the response schema refuses (404). */
  lemma RealClientStateIsNeverUnknown(runId: string, reply: Reply, result: Result<Json, Exception>)
    requires FlowRunOutcome(reply).Ok?
    ensures "state" in FlowRunOutcome(reply).value
    ensures ReportedState(FlowRunOutcome(reply).value) == StateOf(reply.body, "name", JNull)
    ensures StateOf(reply.body, "name", JNull) == JNull ==>
      RunResultResponse(runId, FlowRunOutcome(reply), result).status == NotFound404
  {
  }

  /** DELETE /runs/{run_id}: a confirmation echoing the path id and the state
      of the re-fetched run, or 500. */
  function CancelResponse(runId: string, outcome: Result<Record, Exception>): (resp: HttpResponse)
    ensures outcome.Ok? ==> resp == Success(Ok200, JObj(map["message" := JStr(CancelledMessage),
                                                                "run_id" := JStr(runId),
                                                                "state" := Lookup(outcome.value, "state", JNull)]))
    ensures outcome.Err? ==> resp == Fail(InternalError500, CancelPrefix + outcome.error.message)
  {
    match outcome
    case Ok(result) =>
      Success(Ok200, JObj(map["message" := JStr(CancelledMessage), "run_id" := JStr(runId),
                              "state" := Lookup(result, "state", JNull)]))
    case Err(e) => Fail(InternalError500, CancelPrefix + e.message)
  }

  /** GET /runs/{run_id}. */
  method GetRun(runId: string, auth: Result<string, HttpException>, client: Client) returns (resp: HttpResponse)
    modifies client.http
    ensures auth.Err? ==> resp == ErrorResponse(auth.error) && client.http.trace == old(client.http.trace)
    ensures auth.Ok? ==>
      && client.http.trace == old(client.http.trace) + [FlowRunRequest(runId)]
      && resp == RunResponse(FlowRunOutcome(client.http.respond(|old(client.http.trace)|, FlowRunRequest(runId))))
  {
    if auth.Err? {
      return ErrorResponse(auth.error);
    }
    var result := client.GetFlowRun(runId);
    resp := RunResponse(result);
  }

  /** The result endpoint's response given the replies to the status fetch
      and to the client's two fetches. */
  function RunResultEndpoint(runId: string, status: Reply, first: Reply, second: Reply): HttpResponse {
    RunResultResponse(runId, FlowRunOutcome(status), FlowRunResultOutcome(first, second))
  }

  /** GET /runs/{run_id}/result: one GET for the status; for a COMPLETED run
      the client's result fetch adds one GET, or two when it too sees the
      run COMPLETED. All of them ask for the same path. */
  method GetRunResult(runId: string, auth: Result<string, HttpException>, client: Client) returns (resp: HttpResponse)
    modifies client.http
    ensures auth.Err? ==> resp == ErrorResponse(auth.error) && client.http.trace == old(client.http.trace)
    ensures auth.Ok? ==>
      var g := FlowRunRequest(runId);
      var n := |old(client.http.trace)|;
      var info := FlowRunOutcome(client.http.respond(n, g));
      var fetches := info.Ok? && BranchOf(info.value) == FetchResult;
      && client.http.trace == old(client.http.trace) + [g]
           + (if fetches then (if IsCompletedRun(client.http.respond(n + 1, g)) then [g, g] else [g]) else [])
      && resp == RunResultEndpoint(runId, client.http.respond(n, g), client.http.respond(n + 1, g), client.http.respond(n + 2, g))
  {
    if auth.Err? {
      return ErrorResponse(auth.error);
    }
    ghost var n := |client.http.trace|;
    ghost var g := FlowRunRequest(runId);
    var info := client.GetFlowRun(runId);
    assert |client.http.trace| == n + 1;
    ghost var later := FlowRunResultOutcome(client.http.respond(n + 1, g), client.http.respond(n + 2, g));
    ghost var status := client.http.respond(n, g);
    assert info == FlowRunOutcome(status);
    if info.Ok? && BranchOf(info.value) == FetchResult {
      var result := client.GetFlowRunResult(runId);
      assert result == later;
      resp := RunResultResponse(runId, info, result);
    } else {
      resp := RunResultResponse(runId, info, Ok(JNull));
      ResultFetchOnlyWhenCompleted(runId, info, Ok(JNull), later);
      assert client.http.trace == old(client.http.trace) + [g] + [];
    }
    assert resp == RunResultResponse(runId, FlowRunOutcome(status), later);
  }

  /** DELETE /runs/{run_id}. */
  method CancelRun(runId: string, auth: Result<string, HttpException>, client: Client) returns (resp: HttpResponse)
    modifies client.http
    ensures auth.Err? ==> resp == ErrorResponse(auth.error) && client.http.trace == old(client.http.trace)
    ensures auth.Ok? ==>
      var n := |old(client.http.trace)|;
      var post := client.http.respond(n, CancelRequest(runId));
      && client.http.trace == old(client.http.trace) + [CancelRequest(runId)]
           + (if RaiseForStatus(post).Ok? then [FlowRunRequest(runId)] else [])
      && resp == CancelResponse(runId, CancelOutcome(post, client.http.respond(n + 1, FlowRunRequest(runId))))
  {
    if auth.Err? {
      return ErrorResponse(auth.error);
    }
    var result := client.CancelFlowRun(runId);
    resp := CancelResponse(runId, result);
  }
}
