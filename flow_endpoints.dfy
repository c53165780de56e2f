/** The flow-execution endpoints (gateway/api/v1/endpoints/flows.py):
    POST /flows/{flow_name}/execute and POST /flows/{flow_name}/execute/{deployment_name}. */
module FlowEndpoints {
  import opened Wrappers
  import opened Json
  import opened Http
  import opened Transport
  import opened Pydantic
  import opened PrefectClient
  import opened FlowSchemas

  const ExecuteFlowPrefix: string := "Failed to execute flow: "
  const ExecuteDeploymentPrefix: string := "Failed to execute deployment: "

  /** `execute_deployment` joins its two path segments. */
  function NamedDeployment(flowName: string, deploymentName: string): string {
    flowName + "/" + deploymentName
  }

  /** `execute_flow` always targets the flow's "production" deployment. */
  function ProductionDeployment(flowName: string): string {
    NamedDeployment(flowName, "production")
  }

  /** A path segment never holds '/', so the client splits the name back
      into the segments it was built from. */
  lemma DeploymentNamesParse(flowName: string, deploymentName: string)
    requires '/' !in flowName
    ensures ParseDeploymentName(ProductionDeployment(flowName)) == DeploymentRef(flowName, "production")
    ensures ParseDeploymentName(NamedDeployment(flowName, deploymentName)) == DeploymentRef(flowName, deploymentName)
  {
    ParseJoinedName(flowName, "production");
    ParseJoinedName(flowName, deploymentName);
  }

  /** The tags the handler forwards: the caller's, or none, in their order,
      with "user:<subject>" appended last. */
  function ForwardedTags(tags: Option<seq<string>>, user: string): (r: seq<string>)
    ensures |r| == |tags.GetOr([])| + 1
    ensures r[..|r| - 1] == tags.GetOr([])
    ensures r[|r| - 1] == "user:" + user
  {
    tags.GetOr([]) + ["user:" + user]
  }

  /** The gate before the handler body: authentication (401), then the
      request body (422). */
  function Admit(auth: Result<string, HttpException>, body: Json): (r: Result<(string, ExecuteRequest), HttpResponse>)
    ensures auth.Err? ==> r == Err(ErrorResponse(auth.error))
    ensures auth.Ok? && ParseExecuteRequest(body).Err? ==> r.Err? && r.error.status == Unprocessable422
    ensures r.Ok? <==> auth.Ok? && ParseExecuteRequest(body).Ok?
    ensures r.Ok? ==> r.value == (auth.value, ParseExecuteRequest(body).value)
  {
    if auth.Err? then Err(ErrorResponse(auth.error))
    else match ParseExecuteRequest(body)
      case Err(e) => Err(Fail(Unprocessable422, e.message))
      case Ok(req) => Ok((auth.value, req))
  }

  /** The client call the handler makes for an admitted request. */
  function ExecuteCall(deploymentName: string, req: ExecuteRequest, user: string): Request {
    RunDeploymentRequest(deploymentName, Some(req.parameters), Some(ForwardedTags(req.tags, user)))
  }

  /** 202 with the validated `FlowExecuteResponse`, or 500 whose detail is
      the prefix followed by the error text, whether the client raised or
      the result lacked a required field. */
  function ExecuteResponse(prefix: string, outcome: Result<Record, Exception>): (resp: HttpResponse)
    ensures resp.status == Accepted202 <==> outcome.Ok? && FlowExecuteResponse(outcome.value).Ok?
    ensures resp.status == Accepted202 ==> resp == Success(Accepted202, JObj(FlowExecuteResponse(outcome.value).value))
    ensures resp.status != Accepted202 ==> resp.status == InternalError500
    ensures outcome.Err? ==> resp == Fail(InternalError500, prefix + outcome.error.message)
    ensures outcome.Ok? && FlowExecuteResponse(outcome.value).Err? ==>
      resp == Fail(InternalError500, prefix + FlowExecuteResponse(outcome.value).error.message)
  {
    match outcome
    case Err(e) => Fail(InternalError500, prefix + e.message)
    case Ok(result) =>
      match FlowExecuteResponse(result)
      case Ok(body) => Success(Accepted202, JObj(body))
      case Err(e) => Fail(InternalError500, prefix + e.message)
  }

  /** The record the real client builds carries "id" where the response
      schema requires "run_id", so every call that reaches the orchestrator
      ends in 500, whatever it answers. */
  lemma RealClientExecuteIs500(prefix: string, name: string, parameters: Option<Record>,
                               tags: Option<seq<string>>, reply: Reply)
    ensures ExecuteResponse(prefix, RunDeploymentOutcome(name, parameters, tags, reply)).status == InternalError500
  {
    var outcome := RunDeploymentOutcome(name, parameters, tags, reply);
    if outcome.Ok? {
      assert "run_id" !in outcome.value;
    }
  }

  /** POST /flows/{flow_name}/execute. */
  method ExecuteFlow(flowName: string, auth: Result<string, HttpException>, body: Json, client: Client)
    returns (resp: HttpResponse)
    modifies client.http
    ensures Admit(auth, body).Err? ==> resp == Admit(auth, body).error && client.http.trace == old(client.http.trace)
    ensures Admit(auth, body).Ok? ==>
      var (user, req) := Admit(auth, body).value;
      var call := ExecuteCall(ProductionDeployment(flowName), req, user);
      && client.http.trace == old(client.http.trace) + [call]
      && resp == ExecuteResponse(ExecuteFlowPrefix,
           RunDeploymentOutcome(ProductionDeployment(flowName), Some(req.parameters), Some(ForwardedTags(req.tags, user)),
                                client.http.respond(|old(client.http.trace)|, call)))
  {
    var admitted := Admit(auth, body);
    if admitted.Err? {
      return admitted.error;
    }
    var (user, request) := admitted.value;
    var tags := request.tags.GetOr([]);
    tags := tags + ["user:" + user];
    var result := client.RunDeployment(ProductionDeployment(flowName), Some(request.parameters), Some(tags));
    resp := ExecuteResponse(ExecuteFlowPrefix, result);
  }

  /** POST /flows/{flow_name}/execute/{deployment_name}. */
  method ExecuteDeployment(flowName: string, deploymentName: string, auth: Result<string, HttpException>,
                           body: Json, client: Client)
    returns (resp: HttpResponse)
    modifies client.http
    ensures Admit(auth, body).Err? ==> resp == Admit(auth, body).error && client.http.trace == old(client.http.trace)
    ensures Admit(auth, body).Ok? ==>
      var (user, req) := Admit(auth, body).value;
      var name := NamedDeployment(flowName, deploymentName);
      var call := ExecuteCall(name, req, user);
      && client.http.trace == old(client.http.trace) + [call]
      && resp == ExecuteResponse(ExecuteDeploymentPrefix,
           RunDeploymentOutcome(name, Some(req.parameters), Some(ForwardedTags(req.tags, user)),
                                client.http.respond(|old(client.http.trace)|, call)))
  {
    var admitted := Admit(auth, body);
    if admitted.Err? {
      return admitted.error;
    }
    var (user, request) := admitted.value;
    var tags := request.tags.GetOr([]);
    tags := tags + ["user:" + user];
    var result := client.RunDeployment(NamedDeployment(flowName, deploymentName), Some(request.parameters), Some(tags));
    resp := ExecuteResponse(ExecuteDeploymentPrefix, result);
  }
}
