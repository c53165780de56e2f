/** The orchestrator client (gateway/core/prefect_client.py): the request each
    operation sends, how it normalises the remote JSON into flat records, the
    sequence of calls each operation makes, and the process-wide lazily built
    client. */
module PrefectClient {
  import opened Wrappers
  import opened Json
  import opened Transport
  import opened Strings
  import Config

  type Record = map<string, Json>

  // ---------------------------------------------------------------------------
  // Deployment names

  datatype DeploymentRef = DeploymentRef(flow: string, suffix: string)

  /** "flow/suffix" splits at the first '/', the suffix keeping any later
      slashes; a name without '/' is a flow with the suffix "default". */
  function ParseDeploymentName(name: string): (r: DeploymentRef)
    ensures '/' in name ==> name == r.flow + "/" + r.suffix && '/' !in r.flow
    ensures '/' !in name ==> r == DeploymentRef(name, "default")
  {
    if '/' in name then
      var parts := SplitFirstSlash(name);
      DeploymentRef(parts.0, parts.1)
    else DeploymentRef(name, "default")
  }

  /** Parsing inverts joining: the flow is recovered exactly when it has no '/'. */
  lemma ParseJoinedName(flow: string, suffix: string)
    requires '/' !in flow
    ensures ParseDeploymentName(flow + "/" + suffix) == DeploymentRef(flow, suffix)
  {
    SplitJoin(flow, suffix);
  }

  // ---------------------------------------------------------------------------
  // Requests

  /** The create-run path: a "flow/suffix" name is used as it stands, a bare
      flow name gets the suffix "default". */
  function CreateFlowRunPath(name: string): (path: string)
    ensures '/' in name ==> path == "/deployments/name/" + name + "/create_flow_run"
    ensures '/' !in name ==> path == "/deployments/name/" + name + "/default/create_flow_run"
  {
    var ref := ParseDeploymentName(name);
    assert '/' in name ==> name == ref.flow + "/" + ref.suffix;
    "/deployments/name/" + ref.flow + "/" + ref.suffix + "/create_flow_run"
  }

  /** The POST of `run_deployment`: `parameters or {}` and `tags or []`. */
  function RunDeploymentRequest(name: string, parameters: Option<Record>, tags: Option<seq<string>>): (req: Request)
    ensures req.Post? && req.path == CreateFlowRunPath(name)
    ensures req.body.JObj? && req.body.fields.Keys == {"parameters", "tags"}
    ensures req.body.fields["parameters"] == JObj(parameters.GetOr(map[]))
    ensures req.body.fields["tags"] == StrArray(tags.GetOr([]))
  {
    Post(CreateFlowRunPath(name),
         JObj(map["parameters" := JObj(parameters.GetOr(map[])), "tags" := StrArray(tags.GetOr([]))]))
  }

  /** The GET of one run. */
  function FlowRunRequest(runId: string): (req: Request)
    ensures req.Get? && req.path == "/flow_runs/" + runId
  {
    Get("/flow_runs/" + runId)
  }

  /** The filter POST of `list_deployments`: limit and offset unchanged. */
  function ListDeploymentsRequest(limit: int, offset: int): (req: Request)
    ensures req.Post? && req.path == "/deployments/filter"
    ensures req.body.JObj? && req.body.fields.Keys == {"limit", "offset"}
    ensures req.body.fields["limit"] == JInt(limit) && req.body.fields["offset"] == JInt(offset)
  {
    Post("/deployments/filter", JObj(map["limit" := JInt(limit), "offset" := JInt(offset)]))
  }

  /** The state-change POST of `cancel_flow_run`. */
  function CancelRequest(runId: string): (req: Request)
    ensures req.Post? && req.path == "/flow_runs/" + runId + "/set_state"
    ensures req.body.JObj? && req.body.fields.Keys == {"type", "name", "message"}
    ensures req.body.fields["type"] == JStr("CANCELLED") && req.body.fields["name"] == JStr("Cancelled")
    ensures req.body.fields["message"] == JStr("Flow run cancelled via API")
  {
    Post("/flow_runs/" + runId + "/set_state",
         JObj(map["type" := JStr("CANCELLED"), "name" := JStr("Cancelled"),
                  "message" := JStr("Flow run cancelled via API")]))
  }

  // ---------------------------------------------------------------------------
  // Normalisation of remote JSON

  /** The remote value has the shape `x.get("state", {}).get(...)` can read:
      a dict whose "state", if present, is a dict. */
  predicate Readable(x: Json) {
    x.JObj? && ("state" in x.fields ==> x.fields["state"].JObj?)
  }

  /** `x.get("state", {}).get(field, default)` on a readable value. */
  function StateOf(x: Json, field: string, default: Json): Json
    requires Readable(x)
  {
    Lookup(Lookup(x.fields, "state", JObj(map[])).fields, field, default)
  }

  /** The same read as Python performs it, raising on an unreadable value. */
  function GetStateField(x: Json, field: string, default: Json): (r: Result<Json, Exception>)
    ensures r.Ok? <==> Readable(x)
    ensures r.Ok? ==> r.value == StateOf(x, field, default)
    ensures r.Err? ==> r.error.kind == AttributeError
  {
    var state :- DictGet(x, "state", JObj(map[]));
    DictGet(state, field, default)
  }

  const CreatedRunKeys: set<string> :=
    {"id", "flow_name", "deployment_name", "state", "state_type", "parameters", "tags", "created"}

  /** The record `run_deployment` returns: remote id and creation time, the
      parsed flow, the name as given, the state defaulting to "SCHEDULED", and
      the caller's own parameters and tags. */
  function CreatedRunRecord(run: Json, name: string, parameters: Option<Record>, tags: Option<seq<string>>): (r: Result<Record, Exception>)
    ensures r.Ok? <==> Readable(run)
    ensures r.Err? ==> r.error.kind == AttributeError
    ensures r.Ok? ==>
      && r.value.Keys == CreatedRunKeys
      && r.value["id"] == Lookup(run.fields, "id", JNull)
      && r.value["created"] == Lookup(run.fields, "created", JNull)
      && r.value["flow_name"] == JStr(ParseDeploymentName(name).flow)
      && r.value["deployment_name"] == JStr(name)
      && r.value["state"] == StateOf(run, "name", JStr("SCHEDULED"))
      && r.value["state_type"] == StateOf(run, "type", JStr("SCHEDULED"))
      && r.value["parameters"] == JObj(parameters.GetOr(map[]))
      && r.value["tags"] == StrArray(tags.GetOr([]))
  {
    if !Readable(run) then Err(NoAttributeGet)
    else
      Ok(map["id" := Lookup(run.fields, "id", JNull),
             "flow_name" := JStr(ParseDeploymentName(name).flow),
             "deployment_name" := JStr(name),
             "state" := StateOf(run, "name", JStr("SCHEDULED")),
             "state_type" := StateOf(run, "type", JStr("SCHEDULED")),
             "parameters" := JObj(parameters.GetOr(map[])),
             "tags" := StrArray(tags.GetOr([])),
             "created" := Lookup(run.fields, "created", JNull)])
  }

  const FlowRunKeys: set<string> :=
    {"id", "flow_name", "state", "state_type", "start_time", "end_time", "total_run_time", "parameters"}

  /** The record `get_flow_run` returns: copied fields, null when absent, the
      nested state with no default, and parameters defaulting to {}. */
  function FlowRunRecord(run: Json): (r: Result<Record, Exception>)
    ensures r.Ok? <==> Readable(run)
    ensures r.Err? ==> r.error.kind == AttributeError
    ensures r.Ok? ==>
      && r.value.Keys == FlowRunKeys
      && (forall k :: k in {"id", "flow_name", "start_time", "end_time", "total_run_time"} ==>
            r.value[k] == Lookup(run.fields, k, JNull))
      && r.value["state"] == StateOf(run, "name", JNull)
      && r.value["state_type"] == StateOf(run, "type", JNull)
      && r.value["parameters"] == Lookup(run.fields, "parameters", JObj(map[]))
  {
    if !Readable(run) then Err(NoAttributeGet)
    else
      Ok(map["id" := Lookup(run.fields, "id", JNull),
             "flow_name" := Lookup(run.fields, "flow_name", JNull),
             "state" := StateOf(run, "name", JNull),
             "state_type" := StateOf(run, "type", JNull),
             "start_time" := Lookup(run.fields, "start_time", JNull),
             "end_time" := Lookup(run.fields, "end_time", JNull),
             "total_run_time" := Lookup(run.fields, "total_run_time", JNull),
             "parameters" := Lookup(run.fields, "parameters", JObj(map[]))])
  }

  const DeploymentKeys: set<string> := {"id", "name", "flow_name", "description", "tags", "parameters"}

  /** One entry of `list_deployments`. */
  function DeploymentRecord(d: Record): (r: Record)
    ensures r.Keys == DeploymentKeys
    ensures forall k :: k in {"id", "name", "flow_name", "description"} ==> r[k] == Lookup(d, k, JNull)
    ensures r["tags"] == Lookup(d, "tags", JArr([]))
    ensures r["parameters"] == Lookup(d, "parameters", JObj(map[]))
  {
    map["id" := Lookup(d, "id", JNull), "name" := Lookup(d, "name", JNull),
        "flow_name" := Lookup(d, "flow_name", JNull), "description" := Lookup(d, "description", JNull),
        "tags" := Lookup(d, "tags", JArr([])), "parameters" := Lookup(d, "parameters", JObj(map[]))]
  }

  predicate AllObjects(items: seq<Json>) {
    forall k :: 0 <= k < |items| ==> items[k].JObj?
  }

  /** The list comprehension over a JSON array: one record per entry, in
      order, raising on the first entry that is not a dict. */
  function DeploymentItems(items: seq<Json>): (r: Result<seq<Record>, Exception>)
    ensures r.Ok? <==> AllObjects(items)
    ensures r.Err? ==> r.error.kind == AttributeError
    ensures r.Ok? ==> |r.value| == |items|
    ensures r.Ok? ==> forall k :: 0 <= k < |items| ==> r.value[k] == DeploymentRecord(items[k].fields)
  {
    if items == [] then Ok([])
    else
      var head :- DictGet(items[0], "id", JNull);
      var rest :- DeploymentItems(items[1..]);
      assert items[0].JObj?;
      Ok([DeploymentRecord(items[0].fields)] + rest)
  }

  /** `for d in deployments` over whatever the remote sent: an array is
      walked entry by entry; iterating an empty dict or an empty string yields
      nothing; a non-empty dict or string yields strings, which have no
      `.get`; anything else is not iterable. */
  function DeploymentRecords(body: Json): (r: Result<seq<Record>, Exception>)
    ensures body.JArr? ==> r == DeploymentItems(body.items)
    ensures body.JObj? ==> r == if body.fields == map[] then Ok([]) else Err(Exception(AttributeError, "'str' object has no attribute 'get'"))
    ensures body.JStr? ==> r == if body.s == "" then Ok([]) else Err(Exception(AttributeError, "'str' object has no attribute 'get'"))
    ensures !(body.JArr? || body.JObj? || body.JStr?) ==> r.Err? && r.error.kind == TypeError
  {
    match body
    case JArr(items) => DeploymentItems(items)
    case JObj(fields) =>
      if fields == map[] then Ok([]) else Err(Exception(AttributeError, "'str' object has no attribute 'get'"))
    case JStr(s) =>
      if s == "" then Ok([]) else Err(Exception(AttributeError, "'str' object has no attribute 'get'"))
    case _ => Err(Exception(TypeError, "object is not iterable"))
  }

  // ---------------------------------------------------------------------------
  // Operations as functions of the remote's replies

  /** `run_deployment`: an error status propagates before any record is built. */
  function RunDeploymentOutcome(name: string, parameters: Option<Record>, tags: Option<seq<string>>, reply: Reply): (r: Result<Record, Exception>)
    ensures RaiseForStatus(reply).Err? ==> r == Err(RaiseForStatus(reply).error)
    ensures RaiseForStatus(reply).Ok? ==> r == CreatedRunRecord(reply.body, name, parameters, tags)
  {
    var body :- RaiseForStatus(reply);
    CreatedRunRecord(body, name, parameters, tags)
  }

  function FlowRunOutcome(reply: Reply): (r: Result<Record, Exception>)
    ensures RaiseForStatus(reply).Err? ==> r == Err(RaiseForStatus(reply).error)
    ensures RaiseForStatus(reply).Ok? ==> r == FlowRunRecord(reply.body)
  {
    var body :- RaiseForStatus(reply);
    FlowRunRecord(body)
  }

  /** The status fetch of `get_flow_run_result` found a completed run. */
  predicate IsCompletedRun(reply: Reply) {
    FlowRunOutcome(reply).Ok? && FlowRunOutcome(reply).value["state_type"] == JStr("COMPLETED")
  }

  /** `get_flow_run_result`: null unless the first fetch shows COMPLETED;
      then the second fetch's `state.data`, null when absent. */
  function FlowRunResultOutcome(first: Reply, second: Reply): (r: Result<Json, Exception>)
    ensures FlowRunOutcome(first).Err? ==> r == Err(FlowRunOutcome(first).error)
    ensures FlowRunOutcome(first).Ok? && !IsCompletedRun(first) ==> r == Ok(JNull)
    ensures IsCompletedRun(first) && RaiseForStatus(second).Err? ==> r == Err(RaiseForStatus(second).error)
    ensures IsCompletedRun(first) && RaiseForStatus(second).Ok? ==>
      r == GetStateField(second.body, "data", JNull)
  {
    var run :- FlowRunOutcome(first);
    if run["state_type"] != JStr("COMPLETED") then Ok(JNull)
    else
      var full :- RaiseForStatus(second);
      GetStateField(full, "data", JNull)
  }

  /** Unless the run is completed, the second reply is never consulted. */
  lemma ResultIgnoresSecondReply(first: Reply, a: Reply, b: Reply)
    requires !IsCompletedRun(first)
    ensures FlowRunResultOutcome(first, a) == FlowRunResultOutcome(first, b)
  {
  }

  function ListDeploymentsOutcome(reply: Reply): (r: Result<seq<Record>, Exception>)
    ensures RaiseForStatus(reply).Err? ==> r == Err(RaiseForStatus(reply).error)
    ensures RaiseForStatus(reply).Ok? ==> r == DeploymentRecords(reply.body)
  {
    var body :- RaiseForStatus(reply);
    DeploymentRecords(body)
  }

  /** `cancel_flow_run`: the state change must succeed before the re-fetch. */
  function CancelOutcome(post: Reply, get: Reply): (r: Result<Record, Exception>)
    ensures RaiseForStatus(post).Err? ==> r == Err(RaiseForStatus(post).error)
    ensures RaiseForStatus(post).Ok? ==> r == FlowRunOutcome(get)
  {
    var _ :- RaiseForStatus(post);
    FlowRunOutcome(get)
  }

  // ---------------------------------------------------------------------------
  // The client

  /** `api_url or settings.prefect_api_url`. */
  function ApiUrlFor(apiUrl: Option<string>): (url: string)
    ensures apiUrl.Some? && apiUrl.value != "" ==> url == apiUrl.value
    ensures apiUrl.None? || apiUrl.value == "" ==> url == Config.PrefectApiUrl
  {
    if apiUrl.Some? && apiUrl.value != "" then apiUrl.value else Config.PrefectApiUrl
  }

  class Client {
    const apiUrl: string
    const http: HttpClient

    constructor (apiUrl: Option<string>, remote: (nat, Request) -> Reply)
      ensures this.apiUrl == ApiUrlFor(apiUrl)
      ensures fresh(http) && http.baseUrl == this.apiUrl && http.respond == remote && http.trace == []
    {
      this.apiUrl := ApiUrlFor(apiUrl);
      http := new HttpClient(ApiUrlFor(apiUrl), remote);
    }

    method RunDeployment(name: string, parameters: Option<Record> := None, tags: Option<seq<string>> := None)
      returns (r: Result<Record, Exception>)
      modifies http
      ensures http.trace == old(http.trace) + [RunDeploymentRequest(name, parameters, tags)]
      ensures r == RunDeploymentOutcome(name, parameters, tags,
                                        http.respond(|old(http.trace)|, RunDeploymentRequest(name, parameters, tags)))
    {
      var reply := http.Send(RunDeploymentRequest(name, parameters, tags));
      var body :- RaiseForStatus(reply);
      r := CreatedRunRecord(body, name, parameters, tags);
    }

    method GetFlowRun(runId: string) returns (r: Result<Record, Exception>)
      modifies http
      ensures http.trace == old(http.trace) + [FlowRunRequest(runId)]
      ensures r == FlowRunOutcome(http.respond(|old(http.trace)|, FlowRunRequest(runId)))
    {
      var reply := http.Send(FlowRunRequest(runId));
      var body :- RaiseForStatus(reply);
      r := FlowRunRecord(body);
    }

    /** One GET, and a second GET of the same path only for a completed run. */
    method GetFlowRunResult(runId: string) returns (r: Result<Json, Exception>)
      modifies http
      ensures var g := FlowRunRequest(runId);
              var n := |old(http.trace)|;
              && r == FlowRunResultOutcome(http.respond(n, g), http.respond(n + 1, g))
              && http.trace == old(http.trace) + (if IsCompletedRun(http.respond(n, g)) then [g, g] else [g])
    {
      var run :- GetFlowRun(runId);
      if run["state_type"] != JStr("COMPLETED") {
        return Ok(JNull);
      }
      var reply := http.Send(FlowRunRequest(runId));
      var full :- RaiseForStatus(reply);
      r := GetStateField(full, "data", JNull);
    }

    method ListDeployments(limit: int := 10, offset: int := 0) returns (r: Result<seq<Record>, Exception>)
      modifies http
      ensures http.trace == old(http.trace) + [ListDeploymentsRequest(limit, offset)]
      ensures r == ListDeploymentsOutcome(http.respond(|old(http.trace)|, ListDeploymentsRequest(limit, offset)))
    {
      var reply := http.Send(ListDeploymentsRequest(limit, offset));
      var body :- RaiseForStatus(reply);
      r := DeploymentRecords(body);
    }

    /** A POST of the CANCELLED state, then a GET of the run unless the POST failed. */
    method CancelFlowRun(runId: string) returns (r: Result<Record, Exception>)
      modifies http
      ensures var n := |old(http.trace)|;
              var post := http.respond(n, CancelRequest(runId));
              && r == CancelOutcome(post, http.respond(n + 1, FlowRunRequest(runId)))
              && http.trace == old(http.trace) + [CancelRequest(runId)]
                               + (if RaiseForStatus(post).Ok? then [FlowRunRequest(runId)] else [])
    {
      ghost var n := |http.trace|;
      var reply := http.Send(CancelRequest(runId));
      var _ :- RaiseForStatus(reply);
      assert |http.trace| == n + 1;
      r := GetFlowRun(runId);
    }
  }

  // ---------------------------------------------------------------------------
  // The process-wide client (`_prefect_client` and `get_prefect_client`)

  class Registry {
    /** The remote every client of this process talks to. */
    const network: (nat, Request) -> Reply
    /** The module global `_prefect_client`. */
    var cached: Option<Client>
    /** How many clients have been constructed. */
    ghost var constructions: nat

    constructor (network: (nat, Request) -> Reply)
      ensures this.network == network && cached == None && constructions == 0
    {
      this.network := network;
      cached := None;
      constructions := 0;
    }

    /** Constructs a client only when none is cached; otherwise returns the
        cached one and constructs nothing. */
    method GetPrefectClient() returns (c: Client)
      modifies this
      ensures cached == Some(c)
      ensures old(cached).Some? ==> c == old(cached).value && constructions == old(constructions)
      ensures old(cached).None? ==>
        && fresh(c) && fresh(c.http) && constructions == old(constructions) + 1
        && c.apiUrl == Config.PrefectApiUrl && c.http.respond == network && c.http.trace == []
    {
      if cached.None? {
        var client := new Client(None, network);
        cached := Some(client);
        constructions := constructions + 1;
      }
      c := cached.value;
    }
  }

  /** Two lookups in a fresh process give one and the same client. */
  method SingletonSharesInstance(network: (nat, Request) -> Reply) returns (first: Client, second: Client)
    ensures first == second
    ensures first.apiUrl == Config.PrefectApiUrl
  {
    var registry := new Registry(network);
    first := registry.GetPrefectClient();
    second := registry.GetPrefectClient();
    assert registry.constructions == 1;
  }
}
