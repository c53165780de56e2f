/** The response bodies of the run and deployment endpoints
    (gateway/schemas/execution.py). */
module ExecutionSchemas {
  import opened Wrappers
  import opened Json
  import opened Pydantic

  // ---------------------------------------------------------------------------

  const FlowRunSchema: Schema := map[
    "id" := Required(Str),
    "flow_name" := Required(Str),
    "state" := Required(Str),
    "state_type" := Required(Str),
    "start_time" := Defaulted(OptStr, JNull),
    "end_time" := Defaulted(OptStr, JNull),
    "total_run_time" := Defaulted(OptFloat, JNull),
    "parameters" := Defaulted(Dict, JObj(map[]))
  ]

  lemma FlowRunValid(m: Record)
    ensures Valid(FlowRunSchema, m) <==>
      && StrIn(m, "id") && StrIn(m, "flow_name") && StrIn(m, "state") && StrIn(m, "state_type")
      && OptionalIn(m, "start_time", OptStr) && OptionalIn(m, "end_time", OptStr)
      && OptionalIn(m, "total_run_time", OptFloat) && OptionalIn(m, "parameters", Dict)
  {
    var s := FlowRunSchema;
    if Valid(s, m) {
      assert FieldOk(s["id"], "id", m) && FieldOk(s["flow_name"], "flow_name", m);
      assert FieldOk(s["state"], "state", m) && FieldOk(s["state_type"], "state_type", m);
      assert FieldOk(s["start_time"], "start_time", m) && FieldOk(s["end_time"], "end_time", m);
      assert FieldOk(s["total_run_time"], "total_run_time", m) && FieldOk(s["parameters"], "parameters", m);
    }
  }

  /** `FlowRunResponse(**result)`: string id, flow_name, state and state_type;
      start_time, end_time and total_run_time default to null, parameters to {}. */
  function FlowRunResponse(m: Record): (r: Result<Record, Exception>)
    ensures r.Ok? <==>
      && StrIn(m, "id") && StrIn(m, "flow_name") && StrIn(m, "state") && StrIn(m, "state_type")
      && OptionalIn(m, "start_time", OptStr) && OptionalIn(m, "end_time", OptStr)
      && OptionalIn(m, "total_run_time", OptFloat) && OptionalIn(m, "parameters", Dict)
    ensures r.Err? ==> r.error.kind == ValidationError
    ensures r.Ok? ==> r.value.Keys == FlowRunSchema.Keys
    ensures r.Ok? ==> r.value["id"] == m["id"] && r.value["flow_name"] == m["flow_name"]
    ensures r.Ok? ==> r.value["state"] == m["state"] && r.value["state_type"] == m["state_type"]
    ensures r.Ok? ==> r.value["start_time"] == Lookup(m, "start_time", JNull)
    ensures r.Ok? ==> r.value["end_time"] == Lookup(m, "end_time", JNull)
    ensures r.Ok? ==> r.value["total_run_time"] == Coerce(OptFloat, Lookup(m, "total_run_time", JNull))
    ensures r.Ok? ==> r.value["parameters"] == Lookup(m, "parameters", JObj(map[]))
  {
    FlowRunValid(m);
    Validate("FlowRunResponse", FlowRunSchema, m)
  }

  // ---------------------------------------------------------------------------

  const FlowRunResultSchema: Schema := map[
    "run_id" := Required(Str),
    "state" := Required(Str),
    "result" := Defaulted(AnyValue, JNull),
    "error" := Defaulted(OptStr, JNull)
  ]

  lemma FlowRunResultValid(m: Record)
    ensures Valid(FlowRunResultSchema, m) <==>
      StrIn(m, "run_id") && StrIn(m, "state") && OptionalIn(m, "error", OptStr)
  {
    var s := FlowRunResultSchema;
    if Valid(s, m) {
      assert FieldOk(s["run_id"], "run_id", m) && FieldOk(s["state"], "state", m);
      assert FieldOk(s["error"], "error", m);
    }
  }

  /** `FlowRunResultResponse(...)`: string run_id and state; result (any
      value) and error (a string) default to null. */
  function FlowRunResultResponse(m: Record): (r: Result<Record, Exception>)
    ensures r.Ok? <==> StrIn(m, "run_id") && StrIn(m, "state") && OptionalIn(m, "error", OptStr)
    ensures r.Err? ==> r.error.kind == ValidationError
    ensures r.Ok? ==> r.value.Keys == {"run_id", "state", "result", "error"}
    ensures r.Ok? ==> r.value["run_id"] == m["run_id"] && r.value["state"] == m["state"]
    ensures r.Ok? ==> r.value["result"] == Lookup(m, "result", JNull) && r.value["error"] == Lookup(m, "error", JNull)
  {
    FlowRunResultValid(m);
    Validate("FlowRunResultResponse", FlowRunResultSchema, m)
  }

  // ---------------------------------------------------------------------------

  const DeploymentSchema: Schema := map[
    "id" := Required(Str),
    "name" := Required(Str),
    "flow_name" := Required(Str),
    "description" := Defaulted(OptStr, JNull),
    "tags" := Defaulted(StrList, JArr([])),
    "parameters" := Defaulted(Dict, JObj(map[]))
  ]

  lemma DeploymentValid(m: Record)
    ensures Valid(DeploymentSchema, m) <==>
      && StrIn(m, "id") && StrIn(m, "name") && StrIn(m, "flow_name")
      && OptionalIn(m, "description", OptStr) && OptionalIn(m, "tags", StrList) && OptionalIn(m, "parameters", Dict)
  {
    var s := DeploymentSchema;
    if Valid(s, m) {
      assert FieldOk(s["id"], "id", m) && FieldOk(s["name"], "name", m) && FieldOk(s["flow_name"], "flow_name", m);
      assert FieldOk(s["description"], "description", m) && FieldOk(s["tags"], "tags", m);
      assert FieldOk(s["parameters"], "parameters", m);
    }
  }

  /** `DeploymentResponse(**d)`: string id, name and flow_name; description
      defaults to null, tags to [] and parameters to {}. */
  function DeploymentResponse(m: Record): (r: Result<Record, Exception>)
    ensures r.Ok? <==>
      && StrIn(m, "id") && StrIn(m, "name") && StrIn(m, "flow_name")
      && OptionalIn(m, "description", OptStr) && OptionalIn(m, "tags", StrList) && OptionalIn(m, "parameters", Dict)
    ensures r.Err? ==> r.error.kind == ValidationError
    ensures r.Ok? ==> r.value.Keys == DeploymentSchema.Keys
    ensures r.Ok? ==> r.value["id"] == m["id"] && r.value["name"] == m["name"] && r.value["flow_name"] == m["flow_name"]
    ensures r.Ok? ==> r.value["description"] == Lookup(m, "description", JNull)
    ensures r.Ok? ==> r.value["tags"] == Lookup(m, "tags", JArr([]))
    ensures r.Ok? ==> r.value["parameters"] == Lookup(m, "parameters", JObj(map[]))
  {
    DeploymentValid(m);
    Validate("DeploymentResponse", DeploymentSchema, m)
  }

  // ---------------------------------------------------------------------------

  /** `DeploymentListResponse(deployments, total, limit, offset)`: all four
      fields are required and are taken as given; its fields are already of
      the declared types, so it never fails. */
  function DeploymentListResponse(deployments: seq<Record>, total: int, limit: int, offset: int): (r: Record)
    ensures r.Keys == {"deployments", "total", "limit", "offset"}
    ensures r["deployments"].JArr? && |r["deployments"].items| == |deployments|
    ensures forall k :: 0 <= k < |deployments| ==> r["deployments"].items[k] == JObj(deployments[k])
    ensures r["total"] == JInt(total) && r["limit"] == JInt(limit) && r["offset"] == JInt(offset)
  {
    map["deployments" := JArr(seq(|deployments|, k requires 0 <= k < |deployments| => JObj(deployments[k]))),
        "total" := JInt(total), "limit" := JInt(limit), "offset" := JInt(offset)]
  }
}
