/** The request and response bodies of the flow-execution endpoints
    (gateway/schemas/flow.py). */
module FlowSchemas {
  import opened Wrappers
  import opened Json
  import opened Pydantic

  /** A validated `FlowExecuteRequest`. */
  datatype ExecuteRequest = ExecuteRequest(parameters: Record, tags: Option<seq<string>>)

  /** `parameters` is required and must be a dict. */
  predicate ParametersValid(body: Record) {
    "parameters" in body && body["parameters"].JObj?
  }

  /** `tags` is absent or null, or a list whose every element is a string. */
  predicate TagsValid(body: Record) {
    "tags" in body ==> body["tags"].JNull? || (body["tags"].JArr? && AllStrings(body["tags"].items))
  }

  /** Validating a request body: the validators hand back the values they
      were given, and absent or null tags become None. Keys other than
      `parameters` and `tags` are ignored. */
  function ParseExecuteRequest(body: Json): (r: Result<ExecuteRequest, Exception>)
    ensures r.Ok? <==> body.JObj? && ParametersValid(body.fields) && TagsValid(body.fields)
    ensures r.Err? ==> r.error.kind == ValidationError
    ensures r.Ok? ==> JObj(r.value.parameters) == body.fields["parameters"]
    ensures r.Ok? ==> (r.value.tags.None? <==> ("tags" !in body.fields || body.fields["tags"].JNull?))
    ensures r.Ok? && r.value.tags.Some? ==> body.fields["tags"] == StrArray(r.value.tags.value)
  {
    if !body.JObj? then Err(Exception(ValidationError, "FlowExecuteRequest: Input should be a valid dictionary"))
    else if "parameters" !in body.fields then Err(Exception(ValidationError, "FlowExecuteRequest: parameters: Field required"))
    else if !body.fields["parameters"].JObj? then Err(Exception(ValidationError, "parameters must be a dictionary"))
    else if "tags" !in body.fields || body.fields["tags"].JNull? then
      Ok(ExecuteRequest(body.fields["parameters"].fields, None))
    else if !body.fields["tags"].JArr? then Err(Exception(ValidationError, "tags must be a list"))
    else if !AllStrings(body.fields["tags"].items) then Err(Exception(ValidationError, "all tags must be strings"))
    else
      var tags := Strings(body.fields["tags"].items);
      assert body.fields["tags"] == StrArray(tags);
      Ok(ExecuteRequest(body.fields["parameters"].fields, Some(tags)))
  }

  /** The JSON body a caller sends for a request. */
  function RequestBody(req: ExecuteRequest): Json {
    match req.tags
    case None => JObj(map["parameters" := JObj(req.parameters)])
    case Some(tags) => JObj(map["parameters" := JObj(req.parameters), "tags" := StrArray(tags)])
  }

  /** Every request survives validation unchanged. */
  lemma RequestRoundTrip(req: ExecuteRequest)
    ensures ParseExecuteRequest(RequestBody(req)) == Ok(req)
  {
    var r := ParseExecuteRequest(RequestBody(req));
    if req.tags.Some? {
      var t := req.tags.value;
      assert r.value.tags.Some?;
      var u := r.value.tags.value;
      assert StrArray(u) == StrArray(t);
      assert |u| == |t|;
      assert forall k :: 0 <= k < |t| ==> StrArray(u).items[k] == JStr(u[k]) && StrArray(t).items[k] == JStr(t[k]);
      assert u == t;
    }
  }

  const ExecuteResponseSchema: Schema := map[
    "run_id" := Required(Str),
    "flow_name" := Required(Str),
    "deployment_name" := Required(Str),
    "state" := Required(Str),
    "state_type" := Required(Str),
    "parameters" := Required(Dict),
    "tags" := Defaulted(StrList, JArr([])),
    "created" := Required(Str)
  ]

  /** `FlowExecuteResponse(**result)`: six required strings, a required dict
      of parameters, and tags defaulting to []. */
  function FlowExecuteResponse(m: Record): (r: Result<Record, Exception>)
    ensures r.Ok? <==>
      && StrIn(m, "run_id") && StrIn(m, "flow_name") && StrIn(m, "deployment_name")
      && StrIn(m, "state") && StrIn(m, "state_type") && StrIn(m, "created")
      && "parameters" in m && m["parameters"].JObj?
      && ("tags" in m ==> m["tags"].JArr? && AllStrings(m["tags"].items))
    ensures r.Err? ==> r.error.kind == ValidationError
    ensures r.Ok? ==> r.value.Keys == ExecuteResponseSchema.Keys
    ensures r.Ok? ==> r.value["run_id"] == m["run_id"] && r.value["flow_name"] == m["flow_name"]
    ensures r.Ok? ==> r.value["deployment_name"] == m["deployment_name"] && r.value["created"] == m["created"]
    ensures r.Ok? ==> r.value["state"] == m["state"] && r.value["state_type"] == m["state_type"]
    ensures r.Ok? ==> r.value["parameters"] == m["parameters"]
    ensures r.Ok? ==> r.value["tags"] == Lookup(m, "tags", JArr([]))
  {
    ExecuteResponseValid(m);
    Validate("FlowExecuteResponse", ExecuteResponseSchema, m)
  }

  /** The schema's fields, one by one. */
  lemma ExecuteResponseValid(m: Record)
    ensures Valid(ExecuteResponseSchema, m) <==>
      && StrIn(m, "run_id") && StrIn(m, "flow_name") && StrIn(m, "deployment_name")
      && StrIn(m, "state") && StrIn(m, "state_type") && StrIn(m, "created")
      && "parameters" in m && m["parameters"].JObj?
      && ("tags" in m ==> m["tags"].JArr? && AllStrings(m["tags"].items))
  {
    var s := ExecuteResponseSchema;
    if Valid(s, m) {
      assert FieldOk(s["run_id"], "run_id", m) && FieldOk(s["flow_name"], "flow_name", m);
      assert FieldOk(s["deployment_name"], "deployment_name", m) && FieldOk(s["state"], "state", m);
      assert FieldOk(s["state_type"], "state_type", m) && FieldOk(s["created"], "created", m);
      assert FieldOk(s["parameters"], "parameters", m) && FieldOk(s["tags"], "tags", m);
    }
  }
}
