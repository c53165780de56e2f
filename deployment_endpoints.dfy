/** The deployment listing endpoint (gateway/api/v1/endpoints/deployments.py):
    GET /deployments/?limit=&offset=. */
module DeploymentEndpoints {
  import opened Wrappers
  import opened Json
  import opened Http
  import opened Transport
  import opened PrefectClient
  import opened ExecutionSchemas

  const DefaultLimit: int := 10
  const MaxLimit: int := 100
  const DefaultOffset: int := 0
  const ListPrefix: string := "Failed to list deployments: "

  /** The query parameters after defaulting and the bounds checks
      `1 <= limit <= 100` and `offset >= 0`. */
  function ParseQuery(limit: Option<int>, offset: Option<int>): (r: Result<(int, int), string>)
    ensures r.Ok? <==> 1 <= limit.GetOr(DefaultLimit) <= MaxLimit && 0 <= offset.GetOr(DefaultOffset)
    ensures r.Ok? ==> r.value == (limit.GetOr(DefaultLimit), offset.GetOr(DefaultOffset))
  {
    var l := limit.GetOr(DefaultLimit);
    var o := offset.GetOr(DefaultOffset);
    if l < 1 then Err("limit must be greater than or equal to 1")
    else if l > MaxLimit then Err("limit must be less than or equal to 100")
    else if o < 0 then Err("offset must be greater than or equal to 0")
    else Ok((l, o))
  }

  /** Entry k is the first record `validate` refuses. */
  predicate FirstRefused(validate: Record -> Result<Record, Exception>, records: seq<Record>, k: int) {
    && 0 <= k < |records|
    && validate(records[k]).Err?
    && forall j :: 0 <= j < k ==> validate(records[j]).Ok?
  }

  /** A list comprehension applying a validating constructor to every
      record, in order; the first refusal propagates. */
  function ValidateEach(validate: Record -> Result<Record, Exception>, records: seq<Record>): (r: Result<seq<Record>, Exception>)
    ensures r.Ok? <==> forall k :: 0 <= k < |records| ==> validate(records[k]).Ok?
    ensures r.Ok? ==> |r.value| == |records|
    ensures r.Ok? ==> forall k :: 0 <= k < |records| ==> r.value[k] == validate(records[k]).value
    ensures r.Err? ==> exists k :: FirstRefused(validate, records, k) && r == Err(validate(records[k]).error)
    decreases |records|
  {
    if |records| == 0 then Ok([])
    else
      var head := validate(records[0]);
      var tail := ValidateEach(validate, records[1..]);
      assert forall k :: 1 <= k < |records| ==> records[1..][k - 1] == records[k];
      if head.Err? then
        assert FirstRefused(validate, records, 0);
        Err(head.error)
      else if tail.Err? then
        var k :| FirstRefused(validate, records[1..], k) && tail == Err(validate(records[1..][k]).error);
        assert records[1..][k] == records[k + 1];
        assert FirstRefused(validate, records, k + 1);
        Err(tail.error)
      else Ok([head.value] + tail.value)
  }

  /** `[DeploymentResponse(**d) for d in deployments]`. */
  function DeploymentsPage(records: seq<Record>): (r: Result<seq<Record>, Exception>)
    ensures r.Ok? <==> forall k :: 0 <= k < |records| ==> DeploymentResponse(records[k]).Ok?
    ensures r.Ok? ==> |r.value| == |records|
    ensures r.Ok? ==> forall k :: 0 <= k < |records| ==> r.value[k] == DeploymentResponse(records[k]).value
    ensures r.Err? ==> exists k :: FirstRefused(DeploymentResponse, records, k) && r == Err(DeploymentResponse(records[k]).error)
    ensures r.Err? ==> r.error.kind == ValidationError
  {
    ValidateEach(DeploymentResponse, records)
  }

  /** 200 with the page, its size as `total` and the query echoed, or 500
      whatever failed (the client or a deployment's validation). */
  function ListResponse(limit: int, offset: int, outcome: Result<seq<Record>, Exception>): (resp: HttpResponse)
    ensures resp.status == Ok200 <==> outcome.Ok? && DeploymentsPage(outcome.value).Ok?
    ensures resp.status != Ok200 ==> resp.status == InternalError500
    ensures outcome.Err? ==> resp == Fail(InternalError500, ListPrefix + outcome.error.message)
    ensures outcome.Ok? && DeploymentsPage(outcome.value).Err? ==>
      resp == Fail(InternalError500, ListPrefix + DeploymentsPage(outcome.value).error.message)
    ensures resp.status == Ok200 ==>
      var page := DeploymentsPage(outcome.value).value;
      && resp.headers == map[]
      && resp.body == JObj(DeploymentListResponse(page, |page|, limit, offset))
      && resp.body.fields["total"] == JInt(|outcome.value|)
  {
    match outcome
    case Err(e) => Fail(InternalError500, ListPrefix + e.message)
    case Ok(deployments) =>
      match DeploymentsPage(deployments)
      case Err(e) => Fail(InternalError500, ListPrefix + e.message)
      case Ok(page) => Success(Ok200, JObj(DeploymentListResponse(page, |page|, limit, offset)))
  }

  /** The record the client builds from a well-formed remote deployment
      passes `DeploymentResponse`. */
  lemma WellFormedRecordValidates(d: Json)
    requires WellFormedDeployment(d)
    ensures DeploymentResponse(DeploymentRecord(d.fields)).Ok?
  {
    var r := DeploymentRecord(d.fields);
    assert r["id"] == d.fields["id"] && r["name"] == d.fields["name"] && r["flow_name"] == d.fields["flow_name"];
  }

  /** A page of well-formed remote deployments lists successfully, and
      `total` counts every deployment the remote returned. */
  lemma WellFormedRemotePageLists(items: seq<Json>)
    requires forall k :: 0 <= k < |items| ==> WellFormedDeployment(items[k])
    ensures DeploymentItems(items).Ok?
    ensures DeploymentsPage(DeploymentItems(items).value).Ok?
    ensures |DeploymentsPage(DeploymentItems(items).value).value| == |items|
  {
    assert AllObjects(items);
    var records := DeploymentItems(items).value;
    forall k | 0 <= k < |records|
      ensures DeploymentResponse(records[k]).Ok?
    {
      WellFormedRecordValidates(items[k]);
    }
  }

  /** A remote deployment whose fields have the types the response declares. */
  predicate WellFormedDeployment(d: Json) {
    && d.JObj?
    && "id" in d.fields && d.fields["id"].JStr?
    && "name" in d.fields && d.fields["name"].JStr?
    && "flow_name" in d.fields && d.fields["flow_name"].JStr?
    && ("description" in d.fields ==> d.fields["description"].JNull? || d.fields["description"].JStr?)
    && ("tags" in d.fields ==> d.fields["tags"].JArr? && AllStrings(d.fields["tags"].items))
    && ("parameters" in d.fields ==> d.fields["parameters"].JObj?)
  }

  /** GET /deployments/: authentication (401), then the query (422), then one
      call to the client. */
  method ListDeployments(limit: Option<int>, offset: Option<int>, auth: Result<string, HttpException>, client: Client)
    returns (resp: HttpResponse)
    modifies client.http
    ensures auth.Err? ==> resp == ErrorResponse(auth.error) && client.http.trace == old(client.http.trace)
    ensures auth.Ok? && ParseQuery(limit, offset).Err? ==>
      resp == Fail(Unprocessable422, ParseQuery(limit, offset).error) && client.http.trace == old(client.http.trace)
    ensures auth.Ok? && ParseQuery(limit, offset).Ok? ==>
      var (l, o) := ParseQuery(limit, offset).value;
      && client.http.trace == old(client.http.trace) + [ListDeploymentsRequest(l, o)]
      && resp == ListResponse(l, o, ListDeploymentsOutcome(client.http.respond(|old(client.http.trace)|, ListDeploymentsRequest(l, o))))
  {
    if auth.Err? {
      return ErrorResponse(auth.error);
    }
    var query := ParseQuery(limit, offset);
    if query.Err? {
      return Fail(Unprocessable422, query.error);
    }
    var (l, o) := query.value;
    var deployments := client.ListDeployments(l, o);
    resp := ListResponse(l, o, deployments);
  }
}
