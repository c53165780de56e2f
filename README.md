# Authenticated orchestration gateway — a Dafny model

This project models the HTTP gateway that sits in front of a Prefect
orchestrator. It covers:

- **Token service** (`security.dfy`). Issuing HS256 bearer tokens with a
  subject, an expiry and optional extra claims (service tokens carry
  `"type": "service"`). Verifying them the way the JWT library does:
  algorithm, then key, then `iat`, `exp` and `sub`. Mapping failures to 401
  responses, an expired token being told apart from every other failure.
  Extracting the subject.
- **Orchestrator client** (`prefect_client.dfy`, `transport.dfy`). Each
  operation is a `Client` method. It sends requests through an `HttpClient`
  whose `trace` records every request in order. The method is proved equal to
  a pure "outcome" function of the remote's replies. The outcome functions do
  the work of the client: splitting deployment names, `raise_for_status`, and
  normalising the remote JSON with the same `.get` defaults. The lazily built
  process-wide client (`_prefect_client`) is the class `Registry`.
- **Schemas** (`pydantic.dfy`, `flow_schemas.dfy`, `execution_schemas.dfy`).
  Each pydantic model is a map from field name to a type and an optional
  default. `Validate` states exactly which inputs a model accepts and which
  record it produces.
- **Endpoints** (`flow_endpoints.dfy`, `run_endpoints.dfy`,
  `deployment_endpoints.dfy`). Each handler is a method. Its response is a
  function of the authentication result, the request and the client's
  outcome, and its effect on the client's trace is stated exactly.
  Authentication (401) comes before body or query validation (422), and both
  come before any remote call.
- **Back-end record** (`flow_models.dfy`). The `FlowExecution` defaults, its
  `s3://` URLs and the empty-path guard of the download link.

Points where the code's behaviour is easy to misread:

- The `"user:<subject>"` tag is appended to the forwarded tags by the two
  execute endpoints only; no other endpoint adds tags.
- `run_deployment` returns its run id under `"id"`, but `FlowExecuteResponse`
  requires `"run_id"`. So with the real client both execute endpoints always
  answer 500 (`FlowEndpoints.RealClientExecuteIs500`). A 202 comes only from a
  client that supplies `"run_id"` itself.
- There is no shutdown for the shared client and no initialisation lock.
  `get_prefect_client` is a plain check-then-set.
- The result endpoint's client call does fetch the run a second time, after
  the endpoint's own fetch. The model records all three GETs.

Python behaviour the model writes out:

- Truthiness: a zero `timedelta`, an empty `api_url`, and an empty subject
  all count as false.
- `dict.get` on a non-dict raises `AttributeError`.
- Iterating a dict or a string in `list_deployments`: an empty one yields
  nothing; a non-empty one yields strings, whose `.get` fails.
- `str()` inside f-strings.

Clock readings, the signing secret, the data-lake bucket and the storage
signer are parameters. The remote orchestrator is an oracle
`respond(n, request)`: its reply to a client's n-th request.

## Model

| member | source | states |
|---|---|---|
| Security.Decode | gateway/core/security.py:88-92 | decoding succeeds iff the token is well formed, uses an allowed algorithm and the verifier's key, its `iat` is an integer not in the future, it is unexpired and any `sub` is a string; it fails as expired iff it is authentic with sound `iat` and integer `exp` and `exp <= now` |
| Security.ExpiryFor | gateway/core/security.py:33-36 | a non-zero delta (negative included) is added to the clock; an absent or zero delta gives the 10080-minute default |
| Security.AccessClaims | gateway/core/security.py:38-45 | the claim set holds exactly sub, exp, iat and the extra keys; extras override, and otherwise sub is the subject, exp the expiry and iat the second clock reading |
| Security.CreateAccessToken | gateway/core/security.py:17-53 | the token is signed with the secret under HS256 and carries `AccessClaims` |
| Security.CreateServiceToken | gateway/core/security.py:56-69 | a service token has exactly sub, exp, iat and `type = "service"`, with the default lifetime |
| Security.VerifyToken | gateway/core/security.py:72-106 | success iff decoding succeeds, returning the claims; every failure is a 401 with the Bearer challenge, whose detail is "Token has expired" exactly when decoding reports expiry and "Could not validate credentials" otherwise |
| Security.GetCurrentUser | gateway/core/security.py:109-127 | succeeds iff `sub` is present and truthy, returning it; otherwise a 401 "Invalid token: no subject found" without the challenge header |
| Security.Authenticate | gateway/core/security.py:72-127 | verification then subject extraction: succeeds iff both do; a verification failure is returned as it is (401 with the Bearer challenge), otherwise a missing subject gives its own 401 without the header; a success is the token's non-empty string subject |
| Security.IssuedTokenVerifies | gateway/core/security.py:17-106 | round trip: a token verified between issue and expiry yields the issued claims, holding the subject and all extra claims |
| Security.IssuedTokenAuthenticates | gateway/core/security.py:109-127 | round trip: an issued unexpired token authenticates as its subject |
| Security.ServiceTokenAuthenticates | gateway/core/security.py:56-69 | a service token authenticates as the service and carries `type = "service"` |
| Security.IssuedTokenExpires | gateway/core/security.py:95-100 | once the clock reaches the expiry, the issued token is refused with "Token has expired" |
| Security.NegativeDeltaIsExpired | gateway/core/security.py:33-34 | a negative delta gives a token that is already expired when issued |
| Security.ZeroDeltaIsDefault | gateway/core/security.py:33-36 | a zero delta yields the same token as no delta, with the default lifetime |
| Security.ForeignTokenIsInvalid | gateway/core/security.py:101-106 | a token with a foreign key or algorithm, or a malformed one, is refused as invalid, never as expired |
| Strings.FirstSlash | gateway/core/prefect_client.py:50 | the index of the first '/', equal to the length iff there is none |
| Strings.SplitFirstSlash | gateway/core/prefect_client.py:51 | `split("/", 1)`: the parts rejoin to the input and the head has no '/' |
| Strings.SplitJoin | gateway/core/prefect_client.py:50-51 | splitting the join of a slash-free head and any tail gives back head and tail |
| PrefectClient.ParseDeploymentName | gateway/core/prefect_client.py:50-54 | a name with '/' splits at the first one, the suffix keeping later slashes; a name without one is the flow with suffix "default" |
| PrefectClient.CreateFlowRunPath | gateway/core/prefect_client.py:50-63 | the create-run path holds a "flow/suffix" name as it stands and appends "/default" to a bare flow name |
| PrefectClient.RunDeploymentRequest | gateway/core/prefect_client.py:56-65 | a POST to the create-run path whose body has exactly `parameters` (or {}) and `tags` (or []) |
| PrefectClient.FlowRunRequest | gateway/core/prefect_client.py:91 | a GET of `/flow_runs/<id>` |
| PrefectClient.ListDeploymentsRequest | gateway/core/prefect_client.py:148-154 | a POST to `/deployments/filter` whose body has exactly limit and offset, unchanged |
| PrefectClient.CancelRequest | gateway/core/prefect_client.py:181-188 | a POST to `/flow_runs/<id>/set_state` with exactly type CANCELLED, name Cancelled and the fixed message |
| PrefectClient.ApiUrlFor | gateway/core/prefect_client.py:22 | a truthy given URL is used, otherwise the configured default |
| PrefectClient.ParseJoinedName | gateway/core/prefect_client.py:50-54 | parsing inverts joining a slash-free flow with any suffix |
| Transport.RaiseForStatus | gateway/core/prefect_client.py:66-68 | the body passes iff the reply is a 2xx response; a transport failure and an error status raise distinct kinds |
| Transport.HttpClient.Send | gateway/core/prefect_client.py:62-65 | the request is appended to the trace and the reply is the remote's answer to that call index |
| PrefectClient.GetStateField | gateway/core/prefect_client.py:74-75 | `x.get("state", {}).get(f, d)` succeeds iff x is a dict whose state, if any, is a dict, and then reads the nested field with its default |
| PrefectClient.CreatedRunRecord | gateway/core/prefect_client.py:68-79 | the created-run record has exactly its eight keys: remote id and created, parsed flow name, the name as given, state and state_type defaulting to "SCHEDULED", and the caller's parameters and tags or their empty defaults |
| PrefectClient.FlowRunRecord | gateway/core/prefect_client.py:94-105 | the run record has exactly its eight keys: copied fields null when absent, nested state name and type without default, parameters defaulting to {} |
| PrefectClient.DeploymentRecord | gateway/core/prefect_client.py:160-167 | a deployment record has exactly id, name, flow_name, description, tags (default []) and parameters (default {}) |
| PrefectClient.DeploymentItems | gateway/core/prefect_client.py:159-169 | the comprehension succeeds iff every entry is a dict, keeping length and order, entry k becoming `DeploymentRecord` of entry k |
| PrefectClient.DeploymentRecords | gateway/core/prefect_client.py:157-169 | an array is walked entry by entry; an empty dict or string yields []; a non-empty one raises AttributeError; anything else raises TypeError |
| PrefectClient.RunDeploymentOutcome | gateway/core/prefect_client.py:62-79 | an error status propagates unchanged; otherwise the result is the created-run record of the body |
| PrefectClient.FlowRunOutcome | gateway/core/prefect_client.py:91-105 | an error status propagates unchanged; otherwise the result is the run record of the body |
| PrefectClient.FlowRunResultOutcome | gateway/core/prefect_client.py:117-131 | a failed first fetch propagates; a run that is not COMPLETED gives null; for a completed run the second fetch's error propagates, or its `state.data` (null when absent) is returned |
| PrefectClient.ResultIgnoresSecondReply | gateway/core/prefect_client.py:119-122 | unless the run is completed the second reply cannot affect the result |
| PrefectClient.ListDeploymentsOutcome | gateway/core/prefect_client.py:148-169 | an error status propagates; otherwise the deployment records of the body |
| PrefectClient.CancelOutcome | gateway/core/prefect_client.py:181-191 | a failed state change propagates; otherwise the result is the re-fetched run |
| PrefectClient.Client.constructor | gateway/core/prefect_client.py:15-23 | the API URL is the given one when truthy, else the configured default; the transport is new, uses that base URL and has sent nothing |
| PrefectClient.Client.RunDeployment | gateway/core/prefect_client.py:29-79 | one POST to `/deployments/name/<flow>/<suffix>/create_flow_run` with `parameters or {}` and `tags or []`; the result is `RunDeploymentOutcome` of its reply |
| PrefectClient.Client.GetFlowRun | gateway/core/prefect_client.py:81-105 | one GET of `/flow_runs/<id>`; the result is `FlowRunOutcome` of its reply |
| PrefectClient.Client.GetFlowRunResult | gateway/core/prefect_client.py:107-131 | one GET, then a second GET of the same path exactly when the first showed a completed run; the result is `FlowRunResultOutcome` of the two replies |
| PrefectClient.Client.ListDeployments | gateway/core/prefect_client.py:133-169 | one POST of `{limit, offset}` to `/deployments/filter`; the result is `ListDeploymentsOutcome` of its reply |
| PrefectClient.Client.CancelFlowRun | gateway/core/prefect_client.py:171-191 | a POST of the CANCELLED state, then a GET of the run exactly when the POST succeeded; the result is `CancelOutcome` of the replies |
| PrefectClient.Registry.constructor | gateway/core/prefect_client.py:195 | a process starts with no cached client |
| PrefectClient.Registry.GetPrefectClient | gateway/core/prefect_client.py:198-210 | with a cached client it is returned and nothing is constructed; otherwise exactly one new default-configured client is constructed, cached and returned |
| PrefectClient.SingletonSharesInstance | gateway/core/prefect_client.py:194-210 | two lookups return the same client, configured with the default API URL |
| Pydantic.Validate | gateway/schemas/execution.py:8-47 | a model accepts its input iff every declared field is present with an accepted value or absent with a default; the instance holds exactly the declared fields, given values coerced, absent ones defaulted |
| Pydantic.MissingRequiredFails | gateway/schemas/execution.py:11-14 | a missing required field fails validation |
| FlowSchemas.ParseExecuteRequest | gateway/schemas/flow.py:7-33 | a body is accepted iff it is an object whose parameters is a dict and whose tags is absent, null or a list of strings; the values come through unchanged, absent or null tags becoming none |
| FlowSchemas.RequestRoundTrip | gateway/schemas/flow.py:7-33 | every request survives serialisation and validation unchanged |
| FlowSchemas.ExecuteResponseValid | gateway/schemas/flow.py:38-45 | the execute-response schema holds iff six required strings, a dict of parameters and optional string-list tags are present |
| FlowSchemas.FlowExecuteResponse | gateway/schemas/flow.py:35-45 | validation succeeds iff run_id, flow_name, deployment_name, state, state_type, created are strings, parameters a dict and tags absent or a string list; values are kept, tags default to [] |
| ExecutionSchemas.FlowRunValid | gateway/schemas/execution.py:11-18 | the run schema holds iff its four required strings and optional typed fields are as declared |
| ExecutionSchemas.FlowRunResponse | gateway/schemas/execution.py:8-18 | accepted iff id, flow_name, state, state_type are strings and the optional fields have their types; the timing fields default to null, an integer runtime becomes a float, parameters default to {} |
| ExecutionSchemas.FlowRunResultValid | gateway/schemas/execution.py:24-27 | the result schema holds iff run_id and state are strings and error is absent, null or a string |
| ExecutionSchemas.FlowRunResultResponse | gateway/schemas/execution.py:21-27 | accepted iff run_id and state are strings and error is optional text; result and error default to null |
| ExecutionSchemas.DeploymentValid | gateway/schemas/execution.py:33-38 | the deployment schema holds iff its three required strings and optional typed fields are as declared |
| ExecutionSchemas.DeploymentResponse | gateway/schemas/execution.py:30-38 | accepted iff id, name, flow_name are strings and description, tags, parameters have their types; description defaults to null, tags to [], parameters to {} |
| ExecutionSchemas.DeploymentListResponse | gateway/schemas/execution.py:41-47 | the list response holds every validated deployment in order with total, limit and offset as given |
| FlowEndpoints.DeploymentNamesParse | gateway/api/v1/endpoints/flows.py:33-37 | the names the endpoints build parse back into the flow name and "production", or into the two path segments |
| FlowEndpoints.ForwardedTags | gateway/api/v1/endpoints/flows.py:29-30 | the forwarded tags are the caller's, in order, or none, followed by exactly one "user:<subject>" |
| FlowEndpoints.Admit | gateway/api/v1/endpoints/flows.py:20-25 | a failed authentication is its own 401 response whatever the body; then a body that does not validate is 422; the handler runs iff both pass |
| FlowEndpoints.ExecuteResponse | gateway/api/v1/endpoints/flows.py:39-45 | 202 with the validated response iff the client succeeded and its record validates; otherwise 500 whose detail is the prefix followed by the client's error or the schema's error |
| FlowEndpoints.RealClientExecuteIs500 | gateway/api/v1/endpoints/flows.py:39-45 | with the real client's record, which names the run id "id", the execute response is always 500 |
| FlowEndpoints.ExecuteFlow | gateway/api/v1/endpoints/flows.py:20-45 | a refused request sends nothing; an admitted one sends exactly one create-run request for `<flow>/production` with the caller's parameters and the forwarded tags, and answers `ExecuteResponse` of its outcome |
| FlowEndpoints.ExecuteDeployment | gateway/api/v1/endpoints/flows.py:54-78 | as `ExecuteFlow`, for the deployment `<flow>/<deployment>` |
| RunEndpoints.RunResponse | gateway/api/v1/endpoints/runs.py:24-31 | 200 with the validated run iff the client succeeded and the record validates; otherwise 404 "Flow run not found: " followed by the client's error or the schema's error |
| RunEndpoints.BranchOf | gateway/api/v1/endpoints/runs.py:51-54 | the result is fetched iff state_type is COMPLETED and a failure is reported iff it is FAILED |
| RunEndpoints.ReportedState | gateway/api/v1/endpoints/runs.py:58 | the run's "state" when the key is present, otherwise "UNKNOWN" |
| RunEndpoints.FailureMessage | gateway/api/v1/endpoints/runs.py:54 | "Flow run failed: " followed by `str()` of the state, "None" when it is absent |
| RunEndpoints.ResultFields | gateway/api/v1/endpoints/runs.py:48-61 | the four keyword arguments of `FlowRunResultResponse`: the path id, the state or "UNKNOWN", the result data, and "Flow run failed: <state>" only for a failed run |
| RunEndpoints.RunResultResponse | gateway/api/v1/endpoints/runs.py:45-66 | 200 iff the status fetch succeeded, a completed run's result fetch succeeded and the reported state is a string; the body echoes the path id, the state (default "UNKNOWN"), the result only for a completed run and "Flow run failed: <state>" only for a failed one; otherwise 404 with "Flow run not found: " followed by the error of the status fetch, of the result fetch or of the response schema |
| RunEndpoints.ResultFetchOnlyWhenCompleted | gateway/api/v1/endpoints/runs.py:51-52 | unless the run is completed the result fetch cannot affect the response |
| RunEndpoints.RealClientStateIsNeverUnknown | gateway/api/v1/endpoints/runs.py:58 | the real client always reports "state", so "UNKNOWN" never appears; a run whose state has no name is answered with 404 |
| RunEndpoints.CancelResponse | gateway/api/v1/endpoints/runs.py:79-90 | on success 200 with the confirmation message, the path id and the re-fetched state; on failure 500 "Failed to cancel flow run: " with the error |
| RunEndpoints.GetRun | gateway/api/v1/endpoints/runs.py:18-31 | unauthenticated: its 401, nothing sent; otherwise one GET of the run and `RunResponse` of its outcome |
| RunEndpoints.GetRunResult | gateway/api/v1/endpoints/runs.py:39-66 | unauthenticated: nothing sent; otherwise one GET, and for a completed run the client's one or two further GETs of the same path, answering `RunResultResponse` of the outcomes |
| RunEndpoints.CancelRun | gateway/api/v1/endpoints/runs.py:73-90 | unauthenticated: nothing sent; otherwise the cancel POST, the re-fetch only when it succeeded, and `CancelResponse` of the outcome |
| DeploymentEndpoints.ParseQuery | gateway/api/v1/endpoints/deployments.py:19-20 | the query passes iff the limit (default 10) is within 1..100 and the offset (default 0) is not negative, yielding the defaulted values |
| DeploymentEndpoints.ValidateEach | gateway/api/v1/endpoints/deployments.py:31-33 | applying a validator to every record succeeds iff each one validates, keeping length and order; a failure is the error of the first refused record, every earlier one having validated |
| DeploymentEndpoints.DeploymentsPage | gateway/api/v1/endpoints/deployments.py:31-33 | the page validates iff every deployment does, keeping length and order; a failure is the first refused deployment's validation error |
| DeploymentEndpoints.ListResponse | gateway/api/v1/endpoints/deployments.py:31-45 | 200 iff the client succeeded and every deployment validates, with no extra headers, total equal to the number of deployments and the query echoed; otherwise 500 "Failed to list deployments: " followed by the client's error or the first validation error |
| DeploymentEndpoints.WellFormedRecordValidates | gateway/api/v1/endpoints/deployments.py:31-33 | the client's record of a well-typed remote deployment passes the response schema |
| DeploymentEndpoints.WellFormedRemotePageLists | gateway/api/v1/endpoints/deployments.py:31-37 | a remote page of well-typed deployments lists successfully, total counting every remote entry |
| DeploymentEndpoints.ListDeployments | gateway/api/v1/endpoints/deployments.py:18-45 | unauthenticated: its 401; a bad query: 422 with nothing sent; otherwise exactly one listing request with the defaulted limit and offset, answering `ListResponse` of its outcome |
| FlowModels.NewFlowExecution | backend/apps/flows/models.py:14-35 | a new record has blank paths, no row count, status "PENDING" and empty parameters |
| FlowModels.Describe | backend/apps/flows/models.py:47-48 | the description is the flow name, " - ", and the run id |
| FlowModels.S3Url | backend/apps/flows/models.py:50-62 | a URL exists iff the path is non-empty, and it is `s3://<bucket>/<path>` |
| FlowModels.S3InputUrl | backend/apps/flows/models.py:50-55 | `s3_input_url`: none iff the input path is blank, otherwise `s3://<bucket>/<input path>` |
| FlowModels.S3OutputUrl | backend/apps/flows/models.py:57-62 | `s3_output_url`: none iff the output path is blank, otherwise `s3://<bucket>/<output path>` |
| FlowModels.ParseS3Url | backend/apps/flows/models.py:53-54 | the source has no parser; this inverse of the URL format built at the cited lines exists as the partner of `S3Url`, and a parsed URL is `s3://` followed by the bucket, '/' and the key |
| FlowModels.S3UrlParses | backend/apps/flows/models.py:53-54 | `s3://<bucket>/<path>` with a slash-free bucket parses back to the bucket and the path |
| FlowModels.S3UrlsRoundTrip | backend/apps/flows/models.py:50-62 | both URLs are absent iff their path is blank, and otherwise name the bucket and the record's own path |
| FlowModels.GenerateDownloadUrl | backend/apps/flows/models.py:64-83 | no link, without asking the signer, iff the output path is blank; otherwise the signer's link for the bucket and the output path |

## Left out

- JWT encoding: base64url, HMAC-SHA256 and the signature bytes are abstract. A token is modelled by its claims, key and algorithm, or as malformed text.
- Security.Decode: does not model the library's `nbf`, `aud`, `iss` or `jti` checks. The gateway sets none of these itself, and callers are assumed not to pass them as extra claims. The round-trip lemmas exclude them through `KeepsRegisteredClaims`.
- Security.ExpiryFor: instants are unbounded whole seconds. The source's `datetime.now(UTC) + expires_delta` raises OverflowError when the sum leaves the years 1 to 9999; the model issues a token there instead, so `NegativeDeltaIsExpired` and the other token lemmas speak of deltas the source can add without overflowing. A sub-second delta such as 500 milliseconds is truthy in the source but cannot be expressed, because deltas are whole seconds.
- Security.Decode: does not model the library's leeway or its handling of non-integer `iat`/`exp` values. Timestamps are whole seconds, and a fractional clock is not represented.
- Security.Authenticate: the HTTP bearer scheme's own rejection of a missing or non-Bearer `Authorization` header is outside the model. A request without a token is shown only as an already failed authentication result.
- Client.close, the 30-second timeout and the async scheduling of httpx calls: these are I/O. A timeout appears only as a transport failure reply.
- Concurrent first access to the shared client is not modelled; the model is sequential. The source has no lock.
- Configuration loading from the environment: the settings defaults are constants.
- Error texts: the messages the model gives to httpx, Python and pydantic exceptions are placeholders, for example "HTTP status 404" and "validation error for X". Only the endpoints' detail prefixes and the gateway's own fixed messages are exact; the real `str(e)` text differs.
- DeploymentEndpoints.ParseQuery: the query parameters are integers already. A value that is not an integer at all (`?limit=abc`) also gets a 422 after authentication, and that case is not modelled.
- The 422 body of a validation failure: FastAPI renders a list of error objects. The model keeps only the status and a message.
- Pydantic.Validate: does not model pydantic's lax coercions (numeric strings to numbers, and so on). It accepts exactly the declared JSON types, plus integers for float fields.
- Json.Display: floats, lists and dicts get a fixed rendering instead of Python's `repr`. Strings, None, booleans and integers are exact.
- FlowEndpoints.ExecuteFlow: the source appends the user tag to the request's own list in place. The model builds a new sequence, so the aliasing is not modelled; the handler never reads that list again.
- Request bodies are already-parsed JSON. A body that is not JSON at all gets its 422 from the framework before authentication runs, and that path is not modelled.
- Reply bodies are already-decoded JSON. A 2xx reply whose body is not JSON is not represented.
- The storage signer in `generate_download_url` (boto3) is a function parameter. Only the empty-path guard and its arguments are modelled.
- The Django ORM: persistence, ordering, indexes, `created_at`/`completed_at` timestamps and the decimal `file_size_mb` are outside the model.
- Health and readiness endpoints, the data-lake query services, the views and the S3 bucket setup command are not part of this model.
