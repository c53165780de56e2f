/** The flow-execution record of the Django back end
    (backend/apps/flows/models.py): its defaults and its S3 locations. The
    record holds paths only; the data lake bucket is a setting and is passed
    in. */
module FlowModels {
  import opened Wrappers
  import opened Json
  import opened Strings

  const DefaultStatus: string := "PENDING"
  const S3Scheme: string := "s3://"
  const DefaultExpiresIn: int := 3600

  datatype FlowExecution = FlowExecution(
    flowRunId: string,
    flowName: string,
    triggeredBy: string,
    s3InputPath: string,
    s3OutputPath: string,
    rowCount: Option<int>,
    status: string,
    parameters: map<string, Json>)

  /** A record created with only its required fields: blank paths, no row
      count, status "PENDING" and empty parameters. */
  function NewFlowExecution(flowRunId: string, flowName: string, triggeredBy: string): (e: FlowExecution)
    ensures e.flowRunId == flowRunId && e.flowName == flowName && e.triggeredBy == triggeredBy
    ensures e.status == DefaultStatus && e.parameters == map[]
    ensures e.s3InputPath == "" && e.s3OutputPath == "" && e.rowCount == None
  {
    FlowExecution(flowRunId, flowName, triggeredBy, "", "", None, DefaultStatus, map[])
  }

  /** `__str__`: the flow name and the run id. */
  function Describe(e: FlowExecution): (s: string)
    ensures |s| == |e.flowName| + 3 + |e.flowRunId|
    ensures s[..|e.flowName|] == e.flowName && s[|e.flowName| + 3..] == e.flowRunId
    ensures s[|e.flowName|..|e.flowName| + 3] == " - "
  {
    e.flowName + " - " + e.flowRunId
  }

  /** `s3://<bucket>/<path>` for a non-empty path, otherwise nothing. */
  function S3Url(bucket: string, path: string): (r: Option<string>)
    ensures r.None? <==> path == ""
    ensures r.Some? ==> r.value == S3Scheme + bucket + "/" + path
  {
    if path != "" then Some(S3Scheme + bucket + "/" + path) else None
  }

  /** `s3_input_url`. */
  function S3InputUrl(e: FlowExecution, bucket: string): (r: Option<string>)
    ensures r.None? <==> e.s3InputPath == ""
    ensures r.Some? ==> r.value == "s3://" + bucket + "/" + e.s3InputPath
  {
    S3Url(bucket, e.s3InputPath)
  }

  /** `s3_output_url`. */
  function S3OutputUrl(e: FlowExecution, bucket: string): (r: Option<string>)
    ensures r.None? <==> e.s3OutputPath == ""
    ensures r.Some? ==> r.value == "s3://" + bucket + "/" + e.s3OutputPath
  {
    S3Url(bucket, e.s3OutputPath)
  }

  /** Reading an `s3://bucket/key` URL back into its bucket and key. */
  function ParseS3Url(url: string): (r: Option<(string, string)>)
    ensures r.Some? ==> url == S3Scheme + r.value.0 + "/" + r.value.1
  {
    if |url| < |S3Scheme| || url[..|S3Scheme|] != S3Scheme then None
    else
      var rest := url[|S3Scheme|..];
      if '/' !in rest then None
      else
        var parts := SplitFirstSlash(rest);
        assert url == url[..|S3Scheme|] + rest;
        Some(parts)
  }

  /** A bucket name holds no '/', so both URLs name the bucket and the
      record's own path, and a blank path has no URL. */
  lemma {:induction false} S3UrlsRoundTrip(e: FlowExecution, bucket: string)
    requires '/' !in bucket
    ensures S3InputUrl(e, bucket).None? <==> e.s3InputPath == ""
    ensures S3OutputUrl(e, bucket).None? <==> e.s3OutputPath == ""
    ensures S3InputUrl(e, bucket).Some? ==> ParseS3Url(S3InputUrl(e, bucket).value) == Some((bucket, e.s3InputPath))
    ensures S3OutputUrl(e, bucket).Some? ==> ParseS3Url(S3OutputUrl(e, bucket).value) == Some((bucket, e.s3OutputPath))
  {
    if e.s3InputPath != "" {
      S3UrlParses(bucket, e.s3InputPath);
    }
    if e.s3OutputPath != "" {
      S3UrlParses(bucket, e.s3OutputPath);
    }
  }

  lemma {:induction false} S3UrlParses(bucket: string, path: string)
    requires '/' !in bucket
    ensures ParseS3Url(S3Scheme + bucket + "/" + path) == Some((bucket, path))
  {
    var url := S3Scheme + bucket + "/" + path;
    assert url[..|S3Scheme|] == S3Scheme;
    assert url[|S3Scheme|..] == bucket + "/" + path;
    SplitJoin(bucket, path);
  }

  /** `generate_download_url`: nothing for a blank output path, without
      asking storage; otherwise what the storage signer returns for the
      bucket and the output path. */
  function GenerateDownloadUrl(e: FlowExecution, bucket: string, presign: (string, string, int) -> string,
                               expiresIn: int := DefaultExpiresIn): (r: Option<string>)
    ensures r.None? <==> e.s3OutputPath == ""
    ensures r.Some? ==> r.value == presign(bucket, e.s3OutputPath, expiresIn)
  {
    if e.s3OutputPath == "" then None
    else Some(presign(bucket, e.s3OutputPath, expiresIn))
  }
}
