/** FastAPI's side of a request: the exception a handler raises and the
    response the client receives. */
module Http {
  import opened Json

  const Ok200: int := 200
  const Accepted202: int := 202
  const Unauthorized401: int := 401
  const NotFound404: int := 404
  const Unprocessable422: int := 422
  const InternalError500: int := 500

  /** The challenge header of section 3 of RFC 6750. */
  const BearerChallenge: map<string, string> := map["WWW-Authenticate" := "Bearer"]

  /** `HTTPException(status_code, detail, headers)`. */
  datatype HttpException = HttpException(status: int, detail: string, headers: map<string, string>)

  datatype HttpResponse = HttpResponse(status: int, body: Json, headers: map<string, string>)

  /** FastAPI renders an HTTPException as `{"detail": ...}` with its headers. */
  function ErrorResponse(e: HttpException): (r: HttpResponse)
    ensures r.status == e.status && r.headers == e.headers
    ensures r.body == JObj(map["detail" := JStr(e.detail)])
  {
    HttpResponse(e.status, JObj(map["detail" := JStr(e.detail)]), e.headers)
  }

  /** A raised HTTPException without extra headers. */
  function Fail(status: int, detail: string): HttpResponse {
    ErrorResponse(HttpException(status, detail, map[]))
  }

  /** A successful JSON response. */
  function Success(status: int, body: Json): HttpResponse {
    HttpResponse(status, body, map[])
  }
}
