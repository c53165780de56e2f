/** The HTTP transport under the orchestrator client (an `httpx.AsyncClient`).
    The remote side is an oracle: the reply to the n-th request of a client is
    `respond(n, request)`. The client records every request it sends. */
module Transport {
  import opened Wrappers
  import opened Json

  datatype Request = Get(path: string) | Post(path: string, body: Json)

  /** What the remote answered: a status and a decoded JSON body, or a
      transport-level failure (connection refused, timeout). */
  datatype Reply = Response(status: int, body: Json) | Failure(message: string)

  /** `response.raise_for_status(); response.json()`: only a 2xx status
      lets the body through. */
  function RaiseForStatus(reply: Reply): (r: Result<Json, Exception>)
    ensures r.Ok? <==> reply.Response? && 200 <= reply.status < 300
    ensures r.Ok? ==> r.value == reply.body
    ensures reply.Failure? ==> r == Err(Exception(TransportError, reply.message))
    ensures reply.Response? && r.Err? ==> r.error.kind == HttpStatusError
  {
    match reply
    case Failure(m) => Err(Exception(TransportError, m))
    case Response(status, body) =>
      if 200 <= status < 300 then Ok(body)
      else Err(Exception(HttpStatusError, "HTTP status " + IntToString(status)))
  }

  class HttpClient {
    /** The base URL every path is resolved against. */
    const baseUrl: string
    /** The remote: its reply to the n-th request. */
    const respond: (nat, Request) -> Reply
    /** Every request sent so far, in order. */
    var trace: seq<Request>

    constructor (baseUrl: string, respond: (nat, Request) -> Reply)
      ensures this.baseUrl == baseUrl && this.respond == respond
      ensures trace == []
    {
      this.baseUrl := baseUrl;
      this.respond := respond;
      trace := [];
    }

    /** Sends one request and returns the remote's reply to it. */
    method Send(req: Request) returns (reply: Reply)
      modifies this
      ensures trace == old(trace) + [req]
      ensures reply == respond(|old(trace)|, req)
    {
      reply := respond(|trace|, req);
      trace := trace + [req];
    }
  }
}
