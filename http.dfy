/** The `fetch` boundary: outgoing requests, the replies a backend can give, and a network object
    that answers from a scripted oracle and logs every request it is sent. */
module Http {
  import opened Wrappers
  import opened Json
  import opened Errors

  /** A local file handed to `fetch` as a request body. */
  datatype BlobFile = BlobFile(handle: nat, mimeType: string, size: nat)

  datatype Body = NoBody | JsonBody(value: Json) | FileBody(file: BlobFile)

  datatype HttpRequest = HttpRequest(
    url: string,
    httpMethod: string,
    headers: map<string, string>,
    body: Body,
    /** `credentials: "include"` */
    withCredentials: bool)

  /** A settled response; `body` is `None` when it is not parseable as JSON. */
  datatype HttpResponse = HttpResponse(status: int, body: Option<Json>)

  /** What `fetch` does with a request: it rejects, or it settles with a response. */
  datatype Reply = Rejected(reason: Thrown) | Answered(response: HttpResponse)

  /** The backend as an oracle: the reply to the request sent as the n-th call over the network. */
  type Responder = (nat, HttpRequest) -> Reply

  /** `response.ok`. */
  predicate IsOk(status: int) {
    200 <= status <= 299
  }

  /** `await response.json().catch(() => null)`. */
  function ParsedBody(r: HttpResponse): (j: Json)
    ensures r.body.None? ==> j == JNull
  {
    r.body.GetOr(JNull)
  }

  /** The `body ? JSON.stringify(body) : undefined` rule shared by both request builders. */
  function JsonRequestBody(body: Option<Json>): (b: Body)
    ensures b.JsonBody? <==> body.Some? && Truthy(body.value)
    ensures b.JsonBody? ==> b.value == body.value
    ensures !b.FileBody?
  {
    if body.Some? && Truthy(body.value) then JsonBody(body.value) else NoBody
  }

  /** The network. `log` holds every request sent, in order; the n-th gets `respond(n, request)`. */
  class Network {
    const respond: Responder
    var log: seq<HttpRequest>

    constructor (respond: Responder)
      ensures this.respond == respond && log == []
    {
      this.respond := respond;
      log := [];
    }

    method Fetch(request: HttpRequest) returns (reply: Reply)
      modifies this
      ensures log == old(log) + [request]
      ensures reply == respond(|old(log)|, request)
    {
      reply := respond(|log|, request);
      log := log + [request];
    }
  }
}
