/**
 * The `/validate-address` handler (server.js:33-57): obtain a token, issue the
 * authenticated GET to the address endpoint, and relay its body, or answer
 * with a fixed 500 error whatever went wrong.
 */
module AddressRoute {
  import opened Wrappers
  import opened AccessToken

  /** A JSON value, as `response.data` or a response body carries it. */
  datatype Json =
    | JNull
    | JBool(b: bool)
    | JNumber(n: real)
    | JString(s: string)
    | JArray(items: seq<Json>)
    | JObject(members: seq<(string, Json)>)

  /** What the GET to the address endpoint came back with: an HTTP response,
    * or no response at all (network failure, timeout). */
  datatype Upstream = Responded(status: int, body: Json) | NoResponse(message: string)

  /** The HTTP response the handler sends. */
  datatype Response = Response(status: int, body: Json)

  /** The body of the failure response, `{ error: 'Error validating address' }`. */
  const ERROR_BODY := JObject([("error", JString("Error validating address"))])

  /** The failure response of server.js:55. */
  const FAILURE := Response(500, ERROR_BODY)

  /** Whether the awaited GET resolves: axios rejects, by default, every
    * response whose status is outside 200-299, and every missing response. */
  predicate Resolves(u: Upstream)
  {
    u.Responded? && 200 <= u.status < 300
  }

  /** The awaited GET as a result: the response data, or the thrown error. */
  function Settle(u: Upstream): Result<Json, Upstream>
  {
    if Resolves(u) then Ok(u.body) else Err(u)
  }

  /** The try/catch of the handler, given what the token step returned or threw;
    * `upstream` is only consulted when the token step succeeded, since the GET
    * is not issued otherwise. */
  function Handle(token: Result<Token, string>, upstream: Upstream): (resp: Response)
    // success: status 200 and the upstream body, unchanged
    ensures resp.status == 200 <==> token.Ok? && Resolves(upstream)
    ensures resp.status == 200 ==> resp.body == upstream.body
    // failure of either await: exactly the fixed 500 response
    ensures resp.status != 200 ==> resp == FAILURE
  {
    match token
    case Err(_) => FAILURE
    case Ok(_) =>
      match Settle(upstream)
      case Ok(data) => Response(200, data)
      case Err(_) => FAILURE
  }

  /** Whatever the failure and whatever the upstream's own error body, the
    * client sees the same response; the upstream error body never reaches it. */
  lemma FailureIsMasked(t1: Result<Token, string>, u1: Upstream, t2: Result<Token, string>, u2: Upstream)
    requires !(t1.Ok? && Resolves(u1)) && !(t2.Ok? && Resolves(u2))
    ensures Handle(t1, u1) == Handle(t2, u2) == FAILURE
  {
  }

  /** An upstream 4xx or 5xx is answered with the fixed 500 error, never with
    * the upstream's status or body. */
  lemma UpstreamErrorStatusMasked(token: Result<Token, string>, status: int, body: Json)
    requires status < 200 || 300 <= status
    ensures Handle(token, Responded(status, body)) == FAILURE
  {
  }

  /** The whole handler: the token step on the shared cache, then the GET.
    * `fetch` is what the token endpoint would answer, `upstream` what the
    * address endpoint would answer. */
  method ValidateAddress(cache: TokenCache, now: int, fetch: FetchResult, upstream: Upstream) returns (resp: Response)
    modifies cache
    ensures cache.State() == Step(old(cache.State()), now, fetch).state
    ensures resp == Handle(Step(old(cache.State()), now, fetch).result, upstream)
    ensures Step(old(cache.State()), now, fetch).result.Err? ==> resp == FAILURE && unchanged(cache)
  {
    var token := cache.GetAccessToken(now, fetch);
    resp := Handle(token, upstream);
  }
}
