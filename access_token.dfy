/**
 * The single-entry bearer-token cache of `getAccessToken` (server.js:12-31).
 *
 * The module-level variables `cachedToken` and `tokenExpiresAt` become the
 * fields of class `TokenCache`. The clock (`Date.now()`) and the outcome of
 * the client-credentials POST to the token endpoint (section 4.4 of RFC 6749)
 * are parameters chosen by the caller. `Step` is the specification of one
 * call as a function of the state before it.
 */
module AccessToken {
  import opened Wrappers

  /** A JavaScript value held in `cachedToken`: `None` is `null` (before the
    * first exchange) or `undefined` (a response without `access_token`). */
  type Token = Option<string>

  /** The number in `tokenExpiresAt`, in milliseconds; `NaN` when the token
    * response had no `expires_in`, as `undefined * 1000` is `NaN`. */
  datatype Expiry = At(ms: int) | NaN

  /** The outcome of the awaited POST to the token endpoint. `Fetched` carries
    * `res.data.access_token` and `res.data.expires_in` (seconds). A thrown
    * error (network, non-2xx status, or a `null` or missing body, which makes
    * the property read throw) is `FetchFailed`. A primitive body such as `""`
    * yields `undefined` for both fields: that is `Fetched(None, None)`. */
  datatype FetchResult =
    | Fetched(accessToken: Token, expiresIn: Option<int>)
    | FetchFailed(reason: string)

  /** The values of `cachedToken` and `tokenExpiresAt`. */
  datatype CacheState = CacheState(cachedToken: Token, tokenExpiresAt: Expiry)

  /** What one call does: the state after it, what it returns or throws, and
    * whether it performed the token exchange (the network call). */
  datatype Outcome = Outcome(state: CacheState, result: Result<Token, string>, exchanged: bool)

  /** Safety margin subtracted from the token lifetime, in milliseconds. */
  const MARGIN_MS := 10000

  /** The state at process start: `cachedToken = null`, `tokenExpiresAt = 0`. */
  const INITIAL := CacheState(None, At(0))

  /** JavaScript truthiness of a token: `null`, `undefined` and `""` are falsy. */
  predicate Truthy(t: Token)
  {
    t.Some? && t.value != ""
  }

  /** `now < tokenExpiresAt`, which is false when the expiry is `NaN`. */
  predicate Before(now: int, e: Expiry)
  {
    e.At? && now < e.ms
  }

  /** The cache-hit test of server.js:17. */
  predicate Hit(s: CacheState, now: int)
  {
    Truthy(s.cachedToken) && Before(now, s.tokenExpiresAt)
  }

  /** The new expiry of server.js:28 for a response read at time `now`. */
  function ExpiryAfter(now: int, expiresIn: Option<int>): Expiry
  {
    match expiresIn
    case Some(seconds) => At(now + seconds * 1000 - MARGIN_MS)
    case None => NaN
  }

  /** One call of `getAccessToken` at time `now`; `fetch` is consulted only
    * when the cache misses. */
  function Step(s: CacheState, now: int, fetch: FetchResult): (o: Outcome)
    // the value returned is always the value left in the cache
    ensures o.result.Ok? ==> o.result.value == o.state.cachedToken
    // the exchange happens exactly when the cache-hit test fails
    ensures o.exchanged <==> !Hit(s, now)
    ensures !o.exchanged ==> o.state == s && o.result == Ok(s.cachedToken)
    // the call throws exactly when the exchange throws, and then changes nothing
    ensures o.result.Err? <==> o.exchanged && fetch.FetchFailed?
    ensures o.result.Err? ==> o.state == s && o.result.error == fetch.reason
    // a successful exchange stores its token and the expiry read at `now`
    ensures o.exchanged && fetch.Fetched? ==>
      o.state.cachedToken == fetch.accessToken &&
      o.state.tokenExpiresAt == (if fetch.expiresIn.Some? then At(now + fetch.expiresIn.value * 1000 - 10000) else NaN)
  {
    if Hit(s, now) then
      Outcome(s, Ok(s.cachedToken), false)
    else
      match fetch
      case FetchFailed(reason) => Outcome(s, Err(reason), true)
      case Fetched(token, expiresIn) =>
        Outcome(CacheState(token, ExpiryAfter(now, expiresIn)), Ok(token), true)
  }

  /** On a cache hit the outcome does not depend on the token endpoint at all:
    * no exchange is made. */
  lemma HitIgnoresFetch(s: CacheState, now: int, f1: FetchResult, f2: FetchResult)
    requires Hit(s, now)
    ensures Step(s, now, f1) == Step(s, now, f2)
    ensures Step(s, now, f1) == Outcome(s, Ok(s.cachedToken), false)
  {
  }

  /** The first call after start always goes to the token endpoint. */
  lemma FirstCallExchanges(now: int, fetch: FetchResult)
    ensures Step(INITIAL, now, fetch).exchanged
    ensures fetch.FetchFailed? ==> Step(INITIAL, now, fetch).state == INITIAL
  {
  }

  /** The module state of server.js:12-13 and the function of server.js:15-31. */
  class TokenCache {
    var cachedToken: Token
    var tokenExpiresAt: Expiry

    /** The state as a value. */
    function State(): CacheState
      reads this
    {
      CacheState(cachedToken, tokenExpiresAt)
    }

    constructor ()
      ensures State() == INITIAL
    {
      cachedToken := None;
      tokenExpiresAt := At(0);
    }

    /** `getAccessToken()` with `Date.now()` read once, as `now`, at the start. */
    method GetAccessToken(now: int, fetch: FetchResult) returns (r: Result<Token, string>)
      modifies this
      ensures State() == Step(old(State()), now, fetch).state
      ensures r == Step(old(State()), now, fetch).result
      // cache hit: the cached token, and nothing changes
      ensures Hit(old(State()), now) ==> r == Ok(old(cachedToken)) && unchanged(this)
      // refresh: the fresh token is stored and returned, expiry from the start time
      ensures !Hit(old(State()), now) && fetch.Fetched? ==>
        r == Ok(fetch.accessToken) && cachedToken == fetch.accessToken &&
        tokenExpiresAt == (if fetch.expiresIn.Some? then At(now + fetch.expiresIn.value * 1000 - 10000) else NaN)
      // a failed exchange propagates and leaves both fields alone
      ensures !Hit(old(State()), now) && fetch.FetchFailed? ==> r == Err(fetch.reason) && unchanged(this)
    {
      if Truthy(cachedToken) && Before(now, tokenExpiresAt) {
        return Ok(cachedToken);
      }
      match fetch {
        case FetchFailed(reason) =>
          return Err(reason);
        case Fetched(accessToken, expiresIn) =>
          cachedToken := accessToken;
          tokenExpiresAt := ExpiryAfter(now, expiresIn);
          return Ok(cachedToken);
      }
    }
  }
}
