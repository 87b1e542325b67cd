# Token cache and address-validation relay

This project models the core of a small Express relay in front of a postal-address
validation API (`server.js`). The core has two parts.

- **The bearer-token cache of `getAccessToken`.** One token and its expiry are held in
  module state. A call returns the cached token while it is truthy and the clock is
  before the expiry. Otherwise it performs an OAuth 2.0 client-credentials exchange (section
  4.4 of RFC 6749). It then stores the returned `access_token` and sets the expiry to
  `now + expires_in * 1000 - 10000` milliseconds, where `now` is read once at the start
  of the call. A failed exchange throws before either variable is assigned.
- **The try/catch of the `/validate-address` handler.** It obtains a token and issues the
  authenticated GET. On success it sends the upstream data with status 200. Any thrown
  error from either await becomes status 500 with `{ error: 'Error validating address' }`.

Files:

- `wrappers.dfy`: `Option` and `Result`.
- `access_token.dfy`: the cache state, the specification `Step` of one call, and the
  class `TokenCache`, whose fields are `cachedToken` and `tokenExpiresAt`. Its method
  `GetAccessToken` is proved against `Step`.
- `token_trace.dfy`: runs of sequential calls (`Run`) and the properties that hold across
  calls.
- `address_route.dfy`: JSON values, the axios settle rule, the handler's result mapping
  `Handle`, and the method `ValidateAddress` that composes the token step with it.

The clock (`Date.now()`) and the answers of the two remote endpoints are parameters that
the caller chooses. The token endpoint's answer is `Fetched(accessToken, expiresIn)` or
`FetchFailed(reason)`. The address endpoint's answer is `Responded(status, body)` or
`NoResponse(message)`.

JavaScript semantics are written out where they matter:

- A token is truthy only when it is present and not `""`. `null` (the initial value) and
  `undefined` (a response without `access_token`) are both `None`.
- A response without `expires_in` makes the expiry `NaN`. `now < NaN` is false, so such a
  token is never served from the cache.
- axios rejects, by default, every response whose status is outside 200-299. So an
  upstream 4xx or 5xx reaches the catch block.
- `res.json(data)` sends status 200 whatever 2xx status the upstream used.

`server.js` has this one route. It has no Referer check and no rate limiting, and it
calls `cors()` without options, so every origin is admitted.

## Model

| member | source | states |
|---|---|---|
| `AccessToken.Step` | server.js:15-31 | The token endpoint is called exactly when the cached token is falsy or `now` is not before the expiry. On a hit the call returns the cached token and changes nothing. The call throws exactly when the exchange throws, and then it leaves the state unchanged. A successful exchange stores `access_token` and the expiry `now + expires_in*1000 - 10000` (NaN without `expires_in`). The returned value is always the value left in the cache. |
| `AccessToken.HitIgnoresFetch` | server.js:17-19 | On a cache hit the outcome is the same whatever the token endpoint would answer. So no exchange is made, the cached token is returned and the state is unchanged. |
| `AccessToken.FirstCallExchanges` | server.js:12-17 | From the initial state (`null`, `0`) the first call always goes to the token endpoint. If that exchange fails, the state stays initial. |
| `AccessToken.TokenCache.constructor` | server.js:12-13 | The cache starts with `cachedToken = null` and `tokenExpiresAt = 0`. |
| `AccessToken.TokenCache.GetAccessToken` | server.js:15-31 | The new fields and the result are exactly those `Step` gives for the old fields. On a hit it returns the old token with the fields unchanged. On a refresh it stores and returns the fetched token, with the expiry computed from the time read at the start. A failed fetch returns its error with both fields unchanged. |
| `TokenTrace.Run` | server.js:26-28 | Over any run of calls, there is one outcome per call. If no call made a successful exchange, the final cache equals the initial one. |
| `TokenTrace.CacheHoldsLastExchange` | server.js:17-30 | After any run, the cached token is the token of the last successful exchange, or the starting token if there was none. Every call answered from the cache returns exactly the token of the last successful exchange before it. |
| `TokenTrace.ServedUntilExpiry` | server.js:17-19 | While a truthy token is cached, every call before its expiry is answered from the cache without an exchange, and the cache does not change. |
| `TokenTrace.TokenReuse` | server.js:16-28 | After a refresh at time T that returns a truthy token with lifetime L seconds, every call before `T + L*1000 - 10000` returns that token with no exchange. The first call at or after that instant exchanges. |
| `TokenTrace.ShortLifetimeAlwaysExchanges` | server.js:17-28 | Suppose the clock never goes backwards and every lifetime satisfies `expires_in*1000 <= 10000` (or is absent). Then, from a state that cannot serve at the first call's time, every call of the run goes to the token endpoint. |
| `TokenTrace.ShortLifetimeFromStart` | server.js:12-28 | Under the same clock and lifetime conditions, starting from process start, no call is ever answered from the cache. |
| `AddressRoute.Handle` | server.js:34-56 | The status is 200 exactly when the token step succeeded and the GET resolved, and the body is then exactly the upstream body. In every other case the response is exactly 500 with `{error: 'Error validating address'}`. |
| `AddressRoute.FailureIsMasked` | server.js:53-55 | Any two failing requests get the identical fixed 500 response, whatever their errors were. |
| `AddressRoute.UpstreamErrorStatusMasked` | server.js:38-55 | An upstream response with a non-2xx status yields the fixed 500 response, never the upstream's status or body. |
| `AddressRoute.ValidateAddress` | server.js:33-57 | The handler runs one token step on the shared cache (with the state change `Step` gives) and answers with `Handle` of its result. When the token step throws, the answer is the fixed 500 and the cache is unchanged. |

## Left out

- Express setup, the `cors()` and `express.json()` middleware and `app.listen` (server.js:5-7, 59-60): framework plumbing.
- The HTTP calls themselves (server.js:21-26, 38-50), including the form-encoded credentials, the URLs, the `Authorization` header and the query parameters. Their outcomes are inputs to the model.
- Reading `USPS_CLIENT_ID`, `USPS_CLIENT_SECRET` and `PORT` from the environment (server.js:9-10, 59): configuration.
- `console.error` and `console.log` (server.js:54, 60): I/O.
- Overlapping requests that refresh the token concurrently: calls are modelled as strictly sequential.
- The destructuring of `req.body` on server.js:35. It would throw when `req.body` is undefined, and that request would also get the fixed 500 before any token step. Request fields only shape the GET's query, which is not modelled.
- JavaScript numbers are doubles. Times and `expires_in` are modelled as unbounded integers; this is exact for values below 2^53 milliseconds.
- `FetchResult`: an `access_token` that is not a string, and an `expires_in` that is not a number (a string coerced by `*`) are not modelled. A token response whose body is `null` or missing throws a TypeError on server.js:27 before any assignment, which is the `FetchFailed` case; a primitive body such as `""` gives `undefined` for both fields, which is `Fetched(None, None)`.
