/**
 * Sequences of strictly sequential calls of `getAccessToken`
 * (server.js:15-31), and what the cache promises across them.
 */
module TokenTrace {
  import opened Wrappers
  import opened AccessToken

  /** One call: the time `Date.now()` reads at its start, and what the token
    * endpoint would answer if the call reached it. */
  datatype Call = Call(now: int, fetch: FetchResult)

  /** The state after a run of calls, and each call's outcome in order. */
  datatype Trace = Trace(final: CacheState, outcomes: seq<Outcome>)

  /** Performs the calls one after the other, starting from `s`. */
  function Run(s: CacheState, calls: seq<Call>): (t: Trace)
    ensures |t.outcomes| == |calls|
    // the cache changes only through a successful exchange
    ensures (forall i :: 0 <= i < |calls| ==> !(t.outcomes[i].exchanged && t.outcomes[i].result.Ok?)) ==> t.final == s
    decreases |calls|
  {
    if calls == [] then
      Trace(s, [])
    else
      var o := Step(s, calls[0].now, calls[0].fetch);
      var rest := Run(o.state, calls[1..]);
      assert ([o] + rest.outcomes)[0] == o;
      assert forall i :: 0 <= i < |rest.outcomes| ==> rest.outcomes[i] == ([o] + rest.outcomes)[i + 1];
      Trace(rest.final, [o] + rest.outcomes)
  }

  /** The token of the last successful exchange in `outs`, or `init` if none. */
  function LastExchanged(outs: seq<Outcome>, init: Token): Token
    decreases |outs|
  {
    if outs == [] then init
    else
      var o := outs[0];
      LastExchanged(outs[1..], if o.exchanged && o.result.Ok? then o.result.value else init)
  }

  /** Clock readings that never go backwards. */
  predicate NonDecreasing(calls: seq<Call>)
  {
    forall i, j :: 0 <= i < j < |calls| ==> calls[i].now <= calls[j].now
  }

  /** Every token response in `calls` that has a lifetime has one of at most
    * the 10-second margin. */
  predicate ShortLived(calls: seq<Call>)
  {
    forall i :: 0 <= i < |calls| ==>
      calls[i].fetch.Fetched? && calls[i].fetch.expiresIn.Some? ==> calls[i].fetch.expiresIn.value * 1000 <= MARGIN_MS
  }

  /** The cache holds the token of the last successful exchange, and every call
    * answered from the cache returns exactly that token. */
  lemma {:induction false} CacheHoldsLastExchange(s: CacheState, calls: seq<Call>)
    ensures Run(s, calls).final.cachedToken == LastExchanged(Run(s, calls).outcomes, s.cachedToken)
    ensures forall i :: 0 <= i < |calls| && !Run(s, calls).outcomes[i].exchanged ==>
      Run(s, calls).outcomes[i].result == Ok(LastExchanged(Run(s, calls).outcomes[..i], s.cachedToken))
    decreases |calls|
  {
    if calls != [] {
      var o := Step(s, calls[0].now, calls[0].fetch);
      var rest := calls[1..];
      var outs := Run(s, calls).outcomes;
      CacheHoldsLastExchange(o.state, rest);
      assert o.state.cachedToken == (if o.exchanged && o.result.Ok? then o.result.value else s.cachedToken);
      assert outs == [o] + Run(o.state, rest).outcomes;
      forall i | 0 <= i < |calls| && !outs[i].exchanged
        ensures outs[i].result == Ok(LastExchanged(outs[..i], s.cachedToken))
      {
        if i > 0 {
          assert outs[..i][1..] == Run(o.state, rest).outcomes[..i - 1];
        }
      }
    }
  }

  /** Every call before the expiry of a truthy cached token is answered from
    * the cache, and the cache stays as it is. */
  lemma {:induction false} ServedUntilExpiry(s: CacheState, calls: seq<Call>)
    requires Truthy(s.cachedToken) && s.tokenExpiresAt.At?
    requires forall i :: 0 <= i < |calls| ==> calls[i].now < s.tokenExpiresAt.ms
    ensures Run(s, calls).final == s
    ensures forall i :: 0 <= i < |calls| ==> Run(s, calls).outcomes[i] == Outcome(s, Ok(s.cachedToken), false)
    decreases |calls|
  {
    if calls != [] {
      ServedUntilExpiry(s, calls[1..]);
      assert Run(s, calls).outcomes == [Outcome(s, Ok(s.cachedToken), false)] + Run(s, calls[1..]).outcomes;
    }
  }

  /** After a refresh at `t0` that returns a truthy token with lifetime
    * `lifetime` seconds, calls before `t0 + lifetime * 1000 - 10000` reuse that
    * token without an exchange, and a call at or after that instant exchanges. */
  lemma {:induction false} TokenReuse(s: CacheState, t0: int, token: Token, lifetime: int, calls: seq<Call>, later: Call)
    requires !Hit(s, t0) && Truthy(token)
    requires forall i :: 0 <= i < |calls| ==> calls[i].now < t0 + lifetime * 1000 - 10000
    requires later.now >= t0 + lifetime * 1000 - 10000
    ensures var s1 := Step(s, t0, Fetched(token, Some(lifetime))).state;
      && Run(s1, calls).final == s1
      && (forall i :: 0 <= i < |calls| ==>
            !Run(s1, calls).outcomes[i].exchanged && Run(s1, calls).outcomes[i].result == Ok(token))
      && Step(Run(s1, calls).final, later.now, later.fetch).exchanged
  {
    var s1 := Step(s, t0, Fetched(token, Some(lifetime))).state;
    ServedUntilExpiry(s1, calls);
  }

  /** With a clock that never goes backwards and token lifetimes no longer than
    * the margin, no call is ever answered from the cache: each one exchanges. */
  lemma {:induction false} ShortLifetimeAlwaysExchanges(s: CacheState, calls: seq<Call>)
    requires NonDecreasing(calls) && ShortLived(calls)
    requires |calls| > 0 ==> !Hit(s, calls[0].now)
    ensures forall i :: 0 <= i < |calls| ==> Run(s, calls).outcomes[i].exchanged
    decreases |calls|
  {
    if calls != [] {
      var o := Step(s, calls[0].now, calls[0].fetch);
      var rest := calls[1..];
      assert !Hit(o.state, calls[0].now);
      assert NonDecreasing(rest) && ShortLived(rest) by {
        assert forall i :: 0 <= i < |rest| ==> rest[i] == calls[i + 1];
      }
      if |rest| > 0 {
        assert calls[0].now <= rest[0].now by { assert rest[0] == calls[1]; }
      }
      ShortLifetimeAlwaysExchanges(o.state, rest);
      assert Run(s, calls).outcomes == [o] + Run(o.state, rest).outcomes;
    }
  }

  /** From process start, with short lifetimes and a non-decreasing clock,
    * every call goes to the token endpoint. */
  lemma {:induction false} ShortLifetimeFromStart(calls: seq<Call>)
    requires NonDecreasing(calls) && ShortLived(calls)
    ensures forall i :: 0 <= i < |calls| ==> Run(INITIAL, calls).outcomes[i].exchanged
  {
    ShortLifetimeAlwaysExchanges(INITIAL, calls);
  }
}
