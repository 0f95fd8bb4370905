/**
 * The one-time CSRF token store (`CsrfManager`): tokens with an expiry instant, consumed
 * on successful validation, and a sweep of expired tokens on every hundredth operation.
 * The clock is the `now` parameter and the random token value a parameter.
 */
module Csrf {
  const CLEANUP_INTERVAL: nat := 100

  /** The tokens that survive a sweep at `now`: exactly those expiring after it. */
  function Unexpired(tokens: map<string, int>, now: int): (r: map<string, int>)
    ensures forall t :: t in r <==> t in tokens && tokens[t] > now
    ensures forall t :: t in r ==> r[t] == tokens[t]
  {
    map t | t in tokens && tokens[t] > now :: tokens[t]
  }

  /** Whether the operation numbered `count` (counting from 0) sweeps. */
  predicate SweepDue(count: nat)
  {
    count % CLEANUP_INTERVAL == 0
  }

  /** Sweeping twice at the same instant leaves what sweeping once leaves. */
  lemma UnexpiredIdempotent(tokens: map<string, int>, now: int)
    ensures Unexpired(Unexpired(tokens, now), now) == Unexpired(tokens, now)
  {
  }

  /** Among any hundred consecutive operations at least one sweeps. */
  lemma {:induction false} SweepsInAWindow(start: nat)
    ensures exists k :: start <= k < start + CLEANUP_INTERVAL && SweepDue(k)
  {
    var k := start + (CLEANUP_INTERVAL - start % CLEANUP_INTERVAL) % CLEANUP_INTERVAL;
    assert SweepDue(k);
  }

  class CsrfManager {
    var tokens: map<string, int>
    const ttlSecs: int
    var operationCount: nat

    /** `CsrfManager::new`. */
    constructor New(ttlSecs: int)
      ensures tokens == map[] && this.ttlSecs == ttlSecs && operationCount == 0
    {
      tokens := map[];
      this.ttlSecs := ttlSecs;
      operationCount := 0;
    }

    /** `cleanup_expired`. */
    method CleanupExpired(now: int)
      modifies this
      ensures tokens == Unexpired(old(tokens), now) && operationCount == old(operationCount)
    {
      tokens := Unexpired(tokens, now);
    }

    /** `maybe_cleanup`: count the operation; sweep when the count before it was a multiple of 100. */
    method MaybeCleanup(now: int)
      modifies this
      ensures operationCount == old(operationCount) + 1
      ensures tokens == if SweepDue(old(operationCount)) then Unexpired(old(tokens), now) else old(tokens)
    {
      var count := operationCount;
      operationCount := operationCount + 1;
      if count % CLEANUP_INTERVAL == 0 {
        CleanupExpired(now);
      }
    }

    /** `generate_token`: after the periodic sweep, store the token with expiry `now + ttl`. */
    method GenerateToken(token: string, now: int) returns (r: string)
      modifies this
      ensures r == token && token in tokens && tokens[token] == now + ttlSecs
      ensures operationCount == old(operationCount) + 1
      ensures var swept := if SweepDue(old(operationCount)) then Unexpired(old(tokens), now) else old(tokens);
        tokens == swept[token := now + ttlSecs]
    {
      MaybeCleanup(now);
      tokens := tokens[token := now + ttlSecs];
      r := token;
    }

    /**
     * `validate_token`: true exactly when the token is stored with an expiry after `now`;
     * a stored token is removed either way, so it validates at most once; an unknown token
     * adds nothing.
     */
    method ValidateToken(token: string, now: int) returns (ok: bool)
      modifies this
      ensures ok <==> token in old(tokens) && old(tokens)[token] > now
      ensures token !in tokens
      ensures operationCount == old(operationCount) + 1
      ensures var swept := if SweepDue(old(operationCount)) then Unexpired(old(tokens), now) else old(tokens);
        tokens == swept - {token}
    {
      MaybeCleanup(now);
      if token in tokens {
        if tokens[token] > now {
          tokens := tokens - {token};
          return true;
        }
        tokens := tokens - {token};
      }
      ok := false;
    }

    function TokenCount(): (r: nat)
      reads this
      ensures r == |tokens.Keys|
    {
      |tokens|
    }
  }
}
