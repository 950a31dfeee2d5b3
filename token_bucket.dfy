/** The token bucket that rate-limits writes into the batch processor and
    the tracker (`TokenBucket`, Utils/timekeeper.py). Time is a whole number
    of seconds supplied by the caller, so refills come in whole tokens. */
module TokenBuckets {

  /** `min(capacity, tokens + elapsed * refill_rate)`. */
  function Refilled(tokens: int, capacity: nat, refillRate: nat, elapsed: nat): int {
    var grown := tokens + elapsed * refillRate;
    if grown < capacity then grown else capacity
  }

  /** One `consume(n)`: the tokens left afterwards and whether the request
      was granted. The bucket stays within [0, capacity], a granted request
      takes exactly `n` tokens from the refilled amount, and a refused one
      takes none. */
  function Consumed(tokens: int, capacity: nat, refillRate: nat, elapsed: nat, n: nat): (r: (int, bool))
    requires 0 <= tokens <= capacity
    ensures 0 <= r.0 <= capacity
    ensures r.1 <==> Refilled(tokens, capacity, refillRate, elapsed) >= n
    ensures r.1 ==> r.0 == Refilled(tokens, capacity, refillRate, elapsed) - n
    ensures !r.1 ==> r.0 == Refilled(tokens, capacity, refillRate, elapsed) && r.0 < n
    ensures r.0 >= tokens - n
  {
    var refilled := Refilled(tokens, capacity, refillRate, elapsed);
    if refilled >= n then (refilled - n, true) else (refilled, false)
  }

  /** A request no larger than the bucket always succeeds once the bucket
      has had time to refill completely. */
  lemma FullRefillGrants(tokens: int, capacity: nat, refillRate: nat, elapsed: nat, n: nat)
    requires 0 <= tokens <= capacity && n <= capacity && refillRate > 0
    requires elapsed >= capacity
    ensures Consumed(tokens, capacity, refillRate, elapsed, n).1
  {
    assert elapsed * refillRate >= elapsed;
  }

  /** Without elapsed time, `k` successive single-token requests on a bucket
      holding `t` tokens are all granted exactly when k <= t. */
  lemma {:induction false} BurstWithinTokens(tokens: int, capacity: nat, refillRate: nat, k: nat)
    requires 0 <= tokens <= capacity
    ensures AllGranted(tokens, capacity, refillRate, k) <==> k <= tokens
    decreases k
  {
    if k > 0 {
      var r := Consumed(tokens, capacity, refillRate, 0, 1);
      if r.1 {
        BurstWithinTokens(r.0, capacity, refillRate, k - 1);
      }
    }
  }

  /** Whether `k` immediate single-token requests are all granted. */
  predicate AllGranted(tokens: int, capacity: nat, refillRate: nat, k: nat)
    requires 0 <= tokens <= capacity
    decreases k
  {
    k == 0 ||
    (var r := Consumed(tokens, capacity, refillRate, 0, 1);
     r.1 && AllGranted(r.0, capacity, refillRate, k - 1))
  }

  class TokenBucket {
    const capacity: nat
    const refillRate: nat
    var tokens: int
    var lastRefill: int

    ghost predicate Valid()
      reads this
    {
      0 <= tokens <= capacity
    }

    constructor (capacity: nat, refillRate: nat, now: int)
      ensures Valid()
      ensures this.capacity == capacity && this.refillRate == refillRate
      ensures tokens == capacity && lastRefill == now
    {
      this.capacity := capacity;
      this.refillRate := refillRate;
      tokens := capacity;
      lastRefill := now;
    }

    /** `consume(n)`: refill for the time since the last call, then take `n`
        tokens if there are enough. The clock is assumed not to run
        backwards. */
    method Consume(now: int, n: nat) returns (granted: bool)
      requires Valid() && now >= lastRefill
      modifies this
      ensures Valid() && lastRefill == now
      ensures (tokens, granted) == Consumed(old(tokens), capacity, refillRate, now - old(lastRefill), n)
    {
      var elapsed := now - lastRefill;
      var grown := tokens + elapsed * refillRate;
      tokens := if grown < capacity then grown else capacity;
      lastRefill := now;
      if tokens >= n {
        tokens := tokens - n;
        return true;
      }
      return false;
    }
  }
}
