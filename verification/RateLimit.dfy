/** The request limiter of the ride service: a fixed window in Redis, or a counter in memory when Redis is away
    (services/ride/src/ride/rate-limit.service.ts). Times and windows are in milliseconds. */
module RateLimit {
  import opened Common

  datatype Counter = Counter(count: nat, until: int)

  /** Whether a Redis key is still there at the very millisecond it expires; the refinement below depends on it. */
  datatype Expiry = Before | AtOrBefore

  predicate Alive(c: Option<Counter>, now: int, expiry: Expiry) {
    c.Some? && (now < c.value.until || (expiry.AtOrBefore? && now == c.value.until))
  }

  /** INCR, then EXPIRE on the first count only: the window is fixed by its first request. */
  function RedisCount(c: Option<Counter>, now: int, window: int, expiry: Expiry): Counter {
    if Alive(c, now, expiry) then c.value.(count := c.value.count + 1) else Counter(1, now + window)
  }

  /** In memory every request, refused ones too, counts and pushes the expiry out. */
  function MemoryCount(c: Option<Counter>, now: int, window: int): Counter {
    if c.Some? && now < c.value.until then Counter(c.value.count + 1, now + window) else Counter(1, now + window)
  }

  function Lookup(m: map<string, Counter>, key: string): Option<Counter> { if key in m then Some(m[key]) else None }

  class RateLimiter {
    var redis: map<string, Counter>
    var fallback: map<string, Counter>
    const expiry: Expiry

    constructor (expiry: Expiry)
      ensures redis == map[] && fallback == map[] && this.expiry == expiry
    {
      redis, fallback, this.expiry := map[], map[], expiry;
    }

    method GetFallbackCount(key: string, now: int) returns (count: nat)
      modifies this`fallback
      ensures count == if key in old(fallback) && now < old(fallback)[key].until then old(fallback)[key].count else 0
      ensures forall k :: k != key ==> Lookup(fallback, k) == Lookup(old(fallback), k)
    {
      if key !in fallback { return 0; }
      if fallback[key].until <= now {
        fallback := fallback - {key};
        return 0;
      }
      return fallback[key].count;
    }

    method IsAllowed(key: string, maxRequests: int, windowSeconds: int, now: int, redisUp: bool) returns (allowed: bool)
      modifies this
      ensures redisUp ==>
                && key in redis && redis == old(redis)[key := redis[key]]
                && redis[key] == RedisCount(Lookup(old(redis), key), now, windowSeconds * 1000, expiry)
                && (if key in old(redis)
                       && (now < old(redis)[key].until || (now == old(redis)[key].until && expiry == AtOrBefore))
                    then redis[key] == Counter(old(redis)[key].count + 1, old(redis)[key].until)
                    else redis[key] == Counter(1, now + windowSeconds * 1000))
                && fallback == old(fallback) && allowed == (redis[key].count <= maxRequests)
      ensures !redisUp ==>
                && key in fallback && fallback[key] == MemoryCount(Lookup(old(fallback), key), now, windowSeconds * 1000)
                && fallback[key].until == now + windowSeconds * 1000
                && fallback[key].count == (if key in old(fallback) && now < old(fallback)[key].until then old(fallback)[key].count + 1 else 1)
                && (forall k :: k != key ==> Lookup(fallback, k) == Lookup(old(fallback), k))
                && redis == old(redis) && allowed == (fallback[key].count <= maxRequests)
    {
      if redisUp {
        redis := redis[key := RedisCount(Lookup(redis, key), now, windowSeconds * 1000, expiry)];
        return redis[key].count <= maxRequests;
      }
      var current := GetFallbackCount(key, now);
      var next := current + 1;
      fallback := fallback[key := Counter(next, now + windowSeconds * 1000)];
      return next <= maxRequests;
    }
  }

  // ---- One key over a whole trace of request times ----

  /** The key after the first `k` requests. */
  function Redis(times: seq<int>, k: nat, window: int, expiry: Expiry): (c: Option<Counter>)
    requires k <= |times|
    ensures c.Some? <==> k > 0
    ensures c.Some? ==> c.value.count > 0
  {
    if k == 0 then None else Some(RedisCount(Redis(times, k - 1, window, expiry), times[k - 1], window, expiry))
  }

  function Memory(times: seq<int>, k: nat, window: int): (c: Option<Counter>)
    requires k <= |times|
    ensures c.Some? <==> k > 0
    ensures c.Some? ==> c.value.count > 0 && c.value.until == times[k - 1] + window
  {
    if k == 0 then None else Some(MemoryCount(Memory(times, k - 1, window), times[k - 1], window))
  }

  predicate RedisAllows(times: seq<int>, k: nat, max: int, window: int, expiry: Expiry)
    requires k < |times|
  {
    Redis(times, k + 1, window, expiry).value.count <= max
  }

  predicate MemoryAllows(times: seq<int>, k: nat, max: int, window: int)
    requires k < |times|
  {
    Memory(times, k + 1, window).value.count <= max
  }

  predicate Ordered(times: seq<int>) { forall i, j :: 0 <= i < j < |times| ==> times[i] <= times[j] }

  // ---- The fixed window of Redis ----

  /** Request `k` starts the count. */
  predicate Opens(times: seq<int>, k: nat, window: int, expiry: Expiry)
    requires k < |times|
  {
    Redis(times, k + 1, window, expiry).value.count == 1
  }

  /** The key is still there at `now` when it expires at `until`. */
  predicate Lives(now: int, until: int, expiry: Expiry) { if expiry == AtOrBefore then now <= until else now < until }

  /** A key opened by request `m` expires one window after that request, whatever follows, and counts all requests up to then. */
  lemma {:induction false} WindowIsFixed(times: seq<int>, m: nat, k: nat, window: int, expiry: Expiry)
    requires m <= k < |times| && Opens(times, m, window, expiry) && window > 0
    requires forall j :: m < j <= k ==> Lives(times[j], times[m] + window, expiry)
    ensures Redis(times, k + 1, window, expiry) == Some(Counter(k - m + 1, times[m] + window))
    decreases k
  {
    if k > m { WindowIsFixed(times, m, k - 1, window, expiry); }
  }

  /** The first request past that instant opens the next one; so does the first of all. */
  lemma NextWindowOpens(times: seq<int>, m: nat, k: nat, window: int, expiry: Expiry)
    requires m < k < |times| && Opens(times, m, window, expiry) && window > 0
    requires (forall j :: m < j < k ==> Lives(times[j], times[m] + window, expiry)) && !Lives(times[k], times[m] + window, expiry)
    ensures Opens(times, 0, window, expiry) && Opens(times, k, window, expiry)
  {
    WindowIsFixed(times, m, k - 1, window, expiry);
  }

  /** The last opening at or before `k`. */
  lemma {:induction false} LastOpening(times: seq<int>, k: nat, window: int, expiry: Expiry) returns (m: nat)
    requires k < |times| && window > 0
    ensures m <= k && Opens(times, m, window, expiry) && forall j :: m < j <= k ==> Lives(times[j], times[m] + window, expiry)
    decreases k
  {
    if k == 0 {
      m := 0;
    } else {
      m := LastOpening(times, k - 1, window, expiry);
      if !Lives(times[k], times[m] + window, expiry) {
        NextWindowOpens(times, m, k, window, expiry);
        m := k;
      }
    }
  }

  /** Exactly which requests Redis allows: those with fewer than `max` requests since the one, itself included, that last
      found no key. Refused requests count, but never push the window out. */
  lemma RedisAllowsExactly(times: seq<int>, k: nat, max: int, window: int, expiry: Expiry)
    requires k < |times| && window > 0
    ensures RedisAllows(times, k, max, window, expiry)
            <==> exists m: nat :: m <= k && k - m < max && Opens(times, m, window, expiry)
                                  && forall j :: m < j <= k ==> Lives(times[j], times[m] + window, expiry)
  {
    var m := LastOpening(times, k, window, expiry);
    WindowIsFixed(times, m, k, window, expiry);
    if n: nat :| n <= k && k - n < max && Opens(times, n, window, expiry)
                 && forall j :: n < j <= k ==> Lives(times[j], times[n] + window, expiry) {
      WindowIsFixed(times, n, k, window, expiry);
    }
  }

  /** Requests i, .., k - 1 that Redis allows. */
  function RedisPassed(times: seq<int>, i: nat, k: nat, max: int, window: int, expiry: Expiry): nat
    requires i <= k <= |times|
    decreases k
  {
    if i == k then 0 else RedisPassed(times, i, k - 1, max, window, expiry) + (if RedisAllows(times, k - 1, max, window, expiry) then 1 else 0)
  }

  lemma {:induction false} RedisPassedSplit(times: seq<int>, i: nat, m: nat, k: nat, max: int, window: int, expiry: Expiry)
    requires i <= m <= k <= |times|
    ensures RedisPassed(times, i, k, max, window, expiry)
         == RedisPassed(times, i, m, max, window, expiry) + RedisPassed(times, m, k, max, window, expiry)
    decreases k
  {
    if m < k { RedisPassedSplit(times, i, m, k - 1, max, window, expiry); }
  }

  /** Requests i, .., k - 1 within the window opened by `m` pass until its count is `max`. */
  lemma {:induction false} PassedInWindow(times: seq<int>, m: nat, i: nat, k: nat, max: nat, window: int, expiry: Expiry)
    requires m <= i < k <= |times| && Opens(times, m, window, expiry) && window > 0
    requires forall j :: m < j < k ==> Lives(times[j], times[m] + window, expiry)
    ensures RedisPassed(times, i, k, max, window, expiry)
         == (if max <= i - m then 0 else if max < k - m then max - (i - m) else k - i)
    decreases k
  {
    WindowIsFixed(times, m, k - 1, window, expiry);
    if i < k - 1 { PassedInWindow(times, m, i, k - 1, max, window, expiry); }
  }

  /** Within less than one window, Redis passes at most 2 * max - 1 requests: the rest of one window and the whole next. */
  lemma RedisPerWindow(times: seq<int>, i: nat, k: nat, max: nat, window: int, expiry: Expiry)
    requires i < k <= |times| && Ordered(times) && times[k - 1] - times[i] < window && max > 0
    ensures RedisPassed(times, i, k, max, window, expiry) <= 2 * max - 1
  {
    var m := LastOpening(times, i, window, expiry);
    var n := LastOpening(times, k - 1, window, expiry);
    if n <= i {
      PassedInWindow(times, n, i, k, max, window, expiry);
    } else {
      OneOpening(times, i, m, n, k, window, expiry);
      RedisPassedSplit(times, i, n, k, max, window, expiry);
      PassedInWindow(times, n, n, k, max, window, expiry);
      if m < i { PassedInWindow(times, m, i, n, max, window, expiry); }
    }
  }

  /** A stretch shorter than a window has at most one opening in it, so the requests before it are of the window before. */
  lemma OneOpening(times: seq<int>, i: nat, m: nat, n: nat, k: nat, window: int, expiry: Expiry)
    requires m <= i < n < k <= |times| && Ordered(times) && times[k - 1] - times[i] < window
    requires Opens(times, m, window, expiry) && forall j :: m < j <= i ==> Lives(times[j], times[m] + window, expiry)
    requires Opens(times, n, window, expiry) && forall j :: n < j < k ==> Lives(times[j], times[n] + window, expiry)
    ensures m < i && forall j :: m < j < n ==> Lives(times[j], times[m] + window, expiry)
  {
    if j :| m < j < n && !Lives(times[j], times[m] + window, expiry) {
      var q := FirstDead(times, m, j, window, expiry);
      assert q > i;
      NextWindowOpens(times, m, q, window, expiry);
      assert forall l :: q < l <= n ==> times[l] - times[q] < window;
      WindowIsFixed(times, q, n, window, expiry);
    } else {
      if m == i { WindowIsFixed(times, m, n, window, expiry); }
    }
  }

  lemma {:induction false} FirstDead(times: seq<int>, m: nat, j: nat, window: int, expiry: Expiry) returns (q: nat)
    requires m < j < |times| && !Lives(times[j], times[m] + window, expiry)
    ensures m < q <= j && !Lives(times[q], times[m] + window, expiry)
    ensures forall l :: m < l < q ==> Lives(times[l], times[m] + window, expiry)
    decreases j
  {
    if l :| m < l < j && !Lives(times[l], times[m] + window, expiry) { q := FirstDead(times, m, l, window, expiry); } else { q := j; }
  }

  /** One request at 0, `max` - 1 as late as its key lives, `max` in the millisecond after. */
  function EdgeTrace(max: nat, window: int, expiry: Expiry): (times: seq<int>)
    requires max > 0
  {
    var last := if expiry == AtOrBefore then window else window - 1;
    seq(2 * max, i => if i == 0 then 0 else if i < max then last else last + 1)
  }

  /** The bound is met. */
  lemma RedisPerWindowIsMet(max: nat, window: int, expiry: Expiry)
    requires max > 0 && window > 1
    ensures
      var times := EdgeTrace(max, window, expiry);
      Ordered(times) && times[|times| - 1] - times[1] < window && RedisPassed(times, 1, |times|, max, window, expiry) == 2 * max - 1
  {
    var times := EdgeTrace(max, window, expiry);
    RedisPassedSplit(times, 1, max, 2 * max, max, window, expiry);
    if max > 1 { PassedInWindow(times, 0, 1, max, max, window, expiry); }
    NextWindowOpens(times, 0, max, window, expiry);
    PassedInWindow(times, max, max, 2 * max, max, window, expiry);
  }

  /** A request exactly one window after the one before it, meeting a Redis key that lives through that instant. */
  predicate EdgeHit(times: seq<int>, k: nat, window: int, expiry: Expiry)
    requires k < |times|
  {
    k > 0 && times[k] == times[k - 1] + window && Alive(Redis(times, k, window, expiry), times[k], expiry)
  }

  lemma {:induction false} RedisUntil(times: seq<int>, k: nat, window: int, expiry: Expiry)
    requires 0 < k <= |times| && Ordered(times)
    ensures Redis(times, k, window, expiry).value.until <= times[k - 1] + window
    decreases k
  {
    if k > 1 { RedisUntil(times, k - 1, window, expiry); }
  }

  lemma {:induction false} RedisBehindMemory(times: seq<int>, k: nat, window: int, expiry: Expiry)
    requires 0 < k <= |times| && Ordered(times) && forall i :: 0 <= i < k ==> !EdgeHit(times, i, window, expiry)
    ensures Redis(times, k, window, expiry).value.count <= Memory(times, k, window).value.count
    decreases k
  {
    if k > 1 {
      RedisBehindMemory(times, k - 1, window, expiry);
      RedisUntil(times, k - 1, window, expiry);
      assert !EdgeHit(times, k - 1, window, expiry);
    }
  }

  /** The limiter refinement, exactly: the memory limiter is at least as strict as Redis on every request and for every
      maximum if and only if no request hits the edge of a Redis window. */
  lemma RefinesExactly(times: seq<int>, window: int, expiry: Expiry)
    requires Ordered(times) && window > 0
    ensures (forall k: nat, max: int :: k < |times| && MemoryAllows(times, k, max, window) ==> RedisAllows(times, k, max, window, expiry))
            <==> (forall k: nat :: k < |times| ==> !EdgeHit(times, k, window, expiry))
  {
    if forall k: nat :: k < |times| ==> !EdgeHit(times, k, window, expiry) {
      forall k: nat, max: int | k < |times| && MemoryAllows(times, k, max, window) ensures RedisAllows(times, k, max, window, expiry) {
        RedisBehindMemory(times, k + 1, window, expiry);
      }
    }
    if k: nat :| k < |times| && EdgeHit(times, k, window, expiry) {
      assert MemoryAllows(times, k, 1, window) && !RedisAllows(times, k, 1, window, expiry);
    }
  }

  /** Keys that are gone at their expiry millisecond never give an edge hit, so the refinement is unconditional. */
  lemma RefinesWhenKeysExpireOnTime(times: seq<int>, k: nat, max: int, window: int)
    requires Ordered(times) && window > 0 && k < |times| && MemoryAllows(times, k, max, window)
    ensures RedisAllows(times, k, max, window, Before)
  {
    forall i: nat | i < |times| ensures !EdgeHit(times, i, window, Before) {
      if i > 0 { RedisUntil(times, i, window, Before); }
    }
    RefinesExactly(times, window, Before);
  }

  /** Keys that live through it do: with one request per window allowed, the second of two requests one window apart
      passes in memory and is refused by Redis. */
  lemma EdgeBreaksRefinement(start: int, window: int)
    requires window > 0
    ensures MemoryAllows([start, start + window], 1, 1, window) && !RedisAllows([start, start + window], 1, 1, window, AtOrBefore)
  {
    var times := [start, start + window];
    assert Redis(times, 1, window, AtOrBefore) == Some(Counter(1, start + window));
    assert Memory(times, 1, window) == Some(Counter(1, start + window));
  }

  /** Requests closer together than a window count on without a reset. */
  lemma {:induction false} CountsOn(times: seq<int>, i: nat, k: nat, window: int)
    requires i <= k < |times| && forall m :: i < m <= k ==> times[m] - times[m - 1] < window
    ensures Memory(times, k + 1, window).value.count == Memory(times, i + 1, window).value.count + (k - i)
    decreases k
  {
    if i < k { CountsOn(times, i, k - 1, window); }
  }

  /** Requests i, .., k - 1 that the memory limiter allows. */
  function Allowed(times: seq<int>, i: nat, k: nat, max: int, window: int): nat
    requires i <= k <= |times|
    decreases k
  {
    if i == k then 0 else Allowed(times, i, k - 1, max, window) + (if MemoryAllows(times, k - 1, max, window) then 1 else 0)
  }

  lemma {:induction false} AllowedFrom(times: seq<int>, i: nat, k: nat, max: int, window: int)
    requires i < k <= |times| && Ordered(times) && times[k - 1] - times[i] < window
    ensures
      var first := Memory(times, i + 1, window).value.count;
      Allowed(times, i, k, max, window) <= k - i
      && Allowed(times, i, k, max, window) <= if max < first then 0 else max - first + 1
    decreases k
  {
    if i < k - 1 { AllowedFrom(times, i, k - 1, max, window); }
    CountsOn(times, i, k - 1, window);
  }

  /** In memory, at most `max` requests are allowed among any that fall within less than one window. */
  lemma AtMostMaxPerWindow(times: seq<int>, i: nat, k: nat, max: nat, window: int)
    requires i < k <= |times| && Ordered(times) && times[k - 1] - times[i] < window
    ensures Allowed(times, i, k, max, window) <= max
  {
    AllowedFrom(times, i, k, max, window);
  }

  /** The last request at or before `k` that came first or after a silence of at least a window. */
  lemma {:induction false} LastReset(times: seq<int>, k: nat, window: int) returns (m: nat)
    requires k < |times|
    ensures m <= k && (m == 0 || times[m] - times[m - 1] >= window)
    ensures forall i :: m < i <= k ==> times[i] - times[i - 1] < window
    decreases k
  {
    if k == 0 || times[k] - times[k - 1] >= window { m := k; } else { m := LastReset(times, k - 1, window); }
  }

  /** Exactly which requests the memory limiter allows: the first `max`, and any that had a silence of at least a window
      among the last `max` gaps before it. A client that keeps asking faster than that is never let in again. */
  lemma MemoryAllowsExactly(times: seq<int>, k: nat, max: nat, window: int)
    requires k < |times|
    ensures MemoryAllows(times, k, max, window)
            <==> max > 0 && (k < max || exists m :: 0 < m && k - max < m <= k && times[m] - times[m - 1] >= window)
  {
    var m := LastReset(times, k, window);
    CountsOn(times, m, k, window);
  }
}
