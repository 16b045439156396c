/** The bucket window in front of the auth routes (apps/api-gateway/src/auth/auth-rate-limit.middleware.ts). */
module AuthWindow {
  import opened Common

  datatype Bucket = Bucket(count: int, resetAt: int)

  predicate Opens(b: Option<Bucket>, now: int) { b.None? || b.value.resetAt <= now }

  predicate Passes(b: Option<Bucket>, now: int, limit: int) { Opens(b, now) || b.value.count < limit }

  function After(b: Option<Bucket>, now: int, limit: int, ttl: int): Option<Bucket> {
    if Opens(b, now) then Some(Bucket(1, now + ttl))
    else if b.value.count < limit then Some(b.value.(count := b.value.count + 1)) else b
  }

  class Middleware {
    var buckets: map<string, Bucket>

    constructor ()
      ensures buckets == map[]
    {
      buckets := map[];
    }

    function Of(key: string): Option<Bucket>
      reads this
    {
      if key in buckets then Some(buckets[key]) else None
    }

    method Use(key: string, now: int, limit: int, ttlSeconds: int) returns (passed: bool)
      modifies this
      ensures passed == Passes(old(Of(key)), now, limit)
      ensures Of(key) == After(old(Of(key)), now, limit, ttlSeconds * 1000)
      ensures forall k :: k != key ==> Of(k) == old(Of(k))
    {
      var ttl := ttlSeconds * 1000;
      if key !in buckets || buckets[key].resetAt <= now {
        buckets := buckets[key := Bucket(1, now + ttl)];
        return true;
      }
      if buckets[key].count >= limit { return false; }
      buckets := buckets[key := buckets[key].(count := buckets[key].count + 1)];
      return true;
    }
  }

  // ---- One key over a whole trace of request times ----

  /** The bucket after the first `k` requests. */
  function State(times: seq<int>, k: nat, limit: int, ttl: int): Option<Bucket>
    requires k <= |times|
  {
    if k == 0 then None else After(State(times, k - 1, limit, ttl), times[k - 1], limit, ttl)
  }

  predicate OpensAt(times: seq<int>, k: nat, limit: int, ttl: int)
    requires k < |times|
  {
    Opens(State(times, k, limit, ttl), times[k])
  }

  predicate PassesAt(times: seq<int>, k: nat, limit: int, ttl: int)
    requires k < |times|
  {
    Passes(State(times, k, limit, ttl), times[k], limit)
  }

  predicate Ordered(times: seq<int>) { forall i, j :: 0 <= i < j < |times| ==> times[i] <= times[j] }

  /** Requests i, .., k - 1 that pass. */
  function Passed(times: seq<int>, i: nat, k: nat, limit: int, ttl: int): nat
    requires i <= k <= |times|
    decreases k
  {
    if i == k then 0 else Passed(times, i, k - 1, limit, ttl) + (if PassesAt(times, k - 1, limit, ttl) then 1 else 0)
  }

  function AtLeastOne(limit: int): int { if limit < 1 then 1 else limit }

  /** A bucket holds between one pass and the limit. */
  lemma {:induction false} BucketBounds(times: seq<int>, k: nat, limit: int, ttl: int)
    requires 0 < k <= |times|
    ensures State(times, k, limit, ttl).Some? && 1 <= State(times, k, limit, ttl).value.count <= AtLeastOne(limit)
    decreases k
  {
    if k > 1 { BucketBounds(times, k - 1, limit, ttl); }
  }

  lemma {:induction false} ResetKept(times: seq<int>, i: nat, k: nat, limit: int, ttl: int)
    requires i < k <= |times| && OpensAt(times, i, limit, ttl) && forall m: nat :: i < m < k ==> !OpensAt(times, m, limit, ttl)
    ensures State(times, k, limit, ttl).Some? && State(times, k, limit, ttl).value.resetAt == times[i] + ttl
    decreases k
  {
    if k - 1 > i {
      assert !OpensAt(times, k - 1, limit, ttl);
      ResetKept(times, i, k - 1, limit, ttl);
    }
  }

  /** Two requests that open buckets are at least one ttl apart. */
  lemma {:induction false} OpeningsApart(times: seq<int>, i: nat, k: nat, limit: int, ttl: int)
    requires Ordered(times) && i < k < |times| && OpensAt(times, i, limit, ttl) && OpensAt(times, k, limit, ttl)
    ensures times[k] - times[i] >= ttl
    decreases k - i
  {
    if m: nat :| i < m < k && OpensAt(times, m, limit, ttl) {
      OpeningsApart(times, i, m, limit, ttl);
    } else {
      ResetKept(times, i, k, limit, ttl);
    }
  }

  /** Without an opening, each pass takes one place in the bucket. */
  lemma {:induction false} PassesFillBucket(times: seq<int>, i: nat, k: nat, limit: int, ttl: int)
    requires 0 < i <= k <= |times| && forall m: nat :: i <= m < k ==> !OpensAt(times, m, limit, ttl)
    ensures State(times, i, limit, ttl).Some? && State(times, k, limit, ttl).Some?
    ensures State(times, k, limit, ttl).value.count == State(times, i, limit, ttl).value.count + Passed(times, i, k, limit, ttl)
    decreases k
  {
    BucketBounds(times, i, limit, ttl);
    if i < k {
      PassesFillBucket(times, i, k - 1, limit, ttl);
      assert !OpensAt(times, k - 1, limit, ttl);
    }
  }

  lemma {:induction false} PassedSplit(times: seq<int>, i: nat, m: nat, k: nat, limit: int, ttl: int)
    requires i <= m <= k <= |times|
    ensures Passed(times, i, k, limit, ttl) == Passed(times, i, m, limit, ttl) + Passed(times, m, k, limit, ttl)
    decreases k
  {
    if m < k { PassedSplit(times, i, m, k - 1, limit, ttl); }
  }

  lemma OneBucketBound(times: seq<int>, m: nat, k: nat, limit: int, ttl: int)
    requires m < k <= |times| && OpensAt(times, m, limit, ttl) && forall n: nat :: m < n < k ==> !OpensAt(times, n, limit, ttl)
    ensures Passed(times, m, k, limit, ttl) <= AtLeastOne(limit)
  {
    PassedSplit(times, m, m + 1, k, limit, ttl);
    PassesFillBucket(times, m + 1, k, limit, ttl);
    BucketBounds(times, k, limit, ttl);
  }

  lemma NoBucketBound(times: seq<int>, i: nat, k: nat, limit: int, ttl: int)
    requires i <= k <= |times| && forall n: nat :: i <= n < k ==> !OpensAt(times, n, limit, ttl)
    ensures Passed(times, i, k, limit, ttl) <= AtLeastOne(limit) - 1
  {
    if i < k {
      assert !OpensAt(times, i, limit, ttl);
      PassesFillBucket(times, i, k, limit, ttl);
      BucketBounds(times, i, limit, ttl);
      BucketBounds(times, k, limit, ttl);
    }
  }

  /** The window bound: any requests that fall within less than one ttl pass at most 2 * limit - 1 times. */
  lemma WindowBound(times: seq<int>, i: nat, k: nat, limit: int, ttl: int)
    requires Ordered(times) && i < k <= |times| && times[k - 1] - times[i] < ttl
    ensures Passed(times, i, k, limit, ttl) <= 2 * AtLeastOne(limit) - 1
  {
    if m: nat :| i <= m < k && OpensAt(times, m, limit, ttl) {
      forall n: nat | i <= n < k && n != m ensures !OpensAt(times, n, limit, ttl) {
        if OpensAt(times, n, limit, ttl) {
          if n < m { OpeningsApart(times, n, m, limit, ttl); } else { OpeningsApart(times, m, n, limit, ttl); }
        }
      }
      PassedSplit(times, i, m, k, limit, ttl);
      OneBucketBound(times, m, k, limit, ttl);
      NoBucketBound(times, i, m, limit, ttl);
    } else {
      NoBucketBound(times, i, k, limit, ttl);
    }
  }

  // ---- The bound is met ----

  /** Requests i, .., k - 1 all come at `now`. */
  predicate Burst(times: seq<int>, i: nat, k: nat, now: int) { k <= |times| && forall m :: i <= m < k ==> times[m] == now }

  /** A burst into a bucket with room passes as a whole. */
  lemma {:induction false} BurstPasses(times: seq<int>, i: nat, k: nat, now: int, limit: int, ttl: int, count: int, resetAt: int)
    requires i <= k && Burst(times, i, k, now) && now < resetAt && count + (k - i) <= limit
    requires State(times, i, limit, ttl) == Some(Bucket(count, resetAt))
    ensures State(times, k, limit, ttl) == Some(Bucket(count + (k - i), resetAt)) && Passed(times, i, k, limit, ttl) == k - i
    decreases k
  {
    if i < k { BurstPasses(times, i, k - 1, now, limit, ttl, count, resetAt); }
  }

  /** One request at 0, `limit` - 1 in the last millisecond of its bucket, `limit` in the first of the next. */
  function EdgeTrace(limit: nat, ttl: int): (times: seq<int>)
    requires limit > 0
  {
    seq(2 * limit, i => if i == 0 then 0 else if i < limit then ttl - 1 else ttl)
  }

  /** All but the first of them fall within two milliseconds, and all 2 * limit - 1 pass: the bound is met. */
  lemma WindowBoundIsMet(limit: nat, ttl: int)
    requires limit > 0 && ttl > 1
    ensures
      var times := EdgeTrace(limit, ttl);
      Ordered(times) && times[|times| - 1] - times[1] < ttl && Passed(times, 1, |times|, limit, ttl) == 2 * limit - 1
  {
    var times := EdgeTrace(limit, ttl);
    assert State(times, 1, limit, ttl) == Some(Bucket(1, ttl));
    BurstPasses(times, 1, limit, ttl - 1, limit, ttl, 1, ttl);
    assert State(times, limit + 1, limit, ttl) == Some(Bucket(1, 2 * ttl));
    BurstPasses(times, limit + 1, 2 * limit, ttl, limit, ttl, 1, 2 * ttl);
    PassedSplit(times, 1, limit, 2 * limit, limit, ttl);
    PassedSplit(times, limit, limit + 1, 2 * limit, limit, ttl);
  }
}
