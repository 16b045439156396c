/** The consumer group on the trip-events stream: pending list, failure counters and dead-letter stream
    (services/ride/src/ride/outbox-consumer.service.ts). Entries are named by their position in the stream. */
module OutboxConsumer {
  import opened Common

  /** `delivered` is the group's read position; `routed` is history, not stored anywhere. */
  datatype Group = Group(delivered: nat, pending: set<nat>, failures: map<nat, nat>, dlq: seq<nat>, routed: set<nat>)

  const FRESH_GROUP := Group(0, {}, map[], [], {})

  function Failures(g: Group, e: nat): nat { if e in g.failures then g.failures[e] else 0 }

  function Without<V>(m: map<nat, V>, e: nat): map<nat, V> { map k | k in m && k != e :: m[k] }

  function Routed(g: Group, e: nat): Group {
    g.(pending := g.pending - {e}, failures := Without(g.failures, e), routed := g.routed + {e})
  }

  /** Lines 81-104 without a crash in between. */
  function Missed(g: Group, e: nat, maxRetries: nat): Group {
    var retries := Failures(g, e) + 1;
    if retries < maxRetries then g.(failures := g.failures[e := retries])
    else g.(dlq := g.dlq + [e], pending := g.pending - {e}, failures := Without(g.failures, e))
  }

  function Handled(g: Group, e: nat, ok: bool, maxRetries: nat): Group {
    if ok then Routed(g, e) else Missed(g, e, maxRetries)
  }

  /** One handling of an entry, with whether its routing succeeded. */
  datatype Handling = Handling(entry: nat, ok: bool)

  /** The first `k` handlings of `h`, in order. */
  function HandleAll(g: Group, h: seq<Handling>, k: nat, maxRetries: nat): Group
    requires k <= |h|
  {
    if k == 0 then g else Handled(HandleAll(g, h, k - 1, maxRetries), h[k - 1].entry, h[k - 1].ok, maxRetries)
  }

  function Span(lo: nat, hi: nat): (s: set<nat>)
    requires lo <= hi
    ensures forall e :: e in s <==> lo <= e < hi
    decreases hi - lo
  {
    if lo == hi then {} else {lo} + Span(lo + 1, hi)
  }

  /** The new entries of a group read. */
  function Ids(from: nat, upTo: nat): (ids: seq<nat>)
    requires from <= upTo
    ensures |ids| == upTo - from && forall k :: 0 <= k < |ids| ==> ids[k] == from + k
  {
    seq(upTo - from, k requires 0 <= k => from + k)
  }

  function Delivered(g: Group, upTo: nat): Group
    requires g.delivered <= upTo
  {
    g.(delivered := upTo, pending := g.pending + Span(g.delivered, upTo))
  }

  ghost predicate WellFormed(g: Group, maxRetries: nat) {
    && (forall e :: e in g.pending ==> e < g.delivered)
    && (forall e :: e in g.failures ==> e in g.pending && 1 <= g.failures[e] < maxRetries)
  }

  /** The rows of an XPENDING answer: the first `limit` pending entries in id order. */
  ghost predicate IsPendingPage(ids: seq<nat>, pending: set<nat>, limit: nat) {
    && |ids| <= limit
    && (forall k :: 0 <= k < |ids| ==> ids[k] in pending)
    && (forall j, k :: 0 <= j < k < |ids| ==> ids[j] < ids[k])
    && (forall e :: e in pending && e !in ids ==> |ids| == limit && forall k :: 0 <= k < |ids| ==> ids[k] < e)
  }

  function Pair(ids: seq<nat>, ok: nat -> bool): (h: seq<Handling>)
    ensures |h| == |ids| && forall k :: 0 <= k < |ids| ==> h[k] == Handling(ids[k], ok(ids[k]))
  {
    seq(|ids|, k requires 0 <= k < |ids| => Handling(ids[k], ok(ids[k])))
  }

  class Consumer {
    const maxRetries: nat
    var delivered: nat
    var pending: set<nat>
    var failures: map<nat, nat>
    var dlq: seq<nat>
    ghost var routed: set<nat>

    ghost predicate Valid()
      reads this
    {
      maxRetries >= 1 && WellFormed(State(), maxRetries)
    }

    ghost function State(): Group
      reads this
    {
      Group(delivered, pending, failures, dlq, routed)
    }

    constructor (maxRetries: nat)
      requires maxRetries >= 1
      ensures Valid() && State() == FRESH_GROUP && this.maxRetries == maxRetries
    {
      this.maxRetries := maxRetries;
      delivered, pending, failures, dlq, routed := 0, {}, map[], [], {};
    }

    method HandleFailure(id: nat)
      requires Valid() && id in pending
      modifies this
      ensures Valid() && State() == Missed(old(State()), id, maxRetries)
    {
      var retries := (if id in failures then failures[id] else 0) + 1;
      failures := failures[id := retries];
      if retries < maxRetries { return; }
      dlq := dlq + [id];
      pending := pending - {id};
      failures := Without(failures, id);
      assert failures == Without(old(failures), id);
    }

    method ConsumeEntry(id: nat, ok: bool)
      requires Valid() && id in pending
      modifies this
      ensures Valid() && State() == Handled(old(State()), id, ok, maxRetries)
    {
      if ok {
        pending := pending - {id};
        failures := Without(failures, id);
        routed := routed + {id};
      } else {
        HandleFailure(id);
      }
    }

    /** Lines 106-122. */
    method ConsumeEntries(entries: seq<nat>, ok: nat -> bool)
      requires Valid()
      requires forall k :: 0 <= k < |entries| ==> entries[k] in pending
      requires forall j, k :: 0 <= j < k < |entries| ==> entries[j] != entries[k]
      modifies this
      ensures Valid() && State() == HandleAll(old(State()), Pair(entries, ok), |entries|, maxRetries)
    {
      var k := 0;
      ghost var h := Pair(entries, ok);
      while k < |entries|
        invariant 0 <= k <= |entries| && Valid() && State() == HandleAll(old(State()), h, k, maxRetries)
        invariant forall j :: k <= j < |entries| ==> entries[j] in pending
      {
        ConsumeEntry(entries[k], ok(entries[k]));
        k := k + 1;
      }
    }

    /** Lines 149-171: up to `count` new entries become pending and are handled in order. */
    method ConsumeBatch(count: nat, streamLength: nat, ok: nat -> bool)
      requires Valid() && delivered <= streamLength
      modifies this
      ensures Valid()
      ensures
        var upTo := if old(delivered) + count <= streamLength then old(delivered) + count else streamLength;
        && delivered == upTo
        && State() == HandleAll(Delivered(old(State()), upTo), Pair(Ids(old(delivered), upTo), ok), upTo - old(delivered), maxRetries)
    {
      var from := delivered;
      var upTo := if from + count <= streamLength then from + count else streamLength;
      pending := pending + Span(from, upTo);
      delivered := upTo;
      var ids := Ids(from, upTo);
      HandleAllKeepsPosition(State(), Pair(ids, ok), |ids|, maxRetries);
      ConsumeEntries(ids, ok);
    }

    method PendingPage(limit: nat) returns (ids: seq<nat>)
      requires Valid()
      ensures IsPendingPage(ids, pending, limit)
    {
      ids := [];
      var e := 0;
      while e < delivered && |ids| < limit
        invariant 0 <= e <= delivered && |ids| <= limit
        invariant forall k :: 0 <= k < |ids| ==> ids[k] in pending && ids[k] < e
        invariant forall j, k :: 0 <= j < k < |ids| ==> ids[j] < ids[k]
        invariant forall x :: x in pending && x < e ==> x in ids
      {
        if e in pending {
          ids := ids + [e];
          assert ids[|ids| - 1] == e && forall x :: x in ids[..|ids| - 1] ==> x in ids;
        }
        e := e + 1;
      }
    }

    /** Lines 124-147: the stale entries of the first page are claimed and handled. */
    method RecoverPending(limit: nat, idle: nat -> nat, idleMs: nat, ok: nat -> bool) returns (claimed: seq<nat>)
      requires Valid()
      modifies this
      ensures Valid() && State() == HandleAll(old(State()), Pair(claimed, ok), |claimed|, maxRetries)
      ensures forall e :: e in claimed ==> e in old(pending) && idle(e) >= idleMs
      ensures |old(pending)| <= limit ==> forall e :: e in old(pending) && idle(e) >= idleMs ==> e in claimed
    {
      var page := PendingPage(limit);
      StaleOfPage(page, pending, limit, idle, idleMs);
      claimed := ClaimStale(page, idle, idleMs);
      ConsumeEntries(claimed, ok);
    }

    method ClaimStale(page: seq<nat>, idle: nat -> nat, idleMs: nat) returns (claimed: seq<nat>)
      ensures claimed == Stale(page, |page|, idle, idleMs)
    {
      claimed := [];
      var k := 0;
      while k < |page|
        invariant 0 <= k <= |page| && claimed == Stale(page, k, idle, idleMs)
      {
        if idle(page[k]) >= idleMs { claimed := claimed + [page[k]]; }
        k := k + 1;
      }
    }
  }

  /** The entries idle for `idleMs` or longer among the first `k` of a page. */
  function Stale(page: seq<nat>, k: nat, idle: nat -> nat, idleMs: nat): seq<nat>
    requires k <= |page|
  {
    if k == 0 then []
    else if idle(page[k - 1]) >= idleMs then Stale(page, k - 1, idle, idleMs) + [page[k - 1]]
    else Stale(page, k - 1, idle, idleMs)
  }

  lemma {:induction false} StaleExact(page: seq<nat>, k: nat, idle: nat -> nat, idleMs: nat)
    requires k <= |page| && forall i, j :: 0 <= i < j < |page| ==> page[i] < page[j]
    ensures
      var claimed := Stale(page, k, idle, idleMs);
      && (forall m :: 0 <= m < |claimed| ==> claimed[m] in page && idle(claimed[m]) >= idleMs && (k < |page| ==> claimed[m] < page[k]))
      && (forall i, j :: 0 <= i < j < |claimed| ==> claimed[i] < claimed[j])
      && (forall j :: 0 <= j < k && idle(page[j]) >= idleMs ==> page[j] in claimed)
  {
    if k > 0 { StaleExact(page, k - 1, idle, idleMs); }
  }

  lemma StaleOfPage(page: seq<nat>, pending: set<nat>, limit: nat, idle: nat -> nat, idleMs: nat)
    requires IsPendingPage(page, pending, limit)
    ensures
      var claimed := Stale(page, |page|, idle, idleMs);
      && (forall m :: 0 <= m < |claimed| ==> claimed[m] in pending && idle(claimed[m]) >= idleMs)
      && (forall i, j :: 0 <= i < j < |claimed| ==> claimed[i] != claimed[j])
      && (|pending| <= limit ==> forall e :: e in pending && idle(e) >= idleMs ==> e in claimed)
  {
    StaleExact(page, |page|, idle, idleMs);
    if |pending| <= limit { WholePage(page, pending, limit); }
  }

  lemma {:induction false} HandleAllKeepsPosition(g: Group, h: seq<Handling>, k: nat, maxRetries: nat)
    requires k <= |h|
    ensures HandleAll(g, h, k, maxRetries).delivered == g.delivered
  {
    if k > 0 { HandleAllKeepsPosition(g, h, k - 1, maxRetries); }
  }

  /** A page that is not cut off by its limit holds every pending entry. */
  lemma WholePage(ids: seq<nat>, pending: set<nat>, limit: nat)
    requires IsPendingPage(ids, pending, limit) && |pending| <= limit
    ensures forall e :: e in pending ==> e in ids
  {
    if e :| e in pending && e !in ids {
      var listed := ListedBelow(ids, |ids|);
      assert e !in listed;
      SubsetSize(listed + {e}, pending);
    }
  }

  lemma {:induction false} ListedBelow(ids: seq<nat>, k: nat) returns (listed: set<nat>)
    requires k <= |ids| && forall i, j :: 0 <= i < j < |ids| ==> ids[i] < ids[j]
    ensures |listed| == k && (forall x :: x in listed ==> x in ids) && forall i :: k <= i < |ids| ==> ids[i] !in listed
  {
    if k == 0 { return {}; }
    listed := ListedBelow(ids, k - 1);
    listed := listed + {ids[k - 1]};
  }

  // ---- Bounded retries ----

  /** How many more failures the pending entries below `n` can take before all of them are gone. */
  function Budget(g: Group, n: nat, maxRetries: nat): int {
    if n == 0 then 0
    else Budget(g, n - 1, maxRetries) + if n - 1 in g.pending then maxRetries - Failures(g, n - 1) else 0
  }

  /** Each of the first `k` handlings is of an entry then pending, as when nothing else runs on the group. */
  predicate Sequential(g: Group, h: seq<Handling>, k: nat, maxRetries: nat)
    requires k <= |h|
  {
    k == 0 || (Sequential(g, h, k - 1, maxRetries) && h[k - 1].entry in HandleAll(g, h, k - 1, maxRetries).pending)
  }

  lemma {:induction false} BudgetStep(g: Group, e: nat, ok: bool, n: nat, maxRetries: nat)
    requires WellFormed(g, maxRetries) && maxRetries >= 1 && e in g.pending
    ensures
      var t := Handled(g, e, ok, maxRetries);
      if e < n then Budget(t, n, maxRetries) <= Budget(g, n, maxRetries) - 1 else Budget(t, n, maxRetries) == Budget(g, n, maxRetries)
  {
    if n > 0 { BudgetStep(g, e, ok, n - 1, maxRetries); }
  }

  lemma {:induction false} BudgetBounds(g: Group, n: nat, maxRetries: nat)
    requires WellFormed(g, maxRetries) && maxRetries >= 1
    ensures Budget(g, n, maxRetries) >= 0
    ensures Budget(g, n, maxRetries) == 0 ==> forall e :: e in g.pending ==> e >= n
  {
    if n > 0 { BudgetBounds(g, n - 1, maxRetries); }
  }

  /** Each handling uses up at least one unit of the budget and keeps every counter below the limit. */
  lemma {:induction false} HandlingsSpendBudget(g: Group, h: seq<Handling>, k: nat, maxRetries: nat)
    requires WellFormed(g, maxRetries) && maxRetries >= 1 && k <= |h| && Sequential(g, h, k, maxRetries)
    ensures WellFormed(HandleAll(g, h, k, maxRetries), maxRetries)
    ensures Budget(HandleAll(g, h, k, maxRetries), g.delivered, maxRetries) <= Budget(g, g.delivered, maxRetries) - k
  {
    if k > 0 {
      HandlingsSpendBudget(g, h, k - 1, maxRetries);
      HandleAllKeepsPosition(g, h, k - 1, maxRetries);
      BudgetStep(HandleAll(g, h, k - 1, maxRetries), h[k - 1].entry, h[k - 1].ok, g.delivered, maxRetries);
    }
  }

  /** A finite pending list drains: no sequence of handlings outlasts the budget, and one that spends it
      all leaves nothing pending. */
  lemma PendingDrains(g: Group, h: seq<Handling>, maxRetries: nat)
    requires WellFormed(g, maxRetries) && maxRetries >= 1 && Sequential(g, h, |h|, maxRetries)
    ensures |h| <= Budget(g, g.delivered, maxRetries)
    ensures |h| == Budget(g, g.delivered, maxRetries) ==> HandleAll(g, h, |h|, maxRetries).pending == {}
  {
    HandlingsSpendBudget(g, h, |h|, maxRetries);
    HandleAllKeepsPosition(g, h, |h|, maxRetries);
    BudgetBounds(HandleAll(g, h, |h|, maxRetries), g.delivered, maxRetries);
  }

  /** Failed routings of `e` among the first `k` handlings. */
  function Misses(h: seq<Handling>, k: nat, e: nat): nat
    requires k <= |h|
  {
    if k == 0 then 0 else Misses(h, k - 1, e) + if h[k - 1] == Handling(e, false) then 1 else 0
  }

  function Parked(dlq: seq<nat>, e: nat): nat {
    if dlq == [] then 0 else Parked(dlq[..|dlq| - 1], e) + if dlq[|dlq| - 1] == e then 1 else 0
  }

  lemma ParkedSnoc(dlq: seq<nat>, x: nat, e: nat)
    ensures Parked(dlq + [x], e) == Parked(dlq, e) + if x == e then 1 else 0
  {
    assert (dlq + [x])[..|dlq|] == dlq;
  }

  /** Where a once clean pending entry stands after `misses` failed routings of it. */
  ghost predicate Outcome(g: Group, e: nat, misses: nat, maxRetries: nat) {
    if e in g.pending then Failures(g, e) == misses < maxRetries && Parked(g.dlq, e) == 0 && e !in g.routed
    else if e in g.routed then misses < maxRetries && Parked(g.dlq, e) == 0
    else misses == maxRetries && Parked(g.dlq, e) == 1
  }

  lemma OutcomeStep(g: Group, e: nat, misses: nat, last: Handling, maxRetries: nat)
    requires WellFormed(g, maxRetries) && maxRetries >= 1 && last.entry in g.pending && Outcome(g, e, misses, maxRetries)
    ensures Outcome(Handled(g, last.entry, last.ok, maxRetries), e, misses + if last == Handling(e, false) then 1 else 0, maxRetries)
  {
    ParkedSnoc(g.dlq, last.entry, e);
  }

  /** An entry that starts pending with a clean counter is, at every later point, either still pending with as many
      counted failures as failed routings, below the limit; or routed once, with fewer failed routings than the limit;
      or in the dead-letter stream once, after exactly `maxRetries` failed routings. */
  lemma {:induction false} EntryOutcome(g: Group, h: seq<Handling>, k: nat, e: nat, maxRetries: nat)
    requires WellFormed(g, maxRetries) && maxRetries >= 1 && k <= |h| && Sequential(g, h, k, maxRetries)
    requires e in g.pending && e !in g.failures && Parked(g.dlq, e) == 0 && e !in g.routed
    ensures Outcome(HandleAll(g, h, k, maxRetries), e, Misses(h, k, e), maxRetries)
  {
    if k > 0 {
      EntryOutcome(g, h, k - 1, e, maxRetries);
      HandlingsSpendBudget(g, h, k - 1, maxRetries);
      OutcomeStep(HandleAll(g, h, k - 1, maxRetries), e, Misses(h, k - 1, e), h[k - 1], maxRetries);
    }
  }
}
