/** What an undisturbed batch achieves from any state that other instances have left: nothing stays stuck behind a crash. */
module OutboxProgress {
  import opened Common
  import opened OutboxPublisher
  import opened OutboxProtocol

  /** Nobody holds the row, or somebody has held it since before `staleBefore`. */
  predicate Free(row: Row, staleBefore: int) {
    row.publishedAt.None? && (row.lockedAt.None? || row.lockedAt.value < staleBefore)
  }

  predicate Held(row: Row, who: Instance, since: int) {
    row.publishedAt.None? && row.lockedBy == Some(who) && row.lockedAt == Some(since)
  }

  ghost predicate Apart(ids: seq<nat>) { forall j, k :: 0 <= j < k < |ids| ==> ids[j] != ids[k] }

  /** The log says so of row `r` since the first `from` events. */
  ghost predicate LogsClaim(log: seq<Event>, from: nat, r: nat, b: nat, c: Batch, steal: bool) {
    exists k :: from <= k < |log| && log[k] == Claimed(r, b, c.who, c.now, c.lease, steal)
  }

  lemma TakeOne(s: State, b: nat, r: nat)
    requires b in s.batches && r < |s.rows| && Free(s.rows[r], s.batches[b].now - s.batches[b].lease)
    ensures
      var c, t := s.batches[b], ClaimOne(s, b, r);
      && Held(t.rows[r], c.who, c.now) && t.rows[r].attempts == s.rows[r].attempts && (forall q :: 0 <= q < |s.rows| && q != r ==> t.rows[q] == s.rows[q])
      && t.log == s.log + [Claimed(r, b, c.who, c.now, c.lease, s.rows[r].lockedAt.Some?)]
  {
  }

  lemma {:induction false} ClaimEachLogs(s: State, b: nat, ids: seq<nat>)
    requires b in s.batches
    ensures |s.log| <= |ClaimEach(s, b, ids).log| && ClaimEach(s, b, ids).log[..|s.log|] == s.log
    decreases |ids|
  {
    if ids != [] { ClaimEachLogs(ClaimOne(s, b, ids[0]), b, ids[1..]); }
  }

  lemma TailApart(ids: seq<nat>)
    requires Apart(ids) && ids != []
    ensures Apart(ids[1..]) && ids[0] !in ids[1..] && forall r :: r in ids && r != ids[0] ==> r in ids[1..]
  {
    assert ids == [ids[0]] + ids[1..];
  }

  /** The update takes every row of the list, and logs whether the lock was another's. */
  lemma {:induction false} TakeEach(s: State, b: nat, ids: seq<nat>, r: nat)
    requires b in s.batches && Apart(ids) && r in ids
    requires forall q :: q in ids ==> q < |s.rows| && Free(s.rows[q], s.batches[b].now - s.batches[b].lease)
    ensures
      var c, t := s.batches[b], ClaimEach(s, b, ids);
      && Held(t.rows[r], c.who, c.now) && t.rows[r].attempts == s.rows[r].attempts
      && LogsClaim(t.log, |s.log|, r, b, c, s.rows[r].lockedAt.Some?)
    decreases |ids|
  {
    var q, u, c := ids[0], ClaimOne(s, b, ids[0]), s.batches[b];
    TailApart(ids);
    assert q in ids;
    TakeOne(s, b, q);
    if r == q {
      LeftAlone(u, b, ids[1..], r);
      ClaimEachLogs(u, b, ids[1..]);
      assert u.log[|s.log|] == Claimed(r, b, c.who, c.now, c.lease, s.rows[r].lockedAt.Some?);
      assert ClaimEach(s, b, ids).log[|s.log|] == u.log[|s.log|];
    } else {
      forall p | p in ids[1..] ensures p < |u.rows| && Free(u.rows[p], c.now - c.lease) { assert p in ids && p != q; }
      TakeEach(u, b, ids[1..], r);
      var k :| |u.log| <= k < |ClaimEach(u, b, ids[1..]).log|
               && ClaimEach(u, b, ids[1..]).log[k] == Claimed(r, b, c.who, c.now, c.lease, s.rows[r].lockedAt.Some?);
      assert k >= |s.log|;
    }
  }

  lemma {:induction false} LeftAlone(s: State, b: nat, ids: seq<nat>, r: nat)
    requires b in s.batches && r < |s.rows| && r !in ids
    ensures ClaimEach(s, b, ids).rows[r] == s.rows[r]
    decreases |ids|
  {
    if ids != [] { LeftAlone(ClaimOne(s, b, ids[0]), b, ids[1..], r); }
  }

  /** Candidate list, update and read-back, with nobody in between. */
  function Lease(who: Instance, lease: nat, now: int, limit: nat, ids: seq<nat>, b: nat): seq<Action> {
    [Select(who, lease, now, limit, ids)] + ([Claim(b)] + ([Hold(b)] + []))
  }

  lemma RunStep(s: State, a: Action, rest: seq<Action>)
    ensures Run(s, [a] + rest) == Run(Next(s, a), rest)
  {
    assert ([a] + rest)[1..] == rest;
  }

  lemma TakesAll(s: State, b: nat)
    requires b in s.batches && s.batches[b].stage.Selected? && s.batches[b].ids != [] && Apart(s.batches[b].ids)
    requires forall q :: q in s.batches[b].ids ==> q < |s.rows| && Free(s.rows[q], s.batches[b].now - s.batches[b].lease)
    ensures
      var c, t := s.batches[b], Next(s, Claim(b));
      && t.stream == s.stream && t.batches == s.batches[b := c.(stage := Holding)] && |t.rows| == |s.rows|
      && (forall q :: 0 <= q < |s.rows| && q !in c.ids ==> t.rows[q] == s.rows[q])
      && forall r :: r in c.ids ==>
           && r < |t.rows| && Held(t.rows[r], c.who, c.now) && t.rows[r].attempts == s.rows[r].attempts
           && LogsClaim(t.log, |s.log|, r, b, c, s.rows[r].lockedAt.Some?)
  {
    var ids := s.batches[b].ids;
    forall r | r in ids
      ensures
        var c, t := s.batches[b], ClaimEach(s, b, ids);
        && r < |t.rows| && Held(t.rows[r], c.who, c.now) && t.rows[r].attempts == s.rows[r].attempts
        && LogsClaim(t.log, |s.log|, r, b, c, s.rows[r].lockedAt.Some?)
    {
      TakeEach(s, b, ids, r);
    }
    forall q | 0 <= q < |s.rows| && q !in ids ensures ClaimEach(s, b, ids).rows[q] == s.rows[q] { LeftAlone(s, b, ids, q); }
    assert ids[0] in ids;
  }

  lemma Holds(s: State, b: nat)
    requires b in s.batches && s.batches[b].stage.Holding? && s.batches[b].ids != []
    requires forall r :: r in s.batches[b].ids ==> r < |s.rows| && Held(s.rows[r], s.batches[b].who, s.batches[b].now)
    ensures Next(s, Hold(b)) == SetStage(s, b, Sending(s.batches[b].ids))
  {
    var c := s.batches[b];
    forall k | 0 <= k < |c.ids| ensures c.ids[k] < |s.rows| && HeldSince(s.rows[c.ids[k]], c.now, c.who) { assert c.ids[k] in c.ids; }
    ReadBackOfOwnClaim(s.rows, c.ids, c.now, c.who);
  }

  /** From any state whatever: a batch that runs undisturbed takes every candidate, those whose holder crashed more than a
      lease ago with a steal in the log, and goes on to send exactly the candidates. */
  lemma StaleLeaseIsTaken(s: State, who: Instance, lease: nat, now: int, limit: nat, ids: seq<nat>, r: nat)
    requires ids != [] && IsCandidateList(ids, s.rows, limit, now - lease)
    requires r < |s.rows| && Free(s.rows[r], now - lease)
    ensures
      var b := s.next;
      var t := Run(s, Lease(who, lease, now, limit, ids, b));
      && b in t.batches && t.batches[b] == Batch(who, lease, now, ids, Sending(ids)) && t.stream == s.stream
      && |t.rows| == |s.rows|
      && (forall q :: q in ids ==> q < |t.rows| && Held(t.rows[q], who, now) && t.rows[q].attempts == s.rows[q].attempts)
      && (forall q :: 0 <= q < |s.rows| && q !in ids ==> t.rows[q] == s.rows[q])
      && (r in ids || (|ids| == limit && forall q :: q in ids ==> q < r))
      && (r in ids ==> LogsClaim(t.log, |s.log|, r, b, t.batches[b], s.rows[r].lockedAt.Some?))
  {
    var b := s.next;
    var c := Batch(who, lease, now, ids, Selected);
    CandidatesMean(ids, s.rows, limit, now - lease);
    var s1 := Next(s, Select(who, lease, now, limit, ids));
    assert s1.batches[b] == c && s1.rows == s.rows && s1.log == s.log && s1.stream == s.stream;
    TakesAll(s1, b);
    var s2 := Next(s1, Claim(b));
    Holds(s2, b);
    RunStep(s, Select(who, lease, now, limit, ids), [Claim(b)] + ([Hold(b)] + []));
    RunStep(s1, Claim(b), [Hold(b)] + []);
    RunStep(s2, Hold(b), []);
  }

  // ---- And sends it ----

  /** One row of the batch, with what its append and its update come to. */
  function Attempt(b: nat, at: int, d: Delivery): seq<Action> {
    match d
    case Delivered => [Append(b)] + ([Mark(b, at)] + [])
    case AppendedThenError => [Append(b)] + ([MarkRefused(b)] + ([Release(b)] + []))
    case NotAppended => [AppendRefused(b)] + ([Release(b)] + [])
  }

  function AttemptAll(b: nat, todo: seq<nat>, at: nat -> int, outcome: nat -> Delivery): seq<Action> {
    if todo == [] then [] else Attempt(b, at(todo[0]), outcome(todo[0])) + AttemptAll(b, todo[1..], at, outcome)
  }

  function Sent(b: nat, todo: seq<nat>, outcome: nat -> Delivery): seq<Entry> {
    if todo == [] then []
    else (if outcome(todo[0]).NotAppended? then [] else [Entry(todo[0], b)]) + Sent(b, todo[1..], outcome)
  }

  ghost predicate MaySend(s: State, b: nat, todo: seq<nat>) {
    && (todo != [] ==> b in s.batches && s.batches[b].stage == Sending(todo)) && Apart(todo)
    && forall q :: q in todo ==> q < |s.rows| && s.rows[q].publishedAt.None? && s.rows[q].lockedBy == Some(s.batches[b].who)
  }

  lemma {:induction false} RunConcat(s: State, a: seq<Action>, b: seq<Action>)
    ensures Run(s, a + b) == Run(Run(s, a), b)
    decreases |a|
  {
    if a == [] {
      assert [] + b == b;
    } else {
      assert (a + b)[1..] == a[1..] + b;
      RunConcat(Next(s, a[0]), a[1..], b);
    }
  }

  /** The row is settled, the stream has an entry of it unless it was refused, and the batch goes on with the rest. */
  ghost predicate Attempted(s: State, t: State, b: nat, at: int, d: Delivery)
    requires b in s.batches && s.batches[b].stage.Sending? && s.batches[b].stage.todo != [] && s.batches[b].stage.todo[0] < |s.rows|
  {
    var todo := s.batches[b].stage.todo;
    && t.rows == s.rows[todo[0] := Settled(s.rows[todo[0]], at, d)]
    && t.stream == s.stream + (if d.NotAppended? then [] else [Entry(todo[0], b)])
    && (todo[1..] != [] ==> b in t.batches && t.batches[b] == s.batches[b].(stage := Sending(todo[1..])))
  }

  lemma DeliveredOne(s: State, b: nat, todo: seq<nat>, at: int)
    requires MaySend(s, b, todo) && todo != []
    ensures todo[0] in todo && Attempted(s, Run(s, Attempt(b, at, Delivered)), b, at, Delivered)
  {
    assert todo[0] in todo;
    RunStep(s, Append(b), [Mark(b, at)] + []);
    RunStep(Next(s, Append(b)), Mark(b, at), []);
  }

  lemma ErredOne(s: State, b: nat, todo: seq<nat>, at: int)
    requires MaySend(s, b, todo) && todo != []
    ensures todo[0] in todo && Attempted(s, Run(s, Attempt(b, at, AppendedThenError)), b, at, AppendedThenError)
  {
    assert todo[0] in todo;
    var u := Next(s, Append(b));
    RunStep(s, Append(b), [MarkRefused(b)] + ([Release(b)] + []));
    RunStep(u, MarkRefused(b), [Release(b)] + []);
    RunStep(Next(u, MarkRefused(b)), Release(b), []);
  }

  lemma RefusedOne(s: State, b: nat, todo: seq<nat>, at: int)
    requires MaySend(s, b, todo) && todo != []
    ensures todo[0] in todo && Attempted(s, Run(s, Attempt(b, at, NotAppended)), b, at, NotAppended)
  {
    assert todo[0] in todo;
    RunStep(s, AppendRefused(b), [Release(b)] + []);
    RunStep(Next(s, AppendRefused(b)), Release(b), []);
    assert s.stream + [] == s.stream;
  }

  lemma AttemptOne(s: State, b: nat, todo: seq<nat>, at: int, d: Delivery)
    requires MaySend(s, b, todo) && todo != []
    ensures todo[0] in todo && Attempted(s, Run(s, Attempt(b, at, d)), b, at, d)
  {
    match d
    case Delivered => DeliveredOne(s, b, todo, at);
    case AppendedThenError => ErredOne(s, b, todo, at);
    case NotAppended => RefusedOne(s, b, todo, at);
  }

  /** A lost answer to the append comes to an error after it; one to the mark leaves the row marked all the same. */
  lemma LostAnswers(s: State, b: nat, todo: seq<nat>, at: int)
    requires MaySend(s, b, todo) && todo != []
    ensures todo[0] in todo && Attempted(s, Next(Next(s, AppendUnseen(b)), Release(b)), b, at, AppendedThenError)
    ensures Attempted(s, Next(Next(Next(s, Append(b)), MarkUnseen(b, at)), Release(b)), b, at, Delivered)
  {
    assert todo[0] in todo;
  }

  lemma StillSends(s: State, t: State, b: nat, todo: seq<nat>, at: int, d: Delivery)
    requires MaySend(s, b, todo) && todo != [] && todo[0] in todo && Attempted(s, t, b, at, d)
    ensures MaySend(t, b, todo[1..])
  {
    TailApart(todo);
    forall q | q in todo[1..] ensures q < |t.rows| && t.rows[q] == s.rows[q] { assert q in todo && q != todo[0]; }
    forall q | q in todo[1..] ensures t.rows[q].publishedAt.None? && t.rows[q].lockedBy == Some(t.batches[b].who) { assert q in todo; }
  }

  /** Every row of the list is settled, and no other. */
  ghost predicate AllSettled(before: seq<Row>, after: seq<Row>, todo: seq<nat>, at: nat -> int, outcome: nat -> Delivery) {
    |after| == |before|
    && forall r :: 0 <= r < |before| ==> after[r] == if r in todo then Settled(before[r], at(r), outcome(r)) else before[r]
  }

  lemma OneMoreSettled(before: seq<Row>, after: seq<Row>, todo: seq<nat>, at: nat -> int, outcome: nat -> Delivery)
    requires Apart(todo) && todo != [] && todo[0] < |before|
    requires AllSettled(before[todo[0] := Settled(before[todo[0]], at(todo[0]), outcome(todo[0]))], after, todo[1..], at, outcome)
    ensures AllSettled(before, after, todo, at, outcome)
  {
    TailApart(todo);
    assert todo[0] in todo;
  }

  lemma OneMoreSent(s: State, t: State, end: State, b: nat, todo: seq<nat>, at: nat -> int, outcome: nat -> Delivery)
    requires MaySend(s, b, todo) && todo != [] && todo[0] in todo && Attempted(s, t, b, at(todo[0]), outcome(todo[0]))
    requires AllSettled(t.rows, end.rows, todo[1..], at, outcome)
    ensures AllSettled(s.rows, end.rows, todo, at, outcome)
  {
    OneMoreSettled(s.rows, end.rows, todo, at, outcome);
  }

  lemma StreamsJoin(a: seq<Entry>, b: nat, todo: seq<nat>, outcome: nat -> Delivery)
    requires todo != []
    ensures a + (if outcome(todo[0]).NotAppended? then [] else [Entry(todo[0], b)]) + Sent(b, todo[1..], outcome) == a + Sent(b, todo, outcome)
  {
  }

  lemma {:induction false} SendsAll(s: State, b: nat, todo: seq<nat>, at: nat -> int, outcome: nat -> Delivery)
    requires MaySend(s, b, todo)
    ensures AllSettled(s.rows, Run(s, AttemptAll(b, todo, at, outcome)).rows, todo, at, outcome)
    ensures Run(s, AttemptAll(b, todo, at, outcome)).stream == s.stream + Sent(b, todo, outcome)
    decreases |todo|
  {
    if todo != [] {
      var attempt := Attempt(b, at(todo[0]), outcome(todo[0]));
      var t := Run(s, attempt);
      AttemptOne(s, b, todo, at(todo[0]), outcome(todo[0]));
      StillSends(s, t, b, todo, at(todo[0]), outcome(todo[0]));
      SendsAll(t, b, todo[1..], at, outcome);
      RunConcat(s, attempt, AttemptAll(b, todo[1..], at, outcome));
      OneMoreSent(s, t, Run(t, AttemptAll(b, todo[1..], at, outcome)), b, todo, at, outcome);
      StreamsJoin(s.stream, b, todo, outcome);
    } else {
      assert s.stream + [] == s.stream;
    }
  }

  /** An undisturbed batch of the protocol comes to the call that `Publisher.PublishPendingBatch` is proved to make. */
  lemma BatchIsItsSteps(s: State, who: Instance, lease: nat, now: int, limit: nat, ids: seq<nat>, at: nat -> int, outcome: nat -> Delivery)
    requires ids != [] && IsCandidateList(ids, s.rows, limit, now - lease)
    ensures
      var t := Run(Run(s, Lease(who, lease, now, limit, ids, s.next)), AttemptAll(s.next, ids, at, outcome));
      && |t.rows| == |s.rows| && t.stream == s.stream + Sent(s.next, ids, outcome)
      && forall r :: 0 <= r < |s.rows| ==> t.rows[r] == if r in ids then Settled(s.rows[r], at(r), outcome(r)) else s.rows[r]
  {
    CandidatesMean(ids, s.rows, limit, now - lease);
    assert ids[0] in ids;
    StaleLeaseIsTaken(s, who, lease, now, limit, ids, ids[0]);
    var u := Run(s, Lease(who, lease, now, limit, ids, s.next));
    SendsAll(u, s.next, ids, at, outcome);
  }

  lemma {:induction false} SentHas(b: nat, todo: seq<nat>, outcome: nat -> Delivery, r: nat)
    requires r in todo && !outcome(r).NotAppended?
    ensures Entry(r, b) in Sent(b, todo, outcome)
  {
    if todo[0] != r {
      assert r in todo[1..];
      SentHas(b, todo[1..], outcome, r);
    }
  }

  /** So from any state in which all others have stopped, one undisturbed batch publishes every unpublished row that is
      unlocked or locked more than a lease ago, up to its limit, each with a stream entry of its own. */
  lemma NothingStaysStuck(s: State, who: Instance, lease: nat, now: int, limit: nat, ids: seq<nat>, at: nat -> int, r: nat)
    requires ids != [] && IsCandidateList(ids, s.rows, limit, now - lease)
    requires r < |s.rows| && Free(s.rows[r], now - lease)
    ensures
      var t := Run(Run(s, Lease(who, lease, now, limit, ids, s.next)), AttemptAll(s.next, ids, at, i => Delivered));
      || (r < |t.rows| && t.rows[r].publishedAt == Some(at(r)) && Entry(r, s.next) in t.stream)
      || (|ids| == limit && forall q :: q in ids ==> q < r)
  {
    StaleLeaseIsTaken(s, who, lease, now, limit, ids, r);
    if r in ids {
      BatchIsItsSteps(s, who, lease, now, limit, ids, at, i => Delivered);
      SentHas(s.next, ids, i => Delivered, r);
    }
  }
}
