/** The rows of the outbox table and the publisher that leases, appends and settles them
    (services/ride/src/ride/outbox-publisher.service.ts). */
module OutboxPublisher {
  import opened Common

  type Instance = string

  /** The columns that the publisher reads or writes. A row is named by its position in `created_at` order. */
  datatype Row = Row(lockedAt: Option<int>, lockedBy: Option<Instance>, publishedAt: Option<int>, attempts: nat)

  const FRESH_ROW := Row(None, None, None, 0)

  /** What one XADD plus the update after it came to. `AppendedThenError` is an error raised
      after the entry reached the stream; `NotAppended` one raised before. */
  datatype Delivery = Delivered | AppendedThenError | NotAppended

  predicate Claimable(row: Row, staleBefore: int) {
    row.publishedAt.None? && (row.lockedAt.None? || row.lockedAt.value < staleBefore)
  }

  /** `ids` is the answer of the candidate query: the first `limit` claimable rows in creation order. */
  ghost predicate IsCandidateList(ids: seq<nat>, rows: seq<Row>, limit: nat, staleBefore: int) {
    && |ids| <= limit
    && (forall k :: 0 <= k < |ids| ==> ids[k] < |rows| && Claimable(rows[ids[k]], staleBefore))
    && (forall j, k :: 0 <= j < k < |ids| ==> ids[j] < ids[k])
    && (forall i :: 0 <= i < |rows| && Claimable(rows[i], staleBefore) && i !in ids ==>
          |ids| == limit && forall k :: 0 <= k < |ids| ==> ids[k] < i)
  }

  /** What that comes to, row by row: unpublished rows that nobody holds, or somebody has held since before `staleBefore`. */
  lemma CandidatesMean(ids: seq<nat>, rows: seq<Row>, limit: nat, staleBefore: int)
    ensures IsCandidateList(ids, rows, limit, staleBefore) <==>
      && |ids| <= limit && (forall j, k :: 0 <= j < k < |ids| ==> ids[j] < ids[k])
      && (forall i :: i in ids ==> i < |rows| && rows[i].publishedAt.None? && (rows[i].lockedAt.Some? ==> rows[i].lockedAt.value < staleBefore))
      && (forall i: nat :: i < |rows| && rows[i].publishedAt.None? && (rows[i].lockedAt.Some? ==> rows[i].lockedAt.value < staleBefore)
                      ==> i in ids || (|ids| == limit && forall j :: j in ids ==> j < i))
  {
    if IsCandidateList(ids, rows, limit, staleBefore) {
      forall i | i in ids ensures i < |rows| && Claimable(rows[i], staleBefore) {
        var k :| 0 <= k < |ids| && ids[k] == i;
        assert Claimable(rows[ids[k]], staleBefore);
      }
    } else if forall k :: 0 <= k < |ids| ==> ids[k] in ids && ids[k] < |rows| && Claimable(rows[ids[k]], staleBefore) {
      assert forall k :: 0 <= k < |ids| ==> ids[k] in ids;
    }
  }

  /** The candidates among the first `n` rows. */
  function Candidates(rows: seq<Row>, n: nat, limit: nat, staleBefore: int): seq<nat>
    requires n <= |rows|
  {
    if n == 0 then []
    else
      var ids := Candidates(rows, n - 1, limit, staleBefore);
      if |ids| < limit && Claimable(rows[n - 1], staleBefore) then ids + [n - 1] else ids
  }

  lemma {:induction false} CandidatesExact(rows: seq<Row>, n: nat, limit: nat, staleBefore: int)
    requires n <= |rows|
    ensures
      var ids := Candidates(rows, n, limit, staleBefore);
      && |ids| <= limit
      && (forall k :: 0 <= k < |ids| ==> ids[k] < n && Claimable(rows[ids[k]], staleBefore))
      && (forall j, k :: 0 <= j < k < |ids| ==> ids[j] < ids[k])
      && (forall i :: 0 <= i < n && Claimable(rows[i], staleBefore) && i !in ids ==>
            |ids| == limit && forall k :: 0 <= k < |ids| ==> ids[k] < i)
  {
    if n > 0 { CandidatesExact(rows, n - 1, limit, staleBefore); }
  }

  function ClaimRow(row: Row, staleBefore: int, now: int, who: Instance): Row {
    if Claimable(row, staleBefore) then row.(lockedAt := Some(now), lockedBy := Some(who)) else row
  }

  predicate HeldSince(row: Row, since: int, who: Instance) {
    row.lockedBy == Some(who) && row.lockedAt.Some? && row.lockedAt.value >= since && row.publishedAt.None?
  }

  /** The read-back query of lines 65-73: which of `ids` this instance now holds. */
  function ReadBack(rows: seq<Row>, ids: seq<nat>, since: int, who: Instance): seq<nat> {
    if ids == [] then []
    else
      var rest := ReadBack(rows, ids[1..], since, who);
      if ids[0] < |rows| && HeldSince(rows[ids[0]], since, who) then [ids[0]] + rest else rest
  }

  /** They are unpublished and carry this instance's lock, taken at `since` or later. */
  lemma ReadBackMeans(rows: seq<Row>, ids: seq<nat>, since: int, who: Instance, i: nat)
    ensures i in ReadBack(rows, ids, since, who)
            <==> i in ids && i < |rows| && rows[i].publishedAt.None? && rows[i].lockedBy == Some(who)
                 && rows[i].lockedAt.Some? && rows[i].lockedAt.value >= since
  {
    ReadBackExact(rows, ids, since, who);
  }

  /** It returns exactly the ids held, each as often as it is listed. */
  lemma {:induction false} ReadBackExact(rows: seq<Row>, ids: seq<nat>, since: int, who: Instance)
    ensures forall i :: i in ReadBack(rows, ids, since, who) <==> i in ids && i < |rows| && HeldSince(rows[i], since, who)
    ensures (forall j, k :: 0 <= j < k < |ids| ==> ids[j] != ids[k]) ==>
              forall j, k :: 0 <= j < k < |ReadBack(rows, ids, since, who)| ==>
                ReadBack(rows, ids, since, who)[j] != ReadBack(rows, ids, since, who)[k]
  {
    if ids != [] {
      var rest := ReadBack(rows, ids[1..], since, who);
      ReadBackExact(rows, ids[1..], since, who);
      assert ids == [ids[0]] + ids[1..];
    }
  }

  /** The guarded update after a successful append. */
  function MarkRow(row: Row, who: Instance, at: int): Row {
    if row.publishedAt.None? && row.lockedBy == Some(who) then Row(None, None, Some(at), row.attempts) else row
  }

  /** The guarded update in the catch block. */
  function ReleaseRow(row: Row, who: Instance): Row {
    if row.publishedAt.None? && row.lockedBy == Some(who) then Row(None, None, None, row.attempts + 1) else row
  }

  /** What one pass over a held row leaves behind. */
  function SettleRow(row: Row, who: Instance, at: int, d: Delivery): Row {
    if d.Delivered? then MarkRow(row, who, at) else ReleaseRow(row, who)
  }

  /** The first `k` ids, less those that did not reach the stream. */
  function Appended(ids: seq<nat>, k: nat, outcome: nat -> Delivery): (sent: seq<nat>)
    requires k <= |ids|
    ensures forall i :: i in sent ==> i in ids && !outcome(i).NotAppended?
    ensures forall j :: 0 <= j < k && !outcome(ids[j]).NotAppended? ==> ids[j] in sent
  {
    if k == 0 then []
    else if outcome(ids[k - 1]).NotAppended? then Appended(ids, k - 1, outcome)
    else Appended(ids, k - 1, outcome) + [ids[k - 1]]
  }

  /** One publisher instance working on the shared table and stream while nobody else runs. */
  class Publisher {
    const instanceId: Instance
    const leaseMs: nat
    var rows: seq<Row>
    var stream: seq<nat>

    constructor (instanceId: Instance, leaseMs: nat)
      ensures this.instanceId == instanceId && this.leaseMs == leaseMs && rows == [] && stream == []
    {
      this.instanceId := instanceId;
      this.leaseMs := leaseMs;
      rows := [];
      stream := [];
    }

    method FindCandidates(limit: nat, staleBefore: int) returns (ids: seq<nat>)
      ensures IsCandidateList(ids, rows, limit, staleBefore)
    {
      ids := [];
      var i := 0;
      while i < |rows|
        invariant 0 <= i <= |rows| && ids == Candidates(rows, i, limit, staleBefore)
      {
        if |ids| < limit && Claimable(rows[i], staleBefore) { ids := ids + [i]; }
        i := i + 1;
      }
      CandidatesExact(rows, i, limit, staleBefore);
    }

    /** Lines 33-74. Undisturbed, the batch is exactly the candidate list, and exactly those rows get the new lock: the
        oldest unpublished rows that are unlocked, or whose lock is older than the lease. */
    method ClaimPendingBatch(limit: nat, now: int) returns (claimed: seq<nat>)
      modifies this`rows
      ensures IsCandidateList(claimed, old(rows), limit, now - leaseMs)
      ensures |claimed| <= limit
      ensures forall i :: i in claimed ==>
                && i < |old(rows)| && old(rows)[i].publishedAt.None?
                && (old(rows)[i].lockedAt.None? || old(rows)[i].lockedAt.value < now - leaseMs)
      ensures forall i: nat ::
                && i < |old(rows)| && old(rows)[i].publishedAt.None?
                && (old(rows)[i].lockedAt.None? || old(rows)[i].lockedAt.value < now - leaseMs)
                ==> i in claimed || (|claimed| == limit && forall j :: j in claimed ==> j < i)
      ensures |rows| == |old(rows)|
      ensures forall i :: 0 <= i < |rows| ==>
                rows[i] == if i in claimed then old(rows)[i].(lockedAt := Some(now), lockedBy := Some(instanceId)) else old(rows)[i]
    {
      var staleBefore := now - leaseMs;
      var ids := FindCandidates(limit, staleBefore);
      CandidatesMean(ids, rows, limit, staleBefore);
      ClaimsCandidates(rows, ids, limit, staleBefore, now, instanceId);
      if ids == [] { return ids; }
      UpdateMany(ids, staleBefore, now);
      claimed := ReadBack(rows, ids, now, instanceId);
    }

    /** The conditional update of lines 51-61. */
    method UpdateMany(ids: seq<nat>, staleBefore: int, now: int)
      requires forall j :: 0 <= j < |ids| ==> ids[j] < |rows|
      modifies this`rows
      ensures rows == ClaimRows(old(rows), ids, |ids|, staleBefore, now, instanceId)
    {
      var k := 0;
      while k < |ids|
        invariant 0 <= k <= |ids| && rows == ClaimRows(old(rows), ids, k, staleBefore, now, instanceId)
      {
        rows := rows[ids[k] := ClaimRow(rows[ids[k]], staleBefore, now, instanceId)];
        k := k + 1;
      }
    }

    /** Lines 80-131 with the outcome of each append and the clock at each mark given. A held row ends published and unlocked, or
        unlocked with one more attempt; every other row is untouched; the stream grows by exactly what was appended. */
    method PublishPendingBatch(limit: nat, now: int, at: nat -> int, outcome: nat -> Delivery) returns (claimed: seq<nat>)
      modifies this
      ensures IsCandidateList(claimed, old(rows), limit, now - leaseMs)
      ensures |rows| == |old(rows)|
      ensures forall i :: 0 <= i < |rows| ==>
                rows[i] == if i !in claimed then old(rows)[i] else Settled(old(rows)[i], at(i), outcome(i))
      ensures stream == old(stream) + Appended(claimed, |claimed|, outcome)
    {
      ghost var before := rows;
      claimed := ClaimPendingBatch(limit, now);
      SettlesHeld(before, rows, claimed, now, instanceId, at, outcome);
      SendAndSettle(claimed, at, outcome);
    }

    /** The loop of lines 88-129. */
    method SendAndSettle(ids: seq<nat>, at: nat -> int, outcome: nat -> Delivery)
      requires forall j :: 0 <= j < |ids| ==> ids[j] < |rows|
      modifies this
      ensures rows == SettleRows(old(rows), ids, |ids|, instanceId, at, outcome)
      ensures stream == old(stream) + Appended(ids, |ids|, outcome)
    {
      var k := 0;
      while k < |ids|
        invariant 0 <= k <= |ids| && rows == SettleRows(old(rows), ids, k, instanceId, at, outcome)
        invariant stream == old(stream) + Appended(ids, k, outcome)
      {
        var id := ids[k];
        if !outcome(id).NotAppended? { stream := stream + [id]; }
        rows := rows[id := SettleRow(rows[id], instanceId, at(id), outcome(id))];
        k := k + 1;
      }
    }
  }

  /** The first `k` rows of the conditional update. */
  function ClaimRows(rows: seq<Row>, ids: seq<nat>, k: nat, staleBefore: int, now: int, who: Instance): (r: seq<Row>)
    requires k <= |ids|
    ensures |r| == |rows|
  {
    if k == 0 then rows
    else
      var rest, id := ClaimRows(rows, ids, k - 1, staleBefore, now, who), ids[k - 1];
      if id < |rows| then rest[id := ClaimRow(rest[id], staleBefore, now, who)] else rest
  }

  /** The first `k` rows settled. */
  function SettleRows(rows: seq<Row>, ids: seq<nat>, k: nat, who: Instance, at: nat -> int, outcome: nat -> Delivery): (r: seq<Row>)
    requires k <= |ids|
    ensures |r| == |rows|
  {
    if k == 0 then rows
    else
      var rest, id := SettleRows(rows, ids, k - 1, who, at, outcome), ids[k - 1];
      if id < |rows| then rest[id := SettleRow(rest[id], who, at(id), outcome(id))] else rest
  }

  predicate Among(ids: seq<nat>, k: nat, i: nat)
    requires k <= |ids|
  {
    exists j :: 0 <= j < k && ids[j] == i
  }

  lemma {:induction false} ClaimRowsAt(rows: seq<Row>, ids: seq<nat>, k: nat, staleBefore: int, now: int, who: Instance, i: nat)
    requires i < |rows| && k <= |ids| && forall j, m :: 0 <= j < m < |ids| ==> ids[j] != ids[m]
    ensures ClaimRows(rows, ids, k, staleBefore, now, who)[i]
         == if Among(ids, k, i) then ClaimRow(rows[i], staleBefore, now, who) else rows[i]
  {
    if k > 0 { ClaimRowsAt(rows, ids, k - 1, staleBefore, now, who, i); }
  }

  lemma {:induction false} SettleRowsAt(rows: seq<Row>, ids: seq<nat>, k: nat, who: Instance, at: nat -> int, outcome: nat -> Delivery, i: nat)
    requires i < |rows| && k <= |ids| && forall j, m :: 0 <= j < m < |ids| ==> ids[j] != ids[m]
    ensures SettleRows(rows, ids, k, who, at, outcome)[i]
         == if Among(ids, k, i) then SettleRow(rows[i], who, at(i), outcome(i)) else rows[i]
  {
    if k > 0 { SettleRowsAt(rows, ids, k - 1, who, at, outcome, i); }
  }

  /** Claiming the candidates gives each of them the new lock, and the read-back returns them all. */
  lemma ClaimsCandidates(rows: seq<Row>, ids: seq<nat>, limit: nat, staleBefore: int, now: int, who: Instance)
    requires IsCandidateList(ids, rows, limit, staleBefore)
    ensures
      var t := ClaimRows(rows, ids, |ids|, staleBefore, now, who);
      && ReadBack(t, ids, now, who) == ids
      && forall i :: 0 <= i < |t| ==> t[i] == if i in ids then rows[i].(lockedAt := Some(now), lockedBy := Some(who)) else rows[i]
  {
    var t := ClaimRows(rows, ids, |ids|, staleBefore, now, who);
    forall i | 0 <= i < |t| ensures t[i] == if i in ids then rows[i].(lockedAt := Some(now), lockedBy := Some(who)) else rows[i] {
      ClaimRowsAt(rows, ids, |ids|, staleBefore, now, who, i);
      if i in ids {
        var k :| 0 <= k < |ids| && ids[k] == i;
        assert Claimable(rows[ids[k]], staleBefore);
      }
    }
    forall k | 0 <= k < |ids| ensures ids[k] < |t| && HeldSince(t[ids[k]], now, who) {
      assert ids[k] in ids && Claimable(rows[ids[k]], staleBefore);
    }
    ReadBackOfOwnClaim(t, ids, now, who);
  }

  lemma SettlesHeld(before: seq<Row>, leased: seq<Row>, ids: seq<nat>, now: int, who: Instance, at: nat -> int, outcome: nat -> Delivery)
    requires |leased| == |before| && forall j, k :: 0 <= j < k < |ids| ==> ids[j] != ids[k]
    requires forall i :: 0 <= i < |before| ==>
               leased[i] == if i in ids then before[i].(lockedAt := Some(now), lockedBy := Some(who)) else before[i]
    requires forall k :: 0 <= k < |ids| ==> ids[k] < |before| && before[ids[k]].publishedAt.None?
    ensures forall i :: 0 <= i < |before| ==>
              SettleRows(leased, ids, |ids|, who, at, outcome)[i] == if i !in ids then before[i] else Settled(before[i], at(i), outcome(i))
  {
    forall i | 0 <= i < |before|
      ensures SettleRows(leased, ids, |ids|, who, at, outcome)[i] == if i !in ids then before[i] else Settled(before[i], at(i), outcome(i))
    {
      SettleRowsAt(leased, ids, |ids|, who, at, outcome, i);
      if i in ids {
        var k :| 0 <= k < |ids| && ids[k] == i;
        assert before[ids[k]].publishedAt.None?;
      }
    }
  }

  /** With no interference a claimable row that is sent ends published and unlocked, one that fails unlocked with one
      more attempt. */
  function Settled(row: Row, at: int, d: Delivery): Row {
    if d.Delivered? then Row(None, None, Some(at), row.attempts) else Row(None, None, None, row.attempts + 1)
  }

  /** After a whole batch shorter than its limit, the rows still claimable are those of it that failed. */
  lemma ShortBatchLeavesFailures(rows: seq<Row>, after: seq<Row>, ids: seq<nat>, limit: nat, staleBefore: int,
                                 at: nat -> int, outcome: nat -> Delivery, r: nat)
    requires IsCandidateList(ids, rows, limit, staleBefore) && |ids| < limit && |after| == |rows|
    requires forall i :: 0 <= i < |after| ==> after[i] == if i !in ids then rows[i] else Settled(rows[i], at(i), outcome(i))
    requires r < |after|
    ensures Claimable(after[r], staleBefore) <==> r in ids && !outcome(r).Delivered?
  {
  }

  /** Read-back returns the whole candidate list when every candidate carries this instance's new lock. */
  lemma {:induction false} ReadBackOfOwnClaim(rows: seq<Row>, ids: seq<nat>, now: int, who: Instance)
    requires forall k :: 0 <= k < |ids| ==> ids[k] < |rows| && HeldSince(rows[ids[k]], now, who)
    ensures ReadBack(rows, ids, now, who) == ids
  {
    if ids != [] { ReadBackOfOwnClaim(rows, ids[1..], now, who); }
  }
}
