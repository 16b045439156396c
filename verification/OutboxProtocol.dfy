/** Any number of publisher batches over one outbox table, interleaved between any two awaits,
    with crashes and appends whose answer is lost. */
module OutboxProtocol {
  import opened Common
  import opened OutboxPublisher

  /** What happened to a row's lock, in order. `batch` and `steal` are history, not columns. */
  datatype Event =
    | Claimed(row: nat, batch: nat, who: Instance, at: int, lease: nat, steal: bool)
    | Released(row: nat, who: Instance)
    | Published(row: nat, who: Instance)

  /** A stream entry; `batch` records who appended it. */
  datatype Entry = Entry(row: nat, batch: nat)

  /** Where a batch stands between two awaits. */
  datatype Stage =
    | Selected
    | Holding
    | Sending(todo: seq<nat>)
    | Sent(todo: seq<nat>)
    | Failed(todo: seq<nat>)

  datatype Batch = Batch(who: Instance, lease: nat, now: int, ids: seq<nat>, stage: Stage)

  datatype State = State(rows: seq<Row>, batches: map<nat, Batch>, next: nat, stream: seq<Entry>, log: seq<Event>)

  const INITIAL := State([], map[], 0, [], [])

  datatype Action =
    | Insert
    | Select(who: Instance, lease: nat, now: int, limit: nat, ids: seq<nat>)
    | Claim(b: nat)
    | Hold(b: nat)
    | Append(b: nat)
    | AppendUnseen(b: nat)
    | AppendRefused(b: nat)
    | Mark(b: nat, at: int)
    | MarkUnseen(b: nat, at: int)
    | MarkRefused(b: nat)
    | Release(b: nat)
    | Crash(b: nat)

  function Stale(b: Batch): int { b.now - b.lease }

  function SetStage(s: State, b: nat, stage: Stage): State
    requires b in s.batches
  {
    s.(batches := s.batches[b := s.batches[b].(stage := stage)])
  }

  function Finish(s: State, b: nat): State {
    s.(batches := map k | k in s.batches && k != b :: s.batches[k])
  }

  /** The loop of line 88 goes on with the rest of the claimed rows. */
  function Continue(s: State, b: nat, rest: seq<nat>): State
    requires b in s.batches
  {
    if rest == [] then Finish(s, b) else SetStage(s, b, Sending(rest))
  }

  /** One row of the conditional update of lines 51-61. */
  function ClaimOne(s: State, b: nat, r: nat): State
    requires b in s.batches
  {
    var c := s.batches[b];
    if r < |s.rows| && Claimable(s.rows[r], Stale(c)) then
      s.(rows := s.rows[r := ClaimRow(s.rows[r], Stale(c), c.now, c.who)],
         log := s.log + [Claimed(r, b, c.who, c.now, c.lease, s.rows[r].lockedAt.Some?)])
    else s
  }

  function ClaimEach(s: State, b: nat, ids: seq<nat>): (t: State)
    requires b in s.batches
    ensures t.batches == s.batches && |t.rows| == |s.rows| && t.stream == s.stream && t.next == s.next
    decreases |ids|
  {
    if ids == [] then s else ClaimEach(ClaimOne(s, b, ids[0]), b, ids[1..])
  }

  function AppendHead(s: State, b: nat, todo: seq<nat>): State
    requires todo != []
  {
    s.(stream := s.stream + [Entry(todo[0], b)])
  }

  function MarkHead(s: State, b: nat, todo: seq<nat>, at: int): State
    requires b in s.batches && todo != []
  {
    var r, who := todo[0], s.batches[b].who;
    if r < |s.rows| && MarkRow(s.rows[r], who, at) != s.rows[r] then
      s.(rows := s.rows[r := MarkRow(s.rows[r], who, at)], log := s.log + [Published(r, who)])
    else s
  }

  function ReleaseHead(s: State, b: nat, todo: seq<nat>): State
    requires b in s.batches && todo != []
  {
    var r, who := todo[0], s.batches[b].who;
    if r < |s.rows| && ReleaseRow(s.rows[r], who) != s.rows[r] then
      s.(rows := s.rows[r := ReleaseRow(s.rows[r], who)], log := s.log + [Released(r, who)])
    else s
  }

  predicate At(s: State, b: nat, sending: bool, sent: bool, failed: bool) {
    && b in s.batches
    && match s.batches[b].stage
       case Sending(todo) => sending && todo != []
       case Sent(todo) => sent && todo != []
       case Failed(todo) => failed && todo != []
       case _ => false
  }

  /** One atomic step. A step whose guard does not hold leaves the state alone, so every action sequence is a run. */
  ghost function Next(s: State, a: Action): State {
    match a
    case Insert => s.(rows := s.rows + [FRESH_ROW])
    case Select(who, lease, now, limit, ids) =>
      if ids != [] && IsCandidateList(ids, s.rows, limit, now - lease) then
        s.(batches := s.batches[s.next := Batch(who, lease, now, ids, Selected)], next := s.next + 1)
      else s
    case Claim(b) =>
      if b in s.batches && s.batches[b].stage.Selected? then
        var t := ClaimEach(s, b, s.batches[b].ids);
        if t.log == s.log then Finish(t, b) else SetStage(t, b, Holding)
      else s
    case Hold(b) =>
      if b in s.batches && s.batches[b].stage.Holding? then
        var c := s.batches[b];
        Continue(s, b, ReadBack(s.rows, c.ids, c.now, c.who))
      else s
    case Append(b) =>
      if At(s, b, true, false, false) then
        var todo := s.batches[b].stage.todo;
        SetStage(AppendHead(s, b, todo), b, Sent(todo))
      else s
    case AppendUnseen(b) =>
      if At(s, b, true, false, false) then
        var todo := s.batches[b].stage.todo;
        SetStage(AppendHead(s, b, todo), b, Failed(todo))
      else s
    case AppendRefused(b) =>
      if At(s, b, true, false, false) then SetStage(s, b, Failed(s.batches[b].stage.todo)) else s
    case Mark(b, at) =>
      if At(s, b, false, true, false) then
        var todo := s.batches[b].stage.todo;
        Continue(MarkHead(s, b, todo, at), b, todo[1..])
      else s
    case MarkUnseen(b, at) =>
      if At(s, b, false, true, false) then
        var todo := s.batches[b].stage.todo;
        SetStage(MarkHead(s, b, todo, at), b, Failed(todo))
      else s
    case MarkRefused(b) =>
      if At(s, b, false, true, false) then SetStage(s, b, Failed(s.batches[b].stage.todo)) else s
    case Release(b) =>
      if At(s, b, false, false, true) then
        var todo := s.batches[b].stage.todo;
        Continue(ReleaseHead(s, b, todo), b, todo[1..])
      else s
    case Crash(b) => Finish(s, b)
  }

  ghost function Run(s: State, actions: seq<Action>): State
    decreases |actions|
  {
    if actions == [] then s else Run(Next(s, actions[0]), actions[1..])
  }

  // ---- What the log says about a row ----

  /** The lock that the log leaves on row `r`. */
  function Holder(log: seq<Event>, r: nat): Option<(int, Instance)> {
    if log == [] then None
    else
      var e := log[|log| - 1];
      if e.row != r then Holder(log[..|log| - 1], r)
      else if e.Claimed? then Some((e.at, e.who)) else None
  }

  datatype Kind = Claims | Steals | Releases | Publications

  predicate IsKind(e: Event, k: Kind) {
    match k
    case Claims => e.Claimed?
    case Steals => e.Claimed? && e.steal
    case Releases => e.Released?
    case Publications => e.Published?
  }

  function Tally(log: seq<Event>, r: nat, k: Kind): nat {
    if log == [] then 0
    else Tally(log[..|log| - 1], r, k) + if log[|log| - 1].row == r && IsKind(log[|log| - 1], k) then 1 else 0
  }

  function Entries(stream: seq<Entry>, r: nat): nat {
    if stream == [] then 0
    else Entries(stream[..|stream| - 1], r) + if stream[|stream| - 1].row == r then 1 else 0
  }

  /** Two claims of one row with no release between them lie more than the later one's lease apart. */
  ghost predicate LeaseExclusion(log: seq<Event>) {
    forall i, j :: 0 <= i < j < |log| && log[i].Claimed? && log[j].Claimed? && log[i].row == log[j].row
                   && (forall k :: i < k < j ==> !(log[k].Released? && log[k].row == log[i].row)) ==>
      log[j].at - log[i].at > log[j].lease
  }

  ghost predicate RowMatchesLog(row: Row, log: seq<Event>, r: nat) {
    && Holder(log, r) == (if row.lockedAt.Some? && row.lockedBy.Some? then Some((row.lockedAt.value, row.lockedBy.value)) else None)
    && row.lockedAt.Some? == row.lockedBy.Some?
    && (row.publishedAt.Some? ==> row.lockedAt.None?)
    && Tally(log, r, Publications) == (if row.publishedAt.Some? then 1 else 0)
    && row.attempts == Tally(log, r, Releases)
    && Tally(log, r, Claims) == Tally(log, r, Steals) + row.attempts
                                + (if row.lockedAt.Some? || row.publishedAt.Some? then 1 else 0)
  }

  ghost predicate LockInv(s: State) {
    && (forall r :: 0 <= r < |s.rows| ==> RowMatchesLog(s.rows[r], s.log, r))
    && (forall i :: 0 <= i < |s.log| ==> s.log[i].row < |s.rows|)
    && LeaseExclusion(s.log)
  }

  lemma TallyExtend(log: seq<Event>, e: Event, r: nat)
    ensures forall k :: Tally(log + [e], r, k) == Tally(log, r, k) + if e.row == r && IsKind(e, k) then 1 else 0
    ensures Holder(log + [e], r) == if e.row != r then Holder(log, r) else if e.Claimed? then Some((e.at, e.who)) else None
  {
    assert (log + [e])[..|log|] == log;
  }

  lemma {:induction false} NoTrace(log: seq<Event>, r: nat)
    requires forall i :: 0 <= i < |log| ==> log[i].row != r
    ensures Holder(log, r).None? && forall k :: Tally(log, r, k) == 0
  {
    if log != [] { NoTrace(log[..|log| - 1], r); }
  }

  /** The newest claim that no later release or publication undoes is the lock on the row. */
  lemma {:induction false} HolderIsLastClaim(log: seq<Event>, r: nat, i: nat)
    requires LeaseExclusion(log)
    requires i < |log| && log[i].Claimed? && log[i].row == r
    requires forall k :: i < k < |log| ==> !(log[k].Released? && log[k].row == r)
    ensures Holder(log, r).Some? ==> log[i].at <= Holder(log, r).value.0
    ensures Holder(log, r).None? ==> exists k :: i < k < |log| && log[k].Published? && log[k].row == r
  {
    var last := |log| - 1;
    if i < last {
      if log[last].row == r {
        if log[last].Claimed? {
          assert log[last].at - log[i].at > log[last].lease;
        } else {
          assert log[last].Published?;
        }
      } else {
        HolderIsLastClaim(log[..last], r, i);
        if Holder(log, r).None? {
          var k :| i < k < last && log[..last][k].Published? && log[..last][k].row == r;
          assert log[k].Published?;
        }
      }
    }
  }

  lemma {:induction false} PublicationCounts(log: seq<Event>, r: nat, k: nat)
    requires k < |log| && log[k].Published? && log[k].row == r
    ensures Tally(log, r, Publications) >= 1
  {
    if k < |log| - 1 { PublicationCounts(log[..|log| - 1], r, k); }
  }

  /** A new claim by the conditional update keeps the leases apart. */
  lemma ExclusionAfterClaim(s: State, e: Event)
    requires LockInv(s) && e.Claimed? && e.row < |s.rows| && Claimable(s.rows[e.row], e.at - e.lease)
    ensures LeaseExclusion(s.log + [e])
  {
    var log := s.log + [e];
    var r := e.row;
    forall i | 0 <= i < |s.log| && log[i].Claimed? && log[i].row == r
               && (forall k :: i < k < |s.log| ==> !(log[k].Released? && log[k].row == r))
      ensures e.at - log[i].at > e.lease
    {
      assert forall k :: i < k < |s.log| ==> s.log[k] == log[k];
      HolderIsLastClaim(s.log, r, i);
      if Holder(s.log, r).None? {
        var k :| i < k < |s.log| && s.log[k].Published? && s.log[k].row == r;
        PublicationCounts(s.log, r, k);
      }
    }
    forall i, j | 0 <= i < j < |log| && log[i].Claimed? && log[j].Claimed? && log[i].row == log[j].row
                  && (forall k :: i < k < j ==> !(log[k].Released? && log[k].row == log[i].row))
      ensures log[j].at - log[i].at > log[j].lease
    {
      if j < |s.log| {
        assert forall k :: i < k < j ==> s.log[k] == log[k];
        assert s.log[j].at - s.log[i].at > s.log[j].lease;
      }
    }
  }

  lemma ExclusionAfterOther(log: seq<Event>, e: Event)
    requires LeaseExclusion(log) && !e.Claimed?
    ensures LeaseExclusion(log + [e])
  {
    var ext := log + [e];
    forall i, j | 0 <= i < j < |ext| && ext[i].Claimed? && ext[j].Claimed? && ext[i].row == ext[j].row
                  && (forall k :: i < k < j ==> !(ext[k].Released? && ext[k].row == ext[i].row))
      ensures ext[j].at - ext[i].at > ext[j].lease
    {
      assert forall k :: i < k < j ==> log[k] == ext[k];
      assert log[j].at - log[i].at > log[j].lease;
    }
  }

  /** One logged change of row `r` keeps every row in agreement with the log. */
  lemma LogStep(s: State, t: State, e: Event)
    requires LockInv(s) && e.row < |s.rows| && t.log == s.log + [e]
    requires |t.rows| == |s.rows| && forall q :: 0 <= q < |s.rows| && q != e.row ==> t.rows[q] == s.rows[q]
    requires LeaseExclusion(t.log)
    requires
      var old_, new_ := s.rows[e.row], t.rows[e.row];
      match e
      case Claimed(_, _, who, at, _, steal) =>
        old_.publishedAt.None? && steal == old_.lockedAt.Some? && new_ == old_.(lockedAt := Some(at), lockedBy := Some(who))
      case Released(_, _) => old_.publishedAt.None? && old_.lockedBy.Some? && new_ == Row(None, None, None, old_.attempts + 1)
      case Published(_, _) => old_.publishedAt.None? && old_.lockedBy.Some? && new_.publishedAt.Some?
                              && new_.lockedAt.None? && new_.lockedBy.None? && new_.attempts == old_.attempts
    ensures LockInv(t)
  {
    forall r | 0 <= r < |t.rows| ensures RowMatchesLog(t.rows[r], t.log, r) {
      TallyExtend(s.log, e, r);
    }
  }

  lemma ClaimOneKeepsLocks(s: State, b: nat, r: nat)
    requires LockInv(s) && b in s.batches
    ensures LockInv(ClaimOne(s, b, r))
  {
    var t := ClaimOne(s, b, r);
    if t != s {
      var e := t.log[|s.log|];
      ExclusionAfterClaim(s, e);
      LogStep(s, t, e);
    }
  }

  lemma {:induction false} ClaimEachKeepsLocks(s: State, b: nat, ids: seq<nat>)
    requires LockInv(s) && b in s.batches
    ensures LockInv(ClaimEach(s, b, ids))
    decreases |ids|
  {
    if ids != [] {
      ClaimOneKeepsLocks(s, b, ids[0]);
      ClaimEachKeepsLocks(ClaimOne(s, b, ids[0]), b, ids[1..]);
    }
  }

  lemma MarkHeadKeepsLocks(s: State, b: nat, todo: seq<nat>, at: int)
    requires LockInv(s) && b in s.batches && todo != []
    ensures LockInv(MarkHead(s, b, todo, at))
  {
    var t := MarkHead(s, b, todo, at);
    if t != s {
      ExclusionAfterOther(s.log, Published(todo[0], s.batches[b].who));
      LogStep(s, t, Published(todo[0], s.batches[b].who));
    }
  }

  lemma ReleaseHeadKeepsLocks(s: State, b: nat, todo: seq<nat>)
    requires LockInv(s) && b in s.batches && todo != []
    ensures LockInv(ReleaseHead(s, b, todo))
  {
    var t := ReleaseHead(s, b, todo);
    if t != s {
      ExclusionAfterOther(s.log, Released(todo[0], s.batches[b].who));
      LogStep(s, t, Released(todo[0], s.batches[b].who));
    }
  }

  lemma SameTables(s: State, t: State)
    requires LockInv(s) && t.rows == s.rows && t.log == s.log
    ensures LockInv(t)
  {
  }

  lemma InsertKeepsLocks(s: State)
    requires LockInv(s)
    ensures LockInv(Next(s, Insert))
  {
    NoTrace(s.log, |s.rows|);
  }

  lemma ClaimKeepsLocks(s: State, b: nat)
    requires LockInv(s)
    ensures LockInv(Next(s, Claim(b)))
  {
    if b in s.batches && s.batches[b].stage.Selected? {
      ClaimEachKeepsLocks(s, b, s.batches[b].ids);
      SameTables(ClaimEach(s, b, s.batches[b].ids), Next(s, Claim(b)));
    }
  }

  lemma MarkKeepsLocks(s: State, b: nat, at: int)
    requires LockInv(s)
    ensures LockInv(Next(s, Mark(b, at))) && LockInv(Next(s, MarkUnseen(b, at)))
  {
    if At(s, b, false, true, false) {
      var t := MarkHead(s, b, s.batches[b].stage.todo, at);
      MarkHeadKeepsLocks(s, b, s.batches[b].stage.todo, at);
      SameTables(t, Next(s, Mark(b, at)));
      SameTables(t, Next(s, MarkUnseen(b, at)));
    }
  }

  lemma ReleaseKeepsLocks(s: State, b: nat)
    requires LockInv(s)
    ensures LockInv(Next(s, Release(b)))
  {
    if At(s, b, false, false, true) {
      ReleaseHeadKeepsLocks(s, b, s.batches[b].stage.todo);
      SameTables(ReleaseHead(s, b, s.batches[b].stage.todo), Next(s, Release(b)));
    }
  }

  /** Locks agree with the log after every step of every publisher. */
  lemma NextKeepsLocks(s: State, a: Action)
    requires LockInv(s)
    ensures LockInv(Next(s, a))
  {
    match a
    case Insert => InsertKeepsLocks(s);
    case Claim(b) => ClaimKeepsLocks(s, b);
    case Mark(b, at) => MarkKeepsLocks(s, b, at);
    case MarkUnseen(b, at) => MarkKeepsLocks(s, b, at);
    case Release(b) => ReleaseKeepsLocks(s, b);
    case _ => SameTables(s, Next(s, a));
  }

  lemma {:induction false} RunKeepsLocks(s: State, actions: seq<Action>)
    requires LockInv(s)
    ensures LockInv(Run(s, actions))
    decreases |actions|
  {
    if actions != [] {
      NextKeepsLocks(s, actions[0]);
      RunKeepsLocks(Next(s, actions[0]), actions[1..]);
    }
  }

  /** Lease exclusion over whole runs, for any number of instances, batches and crashes: two claims of one row with no
      failure release between them are more than the later claimer's lease apart. */
  lemma LeasesExclude(actions: seq<Action>)
    ensures LeaseExclusion(Run(INITIAL, actions).log)
    ensures
      var s := Run(INITIAL, actions);
      forall r :: 0 <= r < |s.rows| ==> RowMatchesLog(s.rows[r], s.log, r)
  {
    RunKeepsLocks(INITIAL, actions);
  }

  lemma {:induction false} ClaimEachLeaves(s: State, b: nat, ids: seq<nat>, r: nat)
    requires b in s.batches && r < |s.rows|
    ensures ClaimEach(s, b, ids).rows[r].publishedAt == s.rows[r].publishedAt && ClaimEach(s, b, ids).rows[r].attempts == s.rows[r].attempts
    ensures s.rows[r].publishedAt.Some? ==> ClaimEach(s, b, ids).rows[r] == s.rows[r]
    decreases |ids|
  {
    if ids != [] { ClaimEachLeaves(ClaimOne(s, b, ids[0]), b, ids[1..], r); }
  }

  /** A row becomes published only by a batch whose instance holds its lock at that moment, and is unlocked by it. */
  lemma OnlyHolderPublishes(s: State, a: Action, r: nat)
    requires r < |s.rows| && s.rows[r].publishedAt.None? && Next(s, a).rows[r].publishedAt.Some?
    ensures (a.Mark? || a.MarkUnseen?) && a.b in s.batches && s.rows[r].lockedBy == Some(s.batches[a.b].who)
    ensures Next(s, a).rows[r] == Row(None, None, Some(a.at), s.rows[r].attempts)
  {
    if a.Claim? && a.b in s.batches { ClaimEachLeaves(s, a.b, s.batches[a.b].ids, r); }
  }

  /** And goes back with one more attempt only likewise. */
  lemma OnlyHolderReleases(s: State, a: Action, r: nat)
    requires r < |s.rows| && Next(s, a).rows[r].attempts != s.rows[r].attempts
    ensures a.Release? && a.b in s.batches && s.rows[r].lockedBy == Some(s.batches[a.b].who) && s.rows[r].publishedAt.None?
    ensures Next(s, a).rows[r] == Row(None, None, None, s.rows[r].attempts + 1)
  {
    if a.Claim? && a.b in s.batches { ClaimEachLeaves(s, a.b, s.batches[a.b].ids, r); }
  }

  /** Once published, a row never changes again, whatever any publisher still does. */
  lemma {:induction false} PublishedIsFinal(s: State, actions: seq<Action>, r: nat)
    requires r < |s.rows| && s.rows[r].publishedAt.Some?
    ensures r < |Run(s, actions).rows| && Run(s, actions).rows[r] == s.rows[r]
    decreases |actions|
  {
    if actions != [] {
      var a := actions[0];
      if a.Claim? && a.b in s.batches { ClaimEachLeaves(s, a.b, s.batches[a.b].ids, r); }
      PublishedIsFinal(Next(s, a), actions[1..], r);
    }
  }

  /** The row-by-row claim of the protocol is the table-wide conditional update of `Publisher.ClaimPendingBatch`. */
  lemma {:induction false} ClaimEachIsUpdateMany(s: State, b: nat, ids: seq<nat>)
    requires b in s.batches
    requires forall j, k :: 0 <= j < k < |ids| ==> ids[j] != ids[k]
    ensures
      var c := s.batches[b];
      forall r :: 0 <= r < |s.rows| ==>
        ClaimEach(s, b, ids).rows[r] == if r in ids then ClaimRow(s.rows[r], Stale(c), c.now, c.who) else s.rows[r]
    decreases |ids|
  {
    if ids != [] { ClaimEachIsUpdateMany(ClaimOne(s, b, ids[0]), b, ids[1..]); }
  }
}
