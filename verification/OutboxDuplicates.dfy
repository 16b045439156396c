/** How often one outbox row can reach the stream. */
module OutboxDuplicates {
  import opened Common
  import opened OutboxPublisher
  import opened OutboxProtocol

  /** The batches whose conditional update took row `r`. */
  function Claimers(log: seq<Event>, r: nat): set<nat> {
    if log == [] then {}
    else
      var e := log[|log| - 1];
      Claimers(log[..|log| - 1], r) + if e.Claimed? && e.row == r then {e.batch} else {}
  }

  /** The batches that appended row `r`. */
  function Appenders(stream: seq<Entry>, r: nat): set<nat> {
    if stream == [] then {}
    else
      var e := stream[|stream| - 1];
      Appenders(stream[..|stream| - 1], r) + if e.row == r then {e.batch} else {}
  }

  ghost predicate Distinct(ids: seq<nat>) {
    forall j, k :: 0 <= j < k < |ids| ==> ids[j] != ids[k]
  }

  /** Batch `b` may still append each row of `todo`, once. */
  ghost predicate Owes(s: State, b: nat, todo: seq<nat>) {
    && Distinct(todo)
    && forall r :: r in todo ==> b in Claimers(s.log, r) && b !in Appenders(s.stream, r)
  }

  ghost predicate BatchOk(s: State, b: nat)
    requires b in s.batches
  {
    var c := s.batches[b];
    && b < s.next && Distinct(c.ids)
    && match c.stage
       case Selected => forall r :: b !in Claimers(s.log, r) && b !in Appenders(s.stream, r)
       case Holding => forall r :: b !in Appenders(s.stream, r)
       case Sending(todo) => Owes(s, b, todo)
       case Sent(todo) => todo != [] && Owes(s, b, todo[1..])
       case Failed(todo) => todo != [] && Owes(s, b, todo[1..])
  }

  /** Each batch claims row `r` at most once and appends it at most once, after claiming it. */
  ghost predicate CountOk(log: seq<Event>, stream: seq<Entry>, next: nat, r: nat) {
    && |Claimers(log, r)| == Tally(log, r, Claims)
    && |Appenders(stream, r)| == Entries(stream, r)
    && Appenders(stream, r) <= Claimers(log, r)
    && (forall b :: b in Claimers(log, r) ==> b < next)
  }

  ghost predicate CountInv(s: State) {
    forall r: nat :: CountOk(s.log, s.stream, s.next, r)
  }

  ghost predicate DupInv(s: State) {
    CountInv(s) && forall b :: b in s.batches ==> BatchOk(s, b)
  }

  /** What `Hold(b)` reads back, if it reads anything, batch `b` itself has claimed. */
  ghost predicate OwnReadBack(s: State, a: Action) {
    a.Hold? && a.b in s.batches && s.batches[a.b].stage.Holding? ==>
      var c := s.batches[a.b];
      forall r :: r in ReadBack(s.rows, c.ids, c.now, c.who) ==> a.b in Claimers(s.log, r)
  }

  ghost predicate OwnReadBacks(s: State, actions: seq<Action>)
    decreases |actions|
  {
    actions != [] ==> OwnReadBack(s, actions[0]) && OwnReadBacks(Next(s, actions[0]), actions[1..])
  }

  lemma ClaimersExtend(log: seq<Event>, e: Event, r: nat)
    ensures Claimers(log + [e], r) == Claimers(log, r) + if e.Claimed? && e.row == r then {e.batch} else {}
  {
    assert (log + [e])[..|log|] == log;
  }

  lemma AppendersExtend(stream: seq<Entry>, e: Entry, r: nat)
    ensures Appenders(stream + [e], r) == Appenders(stream, r) + if e.row == r then {e.batch} else {}
    ensures Entries(stream + [e], r) == Entries(stream, r) + if e.row == r then 1 else 0
  {
    assert (stream + [e])[..|stream|] == stream;
  }

  /** One row of batch `b`'s claim, under the rest of the invariant. `ids` is what is still to be claimed. */
  ghost predicate Claiming(s: State, b: nat, ids: seq<nat>) {
    && CountInv(s) && b in s.batches && b < s.next
    && (forall c :: c in s.batches && c != b ==> BatchOk(s, c))
    && Distinct(s.batches[b].ids) && Distinct(ids)
    && (forall r :: b !in Appenders(s.stream, r))
    && (forall r :: r in ids ==> b !in Claimers(s.log, r))
  }

  /** A change that gives another batch no claim and no entry leaves it in order. */
  lemma OthersKeep(s: State, t: State, c: nat)
    requires c in s.batches && BatchOk(s, c) && c in t.batches && t.batches[c] == s.batches[c]
    requires t.next >= s.next
    requires forall q: nat :: c in Claimers(t.log, q) <==> c in Claimers(s.log, q)
    requires forall q: nat :: c in Appenders(t.stream, q) <==> c in Appenders(s.stream, q)
    ensures BatchOk(t, c)
  {
  }

  lemma ClaimCounts(log: seq<Event>, stream: seq<Entry>, next: nat, e: Event, r: nat)
    requires CountOk(log, stream, next, r)
    requires e.Claimed? && e.batch < next && (e.row == r ==> e.batch !in Claimers(log, r))
    ensures CountOk(log + [e], stream, next, r)
  {
    ClaimersExtend(log, e, r);
    TallyExtend(log, e, r);
  }

  lemma ClaimOneCounts(s: State, b: nat, r: nat)
    requires CountInv(s) && b in s.batches && b < s.next && b !in Claimers(s.log, r)
    ensures CountInv(ClaimOne(s, b, r))
    ensures forall q: nat :: Claimers(ClaimOne(s, b, r).log, q) ==
              Claimers(s.log, q) + if q == r && ClaimOne(s, b, r) != s then {b} else {}
  {
    var t := ClaimOne(s, b, r);
    if t != s {
      forall q: nat
        ensures CountOk(t.log, t.stream, t.next, q)
        ensures Claimers(t.log, q) == Claimers(s.log, q) + if q == r then {b} else {}
      {
        assert CountOk(s.log, s.stream, s.next, q);
        ClaimersExtend(s.log, t.log[|s.log|], q);
        ClaimCounts(s.log, s.stream, s.next, t.log[|s.log|], q);
      }
    }
  }

  lemma OthersClaim(log: seq<Event>, e: Event, c: nat)
    requires e.Claimed? ==> e.batch != c
    ensures forall q: nat :: c in Claimers(log + [e], q) <==> c in Claimers(log, q)
  {
    forall q: nat ensures c in Claimers(log + [e], q) <==> c in Claimers(log, q) { ClaimersExtend(log, e, q); }
  }

  lemma ClaimOneOthers(s: State, b: nat, r: nat, c: nat)
    requires b in s.batches && c in s.batches && c != b && BatchOk(s, c)
    ensures BatchOk(ClaimOne(s, b, r), c)
  {
    var t := ClaimOne(s, b, r);
    if t != s {
      OthersClaim(s.log, t.log[|s.log|], c);
      OthersKeep(s, t, c);
    }
  }

  lemma ClaimOneStep(s: State, b: nat, ids: seq<nat>)
    requires Claiming(s, b, ids) && ids != []
    ensures Claiming(ClaimOne(s, b, ids[0]), b, ids[1..])
  {
    var r := ids[0];
    assert r in ids;
    var t := ClaimOne(s, b, r);
    ClaimOneCounts(s, b, r);
    forall c | c in t.batches && c != b ensures BatchOk(t, c) { ClaimOneOthers(s, b, r, c); }
    forall q | q in ids[1..] ensures b !in Claimers(t.log, q) { assert q in ids && q != r; }
  }

  lemma {:induction false} ClaimEachStep(s: State, b: nat, ids: seq<nat>)
    requires Claiming(s, b, ids)
    ensures Claiming(ClaimEach(s, b, ids), b, [])
    decreases |ids|
  {
    if ids != [] {
      ClaimOneStep(s, b, ids);
      ClaimEachStep(ClaimOne(s, b, ids[0]), b, ids[1..]);
    }
  }

  /** The invariant with nothing asked of batch `b`. */
  ghost predicate RestOk(s: State, b: nat) {
    CountInv(s) && forall c :: c in s.batches && c != b ==> BatchOk(s, c)
  }

  lemma Restage(s: State, b: nat, stage: Stage)
    requires RestOk(s, b) && b in s.batches && BatchOk(SetStage(s, b, stage), b)
    ensures DupInv(SetStage(s, b, stage))
  {
    var t := SetStage(s, b, stage);
    forall c | c in t.batches ensures BatchOk(t, c) {
      if c != b { OthersKeep(s, t, c); }
    }
  }

  lemma Leave(s: State, b: nat)
    requires RestOk(s, b)
    ensures DupInv(Finish(s, b))
  {
    var t := Finish(s, b);
    forall c | c in t.batches ensures BatchOk(t, c) { OthersKeep(s, t, c); }
  }

  lemma GoOn(s: State, b: nat, rest: seq<nat>)
    requires RestOk(s, b) && b in s.batches && b < s.next && Distinct(s.batches[b].ids) && Owes(s, b, rest)
    ensures DupInv(Continue(s, b, rest))
  {
    if rest == [] { Leave(s, b); } else { Restage(s, b, Sending(rest)); }
  }

  lemma AppendCounts(s: State, b: nat, todo: seq<nat>)
    requires CountInv(s) && todo != [] && b in Claimers(s.log, todo[0]) && b !in Appenders(s.stream, todo[0])
    ensures CountInv(AppendHead(s, b, todo))
    ensures forall q: nat :: Appenders(AppendHead(s, b, todo).stream, q) == Appenders(s.stream, q) + if q == todo[0] then {b} else {}
  {
    var t := AppendHead(s, b, todo);
    forall q: nat
      ensures CountOk(t.log, t.stream, t.next, q)
      ensures Appenders(t.stream, q) == Appenders(s.stream, q) + if q == todo[0] then {b} else {}
    {
      assert CountOk(s.log, s.stream, s.next, q);
      AppendersExtend(s.stream, Entry(todo[0], b), q);
    }
  }

  lemma TailOwed(s: State, b: nat, todo: seq<nat>)
    requires Owes(s, b, todo) && todo != []
    ensures Owes(s, b, todo[1..]) && todo[0] !in todo[1..]
  {
    assert forall k :: 0 <= k < |todo| - 1 ==> todo[1..][k] == todo[k + 1];
  }

  /** The head of `todo` reaches the stream; the rest is still owed. */
  lemma AppendStep(s: State, b: nat, todo: seq<nat>)
    requires RestOk(s, b) && todo != [] && Owes(s, b, todo)
    ensures RestOk(AppendHead(s, b, todo), b) && Owes(AppendHead(s, b, todo), b, todo[1..])
  {
    assert todo[0] in todo;
    AppendCounts(s, b, todo);
    TailOwed(s, b, todo);
    var t := AppendHead(s, b, todo);
    forall c | c in t.batches && c != b ensures BatchOk(t, c) { OthersKeep(s, t, c); }
  }

  /** An update that only unlocks a row and logs no claim. */
  lemma UnlockStep(s: State, t: State, b: nat, e: Event, todo: seq<nat>)
    requires RestOk(s, b) && Owes(s, b, todo) && !e.Claimed?
    requires t == s || (t.log == s.log + [e] && t == s.(rows := t.rows, log := t.log) && |t.rows| == |s.rows|
                        && forall q :: 0 <= q < |t.rows| ==> t.rows[q] == s.rows[q] || t.rows[q].lockedBy.None?)
    ensures RestOk(t, b) && Owes(t, b, todo)
  {
    if t != s {
      forall q: nat
        ensures CountOk(t.log, t.stream, t.next, q) && Claimers(t.log, q) == Claimers(s.log, q)
      {
        assert CountOk(s.log, s.stream, s.next, q);
        ClaimersExtend(s.log, e, q);
        TallyExtend(s.log, e, q);
      }
      forall c | c in t.batches && c != b ensures BatchOk(t, c) { OthersKeep(s, t, c); }
    }
  }

  lemma SelectStep(s: State, a: Action)
    requires DupInv(s) && a.Select?
    ensures DupInv(Next(s, a))
  {
    var t := Next(s, a);
    if t != s {
      forall c | c in t.batches ensures BatchOk(t, c) {
        if c == s.next {
          forall r: nat ensures c !in Claimers(t.log, r) && c !in Appenders(t.stream, r) {
            assert CountOk(s.log, s.stream, s.next, r);
          }
        } else {
          OthersKeep(s, t, c);
        }
      }
      forall r: nat ensures CountOk(t.log, t.stream, t.next, r) { assert CountOk(s.log, s.stream, s.next, r); }
    }
  }

  lemma ClaimStep(s: State, b: nat)
    requires DupInv(s)
    ensures DupInv(Next(s, Claim(b)))
  {
    if b in s.batches && s.batches[b].stage.Selected? {
      var ids := s.batches[b].ids;
      assert BatchOk(s, b);
      ClaimEachStep(s, b, ids);
      var t := ClaimEach(s, b, ids);
      assert RestOk(t, b);
      if t.log == s.log { Leave(t, b); } else { Restage(t, b, Holding); }
    }
  }

  lemma HoldStep(s: State, b: nat)
    requires DupInv(s) && OwnReadBack(s, Hold(b))
    ensures DupInv(Next(s, Hold(b)))
  {
    if b in s.batches && s.batches[b].stage.Holding? {
      assert BatchOk(s, b);
      var c := s.batches[b];
      ReadBackExact(s.rows, c.ids, c.now, c.who);
      GoOn(s, b, ReadBack(s.rows, c.ids, c.now, c.who));
    }
  }

  lemma MarkStep(s: State, b: nat, at: int, seen: bool)
    requires DupInv(s)
    ensures DupInv(Next(s, if seen then Mark(b, at) else MarkUnseen(b, at)))
  {
    if At(s, b, false, true, false) {
      assert BatchOk(s, b);
      var todo := s.batches[b].stage.todo;
      var t := MarkHead(s, b, todo, at);
      UnlockStep(s, t, b, Published(todo[0], s.batches[b].who), todo[1..]);
      if seen { GoOn(t, b, todo[1..]); } else { Restage(t, b, Failed(todo)); }
    }
  }

  lemma ReleaseStep(s: State, b: nat)
    requires DupInv(s)
    ensures DupInv(Next(s, Release(b)))
  {
    if At(s, b, false, false, true) {
      assert BatchOk(s, b);
      var todo := s.batches[b].stage.todo;
      var t := ReleaseHead(s, b, todo);
      UnlockStep(s, t, b, Released(todo[0], s.batches[b].who), todo[1..]);
      GoOn(t, b, todo[1..]);
    }
  }

  lemma FailStep(s: State, b: nat)
    requires DupInv(s)
    ensures DupInv(Next(s, MarkRefused(b))) && DupInv(Next(s, AppendRefused(b)))
  {
    if At(s, b, true, true, false) {
      assert BatchOk(s, b);
      var todo := s.batches[b].stage.todo;
      if s.batches[b].stage.Sending? { TailOwed(s, b, todo); }
      Restage(s, b, Failed(todo));
    }
  }

  lemma SendStep(s: State, b: nat, seen: bool)
    requires DupInv(s)
    ensures DupInv(Next(s, if seen then Append(b) else AppendUnseen(b)))
  {
    if At(s, b, true, false, false) {
      assert BatchOk(s, b);
      var todo := s.batches[b].stage.todo;
      AppendStep(s, b, todo);
      Restage(AppendHead(s, b, todo), b, if seen then Sent(todo) else Failed(todo));
    }
  }

  lemma NextKeepsDup(s: State, a: Action)
    requires DupInv(s) && OwnReadBack(s, a)
    ensures DupInv(Next(s, a))
  {
    match a
    case Insert =>
      var t := Next(s, a);
      forall c | c in t.batches ensures BatchOk(t, c) { OthersKeep(s, t, c); }
    case Select(_, _, _, _, _) => SelectStep(s, a);
    case Claim(b) => ClaimStep(s, b);
    case Hold(b) => HoldStep(s, b);
    case Crash(b) => Leave(s, b);
    case Append(b) => SendStep(s, b, true);
    case AppendUnseen(b) => SendStep(s, b, false);
    case AppendRefused(b) => FailStep(s, b);
    case Mark(b, at) => MarkStep(s, b, at, true);
    case MarkUnseen(b, at) => MarkStep(s, b, at, false);
    case MarkRefused(b) => FailStep(s, b);
    case Release(b) => ReleaseStep(s, b);
  }

  // ---- One batch at a time ----

  /** No instance runs two batches at once. */
  ghost predicate OneBatchEach(s: State) {
    forall b, c :: b in s.batches && c in s.batches && b != c ==> s.batches[b].who != s.batches[c].who
  }

  /** A candidate carrying the batch's own lock was locked by this very batch. */
  ghost predicate OwnLocks(s: State, b: nat)
    requires b in s.batches
  {
    var c := s.batches[b];
    forall r :: r in c.ids && r < |s.rows| && HeldSince(s.rows[r], c.now, c.who) ==> b in Claimers(s.log, r)
  }

  ghost predicate OwnInv(s: State) {
    && OneBatchEach(s)
    && forall b :: b in s.batches && (s.batches[b].stage.Selected? || s.batches[b].stage.Holding?) ==> OwnLocks(s, b)
  }

  /** Every batch starts when its instance has none running. */
  ghost predicate OneBatchAtATime(s: State, actions: seq<Action>)
    decreases |actions|
  {
    actions != [] ==>
      && (actions[0].Select? ==> forall b :: b in s.batches ==> s.batches[b].who != actions[0].who)
      && OneBatchAtATime(Next(s, actions[0]), actions[1..])
  }

  /** Steps that give no lock, take back no claim and start no batch. */
  lemma OwnKept(s: State, t: State)
    requires OwnInv(s)
    requires forall b :: b in t.batches ==>
               && b in s.batches && t.batches[b].(stage := s.batches[b].stage) == s.batches[b]
               && (t.batches[b].stage.Selected? || t.batches[b].stage.Holding? ==> t.batches[b].stage == s.batches[b].stage)
    requires forall q :: 0 <= q < |t.rows| ==> t.rows[q].lockedBy.None? || (q < |s.rows| && t.rows[q] == s.rows[q])
    requires t.log == s.log || (|t.log| == |s.log| + 1 && t.log == s.log + [t.log[|s.log|]])
    ensures OwnInv(t)
  {
    forall q: nat ensures Claimers(s.log, q) <= Claimers(t.log, q) {
      if t.log != s.log { ClaimersExtend(s.log, t.log[|s.log|], q); }
    }
    forall b | b in t.batches && (t.batches[b].stage.Selected? || t.batches[b].stage.Holding?) ensures OwnLocks(t, b) {
      assert OwnLocks(s, b);
    }
  }

  lemma ClaimOneOwns(s: State, b: nat, r: nat)
    requires OwnInv(s) && b in s.batches
    ensures OwnInv(ClaimOne(s, b, r))
  {
    var t := ClaimOne(s, b, r);
    if t != s {
      forall q: nat ensures Claimers(t.log, q) == Claimers(s.log, q) + if q == r then {b} else {} {
        ClaimersExtend(s.log, t.log[|s.log|], q);
      }
      forall c | c in t.batches && (t.batches[c].stage.Selected? || t.batches[c].stage.Holding?) ensures OwnLocks(t, c) {
        assert OwnLocks(s, c);
      }
    }
  }

  lemma {:induction false} ClaimEachOwns(s: State, b: nat, ids: seq<nat>)
    requires OwnInv(s) && b in s.batches
    ensures OwnInv(ClaimEach(s, b, ids))
    decreases |ids|
  {
    if ids != [] {
      ClaimOneOwns(s, b, ids[0]);
      ClaimEachOwns(ClaimOne(s, b, ids[0]), b, ids[1..]);
    }
  }

  lemma ClaimKeepsOwn(s: State, b: nat)
    requires OwnInv(s)
    ensures OwnInv(Next(s, Claim(b)))
  {
    if b in s.batches && s.batches[b].stage.Selected? {
      ClaimEachOwns(s, b, s.batches[b].ids);
      var t, u := ClaimEach(s, b, s.batches[b].ids), Next(s, Claim(b));
      assert OwnLocks(t, b);
      forall c | c in u.batches && (u.batches[c].stage.Selected? || u.batches[c].stage.Holding?) ensures OwnLocks(u, c) {
        assert OwnLocks(t, c);
      }
    }
  }

  lemma SelectKeepsOwn(s: State, a: Action)
    requires OwnInv(s) && a.Select? && Keys(s)
    requires forall b :: b in s.batches ==> s.batches[b].who != a.who
    ensures OwnInv(Next(s, a))
  {
    var t := Next(s, a);
    forall c | c in t.batches && (t.batches[c].stage.Selected? || t.batches[c].stage.Holding?) ensures OwnLocks(t, c) {
      if c in s.batches && t.batches[c] == s.batches[c] { assert OwnLocks(s, c); }
    }
  }

  ghost predicate Keys(s: State) { forall b :: b in s.batches ==> b < s.next }

  lemma MarkKeepsOwn(s: State, b: nat, at: int)
    requires OwnInv(s)
    ensures OwnInv(Next(s, Mark(b, at))) && OwnInv(Next(s, MarkUnseen(b, at)))
  {
    if At(s, b, false, true, false) {
      var t := MarkHead(s, b, s.batches[b].stage.todo, at);
      OwnKept(s, t);
      OwnKept(t, Next(s, Mark(b, at)));
      OwnKept(t, Next(s, MarkUnseen(b, at)));
    }
  }

  lemma ReleaseKeepsOwn(s: State, b: nat)
    requires OwnInv(s)
    ensures OwnInv(Next(s, Release(b)))
  {
    if At(s, b, false, false, true) {
      var t := ReleaseHead(s, b, s.batches[b].stage.todo);
      OwnKept(s, t);
      OwnKept(t, Next(s, Release(b)));
    }
  }

  lemma NextKeepsKeys(s: State, a: Action)
    requires Keys(s)
    ensures Keys(Next(s, a))
  {
  }

  lemma NextKeepsOwn(s: State, a: Action)
    requires OwnInv(s) && Keys(s) && (a.Select? ==> forall b :: b in s.batches ==> s.batches[b].who != a.who)
    ensures OwnInv(Next(s, a))
  {
    if a.Select? {
      SelectKeepsOwn(s, a);
    } else if a.Claim? {
      ClaimKeepsOwn(s, a.b);
    } else if a.Mark? || a.MarkUnseen? {
      MarkKeepsOwn(s, a.b, a.at);
    } else if a.Release? {
      ReleaseKeepsOwn(s, a.b);
    } else {
      OwnKept(s, Next(s, a));
    }
  }

  lemma HoldsOwn(s: State, a: Action)
    requires OwnInv(s)
    ensures OwnReadBack(s, a)
  {
    if a.Hold? && a.b in s.batches && s.batches[a.b].stage.Holding? {
      var c := s.batches[a.b];
      ReadBackExact(s.rows, c.ids, c.now, c.who);
      assert OwnLocks(s, a.b);
    }
  }

  lemma {:induction false} RunReadsOwn(s: State, actions: seq<Action>)
    requires OwnInv(s) && Keys(s) && OneBatchAtATime(s, actions)
    ensures OwnReadBacks(s, actions)
    decreases |actions|
  {
    if actions != [] {
      HoldsOwn(s, actions[0]);
      NextKeepsOwn(s, actions[0]);
      NextKeepsKeys(s, actions[0]);
      RunReadsOwn(Next(s, actions[0]), actions[1..]);
    }
  }

  /** The scheduler that starts no batch while its instance still runs one meets the condition. */
  lemma OneBatchReadsOwn(actions: seq<Action>)
    requires OneBatchAtATime(INITIAL, actions)
    ensures OwnReadBacks(INITIAL, actions)
  {
    RunReadsOwn(INITIAL, actions);
  }
}
