/** The duplicate bound, and exactly which read-backs break it. */
module OutboxBound {
  import opened Common
  import opened OutboxPublisher
  import opened OutboxProtocol
  import opened OutboxDuplicates

  /** The rows that a batch may still append. */
  function Rest(stage: Stage): seq<nat> {
    match stage
    case Sending(todo) => todo
    case Sent(todo) => if todo == [] then [] else todo[1..]
    case Failed(todo) => if todo == [] then [] else todo[1..]
    case _ => []
  }

  /** The batches that may still append row `r`. */
  ghost function Owing(s: State, r: nat): set<nat> { set b | b in s.batches && r in Rest(s.batches[b].stage) }

  /** The law for one row: the entries it has and those it may yet get come to at most its claims. */
  ghost predicate Spare(s: State, r: nat) { Entries(s.stream, r) + |Owing(s, r)| <= Tally(s.log, r, Claims) }

  ghost predicate AllSpare(s: State) { forall r: nat :: Spare(s, r) }

  /** Every row that `Hold(b)` reads back has a claim beyond its entries and the batches about to append it. */
  ghost predicate Roomy(s: State, a: Action) {
    a.Hold? && a.b in s.batches && s.batches[a.b].stage.Holding? ==>
      var c := s.batches[a.b];
      forall r :: r in ReadBack(s.rows, c.ids, c.now, c.who) ==> Entries(s.stream, r) + |Owing(s, r)| < Tally(s.log, r, Claims)
  }

  ghost predicate DistinctTodo(stage: Stage) {
    match stage
    case Sending(todo) => Distinct(todo)
    case Sent(todo) => Distinct(todo)
    case Failed(todo) => Distinct(todo)
    case _ => true
  }

  /** No batch goes through a row twice. */
  ghost predicate Orderly(s: State) {
    forall b :: b in s.batches ==> b < s.next && Distinct(s.batches[b].ids) && DistinctTodo(s.batches[b].stage)
  }

  lemma TailDistinct(todo: seq<nat>)
    requires Distinct(todo) && todo != []
    ensures Distinct(todo[1..]) && todo[0] !in todo[1..]
  {
  }

  lemma SettlingKeepsOrderly(s: State, a: Action)
    requires Orderly(s) && (a.Mark? || a.MarkUnseen? || a.Release?)
    ensures Orderly(Next(s, a))
  {
    if a.b in s.batches && DistinctTodo(s.batches[a.b].stage) && !s.batches[a.b].stage.Selected? && !s.batches[a.b].stage.Holding? {
      var todo := s.batches[a.b].stage.todo;
      if todo != [] { TailDistinct(todo); }
    }
  }

  lemma NextKeepsOrderly(s: State, a: Action)
    requires Orderly(s)
    ensures Orderly(Next(s, a))
  {
    match a
    case Hold(b) =>
      if b in s.batches { ReadBackExact(s.rows, s.batches[b].ids, s.batches[b].now, s.batches[b].who); }
    case Mark(_, _) => SettlingKeepsOrderly(s, a);
    case MarkUnseen(_, _) => SettlingKeepsOrderly(s, a);
    case Release(_) => SettlingKeepsOrderly(s, a);
    case _ =>
  }

  // ---- Steps that keep the law ----

  lemma {:induction false} ClaimsGrow(s: State, b: nat, ids: seq<nat>, r: nat)
    requires b in s.batches
    ensures Tally(ClaimEach(s, b, ids).log, r, Claims) >= Tally(s.log, r, Claims)
    decreases |ids|
  {
    if ids != [] {
      var t := ClaimOne(s, b, ids[0]);
      if t != s { TallyExtend(s.log, t.log[|s.log|], r); }
      ClaimsGrow(t, b, ids[1..], r);
    }
  }

  /** No row is left to more batches. */
  ghost predicate OwesLess(s: State, t: State) {
    forall b :: b in t.batches ==>
      Rest(t.batches[b].stage) == [] || (b in s.batches && forall r :: r in Rest(t.batches[b].stage) ==> r in Rest(s.batches[b].stage))
  }

  lemma LessOwing(s: State, t: State, r: nat)
    requires OwesLess(s, t)
    ensures |Owing(t, r)| <= |Owing(s, r)|
  {
    SubsetSize(Owing(t, r), Owing(s, r));
  }

  lemma NoAppendSpares(s: State, t: State, r: nat)
    requires Spare(s, r) && OwesLess(s, t) && t.stream == s.stream && Tally(t.log, r, Claims) >= Tally(s.log, r, Claims)
    ensures Spare(t, r)
  {
    LessOwing(s, t, r);
  }

  lemma MarkHeadSpares(s: State, b: nat, todo: seq<nat>, at: int, r: nat)
    requires Spare(s, r) && b in s.batches && todo != []
    ensures Spare(MarkHead(s, b, todo, at), r) && MarkHead(s, b, todo, at).batches == s.batches
  {
    TallyExtend(s.log, Published(todo[0], s.batches[b].who), r);
    NoAppendSpares(s, MarkHead(s, b, todo, at), r);
  }

  lemma ReleaseHeadSpares(s: State, b: nat, todo: seq<nat>, r: nat)
    requires Spare(s, r) && b in s.batches && todo != []
    ensures Spare(ReleaseHead(s, b, todo), r) && ReleaseHead(s, b, todo).batches == s.batches
  {
    TallyExtend(s.log, Released(todo[0], s.batches[b].who), r);
    NoAppendSpares(s, ReleaseHead(s, b, todo), r);
  }

  lemma MarkSpares(s: State, b: nat, at: int, r: nat)
    requires Spare(s, r)
    ensures Spare(Next(s, Mark(b, at)), r) && Spare(Next(s, MarkUnseen(b, at)), r)
  {
    if At(s, b, false, true, false) {
      MarkHeadSpares(s, b, s.batches[b].stage.todo, at, r);
      GoingOnSpares(MarkHead(s, b, s.batches[b].stage.todo, at), b, r);
    }
  }

  lemma GoingOnSpares(t: State, b: nat, r: nat)
    requires Spare(t, r) && At(t, b, false, true, true)
    ensures
      var todo := t.batches[b].stage.todo;
      Spare(Continue(t, b, todo[1..]), r) && Spare(SetStage(t, b, Failed(todo)), r)
  {
    var todo := t.batches[b].stage.todo;
    NoAppendSpares(t, Continue(t, b, todo[1..]), r);
    NoAppendSpares(t, SetStage(t, b, Failed(todo)), r);
  }

  lemma ReleaseSpares(s: State, b: nat, r: nat)
    requires Spare(s, r)
    ensures Spare(Next(s, Release(b)), r)
  {
    if At(s, b, false, false, true) {
      ReleaseHeadSpares(s, b, s.batches[b].stage.todo, r);
      GoingOnSpares(ReleaseHead(s, b, s.batches[b].stage.todo), b, r);
    }
  }

  /** An append turns one row owed into one entry. */
  lemma AppendSpares(s: State, b: nat, stage: Stage, r: nat)
    requires Spare(s, r) && At(s, b, true, false, false) && Distinct(s.batches[b].stage.todo)
    requires stage == Sent(s.batches[b].stage.todo) || stage == Failed(s.batches[b].stage.todo)
    ensures Spare(SetStage(AppendHead(s, b, s.batches[b].stage.todo), b, stage), r)
  {
    var todo := s.batches[b].stage.todo;
    var t := SetStage(AppendHead(s, b, todo), b, stage);
    TailDistinct(todo);
    AppendersExtend(s.stream, Entry(todo[0], b), r);
    if r == todo[0] {
      assert b in Owing(s, r);
      SubsetSize(Owing(t, r), Owing(s, r) - {b});
    } else {
      LessOwing(s, t, r);
    }
  }

  lemma HoldingOwes(s: State, b: nat, todo: seq<nat>, r: nat)
    requires b in s.batches && s.batches[b].stage.Holding?
    ensures r in todo ==> Owing(Continue(s, b, todo), r) == Owing(s, r) + {b} && b !in Owing(s, r)
    ensures r !in todo ==> Owing(Continue(s, b, todo), r) == Owing(s, r)
  {
  }

  /** The read-back adds the batch to those that owe its rows. */
  lemma HoldOwes(s: State, b: nat, r: nat)
    requires b in s.batches && s.batches[b].stage.Holding?
    ensures
      var c := s.batches[b];
      |Owing(Next(s, Hold(b)), r)| == |Owing(s, r)| + if r in ReadBack(s.rows, c.ids, c.now, c.who) then 1 else 0
  {
    var c := s.batches[b];
    HoldingOwes(s, b, ReadBack(s.rows, c.ids, c.now, c.who), r);
  }

  lemma HoldSparesExactly(s: State, b: nat)
    requires AllSpare(s)
    ensures AllSpare(Next(s, Hold(b))) <==> Roomy(s, Hold(b))
  {
    if b in s.batches && s.batches[b].stage.Holding? {
      var c := s.batches[b];
      var t := Next(s, Hold(b));
      forall r: nat
        ensures Spare(t, r) <==> (r in ReadBack(s.rows, c.ids, c.now, c.who) ==> Entries(s.stream, r) + |Owing(s, r)| < Tally(s.log, r, Claims))
      {
        assert Spare(s, r);
        HoldOwes(s, b, r);
      }
    }
  }

  lemma ClaimSpares(s: State, b: nat, r: nat)
    requires Spare(s, r)
    ensures Spare(Next(s, Claim(b)), r)
  {
    if b in s.batches && s.batches[b].stage.Selected? {
      ClaimsGrow(s, b, s.batches[b].ids, r);
      NoAppendSpares(s, Next(s, Claim(b)), r);
    }
  }

  lemma OthersSpare(s: State, a: Action, r: nat)
    requires Orderly(s) && Spare(s, r) && !a.Hold?
    ensures Spare(Next(s, a), r)
  {
    match a
    case Claim(b) => ClaimSpares(s, b, r);
    case Append(b) => if At(s, b, true, false, false) { AppendSpares(s, b, Sent(s.batches[b].stage.todo), r); }
    case AppendUnseen(b) => if At(s, b, true, false, false) { AppendSpares(s, b, Failed(s.batches[b].stage.todo), r); }
    case Mark(b, at) => MarkSpares(s, b, at, r);
    case MarkUnseen(b, at) => MarkSpares(s, b, at, r);
    case Release(b) => ReleaseSpares(s, b, r);
    case _ => NoAppendSpares(s, Next(s, a), r);
  }

  lemma NextSparesExactly(s: State, a: Action)
    requires Orderly(s) && AllSpare(s)
    ensures AllSpare(Next(s, a)) <==> Roomy(s, a)
  {
    if a.Hold? {
      HoldSparesExactly(s, a.b);
    } else {
      forall r: nat ensures Spare(Next(s, a), r) {
        assert Spare(s, r);
        OthersSpare(s, a, r);
      }
    }
  }

  ghost predicate SpareThroughout(s: State, actions: seq<Action>)
    decreases |actions|
  {
    AllSpare(s) && (actions != [] ==> SpareThroughout(Next(s, actions[0]), actions[1..]))
  }

  ghost predicate AllRoomy(s: State, actions: seq<Action>)
    decreases |actions|
  {
    actions != [] ==> Roomy(s, actions[0]) && AllRoomy(Next(s, actions[0]), actions[1..])
  }

  lemma {:induction false} RunSparesExactly(s: State, actions: seq<Action>)
    requires Orderly(s) && AllSpare(s)
    ensures SpareThroughout(s, actions) <==> AllRoomy(s, actions)
    ensures AllRoomy(s, actions) ==> AllSpare(Run(s, actions))
    decreases |actions|
  {
    if actions != [] {
      NextSparesExactly(s, actions[0]);
      NextKeepsOrderly(s, actions[0]);
      if Roomy(s, actions[0]) { RunSparesExactly(Next(s, actions[0]), actions[1..]); }
    }
  }

  lemma InitialSpares()
    ensures Orderly(INITIAL) && AllSpare(INITIAL)
  {
    forall r: nat ensures Spare(INITIAL, r) { assert Owing(INITIAL, r) == {}; }
  }

  /** For every interleaving of any number of batches, instances and crashes: throughout the run no row has, or may yet get,
      more entries than claims if and only if every row that is read back has a claim to spare. */
  lemma ClaimsCoverExactly(actions: seq<Action>)
    ensures SpareThroughout(INITIAL, actions) <==> AllRoomy(INITIAL, actions)
  {
    InitialSpares();
    RunSparesExactly(INITIAL, actions);
  }

  /** The duplicate bound: in those runs a row reaches the stream at most once per claim, and its claims are exactly its
      stale steals, its failed attempts and the claim that holds or published it. */
  lemma DuplicateBound(actions: seq<Action>, r: nat)
    requires AllRoomy(INITIAL, actions) && r < |Run(INITIAL, actions).rows|
    ensures
      var s := Run(INITIAL, actions);
      && Entries(s.stream, r) <= Tally(s.log, r, Claims)
      && Tally(s.log, r, Claims) == Tally(s.log, r, Steals) + s.rows[r].attempts
                                    + (if s.rows[r].lockedAt.Some? || s.rows[r].publishedAt.Some? then 1 else 0)
  {
    InitialSpares();
    RunSparesExactly(INITIAL, actions);
    RunKeepsLocks(INITIAL, actions);
    var s := Run(INITIAL, actions);
    assert Spare(s, r) && RowMatchesLog(s.rows[r], s.log, r);
  }

  // ---- Who meets the condition ----

  /** The batches about to append a row have claimed it and not appended it. */
  lemma OwingClaimed(s: State, r: nat, b: nat)
    requires DupInv(s) && b in Owing(s, r)
    ensures b in Claimers(s.log, r) && b !in Appenders(s.stream, r)
  {
    assert BatchOk(s, b);
  }

  /** What a batch has claimed itself has a claim to spare: its own. */
  lemma OwnIsRoomy(s: State, a: Action)
    requires DupInv(s) && OwnReadBack(s, a)
    ensures Roomy(s, a)
  {
    if a.Hold? && a.b in s.batches && s.batches[a.b].stage.Holding? {
      var c := s.batches[a.b];
      assert BatchOk(s, a.b);
      forall r | r in ReadBack(s.rows, c.ids, c.now, c.who) ensures Entries(s.stream, r) + |Owing(s, r)| < Tally(s.log, r, Claims) {
        assert CountOk(s.log, s.stream, s.next, r);
        forall b | b in Owing(s, r) ensures b in Claimers(s.log, r) && b !in Appenders(s.stream, r) { OwingClaimed(s, r, b); }
        SubsetSize(Appenders(s.stream, r) + Owing(s, r), Claimers(s.log, r) - {a.b});
      }
    }
  }

  lemma {:induction false} RunOwnIsRoomy(s: State, actions: seq<Action>)
    requires DupInv(s) && OwnReadBacks(s, actions)
    ensures AllRoomy(s, actions)
    decreases |actions|
  {
    if actions != [] {
      OwnIsRoomy(s, actions[0]);
      NextKeepsDup(s, actions[0]);
      RunOwnIsRoomy(Next(s, actions[0]), actions[1..]);
    }
  }

  /** Batches that read back only what they claimed leave claims to spare. */
  lemma OwnReadBacksAreRoomy(actions: seq<Action>)
    requires OwnReadBacks(INITIAL, actions)
    ensures AllRoomy(INITIAL, actions)
  {
    forall q: nat ensures CountOk([], [], 0, q) {}
    RunOwnIsRoomy(INITIAL, actions);
  }

  /** And so does a scheduler that starts no batch while its instance still runs one. */
  lemma OneBatchIsRoomy(actions: seq<Action>)
    requires OneBatchAtATime(INITIAL, actions)
    ensures AllRoomy(INITIAL, actions)
  {
    OneBatchReadsOwn(actions);
    OwnReadBacksAreRoomy(actions);
  }

  // ---- A failing run ----

  ghost predicate Leads(s: State, t: State) { exists actions :: Run(s, actions) == t }

  lemma {:induction false} RunSnoc(s: State, actions: seq<Action>, a: Action)
    ensures Run(s, actions + [a]) == Next(Run(s, actions), a)
    decreases |actions|
  {
    if actions == [] {
      assert [a][1..] == [];
    } else {
      assert (actions + [a])[1..] == actions[1..] + [a];
      RunSnoc(Next(s, actions[0]), actions[1..], a);
    }
  }

  lemma LeadsNext(s: State, t: State, a: Action)
    requires Leads(s, t)
    ensures Leads(s, Next(t, a))
  {
    var actions :| Run(s, actions) == t;
    RunSnoc(s, actions, a);
  }

  function OwnBatch(ids: seq<nat>, stage: Stage): Batch { Batch("A", 60000, 100000, ids, stage) }

  lemma TwoRows() returns (s: State)
    ensures Leads(INITIAL, s) && s == State([FRESH_ROW, FRESH_ROW], map[], 0, [], [])
  {
    assert Run(INITIAL, []) == INITIAL;
    LeadsNext(INITIAL, INITIAL, Insert);
    s := Next(INITIAL, Insert);
    LeadsNext(INITIAL, s, Insert);
    s := Next(s, Insert);
  }

  /** Two batches of instance A, started at the same instant, have both run their candidate query. */
  lemma OverlapSelected() returns (s: State)
    ensures Leads(INITIAL, s)
    ensures s.rows == [FRESH_ROW, FRESH_ROW] && s.stream == [] && s.log == []
    ensures s.batches == map[0 := OwnBatch([0, 1], Selected), 1 := OwnBatch([0], Selected)]
  {
    s := TwoRows();
    LeadsNext(INITIAL, s, Select("A", 60000, 100000, 2, [0, 1]));
    s := Next(s, Select("A", 60000, 100000, 2, [0, 1]));
    LeadsNext(INITIAL, s, Select("A", 60000, 100000, 1, [0]));
    s := Next(s, Select("A", 60000, 100000, 1, [0]));
  }

  function OverlapEvent(row: nat, batch: nat): Event { Claimed(row, batch, "A", 100000, 60000, false) }

  /** The second batch leases row 0 first. */
  lemma OverlapFirstClaim(s: State) returns (t: State)
    requires Leads(INITIAL, s)
    requires s.rows == [FRESH_ROW, FRESH_ROW] && s.stream == [] && s.log == []
    requires s.batches == map[0 := OwnBatch([0, 1], Selected), 1 := OwnBatch([0], Selected)]
    ensures Leads(INITIAL, t)
    ensures |t.rows| == 2 && HeldSince(t.rows[0], 100000, "A") && t.rows[1] == FRESH_ROW && !Claimable(t.rows[0], 40000)
    ensures t.stream == [] && t.log == [] + [OverlapEvent(0, 1)]
    ensures t.batches == map[0 := OwnBatch([0, 1], Selected), 1 := OwnBatch([0], Holding)]
  {
    t := Next(s, Claim(1));
    assert [0][1..] == [];
    assert t == SetStage(ClaimOne(s, 1, 0), 1, Holding);
    LeadsNext(INITIAL, s, Claim(1));
  }

  lemma SecondRowOnly(s: State)
    requires 0 in s.batches && s.batches[0] == OwnBatch([0, 1], Selected) && |s.rows| == 2 && !Claimable(s.rows[0], 40000)
    ensures ClaimEach(s, 0, [0, 1]) == ClaimOne(s, 0, 1)
  {
    assert [0, 1][1..] == [1] && [1][1..] == [];
    assert ClaimOne(s, 0, 0) == s;
    assert ClaimEach(s, 0, [1]) == ClaimEach(ClaimOne(s, 0, 1), 0, []);
  }

  /** The first one then gets row 1 only. */
  lemma OverlapClaimed(s: State) returns (t: State)
    requires Leads(INITIAL, s)
    requires |s.rows| == 2 && HeldSince(s.rows[0], 100000, "A") && s.rows[1] == FRESH_ROW && !Claimable(s.rows[0], 40000)
    requires s.stream == [] && s.log == [] + [OverlapEvent(0, 1)]
    requires s.batches == map[0 := OwnBatch([0, 1], Selected), 1 := OwnBatch([0], Holding)]
    ensures Leads(INITIAL, t)
    ensures |t.rows| == 2 && HeldSince(t.rows[0], 100000, "A") && HeldSince(t.rows[1], 100000, "A")
    ensures t.stream == [] && Tally(t.log, 0, Claims) == 1
    ensures t.batches == map[0 := OwnBatch([0, 1], Holding), 1 := OwnBatch([0], Holding)]
  {
    SecondRowOnly(s);
    var u := ClaimOne(s, 0, 1);
    assert u.log == s.log + [OverlapEvent(1, 0)];
    t := Next(s, Claim(0));
    assert t == SetStage(u, 0, Holding);
    LeadsNext(INITIAL, s, Claim(0));
    TallyExtend([], OverlapEvent(0, 1), 0);
    TallyExtend(s.log, OverlapEvent(1, 0), 0);
  }

  /** Both read-backs return row 0, and both batches append it. */
  lemma OverlapAppended(s: State) returns (t: State)
    requires Leads(INITIAL, s)
    requires |s.rows| == 2 && HeldSince(s.rows[0], 100000, "A") && HeldSince(s.rows[1], 100000, "A") && s.stream == []
    requires s.batches == map[0 := OwnBatch([0, 1], Holding), 1 := OwnBatch([0], Holding)]
    ensures Leads(INITIAL, t) && t.rows == s.rows && t.log == s.log && Entries(t.stream, 0) == 2
  {
    ReadBackOfOwnClaim(s.rows, [0], 100000, "A");
    ReadBackOfOwnClaim(s.rows, [0, 1], 100000, "A");
    var u := Next(s, Hold(1));
    assert u == SetStage(s, 1, Sending([0]));
    LeadsNext(INITIAL, s, Hold(1));
    var v := Next(u, Hold(0));
    assert v == SetStage(u, 0, Sending([0, 1]));
    LeadsNext(INITIAL, u, Hold(0));
    var w := Next(v, Append(1));
    assert w == SetStage(AppendHead(v, 1, [0]), 1, Sent([0]));
    LeadsNext(INITIAL, v, Append(1));
    t := Next(w, Append(0));
    assert t == SetStage(AppendHead(w, 0, [0, 1]), 0, Sent([0, 1]));
    LeadsNext(INITIAL, w, Append(0));
    AppendersExtend(v.stream, Entry(0, 1), 0);
    AppendersExtend(w.stream, Entry(0, 0), 0);
  }

  /** The read-back names the owner by instance, so overlapping batches of one instance break the bound:
      one claim of row 0, two stream entries. */
  lemma OverlapBreaksBound()
    ensures exists actions ::
              var s := Run(INITIAL, actions);
              !AllRoomy(INITIAL, actions) && Tally(s.log, 0, Claims) == 1 && Entries(s.stream, 0) == 2
  {
    var s := OverlapSelected();
    s := OverlapFirstClaim(s);
    s := OverlapClaimed(s);
    s := OverlapAppended(s);
    var actions :| Run(INITIAL, actions) == s;
    if AllRoomy(INITIAL, actions) { DuplicateBound(actions, 0); }
  }
}
