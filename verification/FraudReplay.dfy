/** When a risk score is the replay of the signal log itself, in the log's own order. */
module FraudReplay {
  import opened Common
  import opened FraudSignals
  import opened FraudSteps
  import opened FraudScores

  /** The deltas of the user's signals among the first `k`, oldest first. */
  function Logged(signals: seq<Signal>, user: User, k: nat): seq<int>
    requires k <= |signals|
  {
    if k == 0 then []
    else if signals[k - 1].user == Some(user) then Logged(signals, user, k - 1) + [signals[k - 1].delta]
    else Logged(signals, user, k - 1)
  }

  /** The deltas of the user's score writes among the first `k`, oldest first. */
  function Scored(writes: seq<Change>, user: User, k: nat): seq<int>
    requires k <= |writes|
  {
    if k == 0 then []
    else if writes[k - 1].user == user then Scored(writes, user, k - 1) + [writes[k - 1].delta]
    else Scored(writes, user, k - 1)
  }

  /** From 0, each of the first `k` deltas added and clamped. */
  function Sum(deltas: seq<int>, k: nat): int
    requires k <= |deltas|
  {
    if k == 0 then 0 else Clamp(Sum(deltas, k - 1) + deltas[k - 1])
  }

  function Log(w: World, user: User): seq<int> { Logged(w.signals, user, |w.signals|) }

  function Wrote(w: World, user: User): seq<int> { Scored(w.writes, user, |w.writes|) }

  /** Signals and score writes come in one order, the one ahead of the other or the other way round. */
  predicate InOrder(w: World, user: User) { Log(w, user) <= Wrote(w, user) || Wrote(w, user) <= Log(w, user) }

  lemma {:induction false} LoggedGrows(a: seq<Signal>, b: seq<Signal>, user: User, k: nat)
    requires Grown(a, b) && k <= |a|
    ensures Logged(b, user, k) == Logged(a, user, k)
  {
    if k > 0 { LoggedGrows(a, b, user, k - 1); }
  }

  lemma {:induction false} ScoredGrows(writes: seq<Change>, more: seq<Change>, user: User, k: nat)
    requires k <= |writes|
    ensures Scored(writes + more, user, k) == Scored(writes, user, k)
  {
    if k > 0 { ScoredGrows(writes, more, user, k - 1); }
  }

  /** The delta of `user` that a step logs, and the one that it writes. */
  function Logs(w: World, a: Action, user: User): Option<int> {
    match Taken(w, a)
    case Recording(input, _, _, _) => if input.user == Some(user) then Some(input.delta) else None
    case Noting(u, points, _, _) => if u == user then Some(-(points as int)) else None
    case _ => None
  }

  function Writes(w: World, a: Action, user: User): Option<int> {
    match Written(w, a)
    case Some((c, _)) => if c.user == user then Some(c.delta) else None
    case None => None
  }

  function Extended(deltas: seq<int>, d: Option<int>): seq<int> { if d.Some? then deltas + [d.value] else deltas }

  lemma LogAfter(w: World, a: Action, user: User)
    ensures Log(Next(w, a), user) == Extended(Log(w, user), Logs(w, a, user))
  {
    SignalsAfter(w, a);
    SignalsGrow(w, a);
    LoggedGrows(w.signals, Next(w, a).signals, user, |w.signals|);
  }

  lemma WroteAfter(w: World, a: Action, user: User)
    ensures Wrote(Next(w, a), user) == Extended(Wrote(w, user), Writes(w, a, user))
  {
    ScoresAfter(w, a);
    if Written(w, a).Some? { ScoredGrows(w.writes, [Written(w, a).value.0], user, |w.writes|); }
  }

  /** What comes second is what came first on the other side. */
  predicate Matches(w: World, a: Action, user: User) {
    var log, wrote := Log(w, user), Wrote(w, user);
    && (Logs(w, a, user).Some? && |log| < |wrote| ==> Logs(w, a, user).value == wrote[|log|])
    && (Writes(w, a, user).Some? && |wrote| < |log| ==> Writes(w, a, user).value == log[|wrote|])
  }

  /** One more delta on the longer or on an equal side changes nothing; on the shorter it must be the other's next. */
  lemma OneMore(a: seq<int>, b: seq<int>, d: int)
    requires a <= b || b <= a
    ensures a + [d] <= b || b <= a + [d] <==> (|a| < |b| ==> d == b[|a|])
  {
    if |a| < |b| {
      assert a == b[..|a|];
      assert b[..|a| + 1] == b[..|a|] + [b[|a|]];
      assert (a + [d])[|a|] == d;
    } else {
      assert (a + [d])[..|b|] == a[..|b|];
    }
  }

  lemma OneSide(w: World, a: Action, user: User)
    ensures Logs(w, a, user).None? || Writes(w, a, user).None?
  {
  }

  lemma NextInOrderExactly(w: World, a: Action, user: User)
    requires InOrder(w, user)
    ensures InOrder(Next(w, a), user) <==> Matches(w, a, user)
  {
    LogAfter(w, a, user);
    WroteAfter(w, a, user);
    OneSide(w, a, user);
    if Logs(w, a, user).Some? { OneMore(Log(w, user), Wrote(w, user), Logs(w, a, user).value); }
    if Writes(w, a, user).Some? { OneMore(Wrote(w, user), Log(w, user), Writes(w, a, user).value); }
  }

  ghost predicate InOrderThroughout(w: World, actions: seq<Action>, user: User)
    decreases |actions|
  {
    InOrder(w, user) && (actions != [] ==> InOrderThroughout(Next(w, actions[0]), actions[1..], user))
  }

  ghost predicate AllMatch(w: World, actions: seq<Action>, user: User)
    decreases |actions|
  {
    actions != [] ==> Matches(w, actions[0], user) && AllMatch(Next(w, actions[0]), actions[1..], user)
  }

  lemma {:induction false} RunInOrderExactly(w: World, actions: seq<Action>, user: User)
    requires InOrder(w, user)
    ensures InOrderThroughout(w, actions, user) <==> AllMatch(w, actions, user)
    decreases |actions|
  {
    if actions != [] {
      NextInOrderExactly(w, actions[0], user);
      if InOrder(Next(w, actions[0]), user) { RunInOrderExactly(Next(w, actions[0]), actions[1..], user); }
    }
  }

  /** For every interleaving with crashes, a user's signals and score writes come in one order throughout the run if and only
      if each one that comes second, signal or write, has the delta next in turn on the other side. */
  lemma InOrderExactly(actions: seq<Action>, user: User)
    ensures InOrderThroughout(Empty(), actions, user) <==> AllMatch(Empty(), actions, user)
  {
    RunInOrderExactly(Empty(), actions, user);
  }

  lemma {:induction false} EndsReplayed(w: World, actions: seq<Action>)
    requires ReplayedThroughout(w, actions)
    ensures Replayed(Run(w, actions))
    decreases |actions|
  {
    if actions != [] { EndsReplayed(Next(w, actions[0]), actions[1..]); }
  }

  lemma {:induction false} SumIsReplay(writes: seq<Change>, user: User, k: nat)
    requires k <= |writes|
    ensures Sum(Scored(writes, user, k), |Scored(writes, user, k)|) == Replay(writes, user, k)
  {
    if k > 0 {
      SumIsReplay(writes, user, k - 1);
      if writes[k - 1].user == user {
        SumGrows(Scored(writes, user, k - 1), [writes[k - 1].delta], |Scored(writes, user, k - 1)|);
      }
    }
  }

  lemma {:induction false} SumGrows(deltas: seq<int>, more: seq<int>, k: nat)
    requires k <= |deltas|
    ensures Sum(deltas + more, k) == Sum(deltas, k)
  {
    if k > 0 { SumGrows(deltas, more, k - 1); }
  }

  // ---- The guard on stages ----

  /** The signal of the user that a task has recorded and not scored, with its delta. */
  function Debt(stage: Stage, user: User): Option<(nat, int)> {
    match stage
    case Scoring(id, u, delta) => if u == user then Some((id, delta)) else None
    case Writing(id, u, delta, _) => if u == user then Some((id, delta)) else None
    case _ => None
  }

  /** The task has written a decay of the user and not recorded it. */
  predicate Notes(stage: Stage, user: User) { stage.Noting? && stage.user == user }

  /** A score is written only when no call of the user owes the score of an earlier signal, or is about to note a decay;
      while one is, no signal of the user is recorded. */
  predicate InTurn(w: World, a: Action, user: User) {
    match Taken(w, a)
    case Recording(input, _, _, _) => input.user == Some(user) ==> forall k :: 0 <= k < |w.tasks| ==> !Notes(w.tasks[k].stage, user)
    case Writing(id, u, _, _) => u == user ==> forall k :: 0 <= k < |w.tasks| ==>
      && !Notes(w.tasks[k].stage, user)
      && (Debt(w.tasks[k].stage, user).Some? ==> id <= Debt(w.tasks[k].stage, user).value.0)
    case Sinking(u, _, _, _, _) => u == user ==> forall k :: 0 <= k < |w.tasks| ==>
      !Notes(w.tasks[k].stage, user) && Debt(w.tasks[k].stage, user).None?
    case _ => true
  }

  ghost predicate AllInTurn(w: World, actions: seq<Action>, user: User)
    decreases |actions|
  {
    actions != [] ==> InTurn(w, actions[0], user) && AllInTurn(Next(w, actions[0]), actions[1..], user)
  }

  predicate Owed(tasks: seq<Task>, user: User, id: nat) {
    exists k :: 0 <= k < |tasks| && Debt(tasks[k].stage, user).Some? && Debt(tasks[k].stage, user).value.0 == id
  }

  ghost predicate DebtsKnown(w: World, user: User) {
    forall k :: 0 <= k < |w.tasks| && Debt(w.tasks[k].stage, user).Some? ==>
      var (id, delta) := Debt(w.tasks[k].stage, user).value;
      id < |w.signals| && w.signals[id].user == Some(user) && w.signals[id].delta == delta
  }

  ghost predicate DebtsApart(tasks: seq<Task>, user: User) {
    forall j, k :: 0 <= j < |tasks| && 0 <= k < |tasks| && j != k && Debt(tasks[j].stage, user).Some? ==>
      Debt(tasks[k].stage, user).None? || Debt(tasks[k].stage, user).value.0 != Debt(tasks[j].stage, user).value.0
  }

  ghost predicate NoDebt(tasks: seq<Task>, user: User) { forall k :: 0 <= k < |tasks| ==> Debt(tasks[k].stage, user).None? }

  ghost predicate NoNote(tasks: seq<Task>, user: User) { forall k :: 0 <= k < |tasks| ==> !Notes(tasks[k].stage, user) }

  /** The scores written are those of the first signals, and the others are owed. */
  ghost predicate Behind(w: World, user: User) {
    && NoNote(w.tasks, user) && Wrote(w, user) <= Log(w, user)
    && forall id :: 0 <= id < |w.signals| && w.signals[id].user == Some(user) ==>
         (Owed(w.tasks, user, id) <==> |Logged(w.signals, user, id)| >= |Wrote(w, user)|)
  }

  /** All signals are scored, and one decay is scored ahead of its signal, which task `k` will record. */
  ghost predicate Ahead(w: World, user: User, k: nat) {
    && k < |w.tasks| && Notes(w.tasks[k].stage, user) && NoDebt(w.tasks, user)
    && (forall j :: 0 <= j < |w.tasks| && j != k ==> !Notes(w.tasks[j].stage, user))
    && Wrote(w, user) == Log(w, user) + [-(w.tasks[k].stage.points as int)]
  }

  ghost predicate Turn(w: World, user: User) {
    DebtsKnown(w, user) && DebtsApart(w.tasks, user) && (Behind(w, user) || exists k :: Ahead(w, user, k))
  }

  lemma TurnInOrder(w: World, user: User)
    requires Turn(w, user)
    ensures InOrder(w, user)
  {
    if k: nat :| Ahead(w, user, k) {
      var p := -(w.tasks[k].stage.points as int);
      assert (Log(w, user) + [p])[..|Log(w, user)|] == Log(w, user);
    }
  }

  /** A signal of the user stands in the log where its rank says. */
  lemma {:induction false} RankAt(signals: seq<Signal>, user: User, id: nat, k: nat)
    requires id < k <= |signals| && signals[id].user == Some(user)
    ensures |Logged(signals, user, id)| < |Logged(signals, user, k)|
    ensures Logged(signals, user, k)[|Logged(signals, user, id)|] == signals[id].delta
  {
    if id < k - 1 { RankAt(signals, user, id, k - 1); }
  }

  lemma {:induction false} RankHas(signals: seq<Signal>, user: User, i: nat, k: nat) returns (id: nat)
    requires k <= |signals| && i < |Logged(signals, user, k)|
    ensures id < k && signals[id].user == Some(user) && |Logged(signals, user, id)| == i
  {
    if signals[k - 1].user == Some(user) && i == |Logged(signals, user, k - 1)| { id := k - 1; } else { id := RankHas(signals, user, i, k - 1); }
  }

  lemma NotOwed(tasks: seq<Task>, user: User, id: nat)
    requires NoDebt(tasks, user)
    ensures !Owed(tasks, user, id)
  {
  }

  /** With no signal owed, all are scored. */
  lemma NoDebtLevel(w: World, user: User)
    requires Behind(w, user) && NoDebt(w.tasks, user)
    ensures Wrote(w, user) == Log(w, user)
  {
    if |Wrote(w, user)| < |Log(w, user)| {
      var id := RankHas(w.signals, user, |Wrote(w, user)|, |w.signals|);
      NotOwed(w.tasks, user, id);
    }
  }

  // ---- What a step changes of it ----

  predicate Starts(a: Action) { a.Look? || a.StartDecay? || a.StartHold? }

  lemma SteppedDebt(w: World, k: nat, user: User)
    requires k < |w.tasks|
    ensures Debt(Stepped(w, k).tasks[k].stage, user)
         == match Current(w, k)
            case Recording(input, _, _, _) => if input.user == Some(user) then Some((|w.signals|, input.delta)) else None
            case Writing(_, _, _, _) => None
            case _ => Debt(w.tasks[k].stage, user)
  {
  }

  lemma SteppedNotes(w: World, k: nat, user: User)
    requires k < |w.tasks|
    ensures Notes(Stepped(w, k).tasks[k].stage, user)
         == match Current(w, k)
            case Sinking(u, _, _, _, _) => u == user
            case Noting(_, _, _, _) => false
            case _ => Notes(w.tasks[k].stage, user)
  {
  }

  lemma AddedFree(w: World, a: Action, user: User)
    requires Starts(a) && |w.tasks| < |Next(w, a).tasks|
    ensures Debt(Next(w, a).tasks[|w.tasks|].stage, user).None? && !Notes(Next(w, a).tasks[|w.tasks|].stage, user)
  {
  }

  lemma QueriedFree(w: World, k: nat, rows: seq<nat>, user: User)
    requires k < |w.tasks| && w.tasks[k].stage.Filing?
    ensures Debt(Queried(w, k, rows).tasks[k].stage, user).None? && !Notes(Queried(w, k, rows).tasks[k].stage, user)
  {
  }

  /** Nothing changes about what is owed and noted. */
  ghost predicate SameDebts(a: seq<Task>, b: seq<Task>, user: User) {
    && |a| <= |b|
    && (forall k :: 0 <= k < |a| ==> Debt(b[k].stage, user) == Debt(a[k].stage, user) && (Notes(b[k].stage, user) ==> b[k].stage == a[k].stage)
                                     && (Notes(a[k].stage, user) ==> b[k].stage == a[k].stage))
    && (forall k :: |a| <= k < |b| ==> Debt(b[k].stage, user).None? && !Notes(b[k].stage, user))
  }

  /** The step neither logs nor writes anything for the user. */
  predicate Quiet(w: World, a: Action, user: User) { Logs(w, a, user).None? && Writes(w, a, user).None? }

  lemma QuietGo(w: World, k: nat, user: User)
    requires k < |w.tasks| && Quiet(w, Go(k), user)
    ensures SameDebts(w.tasks, Stepped(w, k).tasks, user)
  {
    SteppedTasks(w, k);
    SteppedDebt(w, k, user);
    SteppedNotes(w, k, user);
  }

  lemma QuietSame(w: World, a: Action, user: User)
    requires Quiet(w, a, user)
    ensures SameDebts(w.tasks, Next(w, a).tasks, user)
  {
    TasksAfter(w, a);
    if a.Go? {
      if a.k < |w.tasks| { QuietGo(w, a.k, user); }
    } else if a.QueryCases? {
      if a.k < |w.tasks| && w.tasks[a.k].stage.Filing? { QueriedFree(w, a.k, a.caseRows, user); }
    } else if Starts(a) {
      if |w.tasks| < |Next(w, a).tasks| { AddedFree(w, a, user); }
    }
  }

  lemma SameOwed(a: seq<Task>, b: seq<Task>, user: User, id: nat)
    requires SameDebts(a, b, user)
    ensures Owed(a, user, id) <==> Owed(b, user, id)
  {
    if k :| 0 <= k < |a| && Debt(a[k].stage, user).Some? && Debt(a[k].stage, user).value.0 == id { assert Debt(b[k].stage, user) == Debt(a[k].stage, user); }
    if k :| 0 <= k < |b| && Debt(b[k].stage, user).Some? && Debt(b[k].stage, user).value.0 == id { assert Debt(b[k].stage, user) == Debt(a[k].stage, user); }
  }

  lemma OthersSignals(w: World, a: Action, user: User)
    requires Quiet(w, a, user)
    ensures forall id :: |w.signals| <= id < |Next(w, a).signals| ==> Next(w, a).signals[id].user != Some(user)
  {
    SignalsAfter(w, a);
  }

  lemma QuietKeepsBehind(w: World, a: Action, user: User)
    requires Behind(w, user) && Quiet(w, a, user)
    ensures Behind(Next(w, a), user)
  {
    var v := Next(w, a);
    QuietSame(w, a, user);
    LogAfter(w, a, user);
    WroteAfter(w, a, user);
    SignalsGrow(w, a);
    OthersSignals(w, a, user);
    forall id | 0 <= id < |v.signals| && v.signals[id].user == Some(user)
      ensures Owed(v.tasks, user, id) <==> |Logged(v.signals, user, id)| >= |Wrote(v, user)|
    {
      assert id < |w.signals|;
      SameOwed(w.tasks, v.tasks, user, id);
      LoggedGrows(w.signals, v.signals, user, id);
    }
  }

  lemma QuietKeepsDebts(w: World, a: Action, user: User)
    requires DebtsKnown(w, user) && DebtsApart(w.tasks, user) && Quiet(w, a, user)
    ensures DebtsKnown(Next(w, a), user) && DebtsApart(Next(w, a).tasks, user)
  {
    QuietSame(w, a, user);
    SignalsGrow(w, a);
  }

  lemma QuietKeepsTurn(w: World, a: Action, user: User)
    requires Turn(w, user) && Quiet(w, a, user)
    ensures Turn(Next(w, a), user)
  {
    QuietKeepsDebts(w, a, user);
    if Behind(w, user) {
      QuietKeepsBehind(w, a, user);
    } else {
      var k: nat :| Ahead(w, user, k);
      QuietSame(w, a, user);
      LogAfter(w, a, user);
      WroteAfter(w, a, user);
      assert Ahead(Next(w, a), user, k);
    }
  }

  /** A signal of the user is recorded. */
  lemma RecordKeepsTurn(w: World, k: nat, user: User)
    requires Turn(w, user) && k < |w.tasks| && Current(w, k).Recording? && Current(w, k).input.user == Some(user) && InTurn(w, Go(k), user)
    ensures Turn(Next(w, Go(k)), user)
  {
    var v, n := Next(w, Go(k)), |w.signals|;
    SteppedTasks(w, k);
    SteppedDebt(w, k, user);
    SteppedNotes(w, k, user);
    SignalsAfter(w, Go(k));
    LogAfter(w, Go(k), user);
    WroteAfter(w, Go(k), user);
    assert Behind(w, user);
    SignalsGrow(w, Go(k));
    forall id | 0 <= id < |v.signals| && v.signals[id].user == Some(user)
      ensures Owed(v.tasks, user, id) <==> |Logged(v.signals, user, id)| >= |Wrote(v, user)|
    {
      LoggedGrows(w.signals, v.signals, user, id);
      if id == n { assert Owed(v.tasks, user, n); } else { OwedElsewhere(w.tasks, v.tasks, user, k, id); }
    }
  }

  /** A change of one task leaves alone what the others owe. */
  lemma OwedElsewhere(a: seq<Task>, b: seq<Task>, user: User, k: nat, id: nat)
    requires k < |a| == |b| && forall j :: 0 <= j < |a| && j != k ==> b[j] == a[j]
    requires Debt(a[k].stage, user).Some? ==> Debt(a[k].stage, user).value.0 != id
    requires Debt(b[k].stage, user).Some? ==> Debt(b[k].stage, user).value.0 != id
    ensures Owed(a, user, id) <==> Owed(b, user, id)
  {
    if j :| 0 <= j < |a| && Debt(a[j].stage, user).Some? && Debt(a[j].stage, user).value.0 == id { assert b[j] == a[j]; }
    if j :| 0 <= j < |b| && Debt(b[j].stage, user).Some? && Debt(b[j].stage, user).value.0 == id { assert b[j] == a[j]; }
  }

  /** The first debt: no other is of an earlier signal. */
  ghost predicate FirstDebt(tasks: seq<Task>, user: User, id: nat) {
    forall j :: 0 <= j < |tasks| && Debt(tasks[j].stage, user).Some? ==> id <= Debt(tasks[j].stage, user).value.0
  }

  lemma EarlierNotOwed(tasks: seq<Task>, user: User, id: nat, i: nat)
    requires FirstDebt(tasks, user, id) && i < id
    ensures !Owed(tasks, user, i)
  {
  }

  /** The score written next, in turn, is that of the first signal not scored yet. */
  lemma WriteIsNext(w: World, k: nat, user: User, id: nat, delta: int)
    requires DebtsKnown(w, user) && Behind(w, user) && k < |w.tasks| && Debt(w.tasks[k].stage, user) == Some((id, delta))
    requires FirstDebt(w.tasks, user, id)
    ensures id < |w.signals| && w.signals[id].user == Some(user) && |Logged(w.signals, user, id)| == |Wrote(w, user)|
    ensures |Wrote(w, user)| < |Log(w, user)| && Log(w, user)[|Wrote(w, user)|] == delta
  {
    assert Owed(w.tasks, user, id);
    RankAt(w.signals, user, id, |w.signals|);
    if |Wrote(w, user)| < |Logged(w.signals, user, id)| {
      var first := RankHas(w.signals, user, |Wrote(w, user)|, id);
      EarlierNotOwed(w.tasks, user, id, first);
    }
  }

  lemma WriteKeepsDebts(w: World, k: nat, user: User)
    requires DebtsKnown(w, user) && DebtsApart(w.tasks, user)
    requires k < |w.tasks| && Current(w, k).Writing? && Current(w, k).user == user
    ensures DebtsKnown(Next(w, Go(k)), user) && DebtsApart(Next(w, Go(k)).tasks, user)
  {
    SteppedTasks(w, k);
    SteppedDebt(w, k, user);
    SignalsAfter(w, Go(k));
  }

  /** Task `k` pays its debt. */
  ghost predicate Pays(a: seq<Task>, b: seq<Task>, k: nat, user: User, id: nat, delta: int) {
    && k < |a| == |b| && Debt(a[k].stage, user) == Some((id, delta)) && Debt(b[k].stage, user).None? && !Notes(b[k].stage, user)
    && forall j :: 0 <= j < |a| && j != k ==> b[j] == a[j]
  }

  lemma PaidOnce(a: seq<Task>, b: seq<Task>, k: nat, user: User, id: nat, delta: int)
    requires Pays(a, b, k, user, id, delta) && DebtsApart(a, user)
    ensures !Owed(b, user, id)
  {
  }

  /** After it, the signals owed are those of a higher rank. */
  lemma WrittenOwed(w: World, tasks: seq<Task>, k: nat, user: User, id: nat, delta: int, i: nat)
    requires DebtsApart(w.tasks, user) && Behind(w, user) && Pays(w.tasks, tasks, k, user, id, delta)
    requires id < |w.signals| && w.signals[id].user == Some(user) && |Logged(w.signals, user, id)| == |Wrote(w, user)|
    requires i < |w.signals| && w.signals[i].user == Some(user)
    ensures Owed(tasks, user, i) <==> |Logged(w.signals, user, i)| >= |Wrote(w, user)| + 1
  {
    if i == id {
      PaidOnce(w.tasks, tasks, k, user, id, delta);
    } else {
      OwedElsewhere(w.tasks, tasks, user, k, i);
      if i < id { RankAt(w.signals, user, i, id); } else { RankAt(w.signals, user, id, i); }
    }
  }

  lemma PaidNotes(a: seq<Task>, b: seq<Task>, k: nat, user: User, id: nat, delta: int)
    requires Pays(a, b, k, user, id, delta) && NoNote(a, user)
    ensures NoNote(b, user)
  {
  }

  lemma LongerPrefix(a: seq<int>, b: seq<int>, d: int)
    requires a <= b && |a| < |b| && b[|a|] == d
    ensures a + [d] <= b
  {
  }

  lemma WrittenBehind(w: World, v: World, k: nat, user: User, id: nat, delta: int)
    requires DebtsKnown(w, user) && DebtsApart(w.tasks, user) && Behind(w, user) && Pays(w.tasks, v.tasks, k, user, id, delta)
    requires v.signals == w.signals && Wrote(v, user) == Wrote(w, user) + [delta] && FirstDebt(w.tasks, user, id)
    ensures Behind(v, user)
  {
    WriteIsNext(w, k, user, id, delta);
    PaidNotes(w.tasks, v.tasks, k, user, id, delta);
    LongerPrefix(Wrote(w, user), Log(w, user), delta);
    forall i | 0 <= i < |v.signals| && v.signals[i].user == Some(user)
      ensures Owed(v.tasks, user, i) <==> |Logged(v.signals, user, i)| >= |Wrote(v, user)|
    {
      WrittenOwed(w, v.tasks, k, user, id, delta, i);
    }
  }

  lemma WriteKeepsTurn(w: World, k: nat, user: User)
    requires Turn(w, user) && k < |w.tasks| && Current(w, k).Writing? && Current(w, k).user == user && InTurn(w, Go(k), user)
    ensures Turn(Next(w, Go(k)), user)
  {
    var id, delta := Current(w, k).id, Current(w, k).delta;
    assert Debt(w.tasks[k].stage, user) == Some((id, delta));
    assert Behind(w, user);
    WriteKeepsDebts(w, k, user);
    SteppedTasks(w, k);
    SteppedDebt(w, k, user);
    SteppedNotes(w, k, user);
    SignalsAfter(w, Go(k));
    WroteAfter(w, Go(k), user);
    WrittenBehind(w, Next(w, Go(k)), k, user, id, delta);
  }

  /** A decay is written. */
  lemma SinkKeepsTurn(w: World, k: nat, user: User)
    requires Turn(w, user) && k < |w.tasks| && Current(w, k).Sinking? && Current(w, k).user == user && InTurn(w, Go(k), user)
    ensures Turn(Next(w, Go(k)), user)
  {
    var v := Next(w, Go(k));
    assert Behind(w, user);
    NoDebtLevel(w, user);
    SteppedTasks(w, k);
    SteppedDebt(w, k, user);
    SteppedNotes(w, k, user);
    LogAfter(w, Go(k), user);
    WroteAfter(w, Go(k), user);
    assert v.tasks[k].stage.points == Current(w, k).points;
    assert Ahead(v, user, k);
  }

  lemma LevelIsBehind(v: World, user: User)
    requires NoNote(v.tasks, user) && NoDebt(v.tasks, user) && Wrote(v, user) == Log(v, user)
    ensures Turn(v, user)
  {
    forall id | 0 <= id < |v.signals| && v.signals[id].user == Some(user)
      ensures Owed(v.tasks, user, id) <==> |Logged(v.signals, user, id)| >= |Wrote(v, user)|
    {
      RankAt(v.signals, user, id, |v.signals|);
    }
    assert Behind(v, user);
  }

  /** And recorded. */
  lemma NoteKeepsTurn(w: World, k: nat, user: User)
    requires Turn(w, user) && k < |w.tasks| && Current(w, k).Noting? && Current(w, k).user == user
    ensures Turn(Next(w, Go(k)), user)
  {
    assert Notes(w.tasks[k].stage, user);
    assert Ahead(w, user, k);
    SteppedTasks(w, k);
    SteppedDebt(w, k, user);
    SteppedNotes(w, k, user);
    LogAfter(w, Go(k), user);
    WroteAfter(w, Go(k), user);
    LevelIsBehind(Next(w, Go(k)), user);
  }

  lemma NextKeepsTurn(w: World, a: Action, user: User)
    requires Turn(w, user) && InTurn(w, a, user)
    ensures Turn(Next(w, a), user)
  {
    if Quiet(w, a, user) {
      QuietKeepsTurn(w, a, user);
    } else {
      match Taken(w, a)
      case Recording(_, _, _, _) => RecordKeepsTurn(w, a.k, user);
      case Writing(_, _, _, _) => WriteKeepsTurn(w, a.k, user);
      case Sinking(_, _, _, _, _) => SinkKeepsTurn(w, a.k, user);
      case Noting(_, _, _, _) => NoteKeepsTurn(w, a.k, user);
    }
  }

  lemma {:induction false} RunKeepsTurn(w: World, actions: seq<Action>, user: User)
    requires Turn(w, user) && AllInTurn(w, actions, user)
    ensures InOrderThroughout(w, actions, user) && Turn(Run(w, actions), user)
    decreases |actions|
  {
    TurnInOrder(w, user);
    if actions != [] {
      NextKeepsTurn(w, actions[0], user);
      RunKeepsTurn(Next(w, actions[0]), actions[1..], user);
    }
  }

  /** When every call is in turn, a user's signals and score writes come in one order throughout the run. */
  lemma InTurnIsInOrder(actions: seq<Action>, user: User)
    requires AllInTurn(Empty(), actions, user)
    ensures InOrderThroughout(Empty(), actions, user) && AllMatch(Empty(), actions, user)
  {
    assert Behind(Empty(), user);
    RunKeepsTurn(Empty(), actions, user);
    InOrderExactly(actions, user);
  }

  /** When, besides, every write finds the score it read, and no call of the user stands, or crashed, between its signal and
      its score, the stored score is the clamped replay of the user's signals from 0, decays included. */
  lemma RiskIsReplay(actions: seq<Action>, user: User)
    requires AllUnmoved(Empty(), actions) && AllInTurn(Empty(), actions, user)
    requires NoDebt(Run(Empty(), actions).tasks, user) && NoNote(Run(Empty(), actions).tasks, user)
    ensures
      var w := Run(Empty(), actions);
      RiskOf(w.risk, user).score == Sum(Log(w, user), |Log(w, user)|)
  {
    var w := Run(Empty(), actions);
    ReplayedExactly(actions);
    EndsReplayed(Empty(), actions);
    assert Behind(Empty(), user);
    RunKeepsTurn(Empty(), actions, user);
    NoDebtLevel(w, user);
    SumIsReplay(w.writes, user, |w.writes|);
  }

  // ---- A failing run ----

  /** Two signals of one user are recorded, and the second is scored first. */
  function Swapping(user: User): seq<Action> { [Look(IpInput(user, LOW, 3), 30, [])] + ([Go(0)] + ThenSecond(user)) }

  function ThenSecond(user: User): seq<Action> { [Look(DeviceInput(user), 30, [])] + ([Go(1)] + ([Go(1)] + ([Go(1)] + []))) }

  lemma LoggedTwo(signals: seq<Signal>, user: User)
    requires |signals| == 2 && signals[0].user == signals[1].user == Some(user) && signals[0].delta == 3 && signals[1].delta == 20
    ensures Logged(signals, user, 2) == [3, 20]
  {
    assert Logged(signals, user, 0) == [];
    assert Logged(signals, user, 1) == [] + [3];
    assert [3] + [20] == [3, 20];
  }

  lemma SecondFirst(w: World, user: User, first: Task)
    requires w.signals == [NewSignal(IpInput(user, LOW, 3), 0)] && w.clock == 0 && w.tasks == [first] && w.writes == []
    ensures
      var v := Run(w, ThenSecond(user));
      Log(v, user) == [3, 20] && Wrote(v, user) == [20]
  {
    var input := DeviceInput(user);
    RecordsNewKind(w, input);
    TwoSteps(w, Look(input, 30, []), Go(1), [Go(1)] + ([Go(1)] + []));
    var u := Add(w, Scoring(1, user, 20)).(signals := w.signals + [NewSignal(input, 0)]);
    ScoresAlone(u, 1, 1, user, 20);
    TwoSteps(u, Go(1), Go(1), []);
    var v := Run(w, ThenSecond(user));
    assert v.writes == [] + [Change(user, 20)] && v.signals == u.signals;
    LoggedTwo(v.signals, user);
    assert Scored(v.writes, user, 1) == [] + [20];
  }

  /** From the empty tables: the log holds 3 and then 20 where 20 was written first. */
  lemma OverlapSwapsOrder(user: User)
    ensures
      var w := Run(Empty(), Swapping(user));
      Log(w, user) == [3, 20] && Wrote(w, user) == [20] && !InOrder(w, user)
  {
    var input := IpInput(user, LOW, 3);
    RecordsNewKind(Empty(), input);
    TwoSteps(Empty(), Look(input, 30, []), Go(0), ThenSecond(user));
    var v := Add(Empty(), Scoring(0, user, 3)).(signals := [] + [NewSignal(input, 0)]);
    SecondFirst(v, user, Task(Scoring(0, user, 3), true));
    assert [3, 20][0] != [20][0];
  }
}
