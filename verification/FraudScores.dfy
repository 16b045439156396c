/** Risk scores against the signals they come from, when reads and writes interleave. */
module FraudScores {
  import opened Common
  import opened FraudSignals
  import opened FraudSteps
  import FraudSpacing

  // ---- Every signal is scored once ----

  /** Signals among the first `k` with this user and delta. */
  function SignalCount(signals: seq<Signal>, c: Change, k: nat): nat
    requires k <= |signals|
  {
    if k == 0 then 0
    else SignalCount(signals, c, k - 1) + (if signals[k - 1].user == Some(c.user) && signals[k - 1].delta == c.delta then 1 else 0)
  }

  function WriteCount(writes: seq<Change>, c: Change, k: nat): nat
    requires k <= |writes|
  {
    if k == 0 then 0 else WriteCount(writes, c, k - 1) + (if writes[k - 1] == c then 1 else 0)
  }

  /** The task has recorded its signal and not written its score. */
  predicate Owes(stage: Stage, c: Change) {
    match stage
    case Scoring(_, user, delta) => Change(user, delta) == c
    case Writing(_, user, delta, _) => Change(user, delta) == c
    case _ => false
  }

  /** The task has written its score and not recorded its signal. */
  predicate Unnoted(stage: Stage, c: Change) {
    match stage
    case Noting(user, points, _, _) => Change(user, -(points as int)) == c
    case _ => false
  }

  function OwedCount(tasks: seq<Task>, c: Change, k: nat): nat
    requires k <= |tasks|
  {
    if k == 0 then 0 else OwedCount(tasks, c, k - 1) + (if Owes(tasks[k - 1].stage, c) then 1 else 0)
  }

  function UnnotedCount(tasks: seq<Task>, c: Change, k: nat): nat
    requires k <= |tasks|
  {
    if k == 0 then 0 else UnnotedCount(tasks, c, k - 1) + (if Unnoted(tasks[k - 1].stage, c) then 1 else 0)
  }

  /** Signals and score writes balance, up to the tasks, crashed ones too, that have done one and not the other. */
  predicate Conserved(w: World, c: Change) {
    SignalCount(w.signals, c, |w.signals|) + UnnotedCount(w.tasks, c, |w.tasks|)
    == WriteCount(w.writes, c, |w.writes|) + OwedCount(w.tasks, c, |w.tasks|)
  }

  lemma {:induction false} SignalCountGrows(a: seq<Signal>, b: seq<Signal>, c: Change, k: nat)
    requires Grown(a, b) && k <= |a|
    ensures SignalCount(b, c, k) == SignalCount(a, c, k)
  {
    if k > 0 { SignalCountGrows(a, b, c, k - 1); }
  }

  lemma {:induction false} WriteCountGrows(a: seq<Change>, more: seq<Change>, c: Change, k: nat)
    requires k <= |a|
    ensures WriteCount(a + more, c, k) == WriteCount(a, c, k)
  {
    if k > 0 { WriteCountGrows(a, more, c, k - 1); }
  }

  function Bit(b: bool): nat { if b then 1 else 0 }

  lemma {:induction false} TaskCountsKept(a: seq<Task>, b: seq<Task>, c: Change, k: nat)
    requires k <= |a| && k <= |b| && forall j :: 0 <= j < k ==> b[j].stage == a[j].stage
    ensures OwedCount(b, c, k) == OwedCount(a, c, k) && UnnotedCount(b, c, k) == UnnotedCount(a, c, k)
  {
    if k > 0 { TaskCountsKept(a, b, c, k - 1); }
  }

  /** One task changed. */
  lemma {:induction false} TaskCountsMoved(a: seq<Task>, b: seq<Task>, c: Change, t: nat, k: nat)
    requires t < k <= |a| && k <= |b| && forall j :: 0 <= j < k && j != t ==> b[j].stage == a[j].stage
    ensures OwedCount(b, c, k) + Bit(Owes(a[t].stage, c)) == OwedCount(a, c, k) + Bit(Owes(b[t].stage, c))
    ensures UnnotedCount(b, c, k) + Bit(Unnoted(a[t].stage, c)) == UnnotedCount(a, c, k) + Bit(Unnoted(b[t].stage, c))
  {
    if t == k - 1 { TaskCountsKept(a, b, c, k - 1); } else { TaskCountsMoved(a, b, c, t, k - 1); }
  }

  lemma TaskCountsAdded(a: seq<Task>, t: Task, c: Change)
    ensures OwedCount(a + [t], c, |a| + 1) == OwedCount(a, c, |a|) + Bit(Owes(t.stage, c))
    ensures UnnotedCount(a + [t], c, |a| + 1) == UnnotedCount(a, c, |a|) + Bit(Unnoted(t.stage, c))
  {
    TaskCountsKept(a, a + [t], c, |a|);
  }

  function SignalStep(stage: Stage, c: Change): nat {
    match stage
    case Recording(input, _, _, _) => Bit(input.user == Some(c.user) && input.delta == c.delta)
    case Noting(user, points, _, _) => Bit(Change(user, -(points as int)) == c)
    case _ => 0
  }

  function WriteStep(stage: Stage, c: Change): nat {
    match stage
    case Writing(_, user, delta, _) => Bit(Change(user, delta) == c)
    case Sinking(user, points, _, _, _) => Bit(Change(user, -(points as int)) == c)
    case _ => 0
  }

  lemma SignalsGrowBy(w: World, a: Action, c: Change)
    ensures
      var v := Next(w, a);
      SignalCount(v.signals, c, |v.signals|) == SignalCount(w.signals, c, |w.signals|) + SignalStep(Taken(w, a), c)
  {
    SignalsAfter(w, a);
    SignalsGrow(w, a);
    SignalCountGrows(w.signals, Next(w, a).signals, c, |w.signals|);
  }

  lemma WritesGrowBy(w: World, a: Action, c: Change)
    ensures
      var v := Next(w, a);
      WriteCount(v.writes, c, |v.writes|) == WriteCount(w.writes, c, |w.writes|) + WriteStep(Taken(w, a), c)
  {
    ScoresAfter(w, a);
    match Taken(w, a)
    case Writing(_, user, delta, _) => WriteCountGrows(w.writes, [Change(user, delta)], c, |w.writes|);
    case Sinking(user, points, _, _, _) => WriteCountGrows(w.writes, [Change(user, -(points as int))], c, |w.writes|);
    case _ =>
  }

  /** How a step moves the stage of its task. */
  lemma SteppedStage(w: World, k: nat, c: Change)
    requires k < |w.tasks|
    ensures
      var was, now := w.tasks[k].stage, Stepped(w, k).tasks[k].stage;
      SignalStep(Current(w, k), c) + Bit(Unnoted(now, c)) + Bit(Owes(was, c))
      == WriteStep(Current(w, k), c) + Bit(Owes(now, c)) + Bit(Unnoted(was, c))
  {
  }

  lemma GoConserves(w: World, k: nat, c: Change)
    requires Conserved(w, c) && k < |w.tasks|
    ensures Conserved(Next(w, Go(k)), c)
  {
    SignalsGrowBy(w, Go(k), c);
    WritesGrowBy(w, Go(k), c);
    SteppedStage(w, k, c);
    SteppedTasks(w, k);
    TaskCountsMoved(w.tasks, Stepped(w, k).tasks, c, k, |w.tasks|);
  }

  lemma NewTaskOwesNothing(w: World, a: Action, c: Change)
    requires a.Look? || a.StartDecay? || a.StartHold?
    ensures
      var tasks := Next(w, a).tasks;
      tasks == w.tasks || (|tasks| == |w.tasks| + 1 && tasks == w.tasks + [tasks[|w.tasks|]]
                           && !Owes(tasks[|w.tasks|].stage, c) && !Unnoted(tasks[|w.tasks|].stage, c))
  {
  }

  lemma QueryOwesNothing(w: World, k: nat, rows: seq<nat>, c: Change)
    requires k < |w.tasks| && w.tasks[k].stage.Filing?
    ensures !Owes(Queried(w, k, rows).tasks[k].stage, c) && !Unnoted(Queried(w, k, rows).tasks[k].stage, c)
  {
  }

  lemma QueryConserves(w: World, k: nat, rows: seq<nat>, c: Change)
    requires Conserved(w, c) && k < |w.tasks| && w.tasks[k].stage.Filing?
    ensures Conserved(Queried(w, k, rows), c)
  {
    QueriedTasks(w, k, rows);
    QueryOwesNothing(w, k, rows, c);
    TaskCountsMoved(w.tasks, Queried(w, k, rows).tasks, c, k, |w.tasks|);
  }

  lemma NewTaskConserves(w: World, a: Action, c: Change)
    requires Conserved(w, c) && (a.Look? || a.StartDecay? || a.StartHold?)
    ensures Conserved(Next(w, a), c)
  {
    SignalsGrowBy(w, a, c);
    WritesGrowBy(w, a, c);
    NewTaskOwesNothing(w, a, c);
    if Next(w, a).tasks != w.tasks { TaskCountsAdded(w.tasks, Next(w, a).tasks[|w.tasks|], c); }
  }

  lemma NextConserves(w: World, a: Action, c: Change)
    requires Conserved(w, c)
    ensures Conserved(Next(w, a), c)
  {
    if a.Go? {
      if a.k < |w.tasks| { GoConserves(w, a.k, c); }
    } else if a.QueryCases? {
      if a.k < |w.tasks| && w.tasks[a.k].stage.Filing? { QueryConserves(w, a.k, a.caseRows, c); }
    } else if a.Look? || a.StartDecay? || a.StartHold? {
      NewTaskConserves(w, a, c);
    } else {
      SignalsGrowBy(w, a, c);
      WritesGrowBy(w, a, c);
      TasksAfter(w, a);
      TaskCountsKept(w.tasks, Next(w, a).tasks, c, |w.tasks|);
    }
  }

  lemma {:induction false} RunConserves(w: World, actions: seq<Action>, c: Change)
    requires Conserved(w, c)
    ensures Conserved(Run(w, actions), c)
    decreases |actions|
  {
    if actions != [] {
      NextConserves(w, actions[0], c);
      RunConserves(Next(w, actions[0]), actions[1..], c);
    }
  }

  /** For every interleaving with crashes, and for every user and delta: the signals and the score writes with them are
      equally many, but for the calls that stand, or crashed, between the two. Repeats of a signal write nothing. */
  lemma SignalsMatchWrites(actions: seq<Action>, c: Change)
    ensures Conserved(Run(Empty(), actions), c)
  {
    RunConserves(Empty(), actions, c);
  }

  /** No task stands between its signal and its score. */
  predicate Settled(tasks: seq<Task>, c: Change) {
    forall k :: 0 <= k < |tasks| ==> !Owes(tasks[k].stage, c) && !Unnoted(tasks[k].stage, c)
  }

  lemma {:induction false} NobodyBetween(tasks: seq<Task>, c: Change, k: nat)
    requires k <= |tasks| && Settled(tasks, c)
    ensures OwedCount(tasks, c, k) == 0 && UnnotedCount(tasks, c, k) == 0
  {
    if k > 0 { NobodyBetween(tasks, c, k - 1); }
  }

  /** So when no call stands, or crashed, between the two, the log and the writes hold the same changes equally often. */
  lemma SettledSignalsAreWrites(actions: seq<Action>, c: Change)
    requires Settled(Run(Empty(), actions).tasks, c)
    ensures
      var w := Run(Empty(), actions);
      SignalCount(w.signals, c, |w.signals|) == WriteCount(w.writes, c, |w.writes|)
  {
    SignalsMatchWrites(actions, c);
    var w := Run(Empty(), actions);
    NobodyBetween(w.tasks, c, |w.tasks|);
  }

  // ---- The score is the replay of its writes ----

  /** From 0, each of the user's changes added and clamped. */
  function Replay(writes: seq<Change>, user: User, k: nat): (score: int)
    requires k <= |writes|
    ensures 0 <= score <= 100
  {
    if k == 0 then 0
    else if writes[k - 1].user == user then Clamp(Replay(writes, user, k - 1) + writes[k - 1].delta)
    else Replay(writes, user, k - 1)
  }

  /** The stored score of every user is the replay of the writes. */
  ghost predicate Replayed(w: World) {
    forall u :: RiskOf(w.risk, u).score == Replay(w.writes, u, |w.writes|)
  }

  /** Scores lie in 0..100, with the level that matches. */
  ghost predicate RiskOk(risk: map<User, Risk>) {
    forall u :: u in risk ==>
      && 0 <= risk[u].score <= 100
      && (risk[u].level == CRITICAL <==> risk[u].score >= 80) && (risk[u].level == HIGH <==> 50 <= risk[u].score < 80)
      && (risk[u].level == MEDIUM <==> 20 <= risk[u].score < 50) && (risk[u].level == LOW <==> risk[u].score < 20)
  }

  predicate ReadOk(stage: Stage) {
    match stage
    case Writing(_, _, _, score) => 0 <= score <= 100
    case Aging(_, _, score, _) => 0 <= score <= 100
    case Sinking(_, _, score, _, _) => 0 <= score <= 100
    case _ => true
  }

  ghost predicate ScoresOk(w: World) { RiskOk(w.risk) && forall k :: 0 <= k < |w.tasks| ==> ReadOk(w.tasks[k].stage) }

  lemma SteppedReadOk(w: World, k: nat)
    requires ScoresOk(w) && k < |w.tasks|
    ensures ReadOk(Stepped(w, k).tasks[k].stage)
  {
    assert ReadOk(w.tasks[k].stage);
  }

  lemma NewReadOk(w: World, a: Action)
    requires ScoresOk(w) && (a.Look? || a.StartDecay? || a.StartHold?) && |w.tasks| < |Next(w, a).tasks|
    ensures ReadOk(Next(w, a).tasks[|w.tasks|].stage)
  {
  }

  lemma TouchedReadOk(w: World, a: Action)
    requires ScoresOk(w) && Touched(w, a) < |Next(w, a).tasks|
    ensures ReadOk(Next(w, a).tasks[Touched(w, a)].stage)
  {
    TasksAfter(w, a);
    if a.Go? {
      SteppedReadOk(w, a.k);
    } else if a.Look? || a.StartDecay? || a.StartHold? {
      NewReadOk(w, a);
    } else if a.Crash? {
      assert ReadOk(w.tasks[a.k].stage);
    } else if a.QueryCases? {
      assert ReadOk(w.tasks[a.k].stage);
    }
  }

  lemma NextKeepsScores(w: World, a: Action)
    requires ScoresOk(w)
    ensures ScoresOk(Next(w, a))
  {
    var v := Next(w, a);
    TasksAfter(w, a);
    ScoresAfter(w, a);
    if a.Go? && a.k < |w.tasks| { assert ReadOk(w.tasks[a.k].stage); }
    forall k | 0 <= k < |v.tasks| ensures ReadOk(v.tasks[k].stage) {
      if k == Touched(w, a) { TouchedReadOk(w, a); } else { assert v.tasks[k] == w.tasks[k]; }
    }
  }

  lemma {:induction false} RunKeepsScores(w: World, actions: seq<Action>)
    requires ScoresOk(w)
    ensures ScoresOk(Run(w, actions))
    decreases |actions|
  {
    if actions != [] {
      NextKeepsScores(w, actions[0]);
      RunKeepsScores(Next(w, actions[0]), actions[1..]);
    }
  }

  /** For every interleaving scores stay in 0..100 and levels match, also where the replay fails. */
  lemma LevelsMatch(actions: seq<Action>)
    ensures RiskOk(Run(Empty(), actions).risk)
  {
    RunKeepsScores(Empty(), actions);
  }

  /** A configured decay below zero would raise scores; it keeps them in range exactly while it does not lift them past 100. */
  lemma DecayKeepsRange(r: Risk, decay: int)
    requires 0 <= r.score <= 100
    ensures 0 <= Decayed(r, decay).score <= 100 <==> r.score - decay <= 100
  {
  }

  /** The change that a step is about to write, and the score it read for it. */
  function Written(w: World, a: Action): Option<(Change, int)> {
    match Taken(w, a)
    case Writing(_, user, delta, score) => Some((Change(user, delta), score))
    case Sinking(user, points, score, _, _) => Some((Change(user, -(points as int)), score))
    case _ => None
  }

  /** The score read is still the score, or from both the change runs into the same end of the scale. */
  predicate Unmoved(w: World, a: Action) {
    match Written(w, a)
    case None => true
    case Some((c, read)) =>
      var now := RiskOf(w.risk, c.user).score;
      now == read || (now + c.delta <= 0 && read + c.delta <= 0) || (now + c.delta >= 100 && read + c.delta >= 100)
  }

  lemma ClampsAlike(a: int, b: int)
    ensures Clamp(a) == Clamp(b) <==> a == b || (a <= 0 && b <= 0) || (a >= 100 && b >= 100)
  {
  }

  lemma {:induction false} ReplayGrows(writes: seq<Change>, more: seq<Change>, user: User, k: nat)
    requires k <= |writes|
    ensures Replay(writes + more, user, k) == Replay(writes, user, k)
  {
    if k > 0 { ReplayGrows(writes, more, user, k - 1); }
  }

  /** What a written score comes to. */
  lemma WrittenScore(w: World, a: Action, u: User)
    requires ScoresOk(w)
    ensures
      var v := Next(w, a);
      match Written(w, a)
      case None => v.writes == w.writes && RiskOf(v.risk, u).score == RiskOf(w.risk, u).score
      case Some((c, read)) =>
        && v.writes == w.writes + [c]
        && RiskOf(v.risk, u).score == if u == c.user then Clamp(read + c.delta) else RiskOf(w.risk, u).score
  {
    ScoresAfter(w, a);
    if a.Go? && a.k < |w.tasks| { assert ReadOk(w.tasks[a.k].stage); }
  }

  lemma WriteReplays(w: World, a: Action, u: User)
    requires ScoresOk(w) && Replayed(w) && Written(w, a).Some?
    ensures
      var v := Next(w, a);
      var (c, read) := Written(w, a).value;
      RiskOf(v.risk, u).score == Replay(v.writes, u, |v.writes|)
      <==> u != c.user || Clamp(read + c.delta) == Clamp(RiskOf(w.risk, u).score + c.delta)
  {
    WrittenScore(w, a, u);
    ReplayGrows(w.writes, [Written(w, a).value.0], u, |w.writes|);
  }

  lemma NextReplayedExactly(w: World, a: Action)
    requires ScoresOk(w) && Replayed(w)
    ensures Replayed(Next(w, a)) <==> Unmoved(w, a)
  {
    if Written(w, a).None? {
      forall u ensures RiskOf(Next(w, a).risk, u).score == Replay(Next(w, a).writes, u, |Next(w, a).writes|) { WrittenScore(w, a, u); }
    } else {
      var (c, read) := Written(w, a).value;
      ClampsAlike(read + c.delta, RiskOf(w.risk, c.user).score + c.delta);
      if Unmoved(w, a) {
        forall u ensures RiskOf(Next(w, a).risk, u).score == Replay(Next(w, a).writes, u, |Next(w, a).writes|) { WriteReplays(w, a, u); }
      } else {
        WriteReplays(w, a, c.user);
      }
    }
  }

  ghost predicate ReplayedThroughout(w: World, actions: seq<Action>)
    decreases |actions|
  {
    Replayed(w) && (actions != [] ==> ReplayedThroughout(Next(w, actions[0]), actions[1..]))
  }

  ghost predicate AllUnmoved(w: World, actions: seq<Action>)
    decreases |actions|
  {
    actions != [] ==> Unmoved(w, actions[0]) && AllUnmoved(Next(w, actions[0]), actions[1..])
  }

  lemma {:induction false} RunReplayedExactly(w: World, actions: seq<Action>)
    requires ScoresOk(w) && Replayed(w)
    ensures ReplayedThroughout(w, actions) <==> AllUnmoved(w, actions)
    decreases |actions|
  {
    if actions != [] {
      NextKeepsScores(w, actions[0]);
      NextReplayedExactly(w, actions[0]);
      if Replayed(Next(w, actions[0])) { RunReplayedExactly(Next(w, actions[0]), actions[1..]); }
    }
  }

  /** For every interleaving with crashes, the stored scores are the replay of their writes throughout the run if and only
      if every write finds the score it read, or one from which it runs into the same end of the scale. */
  lemma ReplayedExactly(actions: seq<Action>)
    ensures ReplayedThroughout(Empty(), actions) <==> AllUnmoved(Empty(), actions)
  {
    RunReplayedExactly(Empty(), actions);
  }

  // ---- A failing run: two decay crons ----

  /** One detection is scored, and 31 days pass. */
  function ScoredOnce(user: User): seq<Action> {
    [Look(DeviceInput(user), 30, [])] + ([Go(0)] + ([Go(0)] + ([Go(0)] + ([Tick(31 * DAY)] + []))))
  }

  lemma ScoredRun(user: User)
    ensures
      var w := Run(Empty(), ScoredOnce(user));
      && w.clock == 31 * DAY && w.signals == [NewSignal(DeviceInput(user), 0)] && w.risk == map[user := Risk(20, MEDIUM)]
      && w.writes == [Change(user, 20)] && w.tasks == [Task(Filing(0), true)]
  {
    var input := DeviceInput(user);
    var look := Recording(input, 0 - 30 * 60000, [], 0);
    var w1 := Next(Empty(), Look(input, 30, []));
    assert w1 == Empty().(tasks := [] + [Task(look, true)]);
    var w2 := Next(w1, Go(0));
    assert w2 == Empty().(tasks := [Task(Scoring(0, user, 20), true)], signals := [NewSignal(input, 0)]);
    var w3 := Next(w2, Go(0));
    assert w3 == w2.(tasks := [Task(Writing(0, user, 20, 0), true)], risk := map[user := Risk(0, LOW)]);
    var w4 := Next(w3, Go(0));
    assert w4 == w3.(tasks := [Task(Filing(0), true)], risk := map[user := Risk(20, MEDIUM)], writes := [Change(user, 20)]);
    RunStep(Empty(), Look(input, 30, []), [Go(0)] + ([Go(0)] + ([Go(0)] + ([Tick(31 * DAY)] + []))));
    RunStep(w1, Go(0), [Go(0)] + ([Go(0)] + ([Tick(31 * DAY)] + [])));
    RunStep(w2, Go(0), [Go(0)] + ([Tick(31 * DAY)] + []));
    RunStep(w3, Go(0), [Tick(31 * DAY)] + []);
    RunStep(w4, Tick(31 * DAY), []);
  }

  /** Two crons read the score, look for signals, then write and note one after the other. */
  function TwoCrons(user: User, points: nat): seq<Action> {
    [StartDecay(user, points)] + ([StartDecay(user, points)] + ([Go(1)] + ([Go(2)] + ([Go(1)] + ([Go(2)] + ([Go(1)] + ([Go(2)] + [])))))))
  }

  lemma CronsLook(w: World, user: User, points: nat)
    requires user in w.risk && w.risk[user].score > 0 && !RecentSignal(w.signals, user, w.clock) && |w.tasks| == 1
    ensures
      var v := Next(Next(Next(Next(w, StartDecay(user, points)), StartDecay(user, points)), Go(1)), Go(2));
      var sink := Task(Sinking(user, points, w.risk[user].score, |w.signals|, w.clock), true);
      v == w.(tasks := w.tasks + [sink, sink])
  {
    var age := Task(Aging(user, points, w.risk[user].score, w.clock), true);
    var sink := Task(Sinking(user, points, w.risk[user].score, |w.signals|, w.clock), true);
    var v1 := Next(w, StartDecay(user, points));
    assert v1 == w.(tasks := w.tasks + [age]);
    var v2 := Next(v1, StartDecay(user, points));
    assert v2 == w.(tasks := w.tasks + [age] + [age]);
    var v3 := Next(v2, Go(1));
    assert v3 == w.(tasks := w.tasks + [sink] + [age]);
    var v4 := Next(v3, Go(2));
    assert v4 == w.(tasks := w.tasks + [sink] + [sink]);
    assert w.tasks + [sink] + [sink] == w.tasks + [sink, sink];
  }

  lemma CronsWrite(w: World, first: Task, user: User, points: nat, score: int, seen: nat, lookAt: int)
    requires w.tasks == [first] + [Task(Sinking(user, points, score, seen, lookAt), true), Task(Sinking(user, points, score, seen, lookAt), true)]
    ensures
      var v := Next(Next(Next(Next(w, Go(1)), Go(2)), Go(1)), Go(2));
      && v.risk == w.risk[user := Decayed(Risk(score, LOW), points)]
      && v.writes == w.writes + [Change(user, -(points as int)), Change(user, -(points as int))]
      && v.signals == w.signals + [DecaySignal(user, points, w.clock), DecaySignal(user, points, w.clock)]
  {
    var sink, note := Task(Sinking(user, points, score, seen, lookAt), true), Task(Noting(user, points, seen, lookAt), true);
    var done := Task(Done, true);
    var r, c, s := Decayed(Risk(score, LOW), points), Change(user, -(points as int)), DecaySignal(user, points, w.clock);
    var v1 := Next(w, Go(1));
    assert v1 == w.(tasks := [first, note, sink], risk := w.risk[user := r], writes := w.writes + [c]);
    var v2 := Next(v1, Go(2));
    assert v2 == w.(tasks := [first, note, note], risk := w.risk[user := r], writes := w.writes + [c] + [c]);
    var v3 := Next(v2, Go(1));
    assert v3 == v2.(tasks := [first, done, note], signals := w.signals + [s]);
    var v4 := Next(v3, Go(2));
    assert v4 == v2.(tasks := [first, done, done], signals := w.signals + [s] + [s]);
    assert w.writes + [c] + [c] == w.writes + [c, c] && w.signals + [s] + [s] == w.signals + [s, s];
  }

  lemma RunEight(w: World, user: User, points: nat)
    ensures
      var looked := Next(Next(Next(Next(w, StartDecay(user, points)), StartDecay(user, points)), Go(1)), Go(2));
      Run(w, TwoCrons(user, points)) == Next(Next(Next(Next(looked, Go(1)), Go(2)), Go(1)), Go(2))
  {
    var d := StartDecay(user, points);
    var w1 := Next(w, d);
    var w2 := Next(w1, d);
    var w3 := Next(w2, Go(1));
    var w4 := Next(w3, Go(2));
    RunStep(w, d, [d] + ([Go(1)] + ([Go(2)] + ([Go(1)] + ([Go(2)] + ([Go(1)] + ([Go(2)] + [])))))));
    RunStep(w1, d, [Go(1)] + ([Go(2)] + ([Go(1)] + ([Go(2)] + ([Go(1)] + ([Go(2)] + []))))));
    RunStep(w2, Go(1), [Go(2)] + ([Go(1)] + ([Go(2)] + ([Go(1)] + ([Go(2)] + [])))));
    RunStep(w3, Go(2), [Go(1)] + ([Go(2)] + ([Go(1)] + ([Go(2)] + []))));
    RunStep(w4, Go(1), [Go(2)] + ([Go(1)] + ([Go(2)] + [])));
    var w5 := Next(w4, Go(1));
    RunStep(w5, Go(2), [Go(1)] + ([Go(2)] + []));
    var w6 := Next(w5, Go(2));
    RunStep(w6, Go(1), [Go(2)] + []);
    RunStep(Next(w6, Go(1)), Go(2), []);
  }

  /** From the empty tables: both crons write the same score, so it falls by the points once, while the log holds two
      decays of the same instant and replays twice the points. */
  lemma TwoCronsDecayOnce(user: User, points: nat)
    requires 0 < points <= 10
    ensures
      var w := Run(Run(Empty(), ScoredOnce(user)), TwoCrons(user, points));
      && user in w.risk && w.risk[user].score == 20 - points && Replay(w.writes, user, |w.writes|) == 20 - 2 * points
      && !Replayed(w) && !FraudSpacing.Spaced(w.signals, 0)
      && w.signals == [NewSignal(DeviceInput(user), 0), DecaySignal(user, points, 31 * DAY), DecaySignal(user, points, 31 * DAY)]
  {
    ScoredRun(user);
    var w := Run(Empty(), ScoredOnce(user));
    RunEight(w, user, points);
    CronsLook(w, user, points);
    var looked := Next(Next(Next(Next(w, StartDecay(user, points)), StartDecay(user, points)), Go(1)), Go(2));
    CronsWrite(looked, w.tasks[0], user, points, 20, 1, 31 * DAY);
    var end := Run(w, TwoCrons(user, points));
    TwiceReplayed(user, points);
    assert end.writes == [Change(user, 20), Change(user, -(points as int)), Change(user, -(points as int))];
    assert RiskOf(end.risk, user).score == 20 - points;
    assert !FraudSpacing.SpacedFrom(end.signals, 2, 1, end.signals[2], 0);
  }

  lemma TwiceReplayed(user: User, points: nat)
    requires 0 < points <= 10
    ensures
      var c := Change(user, -(points as int));
      Replay([Change(user, 20), c, c], user, 3) == 20 - 2 * points
  {
    var c := Change(user, -(points as int));
    var writes := [Change(user, 20), c, c];
    assert Replay(writes, user, 1) == 20;
    assert Replay(writes, user, 2) == 20 - points;
  }
}
