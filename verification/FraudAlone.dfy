/** Calls of the fraud service that run one at a time, and may crash, meet every guard. */
module FraudAlone {
  import opened Common
  import opened FraudSignals
  import opened FraudSteps
  import opened FraudSpacing
  import opened FraudScores
  import opened FraudHolds
  import opened FraudCases
  import R = FraudReplay

  predicate Over(t: Task) { t.stage.Done? || !t.alive }

  /** No call is under way. */
  predicate Idle(w: World) { forall k :: 0 <= k < |w.tasks| ==> Over(w.tasks[k]) }

  /** A call starts only when none is under way. */
  predicate Alone(w: World, a: Action) { a.Look? || a.StartDecay? || a.StartHold? ==> Idle(w) }

  ghost predicate AllAlone(w: World, actions: seq<Action>)
    decreases |actions|
  {
    actions != [] ==> Alone(w, actions[0]) && AllAlone(Next(w, actions[0]), actions[1..])
  }

  /** What a call has read is still so. */
  predicate Fresh(stage: Stage, w: World) {
    match stage
    case Recording(_, _, _, seen) => seen == |w.signals|
    case Writing(_, user, _, score) => RiskOf(w.risk, user).score == score
    case Placing(_, _, _, seen, _, _) => seen == |w.holds|
    case Weighing(_, file, severity) => file < |w.cases| ==> w.cases[file].severity == severity
    case Aging(user, _, score, _) => RiskOf(w.risk, user).score == score
    case Sinking(user, _, score, seen, _) => RiskOf(w.risk, user).score == score && seen == |w.signals|
    case Noting(_, _, seen, _) => seen == |w.signals|
    case _ => true
  }

  /** Only the newest call may be under way, and what it has read is still so. */
  ghost predicate Serial(w: World) {
    forall k :: 0 <= k < |w.tasks| && !Over(w.tasks[k]) ==> k == |w.tasks| - 1 && Fresh(w.tasks[k].stage, w)
  }

  lemma SteppedSerial(w: World, k: nat)
    requires k < |w.tasks| && !Over(w.tasks[k]) && Fresh(w.tasks[k].stage, w)
    ensures Fresh(Stepped(w, k).tasks[k].stage, Stepped(w, k))
  {
  }

  lemma QueriedSerial(w: World, k: nat, rows: seq<nat>)
    requires k < |w.tasks| && w.tasks[k].stage.Filing?
    ensures Fresh(Queried(w, k, rows).tasks[k].stage, Queried(w, k, rows))
  {
  }

  lemma AddedSerial(w: World, a: Action)
    requires (a.Look? || a.StartDecay? || a.StartHold?) && |w.tasks| < |Next(w, a).tasks|
    ensures Fresh(Next(w, a).tasks[|w.tasks|].stage, Next(w, a))
  {
  }

  /** Steps of no call change nothing that calls read. */
  lemma OutsideSerial(w: World, a: Action, stage: Stage)
    requires Fresh(stage, w) && (a.Tick? || a.Release? || a.SetCase? || a.Crash?)
    ensures Fresh(stage, Next(w, a))
  {
  }

  lemma NextKeepsSerial(w: World, a: Action)
    requires Serial(w) && Alone(w, a)
    ensures Serial(Next(w, a))
  {
    var v := Next(w, a);
    TasksAfter(w, a);
    forall k | 0 <= k < |v.tasks| && !Over(v.tasks[k]) ensures k == |v.tasks| - 1 && Fresh(v.tasks[k].stage, v) {
      if a.Go? {
        if a.k < |w.tasks| { GoKeepsSerial(w, a.k, k); }
      } else if a.QueryCases? {
        QueryKeepsSerial(w, a, k);
      } else if a.Look? || a.StartDecay? || a.StartHold? {
        if |w.tasks| < |v.tasks| { AddedSerial(w, a); }
      } else {
        OutsideSerial(w, a, v.tasks[k].stage);
      }
    }
  }

  lemma GoKeepsSerial(w: World, g: nat, k: nat)
    requires Serial(w) && g < |w.tasks| && k < |Stepped(w, g).tasks| && !Over(Stepped(w, g).tasks[k])
    ensures k == |w.tasks| - 1 && Fresh(Stepped(w, g).tasks[k].stage, Stepped(w, g))
  {
    SteppedTasks(w, g);
    if !Over(w.tasks[g]) { SteppedSerial(w, g); } else { assert Stepped(w, g) == w; }
  }

  lemma QueryKeepsSerial(w: World, a: Action, k: nat)
    requires Serial(w) && a.QueryCases? && k < |Next(w, a).tasks| && !Over(Next(w, a).tasks[k])
    ensures k == |w.tasks| - 1 && Fresh(Next(w, a).tasks[k].stage, Next(w, a))
  {
    if a.k < |w.tasks| && w.tasks[a.k].stage.Filing? {
      QueriedTasks(w, a.k, a.caseRows);
      QueriedSerial(w, a.k, a.caseRows);
      if Over(w.tasks[a.k]) { assert Queried(w, a.k, a.caseRows) == w; }
    }
  }

  /** The guards of spacing, scores, holds and cases. */
  lemma SerialIsGuarded(w: World, a: Action, window: int)
    requires Serial(w)
    ensures Timely(w, a, window) && Unmoved(w, a) && Unrivalled(w, a) && Outweighs(w, a)
  {
    if a.Go? && a.k < |w.tasks| && !Over(w.tasks[a.k]) { assert Fresh(w.tasks[a.k].stage, w); }
  }

  lemma {:induction false} RunAloneIsGuarded(w: World, actions: seq<Action>, window: int)
    requires Serial(w) && AllAlone(w, actions)
    ensures AllTimely(w, actions, window) && AllUnmoved(w, actions) && AllUnrivalled(w, actions) && AllOutweigh(w, actions)
    decreases |actions|
  {
    if actions != [] {
      SerialIsGuarded(w, actions[0], window);
      NextKeepsSerial(w, actions[0]);
      RunAloneIsGuarded(Next(w, actions[0]), actions[1..], window);
    }
  }

  /** In runs whose calls come one at a time, crashes included: signals and decays are spaced, scores replay their writes,
      holds do not overlap and cases are as severe as their worst signal, throughout. */
  lemma AloneKeepsAllLaws(actions: seq<Action>, window: int)
    requires AllAlone(Empty(), actions) && WindowsAtLeast(actions, window)
    ensures SpacedThroughout(Empty(), actions, window) && ReplayedThroughout(Empty(), actions)
    ensures ApartThroughout(Empty(), actions) && WeighThroughout(Empty(), actions)
  {
    RunAloneIsGuarded(Empty(), actions, window);
    SpacedExactly(actions, window);
    ReplayedExactly(actions);
    HoldsApartExactly(actions);
    CasesWeighExactly(actions);
  }

  // ---- The signal log ----

  /** The call stands between a signal and its score. */
  predicate HalfWay(stage: Stage) { stage.Scoring? || stage.Writing? || stage.Noting? }

  /** No call crashes there. */
  predicate Whole(w: World, a: Action) { a.Crash? && a.k < |w.tasks| ==> !HalfWay(w.tasks[a.k].stage) }

  ghost predicate AllWhole(w: World, actions: seq<Action>)
    decreases |actions|
  {
    actions != [] ==> Whole(w, actions[0]) && AllWhole(Next(w, actions[0]), actions[1..])
  }

  ghost predicate OverWhole(w: World) { forall k :: 0 <= k < |w.tasks| && Over(w.tasks[k]) ==> !HalfWay(w.tasks[k].stage) }

  lemma NextKeepsWhole(w: World, a: Action)
    requires OverWhole(w) && Whole(w, a)
    ensures OverWhole(Next(w, a))
  {
    var v := Next(w, a);
    TasksAfter(w, a);
    forall k | 0 <= k < |v.tasks| && Over(v.tasks[k]) ensures !HalfWay(v.tasks[k].stage) {
      if k < |w.tasks| && v.tasks[k] != w.tasks[k] { TouchedWhole(w, a, k); }
      if k >= |w.tasks| { AddedWhole(w, a); }
    }
  }

  lemma TouchedWhole(w: World, a: Action, k: nat)
    requires Whole(w, a) && k < |w.tasks| && k < |Next(w, a).tasks| && Next(w, a).tasks[k] != w.tasks[k] && Over(Next(w, a).tasks[k])
    ensures !HalfWay(Next(w, a).tasks[k].stage)
  {
    TasksAfter(w, a);
  }

  lemma AddedWhole(w: World, a: Action)
    requires |w.tasks| < |Next(w, a).tasks|
    ensures !HalfWay(Next(w, a).tasks[|w.tasks|].stage)
  {
  }

  lemma SerialInTurn(w: World, a: Action, user: User)
    requires Serial(w) && OverWhole(w)
    ensures R.InTurn(w, a, user)
  {
    if Taken(w, a) != Done {
      assert !Over(w.tasks[a.k]);
      forall k | 0 <= k < |w.tasks| && k != a.k ensures !HalfWay(w.tasks[k].stage) { assert Over(w.tasks[k]); }
    }
  }

  lemma {:induction false} RunAloneInTurn(w: World, actions: seq<Action>, user: User)
    requires Serial(w) && OverWhole(w) && AllAlone(w, actions) && AllWhole(w, actions)
    ensures R.AllInTurn(w, actions, user) && OverWhole(Run(w, actions))
    decreases |actions|
  {
    if actions != [] {
      SerialInTurn(w, actions[0], user);
      NextKeepsSerial(w, actions[0]);
      NextKeepsWhole(w, actions[0]);
      RunAloneInTurn(Next(w, actions[0]), actions[1..], user);
    }
  }

  /** And when no call crashes between a signal and its score, the score is the clamped replay of the user's signals
      whenever no call is under way. */
  lemma AloneReplaysSignals(actions: seq<Action>, user: User)
    requires AllAlone(Empty(), actions) && AllWhole(Empty(), actions) && Idle(Run(Empty(), actions))
    ensures
      var w := Run(Empty(), actions);
      RiskOf(w.risk, user).score == R.Sum(R.Log(w, user), |R.Log(w, user)|)
  {
    RunAloneIsGuarded(Empty(), actions, 0);
    RunAloneInTurn(Empty(), actions, user);
    var w := Run(Empty(), actions);
    forall k | 0 <= k < |w.tasks| ensures !HalfWay(w.tasks[k].stage) { assert Over(w.tasks[k]); }
    R.RiskIsReplay(actions, user);
  }
}
