/** How far apart fraud signals are, when looks and writes interleave. */
module FraudSpacing {
  import opened Common
  import opened FraudSignals
  import opened FraudSteps

  /** Twenty rows among the first `n`, other than `i`, that the query for `user` and `kind` returns before row `i`. */
  ghost predicate Crowd(signals: seq<Signal>, i: nat, n: nat, user: Option<User>, kind: Kind, rows: seq<nat>)
    requires i < |signals|
  {
    && n <= |signals| && |rows| == PAGE && Indices(rows, n) && (forall k, m :: 0 <= k < m < |rows| ==> rows[k] != rows[m])
    && forall k :: 0 <= k < |rows| ==>
         rows[k] != i && Similar(user, kind, signals[rows[k]]) && signals[rows[k]].at >= signals[i].at
  }

  /** Row `i` is one that `t` must keep away from: for a decay any of its user's, otherwise a similar one with its pair
      key, if it has one. */
  predicate Concerns(t: Signal, s: Signal) {
    if t.kind.RISK_DECAY? then s.user == t.user
    else Similar(t.user, t.kind, s) && (t.pairKey.Some? ==> s.pairKey == t.pairKey)
  }

  function Gap(t: Signal, window: int): int { if t.kind.RISK_DECAY? then 30 * DAY else window }

  /** `t`, written after the first `n` rows, is more than its gap after row `i` if that one concerns it; a signal with a pair
      key may also have been hidden from it by twenty newer ones. */
  ghost predicate SpacedFrom(signals: seq<Signal>, n: nat, i: nat, t: Signal, window: int)
    requires i < |signals|
  {
    Concerns(t, signals[i]) ==>
      || t.at - signals[i].at > Gap(t, window)
      || (!t.kind.RISK_DECAY? && t.pairKey.Some? && exists rows :: Crowd(signals, i, n, t.user, t.kind, rows))
  }

  /** Every signal is spaced from every earlier one. */
  ghost predicate Spaced(signals: seq<Signal>, window: int) {
    forall i: nat, j: nat | i < j < |signals| :: SpacedFrom(signals, j, i, signals[j], window)
  }

  lemma SpacedFromKept(a: seq<Signal>, b: seq<Signal>, n: nat, i: nat, t: Signal, window: int)
    requires Grown(a, b) && i < |a| && n <= |a|
    ensures SpacedFrom(a, n, i, t, window) <==> SpacedFrom(b, n, i, t, window)
  {
    if rows :| Crowd(a, i, n, t.user, t.kind, rows) { assert Crowd(b, i, n, t.user, t.kind, rows); }
    if rows :| Crowd(b, i, n, t.user, t.kind, rows) { assert Crowd(a, i, n, t.user, t.kind, rows); }
  }

  predicate SameButCounts(s: Signal, t: Signal) { t == s.(occurrences := t.occurrences) }

  lemma SpacedFromSame(signals: seq<Signal>, n: nat, i: nat, s: Signal, t: Signal, window: int)
    requires i < |signals| && SameButCounts(s, t)
    ensures SpacedFrom(signals, n, i, s, window) <==> SpacedFrom(signals, n, i, t, window)
  {
  }

  lemma PairKept(a: seq<Signal>, b: seq<Signal>, i: nat, j: nat, window: int)
    requires Grown(a, b) && i < j < |a|
    ensures SpacedFrom(a, j, i, a[j], window) <==> SpacedFrom(b, j, i, b[j], window)
  {
    SpacedFromKept(a, b, j, i, a[j], window);
    SpacedFromSame(b, j, i, a[j], b[j], window);
  }

  /** Rows as they are, but for counts of occurrences. */
  lemma SameLengthSpaced(a: seq<Signal>, b: seq<Signal>, window: int)
    requires Grown(a, b) && |a| == |b| && Spaced(a, window)
    ensures Spaced(b, window)
  {
    forall i: nat, j: nat | i < j < |b| ensures SpacedFrom(b, j, i, b[j], window) { PairKept(a, b, i, j, window); }
  }

  /** One more row keeps the spacing exactly when it is spaced from all others. */
  lemma OneMoreSpaced(signals: seq<Signal>, t: Signal, window: int)
    requires Spaced(signals, window)
    ensures Spaced(signals + [t], window) <==> forall i: nat | i < |signals| :: SpacedFrom(signals, |signals|, i, t, window)
  {
    var after, n := signals + [t], |signals|;
    assert after[n] == t;
    forall i: nat | i < n ensures SpacedFrom(after, n, i, t, window) <==> SpacedFrom(signals, n, i, t, window) {
      SpacedFromKept(signals, after, n, i, t, window);
    }
    if forall i: nat | i < n :: SpacedFrom(signals, n, i, t, window) {
      forall i: nat, j: nat | i < j < |after| ensures SpacedFrom(after, j, i, after[j], window) {
        if j < n { PairKept(signals, after, i, j, window); }
      }
    }
    if Spaced(after, window) {
      forall i: nat | i < n ensures SpacedFrom(signals, n, i, t, window) { assert SpacedFrom(after, n, i, after[n], window); }
    }
  }

  // ---- What a look has established ----

  /** Among the first `seen` rows, none since `since` is similar, or with a pair key none that shows on the page `rows`. */
  ghost predicate ClearOf(signals: seq<Signal>, input: Input, since: int, rows: seq<nat>, seen: nat) {
    seen <= |signals| &&
    forall i: nat | i < seen :: Similar(input.user, input.kind, signals[i]) && signals[i].at >= since ==>
      input.pairKey.Some? && (signals[i].pairKey == input.pairKey ==> Crowd(signals, i, seen, input.user, input.kind, rows))
  }

  /** Among the first `seen` rows none is the user's and newer than 30 days before `lookAt`. */
  predicate Quiet(signals: seq<Signal>, user: User, lookAt: int, seen: nat) {
    seen <= |signals| && forall i: nat | i < seen :: signals[i].user == Some(user) ==> signals[i].at < lookAt - 30 * DAY
  }

  ghost predicate LookOk(stage: Stage, signals: seq<Signal>, clock: int, window: int) {
    match stage
    case Recording(input, since, rows, seen) =>
      !input.kind.RISK_DECAY? && since + window <= clock && ClearOf(signals, input, since, rows, seen)
    case Aging(_, _, _, startAt) => startAt <= clock
    case Sinking(user, _, _, seen, lookAt) => lookAt <= clock && Quiet(signals, user, lookAt, seen)
    case Noting(user, _, seen, lookAt) => lookAt <= clock && Quiet(signals, user, lookAt, seen)
    case _ => true
  }

  ghost predicate LooksOk(w: World, window: int) {
    forall k :: 0 <= k < |w.tasks| ==> LookOk(w.tasks[k].stage, w.signals, w.clock, window)
  }

  lemma ClearLater(a: seq<Signal>, b: seq<Signal>, input: Input, since: int, rows: seq<nat>, seen: nat)
    requires Grown(a, b) && ClearOf(a, input, since, rows, seen)
    ensures ClearOf(b, input, since, rows, seen)
  {
    forall i: nat | i < seen && Similar(input.user, input.kind, b[i]) && b[i].at >= since
      ensures input.pairKey.Some? && (b[i].pairKey == input.pairKey ==> Crowd(b, i, seen, input.user, input.kind, rows))
    {
      assert Similar(input.user, input.kind, a[i]) && a[i].at >= since;
    }
  }

  lemma LookLater(stage: Stage, a: seq<Signal>, b: seq<Signal>, clock: int, later: int, window: int)
    requires LookOk(stage, a, clock, window) && Grown(a, b) && clock <= later
    ensures LookOk(stage, b, later, window)
  {
    match stage
    case Recording(input, since, rows, seen) => ClearLater(a, b, input, since, rows, seen);
    case _ =>
  }

  lemma LookedClear(signals: seq<Signal>, input: Input, since: int, rows: seq<nat>)
    requires LatestSimilar(signals, input.user, input.kind, since, rows) && Existing(signals, rows, input.pairKey).None?
    ensures ClearOf(signals, input, since, rows, |signals|)
  {
    forall i: nat | i < |signals| && Similar(input.user, input.kind, signals[i]) && signals[i].at >= since
      ensures input.pairKey.Some? && (signals[i].pairKey == input.pairKey ==> Crowd(signals, i, |signals|, input.user, input.kind, rows))
    {
      if input.pairKey.None? || signals[i].pairKey == input.pairKey { assert i !in rows; }
    }
  }

  predicate WindowAtLeast(a: Action, window: int) { a.Look? ==> window <= a.minutes * 60000 }

  /** The stage that the touched task comes to. */
  lemma NewLookOk(w: World, a: Action, window: int)
    requires LooksOk(w, window) && WindowAtLeast(a, window) && Touched(w, a) < |Next(w, a).tasks|
    ensures LookOk(Next(w, a).tasks[Touched(w, a)].stage, Next(w, a).signals, Next(w, a).clock, window)
  {
    if a.Look? {
      NewRecordingOk(w, a.input, a.minutes, a.rows, window);
    } else if a.Go? {
      NewGoOk(w, a.k, window);
    } else if a.Crash? {
      TasksAfter(w, a);
      SignalsAfter(w, a);
    }
  }

  lemma NewRecordingOk(w: World, input: Input, minutes: nat, rows: seq<nat>, window: int)
    requires window <= minutes * 60000 && |w.tasks| < |Looked(w, input, minutes, rows).tasks|
    ensures LookOk(Looked(w, input, minutes, rows).tasks[|w.tasks|].stage, w.signals, w.clock, window)
  {
    if Existing(w.signals, rows, input.pairKey).None? { LookedClear(w.signals, input, w.clock - minutes * 60000, rows); }
  }

  lemma NewGoOk(w: World, k: nat, window: int)
    requires LooksOk(w, window) && k < |w.tasks|
    ensures LookOk(Stepped(w, k).tasks[k].stage, Stepped(w, k).signals, w.clock, window)
  {
    assert LookOk(w.tasks[k].stage, w.signals, w.clock, window);
    match Current(w, k)
    case Aging(user, points, score, startAt) =>
      if !RecentSignal(w.signals, user, startAt) { assert Quiet(w.signals, user, startAt, |w.signals|); }
    case Done => GrownSelf(w, k, window);
    case _ =>
  }

  lemma GrownSelf(w: World, k: nat, window: int)
    requires k < |w.tasks| && Current(w, k).Done? && LookOk(w.tasks[k].stage, w.signals, w.clock, window)
    ensures LookOk(Stepped(w, k).tasks[k].stage, Stepped(w, k).signals, w.clock, window)
  {
  }

  lemma NextKeepsLooks(w: World, a: Action, window: int)
    requires LooksOk(w, window) && WindowAtLeast(a, window)
    ensures LooksOk(Next(w, a), window)
  {
    var v := Next(w, a);
    TasksAfter(w, a);
    SignalsGrow(w, a);
    SignalsAfter(w, a);
    forall k | 0 <= k < |v.tasks| ensures LookOk(v.tasks[k].stage, v.signals, v.clock, window) {
      if k == Touched(w, a) {
        NewLookOk(w, a, window);
      } else {
        assert v.tasks[k] == w.tasks[k];
        LookLater(w.tasks[k].stage, w.signals, v.signals, w.clock, v.clock, window);
      }
    }
  }

  // ---- The exact guard ----

  /** The row that a step is about to add. */
  function Added(w: World, a: Action): Option<Signal> {
    match Taken(w, a)
    case Recording(input, _, _, _) => Some(NewSignal(input, w.clock))
    case Noting(user, points, _, _) => Some(DecaySignal(user, points, w.clock))
    case _ => None
  }

  function SeenBy(stage: Stage): nat {
    match stage
    case Recording(_, _, _, seen) => seen
    case Noting(_, _, seen, _) => seen
    case _ => 0
  }

  /** What is added is spaced from the rows that came after its look. */
  ghost predicate Timely(w: World, a: Action, window: int) {
    Added(w, a).Some? ==>
      forall i: nat | SeenBy(Taken(w, a)) <= i < |w.signals| :: SpacedFrom(w.signals, |w.signals|, i, Added(w, a).value, window)
  }

  lemma CrowdLater(signals: seq<Signal>, i: nat, n: nat, m: nat, user: Option<User>, kind: Kind, rows: seq<nat>)
    requires i < |signals| && n <= m <= |signals| && Crowd(signals, i, n, user, kind, rows)
    ensures Crowd(signals, i, m, user, kind, rows)
  {
  }

  /** From the rows it has looked at, a new row is spaced by its look. */
  lemma LookSpaces(w: World, a: Action, window: int, i: nat)
    requires LooksOk(w, window) && Added(w, a).Some? && i < SeenBy(Taken(w, a)) && i < |w.signals|
    ensures SpacedFrom(w.signals, |w.signals|, i, Added(w, a).value, window)
  {
    var t := Added(w, a).value;
    assert LookOk(w.tasks[a.k].stage, w.signals, w.clock, window);
    match Taken(w, a)
    case Recording(input, since, rows, seen) =>
      if Concerns(t, w.signals[i]) && w.signals[i].at >= since {
        CrowdLater(w.signals, i, seen, |w.signals|, input.user, input.kind, rows);
      }
    case Noting(user, _, _, lookAt) =>
  }

  lemma NextSpacedExactly(w: World, a: Action, window: int)
    requires LooksOk(w, window) && Spaced(w.signals, window)
    ensures Spaced(Next(w, a).signals, window) <==> Timely(w, a, window)
  {
    SignalsAfter(w, a);
    if Added(w, a).Some? {
      var t := Added(w, a).value;
      assert Next(w, a).signals == w.signals + [t];
      OneMoreSpaced(w.signals, t, window);
      forall i: nat | i < |w.signals| && i < SeenBy(Taken(w, a)) ensures SpacedFrom(w.signals, |w.signals|, i, t, window) {
        LookSpaces(w, a, window, i);
      }
    } else {
      SignalsGrow(w, a);
      SameLengthSpaced(w.signals, Next(w, a).signals, window);
    }
  }

  ghost predicate SpacedThroughout(w: World, actions: seq<Action>, window: int)
    decreases |actions|
  {
    Spaced(w.signals, window) && (actions != [] ==> SpacedThroughout(Next(w, actions[0]), actions[1..], window))
  }

  ghost predicate AllTimely(w: World, actions: seq<Action>, window: int)
    decreases |actions|
  {
    actions != [] ==> Timely(w, actions[0], window) && AllTimely(Next(w, actions[0]), actions[1..], window)
  }

  predicate WindowsAtLeast(actions: seq<Action>, window: int) { forall k :: 0 <= k < |actions| ==> WindowAtLeast(actions[k], window) }

  lemma {:induction false} RunSpacedExactly(w: World, actions: seq<Action>, window: int)
    requires LooksOk(w, window) && Spaced(w.signals, window) && WindowsAtLeast(actions, window)
    ensures SpacedThroughout(w, actions, window) <==> AllTimely(w, actions, window)
    decreases |actions|
  {
    if actions != [] {
      var v := Next(w, actions[0]);
      assert WindowAtLeast(actions[0], window);
      NextKeepsLooks(w, actions[0], window);
      NextSpacedExactly(w, actions[0], window);
      if Spaced(v.signals, window) {
        assert forall k :: 0 <= k < |actions[1..]| ==> actions[1..][k] == actions[k + 1];
        RunSpacedExactly(v, actions[1..], window);
      }
    }
  }

  /** For every interleaving with crashes: decays come more than 30 days after any earlier signal of their user, and new
      signals more than the dedupe window after any like them (pair keys apart, as above), throughout the run, if and
      only if each signal is spaced from those that came between its own look and its write. */
  lemma SpacedExactly(actions: seq<Action>, window: int)
    requires WindowsAtLeast(actions, window)
    ensures SpacedThroughout(Empty(), actions, window) <==> AllTimely(Empty(), actions, window)
  {
    RunSpacedExactly(Empty(), actions, window);
  }

  /** What the law says of two rows. */
  lemma SpacedMeans(signals: seq<Signal>, window: int, i: nat, j: nat)
    requires Spaced(signals, window) && i < j < |signals|
    ensures
      var s, t := signals[i], signals[j];
      && (t.kind.RISK_DECAY? && s.user == t.user ==> t.at - s.at > 2592000000)
      && (!t.kind.RISK_DECAY? && s.kind == t.kind && s.user == t.user && t.pairKey.None? ==> t.at - s.at > window)
      && (!t.kind.RISK_DECAY? && s.kind == t.kind && s.user == t.user && t.pairKey.Some? && s.pairKey == t.pairKey ==>
            t.at - s.at > window || exists rows :: Crowd(signals, i, j, t.user, t.kind, rows))
  {
    assert SpacedFrom(signals, j, i, signals[j], window);
  }

  // ---- A failing run ----

  /** Two detections of one event that both look before either records it. */
  function BothLook(input: Input): seq<Action> {
    [Look(input, 30, [])] + ([Look(input, 30, [])] + ([Go(0)] + ([Go(1)] + [])))
  }

  lemma TwinsUnspaced(s: Signal, window: int)
    requires !s.kind.RISK_DECAY? && s.pairKey.None? && window >= 0
    ensures !Spaced([s, s], window)
  {
    assert !SpacedFrom([s, s], 1, 0, [s, s][1], window);
  }

  lemma BothRecord(w: World, look: Stage)
    requires look.Recording? && w.tasks == [Task(look, true), Task(look, true)] && w.signals == []
    ensures Next(Next(w, Go(0)), Go(1)).signals == [NewSignal(look.input, w.clock), NewSignal(look.input, w.clock)]
  {
    TaskRecords(w, 0, look);
    var v := Next(w, Go(0));
    assert v.signals == [NewSignal(look.input, w.clock)] && AtStage(v, 1, look);
    TaskRecords(v, 1, look);
  }

  lemma BothLooked(input: Input)
    requires !input.kind.RISK_DECAY?
    ensures
      var look := Task(Recording(input, 0 - 30 * 60000, [], 0), true);
      Next(Next(Empty(), Look(input, 30, [])), Look(input, 30, [])) == Empty().(tasks := [look, look])
  {
    LooksNewKind(Empty(), input);
    LooksNewKind(Add(Empty(), Recording(input, 0 - 30 * 60000, [], 0)), input);
  }

  /** From the empty tables: two like signals at once, whatever the window. */
  lemma OverlapRecordsTwice(input: Input, window: int)
    requires !input.kind.RISK_DECAY? && input.pairKey.None? && window >= 0
    ensures
      var w := Run(Empty(), BothLook(input));
      w.signals == [NewSignal(input, 0), NewSignal(input, 0)] && !Spaced(w.signals, window)
  {
    var look := Recording(input, 0 - 30 * 60000, [], 0);
    var w := Empty().(tasks := [Task(look, true), Task(look, true)]);
    BothLooked(input);
    BothRecord(w, look);
    TwoSteps(Empty(), Look(input, 30, []), Look(input, 30, []), [Go(0)] + ([Go(1)] + []));
    TwoSteps(w, Go(0), Go(1), []);
    TwinsUnspaced(NewSignal(input, 0), window);
  }
}
