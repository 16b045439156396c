/** The severity of fraud cases, when calls that file signals in one case interleave. */
module FraudCases {
  import opened Common
  import opened FraudSignals
  import opened FraudSteps

  /** The severity is the greatest among the signals it was written for. */
  ghost predicate Weighs(c: Case, counted: set<nat>, signals: seq<Signal>) {
    && (forall l :: l in counted ==> l < |signals| && Order(signals[l].severity) <= Order(c.severity))
    && (exists l :: l in counted && signals[l].severity == c.severity)
  }

  /** The law: every case is as severe as the worst signal counted in it. */
  ghost predicate CasesWeigh(w: World) {
    |w.counted| == |w.cases| && forall c :: 0 <= c < |w.cases| ==> Weighs(w.cases[c], w.counted[c], w.signals)
  }

  // ---- What links and counts have to do with each other ----

  predicate StageOk(stage: Stage, w: World) {
    match stage
    case Scoring(id, _, _) => id < |w.signals|
    case Writing(id, _, _, _) => id < |w.signals|
    case Guarding(id, _, _) => id < |w.signals|
    case Placing(_, _, _, _, _, next) => next.Some? ==> next.value < |w.signals|
    case Repeating(id, _) => id < |w.signals|
    case Filing(id) => id < |w.signals|
    case Opening(id) => id < |w.signals|
    case Weighing(id, file, _) => id < |w.signals| && file < |w.cases| && Fits(w.signals[id], w.cases[file])
    case Linking(id, file) => id < |w.signals| && file < |w.cases| && file < |w.counted| && id in w.counted[file]
    case _ => true
  }

  /** A signal is filed only with its user's cases, or with any if it has no user. */
  predicate Fits(s: Signal, c: Case) { s.user.Some? ==> c.user == s.user }

  ghost predicate LinkedOnly(c: Case, counted: set<nat>, signals: seq<Signal>, file: nat, tasks: seq<Task>) {
    && c.links <= counted
    && (forall l :: l in counted ==> l < |signals| && Fits(signals[l], c))
    && (forall l :: l in counted && l !in c.links ==> exists k :: 0 <= k < |tasks| && tasks[k].stage == Linking(l, file))
  }

  /** Every signal counted in a case is its user's and is linked to it, or waits for its link; links are counted. */
  ghost predicate LinksOk(w: World) {
    && |w.counted| == |w.cases|
    && (forall k :: 0 <= k < |w.tasks| ==> StageOk(w.tasks[k].stage, w))
    && (forall c :: 0 <= c < |w.cases| ==> LinkedOnly(w.cases[c], w.counted[c], w.signals, c, w.tasks))
  }

  /** What never changes about rows. */
  predicate Kept(w: World, v: World) {
    && Grown(w.signals, v.signals) && |w.cases| <= |v.cases| && |w.counted| <= |v.counted| && |v.counted| == |v.cases|
    && (forall c :: 0 <= c < |w.cases| ==> v.cases[c].user == w.cases[c].user)
    && (forall c :: 0 <= c < |w.counted| ==> w.counted[c] <= v.counted[c])
  }

  lemma NextKept(w: World, a: Action)
    requires |w.counted| == |w.cases|
    ensures Kept(w, Next(w, a))
  {
    SignalsGrow(w, a);
    CasesAfter(w, a);
  }

  lemma StageLater(stage: Stage, w: World, v: World)
    requires StageOk(stage, w) && Kept(w, v)
    ensures StageOk(stage, v)
  {
  }

  lemma SteppedStageOk(w: World, k: nat)
    requires LinksOk(w) && k < |w.tasks|
    ensures StageOk(Stepped(w, k).tasks[k].stage, Stepped(w, k))
  {
    assert StageOk(w.tasks[k].stage, w);
  }

  lemma QueriedStageOk(w: World, k: nat, rows: seq<nat>)
    requires LinksOk(w) && k < |w.tasks| && w.tasks[k].stage.Filing?
    ensures StageOk(Queried(w, k, rows).tasks[k].stage, w)
  {
    assert StageOk(w.tasks[k].stage, w);
    var id := w.tasks[k].stage.id;
    if LatestCases(w.cases, w.signals[id].user, w.clock - 24 * HOUR, rows) {
      var chosen := Chosen(w.cases, rows, w.signals[id].pairKey);
      if chosen.Some? {
        var n :| 0 <= n < |rows| && rows[n] == chosen.value;
        assert Attachable(w.cases[rows[n]], w.signals[id].user, w.clock - 24 * HOUR);
      }
    }
  }

  lemma AddedStageOk(w: World, a: Action)
    requires LinksOk(w) && (a.Look? || a.StartDecay? || a.StartHold?) && |w.tasks| < |Next(w, a).tasks|
    ensures StageOk(Next(w, a).tasks[|w.tasks|].stage, w)
  {
  }

  lemma TouchedStageOk(w: World, a: Action)
    requires LinksOk(w) && Touched(w, a) < |Next(w, a).tasks|
    ensures StageOk(Next(w, a).tasks[Touched(w, a)].stage, Next(w, a))
  {
    TasksAfter(w, a);
    NextKept(w, a);
    if a.Go? {
      SteppedStageOk(w, a.k);
    } else if a.QueryCases? {
      if w.tasks[a.k].stage.Filing? { QueriedStageOk(w, a.k, a.caseRows); } else { assert StageOk(w.tasks[a.k].stage, w); }
      StageLater(Next(w, a).tasks[a.k].stage, w, Next(w, a));
    } else if a.Look? || a.StartDecay? || a.StartHold? {
      AddedStageOk(w, a);
      StageLater(Next(w, a).tasks[|w.tasks|].stage, w, Next(w, a));
    } else {
      assert a.Crash? && StageOk(w.tasks[a.k].stage, w);
      StageLater(w.tasks[a.k].stage, w, Next(w, a));
    }
  }

  lemma NextKeepsStages(w: World, a: Action)
    requires LinksOk(w)
    ensures forall k :: 0 <= k < |Next(w, a).tasks| ==> StageOk(Next(w, a).tasks[k].stage, Next(w, a))
  {
    var v := Next(w, a);
    TasksAfter(w, a);
    NextKept(w, a);
    forall k | 0 <= k < |v.tasks| ensures StageOk(v.tasks[k].stage, v) {
      if k == Touched(w, a) {
        TouchedStageOk(w, a);
      } else {
        assert v.tasks[k] == w.tasks[k];
        StageLater(w.tasks[k].stage, w, v);
      }
    }
  }

  /** A waiting link stays, except the one that its own task makes. */
  lemma LinkWaits(w: World, a: Action, l: nat, file: nat)
    requires exists k :: 0 <= k < |w.tasks| && w.tasks[k].stage == Linking(l, file)
    ensures Taken(w, a) == Linking(l, file)
            || exists k :: 0 <= k < |Next(w, a).tasks| && Next(w, a).tasks[k].stage == Linking(l, file)
  {
    var k :| 0 <= k < |w.tasks| && w.tasks[k].stage == Linking(l, file);
    TasksAfter(w, a);
    if k != Touched(w, a) {
      assert Next(w, a).tasks[k] == w.tasks[k];
    } else if a.Go? {
      LinkSteps(w, k, l, file);
    }
  }

  lemma LinkSteps(w: World, k: nat, l: nat, file: nat)
    requires k < |w.tasks| && w.tasks[k].stage == Linking(l, file)
    ensures Current(w, k) == Linking(l, file) || Stepped(w, k).tasks[k].stage == Linking(l, file)
  {
  }

  /** The tasks that count a signal wait to link it. */
  lemma CountWaits(w: World, a: Action)
    requires |w.counted| == |w.cases|
    ensures Taken(w, a).Weighing? ==> a.k < |Next(w, a).tasks| && Next(w, a).tasks[a.k].stage == Linking(Taken(w, a).id, Taken(w, a).file)
    ensures Taken(w, a).Opening? ==> a.k < |Next(w, a).tasks| && Next(w, a).tasks[a.k].stage == Linking(Taken(w, a).id, |w.cases|)
  {
  }

  /** What is linked is counted, and what is counted fits. */
  lemma CaseKeepsCounts(w: World, a: Action, c: nat)
    requires LinksOk(w) && c < |Next(w, a).cases|
    ensures
      var v := Next(w, a);
      c < |v.counted| && v.cases[c].links <= v.counted[c] && forall l :: l in v.counted[c] ==> l < |v.signals| && Fits(v.signals[l], v.cases[c])
  {
    CasesAfter(w, a);
    SignalsGrow(w, a);
    if a.Go? && a.k < |w.tasks| { assert StageOk(w.tasks[a.k].stage, w); }
    if c < |w.cases| { assert LinkedOnly(w.cases[c], w.counted[c], w.signals, c, w.tasks); }
  }

  lemma CaseKeepsLinks(w: World, a: Action, c: nat)
    requires LinksOk(w) && c < |Next(w, a).cases|
    ensures c < |Next(w, a).counted| && LinkedOnly(Next(w, a).cases[c], Next(w, a).counted[c], Next(w, a).signals, c, Next(w, a).tasks)
  {
    var v := Next(w, a);
    CaseKeepsCounts(w, a, c);
    CasesAfter(w, a);
    CountWaits(w, a);
    if c < |w.cases| { assert LinkedOnly(w.cases[c], w.counted[c], w.signals, c, w.tasks); }
    forall l | l in v.counted[c] && l !in v.cases[c].links
      ensures exists k :: 0 <= k < |v.tasks| && v.tasks[k].stage == Linking(l, c)
    {
      if c < |w.cases| && l in w.counted[c] { LinkWaits(w, a, l, c); }
    }
  }

  lemma NextKeepsLinks(w: World, a: Action)
    requires LinksOk(w)
    ensures LinksOk(Next(w, a))
  {
    NextKept(w, a);
    NextKeepsStages(w, a);
    forall c | 0 <= c < |Next(w, a).cases|
      ensures LinkedOnly(Next(w, a).cases[c], Next(w, a).counted[c], Next(w, a).signals, c, Next(w, a).tasks)
    {
      CaseKeepsLinks(w, a, c);
    }
  }

  lemma {:induction false} RunKeepsLinks(w: World, actions: seq<Action>)
    requires LinksOk(w)
    ensures LinksOk(Run(w, actions))
    decreases |actions|
  {
    if actions != [] {
      NextKeepsLinks(w, actions[0]);
      RunKeepsLinks(Next(w, actions[0]), actions[1..]);
    }
  }

  // ---- The exact guard ----

  /** The severity read is still the case's, or the signal is at least as severe as both. */
  predicate Outweighs(w: World, a: Action) {
    match Taken(w, a)
    case Weighing(id, file, read) =>
      || w.cases[file].severity == read
      || (Order(w.signals[id].severity) >= Order(read) && Order(w.signals[id].severity) >= Order(w.cases[file].severity))
    case _ => true
  }

  lemma WeighsLater(c: Case, d: Case, counted: set<nat>, a: seq<Signal>, b: seq<Signal>)
    requires Weighs(c, counted, a) && Grown(a, b) && d.severity == c.severity
    ensures Weighs(d, counted, b)
  {
    var l :| l in counted && a[l].severity == c.severity;
    assert l in counted && b[l].severity == d.severity;
  }

  /** Counting one more signal keeps the law for the case exactly when the severity written is the greater of the two. */
  lemma CountingWeighs(c: Case, counted: set<nat>, signals: seq<Signal>, id: nat, read: Severity)
    requires Weighs(c, counted, signals) && id < |signals|
    ensures Weighs(Weighed(c, signals[id], read), counted + {id}, signals)
            <==> c.severity == read || (Order(signals[id].severity) >= Order(read) && Order(signals[id].severity) >= Order(c.severity))
  {
    var d, more := Weighed(c, signals[id], read), counted + {id};
    var l :| l in counted && signals[l].severity == c.severity;
    assert l in more && id in more;
    if Weighs(d, more, signals) {
      var m :| m in more && signals[m].severity == d.severity;
      assert Order(signals[m].severity) <= Order(c.severity) || m == id;
    }
  }

  lemma OpeningWeighs(w: World, id: nat)
    requires id < |w.signals|
    ensures Weighs(NewCase(id, w.signals[id], w.clock).(links := {}), {id}, w.signals)
  {
    assert id in {id};
  }

  lemma WeighingExactly(w: World, a: Action)
    requires CasesWeigh(w) && Taken(w, a).Weighing?
    ensures CasesWeigh(Next(w, a)) <==> Outweighs(w, a)
  {
    CasesAfter(w, a);
    SignalsAfter(w, a);
    var v := Next(w, a);
    var id, file, read := Taken(w, a).id, Taken(w, a).file, Taken(w, a).severity;
    CountingWeighs(w.cases[file], w.counted[file], w.signals, id, read);
    if Outweighs(w, a) {
      forall c | 0 <= c < |v.cases| ensures Weighs(v.cases[c], v.counted[c], v.signals) {
        assert Weighs(w.cases[c], w.counted[c], w.signals);
      }
    } else {
      assert !Weighs(v.cases[file], v.counted[file], v.signals);
    }
  }

  lemma OthersWeigh(w: World, a: Action)
    requires CasesWeigh(w) && !Taken(w, a).Weighing?
    ensures CasesWeigh(Next(w, a))
  {
    CasesAfter(w, a);
    SignalsGrow(w, a);
    SignalsAfter(w, a);
    var v := Next(w, a);
    if Taken(w, a).Opening? { OpeningWeighs(w, Taken(w, a).id); }
    forall c | 0 <= c < |v.cases| ensures Weighs(v.cases[c], v.counted[c], v.signals) {
      if c < |w.cases| { WeighsLater(w.cases[c], v.cases[c], w.counted[c], w.signals, v.signals); }
    }
  }

  lemma NextWeighsExactly(w: World, a: Action)
    requires CasesWeigh(w)
    ensures CasesWeigh(Next(w, a)) <==> Outweighs(w, a)
  {
    if Taken(w, a).Weighing? { WeighingExactly(w, a); } else { OthersWeigh(w, a); }
  }

  ghost predicate WeighThroughout(w: World, actions: seq<Action>)
    decreases |actions|
  {
    CasesWeigh(w) && (actions != [] ==> WeighThroughout(Next(w, actions[0]), actions[1..]))
  }

  ghost predicate AllOutweigh(w: World, actions: seq<Action>)
    decreases |actions|
  {
    actions != [] ==> Outweighs(w, actions[0]) && AllOutweigh(Next(w, actions[0]), actions[1..])
  }

  lemma {:induction false} RunWeighsExactly(w: World, actions: seq<Action>)
    requires CasesWeigh(w)
    ensures WeighThroughout(w, actions) <==> AllOutweigh(w, actions)
    decreases |actions|
  {
    if actions != [] {
      NextWeighsExactly(w, actions[0]);
      if CasesWeigh(Next(w, actions[0])) { RunWeighsExactly(Next(w, actions[0]), actions[1..]); }
    }
  }

  /** For every interleaving with crashes, each case is as severe as the worst signal counted in it throughout the run if
      and only if every severity is written from one that is still the case's, or by a signal that outweighs both. */
  lemma CasesWeighExactly(actions: seq<Action>)
    ensures WeighThroughout(Empty(), actions) <==> AllOutweigh(Empty(), actions)
  {
    RunWeighsExactly(Empty(), actions);
  }

  /** In those runs a case all of whose counted signals are linked, which is where no link waits or crashed, is exactly as
      severe as the worst signal linked to it, and they are its user's or nobody's. */
  lemma CaseIsItsWorstSignal(actions: seq<Action>, c: nat)
    requires AllOutweigh(Empty(), actions) && c < |Run(Empty(), actions).cases|
    requires
      var w := Run(Empty(), actions);
      forall k, l: nat :: 0 <= k < |w.tasks| ==> w.tasks[k].stage != Linking(l, c)
    ensures
      var w := Run(Empty(), actions);
      && Weighs(w.cases[c], w.cases[c].links, w.signals)
      && forall l :: l in w.cases[c].links ==> l < |w.signals| && (w.signals[l].user.None? || w.cases[c].user == w.signals[l].user)
  {
    CasesWeighExactly(actions);
    EndsWeighing(Empty(), actions);
    RunKeepsLinks(Empty(), actions);
    var w := Run(Empty(), actions);
    assert LinkedOnly(w.cases[c], w.counted[c], w.signals, c, w.tasks);
    assert w.counted[c] == w.cases[c].links;
    assert Weighs(w.cases[c], w.counted[c], w.signals);
  }

  lemma {:induction false} EndsWeighing(w: World, actions: seq<Action>)
    requires WeighThroughout(w, actions)
    ensures CasesWeigh(Run(w, actions))
    decreases |actions|
  {
    if actions != [] { EndsWeighing(Next(w, actions[0]), actions[1..]); }
  }

  // ---- A failing run ----

  /** A detection of a new kind, up to its case, while the user's level stays below HIGH. */
  lemma ScoresNewKind(w: World, input: Input, user: User)
    requires !input.kind.RISK_DECAY? && input.user == Some(user) && forall i :: 0 <= i < |w.signals| ==> w.signals[i].kind != input.kind
    requires 0 <= RiskOf(w.risk, user).score + input.delta < 50
    ensures
      var k := |w.tasks|;
      Next(Next(Next(Next(w, Look(input, 30, [])), Go(k)), Go(k)), Go(k))
      == Add(w, Filing(|w.signals|)).(signals := w.signals + [NewSignal(input, w.clock)],
                                      risk := w.risk[user := Raised(RiskOf(w.risk, user), input.delta)],
                                      writes := w.writes + [Change(user, input.delta)])
  {
    RecordsNewKind(w, input);
    ScoresAlone(Next(Next(w, Look(input, 30, [])), Go(|w.tasks|)), |w.tasks|, |w.signals|, user, input.delta);
  }

  /** The first of them opens a case. */
  lemma OpenedRun(w: World, s: Signal)
    requires w.clock == 0 && w.cases == [] && w.counted == [] && w.signals == [s] && w.tasks == [Task(Filing(0), true)]
    ensures Next(Next(w, QueryCases(0, [])), Go(0))
         == w.(tasks := [Task(Linking(0, 0), true)], cases := [NewCase(0, s, 0).(links := {})], counted := [{0}])
  {
    assert LatestCases(w.cases, s.user, 0 - 24 * HOUR, []);
    var v := Next(w, QueryCases(0, []));
    assert v == w.(tasks := [Task(Opening(0), true)]);
    OpensStep(v, s);
  }

  lemma OpensStep(w: World, s: Signal)
    requires w.clock == 0 && w.cases == [] && w.counted == [] && w.signals == [s] && w.tasks == [Task(Opening(0), true)]
    ensures Next(w, Go(0))
         == w.(tasks := [Task(Linking(0, 0), true)], cases := [NewCase(0, s, 0).(links := {})], counted := [{0}])
  {
    assert w.cases + [NewCase(0, s, 0).(links := {})] == [NewCase(0, s, 0).(links := {})];
    assert w.counted + [{0}] == [{0}];
  }

  /** Two later signals, both about to be filed. */
  predicate BothFiling(w: World, one: Task, b: Signal, c: Signal, file: Case) {
    && |w.signals| == 3 && w.signals[1] == b && w.signals[2] == c && w.cases == [file] && w.clock == 0 && w.counted == [{0}]
    && w.tasks == [one, Task(Filing(1), true), Task(Filing(2), true)]
    && b.user == file.user && c.user == file.user && b.pairKey.None? && c.pairKey.None? && file.status.OPEN? && file.createdAt == 0
    && file.severity.LOW? && b.severity.HIGH? && c.severity.MEDIUM?
  }

  /** Both find the case. */
  lemma BothQuery(w: World, one: Task, b: Signal, c: Signal, file: Case)
    requires BothFiling(w, one, b, c, file)
    ensures Next(Next(w, QueryCases(1, [0])), QueryCases(2, [0]))
         == w.(tasks := [one, Task(Weighing(1, 0, LOW), true), Task(Weighing(2, 0, LOW), true)])
  {
    assert LatestCases(w.cases, file.user, 0 - 24 * HOUR, [0]);
    var v := Next(w, QueryCases(1, [0]));
    assert v == w.(tasks := [one, Task(Weighing(1, 0, LOW), true), Task(Filing(2), true)]);
  }

  /** And both write. */
  lemma BothWrite(w: World, one: Task, b: Signal, c: Signal, file: Case)
    requires |w.signals| == 3 && w.signals[1] == b && w.signals[2] == c && w.cases == [file] && w.counted == [{0}]
    requires w.tasks == [one, Task(Weighing(1, 0, LOW), true), Task(Weighing(2, 0, LOW), true)]
    requires b.severity.HIGH? && c.severity.MEDIUM?
    ensures
      var v := Next(Next(w, Go(1)), Go(2));
      |v.cases| == 1 && v.cases[0].severity.MEDIUM? && v.counted == [{0, 1, 2}] && v.signals == w.signals
  {
    var u := Next(w, Go(1));
    assert u == w.(tasks := [one, Task(Linking(1, 0), true), Task(Weighing(2, 0, LOW), true)],
                   cases := [Weighed(file, b, LOW)], counted := [{0} + {1}]);
    var v := Next(u, Go(2));
    assert v.cases == [Weighed(Weighed(file, b, LOW), c, LOW)] && v.counted == [{0} + {1} + {2}];
    assert {0} + {1} + {2} == {0, 1, 2};
  }

  function PairInput(user: User, pair: string): Input { Input(Some(user), REPEATED_PAIR_TRIPS, LOW, 5, Some(pair)) }

  /** A LOW signal of a user opens a case; a HIGH and a MEDIUM one find it while it is LOW, and both write. */
  function Lowering(user: User, pair: string): seq<Action> {
    [Look(PairInput(user, pair), 30, [])] + ([Go(0)] + ([Go(0)] + ([Go(0)] + ThenOpen(user))))
  }

  function ThenOpen(user: User): seq<Action> { [QueryCases(0, [])] + ([Go(0)] + ThenHigh(user)) }

  function ThenHigh(user: User): seq<Action> {
    [Look(DeviceInput(user), 30, [])] + ([Go(1)] + ([Go(1)] + ([Go(1)] + ThenMedium(user))))
  }

  function ThenMedium(user: User): seq<Action> {
    [Look(IpInput(user, MEDIUM, 8), 30, [])] + ([Go(2)] + ([Go(2)] + ([Go(2)] + ThenFind())))
  }

  function ThenFind(): seq<Action> { [QueryCases(1, [0])] + ([QueryCases(2, [0])] + ThenWrite()) }

  function ThenWrite(): seq<Action> { [Go(1)] + ([Go(2)] + []) }

  lemma FourSteps(w: World, a: Action, b: Action, rest: seq<Action>)
    ensures Run(w, [a] + ([b] + ([b] + ([b] + rest)))) == Run(Next(Next(Next(Next(w, a), b), b), b), rest)
  {
    TwoSteps(w, a, b, [b] + ([b] + rest));
    TwoSteps(Next(Next(w, a), b), b, b, rest);
  }

  /** One case that counted three signals, the second of them HIGH, and is MEDIUM. */
  ghost predicate Lowered(w: World) {
    && |w.cases| == 1 && w.cases[0].severity.MEDIUM? && w.counted == [{0, 1, 2}]
    && |w.signals| == 3 && w.signals[1].severity.HIGH? && !CasesWeigh(w)
  }

  lemma WritesLower(w: World, one: Task, b: Signal, c: Signal, file: Case)
    requires |w.signals| == 3 && w.signals[1] == b && w.signals[2] == c && w.cases == [file] && w.counted == [{0}]
    requires w.tasks == [one, Task(Weighing(1, 0, LOW), true), Task(Weighing(2, 0, LOW), true)]
    requires b.severity.HIGH? && c.severity.MEDIUM?
    ensures Lowered(Run(w, ThenWrite()))
  {
    BothWrite(w, one, b, c, file);
    TwoSteps(w, Go(1), Go(2), []);
    var end := Run(w, ThenWrite());
    assert 1 in end.counted[0] && !Weighs(end.cases[0], end.counted[0], end.signals);
  }

  lemma FindsLower(w: World, one: Task, b: Signal, c: Signal, file: Case)
    requires BothFiling(w, one, b, c, file)
    ensures Lowered(Run(w, ThenFind()))
  {
    BothQuery(w, one, b, c, file);
    TwoSteps(w, QueryCases(1, [0]), QueryCases(2, [0]), ThenWrite());
    WritesLower(Next(Next(w, QueryCases(1, [0])), QueryCases(2, [0])), one, b, c, file);
  }

  /** The first signal and its case. */
  predicate Opened(w: World, a: Signal, user: User) {
    && w.clock == 0 && w.counted == [{0}] && w.cases == [NewCase(0, a, 0).(links := {})]
    && a.user == Some(user) && a.kind == REPEATED_PAIR_TRIPS && a.severity.LOW?
  }

  lemma MediumLowers(w: World, a: Signal, b: Signal, user: User)
    requires Opened(w, a, user) && b == NewSignal(DeviceInput(user), 0) && w.signals == [a, b] && RiskOf(w.risk, user).score == 25
    requires w.tasks == [Task(Linking(0, 0), true), Task(Filing(1), true)]
    ensures Lowered(Run(w, ThenMedium(user)))
  {
    var input := IpInput(user, MEDIUM, 8);
    ScoresNewKind(w, input, user);
    FourSteps(w, Look(input, 30, []), Go(2), ThenFind());
    var v := Next(Next(Next(Next(w, Look(input, 30, [])), Go(2)), Go(2)), Go(2));
    assert v.tasks == [Task(Linking(0, 0), true), Task(Filing(1), true), Task(Filing(2), true)];
    FindsLower(v, Task(Linking(0, 0), true), b, NewSignal(input, 0), w.cases[0]);
  }

  lemma HighLowers(w: World, a: Signal, user: User)
    requires Opened(w, a, user) && w.signals == [a] && w.tasks == [Task(Linking(0, 0), true)] && RiskOf(w.risk, user).score == 5
    ensures Lowered(Run(w, ThenHigh(user)))
  {
    var input := DeviceInput(user);
    ScoresNewKind(w, input, user);
    FourSteps(w, Look(input, 30, []), Go(1), ThenMedium(user));
    var v := Next(Next(Next(Next(w, Look(input, 30, [])), Go(1)), Go(1)), Go(1));
    assert v.tasks == [Task(Linking(0, 0), true), Task(Filing(1), true)] && v.signals == [a, NewSignal(input, 0)];
    MediumLowers(v, a, NewSignal(input, 0), user);
  }

  lemma OpensLower(w: World, a: Signal, user: User)
    requires w.clock == 0 && w.cases == [] && w.counted == [] && w.signals == [a] && w.tasks == [Task(Filing(0), true)]
    requires a.user == Some(user) && a.kind == REPEATED_PAIR_TRIPS && a.severity.LOW? && RiskOf(w.risk, user).score == 5
    ensures Lowered(Run(w, ThenOpen(user)))
  {
    OpenedRun(w, a);
    TwoSteps(w, QueryCases(0, []), Go(0), ThenHigh(user));
    HighLowers(Next(Next(w, QueryCases(0, [])), Go(0)), a, user);
  }

  /** From the empty tables: a HIGH and a MEDIUM signal of a user meet in a LOW case, and the case ends MEDIUM. */
  lemma OverlapLowersSeverity(user: User, pair: string)
    ensures
      var w := Run(Empty(), Lowering(user, pair));
      && |w.cases| == 1 && w.cases[0].severity.MEDIUM? && w.counted == [{0, 1, 2}]
      && |w.signals| == 3 && w.signals[1].severity.HIGH? && !CasesWeigh(w)
  {
    var input := PairInput(user, pair);
    ScoresNewKind(Empty(), input, user);
    FourSteps(Empty(), Look(input, 30, []), Go(0), ThenOpen(user));
    var v := Add(Empty(), Filing(0)).(signals := [] + [NewSignal(input, 0)], risk := map[user := Raised(Risk(0, LOW), 5)],
                                      writes := [] + [Change(user, 5)]);
    assert v.tasks == [Task(Filing(0), true)] && v.signals == [NewSignal(input, 0)];
    OpensLower(v, NewSignal(input, 0), user);
  }
}
