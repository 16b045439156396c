/** The fraud service with every await open: each detection, decay and hold is a task that looks, stops, and writes later,
    while others do the same; a task that crashes stays at its stage for good
    (services/ride/src/fraud/fraud.service.ts). */
module FraudSteps {
  import opened Common
  import opened FraudSignals

  /** How far a call has come. `seen` is how many rows there were when it looked, `lookAt` and `since` when it looked and
      how far back, `score`, `count` and `severity` what it read; a decay looks back from when its cron started. */
  datatype Stage =
    | Recording(input: Input, since: int, rows: seq<nat>, seen: nat)
    | Repeating(id: nat, count: nat)
    | Scoring(id: nat, user: User, delta: int)
    | Writing(id: nat, user: User, delta: int, score: int)
    | Guarding(id: nat, user: User, level: Severity)
    | Placing(user: User, kind: HoldKind, hours: Option<nat>, seen: nat, lookAt: int, next: Option<nat>)
    | Filing(id: nat)
    | Weighing(id: nat, file: nat, severity: Severity)
    | Opening(id: nat)
    | Linking(id: nat, file: nat)
    | Aging(user: User, points: nat, score: int, startAt: int)
    | Sinking(user: User, points: nat, score: int, seen: nat, lookAt: int)
    | Noting(user: User, points: nat, seen: nat, lookAt: int)
    | Done

  datatype Task = Task(stage: Stage, alive: bool)

  /** A score written `delta` above, or below, the score read. */
  datatype Change = Change(user: User, delta: int)

  /** `writes` are the changes of risk scores in the order written, `counted` the signals each case's severity was last
      written for; both are history. */
  datatype World = World(clock: int, signals: seq<Signal>, risk: map<User, Risk>, holds: seq<Hold>, cases: seq<Case>,
                         tasks: seq<Task>, writes: seq<Change>, counted: seq<set<nat>>)

  function Empty(): World { World(0, [], map[], [], [], [], [], []) }

  datatype Action =
    | Tick(millis: nat)
    | Look(input: Input, minutes: nat, rows: seq<nat>)
    | StartDecay(user: User, points: nat)
    | StartHold(held: User, kind: HoldKind, hours: Option<nat>)
    | Go(k: nat)
    | QueryCases(k: nat, caseRows: seq<nat>)
    | Crash(k: nat)
    | Release(id: nat)
    | SetCase(file: nat, status: CaseStatus)

  function Add(w: World, stage: Stage): World { w.(tasks := w.tasks + [Task(stage, true)]) }

  function To(w: World, k: nat, stage: Stage): World
    requires k < |w.tasks|
  {
    w.(tasks := w.tasks[k := Task(stage, true)])
  }

  function KindFor(level: Severity): HoldKind { if level.CRITICAL? then PAYOUT_HOLD else FEATURE_LIMIT }

  function HoursFor(level: Severity): Option<nat> { if level.CRITICAL? then None else Some(48) }

  /** The look of `createHoldIfAbsent`, and what follows it. */
  function HoldOr(w: World, user: User, kind: HoldKind, hours: Option<nat>, next: Option<nat>): Stage {
    if HasHold(w.holds, user, kind, w.clock) then (if next.Some? then Filing(next.value) else Done)
    else Placing(user, kind, hours, |w.holds|, w.clock, next)
  }

  function AfterRecord(id: nat, input: Input): Stage {
    if input.user.Some? then Scoring(id, input.user.value, input.delta) else Filing(id)
  }

  /** The stage after a score is written. */
  function AfterScore(id: nat, user: User, level: Severity): Stage {
    if level.HIGH? || level.CRITICAL? then Guarding(id, user, level) else Filing(id)
  }

  function Weighed(c: Case, s: Signal, read: Severity): Case {
    c.(severity := if Order(s.severity) > Order(read) then s.severity else read, lastSignalAt := s.at)
  }

  /** The next stage of task `k`, where a stage without further answers has one; `Done` stands for none. */
  function Current(w: World, k: nat): Stage {
    if k < |w.tasks| && w.tasks[k].alive then
      match w.tasks[k].stage
      case Repeating(id, count) => if id < |w.signals| then w.tasks[k].stage else Done
      case Weighing(id, file, _) => if id < |w.signals| && file < |w.cases| && file < |w.counted| then w.tasks[k].stage else Done
      case Opening(id) => if id < |w.signals| then w.tasks[k].stage else Done
      case Linking(id, file) => if file < |w.cases| then w.tasks[k].stage else Done
      case Filing(_) => Done
      case stage => stage
    else Done
  }

  function Stepped(w: World, k: nat): World
    requires k < |w.tasks|
  {
    match Current(w, k)
    case Recording(input, _, _, _) =>
      var id := |w.signals|;
      To(w, k, AfterRecord(id, input)).(signals := w.signals + [NewSignal(input, w.clock)])
    case Repeating(id, count) => To(w, k, Filing(id)).(signals := w.signals[id := w.signals[id].(occurrences := count + 1)])
    case Scoring(id, user, delta) =>
      To(w, k, Writing(id, user, delta, RiskOf(w.risk, user).score)).(risk := w.risk[user := RiskOf(w.risk, user)])
    case Writing(id, user, delta, score) =>
      var r := Raised(Risk(score, LOW), delta);
      To(w, k, AfterScore(id, user, r.level))
      .(risk := w.risk[user := r], writes := w.writes + [Change(user, delta)])
    case Guarding(id, user, level) => To(w, k, HoldOr(w, user, KindFor(level), HoursFor(level), Some(id)))
    case Placing(user, kind, hours, _, lookAt, next) =>
      To(w, k, if next.Some? then Filing(next.value) else Done).(holds := w.holds + [NewHold(user, kind, hours, lookAt)])
    case Weighing(id, file, read) =>
      To(w, k, Linking(id, file)).(cases := w.cases[file := Weighed(w.cases[file], w.signals[id], read)],
                                   counted := w.counted[file := w.counted[file] + {id}])
    case Opening(id) =>
      To(w, k, Linking(id, |w.cases|)).(cases := w.cases + [NewCase(id, w.signals[id], w.clock).(links := {})],
                                        counted := w.counted + [{id}])
    case Linking(id, file) => To(w, k, Done).(cases := w.cases[file := w.cases[file].(links := w.cases[file].links + {id})])
    case Aging(user, points, score, startAt) =>
      To(w, k, if RecentSignal(w.signals, user, startAt) || score <= 0 then Done
               else Sinking(user, points, score, |w.signals|, startAt))
    case Sinking(user, points, score, seen, lookAt) =>
      To(w, k, Noting(user, points, seen, lookAt)).(risk := w.risk[user := Decayed(Risk(score, LOW), points)],
                                                    writes := w.writes + [Change(user, -(points as int))])
    case Noting(user, points, _, _) => To(w, k, Done).(signals := w.signals + [DecaySignal(user, points, w.clock)])
    case _ => w
  }

  ghost function Looked(w: World, input: Input, minutes: nat, rows: seq<nat>): World {
    var since := w.clock - minutes * 60000;
    if input.kind.RISK_DECAY? || !LatestSimilar(w.signals, input.user, input.kind, since, rows) then w
    else
      var existing := Existing(w.signals, rows, input.pairKey);
      if existing.Some? then Add(w, Repeating(existing.value, w.signals[existing.value].occurrences))
      else Add(w, Recording(input, since, rows, |w.signals|))
  }

  ghost function Queried(w: World, k: nat, rows: seq<nat>): World
    requires k < |w.tasks| && w.tasks[k].stage.Filing?
  {
    var id := w.tasks[k].stage.id;
    if id < |w.signals| && w.tasks[k].alive && LatestCases(w.cases, w.signals[id].user, w.clock - 24 * HOUR, rows) then
      var chosen := Chosen(w.cases, rows, w.signals[id].pairKey);
      To(w, k, if chosen.None? then Opening(id) else Weighing(id, chosen.value, w.cases[chosen.value].severity))
    else w
  }

  ghost function Next(w: World, a: Action): World {
    match a
    case Tick(millis) => w.(clock := w.clock + millis)
    case Look(input, minutes, rows) => Looked(w, input, minutes, rows)
    case StartDecay(user, points) => if user in w.risk then Add(w, Aging(user, points, w.risk[user].score, w.clock)) else w
    case StartHold(held, kind, hours) => Add(w, HoldOr(w, held, kind, hours, None))
    case Go(k) => if k < |w.tasks| then Stepped(w, k) else w
    case QueryCases(k, rows) => if k < |w.tasks| && w.tasks[k].stage.Filing? then Queried(w, k, rows) else w
    case Crash(k) => if k < |w.tasks| then w.(tasks := w.tasks[k := w.tasks[k].(alive := false)]) else w
    case Release(id) =>
      if id < |w.holds| then w.(holds := w.holds[id := w.holds[id].(active := false, endsAt := Some(w.clock))]) else w
    case SetCase(file, status) =>
      if file < |w.cases| then w.(cases := w.cases[file := w.cases[file].(status := status)]) else w
  }

  ghost function Run(w: World, actions: seq<Action>): World
    decreases |actions|
  {
    if actions == [] then w else Run(Next(w, actions[0]), actions[1..])
  }

  lemma RunStep(w: World, a: Action, rest: seq<Action>)
    ensures Run(w, [a] + rest) == Run(Next(w, a), rest)
  {
    assert ([a] + rest)[1..] == rest;
  }

  lemma TwoSteps(w: World, a: Action, b: Action, rest: seq<Action>)
    ensures Run(w, [a] + ([b] + rest)) == Run(Next(Next(w, a), b), rest)
  {
    RunStep(w, a, [b] + rest);
    RunStep(Next(w, a), b, rest);
  }

  /** The stage that step `a` takes, if it takes one. */
  function Taken(w: World, a: Action): Stage { if a.Go? then Current(w, a.k) else Done }

  // ---- What a step changes ----

  lemma SignalsAfter(w: World, a: Action)
    ensures Next(w, a).signals
         == match Taken(w, a)
            case Recording(input, _, _, _) => w.signals + [NewSignal(input, w.clock)]
            case Repeating(id, count) => w.signals[id := w.signals[id].(occurrences := count + 1)]
            case Noting(user, points, _, _) => w.signals + [DecaySignal(user, points, w.clock)]
            case _ => w.signals
    ensures Next(w, a).clock == (if a.Tick? then w.clock + a.millis else w.clock)
  {
  }

  lemma ScoresAfter(w: World, a: Action)
    ensures Next(w, a).risk
         == match Taken(w, a)
            case Scoring(_, user, _) => w.risk[user := RiskOf(w.risk, user)]
            case Writing(_, user, delta, score) => w.risk[user := Raised(Risk(score, LOW), delta)]
            case Sinking(user, points, score, _, _) => w.risk[user := Decayed(Risk(score, LOW), points)]
            case _ => w.risk
    ensures Next(w, a).writes
         == match Taken(w, a)
            case Writing(_, user, delta, _) => w.writes + [Change(user, delta)]
            case Sinking(user, points, _, _, _) => w.writes + [Change(user, -(points as int))]
            case _ => w.writes
  {
  }

  lemma HoldsAfter(w: World, a: Action)
    ensures Next(w, a).holds
         == if a.Release? && a.id < |w.holds| then w.holds[a.id := w.holds[a.id].(active := false, endsAt := Some(w.clock))]
            else if Taken(w, a).Placing? then
              w.holds + [NewHold(Taken(w, a).user, Taken(w, a).kind, Taken(w, a).hours, Taken(w, a).lookAt)]
            else w.holds
  {
  }

  function StatusSet(cases: seq<Case>, a: Action): seq<Case> {
    if a.SetCase? && a.file < |cases| then cases[a.file := cases[a.file].(status := a.status)] else cases
  }

  lemma CasesAfter(w: World, a: Action)
    requires |w.counted| == |w.cases|
    ensures
      var v := Next(w, a);
      match Taken(w, a)
      case Weighing(id, file, read) =>
        v.cases == w.cases[file := Weighed(w.cases[file], w.signals[id], read)] && v.counted == w.counted[file := w.counted[file] + {id}]
      case Opening(id) =>
        v.cases == w.cases + [NewCase(id, w.signals[id], w.clock).(links := {})] && v.counted == w.counted + [{id}]
      case Linking(id, file) =>
        v.cases == w.cases[file := w.cases[file].(links := w.cases[file].links + {id})] && v.counted == w.counted
      case _ =>
        && v.counted == w.counted
        && v.cases == StatusSet(w.cases, a)
  {
  }

  /** The task that step `a` may change; a new one comes last. */
  function Touched(w: World, a: Action): nat {
    match a
    case Go(k) => k
    case QueryCases(k, _) => k
    case Crash(k) => k
    case _ => |w.tasks|
  }

  /** Every other task is as it was. */
  ghost predicate TasksKept(w: World, v: World, touched: nat) {
    && |w.tasks| <= |v.tasks| <= |w.tasks| + 1 && (touched < |w.tasks| ==> |v.tasks| == |w.tasks|)
    && forall j :: 0 <= j < |w.tasks| && j != touched ==> v.tasks[j] == w.tasks[j]
  }

  lemma SteppedTasks(w: World, k: nat)
    requires k < |w.tasks|
    ensures TasksKept(w, Stepped(w, k), k)
  {
  }

  lemma AddedTasks(w: World, a: Action)
    requires a.Look? || a.StartDecay? || a.StartHold?
    ensures TasksKept(w, Next(w, a), |w.tasks|)
  {
  }

  lemma QueriedTasks(w: World, k: nat, rows: seq<nat>)
    requires k < |w.tasks| && w.tasks[k].stage.Filing?
    ensures TasksKept(w, Queried(w, k, rows), k)
  {
  }

  lemma TasksAfter(w: World, a: Action)
    ensures TasksKept(w, Next(w, a), Touched(w, a))
    ensures a.Crash? && a.k < |w.tasks| ==> Next(w, a).tasks[a.k].stage == w.tasks[a.k].stage
    ensures a.Tick? || a.Release? || a.SetCase? ==> Next(w, a).tasks == w.tasks
  {
    if a.Go? {
      if a.k < |w.tasks| { SteppedTasks(w, a.k); }
    } else if a.QueryCases? {
      if a.k < |w.tasks| && w.tasks[a.k].stage.Filing? { QueriedTasks(w, a.k, a.caseRows); }
    } else if a.Look? || a.StartDecay? || a.StartHold? {
      AddedTasks(w, a);
    }
  }

  /** Signals are only added, and only their counts of occurrences change. */
  predicate Grown(a: seq<Signal>, b: seq<Signal>) {
    |a| <= |b| && forall i :: 0 <= i < |a| ==> b[i] == a[i].(occurrences := b[i].occurrences)
  }

  lemma SignalsGrow(w: World, a: Action)
    ensures Grown(w.signals, Next(w, a).signals)
  {
    SignalsAfter(w, a);
  }

  /** The inputs of the periodic detections. */
  function DeviceInput(user: User): Input { Input(Some(user), SHARED_DEVICE_FINGERPRINT, HIGH, 20, None) }

  function IpInput(user: User, severity: Severity, delta: int): Input { Input(Some(user), SHARED_IP_MULTIPLE_USERS, severity, delta, None) }

  // ---- A call left undisturbed, stage by stage ----

  predicate AtStage(w: World, k: nat, stage: Stage) { k < |w.tasks| && w.tasks[k] == Task(stage, true) }

  /** A new signal is recorded and goes on to its score, or without a user to its case. */
  lemma RecordsAlone(w: World, input: Input, minutes: nat, rows: seq<nat>)
    requires !input.kind.RISK_DECAY? && LatestSimilar(w.signals, input.user, input.kind, w.clock - minutes * 60000, rows)
    requires Existing(w.signals, rows, input.pairKey).None?
    ensures
      Next(Next(w, Look(input, minutes, rows)), Go(|w.tasks|))
      == Add(w, AfterRecord(|w.signals|, input)).(signals := Recorded(w.signals, input, None, w.clock))
  {
    var stage := Recording(input, w.clock - minutes * 60000, rows, |w.signals|);
    assert Next(w, Look(input, minutes, rows)) == Add(w, stage);
    TaskRecords(Add(w, stage), |w.tasks|, stage);
  }

  lemma TaskRecords(w: World, k: nat, stage: Stage)
    requires AtStage(w, k, stage) && stage.Recording?
    ensures Next(w, Go(k)) == To(w, k, AfterRecord(|w.signals|, stage.input)).(signals := w.signals + [NewSignal(stage.input, w.clock)])
  {
  }

  lemma LooksNewKind(w: World, input: Input)
    requires !input.kind.RISK_DECAY? && forall i :: 0 <= i < |w.signals| ==> w.signals[i].kind != input.kind
    ensures Next(w, Look(input, 30, [])) == Add(w, Recording(input, w.clock - 30 * 60000, [], |w.signals|))
  {
    assert LatestSimilar(w.signals, input.user, input.kind, w.clock - 30 * 60000, []);
  }

  /** So for a signal of a new kind. */
  lemma RecordsNewKind(w: World, input: Input)
    requires !input.kind.RISK_DECAY? && forall i :: 0 <= i < |w.signals| ==> w.signals[i].kind != input.kind
    ensures Next(Next(w, Look(input, 30, [])), Go(|w.tasks|))
         == Add(w, AfterRecord(|w.signals|, input)).(signals := w.signals + [NewSignal(input, w.clock)])
  {
    assert LatestSimilar(w.signals, input.user, input.kind, w.clock - 30 * 60000, []);
    RecordsAlone(w, input, 30, []);
  }

  /** A repeated one only counts an occurrence more. */
  lemma RepeatsAlone(w: World, input: Input, minutes: nat, rows: seq<nat>, id: nat)
    requires !input.kind.RISK_DECAY? && LatestSimilar(w.signals, input.user, input.kind, w.clock - minutes * 60000, rows)
    requires Existing(w.signals, rows, input.pairKey) == Some(id)
    ensures
      var k := |w.tasks|;
      var v := Next(Next(w, Look(input, minutes, rows)), Go(k));
      v == Add(w, Filing(id)).(signals := Recorded(w.signals, input, Some(id), w.clock)) && AtStage(v, k, Filing(id))
  {
    var looked := Next(w, Look(input, minutes, rows));
    assert looked == Add(w, Repeating(id, w.signals[id].occurrences));
  }

  /** The score is raised, and a high one goes on to its hold. */
  lemma ScoresAlone(w: World, k: nat, id: nat, user: User, delta: int)
    requires AtStage(w, k, Scoring(id, user, delta))
    ensures
      var r := Raised(RiskOf(w.risk, user), delta);
      var v := Next(Next(w, Go(k)), Go(k));
      v == To(w, k, AfterScore(id, user, r.level)).(risk := w.risk[user := r], writes := w.writes + [Change(user, delta)])
  {
    var read := Next(w, Go(k));
    assert read == To(w, k, Writing(id, user, delta, RiskOf(w.risk, user).score)).(risk := w.risk[user := RiskOf(w.risk, user)]);
  }

  /** The hold is placed unless one of its kind is in force. */
  lemma HoldsAlone(w: World, k: nat, id: nat, user: User, level: Severity)
    requires AtStage(w, k, Guarding(id, user, level)) && (level.HIGH? || level.CRITICAL?)
    ensures
      var held := Next(w, Go(k));
      var v := if HasHold(w.holds, user, KindFor(level), w.clock) then held else Next(held, Go(k));
      v == To(w, k, Filing(id)).(holds := HoldsFor(w.holds, user, level, w.clock))
  {
    var held := Next(w, Go(k));
    assert held == To(w, k, HoldOr(w, user, KindFor(level), HoursFor(level), Some(id)));
  }

  /** The signal is filed as `CreateOrAttachCase` files it. */
  lemma FilesAlone(w: World, k: nat, id: nat, caseRows: seq<nat>)
    requires AtStage(w, k, Filing(id)) && id < |w.signals| && |w.counted| == |w.cases|
    requires LatestCases(w.cases, w.signals[id].user, w.clock - 24 * HOUR, caseRows)
    ensures
      var v := Next(Next(Next(w, QueryCases(k, caseRows)), Go(k)), Go(k));
      && v.cases == Filed(w.cases, id, w.signals[id], Chosen(w.cases, caseRows, w.signals[id].pairKey), w.clock)
      && AtStage(v, k, Done) && v.signals == w.signals && v.risk == w.risk && v.holds == w.holds
  {
    var queried := Next(w, QueryCases(k, caseRows));
    var chosen := Chosen(w.cases, caseRows, w.signals[id].pairKey);
    if chosen.None? {
      assert queried == To(w, k, Opening(id));
      OpensAlone(queried, k, id);
    } else {
      assert queried == To(w, k, Weighing(id, chosen.value, w.cases[chosen.value].severity));
      WeighsAlone(queried, k, id, chosen.value);
    }
  }

  lemma OpensAlone(w: World, k: nat, id: nat)
    requires AtStage(w, k, Opening(id)) && id < |w.signals|
    ensures
      var v := Next(Next(w, Go(k)), Go(k));
      && v.cases == w.cases + [NewCase(id, w.signals[id], w.clock)]
      && AtStage(v, k, Done) && v.signals == w.signals && v.risk == w.risk && v.holds == w.holds
  {
    var c := NewCase(id, w.signals[id], w.clock);
    var u := Next(w, Go(k));
    assert u == To(w, k, Linking(id, |w.cases|)).(cases := w.cases + [c.(links := {})], counted := w.counted + [{id}]);
    assert c.(links := {}).(links := {} + {id}) == c;
    assert (w.cases + [c.(links := {})])[|w.cases| := c] == w.cases + [c];
  }

  lemma WeighsAlone(w: World, k: nat, id: nat, file: nat)
    requires file < |w.cases| == |w.counted| && id < |w.signals|
    requires AtStage(w, k, Weighing(id, file, w.cases[file].severity))
    ensures
      var v := Next(Next(w, Go(k)), Go(k));
      && v.cases == w.cases[file := Attached(w.cases[file], id, w.signals[id])]
      && AtStage(v, k, Done) && v.signals == w.signals && v.risk == w.risk && v.holds == w.holds
  {
    var c := Weighed(w.cases[file], w.signals[id], w.cases[file].severity);
    var u := Next(w, Go(k));
    assert u == To(w, k, Linking(id, file)).(cases := w.cases[file := c], counted := w.counted[file := w.counted[file] + {id}]);
  }

  /** And an undisturbed decay of one user the change that `DecayOne` makes. */
  lemma DecayIsItsSteps(w: World, user: User, points: nat)
    ensures
      var k := |w.tasks|;
      var v := Next(Next(Next(Next(w, StartDecay(user, points)), Go(k)), Go(k)), Go(k));
      (v.signals, v.risk) == DecayOne(w.signals, w.risk, user, points, w.clock)
  {
    var k := |w.tasks|;
    if user in w.risk {
      var v2 := Next(Next(w, StartDecay(user, points)), Go(k));
      if RecentSignal(w.signals, user, w.clock) || w.risk[user].score <= 0 {
        assert AtStage(v2, k, Done);
      } else {
        assert AtStage(v2, k, Sinking(user, points, w.risk[user].score, |w.signals|, w.clock));
      }
    }
  }
}
