/** The calls on one user's score with every await open: an event reads the row before it writes it, a recovery looks up
    status, clean trips, bonuses and block before its event, and any call may stop half-way. */
module ScoreRuns {
  import opened Common
  import opened ScoreReplay

  /** How far a call has come, and what it has read. `left` is what the daily cap leaves. */
  datatype Call =
    | Pending(kind: EventType, delta: int)
    | Writing(kind: EventType, delta: int, score: int, status: Status)
    | Counting(rules: Rules, status: Status)
    | Summing(rules: Rules, status: Status, clean: nat)
    | Checking(left: int, enough: bool)
    | Over

  datatype World = World(book: Book, clock: int, calls: seq<Call>)

  function Start(clock: int): World { World(NewBook(), clock, []) }

  datatype Action =
    | Tick(millis: nat)
    | StartEvent(kind: EventType, delta: int)
    | StartRestrict(level: Status, lowScoreAuto: bool, endsAt: Option<int>, admin: string)
    | StartLift(id: nat)
    | StartRecovery(rules: Rules)
    | Go(k: nat)
    | Lose(k: nat)

  function Begin(w: World, c: Call): World { w.(calls := w.calls + [c]) }

  function To(w: World, k: nat, c: Call): World
    requires k < |w.calls|
  {
    w.(calls := w.calls[k := c])
  }

  /** The transaction of an event whose call read `score` and `status`. */
  function WriteBack(b: Book, score: int, status: Status, e: Event): Book {
    var next := Clamp(score + e.delta);
    Book(next, MapStatus(next), b.events + [e],
         if MapStatus(next).BLOCKED? && !status.BLOCKED? then b.restrictions + [AutoBlock(e.at)] else b.restrictions)
  }

  function Rewarding(delta: int): Call { if delta > 0 then Pending(TRIP_RECOVERY_BONUS, delta) else Over }

  /** After the bonuses of the day are summed. */
  function Summed(rules: Rules, status: Status, clean: nat, left: int): Call {
    if left <= 0 then Over
    else if status.LIMITED? && clean >= OrElse(rules.limitedCleanTrips, 5) then Rewarding(Min(OrElse(rules.limitedBonus, 5), left))
    else if status.BLOCKED? then Checking(left, clean >= OrElse(rules.blockedCleanTrips, 3))
    else Over
  }

  /** After the latest block is looked up. */
  function Looked(over: bool, left: int, enough: bool): Call { if over && enough then Rewarding(Min(5, left)) else Over }

  function Stepped(w: World, k: nat): World
    requires k < |w.calls|
  {
    match w.calls[k]
    case Pending(kind, delta) => To(w, k, Writing(kind, delta, w.book.score, w.book.status))
    case Writing(kind, delta, score, status) => To(w, k, Over).(book := WriteBack(w.book, score, status, Event(kind, delta, w.clock)))
    case Counting(rules, status) => To(w, k, Summing(rules, status, CountSince(w.book.events, TRIP_COMPLETED_CLEAN, w.clock - 30 * DAY)))
    case Summing(rules, status, clean) => To(w, k, Summed(rules, status, clean, Left(w.book, rules, w.clock)))
    case Checking(left, enough) => To(w, k, Looked(BlockIsOver(w.book.restrictions, w.clock), left, enough))
    case Over => w
  }

  function Next(w: World, a: Action): World {
    match a
    case Tick(millis) => w.(clock := w.clock + millis)
    case StartEvent(kind, delta) => if kind.TRIP_RECOVERY_BONUS? then w else Begin(w, Pending(kind, delta))
    case StartRestrict(level, lowScoreAuto, endsAt, admin) =>
      var r := Restriction(level, lowScoreAuto, w.clock, endsAt, Some(admin));
      Begin(w.(book := w.book.(restrictions := w.book.restrictions + [r])), Pending(MANUAL_ADJUST, 0))
    case StartLift(id) =>
      if id < |w.book.restrictions| then
        var rs := w.book.restrictions[id := w.book.restrictions[id].(endsAt := Some(w.clock))];
        Begin(w.(book := w.book.(restrictions := rs)), Pending(MANUAL_ADJUST, 0))
      else w
    case StartRecovery(rules) =>
      if w.book.status.LIMITED? || w.book.status.BLOCKED? then Begin(w, Counting(rules, w.book.status)) else w
    case Go(k) => if k < |w.calls| then Stepped(w, k) else w
    case Lose(k) => if k < |w.calls| then To(w, k, Over) else w
  }

  function Run(w: World, actions: seq<Action>): World
    decreases |actions|
  {
    if actions == [] then w else Run(Next(w, actions[0]), actions[1..])
  }

  lemma RunStep(w: World, a: Action, rest: seq<Action>)
    ensures Run(w, [a] + rest) == Run(Next(w, a), rest)
  {
    assert ([a] + rest)[1..] == rest;
  }

  // ---- A call left undisturbed ----

  predicate AtStage(w: World, k: nat, c: Call) { k < |w.calls| && w.calls[k] == c }

  /** The read and the write of an event come to the call that `ScoreRows.ApplyScoreEvent` is proved to make. */
  lemma EventIsItsSteps(w: World, k: nat, kind: EventType, delta: int)
    requires AtStage(w, k, Pending(kind, delta))
    ensures Next(Next(w, Go(k)), Go(k)) == To(w, k, Over).(book := Apply(w.book, Event(kind, delta, w.clock)))
  {
    assert Next(w, Go(k)) == To(w, k, Writing(kind, delta, w.book.score, w.book.status));
  }

  /** The look-ups of a recovery leave the bonus that `ScoreRows.ApplyRecoveryOnTripCompletion` adds: the latest block is
      looked up only where the status is BLOCKED and the cap leaves something. */
  lemma RecoveryIsItsSteps(w: World, k: nat, rules: Rules)
    requires AtStage(w, k, Counting(rules, w.book.status)) && (w.book.status.LIMITED? || w.book.status.BLOCKED?)
    ensures
      var summed := Next(Next(w, Go(k)), Go(k));
      (if w.book.status.BLOCKED? && Left(w.book, rules, w.clock) > 0 then Next(summed, Go(k)) else summed)
      == To(w, k, if Recovery(w.book, rules, w.clock) > 0 then Pending(TRIP_RECOVERY_BONUS, Recovery(w.book, rules, w.clock)) else Over)
  {
    var clean := CountSince(w.book.events, TRIP_COMPLETED_CLEAN, w.clock - 30 * DAY);
    assert Next(w, Go(k)) == To(w, k, Summing(rules, w.book.status, clean));
    assert Next(Next(w, Go(k)), Go(k)) == To(w, k, Summed(rules, w.book.status, clean, Left(w.book, rules, w.clock)));
  }

  /** And the steps of a manual restriction, and of lifting one, to those of `ScoreRows.CreateManualRestriction` and
      `ScoreRows.LiftRestriction`. */
  lemma RestrictionIsItsSteps(w: World, level: Status, lowScoreAuto: bool, endsAt: Option<int>, admin: string, id: nat)
    ensures
      var k := |w.calls|;
      Next(Next(Next(w, StartRestrict(level, lowScoreAuto, endsAt, admin)), Go(k)), Go(k))
      == Begin(w, Over).(book := Restricted(w.book, Restriction(level, lowScoreAuto, w.clock, endsAt, Some(admin)), w.clock))
    ensures
      var k := |w.calls|;
      Next(Next(Next(w, StartLift(id)), Go(k)), Go(k))
      == (if id < |w.book.restrictions| then Begin(w, Over).(book := Lifted(w.book, id, w.clock)) else w) || id >= |w.book.restrictions|
  {
    var restricted, lifted := Next(w, StartRestrict(level, lowScoreAuto, endsAt, admin)), Next(w, StartLift(id));
    EventIsItsSteps(restricted, |w.calls|, MANUAL_ADJUST, 0);
    assert To(restricted, |w.calls|, Over).calls == w.calls + [Over];
    if id < |w.book.restrictions| {
      EventIsItsSteps(lifted, |w.calls|, MANUAL_ADJUST, 0);
      assert To(lifted, |w.calls|, Over).calls == w.calls + [Over];
    }
  }

  // ---- Score, status and blocks against the log ----

  predicate Writes(w: World, a: Action) { a.Go? && a.k < |w.calls| && w.calls[a.k].Writing? }

  /** The score read is still the score, or from both the delta runs into the same end of the scale; and if the result is
      BLOCKED, the status read was so exactly when the status is. */
  predicate Fits(w: World, a: Action) {
    Writes(w, a) ==>
      var (b, c) := (w.book, w.calls[a.k]);
      && (|| c.score == b.score
          || (c.score + c.delta <= 0 && b.score + c.delta <= 0) || (c.score + c.delta >= 100 && b.score + c.delta >= 100))
      && (MapStatus(Clamp(c.score + c.delta)).BLOCKED? ==> (c.status.BLOCKED? <==> b.status.BLOCKED?))
  }

  lemma SameClamp(a: int, b: int)
    ensures Clamp(a) == Clamp(b) <==> a == b || (a <= 0 && b <= 0) || (a >= 100 && b >= 100)
  {
  }

  /** One write on a stale read. */
  lemma WriteFitsExactly(b: Book, score: int, status: Status, e: Event)
    requires Replayed(b)
    ensures Replayed(WriteBack(b, score, status, e))
            <==> && (|| score == b.score
                     || (score + e.delta <= 0 && b.score + e.delta <= 0) || (score + e.delta >= 100 && b.score + e.delta >= 100))
                 && (MapStatus(Clamp(score + e.delta)).BLOCKED? ==> (status.BLOCKED? <==> b.status.BLOCKED?))
  {
    SameClamp(score + e.delta, b.score + e.delta);
    ReplayPrefix(b.events, [e], |b.events|);
    AutoBlocksAgree(b.restrictions, b.restrictions + [AutoBlock(e.at)], |b.restrictions|);
    assert (b.events + [e])[|b.events|] == e;
  }

  /** Changing rows of restrictions by hand does not touch the law. */
  lemma OthersReplay(w: World, a: Action)
    requires Replayed(w.book) && !Writes(w, a)
    ensures Replayed(Next(w, a).book)
  {
    AutoBlocksAgree(w.book.restrictions, Next(w, a).book.restrictions, |w.book.restrictions|);
  }

  lemma NextReplayedExactly(w: World, a: Action)
    requires Replayed(w.book)
    ensures Replayed(Next(w, a).book) <==> Fits(w, a)
  {
    if Writes(w, a) {
      WriteFitsExactly(w.book, w.calls[a.k].score, w.calls[a.k].status, Event(w.calls[a.k].kind, w.calls[a.k].delta, w.clock));
    } else {
      OthersReplay(w, a);
    }
  }

  ghost predicate ReplayedThroughout(w: World, actions: seq<Action>)
    decreases |actions|
  {
    Replayed(w.book) && (actions != [] ==> ReplayedThroughout(Next(w, actions[0]), actions[1..]))
  }

  predicate AllFit(w: World, actions: seq<Action>)
    decreases |actions|
  {
    actions != [] ==> Fits(w, actions[0]) && AllFit(Next(w, actions[0]), actions[1..])
  }

  lemma {:induction false} RunReplayedExactly(w: World, actions: seq<Action>)
    requires Replayed(w.book)
    ensures ReplayedThroughout(w, actions) <==> AllFit(w, actions)
    decreases |actions|
  {
    if actions != [] {
      NextReplayedExactly(w, actions[0]);
      if Fits(w, actions[0]) { RunReplayedExactly(Next(w, actions[0]), actions[1..]); }
    }
  }

  /** For every interleaving with lost calls: throughout the run the score is the replay of the log, the status its band and
      the automatic blocks the replay's entries into BLOCKED, if and only if every event is written from a read that fits. */
  lemma ReplayedExactly(clock: int, actions: seq<Action>)
    ensures ReplayedThroughout(Start(clock), actions) <==> AllFit(Start(clock), actions)
  {
    RunReplayedExactly(Start(clock), actions);
  }

  // ---- The daily cap ----

  ghost predicate Capped(w: World, cap: nat) { forall day :: BonusOn(w.book.events, day) <= cap }

  /** The bonus still fits in its day as it is written. */
  predicate Room(w: World, a: Action, cap: nat) {
    Writes(w, a) && w.calls[a.k].kind.TRIP_RECOVERY_BONUS? ==> BonusOn(w.book.events, Midnight(w.clock)) + w.calls[a.k].delta <= cap
  }

  lemma OneMoreBonus(events: seq<Event>, e: Event, day: int)
    ensures BonusOn(events + [e], day)
         == BonusOn(events, day) + (if e.kind.TRIP_RECOVERY_BONUS? && Midnight(e.at) == day then e.delta else 0)
  {
    assert (events + [e])[..|events|] == events;
  }

  lemma NextCappedExactly(w: World, a: Action, cap: nat)
    requires Capped(w, cap)
    ensures Capped(Next(w, a), cap) <==> Room(w, a, cap)
  {
    if Writes(w, a) {
      var e := Event(w.calls[a.k].kind, w.calls[a.k].delta, w.clock);
      forall day ensures BonusOn(Next(w, a).book.events, day)
                      == BonusOn(w.book.events, day) + (if e.kind.TRIP_RECOVERY_BONUS? && Midnight(e.at) == day then e.delta else 0)
      {
        OneMoreBonus(w.book.events, e, day);
      }
    } else {
      assert Next(w, a).book.events == w.book.events;
    }
  }

  ghost predicate CappedThroughout(w: World, actions: seq<Action>, cap: nat)
    decreases |actions|
  {
    Capped(w, cap) && (actions != [] ==> CappedThroughout(Next(w, actions[0]), actions[1..], cap))
  }

  predicate AllRoom(w: World, actions: seq<Action>, cap: nat)
    decreases |actions|
  {
    actions != [] ==> Room(w, actions[0], cap) && AllRoom(Next(w, actions[0]), actions[1..], cap)
  }

  lemma {:induction false} RunCappedExactly(w: World, actions: seq<Action>, cap: nat)
    requires Capped(w, cap)
    ensures CappedThroughout(w, actions, cap) <==> AllRoom(w, actions, cap)
    decreases |actions|
  {
    if actions != [] {
      NextCappedExactly(w, actions[0], cap);
      if Room(w, actions[0], cap) { RunCappedExactly(Next(w, actions[0]), actions[1..], cap); }
    }
  }

  /** For every interleaving: the bonuses of every day stay within the cap throughout the run if and only if each still fits
      in its day as it is written, what others have added since its look-up included. */
  lemma CappedExactly(clock: int, actions: seq<Action>, cap: nat)
    ensures CappedThroughout(Start(clock), actions, cap) <==> AllRoom(Start(clock), actions, cap)
  {
    RunCappedExactly(Start(clock), actions, cap);
  }

  // ---- Calls one at a time ----

  predicate Starts(a: Action) { a.StartEvent? || a.StartRestrict? || a.StartLift? || a.StartRecovery? }

  predicate Idle(w: World) { forall k :: 0 <= k < |w.calls| ==> w.calls[k].Over? }

  /** A call starts only when none is under way, and a recovery reads a cap of at most `cap`. */
  predicate Alone(w: World, a: Action, cap: nat) {
    (Starts(a) ==> Idle(w)) && (a.StartRecovery? ==> OrElse(a.rules.dailyCap, 6) <= cap)
  }

  predicate AllAlone(w: World, actions: seq<Action>, cap: nat)
    decreases |actions|
  {
    actions != [] ==> Alone(w, actions[0], cap) && AllAlone(Next(w, actions[0]), actions[1..], cap)
  }

  /** The bonus fits in every day from now on. */
  ghost predicate FitsLater(book: Book, clock: int, delta: int, cap: nat) {
    delta > 0 && forall t: int :: t >= clock ==> BonusOn(book.events, Midnight(t)) + delta <= cap
  }

  /** What a call has read is still so. */
  ghost predicate Fresh(c: Call, book: Book, clock: int, cap: nat) {
    match c
    case Pending(kind, delta) => kind.TRIP_RECOVERY_BONUS? ==> FitsLater(book, clock, delta, cap)
    case Writing(kind, delta, score, status) =>
      score == book.score && status == book.status && (kind.TRIP_RECOVERY_BONUS? ==> FitsLater(book, clock, delta, cap))
    case Counting(rules, _) => OrElse(rules.dailyCap, 6) <= cap
    case Summing(rules, _, _) => OrElse(rules.dailyCap, 6) <= cap
    case Checking(left, _) => FitsLater(book, clock, left, cap)
    case Over => true
  }

  ghost predicate BonusesPositive(events: seq<Event>) {
    forall i :: 0 <= i < |events| && events[i].kind.TRIP_RECOVERY_BONUS? ==> events[i].delta > 0
  }

  /** Only the newest call may be under way, and what it has read is still so. */
  ghost predicate OneCall(w: World, cap: nat) {
    && (forall k :: 0 <= k < |w.calls| && !w.calls[k].Over? ==> k == |w.calls| - 1 && Fresh(w.calls[k], w.book, w.clock, cap))
    && BonusesPositive(w.book.events)
  }

  lemma MidnightRises(s: int, t: int)
    requires s <= t
    ensures Midnight(s) <= Midnight(t)
  {
    assert s / DAY <= t / DAY;
  }

  /** The sum since a midnight covers every later day. */
  lemma {:induction false} SumCoversLater(events: seq<Event>, since: int, day: int)
    requires BonusesPositive(events) && since <= day
    ensures BonusOn(events, day) <= SumSince(events, TRIP_RECOVERY_BONUS, since)
  {
    if events != [] {
      var last := events[|events| - 1];
      SumCoversLater(events[..|events| - 1], since, day);
      assert Midnight(last.at) <= last.at;
    }
  }

  lemma LeftFitsLater(b: Book, rules: Rules, clock: int, delta: int, cap: nat)
    requires BonusesPositive(b.events) && 0 < delta <= Left(b, rules, clock) && OrElse(rules.dailyCap, 6) <= cap
    ensures FitsLater(b, clock, delta, cap)
  {
    forall t: int | t >= clock ensures BonusOn(b.events, Midnight(t)) + delta <= cap {
      MidnightRises(clock, t);
      SumCoversLater(b.events, Midnight(clock), Midnight(t));
    }
  }

  lemma SummedIsFresh(b: Book, rules: Rules, status: Status, clean: nat, clock: int, cap: nat)
    requires BonusesPositive(b.events) && OrElse(rules.dailyCap, 6) <= cap
    ensures Fresh(Summed(rules, status, clean, Left(b, rules, clock)), b, clock, cap)
  {
    var left := Left(b, rules, clock);
    var delta := Min(OrElse(rules.limitedBonus, 5), left);
    if left > 0 { LeftFitsLater(b, rules, clock, left, cap); }
    if left > 0 && delta > 0 { LeftFitsLater(b, rules, clock, delta, cap); }
  }

  lemma LookedIsFresh(b: Book, over: bool, left: int, enough: bool, clock: int, cap: nat)
    requires FitsLater(b, clock, left, cap)
    ensures Fresh(Looked(over, left, enough), b, clock, cap)
  {
    if Min(5, left) > 0 { assert FitsLater(b, clock, Min(5, left), cap); }
  }

  lemma SteppedIsFresh(w: World, k: nat, cap: nat)
    requires k < |w.calls| && Fresh(w.calls[k], w.book, w.clock, cap) && BonusesPositive(w.book.events)
    ensures Fresh(Stepped(w, k).calls[k], Stepped(w, k).book, w.clock, cap) && BonusesPositive(Stepped(w, k).book.events)
  {
    match w.calls[k]
    case Summing(rules, status, clean) => SummedIsFresh(w.book, rules, status, clean, w.clock, cap);
    case Checking(left, enough) => LookedIsFresh(w.book, BlockIsOver(w.book.restrictions, w.clock), left, enough, w.clock, cap);
    case _ =>
  }

  lemma GoKeepsOne(w: World, k: nat, cap: nat)
    requires OneCall(w, cap) && k < |w.calls|
    ensures OneCall(Stepped(w, k), cap)
  {
    if !w.calls[k].Over? { SteppedIsFresh(w, k, cap); }
  }

  lemma NextKeepsOne(w: World, a: Action, cap: nat)
    requires OneCall(w, cap) && Alone(w, a, cap)
    ensures OneCall(Next(w, a), cap)
  {
    if a.Go? {
      if a.k < |w.calls| { GoKeepsOne(w, a.k, cap); }
    } else if a.Tick? {
      forall k | 0 <= k < |w.calls| && !w.calls[k].Over? ensures Fresh(w.calls[k], w.book, w.clock + a.millis, cap) {
        assert Fresh(w.calls[k], w.book, w.clock, cap);
      }
    }
  }

  lemma OneIsGuarded(w: World, a: Action, cap: nat)
    requires OneCall(w, cap)
    ensures Fits(w, a) && Room(w, a, cap)
  {
  }

  lemma {:induction false} RunOneIsGuarded(w: World, actions: seq<Action>, cap: nat)
    requires OneCall(w, cap) && AllAlone(w, actions, cap)
    ensures AllFit(w, actions) && AllRoom(w, actions, cap)
    decreases |actions|
  {
    if actions != [] {
      OneIsGuarded(w, actions[0], cap);
      NextKeepsOne(w, actions[0], cap);
      RunOneIsGuarded(Next(w, actions[0]), actions[1..], cap);
    }
  }

  /** Calls that run one at a time, lost ones included, keep both laws throughout. */
  lemma AloneKeepsBoth(clock: int, actions: seq<Action>, cap: nat)
    requires AllAlone(Start(clock), actions, cap)
    ensures ReplayedThroughout(Start(clock), actions) && CappedThroughout(Start(clock), actions, cap)
  {
    RunOneIsGuarded(Start(clock), actions, cap);
    ReplayedExactly(clock, actions);
    CappedExactly(clock, actions, cap);
  }

  // ---- Failing runs ----

  lemma TwoSteps(w: World, a: Action, b: Action, rest: seq<Action>)
    ensures Run(w, [a] + ([b] + rest)) == Run(Next(Next(w, a), b), rest)
  {
    RunStep(w, a, [b] + rest);
    RunStep(Next(w, a), b, rest);
  }

  /** Calls `k` and `k + 1` both go on. */
  function Both(k: nat, rest: seq<Action>): seq<Action> { [Go(k)] + ([Go(k + 1)] + rest) }

  lemma BothRead(w: World, k: nat, c: Call, d: Call)
    requires k + 1 < |w.calls| && w.calls[k] == c && w.calls[k + 1] == d && c.Pending? && d.Pending?
    ensures Next(Next(w, Go(k)), Go(k + 1))
         == w.(calls := w.calls[k := Writing(c.kind, c.delta, w.book.score, w.book.status)]
                               [k + 1 := Writing(d.kind, d.delta, w.book.score, w.book.status)])
  {
  }

  lemma BothWrite(w: World, k: nat, c: Call, d: Call)
    requires k + 1 < |w.calls| && w.calls[k] == c && w.calls[k + 1] == d && c.Writing? && d.Writing?
    ensures Next(Next(w, Go(k)), Go(k + 1)).book
         == WriteBack(WriteBack(w.book, c.score, c.status, Event(c.kind, c.delta, w.clock)), d.score, d.status, Event(d.kind, d.delta, w.clock))
  {
  }

  lemma BothReadAndWrite(w: World, k: nat, c: Call, d: Call)
    requires k + 1 < |w.calls| && w.calls[k] == c && w.calls[k + 1] == d && c.Pending? && d.Pending?
    ensures
      var read := (w.book.score, w.book.status);
      Run(w, Both(k, Both(k, []))).book
      == WriteBack(WriteBack(w.book, read.0, read.1, Event(c.kind, c.delta, w.clock)), read.0, read.1, Event(d.kind, d.delta, w.clock))
  {
    var u, v := Writing(c.kind, c.delta, w.book.score, w.book.status), Writing(d.kind, d.delta, w.book.score, w.book.status);
    BothRead(w, k, c, d);
    TwoSteps(w, Go(k), Go(k + 1), Both(k, []));
    var read := w.(calls := w.calls[k := u][k + 1 := v]);
    BothWrite(read, k, u, v);
    TwoSteps(read, Go(k), Go(k + 1), []);
  }

  /** Both events are started, both read, both write. */
  function TwoEvents(first: int, second: int): seq<Action> {
    [StartEvent(OTHER, first)] + ([StartEvent(OTHER, second)] + Both(0, Both(0, [])))
  }

  /** From a new row: of two events that read it before either writes, the score keeps only the second; it agrees with the
      log exactly when the first changes nothing or the second runs into an end of the scale from both scores. */
  lemma OverlapLosesDelta(clock: int, first: int, second: int)
    ensures
      var b := Run(Start(clock), TwoEvents(first, second)).book;
      && b.score == Clamp(100 + second) && |b.events| == 2
      && (b.score == Replay(b.events, 2)
          <==> first >= 0 || second <= -100 || (second >= 0 && Clamp(100 + first) + second >= 100))
  {
    var w := Start(clock);
    var p, q := Pending(OTHER, first), Pending(OTHER, second);
    TwoSteps(w, StartEvent(OTHER, first), StartEvent(OTHER, second), Both(0, Both(0, [])));
    BothReadAndWrite(w.(calls := [] + [p] + [q]), 0, p, q);
    var e, f := Event(OTHER, first, clock), Event(OTHER, second, clock);
    assert Run(w, TwoEvents(first, second)).book.events == [] + [e] + [f];
    ReplayTwo(e, f);
    SameClamp(100 + second, Clamp(100 + first) + second);
  }

  lemma ReplayTwo(e: Event, f: Event)
    ensures Replay([] + [e] + [f], 2) == Clamp(Clamp(100 + e.delta) + f.delta)
  {
    assert Replay([] + [e] + [f], 0) == 100;
    assert Replay([] + [e] + [f], 1) == Clamp(100 + e.delta);
  }

  /** The default rules, but for the number of clean trips, which is none. */
  const NO_TRIPS := Rules(Some(0), None, None, None)

  function Lost50(clock: int): Book { Apply(NewBook(), Event(OTHER, -50, clock)) }

  /** An event makes the row LIMITED. */
  function Losing50(rest: seq<Action>): seq<Action> { [StartEvent(OTHER, -50)] + ([Go(0)] + ([Go(0)] + rest)) }

  /** Two recoveries look everything up before either adds its bonus. */
  function TwoRecoveries(): seq<Action> {
    [StartRecovery(NO_TRIPS)] + ([StartRecovery(NO_TRIPS)] + Both(1, Both(1, Both(1, Both(1, [])))))
  }

  lemma Losing50Run(clock: int, rest: seq<Action>)
    ensures Run(Start(clock), Losing50(rest)) == Run(World(Lost50(clock), clock, [Over]), rest)
  {
    var w := Start(clock);
    RunStep(w, StartEvent(OTHER, -50), [Go(0)] + ([Go(0)] + rest));
    var v := w.(calls := [] + [Pending(OTHER, -50)]);
    EventIsItsSteps(v, 0, OTHER, -50);
    TwoSteps(v, Go(0), Go(0), rest);
    assert To(v, 0, Over).calls == [Over];
  }

  lemma NothingYet(clock: int)
    ensures Left(Lost50(clock), NO_TRIPS, clock) == 6 && Lost50(clock).score == 50 && Lost50(clock).status.LIMITED?
  {
    var events := [Event(OTHER, -50, clock)];
    assert Lost50(clock).events == events && events[..0] == [];
    assert SumSince(events, TRIP_RECOVERY_BONUS, Midnight(clock)) == 0;
  }

  /** Both count and sum. */
  lemma BothLookUp(w: World, rest: seq<Action>)
    requires w.calls == [Over, Counting(NO_TRIPS, LIMITED), Counting(NO_TRIPS, LIMITED)] && Left(w.book, NO_TRIPS, w.clock) == 6
    ensures Run(w, Both(1, Both(1, rest)))
         == Run(w.(calls := [Over, Pending(TRIP_RECOVERY_BONUS, 5), Pending(TRIP_RECOVERY_BONUS, 5)]), rest)
  {
    var n := CountSince(w.book.events, TRIP_COMPLETED_CLEAN, w.clock - 30 * DAY);
    var s, p := Summing(NO_TRIPS, LIMITED, n), Pending(TRIP_RECOVERY_BONUS, 5);
    var v := w.(calls := [Over, s, s]);
    TwoSteps(w, Go(1), Go(2), Both(1, rest));
    assert Next(w, Go(1)) == w.(calls := [Over, s, Counting(NO_TRIPS, LIMITED)]);
    assert Next(Next(w, Go(1)), Go(2)) == v;
    TwoSteps(v, Go(1), Go(2), rest);
    assert Summed(NO_TRIPS, LIMITED, n, 6) == p;
    assert Next(v, Go(1)) == v.(calls := [Over, p, s]);
    assert Next(Next(v, Go(1)), Go(2)) == v.(calls := [Over, p, p]);
  }

  /** From a new row and with the default cap of 6: the bonuses of one day come to 10, and the score gains 5. */
  lemma OverlapExceedsCap(clock: int)
    ensures
      var w := Run(Start(clock), Losing50(TwoRecoveries()));
      BonusOn(w.book.events, Midnight(clock)) == 10 && w.book.score == 55 && !Capped(w, 6)
  {
    var c, p := Counting(NO_TRIPS, LIMITED), Pending(TRIP_RECOVERY_BONUS, 5);
    Losing50Run(clock, TwoRecoveries());
    NothingYet(clock);
    var w := World(Lost50(clock), clock, [Over]);
    TwoSteps(w, StartRecovery(NO_TRIPS), StartRecovery(NO_TRIPS), Both(1, Both(1, Both(1, Both(1, [])))));
    assert [Over] + [c] + [c] == [Over, c, c];
    BothLookUp(w.(calls := [Over, c, c]), Both(1, Both(1, [])));
    BothReadAndWrite(w.(calls := [Over, p, p]), 1, p, p);
    TwoBonuses(clock);
  }

  lemma TwoBonuses(clock: int)
    ensures
      var e := Event(TRIP_RECOVERY_BONUS, 5, clock);
      var b := WriteBack(WriteBack(Lost50(clock), 50, LIMITED, e), 50, LIMITED, e);
      BonusOn(b.events, Midnight(clock)) == 10 && b.score == 55
  {
    var e := Event(TRIP_RECOVERY_BONUS, 5, clock);
    OneMoreBonus([], Event(OTHER, -50, clock), Midnight(clock));
    OneMoreBonus([] + [Event(OTHER, -50, clock)], e, Midnight(clock));
    OneMoreBonus([] + [Event(OTHER, -50, clock)] + [e], e, Midnight(clock));
  }
}
