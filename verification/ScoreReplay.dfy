/** The Zippy Score of one user in one role: events, restrictions and recovery (services/ride/src/score/score.service.ts). */
module ScoreReplay {
  import opened Common

  datatype Status = NONE | WARNING | LIMITED | BLOCKED

  datatype EventType = TRIP_COMPLETED_CLEAN | TRIP_RECOVERY_BONUS | MANUAL_ADJUST | OTHER

  datatype Event = Event(kind: EventType, delta: int, at: int)

  datatype Restriction = Restriction(status: Status, lowScoreAuto: bool, startsAt: int, endsAt: Option<int>, createdBy: Option<string>)

  datatype Book = Book(score: int, status: Status, events: seq<Event>, restrictions: seq<Restriction>)

  const DAY := 86400000

  function MapStatus(score: int): Status {
    if score >= 80 then NONE else if score >= 60 then WARNING else if score >= 40 then LIMITED else BLOCKED
  }

  function Clamp(x: int): (r: int)
    ensures 0 <= r <= 100 && (0 <= x <= 100 ==> r == x) && (x < 0 ==> r == 0) && (x > 100 ==> r == 100)
  {
    if x < 0 then 0 else if x > 100 then 100 else x
  }

  /** A new score row: 100 and unrestricted. */
  function NewBook(): Book { Book(100, NONE, [], []) }

  function AutoBlock(now: int): Restriction { Restriction(BLOCKED, true, now, Some(now + DAY), None) }

  function Apply(b: Book, e: Event): Book {
    var score := Clamp(b.score + e.delta);
    Book(score, MapStatus(score), b.events + [e],
         if MapStatus(score).BLOCKED? && !b.status.BLOCKED? then b.restrictions + [AutoBlock(e.at)] else b.restrictions)
  }

  /** The `recovery_rules` row; a missing row reads like one without fields. */
  datatype Rules = Rules(limitedCleanTrips: Option<int>, limitedBonus: Option<int>, blockedCleanTrips: Option<int>, dailyCap: Option<int>)

  function OrElse(x: Option<int>, otherwise: int): int { if x.Some? then x.value else otherwise }

  function Min(a: int, b: int): int { if a < b then a else b }

  /** The last midnight, of days of 24 hours. */
  function Midnight(now: int): (m: int)
    ensures m <= now < m + 86400000 && m % 86400000 == 0
  {
    now - now % DAY
  }

  function CountSince(events: seq<Event>, kind: EventType, since: int): nat {
    if events == [] then 0
    else
      var last := events[|events| - 1];
      CountSince(events[..|events| - 1], kind, since) + (if last.kind == kind && last.at >= since then 1 else 0)
  }

  function SumSince(events: seq<Event>, kind: EventType, since: int): int {
    if events == [] then 0
    else
      var last := events[|events| - 1];
      SumSince(events[..|events| - 1], kind, since) + (if last.kind == kind && last.at >= since then last.delta else 0)
  }

  /** The latest restriction whose reason is LOW_SCORE_AUTO. */
  function LatestAuto(rs: seq<Restriction>): Option<Restriction> {
    if rs == [] then None
    else if rs[|rs| - 1].lowScoreAuto then Some(rs[|rs| - 1]) else LatestAuto(rs[..|rs| - 1])
  }

  predicate BlockIsOver(rs: seq<Restriction>, now: int) {
    LatestAuto(rs).Some? && LatestAuto(rs).value.endsAt.Some? && LatestAuto(rs).value.endsAt.value <= now
  }

  /** It is the last row among those of the automatic kind. */
  lemma {:induction false} LatestAutoMeans(rs: seq<Restriction>, k: nat)
    requires k < |rs| && rs[k].lowScoreAuto && forall i :: k < i < |rs| ==> !rs[i].lowScoreAuto
    ensures LatestAuto(rs) == Some(rs[k])
  {
    if k < |rs| - 1 { LatestAutoMeans(rs[..|rs| - 1], k); }
  }

  /** An automatic block bars recoveries for exactly a day, counted from the newest such block. */
  lemma BlockLastsADay(rs: seq<Restriction>, at: int, now: int)
    ensures BlockIsOver(rs + [AutoBlock(at)], now) <==> now - at >= 86400000
    ensures !BlockIsOver([], now)
  {
  }

  /** What a completed trip earns, in full: within what the cap leaves of the day, a LIMITED row of at least 5 clean trips in 30
      days gets 5, a BLOCKED one of at least 3 whose block is over gets 5; each number but the last may be configured. */
  lemma RecoveryMeans(b: Book, rules: Rules, now: int)
    ensures
      var clean := CountSince(b.events, TRIP_COMPLETED_CLEAN, now - 2592000000);
      var left := (if rules.dailyCap == None then 6 else rules.dailyCap.value) - SumSince(b.events, TRIP_RECOVERY_BONUS, Midnight(now));
      var bonus := if rules.limitedBonus == None then 5 else rules.limitedBonus.value;
      var earns :=
        if b.status == LIMITED && clean >= (if rules.limitedCleanTrips == None then 5 else rules.limitedCleanTrips.value) then bonus
        else if b.status == BLOCKED && BlockIsOver(b.restrictions, now)
                && clean >= (if rules.blockedCleanTrips == None then 3 else rules.blockedCleanTrips.value) then 5
        else 0;
      && (left <= 0 || earns <= 0 ==> Recovered(b, rules, now) == b)
      && (left > 0 && earns > 0 ==>
            Recovered(b, rules, now) == Apply(b, Event(TRIP_RECOVERY_BONUS, if earns < left then earns else left, now)))
  {
  }

  /** Counts and sums of a kind of event since an instant are those of the events before, and the last one if it is of that
      kind and not older; so an event older than that changes neither. */
  lemma SinceMeans(events: seq<Event>, e: Event, kind: EventType, since: int)
    ensures CountSince([], kind, since) == 0 && SumSince([], kind, since) == 0
    ensures CountSince(events + [e], kind, since) == CountSince(events, kind, since) + (if e.kind == kind && e.at >= since then 1 else 0)
    ensures SumSince(events + [e], kind, since) == SumSince(events, kind, since) + (if e.kind == kind && e.at >= since then e.delta else 0)
  {
    assert (events + [e])[..|events|] == events;
  }

  /** What the daily cap leaves. */
  function Left(b: Book, rules: Rules, now: int): int {
    OrElse(rules.dailyCap, 6) - SumSince(b.events, TRIP_RECOVERY_BONUS, Midnight(now))
  }

  function Bonus(status: Status, rules: Rules, clean: nat, left: int, over: bool): int {
    if left <= 0 then 0
    else if status.LIMITED? && clean >= OrElse(rules.limitedCleanTrips, 5) then Min(OrElse(rules.limitedBonus, 5), left)
    else if status.BLOCKED? && over && clean >= OrElse(rules.blockedCleanTrips, 3) then Min(5, left)
    else 0
  }

  /** What a completed trip earns back; nothing unless positive. */
  function Recovery(b: Book, rules: Rules, now: int): int {
    Bonus(b.status, rules, CountSince(b.events, TRIP_COMPLETED_CLEAN, now - 30 * DAY), Left(b, rules, now), BlockIsOver(b.restrictions, now))
  }

  function Recovered(b: Book, rules: Rules, now: int): Book {
    if Recovery(b, rules, now) > 0 then Apply(b, Event(TRIP_RECOVERY_BONUS, Recovery(b, rules, now), now)) else b
  }

  function Restricted(b: Book, r: Restriction, now: int): Book {
    Apply(b.(restrictions := b.restrictions + [r]), Event(MANUAL_ADJUST, 0, now))
  }

  function Lifted(b: Book, id: nat, now: int): Book
    requires id < |b.restrictions|
  {
    Apply(b.(restrictions := b.restrictions[id := b.restrictions[id].(endsAt := Some(now))]), Event(MANUAL_ADJUST, 0, now))
  }

  /** The rows of one user in one role. */
  class ScoreRows {
    var score: int
    var status: Status
    var events: seq<Event>
    var restrictions: seq<Restriction>

    function Value(): Book
      reads this
    {
      Book(score, status, events, restrictions)
    }

    constructor ()
      ensures Value() == NewBook()
    {
      score, status, events, restrictions := 100, NONE, [], [];
    }

    method ApplyScoreEvent(kind: EventType, delta: int, now: int)
      modifies this
      ensures Value() == Apply(old(Value()), Event(kind, delta, now))
      ensures events == old(events) + [Event(kind, delta, now)]
      ensures score == (if old(score) + delta > 100 then 100 else if old(score) + delta < 0 then 0 else old(score) + delta)
      ensures status == (if score >= 80 then NONE else if score >= 60 then WARNING else if score >= 40 then LIMITED else BLOCKED)
      ensures restrictions == old(restrictions)
                              + if score < 40 && old(status) != BLOCKED then [Restriction(BLOCKED, true, now, Some(now + 86400000), None)] else []
    {
      var next := if score + delta > 100 then 100 else score + delta;
      if next < 0 { next := 0; }
      var was := status;
      score, status := next, MapStatus(next);
      events := events + [Event(kind, delta, now)];
      if status.BLOCKED? && !was.BLOCKED? {
        restrictions := restrictions + [Restriction(BLOCKED, true, now, Some(now + 24 * 60 * 60 * 1000), None)];
      }
    }

    method CreateManualRestriction(level: Status, lowScoreAuto: bool, endsAt: Option<int>, admin: string, now: int)
      modifies this
      ensures Value() == Restricted(old(Value()), Restriction(level, lowScoreAuto, now, endsAt, Some(admin)), now)
    {
      restrictions := restrictions + [Restriction(level, lowScoreAuto, now, endsAt, Some(admin))];
      ApplyScoreEvent(MANUAL_ADJUST, 0, now);
    }

    method LiftRestriction(id: nat, now: int) returns (ok: bool)
      modifies this
      ensures ok <==> id < |old(restrictions)|
      ensures Value() == if ok then Lifted(old(Value()), id, now) else old(Value())
    {
      ok := id < |restrictions|;
      if !ok { return; }
      restrictions := restrictions[id := restrictions[id].(endsAt := Some(now))];
      ApplyScoreEvent(MANUAL_ADJUST, 0, now);
    }

    method ApplyRecoveryOnTripCompletion(rules: Rules, now: int)
      modifies this
      ensures Value() == Recovered(old(Value()), rules, now)
    {
      var read := status;
      if !read.LIMITED? && !read.BLOCKED? { return; }
      var clean := CountSince(events, TRIP_COMPLETED_CLEAN, now - 30 * 24 * 3600 * 1000);
      var used := SumSince(events, TRIP_RECOVERY_BONUS, Midnight(now));
      var cap := OrElse(rules.dailyCap, 6);
      if used >= cap { return; }
      if read.LIMITED? && clean >= OrElse(rules.limitedCleanTrips, 5) {
        var delta := Min(OrElse(rules.limitedBonus, 5), cap - used);
        if delta > 0 { ApplyScoreEvent(TRIP_RECOVERY_BONUS, delta, now); }
      }
      if read.BLOCKED? && BlockIsOver(restrictions, now) && clean >= OrElse(rules.blockedCleanTrips, 3) {
        var delta := Min(5, cap - used);
        if delta > 0 { ApplyScoreEvent(TRIP_RECOVERY_BONUS, delta, now); }
      }
    }
  }

  // ---- Runs, each call one step ----

  datatype Action =
    | ScoreEvent(kind: EventType, delta: int, at: int)
    | Restrict(level: Status, lowScoreAuto: bool, endsAt: Option<int>, admin: string, from: int)
    | Lift(id: nat, when: int)
    | Complete(rules: Rules, now: int)

  /** Only the recovery itself writes recovery bonuses. */
  function Next(b: Book, a: Action): Book {
    match a
    case ScoreEvent(kind, delta, at) => if kind.TRIP_RECOVERY_BONUS? then b else Apply(b, Event(kind, delta, at))
    case Restrict(level, lowScoreAuto, endsAt, admin, from) => Restricted(b, Restriction(level, lowScoreAuto, from, endsAt, Some(admin)), from)
    case Lift(id, when) => if id < |b.restrictions| then Lifted(b, id, when) else b
    case Complete(rules, now) => Recovered(b, rules, now)
  }

  function Run(b: Book, actions: seq<Action>): Book
    decreases |actions|
  {
    if actions == [] then b else Run(Next(b, actions[0]), actions[1..])
  }

  /** The score after the first `k` events of the log, from 100. */
  function Replay(events: seq<Event>, k: nat): (score: int)
    requires k <= |events|
    ensures 0 <= score <= 100
  {
    if k == 0 then 100 else Clamp(Replay(events, k - 1) + events[k - 1].delta)
  }

  /** How often the first `k` events took the score from unblocked to blocked. */
  function BlockEntries(events: seq<Event>, k: nat): nat
    requires k <= |events|
  {
    if k == 0 then 0
    else BlockEntries(events, k - 1)
         + (if MapStatus(Replay(events, k)).BLOCKED? && !MapStatus(Replay(events, k - 1)).BLOCKED? then 1 else 0)
  }

  function AutoBlocks(rs: seq<Restriction>, k: nat): nat
    requires k <= |rs|
  {
    if k == 0 then 0 else AutoBlocks(rs, k - 1) + (if rs[k - 1].createdBy.None? then 1 else 0)
  }

  ghost predicate Replayed(b: Book) {
    && b.score == Replay(b.events, |b.events|) && b.status == MapStatus(b.score)
    && AutoBlocks(b.restrictions, |b.restrictions|) == BlockEntries(b.events, |b.events|)
  }

  lemma {:induction false} ReplayPrefix(events: seq<Event>, more: seq<Event>, k: nat)
    requires k <= |events|
    ensures Replay(events + more, k) == Replay(events, k) && BlockEntries(events + more, k) == BlockEntries(events, k)
  {
    if k > 0 { ReplayPrefix(events, more, k - 1); }
  }

  /** Changing rows without changing who created them, and adding rows after them. */
  lemma {:induction false} AutoBlocksAgree(a: seq<Restriction>, b: seq<Restriction>, k: nat)
    requires k <= |a| && k <= |b| && forall i :: 0 <= i < k ==> a[i].createdBy == b[i].createdBy
    ensures AutoBlocks(a, k) == AutoBlocks(b, k)
  {
    if k > 0 { AutoBlocksAgree(a, b, k - 1); }
  }

  lemma ApplyKeepsReplay(b: Book, e: Event)
    requires Replayed(b)
    ensures Replayed(Apply(b, e))
  {
    ReplayPrefix(b.events, [e], |b.events|);
    AutoBlocksAgree(b.restrictions, b.restrictions + [AutoBlock(e.at)], |b.restrictions|);
  }

  lemma NextKeepsReplay(b: Book, a: Action)
    requires Replayed(b)
    ensures Replayed(Next(b, a))
  {
    match a
    case ScoreEvent(kind, delta, at) => ApplyKeepsReplay(b, Event(kind, delta, at));
    case Restrict(level, lowScoreAuto, endsAt, admin, from) =>
      var rs := b.restrictions + [Restriction(level, lowScoreAuto, from, endsAt, Some(admin))];
      AutoBlocksAgree(b.restrictions, rs, |b.restrictions|);
      ApplyKeepsReplay(b.(restrictions := rs), Event(MANUAL_ADJUST, 0, from));
    case Lift(id, when) =>
      if id < |b.restrictions| {
        var rs := b.restrictions[id := b.restrictions[id].(endsAt := Some(when))];
        AutoBlocksAgree(b.restrictions, rs, |rs|);
        ApplyKeepsReplay(b.(restrictions := rs), Event(MANUAL_ADJUST, 0, when));
      }
    case Complete(rules, now) =>
      if Recovery(b, rules, now) > 0 { ApplyKeepsReplay(b, Event(TRIP_RECOVERY_BONUS, Recovery(b, rules, now), now)); }
  }

  lemma {:induction false} RunKeepsReplay(b: Book, actions: seq<Action>)
    requires Replayed(b)
    ensures Replayed(Run(b, actions))
    decreases |actions|
  {
    if actions != [] {
      NextKeepsReplay(b, actions[0]);
      RunKeepsReplay(Next(b, actions[0]), actions[1..]);
    }
  }

  /** In every run the stored score is the replay of the event log, the status its band, and the automatic blocks are as
      many as the replay's entries into BLOCKED. */
  lemma ScoreIsReplay(actions: seq<Action>)
    ensures
      var b := Run(NewBook(), actions);
      && b.score == Replay(b.events, |b.events|) && b.status == MapStatus(b.score)
      && AutoBlocks(b.restrictions, |b.restrictions|) == BlockEntries(b.events, |b.events|)
  {
    RunKeepsReplay(NewBook(), actions);
  }

  // ---- The daily cap ----

  /** Recovery bonuses of the day that starts at `day`. */
  function BonusOn(events: seq<Event>, day: int): int {
    if events == [] then 0
    else
      var last := events[|events| - 1];
      BonusOn(events[..|events| - 1], day) + (if last.kind.TRIP_RECOVERY_BONUS? && Midnight(last.at) == day then last.delta else 0)
  }

  ghost predicate Capped(b: Book, cap: nat) {
    && (forall i :: 0 <= i < |b.events| && b.events[i].kind.TRIP_RECOVERY_BONUS? ==> b.events[i].delta > 0)
    && (forall day :: BonusOn(b.events, day) <= cap)
  }

  /** The source sums everything since midnight, the day's bonuses among it. */
  lemma {:induction false} SumCoversDay(events: seq<Event>, day: int)
    requires forall i :: 0 <= i < |events| && events[i].kind.TRIP_RECOVERY_BONUS? ==> events[i].delta > 0
    ensures BonusOn(events, day) <= SumSince(events, TRIP_RECOVERY_BONUS, day)
  {
    if events != [] { SumCoversDay(events[..|events| - 1], day); }
  }

  lemma ApplyKeepsCap(b: Book, e: Event, cap: nat)
    requires Capped(b, cap)
    requires e.kind.TRIP_RECOVERY_BONUS? ==> 0 < e.delta && BonusOn(b.events, Midnight(e.at)) + e.delta <= cap
    ensures Capped(Apply(b, e), cap)
  {
    var events := b.events + [e];
    assert events[..|events| - 1] == b.events;
    forall day ensures BonusOn(events, day) <= cap { assert BonusOn(b.events, day) <= cap; }
  }

  predicate CapAtMost(a: Action, cap: nat) { a.Complete? ==> OrElse(a.rules.dailyCap, 6) <= cap }

  lemma NextKeepsCap(b: Book, a: Action, cap: nat)
    requires Capped(b, cap) && CapAtMost(a, cap)
    ensures Capped(Next(b, a), cap)
  {
    match a
    case ScoreEvent(kind, delta, at) =>
      if !kind.TRIP_RECOVERY_BONUS? { ApplyKeepsCap(b, Event(kind, delta, at), cap); }
    case Restrict(level, lowScoreAuto, endsAt, admin, from) =>
      var r := Restriction(level, lowScoreAuto, from, endsAt, Some(admin));
      ApplyKeepsCap(b.(restrictions := b.restrictions + [r]), Event(MANUAL_ADJUST, 0, from), cap);
    case Lift(id, when) =>
      if id < |b.restrictions| {
        var rs := b.restrictions[id := b.restrictions[id].(endsAt := Some(when))];
        ApplyKeepsCap(b.(restrictions := rs), Event(MANUAL_ADJUST, 0, when), cap);
      }
    case Complete(rules, now) =>
      if Recovery(b, rules, now) > 0 {
        SumCoversDay(b.events, Midnight(now));
        ApplyKeepsCap(b, Event(TRIP_RECOVERY_BONUS, Recovery(b, rules, now), now), cap);
      }
  }

  lemma {:induction false} RunKeepsCap(b: Book, actions: seq<Action>, cap: nat)
    requires Capped(b, cap) && forall a :: a in actions ==> CapAtMost(a, cap)
    ensures Capped(Run(b, actions), cap)
    decreases |actions|
  {
    if actions != [] {
      NextKeepsCap(b, actions[0], cap);
      RunKeepsCap(Next(b, actions[0]), actions[1..], cap);
    }
  }

  /** However many trips complete, the recovery bonuses of one day never sum above the daily cap. */
  lemma DailyCapHolds(actions: seq<Action>, cap: nat, day: int)
    requires forall a :: a in actions ==> CapAtMost(a, cap)
    ensures BonusOn(Run(NewBook(), actions).events, day) <= cap
  {
    RunKeepsCap(NewBook(), actions, cap);
  }
}
