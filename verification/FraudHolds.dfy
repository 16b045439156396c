/** Holds, when the look for one in force and the placing of a new one interleave with others. */
module FraudHolds {
  import opened Common
  import opened FraudSignals
  import opened FraudSteps

  /** Unreleased holds of one kind on one user follow one another. */
  ghost predicate HoldsApart(holds: seq<Hold>) {
    forall i, j :: 0 <= i < j < |holds| && holds[i].user == holds[j].user && holds[i].kind == holds[j].kind
                   && holds[i].active && holds[j].active
      ==> holds[i].endsAt.Some? && holds[i].endsAt.value <= holds[j].startsAt
  }

  /** So no two of them are in force at one time. */
  lemma HoldsApartMeansOne(holds: seq<Hold>, i: nat, j: nat, now: int)
    requires HoldsApart(holds) && i < j < |holds| && holds[i].user == holds[j].user && holds[i].kind == holds[j].kind
    requires holds[j].startsAt <= now
    ensures !(InForce(holds[i], now) && InForce(holds[j], now))
  {
  }

  /** None of the first `seen` holds of that kind on that user is in force at `lookAt`. */
  predicate Free(holds: seq<Hold>, user: User, kind: HoldKind, lookAt: int, lo: nat, hi: nat)
    requires lo <= hi <= |holds|
  {
    forall i :: lo <= i < hi && holds[i].user == user && holds[i].kind == kind ==> !InForce(holds[i], lookAt)
  }

  predicate LookedFree(stage: Stage, holds: seq<Hold>) {
    stage.Placing? ==> stage.seen <= |holds| && Free(holds, stage.user, stage.kind, stage.lookAt, 0, stage.seen)
  }

  ghost predicate LooksFree(w: World) { forall k :: 0 <= k < |w.tasks| ==> LookedFree(w.tasks[k].stage, w.holds) }

  /** Holds are added, and at most released. */
  predicate AtMostReleased(a: seq<Hold>, b: seq<Hold>) {
    |a| <= |b| && forall i :: 0 <= i < |a| ==>
      && b[i].user == a[i].user && b[i].kind == a[i].kind && b[i].startsAt == a[i].startsAt && (b[i].active ==> b[i] == a[i])
  }

  lemma NextReleases(w: World, a: Action)
    ensures AtMostReleased(w.holds, Next(w, a).holds)
  {
    HoldsAfter(w, a);
  }

  lemma HoldOrFree(w: World, user: User, kind: HoldKind, hours: Option<nat>, next: Option<nat>)
    ensures LookedFree(HoldOr(w, user, kind, hours, next), w.holds)
  {
  }

  lemma SteppedLook(w: World, k: nat)
    requires LooksFree(w) && k < |w.tasks|
    ensures LookedFree(Stepped(w, k).tasks[k].stage, w.holds)
  {
    assert LookedFree(w.tasks[k].stage, w.holds);
    match Current(w, k)
    case Guarding(id, user, level) => HoldOrFree(w, user, KindFor(level), HoursFor(level), Some(id));
    case _ =>
  }

  lemma TouchedLook(w: World, a: Action)
    requires LooksFree(w) && Touched(w, a) < |Next(w, a).tasks|
    ensures LookedFree(Next(w, a).tasks[Touched(w, a)].stage, w.holds)
  {
    TasksAfter(w, a);
    match a
    case Go(k) => SteppedLook(w, k);
    case StartHold(held, kind, hours) => HoldOrFree(w, held, kind, hours, None);
    case Crash(k) => assert LookedFree(w.tasks[k].stage, w.holds);
    case QueryCases(k, _) => assert LookedFree(w.tasks[k].stage, w.holds);
    case _ =>
  }

  lemma LookedLater(stage: Stage, a: seq<Hold>, b: seq<Hold>)
    requires LookedFree(stage, a) && AtMostReleased(a, b)
    ensures LookedFree(stage, b)
  {
  }

  lemma NextKeepsLooks(w: World, a: Action)
    requires LooksFree(w)
    ensures LooksFree(Next(w, a))
  {
    var v := Next(w, a);
    TasksAfter(w, a);
    NextReleases(w, a);
    forall k | 0 <= k < |v.tasks| ensures LookedFree(v.tasks[k].stage, v.holds) {
      if k == Touched(w, a) { TouchedLook(w, a); } else { assert v.tasks[k] == w.tasks[k]; }
      LookedLater(v.tasks[k].stage, w.holds, v.holds);
    }
  }

  /** What is placed finds no hold of its kind, placed since its look, in force at its look. */
  predicate Unrivalled(w: World, a: Action) {
    var stage := Taken(w, a);
    stage.Placing? && stage.seen <= |w.holds| ==> Free(w.holds, stage.user, stage.kind, stage.lookAt, stage.seen, |w.holds|)
  }

  lemma OneMoreApart(holds: seq<Hold>, user: User, kind: HoldKind, hours: Option<nat>, lookAt: int)
    requires HoldsApart(holds)
    ensures HoldsApart(holds + [NewHold(user, kind, hours, lookAt)]) <==> Free(holds, user, kind, lookAt, 0, |holds|)
  {
    var h := NewHold(user, kind, hours, lookAt);
    var after := holds + [h];
    if HoldsApart(after) {
      forall i | 0 <= i < |holds| && holds[i].user == user && holds[i].kind == kind ensures !InForce(holds[i], lookAt) {
        assert after[i] == holds[i] && after[|holds|] == h;
      }
    }
  }

  lemma NextApartExactly(w: World, a: Action)
    requires LooksFree(w) && HoldsApart(w.holds)
    ensures HoldsApart(Next(w, a).holds) <==> Unrivalled(w, a)
  {
    HoldsAfter(w, a);
    var stage := Taken(w, a);
    if stage.Placing? {
      assert LookedFree(w.tasks[a.k].stage, w.holds);
      OneMoreApart(w.holds, stage.user, stage.kind, stage.hours, stage.lookAt);
    }
  }

  ghost predicate ApartThroughout(w: World, actions: seq<Action>)
    decreases |actions|
  {
    HoldsApart(w.holds) && (actions != [] ==> ApartThroughout(Next(w, actions[0]), actions[1..]))
  }

  ghost predicate AllUnrivalled(w: World, actions: seq<Action>)
    decreases |actions|
  {
    actions != [] ==> Unrivalled(w, actions[0]) && AllUnrivalled(Next(w, actions[0]), actions[1..])
  }

  lemma {:induction false} RunApartExactly(w: World, actions: seq<Action>)
    requires LooksFree(w) && HoldsApart(w.holds)
    ensures ApartThroughout(w, actions) <==> AllUnrivalled(w, actions)
    decreases |actions|
  {
    if actions != [] {
      NextKeepsLooks(w, actions[0]);
      NextApartExactly(w, actions[0]);
      if HoldsApart(Next(w, actions[0]).holds) { RunApartExactly(Next(w, actions[0]), actions[1..]); }
    }
  }

  /** For every interleaving with crashes, holds of one kind on one user never overlap throughout the run if and only if no
      hold is placed after one of its kind, placed since its look, that is in force at its look. */
  lemma HoldsApartExactly(actions: seq<Action>)
    ensures ApartThroughout(Empty(), actions) <==> AllUnrivalled(Empty(), actions)
  {
    RunApartExactly(Empty(), actions);
  }

  lemma HoldsForHolds(holds: seq<Hold>, user: User, level: Severity, now: int)
    requires level.HIGH? || level.CRITICAL?
    ensures HasHold(HoldsFor(holds, user, level, now), user, KindFor(level), now)
  {
    HeldIsHeld(holds, user, KindFor(level), HoursFor(level), now);
  }

  /** Left undisturbed from its recorded signal on, a call that takes its user to HIGH leaves a feature limit in force, one
      that takes the user to CRITICAL a payout hold. */
  lemma HighRiskIsHeld(w: World, k: nat, id: nat, user: User, delta: int)
    requires AtStage(w, k, Scoring(id, user, delta))
    requires
      var level := Raised(RiskOf(w.risk, user), delta).level;
      level.HIGH? || level.CRITICAL?
    ensures
      var level := Raised(RiskOf(w.risk, user), delta).level;
      var looked := Next(Next(Next(w, Go(k)), Go(k)), Go(k));
      var v := if HasHold(w.holds, user, KindFor(level), w.clock) then looked else Next(looked, Go(k));
      HasHold(v.holds, user, KindFor(level), v.clock) && AtStage(v, k, Filing(id))
  {
    var level := Raised(RiskOf(w.risk, user), delta).level;
    ScoresAlone(w, k, id, user, delta);
    HoldsAlone(Next(Next(w, Go(k)), Go(k)), k, id, user, level);
    HoldsForHolds(w.holds, user, level, w.clock);
  }

  /** Two requests for one hold that both look before either places it. */
  function BothLook(user: User, kind: HoldKind): seq<Action> {
    [StartHold(user, kind, None)] + ([StartHold(user, kind, None)] + ([Go(0)] + ([Go(1)] + [])))
  }

  /** From the empty tables: two holds of one kind in force together. */
  lemma OverlapHoldsTwice(user: User, kind: HoldKind)
    ensures
      var w := Run(Empty(), BothLook(user, kind));
      && w.holds == [NewHold(user, kind, None, 0), NewHold(user, kind, None, 0)] && !HoldsApart(w.holds)
      && InForce(w.holds[0], w.clock) && InForce(w.holds[1], w.clock)
  {
    var place := Task(Placing(user, kind, None, 0, 0, None), true);
    var w1 := Next(Empty(), StartHold(user, kind, None));
    assert w1 == Empty().(tasks := [] + [place]);
    var w2 := Next(w1, StartHold(user, kind, None));
    assert w2 == Empty().(tasks := [place, place]);
    var w3 := Next(w2, Go(0));
    assert w3.holds == [] + [NewHold(user, kind, None, 0)] && w3.tasks[1] == place;
    var w4 := Next(w3, Go(1));
    assert w4.holds == [NewHold(user, kind, None, 0)] + [NewHold(user, kind, None, 0)];
    RunStep(Empty(), StartHold(user, kind, None), [StartHold(user, kind, None)] + ([Go(0)] + ([Go(1)] + [])));
    RunStep(w1, StartHold(user, kind, None), [Go(0)] + ([Go(1)] + []));
    RunStep(w2, Go(0), [Go(1)] + []);
    RunStep(w3, Go(1), []);
    assert w4.holds[0] == w4.holds[1] == NewHold(user, kind, None, 0);
    assert w4.clock == 0 && NewHold(user, kind, None, 0).endsAt.None?;
  }
}
