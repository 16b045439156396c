/** The one-time code between arrival and start: `driverArrived` issues it, `verifyOtp` checks it and counts the misses
    (services/ride/src/ride/ride.service.ts). The stored hash stands for the code, hashing being injective. */
module TripOtp {
  import opened Common
  import opened TripMatching

  const MAX_ATTEMPTS := 5
  const ALERT_FROM := 3
  const OTP_LIFE := 600000

  datatype Otp = Otp(code: string, expiresAt: int, attempts: nat, verifiedAt: Option<int>)

  /** What one look at the code row decides. */
  datatype Verdict = Refused | Miss(seen: nat) | Hit

  function Judge(otp: Option<Otp>, guess: string, now: int): Verdict {
    if otp.None? || otp.value.expiresAt < now || otp.value.attempts >= MAX_ATTEMPTS then Refused
    else if guess != otp.value.code then Miss(otp.value.attempts)
    else Hit
  }

  function Missed(otp: Option<Otp>): Option<Otp> {
    match otp case None => None case Some(o) => Some(o.(attempts := o.attempts + 1))
  }

  function Verified(otp: Option<Otp>, now: int): Option<Otp> {
    match otp case None => None case Some(o) => Some(o.(verifiedAt := Some(now)))
  }

  function Issued(code: string, now: int): Option<Otp> { Some(Otp(code, now + OTP_LIFE, 0, None)) }

  /** The rows of one trip, worked on by one call at a time. */
  class OtpRows {
    var status: Status
    var otp: Option<Otp>
    var alerts: nat

    constructor ()
      ensures status == DRIVER_EN_ROUTE && otp == None && alerts == 0
    {
      status, otp, alerts := DRIVER_EN_ROUTE, None, 0;
    }

    method Arrive(code: string, now: int) returns (ok: bool)
      modifies this
      ensures ok <==> old(status).DRIVER_EN_ROUTE?
      ensures ok ==> status == OTP_PENDING && otp == Issued(code, now) && otp == Some(Otp(code, now + 600000, 0, None))
      ensures !ok ==> status == old(status) && otp == old(otp)
      ensures alerts == old(alerts)
    {
      ok := status.DRIVER_EN_ROUTE?;
      if !ok { return; }
      status := OTP_PENDING;
      otp := Some(Otp(code, now + OTP_LIFE, 0, None));
    }

    method Verify(guess: string, now: int) returns (ok: bool)
      modifies this
      ensures ok <==> old(status).OTP_PENDING? && Judge(old(otp), guess, now).Hit?
      ensures ok <==>
        && old(status) == OTP_PENDING && old(otp).Some? && old(otp).value.expiresAt >= now && old(otp).value.attempts < 5
        && guess == old(otp).value.code
      ensures ok ==> status == IN_PROGRESS && otp == Verified(old(otp), now) && alerts == old(alerts)
      ensures !ok ==> status == old(status)
      ensures !ok && old(status).OTP_PENDING? && Judge(old(otp), guess, now).Miss? ==>
                otp == Missed(old(otp)) && alerts == old(alerts) + (if old(otp).value.attempts + 1 >= ALERT_FROM then 1 else 0)
      ensures !old(status).OTP_PENDING? || Judge(old(otp), guess, now).Refused? ==> otp == old(otp) && alerts == old(alerts)
    {
      ok := false;
      if !status.OTP_PENDING? || otp.None? { return; }
      var o := otp.value;
      if o.expiresAt < now || o.attempts >= MAX_ATTEMPTS { return; }
      if guess != o.code {
        otp := Some(o.(attempts := o.attempts + 1));
        if o.attempts + 1 >= ALERT_FROM { alerts := alerts + 1; }
        return;
      }
      otp := Some(o.(verifiedAt := Some(now)));
      status := IN_PROGRESS;
      ok := true;
    }
  }

  // ---- Every interleaving of those calls, each await a point where another may run ----

  /** `arriving` calls have read the status, `issuing` ones have also written it; `readers` have passed the status check
      of a verification, `misses` hold the count each failing one saw, `hits` are about to start the trip. `issues`,
      `total` and `alerts` count the codes issued, the misses recorded and the alerts raised so far. */
  datatype World = World(status: Status, otp: Option<Otp>, arriving: nat, issuing: nat, readers: nat, misses: multiset<nat>,
                         hits: nat, issues: nat, total: nat, alerts: nat)

  function EnRoute(): World { World(DRIVER_EN_ROUTE, None, 0, 0, 0, multiset{}, 0, 0, 0, 0) }

  datatype Action =
    | StartArrive
    | WriteArrived
    | IssueOtp(code: string, now: int)
    | StartVerify
    | CheckOtp(guess: string, now: int)
    | RecordMiss(seen: nat)
    | StartTrip(now: int)
    | Cancel(to: Status)

  function Next(w: World, a: Action): World {
    match a
    case StartArrive => if w.status.DRIVER_EN_ROUTE? then w.(arriving := w.arriving + 1) else w
    case WriteArrived =>
      if w.arriving == 0 then w else w.(status := OTP_PENDING, arriving := w.arriving - 1, issuing := w.issuing + 1)
    case IssueOtp(code, now) =>
      if w.issuing == 0 then w else w.(otp := Issued(code, now), issuing := w.issuing - 1, issues := w.issues + 1)
    case StartVerify => if w.status.OTP_PENDING? then w.(readers := w.readers + 1) else w
    case CheckOtp(guess, now) =>
      if w.readers == 0 then w
      else
        var v := w.(readers := w.readers - 1);
        (match Judge(w.otp, guess, now)
         case Refused => v
         case Miss(seen) => v.(misses := w.misses + multiset{seen})
         case Hit => v.(hits := w.hits + 1))
    case RecordMiss(seen) =>
      if seen !in w.misses then w
      else w.(otp := Missed(w.otp), misses := w.misses - multiset{seen}, total := w.total + 1,
              alerts := w.alerts + (if seen + 1 >= ALERT_FROM then 1 else 0))
    case StartTrip(now) =>
      if w.hits == 0 then w else w.(status := IN_PROGRESS, otp := Verified(w.otp, now), hits := w.hits - 1)
    case Cancel(to) => if Cancelled(to) then w.(status := to) else w
  }

  function Run(w: World, actions: seq<Action>): World
    decreases |actions|
  {
    if actions == [] then w else Run(Next(w, actions[0]), actions[1..])
  }

  /** The steps of an undisturbed verification come to `OtpRows.Verify`: a wrong guess is counted, and from the third on raises
      an alert; */
  lemma MissIsItsSteps(w: World, guess: string, now: int)
    requires w.status == OTP_PENDING && w.otp.Some? && w.otp.value.expiresAt >= now && w.otp.value.attempts < 5 && guess != w.otp.value.code
    ensures
      var seen := w.otp.value.attempts;
      Next(Next(Next(w, StartVerify), CheckOtp(guess, now)), RecordMiss(seen))
      == w.(otp := Some(w.otp.value.(attempts := seen + 1)), total := w.total + 1, alerts := w.alerts + if seen >= 2 then 1 else 0)
  {
    assert w.misses + multiset{w.otp.value.attempts} - multiset{w.otp.value.attempts} == w.misses;
  }

  /** a right one starts the trip; and any other is refused. */
  lemma HitIsItsSteps(w: World, guess: string, now: int)
    requires w.status == OTP_PENDING
    ensures
      var looked := Next(Next(w, StartVerify), CheckOtp(guess, now));
      if w.otp == None || w.otp.value.expiresAt < now || w.otp.value.attempts >= 5 then looked == w
      else guess == w.otp.value.code ==>
             Next(looked, StartTrip(now)) == w.(status := IN_PROGRESS, otp := Some(w.otp.value.(verifiedAt := Some(now))))
  {
  }

  /** And those of an undisturbed arrival to `OtpRows.Arrive`. */
  lemma ArrivalIsItsSteps(w: World, code: string, now: int)
    ensures Next(Next(Next(w, StartArrive), WriteArrived), IssueOtp(code, now))
         == if w.status != DRIVER_EN_ROUTE then Next(Next(w, WriteArrived), IssueOtp(code, now))
            else w.(status := OTP_PENDING, otp := Some(Otp(code, now + 600000, 0, None)), issues := w.issues + 1)
  {
  }

  /** Never more than `width` failing verifications between their look and their increment. */
  predicate Narrow(w: World, actions: seq<Action>, width: nat)
    decreases |actions|
  {
    |w.misses| <= width && (actions != [] ==> Narrow(Next(w, actions[0]), actions[1..], width))
  }

  /** Never more than one arrival under way. */
  predicate OneArrival(w: World, actions: seq<Action>)
    decreases |actions|
  {
    w.arriving + w.issuing <= 1 && (actions != [] ==> OneArrival(Next(w, actions[0]), actions[1..]))
  }

  function Attempts(w: World): nat { if w.otp.None? then 0 else w.otp.value.attempts }

  // ---- The misses on one code ----

  /** The law: what is recorded on the code and what calls have decided but not recorded come to at most `limit`. */
  predicate Within(w: World, limit: nat) { Attempts(w) + |w.misses| <= limit }

  predicate Misses(w: World, a: Action) { a.CheckOtp? && w.readers > 0 && Judge(w.otp, a.guess, a.now).Miss? }

  /** A wrong guess leaves room for itself. */
  predicate Allowed(w: World, a: Action, limit: nat) { Misses(w, a) ==> Attempts(w) + |w.misses| < limit }

  ghost predicate CodeOk(w: World) { w.otp.None? ==> w.misses == multiset{} }

  lemma NextWithinExactly(w: World, a: Action, limit: nat)
    requires CodeOk(w) && Within(w, limit)
    ensures CodeOk(Next(w, a)) && (Within(Next(w, a), limit) <==> Allowed(w, a, limit))
  {
  }

  predicate WithinThroughout(w: World, actions: seq<Action>, limit: nat)
    decreases |actions|
  {
    Within(w, limit) && (actions != [] ==> WithinThroughout(Next(w, actions[0]), actions[1..], limit))
  }

  predicate AllAllowed(w: World, actions: seq<Action>, limit: nat)
    decreases |actions|
  {
    actions != [] ==> Allowed(w, actions[0], limit) && AllAllowed(Next(w, actions[0]), actions[1..], limit)
  }

  lemma {:induction false} RunWithinExactly(w: World, actions: seq<Action>, limit: nat)
    requires CodeOk(w) && Within(w, limit)
    ensures WithinThroughout(w, actions, limit) <==> AllAllowed(w, actions, limit)
    ensures AllAllowed(w, actions, limit) ==> Within(Run(w, actions), limit)
    decreases |actions|
  {
    if actions != [] {
      NextWithinExactly(w, actions[0], limit);
      if Allowed(w, actions[0], limit) { RunWithinExactly(Next(w, actions[0]), actions[1..], limit); }
    }
  }

  /** For every interleaving and every limit, five among them: the misses of the code at hand, recorded or decided, stay
      within the limit throughout the run if and only if each wrong guess is seen while they are below it. */
  lemma MissesWithinExactly(actions: seq<Action>, limit: nat)
    ensures WithinThroughout(EnRoute(), actions, limit) <==> AllAllowed(EnRoute(), actions, limit)
  {
    RunWithinExactly(EnRoute(), actions, limit);
  }

  // ---- The alerts ----

  /** Of the misses still to be recorded, those that will raise an alert. */
  function Due(misses: multiset<nat>): nat { |misses[0 := 0][1 := 0]| }

  /** The law: the alerts raised and those due come to at most `limit`. */
  predicate AlertsWithin(w: World, limit: nat) { w.alerts + Due(w.misses) <= limit }

  predicate AlertAllowed(w: World, a: Action, limit: nat) {
    Misses(w, a) && w.otp.value.attempts + 1 >= ALERT_FROM ==> w.alerts + Due(w.misses) < limit
  }

  lemma OneMoreDue(misses: multiset<nat>, seen: nat)
    ensures Due(misses + multiset{seen}) == Due(misses) + (if seen + 1 >= ALERT_FROM then 1 else 0)
  {
    if seen + 1 >= ALERT_FROM {
      assert (misses + multiset{seen})[0 := 0][1 := 0] == misses[0 := 0][1 := 0] + multiset{seen};
    } else {
      assert (misses + multiset{seen})[0 := 0][1 := 0] == misses[0 := 0][1 := 0];
    }
  }

  lemma OneLessDue(misses: multiset<nat>, seen: nat)
    requires seen in misses
    ensures Due(misses - multiset{seen}) + (if seen + 1 >= ALERT_FROM then 1 else 0) == Due(misses)
  {
    OneMoreDue(misses - multiset{seen}, seen);
    assert misses - multiset{seen} + multiset{seen} == misses;
  }

  lemma CheckAlertsExactly(w: World, a: Action, limit: nat)
    requires AlertsWithin(w, limit) && a.CheckOtp?
    ensures AlertsWithin(Next(w, a), limit) <==> AlertAllowed(w, a, limit)
  {
    if Misses(w, a) {
      OneMoreDue(w.misses, w.otp.value.attempts);
      assert Next(w, a).misses == w.misses + multiset{w.otp.value.attempts};
    } else {
      assert Next(w, a).misses == w.misses;
    }
  }

  lemma RecordKeepsAlertSum(w: World, seen: nat)
    ensures Next(w, RecordMiss(seen)).alerts + Due(Next(w, RecordMiss(seen)).misses) == w.alerts + Due(w.misses)
  {
    if seen in w.misses { OneLessDue(w.misses, seen); }
  }

  lemma NextAlertsExactly(w: World, a: Action, limit: nat)
    requires AlertsWithin(w, limit)
    ensures AlertsWithin(Next(w, a), limit) <==> AlertAllowed(w, a, limit)
  {
    match a
    case CheckOtp(_, _) => CheckAlertsExactly(w, a, limit);
    case RecordMiss(seen) => RecordKeepsAlertSum(w, seen);
    case _ => assert Next(w, a).misses == w.misses;
  }

  predicate AlertsThroughout(w: World, actions: seq<Action>, limit: nat)
    decreases |actions|
  {
    AlertsWithin(w, limit) && (actions != [] ==> AlertsThroughout(Next(w, actions[0]), actions[1..], limit))
  }

  predicate AllAlertsAllowed(w: World, actions: seq<Action>, limit: nat)
    decreases |actions|
  {
    actions != [] ==> AlertAllowed(w, actions[0], limit) && AllAlertsAllowed(Next(w, actions[0]), actions[1..], limit)
  }

  lemma {:induction false} RunAlertsExactly(w: World, actions: seq<Action>, limit: nat)
    requires AlertsWithin(w, limit)
    ensures AlertsThroughout(w, actions, limit) <==> AllAlertsAllowed(w, actions, limit)
    ensures AllAlertsAllowed(w, actions, limit) ==> AlertsWithin(Run(w, actions), limit)
    decreases |actions|
  {
    if actions != [] {
      NextAlertsExactly(w, actions[0], limit);
      if AlertAllowed(w, actions[0], limit) { RunAlertsExactly(Next(w, actions[0]), actions[1..], limit); }
    }
  }

  /** Likewise for the alerts, three among the limits: each wrong guess that sees two misses or more is seen while the
      alerts raised or due are below the limit. */
  lemma AlertsWithinExactly(actions: seq<Action>, limit: nat)
    ensures AlertsThroughout(EnRoute(), actions, limit) <==> AllAlertsAllowed(EnRoute(), actions, limit)
  {
    RunAlertsExactly(EnRoute(), actions, limit);
  }

  // ---- What a failing law comes to ----

  predicate OnlyRecords(actions: seq<Action>) { forall k :: 0 <= k < |actions| ==> actions[k].RecordMiss? }

  /** Recording moves misses and alerts from one side to the other. */
  lemma {:induction false} RecordsKeepSums(w: World, actions: seq<Action>)
    requires CodeOk(w) && OnlyRecords(actions)
    ensures
      var v := Run(w, actions);
      Attempts(v) + |v.misses| == Attempts(w) + |w.misses| && v.alerts + Due(v.misses) == w.alerts + Due(w.misses)
    decreases |actions|
  {
    if actions != [] {
      RecordKeepsAlertSum(w, actions[0].seen);
      RecordsKeepSums(Next(w, actions[0]), actions[1..]);
    }
  }

  lemma {:induction false} RecordAll(w: World) returns (actions: seq<Action>)
    ensures OnlyRecords(actions) && Run(w, actions).misses == multiset{}
    decreases |w.misses|
  {
    if w.misses == multiset{} { return []; }
    var seen :| seen in w.misses;
    var rest := RecordAll(Next(w, RecordMiss(seen)));
    actions := [RecordMiss(seen)] + rest;
    assert actions[1..] == rest;
  }

  /** The law fails exactly when recording what has been decided takes the row past the limit, or raises more alerts than
      that: no new guess is needed. */
  lemma FailingIsExceeding(w: World, limit: nat)
    requires CodeOk(w)
    ensures !Within(w, limit) <==> exists actions :: OnlyRecords(actions) && Attempts(Run(w, actions)) > limit
    ensures !AlertsWithin(w, limit) <==> exists actions :: OnlyRecords(actions) && Run(w, actions).alerts > limit
  {
    var all := RecordAll(w);
    RecordsKeepSums(w, all);
    if actions :| OnlyRecords(actions) && Attempts(Run(w, actions)) > limit { RecordsKeepSums(w, actions); }
    if actions :| OnlyRecords(actions) && Run(w, actions).alerts > limit { RecordsKeepSums(w, actions); }
  }

  // ---- Several codes ----

  /** `past` bounds the misses recorded on the codes issued before the current one. */
  ghost predicate Counted(w: World, limit: nat, past: nat) {
    && w.total - Attempts(w) <= past && Within(w, limit)
    && (w.issues == 0 <==> w.otp.None?) && (w.otp.None? ==> w.total == 0 && w.misses == multiset{})
  }

  lemma NextKeepsCount(w: World, a: Action, limit: nat, past: nat)
    requires Counted(w, limit, past) && Allowed(w, a, limit)
    ensures Next(w, a).issues == w.issues ==> Counted(Next(w, a), limit, past)
    ensures Next(w, a).issues != w.issues ==>
              Next(w, a).issues == w.issues + 1 && Counted(Next(w, a), limit, if w.issues == 0 then past else past + limit)
  {
  }

  /** What the codes before the current one can have taken, at `limit` each. */
  function Spent(issues: nat, limit: nat): nat {
    if issues <= 1 then 0 else Spent(issues - 1, limit) + limit
  }

  lemma Product(k: nat, x: nat)
    ensures x * (k + 1) == x * k + x
  {
  }

  lemma {:induction false} SpentIsProduct(issues: nat, limit: nat)
    requires issues > 0
    ensures Spent(issues, limit) + limit == limit * issues
    decreases issues
  {
    Product(issues - 1, limit);
    if issues > 1 { SpentIsProduct(issues - 1, limit); }
  }

  lemma {:induction false} RunKeepsCount(w: World, actions: seq<Action>, limit: nat)
    requires Counted(w, limit, Spent(w.issues, limit)) && AllAllowed(w, actions, limit)
    ensures Counted(Run(w, actions), limit, Spent(Run(w, actions).issues, limit))
    decreases |actions|
  {
    if actions != [] {
      var v := Next(w, actions[0]);
      NextKeepsCount(w, actions[0], limit, Spent(w.issues, limit));
      assert Counted(v, limit, Spent(v.issues, limit));
      RunKeepsCount(v, actions[1..], limit);
    }
  }

  lemma CountedBound(w: World, limit: nat)
    requires Counted(w, limit, Spent(w.issues, limit))
    ensures Attempts(w) <= limit && w.total <= limit * w.issues
  {
    if w.issues > 0 { SpentIsProduct(w.issues, limit); }
  }

  /** Overlap of `width` costs at most `width` misses more than four. */
  lemma {:induction false} NarrowAllows(w: World, actions: seq<Action>, width: nat)
    requires Narrow(w, actions, width)
    ensures AllAllowed(w, actions, 4 + width)
    decreases |actions|
  {
    if actions != [] {
      assert |Next(w, actions[0]).misses| <= width;
      NarrowAllows(Next(w, actions[0]), actions[1..], width);
    }
  }

  /** With at most `width` failing verifications overlapping, each code takes at most 4 + `width` misses. */
  lemma MissBound(actions: seq<Action>, width: nat)
    requires Narrow(EnRoute(), actions, width)
    ensures Attempts(Run(EnRoute(), actions)) <= 4 + width
    ensures Run(EnRoute(), actions).total <= (4 + width) * Run(EnRoute(), actions).issues
  {
    NarrowAllows(EnRoute(), actions, width);
    RunKeepsCount(EnRoute(), actions, 4 + width);
    CountedBound(Run(EnRoute(), actions), 4 + width);
  }

  function AtLeastZero(x: int): nat { if x < 0 then 0 else x }

  /** While no second code has been issued, alerts lag two misses behind. */
  ghost predicate AlertInv(w: World) {
    w.issues <= 1 ==>
      && w.total == Attempts(w) && w.alerts <= AtLeastZero(w.total - 2)
      && (forall seen :: seen in w.misses ==> seen <= Attempts(w))
      && (w.otp.None? <==> w.issues == 0) && (w.otp.None? ==> w.misses == multiset{})
  }

  lemma CheckKeepsAlerts(w: World, guess: string, now: int)
    requires AlertInv(w)
    ensures AlertInv(Next(w, CheckOtp(guess, now)))
  {
  }

  lemma RecordKeepsAlerts(w: World, seen: nat)
    requires AlertInv(w)
    ensures AlertInv(Next(w, RecordMiss(seen)))
  {
    var v := Next(w, RecordMiss(seen));
    if w.issues <= 1 && seen in w.misses {
      assert seen <= Attempts(w) && Attempts(v) == Attempts(w) + 1;
      forall s | s in v.misses ensures s <= Attempts(v) { assert s in w.misses; }
    }
  }

  lemma NextKeepsAlerts(w: World, a: Action)
    requires AlertInv(w)
    ensures AlertInv(Next(w, a)) && w.issues <= Next(w, a).issues
  {
    match a
    case CheckOtp(guess, now) => CheckKeepsAlerts(w, guess, now);
    case RecordMiss(seen) => RecordKeepsAlerts(w, seen);
    case _ =>
  }

  lemma {:induction false} RunKeepsAlerts(w: World, actions: seq<Action>)
    requires AlertInv(w)
    ensures AlertInv(Run(w, actions))
    decreases |actions|
  {
    if actions != [] {
      NextKeepsAlerts(w, actions[0]);
      RunKeepsAlerts(Next(w, actions[0]), actions[1..]);
    }
  }

  ghost predicate IssueInv(w: World) {
    if w.status.DRIVER_EN_ROUTE? then w.issues == 0 && w.issuing == 0 else w.arriving + w.issuing + w.issues <= 1
  }

  lemma {:induction false} RunKeepsIssues(w: World, actions: seq<Action>)
    requires IssueInv(w) && OneArrival(w, actions)
    ensures IssueInv(Run(w, actions))
    decreases |actions|
  {
    if actions != [] {
      var v := Next(w, actions[0]);
      assert IssueInv(v);
      RunKeepsIssues(v, actions[1..]);
    }
  }

  /** Undisturbed by each other, failing verifications meet the guard of the alerts. */
  lemma {:induction false} NarrowAllowsAlerts(w: World, actions: seq<Action>)
    requires AlertInv(w) && IssueInv(w) && Narrow(w, actions, 1) && OneArrival(w, actions)
    ensures AllAlertsAllowed(w, actions, 3)
    decreases |actions|
  {
    if actions != [] {
      var v := Next(w, actions[0]);
      assert |v.misses| <= 1;
      if Misses(w, actions[0]) { assert w.misses == multiset{}; }
      NextKeepsAlerts(w, actions[0]);
      assert IssueInv(v);
      NarrowAllowsAlerts(v, actions[1..]);
    }
  }

  /** When arrivals do not overlap and neither do failing verifications, both guards are met, at 5 and at 3, and one trip
      sees at most 5 misses and 3 alerts. */
  lemma FiveMissesThreeAlerts(actions: seq<Action>)
    requires Narrow(EnRoute(), actions, 1) && OneArrival(EnRoute(), actions)
    ensures AllAllowed(EnRoute(), actions, 5) && AllAlertsAllowed(EnRoute(), actions, 3)
    ensures Run(EnRoute(), actions).total <= 5 && Run(EnRoute(), actions).alerts <= 3
  {
    NarrowAllows(EnRoute(), actions, 1);
    NarrowAllowsAlerts(EnRoute(), actions);
    RunWithinExactly(EnRoute(), actions, 5);
    RunAlertsExactly(EnRoute(), actions, 3);
    RunKeepsAlerts(EnRoute(), actions);
    RunKeepsIssues(EnRoute(), actions);
  }

  /** The trip is under way only if some verification hit: a correct, unexpired code on a row with fewer than five misses. */
  ghost predicate HitSeen(w: World, actions: seq<Action>)
    decreases |actions|
  {
    actions != [] &&
    (var a := actions[0];
     (a.CheckOtp? && w.readers > 0 && Judge(w.otp, a.guess, a.now).Hit?) || HitSeen(Next(w, a), actions[1..]))
  }

  lemma {:induction false} StartNeedsHit(w: World, actions: seq<Action>)
    requires !w.status.IN_PROGRESS? && w.hits == 0 && Run(w, actions).status.IN_PROGRESS?
    ensures HitSeen(w, actions)
    decreases |actions|
  {
    var a := actions[0];
    if !(a.CheckOtp? && w.readers > 0 && Judge(w.otp, a.guess, a.now).Hit?) {
      StartNeedsHit(Next(w, a), actions[1..]);
    }
  }

  // ---- The bounds are met ----

  function Repeat(a: Action, n: nat): seq<Action> { if n == 0 then [] else [a] + Repeat(a, n - 1) }

  lemma {:induction false} RunConcat(w: World, a: seq<Action>, b: seq<Action>)
    ensures Run(w, a + b) == Run(Run(w, a), b)
    decreases |a|
  {
    if a == [] {
      assert [] + b == b;
    } else {
      assert (a + b)[1..] == a[1..] + b;
      RunConcat(Next(w, a[0]), a[1..], b);
    }
  }

  lemma {:induction false} NarrowConcat(w: World, a: seq<Action>, b: seq<Action>, width: nat)
    requires Narrow(w, a, width) && Narrow(Run(w, a), b, width)
    ensures Narrow(w, a + b, width)
    decreases |a|
  {
    if a == [] {
      assert [] + b == b;
    } else {
      assert (a + b)[1..] == a[1..] + b;
      NarrowConcat(Next(w, a[0]), a[1..], b, width);
    }
  }

  function Copies(seen: nat, n: nat): (m: multiset<nat>)
    ensures |m| == n && (n > 0 ==> seen in m)
  {
    if n == 0 then multiset{} else Copies(seen, n - 1) + multiset{seen}
  }

  /** A trip waiting for its code with `k` misses recorded and `n` more decided on one look that saw `seen`. */
  function Waiting(code: string, expiresAt: int, k: nat, readers: nat, seen: nat, n: nat, alerts: nat): World {
    World(OTP_PENDING, Some(Otp(code, expiresAt, k, None)), 0, 0, readers, Copies(seen, n), 0, 1, k, alerts)
  }

  /** The run reaches `v` with never more than `width` failing verifications half-way. */
  predicate Leads(w: World, actions: seq<Action>, v: World, width: nat) { Run(w, actions) == v && Narrow(w, actions, width) }

  lemma LeadsConcat(w: World, a: seq<Action>, v: World, b: seq<Action>, u: World, width: nat)
    requires Leads(w, a, v, width) && Leads(v, b, u, width)
    ensures Leads(w, a + b, u, width)
  {
    RunConcat(w, a, b);
    NarrowConcat(w, a, b, width);
  }

  lemma LeadsStep(w: World, a: Action, rest: seq<Action>, v: World, width: nat)
    requires |w.misses| <= width && Leads(Next(w, a), rest, v, width)
    ensures Leads(w, [a] + rest, v, width)
  {
    assert ([a] + rest)[1..] == rest;
  }

  lemma {:induction false} ManyRead(code: string, expiresAt: int, k: nat, readers: nat, alerts: nat, n: nat, width: nat)
    ensures Leads(Waiting(code, expiresAt, k, readers, k, 0, alerts), Repeat(StartVerify, n),
                  Waiting(code, expiresAt, k, readers + n, k, 0, alerts), width)
    decreases n
  {
    if n > 0 {
      ManyRead(code, expiresAt, k, readers + 1, alerts, n - 1, width);
      LeadsStep(Waiting(code, expiresAt, k, readers, k, 0, alerts), StartVerify, Repeat(StartVerify, n - 1),
                Waiting(code, expiresAt, k, readers + n, k, 0, alerts), width);
    }
  }

  lemma CheckOne(code: string, expiresAt: int, k: nat, m: nat, alerts: nat, n: nat, guess: string, now: int)
    requires n > 0 && k < MAX_ATTEMPTS && guess != code && now <= expiresAt
    ensures Next(Waiting(code, expiresAt, k, n, k, m, alerts), CheckOtp(guess, now)) == Waiting(code, expiresAt, k, n - 1, k, m + 1, alerts)
  {
  }

  lemma {:induction false} ManyMiss(code: string, expiresAt: int, k: nat, m: nat, alerts: nat, n: nat, guess: string, now: int, width: nat)
    requires k < MAX_ATTEMPTS && guess != code && now <= expiresAt && m + n <= width
    ensures Leads(Waiting(code, expiresAt, k, n, k, m, alerts), Repeat(CheckOtp(guess, now), n),
                  Waiting(code, expiresAt, k, 0, k, m + n, alerts), width)
    decreases n
  {
    if n > 0 {
      CheckOne(code, expiresAt, k, m, alerts, n, guess, now);
      ManyMiss(code, expiresAt, k, m + 1, alerts, n - 1, guess, now, width);
      LeadsStep(Waiting(code, expiresAt, k, n, k, m, alerts), CheckOtp(guess, now), Repeat(CheckOtp(guess, now), n - 1),
                Waiting(code, expiresAt, k, 0, k, m + n, alerts), width);
    }
  }

  /** The alerts after `n` misses that all saw `seen`. */
  function Alerted(alerts: nat, seen: nat, n: nat): nat { if seen + 1 >= ALERT_FROM then alerts + n else alerts }

  lemma RecordOne(code: string, expiresAt: int, k: nat, seen: nat, alerts: nat, n: nat)
    requires n > 0
    ensures Next(Waiting(code, expiresAt, k, 0, seen, n, alerts), RecordMiss(seen))
         == Waiting(code, expiresAt, k + 1, 0, seen, n - 1, Alerted(alerts, seen, 1))
  {
    assert Copies(seen, n) - multiset{seen} == Copies(seen, n - 1);
  }

  lemma {:induction false} ManyRecord(code: string, expiresAt: int, k: nat, seen: nat, alerts: nat, n: nat, width: nat)
    requires n <= width
    ensures Leads(Waiting(code, expiresAt, k, 0, seen, n, alerts), Repeat(RecordMiss(seen), n),
                  Waiting(code, expiresAt, k + n, 0, seen, 0, Alerted(alerts, seen, n)), width)
    decreases n
  {
    if n > 0 {
      RecordOne(code, expiresAt, k, seen, alerts, n);
      ManyRecord(code, expiresAt, k + 1, seen, Alerted(alerts, seen, 1), n - 1, width);
      LeadsStep(Waiting(code, expiresAt, k, 0, seen, n, alerts), RecordMiss(seen), Repeat(RecordMiss(seen), n - 1),
                Waiting(code, expiresAt, k + n, 0, seen, 0, Alerted(alerts, seen, n)), width);
    }
  }

  /** `n` verifications with a wrong code that all see `k` misses before any of them records its own. */
  function Wave(k: nat, n: nat, guess: string, now: int): seq<Action> {
    Repeat(StartVerify, n) + (Repeat(CheckOtp(guess, now), n) + Repeat(RecordMiss(k), n))
  }

  /** They add all their misses, however many they are: the limit of five counts only what is recorded. */
  lemma OverlapAddsAll(code: string, expiresAt: int, k: nat, alerts: nat, n: nat, guess: string, now: int, width: nat)
    requires k < MAX_ATTEMPTS && guess != code && now <= expiresAt && n <= width
    ensures Leads(Waiting(code, expiresAt, k, 0, k, 0, alerts), Wave(k, n, guess, now),
                  Waiting(code, expiresAt, k + n, 0, k + n, 0, Alerted(alerts, k, n)), width)
  {
    var w0, w1 := Waiting(code, expiresAt, k, 0, k, 0, alerts), Waiting(code, expiresAt, k, n, k, 0, alerts);
    var w2, w3 := Waiting(code, expiresAt, k, 0, k, n, alerts), Waiting(code, expiresAt, k + n, 0, k, 0, Alerted(alerts, k, n));
    ManyRead(code, expiresAt, k, 0, alerts, n, width);
    ManyMiss(code, expiresAt, k, 0, alerts, n, guess, now, width);
    ManyRecord(code, expiresAt, k, k, alerts, n, width);
    LeadsConcat(w1, Repeat(CheckOtp(guess, now), n), w2, Repeat(RecordMiss(k), n), w3, width);
    LeadsConcat(w0, Repeat(StartVerify, n), w1, Repeat(CheckOtp(guess, now), n) + Repeat(RecordMiss(k), n), w3, width);
  }

  function Arrival(code: string, now: int): seq<Action> { [StartArrive] + ([WriteArrived] + ([IssueOtp(code, now)] + [])) }

  lemma IssuedFromArrival(code: string, now: int, width: nat)
    ensures Leads(EnRoute(), Arrival(code, now), Waiting(code, now + OTP_LIFE, 0, 0, 0, 0, 0), width)
  {
    var end := Waiting(code, now + OTP_LIFE, 0, 0, 0, 0, 0);
    var w1 := Next(EnRoute(), StartArrive);
    var w2 := Next(w1, WriteArrived);
    LeadsStep(w2, IssueOtp(code, now), [], end, width);
    LeadsStep(w1, WriteArrived, [IssueOtp(code, now)] + [], end, width);
    LeadsStep(EnRoute(), StartArrive, [WriteArrived] + ([IssueOtp(code, now)] + []), end, width);
  }

  /** From the driver's way to the pickup, for every `n`: a run that records `n` misses on the one code issued. */
  lemma AnyNumberOfMisses(code: string, n: nat, guess: string, now: int)
    requires guess != code
    ensures
      var w := Run(EnRoute(), Arrival(code, now) + Wave(0, n, guess, now));
      w.total == Attempts(w) == n && w.issues == 1
  {
    var w0 := Waiting(code, now + OTP_LIFE, 0, 0, 0, 0, 0);
    IssuedFromArrival(code, now, n);
    OverlapAddsAll(code, now + OTP_LIFE, 0, 0, n, guess, now, n);
    LeadsConcat(EnRoute(), Arrival(code, now), w0, Wave(0, n, guess, now), Waiting(code, now + OTP_LIFE, n, 0, n, 0, Alerted(0, 0, n)), n);
  }

  /** `k` wrong guesses one after another. */
  function OneByOne(k: nat, guess: string, now: int): seq<Action> {
    if k == 0 then [] else OneByOne(k - 1, guess, now) + Wave(k - 1, 1, guess, now)
  }

  lemma {:induction false} OneByOneLeads(code: string, expiresAt: int, k: nat, guess: string, now: int, width: nat) returns (alerts: nat)
    requires k < MAX_ATTEMPTS && guess != code && now <= expiresAt && width >= 1
    ensures Leads(Waiting(code, expiresAt, 0, 0, 0, 0, 0), OneByOne(k, guess, now), Waiting(code, expiresAt, k, 0, k, 0, alerts), width)
  {
    alerts := 0;
    if k > 0 {
      var before := OneByOneLeads(code, expiresAt, k - 1, guess, now, width);
      OverlapAddsAll(code, expiresAt, k - 1, before, 1, guess, now, width);
      alerts := Alerted(before, k - 1, 1);
      LeadsConcat(Waiting(code, expiresAt, 0, 0, 0, 0, 0), OneByOne(k - 1, guess, now), Waiting(code, expiresAt, k - 1, 0, k - 1, 0, before),
                  Wave(k - 1, 1, guess, now), Waiting(code, expiresAt, k, 0, k, 0, alerts), width);
    }
  }

  /** And for every width the bound 4 + `width` is reached by a run that never exceeds the width: four guesses one after
      another, then `width` at once. */
  lemma MissBoundIsMet(code: string, width: nat, guess: string, now: int)
    requires guess != code && width >= 1
    ensures
      var actions := Arrival(code, now) + (OneByOne(4, guess, now) + Wave(4, width, guess, now));
      && Narrow(EnRoute(), actions, width) && Attempts(Run(EnRoute(), actions)) == 4 + width && Run(EnRoute(), actions).issues == 1
  {
    var end := now + OTP_LIFE;
    IssuedFromArrival(code, now, width);
    var alerts := OneByOneLeads(code, end, 4, guess, now, width);
    OverlapAddsAll(code, end, 4, alerts, width, guess, now, width);
    var w0, w4 := Waiting(code, end, 0, 0, 0, 0, 0), Waiting(code, end, 4, 0, 4, 0, alerts);
    var w := Waiting(code, end, 4 + width, 0, 4 + width, 0, Alerted(alerts, 4, width));
    LeadsConcat(w0, OneByOne(4, guess, now), w4, Wave(4, width, guess, now), w, width);
    LeadsConcat(EnRoute(), Arrival(code, now), w0, OneByOne(4, guess, now) + Wave(4, width, guess, now), w, width);
  }
}
