/** Fraud signals, risk scores, holds and cases (services/ride/src/fraud/fraud.service.ts). Rows are kept in creation order,
    so a row's index is its id; an empty user or pair key counts as none. */
module FraudSignals {
  import opened Common

  type User = string

  datatype Kind =
    | REPEATED_PAIR_TRIPS | HIGH_VELOCITY_TRIPS | HIGH_VELOCITY_PAYMENTS | SHARED_IP_MULTIPLE_USERS | SHARED_DEVICE_FINGERPRINT
    | MULTIPLE_ACCOUNTS_SAME_DRIVER | EXCESSIVE_REFUNDS | REFUND_VELOCITY_HIGH | REFUND_RATIO_HIGH | PAYMENT_REJECT_RATE_HIGH
    | SUSPICIOUS_ROUTE_PATTERN | MANUAL_REVIEW_TRIGGER | RISK_DECAY

  datatype Severity = LOW | MEDIUM | HIGH | CRITICAL

  datatype Signal = Signal(user: Option<User>, kind: Kind, severity: Severity, delta: int, at: int, pairKey: Option<string>, occurrences: nat)

  datatype Risk = Risk(score: int, level: Severity)

  datatype Hold = Hold(user: User, kind: HoldKind, active: bool, startsAt: int, endsAt: Option<int>)

  datatype HoldKind = FEATURE_LIMIT | PAYOUT_HOLD | ACCOUNT_BLOCK

  datatype CaseStatus = OPEN | IN_REVIEW | RESOLVED | DISMISSED

  datatype Case = Case(user: Option<User>, severity: Severity, status: CaseStatus, createdAt: int, lastSignalAt: int,
                       pairKey: Option<string>, links: set<nat>)

  datatype Input = Input(user: Option<User>, kind: Kind, severity: Severity, delta: int, pairKey: Option<string>)

  const HOUR := 3600000
  const DAY := 86400000
  const PAGE := 20

  function RiskLevel(score: int): Severity {
    if score >= 80 then CRITICAL else if score >= 50 then HIGH else if score >= 20 then MEDIUM else LOW
  }

  function Order(s: Severity): nat { match s case CRITICAL => 4 case HIGH => 3 case MEDIUM => 2 case LOW => 1 }

  function Clamp(x: int): (r: int)
    ensures 0 <= r <= 100 && (0 <= x <= 100 ==> r == x) && (x < 0 ==> r == 0) && (x > 100 ==> r == 100)
  {
    if x < 0 then 0 else if x > 100 then 100 else x
  }

  predicate Indices(rows: seq<nat>, n: nat) { forall k :: 0 <= k < |rows| ==> rows[k] < n }

  // ---- Deduplication ----

  /** What the similar-signal query filters on: without a user it matches every user's signals. */
  predicate Similar(user: Option<User>, kind: Kind, s: Signal) { s.kind == kind && (user.Some? ==> s.user == user) }

  /** A possible answer of that query: at most 20 distinct rows, and a matching row that is missing means a full page of
      rows no older than it. Rows of one millisecond may come in any order. */
  ghost predicate LatestSimilar(signals: seq<Signal>, user: Option<User>, kind: Kind, since: int, rows: seq<nat>) {
    && |rows| <= PAGE && Indices(rows, |signals|)
    && (forall k :: 0 <= k < |rows| ==> Similar(user, kind, signals[rows[k]]) && signals[rows[k]].at >= since)
    && (forall i, j :: 0 <= i < j < |rows| ==> rows[i] != rows[j] && signals[rows[i]].at >= signals[rows[j]].at)
    && (forall i: nat | i < |signals| && Similar(user, kind, signals[i]) && signals[i].at >= since && i !in rows ::
          |rows| == PAGE && forall k :: 0 <= k < |rows| ==> signals[rows[k]].at >= signals[i].at)
  }

  /** Every row of the answer is of that type and, if a user is given, of that user, and not older than `since`; of the other
      such rows none is left out unless twenty rows at least as new are returned, and they come newest first. */
  lemma SimilarAnswer(signals: seq<Signal>, user: Option<User>, kind: Kind, since: int, rows: seq<nat>)
    requires LatestSimilar(signals, user, kind, since, rows)
    ensures
      && |rows| <= 20
      && (forall k :: 0 <= k < |rows| ==>
            && rows[k] < |signals| && signals[rows[k]].kind == kind && signals[rows[k]].at >= since
            && (user == None || signals[rows[k]].user == user))
      && (forall j, k :: 0 <= j < k < |rows| ==> rows[j] != rows[k] && signals[rows[j]].at >= signals[rows[k]].at)
      && (forall i: nat :: i < |signals| && i !in rows && signals[i].kind == kind && signals[i].at >= since
                           && (user == None || signals[i].user == user) ==>
            |rows| == 20 && forall k :: 0 <= k < |rows| ==> signals[rows[k]].at >= signals[i].at)
  {
  }

  /** And every list like that is an answer. */
  lemma AnswersSimilar(signals: seq<Signal>, user: Option<User>, kind: Kind, since: int, rows: seq<nat>)
    requires |rows| <= 20
    requires forall k :: 0 <= k < |rows| ==>
               && rows[k] < |signals| && signals[rows[k]].kind == kind && signals[rows[k]].at >= since
               && (user == None || signals[rows[k]].user == user)
    requires forall j, k :: 0 <= j < k < |rows| ==> rows[j] != rows[k] && signals[rows[j]].at >= signals[rows[k]].at
    requires forall i: nat :: i < |signals| && i !in rows && signals[i].kind == kind && signals[i].at >= since
                              && (user == None || signals[i].user == user) ==>
               |rows| == 20 && forall k :: 0 <= k < |rows| ==> signals[rows[k]].at >= signals[i].at
    ensures LatestSimilar(signals, user, kind, since, rows)
  {
  }

  /** The row an input repeats: the newest, or with a pair key the first on the page that carries it. */
  function Existing(signals: seq<Signal>, rows: seq<nat>, pairKey: Option<string>): (r: Option<nat>)
    requires Indices(rows, |signals|)
    ensures r.Some? ==> r.value in rows && r.value < |signals| && (pairKey.Some? ==> signals[r.value].pairKey == pairKey)
    ensures r.None? ==> if pairKey.None? then rows == [] else forall k :: 0 <= k < |rows| ==> signals[rows[k]].pairKey != pairKey
  {
    if rows == [] then None
    else if pairKey.None? || signals[rows[0]].pairKey == pairKey then Some(rows[0])
    else Existing(signals, rows[1..], pairKey)
  }

  /** Without a pair key that is the newest row of the answer, with one the newest that carries it. */
  lemma {:induction false} ExistingMeans(signals: seq<Signal>, rows: seq<nat>, pairKey: Option<string>, k: nat)
    requires Indices(rows, |signals|) && k < |rows| && (pairKey == None ==> k == 0)
    requires pairKey.Some? ==> signals[rows[k]].pairKey == pairKey && forall j :: 0 <= j < k ==> signals[rows[j]].pairKey != pairKey
    ensures Existing(signals, rows, pairKey) == Some(rows[k])
  {
    if k > 0 { ExistingMeans(signals, rows[1..], pairKey, k - 1); }
  }

  function NewSignal(input: Input, now: int): Signal {
    Signal(input.user, input.kind, input.severity, input.delta, now, input.pairKey, 1)
  }

  function Recorded(signals: seq<Signal>, input: Input, existing: Option<nat>, now: int): seq<Signal>
    requires existing.Some? ==> existing.value < |signals|
  {
    match existing
    case Some(e) => signals[e := signals[e].(occurrences := signals[e].occurrences + 1)]
    case None => signals + [NewSignal(input, now)]
  }

  // ---- Risk and holds ----

  function RiskOf(risk: map<User, Risk>, user: User): Risk { if user in risk then risk[user] else Risk(0, LOW) }

  function Raised(r: Risk, delta: int): Risk { Risk(Clamp(r.score + delta), RiskLevel(Clamp(r.score + delta))) }

  function Decayed(r: Risk, decay: int): Risk {
    var score := if r.score - decay < 0 then 0 else r.score - decay;
    Risk(score, RiskLevel(score))
  }

  predicate InForce(h: Hold, now: int) { h.active && (h.endsAt.None? || h.endsAt.value > now) }

  function NewHold(user: User, kind: HoldKind, hours: Option<nat>, now: int): Hold {
    Hold(user, kind, true, now, if hours.Some? && hours.value > 0 then Some(now + hours.value * HOUR) else None)
  }

  /** A hold is in force from when it is placed for its hours, or for good without any, unless it is released. */
  lemma HoldLasts(user: User, kind: HoldKind, hours: Option<nat>, at: int, now: int)
    ensures
      var h := NewHold(user, kind, hours, at);
      && h.startsAt == at && h.user == user && h.kind == kind && !InForce(h.(active := false), now)
      && (InForce(h, now) <==> hours == None || hours == Some(0) || now < at + 3600000 * hours.value)
  {
  }

  predicate HasHold(holds: seq<Hold>, user: User, kind: HoldKind, now: int) {
    exists i :: 0 <= i < |holds| && holds[i].user == user && holds[i].kind == kind && InForce(holds[i], now)
  }

  function HeldIfAbsent(holds: seq<Hold>, user: User, kind: HoldKind, hours: Option<nat>, now: int): seq<Hold> {
    if HasHold(holds, user, kind, now) then holds else holds + [NewHold(user, kind, hours, now)]
  }

  lemma HeldIsHeld(holds: seq<Hold>, user: User, kind: HoldKind, hours: Option<nat>, now: int)
    ensures HasHold(HeldIfAbsent(holds, user, kind, hours, now), user, kind, now)
  {
    var after := HeldIfAbsent(holds, user, kind, hours, now);
    if after != holds { assert InForce(after[|holds|], now); }
  }

  function HoldsFor(holds: seq<Hold>, user: User, level: Severity, now: int): seq<Hold> {
    match level
    case HIGH => HeldIfAbsent(holds, user, FEATURE_LIMIT, Some(48), now)
    case CRITICAL => HeldIfAbsent(holds, user, PAYOUT_HOLD, None, now)
    case _ => holds
  }

  // ---- Cases ----

  predicate Attachable(c: Case, user: Option<User>, since: int) {
    (c.status.OPEN? || c.status.IN_REVIEW?) && c.createdAt >= since && (user.Some? ==> c.user == user)
  }

  /** A possible answer of the open-case query. */
  ghost predicate LatestCases(cases: seq<Case>, user: Option<User>, since: int, rows: seq<nat>) {
    && |rows| <= PAGE && Indices(rows, |cases|)
    && (forall k :: 0 <= k < |rows| ==> Attachable(cases[rows[k]], user, since))
    && (forall i, j :: 0 <= i < j < |rows| ==> rows[i] != rows[j] && cases[rows[i]].createdAt >= cases[rows[j]].createdAt)
    && (forall i: nat | i < |cases| && Attachable(cases[i], user, since) && i !in rows ::
          |rows| == PAGE && forall k :: 0 <= k < |rows| ==> cases[rows[k]].createdAt >= cases[i].createdAt)
  }

  /** Likewise for the cases: open or in review, not older than `since`, of the user if one is given, newest first. */
  lemma CasesAnswer(cases: seq<Case>, user: Option<User>, since: int, rows: seq<nat>)
    ensures LatestCases(cases, user, since, rows) <==>
      && |rows| <= 20
      && (forall k :: 0 <= k < |rows| ==>
            && rows[k] < |cases| && cases[rows[k]].createdAt >= since && (user == None || cases[rows[k]].user == user)
            && (cases[rows[k]].status == OPEN || cases[rows[k]].status == IN_REVIEW))
      && (forall j, k :: 0 <= j < k < |rows| ==> rows[j] != rows[k] && cases[rows[j]].createdAt >= cases[rows[k]].createdAt)
      && (forall i: nat :: i < |cases| && i !in rows && cases[i].createdAt >= since && (user == None || cases[i].user == user)
                           && (cases[i].status == OPEN || cases[i].status == IN_REVIEW) ==>
            |rows| == 20 && forall k :: 0 <= k < |rows| ==> cases[rows[k]].createdAt >= cases[i].createdAt)
  {
  }

  function WithPairKey(cases: seq<Case>, rows: seq<nat>, pairKey: Option<string>): (r: Option<nat>)
    requires Indices(rows, |cases|)
    ensures r.Some? ==> r.value in rows && r.value < |cases| && cases[r.value].pairKey == pairKey
    ensures r.None? ==> forall k :: 0 <= k < |rows| ==> cases[rows[k]].pairKey != pairKey
  {
    if rows == [] then None
    else if cases[rows[0]].pairKey == pairKey then Some(rows[0])
    else WithPairKey(cases, rows[1..], pairKey)
  }

  /** The case with the same pair key if there is one, otherwise the newest. */
  function Chosen(cases: seq<Case>, rows: seq<nat>, pairKey: Option<string>): (r: Option<nat>)
    requires Indices(rows, |cases|)
    ensures r.Some? ==> r.value in rows && r.value < |cases|
    ensures r.None? <==> rows == []
  {
    if pairKey.Some? && WithPairKey(cases, rows, pairKey).Some? then WithPairKey(cases, rows, pairKey)
    else if rows == [] then None else Some(rows[0])
  }

  /** Row `k` is the first on the page with the pair key. */
  predicate FirstWith(cases: seq<Case>, rows: seq<nat>, pairKey: Option<string>, k: nat)
    requires Indices(rows, |cases|)
  {
    k < |rows| && cases[rows[k]].pairKey == pairKey && forall j :: 0 <= j < k ==> cases[rows[j]].pairKey != pairKey
  }

  lemma {:induction false} WithPairKeyMeans(cases: seq<Case>, rows: seq<nat>, pairKey: Option<string>, k: nat)
    requires Indices(rows, |cases|) && FirstWith(cases, rows, pairKey, k)
    ensures WithPairKey(cases, rows, pairKey) == Some(rows[k])
  {
    if k > 0 { WithPairKeyMeans(cases, rows[1..], pairKey, k - 1); }
  }

  /** Which open case a signal joins: the newest with its pair key, or else, and without a pair key, the newest. */
  lemma ChosenMeans(cases: seq<Case>, rows: seq<nat>, pairKey: Option<string>)
    requires Indices(rows, |cases|)
    ensures rows == [] ==> Chosen(cases, rows, pairKey) == None
    ensures forall k: nat :: pairKey.Some? && FirstWith(cases, rows, pairKey, k) ==> Chosen(cases, rows, pairKey) == Some(rows[k])
    ensures rows != [] && (pairKey.None? || forall k :: 0 <= k < |rows| ==> cases[rows[k]].pairKey != pairKey) ==>
              Chosen(cases, rows, pairKey) == Some(rows[0])
  {
    forall k: nat | pairKey.Some? && FirstWith(cases, rows, pairKey, k) ensures Chosen(cases, rows, pairKey) == Some(rows[k]) {
      WithPairKeyMeans(cases, rows, pairKey, k);
    }
  }

  function Attached(c: Case, id: nat, s: Signal): Case {
    c.(severity := if Order(s.severity) > Order(c.severity) then s.severity else c.severity, lastSignalAt := s.at, links := c.links + {id})
  }

  function NewCase(id: nat, s: Signal, now: int): Case {
    Case(s.user, s.severity, OPEN, now, s.at, if s.user.Some? then s.pairKey else None, {id})
  }

  function Filed(cases: seq<Case>, id: nat, s: Signal, chosen: Option<nat>, now: int): seq<Case>
    requires chosen.Some? ==> chosen.value < |cases|
  {
    match chosen
    case Some(c) => cases[c := Attached(cases[c], id, s)]
    case None => cases + [NewCase(id, s, now)]
  }

  // ---- The service ----

  class FraudService {
    var signals: seq<Signal>
    var risk: map<User, Risk>
    var holds: seq<Hold>
    var cases: seq<Case>

    constructor ()
      ensures signals == [] && risk == map[] && holds == [] && cases == []
    {
      signals, risk, holds, cases := [], map[], [], [];
    }

    method CreateHoldIfAbsent(user: User, kind: HoldKind, hours: Option<nat>, now: int)
      modifies this`holds
      ensures holds == HeldIfAbsent(old(holds), user, kind, hours, now)
    {
      var i := 0;
      while i < |holds|
        invariant 0 <= i <= |holds|
        invariant forall k :: 0 <= k < i ==> !(holds[k].user == user && holds[k].kind == kind && InForce(holds[k], now))
      {
        if holds[i].user == user && holds[i].kind == kind && InForce(holds[i], now) { return; }
        i := i + 1;
      }
      var endsAt := if hours.Some? && hours.value > 0 then Some(now + hours.value * 3600 * 1000) else None;
      holds := holds + [Hold(user, kind, true, now, endsAt)];
    }

    method CreateOrAttachCase(id: nat, rows: seq<nat>, now: int)
      requires id < |signals| && LatestCases(cases, signals[id].user, now - 86400000, rows)
      modifies this`cases
      ensures cases == Filed(old(cases), id, signals[id], Chosen(old(cases), rows, signals[id].pairKey), now)
      ensures Chosen(old(cases), rows, signals[id].pairKey).Some? ==>
                var c := Chosen(old(cases), rows, signals[id].pairKey).value;
                var was, s, worst := old(cases)[c].severity, signals[id].severity, cases[c].severity;
                worst == if was == CRITICAL || s == CRITICAL then CRITICAL else if was == HIGH || s == HIGH then HIGH
                       else if was == MEDIUM || s == MEDIUM then MEDIUM else LOW
    {
      var s := signals[id];
      var existing := Chosen(cases, rows, s.pairKey);
      if existing.None? {
        cases := cases + [Case(s.user, s.severity, OPEN, now, s.at, if s.user.Some? then s.pairKey else None, {id})];
        return;
      }
      var c := existing.value;
      var severity := if Order(s.severity) > Order(cases[c].severity) then s.severity else cases[c].severity;
      cases := cases[c := cases[c].(severity := severity, lastSignalAt := s.at)];
      cases := cases[c := cases[c].(links := cases[c].links + {id})];
    }

    method RaiseRisk(user: User, delta: int, now: int)
      modifies this`risk, this`holds
      ensures
        var r := Raised(RiskOf(old(risk), user), delta);
        risk == old(risk)[user := r] && holds == HoldsFor(old(holds), user, r.level, now)
      ensures
        var was := if user in old(risk) then old(risk)[user].score else 0;
        var score := if was + delta < 0 then 0 else if was + delta > 100 then 100 else was + delta;
        && risk == old(risk)[user := Risk(score, if score >= 80 then CRITICAL else if score >= 50 then HIGH else if score >= 20 then MEDIUM else LOW)]
        && (score < 50 ==> holds == old(holds))
        && (50 <= score < 80 ==> HasHold(holds, user, FEATURE_LIMIT, now)) && (score >= 80 ==> HasHold(holds, user, PAYOUT_HOLD, now))
    {
      var next := Clamp(RiskOf(risk, user).score + delta);
      risk := risk[user := Risk(next, RiskLevel(next))];
      HeldIsHeld(holds, user, FEATURE_LIMIT, Some(48), now);
      HeldIsHeld(holds, user, PAYOUT_HOLD, None, now);
      if RiskLevel(next).HIGH? { CreateHoldIfAbsent(user, FEATURE_LIMIT, Some(48), now); }
      if RiskLevel(next).CRITICAL? { CreateHoldIfAbsent(user, PAYOUT_HOLD, None, now); }
    }

    /** `rows` and `caseRows` are the answers of the two queries, `minutes` the configured dedupe window. */
    method ApplySignal(input: Input, minutes: nat, rows: seq<nat>, caseRows: seq<nat>, now: int) returns (id: nat)
      requires LatestSimilar(signals, input.user, input.kind, now - minutes * 60000, rows)
      requires
        var existing := Existing(signals, rows, input.pairKey);
        LatestCases(cases, if existing.Some? then signals[existing.value].user else input.user, now - 86400000, caseRows)
      modifies this
      ensures
        var existing := Existing(old(signals), rows, input.pairKey);
        && signals == Recorded(old(signals), input, existing, now) && id == (if existing.Some? then existing.value else |old(signals)|)
        && cases == Filed(old(cases), id, signals[id], Chosen(old(cases), caseRows, signals[id].pairKey), now)
        && (if existing.Some? || input.user.None? then risk == old(risk) && holds == old(holds)
            else
              var r := Raised(RiskOf(old(risk), input.user.value), input.delta);
              risk == old(risk)[input.user.value := r] && holds == HoldsFor(old(holds), input.user.value, r.level, now))
    {
      var existing := Existing(signals, rows, input.pairKey);
      if existing.Some? {
        id := existing.value;
        signals := signals[id := signals[id].(occurrences := signals[id].occurrences + 1)];
        CreateOrAttachCase(id, caseRows, now);
        return;
      }
      id := |signals|;
      signals := signals + [Signal(input.user, input.kind, input.severity, input.delta, now, input.pairKey, 1)];
      if input.user.Some? { RaiseRisk(input.user.value, input.delta, now); }
      CreateOrAttachCase(id, caseRows, now);
    }

    /** `users` are those of the risk rows read, in the order read. */
    method DecayRiskScores(users: seq<User>, decay: int, now: int)
      requires (forall u :: u in users ==> u in risk) && forall i, j :: 0 <= i < j < |users| ==> users[i] != users[j]
      modifies this`signals, this`risk
      ensures (signals, risk) == DecayAll(old(signals), old(risk), users, decay, now)
      ensures |users| == 1 ==>
                users[0] in old(risk) &&
                var u, was := users[0], old(risk)[users[0]];
                if was.score <= 0 || (exists k :: 0 <= k < |old(signals)| && old(signals)[k].user == Some(u)
                                                  && now - old(signals)[k].at <= 2592000000)
                then signals == old(signals) && risk == old(risk)
                else
                  && signals == old(signals) + [Signal(Some(u), RISK_DECAY, LOW, -decay, now, None, 1)]
                  && u in risk && risk == old(risk)[u := risk[u]]
                  && risk[u].score == (if was.score < decay then 0 else was.score - decay) && risk[u].level == RiskLevel(risk[u].score)
    {
      ghost var signals0, risk0 := signals, risk;
      var k := 0;
      while k < |users|
        invariant 0 <= k <= |users| && forall u :: u in users ==> u in risk
        invariant DecayAll(signals0, risk0, users, decay, now) == DecayAll(signals, risk, users[k..], decay, now)
      {
        var user := users[k];
        var found := false;
        var i := 0;
        while i < |signals|
          invariant 0 <= i <= |signals|
          invariant found == exists m :: 0 <= m < i && signals[m].user == Some(user) && signals[m].at >= now - 30 * DAY
        {
          if signals[i].user == Some(user) && signals[i].at >= now - 30 * DAY { found := true; }
          i := i + 1;
        }
        assert found == RecentSignal(signals, user, now);
        assert users[k..][0] == user && users[k..][1..] == users[k + 1..];
        if !found && risk[user].score > 0 {
          risk := risk[user := Decayed(risk[user], decay)];
          signals := signals + [DecaySignal(user, decay, now)];
        }
        k := k + 1;
      }
      assert users[k..] == [];
      if |users| == 1 {
        assert users[1..] == [];
        OneDecay(signals0, risk0, users[0], decay, now);
      }
    }
  }

  lemma OneDecay(signals: seq<Signal>, risk: map<User, Risk>, user: User, decay: int, now: int)
    ensures DecayAll(signals, risk, [user], decay, now) == DecayOne(signals, risk, user, decay, now)
    ensures RecentSignal(signals, user, now)
            <==> exists k :: 0 <= k < |signals| && signals[k].user == Some(user) && now - signals[k].at <= 2592000000
  {
    assert [user][1..] == [];
    if k :| 0 <= k < |signals| && signals[k].user == Some(user) && now - signals[k].at <= 2592000000 {
      assert signals[k].at >= now - 30 * DAY;
    }
  }

  predicate RecentSignal(signals: seq<Signal>, user: User, now: int) {
    exists m :: 0 <= m < |signals| && signals[m].user == Some(user) && signals[m].at >= now - 30 * DAY
  }

  function DecaySignal(user: User, decay: int, now: int): Signal { Signal(Some(user), RISK_DECAY, LOW, -decay, now, None, 1) }

  function DecayOne(signals: seq<Signal>, risk: map<User, Risk>, user: User, decay: int, now: int): (seq<Signal>, map<User, Risk>) {
    if user !in risk || RecentSignal(signals, user, now) || risk[user].score <= 0 then (signals, risk)
    else (signals + [DecaySignal(user, decay, now)], risk[user := Decayed(risk[user], decay)])
  }

  function DecayAll(signals: seq<Signal>, risk: map<User, Risk>, users: seq<User>, decay: int, now: int): (seq<Signal>, map<User, Risk>)
    decreases |users|
  {
    if users == [] then (signals, risk)
    else
      var (signals', risk') := DecayOne(signals, risk, users[0], decay, now);
      DecayAll(signals', risk', users[1..], decay, now)
  }
}
