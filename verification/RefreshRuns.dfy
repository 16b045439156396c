/** Logins, refreshes and logouts interleaved between any two awaits: a refresh reads its row, issues a new one and then
    replaces the old one, a reused token or a logout of all sessions is looked up before the sweep, and any call may stop
    half-way (services/auth/src/auth/auth.service.ts). */
module RefreshRuns {
  import opened Common
  import opened RefreshTokens

  /** What happened to one user's tokens. `late` counts the new rows whose old one was not revoked for them, and `ended`
      the rows revoked by logouts and sweeps. */
  datatype Tally = Tally(logins: nat, late: nat, ended: nat)

  /** `reading` holds the rows read by refreshes that have not issued yet, `replacing` maps each issued row to the one it
      is about to replace, `sweeping` the users about to be swept; `tally` is history. */
  datatype World = World(tokens: seq<Token>, reading: multiset<nat>, replacing: map<nat, nat>, sweeping: multiset<string>,
                         tally: map<string, Tally>)

  function Empty(): World { World([], multiset{}, map[], multiset{}, map[]) }

  datatype Action =
    | Login(user: string, secret: string, expiresAt: int)
    | Read(presented: string, now: int)
    | Issuing(id: nat, fresh_: string, expiry: int)
    | Replacing(new_: nat, at: int)
    | ReadLogoutAll(presented: string)
    | LogoutOne(presented: string, at: int)
    | Sweep(who: string, at: int)
    | AbortRead(id: nat)
    | AbortIssue(new_: nat)
    | AbortSweep(who: string)

  function TallyOf(tally: map<string, Tally>, user: string): Tally { if user in tally then tally[user] else Tally(0, 0, 0) }

  function Without(m: map<nat, nat>, k: nat): map<nat, nat> { map i | i in m && i != k :: m[i] }

  function Late(tally: map<string, Tally>, user: string): map<string, Tally> {
    tally[user := TallyOf(tally, user).(late := TallyOf(tally, user).late + 1)]
  }

  function Ended(tally: map<string, Tally>, user: string, n: nat): map<string, Tally> {
    tally[user := TallyOf(tally, user).(ended := TallyOf(tally, user).ended + n)]
  }

  function LoggedIn(w: World, user: string, secret: string, expiresAt: int): World {
    w.(tokens := Issue(w.tokens, user, secret, expiresAt),
       tally := w.tally[user := TallyOf(w.tally, user).(logins := TallyOf(w.tally, user).logins + 1)])
  }

  function DidRead(w: World, presented: string, now: int): World {
    match Judge(w.tokens, presented, now)
    case Rotated => w.(reading := w.reading + multiset{Find(w.tokens, presented).value})
    case Reused => w.(sweeping := w.sweeping + multiset{w.tokens[Find(w.tokens, presented).value].user})
    case _ => w
  }

  function DidIssue(w: World, id: nat, fresh_: string, expiry: int): World
    requires id < |w.tokens|
  {
    w.(tokens := Issue(w.tokens, w.tokens[id].user, fresh_, expiry), reading := w.reading - multiset{id},
       replacing := w.replacing[|w.tokens| := id])
  }

  function DidReplace(w: World, new_: nat, now: int): World
    requires new_ in w.replacing && w.replacing[new_] < |w.tokens|
  {
    var id := w.replacing[new_];
    w.(tokens := Replace(w.tokens, id, new_, now), replacing := Without(w.replacing, new_),
       tally := if w.tokens[id].revokedAt.Some? then Late(w.tally, w.tokens[id].user) else w.tally)
  }

  function DidLogout(w: World, id: nat, now: int): World
    requires id < |w.tokens|
  {
    w.(tokens := w.tokens[id := Revoke(w.tokens[id], now)],
       tally := if w.tokens[id].revokedAt.None? then Ended(w.tally, w.tokens[id].user, 1) else w.tally)
  }

  function DidSweep(w: World, user: string, now: int): World {
    w.(tokens := RevokeUser(w.tokens, user, now), sweeping := w.sweeping - multiset{user},
       tally := Ended(w.tally, user, Active(w.tokens, user, |w.tokens|)))
  }

  function Next(w: World, a: Action): World {
    match a
    case Login(user, secret, expiresAt) => if Find(w.tokens, secret).None? then LoggedIn(w, user, secret, expiresAt) else w
    case Read(presented, now) => DidRead(w, presented, now)
    case Issuing(id, fresh_, expiry) =>
      if id in w.reading && id < |w.tokens| && Find(w.tokens, fresh_).None? then DidIssue(w, id, fresh_, expiry) else w
    case Replacing(new_, at) =>
      if new_ in w.replacing && w.replacing[new_] < |w.tokens| then DidReplace(w, new_, at) else w
    case ReadLogoutAll(presented) =>
      var found := Find(w.tokens, presented);
      if found.None? then w else w.(sweeping := w.sweeping + multiset{w.tokens[found.value].user})
    case LogoutOne(presented, at) =>
      var found := Find(w.tokens, presented);
      if found.None? then w else DidLogout(w, found.value, at)
    case Sweep(who, at) => if who in w.sweeping then DidSweep(w, who, at) else w
    case AbortRead(id) => w.(reading := w.reading - multiset{id})
    case AbortIssue(new_) =>
      if new_ in w.replacing && new_ < |w.tokens| then
        w.(replacing := Without(w.replacing, new_), tally := Late(w.tally, w.tokens[new_].user))
      else w
    case AbortSweep(who) => w.(sweeping := w.sweeping - multiset{who})
  }

  function Run(w: World, actions: seq<Action>): World
    decreases |actions|
  {
    if actions == [] then w else Run(Next(w, actions[0]), actions[1..])
  }

  lemma RotationIsItsSteps(w: World, id: nat, fresh_: string, expiry: int, now: int)
    requires id in w.reading && id < |w.tokens| && Find(w.tokens, fresh_).None?
    ensures Next(Next(w, Issuing(id, fresh_, expiry)), Replacing(|w.tokens|, now)).tokens
         == Replace(Issue(w.tokens, w.tokens[id].user, fresh_, expiry), id, |w.tokens|, now)
  {
  }

  /** Undisturbed, the steps of a refresh come to the call that `AuthService.Refresh` is proved to make. */
  lemma RefreshIsItsSteps(w: World, presented: string, fresh_: string, expiry: int, now: int)
    requires Find(w.tokens, fresh_).None?
    ensures
      var read := Next(w, Read(presented, now));
      Refreshed(w.tokens, presented, fresh_, expiry, now)
      == match Judge(w.tokens, presented, now)
         case Rotated => Next(Next(read, Issuing(Find(w.tokens, presented).value, fresh_, expiry)), Replacing(|w.tokens|, now)).tokens
         case Reused => Next(read, Sweep(w.tokens[Find(w.tokens, presented).value].user, now)).tokens
         case _ => read.tokens
  {
    if Judge(w.tokens, presented, now).Rotated? {
      RotationIsItsSteps(DidRead(w, presented, now), Find(w.tokens, presented).value, fresh_, expiry, now);
    }
  }

  /** No call leaves anything behind in memory when it is over: not a refresh, nor one that stops before its issue. */
  lemma RotationLeavesNothing(w: World, id: nat, fresh_: string, expiry: int, now: int)
    requires id < |w.tokens| && |w.tokens| !in w.replacing && Find(w.tokens, fresh_).None?
    ensures
      var read := w.(reading := w.reading + multiset{id});
      var v := Next(Next(read, Issuing(id, fresh_, expiry)), Replacing(|w.tokens|, now));
      v.reading == w.reading && v.replacing == w.replacing && v.sweeping == w.sweeping && Next(read, AbortRead(id)) == w
  {
    assert w.reading + multiset{id} - multiset{id} == w.reading;
    assert Without(w.replacing[|w.tokens| := id], |w.tokens|) == w.replacing;
  }

  /** Nor a sweep, nor one that stops before it. */
  lemma SweepLeavesNothing(w: World, user: string, now: int)
    ensures
      var found := w.(sweeping := w.sweeping + multiset{user});
      Next(found, Sweep(user, now)).sweeping == w.sweeping && Next(found, AbortSweep(user)) == w
  {
    assert w.sweeping + multiset{user} - multiset{user} == w.sweeping;
  }

  /** A logout of one token, and of all, comes to `AuthService.Logout`. */
  lemma LogoutIsItsSteps(w: World, presented: string, now: int)
    ensures Next(w, LogoutOne(presented, now)).tokens == LoggedOut(w.tokens, presented, false, now)
    ensures Find(w.tokens, presented).Some? ==>
              Next(Next(w, ReadLogoutAll(presented)), Sweep(w.tokens[Find(w.tokens, presented).value].user, now)).tokens
              == LoggedOut(w.tokens, presented, true, now)
  {
  }

  // ---- Chains, for every interleaving ----

  /** Each issued row waits for its link: it is its user's, newer than the row it replaces, and no link leads to it. */
  ghost predicate Awaited(tokens: seq<Token>, replacing: map<nat, nat>) {
    forall n :: n in replacing ==>
      && replacing[n] < n < |tokens| && tokens[replacing[n]].user == tokens[n].user
      && forall i :: 0 <= i < |tokens| ==> tokens[i].replacedBy != Some(n)
  }

  ghost predicate ChainInv(w: World) {
    Distinct(w.tokens) && Chained(w.tokens) && Awaited(w.tokens, w.replacing) && forall id :: id in w.reading ==> id < |w.tokens|
  }

  /** Rows that change neither user, secret nor link, and are at most revoked. */
  predicate OnlyRevoked(a: seq<Token>, b: seq<Token>) {
    |a| == |b| && forall i :: 0 <= i < |a| ==>
      && b[i].user == a[i].user && b[i].secret == a[i].secret && b[i].replacedBy == a[i].replacedBy
      && (a[i].revokedAt.Some? ==> b[i].revokedAt.Some?)
  }

  lemma RevokingKeepsInv(w: World, after: World)
    requires ChainInv(w) && OnlyRevoked(w.tokens, after.tokens) && after.replacing == w.replacing
    requires forall id :: id in after.reading ==> id in w.reading
    ensures ChainInv(after)
  {
    SameSecrets(w.tokens, after.tokens);
    RevokeKeepsChains(w.tokens, after.tokens);
  }

  lemma IssuingKeepsInv(w: World, user: string, secret: string, expiresAt: int)
    requires ChainInv(w) && Find(w.tokens, secret).None?
    ensures ChainInv(w.(tokens := Issue(w.tokens, user, secret, expiresAt)))
    ensures forall i :: 0 <= i < |w.tokens| + 1 ==> Issue(w.tokens, user, secret, expiresAt)[i].replacedBy != Some(|w.tokens|)
  {
    IssueKeepsDistinct(w.tokens, user, secret, expiresAt);
    IssueKeepsChains(w.tokens, user, secret, expiresAt);
  }

  lemma DidIssueKeepsInv(w: World, id: nat, fresh_: string, expiry: int)
    requires ChainInv(w) && id < |w.tokens| && Find(w.tokens, fresh_).None?
    ensures ChainInv(DidIssue(w, id, fresh_, expiry))
  {
    IssuingKeepsInv(w, w.tokens[id].user, fresh_, expiry);
  }

  lemma DidReplaceKeepsInv(w: World, new_: nat, now: int)
    requires ChainInv(w) && new_ in w.replacing
    ensures ChainInv(DidReplace(w, new_, now))
  {
    var id := w.replacing[new_];
    ReplaceKeepsChains(w.tokens, id, new_, now);
    SameSecrets(w.tokens, Replace(w.tokens, id, new_, now));
  }

  lemma DidReadKeepsInv(w: World, presented: string, now: int)
    requires ChainInv(w)
    ensures ChainInv(DidRead(w, presented, now))
  {
  }

  lemma DidLogoutKeepsInv(w: World, id: nat, now: int)
    requires ChainInv(w) && id < |w.tokens|
    ensures ChainInv(DidLogout(w, id, now))
  {
    RevokingKeepsInv(w, DidLogout(w, id, now));
  }

  lemma DidSweepKeepsInv(w: World, user: string, now: int)
    requires ChainInv(w)
    ensures ChainInv(DidSweep(w, user, now))
  {
    RevokingKeepsInv(w, DidSweep(w, user, now));
  }

  lemma FewerKeepInv(w: World, after: World)
    requires ChainInv(w) && after.tokens == w.tokens && forall id :: id in after.reading ==> id in w.reading
    requires forall n :: n in after.replacing ==> n in w.replacing && after.replacing[n] == w.replacing[n]
    ensures ChainInv(after)
  {
  }

  lemma AbortKeepsInv(w: World, a: Action)
    requires ChainInv(w) && (a.ReadLogoutAll? || a.AbortRead? || a.AbortIssue? || a.AbortSweep?)
    ensures ChainInv(Next(w, a))
  {
    FewerKeepInv(w, Next(w, a));
  }

  lemma NextKeepsInv(w: World, a: Action)
    requires ChainInv(w)
    ensures ChainInv(Next(w, a))
  {
    match a
    case Login(user, secret, expiresAt) => if Find(w.tokens, secret).None? { IssuingKeepsInv(w, user, secret, expiresAt); }
    case Read(presented, now) => DidReadKeepsInv(w, presented, now);
    case Issuing(id, fresh_, expiry) =>
      if id in w.reading && Find(w.tokens, fresh_).None? { DidIssueKeepsInv(w, id, fresh_, expiry); }
    case Replacing(new_, at) => if new_ in w.replacing { DidReplaceKeepsInv(w, new_, at); }
    case LogoutOne(presented, at) =>
      if Find(w.tokens, presented).Some? { DidLogoutKeepsInv(w, Find(w.tokens, presented).value, at); }
    case Sweep(who, at) => DidSweepKeepsInv(w, who, at);
    case _ => AbortKeepsInv(w, a);
  }

  lemma {:induction false} RunKeepsInv(w: World, actions: seq<Action>)
    requires ChainInv(w)
    ensures ChainInv(Run(w, actions))
    decreases |actions|
  {
    if actions != [] {
      NextKeepsInv(w, actions[0]);
      RunKeepsInv(Next(w, actions[0]), actions[1..]);
    }
  }

  /** For every interleaving of logins, refreshes, logouts and aborted calls, the `replaced_by` links form disjoint acyclic
      chains, each of one user, on which every row but the last is revoked: at most one unrevoked token on each. */
  lemma TokenChains(actions: seq<Action>)
    ensures
      var tokens := Run(Empty(), actions).tokens;
      && Chained(tokens)
      && forall i: nat, j: nat :: Reaches(tokens, i, j) && i != j ==>
           && i < |tokens| && j < |tokens|
           && tokens[i].user == tokens[j].user && tokens[i].revokedAt.Some? && !Reaches(tokens, j, i)
           && forall k: nat :: Reaches(tokens, k, j) ==> Reaches(tokens, i, k) || Reaches(tokens, k, i)
  {
    RunKeepsInv(Empty(), actions);
    var tokens := Run(Empty(), actions).tokens;
    forall i: nat, j: nat | Reaches(tokens, i, j) && i != j
      ensures
        && i < |tokens| && j < |tokens|
        && tokens[i].user == tokens[j].user && tokens[i].revokedAt.Some? && !Reaches(tokens, j, i)
        && forall k: nat :: Reaches(tokens, k, j) ==> Reaches(tokens, i, k) || Reaches(tokens, k, i)
    {
      OneChain(tokens, i, j);
    }
  }

  // ---- How many tokens a user holds ----

  /** Rows of `user` among the first `k` that wait to replace another. */
  function Pending(tokens: seq<Token>, replacing: map<nat, nat>, user: string, k: nat): nat
    requires k <= |tokens|
  {
    if k == 0 then 0
    else Pending(tokens, replacing, user, k - 1) + (if k - 1 in replacing && tokens[k - 1].user == user then 1 else 0)
  }

  function ActiveOf(w: World, user: string): nat { Active(w.tokens, user, |w.tokens|) }
  function PendingOf(w: World, user: string): nat { Pending(w.tokens, w.replacing, user, |w.tokens|) }

  lemma {:induction false} PendingAgrees(a: seq<Token>, b: seq<Token>, r: map<nat, nat>, s: map<nat, nat>, user: string, k: nat)
    requires k <= |a| && k <= |b| && forall i: nat :: i < k ==> b[i].user == a[i].user && (i in r <==> i in s)
    ensures Pending(a, r, user, k) == Pending(b, s, user, k)
  {
    if k > 0 { PendingAgrees(a, b, r, s, user, k - 1); }
  }

  lemma {:induction false} PendingWithout(tokens: seq<Token>, r: map<nat, nat>, user: string, n: nat, k: nat)
    requires n < k <= |tokens| && n in r
    ensures Pending(tokens, Without(r, n), user, k) + (if tokens[n].user == user then 1 else 0) == Pending(tokens, r, user, k)
  {
    if n == k - 1 {
      PendingAgrees(tokens, tokens, r, Without(r, n), user, k - 1);
    } else {
      PendingWithout(tokens, r, user, n, k - 1);
    }
  }

  /** The account of one user: every unrevoked token is a login's, one that waits to replace another, or a late one, less
      those that logouts and sweeps have ended. */
  ghost predicate Balanced(w: World, user: string) {
    var t := TallyOf(w.tally, user);
    ActiveOf(w, user) + t.ended == t.logins + PendingOf(w, user) + t.late
  }

  lemma IssueBalance(w: World, owner: string, secret: string, expiresAt: int, user: string)
    requires ChainInv(w)
    ensures
      var tokens := Issue(w.tokens, owner, secret, expiresAt);
      && Active(tokens, user, |tokens|) == ActiveOf(w, user) + (if owner == user then 1 else 0)
      && Pending(tokens, w.replacing, user, |w.tokens|) == PendingOf(w, user) && |w.tokens| !in w.replacing
  {
    IssueCounts(w.tokens, owner, secret, expiresAt, user);
    PendingAgrees(w.tokens, Issue(w.tokens, owner, secret, expiresAt), w.replacing, w.replacing, user, |w.tokens|);
  }

  lemma DidIssueBalance(w: World, id: nat, fresh_: string, expiry: int, user: string)
    requires ChainInv(w) && Balanced(w, user) && id < |w.tokens|
    ensures Balanced(DidIssue(w, id, fresh_, expiry), user)
  {
    IssueBalance(w, w.tokens[id].user, fresh_, expiry, user);
    var v := DidIssue(w, id, fresh_, expiry);
    PendingAgrees(v.tokens, v.tokens, w.replacing, v.replacing, user, |w.tokens|);
  }

  lemma LoginBalance(w: World, owner: string, secret: string, expiresAt: int, user: string)
    requires ChainInv(w) && Balanced(w, user)
    ensures Balanced(LoggedIn(w, owner, secret, expiresAt), user)
  {
    IssueBalance(w, owner, secret, expiresAt, user);
  }

  lemma ReplaceBalance(w: World, new_: nat, now: int, user: string)
    requires ChainInv(w) && Balanced(w, user) && new_ in w.replacing
    ensures Balanced(DidReplace(w, new_, now), user)
  {
    var id := w.replacing[new_];
    ReplaceCounts(w.tokens, id, new_, now, user);
    PendingWithout(w.tokens, w.replacing, user, new_, |w.tokens|);
    var v := DidReplace(w, new_, now);
    PendingAgrees(w.tokens, v.tokens, v.replacing, v.replacing, user, |w.tokens|);
  }

  lemma LogoutBalance(w: World, id: nat, now: int, user: string)
    requires Balanced(w, user) && id < |w.tokens|
    ensures Balanced(DidLogout(w, id, now), user)
  {
    LogoutCounts(w.tokens, id, now, user);
    PendingAgrees(w.tokens, DidLogout(w, id, now).tokens, w.replacing, w.replacing, user, |w.tokens|);
  }

  lemma SweepBalance(w: World, who: string, now: int, user: string)
    requires Balanced(w, user)
    ensures Balanced(DidSweep(w, who, now), user)
  {
    SweepCounts(w.tokens, who, now, user);
    PendingAgrees(w.tokens, DidSweep(w, who, now).tokens, w.replacing, w.replacing, user, |w.tokens|);
  }

  lemma AbortBalance(w: World, new_: nat, user: string)
    requires Balanced(w, user) && new_ in w.replacing && new_ < |w.tokens|
    ensures Balanced(Next(w, AbortIssue(new_)), user)
  {
    PendingWithout(w.tokens, w.replacing, user, new_, |w.tokens|);
  }

  lemma NextBalances(w: World, a: Action, user: string)
    requires ChainInv(w) && Balanced(w, user)
    ensures Balanced(Next(w, a), user)
  {
    match a
    case Login(owner, secret, expiresAt) => if Find(w.tokens, secret).None? { LoginBalance(w, owner, secret, expiresAt, user); }
    case Issuing(id, fresh_, expiry) => if id < |w.tokens| { DidIssueBalance(w, id, fresh_, expiry, user); }
    case Replacing(new_, at) => if new_ in w.replacing { ReplaceBalance(w, new_, at, user); }
    case LogoutOne(presented, at) =>
      if Find(w.tokens, presented).Some? { LogoutBalance(w, Find(w.tokens, presented).value, at, user); }
    case Sweep(who, at) => SweepBalance(w, who, at, user);
    case AbortIssue(new_) => if new_ in w.replacing { AbortBalance(w, new_, user); }
    case _ =>
  }

  lemma {:induction false} RunBalances(w: World, actions: seq<Action>, user: string)
    requires ChainInv(w) && Balanced(w, user)
    ensures Balanced(Run(w, actions), user)
    decreases |actions|
  {
    if actions != [] {
      NextBalances(w, actions[0], user);
      NextKeepsInv(w, actions[0]);
      RunBalances(Next(w, actions[0]), actions[1..], user);
    }
  }

  /** For every interleaving, a user's unrevoked tokens are exactly the logins, the issues not yet replaced and the late
      ones, less the tokens that logouts and sweeps have ended. */
  lemma TokenBalance(actions: seq<Action>, user: string)
    ensures
      var w := Run(Empty(), actions);
      var t := TallyOf(w.tally, user);
      ActiveOf(w, user) == t.logins + PendingOf(w, user) + t.late - t.ended
  {
    RunBalances(Empty(), actions, user);
  }

  /** The law: no more unrevoked tokens than logins and refreshes half-way. */
  predicate WithinLogins(w: World, user: string) { ActiveOf(w, user) <= TallyOf(w.tally, user).logins + PendingOf(w, user) }

  /** A step that leaves an issued row without revoking one for it: its old row was revoked already, or the call stops. */
  predicate LandsLate(w: World, a: Action, user: string) {
    match a
    case Replacing(n, _) =>
      n in w.replacing && w.replacing[n] < |w.tokens| && w.tokens[w.replacing[n]].user == user && w.tokens[w.replacing[n]].revokedAt.Some?
    case AbortIssue(n) => n in w.replacing && n < |w.tokens| && w.tokens[n].user == user
    case _ => false
  }

  /** A late step finds more of the user's tokens ended than were late before it. */
  predicate Made(w: World, a: Action, user: string) {
    LandsLate(w, a, user) ==> TallyOf(w.tally, user).late < TallyOf(w.tally, user).ended
  }

  predicate WithinThroughout(w: World, actions: seq<Action>, user: string)
    decreases |actions|
  {
    WithinLogins(w, user) && (actions != [] ==> WithinThroughout(Next(w, actions[0]), actions[1..], user))
  }

  predicate AllMade(w: World, actions: seq<Action>, user: string)
    decreases |actions|
  {
    actions != [] ==> Made(w, actions[0], user) && AllMade(Next(w, actions[0]), actions[1..], user)
  }

  lemma TallyMoves(w: World, a: Action, user: string)
    ensures TallyOf(Next(w, a).tally, user).late == TallyOf(w.tally, user).late + (if LandsLate(w, a, user) then 1 else 0)
    ensures TallyOf(Next(w, a).tally, user).ended >= TallyOf(w.tally, user).ended
    ensures LandsLate(w, a, user) ==> TallyOf(Next(w, a).tally, user).ended == TallyOf(w.tally, user).ended
  {
  }

  lemma {:induction false} RunWithinExactly(w: World, actions: seq<Action>, user: string)
    requires ChainInv(w) && Balanced(w, user) && WithinLogins(w, user)
    ensures WithinThroughout(w, actions, user) <==> AllMade(w, actions, user)
    decreases |actions|
  {
    if actions != [] {
      var v := Next(w, actions[0]);
      NextBalances(w, actions[0], user);
      NextKeepsInv(w, actions[0]);
      TallyMoves(w, actions[0], user);
      assert WithinLogins(v, user) <==> Made(w, actions[0], user);
      if WithinLogins(v, user) { RunWithinExactly(v, actions[1..], user); }
    }
  }

  /** Exactly when a user never holds more unrevoked tokens than logins and half-way refreshes: when every replacement of
      an already revoked row, and every refresh abandoned after its issue, is made up for by a token ended before. */
  lemma ActiveAtMostLogins(actions: seq<Action>, user: string)
    ensures WithinThroughout(Empty(), actions, user) <==> AllMade(Empty(), actions, user)
  {
    RunWithinExactly(Empty(), actions, user);
  }

  predicate NeverLate(w: World, actions: seq<Action>, user: string)
    decreases |actions|
  {
    actions != [] ==> !LandsLate(w, actions[0], user) && NeverLate(Next(w, actions[0]), actions[1..], user)
  }

  predicate NoEnding(actions: seq<Action>) { forall k :: 0 <= k < |actions| ==> !actions[k].LogoutOne? && !actions[k].Sweep? }

  lemma {:induction false} MadeMeansNever(w: World, actions: seq<Action>, user: string)
    requires TallyOf(w.tally, user).ended == 0 && NoEnding(actions)
    ensures AllMade(w, actions, user) <==> NeverLate(w, actions, user)
    decreases |actions|
  {
    if actions != [] { MadeMeansNever(Next(w, actions[0]), actions[1..], user); }
  }

  /** As long as nothing is logged out or swept, exactly when no replacement finds its row revoked and no refresh stops
      after its issue. */
  lemma BoundWithoutEndings(actions: seq<Action>, user: string)
    requires NoEnding(actions)
    ensures WithinThroughout(Empty(), actions, user) <==> NeverLate(Empty(), actions, user)
  {
    ActiveAtMostLogins(actions, user);
    MadeMeansNever(Empty(), actions, user);
  }

  // ---- When a sweep is final ----

  ghost predicate NobodyReads(w: World, user: string) {
    forall id :: id in w.reading && id < |w.tokens| ==> w.tokens[id].user != user
  }

  predicate NoLogin(actions: seq<Action>, user: string) {
    forall k :: 0 <= k < |actions| ==> !(actions[k].Login? && actions[k].user == user)
  }

  ghost predicate NoneLive(tokens: seq<Token>, user: string) {
    forall i :: 0 <= i < |tokens| ==> !(tokens[i].user == user && tokens[i].revokedAt.None?)
  }

  /** No unrevoked token of the user, and no refresh that could still issue one. */
  ghost predicate Out(w: World, user: string) { NobodyReads(w, user) && NoneLive(w.tokens, user) }

  lemma RevokingStaysOut(w: World, after: World, user: string)
    requires Out(w, user) && OnlyRevoked(w.tokens, after.tokens) && forall id :: id in after.reading ==> id in w.reading
    ensures Out(after, user)
  {
    forall i | 0 <= i < |after.tokens| ensures !(after.tokens[i].user == user && after.tokens[i].revokedAt.None?) {
      assert !(w.tokens[i].user == user && w.tokens[i].revokedAt.None?);
    }
  }

  lemma IssuingStaysOut(w: World, after: World, owner: string, secret: string, expiresAt: int, user: string)
    requires Out(w, user) && owner != user && forall id :: id in w.reading ==> id < |w.tokens|
    requires after.tokens == Issue(w.tokens, owner, secret, expiresAt) && forall id :: id in after.reading ==> id in w.reading
    ensures Out(after, user)
  {
    forall id | id in after.reading && id < |after.tokens| ensures after.tokens[id].user != user {
      assert id in w.reading && after.tokens[id] == w.tokens[id];
    }
    forall i | 0 <= i < |after.tokens| ensures !(after.tokens[i].user == user && after.tokens[i].revokedAt.None?) {
      if i < |w.tokens| { assert after.tokens[i] == w.tokens[i]; }
    }
  }

  lemma DidReplaceStaysOut(w: World, new_: nat, now: int, user: string)
    requires Out(w, user) && new_ in w.replacing && w.replacing[new_] < |w.tokens|
    ensures Out(DidReplace(w, new_, now), user)
  {
  }

  lemma DidReadStaysOut(w: World, presented: string, now: int, user: string)
    requires Out(w, user)
    ensures Out(DidRead(w, presented, now), user)
  {
    var found := Find(w.tokens, presented);
    if found.Some? { assert !(w.tokens[found.value].user == user && w.tokens[found.value].revokedAt.None?); }
  }

  lemma IssueStepStaysOut(w: World, a: Action, user: string)
    requires ChainInv(w) && Out(w, user) && ((a.Login? && a.user != user) || a.Issuing?)
    ensures Out(Next(w, a), user)
  {
    if a.Login? {
      if Find(w.tokens, a.secret).None? { IssuingStaysOut(w, Next(w, a), a.user, a.secret, a.expiresAt, user); }
    } else if a.id in w.reading && a.id < |w.tokens| && Find(w.tokens, a.fresh_).None? {
      IssuingStaysOut(w, DidIssue(w, a.id, a.fresh_, a.expiry), w.tokens[a.id].user, a.fresh_, a.expiry, user);
    }
  }

  lemma RevokeStepStaysOut(w: World, a: Action, user: string)
    requires Out(w, user) && (a.LogoutOne? || a.Sweep?)
    ensures Out(Next(w, a), user)
  {
    RevokingStaysOut(w, Next(w, a), user);
  }

  lemma AbortStaysOut(w: World, a: Action, user: string)
    requires Out(w, user) && (a.ReadLogoutAll? || a.AbortRead? || a.AbortIssue? || a.AbortSweep?)
    ensures Out(Next(w, a), user)
  {
    RevokingStaysOut(w, Next(w, a), user);
  }

  lemma StaysOut(w: World, a: Action, user: string)
    requires ChainInv(w) && Out(w, user) && !(a.Login? && a.user == user)
    ensures Out(Next(w, a), user)
  {
    match a
    case Login(_, _, _) => IssueStepStaysOut(w, a, user);
    case Issuing(_, _, _) => IssueStepStaysOut(w, a, user);
    case Read(presented, now) => DidReadStaysOut(w, presented, now, user);
    case Replacing(new_, at) =>
      if new_ in w.replacing && w.replacing[new_] < |w.tokens| { DidReplaceStaysOut(w, new_, at, user); }
    case LogoutOne(_, _) => RevokeStepStaysOut(w, a, user);
    case Sweep(_, _) => RevokeStepStaysOut(w, a, user);
    case _ => AbortStaysOut(w, a, user);
  }

  lemma {:induction false} RunStaysOut(w: World, actions: seq<Action>, user: string)
    requires ChainInv(w) && Out(w, user) && NoLogin(actions, user)
    ensures ActiveOf(Run(w, actions), user) == 0
    decreases |actions|
  {
    if actions == [] {
      NoneActive(w.tokens, user, |w.tokens|);
    } else {
      StaysOut(w, actions[0], user);
      NextKeepsInv(w, actions[0]);
      RunStaysOut(Next(w, actions[0]), actions[1..], user);
    }
  }

  function Longest(tokens: seq<Token>, k: nat): (n: nat)
    requires k <= |tokens|
    ensures forall i :: 0 <= i < k ==> |tokens[i].secret| <= n
  {
    if k == 0 then 0
    else if |tokens[k - 1].secret| > Longest(tokens, k - 1) then |tokens[k - 1].secret| else Longest(tokens, k - 1)
  }

  /** A secret not yet drawn. */
  function Unused(tokens: seq<Token>): (s: string)
    ensures Find(tokens, s).None?
  {
    seq(Longest(tokens, |tokens|) + 1, _ => 'a')
  }

  lemma ReaderIssues(w: World, id: nat, user: string) returns (after: seq<Action>)
    requires id in w.reading && id < |w.tokens| && w.tokens[id].user == user
    ensures NoLogin(after, user) && ActiveOf(Run(w, after), user) > 0
  {
    var a := Issuing(id, Unused(w.tokens), 0);
    after := [a];
    assert after[1..] == [];
    IssueCounts(w.tokens, user, Unused(w.tokens), 0, user);
    assert Run(w, after) == Run(Next(w, a), []);
  }

  lemma SweptOut(w: World, user: string, now: int)
    requires NobodyReads(w, user) && user in w.sweeping
    ensures Out(Next(w, Sweep(user, now)), user)
  {
  }

  /** Exactly when a sweep leaves its user without a token until the next login, whatever else happens: when no refresh of
      the user is between its read and its issue. */
  lemma SweepFinalExactly(w: World, user: string, now: int)
    requires ChainInv(w) && user in w.sweeping
    ensures NobodyReads(w, user)
            <==> forall after :: NoLogin(after, user) ==> ActiveOf(Run(Next(w, Sweep(user, now)), after), user) == 0
  {
    var s := Next(w, Sweep(user, now));
    if NobodyReads(w, user) {
      NextKeepsInv(w, Sweep(user, now));
      SweptOut(w, user, now);
      forall after | NoLogin(after, user) ensures ActiveOf(Run(s, after), user) == 0 { RunStaysOut(s, after, user); }
    } else {
      var id: nat :| id in w.reading && id < |w.tokens| && w.tokens[id].user == user;
      var after := ReaderIssues(s, id, user);
    }
  }

  /** Presenting a revoked token and sweeping ends every session of its user until the next login, if no refresh of the
      user is half-way. */
  lemma ReuseEndsSessions(before: seq<Action>, presented: string, now: int, at: int, after: seq<Action>)
    requires
      var w := Run(Empty(), before);
      Judge(w.tokens, presented, now).Reused? && NobodyReads(w, w.tokens[Find(w.tokens, presented).value].user)
      && NoLogin(after, w.tokens[Find(w.tokens, presented).value].user)
    ensures
      var w := Run(Empty(), before);
      var user := w.tokens[Find(w.tokens, presented).value].user;
      ActiveOf(Run(Next(Next(w, Read(presented, now)), Sweep(user, at)), after), user) == 0
  {
    RunKeepsInv(Empty(), before);
    var w := Run(Empty(), before);
    var user := w.tokens[Find(w.tokens, presented).value].user;
    NextKeepsInv(w, Read(presented, now));
    SweepFinalExactly(Next(w, Read(presented, now)), user, at);
  }

  // ---- Two failing runs ----

  lemma RunStep(w: World, a: Action, rest: seq<Action>)
    ensures Run(w, [a] + rest) == Run(Next(w, a), rest)
  {
    assert ([a] + rest)[1..] == rest;
  }

  /** A login, and two refreshes that both read its token. */
  function TwoReads(user: string, s0: string, expiry: int, now: int): seq<Action> {
    [Login(user, s0, expiry)] + ([Read(s0, now)] + ([Read(s0, now)] + []))
  }

  function Fresh(user: string, secret: string, expiry: int): Token { Token(user, secret, expiry, None, None) }

  lemma BothRead(user: string, s0: string, expiry: int, now: int)
    requires now <= expiry
    ensures
      var w := Run(Empty(), TwoReads(user, s0, expiry, now));
      && w.tokens == [Fresh(user, s0, expiry)] && w.reading == multiset{0, 0} && w.replacing == map[] && w.sweeping == multiset{}
      && TallyOf(w.tally, user) == Tally(1, 0, 0)
  {
    var w1 := Next(Empty(), Login(user, s0, expiry));
    assert w1.tokens == [Fresh(user, s0, expiry)];
    assert Find(w1.tokens, s0) == Some(0);
    var w2 := Next(w1, Read(s0, now));
    assert w2 == w1.(reading := multiset{0});
    var w3 := Next(w2, Read(s0, now));
    RunStep(Empty(), Login(user, s0, expiry), [Read(s0, now)] + ([Read(s0, now)] + []));
    RunStep(w1, Read(s0, now), [Read(s0, now)] + []);
    RunStep(w2, Read(s0, now), []);
  }

  lemma Find2(a: Token, b: Token, secret: string)
    ensures Find([a, b], secret) == if a.secret == secret then Some(0) else if b.secret == secret then Some(1) else None
  {
    assert [a, b][..1] == [a] && [a][..0] == [];
  }

  /** Both issue, and both replace: two unrevoked tokens from one login, the first of them linked from nowhere. */
  lemma OverlapSplitsChain(user: string, s0: string, s1: string, s2: string, expiry: int, now: int)
    requires s0 != s1 && s1 != s2 && s0 != s2 && now <= expiry
    ensures
      var w := Run(Empty(), TwoReads(user, s0, expiry, now));
      var issued := Next(Next(w, Issuing(0, s1, expiry)), Issuing(0, s2, expiry));
      var end := Next(Next(issued, Replacing(1, now)), Replacing(2, now));
      && ActiveOf(end, user) == 2 && TallyOf(end.tally, user) == Tally(1, 1, 0) && PendingOf(end, user) == 0
      && !WithinLogins(end, user) && end.tokens[0].replacedBy == Some(2)
  {
    BothRead(user, s0, expiry, now);
    var w := Run(Empty(), TwoReads(user, s0, expiry, now));
    RunBalances(Empty(), TwoReads(user, s0, expiry, now), user);
    RunKeepsInv(Empty(), TwoReads(user, s0, expiry, now));
    OverlapEnds(w, user, s0, s1, s2, expiry, now);
  }

  lemma OverlapIssued(w: World, user: string, s0: string, s1: string, s2: string, expiry: int)
    requires s0 != s1 && s1 != s2 && s0 != s2
    requires w.tokens == [Fresh(user, s0, expiry)] && w.reading == multiset{0, 0} && w.replacing == map[]
    ensures
      var issued := Next(Next(w, Issuing(0, s1, expiry)), Issuing(0, s2, expiry));
      && issued.tokens == [Fresh(user, s0, expiry), Fresh(user, s1, expiry), Fresh(user, s2, expiry)]
      && issued.replacing == map[1 := 0, 2 := 0] && issued.tally == w.tally
  {
    var one := Next(w, Issuing(0, s1, expiry));
    assert one.tokens == [Fresh(user, s0, expiry), Fresh(user, s1, expiry)] && 0 in one.reading;
    Find2(Fresh(user, s0, expiry), Fresh(user, s1, expiry), s2);
    var two := Next(one, Issuing(0, s2, expiry));
    assert two.tokens == [Fresh(user, s0, expiry), Fresh(user, s1, expiry), Fresh(user, s2, expiry)];
  }

  lemma OverlapReplaced(w: World, t0: Token, t1: Token, t2: Token, now: int)
    requires w.tokens == [t0, t1, t2] && w.replacing == map[1 := 0, 2 := 0] && t0.revokedAt.None?
    ensures
      var end := Next(Next(w, Replacing(1, now)), Replacing(2, now));
      && end.tokens == [t0.(revokedAt := Some(now), replacedBy := Some(2)), t1, t2] && end.replacing == map[]
      && end.tally == Late(w.tally, t0.user)
  {
    var one := Next(w, Replacing(1, now));
    assert one.tokens == [t0.(revokedAt := Some(now), replacedBy := Some(1)), t1, t2] && one.replacing == map[2 := 0] && one.tally == w.tally;
  }

  lemma ThreeRows(a: Token, b: Token, c: Token, user: string)
    requires a.revokedAt.Some? && b.user == c.user == user && b.revokedAt.None? && c.revokedAt.None?
    ensures Active([a, b, c], user, 3) == 2 && Pending([a, b, c], map[], user, 3) == 0
  {
    var tokens := [a, b, c];
    assert Active(tokens, user, 0) == 0 && Active(tokens, user, 1) == 0;
    assert Active(tokens, user, 2) == 1;
    assert Pending(tokens, map[], user, 1) == 0;
    assert Pending(tokens, map[], user, 2) == 0;
  }

  lemma OverlapEnds(w: World, user: string, s0: string, s1: string, s2: string, expiry: int, now: int)
    requires s0 != s1 && s1 != s2 && s0 != s2
    requires w.tokens == [Fresh(user, s0, expiry)] && w.reading == multiset{0, 0} && w.replacing == map[]
    requires TallyOf(w.tally, user) == Tally(1, 0, 0)
    ensures
      var issued := Next(Next(w, Issuing(0, s1, expiry)), Issuing(0, s2, expiry));
      var end := Next(Next(issued, Replacing(1, now)), Replacing(2, now));
      && ActiveOf(end, user) == 2 && TallyOf(end.tally, user) == Tally(1, 1, 0) && PendingOf(end, user) == 0
      && end.tokens[0].replacedBy == Some(2)
  {
    OverlapIssued(w, user, s0, s1, s2, expiry);
    var issued := Next(Next(w, Issuing(0, s1, expiry)), Issuing(0, s2, expiry));
    OverlapReplaced(issued, Fresh(user, s0, expiry), Fresh(user, s1, expiry), Fresh(user, s2, expiry), now);
    var end := Next(Next(issued, Replacing(1, now)), Replacing(2, now));
    ThreeRows(end.tokens[0], end.tokens[1], end.tokens[2], user);
  }

  lemma OneRotated(w: World, user: string, s0: string, s1: string, expiry: int, now: int)
    requires s0 != s1 && w.tokens == [Fresh(user, s0, expiry)] && w.reading == multiset{0, 0} && w.replacing == map[]
    ensures
      var rotated := Next(Next(w, Issuing(0, s1, expiry)), Replacing(1, now));
      && rotated.tokens == [Fresh(user, s0, expiry).(revokedAt := Some(now), replacedBy := Some(1)), Fresh(user, s1, expiry)]
      && rotated.reading == multiset{0}
  {
    var one := Next(w, Issuing(0, s1, expiry));
    assert one.tokens == [Fresh(user, s0, expiry), Fresh(user, s1, expiry)] && one.replacing == map[1 := 0] && one.reading == multiset{0};
  }

  /** One of the two issues and replaces, the old token is presented again and the sweep runs, then the other issues: the
      user whose token was reused holds a live one. */
  lemma IssueOutlivesSweep(user: string, s0: string, s1: string, s2: string, expiry: int, now: int)
    requires s0 != s1 && s1 != s2 && s0 != s2 && now <= expiry
    ensures
      var w := Run(Empty(), TwoReads(user, s0, expiry, now));
      var rotated := Next(Next(w, Issuing(0, s1, expiry)), Replacing(1, now));
      var swept := Next(Next(rotated, Read(s0, now)), Sweep(user, now));
      && Judge(rotated.tokens, s0, now).Reused? && ActiveOf(swept, user) == 0
      && ActiveOf(Next(swept, Issuing(0, s2, expiry)), user) == 1
  {
    BothRead(user, s0, expiry, now);
    var w := Run(Empty(), TwoReads(user, s0, expiry, now));
    OneRotated(w, user, s0, s1, expiry, now);
    var rotated := Next(Next(w, Issuing(0, s1, expiry)), Replacing(1, now));
    Find2(rotated.tokens[0], rotated.tokens[1], s0);
    SweptThenIssued(rotated, rotated.tokens[0], rotated.tokens[1], user, s2, expiry, now);
  }

  lemma SweptThenIssued(w: World, t0: Token, t1: Token, user: string, s2: string, expiry: int, now: int)
    requires w.tokens == [t0, t1] && t0.user == t1.user == user && t0.revokedAt.Some? && 0 in w.reading
    requires t0.secret != s2 && t1.secret != s2 && t0.secret != t1.secret
    ensures
      var swept := Next(Next(w, Read(t0.secret, now)), Sweep(user, now));
      ActiveOf(swept, user) == 0 && ActiveOf(Next(swept, Issuing(0, s2, expiry)), user) == 1
  {
    Find2(t0, t1, t0.secret);
    var read := Next(w, Read(t0.secret, now));
    assert read == w.(sweeping := w.sweeping + multiset{user});
    SweepCounts(w.tokens, user, now, user);
    var swept := Next(read, Sweep(user, now));
    assert swept.tokens == [Revoke(t0, now), Revoke(t1, now)];
    Find2(Revoke(t0, now), Revoke(t1, now), s2);
    IssueCounts(swept.tokens, user, s2, expiry, user);
  }
}
