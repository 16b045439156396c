/** Refreshes of one user that run undisturbed never leave more tokens than logins. */
module RefreshAlone {
  import opened Common
  import opened RefreshTokens
  import opened RefreshRuns

  predicate Reads(w: World, id: nat, user: string) { id in w.reading && id < |w.tokens| && w.tokens[id].user == user }

  predicate Waits(w: World, n: nat, user: string) { n in w.replacing && n < |w.tokens| && w.tokens[n].user == user }

  /** A refresh of the user stands between its read and its replacement. */
  ghost predicate Busy(w: World, user: string) { exists i: nat :: Reads(w, i, user) || Waits(w, i, user) }

  predicate Presents(w: World, presented: string, user: string) {
    Find(w.tokens, presented).Some? && w.tokens[Find(w.tokens, presented).value].user == user
  }

  /** The step reads or revokes a row of the user, or stops a refresh of the user after its issue. */
  predicate Disturbs(w: World, a: Action, user: string) {
    match a
    case Read(presented, _) => Presents(w, presented, user)
    case LogoutOne(presented, _) => Presents(w, presented, user)
    case Sweep(who, _) => who == user
    case AbortIssue(n) => Waits(w, n, user)
    case _ => false
  }

  ghost predicate Lone(w: World, a: Action, user: string) { Busy(w, user) ==> !Disturbs(w, a, user) }

  ghost predicate AllLone(w: World, actions: seq<Action>, user: string)
    decreases |actions|
  {
    actions != [] ==> Lone(w, actions[0], user) && AllLone(Next(w, actions[0]), actions[1..], user)
  }

  /** A reader of the user is the only refresh under way, and its row is unrevoked. */
  ghost predicate ReaderLone(w: World, user: string) {
    forall i: nat :: Reads(w, i, user) ==>
      && w.tokens[i].revokedAt.None? && w.reading[i] == 1
      && (forall j: nat :: Reads(w, j, user) ==> j == i) && (forall n: nat :: !Waits(w, n, user))
  }

  /** So is a refresh that has issued, and the row it will replace. */
  ghost predicate WaiterLone(w: World, user: string) {
    forall n: nat :: Waits(w, n, user) ==>
      && w.replacing[n] < |w.tokens| && w.tokens[w.replacing[n]].revokedAt.None?
      && (forall m: nat :: Waits(w, m, user) ==> m == n)
  }

  ghost predicate OneRefresh(w: World, user: string) { ReaderLone(w, user) && WaiterLone(w, user) }

  /** Steps that start no refresh, and leave the user's rows and refreshes alone or take one away. */
  ghost predicate Leaves(w: World, v: World, user: string) {
    && (forall i: nat :: Reads(v, i, user) ==> Reads(w, i, user) && v.reading[i] <= w.reading[i] && v.tokens[i] == w.tokens[i])
    && (forall n: nat :: Waits(v, n, user) ==>
          Waits(w, n, user) && v.replacing[n] == w.replacing[n]
          && (w.replacing[n] < |w.tokens| ==> w.replacing[n] < |v.tokens| && v.tokens[w.replacing[n]] == w.tokens[w.replacing[n]]))
  }

  lemma LeavesOne(w: World, v: World, user: string)
    requires OneRefresh(w, user) && Leaves(w, v, user)
    ensures OneRefresh(v, user)
  {
  }

  lemma ReadKeepsOne(w: World, presented: string, now: int, user: string)
    requires OneRefresh(w, user) && Lone(w, Read(presented, now), user)
    ensures OneRefresh(Next(w, Read(presented, now)), user)
  {
    if Presents(w, presented, user) {
      assert forall i: nat :: !Reads(w, i, user) && !Waits(w, i, user);
      OwnReadKeepsOne(w, presented, now, user);
    } else {
      OthersReadKeepsOne(w, presented, now, user);
    }
  }

  lemma OwnReadKeepsOne(w: World, presented: string, now: int, user: string)
    requires (forall i: nat :: !Reads(w, i, user) && !Waits(w, i, user)) && Presents(w, presented, user)
    ensures OneRefresh(DidRead(w, presented, now), user)
  {
    var v := DidRead(w, presented, now);
    assert v.tokens == w.tokens && v.replacing == w.replacing;
    forall n: nat ensures !Waits(v, n, user) { assert !Waits(w, n, user); }
    forall i: nat | Reads(v, i, user) ensures i == Find(w.tokens, presented).value && v.reading[i] == 1 && v.tokens[i].revokedAt.None? {
      assert !Reads(w, i, user);
    }
  }

  lemma OthersReadKeepsOne(w: World, presented: string, now: int, user: string)
    requires OneRefresh(w, user) && !Presents(w, presented, user)
    ensures OneRefresh(DidRead(w, presented, now), user)
  {
    var v := DidRead(w, presented, now);
    assert v.tokens == w.tokens && v.replacing == w.replacing;
    forall i: nat | Reads(v, i, user) ensures Reads(w, i, user) && v.reading[i] == w.reading[i] {}
    LeavesOne(w, v, user);
  }

  lemma OwnIssueKeepsOne(w: World, id: nat, fresh_: string, expiry: int, user: string)
    requires OneRefresh(w, user) && ChainInv(w) && Reads(w, id, user)
    ensures OneRefresh(DidIssue(w, id, fresh_, expiry), user)
  {
    var v, n := DidIssue(w, id, fresh_, expiry), |w.tokens|;
    assert forall i :: 0 <= i < |w.tokens| ==> v.tokens[i] == w.tokens[i];
    forall i: nat ensures !Reads(v, i, user) {
      if Reads(v, i, user) && i < |w.tokens| { assert Reads(w, i, user); }
    }
    forall m: nat | Waits(v, m, user) ensures m == n { if m < |w.tokens| { assert Waits(w, m, user); } }
  }

  lemma OthersIssueKeepsOne(w: World, id: nat, fresh_: string, expiry: int, user: string)
    requires OneRefresh(w, user) && ChainInv(w) && id < |w.tokens| && w.tokens[id].user != user
    ensures OneRefresh(DidIssue(w, id, fresh_, expiry), user)
  {
    var v, n := DidIssue(w, id, fresh_, expiry), |w.tokens|;
    assert forall i :: 0 <= i < |w.tokens| ==> v.tokens[i] == w.tokens[i];
    assert v.tokens[n].user != user;
    assert forall i: nat :: Reads(v, i, user) ==> Reads(w, i, user);
    assert forall m: nat :: Waits(v, m, user) ==> m != n && Waits(w, m, user);
    LeavesOne(w, v, user);
  }

  lemma ReplaceKeepsOne(w: World, n: nat, now: int, user: string)
    requires OneRefresh(w, user) && ChainInv(w) && n in w.replacing && w.replacing[n] < |w.tokens|
    ensures OneRefresh(DidReplace(w, n, now), user)
  {
    var v := DidReplace(w, n, now);
    if w.tokens[n].user == user {
      assert Waits(w, n, user);
      forall i: nat ensures !Reads(v, i, user) && !Waits(v, i, user) {
        if Reads(v, i, user) { assert Reads(w, i, user); }
        if Waits(v, i, user) { assert Waits(w, i, user); }
      }
    } else {
      OthersRow(w, v.tokens, w.replacing[n], user);
      LeavesOne(w, v, user);
    }
  }

  /** Only a row of another user has changed. */
  lemma OthersRow(w: World, tokens: seq<Token>, id: nat, user: string)
    requires ChainInv(w) && id < |w.tokens| == |tokens| && w.tokens[id].user != user && tokens[id].user == w.tokens[id].user
    requires forall i :: 0 <= i < |tokens| && i != id ==> tokens[i] == w.tokens[i]
    ensures forall i :: 0 <= i < |tokens| && tokens[i].user == user ==> w.tokens[i].user == user && tokens[i] == w.tokens[i]
    ensures forall n: nat :: Waits(w, n, user) ==> tokens[w.replacing[n]] == w.tokens[w.replacing[n]]
  {
  }

  lemma LogoutKeepsOne(w: World, presented: string, at: int, user: string)
    requires OneRefresh(w, user) && ChainInv(w) && Lone(w, LogoutOne(presented, at), user)
    ensures OneRefresh(Next(w, LogoutOne(presented, at)), user)
  {
    var v, found := Next(w, LogoutOne(presented, at)), Find(w.tokens, presented);
    if found.None? {
    } else if w.tokens[found.value].user == user {
      NobodyBusy(w, v, user);
    } else {
      OthersRow(w, v.tokens, found.value, user);
      LeavesOne(w, v, user);
    }
  }

  lemma NobodyBusy(w: World, v: World, user: string)
    requires !Busy(w, user) && v.reading == w.reading && v.replacing == w.replacing && |v.tokens| == |w.tokens|
    requires forall i :: 0 <= i < |w.tokens| ==> v.tokens[i].user == w.tokens[i].user
    ensures OneRefresh(v, user)
  {
    forall i: nat ensures !Reads(v, i, user) && !Waits(v, i, user) { assert !Reads(w, i, user) && !Waits(w, i, user); }
  }

  lemma SweepKeepsOne(w: World, who: string, at: int, user: string)
    requires OneRefresh(w, user) && ChainInv(w) && Lone(w, Sweep(who, at), user)
    ensures OneRefresh(Next(w, Sweep(who, at)), user)
  {
    if who in w.sweeping {
      var v := DidSweep(w, who, at);
      assert v.tokens == RevokeUser(w.tokens, who, at) && v.reading == w.reading && v.replacing == w.replacing;
      if who == user { NobodyBusy(w, v, user); } else { OthersSwept(w, v, user); }
    }
  }

  /** No row of the user has changed. */
  lemma OthersSwept(w: World, v: World, user: string)
    requires OneRefresh(w, user) && ChainInv(w) && v.reading == w.reading && v.replacing == w.replacing && |v.tokens| == |w.tokens|
    requires forall i :: 0 <= i < |w.tokens| ==> v.tokens[i].user == w.tokens[i].user && (w.tokens[i].user == user ==> v.tokens[i] == w.tokens[i])
    ensures OneRefresh(v, user)
  {
    LeavesOne(w, v, user);
  }

  lemma AbortKeepsOne(w: World, a: Action, user: string)
    requires OneRefresh(w, user) && (a.AbortRead? || a.AbortIssue? || a.AbortSweep? || a.ReadLogoutAll?)
    ensures OneRefresh(Next(w, a), user)
  {
    LeavesOne(w, Next(w, a), user);
  }

  lemma LoginKeepsOne(w: World, who: string, secret: string, expiresAt: int, user: string)
    requires OneRefresh(w, user) && ChainInv(w)
    ensures OneRefresh(Next(w, Login(who, secret, expiresAt)), user)
  {
    LeavesOne(w, Next(w, Login(who, secret, expiresAt)), user);
  }

  lemma NextKeepsOne(w: World, a: Action, user: string)
    requires OneRefresh(w, user) && ChainInv(w) && Lone(w, a, user)
    ensures OneRefresh(Next(w, a), user)
  {
    match a
    case Login(who, secret, expiresAt) => LoginKeepsOne(w, who, secret, expiresAt, user);
    case Read(presented, now) => ReadKeepsOne(w, presented, now, user);
    case Issuing(id, fresh_, expiry) =>
      if id in w.reading && id < |w.tokens| && Find(w.tokens, fresh_).None? {
        if w.tokens[id].user == user { OwnIssueKeepsOne(w, id, fresh_, expiry, user); } else { OthersIssueKeepsOne(w, id, fresh_, expiry, user); }
      }
    case Replacing(n, at) => if n in w.replacing && w.replacing[n] < |w.tokens| { ReplaceKeepsOne(w, n, at, user); }
    case LogoutOne(presented, at) => LogoutKeepsOne(w, presented, at, user);
    case Sweep(who, at) => SweepKeepsOne(w, who, at, user);
    case _ => AbortKeepsOne(w, a, user);
  }

  lemma LoneIsInTime(w: World, a: Action, user: string)
    requires OneRefresh(w, user) && ChainInv(w) && Lone(w, a, user)
    ensures !LandsLate(w, a, user)
  {
    match a
    case Replacing(n, _) => if LandsLate(w, a, user) { assert Waits(w, n, user); }
    case AbortIssue(n) => if LandsLate(w, a, user) { assert Waits(w, n, user); }
    case _ =>
  }

  lemma {:induction false} RunLoneNeverLate(w: World, actions: seq<Action>, user: string)
    requires OneRefresh(w, user) && ChainInv(w) && AllLone(w, actions, user)
    ensures NeverLate(w, actions, user)
    decreases |actions|
  {
    if actions != [] {
      LoneIsInTime(w, actions[0], user);
      NextKeepsOne(w, actions[0], user);
      NextKeepsInv(w, actions[0]);
      RunLoneNeverLate(Next(w, actions[0]), actions[1..], user);
    }
  }

  lemma {:induction false} NeverLateIsMade(w: World, actions: seq<Action>, user: string)
    requires NeverLate(w, actions, user)
    ensures AllMade(w, actions, user)
    decreases |actions|
  {
    if actions != [] { NeverLateIsMade(Next(w, actions[0]), actions[1..], user); }
  }

  /** Runs in which no replacement finds its row revoked and no refresh stops after its issue stay within the logins, with
      logouts and sweeps at any time. */
  lemma NeverLateIsWithin(actions: seq<Action>, user: string)
    requires NeverLate(Empty(), actions, user)
    ensures WithinThroughout(Empty(), actions, user)
  {
    NeverLateIsMade(Empty(), actions, user);
    ActiveAtMostLogins(actions, user);
  }

  /** And so are those in which nobody reads or revokes a row of the user while a refresh of the user is under way, and that
      refresh, once it has issued, goes on to replace; whatever other users do. */
  lemma LoneRefreshesStayWithin(actions: seq<Action>, user: string)
    requires AllLone(Empty(), actions, user)
    ensures NeverLate(Empty(), actions, user) && WithinThroughout(Empty(), actions, user)
  {
    RunLoneNeverLate(Empty(), actions, user);
    NeverLateIsWithin(actions, user);
  }
}
