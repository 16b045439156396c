/** Refresh-token rotation and reuse handling (services/auth/src/auth/auth.service.ts), the scheme of section 10.4 of
    RFC 6749. Rows are kept in creation order, so a row's index is its id; hashing is injective, so a row stands for the
    token itself. */
module RefreshTokens {
  import opened Common

  datatype Token = Token(user: string, secret: string, expiresAt: int, revokedAt: Option<int>, replacedBy: Option<nat>)

  function Find(tokens: seq<Token>, secret: string): (r: Option<nat>)
    ensures r.Some? ==> r.value < |tokens| && tokens[r.value].secret == secret
    ensures r.None? ==> forall i :: 0 <= i < |tokens| ==> tokens[i].secret != secret
  {
    if tokens == [] then None
    else
      var r := Find(tokens[..|tokens| - 1], secret);
      if r.Some? then r else if tokens[|tokens| - 1].secret == secret then Some(|tokens| - 1) else None
  }

  function Revoke(t: Token, now: int): Token { if t.revokedAt.None? then t.(revokedAt := Some(now)) else t }

  function RevokeUser(tokens: seq<Token>, user: string, now: int): (r: seq<Token>)
    ensures |r| == |tokens|
  {
    seq(|tokens|, i requires 0 <= i < |tokens| => if tokens[i].user == user then Revoke(tokens[i], now) else tokens[i])
  }

  function Issue(tokens: seq<Token>, user: string, secret: string, expiresAt: int): seq<Token> {
    tokens + [Token(user, secret, expiresAt, None, None)]
  }

  /** The update that ends a refresh: the old row is revoked and linked to the new one. */
  function Replace(tokens: seq<Token>, old_: nat, new_: nat, now: int): seq<Token>
    requires old_ < |tokens|
  {
    tokens[old_ := tokens[old_].(revokedAt := Some(now), replacedBy := Some(new_))]
  }

  datatype Outcome = Unknown | Reused | Expired | Rotated

  function Judge(tokens: seq<Token>, secret: string, now: int): Outcome {
    var found := Find(tokens, secret);
    if found.None? then Unknown
    else if tokens[found.value].revokedAt.Some? then Reused
    else if tokens[found.value].expiresAt < now then Expired else Rotated
  }

  function Refreshed(tokens: seq<Token>, secret: string, fresh_: string, expiresAt: int, now: int): seq<Token> {
    match Judge(tokens, secret, now)
    case Reused => RevokeUser(tokens, tokens[Find(tokens, secret).value].user, now)
    case Rotated =>
      var id := Find(tokens, secret).value;
      Replace(Issue(tokens, tokens[id].user, fresh_, expiresAt), id, |tokens|, now)
    case _ => tokens
  }

  function LoggedOut(tokens: seq<Token>, secret: string, all: bool, now: int): seq<Token> {
    var found := Find(tokens, secret);
    if found.None? then tokens
    else if all then RevokeUser(tokens, tokens[found.value].user, now)
    else tokens[found.value := Revoke(tokens[found.value], now)]
  }

  class AuthService {
    var tokens: seq<Token>

    constructor ()
      ensures tokens == []
    {
      tokens := [];
    }

    method Login(user: string, secret: string, now: int, ttl: int)
      modifies this
      ensures tokens == Issue(old(tokens), user, secret, now + ttl)
    {
      tokens := tokens + [Token(user, secret, now + ttl, None, None)];
    }

    method RevokeAllOf(user: string, now: int)
      modifies this
      ensures tokens == RevokeUser(old(tokens), user, now)
    {
      var i := 0;
      while i < |tokens|
        invariant 0 <= i <= |tokens| == |old(tokens)|
        invariant forall k :: 0 <= k < |tokens| ==>
                    tokens[k] == if k < i && old(tokens)[k].user == user then Revoke(old(tokens)[k], now) else old(tokens)[k]
      {
        if tokens[i].user == user && tokens[i].revokedAt.None? {
          tokens := tokens[i := tokens[i].(revokedAt := Some(now))];
        }
        i := i + 1;
      }
    }

    method Refresh(secret: string, newSecret: string, now: int, ttl: int) returns (outcome: Outcome)
      modifies this
      ensures outcome == Judge(old(tokens), secret, now)
      ensures tokens == Refreshed(old(tokens), secret, newSecret, now + ttl, now)
    {
      var found := Find(tokens, secret);
      if found.None? { return Unknown; }
      var existing := tokens[found.value];
      if existing.revokedAt.Some? {
        RevokeAllOf(existing.user, now);
        return Reused;
      }
      if existing.expiresAt < now { return Expired; }
      var id := |tokens|;
      tokens := tokens + [Token(existing.user, newSecret, now + ttl, None, None)];
      tokens := tokens[found.value := tokens[found.value].(revokedAt := Some(now), replacedBy := Some(id))];
      return Rotated;
    }

    method Logout(secret: string, all: bool, now: int)
      modifies this
      ensures tokens == LoggedOut(old(tokens), secret, all, now)
    {
      var found := Find(tokens, secret);
      if found.None? { return; }
      if all {
        RevokeAllOf(tokens[found.value].user, now);
      } else if tokens[found.value].revokedAt.None? {
        tokens := tokens[found.value := tokens[found.value].(revokedAt := Some(now))];
      }
    }
  }

  // ---- Chains ----

  /** No secret twice, so that the row a secret is found in is its only one. */
  ghost predicate Distinct(tokens: seq<Token>) {
    forall i, j :: 0 <= i < j < |tokens| ==> tokens[i].secret != tokens[j].secret
  }

  lemma SameSecrets(tokens: seq<Token>, after: seq<Token>)
    requires Distinct(tokens) && |after| == |tokens| && forall i :: 0 <= i < |tokens| ==> after[i].secret == tokens[i].secret
    ensures Distinct(after)
  {
  }

  lemma IssueKeepsDistinct(tokens: seq<Token>, user: string, secret: string, expiresAt: int)
    requires Distinct(tokens) && Find(tokens, secret).None?
    ensures Distinct(Issue(tokens, user, secret, expiresAt))
  {
  }

  /** Links run forward to a row of the same user, from revoked rows only, and never two to the same row. */
  ghost predicate Chained(tokens: seq<Token>) {
    && (forall i :: 0 <= i < |tokens| && tokens[i].replacedBy.Some? ==>
          && i < tokens[i].replacedBy.value < |tokens|
          && tokens[i].revokedAt.Some? && tokens[tokens[i].replacedBy.value].user == tokens[i].user)
    && (forall i, j | 0 <= i < |tokens| && 0 <= j < |tokens| ::
          tokens[i].replacedBy.Some? && tokens[i].replacedBy == tokens[j].replacedBy ==> i == j)
  }

  lemma IssueKeepsChains(tokens: seq<Token>, user: string, secret: string, expiresAt: int)
    requires Chained(tokens)
    ensures Chained(Issue(tokens, user, secret, expiresAt))
  {
  }

  lemma RevokeKeepsChains(tokens: seq<Token>, after: seq<Token>)
    requires Chained(tokens) && |after| == |tokens|
    requires forall i :: 0 <= i < |tokens| ==>
               after[i].user == tokens[i].user && after[i].replacedBy == tokens[i].replacedBy
               && (tokens[i].revokedAt.Some? ==> after[i].revokedAt.Some?)
    ensures Chained(after)
  {
  }

  lemma ReplaceKeepsChains(tokens: seq<Token>, id: nat, new_: nat, now: int)
    requires Chained(tokens) && id < new_ < |tokens| && tokens[id].user == tokens[new_].user
    requires forall i :: 0 <= i < |tokens| ==> tokens[i].replacedBy != Some(new_)
    ensures Chained(Replace(tokens, id, new_, now))
  {
  }

  /** Following the links from `i` leads to `j`. */
  ghost predicate Reaches(tokens: seq<Token>, i: nat, j: nat)
    requires Chained(tokens)
    decreases |tokens| - i
  {
    i < |tokens| && (i == j || (tokens[i].replacedBy.Some? && Reaches(tokens, tokens[i].replacedBy.value, j)))
  }

  lemma {:induction false} ReachesForward(tokens: seq<Token>, i: nat, j: nat)
    requires Chained(tokens) && Reaches(tokens, i, j)
    ensures i <= j < |tokens| && tokens[i].user == tokens[j].user && (i < j ==> tokens[i].revokedAt.Some?)
    decreases |tokens| - i
  {
    if i != j { ReachesForward(tokens, tokens[i].replacedBy.value, j); }
  }

  /** The row before `j` on its chain. */
  lemma {:induction false} Predecessor(tokens: seq<Token>, i: nat, j: nat) returns (p: nat)
    requires Chained(tokens) && Reaches(tokens, i, j) && i != j
    ensures p < j < |tokens| && Reaches(tokens, i, p) && tokens[p].replacedBy == Some(j)
    decreases |tokens| - i
  {
    var n := tokens[i].replacedBy.value;
    if n == j {
      p := i;
    } else {
      p := Predecessor(tokens, n, j);
    }
    ReachesForward(tokens, i, p);
  }

  /** Chains never merge: two rows that lead to the same one are on one chain. */
  lemma {:induction false} ChainsDisjoint(tokens: seq<Token>, i: nat, j: nat, k: nat)
    requires Chained(tokens) && Reaches(tokens, i, k) && Reaches(tokens, j, k)
    ensures Reaches(tokens, i, j) || Reaches(tokens, j, i)
    decreases k
  {
    if i != k && j != k {
      var p := Predecessor(tokens, i, k);
      var q := Predecessor(tokens, j, k);
      assert p == q;
      ChainsDisjoint(tokens, i, j, p);
    }
  }

  lemma OneChain(tokens: seq<Token>, i: nat, j: nat)
    requires Chained(tokens) && Reaches(tokens, i, j) && i != j
    ensures i < |tokens| && j < |tokens| && tokens[i].user == tokens[j].user && tokens[i].revokedAt.Some? && !Reaches(tokens, j, i)
    ensures forall k: nat :: Reaches(tokens, k, j) ==> Reaches(tokens, i, k) || Reaches(tokens, k, i)
  {
    ReachesForward(tokens, i, j);
    if Reaches(tokens, j, i) { ReachesForward(tokens, j, i); }
    forall k: nat | Reaches(tokens, k, j) ensures Reaches(tokens, i, k) || Reaches(tokens, k, i) {
      ChainsDisjoint(tokens, i, k, j);
    }
  }

  /** A refresh adds a token exactly when the token presented is known, unrevoked and unexpired, and then that one is
      revoked and linked to the new one, which is its user's. */
  lemma RotationNeedsLiveToken(tokens: seq<Token>, presented: string, fresh_: string, expiry: int, now: int)
    requires Distinct(tokens)
    ensures
      var after := Refreshed(tokens, presented, fresh_, expiry, now);
      && (|after| == |tokens| + 1 <==>
            exists i :: 0 <= i < |tokens| && tokens[i].secret == presented && tokens[i].revokedAt.None? && now <= tokens[i].expiresAt)
      && (forall i :: 0 <= i < |tokens| && tokens[i].secret == presented && |after| > |tokens| ==>
            after[i].revokedAt == Some(now) && after[i].replacedBy == Some(|tokens|) && after[|tokens|].user == tokens[i].user
            && after[|tokens|].secret == fresh_ && after[|tokens|].revokedAt.None?)
  {
    var found := Find(tokens, presented);
    if found.Some? {
      assert forall i :: 0 <= i < |tokens| && tokens[i].secret == presented ==> i == found.value;
    }
  }

  // ---- How many tokens a user holds ----

  /** Unrevoked tokens of `user` among the first `k` rows. */
  function Active(tokens: seq<Token>, user: string, k: nat): nat
    requires k <= |tokens|
  {
    if k == 0 then 0
    else Active(tokens, user, k - 1) + (if tokens[k - 1].user == user && tokens[k - 1].revokedAt.None? then 1 else 0)
  }

  predicate SameState(a: Token, b: Token, user: string) {
    (a.user == user && a.revokedAt.None?) == (b.user == user && b.revokedAt.None?)
  }

  lemma {:induction false} ActiveAgrees(a: seq<Token>, b: seq<Token>, user: string, k: nat)
    requires k <= |a| && k <= |b| && forall i :: 0 <= i < k ==> SameState(a[i], b[i], user)
    ensures Active(a, user, k) == Active(b, user, k)
  {
    if k > 0 {
      ActiveAgrees(a, b, user, k - 1);
      assert SameState(a[k - 1], b[k - 1], user);
    }
  }

  /** Revoking one row takes one off the count of its user if it was unrevoked. */
  lemma {:induction false} ActiveWithoutOne(a: seq<Token>, b: seq<Token>, user: string, id: nat, k: nat)
    requires id < k <= |a| && k <= |b| && b[id].revokedAt.Some?
    requires forall i :: 0 <= i < k && i != id ==> SameState(a[i], b[i], user)
    ensures Active(b, user, k) + (if a[id].user == user && a[id].revokedAt.None? then 1 else 0) == Active(a, user, k)
  {
    if id == k - 1 {
      ActiveAgrees(a, b, user, k - 1);
    } else {
      assert SameState(a[k - 1], b[k - 1], user);
      ActiveWithoutOne(a, b, user, id, k - 1);
    }
  }

  lemma {:induction false} ActiveAfterSweep(a: seq<Token>, b: seq<Token>, user: string, k: nat)
    requires k <= |a| && k <= |b| && forall i :: 0 <= i < k ==> !(b[i].user == user && b[i].revokedAt.None?)
    ensures Active(b, user, k) == 0 <= Active(a, user, k)
  {
    if k > 0 { ActiveAfterSweep(a, b, user, k - 1); }
  }

  lemma IssueCounts(tokens: seq<Token>, owner: string, secret: string, expiresAt: int, user: string)
    ensures Active(Issue(tokens, owner, secret, expiresAt), user, |tokens| + 1)
         == Active(tokens, user, |tokens|) + (if owner == user then 1 else 0)
  {
    ActiveAgrees(tokens, Issue(tokens, owner, secret, expiresAt), user, |tokens|);
  }

  lemma SweepCounts(tokens: seq<Token>, owner: string, now: int, user: string)
    ensures Active(RevokeUser(tokens, owner, now), user, |tokens|) == if user == owner then 0 else Active(tokens, user, |tokens|)
  {
    var after := RevokeUser(tokens, owner, now);
    if user == owner { ActiveAfterSweep(tokens, after, user, |tokens|); } else { ActiveAgrees(tokens, after, user, |tokens|); }
  }

  lemma ReplaceCounts(tokens: seq<Token>, id: nat, new_: nat, now: int, user: string)
    requires id < |tokens|
    ensures Active(Replace(tokens, id, new_, now), user, |tokens|) + (if tokens[id].user == user && tokens[id].revokedAt.None? then 1 else 0)
         == Active(tokens, user, |tokens|)
  {
    ActiveWithoutOne(tokens, Replace(tokens, id, new_, now), user, id, |tokens|);
  }

  lemma LogoutCounts(tokens: seq<Token>, id: nat, now: int, user: string)
    requires id < |tokens|
    ensures Active(tokens[id := Revoke(tokens[id], now)], user, |tokens|) + (if tokens[id].user == user && tokens[id].revokedAt.None? then 1 else 0)
         == Active(tokens, user, |tokens|)
  {
    ActiveWithoutOne(tokens, tokens[id := Revoke(tokens[id], now)], user, id, |tokens|);
  }

  lemma {:induction false} NoneActive(tokens: seq<Token>, user: string, k: nat)
    requires k <= |tokens|
    ensures Active(tokens, user, k) == 0 <==> forall i :: 0 <= i < k ==> !(tokens[i].user == user && tokens[i].revokedAt.None?)
  {
    if k > 0 { NoneActive(tokens, user, k - 1); }
  }
}
