/** How many failures stand behind a dead letter, over the runs of the whole system. */
module OutboxDeadLetters {
  import opened Common
  import opened OutboxConsumer
  import opened OutboxDelivery

  /** Step `a` counts a failure of entry `e`. */
  predicate CountsOf(s: System, a: Action, e: nat) { a.Count? && In(s, a.t, Threw) && s.tasks[a.t].todo[0] == e }

  /** The failures of `e` counted in a run. */
  ghost function Failed(s: System, actions: seq<Action>, e: nat, maxRetries: nat): nat
    decreases |actions|
  {
    if actions == [] then 0
    else (if CountsOf(s, actions[0], e) then 1 else 0) + Failed(Next(s, actions[0], maxRetries), actions[1..], e, maxRetries)
  }

  function Parkings(dlq: seq<nat>, e: nat): nat { multiset(dlq)[e] }

  /** The calls about to park `e`. */
  ghost function Parking(s: System, e: nat): set<nat> {
    set t | t in s.tasks && In(s, t, Exhausted) && s.tasks[t].todo[0] == e
  }

  /** Of `n` failures so far, all that the counter shows, and all but `maxRetries - 1` of those that let a call park. */
  ghost predicate Backed(s: System, e: nat, n: nat, maxRetries: nat) {
    var parks := Parkings(s.group.dlq, e) + |Parking(s, e)|;
    Failures(s.group, e) <= n && (parks > 0 ==> parks + maxRetries <= n + 1)
  }

  lemma NoneElseParks(s: System, a: Action, e: nat, maxRetries: nat)
    requires !CountsOf(s, a, e)
    ensures Parking(Next(s, a, maxRetries), e) <= Parking(s, e)
    ensures Failures(Next(s, a, maxRetries).group, e) <= Failures(s.group, e)
  {
  }

  lemma ParkedOnce(s: System, a: Action, e: nat, maxRetries: nat)
    requires a.Park? || a.ParkUnseen?
    ensures
      var v := Next(s, a, maxRetries);
      Parkings(v.group.dlq, e) + |Parking(v, e)| <= Parkings(s.group.dlq, e) + |Parking(s, e)|
  {
    var v := Next(s, a, maxRetries);
    NoneElseParks(s, a, e, maxRetries);
    if In(s, a.t, Exhausted) && s.tasks[a.t].todo[0] == e {
      assert a.t in Parking(s, e) && a.t !in Parking(v, e);
      SubsetSize(Parking(v, e), Parking(s, e) - {a.t});
    } else {
      SubsetSize(Parking(v, e), Parking(s, e));
    }
  }

  lemma CountBacks(s: System, a: Action, e: nat, n: nat, maxRetries: nat)
    requires Backed(s, e, n, maxRetries) && CountsOf(s, a, e)
    ensures Backed(Next(s, a, maxRetries), e, n + 1, maxRetries)
  {
    var v := Next(s, a, maxRetries);
    var retries := Failures(s.group, e) + 1;
    assert Failures(v.group, e) == retries && v.group.dlq == s.group.dlq;
    if retries < maxRetries {
      assert Parking(v, e) <= Parking(s, e);
      SubsetSize(Parking(v, e), Parking(s, e));
    } else {
      assert Parking(v, e) <= Parking(s, e) + {a.t};
      SubsetSize(Parking(v, e), Parking(s, e) + {a.t});
    }
  }

  lemma NextBacked(s: System, a: Action, e: nat, n: nat, maxRetries: nat)
    requires Backed(s, e, n, maxRetries)
    ensures Backed(Next(s, a, maxRetries), e, n + (if CountsOf(s, a, e) then 1 else 0), maxRetries)
  {
    if CountsOf(s, a, e) {
      CountBacks(s, a, e, n, maxRetries);
    } else {
      NoneElseParks(s, a, e, maxRetries);
      if a.Park? || a.ParkUnseen? {
        ParkedOnce(s, a, e, maxRetries);
      } else {
        assert Next(s, a, maxRetries).group.dlq == s.group.dlq;
        SubsetSize(Parking(Next(s, a, maxRetries), e), Parking(s, e));
      }
    }
  }

  lemma {:induction false} RunBacked(s: System, actions: seq<Action>, e: nat, n: nat, maxRetries: nat)
    requires Backed(s, e, n, maxRetries)
    ensures Backed(Run(s, actions, maxRetries), e, n + Failed(s, actions, e, maxRetries), maxRetries)
    decreases |actions|
  {
    if actions != [] {
      NextBacked(s, actions[0], e, n, maxRetries);
      RunBacked(Next(s, actions[0], maxRetries), actions[1..], e, n + (if CountsOf(s, actions[0], e) then 1 else 0), maxRetries);
    }
  }

  /** For every interleaving with crashes and lost answers: an entry is parked only after `maxRetries` counted failures of it,
      and each time it is parked again only after one more. */
  lemma ParkedAfterRetries(actions: seq<Action>, e: nat, maxRetries: nat)
    ensures
      var parkings := Parkings(Run(START, actions, maxRetries).group.dlq, e);
      parkings > 0 ==> Failed(START, actions, e, maxRetries) >= maxRetries + (parkings - 1)
  {
    assert Parking(START, e) == {};
    RunBacked(START, actions, e, 0, maxRetries);
  }
}
