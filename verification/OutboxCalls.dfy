/** The undisturbed calls of the consumer, command by command: they come to the methods of `Consumer`. */
module OutboxCalls {
  import P = OutboxProtocol
  import opened OutboxConsumer
  import opened OutboxDelivery

  /** The commands of one entry. */
  function Handle(g: Group, e: nat, t: nat, ok: bool, maxRetries: nat): seq<Action> {
    if ok then Success(t) else Failure(t, Failures(g, e) + 1 >= maxRetries)
  }

  /** The call goes on with the rest of its list, and ends with it. */
  ghost predicate GoesOn(s: System, v: System, t: nat, rest: seq<nat>) {
    v.pub == s.pub && (if rest == [] then t !in v.tasks else t in v.tasks && v.tasks[t] == Task(rest, Routing))
  }

  lemma SuccessGoesOn(s: System, t: nat, maxRetries: nat)
    requires In(s, t, Routing)
    ensures GoesOn(s, Run(s, Success(t), maxRetries), t, s.tasks[t].todo[1..])
  {
    RunThree(s, RouteOk(t), Ack(t), Clear(t), maxRetries);
  }

  lemma MissGoesOn(s: System, t: nat, maxRetries: nat)
    requires In(s, t, Routing)
    ensures
      var e := s.tasks[t].todo[0];
      var u := Next(Next(s, RouteThrows(t), maxRetries), Count(t), maxRetries);
      if Failures(s.group, e) + 1 < maxRetries then GoesOn(s, u, t, s.tasks[t].todo[1..])
      else u.pub == s.pub && In(u, t, Exhausted) && u.tasks[t].todo == s.tasks[t].todo
  {
  }

  lemma ParkGoesOn(u: System, t: nat, maxRetries: nat)
    requires In(u, t, Exhausted)
    ensures GoesOn(u, Run(u, [Park(t), ParkAck(t), ParkClear(t)], maxRetries), t, u.tasks[t].todo[1..])
  {
    RunThree(u, Park(t), ParkAck(t), ParkClear(t), maxRetries);
  }

  lemma FailureGoesOn(s: System, t: nat, maxRetries: nat)
    requires In(s, t, Routing)
    ensures
      var last := Failures(s.group, s.tasks[t].todo[0]) + 1 >= maxRetries;
      GoesOn(s, Run(s, Failure(t, last), maxRetries), t, s.tasks[t].todo[1..])
  {
    var u := Next(Next(s, RouteThrows(t), maxRetries), Count(t), maxRetries);
    MissGoesOn(s, t, maxRetries);
    if Failures(s.group, s.tasks[t].todo[0]) + 1 >= maxRetries {
      RunTwoMore(s, RouteThrows(t), Count(t), [Park(t), ParkAck(t), ParkClear(t)], maxRetries);
      assert Failure(t, true) == [RouteThrows(t), Count(t)] + [Park(t), ParkAck(t), ParkClear(t)];
      ParkGoesOn(u, t, maxRetries);
    } else {
      RunTwoMore(s, RouteThrows(t), Count(t), [], maxRetries);
      assert Failure(t, false) == [RouteThrows(t), Count(t)] + [];
    }
  }

  lemma HandleIsHandled(s: System, t: nat, ok: bool, maxRetries: nat)
    requires In(s, t, Routing)
    ensures
      var e := s.tasks[t].todo[0];
      var v := Run(s, Handle(s.group, e, t, ok, maxRetries), maxRetries);
      v.group == Handled(s.group, e, ok, maxRetries) && GoesOn(s, v, t, s.tasks[t].todo[1..])
  {
    if ok {
      SuccessIsHandled(s, t, maxRetries);
      SuccessGoesOn(s, t, maxRetries);
    } else {
      FailureIsHandled(s, t, maxRetries);
      FailureGoesOn(s, t, maxRetries);
    }
  }

  /** The commands of a whole list. */
  function Work(g: Group, todo: seq<nat>, t: nat, ok: nat -> bool, maxRetries: nat): seq<Action>
    decreases |todo|
  {
    if todo == [] then []
    else Handle(g, todo[0], t, ok(todo[0]), maxRetries) + Work(Handled(g, todo[0], ok(todo[0]), maxRetries), todo[1..], t, ok, maxRetries)
  }

  lemma {:induction false} RunConcat(s: System, a: seq<Action>, b: seq<Action>, maxRetries: nat)
    ensures Run(s, a + b, maxRetries) == Run(Run(s, a, maxRetries), b, maxRetries)
    decreases |a|
  {
    if a == [] {
      assert [] + b == b;
    } else {
      assert (a + b)[1..] == a[1..] + b;
      RunConcat(Next(s, a[0], maxRetries), a[1..], b, maxRetries);
    }
  }

  lemma {:induction false} HandleFront(g: Group, h: seq<Handling>, k: nat, maxRetries: nat)
    requires 0 < k <= |h|
    ensures HandleAll(g, h, k, maxRetries) == HandleAll(Handled(g, h[0].entry, h[0].ok, maxRetries), h[1..], k - 1, maxRetries)
  {
    if k > 1 { HandleFront(g, h, k - 1, maxRetries); }
  }

  lemma ListFront(g: Group, todo: seq<nat>, ok: nat -> bool, maxRetries: nat)
    requires todo != []
    ensures HandleAll(g, Pair(todo, ok), |todo|, maxRetries)
         == HandleAll(Handled(g, todo[0], ok(todo[0]), maxRetries), Pair(todo[1..], ok), |todo[1..]|, maxRetries)
  {
    HandleFront(g, Pair(todo, ok), |todo|, maxRetries);
    assert Pair(todo, ok)[1..] == Pair(todo[1..], ok);
  }

  lemma {:induction false} WorkIsHandled(s: System, todo: seq<nat>, t: nat, ok: nat -> bool, maxRetries: nat)
    requires todo != [] ==> t in s.tasks && s.tasks[t] == Task(todo, Routing)
    ensures
      var v := Run(s, Work(s.group, todo, t, ok, maxRetries), maxRetries);
      v.group == HandleAll(s.group, Pair(todo, ok), |todo|, maxRetries) && v.pub == s.pub && (todo != [] ==> t !in v.tasks)
    decreases |todo|
  {
    if todo != [] {
      var first := Handle(s.group, todo[0], t, ok(todo[0]), maxRetries);
      var v := Run(s, first, maxRetries);
      HandleIsHandled(s, t, ok(todo[0]), maxRetries);
      WorkIsHandled(v, todo[1..], t, ok, maxRetries);
      RunConcat(s, first, Work(v.group, todo[1..], t, ok, maxRetries), maxRetries);
      ListFront(s.group, todo, ok, maxRetries);
    }
  }

  lemma ReadStarts(s: System, count: nat, maxRetries: nat)
    requires s.group.delivered <= |s.pub.stream|
    ensures
      var from, len := s.group.delivered, |s.pub.stream|;
      var upTo := if from + count <= len then from + count else len;
      var v := Next(s, Read(count), maxRetries);
      v.group == Delivered(s.group, upTo) && v.pub == s.pub
      && (Ids(from, upTo) != [] ==> s.nextTask in v.tasks && v.tasks[s.nextTask] == Task(Ids(from, upTo), Routing))
  {
  }

  /** A group read and the commands after it come to `Consumer.ConsumeBatch`. */
  lemma BatchIsItsSteps(s: System, count: nat, ok: nat -> bool, maxRetries: nat)
    requires s.group.delivered <= |s.pub.stream|
    ensures
      var from, len := s.group.delivered, |s.pub.stream|;
      var upTo := if from + count <= len then from + count else len;
      var read := Next(s, Read(count), maxRetries);
      var v := Run(read, Work(read.group, Ids(from, upTo), s.nextTask, ok, maxRetries), maxRetries);
      v.group == HandleAll(Delivered(s.group, upTo), Pair(Ids(from, upTo), ok), |Ids(from, upTo)|, maxRetries)
  {
    var from, len := s.group.delivered, |s.pub.stream|;
    var upTo := if from + count <= len then from + count else len;
    var ids, read := Ids(from, upTo), Next(s, Read(count), maxRetries);
    ReadStarts(s, count, maxRetries);
    WorkIsHandled(read, ids, s.nextTask, ok, maxRetries);
  }

  /** And a recovery of pending entries to the handlings of `Consumer.RecoverPending`. */
  lemma RecoveryIsItsSteps(s: System, ids: seq<nat>, ok: nat -> bool, maxRetries: nat)
    requires forall k :: 0 <= k < |ids| ==> ids[k] in s.group.pending
    ensures
      var read := Next(s, Recover(ids), maxRetries);
      var v := Run(read, Work(read.group, ids, s.nextTask, ok, maxRetries), maxRetries);
      v.group == HandleAll(s.group, Pair(ids, ok), |ids|, maxRetries)
  {
    WorkIsHandled(Next(s, Recover(ids), maxRetries), ids, s.nextTask, ok, maxRetries);
  }

  /** A routing that succeeds is still counted as a failure when a command after it errs or loses its answer: the entry stays
      pending if that was before the acknowledgement took effect, and else is gone from the pending list. */
  lemma RoutedYetFailed(s: System, t: nat, maxRetries: nat)
    requires In(s, t, Routing) && Failures(s.group, s.tasks[t].todo[0]) + 1 < maxRetries
    ensures
      var e := s.tasks[t].todo[0];
      var missed := s.group.(routed := s.group.routed + {e}, failures := s.group.failures[e := Failures(s.group, e) + 1]);
      var routed := Next(s, RouteOk(t), maxRetries);
      && Next(Next(routed, Errs(t), maxRetries), Count(t), maxRetries).group == missed
      && Next(Next(routed, AckUnseen(t), maxRetries), Count(t), maxRetries).group == missed.(pending := s.group.pending - {e})
      && Next(Next(Next(routed, Ack(t), maxRetries), Errs(t), maxRetries), Count(t), maxRetries).group
         == missed.(pending := s.group.pending - {e})
  {
  }

  ghost predicate Numbered(s: System) { forall t :: t in s.tasks ==> t < s.nextTask }

  lemma NextKeepsNumbered(s: System, a: Action, maxRetries: nat)
    requires Numbered(s)
    ensures Numbered(Next(s, a, maxRetries))
  {
    var v := Next(s, a, maxRetries);
    forall t | t in v.tasks ensures t < v.nextTask { assert t in s.tasks || t == s.nextTask < v.nextTask; }
  }

  /** A new call never takes the place of one under way. */
  lemma {:induction false} NewCallsAreNew(s: System, actions: seq<Action>, maxRetries: nat)
    requires Numbered(s)
    ensures Numbered(Run(s, actions, maxRetries))
    decreases |actions|
  {
    if actions != [] {
      NextKeepsNumbered(s, actions[0], maxRetries);
      NewCallsAreNew(Next(s, actions[0], maxRetries), actions[1..], maxRetries);
    }
  }
}
