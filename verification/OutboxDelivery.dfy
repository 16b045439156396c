/** End-to-end delivery: publishers and consumers on one stream, interleaved between any two awaits, with crashes. */
module OutboxDelivery {
  import P = OutboxProtocol
  import opened OutboxConsumer

  /** Where one `consumeEntries` call stands with the head of its list. */
  datatype Phase = Routing | RouteDone | AckDone | Threw | Exhausted | ParkDone | ParkAcked

  datatype Task = Task(todo: seq<nat>, phase: Phase)

  datatype System = System(pub: P.State, group: Group, tasks: map<nat, Task>, nextTask: nat)

  const START := System(P.INITIAL, FRESH_GROUP, map[], 0)

  datatype Action =
    | Publish(step: P.Action)
    | Read(count: nat)
    | Recover(ids: seq<nat>)
    | RouteOk(t: nat)
    | RouteThrows(t: nat)
    | Ack(t: nat)
    | AckUnseen(t: nat)
    | Clear(t: nat)
    | Errs(t: nat)
    | Count(t: nat)
    | Park(t: nat)
    | ParkUnseen(t: nat)
    | ParkAck(t: nat)
    | ParkClear(t: nat)
    | Abort(t: nat)

  predicate In(s: System, t: nat, phase: Phase) {
    t in s.tasks && s.tasks[t].todo != [] && s.tasks[t].phase == phase
  }

  function Become(s: System, t: nat, phase: Phase): System
    requires t in s.tasks
  {
    s.(tasks := s.tasks[t := s.tasks[t].(phase := phase)])
  }

  function Drop(s: System, t: nat): System {
    s.(tasks := map k | k in s.tasks && k != t :: s.tasks[k])
  }

  /** The loop of line 110 goes on with the next entry. */
  function Advance(s: System, t: nat): System
    requires t in s.tasks && s.tasks[t].todo != []
  {
    var rest := s.tasks[t].todo[1..];
    if rest == [] then Drop(s, t) else s.(tasks := s.tasks[t := Task(rest, Routing)])
  }

  function Start(s: System, todo: seq<nat>): System {
    if todo == [] then s else s.(tasks := s.tasks[s.nextTask := Task(todo, Routing)], nextTask := s.nextTask + 1)
  }

  /** One Redis command or one outcome of the routing code. */
  ghost function Next(s: System, a: Action, maxRetries: nat): System {
    match a
    case Publish(step) => s.(pub := P.Next(s.pub, step))
    case Read(count) =>
      var from, len := s.group.delivered, |s.pub.stream|;
      var upTo := if from + count <= len then from + count else len;
      if from <= upTo then
        Start(s.(group := Delivered(s.group, upTo)), Ids(from, upTo))
      else s
    case Recover(ids) => if forall k :: 0 <= k < |ids| ==> ids[k] in s.group.pending then Start(s, ids) else s
    case RouteOk(t) =>
      if In(s, t, Routing) then
        Become(s, t, RouteDone).(group := s.group.(routed := s.group.routed + {s.tasks[t].todo[0]}))
      else s
    case RouteThrows(t) => if In(s, t, Routing) then Become(s, t, Threw) else s
    case Ack(t) =>
      if In(s, t, RouteDone) then
        Become(s, t, AckDone).(group := s.group.(pending := s.group.pending - {s.tasks[t].todo[0]}))
      else s
    case AckUnseen(t) =>
      if In(s, t, RouteDone) then
        Become(s, t, Threw).(group := s.group.(pending := s.group.pending - {s.tasks[t].todo[0]}))
      else s
    case Clear(t) =>
      if In(s, t, AckDone) then
        Advance(s.(group := s.group.(failures := Without(s.group.failures, s.tasks[t].todo[0]))), t)
      else s
    case Errs(t) => if In(s, t, RouteDone) || In(s, t, AckDone) then Become(s, t, Threw) else s
    case Count(t) =>
      if In(s, t, Threw) then
        var e := s.tasks[t].todo[0];
        var retries := Failures(s.group, e) + 1;
        var u := s.(group := s.group.(failures := s.group.failures[e := retries]));
        if retries < maxRetries then Advance(u, t) else Become(u, t, Exhausted)
      else s
    case Park(t) =>
      if In(s, t, Exhausted) then
        Become(s, t, ParkDone).(group := s.group.(dlq := s.group.dlq + [s.tasks[t].todo[0]]))
      else s
    case ParkUnseen(t) =>
      if In(s, t, Exhausted) then Drop(s, t).(group := s.group.(dlq := s.group.dlq + [s.tasks[t].todo[0]])) else s
    case ParkAck(t) =>
      if In(s, t, ParkDone) then
        Become(s, t, ParkAcked).(group := s.group.(pending := s.group.pending - {s.tasks[t].todo[0]}))
      else s
    case ParkClear(t) =>
      if In(s, t, ParkAcked) then
        Advance(s.(group := s.group.(failures := Without(s.group.failures, s.tasks[t].todo[0]))), t)
      else s
    case Abort(t) => Drop(s, t)
  }

  ghost function Run(s: System, actions: seq<Action>, maxRetries: nat): System
    decreases |actions|
  {
    if actions == [] then s else Run(Next(s, actions[0], maxRetries), actions[1..], maxRetries)
  }

  /** One successful handling, undisturbed. */
  function Success(t: nat): seq<Action> { [RouteOk(t), Ack(t), Clear(t)] }

  /** One failed handling, undisturbed; `last` when it is the entry's last allowed one. */
  function Failure(t: nat, last: bool): seq<Action> {
    if last then [RouteThrows(t), Count(t), Park(t), ParkAck(t), ParkClear(t)] else [RouteThrows(t), Count(t)]
  }

  lemma RunThree(s: System, a: Action, b: Action, c: Action, maxRetries: nat)
    ensures Run(s, [a, b, c], maxRetries) == Next(Next(Next(s, a, maxRetries), b, maxRetries), c, maxRetries)
  {
    assert [a, b, c][1..] == [b, c] && [b, c][1..] == [c] && [c][1..] == [];
    assert Run(s, [a, b, c], maxRetries) == Run(Next(s, a, maxRetries), [b, c], maxRetries);
    assert Run(Next(s, a, maxRetries), [b, c], maxRetries) == Run(Next(Next(s, a, maxRetries), b, maxRetries), [c], maxRetries);
  }

  lemma RunTwoMore(s: System, a: Action, b: Action, rest: seq<Action>, maxRetries: nat)
    ensures Run(s, [a, b] + rest, maxRetries) == Run(Next(Next(s, a, maxRetries), b, maxRetries), rest, maxRetries)
  {
    assert ([a, b] + rest)[1..] == [b] + rest && ([b] + rest)[1..] == rest;
    assert Run(s, [a, b] + rest, maxRetries) == Run(Next(s, a, maxRetries), [b] + rest, maxRetries);
  }

  /** The Redis commands of an undisturbed success are the handling that `Consumer.ConsumeEntry` is proved to make. */
  lemma SuccessIsHandled(s: System, t: nat, maxRetries: nat)
    requires In(s, t, Routing)
    ensures Run(s, Success(t), maxRetries).group == Handled(s.group, s.tasks[t].todo[0], true, maxRetries)
  {
    RunThree(s, RouteOk(t), Ack(t), Clear(t), maxRetries);
  }

  lemma CountedFailure(s: System, t: nat, maxRetries: nat)
    requires In(s, t, Routing)
    ensures
      var e := s.tasks[t].todo[0];
      var u := Next(Next(s, RouteThrows(t), maxRetries), Count(t), maxRetries);
      && u.group == s.group.(failures := s.group.failures[e := Failures(s.group, e) + 1])
      && (Failures(s.group, e) + 1 >= maxRetries ==> In(u, t, Exhausted) && u.tasks[t].todo[0] == e)
  {
  }

  lemma ParkedFailure(u: System, t: nat, maxRetries: nat)
    requires In(u, t, Exhausted)
    ensures
      var e := u.tasks[t].todo[0];
      Run(u, [Park(t), ParkAck(t), ParkClear(t)], maxRetries).group
      == u.group.(dlq := u.group.dlq + [e], pending := u.group.pending - {e}, failures := Without(u.group.failures, e))
  {
    RunThree(u, Park(t), ParkAck(t), ParkClear(t), maxRetries);
  }

  /** And those of an undisturbed failure likewise. */
  lemma FailureIsHandled(s: System, t: nat, maxRetries: nat)
    requires In(s, t, Routing)
    ensures
      var e := s.tasks[t].todo[0];
      Run(s, Failure(t, Failures(s.group, e) + 1 >= maxRetries), maxRetries).group == Handled(s.group, e, false, maxRetries)
  {
    var e := s.tasks[t].todo[0];
    CountedFailure(s, t, maxRetries);
    var u := Next(Next(s, RouteThrows(t), maxRetries), Count(t), maxRetries);
    if Failures(s.group, e) + 1 >= maxRetries {
      RunTwoMore(s, RouteThrows(t), Count(t), [Park(t), ParkAck(t), ParkClear(t)], maxRetries);
      assert Failure(t, true) == [RouteThrows(t), Count(t)] + [Park(t), ParkAck(t), ParkClear(t)];
      ParkedFailure(u, t, maxRetries);
      assert Without(u.group.failures, e) == Without(s.group.failures, e);
    } else {
      RunTwoMore(s, RouteThrows(t), Count(t), [], maxRetries);
      assert Failure(t, false) == [RouteThrows(t), Count(t)] + [];
    }
  }

  ghost predicate InStream(stream: seq<P.Entry>, r: nat) {
    exists k :: 0 <= k < |stream| && stream[k].row == r
  }

  ghost predicate RowsInStream(p: P.State) {
    forall r :: 0 <= r < |p.rows| && p.rows[r].publishedAt.Some? ==> InStream(p.stream, r)
  }

  ghost predicate SentInStream(p: P.State) {
    forall b :: b in p.batches && p.batches[b].stage.Sent? && p.batches[b].stage.todo != [] ==>
      InStream(p.stream, p.batches[b].stage.todo[0])
  }

  /** No row is marked before one of its entries is in the stream. */
  ghost predicate PublishedInv(p: P.State) { RowsInStream(p) && SentInStream(p) }

  /** Where an entry can be once the group has read it. */
  predicate Accounted(g: Group, e: nat) {
    e >= g.delivered || e in g.pending || e in g.routed || e in g.dlq
  }

  ghost predicate TaskInv(g: Group, task: Task) {
    && (forall k :: 0 <= k < |task.todo| ==> task.todo[k] < g.delivered)
    && (task.todo != [] ==>
          && (task.phase.RouteDone? || task.phase.AckDone? ==> task.todo[0] in g.routed)
          && (task.phase.ParkDone? || task.phase.ParkAcked? ==> task.todo[0] in g.dlq))
  }

  ghost predicate PositionOk(s: System) {
    s.group.delivered <= |s.pub.stream| && forall e :: e in s.group.pending ==> e < s.group.delivered
  }

  ghost predicate AllAccounted(g: Group) { forall e: nat :: Accounted(g, e) }

  ghost predicate TasksOk(s: System) { forall t :: t in s.tasks ==> TaskInv(s.group, s.tasks[t]) }

  ghost predicate GroupInv(s: System) { PositionOk(s) && AllAccounted(s.group) && TasksOk(s) }

  lemma {:induction false} ClaimEachPublishes(p: P.State, b: nat, ids: seq<nat>)
    requires b in p.batches
    ensures forall r :: 0 <= r < |p.rows| ==> P.ClaimEach(p, b, ids).rows[r].publishedAt == p.rows[r].publishedAt
    decreases |ids|
  {
    if ids != [] { ClaimEachPublishes(P.ClaimOne(p, b, ids[0]), b, ids[1..]); }
  }

  lemma StreamGrows(s: seq<P.Entry>, e: P.Entry)
    ensures forall r :: InStream(s, r) ==> InStream(s + [e], r)
    ensures InStream(s + [e], e.row)
  {
    assert (s + [e])[|s|] == e;
    forall r | InStream(s, r) ensures InStream(s + [e], r) {
      var k :| 0 <= k < |s| && s[k].row == r;
      assert (s + [e])[k].row == r;
    }
  }

  lemma ClaimKeepsPublished(p: P.State, b: nat)
    requires PublishedInv(p)
    ensures PublishedInv(P.Next(p, P.Claim(b))) && P.Next(p, P.Claim(b)).stream == p.stream
  {
    if b in p.batches { ClaimEachPublishes(p, b, p.batches[b].ids); }
  }

  lemma AppendKeepsPublished(p: P.State, b: nat, stage: P.Stage)
    requires PublishedInv(p) && P.At(p, b, true, false, false)
    requires stage == P.Sent(p.batches[b].stage.todo) || stage == P.Failed(p.batches[b].stage.todo)
    ensures PublishedInv(P.SetStage(P.AppendHead(p, b, p.batches[b].stage.todo), b, stage))
  {
    StreamGrows(p.stream, P.Entry(p.batches[b].stage.todo[0], b));
  }

  lemma MarkKeepsRows(p: P.State, b: nat, at: int)
    requires PublishedInv(p) && P.At(p, b, false, true, false)
    ensures
      var t := P.MarkHead(p, b, p.batches[b].stage.todo, at);
      RowsInStream(t) && t.stream == p.stream && t.batches == p.batches
  {
  }

  lemma MarkKeepsPublished(p: P.State, b: nat, at: int)
    requires PublishedInv(p)
    ensures PublishedInv(P.Next(p, P.Mark(b, at))) && PublishedInv(P.Next(p, P.MarkUnseen(b, at)))
    ensures P.Next(p, P.Mark(b, at)).stream == P.Next(p, P.MarkUnseen(b, at)).stream == p.stream
  {
    if P.At(p, b, false, true, false) { MarkKeepsRows(p, b, at); }
  }

  lemma PublisherKeepsPublished(p: P.State, a: P.Action)
    requires PublishedInv(p)
    ensures PublishedInv(P.Next(p, a)) && |p.stream| <= |P.Next(p, a).stream|
  {
    match a
    case Claim(b) => ClaimKeepsPublished(p, b);
    case Append(b) =>
      if P.At(p, b, true, false, false) { AppendKeepsPublished(p, b, P.Sent(p.batches[b].stage.todo)); }
    case AppendUnseen(b) =>
      if P.At(p, b, true, false, false) { AppendKeepsPublished(p, b, P.Failed(p.batches[b].stage.todo)); }
    case Mark(b, at) => MarkKeepsPublished(p, b, at);
    case MarkUnseen(b, at) => MarkKeepsPublished(p, b, at);
    case _ =>
  }

  /** What a step of the group never takes back. */
  ghost predicate Grows(g: Group, h: Group) {
    g.delivered <= h.delivered && g.routed <= h.routed && forall e :: e in g.dlq ==> e in h.dlq
  }

  lemma NextGrows(s: System, a: Action, maxRetries: nat)
    ensures Grows(s.group, Next(s, a, maxRetries).group)
  {
  }

  lemma NextKeepsPosition(s: System, a: Action, maxRetries: nat)
    requires PositionOk(s) && PublishedInv(s.pub)
    ensures PositionOk(Next(s, a, maxRetries))
  {
    if a.Publish? { PublisherKeepsPublished(s.pub, a.step); }
  }

  /** An entry leaves the pending list only once it is routed or parked. */
  lemma NextKeepsAccounted(s: System, a: Action, maxRetries: nat)
    requires AllAccounted(s.group) && TasksOk(s)
    ensures AllAccounted(Next(s, a, maxRetries).group)
  {
    var t := Next(s, a, maxRetries);
    NextGrows(s, a, maxRetries);
    forall e: nat ensures Accounted(t.group, e) { assert Accounted(s.group, e); }
  }

  lemma StartKeepsTasks(s: System, todo: seq<nat>)
    requires TasksOk(s) && forall k :: 0 <= k < |todo| ==> todo[k] < s.group.delivered
    ensures TasksOk(Start(s, todo))
  {
  }

  lemma TasksGrow(s: System, g: Group)
    requires TasksOk(s) && Grows(s.group, g)
    ensures TasksOk(s.(group := g))
  {
    forall k | k in s.tasks ensures TaskInv(g, s.tasks[k]) { assert TaskInv(s.group, s.tasks[k]); }
  }

  lemma BecomeKeepsTasks(s: System, t: nat, phase: Phase)
    requires TasksOk(s) && t in s.tasks && TaskInv(s.group, s.tasks[t].(phase := phase))
    ensures TasksOk(Become(s, t, phase))
  {
  }

  lemma AdvanceKeepsTasks(s: System, t: nat)
    requires TasksOk(s) && t in s.tasks && s.tasks[t].todo != []
    ensures TasksOk(Advance(s, t))
  {
    assert TaskInv(s.group, s.tasks[t]);
  }

  /** Steps that only move one task to its next phase. */
  predicate Moves(a: Action) {
    a.RouteOk? || a.RouteThrows? || a.Ack? || a.AckUnseen? || a.Errs? || a.Park? || a.ParkAck?
  }

  lemma MovesKeepTasks(s: System, a: Action, maxRetries: nat)
    requires TasksOk(s) && Moves(a)
    ensures TasksOk(Next(s, a, maxRetries))
  {
    NextGrows(s, a, maxRetries);
    var v := Next(s, a, maxRetries);
    TasksGrow(s, v.group);
    if v != s {
      assert TaskInv(s.group, s.tasks[a.t]);
      BecomeKeepsTasks(s.(group := v.group), a.t, v.tasks[a.t].phase);
    }
  }

  lemma CountKeepsTasks(s: System, t: nat, maxRetries: nat)
    requires TasksOk(s)
    ensures TasksOk(Next(s, Count(t), maxRetries))
  {
    if In(s, t, Threw) {
      var u := s.(group := Next(s, Count(t), maxRetries).group);
      TasksGrow(s, u.group);
      AdvanceKeepsTasks(u, t);
      assert TaskInv(s.group, s.tasks[t]);
      BecomeKeepsTasks(u, t, Exhausted);
    }
  }

  lemma ReadKeepsTasks(s: System, count: nat, maxRetries: nat)
    requires TasksOk(s)
    ensures TasksOk(Next(s, Read(count), maxRetries))
  {
    var from, len := s.group.delivered, |s.pub.stream|;
    var upTo := if from + count <= len then from + count else len;
    if from <= upTo {
      TasksGrow(s, Delivered(s.group, upTo));
      StartKeepsTasks(s.(group := Delivered(s.group, upTo)), Ids(from, upTo));
    }
  }

  lemma NextKeepsTasks(s: System, a: Action, maxRetries: nat)
    requires PositionOk(s) && TasksOk(s)
    ensures TasksOk(Next(s, a, maxRetries))
  {
    match a
    case Read(count) => ReadKeepsTasks(s, count, maxRetries);
    case Recover(ids) => if forall k :: 0 <= k < |ids| ==> ids[k] in s.group.pending { StartKeepsTasks(s, ids); }
    case Clear(t) =>
      if In(s, t, AckDone) {
        var g := s.group.(failures := Without(s.group.failures, s.tasks[t].todo[0]));
        TasksGrow(s, g);
        AdvanceKeepsTasks(s.(group := g), t);
      }
    case ParkClear(t) =>
      if In(s, t, ParkAcked) {
        var g := s.group.(failures := Without(s.group.failures, s.tasks[t].todo[0]));
        TasksGrow(s, g);
        AdvanceKeepsTasks(s.(group := g), t);
      }
    case Count(t) => CountKeepsTasks(s, t, maxRetries);
    case ParkUnseen(t) =>
      NextGrows(s, a, maxRetries);
      TasksGrow(s, Next(s, a, maxRetries).group);
    case Publish(_) =>
    case Abort(_) =>
    case _ => MovesKeepTasks(s, a, maxRetries);
  }

  /** The entry stays accounted for when a step removes it from the pending list. */
  lemma NextKeepsGroup(s: System, a: Action, maxRetries: nat)
    requires GroupInv(s) && PublishedInv(s.pub)
    ensures GroupInv(Next(s, a, maxRetries))
  {
    NextKeepsPosition(s, a, maxRetries);
    NextKeepsAccounted(s, a, maxRetries);
    NextKeepsTasks(s, a, maxRetries);
  }

  lemma {:induction false} RunKeepsAll(s: System, actions: seq<Action>, maxRetries: nat)
    requires GroupInv(s) && PublishedInv(s.pub)
    ensures GroupInv(Run(s, actions, maxRetries)) && PublishedInv(Run(s, actions, maxRetries).pub)
    decreases |actions|
  {
    if actions != [] {
      NextKeepsGroup(s, actions[0], maxRetries);
      if actions[0].Publish? { PublisherKeepsPublished(s.pub, actions[0].step); }
      RunKeepsAll(Next(s, actions[0], maxRetries), actions[1..], maxRetries);
    }
  }

  /** No event is lost: after any interleaving of any number of publishers and consumers, with a crash between any two
      awaits, a row marked published has a stream entry, and every stream entry is unread, pending, routed or parked. */
  lemma NoEventLost(actions: seq<Action>, maxRetries: nat)
    ensures
      var s := Run(START, actions, maxRetries);
      && (forall r :: 0 <= r < |s.pub.rows| && s.pub.rows[r].publishedAt.Some? ==> InStream(s.pub.stream, r))
      && (forall e: nat :: e < |s.pub.stream| ==> Accounted(s.group, e))
      && (forall e :: e in s.group.pending || e < s.group.delivered ==> e < |s.pub.stream|)
  {
    RunKeepsAll(START, actions, maxRetries);
  }
}
