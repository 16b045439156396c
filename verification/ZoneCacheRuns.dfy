/** The zone cache under every interleaving of readers and writers, the database read of a miss split from the call that
    starts it and from the store that ends it. Lists count as multisets, since `trackLocation` reorders them in place. */
module ZoneCacheRuns {
  import opened Common
  import opened GeoZones

  /** A miss that has not yet queried, or has queried and not yet stored. */
  datatype Reader = Called(at: int) | Loaded(calledAt: int, readAt: int, zones: multiset<Zone>)

  /** `readAt` is when the cached list was read from the database; only the invariant uses it. */
  datatype Entry = Entry(expiresAt: int, readAt: int, value: multiset<Zone>)

  /** An answer: when the call began and ended, when its list was read, and what was active as it returned. */
  datatype Answer = Answer(calledAt: int, returnedAt: int, readAt: int, zones: multiset<Zone>, current: multiset<Zone>)

  /** `past` holds every instant together with the zones then active. */
  datatype World = World(clock: int, active: multiset<Zone>, cache: Option<Entry>, readers: multiset<Reader>,
                         answers: seq<Answer>, past: set<(int, multiset<Zone>)>)

  function Start(clock: int, active: multiset<Zone>): World {
    World(clock, active, None, multiset{}, [], {(clock, active)})
  }

  datatype Action =
    | Tick(millis: nat)
    | Call
    | Query(at: int)
    | Store(calledAt: int, readAt: int, zones: multiset<Zone>)
    | Lose(reader: Reader)
    | Write(active: multiset<Zone>)
    | Invalidate
    | WriteAndInvalidate(active: multiset<Zone>)

  function At(w: World, clock: int, active: multiset<Zone>): World {
    w.(clock := clock, active := active, past := w.past + {(clock, active)})
  }

  function Next(w: World, a: Action): World {
    match a
    case Tick(millis) => At(w, w.clock + millis, w.active)
    case Call =>
      if w.cache.Some? && w.cache.value.expiresAt > w.clock then
        w.(answers := w.answers + [Answer(w.clock, w.clock, w.cache.value.readAt, w.cache.value.value, w.active)])
      else w.(readers := w.readers + multiset{Called(w.clock)})
    case Query(at) =>
      if Called(at) !in w.readers then w
      else w.(readers := w.readers - multiset{Called(at)} + multiset{Loaded(at, w.clock, w.active)})
    case Store(calledAt, readAt, zones) =>
      if Loaded(calledAt, readAt, zones) !in w.readers then w
      else w.(readers := w.readers - multiset{Loaded(calledAt, readAt, zones)},
              cache := Some(Entry(calledAt + TTL, readAt, zones)),
              answers := w.answers + [Answer(calledAt, w.clock, readAt, zones, w.active)])
    case Lose(reader) => w.(readers := w.readers - multiset{reader})
    case Write(active) => At(w, w.clock, active)
    case Invalidate => w.(cache := None)
    case WriteAndInvalidate(active) => At(w, w.clock, active).(cache := None)
  }

  function Run(w: World, actions: seq<Action>): World
    decreases |actions|
  {
    if actions == [] then w else Run(Next(w, actions[0]), actions[1..])
  }

  /** A call that finds the cache empty or expired queries what is active, caches it for a minute from when it began, and
      answers with it, as `GeoZoneService.GetActiveZones` does; nothing else of it stays behind. */
  lemma MissIsItsSteps(w: World)
    requires w.cache == None || w.cache.value.expiresAt <= w.clock
    ensures
      var called := Next(w, Call);
      var loaded := Next(called, Query(w.clock));
      && called == w.(readers := w.readers + multiset{Called(w.clock)})
      && loaded == w.(readers := w.readers + multiset{Loaded(w.clock, w.clock, w.active)})
      && Next(loaded, Store(w.clock, w.clock, w.active))
         == w.(cache := Some(Entry(w.clock + 60000, w.clock, w.active)),
               answers := w.answers + [Answer(w.clock, w.clock, w.clock, w.active, w.active)])
  {
    var r := Loaded(w.clock, w.clock, w.active);
    assert w.readers + multiset{Called(w.clock)} - multiset{Called(w.clock)} == w.readers;
    assert w.readers + multiset{r} - multiset{r} == w.readers;
  }

  /** Otherwise it answers with the cached list. */
  lemma HitIsItsStep(w: World)
    requires w.cache != None && w.cache.value.expiresAt > w.clock
    ensures Next(w, Call)
         == w.(answers := w.answers + [Answer(w.clock, w.clock, w.cache.value.readAt, w.cache.value.value, w.active)])
    ensures forall active :: Next(w, WriteAndInvalidate(active)).cache == None && Next(w, Write(active)).cache == w.cache
  {
  }

  /** The zones were active at an instant during the call or less than 60 s before it began. */
  predicate Recent(r: Answer, past: set<(int, multiset<Zone>)>) {
    (r.readAt, r.zones) in past && r.calledAt - 60000 < r.readAt <= r.returnedAt
  }

  ghost predicate CacheRecent(w: World) {
    && (w.clock, w.active) in w.past
    && (w.cache.Some? ==>
          && (w.cache.value.readAt, w.cache.value.value) in w.past
          && w.cache.value.expiresAt - TTL <= w.cache.value.readAt <= w.clock)
  }

  predicate ReaderRecent(r: Reader, w: World) {
    match r
    case Called(at) => at <= w.clock
    case Loaded(calledAt, readAt, zones) => (readAt, zones) in w.past && calledAt <= readAt <= w.clock
  }

  ghost predicate ReadersRecent(w: World) { forall r :: r in w.readers ==> ReaderRecent(r, w) }

  ghost predicate AllRecent(w: World) { forall k :: 0 <= k < |w.answers| ==> Recent(w.answers[k], w.past) }

  ghost predicate RecentInv(w: World) { CacheRecent(w) && ReadersRecent(w) && AllRecent(w) }

  lemma NextKeepsCache(w: World, a: Action)
    requires CacheRecent(w) && ReadersRecent(w)
    ensures CacheRecent(Next(w, a))
  {
    if a.Store? && Loaded(a.calledAt, a.readAt, a.zones) in w.readers { assert ReaderRecent(Loaded(a.calledAt, a.readAt, a.zones), w); }
  }

  lemma NextKeepsReaders(w: World, a: Action)
    requires CacheRecent(w) && ReadersRecent(w)
    ensures ReadersRecent(Next(w, a))
  {
    var w' := Next(w, a);
    forall r | r in w'.readers ensures ReaderRecent(r, w') {
      if r in w.readers { assert ReaderRecent(r, w); }
      if a.Query? && Called(a.at) in w.readers { assert ReaderRecent(Called(a.at), w); }
    }
  }

  lemma NextKeepsAnswers(w: World, a: Action)
    requires RecentInv(w)
    ensures AllRecent(Next(w, a))
  {
    if a.Store? && Loaded(a.calledAt, a.readAt, a.zones) in w.readers { assert ReaderRecent(Loaded(a.calledAt, a.readAt, a.zones), w); }
    var w' := Next(w, a);
    forall k | 0 <= k < |w'.answers| ensures Recent(w'.answers[k], w'.past) {
      if k < |w.answers| { assert Recent(w.answers[k], w.past); }
    }
  }

  lemma NextKeepsRecent(w: World, a: Action)
    requires RecentInv(w)
    ensures RecentInv(Next(w, a))
  {
    NextKeepsCache(w, a);
    NextKeepsReaders(w, a);
    NextKeepsAnswers(w, a);
  }

  lemma {:induction false} RunKeepsRecent(w: World, actions: seq<Action>)
    requires RecentInv(w)
    ensures RecentInv(Run(w, actions))
    decreases |actions|
  {
    if actions != [] {
      NextKeepsRecent(w, actions[0]);
      RunKeepsRecent(Next(w, actions[0]), actions[1..]);
    }
  }

  /** Under every interleaving, other processes' writes among them, each answer was active at an instant during its call
      or less than 60 s before it. */
  lemma AnswersAreRecent(clock: int, active: multiset<Zone>, actions: seq<Action>, k: nat)
    requires k < |Run(Start(clock, active), actions).answers|
    ensures Recent(Run(Start(clock, active), actions).answers[k], Run(Start(clock, active), actions).past)
  {
    RunKeepsRecent(Start(clock, active), actions);
  }

  // ---- When answers are exactly what is active ----

  predicate Live(w: World) { w.cache.Some? && w.cache.value.expiresAt > w.clock }

  /** Every list that can still be served or stored is the active one. */
  ghost predicate HeldCurrent(w: World) {
    (Live(w) ==> w.cache.value.value == w.active) && forall r :: r in w.readers && r.Loaded? ==> r.zones == w.active
  }

  /** The step `a` gives no answer, or one that is exactly what is active as it returns. */
  predicate AnswersWell(w: World, a: Action) {
    var answers := Next(w, a).answers;
    |answers| > |w.answers| ==> answers[|answers| - 1].zones == answers[|answers| - 1].current
  }

  /** That is what it takes: some next step answers wrongly if and only if a wrong list is held. */
  lemma HeldExactly(w: World)
    ensures HeldCurrent(w) <==> forall a :: AnswersWell(w, a)
  {
    if !HeldCurrent(w) {
      if Live(w) && w.cache.value.value != w.active {
        assert !AnswersWell(w, Call);
      } else {
        var r :| r in w.readers && r.Loaded? && r.zones != w.active;
        assert !AnswersWell(w, Store(r.calledAt, r.readAt, r.zones));
      }
    }
  }

  /** A write that changes the active set finds no reader between its query and its store and, if it does not clear the
      cache itself, no unexpired cache. */
  ghost predicate Clear(w: World, a: Action) {
    match a
    case Write(active) => active == w.active || (!Live(w) && forall r :: r in w.readers ==> r.Called?)
    case WriteAndInvalidate(active) => active == w.active || forall r :: r in w.readers ==> r.Called?
    case _ => true
  }

  lemma WriteHeldExactly(w: World, active: multiset<Zone>)
    requires HeldCurrent(w)
    ensures HeldCurrent(Next(w, Write(active))) <==> Clear(w, Write(active))
    ensures HeldCurrent(Next(w, WriteAndInvalidate(active))) <==> Clear(w, WriteAndInvalidate(active))
  {
  }

  lemma QueryKeepsHeld(w: World, at: int)
    requires HeldCurrent(w)
    ensures HeldCurrent(Next(w, Query(at)))
  {
    var w' := Next(w, Query(at));
    forall r | r in w'.readers && r.Loaded? ensures r.zones == w'.active {
      if r !in w.readers { assert r.zones == w.active; }
    }
  }

  lemma StoreKeepsHeld(w: World, calledAt: int, readAt: int, zones: multiset<Zone>)
    requires HeldCurrent(w)
    ensures HeldCurrent(Next(w, Store(calledAt, readAt, zones)))
  {
  }

  lemma OthersKeepHeld(w: World, a: Action)
    requires HeldCurrent(w) && !a.Write? && !a.WriteAndInvalidate?
    ensures HeldCurrent(Next(w, a))
  {
    match a
    case Query(at) => QueryKeepsHeld(w, at);
    case Store(calledAt, readAt, zones) => StoreKeepsHeld(w, calledAt, readAt, zones);
    case _ =>
  }

  lemma NextHeldExactly(w: World, a: Action)
    requires HeldCurrent(w)
    ensures HeldCurrent(Next(w, a)) <==> Clear(w, a)
  {
    match a
    case Write(active) => WriteHeldExactly(w, active);
    case WriteAndInvalidate(active) => WriteHeldExactly(w, active);
    case _ => OthersKeepHeld(w, a);
  }

  /** In every state of the run, whatever the next step is, its answer is current. */
  ghost predicate CurrentThroughout(w: World, actions: seq<Action>)
    decreases |actions|
  {
    (forall a :: AnswersWell(w, a)) && (actions != [] ==> CurrentThroughout(Next(w, actions[0]), actions[1..]))
  }

  ghost predicate AllClear(w: World, actions: seq<Action>)
    decreases |actions|
  {
    actions != [] ==> Clear(w, actions[0]) && AllClear(Next(w, actions[0]), actions[1..])
  }

  lemma {:induction false} HeldThroughout(w: World, actions: seq<Action>)
    requires HeldCurrent(w)
    ensures CurrentThroughout(w, actions) <==> AllClear(w, actions)
    decreases |actions|
  {
    HeldExactly(w);
    if actions != [] {
      NextHeldExactly(w, actions[0]);
      HeldExactly(Next(w, actions[0]));
      if Clear(w, actions[0]) { HeldThroughout(Next(w, actions[0]), actions[1..]); }
    }
  }

  /** Exactly when the cache never answers, and could at no point answer, anything but the zones active as it returns: in
      the runs in which every write that changes them is clear. */
  lemma AnswersCurrentExactly(clock: int, active: multiset<Zone>, actions: seq<Action>)
    ensures CurrentThroughout(Start(clock, active), actions) <==> AllClear(Start(clock, active), actions)
  {
    HeldThroughout(Start(clock, active), actions);
  }

  ghost predicate AllCurrent(w: World) { forall k :: 0 <= k < |w.answers| ==> w.answers[k].zones == w.answers[k].current }

  lemma NextAnswers(w: World, a: Action)
    requires AllCurrent(w) && AnswersWell(w, a)
    ensures AllCurrent(Next(w, a))
  {
    var w' := Next(w, a);
    forall k | 0 <= k < |w'.answers| ensures w'.answers[k].zones == w'.answers[k].current {
      if k < |w.answers| { assert w'.answers[k] == w.answers[k]; }
    }
  }

  lemma {:induction false} RunAnswers(w: World, actions: seq<Action>)
    requires AllCurrent(w) && CurrentThroughout(w, actions)
    ensures AllCurrent(Run(w, actions))
    decreases |actions|
  {
    if actions != [] {
      assert AnswersWell(w, actions[0]);
      NextAnswers(w, actions[0]);
      RunAnswers(Next(w, actions[0]), actions[1..]);
    }
  }

  /** In those runs every answer was exactly what was active as it returned. */
  lemma AnswersAreCurrent(clock: int, active: multiset<Zone>, actions: seq<Action>, k: nat)
    requires AllClear(Start(clock, active), actions) && k < |Run(Start(clock, active), actions).answers|
    ensures Run(Start(clock, active), actions).answers[k].zones == Run(Start(clock, active), actions).answers[k].current
  {
    AnswersCurrentExactly(clock, active, actions);
    RunAnswers(Start(clock, active), actions);
  }

  lemma RunStep(w: World, a: Action, rest: seq<Action>)
    ensures Run(w, [a] + rest) == Run(Next(w, a), rest)
  {
    assert ([a] + rest)[1..] == rest;
  }

  /** A call that has queried, and a write that clears the cache before the call stores. */
  function Gap(clock: int, before: multiset<Zone>, after: multiset<Zone>): seq<Action> {
    [Call] + ([Query(clock)] + ([WriteAndInvalidate(after)] + ([Store(clock, clock, before)] + [])))
  }

  lemma GapLoads(clock: int, before: multiset<Zone>)
    ensures Next(Next(Start(clock, before), Call), Query(clock)) == Start(clock, before).(readers := multiset{Loaded(clock, clock, before)})
  {
    var w0 := Start(clock, before);
    assert Next(w0, Call) == w0.(readers := multiset{} + multiset{Called(clock)});
  }

  lemma StoreAfterWrite(w: World, calledAt: int, readAt: int, before: multiset<Zone>, after: multiset<Zone>)
    requires Loaded(calledAt, readAt, before) in w.readers
    ensures
      var w' := Next(Next(w, WriteAndInvalidate(after)), Store(calledAt, readAt, before));
      && w'.cache == Some(Entry(calledAt + TTL, readAt, before)) && w'.active == after && w'.clock == w.clock
      && w'.answers == w.answers + [Answer(calledAt, w.clock, readAt, before, after)]
  {
  }

  lemma GapStores(clock: int, before: multiset<Zone>, after: multiset<Zone>)
    ensures
      var w := Run(Start(clock, before), Gap(clock, before, after));
      && w.clock == clock && w.active == after && w.cache == Some(Entry(clock + TTL, clock, before))
      && w.answers == [Answer(clock, clock, clock, before, after)]
  {
    var w0 := Start(clock, before);
    var w1 := Next(w0, Call);
    var w2 := Next(w1, Query(clock));
    var w3 := Next(w2, WriteAndInvalidate(after));
    GapLoads(clock, before);
    StoreAfterWrite(w2, clock, clock, before, after);
    RunStep(w0, Call, [Query(clock)] + ([WriteAndInvalidate(after)] + ([Store(clock, clock, before)] + [])));
    RunStep(w1, Query(clock), [WriteAndInvalidate(after)] + ([Store(clock, clock, before)] + []));
    RunStep(w2, WriteAndInvalidate(after), [Store(clock, clock, before)] + []);
    RunStep(w3, Store(clock, clock, before), []);
    assert [] + [Answer(clock, clock, clock, before, after)] == [Answer(clock, clock, clock, before, after)];
  }

  /** From an empty cache: the store undoes the write, and a later call within the TTL is served the replaced list. */
  lemma GapServesOldZones(clock: int, before: multiset<Zone>, after: multiset<Zone>, later: nat)
    requires before != after && later < TTL
    ensures
      var w := Run(Start(clock, before), Gap(clock, before, after));
      && !AllClear(Start(clock, before), Gap(clock, before, after))
      && Next(Next(w, Tick(later)), Call).answers
         == [Answer(clock, clock, clock, before, after), Answer(clock + later, clock + later, clock, before, after)]
  {
    GapStores(clock, before, after);
    if AllClear(Start(clock, before), Gap(clock, before, after)) {
      AnswersAreCurrent(clock, before, Gap(clock, before, after), 0);
    }
  }
}
