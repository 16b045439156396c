/** Status endpoints that run one at a time move a trip only forward, whatever bids, accepts and scanners do meanwhile. */
module TripAlone {
  import opened Common
  import opened TripMatching
  import opened TripRaces
  import O = TripOtp

  /** A call between its status check and its status write. */
  predicate Endpoint(op: Op) { op.Writing? || op.Verifying? || op.Confirming? }

  ghost predicate NoEndpoint(w: World) { forall op :: op in w.ops ==> !Endpoint(op) }

  /** A status endpoint starts only when none is under way. */
  ghost predicate Alone(w: World, a: Action) { a.StartMove? || a.StartVerify? ==> NoEndpoint(w) }

  ghost predicate AllAlone(w: World, actions: seq<Action>)
    decreases |actions|
  {
    actions != [] ==> Alone(w, actions[0]) && AllAlone(Next(w, actions[0]), actions[1..])
  }

  /** The status that an endpoint has checked is still there. */
  predicate StillThere(op: Op, status: Status) {
    match op
    case Writing(from, to) => Cancelled(to) || (from == status && !from.BIDDING?)
    case Verifying => status.OTP_PENDING?
    case Confirming(_) => status.OTP_PENDING?
    case _ => true
  }

  /** At most one endpoint is under way. */
  ghost predicate OneEndpoint(ops: multiset<Op>) {
    forall op :: op in ops && Endpoint(op) ==> ops[op] == 1 && forall p :: p in ops && Endpoint(p) ==> p == op
  }

  ghost predicate ChecksHold(w: World) { forall op :: op in w.ops ==> StillThere(op, w.trip.status) }

  ghost predicate AloneInv(w: World) { OneEndpoint(w.ops) && ChecksHold(w) }

  lemma DropKeeps(w: World, op: Op)
    requires AloneInv(w)
    ensures AloneInv(Drop(w, op)) && (op in w.ops && Endpoint(op) ==> NoEndpoint(Drop(w, op)))
  {
    var v := Drop(w, op);
    forall p | p in v.ops ensures p in w.ops && v.ops[p] <= w.ops[p] {}
    if op in w.ops && Endpoint(op) {
      forall p | p in v.ops ensures !Endpoint(p) { assert p in w.ops && p != op; }
    }
  }

  lemma BeginKeeps(w: World, op: Op)
    requires AloneInv(w) && StillThere(op, w.trip.status) && (Endpoint(op) ==> NoEndpoint(w))
    ensures AloneInv(Begin(w, op))
  {
    var v := Begin(w, op);
    forall p | p in v.ops ensures p == op || p in w.ops {}
    forall p | p in v.ops && Endpoint(p) ensures v.ops[p] == 1 && forall q :: q in v.ops && Endpoint(q) ==> q == p {
      if Endpoint(op) { assert p == op && w.ops[op] == 0; }
    }
  }

  /** What takes a trip out of BIDDING disturbs no endpoint. */
  lemma LeavingBiddingKeeps(w: World, t: Trip)
    requires AloneInv(w) && (t.status == w.trip.status || w.trip.status.BIDDING?)
    ensures AloneInv(Written(w, t))
  {
  }

  lemma WriteKeeps(w: World, from: Status, to: Status)
    requires AloneInv(w) && Writing(from, to) in w.ops
    ensures AloneInv(Finished(w, Writing(from, to)))
  {
    var v := Drop(w, Writing(from, to));
    DropKeeps(w, Writing(from, to));
    var t := Written(v, w.trip.(status := to));
    assert t.ops == v.ops;
    forall p | p in t.ops ensures StillThere(p, to) { assert !Endpoint(p); }
    BeginKeeps(t, Issuing);
  }

  lemma ConfirmKeeps(w: World, now: int)
    requires AloneInv(w) && Confirming(now) in w.ops
    ensures AloneInv(Finished(w, Confirming(now)))
  {
    DropKeeps(w, Confirming(now));
    var v := Drop(w, Confirming(now)).(otp := O.Verified(w.otp, now));
    assert StillThere(Confirming(now), w.trip.status);
    BeginKeeps(v, Writing(OTP_PENDING, IN_PROGRESS));
  }

  lemma FinishKeeps(w: World, op: Op)
    requires AloneInv(w) && op in w.ops
    ensures AloneInv(Finished(w, op))
  {
    DropKeeps(w, op);
    match op
    case Selecting(best) => LeavingBiddingKeeps(Drop(w, op), Match(w.trip, best.driver, best.price, AUTO_SELECTED));
    case Expiring => LeavingBiddingKeeps(Drop(w, op), Expire(w.trip));
    case Writing(from, to) => WriteKeeps(w, from, to);
    case Confirming(now) => ConfirmKeeps(w, now);
    case _ =>
  }

  lemma CheckKeeps(w: World, guess: string, now: int)
    requires AloneInv(w) && Verifying in w.ops
    ensures AloneInv(Checked(w, guess, now))
  {
    DropKeeps(w, Verifying);
    assert StillThere(Verifying, w.trip.status);
    var v := Drop(w, Verifying);
    BeginKeeps(v, Missing);
    BeginKeeps(v, Confirming(now));
  }

  lemma StartKeeps(w: World, a: Action)
    requires AloneInv(w) && Alone(w, a) && (a.StartMove? || a.StartVerify?)
    ensures AloneInv(Next(w, a))
  {
    if a.StartVerify? {
      if w.trip.status.OTP_PENDING? { BeginKeeps(w, Verifying); }
    } else if MayWrite(w.trip.status, a.to, a.safety) {
      BeginKeeps(w, Writing(w.trip.status, a.to));
    }
  }

  lemma NextKeepsAlone(w: World, a: Action)
    requires AloneInv(w) && Alone(w, a)
    ensures AloneInv(Next(w, a))
  {
    match a
    case StartBid(driver, price, eta) => BeginKeeps(w, Bidding(driver, price, eta));
    case Accept(caller, winner) => LeavingBiddingKeeps(w, AcceptBid(w.trip, caller, winner));
    case ReadBids(order) =>
      BeginKeeps(w, Expiring);
      if order != [] { BeginKeeps(w, Selecting(Best(order, |order|))); }
    case CheckOtp(guess, now) => if Verifying in w.ops { CheckKeeps(w, guess, now); }
    case IssueOtp(_, _) => DropKeeps(w, Issuing);
    case Finish(op) => if op in w.ops { FinishKeeps(w, op); }
    case Lose(op) => DropKeeps(w, op);
    case _ => StartKeeps(w, a);
  }

  lemma {:induction false} RunAloneIsGuarded(w: World, actions: seq<Action>)
    requires AloneInv(w) && AllAlone(w, actions)
    ensures AllGuarded(w, actions)
    decreases |actions|
  {
    if actions != [] {
      NextKeepsAlone(w, actions[0]);
      RunAloneIsGuarded(Next(w, actions[0]), actions[1..]);
    }
  }

  /** With status endpoints one at a time, the statuses of a trip rise in rank, and a completed trip took exactly the six
      steps. */
  lemma AloneRises(passenger: User, priceBase: int, actions: seq<Action>)
    requires AllAlone(Requested(passenger, priceBase), actions)
    ensures AllGuarded(Requested(passenger, priceBase), actions)
    ensures
      var w := Run(Requested(passenger, priceBase), actions);
      Rising(w.path) && (w.trip.status.COMPLETED? ==> w.path == HAPPY_PATH)
  {
    RunAloneIsGuarded(Requested(passenger, priceBase), actions);
    RisesExactly(passenger, priceBase, actions);
    if Run(Requested(passenger, priceBase), actions).trip.status.COMPLETED? { CompletedTookAllSteps(passenger, priceBase, actions); }
  }
}
