/** Every interleaving of bids, accepts, auto-match scanners, status endpoints and code verifications on one trip. Reads are
    split from writes wherever the source awaits between them; the passenger's accept is one transaction and one step. */
module TripRaces {
  import opened Common
  import opened TripMatching
  import O = TripOtp

  datatype Offer = Offer(driver: User, price: int)

  /** A request between its last read and its write. */
  datatype Op =
    | Bidding(driver: User, price: int, eta: Option<int>)
    | Selecting(best: Bid)
    | Expiring
    | Writing(from: Status, to: Status)
    | Issuing
    | Verifying
    | Missing
    | Confirming(now: int)

  /** A verification that saw the right code: the row it saw, and how long the path was by then. */
  datatype Hit = Hit(at: nat, otp: O.Otp, guess: string, now: int)

  /** `offers` are all bids ever written, `path` all statuses ever written and `hits` all right codes ever seen, oldest
      first; the three are history. */
  datatype World = World(trip: Trip, otp: Option<O.Otp>, ops: multiset<Op>, offers: set<Offer>, path: seq<Status>, hits: seq<Hit>)

  function Requested(passenger: User, priceBase: int): World {
    World(Trip(BIDDING, passenger, None, None, priceBase, map[]), None, multiset{}, {}, [BIDDING], [])
  }

  datatype Action =
    | StartBid(driver: User, price: int, eta: Option<int>)
    | Accept(caller: User, winner: User)
    | ReadBids(order: seq<Bid>)
    | StartMove(to: Status, caller: User, safety: bool)
    | StartVerify(caller: User)
    | CheckOtp(guess: string, now: int)
    | IssueOtp(code: string, now: int)
    | Finish(op: Op)
    | Lose(op: Op)

  function Begin(w: World, op: Op): World { w.(ops := w.ops + multiset{op}) }

  function Drop(w: World, op: Op): World { w.(ops := w.ops - multiset{op}) }

  /** The trip after a write, with the new status recorded. */
  function Written(w: World, t: Trip): World {
    w.(trip := t, path := if t.status != w.trip.status then w.path + [t.status] else w.path)
  }

  /** One look at the code row: a right code is confirmed next, a wrong one counted, anything else refused. */
  function Checked(w: World, guess: string, now: int): World {
    var v := Drop(w, Verifying);
    match O.Judge(w.otp, guess, now)
    case Refused => v
    case Miss(_) => Begin(v, Missing)
    case Hit => Begin(v, Confirming(now)).(hits := w.hits + [Hit(|w.path|, w.otp.value, guess, now)])
  }

  function Finished(w: World, op: Op): World {
    var v := Drop(w, op);
    match op
    case Bidding(driver, price, eta) => v.(trip := PlaceBid(w.trip, driver, price, eta), offers := w.offers + {Offer(driver, price)})
    case Selecting(best) => Written(v, Match(w.trip, best.driver, best.price, AUTO_SELECTED))
    case Expiring => Written(v, Expire(w.trip))
    case Writing(_, to) =>
      var t := Written(v, w.trip.(status := to));
      if to.OTP_PENDING? then Begin(t, Issuing) else t
    case Missing => v.(otp := O.Missed(w.otp))
    case Confirming(now) => Begin(v.(otp := O.Verified(w.otp, now)), Writing(OTP_PENDING, IN_PROGRESS))
    case _ => w
  }

  ghost function Next(w: World, a: Action): World {
    match a
    case StartBid(driver, price, eta) =>
      if w.trip.status.BIDDING? && InRange(price, w.trip.priceBase) then Begin(w, Bidding(driver, price, eta)) else w
    case Accept(caller, winner) => Written(w, AcceptBid(w.trip, caller, winner))
    case ReadBids(order) =>
      if !IsPendingList(order, w.trip.bids) then w
      else if order == [] then Begin(w, Expiring) else Begin(w, Selecting(Best(order, |order|)))
    case StartMove(to, caller, safety) =>
      if !to.IN_PROGRESS? && Authorised(w.trip, to, caller) && MayWrite(w.trip.status, to, safety)
      then Begin(w, Writing(w.trip.status, to)) else w
    case StartVerify(caller) =>
      if Authorised(w.trip, IN_PROGRESS, caller) && MayWrite(w.trip.status, IN_PROGRESS, false) then Begin(w, Verifying) else w
    case CheckOtp(guess, now) => if Verifying in w.ops then Checked(w, guess, now) else w
    case IssueOtp(code, now) => if Issuing in w.ops then Drop(w, Issuing).(otp := O.Issued(code, now)) else w
    case Finish(op) => if op in w.ops then Finished(w, op) else w
    case Lose(op) => Drop(w, op)
  }

  ghost function Run(w: World, actions: seq<Action>): World
    decreases |actions|
  {
    if actions == [] then w else Run(Next(w, actions[0]), actions[1..])
  }

  predicate Won(b: Bid) { b.status.ACCEPTED? || b.status.AUTO_SELECTED? }

  /** Either nobody has won and no driver or price is set, or the one winner is the trip's driver and the final price
      is an offer of that driver. */
  ghost predicate OneWinner(t: Trip, offers: set<Offer>) {
    match t.driver
    case None => t.priceFinal.None? && forall d :: d in t.bids ==> !Won(t.bids[d])
    case Some(winner) =>
      && winner in t.bids && (forall d :: d in t.bids ==> (Won(t.bids[d]) <==> d == winner))
      && t.priceFinal.Some? && Offer(winner, t.priceFinal.value) in offers
  }

  /** What a request under way may rely on: bids are never deleted, offers never forgotten. */
  predicate OpOk(op: Op, t: Trip, offers: set<Offer>) {
    match op
    case Bidding(_, price, _) => InRange(price, t.priceBase)
    case Selecting(best) => best.driver in t.bids && Offer(best.driver, best.price) in offers
    case Writing(_, to) => !to.BIDDING?
    case _ => true
  }

  ghost predicate OpsOk(w: World) { forall op :: op in w.ops ==> OpOk(op, w.trip, w.offers) }

  ghost predicate BidsOffered(t: Trip, offers: set<Offer>) {
    && (forall o :: o in offers ==> InRange(o.price, t.priceBase))
    && (forall d :: d in t.bids ==> t.bids[d].driver == d && Offer(d, t.bids[d].price) in offers)
  }

  ghost predicate Inv(w: World) {
    && OneWinner(w.trip, w.offers) && (w.trip.status.BIDDING? ==> w.trip.driver.None?)
    && BidsOffered(w.trip, w.offers) && OpsOk(w)
  }

  lemma BeginKeepsInv(w: World, op: Op)
    requires Inv(w) && OpOk(op, w.trip, w.offers)
    ensures Inv(Begin(w, op))
  {
  }

  lemma MatchKeepsInv(w: World, winner: User, price: int, status: BidStatus)
    requires Inv(w) && winner in w.trip.bids && Offer(winner, price) in w.offers && (status.ACCEPTED? || status.AUTO_SELECTED?)
    ensures Inv(Written(w, Match(w.trip, winner, price, status)))
  {
  }

  lemma PlaceBidKeepsInv(w: World, driver: User, price: int, eta: Option<int>)
    requires Inv(w) && InRange(price, w.trip.priceBase)
    ensures Inv(w.(trip := PlaceBid(w.trip, driver, price, eta), offers := w.offers + {Offer(driver, price)}))
  {
    var t, offers := PlaceBid(w.trip, driver, price, eta), w.offers + {Offer(driver, price)};
    assert OneWinner(t, offers);
    assert BidsOffered(t, offers);
    forall op | op in w.ops ensures OpOk(op, t, offers) { assert OpOk(op, w.trip, w.offers); }
  }

  lemma StatusKeepsInv(w: World, to: Status)
    requires Inv(w) && !to.BIDDING?
    ensures Inv(Written(w, w.trip.(status := to)))
  {
    forall op | op in w.ops ensures OpOk(op, w.trip.(status := to), w.offers) { assert OpOk(op, w.trip, w.offers); }
  }

  lemma DropKeepsInv(w: World, op: Op)
    requires Inv(w)
    ensures Inv(Drop(w, op))
  {
  }

  /** The code row and the hits have no part in it. */
  lemma OtpKeepsInv(w: World, otp: Option<O.Otp>, hits: seq<Hit>)
    requires Inv(w)
    ensures Inv(w.(otp := otp, hits := hits))
  {
  }

  lemma FinishKeepsInv(w: World, op: Op)
    requires Inv(w) && op in w.ops
    ensures Inv(Finished(w, op))
  {
    var v := Drop(w, op);
    DropKeepsInv(w, op);
    assert OpOk(op, w.trip, w.offers);
    match op
    case Bidding(driver, price, eta) => PlaceBidKeepsInv(v, driver, price, eta);
    case Selecting(best) => MatchKeepsInv(v, best.driver, best.price, AUTO_SELECTED);
    case Expiring => StatusKeepsInv(v, EXPIRED_NO_DRIVER);
    case Writing(_, to) =>
      StatusKeepsInv(v, to);
      BeginKeepsInv(Written(v, w.trip.(status := to)), Issuing);
    case Missing => OtpKeepsInv(v, O.Missed(w.otp), v.hits);
    case Confirming(now) =>
      OtpKeepsInv(v, O.Verified(w.otp, now), v.hits);
      BeginKeepsInv(v.(otp := O.Verified(w.otp, now)), Writing(OTP_PENDING, IN_PROGRESS));
    case _ =>
  }

  lemma CheckKeepsInv(w: World, guess: string, now: int)
    requires Inv(w)
    ensures Inv(Checked(w, guess, now))
  {
    var v := Drop(w, Verifying);
    DropKeepsInv(w, Verifying);
    BeginKeepsInv(v, Missing);
    BeginKeepsInv(v, Confirming(now));
    OtpKeepsInv(Begin(v, Confirming(now)), w.otp, Checked(w, guess, now).hits);
  }

  lemma NextKeepsInv(w: World, a: Action)
    requires Inv(w)
    ensures Inv(Next(w, a))
  {
    match a
    case StartBid(driver, price, eta) =>
      if InRange(price, w.trip.priceBase) { BeginKeepsInv(w, Bidding(driver, price, eta)); }
    case Accept(caller, winner) =>
      if winner in w.trip.bids { MatchKeepsInv(w, winner, w.trip.bids[winner].price, ACCEPTED); }
    case ReadBids(order) => if IsPendingList(order, w.trip.bids) { ReadKeepsInv(w, order); }
    case StartMove(to, caller, safety) =>
      if MayWrite(w.trip.status, to, safety) { BeginKeepsInv(w, Writing(w.trip.status, to)); }
    case StartVerify(caller) => BeginKeepsInv(w, Verifying);
    case CheckOtp(guess, now) => CheckKeepsInv(w, guess, now);
    case IssueOtp(code, now) =>
      DropKeepsInv(w, Issuing);
      OtpKeepsInv(Drop(w, Issuing), O.Issued(code, now), w.hits);
    case Finish(op) =>
      if op in w.ops { FinishKeepsInv(w, op); }
    case Lose(op) => DropKeepsInv(w, op);
  }

  lemma ReadKeepsInv(w: World, order: seq<Bid>)
    requires Inv(w) && IsPendingList(order, w.trip.bids)
    ensures Inv(Next(w, ReadBids(order)))
  {
    if order == [] {
      BeginKeepsInv(w, Expiring);
    } else {
      var k := BestIsFirstLeast(order, |order|);
      assert order[k] in order;
      BeginKeepsInv(w, Selecting(order[k]));
    }
  }

  lemma NextKeepsWinner(w: World, a: Action)
    requires w.trip.driver.Some? && !w.trip.status.BIDDING?
    ensures Next(w, a).trip.driver == w.trip.driver && Next(w, a).trip.priceFinal == w.trip.priceFinal
  {
  }

  lemma {:induction false} RunKeepsInv(w: World, actions: seq<Action>)
    requires Inv(w)
    ensures Inv(Run(w, actions))
    ensures w.trip.driver.Some? ==> Run(w, actions).trip.driver == w.trip.driver && Run(w, actions).trip.priceFinal == w.trip.priceFinal
    decreases |actions|
  {
    if actions != [] {
      NextKeepsInv(w, actions[0]);
      if w.trip.driver.Some? { NextKeepsWinner(w, actions[0]); }
      RunKeepsInv(Next(w, actions[0]), actions[1..]);
    }
  }

  /** Single winner, for every interleaving: at most one bid is ever ACCEPTED or AUTO_SELECTED, its driver is the trip's
      driver, and the final price is an in-range offer that driver made. */
  lemma SingleWinner(passenger: User, priceBase: int, actions: seq<Action>)
    ensures
      var w := Run(Requested(passenger, priceBase), actions);
      && (forall d, e :: d in w.trip.bids && e in w.trip.bids && Won(w.trip.bids[d]) && Won(w.trip.bids[e]) ==> d == e)
      && (forall d :: d in w.trip.bids && Won(w.trip.bids[d]) ==> w.trip.driver == Some(d))
      && (w.trip.driver.Some? ==>
            && w.trip.driver.value in w.trip.bids && Won(w.trip.bids[w.trip.driver.value])
            && w.trip.priceFinal.Some? && Offer(w.trip.driver.value, w.trip.priceFinal.value) in w.offers
            && InRange(w.trip.priceFinal.value, w.trip.priceBase))
  {
    RunKeepsInv(Requested(passenger, priceBase), actions);
  }

  /** Once decided, the driver and the price never change, whatever requests are still under way. */
  lemma WinnerIsFinal(passenger: User, priceBase: int, before: seq<Action>, after: seq<Action>)
    requires Run(Requested(passenger, priceBase), before).trip.driver.Some?
    ensures
      var w := Run(Requested(passenger, priceBase), before);
      Run(w, after).trip.driver == w.trip.driver && Run(w, after).trip.priceFinal == w.trip.priceFinal
  {
    RunKeepsInv(Requested(passenger, priceBase), before);
    RunKeepsInv(Run(Requested(passenger, priceBase), before), after);
  }

  // ---- Progress ----

  /** The status that must have been written before `s` can be. */
  function Before(s: Status): Option<Status> {
    match s
    case MATCHED => Some(BIDDING)
    case DRIVER_EN_ROUTE => Some(MATCHED)
    case OTP_PENDING => Some(DRIVER_EN_ROUTE)
    case IN_PROGRESS => Some(OTP_PENDING)
    case COMPLETED => Some(IN_PROGRESS)
    case EXPIRED_NO_DRIVER => Some(BIDDING)
    case _ => None
  }

  predicate Seen(path: seq<Status>, n: nat, s: Status)
    requires n <= |path|
  {
    exists j :: 0 <= j < n && path[j] == s
  }

  /** No milestone without the one before it, earlier in the path. */
  ghost predicate InOrder(path: seq<Status>) {
    && path != [] && path[0] == BIDDING
    && forall i :: 0 <= i < |path| && Before(path[i]).Some? ==> Seen(path, i, Before(path[i]).value)
  }

  /** Seen after the trip had arrived, with the right guess, in time and below five misses. */
  predicate HitOk(h: Hit, path: seq<Status>) {
    && h.at <= |path| && Seen(path, h.at, OTP_PENDING)
    && h.guess == h.otp.code && h.now <= h.otp.expiresAt && h.otp.attempts < 5
  }

  predicate HitBy(hits: seq<Hit>, n: nat) { exists k :: 0 <= k < |hits| && hits[k].at <= n }

  /** What a request under way has seen. */
  predicate Follows(op: Op, path: seq<Status>, hits: seq<Hit>) {
    match op
    case Writing(from, to) =>
      && Seen(path, |path|, from) && (MayWrite(from, to, true) || MayWrite(from, to, false))
      && (to.IN_PROGRESS? ==> HitBy(hits, |path|))
    case Verifying => Seen(path, |path|, OTP_PENDING)
    case Confirming(_) => Seen(path, |path|, OTP_PENDING) && HitBy(hits, |path|)
    case _ => true
  }

  ghost predicate OpsFollow(ops: multiset<Op>, path: seq<Status>, hits: seq<Hit>) { forall op :: op in ops ==> Follows(op, path, hits) }

  ghost predicate HitsOk(hits: seq<Hit>, path: seq<Status>) { forall k :: 0 <= k < |hits| ==> HitOk(hits[k], path) }

  /** No start without a hit before it. */
  ghost predicate StartsHit(path: seq<Status>, hits: seq<Hit>) {
    forall v :: 0 <= v < |path| && path[v] == IN_PROGRESS ==> HitBy(hits, v)
  }

  ghost predicate PathOk(path: seq<Status>, status: Status) { InOrder(path) && path[|path| - 1] == status }

  ghost predicate PathInv(w: World) {
    PathOk(w.path, w.trip.status) && OpsFollow(w.ops, w.path, w.hits) && HitsOk(w.hits, w.path) && StartsHit(w.path, w.hits)
  }

  lemma SeenGrows(path: seq<Status>, n: nat, more: seq<Status>, s: Status)
    requires n <= |path| && Seen(path, n, s)
    ensures Seen(path + more, n, s) && Seen(path + more, |path + more|, s)
  {
    var j :| 0 <= j < n && path[j] == s;
    assert (path + more)[j] == s;
  }

  lemma PathExtends(path: seq<Status>, s: Status)
    requires InOrder(path) && (Before(s).Some? ==> Seen(path, |path|, Before(s).value))
    ensures PathOk(path + [s], s)
  {
    var ext := path + [s];
    forall i | 0 <= i < |ext| && Before(ext[i]).Some? ensures Seen(ext, i, Before(ext[i]).value) {
      if i < |path| { SeenGrows(path, i, [s], Before(path[i]).value); } else { SeenGrows(path, |path|, [s], Before(s).value); }
    }
  }

  lemma HitByLater(hits: seq<Hit>, more: seq<Hit>, n: nat, m: nat)
    requires HitBy(hits, n) && n <= m
    ensures HitBy(hits + more, m)
  {
    var k :| 0 <= k < |hits| && hits[k].at <= n;
    assert (hits + more)[k] == hits[k];
  }

  lemma FollowsLater(op: Op, path: seq<Status>, hits: seq<Hit>, s: seq<Status>, h: seq<Hit>)
    requires Follows(op, path, hits)
    ensures Follows(op, path + s, hits + h)
  {
    match op
    case Writing(from, to) =>
      SeenGrows(path, |path|, s, from);
      if to.IN_PROGRESS? { HitByLater(hits, h, |path|, |path + s|); }
    case Verifying => SeenGrows(path, |path|, s, OTP_PENDING);
    case Confirming(_) =>
      SeenGrows(path, |path|, s, OTP_PENDING);
      HitByLater(hits, h, |path|, |path + s|);
    case _ =>
  }

  lemma OpsFollowLater(ops: multiset<Op>, path: seq<Status>, hits: seq<Hit>, s: seq<Status>, h: seq<Hit>)
    requires OpsFollow(ops, path, hits)
    ensures OpsFollow(ops, path + s, hits + h)
  {
    forall op | op in ops ensures Follows(op, path + s, hits + h) {
      assert Follows(op, path, hits);
      FollowsLater(op, path, hits, s, h);
    }
  }

  lemma HitsGrow(hits: seq<Hit>, path: seq<Status>, s: Status)
    requires HitsOk(hits, path) && StartsHit(path, hits) && (s.IN_PROGRESS? ==> HitBy(hits, |path|))
    ensures HitsOk(hits, path + [s]) && StartsHit(path + [s], hits)
  {
    forall k | 0 <= k < |hits| ensures HitOk(hits[k], path + [s]) { SeenGrows(path, hits[k].at, [s], OTP_PENDING); }
  }

  lemma WrittenKeepsPath(w: World, t: Trip)
    requires PathInv(w)
    requires t.status != w.trip.status ==>
               && (Before(t.status).Some? ==> Seen(w.path, |w.path|, Before(t.status).value))
               && (t.status.IN_PROGRESS? ==> HitBy(w.hits, |w.path|))
    ensures PathInv(Written(w, t))
  {
    if t.status != w.trip.status {
      PathExtends(w.path, t.status);
      HitsGrow(w.hits, w.path, t.status);
      OpsFollowLater(w.ops, w.path, w.hits, [t.status], []);
      assert w.hits + [] == w.hits;
    }
  }

  lemma LastIsSeen(w: World)
    requires PathInv(w)
    ensures Seen(w.path, |w.path|, w.trip.status)
  {
    assert w.path[|w.path| - 1] == w.trip.status;
  }

  lemma MatchedKeepsPath(w: World, winner: User, price: int, status: BidStatus)
    requires PathInv(w)
    ensures PathInv(Written(w, Match(w.trip, winner, price, status)))
  {
    LastIsSeen(w);
    WrittenKeepsPath(w, Match(w.trip, winner, price, status));
  }

  lemma ExpiredKeepsPath(w: World)
    requires PathInv(w)
    ensures PathInv(Written(w, Expire(w.trip)))
  {
    LastIsSeen(w);
    WrittenKeepsPath(w, Expire(w.trip));
  }

  lemma WrittenFollows(w: World, from: Status, to: Status)
    requires PathInv(w) && Follows(Writing(from, to), w.path, w.hits)
    ensures PathInv(Written(w, w.trip.(status := to)))
  {
    WrittenKeepsPath(w, w.trip.(status := to));
  }

  lemma DropKeepsPath(w: World, op: Op)
    requires PathInv(w)
    ensures PathInv(Drop(w, op))
  {
    forall o | o in Drop(w, op).ops ensures Follows(o, w.path, w.hits) { assert o in w.ops; }
  }

  lemma BeginKeepsPath(w: World, op: Op)
    requires PathInv(w) && Follows(op, w.path, w.hits)
    ensures PathInv(Begin(w, op))
  {
    forall o | o in Begin(w, op).ops ensures Follows(o, w.path, w.hits) { assert o == op || o in w.ops; }
  }

  lemma OtpKeepsPath(w: World, otp: Option<O.Otp>)
    requires PathInv(w)
    ensures PathInv(w.(otp := otp))
  {
  }

  lemma FinishKeepsPath(w: World, op: Op)
    requires PathInv(w) && op in w.ops
    ensures PathInv(Finished(w, op))
  {
    var v := Drop(w, op);
    DropKeepsPath(w, op);
    assert Follows(op, w.path, w.hits);
    match op
    case Bidding(driver, price, eta) =>
    case Selecting(best) => MatchedKeepsPath(v, best.driver, best.price, AUTO_SELECTED);
    case Expiring => ExpiredKeepsPath(v);
    case Writing(from, to) =>
      WrittenFollows(v, from, to);
      BeginKeepsPath(Written(v, w.trip.(status := to)), Issuing);
    case Missing => OtpKeepsPath(v, O.Missed(w.otp));
    case Confirming(now) =>
      OtpKeepsPath(v, O.Verified(w.otp, now));
      BeginKeepsPath(v.(otp := O.Verified(w.otp, now)), Writing(OTP_PENDING, IN_PROGRESS));
    case _ =>
  }

  lemma HitKeepsPath(w: World, h: Hit)
    requires PathInv(w) && HitOk(h, w.path)
    ensures PathInv(w.(hits := w.hits + [h]))
  {
    OpsFollowLater(w.ops, w.path, w.hits, [], [h]);
    assert w.path + [] == w.path;
    forall v | 0 <= v < |w.path| && w.path[v] == IN_PROGRESS ensures HitBy(w.hits + [h], v) { HitByLater(w.hits, [h], v, v); }
  }

  lemma CheckKeepsPath(w: World, guess: string, now: int)
    requires PathInv(w) && Verifying in w.ops
    ensures PathInv(Checked(w, guess, now))
  {
    var v := Drop(w, Verifying);
    DropKeepsPath(w, Verifying);
    assert Follows(Verifying, w.path, w.hits);
    match O.Judge(w.otp, guess, now)
    case Refused =>
    case Miss(_) => BeginKeepsPath(v, Missing);
    case Hit =>
      var h := Hit(|w.path|, w.otp.value, guess, now);
      HitKeepsPath(v, h);
      var u := v.(hits := w.hits + [h]);
      assert u.hits[|w.hits|].at <= |w.path|;
      BeginKeepsPath(u, Confirming(now));
  }

  lemma StartKeepsPath(w: World, a: Action)
    requires PathInv(w) && (a.StartMove? || a.StartVerify?)
    ensures PathInv(Next(w, a))
  {
    LastIsSeen(w);
    if a.StartMove? {
      if !a.to.IN_PROGRESS? && MayWrite(w.trip.status, a.to, a.safety) { BeginKeepsPath(w, Writing(w.trip.status, a.to)); }
    } else if w.trip.status.OTP_PENDING? {
      BeginKeepsPath(w, Verifying);
    }
  }

  lemma NextKeepsPath(w: World, a: Action)
    requires PathInv(w)
    ensures PathInv(Next(w, a))
  {
    match a
    case StartBid(driver, price, eta) => BeginKeepsPath(w, Bidding(driver, price, eta));
    case Accept(caller, winner) =>
      if winner in w.trip.bids { MatchedKeepsPath(w, winner, w.trip.bids[winner].price, ACCEPTED); }
    case ReadBids(order) =>
      BeginKeepsPath(w, Expiring);
      if order != [] { BeginKeepsPath(w, Selecting(Best(order, |order|))); }
    case StartMove(_, _, _) => StartKeepsPath(w, a);
    case StartVerify(_) => StartKeepsPath(w, a);
    case CheckOtp(guess, now) => if Verifying in w.ops { CheckKeepsPath(w, guess, now); }
    case IssueOtp(code, now) =>
      DropKeepsPath(w, Issuing);
      OtpKeepsPath(Drop(w, Issuing), O.Issued(code, now));
    case Finish(op) =>
      if op in w.ops { FinishKeepsPath(w, op); }
    case Lose(op) => DropKeepsPath(w, op);
  }

  lemma {:induction false} RunKeepsPath(w: World, actions: seq<Action>)
    requires PathInv(w)
    ensures PathInv(Run(w, actions))
    decreases |actions|
  {
    if actions != [] {
      NextKeepsPath(w, actions[0]);
      RunKeepsPath(Next(w, actions[0]), actions[1..]);
    }
  }

  lemma Earlier(path: seq<Status>, i: nat) returns (j: nat)
    requires InOrder(path) && i < |path| && Before(path[i]).Some?
    ensures j < i && path[j] == Before(path[i]).value
  {
    j :| 0 <= j < i && path[j] == Before(path[i]).value;
  }

  /** Matched, en route, arrived, started and completed, at growing positions. */
  predicate Milestones(path: seq<Status>, m: nat, e: nat, o: nat, v: nat, c: nat) {
    && 0 < m < e < o < v < c < |path| && path[m] == MATCHED && path[e] == DRIVER_EN_ROUTE
    && path[o] == OTP_PENDING && path[v] == IN_PROGRESS && path[c] == COMPLETED
  }

  /** And a right code seen between the arrival and the start. */
  predicate Verified(path: seq<Status>, hits: seq<Hit>, m: nat, e: nat, o: nat, k: nat, v: nat, c: nat) {
    Milestones(path, m, e, o, v, c) && k < |hits| && o < hits[k].at <= v && HitOk(hits[k], path)
  }

  lemma OrderGivesMilestones(path: seq<Status>, hits: seq<Hit>, c: nat) returns (m: nat, e: nat, o: nat, k: nat, v: nat)
    requires InOrder(path) && HitsOk(hits, path) && StartsHit(path, hits) && c < |path| && path[c] == COMPLETED
    ensures Verified(path, hits, m, e, o, k, v, c)
  {
    v := Earlier(path, c);
    assert HitBy(hits, v);
    k :| k < |hits| && hits[k].at <= v;
    assert HitOk(hits[k], path);
    o :| o < hits[k].at && path[o] == OTP_PENDING;
    e := Earlier(path, o);
    m := Earlier(path, e);
  }

  /** Even with every write racing every read, a completed trip was matched, en route, arrived, then a verification saw the
      right, unexpired code on a row with fewer than five misses, then it started, and then it was completed. */
  lemma CompletedInOrder(passenger: User, priceBase: int, actions: seq<Action>, c: nat)
    requires c < |Run(Requested(passenger, priceBase), actions).path| && Run(Requested(passenger, priceBase), actions).path[c] == COMPLETED
    ensures
      var w := Run(Requested(passenger, priceBase), actions);
      exists m, e, o, k, v :: Verified(w.path, w.hits, m, e, o, k, v, c)
  {
    RunKeepsPath(Requested(passenger, priceBase), actions);
    var w := Run(Requested(passenger, priceBase), actions);
    var m, e, o, k, v := OrderGivesMilestones(w.path, w.hits, c);
  }

  // ---- Rank ----

  /** The path never turns back, except from one cancellation to the other. */
  ghost predicate Rising(path: seq<Status>) {
    forall i :: 0 < i < |path| ==> Rank(path[i - 1]) < Rank(path[i]) || (Cancelled(path[i - 1]) && Cancelled(path[i]))
  }

  /** The guard on a status write: its check still holds, or the status is there already, or it cancels. */
  predicate Guarded(w: World, a: Action) {
    a.Finish? && a.op in w.ops && a.op.Writing? ==> a.op.from == w.trip.status || a.op.to == w.trip.status || Cancelled(a.op.to)
  }

  lemma RanksCount(path: seq<Status>, i: nat, j: nat)
    requires Rising(path) && i <= j < |path| && !Cancelled(path[j])
    ensures Rank(path[i]) + (j - i) <= Rank(path[j])
    decreases j - i
  {
    if i < j {
      assert Rank(path[j - 1]) < Rank(path[j]);
      RanksCount(path, i, j - 1);
    }
  }

  /** A write past its check, to a milestone the trip is not at, goes down or stays level. */
  lemma StaleFalls(path: seq<Status>, from: Status, to: Status)
    requires Rising(path) && path != [] && Seen(path, |path|, from) && (MayWrite(from, to, true) || MayWrite(from, to, false))
    requires from != path[|path| - 1] && !Cancelled(to)
    ensures Rank(to) <= Rank(path[|path| - 1])
  {
    var last := |path| - 1;
    var j :| 0 <= j < |path| && path[j] == from;
    if !Cancelled(path[last]) { RanksCount(path, j, last); }
  }

  lemma RisingExtends(path: seq<Status>, s: Status)
    requires Rising(path) && path != [] && s != path[|path| - 1]
    ensures Rising(path + [s]) <==> Rank(path[|path| - 1]) < Rank(s) || (Cancelled(path[|path| - 1]) && Cancelled(s))
  {
    var ext := path + [s];
    assert ext[|path| - 1] == path[|path| - 1] && ext[|path|] == s;
  }

  /** `from` was seen on a rising path that now ends in `at`: writing `to` rises exactly when guarded. */
  lemma MoveRisesExactly(path: seq<Status>, at: Status, from: Status, to: Status)
    requires Rising(path) && path != [] && path[|path| - 1] == at && to != at
    requires Seen(path, |path|, from) && (MayWrite(from, to, true) || MayWrite(from, to, false))
    ensures Rising(path + [to]) <==> from == at || Cancelled(to)
  {
    RisingExtends(path, to);
    if from != at && !Cancelled(to) { StaleFalls(path, from, to); }
  }

  lemma WriteRisesExactly(w: World, from: Status, to: Status)
    requires PathInv(w) && Rising(w.path) && Writing(from, to) in w.ops
    ensures Rising(Finished(w, Writing(from, to)).path) <==> Guarded(w, Finish(Writing(from, to)))
  {
    assert Follows(Writing(from, to), w.path, w.hits);
    if to != w.trip.status {
      assert Finished(w, Writing(from, to)).path == w.path + [to];
      MoveRisesExactly(w.path, w.trip.status, from, to);
    }
  }

  /** Only a status write can go anywhere but up. */
  lemma OthersClimb(w: World, a: Action)
    requires !(a.Finish? && a.op in w.ops && a.op.Writing?)
    ensures
      var s := Next(w, a).trip.status;
      if s == w.trip.status then Next(w, a).path == w.path else Next(w, a).path == w.path + [s] && Rank(w.trip.status) < Rank(s)
  {
  }

  lemma OthersRise(w: World, a: Action)
    requires PathOk(w.path, w.trip.status) && Rising(w.path) && !(a.Finish? && a.op in w.ops && a.op.Writing?)
    ensures Rising(Next(w, a).path)
  {
    OthersClimb(w, a);
    if Next(w, a).trip.status != w.trip.status { RisingExtends(w.path, Next(w, a).trip.status); }
  }

  /** One step keeps the path rising exactly when its write, if it is one, is guarded. */
  lemma NextRisesExactly(w: World, a: Action)
    requires PathInv(w) && Rising(w.path)
    ensures Rising(Next(w, a).path) <==> Guarded(w, a)
  {
    if a.Finish? && a.op in w.ops && a.op.Writing? { WriteRisesExactly(w, a.op.from, a.op.to); } else { OthersRise(w, a); }
  }

  ghost predicate AllGuarded(w: World, actions: seq<Action>)
    decreases |actions|
  {
    actions != [] ==> Guarded(w, actions[0]) && AllGuarded(Next(w, actions[0]), actions[1..])
  }

  lemma PathOnlyGrows(w: World, a: Action)
    ensures Next(w, a).path == w.path || Next(w, a).path == w.path + [Next(w, a).trip.status]
  {
  }

  lemma FallenStays(path: seq<Status>, s: Status)
    requires !Rising(path)
    ensures !Rising(path + [s])
  {
    var i :| 0 < i < |path| && !(Rank(path[i - 1]) < Rank(path[i]) || (Cancelled(path[i - 1]) && Cancelled(path[i])));
    assert (path + [s])[i - 1] == path[i - 1] && (path + [s])[i] == path[i];
  }

  lemma {:induction false} FallsForGood(w: World, actions: seq<Action>)
    requires !Rising(w.path)
    ensures !Rising(Run(w, actions).path)
    decreases |actions|
  {
    if actions != [] {
      PathOnlyGrows(w, actions[0]);
      FallenStays(w.path, Next(w, actions[0]).trip.status);
      FallsForGood(Next(w, actions[0]), actions[1..]);
    }
  }

  lemma {:induction false} RunRisesExactly(w: World, actions: seq<Action>)
    requires PathInv(w) && Rising(w.path)
    ensures Rising(Run(w, actions).path) <==> AllGuarded(w, actions)
    decreases |actions|
  {
    if actions != [] {
      var v := Next(w, actions[0]);
      NextRisesExactly(w, actions[0]);
      NextKeepsPath(w, actions[0]);
      if Rising(v.path) { RunRisesExactly(v, actions[1..]); } else { FallsForGood(v, actions[1..]); }
    }
  }

  /** Exactly when the statuses of a trip rise in rank from its request to the end of the run, repeated cancellations
      aside: when every status write is guarded. */
  lemma RisesExactly(passenger: User, priceBase: int, actions: seq<Action>)
    ensures Rising(Run(Requested(passenger, priceBase), actions).path) <==> AllGuarded(Requested(passenger, priceBase), actions)
  {
    RunRisesExactly(Requested(passenger, priceBase), actions);
  }

  lemma CompletedPath(path: seq<Status>, hits: seq<Hit>)
    requires InOrder(path) && HitsOk(hits, path) && StartsHit(path, hits) && Rising(path) && path[|path| - 1] == COMPLETED
    ensures path == HAPPY_PATH
  {
    var c := |path| - 1;
    var m, e, o, k, v := OrderGivesMilestones(path, hits, c);
    RisingIsShort(path);
    SixSteps(path, m, e, o, v, c);
  }

  lemma RisingIsShort(path: seq<Status>)
    requires Rising(path) && path != [] && path[0] == BIDDING && path[|path| - 1] == COMPLETED
    ensures |path| <= 6
  {
    RanksCount(path, 0, |path| - 1);
  }

  lemma SixSteps(path: seq<Status>, m: nat, e: nat, o: nat, v: nat, c: nat)
    requires Milestones(path, m, e, o, v, c) && |path| <= 6 && path[0] == BIDDING
    ensures path == HAPPY_PATH
  {
    assert m == 1 && e == 2 && o == 3 && v == 4 && c == 5;
  }

  /** With every write guarded, a trip that ends completed took exactly the six steps. */
  lemma CompletedTookAllSteps(passenger: User, priceBase: int, actions: seq<Action>)
    requires AllGuarded(Requested(passenger, priceBase), actions) && Run(Requested(passenger, priceBase), actions).trip.status == COMPLETED
    ensures Run(Requested(passenger, priceBase), actions).path == HAPPY_PATH
  {
    RunKeepsPath(Requested(passenger, priceBase), actions);
    RisesExactly(passenger, priceBase, actions);
    var w := Run(Requested(passenger, priceBase), actions);
    CompletedPath(w.path, w.hits);
  }

  // ---- A trip brought back from its cancellation ----

  lemma RunStep(w: World, a: Action, rest: seq<Action>)
    ensures Run(w, [a] + rest) == Run(Next(w, a), rest)
  {
    assert ([a] + rest)[1..] == rest;
  }

  function Matching(passenger: User, driver: User, price: int): seq<Action> {
    [StartBid(driver, price, None)] + ([Finish(Bidding(driver, price, None))] + ([Accept(passenger, driver)] + []))
  }

  /** A bid at the base price, accepted. */
  lemma MatchedTrip(passenger: User, priceBase: nat, driver: User)
    ensures
      var w := Run(Requested(passenger, priceBase), Matching(passenger, driver, priceBase));
      && w.trip.status.MATCHED? && w.trip.driver == Some(driver) && w.trip.passenger == passenger
      && w.ops == multiset{} && w.path == [BIDDING, MATCHED]
  {
    var w0 := Requested(passenger, priceBase);
    var bid := Bidding(driver, priceBase, None);
    BasePriceInRange(priceBase);
    var w1 := Next(w0, StartBid(driver, priceBase, None));
    assert w1 == w0.(ops := multiset{} + multiset{bid});
    var w2 := Next(w1, Finish(bid));
    assert w2.trip == w0.trip.(bids := map[driver := Bid(driver, priceBase, None, PENDING)]) && w2.path == [BIDDING] && w2.ops == multiset{};
    var w3 := Next(w2, Accept(passenger, driver));
    assert w3.path == [BIDDING] + [MATCHED];
    RunStep(w0, StartBid(driver, priceBase, None), [Finish(bid)] + ([Accept(passenger, driver)] + []));
    RunStep(w1, Finish(bid), [Accept(passenger, driver)] + []);
    RunStep(w2, Accept(passenger, driver), []);
  }

  lemma BasePriceInRange(priceBase: nat)
    ensures InRange(priceBase, priceBase)
  {
  }

  /** Both endpoints check the matched trip, then the cancellation is written, then the driver's move. */
  function Reviving(passenger: User, driver: User): seq<Action> {
    [StartMove(DRIVER_EN_ROUTE, driver, false)] + ([StartMove(CANCELLED_BY_PASSENGER, passenger, false)]
      + ([Finish(Writing(MATCHED, CANCELLED_BY_PASSENGER))] + ([Finish(Writing(MATCHED, DRIVER_EN_ROUTE))] + [])))
  }

  lemma StartedWrite(w: World, to: Status, caller: User)
    requires w.trip.status.MATCHED? && Authorised(w.trip, to, caller) && MayWrite(MATCHED, to, false)
    ensures Next(w, StartMove(to, caller, false)) == Begin(w, Writing(MATCHED, to))
  {
  }

  lemma FinishedWrite(w: World, from: Status, to: Status)
    requires Writing(from, to) in w.ops && to != w.trip.status && !to.OTP_PENDING?
    ensures Next(w, Finish(Writing(from, to))) == Drop(w, Writing(from, to)).(trip := w.trip.(status := to), path := w.path + [to])
  {
  }

  lemma RevivingRun(w: World, driver: User)
    requires w.trip.status.MATCHED? && w.trip.driver == Some(driver)
    ensures Run(w, Reviving(w.trip.passenger, driver)).path == w.path + [CANCELLED_BY_PASSENGER] + [DRIVER_EN_ROUTE]
    ensures Run(w, Reviving(w.trip.passenger, driver)).trip.status.DRIVER_EN_ROUTE?
  {
    var move, cancel := Writing(MATCHED, DRIVER_EN_ROUTE), Writing(MATCHED, CANCELLED_BY_PASSENGER);
    StartedWrite(w, DRIVER_EN_ROUTE, driver);
    var w1 := Begin(w, move);
    StartedWrite(w1, CANCELLED_BY_PASSENGER, w.trip.passenger);
    var w2 := Begin(w1, cancel);
    FinishedWrite(w2, MATCHED, CANCELLED_BY_PASSENGER);
    var w3 := Next(w2, Finish(cancel));
    FinishedWrite(w3, MATCHED, DRIVER_EN_ROUTE);
    RunStep(w, StartMove(DRIVER_EN_ROUTE, driver, false),
            [StartMove(CANCELLED_BY_PASSENGER, w.trip.passenger, false)] + ([Finish(cancel)] + ([Finish(move)] + [])));
    RunStep(w1, StartMove(CANCELLED_BY_PASSENGER, w.trip.passenger, false), [Finish(cancel)] + ([Finish(move)] + []));
    RunStep(w2, Finish(cancel), [Finish(move)] + []);
    RunStep(w3, Finish(move), []);
  }

  lemma {:induction false} RunConcat(w: World, a: seq<Action>, b: seq<Action>)
    ensures Run(w, a + b) == Run(Run(w, a), b)
    decreases |a|
  {
    if a == [] {
      assert a + b == b;
    } else {
      assert (a + b)[1..] == a[1..] + b;
      RunConcat(Next(w, a[0]), a[1..], b);
    }
  }

  /** From the request of any trip: a check made before a cancellation and written after it brings the cancelled trip back. */
  lemma StaleWriteRevives(passenger: User, priceBase: nat, driver: User)
    ensures
      var run := Matching(passenger, driver, priceBase) + Reviving(passenger, driver);
      var w := Run(Requested(passenger, priceBase), run);
      && w.path == [BIDDING, MATCHED, CANCELLED_BY_PASSENGER, DRIVER_EN_ROUTE] && w.trip.status.DRIVER_EN_ROUTE?
      && !AllGuarded(Requested(passenger, priceBase), run)
  {
    var run := Matching(passenger, driver, priceBase) + Reviving(passenger, driver);
    MatchedTrip(passenger, priceBase, driver);
    var matched := Run(Requested(passenger, priceBase), Matching(passenger, driver, priceBase));
    RunConcat(Requested(passenger, priceBase), Matching(passenger, driver, priceBase), Reviving(passenger, driver));
    RevivingRun(matched, driver);
    RisesExactly(passenger, priceBase, run);
    assert [BIDDING, MATCHED] + [CANCELLED_BY_PASSENGER] + [DRIVER_EN_ROUTE] == [BIDDING, MATCHED, CANCELLED_BY_PASSENGER, DRIVER_EN_ROUTE];
    var path := Run(Requested(passenger, priceBase), run).path;
    assert path[2] == CANCELLED_BY_PASSENGER && path[3] == DRIVER_EN_ROUTE;
  }
}
