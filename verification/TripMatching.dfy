/** One trip from bidding to its end: the bid rows, the two ways of matching, and the endpoints that move the
    status (services/ride/src/ride/ride.service.ts). */
module TripMatching {
  import opened Common

  type User = string

  datatype Status =
    | BIDDING | MATCHED | DRIVER_EN_ROUTE | OTP_PENDING | IN_PROGRESS | COMPLETED
    | EXPIRED_NO_DRIVER | CANCELLED_BY_PASSENGER | CANCELLED_BY_DRIVER

  datatype BidStatus = PENDING | ACCEPTED | REJECTED | AUTO_SELECTED

  datatype Bid = Bid(driver: User, price: int, eta: Option<int>, status: BidStatus)

  /** A driver has at most one bid per trip, so the driver names it. */
  datatype Trip = Trip(status: Status, passenger: User, driver: Option<User>, priceFinal: Option<int>, priceBase: int, bids: map<User, Bid>)

  /** JavaScript's Math.round. */
  function Round(x: real): int { (x + 0.5).Floor }

  predicate InRange(price: int, base: int) {
    Round(base as real * 0.7) <= price <= Round(base as real * 2.0)
  }

  /** In whole units: at least seven tenths of the base price, rounded half up, and at most twice it. */
  lemma RangeMeans(price: int, base: int)
    ensures InRange(price, base) <==> 7 * base < 10 * price + 5 && price <= 2 * base
  {
  }

  /** The upsert of lines 896-913: a resubmitted offer keeps the status of its row. */
  function PlaceBid(t: Trip, driver: User, price: int, eta: Option<int>): Trip {
    var status := if driver in t.bids then t.bids[driver].status else PENDING;
    t.(bids := t.bids[driver := Bid(driver, price, eta, status)])
  }

  /** The bid updates that follow a successful claim. */
  function SettleBids(bids: map<User, Bid>, winner: User, status: BidStatus): map<User, Bid> {
    map d | d in bids ::
      if d == winner then bids[d].(status := status)
      else if bids[d].status.PENDING? then bids[d].(status := REJECTED) else bids[d]
  }

  /** The compare-and-set on the trip status with everything in its transaction. */
  function Match(t: Trip, winner: User, price: int, status: BidStatus): Trip {
    if t.status.BIDDING? && winner in t.bids then
      t.(status := MATCHED, driver := Some(winner), priceFinal := Some(price), bids := SettleBids(t.bids, winner, status))
    else t
  }

  /** A match that succeeds settles every bid there is: the winner's as said, no other one won or still pending. */
  lemma MatchSettlesBids(t: Trip, winner: User, price: int, status: BidStatus)
    requires t.status.BIDDING? && winner in t.bids && !status.PENDING?
    requires forall d :: d in t.bids ==> t.bids[d].status.PENDING? || t.bids[d].status.REJECTED?
    ensures
      var bids := Match(t, winner, price, status).bids;
      && bids.Keys == t.bids.Keys && bids[winner] == t.bids[winner].(status := status)
      && forall d :: d in bids && d != winner ==> bids[d] == t.bids[d].(status := REJECTED)
  {
    assert Match(t, winner, price, status).bids.Keys == t.bids.Keys;
  }

  function AcceptBid(t: Trip, caller: User, winner: User): Trip {
    if caller == t.passenger && winner in t.bids && t.bids[winner].status.PENDING?
    then Match(t, winner, t.bids[winner].price, ACCEPTED) else t
  }

  function Expire(t: Trip): Trip { if t.status.BIDDING? then t.(status := EXPIRED_NO_DRIVER) else t }

  function Score(b: Bid): int { b.price + (if b.eta.Some? then b.eta.value else 0) * 10 }

  /** Lines 1038-1040 over the first `n` bids: the stable sort by score keeps the first of equals in front. */
  function Best(bids: seq<Bid>, n: nat): Bid
    requires 0 < n <= |bids|
  {
    if n == 1 then bids[0]
    else if Score(bids[n - 1]) < Score(Best(bids, n - 1)) then bids[n - 1] else Best(bids, n - 1)
  }

  function Minutes(b: Bid): int { match b.eta case Some(m) => m case None => 0 }

  /** Bid `k` costs least when a minute of waiting counts as ten units and no estimate as none, and no bid before it costs as
      little. */
  predicate FirstCheapest(bids: seq<Bid>, n: nat, k: nat) {
    && k < n <= |bids|
    && (forall j :: 0 <= j < n ==> bids[k].price + 10 * Minutes(bids[k]) <= bids[j].price + 10 * Minutes(bids[j]))
    && (forall j :: 0 <= j < k ==> bids[k].price + 10 * Minutes(bids[k]) < bids[j].price + 10 * Minutes(bids[j]))
  }

  /** The head of the sorted list is that bid. */
  lemma {:induction false} BestIsFirstLeast(bids: seq<Bid>, n: nat) returns (k: nat)
    requires 0 < n <= |bids|
    ensures FirstCheapest(bids, n, k) && bids[k] == Best(bids, n)
    ensures forall j :: 0 <= j < n ==> Score(bids[k]) <= Score(bids[j])
    ensures forall j :: 0 <= j < k ==> Score(bids[k]) < Score(bids[j])
  {
    if n == 1 {
      k := 0;
    } else {
      k := BestIsFirstLeast(bids, n - 1);
      if Score(bids[n - 1]) < Score(bids[k]) { k := n - 1; }
    }
  }

  /** `order` is the answer of the PENDING-bids query, in whatever order the database returned it. */
  ghost predicate IsPendingList(order: seq<Bid>, bids: map<User, Bid>) {
    forall b :: b in order <==> b.driver in bids && bids[b.driver] == b && b.status.PENDING?
  }

  predicate Cancelled(s: Status) { s.CANCELLED_BY_PASSENGER? || s.CANCELLED_BY_DRIVER? }

  /** What an endpoint that read status `from` goes on to write; `safety` is the SAFETY cancel reason. */
  predicate MayWrite(from: Status, to: Status, safety: bool) {
    match to
    case DRIVER_EN_ROUTE => from.MATCHED?
    case OTP_PENDING => from.DRIVER_EN_ROUTE?
    case IN_PROGRESS => from.OTP_PENDING?
    case COMPLETED => from.IN_PROGRESS?
    case CANCELLED_BY_PASSENGER => from.IN_PROGRESS? ==> safety
    case CANCELLED_BY_DRIVER => from.IN_PROGRESS? ==> safety
    case _ => false
  }

  /** The passenger's cancel demands the passenger, everything else the assigned driver. */
  predicate Authorised(t: Trip, to: Status, caller: User) {
    if to.CANCELLED_BY_PASSENGER? then caller == t.passenger else t.driver == Some(caller)
  }

  function Rank(s: Status): nat {
    match s
    case BIDDING => 0
    case MATCHED => 1
    case DRIVER_EN_ROUTE => 2
    case OTP_PENDING => 3
    case IN_PROGRESS => 4
    case COMPLETED => 5
    case EXPIRED_NO_DRIVER => 5
    case CANCELLED_BY_PASSENGER => 6
    case CANCELLED_BY_DRIVER => 6
  }

  /** The six statuses of a ride that goes through. */
  const HAPPY_PATH := [BIDDING, MATCHED, DRIVER_EN_ROUTE, OTP_PENDING, IN_PROGRESS, COMPLETED]

  /** The moves of docs/FSM.md. */
  predicate Documented(from: Status, to: Status, safety: bool) {
    match to
    case CANCELLED_BY_PASSENGER => from.BIDDING? || from.MATCHED? || from.DRIVER_EN_ROUTE? || (from.IN_PROGRESS? && safety)
    case CANCELLED_BY_DRIVER => from.BIDDING? || from.DRIVER_EN_ROUTE? || (from.IN_PROGRESS? && safety)
    case _ => exists i :: 1 <= i < 5 && HAPPY_PATH[i] == from && HAPPY_PATH[i + 1] == to
  }

  lemma MilestonesAreDocumented(from: Status, to: Status, safety: bool)
    requires !Cancelled(to)
    ensures MayWrite(from, to, safety) <==> Documented(from, to, safety)
  {
    if MayWrite(from, to, safety) {
      var i := Rank(from);
      assert HAPPY_PATH[i] == from && HAPPY_PATH[i + 1] == to;
    }
  }

  /** The code makes every documented move, and beyond them exactly these: cancelling a trip that waits for its code, is
      completed, expired or cancelled already, and a driver's cancelling of a trip just matched. */
  lemma MovesBeyondDocs(from: Status, to: Status, safety: bool)
    ensures Documented(from, to, safety) ==> MayWrite(from, to, safety)
    ensures MayWrite(from, to, safety) && !Documented(from, to, safety)
            <==> || (Cancelled(to) && (from.OTP_PENDING? || from.COMPLETED? || from.EXPIRED_NO_DRIVER? || Cancelled(from)))
                 || (to.CANCELLED_BY_DRIVER? && from.MATCHED?)
  {
    if !Cancelled(to) { MilestonesAreDocumented(from, to, safety); }
  }

  /** The rows of one trip, worked on by one call at a time. */
  class TripRows {
    var trip: Trip

    constructor (passenger: User, priceBase: int)
      ensures trip == Trip(BIDDING, passenger, None, None, priceBase, map[])
    {
      trip := Trip(BIDDING, passenger, None, None, priceBase, map[]);
    }

    method CreateBid(driver: User, price: int, eta: Option<int>) returns (ok: bool)
      modifies this
      ensures ok <==> old(trip).status == BIDDING && 7 * old(trip).priceBase < 10 * price + 5 && price <= 2 * old(trip).priceBase
      ensures trip == if ok then PlaceBid(old(trip), driver, price, eta) else old(trip)
    {
      RangeMeans(price, trip.priceBase);
      var low, high := Round(trip.priceBase as real * 0.7), Round(trip.priceBase as real * 2.0);
      ok := trip.status.BIDDING? && low <= price && price <= high;
      if !ok { return; }
      if driver in trip.bids {
        trip := trip.(bids := trip.bids[driver := trip.bids[driver].(driver := driver, price := price, eta := eta)]);
      } else {
        trip := trip.(bids := trip.bids[driver := Bid(driver, price, eta, PENDING)]);
      }
    }

    method Accept(caller: User, winner: User) returns (ok: bool)
      modifies this
      ensures trip == AcceptBid(old(trip), caller, winner)
      ensures ok <==>
        && old(trip).passenger == caller && old(trip).status.BIDDING?
        && winner in old(trip).bids && old(trip).bids[winner].status.PENDING?
    {
      ok := trip.passenger == caller && trip.status.BIDDING? && winner in trip.bids && trip.bids[winner].status.PENDING?;
      if !ok { return; }
      var bid := trip.bids[winner];
      trip := trip.(status := MATCHED, driver := Some(winner), priceFinal := Some(bid.price));
      trip := trip.(bids := SettleBids(trip.bids, winner, ACCEPTED));
    }

    /** Lines 1021-1062 for one expired trip, undisturbed: the first pending bid with the least price plus ten times the
        minutes to the pickup wins, at its price. */
    method AutoMatch(order: seq<Bid>)
      requires IsPendingList(order, trip.bids)
      modifies this
      ensures forall d :: d in old(trip).bids && old(trip).bids[d].driver == d && old(trip).bids[d].status == PENDING ==>
                old(trip).bids[d] in order
      ensures order == [] ==> trip == Expire(old(trip))
      ensures order != [] ==> exists k: nat ::
                && FirstCheapest(order, |order|, k)
                && order[k].driver in old(trip).bids && old(trip).bids[order[k].driver].status == PENDING
                && trip == Match(old(trip), order[k].driver, order[k].price, AUTO_SELECTED)
                && (old(trip).status == BIDDING ==>
                      && trip.status == MATCHED && trip.driver == Some(order[k].driver) && trip.priceFinal == Some(order[k].price)
                      && order[k].driver in trip.bids && trip.bids[order[k].driver].status == AUTO_SELECTED)
    {
      if order == [] {
        if trip.status.BIDDING? { trip := trip.(status := EXPIRED_NO_DRIVER); }
        return;
      }
      var best := LeastScore(order);
      ghost var k := BestIsFirstLeast(order, |order|);
      assert order[k] in order;
      if !trip.status.BIDDING? { return; }
      trip := trip.(status := MATCHED, driver := Some(best.driver), priceFinal := Some(best.price));
      trip := trip.(bids := SettleBids(trip.bids, best.driver, AUTO_SELECTED));
    }

    static method LeastScore(order: seq<Bid>) returns (best: Bid)
      requires order != []
      ensures best == Best(order, |order|)
    {
      best := order[0];
      var k := 1;
      while k < |order|
        invariant 1 <= k <= |order| && best == Best(order, k)
      {
        if Score(order[k]) < Score(best) { best := order[k]; }
        k := k + 1;
      }
    }

    /** The en-route, arrived, verified, completed and cancel endpoints: read, check, write. */
    method Move(to: Status, caller: User, safety: bool) returns (ok: bool)
      modifies this
      ensures ok <==>
        && MayWrite(old(trip).status, to, safety)
        && (if to == CANCELLED_BY_PASSENGER then caller == old(trip).passenger else old(trip).driver == Some(caller))
      ensures trip == if ok then old(trip).(status := to) else old(trip)
      ensures ok ==> Rank(old(trip).status) < Rank(trip.status) || (Cancelled(old(trip).status) && Cancelled(trip.status))
      ensures ok && !Cancelled(to) ==> Rank(trip.status) == Rank(old(trip).status) + 1 && trip.driver == Some(caller)
    {
      ok := Authorised(trip, to, caller) && MayWrite(trip.status, to, safety);
      if ok { trip := trip.(status := to); }
    }
  }
}
