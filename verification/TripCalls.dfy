/** The undisturbed calls on one trip, step by step: they come to the methods of `TripRows` and `OtpRows`. */
module TripCalls {
  import opened Common
  import opened TripMatching
  import opened TripRaces
  import O = TripOtp

  lemma Done(ops: multiset<Op>, op: Op)
    ensures ops + multiset{op} - multiset{op} == ops
  {
  }

  /** An offer comes to `TripRows.CreateBid`. */
  lemma BidIsItsSteps(w: World, driver: User, price: int, eta: Option<int>)
    requires Bidding(driver, price, eta) !in w.ops
    ensures
      var v := Next(Next(w, StartBid(driver, price, eta)), Finish(Bidding(driver, price, eta)));
      v == if w.trip.status == BIDDING && 7 * w.trip.priceBase < 10 * price + 5 && price <= 2 * w.trip.priceBase
           then w.(trip := PlaceBid(w.trip, driver, price, eta), offers := w.offers + {Offer(driver, price)}) else w
  {
    RangeMeans(price, w.trip.priceBase);
    Done(w.ops, Bidding(driver, price, eta));
  }

  /** The scanner to `TripRows.AutoMatch`. */
  lemma AutoMatchIsItsSteps(w: World, order: seq<Bid>) returns (k: nat)
    requires IsPendingList(order, w.trip.bids)
    ensures order == [] ==> Next(Next(w, ReadBids(order)), Finish(Expiring)) == Written(w, Expire(w.trip))
    ensures order != [] ==>
              && FirstCheapest(order, |order|, k)
              && Next(Next(w, ReadBids(order)), Finish(Selecting(order[k])))
                 == Written(w, Match(w.trip, order[k].driver, order[k].price, AUTO_SELECTED))
  {
    if order == [] {
      k := 0;
      Done(w.ops, Expiring);
    } else {
      k := BestIsFirstLeast(order, |order|);
      Done(w.ops, Selecting(order[k]));
    }
  }

  lemma Dropped(w: World, op: Op)
    ensures Drop(Begin(w, op), op) == w
  {
    Done(w.ops, op);
  }

  /** A status endpoint checks as `TripRows.Move` does, a verification as `OtpRows.Verify`; refused, they leave nothing behind. */
  lemma ChecksStart(w: World, to: Status, caller: User, safety: bool)
    ensures
      var ok := MayWrite(w.trip.status, to, safety)
                && (if to == CANCELLED_BY_PASSENGER then caller == w.trip.passenger else w.trip.driver == Some(caller));
      Next(w, StartMove(to, caller, safety)) == if ok && to != IN_PROGRESS then Begin(w, Writing(w.trip.status, to)) else w
    ensures Next(w, StartVerify(caller))
         == if w.trip.status == OTP_PENDING && w.trip.driver == Some(caller) then Begin(w, Verifying) else w
  {
  }

  /** And writes as it does; the arrival goes on to its code. */
  lemma MoveFinishes(w: World, from: Status, to: Status)
    ensures Next(Begin(w, Writing(from, to)), Finish(Writing(from, to)))
         == if to == OTP_PENDING then Begin(Written(w, w.trip.(status := to)), Issuing) else Written(w, w.trip.(status := to))
  {
    Dropped(w, Writing(from, to));
  }

  /** The arrival, its status written, to `OtpRows.Arrive`: a new code of ten minutes. Nothing else issues one. */
  lemma ArrivalIssues(w: World, code: string, now: int)
    requires Issuing !in w.ops
    ensures Next(Begin(w, Issuing), IssueOtp(code, now)) == w.(otp := Some(O.Otp(code, now + 600000, 0, None)))
    ensures Next(w, IssueOtp(code, now)) == w
  {
    Dropped(w, Issuing);
  }

  /** One look at the code row decides as `OtpRows.Verify` does: refused without a code, after its time or after five misses;
      otherwise a miss to count, or a hit to confirm. */
  lemma LookDecides(w: World, guess: string, now: int)
    ensures Next(Begin(w, Verifying), CheckOtp(guess, now))
         == if w.otp == None || w.otp.value.expiresAt < now || w.otp.value.attempts >= 5 then w
            else if guess != w.otp.value.code then Begin(w, Missing)
            else Begin(w.(hits := w.hits + [Hit(|w.path|, w.otp.value, guess, now)]), Confirming(now))
  {
    Dropped(w, Verifying);
  }

  /** The miss is counted. */
  lemma MissCounts(w: World)
    requires w.otp.Some?
    ensures Next(Begin(w, Missing), Finish(Missing)) == w.(otp := Some(w.otp.value.(attempts := w.otp.value.attempts + 1)))
  {
    Dropped(w, Missing);
  }

  /** The hit is confirmed and goes on to start the trip. */
  lemma HitConfirms(w: World, now: int)
    requires w.otp.Some?
    ensures Next(Begin(w, Confirming(now)), Finish(Confirming(now)))
         == Begin(w.(otp := Some(w.otp.value.(verifiedAt := Some(now)))), Writing(OTP_PENDING, IN_PROGRESS))
  {
    Dropped(w, Confirming(now));
  }
}
