/** What holds of the tables after any interleaving of checkouts, webhooks and refunds. A webhook's status read
    and its writes are separate steps, so webhooks may be duplicated, reordered, late or lost. */
module PaymentLedger {
  import opened Common
  import opened RefundArithmetic
  import opened Payments

  datatype Hook = Hook(trip: nat, verdict: Verdict)

  /** `hooks` are the webhooks that have read a status other than APPROVED and have not written yet. */
  datatype World = World(db: Db, hooks: multiset<Hook>)

  const START := World(EMPTY, multiset{})

  datatype Action =
    | Create(trip: nat, driver: User, price: int, bps: int)
    | Receive(hook: Hook)
    | Apply(hook: Hook)
    | Lose(hook: Hook)
    | AdminRefund(trip: nat, amount: Option<int>, reason: string, answer: Gateway)

  function Next(w: World, a: Action): World {
    match a
    case Create(trip, driver, price, bps) => w.(db := CreatePreference(w.db, trip, driver, price, bps))
    case Receive(h) =>
      if h.trip in w.db.payments && !w.db.payments[h.trip].status.APPROVED? then w.(hooks := w.hooks + multiset{h}) else w
    case Apply(h) =>
      if h in w.hooks && h.trip in w.db.payments then
        World(ApplyWebhook(w.db, h.trip, h.verdict), w.hooks - multiset{h})
      else w
    case Lose(h) => w.(hooks := w.hooks - multiset{h})
    case AdminRefund(trip, amount, reason, answer) => w.(db := RefundTripPayment(w.db, trip, amount, reason, answer).0)
  }

  function Run(w: World, actions: seq<Action>): World
    decreases |actions|
  {
    if actions == [] then w else Run(Next(w, actions[0]), actions[1..])
  }

  /** The books of one trip. */
  ghost predicate TripBooks(p: Payment, s: Sums, amounts: seq<int>) {
    && p.total >= 1 && p.net == p.total - p.commission
    && (if s.earnings == 0 then s.revenue == s.commission == s.earning == 0 && amounts == []
        else s.revenue == p.total && s.commission == p.commission && s.earning == p.net)
    && s.earnings <= 1 && s.revenues == s.earnings && s.commissions == s.earnings
    && s.refundReversal == -p.refunded
    && s.commissionReversal == -CommissionReversed(amounts, p.total, p.commission)
    && s.netReversal == s.refundReversal - s.commissionReversal
    && p.refunded == Sum(amounts) && 0 <= p.refunded <= p.total
    && (p.status.APPROVED? || p.status.REFUNDED? ==> s.earnings == 1)
    && (p.fully <==> p.refunded == p.total)
  }

  predicate Sound(s: Summary) { s.gross == s.commission + s.net }

  ghost predicate TripsBalance(db: Db) {
    forall t :: t in db.payments ==> TripBooks(db.payments[t], SumsOf(db.ledger, t), ApprovedAmounts(db.refunds, t))
  }

  /** The cached totals of every driver are the sums over the ledger of that driver's trips. */
  ghost predicate SummariesMatch(summaries: map<User, Summary>, ledger: seq<Entry>) {
    forall d :: SummaryAt(summaries, d) == PaidTo(ledger, d)
  }

  predicate SummariesSound(summaries: map<User, Summary>) {
    forall d :: d in summaries ==> Sound(summaries[d])
  }

  /** Every ledger row belongs to a payment and names its driver. */
  ghost predicate Owned(ledger: seq<Entry>, payments: map<nat, Payment>) {
    forall i :: 0 <= i < |ledger| ==> ledger[i].trip in payments && ledger[i].driver == payments[ledger[i].trip].driver
  }

  ghost predicate SideBooks(db: Db) {
    && SummariesMatch(db.summaries, db.ledger) && SummariesSound(db.summaries)
    && Owned(db.ledger, db.payments)
    && (forall i :: 0 <= i < |db.refunds| ==> db.refunds[i].trip in db.payments)
  }

  ghost predicate Books(db: Db) { TripsBalance(db) && SideBooks(db) }

  lemma AmountsSnoc(refunds: seq<Refund>, r: Refund, trip: nat)
    ensures ApprovedAmounts(refunds + [r], trip) ==
              ApprovedAmounts(refunds, trip) + if r.trip == trip && r.status.REFUND_APPROVED? then [r.amount] else []
  {
    assert (refunds + [r])[..|refunds|] == refunds;
  }

  lemma {:induction false} NoRefunds(refunds: seq<Refund>, trip: nat)
    requires forall i :: 0 <= i < |refunds| ==> refunds[i].trip != trip
    ensures ApprovedAmounts(refunds, trip) == []
  {
    if refunds != [] { NoRefunds(refunds[..|refunds| - 1], trip); }
  }

  lemma CreateKeepsBooks(db: Db, trip: nat, driver: User, price: int, bps: int)
    requires Books(db)
    ensures Books(CreatePreference(db, trip, driver, price, bps))
  {
    if trip !in db.payments {
      FreshTrip(db.ledger, trip);
      NoRefunds(db.refunds, trip);
    }
  }

  /** A transaction that books three entries of one driver and moves that driver's summary by their sum. */
  lemma BookingKeepsSummaries(summaries: map<User, Summary>, ledger: seq<Entry>, e: seq<Entry>, d: User, w: Summary)
    requires SummariesMatch(summaries, ledger) && SummariesSound(summaries) && Sound(w)
    requires |e| == 3 && e[0].driver == e[1].driver == e[2].driver == d
    requires forall s :: Plus(Plus(Plus(s, Effect(e[0])), Effect(e[1])), Effect(e[2])) == Plus(s, w)
    ensures SummariesMatch(Moved(summaries, d, w), ledger + e)
    ensures SummariesSound(Moved(summaries, d, w))
  {
    assert e == [e[0], e[1], e[2]];
    forall k ensures SummaryAt(Moved(summaries, d, w), k) == PaidTo(ledger + e, k) {
      PaidSnoc3(ledger, e[0], e[1], e[2], k);
    }
  }

  lemma OwnedGrows(ledger: seq<Entry>, e: seq<Entry>, payments: map<nat, Payment>, trip: nat, p: Payment)
    requires Owned(ledger, payments) && trip in payments && p.driver == payments[trip].driver
    requires forall i :: 0 <= i < |e| ==> e[i].trip == trip && e[i].driver == p.driver
    ensures Owned(ledger + e, payments[trip := p])
  {
  }

  lemma OtherTripKept(db: Db, t: Db, e: seq<Entry>, trip: nat, k: nat)
    requires TripsBalance(db) && k in db.payments && k in t.payments && k != trip
    requires |e| == 3 && e[0].trip == e[1].trip == e[2].trip == trip && t.ledger == db.ledger + e
    requires t.payments[k] == db.payments[k] && ApprovedAmounts(t.refunds, k) == ApprovedAmounts(db.refunds, k)
    ensures TripBooks(t.payments[k], SumsOf(t.ledger, k), ApprovedAmounts(t.refunds, k))
  {
    assert e == [e[0], e[1], e[2]];
    SumsSnoc3(db.ledger, e[0], e[1], e[2], k);
  }

  lemma BookingKeepsTrips(db: Db, t: Db, trip: nat, e: seq<Entry>)
    requires TripsBalance(db) && t.payments.Keys == db.payments.Keys
    requires |e| == 3 && e[0].trip == e[1].trip == e[2].trip == trip && t.ledger == db.ledger + e
    requires forall k :: k in db.payments && k != trip ==>
               t.payments[k] == db.payments[k] && ApprovedAmounts(t.refunds, k) == ApprovedAmounts(db.refunds, k)
    requires trip in t.payments && TripBooks(t.payments[trip], SumsOf(t.ledger, trip), ApprovedAmounts(t.refunds, trip))
    ensures TripsBalance(t)
  {
    forall k | k in t.payments
      ensures TripBooks(t.payments[k], SumsOf(t.ledger, k), ApprovedAmounts(t.refunds, k))
    {
      if k != trip {
        assert k in db.payments.Keys;
        OtherTripKept(db, t, e, trip, k);
      }
    }
  }

  /** The approval entries keep one trip's books when no earning was booked before. */
  lemma ApprovalBooks(p: Payment, s: Sums, amounts: seq<int>, trip: nat, settlement: Settlement)
    requires TripBooks(p, s, amounts) && s.earnings == 0
    ensures
      var e := ApprovalEntries(trip, p);
      TripBooks(p.(status := APPROVED, settlement := settlement), Bump(Bump(Bump(s, e[0]), e[1]), e[2]), amounts)
  {
  }

  lemma ApprovalKeepsTrips(db: Db, trip: nat, held: bool)
    requires TripsBalance(db) && trip in db.payments && SumsOf(db.ledger, trip).earnings == 0
    ensures TripsBalance(ApplyWebhook(db, trip, SaysApproved(held)))
  {
    var t := ApplyWebhook(db, trip, SaysApproved(held));
    var p := db.payments[trip];
    var e := ApprovalEntries(trip, p);
    ApprovalBooks(p, SumsOf(db.ledger, trip), ApprovedAmounts(db.refunds, trip), trip, t.payments[trip].settlement);
    SumsSnoc3(db.ledger, e[0], e[1], e[2], trip);
    BookingKeepsTrips(db, t, trip, e);
  }

  lemma ApprovalKeepsSummaries(summaries: map<User, Summary>, ledger: seq<Entry>, trip: nat, p: Payment)
    requires SummariesMatch(summaries, ledger) && SummariesSound(summaries) && p.net == p.total - p.commission
    ensures
      var t := Moved(summaries, p.driver, Summary(p.total, p.commission, p.net));
      SummariesMatch(t, ledger + ApprovalEntries(trip, p)) && SummariesSound(t)
  {
    BookingKeepsSummaries(summaries, ledger, ApprovalEntries(trip, p), p.driver, Summary(p.total, p.commission, p.net));
  }

  lemma ApprovalKeepsSideBooks(db: Db, trip: nat, held: bool)
    requires SideBooks(db) && trip in db.payments && SumsOf(db.ledger, trip).earnings == 0
    requires db.payments[trip].net == db.payments[trip].total - db.payments[trip].commission
    ensures SideBooks(ApplyWebhook(db, trip, SaysApproved(held)))
  {
    var p := db.payments[trip];
    ApprovalKeepsSummaries(db.summaries, db.ledger, trip, p);
    OwnedGrows(db.ledger, ApprovalEntries(trip, p), db.payments, trip, ApplyWebhook(db, trip, SaysApproved(held)).payments[trip]);
  }

  lemma ApprovalKeepsBooks(db: Db, trip: nat, held: bool)
    requires Books(db) && trip in db.payments && SumsOf(db.ledger, trip).earnings == 0
    ensures Books(ApplyWebhook(db, trip, SaysApproved(held)))
  {
    assert TripBooks(db.payments[trip], SumsOf(db.ledger, trip), ApprovedAmounts(db.refunds, trip));
    ApprovalKeepsTrips(db, trip, held);
    ApprovalKeepsSideBooks(db, trip, held);
  }

  lemma StatusKeepsTrips(db: Db, trip: nat, p: Payment)
    requires TripsBalance(db) && trip in db.payments
    requires p == db.payments[trip].(status := p.status, settlement := p.settlement)
    requires p.status.APPROVED? || p.status.REFUNDED? ==> SumsOf(db.ledger, trip).earnings == 1
    ensures TripsBalance(db.(payments := db.payments[trip := p]))
  {
    forall t | t in db.payments[trip := p]
      ensures TripBooks(db.payments[trip := p][t], SumsOf(db.ledger, t), ApprovedAmounts(db.refunds, t))
    {
      assert t in db.payments && TripBooks(db.payments[t], SumsOf(db.ledger, t), ApprovedAmounts(db.refunds, t));
    }
  }

  /** Writes that touch only a payment's status columns. */
  lemma StatusKeepsBooks(db: Db, trip: nat, status: PaymentStatus, settlement: Settlement)
    requires Books(db) && trip in db.payments
    requires status.APPROVED? || status.REFUNDED? ==> SumsOf(db.ledger, trip).earnings == 1
    ensures Books(db.(payments := db.payments[trip := db.payments[trip].(status := status, settlement := settlement)]))
  {
    var p := db.payments[trip].(status := status, settlement := settlement);
    StatusKeepsTrips(db, trip, p);
    OwnedGrows(db.ledger, [], db.payments, trip, p);
    assert db.ledger + [] == db.ledger;
  }

  lemma WebhookKeepsBooks(db: Db, trip: nat, v: Verdict)
    requires Books(db) && trip in db.payments
    ensures Books(ApplyWebhook(db, trip, v))
  {
    assert TripBooks(db.payments[trip], SumsOf(db.ledger, trip), ApprovedAmounts(db.refunds, trip));
    match v
    case SaysApproved(held) =>
      if SumsOf(db.ledger, trip).earnings == 0 { ApprovalKeepsBooks(db, trip, held); } else {
        StatusKeepsBooks(db, trip, APPROVED, if held then NOT_SETTLED else SETTLED);
      }
    case SaysRejected => StatusKeepsBooks(db, trip, REJECTED, FAILED);
    case SaysOther => StatusKeepsBooks(db, trip, PENDING, db.payments[trip].settlement);
  }

  /** A refund row that was not approved changes no sum. */
  lemma RowKeepsBooks(db: Db, r: Refund)
    requires Books(db) && r.trip in db.payments && !r.status.REFUND_APPROVED?
    ensures Books(db.(refunds := db.refunds + [r]))
  {
    var t := db.(refunds := db.refunds + [r]);
    forall k | k in t.payments ensures ApprovedAmounts(t.refunds, k) == ApprovedAmounts(db.refunds, k) {
      AmountsSnoc(db.refunds, r, k);
    }
  }

  lemma SumSnoc(amounts: seq<int>, a: int, total: int, commission: int)
    ensures Sum(amounts + [a]) == Sum(amounts) + a
    ensures CommissionReversed(amounts + [a], total, commission) ==
              CommissionReversed(amounts, total, commission) + ComputeRefundSplit(a, total, commission).commissionReversal
  {
    assert (amounts + [a])[..|amounts|] == amounts;
  }

  /** The reversal entries keep one trip's books. */
  lemma ReversalBooks(p: Payment, s: Sums, amounts: seq<int>, trip: nat, a: int, split: Split)
    requires TripBooks(p, s, amounts) && s.earnings == 1 && 1 <= a <= p.total - p.refunded
    requires split.driverReversal == a - split.commissionReversal
    requires CommissionReversed(amounts + [a], p.total, p.commission) ==
               CommissionReversed(amounts, p.total, p.commission) + split.commissionReversal
    requires Sum(amounts + [a]) == Sum(amounts) + a
    ensures
      var e := ReversalEntries(trip, p.driver, a, split);
      TripBooks(AfterRefund(p, a), Bump(Bump(Bump(s, e[0]), e[1]), e[2]), amounts + [a])
  {
  }

  lemma RefundAmounts(refunds: seq<Refund>, trip: nat, a: int, reason: string, id: string)
    ensures forall k :: ApprovedAmounts(refunds + [Refund(trip, a, reason, REFUND_APPROVED, Some(id))], k)
                     == ApprovedAmounts(refunds, k) + if k == trip then [a] else []
  {
    forall k ensures ApprovedAmounts(refunds + [Refund(trip, a, reason, REFUND_APPROVED, Some(id))], k)
                  == ApprovedAmounts(refunds, k) + if k == trip then [a] else []
    {
      AmountsSnoc(refunds, Refund(trip, a, reason, REFUND_APPROVED, Some(id)), k);
    }
  }

  lemma RefundedTripBooks(db: Db, trip: nat, a: int, reason: string, id: string)
    requires TripsBalance(db) && trip in db.payments && SumsOf(db.ledger, trip).earnings == 1
    requires 1 <= a <= db.payments[trip].total - db.payments[trip].refunded
    ensures
      var t := BookRefund(db, trip, a, reason, id);
      TripBooks(t.payments[trip], SumsOf(t.ledger, trip), ApprovedAmounts(db.refunds, trip) + [a])
  {
    var p := db.payments[trip];
    var split := ComputeRefundSplit(a, p.total, p.commission);
    var e := ReversalEntries(trip, p.driver, a, split);
    var amounts := ApprovedAmounts(db.refunds, trip);
    SumSnoc(amounts, a, p.total, p.commission);
    ReversalBooks(p, SumsOf(db.ledger, trip), amounts, trip, a, split);
    SumsSnoc3(db.ledger, e[0], e[1], e[2], trip);
  }

  lemma RefundKeepsTrips(db: Db, trip: nat, a: int, reason: string, id: string)
    requires TripsBalance(db) && trip in db.payments && SumsOf(db.ledger, trip).earnings == 1
    requires 1 <= a <= db.payments[trip].total - db.payments[trip].refunded
    ensures TripsBalance(BookRefund(db, trip, a, reason, id))
  {
    var t := BookRefund(db, trip, a, reason, id);
    var p := db.payments[trip];
    RefundedTripBooks(db, trip, a, reason, id);
    RefundAmounts(db.refunds, trip, a, reason, id);
    BookingKeepsTrips(db, t, trip, ReversalEntries(trip, p.driver, a, ComputeRefundSplit(a, p.total, p.commission)));
  }

  lemma ReversalKeepsSummaries(summaries: map<User, Summary>, ledger: seq<Entry>, trip: nat, d: User, a: int, split: Split)
    requires SummariesMatch(summaries, ledger) && SummariesSound(summaries) && split.driverReversal == a - split.commissionReversal
    ensures
      var t := Moved(summaries, d, Summary(-a, -split.commissionReversal, -split.driverReversal));
      SummariesMatch(t, ledger + ReversalEntries(trip, d, a, split)) && SummariesSound(t)
  {
    BookingKeepsSummaries(summaries, ledger, ReversalEntries(trip, d, a, split), d,
                          Summary(-a, -split.commissionReversal, -split.driverReversal));
  }

  lemma RefundKeepsSideBooks(db: Db, trip: nat, a: int, reason: string, id: string)
    requires SideBooks(db) && trip in db.payments
    ensures SideBooks(BookRefund(db, trip, a, reason, id))
  {
    var p := db.payments[trip];
    var split := ComputeRefundSplit(a, p.total, p.commission);
    ReversalKeepsSummaries(db.summaries, db.ledger, trip, p.driver, a, split);
    OwnedGrows(db.ledger, ReversalEntries(trip, p.driver, a, split), db.payments, trip, AfterRefund(p, a));
  }

  /** A webhook left undisturbed comes to the call that `PaymentsService.ProcessWebhook` is proved to make, and leaves no trace
      in memory; on a payment already APPROVED it does nothing. */
  lemma WebhookIsItsSteps(w: World, h: Hook)
    requires h !in w.hooks
    ensures
      var t := Next(Next(w, Receive(h)), Apply(h));
      && t.hooks == w.hooks && Next(Next(w, Receive(h)), Lose(h)) == w
      && t.db == if h.trip in w.db.payments && w.db.payments[h.trip].status != APPROVED then ApplyWebhook(w.db, h.trip, h.verdict) else w.db
  {
    assert w.hooks + multiset{h} - multiset{h} == w.hooks && w.hooks - multiset{h} == w.hooks;
  }

  lemma RefundKeepsBooks(db: Db, trip: nat, amount: Option<int>, reason: string, answer: Gateway)
    requires Books(db)
    ensures Books(RefundTripPayment(db, trip, amount, reason, answer).0)
  {
    var (t, result) := RefundTripPayment(db, trip, amount, reason, answer);
    if result.Refunded? {
      var a := CheckRefund(db, trip, amount, reason).1;
      assert TripBooks(db.payments[trip], SumsOf(db.ledger, trip), ApprovedAmounts(db.refunds, trip));
      RefundKeepsTrips(db, trip, a, reason, answer.id);
      RefundKeepsSideBooks(db, trip, a, reason, answer.id);
    } else if t != db {
      RowKeepsBooks(db, t.refunds[|db.refunds|]);
    }
  }

  lemma {:induction false} RunKeepsBooks(w: World, actions: seq<Action>)
    requires Books(w.db)
    ensures Books(Run(w, actions).db)
    decreases |actions|
  {
    if actions != [] {
      match actions[0] {
        case Create(trip, driver, price, bps) =>
          CreateKeepsBooks(w.db, trip, driver, price, bps);
        case Apply(h) => if h in w.hooks && h.trip in w.db.payments { WebhookKeepsBooks(w.db, h.trip, h.verdict); }
        case AdminRefund(trip, amount, reason, answer) => RefundKeepsBooks(w.db, trip, amount, reason, answer);
        case _ =>
      }
      RunKeepsBooks(Next(w, actions[0]), actions[1..]);
    }
  }

  /** Ledger conservation over every run. Per trip, money in equals money out, the approval is booked at most once, and
      the refund reversals, the `refunded` column and the approved refunds agree and stay within the price; per driver,
      the payout summary is the sum over the driver's ledger. */
  lemma LedgerConserved(actions: seq<Action>)
    ensures
      var db := Run(START, actions).db;
      && (forall t :: t in db.payments ==>
            var s := SumsOf(db.ledger, t);
            && s.revenue + s.refundReversal == s.commission + s.commissionReversal + s.earning + s.netReversal
            && s.earnings <= 1 && s.revenues <= 1 && s.commissions <= 1
            && -s.refundReversal == db.payments[t].refunded == Sum(ApprovedAmounts(db.refunds, t)) <= db.payments[t].total)
      && SummariesMatch(db.summaries, db.ledger) && SummariesSound(db.summaries)
  {
    RunKeepsBooks(START, actions);
  }

  /** In every run, a trip refunded k times leaves the driver's ledger net at -(k - 1) or more, and the net shown to the
      driver is never below the ledger net nor more than k - 1 above it. */
  lemma DriverNetInRuns(actions: seq<Action>, trip: nat)
    requires trip in Run(START, actions).db.payments
    requires
      var p := Run(START, actions).db.payments[trip];
      0 <= p.commission <= p.total
    requires SumsOf(Run(START, actions).db.ledger, trip).earnings >= 1
    ensures
      var db := Run(START, actions).db;
      var p, s := db.payments[trip], SumsOf(db.ledger, trip);
      var k := |ApprovedAmounts(db.refunds, trip)|;
      var ledgerNet := s.earning + s.netReversal;
      var shown := ShownNet(p.refunded, p.total, p.commission, p.net);
      if k == 0 then ledgerNet == shown == p.net
      else ledgerNet >= -(k - 1) && 0 <= shown - ledgerNet <= k - 1 && -s.commissionReversal <= p.commission
  {
    RunKeepsBooks(START, actions);
    var db := Run(START, actions).db;
    BooksBoundNet(db.payments[trip], SumsOf(db.ledger, trip), ApprovedAmounts(db.refunds, trip));
  }

  lemma BooksBoundNet(p: Payment, s: Sums, amounts: seq<int>)
    requires TripBooks(p, s, amounts) && s.earnings >= 1 && 0 <= p.commission <= p.total
    ensures
      var ledgerNet := s.earning + s.netReversal;
      var shown := ShownNet(p.refunded, p.total, p.commission, p.net);
      if amounts == [] then ledgerNet == shown == p.net
      else ledgerNet >= -(|amounts| - 1) && 0 <= shown - ledgerNet <= |amounts| - 1 && -s.commissionReversal <= p.commission
  {
    if amounts != [] { DriverNetBound(amounts, p.total, p.commission); }
  }

  // ---- Idempotent refunds ----

  /** One row per request, one row per gateway refund, and at most one refund of a payment in progress. */
  ghost predicate UniqueRefunds(refunds: seq<Refund>) {
    forall i, j :: 0 <= i < j < |refunds| ==>
      && !(refunds[i].trip == refunds[j].trip && refunds[i].amount == refunds[j].amount && refunds[i].reason == refunds[j].reason)
      && !(refunds[i].gatewayId.Some? && refunds[i].gatewayId == refunds[j].gatewayId)
      && !(refunds[i].trip == refunds[j].trip && refunds[i].status.PROCESSING? && refunds[j].status.PROCESSING?)
  }

  lemma RowStaysUnique(refunds: seq<Refund>, r: Refund)
    requires UniqueRefunds(refunds)
    requires FindRequest(refunds, r.trip, r.amount, r.reason).None? && FindProcessing(refunds, r.trip).None?
    requires r.gatewayId.Some? ==> FindGatewayId(refunds, r.gatewayId.value).None?
    ensures UniqueRefunds(refunds + [r])
  {
  }

  lemma RefundStaysUnique(db: Db, trip: nat, amount: Option<int>, reason: string, answer: Gateway)
    requires UniqueRefunds(db.refunds)
    ensures UniqueRefunds(RefundTripPayment(db, trip, amount, reason, answer).0.refunds)
  {
    var (t, result) := RefundTripPayment(db, trip, amount, reason, answer);
    if t != db { RowStaysUnique(db.refunds, t.refunds[|db.refunds|]); }
  }

  /** Refunds are idempotent over every run, in the request and in the gateway's refund id. */
  lemma {:induction false} RefundsStayUnique(w: World, actions: seq<Action>)
    requires UniqueRefunds(w.db.refunds)
    ensures UniqueRefunds(Run(w, actions).db.refunds)
    decreases |actions|
  {
    if actions != [] {
      match actions[0] {
        case AdminRefund(trip, amount, reason, answer) => RefundStaysUnique(w.db, trip, amount, reason, answer);
        case _ =>
      }
      RefundsStayUnique(Next(w, actions[0]), actions[1..]);
    }
  }

  // ---- The status of a fully refunded payment ----

  /** The documented status of a full refund: REFUNDED, with its settlement FAILED. */
  predicate RefundedLaw(db: Db) {
    forall t :: t in db.payments && db.payments[t].fully ==> db.payments[t].status.REFUNDED? && db.payments[t].settlement.FAILED?
  }

  /** The law holds now and after every step of the run. */
  predicate LawThroughout(w: World, actions: seq<Action>)
    decreases |actions|
  {
    RefundedLaw(w.db) && (actions != [] ==> LawThroughout(Next(w, actions[0]), actions[1..]))
  }

  /** No webhook is written to a payment that is fully refunded by then. */
  predicate NoLateWebhook(w: World, actions: seq<Action>)
    decreases |actions|
  {
    actions != [] ==>
      && (actions[0].Apply? && actions[0].hook in w.hooks && actions[0].hook.trip in w.db.payments ==>
            !w.db.payments[actions[0].hook.trip].fully)
      && NoLateWebhook(Next(w, actions[0]), actions[1..])
  }

  lemma RefundKeepsLaw(db: Db, trip: nat, amount: Option<int>, reason: string, answer: Gateway)
    requires RefundedLaw(db)
    ensures RefundedLaw(RefundTripPayment(db, trip, amount, reason, answer).0)
  {
    var t := RefundTripPayment(db, trip, amount, reason, answer).0;
    if t.payments != db.payments {
      assert t.payments == db.payments[trip := AfterRefund(db.payments[trip], CheckRefund(db, trip, amount, reason).1)];
    }
  }

  lemma ApplyAndLaw(db: Db, trip: nat, v: Verdict)
    requires RefundedLaw(db) && trip in db.payments
    ensures RefundedLaw(ApplyWebhook(db, trip, v)) <==> !db.payments[trip].fully
  {
    var t := ApplyWebhook(db, trip, v);
    assert t.payments[trip].fully == db.payments[trip].fully && !t.payments[trip].status.REFUNDED?;
  }

  /** The code keeps the documented status of full refunds in exactly the runs that write no webhook to a fully
      refunded payment: the idempotency check looks for APPROVED only, so a REFUNDED payment is processed again. */
  lemma {:induction false} LawExactly(w: World, actions: seq<Action>)
    requires RefundedLaw(w.db)
    ensures LawThroughout(w, actions) <==> NoLateWebhook(w, actions)
    decreases |actions|
  {
    if actions != [] {
      var next := Next(w, actions[0]);
      match actions[0] {
        case Apply(h) => if h in w.hooks && h.trip in w.db.payments { ApplyAndLaw(w.db, h.trip, h.verdict); }
        case AdminRefund(trip, amount, reason, answer) => RefundKeepsLaw(w.db, trip, amount, reason, answer);
        case _ =>
      }
      if RefundedLaw(next.db) { LawExactly(next, actions[1..]); } else {
        assert !LawThroughout(next, actions[1..]);
      }
    }
  }

  /** A duplicate approval webhook after a full refund: whatever else happened, the payment is APPROVED again. */
  lemma LateApprovalReopens(w: World, trip: nat, held: bool)
    requires trip in w.db.payments && w.db.payments[trip].fully && w.db.payments[trip].status.REFUNDED?
    ensures
      var h := Hook(trip, SaysApproved(held));
      var p := Next(Next(w, Receive(h)), Apply(h)).db.payments[trip];
      p.fully && p.status.APPROVED? && p.settlement == if held then NOT_SETTLED else SETTLED
  {
  }

  // ---- What REFUNDED means ----

  /** A REFUNDED payment has been refunded in full, and its settlement is FAILED. */
  ghost predicate RefundedIsFull(db: Db) {
    forall t :: t in db.payments && db.payments[t].status == REFUNDED ==>
      db.payments[t].refunded >= db.payments[t].total && db.payments[t].fully && db.payments[t].settlement == FAILED
  }

  lemma RefundKeepsFull(db: Db, trip: nat, amount: Option<int>, reason: string, answer: Gateway)
    requires RefundedIsFull(db)
    ensures RefundedIsFull(RefundTripPayment(db, trip, amount, reason, answer).0)
  {
  }

  lemma {:induction false} RunKeepsFull(w: World, actions: seq<Action>)
    requires RefundedIsFull(w.db)
    ensures RefundedIsFull(Run(w, actions).db)
    decreases |actions|
  {
    if actions != [] {
      if actions[0].AdminRefund? { RefundKeepsFull(w.db, actions[0].trip, actions[0].amount, actions[0].reason, actions[0].answer); }
      RunKeepsFull(Next(w, actions[0]), actions[1..]);
    }
  }

  /** In every run: a payment that is REFUNDED has been refunded to exactly its total, with a failed settlement; after any other
      refund it is never left so. */
  lemma RefundedMeansFull(actions: seq<Action>, trip: nat)
    requires trip in Run(START, actions).db.payments && Run(START, actions).db.payments[trip].status == REFUNDED
    ensures
      var p := Run(START, actions).db.payments[trip];
      p.refunded == p.total && p.fully && p.settlement == FAILED
  {
    RunKeepsFull(START, actions);
    RunKeepsBooks(START, actions);
    var db := Run(START, actions).db;
    assert TripBooks(db.payments[trip], SumsOf(db.ledger, trip), ApprovedAmounts(db.refunds, trip));
  }

  ghost predicate Reachable(w: World) { exists actions :: Run(START, actions) == w }

  lemma {:induction false} RunSnoc(w: World, actions: seq<Action>, a: Action)
    ensures Run(w, actions + [a]) == Next(Run(w, actions), a)
    decreases |actions|
  {
    if actions == [] {
      assert [a][1..] == [];
    } else {
      assert (actions + [a])[1..] == actions[1..] + [a];
      RunSnoc(Next(w, actions[0]), actions[1..], a);
    }
  }

  lemma ReachNext(w: World, a: Action)
    requires Reachable(w)
    ensures Reachable(Next(w, a))
  {
    var actions :| Run(START, actions) == w;
    RunSnoc(START, actions, a);
  }

  lemma CreatedTrip() returns (w: World)
    ensures Reachable(w) && w.db.refunds == [] && w.db.ledger == []
    ensures 0 in w.db.payments && w.db.payments[0] == Payment("d", 100, 10, 90, 0, false, CREATED, NOT_SETTLED)
  {
    assert Run(START, []) == START;
    w := Next(START, Create(0, "d", 100, 1000));
    ReachNext(START, Create(0, "d", 100, 1000));
  }

  lemma PaidTrip() returns (w: World)
    ensures Reachable(w) && w.db.refunds == []
    ensures 0 in w.db.payments && w.db.payments[0] == Payment("d", 100, 10, 90, 0, false, APPROVED, SETTLED)
  {
    var h := Hook(0, SaysApproved(false));
    var created := CreatedTrip();
    var received := Next(created, Receive(h));
    ReachNext(created, Receive(h));
    w := Next(received, Apply(h));
    ReachNext(received, Apply(h));
  }

  lemma RefundedTrip() returns (w: World)
    ensures Reachable(w) && 0 in w.db.payments && w.db.payments[0].fully && w.db.payments[0].status.REFUNDED?
  {
    var paid := PaidTrip();
    assert CheckRefund(paid.db, 0, None, "dispute") == (Refunded(0), 100);
    w := Next(paid, AdminRefund(0, None, "dispute", Accepted("mp-1")));
    ReachNext(paid, AdminRefund(0, None, "dispute", Accepted("mp-1")));
  }

  /** So the documented law fails in a run of one checkout, one refund and two approval webhooks. */
  lemma LawFailsInSomeRun()
    ensures exists w :: Reachable(w) && !RefundedLaw(w.db)
  {
    var w := RefundedTrip();
    var h := Hook(0, SaysApproved(false));
    LateApprovalReopens(w, 0, false);
    ReachNext(w, Receive(h));
    ReachNext(Next(w, Receive(h)), Apply(h));
  }
}
