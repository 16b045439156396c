/** Payments, refunds, the ledger and the payout summaries (services/payment/src/payments/payments.service.ts). */
module Payments {
  import opened Common
  import opened RefundArithmetic

  type User = string

  datatype PaymentStatus = CREATED | PENDING | APPROVED | REJECTED | REFUNDED
  datatype Settlement = NOT_SETTLED | SETTLED | FAILED
  datatype RefundStatus = PROCESSING | REFUND_APPROVED | REFUND_FAILED

  /** A trip has at most one payment, so the trip names it. */
  datatype Payment = Payment(driver: User, total: int, commission: int, net: int, refunded: int, fully: bool,
                             status: PaymentStatus, settlement: Settlement)

  datatype Refund = Refund(trip: nat, amount: int, reason: string, status: RefundStatus, gatewayId: Option<string>)

  datatype Kind =
    | TRIP_REVENUE | PLATFORM_COMMISSION | DRIVER_EARNING
    | REFUND_REVERSAL | COMMISSION_REVERSAL | DRIVER_NET_REVERSAL

  /** A ledger row. `driver` is the driver of the trip's payment; the actor columns follow from the kind. */
  datatype Entry = Entry(trip: nat, driver: User, kind: Kind, amount: int)

  /** A payout summary; `total_bonus_discount` is carried over unchanged by every write and is left out. */
  datatype Summary = Summary(gross: int, commission: int, net: int)

  datatype Db = Db(payments: map<nat, Payment>, refunds: seq<Refund>, ledger: seq<Entry>, summaries: map<User, Summary>)

  const EMPTY := Db(map[], [], [], map[])

  function SummaryAt(summaries: map<User, Summary>, d: User): Summary {
    if d in summaries then summaries[d] else Summary(0, 0, 0)
  }

  function Plus(s: Summary, w: Summary): Summary { Summary(s.gross + w.gross, s.commission + w.commission, s.net + w.net) }

  /** The summary upsert: the driver's cached totals change by `w`. */
  function Moved(summaries: map<User, Summary>, d: User, w: Summary): map<User, Summary> {
    summaries[d := Plus(SummaryAt(summaries, d), w)]
  }

  // ---- The ledger as sums ----

  /** What the entries of one trip come to: how often each approval entry occurs, and each kind's total. */
  datatype Sums = Sums(earnings: nat, revenues: nat, commissions: nat, revenue: int, commission: int, earning: int,
                       refundReversal: int, commissionReversal: int, netReversal: int)

  function Bump(s: Sums, e: Entry): Sums {
    match e.kind
    case TRIP_REVENUE => s.(revenues := s.revenues + 1, revenue := s.revenue + e.amount)
    case PLATFORM_COMMISSION => s.(commissions := s.commissions + 1, commission := s.commission + e.amount)
    case DRIVER_EARNING => s.(earnings := s.earnings + 1, earning := s.earning + e.amount)
    case REFUND_REVERSAL => s.(refundReversal := s.refundReversal + e.amount)
    case COMMISSION_REVERSAL => s.(commissionReversal := s.commissionReversal + e.amount)
    case DRIVER_NET_REVERSAL => s.(netReversal := s.netReversal + e.amount)
  }

  function SumsOf(ledger: seq<Entry>, trip: nat): Sums {
    if ledger == [] then Sums(0, 0, 0, 0, 0, 0, 0, 0, 0)
    else
      var e, rest := ledger[|ledger| - 1], SumsOf(ledger[..|ledger| - 1], trip);
      if e.trip == trip then Bump(rest, e) else rest
  }

  /** The summary column that an entry belongs to. */
  function Effect(e: Entry): Summary {
    match e.kind
    case TRIP_REVENUE => Summary(e.amount, 0, 0)
    case REFUND_REVERSAL => Summary(e.amount, 0, 0)
    case PLATFORM_COMMISSION => Summary(0, e.amount, 0)
    case COMMISSION_REVERSAL => Summary(0, e.amount, 0)
    case DRIVER_EARNING => Summary(0, 0, e.amount)
    case DRIVER_NET_REVERSAL => Summary(0, 0, e.amount)
  }

  /** The ledger of one driver's trips, added up by summary column. */
  function PaidTo(ledger: seq<Entry>, d: User): Summary {
    if ledger == [] then Summary(0, 0, 0)
    else
      var e, rest := ledger[|ledger| - 1], PaidTo(ledger[..|ledger| - 1], d);
      if e.driver == d then Plus(rest, Effect(e)) else rest
  }

  lemma LedgerSnoc(ledger: seq<Entry>, e: Entry, trip: nat, d: User)
    ensures SumsOf(ledger + [e], trip) == if e.trip == trip then Bump(SumsOf(ledger, trip), e) else SumsOf(ledger, trip)
    ensures PaidTo(ledger + [e], d) == if e.driver == d then Plus(PaidTo(ledger, d), Effect(e)) else PaidTo(ledger, d)
  {
    assert (ledger + [e])[..|ledger|] == ledger;
  }

  /** Three entries of one trip, booked together. */
  lemma SumsSnoc3(ledger: seq<Entry>, a: Entry, b: Entry, c: Entry, trip: nat)
    requires a.trip == b.trip == c.trip
    ensures SumsOf(ledger + [a, b, c], trip) ==
              if a.trip == trip then Bump(Bump(Bump(SumsOf(ledger, trip), a), b), c) else SumsOf(ledger, trip)
  {
    assert ledger + [a, b, c] == ((ledger + [a]) + [b]) + [c];
    LedgerSnoc(ledger, a, trip, a.driver);
    LedgerSnoc(ledger + [a], b, trip, a.driver);
    LedgerSnoc(ledger + [a] + [b], c, trip, a.driver);
  }

  lemma PaidSnoc3(ledger: seq<Entry>, a: Entry, b: Entry, c: Entry, d: User)
    requires a.driver == b.driver == c.driver
    ensures PaidTo(ledger + [a, b, c], d) ==
              if a.driver == d then Plus(Plus(Plus(PaidTo(ledger, d), Effect(a)), Effect(b)), Effect(c)) else PaidTo(ledger, d)
  {
    assert ledger + [a, b, c] == ((ledger + [a]) + [b]) + [c];
    LedgerSnoc(ledger, a, a.trip, d);
    LedgerSnoc(ledger + [a], b, a.trip, d);
    LedgerSnoc(ledger + [a] + [b], c, a.trip, d);
  }

  lemma {:induction false} FreshTrip(ledger: seq<Entry>, trip: nat)
    requires forall i :: 0 <= i < |ledger| ==> ledger[i].trip != trip
    ensures SumsOf(ledger, trip) == SumsOf([], trip)
  {
    if ledger != [] { FreshTrip(ledger[..|ledger| - 1], trip); }
  }

  function ApprovedAmounts(refunds: seq<Refund>, trip: nat): seq<int> {
    if refunds == [] then []
    else
      var r := refunds[|refunds| - 1];
      ApprovedAmounts(refunds[..|refunds| - 1], trip) + if r.trip == trip && r.status.REFUND_APPROVED? then [r.amount] else []
  }

  // ---- Creating a payment and the webhook ----

  /** Lines 121-142. The unique trip column refuses a second payment. */
  function CreatePreference(db: Db, trip: nat, driver: User, price: int, bps: int): Db {
    if trip in db.payments || price <= 0 then db
    else
      var c := CommissionAmount(price, bps);
      db.(payments := db.payments[trip := Payment(driver, price, c, price - c, 0, false, CREATED, NOT_SETTLED)])
  }

  /** A checkout freezes the price, its commission rounded down, and the rest for the driver. */
  lemma CheckoutMeans(db: Db, trip: nat, driver: User, price: int, bps: int)
    ensures
      var t := CreatePreference(db, trip, driver, price, bps);
      if trip in db.payments || price < 1 then t == db
      else
        && t == db.(payments := db.payments[trip := t.payments[trip]])
        && var p := t.payments[trip];
           && p.driver == driver && p.total == price && p.net == price - p.commission && p.refunded == 0 && !p.fully
           && p.status == CREATED && p.settlement == NOT_SETTLED
           && 10000 * p.commission <= price * bps < 10000 * p.commission + 10000
  {
    CommissionIsFloor(price, bps);
  }

  datatype Verdict = SaysApproved(held: bool) | SaysRejected | SaysOther

  /** The three entries of lines 205-235. */
  function ApprovalEntries(trip: nat, p: Payment): seq<Entry> {
    [Entry(trip, p.driver, PLATFORM_COMMISSION, p.commission),
     Entry(trip, p.driver, DRIVER_EARNING, p.net),
     Entry(trip, p.driver, TRIP_REVENUE, p.total)]
  }

  /** The writes of a webhook whose status read found the payment not APPROVED. */
  function ApplyWebhook(db: Db, trip: nat, v: Verdict): Db
    requires trip in db.payments
  {
    var p := db.payments[trip];
    match v
    case SaysApproved(held) =>
      var marked := db.(payments := db.payments[trip := p.(status := APPROVED, settlement := if held then NOT_SETTLED else SETTLED)]);
      if SumsOf(db.ledger, trip).earnings > 0 then marked
      else
        marked.(ledger := db.ledger + ApprovalEntries(trip, p),
                summaries := Moved(db.summaries, p.driver, Summary(p.total, p.commission, p.net)))
    case SaysRejected => db.(payments := db.payments[trip := p.(status := REJECTED, settlement := FAILED)])
    case SaysOther => db.(payments := db.payments[trip := p.(status := PENDING)])
  }

  // ---- Refunds ----

  /** The gateway's answer: an error (or no id), or the id of the refund it made. */
  datatype Gateway = Declined | Accepted(id: string)

  datatype RefundResult =
    | NotFound | BadStatus | AlreadyProcessing | NotPositive | ExceedsBalance
    | SameRequest(index: nat) | SameGatewayId(index: nat) | Failed(index: nat) | Refunded(index: nat)

  /** The first refund satisfying one of the lookups of lines 492, 506 and 527, if any. */
  function FindProcessing(refunds: seq<Refund>, trip: nat): (r: Option<nat>)
    ensures r.Some? ==> r.value < |refunds| && refunds[r.value].trip == trip && refunds[r.value].status.PROCESSING?
    ensures r.None? ==> forall i :: 0 <= i < |refunds| ==> !(refunds[i].trip == trip && refunds[i].status.PROCESSING?)
  {
    if refunds == [] then None
    else
      var rest := FindProcessing(refunds[..|refunds| - 1], trip);
      var r := refunds[|refunds| - 1];
      if rest.Some? then rest else if r.trip == trip && r.status.PROCESSING? then Some(|refunds| - 1) else None
  }

  function FindRequest(refunds: seq<Refund>, trip: nat, amount: int, reason: string): (r: Option<nat>)
    ensures r.Some? ==> r.value < |refunds| && refunds[r.value].trip == trip && refunds[r.value].amount == amount && refunds[r.value].reason == reason
    ensures r.None? ==> forall i :: 0 <= i < |refunds| ==> !(refunds[i].trip == trip && refunds[i].amount == amount && refunds[i].reason == reason)
  {
    if refunds == [] then None
    else
      var rest := FindRequest(refunds[..|refunds| - 1], trip, amount, reason);
      var r := refunds[|refunds| - 1];
      if rest.Some? then rest
      else if r.trip == trip && r.amount == amount && r.reason == reason then Some(|refunds| - 1) else None
  }

  function FindGatewayId(refunds: seq<Refund>, id: string): (r: Option<nat>)
    ensures r.Some? ==> r.value < |refunds| && refunds[r.value].gatewayId == Some(id)
    ensures r.None? ==> forall i :: 0 <= i < |refunds| ==> refunds[i].gatewayId != Some(id)
  {
    if refunds == [] then None
    else
      var rest := FindGatewayId(refunds[..|refunds| - 1], id);
      if rest.Some? then rest else if refunds[|refunds| - 1].gatewayId == Some(id) then Some(|refunds| - 1) else None
  }

  /** The checks of lines 488-509: a refusal, the amount to refund, or the earlier refund of the same request. */
  function CheckRefund(db: Db, trip: nat, amount: Option<int>, reason: string): (RefundResult, int) {
    if trip !in db.payments then (NotFound, 0)
    else
      var p := db.payments[trip];
      if !p.status.APPROVED? && !p.status.REFUNDED? then (BadStatus, 0)
      else if FindProcessing(db.refunds, trip).Some? then (AlreadyProcessing, 0)
      else
        var refundable := p.total - p.refunded;
        var a := if amount.Some? then amount.value else refundable;
        if a <= 0 then (NotPositive, 0)
        else if a > refundable then (ExceedsBalance, 0)
        else
          var same := FindRequest(db.refunds, trip, a, reason);
          if same.Some? then (SameRequest(same.value), a) else (Refunded(|db.refunds|), a)
  }

  /** What the checks come to: exactly when a refund goes to the gateway, and for how much. */
  lemma RefundVerdict(db: Db, trip: nat, amount: Option<int>, reason: string)
    ensures
      var (verdict, a) := CheckRefund(db, trip, amount, reason);
      && (verdict == NotFound <==> trip !in db.payments)
      && (trip in db.payments ==>
            var p := db.payments[trip];
            var asked := if amount.Some? then amount.value else p.total - p.refunded;
            var busy := exists i :: 0 <= i < |db.refunds| && db.refunds[i].trip == trip && db.refunds[i].status == PROCESSING;
            && (verdict == BadStatus <==> p.status != APPROVED && p.status != REFUNDED)
            && (verdict == AlreadyProcessing <==> (p.status == APPROVED || p.status == REFUNDED) && busy)
            && (verdict == NotPositive <==> (p.status == APPROVED || p.status == REFUNDED) && !busy && asked < 1)
            && (verdict == ExceedsBalance <==>
                  (p.status == APPROVED || p.status == REFUNDED) && !busy && asked >= 1 && p.refunded + asked > p.total)
            && (verdict.Refunded? <==>
                  && (p.status == APPROVED || p.status == REFUNDED) && !busy && 1 <= asked && p.refunded + asked <= p.total
                  && forall i :: 0 <= i < |db.refunds| ==>
                       !(db.refunds[i].trip == trip && db.refunds[i].amount == asked && db.refunds[i].reason == reason))
            && (verdict.Refunded? || verdict.SameRequest? ==> a == asked))
  {
  }

  function ReversalEntries(trip: nat, driver: User, a: int, split: Split): seq<Entry> {
    [Entry(trip, driver, REFUND_REVERSAL, -a),
     Entry(trip, driver, COMMISSION_REVERSAL, -split.commissionReversal),
     Entry(trip, driver, DRIVER_NET_REVERSAL, -split.driverReversal)]
  }

  /** Lines 571-588. */
  function AfterRefund(p: Payment, a: int): Payment {
    var next := p.refunded + a;
    var full := next >= p.total;
    p.(refunded := next, fully := full, status := if full then REFUNDED else APPROVED,
       settlement := if full then FAILED else if p.settlement.NOT_SETTLED? then NOT_SETTLED else SETTLED)
  }

  /** The writes of lines 533-614 for an accepted refund. */
  function BookRefund(db: Db, trip: nat, a: int, reason: string, id: string): Db
    requires trip in db.payments
  {
    var p := db.payments[trip];
    var split := ComputeRefundSplit(a, p.total, p.commission);
    Db(db.payments[trip := AfterRefund(p, a)],
       db.refunds + [Refund(trip, a, reason, REFUND_APPROVED, Some(id))],
       db.ledger + ReversalEntries(trip, p.driver, a, split),
       Moved(db.summaries, p.driver, Summary(-a, -split.commissionReversal, -split.driverReversal)))
  }

  /** The whole transaction of lines 482-662. A refusal rolls back; a declined gateway call keeps a failed refund row. */
  function RefundTripPayment(db: Db, trip: nat, amount: Option<int>, reason: string, answer: Gateway): (Db, RefundResult) {
    var (verdict, a) := CheckRefund(db, trip, amount, reason);
    if !verdict.Refunded? || trip !in db.payments then (db, verdict)
    else
      var n := |db.refunds|;
      match answer
      case Declined => (db.(refunds := db.refunds + [Refund(trip, a, reason, REFUND_FAILED, None)]), Failed(n))
      case Accepted(id) =>
        var other := FindGatewayId(db.refunds, id);
        if id == "" then (db.(refunds := db.refunds + [Refund(trip, a, reason, REFUND_FAILED, None)]), Failed(n))
        else if other.Some? then
          (db.(refunds := db.refunds + [Refund(trip, a, reason, PROCESSING, None)]), SameGatewayId(other.value))
        else
          (BookRefund(db, trip, a, reason, id), Refunded(n))
  }

  /** The service working on its tables one call at a time. */
  class PaymentsService {
    var payments: map<nat, Payment>
    var refunds: seq<Refund>
    var ledger: seq<Entry>
    var summaries: map<User, Summary>

    ghost function Tables(): Db
      reads this
    {
      Db(payments, refunds, ledger, summaries)
    }

    constructor ()
      ensures Tables() == EMPTY
    {
      payments, refunds, ledger, summaries := map[], [], [], map[];
    }

    method CountEarnings(trip: nat) returns (n: nat)
      ensures n == SumsOf(ledger, trip).earnings
    {
      n := 0;
      for i := 0 to |ledger|
        invariant n == SumsOf(ledger[..i], trip).earnings
      {
        assert ledger[..i + 1][..i] == ledger[..i];
        if ledger[i].trip == trip && ledger[i].kind == DRIVER_EARNING { n := n + 1; }
      }
      assert ledger[..|ledger|] == ledger;
    }

    /** Lines 162-281 after the signature check and the lookup by reference. */
    method ProcessWebhook(trip: nat, v: Verdict) returns (found: bool)
      modifies this
      ensures found <==> trip in old(payments)
      ensures Tables() == if trip in old(payments) && !old(payments)[trip].status.APPROVED?
                          then ApplyWebhook(old(Tables()), trip, v) else old(Tables())
      ensures trip in old(payments) && old(payments)[trip].status != APPROVED ==>
                && refunds == old(refunds) && payments == old(payments)[trip := payments[trip]]
                && payments[trip] == old(payments)[trip].(status := payments[trip].status, settlement := payments[trip].settlement)
                && (v.SaysApproved? ==>
                      payments[trip].status == APPROVED && payments[trip].settlement == (if v.held then NOT_SETTLED else SETTLED))
                && (v.SaysRejected? ==> payments[trip].status == REJECTED && payments[trip].settlement == FAILED)
                && (v.SaysOther? ==> payments[trip].status == PENDING && payments[trip].settlement == old(payments)[trip].settlement)
                && (!v.SaysApproved? || SumsOf(old(ledger), trip).earnings > 0 ==> ledger == old(ledger) && summaries == old(summaries))
                && (v.SaysApproved? && SumsOf(old(ledger), trip).earnings == 0 ==> |ledger| == |old(ledger)| + 3)
    {
      found := trip in payments;
      if !found || payments[trip].status.APPROVED? { return; }
      var p := payments[trip];
      if v.SaysApproved? {
        payments := payments[trip := p.(status := APPROVED, settlement := if v.held then NOT_SETTLED else SETTLED)];
        var existing := CountEarnings(trip);
        if existing > 0 { return; }
        ledger := ledger + ApprovalEntries(trip, p);
        var s := if p.driver in summaries then summaries[p.driver] else Summary(0, 0, 0);
        summaries := summaries[p.driver :=
          Summary(s.gross + p.total, s.commission + p.commission, s.net + p.net)];
      } else if v.SaysRejected? {
        payments := payments[trip := p.(status := REJECTED, settlement := FAILED)];
      } else {
        payments := payments[trip := p.(status := PENDING)];
      }
    }

    /** Lines 476-663. A refund is made exactly of an approved or refunded payment, of at least 1 and at most what is left, with
        none in progress and none like it before; in full it ends REFUNDED with a failed settlement, in part APPROVED, and then
        a settlement that was held stays held. */
    method AdminRefundTripPayment(trip: nat, amount: Option<int>, reason: string, answer: Gateway) returns (result: RefundResult)
      modifies this
      ensures (Tables(), result) == RefundTripPayment(old(Tables()), trip, amount, reason, answer)
      ensures !result.Refunded? ==> payments == old(payments) && ledger == old(ledger) && summaries == old(summaries)
      ensures result.NotFound? <==> trip !in old(payments)
      ensures result.Refunded? ==>
                var p, q := old(payments)[trip], payments[trip];
                && 1 <= q.refunded - p.refunded <= p.total - p.refunded
                && q.refunded - p.refunded == (if amount.Some? then amount.value else p.total - p.refunded)
                && (q.refunded == p.total ==> q.status == REFUNDED && q.settlement == FAILED && q.fully)
                && (q.refunded < p.total ==>
                      q.status == APPROVED && q.settlement == (if p.settlement == NOT_SETTLED then NOT_SETTLED else SETTLED) && !q.fully)
                && q == p.(refunded := q.refunded, status := q.status, settlement := q.settlement, fully := q.fully)
                && payments == old(payments)[trip := q]
    {
      var (verdict, a) := CheckRefund(Db(payments, refunds, ledger, summaries), trip, amount, reason);
      if !verdict.Refunded? { return verdict; }
      var p := payments[trip];
      var n := |refunds|;
      refunds := refunds + [Refund(trip, a, reason, PROCESSING, None)];
      if answer.Declined? || answer.id == "" {
        refunds := refunds[n := refunds[n].(status := REFUND_FAILED)];
        assert refunds == old(refunds) + [Refund(trip, a, reason, REFUND_FAILED, None)];
        return Failed(n);
      }
      assert refunds[..n] == old(refunds);
      var other := FindGatewayId(refunds, answer.id);
      if other.Some? { return SameGatewayId(other.value); }
      var split := ComputeRefundSplit(a, p.total, p.commission);
      ledger := ledger + ReversalEntries(trip, p.driver, a, split);
      payments := payments[trip := AfterRefund(p, a)];
      refunds := refunds[n := Refund(trip, a, reason, REFUND_APPROVED, Some(answer.id))];
      var s := if p.driver in summaries then summaries[p.driver] else Summary(0, 0, 0);
      summaries := summaries[p.driver :=
        Summary(s.gross - a, s.commission - split.commissionReversal, s.net - split.driverReversal)];
      assert refunds == old(refunds) + [Refund(trip, a, reason, REFUND_APPROVED, Some(answer.id))];
      return Refunded(n);
    }
  }
}
