/** Commission and refund splits in whole currency units
    (services/payment/src/payments/payments.service.ts). */
module RefundArithmetic {

  function Max(a: int, b: int): int { if a >= b then a else b }

  /** Lines 62-69: the default rate less the bonus discount, but never below the floor. */
  function EffectiveBps(defaultBps: int, discount: int, floor: int): (bps: int)
    ensures bps >= floor && bps >= defaultBps - discount && (bps == floor || bps == defaultBps - discount)
  {
    Max(defaultBps - discount, floor)
  }

  /** Line 122. Division by a positive number rounds down here as `Math.floor` does. */
  function CommissionAmount(total: int, bps: int): int { (total * bps) / 10000 }

  /** The largest whole amount within the rate. */
  lemma CommissionIsFloor(total: int, bps: int)
    ensures 10000 * CommissionAmount(total, bps) <= total * bps < 10000 * CommissionAmount(total, bps) + 10000
  {
  }

  datatype Split = Split(commissionReversal: int, driverReversal: int)

  /** Lines 384-390. */
  function ComputeRefundSplit(refundAmount: int, amountTotal: int, commissionAmount: int): Split {
    var commissionReversal := (refundAmount * commissionAmount) / Max(1, amountTotal);
    Split(commissionReversal, refundAmount - commissionReversal)
  }

  /** Lines 320-329: the net shown to the driver, from the refunded total alone. */
  function ShownNet(refunded: int, total: int, commission: int, driverNet: int): int {
    driverNet - (refunded - (refunded * commission) / Max(1, total))
  }

  function Sum(amounts: seq<int>): int {
    if amounts == [] then 0 else Sum(amounts[..|amounts| - 1]) + amounts[|amounts| - 1]
  }

  /** What the reversals of a sequence of refunds add up to. */
  function CommissionReversed(amounts: seq<int>, total: int, commission: int): int {
    if amounts == [] then 0
    else CommissionReversed(amounts[..|amounts| - 1], total, commission)
         + ComputeRefundSplit(amounts[|amounts| - 1], total, commission).commissionReversal
  }

  lemma Distribute(a: int, b: int, c: int)
    ensures (a + b) * c == a * c + b * c
  {
  }

  lemma MulStep(t: int, a: int, b: int)
    requires t >= 1
    ensures a > b ==> t * a >= t * b + t
  {
    if a > b {
      var d := a - b - 1;
      Distribute(b + 1, d, t);
      Distribute(b, 1, t);
      assert d * t >= 0;
    }
  }

  lemma DivUnique(x: int, t: int, q: int)
    requires t >= 1 && t * q <= x < t * q + t
    ensures x / t == q
  {
    assert x == t * (x / t) + x % t;
    MulStep(t, x / t, q);
    MulStep(t, q, x / t);
  }

  lemma FloorGap(x: int, y: int, t: int)
    requires t >= 1
    ensures 0 <= (x + y) / t - x / t - y / t <= 1
  {
    var q, r := x / t + y / t, x % t + y % t;
    assert x + y == t * q + r by { assert t * q == t * (x / t) + t * (y / t); }
    if r < t { DivUnique(x + y, t, q); } else {
      assert t * (q + 1) == t * q + t;
      DivUnique(x + y, t, q + 1);
    }
  }

  lemma RoundingStep(x: int, y: int, t: int, reversed: int, k: int)
    requires t >= 1 && 0 <= x / t - reversed <= k
    ensures 0 <= (x + y) / t - (reversed + y / t) <= k + 1
  {
    FloorGap(x, y, t);
  }

  /** Rounding every refund down loses at most one unit per refund after the first, whatever the amounts. */
  lemma {:induction false} RoundingBound(amounts: seq<int>, total: int, commission: int)
    requires total >= 1 && |amounts| >= 1
    ensures 0 <= (Sum(amounts) * commission) / total - CommissionReversed(amounts, total, commission) <= |amounts| - 1
  {
    var init, last := amounts[..|amounts| - 1], amounts[|amounts| - 1];
    if init == [] {
      assert Sum(amounts) == last;
    } else {
      RoundingBound(init, total, commission);
      Distribute(Sum(init), last, commission);
      RoundingStep(Sum(init) * commission, last * commission, total, CommissionReversed(init, total, commission), |init| - 1);
    }
  }

  function Ones(k: nat): (s: seq<int>)
    ensures |s| == k && forall i :: 0 <= i < k ==> s[i] == 1
  {
    if k == 0 then [] else Ones(k - 1) + [1]
  }

  lemma {:induction false} OnesReverseNothing(k: nat, total: int, commission: int)
    requires 0 <= commission < total
    ensures Sum(Ones(k)) == k && CommissionReversed(Ones(k), total, commission) == 0
  {
    if k > 0 {
      assert Ones(k)[..k - 1] == Ones(k - 1);
      OnesReverseNothing(k - 1, total, commission);
    }
  }

  /** The bound is attained for every number of refunds: k unit refunds of a payment of k whose commission is k - 1. */
  lemma RoundingBoundIsSharp(k: nat)
    requires k >= 1
    ensures Sum(Ones(k)) == k
    ensures (Sum(Ones(k)) * (k - 1)) / k - CommissionReversed(Ones(k), k, k - 1) == k - 1
  {
    OnesReverseNothing(k, k, k - 1);
    DivUnique(k * (k - 1), k, k - 1);
  }

  lemma FloorBetween(x: int, t: int, lo: int, hi: int)
    requires t >= 1 && t * lo <= x <= t * hi
    ensures lo <= x / t <= hi
  {
    assert x == t * (x / t) + x % t;
    MulStep(t, lo, x / t);
    MulStep(t, x / t, hi);
  }

  lemma Product(a: int, b: int)
    requires a >= 0 && b >= 0
    ensures a * b >= 0
  {
  }

  lemma FloorOfShare(r: int, c: int, t: int)
    requires t >= 1 && 0 <= c <= t && 0 <= r <= t
    ensures 0 <= (r * c) / t <= c
    ensures r - (r * c) / t <= t - c
  {
    Product(r, c);
    Product(t - r, c);
    Product(t - r, t - c);
    Distribute(t - r, r, c);
    FloorBetween(r * c, t, 0, c);
    Distribute(t - c, c, t - r);
    Distribute(t - r, r + c - t, t);
    Distribute(t - r, r, c);
    assert (t - r) * (t - c) == (t - r) * t - (t - r) * c;
    assert r * c >= t * (r + c - t);
    FloorAtLeast(r * c, t, r + c - t);
  }

  lemma FloorAtLeast(x: int, t: int, lo: int)
    requires t >= 1 && t * lo <= x
    ensures lo <= x / t
  {
    assert x == t * (x / t) + x % t;
    MulStep(t, lo, x / t);
  }

  /** One refund gives back its share of the commission, rounded down, and the rest from the driver. */
  lemma SplitMeans(amount: int, total: int, commission: int)
    requires total >= 1
    ensures
      var s := ComputeRefundSplit(amount, total, commission);
      && s.commissionReversal + s.driverReversal == amount
      && total * s.commissionReversal <= amount * commission < total * s.commissionReversal + total
  {
    var x := amount * commission;
    assert x == total * (x / total) + x % total;
  }

  /** Over any number of refunds within the payment, the reversed commission stays within the commission, the driver's
      ledger net never falls below minus the number of refunds after the first, and the shown net exceeds the ledger
      net by no more than that number. */
  lemma DriverNetBound(amounts: seq<int>, total: int, commission: int)
    requires total >= 1 && 0 <= commission <= total && |amounts| >= 1 && 0 <= Sum(amounts) <= total
    ensures CommissionReversed(amounts, total, commission) <= commission
    ensures
      var ledgerNet := (total - commission) - (Sum(amounts) - CommissionReversed(amounts, total, commission));
      var shown := ShownNet(Sum(amounts), total, commission, total - commission);
      ledgerNet >= -(|amounts| - 1) && 0 <= shown - ledgerNet <= |amounts| - 1
  {
    RoundingBound(amounts, total, commission);
    FloorOfShare(Sum(amounts), commission, total);
  }

  /** A full refund shows the driver exactly nothing, however it was cut into pieces. */
  lemma FullRefundShowsZero(total: int, commission: int)
    requires total >= 1
    ensures ShownNet(total, total, commission, total - commission) == 0
  {
    DivUnique(total * commission, total, commission);
  }

  /** The frozen commission lies between zero and the price for every price exactly when the rate is a proportion. */
  lemma CommissionWithinPrice(bps: int)
    ensures (forall total: int :: total >= 1 ==> 0 <= CommissionAmount(total, bps) <= total) <==> 0 <= bps <= 10000
  {
    if 0 <= bps <= 10000 {
      forall total: int | total >= 1 ensures 0 <= CommissionAmount(total, bps) <= total {
        var q := CommissionAmount(total, bps);
        assert 0 <= total * bps <= total * 10000 by { assert total * (10000 - bps) >= 0; }
      }
    } else {
      assert CommissionAmount(10000, bps) == bps by { DivUnique(10000 * bps, 10000, bps); }
    }
  }

  /** So with the configured rate, bonus discount and floor: exactly when neither the discounted rate nor the floor exceeds
      the whole price and one of them is not negative. */
  lemma FrozenCommissionWithinPrice(defaultBps: int, discount: int, floor: int)
    ensures (forall total: int :: total >= 1 ==> 0 <= CommissionAmount(total, EffectiveBps(defaultBps, discount, floor)) <= total)
            <==> defaultBps - discount <= 10000 && floor <= 10000 && (defaultBps - discount >= 0 || floor >= 0)
  {
    CommissionWithinPrice(EffectiveBps(defaultBps, discount, floor));
  }
}
