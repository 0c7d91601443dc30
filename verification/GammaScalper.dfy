/**
 The gamma scalper: which order brings portfolio delta back towards zero.

 Share counts are integers and delta is real, so everything turns on rounding.
 Python's `round` takes a tie to the even neighbour (section 4.3.1 of IEEE 754-2008).
 The rounding is a parameter here only so that the other common rule can be shown
 not to work.
 */
module GammaScalper {
  import opened Prelude

  datatype Rounding = TiesToEven | TiesAway

  function Round(mode: Rounding, x: real): int {
    var low := x.Floor;
    var part := x - low as real;
    if part < 0.5 then low
    else if part > 0.5 then low + 1
    else match mode
         case TiesToEven => if low % 2 == 0 then low else low + 1
         case TiesAway => if x >= 0.0 then low + 1 else low
  }

  function PyRound(x: real): int {
    Round(TiesToEven, x)
  }

  predicate IsTie(x: real) {
    x - x.Floor as real == 0.5
  }

  /** The rounding is the nearest integer, and at a tie the even one of the two. */
  lemma RoundIsNearestEven(x: real, n: int)
    ensures PyRound(x) == n <==>
            Abs(x - n as real) < 0.5 || (Abs(x - n as real) == 0.5 && n % 2 == 0)
    ensures IsTie(x) <==> Abs(x - PyRound(x) as real) == 0.5
  {
    var low := x.Floor;
    if n < low || n > low + 1 {
      assert Abs(x - n as real) >= 1.0 || n == low - 1;
    }
  }

  datatype Side = Buy | Sell

  datatype HedgeIntent = HedgeIntent(targetShares: int, side: Side, quantity: int, forceHedge: bool)
  {
    function Signed(): int {
      if side == Buy then quantity else -quantity
    }
  }

  function ComputeTargetPosition(delta: real, stock: int): int {
    PyRound(-(delta - stock as real))
  }

  function ComputeTargetAndNeed(delta: real, stock: int): (r: (real, real))
    ensures r.1 == -delta
  {
    var target := -(delta - stock as real);
    (target, target - stock as real)
  }

  function Min(a: int, b: int): int {
    if a <= b then a else b
  }

  function IntentWith(mode: Rounding, delta: real, stock: int, threshold: real, maxQty: int): Option<HedgeIntent> {
    var need := ComputeTargetAndNeed(delta, stock).1;
    var target := Round(mode, -(delta - stock as real));
    if need > threshold then
      var qty := Min(Round(mode, need), maxQty);
      if qty <= 0 then None else Some(HedgeIntent(target, Buy, qty, false))
    else if need < -threshold then
      var qty := Min(Round(mode, -need), maxQty);
      if qty <= 0 then None else Some(HedgeIntent(target, Sell, qty, false))
    else None
  }

  function Intent(delta: real, stock: int, threshold: real, maxQty: int): Option<HedgeIntent> {
    IntentWith(TiesToEven, delta, stock, threshold, maxQty)
  }

  // ---- One order --------------------------------------------------------------------

  /** An order is emitted exactly when the excess is over the threshold and rounds
      to a whole share (and orders are allowed at all); its sign opposes delta. */
  lemma IntentMeaning(delta: real, stock: int, threshold: real, maxQty: int)
    requires threshold >= 0.0
    ensures var i := Intent(delta, stock, threshold, maxQty);
            && (i.Some? <==> Abs(delta) > threshold && PyRound(Abs(delta)) >= 1 && maxQty >= 1)
            && (i.Some? ==> i.value.quantity == Min(PyRound(Abs(delta)), maxQty)
                            && 1 <= i.value.quantity <= maxQty
                            && (i.value.side == Buy <==> delta < 0.0)
                            && i.value.targetShares == ComputeTargetPosition(delta, stock)
                            && !i.value.forceHedge)
  {
  }

  /** Feeding an order back: a capped one shortens |delta| by the whole cap and never
      overshoots zero; an uncapped one leaves at most half a share. */
  lemma OneOrder(delta: real, stock: int, threshold: real, maxQty: int)
    requires threshold >= 0.0 && Intent(delta, stock, threshold, maxQty).Some?
    ensures var i := Intent(delta, stock, threshold, maxQty).value;
            var after := delta + i.Signed() as real;
            && (PyRound(Abs(delta)) > maxQty ==>
                  i.quantity == maxQty && Abs(after) == Abs(delta) - maxQty as real
                  && (after > 0.0 <==> delta > 0.0) && after != 0.0)
            && (PyRound(Abs(delta)) <= maxQty ==>
                  i.quantity == PyRound(Abs(delta)) && Abs(after) <= 0.5)
  {
    IntentMeaning(delta, stock, threshold, maxQty);
    RoundIsNearestEven(Abs(delta), PyRound(Abs(delta)));
  }

  // ---- The closed loop ----------------------------------------------------------------

  datatype Book = Book(delta: real, stock: int)

  function Fill(b: Book, i: HedgeIntent): Book {
    Book(b.delta + i.Signed() as real, b.stock + i.Signed())
  }

  function LoopWith(mode: Rounding, b: Book, threshold: real, maxQty: int, orders: nat): Book
    decreases orders
  {
    if orders == 0 then b
    else match IntentWith(mode, b.delta, b.stock, threshold, maxQty)
         case None => b
         case Some(i) => LoopWith(mode, Fill(b, i), threshold, maxQty, orders - 1)
  }

  /** Does the loop emit nothing once `orders` orders have been filled? */
  predicate Settled(mode: Rounding, b: Book, threshold: real, maxQty: int, orders: nat) {
    var e := LoopWith(mode, b, threshold, maxQty, orders);
    IntentWith(mode, e.delta, e.stock, threshold, maxQty) == None
  }

  function Ceil(x: real): int {
    if x == x.Floor as real then x.Floor else x.Floor + 1
  }

  lemma CeilShift(x: real, m: int)
    requires m >= 1
    ensures Ceil((x - m as real) / m as real) == Ceil(x / m as real) - 1
  {
    var y := x / m as real;
    assert y * m as real == x;
    QuotientIsUnique(x - m as real, m as real, y - 1.0);
    assert (y - 1.0).Floor == y.Floor - 1;
  }

  lemma QuotientIsUnique(a: real, b: real, q: real)
    requires b != 0.0 && q * b == a
    ensures a / b == q
  {
    var r := a / b;
    assert r * b == a;
    assert (r - q) * b == 0.0;
  }

  lemma CeilAtLeastOne(x: real, m: int)
    requires m >= 1 && x > 0.0
    ensures Ceil(x / m as real) >= 1
  {
    assert x / m as real > 0.0;
  }

  /** Convergence: with ties to even the loop is silent after at most
      ceil(|delta| / M) orders, whatever the threshold, and by then it has left
      delta within the threshold or within half a share. */
  lemma {:induction false} LoopSettles(b: Book, threshold: real, maxQty: int, orders: nat)
    requires threshold >= 0.0 && maxQty >= 1
    requires orders >= Ceil(Abs(b.delta) / maxQty as real)
    ensures Settled(TiesToEven, b, threshold, maxQty, orders)
    ensures var e := LoopWith(TiesToEven, b, threshold, maxQty, orders);
            Abs(e.delta) <= threshold || Abs(e.delta) <= 0.5
    decreases orders
  {
    IntentMeaning(b.delta, b.stock, threshold, maxQty);
    RoundIsNearestEven(Abs(b.delta), PyRound(Abs(b.delta)));
    match Intent(b.delta, b.stock, threshold, maxQty)
    case None =>
    case Some(i) =>
      CeilAtLeastOne(Abs(b.delta), maxQty);
      OneOrder(b.delta, b.stock, threshold, maxQty);
      var b' := Fill(b, i);
      if PyRound(Abs(b.delta)) > maxQty {
        CeilShift(Abs(b.delta), maxQty);
        LoopSettles(b', threshold, maxQty, orders - 1);
      } else {
        SilentAtHalf(b', threshold, maxQty);
      }
  }

  lemma SilentAtHalf(b: Book, threshold: real, maxQty: int)
    requires threshold >= 0.0 && Abs(b.delta) <= 0.5
    ensures Intent(b.delta, b.stock, threshold, maxQty) == None
    ensures forall k: nat :: LoopWith(TiesToEven, b, threshold, maxQty, k) == b
  {
    RoundIsNearestEven(Abs(b.delta), 0);
    IntentMeaning(b.delta, b.stock, threshold, maxQty);
  }

  function Times(k: nat, m: int): int {
    if k == 0 then 0 else Times(k - 1, m) + m
  }

  lemma {:induction false} TimesIsProduct(k: nat, m: int)
    ensures Times(k, m) == k * m
  {
    if k > 0 {
      TimesIsProduct(k - 1, m);
    }
  }

  lemma {:induction false} UnsettledAfter(delta: int, stock: int, maxQty: int, k: nat)
    requires maxQty >= 1 && delta > Times(k, maxQty) >= 0
    ensures !Settled(TiesToEven, Book(delta as real, stock), 0.0, maxQty, k)
    decreases k
  {
    assert PyRound(delta as real) == delta;
    if k > 0 {
      TimesIsProduct(k - 1, maxQty);
      UnsettledAfter(delta - maxQty, stock - maxQty, maxQty, k - 1);
    }
  }

  /** The bound is met: from a whole delta of more than k caps, k orders do not
      settle the loop. */
  lemma BoundIsTight(delta: int, stock: int, maxQty: int, k: nat)
    requires maxQty >= 1 && delta > k * maxQty
    ensures !Settled(TiesToEven, Book(delta as real, stock), 0.0, maxQty, k)
  {
    TimesIsProduct(k, maxQty);
    UnsettledAfter(delta, stock, maxQty, k);
  }

  /** Rounding ties away from zero instead never settles: from half a share long
      the loop sells one, buys one, for ever. */
  lemma {:induction false} TiesAwayNeverSettles(stock: int, maxQty: int, orders: nat, long: bool)
    requires maxQty >= 1
    ensures !Settled(TiesAway, Book(if long then 0.5 else -0.5, stock), 0.0, maxQty, orders)
    decreases orders
  {
    if orders > 0 {
      TiesAwayNeverSettles(if long then stock - 1 else stock + 1, maxQty, orders - 1, !long);
    }
  }

  // ---- The target and the order agree ---------------------------------------------------

  lemma RoundShift(x: real, k: int)
    ensures PyRound(x + k as real) ==
            PyRound(x) + k + (if IsTie(x) && k % 2 != 0 then (if x.Floor % 2 == 0 then 1 else -1) else 0)
  {
    assert (x + k as real).Floor == x.Floor + k;
  }

  /** The number of whole shares still needed is not what decreases. A capped order
      takes it down, except exactly when the cap is one share and delta lies half-way
      above an even integer: then it stays where it was. */
  lemma RoundedNeedStallsExactlyWhen(b: Book, threshold: real, maxQty: int)
    requires threshold >= 0.0 && Intent(b.delta, b.stock, threshold, maxQty).Some?
    requires PyRound(Abs(b.delta)) > maxQty
    ensures var after := Fill(b, Intent(b.delta, b.stock, threshold, maxQty).value);
            && PyRound(Abs(after.delta)) <= PyRound(Abs(b.delta))
            && (PyRound(Abs(after.delta)) == PyRound(Abs(b.delta)) <==>
                  maxQty == 1 && IsTie(b.delta) && Abs(b.delta).Floor % 2 == 0)
  {
    OneOrder(b.delta, b.stock, threshold, maxQty);
    IntentMeaning(b.delta, b.stock, threshold, maxQty);
    RoundShift(Abs(b.delta), -maxQty);
    RoundNegates(b.delta);
  }

  lemma RoundNegates(x: real)
    ensures PyRound(-x) == -PyRound(x)
    ensures IsTie(-x) <==> IsTie(x)
  {
    RoundIsNearestEven(x, PyRound(x));
    RoundIsNearestEven(-x, -PyRound(x));
  }

  /** What the execution side plans (`targetShares - stock`) against what the order
      says: the same sign always, at least the order when it was capped, and equal
      to it when it was not, except off by exactly one when delta lies half-way
      between integers and the stock position is odd. */
  lemma PlanAgreesWithOrder(delta: real, stock: int, threshold: real, maxQty: int)
    requires threshold >= 0.0 && Intent(delta, stock, threshold, maxQty).Some?
    ensures var i := Intent(delta, stock, threshold, maxQty).value;
            var plan := i.targetShares - stock;
            && (i.side == Buy ==> plan > 0) && (i.side == Sell ==> plan < 0)
            && (PyRound(Abs(delta)) > maxQty ==> AbsInt(plan) >= i.quantity)
            && (PyRound(Abs(delta)) <= maxQty ==>
                  (plan == i.Signed() <==> !(IsTie(delta) && stock % 2 != 0))
                  && AbsInt(plan - i.Signed()) <= 1)
  {
    IntentMeaning(delta, stock, threshold, maxQty);
    assert -(delta - stock as real) == -delta + stock as real;
    RoundShift(-delta, stock);
    RoundNegates(delta);
    RoundIsNearestEven(delta, PyRound(delta));
  }
}
