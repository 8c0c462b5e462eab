/**
  Cost-basis accounting of fills: the live worker's _update_position and the backtest's
  _CostBasisTracker.record run the same algorithm (bot-service/bot_service/strategy/order_worker.py,
  bot-service/bot_service/backtest/writer.py). A first-in-first-out ledger is the reference the
  documentation names.
*/
module CostBasis {
  datatype Fill = Fill(symbol: string, side: string, qty: real, price: real)

  datatype Position = Position(qty: real, avg: real)

  const FLAT := Position(0.0, 0.0)

  function Min(a: real, b: real): real {
    if a < b then a else b
  }

  function Max(a: real, b: real): real {
    if a > b then a else b
  }

  function Value(qty: real, price: real): real {
    qty * price
  }

  function Mixed(p: Position, qty: real, price: real): real {
    if p.qty + qty == 0.0 then 0.0 else (p.avg * p.qty + price * qty) / (p.qty + qty)
  }

  function Closed(p: Position, f: Fill): real {
    Min(f.qty, p.qty)
  }

  /** The position after one fill. */
  function After(p: Position, f: Fill): Position {
    if f.side == "buy" then
      Position(p.qty + f.qty, Mixed(p, f.qty, f.price))
    else
      var qty := Max(0.0, p.qty - Closed(p, f));
      Position(qty, if qty == 0.0 then 0.0 else p.avg)
  }

  /** The profit one fill realizes. */
  function Profit(p: Position, f: Fill): real {
    if f.side == "buy" || p.qty <= 0.0 then 0.0 else Closed(p, f) * (f.price - p.avg)
  }

  // ---- Whole histories of one symbol ----

  function Replay(fs: seq<Fill>): Position {
    if |fs| == 0 then FLAT else After(Replay(fs[..|fs| - 1]), fs[|fs| - 1])
  }

  function Realized(fs: seq<Fill>): real {
    if |fs| == 0 then 0.0
    else var past := fs[..|fs| - 1]; Realized(past) + Profit(Replay(past), fs[|fs| - 1])
  }

  /** Money spent on buys. */
  function Paid(fs: seq<Fill>): real {
    if |fs| == 0 then 0.0
    else
      var f := fs[|fs| - 1];
      Paid(fs[..|fs| - 1]) + if f.side == "buy" then Value(f.qty, f.price) else 0.0
  }

  /** Money received for what sells closed. */
  function Received(fs: seq<Fill>): real {
    if |fs| == 0 then 0.0
    else
      var past, f := fs[..|fs| - 1], fs[|fs| - 1];
      Received(past) + if f.side == "buy" then 0.0 else Value(Closed(Replay(past), f), f.price)
  }

  /** Prices of the buys since the position was last flat. */
  function OpenBuys(fs: seq<Fill>): seq<real> {
    if |fs| == 0 || Replay(fs).qty == 0.0 then []
    else
      var f := fs[|fs| - 1];
      OpenBuys(fs[..|fs| - 1]) + if f.side == "buy" && f.qty > 0.0 then [f.price] else []
  }

  ghost predicate Sized(fs: seq<Fill>) {
    forall i :: 0 <= i < |fs| ==> fs[i].qty >= 0.0
  }

  ghost predicate Within(ps: seq<real>, low: real, high: real) {
    forall i :: 0 <= i < |ps| ==> low <= ps[i] <= high
  }

  lemma {:induction false} MixedValue(p: Position, qty: real, price: real)
    requires p.qty >= 0.0 && qty >= 0.0
    ensures Value(p.qty + qty, Mixed(p, qty, price)) == Value(p.qty, p.avg) + Value(qty, price)
  {
    if p.qty + qty != 0.0 {
      var sum := p.avg * p.qty + price * qty;
      assert (p.qty + qty) * (sum / (p.qty + qty)) == sum;
    } else {
      assert p.qty == 0.0 && qty == 0.0;
    }
  }

  lemma {:induction false} BuyAverages(p: Position, qty: real, price: real)
    ensures p.qty + qty == 0.0 ==> Mixed(p, qty, price) == 0.0
    ensures p.qty + qty != 0.0 ==> (p.qty + qty) * Mixed(p, qty, price) == p.qty * p.avg + qty * price
  {}

  lemma {:induction false} MixedBetween(p: Position, qty: real, price: real, low: real, high: real)
    requires p.qty >= 0.0 && qty >= 0.0 && p.qty + qty > 0.0
    requires p.qty > 0.0 ==> low <= p.avg <= high
    requires qty > 0.0 ==> low <= price <= high
    ensures low <= Mixed(p, qty, price) <= high
  {
    hide Value, Mixed;
    var all, m := p.qty + qty, Mixed(p, qty, price);
    MixedValue(p, qty, price);
    SplitQty(p.qty, qty, low);
    SplitQty(p.qty, qty, high);
    Scale(p.qty, low, p.avg);
    Scale(p.qty, p.avg, high);
    Scale(qty, low, price);
    Scale(qty, price, high);
    if m < low {
      ScaleStrict(all, m, low);
    }
    if high < m {
      ScaleStrict(all, high, m);
    }
  }

  lemma {:induction false} SplitQty(a: real, b: real, price: real)
    ensures Value(a + b, price) == Value(a, price) + Value(b, price)
  {}

  lemma {:induction false} Scale(qty: real, a: real, b: real)
    requires qty >= 0.0 && (qty > 0.0 ==> a <= b)
    ensures Value(qty, a) <= Value(qty, b)
  {
    if qty == 0.0 {
      assert Value(qty, a) == 0.0 == Value(qty, b);
    } else {
      assert qty * b - qty * a == qty * (b - a);
    }
  }

  lemma {:induction false} ScaleStrict(qty: real, a: real, b: real)
    requires qty > 0.0 && a < b
    ensures Value(qty, a) < Value(qty, b)
  {
    assert qty * b - qty * a == qty * (b - a);
  }

  /** One fill moves value between cash, inventory and profit without creating any. */
  lemma {:induction false} FillConserves(p: Position, f: Fill)
    requires p.qty >= 0.0 && f.qty >= 0.0
    ensures After(p, f).qty >= 0.0
    ensures f.side == "buy" ==> Value(After(p, f).qty, After(p, f).avg) == Value(p.qty, p.avg) + Value(f.qty, f.price)
    ensures f.side != "buy" ==>
              Profit(p, f) == Value(Closed(p, f), f.price) + Value(After(p, f).qty, After(p, f).avg) - Value(p.qty, p.avg)
  {
    if f.side == "buy" {
      MixedValue(p, f.qty, f.price);
    } else {
      var c := Closed(p, f);
      var left := p.qty - c;
      assert After(p, f).qty == left;
      assert Value(left, p.avg) == Value(p.qty, p.avg) - Value(c, p.avg);
      if left == 0.0 {
        assert Value(left, p.avg) == 0.0;
      }
      if p.qty <= 0.0 {
        assert c == 0.0;
      } else {
        assert c * (f.price - p.avg) == Value(c, f.price) - Value(c, p.avg);
      }
    }
  }

  /**
    Money is conserved over every history: profit is what sells brought in, less what buys cost, plus
    the cost still held. The held quantity is never negative.
  */
  lemma {:induction false} MoneyIsConserved(fs: seq<Fill>)
    requires Sized(fs)
    ensures Replay(fs).qty >= 0.0
    ensures Realized(fs) == Received(fs) - Paid(fs) + Value(Replay(fs).qty, Replay(fs).avg)
  {
    hide After, Profit, Closed, Value;
    if |fs| == 0 {
      FlatHasNoValue();
    } else {
      var past := fs[..|fs| - 1];
      MoneyIsConserved(past);
      FillConserves(Replay(past), fs[|fs| - 1]);
      BuysRealizeNothing(Replay(past), fs[|fs| - 1]);
    }
  }

  lemma {:induction false} FlatHasNoValue()
    ensures Value(FLAT.qty, FLAT.avg) == 0.0
  {}

  lemma {:induction false} BuysRealizeNothing(p: Position, f: Fill)
    ensures f.side == "buy" ==> Profit(p, f) == 0.0
  {}

  /** What was bought less what was sold. */
  function Net(fs: seq<Fill>): real {
    if |fs| == 0 then 0.0
    else
      var f := fs[|fs| - 1];
      Net(fs[..|fs| - 1]) + if f.side == "buy" then f.qty else -f.qty
  }

  /** A sale of more than is held only empties the position: what is held is the greatest net of the last few fills. */
  lemma {:induction false} HeldIsGreatestNet(fs: seq<Fill>)
    requires Sized(fs)
    ensures forall n :: 0 <= n <= |fs| ==> Net(fs) - Net(fs[..n]) <= Replay(fs).qty
    ensures exists n :: 0 <= n <= |fs| && Net(fs) - Net(fs[..n]) == Replay(fs).qty
  {
    hide After, Net;
    assert fs[..|fs|] == fs;
    if |fs| == 0 {
      assert Net(fs) - Net(fs[..0]) == 0.0;
    } else {
      var past, f := fs[..|fs| - 1], fs[|fs| - 1];
      HeldIsGreatestNet(past);
      NetStep(fs);
      assert forall n :: 0 <= n <= |past| ==> past[..n] == fs[..n];
      var n :| 0 <= n <= |past| && Net(past) - Net(past[..n]) == Replay(past).qty;
      QtyAfter(Replay(past), f);
      assert past[..|past|] == past;
      assert Net(fs) - Net(fs[..if Replay(past).qty + Net(fs) - Net(past) >= 0.0 then n else |fs|]) == Replay(fs).qty;
    }
  }

  lemma {:induction false} NetStep(fs: seq<Fill>)
    requires |fs| > 0
    ensures var f := fs[|fs| - 1]; Net(fs) == Net(fs[..|fs| - 1]) + if f.side == "buy" then f.qty else -f.qty
  {}

  /** A fill moves the holding by its size, but not below nothing. */
  lemma {:induction false} QtyAfter(p: Position, f: Fill)
    requires p.qty >= 0.0 && f.qty >= 0.0
    ensures var moved := p.qty + if f.side == "buy" then f.qty else -f.qty;
            After(p, f).qty == if moved >= 0.0 then moved else 0.0
  {}

  /** So the position is what was bought less what was sold if and only if no sale was ever of more than was held. */
  lemma {:induction false} HeldIsNetIff(fs: seq<Fill>)
    requires Sized(fs)
    ensures Replay(fs).qty == Net(fs) <==> forall n :: 0 <= n <= |fs| ==> Net(fs[..n]) >= 0.0
  {
    HeldIsGreatestNet(fs);
    assert fs[..0] == [] && Net(fs[..0]) == 0.0;
  }

  /** The average price lies within the prices paid since the position was last flat. */
  lemma {:induction false} AverageWithinBuys(fs: seq<Fill>, low: real, high: real)
    requires Sized(fs) && Within(OpenBuys(fs), low, high) && Replay(fs).qty != 0.0
    ensures Replay(fs).qty > 0.0 && low <= Replay(fs).avg <= high
  {
    MoneyIsConserved(fs);
    var past, f := fs[..|fs| - 1], fs[|fs| - 1];
    MoneyIsConserved(past);
    var p, ps, qs := Replay(past), OpenBuys(past), OpenBuys(fs);
    assert qs == ps + if f.side == "buy" && f.qty > 0.0 then [f.price] else [];
    assert Within(ps, low, high) by {
      assert forall i :: 0 <= i < |ps| ==> ps[i] == qs[i];
    }
    if p.qty != 0.0 {
      AverageWithinBuys(past, low, high);
    }
    if f.side == "buy" {
      if f.qty > 0.0 {
        assert qs[|ps|] == f.price;
      }
      MixedBetween(p, f.qty, f.price, low, high);
    }
  }

  // ---- First in, first out ----

  datatype Lot = Lot(qty: real, price: real)

  function LotsQty(lots: seq<Lot>): real {
    if |lots| == 0 then 0.0 else lots[0].qty + LotsQty(lots[1..])
  }

  function LotsValue(lots: seq<Lot>): real {
    if |lots| == 0 then 0.0 else Value(lots[0].qty, lots[0].price) + LotsValue(lots[1..])
  }

  /** What is left after the oldest `qty` went. */
  function Take(lots: seq<Lot>, qty: real): seq<Lot> {
    if |lots| == 0 || qty <= 0.0 then lots
    else if lots[0].qty <= qty then Take(lots[1..], qty - lots[0].qty)
    else [Lot(lots[0].qty - qty, lots[0].price)] + lots[1..]
  }

  /** What the oldest `qty` cost. */
  function CostOf(lots: seq<Lot>, qty: real): real {
    if |lots| == 0 || qty <= 0.0 then 0.0
    else if lots[0].qty <= qty then Value(lots[0].qty, lots[0].price) + CostOf(lots[1..], qty - lots[0].qty)
    else Value(qty, lots[0].price)
  }

  function FifoLots(fs: seq<Fill>): seq<Lot> {
    if |fs| == 0 then []
    else
      var lots, f := FifoLots(fs[..|fs| - 1]), fs[|fs| - 1];
      if f.side == "buy" then lots + [Lot(f.qty, f.price)] else Take(lots, Min(f.qty, LotsQty(lots)))
  }

  function FifoRealized(fs: seq<Fill>): real {
    if |fs| == 0 then 0.0
    else
      var past, f := fs[..|fs| - 1], fs[|fs| - 1];
      var lots := FifoLots(past);
      var closed := Min(f.qty, LotsQty(lots));
      FifoRealized(past) + if f.side == "buy" then 0.0 else Value(closed, f.price) - CostOf(lots, closed)
  }

  ghost predicate LotsSized(lots: seq<Lot>) {
    forall i :: 0 <= i < |lots| ==> lots[i].qty >= 0.0
  }

  lemma {:induction false} LotsSnoc(lots: seq<Lot>, lot: Lot)
    ensures LotsQty(lots + [lot]) == LotsQty(lots) + lot.qty
    ensures LotsValue(lots + [lot]) == LotsValue(lots) + Value(lot.qty, lot.price)
  {
    hide Value;
    if |lots| == 0 {
      assert lots + [lot] == [lot];
      assert LotsQty([lot][1..]) == 0.0 && LotsValue([lot][1..]) == 0.0;
    } else {
      assert (lots + [lot])[1..] == lots[1..] + [lot];
      LotsSnoc(lots[1..], lot);
    }
  }

  lemma {:induction false} TakeConserves(lots: seq<Lot>, qty: real)
    requires LotsSized(lots) && 0.0 <= qty <= LotsQty(lots)
    ensures LotsSized(Take(lots, qty))
    ensures LotsQty(Take(lots, qty)) == LotsQty(lots) - qty
    ensures LotsValue(lots) == LotsValue(Take(lots, qty)) + CostOf(lots, qty)
  {
    if |lots| > 0 && qty > 0.0 {
      var rest := lots[1..];
      if lots[0].qty <= qty {
        TakeConserves(rest, qty - lots[0].qty);
      } else {
        var left := Lot(lots[0].qty - qty, lots[0].price);
        assert ([left] + rest)[1..] == rest;
        assert Value(lots[0].qty, lots[0].price) == Value(left.qty, left.price) + Value(qty, lots[0].price);
      }
    }
  }

  /** The lots from the n-th on, that one possibly in part. */
  ghost predicate AreNewest(left: seq<Lot>, lots: seq<Lot>, n: nat) {
    && n <= |lots| && |left| == |lots| - n
    && (n < |lots| ==> left[0].price == lots[n].price && left[1..] == lots[n + 1..])
  }

  /** What is left are the newest lots. */
  lemma {:induction false} TakeLeavesNewest(lots: seq<Lot>, qty: real) returns (n: nat)
    ensures AreNewest(Take(lots, qty), lots, n)
  {
    n := 0;
    if |lots| > 0 && qty > 0.0 && lots[0].qty <= qty {
      var rest := lots[1..];
      n := TakeLeavesNewest(rest, qty - lots[0].qty);
      assert n < |rest| ==> rest[n + 1..] == lots[n + 2..];
      n := n + 1;
    }
  }

  /** The first-in-first-out ledger holds the same quantity and conserves money in the same way. */
  lemma {:induction false} FifoConserves(fs: seq<Fill>)
    requires Sized(fs)
    ensures LotsSized(FifoLots(fs)) && LotsQty(FifoLots(fs)) == Replay(fs).qty >= 0.0
    ensures FifoRealized(fs) == Received(fs) - Paid(fs) + LotsValue(FifoLots(fs))
  {
    if |fs| > 0 {
      var past, f := fs[..|fs| - 1], fs[|fs| - 1];
      FifoConserves(past);
      var lots := FifoLots(past);
      if f.side == "buy" {
        LotsSnoc(lots, Lot(f.qty, f.price));
      } else {
        TakeConserves(lots, Min(f.qty, LotsQty(lots)));
      }
    }
  }

  /**
    The documentation calls the method FIFO; the code averages. Exactly how far the two are apart after
    any history: by how much they value what is still held. So they agree if and only if they value it
    the same, and always once the position is flat.
  */
  lemma {:induction false} AverageAgainstFifo(fs: seq<Fill>)
    requires Sized(fs)
    ensures var held := Replay(fs);
            && Realized(fs) - FifoRealized(fs) == Value(held.qty, held.avg) - LotsValue(FifoLots(fs))
            && (Realized(fs) == FifoRealized(fs) <==> Value(held.qty, held.avg) == LotsValue(FifoLots(fs)))
            && (held.qty == 0.0 ==> Realized(fs) == FifoRealized(fs))
  {
    MoneyIsConserved(fs);
    FifoConserves(fs);
    if Replay(fs).qty == 0.0 {
      EmptyLotsHaveNoValue(FifoLots(fs));
    }
  }

  lemma {:induction false} LotsNonNegative(lots: seq<Lot>)
    requires LotsSized(lots)
    ensures LotsQty(lots) >= 0.0
  {
    if |lots| > 0 {
      LotsNonNegative(lots[1..]);
    }
  }

  lemma {:induction false} EmptyLotsHaveNoValue(lots: seq<Lot>)
    requires LotsSized(lots) && LotsQty(lots) == 0.0
    ensures LotsValue(lots) == 0.0
  {
    if |lots| > 0 {
      LotsNonNegative(lots[1..]);
      assert lots[0].qty == 0.0;
      EmptyLotsHaveNoValue(lots[1..]);
    }
  }

  ghost predicate LotsWithin(lots: seq<Lot>, low: real, high: real) {
    forall i :: 0 <= i < |lots| && lots[i].qty > 0.0 ==> low <= lots[i].price <= high
  }

  lemma {:induction false} EmptyLots(lots: seq<Lot>)
    requires LotsSized(lots) && LotsQty(lots) == 0.0
    ensures forall i :: 0 <= i < |lots| ==> lots[i].qty == 0.0
  {
    if |lots| > 0 {
      LotsNonNegative(lots[1..]);
      EmptyLots(lots[1..]);
      assert forall i :: 0 < i < |lots| ==> lots[i] == lots[1..][i - 1];
    }
  }

  lemma {:induction false} TakeWithin(lots: seq<Lot>, qty: real, low: real, high: real)
    requires LotsWithin(lots, low, high)
    ensures LotsWithin(Take(lots, qty), low, high)
  {
    if |lots| > 0 && qty > 0.0 && lots[0].qty <= qty {
      TakeWithin(lots[1..], qty - lots[0].qty, low, high);
    }
  }

  lemma {:induction false} LotsWithinBuys(fs: seq<Fill>, low: real, high: real)
    requires Sized(fs) && Within(OpenBuys(fs), low, high)
    ensures LotsWithin(FifoLots(fs), low, high)
  {
    FifoConserves(fs);
    if Replay(fs).qty == 0.0 {
      EmptyLots(FifoLots(fs));
    } else {
      var past, f := fs[..|fs| - 1], fs[|fs| - 1];
      var ps, qs := OpenBuys(past), OpenBuys(fs);
      assert qs == ps + if f.side == "buy" && f.qty > 0.0 then [f.price] else [];
      assert forall i :: 0 <= i < |ps| ==> ps[i] == qs[i];
      LotsWithinBuys(past, low, high);
      if f.side == "buy" {
        if f.qty > 0.0 {
          assert qs[|ps|] == f.price;
        }
      } else {
        TakeWithin(FifoLots(past), Min(f.qty, LotsQty(FifoLots(past))), low, high);
      }
    }
  }

  lemma {:induction false} LotsValueWithin(lots: seq<Lot>, low: real, high: real)
    requires LotsSized(lots) && LotsWithin(lots, low, high)
    ensures Value(LotsQty(lots), low) <= LotsValue(lots) <= Value(LotsQty(lots), high)
  {
    hide Value;
    if |lots| == 0 {
      FlatIsWorthless(low);
      FlatIsWorthless(high);
    } else {
      var rest := lots[1..];
      LotsValueWithin(rest, low, high);
      Scale(lots[0].qty, low, lots[0].price);
      Scale(lots[0].qty, lots[0].price, high);
      SplitQty(lots[0].qty, LotsQty(rest), low);
      SplitQty(lots[0].qty, LotsQty(rest), high);
    }
  }

  lemma {:induction false} FlatIsWorthless(price: real)
    ensures Value(0.0, price) == 0.0
  {}

  /** The two never drift apart by more than the held quantity times the spread of the prices paid for it. */
  lemma {:induction false} DriftIsBounded(fs: seq<Fill>, low: real, high: real)
    requires Sized(fs) && Within(OpenBuys(fs), low, high) && Replay(fs).qty != 0.0
    ensures var drift, held := Realized(fs) - FifoRealized(fs), Replay(fs).qty;
            -(Value(held, high) - Value(held, low)) <= drift <= Value(held, high) - Value(held, low)
  {
    AverageAgainstFifo(fs);
    FifoConserves(fs);
    LotsWithinBuys(fs, low, high);
    LotsValueWithin(FifoLots(fs), low, high);
    AverageWithinBuys(fs, low, high);
    Scale(Replay(fs).qty, low, Replay(fs).avg);
    Scale(Replay(fs).qty, Replay(fs).avg, high);
  }

  /** So while every buy since the position was last flat was at one price, the code does what its documentation says. */
  lemma {:induction false} OnePriceAgreesWithFifo(fs: seq<Fill>, price: real)
    requires Sized(fs) && forall i :: 0 <= i < |OpenBuys(fs)| ==> OpenBuys(fs)[i] == price
    ensures Realized(fs) == FifoRealized(fs)
  {
    if Replay(fs).qty == 0.0 {
      AverageAgainstFifo(fs);
    } else {
      DriftIsBounded(fs, price, price);
    }
  }

  /** One more fill, in all four folds. */
  lemma {:induction false} OneMoreFill(past: seq<Fill>, f: Fill)
    ensures var fs, lots := past + [f], FifoLots(past);
            && Replay(fs) == After(Replay(past), f) && Realized(fs) == Realized(past) + Profit(Replay(past), f)
            && FifoLots(fs) == (if f.side == "buy" then lots + [Lot(f.qty, f.price)] else Take(lots, Min(f.qty, LotsQty(lots))))
            && FifoRealized(fs) == FifoRealized(past) +
              if f.side == "buy" then 0.0 else Value(Min(f.qty, LotsQty(lots)), f.price) - CostOf(lots, Min(f.qty, LotsQty(lots)))
  {
    assert (past + [f])[..|past|] == past;
  }

  lemma {:induction false} NoFills(fs: seq<Fill>)
    requires |fs| == 0
    ensures Replay(fs) == FLAT && Realized(fs) == FifoRealized(fs) == 0.0 && FifoLots(fs) == []
  {}

  lemma {:induction false} TwoLots(a: Lot, b: Lot)
    requires a.qty > 0.0
    ensures LotsQty([a, b]) == a.qty + b.qty && CostOf([a, b], a.qty) == Value(a.qty, a.price)
  {
    assert [a, b][1..] == [b] && [b][1..] == [];
    assert LotsQty([b]) == b.qty + LotsQty([b][1..]);
    assert CostOf([b], 0.0) == 0.0;
  }

  /** Two buys at different prices and a sale of half: the code realizes 5, first-in-first-out 10. */
  lemma {:induction false} AverageIsNotFifo()
    ensures exists fs :: Sized(fs) && Realized(fs) == 5.0 && FifoRealized(fs) == 10.0
  {
    var a, b, c := Fill("s", "buy", 1.0, 10.0), Fill("s", "buy", 1.0, 20.0), Fill("s", "sell", 1.0, 20.0);
    var none: seq<Fill> := [];
    hide Replay, Realized, FifoLots, FifoRealized, LotsQty, CostOf, Take;
    NoFills(none);
    OneMoreFill(none, a);
    OneMoreFill(none + [a], b);
    OneMoreFill(none + [a] + [b], c);
    var fs := none + [a] + [b] + [c];
    assert Replay(none + [a]) == Position(1.0, 10.0) && Replay(none + [a] + [b]) == Position(2.0, 15.0);
    assert FifoLots(none + [a] + [b]) == [Lot(1.0, 10.0), Lot(1.0, 20.0)];
    TwoLots(Lot(1.0, 10.0), Lot(1.0, 20.0));
    assert Realized(fs) == 5.0 && FifoRealized(fs) == 10.0;
  }

  // ---- Many symbols ----

  function OfSymbol(fs: seq<Fill>, symbol: string): seq<Fill> {
    if |fs| == 0 then []
    else
      var f := fs[|fs| - 1];
      OfSymbol(fs[..|fs| - 1], symbol) + if f.symbol == symbol then [f] else []
  }

  /** Profit over all symbols together. */
  function TotalRealized(fs: seq<Fill>): real {
    if |fs| == 0 then 0.0
    else
      var past, f := fs[..|fs| - 1], fs[|fs| - 1];
      TotalRealized(past) + Profit(Replay(OfSymbol(past, f.symbol)), f)
  }

  /** A fill moves its own symbol and no other. */
  lemma {:induction false} FillReplays(past: seq<Fill>, f: Fill)
    ensures forall s :: s != f.symbol ==> OfSymbol(past + [f], s) == OfSymbol(past, s)
    ensures var own := OfSymbol(past, f.symbol);
            && Replay(OfSymbol(past + [f], f.symbol)) == After(Replay(own), f)
            && Realized(OfSymbol(past + [f], f.symbol)) == Realized(own) + Profit(Replay(own), f)
            && TotalRealized(past + [f]) == TotalRealized(past) + Profit(Replay(own), f)
  {
    assert (past + [f])[..|past|] == past;
    var own := OfSymbol(past, f.symbol);
    assert (own + [f])[..|own|] == own;
  }

  /** Both trackers: two dictionaries keyed by symbol. The ghost field records the fills so far. */
  class CostBasisTracker {
    var qty: map<string, real>
    var avg: map<string, real>
    ghost var history: seq<Fill>

    function Held(symbol: string): Position
      reads this
    {
      Position(if symbol in qty then qty[symbol] else 0.0, if symbol in avg then avg[symbol] else 0.0)
    }

    /** Every symbol stands where its own fills, and no others, put it. */
    ghost predicate Valid()
      reads this
    {
      forall s :: Held(s) == Replay(OfSymbol(history, s))
    }

    constructor ()
      ensures Valid() && history == []
    {
      qty, avg, history := map[], map[], [];
    }

    method Record(symbol: string, side: string, size: real, price: real) returns (realized: real)
      requires Valid()
      modifies this
      ensures Valid() && history == old(history) + [Fill(symbol, side, size, price)]
      ensures Realized(OfSymbol(history, symbol)) == Realized(OfSymbol(old(history), symbol)) + realized
      ensures TotalRealized(history) == TotalRealized(old(history)) + realized
      ensures forall s :: s != symbol ==> Held(s) == old(Held(s)) && OfSymbol(history, s) == OfSymbol(old(history), s)
      // a buy adds to the holding and averages what it cost; nothing is realized
      ensures side == "buy" ==>
                && realized == 0.0 && Held(symbol).qty == old(Held(symbol)).qty + size
                && (Held(symbol).qty == 0.0 ==> Held(symbol).avg == 0.0)
                && (Held(symbol).qty != 0.0 ==>
                  Held(symbol).qty * Held(symbol).avg == old(Held(symbol)).qty * old(Held(symbol)).avg + size * price)
      // any other side takes the size off, down to nothing, and realizes the price move of what went
      ensures side != "buy" ==>
                && Held(symbol).qty == (if old(Held(symbol)).qty - size >= 0.0 then old(Held(symbol)).qty - size else 0.0)
                && Held(symbol).avg == (if Held(symbol).qty == 0.0 then 0.0 else old(Held(symbol)).avg)
                && realized == (if old(Held(symbol)).qty > 0.0
                                then (old(Held(symbol)).qty - Held(symbol).qty) * (price - old(Held(symbol)).avg)
                                else 0.0)
    {
      hide Replay, Realized, OfSymbol, TotalRealized, Mixed;
      ghost var f := Fill(symbol, side, size, price);
      ghost var past := history;
      var held := Held(symbol);
      if side == "buy" {
        var newQty := held.qty + size;
        avg := avg[symbol := Mixed(held, size, price)];
        qty := qty[symbol := newQty];
        realized := 0.0;
      } else {
        var closed := Min(size, held.qty);
        realized := if held.qty > 0.0 then closed * (price - held.avg) else 0.0;
        qty := qty[symbol := Max(0.0, held.qty - closed)];
        if qty[symbol] == 0.0 {
          avg := avg[symbol := 0.0];
        }
      }
      history := history + [f];
      FillReplays(past, f);
      assert Held(symbol) == After(held, f);
      assert realized == Profit(held, f);
      BuyAverages(held, size, price);
    }
  }
}
