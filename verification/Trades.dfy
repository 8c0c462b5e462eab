/**
  Batch definitions over the trades of one bar: what the accumulator's running fields must mean
  (candle-service/internal/accumulator/accumulator.go).
*/
module Trades {
  import opened RealSeqs
  import opened SignAutocorrelation
  import opened MapSums
  import opened ValueAreas

  /** `price` is the string the feed sent and `p` its number. */
  datatype Trade = Trade(price: string, p: real, s: real, side: string, ts: int)

  datatype Measure = Size | Notional | BuySize | BuyNotional | SellSize | SellNotional

  function Of(t: Trade, m: Measure): real {
    match m
    case Size => t.s
    case Notional => t.p * t.s
    case BuySize => if t.side == "buy" then t.s else 0.0
    case BuyNotional => if t.side == "buy" then t.p * t.s else 0.0
    case SellSize => if t.side == "buy" then 0.0 else t.s
    case SellNotional => if t.side == "buy" then 0.0 else t.p * t.s
  }

  function Amounts(ts: seq<Trade>, m: Measure): seq<real> {
    seq(|ts|, i requires 0 <= i < |ts| => Of(ts[i], m))
  }

  function Total(ts: seq<Trade>, m: Measure): real {
    Sum(Amounts(ts, m))
  }

  ghost predicate PositiveSizes(ts: seq<Trade>) {
    forall i :: 0 <= i < |ts| ==> ts[i].s > 0.0
  }

  lemma {:induction false} TotalSnoc(ts: seq<Trade>, t: Trade, m: Measure)
    ensures Total(ts + [t], m) == Total(ts, m) + Of(t, m)
  {
    assert Amounts(ts + [t], m) == Amounts(ts, m) + [Of(t, m)];
    SumSnoc(Amounts(ts, m), Of(t, m));
  }

  lemma {:induction false} TotalOfEmpty(ts: seq<Trade>, m: Measure)
    requires ts == []
    ensures Total(ts, m) == 0.0
  {}

  lemma {:induction false} TotalAppend(a: seq<Trade>, b: seq<Trade>, m: Measure)
    ensures Total(a + b, m) == Total(a, m) + Total(b, m)
    decreases |b|
  {
    if b == [] {
      assert a + b == a;
    } else {
      var n := |b| - 1;
      TotalAppend(a, b[..n], m);
      assert a + b == (a + b[..n]) + [b[n]] && b == b[..n] + [b[n]];
      TotalSnoc(a + b[..n], b[n], m);
      TotalSnoc(b[..n], b[n], m);
    }
  }

  /** Buys and sells make up everything, and neither side is negative. */
  lemma {:induction false} SidesMakeUpTotal(ts: seq<Trade>)
    requires PositiveSizes(ts)
    ensures Total(ts, Size) == Total(ts, BuySize) + Total(ts, SellSize)
    ensures Total(ts, Notional) == Total(ts, BuyNotional) + Total(ts, SellNotional)
    ensures Total(ts, BuySize) >= 0.0 && Total(ts, SellSize) >= 0.0
    ensures ts != [] ==> Total(ts, Size) > 0.0
  {
    if ts != [] {
      var n := |ts| - 1;
      assert forall i :: 0 <= i < n ==> ts[..n][i] == ts[i];
      SidesMakeUpTotal(ts[..n]);
      assert ts == ts[..n] + [ts[n]];
      forall m ensures Total(ts, m) == Total(ts[..n], m) + Of(ts[n], m) {
        TotalSnoc(ts[..n], ts[n], m);
      }
    }
  }

  // ---- Price range and volume-weighted prices ----

  ghost predicate Bounds(ts: seq<Trade>, low: real, high: real) {
    forall i :: 0 <= i < |ts| ==> low <= ts[i].p <= high
  }

  /** The range is bounded by prices that were actually paid. */
  ghost predicate IsRange(ts: seq<Trade>, low: real, high: real) {
    && Bounds(ts, low, high)
    && (exists i :: 0 <= i < |ts| && ts[i].p == low)
    && (exists i :: 0 <= i < |ts| && ts[i].p == high)
  }

  lemma {:induction false} RangeExtends(ts: seq<Trade>, t: Trade, low: real, high: real)
    requires ts != [] ==> IsRange(ts, low, high)
    ensures IsRange(ts + [t], if ts == [] || t.p < low then t.p else low, if ts == [] || t.p > high then t.p else high)
  {
    var us := ts + [t];
    assert us[|ts|] == t;
    if ts != [] {
      var i :| 0 <= i < |ts| && ts[i].p == low;
      var j :| 0 <= j < |ts| && ts[j].p == high;
      assert us[i] == ts[i] && us[j] == ts[j];
    }
  }

  lemma {:induction false} RangeIsUnique(ts: seq<Trade>, low: real, high: real, low': real, high': real)
    requires IsRange(ts, low, high) && IsRange(ts, low', high')
    ensures low == low' && high == high'
  {}

  ghost predicate Weighs(low: real, weight: real, value: real, high: real) {
    weight >= 0.0 && low * weight <= value <= high * weight
  }

  ghost predicate Priced(v: real, p: real, w: real) {
    w >= 0.0 && v == p * w
  }

  lemma {:induction false} WeighsAdds(low: real, w: real, v: real, high: real, w': real, v': real, p: real)
    requires Weighs(low, w, v, high) && low <= p <= high && Priced(v', p, w')
    ensures Weighs(low, w + w', v + v', high)
  {
    assert (p - low) * w' >= 0.0 && (high - p) * w' >= 0.0;
  }

  lemma {:induction false} NotionalIsPriceTimesSize(t: Trade)
    requires t.s > 0.0
    ensures Priced(Of(t, Notional), t.p, Of(t, Size))
    ensures Priced(Of(t, BuyNotional), t.p, Of(t, BuySize))
    ensures Priced(Of(t, SellNotional), t.p, Of(t, SellSize))
  {}

  /** Every volume-weighted sum of prices lies between low and high times its volume. */
  lemma {:induction false} TotalsWeigh(ts: seq<Trade>, low: real, high: real, w: Measure, v: Measure)
    requires PositiveSizes(ts) && Bounds(ts, low, high)
    requires (w, v) in {(Size, Notional), (BuySize, BuyNotional), (SellSize, SellNotional)}
    ensures Weighs(low, Total(ts, w), Total(ts, v), high)
  {
    if ts != [] {
      var front, t := ts[..|ts| - 1], ts[|ts| - 1];
      assert forall i :: 0 <= i < |front| ==> front[i] == ts[i];
      TotalsWeigh(front, low, high, w, v);
      NotionalIsPriceTimesSize(t);
      assert ts == front + [t];
      TotalSnoc(front, t, w);
      TotalSnoc(front, t, v);
      WeighsAdds(low, Total(front, w), Total(front, v), high, Of(t, w), Of(t, v), t.p);
    }
  }

  /** A weighted mean lies within the bounds. */
  lemma {:induction false} MeanWithin(low: real, w: real, v: real, high: real)
    requires Weighs(low, w, v, high) && w > 0.0
    ensures low <= v / w <= high
  {
    var q := v / w;
    assert q * w == v;
    CancelFactor(w, low, q);
    CancelFactor(w, q, high);
  }

  // ---- Time-weighted price ----

  function Held(t: Trade, until: int): real {
    if until > t.ts then (until - t.ts) as real else 0.0
  }

  /** Time each price was held until the next trade; a backward clock step holds nothing. */
  function HeldTime(ts: seq<Trade>): real {
    if |ts| < 2 then 0.0 else HeldTime(ts[..|ts| - 1]) + Held(ts[|ts| - 2], ts[|ts| - 1].ts)
  }

  function HeldValue(ts: seq<Trade>): real {
    if |ts| < 2 then 0.0
    else HeldValue(ts[..|ts| - 1]) + ts[|ts| - 2].p * Held(ts[|ts| - 2], ts[|ts| - 1].ts)
  }

  lemma {:induction false} HeldWeighs(ts: seq<Trade>, low: real, high: real)
    requires Bounds(ts, low, high)
    ensures Weighs(low, HeldTime(ts), HeldValue(ts), high)
  {
    if |ts| >= 2 {
      var front := ts[..|ts| - 1];
      assert forall i :: 0 <= i < |front| ==> front[i] == ts[i];
      HeldWeighs(front, low, high);
      var last, held := ts[|ts| - 2], Held(ts[|ts| - 2], ts[|ts| - 1].ts);
      WeighsAdds(low, HeldTime(front), HeldValue(front), high, held, last.p * held, last.p);
    }
  }

  // ---- Runs of equal sides ----

  ghost predicate SameSide(ts: seq<Trade>, i: nat, j: nat) {
    i <= j <= |ts| && forall k :: i <= k < j ==> ts[k].side == ts[i].side
  }

  /** The length of the run the last trade belongs to. */
  ghost predicate IsTailRun(ts: seq<Trade>, n: nat) {
    n <= |ts| && SameSide(ts, |ts| - n, |ts|) && (n < |ts| ==> !SameSide(ts, |ts| - n - 1, |ts|))
  }

  ghost predicate IsLongestRun(ts: seq<Trade>, n: nat) {
    && (exists i: nat, j: nat :: SameSide(ts, i, j) && j == i + n)
    && forall i: nat, j: nat :: SameSide(ts, i, j) ==> j - i <= n
  }

  lemma {:induction false} TailRunExtends(ts: seq<Trade>, t: Trade, n: nat)
    requires ts != [] ==> n > 0 && IsTailRun(ts, n)
    ensures IsTailRun(ts + [t], if ts != [] && ts[|ts| - 1].side == t.side then n + 1 else 1)
  {
    var us := ts + [t];
    if ts != [] {
      if ts[|ts| - 1].side == t.side {
        assert SameSide(us, |us| - (n + 1), |us|);
        if n < |ts| {
          var k :| |ts| - n - 1 <= k < |ts| && ts[k].side != ts[|ts| - n - 1].side;
          assert us[k].side != us[|ts| - n - 1].side;
        }
      } else {
        assert us[|us| - 2].side != us[|us| - 1].side;
      }
    }
  }

  lemma {:induction false} SameSideSuffix(ts: seq<Trade>, i: nat, m: nat)
    requires SameSide(ts, i, |ts|) && i <= m < |ts|
    ensures SameSide(ts, m, |ts|)
  {
    assert ts[m].side == ts[i].side;
  }

  lemma {:induction false} TailRunBounds(ts: seq<Trade>, tail: nat, i: nat)
    requires IsTailRun(ts, tail) && SameSide(ts, i, |ts|)
    ensures |ts| - i <= tail
  {
    if |ts| - i > tail {
      SameSideSuffix(ts, i, |ts| - tail - 1);
    }
  }

  lemma {:induction false} LongestRunExtends(ts: seq<Trade>, t: Trade, tail: nat, n: nat)
    requires IsLongestRun(ts, n) && IsTailRun(ts + [t], tail)
    ensures IsLongestRun(ts + [t], if tail > n then tail else n)
  {
    var us := ts + [t];
    forall i: nat, j: nat | SameSide(us, i, j)
      ensures j - i <= if tail > n then tail else n
    {
      if j <= |ts| {
        assert SameSide(ts, i, j) by {
          assert forall k :: i <= k < j ==> ts[k] == us[k];
        }
      } else {
        TailRunBounds(us, tail, i);
      }
    }
    if tail > n {
      assert SameSide(us, |us| - tail, |us|);
    } else {
      var i: nat, j: nat :| SameSide(ts, i, j) && j == i + n;
      assert SameSide(us, i, j) by {
        assert forall k :: i <= k < j ==> ts[k] == us[k];
      }
    }
  }

  // ---- Signs ----

  function SignOf(t: Trade): int {
    if t.side == "buy" then 1 else -1
  }

  function Signs(ts: seq<Trade>): (s: seq<int>)
    ensures |s| == |ts| && AreSigns(s)
  {
    seq(|ts|, i requires 0 <= i < |ts| => SignOf(ts[i]))
  }

  lemma {:induction false} SignsSnoc(ts: seq<Trade>, t: Trade)
    ensures Signs(ts + [t]) == Signs(ts) + [SignOf(t)]
    ensures SumSigns(Signs(ts + [t])) == SumSigns(Signs(ts)) + SignOf(t)
    ensures SumPairs(Signs(ts + [t])) == SumPairs(Signs(ts)) + if ts == [] then 0 else SignOf(ts[|ts| - 1]) * SignOf(t)
  {
    var s := Signs(ts + [t]);
    assert s == Signs(ts) + [SignOf(t)];
    assert s[..|s| - 1] == Signs(ts);
  }

  // ---- Footprint: volume per price and side ----

  function At(ts: seq<Trade>, price: string, m: Measure): real {
    if ts == [] then 0.0
    else At(ts[..|ts| - 1], price, m) + if ts[|ts| - 1].price == price then Of(ts[|ts| - 1], m) else 0.0
  }

  function Prices(ts: seq<Trade>): set<string> {
    set t | t in ts :: t.price
  }

  ghost function BuyVol(): Cell -> real { (c: Cell) => c.buyVol }
  ghost function SellVol(): Cell -> real { (c: Cell) => c.sellVol }

  /** One cell per price traded, with exactly that price's volumes; and the cells add up to the bar. */
  ghost predicate IsFootprint(ts: seq<Trade>, fp: map<string, Cell>) {
    && CellsOk(ts, fp)
    && SumMap(fp, BuyVol()) == Total(ts, BuySize)
    && SumMap(fp, SellVol()) == Total(ts, SellSize)
  }

  lemma {:induction false} AtUntraded(ts: seq<Trade>, price: string, m: Measure)
    requires price !in Prices(ts)
    ensures At(ts, price, m) == 0.0
  {
    if ts != [] {
      assert ts[|ts| - 1] in ts;
      assert forall t :: t in ts[..|ts| - 1] ==> t in ts;
      AtUntraded(ts[..|ts| - 1], price, m);
    }
  }

  lemma {:induction false} AtNonNegative(ts: seq<Trade>, price: string, m: Measure)
    requires PositiveSizes(ts) && (m == BuySize || m == SellSize)
    ensures At(ts, price, m) >= 0.0
  {
    if ts != [] {
      assert forall i :: 0 <= i < |ts| - 1 ==> ts[..|ts| - 1][i] == ts[i];
      AtNonNegative(ts[..|ts| - 1], price, m);
    }
  }

  lemma {:induction false} PricesSnoc(ts: seq<Trade>, t: Trade)
    ensures Prices(ts + [t]) == Prices(ts) + {t.price}
  {
    assert t in ts + [t];
    assert forall u :: u in ts + [t] <==> u in ts || u == t;
  }

  ghost predicate CellsOk(ts: seq<Trade>, fp: map<string, Cell>) {
    fp.Keys == Prices(ts) && forall k :: k in fp ==> fp[k] == Cell(At(ts, k, BuySize), At(ts, k, SellSize))
  }

  /** The cell after one more trade at its price. */
  function CellAfter(fp: map<string, Cell>, t: Trade): Cell {
    var was := if t.price in fp then fp[t.price] else Cell(0.0, 0.0);
    Cell(was.buyVol + Of(t, BuySize), was.sellVol + Of(t, SellSize))
  }

  lemma {:induction false} CellsExtend(ts: seq<Trade>, t: Trade, fp: map<string, Cell>)
    requires CellsOk(ts, fp)
    ensures CellsOk(ts + [t], fp[t.price := CellAfter(fp, t)])
  {
    assert (ts + [t])[..|ts + [t]| - 1] == ts;
    PricesSnoc(ts, t);
    if t.price !in fp {
      AtUntraded(ts, t.price, BuySize);
      AtUntraded(ts, t.price, SellSize);
    }
  }

  lemma {:induction false} FootprintExtends(ts: seq<Trade>, t: Trade, fp: map<string, Cell>)
    requires IsFootprint(ts, fp)
    ensures IsFootprint(ts + [t], fp[t.price := CellAfter(fp, t)])
  {
    assert CellsOk(ts, fp);
    CellsExtend(ts, t, fp);
    SumMapPuts(fp, t.price, CellAfter(fp, t), BuyVol());
    SumMapPuts(fp, t.price, CellAfter(fp, t), SellVol());
    TotalSnoc(ts, t, BuySize);
    TotalSnoc(ts, t, SellSize);
  }
}
