/**
  The multi-timeframe cascade (candle-service/internal/cascade/cascade.go): one accumulator per
  timeframe, all fed the same 1-second bars, each emptied when its own bar closes.
*/
module Cascade {
  import opened Options
  import opened Calendar
  import opened Accumulators

  /** The state of one timeframe's accumulator. */
  datatype AccState = AccState(
    openTs: int, open: Option<real>, high: Option<real>, low: Option<real>, close: Option<real>,
    volume: real, quoteVol: real, tradeCount: int, barCount: int, gapCount: int, buyVolume: real,
    spreadSum: real, spreadCount: nat)

  /** A bar of a timeframe. */
  datatype TfBar = TfBar(
    tf: TF, openTs: int, open: Option<real>, high: Option<real>, low: Option<real>, close: Option<real>,
    volume: real, quoteVol: real, tradeCount: int, barCount: int, gapCount: int, isComplete: bool,
    buyVolume: real, sellVolume: real, spreadMean: Option<real>)

  function OrZero(x: Option<real>): real {
    if x.Some? then x.value else 0.0
  }

  function Empty(openTs: int): AccState {
    AccState(openTs, None, None, None, None, 0.0, 0.0, 0, 0, 0, 0.0, 0.0, 0)
  }

  function Higher(a: Option<real>, b: Option<real>): Option<real> {
    if b.None? then a else if a.None? || b.value > a.value then b else a
  }

  function Lesser(a: Option<real>, b: Option<real>): Option<real> {
    if b.None? then a else if a.None? || b.value < a.value then b else a
  }

  // ---- Merging: the later state after the earlier one ----

  function Merge(a: AccState, b: AccState): AccState {
    AccState(if a.openTs == 0 then b.openTs else a.openTs,
             if a.open.None? then b.open else a.open, Higher(a.high, b.high), Lesser(a.low, b.low),
             if b.close.None? then a.close else b.close,
             a.volume + b.volume, a.quoteVol + b.quoteVol, a.tradeCount + b.tradeCount,
             a.barCount + b.barCount, a.gapCount + b.gapCount, a.buyVolume + b.buyVolume,
             a.spreadSum + b.spreadSum, a.spreadCount + b.spreadCount)
  }

  lemma {:induction false} MergeAssociative(a: AccState, b: AccState, c: AccState)
    ensures Merge(Merge(a, b), c) == Merge(a, Merge(b, c))
  {}

  lemma {:induction false} MergeIdentity(a: AccState)
    ensures Merge(a, Empty(0)) == a && Merge(Empty(0), a) == a
  {}

  /** One 1-second bar on its own. */
  function Single(bar: Bar): AccState {
    AccState(bar.tsSecMs, bar.open, bar.high, bar.low, bar.close, OrZero(bar.volume), OrZero(bar.quoteVolume),
             bar.tradeCount, 1, bar.gapCount, OrZero(bar.buyVolume),
             OrZero(bar.spreadMean), if bar.spreadMean.Some? then 1 else 0)
  }

  function FoldInto(a: AccState, bar: Bar): AccState {
    Merge(a, Single(bar))
  }

  function ToBar(a: AccState, tf: TF, isComplete: bool): TfBar {
    TfBar(tf, a.openTs, a.open, a.high, a.low, a.close, a.volume, a.quoteVol, a.tradeCount, a.barCount, a.gapCount,
          isComplete, a.buyVolume, Max(0.0, a.volume - a.buyVolume),
          if a.spreadCount > 0 then Some(a.spreadSum / a.spreadCount as real) else None)
  }

  // ---- What a fold over a segment of 1-second bars means ----

  function FoldAll(start: AccState, bars: seq<Bar>): AccState {
    if bars == [] then start else FoldInto(FoldAll(start, bars[..|bars| - 1]), bars[|bars| - 1])
  }

  function SumOf(bars: seq<Bar>, f: Bar -> real): real {
    if bars == [] then 0.0 else SumOf(bars[..|bars| - 1], f) + f(bars[|bars| - 1])
  }

  function CountOf(bars: seq<Bar>, f: Bar -> nat): nat {
    if bars == [] then 0 else CountOf(bars[..|bars| - 1], f) + f(bars[|bars| - 1])
  }

  ghost predicate IsFirst(bars: seq<Bar>, f: Bar -> Option<real>, r: Option<real>) {
    if r.None? then forall i :: 0 <= i < |bars| ==> f(bars[i]).None?
    else exists i :: 0 <= i < |bars| && f(bars[i]) == r && forall j :: 0 <= j < i ==> f(bars[j]).None?
  }

  ghost predicate IsLast(bars: seq<Bar>, f: Bar -> Option<real>, r: Option<real>) {
    if r.None? then forall i :: 0 <= i < |bars| ==> f(bars[i]).None?
    else exists i :: 0 <= i < |bars| && f(bars[i]) == r && forall j :: i < j < |bars| ==> f(bars[j]).None?
  }

  ghost predicate IsExtreme(bars: seq<Bar>, f: Bar -> Option<real>, greatest: bool, r: Option<real>) {
    if r.None? then forall i :: 0 <= i < |bars| ==> f(bars[i]).None?
    else
      && (exists i :: 0 <= i < |bars| && f(bars[i]) == r)
      && forall i :: 0 <= i < |bars| && f(bars[i]).Some? ==>
        if greatest then f(bars[i]).value <= r.value else r.value <= f(bars[i]).value
  }

  function OpenOf(): Bar -> Option<real> { (b: Bar) => b.open }
  function HighOf(): Bar -> Option<real> { (b: Bar) => b.high }
  function LowOf(): Bar -> Option<real> { (b: Bar) => b.low }
  function CloseOf(): Bar -> Option<real> { (b: Bar) => b.close }
  function VolumeOf(): Bar -> real { (b: Bar) => OrZero(b.volume) }
  function QuoteOf(): Bar -> real { (b: Bar) => OrZero(b.quoteVolume) }
  function BuyOf(): Bar -> real { (b: Bar) => OrZero(b.buyVolume) }
  function TradesOf(): Bar -> nat { (b: Bar) => b.tradeCount }
  function GapsOf(): Bar -> nat { (b: Bar) => b.gapCount }
  function SpreadOf(): Bar -> real { (b: Bar) => OrZero(b.spreadMean) }
  function HasSpread(): Bar -> nat { (b: Bar) => if b.spreadMean.Some? then 1 else 0 }

  lemma {:induction false} FirstExtends(bars: seq<Bar>, b: Bar, f: Bar -> Option<real>, r: Option<real>)
    requires IsFirst(bars, f, r)
    ensures IsFirst(bars + [b], f, if r.None? then f(b) else r)
  {
    var all := bars + [b];
    assert all[|bars|] == b;
    assert forall i :: 0 <= i < |bars| ==> all[i] == bars[i];
    if r.Some? {
      var i :| 0 <= i < |bars| && f(bars[i]) == r && forall j :: 0 <= j < i ==> f(bars[j]).None?;
      assert f(all[i]) == r;
    }
  }

  lemma {:induction false} LastExtends(bars: seq<Bar>, b: Bar, f: Bar -> Option<real>, r: Option<real>)
    requires IsLast(bars, f, r)
    ensures IsLast(bars + [b], f, if f(b).None? then r else f(b))
  {
    var all := bars + [b];
    assert all[|bars|] == b;
    assert forall i :: 0 <= i < |bars| ==> all[i] == bars[i];
    if f(b).None? && r.Some? {
      var i :| 0 <= i < |bars| && f(bars[i]) == r && forall j :: i < j < |bars| ==> f(bars[j]).None?;
      assert f(all[i]) == r;
    }
  }

  lemma {:induction false} ExtremeExtends(bars: seq<Bar>, b: Bar, f: Bar -> Option<real>, greatest: bool, r: Option<real>)
    requires IsExtreme(bars, f, greatest, r)
    ensures IsExtreme(bars + [b], f, greatest, if greatest then Higher(r, f(b)) else Lesser(r, f(b)))
  {
    var all := bars + [b];
    assert all[|bars|] == b;
    assert forall i :: 0 <= i < |bars| ==> all[i] == bars[i];
    if r.Some? {
      var i :| 0 <= i < |bars| && f(bars[i]) == r;
      assert f(all[i]) == r;
    }
  }

  /**
    A timeframe's state after a segment: first open, greatest high, least low, last close, and
    the sums. `t0` is the opening time given by the previous close, 0 if there was none.
  */
  ghost predicate Aggregates(a: AccState, t0: int, bars: seq<Bar>) {
    && a.openTs == (if t0 != 0 || bars == [] then t0 else bars[0].tsSecMs)
    && IsFirst(bars, OpenOf(), a.open) && IsLast(bars, CloseOf(), a.close)
    && IsExtreme(bars, HighOf(), true, a.high) && IsExtreme(bars, LowOf(), false, a.low)
    && a.volume == SumOf(bars, VolumeOf()) && a.quoteVol == SumOf(bars, QuoteOf()) && a.buyVolume == SumOf(bars, BuyOf())
    && a.tradeCount == CountOf(bars, TradesOf()) && a.gapCount == CountOf(bars, GapsOf()) && a.barCount == |bars|
    && a.spreadSum == SumOf(bars, SpreadOf()) && a.spreadCount == CountOf(bars, HasSpread())
  }

  /** The same of a finished bar; its spread mean is that of the seconds that had one. */
  ghost predicate BarAggregates(b: TfBar, tf: TF, t0: int, bars: seq<Bar>) {
    && b.tf == tf && b.isComplete
    && b.openTs == (if t0 != 0 || bars == [] then t0 else bars[0].tsSecMs)
    && IsFirst(bars, OpenOf(), b.open) && IsLast(bars, CloseOf(), b.close)
    && IsExtreme(bars, HighOf(), true, b.high) && IsExtreme(bars, LowOf(), false, b.low)
    && b.volume == SumOf(bars, VolumeOf()) && b.quoteVol == SumOf(bars, QuoteOf()) && b.buyVolume == SumOf(bars, BuyOf())
    && b.sellVolume == (if b.volume > b.buyVolume then b.volume - b.buyVolume else 0.0)
    && b.tradeCount == CountOf(bars, TradesOf()) && b.gapCount == CountOf(bars, GapsOf()) && b.barCount == |bars|
    && (b.spreadMean.Some? <==> CountOf(bars, HasSpread()) > 0)
    && (b.spreadMean.Some? ==> b.spreadMean.value * CountOf(bars, HasSpread()) as real == SumOf(bars, SpreadOf()))
  }

  lemma {:induction false} FinishedAggregates(a: AccState, tf: TF, t0: int, bars: seq<Bar>)
    requires Aggregates(a, t0, bars)
    ensures BarAggregates(ToBar(a, tf, true), tf, t0, bars)
  {
    hide SumOf, CountOf, IsFirst, IsLast, IsExtreme;
    if a.spreadCount > 0 {
      Quotient(a.spreadSum, a.spreadCount as real);
    }
  }

  lemma {:induction false} Quotient(x: real, y: real)
    requires y > 0.0
    ensures x / y * y == x
  {}

  lemma {:induction false} SumExtends(bars: seq<Bar>, b: Bar, f: Bar -> real)
    ensures SumOf(bars + [b], f) == SumOf(bars, f) + f(b)
  {
    assert (bars + [b])[..|bars|] == bars;
  }

  lemma {:induction false} CountExtends(bars: seq<Bar>, b: Bar, f: Bar -> nat)
    ensures CountOf(bars + [b], f) == CountOf(bars, f) + f(b)
  {
    assert (bars + [b])[..|bars|] == bars;
  }

  /** The fold, field by field. */
  lemma {:induction false} FoldedFields(a: AccState, b: Bar)
    ensures var r := FoldInto(a, b);
            && r.openTs == (if a.openTs == 0 then b.tsSecMs else a.openTs)
            && r.open == (if a.open.None? then b.open else a.open) && r.close == (if b.close.None? then a.close else b.close)
            && r.high == Higher(a.high, b.high) && r.low == Lesser(a.low, b.low)
            && r.volume == a.volume + OrZero(b.volume) && r.quoteVol == a.quoteVol + OrZero(b.quoteVolume)
            && r.buyVolume == a.buyVolume + OrZero(b.buyVolume)
            && r.tradeCount == a.tradeCount + b.tradeCount && r.gapCount == a.gapCount + b.gapCount && r.barCount == a.barCount + 1
            && r.spreadSum == a.spreadSum + OrZero(b.spreadMean)
            && r.spreadCount == a.spreadCount + if b.spreadMean.Some? then 1 else 0
  {}

  lemma {:induction false} AggregatesExtend(a: AccState, t0: int, bars: seq<Bar>, b: Bar)
    requires Aggregates(a, t0, bars) && forall i :: 0 <= i < |bars| ==> bars[i].tsSecMs > 0
    ensures Aggregates(FoldInto(a, b), t0, bars + [b])
  {
    hide SumOf, CountOf, IsFirst, IsLast, IsExtreme, FoldInto, Higher, Lesser, OrZero;
    FoldedFields(a, b);
    FirstExtends(bars, b, OpenOf(), a.open);
    LastExtends(bars, b, CloseOf(), a.close);
    ExtremeExtends(bars, b, HighOf(), true, a.high);
    ExtremeExtends(bars, b, LowOf(), false, a.low);
    SumExtends(bars, b, VolumeOf());
    SumExtends(bars, b, QuoteOf());
    SumExtends(bars, b, BuyOf());
    CountExtends(bars, b, TradesOf());
    CountExtends(bars, b, GapsOf());
    SumExtends(bars, b, SpreadOf());
    CountExtends(bars, b, HasSpread());
  }

  lemma {:induction false} FoldAllAggregates(t0: int, bars: seq<Bar>)
    requires forall i :: 0 <= i < |bars| ==> bars[i].tsSecMs > 0
    ensures Aggregates(FoldAll(Empty(t0), bars), t0, bars)
  {
    if bars != [] {
      var n := |bars| - 1;
      assert forall i :: 0 <= i < n ==> bars[..n][i] == bars[i];
      FoldAllAggregates(t0, bars[..n]);
      AggregatesExtend(FoldAll(Empty(t0), bars[..n]), t0, bars[..n], bars[n]);
      assert bars[..n] + [bars[n]] == bars;
    }
  }
}
