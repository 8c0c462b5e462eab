/**
  The writer that feeds every tick to three accumulators and every finished second to the cascade
  (candle-service/cmd/candle/main.go, accWriter). Two independent computations of the 1-minute and
  15-minute bars must agree.
*/
module AccWriters {
  import opened Options
  import opened Integers
  import opened Calendar
  import opened Trades
  import opened Accumulators
  import opened Cascade
  import opened CascadeRuns
  import opened HashCodec
  import opened CascadeEngine

  // ---- When a cascade state says the same as a list of trades ----

  ghost predicate StateSummarises(a: AccState, ts: seq<Trade>, gaps: int) {
    && a.tradeCount == |ts| && a.gapCount == gaps
    && a.volume == Total(ts, Size) && a.quoteVol == Total(ts, Notional) && a.buyVolume == Total(ts, BuySize)
    && PricesSummarise(a.open, a.high, a.low, a.close, ts)
  }

  ghost predicate PricesSummarise(open: Option<real>, high: Option<real>, low: Option<real>, close: Option<real>, ts: seq<Trade>) {
    && (ts == [] ==> open == high == low == close == None)
    && (ts != [] ==>
      && open == Some(ts[0].p) && close == Some(ts[|ts| - 1].p)
      && high.Some? && low.Some? && IsRange(ts, low.value, high.value))
  }

  /** The two bars agree on every field both carry; nil volumes read as 0. */
  ghost predicate AgreesWith(parallel: Bar, folded: TfBar) {
    && folded.open == parallel.open && folded.high == parallel.high && folded.low == parallel.low && folded.close == parallel.close
    && folded.volume == OrZero(parallel.volume) && folded.quoteVol == OrZero(parallel.quoteVolume)
    && folded.buyVolume == OrZero(parallel.buyVolume) && folded.sellVolume == OrZero(parallel.sellVolume)
    && folded.tradeCount == parallel.tradeCount && folded.gapCount == parallel.gapCount
  }

  lemma {:induction false} EmptyStateSummarises(openTs: int, ts: seq<Trade>)
    requires |ts| == 0
    ensures StateSummarises(Empty(openTs), ts, 0)
  {
    forall m ensures Total(ts, m) == 0.0 {
      TotalOfEmpty(ts, m);
    }
  }

  lemma {:induction false} RangeAppend(a: seq<Trade>, b: seq<Trade>, low: real, high: real, low': real, high': real)
    requires IsRange(a, low, high) && IsRange(b, low', high')
    ensures IsRange(a + b, if low' < low then low' else low, if high' > high then high' else high)
  {
    var ts := a + b;
    assert forall i :: 0 <= i < |a| ==> ts[i] == a[i];
    assert forall i :: 0 <= i < |b| ==> ts[|a| + i] == b[i];
    var i :| 0 <= i < |a| && a[i].p == low;
    var j :| 0 <= j < |a| && a[j].p == high;
    var k :| 0 <= k < |b| && b[k].p == low';
    var l :| 0 <= l < |b| && b[l].p == high';
    assert ts[i].p == low && ts[j].p == high && ts[|a| + k].p == low' && ts[|a| + l].p == high';
  }

  lemma {:induction false} FoldedTotals(a: AccState, f: seq<Trade>, gaps: int, bar: Bar, ts: seq<Trade>, g: nat)
    requires StateSummarises(a, f, gaps) && Summarises(bar, ts, g)
    ensures var r := FoldInto(a, bar);
            && r.volume == Total(f + ts, Size) && r.quoteVol == Total(f + ts, Notional) && r.buyVolume == Total(f + ts, BuySize)
            && r.tradeCount == |f + ts| && r.gapCount == gaps + g
  {
    TotalAppend(f, ts, Size);
    TotalAppend(f, ts, Notional);
    TotalAppend(f, ts, BuySize);
    if ts == [] {
      TotalOfEmpty(ts, Size);
      TotalOfEmpty(ts, Notional);
      TotalOfEmpty(ts, BuySize);
    }
  }

  /** Folding a second's bar into a state that summarises the trades so far. */
  lemma {:induction false} FoldSummarises(a: AccState, f: seq<Trade>, gaps: int, bar: Bar, ts: seq<Trade>, g: nat)
    requires StateSummarises(a, f, gaps) && Summarises(bar, ts, g)
    ensures StateSummarises(FoldInto(a, bar), f + ts, gaps + g)
  {
    FoldedTotals(a, f, gaps, bar, ts, g);
    hide Total, IsRange;
    BarPrices(bar, ts, g);
    hide FoldInto, Summarises;
    FoldedPrices(a, bar, f, ts);
  }

  lemma {:induction false} BarPrices(bar: Bar, ts: seq<Trade>, g: nat)
    requires Summarises(bar, ts, g)
    ensures PricesSummarise(bar.open, bar.high, bar.low, bar.close, ts)
  {
    hide Total, IsRange;
  }

  lemma {:induction false} FoldedPrices(a: AccState, bar: Bar, f: seq<Trade>, ts: seq<Trade>)
    requires PricesSummarise(a.open, a.high, a.low, a.close, f) && PricesSummarise(bar.open, bar.high, bar.low, bar.close, ts)
    ensures var r := FoldInto(a, bar); PricesSummarise(r.open, r.high, r.low, r.close, f + ts)
  {
    hide IsRange;
    FoldedPriceFields(a, bar);
    hide FoldInto;
    if ts == [] {
      assert f + ts == f;
    } else if f == [] {
      assert f + ts == ts;
    } else {
      RangeAppend(f, ts, a.low.value, a.high.value, bar.low.value, bar.high.value);
      assert (f + ts)[0] == f[0] && (f + ts)[|f + ts| - 1] == ts[|ts| - 1];
    }
  }

  lemma {:induction false} FoldedPriceFields(a: AccState, bar: Bar)
    ensures var r := FoldInto(a, bar);
            && r.open == (if a.open.None? then bar.open else a.open) && r.close == (if bar.close.None? then a.close else bar.close)
            && (bar.high.None? ==> r.high == a.high) && (bar.low.None? ==> r.low == a.low)
            && (a.high.None? ==> r.high == bar.high) && (a.low.None? ==> r.low == bar.low)
            && (a.high.Some? && bar.high.Some? ==> r.high == Some(if bar.high.value > a.high.value then bar.high.value else a.high.value))
            && (a.low.Some? && bar.low.Some? ==> r.low == Some(if bar.low.value < a.low.value then bar.low.value else a.low.value))
  {
  }

  /**
    The two laws of the cascade for the bars one second closes, where every second has carried its own stamp: each
    aggregates the seconds since its timeframe's previous close, and merges the lower bars since then.
  */
  ghost predicate ClosesRight(closed: seq<TfBar>, starts: seq<AccState>, past: seq<Second>, x: Second) {
    && |closed| <= |ALL_TFS| == |starts|
    && (Stamped(past + [x]) ==>
      ClosesItsSeconds(closed, starts, past, x) && (StartedEmpty(starts) ==> RollsUp(closed, past)))
  }

  lemma {:induction false} StampedCloses(closed: seq<TfBar>, starts: seq<AccState>, past: seq<Second>, x: Second)
    requires |closed| <= |ALL_TFS| == |starts|
    requires Timely(past) ==> ClosesItsSeconds(closed, starts, past, x)
    requires Timely(past + [x]) && (forall i :: 0 <= i < |starts| ==> starts[i] == Empty(0)) ==> RollsUp(closed, past)
    ensures ClosesRight(closed, starts, past, x)
  {
    hide ClosesItsSeconds, RollsUp;
    if Stamped(past + [x]) {
      forall i | 0 <= i < |past| ensures past[i].bar.tsSecMs == past[i].ts > 0 {
        assert (past + [x])[i] == past[i];
      }
      StampedOneMore(past, x);
      assert (past + [x])[|past|] == x;
    }
  }

  /** The same trades summarised twice: by the cascade and by an accumulator of their own. */
  lemma {:induction false} SummariesAgree(a: AccState, tf: TF, bar: Bar, ts: seq<Trade>, g: nat)
    requires StateSummarises(a, ts, g) && Summarises(bar, ts, g) && PositiveSizes(ts)
    ensures AgreesWith(bar, ToBar(a, tf, true))
  {
    SidesMakeUpTotal(ts);
    if ts == [] {
      TotalOfEmpty(ts, Size);
      TotalOfEmpty(ts, Notional);
      TotalOfEmpty(ts, BuySize);
    } else {
      RangeIsUnique(ts, a.low.value, a.high.value, bar.low.value, bar.high.value);
    }
  }

  /** Buys minus sells. */
  function Delta(ts: seq<Trade>): real {
    Total(ts, BuySize) - Total(ts, SellSize)
  }

  /** The running cumulative delta and what it is compared with. */
  datatype Cvd = Cvd(cumDelta: real, prevCumDelta: real, prevClose: Option<real>)

  const NO_DELTA := Cvd(0.0, 0.0, None)

  /** The cumulative delta since the last gap: of bars written, and of bars whose write failed. */
  datatype Tally = Tally(booked: real, recounted: real)

  const NO_TALLY := Tally(0.0, 0.0)

  ghost predicate DeltaOk(c: Cvd, t: Tally) {
    c.cumDelta == t.booked + t.recounted && (c.prevClose.Some? ==> c.prevCumDelta == c.cumDelta)
  }

  ghost function AfterAttempt(t: Tally, delta: real, writeOk: bool): Tally {
    if writeOk then Tally(t.booked + delta, t.recounted) else Tally(t.booked, t.recounted + delta)
  }

  /** The price moved against the volume: up while more was sold (1), down while more was bought (-1). */
  function Divergence(prevClose: Option<real>, ts: seq<Trade>): Option<int> {
    if |ts| == 0 || prevClose.None? then None
    else if ts[|ts| - 1].p > prevClose.value && Delta(ts) < 0.0 then Some(1)
    else if ts[|ts| - 1].p < prevClose.value && Delta(ts) > 0.0 then Some(-1)
    else Some(0)
  }

  /** Exactly when the price diverged from the volume, in terms of what was bought and what was sold. */
  lemma {:induction false} DivergenceMeans(prevClose: Option<real>, ts: seq<Trade>)
    ensures Divergence(prevClose, ts).Some? <==> |ts| > 0 && prevClose.Some?
    ensures |ts| > 0 && prevClose.Some? ==>
              var bought, sold, close, d := Total(ts, BuySize), Total(ts, SellSize), ts[|ts| - 1].p, Divergence(prevClose, ts).value;
              && (d == 1 <==> close > prevClose.value && bought < sold)
              && (d == -1 <==> close < prevClose.value && bought > sold)
              && -1 <= d <= 1
  {}

  // ---- The two paths of one parallel timeframe since its last close ----

  /**
    `shared` went through both paths. `missed` had been folded into the cascade when the last snapshot
    reset emptied the accumulator; `base` is the gap that reset counted instead.
  */
  datatype Path = Path(missed: seq<Trade>, missedGaps: nat, base: nat, shared: seq<Trade>, sharedGaps: nat)

  const CLEAN := Path([], 0, 0, [], 0)

  /** The reset cost the accumulator nothing: no trades, and as many gaps as it put in their place. */
  predicate Lossless(p: Path) {
    |p.missed| == 0 && p.missedGaps == p.base
  }

  ghost predicate CascadeHolds(p: Path, a: AccState) {
    StateSummarises(a, p.missed + p.shared, p.missedGaps + p.sharedGaps)
  }

  /** The accumulator also holds the second in progress. */
  ghost predicate ParallelHolds(p: Path, par: seq<Trade>, parGaps: nat, now: seq<Trade>, nowGaps: nat) {
    par == p.shared + now && parGaps == p.base + p.sharedGaps + nowGaps
  }

  ghost function AfterFlush(p: Path, closed: bool, now: seq<Trade>, nowGaps: nat): Path {
    if closed then CLEAN else p.(shared := p.shared + now, sharedGaps := p.sharedGaps + nowGaps)
  }

  ghost function AfterReset(p: Path): Path {
    Path(p.missed + p.shared, p.missedGaps + p.sharedGaps, 1, [], 0)
  }

  lemma {:induction false} CascadeHoldsEmpty(openTs: int)
    ensures CascadeHolds(CLEAN, Empty(openTs))
  {
    EmptyStateSummarises(openTs, CLEAN.missed + CLEAN.shared);
  }

  lemma {:induction false} ParallelHoldsEmpty(none: seq<Trade>)
    requires |none| == 0
    ensures ParallelHolds(CLEAN, none, 0, none, 0)
  {}

  lemma {:induction false} RestoredPath(missed: seq<Trade>, gaps: nat, a: AccState, par: seq<Trade>, parGaps: nat, now: seq<Trade>, nowGaps: nat)
    requires StateSummarises(a, missed, gaps) && ParallelHolds(CLEAN, par, parGaps, now, nowGaps)
    ensures var p := Path(missed, gaps, 0, [], 0);
            CascadeHolds(p, a) && ParallelHolds(p, par, parGaps, now, nowGaps) && (Lossless(p) <==> |missed| == 0 && gaps == 0)
  {
    assert missed + [] == missed;
    hide StateSummarises;
  }

  lemma {:induction false} RestoredDelta(v: real)
    ensures DeltaOk(Cvd(v, v, None), Tally(v, 0.0))
  {}

  lemma {:induction false} CascadeHoldsAfterReset(p: Path, a: AccState)
    requires CascadeHolds(p, a)
    ensures CascadeHolds(AfterReset(p), a)
  {
    var q := AfterReset(p);
    assert q.missed + q.shared == p.missed + p.shared;
    hide StateSummarises;
  }

  /** Folding the second in progress. */
  lemma {:induction false} CascadeFolds(p: Path, a: AccState, bar: Bar, now: seq<Trade>, nowGaps: nat)
    requires CascadeHolds(p, a) && Summarises(bar, now, nowGaps)
    ensures StateSummarises(FoldInto(a, bar), p.missed + (p.shared + now), p.missedGaps + (p.sharedGaps + nowGaps))
  {
    hide StateSummarises, FoldInto, Summarises;
    assert p.missed + (p.shared + now) == (p.missed + p.shared) + now;
    FoldSummarises(a, p.missed + p.shared, p.missedGaps + p.sharedGaps, bar, now, nowGaps);
  }

  /** A cascade state and an accumulator of which the one saw more: their bars agree if and only if that made no difference. */
  lemma {:induction false} SummariesAgreeIff(a: AccState, tf: TF, bar: Bar, missed: seq<Trade>, missedGaps: nat, base: nat,
                                             ts: seq<Trade>, g: nat)
    requires StateSummarises(a, missed + ts, missedGaps + g) && Summarises(bar, ts, base + g) && PositiveSizes(ts)
    ensures AgreesWith(bar, ToBar(a, tf, true)) <==> |missed| == 0 && missedGaps == base
  {
    assert ToBar(a, tf, true).tradeCount == |missed| + |ts| && ToBar(a, tf, true).gapCount == missedGaps + g;
    if |missed| == 0 && missedGaps == base {
      assert missed + ts == ts;
      hide AgreesWith, ToBar, StateSummarises, Summarises;
      SummariesAgree(a, tf, bar, ts, base + g);
    }
  }

  lemma {:induction false} ClosedBarsAgreeIff(p: Path, a: AccState, tf: TF, par: seq<Trade>, parGaps: nat,
                                              now: seq<Trade>, nowGaps: nat, bar: Bar, parBar: Bar)
    requires CascadeHolds(p, a) && ParallelHolds(p, par, parGaps, now, nowGaps)
    requires Summarises(bar, now, nowGaps) && Summarises(parBar, par, parGaps) && PositiveSizes(par)
    ensures AgreesWith(parBar, ToBar(FoldInto(a, bar), tf, true)) <==> Lossless(p)
  {
    hide StateSummarises, FoldInto, ToBar, AgreesWith, Summarises, PositiveSizes, CascadeHolds;
    CascadeFolds(p, a, bar, now, nowGaps);
    SummariesAgreeIff(FoldInto(a, bar), tf, parBar, p.missed, p.missedGaps, p.base, par, p.sharedGaps + nowGaps);
  }

  /** One parallel timeframe over one successful full flush: its bar agrees with the cascade's exactly if nothing was lost. */
  lemma {:induction false} FlushedBarsAgreeIff(states: seq<AccState>, x: Second, k: nat, p: Path, par: seq<Trade>, parGaps: nat,
                                               now: seq<Trade>, nowGaps: nat, parBar: Bar)
    requires k < |ALL_TFS| == |states| && Closes(x, ALL_TFS[k])
    requires CascadeHolds(p, states[k]) && ParallelHolds(p, par, parGaps, now, nowGaps)
    requires Summarises(x.bar, now, nowGaps) && Summarises(parBar, par, parGaps) && PositiveSizes(par)
    ensures |EmittedBy(states, x, |ALL_TFS|)| > k
    ensures AgreesWith(parBar, EmittedBy(states, x, |ALL_TFS|)[k]) <==> Lossless(p)
  {
    hide CascadeHolds, ParallelHolds, AgreesWith, FoldInto, ToBar, Closes, EmittedBy, Summarises, PositiveSizes, Lossless;
    ClosedBarOf(states, x, k);
    ClosedBarsAgreeIff(p, states[k], ALL_TFS[k], par, parGaps, now, nowGaps, x.bar, parBar);
  }

  /** What one successful full flush published, and how the two paths stood. */
  datatype Published = Published(closed: seq<TfBar>, bar1m: Option<Bar>, bar15m: Option<Bar>, path1m: Path, path15m: Path)

  /** A parallel bar is published exactly when the cascade closes that timeframe, and the two agree exactly if nothing was lost. */
  ghost predicate PathsAgree(e: Published) {
    && (e.bar1m.Some? <==> |e.closed| > 0)
    && (e.bar15m.Some? <==> |e.closed| > 2)
    && (e.bar1m.Some? ==> e.closed[0].tf == M1 && (AgreesWith(e.bar1m.value, e.closed[0]) <==> Lossless(e.path1m)))
    && (e.bar15m.Some? ==> e.closed[2].tf == M15 && (AgreesWith(e.bar15m.value, e.closed[2]) <==> Lossless(e.path15m)))
  }

  /** Both timeframes of one publication. */
  lemma {:induction false} PublishedAgrees(states: seq<AccState>, x: Second, e: Published, par1m: seq<Trade>, parGaps1m: nat,
                                           par15m: seq<Trade>, parGaps15m: nat, now: seq<Trade>, nowGaps: nat)
    requires |states| == |ALL_TFS| && e.closed == EmittedBy(states, x, |ALL_TFS|) && Summarises(x.bar, now, nowGaps)
    requires (e.bar1m.Some? <==> Closes(x, M1)) && (e.bar15m.Some? <==> Closes(x, M15))
    requires CascadeHolds(e.path1m, states[0]) && ParallelHolds(e.path1m, par1m, parGaps1m, now, nowGaps)
    requires CascadeHolds(e.path15m, states[2]) && ParallelHolds(e.path15m, par15m, parGaps15m, now, nowGaps)
    requires e.bar1m.Some? ==> Summarises(e.bar1m.value, par1m, parGaps1m) && PositiveSizes(par1m)
    requires e.bar15m.Some? ==> Summarises(e.bar15m.value, par15m, parGaps15m) && PositiveSizes(par15m)
    ensures PathsAgree(e)
  {
    hide CascadeHolds, ParallelHolds, AgreesWith, Summarises, Closes, EmittedBy, FoldInto, PositiveSizes, Lossless;
    ClosedBarOf(states, x, 0);
    ClosedBarOf(states, x, 2);
    if e.bar1m.Some? {
      FlushedBarsAgreeIff(states, x, 0, e.path1m, par1m, parGaps1m, now, nowGaps, e.bar1m.value);
    }
    if e.bar15m.Some? {
      FlushedBarsAgreeIff(states, x, 2, e.path15m, par15m, parGaps15m, now, nowGaps, e.bar15m.value);
    }
  }

  /** ... and afterwards both paths go on from there, closed or not. */
  lemma {:induction false} PathAfterFlush(p: Path, a: AccState, x: Second, tf: TF, par: seq<Trade>, parGaps: nat,
                                          par': seq<Trade>, parGaps': nat, now: seq<Trade>, nowGaps: nat, none: seq<Trade>)
    requires CascadeHolds(p, a) && ParallelHolds(p, par, parGaps, now, nowGaps) && Summarises(x.bar, now, nowGaps) && |none| == 0
    requires if Closes(x, tf) then par' == none && parGaps' == 0 else par' == par && parGaps' == parGaps
    ensures CascadeHolds(AfterFlush(p, Closes(x, tf), now, nowGaps), Step(a, x, tf))
    ensures ParallelHolds(AfterFlush(p, Closes(x, tf), now, nowGaps), par', parGaps', none, 0)
  {
    assert none == [] && CLEAN.shared + none == none && p.shared + now + none == p.shared + now;
    hide StateSummarises, FoldInto, Closes, Summarises;
    if Closes(x, tf) {
      CascadeHoldsEmpty(x.ts + 1000);
    } else {
      CascadeFolds(p, a, x.bar, now, nowGaps);
    }
  }

  /** The bar this accumulator gives at the second, restamped with the opening time of the timeframe's bar. */
  ghost predicate ClosesAs(par: Accumulator, b: Bar, tsSecMs: int, tf: TF)
    reads par
  {
    par.Finished(b.(tsSecMs := tsSecMs), tsSecMs, false) && b.tsSecMs == (TruncDiv(tsSecMs, 1000) + 1 - Length(tf)) * 1000
  }

  /** No quotes, no last mid-price, no bar counted. */
  ghost predicate StartsOver(a: Accumulator)
    reads a
  {
    a.rets == [] && a.spreads == [] && !a.hasLastMid && !a.quote.hasClose && a.barCount == 0
  }

  class AccWriter {
    const acc: Accumulator
    const acc1m: Accumulator
    const acc15m: Accumulator
    const engine: Engine
    var cvd: Cvd

    ghost var path1m: Path
    ghost var path15m: Path
    ghost var published: seq<Published>
    ghost var tally: Tally

    ghost predicate Shape()
      reads this, acc, acc1m, acc15m, engine, engine.accs
    {
      && acc != acc1m && acc != acc15m && acc1m != acc15m
      && acc.parse == acc1m.parse == acc15m.parse
      && IsSqrt(acc.sqrt) && IsSqrt(acc1m.sqrt) && IsSqrt(acc15m.sqrt)
      && acc.Valid() && acc1m.Valid() && acc15m.Valid() && engine.Shape() && engine.Valid()
    }

    /** The cascade's side of both paths. */
    ghost predicate CascadeSide()
      requires engine.Shape()
      reads this, engine.accs
    {
      CascadeHolds(path1m, engine.accs[0].View()) && CascadeHolds(path15m, engine.accs[2].View())
    }

    /** The accumulators' side, given the second in progress. */
    ghost predicate ParallelSide(now: seq<Trade>, nowGaps: nat)
      reads this, acc1m, acc15m
    {
      && ParallelHolds(path1m, acc1m.trades, acc1m.gapCount, now, nowGaps)
      && ParallelHolds(path15m, acc15m.trades, acc15m.gapCount, now, nowGaps)
    }

    /** All a snapshot reset needs; after a partial flush nothing more holds. */
    ghost predicate AwaitsReset()
      reads this, acc, acc1m, acc15m, engine, engine.accs
    {
      Shape() && CascadeSide() && (forall e :: e in published ==> PathsAgree(e)) && DeltaOk(cvd, tally)
    }

    ghost predicate Valid()
      reads this, acc, acc1m, acc15m, engine, engine.accs
    {
      AwaitsReset() && ParallelSide(acc.trades, acc.gapCount)
    }

    constructor (parse: string -> Option<real>, ln: real -> real, sqrt: real -> real)
      requires IsSqrt(sqrt)
      ensures Valid() && path1m == path15m == CLEAN && published == [] && tally == NO_TALLY && cvd == NO_DELTA
      ensures acc.trades == [] && acc.gapCount == 0 && acc.parse == parse
      ensures engine.history == [] && StartedEmpty(engine.starts)
      ensures fresh(acc) && fresh(acc1m) && fresh(acc15m) && fresh(engine) && fresh(engine.accs)
    {
      hide Accumulator.Valid, Engine.Valid, StartedEmpty, CascadeHolds, ParallelHolds, PathsAgree, IsSqrt;
      acc := new Accumulator(parse, ln, sqrt);
      acc1m := new Accumulator(parse, ln, sqrt);
      acc15m := new Accumulator(parse, ln, sqrt);
      engine := new Engine();
      cvd := NO_DELTA;
      path1m, path15m := CLEAN, CLEAN;
      published, tally := [], NO_TALLY;
      new;
      CascadeHoldsEmpty(0);
      ParallelHoldsEmpty(acc.trades);
    }

    /**
      After a restart: the cascade and the cumulative delta are restored, the accumulators are new. The ghost
      parameters are the trades and gaps the restored states summarise, which the accumulators never saw.
    */
    method RestoreCascade(hashes: seq<Option<map<string, string>>>, parse: string -> Option<real>, cumDelta: real,
                          ghost missed1m: seq<Trade>, ghost gaps1m: nat, ghost missed15m: seq<Trade>, ghost gaps15m: nat)
      requires Valid() && path1m == path15m == CLEAN && acc.trades == [] && acc.gapCount == 0 && |hashes| == |ALL_TFS|
      requires StateSummarises(RestoredState(hashes[0], engine.accs[0].View(), parse), missed1m, gaps1m)
      requires StateSummarises(RestoredState(hashes[2], engine.accs[2].View(), parse), missed15m, gaps15m)
      modifies `cvd, `tally, `path1m, `path15m, engine, engine.accs
      ensures Valid() && published == old(published) && (old(engine.history) == [] ==> engine.history == [])
      ensures path1m == Path(missed1m, gaps1m, 0, [], 0) && path15m == Path(missed15m, gaps15m, 0, [], 0)
      // so the first bars after the restart agree exactly if nothing had been folded
      ensures Lossless(path1m) <==> |missed1m| == 0 && gaps1m == 0
      ensures Lossless(path15m) <==> |missed15m| == 0 && gaps15m == 0
      ensures cvd == Cvd(cumDelta, cumDelta, None) && tally == Tally(cumDelta, 0.0)
    {
      hide Accumulator.Valid, PathsAgree, StateSummarises, IsSqrt, Engine.Valid, CascadeHolds, ParallelHolds, DeltaOk, RestoredState,
        CascadeAcc.View, Lossless;
      RestoreEngine(hashes, parse);
      cvd, tally := Cvd(cumDelta, cumDelta, None), Tally(cumDelta, 0.0);
      RestoredPath(missed1m, gaps1m, engine.accs[0].View(), acc1m.trades, acc1m.gapCount, acc.trades, acc.gapCount);
      RestoredPath(missed15m, gaps15m, engine.accs[2].View(), acc15m.trades, acc15m.gapCount, acc.trades, acc.gapCount);
      RestoredDelta(cumDelta);
      path1m, path15m := Path(missed1m, gaps1m, 0, [], 0), Path(missed15m, gaps15m, 0, [], 0);
    }

    method RestoreEngine(hashes: seq<Option<map<string, string>>>, parse: string -> Option<real>)
      requires engine.Valid() && |hashes| == |ALL_TFS|
      modifies engine, engine.accs
      ensures engine.Shape() && engine.Valid() && (old(engine.history) == [] ==> engine.history == [])
      ensures engine.accs[0].View() == RestoredState(hashes[0], old(engine.accs[0].View()), parse)
      ensures engine.accs[2].View() == RestoredState(hashes[2], old(engine.accs[2].View()), parse)
    {
      hide RestoredState, CascadeAcc.View, FloatsRoundTrip, Fits, ToHash, FromHash, Core, StateFrom;
      engine.RestoreAll(hashes, parse);
    }

    /** Every tick goes to all three accumulators. */
    method Apply(price: string, size: string, isTrade: bool, side: string, tsMs: int, bid: string, ask: string)
      requires Valid()
      modifies this, acc, acc1m, acc15m
      ensures Valid() && acc.trades == old(acc.trades) + acc.Accepted(price, size, isTrade, side, tsMs)
      ensures acc.Quotes() == acc.AfterTick(old(acc.Quotes()), bid, ask)
      ensures acc1m.Quotes() == acc1m.AfterTick(old(acc1m.Quotes()), bid, ask)
      ensures acc15m.Quotes() == acc15m.AfterTick(old(acc15m.Quotes()), bid, ask)
      ensures published == old(published) && path1m == old(path1m) && path15m == old(path15m)
      ensures cvd == old(cvd) && tally == old(tally)
    {
      hide Accumulator.Valid, Engine.Valid, PathsAgree, CascadeHolds, Accumulator.Quotes, Accumulator.AfterTick;
      acc.Apply(price, size, isTrade, side, tsMs, bid, ask);
      acc1m.Apply(price, size, isTrade, side, tsMs, bid, ask);
      acc15m.Apply(price, size, isTrade, side, tsMs, bid, ask);
      ghost var more := acc.Accepted(price, size, isTrade, side, tsMs);
      assert path1m.shared + old(acc.trades) + more == path1m.shared + (old(acc.trades) + more);
      assert path15m.shared + old(acc.trades) + more == path15m.shared + (old(acc.trades) + more);
    }

    /** A gap breaks the cumulative delta; the bars only count it. */
    method IncrementGap()
      requires Valid()
      modifies this, acc, acc1m, acc15m
      ensures Valid() && acc.trades == old(acc.trades) && acc.gapCount == old(acc.gapCount) + 1
      ensures published == old(published) && path1m == old(path1m) && path15m == old(path15m)
      ensures cvd == NO_DELTA && tally == NO_TALLY
    {
      hide Accumulator.Valid, Engine.Valid, PathsAgree, CascadeHolds, IsSqrt;
      acc.IncrementGap();
      acc1m.IncrementGap();
      acc15m.IncrementGap();
      cvd, tally := NO_DELTA, NO_TALLY;
    }

    method ResetAccumulators()
      requires Shape()
      modifies acc, acc1m, acc15m
      ensures Shape() && acc.trades == acc1m.trades == acc15m.trades == [] && acc.gapCount == 0
      ensures acc1m.gapCount == acc15m.gapCount == 1
      ensures StartsOver(acc) && StartsOver(acc1m) && StartsOver(acc15m)
    {
      hide Accumulator.Valid, Engine.Valid, IsSqrt;
      acc.Reset();
      acc1m.Reset();
      acc15m.Reset();
      acc1m.IncrementGap();
      acc15m.IncrementGap();
    }

    /** A snapshot reset empties the accumulators but not the cascade. */
    method Reset()
      requires AwaitsReset()
      modifies `cvd, `tally, `path1m, `path15m, acc, acc1m, acc15m
      ensures Valid() && acc.trades == acc1m.trades == acc15m.trades == [] && acc.gapCount == 0
      ensures acc1m.gapCount == acc15m.gapCount == 1 && StartsOver(acc) && StartsOver(acc1m) && StartsOver(acc15m)
      ensures path1m == AfterReset(old(path1m)) && path15m == AfterReset(old(path15m))
      ensures cvd == NO_DELTA && tally == NO_TALLY
    {
      hide Accumulator.Valid, Engine.Valid, PathsAgree, CascadeHolds, IsSqrt;
      CascadeHoldsAfterReset(path1m, engine.accs[0].View());
      CascadeHoldsAfterReset(path15m, engine.accs[2].View());
      ResetAccumulators();
      cvd, tally := NO_DELTA, NO_TALLY;
      path1m, path15m := AfterReset(path1m), AfterReset(path15m);
    }

    /** The cumulative delta moves before the write is attempted. */
    method BookDelta(bar: Bar, ghost writeOk: bool) returns (divergence: Option<int>)
      requires Summarises(bar, acc.trades, acc.gapCount) && DeltaOk(cvd, tally)
      modifies `cvd, `tally
      ensures DeltaOk(cvd, tally) && tally == AfterAttempt(old(tally), Delta(acc.trades), writeOk)
      ensures divergence == Divergence(old(cvd.prevClose), acc.trades)
      ensures cvd.prevClose == if |acc.trades| == 0 then old(cvd.prevClose) else Some(acc.trades[|acc.trades| - 1].p)
    {
      if acc.trades == [] {
        TotalOfEmpty(acc.trades, BuySize);
        TotalOfEmpty(acc.trades, SellSize);
      }
      hide Total, IsRange;
      divergence := None;
      tally := AfterAttempt(tally, Delta(acc.trades), writeOk);
      if bar.buyVolume.Some? && bar.sellVolume.Some? {
        var cumDelta := cvd.cumDelta + (bar.buyVolume.value - bar.sellVolume.value);
        if bar.close.Some? && cvd.prevClose.Some? {
          var cvdDiv := 0;
          if bar.close.value > cvd.prevClose.value && cumDelta < cvd.prevCumDelta {
            cvdDiv := 1;
          } else if bar.close.value < cvd.prevClose.value && cumDelta > cvd.prevCumDelta {
            cvdDiv := -1;
          }
          divergence := Some(cvdDiv);
        }
        cvd := Cvd(cumDelta, cumDelta, bar.close);
      }
    }

    static lemma {:induction false} StampedSummarises(bar: Bar, open: int, ts: seq<Trade>, gaps: nat)
      requires Summarises(bar, ts, gaps)
      ensures Summarises(bar.(tsSecMs := open), ts, gaps)
    {}

    /** One parallel timeframe: on its boundary, publish its bar and clear it. */
    method FlushParallel(par: Accumulator, tf: TF, tsSecMs: int) returns (b: Option<Bar>)
      requires par.Valid() && IsSqrt(par.sqrt) && tf != W1
      modifies par
      ensures par.Valid() && (b.Some? <==> IsBarClose(tsSecMs, tf))
      ensures b.Some? ==> PositiveSizes(old(par.trades))
      ensures b.Some? ==> Summarises(b.value, old(par.trades), old(par.gapCount)) && par.trades == [] && par.gapCount == 0
      ensures b.Some? ==> old(ClosesAs(par, b.value, tsSecMs, tf))
      // cleared but for the last mid-price, or else left alone
      ensures par.lastMidPrice == old(par.lastMidPrice) && par.hasLastMid == old(par.hasLastMid)
      ensures if b.Some? then par.Cleared() && par.barCount == old(par.barCount) + 1
              else par.rets == old(par.rets) && par.spreads == old(par.spreads) && par.barCount == old(par.barCount)
      ensures b.None? ==> par.trades == old(par.trades) && par.gapCount == old(par.gapCount)
    {
      hide Accumulator.Valid, Accumulator.Finished, IsBarClose, Truncate, TruncDiv, Length, Summarises, PositiveSizes, IsSqrt;
      b := None;
      par.TradesArePositive();
      if IsBarClose(tsSecMs, tf) {
        var bar := par.CurrentBar(tsSecMs, false);
        par.FinishedSummarises(bar, tsSecMs, false);
        var open := Truncate(TruncDiv(tsSecMs, 1000), Length(tf)) * 1000;
        OpenedOneLengthBefore(tsSecMs, tf);
        StampedSummarises(bar, open, par.trades, par.gapCount);
        b := Some(bar.(tsSecMs := open));
        assert bar.(tsSecMs := open).(tsSecMs := tsSecMs) == bar;
        par.BarReset();
      }
    }

    /** The cascade takes the second first, then the parallel bars are published on their boundaries. */
    method FoldAll(bar: Bar, tsSecMs: int)
      returns (closed: seq<TfBar>, bar1m: Option<Bar>, bar15m: Option<Bar>)
      requires Shape()
      modifies acc1m, acc15m, engine, engine.accs
      ensures Shape()
      ensures engine.history == old(engine.history) + [Second(bar, tsSecMs)] && engine.starts == old(engine.starts)
      ensures closed == EmittedBy(old(engine.Views()), Second(bar, tsSecMs), |ALL_TFS|)
      ensures ClosesRight(closed, engine.starts, old(engine.history), Second(bar, tsSecMs))
      ensures engine.accs[0].View() == Step(old(engine.accs[0].View()), Second(bar, tsSecMs), M1)
      ensures engine.accs[2].View() == Step(old(engine.accs[2].View()), Second(bar, tsSecMs), M15)
      ensures (bar1m.Some? <==> IsBarClose(tsSecMs, M1)) && (bar15m.Some? <==> IsBarClose(tsSecMs, M15))
      ensures (bar1m.Some? ==> old(ClosesAs(acc1m, bar1m.value, tsSecMs, M1))) && (bar15m.Some? ==> old(ClosesAs(acc15m, bar15m.value, tsSecMs, M15)))
      ensures bar1m.Some? ==>
                && PositiveSizes(old(acc1m.trades)) && Summarises(bar1m.value, old(acc1m.trades), old(acc1m.gapCount))
                && acc1m.trades == [] && acc1m.gapCount == 0
      ensures bar1m.None? ==> acc1m.trades == old(acc1m.trades) && acc1m.gapCount == old(acc1m.gapCount)
      ensures bar15m.Some? ==>
                && PositiveSizes(old(acc15m.trades)) && Summarises(bar15m.value, old(acc15m.trades), old(acc15m.gapCount))
                && acc15m.trades == [] && acc15m.gapCount == 0
      ensures bar15m.None? ==> acc15m.trades == old(acc15m.trades) && acc15m.gapCount == old(acc15m.gapCount)
    {
      hide Accumulator.Valid, Accumulator.Finished, Engine.Valid, Summarises, PositiveSizes, Step, EmittedBy, IsBarClose, IsSqrt,
        ClosesItsSeconds, RollsUp, Timely, ClosesRight, ClosesAs;
      ghost var past := engine.history;
      closed := engine.Fold(bar, tsSecMs);
      StampedCloses(closed, engine.starts, past, Second(bar, tsSecMs));
      bar1m := FlushParallel(acc1m, M1, tsSecMs);
      bar15m := FlushParallel(acc15m, M15, tsSecMs);
    }

    /** The part of a full flush after the write succeeded. */
    method FoldAndPublish(bar: Bar, tsSecMs: int)
      returns (closed: seq<TfBar>, bar1m: Option<Bar>, bar15m: Option<Bar>)
      requires Valid() && Summarises(bar, acc.trades, acc.gapCount)
      modifies `path1m, `path15m, `published
      modifies acc1m, acc15m, engine, engine.accs
      ensures AwaitsReset() && ParallelSide([], 0)
      ensures engine.history == old(engine.history) + [Second(bar, tsSecMs)] && engine.starts == old(engine.starts)
      ensures closed == EmittedBy(old(engine.Views()), Second(bar, tsSecMs), |ALL_TFS|)
      ensures ClosesRight(closed, engine.starts, old(engine.history), Second(bar, tsSecMs))
      ensures (bar1m.Some? <==> IsBarClose(tsSecMs, M1)) && (bar15m.Some? <==> IsBarClose(tsSecMs, M15))
      ensures (bar1m.Some? ==> old(ClosesAs(acc1m, bar1m.value, tsSecMs, M1))) && (bar15m.Some? ==> old(ClosesAs(acc15m, bar15m.value, tsSecMs, M15)))
      ensures published == old(published) + [Published(closed, bar1m, bar15m, old(path1m), old(path15m))]
      ensures path1m == AfterFlush(old(path1m), bar1m.Some?, acc.trades, acc.gapCount)
      ensures path15m == AfterFlush(old(path15m), bar15m.Some?, acc.trades, acc.gapCount)
    {
      hide Accumulator.Valid, Engine.Valid, PathsAgree, CascadeHolds, ParallelHolds, Summarises, PositiveSizes, Step, EmittedBy,
        IsBarClose, IsSqrt, DeltaOk, AfterFlush, ClosesRight, ClosesAs;
      ghost var x, views, now, g := Second(bar, tsSecMs), engine.Views(), acc.trades, acc.gapCount;
      ghost var was1m, was15m := acc1m.trades, acc15m.trades;
      ghost var wasGaps1m, wasGaps15m := acc1m.gapCount, acc15m.gapCount;
      closed, bar1m, bar15m := FoldAll(bar, tsSecMs);

      ghost var none: seq<Trade> := [];
      ghost var e := Published(closed, bar1m, bar15m, path1m, path15m);
      PublishedAgrees(views, x, e, was1m, wasGaps1m, was15m, wasGaps15m, now, g);
      PathAfterFlush(path1m, views[0], x, M1, was1m, wasGaps1m, acc1m.trades, acc1m.gapCount, now, g, none);
      PathAfterFlush(path15m, views[2], x, M15, was15m, wasGaps15m, acc15m.trades, acc15m.gapCount, now, g, none);
      published := published + [e];
      path1m, path15m := AfterFlush(path1m, bar1m.Some?, now, g), AfterFlush(path15m, bar15m.Some?, now, g);
    }

    /**
      The rest of a flush whose write succeeded. A partial flush keeps the second from the cascade, but
      leaves it in the parallel accumulators until the reset that follows.
    */
    method FinishSecond(bar: Bar, isPartial: bool, tsSecMs: int)
      returns (closed: seq<TfBar>, bar1m: Option<Bar>, bar15m: Option<Bar>)
      requires Valid() && Summarises(bar, acc.trades, acc.gapCount)
      modifies `path1m, `path15m, `published, acc, acc1m, acc15m, engine, engine.accs
      ensures AwaitsReset() && (isPartial || Valid()) && acc.Cleared() && acc.barCount == old(acc.barCount) + 1
      ensures acc.lastMidPrice == old(acc.lastMidPrice) && acc.hasLastMid == old(acc.hasLastMid)
      ensures !isPartial ==>
                && published == old(published) + [Published(closed, bar1m, bar15m, old(path1m), old(path15m))]
                && (bar1m.Some? <==> IsBarClose(tsSecMs, M1)) && (bar15m.Some? <==> IsBarClose(tsSecMs, M15))
                && path1m == AfterFlush(old(path1m), bar1m.Some?, old(acc.trades), old(acc.gapCount))
                && path15m == AfterFlush(old(path15m), bar15m.Some?, old(acc.trades), old(acc.gapCount))
                && engine.history == old(engine.history) + [Second(bar, tsSecMs)]
                && closed == EmittedBy(old(engine.Views()), Second(bar, tsSecMs), |ALL_TFS|)
                && ClosesRight(closed, engine.starts, old(engine.history), Second(bar, tsSecMs))
      ensures (bar1m.Some? ==> old(ClosesAs(acc1m, bar1m.value, tsSecMs, M1))) && (bar15m.Some? ==> old(ClosesAs(acc15m, bar15m.value, tsSecMs, M15)))
      ensures engine.starts == old(engine.starts)
      ensures isPartial ==> closed == [] && bar1m.None? && bar15m.None?
      ensures isPartial ==>
                && published == old(published) && engine.history == old(engine.history) && path1m == old(path1m) && path15m == old(path15m)
                && acc1m.trades == old(acc1m.trades) && acc1m.gapCount == old(acc1m.gapCount)
                && acc15m.trades == old(acc15m.trades) && acc15m.gapCount == old(acc15m.gapCount)
    {
      hide Accumulator.Valid, Engine.Valid, PathsAgree, CascadeHolds, ParallelHolds, Summarises, IsSqrt, DeltaOk, EmittedBy,
        Engine.Views, IsBarClose, AfterFlush, ClosesRight, ClosesAs;
      closed, bar1m, bar15m := [], None, None;
      if !isPartial {
        closed, bar1m, bar15m := FoldAndPublish(bar, tsSecMs);
      }
      acc.BarReset();
    }

    /**
      Closes a second. `writeOk` is whether the database took the 1-second bar; if not, nothing is
      reset and nothing reaches the cascade.
    */
    method Flush(isPartial: bool, tsSecMs: int, writeOk: bool)
      returns (written: Bar, closed: seq<TfBar>, bar1m: Option<Bar>, bar15m: Option<Bar>, divergence: Option<int>)
      requires Valid()
      modifies this, acc, acc1m, acc15m, engine, engine.accs
      // what was published agrees exactly where nothing was lost; a partial flush has to be followed by a reset
      ensures AwaitsReset() && (isPartial || Valid())
      ensures !writeOk ==>
                && acc.trades == old(acc.trades) && acc.gapCount == old(acc.gapCount) && published == old(published)
                && engine.history == old(engine.history) && path1m == old(path1m) && path15m == old(path15m)
      ensures !writeOk || isPartial ==> closed == [] && bar1m.None? && bar15m.None?
      // written: the accumulator is cleared but for its last mid-price; else it keeps everything
      ensures acc.lastMidPrice == old(acc.lastMidPrice) && acc.hasLastMid == old(acc.hasLastMid)
      ensures if writeOk then acc.Cleared() && acc.barCount == old(acc.barCount) + 1
              else acc.rets == old(acc.rets) && acc.spreads == old(acc.spreads) && acc.barCount == old(acc.barCount)
      ensures writeOk && !isPartial ==>
                && published == old(published) + [Published(closed, bar1m, bar15m, old(path1m), old(path15m))]
                && (bar1m.Some? <==> IsBarClose(tsSecMs, M1)) && (bar15m.Some? <==> IsBarClose(tsSecMs, M15))
                && path1m == AfterFlush(old(path1m), bar1m.Some?, old(acc.trades), old(acc.gapCount))
                && path15m == AfterFlush(old(path15m), bar15m.Some?, old(acc.trades), old(acc.gapCount))
      // the bar handed to the database: stamped with the second, and all the accumulator held
      ensures old(acc.Finished(written, tsSecMs, isPartial))
      // the parallel bars, each with all its accumulator held
      ensures (bar1m.Some? ==> old(ClosesAs(acc1m, bar1m.value, tsSecMs, M1))) && (bar15m.Some? ==> old(ClosesAs(acc15m, bar15m.value, tsSecMs, M15)))
      // it is what the cascade takes, and closes what it closes
      ensures engine.starts == old(engine.starts)
      ensures writeOk && !isPartial ==>
                && engine.history == old(engine.history) + [Second(written, tsSecMs)]
                && closed == EmittedBy(old(engine.Views()), Second(written, tsSecMs), |ALL_TFS|)
                && ClosesRight(closed, engine.starts, old(engine.history), Second(written, tsSecMs))
      ensures old(Stamped(engine.history)) && tsSecMs > 0 ==> Stamped(engine.history)
      // a partial flush keeps the second from the cascade only
      ensures writeOk && isPartial ==>
                && published == old(published) && engine.history == old(engine.history) && path1m == old(path1m) && path15m == old(path15m)
                && acc1m.trades == old(acc1m.trades) && acc15m.trades == old(acc15m.trades)
      // the cumulative delta counts a second once per attempt, failed attempts included
      ensures tally == if isPartial then old(tally) else AfterAttempt(old(tally), Delta(old(acc.trades)), writeOk)
      ensures divergence == if isPartial then None else Divergence(old(cvd.prevClose), old(acc.trades))
      ensures isPartial || old(acc.trades) == [] ==> cvd.prevClose == old(cvd.prevClose)
      ensures !isPartial && old(acc.trades) != [] ==> cvd.prevClose == Some(old(acc.trades)[|old(acc.trades)| - 1].p)
    {
      hide Accumulator.Valid, Engine.Valid, PathsAgree, CascadeHolds, ParallelHolds, Summarises, IsSqrt, Delta, Divergence, DeltaOk,
        EmittedBy, Engine.Views, IsBarClose, AfterFlush, ClosesRight, ClosesAs, Stamped, Accumulator.Finished;
      closed, bar1m, bar15m, divergence := [], None, None, None;
      written := acc.CurrentBar(tsSecMs, isPartial);
      acc.FinishedSummarises(written, tsSecMs, isPartial);
      if !isPartial {
        divergence := BookDelta(written, writeOk);
      }
      if !writeOk {
        return;
      }
      ghost var past := engine.history;
      closed, bar1m, bar15m := FinishSecond(written, isPartial, tsSecMs);
      if Stamped(past) {
        StampedOneMore(past, Second(written, tsSecMs));
      }
    }

    /** The consumer's handling of a snapshot: the only partial flush there is, and the reset after it, written or not. */
    method TakeSnapshot(tickCount: nat, tsSecMs: int, writeOk: bool)
      requires Valid()
      modifies this, acc, acc1m, acc15m, engine, engine.accs
      ensures Valid() && acc.trades == acc1m.trades == acc15m.trades == []
      ensures StartsOver(acc) && StartsOver(acc1m) && StartsOver(acc15m)
      ensures published == old(published) && engine.history == old(engine.history)
      ensures path1m == AfterReset(old(path1m)) && path15m == AfterReset(old(path15m))
    {
      hide Accumulator.Valid, Engine.Valid, PathsAgree, CascadeHolds, ParallelHolds, IsSqrt, Delta, Divergence, DeltaOk, Summarises,
        EmittedBy, Engine.Views, IsBarClose, AfterFlush, AfterReset, ClosesRight, Stamped, Accumulator.Finished;
      if tickCount > 0 {
        var _, _, _, _, _ := Flush(true, tsSecMs, writeOk);
      }
      Reset();
    }
  }

  /** What was folded before a snapshot, seen from the minute closed after it. */
  lemma {:induction false} LosslessAfterReset(now: seq<Trade>, gaps: nat)
    ensures Lossless(AfterReset(AfterFlush(CLEAN, false, now, gaps))) <==> |now| == 0 && gaps == 1
  {}

  lemma {:induction false} SecondsOfTheFirstMinute()
    ensures !IsBarClose(1000, M1) && IsBarClose(59000, M1)
  {}

  /** A trade folded before a snapshot and the minute closed after it: the two 1-minute bars differ. */
  method SnapshotLosesTrades(w: AccWriter) returns (parallel: Bar, folded: TfBar)
    requires w.Valid() && w.path1m == CLEAN && w.acc.trades == [] && w.acc.parse("1") == Some(1.0)
    modifies w, w.acc, w.acc1m, w.acc15m, w.engine, w.engine.accs
    ensures !AgreesWith(parallel, folded)
  {
    hide AccWriter.Valid, ClosesRight, ClosesAs, Stamped, Accumulator.Finished, AgreesWith, Summarises, EmittedBy, Engine.Views, IsBarClose, AfterFlush, AfterReset, Delta, Divergence;
    SecondsOfTheFirstMinute();
    w.Apply("1", "1", true, "buy", 1000, "", "");
    LosslessAfterReset(w.acc.trades, w.acc.gapCount);
    parallel, folded := CloseAfterSnapshot(w);
  }

  /** A gap folded before it instead: the reset counts one in its place, and they agree. */
  method SnapshotReplacesOneGap(w: AccWriter) returns (parallel: Bar, folded: TfBar)
    requires w.Valid() && w.path1m == CLEAN && w.acc.trades == [] && w.acc.gapCount == 0
    modifies w, w.acc, w.acc1m, w.acc15m, w.engine, w.engine.accs
    ensures AgreesWith(parallel, folded)
  {
    hide AccWriter.Valid, ClosesRight, ClosesAs, Stamped, Accumulator.Finished, AgreesWith, Summarises, EmittedBy, Engine.Views, IsBarClose, AfterFlush, AfterReset, Delta, Divergence;
    w.IncrementGap();
    LosslessAfterReset(w.acc.trades, w.acc.gapCount);
    parallel, folded := CloseAfterSnapshot(w);
  }

  /** Flushes a second, takes a snapshot, closes the minute. */
  method CloseAfterSnapshot(w: AccWriter) returns (parallel: Bar, folded: TfBar)
    requires w.Valid() && w.path1m == CLEAN
    modifies w, w.acc, w.acc1m, w.acc15m, w.engine, w.engine.accs
    ensures AgreesWith(parallel, folded) <==> Lossless(AfterReset(AfterFlush(CLEAN, false, old(w.acc.trades), old(w.acc.gapCount))))
  {
    hide ClosesRight, ClosesAs, Stamped, Accumulator.Finished, AgreesWith, Summarises, EmittedBy, Engine.Views, IsBarClose, AfterFlush, AfterReset, Delta, Divergence, Accumulator.Valid,
      Engine.Valid, CascadeHolds, ParallelHolds, IsSqrt, DeltaOk, Lossless;
    SecondsOfTheFirstMinute();
    var _, _, _, _, _ := w.Flush(false, 1000, true);
    w.TakeSnapshot(0, 2000, true);
    var _, closed, bar1m, _, _ := w.Flush(false, 59000, true);
    assert PathsAgree(w.published[|w.published| - 1]);
    parallel, folded := bar1m.value, closed[0];
  }

  lemma {:induction false} DeltaOfOneBuy(t: Trade)
    requires t.side == "buy"
    ensures Delta([t]) == t.s
  {
    var none: seq<Trade> := [];
    assert none + [t] == [t];
    TotalSnoc(none, t, BuySize);
    TotalSnoc(none, t, SellSize);
    TotalOfEmpty(none, BuySize);
    TotalOfEmpty(none, SellSize);
  }

  /** A second whose write fails once: its trade is in the cumulative delta twice. */
  method FailedWriteCountsTwice(w: AccWriter)
    requires w.Valid() && w.acc.trades == [] && w.tally == NO_TALLY && w.acc.parse("1") == Some(1.0)
    modifies w, w.acc, w.acc1m, w.acc15m, w.engine, w.engine.accs
    ensures w.tally == Tally(1.0, 1.0) && w.cvd.cumDelta == 2.0
  {
    hide AccWriter.Valid, ClosesRight, ClosesAs, Stamped, Accumulator.Finished, AgreesWith, Summarises, EmittedBy, Engine.Views, IsBarClose, AfterFlush, AfterReset, Delta, Divergence;
    w.Apply("1", "1", true, "buy", 1000, "", "");
    DeltaOfOneBuy(w.acc.trades[0]);
    assert w.acc.trades == [w.acc.trades[0]];
    var _, _, _, _, _ := w.Flush(false, 1000, false);
    var _, _, _, _, _ := w.Flush(false, 2000, true);
    TallyIsCumulative(w);
  }

  lemma {:induction false} TallyIsCumulative(w: AccWriter)
    requires w.Valid()
    ensures w.cvd.cumDelta == w.tally.booked + w.tally.recounted
  {}
}
