/**
  The per-bar accumulator (candle-service/internal/accumulator/accumulator.go). Its running
  fields are tied to batch definitions over the trades, mid-price returns and spreads of the
  bar, kept in ghost histories.
*/
module Accumulators {
  import opened Options
  import opened RealSeqs
  import opened Moments
  import opened SignAutocorrelation
  import opened Trades
  import opened ValueAreas
  import Gini

  /** The fields of a bar this model follows; None stands for nil. */
  datatype Bar = Bar(
    tsSecMs: int,
    open: Option<real>, high: Option<real>, low: Option<real>, close: Option<real>,
    volume: Option<real>, quoteVolume: Option<real>, tradeCount: nat, twap: Option<real>,
    buyVolume: Option<real>, sellVolume: Option<real>,
    spreadMean: Option<real>, valueArea: Option<ValueArea>,
    buyVwapDeviationBps: Option<real>, sellVwapDeviationBps: Option<real>,
    maxConsecutiveRun: Option<nat>, tradeClustering: Option<real>,
    realizedVol: Option<real>, tradeSignAutocorr: Option<real>, numTradePriceLevels: Option<nat>,
    isPartial: bool, gapCount: nat, barCount: nat)

  function Max(a: real, b: real): real {
    if a < b then b else a
  }

  // ---- The running fields, grouped as the source's struct groups them ----

  datatype Ohlcv = Ohlcv(open: real, high: real, low: real, close: real,
                         volumeSum: real, quoteVolSum: real, tradeCount: nat)

  datatype TwapState = TwapState(numer: real, denom: real, lastTradeTsMs: int)

  datatype Flow = Flow(buyVolume: real, footprintMap: map<string, Cell>,
                       buyVwapNumer: real, buyVwapDenom: real, sellVwapNumer: real, sellVwapDenom: real)

  datatype Distribution = Distribution(timestamps: seq<int>, runLen: nat, runSide: string, maxRun: nat)

  datatype Spread = Spread(sum: real, count: nat, has: bool)

  datatype Volatility = Volatility(n: nat, mean: real, m2: real, m3: real)

  datatype Microstructure = Microstructure(sumSigns: int, sumSignPairs: int, firstSign: int, lastSign: int,
                                           priceLevels: set<string>)

  datatype Quote = Quote(bestBid: real, bestAsk: real, hasClose: bool)

  /** What quotes leave behind: the last one, the last mid-price, and the bar's spreads and returns. */
  datatype QuoteState = QuoteState(quote: Quote, lastMid: Option<real>, spreads: seq<real>, rets: seq<real>)

  // ---- What they mean, in terms of the bar's trades ----

  function Stamps(ts: seq<Trade>): seq<int> {
    seq(|ts|, i requires 0 <= i < |ts| => ts[i].ts)
  }

  ghost predicate OhlcvOk(ts: seq<Trade>, o: Ohlcv) {
    && o.tradeCount == |ts| && PositiveSizes(ts)
    && o.volumeSum == Total(ts, Size) && o.quoteVolSum == Total(ts, Notional)
    && (ts != [] ==> o.open == ts[0].p && o.close == ts[|ts| - 1].p && IsRange(ts, o.low, o.high))
  }

  ghost predicate TwapOk(ts: seq<Trade>, w: TwapState) {
    && w.numer == HeldValue(ts) && w.denom == HeldTime(ts)
    && (ts != [] ==> w.lastTradeTsMs == ts[|ts| - 1].ts)
  }

  ghost predicate FlowOk(ts: seq<Trade>, f: Flow) {
    && f.buyVolume == f.buyVwapDenom == Total(ts, BuySize) && f.buyVwapNumer == Total(ts, BuyNotional)
    && f.sellVwapDenom == Total(ts, SellSize) && f.sellVwapNumer == Total(ts, SellNotional)
    && IsFootprint(ts, f.footprintMap)
  }

  ghost predicate DistributionOk(ts: seq<Trade>, d: Distribution) {
    && d.timestamps == Stamps(ts)
    && (ts != [] ==> d.runSide == ts[|ts| - 1].side && d.runLen > 0)
    && IsTailRun(ts, d.runLen) && IsLongestRun(ts, d.maxRun)
  }

  ghost predicate MicrostructureOk(ts: seq<Trade>, m: Microstructure) {
    && m.sumSigns == SumSigns(Signs(ts)) && m.sumSignPairs == SumPairs(Signs(ts))
    && (ts != [] ==> m.firstSign == SignOf(ts[0]) && m.lastSign == SignOf(ts[|ts| - 1]))
    && m.priceLevels == Prices(ts)
  }

  ghost predicate SpreadOk(spreads: seq<real>, s: Spread) {
    s.sum == Sum(spreads) && s.count == |spreads| && s.has == (spreads != [])
  }

  ghost predicate VolatilityOk(rs: seq<real>, v: Volatility) {
    AreMoments(rs, v.n, v.mean, v.m2, v.m3)
  }

  // ---- One more trade ----

  function NextOhlcv(o: Ohlcv, t: Trade): Ohlcv {
    var first := o.tradeCount == 0;
    Ohlcv(if first then t.p else o.open,
          if first || t.p > o.high then t.p else o.high,
          if first || t.p < o.low then t.p else o.low,
          t.p, o.volumeSum + t.s, o.quoteVolSum + t.p * t.s, o.tradeCount + 1)
  }

  lemma {:induction false} OhlcvStep(ts: seq<Trade>, t: Trade, o: Ohlcv)
    requires OhlcvOk(ts, o) && t.s > 0.0
    ensures OhlcvOk(ts + [t], NextOhlcv(o, t))
  {
    RangeExtends(ts, t, o.low, o.high);
    TotalSnoc(ts, t, Size);
    TotalSnoc(ts, t, Notional);
  }

  /** The previous price is credited with the time it was held. */
  function NextTwap(w: TwapState, close: real, first: bool, t: Trade): TwapState {
    if !first && t.ts > w.lastTradeTsMs then
      TwapState(w.numer + close * (t.ts - w.lastTradeTsMs) as real, w.denom + (t.ts - w.lastTradeTsMs) as real, t.ts)
    else w.(lastTradeTsMs := t.ts)
  }

  lemma {:induction false} TwapStep(ts: seq<Trade>, t: Trade, w: TwapState, close: real)
    requires TwapOk(ts, w) && (ts != [] ==> close == ts[|ts| - 1].p)
    ensures TwapOk(ts + [t], NextTwap(w, close, ts == [], t))
  {
    assert (ts + [t])[..|ts|] == ts;
  }

  function NextFlow(f: Flow, t: Trade): Flow {
    var cells := f.footprintMap[t.price := CellAfter(f.footprintMap, t)];
    if t.side == "buy" then
      Flow(f.buyVolume + t.s, cells, f.buyVwapNumer + t.p * t.s, f.buyVwapDenom + t.s, f.sellVwapNumer, f.sellVwapDenom)
    else
      Flow(f.buyVolume, cells, f.buyVwapNumer, f.buyVwapDenom, f.sellVwapNumer + t.p * t.s, f.sellVwapDenom + t.s)
  }

  lemma {:induction false} FlowStep(ts: seq<Trade>, t: Trade, f: Flow)
    requires FlowOk(ts, f)
    ensures FlowOk(ts + [t], NextFlow(f, t))
  {
    hide Total, IsFootprint, CellAfter;
    FootprintExtends(ts, t, f.footprintMap);
    TotalSnoc(ts, t, BuySize);
    TotalSnoc(ts, t, BuyNotional);
    TotalSnoc(ts, t, SellSize);
    TotalSnoc(ts, t, SellNotional);
  }

  function NextDistribution(d: Distribution, first: bool, t: Trade): Distribution {
    var len := if !first && t.side == d.runSide then d.runLen + 1 else 1;
    Distribution(d.timestamps + [t.ts], len, t.side, if len > d.maxRun then len else d.maxRun)
  }

  lemma {:induction false} DistributionStep(ts: seq<Trade>, t: Trade, d: Distribution)
    requires DistributionOk(ts, d)
    ensures DistributionOk(ts + [t], NextDistribution(d, ts == [], t))
  {
    TailRunExtends(ts, t, d.runLen);
    LongestRunExtends(ts, t, NextDistribution(d, ts == [], t).runLen, d.maxRun);
    assert d.timestamps + [t.ts] == Stamps(ts + [t]);
  }

  function NextMicrostructure(m: Microstructure, first: bool, t: Trade): Microstructure {
    var sign := SignOf(t);
    Microstructure(m.sumSigns + sign, if first then m.sumSignPairs else m.sumSignPairs + m.lastSign * sign,
                   if first then sign else m.firstSign, sign, m.priceLevels + {t.price})
  }

  lemma {:induction false} MicrostructureStep(ts: seq<Trade>, t: Trade, m: Microstructure)
    requires MicrostructureOk(ts, m)
    ensures MicrostructureOk(ts + [t], NextMicrostructure(m, ts == [], t))
  {
    SignsSnoc(ts, t);
    PricesSnoc(ts, t);
  }

  function NextVolatility(v: Volatility, r: real): Volatility {
    var delta := r - v.mean;
    var deltaN := delta / (v.n + 1) as real;
    var term1 := Term(delta, deltaN, v.n as real);
    Volatility(v.n + 1, v.mean + deltaN, v.m2 + term1, Third(v.m3, term1, deltaN, (v.n + 1) as real, v.m2))
  }

  lemma {:induction false} VolatilityStep(rs: seq<real>, r: real, v: Volatility)
    requires VolatilityOk(rs, v)
    ensures VolatilityOk(rs + [r], NextVolatility(v, r))
  {
    hide MomentAbout, Term, Third;
    WelfordStep(rs, r, v.n, v.mean, v.m2, v.m3);
  }

  ghost predicate TradesOk(ts: seq<Trade>, o: Ohlcv, w: TwapState, f: Flow, d: Distribution, m: Microstructure) {
    OhlcvOk(ts, o) && TwapOk(ts, w) && FlowOk(ts, f) && DistributionOk(ts, d) && MicrostructureOk(ts, m)
  }

  lemma {:induction false} TradesStep(ts: seq<Trade>, t: Trade, o: Ohlcv, w: TwapState, f: Flow, d: Distribution, m: Microstructure)
    requires TradesOk(ts, o, w, f, d, m) && t.s > 0.0
    ensures var first := o.tradeCount == 0;
            TradesOk(ts + [t], NextOhlcv(o, t), NextTwap(w, o.close, first, t), NextFlow(f, t),
                     NextDistribution(d, first, t), NextMicrostructure(m, first, t))
  {
    assert (o.tradeCount == 0) == (ts == []) && (ts != [] ==> o.close == ts[|ts| - 1].p);
    hide OhlcvOk, TwapOk, FlowOk, DistributionOk, MicrostructureOk,
      NextOhlcv, NextTwap, NextFlow, NextDistribution, NextMicrostructure;
    OhlcvStep(ts, t, o);
    TwapStep(ts, t, w, o.close);
    FlowStep(ts, t, f);
    DistributionStep(ts, t, d);
    MicrostructureStep(ts, t, m);
  }

  lemma {:induction false} SpreadStep(spreads: seq<real>, x: real, s: Spread)
    requires SpreadOk(spreads, s)
    ensures SpreadOk(spreads + [x], Spread(s.sum + x, s.count + 1, true))
  {
    SumSnoc(spreads, x);
  }

  // an empty bar
  const NO_OHLCV := Ohlcv(0.0, 0.0, 0.0, 0.0, 0.0, 0.0, 0)
  const NO_TWAP := TwapState(0.0, 0.0, 0)
  const NO_FLOW := Flow(0.0, map[], 0.0, 0.0, 0.0, 0.0)
  const NO_DISTRIBUTION := Distribution([], 0, "", 0)
  const NO_SIGNS := Microstructure(0, 0, 0, 0, {})
  const NO_SPREAD := Spread(0.0, 0, false)
  const NO_RETURNS := Volatility(0, 0.0, 0.0, 0.0)

  lemma {:induction false} NoFlowYet(ts: seq<Trade>)
    requires |ts| == 0
    ensures FlowOk(ts, NO_FLOW) && OhlcvOk(ts, NO_OHLCV)
  {
    forall m ensures Total(ts, m) == 0.0 {
      TotalOfEmpty(ts, m);
    }
    hide Total, Sum;
  }

  lemma {:induction false} NoDistributionYet(ts: seq<Trade>)
    requires |ts| == 0
    ensures DistributionOk(ts, NO_DISTRIBUTION) && MicrostructureOk(ts, NO_SIGNS) && TwapOk(ts, NO_TWAP)
  {
    assert SameSide(ts, 0, 0);
  }

  lemma {:induction false} NoTradesYet(ts: seq<Trade>)
    requires |ts| == 0
    ensures TradesOk(ts, NO_OHLCV, NO_TWAP, NO_FLOW, NO_DISTRIBUTION, NO_SIGNS)
  {
    hide OhlcvOk, TwapOk, FlowOk, DistributionOk, MicrostructureOk;
    NoFlowYet(ts);
    NoDistributionYet(ts);
  }

  lemma {:induction false} NoQuotesYet(rs: seq<real>)
    requires |rs| == 0
    ensures VolatilityOk(rs, NO_RETURNS) && SpreadOk(rs, NO_SPREAD)
  {}

  /** The time-weighted mean price of a bar that ends at `endMs`, as the source finalises it. */
  function Twap(numer: real, denom: real, close: real, lastTs: int, endMs: int): real
    requires endMs > lastTs ==> denom + (endMs - lastTs) as real > 0.0
    requires denom >= 0.0
  {
    if endMs > lastTs then (numer + close * (endMs - lastTs) as real) / (denom + (endMs - lastTs) as real)
    else if denom > 0.0 then numer / denom
    else close
  }

  lemma {:induction false} TwapOfWeighed(low: real, numer: real, denom: real, close: real, lastTs: int, endMs: int, high: real)
    requires Weighs(low, denom, numer, high) && low <= close <= high
    ensures low <= Twap(numer, denom, close, lastTs, endMs) <= high
  {
    var dt := (endMs - lastTs) as real;
    assert denom >= 0.0;
    if endMs > lastTs {
      var held := close * dt;
      assert Priced(held, close, dt);
      hide Weighs, Priced;
      WeighsAdds(low, denom, numer, high, dt, held, close);
      MeanWithin(low, denom + dt, numer + held, high);
    } else if denom > 0.0 {
      hide Weighs;
      MeanWithin(low, denom, numer, high);
    }
  }

  /** Volume-weighted mean prices, overall and per side, lie in the bar's range. */
  lemma {:induction false} VwapsWithin(ts: seq<Trade>, low: real, high: real)
    requires ts != [] && PositiveSizes(ts) && Bounds(ts, low, high)
    ensures Total(ts, Size) > 0.0 && low <= Total(ts, Notional) / Total(ts, Size) <= high
    ensures Total(ts, BuySize) > 0.0 ==> low <= Total(ts, BuyNotional) / Total(ts, BuySize) <= high
    ensures Total(ts, SellSize) > 0.0 ==> low <= Total(ts, SellNotional) / Total(ts, SellSize) <= high
  {
    SidesMakeUpTotal(ts);
    TotalsWeigh(ts, low, high, Size, Notional);
    TotalsWeigh(ts, low, high, BuySize, BuyNotional);
    TotalsWeigh(ts, low, high, SellSize, SellNotional);
    MeanWithin(low, Total(ts, Size), Total(ts, Notional), high);
    if Total(ts, BuySize) > 0.0 {
      MeanWithin(low, Total(ts, BuySize), Total(ts, BuyNotional), high);
    }
    if Total(ts, SellSize) > 0.0 {
      MeanWithin(low, Total(ts, SellSize), Total(ts, SellNotional), high);
    }
  }

  // ---- What a bar says about its trades ----

  /** The fields the cascade folds, in terms of the trades themselves. */
  ghost predicate Summarises(bar: Bar, ts: seq<Trade>, gaps: nat) {
    && bar.tradeCount == |ts| && bar.gapCount == gaps
    && (ts == [] ==>
      && bar.open == bar.high == bar.low == bar.close == None
      && bar.volume == bar.quoteVolume == bar.buyVolume == bar.sellVolume == None)
    && (ts != [] ==>
      && bar.open == Some(ts[0].p) && bar.close == Some(ts[|ts| - 1].p)
      && bar.high.Some? && bar.low.Some? && IsRange(ts, bar.low.value, bar.high.value)
      && bar.volume == Some(Total(ts, Size)) && bar.quoteVolume == Some(Total(ts, Notional))
      && bar.buyVolume == Some(Total(ts, BuySize)) && bar.sellVolume == Some(Total(ts, SellSize)))
  }

  /** In range and consistent: what holds of every bar of every reachable accumulator. */
  ghost predicate WithinRange(bar: Bar, ts: seq<Trade>)
    requires ts != [] && Summarises(bar, ts, bar.gapCount)
  {
    && bar.twap.Some? && bar.low.value <= bar.twap.value <= bar.high.value
    && bar.volume.value > 0.0
    && bar.low.value <= bar.quoteVolume.value / bar.volume.value <= bar.high.value
  }

  /** The distribution fields: longest run, clustering, price levels, value area. */
  ghost predicate DescribesTrades(bar: Bar, ts: seq<Trade>) {
    && bar.maxConsecutiveRun.Some? && IsLongestRun(ts, bar.maxConsecutiveRun.value)
    && bar.numTradePriceLevels == Some(|Prices(ts)|)
    && IsClustering(bar.tradeClustering, ts)
  }

  /** The time-weighted mean: each price weighted with how long it was the last one, up to the bar's end. */
  ghost predicate IsTwap(v: real, ts: seq<Trade>, endMs: int)
    requires ts != []
  {
    var last := ts[|ts| - 1];
    var held := if endMs > last.ts then (endMs - last.ts) as real else 0.0;
    IsMean(v, HeldValue(ts) + last.p * held, HeldTime(ts) + held, last.p)
  }

  /** The quotient where there is weight, and `otherwise` where there is none. */
  ghost predicate IsMean(v: real, total: real, weight: real, otherwise: real) {
    if weight > 0.0 then v == total / weight else v == otherwise
  }

  function Bps(v: real, mid: real): real
    requires mid > 0.0
  {
    (v - mid) / mid * 10000.0
  }

  /** A side's VWAP against the mid: missing exactly when there is no quote, no positive mid or no trade on the side. */
  ghost predicate IsDeviation(d: Option<real>, hasClose: bool, mid: real, notional: real, size: real) {
    && (d.Some? <==> hasClose && mid > 0.0 && size > 0.0)
    && (d.Some? ==> mid > 0.0 && size > 0.0 && d.value == (notional / size - mid) / mid * 10000.0)
  }

  /** The footprint's value area; it covers at least 70% of the volume. */
  ghost predicate IsProfile(v: Option<ValueArea>, fp: map<string, Cell>, parse: string -> Option<real>) {
    IsValueAreaOf(fp, parse, v) && (v.Some? ==> CoversMostOf(fp, parse, v.value))
  }

  lemma {:induction false} CellsNonNegative(ts: seq<Trade>, fp: map<string, Cell>)
    requires PositiveSizes(ts) && IsFootprint(ts, fp)
    ensures forall k :: k in fp ==> fp[k].buyVol >= 0.0 && fp[k].sellVol >= 0.0
  {
    forall k | k in fp ensures fp[k].buyVol >= 0.0 && fp[k].sellVol >= 0.0 {
      AtNonNegative(ts, k, BuySize);
      AtNonNegative(ts, k, SellSize);
    }
  }

  /** Missing exactly when there are too few trades or they all came at once. */
  ghost predicate IsClustering(g: Option<real>, ts: seq<Trade>) {
    && (g.Some? <==> |ts| >= 2 && Sum(Gini.Intervals(Stamps(ts))) != 0.0)
    && (g.Some? ==> Gini.IsGini(Gini.Intervals(Stamps(ts)), g.value))
  }

  /** Missing only when there are too few returns or they do not vary. */
  ghost predicate IsRealizedVol(v: Option<real>, rs: seq<real>) {
    && (v.Some? ==> |rs| >= 2 && IsSampleDeviation(v.value, rs))
    && (v.None? ==> |rs| < 2 || exists mean: real :: mean * |rs| as real == Sum(rs) && MomentAbout(rs, mean, 2) == 0.0)
  }

  /** Missing only when there are too few trades or one of the two overlapping halves is all one side. */
  ghost predicate IsSignAutocorr(v: Option<real>, s: seq<int>) {
    && (v.Some? ==> IsAutocorrelation(v.value, s))
    && (v.None? ==> |s| < 2 || var x, y := Reals(s[..|s| - 1]), Reals(s[1..]); Cov(x, x) <= 0.0 || Cov(y, y) <= 0.0)
  }

  lemma {:induction false} FinishedTwap(ts: seq<Trade>, w: TwapState, endMs: int)
    requires ts != [] && TwapOk(ts, w) && w.denom >= 0.0
    ensures IsTwap(Twap(w.numer, w.denom, ts[|ts| - 1].p, w.lastTradeTsMs, endMs), ts, endMs)
  {
    hide HeldValue, HeldTime;
    if endMs <= w.lastTradeTsMs {
      assert ts[|ts| - 1].p * 0.0 == 0.0;
    }
  }

  lemma {:induction false} TwapOfBar(ts: seq<Trade>, w: TwapState, low: real, close: real, high: real, endMs: int)
    requires ts != [] && TwapOk(ts, w) && Bounds(ts, low, high) && close == ts[|ts| - 1].p
    ensures w.denom >= 0.0
    ensures low <= Twap(w.numer, w.denom, close, w.lastTradeTsMs, endMs) <= high
    ensures IsTwap(Twap(w.numer, w.denom, close, w.lastTradeTsMs, endMs), ts, endMs)
  {
    HeldWeighs(ts, low, high);
    hide HeldValue, HeldTime, Twap, IsTwap;
    FinishedTwap(ts, w, endMs);
    TwapOfWeighed(low, w.numer, w.denom, close, w.lastTradeTsMs, endMs, high);
  }

  /** A side's deviation in basis points of the mid, between those of the bar's low and high. */
  ghost predicate DeviationWithin(d: Option<real>, low: real, high: real, mid: real) {
    d.Some? ==> mid > 0.0 && Bps(low, mid) <= d.value <= Bps(high, mid)
  }

  lemma {:induction false} DeviationMonotone(low: real, v: real, high: real, mid: real)
    requires low <= v <= high && mid > 0.0
    ensures Bps(low, mid) <= Bps(v, mid) <= Bps(high, mid)
  {
    var a, b, c := (low - mid) / mid, (v - mid) / mid, (high - mid) / mid;
    assert a * mid == low - mid && b * mid == v - mid && c * mid == high - mid;
    CancelFactor(mid, a, b);
    CancelFactor(mid, b, c);
  }

  lemma {:induction false} PositiveQuotient(a: real, b: real)
    requires a > 0.0 && b > 0.0
    ensures a / b > 0.0
  {}

  lemma {:induction false} PositiveProduct(a: real, b: real)
    requires a > 0.0 && b > 0.0
    ensures a * b > 0.0
  {}

  /** Realised volatility: the square root of the sample variance of the bar's returns. */
  ghost predicate IsSampleDeviation(v: real, rs: seq<real>)
    requires |rs| >= 2
  {
    exists mean: real :: mean * |rs| as real == Sum(rs) && v > 0.0 && IsRootOf(v, MomentAbout(rs, mean, 2), (|rs| - 1) as real)
  }

  ghost predicate IsRootOf(v: real, m2: real, n: real)
    requires n != 0.0
  {
    v * v == m2 / n
  }

  ghost predicate IsSqrt(sqrt: real -> real) {
    forall x: real :: x > 0.0 ==> sqrt(x) > 0.0 && sqrt(x) * sqrt(x) == x
  }

  /** The running sign sums, divided by the root of the variances: defined and in [-1, 1]. */
  ghost predicate IsAutocorrelation(v: real, s: seq<int>) {
    && |s| >= 2 && -1.0 <= v <= 1.0
    && var x, y := Reals(s[..|s| - 1]), Reals(s[1..]);
       exists root: real :: IsRoot(root, Cov(x, x), Cov(y, y)) && v == Cov(x, y) / root
  }

  lemma {:induction false} NoAutocorrelation(s: seq<int>)
    requires AreSigns(s)
    requires |s| < 2 || OnlineVar(SumSigns(s), s[|s| - 1], |s| - 1) <= 0.0 || OnlineVar(SumSigns(s), s[0], |s| - 1) <= 0.0
    ensures IsSignAutocorr(None, s)
  {
    hide OnlineVar, OnlineCov, SumPairs, SumSigns, Cov;
    if |s| >= 2 {
      OnlineIsBatch(s);
    }
  }

  lemma {:induction false} AutocorrelationFromSums(s: seq<int>, root: real)
    requires |s| >= 2 && AreSigns(s)
    requires IsRoot(root, OnlineVar(SumSigns(s), s[|s| - 1], |s| - 1), OnlineVar(SumSigns(s), s[0], |s| - 1))
    ensures IsSignAutocorr(Some(OnlineCov(SumPairs(s), SumSigns(s), s[0], s[|s| - 1], |s| - 1) / root), s)
  {
    hide OnlineVar, OnlineCov, SumPairs, SumSigns, Cov;
    OnlineIsBatch(s);
    AutocorrelationInUnitInterval(s, root);
  }

  class Accumulator {
    // library functions: string to number, natural logarithm, square root
    const parse: string -> Option<real>
    const ln: real -> real
    const sqrt: real -> real

    var ohlcv: Ohlcv
    var twap: TwapState
    var quote: Quote
    var flow: Flow
    var distribution: Distribution
    var spread: Spread
    var volatility: Volatility
    var micro: Microstructure
    var lastMidPrice: real
    var hasLastMid: bool
    var gapCount: nat
    var barCount: nat

    ghost var trades: seq<Trade>
    ghost var rets: seq<real>
    ghost var spreads: seq<real>

    ghost predicate Valid()
      reads this
    {
      && TradesOk(trades, ohlcv, twap, flow, distribution, micro)
      && VolatilityOk(rets, volatility) && SpreadOk(spreads, spread)
    }

    constructor (parse: string -> Option<real>, ln: real -> real, sqrt: real -> real)
      ensures Valid() && trades == [] && rets == [] && spreads == [] && gapCount == 0 && barCount == 0
      ensures this.parse == parse && this.ln == ln && this.sqrt == sqrt && !hasLastMid
    {
      hide TradesOk, VolatilityOk, SpreadOk;
      this.parse, this.ln, this.sqrt := parse, ln, sqrt;
      ohlcv, twap, quote, flow := NO_OHLCV, NO_TWAP, Quote(0.0, 0.0, false), NO_FLOW;
      distribution, micro, spread, volatility := NO_DISTRIBUTION, NO_SIGNS, NO_SPREAD, NO_RETURNS;
      lastMidPrice, hasLastMid := 0.0, false;
      gapCount, barCount := 0, 0;
      trades, rets, spreads := [], [], [];
      new;
      NoTradesYet(trades);
      NoQuotesYet(rets);
      NoQuotesYet(spreads);
    }

    /** What a tick adds to the history: a trade if it is one, parses, and has positive size. */
    ghost function Accepted(price: string, size: string, isTrade: bool, side: string, tsMs: int): seq<Trade> {
      if isTrade && parse(price).Some? && parse(size).Some? && parse(size).value > 0.0
      then [Trade(price, parse(price).value, parse(size).value, side, tsMs)]
      else []
    }

    ghost function Quotes(): QuoteState
      reads this
    {
      QuoteState(quote, if hasLastMid then Some(lastMidPrice) else None, spreads, rets)
    }

    /** One quote: its spread, and a log return where the last two mid-prices are positive. */
    ghost function AfterQuote(q: QuoteState, bid: real, ask: real): QuoteState {
      var mid := (bid + ask) / 2.0;
      QuoteState(Quote(bid, ask, true), Some(mid), q.spreads + [ask - bid],
                 q.rets + if q.lastMid.Some? && q.lastMid.value > 0.0 && mid > 0.0 then [ln(mid / q.lastMid.value)] else [])
    }

    ghost function AfterQuotes(qs: seq<(real, real)>): QuoteState {
      if |qs| == 0 then QuoteState(Quote(0.0, 0.0, false), None, [], [])
      else AfterQuote(AfterQuotes(qs[..|qs| - 1]), qs[|qs| - 1].0, qs[|qs| - 1].1)
    }

    /** A run of quotes with positive mid-prices: every spread, and the log return of every two consecutive mid-prices. */
    lemma {:induction false} QuotesGiveReturns(qs: seq<(real, real)>)
      requires |qs| > 0 && forall i :: 0 <= i < |qs| ==> qs[i].0 + qs[i].1 > 0.0
      ensures var q := AfterQuotes(qs);
              && q.lastMid == Some((qs[|qs| - 1].0 + qs[|qs| - 1].1) / 2.0)
              && |q.spreads| == |qs| && (forall i :: 0 <= i < |qs| ==> q.spreads[i] == qs[i].1 - qs[i].0)
              && |q.rets| == |qs| - 1
              && forall i :: 0 <= i < |qs| - 1 ==> q.rets[i] == ln((qs[i + 1].0 + qs[i + 1].1) / 2.0 / ((qs[i].0 + qs[i].1) / 2.0))
    {
      var n := |qs| - 1;
      assert n > 0 ==> qs[..n][n - 1] == qs[n - 1];
      if n > 0 {
        QuotesGiveReturns(qs[..n]);
      } else {
        assert AfterQuotes(qs[..n]) == QuoteState(Quote(0.0, 0.0, false), None, [], []);
      }
    }

    /** A tick without two numeric quotes leaves them as they are. */
    ghost function AfterTick(q: QuoteState, bid: string, ask: string): QuoteState {
      if bid != "" && ask != "" && parse(bid).Some? && parse(ask).Some?
      then AfterQuote(q, parse(bid).value, parse(ask).value)
      else q
    }

    method Apply(price: string, size: string, isTrade: bool, side: string, tsMs: int, bid: string, ask: string)
      requires Valid()
      modifies this
      ensures Valid()
      ensures trades == old(trades) + Accepted(price, size, isTrade, side, tsMs)
      // a numeric trade of positive size is taken as it is, anything else is no trade
      ensures if isTrade && parse(price).Some? && parse(size).Some? && parse(size).value > 0.0
              then trades == old(trades) + [Trade(price, parse(price).value, parse(size).value, side, tsMs)]
              else trades == old(trades)
      ensures Quotes() == AfterTick(old(Quotes()), bid, ask)
      ensures gapCount == old(gapCount) && barCount == old(barCount)
    {
      hide TradesOk, VolatilityOk, SpreadOk, Accumulator.AfterQuote;
      if bid != "" && ask != "" {
        var b, a := parse(bid), parse(ask);
        if b.Some? && a.Some? {
          ApplyQuote(b.value, a.value);
        }
      }
      if !isTrade {
        return;
      }
      var p, s := parse(price), parse(size);
      if p.None? || s.None? || s.value <= 0.0 {
        return;
      }
      ApplyTrade(Trade(price, p.value, s.value, side, tsMs));
    }

    method ApplyQuote(bid: real, ask: real)
      requires Valid()
      modifies `quote, `spread, `spreads, `volatility, `lastMidPrice, `hasLastMid, `rets
      ensures Valid() && Quotes() == AfterQuote(old(Quotes()), bid, ask)
    {
      hide TradesOk, VolatilityOk, SpreadOk;
      quote := Quote(bid, ask, true);
      var mid := (bid + ask) / 2.0;
      SpreadStep(spreads, ask - bid, spread);
      spread := Spread(spread.sum + (ask - bid), spread.count + 1, true);
      spreads := spreads + [ask - bid];
      if hasLastMid && lastMidPrice > 0.0 && mid > 0.0 {
        AddReturn(ln(mid / lastMidPrice));
      }
      lastMidPrice, hasLastMid := mid, true;
    }

    /** The online update of the moments, third before second. */
    method AddReturn(r: real)
      requires VolatilityOk(rets, volatility)
      modifies `volatility, `rets
      ensures rets == old(rets) + [r] && VolatilityOk(rets, volatility)
    {
      hide VolatilityOk, Term, Third;
      VolatilityStep(rets, r, volatility);
      var v := volatility;
      var n1 := v.n as real;
      var n := (v.n + 1) as real;
      var delta := r - v.mean;
      var deltaN := delta / n;
      var term1 := Term(delta, deltaN, n1);
      var m3 := Third(v.m3, term1, deltaN, n, v.m2);
      volatility := Volatility(v.n + 1, v.mean + deltaN, v.m2 + term1, m3);
      rets := rets + [r];
    }

    /** The trade half of a tick. */
    method ApplyTrade(t: Trade)
      requires Valid() && t.s > 0.0
      modifies `ohlcv, `twap, `flow, `distribution, `micro, `trades
      ensures Valid() && trades == old(trades) + [t]
    {
      hide TradesOk, VolatilityOk, SpreadOk, NextOhlcv, NextTwap, NextFlow, NextDistribution, NextMicrostructure;
      TradesStep(trades, t, ohlcv, twap, flow, distribution, micro);
      HoldPrice(t);
      ExtendRun(t);
      ExtendSigns(t);
      AddSide(t);
      TakePrice(t);
      trades := trades + [t];
    }

    method HoldPrice(t: Trade)
      modifies `twap
      ensures twap == NextTwap(old(twap), ohlcv.close, ohlcv.tradeCount == 0, t)
    {
      var w := twap;
      if ohlcv.tradeCount > 0 {
        var dt := t.ts - w.lastTradeTsMs;
        if dt > 0 {
          w := TwapState(w.numer + ohlcv.close * dt as real, w.denom + dt as real, w.lastTradeTsMs);
        }
      }
      twap := w.(lastTradeTsMs := t.ts);
    }

    method ExtendRun(t: Trade)
      modifies `distribution
      ensures distribution == NextDistribution(old(distribution), ohlcv.tradeCount == 0, t)
    {
      var len := distribution.runLen;
      if ohlcv.tradeCount == 0 {
        len := 1;
      } else if t.side == distribution.runSide {
        len := len + 1;
      } else {
        len := 1;
      }
      var longest := distribution.maxRun;
      if len > longest {
        longest := len;
      }
      distribution := Distribution(distribution.timestamps + [t.ts], len, t.side, longest);
    }

    method ExtendSigns(t: Trade)
      modifies `micro
      ensures micro == NextMicrostructure(old(micro), ohlcv.tradeCount == 0, t)
    {
      var currSign := 1;
      if t.side != "buy" {
        currSign := -1;
      }
      var pairs, first := micro.sumSignPairs, micro.firstSign;
      if ohlcv.tradeCount == 0 {
        first := currSign;
      } else {
        pairs := pairs + micro.lastSign * currSign;
      }
      micro := Microstructure(micro.sumSigns + currSign, pairs, first, currSign, micro.priceLevels + {t.price});
    }

    method AddSide(t: Trade)
      modifies `flow
      ensures flow == NextFlow(old(flow), t)
    {
      hide Total, Sum;
      var f := flow;
      var cell := if t.price in f.footprintMap then f.footprintMap[t.price] else Cell(0.0, 0.0);
      if t.side == "buy" {
        f := f.(buyVolume := f.buyVolume + t.s, buyVwapNumer := f.buyVwapNumer + t.p * t.s, buyVwapDenom := f.buyVwapDenom + t.s);
        cell := Cell(cell.buyVol + t.s, cell.sellVol);
      } else {
        f := f.(sellVwapNumer := f.sellVwapNumer + t.p * t.s, sellVwapDenom := f.sellVwapDenom + t.s);
        cell := Cell(cell.buyVol, cell.sellVol + t.s);
      }
      assert cell == CellAfter(flow.footprintMap, t);
      flow := f.(footprintMap := f.footprintMap[t.price := cell]);
    }

    method TakePrice(t: Trade)
      modifies `ohlcv
      ensures ohlcv == NextOhlcv(old(ohlcv), t)
    {
      var o := ohlcv;
      if o.tradeCount == 0 {
        o := o.(open := t.p, high := t.p, low := t.p);
      } else {
        if t.p > o.high {
          o := o.(high := t.p);
        }
        if t.p < o.low {
          o := o.(low := t.p);
        }
      }
      ohlcv := o.(close := t.p, volumeSum := o.volumeSum + t.s, quoteVolSum := o.quoteVolSum + t.p * t.s,
                  tradeCount := o.tradeCount + 1);
    }

    method IncrementGap()
      requires Valid()
      modifies `gapCount
      ensures Valid() && gapCount == old(gapCount) + 1
    {
      gapCount := gapCount + 1;
    }

    /** Clears the bar; the last mid-price survives, so the first return of the next bar spans the boundary. */
    method BarReset()
      requires Valid()
      modifies this
      ensures Valid() && trades == [] && rets == [] && spreads == [] && gapCount == 0
      ensures barCount == old(barCount) + 1 && !quote.hasClose
      ensures lastMidPrice == old(lastMidPrice) && hasLastMid == old(hasLastMid)
    {
      hide TradesOk, VolatilityOk, SpreadOk;
      ClearTrades();
      ClearQuotes();
      gapCount := 0;
      barCount := barCount + 1;
    }

    method ClearTrades()
      modifies `ohlcv, `twap, `flow, `distribution, `micro, `trades
      ensures trades == [] && TradesOk(trades, ohlcv, twap, flow, distribution, micro)
    {
      hide TradesOk;
      ohlcv, twap, flow, distribution, micro := NO_OHLCV, NO_TWAP, NO_FLOW, NO_DISTRIBUTION, NO_SIGNS;
      trades := [];
      NoTradesYet(trades);
    }

    method ClearQuotes()
      modifies `quote, `spread, `volatility, `rets, `spreads
      ensures rets == [] && spreads == [] && VolatilityOk(rets, volatility) && SpreadOk(spreads, spread) && !quote.hasClose
    {
      hide VolatilityOk, SpreadOk;
      quote, spread, volatility := Quote(0.0, 0.0, false), NO_SPREAD, NO_RETURNS;
      rets, spreads := [], [];
      NoQuotesYet(rets);
      NoQuotesYet(spreads);
    }

    method Reset()
      requires Valid()
      modifies this
      ensures Valid() && trades == [] && rets == [] && spreads == [] && gapCount == 0
      ensures barCount == 0 && !hasLastMid && !quote.hasClose
    {
      hide TradesOk, VolatilityOk, SpreadOk;
      BarReset();
      barCount := 0;
      lastMidPrice, hasLastMid := 0.0, false;
    }

    // ---- The parts of a finished bar ----

    method FinalTwap(barEndMs: int) returns (v: real)
      requires TradesOk(trades, ohlcv, twap, flow, distribution, micro) && trades != []
      ensures ohlcv.low <= v <= ohlcv.high && IsTwap(v, trades, barEndMs)
    {
      TwapOfBar(trades, twap, ohlcv.low, ohlcv.close, ohlcv.high, barEndMs);
      hide TradesOk, IsTwap, Twap;
      v := FinishTwap(twap, ohlcv.close, barEndMs);
    }

    /** Adds the last price's hold time to the bar end. */
    static method FinishTwap(w: TwapState, close: real, barEndMs: int) returns (v: real)
      requires w.denom >= 0.0
      ensures v == Twap(w.numer, w.denom, close, w.lastTradeTsMs, barEndMs)
    {
      var dt := barEndMs - w.lastTradeTsMs;
      if dt > 0 {
        v := (w.numer + close * dt as real) / (w.denom + dt as real);
      } else if w.denom > 0.0 {
        v := w.numer / w.denom;
      } else {
        v := close;
      }
    }

    /** A side's VWAP against the mid, in basis points. */
    method Deviation(numer: real, denom: real) returns (d: Option<real>)
      requires denom > 0.0 ==> ohlcv.low <= numer / denom <= ohlcv.high
      ensures DeviationWithin(d, ohlcv.low, ohlcv.high, Mid())
      ensures IsDeviation(d, quote.hasClose, Mid(), numer, denom)
    {
      d := None;
      if quote.hasClose {
        var mid := (quote.bestBid + quote.bestAsk) / 2.0;
        if mid > 0.0 && denom > 0.0 {
          var vwap := numer / denom;
          DeviationMonotone(ohlcv.low, vwap, ohlcv.high, mid);
          d := Some((vwap - mid) / mid * 10000.0);
        }
      }
    }

    function Mid(): real
      reads this
    {
      (quote.bestBid + quote.bestAsk) / 2.0
    }

    method ProfileOf() returns (v: Option<ValueArea>)
      requires TradesOk(trades, ohlcv, twap, flow, distribution, micro)
      ensures IsProfile(v, flow.footprintMap, parse)
    {
      v := ComputeValueArea(flow.footprintMap, parse);
      if v.Some? {
        CellsNonNegative(trades, flow.footprintMap);
        ValueAreaCovers(flow.footprintMap, parse, v.value);
      }
    }

    method Clustering() returns (g: Option<real>)
      requires TradesOk(trades, ohlcv, twap, flow, distribution, micro)
      ensures IsClustering(g, trades)
    {
      g := None;
      if ohlcv.tradeCount >= 2 {
        g := Gini.ComputeGini(distribution.timestamps);
      }
    }

    method RealizedVol() returns (v: Option<real>)
      requires VolatilityOk(rets, volatility) && IsSqrt(sqrt)
      ensures IsRealizedVol(v, rets)
    {
      v := None;
      MomentsReadBack(rets, volatility.n, volatility.mean, volatility.m2, volatility.m3);
      if volatility.n >= 2 && volatility.m2 > 0.0 {
        var variance := volatility.m2 / (volatility.n - 1) as real;
        PositiveQuotient(volatility.m2, (volatility.n - 1) as real);
        var dev := sqrt(variance);
        assert IsRootOf(dev, volatility.m2, (volatility.n - 1) as real);
        v := Some(dev);
      }
    }

    lemma {:induction false} SignFacts()
      requires TradesOk(trades, ohlcv, twap, flow, distribution, micro)
      ensures var s := Signs(trades);
              && |s| == ohlcv.tradeCount && AreSigns(s) && micro.sumSignPairs == SumPairs(s) && micro.sumSigns == SumSigns(s)
              && (|s| > 0 ==> micro.firstSign == s[0] && micro.lastSign == s[|s| - 1])
    {}

    method SignAutocorr() returns (v: Option<real>)
      requires TradesOk(trades, ohlcv, twap, flow, distribution, micro) && IsSqrt(sqrt)
      ensures IsSignAutocorr(v, Signs(trades))
    {
      hide IsSqrt, IsSignAutocorr;
      SignFacts();
      v := FinishAutocorr(micro, ohlcv.tradeCount, sqrt, Signs(trades));
    }

    static method FinishAutocorr(m: Microstructure, count: nat, sqrt: real -> real, ghost s: seq<int>) returns (v: Option<real>)
      requires IsSqrt(sqrt) && AreSigns(s) && |s| == count
      requires m.sumSignPairs == SumPairs(s) && m.sumSigns == SumSigns(s)
      requires |s| > 0 ==> m.firstSign == s[0] && m.lastSign == s[|s| - 1]
      ensures IsSignAutocorr(v, s)
    {
      hide OnlineCov, OnlineVar, IsSignAutocorr, SumPairs, SumSigns, AreSigns, IsSqrt, IsRoot;
      v := None;
      if count >= 2 {
        var pairs := count - 1;
        var cov := OnlineCov(m.sumSignPairs, m.sumSigns, m.firstSign, m.lastSign, pairs);
        var varX := OnlineVar(m.sumSigns, m.lastSign, pairs);
        var varY := OnlineVar(m.sumSigns, m.firstSign, pairs);
        if varX > 0.0 && varY > 0.0 {
          RootOfProduct(sqrt, varX, varY);
          var root := sqrt(varX * varY);
          AutocorrelationFromSums(s, root);
          v := Some(cov / root);
        } else {
          NoAutocorrelation(s);
        }
      } else {
        NoAutocorrelation(s);
      }
    }

    static lemma {:induction false} RootOfProduct(sqrt: real -> real, x: real, y: real)
      requires IsSqrt(sqrt) && x > 0.0 && y > 0.0
      ensures IsRoot(sqrt(x * y), x, y) && sqrt(x * y) > 0.0
    {
      PositiveProduct(x, y);
    }

    /** The fields the cascade folds, and the means. */
    method TradeFields(bar0: Bar, tsSecMs: int) returns (bar: Bar)
      requires TradesOk(trades, ohlcv, twap, flow, distribution, micro) && trades != []
      requires bar0.tradeCount == |trades| && bar0.gapCount == gapCount
      ensures Summarises(bar, trades, gapCount) && WithinRange(bar, trades) && IsTwap(bar.twap.value, trades, tsSecMs + 1000)
      ensures bar.high == Some(ohlcv.high) && bar.low == Some(ohlcv.low)
      ensures bar == bar0.(open := bar.open, high := bar.high, low := bar.low, close := bar.close, volume := bar.volume,
                           quoteVolume := bar.quoteVolume, twap := bar.twap, buyVolume := bar.buyVolume, sellVolume := bar.sellVolume)
    {
      var t := FinalTwap(tsSecMs + 1000);
      SidesMakeUpTotal(trades);
      VwapsWithin(trades, ohlcv.low, ohlcv.high);
      assert OhlcvOk(trades, ohlcv) && FlowOk(trades, flow);
      hide Total, IsRange, IsTwap, IsFootprint, TradesOk;
      bar := bar0.(open := Some(ohlcv.open), high := Some(ohlcv.high), low := Some(ohlcv.low), close := Some(ohlcv.close),
                   volume := Some(ohlcv.volumeSum), quoteVolume := Some(ohlcv.quoteVolSum), twap := Some(t),
                   buyVolume := Some(flow.buyVolume), sellVolume := Some(Max(0.0, ohlcv.volumeSum - flow.buyVolume)));
    }

    /** Nothing of the bar is left. */
    ghost predicate Cleared()
      reads this
    {
      trades == [] && rets == [] && spreads == [] && gapCount == 0 && !quote.hasClose
    }

    /** The part of a finished bar that needs trades: every mean is inside the range. */
    ghost predicate TradesFinished(bar: Bar, tsSecMs: int)
      requires trades != [] && Summarises(bar, trades, gapCount)
      reads this
    {
      && WithinRange(bar, trades) && DescribesTrades(bar, trades)
      && bar.low.Some? && bar.high.Some?
      && DeviationWithin(bar.buyVwapDeviationBps, bar.low.value, bar.high.value, Mid())
      && DeviationWithin(bar.sellVwapDeviationBps, bar.low.value, bar.high.value, Mid())
      && IsProfile(bar.valueArea, flow.footprintMap, parse) && IsFootprint(trades, flow.footprintMap)
      && bar.twap.Some? && IsTwap(bar.twap.value, trades, tsSecMs + 1000)
      && IsDeviation(bar.buyVwapDeviationBps, quote.hasClose, Mid(), Total(trades, BuyNotional), Total(trades, BuySize))
      && IsDeviation(bar.sellVwapDeviationBps, quote.hasClose, Mid(), Total(trades, SellNotional), Total(trades, SellSize))
      && IsSignAutocorr(bar.tradeSignAutocorr, Signs(trades))
    }

    /** What the finished bar is: stamped as asked, a faithful summary of the trades, quotes and returns. */
    ghost predicate Finished(bar: Bar, tsSecMs: int, isPartial: bool)
      reads this
    {
      && bar.tsSecMs == tsSecMs && bar.isPartial == isPartial && bar.barCount == barCount + 1
      && Summarises(bar, trades, gapCount) && (trades != [] ==> TradesFinished(bar, tsSecMs))
      && bar.spreadMean == (if spreads == [] then None else Some(Sum(spreads) / |spreads| as real))
      && IsRealizedVol(bar.realizedVol, rets)
    }

    lemma {:induction false} FinishedSummarises(bar: Bar, tsSecMs: int, isPartial: bool)
      requires Finished(bar, tsSecMs, isPartial)
      ensures bar.tsSecMs == tsSecMs && bar.isPartial == isPartial && Summarises(bar, trades, gapCount)
    {
      hide Summarises, IsRealizedVol, Accumulator.TradesFinished, Sum;
    }

    method CurrentBar(tsSecMs: int, isPartial: bool) returns (bar: Bar)
      requires Valid() && IsSqrt(sqrt)
      ensures Finished(bar, tsSecMs, isPartial)
    {
      hide TradesOk, VolatilityOk, SpreadOk, IsRealizedVol, Sum, Accumulator.TradesFinished;
      CountsTrades();
      bar := QuoteFields(tsSecMs, isPartial);
      if ohlcv.tradeCount > 0 {
        bar := TradedFields(bar, tsSecMs);
      }
    }

    lemma {:induction false} CountsTrades()
      requires TradesOk(trades, ohlcv, twap, flow, distribution, micro)
      ensures ohlcv.tradeCount == |trades|
    {}

    /** The fields that need trades. */
    method TradedFields(bar0: Bar, tsSecMs: int) returns (bar: Bar)
      requires Valid() && IsSqrt(sqrt) && trades != [] && bar0.tradeCount == |trades| && bar0.gapCount == gapCount
      ensures Summarises(bar, trades, gapCount) && TradesFinished(bar, tsSecMs)
      ensures bar.tsSecMs == bar0.tsSecMs && bar.isPartial == bar0.isPartial && bar.barCount == bar0.barCount
      ensures bar.spreadMean == bar0.spreadMean && bar.realizedVol == bar0.realizedVol
    {
      BarFacts();
      hide TradesOk, VolatilityOk, SpreadOk, IsLongestRun, IsRealizedVol, IsSignAutocorr, IsDeviation, IsClustering, IsTwap, IsFootprint,
        DeviationWithin, IsProfile, Total, Sum, IsRange, Prices, Signs, Stamps, Summarises, WithinRange, DescribesTrades,
        Accumulator.TradesFinished;
      var traded := TradeFields(bar0, tsSecMs);
      bar := Describe(traded);
      StillSummarises(traded, bar, trades, gapCount);
      TradesAreFinished(bar, tsSecMs);
    }

    /** The descriptive fields do not touch the others. */
    static lemma {:induction false} StillSummarises(bar0: Bar, bar: Bar, ts: seq<Trade>, gaps: nat)
      requires ts != [] && Summarises(bar0, ts, gaps) && Summarises(bar0, ts, bar0.gapCount) && WithinRange(bar0, ts)
      requires bar == bar0.(valueArea := bar.valueArea, buyVwapDeviationBps := bar.buyVwapDeviationBps,
                            sellVwapDeviationBps := bar.sellVwapDeviationBps, maxConsecutiveRun := bar.maxConsecutiveRun,
                            tradeClustering := bar.tradeClustering, tradeSignAutocorr := bar.tradeSignAutocorr,
                            numTradePriceLevels := bar.numTradePriceLevels)
      ensures Summarises(bar, ts, gaps) && Summarises(bar, ts, bar.gapCount) && WithinRange(bar, ts)
    {
      hide Total, IsRange;
    }

    lemma {:induction false} TradesAreFinished(bar: Bar, tsSecMs: int)
      requires TradesOk(trades, ohlcv, twap, flow, distribution, micro) && trades != []
      requires Summarises(bar, trades, gapCount) && Summarises(bar, trades, bar.gapCount) && WithinRange(bar, trades)
      requires DescribesTrades(bar, trades) && bar.low == Some(ohlcv.low) && bar.high == Some(ohlcv.high)
      requires DeviationWithin(bar.buyVwapDeviationBps, ohlcv.low, ohlcv.high, Mid())
      requires DeviationWithin(bar.sellVwapDeviationBps, ohlcv.low, ohlcv.high, Mid())
      requires IsProfile(bar.valueArea, flow.footprintMap, parse) && IsFootprint(trades, flow.footprintMap)
      requires bar.twap.Some? && IsTwap(bar.twap.value, trades, tsSecMs + 1000)
      requires IsDeviation(bar.buyVwapDeviationBps, quote.hasClose, Mid(), Total(trades, BuyNotional), Total(trades, BuySize))
      requires IsDeviation(bar.sellVwapDeviationBps, quote.hasClose, Mid(), Total(trades, SellNotional), Total(trades, SellSize))
      requires IsSignAutocorr(bar.tradeSignAutocorr, Signs(trades))
      ensures TradesFinished(bar, tsSecMs)
    {
      hide TradesOk, IsLongestRun, IsSignAutocorr, IsDeviation, IsClustering, IsTwap, IsFootprint, DeviationWithin, IsProfile, Total, Sum,
        IsRange, Prices, Signs, Summarises, WithinRange, DescribesTrades;
    }

    /** The fields a bar has even without trades. */
    method QuoteFields(tsSecMs: int, isPartial: bool) returns (bar: Bar)
      requires Valid() && IsSqrt(sqrt)
      ensures bar == Bar(tsSecMs, None, None, None, None, None, None, ohlcv.tradeCount, None, None, None, bar.spreadMean, None, None, None,
                         None, None, bar.realizedVol, None, None, isPartial, gapCount, barCount + 1)
      ensures bar.spreadMean == if spreads == [] then None else Some(Sum(spreads) / |spreads| as real)
      ensures IsRealizedVol(bar.realizedVol, rets)
    {
      assert spread.has == (spreads != []) && spread.count == |spreads| && spread.sum == Sum(spreads);
      hide TradesOk, VolatilityOk, SpreadOk, IsRealizedVol, Sum;
      bar := Bar(tsSecMs, None, None, None, None, None, None, ohlcv.tradeCount, None, None, None, None, None, None, None,
                 None, None, None, None, None, isPartial, gapCount, barCount + 1);
      if spread.has {
        bar := bar.(spreadMean := Some(spread.sum / spread.count as real));
      }
      var vol := RealizedVol();
      bar := bar.(realizedVol := vol);
    }

    method Describe(bar0: Bar) returns (bar: Bar)
      requires TradesOk(trades, ohlcv, twap, flow, distribution, micro) && trades != [] && IsSqrt(sqrt)
      requires IsLongestRun(trades, distribution.maxRun) && |micro.priceLevels| == |Prices(trades)|
      requires flow.buyVwapDenom > 0.0 ==> ohlcv.low <= flow.buyVwapNumer / flow.buyVwapDenom <= ohlcv.high
      requires flow.sellVwapDenom > 0.0 ==> ohlcv.low <= flow.sellVwapNumer / flow.sellVwapDenom <= ohlcv.high
      ensures DescribesTrades(bar, trades)
      ensures DeviationWithin(bar.buyVwapDeviationBps, ohlcv.low, ohlcv.high, Mid())
      ensures DeviationWithin(bar.sellVwapDeviationBps, ohlcv.low, ohlcv.high, Mid())
      ensures IsProfile(bar.valueArea, flow.footprintMap, parse)
      ensures IsDeviation(bar.buyVwapDeviationBps, quote.hasClose, Mid(), flow.buyVwapNumer, flow.buyVwapDenom)
      ensures IsDeviation(bar.sellVwapDeviationBps, quote.hasClose, Mid(), flow.sellVwapNumer, flow.sellVwapDenom)
      ensures IsSignAutocorr(bar.tradeSignAutocorr, Signs(trades))
      ensures bar == bar0.(valueArea := bar.valueArea, buyVwapDeviationBps := bar.buyVwapDeviationBps,
                           sellVwapDeviationBps := bar.sellVwapDeviationBps, maxConsecutiveRun := bar.maxConsecutiveRun,
                           tradeClustering := bar.tradeClustering, tradeSignAutocorr := bar.tradeSignAutocorr,
                           numTradePriceLevels := bar.numTradePriceLevels)
    {
      hide TradesOk, IsLongestRun, IsSignAutocorr, IsDeviation, IsClustering, DeviationWithin, IsProfile;
      var area := ProfileOf();
      var buy := Deviation(flow.buyVwapNumer, flow.buyVwapDenom);
      var sell := Deviation(flow.sellVwapNumer, flow.sellVwapDenom);
      var clustering := Clustering();
      var autocorr := SignAutocorr();
      bar := bar0.(valueArea := area, buyVwapDeviationBps := buy, sellVwapDeviationBps := sell,
                   maxConsecutiveRun := Some(distribution.maxRun), tradeClustering := clustering,
                   tradeSignAutocorr := autocorr, numTradePriceLevels := Some(|micro.priceLevels|));
    }

    lemma {:induction false} TradesArePositive()
      requires Valid()
      ensures PositiveSizes(trades)
    {}

    lemma {:induction false} BarFacts()
      requires Valid()
      ensures ohlcv.tradeCount == |trades|
      ensures |micro.priceLevels| == |Prices(trades)| && IsLongestRun(trades, distribution.maxRun)
      ensures flow.buyVwapNumer == Total(trades, BuyNotional) && flow.buyVwapDenom == Total(trades, BuySize)
      ensures flow.sellVwapNumer == Total(trades, SellNotional) && flow.sellVwapDenom == Total(trades, SellSize)
      ensures IsFootprint(trades, flow.footprintMap)
      ensures trades != [] && flow.buyVwapDenom > 0.0 ==> ohlcv.low <= flow.buyVwapNumer / flow.buyVwapDenom <= ohlcv.high
      ensures trades != [] && flow.sellVwapDenom > 0.0 ==> ohlcv.low <= flow.sellVwapNumer / flow.sellVwapDenom <= ohlcv.high
    {
      if trades != [] {
        SideVwapsWithin();
      }
    }

    lemma {:induction false} SideVwapsWithin()
      requires TradesOk(trades, ohlcv, twap, flow, distribution, micro) && trades != []
      ensures flow.buyVwapDenom > 0.0 ==> ohlcv.low <= flow.buyVwapNumer / flow.buyVwapDenom <= ohlcv.high
      ensures flow.sellVwapDenom > 0.0 ==> ohlcv.low <= flow.sellVwapNumer / flow.sellVwapDenom <= ohlcv.high
    {
      VwapsWithin(trades, ohlcv.low, ohlcv.high);
    }
  }
}
