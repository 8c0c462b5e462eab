/** The cascade's objects (cascade.go): seven accumulators updated in place by every second. */
module CascadeEngine {
  import opened Options
  import opened Calendar
  import opened Accumulators
  import opened Cascade
  import opened CascadeRuns
  import opened HashCodec

  class CascadeAcc {
    var openTs: int
    var open: Option<real>
    var high: Option<real>
    var low: Option<real>
    var closeVal: Option<real>
    var volume: real
    var quoteVol: real
    var tradeCount: int
    var barCount: int
    var gapCount: int
    var buyVolume: real
    var spreadSum: real
    var spreadCount: nat

    ghost function View(): AccState
      reads this
    {
      AccState(openTs, open, high, low, closeVal, volume, quoteVol, tradeCount, barCount, gapCount, buyVolume, spreadSum, spreadCount)
    }

    constructor ()
      ensures View() == Empty(0)
    {
      openTs, open, high, low, closeVal := 0, None, None, None, None;
      volume, quoteVol, tradeCount, barCount, gapCount, buyVolume := 0.0, 0.0, 0, 0, 0, 0.0;
      spreadSum, spreadCount := 0.0, 0;
    }

    method Fold(bar: Bar)
      modifies this
      ensures View() == FoldInto(old(View()), bar)
    {
      FoldPrices(bar);
      FoldSums(bar);
    }

    method FoldPrices(bar: Bar)
      modifies `openTs, `open, `high, `low, `closeVal
      ensures openTs == if old(openTs) == 0 then bar.tsSecMs else old(openTs)
      ensures open == if old(open).None? then bar.open else old(open)
      ensures high == Higher(old(high), bar.high) && low == Lesser(old(low), bar.low)
      ensures closeVal == if bar.close.None? then old(closeVal) else bar.close
    {
      if openTs == 0 {
        openTs := bar.tsSecMs;
      }
      if open.None? && bar.open.Some? {
        open := bar.open;
      }
      if bar.high.Some? {
        if high.None? || bar.high.value > high.value {
          high := bar.high;
        }
      }
      if bar.low.Some? {
        if low.None? || bar.low.value < low.value {
          low := bar.low;
        }
      }
      if bar.close.Some? {
        closeVal := bar.close;
      }
    }

    method FoldSums(bar: Bar)
      modifies `volume, `quoteVol, `tradeCount, `barCount, `gapCount, `buyVolume, `spreadSum, `spreadCount
      ensures volume == old(volume) + OrZero(bar.volume) && quoteVol == old(quoteVol) + OrZero(bar.quoteVolume)
      ensures tradeCount == old(tradeCount) + bar.tradeCount && gapCount == old(gapCount) + bar.gapCount
      ensures barCount == old(barCount) + 1 && buyVolume == old(buyVolume) + OrZero(bar.buyVolume)
      ensures spreadSum == old(spreadSum) + OrZero(bar.spreadMean)
      ensures spreadCount == old(spreadCount) + if bar.spreadMean.Some? then 1 else 0
    {
      if bar.volume.Some? {
        volume := volume + bar.volume.value;
      }
      if bar.quoteVolume.Some? {
        quoteVol := quoteVol + bar.quoteVolume.value;
      }
      tradeCount := tradeCount + bar.tradeCount;
      barCount := barCount + 1;
      gapCount := gapCount + bar.gapCount;
      if bar.buyVolume.Some? {
        buyVolume := buyVolume + bar.buyVolume.value;
      }
      if bar.spreadMean.Some? {
        spreadSum := spreadSum + bar.spreadMean.value;
        spreadCount := spreadCount + 1;
      }
    }

    method SetPrices(a: AccState)
      modifies `openTs, `open, `high, `low, `closeVal
      ensures openTs == a.openTs && open == a.open && high == a.high && low == a.low && closeVal == a.close
    {
      openTs, open, high, low, closeVal := a.openTs, a.open, a.high, a.low, a.close;
    }

    /** Overwrites the whole state, as assigning a struct does. */
    method Set(a: AccState)
      modifies this
      ensures View() == a
    {
      SetPrices(a);
      volume, quoteVol, tradeCount, barCount, gapCount := a.volume, a.quoteVol, a.tradeCount, a.barCount, a.gapCount;
      buyVolume, spreadSum, spreadCount := a.buyVolume, a.spreadSum, a.spreadCount;
    }

    method Reset(openTs: int)
      modifies this
      ensures View() == Empty(openTs)
    {
      Set(Empty(openTs));
    }

    method Save(format: real -> string) returns (fields: map<string, string>)
      ensures fields == ToHash(View(), format)
    {
      fields := map["open_ts" := FormatInt(openTs),
                    "open" := FloatOrEmpty(open, format),
                    "high" := FloatOrEmpty(high, format),
                    "low" := FloatOrEmpty(low, format),
                    "close" := FloatOrEmpty(closeVal, format),
                    "volume" := format(volume),
                    "quote_vol" := format(quoteVol),
                    "trade_count" := FormatInt(tradeCount),
                    "bar_count" := FormatInt(barCount),
                    "gap_count" := FormatInt(gapCount),
                    "buy_volume" := format(buyVolume)];
    }

    method Finish(tf: TF, isComplete: bool) returns (b: TfBar)
      ensures b == ToBar(View(), tf, isComplete)
    {
      b := TfBar(tf, openTs, open, high, low, closeVal, volume, quoteVol, tradeCount, barCount, gapCount, isComplete,
                 buyVolume, Max(0.0, volume - buyVolume),
                 if spreadCount > 0 then Some(spreadSum / spreadCount as real) else None);
    }
  }

  /** What one second makes the first n timeframes emit, given their states. */
  function EmittedBy(states: seq<AccState>, x: Second, n: nat): seq<TfBar>
    requires n <= |ALL_TFS| == |states|
  {
    if n == 0 then []
    else
      EmittedBy(states, x, n - 1) +
      match Emit(states[n - 1], x, ALL_TFS[n - 1])
      case None => []
      case Some(b) => [b]
  }

  /** The bars closed by one second belong to a prefix of the timeframes, one bar each. */
  lemma {:induction false} ClosedTimeframesArePrefix(states: seq<AccState>, x: Second, n: nat)
    requires n <= |ALL_TFS| == |states|
    ensures |EmittedBy(states, x, n)| <= n
    ensures forall k :: 0 <= k < |EmittedBy(states, x, n)| ==>
              Emit(states[k], x, ALL_TFS[k]) == Some(EmittedBy(states, x, n)[k])
    ensures n > 0 && Closes(x, ALL_TFS[n - 1]) ==> |EmittedBy(states, x, n)| == n
  {
    hide IsBarClose, FoldInto, ToBar;
    if n > 0 {
      ClosedTimeframesArePrefix(states, x, n - 1);
      if Closes(x, ALL_TFS[n - 1]) && n > 1 {
        assert ALL_TFS[n - 2] == Lower(ALL_TFS[n - 1]);
        ClosesNest(x.ts, ALL_TFS[n - 1]);
      }
    }
  }

  lemma {:induction false} EmittedGrows(states: seq<AccState>, x: Second, m: nat, n: nat)
    requires m <= n <= |ALL_TFS| == |states|
    ensures |EmittedBy(states, x, m)| <= |EmittedBy(states, x, n)|
    decreases n
  {
    hide Emit;
    if m < n {
      EmittedGrows(states, x, m, n - 1);
    }
  }

  /** The k-th timeframe closes exactly when more than k bars are closed, and then its bar is the k-th. */
  lemma {:induction false} ClosedBarOf(states: seq<AccState>, x: Second, k: nat)
    requires k < |ALL_TFS| == |states|
    ensures var closed := EmittedBy(states, x, |ALL_TFS|);
            && (Closes(x, ALL_TFS[k]) <==> |closed| > k)
            && (|closed| > k ==> closed[k] == ToBar(FoldInto(states[k], x.bar), ALL_TFS[k], true))
  {
    hide IsBarClose, FoldInto, ToBar;
    ClosedTimeframesArePrefix(states, x, |ALL_TFS|);
    ClosedTimeframesArePrefix(states, x, k + 1);
    EmittedGrows(states, x, k + 1, |ALL_TFS|);
  }

  /** What a restart makes of a timeframe: an empty hash, or one without an opening time, is passed over. */
  function RestoredState(hash: Option<map<string, string>>, a: AccState, parse: string -> Option<real>): AccState {
    if hash.Some? && Field(hash.value, "open_ts") != "" && Field(hash.value, "open_ts") != "0" then FromHash(hash.value, parse) else a
  }

  /** A saved state comes back without its spread tracking, unless it has no opening time: then it is passed over. */
  lemma {:induction false} SavedIsRestored(saved: AccState, present: AccState, format: real -> string, parse: string -> Option<real>)
    requires FloatsRoundTrip(saved, format, parse) && Fits(saved)
    ensures RestoredState(Some(ToHash(saved, format)), present, parse) == if saved.openTs != 0 then Core(saved) else present
  {
    hide FloatsRoundTrip, Fits, FromHash, FormatInt;
    SavedFields(saved, format);
    ZeroIsWrittenZero(saved.openTs);
    RestoreAfterSave(saved, format, parse);
    hide ToHash, Field, Core;
  }

  lemma {:induction false} ReadsOpened(hash: Option<map<string, string>>, present: AccState, parse: string -> Option<real>)
    ensures RestoredState(hash, present, parse) ==
            if hash.Some? && "open_ts" in hash.value && hash.value["open_ts"] != "" && hash.value["open_ts"] != "0"
            then FromHash(hash.value, parse) else present
  {}

  // ---- What the closed bars are, in terms of the seconds folded ----

  /** Each closed bar aggregates the seconds since its timeframe's previous close; a run that was restored counts from its first close. */
  ghost predicate ClosesItsSeconds(closed: seq<TfBar>, starts: seq<AccState>, past: seq<Second>, x: Second)
    requires |closed| <= |ALL_TFS| == |starts|
  {
    forall k :: 0 <= k < |closed| && (starts[k] == Empty(0) || SomeClose(past, ALL_TFS[k])) ==>
      AggregatesSinceClose(closed[k], ALL_TFS[k], past + [x])
  }

  /** Each closed bar but the first merges the bars of the timeframe below closed since its own previous close. */
  ghost predicate RollsUp(closed: seq<TfBar>, past: seq<Second>)
    requires |closed| <= |ALL_TFS|
  {
    forall k :: 1 <= k < |closed| ==> FromBar(closed[k]) == MergeBars(Pending(past, ALL_TFS[k]) + [closed[k - 1]])
  }

  lemma {:induction false} ForgetsStart(a: AccState, xs: seq<Second>, tf: TF)
    requires SomeClose(xs, tf)
    ensures StateFrom(a, xs, tf) == StateOf(xs, tf)
  {
    var m := |xs| - 1;
    hide Closes, FoldInto;
    if !Closes(xs[m], tf) {
      var i :| 0 <= i < |xs| && Closes(xs[i], tf);
      assert xs[..m][i] == xs[i];
      ForgetsStart(a, xs[..m], tf);
    }
  }

  ghost predicate ReachedFrom(states: seq<AccState>, starts: seq<AccState>, past: seq<Second>) {
    && |states| == |starts| == |ALL_TFS|
    && forall i :: 0 <= i < |states| ==> states[i] == StateFrom(starts[i], past, ALL_TFS[i])
  }

  lemma {:induction false} ClosedBarsAggregate(states: seq<AccState>, starts: seq<AccState>, past: seq<Second>, x: Second)
    requires ReachedFrom(states, starts, past) && Timely(past)
    ensures |EmittedBy(states, x, |ALL_TFS|)| <= |ALL_TFS|
    ensures ClosesItsSeconds(EmittedBy(states, x, |ALL_TFS|), starts, past, x)
  {
    var closed := EmittedBy(states, x, |ALL_TFS|);
    hide EmittedBy, StateFrom, FoldInto, ToBar, AggregatesSinceClose, SomeClose, IsBarClose;
    ClosedTimeframesArePrefix(states, x, |ALL_TFS|);
    forall k | 0 <= k < |closed| && (starts[k] == Empty(0) || SomeClose(past, ALL_TFS[k]))
      ensures AggregatesSinceClose(closed[k], ALL_TFS[k], past + [x])
    {
      if SomeClose(past, ALL_TFS[k]) {
        ForgetsStart(starts[k], past, ALL_TFS[k]);
      }
      ClosedBarOf(states, x, k);
      ClosedSegmentAggregates(past, x, ALL_TFS[k]);
    }
  }

  lemma {:induction false} RollUpOfClosed(states: seq<AccState>, starts: seq<AccState>, past: seq<Second>, x: Second, k: nat)
    requires ReachedFrom(states, starts, past) && Timely(past + [x]) && 1 <= k < |EmittedBy(states, x, |ALL_TFS|)| <= |ALL_TFS|
    requires forall i :: 0 <= i < |starts| ==> starts[i] == Empty(0)
    ensures FromBar(EmittedBy(states, x, |ALL_TFS|)[k]) == MergeBars(Pending(past, ALL_TFS[k]) + [EmittedBy(states, x, |ALL_TFS|)[k - 1]])
  {
    hide EmittedBy, StateOf, FoldInto, ToBar, Closes, MergeBars, Pending, FromBar, Timely, ReachedFrom;
    AsManyStates(states, starts, past);
    LowerIsBefore(k);
    ReachedAt(states, starts, past, k);
    ReachedAt(states, starts, past, k - 1);
    ClosedBarOf(states, x, k);
    ClosedBarOf(states, x, k - 1);
    BarsRollUp(past, x, ALL_TFS[k]);
  }

  lemma {:induction false} LowerIsBefore(k: nat)
    requires 1 <= k < |ALL_TFS|
    ensures ALL_TFS[k] != M1 && ALL_TFS[k - 1] == Lower(ALL_TFS[k])
  {}

  lemma {:induction false} ReachedAt(states: seq<AccState>, starts: seq<AccState>, past: seq<Second>, k: nat)
    requires ReachedFrom(states, starts, past) && k < |ALL_TFS| && starts[k] == Empty(0)
    ensures states[k] == StateOf(past, ALL_TFS[k])
  {
    hide StateFrom;
  }

  lemma {:induction false} BarsRollUp(past: seq<Second>, x: Second, tf: TF)
    requires Timely(past + [x]) && tf != M1 && Closes(x, tf)
    ensures FromBar(ToBar(FoldInto(StateOf(past, tf), x.bar), tf, true)) ==
            MergeBars(Pending(past, tf) + [ToBar(FoldInto(StateOf(past, Lower(tf)), x.bar), Lower(tf), true)])
  {
    assert (past + [x])[..|past|] == past;
    hide StateFrom, FoldInto, ToBar, IsBarClose, MergeBars, Pending, FromBar, Timely;
    RollUp(past + [x], tf);
  }

  lemma {:induction false} ClosedBarsRollUp(states: seq<AccState>, starts: seq<AccState>, past: seq<Second>, x: Second)
    requires ReachedFrom(states, starts, past) && Timely(past + [x])
    requires forall i :: 0 <= i < |starts| ==> starts[i] == Empty(0)
    ensures |EmittedBy(states, x, |ALL_TFS|)| <= |ALL_TFS| && RollsUp(EmittedBy(states, x, |ALL_TFS|), past)
  {
    var closed := EmittedBy(states, x, |ALL_TFS|);
    hide EmittedBy, ReachedFrom, Timely, FromBar, MergeBars, Pending;
    AsManyStates(states, starts, past);
    ClosedTimeframesArePrefix(states, x, |ALL_TFS|);
    forall k | 1 <= k < |closed| ensures FromBar(closed[k]) == MergeBars(Pending(past, ALL_TFS[k]) + [closed[k - 1]]) {
      RollUpOfClosed(states, starts, past, x, k);
    }
  }

  lemma {:induction false} AsManyStates(states: seq<AccState>, starts: seq<AccState>, past: seq<Second>)
    requires ReachedFrom(states, starts, past)
    ensures |states| == |starts| == |ALL_TFS|
  {}

  /** From an empty engine on, every closed bar aggregates its seconds. */
  ghost predicate BarsAggregate(closed: seq<TfBar>, xs: seq<Second>) {
    |closed| <= |ALL_TFS| && forall k :: 0 <= k < |closed| ==> AggregatesSinceClose(closed[k], ALL_TFS[k], xs)
  }

  ghost predicate StartedEmpty(starts: seq<AccState>) {
    |starts| == |ALL_TFS| && forall i :: 0 <= i < |starts| ==> starts[i] == Empty(0)
  }

  lemma {:induction false} FromEmptyAggregates(closed: seq<TfBar>, starts: seq<AccState>, past: seq<Second>, x: Second)
    requires StartedEmpty(starts) && |closed| <= |ALL_TFS| && ClosesItsSeconds(closed, starts, past, x)
    ensures BarsAggregate(closed, past + [x])
  {
    hide AggregatesSinceClose, SomeClose;
  }

  /** The engine; ghost fields record the seconds folded so far and the states it started from. */
  class Engine {
    const accs: seq<CascadeAcc>
    ghost var history: seq<Second>
    ghost var starts: seq<AccState>

    ghost predicate Shape() {
      && |accs| == |ALL_TFS|
      && forall i, j :: 0 <= i < j < |accs| ==> accs[i] != accs[j]
    }

    ghost predicate Valid()
      reads this, accs
    {
      && Shape() && |starts| == |ALL_TFS|
      && forall i :: 0 <= i < |accs| ==> accs[i].View() == StateFrom(starts[i], history, ALL_TFS[i])
    }

    ghost function Views(): seq<AccState>
      requires Shape()
      reads this, accs
    {
      seq(|accs|, i requires 0 <= i < |accs| reads accs => accs[i].View())
    }

    constructor ()
      ensures Valid() && history == [] && fresh(accs)
      ensures StartedEmpty(starts)
      ensures Shape() && forall i :: 0 <= i < |accs| ==> accs[i].View() == Empty(0)
    {
      var list: seq<CascadeAcc> := [];
      for i := 0 to |ALL_TFS|
        invariant |list| == i && fresh(list)
        invariant forall j, k :: 0 <= j < k < i ==> list[j] != list[k]
        invariant forall j :: 0 <= j < i ==> list[j].View() == Empty(0)
      {
        var acc := new CascadeAcc();
        list := list + [acc];
      }
      accs := list;
      history := [];
      starts := seq(|ALL_TFS|, _ => Empty(0));
    }

    /** Every timeframe takes the second, and closes on its own boundary. */
    method FoldEach(bar: Bar, ts: int) returns (closed: seq<TfBar>)
      requires Shape()
      modifies accs
      ensures closed == EmittedBy(old(Views()), Second(bar, ts), |ALL_TFS|)
      ensures forall i :: 0 <= i < |accs| ==> accs[i].View() == Step(old(accs[i].View()), Second(bar, ts), ALL_TFS[i])
    {
      closed := [];
      ghost var x, views := Second(bar, ts), Views();
      ghost var news := seq(|accs|, i requires 0 <= i < |accs| => Step(views[i], x, ALL_TFS[i]));
      hide Step, Emit, EmittedBy, CascadeAcc.View, Engine.Views;
      EmittedByNone(views, x);
      UpToNone(views, news);
      for i := 0 to |ALL_TFS|
        modifies accs
        invariant closed == EmittedBy(views, x, i) && Views() == UpTo(views, news, i)
      {
        UpToOneMore(views, news, i);
        ViewAt(i);
        var b := FoldAt(i, bar, ts);
        EmittedByOneMore(views, x, i);
        if b.Some? {
          closed := closed + [b.value];
        }
      }
      forall i | 0 <= i < |accs| ensures accs[i].View() == news[i] {
        ViewAt(i);
      }
    }

    /** `news` for the first n timeframes, `olds` for the others. */
    static function UpTo(olds: seq<AccState>, news: seq<AccState>, n: nat): seq<AccState>
      requires n <= |olds| == |news|
    {
      news[..n] + olds[n..]
    }

    static lemma {:induction false} UpToNone(olds: seq<AccState>, news: seq<AccState>)
      requires |olds| == |news|
      ensures UpTo(olds, news, 0) == olds && UpTo(olds, news, |olds|) == news
    {}

    static lemma {:induction false} UpToOneMore(olds: seq<AccState>, news: seq<AccState>, n: nat)
      requires n < |olds| == |news|
      ensures UpTo(olds, news, n)[n] == olds[n] && UpTo(olds, news, n + 1) == UpTo(olds, news, n)[n := news[n]]
    {}

    lemma {:induction false} ViewAt(i: nat)
      requires Shape() && i < |accs|
      ensures Views()[i] == accs[i].View()
    {
      hide CascadeAcc.View;
    }

    /** One timeframe of the engine moves, and no other. */
    method FoldAt(i: nat, bar: Bar, ts: int) returns (b: Option<TfBar>)
      requires Shape() && i < |accs|
      modifies accs[i]
      ensures Views() == old(Views())[i := Step(old(accs[i].View()), Second(bar, ts), ALL_TFS[i])]
      ensures b == Emit(old(accs[i].View()), Second(bar, ts), ALL_TFS[i])
    {
      hide Step, Emit, CascadeAcc.View;
      ghost var views := Views();
      b := FoldOne(accs[i], ALL_TFS[i], bar, ts);
      assert forall j :: 0 <= j < |accs| && j != i ==> accs[j].View() == views[j];
    }

    method Fold(bar: Bar, ts: int) returns (closed: seq<TfBar>)
      requires Valid()
      modifies this, accs
      ensures Valid() && history == old(history) + [Second(bar, ts)] && starts == old(starts)
      ensures closed == EmittedBy(old(Views()), Second(bar, ts), |ALL_TFS|) && |closed| <= |ALL_TFS| == |starts|
      ensures forall i :: 0 <= i < |accs| ==> accs[i].View() == Step(old(accs[i].View()), Second(bar, ts), ALL_TFS[i])
      // bars that aggregate the seconds since the previous close, and roll up
      ensures Timely(old(history)) ==> ClosesItsSeconds(closed, starts, old(history), Second(bar, ts))
      ensures Timely(history) && (forall i :: 0 <= i < |starts| ==> starts[i] == Empty(0)) ==> RollsUp(closed, old(history))
    {
      hide Step, CascadeAcc.View, StateFrom, EmittedBy, ClosesItsSeconds, RollsUp, Timely;
      ghost var x := Second(bar, ts);
      ClosedBarsOf(x);
      forall i | 0 <= i < |accs| ensures StateFrom(starts[i], history + [x], ALL_TFS[i]) == Step(accs[i].View(), x, ALL_TFS[i]) {
        StateFromOneMore(starts[i], history, x, ALL_TFS[i]);
      }
      closed := FoldEach(bar, ts);
      history := history + [x];
    }

    /** What this second will close. */
    lemma {:induction false} ClosedBarsOf(x: Second)
      requires Valid()
      ensures |EmittedBy(Views(), x, |ALL_TFS|)| <= |ALL_TFS| == |starts|
      ensures Timely(history) ==> ClosesItsSeconds(EmittedBy(Views(), x, |ALL_TFS|), starts, history, x)
      ensures Timely(history + [x]) && (forall i :: 0 <= i < |starts| ==> starts[i] == Empty(0)) ==>
                RollsUp(EmittedBy(Views(), x, |ALL_TFS|), history)
    {
      hide CascadeAcc.View, StateFrom, EmittedBy, ClosesItsSeconds, RollsUp, Timely;
      assert ReachedFrom(Views(), starts, history);
      ClosedTimeframesArePrefix(Views(), x, |ALL_TFS|);
      if Timely(history) {
        ClosedBarsAggregate(Views(), starts, history, x);
      }
      if Timely(history + [x]) && forall i :: 0 <= i < |starts| ==> starts[i] == Empty(0) {
        ClosedBarsRollUp(Views(), starts, history, x);
      }
    }

    static lemma {:induction false} EmittedByNone(states: seq<AccState>, x: Second)
      requires |states| == |ALL_TFS|
      ensures EmittedBy(states, x, 0) == []
    {}

    static lemma {:induction false} EmittedByOneMore(states: seq<AccState>, x: Second, n: nat)
      requires n < |ALL_TFS| == |states|
      ensures var b := Emit(states[n], x, ALL_TFS[n]);
              EmittedBy(states, x, n + 1) == EmittedBy(states, x, n) + if b.Some? then [b.value] else []
    {}

    static lemma {:induction false} StateFromOneMore(a: AccState, xs: seq<Second>, x: Second, tf: TF)
      ensures StateFrom(a, xs + [x], tf) == Step(StateFrom(a, xs, tf), x, tf)
    {
      assert (xs + [x])[..|xs|] == xs;
    }

    /** The loop body: fold, and close on a boundary. */
    static method FoldOne(acc: CascadeAcc, tf: TF, bar: Bar, ts: int) returns (b: Option<TfBar>)
      modifies acc
      ensures acc.View() == Step(old(acc.View()), Second(bar, ts), tf)
      ensures b == Emit(old(acc.View()), Second(bar, ts), tf)
    {
      hide FoldInto, ToBar, IsBarClose;
      acc.Fold(bar);
      b := None;
      if IsBarClose(ts, tf) {
        var finished := acc.Finish(tf, true);
        b := Some(finished);
        acc.Reset(ts + 1000);
      }
    }

    /** After a restart: every timeframe whose saved state has an opening time. */
    method RestoreAll(hashes: seq<Option<map<string, string>>>, parse: string -> Option<real>)
      requires Valid() && |hashes| == |ALL_TFS|
      modifies this, accs
      ensures Valid() && forall i :: 0 <= i < |accs| ==> accs[i].View() == RestoredState(hashes[i], old(accs[i].View()), parse)
      ensures old(history) == [] ==> history == []
      // exactly the hashes with an opening time are read
      ensures forall i :: 0 <= i < |accs| ==>
                if hashes[i].Some? && "open_ts" in hashes[i].value && hashes[i].value["open_ts"] != "" && hashes[i].value["open_ts"] != "0"
                then accs[i].View() == FromHash(hashes[i].value, parse)
                else accs[i].View() == old(accs[i].View())
      // so what was saved comes back, but for the spread tracking
      ensures forall i, saved, format ::
                (0 <= i < |accs| && hashes[i] == Some(ToHash(saved, format)) && FloatsRoundTrip(saved, format, parse) && Fits(saved)) ==>
                  accs[i].View() == if saved.openTs != 0 then Core(saved) else old(accs[i].View())
    {
      ghost var views := Views();
      ghost var news := seq(|accs|, i requires 0 <= i < |accs| => RestoredState(hashes[i], views[i], parse));
      hide CascadeAcc.View, StateFrom, RestoredState, Engine.Valid, Engine.Views;
      UpToNone(views, news);
      for i := 0 to |ALL_TFS|
        modifies this, accs
        invariant Valid() && Views() == UpTo(views, news, i) && (old(history) == [] ==> history == [])
      {
        UpToOneMore(views, news, i);
        ViewAt(i);
        RestoreOne(i, hashes[i], parse);
      }
      forall i | 0 <= i < |accs| ensures accs[i].View() == news[i] {
        ViewAt(i);
      }
      forall i | 0 <= i < |accs|
        ensures if hashes[i].Some? && "open_ts" in hashes[i].value && hashes[i].value["open_ts"] != "" && hashes[i].value["open_ts"] != "0"
                then accs[i].View() == FromHash(hashes[i].value, parse)
                else accs[i].View() == views[i]
      {
        ReadsOpened(hashes[i], views[i], parse);
      }
      forall i, saved, format | 0 <= i < |accs| && hashes[i] == Some(ToHash(saved, format))
                                && FloatsRoundTrip(saved, format, parse) && Fits(saved)
        ensures accs[i].View() == if saved.openTs != 0 then Core(saved) else views[i]
      {
        SavedIsRestored(saved, views[i], format, parse);
      }
    }

    /** Every timeframe, written out. */
    method SaveAll(format: real -> string) returns (hashes: seq<map<string, string>>)
      requires Shape()
      ensures |hashes| == |accs| && forall i :: 0 <= i < |accs| ==> hashes[i] == ToHash(accs[i].View(), format)
    {
      hide ToHash, CascadeAcc.View;
      hashes := [];
      for i := 0 to |accs|
        invariant |hashes| == i && forall j :: 0 <= j < i ==> hashes[j] == ToHash(accs[j].View(), format)
      {
        var fields := accs[i].Save(format);
        hashes := hashes + [fields];
      }
    }

    method RestoreOne(i: nat, hash: Option<map<string, string>>, parse: string -> Option<real>)
      requires Valid() && i < |ALL_TFS|
      modifies this, accs[i]
      ensures Valid() && Views() == old(Views())[i := RestoredState(hash, old(accs[i].View()), parse)]
      ensures old(history) == [] ==> history == []
    {
      hide CascadeAcc.View, StateFrom;
      ghost var views := Views();
      if hash.Some? && Field(hash.value, "open_ts") != "" && Field(hash.value, "open_ts") != "0" {
        RestoreFromHash(i, hash.value, parse);
        forall j | 0 <= j < |accs| ensures accs[j].View() == starts[j] {
          StateFromNothing(starts[j], history, ALL_TFS[j]);
        }
      }
    }

    static lemma {:induction false} StateFromNothing(a: AccState, xs: seq<Second>, tf: TF)
      requires |xs| == 0
      ensures StateFrom(a, xs, tf) == a
    {}

    method CurrentBar(i: nat) returns (b: TfBar)
      requires Valid() && i < |ALL_TFS|
      ensures b == ToBar(StateFrom(starts[i], history, ALL_TFS[i]), ALL_TFS[i], false)
    {
      b := accs[i].Finish(ALL_TFS[i], false);
    }

    /** Overwrites one timeframe; the run then starts anew from the present states. */
    method RestoreFromHash(i: nat, fields: map<string, string>, parse: string -> Option<real>)
      requires Valid() && i < |ALL_TFS|
      modifies this, accs[i]
      ensures Valid() && history == [] && starts == old(Views())[i := FromHash(fields, parse)]
    {
      ghost var views := Views();
      accs[i].Set(FromHash(fields, parse));
      history := [];
      starts := views[i := FromHash(fields, parse)];
    }
  }
}
