/** Whole runs of the cascade: segments, the roll-up law, and restoring from a crash. */
module CascadeRuns {
  import opened Options
  import opened Calendar
  import opened Accumulators
  import opened Cascade

  /** One call of Engine.Fold. */
  datatype Second = Second(bar: Bar, ts: int)

  ghost predicate Timely(xs: seq<Second>) {
    forall i :: 0 <= i < |xs| ==> xs[i].bar.tsSecMs > 0 && xs[i].ts >= 0
  }

  predicate Closes(x: Second, tf: TF) {
    IsBarClose(x.ts, tf)
  }

  function Step(a: AccState, x: Second, tf: TF): AccState {
    if Closes(x, tf) then Empty(x.ts + 1000) else FoldInto(a, x.bar)
  }

  /** The bar a timeframe closes on this second, if it does. */
  function Emit(a: AccState, x: Second, tf: TF): Option<TfBar> {
    if Closes(x, tf) then Some(ToBar(FoldInto(a, x.bar), tf, true)) else None
  }

  function StateFrom(a: AccState, xs: seq<Second>, tf: TF): AccState {
    if xs == [] then a else Step(StateFrom(a, xs[..|xs| - 1], tf), xs[|xs| - 1], tf)
  }

  function StateOf(xs: seq<Second>, tf: TF): AccState {
    StateFrom(Empty(0), xs, tf)
  }

  /** What the last second of a run makes a timeframe emit. */
  function LastEmitted(a: AccState, xs: seq<Second>, tf: TF): Option<TfBar>
    requires xs != []
  {
    Emit(StateFrom(a, xs[..|xs| - 1], tf), xs[|xs| - 1], tf)
  }

  // ---- Every state aggregates exactly the seconds since the last close ----

  /** How many seconds of the run lie up to and including the last close. */
  function LastClose(xs: seq<Second>, tf: TF): (n: nat)
    ensures n <= |xs|
    ensures n > 0 ==> Closes(xs[n - 1], tf)
    ensures forall i :: n <= i < |xs| ==> !Closes(xs[i], tf)
  {
    if xs == [] then 0
    else if Closes(xs[|xs| - 1], tf) then |xs|
    else LastClose(xs[..|xs| - 1], tf)
  }

  function OpenedAt(xs: seq<Second>, tf: TF): int {
    var n := LastClose(xs, tf);
    if n == 0 then 0 else xs[n - 1].ts + 1000
  }

  function BarsOf(xs: seq<Second>): seq<Bar> {
    seq(|xs|, i requires 0 <= i < |xs| => xs[i].bar)
  }

  /** The bars since the last close. */
  function Segment(xs: seq<Second>, tf: TF): seq<Bar> {
    BarsOf(xs[LastClose(xs, tf)..])
  }

  lemma {:induction false} LastCloseStep(xs: seq<Second>, x: Second, tf: TF)
    ensures LastClose(xs + [x], tf) == if Closes(x, tf) then |xs| + 1 else LastClose(xs, tf)
  {
    hide Closes;
    assert (xs + [x])[..|xs|] == xs;
  }

  lemma {:induction false} BarsFrom(xs: seq<Second>, x: Second, n: nat)
    requires n <= |xs|
    ensures BarsOf((xs + [x])[n..]) == BarsOf(xs[n..]) + [x.bar]
  {
    assert (xs + [x])[n..] == xs[n..] + [x];
  }

  lemma {:induction false} SegmentStep(xs: seq<Second>, x: Second, tf: TF)
    ensures Closes(x, tf) ==> Segment(xs + [x], tf) == [] && OpenedAt(xs + [x], tf) == x.ts + 1000
    ensures !Closes(x, tf) ==>
              Segment(xs + [x], tf) == Segment(xs, tf) + [x.bar] && OpenedAt(xs + [x], tf) == OpenedAt(xs, tf)
  {
    hide Closes, LastClose, BarsOf;
    LastCloseStep(xs, x, tf);
    var n := LastClose(xs, tf);
    if Closes(x, tf) {
      NoBarsAfter(xs + [x]);
    } else {
      BarsFrom(xs, x, n);
      assert n > 0 ==> (xs + [x])[n - 1] == xs[n - 1];
    }
  }

  lemma {:induction false} NoBarsAfter(xs: seq<Second>)
    ensures BarsOf(xs[|xs|..]) == []
  {}

  lemma {:induction false} FoldAllSnoc(start: AccState, bars: seq<Bar>, b: Bar)
    ensures FoldAll(start, bars + [b]) == FoldInto(FoldAll(start, bars), b)
  {
    assert (bars + [b])[..|bars|] == bars;
  }

  lemma {:induction false} StateIsSegment(xs: seq<Second>, tf: TF)
    ensures StateOf(xs, tf) == FoldAll(Empty(OpenedAt(xs, tf)), Segment(xs, tf))
  {
    hide Closes, FoldInto, LastClose;
    if |xs| > 0 {
      var front, x := xs[..|xs| - 1], xs[|xs| - 1];
      assert xs == front + [x];
      StateIsSegment(front, tf);
      SegmentStep(front, x, tf);
      FoldAllSnoc(Empty(OpenedAt(front, tf)), Segment(front, tf), x.bar);
      hide OpenedAt, Segment, FoldAll;
      if Closes(x, tf) {
        FoldAllOfNothing(Empty(x.ts + 1000), Segment(xs, tf));
      }
    } else {
      LastCloseOfNothing(xs, tf);
      FoldAllOfNothing(Empty(OpenedAt(xs, tf)), Segment(xs, tf));
    }
  }

  lemma {:induction false} LastCloseOfNothing(xs: seq<Second>, tf: TF)
    requires |xs| == 0
    ensures OpenedAt(xs, tf) == 0 && |Segment(xs, tf)| == 0
  {}

  lemma {:induction false} FoldAllOfNothing(a: AccState, bars: seq<Bar>)
    requires |bars| == 0
    ensures FoldAll(a, bars) == a
  {}

  /**
    The bar aggregates exactly the seconds after the timeframe's previous close, up to the last. It opened one
    second after that close, or, if there was none, with the first second of the run.
  */
  ghost predicate AggregatesSinceClose(b: TfBar, tf: TF, xs: seq<Second>) {
    exists n ::
      && 0 <= n < |xs| && (n > 0 ==> Closes(xs[n - 1], tf)) && (forall i :: n <= i < |xs| - 1 ==> !Closes(xs[i], tf))
      && BarAggregates(b, tf, if n == 0 then 0 else xs[n - 1].ts + 1000, BarsOf(xs[n..]))
  }

  lemma {:induction false} FoldedSegmentAggregates(front: seq<Second>, x: Second, tf: TF)
    requires Timely(front)
    ensures Aggregates(FoldInto(StateOf(front, tf), x.bar), OpenedAt(front, tf), Segment(front, tf) + [x.bar])
  {
    var bars := Segment(front, tf);
    StateIsSegment(front, tf);
    forall i | 0 <= i < |bars| ensures bars[i].tsSecMs > 0 {
      assert bars[i] == front[LastClose(front, tf) + i].bar;
    }
    FoldAllAggregates(OpenedAt(front, tf), bars);
    hide Aggregates, OpenedAt, Segment, FoldInto;
    AggregatesExtend(StateOf(front, tf), OpenedAt(front, tf), bars, x.bar);
  }

  lemma {:induction false} ClosedSegmentAggregates(front: seq<Second>, x: Second, tf: TF)
    requires Timely(front)
    ensures AggregatesSinceClose(ToBar(FoldInto(StateOf(front, tf), x.bar), tf, true), tf, front + [x])
  {
    hide BarAggregates, Aggregates, FoldInto, ToBar, Closes, BarsOf;
    FoldedSegmentAggregates(front, x, tf);
    FinishedAggregates(FoldInto(StateOf(front, tf), x.bar), tf, OpenedAt(front, tf), Segment(front, tf) + [x.bar]);
    var xs, n := front + [x], LastClose(front, tf);
    BarsFrom(front, x, n);
    assert n > 0 ==> xs[n - 1] == front[n - 1];
    assert forall i :: n <= i < |xs| - 1 ==> xs[i] == front[i];
  }

  /** A closed bar is the aggregate of the seconds since the timeframe's previous close, no more and no less. */
  lemma {:induction false} ClosedBarAggregatesItsSeconds(xs: seq<Second>, tf: TF)
    requires xs != [] && Timely(xs) && Closes(xs[|xs| - 1], tf)
    ensures var b := LastEmitted(Empty(0), xs, tf); b.Some? && AggregatesSinceClose(b.value, tf, xs)
  {
    var front, x := xs[..|xs| - 1], xs[|xs| - 1];
    assert xs == front + [x] && forall i :: 0 <= i < |front| ==> front[i] == xs[i];
    hide AggregatesSinceClose, FoldInto, ToBar, Closes;
    ClosedSegmentAggregates(front, x, tf);
  }

  /** Each second's bar carries the stamp it was folded with. */
  ghost predicate Stamped(xs: seq<Second>) {
    forall i :: 0 <= i < |xs| ==> xs[i].bar.tsSecMs == xs[i].ts > 0
  }

  lemma {:induction false} StampedOneMore(xs: seq<Second>, x: Second)
    requires Stamped(xs)
    ensures Timely(xs)
    ensures x.bar.tsSecMs == x.ts > 0 ==> Stamped(xs + [x]) && Timely(xs + [x])
  {}

  /** Seconds n and on are those since the last close: then that is how many the bar has, and when it opened. */
  lemma {:induction false} BarOpensWith(b: TfBar, tf: TF, xs: seq<Second>, n: nat)
    requires AggregatesSinceClose(b, tf, xs) && Stamped(xs) && n < |xs|
    requires (n > 0 ==> Closes(xs[n - 1], tf)) && forall i :: n <= i < |xs| - 1 ==> !Closes(xs[i], tf)
    ensures b.barCount == |xs| - n
    ensures b.openTs == if n == 0 then xs[0].ts else xs[n - 1].ts + 1000
  {
    hide Closes, IsFirst, IsLast, IsExtreme, SumOf, CountOf;
    var m :| 0 <= m < |xs| && (m > 0 ==> Closes(xs[m - 1], tf)) && (forall i :: m <= i < |xs| - 1 ==> !Closes(xs[i], tf))
      && BarAggregates(b, tf, if m == 0 then 0 else xs[m - 1].ts + 1000, BarsOf(xs[m..]));
    assert n > 0 ==> Closes(xs[n - 1], tf);
    assert m > 0 ==> Closes(xs[m - 1], tf);
    assert n == m;
  }

  // ---- The roll-up law ----

  /** A state without its spread tracking, which is a mean of means and does not roll up. */
  function Core(a: AccState): AccState {
    a.(spreadSum := 0.0, spreadCount := 0)
  }

  function FromBar(b: TfBar): AccState {
    AccState(b.openTs, b.open, b.high, b.low, b.close, b.volume, b.quoteVol, b.tradeCount, b.barCount, b.gapCount,
             b.buyVolume, 0.0, 0)
  }

  function MergeBars(bs: seq<TfBar>): AccState {
    if bs == [] then Empty(0) else Merge(MergeBars(bs[..|bs| - 1]), FromBar(bs[|bs| - 1]))
  }

  /** The bars the next-lower timeframe has closed since this one last did. */
  function Pending(xs: seq<Second>, tf: TF): seq<TfBar>
    requires tf != M1
  {
    if xs == [] then []
    else NextPending(Pending(xs[..|xs| - 1], tf), StateOf(xs[..|xs| - 1], Lower(tf)), xs[|xs| - 1], tf)
  }

  lemma {:induction false} CoreOfFold(a: AccState, bar: Bar)
    ensures Core(FoldInto(a, bar)) == Merge(Core(a), Core(Single(bar)))
  {}

  lemma {:induction false} CoreOfBar(a: AccState, tf: TF)
    ensures FromBar(ToBar(a, tf, true)) == Core(a)
  {}

  lemma {:induction false} MergeBarsSnoc(bs: seq<TfBar>, b: TfBar)
    ensures MergeBars(bs + [b]) == Merge(MergeBars(bs), FromBar(b))
  {
    assert (bs + [b])[..|bs|] == bs;
  }

  lemma {:induction false} OpenedStatesHaveATime(xs: seq<Second>, tf: TF)
    requires Timely(xs)
    ensures xs != [] ==> StateOf(xs, tf).openTs != 0
  {
    if xs != [] {
      assert forall i :: 0 <= i < |xs| - 1 ==> xs[..|xs| - 1][i] == xs[i];
      OpenedStatesHaveATime(xs[..|xs| - 1], tf);
    }
  }

  /** Folding the same second into both levels keeps the upper one equal to its pending bars and the lower one. */
  lemma {:induction false} BothFold(upper: AccState, pending: AccState, lower: AccState, bar: Bar)
    requires Core(upper) == Merge(pending, Core(lower))
    ensures Core(FoldInto(upper, bar)) == Merge(pending, Core(FoldInto(lower, bar)))
  {
    CoreOfFold(upper, bar);
    CoreOfFold(lower, bar);
    MergeAssociative(pending, Core(lower), Core(Single(bar)));
  }

  /** Throughout any run: the upper state is the merge of the pending lower bars and the lower state. */
  lemma {:induction false} RollUpInvariant(xs: seq<Second>, tf: TF)
    requires tf != M1 && Timely(xs)
    ensures RolledUp(StateOf(xs, tf), Pending(xs, tf), StateOf(xs, Lower(tf)))
  {
    if |xs| == 0 {
      NothingRolledUp(StateOf(xs, tf), Pending(xs, tf), StateOf(xs, Lower(tf)));
    } else {
      var m := |xs| - 1;
      var front, x := xs[..m], xs[m];
      assert forall i :: 0 <= i < m ==> front[i] == xs[i];
      RollUpInvariant(front, tf);
      if front != [] {
        OpenedStatesHaveATime(front, Lower(tf));
      }
      hide RolledUp, IsBarClose, FoldInto, ToBar;
      RolledUpStep(StateOf(front, tf), Pending(front, tf), StateOf(front, Lower(tf)), x, tf);
    }
  }

  ghost predicate RolledUp(upper: AccState, pending: seq<TfBar>, lower: AccState) {
    Core(upper) == Merge(MergeBars(pending), Core(lower))
  }

  lemma {:induction false} NothingRolledUp(upper: AccState, pending: seq<TfBar>, lower: AccState)
    requires upper == lower == Empty(0) && |pending| == 0
    ensures RolledUp(upper, pending, lower)
  {}

  function NextPending(pending: seq<TfBar>, lower: AccState, x: Second, tf: TF): seq<TfBar>
    requires tf != M1
  {
    if Closes(x, tf) then []
    else
      match Emit(lower, x, Lower(tf))
      case None => pending
      case Some(b) => pending + [b]
  }

  lemma {:induction false} RolledUpStep(upper: AccState, pending: seq<TfBar>, lower: AccState, x: Second, tf: TF)
    requires tf != M1 && x.bar.tsSecMs > 0 && x.ts >= 0
    requires RolledUp(upper, pending, lower)
    ensures RolledUp(Step(upper, x, tf), NextPending(pending, lower, x, tf), Step(lower, x, Lower(tf)))
  {
    var folded := FoldInto(lower, x.bar);
    BothFold(upper, MergeBars(pending), lower, x.bar);
    if Closes(x, tf) {
      ClosesNest(x.ts, tf);
      MergeIdentity(Core(Empty(x.ts + 1000)));
    } else if Closes(x, Lower(tf)) {
      CoreOfBar(folded, Lower(tf));
      MergeBarsSnoc(pending, ToBar(folded, Lower(tf), true));
      KeepsItself(Merge(MergeBars(pending), Core(folded)), x.ts + 1000);
    }
  }

  lemma {:induction false} KeepsItself(a: AccState, t: int)
    requires a.openTs != 0
    ensures Merge(a, Empty(t)) == a
  {}

  /**
    Roll-up law: when a timeframe closes, the one below closes on the same second, and the closed
    bar is the merge of all lower bars closed since the timeframe's previous close, this one included.
  */
  lemma {:induction false} RollUp(xs: seq<Second>, tf: TF)
    requires xs != [] && Timely(xs) && tf != M1 && Closes(xs[|xs| - 1], tf)
    ensures var front := xs[..|xs| - 1];
            var upper, lower := LastEmitted(Empty(0), xs, tf), LastEmitted(Empty(0), xs, Lower(tf));
            && upper.Some? && lower.Some?
            && FromBar(upper.value) == MergeBars(Pending(front, tf) + [lower.value])
  {
    var m := |xs| - 1;
    var front, x, low := xs[..m], xs[m], Lower(tf);
    assert forall i :: 0 <= i < m ==> front[i] == xs[i];
    ClosesNest(x.ts, tf);
    RollUpInvariant(front, tf);
    assert RolledUp(StateOf(front, tf), Pending(front, tf), StateOf(front, low));
    BothFold(StateOf(front, tf), MergeBars(Pending(front, tf)), StateOf(front, low), x.bar);
    CoreOfBar(FoldInto(StateOf(front, low), x.bar), low);
    CoreOfBar(FoldInto(StateOf(front, tf), x.bar), tf);
    MergeBarsSnoc(Pending(front, tf), ToBar(FoldInto(StateOf(front, low), x.bar), low, true));
  }

  // ---- Going on from a restored state ----

  ghost predicate SomeClose(xs: seq<Second>, tf: TF) {
    exists i :: 0 <= i < |xs| && Closes(xs[i], tf)
  }

  function WithoutSpread(b: Option<TfBar>): Option<TfBar> {
    if b.None? then None else Some(b.value.(spreadMean := None))
  }

  /**
    Two engines that differ only in spread tracking: after any later seconds they still do, they
    have emitted the same bars but for the spread mean, and from the first close on they are equal.
  */
  lemma {:induction false} RestoredEngineGoesOn(a: AccState, r: AccState, xs: seq<Second>, tf: TF)
    requires Core(a) == Core(r)
    ensures Core(StateFrom(a, xs, tf)) == Core(StateFrom(r, xs, tf))
    ensures SomeClose(xs, tf) ==> StateFrom(a, xs, tf) == StateFrom(r, xs, tf)
    ensures xs != [] ==> WithoutSpread(LastEmitted(a, xs, tf)) == WithoutSpread(LastEmitted(r, xs, tf))
    ensures xs != [] && SomeClose(xs[..|xs| - 1], tf) ==> LastEmitted(a, xs, tf) == LastEmitted(r, xs, tf)
  {
    if xs != [] {
      var m := |xs| - 1;
      RestoredEngineGoesOn(a, r, xs[..m], tf);
      CoreOfFold(StateFrom(a, xs[..m], tf), xs[m].bar);
      CoreOfFold(StateFrom(r, xs[..m], tf), xs[m].bar);
      SameBarButSpread(FoldInto(StateFrom(a, xs[..m], tf), xs[m].bar), FoldInto(StateFrom(r, xs[..m], tf), xs[m].bar), tf);
      if SomeClose(xs, tf) && !Closes(xs[m], tf) {
        var i :| 0 <= i < |xs| && Closes(xs[i], tf);
        assert xs[..m][i] == xs[i];
      }
    }
  }

  lemma {:induction false} SameBarButSpread(a: AccState, r: AccState, tf: TF)
    requires Core(a) == Core(r)
    ensures ToBar(a, tf, true).(spreadMean := None) == ToBar(r, tf, true).(spreadMean := None)
  {}
}
