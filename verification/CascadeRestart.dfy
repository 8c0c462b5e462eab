/**
  A crash and a restart of the cascade's objects: what persistCascadeHashes wrote is what the restart of
  candle-service/cmd/candle/main.go reads, and the restored engine goes on like the one that was lost.
*/
module CascadeRestart {
  import opened Options
  import opened Calendar
  import opened Accumulators
  import opened Cascade
  import opened CascadeRuns
  import opened HashCodec
  import opened CascadeEngine

  /** What a run makes of the seven states. */
  ghost function StatesAfter(states: seq<AccState>, xs: seq<Second>): (after: seq<AccState>)
    requires |states| == |ALL_TFS|
    ensures |after| == |ALL_TFS|
  {
    seq(|ALL_TFS|, i requires 0 <= i < |ALL_TFS| => StateFrom(states[i], xs, ALL_TFS[i]))
  }

  ghost predicate SameButSpreads(a: seq<AccState>, b: seq<AccState>) {
    |a| == |b| && forall i :: 0 <= i < |a| ==> Core(a[i]) == Core(b[i])
  }

  /** As many bars, the same but for their spread means; and wholly the same where the timeframe had closed before. */
  ghost predicate SameBars(a: seq<TfBar>, b: seq<TfBar>, before: seq<Second>) {
    && |a| == |b| <= |ALL_TFS|
    && forall k :: 0 <= k < |a| ==>
      && a[k].(spreadMean := None) == b[k].(spreadMean := None)
      && (SomeClose(before, ALL_TFS[k]) ==> a[k] == b[k])
  }

  /** From states equal but for spreads, whatever was folded since, one more second closes the same bars. */
  lemma {:induction false} ClosesSameBars(a: seq<AccState>, b: seq<AccState>, past: seq<Second>, x: Second)
    requires |a| == |ALL_TFS| && SameButSpreads(a, b)
    ensures SameBars(EmittedBy(StatesAfter(a, past), x, |ALL_TFS|), EmittedBy(StatesAfter(b, past), x, |ALL_TFS|), past)
  {
    var s, t := StatesAfter(a, past), StatesAfter(b, past);
    var closed, closed' := EmittedBy(s, x, |ALL_TFS|), EmittedBy(t, x, |ALL_TFS|);
    hide EmittedBy, StateFrom, FoldInto, ToBar, Closes, SomeClose, Core;
    ClosedTimeframesArePrefix(s, x, |ALL_TFS|);
    ClosedTimeframesArePrefix(t, x, |ALL_TFS|);
    if |closed| > |closed'| {
      ClosedBarOf(s, x, |closed'|);
      ClosedBarOf(t, x, |closed'|);
    } else if |closed| < |closed'| {
      ClosedBarOf(s, x, |closed|);
      ClosedBarOf(t, x, |closed|);
    }
    forall k | 0 <= k < |closed|
      ensures closed[k].(spreadMean := None) == closed'[k].(spreadMean := None)
      ensures SomeClose(past, ALL_TFS[k]) ==> closed[k] == closed'[k]
    {
      ClosedBarOf(s, x, k);
      ClosedBarOf(t, x, k);
      RestoredEngineGoesOn(a[k], b[k], past, ALL_TFS[k]);
      FoldsSame(s[k], t[k], x.bar);
      SameBarButSpread(FoldInto(s[k], x.bar), FoldInto(t[k], x.bar), ALL_TFS[k]);
    }
  }

  lemma {:induction false} FoldsSame(a: AccState, b: AccState, bar: Accumulators.Bar)
    requires Core(a) == Core(b)
    ensures Core(FoldInto(a, bar)) == Core(FoldInto(b, bar))
  {
    CoreOfFold(a, bar);
    CoreOfFold(b, bar);
  }

  lemma {:induction false} StateFromAppend(a: AccState, xs: seq<Second>, ys: seq<Second>, tf: TF)
    ensures StateFrom(a, xs + ys, tf) == StateFrom(StateFrom(a, xs, tf), ys, tf)
  {
    hide Step;
    if |ys| == 0 {
      assert xs + ys == xs;
    } else {
      var n := |ys| - 1;
      assert (xs + ys)[..|xs + ys| - 1] == xs + ys[..n];
      StateFromAppend(a, xs, ys[..n], tf);
    }
  }

  lemma {:induction false} StatesAfterAppend(states: seq<AccState>, xs: seq<Second>, ys: seq<Second>)
    requires |states| == |ALL_TFS|
    ensures StatesAfter(states, xs + ys) == StatesAfter(StatesAfter(states, xs), ys)
  {
    hide StateFrom;
    forall i | 0 <= i < |ALL_TFS| ensures StatesAfter(states, xs + ys)[i] == StatesAfter(StatesAfter(states, xs), ys)[i] {
      StateFromAppend(states[i], xs, ys, ALL_TFS[i]);
    }
  }

  lemma {:induction false} ViewsAre(e: Engine)
    requires e.Valid()
    ensures e.Shape() && |e.starts| == |ALL_TFS| && e.Views() == StatesAfter(e.starts, e.history)
  {
    hide StateFrom, CascadeAcc.View;
  }

  lemma {:induction false} StatesAre(e: Engine, past: seq<Second>)
    requires e.Valid() && e.history == past && forall i :: 0 <= i < |e.starts| ==> e.starts[i] == Empty(0)
    ensures |e.accs| == |ALL_TFS| && forall i :: 0 <= i < |ALL_TFS| ==> e.accs[i].View() == StateOf(past, ALL_TFS[i])
  {
    hide StateFrom, CascadeAcc.View;
  }

  /** Every closed bar of the run does. */
  ghost predicate AllAggregate(out: seq<seq<TfBar>>, past: seq<Second>, xs: seq<Second>)
    requires |out| <= |xs|
  {
    forall j :: 0 <= j < |out| ==> BarsAggregate(out[j], past + xs[..j + 1])
  }

  lemma {:induction false} TimelyBefore(past: seq<Second>, xs: seq<Second>, j: nat)
    requires Timely(past + xs) && j <= |xs|
    ensures Timely(past + xs[..j])
  {
    assert forall i :: 0 <= i < |past + xs[..j]| ==> (past + xs[..j])[i] == (past + xs)[i];
  }

  /** The engine takes a run of seconds. */
  method FoldRun(e: Engine, xs: seq<Second>) returns (out: seq<seq<TfBar>>)
    requires e.Valid()
    modifies e, e.accs
    ensures e.Valid() && e.starts == old(e.starts) && e.history == old(e.history) + xs
    ensures |e.Views()| == |ALL_TFS| && e.Views() == StatesAfter(old(e.Views()), xs)
    ensures |out| == |xs| && forall j :: 0 <= j < |xs| ==> out[j] == EmittedBy(StatesAfter(old(e.Views()), xs[..j]), xs[j], |ALL_TFS|)
    ensures StartedEmpty(e.starts) && Timely(e.history) ==> AllAggregate(out, old(e.history), xs)
  {
    hide EmittedBy, StatesAfter, Engine.Valid, Engine.Views, Step, CascadeAcc.View, ClosesItsSeconds, RollsUp, BarsAggregate, StartedEmpty,
      Timely;
    ghost var timely := Timely(e.history + xs);
    ViewsAre(e);
    ghost var states, past := e.Views(), e.history;
    out := [];
    StatesAfterAppend(e.starts, past, []);
    assert past + [] == past && xs[..0] == [];
    for j := 0 to |xs|
      invariant e.Valid() && e.starts == old(e.starts) && e.history == past + xs[..j]
      invariant |e.Views()| == |ALL_TFS| && e.Views() == StatesAfter(states, xs[..j])
      invariant |out| == j && forall i :: 0 <= i < j ==> out[i] == EmittedBy(StatesAfter(states, xs[..i]), xs[i], |ALL_TFS|)
      invariant StartedEmpty(e.starts) && timely ==> AllAggregate(out, past, xs)
    {
      var closed := e.Fold(xs[j].bar, xs[j].ts);
      out := out + [closed];
      assert past + xs[..j + 1] == past + xs[..j] + [xs[j]];
      if StartedEmpty(e.starts) && timely {
        TimelyBefore(past, xs, j);
        FromEmptyAggregates(closed, e.starts, past + xs[..j], xs[j]);
      }
      ViewsAre(e);
      StatesAfterAppend(e.starts, past, xs[..j + 1]);
    }
    assert xs[..|xs|] == xs;
  }

  /** A new engine reads what was written of the lost one. */
  method Restart(lost: Engine, format: real -> string, parse: string -> Option<real>) returns (e: Engine)
    requires lost.Valid()
    requires forall i :: 0 <= i < |lost.accs| ==> FloatsRoundTrip(lost.accs[i].View(), format, parse) && Fits(lost.accs[i].View())
    ensures e.Valid() && e.history == [] && fresh(e) && fresh(e.accs)
    ensures |e.accs| == |lost.accs| == |ALL_TFS| && forall i :: 0 <= i < |ALL_TFS| ==>
              e.accs[i].View() == if lost.accs[i].View().openTs != 0 then Core(lost.accs[i].View()) else Empty(0)
  {
    hide ToHash, FromHash, RestoredState, FloatsRoundTrip, Fits, CascadeAcc.View, StateFrom, Core;
    var hashes := lost.SaveAll(format);
    e := new Engine();
    var read := seq(|hashes|, i requires 0 <= i < |hashes| => Some(hashes[i]));
    e.RestoreAll(read, parse);
  }

  /** An engine after a run of seconds, and the one restarted from what it had written. */
  method RunAndCrash(past: seq<Second>, format: real -> string, parse: string -> Option<real>) returns (e: Engine, r: Engine)
    requires Timely(past)
    requires forall tf :: FloatsRoundTrip(StateOf(past, tf), format, parse) && Fits(StateOf(past, tf))
    ensures fresh(e) && fresh(e.accs) && fresh(r) && fresh(r.accs) && e != r && forall i, j :: 0 <= i < |e.accs| && 0 <= j < |r.accs| ==> e.accs[i] != r.accs[j]
    ensures e.Valid() && e.history == past && StartedEmpty(e.starts) && r.Valid()
    ensures SameButSpreads(e.Views(), r.Views())
  {
    hide EmittedBy, StateFrom, CascadeAcc.View, FloatsRoundTrip, Fits, Core, AllAggregate, Timely;
    e := new Engine();
    var _ := FoldRun(e, past);
    StatesAre(e, past);
    r := Restart(e, format, parse);
    forall i | 0 <= i < |ALL_TFS| ensures Core(e.Views()[i]) == Core(r.Views()[i]) {
      SavedOrEmpty(past, ALL_TFS[i]);
    }
  }

  /**
    A crash after any run of seconds: whatever comes later, the restarted engine closes the bars the lost one
    would have closed, but for spread means; and wholly the same once a timeframe has closed.
  */
  method CrashAndGoOn(past: seq<Second>, later: seq<Second>, format: real -> string, parse: string -> Option<real>)
    returns (lost: seq<seq<TfBar>>, restarted: seq<seq<TfBar>>)
    requires Timely(past + later)
    requires forall tf :: FloatsRoundTrip(StateOf(past, tf), format, parse) && Fits(StateOf(past, tf))
    ensures |lost| == |restarted| == |later| && forall j :: 0 <= j < |later| ==> SameBars(lost[j], restarted[j], later[..j])
    // and those aggregate all their seconds, before the crash and after it
    ensures AllAggregate(lost, past, later)
  {
    hide EmittedBy, StateFrom, CascadeAcc.View, FloatsRoundTrip, Fits, SameBars, SameButSpreads, AllAggregate, Timely, Engine.Valid,
      Engine.Views, StatesAfter, StartedEmpty;
    TimelyBefore(past, later, 0);
    assert past + later[..0] == past;
    var e, r := RunAndCrash(past, format, parse);
    lost, restarted := FoldBoth(e, r, later);
  }

  /** Two engines whose states are the same but for spreads. */
  method FoldBoth(e: Engine, r: Engine, xs: seq<Second>) returns (out: seq<seq<TfBar>>, out': seq<seq<TfBar>>)
    requires e.Valid() && r.Valid() && SameButSpreads(e.Views(), r.Views())
    requires e != r && forall i, j :: 0 <= i < |e.accs| && 0 <= j < |r.accs| ==> e.accs[i] != r.accs[j]
    modifies e, e.accs, r, r.accs
    ensures |out| == |out'| == |xs| && forall j :: 0 <= j < |xs| ==> SameBars(out[j], out'[j], xs[..j])
    ensures StartedEmpty(old(e.starts)) && Timely(old(e.history) + xs) ==> AllAggregate(out, old(e.history), xs)
  {
    hide EmittedBy, StateFrom, CascadeAcc.View, SameBars, SameButSpreads, AllAggregate, Timely, Engine.Valid, Engine.Views, StatesAfter,
      StartedEmpty;
    ViewsAre(e);
    ViewsAre(r);
    ghost var a, b := e.Views(), r.Views();
    label before:
    out := FoldRun(e, xs);
    assert unchanged@before(r);
    assert unchanged@before(r.accs);
    out' := FoldRun(r, xs);
    forall j | 0 <= j < |xs| ensures SameBars(out[j], out'[j], xs[..j]) {
      ClosesSameBars(a, b, xs[..j], xs[j]);
    }
  }

  /** A state without an opening time has seen nothing. */
  lemma {:induction false} SavedOrEmpty(past: seq<Second>, tf: TF)
    requires Timely(past)
    ensures var a := StateOf(past, tf); Core(if a.openTs != 0 then Core(a) else Empty(0)) == Core(a)
  {
    hide Step;
    OpenedStatesHaveATime(past, tf);
  }
}
