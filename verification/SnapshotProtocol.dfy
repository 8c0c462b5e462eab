/**
  The snapshot request protocol (aggregator/internal/coordinator: symbol.go, snapshot.go,
  coordinator.go): per-symbol workers, the shared request channel, one fetch goroutine per
  request, and a one-slot result channel per worker, before cancellation. Each step is one
  atomic move of one goroutine; runs interleave them freely.
*/
module SnapshotProtocol {
  import opened Reconnect

  type Id = nat

  /** Where a worker goroutine is: in its select loop, at the request send, or in its panic handler. */
  datatype Pc = Loop | Sending | Recovering

  datatype WorkerState = WorkerState(recon: State, pc: Pc, resultCh: nat)

  datatype System = System(
    workers: map<Id, WorkerState>,
    snapReqs: seq<Id>,          // the shared request channel
    capacity: nat,              // its capacity: symbols configured at start + 16
    fetching: multiset<Id>,     // goroutines inside fetchWithRetry
    delivering: multiset<Id>,   // goroutines at the result send
    added: nat,                 // symbols added while running
    discarded: nat)             // results thrown away because the worker was not waiting

  datatype Step =
    | Start(w: Id)              // first request of a worker's loop
    | Send(w: Id)               // the request send goes through
    | Tick(w: Id)               // a tick is handled: no protocol effect
    | Receive(w: Id, stale: bool)
    | Dispatch
    | FetchFails(w: Id)
    | FetchSucceeds(w: Id)
    | Deliver(w: Id)
    | AddSymbol(w: Id)
    | PanicOnTick(w: Id)                    // a write or publication fails while live
    | PanicOnSnapshot(w: Id, live: bool)    // a result was taken; the merge was or was not completed
    | Recover(w: Id)

  /** What a step asks of its own worker. A buffering worker only appends a number or returns, so only a live one panics on a tick. */
  predicate Ready(ws: WorkerState, step: Step) {
    match step
    case Start(_) => ws.pc == Loop && ws.recon == Initial
    case Send(_) => ws.pc == Sending
    case Tick(_) => ws.pc == Loop && ws.recon != Initial
    case Receive(_, _) => ws.pc == Loop && ws.recon != Initial && ws.resultCh == 1
    case Deliver(_) => ws.resultCh == 0
    case PanicOnTick(_) => ws.pc == Loop && ws.recon == Live
    case PanicOnSnapshot(_, _) => ws.pc == Loop && ws.recon == Buffering && ws.resultCh == 1
    case Recover(_) => ws.pc == Recovering
    case _ => true
  }

  predicate Enabled(s: System, step: Step) {
    match step
    case Dispatch => s.snapReqs != []
    case FetchFails(w) => w in s.fetching
    case FetchSucceeds(w) => w in s.fetching
    case AddSymbol(w) => w !in s.workers && s.added < 16
    case _ =>
      && step.w in s.workers && Ready(s.workers[step.w], step)
      && (step.Send? ==> |s.snapReqs| < s.capacity)
      && (step.Deliver? ==> step.w in s.delivering)
  }

  /** The worker a step belongs to. */
  predicate Moves(step: Step, w: Id) {
    match step
    case Dispatch => false
    case _ => step.w == w
  }

  /** What a step does to its own worker. */
  function After(ws: WorkerState, step: Step): WorkerState {
    match step
    case Start(_) => ws.(recon := Buffering, pc := Sending)
    case Send(_) => ws.(pc := Loop)
    case Receive(_, stale) =>
      if ws.recon != Buffering then ws.(resultCh := 0)
      else if stale then ws.(resultCh := 0, pc := Sending)
      else ws.(resultCh := 0, recon := Live)
    case Deliver(_) => ws.(resultCh := 1)
    case PanicOnTick(_) => ws.(pc := Recovering)
    case PanicOnSnapshot(_, live) => WorkerState(if live then Live else Buffering, Recovering, 0)
    case Recover(_) => WorkerState(Buffering, Sending, 0)  // drains the result slot, whatever is in it
    case _ => ws
  }

  function Next(s: System, step: Step): System
    requires Enabled(s, step)
  {
    match step
    case Send(w) => s.(workers := s.workers[w := After(s.workers[w], step)], snapReqs := s.snapReqs + [w])
    case Receive(w, _) =>
      s.(workers := s.workers[w := After(s.workers[w], step)],
         discarded := s.discarded + if s.workers[w].recon != Buffering then 1 else 0)
    case Dispatch =>
      s.(snapReqs := s.snapReqs[1..], fetching := s.fetching + multiset{s.snapReqs[0]})
    case FetchFails(w) => s
    case FetchSucceeds(w) =>
      s.(fetching := s.fetching - multiset{w}, delivering := s.delivering + multiset{w})
    case Deliver(w) =>
      s.(delivering := s.delivering - multiset{w}, workers := s.workers[w := After(s.workers[w], step)])
    case AddSymbol(w) =>
      s.(workers := s.workers[w := WorkerState(Initial, Loop, 0)], added := s.added + 1)
    case Recover(w) =>
      s.(workers := s.workers[w := After(s.workers[w], step)], discarded := s.discarded + s.workers[w].resultCh)
    case _ => s.(workers := s.workers[step.w := After(s.workers[step.w], step)])
  }

  lemma {:induction false} WorkerMoves(s: System, step: Step, w: Id)
    requires w in s.workers && Enabled(s, step)
    ensures w in Next(s, step).workers
    ensures Next(s, step).workers[w] == if Moves(step, w) then After(s.workers[w], step) else s.workers[w]
  {}

  /** Workers just constructed; the channel has room for one request each and 16 more. */
  ghost predicate Fresh(s: System) {
    && (forall w :: w in s.workers ==> s.workers[w] == WorkerState(Initial, Loop, 0))
    && s.capacity == |s.workers| + 16
    && s.snapReqs == [] && s.fetching == multiset{} && s.delivering == multiset{}
    && s.added == 0 && s.discarded == 0
  }

  ghost predicate IsRun(states: seq<System>, steps: seq<Step>) {
    && |states| == |steps| + 1
    && Fresh(states[0])
    && forall i :: 0 <= i < |steps| ==> Enabled(states[i], steps[i]) && states[i + 1] == Next(states[i], steps[i])
  }

  // ---- Tokens: outstanding requests of one worker, wherever they are ----

  /** On their way through the request channel, a fetch or a delivery. */
  function InChannels(s: System, w: Id): nat {
    multiset(s.snapReqs)[w] + s.fetching[w] + s.delivering[w]
  }

  /** At the worker: about to be sent, or in the result slot. */
  function Own(ws: WorkerState): nat {
    (if ws.pc != Loop then 1 else 0) + ws.resultCh
  }

  function Tokens(s: System, w: Id): nat
    requires w in s.workers
  {
    Own(s.workers[w]) + InChannels(s, w)
  }

  ghost predicate Shape(s: System) {
    && (forall w :: w in s.snapReqs || w in s.fetching || w in s.delivering ==> w in s.workers)
    && (forall w :: w in s.workers ==> s.workers[w].resultCh <= 1)
    && (forall w :: w in s.workers && s.workers[w].recon == Initial ==> Tokens(s, w) == 0)
    && s.added <= 16 && |s.workers| + 16 == s.capacity + s.added
  }

  /** Waiting for a snapshot, or about to ask for one because of a panic. */
  predicate Waits(s: WorkerState) {
    s.recon == Buffering || s.pc == Recovering
  }

  /** A waiting worker has exactly one request outstanding, and a worker that is not waiting has none. */
  ghost predicate ExactlyServed(s: System) {
    && Shape(s) && s.discarded == 0
    && forall w :: w in s.workers ==> Tokens(s, w) == if Waits(s.workers[w]) then 1 else 0
  }

  lemma {:induction false} TakeFront(q: seq<Id>)
    requires q != []
    ensures multiset(q) == multiset{q[0]} + multiset(q[1..])
  {
    assert q == [q[0]] + q[1..];
  }

  /** How a step changes the tokens of its own worker; every other move only passes a token on. */
  function GainOf(ws: WorkerState, step: Step): int {
    match step
    case Start(_) => 1
    case Receive(_, stale) => if ws.recon == Buffering && stale then 0 else -1
    case PanicOnTick(_) => 1
    case Recover(_) => 0 - (ws.resultCh as int)
    case _ => 0
  }

  function Gain(s: System, step: Step, w: Id): int
    requires w in s.workers
  {
    if Moves(step, w) then GainOf(s.workers[w], step) else 0
  }

  lemma {:induction false} CountAppended(q: seq<Id>, v: Id, w: Id)
    ensures multiset(q + [v])[w] == multiset(q)[w] + if v == w then 1 else 0
  {
    assert multiset(q + [v]) == multiset(q) + multiset{v};
  }

  lemma {:induction false} CountTaken(q: seq<Id>, w: Id)
    requires q != []
    ensures multiset(q)[w] == multiset(q[1..])[w] + if q[0] == w then 1 else 0
  {
    TakeFront(q);
  }

  lemma {:induction false} CountAdded(m: multiset<Id>, v: Id, w: Id)
    ensures (m + multiset{v})[w] == m[w] + if v == w then 1 else 0
  {}

  lemma {:induction false} CountRemoved(m: multiset<Id>, v: Id, w: Id)
    requires v in m
    ensures (m - multiset{v})[w] == m[w] - if v == w then 1 else 0
  {}

  /** Only these four steps move anything through the channels. */
  lemma {:induction false} ChannelsMove(s: System, step: Step)
    requires Enabled(s, step)
    ensures var t := Next(s, step);
            && t.snapReqs == (if step.Send? then s.snapReqs + [step.w] else if step.Dispatch? then s.snapReqs[1..] else s.snapReqs)
            && t.fetching == (if step.Dispatch? then s.fetching + multiset{s.snapReqs[0]}
                              else if step.FetchSucceeds? then s.fetching - multiset{step.w} else s.fetching)
            && t.delivering == (if step.FetchSucceeds? then s.delivering + multiset{step.w}
                                else if step.Deliver? then s.delivering - multiset{step.w} else s.delivering)
    ensures (step.FetchSucceeds? ==> step.w in s.fetching) && (step.Deliver? ==> step.w in s.delivering)
    ensures step.Dispatch? ==> s.snapReqs != []
  {
    hide After, Ready;
  }

  lemma {:induction false} ChannelsStep(s: System, step: Step, w: Id)
    requires Enabled(s, step)
    ensures InChannels(Next(s, step), w) ==
            InChannels(s, w) + if step == Send(w) then 1 else if step == Deliver(w) then -1 else 0
  {
    ChannelsMove(s, step);
    hide Next, Enabled;
    if step.Dispatch? {
      CountTaken(s.snapReqs, w);
      CountAdded(s.fetching, s.snapReqs[0], w);
    } else if step.Send? {
      CountAppended(s.snapReqs, step.w, w);
    } else if step.FetchSucceeds? {
      CountRemoved(s.fetching, step.w, w);
      CountAdded(s.delivering, step.w, w);
    } else if step.Deliver? {
      CountRemoved(s.delivering, step.w, w);
    }
  }

  /** The worker's own part: what it hands to the channels and takes from them, it loses and gains. */
  lemma {:induction false} OwnStep(ws: WorkerState, step: Step)
    requires Ready(ws, step) && (!step.Dispatch? && !step.FetchFails? && !step.FetchSucceeds? && !step.AddSymbol?)
    ensures Own(After(ws, step)) == Own(ws) + GainOf(ws, step) - if step.Send? then 1 else if step.Deliver? then -1 else 0
  {}

  lemma {:induction false} TokensStep(s: System, step: Step, w: Id)
    requires w in s.workers && Enabled(s, step)
    ensures w in Next(s, step).workers
    ensures Tokens(Next(s, step), w) == Tokens(s, w) + Gain(s, step, w)
  {
    WorkerMoves(s, step, w);
    ChannelsStep(s, step, w);
    hide InChannels, Next, After, Own, Ready;
    if Moves(step, w) && !step.FetchFails? && !step.FetchSucceeds? && !step.AddSymbol? {
      OwnStep(s.workers[w], step);
    } else {
      StepOfOthers(s.workers[w], step);
    }
  }

  lemma {:induction false} StepOfOthers(ws: WorkerState, step: Step)
    ensures step.FetchFails? || step.FetchSucceeds? || step.AddSymbol? ==> After(ws, step) == ws && GainOf(ws, step) == 0
  {}

  lemma {:induction false} TokensOfStranger(s: System, w: Id)
    requires Shape(s) && w !in s.workers
    ensures multiset(s.snapReqs)[w] == 0 && s.fetching[w] == 0 && s.delivering[w] == 0
  {
    assert w !in multiset(s.snapReqs);
  }

  lemma {:induction false} PlacesKept(s: System, step: Step, w: Id)
    requires Shape(s) && Enabled(s, step)
    requires w in Next(s, step).snapReqs || w in Next(s, step).fetching || w in Next(s, step).delivering
    ensures w in Next(s, step).workers
  {
    match step
    case Dispatch =>
      TakeFront(s.snapReqs);
      assert w in s.snapReqs || w in s.fetching || w in s.delivering;
    case _ =>
  }

  lemma {:induction false} SizeOfUpdate(m: map<Id, WorkerState>, w: Id, v: WorkerState)
    ensures |m[w := v]| == if w in m then |m| else |m| + 1
  {
    assert m[w := v].Keys == m.Keys + {w};
  }

  lemma {:induction false} WorkersKept(s: System, step: Step)
    requires Shape(s) && Enabled(s, step)
    ensures var t := Next(s, step); t.added <= 16 && |t.workers| + 16 == t.capacity + t.added
  {
    hide Tokens, After;
    match step
    case Dispatch =>
    case AddSymbol(w) => SizeOfUpdate(s.workers, w, WorkerState(Initial, Loop, 0));
    case _ => SizeOfUpdate(s.workers, step.w, After(s.workers[step.w], step));
  }

  lemma {:induction false} ResultSlotKept(s: System, step: Step, w: Id)
    requires Shape(s) && Enabled(s, step) && w in Next(s, step).workers
    ensures Next(s, step).workers[w].resultCh <= 1
  {
    if w in s.workers {
      WorkerMoves(s, step, w);
      assert s.workers[w].resultCh <= 1;
      hide Shape, Tokens, Next, Enabled;
    } else {
      NewWorkerHasNone(s, step, w);
    }
  }

  lemma {:induction false} ResultIsAToken(s: System, w: Id)
    requires w in s.workers
    ensures Tokens(s, w) >= s.workers[w].resultCh + if s.workers[w].pc != Loop then 1 else 0
  {}

  lemma {:induction false} NewWorkerHasNone(s: System, step: Step, w: Id)
    requires Shape(s) && Enabled(s, step) && w !in s.workers && w in Next(s, step).workers
    ensures Next(s, step).workers[w] == WorkerState(Initial, Loop, 0) && Tokens(Next(s, step), w) == 0
  {
    TokensOfStranger(s, w);
    OnlyAddingAdds(s, step, w);
  }

  lemma {:induction false} OnlyAddingAdds(s: System, step: Step, w: Id)
    requires Enabled(s, step) && w !in s.workers && w in Next(s, step).workers
    ensures step == AddSymbol(w)
  {
    hide After, Tokens;
  }

  lemma {:induction false} FreshWorkerHasNone(s: System, step: Step, w: Id)
    requires Shape(s) && Enabled(s, step) && w in Next(s, step).workers
    ensures Next(s, step).workers[w].recon == Initial ==> Tokens(Next(s, step), w) == 0
  {
    if w in s.workers {
      TokensStep(s, step, w);
      WorkerMoves(s, step, w);
      ResultIsAToken(s, w);
      assert s.workers[w].recon == Initial ==> Tokens(s, w) == 0;
      hide Shape, Tokens, Next;
    } else {
      NewWorkerHasNone(s, step, w);
    }
  }

  lemma {:induction false} ShapeKept(s: System, step: Step)
    requires Shape(s) && Enabled(s, step)
    ensures Shape(Next(s, step))
  {
    var t := Next(s, step);
    WorkersKept(s, step);
    forall w | w in t.workers ensures t.workers[w].resultCh <= 1 {
      ResultSlotKept(s, step, w);
    }
    forall w | w in t.snapReqs || w in t.fetching || w in t.delivering ensures w in t.workers {
      PlacesKept(s, step, w);
    }
    forall w | w in t.workers && t.workers[w].recon == Initial ensures Tokens(t, w) == 0 {
      FreshWorkerHasNone(s, step, w);
    }
  }

  lemma {:induction false} OwnStaysExact(ws: WorkerState, step: Step)
    requires Ready(ws, step) && Own(ws) <= if Waits(ws) then 1 else 0
    ensures (if Waits(After(ws, step)) then 1 else 0) == (if Waits(ws) then 1 else 0) + GainOf(ws, step)
  {}

  lemma {:induction false} WorkerStaysExact(s: System, step: Step, w: Id)
    requires ExactlyServed(s) && Enabled(s, step) && w in Next(s, step).workers
    ensures Tokens(Next(s, step), w) == if Waits(Next(s, step).workers[w]) then 1 else 0
  {
    if w in s.workers {
      TokensStep(s, step, w);
      WorkerMoves(s, step, w);
      assert Own(s.workers[w]) <= Tokens(s, w) == if Waits(s.workers[w]) then 1 else 0;
      hide Tokens, Shape, Next, ExactlyServed, Own, Waits, After, Ready, GainOf;
      if Moves(step, w) {
        MoverIsReady(s, step);
        OwnStaysExact(s.workers[w], step);
      }
    } else {
      NewWorkerHasNone(s, step, w);
    }
  }

  lemma {:induction false} MoverIsReady(s: System, step: Step)
    requires Enabled(s, step) && !step.Dispatch? && step.w in s.workers
    ensures Ready(s.workers[step.w], step)
  {}

  lemma {:induction false} NothingDiscarded(s: System, step: Step)
    requires ExactlyServed(s) && Enabled(s, step)
    ensures Next(s, step).discarded == 0
  {
    if step.Receive? || step.Recover? {
      assert Tokens(s, step.w) == if Waits(s.workers[step.w]) then 1 else 0;
    }
  }

  lemma {:induction false} ExactlyServedKept(s: System, step: Step)
    requires ExactlyServed(s) && Enabled(s, step)
    ensures ExactlyServed(Next(s, step))
  {
    ShapeKept(s, step);
    NothingDiscarded(s, step);
    var t := Next(s, step);
    forall w | w in t.workers ensures Tokens(t, w) == if Waits(t.workers[w]) then 1 else 0 {
      WorkerStaysExact(s, step, w);
    }
  }

  // ---- Whole runs ----

  /**
    In every run, panics included: a worker that is buffering or recovering has exactly one request
    outstanding, any other worker none, and no result has been thrown away.
  */
  lemma {:induction false} TokenInvariant(states: seq<System>, steps: seq<Step>)
    requires IsRun(states, steps)
    ensures ExactlyServed(states[|steps|])
    decreases |steps|
  {
    if steps != [] {
      var n := |steps| - 1;
      RunPrefix(states, steps);
      TokenInvariant(states[..n + 1], steps[..n]);
      ExactlyServedKept(states[n], steps[n]);
    }
  }

  lemma {:induction false} RunPrefix(states: seq<System>, steps: seq<Step>)
    requires IsRun(states, steps) && steps != []
    ensures IsRun(states[..|steps|], steps[..|steps| - 1])
  {
    var n := |steps| - 1;
    var ss, ts := states[..|steps|], steps[..n];
    forall i | 0 <= i < |ts|
      ensures Enabled(ss[i], ts[i]) && ss[i + 1] == Next(ss[i], ts[i])
    {
      assert ss[i] == states[i] && ss[i + 1] == states[i + 1] && ts[i] == steps[i];
    }
  }

  lemma {:induction false} DistinctSeqFits(q: seq<Id>, ids: set<Id>)
    requires forall w :: w in q ==> w in ids && multiset(q)[w] == 1
    ensures |q| <= |ids|
    decreases |q|
  {
    if q != [] {
      TakeFront(q);
      forall w | w in q[1..] ensures w in ids - {q[0]} && multiset(q[1..])[w] == 1 {
        assert multiset(q)[w] == 1;
        assert w in multiset(q[1..]);
      }
      DistinctSeqFits(q[1..], ids - {q[0]});
    }
  }

  /**
    No channel operation of the protocol ever blocks, and no result is thrown away: in every run,
    panics included, the request send finds room (at most 16 symbols added), a finished fetch finds
    the result slot empty, a result that arrives is waited for, and the drain after a panic finds nothing.
  */
  lemma {:induction false} NothingBlocks(states: seq<System>, steps: seq<Step>)
    requires IsRun(states, steps)
    ensures var s := states[|steps|];
            && s.discarded == 0
            && forall w :: w in s.workers ==>
              && (s.workers[w].pc == Sending ==> Enabled(s, Send(w)))
              && (w in s.delivering ==> Enabled(s, Deliver(w)))
              && (s.workers[w].resultCh == 1 ==> s.workers[w].recon == Buffering && s.workers[w].pc == Loop)
  {
    var s := states[|steps|];
    TokenInvariant(states, steps);
    hide IsRun, ExactlyServed, Enabled;
    forall w | w in s.workers
      ensures s.workers[w].pc == Sending ==> Enabled(s, Send(w))
      ensures w in s.delivering ==> Enabled(s, Deliver(w))
      ensures s.workers[w].resultCh == 1 ==> s.workers[w].recon == Buffering && s.workers[w].pc == Loop
    {
      if s.workers[w].pc == Sending {
        SendFindsRoom(s, w);
      }
      ResultIsAwaited(s, w);
    }
    assert s.discarded == 0 by {
      NoneDiscarded(s);
    }
  }

  lemma {:induction false} NoneDiscarded(s: System)
    requires ExactlyServed(s)
    ensures s.discarded == 0
  {}

  lemma {:induction false} SendFindsRoom(s: System, w: Id)
    requires ExactlyServed(s) && w in s.workers && s.workers[w].pc == Sending
    ensures Enabled(s, Send(w))
  {
    assert w !in multiset(s.snapReqs) by {
      assert Tokens(s, w) <= 1;
    }
    forall v | v in s.snapReqs ensures v in s.workers.Keys - {w} && multiset(s.snapReqs)[v] == 1 {
      assert v in multiset(s.snapReqs);
      assert Tokens(s, v) <= 1;
    }
    DistinctSeqFits(s.snapReqs, s.workers.Keys - {w});
    assert |s.workers.Keys| == |s.workers|;
  }

  lemma {:induction false} ResultIsAwaited(s: System, w: Id)
    requires ExactlyServed(s) && w in s.workers
    ensures w in s.delivering ==> Enabled(s, Deliver(w))
    ensures s.workers[w].resultCh == 1 ==> s.workers[w].recon == Buffering && s.workers[w].pc == Loop
  {
    assert Tokens(s, w) == if Waits(s.workers[w]) then 1 else 0;
  }

  /** The steps that carry a token towards its worker. */
  predicate MovesToken(step: Step) {
    step.Send? || step.Receive? || step.Dispatch? || step.FetchSucceeds? || step.Deliver? || step.Recover?
  }

  /** While any worker waits, some token can move, panics or not: the protocol never deadlocks. */
  lemma {:induction false} NeverStuck(states: seq<System>, steps: seq<Step>, w: Id)
    requires IsRun(states, steps)
    requires w in states[|steps|].workers && Waits(states[|steps|].workers[w])
    ensures exists step :: MovesToken(step) && Enabled(states[|steps|], step)
  {
    var s := states[|steps|];
    TokenInvariant(states, steps);
    assert Tokens(s, w) == 1;
    assert |s.workers.Keys| >= 1 by { assert w in s.workers.Keys; }
    if s.snapReqs != [] {
      assert Enabled(s, Dispatch);
    } else if s.workers[w].pc == Sending {
      assert Enabled(s, Send(w));
    } else if s.workers[w].pc == Recovering {
      assert Enabled(s, Recover(w));
    } else if w in s.fetching {
      assert Enabled(s, FetchSucceeds(w));
    } else if s.workers[w].resultCh == 1 {
      assert Enabled(s, Receive(w, false));
    } else {
      assert Enabled(s, Deliver(w));
    }
  }
}
