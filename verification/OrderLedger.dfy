/**
  The order worker between awaits (bot-service/bot_service/strategy/order_worker.py,
  OrderQueueWorker). Each method is one stretch of code that the event loop runs without interruption:
  the single consumer is at some stage of placing an order, any number of fills may be waiting for
  their event to be written, and the methods may be called in any order their preconditions allow.
*/
module OrderLedger {
  import opened RealSeqs
  import opened CostBasis
  import opened OrderRules

  /** Where the consumer is suspended. */
  datatype Stage = Idle | Placing(req: Request) | Persisting(req: Request, id: string) | Noting

  datatype FillEvent = FillEvent(id: string, symbol: string, side: string, size: real, price: real)

  lemma {:induction false} SumWithout(s: seq<real>, k: nat)
    requires k < |s|
    ensures Sum(s[..k] + s[k + 1..]) == Sum(s) - s[k]
  {
    if k == 0 {
      assert s[..0] + s[1..] == s[1..];
    } else {
      SumWithout(s[1..], k - 1);
      var rest := s[..k] + s[k + 1..];
      assert rest[0] == s[0] && rest[1..] == s[1..][..k - 1] + s[1..][k..];
    }
  }

  /** The peak is the highest the cumulative profit has ever been, starting from zero. */
  ghost predicate IsPeak(peak: real, cumulative: real, levels: seq<real>) {
    && |levels| > 0 && levels[0] == 0.0 && levels[|levels| - 1] == cumulative
    && peak in levels && forall i :: 0 <= i < |levels| ==> levels[i] <= peak
  }

  lemma {:induction false} PeakIsHighest(peak: real, cumulative: real, levels: seq<real>)
    requires IsPeak(peak, cumulative, levels)
    ensures peak >= 0.0 && peak >= cumulative
  {}

  lemma {:induction false} PeakGrows(peak: real, cumulative: real, levels: seq<real>, next: real)
    requires IsPeak(peak, cumulative, levels)
    ensures peak >= 0.0
    ensures IsPeak(if next > peak then next else peak, next, levels + [next])
    ensures next <= if next > peak then next else peak
  {
    assert (levels + [next])[|levels|] == next;
    assert peak in levels + [next];
  }

  lemma {:induction false} DrawdownIsFraction(peak: real, cumulative: real, drawdown: real)
    requires peak >= 0.0 && peak >= cumulative
    requires drawdown == if peak > 0.0 then (peak - cumulative) / peak else 0.0
    ensures drawdown >= 0.0 && drawdown * peak == (if peak > 0.0 then peak - cumulative else 0.0)
  {}

  function Abs(x: real): real {
    if x < 0.0 then -x else x
  }

  class DailyLossCircuitBreaker {
    const limit: real
    var dailyPnl: real
    var trackingDay: int

    constructor (limit: real)
      ensures this.limit == limit && dailyPnl == 0.0
    {
      this.limit := limit;
      dailyPnl, trackingDay := 0.0, -1;
    }

    method RecordPnl(realized: real)
      modifies `dailyPnl
      ensures dailyPnl == old(dailyPnl) + realized
    {
      dailyPnl := dailyPnl + realized;
    }

    predicate IsTripped()
      reads this
    {
      limit != 0.0 && dailyPnl < -Abs(limit)
    }

    method ResetForNewDay(today: int)
      modifies this
      ensures trackingDay == today && dailyPnl == if today == old(trackingDay) then old(dailyPnl) else 0.0
    {
      if today != trackingDay {
        dailyPnl := 0.0;
        trackingDay := today;
      }
    }
  }

  class OrderQueueWorker {
    const portfolio: real
    const maxPositionPct: real
    const hardLimit: real
    const positions: CostBasisTracker
    const breaker: DailyLossCircuitBreaker?
    var queue: seq<Request>
    var stage: Stage
    var openOrders: map<string, Request>
    var positionNotional: map<string, real>
    var seen: set<string>
    var recent: seq<string>
    // profits of the fills whose event is being written; the rest of their handling is still to come
    var tails: seq<real>
    var cumulativePnl: real
    var peakPnl: real
    var tripFired: bool
    var tripCallbacks: nat

    ghost var started: bool
    ghost var trace: Trace
    ghost var handled: seq<string>
    ghost var levels: seq<real>

    function Limit(): real {
      maxPositionPct * portfolio
    }

    function Rules(): Terms {
      Terms(portfolio, Limit(), hardLimit)
    }

    /** What is queued or being placed: still cleared, whatever fills came in since the gates. */
    ghost predicate StageOk()
      reads this
    {
      && (!started ==> stage.Idle? && forall id :: id in openOrders ==> id in trace.restored)
      && (stage.Placing? || stage.Persisting? ==>
        ClearedFor(stage.req, openOrders, positionNotional, trace, Rules()))
    }

    ghost predicate MoneyOk()
      reads this, positions
    {
      && positions.Valid() && |positions.history| == |trace.booked|
      && cumulativePnl + Sum(tails) == TotalRealized(positions.history)
      && IsPeak(peakPnl, cumulativePnl, levels)
    }

    ghost predicate Valid()
      reads this, positions
    {
      && BooksOk(openOrders, positionNotional, trace, Rules()) && StageOk() && MoneyOk() && Remembers(seen, recent, handled)
      && tripCallbacks == if tripFired then 1 else 0
    }

    constructor (portfolio: real, maxPositionPct: real, hardLimit: real, breaker: DailyLossCircuitBreaker?)
      ensures Valid() && stage.Idle? && !started && queue == [] && openOrders == map[] && trace.booked == multiset{} && trace.sized
      ensures this.portfolio == portfolio && this.maxPositionPct == maxPositionPct && this.hardLimit == hardLimit
      ensures this.breaker == breaker && fresh(positions)
    {
      this.portfolio, this.maxPositionPct, this.hardLimit, this.breaker := portfolio, maxPositionPct, hardLimit, breaker;
      positions := new CostBasisTracker();
      queue, stage, openOrders, positionNotional := [], Idle, map[], map[];
      seen, recent, tails, cumulativePnl, peakPnl, tripFired, tripCallbacks := {}, [], [], 0.0, 0.0, false, 0;
      started, trace := false, Trace(true, {}, map[], {}, multiset{}, multiset{}, multiset{});
      handled, levels := [], [0.0];
    }

    method Post(req: Request)
      requires Valid()
      modifies `queue
      ensures Valid() && queue == old(queue) + [req]
    {
      hide BooksOk, Notional, OrderQueueWorker.Limit, Remembers, ClearedFor, IsPeak, Sum, TotalRealized, CostBasisTracker.Valid;
      queue := queue + [req];
    }

    ghost predicate HasSameEntry(req: Request)
      reads this
    {
      exists id :: id in openOrders && SameEntry(openOrders[id], req)
    }

    function IsEntryDedup(req: Request): (r: bool)
      reads this
      ensures r <==> HasSameEntry(req)
    {
      req.role == "entry" &&
      exists id :: id in openOrders && openOrders[id].symbol == req.symbol && openOrders[id].side == req.side && openOrders[id].role == "entry"
    }

    function ExceedsHardLimit(req: Request): bool {
      !Exempt(req) && hardLimit > 0.0 && Notional(req, portfolio) > hardLimit
    }

    function ExceedsRiskGate(req: Request): bool
      reads this
    {
      !Exempt(req) && Get(positionNotional, req.symbol) + Notional(req, portfolio) > Limit()
    }

    /** Takes one request through the gates, up to the call to the exchange. */
    method Process() returns (outcome: Outcome)
      requires Valid() && stage.Idle? && |queue| > 0
      modifies `queue, `stage, `started
      ensures Valid() && started && queue == old(queue[1..])
      ensures stage == if outcome.Sent? then Placing(old(queue[0])) else Idle
      ensures outcome.Deduplicated? <==> HasSameEntry(old(queue[0]))
      ensures outcome.OverHardLimit? <==> !HasSameEntry(old(queue[0])) && ExceedsHardLimit(old(queue[0]))
      ensures outcome.Sent? <==> Cleared(old(queue[0]), openOrders, positionNotional, Limit(), hardLimit, portfolio)
      ensures var r := old(queue[0]);
              DecidedBy(r, openOrders, if r.symbol in positionNotional then positionNotional[r.symbol] else 0.0, outcome,
                        maxPositionPct, hardLimit, portfolio)
    {
      hide BooksOk, Notional, DecidedBy, Remembers, IsPeak, Sum, TotalRealized, CostBasisTracker.Valid;
      var req := queue[0];
      queue, started := queue[1..], true;
      if IsEntryDedup(req) {
        outcome := Deduplicated;
      } else if ExceedsHardLimit(req) {
        outcome := OverHardLimit;
      } else if ExceedsRiskGate(req) {
        outcome := OverLimit;
      } else {
        outcome := Sent;
        stage := Placing(req);
      }
      ClearedIsSent(req, openOrders, positionNotional, outcome, maxPositionPct, hardLimit, portfolio);
    }

    /** The exchange answered: an id, or a rejection or error, whose event is written before going on. */
    method PlaceReturned(accepted: bool, id: string)
      requires Valid() && stage.Placing?
      modifies `stage
      ensures Valid() && stage == if accepted then Persisting(old(stage.req), id) else Noting
    {
      hide BooksOk, Notional, OrderQueueWorker.Limit, Remembers, ClearedFor, IsPeak, Sum, TotalRealized, CostBasisTracker.Valid;
      stage := if accepted then Persisting(stage.req, id) else Noting;
    }

    method FailureNoted()
      requires Valid() && stage.Noting?
      modifies `stage
      ensures Valid() && stage.Idle?
    {
      hide BooksOk, Notional, OrderQueueWorker.Limit, Remembers, ClearedFor, IsPeak, Sum, TotalRealized, CostBasisTracker.Valid;
      stage := Idle;
    }

    /** The 'placed' event is written; only now does the order become open. */
    method PlacedPersisted()
      requires Valid() && stage.Persisting?
      modifies `stage, `openOrders, `positionNotional, `trace
      ensures Valid() && stage.Idle? && openOrders == old(openOrders)[old(stage.id) := old(stage.req)]
      ensures positionNotional == Added(old(positionNotional), old(stage.req), portfolio)
      ensures trace == TraceInsert(old(trace), old(openOrders), old(stage.id), old(stage.req), false, portfolio)
    {
      hide BooksOk, Notional, OrderQueueWorker.Limit, ClearedFor, Remembers, IsPeak, Orphan, Sum, TotalRealized, CostBasisTracker.Valid;
      InsertKeepsBooks(openOrders, positionNotional, trace, Rules(), stage.id, stage.req);
      trace := TraceInsert(trace, openOrders, stage.id, stage.req, false, portfolio);
      positionNotional := positionNotional[stage.req.symbol := Get(positionNotional, stage.req.symbol) + Notional(stage.req, portfolio)];
      openOrders := openOrders[stage.id := stage.req];
      stage := Idle;
    }

    /** Reconciliation, before the consumer runs: no gate applies. */
    method RestoreOpenOrder(id: string, req: Request)
      requires Valid() && !started
      modifies `openOrders, `positionNotional, `trace
      ensures Valid() && openOrders == old(openOrders)[id := req]
      ensures positionNotional == Added(old(positionNotional), req, portfolio)
      ensures trace == TraceInsert(old(trace), old(openOrders), id, req, true, portfolio)
    {
      hide BooksOk, Notional, OrderQueueWorker.Limit, ClearedFor, Remembers, IsPeak, Orphan, Sum, TotalRealized, CostBasisTracker.Valid;
      RestoreKeepsBooks(openOrders, positionNotional, trace, Rules(), id, req);
      trace := TraceInsert(trace, openOrders, id, req, true, portfolio);
      positionNotional := positionNotional[req.symbol := Get(positionNotional, req.symbol) + Notional(req, portfolio)];
      openOrders := openOrders[id := req];
    }

    /** Remembers a fill's id, forgetting the oldest when full. */
    method Remember(id: string) returns (known: bool)
      requires Remembers(seen, recent, handled)
      modifies `seen, `recent, `handled
      ensures Remembers(seen, recent, handled) && (known <==> id in Last(old(handled), 10_000))
      ensures handled == if known then old(handled) else old(handled) + [id]
    {
      hide Last, NoDuplicates;
      known := id in seen;
      if known {
        return;
      }
      RememberOne(seen, recent, handled, id);
      if |recent| == MAX_SEEN {
        seen := seen - {recent[0]};
      }
      seen := seen + {id};
      recent := (if |recent| == MAX_SEEN then recent[1..] else recent) + [id];
      handled := handled + [id];
    }

    /** Takes a filled order off the books. With non-negative notionals its whole notional comes off, unclipped. */
    method Close(id: string)
      requires BooksOk(openOrders, positionNotional, trace, Rules()) && StageOk() && id in openOrders
      modifies `openOrders, `positionNotional, `trace
      ensures BooksOk(openOrders, positionNotional, trace, Rules()) && StageOk()
      ensures openOrders == old(openOrders) - {id} && trace == TraceFill(old(trace), old(openOrders), old(positionNotional), id, portfolio)
      ensures positionNotional == Deducted(old(positionNotional), old(openOrders)[id], portfolio)
      ensures trace.sized ==> !Clips(old(positionNotional), old(openOrders)[id], portfolio)
    {
      hide BooksOk, Notional, OrderQueueWorker.Limit, ClearedFor, Clip, Clips, Sum, TotalRealized, CostBasisTracker.Valid;
      var req := openOrders[id];
      FillKeepsBooks(openOrders, positionNotional, trace, Rules(), id);
      if stage.Placing? || stage.Persisting? {
        FillKeepsCleared(stage.req, openOrders, positionNotional, trace, Rules(), id);
      }
      trace := TraceFill(trace, openOrders, positionNotional, id, portfolio);
      positionNotional := positionNotional[req.symbol := Max(0.0, Get(positionNotional, req.symbol) - Notional(req, portfolio))];
      openOrders := openOrders - {id};
    }

    /** The fill of an open order: off the books, into the position, and on to the writing of its event. */
    method Book(fill: FillEvent)
      requires Valid() && fill.id in openOrders
      modifies `openOrders, `positionNotional, `trace, `tails, positions
      ensures Valid()
      ensures trace == TraceFill(old(trace), old(openOrders), old(positionNotional), fill.id, portfolio) && openOrders == old(openOrders) - {fill.id}
      ensures positionNotional == Deducted(old(positionNotional), old(openOrders)[fill.id], portfolio)
      ensures positions.history == old(positions.history) + [Fill(fill.symbol, fill.side, fill.size, fill.price)]
      ensures |tails| == |old(tails)| + 1 && tails[..|old(tails)|] == old(tails)
    {
      hide BooksOk, Notional, OrderQueueWorker.Limit, Remembers, ClearedFor, IsPeak, CostBasisTracker.Valid, Sum, TotalRealized, Realized, Replay, OfSymbol, CostBasisTracker.Held;
      Close(fill.id);
      var realized := positions.Record(fill.symbol, fill.side, fill.size, fill.price);
      SumSnoc(tails, realized);
      tails := tails + [realized];
    }

    /** A fill up to the writing of its event. It reaches the position exactly if its id is open and not remembered. */
    method HandleFill(fill: FillEvent)
      requires Valid()
      modifies `seen, `recent, `handled, `openOrders, `positionNotional, `trace, `tails, positions
      ensures Valid()
      ensures var known := fill.id in Last(old(handled), 10_000);
              && handled == (if known then old(handled) else old(handled) + [fill.id])
              && if !known && fill.id in old(openOrders) then
                && trace == TraceFill(old(trace), old(openOrders), old(positionNotional), fill.id, portfolio) && openOrders == old(openOrders) - {fill.id}
                && positionNotional == Deducted(old(positionNotional), old(openOrders)[fill.id], portfolio)
                && positions.history == old(positions.history) + [Fill(fill.symbol, fill.side, fill.size, fill.price)]
                && |tails| == |old(tails)| + 1
              else
                && trace == old(trace) && openOrders == old(openOrders) && positionNotional == old(positionNotional)
                && positions.history == old(positions.history) && tails == old(tails)
    {
      hide BooksOk, Notional, OrderQueueWorker.Limit, Remembers, ClearedFor, IsPeak, CostBasisTracker.Valid, Last, Sum, TotalRealized;
      var known := Remember(fill.id);
      if known || fill.id !in openOrders {
        return;
      }
      Book(fill);
    }

    ghost function Breakers(): set<object> {
      if breaker == null then {} else {breaker}
    }

    /** Past the first trip nothing more is recorded and the callback is not called again. */
    method FeedBreaker(realized: real)
      requires tripCallbacks == if tripFired then 1 else 0
      modifies `tripFired, `tripCallbacks, Breakers()
      ensures tripCallbacks == if tripFired then 1 else 0
      ensures breaker == null || old(tripFired) ==> tripFired == old(tripFired)
      ensures breaker != null ==> breaker.dailyPnl == old(breaker.dailyPnl) + if old(tripFired) then 0.0 else realized
      ensures breaker != null && !old(tripFired) ==>
                (tripFired <==> breaker.limit != 0.0 && breaker.dailyPnl < breaker.limit && breaker.dailyPnl < -breaker.limit)
    {
      if breaker != null && !tripFired {
        breaker.RecordPnl(realized);
        if breaker.IsTripped() {
          tripFired := true;
          tripCallbacks := tripCallbacks + 1;
        }
      }
    }

    /** After a fill's event is written: circuit breaker, then cumulative and peak profit and the drawdown. */
    method FinishFill(k: nat) returns (drawdown: real)
      requires Valid() && k < |tails|
      modifies `tails, `cumulativePnl, `peakPnl, `levels, `tripFired, `tripCallbacks, Breakers()
      ensures Valid() && tails == old(tails[..k] + tails[k + 1..])
      ensures cumulativePnl == old(cumulativePnl) + old(tails[k])
      ensures peakPnl == (if cumulativePnl > old(peakPnl) then cumulativePnl else old(peakPnl)) && levels == old(levels) + [cumulativePnl]
      // the fraction of the peak that has been lost again
      ensures drawdown >= 0.0 && drawdown * peakPnl == (if peakPnl > 0.0 then peakPnl - cumulativePnl else 0.0)
      ensures peakPnl == 0.0 ==> drawdown == 0.0
      ensures breaker == null || old(tripFired) ==> tripFired == old(tripFired)
      ensures breaker != null ==>
                breaker.dailyPnl == old(breaker.dailyPnl) + if old(tripFired) then 0.0 else old(tails[k])
      ensures breaker != null && !old(tripFired) ==>
                (tripFired <==> breaker.limit != 0.0 && breaker.dailyPnl < breaker.limit && breaker.dailyPnl < -breaker.limit)
    {
      hide BooksOk, Notional, OrderQueueWorker.Limit, Remembers, ClearedFor, CostBasisTracker.Valid, Sum, TotalRealized, IsPeak,
        DailyLossCircuitBreaker.IsTripped;
      PeakIsHighest(peakPnl, cumulativePnl, levels);
      FeedBreaker(tails[k]);
      Settle(k);
      PeakIsHighest(peakPnl, cumulativePnl, levels);
      drawdown := if peakPnl > 0.0 then (peakPnl - cumulativePnl) / peakPnl else 0.0;
      DrawdownIsFraction(peakPnl, cumulativePnl, drawdown);
    }

    /** The fill's profit is no longer pending but earned. */
    method Settle(k: nat)
      requires MoneyOk() && k < |tails|
      modifies `tails, `cumulativePnl, `peakPnl, `levels
      ensures MoneyOk() && tails == old(tails[..k] + tails[k + 1..]) && cumulativePnl == old(cumulativePnl) + old(tails[k])
      ensures peakPnl == (if cumulativePnl > old(peakPnl) then cumulativePnl else old(peakPnl)) && levels == old(levels) + [cumulativePnl]
    {
      hide CostBasisTracker.Valid, Sum, TotalRealized, IsPeak;
      var realized := tails[k];
      SumWithout(tails, k);
      PeakGrows(peakPnl, cumulativePnl, levels, cumulativePnl + realized);
      tails := tails[..k] + tails[k + 1..];
      cumulativePnl := cumulativePnl + realized;
      if cumulativePnl > peakPnl {
        peakPnl := cumulativePnl;
      }
      levels := levels + [cumulativePnl];
    }
  }

  /**
    If the exchange never gives an id out twice, for sizes of any sign: the position notional of a symbol is
    never below that of its open orders, and equals it if and only if no fill there was clipped; and each
    order's fill reaches the profit at most once, whatever was evicted in between.
  */
  lemma {:induction false} WithFreshIds(w: OrderQueueWorker)
    requires w.Valid() && forall id :: w.trace.inserted[id] <= 1
    ensures forall s :: Get(w.positionNotional, s) >= OpenNotional(w.openOrders, s, w.portfolio)
    ensures forall s :: Get(w.positionNotional, s) == OpenNotional(w.openOrders, s, w.portfolio) <==> s !in w.trace.clipped
    ensures forall id :: w.trace.booked[id] <= 1 && (id in w.openOrders ==> w.trace.booked[id] == 0)
  {
    hide OpenNotional, Notional;
    assert forall id :: w.trace.overwritten[id] == 0;
    assert w.trace.overwritten == multiset{};
  }

  /** Without negative sizes no fill is ever clipped. */
  lemma {:induction false} SizedIsNeverClipped(w: OrderQueueWorker)
    requires w.Valid() && w.trace.sized
    ensures w.trace.clipped == {} && forall s :: Get(w.positionNotional, s) >= OpenNotional(w.openOrders, s, w.portfolio)
  {
    hide OpenNotional, Notional;
  }

  /** In every run, for sizes of any sign: what the gated orders open on a symbol add up to. */
  lemma {:induction false} GatedOverRuns(w: OrderQueueWorker, s: string)
    requires w.Valid()
    ensures GatedNotional(w.openOrders, s, w.portfolio) ==
            Get(w.positionNotional, s) - ExemptNotional(w.openOrders, s, w.portfolio) - Get(w.trace.excess, s)
  {
    GatedAndExempt(w.openOrders, s, w.portfolio);
    hide Notional;
  }

  /** Where this process placed a gated order that is still open on a symbol, open entries there are within the limit. */
  lemma {:induction false} EntriesWithinLimit(w: OrderQueueWorker, id: string)
    requires w.Valid() && id in w.openOrders && id !in w.trace.restored && !Exempt(w.openOrders[id])
    ensures w.trace.sized ==> GatedNotional(w.openOrders, w.openOrders[id].symbol, w.portfolio) <= w.maxPositionPct * w.portfolio
    ensures w.openOrders[id].role == "entry" ==>
              forall j :: j in w.openOrders && SameEntry(w.openOrders[id], w.openOrders[j]) ==> j == id
  {}

  /** Once no fill is half handled, in whatever order they finished, the profit is that of the fills recorded. */
  lemma {:induction false} SettledProfit(w: OrderQueueWorker)
    requires w.Valid() && |w.tails| == 0
    ensures w.cumulativePnl == TotalRealized(w.positions.history)
  {}

  /**
    A fill that arrives while the 'placed' event is being written is lost: it is remembered but finds no
    order, the order then becomes open, and the same fill delivered again is taken for a duplicate.
  */
  method EarlyFillIsLost(w: OrderQueueWorker, fill: FillEvent)
    requires w.Valid() && w.stage.Persisting? && w.stage.id == fill.id
    requires fill.id !in w.openOrders && fill.id !in w.handled
    modifies w, w.positions
    ensures w.Valid() && fill.id in w.openOrders
    ensures w.positions.history == old(w.positions.history) && w.tails == old(w.tails) && w.trace.booked == old(w.trace.booked)
    ensures Get(w.positionNotional, old(w.stage.req).symbol) ==
            Get(old(w.positionNotional), old(w.stage.req).symbol) + Notional(old(w.stage.req), w.portfolio)
  {
    hide OrderQueueWorker.Valid, Notional;
    ghost var past := w.handled;
    w.HandleFill(fill);
    assert past == w.handled[..|past|];
    assert w.handled[|w.handled| - 1] == fill.id;
    assert fill.id in Last(w.handled, MAX_SEEN);
    w.PlacedPersisted();
    w.HandleFill(fill);
  }

  /** One entry that passes the gates, is placed and filled: the books are as before, the position has grown. */
  method EnterOnce(w: OrderQueueWorker, req: Request, id: string, qty: real, price: real)
    requires w.Valid() && w.stage.Idle? && |w.queue| == 0 && id !in w.openOrders && id !in w.handled
    requires Cleared(req, w.openOrders, w.positionNotional, w.Limit(), w.hardLimit, w.portfolio)
    requires Get(w.positionNotional, req.symbol) >= 0.0
    modifies w, w.positions
    ensures w.Valid() && w.stage.Idle? && |w.queue| == 0 && w.openOrders == old(w.openOrders) && w.handled == old(w.handled) + [id]
    ensures forall s :: Get(w.positionNotional, s) == Get(old(w.positionNotional), s)
    ensures w.positions.Held(req.symbol).qty == old(w.positions.Held(req.symbol).qty) + qty
  {
    hide BooksOk, Notional, OrderQueueWorker.Limit, Remembers, ClearedFor, IsPeak, Sum, TotalRealized, Realized, Replay, OfSymbol,
      TraceInsert, TraceFill, Added, Deducted, Last, OrderQueueWorker.ExceedsHardLimit;
    ghost var books, notional, past, handled := w.openOrders, w.positionNotional, w.positions.history, w.handled;
    var fill := FillEvent(id, req.symbol, "buy", qty, price);
    w.Post(req);
    var outcome := w.Process();
    w.PlaceReturned(true, id);
    w.PlacedPersisted();
    NotLast(handled, id, MAX_SEEN);
    w.HandleFill(fill);
    assert books[id := req] - {id} == books;
    forall s ensures Get(w.positionNotional, s) == Get(notional, s) {
      PlacedAndFilled(notional, req, w.portfolio, s);
    }
    BuyAdds(past, Fill(req.symbol, "buy", qty, price));
  }

  lemma {:induction false} NotLast(ids: seq<string>, id: string, n: nat)
    requires id !in ids
    ensures id !in Last(ids, n)
  {}

  lemma {:induction false} BuyAdds(past: seq<Fill>, f: Fill)
    requires f.side == "buy"
    ensures Replay(OfSymbol(past + [f], f.symbol)).qty == Replay(OfSymbol(past, f.symbol)).qty + f.qty
  {
    FillReplays(past, f);
    hide Replay, OfSymbol;
  }

  /**
    The risk gate does not bound the position: entries placed and filled one after another pass it as often
    as ids can be had, and leave the notional it looks at unchanged.
  */
  method EntriesNeverFillTheGate(w: OrderQueueWorker, req: Request, ids: seq<string>, qty: real, price: real)
    requires w.Valid() && w.stage.Idle? && |w.queue| == 0 && NoDuplicates(ids)
    requires forall id :: id in ids ==> id !in w.openOrders && id !in w.handled
    requires Cleared(req, w.openOrders, w.positionNotional, w.Limit(), w.hardLimit, w.portfolio)
    requires Get(w.positionNotional, req.symbol) >= 0.0
    modifies w, w.positions
    ensures w.Valid() && w.openOrders == old(w.openOrders)
    ensures forall s :: Get(w.positionNotional, s) == Get(old(w.positionNotional), s)
    ensures w.positions.Held(req.symbol).qty == old(w.positions.Held(req.symbol).qty) + |ids| as real * qty
  {
    hide OrderQueueWorker.Valid, Notional, OrderQueueWorker.Limit;
    for i := 0 to |ids|
      invariant w.Valid() && w.stage.Idle? && |w.queue| == 0 && w.openOrders == old(w.openOrders)
      invariant w.handled == old(w.handled) + ids[..i]
      invariant forall s :: Get(w.positionNotional, s) == Get(old(w.positionNotional), s)
      invariant w.positions.Held(req.symbol).qty == old(w.positions.Held(req.symbol).qty) + i as real * qty
    {
      assert ids[i] in ids && ids[i] !in ids[..i];
      EnterOnce(w, req, ids[i], qty, price);
      assert ids[..i + 1] == ids[..i] + [ids[i]];
      assert (i + 1) as real * qty == i as real * qty + qty;
    }
    assert ids[..|ids|] == ids;
  }
}
