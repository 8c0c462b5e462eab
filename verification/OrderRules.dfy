/**
  What the order worker's in-memory state must satisfy, as predicates on values, and how its two
  basic changes keep them: an order is inserted, an order is removed
  (bot-service/bot_service/strategy/order_worker.py).
*/
module OrderRules {
  import opened MapSums

  /** `size` is a fraction of the portfolio. */
  datatype Request = Request(symbol: string, side: string, role: string, size: real)

  datatype Outcome = Deduplicated | OverHardLimit | OverLimit | Sent

  function Get(m: map<string, real>, key: string): real {
    if key in m then m[key] else 0.0
  }

  function Notional(r: Request, portfolio: real): real {
    r.size * portfolio
  }

  /** Exit and stop orders pass both notional gates. */
  predicate Exempt(r: Request) {
    r.role == "exit" || r.role == "stop"
  }

  predicate SameEntry(a: Request, b: Request) {
    a.role == "entry" && b.role == "entry" && a.symbol == b.symbol && a.side == b.side
  }

  ghost function NotionalOn(symbol: string, portfolio: real): Request -> real {
    (r: Request) => if r.symbol == symbol then Notional(r, portfolio) else 0.0
  }

  ghost function GatedOn(symbol: string, portfolio: real): Request -> real {
    (r: Request) => if r.symbol == symbol && !Exempt(r) then Notional(r, portfolio) else 0.0
  }

  ghost function OpenNotional(open: map<string, Request>, symbol: string, portfolio: real): real {
    SumMap(open, NotionalOn(symbol, portfolio))
  }

  ghost function GatedNotional(open: map<string, Request>, symbol: string, portfolio: real): real {
    SumMap(open, GatedOn(symbol, portfolio))
  }

  ghost predicate NotionalsSized(open: map<string, Request>, portfolio: real) {
    forall id :: id in open ==> Notional(open[id], portfolio) >= 0.0
  }

  /**
    The position notional is that of the open orders plus `excess`: the notional of orders whose id the
    exchange gave out again while they were open, and what the clip at zero added. Sizes may have any sign.
  */
  ghost predicate Balanced(open: map<string, Request>, notional: map<string, real>, excess: map<string, real>, portfolio: real) {
    forall s :: Get(notional, s) == OpenNotional(open, s, portfolio) + Get(excess, s)
  }

  /** Two open entries for one symbol and side exist only if reconciliation restored both. */
  ghost predicate EntriesUnique(open: map<string, Request>, restored: set<string>) {
    forall i, j :: i in open && j in open && i != j && SameEntry(open[i], open[j]) ==> i in restored && j in restored
  }

  /** Where this process placed any gated order still open, the gated orders together are within the limit. */
  ghost predicate WithinLimit(open: map<string, Request>, restored: set<string>, limit: real, portfolio: real) {
    forall id :: id in open && id !in restored && !Exempt(open[id]) ==> GatedNotional(open, open[id].symbol, portfolio) <= limit
  }

  ghost predicate WithinHardLimit(open: map<string, Request>, restored: set<string>, hardLimit: real, portfolio: real) {
    forall id :: id in open && id !in restored && !Exempt(open[id]) && hardLimit > 0.0 ==> Notional(open[id], portfolio) <= hardLimit
  }

  /** Passes all three gates. */
  ghost predicate Cleared(r: Request, open: map<string, Request>, notional: map<string, real>, limit: real, hardLimit: real, portfolio: real) {
    && (forall id :: id in open ==> !SameEntry(open[id], r))
    && PassesRiskGate(r, notional, limit, portfolio)
    && (!Exempt(r) && hardLimit > 0.0 ==> Notional(r, portfolio) <= hardLimit)
  }

  predicate IsOpenEntry(r: Request, open: map<string, Request>) {
    exists id :: id in open && open[id].role == "entry" && open[id].symbol == r.symbol && open[id].side == r.side
  }

  /** The three gates in order; an exit or a stop passes all of them, and only an entry can be a duplicate. */
  predicate DecidedBy(r: Request, open: map<string, Request>, held: real, outcome: Outcome,
                      maxPositionPct: real, hardLimit: real, portfolio: real)
  {
    if r.role == "exit" || r.role == "stop" then outcome == Sent
    else if r.role == "entry" && IsOpenEntry(r, open) then outcome == Deduplicated
    else if hardLimit > 0.0 && r.size * portfolio > hardLimit then outcome == OverHardLimit
    else if held + r.size * portfolio > maxPositionPct * portfolio then outcome == OverLimit
    else outcome == Sent
  }

  lemma {:induction false} ClearedIsSent(r: Request, open: map<string, Request>, notional: map<string, real>, outcome: Outcome,
                                         maxPositionPct: real, hardLimit: real, portfolio: real)
    requires outcome.Deduplicated? <==> exists id :: id in open && SameEntry(open[id], r)
    requires outcome.OverHardLimit? <==> !outcome.Deduplicated? && !Exempt(r) && hardLimit > 0.0 && Notional(r, portfolio) > hardLimit
    requires outcome.Sent? <==> Cleared(r, open, notional, maxPositionPct * portfolio, hardLimit, portfolio)
    ensures DecidedBy(r, open, if r.symbol in notional then notional[r.symbol] else 0.0, outcome, maxPositionPct, hardLimit, portfolio)
  {}

  function Added(notional: map<string, real>, r: Request, portfolio: real): map<string, real> {
    notional[r.symbol := Get(notional, r.symbol) + Notional(r, portfolio)]
  }

  /** Clipped at zero, as in the source. */
  function Deducted(notional: map<string, real>, r: Request, portfolio: real): map<string, real> {
    notional[r.symbol := if Get(notional, r.symbol) - Notional(r, portfolio) > 0.0 then Get(notional, r.symbol) - Notional(r, portfolio) else 0.0]
  }

  /** An order moves its own symbol's notional by its fraction of the portfolio, not below zero on a fill, and no other symbol's. */
  lemma {:induction false} MovesByNotional(notional: map<string, real>, r: Request, portfolio: real, symbol: string)
    ensures var added, deducted := Added(notional, r, portfolio), Deducted(notional, r, portfolio);
            var before := if symbol in notional then notional[symbol] else 0.0;
            if symbol == r.symbol then
              && symbol in added && added[symbol] == before + r.size * portfolio
              && symbol in deducted && deducted[symbol] == if before >= r.size * portfolio then before - r.size * portfolio else 0.0
            else
              && (symbol in added <==> symbol in notional) && (symbol in added ==> added[symbol] == before)
              && (symbol in deducted <==> symbol in notional) && (symbol in deducted ==> deducted[symbol] == before)
  {}

  /** The clip takes the other branch: less is on the books than the order's own notional. */
  predicate Clips(notional: map<string, real>, r: Request, portfolio: real) {
    Get(notional, r.symbol) < Notional(r, portfolio)
  }

  ghost function Orphan(open: map<string, Request>, id: string, excess: map<string, real>, portfolio: real): map<string, real> {
    if id in open then excess[open[id].symbol := Get(excess, open[id].symbol) + Notional(open[id], portfolio)] else excess
  }

  ghost function Clip(notional: map<string, real>, r: Request, excess: map<string, real>, portfolio: real): map<string, real> {
    if Clips(notional, r, portfolio)
    then excess[r.symbol := Get(excess, r.symbol) + Notional(r, portfolio) - Get(notional, r.symbol)]
    else excess
  }

  lemma {:induction false} InsertKeepsBalance(open: map<string, Request>, notional: map<string, real>, excess: map<string, real>,
                                              id: string, r: Request, portfolio: real)
    requires Balanced(open, notional, excess, portfolio)
    ensures Balanced(open[id := r], Added(notional, r, portfolio), Orphan(open, id, excess, portfolio), portfolio)
  {
    hide Notional;
    var n', e' := Added(notional, r, portfolio), Orphan(open, id, excess, portfolio);
    forall s ensures Get(n', s) == OpenNotional(open[id := r], s, portfolio) + Get(e', s) {
      SumMapPuts(open, id, r, NotionalOn(s, portfolio));
    }
  }

  /** A fill, clipped or not: what the clip adds is exactly the new excess. */
  lemma {:induction false} FillMovesBalance(open: map<string, Request>, notional: map<string, real>, excess: map<string, real>,
                                            id: string, portfolio: real)
    requires Balanced(open, notional, excess, portfolio) && id in open
    ensures Balanced(open - {id}, Deducted(notional, open[id], portfolio), Clip(notional, open[id], excess, portfolio), portfolio)
  {
    hide Notional;
    var r := open[id];
    var n', e' := Deducted(notional, r, portfolio), Clip(notional, r, excess, portfolio);
    forall s ensures Get(n', s) == OpenNotional(open - {id}, s, portfolio) + Get(e', s) {
      SumMapTakes(open, id, NotionalOn(s, portfolio));
    }
  }

  /** A fill keeps the balance as it is if and only if the books hold at least the order's own notional. */
  lemma {:induction false} FillKeepsBalanceIff(open: map<string, Request>, notional: map<string, real>, excess: map<string, real>,
                                               id: string, portfolio: real)
    requires Balanced(open, notional, excess, portfolio) && id in open
    ensures Balanced(open - {id}, Deducted(notional, open[id], portfolio), excess, portfolio) <==>
            Get(notional, open[id].symbol) >= Notional(open[id], portfolio)
  {
    var r := open[id];
    FillMovesBalance(open, notional, excess, id, portfolio);
    hide Notional, OpenNotional;
    if Clips(notional, r, portfolio) {
      assert Get(Clip(notional, r, excess, portfolio), r.symbol) > Get(excess, r.symbol);
    }
  }

  /** With a negative size open, a fill can be clipped: the order stays open, and its notional is forgotten. */
  lemma {:induction false} NegativeSizeLosesBalance(portfolio: real)
    requires portfolio > 0.0
    ensures var short, long := Request("s", "sell", "exit", -1.0), Request("s", "buy", "exit", 0.5);
            var before := Added(Added(map[], short, portfolio), long, portfolio);
            && Clips(before, long, portfolio) && Get(Deducted(before, long, portfolio), "s") == 0.0
            && OpenNotional(map["a" := short], "s", portfolio) == -portfolio
  {
    var one := map["a" := Request("s", "sell", "exit", -1.0)];
    var f := NotionalOn("s", portfolio);
    SumMapTakes(one, "a", f);
    assert one - {"a"} == map[];
    assert SumMap(one - {"a"}, f) == 0.0;
  }

  /** With non-negative notionals an open order is always covered, so the clip does not act. */
  lemma {:induction false} NotionalCovers(open: map<string, Request>, notional: map<string, real>, excess: map<string, real>,
                                          id: string, portfolio: real)
    requires Balanced(open, notional, excess, portfolio) && NotionalsSized(open, portfolio) && id in open
    requires Get(excess, open[id].symbol) >= 0.0
    ensures !Clips(notional, open[id], portfolio)
  {
    hide Notional;
    var f := NotionalOn(open[id].symbol, portfolio);
    SumMapTakes(open, id, f);
    SumMapNonNegative(open - {id}, f);
  }

  // ---- What the risk gate bounds ----

  predicate PassesRiskGate(r: Request, notional: map<string, real>, limit: real, portfolio: real) {
    Exempt(r) || Get(notional, r.symbol) + Notional(r, portfolio) <= limit
  }

  ghost function ExemptOn(symbol: string, portfolio: real): Request -> real {
    (r: Request) => if r.symbol == symbol && Exempt(r) then Notional(r, portfolio) else 0.0
  }

  ghost function ExemptNotional(open: map<string, Request>, symbol: string, portfolio: real): real {
    SumMap(open, ExemptOn(symbol, portfolio))
  }

  lemma {:induction false} GatedAndExempt(open: map<string, Request>, symbol: string, portfolio: real)
    ensures OpenNotional(open, symbol, portfolio) == GatedNotional(open, symbol, portfolio) + ExemptNotional(open, symbol, portfolio)
  {
    hide Notional;
    SumMapSplits(open, NotionalOn(symbol, portfolio), GatedOn(symbol, portfolio), ExemptOn(symbol, portfolio));
  }

  /** What an order under this id counts for already. */
  ghost function Replaced(open: map<string, Request>, id: string, symbol: string, portfolio: real): real {
    if id in open then GatedOn(symbol, portfolio)(open[id]) else 0.0
  }

  /** After a gated order is inserted, for sizes of any sign: the gated notional in terms of what the gate looked at. */
  lemma {:induction false} GatedAfterInsert(open: map<string, Request>, notional: map<string, real>, excess: map<string, real>,
                                            id: string, r: Request, portfolio: real)
    requires Balanced(open, notional, excess, portfolio) && !Exempt(r)
    ensures GatedNotional(open[id := r], r.symbol, portfolio) ==
            Get(notional, r.symbol) + Notional(r, portfolio)
            - ExemptNotional(open, r.symbol, portfolio) - Get(excess, r.symbol) - Replaced(open, id, r.symbol, portfolio)
  {
    hide Notional;
    GatedAndExempt(open, r.symbol, portfolio);
    SumMapPuts(open, id, r, GatedOn(r.symbol, portfolio));
  }

  /** The bound the gate gives for sizes of any sign. */
  lemma {:induction false} GateBound(open: map<string, Request>, notional: map<string, real>, excess: map<string, real>,
                                     id: string, r: Request, limit: real, portfolio: real)
    requires Balanced(open, notional, excess, portfolio) && !Exempt(r) && PassesRiskGate(r, notional, limit, portfolio)
    ensures GatedNotional(open[id := r], r.symbol, portfolio) <=
            limit - ExemptNotional(open, r.symbol, portfolio) - Get(excess, r.symbol) - Replaced(open, id, r.symbol, portfolio)
  {
    GatedAfterInsert(open, notional, excess, id, r, portfolio);
    hide Notional, GatedNotional, ExemptNotional;
  }

  /**
    The gate keeps the gated notional of a symbol within the limit, whatever order passes it, if and only if
    the exempt orders open there and the excess are together not negative.
  */
  lemma {:induction false} GateKeepsLimitIff(open: map<string, Request>, notional: map<string, real>, excess: map<string, real>,
                                             id: string, symbol: string, limit: real, portfolio: real)
    requires Balanced(open, notional, excess, portfolio) && id !in open && portfolio != 0.0
    ensures (forall r: Request :: r.symbol == symbol && !Exempt(r) && PassesRiskGate(r, notional, limit, portfolio) ==>
               GatedNotional(open[id := r], symbol, portfolio) <= limit)
            <==> ExemptNotional(open, symbol, portfolio) + Get(excess, symbol) >= 0.0
  {
    if ExemptNotional(open, symbol, portfolio) + Get(excess, symbol) >= 0.0 {
      forall r: Request | r.symbol == symbol && !Exempt(r) && PassesRiskGate(r, notional, limit, portfolio)
        ensures GatedNotional(open[id := r], symbol, portfolio) <= limit
      {
        GateBound(open, notional, excess, id, r, limit, portfolio);
      }
    } else {
      var r := JustPasses(notional, symbol, limit, portfolio);
      GatedAfterInsert(open, notional, excess, id, r, portfolio);
      assert GatedNotional(open[id := r], symbol, portfolio) > limit;
    }
  }

  /** The largest order the gate lets through. */
  function JustPasses(notional: map<string, real>, symbol: string, limit: real, portfolio: real): (r: Request)
    requires portfolio != 0.0
    ensures r.symbol == symbol && !Exempt(r) && Get(notional, symbol) + Notional(r, portfolio) == limit
  {
    Request(symbol, "buy", "entry", (limit - Get(notional, symbol)) / portfolio)
  }

  /** With an exit of negative size open, an entry of the whole portfolio passes a 10% gate. */
  lemma {:induction false} GateLetsThrough(portfolio: real)
    requires portfolio > 0.0
    ensures var exit, entry := Request("s", "sell", "exit", -1.0), Request("s", "buy", "entry", 1.0);
            var notional, limit := Added(map[], exit, portfolio), 0.1 * portfolio;
            && PassesRiskGate(entry, notional, limit, portfolio)
            && GatedNotional(map["a" := exit]["b" := entry], "s", portfolio) == portfolio > limit
  {
    var exit, entry := Request("s", "sell", "exit", -1.0), Request("s", "buy", "entry", 1.0);
    var open := map["a" := exit]["b" := entry];
    var f := GatedOn("s", portfolio);
    SumMapTakes(open, "b", f);
    assert open - {"b"} == map["a" := exit];
    SumMapTakes(map["a" := exit], "a", f);
    assert map["a" := exit] - {"a"} == map[];
  }

  /** With non-negative notionals the exempt orders and the excess are not negative, so the limit holds. */
  lemma {:induction false} InsertKeepsLimit(open: map<string, Request>, notional: map<string, real>, excess: map<string, real>,
                                            restored: set<string>, id: string, r: Request, limit: real, portfolio: real)
    requires Balanced(open, notional, excess, portfolio) && NotionalsSized(open, portfolio) && Notional(r, portfolio) >= 0.0
    requires forall s :: Get(excess, s) >= 0.0
    requires PassesRiskGate(r, notional, limit, portfolio) && WithinLimit(open, restored, limit, portfolio)
    ensures WithinLimit(open[id := r], restored - {id}, limit, portfolio)
  {
    hide Notional;
    var open' := open[id := r];
    forall k | k in open' && k !in restored - {id} && !Exempt(open'[k])
      ensures GatedNotional(open', open'[k].symbol, portfolio) <= limit
    {
      var s := open'[k].symbol;
      if s == r.symbol && !Exempt(r) {
        ExemptNonNegative(open, s, portfolio);
        GateBound(open, notional, excess, id, r, limit, portfolio);
      } else {
        SumMapPuts(open, id, r, GatedOn(s, portfolio));
      }
    }
  }

  lemma {:induction false} ExemptNonNegative(open: map<string, Request>, symbol: string, portfolio: real)
    requires NotionalsSized(open, portfolio)
    ensures ExemptNotional(open, symbol, portfolio) >= 0.0
  {
    hide Notional;
    SumMapNonNegative(open, ExemptOn(symbol, portfolio));
  }

  // ---- What the risk gate does not bound: the position itself ----

  /** An order placed and filled leaves the books as they were, if they were not negative. */
  lemma {:induction false} PlacedAndFilled(notional: map<string, real>, r: Request, portfolio: real, s: string)
    requires Get(notional, r.symbol) >= 0.0
    ensures Get(Deducted(Added(notional, r, portfolio), r, portfolio), s) == Get(notional, s)
  {
    hide Notional;
  }

  /**
    Counting `held` of a symbol as well: the gate keeps held and open together within the limit, whatever
    order passes it, if and only if nothing is held.
  */
  lemma {:induction false} GateBoundsPositionIff(notional: map<string, real>, symbol: string, held: real, limit: real, portfolio: real)
    requires portfolio != 0.0 && held >= 0.0
    ensures (forall r: Request :: r.symbol == symbol && !Exempt(r) && PassesRiskGate(r, notional, limit, portfolio) ==>
               held + Get(Added(notional, r, portfolio), symbol) <= limit)
            <==> held == 0.0
  {
    var r := JustPasses(notional, symbol, limit, portfolio);
    assert Get(Added(notional, r, portfolio), symbol) == limit;
    hide Notional;
  }

  /** ... and one open entry per symbol and side, and every gated order within the hard cap. */
  lemma {:induction false} InsertKeepsUnique(open: map<string, Request>, restored: set<string>, id: string, r: Request, hardLimit: real, portfolio: real)
    requires forall k :: k in open ==> !SameEntry(open[k], r)
    requires !Exempt(r) && hardLimit > 0.0 ==> Notional(r, portfolio) <= hardLimit
    requires EntriesUnique(open, restored) && WithinHardLimit(open, restored, hardLimit, portfolio)
    ensures EntriesUnique(open[id := r], restored - {id}) && WithinHardLimit(open[id := r], restored - {id}, hardLimit, portfolio)
  {
    hide Notional;
  }

  /** Before the consumer runs every open order is a restored one. */
  lemma {:induction false} RestoreKeepsLimits(open: map<string, Request>, restored: set<string>, id: string, r: Request,
                                              limit: real, hardLimit: real, portfolio: real)
    requires forall k :: k in open ==> k in restored
    ensures EntriesUnique(open[id := r], restored + {id})
    ensures WithinLimit(open[id := r], restored + {id}, limit, portfolio)
    ensures WithinHardLimit(open[id := r], restored + {id}, hardLimit, portfolio)
  {}

  lemma {:induction false} RemoveKeepsLimit(open: map<string, Request>, restored: set<string>, id: string, limit: real, portfolio: real)
    requires NotionalsSized(open, portfolio) && id in open && WithinLimit(open, restored, limit, portfolio)
    ensures WithinLimit(open - {id}, restored, limit, portfolio)
  {
    hide Notional;
    forall k | k in open - {id} && k !in restored && !Exempt(open[k])
      ensures GatedNotional(open - {id}, open[k].symbol, portfolio) <= limit
    {
      SumMapTakes(open, id, GatedOn(open[k].symbol, portfolio));
    }
  }

  // ---- The books as a whole ----

  datatype Terms = Terms(portfolio: real, limit: real, hardLimit: real)

  /**
    How often each id was inserted, filled and overwritten, and what is known of the open ones. `sized` says
    that no order with a negative notional was ever inserted, `clipped` on which symbols a fill was clipped.
  */
  datatype Trace = Trace(sized: bool, restored: set<string>, excess: map<string, real>, clipped: set<string>,
                         inserted: multiset<string>, booked: multiset<string>, overwritten: multiset<string>)

  /** Every time an id was inserted it was booked, overwritten, or is open now. */
  ghost predicate Accounted(t: Trace, open: map<string, Request>) {
    && (forall id :: t.inserted[id] == t.booked[id] + t.overwritten[id] + if id in open then 1 else 0)
    && (forall id :: t.overwritten[id] > 0 ==> t.inserted[id] > 1)
  }

  /** Without overwritten orders all the excess comes from clips. */
  ghost predicate ClipsOnly(t: Trace) {
    t.overwritten == multiset{} ==> forall s :: Get(t.excess, s) >= 0.0 && (Get(t.excess, s) > 0.0 <==> s in t.clipped)
  }

  /** What non-negative notionals give. */
  ghost predicate SizedOk(open: map<string, Request>, t: Trace, terms: Terms) {
    && NotionalsSized(open, terms.portfolio) && WithinLimit(open, t.restored, terms.limit, terms.portfolio)
    && t.clipped == {} && forall s :: Get(t.excess, s) >= 0.0
  }

  ghost predicate BooksOk(open: map<string, Request>, notional: map<string, real>, t: Trace, terms: Terms) {
    && Balanced(open, notional, t.excess, terms.portfolio) && ClipsOnly(t) && (t.sized ==> SizedOk(open, t, terms))
    && EntriesUnique(open, t.restored) && WithinHardLimit(open, t.restored, terms.hardLimit, terms.portfolio)
    && Accounted(t, open)
  }

  /** A request that passed the gates still does, whatever was filled since. */
  ghost predicate ClearedFor(r: Request, open: map<string, Request>, notional: map<string, real>, t: Trace, terms: Terms) {
    && (forall id :: id in open ==> !SameEntry(open[id], r))
    && (t.sized ==> PassesRiskGate(r, notional, terms.limit, terms.portfolio))
    && (!Exempt(r) && terms.hardLimit > 0.0 ==> Notional(r, terms.portfolio) <= terms.hardLimit)
  }

  ghost function TraceInsert(t: Trace, open: map<string, Request>, id: string, r: Request, isRestored: bool, portfolio: real): Trace {
    Trace(t.sized && Notional(r, portfolio) >= 0.0,
          if isRestored then t.restored + {id} else t.restored - {id}, Orphan(open, id, t.excess, portfolio), t.clipped,
          t.inserted + multiset{id}, t.booked, t.overwritten + if id in open then multiset{id} else multiset{})
  }

  ghost function TraceFill(t: Trace, open: map<string, Request>, notional: map<string, real>, id: string, portfolio: real): Trace
    requires id in open
  {
    t.(booked := t.booked + multiset{id}, excess := Clip(notional, open[id], t.excess, portfolio),
       clipped := if Clips(notional, open[id], portfolio) then t.clipped + {open[id].symbol} else t.clipped)
  }

  lemma {:induction false} InsertIsAccounted(t: Trace, open: map<string, Request>, id: string, r: Request, isRestored: bool, portfolio: real)
    requires Accounted(t, open)
    ensures Accounted(TraceInsert(t, open, id, r, isRestored, portfolio), open[id := r])
  {
    hide Notional, Orphan;
  }

  lemma {:induction false} InsertKeepsClipsOnly(t: Trace, open: map<string, Request>, id: string, r: Request, isRestored: bool, portfolio: real)
    requires ClipsOnly(t)
    ensures ClipsOnly(TraceInsert(t, open, id, r, isRestored, portfolio))
  {
    hide Notional;
    var t' := TraceInsert(t, open, id, r, isRestored, portfolio);
    if id in open {
      assert t'.overwritten[id] > 0;
    } else {
      assert t'.overwritten == t.overwritten;
    }
  }

  lemma {:induction false} InsertKeepsSized(open: map<string, Request>, t: Trace, terms: Terms, id: string, r: Request, isRestored: bool)
    requires SizedOk(open, t, terms) && Notional(r, terms.portfolio) >= 0.0
    requires WithinLimit(open[id := r], TraceInsert(t, open, id, r, isRestored, terms.portfolio).restored, terms.limit, terms.portfolio)
    ensures SizedOk(open[id := r], TraceInsert(t, open, id, r, isRestored, terms.portfolio), terms)
  {
    hide Notional, WithinLimit;
    var t' := TraceInsert(t, open, id, r, isRestored, terms.portfolio);
    forall s ensures Get(t'.excess, s) >= 0.0 {
      assert Get(t.excess, s) >= 0.0;
    }
    assert NotionalsSized(open[id := r], terms.portfolio);
  }

  lemma {:induction false} InsertKeepsBooks(open: map<string, Request>, notional: map<string, real>, t: Trace, terms: Terms,
                                            id: string, r: Request)
    requires BooksOk(open, notional, t, terms) && ClearedFor(r, open, notional, t, terms)
    ensures BooksOk(open[id := r], Added(notional, r, terms.portfolio), TraceInsert(t, open, id, r, false, terms.portfolio), terms)
  {
    var t' := TraceInsert(t, open, id, r, false, terms.portfolio);
    hide Balanced, EntriesUnique, WithinLimit, WithinHardLimit, Notional, Orphan, Accounted, ClipsOnly, PassesRiskGate, NotionalsSized;
    InsertIsAccounted(t, open, id, r, false, terms.portfolio);
    InsertKeepsClipsOnly(t, open, id, r, false, terms.portfolio);
    InsertKeepsUnique(open, t.restored, id, r, terms.hardLimit, terms.portfolio);
    InsertKeepsBalance(open, notional, t.excess, id, r, terms.portfolio);
    if t'.sized {
      InsertKeepsLimit(open, notional, t.excess, t.restored, id, r, terms.limit, terms.portfolio);
      InsertKeepsSized(open, t, terms, id, r, false);
    }
    hide SizedOk;
  }

  lemma {:induction false} RestoreKeepsBooks(open: map<string, Request>, notional: map<string, real>, t: Trace, terms: Terms,
                                             id: string, r: Request)
    requires BooksOk(open, notional, t, terms) && forall k :: k in open ==> k in t.restored
    ensures BooksOk(open[id := r], Added(notional, r, terms.portfolio), TraceInsert(t, open, id, r, true, terms.portfolio), terms)
  {
    var t' := TraceInsert(t, open, id, r, true, terms.portfolio);
    hide Balanced, EntriesUnique, WithinLimit, WithinHardLimit, Notional, Orphan, Accounted, ClipsOnly, SizedOk;
    InsertIsAccounted(t, open, id, r, true, terms.portfolio);
    InsertKeepsClipsOnly(t, open, id, r, true, terms.portfolio);
    RestoreKeepsLimits(open, t.restored, id, r, terms.limit, terms.hardLimit, terms.portfolio);
    InsertKeepsBalance(open, notional, t.excess, id, r, terms.portfolio);
    if t'.sized {
      InsertKeepsSized(open, t, terms, id, r, true);
    }
  }

  lemma {:induction false} FillIsAccounted(t: Trace, open: map<string, Request>, notional: map<string, real>, id: string, portfolio: real)
    requires Accounted(t, open) && id in open
    ensures Accounted(TraceFill(t, open, notional, id, portfolio), open - {id})
  {
    hide Notional, Clip, Clips;
  }

  lemma {:induction false} FillKeepsClipsOnly(t: Trace, open: map<string, Request>, notional: map<string, real>, id: string, portfolio: real)
    requires ClipsOnly(t) && id in open
    ensures ClipsOnly(TraceFill(t, open, notional, id, portfolio))
  {
    hide Notional;
    var t' := TraceFill(t, open, notional, id, portfolio);
    if t.overwritten == multiset{} {
      forall s ensures Get(t'.excess, s) >= 0.0 && (Get(t'.excess, s) > 0.0 <==> s in t'.clipped) {
        assert Get(t.excess, s) >= 0.0 && (Get(t.excess, s) > 0.0 <==> s in t.clipped);
      }
    }
  }

  lemma {:induction false} FillKeepsSized(open: map<string, Request>, notional: map<string, real>, t: Trace, terms: Terms, id: string)
    requires SizedOk(open, t, terms) && Balanced(open, notional, t.excess, terms.portfolio) && id in open
    ensures !Clips(notional, open[id], terms.portfolio)
    ensures SizedOk(open - {id}, TraceFill(t, open, notional, id, terms.portfolio), terms)
  {
    NotionalCovers(open, notional, t.excess, id, terms.portfolio);
    RemoveKeepsLimit(open, t.restored, id, terms.limit, terms.portfolio);
    hide Notional, WithinLimit, Clips, Balanced;
    assert NotionalsSized(open - {id}, terms.portfolio);
    assert TraceFill(t, open, notional, id, terms.portfolio).excess == t.excess;
  }

  /** A fill takes an order off the books; with non-negative notionals the clip at zero does not act. */
  lemma {:induction false} FillKeepsBooks(open: map<string, Request>, notional: map<string, real>, t: Trace, terms: Terms, id: string)
    requires BooksOk(open, notional, t, terms) && id in open
    ensures t.sized ==> !Clips(notional, open[id], terms.portfolio)
    ensures BooksOk(open - {id}, Deducted(notional, open[id], terms.portfolio), TraceFill(t, open, notional, id, terms.portfolio), terms)
  {
    assert EntriesUnique(open - {id}, t.restored) && WithinHardLimit(open - {id}, t.restored, terms.hardLimit, terms.portfolio);
    hide Balanced, EntriesUnique, WithinLimit, WithinHardLimit, Notional, Clips, Clip, Accounted, ClipsOnly, SizedOk;
    FillIsAccounted(t, open, notional, id, terms.portfolio);
    FillKeepsClipsOnly(t, open, notional, id, terms.portfolio);
    FillMovesBalance(open, notional, t.excess, id, terms.portfolio);
    if t.sized {
      FillKeepsSized(open, notional, t, terms, id);
    }
  }

  lemma {:induction false} FillKeepsCleared(r: Request, open: map<string, Request>, notional: map<string, real>, t: Trace, terms: Terms, id: string)
    requires ClearedFor(r, open, notional, t, terms) && BooksOk(open, notional, t, terms) && id in open
    ensures ClearedFor(r, open - {id}, Deducted(notional, open[id], terms.portfolio), TraceFill(t, open, notional, id, terms.portfolio), terms)
  {
    FillKeepsBooks(open, notional, t, terms, id);
    hide Balanced, EntriesUnique, WithinLimit, WithinHardLimit, Notional, Orphan, Accounted, ClipsOnly;
  }

  // ---- The bounded memory of fill ids ----

  const MAX_SEEN := 10_000

  /** The last n of the ids. */
  function Last(ids: seq<string>, n: nat): seq<string> {
    if |ids| <= n then ids else ids[|ids| - n..]
  }

  ghost predicate NoDuplicates(ids: seq<string>) {
    forall i, j :: 0 <= i < j < |ids| ==> ids[i] != ids[j]
  }

  /** The set is the queue's contents, and the queue the most recent ids handled. */
  ghost predicate Remembers(seen: set<string>, recent: seq<string>, handled: seq<string>) {
    && (forall id :: id in seen <==> id in recent)
    && NoDuplicates(recent) && recent == Last(handled, MAX_SEEN)
  }

  lemma {:induction false} LastSlides(ids: seq<string>, id: string)
    ensures Last(ids + [id], MAX_SEEN) == (if |Last(ids, MAX_SEEN)| == MAX_SEEN then Last(ids, MAX_SEEN)[1..] else Last(ids, MAX_SEEN)) + [id]
  {}

  lemma {:induction false} WithoutOldest(ids: seq<string>, k: string)
    requires ids != [] && NoDuplicates(ids)
    ensures NoDuplicates(ids[1..])
    ensures k in ids[1..] <==> k in ids && k != ids[0]
  {
    assert ids == [ids[0]] + ids[1..];
    if k in ids[1..] {
      var i :| 0 <= i < |ids[1..]| && ids[1..][i] == k;
      assert ids[i + 1] == k;
    }
  }

  lemma {:induction false} WithNewest(ids: seq<string>, id: string, k: string)
    requires NoDuplicates(ids) && id !in ids
    ensures NoDuplicates(ids + [id])
    ensures k in ids + [id] <==> k in ids || k == id
  {
    forall i | 0 <= i < |ids| ensures ids[i] != id {
      assert ids[i] in ids;
    }
  }

  lemma {:induction false} RememberOne(seen: set<string>, recent: seq<string>, handled: seq<string>, id: string)
    requires Remembers(seen, recent, handled) && id !in seen
    ensures var full := |recent| == MAX_SEEN;
            Remembers((if full then seen - {recent[0]} else seen) + {id}, (if full then recent[1..] else recent) + [id], handled + [id])
  {
    LastSlides(handled, id);
    var full := |recent| == MAX_SEEN;
    var kept := if full then recent[1..] else recent;
    var left := (if full then seen - {recent[0]} else seen) + {id};
    hide NoDuplicates, Last;
    if full {
      WithoutOldest(recent, id);
    }
    WithNewest(kept, id, id);
    forall k ensures k in left <==> k in kept + [id] {
      if full {
        WithoutOldest(recent, k);
      }
      WithNewest(kept, id, k);
    }
  }
}
