/** Classification of sequence discontinuities (aggregator/internal/gapdetector). */
module GapDetector {
  import opened Options

  datatype Cause = InternalBufferOverflow | InternalMergeError | ExternalDisconnect | ExternalRateLimit
  {
    predicate Internal() {
      this == InternalBufferOverflow || this == InternalMergeError
    }
  }

  datatype GapEvent = GapEvent(cause: Cause, seqBefore: nat, seqAfter: nat)

  function Detect(prev: nat, next: nat, cause: Cause): Option<GapEvent> {
    if next == prev + 1 then None else Some(GapEvent(cause, prev, next))
  }
}

/**
  The per-symbol worker (aggregator/internal/coordinator/symbol.go): order book, merge machine
  and gap detection wired together. Writes to Redis and QuestDB are recorded as attempted events
  in `out`; requests to the snapshot dispatcher are recorded in `requests`.
*/
module Worker {
  import opened Options
  import opened GapDetector
  import opened OrderBooks
  import opened Reconnect

  datatype TickKind = Update | Trade | SnapshotTick

  datatype Tick = Tick(kind: TickKind, seqNo: nat, side: string, price: string, size: string,
                       msgStart: nat, msgEnd: nat)

  datatype Event = TickWritten(tick: Tick) | GapWritten(gap: GapEvent) | SnapshotWritten(seqNo: nat)

  function ParseSide(s: string): Side {
    if s == "ask" then Ask else Bid
  }

  function ToDelta(t: Tick): Delta {
    Delta(t.seqNo, ParseSide(t.side), t.price, t.size)
  }

  // ---- What ticks do to the levels ----

  /** One price is given the size, or loses its level if that is "0" or nothing; every other price keeps its own. */
  ghost predicate SetsLevel(before: map<string, string>, after: map<string, string>, price: string, size: string) {
    && (if size == "0" || size == "" then price !in after else price in after && after[price] == size)
    && forall p :: p != price ==> (p in before <==> p in after) && (p in before ==> before[p] == after[p])
  }

  /** An update with a price: what the book looks at. */
  predicate IsUpdate(t: Tick) {
    t.kind == Update && t.price != ""
  }

  /** A tick that is not buffered: an update above the book's number sets its level, "ask" or not; any other changes nothing. */
  ghost predicate Takes(t: Tick, before: Book, after: Book) {
    if IsUpdate(t) && t.seqNo > before.lastSeq then
      && after.lastSeq == t.seqNo
      && (t.side == "ask" ==>
        SetsLevel(before.levels.asks, after.levels.asks, t.price, t.size) && after.levels.bids == before.levels.bids)
      && (t.side != "ask" ==>
        SetsLevel(before.levels.bids, after.levels.bids, t.price, t.size) && after.levels.asks == before.levels.asks)
    else
      after == before
  }

  lemma {:induction false} DeltaTakes(t: Tick, b: Book)
    ensures Takes(t, b, if t.kind == Update then ApplyDelta(b, ToDelta(t)) else b)
  {}

  lemma {:induction false} TradeTakes(t: Tick, b: Book)
    requires t.kind == Trade
    ensures Takes(t, b, b)
  {}

  /** The i-th tick of a run from number `start` writes the level: no update at or above its own number came before it. */
  ghost predicate WritesLevel(ts: seq<Tick>, i: nat, start: nat, ask: bool, price: string)
    requires i < |ts|
  {
    && IsUpdate(ts[i]) && ts[i].price == price && (ts[i].side == "ask" <==> ask) && ts[i].seqNo > start
    && forall j :: 0 <= j < i && IsUpdate(ts[j]) ==> ts[j].seqNo < ts[i].seqNo
  }

  function LevelOf(b: Book, ask: bool, price: string): Option<string> {
    var m := if ask then b.levels.asks else b.levels.bids;
    if price in m then Some(m[price]) else None
  }

  /** The book's number is the highest one that an update has carried. */
  ghost predicate NumberFollows(ts: seq<Tick>, before: Book, after: Book) {
    && before.lastSeq <= after.lastSeq
    && (forall i :: 0 <= i < |ts| && IsUpdate(ts[i]) ==> ts[i].seqNo <= after.lastSeq)
    && (after.lastSeq == before.lastSeq || exists i :: 0 <= i < |ts| && IsUpdate(ts[i]) && ts[i].seqNo == after.lastSeq)
  }

  ghost predicate IsLastWriter(ts: seq<Tick>, i: nat, start: nat, ask: bool, price: string) {
    && i < |ts| && WritesLevel(ts, i, start, ask, price)
    && forall j :: i < j < |ts| ==> !WritesLevel(ts, j, start, ask, price)
  }

  ghost predicate NoneWrites(ts: seq<Tick>, start: nat, ask: bool, price: string) {
    forall i :: 0 <= i < |ts| ==> !WritesLevel(ts, i, start, ask, price)
  }

  /** A level holds what the last tick that wrote it gave it, or what it held before if none did. */
  ghost predicate LevelFollows(ts: seq<Tick>, before: Book, after: Book, ask: bool, price: string) {
    && (NoneWrites(ts, before.lastSeq, ask, price) ==> LevelOf(after, ask, price) == LevelOf(before, ask, price))
    && (forall i: nat :: IsLastWriter(ts, i, before.lastSeq, ask, price) ==>
      LevelOf(after, ask, price) == if ts[i].size == "0" || ts[i].size == "" then None else Some(ts[i].size))
  }

  ghost predicate BookFollows(ts: seq<Tick>, before: Book, after: Book) {
    NumberFollows(ts, before, after) && forall ask, price :: LevelFollows(ts, before, after, ask, price)
  }

  lemma {:induction false} WritesStay(ts: seq<Tick>, t: Tick, i: nat, start: nat, ask: bool, price: string)
    requires i < |ts|
    ensures WritesLevel(ts + [t], i, start, ask, price) <==> WritesLevel(ts, i, start, ask, price)
  {
    var all := ts + [t];
    assert all[i] == ts[i] && forall j :: 0 <= j < i ==> all[j] == ts[j];
  }

  /** The last tick writes its level exactly if its number is above the book's. */
  lemma {:induction false} LastWrites(ts: seq<Tick>, t: Tick, before: Book, now: Book, ask: bool, price: string)
    requires NumberFollows(ts, before, now)
    ensures WritesLevel(ts + [t], |ts|, before.lastSeq, ask, price) <==>
            IsUpdate(t) && t.seqNo > now.lastSeq && t.price == price && (t.side == "ask" <==> ask)
  {
    var all := ts + [t];
    assert all[|ts|] == t && forall j :: 0 <= j < |ts| ==> all[j] == ts[j];
    if WritesLevel(all, |ts|, before.lastSeq, ask, price) && now.lastSeq > before.lastSeq {
      var i :| 0 <= i < |ts| && IsUpdate(ts[i]) && ts[i].seqNo == now.lastSeq;
      assert IsUpdate(all[i]);
    }
  }

  lemma {:induction false} NumberStep(ts: seq<Tick>, t: Tick, before: Book, now: Book, after: Book)
    requires NumberFollows(ts, before, now) && Takes(t, now, after)
    ensures NumberFollows(ts + [t], before, after)
  {
    var all := ts + [t];
    assert all[|ts|] == t && forall j :: 0 <= j < |ts| ==> all[j] == ts[j];
    if !(IsUpdate(t) && t.seqNo > now.lastSeq) && now.lastSeq > before.lastSeq {
      var i :| 0 <= i < |ts| && IsUpdate(ts[i]) && ts[i].seqNo == now.lastSeq;
      assert IsUpdate(all[i]) && all[i].seqNo == after.lastSeq;
    } else if IsUpdate(t) && t.seqNo > now.lastSeq {
      assert IsUpdate(all[|ts|]) && all[|ts|].seqNo == after.lastSeq;
    }
  }

  /** What one tick does to one level. */
  lemma {:induction false} TakesLevel(t: Tick, now: Book, after: Book, ask: bool, price: string)
    requires Takes(t, now, after)
    ensures LevelOf(after, ask, price) ==
            if IsUpdate(t) && t.seqNo > now.lastSeq && t.price == price && (t.side == "ask" <==> ask)
            then (if t.size == "0" || t.size == "" then None else Some(t.size))
            else LevelOf(now, ask, price)
  {}

  lemma {:induction false} LevelStep(ts: seq<Tick>, t: Tick, before: Book, now: Book, after: Book, ask: bool, price: string)
    requires NumberFollows(ts, before, now) && LevelFollows(ts, before, now, ask, price) && Takes(t, now, after)
    ensures LevelFollows(ts + [t], before, after, ask, price)
  {
    hide WritesLevel, LevelOf, Takes, NumberFollows, IsUpdate;
    var all, n, start := ts + [t], |ts|, before.lastSeq;
    assert all[n] == t;
    LastWrites(ts, t, before, now, ask, price);
    TakesLevel(t, now, after, ask, price);
    forall i | 0 <= i < n ensures WritesLevel(all, i, start, ask, price) <==> WritesLevel(ts, i, start, ask, price) {
      WritesStay(ts, t, i, start, ask, price);
    }
    if NoneWrites(all, start, ask, price) {
      assert !WritesLevel(all, n, start, ask, price) && NoneWrites(ts, start, ask, price);
    }
    forall i: nat | IsLastWriter(all, i, start, ask, price)
      ensures LevelOf(after, ask, price) == if all[i].size == "0" || all[i].size == "" then None else Some(all[i].size)
    {
      if i < n {
        assert !WritesLevel(all, n, start, ask, price) && IsLastWriter(ts, i, start, ask, price);
      }
    }
  }

  /** One more tick. */
  lemma {:induction false} BookStep(ts: seq<Tick>, t: Tick, before: Book, now: Book, after: Book)
    requires BookFollows(ts, before, now) && Takes(t, now, after)
    ensures BookFollows(ts + [t], before, after)
  {
    NumberStep(ts, t, before, now, after);
    hide NumberFollows, LevelFollows, Takes;
    forall ask, price ensures LevelFollows(ts + [t], before, after, ask, price) {
      LevelStep(ts, t, before, now, after, ask, price);
    }
  }

  lemma {:induction false} NothingFollows(none: seq<Tick>, b: Book)
    requires |none| == 0
    ensures BookFollows(none, b, b)
  {}

  // ---- What a consumer of the output can account for ----

  /** Number `k` was written as a delta, or lies strictly inside a gap marker. */
  ghost predicate Covers(out: seq<Event>, k: nat) {
    exists e :: e in out &&
      match e
      case TickWritten(t) => t.kind != Trade && t.seqNo == k
      case GapWritten(g) => g.seqBefore < k < g.seqAfter
      case SnapshotWritten(_) => false
  }

  /** Number `k` belongs to a message whose first delta was written, or lies strictly inside a gap marker. */
  ghost predicate CoversByMessage(out: seq<Event>, k: nat) {
    exists e :: e in out &&
      match e
      case TickWritten(t) => t.kind != Trade && 0 < t.msgStart <= k <= t.msgEnd
      case GapWritten(g) => g.seqBefore < k < g.seqAfter
      case SnapshotWritten(_) => false
  }

  lemma {:induction false} CoversGrows(out: seq<Event>, more: seq<Event>, k: nat)
    ensures Covers(out, k) ==> Covers(out + more, k)
    ensures CoversByMessage(out, k) ==> CoversByMessage(out + more, k)
    ensures Covers(more, k) ==> Covers(out + more, k)
    ensures CoversByMessage(more, k) ==> CoversByMessage(out + more, k)
  {
    assert forall e :: e in out || e in more ==> e in out + more;
  }

  // ---- The events of one delta handled outside Buffering ----

  function Marker(prev: nat, next: nat): seq<Event> {
    match Detect(prev, next, ExternalDisconnect)
    case None => []
    case Some(g) => [GapWritten(g)]
  }

  function DeltaEvents(lastSeq: nat, lastMsgSeqEnd: nat, t: Tick): seq<Event> {
    var markers :=
      if t.msgEnd != 0 then
        if t.msgStart > 0 && lastMsgSeqEnd > 0 then Marker(lastMsgSeqEnd, t.msgStart) else []
      else
        if lastSeq > 0 then Marker(lastSeq, t.seqNo) else [];
    markers + [TickWritten(t)]
  }

  /** Exactly when a delta is marked: its numbering is under way and it is not the next number. */
  lemma {:induction false} MarkedIff(lastSeq: nat, lastMsgSeqEnd: nat, t: Tick)
    ensures var evs := DeltaEvents(lastSeq, lastMsgSeqEnd, t);
            var last, next := if t.msgEnd == 0 then lastSeq else lastMsgSeqEnd, if t.msgEnd == 0 then t.seqNo else t.msgStart;
            && 1 <= |evs| <= 2 && evs[|evs| - 1] == TickWritten(t)
            && (|evs| == 2 <==> last > 0 && next != last + 1 && (t.msgEnd == 0 || t.msgStart > 0))
            && (|evs| == 2 ==> evs[0] == GapWritten(GapEvent(ExternalDisconnect, last, next)))
  {}

  /**
    Per-delta numbering: handling number q after number p accounts for everything in (p, q] if
    and only if p was not zero or there is nothing to skip.
  */
  lemma {:induction false} DeltaCoverageIff(p: nat, msg: nat, t: Tick)
    requires t.kind != Trade && t.msgEnd == 0
    ensures (forall k :: p < k <= t.seqNo ==> Covers(DeltaEvents(p, msg, t), k)) <==>
            (p > 0 || t.seqNo <= 1)
  {
    var evs := DeltaEvents(p, msg, t);
    assert evs[|evs| - 1] == TickWritten(t);
    if p > 0 || t.seqNo <= 1 {
      forall k | p < k <= t.seqNo ensures Covers(evs, k) {
        if k < t.seqNo {
          assert evs[0] == GapWritten(GapEvent(ExternalDisconnect, p, t.seqNo));
          assert evs[0] in evs;
        } else {
          assert TickWritten(t) in evs;
        }
      }
    } else {
      assert !Covers(evs, 1);
    }
  }

  /**
    Message numbering: handling one delta of the message [start, end] after a message that ended
    at p accounts for everything in (p, end] if and only if nothing is new, or this delta is the
    first of its message and p is known (or the message starts at 1). A message whose first delta
    was dropped on the way loses the numbers before it without a marker.
  */
  lemma {:induction false} MessageCoverageIff(last: nat, p: nat, t: Tick)
    requires t.kind != Trade && t.msgEnd != 0
    ensures (forall k :: p < k <= t.msgEnd ==> CoversByMessage(DeltaEvents(last, p, t), k)) <==>
            (t.msgEnd <= p || (t.msgStart > 0 && (p > 0 || t.msgStart == 1)))
  {
    var evs := DeltaEvents(last, p, t);
    assert evs[|evs| - 1] == TickWritten(t);
    if t.msgEnd <= p || (t.msgStart > 0 && (p > 0 || t.msgStart == 1)) {
      forall k | p < k <= t.msgEnd ensures CoversByMessage(evs, k) {
        if k < t.msgStart {
          assert evs[0] == GapWritten(GapEvent(ExternalDisconnect, p, t.msgStart));
          assert evs[0] in evs;
        } else {
          assert TickWritten(t) in evs;
        }
      }
    } else if t.msgStart == 0 {
      assert !CoversByMessage(evs, p + 1);
    } else {
      assert !CoversByMessage(evs, 1);
    }
  }

  /**
    A live period: the snapshot it started from, the highest delta number and the highest message
    end handled since, and whether each numbering has stayed checkable (no zero number; no
    message that brought something new without its first delta).
  */
  datatype Period = Period(anchor: nat, highest: nat, highestEnd: nat, numbered: bool, framed: bool)
  {
    function After(t: Tick): Period {
      if t.msgEnd == 0 then
        this.(highest := if t.seqNo > highest then t.seqNo else highest,
              numbered := numbered && t.seqNo > 0)
      else
        this.(highestEnd := if t.msgEnd > highestEnd then t.msgEnd else highestEnd,
              framed := framed && (t.msgStart > 0 || t.msgEnd <= highestEnd))
    }
  }

  /** Everything between the snapshot and the highest number handled is accounted for. */
  ghost predicate NoSilentLoss(out: seq<Event>, lastSeq: nat, lastMsgSeqEnd: nat, live: Period) {
    && lastSeq <= live.highest && lastMsgSeqEnd <= live.highestEnd
    && (live.numbered ==> lastSeq > 0 && forall k :: live.anchor < k <= live.highest ==> Covers(out, k))
    && (live.framed ==> lastMsgSeqEnd > 0 && forall k :: live.anchor < k <= live.highestEnd ==> CoversByMessage(out, k))
  }

  lemma {:induction false} NoSilentLossStep(out: seq<Event>, lastSeq: nat, lastMsgSeqEnd: nat, live: Period, t: Tick)
    requires t.kind != Trade && NoSilentLoss(out, lastSeq, lastMsgSeqEnd, live)
    ensures NoSilentLoss(out + DeltaEvents(lastSeq, lastMsgSeqEnd, t),
                         if t.msgEnd == 0 then t.seqNo else lastSeq,
                         if t.msgEnd == 0 then lastMsgSeqEnd else t.msgEnd, live.After(t))
  {
    var evs := DeltaEvents(lastSeq, lastMsgSeqEnd, t);
    var next := live.After(t);
    if next.numbered {
      forall k | live.anchor < k <= next.highest ensures Covers(out + evs, k) {
        if t.msgEnd == 0 { DeltaCoverageIff(lastSeq, lastMsgSeqEnd, t); }
        CoversGrows(out, evs, k);
      }
    }
    if next.framed {
      forall k | live.anchor < k <= next.highestEnd ensures CoversByMessage(out + evs, k) {
        if t.msgEnd != 0 { MessageCoverageIff(lastSeq, lastMsgSeqEnd, t); }
        CoversGrows(out, evs, k);
      }
    }
  }

  lemma {:induction false} NoSilentLossGrowsIf(live: bool, out: seq<Event>, e: Event, lastSeq: nat, lastMsgSeqEnd: nat, period: Period)
    requires live ==> NoSilentLoss(out, lastSeq, lastMsgSeqEnd, period)
    ensures live ==> NoSilentLoss(out + [e], lastSeq, lastMsgSeqEnd, period)
  {
    if live {
      NoSilentLossGrows(out, [e], lastSeq, lastMsgSeqEnd, period);
    }
  }

  lemma {:induction false} NoSilentLossGrows(out: seq<Event>, more: seq<Event>, lastSeq: nat, lastMsgSeqEnd: nat, live: Period)
    requires NoSilentLoss(out, lastSeq, lastMsgSeqEnd, live)
    ensures NoSilentLoss(out + more, lastSeq, lastMsgSeqEnd, live)
  {
    forall k ensures Covers(out, k) ==> Covers(out + more, k) { CoversGrows(out, more, k); }
    forall k ensures CoversByMessage(out, k) ==> CoversByMessage(out + more, k) { CoversGrows(out, more, k); }
  }

  // ---- Across live periods ----

  function Max(a: nat, b: nat): nat {
    if a < b then b else a
  }

  /** Covered on one of the two numberings. */
  ghost predicate CoversOn(byMessage: bool, out: seq<Event>, k: nat) {
    if byMessage then CoversByMessage(out, k) else Covers(out, k)
  }

  function Before(n: nat): nat {
    if n == 0 then 0 else n - 1
  }

  /** Where a marker for this delta ends. */
  function MarkerEnd(t: Tick): nat {
    if t.msgEnd == 0 then t.seqNo else t.msgStart
  }

  /** The highest number one delta and its marker can account for. */
  function Reach(byMessage: bool, t: Tick): nat {
    Max(if byMessage then t.msgEnd else t.seqNo, Before(MarkerEnd(t)))
  }

  /**
    A stretch of live periods on one numbering: the snapshot it began with, the highest number reached so
    far, and whether nothing in between has been lost.
  */
  datatype Span = Span(byMessage: bool, first: nat, top: nat, whole: bool)
  {
    /** The delta is numbered, and one of a message that brings something new is its first. */
    predicate Checks(t: Tick) {
      if byMessage then t.msgEnd != 0 && (t.msgStart > 0 || t.msgEnd <= Max(first, top))
      else t.msgEnd == 0 && t.seqNo > 0
    }

    function After(t: Tick): Span {
      this.(top := Max(top, Reach(byMessage, t)), whole := whole && Checks(t))
    }

    /** Only the delta's marker got out. */
    function AfterMarker(t: Tick): Span {
      this.(top := Max(top, Before(MarkerEnd(t))), whole := whole && byMessage == (t.msgEnd != 0))
    }

    /** Going live at a snapshot: the stretch goes on if the snapshot lies within it, and else begins anew. */
    function Anchored(s: nat): Span {
      if whole && 0 < s <= Max(first, top) then this else Span(byMessage, s, top, s > 0 && top <= s)
    }
  }

  /** The event accounts for no number above `top`. */
  predicate Below(byMessage: bool, e: Event, top: nat) {
    match e
    case TickWritten(t) => t.kind == Trade || (if byMessage then t.msgStart == 0 || t.msgEnd <= top else t.seqNo <= top)
    case GapWritten(g) => g.seqAfter <= top + 1 || g.seqAfter <= g.seqBefore + 1
    case SnapshotWritten(_) => true
  }

  ghost predicate SpanOk(out: seq<Event>, span: Span) {
    && (forall e :: e in out ==> Below(span.byMessage, e, span.top))
    && (span.whole ==> forall k :: span.first < k <= span.top ==> CoversOn(span.byMessage, out, k))
  }

  /** The number the next delta is compared with lies in the stretch. */
  predicate Linked(last: nat, span: Span) {
    span.whole ==> 0 < last <= Max(span.first, span.top)
  }

  lemma {:induction false} NothingAbove(out: seq<Event>, span: Span, k: nat)
    requires SpanOk(out, span) && k > span.top
    ensures !CoversOn(span.byMessage, out, k)
  {}

  lemma {:induction false} CoversOnGrows(byMessage: bool, out: seq<Event>, more: seq<Event>, k: nat)
    ensures CoversOn(byMessage, out, k) || CoversOn(byMessage, more, k) ==> CoversOn(byMessage, out + more, k)
  {
    CoversGrows(out, more, k);
    hide Covers, CoversByMessage;
  }

  lemma {:induction false} DeltaEventsBelow(byMessage: bool, lastSeq: nat, lastMsgSeqEnd: nat, t: Tick, top: nat)
    requires Reach(byMessage, t) <= top
    ensures forall e :: e in DeltaEvents(lastSeq, lastMsgSeqEnd, t) ==> Below(byMessage, e, top)
  {}

  /** What a numbered delta adds on its own numbering, from the last number on. */
  lemma {:induction false} StepCovers(lastSeq: nat, lastMsgSeqEnd: nat, span: Span, t: Tick, k: nat)
    requires t.kind != Trade && span.Checks(t)
    requires var last := if span.byMessage then lastMsgSeqEnd else lastSeq; 0 < last < k <= Reach(span.byMessage, t)
    requires span.byMessage && t.msgStart == 0 ==> k > t.msgEnd
    ensures CoversOn(span.byMessage, DeltaEvents(lastSeq, lastMsgSeqEnd, t), k)
  {
    var evs := DeltaEvents(lastSeq, lastMsgSeqEnd, t);
    if span.byMessage {
      if k <= t.msgEnd {
        MessageCoverageIff(lastSeq, lastMsgSeqEnd, t);
      } else {
        assert evs[0] == GapWritten(GapEvent(ExternalDisconnect, lastMsgSeqEnd, t.msgStart)) && evs[0] in evs;
      }
    } else {
      DeltaCoverageIff(lastSeq, lastMsgSeqEnd, t);
    }
  }

  lemma {:induction false} SpanStep(out: seq<Event>, lastSeq: nat, lastMsgSeqEnd: nat, span: Span, t: Tick)
    requires t.kind != Trade && SpanOk(out, span) && Linked(if span.byMessage then lastMsgSeqEnd else lastSeq, span)
    ensures SpanOk(out + DeltaEvents(lastSeq, lastMsgSeqEnd, t), span.After(t))
    ensures var last := if span.byMessage then (if t.msgEnd == 0 then lastMsgSeqEnd else t.msgEnd)
                        else (if t.msgEnd == 0 then t.seqNo else lastSeq);
            Linked(last, span.After(t))
  {
    var evs, next := DeltaEvents(lastSeq, lastMsgSeqEnd, t), span.After(t);
    DeltaEventsBelow(span.byMessage, lastSeq, lastMsgSeqEnd, t, next.top);
    hide DeltaEvents, CoversOn;
    assert forall e :: e in out ==> Below(span.byMessage, e, next.top);
    if next.whole {
      forall k | next.first < k <= next.top ensures CoversOn(span.byMessage, out + evs, k) {
        if k > span.top {
          StepCovers(lastSeq, lastMsgSeqEnd, span, t, k);
        }
        CoversOnGrows(span.byMessage, out, evs, k);
      }
    }
  }

  /** A panic while the marker is written: the marker counts, the delta does not. */
  lemma {:induction false} SpanStepMarker(out: seq<Event>, lastSeq: nat, lastMsgSeqEnd: nat, span: Span, t: Tick, e: Event)
    requires SpanOk(out, span) && Linked(if span.byMessage then lastMsgSeqEnd else lastSeq, span)
    requires e == GapWritten(GapEvent(ExternalDisconnect, if t.msgEnd != 0 then lastMsgSeqEnd else lastSeq, MarkerEnd(t)))
    ensures SpanOk(out + [e], span.AfterMarker(t))
    ensures Linked(if span.byMessage then lastMsgSeqEnd else lastSeq, span.AfterMarker(t))
  {
    var next := span.AfterMarker(t);
    assert Below(span.byMessage, e, next.top);
    assert forall e :: e in out ==> Below(span.byMessage, e, next.top);
    if next.whole {
      forall k | next.first < k <= next.top ensures CoversOn(span.byMessage, out + [e], k) {
        if k > span.top {
          assert e in [e];
          assert CoversOn(span.byMessage, [e], k);
        }
        CoversOnGrows(span.byMessage, out, [e], k);
      }
    }
  }

  lemma {:induction false} SpanGrows(out: seq<Event>, e: Event, span: Span)
    requires SpanOk(out, span) && Below(span.byMessage, e, span.top)
    ensures SpanOk(out + [e], span)
  {
    hide CoversOn;
    forall k ensures CoversOn(span.byMessage, out, k) ==> CoversOn(span.byMessage, out + [e], k) {
      CoversOnGrows(span.byMessage, out, [e], k);
    }
  }

  lemma {:induction false} SpanAnchors(out: seq<Event>, span: Span, s: nat)
    requires SpanOk(out, span)
    ensures SpanOk(out, span.Anchored(s)) && Linked(s, span.Anchored(s))
  {}

  /**
    Going live again, on either numbering: everything between the first snapshot of the stretch and the new
    one is accounted for if and only if the new snapshot is no higher than what was reached before.
  */
  lemma {:induction false} CrossingIff(out: seq<Event>, span: Span, s: nat)
    requires SpanOk(out, span) && span.whole
    ensures (forall k :: span.first < k <= s ==> CoversOn(span.byMessage, out, k)) <==> s <= Max(span.first, span.top)
  {
    if s > Max(span.first, span.top) {
      NothingAbove(out, span, s);
    }
  }

  /** Both numberings side by side. */
  datatype Spans = Spans(delta: Span, message: Span)
  {
    function After(t: Tick): Spans {
      Spans(delta.After(t), message.After(t))
    }

    function AfterMarker(t: Tick): Spans {
      Spans(delta.AfterMarker(t), message.AfterMarker(t))
    }

    function Anchored(s: nat): Spans {
      Spans(delta.Anchored(s), message.Anchored(s))
    }
  }

  const NO_SPANS := Spans(Span(false, 0, 0, false), Span(true, 0, 0, false))

  ghost predicate SpansOk(out: seq<Event>, spans: Spans) {
    !spans.delta.byMessage && spans.message.byMessage && SpanOk(out, spans.delta) && SpanOk(out, spans.message)
  }

  predicate BothLinked(lastSeq: nat, lastMsgSeqEnd: nat, spans: Spans) {
    Linked(lastSeq, spans.delta) && Linked(lastMsgSeqEnd, spans.message)
  }

  lemma {:induction false} SpansStep(out: seq<Event>, lastSeq: nat, lastMsgSeqEnd: nat, spans: Spans, t: Tick)
    requires t.kind != Trade && SpansOk(out, spans) && BothLinked(lastSeq, lastMsgSeqEnd, spans)
    ensures SpansOk(out + DeltaEvents(lastSeq, lastMsgSeqEnd, t), spans.After(t))
    ensures BothLinked(if t.msgEnd == 0 then t.seqNo else lastSeq, if t.msgEnd == 0 then lastMsgSeqEnd else t.msgEnd, spans.After(t))
  {
    hide SpanOk, Linked, DeltaEvents;
    SpanStep(out, lastSeq, lastMsgSeqEnd, spans.delta, t);
    SpanStep(out, lastSeq, lastMsgSeqEnd, spans.message, t);
  }

  lemma {:induction false} SpansStepMarker(out: seq<Event>, lastSeq: nat, lastMsgSeqEnd: nat, spans: Spans, t: Tick, e: Event)
    requires SpansOk(out, spans) && BothLinked(lastSeq, lastMsgSeqEnd, spans)
    requires e == GapWritten(GapEvent(ExternalDisconnect, if t.msgEnd != 0 then lastMsgSeqEnd else lastSeq, MarkerEnd(t)))
    ensures SpansOk(out + [e], spans.AfterMarker(t)) && BothLinked(lastSeq, lastMsgSeqEnd, spans.AfterMarker(t))
  {
    hide SpanOk, Linked;
    SpanStepMarker(out, lastSeq, lastMsgSeqEnd, spans.delta, t, e);
    SpanStepMarker(out, lastSeq, lastMsgSeqEnd, spans.message, t, e);
  }

  /** A trade, a snapshot, or a marker between neighbours accounts for nothing. */
  predicate Neutral(e: Event) {
    match e
    case TickWritten(t) => t.kind == Trade
    case GapWritten(g) => g.seqAfter <= g.seqBefore + 1
    case SnapshotWritten(_) => true
  }

  lemma {:induction false} SpansGrow(out: seq<Event>, e: Event, spans: Spans)
    requires SpansOk(out, spans) && Neutral(e)
    ensures SpansOk(out + [e], spans)
  {
    assert Below(false, e, spans.delta.top) && Below(true, e, spans.message.top);
    hide SpanOk;
    SpanGrows(out, e, spans.delta);
    SpanGrows(out, e, spans.message);
  }

  lemma {:induction false} SpansAnchor(out: seq<Event>, spans: Spans, s: nat)
    requires SpansOk(out, spans)
    ensures SpansOk(out, spans.Anchored(s)) && BothLinked(s, s, spans.Anchored(s))
  {
    hide SpanOk, Linked;
    SpanAnchors(out, spans.delta, s);
    SpanAnchors(out, spans.message, s);
  }

  datatype SnapshotResult = SnapshotResult(seqNo: nat, bids: map<string, string>, asks: map<string, string>)

  /** The marker of a failed merge or a panic: between neighbouring numbers. */
  function PanicMarker(lastSeq: nat): Event {
    GapWritten(GapEvent(InternalMergeError, lastSeq, lastSeq + 1))
  }

  /** The worker; the ghost fields describe the current live period and the stretch it belongs to. */
  class Worker {
    const book: OrderBook
    const recon: Machine
    var lastSeq: nat
    var lastMsgSeqEnd: nat
    var resultCh: Option<SnapshotResult>
    var out: seq<Event>
    var requests: seq<string>
    ghost var live: Period
    ghost var spans: Spans

    /** No silent loss, on both numberings, in every live period; and across them within a whole span. */
    ghost predicate Valid()
      reads this, recon
    {
      && (recon.state == Live ==> NoSilentLoss(out, lastSeq, lastMsgSeqEnd, live))
      && SpansOk(out, spans) && (recon.state != Buffering ==> BothLinked(lastSeq, lastMsgSeqEnd, spans))
    }

    constructor ()
      ensures Valid() && fresh(book) && fresh(recon)
      ensures recon.state == Initial && recon.buffer == [] && out == [] && requests == [] && resultCh == None
      ensures lastSeq == 0 && lastMsgSeqEnd == 0 && spans == NO_SPANS
    {
      book := new OrderBook();
      recon := new Machine();
      lastSeq, lastMsgSeqEnd, resultCh, out, requests := 0, 0, None, [], [];
      live, spans := Period(0, 0, 0, false, false), NO_SPANS;
    }

    /** The first thing the loop does: ask for a snapshot if none was ever asked for. */
    method Start()
      requires Valid()
      modifies `requests, recon
      ensures Valid() && recon.state != Initial && recon.buffer == old(recon.buffer)
      ensures requests == old(requests) + if old(recon.state) == Initial then ["initial"] else []
    {
      hide NoSilentLoss, SpansOk;
      if recon.state == Initial {
        var ns := recon.NeedsSnapshotNow("initial");
        requests := requests + [ns];
      }
    }

    /** A fetch goroutine delivers its result. */
    method Deliver(result: SnapshotResult)
      requires Valid() && resultCh.None?
      modifies `resultCh
      ensures Valid() && resultCh == Some(result)
    {
      hide NoSilentLoss, SpansOk;
      resultCh := Some(result);
    }

    /** Marks a discontinuity on whichever numbering the delta carries, and moves that tracker. */
    method CheckGap(t: Tick)
      modifies `out, `lastSeq, `lastMsgSeqEnd
      ensures out + [TickWritten(t)] == old(out) + DeltaEvents(old(lastSeq), old(lastMsgSeqEnd), t)
      ensures lastSeq == (if t.msgEnd == 0 then t.seqNo else old(lastSeq))
      ensures lastMsgSeqEnd == (if t.msgEnd != 0 then t.msgEnd else old(lastMsgSeqEnd))
    {
      if t.msgEnd != 0 {
        if t.msgStart > 0 && lastMsgSeqEnd > 0 {
          var gap := Detect(lastMsgSeqEnd, t.msgStart, ExternalDisconnect);
          if gap.Some? {
            out := out + [GapWritten(gap.value)];
          }
        }
        lastMsgSeqEnd := t.msgEnd;
      } else {
        if lastSeq > 0 {
          var gap := Detect(lastSeq, t.seqNo, ExternalDisconnect);
          if gap.Some? {
            out := out + [GapWritten(gap.value)];
          }
        }
        lastSeq := t.seqNo;
      }
    }

    /** A delta outside Buffering: marked, applied, written. */
    method HandleDelta(t: Tick)
      requires Valid() && t.kind != Trade && recon.state != Buffering
      modifies `out, `lastSeq, `lastMsgSeqEnd, `live, `spans, book
      ensures Valid()
      ensures out == old(out) + DeltaEvents(old(lastSeq), old(lastMsgSeqEnd), t)
      ensures book.View() == (if t.kind == Update then ApplyDelta(old(book.View()), ToDelta(t)) else old(book.View()))
      ensures Takes(t, old(book.View()), book.View())
      ensures lastSeq == (if t.msgEnd == 0 then t.seqNo else old(lastSeq))
      ensures lastMsgSeqEnd == (if t.msgEnd != 0 then t.msgEnd else old(lastMsgSeqEnd))
      ensures live == (if recon.state == Live then old(live).After(t) else old(live)) && spans == old(spans).After(t)
    {
      hide NoSilentLoss, SpansOk, BothLinked, DeltaEvents, ApplyDelta, Takes;
      DeltaTakes(t, book.View());
      SpansStep(out, lastSeq, lastMsgSeqEnd, spans, t);
      if recon.state == Live {
        NoSilentLossStep(out, lastSeq, lastMsgSeqEnd, live, t);
        live := live.After(t);
      }
      spans := spans.After(t);
      CheckGap(t);
      if t.kind == Update {
        book.Apply(ToDelta(t));
      }
      out := out + [TickWritten(t)];
    }

    method HandleTick(t: Tick)
      requires Valid()
      modifies `out, `lastSeq, `lastMsgSeqEnd, `live, `spans, book, recon
      ensures Valid() && recon.state == old(recon.state)
      // trades: written unless buffering, and they touch nothing else
      ensures t.kind == Trade ==>
                && out == old(out) + (if recon.state != Buffering then [TickWritten(t)] else [])
                && book.View() == old(book.View()) && recon.buffer == old(recon.buffer)
                && lastSeq == old(lastSeq) && lastMsgSeqEnd == old(lastMsgSeqEnd)
                && live == old(live) && spans == old(spans)
      // deltas while buffering: only the number is kept
      ensures t.kind != Trade && recon.state == Buffering ==>
                && out == old(out) && recon.buffer == old(recon.buffer) + [t.seqNo]
                && book.View() == old(book.View())
                && lastSeq == old(lastSeq) && lastMsgSeqEnd == old(lastMsgSeqEnd)
                && live == old(live) && spans == old(spans)
      // deltas otherwise: marked, applied, written
      ensures t.kind != Trade && recon.state != Buffering ==>
                && out == old(out) + DeltaEvents(old(lastSeq), old(lastMsgSeqEnd), t)
                && recon.buffer == old(recon.buffer)
                && book.View() == (if t.kind == Update then ApplyDelta(old(book.View()), ToDelta(t)) else old(book.View()))
                && Takes(t, old(book.View()), book.View())
                && lastSeq == (if t.msgEnd == 0 then t.seqNo else old(lastSeq))
                && lastMsgSeqEnd == (if t.msgEnd != 0 then t.msgEnd else old(lastMsgSeqEnd))
                && live == (if recon.state == Live then old(live).After(t) else old(live)) && spans == old(spans).After(t)
    {
      hide NoSilentLoss, SpansOk, BothLinked, DeltaEvents, ApplyDelta, Takes;
      if t.kind == Trade {
        if recon.state != Buffering {
          NoSilentLossGrowsIf(recon.state == Live, out, TickWritten(t), lastSeq, lastMsgSeqEnd, live);
          SpansGrow(out, TickWritten(t), spans);
          out := out + [TickWritten(t)];
        }
      } else if recon.state == Buffering {
        recon.Feed(t.seqNo);
      } else {
        HandleDelta(t);
      }
    }

    /** The loop takes ticks from the channel: while not buffering, each level is the last tick that wrote it. */
    method HandleTicks(ts: seq<Tick>)
      requires Valid() && recon.state != Buffering
      modifies `out, `lastSeq, `lastMsgSeqEnd, `live, `spans, book, recon
      ensures Valid() && recon.state == old(recon.state)
      ensures BookFollows(ts, old(book.View()), book.View())
    {
      hide BookFollows, Takes, DeltaEvents, ApplyDelta, NoSilentLoss, SpansOk, BothLinked;
      ghost var before := book.View();
      NothingFollows(ts[..0], before);
      for i := 0 to |ts|
        invariant Valid() && recon.state == old(recon.state)
        invariant BookFollows(ts[..i], before, book.View())
      {
        ghost var now := book.View();
        HandleTick(ts[i]);
        if ts[i].kind == Trade {
          TradeTakes(ts[i], now);
        }
        BookStep(ts[..i], ts[i], before, now, book.View());
        assert ts[..i + 1] == ts[..i] + [ts[i]];
      }
      assert ts[..|ts|] == ts;
    }

    /** The loop takes a result from the channel. */
    method Receive()
      requires Valid() && resultCh.Some?
      modifies this, book, recon
      ensures Valid() && resultCh == None
    {
      hide NoSilentLoss, SpansOk;
      var result := resultCh.value;
      resultCh := None;
      HandleSnapshot(result);
    }

    method HandleSnapshot(result: SnapshotResult)
      requires Valid()
      modifies `out, `lastSeq, `lastMsgSeqEnd, `requests, `live, `spans, book, recon
      ensures Valid()
      // not waiting for one: discarded
      ensures old(recon.state) != Buffering ==>
                && recon.state == old(recon.state) && recon.buffer == old(recon.buffer)
                && book.View() == old(book.View()) && out == old(out) && requests == old(requests)
                && lastSeq == old(lastSeq) && lastMsgSeqEnd == old(lastMsgSeqEnd)
                && live == old(live) && spans == old(spans)
      ensures old(recon.state) == Buffering ==> book.View() == Book(result.seqNo, Levels(result.bids, result.asks))
      // stale: marker, and a new request
      ensures old(recon.state) == Buffering && Stale(old(recon.buffer), result.seqNo) ==>
                && recon.state == Buffering && recon.buffer == old(recon.buffer)
                && out == old(out) + [GapWritten(GapEvent(InternalMergeError, lastSeq, lastSeq + 1))]
                && requests == old(requests) + ["merge_error"]
                && lastSeq == old(lastSeq) && lastMsgSeqEnd == old(lastMsgSeqEnd) && spans == old(spans)
      // merged: live, anchored at the snapshot; the buffered deltas are thrown away
      ensures old(recon.state) == Buffering && !Stale(old(recon.buffer), result.seqNo) ==>
                && recon.state == Live && recon.buffer == []
                && out == old(out) + [SnapshotWritten(result.seqNo)] && requests == old(requests)
                && lastSeq == result.seqNo && lastMsgSeqEnd == result.seqNo
                && live == Period(result.seqNo, result.seqNo, result.seqNo, result.seqNo > 0, result.seqNo > 0)
                && spans == old(spans).Anchored(result.seqNo)
    {
      hide SpansOk, BothLinked;
      if recon.state != Buffering {
        return;
      }
      book.ApplySnapshot(result.seqNo, result.bids, result.asks);
      var replay, ns := recon.MergeSnapshot(result.seqNo);
      if ns.Some? {
        SpansGrow(out, PanicMarker(lastSeq), spans);
        out := out + [PanicMarker(lastSeq)];
        requests := requests + [ns.value];
        return;
      }
      lastSeq := result.seqNo;
      lastMsgSeqEnd := result.seqNo;
      recon.GoLive();
      SpansGrow(out, SnapshotWritten(result.seqNo), spans);
      out := out + [SnapshotWritten(result.seqNo)];
      SpansAnchor(out, spans, result.seqNo);
      live := Period(result.seqNo, result.seqNo, result.seqNo, result.seqNo > 0, result.seqNo > 0);
      spans := spans.Anchored(result.seqNo);
    }

    /** What the worker does after a panic, before it re-enters its loop: a result that came meanwhile is drained. */
    method Recover()
      requires Valid()
      modifies `out, `lastSeq, `lastMsgSeqEnd, `resultCh, `requests, recon
      ensures Valid() && recon.state == Buffering && recon.buffer == old(recon.buffer)
      ensures out == old(out) + [GapWritten(GapEvent(InternalMergeError, old(lastSeq), old(lastSeq) + 1))]
      ensures lastSeq == 0 && lastMsgSeqEnd == 0 && resultCh == None && requests == old(requests) + ["panic"]
    {
      hide NoSilentLoss, SpansOk, BothLinked;
      SpansGrow(out, PanicMarker(lastSeq), spans);
      out := out + [PanicMarker(lastSeq)];
      lastSeq := 0;
      lastMsgSeqEnd := 0;
      resultCh := None;
      var ns := recon.NeedsSnapshotNow("panic");
      requests := requests + [ns];
    }

    // ---- Panics inside a handler: what had been done by then, and the recovery ----

    /** While the marker of a delta is written: its trackers have not moved, and it is neither applied nor written. */
    method PanicInGapWrite(t: Tick)
      requires Valid() && t.kind != Trade && recon.state == Live && Marker(MarkerFrom(t), MarkerEnd(t)) != []
      requires if t.msgEnd != 0 then t.msgStart > 0 && lastMsgSeqEnd > 0 else lastSeq > 0
      modifies `out, `lastSeq, `lastMsgSeqEnd, `resultCh, `requests, `spans, recon
      ensures Valid() && recon.state == Buffering && lastSeq == lastMsgSeqEnd == 0 && spans == old(spans).AfterMarker(t)
      ensures out == old(out) + old(Marker(MarkerFrom(t), MarkerEnd(t))) + [PanicMarker(old(lastSeq))]
      ensures requests == old(requests) + ["panic"]
    {
      hide NoSilentLoss, SpansOk, BothLinked;
      var e := GapWritten(GapEvent(ExternalDisconnect, MarkerFrom(t), MarkerEnd(t)));
      SpansStepMarker(out, lastSeq, lastMsgSeqEnd, spans, t, e);
      NoSilentLossGrows(out, [e], lastSeq, lastMsgSeqEnd, live);
      out := out + [e];
      spans := spans.AfterMarker(t);
      Recover();
    }

    function MarkerFrom(t: Tick): nat
      reads this
    {
      if t.msgEnd != 0 then lastMsgSeqEnd else lastSeq
    }

    /** While a tick is written or published: everything before that was done. */
    method PanicInTickWrite(t: Tick)
      requires Valid() && recon.state == Live
      modifies this, book, recon
      ensures Valid() && recon.state == Buffering && lastSeq == lastMsgSeqEnd == 0 && requests == old(requests) + ["panic"]
      ensures t.kind != Trade ==>
                && out == old(out) + DeltaEvents(old(lastSeq), old(lastMsgSeqEnd), t)
                          + [PanicMarker(if t.msgEnd == 0 then t.seqNo else old(lastSeq))]
                && spans == old(spans).After(t)
      ensures t.kind == Trade ==> out == old(out) + [TickWritten(t)] + [PanicMarker(old(lastSeq))] && spans == old(spans)
    {
      hide NoSilentLoss, SpansOk, BothLinked, DeltaEvents, ApplyDelta;
      HandleTick(t);
      Recover();
    }

    /** While the marker of a stale snapshot is written: the book is the snapshot's, and no new one was asked for yet. */
    method PanicInStaleWrite(result: SnapshotResult)
      requires Valid() && recon.state == Buffering && Stale(recon.buffer, result.seqNo)
      modifies this, book, recon
      ensures Valid() && recon.state == Buffering && recon.buffer == old(recon.buffer)
      ensures book.View() == Book(result.seqNo, Levels(result.bids, result.asks))
      ensures out == old(out) + [PanicMarker(old(lastSeq))] + [PanicMarker(old(lastSeq))] && spans == old(spans)
      ensures lastSeq == lastMsgSeqEnd == 0 && requests == old(requests) + ["panic"]
    {
      hide NoSilentLoss, SpansOk, BothLinked;
      book.ApplySnapshot(result.seqNo, result.bids, result.asks);
      var _, ns := recon.MergeSnapshot(result.seqNo);
      SpansGrow(out, PanicMarker(lastSeq), spans);
      out := out + [PanicMarker(lastSeq)];
      Recover();
    }

    /** While the snapshot event is written: the worker is live already, and goes back to buffering. */
    method PanicInSnapshotWrite(result: SnapshotResult)
      requires Valid() && recon.state == Buffering && !Stale(recon.buffer, result.seqNo)
      modifies this, book, recon
      ensures Valid() && recon.state == Buffering && recon.buffer == []
      ensures out == old(out) + [SnapshotWritten(result.seqNo)] + [PanicMarker(result.seqNo)]
      ensures spans == old(spans).Anchored(result.seqNo) && requests == old(requests) + ["panic"]
    {
      hide NoSilentLoss, SpansOk, BothLinked;
      HandleSnapshot(result);
      Recover();
    }
  }
}
