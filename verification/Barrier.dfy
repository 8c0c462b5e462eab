/**
  The multi-symbol barrier (bot-service/bot_service/barrier.py): collects one bar per symbol for each
  time bucket and fires the bucket when it is complete or when it has waited too long. Symbols are
  their ranks in alphabetical order.
*/
module Barriers {
  import opened Options
  import opened Integers

  datatype BarClose = BarClose(symbol: int, ts: int, close: real)

  datatype Event = MultiBarClose(ts: int, closes: map<int, BarClose>) | GapMarker(symbol: int, ts: int)

  function TfMs(tf: string): (ms: Option<int>)
    ensures ms.Some? ==> ms.value > 0
  {
    if tf == "1s" then Some(1_000)
    else if tf == "1m" then Some(60_000)
    else if tf == "5m" then Some(300_000)
    else if tf == "15m" then Some(900_000)
    else if tf == "1h" then Some(3_600_000)
    else if tf == "4h" then Some(14_400_000)
    else if tf == "1d" then Some(86_400_000)
    else if tf == "1w" then Some(604_800_000)
    else None
  }

  // ---- Ascending order of a finite set ----

  lemma {:induction false} Pick<T>(s: set<T>) returns (x: T)
    requires s != {}
    ensures x in s
  {
    x :| x in s;
  }

  lemma {:induction false} OnlyElement<T>(s: set<T>, x: T, y: T)
    requires s - {x} == {} && y in s
    ensures y == x
  {
    assert y == x || y in s - {x};
  }

  lemma {:induction false} SmallerWithout<T>(s: set<T>, x: T)
    requires x in s
    ensures |s - {x}| < |s|
  {}

  lemma {:induction false} StaysWithout<T>(s: set<T>, x: T, y: T)
    requires y in s && y != x
    ensures y in s - {x}
  {}

  lemma {:induction false} CameFrom<T>(s: set<T>, x: T, y: T)
    requires y in s - {x}
    ensures y in s
  {}

  lemma {:induction false} LeastOf(s: set<int>) returns (m: int)
    requires s != {}
    ensures m in s && forall y :: y in s ==> m <= y
    decreases |s|
  {
    m := Pick(s);
    if s - {m} == {} {
      forall y | y in s ensures m <= y {
        OnlyElement(s, m, y);
      }
    } else {
      SmallerWithout(s, m);
      var x := m;
      m := LeastOf(s - {x});
      CameFrom(s, x, m);
      if x < m {
        m := x;
      }
      forall y | y in s ensures m <= y {
        if y != x {
          StaysWithout(s, x, y);
        }
      }
    }
  }

  lemma {:induction false} HasLeast(s: set<int>)
    requires s != {}
    ensures exists m :: m in s && forall x :: x in s ==> m <= x
  {
    var m := LeastOf(s);
  }

  function Least(s: set<int>): (m: int)
    requires s != {}
    ensures m in s && forall x :: x in s ==> m <= x
  {
    HasLeast(s);
    var m :| m in s && forall x :: x in s ==> m <= x;
    m
  }

  function Ascending(s: set<int>): seq<int> {
    if s == {} then [] else [Least(s)] + Ascending(s - {Least(s)})
  }

  function Elements<T>(s: seq<T>): set<T> {
    set x | x in s
  }

  lemma {:induction false} ElementsCons<T>(x: T, s: seq<T>)
    ensures Elements([x] + s) == {x} + Elements(s)
  {}

  lemma {:induction false} PutBack<T>(s: set<T>, x: T)
    requires x in s
    ensures {x} + (s - {x}) == s
  {}

  /** Every element once, smallest first. */
  lemma {:induction false} AscendingSorts(s: set<int>)
    ensures Elements(Ascending(s)) == s
    ensures forall i, j :: 0 <= i < j < |Ascending(s)| ==> Ascending(s)[i] < Ascending(s)[j]
  {
    if s != {} {
      var m := Least(s);
      var rest := Ascending(s - {m});
      assert Ascending(s) == [m] + rest;
      hide Ascending;
      AscendingSorts(s - {m});
      ElementsCons(m, rest);
      PutBack(s, m);
      forall j | 0 <= j < |rest| ensures m < rest[j] {
        ElementAt(rest, j);
        NotItself(s, m, rest[j]);
      }
    }
  }

  lemma {:induction false} ElementAt<T>(s: seq<T>, j: nat)
    requires j < |s|
    ensures s[j] in Elements(s)
  {}

  lemma {:induction false} NotItself(s: set<int>, m: int, x: int)
    requires x in s - {m} && forall y :: y in s ==> m <= y
    ensures m < x
  {
    CameFrom(s, m, x);
  }

  lemma {:induction false} IndexOf<T>(s: seq<T>, x: T) returns (i: nat)
    requires x in Elements(s)
    ensures i < |s| && s[i] == x
  {
    i :| i < |s| && s[i] == x;
  }

  lemma {:induction false} AscendingMembers(s: set<int>)
    ensures forall x :: x in s ==> exists i :: 0 <= i < |Ascending(s)| && Ascending(s)[i] == x
    ensures forall i :: 0 <= i < |Ascending(s)| ==> Ascending(s)[i] in s
  {
    AscendingSorts(s);
    var all := Ascending(s);
    hide Ascending;
    forall x | x in s ensures exists i :: 0 <= i < |all| && all[i] == x {
      var i := IndexOf(all, x);
    }
    forall i | 0 <= i < |all| ensures all[i] in s {
      ElementAt(all, i);
    }
  }

  // ---- The bars of one bucket ----

  /** Per symbol, the bar fed last. */
  function Collected(bars: seq<BarClose>): map<int, BarClose> {
    if |bars| == 0 then map[]
    else var b := bars[|bars| - 1]; Collected(bars[..|bars| - 1])[b.symbol := b]
  }

  lemma {:induction false} CollectedLast(bars: seq<BarClose>, symbol: int) returns (i: nat)
    requires symbol in Collected(bars)
    ensures i < |bars| && bars[i].symbol == symbol && Collected(bars)[symbol] == bars[i]
    ensures forall j :: i < j < |bars| ==> bars[j].symbol != symbol
  {
    var n := |bars| - 1;
    i := n;
    if bars[n].symbol != symbol {
      i := CollectedLast(bars[..n], symbol);
      assert forall j :: 0 <= j < n ==> bars[j] == bars[..n][j];
    }
  }

  lemma {:induction false} FedIsCollected(bars: seq<BarClose>, i: nat)
    requires i < |bars|
    ensures bars[i].symbol in Collected(bars)
  {
    var n := |bars| - 1;
    if i < n {
      FedIsCollected(bars[..n], i);
    }
  }

  lemma {:induction false} LastBarWins(bars: seq<BarClose>, symbol: int)
    ensures symbol in Collected(bars) <==> exists i :: 0 <= i < |bars| && bars[i].symbol == symbol
    ensures symbol in Collected(bars) ==>
              exists i :: 0 <= i < |bars| && bars[i].symbol == symbol && Collected(bars)[symbol] == bars[i]
                          && forall j :: i < j < |bars| ==> bars[j].symbol != symbol
  {
    hide Collected;
    if symbol in Collected(bars) {
      var i := CollectedLast(bars, symbol);
    }
    forall i | 0 <= i < |bars| && bars[i].symbol == symbol ensures symbol in Collected(bars) {
      FedIsCollected(bars, i);
    }
  }

  // ---- What one firing emits ----

  function Markers(missing: seq<int>, ts: int): seq<Event> {
    seq(|missing|, i requires 0 <= i < |missing| => GapMarker(missing[i], ts))
  }

  function FireEvents(symbols: set<int>, ts: int, closes: map<int, BarClose>, timedOut: bool): seq<Event> {
    [MultiBarClose(ts, closes)] + if timedOut then Markers(Ascending(symbols - closes.Keys), ts) else []
  }

  lemma {:induction false} MarkersFollow(symbols: set<int>, ts: int, closes: map<int, BarClose>)
    ensures var out, missing := FireEvents(symbols, ts, closes, true), Ascending(symbols - closes.Keys);
            && |out| == |missing| + 1 && out[0] == MultiBarClose(ts, closes)
            && forall i :: 0 <= i < |missing| ==> out[i + 1] == GapMarker(missing[i], ts)
  {}

  /** On a timeout the closes and the gap markers together cover the symbols, each once. */
  lemma {:induction false} TimeoutCoversSymbols(symbols: set<int>, ts: int, closes: map<int, BarClose>)
    ensures var out := FireEvents(symbols, ts, closes, true);
            && out[0] == MultiBarClose(ts, closes)
            && (forall s :: s in symbols && s !in closes ==> exists i :: 0 < i < |out| && out[i] == GapMarker(s, ts))
            && (forall i :: 0 < i < |out| ==> out[i].GapMarker? && out[i].ts == ts && out[i].symbol in symbols && out[i].symbol !in closes)
            && (forall i, j :: 0 < i < j < |out| ==> out[i].symbol < out[j].symbol)
  {
    hide Ascending, FireEvents;
    var absent := symbols - closes.Keys;
    var out, missing := FireEvents(symbols, ts, closes, true), Ascending(absent);
    MarkersFollow(symbols, ts, closes);
    AscendingSorts(absent);
    AscendingMembers(absent);
    forall i | 0 < i < |out| ensures out[i] == GapMarker(missing[i - 1], ts) && missing[i - 1] in absent {
      assert out[i - 1 + 1] == GapMarker(missing[i - 1], ts);
    }
    forall s | s in symbols && s !in closes ensures exists i :: 0 < i < |out| && out[i] == GapMarker(s, ts) {
      assert s in absent;
      var i :| 0 <= i < |missing| && missing[i] == s;
      assert out[i + 1] == GapMarker(s, ts);
    }
  }

  function Waiting(pending: map<int, map<int, BarClose>>, b: int): map<int, BarClose> {
    if b in pending then pending[b] else map[]
  }

  function FlushEvents(symbols: set<int>, expired: seq<int>, pending: map<int, map<int, BarClose>>): seq<Event> {
    if |expired| == 0 then []
    else
      var n := |expired| - 1;
      FlushEvents(symbols, expired[..n], pending) + FireEvents(symbols, expired[n], Waiting(pending, expired[n]), true)
  }

  // ---- What a flush reports, read off its events ----

  /** Events lo to hi: the bars of one bucket, then one gap marker for each symbol without one, in order. */
  ghost predicate ReportsBucket(out: seq<Event>, lo: nat, hi: nat, symbols: set<int>, ts: int, closes: map<int, BarClose>) {
    && lo < hi <= |out| && out[lo] == MultiBarClose(ts, closes)
    && (forall i :: lo < i < hi ==> out[i].GapMarker? && out[i].ts == ts && out[i].symbol in symbols && out[i].symbol !in closes)
    && (forall i, j :: lo < i < j < hi ==> out[i].symbol < out[j].symbol)
    && (forall s :: s in symbols && s !in closes ==> exists i :: lo < i < hi && out[i] == GapMarker(s, ts))
  }

  /** The buckets one after the other, the n-th from starts[n] on, and nothing else. */
  ghost predicate ReportsInTurn(out: seq<Event>, starts: seq<nat>, buckets: seq<int>, symbols: set<int>,
                                pending: map<int, map<int, BarClose>>) {
    && |starts| == |buckets| + 1 && starts[0] == 0 && starts[|buckets|] == |out|
    && (forall n :: 0 <= n < |buckets| ==> buckets[n] in pending)
    && (forall n :: 0 <= n < |buckets| ==>
      ReportsBucket(out, starts[n], starts[n + 1], symbols, buckets[n], pending[buckets[n]]))
  }

  /** Oldest first, and exactly the buckets whose first bar arrived at least the timeout ago. */
  ghost predicate OverdueInOrder(buckets: seq<int>, arrivals: map<int, int>, nowMs: int, timeoutMs: int) {
    && (forall i, j :: 0 <= i < j < |buckets| ==> buckets[i] < buckets[j])
    && (forall b :: b in buckets <==> b in arrivals && nowMs - arrivals[b] >= timeoutMs)
  }

  ghost predicate ReportsOverdue(out: seq<Event>, symbols: set<int>, pending: map<int, map<int, BarClose>>,
                                 arrivals: map<int, int>, nowMs: int, timeoutMs: int) {
    exists starts: seq<nat>, buckets: seq<int> ::
      ReportsInTurn(out, starts, buckets, symbols, pending) && OverdueInOrder(buckets, arrivals, nowMs, timeoutMs)
  }

  /** ... and after the overdue buckets come these events. */
  ghost predicate ReportsOverdueThen(out: seq<Event>, last: seq<Event>, symbols: set<int>, pending: map<int, map<int, BarClose>>,
                                     arrivals: map<int, int>, nowMs: int, timeoutMs: int) {
    exists flushed :: out == flushed + last && ReportsOverdue(flushed, symbols, pending, arrivals, nowMs, timeoutMs)
  }

  lemma {:induction false} ReportSurvives(out: seq<Event>, more: seq<Event>, lo: nat, hi: nat, symbols: set<int>, ts: int,
                                          closes: map<int, BarClose>)
    requires ReportsBucket(out, lo, hi, symbols, ts, closes)
    ensures ReportsBucket(out + more, lo, hi, symbols, ts, closes)
  {
    var all := out + more;
    assert forall i :: lo <= i < hi ==> all[i] == out[i];
    forall s | s in symbols && s !in closes ensures exists i :: lo < i < hi && all[i] == GapMarker(s, ts) {
      var i :| lo < i < hi && out[i] == GapMarker(s, ts);
      assert all[i] == GapMarker(s, ts);
    }
  }

  lemma {:induction false} FireReports(before: seq<Event>, symbols: set<int>, ts: int, closes: map<int, BarClose>)
    ensures var out := FireEvents(symbols, ts, closes, true);
            ReportsBucket(before + out, |before|, |before + out|, symbols, ts, closes)
  {
    hide FireEvents;
    MarkersFollow(symbols, ts, closes);
    TimeoutCoversSymbols(symbols, ts, closes);
    var out := FireEvents(symbols, ts, closes, true);
    var all, n := before + out, |before|;
    assert forall i :: n <= i < |all| ==> all[i] == out[i - n];
    forall s | s in symbols && s !in closes ensures exists i :: n < i < |all| && all[i] == GapMarker(s, ts) {
      var i :| 0 < i < |out| && out[i] == GapMarker(s, ts);
      assert all[n + i] == GapMarker(s, ts);
    }
  }

  lemma {:induction false} FlushReports(symbols: set<int>, expired: seq<int>, pending: map<int, map<int, BarClose>>) returns (starts: seq<nat>)
    requires forall i :: 0 <= i < |expired| ==> expired[i] in pending
    ensures ReportsInTurn(FlushEvents(symbols, expired, pending), starts, expired, symbols, pending)
  {
    hide FlushEvents, FireEvents, ReportsInTurn, Waiting;
    if |expired| == 0 {
      starts := [0];
      NothingReported(symbols, expired, pending);
    } else {
      var n := |expired| - 1;
      var past, last := expired[..n], expired[n];
      var before := FlushReports(symbols, past, pending);
      assert expired == past + [last];
      starts := OneMoreReport(symbols, past, last, pending, FlushEvents(symbols, past, pending), before);
      FlushOneMore(symbols, past, last, pending);
    }
  }

  lemma {:induction false} NothingReported(symbols: set<int>, none: seq<int>, pending: map<int, map<int, BarClose>>)
    requires |none| == 0
    ensures ReportsInTurn(FlushEvents(symbols, none, pending), [0], none, symbols, pending)
  {}

  lemma {:induction false} FlushOneMore(symbols: set<int>, past: seq<int>, last: int, pending: map<int, map<int, BarClose>>)
    ensures FlushEvents(symbols, past + [last], pending)
         == FlushEvents(symbols, past, pending) + FireEvents(symbols, last, Waiting(pending, last), true)
  {
    assert (past + [last])[..|past|] == past;
  }

  lemma {:induction false} OneMoreReport(symbols: set<int>, past: seq<int>, last: int, pending: map<int, map<int, BarClose>>,
                                         out: seq<Event>, before: seq<nat>) returns (starts: seq<nat>)
    requires ReportsInTurn(out, before, past, symbols, pending) && last in pending
    ensures ReportsInTurn(out + FireEvents(symbols, last, Waiting(pending, last), true), starts, past + [last], symbols, pending)
  {
    hide FireEvents, ReportsBucket;
    var more := FireEvents(symbols, last, pending[last], true);
    FireReports(out, symbols, last, pending[last]);
    starts := before + [|out + more|];
    var buckets := past + [last];
    forall k | 0 <= k < |buckets| ensures ReportsBucket(out + more, starts[k], starts[k + 1], symbols, buckets[k], pending[buckets[k]]) {
      if k < |past| {
        ReportSurvives(out, more, before[k], before[k + 1], symbols, past[k], pending[past[k]]);
      }
    }
  }

  lemma {:induction false} HasArrived(buckets: seq<int>, n: nat, arrivals: map<int, int>, nowMs: int, timeoutMs: int)
    requires OverdueInOrder(buckets, arrivals, nowMs, timeoutMs) && n < |buckets|
    ensures buckets[n] in arrivals
  {
    assert buckets[n] in buckets;
  }

  lemma {:induction false} FlushReportsOverdue(symbols: set<int>, pending: map<int, map<int, BarClose>>, arrivals: map<int, int>,
                                               nowMs: int, timeoutMs: int)
    requires pending.Keys == arrivals.Keys
    ensures ReportsOverdue(FlushEvents(symbols, Ascending(Overdue(arrivals, nowMs, timeoutMs)), pending),
                           symbols, pending, arrivals, nowMs, timeoutMs)
  {
    var due := Overdue(arrivals, nowMs, timeoutMs);
    var expired := Ascending(due);
    AscendingSorts(due);
    hide Ascending, FlushEvents, ReportsInTurn;
    assert OverdueInOrder(expired, arrivals, nowMs, timeoutMs) by {
      forall b ensures b in expired <==> b in arrivals && nowMs - arrivals[b] >= timeoutMs {
        assert b in expired <==> b in Elements(expired);
      }
    }
    forall i | 0 <= i < |expired| ensures expired[i] in pending {
      HasArrived(expired, i, arrivals, nowMs, timeoutMs);
    }
    var starts := FlushReports(symbols, expired, pending);
  }

  lemma {:induction false} CompleteReport(symbols: set<int>, ts: int, closes: map<int, BarClose>)
    ensures FireEvents(symbols, ts, closes, false) == [MultiBarClose(ts, closes)]
  {}

  // ---- The memory of fired buckets ----

  /** No bucket fired later was so much newer as to prune this one. */
  ghost predicate Retained(log: seq<int>, i: nat, timeout: int)
    requires i < |log|
  {
    forall j :: i < j < |log| ==> log[i] >= log[j] - 2 * timeout
  }

  ghost predicate RemembersFired(fired: set<int>, log: seq<int>, timeout: int) {
    forall b :: b in fired <==> exists i :: 0 <= i < |log| && log[i] == b && Retained(log, i, timeout)
  }

  /** A bucket fires again only after one more than twice the timeout newer fired in between. */
  ghost predicate RefiresOnlyAfterNewer(log: seq<int>, timeout: int) {
    forall i, j :: 0 <= i < j < |log| && log[i] == log[j] ==> exists k :: i < k < j && log[i] < log[k] - 2 * timeout
  }

  function Pruned(fired: set<int>, b: int, timeout: int): set<int> {
    (set x | x in fired && x >= b - 2 * timeout) + {b}
  }

  lemma {:induction false} RetainedExtends(log: seq<int>, b: int, i: nat, timeout: int)
    requires i < |log|
    ensures Retained(log + [b], i, timeout) <==> Retained(log, i, timeout) && log[i] >= b - 2 * timeout
  {
    var log' := log + [b];
    assert log'[|log|] == b && forall j :: 0 <= j < |log| ==> log'[j] == log[j];
    if Retained(log', i, timeout) {
      assert log'[i] >= log'[|log|] - 2 * timeout;
      assert forall j :: i < j < |log| ==> log'[i] >= log'[j] - 2 * timeout;
    }
  }

  lemma {:induction false} PruningIsExact(fired: set<int>, log: seq<int>, timeout: int, b: int)
    requires RemembersFired(fired, log, timeout)
    ensures RemembersFired(Pruned(fired, b, timeout), log + [b], timeout)
  {
    var log', n := log + [b], |log|;
    assert log'[n] == b && Retained(log', n, timeout);
    forall x ensures x in Pruned(fired, b, timeout) <==> exists i :: 0 <= i < |log'| && log'[i] == x && Retained(log', i, timeout) {
      if x in fired && x >= b - 2 * timeout {
        var i :| 0 <= i < n && log[i] == x && Retained(log, i, timeout);
        RetainedExtends(log, b, i, timeout);
        assert log'[i] == x;
      }
      if i :| 0 <= i < n && log'[i] == x && Retained(log', i, timeout) {
        RetainedExtends(log, b, i, timeout);
        assert log[i] == x;
      }
    }
  }

  lemma {:induction false} RefiringIsRare(fired: set<int>, log: seq<int>, timeout: int, b: int)
    requires RemembersFired(fired, log, timeout) && RefiresOnlyAfterNewer(log, timeout) && b !in fired
    ensures RefiresOnlyAfterNewer(log + [b], timeout)
  {
    var log', n := log + [b], |log|;
    assert forall j :: 0 <= j < n ==> log'[j] == log[j];
    forall i, j | 0 <= i < j < |log'| && log'[i] == log'[j] ensures exists k :: i < k < j && log'[i] < log'[k] - 2 * timeout {
      if j < n {
        var k :| i < k < j && log[i] < log[k] - 2 * timeout;
        assert log'[k] == log[k];
      } else {
        assert !Retained(log, i, timeout);
        var k :| i < k < n && log[i] < log[k] - 2 * timeout;
        assert log'[k] == log[k];
      }
    }
  }

  /** The pending buckets: the bars of each, fed since it opened, and never one that has fired. */
  ghost predicate BucketsOk(pending: map<int, map<int, BarClose>>, firstArrival: map<int, int>, fed: map<int, seq<BarClose>>,
                            fired: set<int>, tfMs: int)
    requires tfMs > 0
  {
    && pending.Keys == firstArrival.Keys == fed.Keys
    && (forall b :: b in pending ==> b !in fired)
    && (forall b :: b in pending ==> b in fed && pending[b] == Collected(fed[b]))
    && (forall b :: b in fed ==> forall bar :: bar in fed[b] ==> BucketOf(bar.ts, tfMs) == b)
  }

  ghost predicate NoneComplete(pending: map<int, map<int, BarClose>>, symbols: set<int>) {
    forall b :: b in pending ==> !(symbols <= pending[b].Keys)
  }

  /** The timeframes and their lengths in milliseconds. */
  lemma {:induction false} KnownTimeframes()
    ensures TfMs("1s") == Some(1000) && TfMs("1m") == Some(60 * 1000) && TfMs("5m") == Some(5 * 60 * 1000)
    ensures TfMs("15m") == Some(15 * 60 * 1000) && TfMs("1h") == Some(60 * 60 * 1000) && TfMs("4h") == Some(4 * 60 * 60 * 1000)
    ensures TfMs("1d") == Some(24 * 60 * 60 * 1000) && TfMs("1w") == Some(7 * 24 * 60 * 60 * 1000)
    ensures forall tf :: TfMs(tf).Some? <==> tf in {"1s", "1m", "5m", "15m", "1h", "4h", "1d", "1w"}
  {}

  /** The bucket of a time is the one multiple of the timeframe no later than it and less than a timeframe before it. */
  lemma {:induction false} BucketIsFloor(ts: int, tfMs: int, b: int)
    requires tfMs > 0
    ensures b == BucketOf(ts, tfMs) <==> b <= ts < b + tfMs && exists k :: b == k * tfMs
  {
    assert ts == tfMs * (ts / tfMs) + ts % tfMs;
    if k :| b == k * tfMs && b <= ts < b + tfMs {
      var d := k - ts / tfMs;
      assert tfMs * d == b - BucketOf(ts, tfMs);
      SmallMultiple(tfMs, d);
    }
  }

  function BucketOf(ts: int, tfMs: int): int
    requires tfMs > 0
  {
    ts / tfMs * tfMs
  }

  /** A bar joins its bucket, which opens if need be. */
  lemma {:induction false} BarJoins(pending: map<int, map<int, BarClose>>, firstArrival: map<int, int>, fed: map<int, seq<BarClose>>,
                                    fired: set<int>, tfMs: int, bar: BarClose, nowMs: int)
    requires tfMs > 0 && BucketsOk(pending, firstArrival, fed, fired, tfMs) && BucketOf(bar.ts, tfMs) !in fired
    ensures var b := BucketOf(bar.ts, tfMs);
            var bars := (if b in fed then fed[b] else []) + [bar];
            && Collected(bars) == Waiting(pending, b)[bar.symbol := bar]
            && BucketsOk(pending[b := Collected(bars)], firstArrival[b := if b in firstArrival then firstArrival[b] else nowMs],
                         fed[b := bars], fired, tfMs)
  {
    var b := BucketOf(bar.ts, tfMs);
    var past := if b in fed then fed[b] else [];
    assert (past + [bar])[..|past|] == past;
    assert Collected([]) == map[];
  }

  lemma {:induction false} BucketLeaves(pending: map<int, map<int, BarClose>>, firstArrival: map<int, int>, fed: map<int, seq<BarClose>>,
                                        fired: set<int>, tfMs: int, b: int, timeout: int)
    requires tfMs > 0 && BucketsOk(pending, firstArrival, fed, fired, tfMs) && b in pending
    ensures b !in fired
    ensures BucketsOk(pending - {b}, firstArrival - {b}, fed - {b}, Pruned(fired, b, timeout), tfMs)
  {
    hide BucketOf, Collected;
  }

  lemma {:induction false} FiredIsNotPending(pending: map<int, map<int, BarClose>>, firstArrival: map<int, int>, fed: map<int, seq<BarClose>>,
                                             fired: set<int>, tfMs: int)
    requires tfMs > 0 && BucketsOk(pending, firstArrival, fed, fired, tfMs)
    ensures pending.Keys == firstArrival.Keys == fed.Keys
    ensures forall b :: b in fired ==> b !in pending
  {}

  lemma {:induction false} NoneCompleteShrinks(pending: map<int, map<int, BarClose>>, symbols: set<int>, due: set<int>)
    requires NoneComplete(pending, symbols)
    ensures NoneComplete(pending - due, symbols)
  {}

  /** Once a much newer bucket is the last to have fired, an old one is forgotten. */
  lemma {:induction false} ForgottenAfterNewer(fired: set<int>, log: seq<int>, timeout: int, b: int)
    requires RemembersFired(fired, log, timeout) && |log| > 0
    requires log[|log| - 1] != b && log[|log| - 1] > b + 2 * timeout
    ensures b !in fired
  {
    var n := |log| - 1;
    forall i | 0 <= i < |log| && log[i] == b ensures !Retained(log, i, timeout) {
      assert i < n && log[i] < log[n] - 2 * timeout;
    }
  }

  lemma {:induction false} OthersNotFired(fired: set<int>, fired': set<int>, log: seq<int>, timeout: int, b: int, other: int)
    requires RemembersFired(fired, log, timeout) && RemembersFired(fired', log + [b], timeout)
    requires other != b && other !in fired
    ensures other !in fired'
  {
    var log' := log + [b];
    forall i | 0 <= i < |log'| && log'[i] == other ensures !Retained(log', i, timeout) {
      RetainedExtends(log, b, i, timeout);
      assert log[i] == other;
    }
  }

  lemma {:induction false} SameLogSameFired(fired: set<int>, fired': set<int>, log: seq<int>, timeout: int, b: int)
    requires RemembersFired(fired, log, timeout) && RemembersFired(fired', log, timeout)
    ensures b in fired <==> b in fired'
  {}

  lemma {:induction false} ElementsSnoc(s: seq<int>, i: nat)
    requires i < |s|
    ensures s[..i + 1] == s[..i] + [s[i]] && s[..i + 1][..i] == s[..i]
    ensures Elements(s[..i + 1]) == Elements(s[..i]) + {s[i]}
  {}

  lemma {:induction false} RemoveAfterPut<K, V>(m: map<K, V>, k: K, v: V)
    ensures m[k := v] - {k} == m - {k} && m - {k} - {k} == m - {k}
  {}

  function Overdue(arrivals: map<int, int>, nowMs: int, timeoutMs: int): set<int> {
    set b | b in arrivals && nowMs - arrivals[b] >= timeoutMs
  }

  lemma {:induction false} NoneOverdueAfterFlush(arrivals: map<int, int>, nowMs: int, timeoutMs: int)
    ensures Overdue(arrivals - Overdue(arrivals, nowMs, timeoutMs), nowMs, timeoutMs) == {}
  {}

  lemma {:induction false} NotOverdue(arrivals: map<int, int>, nowMs: int, timeoutMs: int, x: int)
    requires Overdue(arrivals, nowMs, timeoutMs) == {} && x in arrivals
    ensures nowMs - arrivals[x] < timeoutMs
  {
    assert x !in Overdue(arrivals, nowMs, timeoutMs);
  }

  lemma {:induction false} MinusOneMore<K, V>(m: map<K, V>, gone: set<K>, k: K)
    ensures m - gone - {k} == m - (gone + {k})
  {}

  /** A bar that joins leaves its bucket's first arrival alone, or opens it now. */
  lemma {:induction false} NoneOverdueAfterJoin(arrivals: map<int, int>, arrived: map<int, int>, b: int, nowMs: int, timeoutMs: int)
    requires timeoutMs > 0 && Overdue(arrivals, nowMs, timeoutMs) == {} && arrived - {b} == arrivals - {b}
    requires b in arrived ==> arrived[b] == if b in arrivals then arrivals[b] else nowMs
    ensures Overdue(arrived, nowMs, timeoutMs) == {}
  {
    forall x | x in arrived ensures nowMs - arrived[x] < timeoutMs {
      if x != b {
        assert x in arrived - {b} && (arrived - {b})[x] == arrived[x];
        assert x in arrivals - {b} && (arrivals - {b})[x] == arrivals[x];
      }
      if x in arrivals {
        NotOverdue(arrivals, nowMs, timeoutMs, x);
      }
    }
  }

  /** A bucket of a single symbol does not stay pending. */
  lemma {:induction false} SingleIsNotPending(pending: map<int, map<int, BarClose>>, firstArrival: map<int, int>, fed: map<int, seq<BarClose>>,
                                              fired: set<int>, tfMs: int, symbols: set<int>, b: int, bar: BarClose)
    requires tfMs > 0 && BucketsOk(pending, firstArrival, fed, fired, tfMs) && NoneComplete(pending, symbols)
    requires symbols == {bar.symbol} && (b in fed ==> fed[b] == [bar])
    ensures b !in pending
  {
    CollectedSingle(bar);
  }

  lemma {:induction false} CollectedSingle(bar: BarClose)
    ensures Collected([bar]) == map[bar.symbol := bar]
  {
    assert Collected([]) == map[] && [bar][..0] == [];
  }

  // ---- The machine ----

  class Barrier {
    const symbols: set<int>
    const tfMs: int
    const timeoutMs: int
    var pending: map<int, map<int, BarClose>>
    var firstArrival: map<int, int>
    var fired: set<int>
    // the bars fed to each pending bucket since it opened, and every bucket fired
    ghost var fed: map<int, seq<BarClose>>
    ghost var log: seq<int>

    /** Valid but for the bucket being completed. */
    ghost predicate Consistent()
      reads this
    {
      && symbols != {} && tfMs > 0 && BucketsOk(pending, firstArrival, fed, fired, tfMs)
      && RemembersFired(fired, log, timeoutMs) && RefiresOnlyAfterNewer(log, timeoutMs)
    }

    ghost predicate Valid()
      reads this
    {
      Consistent() && NoneComplete(pending, symbols)
    }

    constructor (symbols: set<int>, tfMs: int, timeoutMs: int)
      requires symbols != {} && tfMs > 0
      ensures Valid() && pending == map[] && log == []
      ensures this.symbols == symbols && this.tfMs == tfMs && this.timeoutMs == timeoutMs
    {
      this.symbols, this.tfMs, this.timeoutMs := symbols, tfMs, timeoutMs;
      pending, firstArrival, fired, fed, log := map[], map[], {}, map[], [];
    }

    /** Refuses an unknown timeframe and an empty symbol set. */
    static method Create(symbols: set<int>, tf: string, timeoutMs: int) returns (r: Option<Barrier>)
      ensures r.None? <==> TfMs(tf).None? || symbols == {}
      ensures r.Some? ==>
                && fresh(r.value) && r.value.Valid() && r.value.log == [] && r.value.pending == map[]
                && r.value.symbols == symbols && r.value.tfMs == TfMs(tf).value && r.value.timeoutMs == timeoutMs
    {
      var ms := TfMs(tf);
      if ms.None? || symbols == {} {
        return None;
      }
      var b := new Barrier(symbols, ms.value, timeoutMs);
      r := Some(b);
    }

    function Expired(nowMs: int): set<int>
      reads this
    {
      Overdue(firstArrival, nowMs, timeoutMs)
    }

    method Fire(b: int, timedOut: bool) returns (out: seq<Event>)
      requires Consistent() && b in pending
      modifies this
      ensures Consistent() && pending == old(pending) - {b} && firstArrival == old(firstArrival) - {b} && fed == old(fed) - {b}
      ensures log == old(log) + [b] && fired == Pruned(old(fired), b, timeoutMs)
      ensures out == FireEvents(symbols, b, Waiting(old(pending), b), timedOut)
    {
      hide RemembersFired, RefiresOnlyAfterNewer, FireEvents, BucketsOk, Pruned;
      BucketLeaves(pending, firstArrival, fed, fired, tfMs, b, timeoutMs);
      PruningIsExact(fired, log, timeoutMs, b);
      RefiringIsRare(fired, log, timeoutMs, b);
      out := FireEvents(symbols, b, Waiting(pending, b), timedOut);
      pending, firstArrival, fed := pending - {b}, firstArrival - {b}, fed - {b};
      fired := Pruned(fired, b, timeoutMs);
      log := log + [b];
    }

    /** The loop of the flush: fires the given buckets in turn. */
    method FireAll(expired: seq<int>) returns (out: seq<Event>)
      requires Consistent() && Elements(expired) <= pending.Keys
      requires forall i, j :: 0 <= i < j < |expired| ==> expired[i] < expired[j]
      modifies this
      ensures Consistent() && log == old(log) + expired && out == FlushEvents(symbols, expired, old(pending))
      ensures pending == old(pending) - Elements(expired)
      ensures firstArrival == old(firstArrival) - Elements(expired) && fed == old(fed) - Elements(expired)
    {
      ghost var waiting, arrivals, bars, fires := pending, firstArrival, fed, log;
      hide RemembersFired, RefiresOnlyAfterNewer, BucketsOk, FireEvents, Pruned;
      out := [];
      for i := 0 to |expired|
        invariant Consistent() && log == fires + expired[..i] && out == FlushEvents(symbols, expired[..i], waiting)
        invariant pending == waiting - Elements(expired[..i])
        invariant firstArrival == arrivals - Elements(expired[..i]) && fed == bars - Elements(expired[..i])
      {
        ElementsSnoc(expired, i);
        assert expired[i] in Elements(expired) && expired[i] !in Elements(expired[..i]);
        hide Elements;
        MinusOneMore(waiting, Elements(expired[..i]), expired[i]);
        MinusOneMore(arrivals, Elements(expired[..i]), expired[i]);
        MinusOneMore(bars, Elements(expired[..i]), expired[i]);
        var more := Fire(expired[i], true);
        out := out + more;
      }
      assert expired[..|expired|] == expired;
    }

    /** Fires every bucket that has waited long enough, oldest first. */
    method FlushExpired(nowMs: int) returns (out: seq<Event>)
      requires Valid()
      modifies this
      ensures Valid()
      ensures var due := old(Expired(nowMs));
              && pending == old(pending) - due && firstArrival == old(firstArrival) - due && fed == old(fed) - due
              && log == old(log) + Ascending(due)
      ensures ReportsOverdue(out, symbols, old(pending), old(firstArrival), nowMs, timeoutMs)
    {
      hide RemembersFired, RefiresOnlyAfterNewer, BucketsOk, FlushEvents, NoneComplete, Ascending, ReportsOverdue;
      FiredIsNotPending(pending, firstArrival, fed, fired, tfMs);
      FlushReportsOverdue(symbols, pending, firstArrival, nowMs, timeoutMs);
      var due := Expired(nowMs);
      var expired := Ascending(due);
      AscendingSorts(due);
      NoneCompleteShrinks(pending, symbols, due);
      out := FireAll(expired);
    }

    /** Feed after the flush: the bar is late, or joins its bucket and perhaps completes it. */
    method Handle(bar: BarClose, nowMs: int) returns (out: seq<Event>)
      requires Valid()
      modifies this
      ensures Valid()
      ensures var b := BucketOf(bar.ts, tfMs);
              var bars := (if b in old(fed) then old(fed)[b] else []) + [bar];
              && pending - {b} == old(pending) - {b} && fed - {b} == old(fed) - {b}
              && firstArrival - {b} == old(firstArrival) - {b}
              && if b in old(fired) then
                out == [] && log == old(log) && b !in pending && fired == old(fired)
              else if symbols <= Collected(bars).Keys then
                out == [MultiBarClose(b, Collected(bars))] && log == old(log) + [b] && b !in pending
              else
                && out == [] && log == old(log) && b in pending && fed[b] == bars
                && firstArrival[b] == if b in old(fed) then old(firstArrival)[b] else nowMs
    {
      hide RemembersFired, RefiresOnlyAfterNewer, FireEvents, Collected, BucketsOk, BucketOf, Pruned;
      out := [];
      var b := BucketOf(bar.ts, tfMs);
      FiredIsNotPending(pending, firstArrival, fed, fired, tfMs);
      if b in fired {
        return;
      }
      BarJoins(pending, firstArrival, fed, fired, tfMs, bar, nowMs);
      ghost var bars := (if b in fed then fed[b] else []) + [bar];
      RemoveAfterPut(pending, b, Waiting(pending, b)[bar.symbol := bar]);
      RemoveAfterPut(firstArrival, b, if b in firstArrival then firstArrival[b] else nowMs);
      RemoveAfterPut(fed, b, bars);
      firstArrival := firstArrival[b := if b in firstArrival then firstArrival[b] else nowMs];
      pending := pending[b := Waiting(pending, b)[bar.symbol := bar]];
      fed := fed[b := bars];
      if symbols <= pending[b].Keys {
        out := Fire(b, false);
        CompleteReport(symbols, b, Collected(bars));
      }
    }

    /** One bar, at wall-clock time nowMs. */
    method Feed(bar: BarClose, nowMs: int) returns (out: seq<Event>)
      requires Valid()
      modifies this
      ensures Valid()
      // with a positive timeout nothing that has waited long enough is left
      ensures timeoutMs > 0 ==> Expired(nowMs) == {}
      ensures var due, b := old(Expired(nowMs)), BucketOf(bar.ts, tfMs);
              var bars := (if b in old(fed) && b !in due then old(fed)[b] else []) + [bar];
              var fires := old(log) + Ascending(due);
              // other buckets only expire
              && pending - {b} == old(pending) - due - {b} && fed - {b} == old(fed) - due - {b}
              && firstArrival - {b} == old(firstArrival) - due - {b}
              // this bucket: late, still collecting, or complete
              && (|| (b in fired && b !in pending && log == fires
                      && ReportsOverdue(out, symbols, old(pending), old(firstArrival), nowMs, timeoutMs))
                  || (b in pending && log == fires && fed[b] == bars
                      && firstArrival[b] == (if b in old(fed) && b !in due then old(firstArrival)[b] else nowMs)
                      && ReportsOverdue(out, symbols, old(pending), old(firstArrival), nowMs, timeoutMs))
                  || (symbols <= Collected(bars).Keys && b !in pending && log == fires + [b]
                      && ReportsOverdueThen(out, [MultiBarClose(b, Collected(bars))], symbols, old(pending), old(firstArrival), nowMs, timeoutMs)))
    {
      hide RemembersFired, RefiresOnlyAfterNewer, FireEvents, Ascending, FlushEvents, Collected, BucketsOk, BucketOf, NoneComplete,
        ReportsOverdue;
      FiredIsNotPending(pending, firstArrival, fed, fired, tfMs);
      hide Overdue;
      NoneOverdueAfterFlush(firstArrival, nowMs, timeoutMs);
      out := FlushExpired(nowMs);
      FiredIsNotPending(pending, firstArrival, fed, fired, tfMs);
      ghost var arrivals := firstArrival;
      var more := Handle(bar, nowMs);
      ghost var flushed := out;
      out := out + more;
      assert more == [] ==> out == flushed;
      FiredIsNotPending(pending, firstArrival, fed, fired, tfMs);
      if timeoutMs > 0 {
        NoneOverdueAfterJoin(arrivals, firstArrival, BucketOf(bar.ts, tfMs), nowMs, timeoutMs);
      }
    }
  }

  /** A barrier of one symbol fires every bar at once. */
  method FeedOnly(barrier: Barrier, bar: BarClose, nowMs: int) returns (out: seq<Event>)
    requires barrier.Valid() && barrier.symbols == {bar.symbol} && barrier.pending == map[]
    requires BucketOf(bar.ts, barrier.tfMs) !in barrier.fired
    modifies barrier
    ensures barrier.Valid() && barrier.pending == map[] && barrier.log == old(barrier.log) + [BucketOf(bar.ts, barrier.tfMs)]
    ensures out == [MultiBarClose(BucketOf(bar.ts, barrier.tfMs), map[bar.symbol := bar])]
  {
    hide RemembersFired, RefiresOnlyAfterNewer, BucketOf, BucketsOk, NoneComplete, FireEvents, Collected;
    FiredIsNotPending(barrier.pending, barrier.firstArrival, barrier.fed, barrier.fired, barrier.tfMs);
    ghost var due := barrier.Expired(nowMs);
    assert due == {} && Ascending(due) == [];
    ghost var fires, fired, waiting, arrivals := barrier.log, barrier.fired, barrier.pending, barrier.firstArrival;
    assert fires + Ascending(due) == fires;
    hide Ascending;
    out := barrier.Feed(bar, nowMs);
    var b := BucketOf(bar.ts, barrier.tfMs);
    ghost var none: seq<BarClose> := [];
    assert none + [bar] == [bar];
    CollectedSingle(bar);
    FiredIsNotPending(barrier.pending, barrier.firstArrival, barrier.fed, barrier.fired, barrier.tfMs);
    SingleIsNotPending(barrier.pending, barrier.firstArrival, barrier.fed, barrier.fired, barrier.tfMs, barrier.symbols, b, bar);
    if |barrier.log| == |fires| {
      SameLogSameFired(fired, barrier.fired, fires, barrier.timeoutMs, b);
      assert false;
    }
    assert barrier.pending - {b} == map[];
    NothingWasOverdue(out, [MultiBarClose(b, Collected([bar]))], barrier.symbols, waiting, arrivals, nowMs, barrier.timeoutMs);
  }

  lemma {:induction false} NothingWasOverdue(out: seq<Event>, last: seq<Event>, symbols: set<int>, pending: map<int, map<int, BarClose>>,
                                             arrivals: map<int, int>, nowMs: int, timeoutMs: int)
    requires ReportsOverdueThen(out, last, symbols, pending, arrivals, nowMs, timeoutMs) && |arrivals| == 0
    ensures out == last
  {
    hide ReportsBucket;
    var flushed :| out == flushed + last && ReportsOverdue(flushed, symbols, pending, arrivals, nowMs, timeoutMs);
    var starts: seq<nat>, buckets :| ReportsInTurn(flushed, starts, buckets, symbols, pending) && OverdueInOrder(buckets, arrivals, nowMs, timeoutMs);
    if |buckets| > 0 {
      HasArrived(buckets, 0, arrivals, nowMs, timeoutMs);
      assert false;
    }
  }

  /**
    A late bar does fire its bucket again once a bucket more than twice the timeout newer has fired: on a
    barrier of one symbol, the same bar is reported twice.
  */
  method LateBarFiresAgain(barrier: Barrier, bar: BarClose, newer: BarClose, nowMs: int) returns (first: seq<Event>, again: seq<Event>)
    requires barrier.Valid() && barrier.symbols == {bar.symbol} && newer.symbol == bar.symbol && barrier.pending == map[]
    requires barrier.timeoutMs > 0
    requires BucketOf(bar.ts, barrier.tfMs) !in barrier.fired && BucketOf(newer.ts, barrier.tfMs) !in barrier.fired
    requires BucketOf(newer.ts, barrier.tfMs) > BucketOf(bar.ts, barrier.tfMs) + 2 * barrier.timeoutMs
    modifies barrier
    ensures first == again == [MultiBarClose(BucketOf(bar.ts, barrier.tfMs), map[bar.symbol := bar])]
  {
    hide RemembersFired, RefiresOnlyAfterNewer, BucketOf, BucketsOk, NoneComplete;
    var b, n := BucketOf(bar.ts, barrier.tfMs), BucketOf(newer.ts, barrier.tfMs);
    ghost var fired, fires := barrier.fired, barrier.log;
    first := FeedOnly(barrier, bar, nowMs);
    OthersNotFired(fired, barrier.fired, fires, barrier.timeoutMs, b, n);
    var _ := FeedOnly(barrier, newer, nowMs);
    ForgottenAfterNewer(barrier.fired, barrier.log, barrier.timeoutMs, b);
    again := FeedOnly(barrier, bar, nowMs);
  }
}
