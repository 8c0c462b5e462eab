/** Bar boundaries of the seven timeframes (candle-service/internal/cascade/cascade.go, IsBarClose). */
module Calendar {
  import opened Integers

  datatype TF = M1 | M5 | M15 | H1 | H4 | D1 | W1

  /** Ascending duration order. */
  const ALL_TFS: seq<TF> := [M1, M5, M15, H1, H4, D1, W1]

  /** Seconds from the library's zero time (1 January of year 1) to the Unix epoch. */
  const ZERO_TIME_OFFSET: int := 62135596800

  /** time.Truncate on whole seconds: down to a multiple of d counted from the zero time. */
  function Truncate(unix: int, d: int): int
    requires d > 0
  {
    unix - (unix + ZERO_TIME_OFFSET) % d
  }

  /** Sunday is 0; the epoch was a Thursday. */
  function Weekday(unix: int): int {
    (4 + unix / 86400) % 7
  }

  function Length(tf: TF): int
    ensures Length(tf) > 0
  {
    match tf
    case M1 => 60
    case M5 => 300
    case M15 => 900
    case H1 => 3600
    case H4 => 14400
    case D1 => 86400
    case W1 => 604800
  }

  /** The next second begins a new bar. */
  predicate IsBarClose(tsSecMs: int, tf: TF) {
    var curr := TruncDiv(tsSecMs, 1000);
    var next := curr + 1;
    if tf == W1 then Weekday(next) == 1 && next % 86400 == 0
    else Truncate(next, Length(tf)) > Truncate(curr, Length(tf))
  }

  /** A second at which a bar of the timeframe starts: a multiple of its length, or Monday midnight. */
  predicate IsBoundary(unix: int, tf: TF) {
    if tf == W1 then unix % 604800 == 345600 else unix % Length(tf) == 0
  }

  lemma {:induction false} ModAddMultiple(x: int, q: int, d: int)
    requires d > 0
    ensures (x + d * q) % d == x % d
  {
    var r, s := x % d, (x + d * q) % d;
    assert x == d * (x / d) + r && x + d * q == d * ((x + d * q) / d) + s;
    var t := (x + d * q) / d - x / d - q;
    assert d * t == r - s by {
      assert d * t == d * ((x + d * q) / d) - d * (x / d) - d * q;
    }
    SmallMultiple(d, t);
  }

  lemma {:induction false} NextMod(x: int, d: int)
    requires d > 1
    ensures x % d < d - 1 ==> (x + 1) % d == x % d + 1
    ensures x % d == d - 1 ==> (x + 1) % d == 0
  {
    var q, r := x / d, x % d;
    var whole := d * q;
    assert x == whole + r;
    if r == d - 1 {
      assert d * (q + 1) == whole + d;
      ModAddMultiple(0, q + 1, d);
    } else {
      ModAddMultiple(r + 1, q, d);
      SmallMod(r + 1, d);
    }
  }

  lemma {:induction false} SmallMod(r: int, d: int)
    requires 0 <= r < d
    ensures r % d == r
  {}

  lemma {:induction false} TruncationSteps(x: int, d: int)
    requires d > 1 && ZERO_TIME_OFFSET % d == 0
    ensures Truncate(x + 1, d) > Truncate(x, d) <==> (x + 1) % d == 0
  {
    var k := ZERO_TIME_OFFSET / d;
    assert ZERO_TIME_OFFSET == d * k;
    ModAddMultiple(x, k, d);
    ModAddMultiple(x + 1, k, d);
    NextMod(x, d);
  }

  /** The truncation test of the source says exactly that the next second is a boundary. */
  lemma {:induction false} CloseIsBoundary(tsSecMs: int, tf: TF)
    ensures IsBarClose(tsSecMs, tf) <==> IsBoundary(TruncDiv(tsSecMs, 1000) + 1, tf)
  {
    var curr := TruncDiv(tsSecMs, 1000);
    if tf == W1 {
      MondayMidnight(curr + 1);
    } else {
      TruncationSteps(curr, Length(tf));
    }
  }

  /** In plain numbers: at the last second of each minute, 5 minutes, ..., UTC day, and of each Sunday. */
  lemma {:induction false} WhenBarsClose(tsSecMs: int)
    ensures var next := (if tsSecMs >= 0 then tsSecMs / 1000 else -(-tsSecMs / 1000)) + 1;
            && (IsBarClose(tsSecMs, M1) <==> next % 60 == 0)
            && (IsBarClose(tsSecMs, M5) <==> next % (5 * 60) == 0)
            && (IsBarClose(tsSecMs, M15) <==> next % (15 * 60) == 0)
            && (IsBarClose(tsSecMs, H1) <==> next % 3600 == 0)
            && (IsBarClose(tsSecMs, H4) <==> next % (4 * 3600) == 0)
            && (IsBarClose(tsSecMs, D1) <==> next % 86400 == 0)
            && (IsBarClose(tsSecMs, W1) <==> next % (7 * 86400) == 4 * 86400)
  {
    hide IsBarClose;
    CloseIsBoundary(tsSecMs, M1);
    CloseIsBoundary(tsSecMs, M5);
    CloseIsBoundary(tsSecMs, M15);
    CloseIsBoundary(tsSecMs, H1);
    CloseIsBoundary(tsSecMs, H4);
    CloseIsBoundary(tsSecMs, D1);
    CloseIsBoundary(tsSecMs, W1);
  }

  lemma {:induction false} TruncateBeforeBoundary(x: int, d: int)
    requires d > 1 && ZERO_TIME_OFFSET % d == 0 && (x + 1) % d == 0
    ensures Truncate(x, d) == x + 1 - d
  {
    var k := ZERO_TIME_OFFSET / d;
    assert ZERO_TIME_OFFSET == d * k;
    ModAddMultiple(x, k, d);
    NextMod(x, d);
  }

  /** The bar that closes with a second opened one length before the next second. */
  lemma {:induction false} OpenedOneLengthBefore(tsSecMs: int, tf: TF)
    requires tf != W1 && IsBarClose(tsSecMs, tf)
    ensures Truncate(TruncDiv(tsSecMs, 1000), Length(tf)) == TruncDiv(tsSecMs, 1000) + 1 - Length(tf)
  {
    CloseIsBoundary(tsSecMs, tf);
    hide IsBarClose, Truncate, TruncDiv;
    TruncateBeforeBoundary(TruncDiv(tsSecMs, 1000), Length(tf));
  }

  lemma {:induction false} MondayMidnight(x: int)
    ensures Weekday(x) == 1 && x % 86400 == 0 <==> x % 604800 == 345600
  {
    var day := x / 86400;
    assert x == 86400 * day + x % 86400;
    if x % 604800 == 345600 {
      var w := x / 604800;
      assert x == 604800 * w + 345600 == 86400 * (7 * w + 4);
      assert day == 7 * w + 4 by {
        ModAddMultiple(0, 7 * w + 4, 86400);
      }
    } else if Weekday(x) == 1 && x % 86400 == 0 {
      var w := (4 + day) / 7;
      assert 4 + day == 7 * w + 1;
      assert x == 604800 * (w - 1) + 345600;
      ModAddMultiple(345600, w - 1, 604800);
    }
  }

  /** The timeframe below; the roll-up law relates each one to it. */
  function Lower(tf: TF): TF
    requires tf != M1
  {
    match tf
    case M5 => M1
    case M15 => M5
    case H1 => M15
    case H4 => H1
    case D1 => H4
    case W1 => D1
  }

  lemma {:induction false} MultipleOf(x: int, d: int, k: int)
    requires d > 0 && k > 0 && x % (d * k) == 0
    ensures x % d == 0
  {
    var q := x / (d * k);
    assert x == (d * k) * q == d * (k * q);
    ModAddMultiple(0, k * q, d);
  }

  /** Boundaries nest: whenever a timeframe closes, so does the one below it. */
  lemma {:induction false} ClosesNest(tsSecMs: int, tf: TF)
    requires tf != M1 && IsBarClose(tsSecMs, tf)
    ensures IsBarClose(tsSecMs, Lower(tf))
  {
    var x := TruncDiv(tsSecMs, 1000) + 1;
    CloseIsBoundary(tsSecMs, tf);
    CloseIsBoundary(tsSecMs, Lower(tf));
    match tf
    case M5 => MultipleOf(x, 60, 5);
    case M15 => MultipleOf(x, 300, 3);
    case H1 => MultipleOf(x, 900, 4);
    case H4 => MultipleOf(x, 3600, 4);
    case D1 => MultipleOf(x, 14400, 6);
    case W1 => MondayMidnight(x);
  }
}
