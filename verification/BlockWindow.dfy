/** The rolling window of trade sizes and its 99th percentile (candle-service/internal/blockwindow/window.go). */
module BlockWindow {
  import opened Options
  import opened RealSeqs

  function LastN<T>(s: seq<T>, n: nat): seq<T> {
    if |s| <= n then s else s[|s| - n..]
  }

  /** A window restored from its own contents goes on exactly as the original would. */
  lemma {:induction false} RestoredWindowGoesOn<T>(h: seq<T>, more: seq<T>, n: nat)
    ensures LastN(LastN(h, n) + more, n) == LastN(h + more, n)
  {
    var kept := LastN(h, n);
    if |kept + more| > n {
      assert (kept + more)[|kept + more| - n..] == (h + more)[|h + more| - n..];
    }
  }

  /** At least 99% of the window is at or below r, and less than 99% strictly below it. */
  ghost predicate IsP99(window: seq<real>, r: real) {
    && r in window
    && Below(window, r, false) as real >= 0.99 * |window| as real
    && (Below(window, r, true) as real) < 0.99 * |window| as real
  }

  /** No other member has that property, so it determines the threshold. */
  lemma {:induction false} P99IsUnique(window: seq<real>, a: real, b: real)
    requires IsP99(window, a) && IsP99(window, b)
    ensures a == b
  {
    if a < b {
      BelowMonotone(window, a, b);
    } else if b < a {
      BelowMonotone(window, b, a);
    }
  }

  function Ceil(x: real): int {
    -((-x).Floor)
  }

  lemma {:induction false} NearestRankIsP99(window: seq<real>)
    requires window != []
    ensures var k := Ceil(0.99 * |window| as real) - 1; 0 <= k < |window| && k < |Sort(window)| && IsP99(window, Sort(window)[k])
  {
    var n := |window| as real;
    var k := Ceil(0.99 * n) - 1;
    RankInRange(|window|);
    hide Ceil, Sort, Below;
    SortedShape(window);
    var r := Sort(window)[k];
    SortedMember(window, k);
    SortedRanks(Sort(window), k);
    BelowSort(window, r, false);
    BelowSort(window, r, true);
  }

  lemma {:induction false} SortedShape(s: seq<real>)
    ensures |Sort(s)| == |s| && Sorted(Sort(s))
  {
    SortSorts(s);
  }

  lemma {:induction false} SortedMember(s: seq<real>, k: nat)
    requires k < |Sort(s)|
    ensures Sort(s)[k] in s
  {
    SortSorts(s);
    hide Sort;
    assert Sort(s)[k] in multiset(Sort(s));
  }

  /** The nearest rank: the last one whose predecessors are fewer than 99%. */
  lemma {:induction false} RankInRange(n: nat)
    requires n >= 1
    ensures var k := Ceil(0.99 * n as real) - 1; 0 <= k < n && (k as real) < 0.99 * n as real <= (k + 1) as real
  {
    assert 0.0 < 0.99 * n as real <= n as real;
  }

  class Window {
    var buf: array<real>
    var len: nat
    const windowSize: nat
    const minSample: nat
    ghost var history: seq<real>

    /** The slice holds exactly the last min(n, windowSize) sizes, in order. */
    ghost predicate Valid()
      reads this, buf
    {
      windowSize >= 1 && buf.Length == windowSize && len <= windowSize && buf[..len] == LastN(history, windowSize)
    }

    constructor (windowSize: nat, minSample: nat)
      requires windowSize >= 1
      ensures Valid() && history == [] && fresh(buf)
      ensures this.windowSize == windowSize && this.minSample == minSample
    {
      this.windowSize, this.minSample := windowSize, minSample;
      buf := new real[windowSize](_ => 0.0);
      len := 0;
      history := [];
    }

    method Add(size: real)
      requires Valid()
      modifies this, buf
      ensures Valid() && buf == old(buf) && history == old(history) + [size]
    {
      RestoredWindowGoesOn(history, [size], windowSize);
      ghost var was := buf[..len];
      if len >= windowSize {
        forall i | 0 <= i < len - 1 {
          buf[i] := buf[i + 1];
        }
        len := len - 1;
        assert buf[..len] == was[1..];
      }
      assert buf[..len] == LastN(was, windowSize - 1);
      buf[len] := size;
      len := len + 1;
      assert buf[..len] == LastN(was, windowSize - 1) + [size];
      history := history + [size];
    }

    method Threshold() returns (r: Option<real>)
      requires Valid()
      ensures r.Some? <==> len > 0 && len >= minSample
      ensures r.Some? ==> IsP99(buf[..len], r.value)
    {
      if len == 0 || len < minSample {
        return None;
      }
      var sorted := Sort(buf[..len]);
      NearestRankIsP99(buf[..len]);
      SortSorts(buf[..len]);
      var idx := Ceil(0.99 * |sorted| as real) - 1;
      if idx < 0 {
        idx := 0;
      }
      if idx >= |sorted| {
        idx := |sorted| - 1;
      }
      r := Some(sorted[idx]);
    }

    method Sizes() returns (s: seq<real>)
      requires Valid()
      ensures s == LastN(history, windowSize) && |s| == len
    {
      s := buf[..len];
    }

    method Restore(sizes: seq<real>)
      requires Valid()
      modifies this
      ensures Valid() && fresh(buf) && history == sizes
    {
      var kept := if |sizes| > windowSize then sizes[|sizes| - windowSize..] else sizes;
      buf := new real[windowSize](i => if 0 <= i < |kept| then kept[i] else 0.0);
      len := |kept|;
      assert buf[..len] == kept;
      history := sizes;
    }
  }
}
