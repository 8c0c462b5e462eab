/** Trade clustering: the Gini coefficient of inter-trade intervals (accumulator.go, computeGini). */
module Gini {
  import opened Options
  import opened RealSeqs

  function Abs(x: real): real {
    if x < 0.0 then -x else x
  }

  /** The intervals between neighbouring timestamps, out-of-order ones clamped to zero. */
  function Intervals(ts: seq<int>): seq<real> {
    seq(if |ts| < 2 then 0 else |ts| - 1, i requires 0 <= i < |ts| - 1 =>
      if ts[i + 1] < ts[i] then 0.0 else (ts[i + 1] - ts[i]) as real)
  }

  // ---- Mean absolute difference, with no order involved ----

  /** Sum of |x - s[i]|. */
  function Distance(x: real, s: seq<real>): real {
    if s == [] then 0.0 else Abs(x - s[0]) + Distance(x, s[1..])
  }

  /** Sum of |s[i] - s[j]| over all pairs i < j. */
  function PairGap(s: seq<real>): real {
    if s == [] then 0.0 else Distance(s[0], s[1..]) + PairGap(s[1..])
  }

  lemma {:induction false} DistanceInsert(x: real, y: real, s: seq<real>)
    ensures Distance(x, Insert(y, s)) == Abs(x - y) + Distance(x, s)
  {
    if s == [] || y <= s[0] {
      assert ([y] + s)[1..] == s;
    } else {
      assert ([s[0]] + Insert(y, s[1..]))[1..] == Insert(y, s[1..]);
      DistanceInsert(x, y, s[1..]);
    }
  }

  lemma {:induction false} PairGapInsert(y: real, s: seq<real>)
    ensures PairGap(Insert(y, s)) == Distance(y, s) + PairGap(s)
  {
    if s == [] || y <= s[0] {
      assert ([y] + s)[1..] == s;
    } else {
      assert ([s[0]] + Insert(y, s[1..]))[1..] == Insert(y, s[1..]);
      DistanceInsert(s[0], y, s[1..]);
      PairGapInsert(y, s[1..]);
    }
  }

  lemma {:induction false} DistanceSort(x: real, s: seq<real>)
    ensures Distance(x, Sort(s)) == Distance(x, s)
  {
    if s != [] {
      DistanceSort(x, s[1..]);
      DistanceInsert(x, s[0], Sort(s[1..]));
    }
  }

  lemma {:induction false} PairGapSort(s: seq<real>)
    ensures PairGap(Sort(s)) == PairGap(s)
  {
    if s != [] {
      PairGapSort(s[1..]);
      PairGapInsert(s[0], Sort(s[1..]));
      DistanceSort(s[0], s[1..]);
    }
  }

  lemma {:induction false} SumInsert(x: real, s: seq<real>)
    ensures Sum(Insert(x, s)) == x + Sum(s)
  {
    if s == [] || x <= s[0] {
      assert ([x] + s)[1..] == s;
    } else {
      assert ([s[0]] + Insert(x, s[1..]))[1..] == Insert(x, s[1..]);
      SumInsert(x, s[1..]);
    }
  }

  lemma {:induction false} SumSort(s: seq<real>)
    ensures Sum(Sort(s)) == Sum(s)
  {
    if s != [] {
      SumSort(s[1..]);
      SumInsert(s[0], Sort(s[1..]));
    }
  }

  // ---- The weighted sum of the source ----

  /** Sum of (2(k + i) - m + 1) * s[i]. */
  function Weighted(s: seq<real>, k: int, m: int): real {
    if s == [] then 0.0 else (2 * k - m + 1) as real * s[0] + Weighted(s[1..], k + 1, m)
  }

  function Times(c: real, x: real): real {
    c * x
  }

  lemma {:induction false} DistanceFromLeast(x: real, s: seq<real>)
    requires forall i :: 0 <= i < |s| ==> x <= s[i]
    ensures Distance(x, s) == Sum(s) - Times(|s| as real, x)
  {
    if s != [] {
      var n := |s| - 1;
      assert forall i :: 0 <= i < |s[1..]| ==> s[1..][i] == s[i + 1];
      assert Times((n + 1) as real, x) == Times(n as real, x) + x;
      hide Times;
      DistanceFromLeast(x, s[1..]);
    }
  }

  /** For sorted s the weights 2i - m + 1 turn the plain sum into the sum over all pairs. */
  lemma {:induction false} WeightedIsPairGap(s: seq<real>, k: int, m: int)
    requires Sorted(s)
    ensures Weighted(s, k, m) == PairGap(s) + Times((2 * k - m + |s|) as real, Sum(s))
  {
    if s != [] {
      var x, rest, n, c := s[0], s[1..], |s| as real, (2 * k - m) as real;
      WeightedCons(s, k, m);
      DistanceFromLeast(x, rest);
      hide Weighted, PairGap, Sum, Distance, Times;
      WeightedIsPairGap(rest, k + 1, m);
      Recombine(x, Sum(rest), n, c);
      assert (2 * (k + 1) - m + |rest|) as real == c + n + 1.0;
      assert (2 * k - m + |s|) as real == c + n && |rest| as real == n - 1.0;
    }
  }

  lemma {:induction false} WeightedCons(s: seq<real>, k: int, m: int)
    requires s != []
    ensures Weighted(s, k, m) == Times((2 * k - m) as real + 1.0, s[0]) + Weighted(s[1..], k + 1, m)
    ensures PairGap(s) == Distance(s[0], s[1..]) + PairGap(s[1..]) && Sum(s) == s[0] + Sum(s[1..])
  {
    assert (2 * k - m + 1) as real == (2 * k - m) as real + 1.0;
  }

  lemma {:induction false} Recombine(x: real, rest: real, n: real, c: real)
    ensures Times(c + 1.0, x) + Times(c + n + 1.0, rest) == (rest - Times(n - 1.0, x)) + Times(c + n, x + rest)
  {}

  lemma {:induction false} WeightedAtMost(s: seq<real>, k: int, m: int)
    requires NonNegative(s) && k + |s| <= m
    ensures Weighted(s, k, m) <= (m - 1) as real * Sum(s)
  {
    if s != [] {
      assert forall i :: 0 <= i < |s[1..]| ==> s[1..][i] == s[i + 1];
      WeightedAtMost(s[1..], k + 1, m);
      var gap := (m - 1) as real - (2 * k - m + 1) as real;
      assert gap >= 0.0 && gap * s[0] >= 0.0;
      assert (m - 1) as real * Sum(s) == (m - 1) as real * s[0] + (m - 1) as real * Sum(s[1..]);
    }
  }

  lemma {:induction false} PairGapNonNegative(s: seq<real>)
    ensures PairGap(s) >= 0.0
  {
    if s != [] {
      DistanceNonNegative(s[0], s[1..]);
      PairGapNonNegative(s[1..]);
    }
  }

  lemma {:induction false} DistanceNonNegative(x: real, s: seq<real>)
    ensures Distance(x, s) >= 0.0
  {
    if s != [] {
      DistanceNonNegative(x, s[1..]);
    }
  }

  lemma {:induction false} IntervalsNonNegative(ts: seq<int>)
    ensures NonNegative(Intervals(ts))
  {}

  /** The ratio w / (m * total) inherits the bounds of w. */
  lemma {:induction false} RatioBounds(w: real, m: int, total: real)
    requires m >= 1 && total > 0.0 && 0.0 <= w <= (m - 1) as real * total
    ensures m as real * total > 0.0 && w / (m as real * total) * (m as real * total) == w
    ensures 0.0 <= w / (m as real * total) <= (m - 1) as real / m as real
  {
    var d := m as real * total;
    var top := (m - 1) as real;
    assert d > 0.0;
    var q := w / d;
    assert q * d == w;
    var bound := top / m as real;
    assert bound * m as real == top;
    assert bound * d == top * total;
    assert (bound - q) * d >= 0.0;
    FactorSign(q, d);
    FactorSign(bound - q, d);
  }

  lemma {:induction false} FactorSign(a: real, d: real)
    requires d > 0.0 && a * d >= 0.0
    ensures a >= 0.0
  {}

  lemma {:induction false} SortNonNegative(x: seq<real>)
    requires NonNegative(x)
    ensures NonNegative(Sort(x))
  {
    var sorted := Sort(x);
    SortSorts(x);
    forall i | 0 <= i < |sorted| ensures sorted[i] >= 0.0 {
      assert sorted[i] in multiset(sorted);
      assert sorted[i] in x;
    }
  }

  lemma {:induction false} WeightedFromZero(s: seq<real>)
    requires Sorted(s)
    ensures Weighted(s, 0, |s|) == PairGap(s)
  {
    WeightedIsPairGap(s, 0, |s|);
    assert (2 * 0 - |s| + |s|) as real == 0.0;
  }

  /**
    The Gini coefficient of x: mean absolute difference over twice the mean, so that
    g * (m * sum) is the sum of |x[i] - x[j]| over all pairs, and within [0, (m - 1) / m].
  */
  ghost predicate IsGini(x: seq<real>, g: real) {
    x != [] && IsRatio(g, |x|, Sum(x), PairGap(x))
  }

  ghost predicate IsRatio(g: real, m: int, total: real, pairs: real)
    requires m >= 1
  {
    g * (m as real * total) == pairs && 0.0 <= g <= (m - 1) as real / m as real
  }

  lemma {:induction false} IsRatioOfEqual(g: real, m: int, total: real, pairs: real, m': int, total': real, pairs': real)
    requires m >= 1 && m == m' && total == total' && pairs == pairs'
    ensures IsRatio(g, m, total, pairs) <==> IsRatio(g, m', total', pairs')
  {}

  lemma {:induction false} SortedRatioIsGini(s: seq<real>)
    requires s != [] && Sorted(s) && NonNegative(s) && Sum(s) > 0.0
    ensures |s| as real * Sum(s) != 0.0
    ensures IsGini(s, Ratio(Weighted(s, 0, |s|), |s|, Sum(s)))
  {
    WeightedFromZero(s);
    PairGapNonNegative(s);
    WeightedAtMost(s, 0, |s|);
    RatioBounds(Weighted(s, 0, |s|), |s|, Sum(s));
  }

  /** The coefficient does not depend on the order of the intervals. */
  lemma {:induction false} GiniIgnoresOrder(x: seq<real>, g: real)
    ensures IsGini(Sort(x), g) <==> IsGini(x, g)
  {
    SortSorts(x);
    SumSort(x);
    PairGapSort(x);
    if x != [] {
      IsRatioOfEqual(g, |Sort(x)|, Sum(Sort(x)), PairGap(Sort(x)), |x|, Sum(x), PairGap(x));
    }
  }

  /** The coefficient is missing exactly when there is nothing to compare. */
  method ComputeGini(ts: seq<int>) returns (g: Option<real>)
    ensures g.Some? <==> |ts| >= 2 && Sum(Intervals(ts)) != 0.0
    ensures g.Some? ==> IsGini(Intervals(ts), g.value)
  {
    if |ts| < 2 {
      return None;
    }
    var intervals := FillIntervals(ts);
    ghost var x := Intervals(ts);
    IntervalsNonNegative(ts);
    SortNonNegative(x);
    SortSorts(x);
    SumSort(x);
    var sorted := Sort(intervals[..]);
    SumNonNegative(sorted);
    var m := |sorted|;
    var sum := AddUp(sorted);
    if sum == 0.0 {
      return None;
    }
    var weighted := AddUpWeighted(sorted);
    SortedRatioIsGini(sorted);
    var ratio := Ratio(weighted, m, sum);
    GiniIgnoresOrder(x, ratio);
    g := Some(ratio);
  }

  /** Divides the two sums the loops have computed. */
  function Ratio(weighted: real, m: int, sum: real): real
    requires m as real * sum != 0.0
  {
    weighted / (m as real * sum)
  }

  method AddUp(sorted: seq<real>) returns (sum: real)
    ensures sum == Sum(sorted)
  {
    sum := 0.0;
    for i := 0 to |sorted|
      invariant sum + Sum(sorted[i..]) == Sum(sorted)
    {
      sum := sum + sorted[i];
      assert sorted[i..][1..] == sorted[i + 1..];
    }
  }

  method AddUpWeighted(sorted: seq<real>) returns (weighted: real)
    ensures weighted == Weighted(sorted, 0, |sorted|)
  {
    weighted := 0.0;
    var m := |sorted|;
    for i := 0 to m
      invariant weighted + Weighted(sorted[i..], i, m) == Weighted(sorted, 0, m)
    {
      weighted := weighted + (2 * i - m + 1) as real * sorted[i];
      assert sorted[i..][1..] == sorted[i + 1..];
    }
  }

  method FillIntervals(ts: seq<int>) returns (intervals: array<real>)
    requires |ts| >= 2
    ensures fresh(intervals) && intervals[..] == Intervals(ts)
  {
    var n := |ts|;
    intervals := new real[n - 1](_ => 0.0);
    for i := 1 to n
      invariant forall j :: 0 <= j < i - 1 ==> intervals[j] == Intervals(ts)[j]
    {
      var d := (ts[i] - ts[i - 1]) as real;
      if d < 0.0 {
        d := 0.0;
      }
      intervals[i - 1] := d;
    }
  }
}
