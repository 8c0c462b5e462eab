/**
  The online moments of the mid-price returns and the online autocorrelation of trade signs
  (candle-service/internal/accumulator/accumulator.go), against their batch definitions.
*/
module Moments {
  import opened RealSeqs

  function Power(x: real, k: nat): real {
    if k == 0 then 1.0 else x * Power(x, k - 1)
  }

  /** Sum of (r - c)^k. */
  function MomentAbout(rs: seq<real>, c: real, k: nat): real {
    if rs == [] then 0.0
    else MomentAbout(rs[..|rs| - 1], c, k) + Power(rs[|rs| - 1] - c, k)
  }

  lemma {:induction false} Powers(x: real)
    ensures Power(x, 1) == x && Power(x, 2) == x * x && Power(x, 3) == x * x * x
  {
    assert Power(x, 1) == x * Power(x, 0);
    assert Power(x, 2) == x * Power(x, 1);
    assert Power(x, 3) == x * Power(x, 2);
  }

  lemma {:induction false} MomentSnoc(rs: seq<real>, r: real, c: real, k: nat)
    ensures MomentAbout(rs + [r], c, k) == MomentAbout(rs, c, k) + Power(r - c, k)
  {
    assert (rs + [r])[..|rs|] == rs;
  }

  lemma {:induction false} ShiftFirst(rs: seq<real>, c: real, d: real)
    ensures MomentAbout(rs, c + d, 1) == MomentAbout(rs, c, 1) - |rs| as real * d
  {
    if rs != [] {
      var x := rs[|rs| - 1] - c;
      ShiftFirst(rs[..|rs| - 1], c, d);
      Powers(x);
      Powers(x - d);
    }
  }

  /** The second moment about c + d, from the first two about c over n values. */
  function Shifted2(a1: real, a2: real, n: real, d: real): real {
    a2 - 2.0 * d * a1 + n * (d * d)
  }

  function Shifted3(a1: real, a2: real, a3: real, n: real, d: real): real {
    a3 - 3.0 * d * a2 + 3.0 * (d * d) * a1 - n * (d * d * d)
  }

  lemma {:induction false} SecondStep(a1: real, a2: real, n: real, x: real, d: real)
    ensures Shifted2(a1, a2, n, d) + Power(x - d, 2) == Shifted2(a1 + Power(x, 1), a2 + Power(x, 2), n + 1.0, d)
  {
    Powers(x);
    Powers(x - d);
  }

  lemma {:induction false} ThirdStep(a1: real, a2: real, a3: real, n: real, x: real, d: real)
    ensures Shifted3(a1, a2, a3, n, d) + Power(x - d, 3)
              == Shifted3(a1 + Power(x, 1), a2 + Power(x, 2), a3 + Power(x, 3), n + 1.0, d)
  {
    Powers(x);
    Powers(x - d);
    assert (x - d) * (x - d) * (x - d) == x * x * x - 3.0 * d * (x * x) + 3.0 * (d * d) * x - d * d * d;
  }

  lemma {:induction false} ShiftSecond(rs: seq<real>, c: real, d: real)
    ensures MomentAbout(rs, c + d, 2) == Shifted2(MomentAbout(rs, c, 1), MomentAbout(rs, c, 2), |rs| as real, d)
  {
    if rs != [] {
      var front, x := rs[..|rs| - 1], rs[|rs| - 1] - c;
      ShiftSecond(front, c, d);
      SecondStep(MomentAbout(front, c, 1), MomentAbout(front, c, 2), |front| as real, x, d);
      assert rs[|rs| - 1] - (c + d) == x - d && |rs| as real == |front| as real + 1.0;
    }
  }

  lemma {:induction false} ShiftThird(rs: seq<real>, c: real, d: real)
    ensures MomentAbout(rs, c + d, 3) ==
            Shifted3(MomentAbout(rs, c, 1), MomentAbout(rs, c, 2), MomentAbout(rs, c, 3), |rs| as real, d)
  {
    if rs != [] {
      var front, x := rs[..|rs| - 1], rs[|rs| - 1] - c;
      ShiftThird(front, c, d);
      ThirdStep(MomentAbout(front, c, 1), MomentAbout(front, c, 2), MomentAbout(front, c, 3), |front| as real, x, d);
      assert rs[|rs| - 1] - (c + d) == x - d && |rs| as real == |front| as real + 1.0;
    }
  }

  /** The four running numbers are the exact mean and central moments of everything seen. */
  ghost predicate AreMoments(rs: seq<real>, n: nat, mean: real, m2: real, m3: real) {
    && n == |rs| && (n == 0 ==> mean == 0.0)
    && MomentAbout(rs, mean, 1) == 0.0
    && m2 == MomentAbout(rs, mean, 2)
    && m3 == MomentAbout(rs, mean, 3)
  }

  /** What one return adds to the second moment: n is the number of returns before it. */
  function Term(delta: real, deltaN: real, n: real): real {
    delta * deltaN * n
  }

  /** The new third moment, from the old ones: `n1` counts the new return. */
  function Third(m3: real, term: real, deltaN: real, n1: real, m2: real): real {
    m3 + term * deltaN * (n1 - 2.0) - 3.0 * deltaN * m2
  }

  function Scaled(n: real, d: real): real {
    (n + 1.0) * d
  }

  lemma {:induction false} SquareIdentity(n: real, d: real)
    ensures n * (d * d) + (n * d) * (n * d) == (n + 1.0) * d * d * n
  {}

  lemma {:induction false} SecondUpdate(m2: real, n: real, d: real)
    ensures Shifted2(0.0, m2, n, d) + Power(Scaled(n, d) - d, 2) == m2 + Term(Scaled(n, d), d, n)
  {
    Powers(Scaled(n, d) - d);
    SquareIdentity(n, d);
    assert Scaled(n, d) - d == n * d;
  }

  lemma {:induction false} CubicIdentity(n: real, d: real)
    ensures n * d * (n * d) * (n * d) - n * (d * d * d) == (n + 1.0) * d * d * n * d * (n - 1.0)
  {
    var c := d * d * d;
    assert n * d * (n * d) * (n * d) == n * n * n * c;
    assert (n + 1.0) * d * d * n * d * (n - 1.0) == (n + 1.0) * (n - 1.0) * n * c;
    assert (n + 1.0) * (n - 1.0) == n * n - 1.0;
  }

  lemma {:induction false} ThirdUpdate(m2: real, m3: real, n: real, d: real)
    ensures Shifted3(0.0, m2, m3, n, d) + Power(Scaled(n, d) - d, 3) == Third(m3, Term(Scaled(n, d), d, n), d, n + 1.0, m2)
  {
    Powers(Scaled(n, d) - d);
    CubicIdentity(n, d);
    assert Scaled(n, d) - d == n * d;
  }

  lemma {:induction false} FirstUpdate(n: real, d: real)
    ensures 0.0 - n * d + Power(Scaled(n, d) - d, 1) == 0.0
  {
    Powers(Scaled(n, d) - d);
  }

  lemma {:induction false} NewMean(rs: seq<real>, r: real, mean: real, d: real)
    requires MomentAbout(rs, mean, 1) == 0.0 && r - mean == Scaled(|rs| as real, d)
    ensures MomentAbout(rs + [r], mean + d, 1) == 0.0
  {
    hide MomentAbout, Power, Scaled;
    ShiftFirst(rs, mean, d);
    MomentSnoc(rs, r, mean + d, 1);
    FirstUpdate(|rs| as real, d);
    assert r - (mean + d) == Scaled(|rs| as real, d) - d;
  }

  lemma {:induction false} NewSecond(rs: seq<real>, r: real, mean: real, d: real)
    requires MomentAbout(rs, mean, 1) == 0.0 && r - mean == Scaled(|rs| as real, d)
    ensures MomentAbout(rs + [r], mean + d, 2) == MomentAbout(rs, mean, 2) + Term(r - mean, d, |rs| as real)
  {
    hide MomentAbout, Power, Shifted2, Scaled, Term;
    ShiftSecond(rs, mean, d);
    MomentSnoc(rs, r, mean + d, 2);
    SecondUpdate(MomentAbout(rs, mean, 2), |rs| as real, d);
    assert r - (mean + d) == Scaled(|rs| as real, d) - d;
  }

  lemma {:induction false} NewThird(rs: seq<real>, r: real, mean: real, d: real)
    requires MomentAbout(rs, mean, 1) == 0.0 && r - mean == Scaled(|rs| as real, d)
    ensures MomentAbout(rs + [r], mean + d, 3) ==
            Third(MomentAbout(rs, mean, 3), Term(r - mean, d, |rs| as real), d, |rs| as real + 1.0, MomentAbout(rs, mean, 2))
  {
    hide MomentAbout, Power, Shifted3, Scaled, Term, Third;
    ShiftThird(rs, mean, d);
    MomentSnoc(rs, r, mean + d, 3);
    ThirdUpdate(MomentAbout(rs, mean, 2), MomentAbout(rs, mean, 3), |rs| as real, d);
    assert r - (mean + d) == Scaled(|rs| as real, d) - d;
  }

  lemma {:induction false} ScaledBack(delta: real, n: real)
    requires n >= 0.0
    ensures Scaled(n, delta / (n + 1.0)) == delta
  {}

  /**
    One update of the source (third moment before second): exact central moments of the old
    returns become exact central moments of the old returns and the new one.
  */
  lemma {:induction false} WelfordStep(rs: seq<real>, r: real, n: nat, mean: real, m2: real, m3: real)
    requires AreMoments(rs, n, mean, m2, m3)
    ensures var delta := r - mean;
            var deltaN := delta / (n + 1) as real;
            var term1 := Term(delta, deltaN, n as real);
            AreMoments(rs + [r], n + 1, mean + deltaN, m2 + term1, Third(m3, term1, deltaN, (n + 1) as real, m2))
  {
    hide MomentAbout, Term, Third, Scaled;
    var deltaN := (r - mean) / (n + 1) as real;
    assert (n + 1) as real == n as real + 1.0;
    ScaledBack(r - mean, n as real);
    NewMean(rs, r, mean, deltaN);
    NewSecond(rs, r, mean, deltaN);
    NewThird(rs, r, mean, deltaN);
  }

  lemma {:induction false} SecondMomentNonNegative(rs: seq<real>, c: real)
    ensures MomentAbout(rs, c, 2) >= 0.0
  {
    if rs != [] {
      SecondMomentNonNegative(rs[..|rs| - 1], c);
      Powers(rs[|rs| - 1] - c);
      var x := rs[|rs| - 1] - c;
      assert x * x >= 0.0;
    }
  }

  lemma {:induction false} FirstMomentIsSum(rs: seq<real>, c: real)
    ensures MomentAbout(rs, c, 1) == Sum(rs) - |rs| as real * c
  {
    if rs != [] {
      FirstMomentIsSum(rs[..|rs| - 1], c);
      SumSnoc(rs[..|rs| - 1], rs[|rs| - 1]);
      assert rs[..|rs| - 1] + [rs[|rs| - 1]] == rs;
      Powers(rs[|rs| - 1] - c);
    }
  }

  /** Read back: the running mean is the plain mean, and the variance can never go negative. */
  lemma {:induction false} MomentsReadBack(rs: seq<real>, n: nat, mean: real, m2: real, m3: real)
    requires AreMoments(rs, n, mean, m2, m3)
    ensures mean * n as real == Sum(rs) && m2 >= 0.0
  {
    FirstMomentIsSum(rs, mean);
    SecondMomentNonNegative(rs, mean);
  }
}

/** Lag-1 autocorrelation of the trade signs. */
module SignAutocorrelation {
  import opened RealSeqs

  function Dot(a: seq<real>, b: seq<real>): real
    requires |a| == |b|
  {
    if a == [] then 0.0 else a[0] * b[0] + Dot(a[1..], b[1..])
  }

  function Shift(a: seq<real>, c: real): seq<real> {
    seq(|a|, i requires 0 <= i < |a| => a[i] - c)
  }

  function Mean(a: seq<real>): real
    requires a != []
  {
    Sum(a) / |a| as real
  }

  /** Population covariance. */
  function Cov(a: seq<real>, b: seq<real>): real
    requires |a| == |b| > 0
  {
    Dot(Shift(a, Mean(a)), Shift(b, Mean(b))) / |a| as real
  }

  // ---- Cauchy-Schwarz ----

  /** Sum of (u*a[i] - v*b[i])^2. */
  function SquareSum(a: seq<real>, b: seq<real>, u: real, v: real): real
    requires |a| == |b|
  {
    if a == [] then 0.0 else (u * a[0] - v * b[0]) * (u * a[0] - v * b[0]) + SquareSum(a[1..], b[1..], u, v)
  }

  lemma {:induction false} Square(x: real)
    ensures x * x >= 0.0
  {}

  lemma {:induction false} SquareSumNonNegative(a: seq<real>, b: seq<real>, u: real, v: real)
    requires |a| == |b|
    ensures SquareSum(a, b, u, v) >= 0.0
  {
    if a != [] {
      Square(u * a[0] - v * b[0]);
      SquareSumNonNegative(a[1..], b[1..], u, v);
    }
  }

  lemma {:induction false} Expand(x: real, y: real, u: real, v: real)
    ensures (u * x - v * y) * (u * x - v * y) == u * u * (x * x) - 2.0 * u * v * (x * y) + v * v * (y * y)
  {
    assert (u * x - v * y) * (u * x - v * y) == (u * x) * (u * x) - 2.0 * ((u * x) * (v * y)) + (v * y) * (v * y);
    assert (u * x) * (u * x) == u * u * (x * x);
    assert (u * x) * (v * y) == u * v * (x * y);
    assert (v * y) * (v * y) == v * v * (y * y);
  }

  lemma {:induction false} SquareSumExpands(a: seq<real>, b: seq<real>, u: real, v: real)
    requires |a| == |b|
    ensures SquareSum(a, b, u, v) == u * u * Dot(a, a) - 2.0 * u * v * Dot(a, b) + v * v * Dot(b, b)
  {
    if a != [] {
      SquareSumExpands(a[1..], b[1..], u, v);
      Expand(a[0], b[0], u, v);
      Distribute(u * u, a[0] * a[0], Dot(a[1..], a[1..]));
      Distribute(2.0 * u * v, a[0] * b[0], Dot(a[1..], b[1..]));
      Distribute(v * v, b[0] * b[0], Dot(b[1..], b[1..]));
    }
  }

  lemma {:induction false} Distribute(k: real, x: real, y: real)
    ensures k * (x + y) == k * x + k * y
  {}

  ghost predicate Within(ab: real, aa: real, bb: real) {
    ab * ab <= aa * bb
  }

  lemma {:induction false} CauchySchwarz(a: seq<real>, b: seq<real>)
    requires |a| == |b|
    ensures Within(Dot(a, b), Dot(a, a), Dot(b, b))
  {
    var aa, ab, bb := Dot(a, a), Dot(a, b), Dot(b, b);
    QuadraticNonNegative(a, b, bb, ab);
    QuadraticNonNegative(a, b, ab, aa);
    QuadraticNonNegative(a, b, 1.0, 0.0);
    QuadraticNonNegative(a, b, 0.0, 1.0);
    QuadraticNonNegative(a, b, 1.0, 1.0);
    QuadraticNonNegative(a, b, 1.0, -1.0);
    Discriminant(aa, ab, bb);
  }

  function Quadratic(aa: real, ab: real, bb: real, u: real, v: real): real {
    u * u * aa - 2.0 * u * v * ab + v * v * bb
  }

  lemma {:induction false} QuadraticNonNegative(a: seq<real>, b: seq<real>, u: real, v: real)
    requires |a| == |b|
    ensures Quadratic(Dot(a, a), Dot(a, b), Dot(b, b), u, v) >= 0.0
  {
    SquareSumExpands(a, b, u, v);
    SquareSumNonNegative(a, b, u, v);
  }

  lemma {:induction false} Discriminant(aa: real, ab: real, bb: real)
    requires Quadratic(aa, ab, bb, bb, ab) >= 0.0 && Quadratic(aa, ab, bb, ab, aa) >= 0.0
    requires Quadratic(aa, ab, bb, 1.0, 0.0) >= 0.0 && Quadratic(aa, ab, bb, 0.0, 1.0) >= 0.0
    requires Quadratic(aa, ab, bb, 1.0, 1.0) >= 0.0 && Quadratic(aa, ab, bb, 1.0, -1.0) >= 0.0
    ensures Within(ab, aa, bb)
  {
    assert aa >= 0.0 && bb >= 0.0;
    var gap := aa * bb - ab * ab;
    assert Quadratic(aa, ab, bb, bb, ab) == bb * gap;
    assert Quadratic(aa, ab, bb, ab, aa) == aa * gap;
    if bb > 0.0 {
      FactorSign(gap, bb);
    } else if aa > 0.0 {
      FactorSign(gap, aa);
    } else {
      assert aa == 0.0 && bb == 0.0;
      assert ab == 0.0;
    }
  }

  lemma {:induction false} FactorSign(a: real, d: real)
    requires d > 0.0 && d * a >= 0.0
    ensures a >= 0.0
  {}

  lemma {:induction false} PositiveSquare(n: real) returns (nn: real)
    requires n > 0.0
    ensures nn == n * n && nn > 0.0
  {
    nn := n * n;
    Square(n);
    assert nn / n == n;
  }

  lemma {:induction false} CancelFactor(k: real, u: real, v: real)
    requires k > 0.0 && k * u <= k * v
    ensures u <= v
  {
    Distribute(k, v, -u);
    FactorSign(v - u, k);
  }

  // ---- Deviations from the mean ----

  /** The sum of (x - a) * (y - b), from the sums of x*y, x and y over n entries. */
  function ShiftedDot(p: real, sx: real, sy: real, n: real, a: real, b: real): real {
    p - b * sx - a * sy + n * (a * b)
  }

  function Product(x: real, y: real): real {
    x * y
  }

  lemma {:induction false} DotCons(a: seq<real>, b: seq<real>)
    requires |a| == |b| > 0
    ensures Dot(a, b) == Product(a[0], b[0]) + Dot(a[1..], b[1..])
  {}

  lemma {:induction false} ShiftCons(x: seq<real>, a: real)
    requires |x| > 0
    ensures Shift(x, a)[0] == x[0] - a && Shift(x, a)[1..] == Shift(x[1..], a)
  {}

  lemma {:induction false} ProductStep(x: real, y: real, a: real, b: real, p: real, sx: real, sy: real, n: real)
    ensures Product(x - a, y - b) + ShiftedDot(p, sx, sy, n, a, b) == ShiftedDot(Product(x, y) + p, x + sx, y + sy, n + 1.0, a, b)
  {
    assert (x - a) * (y - b) == x * y - b * x - a * y + a * b;
  }

  lemma {:induction false} DotShiftOfNothing(x: seq<real>, y: seq<real>, a: real, b: real)
    requires |x| == |y| == 0
    ensures Dot(Shift(x, a), Shift(y, b)) == ShiftedDot(Dot(x, y), Sum(x), Sum(y), 0.0, a, b)
  {}

  lemma {:induction false} DotShift(x: seq<real>, y: seq<real>, a: real, b: real)
    requires |x| == |y|
    ensures Dot(Shift(x, a), Shift(y, b)) == ShiftedDot(Dot(x, y), Sum(x), Sum(y), |x| as real, a, b)
  {
    if |x| == 0 {
      DotShiftOfNothing(x, y, a, b);
    } else {
      assert Sum(x) == x[0] + Sum(x[1..]) && Sum(y) == y[0] + Sum(y[1..]);
      hide Dot, Sum, ShiftedDot, Product, Shift;
      ShiftCons(x, a);
      ShiftCons(y, b);
      DotCons(x, y);
      DotCons(Shift(x, a), Shift(y, b));
      DotShift(x[1..], y[1..], a, b);
      ProductStep(x[0], y[0], a, b, Dot(x[1..], y[1..]), Sum(x[1..]), Sum(y[1..]), |x[1..]| as real);
      assert |x| as real == |x[1..]| as real + 1.0;
    }
  }

  function FromMeans(p: real, sx: real, sy: real, n: real): real
    requires n > 0.0
  {
    p / n - (sx / n) * (sy / n)
  }

  lemma {:induction false} CovFromMeans(x: seq<real>, y: seq<real>)
    requires |x| == |y| > 0
    ensures Cov(x, y) == FromMeans(Dot(x, y), Sum(x), Sum(y), |x| as real)
  {
    DotShift(x, y, Mean(x), Mean(y));
    FromTotals(Dot(x, y), Sum(x), Sum(y), |x| as real, Mean(x), Mean(y));
  }

  lemma {:induction false} FromTotals(p: real, sx: real, sy: real, n: real, mx: real, my: real)
    requires n > 0.0 && mx == sx / n && my == sy / n
    ensures ShiftedDot(p, sx, sy, n, mx, my) / n == FromMeans(p, sx, sy, n)
  {
    assert sx == mx * n && sy == my * n;
    assert my * sx == n * (mx * my) && mx * sy == n * (mx * my);
    assert (p - n * (mx * my)) / n == p / n - (n * (mx * my)) / n;
  }

  // ---- Signs ----

  ghost predicate AreSigns(s: seq<int>) {
    forall i :: 0 <= i < |s| ==> s[i] == 1 || s[i] == -1
  }

  function Reals(s: seq<int>): seq<real> {
    seq(|s|, i requires 0 <= i < |s| => s[i] as real)
  }

  function SumSigns(s: seq<int>): int {
    if s == [] then 0 else SumSigns(s[..|s| - 1]) + s[|s| - 1]
  }

  /** Sum of s[i-1] * s[i]. */
  function SumPairs(s: seq<int>): int {
    if |s| < 2 then 0 else SumPairs(s[..|s| - 1]) + s[|s| - 2] * s[|s| - 1]
  }

  lemma {:induction false} SumOfReals(s: seq<int>)
    ensures Sum(Reals(s)) == SumSigns(s) as real
  {
    if s != [] {
      var n := |s| - 1;
      SumOfReals(s[..n]);
      assert Reals(s) == Reals(s[..n]) + [s[n] as real];
      SumSnoc(Reals(s[..n]), s[n] as real);
    }
  }

  lemma {:induction false} DotSnoc(a: seq<real>, b: seq<real>, x: real, y: real)
    requires |a| == |b|
    ensures Dot(a + [x], b + [y]) == Dot(a, b) + x * y
  {
    if a == [] {
      assert ([x])[1..] == [] && ([y])[1..] == [];
      assert a + [x] == [x] && b + [y] == [y];
    } else {
      assert (a + [x])[1..] == a[1..] + [x] && (b + [y])[1..] == b[1..] + [y];
      DotSnoc(a[1..], b[1..], x, y);
    }
  }

  lemma {:induction false} PairsAreDot(s: seq<int>)
    requires |s| >= 1
    ensures Dot(Reals(s[..|s| - 1]), Reals(s[1..])) == SumPairs(s) as real
  {
    if |s| >= 2 {
      var n := |s| - 1;
      var t := s[..n];
      PairsAreDot(t);
      assert Reals(s[..n]) == Reals(t[..n - 1]) + [s[n - 1] as real];
      assert Reals(s[1..]) == Reals(t[1..]) + [s[n] as real];
      DotSnoc(Reals(t[..n - 1]), Reals(t[1..]), s[n - 1] as real, s[n] as real);
    }
  }

  lemma {:induction false} SquaresOfSigns(s: seq<int>)
    requires AreSigns(s)
    ensures Dot(Reals(s), Reals(s)) == |s| as real
  {
    if s != [] {
      assert Reals(s)[1..] == Reals(s[1..]);
      SquaresOfSigns(s[1..]);
    }
  }

  lemma {:induction false} EndSums(s: seq<int>)
    requires s != []
    ensures SumSigns(s[1..]) == SumSigns(s) - s[0]
    ensures SumSigns(s[..|s| - 1]) == SumSigns(s) - s[|s| - 1]
  {
    if |s| > 1 {
      var n := |s| - 1;
      assert s[1..][..n - 1] == s[..n][1..];
      EndSums(s[..n]);
    }
  }

  /** What the source computes from its four running numbers; nP is the number of neighbouring pairs. */
  function OnlineCov(pairs: int, sum: int, first: int, last: int, nP: int): real
    requires nP >= 1
  {
    FromMeans(pairs as real, (sum - last) as real, (sum - first) as real, nP as real)
  }

  function OnlineVar(sum: int, end: int, nP: int): real
    requires nP >= 1
  {
    1.0 - ((sum - end) as real / nP as real) * ((sum - end) as real / nP as real)
  }

  lemma {:induction false} FromMeansOfUnit(n: real, s: real)
    requires n > 0.0
    ensures FromMeans(n, s, s, n) == 1.0 - (s / n) * (s / n)
  {
    assert n / n == 1.0;
  }

  lemma {:induction false} OnlineVarIsBatch(t: seq<int>, sum: int, end: int)
    requires t != [] && AreSigns(t) && SumSigns(t) == sum - end
    ensures OnlineVar(sum, end, |t|) == Cov(Reals(t), Reals(t))
  {
    hide Cov, Dot, Sum, FromMeans, SumSigns;
    SumOfReals(t);
    SquaresOfSigns(t);
    CovFromMeans(Reals(t), Reals(t));
    FromMeansOfUnit(|t| as real, SumSigns(t) as real);
  }

  /**
    The running numbers give exactly the batch lag-1 covariance and variances of the sign sequence.
  */
  lemma {:induction false} OnlineIsBatch(s: seq<int>)
    requires |s| >= 2 && AreSigns(s)
    ensures OnlineCov(SumPairs(s), SumSigns(s), s[0], s[|s| - 1], |s| - 1) == Cov(Reals(s[..|s| - 1]), Reals(s[1..]))
    ensures OnlineVar(SumSigns(s), s[|s| - 1], |s| - 1) == Cov(Reals(s[..|s| - 1]), Reals(s[..|s| - 1]))
    ensures OnlineVar(SumSigns(s), s[0], |s| - 1) == Cov(Reals(s[1..]), Reals(s[1..]))
  {
    EndSums(s);
    SumOfReals(s[..|s| - 1]);
    SumOfReals(s[1..]);
    PairsAreDot(s);
    CovFromMeans(Reals(s[..|s| - 1]), Reals(s[1..]));
    OnlineVarIsBatch(s[..|s| - 1], SumSigns(s), s[|s| - 1]);
    OnlineVarIsBatch(s[1..], SumSigns(s), s[0]);
  }

  lemma {:induction false} CovBound(x: seq<real>, y: seq<real>)
    requires |x| == |y| > 0
    ensures Within(Cov(x, y), Cov(x, x), Cov(y, y))
  {
    var dx, dy := Shift(x, Mean(x)), Shift(y, Mean(y));
    CauchySchwarz(dx, dy);
    ScaleDown(Dot(dx, dy), Dot(dx, dx), Dot(dy, dy), |x| as real);
  }

  lemma {:induction false} ScaleDown(c: real, a: real, b: real, n: real)
    requires n > 0.0 && Within(c, a, b)
    ensures Within(c / n, a / n, b / n)
  {
    var p, q, r := c / n, a / n, b / n;
    var nn := PositiveSquare(n);
    assert c == p * n && a == q * n && b == r * n;
    assert c * c == nn * (p * p) && a * b == nn * (q * r);
    CancelFactor(nn, p * p, q * r);
  }

  ghost predicate IsRoot(root: real, vx: real, vy: real) {
    root > 0.0 && root * root == vx * vy
  }

  /** The published value cov / sqrt(varX * varY), for the non-negative root, lies in [-1, 1]. */
  lemma {:induction false} AutocorrelationInUnitInterval(s: seq<int>, root: real)
    requires |s| >= 2 && AreSigns(s)
    requires IsRoot(root, OnlineVar(SumSigns(s), s[|s| - 1], |s| - 1), OnlineVar(SumSigns(s), s[0], |s| - 1))
    ensures InUnitInterval(OnlineCov(SumPairs(s), SumSigns(s), s[0], s[|s| - 1], |s| - 1), root)
  {
    var x, y := Reals(s[..|s| - 1]), Reals(s[1..]);
    OnlineIsBatch(s);
    CovBound(x, y);
    RootBound(Cov(x, y), Cov(x, x), Cov(y, y), root);
  }

  ghost predicate InUnitInterval(cov: real, root: real)
    requires root != 0.0
  {
    -1.0 <= cov / root <= 1.0
  }

  lemma {:induction false} RootBound(c: real, vx: real, vy: real, root: real)
    requires IsRoot(root, vx, vy) && Within(c, vx, vy)
    ensures InUnitInterval(c, root)
  {
    assert (root - c) * (root + c) >= 0.0;
    if root - c < 0.0 {
      FactorSign(root - c, root + c);
    } else if root + c < 0.0 {
      FactorSign(root + c, root - c);
    }
    assert -root <= c <= root;
    var q := c / root;
    assert q * root == c;
    FactorSign(1.0 - q, root);
    FactorSign(1.0 + q, root);
  }
}
