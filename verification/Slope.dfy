/** The trend of the backlog (bench/report.py): `linear_slope`, `steady_window`, `analyse_backlog`,
    and the scan for the maximum sustainable rate. Floats are reals. */
module Slope {
  import opened Basics

  // -- series as vectors ------------------------------------------------------------------

  /** sum(x * y for x, y in zip(a, b)) */
  function Dot(a: seq<real>, b: seq<real>): real {
    var n := Min(|a|, |b|);
    if n == 0 then 0.0 else Dot(a[..n - 1], b[..n - 1]) + a[n - 1] * b[n - 1]
  }

  function Constant(n: nat, v: real): seq<real> {
    seq(n, _ => v)
  }

  function Ones(n: nat): seq<real> {
    Constant(n, 1.0)
  }

  /** a + k * b */
  function Combine(a: seq<real>, k: real, b: seq<real>): seq<real>
    requires |a| == |b|
  {
    seq(|a|, i requires 0 <= i < |a| => a[i] + k * b[i])
  }

  lemma {:induction false} DotSymmetric(a: seq<real>, b: seq<real>)
    ensures Dot(a, b) == Dot(b, a)
  {
    var n := Min(|a|, |b|);
    if n > 0 {
      DotSymmetric(a[..n - 1], b[..n - 1]);
    }
  }

  lemma Spread(k: real, s: real, t: real)
    ensures k * (s + t) == k * s + k * t
  {
  }

  lemma TermOfCombine(a: real, k: real, b: real, c: real)
    ensures (a + k * b) * c == a * c + k * (b * c)
  {
  }

  lemma {:induction false} DotCombine(a: seq<real>, k: real, b: seq<real>, c: seq<real>)
    requires |a| == |b| == |c|
    ensures Dot(Combine(a, k, b), c) == Dot(a, c) + k * Dot(b, c)
    ensures Dot(c, Combine(a, k, b)) == Dot(c, a) + k * Dot(c, b)
  {
    DotCombineLeft(a, k, b, c);
    DotSymmetric(Combine(a, k, b), c);
    DotSymmetric(a, c);
    DotSymmetric(b, c);
  }

  lemma CombinePrefix(a: seq<real>, k: real, b: seq<real>, n: nat)
    requires n <= |a| == |b|
    ensures Combine(a, k, b)[..n] == Combine(a[..n], k, b[..n])
  {
    forall i | 0 <= i < n ensures Combine(a, k, b)[i] == Combine(a[..n], k, b[..n])[i] {
      assert b[..n][i] == b[i] && a[..n][i] == a[i];
    }
  }

  lemma {:induction false} DotCombineLeft(a: seq<real>, k: real, b: seq<real>, c: seq<real>)
    requires |a| == |b| == |c|
    ensures Dot(Combine(a, k, b), c) == Dot(a, c) + k * Dot(b, c)
  {
    if a != [] {
      var n := |a| - 1;
      DotCombineLeft(a[..n], k, b[..n], c[..n]);
      CombinePrefix(a, k, b, n);
      TermOfCombine(a[n], k, b[n], c[n]);
      Spread(k, Dot(b[..n], c[..n]), b[n] * c[n]);
    }
  }

  lemma {:induction false} DotConstant(n: nat, v: real, c: seq<real>)
    requires |c| == n
    ensures Dot(Constant(n, v), c) == v * Dot(Ones(n), c)
  {
    if n > 0 {
      DotConstant(n - 1, v, c[..n - 1]);
      assert Constant(n, v)[..n - 1] == Constant(n - 1, v);
      assert Ones(n)[..n - 1] == Ones(n - 1);
      Spread(v, Dot(Ones(n - 1), c[..n - 1]), c[n - 1]);
    }
  }

  lemma {:induction false} OnesSquared(n: nat)
    ensures Dot(Ones(n), Ones(n)) == n as real
  {
    if n > 0 {
      OnesSquared(n - 1);
      assert Ones(n)[..n - 1] == Ones(n - 1);
    }
  }

  // -- linear_slope ---------------------------------------------------------------------------

  function Total(xs: seq<real>): real {
    Dot(Ones(|xs|), xs)
  }

  /** statistics.fmean */
  function Mean(xs: seq<real>): real
    requires xs != []
  {
    Total(xs) / |xs| as real
  }

  function Shift(xs: seq<real>, h: real): seq<real> {
    Combine(xs, h, Ones(|xs|))
  }

  /** [x - mean for x in xs] */
  function Centred(xs: seq<real>): seq<real>
    requires xs != []
  {
    Shift(xs, -Mean(xs))
  }

  /** NoSlope is the None of the source; `fmean` of no data raises. */
  datatype Fit = NoSlope | Raises | Slope(value: real)

  function LinearSlope(xs: seq<real>, ys: seq<real>): Fit {
    if |xs| < 3 then NoSlope
    else if ys == [] then Raises
    else
      var denom := Dot(Centred(xs), Centred(xs));
      if denom == 0.0 then NoSlope else Slope(Dot(Centred(xs), Centred(ys)) / denom)
  }

  /** Deviations from the mean cancel. */
  lemma CentredCancels(xs: seq<real>)
    requires xs != []
    ensures Dot(Centred(xs), Ones(|xs|)) == 0.0 && Dot(Ones(|xs|), Centred(xs)) == 0.0
  {
    var n := |xs|;
    DotCombine(xs, -Mean(xs), Ones(n), Ones(n));
    DotSymmetric(xs, Ones(n));
    OnesSquared(n);
    DivTimes(Total(xs), n as real);
  }

  // -- the sign ---------------------------------------------------------------------------------

  ghost predicate Rising(xs: seq<real>) {
    forall i, j :: 0 <= i < j < |xs| ==> xs[i] < xs[j]
  }

  ghost predicate NeverFalls(ys: seq<real>) {
    forall i, j :: 0 <= i <= j < |ys| ==> ys[i] <= ys[j]
  }

  predicate Flat(ys: seq<real>) {
    forall i :: 0 <= i < |ys| ==> ys[i] == ys[0]
  }

  /** Wherever a is not zero b has its sign or is zero; wherever a is zero so is b. */
  ghost predicate Agree(a: seq<real>, b: seq<real>)
    requires |a| == |b|
  {
    forall i :: 0 <= i < |a| ==> (a[i] >= 0.0 ==> b[i] >= 0.0) && (a[i] <= 0.0 ==> b[i] <= 0.0)
  }

  lemma SameSign(u: real, v: real)
    requires (u >= 0.0 ==> v >= 0.0) && (u <= 0.0 ==> v <= 0.0)
    ensures u * v >= 0.0 && (u * v == 0.0 <==> v == 0.0)
  {
    if v > 0.0 {
      assert u > 0.0;
    } else if v < 0.0 {
      assert u < 0.0 && (-u) * (-v) > 0.0;
    }
  }

  ghost predicate Zero(b: seq<real>) {
    forall i :: 0 <= i < |b| ==> b[i] == 0.0
  }

  lemma {:induction false} DotAgree(a: seq<real>, b: seq<real>)
    requires |a| == |b| && Agree(a, b)
    ensures Dot(a, b) >= 0.0
    ensures Dot(a, b) == 0.0 <==> Zero(b)
  {
    if a != [] {
      var n := |a| - 1;
      DotAgree(a[..n], b[..n]);
      SameSign(a[n], b[n]);
      ZeroSnoc(b);
    }
  }

  lemma ZeroSnoc(b: seq<real>)
    requires b != []
    ensures Zero(b) <==> Zero(b[..|b| - 1]) && b[|b| - 1] == 0.0
  {
    var n := |b| - 1;
    if Zero(b[..n]) && b[n] == 0.0 {
      forall i | 0 <= i < |b| ensures b[i] == 0.0 {
        if i < n {
          assert b[..n][i] == 0.0;
        }
      }
    }
  }

  /** Around the mean of xs it does not matter what is subtracted from the ys. */
  lemma {:induction false} AnyCentre(xs: seq<real>, ys: seq<real>, h: real)
    requires |xs| == |ys| > 0
    ensures Dot(Centred(xs), Shift(ys, h)) == Dot(Centred(xs), ys)
  {
    CentredCancels(xs);
    DotCombine(ys, h, Ones(|ys|), Centred(xs));
  }

  /** There is a slope exactly when there are three samples and they are not all at one time. */
  lemma SlopeExists(xs: seq<real>, ys: seq<real>)
    requires |xs| == |ys|
    ensures LinearSlope(xs, ys).Slope? <==> |xs| >= 3 && !Flat(xs)
    ensures !LinearSlope(xs, ys).Raises?
    ensures LinearSlope(xs, ys).Slope? ==> Dot(Centred(xs), Centred(xs)) > 0.0
  {
    if |xs| >= 3 {
      DotAgree(Centred(xs), Centred(xs));
      CentredZero(xs);
    }
  }

  lemma CentredZero(xs: seq<real>)
    requires xs != []
    ensures Zero(Centred(xs)) <==> Flat(xs)
  {
    var u := Centred(xs);
    if Flat(xs) {
      MeanOfConstant(xs);
    } else if Zero(u) {
      forall i | 0 <= i < |xs| ensures xs[i] == xs[0] {
        assert u[i] == 0.0 && u[0] == 0.0;
      }
    }
  }

  lemma MeanOfConstant(xs: seq<real>)
    requires xs != [] && Flat(xs)
    ensures Mean(xs) == xs[0]
  {
    var n := |xs|;
    assert xs == Constant(n, xs[0]);
    DotConstant(n, xs[0], Ones(n));
    DotSymmetric(Ones(n), xs);
    OnesSquared(n);
    TimesDiv(xs[0], n as real);
  }

  lemma TimesDiv(v: real, n: real)
    requires n != 0.0
    ensures v * n / n == v
  {
  }

  /** The first sample at or after the mean time is a pivot. */
  lemma Pivot(xs: seq<real>, ys: seq<real>) returns (j: nat)
    requires |xs| == |ys| > 0 && Rising(xs) && NeverFalls(ys)
    ensures j < |xs| && Agree(Centred(xs), Shift(ys, -ys[j]))
  {
    var m := Mean(xs);
    var last := |xs| - 1;
    ReachesMean(xs);
    assert xs[last] >= m;
    j := 0;
    while xs[j] < m
      invariant j <= last && forall i :: 0 <= i < j ==> xs[i] < m
      decreases last - j
    {
      j := j + 1;
    }
  }

  lemma ReachesMean(xs: seq<real>)
    requires xs != []
    ensures exists i :: 0 <= i < |xs| && xs[i] >= Mean(xs)
  {
    var u := Centred(xs);
    CentredCancels(xs);
    if forall i :: 0 <= i < |xs| ==> xs[i] < Mean(xs) {
      DotPositive(Ones(|xs|), Combine(Constant(|xs|, 0.0), -1.0, u));
      DotCombine(Constant(|xs|, 0.0), -1.0, u, Ones(|xs|));
      DotConstant(|xs|, 0.0, Ones(|xs|));
      DotSymmetric(Ones(|xs|), Constant(|xs|, 0.0));
      assert false;
    }
  }

  lemma {:induction false} DotPositive(a: seq<real>, b: seq<real>)
    requires |a| == |b| > 0 && forall i :: 0 <= i < |a| ==> a[i] > 0.0 && b[i] > 0.0
    ensures Dot(a, b) > 0.0
  {
    DotAgree(a, b);
    assert b[0] > 0.0;
  }

  lemma QuotientSign(a: real, b: real)
    requires a >= 0.0 && b > 0.0
    ensures a / b >= 0.0 && (a / b == 0.0 <==> a == 0.0)
  {
    var q := a / b;
    assert q * b == a;
  }

  /** A backlog that never falls has a slope of at least zero, and zero only if it is flat. */
  lemma SlopeSign(xs: seq<real>, ys: seq<real>)
    requires |xs| == |ys| >= 3 && Rising(xs) && NeverFalls(ys)
    ensures LinearSlope(xs, ys).Slope?
    ensures LinearSlope(xs, ys).value >= 0.0
    ensures LinearSlope(xs, ys).value == 0.0 <==> Flat(ys)
  {
    assert xs[1] != xs[0];
    SlopeExists(xs, ys);
    var j := Pivot(xs, ys);
    DotAgree(Centred(xs), Shift(ys, -ys[j]));
    AnyCentre(xs, ys, -ys[j]);
    AnyCentre(xs, ys, -Mean(ys));
    ZeroShift(ys, j);
    QuotientSign(Dot(Centred(xs), Centred(ys)), Dot(Centred(xs), Centred(xs)));
  }

  lemma ZeroShift(ys: seq<real>, j: nat)
    requires j < |ys|
    ensures Zero(Shift(ys, -ys[j])) <==> Flat(ys)
  {
    var zs := Shift(ys, -ys[j]);
    if Zero(zs) {
      assert zs[0] == 0.0;
      forall i | 0 <= i < |ys| ensures ys[i] == ys[0] {
        assert zs[i] == 0.0;
      }
    }
  }

  // -- least squares --------------------------------------------------------------------------

  /** [a + b * x for x in xs] */
  function Line(xs: seq<real>, a: real, b: real): seq<real> {
    Combine(Constant(|xs|, a), b, xs)
  }

  /** How far each sample is above the line a + b * x. */
  function Residual(xs: seq<real>, ys: seq<real>, a: real, b: real): seq<real>
    requires |xs| == |ys|
  {
    Combine(ys, -1.0, Line(xs, a, b))
  }

  function SquaredError(xs: seq<real>, ys: seq<real>, a: real, b: real): real
    requires |xs| == |ys|
  {
    Dot(Residual(xs, ys, a, b), Residual(xs, ys, a, b))
  }

  lemma ResidualTerm(x: real, y: real, a: real, b: real, a0: real, b0: real)
    ensures y + -1.0 * (a + b * x) == (y + -1.0 * (a0 + b0 * x)) + 1.0 * ((a0 - a) + (b0 - b) * x)
  {
  }

  /** Two residuals differ by the line between the lines. */
  lemma ResidualsDiffer(xs: seq<real>, ys: seq<real>, a: real, b: real, a0: real, b0: real)
    requires |xs| == |ys|
    ensures Residual(xs, ys, a, b) == Combine(Residual(xs, ys, a0, b0), 1.0, Line(xs, a0 - a, b0 - b))
  {
    var r, c := Residual(xs, ys, a, b), Combine(Residual(xs, ys, a0, b0), 1.0, Line(xs, a0 - a, b0 - b));
    forall i | 0 <= i < |xs| ensures r[i] == c[i] {
      ResidualTerm(xs[i], ys[i], a, b, a0, b0);
    }
  }

  lemma CentredTerm(x: real, y: real, mx: real, my: real, s: real)
    ensures y + -1.0 * ((my - s * mx) + s * x) == (y + -my * 1.0) + -s * (x + -mx * 1.0)
  {
  }

  lemma ResidualCentred(xs: seq<real>, ys: seq<real>, s: real)
    requires |xs| == |ys| > 0
    ensures Residual(xs, ys, Mean(ys) - s * Mean(xs), s) == Combine(Centred(ys), -s, Centred(xs))
  {
    var r, c := Residual(xs, ys, Mean(ys) - s * Mean(xs), s), Combine(Centred(ys), -s, Centred(xs));
    forall i | 0 <= i < |xs| ensures r[i] == c[i] {
      CentredTerm(xs[i], ys[i], Mean(xs), Mean(ys), s);
    }
  }

  /** The residuals of any line through the means cancel. */
  lemma ResidualCancels(xs: seq<real>, ys: seq<real>, s: real)
    requires |xs| == |ys| > 0
    ensures Dot(Combine(Centred(ys), -s, Centred(xs)), Ones(|xs|)) == 0.0
  {
    CentredCancels(xs);
    CentredCancels(ys);
    DotCombineLeft(Centred(ys), -s, Centred(xs), Ones(|xs|));
  }

  /** With the fitted slope they are also uncorrelated with the xs. */
  lemma {:induction false} ResidualUncorrelated(xs: seq<real>, ys: seq<real>, s: real, r: seq<real>)
    requires |xs| == |ys| > 0 && r == Combine(Centred(ys), -s, Centred(xs))
    requires Dot(Centred(ys), Centred(xs)) == s * Dot(Centred(xs), Centred(xs))
    ensures Dot(r, Centred(xs)) == 0.0
  {
    DotCombineLeft(Centred(ys), -s, Centred(xs), Centred(xs));
  }

  lemma {:induction false} AgainstConstant(r: seq<real>, a: real)
    requires Dot(r, Ones(|r|)) == 0.0
    ensures Dot(r, Constant(|r|, a)) == 0.0
  {
    DotConstant(|r|, a, r);
    DotSymmetric(Constant(|r|, a), r);
    DotSymmetric(Ones(|r|), r);
  }

  /** Against a vector that cancels, a line is its slope. */
  lemma {:induction false} AgainstLine(xs: seq<real>, r: seq<real>, a: real, b: real)
    requires |xs| == |r| > 0 && Dot(r, Ones(|r|)) == 0.0
    ensures Dot(r, Line(xs, a, b)) == b * Dot(r, xs)
  {
    AgainstConstant(r, a);
    DotCombine(Constant(|xs|, a), b, xs, r);
  }

  /** A vector that cancels, and does so against the centred xs, does against every line. */
  lemma {:induction false} NoLine(xs: seq<real>, r: seq<real>, a: real, b: real)
    requires |xs| == |r| > 0 && Dot(r, Ones(|r|)) == 0.0 && Dot(r, Centred(xs)) == 0.0
    ensures Dot(r, Line(xs, a, b)) == 0.0
  {
    DotCombine(xs, -Mean(xs), Ones(|xs|), r);
    AgainstLine(xs, r, a, b);
  }

  lemma SquareTerm(r: real, l: real)
    ensures (r + 1.0 * l) * (r + 1.0 * l) == r * r + 2.0 * (r * l) + l * l
  {
  }

  lemma {:induction false} SquareOfSum(r: seq<real>, l: seq<real>)
    requires |r| == |l|
    ensures Dot(Combine(r, 1.0, l), Combine(r, 1.0, l)) == Dot(r, r) + 2.0 * Dot(r, l) + Dot(l, l)
  {
    if r != [] {
      var n := |r| - 1;
      SquareOfSum(r[..n], l[..n]);
      CombinePrefix(r, 1.0, l, n);
      SquareTerm(r[n], l[n]);
    }
  }

  lemma LineSquared(xs: seq<real>, a: real, b: real)
    requires xs != [] && !Flat(xs)
    ensures Dot(Line(xs, a, b), Line(xs, a, b)) >= 0.0
    ensures Dot(Line(xs, a, b), Line(xs, a, b)) == 0.0 <==> a == 0.0 && b == 0.0
  {
    var l := Line(xs, a, b);
    DotAgree(l, l);
    if Zero(l) {
      var i :| 0 <= i < |xs| && xs[i] != xs[0];
      assert l[0] == a + b * xs[0] && l[i] == a + b * xs[i];
      ZeroLine(a, b, xs[0], xs[i]);
    }
  }

  lemma ZeroLine(a: real, b: real, x: real, x': real)
    requires x != x' && a + b * x == 0.0 && a + b * x' == 0.0
    ensures a == 0.0 && b == 0.0
  {
    assert b * (x - x') == 0.0;
  }

  /** The residuals of the fitted line are orthogonal to every line. */
  lemma FitIsOrthogonal(xs: seq<real>, ys: seq<real>, s: real, a: real, b: real)
    requires |xs| == |ys| > 0 && Dot(Centred(ys), Centred(xs)) == s * Dot(Centred(xs), Centred(xs))
    ensures Dot(Residual(xs, ys, Mean(ys) - s * Mean(xs), s), Line(xs, a, b)) == 0.0
  {
    ResidualCentred(xs, ys, s);
    ResidualCancels(xs, ys, s);
    var r := Combine(Centred(ys), -s, Centred(xs));
    ResidualUncorrelated(xs, ys, s, r);
    NoLine(xs, r, a, b);
  }

  /** So the error of any other line is larger by the squared distance between the two lines. */
  lemma ErrorAboveFit(xs: seq<real>, ys: seq<real>, s: real, a0: real, a: real, b: real)
    requires |xs| == |ys| > 0 && Dot(Centred(ys), Centred(xs)) == s * Dot(Centred(xs), Centred(xs))
    requires a0 == Mean(ys) - s * Mean(xs)
    ensures SquaredError(xs, ys, a, b)
         == SquaredError(xs, ys, a0, s) + Dot(Line(xs, a0 - a, s - b), Line(xs, a0 - a, s - b))
  {
    FitIsOrthogonal(xs, ys, s, a0 - a, s - b);
    ResidualsDiffer(xs, ys, a, b, a0, s);
    SquareOfSum(Residual(xs, ys, a0, s), Line(xs, a0 - a, s - b));
  }

  lemma NormalEquation(xs: seq<real>, ys: seq<real>, s: real)
    requires |xs| == |ys| && LinearSlope(xs, ys) == Slope(s)
    ensures Dot(Centred(ys), Centred(xs)) == s * Dot(Centred(xs), Centred(xs))
  {
    DotSymmetric(Centred(ys), Centred(xs));
    DivTimes(Dot(Centred(xs), Centred(ys)), Dot(Centred(xs), Centred(xs)));
  }

  /** The result is the least-squares slope: with the intercept that puts the line through the means
      it is the one line with the smallest squared error. */
  lemma LeastSquares(xs: seq<real>, ys: seq<real>, s: real, a: real, b: real)
    requires |xs| == |ys| && LinearSlope(xs, ys) == Slope(s)
    ensures var a0 := Mean(ys) - s * Mean(xs);
            SquaredError(xs, ys, a0, s) <= SquaredError(xs, ys, a, b)
            && (SquaredError(xs, ys, a0, s) == SquaredError(xs, ys, a, b) <==> a == a0 && b == s)
  {
    var a0 := Mean(ys) - s * Mean(xs);
    SlopeExists(xs, ys);
    NormalEquation(xs, ys, s);
    LineSquared(xs, a0 - a, s - b);
    ErrorAboveFit(xs, ys, s, a0, a, b);
  }

  // -- lines and shifts -------------------------------------------------------------------------

  /** On a line the result is the slope of the line: no other line fits without error. */
  lemma SlopeOfLine(xs: seq<real>, a: real, b: real)
    requires |xs| >= 3 && !Flat(xs)
    ensures LinearSlope(xs, Line(xs, a, b)) == Slope(b)
  {
    var ys := Line(xs, a, b);
    SlopeExists(xs, ys);
    var s := LinearSlope(xs, ys).value;
    LeastSquares(xs, ys, s, a, b);
    NoError(xs, a, b);
    var r := Residual(xs, ys, Mean(ys) - s * Mean(xs), s);
    DotAgree(r, r);
  }

  lemma NoError(xs: seq<real>, a: real, b: real)
    ensures SquaredError(xs, Line(xs, a, b), a, b) == 0.0
  {
    var r := Residual(xs, Line(xs, a, b), a, b);
    DotAgree(r, r);
  }

  lemma ShiftedMean(xs: seq<real>, h: real)
    requires xs != []
    ensures Mean(Shift(xs, h)) == Mean(xs) + h
  {
    var n := |xs|;
    DotCombine(xs, h, Ones(n), Ones(n));
    OnesSquared(n);
    ShiftedQuotient(Total(xs), h, n as real);
  }

  /** Shifting a series leaves its deviations from the mean alone. */
  lemma ShiftedCentre(xs: seq<real>, h: real)
    requires xs != []
    ensures Centred(Shift(xs, h)) == Centred(xs)
  {
    ShiftedMean(xs, h);
    var c, u := Centred(Shift(xs, h)), Centred(xs);
    forall i | 0 <= i < |xs| ensures c[i] == u[i] {
    }
  }

  lemma ShiftedQuotient(t: real, h: real, n: real)
    requires n != 0.0
    ensures (t + h * n) / n == t / n + h
  {
    DivTimes(t, n);
    TimesDiv(t / n + h, n);
  }

  /** The origin of neither axis matters, so counting time from the window's first sample is harmless. */
  lemma SlopeShift(xs: seq<real>, ys: seq<real>, h: real, k: real)
    requires |xs| == |ys|
    ensures LinearSlope(Shift(xs, h), Shift(ys, k)) == LinearSlope(xs, ys)
  {
    if |xs| >= 3 {
      ShiftedCentre(xs, h);
      ShiftedCentre(ys, k);
    }
  }

  // -- analyse_backlog --------------------------------------------------------------------------------

  /** One pipeline sample; None is a field that is missing or not a number. */
  datatype Sample = Sample(ts: Option<real>, files: Option<real>, bytes: Option<real>)

  /** A sample with catalog data; missing bytes count as none. */
  datatype Point = Point(ts: real, files: real, bytes: real)

  function UsableOf(rows: seq<Sample>): seq<Point> {
    if rows == [] then [] else
      var r := rows[|rows| - 1];
      UsableOf(rows[..|rows| - 1])
      + if r.ts.Some? && r.files.Some?
        then [Point(r.ts.value, r.files.value, if r.bytes.Some? then r.bytes.value else 0.0)]
        else []
  }

  /** Drop the leading quarter, unless there are fewer than eight samples. */
  function SteadyWindow<T>(rows: seq<T>): seq<T> {
    if |rows| < 8 then rows else rows[(|rows| as real * 0.25).Floor..]
  }

  function TimesOf(rows: seq<Point>): seq<real> {
    seq(|rows|, i requires 0 <= i < |rows| => rows[i].ts)
  }

  function Files(rows: seq<Point>): seq<real> {
    seq(|rows|, i requires 0 <= i < |rows| => rows[i].files)
  }

  function Bytes(rows: seq<Point>): seq<real> {
    seq(|rows|, i requires 0 <= i < |rows| => rows[i].bytes)
  }

  /** `linear_slope(...) or 0.0` */
  function OrZero(f: Fit): real {
    if f.Slope? then f.value else 0.0
  }

  datatype Backlog = Unavailable | Backlog(samples: nat, discarded: nat, filesPerMin: real, mibPerMin: real)

  function AnalyseBacklog(rows: seq<Sample>): Backlog {
    AnalysePoints(UsableOf(rows))
  }

  function AnalysePoints(pl: seq<Point>): Backlog {
    if |pl| < 4 then Unavailable else
      var window := SteadyWindow(pl);
      var xs := Shift(TimesOf(window), -window[0].ts);
      Backlog(|window|, |pl| - |window|,
              OrZero(LinearSlope(xs, Files(window))) * 60.0,
              OrZero(LinearSlope(xs, Bytes(window))) * 60.0 / 1048576.0)
  }

  /** The window is all but the leading quarter, rounded down. */
  lemma WindowSize<T>(rows: seq<T>)
    ensures SteadyWindow(rows) == if |rows| < 8 then rows else rows[|rows| / 4..]
  {
    QuarterFloor(|rows|);
  }

  lemma QuarterFloor(n: nat)
    ensures (n as real * 0.25).Floor == n / 4
  {
    var x := n as real * 0.25;
    var k := n / 4;
    assert (4 * k) as real <= n as real < (4 * k + 4) as real;
    assert (4 * k) as real == 4.0 * k as real;
  }

  lemma ShiftByZero(ys: seq<real>)
    ensures Shift(ys, 0.0) == ys
  {
  }

  /** What the report may conclude from samples taken at increasing times: each slope per minute is
      the least-squares slope of the series as it was recorded. Over a steady window in which the
      series never falls it is not negative, and it is zero exactly when the series stood still. */
  lemma {:induction false} BacklogVerdict(rows: seq<Sample>)
    requires |UsableOf(rows)| >= 4 && Rising(TimesOf(SteadyWindow(UsableOf(rows))))
    ensures var window, r := SteadyWindow(UsableOf(rows)), AnalyseBacklog(rows);
      && r.Backlog?
      && LinearSlope(TimesOf(window), Files(window)) == Slope(r.filesPerMin / 60.0)
      && LinearSlope(TimesOf(window), Bytes(window)) == Slope(r.mibPerMin * 1048576.0 / 60.0)
      && (NeverFalls(Files(window)) ==> r.filesPerMin >= 0.0 && (r.filesPerMin == 0.0 <==> Flat(Files(window))))
      && (NeverFalls(Bytes(window)) ==> r.mibPerMin >= 0.0 && (r.mibPerMin == 0.0 <==> Flat(Bytes(window))))
  {
    var window := SteadyWindow(UsableOf(rows));
    WindowSize(UsableOf(rows));
    SlopeOver(TimesOf(window), Files(window));
    SlopeOver(TimesOf(window), Bytes(window));
    PerMinute(rows, window, LinearSlope(TimesOf(window), Files(window)), LinearSlope(TimesOf(window), Bytes(window)));
  }

  lemma SlopeOver(xs: seq<real>, ys: seq<real>)
    requires |xs| == |ys| >= 3 && Rising(xs)
    ensures var f := LinearSlope(xs, ys);
            f.Slope? && (NeverFalls(ys) ==> f.value >= 0.0 && (f.value == 0.0 <==> Flat(ys)))
  {
    assert xs[1] != xs[0];
    SlopeExists(xs, ys);
    if NeverFalls(ys) {
      SlopeSign(xs, ys);
    }
  }

  lemma {:induction false} PerMinute(rows: seq<Sample>, window: seq<Point>, files: Fit, bytes: Fit)
    requires |UsableOf(rows)| >= 4 && window == SteadyWindow(UsableOf(rows)) && window != []
    requires files == LinearSlope(TimesOf(window), Files(window))
      && bytes == LinearSlope(TimesOf(window), Bytes(window))
    ensures var r := AnalyseBacklog(rows);
            r.Backlog? && r.filesPerMin == OrZero(files) * 60.0 && r.mibPerMin == OrZero(bytes) * 60.0 / 1048576.0
  {
    WindowSlope(window, Files(window));
    WindowSlope(window, Bytes(window));
  }

  lemma WindowSlope(window: seq<Point>, ys: seq<real>)
    requires window != [] && |ys| == |window|
    ensures LinearSlope(Shift(TimesOf(window), -window[0].ts), ys) == LinearSlope(TimesOf(window), ys)
  {
    SlopeShift(TimesOf(window), ys, -window[0].ts, 0.0);
    ShiftByZero(ys);
  }

  // -- the same in terms of the recorded samples ----------------------------------------------------

  /** The sample has a time and a number of files. */
  predicate HasBacklog(r: Sample) {
    r.ts.Some? && r.files.Some?
  }

  ghost predicate AllRecorded(rows: seq<Sample>) {
    forall i :: 0 <= i < |rows| ==> HasBacklog(rows[i])
  }

  /** The recorded series from sample k on. */
  ghost function RecordedTimes(rows: seq<Sample>, k: nat): seq<real>
    requires AllRecorded(rows) && k <= |rows|
  {
    seq(|rows| - k, i requires 0 <= i < |rows| - k => rows[k + i].ts.value)
  }

  ghost function RecordedFiles(rows: seq<Sample>, k: nat): seq<real>
    requires AllRecorded(rows) && k <= |rows|
  {
    seq(|rows| - k, i requires 0 <= i < |rows| - k => rows[k + i].files.value)
  }

  ghost function RecordedBytes(rows: seq<Sample>, k: nat): seq<real>
    requires k <= |rows|
  {
    seq(|rows| - k, i requires 0 <= i < |rows| - k =>
      match rows[k + i].bytes case None => 0.0 case Some(b) => b)
  }

  lemma {:induction false} UsableConcat(a: seq<Sample>, b: seq<Sample>)
    ensures UsableOf(a + b) == UsableOf(a) + UsableOf(b)
  {
    if b == [] {
      assert a + b == a;
    } else {
      var n := |b| - 1;
      assert (a + b)[..|a| + n] == a + b[..n];
      UsableConcat(a, b[..n]);
    }
  }

  lemma UsableOne(r: Sample)
    ensures |UsableOf([r])| == if HasBacklog(r) then 1 else 0
    ensures HasBacklog(r) ==>
      UsableOf([r]) == [Point(r.ts.value, r.files.value, match r.bytes case None => 0.0 case Some(b) => b)]
  {
    assert [r][..0] == [];
  }

  /** A sample without a time or without a number of files changes nothing, wherever it is. */
  lemma {:induction false} UnusableIsIgnored(before: seq<Sample>, r: Sample, after: seq<Sample>)
    requires r.ts.None? || r.files.None?
    ensures AnalyseBacklog(before + [r] + after) == AnalyseBacklog(before + after)
  {
    UsableConcat(before + [r], after);
    UsableConcat(before, [r]);
    UsableConcat(before, after);
    UsableOne(r);
    assert UsableOf(before + [r] + after) == UsableOf(before + after);
  }

  lemma {:induction false} UsableCount(rows: seq<Sample>)
    ensures |UsableOf(rows)| == |set i | 0 <= i < |rows| && HasBacklog(rows[i])|
  {
    if rows != [] {
      var n := |rows| - 1;
      UsableCount(rows[..n]);
      var a := set i | 0 <= i < n && HasBacklog(rows[..n][i]);
      var b := set i | 0 <= i < |rows| && HasBacklog(rows[i]);
      assert n !in a;
      assert b == a + if HasBacklog(rows[n]) then {n} else {};
    }
  }

  /** There is an answer exactly for four or more samples with a time and a number of files, and it says
      how many of them the warm-up took. */
  lemma {:induction false} BacklogAvailable(rows: seq<Sample>)
    ensures var n, r := |set i | 0 <= i < |rows| && HasBacklog(rows[i])|, AnalyseBacklog(rows);
      && (r.Unavailable? <==> n < 4)
      && (r.Backlog? ==> r.samples + r.discarded == n && r.discarded == if n < 8 then 0 else n / 4)
  {
    UsableCount(rows);
    WindowSize(UsableOf(rows));
  }

  /** When every sample was recorded whole, the slopes per minute are those of the recorded numbers of
      files and bytes (none for missing bytes) against the recorded times, from the end of the warm-up on. */
  lemma {:induction false} RecordedSlopes(rows: seq<Sample>)
    requires |rows| >= 4 && AllRecorded(rows)
    ensures var k := if |rows| < 8 then 0 else |rows| / 4;
            var xs, files, bytes := RecordedTimes(rows, k), RecordedFiles(rows, k), RecordedBytes(rows, k);
      AnalyseBacklog(rows) == Backlog(|rows| - k, k, OrZero(LinearSlope(xs, files)) * 60.0,
                                      OrZero(LinearSlope(xs, bytes)) * 60.0 / 1048576.0)
  {
    var k := if |rows| < 8 then 0 else |rows| / 4;
    UsableAll(rows);
    RecordedWindow(rows, UsableOf(rows), k);
    PointSlopes(UsableOf(rows), k);
  }

  lemma RecordedWindow(rows: seq<Sample>, pl: seq<Point>, k: nat)
    requires AllRecorded(rows) && k <= |rows| == |pl|
    requires forall i :: 0 <= i < |rows| ==>
      pl[i] == Point(rows[i].ts.value, rows[i].files.value, match rows[i].bytes case None => 0.0 case Some(b) => b)
    ensures TimesOf(pl[k..]) == RecordedTimes(rows, k)
    ensures Files(pl[k..]) == RecordedFiles(rows, k)
    ensures Bytes(pl[k..]) == RecordedBytes(rows, k)
  {
  }

  lemma {:induction false} PointSlopes(pl: seq<Point>, k: nat)
    requires |pl| >= 4 && k == if |pl| < 8 then 0 else |pl| / 4
    ensures AnalysePoints(pl) == Backlog(|pl| - k, k, OrZero(LinearSlope(TimesOf(pl[k..]), Files(pl[k..]))) * 60.0,
                                         OrZero(LinearSlope(TimesOf(pl[k..]), Bytes(pl[k..]))) * 60.0 / 1048576.0)
  {
    WindowSize(pl);
    assert SteadyWindow(pl) == pl[k..];
    WindowSlope(pl[k..], Files(pl[k..]));
    WindowSlope(pl[k..], Bytes(pl[k..]));
  }

  lemma {:induction false} UsableAll(rows: seq<Sample>)
    requires AllRecorded(rows)
    ensures |UsableOf(rows)| == |rows|
    ensures forall i :: 0 <= i < |rows| ==>
      UsableOf(rows)[i]
      == Point(rows[i].ts.value, rows[i].files.value, match rows[i].bytes case None => 0.0 case Some(b) => b)
  {
    if rows != [] {
      var n := |rows| - 1;
      UsableAll(rows[..n]);
      assert rows == rows[..n] + [rows[n]];
      UsableConcat(rows[..n], [rows[n]]);
      UsableOne(rows[n]);
    }
  }

  // -- the maximum sustainable rate -------------------------------------------------------------------

  datatype Level = Level(targetRps: real, offered: nat, accepted: nat, rejected: nat)

  predicate Holds(s: Level) {
    s.rejected == 0 && (if s.offered == 0 then 0.0 else s.accepted as real / s.offered as real) >= 0.99
  }

  /** What the scan of `render` finds: the last level before the first one that fails. */
  ghost predicate ScanFinds(steps: seq<Level>, found: Option<nat>) {
    match found
    case None => steps == [] || !Holds(steps[0])
    case Some(k) =>
      && k < |steps|
      && (forall i :: 0 <= i <= k ==> Holds(steps[i]))
      && (k + 1 < |steps| ==> !Holds(steps[k + 1]))
  }

  /** What the report calls it: of the levels that pass, the one with the highest rate. */
  ghost predicate Highest(steps: seq<Level>, found: Option<nat>) {
    match found
    case None => forall i :: 0 <= i < |steps| ==> !Holds(steps[i])
    case Some(k) =>
      && k < |steps| && Holds(steps[k])
      && forall i :: 0 <= i < |steps| && Holds(steps[i]) ==> steps[i].targetRps <= steps[k].targetRps
  }

  ghost predicate RatesRise(steps: seq<Level>) {
    forall i, j :: 0 <= i < j < |steps| ==> steps[i].targetRps < steps[j].targetRps
  }

  /** No level passes after one that fails. */
  ghost predicate NoRecovery(steps: seq<Level>) {
    forall i, j :: 0 <= i < j < |steps| && Holds(steps[j]) ==> Holds(steps[i])
  }

  method MaximumSustainable(steps: seq<Level>) returns (found: Option<nat>)
    ensures ScanFinds(steps, found)
  {
    found := None;
    for i := 0 to |steps|
      invariant found == if i == 0 then None else Some(i - 1)
      invariant forall j :: 0 <= j < i ==> Holds(steps[j])
    {
      if Holds(steps[i]) {
        found := Some(i);
      } else {
        break;
      }
    }
  }

  /** For steps in any order: the scan finds the highest rate that passes if and only if the levels it
      went through do not exceed the last of them, and none that passes after it does. */
  lemma ScanIsHighest(steps: seq<Level>, found: Option<nat>)
    requires ScanFinds(steps, found)
    ensures found.None? ==> (Highest(steps, found) <==> forall j :: 0 < j < |steps| ==> !Holds(steps[j]))
    ensures found.Some? ==> var k := found.value;
      (Highest(steps, found) <==>
        && (forall i :: 0 <= i < k ==> steps[i].targetRps <= steps[k].targetRps)
        && (forall j :: k + 1 < j < |steps| && steps[j].targetRps > steps[k].targetRps ==> !Holds(steps[j])))
  {
    if found.Some? && Highest(steps, found) {
      assert forall i :: 0 <= i < found.value ==> Holds(steps[i]);
    }
  }

  /** For a staircase whose rates rise: if and only if no level passes after one that fails. */
  lemma ScanIsHighestIff(steps: seq<Level>, found: Option<nat>)
    requires ScanFinds(steps, found) && RatesRise(steps)
    ensures Highest(steps, found) <==> NoRecovery(steps)
  {
    var next := if found.None? then 0 else found.value + 1;
    if Highest(steps, found) {
      forall i, j | 0 <= i < j < |steps| && Holds(steps[j]) ensures Holds(steps[i]) {
        assert j < next;
      }
    } else {
      NotHighest(steps, found, next);
    }
  }

  lemma NotHighest(steps: seq<Level>, found: Option<nat>, next: nat)
    requires ScanFinds(steps, found) && RatesRise(steps) && !Highest(steps, found)
    requires next == if found.None? then 0 else found.value + 1
    ensures !NoRecovery(steps)
  {
    var j :| 0 <= j < |steps| && Holds(steps[j]) && j >= next;
    assert !Holds(steps[next]) && next < j;
  }

  /** A staircase whose rates fall passes at both levels, and the scan settles on the lower rate. */
  lemma ScanIgnoresRates(steps: seq<Level>, found: Option<nat>)
    requires steps == [Level(200.0, 2000, 2000, 0), Level(100.0, 1000, 1000, 0)]
    requires ScanFinds(steps, found)
    ensures found == Some(1) && NoRecovery(steps) && !Highest(steps, found)
  {
    assert Holds(steps[0]) && Holds(steps[1]);
  }

  /** A staircase that recovers after a bad level: the scan stops at the first level. */
  lemma ScanMissesRecovery(steps: seq<Level>, found: Option<nat>)
    requires steps == [Level(100.0, 1000, 1000, 0), Level(200.0, 2000, 1000, 0), Level(300.0, 3000, 3000, 0)]
    requires ScanFinds(steps, found)
    ensures found == Some(0) && Holds(steps[2]) && !Highest(steps, found)
  {
    assert Holds(steps[0]) && !Holds(steps[1]) && Holds(steps[2]);
  }

  /** What a level has to reach: no rejection, and 99 of every 100 records offered accepted. */
  lemma HoldsIff(s: Level)
    ensures Holds(s) <==> s.rejected == 0 && s.offered > 0 && 100 * s.accepted >= 99 * s.offered
  {
    if s.offered > 0 {
      RatioAtLeast(s.accepted as real, s.offered as real);
      InHundredths(s.accepted, s.offered);
    }
  }

  lemma RatioAtLeast(a: real, b: real)
    requires b > 0.0
    ensures a / b >= 0.99 <==> a >= 0.99 * b
  {
    var q := a / b;
    assert q * b == a;
    Scaled(q, 0.99, b);
  }

  lemma InHundredths(a: nat, b: nat)
    ensures a as real >= 0.99 * b as real <==> 100 * a >= 99 * b
  {
    assert (100 * a) as real == 100.0 * a as real && (99 * b) as real == 99.0 * b as real;
  }
}
