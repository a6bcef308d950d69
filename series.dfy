/** Numeric reductions of one column of a thermo time series: sums, the
    arithmetic mean of a stage, Python slicing of a stage, numpy's 'valid'
    moving average, and the ordinary-least-squares slope numpy.polyfit(x, y, 1)
    returns. All arithmetic is exact over real. */
module Series {
  import opened Common

  function Min(a: int, b: int): int { if a <= b then a else b }

  /** The sum of the samples, accumulated from the front. */
  function Sum(s: seq<real>): real
  {
    SumRec(s)
  }

  function SumRec(s: seq<real>): real
    decreases |s|
  {
    if |s| == 0 then 0.0 else SumRec(s[..|s| - 1]) + s[|s| - 1]
  }

  /** The sum of the products of paired samples. */
  function SumProd(xs: seq<real>, ys: seq<real>): real
    requires |xs| == |ys|
  {
    SumProdRec(xs, ys)
  }

  function SumProdRec(xs: seq<real>, ys: seq<real>): real
    requires |xs| == |ys|
    decreases |xs|
  {
    if |xs| == 0 then 0.0
    else SumProdRec(xs[..|xs| - 1], ys[..|ys| - 1]) + xs[|xs| - 1] * ys[|ys| - 1]
  }

  predicate Constant(s: seq<real>)
  {
    forall i, j :: 0 <= i < |s| && 0 <= j < |s| ==> s[i] == s[j]
  }

  lemma {:induction false} SumConstant(s: seq<real>, c: real)
    requires forall i :: 0 <= i < |s| ==> s[i] == c
    ensures Sum(s) == |s| as real * c
  {
    if |s| > 0 {
      SumConstant(s[..|s| - 1], c);
    }
  }

  lemma {:induction false} SumBounds(s: seq<real>, lo: real, hi: real)
    requires forall i :: 0 <= i < |s| ==> lo <= s[i] <= hi
    ensures |s| as real * lo <= Sum(s) <= |s| as real * hi
  {
    if |s| > 0 {
      SumBounds(s[..|s| - 1], lo, hi);
    }
  }

  /** numpy.mean: the arithmetic mean, NaN for an empty sample. */
  function Mean(s: seq<real>): (r: Stat)
    ensures r.Defined? <==> |s| > 0
  {
    if |s| == 0 then Undefined else Defined(Sum(s) / |s| as real)
  }

  /** The mean of a sample whose every value is c is c. */
  lemma {:induction false} MeanOfConstant(s: seq<real>, c: real)
    requires |s| > 0
    requires forall i :: 0 <= i < |s| ==> s[i] == c
    ensures Mean(s) == Defined(c)
  {
    SumConstant(s, c);
  }

  /** The mean lies between any lower and upper bound of the samples. */
  lemma {:induction false} MeanWithinBounds(s: seq<real>, lo: real, hi: real)
    requires |s| > 0
    requires forall i :: 0 <= i < |s| ==> lo <= s[i] <= hi
    ensures lo <= Mean(s).value <= hi
  {
    SumBounds(s, lo, hi);
    var n := |s| as real;
    assert n * lo <= Sum(s) <= n * hi;
    assert Sum(s) / n >= lo by {
      assert Sum(s) / n * n == Sum(s);
    }
    assert Sum(s) / n <= hi by {
      assert Sum(s) / n * n == Sum(s);
    }
  }

  /** Number of samples in the Python slice col[lo:hi] of a column of
      length n (bounds beyond the end are clipped, an inverted range is
      empty). */
  function StageLength(n: nat, lo: nat, hi: nat): nat
  {
    if lo >= Min(hi, n) then 0 else Min(hi, n) - lo
  }

  /** The Python slice col[lo:hi] for non-negative bounds: exactly the
      samples at the zero-based indices lo, lo + 1, ... below both hi and
      the column length. */
  function Stage(col: seq<real>, lo: nat, hi: nat): (s: seq<real>)
    ensures |s| == StageLength(|col|, lo, hi)
    ensures forall k :: 0 <= k < |s| ==> lo + k < hi && lo + k < |col| && s[k] == col[lo + k]
  {
    var top := Min(hi, |col|);
    if lo >= top then [] else col[lo..top]
  }

  /** numpy.convolve(s, numpy.repeat(1.0, w) / w, 'valid'): one value per
      position where the window of w samples lies wholly inside s, no
      zero padding. */
  function ValidConvolution(s: seq<real>, w: nat): (r: seq<real>)
    requires 1 <= w <= |s|
    ensures |r| == |s| - w + 1
    ensures forall k :: 0 <= k < |r| ==> Mean(s[k..k + w]) == Defined(r[k])
  {
    seq(|s| - w + 1, k requires 0 <= k < |s| - w + 1 => Sum(s[k..k + w]) / w as real)
  }

  /** The moving-average estimate of a stage: the mean of its valid
      convolution. */
  function MovingMean(s: seq<real>, w: nat): (r: Stat)
    requires 1 <= w <= |s|
    ensures r.Defined?
  {
    Mean(ValidConvolution(s, w))
  }

  /** A window of one sample leaves the series unchanged. */
  lemma {:induction false} ConvolutionWindowOne(s: seq<real>)
    requires |s| >= 1
    ensures ValidConvolution(s, 1) == s
  {
    var r := ValidConvolution(s, 1);
    forall k | 0 <= k < |s|
      ensures r[k] == s[k]
    {
      var one := s[k..k + 1];
      assert one[..0] == [];
      assert Sum(one) == Sum(one[..0]) + one[0];
    }
  }

  /** With window 1 the moving-average estimate equals the simple mean. */
  lemma {:induction false} MovingMeanWindowOne(s: seq<real>)
    requires |s| >= 1
    ensures MovingMean(s, 1) == Mean(s)
  {
    ConvolutionWindowOne(s);
  }

  /** A constant stage smooths to the same constant for any window. */
  lemma {:induction false} MovingMeanOfConstant(s: seq<real>, w: nat, c: real)
    requires 1 <= w <= |s|
    requires forall i :: 0 <= i < |s| ==> s[i] == c
    ensures MovingMean(s, w) == Defined(c)
  {
    var r := ValidConvolution(s, w);
    forall k | 0 <= k < |r|
      ensures r[k] == c
    {
      MeanOfConstant(s[k..k + w], c);
    }
    MeanOfConstant(r, c);
  }

  // ---------------------------------------------------------------------
  // Ordinary least squares, as numpy.polyfit(xs, ys, 1)[0]
  // ---------------------------------------------------------------------

  /** n * sum(x^2) - (sum x)^2: the denominator of the closed-form slope. */
  function Spread(xs: seq<real>): real
  {
    |xs| as real * SumProd(xs, xs) - Sum(xs) * Sum(xs)
  }

  /** n * sum(x y) - sum(x) sum(y): the numerator of the closed-form slope. */
  function Covariation(xs: seq<real>, ys: seq<real>): real
    requires |xs| == |ys|
  {
    |xs| as real * SumProd(xs, ys) - Sum(xs) * Sum(ys)
  }

  /** The least-squares slope of the points (xs[i], ys[i]). An empty sample
      is an error; a constant abscissa has no unique slope. */
  function OlsSlope(xs: seq<real>, ys: seq<real>): (r: Result<real>)
    requires |xs| == |ys|
    ensures r.Success? <==> |xs| > 0 && Spread(xs) != 0.0
    ensures r.Success? ==> r.value * Spread(xs) == Covariation(xs, ys)
  {
    if |xs| == 0 then Failure(EmptyFit)
    else if Spread(xs) == 0.0 then Failure(RankDeficient)
    else Success(Covariation(xs, ys) / Spread(xs))
  }

  // Real arithmetic facts over plain variables. The lemmas below pass the
  // sums themselves as arguments, so that each fact reaches its caller in
  // exactly the shape the definitions unfold to.

  lemma MulPos(a: real, b: real)
    requires a > 0.0 && b > 0.0
    ensures a * b > 0.0
  {
  }

  lemma DivCancel(c: real, a: real, d: real)
    requires d != 0.0 && c == a * d
    ensures c / d == a
  {
  }

  lemma MulNonZero(a: real, b: real)
    requires a != 0.0 && b != 0.0
    ensures a * b != 0.0
  {
  }

  function Sq(d: real): real { d * d }

  lemma SquareSign(d: real)
    ensures Sq(d) >= 0.0
    ensures Sq(d) == 0.0 <==> d == 0.0
  {
    if d > 0.0 {
      MulPos(d, d);
      calc { Sq(d); == d * d; > 0.0; }
    } else if d < 0.0 {
      MulPos(-d, -d);
      calc { Sq(d); == (-d) * (-d); > 0.0; }
    } else {
      calc { Sq(d); == 0.0 * 0.0; == 0.0; }
    }
  }

  /** Sum of squared deviations of the samples from x. */
  function SqDev(s: seq<real>, x: real): real
    decreases |s|
  {
    if |s| == 0 then 0.0 else SqDev(s[..|s| - 1], x) + Sq(s[|s| - 1] - x)
  }

  lemma ExpandAlgebra(d: real, q: real, t: real, n: real, x: real, y: real,
                      d2: real, q2: real, t2: real, n2: real)
    requires d == q - 2.0 * x * t + n * x * x
    requires d2 == d + Sq(y - x)
    requires q2 == q + y * y && t2 == t + y && n2 == n + 1.0
    ensures d2 == q2 - 2.0 * x * t2 + n2 * x * x
  {
    calc {
      q2 - 2.0 * x * t2 + n2 * x * x;
      == (q + y * y) - 2.0 * x * (t + y) + (n + 1.0) * x * x;
      == d + Sq(y - x);
    }
  }

  lemma {:induction false} SqDevExpand(s: seq<real>, x: real)
    ensures SqDev(s, x) == SumProd(s, s) - 2.0 * x * Sum(s) + |s| as real * x * x
  {
    if |s| == 0 {
      ExpandEmpty(x);
    } else {
      var p, y := s[..|s| - 1], s[|s| - 1];
      SqDevExpand(p, x);
      ExpandAlgebra(SqDev(p, x), SumProd(p, p), Sum(p), |p| as real, x, y,
                    SqDev(s, x), SumProd(s, s), Sum(s), |s| as real);
    }
  }

  lemma ExpandEmpty(x: real)
    ensures 0.0 == 0.0 - 2.0 * x * 0.0 + 0.0 * x * x
  {
  }

  lemma {:induction false} SqDevSign(s: seq<real>, x: real)
    ensures SqDev(s, x) >= 0.0
    ensures SqDev(s, x) == 0.0 <==> forall i :: 0 <= i < |s| ==> s[i] == x
  {
    if |s| > 0 {
      var p, y := s[..|s| - 1], s[|s| - 1];
      SqDevSign(p, x);
      SquareSign(y - x);
      if y != x {
        assert !(forall i :: 0 <= i < |s| ==> s[i] == x) by {
          assert s[|s| - 1] != x;
        }
      } else if forall i :: 0 <= i < |p| ==> p[i] == x {
        forall i | 0 <= i < |s|
          ensures s[i] == x
        {
          if i < |p| { assert s[i] == p[i]; }
        }
      } else {
        var i :| 0 <= i < |p| && p[i] != x;
        assert s[i] == p[i];
      }
    }
  }

  lemma StepAlgebra(n: real, q: real, t: real, x: real, d: real, q2: real, t2: real, n2: real)
    requires d == q - 2.0 * x * t + n * x * x
    requires q2 == q + x * x && t2 == t + x && n2 == n + 1.0
    ensures n2 * q2 - t2 * t2 == (n * q - t * t) + d
  {
    calc {
      n2 * q2 - t2 * t2;
      == (n + 1.0) * (q + x * x) - (t + x) * (t + x);
      == (n * q - t * t) + d;
    }
  }

  /** Adding one sample x grows the spread by the squared deviations of
      the earlier samples from x (Lagrange's identity, one step). */
  lemma {:induction false} SpreadStep(s: seq<real>)
    requires |s| > 0
    ensures Spread(s) == Spread(s[..|s| - 1]) + SqDev(s[..|s| - 1], s[|s| - 1])
  {
    var p, x := s[..|s| - 1], s[|s| - 1];
    SqDevExpand(p, x);
    StepAlgebra(|p| as real, SumProd(p, p), Sum(p), x, SqDev(p, x), SumProd(s, s), Sum(s), |s| as real);
  }

  /** The slope denominator is never negative, and is zero exactly when the
      abscissa is constant: the slope is defined iff the strain varies. */
  lemma {:induction false} SpreadSign(s: seq<real>)
    ensures Spread(s) >= 0.0
    ensures Spread(s) == 0.0 <==> Constant(s)
  {
    if |s| == 0 {
    } else {
      var p, x := s[..|s| - 1], s[|s| - 1];
      SpreadStep(s);
      SpreadSign(p);
      SqDevSign(p, x);
      if Constant(s) {
        assert Constant(p);
        assert forall i :: 0 <= i < |p| ==> p[i] == x by {
          forall i | 0 <= i < |p| ensures p[i] == x {
            assert s[i] == s[|s| - 1];
          }
        }
      } else if Constant(p) {
        var i, j :| 0 <= i < |s| && 0 <= j < |s| && s[i] != s[j];
        assert !(forall k :: 0 <= k < |p| ==> p[k] == x) by {
          if i < |p| && j == |p| {
            assert p[i] != x;
          } else if i == |p| && j < |p| {
            assert p[j] != x;
          }
        }
      }
    }
  }

  /** ys is the image of xs under y = a * x + b, sample by sample. */
  predicate Affine(xs: seq<real>, ys: seq<real>, a: real, b: real)
  {
    |xs| == |ys| && forall i :: 0 <= i < |xs| ==> ys[i] == a * xs[i] + b
  }

  lemma {:induction false} SumAffine(xs: seq<real>, ys: seq<real>, a: real, b: real)
    requires |xs| == |ys|
    requires Affine(xs, ys, a, b)
    ensures Sum(ys) == a * Sum(xs) + |xs| as real * b
  {
    if |xs| > 0 {
      SumAffine(xs[..|xs| - 1], ys[..|ys| - 1], a, b);
    }
  }

  lemma {:induction false} SumProdAffine(us: seq<real>, xs: seq<real>, ys: seq<real>, a: real, b: real)
    requires |us| == |xs| == |ys|
    requires Affine(xs, ys, a, b)
    ensures SumProd(us, ys) == a * SumProd(us, xs) + b * Sum(us)
  {
    if |xs| > 0 {
      var n := |xs| - 1;
      SumProdAffine(us[..n], xs[..n], ys[..n], a, b);
      assert us[n] * ys[n] == a * (us[n] * xs[n]) + b * us[n];
    }
  }

  lemma {:induction false} SumProdSymmetric(xs: seq<real>, ys: seq<real>)
    requires |xs| == |ys|
    ensures SumProd(xs, ys) == SumProd(ys, xs)
  {
    if |xs| > 0 {
      SumProdSymmetric(xs[..|xs| - 1], ys[..|ys| - 1]);
    }
  }

  lemma LineAlgebra(n: real, q: real, t: real, sy: real, sxy: real, a: real, b: real, sp: real, cv: real)
    requires sy == a * t + n * b
    requires sxy == a * q + b * t
    requires sp == n * q - t * t && cv == n * sxy - t * sy
    ensures cv == a * sp
  {
    calc {
      cv;
      == n * (a * q + b * t) - t * (a * t + n * b);
      == a * sp;
    }
  }

  /** On exactly linear data the covariation is the slope times the spread. */
  lemma {:induction false} CovariationOfLine(xs: seq<real>, ys: seq<real>, a: real, b: real)
    requires Affine(xs, ys, a, b)
    ensures Covariation(xs, ys) == a * Spread(xs)
  {
    SumAffine(xs, ys, a, b);
    SumProdAffine(xs, xs, ys, a, b);
    CovariationFromSums(xs, ys, a, b);
  }

  lemma {:induction false} CovariationFromSums(xs: seq<real>, ys: seq<real>, a: real, b: real)
    requires |xs| == |ys|
    requires Sum(ys) == a * Sum(xs) + |xs| as real * b
    requires SumProd(xs, ys) == a * SumProd(xs, xs) + b * Sum(xs)
    ensures Covariation(xs, ys) == a * Spread(xs)
  {
    LineAlgebra(|xs| as real, SumProd(xs, xs), Sum(xs), Sum(ys), SumProd(xs, ys), a, b,
                Spread(xs), Covariation(xs, ys));
  }

  /** On exactly linear data ys = a * xs + b with a varying abscissa the
      least-squares slope is a. */
  lemma {:induction false} SlopeOfLine(xs: seq<real>, ys: seq<real>, a: real, b: real)
    requires !Constant(xs)
    requires Affine(xs, ys, a, b)
    ensures OlsSlope(xs, ys) == Success(a)
  {
    SpreadSign(xs);
    CovariationOfLine(xs, ys, a, b);
    DivCancel(Covariation(xs, ys), a, Spread(xs));
  }

  /** Every sample multiplied by c. */
  function Scaled(c: real, xs: seq<real>): (zs: seq<real>)
    ensures |zs| == |xs|
    ensures Affine(xs, zs, c, 0.0)
  {
    seq(|xs|, i requires 0 <= i < |xs| => c * xs[i])
  }

  /** Halving the abscissa quarters the spread. */
  lemma {:induction false} SpreadOfHalved(xs: seq<real>)
    ensures Spread(Scaled(0.5, xs)) == 0.25 * Spread(xs)
  {
    var zs := Scaled(0.5, xs);
    SumAffine(xs, zs, 0.5, 0.0);
    SumProdAffine(xs, xs, zs, 0.5, 0.0);
    SumProdSymmetric(zs, xs);
    SumProdAffine(zs, xs, zs, 0.5, 0.0);
  }

  /** Halving the abscissa halves the covariation. */
  lemma {:induction false} CovariationOfHalved(xs: seq<real>, ys: seq<real>)
    requires |xs| == |ys|
    ensures Covariation(Scaled(0.5, xs), ys) == 0.5 * Covariation(xs, ys)
  {
    var zs := Scaled(0.5, xs);
    SumAffine(xs, zs, 0.5, 0.0);
    SumProdAffine(ys, xs, zs, 0.5, 0.0);
    SumProdSymmetric(zs, ys);
    SumProdSymmetric(ys, xs);
  }

  /** Fitting against half the strain, as the shear constant is fitted,
      doubles the slope. */
  lemma {:induction false} SlopeOfHalvedAbscissa(xs: seq<real>, ys: seq<real>)
    requires |xs| == |ys|
    requires OlsSlope(xs, ys).Success?
    ensures OlsSlope(Scaled(0.5, xs), ys) == Success(2.0 * OlsSlope(xs, ys).value)
  {
    SpreadOfHalved(xs);
    CovariationOfHalved(xs, ys);
    DivHalved(Covariation(xs, ys), Spread(xs), Covariation(Scaled(0.5, xs), ys), Spread(Scaled(0.5, xs)));
  }

  lemma DivHalved(cv: real, sp: real, zcv: real, zsp: real)
    requires sp != 0.0 && zcv == 0.5 * cv && zsp == 0.25 * sp
    ensures zsp != 0.0 && zcv / zsp == 2.0 * (cv / sp)
  {
    var m := cv / sp;
    assert m * sp == cv;
    assert (2.0 * m) * zsp == zcv;
  }

  lemma DivNegated(cv: real, sp: real, zcv: real)
    requires sp != 0.0 && zcv == -1.0 * cv
    ensures zcv / sp == -(cv / sp)
  {
    var m := cv / sp;
    assert m * sp == cv;
    assert (-m) * sp == zcv;
  }

  /** Negating the ordinate negates the slope. */
  lemma {:induction false} SlopeOfNegated(xs: seq<real>, ys: seq<real>)
    requires |xs| == |ys|
    requires OlsSlope(xs, ys).Success?
    ensures OlsSlope(xs, Scaled(-1.0, ys)) == Success(-OlsSlope(xs, ys).value)
  {
    CovariationOfNegated(xs, ys);
    DivNegated(Covariation(xs, ys), Spread(xs), Covariation(xs, Scaled(-1.0, ys)));
  }

  lemma {:induction false} CovariationOfNegated(xs: seq<real>, ys: seq<real>)
    requires |xs| == |ys|
    ensures Covariation(xs, Scaled(-1.0, ys)) == -1.0 * Covariation(xs, ys)
  {
    var zs := Scaled(-1.0, ys);
    SumAffine(ys, zs, -1.0, 0.0);
    SumProdAffine(xs, ys, zs, -1.0, 0.0);
  }

  lemma DivSquare(d: real, e: real)
    requires d != 0.0 && Sq(d) != 0.0
    ensures (d * e) / Sq(d) == e / d
  {
    assert (e / d) * Sq(d) == d * e;
  }

  lemma TwoPointAlgebra(x0: real, x1: real, y0: real, y1: real, n: real, q: real, t: real, sy: real, sxy: real,
                        sp: real, cv: real)
    requires x0 != x1
    requires n == 2.0 && q == x0 * x0 + x1 * x1 && t == x0 + x1
    requires sy == y0 + y1 && sxy == x0 * y0 + x1 * y1
    requires sp == n * q - t * t && cv == n * sxy - t * sy
    ensures sp != 0.0
    ensures cv / sp == (y1 - y0) / (x1 - x0)
  {
    calc {
      sp;
      == 2.0 * (x0 * x0 + x1 * x1) - (x0 + x1) * (x0 + x1);
      == Sq(x1 - x0);
    }
    calc {
      cv;
      == 2.0 * (x0 * y0 + x1 * y1) - (x0 + x1) * (y0 + y1);
      == (x1 - x0) * (y1 - y0);
    }
    SquareSign(x1 - x0);
    DivSquare(x1 - x0, y1 - y0);
  }

  lemma SumPair(x0: real, x1: real)
    ensures Sum([x0, x1]) == x0 + x1
  {
    assert [x0, x1][..1] == [x0];
    assert [x0][..0] == [];
    assert SumRec([x0]) == x0;
  }

  lemma SumProdPair(x0: real, x1: real, y0: real, y1: real)
    ensures SumProd([x0, x1], [y0, y1]) == x0 * y0 + x1 * y1
  {
    assert [x0, x1][..1] == [x0] && [y0, y1][..1] == [y0];
    assert [x0][..0] == [] && [y0][..0] == [];
    assert SumProdRec([x0], [y0]) == x0 * y0;
  }

  /** Through two points with distinct abscissae the fitted line is the
      chord: the slope is the difference quotient. */
  lemma SlopeOfTwoPoints(x0: real, x1: real, y0: real, y1: real)
    requires x0 != x1
    ensures OlsSlope([x0, x1], [y0, y1]) == Success((y1 - y0) / (x1 - x0))
  {
    var xs, ys := [x0, x1], [y0, y1];
    SumPair(x0, x1);
    SumPair(y0, y1);
    SumProdPair(x0, x1, x0, x1);
    SumProdPair(x0, x1, y0, y1);
    TwoPointAlgebra(x0, x1, y0, y1, |xs| as real, SumProd(xs, xs), Sum(xs), Sum(ys), SumProd(xs, ys),
                    Spread(xs), Covariation(xs, ys));
  }
}
