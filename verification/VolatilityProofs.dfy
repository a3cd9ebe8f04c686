/** Volatility is the annualised deviation of the returns: zero exactly for flat returns, blind to shifts, and
    proportional to scale. */
module VolatilityProofs {
  import opened RealMath
  import opened RiskService
  import opened VarProofs

  lemma NonNegativeTimes(a: real, b: real)
    requires a >= 0.0 && b >= 0.0
    ensures Times(a, b) >= 0.0
  {
  }

  lemma SqTimes(a: real, b: real)
    ensures Sq(Times(a, b)) == Times(Sq(a), Sq(b))
  {
    assert (a * b) * (a * b) == (a * a) * (b * b);
  }

  lemma SqUnique(a: real, b: real)
    requires a >= 0.0 && b >= 0.0 && Sq(a) == Sq(b)
    ensures a == b
  {
    assert (b - a) * (b + a) == b * b - a * a;
    assert (a - b) * (b + a) == a * a - b * b;
    if b + a > 0.0 {
      SignOfFactor(b - a, b + a);
      SignOfFactor(a - b, b + a);
    }
  }

  lemma Annualised(sd: real, root: real, v: real)
    requires sd >= 0.0 && root >= 0.0 && Sq(sd) == v && Sq(root) == 252.0
    ensures sd * root >= 0.0 && Sq(sd * root) == 252.0 * v
  {
    assert (sd * root) * (sd * root) == (sd * sd) * (root * root);
  }

  lemma RootIs(root: Root, x: real)
    requires IsRoot(root) && x >= 0.0
    ensures root(x) >= 0.0 && Sq(root(x)) == x
  {
  }

  /** The square of the volatility is 252 times the variance of the returns; a single return has none. */
  lemma VolatilitySquared(root: Root, rs: seq<real>)
    requires IsRoot(root)
    ensures VolatilityOf(root, rs) >= 0.0
    ensures |rs| > 1 ==> Sq(VolatilityOf(root, rs)) == 252.0 * Variance(rs)
    ensures |rs| <= 1 ==> VolatilityOf(root, rs) == 0.0
  {
    hide Sq, Variance, IsRoot;
    RootIs(root, 252.0);
    if |rs| > 1 {
      RootIs(root, Variance(rs));
      var sd, year := root(Variance(rs)), root(252.0);
      assert VolatilityOf(root, rs) == sd * year;
      Annualised(sd, year, Variance(rs));
    }
  }

  // ---------------------------------------------------------------- flat returns

  lemma SqEven(x: real)
    ensures Sq(-x) == Sq(x) && Sq(0.0) == 0.0
  {
    assert (-x) * (-x) == x * x;
  }

  lemma SqZero(x: real)
    ensures Sq(x) == 0.0 <==> x == 0.0
  {
    hide Sq;
    SqEven(x);
    if x > 0.0 {
      SqPositive(x);
    } else if x < 0.0 {
      SqPositive(-x);
    }
  }

  lemma {:induction false} SpreadZero(xs: seq<real>, c: real)
    ensures Spread(xs, c) == 0.0 <==> forall i :: 0 <= i < |xs| ==> xs[i] == c
  {
    if xs != [] {
      hide Sq;
      SpreadZero(xs[..|xs| - 1], c);
      SqZero(xs[|xs| - 1] - c);
    }
  }

  lemma {:induction false} SumOfSame(xs: seq<real>, c: real)
    requires forall i :: 0 <= i < |xs| ==> xs[i] == c
    ensures Sum(xs) == Times(|xs| as real, c)
  {
    if xs != [] {
      hide Times;
      SumOfSame(xs[..|xs| - 1], c);
      TimesNext(|xs| - 1, c);
    } else {
      assert Times(0.0, c) == 0.0;
    }
  }

  lemma MeanOfSame(xs: seq<real>)
    requires xs != [] && forall i :: 0 <= i < |xs| ==> xs[i] == xs[0]
    ensures Mean(xs) == xs[0]
  {
    hide Sum;
    SumOfSame(xs, xs[0]);
    QuotientIs(Sum(xs), |xs| as real, xs[0]);
  }

  lemma VarianceZero(xs: seq<real>)
    requires xs != []
    ensures Variance(xs) == 0.0 <==> forall i :: 0 <= i < |xs| ==> xs[i] == xs[0]
  {
    hide Sum, Spread, Mean;
    TimesQuotient(|xs| as real, Spread(xs, Mean(xs)));
    SpreadZero(xs, Mean(xs));
    if forall i :: 0 <= i < |xs| ==> xs[i] == xs[0] {
      MeanOfSame(xs);
    }
  }

  /** More than one return has no volatility exactly when all returns are the same. */
  lemma NoVolatilityIffFlat(root: Root, rs: seq<real>)
    requires IsRoot(root) && |rs| > 1
    ensures VolatilityOf(root, rs) == 0.0 <==> forall i :: 0 <= i < |rs| ==> rs[i] == rs[0]
  {
    hide IsRoot, VolatilityOf, Variance, Sq;
    VolatilitySquared(root, rs);
    VarianceZero(rs);
    SqZero(VolatilityOf(root, rs));
  }

  // ---------------------------------------------------------------- scale and shift

  lemma AffineTimes(a: real, x: real, b: real)
    ensures Affine(a, x, b) == Times(a, x) + b
  {
  }

  lemma {:induction false} SumScaled(xs: seq<real>, ys: seq<real>, a: real, b: real)
    requires |ys| == |xs| && forall i :: 0 <= i < |xs| ==> ys[i] == Affine(a, xs[i], b)
    ensures Sum(ys) == Times(a, Sum(xs)) + Times(|xs| as real, b)
  {
    if xs == [] {
      assert Times(a, 0.0) == 0.0 && Times(0.0, b) == 0.0;
    } else {
      hide Times, Affine;
      var n := |xs| - 1;
      SumScaled(xs[..n], ys[..n], a, b);
      AffineTimes(a, xs[n], b);
      TimesAdd(a, Sum(xs[..n]), xs[n]);
      TimesNext(n, b);
    }
  }

  lemma MeanScaled(xs: seq<real>, ys: seq<real>, a: real, b: real)
    requires xs != [] && |ys| == |xs| && forall i :: 0 <= i < |xs| ==> ys[i] == Affine(a, xs[i], b)
    ensures Mean(ys) == Affine(a, Mean(xs), b)
  {
    hide Sum, Affine;
    var n := |xs| as real;
    SumScaled(xs, ys, a, b);
    AffineTimes(a, Mean(xs), b);
    assert Mean(xs) * n == Sum(xs);
    assert (a * Mean(xs) + b) * n == a * (Mean(xs) * n) + n * b;
    QuotientIs(Sum(ys), n, Affine(a, Mean(xs), b));
  }

  lemma DistanceScaled(a: real, b: real, x: real, c: real)
    ensures Sq(Affine(a, x, b) - Affine(a, c, b)) == Times(Sq(a), Sq(x - c))
  {
    SqTimes(a, x - c);
    assert Affine(a, x, b) - Affine(a, c, b) == a * (x - c);
  }

  lemma {:induction false} SpreadScaled(xs: seq<real>, ys: seq<real>, a: real, b: real, c: real)
    requires |ys| == |xs| && forall i :: 0 <= i < |xs| ==> ys[i] == Affine(a, xs[i], b)
    ensures Spread(ys, Affine(a, c, b)) == Times(Sq(a), Spread(xs, c))
  {
    if xs == [] {
      assert Times(Sq(a), 0.0) == 0.0;
    } else {
      hide Times, Affine, Sq;
      var n := |xs| - 1;
      SpreadScaled(xs[..n], ys[..n], a, b, c);
      DistanceScaled(a, b, xs[n], c);
      TimesAdd(Sq(a), Spread(xs[..n], c), Sq(xs[n] - c));
    }
  }

  lemma VarianceScaled(xs: seq<real>, ys: seq<real>, a: real, b: real)
    requires xs != [] && |ys| == |xs| && forall i :: 0 <= i < |xs| ==> ys[i] == Affine(a, xs[i], b)
    ensures Variance(ys) == Times(Sq(a), Variance(xs))
  {
    hide Affine, Sq, Spread, Mean;
    var n := |xs| as real;
    MeanScaled(xs, ys, a, b);
    SpreadScaled(xs, ys, a, b, Mean(xs));
    assert Variance(xs) * n == Spread(xs, Mean(xs));
    assert (Sq(a) * Variance(xs)) * n == Sq(a) * (Variance(xs) * n);
    QuotientIs(Spread(ys, Mean(ys)), n, Times(Sq(a), Variance(xs)));
  }

  lemma SqOfScaled(a: real, v: real, w: real, x: real, y: real)
    requires Sq(v) == 252.0 * x && Sq(w) == 252.0 * y && y == Times(Sq(a), x)
    ensures Sq(w) == Sq(Times(a, v))
  {
    SqTimes(a, v);
    assert Sq(a) * (252.0 * x) == 252.0 * (Sq(a) * x);
  }

  /** Volatility takes the scale of the returns and none of their shift. */
  lemma VolatilityScales(root: Root, rs: seq<real>, a: real, b: real)
    requires IsRoot(root) && a >= 0.0
    ensures VolatilityOf(root, Scaled(rs, a, b)) == Times(a, VolatilityOf(root, rs))
  {
    hide IsRoot, VolatilityOf, Variance, Sq, Times, Affine;
    var ss := Scaled(rs, a, b);
    var v, w := VolatilityOf(root, rs), VolatilityOf(root, ss);
    VolatilitySquared(root, rs);
    VolatilitySquared(root, ss);
    if |rs| > 1 {
      VarianceScaled(rs, ss, a, b);
      SqOfScaled(a, v, w, Variance(rs), Variance(ss));
      NonNegativeTimes(a, v);
      SqUnique(w, Times(a, v));
    } else {
      TimesZero(a);
    }
  }

  lemma TimesZero(a: real)
    ensures Times(a, 0.0) == 0.0
  {
  }
}
