/** Real arithmetic shared by the services; floats are modelled as exact reals. */
module RealMath {

  function Abs(x: real): real { if x < 0.0 then -x else x }
  function Min(x: real, y: real): real { if x <= y then x else y }
  function Max(x: real, y: real): real { if x >= y then x else y }

  function Sum(xs: seq<real>): real
  {
    if xs == [] then 0.0 else Sum(xs[..|xs| - 1]) + xs[|xs| - 1]
  }

  function Mean(xs: seq<real>): real
    requires xs != []
  {
    Sum(xs) / |xs| as real
  }

  /** Products and quotients under names that proofs can treat as black boxes. */
  function Times(a: real, b: real): real { a * b }

  function Ratio(x: real, y: real): real
    requires y != 0.0
  {
    x / y
  }

  function Sq(x: real): (r: real)
    ensures r >= 0.0
  {
    Times(x, x)
  }

  /** The sum of squared distances from a centre. */
  function Spread(xs: seq<real>, centre: real): (s: real)
    ensures s >= 0.0
  {
    if xs == [] then 0.0 else Spread(xs[..|xs| - 1], centre) + Sq(xs[|xs| - 1] - centre)
  }

  function Variance(xs: seq<real>): (v: real)
    requires xs != []
    ensures v >= 0.0
  {
    Spread(xs, Mean(xs)) / |xs| as real
  }

  /** A square root, given from outside; nothing more is needed of it. */
  type Root = real -> real

  ghost predicate IsRoot(root: Root)
  {
    forall x :: x >= 0.0 ==> root(x) >= 0.0 && root(x) * root(x) == x
  }

  /** `statistics.pstdev` */
  function PStdev(root: Root, xs: seq<real>): real
    requires xs != []
  {
    root(Variance(xs))
  }

  /** The nearest integer, the even one on a tie: how Python rounds. */
  function Nearest(y: real): (n: int)
    ensures Abs(n as real - y) <= 0.5 && (Abs(n as real - y) == 0.5 ==> n % 2 == 0)
    ensures y.Floor as real == y ==> n == y.Floor
  {
    var rest := y - y.Floor as real;
    if rest < 0.5 || (rest == 0.5 && y.Floor % 2 == 0) then y.Floor else y.Floor + 1
  }

  /** `round(x, 6)` */
  function Round6(x: real): (r: real)
    ensures Abs(r - x) <= 0.0000005
    ensures OnGrid(x) ==> r == x
  {
    Nearest(x * 1000000.0) as real / 1000000.0
  }

  lemma NearestMonotone(y: real, z: real)
    requires y <= z
    ensures Nearest(y) <= Nearest(z)
  {
    assert y.Floor <= z.Floor;
  }

  /** Rounding keeps order, and keeps zero. */
  lemma Round6Monotone(x: real, y: real)
    requires x <= y
    ensures Round6(x) <= Round6(y) && Round6(0.0) == 0.0
  {
    NearestMonotone(x * 1000000.0, y * 1000000.0);
  }

  /** `round(x, 4)` */
  function Round4(x: real): (r: real)
    ensures Abs(r - x) <= 0.00005
  {
    Nearest(x * 10000.0) as real / 10000.0
  }

  /** A price on the six-decimal grid. */
  predicate OnGrid(x: real)
  {
    (x * 1000000.0).Floor as real == x * 1000000.0
  }

  // ---------------------------------------------------------------- facts about products and quotients

  /** A quotient is the number that multiplies back. */
  lemma QuotientIs(x: real, y: real, q: real)
    requires y != 0.0 && q * y == x
    ensures x / y == q
  {
  }

  lemma PositiveTimes(a: real, b: real)
    requires a > 0.0 && b > 0.0
    ensures Times(a, b) > 0.0
  {
  }

  lemma SqPositive(x: real)
    requires x > 0.0
    ensures Sq(x) > 0.0
  {
    hide Times;
    PositiveTimes(x, x);
  }

  lemma SignOfFactor(a: real, b: real)
    requires b > 0.0 && a * b >= 0.0
    ensures a >= 0.0
  {
  }

  lemma QuotientMonotone(x: real, y: real, b: real)
    requires x <= y && b > 0.0
    ensures x / b <= y / b
  {
    var p, q := x / b, y / b;
    assert p * b == x && q * b == y;
    assert (q - p) * b == y - x;
    SignOfFactor(q - p, b);
  }

  lemma LargerBaseSmallerRatio(x: real, a: real, b: real)
    requires x > 0.0 && 0.0 < a <= b
    ensures x / b <= x / a
  {
    var p, q := x / a, x / b;
    assert p * a == x && q * b == x;
    assert q > 0.0;
    assert q * (b - a) >= 0.0;
    assert (p - q) * a == q * (b - a);
    SignOfFactor(p - q, a);
  }

  /** A quotient compared with a threshold. */
  lemma QuotientReaches(x: real, b: real, t: real)
    requires b > 0.0
    ensures x / b >= t <==> x >= t * b
  {
    var q := x / b;
    assert q * b == x;
    if q >= t {
      assert (q - t) * b >= 0.0;
    } else {
      assert (t - q) * b > 0.0;
    }
  }

  lemma RatioChain(x: real, y: real, z: real)
    requires y != 0.0 && z != 0.0
    ensures (y / z) * (x / y) == x / z
  {
    var a, b := y / z, x / y;
    assert a * z == y && b * y == x;
    assert (a * b) * z == b * (a * z);
    QuotientIs(x, z, a * b);
  }

  lemma TimesAdd(a: real, b: real, c: real)
    ensures Times(a, b + c) == Times(a, b) + Times(a, c)
  {
  }

  lemma TimesNext(n: nat, q: real)
    ensures Times((n + 1) as real, q) == Times(n as real, q) + q
  {
  }

  lemma TimesQuotient(n: real, x: real)
    requires n != 0.0
    ensures Times(n, x / n) == x
  {
  }

  lemma SqShift(x: real, c: real, d: real)
    ensures Sq(x - c) == Sq(x - d) + 2.0 * Times(d - c, x - d) + Sq(d - c)
  {
    var u, e := x - d, d - c;
    assert (u + e) * (u + e) == u * u + 2.0 * (e * u) + e * e;
  }

  lemma SqGrows(x: real, y: real)
    requires 0.0 <= x <= y
    ensures Sq(x) <= Sq(y)
  {
    assert x * (y - x) >= 0.0 && y * (y - x) >= 0.0;
  }
}
