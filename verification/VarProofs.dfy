/** Value at risk is the 5% order statistic: pinned down by counting, blind to order, monotone and equivariant. */
module VarProofs {
  import opened RiskMath

  /** How many entries lie below `x`, `x` itself counted or not. */
  function Count(xs: seq<real>, x: real, inclusive: bool): (c: nat)
    ensures c <= |xs|
  {
    if xs == [] then 0
    else (if xs[0] < x || (inclusive && xs[0] == x) then 1 else 0) + Count(xs[1..], x, inclusive)
  }

  lemma {:induction false} CountAppend(xs: seq<real>, ys: seq<real>, x: real, inclusive: bool)
    ensures Count(xs + ys, x, inclusive) == Count(xs, x, inclusive) + Count(ys, x, inclusive)
  {
    if xs == [] {
      assert xs + ys == ys;
    } else {
      assert (xs + ys)[1..] == xs[1..] + ys;
      CountAppend(xs[1..], ys, x, inclusive);
    }
  }

  // ---------------------------------------------------------------- sorting

  ghost predicate Ordered(xs: seq<real>)
  {
    forall i, j :: 0 <= i < j < |xs| ==> xs[i] <= xs[j]
  }

  lemma {:induction false} InsertContents(y: real, xs: seq<real>)
    ensures multiset(InsertReal(y, xs)) == multiset(xs) + multiset{y}
  {
    if xs != [] && y > xs[0] {
      InsertContents(y, xs[1..]);
      assert xs == [xs[0]] + xs[1..];
    }
  }

  lemma {:induction false} InsertOrdered(y: real, xs: seq<real>)
    requires Ordered(xs)
    ensures Ordered(InsertReal(y, xs))
  {
    if xs != [] && y > xs[0] {
      var tail := InsertReal(y, xs[1..]);
      InsertOrdered(y, xs[1..]);
      InsertContents(y, xs[1..]);
      forall i | 0 <= i < |tail| ensures xs[0] <= tail[i] {
        assert tail[i] in multiset(tail);
        assert tail[i] == y || tail[i] in xs[1..];
      }
    }
  }

  lemma {:induction false} SortIsSort(xs: seq<real>)
    ensures Ordered(SortReals(xs)) && multiset(SortReals(xs)) == multiset(xs)
  {
    if xs != [] {
      SortIsSort(xs[1..]);
      InsertOrdered(xs[0], SortReals(xs[1..]));
      InsertContents(xs[0], SortReals(xs[1..]));
      assert xs == [xs[0]] + xs[1..];
    }
  }

  lemma RemoveAt(ys: seq<real>, j: nat)
    requires j < |ys|
    ensures multiset(ys[..j] + ys[j + 1..]) == multiset(ys) - multiset{ys[j]}
  {
    assert ys == ys[..j] + ([ys[j]] + ys[j + 1..]);
  }

  lemma CountRemoved(ys: seq<real>, j: nat, x: real, inclusive: bool)
    requires j < |ys|
    ensures Count(ys, x, inclusive) == Count(ys[..j] + ys[j + 1..], x, inclusive) + Count([ys[j]], x, inclusive)
  {
    hide Count;
    assert ys == ys[..j] + ([ys[j]] + ys[j + 1..]);
    CountAppend(ys[..j], ys[j + 1..], x, inclusive);
    CountAppend([ys[j]], ys[j + 1..], x, inclusive);
    CountAppend(ys[..j], [ys[j]] + ys[j + 1..], x, inclusive);
  }

  /** The first entry of one list, found and taken out of another with the same entries. */
  lemma TakeOut(xs: seq<real>, ys: seq<real>) returns (j: nat)
    requires xs != [] && multiset(xs) == multiset(ys)
    ensures j < |ys| && ys[j] == xs[0] && multiset(xs[1..]) == multiset(ys[..j] + ys[j + 1..])
  {
    assert xs[0] in multiset(ys);
    j :| 0 <= j < |ys| && ys[j] == xs[0];
    RemoveAt(ys, j);
    RemoveAt(xs, 0);
    assert xs[..0] + xs[1..] == xs[1..];
  }

  /** Counts see only how often each number occurs. */
  lemma {:induction false} CountPermuted(xs: seq<real>, ys: seq<real>, x: real, inclusive: bool)
    requires multiset(xs) == multiset(ys)
    ensures Count(xs, x, inclusive) == Count(ys, x, inclusive)
    decreases |xs|
  {
    if xs == [] {
      assert |multiset(ys)| == 0;
    } else {
      hide Count;
      var j := TakeOut(xs, ys);
      CountPermuted(xs[1..], ys[..j] + ys[j + 1..], x, inclusive);
      CountRemoved(ys, j, x, inclusive);
      CountRemoved(xs, 0, x, inclusive);
      assert xs[..0] + xs[1..] == xs[1..];
    }
  }

  lemma {:induction false} CountNone(xs: seq<real>, x: real)
    requires forall i :: 0 <= i < |xs| ==> x <= xs[i]
    ensures Count(xs, x, false) == 0
  {
    if xs != [] { CountNone(xs[1..], x); }
  }

  lemma {:induction false} CountAll(xs: seq<real>, x: real)
    requires forall i :: 0 <= i < |xs| ==> xs[i] <= x
    ensures Count(xs, x, true) == |xs|
  {
    if xs != [] { CountAll(xs[1..], x); }
  }

  lemma OrderedCounts(s: seq<real>, k: nat)
    requires Ordered(s) && k < |s|
    ensures Count(s, s[k], false) <= k < Count(s, s[k], true)
  {
    assert s == s[..k] + s[k..] && s == s[..k + 1] + s[k + 1..];
    CountAppend(s[..k], s[k..], s[k], false);
    CountNone(s[k..], s[k]);
    CountAppend(s[..k + 1], s[k + 1..], s[k], true);
    CountAll(s[..k + 1], s[k]);
  }

  // ---------------------------------------------------------------- the order statistic

  /** `v` is where the count of entries passes k. */
  ghost predicate IsRank(xs: seq<real>, v: real, k: nat)
  {
    Count(xs, v, false) <= k < Count(xs, v, true)
  }

  lemma {:induction false} CountsNest(xs: seq<real>, ys: seq<real>, v: real, w: real)
    requires |xs| == |ys| && v < w && forall i :: 0 <= i < |xs| ==> ys[i] <= xs[i]
    ensures Count(xs, v, true) <= Count(ys, w, false)
  {
    if xs != [] {
      CountsNest(xs[1..], ys[1..], v, w);
    }
  }

  /** Raising entries never lowers the entry of a given rank; so a rank has one entry. */
  lemma RankMonotone(xs: seq<real>, ys: seq<real>, v: real, w: real, k: nat)
    requires |xs| == |ys| && forall i :: 0 <= i < |xs| ==> ys[i] <= xs[i]
    requires IsRank(xs, v, k) && IsRank(ys, w, k)
    ensures w <= v
  {
    if v < w { CountsNest(xs, ys, v, w); }
  }

  /** At most one twentieth of the returns lie strictly below the VaR, more than that at or below it, and it is
      one of the returns. */
  lemma VarIsOrderStatistic(rs: seq<real>)
    requires rs != []
    ensures IsRank(rs, HistoricalVar(rs), |rs| / 20) && HistoricalVar(rs) in rs
  {
    var s, k := SortReals(rs), |rs| / 20;
    SortedLength(rs);
    SortIsSort(rs);
    OrderedCounts(s, k);
    CountPermuted(s, rs, s[k], false);
    CountPermuted(s, rs, s[k], true);
    assert s[k] in multiset(rs);
  }

  /** The counting property determines the VaR. */
  lemma VarIsTheRank(rs: seq<real>, v: real)
    requires rs != []
    ensures IsRank(rs, v, |rs| / 20) <==> v == HistoricalVar(rs)
  {
    VarIsOrderStatistic(rs);
    if IsRank(rs, v, |rs| / 20) {
      RankMonotone(rs, rs, v, HistoricalVar(rs), |rs| / 20);
      RankMonotone(rs, rs, HistoricalVar(rs), v, |rs| / 20);
    }
  }

  lemma VarIgnoresOrder(rs: seq<real>, ss: seq<real>)
    requires multiset(rs) == multiset(ss)
    ensures HistoricalVar(rs) == HistoricalVar(ss)
  {
    assert |multiset(rs)| == |rs| && |multiset(ss)| == |ss|;
    if rs != [] {
      VarIsOrderStatistic(rs);
      CountPermuted(rs, ss, HistoricalVar(rs), false);
      CountPermuted(rs, ss, HistoricalVar(rs), true);
      VarIsTheRank(ss, HistoricalVar(rs));
    }
  }

  lemma VarIsMonotone(rs: seq<real>, raised: seq<real>)
    requires |rs| == |raised| && forall i :: 0 <= i < |rs| ==> rs[i] <= raised[i]
    ensures HistoricalVar(rs) <= HistoricalVar(raised)
  {
    if rs != [] {
      VarIsOrderStatistic(rs);
      VarIsOrderStatistic(raised);
      RankMonotone(raised, rs, HistoricalVar(raised), HistoricalVar(rs), |rs| / 20);
    }
  }

  function Affine(a: real, x: real, b: real): real
  {
    a * x + b
  }

  function Scaled(rs: seq<real>, a: real, b: real): (ss: seq<real>)
    ensures |ss| == |rs| && forall i :: 0 <= i < |rs| ==> ss[i] == Affine(a, rs[i], b)
  {
    seq(|rs|, i requires 0 <= i < |rs| => Affine(a, rs[i], b))
  }

  lemma AffineCompare(a: real, b: real, x: real, y: real)
    requires a > 0.0
    ensures Affine(a, x, b) < Affine(a, y, b) <==> x < y
  {
    assert Affine(a, y, b) - Affine(a, x, b) == a * (y - x);
    if x < y {
      assert a * (y - x) > 0.0;
    } else {
      assert a * (x - y) >= 0.0;
      assert a * (y - x) == -(a * (x - y));
    }
  }

  lemma {:induction false} ScaledCount(rs: seq<real>, ss: seq<real>, a: real, b: real, x: real, inclusive: bool)
    requires a > 0.0 && |ss| == |rs| && forall i :: 0 <= i < |rs| ==> ss[i] == Affine(a, rs[i], b)
    ensures Count(ss, Affine(a, x, b), inclusive) == Count(rs, x, inclusive)
  {
    hide Affine;
    if rs != [] {
      AffineCompare(a, b, rs[0], x);
      AffineCompare(a, b, x, rs[0]);
      ScaledCount(rs[1..], ss[1..], a, b, x, inclusive);
    }
  }

  /** VaR commutes with rescaling and shifting the returns. */
  lemma VarIsEquivariant(rs: seq<real>, a: real, b: real)
    requires a >= 0.0 && rs != []
    ensures HistoricalVar(Scaled(rs, a, b)) == Affine(a, HistoricalVar(rs), b)
  {
    var v := HistoricalVar(rs);
    if a > 0.0 {
      hide Affine;
      VarIsOrderStatistic(rs);
      ScaledCount(rs, Scaled(rs, a, b), a, b, v, false);
      ScaledCount(rs, Scaled(rs, a, b), a, b, v, true);
      VarIsTheRank(Scaled(rs, a, b), Affine(a, v, b));
    } else {
      VarIsOrderStatistic(Scaled(rs, a, b));
      var i :| 0 <= i < |rs| && Scaled(rs, a, b)[i] == HistoricalVar(Scaled(rs, a, b));
    }
  }
}
