/** What the risk figures mean. */
module RiskProofs {
  import opened Base
  import opened RealMath
  import opened RiskMath

  // ---------------------------------------------------------------- drawdown

  ghost predicate Positive(xs: seq<real>)
  {
    forall k :: 0 <= k < |xs| ==> xs[k] > 0.0
  }

  /** Returns of an unleveraged holding: nothing is ever lost twice over. */
  ghost predicate AboveTotalLoss(rs: seq<real>)
  {
    forall k :: 0 <= k < |rs| ==> rs[k] > -1.0
  }

  lemma {:induction false} GrowthPositive(rs: seq<real>)
    requires AboveTotalLoss(rs)
    ensures Growth(rs) > 0.0
  {
    if rs != [] {
      var g, f := Growth(rs[..|rs| - 1]), 1.0 + rs[|rs| - 1];
      GrowthPositive(rs[..|rs| - 1]);
      assert f > 0.0;
      assert g * f > 0.0;
    }
  }

  lemma EquityPositive(rs: seq<real>)
    requires AboveTotalLoss(rs)
    ensures Positive(Equity(rs))
  {
    forall k | 0 <= k < |rs| ensures Equity(rs)[k] > 0.0 {
      GrowthPositive(rs[..k + 1]);
    }
  }

  // ---- facts about Change; other proofs treat it as a black box

  lemma ChangeIsRatio(a: real, x: real)
    requires a != 0.0
    ensures Change(a, x) == x / a - 1.0
  {
    QuotientIs(x - a, a, x / a - 1.0);
  }

  lemma ChangeToItself(a: real)
    requires a != 0.0
    ensures Change(a, a) == 0.0
  {
  }

  /** From a higher level the fall to the same point is deeper. */
  lemma HigherLevelDeeperFall(a: real, b: real, x: real)
    requires x > 0.0 && 0.0 < a <= b
    ensures Change(b, x) <= Change(a, x)
  {
    ChangeIsRatio(a, x);
    ChangeIsRatio(b, x);
    LargerBaseSmallerRatio(x, a, b);
  }

  /** Relative changes do not depend on the unit. */
  lemma ChangeIgnoresUnit(a: real, x: real, unit: real)
    requires a > 0.0 && unit > 0.0
    ensures a / unit > 0.0 && Change(a / unit, x / unit) == Change(a, x)
  {
    var b := a / unit;
    assert b * unit == a;
    assert b > 0.0;
    RatioChain(x, a, unit);
    QuotientIs(x / unit, b, x / a);
    ChangeIsRatio(b, x / unit);
    ChangeIsRatio(a, x);
  }

  /** Compounding a change onto a growth factor. */
  lemma ChangeCompounds(first: real, a: real, x: real)
    requires first > 0.0 && a > 0.0 && x > 0.0
    ensures Times(Ratio(a, first), 1.0 + Change(a, x)) == Ratio(x, first) && Change(a, x) > -1.0
  {
    ChangeIsRatio(a, x);
    RatioChain(x, a, first);
    assert x / a > 0.0;
  }

  // ---- the one pass

  lemma {:induction false} PeakIsHighest(curve: seq<real>, n: nat)
    requires 1 <= n <= |curve|
    ensures forall k :: 0 <= k < n ==> curve[k] <= Peak(curve, n)
    ensures exists k :: 0 <= k < n && curve[k] == Peak(curve, n)
  {
    if n == 1 {
      assert curve[0] == Peak(curve, 1);
    } else {
      PeakIsHighest(curve, n - 1);
      var k :| 0 <= k < n - 1 && curve[k] == Peak(curve, n - 1);
      assert Peak(curve, n) == curve[k] || Peak(curve, n) == curve[n - 1];
    }
  }

  lemma {:induction false} WorstOverPairs(curve: seq<real>, n: nat)
    requires Positive(curve) && 1 <= n <= |curve|
    ensures Worst(curve, n).Some?
    ensures forall i, j :: 0 <= i <= j < n ==> Worst(curve, n).value <= Change(curve[i], curve[j])
    ensures exists i, j :: 0 <= i <= j < n && Worst(curve, n).value == Change(curve[i], curve[j])
  {
    hide Change;
    PeakIsHighest(curve, n);
    var peak, last := Peak(curve, n), curve[n - 1];
    var p :| 0 <= p < n && curve[p] == peak;
    forall i | 0 <= i < n ensures Change(peak, last) <= Change(curve[i], last) {
      HigherLevelDeeperFall(curve[i], peak, last);
    }
    assert Change(peak, last) == Change(curve[p], curve[n - 1]);
    if n == 1 {
      ChangeToItself(peak);
      assert Worst(curve, 0) == Some(0.0);
    } else {
      WorstOverPairs(curve, n - 1);
      var i, j :| 0 <= i <= j < n - 1 && Worst(curve, n - 1).value == Change(curve[i], curve[j]);
      assert Worst(curve, n).value == Min(Worst(curve, n - 1).value, Change(peak, last));
    }
  }

  /** One pass finds the true drawdown: the minimum over all ordered pairs of points of the equity curve. */
  lemma OnePassDrawdownIsTrue(rs: seq<real>)
    requires AboveTotalLoss(rs) && rs != []
    ensures Drawdown(rs).Some? && IsWorstDrop(Equity(rs), Drawdown(rs).value)
  {
    hide Change;
    EquityPositive(rs);
    WorstOverPairs(Equity(rs), |rs|);
  }

  lemma WorstDropUnique(curve: seq<real>, v: real, w: real)
    requires IsWorstDrop(curve, v) && IsWorstDrop(curve, w)
    ensures v == w
  {
    hide Change;
  }

  lemma {:induction false} GrowthSplit(xs: seq<real>, ys: seq<real>)
    ensures Growth(xs + ys) == Growth(xs) * Growth(ys)
  {
    if ys == [] {
      assert xs + ys == xs;
    } else {
      var n := |ys| - 1;
      assert (xs + ys)[..|xs + ys| - 1] == xs + ys[..n];
      GrowthSplit(xs, ys[..n]);
    }
  }

  /** A change on the equity curve is the compounded return of the run of periods in between. */
  lemma ChangeIsRunReturn(rs: seq<real>, a: nat, b: nat)
    requires AboveTotalLoss(rs) && 1 <= a <= b <= |rs|
    ensures Equity(rs)[a - 1] != 0.0
    ensures Change(Equity(rs)[a - 1], Equity(rs)[b - 1]) == Growth(rs[a..b]) - 1.0
  {
    assert rs[..b] == rs[..a] + rs[a..b];
    GrowthSplit(rs[..a], rs[a..b]);
    GrowthPositive(rs[..a]);
    QuotientIs(Growth(rs[..b]), Growth(rs[..a]), Growth(rs[a..b]));
    ChangeIsRatio(Growth(rs[..a]), Growth(rs[..b]));
  }

  function RunReturn(rs: seq<real>, a: nat, b: nat): real
    requires a <= b <= |rs|
  {
    Growth(rs[a..b]) - 1.0
  }

  /** In terms of runs: the drawdown is the worst compounded return of any contiguous run (the empty one
      included) that leaves the first period out, ... */
  lemma DrawdownIsWorstRun(rs: seq<real>)
    requires AboveTotalLoss(rs) && rs != []
    ensures Drawdown(rs).Some?
    ensures forall a, b :: 1 <= a <= b <= |rs| ==> Drawdown(rs).value <= RunReturn(rs, a, b)
    ensures exists a, b :: 1 <= a <= b <= |rs| && Drawdown(rs).value == RunReturn(rs, a, b)
  {
    hide Change;
    OnePassDrawdownIsTrue(rs);
    var curve, v := Equity(rs), Drawdown(rs).value;
    forall a, b | 1 <= a <= b <= |rs| ensures v <= RunReturn(rs, a, b) {
      ChangeIsRunReturn(rs, a, b);
    }
    var i, j :| 0 <= i <= j < |curve| && v == Change(curve[i], curve[j]);
    ChangeIsRunReturn(rs, i + 1, j + 1);
    assert v == RunReturn(rs, i + 1, j + 1);
  }

  /** ... so it lies in (-1, 0] and never exceeds the rolling return over fewer periods than there are. */
  lemma DrawdownBounds(rs: seq<real>, window: nat)
    requires AboveTotalLoss(rs) && rs != []
    ensures Drawdown(rs).Some? && -1.0 < Drawdown(rs).value <= 0.0
    ensures 1 <= window < |rs| ==> Drawdown(rs).value <= Growth(Tail(rs, window)) - 1.0
  {
    DrawdownIsWorstRun(rs);
    assert RunReturn(rs, 1, 1) == 0.0;
    var a, b :| 1 <= a <= b <= |rs| && Drawdown(rs).value == RunReturn(rs, a, b);
    GrowthPositive(rs[a..b]);
    if 1 <= window < |rs| {
      assert Tail(rs, window) == rs[|rs| - window..|rs|];
      assert Drawdown(rs).value <= RunReturn(rs, |rs| - window, |rs|);
    }
  }

  // ---------------------------------------------------------------- drawdown from prices

  /** A return is the relative price change of the period that starts at place `i`, whose price is not zero. */
  ghost predicate EarnedAt(ps: seq<real>, i: nat, r: real)
  {
    i + 1 < |ps| && ps[i] != 0.0 && r == (ps[i + 1] - ps[i]) / ps[i]
  }

  lemma EarnedEarlier(ps: seq<real>, n: nat, i: nat, r: real)
    requires n <= |ps| && EarnedAt(ps[..n], i, r)
    ensures EarnedAt(ps, i, r)
  {
  }

  /** The returns of any history, zero prices included: one for every period that starts at a nonzero price, in order;
      `at` tells which. */
  lemma {:induction false} ReturnsInOrder(ps: seq<real>) returns (at: seq<nat>)
    ensures |at| == |Returns(ps)|
    ensures forall k :: 0 < k < |at| ==> at[k - 1] < at[k]
    ensures forall k :: 0 <= k < |at| ==> at[k] + 1 < |ps| && EarnedAt(ps, at[k], Returns(ps)[k])
    ensures forall i: nat :: i + 1 < |ps| && ps[i] != 0.0 ==> i in at
  {
    if |ps| < 2 {
      at := [];
    } else {
      hide EarnedAt, Change;
      var n := |ps| - 1;
      var before := ReturnsInOrder(ps[..n]);
      var rs := Returns(ps[..n]);
      forall k | 0 <= k < |before| ensures EarnedAt(ps, before[k], rs[k]) {
        EarnedEarlier(ps, n, before[k], rs[k]);
      }
      if ps[n - 1] != 0.0 {
        at := before + [n - 1];
        LastEarned(ps);
        assert Returns(ps) == rs + [Change(ps[n - 1], ps[n])];
      } else {
        at := before;
        assert Returns(ps) == rs + [] == rs;
      }
    }
  }

  lemma LastEarned(ps: seq<real>)
    requires |ps| >= 2 && ps[|ps| - 2] != 0.0
    ensures EarnedAt(ps, |ps| - 2, Change(ps[|ps| - 2], ps[|ps| - 1]))
  {
  }

  lemma ReturnsStep(ps: seq<real>)
    requires Positive(ps) && |ps| >= 2
    ensures var n := |ps| - 1;
      Returns(ps) == Returns(ps[..n]) + [Change(ps[n - 1], ps[n])]
  {
  }

  lemma GrowthPush(rs: seq<real>, r: real)
    ensures Growth(rs + [r]) == Times(Growth(rs), 1.0 + r)
  {
    assert (rs + [r])[..|rs|] == rs;
  }

  lemma {:induction false} ReturnsTelescope(ps: seq<real>)
    requires Positive(ps) && ps != []
    ensures |Returns(ps)| == |ps| - 1
    ensures AboveTotalLoss(Returns(ps))
    ensures Growth(Returns(ps)) == Ratio(ps[|ps| - 1], ps[0])
  {
    var n := |ps| - 1;
    if n == 0 {
      QuotientIs(ps[0], ps[0], 1.0);
    } else {
      hide Change, Returns, Growth, Times, Ratio;
      var rs, r := Returns(ps[..n]), Change(ps[n - 1], ps[n]);
      ReturnsStep(ps);
      ReturnsTelescope(ps[..n]);
      GrowthPush(rs, r);
      ChangeCompounds(ps[0], ps[n - 1], ps[n]);
    }
  }

  lemma {:induction false} ReturnsPrefix(ps: seq<real>, n: nat)
    requires Positive(ps) && 1 <= n <= |ps|
    ensures |Returns(ps)| == |ps| - 1 && Returns(ps)[..n - 1] == Returns(ps[..n])
  {
    hide Change;
    ReturnsTelescope(ps);
    if n < |ps| {
      var m := |ps| - 1;
      ReturnsPrefix(ps[..m], n);
      ReturnsStep(ps);
      assert ps[..m][..n] == ps[..n];
    } else {
      assert ps[..n] == ps;
    }
  }

  lemma ReturnAt(ps: seq<real>, k: nat)
    requires Positive(ps) && k + 1 < |ps|
    ensures k < |Returns(ps)| && Returns(ps)[k] == Change(ps[k], ps[k + 1])
  {
    hide Change;
    ReturnsPrefix(ps, k + 2);
    ReturnsStep(ps[..k + 2]);
    ReturnsTelescope(ps[..k + 1]);
    assert ps[..k + 2][..k + 1] == ps[..k + 1];
    assert Returns(ps)[k] == Returns(ps)[..k + 1][k];
  }

  /** The equity curve of a price history is the history after its first price, in units of that price. */
  lemma EquityOfPrices(ps: seq<real>, k: nat)
    requires Positive(ps) && k + 1 < |ps|
    ensures k < |Returns(ps)| && Equity(Returns(ps))[k] == ps[k + 1] / ps[0]
  {
    ReturnsPrefix(ps, k + 2);
    ReturnsTelescope(ps[..k + 2]);
  }

  lemma ChangeOfPrices(ps: seq<real>, i: nat, j: nat)
    requires Positive(ps) && i + 1 < |ps| && j + 1 < |ps|
    ensures i < |Returns(ps)| && j < |Returns(ps)| && Equity(Returns(ps))[i] != 0.0
    ensures Change(Equity(Returns(ps))[i], Equity(Returns(ps))[j]) == Change(ps[1..][i], ps[1..][j])
  {
    hide Change;
    EquityOfPrices(ps, i);
    EquityOfPrices(ps, j);
    ChangeIgnoresUnit(ps[i + 1], ps[j + 1], ps[0]);
  }

  lemma WorstDropTransfers(c: seq<real>, q: seq<real>, v: real)
    requires |c| == |q| && IsWorstDrop(c, v) && forall i :: 0 <= i < |q| ==> q[i] != 0.0
    requires forall i, j :: 0 <= i <= j < |q| ==> Change(c[i], c[j]) == Change(q[i], q[j])
    ensures IsWorstDrop(q, v)
  {
    hide Change;
    var i, j :| 0 <= i <= j < |c| && v == Change(c[i], c[j]);
    assert v == Change(q[i], q[j]);
    forall i, j | 0 <= i <= j < |q| ensures v <= Change(q[i], q[j]) {
      assert v <= Change(c[i], c[j]);
    }
  }

  /** The drawdown of a price history is its deepest fall from any price after the first to a later one. */
  lemma DrawdownOfPrices(ps: seq<real>)
    requires Positive(ps) && |ps| >= 2
    ensures Drawdown(Returns(ps)).Some? && IsWorstDrop(ps[1..], Drawdown(Returns(ps)).value)
  {
    hide Change, Returns, Equity, Drawdown;
    var rs, qs := Returns(ps), ps[1..];
    ReturnsTelescope(ps);
    OnePassDrawdownIsTrue(rs);
    forall i, j | 0 <= i <= j < |qs| ensures Change(Equity(rs)[i], Equity(rs)[j]) == Change(qs[i], qs[j]) {
      ChangeOfPrices(ps, i, j);
    }
    WorstDropTransfers(Equity(rs), qs, Drawdown(rs).value);
  }

  // ---------------------------------------------------------------- duplicate delivery

  /** `qs` is what arrives when the prices `ps` are delivered in order, each at least once: the k-th arrival
      is the price at place `at[k]`. */
  ghost predicate Redelivers(ps: seq<real>, qs: seq<real>, at: seq<nat>)
  {
    && |at| == |qs| > 0 && |ps| > 0
    && at[0] == 0 && at[|at| - 1] == |ps| - 1
    && (forall k :: 0 < k < |at| ==> at[k - 1] <= at[k] <= at[k - 1] + 1)
    && (forall k :: 0 <= k < |at| ==> at[k] < |ps| && qs[k] == ps[at[k]])
  }

  lemma {:induction false} ArrivalsAscend(at: seq<nat>, i: nat, j: nat)
    requires i <= j < |at|
    requires forall k :: 0 < k < |at| ==> at[k - 1] <= at[k]
    ensures at[i] <= at[j]
    decreases j
  {
    if i < j { ArrivalsAscend(at, i, j - 1); }
  }

  lemma {:induction false} EveryPlaceArrives(at: seq<nat>, n: nat, place: nat) returns (k: nat)
    requires n < |at| && at[0] == 0 && place <= at[n]
    requires forall k :: 0 < k < |at| ==> at[k - 1] <= at[k] <= at[k - 1] + 1
    ensures k <= n && at[k] == place
  {
    if place == at[n] { return n; }
    k := EveryPlaceArrives(at, n - 1, place);
  }

  /** Duplicates do not change the deepest fall of a series. */
  lemma DuplicatesKeepWorstDrop(xs: seq<real>, ys: seq<real>, at: seq<nat>, v: real)
    requires Redelivers(xs, ys, at) && IsWorstDrop(xs, v)
    ensures IsWorstDrop(ys, v)
  {
    hide Change;
    forall i, j | 0 <= i <= j < |ys| ensures ys[i] != 0.0 && v <= Change(ys[i], ys[j]) {
      ArrivalsAscend(at, i, j);
      assert ys[i] == xs[at[i]] && ys[j] == xs[at[j]];
    }
    var i, j :| 0 <= i <= j < |xs| && v == Change(xs[i], xs[j]);
    var l := EveryPlaceArrives(at, |at| - 1, j);
    var k := EveryPlaceArrives(at, l, i);
    assert ys[k] == xs[i] && ys[l] == xs[j];
  }

  /** Without the first price, when that came once. */
  lemma AfterFirst(ps: seq<real>, qs: seq<real>, at: seq<nat>) returns (rest: seq<nat>)
    requires Redelivers(ps, qs, at) && |at| > 1 && at[1] == 1
    ensures Redelivers(ps[1..], qs[1..], rest)
  {
    forall k | 1 <= k < |at| ensures at[k] >= 1 {
      ArrivalsAscend(at, 1, k);
    }
    rest := seq(|at| - 1, k requires 0 <= k < |at| - 1 => at[k + 1] - 1);
  }

  /** Duplicates of any price, the first included, leave the whole-series return as it was: it is the last price
      over the first. */
  lemma DuplicatesKeepReturn(ps: seq<real>, qs: seq<real>, at: seq<nat>)
    requires Positive(ps) && Redelivers(ps, qs, at)
    ensures Growth(Returns(qs)) == Growth(Returns(ps))
  {
    hide Returns, Growth;
    ReturnsTelescope(ps);
    ReturnsTelescope(qs);
  }

  /** Duplicates of any price but the first do not change the drawdown. */
  lemma DuplicatesAreHarmless(ps: seq<real>, qs: seq<real>, at: seq<nat>)
    requires Positive(ps) && Redelivers(ps, qs, at)
    requires |at| > 1 ==> at[1] == 1
    ensures Drawdown(Returns(qs)) == Drawdown(Returns(ps))
  {
    hide Change, Returns, Drawdown;
    if |at| > 1 {
      var rest := AfterFirst(ps, qs, at);
      DrawdownOfPrices(ps);
      DrawdownOfPrices(qs);
      DuplicatesKeepWorstDrop(ps[1..], qs[1..], rest, Drawdown(Returns(ps)).value);
      WorstDropUnique(qs[1..], Drawdown(Returns(ps)).value, Drawdown(Returns(qs)).value);
    } else {
      assert qs == ps;
    }
  }

  lemma WorstDropWithHead(c: seq<real>, v: real, w: real)
    requires |c| >= 2 && IsWorstDrop(c[1..], v) && IsWorstDrop(c, w)
    ensures w <= v && (w == v <==> forall k :: 0 <= k < |c| ==> v <= Change(c[0], c[k]))
  {
    hide Change;
    var tail := c[1..];
    var i, j :| 0 <= i <= j < |tail| && v == Change(tail[i], tail[j]);
    assert v == Change(c[i + 1], c[j + 1]);
    var a, b :| 0 <= a <= b < |c| && w == Change(c[a], c[b]);
    if a > 0 {
      assert w == Change(tail[a - 1], tail[b - 1]);
    }
  }

  /** Every fall from the first price is matched by one between later prices. */
  ghost predicate FirstIsNoPeak(ps: seq<real>)
    requires Positive(ps) && ps != []
  {
    forall k :: 1 <= k < |ps| ==> FallMatched(ps, k)
  }

  ghost predicate FallMatched(ps: seq<real>, k: nat)
    requires Positive(ps) && 1 <= k < |ps|
  {
    exists i, j :: 1 <= i <= j < |ps| && Change(ps[i], ps[j]) <= Change(ps[0], ps[k])
  }

  lemma FallMatchedIff(ps: seq<real>, v: real, k: nat)
    requires Positive(ps) && 1 <= k < |ps| && IsWorstDrop(ps[1..], v)
    ensures FallMatched(ps, k) <==> v <= Change(ps[0], ps[k])
  {
    hide Change;
    var tail := ps[1..];
    if FallMatched(ps, k) {
      var i, j :| 1 <= i <= j < |ps| && Change(ps[i], ps[j]) <= Change(ps[0], ps[k]);
      assert ps[i] == tail[i - 1] && ps[j] == tail[j - 1];
    }
    if v <= Change(ps[0], ps[k]) {
      var a, b :| 0 <= a <= b < |tail| && v == Change(tail[a], tail[b]);
      assert ps[a + 1] == tail[a] && ps[b + 1] == tail[b];
    }
  }

  lemma NoPeakIff(ps: seq<real>, v: real)
    requires Positive(ps) && |ps| >= 2 && IsWorstDrop(ps[1..], v)
    ensures FirstIsNoPeak(ps) <==> forall k :: 0 <= k < |ps| ==> v <= Change(ps[0], ps[k])
  {
    hide Change, FallMatched, IsWorstDrop;
    forall k | 1 <= k < |ps| ensures FallMatched(ps, k) <==> v <= Change(ps[0], ps[k]) {
      FallMatchedIff(ps, v, k);
    }
    ChangeToItself(ps[0]);
    WorstDropIsNoRise(ps[1..], v);
  }

  lemma WorstDropIsNoRise(curve: seq<real>, v: real)
    requires curve != [] && IsWorstDrop(curve, v)
    ensures v <= 0.0
  {
    ChangeToItself(curve[0]);
    assert v <= Change(curve[0], curve[0]);
  }

  /** A duplicate of the first price is not harmless: it lets falls from that price count. It can only deepen the
      drawdown, and leaves it as it was exactly when every such fall is matched by one between later prices. */
  lemma FirstPriceDuplicate(ps: seq<real>)
    requires Positive(ps) && |ps| >= 2
    ensures Drawdown(Returns(ps)).Some? && Drawdown(Returns([ps[0]] + ps)).Some?
    ensures var v := Drawdown(Returns(ps)).value; var w := Drawdown(Returns([ps[0]] + ps)).value;
      w <= v && (w == v <==> FirstIsNoPeak(ps))
  {
    hide Change, Returns, Drawdown;
    var qs := [ps[0]] + ps;
    assert qs[1..] == ps;
    DrawdownOfPrices(ps);
    DrawdownOfPrices(qs);
    WorstDropWithHead(ps, Drawdown(Returns(ps)).value, Drawdown(Returns(qs)).value);
    NoPeakIff(ps, Drawdown(Returns(ps)).value);
  }

  /** Every arrival after the first, seen as a delivery of the history with its first price doubled. */
  lemma DoubledFirst(ps: seq<real>, qs: seq<real>, at: seq<nat>) returns (shifted: seq<nat>)
    requires Redelivers(ps, qs, at) && |at| > 1 && at[1] == 0
    ensures Redelivers([ps[0]] + ps, qs, shifted) && |shifted| > 1 && shifted[1] == 1
  {
    shifted := seq(|at|, k requires 0 <= k < |at| => if k == 0 then 0 else at[k] + 1);
  }

  /** At-least-once delivery, exactly: the drawdown is left as it was if and only if the first price came once or every
      fall from it is matched by one between later prices. */
  lemma HarmlessIff(ps: seq<real>, qs: seq<real>, at: seq<nat>)
    requires Positive(ps) && Redelivers(ps, qs, at)
    ensures Drawdown(Returns(qs)) == Drawdown(Returns(ps)) <==> (|at| > 1 && at[1] == 0 ==> FirstIsNoPeak(ps))
  {
    hide Change, Returns, Drawdown;
    if |at| > 1 && at[1] == 0 {
      var shifted := DoubledFirst(ps, qs, at);
      DuplicatesAreHarmless([ps[0]] + ps, qs, shifted);
      if |ps| > 1 {
        FirstPriceDuplicate(ps);
      } else {
        assert ps == [ps[0]] && [ps[0]] + ps == [ps[0], ps[0]];
        OnePrice(ps[0]);
      }
    } else {
      DuplicatesAreHarmless(ps, qs, at);
    }
  }

  lemma OnePrice(p: real)
    requires p > 0.0
    ensures Drawdown(Returns([p])) == Drawdown(Returns([p, p])) == Some(0.0)
  {
    DrawdownOfPrices([p, p]);
    assert [p, p][1..] == [p];
    IsWorstDropOfOne(p, Drawdown(Returns([p, p])).value);
  }

  /** For instance, prices 100 and 90 show no drawdown, but one of a tenth once the 100 arrives twice. */
  lemma FirstPriceDuplicateExample()
    ensures Drawdown(Returns([100.0, 90.0])) == Some(0.0)
    ensures Drawdown(Returns([100.0, 100.0, 90.0])) == Some(-0.1)
  {
    hide Returns, Drawdown;
    var ps, qs := [100.0, 90.0], [100.0, 100.0, 90.0];
    DrawdownOfPrices(ps);
    DrawdownOfPrices(qs);
    assert ps[1..] == [90.0] && qs[1..] == ps;
    IsWorstDropOfOne(90.0, Drawdown(Returns(ps)).value);
    IsWorstDropOfTwo(100.0, 90.0, Drawdown(Returns(qs)).value);
  }

  lemma IsWorstDropOfOne(a: real, v: real)
    requires IsWorstDrop([a], v)
    ensures v == 0.0
  {
    ChangeToItself(a);
    var i, j :| 0 <= i <= j < 1 && v == Change([a][i], [a][j]);
  }

  lemma IsWorstDropOfTwo(a: real, b: real, v: real)
    requires 0.0 < b <= a && IsWorstDrop([a, b], v)
    ensures v == Change(a, b)
  {
    hide Change;
    var c := [a, b];
    HigherLevelDeeperFall(b, a, b);
    ChangeToItself(a);
    ChangeToItself(b);
    var i, j :| 0 <= i <= j < 2 && v == Change(c[i], c[j]);
    assert v <= Change(c[0], c[1]);
  }
}
