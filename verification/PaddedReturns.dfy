/** Return series that differ only by extra periods of zero return: what duplicate deliveries make of a portfolio's
    returns, and what that does to the figures computed from them. */
module PaddedReturns {
  import opened RealMath
  import opened RiskMath
  import opened RiskProofs
  import opened RiskService
  import opened VarProofs

  /** `ss` is `rs` with zeros put in: before its period `k`, `at[k]` periods of `rs` have gone by. */
  ghost predicate Padded(rs: seq<real>, ss: seq<real>, at: seq<nat>)
  {
    && |at| == |ss| + 1 && at[0] == 0 && at[|ss|] == |rs|
    && forall k :: 0 <= k < |ss| ==> PaddedAt(rs, ss[k], at[k], at[k + 1])
  }

  /** One period: a zero that passes nothing of `rs` by, or the next period of `rs`. */
  predicate PaddedAt(rs: seq<real>, s: real, before: nat, after: nat)
  {
    (after == before && s == 0.0) || (after == before + 1 <= |rs| && s == rs[before])
  }

  /** The places ascend, and never run ahead. */
  lemma {:induction false} PlacesAscend(rs: seq<real>, ss: seq<real>, at: seq<nat>, i: nat, j: nat)
    requires Padded(rs, ss, at) && i <= j <= |ss|
    ensures at[i] <= at[j] <= at[i] + (j - i)
    decreases j
  {
    if i < j {
      PlacesAscend(rs, ss, at, i, j - 1);
      assert PaddedAt(rs, ss[j - 1], at[j - 1], at[j]);
    }
  }

  lemma PlacesInRange(rs: seq<real>, ss: seq<real>, at: seq<nat>, i: nat)
    requires Padded(rs, ss, at) && i <= |ss|
    ensures at[i] <= i && at[i] <= |rs| && 0 <= |rs| - at[i] <= |ss| - i
  {
    PlacesAscend(rs, ss, at, 0, i);
    PlacesAscend(rs, ss, at, i, |ss|);
  }

  // ---------------------------------------------------------------- compounding

  lemma GrowthPushZero(rs: seq<real>)
    ensures Growth(rs + [0.0]) == Growth(rs)
  {
    assert (rs + [0.0])[..|rs|] == rs;
  }

  /** Any run of periods compounds to what the periods of `rs` within it do. */
  lemma {:induction false} PaddedGrowth(rs: seq<real>, ss: seq<real>, at: seq<nat>, i: nat, j: nat)
    requires Padded(rs, ss, at) && i <= j <= |ss|
    ensures at[i] <= at[j] <= |rs| && Growth(ss[i..j]) == Growth(rs[at[i]..at[j]])
    decreases j
  {
    hide Growth;
    PlacesAscend(rs, ss, at, i, j);
    PlacesInRange(rs, ss, at, j);
    if i == j {
      assert ss[i..j] == [] && rs[at[i]..at[j]] == [];
    } else {
      PaddedGrowth(rs, ss, at, i, j - 1);
      assert PaddedAt(rs, ss[j - 1], at[j - 1], at[j]);
      assert ss[i..j] == ss[i..j - 1] + [ss[j - 1]];
      if at[j] == at[j - 1] {
        GrowthPushZero(ss[i..j - 1]);
      } else {
        assert rs[at[i]..at[j]] == rs[at[i]..at[j - 1]] + [rs[at[j - 1]]];
        GrowthPush(ss[i..j - 1], ss[j - 1]);
        GrowthPush(rs[at[i]..at[j - 1]], rs[at[j - 1]]);
      }
    }
  }

  /** The rolling return looks back over fewer periods of `rs`: those that the last `window` periods contain. */
  lemma PaddedRolling(rs: seq<real>, ss: seq<real>, at: seq<nat>, window: nat)
    requires Padded(rs, ss, at)
    ensures 1 <= window <= |ss| ==> var left := |rs| - at[|ss| - window];
      0 <= left <= window && Growth(Tail(ss, window)) == Growth(rs[|rs| - left..])
    ensures window == 0 || window > |ss| ==> Growth(Tail(ss, window)) == Growth(rs)
  {
    hide Growth, PaddedAt;
    if 1 <= window <= |ss| {
      var i := |ss| - window;
      PlacesInRange(rs, ss, at, i);
      PaddedGrowth(rs, ss, at, i, |ss|);
      assert Tail(ss, window) == ss[i..|ss|] && rs[at[i]..|rs|] == rs[at[i]..];
    } else {
      PaddedGrowth(rs, ss, at, 0, |ss|);
      assert ss[0..|ss|] == ss && rs[0..|rs|] == rs;
    }
  }

  lemma RollingOfPadded(rs: seq<real>, ss: seq<real>, at: seq<nat>, window: nat) returns (left: nat)
    requires Padded(rs, ss, at) && window > 0
    ensures left <= window && left <= |rs| <= |ss| && (|ss| <= window ==> left == |rs|)
    ensures RollingOf(ss, window) == Growth(rs[|rs| - left..]) - 1.0
  {
    hide Growth, PaddedAt;
    PlacesInRange(rs, ss, at, 0);
    PaddedRolling(rs, ss, at, window);
    left := if window <= |ss| then |rs| - at[|ss| - window] else |rs|;
    if ss == [] {
      NothingGrows();
      assert rs[|rs| - left..] == [];
    } else if window > |ss| {
      assert rs[|rs| - left..] == rs;
    }
  }

  // ---------------------------------------------------------------- drawdown

  lemma PaddedAboveLoss(rs: seq<real>, ss: seq<real>, at: seq<nat>)
    requires Padded(rs, ss, at) && AboveTotalLoss(rs)
    ensures AboveTotalLoss(ss)
  {
    forall k | 0 <= k < |ss| ensures ss[k] > -1.0 {
      assert PaddedAt(rs, ss[k], at[k], at[k + 1]);
    }
  }

  /** The equity curve repeats points. */
  lemma PaddedCurve(rs: seq<real>, ss: seq<real>, at: seq<nat>) returns (places: seq<nat>)
    requires Padded(rs, ss, at) && rs != [] && ss != [] && at[1] == 1
    ensures Redelivers(Equity(rs), Equity(ss), places)
  {
    hide Growth;
    forall k | 1 <= k <= |ss| ensures 1 <= at[k] <= |rs| && Equity(ss)[k - 1] == Equity(rs)[at[k] - 1] {
      PlacesAscend(rs, ss, at, 1, k);
      PlacesInRange(rs, ss, at, k);
      PaddedGrowth(rs, ss, at, 0, k);
      assert ss[0..k] == ss[..k] && rs[0..at[k]] == rs[..at[k]];
    }
    places := seq(|ss|, k requires 0 <= k < |ss| => at[k + 1] - 1);
    forall k | 0 < k < |places| ensures places[k - 1] <= places[k] <= places[k - 1] + 1 {
      assert PaddedAt(rs, ss[k], at[k], at[k + 1]);
    }
  }

  /** Zeros anywhere after the first period leave the drawdown as it was. */
  lemma PaddedDrawdown(rs: seq<real>, ss: seq<real>, at: seq<nat>)
    requires Padded(rs, ss, at) && AboveTotalLoss(rs)
    requires ss != [] ==> at[1] == 1
    ensures Drawdown(ss) == Drawdown(rs)
  {
    if ss == [] {
      assert rs == [];
    } else {
      hide Drawdown, Equity, IsWorstDrop, Redelivers;
      PlacesInRange(rs, ss, at, 1);
      var places := PaddedCurve(rs, ss, at);
      PaddedAboveLoss(rs, ss, at);
      OnePassDrawdownIsTrue(rs);
      OnePassDrawdownIsTrue(ss);
      DuplicatesKeepWorstDrop(Equity(rs), Equity(ss), places, Drawdown(rs).value);
      WorstDropUnique(Equity(ss), Drawdown(rs).value, Drawdown(ss).value);
    }
  }

  // ---------------------------------------------------------------- value at risk

  /** Of some zeros, those that count as lying below `x`. */
  function Zeros(x: real, inclusive: bool, n: nat): nat
  {
    if 0.0 < x || (inclusive && x == 0.0) then n else 0
  }

  lemma CountPush(xs: seq<real>, y: real, x: real, inclusive: bool)
    ensures Count(xs + [y], x, inclusive) ==
            Count(xs, x, inclusive) + if y < x || (inclusive && y == x) then 1 else 0
  {
    CountAppend(xs, [y], x, inclusive);
  }

  /** The zeros put in are all that counts change by. */
  lemma {:induction false} PaddedCount(rs: seq<real>, ss: seq<real>, at: seq<nat>, x: real, inclusive: bool, n: nat)
    requires Padded(rs, ss, at) && n <= |ss|
    ensures at[n] <= n && at[n] <= |rs|
    ensures Count(ss[..n], x, inclusive) == Count(rs[..at[n]], x, inclusive) + Zeros(x, inclusive, n - at[n])
  {
    hide Count;
    PlacesInRange(rs, ss, at, n);
    if n == 0 {
      assert ss[..0] == [] && rs[..0] == [];
    } else {
      PaddedCount(rs, ss, at, x, inclusive, n - 1);
      assert PaddedAt(rs, ss[n - 1], at[n - 1], at[n]);
      assert ss[..n] == ss[..n - 1] + [ss[n - 1]];
      CountPush(ss[..n - 1], ss[n - 1], x, inclusive);
      if at[n] > at[n - 1] {
        assert rs[..at[n]] == rs[..at[n - 1]] + [rs[at[n - 1]]];
        CountPush(rs[..at[n - 1]], rs[at[n - 1]], x, inclusive);
      }
    }
  }

  lemma PaddedCounts(rs: seq<real>, ss: seq<real>, at: seq<nat>, x: real, inclusive: bool)
    requires Padded(rs, ss, at)
    ensures |rs| <= |ss|
    ensures Count(ss, x, inclusive) == Count(rs, x, inclusive) + Zeros(x, inclusive, |ss| - |rs|)
  {
    hide Count;
    PaddedCount(rs, ss, at, x, inclusive, |ss|);
    assert ss[..|ss|] == ss && rs[..|rs|] == rs;
  }

  /** A count that tells a rank from a threshold. */
  lemma RankAtLeast(xs: seq<real>, v: real, k: nat, t: real)
    requires IsRank(xs, v, k) && Count(xs, t, false) <= k
    ensures v >= t
  {
    if v < t { CountsNest(xs, xs, v, t); }
  }

  lemma RankAtMost(xs: seq<real>, v: real, k: nat, t: real)
    requires IsRank(xs, v, k) && k < Count(xs, t, true)
    ensures v <= t
  {
    if t < v { CountsNest(xs, xs, t, v); }
  }

  lemma LossDrawnUp(rs: seq<real>, ss: seq<real>, at: seq<nat>, v: real, w: real)
    requires Padded(rs, ss, at) && IsRank(rs, v, |rs| / 20) && IsRank(ss, w, |ss| / 20) && v <= 0.0
    ensures v <= w <= 0.0
  {
    hide Count, Padded;
    PaddedCounts(rs, ss, at, v, false);
    PaddedCounts(rs, ss, at, 0.0, true);
    RankAtLeast(ss, w, |ss| / 20, v);
    if v < 0.0 {
      CountsNest(rs, rs, v, 0.0);
      CountBoth(rs, 0.0);
    }
    RankAtMost(ss, w, |ss| / 20, 0.0);
  }

  lemma GainDrawnDown(rs: seq<real>, ss: seq<real>, at: seq<nat>, v: real, w: real)
    requires Padded(rs, ss, at) && IsRank(rs, v, |rs| / 20) && IsRank(ss, w, |ss| / 20) && v > 0.0
    ensures 0.0 <= w <= v
  {
    hide Count, Padded;
    PaddedCounts(rs, ss, at, v, true);
    PaddedCounts(rs, ss, at, 0.0, false);
    CountsNest(rs, rs, 0.0, v);
    CountBoth(rs, 0.0);
    RankAtLeast(ss, w, |ss| / 20, 0.0);
    RankAtMost(ss, w, |ss| / 20, v);
  }

  lemma OnlyZeros(ss: seq<real>, at: seq<nat>)
    requires Padded([], ss, at)
    ensures HistoricalVar(ss) == 0.0
  {
    if ss != [] {
      hide HistoricalVar, IsRank;
      VarIsOrderStatistic(ss);
      forall k | 0 <= k < |ss| ensures ss[k] == 0.0 {
        assert PaddedAt([], ss[k], at[k], at[k + 1]);
      }
    }
  }

  /** Zeros put in draw the value at risk towards zero, and never past it. */
  lemma PaddedVar(rs: seq<real>, ss: seq<real>, at: seq<nat>)
    requires Padded(rs, ss, at)
    ensures Min(0.0, HistoricalVar(rs)) <= HistoricalVar(ss) <= Max(0.0, HistoricalVar(rs))
  {
    if rs == [] {
      OnlyZeros(ss, at);
    } else {
      hide Count, HistoricalVar, Padded, IsRank;
      var v, w := HistoricalVar(rs), HistoricalVar(ss);
      PaddedCounts(rs, ss, at, v, false);
      VarIsOrderStatistic(rs);
      VarIsOrderStatistic(ss);
      if v <= 0.0 {
        LossDrawnUp(rs, ss, at, v, w);
      } else {
        GainDrawnDown(rs, ss, at, v, w);
      }
    }
  }

  lemma {:induction false} CountBoth(xs: seq<real>, x: real)
    ensures Count(xs, x, false) <= Count(xs, x, true)
  {
    if xs != [] { CountBoth(xs[1..], x); }
  }

  // ---------------------------------------------------------------- from prices

  /** Duplicate deliveries put zeros into a symbol's returns. */
  lemma ReturnsPadded(ps: seq<real>, qs: seq<real>, at: seq<nat>)
    requires Positive(ps) && Redelivers(ps, qs, at)
    ensures Padded(Returns(ps), Returns(qs), at)
  {
    hide Change, Returns;
    ReturnsTelescope(ps);
    ReturnsTelescope(qs);
    forall k | 0 <= k < |Returns(qs)| ensures PaddedAt(Returns(ps), Returns(qs)[k], at[k], at[k + 1]) {
      ReturnAt(qs, k);
      if at[k + 1] == at[k] {
        ChangeToItself(qs[k]);
      } else {
        ReturnAt(ps, at[k]);
      }
    }
  }

  lemma ScaledPadded(rs: seq<real>, ss: seq<real>, at: seq<nat>, a: real)
    requires Padded(rs, ss, at)
    ensures Padded(Scaled(rs, a, 0.0), Scaled(ss, a, 0.0), at)
  {
    forall k | 0 <= k < |ss|
      ensures PaddedAt(Scaled(rs, a, 0.0), Scaled(ss, a, 0.0)[k], at[k], at[k + 1])
    {
      assert PaddedAt(rs, ss[k], at[k], at[k + 1]);
    }
  }

  lemma PartialLoss(a: real, r: real)
    requires 0.0 <= a <= 1.0 && r > -1.0
    ensures Affine(a, r, 0.0) > -1.0
  {
    if a > 0.0 {
      PositiveTimes(a, r + 1.0);
      TimesAdd(a, r, 1.0);
    }
  }

  lemma ScaledAboveLoss(rs: seq<real>, a: real)
    requires AboveTotalLoss(rs) && 0.0 <= a <= 1.0
    ensures AboveTotalLoss(Scaled(rs, a, 0.0))
  {
    hide Affine;
    forall k | 0 <= k < |rs| ensures Scaled(rs, a, 0.0)[k] > -1.0 {
      PartialLoss(a, rs[k]);
    }
  }
}
