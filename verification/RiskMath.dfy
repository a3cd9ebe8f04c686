/** The portfolio risk arithmetic of the risk peer. */
module RiskMath {
  import opened Base
  import opened RealMath

  // ---------------------------------------------------------------- returns and compounding

  /** The period returns of a price history; a period that starts at price zero is skipped. */
  function Returns(prices: seq<real>): seq<real>
  {
    if |prices| < 2 then []
    else
      var n := |prices| - 1;
      Returns(prices[..n]) + if prices[n - 1] != 0.0 then [Change(prices[n - 1], prices[n])] else []
  }

  /** Compounded growth: the product of 1 + r. */
  function Growth(rs: seq<real>): real
  {
    if rs == [] then 1.0 else Growth(rs[..|rs| - 1]) * (1.0 + rs[|rs| - 1])
  }

  function Equity(rs: seq<real>): (curve: seq<real>)
    ensures |curve| == |rs|
    ensures forall k :: 0 <= k < |curve| ==> curve[k] == Growth(rs[..k + 1])
  {
    seq(|rs|, k requires 0 <= k < |rs| => Growth(rs[..k + 1]))
  }

  // ---------------------------------------------------------------- drawdown

  /** The highest of the first `n` points; the peak starts at the first point of the curve. */
  function Peak(curve: seq<real>, n: nat): real
    requires 1 <= n <= |curve|
  {
    if n == 1 then curve[0] else Max(Peak(curve, n - 1), curve[n - 1])
  }

  /** The running minimum drawdown over the first `n` points; None when a peak of zero is divided by. */
  function Worst(curve: seq<real>, n: nat): Option<real>
    requires n <= |curve|
  {
    if n == 0 then Some(0.0)
    else
      var before := Worst(curve, n - 1);
      var peak := Peak(curve, n);
      if before.None? || peak == 0.0 then None else Some(Min(before.value, Change(peak, curve[n - 1])))
  }

  function Drawdown(rs: seq<real>): Option<real>
  {
    Worst(Equity(rs), |rs|)
  }

  /** The first loop of `_max_drawdown`. */
  method EquityCurve(rs: seq<real>) returns (curve: seq<real>)
    ensures curve == Equity(rs)
  {
    curve := [];
    var running := 1.0;
    for k := 0 to |rs|
      invariant running == Growth(rs[..k])
      invariant curve == Equity(rs)[..k]
    {
      assert rs[..k + 1][..k] == rs[..k];
      running := running * (1.0 + rs[k]);
      curve := curve + [running];
    }
  }

  method MaxDrawdown(rs: seq<real>) returns (r: Option<real>)
    ensures r == Drawdown(rs)
  {
    if rs == [] {
      return Some(0.0);
    }
    var curve := EquityCurve(rs);
    var peak := curve[0];
    var maxDrawdown := 0.0;
    for k := 0 to |curve|
      invariant peak == if k == 0 then curve[0] else Peak(curve, k)
      invariant Worst(curve, k) == Some(maxDrawdown)
    {
      peak := Max(peak, curve[k]);
      if peak == 0.0 {
        WorstFails(curve, |curve|);
        assert ZeroPeak(curve, k + 1);
        return None;
      }
      maxDrawdown := Min(maxDrawdown, Change(peak, curve[k]));
    }
    return Some(maxDrawdown);
  }

  predicate ZeroPeak(curve: seq<real>, n: nat)
  {
    1 <= n <= |curve| && Peak(curve, n) == 0.0
  }

  /** The division fails exactly when some running peak is zero. */
  lemma {:induction false} WorstFails(curve: seq<real>, n: nat)
    requires n <= |curve|
    ensures Worst(curve, n).None? <==> exists m :: 0 <= m <= n && ZeroPeak(curve, m)
  {
    if n > 0 {
      WorstFails(curve, n - 1);
      assert ZeroPeak(curve, n) ==> Worst(curve, n).None?;
    }
  }

  /** The relative change from one level to another. */
  function Change(level: real, later: real): real
    requires level != 0.0
  {
    (later - level) / level
  }

  /** The deepest relative fall from any point of a curve to a later one (or to itself: no fall). */
  ghost predicate IsWorstDrop(curve: seq<real>, v: real)
  {
    && (forall i :: 0 <= i < |curve| ==> curve[i] != 0.0)
    && (forall i, j :: 0 <= i <= j < |curve| ==> v <= Change(curve[i], curve[j]))
    && (exists i, j :: 0 <= i <= j < |curve| && v == Change(curve[i], curve[j]))
  }

  // ---------------------------------------------------------------- rolling return

  /** Python's `returns[-window:]`; a window of zero selects everything. */
  function Tail(rs: seq<real>, window: nat): seq<real>
  {
    if window == 0 || window >= |rs| then rs else rs[|rs| - window..]
  }

  method RollingReturn(rs: seq<real>, window: nat) returns (r: real)
    ensures r == if rs == [] then 0.0 else Growth(Tail(rs, window)) - 1.0
  {
    if rs == [] {
      return 0.0;
    }
    var selected := Tail(rs, window);
    var result := 1.0;
    for k := 0 to |selected|
      invariant result == Growth(selected[..k])
    {
      assert selected[..k + 1][..k] == selected[..k];
      result := result * (1.0 + selected[k]);
    }
    assert selected[..|selected|] == selected;
    return result - 1.0;
  }

  // ---------------------------------------------------------------- value at risk

  function InsertReal(x: real, xs: seq<real>): seq<real>
  {
    if xs == [] || x <= xs[0] then [x] + xs else [xs[0]] + InsertReal(x, xs[1..])
  }

  function SortReals(xs: seq<real>): seq<real>
  {
    if xs == [] then [] else InsertReal(xs[0], SortReals(xs[1..]))
  }

  /** The index of the 5% quantile: `int((1 - 0.95) * n)`, clamped to the list. */
  function TailIndex(n: nat): nat
    requires n > 0
  {
    if n / 20 < n - 1 then n / 20 else n - 1
  }

  /** `_historical_var(returns, 0.95)` */
  function HistoricalVar(rs: seq<real>): real
  {
    if rs == [] then 0.0
    else SortedLength(rs); SortReals(rs)[TailIndex(|rs|)]
  }

  lemma {:induction false} InsertLength(x: real, xs: seq<real>)
    ensures |InsertReal(x, xs)| == |xs| + 1
  {
    if xs != [] && x > xs[0] { InsertLength(x, xs[1..]); }
  }

  lemma {:induction false} SortedLength(xs: seq<real>)
    ensures |SortReals(xs)| == |xs|
  {
    if xs != [] {
      SortedLength(xs[1..]);
      InsertLength(xs[0], SortReals(xs[1..]));
    }
  }

  // ---------------------------------------------------------------- portfolio returns

  datatype Position = Position(symbol: string, weight: real)

  /** Return series by symbol; a symbol without one counts as having none. */
  type Series = map<string, seq<real>>

  function SeriesOf(series: Series, symbol: string): seq<real>
  {
    if symbol in series then series[symbol] else []
  }

  /** The shortest non-empty series among the positions, or 0. */
  function CommonLength(positions: seq<Position>, series: Series): nat
  {
    if positions == [] then 0
    else
      var n := |positions| - 1;
      var before := CommonLength(positions[..n], series);
      var here := |SeriesOf(series, positions[n].symbol)|;
      if here == 0 then before else if before == 0 || here < before then here else before
  }

  /** Every position has `back` returns to look back on, or none at all. */
  predicate Reaches(positions: seq<Position>, series: Series, back: nat)
  {
    forall i :: 0 <= i < |positions| ==> InReach(SeriesOf(series, positions[i].symbol), back)
  }

  predicate InReach(s: seq<real>, back: nat)
  {
    s == [] || 1 <= back <= |s|
  }

  /** What a position earns `back` periods before the end; a symbol without returns earns nothing. */
  function Contribution(weight: real, s: seq<real>, back: nat): real
    requires InReach(s, back)
  {
    weight * if s == [] then 0.0 else s[|s| - back]
  }

  /** The weighted sum over the positions, `back` periods before the end. */
  function WeightedReturn(positions: seq<Position>, series: Series, back: nat): real
    requires Reaches(positions, series, back)
  {
    if positions == [] then 0.0
    else
      var n := |positions| - 1;
      ReachesPrefix(positions, series, back, n);
      WeightedReturn(positions[..n], series, back) +
      Contribution(positions[n].weight, SeriesOf(series, positions[n].symbol), back)
  }

  lemma ReachesPrefix(positions: seq<Position>, series: Series, back: nat, n: nat)
    requires Reaches(positions, series, back) && n <= |positions|
    ensures Reaches(positions[..n], series, back)
  {
    forall i | 0 <= i < n ensures InReach(SeriesOf(series, positions[..n][i].symbol), back) {
      assert positions[..n][i] == positions[i];
    }
  }

  /** The weighted sum adds up over any two groups of positions, in whatever symbols. */
  lemma {:induction false} WeightedReturnSplits(ps: seq<Position>, qs: seq<Position>, series: Series, back: nat)
    requires Reaches(ps, series, back) && Reaches(qs, series, back)
    ensures Reaches(ps + qs, series, back)
    ensures WeightedReturn(ps + qs, series, back) ==
            WeightedReturn(ps, series, back) + WeightedReturn(qs, series, back)
  {
    if qs == [] {
      assert ps + qs == ps;
    } else {
      hide Contribution;
      var n := |qs| - 1;
      ReachesPrefix(qs, series, back, n);
      WeightedReturnSplits(ps, qs[..n], series, back);
      assert (ps + qs)[..|ps| + n] == ps + qs[..n] && (ps + qs)[|ps| + n] == qs[n];
      assert InReach(SeriesOf(series, qs[n].symbol), back);
    }
  }

  /** A single position earns its weight times the return of its own symbol, or nothing if that has no returns. */
  lemma SinglePosition(p: Position, series: Series, back: nat)
    requires Reaches([p], series, back)
    ensures InReach(SeriesOf(series, p.symbol), back)
    ensures WeightedReturn([p], series, back) ==
            if p.symbol in series && series[p.symbol] != []
            then p.weight * series[p.symbol][|series[p.symbol]| - back] else 0.0
  {
    assert InReach(SeriesOf(series, [p][0].symbol), back);
    assert [p][..0] == [];
  }

  /** The shorter of two lengths that count, zero meaning none. */
  function ShorterOf(m: nat, n: nat): nat
  {
    if m == 0 then n else if n == 0 then m else if m < n then m else n
  }

  lemma {:induction false} CommonLengthSplits(ps: seq<Position>, qs: seq<Position>, series: Series)
    ensures CommonLength(ps + qs, series) == ShorterOf(CommonLength(ps, series), CommonLength(qs, series))
  {
    if qs == [] {
      assert ps + qs == ps;
    } else {
      var n := |qs| - 1;
      CommonLengthSplits(ps, qs[..n], series);
      assert (ps + qs)[..|ps| + n] == ps + qs[..n] && (ps + qs)[|ps| + n] == qs[n];
    }
  }

  lemma {:induction false} CommonLengthFits(positions: seq<Position>, series: Series)
    ensures forall back :: 1 <= back <= CommonLength(positions, series) ==> Reaches(positions, series, back)
    ensures CommonLength(positions, series) > 0 ==>
      exists i :: 0 <= i < |positions| && |SeriesOf(series, positions[i].symbol)| == CommonLength(positions, series)
    ensures CommonLength(positions, series) == 0 ==>
      forall i :: 0 <= i < |positions| ==> SeriesOf(series, positions[i].symbol) == []
  {
    if positions != [] {
      var n := |positions| - 1;
      CommonLengthFits(positions[..n], series);
      assert forall i :: 0 <= i < n ==> positions[..n][i] == positions[i];
      forall back | 1 <= back <= CommonLength(positions, series) ensures Reaches(positions, series, back) {
        if CommonLength(positions[..n], series) > 0 {
          assert Reaches(positions[..n], series, back);
        }
        forall i | 0 <= i < n ensures InReach(SeriesOf(series, positions[i].symbol), back) {
          assert positions[..n][i] == positions[i];
        }
      }
    }
  }

  /** The aligned portfolio returns: the last `CommonLength` periods of every series, oldest first. */
  function PortfolioReturns(positions: seq<Position>, series: Series): (r: seq<real>)
    ensures |r| == CommonLength(positions, series)
  {
    CommonLengthFits(positions, series);
    var n := CommonLength(positions, series);
    seq(n, t requires 0 <= t < n => WeightedReturn(positions, series, n - t))
  }

  /** A return counted from the end of a series; a series without returns earns nothing. */
  function FromEnd(rs: seq<real>, back: nat): real
    requires rs != [] ==> 1 <= back <= |rs|
  {
    if rs == [] then 0.0 else rs[|rs| - back]
  }

  /** So do portfolio returns: those of two groups together are the sums, period by period from the end, over the
      shorter of their histories. */
  lemma PortfolioReturnsSplit(ps: seq<Position>, qs: seq<Position>, series: Series)
    ensures var rs, ss := PortfolioReturns(ps, series), PortfolioReturns(qs, series);
      var both := PortfolioReturns(ps + qs, series);
      && |both| == ShorterOf(|rs|, |ss|)
      && forall back :: 1 <= back <= |both| ==> both[|both| - back] == FromEnd(rs, back) + FromEnd(ss, back)
  {
    hide WeightedReturn, CommonLength, Reaches;
    var rs, ss := PortfolioReturns(ps, series), PortfolioReturns(qs, series);
    var both := PortfolioReturns(ps + qs, series);
    CommonLengthSplits(ps, qs, series);
    CommonLengthFits(ps + qs, series);
    forall back | 1 <= back <= |both| ensures both[|both| - back] == FromEnd(rs, back) + FromEnd(ss, back) {
      EarnedFromEnd(ps, series, back);
      EarnedFromEnd(qs, series, back);
      WeightedReturnSplits(ps, qs, series, back);
    }
  }

  /** What a group earns is its own portfolio return, or nothing if none of its symbols has returns. */
  lemma EarnedFromEnd(ps: seq<Position>, series: Series, back: nat)
    requires 1 <= back && (CommonLength(ps, series) > 0 ==> back <= CommonLength(ps, series))
    ensures Reaches(ps, series, back)
    ensures WeightedReturn(ps, series, back) == FromEnd(PortfolioReturns(ps, series), back)
  {
    hide WeightedReturn, CommonLength;
    CommonLengthFits(ps, series);
    if CommonLength(ps, series) == 0 {
      NothingEarned(ps, series, back);
    }
  }

  lemma {:induction false} NothingEarned(ps: seq<Position>, series: Series, back: nat)
    requires Reaches(ps, series, back) && forall i :: 0 <= i < |ps| ==> SeriesOf(series, ps[i].symbol) == []
    ensures WeightedReturn(ps, series, back) == 0.0
  {
    if ps != [] {
      var n := |ps| - 1;
      ReachesPrefix(ps, series, back, n);
      NothingEarned(ps[..n], series, back);
    }
  }

  /** For instance, half in a symbol that gains a tenth and half in one that loses a tenth earns nothing. */
  lemma TwoSymbolsExample()
    ensures var series: Series := map["BTC" := [0.1], "ETH" := [-0.1]];
      PortfolioReturns([Position("BTC", 0.5), Position("ETH", 0.5)], series) == [0.0]
  {
    var p, q := Position("BTC", 0.5), Position("ETH", 0.5);
    var series: Series := map["BTC" := [0.1], "ETH" := [-0.1]];
    assert p.symbol[0] != q.symbol[0];
    OnePositionReturns(p, series);
    OnePositionReturns(q, series);
    PortfolioReturnsSplit([p], [q], series);
    assert [p] + [q] == [p, q];
    var both := PortfolioReturns([p, q], series);
    assert series["BTC"] == [0.1] && series["ETH"] == [-0.1];
    var rs, ss := PortfolioReturns([p], series), PortfolioReturns([q], series);
    assert |both| == 1 && both[|both| - 1] == FromEnd(rs, 1) + FromEnd(ss, 1);
    assert rs[0] == 0.5 * 0.1 && ss[0] == 0.5 * -0.1;
  }

  lemma OnePositionReturns(p: Position, series: Series)
    requires p.symbol in series
    ensures var rs := PortfolioReturns([p], series);
      |rs| == |series[p.symbol]| && forall k :: 0 <= k < |rs| ==> rs[k] == p.weight * series[p.symbol][k]
  {
    hide WeightedReturn;
    var s := series[p.symbol];
    assert [p][..0] == [];
    CommonLengthFits([p], series);
    assert CommonLength([p], series) == |s|;
    forall k | 0 <= k < |s| ensures PortfolioReturns([p], series)[k] == p.weight * s[k] {
      SinglePosition(p, series, |s| - k);
    }
  }

  /** The inner alignment loop of `compute_risk`. */
  method SumPositions(positions: seq<Position>, series: Series, back: nat) returns (sum: real)
    requires Reaches(positions, series, back)
    ensures sum == WeightedReturn(positions, series, back)
  {
    hide Contribution;
    sum := 0.0;
    for i := 0 to |positions|
      invariant Reaches(positions[..i], series, back) && sum == WeightedReturn(positions[..i], series, back)
    {
      ReachesPrefix(positions, series, back, i + 1);
      assert positions[..i + 1][..i] == positions[..i];
      assert InReach(SeriesOf(series, positions[i].symbol), back);
      sum := sum + Contribution(positions[i].weight, SeriesOf(series, positions[i].symbol), back);
    }
    assert positions[..|positions|] == positions;
  }

  /** The minimum over the non-empty series. */
  method ShortestSeries(positions: seq<Position>, series: Series) returns (common: nat)
    ensures common == CommonLength(positions, series)
  {
    common := 0;
    for i := 0 to |positions|
      invariant common == CommonLength(positions[..i], series)
    {
      assert positions[..i + 1][..i] == positions[..i];
      var here := |SeriesOf(series, positions[i].symbol)|;
      if here != 0 && (common == 0 || here < common) {
        common := here;
      }
    }
    assert positions[..|positions|] == positions;
  }

  /** The alignment of `compute_risk`: index -common to -1 in every series. */
  method AlignedReturns(positions: seq<Position>, series: Series) returns (rs: seq<real>)
    ensures rs == PortfolioReturns(positions, series)
  {
    hide WeightedReturn;
    var common := ShortestSeries(positions, series);
    CommonLengthFits(positions, series);
    rs := [];
    for t := 0 to common
      invariant rs == PortfolioReturns(positions, series)[..t]
    {
      var sum := SumPositions(positions, series, common - t);
      rs := rs + [sum];
    }
  }
}
