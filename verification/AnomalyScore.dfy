/** How an event is scored against the recent history of its symbol. */
module AnomalyScore {
  import opened RealMath
  import opened Schemas

  datatype Features = Features(priceChange: real, volumeChange: real, price: real, volume: real)

  function WindowValue(window: map<string, real>, key: string): real
  {
    if key in window then window[key] else 0.0
  }

  function Extract(event: MarketEvent): Features
  {
    Features(WindowValue(event.window, "price_change_1m"), WindowValue(event.window, "volume_change_1m"),
             event.price, event.volume)
  }

  function PriceMoves(history: seq<Features>): (xs: seq<real>)
    ensures |xs| == |history|
  {
    seq(|history|, i requires 0 <= i < |history| => Abs(history[i].priceChange))
  }

  function VolumeMoves(history: seq<Features>): (xs: seq<real>)
    ensures |xs| == |history|
  {
    seq(|history|, i requires 0 <= i < |history| => Abs(history[i].volumeChange))
  }

  /** Mean plus two standard deviations. */
  function Baseline(root: Root, xs: seq<real>): real
    requires xs != []
  {
    Mean(xs) + if |xs| > 1 then 2.0 * PStdev(root, xs) else 0.0
  }

  function RuleScore(root: Root, f: Features, history: seq<Features>): real
  {
    var p, v := Abs(f.priceChange), Abs(f.volumeChange);
    if history == [] then Min(1.0, p * 8.0 + v * 3.0)
    else
      var priceScore := p / Max(Baseline(root, PriceMoves(history)), 0.01);
      var volumeScore := v / Max(Baseline(root, VolumeMoves(history)), 0.02);
      Min(1.0, 0.65 * priceScore + 0.35 * volumeScore)
  }

  /** The forest's raw score, if there is a forest and history enough, brought into [0, 1]. */
  function ModelScore(forest: bool, raw: real, history: seq<Features>): (s: real)
    ensures 0.0 <= s <= 1.0
    ensures !forest || |history| < 12 ==> s == 0.0
  {
    if !forest || |history| < 12 then 0.0 else Min(1.0, Max(0.0, (raw - 0.35) / 0.35))
  }

  datatype Severity = Low | Medium | High | Critical

  function SeverityOf(score: real): Severity
  {
    if score >= 0.95 then Critical else if score >= 0.9 then High else if score >= 0.85 then Medium else Low
  }

  // ---------------------------------------------------------------- the rule score

  lemma ScorePartBounded(x: real, b: real, floor: real)
    requires x >= 0.0 && b >= floor > 0.0
    ensures 0.0 <= x / b <= x / floor
  {
    QuotientMonotone(0.0, x, b);
    if x > 0.0 {
      LargerBaseSmallerRatio(x, floor, b);
    }
  }

  /** The rule score is a number in [0, 1] and at most 65 |price change| + 17.5 |volume change|. */
  lemma RuleScoreBounds(root: Root, f: Features, history: seq<Features>)
    ensures 0.0 <= RuleScore(root, f, history) <= 1.0
    ensures RuleScore(root, f, history) <= 65.0 * Abs(f.priceChange) + 17.5 * Abs(f.volumeChange)
  {
    if history != [] {
      hide Baseline;
      ScorePartBounded(Abs(f.priceChange), Max(Baseline(root, PriceMoves(history)), 0.01), 0.01);
      ScorePartBounded(Abs(f.volumeChange), Max(Baseline(root, VolumeMoves(history)), 0.02), 0.02);
    }
  }

  /** Against one history, a larger move never scores less. */
  lemma RuleScoreMonotone(root: Root, f: Features, g: Features, history: seq<Features>)
    requires Abs(f.priceChange) <= Abs(g.priceChange) && Abs(f.volumeChange) <= Abs(g.volumeChange)
    ensures RuleScore(root, f, history) <= RuleScore(root, g, history)
  {
    if history != [] {
      hide Baseline;
      QuotientMonotone(Abs(f.priceChange), Abs(g.priceChange), Max(Baseline(root, PriceMoves(history)), 0.01));
      QuotientMonotone(Abs(f.volumeChange), Abs(g.volumeChange), Max(Baseline(root, VolumeMoves(history)), 0.02));
    }
  }

  // ---------------------------------------------------------------- when the score reaches a threshold

  /** The absolute price changes and volume changes of a window. */
  ghost predicate MovesOf(history: seq<Features>, prices: seq<real>, volumes: seq<real>)
  {
    && |prices| == |volumes| == |history|
    && forall i :: 0 <= i < |history| ==>
      prices[i] == Abs(history[i].priceChange) && volumes[i] == Abs(history[i].volumeChange)
  }

  /** Mean plus two standard deviations, but no less than a floor. */
  function Level(root: Root, xs: seq<real>, floor: real): real
    requires xs != []
  {
    Max(floor, Mean(xs) + 2.0 * PStdev(root, xs))
  }

  lemma BaselineIsLevel(root: Root, xs: seq<real>, floor: real)
    requires IsRoot(root) && xs != []
    ensures Max(Baseline(root, xs), floor) == Level(root, xs, floor)
  {
    if |xs| == 1 {
      hide Mean, Spread, IsRoot;
      assert xs == [xs[0]];
      SingleMean(xs[0]);
      SingleSpread(xs[0]);
      RootOfZero(root);
    }
  }

  lemma SingleMean(x: real)
    ensures Mean([x]) == x
  {
    assert [x][..0] == [];
    assert Sum([x]) == x;
  }

  lemma RootOfZero(root: Root)
    requires IsRoot(root)
    ensures root(0.0) == 0.0
  {
    if root(0.0) > 0.0 { PositiveTimes(root(0.0), root(0.0)); }
  }

  lemma SingleSpread(x: real)
    ensures Spread([x], x) == 0.0
  {
    assert [x][..0] == [];
  }

  lemma MovesAre(history: seq<Features>, prices: seq<real>, volumes: seq<real>)
    requires MovesOf(history, prices, volumes)
    ensures PriceMoves(history) == prices && VolumeMoves(history) == volumes
  {
  }

  /** Two weighted quotients against a threshold, multiplied out. */
  lemma WeightedReaches(p: real, a: real, v: real, b: real, t: real)
    requires a > 0.0 && b > 0.0
    ensures 0.65 * (p / a) + 0.35 * (v / b) >= t <==> 0.65 * p * b + 0.35 * v * a >= t * a * b
  {
    var s, q, r := 0.65 * (p / a) + 0.35 * (v / b), p / a, v / b;
    assert q * a == p && r * b == v;
    assert s * (a * b) == 0.65 * ((q * a) * b) + 0.35 * ((r * b) * a);
    PositiveTimes(a, b);
    var d := 0.65 * p * b + 0.35 * v * a - t * a * b;
    assert (s - t) * (a * b) == d;
    if d >= 0.0 {
      SignOfFactor(s - t, a * b);
    }
    if s >= t {
      assert (s - t) * (a * b) >= 0.0;
    }
  }

  /** The rule score reaches a threshold exactly when the two moves, each measured against the level of its own kind in
      the window, outweigh it. */
  lemma RuleReaches(root: Root, f: Features, history: seq<Features>, prices: seq<real>, volumes: seq<real>, t: real)
    requires IsRoot(root) && history != [] && MovesOf(history, prices, volumes) && t <= 1.0
    ensures var a, b := Level(root, prices, 0.01), Level(root, volumes, 0.02);
      RuleScore(root, f, history) >= t <==>
      0.65 * Abs(f.priceChange) * b + 0.35 * Abs(f.volumeChange) * a >= t * a * b
  {
    hide Baseline, Level, IsRoot;
    MovesAre(history, prices, volumes);
    BaselineIsLevel(root, prices, 0.01);
    BaselineIsLevel(root, volumes, 0.02);
    WeightedReaches(Abs(f.priceChange), Level(root, prices, 0.01), Abs(f.volumeChange), Level(root, volumes, 0.02), t);
  }

  /** A move of the price alone, or of the volume alone. */
  lemma OneMoveReaches(root: Root, f: Features, history: seq<Features>, prices: seq<real>, volumes: seq<real>, t: real)
    requires IsRoot(root) && history != [] && MovesOf(history, prices, volumes) && t <= 1.0
    ensures f.volumeChange == 0.0 ==>
      (RuleScore(root, f, history) >= t <==> 0.65 * Abs(f.priceChange) >= t * Level(root, prices, 0.01))
    ensures f.priceChange == 0.0 ==>
      (RuleScore(root, f, history) >= t <==> 0.35 * Abs(f.volumeChange) >= t * Level(root, volumes, 0.02))
  {
    hide Baseline, Level, IsRoot;
    var a, b := Level(root, prices, 0.01), Level(root, volumes, 0.02);
    MovesAre(history, prices, volumes);
    BaselineIsLevel(root, prices, 0.01);
    BaselineIsLevel(root, volumes, 0.02);
    ScaledQuotient(0.65, Abs(f.priceChange), a, t);
    ScaledQuotient(0.35, Abs(f.volumeChange), b, t);
  }

  lemma ScaledQuotient(w: real, x: real, b: real, t: real)
    requires b > 0.0
    ensures w * (x / b) >= t <==> w * x >= t * b
    ensures 0.0 / b == 0.0
  {
    var q := x / b;
    assert q * b == x;
    QuotientIs(w * x, b, w * q);
    QuotientReaches(w * x, b, t);
  }

  /** The size of a change that an event announces; none if it says nothing. */
  function Announced(window: map<string, real>, key: string): real
  {
    if key in window then Abs(window[key]) else 0.0
  }

  /** The two announced changes, against the levels in the history of the symbol, outweigh a threshold. */
  ghost predicate MovesReach(root: Root, window: map<string, real>, history: seq<Features>, t: real)
  {
    var p, v := Announced(window, "price_change_1m"), Announced(window, "volume_change_1m");
    if history == [] then 8.0 * p + 3.0 * v >= t
    else forall prices, volumes :: MovesOf(history, prices, volumes) ==>
      var a, b := Level(root, prices, 0.01), Level(root, volumes, 0.02);
      0.65 * p * b + 0.35 * v * a >= t * a * b
  }

  lemma EventReaches(root: Root, event: MarketEvent, history: seq<Features>, t: real)
    requires IsRoot(root) && t <= 1.0
    ensures RuleScore(root, Extract(event), history) >= t <==> MovesReach(root, event.window, history, t)
  {
    hide IsRoot, Level, RuleScore;
    var f := Extract(event);
    assert Abs(0.0) == 0.0;
    if history == [] {
      FirstEventReaches(root, f, t);
    } else {
      forall prices, volumes | MovesOf(history, prices, volumes)
        ensures prices == PriceMoves(history) && volumes == VolumeMoves(history)
      {
        MovesAre(history, prices, volumes);
      }
      MovesExist(history);
      RuleReaches(root, f, history, PriceMoves(history), VolumeMoves(history), t);
    }
  }

  lemma MovesExist(history: seq<Features>)
    ensures MovesOf(history, PriceMoves(history), VolumeMoves(history))
  {
  }

  /** Without a history the moves are weighed as they are. */
  lemma FirstEventReaches(root: Root, f: Features, t: real)
    requires t <= 1.0
    ensures RuleScore(root, f, []) >= t <==> 8.0 * Abs(f.priceChange) + 3.0 * Abs(f.volumeChange) >= t
  {
  }

  /** The forest reaches a threshold exactly with history enough and a raw score that far above 0.35. */
  lemma ModelReaches(forest: bool, raw: real, history: seq<Features>, t: real)
    requires 0.0 < t <= 1.0
    ensures ModelScore(forest, raw, history) >= t <==> forest && |history| >= 12 && raw >= 0.35 + 0.35 * t
  {
  }

  /** How alerts are graded. */
  lemma SeverityMeans(score: real)
    ensures SeverityOf(score) == Critical <==> score >= 0.95
    ensures SeverityOf(score) == High <==> 0.9 <= score < 0.95
    ensures SeverityOf(score) == Medium <==> 0.85 <= score < 0.9
    ensures SeverityOf(score) == Low <==> score < 0.85
  {
  }

  // ---------------------------------------------------------------- what the baseline means

  /** How many entries exceed a threshold. */
  function CountOver(xs: seq<real>, t: real): nat
  {
    if xs == [] then 0
    else CountOver(xs[..|xs| - 1], t) + if xs[|xs| - 1] > t then 1 else 0
  }

  /** The sum of distances from a centre, with their signs. */
  function Skew(xs: seq<real>, centre: real): real
  {
    if xs == [] then 0.0 else Skew(xs[..|xs| - 1], centre) + (xs[|xs| - 1] - centre)
  }

  /** Moving the centre of the spread. */
  lemma {:induction false} SpreadShift(xs: seq<real>, c: real, d: real)
    ensures Spread(xs, c) == Spread(xs, d) + 2.0 * Times(d - c, Skew(xs, d)) + Times(|xs| as real, Sq(d - c))
  {
    if xs == [] {
    } else {
      hide Times, Sq;
      var n := |xs| - 1;
      SpreadShift(xs[..n], c, d);
      SqShift(xs[n], c, d);
      TimesAdd(d - c, Skew(xs[..n], d), xs[n] - d);
      TimesNext(n, Sq(d - c));
    }
  }

  /** Entries beyond a threshold above the centre weigh at least its squared distance each. */
  lemma {:induction false} SpreadAtLeast(xs: seq<real>, c: real, t: real)
    requires t >= c
    ensures Spread(xs, c) >= Times(CountOver(xs, t) as real, Sq(t - c))
    ensures CountOver(xs, t) > 0 ==> Spread(xs, c) > 0.0
  {
    if xs == [] {
    } else {
      hide Times, Sq;
      var n := |xs| - 1;
      SpreadAtLeast(xs[..n], c, t);
      if xs[n] > t {
        SqGrows(t - c, xs[n] - c);
        SqPositive(xs[n] - c);
        TimesNext(CountOver(xs[..n], t), Sq(t - c));
      }
    }
  }

  lemma {:induction false} SkewIsSum(xs: seq<real>, d: real)
    ensures Skew(xs, d) == Sum(xs) - Times(|xs| as real, d)
  {
    if xs == [] {
    } else {
      hide Times;
      SkewIsSum(xs[..|xs| - 1], d);
      TimesNext(|xs| - 1, d);
    }
  }

  lemma MeanBalances(xs: seq<real>)
    requires xs != []
    ensures Skew(xs, Mean(xs)) == 0.0
    ensures Spread(xs, Mean(xs)) == Times(|xs| as real, Variance(xs))
  {
    hide Times, Sum, Spread, Skew;
    TimesQuotient(|xs| as real, Sum(xs));
    TimesQuotient(|xs| as real, Spread(xs, Mean(xs)));
    SkewIsSum(xs, Mean(xs));
  }

  /** Spread around a point half a deviation below the mean. */
  lemma SpreadBelowMean(xs: seq<real>, sd: real)
    requires xs != [] && Sq(sd) == Variance(xs)
    ensures Spread(xs, Mean(xs) - sd / 2.0) == 1.25 * Times(|xs| as real, Sq(sd))
  {
    hide Spread, Skew, Mean, Variance;
    MeanBalances(xs);
    SpreadShift(xs, Mean(xs) - sd / 2.0, Mean(xs));
    assert Sq(sd / 2.0) == Sq(sd) / 4.0;
    QuarterOf(|xs| as real, Sq(sd));
  }

  lemma QuarterOf(n: real, q: real)
    ensures Times(n, q / 4.0) == Times(n, q) / 4.0
  {
  }

  lemma FifthAtMost(count: real, n: real, q: real)
    requires q > 0.0 && Times(count, 6.25 * q) <= 1.25 * Times(n, q)
    ensures 5.0 * count <= n
  {
    assert count * (6.25 * q) == 6.25 * (count * q);
    assert (n - 5.0 * count) * q == n * q - 5.0 * (count * q);
    SignOfFactor(n - 5.0 * count, q);
  }

  /** What the baseline means: at most one fifth of the window's own entries exceed mean plus two standard
      deviations, for every window (the one-sided form of Chebyshev's inequality). */
  lemma FewExceedBaseline(root: Root, xs: seq<real>)
    requires IsRoot(root) && xs != []
    ensures 5 * CountOver(xs, Baseline(root, xs)) <= |xs|
  {
    if |xs| == 1 {
      assert xs[..0] == [];
      assert Sum(xs) == xs[0] && Mean(xs) == xs[0];
    } else {
      FewExceedTwoDeviations(xs, root(Variance(xs)));
    }
  }

  lemma FewExceedTwoDeviations(xs: seq<real>, sd: real)
    requires xs != [] && sd >= 0.0 && Sq(sd) == Variance(xs)
    ensures 5 * CountOver(xs, Mean(xs) + 2.0 * sd) <= |xs|
  {
    hide Spread, Skew, Mean, Variance, CountOver;
    var m := Mean(xs);
    if sd == 0.0 {
      MeanBalances(xs);
      assert Spread(xs, m) == 0.0;
      SpreadAtLeast(xs, m, m + 2.0 * sd);
    } else {
      SpreadBelowMean(xs, sd);
      SpreadAtLeast(xs, m - sd / 2.0, m + 2.0 * sd);
      assert m + 2.0 * sd - (m - sd / 2.0) == 2.5 * sd;
      SqPositive(sd);
      assert Sq(2.5 * sd) == 6.25 * Sq(sd);
      FifthAtMost(CountOver(xs, m + 2.0 * sd) as real, |xs| as real, Sq(sd));
    }
  }
}
