/** At-least-once delivery seen from the risk peer. */
module DeliveryProofs {
  import opened Routing
  import opened RiskMath
  import opened RiskProofs
  import opened PaddedReturns
  import opened RealMath
  import opened Schemas
  import opened RiskService
  import opened VarProofs
  import opened Ingestion

  /** How often each of a series of requests to the risk peer is processed, given the fate of its attempts. */
  function Arrivals(nets: seq<nat -> Attempt>): (copies: seq<nat>)
    ensures |copies| == |nets|
    ensures forall i :: 0 <= i < |nets| ==> copies[i] == Processed(nets[i], Made(nets[i], RETRIES))
  {
    seq(|nets|, i requires 0 <= i < |nets| => Processed(nets[i], Made(nets[i], RETRIES)))
  }

  /** Each entry repeated as often as it arrives. */
  function Repeated<T>(xs: seq<T>, copies: seq<nat>): seq<T>
    requires |xs| == |copies|
  {
    if xs == [] then []
    else Repeated(xs[..|xs| - 1], copies[..|xs| - 1]) + Copies(xs[|xs| - 1], copies[|xs| - 1])
  }

  function Places(n: nat): (s: seq<nat>)
    ensures |s| == n && forall i :: 0 <= i < n ==> s[i] == i
  {
    seq(n, i => i)
  }

  lemma RedeliversNew(ps: seq<real>, qs: seq<real>, at: seq<nat>, p: real)
    requires Redelivers(ps, qs, at)
    ensures Redelivers(ps + [p], qs + [p], at + [|ps|])
  {
  }

  lemma RedeliversAgain(ps: seq<real>, qs: seq<real>, at: seq<nat>)
    requires Redelivers(ps, qs, at)
    ensures ps != [] && Redelivers(ps, qs + [ps[|ps| - 1]], at + [|ps| - 1])
  {
  }

  /** One more price, delivered `c` times. */
  lemma {:induction false} RedeliversPush(ps: seq<real>, qs: seq<real>, at: seq<nat>, p: real, c: nat)
    requires Redelivers(ps, qs, at) && c >= 1
    ensures Redelivers(ps + [p], qs + Copies(p, c), at + Copies<nat>(|ps|, c))
    decreases c
  {
    hide Redelivers;
    if c == 1 {
      RedeliversNew(ps, qs, at, p);
      assert Copies(p, 1) == [p] && Copies<nat>(|ps|, 1) == [|ps|];
    } else {
      RedeliversPush(ps, qs, at, p, c - 1);
      RedeliversAgain(ps + [p], qs + Copies(p, c - 1), at + Copies<nat>(|ps|, c - 1));
      assert qs + Copies(p, c) == qs + Copies(p, c - 1) + [p];
      assert at + Copies<nat>(|ps|, c) == at + Copies<nat>(|ps|, c - 1) + [|ps|];
    }
  }

  lemma RedeliversFirst(p: real, c: nat)
    requires c >= 1
    ensures Redelivers([p], Copies(p, c), Copies<nat>(0, c))
  {
  }

  lemma RepeatedStep<T>(xs: seq<T>, copies: seq<nat>)
    requires |xs| == |copies| > 0
    ensures Repeated(xs, copies) ==
            Repeated(xs[..|xs| - 1], copies[..|xs| - 1]) + Copies(xs[|xs| - 1], copies[|xs| - 1])
  {
  }

  /** Repeating prices and repeating their places come to the same. */
  lemma {:induction false} RepeatedRedelivers(ps: seq<real>, copies: seq<nat>)
    requires |ps| == |copies| > 0 && forall i :: 0 <= i < |copies| ==> copies[i] >= 1
    ensures Redelivers(ps, Repeated(ps, copies), Repeated<nat>(Places(|ps|), copies))
    ensures |Repeated(ps, copies)| >= |ps| && Repeated(ps, copies)[0] == ps[0]
    ensures |Repeated(ps, copies)| >= copies[0]
    ensures |Repeated(ps, copies)| > 1 ==> Repeated<nat>(Places(|ps|), copies)[1] == if copies[0] == 1 then 1 else 0
  {
    hide Redelivers, Repeated;
    var n := |ps| - 1;
    RepeatedStep(ps, copies);
    RepeatedStep<nat>(Places(|ps|), copies);
    assert Places(|ps|)[..n] == Places(n);
    if n > 0 {
      RepeatedRedelivers(ps[..n], copies[..n]);
      RedeliversPush(ps[..n], Repeated(ps[..n], copies[..n]), Repeated<nat>(Places(n), copies[..n]), ps[n], copies[n]);
      RedeliversLengths(ps[..n], Repeated(ps[..n], copies[..n]), Repeated<nat>(Places(n), copies[..n]));
      assert ps == ps[..n] + [ps[n]];
    } else {
      assert ps == [ps[0]];
      RepeatedNothing(ps[..0], copies[..0]);
      RepeatedNothing<nat>(Places(0), copies[..0]);
      RedeliversFirst(ps[0], copies[0]);
      assert Repeated(ps, copies) == Copies(ps[0], copies[0]);
      assert Repeated<nat>(Places(|ps|), copies) == Copies<nat>(0, copies[0]);
    }
  }

  lemma RepeatedNothing<T>(xs: seq<T>, copies: seq<nat>)
    requires |xs| == |copies| == 0
    ensures Repeated(xs, copies) == []
  {
  }

  lemma RedeliversLengths(ps: seq<real>, qs: seq<real>, at: seq<nat>)
    requires Redelivers(ps, qs, at)
    ensures |at| == |qs| > 0
  {
  }

  /** If every price of a history reaches the risk peer at least once, in order, then lost answers and the retries
      they cause leave the drawdown as it was exactly when the first price was processed once or every fall
      from it is matched by one between later prices, ... */
  lemma RetriesAreHarmless(ps: seq<real>, nets: seq<nat -> Attempt>)
    requires Positive(ps) && |ps| == |nets| > 0
    requires forall i :: 0 <= i < |nets| ==> Arrivals(nets)[i] >= 1
    ensures Drawdown(Returns(Repeated(ps, Arrivals(nets)))) == Drawdown(Returns(ps)) <==>
            Arrivals(nets)[0] == 1 || FirstIsNoPeak(ps)
  {
    hide Drawdown, Returns, Redelivers, Repeated, FirstIsNoPeak;
    RepeatedRedelivers(ps, Arrivals(nets));
    RedeliversLengths(ps, Repeated(ps, Arrivals(nets)), Repeated<nat>(Places(|ps|), Arrivals(nets)));
    HarmlessIff(ps, Repeated(ps, Arrivals(nets)), Repeated<nat>(Places(|ps|), Arrivals(nets)));
  }

  /** ... and never change the whole-series return. */
  lemma RetriesKeepReturn(ps: seq<real>, nets: seq<nat -> Attempt>)
    requires Positive(ps) && |ps| == |nets| > 0
    requires forall i :: 0 <= i < |nets| ==> Arrivals(nets)[i] >= 1
    ensures Growth(Returns(Repeated(ps, Arrivals(nets)))) == Growth(Returns(ps))
  {
    hide Returns, Growth, Redelivers, Repeated;
    RepeatedRedelivers(ps, Arrivals(nets));
    DuplicatesKeepReturn(ps, Repeated(ps, Arrivals(nets)), Repeated<nat>(Places(|ps|), Arrivals(nets)));
  }

  // ---------------------------------------------------------------- the two peers together

  /** The histories at the risk peer after a run delivered once and in order agree with what the ingestion peer
      announced, symbol by symbol. */
  lemma RiskPeerAgrees(node: string, ids: seq<string>, raw: seq<MarketSensorMessage>, symbol: string)
    requires |ids| == |raw| && GridPrices(raw, symbol)
    ensures Agrees(HistoryOf(RecordAll(map[], NormalizeAll(node, ids, raw)), symbol))
  {
    hide Agrees, RecordAll, NormalizeAll, EventsOf;
    TwoServicesAgree(node, ids, raw, symbol);
    HistoriesSplitBySymbol(NormalizeAll(node, ids, raw), symbol);
  }

  // ---------------------------------------------------------------- the snapshot

  ghost predicate AllIn(positions: seq<Position>, symbol: string)
  {
    forall i :: 0 <= i < |positions| ==> positions[i].symbol == symbol
  }

  lemma {:induction false} OneSymbolSum(positions: seq<Position>, series: Series, symbol: string, back: nat)
    requires AllIn(positions, symbol) && 1 <= back <= |SeriesOf(series, symbol)|
    ensures Reaches(positions, series, back)
    ensures var s := SeriesOf(series, symbol);
      WeightedReturn(positions, series, back) == Times(TotalWeight(positions), s[|s| - back])
  {
    var s := SeriesOf(series, symbol);
    if positions == [] {
      assert Times(0.0, s[|s| - back]) == 0.0;
    } else {
      hide Times;
      var n := |positions| - 1;
      OneSymbolSum(positions[..n], series, symbol, back);
      TimesAddLeft(TotalWeight(positions[..n]), positions[n].weight, s[|s| - back]);
      ContributionIs(positions[n].weight, s, back);
    }
  }

  lemma TimesAddLeft(a: real, b: real, c: real)
    ensures Times(a + b, c) == Times(a, c) + Times(b, c)
  {
  }

  lemma ContributionIs(weight: real, s: seq<real>, back: nat)
    requires 1 <= back <= |s|
    ensures Contribution(weight, s, back) == Times(weight, s[|s| - back])
  {
  }

  lemma AffineIs(a: real, x: real)
    ensures Affine(a, x, 0.0) == Times(a, x)
  {
  }

  lemma {:induction false} OneSymbolLength(positions: seq<Position>, series: Series, symbol: string)
    requires AllIn(positions, symbol) && positions != []
    ensures CommonLength(positions, series) == |SeriesOf(series, symbol)|
  {
    var n := |positions| - 1;
    if n > 0 {
      OneSymbolLength(positions[..n], series, symbol);
    } else {
      assert positions[..0] == [];
    }
  }

  /** A portfolio wholly in one symbol has that symbol's returns, times the sum of its weights. */
  lemma OneSymbolReturns(positions: seq<Position>, series: Series, symbol: string)
    requires AllIn(positions, symbol) && positions != []
    ensures PortfolioReturns(positions, series) == Scaled(SeriesOf(series, symbol), TotalWeight(positions), 0.0)
  {
    hide CommonLength, WeightedReturn, Affine, Times, TotalWeight;
    var s, a := SeriesOf(series, symbol), TotalWeight(positions);
    OneSymbolLength(positions, series, symbol);
    CommonLengthFits(positions, series);
    forall k | 0 <= k < |s| ensures PortfolioReturns(positions, series)[k] == Scaled(s, a, 0.0)[k] {
      OneSymbolSum(positions, series, symbol, |s| - k);
      AffineIs(a, s[k]);
    }
  }

  /** What the risk peer holds for a symbol with retries at the wire, compared with a delivery of each event once. */
  ghost predicate Retried(once: Histories, retried: Histories, symbol: string, nets: seq<nat -> Attempt>)
  {
    && symbol in once && symbol in retried
    && var ps := Prices(once[symbol]);
      && Positive(ps) && |ps| == |nets| > 0
      && (forall i :: 0 <= i < |nets| ==> Arrivals(nets)[i] >= 1)
      && Prices(retried[symbol]) == Repeated(ps, Arrivals(nets))
  }

  /** Retries put zeros into the returns of any portfolio wholly in one symbol, whatever its positions and weights;
      none before the first return if the first price was processed once. */
  lemma RetriesPadReturns(
      positions: seq<Position>, symbol: string, once: Histories, retried: Histories, nets: seq<nat -> Attempt>)
      returns (at: seq<nat>)
    requires AllIn(positions, symbol) && Retried(once, retried, symbol, nets)
    ensures var rs := PortfolioReturns(positions, SeriesFor(once));
      var ss := PortfolioReturns(positions, SeriesFor(retried));
      && Padded(rs, ss, at)
      && (ss != [] && Arrivals(nets)[0] == 1 ==> at[1] == 1)
  {
    hide Repeated, Returns, Redelivers, Padded, TotalWeight;
    var ps := Prices(once[symbol]);
    if positions == [] {
      at := [0];
      NothingPadded();
    } else {
      at := Repeated<nat>(Places(|ps|), Arrivals(nets));
      RepeatedRedelivers(ps, Arrivals(nets));
      RedeliversLengths(ps, Repeated(ps, Arrivals(nets)), at);
      ReturnsPadded(ps, Repeated(ps, Arrivals(nets)), at);
      ScaledPadded(Returns(ps), Returns(Repeated(ps, Arrivals(nets))), at, TotalWeight(positions));
      OneSymbolReturns(positions, SeriesFor(once), symbol);
      OneSymbolReturns(positions, SeriesFor(retried), symbol);
      PaddedLengths(Returns(ps), Returns(Repeated(ps, Arrivals(nets))), at);
    }
  }

  lemma NothingPadded()
    ensures Padded([], [], [0])
  {
  }

  lemma PaddedLengths(rs: seq<real>, ss: seq<real>, at: seq<nat>)
    requires Padded(rs, ss, at)
    ensures |at| == |ss| + 1
  {
  }

  /** The weights of a portfolio sum to something between nothing and the whole. */
  ghost predicate Whole(positions: seq<Position>)
  {
    0.0 <= TotalWeight(positions) <= 1.0
  }

  lemma OneSymbolAboveLoss(positions: seq<Position>, symbol: string, histories: Histories)
    requires AllIn(positions, symbol) && Whole(positions)
    requires symbol in histories && Positive(Prices(histories[symbol]))
    ensures AboveTotalLoss(PortfolioReturns(positions, SeriesFor(histories)))
  {
    hide Returns, CommonLength, WeightedReturn;
    if positions == [] {
      EmptyPortfolio(SeriesFor(histories));
    } else {
      OneSymbolReturns(positions, SeriesFor(histories), symbol);
      ReturnsAboveLoss(Prices(histories[symbol]));
      ScaledAboveLoss(Returns(Prices(histories[symbol])), TotalWeight(positions));
    }
  }

  lemma EmptyPortfolio(series: Series)
    ensures PortfolioReturns([], series) == []
  {
  }

  /** Retries at the wire leave the drawdown in the snapshot as it was, if the first price was processed once: for any
      number of positions in one symbol and any weights that sum to between nothing and the whole. */
  lemma RetriesKeepSnapshotDrawdown(
      root: Root, id: string, portfolio: Portfolio, symbol: string, once: Histories, retried: Histories,
      nets: seq<nat -> Attempt>)
    requires AllIn(portfolio.positions, symbol) && Whole(portfolio.positions)
    requires Retried(once, retried, symbol, nets) && Arrivals(nets)[0] == 1
    ensures var a, b := OutcomeOf(root, id, portfolio, once), OutcomeOf(root, id, portfolio, retried);
      a.Computed? && b.Computed? && a.snapshot.maxDrawdown == b.snapshot.maxDrawdown
  {
    hide Drawdown, PortfolioReturns, Round6, HistoricalVar, VolatilityOf, RollingOf, Padded, AllIn, Whole;
    var rs := PortfolioReturns(portfolio.positions, SeriesFor(once));
    var ss := PortfolioReturns(portfolio.positions, SeriesFor(retried));
    var at := RetriesPadReturns(portfolio.positions, symbol, once, retried, nets);
    OneSymbolAboveLoss(portfolio.positions, symbol, once);
    PaddedDrawdown(rs, ss, at);
    FiguresInRange(rs);
  }

  /** They draw the value at risk towards zero, never past it: a loss can only look smaller. */
  lemma RetriesDampenVar(
      root: Root, id: string, portfolio: Portfolio, symbol: string, once: Histories, retried: Histories,
      nets: seq<nat -> Attempt>)
    requires AllIn(portfolio.positions, symbol) && Whole(portfolio.positions) && Retried(once, retried, symbol, nets)
    ensures var a, b := OutcomeOf(root, id, portfolio, once), OutcomeOf(root, id, portfolio, retried);
      && a.Computed? && b.Computed?
      && Min(0.0, a.snapshot.valueAtRisk95) <= b.snapshot.valueAtRisk95 <= Max(0.0, a.snapshot.valueAtRisk95)
  {
    hide Drawdown, PortfolioReturns, Round6, HistoricalVar, VolatilityOf, RollingOf, Padded, AllIn, Whole;
    var rs := PortfolioReturns(portfolio.positions, SeriesFor(once));
    var ss := PortfolioReturns(portfolio.positions, SeriesFor(retried));
    var at := RetriesPadReturns(portfolio.positions, symbol, once, retried, nets);
    OneSymbolAboveLoss(portfolio.positions, symbol, once);
    PaddedAboveLoss(rs, ss, at);
    FiguresInRange(rs);
    FiguresInRange(ss);
    PaddedVar(rs, ss, at);
    Round6Monotone(Min(0.0, HistoricalVar(rs)), HistoricalVar(ss));
    Round6Monotone(HistoricalVar(ss), Max(0.0, HistoricalVar(rs)));
    Round6Monotone(0.0, 0.0);
  }

  /** A return over the last `left` of some periods, `left` being at most `window` and at most all of them. */
  ghost predicate ShorterReturn(rs: seq<real>, window: nat, left: nat, r: real)
  {
    left <= window && left <= |rs| && r == Growth(rs[|rs| - left..]) - 1.0
  }

  /** And they make the 24-period return look back over fewer periods: over those that the last 24 arrivals span, which
      are all of them as long as there are no more than 24 arrivals. */
  lemma RetriesShortenRolling(
      positions: seq<Position>, symbol: string, once: Histories, retried: Histories, nets: seq<nat -> Attempt>)
      returns (left: nat)
    requires AllIn(positions, symbol) && Retried(once, retried, symbol, nets)
    ensures var rs := PortfolioReturns(positions, SeriesFor(once));
      var ss := PortfolioReturns(positions, SeriesFor(retried));
      ShorterReturn(rs, 24, left, RollingOf(ss, 24)) && (|ss| <= 24 ==> left == |rs|)
  {
    hide PortfolioReturns, AllIn, Retried, Padded, RollingOf, Growth, SeriesFor, CommonLength;
    var at := RetriesPadReturns(positions, symbol, once, retried, nets);
    left := RollingOfPadded(
      PortfolioReturns(positions, SeriesFor(once)), PortfolioReturns(positions, SeriesFor(retried)), at, 24);
  }
}
