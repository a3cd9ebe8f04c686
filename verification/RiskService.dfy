/** The risk peer: price histories per symbol, the portfolio, and the snapshots computed from them. */
module RiskService {
  import opened Base
  import opened RealMath
  import opened Schemas
  import opened RiskMath
  import opened RiskProofs

  datatype Portfolio = Portfolio(portfolioId: string, positions: seq<Position>)

  datatype RiskSnapshot = RiskSnapshot(
    snapshotId: string, portfolioId: string,
    volatility: real, valueAtRisk95: real, maxDrawdown: real, rollingReturn1d: real)

  type Histories = map<string, seq<MarketEvent>>

  /** What state.json holds. */
  datatype Saved = Saved(histories: Histories, portfolio: Option<Portfolio>, snapshots: seq<RiskSnapshot>)

  datatype Outcome = Computed(snapshot: RiskSnapshot) | PortfolioRequired | DivisionByZero

  function HistoryOf(histories: Histories, symbol: string): seq<MarketEvent>
  {
    if symbol in histories then histories[symbol] else []
  }

  function Record(histories: Histories, event: MarketEvent): Histories
  {
    histories[event.symbol := HistoryOf(histories, event.symbol) + [event]]
  }

  function RecordAll(histories: Histories, events: seq<MarketEvent>): Histories
  {
    if events == [] then histories
    else Record(RecordAll(histories, events[..|events| - 1]), events[|events| - 1])
  }

  /** The histories are the events as they came, sorted apart by symbol. */
  lemma {:induction false} HistoriesSplitBySymbol(events: seq<MarketEvent>, symbol: string)
    ensures HistoryOf(RecordAll(map[], events), symbol) == EventsOf(events, symbol)
  {
    if events != [] {
      HistoriesSplitBySymbol(events[..|events| - 1], symbol);
    }
  }

  function SeriesFor(histories: Histories): Series
  {
    map s | s in histories :: Returns(Prices(histories[s]))
  }

  function VolatilityOf(root: Root, rs: seq<real>): real
  {
    if |rs| > 1 then PStdev(root, rs) * root(252.0) else 0.0
  }

  function RollingOf(rs: seq<real>, window: nat): real
  {
    if rs == [] then 0.0 else Growth(Tail(rs, window)) - 1.0
  }

  /** The snapshot of a portfolio on the given histories, or the division by zero on the way to it. */
  function OutcomeOf(root: Root, id: string, portfolio: Portfolio, histories: Histories): Outcome
  {
    var rs := PortfolioReturns(portfolio.positions, SeriesFor(histories));
    match Drawdown(rs)
    case None => DivisionByZero
    case Some(d) => Computed(RiskSnapshot(
      id, portfolio.portfolioId, Round6(VolatilityOf(root, rs)), Round6(HistoricalVar(rs)), Round6(d),
      Round6(RollingOf(rs, 24))))
  }

  /** A figure to six decimals. */
  ghost predicate Near(rounded: real, exact: real)
  {
    Abs(rounded - exact) <= 0.0000005
  }

  /** The compounded return of the last day of hourly periods, or of all periods if there are fewer. */
  function DayReturn(rs: seq<real>): real
  {
    Growth(if |rs| > 24 then rs[|rs| - 24..] else rs) - 1.0
  }

  /** A snapshot carries its own portfolio's figures, each in its place and to six decimals. */
  lemma SnapshotFigures(root: Root, id: string, portfolio: Portfolio, histories: Histories)
    ensures var rs := PortfolioReturns(portfolio.positions, SeriesFor(histories));
      var outcome := OutcomeOf(root, id, portfolio, histories);
      && (outcome.Computed? <==> Drawdown(rs).Some?) && !outcome.PortfolioRequired?
      && (outcome.Computed? ==>
            var s := outcome.snapshot;
            && s.snapshotId == id && s.portfolioId == portfolio.portfolioId
            && Near(s.volatility, VolatilityOf(root, rs)) && Near(s.valueAtRisk95, HistoricalVar(rs))
            && Near(s.maxDrawdown, Drawdown(rs).value) && Near(s.rollingReturn1d, DayReturn(rs)))
  {
    hide Drawdown, HistoricalVar, VolatilityOf, PortfolioReturns, SeriesFor, Round6;
    NothingGrows();
  }

  lemma NothingGrows()
    ensures Growth([]) == 1.0
  {
  }

  /** One position in a symbol with positive prices: the portfolio earns its weight times each relative price change. */
  lemma OnePositionEarns(p: Position, histories: Histories)
    requires p.symbol in histories && Positive(Prices(histories[p.symbol]))
    ensures var ps := Prices(histories[p.symbol]); var rs := PortfolioReturns([p], SeriesFor(histories));
      && |rs| == (if ps == [] then 0 else |ps| - 1)
      && forall k :: 0 <= k < |rs| ==> rs[k] == p.weight * ((ps[k + 1] - ps[k]) / ps[k])
  {
    hide PortfolioReturns, Returns, Growth, Change;
    var ps := Prices(histories[p.symbol]);
    OnePositionReturns(p, SeriesFor(histories));
    if ps != [] {
      ReturnsTelescope(ps);
      forall k | 0 <= k < |ps| - 1 ensures Returns(ps)[k] == (ps[k + 1] - ps[k]) / ps[k] {
        ReturnAt(ps, k);
        ChangeMeans(ps[k], ps[k + 1]);
      }
    } else {
      NoReturns();
    }
  }

  lemma ChangeMeans(level: real, later: real)
    requires level != 0.0
    ensures Change(level, later) == (later - level) / level
  {
  }

  lemma NoReturns()
    ensures Returns([]) == []
  {
  }

  // ---------------------------------------------------------------- risk is well defined

  function TotalWeight(positions: seq<Position>): real
  {
    if positions == [] then 0.0 else TotalWeight(positions[..|positions| - 1]) + positions[|positions| - 1].weight
  }

  ghost predicate LongOnly(positions: seq<Position>)
  {
    forall i :: 0 <= i < |positions| ==> positions[i].weight >= 0.0
  }

  lemma LossBounded(weight: real, s: seq<real>, back: nat)
    requires InReach(s, back) && weight >= 0.0 && AboveTotalLoss(s)
    ensures Contribution(weight, s, back) >= -weight && (weight > 0.0 ==> Contribution(weight, s, back) > -weight)
  {
    var r := if s == [] then 0.0 else s[|s| - back];
    assert weight * (r + 1.0) >= 0.0;
    assert weight > 0.0 ==> weight * (r + 1.0) > 0.0;
    assert weight * (r + 1.0) == weight * r + weight;
  }

  lemma {:induction false} WeightedAboveLoss(positions: seq<Position>, series: Series, back: nat)
    requires Reaches(positions, series, back)
    requires LongOnly(positions) && forall s :: s in series ==> AboveTotalLoss(series[s])
    ensures TotalWeight(positions) >= 0.0
    ensures WeightedReturn(positions, series, back) >= -TotalWeight(positions)
    ensures TotalWeight(positions) > 0.0 ==> WeightedReturn(positions, series, back) > -TotalWeight(positions)
  {
    hide Contribution;
    if positions != [] {
      var n := |positions| - 1;
      var p := positions[n];
      ReachesPrefix(positions, series, back, n);
      WeightedAboveLoss(positions[..n], series, back);
      assert InReach(SeriesOf(series, p.symbol), back);
      LossBounded(p.weight, SeriesOf(series, p.symbol), back);
    }
  }

  /** Long positions worth at most the whole never lose it all at once. */
  lemma PortfolioAboveLoss(positions: seq<Position>, series: Series)
    requires forall s :: s in series ==> AboveTotalLoss(series[s])
    requires LongOnly(positions) && TotalWeight(positions) <= 1.0
    ensures AboveTotalLoss(PortfolioReturns(positions, series))
  {
    hide WeightedReturn;
    var rs := PortfolioReturns(positions, series);
    CommonLengthFits(positions, series);
    forall k | 0 <= k < |rs| ensures rs[k] > -1.0 {
      WeightedAboveLoss(positions, series, |rs| - k);
    }
  }

  lemma FiguresInRange(rs: seq<real>)
    requires AboveTotalLoss(rs)
    ensures Positive(Equity(rs)) && RollingOf(rs, 24) > -1.0
    ensures Drawdown(rs).Some? && -1.0 < Drawdown(rs).value <= 0.0
  {
    EquityPositive(rs);
    if rs != [] {
      hide Drawdown, Growth;
      DrawdownBounds(rs, 24);
      GrowthPositive(Tail(rs, 24));
    }
  }

  /** For positive prices and long positions worth at most the whole, every step is well defined: no portfolio
      return reaches -1, the equity curve stays positive, nothing is divided by zero, and the figures lie in
      their ranges. */
  lemma RiskIsWellDefined(root: Root, id: string, portfolio: Portfolio, histories: Histories)
    requires forall s :: s in histories ==> Positive(Prices(histories[s]))
    requires LongOnly(portfolio.positions) && TotalWeight(portfolio.positions) <= 1.0
    ensures var rs := PortfolioReturns(portfolio.positions, SeriesFor(histories));
      && AboveTotalLoss(rs) && Positive(Equity(rs)) && RollingOf(rs, 24) > -1.0
      && Drawdown(rs).Some? && -1.0 < Drawdown(rs).value <= 0.0
    ensures OutcomeOf(root, id, portfolio, histories).Computed?
  {
    hide Drawdown, AboveTotalLoss, PortfolioReturns, RollingOf, Round6, HistoricalVar, VolatilityOf;
    var series := SeriesFor(histories);
    forall s | s in series ensures AboveTotalLoss(series[s]) {
      ReturnsAboveLoss(Prices(histories[s]));
    }
    PortfolioAboveLoss(portfolio.positions, series);
    FiguresInRange(PortfolioReturns(portfolio.positions, series));
  }

  lemma ReturnsAboveLoss(ps: seq<real>)
    requires Positive(ps)
    ensures AboveTotalLoss(Returns(ps))
  {
    if ps != [] { ReturnsTelescope(ps); }
  }

  // ---------------------------------------------------------------- tail alignment

  /** `longer` has, for every symbol with returns, the same returns after some older ones. */
  ghost predicate OnlyOlder(series: Series, longer: Series)
  {
    forall symbol :: SameEnd(SeriesOf(series, symbol), SeriesOf(longer, symbol))
  }

  ghost predicate SameEnd(s: seq<real>, l: seq<real>)
  {
    |s| <= |l| && (s == [] ==> l == []) && l[|l| - |s|..] == s
  }

  lemma SameContribution(weight: real, s: seq<real>, l: seq<real>, back: nat)
    requires SameEnd(s, l) && InReach(s, back) && InReach(l, back)
    ensures Contribution(weight, s, back) == Contribution(weight, l, back)
  {
    assert s != [] ==> l[|l| - |s|..][|s| - back] == l[|l| - back];
  }

  lemma {:induction false} SameWeightedReturn(positions: seq<Position>, series: Series, longer: Series, back: nat)
    requires OnlyOlder(series, longer) && Reaches(positions, series, back) && Reaches(positions, longer, back)
    ensures WeightedReturn(positions, series, back) == WeightedReturn(positions, longer, back)
  {
    hide Contribution, SameEnd;
    if positions != [] {
      var n := |positions| - 1;
      var p := positions[n];
      ReachesPrefix(positions, series, back, n);
      ReachesPrefix(positions, longer, back, n);
      SameWeightedReturn(positions[..n], series, longer, back);
      assert InReach(SeriesOf(series, p.symbol), back) && InReach(SeriesOf(longer, p.symbol), back);
      SameContribution(p.weight, SeriesOf(series, p.symbol), SeriesOf(longer, p.symbol), back);
    }
  }

  /** Series are aligned at their ends: older returns in the longer histories do not touch the result. */
  lemma OlderHistoryIsIgnored(positions: seq<Position>, series: Series, longer: Series)
    requires OnlyOlder(series, longer) && CommonLength(positions, longer) == CommonLength(positions, series)
    ensures PortfolioReturns(positions, longer) == PortfolioReturns(positions, series)
  {
    hide WeightedReturn, OnlyOlder;
    CommonLengthFits(positions, series);
    CommonLengthFits(positions, longer);
    var n := CommonLength(positions, series);
    forall k | 0 <= k < n ensures PortfolioReturns(positions, longer)[k] == PortfolioReturns(positions, series)[k] {
      SameWeightedReturn(positions, series, longer, n - k);
    }
  }

  // ---------------------------------------------------------------- the service

  class RiskPeer {
    const root: Root
    const autoCompute: bool
    var histories: Histories
    var portfolio: Option<Portfolio>
    var snapshots: seq<RiskSnapshot>
    /** The snapshots reported to the ledger. */
    var reported: seq<RiskSnapshot>
    var file: Option<Saved>

    /** The file, once written, holds exactly the state in memory. */
    ghost predicate Valid()
      reads this
    {
      file.Some? ==> file.value == Saved(histories, portfolio, snapshots)
    }

    constructor (root: Root, autoCompute: bool, file: Option<Saved>)
      ensures Valid() && this.root == root && this.autoCompute == autoCompute && this.file == file && reported == []
      ensures file.None? ==> histories == map[] && portfolio == None && snapshots == []
    {
      this.root, this.autoCompute, this.file := root, autoCompute, file;
      match file {
        case None => histories, portfolio, snapshots := map[], None, [];
        case Some(s) => histories, portfolio, snapshots := s.histories, s.portfolio, s.snapshots;
      }
      reported := [];
    }

    method SaveState()
      modifies this`file
      ensures Valid() && file.Some?
    {
      file := Some(Saved(histories, portfolio, snapshots));
    }

    method SetPortfolio(p: Portfolio)
      requires Valid()
      modifies this
      ensures Valid() && file.Some? && portfolio == Some(p)
      ensures histories == old(histories) && snapshots == old(snapshots) && reported == old(reported)
    {
      portfolio := Some(p);
      SaveState();
    }

    /** A snapshot is stored, reported and saved, or nothing at all changes. */
    method ComputeRisk(requested: Option<Portfolio>, id: string) returns (r: Outcome)
      requires Valid()
      modifies this
      ensures Valid() && histories == old(histories) && portfolio == old(portfolio)
      ensures var effective := if requested.Some? then requested else portfolio;
        r == if effective.None? then PortfolioRequired else OutcomeOf(root, id, effective.value, histories)
      ensures r.Computed? ==>
        file.Some? && snapshots == old(snapshots) + [r.snapshot] && reported == old(reported) + [r.snapshot]
      ensures !r.Computed? ==> file == old(file) && snapshots == old(snapshots) && reported == old(reported)
    {
      var effective := if requested.Some? then requested else portfolio;
      if effective.None? {
        return PortfolioRequired;
      }
      var rs := AlignedReturns(effective.value.positions, SeriesFor(histories));
      var drawdown := MaxDrawdown(rs);
      if drawdown.None? {
        return DivisionByZero;
      }
      var rolling := RollingReturn(rs, 24);
      var snapshot := RiskSnapshot(
        id, effective.value.portfolioId, Round6(VolatilityOf(root, rs)), Round6(HistoricalVar(rs)),
        Round6(drawdown.value), Round6(rolling));
      snapshots := snapshots + [snapshot];
      reported := reported + [snapshot];
      SaveState();
      return Computed(snapshot);
    }

    /** The event is stored and saved whatever becomes of the snapshot that may follow. */
    method IngestEvent(event: MarketEvent, id: string) returns (r: Option<Outcome>)
      requires Valid()
      modifies this
      ensures Valid() && file.Some? && portfolio == old(portfolio)
      ensures histories == Record(old(histories), event)
      ensures r == if autoCompute && portfolio.Some?
                   then Some(OutcomeOf(root, id, portfolio.value, histories)) else None
      ensures snapshots == old(snapshots) + if r.Some? && r.value.Computed? then [r.value.snapshot] else []
      ensures reported == old(reported) + if r.Some? && r.value.Computed? then [r.value.snapshot] else []
    {
      histories := Record(histories, event);
      SaveState();
      r := None;
      if autoCompute && portfolio.Some? {
        var outcome := ComputeRisk(None, id);
        r := Some(outcome);
      }
    }
  }
}
