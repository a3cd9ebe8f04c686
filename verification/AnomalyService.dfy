/** The anomaly peer: a sliding window of features per symbol, the alerts, and what of both survives a restart. */
module AnomalyService {
  import opened Base
  import opened RealMath
  import opened Schemas
  import opened AnomalyScore

  datatype AlertStatus = PendingReview | Confirmed | FalsePositive | Dismissed

  datatype Alert = Alert(
    alertId: string, eventId: string, symbol: string, severity: Severity, score: real, status: AlertStatus)

  type Windows = map<string, seq<Features>>

  /** The stored document. */
  datatype Saved = Saved(alerts: map<string, Alert>, windows: Windows)

  /** Settings of a deployment; by default the threshold is 0.82 and the window 60. */
  datatype Config = Config(root: Root, threshold: real, window: nat, forest: bool)

  datatype State = State(windows: Windows, alerts: map<string, Alert>, file: Option<Saved>)

  datatype Report = Created(alert: Alert) | Reviewed(alertId: string, verdict: AlertStatus)

  /** What can happen to the peer. `raw` is the forest's score, `alertId` the id drawn if an alert results. */
  datatype Op = Analyze(event: MarketEvent, alertId: string, raw: real)
              | Review(reviewed: string, verdict: AlertStatus)
              | Restart

  function LastN<T>(s: seq<T>, n: nat): seq<T>
  {
    if |s| <= n then s else s[|s| - n..]
  }

  function WindowOf(windows: Windows, symbol: string): seq<Features>
  {
    if symbol in windows then windows[symbol] else []
  }

  function Score(cfg: Config, windows: Windows, event: MarketEvent, raw: real): real
  {
    var f, h := Extract(event), WindowOf(windows, event.symbol);
    Max(RuleScore(cfg.root, f, h), ModelScore(cfg.forest, raw, h))
  }

  /** A deque with a maximum length drops from the front what no longer fits. */
  function Observe(cfg: Config, windows: Windows, event: MarketEvent): Windows
  {
    windows[event.symbol := LastN(WindowOf(windows, event.symbol) + [Extract(event)], cfg.window)]
  }

  function NewAlert(event: MarketEvent, alertId: string, score: real): Alert
  {
    Alert(alertId, event.eventId, event.symbol, SeverityOf(score), Round4(score), PendingReview)
  }

  function Load(cfg: Config, file: Option<Saved>): State
  {
    match file
    case None => State(map[], map[], None)
    case Some(saved) =>
      State(map s | s in saved.windows :: LastN(saved.windows[s], cfg.window), saved.alerts, file)
  }

  function Stored(windows: Windows, alerts: map<string, Alert>): State
  {
    State(windows, alerts, Some(Saved(alerts, windows)))
  }

  function Step(cfg: Config, s: State, op: Op): State
  {
    match op
    case Analyze(event, alertId, raw) =>
      var score := Score(cfg, s.windows, event, raw);
      var windows := Observe(cfg, s.windows, event);
      if score < cfg.threshold then s.(windows := windows)
      else Stored(windows, s.alerts[alertId := NewAlert(event, alertId, score)])
    case Review(id, verdict) =>
      if id in s.alerts then Stored(s.windows, s.alerts[id := s.alerts[id].(status := verdict)]) else s
    case Restart => Load(cfg, s.file)
  }

  function Run(cfg: Config, s: State, ops: seq<Op>): State
    decreases |ops|
  {
    if ops == [] then s else Run(cfg, Step(cfg, s, ops[0]), ops[1..])
  }

  // ---------------------------------------------------------------- the windows over whole runs

  /** The plain account of a run: the events that count now, and those that counted at the last save. */
  datatype Account = Account(seen: seq<MarketEvent>, saved: seq<MarketEvent>)

  /** Only an alert or a review saves; a restart forgets what came after. */
  function Keep(cfg: Config, s: State, a: Account, op: Op): Account
  {
    match op
    case Analyze(event, _, raw) =>
      var seen := a.seen + [event];
      Account(seen, if Score(cfg, s.windows, event, raw) < cfg.threshold then a.saved else seen)
    case Review(id, _) => Account(a.seen, if id in s.alerts then a.seen else a.saved)
    case Restart => Account(a.saved, a.saved)
  }

  function KeepAll(cfg: Config, s: State, a: Account, ops: seq<Op>): Account
    decreases |ops|
  {
    if ops == [] then a else KeepAll(cfg, Step(cfg, s, ops[0]), Keep(cfg, s, a, ops[0]), ops[1..])
  }

  function FeaturesOf(events: seq<MarketEvent>): (fs: seq<Features>)
    ensures |fs| == |events|
  {
    seq(|events|, i requires 0 <= i < |events| => Extract(events[i]))
  }

  /** The last features of a symbol among some events. */
  function Recent(cfg: Config, events: seq<MarketEvent>, symbol: string): seq<Features>
  {
    LastN(FeaturesOf(EventsOf(events, symbol)), cfg.window)
  }

  ghost predicate Reflects(cfg: Config, windows: Windows, events: seq<MarketEvent>)
  {
    forall symbol :: WindowOf(windows, symbol) == Recent(cfg, events, symbol)
  }

  /** Memory and file say what the account says; the stored alerts are always the alerts in memory. */
  ghost predicate Faithful(cfg: Config, s: State, a: Account)
  {
    && Reflects(cfg, s.windows, a.seen)
    && (s.file.None? ==> s.alerts == map[] && a.saved == [])
    && (s.file.Some? ==> s.file.value.alerts == s.alerts && Reflects(cfg, s.file.value.windows, a.saved))
  }

  lemma LastNPush<T>(s: seq<T>, x: T, n: nat)
    ensures LastN(LastN(s, n) + [x], n) == LastN(s + [x], n)
  {
  }

  lemma RecentPush(cfg: Config, events: seq<MarketEvent>, event: MarketEvent, symbol: string)
    ensures Recent(cfg, events + [event], symbol) ==
            if event.symbol == symbol then LastN(Recent(cfg, events, symbol) + [Extract(event)], cfg.window)
            else Recent(cfg, events, symbol)
  {
    hide Extract, LastN, EventsOf;
    EventsOfPush(events, event, symbol);
    var mine := EventsOf(events, symbol);
    assert FeaturesOf(mine + [event]) == FeaturesOf(mine) + [Extract(event)];
    LastNPush(FeaturesOf(mine), Extract(event), cfg.window);
  }

  lemma ObserveReflects(cfg: Config, windows: Windows, events: seq<MarketEvent>, event: MarketEvent)
    requires Reflects(cfg, windows, events)
    ensures Reflects(cfg, Observe(cfg, windows, event), events + [event])
  {
    hide Recent, Extract, LastN;
    forall symbol ensures WindowOf(Observe(cfg, windows, event), symbol) == Recent(cfg, events + [event], symbol) {
      assert WindowOf(windows, symbol) == Recent(cfg, events, symbol);
      RecentPush(cfg, events, event, symbol);
    }
  }

  lemma LoadReflects(cfg: Config, saved: Saved, events: seq<MarketEvent>)
    requires Reflects(cfg, saved.windows, events)
    ensures Reflects(cfg, Load(cfg, Some(saved)).windows, events)
  {
    forall symbol ensures WindowOf(Load(cfg, Some(saved)).windows, symbol) == Recent(cfg, events, symbol) {
      assert WindowOf(saved.windows, symbol) == Recent(cfg, events, symbol);
    }
  }

  lemma NothingReflects(cfg: Config)
    ensures Reflects(cfg, map[], [])
  {
  }

  lemma StepFaithful(cfg: Config, s: State, a: Account, op: Op)
    requires Faithful(cfg, s, a)
    ensures Faithful(cfg, Step(cfg, s, op), Keep(cfg, s, a, op))
  {
    hide Reflects, Score;
    match op
    case Analyze(event, _, _) => ObserveReflects(cfg, s.windows, a.seen, event);
    case Review(_, _) =>
    case Restart =>
      match s.file
      case None => NothingReflects(cfg);
      case Some(saved) => LoadReflects(cfg, saved, a.saved);
  }

  /** Over any run of events, reviews and restarts, each symbol's window is exactly the last features of that
      symbol among the events that count; the file lags behind to the last alert or review, but its alerts never do. */
  lemma {:induction false} RunFaithful(cfg: Config, s: State, a: Account, ops: seq<Op>)
    requires Faithful(cfg, s, a)
    ensures Faithful(cfg, Run(cfg, s, ops), KeepAll(cfg, s, a, ops))
    decreases |ops|
  {
    if ops != [] {
      StepFaithful(cfg, s, a, ops[0]);
      RunFaithful(cfg, Step(cfg, s, ops[0]), Keep(cfg, s, a, ops[0]), ops[1..]);
    }
  }

  function Analyzed(ops: seq<Op>): seq<MarketEvent>
  {
    if ops == [] then [] else (if ops[0].Analyze? then [ops[0].event] else []) + Analyzed(ops[1..])
  }

  lemma KeepSeen(cfg: Config, s: State, a: Account, op: Op)
    requires !op.Restart?
    ensures Keep(cfg, s, a, op).seen == a.seen + if op.Analyze? then [op.event] else []
  {
    hide Score;
  }

  lemma {:induction false} SeenWithoutRestart(cfg: Config, s: State, a: Account, ops: seq<Op>)
    requires forall i :: 0 <= i < |ops| ==> !ops[i].Restart?
    ensures KeepAll(cfg, s, a, ops).seen == a.seen + Analyzed(ops)
    decreases |ops|
  {
    if ops == [] {
      assert a.seen + [] == a.seen;
    } else {
      hide Keep, Step;
      var x := if ops[0].Analyze? then [ops[0].event] else [];
      KeepSeen(cfg, s, a, ops[0]);
      SeenWithoutRestart(cfg, Step(cfg, s, ops[0]), Keep(cfg, s, a, ops[0]), ops[1..]);
      assert (a.seen + x) + Analyzed(ops[1..]) == a.seen + (x + Analyzed(ops[1..]));
    }
  }

  /** From an empty start and without restarts: the last `window` feature vectors of the symbol, in order. */
  lemma WindowsAreTheLastFeatures(cfg: Config, ops: seq<Op>, symbol: string)
    requires forall i :: 0 <= i < |ops| ==> !ops[i].Restart?
    ensures WindowOf(Run(cfg, Load(cfg, None), ops).windows, symbol) == Recent(cfg, Analyzed(ops), symbol)
  {
    hide Run, KeepAll, Analyzed, Recent;
    NothingReflects(cfg);
    RunFaithful(cfg, Load(cfg, None), Account([], []), ops);
    SeenWithoutRestart(cfg, Load(cfg, None), Account([], []), ops);
    assert [] + Analyzed(ops) == Analyzed(ops);
  }

  /** A restart at any point keeps every alert as it was and turns the windows back to the last save. */
  lemma RestartKeepsAlerts(cfg: Config, ops: seq<Op>, symbol: string)
    ensures var s := Run(cfg, Load(cfg, None), ops); var r := Step(cfg, s, Restart);
      && r.alerts == s.alerts && r.file == s.file
      && WindowOf(r.windows, symbol) == Recent(cfg, KeepAll(cfg, Load(cfg, None), Account([], []), ops).saved, symbol)
  {
    hide Run, KeepAll, Recent;
    NothingReflects(cfg);
    var s, a := Run(cfg, Load(cfg, None), ops), KeepAll(cfg, Load(cfg, None), Account([], []), ops);
    RunFaithful(cfg, Load(cfg, None), Account([], []), ops);
    StepFaithful(cfg, s, a, Restart);
  }

  /** The window of some events: no more than its size, and the figures of the latest ones, in order. */
  ghost predicate Holds(w: seq<Features>, events: seq<MarketEvent>, size: nat)
  {
    && |w| == (if |events| <= size then |events| else size)
    && forall i :: 0 <= i < |w| ==> FiguresOf(w[i], events[|events| - |w| + i])
  }

  lemma LastFeaturesHold(events: seq<MarketEvent>, size: nat)
    ensures Holds(LastN(FeaturesOf(events), size), events, size)
  {
    hide Extract, FiguresOf;
    forall i | 0 <= i < |events| ensures FiguresOf(FeaturesOf(events)[i], events[i]) {
      ExtractMeans(events[i]);
    }
  }

  /** What a window holds, spelled out. */
  lemma WindowHolds(cfg: Config, ops: seq<Op>, symbol: string)
    requires forall i :: 0 <= i < |ops| ==> !ops[i].Restart?
    ensures Holds(WindowOf(Run(cfg, Load(cfg, None), ops).windows, symbol), EventsOf(Analyzed(ops), symbol), cfg.window)
  {
    hide Run, Analyzed, EventsOf, Holds, LastN, FeaturesOf, WindowOf;
    WindowsAreTheLastFeatures(cfg, ops, symbol);
    LastFeaturesHold(EventsOf(Analyzed(ops), symbol), cfg.window);
  }

  ghost predicate FiguresOf(f: Features, event: MarketEvent)
  {
    && f.priceChange == (if "price_change_1m" in event.window then event.window["price_change_1m"] else 0.0)
    && f.volumeChange == (if "volume_change_1m" in event.window then event.window["volume_change_1m"] else 0.0)
    && f.price == event.price && f.volume == event.volume
  }

  lemma ExtractMeans(event: MarketEvent)
    ensures FiguresOf(Extract(event), event)
  {
  }

  // ---------------------------------------------------------------- alerts

  /** When an event must raise an alert, and when it cannot: its announced changes outweigh the threshold, or the forest
      finds it odd enough. */
  ghost predicate Alarming(cfg: Config, event: MarketEvent, window: seq<Features>, raw: real)
  {
    || MovesReach(cfg.root, event.window, window, cfg.threshold)
    || (cfg.forest && |window| >= 12 && raw >= 0.35 + 0.35 * cfg.threshold)
  }

  lemma AlarmingIff(cfg: Config, windows: Windows, event: MarketEvent, raw: real)
    requires IsRoot(cfg.root) && 0.0 < cfg.threshold <= 1.0
    ensures Score(cfg, windows, event, raw) >= cfg.threshold <==>
            Alarming(cfg, event, WindowOf(windows, event.symbol), raw)
  {
    hide IsRoot, MovesReach, RuleScore, ModelScore, Extract;
    var h := WindowOf(windows, event.symbol);
    EventReaches(cfg.root, event, h, cfg.threshold);
    ModelReaches(cfg.forest, raw, h, cfg.threshold);
  }

  /** An alert a score could have raised: at or above the threshold, at most 1, and graded by that score. */
  ghost predicate Raised(cfg: Config, a: Alert)
  {
    exists score :: RaisedBy(cfg, a, score)
  }

  ghost predicate RaisedBy(cfg: Config, a: Alert, score: real)
  {
    && cfg.threshold <= score <= 1.0 && a.score == Round4(score)
    && (a.severity == Critical <==> score >= 0.95) && (a.severity == High <==> 0.9 <= score < 0.95)
    && (a.severity == Medium <==> 0.85 <= score < 0.9) && (a.severity == Low <==> score < 0.85)
  }

  lemma ScoreInUnit(cfg: Config, windows: Windows, event: MarketEvent, raw: real)
    ensures 0.0 <= Score(cfg, windows, event, raw) <= 1.0
  {
    hide RuleScore, ModelScore;
    RuleScoreBounds(cfg.root, Extract(event), WindowOf(windows, event.symbol));
  }

  /** The stored alerts are the alerts in memory. */
  ghost predicate AlertsStored(s: State)
  {
    match s.file case None => s.alerts == map[] case Some(saved) => saved.alerts == s.alerts
  }

  lemma StepRaises(cfg: Config, s: State, op: Op)
    requires AlertsStored(s) && forall id :: id in s.alerts ==> Raised(cfg, s.alerts[id])
    ensures var t := Step(cfg, s, op);
      AlertsStored(t) && forall id :: id in t.alerts ==> Raised(cfg, t.alerts[id])
  {
    hide Score, Observe, Round4, SeverityOf;
    match op
    case Analyze(event, alertId, raw) =>
      var score := Score(cfg, s.windows, event, raw);
      ScoreInUnit(cfg, s.windows, event, raw);
      if score >= cfg.threshold {
        SeverityMeans(score);
        assert RaisedBy(cfg, NewAlert(event, alertId, score), score);
      }
    case Review(id, verdict) =>
      if id in s.alerts {
        var score :| RaisedBy(cfg, s.alerts[id], score);
        assert RaisedBy(cfg, s.alerts[id].(status := verdict), score);
      }
    case Restart =>
  }

  /** Every alert of any run was raised by a score at or above the threshold; reviews never change its grade. */
  lemma {:induction false} AlertsAreRaised(cfg: Config, s: State, ops: seq<Op>)
    requires AlertsStored(s) && forall id :: id in s.alerts ==> Raised(cfg, s.alerts[id])
    ensures forall id :: id in Run(cfg, s, ops).alerts ==> Raised(cfg, Run(cfg, s, ops).alerts[id])
    decreases |ops|
  {
    if ops != [] {
      hide Step, Raised, AlertsStored;
      StepRaises(cfg, s, ops[0]);
      AlertsAreRaised(cfg, Step(cfg, s, ops[0]), ops[1..]);
    }
  }

  // ---------------------------------------------------------------- quiet runs

  ghost predicate Quiet(threshold: real, event: MarketEvent)
  {
    var f := Extract(event);
    65.0 * Abs(f.priceChange) + 17.5 * Abs(f.volumeChange) < threshold
  }

  lemma QuietStep(cfg: Config, s: State, op: Op)
    requires !cfg.forest && AlertsStored(s) && (op.Analyze? ==> Quiet(cfg.threshold, op.event))
    ensures AlertsStored(Step(cfg, s, op)) && Step(cfg, s, op).alerts.Keys == s.alerts.Keys
  {
    hide RuleScore, Extract, Observe;
    match op
    case Analyze(event, _, _) => RuleScoreBounds(cfg.root, Extract(event), WindowOf(s.windows, event.symbol));
    case _ =>
  }

  /** Without a forest, a run whose events all stay small creates no alert, whatever the windows and the alerts
      it starts from, and whatever reviews and restarts come in between. */
  lemma {:induction false} QuietRunsNeverAlert(cfg: Config, s: State, ops: seq<Op>)
    requires !cfg.forest && AlertsStored(s)
    requires forall i :: 0 <= i < |ops| && ops[i].Analyze? ==> Quiet(cfg.threshold, ops[i].event)
    ensures Run(cfg, s, ops).alerts.Keys == s.alerts.Keys
    decreases |ops|
  {
    if ops != [] {
      hide Step, Quiet, AlertsStored;
      QuietStep(cfg, s, ops[0]);
      QuietRunsNeverAlert(cfg, Step(cfg, s, ops[0]), ops[1..]);
    }
  }

  // ---------------------------------------------------------------- the service

  class AnomalyPeer {
    const cfg: Config
    var windows: Windows
    var alerts: map<string, Alert>
    var file: Option<Saved>
    /** Records sent to the ledger. */
    var reported: seq<Report>

    function Now(): State
      reads this
    {
      State(windows, alerts, file)
    }

    constructor (cfg: Config, file: Option<Saved>)
      ensures this.cfg == cfg && Now() == Load(cfg, file) && reported == []
    {
      this.cfg, this.file, reported := cfg, file, [];
      windows, alerts := Load(cfg, file).windows, Load(cfg, file).alerts;
    }

    method SaveState()
      modifies this`file
      ensures Now() == Stored(windows, alerts)
    {
      file := Some(Saved(alerts, windows));
    }

    method AnalyzeEvent(event: MarketEvent, alertId: string, raw: real) returns (alert: Option<Alert>)
      modifies this
      ensures Now() == Step(cfg, old(Now()), Analyze(event, alertId, raw))
      ensures alert.Some? <==> Score(cfg, old(windows), event, raw) >= cfg.threshold
      ensures IsRoot(cfg.root) && 0.0 < cfg.threshold <= 1.0 ==>
        (alert.Some? <==> Alarming(cfg, event, WindowOf(old(windows), event.symbol), raw))
      ensures alert.Some? ==>
        var a := alert.value;
        && a.alertId == alertId && a.eventId == event.eventId && a.symbol == event.symbol && a.status.PendingReview?
        && Abs(a.score - Score(cfg, old(windows), event, raw)) <= 0.00005
      ensures alerts == if alert.Some? then old(alerts)[alertId := alert.value] else old(alerts)
      ensures reported == old(reported) + if alert.Some? then [Created(alert.value)] else []
    {
      hide RuleScore, ModelScore, Alarming, IsRoot, Extract, Round4, SeverityOf;
      if IsRoot(cfg.root) && 0.0 < cfg.threshold <= 1.0 { AlarmingIff(cfg, windows, event, raw); }
      var features := Extract(event);
      var history := WindowOf(windows, event.symbol);
      var score := Max(RuleScore(cfg.root, features, history), ModelScore(cfg.forest, raw, history));
      windows := windows[event.symbol := LastN(history + [features], cfg.window)];
      if score < cfg.threshold {
        return None;
      }
      var created := NewAlert(event, alertId, score);
      alerts := alerts[alertId := created];
      SaveState();
      reported := reported + [Created(created)];
      return Some(created);
    }

    /** None is the answer to an unknown id. */
    method ReviewAlert(alertId: string, verdict: AlertStatus) returns (updated: Option<Alert>)
      modifies this
      ensures Now() == Step(cfg, old(Now()), Review(alertId, verdict))
      ensures updated.Some? <==> alertId in old(alerts)
      ensures updated.Some? ==> updated.value == old(alerts)[alertId].(status := verdict)
      ensures alerts == if updated.Some? then old(alerts)[alertId := updated.value] else old(alerts)
      ensures reported == old(reported) + if updated.Some? then [Reviewed(alertId, verdict)] else []
    {
      if alertId !in alerts {
        return None;
      }
      updated := Some(alerts[alertId].(status := verdict));
      alerts := alerts[alertId := updated.value];
      SaveState();
      reported := reported + [Reviewed(alertId, verdict)];
    }
  }
}
