/** The ingestion peer: normalises messages against the last one of their symbol, keeps the logs and routes. */
module Ingestion {
  import opened Base
  import opened RealMath
  import opened Schemas
  import opened RiskMath
  import opened Routing

  const INGESTED := "market_event_ingested"
  const STORED := "market_event_stored"
  const PRICE_CHANGE := "price_change_1m"

  datatype Saved = Saved(rawMessages: seq<MarketSensorMessage>, events: seq<MarketEvent>)

  // ---------------------------------------------------------------- the last message of a symbol

  /** The last entry of the raw log for a symbol. */
  function LastOf(raw: seq<MarketSensorMessage>, symbol: string): Option<MarketSensorMessage>
  {
    if raw == [] then None
    else if raw[|raw| - 1].symbol == symbol then Some(raw[|raw| - 1])
    else LastOf(raw[..|raw| - 1], symbol)
  }

  /** The index as `_load_state` rebuilds it: later messages overwrite earlier ones. */
  function IndexOf(raw: seq<MarketSensorMessage>): map<string, MarketSensorMessage>
  {
    if raw == [] then map[] else IndexOf(raw[..|raw| - 1])[raw[|raw| - 1].symbol := raw[|raw| - 1]]
  }

  function Lookup(index: map<string, MarketSensorMessage>, symbol: string): Option<MarketSensorMessage>
  {
    if symbol in index then Some(index[symbol]) else None
  }

  lemma {:induction false} IndexFindsLast(raw: seq<MarketSensorMessage>, symbol: string)
    ensures Lookup(IndexOf(raw), symbol) == LastOf(raw, symbol)
  {
    if raw != [] {
      IndexFindsLast(raw[..|raw| - 1], symbol);
    }
  }

  lemma IndexPush(raw: seq<MarketSensorMessage>, m: MarketSensorMessage)
    ensures IndexOf(raw + [m]) == IndexOf(raw)[m.symbol := m]
  {
    assert (raw + [m])[..|raw|] == raw;
  }

  // ---------------------------------------------------------------- normalisation

  /** The relative change since an earlier value; none without one or from zero. */
  function ChangeSince(earlier: Option<real>, now: real): real
  {
    if earlier.None? || earlier.value == 0.0 then 0.0 else Change(earlier.value, now)
  }

  function PriceOf(m: Option<MarketSensorMessage>): Option<real>
  {
    if m.Some? then Some(m.value.price) else None
  }

  function VolumeOf(m: Option<MarketSensorMessage>): Option<real>
  {
    if m.Some? then Some(m.value.volume) else None
  }

  function Normalize(
      node: string, id: string, previous: Option<MarketSensorMessage>, m: MarketSensorMessage): MarketEvent
  {
    MarketEvent(id, m.symbol, m.assetClass, Round6(m.price), Round6(m.volume), node, map[
      PRICE_CHANGE := Round6(ChangeSince(PriceOf(previous), m.price)),
      "volume_change_1m" := Round6(ChangeSince(VolumeOf(previous), m.volume)),
      "notional_value" := Round6(m.price * m.volume)])
  }

  /** The events of a run of messages. */
  function NormalizeAll(node: string, ids: seq<string>, raw: seq<MarketSensorMessage>): seq<MarketEvent>
    requires |ids| == |raw|
  {
    if raw == [] then []
    else NormalizeAll(node, ids[..|raw| - 1], raw[..|raw| - 1]) + [LastEvent(node, ids, raw)]
  }

  /** The event of the last message of a run. */
  function LastEvent(node: string, ids: seq<string>, raw: seq<MarketSensorMessage>): MarketEvent
    requires |ids| == |raw| > 0
  {
    var n := |raw| - 1;
    Normalize(node, ids[n], LastOf(raw[..n], raw[n].symbol), raw[n])
  }

  // ---------------------------------------------------------------- what an event says

  /** A number to six decimals. */
  ghost predicate Close(rounded: real, exact: real)
  {
    Abs(rounded - exact) <= 0.0000005
  }

  /** A change to six decimals: relative to the value before, or zero if there is none or it is zero. */
  ghost predicate ChangeIs(change: real, before: Option<real>, now: real)
  {
    if before.None? || before.value == 0.0 then change == 0.0
    else Close(change, (now - before.value) / before.value)
  }

  /** An event's own figures are those of its message. */
  ghost predicate Describes(e: MarketEvent, node: string, id: string, m: MarketSensorMessage)
  {
    && e.eventId == id && e.symbol == m.symbol && e.assetClass == m.assetClass && e.source == node
    && Close(e.price, m.price) && Close(e.volume, m.volume)
    && e.window.Keys == {"price_change_1m", "volume_change_1m", "notional_value"}
    && Close(e.window["notional_value"], m.price * m.volume)
  }

  /** Its changes are those since an earlier message. */
  ghost predicate Compares(e: MarketEvent, before: Option<MarketSensorMessage>, m: MarketSensorMessage)
  {
    && "price_change_1m" in e.window && "volume_change_1m" in e.window
    && ChangeIs(e.window["price_change_1m"], if before.Some? then Some(before.value.price) else None, m.price)
    && ChangeIs(e.window["volume_change_1m"], if before.Some? then Some(before.value.volume) else None, m.volume)
  }

  lemma RoundedChange(before: Option<real>, now: real)
    ensures ChangeIs(Round6(ChangeSince(before, now)), before, now)
  {
    assert OnGrid(0.0);
  }

  lemma KeysDiffer()
    ensures "price_change_1m" != "volume_change_1m" && "price_change_1m" != "notional_value"
    ensures "volume_change_1m" != "notional_value"
  {
    assert "price_change_1m"[0] == 'p' && "volume_change_1m"[0] == 'v' && "notional_value"[0] == 'n';
  }

  lemma NormalizeMeans(node: string, id: string, before: Option<MarketSensorMessage>, m: MarketSensorMessage)
    ensures Describes(Normalize(node, id, before, m), node, id, m)
    ensures Compares(Normalize(node, id, before, m), before, m)
  {
    hide Round6, ChangeSince, ChangeIs;
    KeysDiffer();
    RoundedChange(PriceOf(before), m.price);
    RoundedChange(VolumeOf(before), m.volume);
  }

  /** Message `j` is the last one of its symbol before message `k`. */
  ghost predicate IsPrevious(raw: seq<MarketSensorMessage>, j: nat, k: nat)
    requires k < |raw|
  {
    j < k && raw[j].symbol == raw[k].symbol && forall i :: j < i < k ==> raw[i].symbol != raw[k].symbol
  }

  lemma {:induction false} LastOfIsPrevious(raw: seq<MarketSensorMessage>, k: nat, n: nat)
    requires k < |raw| && n <= k && forall i :: n <= i < k ==> raw[i].symbol != raw[k].symbol
    ensures match LastOf(raw[..n], raw[k].symbol)
      case None => forall j :: 0 <= j < k ==> raw[j].symbol != raw[k].symbol
      case Some(m) => exists j: nat :: IsPrevious(raw, j, k) && raw[j] == m
  {
    if n > 0 {
      assert raw[..n][..n - 1] == raw[..n - 1];
      if raw[n - 1].symbol == raw[k].symbol {
        assert IsPrevious(raw, n - 1, k);
      } else {
        LastOfIsPrevious(raw, k, n - 1);
      }
    }
  }

  lemma PreviousIsOne(raw: seq<MarketSensorMessage>, i: nat, j: nat, k: nat)
    requires k < |raw| && IsPrevious(raw, i, k) && IsPrevious(raw, j, k)
    ensures i == j
  {
  }

  /** The event of message `k` compares it with the last earlier message of its symbol, or with nothing. */
  ghost predicate Tells(e: MarketEvent, raw: seq<MarketSensorMessage>, k: nat)
    requires k < |raw|
  {
    && (forall j: nat :: IsPrevious(raw, j, k) ==> Compares(e, Some(raw[j]), raw[k]))
    && ((forall j :: 0 <= j < k ==> raw[j].symbol != raw[k].symbol) ==> Compares(e, None, raw[k]))
  }

  lemma TellsLater(e: MarketEvent, raw: seq<MarketSensorMessage>, n: nat, k: nat)
    requires k < n <= |raw| && Tells(e, raw[..n], k)
    ensures Tells(e, raw, k)
  {
    hide Compares;
    forall j: nat | IsPrevious(raw, j, k) ensures Compares(e, Some(raw[j]), raw[k]) {
      assert IsPrevious(raw[..n], j, k);
    }
  }

  lemma LastTells(e: MarketEvent, raw: seq<MarketSensorMessage>)
    requires raw != [] && var n := |raw| - 1; Compares(e, LastOf(raw[..n], raw[n].symbol), raw[n])
    ensures Tells(e, raw, |raw| - 1)
  {
    hide Compares, LastOf;
    var n := |raw| - 1;
    var before := LastOf(raw[..n], raw[n].symbol);
    LastOfIsPrevious(raw, n, n);
    if before.Some? {
      var l: nat :| IsPrevious(raw, l, n) && raw[l] == before.value;
      forall j: nat | IsPrevious(raw, j, n) ensures Compares(e, Some(raw[j]), raw[n]) {
        PreviousIsOne(raw, j, l, n);
      }
    }
  }

  /** Over any run, every event describes its own message and tells the changes of price and volume since the last
      earlier message of its symbol: both zero for the first, and each zero where that message had zero. */
  lemma {:induction false} EventsMean(node: string, ids: seq<string>, raw: seq<MarketSensorMessage>, k: nat)
    requires |ids| == |raw| && k < |raw|
    ensures |NormalizeAll(node, ids, raw)| == |raw|
    ensures var e := NormalizeAll(node, ids, raw)[k]; Describes(e, node, ids[k], raw[k]) && Tells(e, raw, k)
    decreases |raw|
  {
    hide Describes, Compares, Normalize, Tells, NormalizeAll;
    var n := |raw| - 1;
    NormalizeAllLength(node, ids[..n], raw[..n]);
    NormalizeAllStep(node, ids, raw);
    if k < n {
      EventsMean(node, ids[..n], raw[..n], k);
      TellsLater(NormalizeAll(node, ids, raw)[k], raw, n, k);
    } else {
      NormalizeMeans(node, ids[n], LastOf(raw[..n], raw[n].symbol), raw[n]);
      LastTells(LastEvent(node, ids, raw), raw);
    }
  }

  lemma {:induction false} NormalizeAllLength(node: string, ids: seq<string>, raw: seq<MarketSensorMessage>)
    requires |ids| == |raw|
    ensures |NormalizeAll(node, ids, raw)| == |raw|
  {
    if raw != [] {
      NormalizeAllLength(node, ids[..|raw| - 1], raw[..|raw| - 1]);
    }
  }

  // ---------------------------------------------------------------- two services agree

  ghost predicate GridPrices(raw: seq<MarketSensorMessage>, symbol: string)
  {
    forall i :: 0 <= i < |raw| && raw[i].symbol == symbol ==> raw[i].price != 0.0 && OnGrid(raw[i].price)
  }

  lemma LastEventIs(node: string, ids: seq<string>, raw: seq<MarketSensorMessage>)
    requires |ids| == |raw| > 0
    ensures LastEvent(node, ids, raw).symbol == raw[|raw| - 1].symbol
    ensures OnGrid(raw[|raw| - 1].price) ==> LastEvent(node, ids, raw).price == raw[|raw| - 1].price
  {
    hide OnGrid, Round6, ChangeSince;
  }

  lemma NormalizeAllStep(node: string, ids: seq<string>, raw: seq<MarketSensorMessage>)
    requires |ids| == |raw| > 0
    ensures NormalizeAll(node, ids, raw) ==
            NormalizeAll(node, ids[..|raw| - 1], raw[..|raw| - 1]) + [LastEvent(node, ids, raw)]
  {
  }

  /** The last of a symbol's events carries the nonzero price of its last message. */
  ghost predicate EndsWith(es: seq<MarketEvent>, last: Option<MarketSensorMessage>)
  {
    && (es == [] <==> last.None?)
    && (last.Some? ==> last.value.price == es[|es| - 1].price != 0.0)
  }

  lemma GridPrefix(raw: seq<MarketSensorMessage>, symbol: string)
    requires GridPrices(raw, symbol) && raw != []
    ensures GridPrices(raw[..|raw| - 1], symbol)
    ensures var m := raw[|raw| - 1]; m.symbol == symbol ==> m.price != 0.0 && OnGrid(m.price)
  {
    hide OnGrid;
  }

  lemma LastOfStep(raw: seq<MarketSensorMessage>, symbol: string)
    requires raw != []
    ensures LastOf(raw, symbol) ==
            if raw[|raw| - 1].symbol == symbol then Some(raw[|raw| - 1]) else LastOf(raw[..|raw| - 1], symbol)
  {
  }

  lemma {:induction false} LastEventIsLastMessage(
      node: string, ids: seq<string>, raw: seq<MarketSensorMessage>, symbol: string)
    requires |ids| == |raw| && GridPrices(raw, symbol)
    ensures EndsWith(EventsOf(NormalizeAll(node, ids, raw), symbol), LastOf(raw, symbol))
  {
    if raw != [] {
      hide GridPrices, LastOf, LastEvent, OnGrid, EventsOf, NormalizeAll;
      var n := |raw| - 1;
      GridPrefix(raw, symbol);
      LastOfStep(raw, symbol);
      LastEventIs(node, ids, raw);
      LastEventIsLastMessage(node, ids[..n], raw[..n], symbol);
      NormalizeAllStep(node, ids, raw);
      EventsOfPush(NormalizeAll(node, ids[..n], raw[..n]), LastEvent(node, ids, raw), symbol);
    }
  }

  /** Term by term, the return at the risk peer is the price change the ingestion peer put on the next event. */
  ghost predicate Agrees(es: seq<MarketEvent>)
  {
    es != [] ==> Match(Returns(Prices(es)), es)
  }

  ghost predicate Match(rs: seq<real>, es: seq<MarketEvent>)
  {
    |rs| + 1 == |es| && forall k :: 0 <= k < |rs| ==> Near(rs[k], es[k + 1])
  }

  ghost predicate Near(r: real, e: MarketEvent)
  {
    PRICE_CHANGE in e.window && Abs(r - e.window[PRICE_CHANGE]) <= 0.0000005
  }

  /** An event whose window tells the change since the last of `es`. */
  ghost predicate Continues(es: seq<MarketEvent>, e: MarketEvent)
  {
    es != [] ==> (
      && es[|es| - 1].price != 0.0 && PRICE_CHANGE in e.window
      && e.window[PRICE_CHANGE] == Round6(Change(es[|es| - 1].price, e.price)))
  }

  lemma AgreesPush(es: seq<MarketEvent>, e: MarketEvent)
    requires Agrees(es) && Continues(es, e)
    ensures Agrees(es + [e])
  {
    hide Change;
    var ps, qs := Prices(es), Prices(es + [e]);
    assert qs[..|es|] == ps;
    if es != [] {
      var r := Change(es[|es| - 1].price, e.price);
      assert Returns(qs) == Returns(ps) + [r];
      assert Near(r, e);
      MatchPush(Returns(ps), es, r, e);
    }
  }

  lemma MatchPush(rs: seq<real>, es: seq<MarketEvent>, r: real, e: MarketEvent)
    requires Match(rs, es) && Near(r, e)
    ensures Match(rs + [r], es + [e])
  {
    hide Near;
  }

  lemma LastEventContinues(node: string, ids: seq<string>, raw: seq<MarketSensorMessage>, symbol: string)
    requires |ids| == |raw| > 0 && GridPrices(raw, symbol) && raw[|raw| - 1].symbol == symbol
    ensures Continues(
      EventsOf(NormalizeAll(node, ids[..|raw| - 1], raw[..|raw| - 1]), symbol), LastEvent(node, ids, raw))
  {
    hide Change, EventsOf, NormalizeAll;
    LastEventIsLastMessage(node, ids[..|raw| - 1], raw[..|raw| - 1], symbol);
  }

  /** Over any run whose prices for a symbol are nonzero and on the grid, delivered once and in order, the risk
      peer's returns match the price changes of that symbol's events after the first to within half a unit
      of the sixth decimal. */
  lemma {:induction false} TwoServicesAgree(
      node: string, ids: seq<string>, raw: seq<MarketSensorMessage>, symbol: string)
    requires |ids| == |raw| && GridPrices(raw, symbol)
    ensures Agrees(EventsOf(NormalizeAll(node, ids, raw), symbol))
  {
    if raw != [] {
      hide Agrees, Continues, EventsOf, LastEvent;
      var n := |raw| - 1;
      TwoServicesAgree(node, ids[..n], raw[..n], symbol);
      EventsOfPush(NormalizeAll(node, ids[..n], raw[..n]), LastEvent(node, ids, raw), symbol);
      LastEventIs(node, ids, raw);
      if raw[n].symbol == symbol {
        LastEventContinues(node, ids, raw, symbol);
        AgreesPush(EventsOf(NormalizeAll(node, ids[..n], raw[..n]), symbol), LastEvent(node, ids, raw));
      }
    } else {
      assert Prices([]) == [];
    }
  }

  // ---------------------------------------------------------------- the audit trail over whole runs

  /** What one message leaves on the ledger. */
  function MessageTrail(p: Plan): seq<Record>
  {
    [Record(INGESTED, p.eventId, "")] + PlanTrail(p)
  }

  /** Ingestion is recorded before anything is routed: for detection first, then for storage, then for computation. */
  lemma MessageTrailIs(p: Plan)
    ensures MessageTrail(p) ==
      [Record("market_event_ingested", p.eventId, "")] + FanOut(p.detect, "event_routed_to_anomaly", p.eventId)
      + FanOut(p.store, "event_routed_to_risk", p.eventId) + ComputeTrail(p.compute, p.eventId)
  {
    hide FanOut, ComputeTrail;
  }

  function Trail(plans: seq<Plan>): seq<Record>
  {
    if plans == [] then [] else Trail(plans[..|plans| - 1]) + MessageTrail(plans[|plans| - 1])
  }

  function Forwarded(plans: seq<Plan>): nat
  {
    if plans == [] then 0
    else Forwarded(plans[..|plans| - 1]) + if PlanFailures(plans[|plans| - 1]) == 0 then 1 else 0
  }

  function RoutingFailures(plans: seq<Plan>): nat
  {
    if plans == [] then 0
    else RoutingFailures(plans[..|plans| - 1]) + if PlanFailures(plans[|plans| - 1]) > 0 then 1 else 0
  }

  /** Deliveries for detection and storage, whatever their outcome, and the computations that failed. */
  function Audited(plans: seq<Plan>): nat
  {
    if plans == [] then 0
    else
      var p := plans[|plans| - 1];
      Audited(plans[..|plans| - 1]) + |p.detect| + |p.store| + Failures(p.compute)
  }

  function CountType(rs: seq<Record>, eventType: string): nat
  {
    if rs == [] then 0
    else CountType(rs[..|rs| - 1], eventType) + if rs[|rs| - 1].eventType == eventType then 1 else 0
  }

  lemma {:induction false} CountTypeAppend(rs: seq<Record>, ss: seq<Record>, eventType: string)
    ensures CountType(rs + ss, eventType) == CountType(rs, eventType) + CountType(ss, eventType)
  {
    if ss == [] {
      assert rs + ss == rs;
    } else {
      assert (rs + ss)[..|rs + ss| - 1] == rs + ss[..|ss| - 1];
      CountTypeAppend(rs, ss[..|ss| - 1], eventType);
    }
  }

  lemma CountTypePush(rs: seq<Record>, r: Record, eventType: string)
    ensures CountType(rs + [r], eventType) == CountType(rs, eventType) + if r.eventType == eventType then 1 else 0
  {
    assert (rs + [r])[..|rs|] == rs;
  }

  lemma {:induction false} FanOutCounts(targets: seq<Target>, routedType: string, id: string, other: string)
    requires routedType != FAILED && other != FAILED && other != routedType
    ensures CountType(FanOut(targets, routedType, id), FAILED) == Failures(targets)
    ensures CountType(FanOut(targets, routedType, id), routedType) == |targets| - Failures(targets)
    ensures CountType(FanOut(targets, routedType, id), other) == 0
  {
    if targets != [] {
      hide Acked;
      var n := |targets| - 1;
      var rs, r := FanOut(targets[..n], routedType, id), FanOut(targets, routedType, id);
      FanOutCounts(targets[..n], routedType, id, other);
      var last := Outcome(targets[n], id, routedType);
      assert r == rs + [last];
      CountTypePush(rs, last, FAILED);
      CountTypePush(rs, last, routedType);
      CountTypePush(rs, last, other);
    }
  }

  lemma {:induction false} ComputeCounts(targets: seq<Target>, id: string, other: string)
    requires other != FAILED
    ensures CountType(ComputeTrail(targets, id), FAILED) == Failures(targets)
    ensures CountType(ComputeTrail(targets, id), other) == 0
  {
    if targets != [] {
      hide Acked;
      var n := |targets| - 1;
      var rs, last := ComputeTrail(targets[..n], id), FailureRecord(targets[n], id, TO_COMPUTE, RETRIES);
      ComputeCounts(targets[..n], id, other);
      CountTypePush(rs, last, FAILED);
      CountTypePush(rs, last, other);
      assert ComputeTrail(targets, id) == if Acked(targets[n].net, RETRIES) then rs else rs + [last];
    }
  }

  lemma TypesDiffer()
    ensures FAILED != TO_ANOMALY && FAILED != TO_RISK && FAILED != INGESTED
    ensures TO_ANOMALY != TO_RISK && TO_ANOMALY != INGESTED && TO_RISK != INGESTED
  {
    assert |FAILED| == 14 && |TO_ANOMALY| == 23 && |TO_RISK| == 20 && |INGESTED| == 21;
  }

  lemma MessageTrailCount(p: Plan, eventType: string)
    ensures CountType(MessageTrail(p), eventType) ==
      (if eventType == INGESTED then 1 else 0) + CountType(FanOut(p.detect, TO_ANOMALY, p.eventId), eventType)
      + CountType(FanOut(p.store, TO_RISK, p.eventId), eventType)
      + CountType(ComputeTrail(p.compute, p.eventId), eventType)
  {
    hide FanOut, ComputeTrail, CountType;
    var a, b := FanOut(p.detect, TO_ANOMALY, p.eventId), FanOut(p.store, TO_RISK, p.eventId);
    var c := ComputeTrail(p.compute, p.eventId);
    var r := Record(INGESTED, p.eventId, "");
    CountTypeAppend([r], a + b + c, eventType);
    CountTypeAppend(a + b, c, eventType);
    CountTypeAppend(a, b, eventType);
    OneCount(r, eventType);
  }

  lemma OneCount(r: Record, eventType: string)
    ensures CountType([r], eventType) == if r.eventType == eventType then 1 else 0
  {
    assert [r] == [] + [r];
    CountTypePush([], r, eventType);
  }

  lemma MessageTrailCounts(p: Plan)
    ensures CountType(MessageTrail(p), FAILED) == PlanFailures(p)
    ensures CountType(MessageTrail(p), TO_ANOMALY) == |p.detect| - Failures(p.detect)
    ensures CountType(MessageTrail(p), TO_RISK) == |p.store| - Failures(p.store)
    ensures CountType(MessageTrail(p), INGESTED) == 1
  {
    hide FanOut, ComputeTrail, CountType, Failures, MessageTrail;
    TypesDiffer();
    FanOutCounts(p.detect, TO_ANOMALY, p.eventId, TO_RISK);
    FanOutCounts(p.detect, TO_ANOMALY, p.eventId, INGESTED);
    FanOutCounts(p.store, TO_RISK, p.eventId, TO_ANOMALY);
    FanOutCounts(p.store, TO_RISK, p.eventId, INGESTED);
    ComputeCounts(p.compute, p.eventId, TO_ANOMALY);
    ComputeCounts(p.compute, p.eventId, TO_RISK);
    ComputeCounts(p.compute, p.eventId, INGESTED);
    MessageTrailCount(p, FAILED);
    MessageTrailCount(p, TO_ANOMALY);
    MessageTrailCount(p, TO_RISK);
    MessageTrailCount(p, INGESTED);
  }

  /** Audit conservation over any run: every delivery for detection or storage and every failed computation is
      recorded once; each message is ingested and counted once, as forwarded or as a failure, and never are
      there more failures counted than failure records. */
  lemma {:induction false} AuditConservation(plans: seq<Plan>)
    ensures var t := Trail(plans);
      && CountType(t, TO_ANOMALY) + CountType(t, TO_RISK) + CountType(t, FAILED) == Audited(plans)
      && CountType(t, INGESTED) == |plans| == Forwarded(plans) + RoutingFailures(plans)
      && RoutingFailures(plans) <= CountType(t, FAILED)
  {
    if plans != [] {
      hide CountType, MessageTrail, PlanFailures;
      var n := |plans| - 1;
      var t, m := Trail(plans[..n]), MessageTrail(plans[n]);
      AuditConservation(plans[..n]);
      MessageTrailCounts(plans[n]);
      PlanFailuresSplit(plans[n]);
      CountTypeAppend(t, m, TO_ANOMALY);
      CountTypeAppend(t, m, TO_RISK);
      CountTypeAppend(t, m, FAILED);
      CountTypeAppend(t, m, INGESTED);
    }
  }

  lemma PlanFailuresSplit(p: Plan)
    ensures PlanFailures(p) == Failures(p.detect) + Failures(p.store) + Failures(p.compute)
  {
  }

  // ---------------------------------------------------------------- the service

  class IngestionPeer {
    const nodeId: string
    /** Null when the runtime is disabled: then nothing is recorded or routed. */
    const router: ServiceRuntime?
    var rawMessages: seq<MarketSensorMessage>
    var events: seq<MarketEvent>
    var lastBySymbol: map<string, MarketSensorMessage>
    var forwardedEvents: nat
    var routingFailures: nat
    var file: Option<Saved>

    /** The index is the one the raw log gives, and the file, once written, holds the logs: so a restart
        finds the same index again. */
    ghost predicate Valid()
      reads this, router
    {
      && lastBySymbol == IndexOf(rawMessages)
      && (file.Some? ==> file.value == Saved(rawMessages, events))
      && (router != null ==> router.Valid())
    }

    constructor (nodeId: string, router: ServiceRuntime?, file: Option<Saved>)
      requires router != null ==> router.Valid()
      ensures Valid() && this.nodeId == nodeId && this.router == router && this.file == file
      ensures forwardedEvents == 0 && routingFailures == 0
      ensures file.None? ==> rawMessages == [] && events == []
      ensures file.Some? ==> rawMessages == file.value.rawMessages && events == file.value.events
    {
      this.nodeId, this.router, this.file := nodeId, router, file;
      var saved := if file.Some? then file.value else Saved([], []);
      rawMessages, events, lastBySymbol := saved.rawMessages, saved.events, IndexOf(saved.rawMessages);
      forwardedEvents, routingFailures := 0, 0;
    }

    method SaveState()
      modifies this`file
      ensures file == Some(Saved(rawMessages, events))
    {
      file := Some(Saved(rawMessages, events));
    }

    /** `p` names the peers discovery will return for this event, under the id it draws. */
    method IngestMessage(message: MarketSensorMessage, p: Plan) returns (event: MarketEvent)
      requires Valid()
      modifies this, router
      ensures Valid() && file.Some?
      ensures event == Normalize(nodeId, p.eventId, LastOf(old(rawMessages), message.symbol), message)
      ensures Describes(event, nodeId, p.eventId, message)
      ensures Compares(event, LastOf(old(rawMessages), message.symbol), message)
      ensures rawMessages == old(rawMessages) + [message] && events == old(events) + [event]
      ensures router != null ==> router.sent == old(router.sent) + MessageTrail(p)
      ensures router != null ==> router.processed == old(router.processed) + PlanProcessed(p)
      ensures forwardedEvents == old(forwardedEvents) + if router != null && PlanFailures(p) == 0 then 1 else 0
      ensures routingFailures == old(routingFailures) + if router != null && PlanFailures(p) > 0 then 1 else 0
    {
      hide Normalize, PlanFailures, PlanTrail, PlanProcessed, LastOf, IndexOf, Taken, Describes, Compares;
      NormalizeMeans(nodeId, p.eventId, LastOf(rawMessages, message.symbol), message);
      IndexFindsLast(rawMessages, message.symbol);
      IndexPush(rawMessages, message);
      var previous := Lookup(lastBySymbol, message.symbol);
      event := Normalize(nodeId, p.eventId, previous, message);
      rawMessages := rawMessages + [message];
      events := events + [event];
      lastBySymbol := lastBySymbol[message.symbol := message];
      SaveState();
      if router != null {
        router.AppendLedger(Record(INGESTED, p.eventId, ""));
        var failed := router.RouteEvent(p);
        if failed {
          routingFailures := routingFailures + 1;
        } else {
          forwardedEvents := forwardedEvents + 1;
        }
      }
    }

    /** An event that arrives normalised is logged, never routed, and leaves the raw log alone. */
    method StoreNormalizedEvent(event: MarketEvent)
      requires Valid()
      modifies this, router
      ensures Valid() && file.Some? && rawMessages == old(rawMessages) && events == old(events) + [event]
      ensures forwardedEvents == old(forwardedEvents) && routingFailures == old(routingFailures)
      ensures router != null ==> router.sent == old(router.sent) + [Record("market_event_stored", event.eventId, "")]
    {
      events := events + [event];
      SaveState();
      if router != null {
        router.AppendLedger(Record(STORED, event.eventId, ""));
      }
    }
  }

  function Ids(plans: seq<Plan>): (ids: seq<string>)
    ensures |ids| == |plans| && forall i :: 0 <= i < |plans| ==> ids[i] == plans[i].eventId
  {
    seq(|plans|, i requires 0 <= i < |plans| => plans[i].eventId)
  }

  /** The events of a run's new messages, those before it taken into account. */
  function NewEvents(
      node: string, before: seq<MarketSensorMessage>, ids: seq<string>, raw: seq<MarketSensorMessage>): seq<MarketEvent>
    requires |ids| == |raw|
  {
    if raw == [] then []
    else
      var n := |raw| - 1;
      NewEvents(node, before, ids[..n], raw[..n]) +
      [Normalize(node, ids[n], LastOf(before + raw[..n], raw[n].symbol), raw[n])]
  }

  /** For a peer that starts with empty logs these are the events of the agreement theorem. */
  lemma {:induction false} NewEventsFromNothing(node: string, ids: seq<string>, raw: seq<MarketSensorMessage>)
    requires |ids| == |raw|
    ensures NewEvents(node, [], ids, raw) == NormalizeAll(node, ids, raw)
  {
    if raw != [] {
      var n := |raw| - 1;
      NewEventsFromNothing(node, ids[..n], raw[..n]);
      assert [] + raw[..n] == raw[..n];
    }
  }

  lemma NoMessages(node: string, before: seq<MarketSensorMessage>, plans: seq<Plan>)
    requires plans == []
    ensures NewEvents(node, before, [], []) == [] && Trail(plans) == []
    ensures Forwarded(plans) == 0 && RoutingFailures(plans) == 0
  {
  }

  lemma OneMoreEvent(
      node: string, before: seq<MarketSensorMessage>, ids: seq<string>, raw: seq<MarketSensorMessage>, i: nat)
    requires i < |ids| == |raw|
    ensures NewEvents(node, before, ids[..i + 1], raw[..i + 1]) ==
            NewEvents(node, before, ids[..i], raw[..i]) +
            [Normalize(node, ids[i], LastOf(before + raw[..i], raw[i].symbol), raw[i])]
  {
    hide Normalize, LastOf;
    assert ids[..i + 1][..i] == ids[..i] && raw[..i + 1][..i] == raw[..i];
  }

  lemma OneMorePlan(plans: seq<Plan>, i: nat)
    requires i < |plans|
    ensures Trail(plans[..i + 1]) == Trail(plans[..i]) + MessageTrail(plans[i])
    ensures Forwarded(plans[..i + 1]) == Forwarded(plans[..i]) + if PlanFailures(plans[i]) == 0 then 1 else 0
    ensures RoutingFailures(plans[..i + 1]) ==
            RoutingFailures(plans[..i]) + if PlanFailures(plans[i]) > 0 then 1 else 0
  {
    hide MessageTrail, PlanFailures;
    assert plans[..i + 1][..i] == plans[..i];
  }

  /** A run of the peer: messages one after another, each with what discovery and the network do to its event. */
  method IngestAll(peer: IngestionPeer, messages: seq<MarketSensorMessage>, plans: seq<Plan>)
    requires peer.Valid() && |messages| == |plans|
    modifies peer, peer.router
    ensures peer.Valid() && peer.rawMessages == old(peer.rawMessages) + messages
    ensures peer.events == old(peer.events) + NewEvents(peer.nodeId, old(peer.rawMessages), Ids(plans), messages)
    ensures peer.router != null ==>
      && peer.router.sent == old(peer.router.sent) + Trail(plans)
      && peer.forwardedEvents == old(peer.forwardedEvents) + Forwarded(plans)
      && peer.routingFailures == old(peer.routingFailures) + RoutingFailures(plans)
    ensures peer.router == null ==>
      peer.forwardedEvents == old(peer.forwardedEvents) && peer.routingFailures == old(peer.routingFailures)
  {
    hide Normalize, MessageTrail, PlanFailures, PlanProcessed, LastOf, IndexOf, Taken;
    hide NewEvents, Trail, Forwarded, RoutingFailures, Describes, Compares;
    NoMessages(peer.nodeId, peer.rawMessages, plans[..0]);
    for i := 0 to |messages|
      invariant peer.Valid() && peer.rawMessages == old(peer.rawMessages) + messages[..i]
      invariant peer.events ==
        old(peer.events) + NewEvents(peer.nodeId, old(peer.rawMessages), Ids(plans)[..i], messages[..i])
      invariant peer.router != null ==>
        && peer.router.sent == old(peer.router.sent) + Trail(plans[..i])
        && peer.forwardedEvents == old(peer.forwardedEvents) + Forwarded(plans[..i])
        && peer.routingFailures == old(peer.routingFailures) + RoutingFailures(plans[..i])
      invariant peer.router == null ==>
        peer.forwardedEvents == old(peer.forwardedEvents) && peer.routingFailures == old(peer.routingFailures)
    {
      OneMoreEvent(peer.nodeId, old(peer.rawMessages), Ids(plans), messages, i);
      OneMorePlan(plans, i);
      var _ := peer.IngestMessage(messages[i], plans[i]);
    }
    assert messages[..|messages|] == messages && plans[..|plans|] == plans && Ids(plans)[..|plans|] == Ids(plans);
  }
}
