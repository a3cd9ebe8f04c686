/** The registry's endpoints and its background verifier: each composes several store operations. */
module RegistryService {
  import opened Base
  import opened CanonicalJson
  import opened Ledger
  import opened LedgerProofs
  import opened RegistryStore

  const FAILED_TYPE := "ledger_verification_failed"

  function StatusText(s: PeerStatus): string
  {
    match s case Online => "online" case Stale => "stale" case Offline => "offline"
  }

  function PeerJson(p: Peer): Json
  {
    Obj([
      Field("node_id", Str(p.nodeId)), Field("node_type", Str(p.nodeType)), Field("cloud", Str(p.cloud)),
      Field("base_url", Str(p.baseUrl)),
      Field("capabilities", Arr(seq(|p.capabilities|, i requires 0 <= i < |p.capabilities| => Str(p.capabilities[i])))),
      Field("status", Str(StatusText(p.status))), Field("last_heartbeat", Str(p.lastHeartbeat)),
      Field("metadata", p.metadata)])
  }

  function HeartbeatJson(h: PeerHeartbeat): Json
  {
    Obj([Field("status", Str(StatusText(h.status))), Field("observed_at", Str(h.observedAt))])
  }

  function RegisteredRequest(p: Peer): AppendRequest
  {
    AppendRequest("peer_registered", p.nodeId, PeerJson(p))
  }

  function HeartbeatRequest(nodeId: string, h: PeerHeartbeat): AppendRequest
  {
    AppendRequest("peer_heartbeat", nodeId, HeartbeatJson(h))
  }

  function FailureRequest(result: Verification): AppendRequest
  {
    AppendRequest(FAILED_TYPE, "registry_service", Obj([
      Field("error", Str(if result.error.Some? && result.error.value != [] then result.error.value else "unknown")),
      Field("block_count", Num(result.blockCount))]))
  }

  /** What the three records say. */
  lemma RegisteredSays(p: Peer)
    ensures RegisteredRequest(p).eventType == "peer_registered" && RegisteredRequest(p).actorNode == p.nodeId
    ensures RegisteredRequest(p).payload.Obj? && |RegisteredRequest(p).payload.fields| == 8
    ensures var fs := RegisteredRequest(p).payload.fields;
      && fs[0] == Field("node_id", Str(p.nodeId)) && fs[1] == Field("node_type", Str(p.nodeType))
      && fs[2] == Field("cloud", Str(p.cloud)) && fs[3] == Field("base_url", Str(p.baseUrl))
      && fs[4].key == "capabilities" && fs[4].value.Arr? && |fs[4].value.items| == |p.capabilities|
      && (forall i :: 0 <= i < |p.capabilities| ==> fs[4].value.items[i] == Str(p.capabilities[i]))
      && fs[5].key == "status" && (p.status == Online ==> fs[5].value == Str("online"))
      && fs[6] == Field("last_heartbeat", Str(p.lastHeartbeat)) && fs[7] == Field("metadata", p.metadata)
  {
  }

  lemma HeartbeatSays(nodeId: string, h: PeerHeartbeat)
    ensures var r := HeartbeatRequest(nodeId, h);
      && r.eventType == "peer_heartbeat" && r.actorNode == nodeId && r.payload.Obj?
      && r.payload.fields == [
           Field("status", Str(match h.status case Online => "online" case Stale => "stale" case Offline => "offline")),
           Field("observed_at", Str(h.observedAt))]
  {
  }

  lemma FailureSays(result: Verification)
    requires result.error.Some? && result.error.value != []
    ensures var r := FailureRequest(result);
      && r.eventType == "ledger_verification_failed" && r.actorNode == "registry_service" && r.payload.Obj?
      && r.payload.fields == [Field("error", Str(result.error.value)), Field("block_count", Num(result.blockCount))]
  {
  }

  // ---------------------------------------------------------------- the verifier over whole runs

  /** What the verifier watches: the ledger and its own counters. */
  datatype Watch = Watch(ledger: seq<Block>, runs: nat, failures: nat)

  /** An append with its timestamp. */
  datatype Entry = Entry(request: AppendRequest, timestamp: string)

  /** A run of the registry: appends by anyone, and ticks of the verifier. The verifier checks and reports
      under separate lock acquisitions, so other appends can land between the two. */
  datatype Action = Append(entry: Entry) | Tick(meantime: seq<Entry>, timestamp: string)

  function AppendAll(hash: Hash, ledger: seq<Block>, entries: seq<Entry>): seq<Block>
    decreases |entries|
  {
    if entries == [] then ledger
    else AppendAll(hash, ledger + [NewBlock(hash, ledger, entries[0].request, entries[0].timestamp)], entries[1..])
  }

  function Act(hash: Hash, w: Watch, a: Action): Watch
  {
    match a
    case Append(e) => w.(ledger := AppendAll(hash, w.ledger, [e]))
    case Tick(meantime, now) =>
      var result := VerificationOf(hash, w.ledger);
      var busy := AppendAll(hash, w.ledger, meantime);
      if result.valid then Watch(busy, w.runs + 1, w.failures)
      else Watch(AppendAll(hash, busy, [Entry(FailureRequest(result), now)]), w.runs + 1, w.failures + 1)
  }

  function Run(hash: Hash, w: Watch, actions: seq<Action>): Watch
    decreases |actions|
  {
    if actions == [] then w else Run(hash, Act(hash, w, actions[0]), actions[1..])
  }

  function Ticks(actions: seq<Action>): nat
  {
    if actions == [] then 0 else Ticks(actions[1..]) + if actions[0].Tick? then 1 else 0
  }

  /** Appends asked for by callers, the verifier's own reports not counted. */
  function Requested(actions: seq<Action>): nat
  {
    if actions == [] then 0
    else Requested(actions[1..]) + match actions[0] case Append(_) => 1 case Tick(m, _) => |m|
  }

  /** Reports of failed verification in a ledger. */
  function Reports(ledger: seq<Block>): nat
  {
    if ledger == [] then 0
    else Reports(ledger[..|ledger| - 1]) + if ledger[|ledger| - 1].eventType == FAILED_TYPE then 1 else 0
  }

  ghost predicate NoForgedReport(entries: seq<Entry>)
  {
    forall i :: 0 <= i < |entries| ==> entries[i].request.eventType != FAILED_TYPE
  }

  ghost predicate NoForgedReports(actions: seq<Action>)
  {
    forall i :: 0 <= i < |actions| ==> match actions[i]
      case Append(e) => NoForgedReport([e])
      case Tick(m, _) => NoForgedReport(m)
  }

  lemma {:induction false} AppendAllExtends(hash: Hash, ledger: seq<Block>, entries: seq<Entry>)
    ensures ledger <= AppendAll(hash, ledger, entries)
    ensures |AppendAll(hash, ledger, entries)| == |ledger| + |entries|
    ensures NoForgedReport(entries) ==> Reports(AppendAll(hash, ledger, entries)) == Reports(ledger)
    decreases |entries|
  {
    if entries != [] {
      var l := ledger + [NewBlock(hash, ledger, entries[0].request, entries[0].timestamp)];
      assert l[..|l| - 1] == ledger;
      AppendAllExtends(hash, l, entries[1..]);
    }
  }

  lemma ReportAppended(hash: Hash, ledger: seq<Block>, result: Verification, now: string)
    ensures Reports(AppendAll(hash, ledger, [Entry(FailureRequest(result), now)])) == Reports(ledger) + 1
  {
    var e := Entry(FailureRequest(result), now);
    var l := ledger + [NewBlock(hash, ledger, e.request, e.timestamp)];
    assert AppendAll(hash, ledger, [e]) == AppendAll(hash, l, []);
    assert l[..|l| - 1] == ledger;
  }

  lemma {:induction false} AppendAllPush(hash: Hash, ledger: seq<Block>, entries: seq<Entry>, e: Entry)
    ensures AppendAll(hash, ledger, entries + [e]) ==
            AppendAll(hash, ledger, entries) +
            [NewBlock(hash, AppendAll(hash, ledger, entries), e.request, e.timestamp)]
    decreases |entries|
  {
    if entries == [] {
      assert [] + [e] == [e];
      AppendOne(hash, ledger, e);
    } else {
      var l := ledger + [NewBlock(hash, ledger, entries[0].request, entries[0].timestamp)];
      AppendAllPush(hash, l, entries[1..], e);
      assert (entries + [e])[1..] == entries[1..] + [e];
    }
  }

  lemma {:induction false} AppendAllVerifies(hash: Hash, ledger: seq<Block>, entries: seq<Entry>)
    requires Verifies(hash, ledger) && Numbered(ledger)
    ensures Verifies(hash, AppendAll(hash, ledger, entries)) && Numbered(AppendAll(hash, ledger, entries))
    decreases |entries|
  {
    if entries != [] {
      AppendVerifies(hash, ledger, entries[0].request, entries[0].timestamp);
      var l := ledger + [NewBlock(hash, ledger, entries[0].request, entries[0].timestamp)];
      AppendAllVerifies(hash, l, entries[1..]);
    }
  }

  /** An intact ledger stays intact through any run, and the verifier never reports anything. */
  lemma {:induction false} IntactRunsStayQuiet(hash: Hash, w: Watch, actions: seq<Action>)
    requires Verifies(hash, w.ledger) && Numbered(w.ledger)
    ensures var w' := Run(hash, w, actions);
      && Verifies(hash, w'.ledger) && Numbered(w'.ledger) && w.ledger <= w'.ledger
      && |w'.ledger| == |w.ledger| + Requested(actions)
      && w'.failures == w.failures && w'.runs == w.runs + Ticks(actions)
      && (NoForgedReports(actions) ==> Reports(w'.ledger) == Reports(w.ledger))
    decreases |actions|
  {
    if actions != [] {
      var entries := match actions[0] case Append(e) => [e] case Tick(m, _) => m;
      AppendAllVerifies(hash, w.ledger, entries);
      AppendAllExtends(hash, w.ledger, entries);
      VerifiesIffNoFault(hash, w.ledger);
      IntactRunsStayQuiet(hash, Act(hash, w, actions[0]), actions[1..]);
    }
  }

  lemma AppendAllKeepsFault(hash: Hash, ledger: seq<Block>, entries: seq<Entry>)
    requires FirstFault(hash, ledger) < |ledger|
    ensures FirstFault(hash, AppendAll(hash, ledger, entries)) == FirstFault(hash, ledger)
  {
    AppendAllExtends(hash, ledger, entries);
    var l := AppendAll(hash, ledger, entries);
    assert l == ledger + l[|ledger|..];
    FaultNeverHeals(hash, ledger, l[|ledger|..]);
  }

  /** What a faulty ledger keeps while blocks pile up on it: its first fault and the verifier's message. */
  ghost predicate SameFault(hash: Hash, ledger: seq<Block>, later: seq<Block>)
  {
    && ledger <= later
    && FirstFault(hash, later) == FirstFault(hash, ledger) < |ledger|
    && VerificationOf(hash, later).error == VerificationOf(hash, ledger).error
  }

  lemma AppendAllSameFault(hash: Hash, ledger: seq<Block>, entries: seq<Entry>)
    requires FirstFault(hash, ledger) < |ledger|
    ensures SameFault(hash, ledger, AppendAll(hash, ledger, entries))
  {
    AppendAllExtends(hash, ledger, entries);
    AppendAllKeepsFault(hash, ledger, entries);
    var l, r := AppendAll(hash, ledger, entries), FirstFault(hash, ledger);
    assert l[..r] == ledger[..r];
  }

  lemma FaultyTick(hash: Hash, w: Watch, meantime: seq<Entry>, now: string)
    requires FirstFault(hash, w.ledger) < |w.ledger|
    ensures var w' := Act(hash, w, Tick(meantime, now));
      && SameFault(hash, w.ledger, w'.ledger)
      && w'.failures == w.failures + 1 && w'.runs == w.runs + 1
      && |w'.ledger| == |w.ledger| + |meantime| + 1
      && (NoForgedReport(meantime) ==> Reports(w'.ledger) == Reports(w.ledger) + 1)
  {
    var result := VerificationOf(hash, w.ledger);
    var busy := AppendAll(hash, w.ledger, meantime);
    AppendAllSameFault(hash, w.ledger, meantime);
    AppendAllExtends(hash, w.ledger, meantime);
    AppendAllSameFault(hash, busy, [Entry(FailureRequest(result), now)]);
    AppendAllExtends(hash, busy, [Entry(FailureRequest(result), now)]);
    ReportAppended(hash, busy, result, now);
  }

  lemma FaultyStep(hash: Hash, w: Watch, a: Action)
    requires FirstFault(hash, w.ledger) < |w.ledger|
    ensures var w' := Act(hash, w, a);
      && SameFault(hash, w.ledger, w'.ledger)
      && w'.failures == w.failures + Ticks([a]) && w'.runs == w.runs + Ticks([a])
      && |w'.ledger| == |w.ledger| + Requested([a]) + Ticks([a])
      && (NoForgedReports([a]) ==> Reports(w'.ledger) == Reports(w.ledger) + Ticks([a]))
  {
    match a
    case Append(e) =>
      assert NoForgedReports([a]) ==> NoForgedReport([e]) by { assert [a][0] == a; }
      AppendAllExtends(hash, w.ledger, [e]);
      AppendAllSameFault(hash, w.ledger, [e]);
    case Tick(meantime, now) =>
      assert NoForgedReports([a]) ==> NoForgedReport(meantime) by { assert [a][0] == a; }
      FaultyTick(hash, w, meantime, now);
  }

  /** A fault never heals and never goes unreported: through any run the first bad block and the message
      stay the same, and every tick fails and adds exactly one report. */
  lemma {:induction false} FaultyRunsKeepReporting(hash: Hash, w: Watch, actions: seq<Action>)
    requires FirstFault(hash, w.ledger) < |w.ledger|
    ensures var w' := Run(hash, w, actions);
      && SameFault(hash, w.ledger, w'.ledger)
      && w'.failures == w.failures + Ticks(actions) && w'.runs == w.runs + Ticks(actions)
      && |w'.ledger| == |w.ledger| + Requested(actions) + Ticks(actions)
      && (NoForgedReports(actions) ==> Reports(w'.ledger) == Reports(w.ledger) + Ticks(actions))
    decreases |actions|
  {
    if actions != [] {
      assert NoForgedReports(actions) ==> NoForgedReports([actions[0]]) && NoForgedReports(actions[1..]);
      FaultyStep(hash, w, actions[0]);
      FaultyRunsKeepReporting(hash, Act(hash, w, actions[0]), actions[1..]);
    }
  }

  lemma AppendOne(hash: Hash, ledger: seq<Block>, e: Entry)
    ensures AppendAll(hash, ledger, [e]) == ledger + [NewBlock(hash, ledger, e.request, e.timestamp)]
  {
    assert [e][1..] == [];
  }

  // ---------------------------------------------------------------- the endpoints

  function Stamped(peer: Peer, now: string): Peer
  {
    peer.(status := Online, lastHeartbeat := now)
  }

  /** An endpoint: its change to the peers, whatever others do before it gets the lock again, and its block. */
  function Endpoint(
      hash: Hash, st: Store, change: Effect, meantime: seq<Effect>, request: AppendRequest, stamped: string): Store
  {
    Apply(hash, ApplyFrom(hash, Apply(hash, st, change), meantime), Appended(request, stamped))
  }

  /** One store after another: the same peers, and one more block, which answers a request. */
  ghost predicate AddsOneBlock(hash: Hash, before: Store, after: Store, request: AppendRequest)
  {
    && after.peers == before.peers && |after.ledger| == |before.ledger| + 1
    && after.ledger[..|before.ledger|] == before.ledger && Answers(hash, request, after.ledger[|before.ledger|])
  }

  class RegistryApp {
    const store: InMemoryRegistryStore
    var runs: nat
    var failures: nat

    constructor (store: InMemoryRegistryStore)
      ensures this.store == store && runs == 0 && failures == 0
    {
      this.store, runs, failures := store, 0, 0;
    }

    function State(): Watch
      reads this, store
    {
      Watch(store.ledger, runs, failures)
    }

    /** POST /registry/peers; `meantime` is what other threads do to the store between its two calls. */
    method RegisterPeer(peer: Peer, now: string, meantime: seq<Effect>, stamped: string) returns (registered: Peer)
      requires store.Valid()
      modifies store
      ensures store.Valid() && registered == Stamped(peer, now)
      ensures store.Contents() == Endpoint(store.hash, old(store.Contents()),
        Upserted(peer, now), meantime, RegisteredRequest(registered), stamped)
      ensures var stored := Store(Upsert(old(store.peers), peer, now), old(store.ledger));
        AddsOneBlock(store.hash, ApplyFrom(store.hash, stored, meantime), store.Contents(),
                     RegisteredRequest(registered))
    {
      hide Upsert, BeatPeers, NewBlock, ApplyFrom, BlockText, Dumps, RegisteredRequest;
      registered := store.UpsertPeer(peer, now);
      store.Perform(meantime);
      var _ := store.AppendBlock(RegisteredRequest(registered), stamped);
    }

    /** POST /registry/peers/{node_id}/heartbeat; None is the 404 answer. */
    method PeerHeartbeat(nodeId: string, heartbeat: PeerHeartbeat, meantime: seq<Effect>, stamped: string)
      returns (updated: Option<Peer>)
      requires store.Valid()
      modifies store
      ensures store.Valid()
      ensures updated.None? <==> Get(old(store.peers), nodeId).None?
      ensures updated.Some? ==>
        var before := Get(old(store.peers), nodeId).value;
        updated.value == before.(status := heartbeat.status, lastHeartbeat := heartbeat.observedAt)
      ensures updated.None? ==> store.Contents() == old(store.Contents())
      ensures updated.Some? ==> store.Contents() == Endpoint(store.hash, old(store.Contents()),
        Beaten(nodeId, heartbeat), meantime, HeartbeatRequest(nodeId, heartbeat), stamped)
      ensures updated.Some? ==>
        var beaten := Store(BeatPeers(old(store.peers), nodeId, heartbeat), old(store.ledger));
        AddsOneBlock(store.hash, ApplyFrom(store.hash, beaten, meantime), store.Contents(),
                     HeartbeatRequest(nodeId, heartbeat))
    {
      hide Upsert, BeatPeers, NewBlock, ApplyFrom, BlockText, Dumps, Get, HeartbeatRequest;
      updated := store.Heartbeat(nodeId, heartbeat);
      if updated.None? {
        return;
      }
      store.Perform(meantime);
      var _ := store.AppendBlock(HeartbeatRequest(nodeId, heartbeat), stamped);
    }

    /** One round of the background verifier; `meantime` is what others append between its check and its report. */
    method VerifierTick(meantime: seq<Entry>, now: string)
      requires store.Valid()
      modifies this, store
      ensures store.Valid() && store.peers == old(store.peers)
      ensures State() == Act(store.hash, old(State()), Tick(meantime, now))
    {
      hide NewBlock, VerificationOf, FirstFault, Verifies, BlockText, Dumps, Number, FailureRequest, AppendAll;
      var result := store.VerifyLedger();
      runs := runs + 1;
      AppendEntries(meantime);
      if !result.valid {
        failures := failures + 1;
        AppendOne(store.hash, store.ledger, Entry(FailureRequest(result), now));
        var _ := store.AppendBlock(FailureRequest(result), now);
      }
    }

    method AppendEntries(entries: seq<Entry>)
      requires store.Valid()
      modifies store
      ensures store.Valid() && store.peers == old(store.peers)
      ensures store.ledger == AppendAll(store.hash, old(store.ledger), entries)
    {
      hide NewBlock, BlockText, Dumps;
      for i := 0 to |entries|
        invariant store.Valid() && store.peers == old(store.peers)
        invariant store.ledger == AppendAll(store.hash, old(store.ledger), entries[..i])
      {
        assert entries[..i + 1] == entries[..i] + [entries[i]];
        AppendAllPush(store.hash, old(store.ledger), entries[..i], entries[i]);
        var _ := store.AppendBlock(entries[i].request, entries[i].timestamp);
      }
      assert entries[..|entries|] == entries;
    }
  }
}
