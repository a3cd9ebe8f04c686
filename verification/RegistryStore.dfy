/** The registry's state: the peers by node id and the ledger, both rewritten to disk on every change. */
module RegistryStore {
  import opened Base
  import opened CanonicalJson
  import opened Ledger
  import opened LedgerProofs

  datatype PeerStatus = Online | Stale | Offline

  datatype Peer = Peer(
    nodeId: string, nodeType: string, cloud: string, baseUrl: string,
    capabilities: seq<string>, status: PeerStatus, lastHeartbeat: string, metadata: Json)

  datatype PeerHeartbeat = PeerHeartbeat(status: PeerStatus, observedAt: string)

  datatype Verification = Verification(valid: bool, blockCount: nat, error: Option<string>)

  /** The contents of peers.json and ledger.json; a file may not exist yet. */
  datatype Files = Files(peers: Option<seq<Peer>>, ledger: Option<seq<Block>>)

  // ---------------------------------------------------------------- peers

  function Upsert(peers: Dict<Peer>, peer: Peer, now: string): Dict<Peer>
  {
    Put(peers, peer.nodeId, peer.(status := Online, lastHeartbeat := now))
  }

  function Beat(peer: Peer, heartbeat: PeerHeartbeat): Peer
  {
    peer.(status := heartbeat.status, lastHeartbeat := heartbeat.observedAt)
  }

  /** The peers after a heartbeat for a node; an unknown node changes nothing. */
  function BeatPeers(peers: Dict<Peer>, nodeId: string, heartbeat: PeerHeartbeat): Dict<Peer>
  {
    match Get(peers, nodeId)
    case None => peers
    case Some(peer) => Put(peers, nodeId, Beat(peer, heartbeat))
  }

  /** Every record stands under its own node id, once. */
  ghost predicate Keyed(peers: Dict<Peer>)
  {
    DistinctKeys(peers) && forall i :: 0 <= i < |peers| ==> peers[i].1.nodeId == peers[i].0
  }

  lemma UpsertKeyed(peers: Dict<Peer>, peer: Peer, now: string)
    requires Keyed(peers)
    ensures Keyed(Upsert(peers, peer, now))
  {
    PutAt(peers, peer.nodeId, peer.(status := Online, lastHeartbeat := now));
  }

  lemma BeatKeyed(peers: Dict<Peer>, nodeId: string, heartbeat: PeerHeartbeat)
    requires Keyed(peers)
    ensures Keyed(BeatPeers(peers, nodeId, heartbeat))
  {
    GetIsSlot(peers, nodeId);
    if Get(peers, nodeId).Some? {
      PutAt(peers, nodeId, Beat(Get(peers, nodeId).value, heartbeat));
    }
  }

  /** Everything about a peer but its status and the time of its heartbeat. */
  function Undated(peer: Peer): Peer
  {
    peer.(status := Online, lastHeartbeat := "")
  }

  ghost predicate SameUndated(records: seq<Peer>, others: seq<Peer>)
  {
    |records| == |others| && forall i :: 0 <= i < |records| ==> Undated(records[i]) == Undated(others[i])
  }

  /** A heartbeat sets the status and the time of one record, and touches nothing else of it and no other record. */
  lemma BeatFrame(peers: Dict<Peer>, nodeId: string, heartbeat: PeerHeartbeat)
    ensures var after := BeatPeers(peers, nodeId, heartbeat);
      && |after| == |peers| && SameUndated(Values(after), Values(peers))
      && forall i :: 0 <= i < |peers| ==>
        && after[i].0 == peers[i].0
        && (i != Slot(peers, nodeId) ==> after[i] == peers[i])
        && (i == Slot(peers, nodeId) ==>
              after[i].1.status == heartbeat.status && after[i].1.lastHeartbeat == heartbeat.observedAt)
  {
    GetIsSlot(peers, nodeId);
    if Get(peers, nodeId).Some? {
      PutAt(peers, nodeId, Beat(Get(peers, nodeId).value, heartbeat));
    }
  }

  /** Any heartbeats, one after another. */
  function BeatAll(peers: Dict<Peer>, beats: seq<(string, PeerHeartbeat)>): Dict<Peer>
  {
    if beats == [] then peers
    else
      var (nodeId, heartbeat) := beats[|beats| - 1];
      BeatPeers(BeatAll(peers, beats[..|beats| - 1]), nodeId, heartbeat)
  }

  lemma {:induction false} BeatsFrame(peers: Dict<Peer>, beats: seq<(string, PeerHeartbeat)>)
    ensures SameUndated(Values(BeatAll(peers, beats)), Values(peers))
  {
    if beats != [] {
      var (nodeId, heartbeat) := beats[|beats| - 1];
      hide BeatPeers, Undated;
      BeatsFrame(peers, beats[..|beats| - 1]);
      BeatFrame(BeatAll(peers, beats[..|beats| - 1]), nodeId, heartbeat);
    }
  }

  /** The status a reader is shown: a matter of heartbeat age alone. */
  function StatusAt(age: real): PeerStatus
  {
    if age > 180.0 then Offline else if age > 90.0 then Stale else Online
  }

  function Age(last: real, now: real): real
  {
    if now - last > 0.0 then now - last else 0.0
  }

  // ---------------------------------------------------------------- files

  /** Rebuilds the dictionary from the records of a file; a later record wins its key. */
  function FromRecords(records: seq<Peer>): Dict<Peer>
  {
    if records == [] then []
    else
      var last := records[|records| - 1];
      Put(FromRecords(records[..|records| - 1]), last.nodeId, last)
  }

  function LoadPeers(files: Files): Dict<Peer>
  {
    if files.peers.Some? then FromRecords(files.peers.value) else []
  }

  function LoadLedger(files: Files): seq<Block>
  {
    if files.ledger.Some? then files.ledger.value else []
  }

  function SavedFiles(peers: Dict<Peer>, ledger: seq<Block>): Files
  {
    Files(Some(Values(peers)), Some(ledger))
  }

  /** Saving and loading gives back the peers, in order and each under its own node id. */
  lemma {:induction false} PeersRoundTrip(peers: Dict<Peer>)
    requires Keyed(peers)
    ensures FromRecords(Values(peers)) == peers
  {
    if peers != [] {
      var n := |peers| - 1;
      var init, last := peers[..n], peers[n];
      assert Values(peers)[..n] == Values(init);
      PeersRoundTrip(init);
      PutAt(init, last.0, last.1);
      assert peers == init + [last];
    }
  }

  lemma LoadAfterSave(peers: Dict<Peer>, ledger: seq<Block>)
    requires Keyed(peers)
    ensures LoadPeers(SavedFiles(peers, ledger)) == peers
    ensures LoadLedger(SavedFiles(peers, ledger)) == ledger
  {
    PeersRoundTrip(peers);
  }

  lemma {:induction false} LoadedPeersAreKeyed(records: seq<Peer>)
    ensures Keyed(FromRecords(records))
  {
    if records != [] {
      var last := records[|records| - 1];
      LoadedPeersAreKeyed(records[..|records| - 1]);
      PutAt(FromRecords(records[..|records| - 1]), last.nodeId, last);
    }
  }

  /** Record `i` is the last one with an id. */
  ghost predicate IsLatest(records: seq<Peer>, nodeId: string, i: nat)
  {
    i < |records| && records[i].nodeId == nodeId && forall j :: i < j < |records| ==> records[j].nodeId != nodeId
  }

  /** Of several records with one id the last one counts. */
  lemma {:induction false} LoadedIsLatest(records: seq<Peer>, nodeId: string)
    ensures match Get(FromRecords(records), nodeId)
      case None => forall i :: 0 <= i < |records| ==> records[i].nodeId != nodeId
      case Some(p) => exists i: nat :: IsLatest(records, nodeId, i) && records[i] == p
  {
    NothingThere(nodeId);
    if records != [] {
      hide Get, Put;
      var n := |records| - 1;
      LoadedIsLatest(records[..n], nodeId);
      GetPut(FromRecords(records[..n]), records[n].nodeId, records[n], nodeId);
      if records[n].nodeId == nodeId {
        assert IsLatest(records, nodeId, n);
      } else if Get(FromRecords(records[..n]), nodeId).Some? {
        var p := Get(FromRecords(records[..n]), nodeId).value;
        var i: nat :| IsLatest(records[..n], nodeId, i) && records[..n][i] == p;
        assert IsLatest(records, nodeId, i);
      }
    }
  }

  lemma NothingThere(nodeId: string)
    ensures Get<Peer>([], nodeId) == None
  {
  }

  // ---------------------------------------------------------------- verification

  function VerificationOf(hash: Hash, ledger: seq<Block>): Verification
  {
    var r := FirstFault(hash, ledger);
    if r == |ledger| then Verification(true, |ledger|, None)
    else Verification(false, |ledger|, Some(FaultText(Tip(ledger[..r]), ledger[r])))
  }

  // ---------------------------------------------------------------- operations in sequence

  /** What a store holds. */
  datatype Store = Store(peers: Dict<Peer>, ledger: seq<Block>)

  /** A change to a store, with the time it was made at. */
  datatype Effect =
    | Appended(request: AppendRequest, timestamp: string)
    | Upserted(peer: Peer, now: string)
    | Beaten(nodeId: string, heartbeat: PeerHeartbeat)

  function Apply(hash: Hash, st: Store, e: Effect): Store
  {
    match e
    case Appended(request, timestamp) => st.(ledger := st.ledger + [NewBlock(hash, st.ledger, request, timestamp)])
    case Upserted(peer, now) => st.(peers := Upsert(st.peers, peer, now))
    case Beaten(nodeId, heartbeat) => st.(peers := BeatPeers(st.peers, nodeId, heartbeat))
  }

  function ApplyFrom(hash: Hash, st: Store, effects: seq<Effect>): Store
  {
    if effects == [] then st else Apply(hash, ApplyFrom(hash, st, Earlier(effects)), effects[|effects| - 1])
  }

  /** All effects but the latest. */
  function Earlier(effects: seq<Effect>): seq<Effect>
    requires effects != []
  {
    effects[..|effects| - 1]
  }

  /** The store. Its lock makes every method one atomic step; `hash` and the ISO parser are given. */
  class InMemoryRegistryStore {
    const hash: Hash
    const seconds: string -> real
    const persistent: bool
    var peers: Dict<Peer>
    var ledger: seq<Block>
    var files: Files

    function Contents(): Store
      reads this
    {
      Store(peers, ledger)
    }

    /** What every method relies on and keeps: the files, if any, reload to the state in memory. */
    ghost predicate Valid()
      reads this
    {
      Keyed(peers) && (persistent ==> LoadPeers(files) == peers && LoadLedger(files) == ledger)
    }

    constructor (hash: Hash, seconds: string -> real, persistent: bool, files: Files)
      ensures Valid() && this.hash == hash && this.seconds == seconds && this.persistent == persistent
      ensures this.files == files
      ensures persistent ==> peers == LoadPeers(files) && ledger == LoadLedger(files)
      ensures !persistent ==> peers == [] && ledger == []
    {
      this.hash, this.seconds, this.persistent, this.files := hash, seconds, persistent, files;
      peers := if persistent then LoadPeers(files) else [];
      ledger := if persistent then LoadLedger(files) else [];
      new;
      if files.peers.Some? { LoadedPeersAreKeyed(files.peers.value); }
    }

    method SaveState()
      requires Keyed(peers)
      modifies this`files
      ensures Valid() && files == if persistent then SavedFiles(peers, ledger) else old(files)
    {
      if persistent {
        files := Files(Some(Values(peers)), files.ledger);
        files := Files(files.peers, Some(ledger));
        LoadAfterSave(peers, ledger);
      }
    }

    method UpsertPeer(peer: Peer, now: string) returns (normalized: Peer)
      requires Valid()
      modifies this
      ensures Valid() && normalized == peer.(status := Online, lastHeartbeat := now)
      ensures peers == Upsert(old(peers), peer, now) && ledger == old(ledger)
      ensures !persistent ==> files == old(files)
    {
      normalized := peer.(status := Online, lastHeartbeat := now);
      UpsertKeyed(peers, peer, now);
      peers := Put(peers, peer.nodeId, normalized);
      SaveState();
    }

    method Heartbeat(nodeId: string, heartbeat: PeerHeartbeat) returns (updated: Option<Peer>)
      requires Valid()
      modifies this
      ensures Valid() && ledger == old(ledger)
      ensures updated.None? <==> Get(old(peers), nodeId).None?
      ensures updated.None? ==> peers == old(peers)
      ensures updated.Some? ==>
        var before := Get(old(peers), nodeId).value;
        updated.value == before.(status := heartbeat.status, lastHeartbeat := heartbeat.observedAt)
      ensures updated.Some? ==> Get(peers, nodeId) == updated
      ensures peers == BeatPeers(old(peers), nodeId, heartbeat)
      ensures !persistent ==> files == old(files)
    {
      var peer := Get(peers, nodeId);
      if peer.None? {
        return None;
      }
      BeatKeyed(peers, nodeId, heartbeat);
      updated := Some(peer.value.(status := heartbeat.status, lastHeartbeat := heartbeat.observedAt));
      GetPut(peers, nodeId, updated.value, nodeId);
      peers := Put(peers, nodeId, updated.value);
      SaveState();
    }

    function WithFreshStatus(peer: Peer, now: real): Peer
    {
      peer.(status := StatusAt(Age(seconds(peer.lastHeartbeat), now)))
    }

    /** What a reader is shown of a record: all of it as it is, and the status its age calls for. */
    lemma FreshStatusMeans(peer: Peer, now: real)
      ensures var shown := WithFreshStatus(peer, now); var age := now - seconds(peer.lastHeartbeat);
        && Undated(shown) == Undated(peer) && shown.lastHeartbeat == peer.lastHeartbeat
        && (shown.status == Online <==> age <= 90.0)
        && (shown.status == Stale <==> 90.0 < age <= 180.0)
        && (shown.status == Offline <==> 180.0 < age)
    {
    }

    /** Discovery: every peer that declares the capability, in registration order and whatever its age;
        only the reported status is refreshed. */
    method PeersWithCapability(capability: string, now: real) returns (matching: seq<Peer>)
      ensures matching == Matching(Values(peers), capability, now)
    {
      matching := [];
      var records := Values(peers);
      for i := 0 to |records|
        invariant matching == Matching(records[..i], capability, now)
      {
        assert records[..i + 1][..i] == records[..i];
        if capability in records[i].capabilities {
          matching := matching + [WithFreshStatus(records[i], now)];
        }
      }
      assert records[..|records|] == records;
    }

    function Matching(records: seq<Peer>, capability: string, now: real): seq<Peer>
    {
      if records == [] then []
      else
        var n := |records| - 1;
        Matching(records[..n], capability, now) +
        (if capability in records[n].capabilities then [WithFreshStatus(records[n], now)] else [])
    }

    /** Discovery goes through the records in order. */
    lemma {:induction false} MatchingSplits(records: seq<Peer>, more: seq<Peer>, capability: string, now: real)
      ensures Matching(records + more, capability, now) ==
              Matching(records, capability, now) + Matching(more, capability, now)
    {
      if more == [] {
        assert records + more == records;
      } else {
        var n := |more| - 1;
        assert (records + more)[..|records| + n] == records + more[..n];
        MatchingSplits(records, more[..n], capability, now);
      }
    }

    lemma SameCapabilities(peer: Peer, other: Peer, now: real)
      requires Undated(peer) == Undated(other)
      ensures peer.capabilities == other.capabilities
      ensures Undated(WithFreshStatus(peer, now)) == Undated(WithFreshStatus(other, now))
    {
      assert Undated(peer).capabilities == Undated(other).capabilities;
    }

    lemma {:induction false} UndatedMatching(records: seq<Peer>, others: seq<Peer>, capability: string, now: real)
      requires SameUndated(records, others)
      ensures SameUndated(Matching(records, capability, now), Matching(others, capability, now))
    {
      if records != [] {
        hide Undated, StatusAt, Age;
        var n := |records| - 1;
        SameCapabilities(records[n], others[n], now);
        UndatedMatching(records[..n], others[..n], capability, now);
      }
    }

    /** Heartbeats never change whom discovery finds: whatever their number, order, senders and contents, it returns the
        same records in the same order but for status and time. */
    lemma BeatsKeepDiscovery(
        peers: Dict<Peer>, beats: seq<(string, PeerHeartbeat)>, capability: string, before: real, now: real)
      ensures SameUndated(Matching(Values(BeatAll(peers, beats)), capability, now),
                          Matching(Values(peers), capability, before))
    {
      BeatsFrame(peers, beats);
      UndatedMatching(Values(BeatAll(peers, beats)), Values(peers), capability, now);
      MatchingAnyTime(Values(peers), capability, now, before);
    }

    lemma {:induction false} MatchingAnyTime(records: seq<Peer>, capability: string, now: real, before: real)
      ensures SameUndated(Matching(records, capability, now), Matching(records, capability, before))
    {
      if records != [] {
        MatchingAnyTime(records[..|records| - 1], capability, now, before);
      }
    }

    /** A record that declares a capability, as a reader is shown it. */
    ghost predicate Shown(records: seq<Peer>, capability: string, now: real, i: nat, p: Peer)
    {
      i < |records| && capability in records[i].capabilities && p == WithFreshStatus(records[i], now)
    }

    /** Discovery returns the peers that declare the capability and no others, the stale and offline ones included. */
    lemma {:induction false} DiscoveryIsByCapabilityAlone(records: seq<Peer>, capability: string, now: real)
      ensures forall i :: 0 <= i < |records| && capability in records[i].capabilities ==>
        WithFreshStatus(records[i], now) in Matching(records, capability, now)
      ensures forall p :: p in Matching(records, capability, now) ==> exists i :: Shown(records, capability, now, i, p)
    {
      if records != [] {
        var n := |records| - 1;
        DiscoveryIsByCapabilityAlone(records[..n], capability, now);
        assert forall i :: 0 <= i < n ==> records[..n][i] == records[i];
        forall p | p in Matching(records, capability, now) ensures exists i :: Shown(records, capability, now, i, p) {
          if p in Matching(records[..n], capability, now) {
            var i :| Shown(records[..n], capability, now, i, p);
            assert Shown(records, capability, now, i, p);
          } else {
            assert Shown(records, capability, now, n, p);
          }
        }
      }
    }

    /** Discovery shows only online peers exactly when every peer that declares the capability was heard of within
        the last 90 seconds. */
    lemma DiscoveryIsOnlineIff(records: seq<Peer>, capability: string, now: real)
      ensures
        (forall p :: p in Matching(records, capability, now) ==> p.status == Online) <==>
        (forall i :: 0 <= i < |records| && capability in records[i].capabilities ==>
          now - seconds(records[i].lastHeartbeat) <= 90.0)
    {
      DiscoveryIsByCapabilityAlone(records, capability, now);
      forall i | 0 <= i < |records| && capability in records[i].capabilities
        ensures WithFreshStatus(records[i], now).status == Online <==> now - seconds(records[i].lastHeartbeat) <= 90.0
        ensures WithFreshStatus(records[i], now) in Matching(records, capability, now)
      {
      }
    }

    /** And it can fail: a peer silent for 200 seconds is still returned, and shown as offline. */
    lemma OfflinePeerIsDiscovered(lastHeartbeat: string)
      ensures var peer := Peer("azure-anomaly-01", "anomaly", "azure", "http://azure-anomaly:8002",
                               ["detect_anomalies"], Online, lastHeartbeat, Obj([]));
        Matching([peer], "detect_anomalies", seconds(lastHeartbeat) + 200.0) == [peer.(status := Offline)]
    {
      var peer := Peer("azure-anomaly-01", "anomaly", "azure", "http://azure-anomaly:8002",
                       ["detect_anomalies"], Online, lastHeartbeat, Obj([]));
      var now := seconds(lastHeartbeat) + 200.0;
      assert [peer][..0] == [];
      assert Matching([peer], "detect_anomalies", now) ==
             Matching([], "detect_anomalies", now) + [WithFreshStatus(peer, now)];
    }

    method AppendBlock(request: AppendRequest, now: string) returns (block: Block)
      requires Valid()
      modifies this
      ensures Valid() && peers == old(peers)
      ensures block == NewBlock(hash, old(ledger), request, now)
      ensures ledger == old(ledger) + [block]
      ensures block.blockId == |old(ledger)| + 1 && block.timestamp == now
      ensures block.eventType == request.eventType && block.actorNode == request.actorNode
      ensures block.payloadHash == "sha256:" + hash(Dumps(request.payload))
      ensures block.previousHash == if old(ledger) == [] then None else Some(old(ledger)[|old(ledger)| - 1].blockHash)
      ensures block.blockHash == "sha256:" + hash(BlockText(block))
      ensures !persistent ==> files == old(files)
    {
      var previous := if ledger == [] then None else Some(ledger[|ledger| - 1].blockHash);
      block := Block(
        |ledger| + 1, now, request.eventType, request.actorNode, HashJson(hash, request.payload), previous, "");
      BlockHashIs(hash, block);
      block := block.(blockHash := BlockHash(hash, block));
      ledger := ledger + [block];
      SaveState();
    }

    method VerifyLedger() returns (result: Verification)
      ensures result == VerificationOf(hash, ledger)
      ensures result.valid <==> Verifies(hash, ledger)
      ensures result.blockCount == |ledger| && (result.valid ==> result.error == None)
      ensures !result.valid ==> var r := FirstFault(hash, ledger);
        && r < |ledger|
        && result.error == Some("block " + Number(ledger[r].blockId) +
             if ledger[r].previousHash != (if r == 0 then None else Some(ledger[r - 1].blockHash))
             then " has invalid previous_hash" else " hash mismatch")
    {
      var previous: Option<string> := None;
      for i := 0 to |ledger|
        invariant previous == Tip(ledger[..i])
        invariant forall k :: 0 <= k < i ==> BlockOk(hash, ledger, k)
      {
        var block := ledger[i];
        var expected := BlockHash(hash, block);
        if block.previousHash != previous {
          FirstFaultIs(hash, ledger, i);
          assert !BlockOk(hash, ledger, i);
          return Verification(false, |ledger|, Some("block " + Number(block.blockId) + " has invalid previous_hash"));
        }
        if block.blockHash != expected {
          FirstFaultIs(hash, ledger, i);
          assert !BlockOk(hash, ledger, i);
          return Verification(false, |ledger|, Some("block " + Number(block.blockId) + " hash mismatch"));
        }
        previous := Some(block.blockHash);
        assert ledger[..i + 1][i] == block;
      }
      FirstFaultIs(hash, ledger, |ledger|);
      return Verification(true, |ledger|, None);
    }

    /** Any calls in sequence, as other threads make them between two calls of one. */
    method Perform(effects: seq<Effect>)
      requires Valid()
      modifies this
      ensures Valid() && Contents() == ApplyFrom(hash, old(Contents()), effects)
      ensures !persistent ==> files == old(files)
    {
      hide Upsert, BeatPeers, NewBlock, Valid, BlockText, Dumps, Get;
      for i := 0 to |effects|
        invariant Valid() && Contents() == ApplyFrom(hash, old(Contents()), effects[..i])
        invariant !persistent ==> files == old(files)
      {
        assert Earlier(effects[..i + 1]) == effects[..i];
        match effects[i]
        case Appended(request, timestamp) => var _ := AppendBlock(request, timestamp);
        case Upserted(peer, now) => var _ := UpsertPeer(peer, now);
        case Beaten(nodeId, heartbeat) => var _ := Heartbeat(nodeId, heartbeat);
      }
      assert effects[..|effects|] == effects;
    }
  }
}
