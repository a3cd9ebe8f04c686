/** The two endpoints that change peers, run by many threads: each changes the peers under one lock acquisition and
    records the change under another, so the two can drift apart, but only so far. By `StoreRefinement` an operation on
    the store is one step; one that a crash cuts off before its files are replaced has not happened. */
module EndpointRuns {
  import opened Base
  import opened Ledger
  import opened LedgerProofs
  import opened RegistryStore
  import opened RegistryService

  datatype Call = Registration(peer: Peer, now: string) | Heartbeat(nodeId: string, heartbeat: PeerHeartbeat)

  /** The store, the block each thread still has to append, every block that was ever due, those a crash cost. */
  datatype Registry = Registry(
    store: Store, pending: map<nat, AppendRequest>, due: seq<AppendRequest>, lost: nat, crashes: nat)

  /** A thread changes a peer, or appends the block for it; someone else appends; the process dies and restarts. */
  datatype Action =
    | Begin(caller: nat, call: Call)
    | Finish(finisher: nat, stamped: string)
    | Other(entry: Entry)
    | Crash

  function Fresh(): Registry
  {
    Registry(Store([], []), map[], [], 0, 0)
  }

  function Change(call: Call): Effect
  {
    match call
    case Registration(peer, now) => Upserted(peer, now)
    case Heartbeat(nodeId, heartbeat) => Beaten(nodeId, heartbeat)
  }

  function Due(call: Call): AppendRequest
  {
    match call
    case Registration(peer, now) => RegisteredRequest(Stamped(peer, now))
    case Heartbeat(nodeId, heartbeat) => HeartbeatRequest(nodeId, heartbeat)
  }

  /** A heartbeat for an unknown peer changes nothing and is not recorded. */
  predicate Accepted(peers: Dict<Peer>, call: Call)
  {
    call.Heartbeat? ==> Get(peers, call.nodeId).Some?
  }

  function Next(hash: Hash, tids: set<nat>, s: Registry, a: Action): Registry
  {
    match a
    case Begin(t, call) =>
      if t in tids && t !in s.pending && Accepted(s.store.peers, call)
      then s.(store := Apply(hash, s.store, Change(call)),
              pending := s.pending[t := Due(call)], due := s.due + [Due(call)])
      else s
    case Finish(t, stamped) =>
      if t in s.pending
      then s.(store := Apply(hash, s.store, Appended(s.pending[t], stamped)), pending := s.pending - {t})
      else s
    case Other(e) => s.(store := Apply(hash, s.store, Appended(e.request, e.timestamp)))
    case Crash => s.(pending := map[], lost := s.lost + |s.pending|, crashes := s.crashes + 1)
  }

  function Run(hash: Hash, tids: set<nat>, s: Registry, actions: seq<Action>): Registry
    decreases |actions|
  {
    if actions == [] then s else Run(hash, tids, Next(hash, tids, s, actions[0]), actions[1..])
  }

  predicate OfEndpoint(eventType: string)
  {
    eventType == "peer_registered" || eventType == "peer_heartbeat"
  }

  /** The blocks of the two endpoints. */
  function Recorded(ledger: seq<Block>): nat
  {
    if ledger == [] then 0
    else Recorded(ledger[..|ledger| - 1]) + if OfEndpoint(ledger[|ledger| - 1].eventType) then 1 else 0
  }

  /** Other clients do not pass their blocks off as those of the endpoints. */
  ghost predicate NoneForged(actions: seq<Action>)
  {
    forall i :: 0 <= i < |actions| && actions[i].Other? ==> !OfEndpoint(actions[i].entry.request.eventType)
  }

  ghost predicate WasDue(hash: Hash, due: seq<AppendRequest>, b: Block)
  {
    exists i :: 0 <= i < |due| && Answers(hash, due[i], b)
  }

  ghost predicate BlocksWereDue(hash: Hash, due: seq<AppendRequest>, ledger: seq<Block>)
  {
    forall k :: 0 <= k < |ledger| && OfEndpoint(ledger[k].eventType) ==> WasDue(hash, due, ledger[k])
  }

  ghost predicate PendingWasDue(due: seq<AppendRequest>, pending: map<nat, AppendRequest>)
  {
    forall t :: t in pending ==> pending[t] in due && OfEndpoint(pending[t].eventType)
  }

  ghost predicate Inv(hash: Hash, tids: set<nat>, s: Registry)
  {
    && Verifies(hash, s.store.ledger) && Numbered(s.store.ledger) && Keyed(s.store.peers)
    && Recorded(s.store.ledger) + |s.pending| + s.lost == |s.due|
    && s.pending.Keys <= tids && s.lost <= s.crashes * |tids|
    && PendingWasDue(s.due, s.pending) && BlocksWereDue(hash, s.due, s.store.ledger)
  }

  lemma RecordedPush(ledger: seq<Block>, b: Block)
    ensures Recorded(ledger + [b]) == Recorded(ledger) + if OfEndpoint(b.eventType) then 1 else 0
  {
    assert (ledger + [b])[..|ledger|] == ledger;
  }

  lemma DueGrows(hash: Hash, due: seq<AppendRequest>, request: AppendRequest, ledger: seq<Block>)
    requires BlocksWereDue(hash, due, ledger)
    ensures BlocksWereDue(hash, due + [request], ledger)
  {
    forall k | 0 <= k < |ledger| && OfEndpoint(ledger[k].eventType) ensures WasDue(hash, due + [request], ledger[k]) {
      assert WasDue(hash, due, ledger[k]);
      var i :| 0 <= i < |due| && Answers(hash, due[i], ledger[k]);
      assert (due + [request])[i] == due[i];
    }
  }

  lemma BeginInv(hash: Hash, tids: set<nat>, s: Registry, t: nat, call: Call)
    requires Inv(hash, tids, s)
    ensures Inv(hash, tids, Next(hash, tids, s, Begin(t, call)))
  {
    hide Verifies, Numbered, Recorded, BlocksWereDue, Put, Keyed, RegisteredRequest, HeartbeatRequest;
    DueIsOfEndpoint(call);
    DueGrows(hash, s.due, Due(call), s.store.ledger);
    match call
    case Registration(peer, now) => UpsertKeyed(s.store.peers, peer, now);
    case Heartbeat(nodeId, heartbeat) => BeatKeyed(s.store.peers, nodeId, heartbeat);
  }

  lemma DueIsOfEndpoint(call: Call)
    ensures OfEndpoint(Due(call).eventType)
  {
  }

  lemma AppendInv(hash: Hash, due: seq<AppendRequest>, ledger: seq<Block>, request: AppendRequest, stamped: string)
    requires Verifies(hash, ledger) && Numbered(ledger) && BlocksWereDue(hash, due, ledger)
    requires OfEndpoint(request.eventType) ==> request in due
    ensures var l := ledger + [NewBlock(hash, ledger, request, stamped)];
      && Verifies(hash, l) && Numbered(l) && BlocksWereDue(hash, due, l)
      && Recorded(l) == Recorded(ledger) + if OfEndpoint(request.eventType) then 1 else 0
  {
    hide Verifies, Numbered, OfEndpoint, Recorded;
    var b := NewBlock(hash, ledger, request, stamped);
    AppendVerifies(hash, ledger, request, stamped);
    RecordedPush(ledger, b);
    if OfEndpoint(request.eventType) {
      var i :| 0 <= i < |due| && due[i] == request;
      assert Answers(hash, due[i], b);
    }
  }

  lemma NextInv(hash: Hash, tids: set<nat>, s: Registry, a: Action)
    requires Inv(hash, tids, s) && (a.Other? ==> !OfEndpoint(a.entry.request.eventType))
    ensures Inv(hash, tids, Next(hash, tids, s, a))
  {
    hide Verifies, Numbered, Recorded, BlocksWereDue, Keyed, OfEndpoint, NewBlock;
    match a
    case Begin(t, call) => BeginInv(hash, tids, s, t, call);
    case Finish(t, stamped) =>
      if t in s.pending {
        AppendInv(hash, s.due, s.store.ledger, s.pending[t], stamped);
        assert (s.pending - {t}).Keys == s.pending.Keys - {t};
        assert |(s.pending - {t}).Keys| == |s.pending.Keys| - 1;
      }
    case Other(e) => AppendInv(hash, s.due, s.store.ledger, e.request, e.timestamp);
    case Crash => InFlightAtMost(s.pending, tids); CrashesTimes(s.crashes, |tids|);
  }

  lemma InFlightAtMost(pending: map<nat, AppendRequest>, tids: set<nat>)
    requires pending.Keys <= tids
    ensures |pending| <= |tids|
  {
    assert |pending.Keys| == |pending|;
    SubsetSize(pending.Keys, tids);
  }

  lemma {:induction false} SubsetSize(a: set<nat>, b: set<nat>)
    requires a <= b
    ensures |a| <= |b|
  {
    assert b == a + (b - a);
  }

  lemma CrashesTimes(crashes: nat, threads: nat)
    ensures (crashes + 1) * threads == crashes * threads + threads
  {
  }

  lemma {:induction false} RunInv(hash: Hash, tids: set<nat>, s: Registry, actions: seq<Action>)
    requires Inv(hash, tids, s) && NoneForged(actions)
    ensures Inv(hash, tids, Run(hash, tids, s, actions))
    decreases |actions|
  {
    if actions != [] {
      hide Inv, Next, OfEndpoint;
      NextInv(hash, tids, s, actions[0]);
      RunInv(hash, tids, Next(hash, tids, s, actions[0]), actions[1..]);
    }
  }

  /** How far peers and ledger drift apart, over every interleaving and any crashes: each accepted call is recorded,
      or under way, or was cut off by a crash; so the blocks never outnumber the accepted calls, and lack at most one
      per thread and one more per thread and crash. Every block of an endpoint answers an accepted call. */
  lemma RecordsKeepUp(hash: Hash, tids: set<nat>, actions: seq<Action>)
    requires NoneForged(actions)
    ensures var s := Run(hash, tids, Fresh(), actions);
      && Recorded(s.store.ledger) + |s.pending| + s.lost == |s.due|
      && |s.due| - |tids| - s.crashes * |tids| <= Recorded(s.store.ledger) <= |s.due|
      && (s.pending == map[] && s.crashes == 0 ==> Recorded(s.store.ledger) == |s.due|)
      && BlocksWereDue(hash, s.due, s.store.ledger)
  {
    hide Run, Recorded;
    RecordedNothing();
    RunInv(hash, tids, Fresh(), actions);
    InFlightAtMost(Run(hash, tids, Fresh(), actions).pending, tids);
  }

  lemma RecordedNothing()
    ensures Recorded([]) == 0
  {
  }
}
