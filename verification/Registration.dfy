/** Registration and heartbeats: a peer and a registry that may lose messages, answers and its memory. */
module Registration {
  import opened Base
  import opened Ledger
  import opened RealMath
  import opened RegistryStore
  import opened RegistryService
  import opened Routing

  /** What the two sides believe: the peer's flag, and when the registry last heard of it, if it knows it. */
  datatype Link = Link(registered: bool, heard: Option<real>)

  /** One tick: register while unregistered, else send a heartbeat; any failure drops the flag. A registry
      that does not know the peer answers a heartbeat with an error. */
  function TickLink(l: Link, outcome: Attempt, now: real): Link
  {
    if outcome.RequestLost? then l.(registered := false)
    else if l.registered && l.heard.None? then l.(registered := false)
    else Link(outcome.Acknowledged?, Some(now))
  }

  class PeerRuntime {
    const registration: Peer
    var registered: bool

    constructor (registration: Peer)
      ensures this.registration == registration && !registered
    {
      this.registration, registered := registration, false;
    }

    function LinkTo(app: RegistryApp): Link
      reads this, app.store
    {
      var known := Get(app.store.peers, registration.nodeId);
      Link(registered, if known.Some? then Some(app.store.seconds(known.value.lastHeartbeat)) else None)
    }

    /** `_register_or_heartbeat` against a registry whose clock reads `now`. Other threads may work in between, as long
        as none of them speaks for this peer. */
    method RegisterOrHeartbeat(app: RegistryApp, outcome: Attempt, now: string, meantime: seq<Effect>)
      requires app.store.Valid() && Apart(meantime, registration.nodeId)
      modifies this, app.store
      ensures app.store.Valid()
      ensures LinkTo(app) == TickLink(old(LinkTo(app)), outcome, app.store.seconds(now))
      ensures var accepted := old(registered) ==> Get(old(app.store.peers), registration.nodeId).Some?;
        && (registered <==> outcome.Acknowledged? && accepted)
        && (!outcome.RequestLost? && accepted ==> HeardOf(app.store.peers, registration.nodeId, now))
      ensures app.store.Contents() == AfterTick(app.store.hash, old(app.store.Contents()),
        old(registered), registration, outcome, now, meantime)
    {
      hide Upsert, BeatPeers, NewBlock, ApplyFrom, Apart, RegisteredRequest, HeartbeatRequest;
      var id := registration.nodeId;
      if outcome.RequestLost? {
        registered := false;
        return;
      }
      ghost var st := app.store.Contents();
      if !registered {
        var _ := app.RegisterPeer(registration, now, meantime, now);
        RegistrationIsKept(app.store.hash, st, registration, now, meantime);
        registered := outcome.Acknowledged?;
        return;
      }
      var heartbeat := PeerHeartbeat(Online, now);
      var updated := app.PeerHeartbeat(id, heartbeat, meantime, now);
      if updated.Some? { BeatIsKept(app.store.hash, st, id, heartbeat, meantime); }
      registered := outcome.Acknowledged? && updated.Some?;
    }
  }

  /** The registry's record of a peer is online as of a moment. */
  ghost predicate HeardOf(peers: Dict<Peer>, nodeId: string, now: string)
  {
    var known := Get(peers, nodeId);
    known.Some? && known.value.status == Online && known.value.lastHeartbeat == now
  }

  /** What one tick makes of the registry. */
  function AfterTick(hash: Hash, st: Store, registered: bool, peer: Peer, outcome: Attempt, now: string,
                     meantime: seq<Effect>): Store
  {
    var heartbeat := PeerHeartbeat(Online, now);
    if outcome.RequestLost? then st
    else if !registered then
      Endpoint(hash, st, Upserted(peer, now), meantime, RegisteredRequest(Stamped(peer, now)), now)
    else if Get(st.peers, peer.nodeId).None? then st
    else Endpoint(hash, st, Beaten(peer.nodeId, heartbeat), meantime, HeartbeatRequest(peer.nodeId, heartbeat), now)
  }

  /** Effects that leave a peer's record alone. */
  predicate Apart(effects: seq<Effect>, nodeId: string)
  {
    forall i :: 0 <= i < |effects| ==> match effects[i]
      case Appended(_, _) => true
      case Upserted(peer, _) => peer.nodeId != nodeId
      case Beaten(id, _) => id != nodeId
  }

  lemma {:induction false} ApartKeeps(hash: Hash, st: Store, effects: seq<Effect>, nodeId: string)
    requires Apart(effects, nodeId)
    ensures Get(ApplyFrom(hash, st, effects).peers, nodeId) == Get(st.peers, nodeId)
  {
    if effects != [] {
      hide NewBlock, Get, Put;
      var before := ApplyFrom(hash, st, Earlier(effects)).peers;
      ApartKeeps(hash, st, Earlier(effects), nodeId);
      match effects[|effects| - 1]
      case Appended(_, _) =>
      case Upserted(peer, now) => GetPut(before, peer.nodeId, peer.(status := Online, lastHeartbeat := now), nodeId);
      case Beaten(id, heartbeat) =>
        if Get(before, id).Some? { GetPut(before, id, Beat(Get(before, id).value, heartbeat), nodeId); }
    }
  }

  lemma RegistrationIsKept(hash: Hash, st: Store, peer: Peer, now: string, meantime: seq<Effect>)
    requires Apart(meantime, peer.nodeId)
    ensures Get(ApplyFrom(hash, Apply(hash, st, Upserted(peer, now)), meantime).peers, peer.nodeId) ==
            Some(Stamped(peer, now))
  {
    hide Get, Put, ApplyFrom, Apart;
    ApartKeeps(hash, Apply(hash, st, Upserted(peer, now)), meantime, peer.nodeId);
    GetPut(st.peers, peer.nodeId, Stamped(peer, now), peer.nodeId);
  }

  lemma BeatIsKept(hash: Hash, st: Store, nodeId: string, heartbeat: PeerHeartbeat, meantime: seq<Effect>)
    requires Apart(meantime, nodeId) && Get(st.peers, nodeId).Some?
    ensures Get(ApplyFrom(hash, Apply(hash, st, Beaten(nodeId, heartbeat)), meantime).peers, nodeId) ==
            Some(Beat(Get(st.peers, nodeId).value, heartbeat))
  {
    hide Get, Put, ApplyFrom, Apart;
    ApartKeeps(hash, Apply(hash, st, Beaten(nodeId, heartbeat)), meantime, nodeId);
    GetPut(st.peers, nodeId, Beat(Get(st.peers, nodeId).value, heartbeat), nodeId);
  }

  // ---------------------------------------------------------------- healing

  datatype Event = Ticked(outcome: Attempt, now: real) | Wiped

  function LinkStep(l: Link, e: Event): Link
  {
    match e
    case Ticked(outcome, now) => TickLink(l, outcome, now)
    case Wiped => l.(heard := None)
  }

  function RunLink(l: Link, events: seq<Event>): Link
  {
    if events == [] then l else LinkStep(RunLink(l, events[..|events| - 1]), events[|events| - 1])
  }

  lemma RunLinkPush(l: Link, events: seq<Event>, e: Event)
    ensures RunLink(l, events + [e]) == LinkStep(RunLink(l, events), e)
  {
    assert (events + [e])[..|events|] == events;
  }

  /** Whatever was lost or wiped before, two clean ticks in a row restore both sides, with a heartbeat as fresh as
      the second. One is enough exactly when the peer did not believe in a registration the registry has lost. */
  lemma TwoCleanTicksHeal(l: Link, events: seq<Event>, t: real, u: real)
    ensures RunLink(l, events + [Ticked(Acknowledged, t)] + [Ticked(Acknowledged, u)]) == Link(true, Some(u))
    ensures RunLink(l, events + [Ticked(Acknowledged, t)]) == Link(true, Some(t)) <==>
            !(RunLink(l, events).registered && RunLink(l, events).heard.None?)
  {
    hide RunLink;
    RunLinkPush(l, events, Ticked(Acknowledged, t));
    RunLinkPush(l, events + [Ticked(Acknowledged, t)], Ticked(Acknowledged, u));
  }

  // ---------------------------------------------------------------- staying online

  /** A tick in time: sent at `start`, at the registry at `arrival` if it gets there, over at `end`. */
  datatype Timed = Timed(start: real, arrival: real, end: real, outcome: Attempt)

  /** Requests take at most `request` seconds, and the next tick follows within `interval` seconds. */
  ghost predicate WellTimed(run: seq<Timed>, interval: real, request: real)
  {
    && (forall i :: 0 <= i < |run| ==> run[i].start <= run[i].arrival <= run[i].end <= run[i].start + request)
    && (forall i :: 0 < i < |run| ==> run[i - 1].end <= run[i].start <= run[i - 1].end + interval)
  }

  predicate Reached(t: Timed) { !t.outcome.RequestLost? }

  /** At most `k` ticks in a row fail to reach the registry. */
  ghost predicate AtMostLost(run: seq<Timed>, k: nat)
  {
    forall i :: 0 <= i < |run| - k ==> ReachedWithin(run, i, k)
  }

  ghost predicate ReachedWithin(run: seq<Timed>, i: int, k: nat)
    requires 0 <= i < |run| - k
  {
    exists j :: i <= j <= i + k && Reached(run[j])
  }

  function EventsOfRun(run: seq<Timed>): seq<Event>
  {
    if run == [] then [] else EventsOfRun(run[..|run| - 1]) + [Ticked(run[|run| - 1].outcome, run[|run| - 1].arrival)]
  }

  /** Both sides after some ticks without a wipe, the peer starting unregistered with a registry that is empty. */
  function After(run: seq<Timed>): Link
  {
    RunLink(Link(false, None), EventsOfRun(run))
  }

  /** The last tick that reached the registry, or -1. */
  function LastReached(run: seq<Timed>): (i: int)
    ensures -1 <= i < |run| && (i >= 0 ==> Reached(run[i]))
    ensures forall j :: i < j < |run| ==> !Reached(run[j])
  {
    if run == [] then -1 else if Reached(run[|run| - 1]) then |run| - 1 else LastReached(run[..|run| - 1])
  }

  /** The registry's record is the arrival of the last tick that reached it. */
  lemma {:induction false} RecordIsLastArrival(run: seq<Timed>)
    ensures var i := LastReached(run);
      && After(run).heard == (if i >= 0 then Some(run[i].arrival) else None)
      && (After(run).registered ==> After(run).heard.Some?)
  {
    if run == [] {
    } else {
      var n := |run| - 1;
      RecordIsLastArrival(run[..n]);
      RunLinkPush(Link(false, None), EventsOfRun(run[..n]), Ticked(run[n].outcome, run[n].arrival));
    }
  }

  /** At time `q` exactly the first `n` ticks have had their chance to reach the registry. */
  ghost predicate SplitAt(run: seq<Timed>, n: nat, q: real)
    requires n <= |run|
  {
    && (forall i :: 0 <= i < n && Reached(run[i]) ==> run[i].arrival <= q)
    && (forall i :: n <= i < |run| && Reached(run[i]) ==> q < run[i].arrival)
  }

  lemma {:induction false} Span(run: seq<Timed>, interval: real, request: real, i: nat, j: nat)
    requires WellTimed(run, interval, request) && i <= j < |run|
    ensures run[j].end - run[i].start <= request + Times((j - i) as real, interval + request)
    decreases j
  {
    if i < j {
      hide Times;
      Span(run, interval, request, i, j - 1);
      TimesNext(j - 1 - i, interval + request);
    } else {
      assert Times(0.0, interval + request) == 0.0;
    }
  }

  /** The longest the registry can go without hearing from a peer that loses at most `k` ticks in a row. */
  function LongestSilence(k: nat, interval: real, request: real): real
  {
    Times((k + 1) as real, interval + request) + request
  }

  lemma TimesGrows(m: nat, n: nat, q: real)
    requires m <= n && q >= 0.0
    ensures Times(m as real, q) <= Times(n as real, q)
  {
    assert (n - m) as real * q >= 0.0;
    assert n as real * q == m as real * q + (n - m) as real * q;
  }

  /** If that silence fits into the 90 seconds, the status shown at any moment after the registry first heard of
      the peer is online, whatever is lost within the bound. */
  lemma StaysOnline(run: seq<Timed>, interval: real, request: real, k: nat, n: nat, q: real)
    requires interval >= 0.0 && request >= 0.0 && LongestSilence(k, interval, request) <= 90.0
    requires WellTimed(run, interval, request) && AtMostLost(run, k)
    requires n <= |run| && SplitAt(run, n, q) && run != [] && q <= run[|run| - 1].end
    ensures After(run[..n]).heard.Some? ==> StatusAt(Age(After(run[..n]).heard.value, q)) == Online
  {
    hide Times, After;
    RecordIsLastArrival(run[..n]);
    var i := LastReached(run[..n]);
    assert forall h :: i < h < n ==> run[..n][h] == run[h];
    if i >= 0 {
      var j := |run| - 1;
      if i + k + 1 < |run| {
        assert ReachedWithin(run, i + 1, k);
        var h :| i + 1 <= h <= i + 1 + k && Reached(run[h]);
        j := h;
      }
      Span(run, interval, request, i, j);
      TimesGrows(j - i, k + 1, interval + request);
      assert q <= run[j].end;
    }
  }

  /** The bound cannot be relaxed: past it there is a run within the bound on losses, and a moment in it, at
      which the peer the registry has heard of is not shown as online. */
  lemma BoundIsTight(interval: real, request: real, k: nat) returns (run: seq<Timed>, n: nat, q: real)
    requires interval >= 0.0 && request >= 0.0 && LongestSilence(k, interval, request) > 90.0
    ensures WellTimed(run, interval, request) && AtMostLost(run, k)
    ensures n <= |run| && SplitAt(run, n, q) && run != [] && q <= run[|run| - 1].end
    ensures After(run[..n]).heard.Some? && StatusAt(Age(After(run[..n]).heard.value, q)) != Online
  {
    hide Times, After, WellTimed, AtMostLost;
    run := SilentRun(k, interval + request, request);
    n := k + 1;
    q := (90.0 + LongestSilence(k, interval, request)) / 2.0;
    SilentRunTimed(k, interval, request);
    SilentRunLosses(k, interval + request, request);
    StartAtZero(interval + request);
    RecordIsLastArrival(run[..n]);
    assert Reached(run[..n][0]);
  }

  /** Tick `i` of a run that reaches the registry first at once and next, k losses later, at the last moment. */
  function SilentTick(k: nat, i: nat, period: real, request: real): Timed
  {
    var start := Times(i as real, period);
    Timed(start, if i == k + 1 then start + request else start, start + request,
          if i == 0 || i == k + 1 then Acknowledged else RequestLost)
  }

  function SilentRun(k: nat, period: real, request: real): (run: seq<Timed>)
    ensures |run| == k + 2 && forall i :: 0 <= i < k + 2 ==> run[i] == SilentTick(k, i, period, request)
  {
    seq(k + 2, i requires 0 <= i < k + 2 => SilentTick(k, i, period, request))
  }

  lemma SilentRunTimed(k: nat, interval: real, request: real)
    requires interval >= 0.0 && request >= 0.0
    ensures WellTimed(SilentRun(k, interval + request, request), interval, request)
  {
    hide Times;
    var run := SilentRun(k, interval + request, request);
    forall i | 0 < i < |run| ensures run[i - 1].end <= run[i].start <= run[i - 1].end + interval {
      TimesNext(i - 1, interval + request);
    }
  }

  lemma SilentRunLosses(k: nat, period: real, request: real)
    ensures AtMostLost(SilentRun(k, period, request), k)
  {
    var run := SilentRun(k, period, request);
    forall i | 0 <= i < |run| - k ensures ReachedWithin(run, i, k) {
      assert Reached(run[if i == 0 then 0 else k + 1]);
    }
  }

  lemma StartAtZero(period: real)
    ensures Times(0.0, period) == 0.0
  {
  }

  /** If an interval lasts 15 s and a whole request at most 2.5 s, up to four lost ticks in a row are tolerated and no
      more; four only just: any longer interval or request breaks the bound. */
  lemma FourLossesAtMost(k: nat, longer: real)
    ensures LongestSilence(k, 15.0, 2.5) <= 90.0 <==> k <= 4
    ensures longer > 0.0 ==>
      LongestSilence(4, 15.0 + longer, 2.5) > 90.0 && LongestSilence(4, 15.0, 2.5 + longer) > 90.0
  {
    if k <= 4 {
      TimesGrows(k + 1, 5, 17.5);
    } else {
      TimesGrows(6, k + 1, 17.5);
    }
  }
}
