/** The store as threads see it: each operation split at every point where another thread may run or the
    process may die, including between the replacements of the two files. */
module StoreMachine {
  import opened Base
  import opened Ledger
  import opened LedgerProofs
  import opened RegistryStore

  datatype Op =
    | AppendOp(request: AppendRequest)
    | UpsertOp(peer: Peer)
    | HeartbeatOp(nodeId: string, heartbeat: PeerHeartbeat)

  /** A finished append: what was asked for and the block that came of it. */
  datatype Receipt = Receipt(request: AppendRequest, block: Block)

  /** Where a thread stands. Everything from `Entered` on is inside the lock. */
  datatype Pc =
    | Idle
    | Waiting(op: Op)
    | Entered(op: Op)
    | TipRead(request: AppendRequest, previous: Option<string>)
    | Built(request: AppendRequest, block: Block)
    | SavingPeers(result: Option<Receipt>)
    | PeersWritten(records: seq<Peer>, result: Option<Receipt>)
    | SavingLedger(result: Option<Receipt>)
    | LedgerWritten(blocks: seq<Block>, result: Option<Receipt>)
    | Leaving(result: Option<Receipt>)

  predicate Critical(pc: Pc) { !pc.Idle? && !pc.Waiting? }

  /** Memory, disk, lock and threads; `returned` lists what has been handed back to callers so far. */
  datatype State = State(
    peers: Dict<Peer>, ledger: seq<Block>, files: Files, lock: Option<nat>, threads: map<nat, Pc>,
    returned: seq<Receipt>, crashes: nat)

  /** One event: a call arrives, the free lock is taken, a thread moves on, or the process dies and restarts. */
  datatype Action = Call(caller: nat, op: Op) | Acquire(taker: nat) | Step(mover: nat, now: string) | Crash

  function Start(tids: set<nat>): State
  {
    State([], [], Files(None, None), None, map t | t in tids :: Idle, [], 0)
  }

  function Goto(s: State, t: nat, pc: Pc): State
  {
    s.(threads := s.threads[t := pc])
  }

  /** The process dies; the next one loads what the files hold. */
  function Restart(s: State): State
  {
    State(LoadPeers(s.files), LoadLedger(s.files), s.files, None, map t | t in s.threads :: Idle,
          s.returned, s.crashes + 1)
  }

  function Next(hash: Hash, s: State, a: Action): State
  {
    match a
    case Call(t, op) => if t in s.threads && s.threads[t].Idle? then Goto(s, t, Waiting(op)) else s
    case Acquire(t) =>
      if t in s.threads && s.threads[t].Waiting? && s.lock.None?
      then Goto(s, t, Entered(s.threads[t].op)).(lock := Some(t))
      else s
    case Step(t, now) => if t in s.threads then Move(hash, s, t, s.threads[t], now) else s
    case Crash => Restart(s)
  }

  function Move(hash: Hash, s: State, t: nat, pc: Pc, now: string): State
  {
    match pc
    case Idle => s
    case Waiting(_) => s
    case Entered(AppendOp(request)) => Goto(s, t, TipRead(request, Tip(s.ledger)))
    case Entered(UpsertOp(peer)) => Goto(s, t, SavingPeers(None)).(peers := Upsert(s.peers, peer, now))
    case Entered(HeartbeatOp(nodeId, heartbeat)) =>
      if Get(s.peers, nodeId).None? then Goto(s, t, Leaving(None))
      else Goto(s, t, SavingPeers(None)).(peers := BeatPeers(s.peers, nodeId, heartbeat))
    case TipRead(request, previous) =>
      Goto(s, t, Built(request, Unsealed(hash, |s.ledger| + 1, previous, request, now)))
    case Built(request, b) =>
      Goto(s, t, SavingPeers(Some(Receipt(request, Sealed(hash, b))))).(ledger := s.ledger + [Sealed(hash, b)])
    case SavingPeers(result) => Goto(s, t, PeersWritten(Values(s.peers), result))
    case PeersWritten(records, result) =>
      Goto(s, t, SavingLedger(result)).(files := s.files.(peers := Some(records)))
    case SavingLedger(result) => Goto(s, t, LedgerWritten(s.ledger, result))
    case LedgerWritten(blocks, result) =>
      Goto(s, t, Leaving(result)).(files := s.files.(ledger := Some(blocks)))
    case Leaving(result) =>
      Goto(s, t, Idle).(lock := None, returned := s.returned + if result.Some? then [result.value] else [])
  }

  function Run(hash: Hash, s: State, actions: seq<Action>): State
    decreases |actions|
  {
    if actions == [] then s else Run(hash, Next(hash, s, actions[0]), actions[1..])
  }

  // ---------------------------------------------------------------- the invariant

  /** The blocks a restart would find. */
  function Durable(s: State): seq<Block>
  {
    LoadLedger(s.files)
  }

  ghost predicate Synced(s: State)
  {
    LoadPeers(s.files) == s.peers && Durable(s) == s.ledger
  }

  /** The block of an append under way, as a ledger segment. */
  function Segment(result: Option<Receipt>): seq<Block>
  {
    if result.Some? then [result.value.block] else []
  }

  /** The ledger file lacks exactly the block being saved, if there is one. */
  ghost predicate Pending(hash: Hash, s: State, result: Option<Receipt>)
  {
    && s.ledger == Durable(s) + Segment(result)
    && (result.Some? ==> Answers(hash, result.value.request, result.value.block))
  }

  /** What the lock holder's position says about memory and disk. */
  ghost predicate Holding(hash: Hash, s: State, pc: Pc)
  {
    match pc
    case Entered(_) => Synced(s)
    case TipRead(_, previous) => Synced(s) && previous == Tip(s.ledger)
    case Built(request, b) =>
      Synced(s) && b.blockId == |s.ledger| + 1 && b.previousHash == Tip(s.ledger) && Answers(hash, request, b)
    case SavingPeers(result) => Pending(hash, s, result)
    case PeersWritten(records, result) => Pending(hash, s, result) && records == Values(s.peers)
    case SavingLedger(result) => Pending(hash, s, result) && LoadPeers(s.files) == s.peers
    case LedgerWritten(blocks, result) =>
      Pending(hash, s, result) && LoadPeers(s.files) == s.peers && blocks == s.ledger
    case Leaving(result) =>
      Synced(s) && (result.Some? ==>
        s.ledger != [] && s.ledger[|s.ledger| - 1] == result.value.block
        && Answers(hash, result.value.request, result.value.block))
    case _ => false
  }

  /** Being inside the lock and holding it are the same. */
  ghost predicate Mutex(threads: map<nat, Pc>, lock: Option<nat>)
  {
    forall t :: t in threads ==> (Critical(threads[t]) <==> lock == Some(t))
  }

  ghost predicate Locked(hash: Hash, s: State)
  {
    && Mutex(s.threads, s.lock)
    && (s.lock.Some? ==> s.lock.value in s.threads && Holding(hash, s, s.threads[s.lock.value]))
    && (s.lock.None? ==> Synced(s))
  }

  /** Durable blocks whose append has returned, or was cut off by a crash. */
  function Settled(s: State): int
  {
    |Durable(s)| -
    if s.lock.Some? && s.lock.value in s.threads && s.threads[s.lock.value].Leaving?
       && s.threads[s.lock.value].result.Some? then 1 else 0
  }

  /** Every returned block answers its request and is durable at the index its id names; ids never repeat. */
  ghost predicate Kept(hash: Hash, returned: seq<Receipt>, durable: seq<Block>, settled: int)
  {
    && settled <= |durable|
    && (forall i :: 0 <= i < |returned| ==> InPlace(hash, returned[i], durable, settled))
    && (forall i, j :: 0 <= i < j < |returned| ==> returned[i].block.blockId < returned[j].block.blockId)
  }

  ghost predicate InPlace(hash: Hash, r: Receipt, durable: seq<Block>, settled: int)
    requires settled <= |durable|
  {
    1 <= r.block.blockId <= settled && durable[r.block.blockId - 1] == r.block && Answers(hash, r.request, r.block)
  }

  ghost predicate Accounted(hash: Hash, s: State)
  {
    && Kept(hash, s.returned, Durable(s), Settled(s))
    && |s.returned| <= Settled(s) <= |s.returned| + s.crashes
  }

  ghost predicate Sound(hash: Hash, s: State)
  {
    Keyed(s.peers) && Verifies(hash, s.ledger) && Numbered(s.ledger)
  }

  ghost predicate Inv(hash: Hash, s: State)
  {
    Sound(hash, s) && Locked(hash, s) && Accounted(hash, s)
  }

  // ---------------------------------------------------------------- every step keeps it

  lemma StartInv(hash: Hash, tids: set<nat>)
    ensures Inv(hash, Start(tids))
  {
  }

  lemma CallInv(hash: Hash, s: State, t: nat, op: Op)
    requires Inv(hash, s)
    ensures Inv(hash, Next(hash, s, Call(t, op)))
  {
    hide Keyed, Verifies, Numbered, Kept, FromRecords, Answers, Move;
  }

  lemma AcquireInv(hash: Hash, s: State, t: nat)
    requires Inv(hash, s)
    ensures Inv(hash, Next(hash, s, Acquire(t)))
  {
    hide Keyed, Verifies, Numbered, Kept, FromRecords, Answers, Move;
  }

  lemma DurablePrefix(hash: Hash, s: State)
    requires Inv(hash, s)
    ensures Durable(s) <= s.ledger && |s.ledger| <= |Durable(s)| + 1
  {
  }

  lemma CrashInv(hash: Hash, s: State)
    requires Inv(hash, s)
    ensures Inv(hash, Restart(s))
  {
    if s.files.peers.Some? { LoadedPeersAreKeyed(s.files.peers.value); }
    DurablePrefix(hash, s);
    VerifiedPrefix(hash, s.ledger, |Durable(s)|);
    assert Durable(s) == s.ledger[..|Durable(s)|];
  }

  /** Moving on inside the lock disturbs nobody else. */
  lemma MoveKeepsMutex(s: State, t: nat, pc: Pc)
    requires Mutex(s.threads, s.lock) && t in s.threads && Critical(s.threads[t]) && Critical(pc)
    ensures s.lock == Some(t) && Mutex(s.threads[t := pc], s.lock)
  {
  }

  lemma EnterInv(hash: Hash, s: State, t: nat, now: string)
    requires Inv(hash, s) && t in s.threads && s.threads[t].Entered?
    ensures Inv(hash, Next(hash, s, Step(t, now)))
  {
    hide Mutex, Kept, Verifies, Numbered, FromRecords, Keyed, Upsert, BeatPeers, Get, Put, Answers;
    MoveKeepsMutex(s, t, Next(hash, s, Step(t, now)).threads[t]);
    match s.threads[t].op
    case AppendOp(_) =>
    case UpsertOp(peer) => UpsertKeyed(s.peers, peer, now);
    case HeartbeatOp(nodeId, heartbeat) => BeatKeyed(s.peers, nodeId, heartbeat);
  }

  lemma BuildInv(hash: Hash, s: State, t: nat, now: string)
    requires Inv(hash, s) && t in s.threads && (s.threads[t].TipRead? || s.threads[t].Built?)
    ensures Inv(hash, Next(hash, s, Step(t, now)))
  {
    hide Mutex, Kept, Keyed, FromRecords;
    MoveKeepsMutex(s, t, Next(hash, s, Step(t, now)).threads[t]);
    if s.threads[t].Built? {
      SealedBlockVerifies(hash, s.ledger, s.threads[t].block);
    }
  }

  lemma WritePeersInv(hash: Hash, s: State, t: nat, now: string)
    requires Inv(hash, s) && t in s.threads && s.threads[t].SavingPeers?
    ensures Inv(hash, Next(hash, s, Step(t, now)))
  {
    hide Mutex, Keyed, Verifies, Numbered, Kept, FromRecords, Answers;
    MoveKeepsMutex(s, t, PeersWritten(Values(s.peers), s.threads[t].result));
  }

  lemma ReplacePeersInv(hash: Hash, s: State, t: nat, now: string)
    requires Inv(hash, s) && t in s.threads && s.threads[t].PeersWritten?
    ensures Inv(hash, Next(hash, s, Step(t, now)))
  {
    hide Mutex, Kept, FromRecords, Verifies, Numbered, Answers;
    MoveKeepsMutex(s, t, SavingLedger(s.threads[t].result));
    PeersRoundTrip(s.peers);
  }

  lemma WriteLedgerInv(hash: Hash, s: State, t: nat, now: string)
    requires Inv(hash, s) && t in s.threads && s.threads[t].SavingLedger?
    ensures Inv(hash, Next(hash, s, Step(t, now)))
  {
    hide Mutex, Keyed, Verifies, Numbered, Kept, FromRecords, Answers;
    MoveKeepsMutex(s, t, LedgerWritten(s.ledger, s.threads[t].result));
  }

  lemma KeptGrows(hash: Hash, returned: seq<Receipt>, durable: seq<Block>, more: seq<Block>, settled: int)
    requires Kept(hash, returned, durable, settled)
    ensures Kept(hash, returned, durable + more, settled)
  {
  }

  /** Replacing the ledger file makes the block durable before its append returns. */
  lemma ReplaceLedgerInv(hash: Hash, s: State, t: nat, now: string)
    requires Inv(hash, s) && t in s.threads && s.threads[t].LedgerWritten?
    ensures Inv(hash, Next(hash, s, Step(t, now)))
  {
    hide Mutex, Keyed, Verifies, Numbered, Kept, FromRecords, Answers;
    var result := s.threads[t].result;
    MoveKeepsMutex(s, t, Leaving(result));
    KeptGrows(hash, s.returned, Durable(s), Segment(result), Settled(s));
  }

  lemma LeaveInv(hash: Hash, s: State, t: nat, now: string)
    requires Inv(hash, s) && t in s.threads && s.threads[t].Leaving?
    ensures Inv(hash, Next(hash, s, Step(t, now)))
  {
    hide Keyed, Verifies, FromRecords, Answers;
  }

  lemma NextInv(hash: Hash, s: State, a: Action)
    requires Inv(hash, s)
    ensures Inv(hash, Next(hash, s, a))
  {
    match a
    case Call(t, op) => CallInv(hash, s, t, op);
    case Acquire(t) => AcquireInv(hash, s, t);
    case Crash => CrashInv(hash, s);
    case Step(t, now) =>
      if t in s.threads {
        match s.threads[t]
        case Idle =>
        case Waiting(_) =>
        case Entered(_) => EnterInv(hash, s, t, now);
        case TipRead(_, _) => BuildInv(hash, s, t, now);
        case Built(_, _) => BuildInv(hash, s, t, now);
        case SavingPeers(_) => WritePeersInv(hash, s, t, now);
        case PeersWritten(_, _) => ReplacePeersInv(hash, s, t, now);
        case SavingLedger(_) => WriteLedgerInv(hash, s, t, now);
        case LedgerWritten(_, _) => ReplaceLedgerInv(hash, s, t, now);
        case Leaving(_) => LeaveInv(hash, s, t, now);
      }
  }

  lemma {:induction false} RunInv(hash: Hash, s: State, actions: seq<Action>)
    requires Inv(hash, s)
    ensures Inv(hash, Run(hash, s, actions))
    decreases |actions|
  {
    if actions != [] {
      NextInv(hash, s, actions[0]);
      RunInv(hash, Next(hash, s, actions[0]), actions[1..]);
    }
  }

  function Crashes(actions: seq<Action>): nat
  {
    if actions == [] then 0 else Crashes(actions[1..]) + if actions[0].Crash? then 1 else 0
  }

  lemma {:induction false} RunCountsCrashes(hash: Hash, s: State, actions: seq<Action>)
    ensures Run(hash, s, actions).crashes == s.crashes + Crashes(actions)
    decreases |actions|
  {
    if actions != [] {
      RunCountsCrashes(hash, Next(hash, s, actions[0]), actions[1..]);
    }
  }

  // ---------------------------------------------------------------- main results

  /** Lock safety: whatever the threads and the interleaving, the ledger verifies and is numbered 1 to n at
      every moment; when the lock is free, every completed append stands exactly once, at the index its id
      names and with the content its caller asked for, and the blocks no caller got back number at most one
      per crash. */
  lemma LockSafety(hash: Hash, tids: set<nat>, actions: seq<Action>)
    ensures var s := Run(hash, Start(tids), actions);
      && Verifies(hash, s.ledger) && Numbered(s.ledger)
      && (s.lock.None? ==>
            && Kept(hash, s.returned, s.ledger, |s.ledger|)
            && |s.returned| <= |s.ledger| <= |s.returned| + Crashes(actions))
  {
    StartInv(hash, tids);
    RunInv(hash, Start(tids), actions);
    RunCountsCrashes(hash, Start(tids), actions);
  }

  /** Mutual exclusion: no two threads are ever inside the lock together. */
  lemma MutualExclusion(hash: Hash, tids: set<nat>, actions: seq<Action>, t: nat, u: nat)
    ensures var s := Run(hash, Start(tids), actions);
      t in s.threads && u in s.threads && Critical(s.threads[t]) && Critical(s.threads[u]) ==> t == u
  {
    StartInv(hash, tids);
    RunInv(hash, Start(tids), actions);
  }

  /** Crash consistency: dying at any point of any run, earlier crashes included, loses at most the one block
      in flight; what reloads verifies, keeps every append that had returned, and is all of memory when no
      thread held the lock. */
  lemma CrashConsistency(hash: Hash, tids: set<nat>, actions: seq<Action>)
    ensures var s := Run(hash, Start(tids), actions); var r := Restart(s);
      && r.ledger <= s.ledger && |s.ledger| <= |r.ledger| + 1
      && Verifies(hash, r.ledger) && Numbered(r.ledger) && Keyed(r.peers)
      && Kept(hash, s.returned, r.ledger, |r.ledger|)
      && (s.lock.None? ==> r.ledger == s.ledger && r.peers == s.peers)
  {
    StartInv(hash, tids);
    RunInv(hash, Start(tids), actions);
    var s := Run(hash, Start(tids), actions);
    DurablePrefix(hash, s);
    CrashInv(hash, s);
  }

  /** No fork: at every moment of every run, two blocks with one predecessor would be a hash collision. */
  lemma NoForks(hash: Hash, tids: set<nat>, actions: seq<Action>, i: nat, j: nat)
    requires var l := Run(hash, Start(tids), actions).ledger;
      i < j < |l| && l[i].previousHash == l[j].previousHash
    ensures var l := Run(hash, Start(tids), actions).ledger;
      i > 0 && Collides(hash, l[i - 1], l[j - 1])
  {
    LockSafety(hash, tids, actions);
    NoSharedPredecessor(hash, Run(hash, Start(tids), actions).ledger, i, j);
  }
}
