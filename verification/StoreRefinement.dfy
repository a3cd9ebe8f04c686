/** The interleaved store refines the sequential one: whatever threads and crashes do, memory is what the operations
    that took effect, one after another, would have made of an empty store. */
module StoreRefinement {
  import opened Base
  import opened Ledger
  import opened RegistryStore
  import opened StoreMachine

  /** What effects make of an empty store. */
  function ApplyAll(hash: Hash, effects: seq<Effect>): Store
  {
    ApplyFrom(hash, Store([], []), effects)
  }

  function InMemory(s: State): Store { Store(s.peers, s.ledger) }

  function OnDisk(s: State): Store { Store(LoadPeers(s.files), Durable(s)) }

  /** The effects so far: each is noted at the instant memory changes; a crash before both files are
      replaced takes the latest one back. */
  function Note(hash: Hash, s: State, effects: seq<Effect>, a: Action): seq<Effect>
  {
    match a
    case Call(_, _) => effects
    case Acquire(_) => effects
    case Crash => if OnDisk(s) == InMemory(s) || effects == [] then effects else Earlier(effects)
    case Step(t, now) => if t in s.threads then effects + EffectAt(s, s.threads[t], now) else effects
  }

  function EffectAt(s: State, pc: Pc, now: string): seq<Effect>
  {
    match pc
    case Entered(UpsertOp(peer)) => [Upserted(peer, now)]
    case Entered(HeartbeatOp(nodeId, heartbeat)) =>
      if Get(s.peers, nodeId).Some? then [Beaten(nodeId, heartbeat)] else []
    case Built(request, b) => [Appended(request, b.timestamp)]
    case _ => []
  }

  function Effects(hash: Hash, s: State, effects: seq<Effect>, actions: seq<Action>): seq<Effect>
    decreases |actions|
  {
    if actions == [] then effects
    else Effects(hash, Next(hash, s, actions[0]), Note(hash, s, effects, actions[0]), actions[1..])
  }

  predicate SavingAppend(pc: Pc)
  {
    match pc
    case SavingPeers(r) => r.Some?
    case PeersWritten(_, r) => r.Some?
    case SavingLedger(r) => r.Some?
    case LedgerWritten(_, r) => r.Some?
    case _ => false
  }

  /** A built block is the one the sequential store would make of the ledger as it stands. */
  predicate BuiltRight(hash: Hash, s: State, pc: Pc)
  {
    pc.Built? ==> pc.block == Unsealed(hash, |s.ledger| + 1, Tip(s.ledger), pc.request, pc.block.timestamp)
  }

  ghost predicate Traced(hash: Hash, s: State, effects: seq<Effect>)
  {
    && InMemory(s) == ApplyAll(hash, effects)
    && (OnDisk(s) == InMemory(s) || (effects != [] && OnDisk(s) == ApplyAll(hash, Earlier(effects))))
    && (s.lock.Some? && s.lock.value in s.threads ==>
          && BuiltRight(hash, s, s.threads[s.lock.value])
          && (SavingAppend(s.threads[s.lock.value]) ==> effects != [] && effects[|effects| - 1].Appended?))
  }

  lemma ApplyPush(hash: Hash, effects: seq<Effect>, e: Effect)
    ensures ApplyAll(hash, effects + [e]) == Apply(hash, ApplyAll(hash, effects), e)
    ensures Earlier(effects + [e]) == effects
  {
    assert (effects + [e])[..|effects|] == effects;
  }

  lemma OutsideTraced(hash: Hash, s: State, effects: seq<Effect>, a: Action)
    requires Inv(hash, s) && Traced(hash, s, effects) && (a.Call? || a.Acquire?)
    ensures Traced(hash, Next(hash, s, a), Note(hash, s, effects, a))
  {
    hide Apply, ApplyAll, Earlier, Verifies, Numbered, Keyed, Kept, FromRecords;
  }

  lemma CrashTraced(hash: Hash, s: State, effects: seq<Effect>)
    requires Inv(hash, s) && Traced(hash, s, effects)
    ensures Traced(hash, Restart(s), Note(hash, s, effects, Crash))
  {
    hide Apply, Verifies, Numbered, Keyed, Kept, FromRecords, Mutex;
  }

  /** Entering: where a change to the peers takes effect, ... */
  lemma EnterTraced(hash: Hash, s: State, effects: seq<Effect>, t: nat, now: string)
    requires Inv(hash, s) && Traced(hash, s, effects) && t in s.threads && s.threads[t].Entered?
    ensures Traced(hash, Next(hash, s, Step(t, now)), Note(hash, s, effects, Step(t, now)))
  {
    hide ApplyAll, Earlier, Verifies, Numbered, Keyed, Kept, FromRecords, Answers, Upsert, BeatPeers, Get, Put;
    var pc := s.threads[t];
    assert s.lock == Some(t);
    assert effects + [] == effects;
    if EffectAt(s, pc, now) != [] {
      ApplyPush(hash, effects, EffectAt(s, pc, now)[0]);
      assert effects + EffectAt(s, pc, now) == effects + [EffectAt(s, pc, now)[0]];
    }
  }

  /** ... and appending: where the block that was built on the tip goes on top of it. */
  lemma BuildTraced(hash: Hash, s: State, effects: seq<Effect>, t: nat, now: string)
    requires Inv(hash, s) && Traced(hash, s, effects) && t in s.threads
    requires s.threads[t].TipRead? || s.threads[t].Built?
    ensures Traced(hash, Next(hash, s, Step(t, now)), Note(hash, s, effects, Step(t, now)))
  {
    hide ApplyAll, Earlier, Verifies, Numbered, Keyed, Kept, FromRecords, Answers;
    var pc := s.threads[t];
    assert s.lock == Some(t);
    assert effects + [] == effects;
    if pc.Built? {
      ApplyPush(hash, effects, Appended(pc.request, pc.block.timestamp));
    }
  }

  lemma LastAppended(hash: Hash, s: State, effects: seq<Effect>)
    requires Traced(hash, s, effects) && effects != [] && effects[|effects| - 1].Appended?
    ensures ApplyAll(hash, Earlier(effects)).peers == s.peers
    ensures s.ledger != [] && ApplyAll(hash, Earlier(effects)).ledger == s.ledger[..|s.ledger| - 1]
  {
  }

  lemma SaveTraced(hash: Hash, s: State, effects: seq<Effect>, t: nat, now: string)
    requires Inv(hash, s) && Traced(hash, s, effects) && t in s.threads
    requires var pc := s.threads[t]; pc.SavingPeers? || pc.PeersWritten? || pc.SavingLedger? || pc.LedgerWritten?
    ensures Traced(hash, Next(hash, s, Step(t, now)), Note(hash, s, effects, Step(t, now)))
  {
    hide Apply, ApplyAll, Earlier, Verifies, Numbered, Keyed, Kept, FromRecords, Answers;
    assert s.lock == Some(t);
    assert effects + [] == effects;
    RoundTrip(hash, s);
    if SavingAppend(s.threads[t]) {
      LastAppended(hash, s, effects);
    }
  }

  lemma RoundTrip(hash: Hash, s: State)
    requires Inv(hash, s)
    ensures FromRecords(Values(s.peers)) == s.peers
  {
    PeersRoundTrip(s.peers);
  }

  lemma LeaveTraced(hash: Hash, s: State, effects: seq<Effect>, t: nat, now: string)
    requires Inv(hash, s) && Traced(hash, s, effects) && t in s.threads
    requires s.threads[t].Idle? || s.threads[t].Waiting? || s.threads[t].Leaving?
    ensures Traced(hash, Next(hash, s, Step(t, now)), Note(hash, s, effects, Step(t, now)))
  {
    hide Apply, ApplyAll, Earlier, Verifies, Numbered, Keyed, Kept, FromRecords, Answers;
    assert effects + [] == effects;
  }

  lemma NextTraced(hash: Hash, s: State, effects: seq<Effect>, a: Action)
    requires Inv(hash, s) && Traced(hash, s, effects)
    ensures Traced(hash, Next(hash, s, a), Note(hash, s, effects, a))
  {
    hide Inv, Traced, Move, EffectAt;
    match a
    case Call(_, _) => OutsideTraced(hash, s, effects, a);
    case Acquire(_) => OutsideTraced(hash, s, effects, a);
    case Crash => CrashTraced(hash, s, effects);
    case Step(t, now) =>
      if t in s.threads {
        var pc := s.threads[t];
        if pc.Entered? {
          EnterTraced(hash, s, effects, t, now);
        } else if pc.TipRead? || pc.Built? {
          BuildTraced(hash, s, effects, t, now);
        } else if pc.Idle? || pc.Waiting? || pc.Leaving? {
          LeaveTraced(hash, s, effects, t, now);
        } else {
          SaveTraced(hash, s, effects, t, now);
        }
      }
  }

  lemma {:induction false} RunTraced(hash: Hash, s: State, effects: seq<Effect>, actions: seq<Action>)
    requires Inv(hash, s) && Traced(hash, s, effects)
    ensures Inv(hash, Run(hash, s, actions)) && Traced(hash, Run(hash, s, actions), Effects(hash, s, effects, actions))
    decreases |actions|
  {
    if actions != [] {
      hide Inv, Traced, Next, Note;
      NextInv(hash, s, actions[0]);
      NextTraced(hash, s, effects, actions[0]);
      RunTraced(hash, Next(hash, s, actions[0]), Note(hash, s, effects, actions[0]), actions[1..]);
    }
  }

  /** The concurrent store refines the sequential one: at every moment of every run memory is the outcome of the
      effects so far in order, and a restart finds that outcome or, while some thread is inside the lock,
      the outcome without the latest effect: never a mixture of the two files. */
  lemma ConcurrentRefinesSequential(hash: Hash, tids: set<nat>, actions: seq<Action>)
    ensures var s := Run(hash, Start(tids), actions); var effects := Effects(hash, Start(tids), [], actions);
      && InMemory(s) == ApplyAll(hash, effects)
      && (InMemory(Restart(s)) == ApplyAll(hash, effects)
          || (s.lock.Some? && effects != [] && InMemory(Restart(s)) == ApplyAll(hash, Earlier(effects))))
  {
    StartInv(hash, tids);
    RunTraced(hash, Start(tids), [], actions);
  }
}
