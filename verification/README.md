# QuantIAN verification

A Dafny model of the four cores of QuantIAN and proofs about them. Together they form one pipeline: market messages are
ingested and normalised, routed with retries to the anomaly and risk peers, scored and turned into risk figures, and
every step is written to a hash-chained ledger on the registry.

`dafny verify dfyconfig.toml` checks the whole project. There is no assumption and no axiom anywhere.

## What is modelled

| module | models |
|---|---|
| `CanonicalJson`, `CanonicalJsonProofs` | the sorted, compact, ASCII-only JSON text under every hash |
| `JsonReader` | a reader for such text, written from the grammar of RFC 8259 and not from the encoder |
| `Ledger`, `LedgerProofs` | blocks, the hash chain, the verifier's first objection, replacement of blocks |
| `RegistryStore` | the registry store: peers, ledger and the two state files, as a class |
| `StoreMachine`, `StoreRefinement` | the same store as threads see it, with a lock, an operation split into its steps, and crashes |
| `RegistryService` | the endpoints and the background verifier, with what other threads do in between, over whole runs |
| `EndpointRuns` | the endpoints run by many threads with crashes: how far peers and ledger drift apart |
| `Registration` | register/heartbeat between a peer and the registry, with lost messages and a registry that loses its state |
| `Routing`, `Ingestion` | bounded retries with backoff, fan-out by capability, the ingestion peer and its audit trail |
| `DeliveryProofs`, `PaddedReturns` | what at-least-once delivery does to the risk figures |
| `RiskMath`, `RiskProofs`, `VarProofs`, `VolatilityProofs`, `RiskService` | returns, alignment, drawdown, compounding, value at risk, volatility, and the risk peer |
| `AnomalyScore`, `AnomalyService` | the rule score and its baseline, the sliding windows, alerts and what of them is stored |
| `Base`, `RealMath`, `Schemas` | options and insertion-ordered dictionaries, real arithmetic, the records on the wire |

Objects that the program updates in place are classes (`InMemoryRegistryStore`, `RegistryApp`, `RiskPeer`, `AnomalyPeer`,
`ServiceRuntime`, `IngestionPeer`, `PeerRuntime`); each method's contract gives the whole new state through functions on
values, and the theorems are about those functions and about runs of them. The store appears twice: as the class, whose
methods are atomic because the lock makes them so, and as a state machine in which that atomicity is what gets proved.

Given from outside, as arguments: the digest (any function from text to text; results are of the form "equal, or here are
two texts with one digest"), the ISO timestamp parser, a square root, the isolation forest's raw score, fresh ids, the
clock, and what the network does to each attempt (lost on the way there, processed with the answer lost, or acknowledged).

Floats are exact reals and `round` is rounding to the nearest, ties to even. The VaR index `int((1 - 0.95) * n)` is
n / 20 rounded down. `json.dumps(sort_keys=True)` is modelled as sorting the fields of every object and then rendering.

## Where the code differs from what is said about it

- **Discovery ignores status.** `docs/P2P_OVERLAY.md:53-54` says that discovery returns peers that are currently online.
  The code filters by capability alone. The claim holds exactly when every peer that declares the capability was heard
  of within 90 seconds (`DiscoveryIsOnlineIff`); a peer silent for 200 seconds is returned and shown as offline
  (`OfflinePeerIsDiscovered`). The stored status is never shown: what readers see depends on the age of the heartbeat.
- **A rewritten last block goes unnoticed.** A change is noticed unless it replaces the last block by one that fits there
  (`UnnoticedIff`), and on every ledger there is such a change (`RewrittenTipGoesUnnoticed`).
- **Tampering does not invalidate every later block**, unlike `docs/P2P_OVERLAY.md:73-74` says. Only the block itself and its
  direct successor can fail, all others still pass on their own (`DamageIsLocal`); so every later block fails exactly
  when there is none, or just one and the hash changed (`LaterBlocksFailIff`). `ThirdBlockStillPasses` is an instance.
- **The drawdown does not see the first period.** The peak starts at the first point of the equity curve, which lies after
  the first return. So `_max_drawdown` is the worst run that leaves the first period out (`DrawdownIsWorstRun`), and a
  second copy of the first price can change it, which a copy of any other price cannot. `HarmlessIff` gives the exact
  condition, in prices alone, and `FirstPriceDuplicateExample` an instance.
- **Staying online takes one request more.** A peer that loses at most k ticks in a row may be silent for
  (k + 1)(interval + request) + request seconds, as the last request may arrive at its very end. If this fits into
  90 seconds the peer is always shown as online, and otherwise there is a run in which it is not (`StaysOnline`,
  `BoundIsTight`). If an interval lasts 15 s and a whole request at most 2.5 s, four losses in a row are tolerated, with
  nothing to spare (`FourLossesAtMost`).
- **Duplicates dampen the other figures.** They draw the value at risk towards zero, never past it (`RetriesDampenVar`),
  and make the 24-period return look back over fewer periods (`RetriesShortenRolling`).
- **No retries, no error.** With `retries = 0` a `routing_failed` record is sent, yet no error is returned.
- **Nobody to deliver to is success.** When discovery finds no peer, or cannot be reached, nothing is sent and the event
  counts as forwarded.
- **The baseline is stronger than Chebyshev's quarter.** At most one fifth of a window exceeds its mean plus two
  deviations (`FewExceedBaseline`).

## Model

| member | source | states |
|---|---|---|
| `JsonReader.CharReads` | shared/utils/hashing.py:8-9 | the escape of any character, read by section 7 of RFC 8259 (surrogate pairs included), is that character and ends there, and it is as short as Python writes it |
| `JsonReader.BodyReads` | shared/utils/hashing.py:8-9 | a string literal in any text reads back as its string, to its closing quote |
| `JsonReader.NumberReads` | shared/utils/hashing.py:8-9 | an integer followed by no digit reads back, without leading zeros |
| `JsonReader.ValueReads` | shared/utils/hashing.py:8-9 | any rendered value, however nested, reads back by the grammar and ends where it should |
| `JsonReader.RenderIsPlain` | shared/utils/hashing.py:8-9 | the text is printable ASCII whatever the strings in it |
| `CanonicalJsonProofs.DumpsReads` | shared/utils/hashing.py:8-9 | the canonical text reads back, to the last character, as the value with its fields sorted |
| `CanonicalJsonProofs.BeforeIsLexicographic` | shared/utils/hashing.py:8-9 | the order of keys is that of the first difference by code point, a prefix coming first |
| `CanonicalJsonProofs.BodyPrefixFree` | shared/utils/hashing.py:8-9 | two string literals inside longer texts that are equal are the same string and end at the same place |
| `CanonicalJsonProofs.NumberPrefixFree` | shared/utils/hashing.py:8-9 | the same for integers, provided what follows is no digit |
| `CanonicalJsonProofs.RenderPrefixFree` | shared/utils/hashing.py:8-9 | no rendered value, however nested, is a proper prefix of another |
| `CanonicalJsonProofs.SortAscending` | shared/utils/hashing.py:8-9 | with distinct keys, sorting puts the same fields into that order, strictly ascending |
| `CanonicalJsonProofs.SameIffCanonEqual` | shared/utils/hashing.py:8-9 | two values are the same up to field order at every depth exactly when their canonical forms are equal |
| `CanonicalJsonProofs.DumpsUnambiguous` | shared/utils/hashing.py:8-9 | canonical texts are equal exactly when the values are the same up to field order |
| `LedgerProofs.HashedTextFixesContent` | registry_service/store.py:125-136 | the hashed text determines all six fields of a block, and they it |
| `LedgerProofs.BlockHashIs` | registry_service/store.py:125-136 | the block hash is that of the text spelled out member by member, names in alphabetical order |
| `LedgerProofs.VerifiesMeans` | registry_service/store.py:88-107 | a ledger verifies exactly when each block names the hash of the one before, the first none, and carries the hash of its own text |
| `LedgerProofs.EqualHashes` | registry_service/store.py:125-136 | blocks with equal block hashes agree on the six fields or their texts collide |
| `LedgerProofs.AppendVerifies` | registry_service/store.py:67-82 | the block `append_block` builds keeps a ledger verifying and numbered 1 to n |
| `LedgerProofs.VerifiedPrefix` | registry_service/store.py:88-107 | every prefix of a ledger that verifies does too |
| `LedgerProofs.TipFixesHistory` | registry_service/store.py:88-136 | ledgers that verify and share the tip hash are equal, or the walk back from the tips returns two of their blocks that collide; it returns something exactly when they differ |
| `LedgerProofs.ReplacementIsLocated` | registry_service/store.py:88-107 | after replacing block i by any other block the first failing index is i if it does not fit its place, else i + 1 (so none if it is the last), or the two collide |
| `LedgerProofs.DamageIsLocal` | registry_service/store.py:88-107 | which blocks of the changed ledger pass on their own, exactly: all but the replaced one if it does not fit, and its successor if the hash changed |
| `LedgerProofs.UnnoticedIff` | registry_service/store.py:88-107 | a changed ledger verifies exactly when the change replaced the last block by one that fits, short of a collision |
| `LedgerProofs.RewrittenTipGoesUnnoticed` | registry_service/store.py:67-107 | whatever block is appended to whatever ledger, the block of a different request in its place is such a change |
| `LedgerProofs.LaterBlocksFailIff` | registry_service/store.py:88-107 | every later block fails on its own exactly when there is none, or just one and the hash changed |
| `LedgerProofs.ThirdBlockStillPasses` | registry_service/store.py:88-107 | of three appended blocks the third still passes after the first is altered, rehashed or not |
| `LedgerProofs.AlteredWithoutRehash` | registry_service/store.py:88-107 | altering any hashed field without rehashing makes that block the first failing one, short of a collision |
| `LedgerProofs.FaultNeverHeals` | registry_service/store.py:67-107 | whatever is appended to a failing ledger, the first failing index stays |
| `LedgerProofs.NoSharedPredecessor` | registry_service/store.py:67-82 | in a numbered ledger that verifies, two blocks naming one predecessor exhibit a collision |
| `LedgerProofs.StaleTipBreaksChain` | registry_service/store.py:68-82 | two blocks built on one and the same tip break the chain at the second, or collide: why the tip is read under the lock |
| `RegistryStore.UpsertKeyed` | registry_service/store.py:28-33 | registration keeps every record under its own node id, once |
| `RegistryStore.BeatKeyed` | registry_service/store.py:35-49 | so does a heartbeat |
| `RegistryStore.BeatFrame` | registry_service/store.py:35-49 | a heartbeat sets status and time of one record and touches nothing else of it and no other record |
| `RegistryStore.PeersRoundTrip` | registry_service/store.py:145-168 | writing the peers as a list and rebuilding the dictionary gives back the same peers, in order |
| `RegistryStore.LoadAfterSave` | registry_service/store.py:145-168 | loading after saving restores peers and ledger |
| `RegistryStore.LoadedPeersAreKeyed` | registry_service/store.py:151-154 | whatever the file lists, the loaded dictionary holds every record once, under its own id |
| `RegistryStore.LoadedIsLatest` | registry_service/store.py:151-154 | of several records with one id the last one is loaded |
| `RegistryStore.InMemoryRegistryStore.constructor` | registry_service/store.py:21-26 | a store starts from its files, or empty without a directory |
| `RegistryStore.InMemoryRegistryStore.SaveState` | registry_service/store.py:157-168 | both files hold memory afterwards; without a directory nothing is written |
| `RegistryStore.InMemoryRegistryStore.UpsertPeer` | registry_service/store.py:28-33 | the record is replaced in place or added last, online and stamped; files reload to memory |
| `RegistryStore.InMemoryRegistryStore.Heartbeat` | registry_service/store.py:35-49 | a known peer keeps its record but for status and time, which are those of the heartbeat; an unknown one changes nothing and is reported |
| `RegistryStore.InMemoryRegistryStore.PeersWithCapability` | registry_service/store.py:62-65 | the peers declaring the capability, in registration order, with the status of the moment |
| `RegistryStore.InMemoryRegistryStore.FreshStatusMeans` | registry_service/store.py:115-123 | what a reader is shown: the record as it is, online up to 90 seconds, stale up to 180, offline after that |
| `RegistryStore.InMemoryRegistryStore.MatchingSplits` | registry_service/store.py:62-65 | discovery goes through the records in order |
| `RegistryStore.InMemoryRegistryStore.BeatsKeepDiscovery` | registry_service/store.py:35-65 | over any heartbeats discovery returns the same records in the same order, but for status and time |
| `RegistryStore.InMemoryRegistryStore.DiscoveryIsByCapabilityAlone` | registry_service/store.py:62-65 | every peer that declares the capability is returned and no other, whatever its age |
| `RegistryStore.InMemoryRegistryStore.DiscoveryIsOnlineIff` | registry_service/store.py:62-65 | all peers shown are online exactly when every peer that declares the capability was heard of within 90 seconds |
| `RegistryStore.InMemoryRegistryStore.OfflinePeerIsDiscovered` | registry_service/store.py:62-65 | a declaring peer whose heartbeat is 200 seconds old is returned, shown as offline |
| `RegistryStore.InMemoryRegistryStore.AppendBlock` | registry_service/store.py:67-82 | exactly the next block of the chain is appended and saved, each of its seven fields given |
| `RegistryStore.InMemoryRegistryStore.VerifyLedger` | registry_service/store.py:88-107 | the loop answers valid exactly when every block fits, and otherwise names the first that does not and why |
| `RegistryStore.InMemoryRegistryStore.Perform` | registry_service/store.py:28-82 | any sequence of calls has the outcome of the effects applied one after another |
| `RegistryService.IntactRunsStayQuiet` | registry_service/main.py:35-60 | over any run of appends and verifier ticks, appends falling between check and report included, an intact ledger stays intact and nothing is reported |
| `RegistryService.FaultyTick` | registry_service/main.py:35-60 | a tick on a failing ledger counts one failure and appends one report, even if appends come in between |
| `RegistryService.FaultyRunsKeepReporting` | registry_service/main.py:35-60 | over any run a failing ledger keeps its first failing index and message, and every tick fails and adds exactly one report |
| `RegistryService.RegisteredSays` | registry_service/main.py:99-106 | what the registration block records: the eight fields of the peer |
| `RegistryService.HeartbeatSays` |  registry_service/main.py:116-122 | what the heartbeat block records: status and time, under the sender's id |
| `RegistryService.FailureSays` | registry_service/main.py:48-54 | what the report records: the verifier's message and the number of blocks |
| `RegistryService.RegistryApp.RegisterPeer` | registry_service/main.py:97-107 | the peer is stored, then whatever other threads do in between, then one `peer_registered` block with its record is appended |
| `RegistryService.RegistryApp.PeerHeartbeat` | registry_service/main.py:110-123 | the same for the heartbeat of a known peer; for an unknown one nothing changes and the answer is "not found" |
| `RegistryService.RegistryApp.VerifierTick` | registry_service/main.py:35-60 | one round of the verifier, with whatever others append between check and report, is the tick of the run model |
| `EndpointRuns.NextInv` | registry_service/main.py:97-123 | every step of every thread, an append by others and a crash keep the account of accepted calls and their blocks |
| `EndpointRuns.RecordsKeepUp` | registry_service/main.py:97-123 | over any interleaving and any crashes every accepted registration and heartbeat is recorded, or under way, or was cut off: the blocks lack at most one per thread and one more per thread and crash, and each answers an accepted call |
| `StoreMachine.NextInv` | registry_service/store.py:28-82 | every step of every thread, and a crash, keeps the invariant on memory, disk, lock and threads |
| `StoreMachine.LockSafety` | registry_service/store.py:67-82 | for any threads and any interleaving, crashes included, the ledger always verifies and is numbered 1 to n; with the lock free every returned append is in it once, at its id, as requested, and at most one further block per crash |
| `StoreMachine.MutualExclusion` | registry_service/store.py:68 | no two threads are inside the lock together |
| `StoreMachine.CrashConsistency` | shared/storage/json_state.py:20-36 | dying at any step, also between the two file replacements, what reloads is memory but for at most the block in flight; it verifies and keeps every append that had returned |
| `StoreMachine.NoForks` | registry_service/store.py:67-82 | at every moment of every run two blocks with one predecessor would be a collision |
| `StoreRefinement.ConcurrentRefinesSequential` | registry_service/store.py:28-82 | memory is always the outcome of the effective operations one after another on an empty store, and a restart finds that or, while the lock is held, the outcome without the latest: never a mixture of the two files |
| `Registration.PeerRuntime.RegisterOrHeartbeat` | shared/runtime/service_runtime.py:154-173 | one tick against the real endpoints, other threads at work: the peer counts as registered exactly when the request was accepted and acknowledged, and the registry has it online as of now when it was accepted and arrived |
| `Registration.TwoCleanTicksHeal` | shared/runtime/service_runtime.py:149-173 | after any losses and wipes two clean ticks restore both sides with a fresh heartbeat; one is enough exactly when the peer did not believe in a registration the registry has lost |
| `Registration.RecordIsLastArrival` | registry_service/store.py:28-49 | without wipes, the record is the arrival of the last tick that reached the registry, whether or not its answer did |
| `Registration.StaysOnline` | registry_service/store.py:115-123 | if at most k ticks in a row are lost and (k + 1)(interval + request) + request is at most 90 s, the status shown is online at every moment |
| `Registration.BoundIsTight` | registry_service/store.py:115-123 | past that bound there is a run within the same limits, and a moment, with the peer not online |
| `Registration.FourLossesAtMost` | shared/runtime/service_runtime.py:149-152 | for intervals of 15 s and whole requests of at most 2.5 s the bound holds for k losses exactly when k <= 4, and for 4 losses it fails with anything longer |
| `Routing.AckedIffSomeAttempt` | shared/runtime/service_runtime.py:101-125 | a request succeeds exactly when one of its allowed attempts is acknowledged |
| `Routing.AtLeastOnce` | shared/runtime/service_runtime.py:101-125 | the peer processes it at most `retries` times, and at least once on success |
| `Routing.FanOutEach` | aws_ingestion/main.py:22-53 | record by record: one for each peer in order, of the routed type if one of three attempts is acknowledged, and otherwise with all that is known of the failure |
| `Routing.ComputeTrailIsFailures` | aws_ingestion/main.py:72-82 | computations leave the failures of such a fan-out and nothing else |
| `Routing.NoFailureIff` | aws_ingestion/main.py:56-85 | routing an event fails exactly when some peer acknowledges none of three attempts |
| `Routing.TrailIsWhole` | shared/runtime/service_runtime.py:175-185 | the ledger holds the whole trail exactly when it took every record; a lost append is swallowed |
| `Routing.ServiceRuntime.AppendLedger` | shared/runtime/service_runtime.py:73-80 | the record is sent, and in the ledger if that takes it; no failure reaches the caller |
| `Routing.ServiceRuntime.RouteWithRetries` | shared/runtime/service_runtime.py:85-147 | it stops at the first success; attempt k comes after a total wait of backoff (2^(k-1) - 1); an error is returned exactly when attempts were made and all failed; one `routing_failed` record with target, URL, intended type, attempts and last error when none succeeded |
| `Routing.ServiceRuntime.RouteToCapability` | aws_ingestion/main.py:22-53 | every peer is tried, each leaves one record, and the count is that of the failures |
| `Routing.ServiceRuntime.TriggerCompute` | aws_ingestion/main.py:72-82 | the same for computations, recorded only when they fail |
| `Routing.ServiceRuntime.RouteEvent` | aws_ingestion/main.py:56-85 | the trail and the processing of one event, and an exception exactly when some delivery failed |
| `Ingestion.IndexFindsLast` | aws_ingestion/service.py:106-110 | the index built from the raw log finds the last entry of every symbol |
| `Ingestion.NormalizeMeans` | aws_ingestion/service.py:35-56 | an event describes its message: price, volume and notional value within 5e-7, and the changes of both relative to the earlier message, each zero if there is none or it had zero |
| `Ingestion.EventsMean` | aws_ingestion/service.py:34-61 | over any run every event does so, the earlier message being the last one of its symbol in the log |
| `Ingestion.MessageTrailIs` | aws_ingestion/service.py:63-69 | ingestion is recorded first, then the deliveries for detection, storage and computation |
| `Ingestion.TwoServicesAgree` | aws_ingestion/service.py:34-61 | for nonzero prices on the six-decimal grid, delivered once and in order, the returns computed from a symbol's events match their `price_change_1m`, after the first, within 5e-7, term by term |
| `Ingestion.MessageTrailCounts` | aws_ingestion/main.py:22-85 | how many records of each type one message leaves |
| `Ingestion.AuditConservation` | aws_ingestion/service.py:97-104 | over any run the routed and failed records number the detection and storage deliveries plus the failed computations; forwarded plus failures equals messages; failures never exceed the failure records |
| `Ingestion.IngestionPeer.constructor` | aws_ingestion/service.py:106-110 | logs come from the file and the index from the raw log; the counters start at zero |
| `Ingestion.IngestionPeer.IngestMessage` | aws_ingestion/service.py:34-70 | the event describes its message and the changes since the last one of its symbol, both logs grow by one, the index keeps up, the trail is sent and one counter rises |
| `Ingestion.IngestionPeer.StoreNormalizedEvent` | aws_ingestion/service.py:72-81 | only the event log and the ledger grow |
| `Ingestion.NewEventsFromNothing` | aws_ingestion/service.py:34-61 | for a peer that starts with empty logs the events of a run are those of the agreement theorem |
| `Ingestion.IngestAll` | aws_ingestion/service.py:34-104 | a run of messages leaves exactly the logs, the trail and the counters that the run theorems speak of |
| `DeliveryProofs.RepeatedRedelivers` | shared/runtime/service_runtime.py:103-125 | what retries deliver is the price history in order with each price at least once |
| `DeliveryProofs.RetriesAreHarmless` | gcp_risk/service.py:111-144 | with every price delivered at least once, retries leave the drawdown alone exactly when the first price came once or every fall from it is matched by one between later prices |
| `DeliveryProofs.RetriesKeepReturn` | gcp_risk/service.py:111-154 | and never change the whole-series return |
| `DeliveryProofs.RiskPeerAgrees` | gcp_risk/service.py:111-117 | the histories the risk peer stores agree with the changes the ingestion peer announced, symbol by symbol |
| `DeliveryProofs.OneSymbolReturns` | gcp_risk/service.py:49-66 | positions in one symbol have that symbol's returns times the sum of their weights |
| `DeliveryProofs.RetriesPadReturns` | gcp_risk/service.py:49-66 | retries put zeros into the returns of such a portfolio, none before the first return if the first price came once |
| `DeliveryProofs.RetriesKeepSnapshotDrawdown` | gcp_risk/service.py:44-90 | the snapshot drawdown survives such retries, for any positions in one symbol whose weights sum to something in [0, 1] |
| `DeliveryProofs.RetriesDampenVar` | gcp_risk/service.py:44-90 | the snapshot VaR moves towards zero and never past it |
| `DeliveryProofs.RetriesShortenRolling` | gcp_risk/service.py:146-154 | the 24-period return becomes that of at most 24 periods, and of all of them while there are no more than 24 |
| `PaddedReturns.ReturnsPadded` | gcp_risk/service.py:111-117 | duplicate prices put zeros into a symbol's returns |
| `PaddedReturns.PaddedGrowth` | gcp_risk/service.py:146-154 | zeros change the compounded return of no run of periods |
| `PaddedReturns.PaddedRolling` | gcp_risk/service.py:146-154 | the rolling return of padded returns is that of the periods which its window contains |
| `PaddedReturns.PaddedDrawdown` | gcp_risk/service.py:127-144 | zeros after the first period leave the drawdown of any returns above -1 as it was |
| `PaddedReturns.PaddedVar` | gcp_risk/service.py:119-125 | zeros draw the VaR of any returns towards zero and never past it |
| `RiskMath.EquityCurve` | gcp_risk/service.py:132-136 | the loop computes the compounded growth of every prefix |
| `RiskMath.MaxDrawdown` | gcp_risk/service.py:127-144 | the loop computes the running minimum fall from the running peak, or fails where it would divide by zero |
| `RiskMath.WorstFails` | gcp_risk/service.py:138-142 | it fails exactly when some running peak is zero |
| `RiskMath.RollingReturn` | gcp_risk/service.py:146-154 | the compounded return of the last `window` periods, of all of them for a window of zero |
| `RiskMath.CommonLengthFits` | gcp_risk/service.py:53-66 | every index from -common to -1 lies in every non-empty series; the length is that of one of them, or 0 when there is none |
| `RiskMath.SumPositions` | gcp_risk/service.py:61-65 | the inner loop computes the weighted sum |
| `RiskMath.SinglePosition` | gcp_risk/service.py:62-65 | one position earns its weight times the return of its own symbol, or nothing without returns |
| `RiskMath.WeightedReturnSplits` | gcp_risk/service.py:61-65 | the weighted sum adds up over any groups of positions, in whatever symbols |
| `RiskMath.CommonLengthSplits` | gcp_risk/service.py:53-54 | the common length of two groups is the shorter of theirs, empty ones not counted |
| `RiskMath.PortfolioReturnsSplit` | gcp_risk/service.py:49-66 | the returns of two groups together are the sums of theirs, period by period from the end |
| `RiskMath.TwoSymbolsExample` | gcp_risk/service.py:61-65 | half in a symbol that gains a tenth and half in one that loses a tenth earns 0 |
| `RiskMath.AlignedReturns` | gcp_risk/service.py:49-66 | the loops compute the weighted returns of the last common periods, oldest first |
| `RiskProofs.OnePassDrawdownIsTrue` | gcp_risk/service.py:127-144 | for returns above -1 one pass finds the minimum of (E_j - E_i) / E_i over all i <= j of the equity curve |
| `RiskProofs.DrawdownIsWorstRun` | gcp_risk/service.py:127-144 | which is the worst compounded return of any contiguous run that omits the first period |
| `RiskProofs.DrawdownBounds` | gcp_risk/service.py:127-154 | it lies in (-1, 0] and never exceeds the rolling return over fewer periods than there are |
| `RiskProofs.ReturnsTelescope` | gcp_risk/service.py:111-117 | the returns of positive prices exceed -1 and compound to last over first |
| `RiskProofs.ReturnsInOrder` | gcp_risk/service.py:111-117 | for any history, zero prices included, there is one return for each period that starts at a nonzero price, in order |
| `RiskProofs.DrawdownOfPrices` | gcp_risk/service.py:111-144 | the drawdown of a price history is its deepest fall from any price after the first to a later one |
| `RiskProofs.DuplicatesKeepReturn` | gcp_risk/service.py:111-154 | duplicates of any prices, any number of them, leave the whole-series return as it was |
| `RiskProofs.DuplicatesAreHarmless` | gcp_risk/service.py:37-38 | duplicates of any prices but the first do not change the drawdown |
| `RiskProofs.FirstPriceDuplicate` | gcp_risk/service.py:138 | a duplicate of the first price can only deepen the drawdown, and leaves it exactly when every fall from that price is matched by one between later prices |
| `RiskProofs.FirstPriceDuplicateExample` | gcp_risk/service.py:138 | 100, 90 has drawdown 0; 100, 100, 90 has -0.1 |
| `RiskProofs.HarmlessIff` | gcp_risk/service.py:111-144 | for any duplicates of any prices, exactly when the drawdown does not change: the first price came once or every fall from it is matched by one between later prices |
| `VarProofs.SortIsSort` | gcp_risk/service.py:123 | sorting orders the returns and keeps each as often as it occurs |
| `VarProofs.VarIsOrderStatistic` | gcp_risk/service.py:119-125 | at most n/20 (rounded down) returns lie strictly below the VaR, more than that at or below it, and it is one of them |
| `VarProofs.VarIsTheRank` | gcp_risk/service.py:119-125 | that property holds of no other number |
| `VarProofs.VarIgnoresOrder` | gcp_risk/service.py:119-125 | reordering the returns does not change it |
| `VarProofs.VarIsMonotone` | gcp_risk/service.py:119-125 | raising returns never lowers it |
| `VarProofs.VarIsEquivariant` | gcp_risk/service.py:119-125 | it commutes with x to a x + b for a >= 0 |
| `VolatilityProofs.VolatilitySquared` | gcp_risk/service.py:68 | the square of the volatility is 252 times the variance; at most one return has none |
| `VolatilityProofs.NoVolatilityIffFlat` | gcp_risk/service.py:68 | more than one return has volatility 0 exactly when all are the same |
| `VolatilityProofs.VolatilityScales` | gcp_risk/service.py:68 | volatility takes the scale of the returns and none of their shift |
| `RiskService.HistoriesSplitBySymbol` | gcp_risk/service.py:37-38 | each history is the events of its symbol in order of arrival |
| `RiskService.OnePositionEarns` | gcp_risk/service.py:49-66 | one position in a symbol with positive prices earns its weight times each relative price change |
| `RiskService.SnapshotFigures` | gcp_risk/service.py:68-80 | each figure of a snapshot is in its place and within 5e-7 of its exact value; there is none exactly when the drawdown divides by zero |
| `RiskService.PortfolioAboveLoss` | gcp_risk/service.py:56-66 | weights at least 0 that sum to at most 1 keep every portfolio return above -1 |
| `RiskService.RiskIsWellDefined` | gcp_risk/service.py:44-90 | then, for positive prices of any lengths, equity stays positive, nothing is divided by zero, the drawdown is in (-1, 0], the rolling return above -1, and a snapshot results |
| `RiskService.OlderHistoryIsIgnored` | gcp_risk/service.py:53-66 | older returns in the longer series do not change the portfolio returns |
| `RiskService.RiskPeer.constructor` | gcp_risk/service.py:156-163 | the state comes from the file, or is empty without one |
| `RiskService.RiskPeer.SetPortfolio` | gcp_risk/service.py:32-35 | only the portfolio changes, and is saved |
| `RiskService.RiskPeer.ComputeRisk` | gcp_risk/service.py:44-90 | the loops give the outcome of the value-level model; a snapshot is stored, reported and saved, or nothing changes |
| `RiskService.RiskPeer.IngestEvent` | gcp_risk/service.py:37-42 | the event is stored and saved in any case; a snapshot follows if automatic computation is on and a portfolio set |
| `AnomalyScore.RuleScoreBounds` | azure_anomaly/service.py:111-127 | the rule score lies in [0, 1] and is at most 65 times the price change plus 17.5 times the volume change |
| `AnomalyScore.RuleScoreMonotone` | azure_anomaly/service.py:111-127 | against one history a larger move never scores less |
| `AnomalyScore.RuleReaches` | azure_anomaly/service.py:111-127 | the rule score reaches t exactly when 0.65 p b + 0.35 v a >= t a b, for a and b the larger of the floor and mean plus two deviations of the window's absolute price and volume changes |
| `AnomalyScore.OneMoveReaches` | azure_anomaly/service.py:111-127 | without a volume change exactly when 0.65 p >= t a, without a price change exactly when 0.35 v >= t b |
| `AnomalyScore.FirstEventReaches` | azure_anomaly/service.py:116-117 | without a history exactly when 8 p + 3 v >= t |
| `AnomalyScore.ModelReaches` | azure_anomaly/service.py:129-137 | the forest reaches t exactly with at least 12 samples and a raw score of at least 0.35 + 0.35 t |
| `AnomalyScore.SeverityMeans` | azure_anomaly/service.py:139-147 | critical from 0.95, high from 0.9, medium from 0.85, low below |
| `AnomalyScore.FewExceedBaseline` | azure_anomaly/service.py:119-123 | at most one fifth of any window's own values exceed its mean plus two deviations |
| `AnomalyScore.ModelScore` | azure_anomaly/service.py:129-137 | in [0, 1] for any raw score, and 0 without a forest or with fewer than 12 samples |
| `AnomalyService.RunFaithful` | azure_anomaly/service.py:39-86 | over any run of events, reviews and restarts the windows in memory and on file are the last features of each symbol among the events that count, and the stored alerts are those in memory |
| `AnomalyService.WindowsAreTheLastFeatures` | azure_anomaly/service.py:35-47 | without restarts each window is the last features of its symbol among all events, in order, untouched by other symbols |
| `AnomalyService.WindowHolds` | azure_anomaly/service.py:35-47 | such a window has no more entries than its size, and they are the four figures of the latest events in order |
| `AnomalyService.RestartKeepsAlerts` | azure_anomaly/service.py:165-181 | a restart at any point keeps all alerts and turns the windows back to the last alert or review |
| `AnomalyService.AlertsAreRaised` | azure_anomaly/service.py:49-62 | every alert of any run has a score between the threshold and 1 behind it, and the severity and rounding of that score, reviewed or not |
| `AnomalyService.AlarmingIff` | azure_anomaly/service.py:39-50 | the score reaches the threshold exactly when the announced changes outweigh it against the window or the forest finds the event odd enough |
| `AnomalyService.QuietRunsNeverAlert` | azure_anomaly/service.py:39-50 | without a forest, events that keep 65 times the price change plus 17.5 times the volume change below the threshold create no alert, from any state and through any reviews and restarts |
| `AnomalyService.AnomalyPeer.constructor` | azure_anomaly/service.py:165-173 | a peer starts from the stored alerts and windows |
| `AnomalyService.AnomalyPeer.AnalyzeEvent` | azure_anomaly/service.py:39-70 | the step of the run model; an alert must result exactly when the event is alarming in that sense, names the event, and is then stored and reported |
| `AnomalyService.AnomalyPeer.ReviewAlert` | azure_anomaly/service.py:72-86 | a known alert gets the verdict, is stored and reported; an unknown id changes nothing |

## Left out

- FastAPI, uvicorn, asyncio tasks and logging; the health, list and single-item endpoints, which only read; `peer_counts`.
- `httpx`, MQTT, Azure Blob storage, scikit-learn and SHA-256 themselves: arguments or nondeterministic outcomes.
- Pydantic validation: length limits, literal types, defaults and the extra fields `PeerRegistration` lets through.
- Floating-point rounding, infinities and NaN; numbers in hashed payloads are integers, and `default=str` is not modelled,
  so a payload with floats or with values that are not JSON data is outside the model.
- Strings with lone surrogates: Dafny characters are Unicode scalar values.
- The text of the state files: writing and reading a JSON document is taken as lossless, and a replacement as atomic. A
  crash is the death of the process; what an operating system may lose after that is not modelled, nor are failing writes
  and left-over temporary files.
- StoreMachine.LockSafety: the machine has a state directory and takes calls to the store; operations that only read are
  left out of it, and so is a store without a directory, which loses everything in a crash.
- Registration.FourLossesAtMost: `httpx` applies the configured 2.5 s to connecting, writing, reading and waiting for a
  connection separately, and a sleep may overrun, so a request and an interval can last longer than configured. The lemma
  speaks of whole requests and true intervals.
- Calls that overlap in the ingestion, risk and anomaly services: they hold no lock and are modelled one call at a time.
- Ingestion, risk and anomaly peers without a state file: the model gives each of them one.
- Routing.ServiceRuntime.RouteWithRetries: the symbol in a record (it is that of the event) and the body of an answer are
  not kept. An error status from the peer is one of the two unacknowledged outcomes, depending on whether the peer
  processed the request before it failed.
- Discovery answers that fail validation, which would raise inside `route_event`: discovery is a list of peers.
- DeliveryProofs.RetriesKeepSnapshotDrawdown: for portfolios in one symbol only. With several symbols a duplicate shifts one series
  against the others, and nothing of the kind is claimed.
- Timestamps in events, alerts and snapshots; the reason text of an alert; who reviewed it and their notes.
- Time-zone handling in `_seconds_since`, which belongs to the timestamp parser.
- Dashboards, the simulator, the IoT bridge, deployment scripts and Docker files.
