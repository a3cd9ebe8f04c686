/** The hash-chained ledger: what a block commits to, and what the verifier looks for. */
module Ledger {
  import opened Base
  import opened CanonicalJson

  /** SHA-256 as a hex digest of text; nothing is assumed of it. */
  type Hash = string -> string

  datatype Block = Block(
    blockId: int, timestamp: string, eventType: string, actorNode: string,
    payloadHash: string, previousHash: Option<string>, blockHash: string)

  datatype AppendRequest = AppendRequest(eventType: string, actorNode: string, payload: Json)

  function HashJson(hash: Hash, v: Json): string
  {
    "sha256:" + hash(Dumps(v))
  }

  /** The six fields under the block hash. */
  function Content(b: Block): Json
  {
    Obj([
      Field("block_id", Num(b.blockId)),
      Field("timestamp", Str(b.timestamp)),
      Field("event_type", Str(b.eventType)),
      Field("actor_node", Str(b.actorNode)),
      Field("payload_hash", Str(b.payloadHash)),
      Field("previous_hash", match b.previousHash case None => Null case Some(h) => Str(h))
    ])
  }

  function BlockHash(hash: Hash, b: Block): string
  {
    HashJson(hash, Content(b))
  }

  function Tip(ledger: seq<Block>): Option<string>
  {
    if ledger == [] then None else Some(ledger[|ledger| - 1].blockHash)
  }

  /** The block `append_block` puts on top of a ledger. */
  function NewBlock(hash: Hash, ledger: seq<Block>, request: AppendRequest, timestamp: string): Block
  {
    Sealed(hash, Unsealed(hash, |ledger| + 1, Tip(ledger), request, timestamp))
  }

  function Unsealed(hash: Hash, id: int, previous: Option<string>, request: AppendRequest, timestamp: string): Block
  {
    Block(id, timestamp, request.eventType, request.actorNode, HashJson(hash, request.payload), previous, "")
  }

  function Sealed(hash: Hash, b: Block): Block
  {
    b.(blockHash := BlockHash(hash, b))
  }

  /** A block carries what its caller asked for. */
  predicate Answers(hash: Hash, request: AppendRequest, b: Block)
  {
    && b.eventType == request.eventType && b.actorNode == request.actorNode
    && b.payloadHash == HashJson(hash, request.payload)
  }

  // ---------------------------------------------------------------- verification

  /** Two blocks that agree on everything the block hash covers. */
  predicate SameContent(a: Block, b: Block)
  {
    a.(blockHash := "") == b.(blockHash := "")
  }

  predicate Consistent(hash: Hash, previous: Option<string>, b: Block)
  {
    b.previousHash == previous && b.blockHash == BlockHash(hash, b)
  }

  predicate BlockOk(hash: Hash, ledger: seq<Block>, i: nat)
    requires i < |ledger|
  {
    Consistent(hash, Tip(ledger[..i]), ledger[i])
  }

  ghost predicate Verifies(hash: Hash, ledger: seq<Block>)
  {
    forall i :: 0 <= i < |ledger| ==> BlockOk(hash, ledger, i)
  }

  ghost predicate Numbered(ledger: seq<Block>)
  {
    forall i :: 0 <= i < |ledger| ==> ledger[i].blockId == i + 1
  }

  /** The first block from `start` on that the verifier objects to, or the length of the ledger. */
  function FaultFrom(hash: Hash, ledger: seq<Block>, start: nat): (r: nat)
    requires start <= |ledger|
    ensures start <= r <= |ledger| && (r < |ledger| ==> !BlockOk(hash, ledger, r))
    ensures forall i :: start <= i < r ==> BlockOk(hash, ledger, i)
    decreases |ledger| - start
  {
    if start == |ledger| || !BlockOk(hash, ledger, start) then start
    else FaultFrom(hash, ledger, start + 1)
  }

  function FirstFault(hash: Hash, ledger: seq<Block>): nat
  {
    FaultFrom(hash, ledger, 0)
  }

  /** What the verifier says about block `b` when it stands after `previous`. */
  function FaultText(previous: Option<string>, b: Block): string
  {
    "block " + Number(b.blockId) +
    (if b.previousHash != previous then " has invalid previous_hash" else " hash mismatch")
  }

  // ---------------------------------------------------------------- collisions

  /** Two blocks whose hashed texts differ but share a digest. */
  ghost predicate Collides(hash: Hash, a: Block, b: Block)
  {
    Dumps(Content(a)) != Dumps(Content(b)) && hash(Dumps(Content(a))) == hash(Dumps(Content(b)))
  }

  /** Walks two ledgers back from their tips to the first pair of blocks with different content. */
  function BackwardWalk(a: seq<Block>, b: seq<Block>): Option<(Block, Block)>
  {
    if a == [] || b == [] then None
    else if !SameContent(a[|a| - 1], b[|b| - 1]) then Some((a[|a| - 1], b[|b| - 1]))
    else BackwardWalk(a[..|a| - 1], b[..|b| - 1])
  }
}
