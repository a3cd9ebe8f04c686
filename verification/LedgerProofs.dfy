/** What the hash chain guarantees about the history it records. */
module LedgerProofs {
  import opened Base
  import opened CanonicalJson
  import opened CanonicalJsonProofs
  import opened Ledger

  // ---------------------------------------------------------------- the hashed text

  lemma FieldByField(fs: seq<Field>, gs: seq<Field>, i: nat)
    requires |fs| == |gs| && DistinctFields(gs) && SameFields(fs, gs)
    requires forall k :: 0 <= k < |fs| ==> fs[k].key == gs[k].key
    requires i < |fs|
    ensures Same(fs[i].value, gs[i].value)
  {
    assert FoundIn(fs[i], gs);
    var j :| 0 <= j < |gs| && SameField(fs[i], gs[j]);
    assert j == i;
  }

  lemma ContentKeysDistinct(b: Block)
    ensures DistinctFields(Content(b).fields)
  {
    assert "event_type"[0] == 'e' && "actor_node"[0] == 'a';
  }

  /** Objects over the same distinct keys that hold no arrays or objects are the same only if equal. */
  lemma FlatObjects(fs: seq<Field>, gs: seq<Field>)
    requires |fs| == |gs| && DistinctFields(gs) && SameFields(fs, gs)
    requires forall k :: 0 <= k < |fs| ==> fs[k].key == gs[k].key && !fs[k].value.Arr? && !fs[k].value.Obj?
    ensures fs == gs
  {
    forall i | 0 <= i < |fs| ensures fs[i] == gs[i] {
      FieldByField(fs, gs, i);
    }
  }

  lemma ContentInjective(a: Block, b: Block)
    requires Content(a).fields == Content(b).fields
    ensures SameContent(a, b)
  {
    var fs, gs := Content(a).fields, Content(b).fields;
    assert fs[0] == gs[0] && fs[1] == gs[1] && fs[2] == gs[2] && fs[3] == gs[3] && fs[4] == gs[4] && fs[5] == gs[5];
  }

  /** The six block fields are recoverable from the hashed text. */
  lemma HashedTextFixesContent(a: Block, b: Block)
    ensures Dumps(Content(a)) == Dumps(Content(b)) <==> SameContent(a, b)
  {
    hide Dumps, Canon, Render, SameFields;
    if SameContent(a, b) {
      assert Content(a) == Content(b);
    } else if Dumps(Content(a)) == Dumps(Content(b)) {
      ContentKeysDistinct(a);
      ContentKeysDistinct(b);
      DumpsUnambiguous(Content(a), Content(b));
      FlatObjects(Content(a).fields, Content(b).fields);
      ContentInjective(a, b);
    }
  }

  lemma EqualHashes(hash: Hash, a: Block, b: Block)
    requires BlockHash(hash, a) == BlockHash(hash, b)
    ensures SameContent(a, b) || Collides(hash, a, b)
  {
    HashedTextFixesContent(a, b);
    var x, y := hash(Dumps(Content(a))), hash(Dumps(Content(b)));
    DropSame("sha256:", x, y);
  }

  // ---- spelled out

  /** A member of an object whose key needs no escape. */
  function Member(key: string, value: string): string
  {
    "\"" + key + "\":" + value
  }

  function Quoted(s: string): string
  {
    "\"" + Body(s)
  }

  /** The text under a block's hash: the six members in the order of their names. */
  function BlockText(b: Block): string
  {
    "{" + Member("actor_node", Quoted(b.actorNode)) + (
    "," + Member("block_id", Number(b.blockId)) + (
    "," + Member("event_type", Quoted(b.eventType)) + (
    "," + Member("payload_hash", Quoted(b.payloadHash)) + (
    "," + Member("previous_hash", if b.previousHash.None? then "null" else Quoted(b.previousHash.value)) + (
    "," + Member("timestamp", Quoted(b.timestamp)) + "}")))))
  }

  predicate NeedsNoEscape(s: string)
  {
    forall i :: 0 <= i < |s| ==> ' ' <= s[i] <= '~' && s[i] != '\\' && s[i] != '\"'
  }

  lemma {:induction false} BodyOfPlain(s: string)
    requires NeedsNoEscape(s)
    ensures Body(s) == s + "\""
  {
    if s != [] {
      assert EscapeChar(s[0]) == [s[0]];
      BodyOfPlain(s[1..]);
      assert s == [s[0]] + s[1..];
    }
  }

  lemma MemberText(key: string, value: Json)
    requires NeedsNoEscape(key)
    ensures RenderField(Field(key, value)) == Member(key, Render(value))
  {
    BodyOfPlain(key);
    assert "\"" + (key + "\"") + ":" + Render(value) == "\"" + key + "\":" + Render(value);
  }

  /** The fields of a block by name. */
  function ByName(b: Block): seq<Field>
  {
    [
      Field("actor_node", Str(b.actorNode)),
      Field("block_id", Num(b.blockId)),
      Field("event_type", Str(b.eventType)),
      Field("payload_hash", Str(b.payloadHash)),
      Field("previous_hash", match b.previousHash case None => Null case Some(h) => Str(h)),
      Field("timestamp", Str(b.timestamp))
    ]
  }

  lemma NamesAscend(b: Block)
    ensures Ascending(ByName(b))
  {
    var fs := ByName(b);
    assert fs[0].key[0] == 'a' && fs[1].key[0] == 'b' && fs[2].key[0] == 'e' && fs[5].key[0] == 't';
    assert fs[3].key[0] == 'p' && fs[4].key[0] == 'p';
    assert fs[3].key[1..][0] == 'a' && fs[4].key[1..][0] == 'r';
  }

  lemma SortedByName(b: Block)
    ensures Sort(Content(b).fields) == ByName(b)
  {
    hide Sort, Ascending, InOrder, Before;
    var fs, gs := Content(b).fields, ByName(b);
    ContentKeysDistinct(b);
    SortAscending(fs);
    NamesAscend(b);
    assert fs == [gs[1], gs[5], gs[2], gs[0], gs[3], gs[4]];
    assert gs == [fs[3], fs[0], fs[2], fs[4], fs[5], fs[1]];
    AscendingUnique(Sort(fs), gs);
  }

  lemma ContentIsFlat(b: Block)
    ensures CanonFields(Content(b).fields) == Content(b).fields
  {
  }

  lemma FieldsStep(fs: seq<Field>)
    requires fs != []
    ensures RenderFields(fs) == "," + RenderField(fs[0]) + RenderFields(fs[1..])
  {
  }

  lemma NamesNeedNoEscape()
    ensures NeedsNoEscape("actor_node") && NeedsNoEscape("block_id") && NeedsNoEscape("event_type")
    ensures NeedsNoEscape("payload_hash") && NeedsNoEscape("previous_hash") && NeedsNoEscape("timestamp")
  {
  }

  /** What is hashed, character by character. */
  lemma BlockHashIs(hash: Hash, b: Block)
    ensures BlockHash(hash, b) == "sha256:" + hash(BlockText(b))
  {
    hide ByName, Render, Sort, BlockText, CanonFields;
    ContentIsFlat(b);
    SortedByName(b);
    ByNameText(b);
    assert Canon(Content(b)) == Obj(ByName(b));
  }

  lemma ByNameText(b: Block)
    ensures Render(Obj(ByName(b))) == BlockText(b)
  {
    hide RenderFields, RenderField, NeedsNoEscape, Member;
    var fs := ByName(b);
    NamesNeedNoEscape();
    forall i | 0 <= i < 6 ensures RenderField(fs[i]) == Member(fs[i].key, Render(fs[i].value)) {
      MemberText(fs[i].key, fs[i].value);
    }
    FieldsStep(fs[1..]);
    FieldsStep(fs[2..]);
    FieldsStep(fs[3..]);
    FieldsStep(fs[4..]);
    FieldsStep(fs[5..]);
    NoMoreFields();
    assert fs[1..][1..] == fs[2..] && fs[2..][1..] == fs[3..] && fs[3..][1..] == fs[4..];
    assert fs[4..][1..] == fs[5..] && fs[5..][1..] == [];
  }

  lemma NoMoreFields()
    ensures RenderFields([]) == "}"
  {
  }

  // ---------------------------------------------------------------- prefixes

  lemma VerifiedPrefix(hash: Hash, ledger: seq<Block>, n: nat)
    requires n <= |ledger| && Verifies(hash, ledger)
    ensures Verifies(hash, ledger[..n])
  {
    forall i | 0 <= i < n ensures BlockOk(hash, ledger[..n], i) {
      assert ledger[..n][..i] == ledger[..i];
      assert BlockOk(hash, ledger, i);
    }
  }

  lemma ExtensionKeepsBlocks(hash: Hash, ledger: seq<Block>, more: seq<Block>, i: nat)
    requires i < |ledger|
    ensures BlockOk(hash, ledger + more, i) == BlockOk(hash, ledger, i)
  {
    assert (ledger + more)[..i] == ledger[..i];
  }

  /** A block numbered and linked to the tip, once sealed, keeps the ledger verifying and numbered. */
  lemma SealedBlockVerifies(hash: Hash, ledger: seq<Block>, b: Block)
    requires Verifies(hash, ledger) && Numbered(ledger)
    requires b.blockId == |ledger| + 1 && b.previousHash == Tip(ledger)
    ensures Verifies(hash, ledger + [Sealed(hash, b)]) && Numbered(ledger + [Sealed(hash, b)])
  {
    var c := Sealed(hash, b);
    SealingIgnoresHash(hash, b);
    forall i | 0 <= i < |ledger| + 1 ensures BlockOk(hash, ledger + [c], i) {
      assert (ledger + [c])[..|ledger|] == ledger;
      if i < |ledger| { ExtensionKeepsBlocks(hash, ledger, [c], i); }
    }
  }

  lemma AppendVerifies(hash: Hash, ledger: seq<Block>, request: AppendRequest, timestamp: string)
    requires Verifies(hash, ledger) && Numbered(ledger)
    ensures Verifies(hash, ledger + [NewBlock(hash, ledger, request, timestamp)])
    ensures Numbered(ledger + [NewBlock(hash, ledger, request, timestamp)])
  {
    SealedBlockVerifies(hash, ledger, Unsealed(hash, |ledger| + 1, Tip(ledger), request, timestamp));
  }

  lemma SealingIgnoresHash(hash: Hash, b: Block)
    ensures BlockHash(hash, Sealed(hash, b)) == BlockHash(hash, b)
  {
    assert Content(Sealed(hash, b)) == Content(b);
  }

  // ---------------------------------------------------------------- the tip fixes the history

  lemma TopBlocks(hash: Hash, a: seq<Block>, b: seq<Block>)
    requires Verifies(hash, a) && Verifies(hash, b) && a != [] && b != [] && Tip(a) == Tip(b)
    ensures a[|a| - 1].blockHash == b[|b| - 1].blockHash
    ensures a[|a| - 1].previousHash == Tip(a[..|a| - 1]) && b[|b| - 1].previousHash == Tip(b[..|b| - 1])
    ensures SameContent(a[|a| - 1], b[|b| - 1]) || Collides(hash, a[|a| - 1], b[|b| - 1])
  {
    assert BlockOk(hash, a, |a| - 1) && BlockOk(hash, b, |b| - 1);
    EqualHashes(hash, a[|a| - 1], b[|b| - 1]);
  }

  /** Two ledgers that verify and share their tip hash are one ledger, or the walk back from the tips
      ends on an explicit collision; the walk finds something exactly when the ledgers differ. */
  lemma {:induction false} TipFixesHistory(hash: Hash, a: seq<Block>, b: seq<Block>)
    requires Verifies(hash, a) && Verifies(hash, b)
    requires Tip(a) == Tip(b)
    ensures BackwardWalk(a, b).None? <==> a == b
    ensures BackwardWalk(a, b).Some? ==>
      var (x, y) := BackwardWalk(a, b).value; x in a && y in b && Collides(hash, x, y)
    decreases |a|
  {
    if a == [] || b == [] {
    } else {
      var a', b' := a[..|a| - 1], b[..|b| - 1];
      var x, y := a[|a| - 1], b[|b| - 1];
      TopBlocks(hash, a, b);
      assert a == a' + [x] && b == b' + [y];
      if SameContent(x, y) {
        VerifiedPrefix(hash, a, |a| - 1);
        VerifiedPrefix(hash, b, |b| - 1);
        TipFixesHistory(hash, a', b');
      }
    }
  }

  // ---------------------------------------------------------------- a change is located

  /** The verifier's first objection is settled by the blocks up to it. */
  lemma FirstFaultIs(hash: Hash, ledger: seq<Block>, r: nat)
    requires r <= |ledger|
    requires forall i :: 0 <= i < r ==> BlockOk(hash, ledger, i)
    requires r < |ledger| ==> !BlockOk(hash, ledger, r)
    ensures FirstFault(hash, ledger) == r
  {
  }

  lemma EqualHashesInPlace(hash: Hash, previous: Option<string>, a: Block, b: Block)
    requires Consistent(hash, previous, a) && Consistent(hash, previous, b) && a.blockHash == b.blockHash
    ensures a == b || Collides(hash, a, b)
  {
    EqualHashes(hash, a, b);
  }

  /** Replacing one block of a ledger that verifies. A replacement that does not fit its own place is
      found there. One that does (altered and rehashed) is found at its successor, and goes
      unnoticed exactly when it has none; the alternative is a collision with the original. */
  lemma ReplacementIsLocated(hash: Hash, ledger: seq<Block>, i: nat, b: Block)
    requires Verifies(hash, ledger) && i < |ledger| && b != ledger[i]
    ensures FirstFault(hash, ledger[i := b]) ==
            (if Consistent(hash, ledger[i].previousHash, b) then i + 1 else i)
            || Collides(hash, ledger[i], b)
  {
    var l := ledger[i := b];
    assert BlockOk(hash, ledger, i);
    forall k | 0 <= k < i ensures BlockOk(hash, l, k) {
      assert BlockOk(hash, ledger, k) && l[..k] == ledger[..k];
    }
    assert l[..i] == ledger[..i];
    if !Consistent(hash, ledger[i].previousHash, b) {
      FirstFaultIs(hash, l, i);
    } else if b.blockHash == ledger[i].blockHash {
      EqualHashesInPlace(hash, ledger[i].previousHash, ledger[i], b);
    } else {
      if i + 1 < |l| {
        assert BlockOk(hash, ledger, i + 1);
        assert Tip(l[..i + 1]) == Some(b.blockHash) && Tip(ledger[..i + 1]) == Some(ledger[i].blockHash);
      }
      FirstFaultIs(hash, l, i + 1);
    }
  }

  /** The damage is local: apart from the block itself only its successor can turn bad, and does so exactly when the
      block's hash changed. Every later block still passes on its own. */
  lemma DamageIsLocal(hash: Hash, ledger: seq<Block>, i: nat, b: Block, k: nat)
    requires Verifies(hash, ledger) && i < |ledger| && k < |ledger|
    ensures BlockOk(hash, ledger[i := b], k) <==>
            if k == i then Consistent(hash, ledger[i].previousHash, b)
            else k == i + 1 ==> b.blockHash == ledger[i].blockHash
  {
    var l := ledger[i := b];
    assert BlockOk(hash, ledger, k) && BlockOk(hash, ledger, i);
    if k <= i {
      assert l[..k] == ledger[..k];
    }
  }

  /** A change goes unnoticed exactly when it replaces the last block by one that fits there, short of a collision. */
  lemma UnnoticedIff(hash: Hash, ledger: seq<Block>, i: nat, b: Block)
    requires Verifies(hash, ledger) && i < |ledger| && b != ledger[i]
    ensures (Verifies(hash, ledger[i := b]) <==> i == |ledger| - 1 && Consistent(hash, ledger[i].previousHash, b))
            || Collides(hash, ledger[i], b)
  {
    ReplacementIsLocated(hash, ledger, i, b);
    VerifiesIffNoFault(hash, ledger[i := b]);
  }

  /** Such changes exist on every ledger: whatever block was appended last, the block of another request put in its
      place differs from it and raises no objection. */
  lemma RewrittenTipGoesUnnoticed(hash: Hash, ledger: seq<Block>, r: AppendRequest, q: AppendRequest, t: string)
    requires Verifies(hash, ledger) && Numbered(ledger) && r.eventType != q.eventType
    ensures var honest := ledger + [NewBlock(hash, ledger, r, t)];
      var rewritten := honest[|ledger| := NewBlock(hash, ledger, q, t)];
      rewritten != honest && Verifies(hash, honest) && FirstFault(hash, rewritten) == |rewritten|
  {
    var x, y := NewBlock(hash, ledger, r, t), NewBlock(hash, ledger, q, t);
    AppendVerifies(hash, ledger, r, t);
    AppendVerifies(hash, ledger, q, t);
    assert (ledger + [x])[|ledger| := y] == ledger + [y];
    assert (ledger + [x])[|ledger|] == x && (ledger + [y])[|ledger|] == y;
    VerifiesIffNoFault(hash, ledger + [y]);
  }

  /** Every later block turns bad exactly when there is at most one and it follows a changed hash. */
  lemma LaterBlocksFailIff(hash: Hash, ledger: seq<Block>, i: nat, b: Block)
    requires Verifies(hash, ledger) && i < |ledger|
    ensures var l := ledger[i := b];
      (forall k :: i < k < |l| ==> !BlockOk(hash, l, k)) <==>
      i + 1 == |l| || (i + 2 == |l| && b.blockHash != ledger[i].blockHash)
  {
    var l := ledger[i := b];
    if i + 1 < |l| { DamageIsLocal(hash, ledger, i, b, i + 1); }
    if i + 2 < |l| { DamageIsLocal(hash, ledger, i, b, i + 2); }
    assert i + 2 < |l| ==> BlockOk(hash, l, i + 2);
  }

  /** The ledger of three appends. */
  function ThreeBlocks(hash: Hash, r: AppendRequest, t: string): seq<Block>
  {
    var one := [NewBlock(hash, [], r, t)];
    var two := one + [NewBlock(hash, one, r, t)];
    two + [NewBlock(hash, two, r, t)]
  }

  /** For instance, in a ledger of three appends whose first block is altered, rehashed or not, the third block still
      passes. */
  lemma ThirdBlockStillPasses(hash: Hash, r: AppendRequest, t: string, other: string)
    requires other != r.eventType
    ensures var l := ThreeBlocks(hash, r, t);
      var altered := l[0].(eventType := other);
      && Verifies(hash, l) && Numbered(l) && altered != l[0]
      && BlockOk(hash, l[0 := altered], 2) && BlockOk(hash, l[0 := Sealed(hash, altered)], 2)
      && (FirstFault(hash, l[0 := altered]) == 0 || Collides(hash, l[0], altered))
  {
    var one := [NewBlock(hash, [], r, t)];
    var two := one + [NewBlock(hash, one, r, t)];
    var l := ThreeBlocks(hash, r, t);
    AppendVerifies(hash, [], r, t);
    assert [] + one == one;
    AppendVerifies(hash, one, r, t);
    AppendVerifies(hash, two, r, t);
    var altered := l[0].(eventType := other);
    DamageIsLocal(hash, l, 0, altered, 2);
    DamageIsLocal(hash, l, 0, Sealed(hash, altered), 2);
    AlteredWithoutRehash(hash, l, 0, altered);
  }

  /** Changing any hashed field but not the hash never yields a block that fits, short of a collision. */
  lemma AlteredWithoutRehash(hash: Hash, ledger: seq<Block>, i: nat, b: Block)
    requires Verifies(hash, ledger) && i < |ledger|
    requires b.blockHash == ledger[i].blockHash && !SameContent(b, ledger[i])
    ensures FirstFault(hash, ledger[i := b]) == i || Collides(hash, ledger[i], b)
  {
    assert BlockOk(hash, ledger, i);
    if Consistent(hash, ledger[i].previousHash, b) {
      EqualHashes(hash, ledger[i], b);
    }
    ReplacementIsLocated(hash, ledger, i, b);
  }

  /** No later block can mend a ledger that fails: the first fault stays where it is. */
  lemma FaultNeverHeals(hash: Hash, ledger: seq<Block>, more: seq<Block>)
    requires FirstFault(hash, ledger) < |ledger|
    ensures FirstFault(hash, ledger + more) == FirstFault(hash, ledger)
  {
    var r := FirstFault(hash, ledger);
    ExtensionKeepsBlocks(hash, ledger, more, r);
    forall i | 0 <= i < r ensures BlockOk(hash, ledger + more, i) {
      ExtensionKeepsBlocks(hash, ledger, more, i);
    }
  }

  lemma VerifiesIffNoFault(hash: Hash, ledger: seq<Block>)
    ensures Verifies(hash, ledger) <==> FirstFault(hash, ledger) == |ledger|
  {
  }

  /** A block names the hash of the one before, the first none, and its hash is that of its own text. */
  ghost predicate Linked(hash: Hash, ledger: seq<Block>, i: nat)
    requires i < |ledger|
  {
    && ledger[i].previousHash == (if i == 0 then None else Some(ledger[i - 1].blockHash))
    && ledger[i].blockHash == "sha256:" + hash(BlockText(ledger[i]))
  }

  lemma OkMeansLinked(hash: Hash, ledger: seq<Block>, i: nat)
    requires i < |ledger|
    ensures BlockOk(hash, ledger, i) <==> Linked(hash, ledger, i)
  {
    hide BlockHash, BlockText;
    BlockHashIs(hash, ledger[i]);
  }

  /** What the verifier accepts, spelled out. */
  lemma VerifiesMeans(hash: Hash, ledger: seq<Block>)
    ensures Verifies(hash, ledger) <==> forall i :: 0 <= i < |ledger| ==> Linked(hash, ledger, i)
  {
    hide BlockOk, Linked;
    forall i | 0 <= i < |ledger| ensures BlockOk(hash, ledger, i) <==> Linked(hash, ledger, i) {
      OkMeansLinked(hash, ledger, i);
    }
  }

  // ---------------------------------------------------------------- one chain, no forks

  /** In a numbered ledger that verifies no two blocks name the same predecessor. */
  lemma NoSharedPredecessor(hash: Hash, ledger: seq<Block>, i: nat, j: nat)
    requires Verifies(hash, ledger) && Numbered(ledger)
    requires i < j < |ledger| && ledger[i].previousHash == ledger[j].previousHash
    ensures i > 0 && Collides(hash, ledger[i - 1], ledger[j - 1])
  {
    assert BlockOk(hash, ledger, i) && BlockOk(hash, ledger, j);
    assert i > 0;
    VerifiedPrefix(hash, ledger, i);
    VerifiedPrefix(hash, ledger, j);
    TopBlocks(hash, ledger[..i], ledger[..j]);
  }

  /** Why the tip is read under the lock: two blocks built on one and the same tip cannot both be
      appended, or the ledger stops verifying at the second one. */
  lemma StaleTipBreaksChain(
      hash: Hash, ledger: seq<Block>, first: AppendRequest, second: AppendRequest, t: string, u: string)
    requires Verifies(hash, ledger) && Numbered(ledger)
    ensures
      var x := NewBlock(hash, ledger, first, t);
      var y := Sealed(hash, Unsealed(hash, |ledger| + 2, Tip(ledger), second, u));
      FirstFault(hash, ledger + [x, y]) == |ledger| + 1
      || (ledger != [] && Collides(hash, ledger[|ledger| - 1], x))
  {
    var x := NewBlock(hash, ledger, first, t);
    var y := Sealed(hash, Unsealed(hash, |ledger| + 2, Tip(ledger), second, u));
    var l := ledger + [x, y];
    AppendVerifies(hash, ledger, first, t);
    assert l == (ledger + [x]) + [y] && l[..|ledger| + 1] == ledger + [x];
    forall i | 0 <= i < |ledger| + 1 ensures BlockOk(hash, l, i) {
      assert BlockOk(hash, ledger + [x], i);
      ExtensionKeepsBlocks(hash, ledger + [x], [y], i);
    }
    if ledger != [] && x.blockHash == ledger[|ledger| - 1].blockHash {
      assert BlockOk(hash, ledger, |ledger| - 1);
      SealingIgnoresHash(hash, Unsealed(hash, |ledger| + 1, Tip(ledger), first, t));
      EqualHashes(hash, ledger[|ledger| - 1], x);
    } else {
      FirstFaultIs(hash, l, |ledger| + 1);
    }
  }
}
