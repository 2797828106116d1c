/**
 The literal text comparison (backend/src/capabilities/text_compare.py) and the validators of
 its typed result (backend/src/domain/main_agent.py).
 */
module TextCompare {
  import opened Wrappers
  import opened MaterialText
  import opened SequenceMatcher

  const MAX_DIFF_BLOCKS := 50
  const CAPABILITY_ID := "text.literal_compare"
  const CAPABILITY_VERSION := 1
  const RULE_VERSION := "literal-lines@1"

  /** SHA-256 taken as injective: a digest is known by the text it is of. */
  datatype Digest = Sha256(text: string)

  datatype Material = Material(id: nat, original: string, normalized: string, digest: Digest) {
    /** The snapshot validator: the normalised text and the digest are recomputed. */
    predicate Valid() {
      && ValidateMaterialText(original) == Ok(normalized)
      && digest == Sha256(normalized)
    }
    function Lines(): seq<string> { MaterialLines(normalized) }
  }

  datatype Kind = Added | Deleted | Modified

  /** The four optional fields one side of a block has. */
  datatype Side = Side(start: Option<int>, end: Option<int>, lines: Option<seq<string>>, quote: Option<string>)

  const ABSENT := Side(None, None, None, None)

  datatype Block = Block(kind: Kind, a: Side, b: Side)

  datatype Status = NoDifference | HasDifference

  datatype Comparison = Comparison(
    runId: nat, aMaterialId: nat, bMaterialId: nat, capabilityId: string, capabilityVersion: int,
    ruleVersion: string, status: Status, blocks: seq<Block>)

  datatype CompareError = LimitExceeded | ValidationError

  // ----- building the blocks

  function PresentSide(lines: seq<string>, lo: nat, hi: nat): Side
    requires lo <= hi <= |lines|
  {
    Side(Some(lo + 1), Some(hi), Some(lines[lo..hi]), Some(Join(lines[lo..hi])))
  }

  predicate InRange(op: Opcode, a: seq<string>, b: seq<string>) {
    op.a1 <= op.a2 <= |a| && op.b1 <= op.b2 <= |b|
  }

  function BlockOf(op: Opcode, a: seq<string>, b: seq<string>): Block
    requires op.tag != Equal && InRange(op, a, b)
  {
    match op.tag
    case Insert => Block(Added, ABSENT, PresentSide(b, op.b1, op.b2))
    case Delete => Block(Deleted, PresentSide(a, op.a1, op.a2), ABSENT)
    case Replace => Block(Modified, PresentSide(a, op.a1, op.a2), PresentSide(b, op.b1, op.b2))
  }

  predicate AllInRange(ops: seq<Opcode>, a: seq<string>, b: seq<string>) {
    ops == [] || (InRange(ops[0], a, b) && AllInRange(ops[1..], a, b))
  }

  function Blocks(ops: seq<Opcode>, a: seq<string>, b: seq<string>): seq<Block>
    requires AllInRange(ops, a, b)
  {
    if ops == [] then []
    else
      (if ops[0].tag == Equal then [] else [BlockOf(ops[0], a, b)]) + Blocks(ops[1..], a, b)
  }

  // ----- validators

  predicate ValidSide(present: bool, side: Side) {
    if !present then side == ABSENT
    else
      && side.start.Some? && side.end.Some? && side.lines.Some? && side.quote.Some?
      && 1 <= side.start.value <= side.end.value
      && |side.lines.value| == side.end.value - side.start.value + 1
      && (forall i | 0 <= i < |side.lines.value| :: LF !in side.lines.value[i] && CR !in side.lines.value[i])
      && Join(side.lines.value) == side.quote.value
  }

  predicate ValidBlock(block: Block) {
    ValidSide(block.kind != Added, block.a) && ValidSide(block.kind != Deleted, block.b)
  }

  predicate HasRange(side: Side) { side.start.Some? && side.end.Some? }

  /** Ranges on one side start at line 1 or later and strictly follow each other. */
  predicate Ordered(sides: seq<Side>) {
    && (forall i | 0 <= i < |sides| && HasRange(sides[i]) :: 0 < sides[i].start.value)
    && forall i, j | 0 <= i < j < |sides| && HasRange(sides[i]) && HasRange(sides[j]) ::
         sides[i].end.value < sides[j].start.value
  }

  function ASides(blocks: seq<Block>): seq<Side> { seq(|blocks|, i requires 0 <= i < |blocks| => blocks[i].a) }
  function BSides(blocks: seq<Block>): seq<Side> { seq(|blocks|, i requires 0 <= i < |blocks| => blocks[i].b) }

  /** The loop of `_validate_block_order` accepts exactly the ordered sides. */
  method ValidateBlockOrder(sides: seq<Side>) returns (ok: bool)
    requires forall i | 0 <= i < |sides| && HasRange(sides[i]) :: sides[i].start.value <= sides[i].end.value
    ensures ok <==> Ordered(sides)
  {
    var previousEnd := 0;
    for n := 0 to |sides|
      invariant Ordered(sides[..n]) && 0 <= previousEnd
      invariant previousEnd == 0 || exists i :: 0 <= i < n && HasRange(sides[i]) && sides[i].end.value == previousEnd
      invariant forall i | 0 <= i < n && HasRange(sides[i]) :: sides[i].end.value <= previousEnd
    {
      var side := sides[n];
      if HasRange(side) {
        if side.start.value <= previousEnd {
          return false;
        }
        previousEnd := side.end.value;
      }
    }
    assert sides[..|sides|] == sides;
    return true;
  }

  predicate ValidComparison(c: Comparison) {
    && c.capabilityId == CAPABILITY_ID && c.capabilityVersion == CAPABILITY_VERSION && c.ruleVersion == RULE_VERSION
    && |c.blocks| <= MAX_DIFF_BLOCKS
    && (forall i | 0 <= i < |c.blocks| :: ValidBlock(c.blocks[i]))
    && c.aMaterialId != c.bMaterialId
    && (c.status == NoDifference <==> c.blocks == [])
    && Ordered(ASides(c.blocks)) && Ordered(BSides(c.blocks))
  }

  // ----- compare_materials

  function DiffBlocks(a: seq<string>, b: seq<string>): seq<Block> {
    GetOpcodesTiles(a, b);
    TilesInRange(a, b, GetOpcodes(a, b), 0, 0);
    Blocks(GetOpcodes(a, b), a, b)
  }

  function ComparisonOf(runId: nat, textA: Material, textB: Material, blocks: seq<Block>): Comparison {
    Comparison(runId, textA.id, textB.id, CAPABILITY_ID, CAPABILITY_VERSION, RULE_VERSION,
               if blocks == [] then NoDifference else HasDifference, blocks)
  }

  function Compare(runId: nat, textA: Material, textB: Material): Result<Comparison, CompareError> {
    var blocks := DiffBlocks(textA.Lines(), textB.Lines());
    if |blocks| > MAX_DIFF_BLOCKS then Err(LimitExceeded)
    else if textA.id == textB.id then Err(ValidationError)
    else Ok(ComparisonOf(runId, textA, textB, blocks))
  }

  method CompareMaterials(runId: nat, textA: Material, textB: Material)
    returns (r: Result<Comparison, CompareError>)
    requires textA.Valid() && textB.Valid()
    ensures r == Compare(runId, textA, textB)
    ensures r.Ok? ==> ValidComparison(r.value)
  {
    hide GetOpcodes, DiffBlocks, Blocks, AllInRange, BlockOf, Compare, Ordered, ValidBlock;
    var a, b := textA.Lines(), textB.Lines();
    var ops := GetOpcodes(a, b);
    CompareUnfolds(runId, textA, textB);
    var blocks := [];
    for n := 0 to |ops|
      invariant AllInRange(ops[n..], a, b) && |blocks| <= MAX_DIFF_BLOCKS
      invariant blocks + Blocks(ops[n..], a, b) == DiffBlocks(a, b)
    {
      BlocksAt(ops, n, a, b);
      var op := ops[n];
      if op.tag == Equal { continue; }
      blocks := blocks + [BlockOf(op, a, b)];
      if |blocks| > MAX_DIFF_BLOCKS {
        return Err(LimitExceeded);
      }
    }
    NoOpcodesNoBlocks(a, b);
    assert ops[|ops|..] == [] && blocks == DiffBlocks(a, b);
    var orderedA := ValidateBlockOrder(ASides(blocks));
    var orderedB := ValidateBlockOrder(BSides(blocks));
    if textA.id == textB.id || !orderedA || !orderedB {
      return Err(ValidationError);
    }
    return Ok(ComparisonOf(runId, textA, textB, blocks));
  }

  lemma NoOpcodesNoBlocks(a: seq<string>, b: seq<string>)
    ensures AllInRange([], a, b) && Blocks([], a, b) == []
  {
  }

  lemma CompareUnfolds(runId: nat, textA: Material, textB: Material)
    requires textA.Valid() && textB.Valid()
    ensures var a, b := textA.Lines(), textB.Lines();
            var blocks := DiffBlocks(a, b);
            && AllInRange(GetOpcodes(a, b), a, b) && blocks == Blocks(GetOpcodes(a, b), a, b)
            && (forall i | 0 <= i < |ASides(blocks)| && HasRange(ASides(blocks)[i]) ::
                  ASides(blocks)[i].start.value <= ASides(blocks)[i].end.value)
            && (forall i | 0 <= i < |BSides(blocks)| && HasRange(BSides(blocks)[i]) ::
                  BSides(blocks)[i].start.value <= BSides(blocks)[i].end.value)
            && Ordered(ASides(blocks)) && Ordered(BSides(blocks))
            && Compare(runId, textA, textB)
               == (if |blocks| > MAX_DIFF_BLOCKS then Err(LimitExceeded)
                   else if textA.id == textB.id then Err(ValidationError)
                   else Ok(ComparisonOf(runId, textA, textB, blocks)))
            && (|blocks| <= MAX_DIFF_BLOCKS && textA.id != textB.id ==>
                  ValidComparison(ComparisonOf(runId, textA, textB, blocks)))
  {
    hide GetOpcodes, Tiles, Blocks, AllInRange, Ordered;
    DiffIsValid(textA, textB);
    CompareAlwaysValidates(runId, textA, textB);
    GetOpcodesTiles(textA.Lines(), textB.Lines());
    TilesInRange(textA.Lines(), textB.Lines(), GetOpcodes(textA.Lines(), textB.Lines()), 0, 0);
  }

  lemma BlocksAt(ops: seq<Opcode>, n: nat, a: seq<string>, b: seq<string>)
    requires n < |ops| && AllInRange(ops[n..], a, b)
    ensures InRange(ops[n], a, b) && AllInRange(ops[n + 1..], a, b)
    ensures Blocks(ops[n..], a, b)
            == (if ops[n].tag == Equal then [] else [BlockOf(ops[n], a, b)]) + Blocks(ops[n + 1..], a, b)
  {
    assert ops[n..][0] == ops[n] && ops[n..][1..] == ops[n + 1..];
  }

  lemma {:induction false} TilesInRange(a: seq<string>, b: seq<string>, ops: seq<Opcode>, i: nat, j: nat)
    requires Tiles(a, b, ops, i, j)
    ensures AllInRange(ops, a, b)
    decreases |ops|
  {
    if ops != [] {
      TilesInRange(a, b, ops[1..], ops[0].a2, ops[0].b2);
    }
  }

  // ----- what a reader may rely on in a block

  /** The side quotes exactly the lines its range names. */
  ghost predicate Quotes(side: Side, lines: seq<string>) {
    side != ABSENT ==>
      && HasRange(side) && side.lines.Some? && side.quote.Some?
      && 1 <= side.start.value <= side.end.value <= |lines|
      && side.lines.value == lines[side.start.value - 1..side.end.value]
      && side.quote.value == Join(side.lines.value)
  }

  /** A modified block's two sides have no line in common. */
  ghost predicate ReallyModified(block: Block) {
    block.kind == Modified && block.a.lines.Some? && block.b.lines.Some? ==>
      forall x, y | x in block.a.lines.value && y in block.b.lines.value :: x != y
  }

  ghost predicate Clean(lines: seq<string>) {
    forall i | 0 <= i < |lines| :: LF !in lines[i] && CR !in lines[i]
  }

  lemma SlicesDiffer(a: seq<string>, b: seq<string>, w: Window)
    requires w.Fits(a, b) && NothingShared(a, b, w)
    ensures forall x, y | x in a[w.alo..w.ahi] && y in b[w.blo..w.bhi] :: x != y
  {
    forall x, y | x in a[w.alo..w.ahi] && y in b[w.blo..w.bhi]
      ensures x != y
    {
      var p: nat :| w.alo <= p < w.ahi && a[p] == x;
      var q: nat :| w.blo <= q < w.bhi && b[q] == y;
      assert Differ(a, b, p, q);
    }
  }

  lemma PresentSideIsValid(lines: seq<string>, lo: nat, hi: nat)
    requires lo < hi <= |lines| && Clean(lines)
    ensures ValidSide(true, PresentSide(lines, lo, hi)) && Quotes(PresentSide(lines, lo, hi), lines)
  {
  }

  lemma BlockOfIsGood(op: Opcode, a: seq<string>, b: seq<string>)
    requires op.tag != Equal && OpcodeHolds(a, b, op) && Clean(a) && Clean(b)
    ensures var k := BlockOf(op, a, b); ValidBlock(k) && Quotes(k.a, a) && Quotes(k.b, b) && ReallyModified(k)
  {
    if op.tag != Insert { PresentSideIsValid(a, op.a1, op.a2); }
    if op.tag != Delete { PresentSideIsValid(b, op.b1, op.b2); }
    if op.tag == Replace { SlicesDiffer(a, b, Window(op.a1, op.a2, op.b1, op.b2)); }
  }

  ghost predicate GoodBlock(k: Block, a: seq<string>, b: seq<string>, i: nat, j: nat) {
    && ValidBlock(k) && Quotes(k.a, a) && Quotes(k.b, b) && ReallyModified(k)
    && (HasRange(k.a) ==> i < k.a.start.value) && (HasRange(k.b) ==> j < k.b.start.value)
  }

  lemma {:induction false} BlocksAreGood(ops: seq<Opcode>, a: seq<string>, b: seq<string>, i: nat, j: nat)
    requires Tiles(a, b, ops, i, j) && AllInRange(ops, a, b) && Clean(a) && Clean(b)
    ensures forall k | k in Blocks(ops, a, b) :: GoodBlock(k, a, b, i, j)
    decreases |ops|
  {
    if ops != [] {
      BlocksAreGood(ops[1..], a, b, ops[0].a2, ops[0].b2);
      if ops[0].tag != Equal {
        BlockOfIsGood(ops[0], a, b);
        assert GoodBlock(BlockOf(ops[0], a, b), a, b, i, j);
      }
      forall k | k in Blocks(ops, a, b)
        ensures GoodBlock(k, a, b, i, j)
      {
        assert k in Blocks(ops[1..], a, b) ==> GoodBlock(k, a, b, ops[0].a2, ops[0].b2);
      }
    }
  }

  lemma {:induction false} BlocksAreOrdered(ops: seq<Opcode>, a: seq<string>, b: seq<string>, i: nat, j: nat)
    requires Tiles(a, b, ops, i, j) && AllInRange(ops, a, b) && Clean(a) && Clean(b)
    ensures Ordered(ASides(Blocks(ops, a, b))) && Ordered(BSides(Blocks(ops, a, b)))
    decreases |ops|
  {
    if ops != [] {
      var rest := Blocks(ops[1..], a, b);
      BlocksAreOrdered(ops[1..], a, b, ops[0].a2, ops[0].b2);
      if ops[0].tag == Equal {
        assert Blocks(ops, a, b) == rest;
      } else {
        BlocksAreGood(ops[1..], a, b, ops[0].a2, ops[0].b2);
        OrderedStep(ops[0], rest, a, b);
      }
    }
  }

  lemma OrderedStep(op: Opcode, rest: seq<Block>, a: seq<string>, b: seq<string>)
    requires op.tag != Equal && InRange(op, a, b)
    requires forall k | k in rest :: GoodBlock(k, a, b, op.a2, op.b2)
    requires Ordered(ASides(rest)) && Ordered(BSides(rest))
    ensures Ordered(ASides([BlockOf(op, a, b)] + rest)) && Ordered(BSides([BlockOf(op, a, b)] + rest))
  {
    var block := BlockOf(op, a, b);
    assert forall n | 0 <= n < |rest| :: rest[n] in rest;
    OrderedCons(block.a, ASides(rest));
    OrderedCons(block.b, BSides(rest));
    assert ASides([block] + rest) == [block.a] + ASides(rest);
    assert BSides([block] + rest) == [block.b] + BSides(rest);
  }

  lemma OrderedCons(side: Side, sides: seq<Side>)
    requires Ordered(sides)
    requires HasRange(side) ==> 0 < side.start.value
    requires HasRange(side) ==> forall i | 0 <= i < |sides| && HasRange(sides[i]) :: side.end.value < sides[i].start.value
    ensures Ordered([side] + sides)
  {
  }

  lemma MaterialLinesClean(m: Material)
    requires m.Valid()
    ensures Clean(m.Lines())
  {
    NormalizeIsIdempotent(m.original);
    forall i | 0 <= i < |m.Lines()|
      ensures LF !in m.Lines()[i] && CR !in m.Lines()[i]
    {
      MaterialLinesAreClean(m.normalized, i);
    }
  }

  /** Every block of a comparison passes the side validator, quotes its lines exactly and is needed. */
  lemma DiffIsValid(textA: Material, textB: Material)
    requires textA.Valid() && textB.Valid()
    ensures var blocks := DiffBlocks(textA.Lines(), textB.Lines());
            && (forall n | 0 <= n < |blocks| ::
                  && ValidBlock(blocks[n]) && ReallyModified(blocks[n])
                  && Quotes(blocks[n].a, textA.Lines()) && Quotes(blocks[n].b, textB.Lines()))
            && Ordered(ASides(blocks)) && Ordered(BSides(blocks))
  {
    var a, b := textA.Lines(), textB.Lines();
    MaterialLinesClean(textA);
    MaterialLinesClean(textB);
    GetOpcodesTiles(a, b);
    TilesInRange(a, b, GetOpcodes(a, b), 0, 0);
    BlocksAreGood(GetOpcodes(a, b), a, b, 0, 0);
    BlocksAreOrdered(GetOpcodes(a, b), a, b, 0, 0);
    assert forall n | 0 <= n < |DiffBlocks(a, b)| :: DiffBlocks(a, b)[n] in Blocks(GetOpcodes(a, b), a, b);
  }

  /** A comparison is refused for its size or its material ids only; otherwise every validator accepts it. */
  lemma CompareAlwaysValidates(runId: nat, textA: Material, textB: Material)
    requires textA.Valid() && textB.Valid()
    ensures Compare(runId, textA, textB).Ok? <==>
              |DiffBlocks(textA.Lines(), textB.Lines())| <= MAX_DIFF_BLOCKS && textA.id != textB.id
    ensures Compare(runId, textA, textB).Ok? ==> ValidComparison(Compare(runId, textA, textB).value)
  {
    DiffIsValid(textA, textB);
  }

  // ----- the blocks are a patch

  /**
   Reference meaning of a block list: copy lines up to where the next block sits (its old-side
   start, or for an addition the length of the output so far), check and drop the old lines, emit
   the new ones. None when a block does not fit.
   */
  function PatchFrom(src: seq<string>, pos: nat, blocks: seq<Block>, out: nat): Option<seq<string>>
    requires pos <= |src|
    decreases |blocks|
  {
    if blocks == [] then Some(src[pos..])
    else
      var block := blocks[0];
      var keep := if block.a.start.Some? then block.a.start.value - 1 - pos
                  else if block.b.start.Some? then block.b.start.value - 1 - out
                  else -1;
      var removed := if block.a.lines.Some? then block.a.lines.value else [];
      var added := if block.b.lines.Some? then block.b.lines.value else [];
      if keep < 0 || pos + keep + |removed| > |src| || src[pos + keep..pos + keep + |removed|] != removed then None
      else
        var rest := PatchFrom(src, pos + keep + |removed|, blocks[1..], out + keep + |added|);
        if rest.None? then None else Some(src[pos..pos + keep] + added + rest.value)
  }

  function Patch(src: seq<string>, blocks: seq<Block>): Option<seq<string>> {
    PatchFrom(src, 0, blocks, 0)
  }

  function InverseBlock(block: Block): Block {
    Block(match block.kind case Added => Deleted case Deleted => Added case Modified => Modified, block.b, block.a)
  }

  function Inverse(blocks: seq<Block>): seq<Block> {
    seq(|blocks|, i requires 0 <= i < |blocks| => InverseBlock(blocks[i]))
  }

  /**
   `d` lines equal on both sides have been passed over without a block yet: patching the rest of
   `a` from there gives the rest of `b`.
   */
  lemma {:induction false} BlocksPatch(ops: seq<Opcode>, a: seq<string>, b: seq<string>, i: nat, j: nat, d: nat)
    requires Tiles(a, b, ops, i, j) && AllInRange(ops, a, b)
    requires d <= i <= |a| && d <= j <= |b| && a[i - d..i] == b[j - d..j]
    ensures PatchFrom(a, i - d, Blocks(ops, a, b), j - d) == Some(b[j - d..])
    decreases |ops|
  {
    hide *;
    if ops == [] {
      PatchOfTheRest(ops, a, b, i, j, d);
    } else {
      HeadTiles(ops, a, b, i, j);
      var op, n := ops[0], ops[0].a2 - ops[0].a1;
      if op.tag == Equal {
        LagGrows(op, a, b, d);
        BlocksPatch(ops[1..], a, b, op.a2, op.b2, d + n);
        assert op.a2 - (d + n) == i - d && op.b2 - (d + n) == j - d;
      } else {
        assert a[op.a2..op.a2] == b[op.b2..op.b2];
        BlocksPatch(ops[1..], a, b, op.a2, op.b2, 0);
        PatchOneBlock(op, Blocks(ops[1..], a, b), a, b, d);
      }
    }
  }

  lemma {:induction false} PatchOfTheRest(ops: seq<Opcode>, a: seq<string>, b: seq<string>, i: nat, j: nat, d: nat)
    requires ops == [] && Tiles(a, b, ops, i, j) && AllInRange(ops, a, b)
    requires d <= i <= |a| && d <= j <= |b| && a[i - d..i] == b[j - d..j]
    ensures PatchFrom(a, i - d, Blocks(ops, a, b), j - d) == Some(b[j - d..])
  {
    assert a[i - d..i] == a[i - d..] && b[j - d..j] == b[j - d..];
  }

  lemma {:induction false} HeadTiles(ops: seq<Opcode>, a: seq<string>, b: seq<string>, i: nat, j: nat)
    requires Tiles(a, b, ops, i, j) && AllInRange(ops, a, b) && ops != []
    ensures var op := ops[0];
            && op.a1 == i <= op.a2 <= |a| && op.b1 == j <= op.b2 <= |b| && InRange(op, a, b) && OpcodeHolds(a, b, op)
            && Tiles(a, b, ops[1..], op.a2, op.b2) && AllInRange(ops[1..], a, b)
            && Blocks(ops, a, b)
               == if op.tag == Equal then Blocks(ops[1..], a, b) else [BlockOf(op, a, b)] + Blocks(ops[1..], a, b)
  {
    hide BlockOf, NothingShared;
    if ops[0].tag == Equal { assert [] + Blocks(ops[1..], a, b) == Blocks(ops[1..], a, b); }
  }

  lemma LagGrows(op: Opcode, a: seq<string>, b: seq<string>, d: nat)
    requires op.tag == Equal && OpcodeHolds(a, b, op)
    requires d <= op.a1 && d <= op.b1 && a[op.a1 - d..op.a1] == b[op.b1 - d..op.b1]
    ensures op.a2 - op.a1 == op.b2 - op.b1
    ensures a[op.a1 - d..op.a2] == b[op.b1 - d..op.b2]
  {
    assert |a[op.a1..op.a2]| == |b[op.b1..op.b2]|;
    assert a[op.a1 - d..op.a2] == a[op.a1 - d..op.a1] + a[op.a1..op.a2];
    assert b[op.b1 - d..op.b2] == b[op.b1 - d..op.b1] + b[op.b1..op.b2];
  }

  lemma PatchOneBlock(op: Opcode, rest: seq<Block>, a: seq<string>, b: seq<string>, d: nat)
    requires op.tag != Equal && OpcodeHolds(a, b, op)
    requires d <= op.a1 && d <= op.b1 && a[op.a1 - d..op.a1] == b[op.b1 - d..op.b1]
    requires PatchFrom(a, op.a2, rest, op.b2) == Some(b[op.b2..])
    ensures PatchFrom(a, op.a1 - d, [BlockOf(op, a, b)] + rest, op.b1 - d) == Some(b[op.b1 - d..])
  {
    var blocks := [BlockOf(op, a, b)] + rest;
    assert blocks[0] == BlockOf(op, a, b) && blocks[1..] == rest;
    assert b[op.b1 - d..] == b[op.b1 - d..op.b1] + b[op.b1..op.b2] + b[op.b2..];
    assert op.tag == Delete ==> b[op.b1..op.b2] == [];
    assert op.tag == Insert ==> a[op.a1..op.a2] == [];
  }

  function SwapOp(op: Opcode): Opcode {
    Opcode(match op.tag case Insert => Delete case Delete => Insert case Replace => Replace case Equal => Equal,
           op.b1, op.b2, op.a1, op.a2)
  }

  function SwapOps(ops: seq<Opcode>): seq<Opcode> {
    if ops == [] then [] else [SwapOp(ops[0])] + SwapOps(ops[1..])
  }

  lemma {:induction false} SwappedOpsTile(ops: seq<Opcode>, a: seq<string>, b: seq<string>, i: nat, j: nat)
    requires Tiles(a, b, ops, i, j)
    ensures Tiles(b, a, SwapOps(ops), j, i)
    decreases |ops|
  {
    if ops != [] {
      var op := ops[0];
      SwappedOpsTile(ops[1..], a, b, op.a2, op.b2);
      if op.tag == Replace {
        var w := Window(op.b1, op.b2, op.a1, op.a2);
        forall x: nat, y: nat | w.alo <= x < w.ahi && w.blo <= y < w.bhi
          ensures Differ(b, a, x, y)
        {
          assert Differ(a, b, y, x);
        }
        assert NothingShared(b, a, w);
      }
      TilesCons(b, a, SwapOp(op), SwapOps(ops[1..]));
    }
  }

  lemma BlockOfSwapped(op: Opcode, a: seq<string>, b: seq<string>)
    requires InRange(op, a, b)
    ensures InRange(SwapOp(op), b, a)
    ensures op.tag != Equal ==> BlockOf(SwapOp(op), b, a) == InverseBlock(BlockOf(op, a, b))
  {
  }

  lemma InverseCons(block: Block, rest: seq<Block>)
    ensures Inverse([block] + rest) == [InverseBlock(block)] + Inverse(rest)
  {
    assert ([block] + rest)[1..] == rest;
  }

  lemma {:induction false} SwappedOpsInvert(ops: seq<Opcode>, a: seq<string>, b: seq<string>)
    requires AllInRange(ops, a, b)
    ensures AllInRange(SwapOps(ops), b, a)
    ensures Blocks(SwapOps(ops), b, a) == Inverse(Blocks(ops, a, b))
    decreases |ops|
  {
    if ops != [] {
      SwappedOpsInvert(ops[1..], a, b);
      BlockOfSwapped(ops[0], a, b);
      var swapped := SwapOps(ops);
      assert swapped[0] == SwapOp(ops[0]) && swapped[1..] == SwapOps(ops[1..]);
      hide SwapOps, BlockOf, InverseBlock, InRange;
      if ops[0].tag != Equal {
        InverseCons(BlockOf(ops[0], a, b), Blocks(ops[1..], a, b));
      }
      hide Inverse;
    }
  }

  /** Patching A's lines gives exactly B's, and the inverted blocks take B's lines back to A's. */
  lemma DiffIsAPatch(a: seq<string>, b: seq<string>)
    ensures Patch(a, DiffBlocks(a, b)) == Some(b)
    ensures Patch(b, Inverse(DiffBlocks(a, b))) == Some(a)
  {
    hide GetOpcodes, Tiles, Blocks, PatchFrom, SwapOps, AllInRange;
    var ops := GetOpcodes(a, b);
    GetOpcodesTiles(a, b);
    TilesInRange(a, b, ops, 0, 0);
    BlocksPatch(ops, a, b, 0, 0, 0);
    SwappedOpsTile(ops, a, b, 0, 0);
    SwappedOpsInvert(ops, a, b);
    BlocksPatch(SwapOps(ops), b, a, 0, 0, 0);
  }

  /** There is nothing to report exactly when the two normalised texts are equal. */
  lemma NoDifferenceIffEqual(runId: nat, textA: Material, textB: Material)
    requires textA.Valid() && textB.Valid() && textA.id != textB.id
    ensures textA.normalized == textB.normalized <==>
              Compare(runId, textA, textB).Ok? && Compare(runId, textA, textB).value.status == NoDifference
  {
    var a, b := textA.Lines(), textB.Lines();
    MaterialLinesInjective(textA.normalized, textB.normalized);
    DiffIsAPatch(a, b);
    if a == b {
      EqualInputsMatchWhole(a);
      GetOpcodesTiles(a, a);
      TilesInRange(a, a, GetOpcodes(a, a), 0, 0);
      if a != [] {
        var m := Match(0, 0, |a|);
        assert OpcodesFrom([m][1..], |a|, |a|, |a|, |a|) == [];
        var ops := GetOpcodes(a, a);
        assert ops == BlockOpcodes(m);
        assert ops[0].tag == Equal && Blocks(ops[1..], a, a) == [];
      }
    }
  }

  // ----- the blocks are the documented ones

  /**
   The blocks are those of any opcode list that follows the documentation of the matcher: longest
   common run first, earliest in A and then in B, and the same again on both sides of it.
   */
  lemma DiffIsTheDocumentedOne(a: seq<string>, b: seq<string>, ops: seq<Opcode>)
    requires Documented(a, b, ops)
    ensures AllInRange(ops, a, b) && DiffBlocks(a, b) == Blocks(ops, a, b)
  {
    DocumentedIsUnique(a, b, ops);
    TilesInRange(a, b, ops, 0, 0);
  }

  /** The lines of a side lie before line `lo` or from line `hi` on, counted from 0. */
  predicate Outside(side: Side, lo: nat, hi: nat) {
    HasRange(side) ==> side.end.value <= lo || hi < side.start.value
  }

  lemma {:induction false} BlockHasOpcode(ops: seq<Opcode>, a: seq<string>, b: seq<string>, block: Block) returns (q: nat)
    requires AllInRange(ops, a, b) && block in Blocks(ops, a, b)
    ensures q < |ops| && ops[q].tag != Equal && InRange(ops[q], a, b) && block == BlockOf(ops[q], a, b)
    decreases |ops|
  {
    if ops[0].tag != Equal && block == BlockOf(ops[0], a, b) {
      q := 0;
    } else {
      q := BlockHasOpcode(ops[1..], a, b, block);
      q := q + 1;
    }
  }

  /** The longest common run of two texts, the earliest in A and then in B, is touched by no block. */
  lemma {:induction false} LongestRunIsOutsideBlocks(a: seq<string>, b: seq<string>, m: Match, block: Block)
    requires IsLongest(a, b, Window(0, |a|, 0, |b|), m) && m.size > 0 && block in DiffBlocks(a, b)
    ensures Outside(block.a, m.a, m.a + m.size) && Outside(block.b, m.b, m.b + m.size)
  {
    GetOpcodesTiles(a, b);
    TilesInRange(a, b, GetOpcodes(a, b), 0, 0);
    hide GetOpcodes, Tiles, IsLongest;
    var q := BlockHasOpcode(GetOpcodes(a, b), a, b, block);
    LongestRunIsKept(a, b, m, q);
  }
}
