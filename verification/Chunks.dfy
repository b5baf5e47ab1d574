/** Chunks and digging: source/proxyd/chunk.hpp and the digging, generateChunk and
    getOrCreateChunk parts of source/proxyd/statemachine.cpp. */
module Chunks {
  import opened Numbers
  import opened BitPack
  import opened Coords

  // Block ids are generated from datagen/blocks.json.
  const AIR: UInt16 := 0
  const STONE: UInt16 := 1
  const GRASS_BLOCK: UInt16 := 9
  const DIRT: UInt16 := 10
  const BEDROCK: UInt16 := 33

  type Blocks = b: seq<UInt16> | |b| == 4096 witness seq(4096, _ => 0)
  type Sections = s: seq<Option<Blocks>> | |s| == 16 witness seq(16, _ => None)

  type Biomes = b: seq<UInt32> | |b| == 256 witness seq(256, _ => 0)
  type Heights = h: seq<UInt16> | |h| == 256 witness seq(256, _ => 0)

  datatype Chunk = Chunk(sections: Sections, biomes: Biomes, heights: Heights)

  /** Position in a section's blocks[y][z][x]. */
  function Index(y: nat, z: nat, x: nat): (i: nat)
    requires y < 16 && z < 16 && x < 16
    ensures i < 4096
  {
    y * 256 + z * 16 + x
  }

  /** The block at a height of 0..255; a section that was never allocated is air. */
  function BlockIn(sections: Sections, y: nat, z: nat, x: nat): UInt16
    requires y < 256 && z < 16 && x < 16
  {
    match sections[y / 16]
    case Some(blocks) => blocks[Index(y % 16, z, x)]
    case None => AIR
  }

  // ---- Generation ----

  /** What generated terrain has at a height. */
  function Terrain(y: nat): UInt16 {
    if y == 0 then BEDROCK
    else if y < 14 then STONE
    else if y == 14 then DIRT
    else if y == 15 then GRASS_BLOCK
    else AIR
  }

  function GeneratedBlocks(): Blocks {
    seq(4096, i requires 0 <= i < 4096 => Terrain(i / 256))
  }

  function GeneratedSections(): Sections {
    seq(16, i => if i == 0 then Some(GeneratedBlocks()) else None)
  }

  function GeneratedChunk(): Chunk {
    Chunk(GeneratedSections(), seq(256, _ => 0), seq(256, _ => 16))
  }

  lemma {:induction false} GeneratedIsTerrain(y: nat, z: nat, x: nat)
    requires y < 256 && z < 16 && x < 16
    ensures BlockIn(GeneratedSections(), y, z, x) == Terrain(y)
  {
    if y < 16 {
      assert GeneratedSections()[0] == Some(GeneratedBlocks());
      assert Index(y, z, x) / 256 == y;
    }
  }

  /** The layers of a generated chunk, by the ids of bedrock, stone, dirt, grass and air. */
  predicate IsLayer(id: nat, y: nat) {
    && (id == 33 <==> y == 0)
    && (id == 1 <==> 1 <= y < 14)
    && (id == 10 <==> y == 14)
    && (id == 9 <==> y == 15)
    && (id == 0 <==> y >= 16)
  }

  /** Every column of a generated chunk has those layers, one section is there for them, and biomes and
      heights are 0 and 16 throughout. */
  lemma {:induction false} GeneratedLayers(y: nat, z: nat, x: nat)
    requires y < 256 && z < 16 && x < 16
    ensures var c := GeneratedChunk();
      && IsLayer(BlockIn(c.sections, y, z, x), y)
      && (forall i :: 0 <= i < 16 ==> (c.sections[i].Some? <==> i == 0))
      && (forall i :: 0 <= i < 256 ==> c.biomes[i] == 0 && c.heights[i] == 16)
  {
    GeneratedIsTerrain(y, z, x);
  }

  /** One column of a loop nest of generateChunk: the layers y0..y1 - 1 above a cell. */
  method FillColumn(blocks: array<UInt16>, x: nat, z: nat, y0: nat, y1: nat, id: UInt16)
    requires blocks.Length == 4096 && x < 16 && z < 16 && y0 < y1 <= 16
    modifies blocks
    ensures forall i :: 0 <= i < 4096 ==>
      blocks[i] == if y0 <= i / 256 < y1 && i / 16 % 16 == z && i % 16 == x then id else old(blocks[i])
  {
    for y := y0 to y1
      invariant forall i :: 0 <= i < 4096 ==>
        blocks[i] == if y0 <= i / 256 < y && i / 16 % 16 == z && i % 16 == x then id else old(blocks[i])
    {
      IndexParts(y, z, x);
      blocks[Index(y, z, x)] := id;
    }
  }

  /** Every cell has exactly one place in the order x, z, y. */
  lemma {:induction false} IndexExactly(y: nat, z: nat, x: nat, i: nat)
    requires y < 16 && z < 16 && x < 16 && i < 4096
    ensures i == Index(y, z, x) <==> i / 256 == y && i / 16 % 16 == z && i % 16 == x
  {
    var row := i / 16;
    assert i == row * 16 + i % 16;
    assert row / 16 == i / 256;
    assert row == row / 16 * 16 + row % 16;
    if i == Index(y, z, x) {
      assert row == y * 16 + z;
    }
  }

  lemma {:induction false} IndexParts(y: nat, z: nat, x: nat)
    requires y < 16 && z < 16 && x < 16
    ensures forall i :: 0 <= i < 4096 ==> (i == Index(y, z, x) <==> i / 256 == y && i / 16 % 16 == z && i % 16 == x)
  {
    forall i | 0 <= i < 4096
      ensures i == Index(y, z, x) <==> i / 256 == y && i / 16 % 16 == z && i % 16 == x
    {
      IndexExactly(y, z, x, i);
    }
  }

  /** One of generateChunk's loop nests: the layers y0..y1 - 1 of a section. */
  method FillLayers(blocks: array<UInt16>, y0: nat, y1: nat, id: UInt16)
    requires blocks.Length == 4096 && y0 < y1 <= 16
    modifies blocks
    ensures forall i :: 0 <= i < 4096 ==> blocks[i] == if y0 <= i / 256 < y1 then id else old(blocks[i])
  {
    for x := 0 to 16
      invariant forall i :: 0 <= i < 4096 ==>
        blocks[i] == if y0 <= i / 256 < y1 && i % 16 < x then id else old(blocks[i])
    {
      for z := 0 to 16
        invariant forall i :: 0 <= i < 4096 ==>
          blocks[i] == if y0 <= i / 256 < y1 && (i % 16 < x || (i % 16 == x && i / 16 % 16 < z)) then id
              else old(blocks[i])
      {
        FillColumn(blocks, x, z, y0, y1, id);
      }
    }
  }

  /** The part of generateChunk that fills the one section it allocates. */
  method GenerateSections() returns (sections: Sections)
    ensures sections == GeneratedSections()
  {
    var blocks := new UInt16[4096](_ => AIR);
    FillLayers(blocks, 0, 1, BEDROCK);
    FillLayers(blocks, 1, 14, STONE);
    FillLayers(blocks, 14, 15, DIRT);
    FillLayers(blocks, 15, 16, GRASS_BLOCK);
    assert forall i :: 0 <= i < 4096 ==> blocks[i] == Terrain(i / 256);
    assert blocks[..] == GeneratedBlocks();
    sections := seq(16, _ => None);
    sections := sections[0 := Some(blocks[..])];
  }

  /** The loop nest that sets heightmap[z][x]. */
  method FillHeights() returns (heights: Heights)
    ensures heights == seq(256, _ => 16)
  {
    var heightmap := new UInt16[256](_ => 0);
    for x := 0 to 16
      invariant forall i :: 0 <= i < 256 && i % 16 < x ==> heightmap[i] == 16
    {
      for z := 0 to 16
        invariant forall i :: 0 <= i < 256 && (i % 16 < x || (i % 16 == x && i / 16 < z)) ==> heightmap[i] == 16
      {
        HeightIndex(z, x);
        heightmap[z * 16 + x] := 16;
      }
    }
    heights := heightmap[..];
    assert heights == seq(256, _ => 16);
  }

  lemma {:induction false} HeightIndex(z: nat, x: nat)
    requires z < 16 && x < 16
    ensures z * 16 + x < 256
    ensures forall i :: 0 <= i < 256 && i / 16 == z && i % 16 == x ==> i == z * 16 + x
  {
  }

  /** generateChunk. */
  method GenerateChunk() returns (chunk: Chunk)
    ensures chunk == GeneratedChunk()
  {
    var sections := GenerateSections();
    var heights := FillHeights();
    chunk := Chunk(sections, seq(256, _ => 0), heights);
  }

  // ---- Digging ----

  /** The section of a height, allocated as air if there was none. */
  function Allocated(sections: Sections, i: nat): Sections
    requires i < 16
  {
    if sections[i].Some? then sections else sections[i := Some(seq(4096, _ => AIR))]
  }

  /** Digging a block that is air leaves it, but keeps a section allocated on the way. */
  function DugSections(sections: Sections, y: nat, z: nat, x: nat): Sections
    requires y < 256 && z < 16 && x < 16
  {
    var s := Allocated(sections, y / 16);
    if s[y / 16].value[Index(y % 16, z, x)] == AIR then s
    else s[y / 16 := Some(s[y / 16].value[Index(y % 16, z, x) := AIR])]
  }

  lemma {:induction false} IndexInjective(y: nat, z: nat, x: nat, y': nat, z': nat, x': nat)
    requires y < 16 && z < 16 && x < 16 && y' < 16 && z' < 16 && x' < 16
    ensures Index(y, z, x) == Index(y', z', x') <==> y == y' && z == z' && x == x'
  {
    IndexExactly(y, z, x, Index(y', z', x'));
    IndexExactly(y', z', x', Index(y', z', x'));
  }

  /** The heights are left as they are. */
  function DugChunk(c: Chunk, y: nat, z: nat, x: nat): Chunk
    requires y < 256 && z < 16 && x < 16
  {
    c.(sections := DugSections(c.sections, y, z, x))
  }

  /** Digging makes one block air and changes no other, whether or not it allocates. */
  lemma {:induction false} DigChangesOneBlock(sections: Sections, y: nat, z: nat, x: nat, y': nat, z': nat, x': nat)
    requires y < 256 && z < 16 && x < 16 && y' < 256 && z' < 16 && x' < 16
    ensures BlockIn(DugSections(sections, y, z, x), y', z', x')
         == if y == y' && z == z' && x == x' then AIR else BlockIn(sections, y', z', x')
  {
    IndexInjective(y % 16, z, x, y' % 16, z', x');
  }

  /** The section dug in is there from then on, also where there was nothing to dig; a client is sent it
      as air. */
  lemma {:induction false} DigAllocates(sections: Sections, y: nat, z: nat, x: nat, i: nat)
    requires y < 256 && z < 16 && x < 16 && i < 16
    ensures DugSections(sections, y, z, x)[i].Some? <==> sections[i].Some? || i == y / 16
  {
  }

  // ---- The chunk store ----

  /** PlayerDigging with status 0, at a block whose chunk may or may not exist. */
  datatype ChunkOp = Create(coord: ChunkCoord) | Dig(block: BlockCoord)

  /** A height past the last section indexes out of the section array in the source. */
  predicate InHeight(op: ChunkOp) {
    op.Dig? ==> 0 <= op.block.y < 256
  }

  type ChunkMap = map<ChunkCoord, Chunk>

  function StepChunks(chunks: ChunkMap, op: ChunkOp): ChunkMap
    requires InHeight(op)
  {
    match op
    case Create(coord) => if coord in chunks then chunks else chunks[coord := GeneratedChunk()]
    case Dig(b) =>
      if ToChunk(b) !in chunks then chunks
      else chunks[ToChunk(b) := DugChunk(chunks[ToChunk(b)], b.y, ToLocal(b).z, ToLocal(b).x)]
  }

  datatype DigResult = NoSuchChunk | AlreadyAir | Broken

  /** GlobalState's chunk map. */
  class ChunkStore {
    var chunks: ChunkMap

    constructor ()
      ensures chunks == map[]
    {
      chunks := map[];
    }

    method GetOrCreateChunk(coord: ChunkCoord) returns (chunk: Chunk)
      modifies this
      ensures chunks == StepChunks(old(chunks), Create(coord))
      ensures coord in chunks && chunk == chunks[coord]
    {
      if coord in chunks {
        return chunks[coord];
      }
      chunk := GenerateChunk();
      chunks := chunks[coord := chunk];
    }

    /** NoSuchChunk disconnects the player; only Broken is announced. */
    method DigBlock(b: BlockCoord) returns (result: DigResult)
      requires 0 <= b.y < 256
      modifies this
      ensures chunks == StepChunks(old(chunks), Dig(b))
      ensures result == NoSuchChunk <==> ToChunk(b) !in old(chunks)
      ensures result == Broken <==>
        ToChunk(b) in old(chunks) && BlockIn(old(chunks)[ToChunk(b)].sections, b.y, ToLocal(b).z, ToLocal(b).x) != AIR
    {
      if ToChunk(b) !in chunks {
        return NoSuchChunk;
      }
      var chunk := chunks[ToChunk(b)];
      var local := ToLocal(b);
      var i, cell := local.y / 16, Index(local.y % 16, local.z, local.x);
      if chunk.sections[i].None? {
        chunk := chunk.(sections := chunk.sections[i := Some(seq(4096, _ => AIR))]);
        chunks := chunks[ToChunk(b) := chunk];
      }
      var blocks := chunk.sections[i].value;
      if blocks[cell] == AIR {
        assert chunks[ToChunk(b)] == chunk;
        return AlreadyAir;
      }
      chunk := chunk.(sections := chunk.sections[i := Some(blocks[cell := AIR])]);
      chunks := chunks[ToChunk(b) := chunk];
      result := Broken;
    }
  }

  // ---- Whole runs ----

  predicate AllInHeight(ops: seq<ChunkOp>) {
    forall i :: 0 <= i < |ops| ==> InHeight(ops[i])
  }

  function RunChunks(ops: seq<ChunkOp>): ChunkMap
    requires AllInHeight(ops)
  {
    if ops == [] then map[] else StepChunks(RunChunks(ops[..|ops| - 1]), ops[|ops| - 1])
  }

  /** Some step of the run dug this block while its chunk existed. */
  predicate Dug(ops: seq<ChunkOp>, b: BlockCoord)
    requires AllInHeight(ops)
  {
    ops != [] &&
    var before := ops[..|ops| - 1];
    Dug(before, b) || (ops[|ops| - 1] == Dig(b) && ToChunk(b) in RunChunks(before))
  }

  lemma {:induction false} DugHasChunk(ops: seq<ChunkOp>, b: BlockCoord)
    requires AllInHeight(ops) && Dug(ops, b)
    ensures ToChunk(b) in RunChunks(ops)
  {
    if Dug(ops[..|ops| - 1], b) {
      DugHasChunk(ops[..|ops| - 1], b);
    }
  }

  lemma {:induction false} SameCell(a: BlockCoord, b: BlockCoord)
    requires ToChunk(a) == ToChunk(b) && ToLocal(a) == ToLocal(b)
    ensures a == b
  {
    LowFour(a.x);
    LowFour(a.z);
    LowFour(b.x);
    LowFour(b.z);
  }

  /** After any run, a chunk is the generated terrain with the dug blocks made air. */
  lemma {:induction false} ChunksAreDugTerrain(ops: seq<ChunkOp>, b: BlockCoord)
    requires AllInHeight(ops) && 0 <= b.y < 256 && ToChunk(b) in RunChunks(ops)
    ensures BlockIn(RunChunks(ops)[ToChunk(b)].sections, b.y, ToLocal(b).z, ToLocal(b).x)
         == if Dug(ops, b) then AIR else Terrain(b.y)
  {
    var before, op := ops[..|ops| - 1], ops[|ops| - 1];
    var chunks := RunChunks(before);
    if ToChunk(b) !in chunks {
      if Dug(before, b) {
        DugHasChunk(before, b);
      }
      GeneratedIsTerrain(b.y, ToLocal(b).z, ToLocal(b).x);
    } else {
      ChunksAreDugTerrain(before, b);
      if op.Dig? && ToChunk(op.block) == ToChunk(b) {
        var l, m := ToLocal(op.block), ToLocal(b);
        DigChangesOneBlock(chunks[ToChunk(b)].sections, l.y, l.z, l.x, m.y, m.z, m.x);
        if l == m {
          SameCell(op.block, b);
        }
      }
    }
  }

  /** Block ids stay within the 14 bits of the wire form. */
  ghost predicate SmallIds(sections: Sections) {
    forall i :: 0 <= i < 16 ==> sections[i].Some? ==> AllBelow(sections[i].value, 0x4000)
  }

  lemma {:induction false} RunKeepsSmallIds(ops: seq<ChunkOp>, coord: ChunkCoord)
    requires AllInHeight(ops) && coord in RunChunks(ops)
    ensures SmallIds(RunChunks(ops)[coord].sections)
  {
    var before, op := ops[..|ops| - 1], ops[|ops| - 1];
    if coord in RunChunks(before) {
      RunKeepsSmallIds(before, coord);
    }
  }

  /** In particular the layers stay where nobody digs. */
  lemma {:induction false} UndugLayers(ops: seq<ChunkOp>, b: BlockCoord)
    requires AllInHeight(ops) && 0 <= b.y < 256 && ToChunk(b) in RunChunks(ops)
    ensures var id := BlockIn(RunChunks(ops)[ToChunk(b)].sections, b.y, ToLocal(b).z, ToLocal(b).x);
      if Dug(ops, b) then id == 0 else IsLayer(id, b.y)
  {
    ChunksAreDugTerrain(ops, b);
  }

  // ---- The heightmap ----

  /** The height above the topmost block below a limit that is not air. */
  function TopBelow(sections: Sections, z: nat, x: nat, limit: nat): nat
    requires z < 16 && x < 16 && limit <= 256
  {
    if limit == 0 then 0
    else if BlockIn(sections, limit - 1, z, x) != AIR then limit
    else TopBelow(sections, z, x, limit - 1)
  }

  lemma {:induction false} AirAbove(sections: Sections, z: nat, x: nat, limit: nat, from: nat)
    requires z < 16 && x < 16 && from <= limit <= 256
    requires forall y :: from <= y < limit ==> BlockIn(sections, y, z, x) == AIR
    ensures TopBelow(sections, z, x, limit) == TopBelow(sections, z, x, from)
    decreases limit
  {
    if from < limit {
      AirAbove(sections, z, x, limit - 1, from);
    }
  }

  lemma {:induction false} TopWithin(sections: Sections, z: nat, x: nat, limit: nat)
    requires z < 16 && x < 16 && limit <= 256
    ensures TopBelow(sections, z, x, limit) <= limit
    decreases limit
  {
    if limit > 0 {
      TopWithin(sections, z, x, limit - 1);
    }
  }

  /** No run changes what was generated besides blocks. */
  lemma {:induction false} HeightsStay(ops: seq<ChunkOp>, coord: ChunkCoord)
    requires AllInHeight(ops) && coord in RunChunks(ops)
    ensures RunChunks(ops)[coord].heights == GeneratedChunk().heights
    ensures RunChunks(ops)[coord].biomes == GeneratedChunk().biomes
  {
    var before := ops[..|ops| - 1];
    if coord in RunChunks(before) {
      HeightsStay(before, coord);
    }
  }

  lemma {:induction false} SkyIsAir(ops: seq<ChunkOp>, top: BlockCoord, y: nat)
    requires AllInHeight(ops) && top.y == 15 && ToChunk(top) in RunChunks(ops) && 16 <= y < 256
    ensures BlockIn(RunChunks(ops)[ToChunk(top)].sections, y, ToLocal(top).z, ToLocal(top).x) == AIR
  {
    ChunksAreDugTerrain(ops, top.(y := y));
  }

  /** The heightmap of a chunk is right about a column if and only if no dig has taken the
      generated top block away. */
  lemma {:induction false} HeightMatchesExactly(ops: seq<ChunkOp>, top: BlockCoord)
    requires AllInHeight(ops) && top.y == 15 && ToChunk(top) in RunChunks(ops)
    ensures var c, l := RunChunks(ops)[ToChunk(top)], ToLocal(top);
      c.heights[l.z * 16 + l.x] == TopBelow(c.sections, l.z, l.x, 256) <==> !Dug(ops, top)
  {
    var c, l := RunChunks(ops)[ToChunk(top)], ToLocal(top);
    HeightsStay(ops, ToChunk(top));
    ChunksAreDugTerrain(ops, top);
    forall y | 16 <= y < 256
      ensures BlockIn(c.sections, y, l.z, l.x) == AIR
    {
      SkyIsAir(ops, top, y);
    }
    AirAbove(c.sections, l.z, l.x, 256, 16);
    TopWithin(c.sections, l.z, l.x, 15);
  }
}
