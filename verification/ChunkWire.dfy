/** The ChunkData packet that sendChunk of source/proxyd/statemachine.cpp builds, and a
    reference reader for the client's side. */
module ChunkWire {
  import opened Numbers
  import opened VarInt
  import opened Buffers
  import opened NbtTree
  import opened Schema
  import opened BitPack
  import opened Coords
  import opened PacketTable
  import opened Framing
  import opened Chunks

  // ---- Words in memory ----

  /** The 64-bit words a little-endian machine sees in bytes. */
  function WordsOf(b: Bytes): (words: seq<nat>)
    requires |b| % 8 == 0
    ensures |words| == |b| / 8
  {
    if b == [] then [] else [FromLittleEndian(b[..8])] + WordsOf(b[8..])
  }

  lemma {:induction false} LittleEndianIsStream(b: Bytes)
    ensures FromLittleEndian(b) == Stream(b, 8) && Stream(b, 8) < Shl(1, 8 * |b|)
  {
    if b != [] {
      LittleEndianIsStream(b[1..]);
      Shl8(Stream(b[1..], 8));
      ShlShl(1, 8 * |b[1..]|, 8);
      Shl8(Shl(1, 8 * |b[1..]|));
    }
  }

  lemma {:induction false} WordsOfStream(b: Bytes)
    requires |b| % 8 == 0
    ensures Stream(WordsOf(b), 64) == Stream(b, 8) && AllBelow(WordsOf(b), TWO64)
  {
    if b != [] {
      Shl64Is();
      LittleEndianIsStream(b[..8]);
      WordsOfStream(b[8..]);
      StreamConcat(b[..8], b[8..], 8);
      assert b == b[..8] + b[8..];
    }
  }

  /** A stream of 64-bit words determines the words. */
  lemma {:induction false} WordsAreDigits(words: seq<nat>)
    requires AllBelow(words, TWO64)
    ensures words == Digits(Stream(words, 64), 64, |words|)
  {
    Shl64Is();
    DigitsOfStream(words, 64);
  }

  /** The words of bytes that carry a stream. */
  lemma {:induction false} WordsOfPacked(b: Bytes, n: nat)
    requires |b| % 8 == 0 && Stream(b, 8) == n
    ensures WordsOf(b) == Digits(n, 64, |b| / 8)
    ensures Stream(Digits(n, 64, |b| / 8), 64) == n && AllBelow(Digits(n, 64, |b| / 8), TWO64)
  {
    WordsOfStream(b);
    WordsAreDigits(WordsOf(b));
  }

  // ---- Packed long arrays ----

  lemma {:induction false} ShlSplit(k: nat, count: nat)
    requires count > 0
    ensures Shl(1, k * count) == Shl(Shl(1, k * (count - 1)), k)
  {
    OneLess(k, count);
    ShlShl(1, k * (count - 1), k);
  }

  lemma {:induction false} OneLess(k: nat, count: nat)
    requires count > 0
    ensures k * count == k * (count - 1) + k
  {
  }

  lemma {:induction false} HighDigits(n: nat, k: nat, bound: nat)
    requires n < Shl(bound, k)
    ensures Shr(n, k) < bound
  {
    SplitBits(n, k);
    if bound <= Shr(n, k) {
      ShlMonotone(bound, Shr(n, k), k);
    }
  }

  lemma {:induction false} StreamOfDigits(n: nat, k: nat, count: nat)
    requires n < Shl(1, k * count)
    ensures Stream(Digits(n, k, count), k) == n
    decreases count
  {
    if count == 0 {
      assert k * count == 0;
    } else {
      SplitBits(n, k);
      ShlSplit(k, count);
      HighDigits(n, k, Shl(1, k * (count - 1)));
      StreamOfDigits(Shr(n, k), k, count - 1);
    }
  }

  /** The 64-bit longs that carry values of so many bits, when these fill them exactly. */
  function Longs(values: seq<nat>, bits: nat): (r: seq<nat>)
    ensures |r| == |values| * bits / 64
  {
    Digits(Stream(values, bits), 64, |values| * bits / 64)
  }

  /** Reading the longs as one stream of digits gives the values back. */
  lemma {:induction false} LongsCarry(values: seq<nat>, bits: nat)
    requires AllBelow(values, Shl(1, bits)) && |values| * bits % 64 == 0
    ensures AllBelow(Longs(values, bits), TWO64)
    ensures Digits(Stream(Longs(values, bits), 64), bits, |values|) == values
  {
    var count := |values| * bits / 64;
    Shl64Is();
    DigitsBelow(Stream(values, bits), 64, count);
    StreamBelow(values, bits);
    assert bits * |values| == 64 * count;
    StreamOfDigits(Stream(values, bits), 64, count);
    DigitsOfStream(values, bits);
  }

  // ---- One section ----

  function SectionBytes(blocks: Blocks): Bytes {
    BigEndian(4096, 2) + ([14] + (VarIntBytes(896) + IntsBytes(Longs(Masked14(blocks), 14), 8)))
  }

  /** The client's reading of one section: block count, bits per block, the longs. With fewer than nine
      bits there would be a palette in front of them. */
  function ParseSection(b: Bytes): (r: Parse<seq<nat>>) {
    match ParseFixed(b, 2)
    case Ok(count, rest) => (
      if rest == [] || rest[0] < 9 then Invalid
      else match ParseVarInt(rest[1..])
        case Ok(n, rest') => (
          if n < 0 then Invalid
          else match ParseInts(rest', 8, n)
            case Ok(longs, rest'') => Ok(Digits(Stream(longs, 64), rest[0], count), rest'')
            case _ => Invalid)
        case _ => Invalid)
    case _ => Invalid
  }

  lemma {:induction false} LongsBack(longs: seq<nat>, more: Bytes)
    requires AllBelow(longs, TWO64)
    ensures ParseInts(IntsBytes(longs, 8) + more, 8, |longs|) == Ok(longs, more)
  {
    RangeIs(8);
    IntsBack(longs, 8, more);
  }

  lemma {:induction false} CountHeader(count: nat, tail: Bytes)
    requires count < 0x1_0000
    ensures ParseFixed(BigEndian(count, 2) + tail, 2) == Ok(count, tail)
  {
    RangeIs(2);
    ParseFixedBack(count, 2, tail);
  }

  lemma {:induction false} ReadSection(b: Bytes, count: nat, afterCount: Bytes, afterLength: Bytes, longs: seq<nat>,
      more: Bytes)
    requires ParseFixed(b, 2) == Ok(count, afterCount) && afterCount != [] && afterCount[0] == 14
    requires |longs| < 0x8000_0000 && ParseVarInt(afterCount[1..]) == Ok(|longs|, afterLength)
    requires ParseInts(afterLength, 8, |longs|) == Ok(longs, more)
    ensures ParseSection(b) == Ok(Digits(Stream(longs, 64), 14, count), more)
  {
  }

  lemma {:induction false} RegroupFour(a: Bytes, b: Bytes, c: Bytes, d: Bytes, e: Bytes)
    ensures a + (b + (c + d)) + e == a + (b + (c + (d + e)))
  {
  }

  lemma {:induction false} DropHead(h: Byte, tail: Bytes)
    ensures ([h] + tail)[1..] == tail && ([h] + tail)[0] == h
  {
  }

  lemma {:induction false} SectionBack(blocks: Blocks, more: Bytes)
    ensures ParseSection(SectionBytes(blocks) + more) == Ok(Masked14(blocks), more)
  {
    var masked := Masked14(blocks);
    var longs := Longs(masked, 14);
    LongsCarry(masked, 14);
    var tail := IntsBytes(longs, 8) + more;
    var afterCount := [14] + (VarIntBytes(896) + tail);
    var b := BigEndian(4096, 2) + afterCount;
    RegroupFour(BigEndian(4096, 2), [14], VarIntBytes(896), IntsBytes(longs, 8), more);
    CountHeader(4096, afterCount);
    DropHead(14, VarIntBytes(896) + tail);
    VarIntRoundTrip(896, tail);
    LongsBack(longs, more);
    ReadSection(b, |masked|, afterCount, tail, longs, more);
  }

  // ---- All sections ----

  /** Bit i of the mask says whether section i is there. */
  function Present(sections: Sections): (r: seq<nat>)
    ensures |r| == 16 && AllBelow(r, 2)
  {
    seq(16, i requires 0 <= i < 16 => if sections[i].Some? then 1 else 0)
  }

  function Bitmask(sections: Sections): nat {
    Stream(Present(sections), 1)
  }

  function SectionsBytes(sections: Sections, i: nat): Bytes
    requires i <= 16
    decreases |sections| - i
  {
    if i == 16 then [] else SectionPart(sections[i]) + SectionsBytes(sections, i + 1)
  }

  function SectionPart(section: Option<Blocks>): Bytes {
    if section.Some? then SectionBytes(section.value) else []
  }

  function ParseSections(present: seq<nat>, b: Bytes): (r: Parse<seq<Option<seq<nat>>>>)
    decreases |present|
  {
    if present == [] then Ok([], b)
    else if present[0] == 0 then
      match ParseSections(present[1..], b)
      case Ok(rest, b') => Ok([None] + rest, b')
      case _ => Invalid
    else match ParseSection(b)
      case Ok(blocks, b') => (
        match ParseSections(present[1..], b')
        case Ok(rest, b'') => Ok([Some(blocks)] + rest, b'')
        case _ => Invalid)
      case _ => Invalid
  }

  lemma {:induction false} PresentBit(sections: Sections)
    ensures Digits(Bitmask(sections), 1, 16) == Present(sections) && Bitmask(sections) < 0x1_0000
  {
    DigitsOfStream(Present(sections), 1);
    StreamBelow(Present(sections), 1);
    Shl14(1);
    ShlShl(1, 14, 2);
  }

  /** A chunk's sections as a client holds them. */
  function Plain(sections: Sections): (r: seq<Option<seq<nat>>>)
    ensures |r| == 16
  {
    seq(16, i requires 0 <= i < 16 => if sections[i].Some? then Some(sections[i].value) else None)
  }

  lemma {:induction false} Suffix<T>(s: seq<T>, i: nat)
    requires i < |s|
    ensures s[i..] == [s[i]] + s[i + 1..] && s[i..][0] == s[i] && s[i..][1..] == s[i + 1..]
  {
  }

  lemma {:induction false} SectionsBack(sections: Sections, present: seq<nat>, i: nat, more: Bytes)
    requires i <= 16 && SmallIds(sections) && |present| == 16
    requires forall k :: 0 <= k < 16 ==> present[k] == if sections[k].Some? then 1 else 0
    ensures ParseSections(present[i..], SectionsBytes(sections, i) + more) == Ok(Plain(sections)[i..], more)
    decreases 16 - i
  {
    if i < 16 {
      SectionsBack(sections, present, i + 1, more);
      Suffix(present, i);
      Suffix(Plain(sections), i);
      OneSectionBack(sections, i, present[i..], more);
    } else {
      assert present[i..] == [] && Plain(sections)[i..] == [] && SectionsBytes(sections, i) + more == more;
    }
  }

  lemma {:induction false} OneSectionBack(sections: Sections, i: nat, present: seq<nat>, more: Bytes)
    requires i < 16 && SmallIds(sections)
    requires present != [] && present[0] == (if sections[i].Some? then 1 else 0)
    requires ParseSections(present[1..], SectionsBytes(sections, i + 1) + more) == Ok(Plain(sections)[i + 1..], more)
    ensures ParseSections(present, SectionsBytes(sections, i) + more)
        == Ok([Plain(sections)[i]] + Plain(sections)[i + 1..], more)
  {
    var tail := SectionsBytes(sections, i + 1) + more;
    if sections[i].Some? {
      var blocks := sections[i].value;
      Regroup(SectionBytes(blocks), SectionsBytes(sections, i + 1), more);
      SectionBack(blocks, tail);
      MaskKeeps(blocks);
      assert ParseSection(SectionBytes(blocks) + tail) == Ok(blocks, tail);
    } else {
      assert [] + SectionsBytes(sections, i + 1) == SectionsBytes(sections, i + 1);
    }
  }

  // ---- The packet ----

  predicate InInt32(coord: ChunkCoord) {
    -0x8000_0000 <= coord.x < 0x8000_0000 && -0x8000_0000 <= coord.z < 0x8000_0000
  }

  /** The bytes of "MOTION_BLOCKING". */
  const MOTION_BLOCKING: Bytes := [77, 79, 84, 73, 79, 78, 95, 66, 76, 79, 67, 75, 73, 78, 71]

  lemma {:induction false} NameSpelled()
    ensures |MOTION_BLOCKING| == |"MOTION_BLOCKING"|
    ensures forall i :: 0 <= i < |MOTION_BLOCKING| ==> "MOTION_BLOCKING"[i] as int == MOTION_BLOCKING[i]
  {
  }

  function HeightmapNbt(heights: seq<UInt16>): Nbt {
    Nbt([], Compound([Nbt(MOTION_BLOCKING, IntArray(LONG_ARRAY, Longs(Fields9(heights), 9)))]))
  }

  function ChunkDataBytes(c: Chunk): Bytes {
    SectionsBytes(c.sections, 0) + IntsBytes(c.biomes, 4)
  }

  function ChunkValues(coord: ChunkCoord, c: Chunk): seq<Value> {
    [IntV(coord.x), IntV(coord.z), BoolV(true), IntV(Bitmask(c.sections)),
     NbtV(HeightmapNbt(c.heights)), BytesV(ChunkDataBytes(c)), ArrayV([])]
  }

  lemma {:induction false} IntsLength(elems: seq<nat>, width: nat)
    ensures |IntsBytes(elems, width)| == width * |elems|
  {
    if elems != [] {
      IntsLength(elems[1..], width);
      assert width * |elems[1..]| + width == width * |elems|;
    }
  }

  lemma {:induction false} SectionsLength(sections: Sections, i: nat)
    requires i <= 16
    ensures |SectionsBytes(sections, i)| <= 7176 * (16 - i)
    decreases 16 - i
  {
    if i < 16 {
      SectionsLength(sections, i + 1);
      if sections[i].Some? {
        IntsLength(Longs(Masked14(sections[i].value), 14), 8);
        LebRange(896);
      }
    }
  }

  lemma {:induction false} HeightmapFits(heights: seq<UInt16>)
    requires |heights| == 256
    ensures Typed(HeightmapNbt(heights)) && Short(HeightmapNbt(heights))
  {
    Nine();
    LongsCarry(Fields9(heights), 9);
    var inner := Nbt(MOTION_BLOCKING, IntArray(LONG_ARRAY, Longs(Fields9(heights), 9)));
    assert TypedValue(inner.value) && Typed(inner) && Short(inner);
  }

  lemma {:induction false} ChunkDataLength(c: Chunk)
    ensures |ChunkDataBytes(c)| < 0x2_0000
  {
    SectionsLength(c.sections, 0);
    IntsLength(c.biomes, 4);
  }

  lemma {:induction false} ChunkValuesFit(coord: ChunkCoord, c: Chunk)
    requires InInt32(coord)
    ensures FitAll(CHUNK_DATA.fields, ChunkValues(coord, c))
  {
    ChunkDataLength(c);
    PresentBit(c.sections);
    HeightmapFits(c.heights);
    PartsFit(coord, Bitmask(c.sections), HeightmapNbt(c.heights), ChunkDataBytes(c));
  }

  lemma {:induction false} PartsFit(coord: ChunkCoord, mask: nat, tag: Nbt, data: Bytes)
    requires InInt32(coord) && mask < 0x1_0000 && Typed(tag) && Short(tag) && |data| < 0x2_0000
    ensures FitAll(CHUNK_DATA.fields,
                   [IntV(coord.x), IntV(coord.z), BoolV(true), IntV(mask), NbtV(tag), BytesV(data), ArrayV([])])
  {
    assert Fits(FInt(4), IntV(coord.x)) && Fits(FInt(4), IntV(coord.z)) && Fits(FVarInt, IntV(mask));
    assert Fits(FNbt, NbtV(tag)) && Fits(FVarBytes, BytesV(data)) && Fits(FArray(FNbt), ArrayV([]));
  }

  lemma {:induction false} Nine()
    ensures Shl(1, 9) == 512
  {
    Shl7(1);
    ShlShl(1, 7, 2);
  }

  // ---- The client's reading ----

  /** A chunk as a client takes it; only a full one is a new chunk, with biomes. */
  datatype ClientChunk = ClientChunk(
    x: int, z: int, full: bool, sections: seq<Option<seq<nat>>>, biomes: seq<nat>, heights: seq<nat>, entities: nat)

  function ReadHeights(t: Nbt): Option<seq<nat>> {
    if t.value.Compound? && |t.value.tags| == 1 && t.value.tags[0].name == MOTION_BLOCKING
        && t.value.tags[0].value.IntArray? && t.value.tags[0].value.kind == LONG_ARRAY
    then Some(Digits(Stream(t.value.tags[0].value.elems, 64), 9, 256))
    else None
  }

  /** What is behind the sections: 256 biomes of a full chunk, nothing of any other. */
  function ReadBiomes(full: bool, b: Bytes): Option<seq<nat>> {
    if !full then
      if b == [] then Some([]) else None
    else match ParseInts(b, 4, 256)
      case Ok(biomes, rest) => if rest == [] then Some(biomes) else None
      case _ => None
  }

  function ReadParts(x: int, z: int, full: bool, mask: int, heightmaps: Nbt, data: Bytes, entities: nat)
    : Option<ClientChunk>
  {
    var heights := ReadHeights(heightmaps);
    if mask < 0 || heights.None? then None
    else match ParseSections(Digits(mask, 1, 16), data)
      case Ok(sections, rest) => (
        match ReadBiomes(full, rest)
        case Some(biomes) => Some(ClientChunk(x, z, full, sections, biomes, heights.value, entities))
        case None => None)
      case _ => None
  }

  function ReadChunk(vs: seq<Value>): Option<ClientChunk>
    requires FitAll(CHUNK_DATA.fields, vs)
  {
    FieldKinds(vs);
    ReadParts(vs[0].n, vs[1].n, vs[2].flag, vs[3].n, vs[4].tag, vs[5].bytes, |vs[6].elems|)
  }

  lemma {:induction false} FieldKinds(vs: seq<Value>)
    requires FitAll(CHUNK_DATA.fields, vs)
    ensures |vs| == 7 && vs[0].IntV? && vs[1].IntV? && vs[2].BoolV? && vs[3].IntV? && vs[4].NbtV? && vs[5].BytesV?
    ensures vs[6].ArrayV?
  {
    assert Fits(CHUNK_DATA.fields[0], vs[0]) && Fits(CHUNK_DATA.fields[1], vs[1]) && Fits(CHUNK_DATA.fields[2], vs[2]);
    assert Fits(CHUNK_DATA.fields[3], vs[3]) && Fits(CHUNK_DATA.fields[4], vs[4]) && Fits(CHUNK_DATA.fields[5], vs[5]);
    assert Fits(CHUNK_DATA.fields[6], vs[6]);
  }

  lemma {:induction false} HeightsBack(heights: seq<UInt16>)
    requires |heights| == 256
    ensures ReadHeights(HeightmapNbt(heights)) == Some(Fields9(heights))
  {
    Nine();
    LongsCarry(Fields9(heights), 9);
  }

  lemma {:induction false} SectionDataBack(c: Chunk)
    requires SmallIds(c.sections)
    ensures ParseSections(Digits(Bitmask(c.sections), 1, 16), ChunkDataBytes(c))
         == Ok(Plain(c.sections), IntsBytes(c.biomes, 4))
  {
    PresentBit(c.sections);
    SectionsBack(c.sections, Present(c.sections), 0, IntsBytes(c.biomes, 4));
    assert Present(c.sections)[0..] == Present(c.sections) && Plain(c.sections)[0..] == Plain(c.sections);
  }

  lemma {:induction false} BiomesBack(biomes: seq<UInt32>)
    requires |biomes| == 256
    ensures ReadBiomes(true, IntsBytes(biomes, 4)) == Some(biomes)
  {
    RangeIs(4);
    IntsBack(biomes, 4, []);
    assert IntsBytes(biomes, 4) + [] == IntsBytes(biomes, 4);
  }

  /** What a client has of a chunk: all of it, as a new one. */
  function Whole(coord: ChunkCoord, c: Chunk): ClientChunk {
    ClientChunk(coord.x, coord.z, true, Plain(c.sections), c.biomes, Fields9(c.heights), 0)
  }

  lemma {:induction false} ReadsBack(coord: ChunkCoord, c: Chunk)
    requires SmallIds(c.sections)
    ensures ReadParts(coord.x, coord.z, true, Bitmask(c.sections), HeightmapNbt(c.heights), ChunkDataBytes(c), 0)
         == Some(Whole(coord, c))
  {
    SectionDataBack(c);
    BiomesBack(c.biomes);
    HeightsBack(c.heights);
  }

  lemma {:induction false} UnpacksBack(coord: ChunkCoord, c: Chunk)
    requires SmallIds(c.sections) && FitAll(CHUNK_DATA.fields, ChunkValues(coord, c))
    ensures ReadChunk(ChunkValues(coord, c)) == Some(Whole(coord, c))
  {
    ReadsBack(coord, c);
  }

  /** A client that parses the payload and unpacks it has a full chunk with the chunk's own sections
      and biomes, and the fields its heights were packed into. */
  lemma {:induction false} ClientReadsChunk(coord: ChunkCoord, c: Chunk)
    requires InInt32(coord) && SmallIds(c.sections)
    ensures FitAll(CHUNK_DATA.fields, ChunkValues(coord, c))
    ensures var vs := ChunkValues(coord, c);
      && ParsePayload(CHUNK_DATA.fields, PayloadBytes(CHUNK_DATA.fields, vs)) == Some(vs)
      && ReadChunk(vs)
         == Some(ClientChunk(coord.x, coord.z, true, Plain(c.sections), c.biomes, Fields9(c.heights), 0))
  {
    var vs := ChunkValues(coord, c);
    assert FitAll(CHUNK_DATA.fields, vs) by {
      ChunkValuesFit(coord, c);
    }
    assert ParsePayload(CHUNK_DATA.fields, PayloadBytes(CHUNK_DATA.fields, vs)) == Some(vs) by {
      PayloadRoundTrip(CHUNK_DATA.fields, vs);
    }
    UnpacksBack(coord, c);
  }

  /** What the client's copy of a chunk says about a block. */
  function ClientBlock(c: ClientChunk, y: nat, z: nat, x: nat): nat
    requires y < 256 && z < 16 && x < 16 && |c.sections| == 16
    requires forall i :: 0 <= i < 16 ==> c.sections[i].Some? ==> |c.sections[i].value| == 4096
  {
    match c.sections[y / 16]
    case Some(blocks) => blocks[Index(y % 16, z, x)]
    case None => AIR
  }

  lemma {:induction false} GeneratedHeightsFit()
    ensures Fields9(GeneratedChunk().heights) == GeneratedChunk().heights
  {
    FieldsKeep(GeneratedChunk().heights);
  }

  lemma {:induction false} StoredChunkRead(ops: seq<ChunkOp>, coord: ChunkCoord)
    requires AllInHeight(ops) && coord in RunChunks(ops) && InInt32(coord)
    ensures var c := RunChunks(ops)[coord]; var vs := ChunkValues(coord, c);
      && FitAll(CHUNK_DATA.fields, vs)
      && ParsePayload(CHUNK_DATA.fields, PayloadBytes(CHUNK_DATA.fields, vs)) == Some(vs)
      && ReadChunk(vs) == Some(ClientChunk(
           coord.x, coord.z, true, Plain(c.sections), GeneratedChunk().biomes, GeneratedChunk().heights, 0))
  {
    RunKeepsSmallIds(ops, coord);
    HeightsStay(ops, coord);
    GeneratedHeightsFit();
    ClientReadsChunk(coord, RunChunks(ops)[coord]);
  }

  lemma {:induction false} PlainBlock(c: ClientChunk, sections: Sections, y: nat, z: nat, x: nat)
    requires c.sections == Plain(sections) && y < 256 && z < 16 && x < 16
    ensures |c.sections| == 16 && forall i :: 0 <= i < 16 ==> c.sections[i].Some? ==> |c.sections[i].value| == 4096
    ensures ClientBlock(c, y, z, x) == BlockIn(sections, y, z, x)
  {
  }

  /** After any run of digs and chunk creations, a client that is sent a chunk and reads the
      packet has a full chunk: the generated layers with the dug blocks made air, with the generated
      biomes and heights and no block entities. */
  lemma {:induction false} ClientSeesDugTerrain(ops: seq<ChunkOp>, b: BlockCoord)
    requires AllInHeight(ops) && 0 <= b.y < 256 && ToChunk(b) in RunChunks(ops)
    ensures var coord := ToChunk(b);
      var vs := ChunkValues(coord, RunChunks(ops)[coord]);
      && FitAll(CHUNK_DATA.fields, vs)
      && ParsePayload(CHUNK_DATA.fields, PayloadBytes(CHUNK_DATA.fields, vs)) == Some(vs)
      && ReadChunk(vs).Some?
      && var c := ReadChunk(vs).value;
      && c.x == coord.x && c.z == coord.z && c.full && c.entities == 0 && |c.sections| == 16
      && c.biomes == GeneratedChunk().biomes && c.heights == GeneratedChunk().heights
      && (forall i :: 0 <= i < 16 ==> c.sections[i].Some? ==> |c.sections[i].value| == 4096)
      && var id := ClientBlock(c, b.y, ToLocal(b).z, ToLocal(b).x);
      if Dug(ops, b) then id == 0 else IsLayer(id, b.y)
  {
    var coord := ToChunk(b);
    var chunk := RunChunks(ops)[coord];
    StoredChunkRead(ops, coord);
    PlainBlock(ReadChunk(ChunkValues(coord, chunk)).value, chunk.sections, b.y, ToLocal(b).z, ToLocal(b).x);
    UndugLayers(ops, b);
  }

  // ---- sendChunk ----

  lemma {:induction false} MaskStep(present: seq<nat>, i: nat, mask: nat)
    requires i < |present| && AllBelow(present, 2) && mask == Stream(present[..i], 1)
    ensures Stream(present[..i + 1], 1) == if present[i] == 1 then Or(mask, Shl(1, i)) else mask
  {
    assert present[..i + 1] == present[..i] + [present[i]];
    StreamConcat(present[..i], [present[i]], 1);
    StreamBelow(present[..i], 1);
    assert Stream([present[i]], 1) == present[i];
    OrDisjoint(mask, 1, i);
    ShlZero(i);
  }

  lemma {:induction false} ShlZero(k: nat)
    ensures Shl(0, k) == 0
  {
    if k > 0 {
      ShlZero(k - 1);
    }
  }

  /** The primaryBitmask loop. */
  method SectionMask(sections: Sections) returns (bitmask: nat)
    ensures bitmask == Bitmask(sections)
  {
    bitmask := 0;
    ghost var present := Present(sections);
    for i := 0 to 16
      invariant bitmask == Stream(present[..i], 1)
    {
      MaskStep(present, i, bitmask);
      if sections[i].Some? {
        bitmask := Or(bitmask, Shl(1, i));
      }
    }
    assert present[..16] == present;
  }

  /** One section: header, packed blocks, and each long of the packed memory big-endian. */
  method SerializeSection(buffer: Buffer, blocks: Blocks)
    modifies buffer
    ensures buffer.data == old(buffer.data) + SectionBytes(blocks)
  {
    SerializeSectionHeader(buffer);
    var longs := PackBlocks(blocks);
    SerializeLongs(buffer, longs);
    RegroupHeader(BigEndian(4096, 2), [14], VarIntBytes(896), IntsBytes(longs, 8));
  }

  lemma {:induction false} RegroupHeader(a: Bytes, b: Bytes, c: Bytes, d: Bytes)
    ensures a + b + c + d == a + (b + (c + d))
  {
  }

  method SerializeSectionHeader(buffer: Buffer)
    modifies buffer
    ensures buffer.data == old(buffer.data) + (BigEndian(4096, 2) + [14] + VarIntBytes(896))
  {
    SerializeInt(buffer, 4096, 2);
    SerializeInt(buffer, 14, 1);
    OneByte(14);
    SerializeVarInt(buffer, 896);
  }

  /** The packed memory of a section, read back as 64-bit words. */
  method PackBlocks(blocks: Blocks) returns (longs: seq<nat>)
    ensures longs == Longs(Masked14(blocks), 14) && AllBelow(longs, TWO64)
  {
    var data := new Byte[7168];
    Bitpack16to14(blocks, data);
    assert data[..7168] == data[..];
    WordsOfPacked(data[..], Stream(Masked14(blocks), 14));
    longs := WordsOf(data[..]);
  }

  method SerializeLongs(buffer: Buffer, longs: seq<nat>)
    requires AllBelow(longs, TWO64)
    modifies buffer
    ensures buffer.data == old(buffer.data) + IntsBytes(longs, 8)
  {
    SerializeInts(buffer, longs, 8);
  }

  /** The loop over the sections. */
  method SerializeSections(buffer: Buffer, sections: Sections)
    modifies buffer
    ensures buffer.data == old(buffer.data) + SectionsBytes(sections, 0)
  {
    for i := 0 to 16
      invariant buffer.data + SectionsBytes(sections, i) == old(buffer.data) + SectionsBytes(sections, 0)
    {
      Regroup(buffer.data, SectionPart(sections[i]), SectionsBytes(sections, i + 1));
      SerializeIfPresent(buffer, sections[i]);
    }
  }

  method SerializeIfPresent(buffer: Buffer, section: Option<Blocks>)
    modifies buffer
    ensures buffer.data == old(buffer.data) + SectionPart(section)
  {
    if section.Some? {
      SerializeSection(buffer, section.value);
    }
  }

  lemma {:induction false} HeightmapLength(heights: seq<UInt16>)
    requires |heights| == 256
    ensures Typed(HeightmapNbt(heights)) && |TagBytes(HeightmapNbt(heights))| < 0x1000
  {
    HeightmapFits(heights);
    var inner := Nbt(MOTION_BLOCKING, IntArray(LONG_ARRAY, Longs(Fields9(heights), 9)));
    IntsLength(Longs(Fields9(heights), 9), 8);
    assert |TagBytes(inner)| < 0x800;
    TagsOfOne(inner);
  }

  lemma {:induction false} TagsOfOne(t: Nbt)
    requires Typed(t)
    ensures TagsBytes([t]) == TagBytes(t)
  {
    assert [t][1..] == [] && TagsBytes([]) == [];
  }

  lemma {:induction false} PayloadLength(fs: seq<Field>, vs: seq<Value>)
    requires AllGood(fs) && FitAll(fs, vs)
    requires forall i :: 0 <= i < |fs| ==> |FieldBytes(fs[i], vs[i])| <= 0x3_0000
    ensures |PayloadBytes(fs, vs)| <= 0x3_0000 * |fs|
  {
    if fs != [] {
      forall i | 0 <= i < |fs[1..]|
        ensures |FieldBytes(fs[1..][i], vs[1..][i])| <= 0x3_0000
      {
        assert fs[1..][i] == fs[i + 1] && vs[1..][i] == vs[i + 1];
      }
      PayloadLength(fs[1..], vs[1..]);
      assert |FieldBytes(fs[0], vs[0])| <= 0x3_0000;
    }
  }

  lemma {:induction false} ChunkFieldLengths(coord: ChunkCoord, c: Chunk, i: nat)
    requires InInt32(coord) && i < 7
    requires FitAll(CHUNK_DATA.fields, ChunkValues(coord, c))
    ensures |FieldBytes(CHUNK_DATA.fields[i], ChunkValues(coord, c)[i])| <= 0x3_0000
  {
    LebRange(ToUInt32(0));
    if i == 3 {
      PresentBit(c.sections);
      LebRange(ToUInt32(Bitmask(c.sections)));
    } else if i == 4 {
      HeightmapLength(c.heights);
    } else if i == 5 {
      CountedLength(ChunkDataBytes(c), c);
    }
  }

  lemma {:induction false} CountedLength(data: Bytes, c: Chunk)
    requires data == ChunkDataBytes(c)
    ensures |data| < 0x2_0000 && |VarIntBytes(|data|) + data| <= 0x3_0000
  {
    ChunkDataLength(c);
    LebRange(ToUInt32(|data|));
  }

  lemma {:induction false} ChunkPayloadLength(coord: ChunkCoord, c: Chunk)
    requires InInt32(coord)
    ensures FitAll(CHUNK_DATA.fields, ChunkValues(coord, c))
    ensures |PayloadBytes(CHUNK_DATA.fields, ChunkValues(coord, c))| < 0x100_0000
  {
    ChunkValuesFit(coord, c);
    forall i | 0 <= i < 7
      ensures |FieldBytes(CHUNK_DATA.fields[i], ChunkValues(coord, c)[i])| <= 0x3_0000
    {
      ChunkFieldLengths(coord, c, i);
    }
    PayloadLength(CHUNK_DATA.fields, ChunkValues(coord, c));
  }

  /** The bytes of the ChunkData packet of a chunk. */
  ghost function ChunkFrame(coord: ChunkCoord, c: Chunk): Bytes
    requires InInt32(coord)
  {
    ChunkPayloadLength(coord, c);
    LebRange(ToUInt32(CHUNK_DATA.id));
    FrameBytes(CHUNK_DATA.id, PayloadBytes(CHUNK_DATA.fields, ChunkValues(coord, c)))
  }

  method BuildHeightmaps(heights: seq<UInt16>) returns (tag: Nbt)
    requires |heights| == 256
    ensures tag == HeightmapNbt(heights)
  {
    var heightmap := new Byte[288];
    Bitpack16to9(heights, heightmap);
    assert heightmap[..288] == heightmap[..];
    WordsOfPacked(heightmap[..], Stream(Fields9(heights), 9));
    tag := Nbt([], Compound([Nbt(MOTION_BLOCKING, IntArray(LONG_ARRAY, WordsOf(heightmap[..])))]));
  }

  method BuildChunkData(sections: Sections, biomes: seq<UInt32>) returns (data: Bytes)
    ensures data == SectionsBytes(sections, 0) + IntsBytes(biomes, 4)
  {
    var buffer := new Buffer();
    SerializeSections(buffer, sections);
    assert buffer.data == SectionsBytes(sections, 0);
    SerializeBiomes(buffer, biomes);
    data := buffer.data;
  }

  method SerializeBiomes(buffer: Buffer, biomes: seq<UInt32>)
    modifies buffer
    ensures buffer.data == old(buffer.data) + IntsBytes(biomes, 4)
  {
    SerializeInts(buffer, biomes, 4);
  }

  method BuildChunkPacket(coord: ChunkCoord, c: Chunk) returns (packet: Buffer)
    requires InInt32(coord)
    ensures fresh(packet) && packet.data == ChunkFrame(coord, c)
  {
    ChunkPayloadLength(coord, c);
    LebRange(ToUInt32(CHUNK_DATA.id));
    var bitmask := SectionMask(c.sections);
    var heightmaps := BuildHeightmaps(c.heights);
    var data := BuildChunkData(c.sections, c.biomes);
    var values := [IntV(coord.x), IntV(coord.z), BoolV(true), IntV(bitmask), NbtV(heightmaps), BytesV(data),
        ArrayV([])];
    assert values == ChunkValues(coord, c);
    packet := SerializePacket(CHUNK_DATA.id, CHUNK_DATA.fields, values);
  }

  /** sendChunk: gets or creates the chunk and serializes it. */
  method SendChunk(store: ChunkStore, coord: ChunkCoord) returns (packet: Buffer)
    requires InInt32(coord)
    modifies store
    ensures store.chunks == StepChunks(old(store.chunks), Create(coord)) && coord in store.chunks
    ensures fresh(packet) && packet.data == ChunkFrame(coord, store.chunks[coord])
  {
    var chunk := store.GetOrCreateChunk(coord);
    packet := BuildChunkPacket(coord, chunk);
  }
}
