/** Block, chunk and in-chunk coordinates (source/common/coord.hpp) and the packed position
    word (source/proxyd/types.hpp). */
module Coords {
  import opened Numbers

  datatype BlockCoord = BlockCoord(x: Int32, y: Int32, z: Int32)
  datatype ChunkCoord = ChunkCoord(x: int, z: int)
  datatype EntityCoord = EntityCoord(x: real, y: real, z: real)

  /** Arithmetic shift right: it rounds down, also below zero. */
  function Ashr(n: int, k: nat): int
    decreases k
  {
    if k == 0 then n else Ashr(n / 2, k - 1)
  }

  lemma {:induction false} Ashr4(n: int)
    ensures Ashr(n, 4) == n / 16
  {
    assert Ashr(n, 2) == n / 2 / 2;
    assert Ashr(n / 2 / 2, 2) == n / 2 / 2 / 2 / 2;
    assert Ashr(n, 4) == Ashr(n / 2 / 2, 2);
  }

  /** coord_cast from block to chunk. */
  function ToChunk(c: BlockCoord): (r: ChunkCoord)
    ensures r == ChunkCoord(c.x / 16, c.z / 16)
  {
    Ashr4(c.x);
    Ashr4(c.z);
    ChunkCoord(Ashr(c.x, 4), Ashr(c.z, 4))
  }

  /** coord_cast from block to position inside the chunk: `& 0xF` on the two's complement. */
  function ToLocal(c: BlockCoord): BlockCoord {
    BlockCoord(ToUInt32(c.x) % 16, c.y, ToUInt32(c.z) % 16)
  }

  /** A block is 16 times a chunk plus a position in 0..15 exactly when these are what the
      casts give, also below zero. */
  lemma {:induction false} BlockSplits(c: BlockCoord, chunk: ChunkCoord, lx: int, lz: int)
    requires 0 <= lx < 16 && 0 <= lz < 16
    ensures c.x == 16 * chunk.x + lx && c.z == 16 * chunk.z + lz
       <==> chunk == ToChunk(c) && lx == ToLocal(c).x && lz == ToLocal(c).z
  {
    LowFour(c.x);
    LowFour(c.z);
  }

  lemma {:induction false} LowFour(n: Int32)
    ensures ToUInt32(n) % 16 == n % 16
  {
  }

  /** Conversion of a coordinate to an integer, which drops the fraction. */
  function Truncate(r: real): int {
    if r >= 0.0 then r.Floor else -(-r).Floor
  }

  /** coord_cast from entity to chunk, for positions within the range of Int32; the
      conversion of any other is undefined behaviour. */
  function ChunkOf(p: EntityCoord): ChunkCoord {
    ChunkCoord(Ashr(Truncate(p.x), 4), Ashr(Truncate(p.z), 4))
  }

  /** The positions along one axis that count as chunk n: from west to east of a chunk in its blocks,
      but shifted by the block that truncation moves when below zero. */
  predicate AlongAxis(r: real, n: int) {
    if r >= 0.0 then 16 * n <= r.Floor < 16 * n + 16 else (16 * n - 1) as real < r <= (16 * n + 15) as real
  }

  lemma {:induction false} AxisExactly(r: real, n: int)
    ensures Ashr(Truncate(r), 4) == n <==> AlongAxis(r, n)
  {
    Ashr4(Truncate(r));
    if r < 0.0 {
      var up := (-r).Floor;
      assert up as real <= -r < (up + 1) as real;
    }
  }

  /** A position is in a chunk if and only if it is along both axes. */
  lemma {:induction false} ChunkOfExactly(p: EntityCoord, c: ChunkCoord)
    ensures ChunkOf(p) == c <==> AlongAxis(p.x, c.x) && AlongAxis(p.z, c.z)
  {
    AxisExactly(p.x, c.x);
    AxisExactly(p.z, c.z);
  }

  /** It is the chunk of the block that the position truncates to. */
  lemma {:induction false} ChunkOfBlock(p: EntityCoord, b: BlockCoord)
    requires b.x == Truncate(p.x) && b.z == Truncate(p.z)
    ensures ChunkOf(p) == ToChunk(b)
  {
    Ashr4(b.x);
    Ashr4(b.z);
  }

  /** Below zero, inside the last block of a chunk. */
  predicate Slips(r: real) {
    r < 0.0 && r.Floor as real != r && r.Floor % 16 == 15
  }

  lemma {:induction false} AxisIsFloorExactly(r: real)
    ensures Ashr(Truncate(r), 4) == r.Floor / 16 <==> !Slips(r)
  {
    Ashr4(Truncate(r));
    if r < 0.0 {
      var f := r.Floor;
      assert (-r).Floor == if f as real == r then -f else -f - 1;
    }
  }

  /** The conversion truncates, so a position west or north of a block boundary by less than a
      block counts as on the far side of it: the chunk is not the one around the position exactly
      there. */
  lemma {:induction false} ChunkOfIsFloorExactly(p: EntityCoord)
    ensures ChunkOf(p) == ChunkCoord(p.x.Floor / 16, p.z.Floor / 16) <==> !Slips(p.x) && !Slips(p.z)
  {
    AxisIsFloorExactly(p.x);
    AxisIsFloorExactly(p.z);
  }

  // ---- The position word ----

  type UInt64 = n: int | 0 <= n < 0x1_0000_0000_0000_0000

  function ToInt64(u: UInt64): int {
    if u < 0x8000_0000_0000_0000 then u else u - 0x1_0000_0000_0000_0000
  }

  /** toPosition: x and z in 26 bits each, y in 12. */
  function ToPosition(c: BlockCoord): (p: UInt64)
    ensures p == ToUInt32(c.x) % 0x400_0000 * 0x40_0000_0000 + ToUInt32(c.z) % 0x400_0000 * 0x1000
        + ToUInt32(c.y) % 0x1000
  {
    var xu, yu, zu := ToUInt32(c.x), ToUInt32(c.y), ToUInt32(c.z);
    PositionBits(xu % 0x400_0000, zu % 0x400_0000, yu % 0x1000);
    Or(Or(Shl(xu % 0x400_0000, 38), Shl(zu % 0x400_0000, 12)), yu % 0x1000)
  }

  lemma {:induction false} PositionBits(a: nat, b: nat, c: nat)
    requires a < 0x400_0000 && b < 0x400_0000 && c < 0x1000
    ensures Or(Or(Shl(a, 38), Shl(b, 12)), c) == a * 0x40_0000_0000 + b * 0x1000 + c
  {
    Shl12(a);
    Shl12(b);
    Shl12(1);
    Shl38(a);
    Shl38(1);
    OrDisjoint(Shl(b, 12), a, 38);
    OrCommutes(Shl(a, 38), Shl(b, 12));
    ShlShl(a, 26, 12);
    ShlAdd(Shl(a, 26), b, 12);
    OrDisjoint(c, Shl(a, 26) + b, 12);
    OrCommutes(Shl(Shl(a, 26) + b, 12), c);
  }

  lemma {:induction false} Shl12(n: nat)
    ensures Shl(n, 12) == 0x1000 * n
  {
    var m := 0x80 * n;
    ShlShl(n, 7, 5);
    Shl7(n);
    assert Shl(m, 1) == 2 * m;
    assert Shl(m, 3) == 8 * m;
    assert Shl(m, 5) == 32 * m;
  }

  lemma {:induction false} Shl38(n: nat)
    ensures Shl(n, 38) == 0x40_0000_0000 * n
  {
    ShlShl(n, 14, 12);
    Shl14(n);
    Shl12(Shl(n, 14));
    ShlShl(n, 26, 12);
    Shl12(Shl(n, 26));
  }

  /** fromPosition. */
  function FromPosition(position: UInt64): (c: BlockCoord)
    ensures PositionRange(c)
  {
    FieldsOfPosition(position);
    BlockCoord(ToInt64(position) / 0x40_0000_0000,
               position % 0x1000,
               ToInt64(position * 0x400_0000 % 0x1_0000_0000_0000_0000) / 0x40_0000_0000)
  }

  /** The coordinates a position word can name. */
  predicate PositionRange(c: BlockCoord) {
    -0x200_0000 <= c.x < 0x200_0000 && -0x200_0000 <= c.z < 0x200_0000 && 0 <= c.y < 0x1000
  }

  function Signed26(n: nat): int
    requires n < 0x400_0000
  {
    if n < 0x200_0000 then n else n - 0x400_0000
  }

  /** The three fields of a word, each extracted by shifts. */
  lemma {:induction false} FieldsOfPosition(p: UInt64)
    ensures var a, b, c := p / 0x40_0000_0000, p / 0x1000 % 0x400_0000, p % 0x1000;
      && a < 0x400_0000 && p == a * 0x40_0000_0000 + b * 0x1000 + c
      && ToInt64(p) / 0x40_0000_0000 == Signed26(a)
      && ToInt64(p * 0x400_0000 % 0x1_0000_0000_0000_0000) / 0x40_0000_0000 == Signed26(b)
  {
    var a, b, c := p / 0x40_0000_0000, p / 0x1000 % 0x400_0000, p % 0x1000;
    assert p == a * 0x40_0000_0000 + b * 0x1000 + c;
    assert p * 0x400_0000 == a * 0x1_0000_0000_0000_0000 + (b * 0x40_0000_0000 + c * 0x400_0000);
    assert p * 0x400_0000 % 0x1_0000_0000_0000_0000 == b * 0x40_0000_0000 + c * 0x400_0000;
  }

  lemma {:induction false} Signed26Back(n: nat)
    requires n < 0x400_0000
    ensures -0x200_0000 <= Signed26(n) < 0x200_0000 && ToUInt32(Signed26(n)) % 0x400_0000 == n
  {
  }

  lemma {:induction false} Signed26Of(x: Int32)
    ensures Signed26(ToUInt32(x) % 0x400_0000) == x <==> -0x200_0000 <= x < 0x200_0000
  {
  }

  lemma {:induction false} FromPositionFields(p: UInt64)
    ensures FromPosition(p) == BlockCoord(Signed26(p / 0x40_0000_0000), p % 0x1000, Signed26(p / 0x1000 % 0x400_0000))
  {
    FieldsOfPosition(p);
  }

  lemma {:induction false} FieldsOfSum(a: nat, b: nat, c: nat)
    requires a < 0x400_0000 && b < 0x400_0000 && c < 0x1000
    ensures var p := a * 0x40_0000_0000 + b * 0x1000 + c;
      p < 0x1_0000_0000_0000_0000 && p / 0x40_0000_0000 == a && p / 0x1000 % 0x400_0000 == b && p % 0x1000 == c
  {
    assert (a * 0x40_0000_0000 + b * 0x1000 + c) / 0x1000 == a * 0x400_0000 + b;
  }

  /** The block named by three fields, and the word made of them. */
  function FieldsBlock(a: nat, b: nat, y: nat): BlockCoord
    requires a < 0x400_0000 && b < 0x400_0000 && y < 0x1000
  {
    BlockCoord(Signed26(a), y, Signed26(b))
  }

  function FieldsWord(a: nat, b: nat, y: nat): nat {
    a * 0x40_0000_0000 + b * 0x1000 + y
  }

  lemma {:induction false} WordNames(a: nat, b: nat, y: nat)
    requires a < 0x400_0000 && b < 0x400_0000 && y < 0x1000
    ensures FieldsWord(a, b, y) < TWO64 && FromPosition(FieldsWord(a, b, y)) == FieldsBlock(a, b, y)
  {
    FieldsOfSum(a, b, y);
    FromPositionFields(FieldsWord(a, b, y));
  }

  lemma {:induction false} LowTwelve(y: Int32)
    ensures 0 <= ToUInt32(y) % 0x1000 < 0x1000
    ensures ToUInt32(y) % 0x1000 == y <==> 0 <= y < 0x1000
  {
  }

  lemma {:induction false} BlockHasWord(a: nat, b: nat, y: nat)
    requires a < 0x400_0000 && b < 0x400_0000 && y < 0x1000
    ensures ToPosition(FieldsBlock(a, b, y)) == FieldsWord(a, b, y)
  {
    Signed26Back(a);
    Signed26Back(b);
    LowTwelve(y);
  }

  lemma {:induction false} WordSplits(p: UInt64) returns (a: nat, b: nat, y: nat)
    ensures a < 0x400_0000 && b < 0x400_0000 && y < 0x1000 && p == FieldsWord(a, b, y)
  {
    FieldsOfPosition(p);
    a, b, y := p / 0x40_0000_0000, p / 0x1000 % 0x400_0000, p % 0x1000;
  }

  /** Every word is the position of the block it names. */
  lemma {:induction false} PositionOfBlock(p: UInt64)
    ensures ToPosition(FromPosition(p)) == p
  {
    var a, b, y := WordSplits(p);
    WordNames(a, b, y);
    BlockHasWord(a, b, y);
  }

  lemma {:induction false} BlockSplitsIntoFields(c: BlockCoord) returns (a: nat, b: nat, y: nat)
    ensures a < 0x400_0000 && b < 0x400_0000 && y < 0x1000
    ensures ToPosition(c) == FieldsWord(a, b, y)
    ensures Signed26(a) == c.x <==> -0x200_0000 <= c.x < 0x200_0000
    ensures Signed26(b) == c.z <==> -0x200_0000 <= c.z < 0x200_0000
    ensures y == c.y <==> 0 <= c.y < 0x1000
  {
    a, b, y := ToUInt32(c.x) % 0x400_0000, ToUInt32(c.z) % 0x400_0000, ToUInt32(c.y) % 0x1000;
    Signed26Of(c.x);
    Signed26Of(c.z);
    LowTwelve(c.y);
  }

  /** A block comes back from its position word exactly when it lies in the word's range. */
  lemma {:induction false} BlockOfPosition(c: BlockCoord)
    ensures FromPosition(ToPosition(c)) == c <==> PositionRange(c)
  {
    var a, b, y := BlockSplitsIntoFields(c);
    WordNames(a, b, y);
  }
}
