/** The bytes of integers, fields, tags and metadata, spelled out: the layouts that the serializers
    and the readers derived from them share (source/proxyd/serialize.hpp, source/proxyd/nbt.cpp,
    source/proxyd/entitymetadata.hpp). */
module Layout {
  import opened Numbers
  import opened VarInt
  import opened Buffers
  import opened NbtTree
  import opened Metadata
  import opened Schema
  import opened BitPack
  import opened Chunks
  import opened ChunkWire

  // ---- Integers ----

  lemma {:induction false} TwoMore(n: nat, width: nat)
    ensures BigEndian(n, width + 2) == BigEndian(n / 0x1_0000, width) + [n / 0x100 % 0x100, n % 0x100]
  {
    assert BigEndian(n, width + 2) == BigEndian(n / 0x100, width + 1) + [n % 0x100];
    assert BigEndian(n / 0x100, width + 1) == BigEndian(n / 0x100 / 0x100, width) + [n / 0x100 % 0x100];
  }

  lemma {:induction false} TwoBytes(n: nat)
    ensures BigEndian(n, 2) == [n / 0x100 % 0x100, n % 0x100]
  {
    TwoMore(n, 0);
  }

  lemma {:induction false} FourBytes(n: nat)
    ensures BigEndian(n, 4) == [n / 0x100_0000 % 0x100, n / 0x1_0000 % 0x100, n / 0x100 % 0x100, n % 0x100]
  {
    TwoMore(n, 2);
    TwoBytes(n / 0x1_0000);
  }

  lemma {:induction false} EightBytes(n: nat)
    ensures BigEndian(n, 8) == BigEndian(n / 0x1_0000_0000, 4) + BigEndian(n, 4)
  {
    TwoMore(n, 6);
    TwoMore(n / 0x1_0000, 4);
    TwoMore(n, 2);
    TwoBytes(n / 0x1_0000);
    assert n / 0x1_0000 / 0x1_0000 == n / 0x1_0000_0000;
  }

  /** Adding a multiple leaves the digits below it. */
  lemma {:induction false} DigitStays(n: int, k: int)
    ensures (n + 0x100 * k) % 0x100 == n % 0x100 && (n + 0x100 * k) / 0x100 == n / 0x100 + k
  {
  }

  lemma {:induction false} ShortPattern(n: int)
    ensures var p := n + 0x1_0000; p % 0x100 == n % 0x100 && p / 0x100 % 0x100 == n / 0x100 % 0x100
  {
    DigitStays(n, 0x100);
    DigitStays(n / 0x100, 1);
  }

  lemma {:induction false} IntPattern(n: int)
    ensures var p := n + 0x1_0000_0000;
      && p % 0x100 == n % 0x100 && p / 0x100 % 0x100 == n / 0x100 % 0x100
      && p / 0x100 / 0x100 % 0x100 == n / 0x100 / 0x100 % 0x100
      && p / 0x100 / 0x100 / 0x100 % 0x100 == n / 0x100 / 0x100 / 0x100 % 0x100
  {
    DigitStays(n, 0x100_0000);
    DigitStays(n / 0x100, 0x1_0000);
    DigitStays(n / 0x100 / 0x100, 0x100);
    DigitStays(n / 0x100 / 0x100 / 0x100, 1);
  }

  lemma {:induction false} Divisions(n: int)
    ensures n / 0x1_0000 == n / 0x100 / 0x100 && n / 0x100_0000 == n / 0x100 / 0x100 / 0x100
  {
  }

  /** Integers are written highest byte first, negative ones in two's complement. */
  lemma {:induction false} ByteOnWire(n: int)
    requires -0x80 <= n < 0x100
    ensures IntBytes(n, 1) == [n % 0x100]
  {
    assert BigEndian(Pattern(n, 1), 1) == BigEndian(Pattern(n, 1) / 0x100, 0) + [Pattern(n, 1) % 0x100];
  }

  lemma {:induction false} ShortOnWire(n: int)
    requires -0x8000 <= n < 0x1_0000
    ensures IntBytes(n, 2) == [n / 0x100 % 0x100, n % 0x100]
  {
    TwoBytes(Pattern(n, 2));
    ShortPattern(n);
  }

  lemma {:induction false} IntOnWire(n: int)
    requires -0x8000_0000 <= n < 0x1_0000_0000
    ensures IntBytes(n, 4) == [n / 0x100_0000 % 0x100, n / 0x1_0000 % 0x100, n / 0x100 % 0x100, n % 0x100]
  {
    FourBytes(Pattern(n, 4));
    IntPattern(n);
    Divisions(n);
    Divisions(Pattern(n, 4));
  }

  lemma {:induction false} LongOnWire(n: int)
    requires -0x8000_0000_0000_0000 <= n < 0x1_0000_0000_0000_0000
    ensures var p := if n < 0 then n + 0x1_0000_0000_0000_0000 else n;
      IntBytes(n, 8) == BigEndian(p / 0x1_0000_0000, 4) + BigEndian(p, 4)
  {
    EightBytes(Pattern(n, 8));
  }

  /** VarInts have seven bits in a byte, the lowest first, and -1 has thirty-two ones. */
  lemma {:induction false} VarIntOnWire(n: Int32)
    ensures 0 <= n < 0x80 ==> VarIntBytes(n) == [n]
    ensures 0x80 <= n < 0x4000 ==> VarIntBytes(n) == [0x80 + n % 0x80, n / 0x80]
    ensures VarIntBytes(-1) == [0xff, 0xff, 0xff, 0xff, 0x0f]
  {
    if 0x80 <= n < 0x4000 {
      assert Leb128(n / 0x80) == [n / 0x80] && Leb128(n) == [0x80 + n % 0x80] + Leb128(n / 0x80);
    }
    var u := 0xffff_ffff;
    assert Leb128(u / 0x80 / 0x80 / 0x80 / 0x80) == [0x0f];
    assert Leb128(u / 0x80 / 0x80 / 0x80) == [0xff] + [0x0f];
    assert Leb128(u / 0x80 / 0x80) == [0xff] + [0xff, 0x0f];
    assert Leb128(u / 0x80) == [0xff] + [0xff, 0xff, 0x0f];
    assert Leb128(u) == [0xff] + [0xff, 0xff, 0xff, 0x0f];
  }

  // ---- Fields ----

  /** What each kind of field is on the wire: a bool is one byte, a string and counted bytes have their
      length in front, a uuid is reversed, and an array has its count in front of its elements. */
  lemma {:induction false} FieldsOnWire(flag: bool, n: Int32, b: Bytes)
    ensures FieldBytes(FBool, BoolV(flag)) == [if flag then 1 else 0]
    ensures FieldBytes(FVarInt, IntV(n)) == VarIntBytes(n)
    ensures FieldBytes(FTailBytes, BytesV(b)) == b
    ensures |b| < 0x8000_0000 ==>
      && FieldBytes(FString, BytesV(b)) == VarIntBytes(|b|) + b
      && FieldBytes(FVarBytes, BytesV(b)) == VarIntBytes(|b|) + b
    ensures |b| == 16 ==>
      |FieldBytes(FUuid, BytesV(b))| == 16
        && forall i :: 0 <= i < 16 ==> FieldBytes(FUuid, BytesV(b))[i] == b[15 - i]
  {
    forall i | 0 <= i < |b|
      ensures Reverse(b)[i] == b[|b| - 1 - i]
    {
      ReversedAt(b, i);
    }
  }

  lemma {:induction false} ReversedAt(b: Bytes, i: nat)
    requires i < |b|
    ensures Reverse(b)[i] == b[|b| - 1 - i]
  {
    if i < |b| - 1 {
      ReversedAt(b[1..], i);
    }
  }

  lemma {:induction false} ArraysOnWire(e: Field, v: Value, vs: seq<Value>)
    requires GoodField(e) && Fits(e, v) && forall x :: x in vs ==> Fits(e, x)
    ensures ElemsBytes(e, []) == []
    ensures forall x :: x in [v] + vs ==> Fits(e, x)
    ensures ElemsBytes(e, [v] + vs) == FieldBytes(e, v) + ElemsBytes(e, vs)
  {
    assert ([v] + vs)[1..] == vs;
  }

  // ---- Tags ----

  /** The numbers of the types. */
  lemma {:induction false} TagCodes()
    ensures Code(BYTE) == 1 && Code(SHORT) == 2 && Code(INT) == 3 && Code(LONG) == 4
    ensures Code(FLOAT) == 5 && Code(DOUBLE) == 6 && Code(BYTE_ARRAY) == 7 && Code(STRING) == 8
    ensures Code(LIST) == 9 && Code(COMPOUND) == 10 && Code(INT_ARRAY) == 11 && Code(LONG_ARRAY) == 12
  {
  }

  /** A tag is its type, the two bytes of its name's length, its name and its value. */
  lemma {:induction false} TagOnWire(t: Nbt)
    requires Typed(t)
    ensures var n := |t.name| % 0x1_0000;
      TagBytes(t) == [Code(TypeOf(t.value)), n / 0x100, n % 0x100] + t.name + ValueBytes(t.value)
  {
    TwoBytes(|t.name| % 0x1_0000);
  }

  /** A compound is its tags and a zero. */
  lemma {:induction false} CompoundOnWire(t: Nbt, tags: seq<Nbt>)
    requires Typed(t) && forall u :: u in tags ==> Typed(u)
    ensures TypedValue(Compound([])) && ValueBytes(Compound([])) == [0]
    ensures TypedValue(Compound(tags)) && TypedValue(Compound([t] + tags))
    ensures ValueBytes(Compound([t] + tags)) == TagBytes(t) + ValueBytes(Compound(tags))
  {
    assert ([t] + tags)[1..] == tags;
  }

  /** Numbers have one, two, four or eight bytes by their type; a string the two bytes of its length in
      front. */
  lemma {:induction false} ScalarsOnWire(bits: nat, b: Bytes)
    ensures bits < 0x100 ==> ValueBytes(Number(BYTE, bits)) == [bits]
    ensures bits < 0x1_0000 ==> ValueBytes(Number(SHORT, bits)) == [bits / 0x100, bits % 0x100]
    ensures bits < 0x1_0000_0000 ==>
      && ValueBytes(Number(INT, bits)) == BigEndian(bits, 4) && ValueBytes(Number(FLOAT, bits)) == BigEndian(bits, 4)
    ensures bits < 0x1_0000_0000_0000_0000 ==>
      && ValueBytes(Number(LONG, bits)) == BigEndian(bits, 8) && ValueBytes(Number(DOUBLE, bits)) == BigEndian(bits, 8)
    ensures |b| < 0x1_0000 ==> ValueBytes(Str(b)) == [|b| / 0x100, |b| % 0x100] + b
  {
    if bits < 0x100 {
      OneByte(bits);
    }
    TwoBytes(bits);
    TwoBytes(|b| % 0x1_0000);
  }

  /** An array is the four bytes of its count and its elements, of one, four or eight bytes by its
      type. */
  lemma {:induction false} NumbersOnWire(elems: seq<nat>)
    ensures TypedValue(IntArray(BYTE_ARRAY, elems)) ==>
      ValueBytes(IntArray(BYTE_ARRAY, elems)) == BigEndian(|elems|, 4) + IntsBytes(elems, 1)
    ensures TypedValue(IntArray(INT_ARRAY, elems)) ==>
      ValueBytes(IntArray(INT_ARRAY, elems)) == BigEndian(|elems|, 4) + IntsBytes(elems, 4)
    ensures TypedValue(IntArray(LONG_ARRAY, elems)) ==>
      ValueBytes(IntArray(LONG_ARRAY, elems)) == BigEndian(|elems|, 4) + IntsBytes(elems, 8)
    ensures IntsBytes([], 4) == []
    ensures forall width: nat :: elems != [] ==>
      IntsBytes(elems, width) == BigEndian(elems[0], width) + IntsBytes(elems[1..], width)
  {
  }

  /** A list is the type of its elements, the four bytes of its count and its elements. */
  lemma {:induction false} ListOnWire(elem: NbtType, v: NbtValue, vs: seq<NbtValue>)
    requires |vs| < 0x7fff_ffff
    requires TypeOf(v) == elem && TypedValue(v) && forall w :: w in vs ==> TypeOf(w) == elem && TypedValue(w)
    ensures TypedValue(List(elem, [])) && ValueBytes(List(elem, [])) == [Code(elem)] + BigEndian(0, 4)
    ensures TypedValue(List(elem, vs)) && TypedValue(List(elem, [v] + vs))
    ensures ValueBytes(List(elem, [v] + vs))
         == [Code(elem)] + BigEndian(1 + |vs|, 4) + (ValueBytes(v) + ValueBytes(List(elem, vs))[5..])
  {
    assert ([v] + vs)[1..] == vs;
    assert ValueBytes(List(elem, vs))[5..] == ListBytes(vs);
    assert ValueBytes(List(elem, [])) == [Code(elem)] + BigEndian(0, 4) + [];
  }

  // ---- Metadata ----

  /** An entry is its index, the number of its type and its value. */
  lemma {:induction false} EntryOnWire(i: Byte, byte: Byte, n: Int32, bits: UInt32, flag: bool)
    ensures EntryBytes(Entry(i, ByteValue(byte))) == [i, 0, byte]
    ensures EntryBytes(Entry(i, VarIntValue(n))) == [i, 1] + VarIntBytes(n)
    ensures EntryBytes(Entry(i, FloatValue(bits))) == [i, 2] + BigEndian(bits, 4)
    ensures EntryBytes(Entry(i, BoolValue(flag))) == [i, 7, if flag then 1 else 0]
    ensures EntryBytes(Entry(i, PoseValue(n))) == [i, 18] + VarIntBytes(n)
  {
    SmallNumbers();
  }

  /** The list is its entries and 0xff. */
  lemma {:induction false} EntriesOnWire(e: Entry, rest: seq<Entry>)
    ensures MetadataBytes([]) == [0xff] && MetadataBytes([e] + rest) == EntryBytes(e) + MetadataBytes(rest)
  {
    assert ([e] + rest)[1..] == rest;
  }

  lemma {:induction false} SmallNumbers()
    ensures VarIntBytes(0) == [0] && VarIntBytes(1) == [1] && VarIntBytes(2) == [2] && VarIntBytes(7) == [7]
    ensures VarIntBytes(18) == [18] && VarIntBytes(5) == [5]
  {
  }

  /** What the server sends of a player: the flags for crouching and sprinting, and its pose. */
  lemma {:induction false} PlayerMetadata(flags: Byte, crouching: bool)
    ensures MetadataBytes([Entry(0, ByteValue(flags))]) == [0, 0, flags, 0xff]
    ensures MetadataBytes([Entry(0, ByteValue(flags)), Entry(6, PoseValue(if crouching then 5 else 0))])
         == [0, 0, flags, 6, 18, if crouching then 5 else 0, 0xff]
  {
    SmallNumbers();
    var flag, pose := Entry(0, ByteValue(flags)), Entry(6, PoseValue(if crouching then 5 else 0));
    EntryOnWire(0, flags, 0, 0, false);
    EntryOnWire(6, 0, if crouching then 5 else 0, 0, false);
    EntriesOnWire(flag, []);
    EntriesOnWire(pose, []);
    EntriesOnWire(flag, [pose]);
    assert [flag] + [] == [flag] && [pose] + [] == [pose] && [flag] + [pose] == [flag, pose];
  }

  // ---- Chunks ----

  /** A section is its block count, 14 bits per block and 896 longs of eight bytes. */
  lemma {:induction false} SectionOnWire(blocks: Blocks)
    ensures var longs := Longs(Masked14(blocks), 14);
      |longs| == 896 && SectionBytes(blocks) == [0x10, 0x00, 14, 0x80, 0x07] + IntsBytes(longs, 8)
  {
    TwoBytes(4096);
    assert VarIntBytes(896) == [0x80, 0x07];
  }

  lemma {:induction false} LongsOnWire(name: Bytes, longs: seq<nat>)
    requires |name| < 0x100 && |longs| < 0x100 && TypedValue(IntArray(LONG_ARRAY, longs))
    ensures TagBytes(Nbt(name, IntArray(LONG_ARRAY, longs)))
         == [12, 0, |name|] + name + ([0, 0, 0, |longs|] + IntsBytes(longs, 8))
  {
    TagOnWire(Nbt(name, IntArray(LONG_ARRAY, longs)));
    NumbersOnWire(longs);
    FourBytes(|longs|);
  }

  lemma {:induction false} OneTagOnWire(t: Nbt)
    requires Typed(t)
    ensures Typed(Nbt([], Compound([t]))) && TagBytes(Nbt([], Compound([t]))) == [10, 0, 0] + (TagBytes(t) + [0])
  {
    CompoundOnWire(t, []);
    assert [t] + [] == [t];
    TagOnWire(Nbt([], Compound([t])));
    assert [10, 0, 0] + [] == [10, 0, 0];
  }

  /** The heightmap is a nameless compound of one array of 36 longs under its name. */
  lemma {:induction false} HeightmapOnWire(heights: seq<UInt16>)
    requires |heights| == 256
    ensures var longs := Longs(Fields9(heights), 9);
      && |longs| == 36 && Typed(HeightmapNbt(heights))
      && TagBytes(HeightmapNbt(heights))
         == [10, 0, 0] + ([12, 0, 15] + MOTION_BLOCKING + ([0, 0, 0, 36] + IntsBytes(longs, 8)) + [0])
  {
    HeightmapFits(heights);
    var longs := Longs(Fields9(heights), 9);
    var t := Nbt(MOTION_BLOCKING, IntArray(LONG_ARRAY, longs));
    assert t in HeightmapNbt(heights).value.tags;
    OneTagOnWire(t);
    LongsOnWire(MOTION_BLOCKING, longs);
  }
}
