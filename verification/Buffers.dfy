/** The growing byte buffer of source/common/buffer.hpp and the fixed-width writers and
    readers of source/proxyd/serialize.hpp and source/proxyd/deserialize.hpp. */
module Buffers {
  import opened Numbers
  import opened VarInt

  class Buffer {
    var data: Bytes

    constructor ()
      ensures data == []
    {
      data := [];
    }

    method Write(b: Bytes)
      modifies this
      ensures data == old(data) + b
    {
      data := data + b;
    }

    method Prepend(b: Bytes)
      modifies this
      ensures data == b + old(data)
    {
      data := b + data;
    }

    method Discard(size: nat)
      requires size <= |data|
      modifies this
      ensures data == old(data)[size..]
    {
      data := data[size..];
    }
  }

  // ---- Fixed-width integers ----

  /** How many values an integer of `width` bytes has. */
  function Range(width: nat): nat {
    if width == 1 then 0x100
    else if width == 2 then 0x1_0000
    else if width == 4 then 0x1_0000_0000
    else 0x1_0000_0000_0000_0000
  }

  predicate IsWidth(width: nat) {
    width in [1, 2, 4, 8]
  }

  lemma {:induction false} RangeIs(width: nat)
    requires IsWidth(width)
    ensures Range(width) == Pow256(width)
  {
    assert Pow256(2) == 256 * Pow256(1);
    assert Pow256(4) == 256 * Pow256(3) == 65536 * Pow256(2);
    assert Pow256(6) == 65536 * Pow256(4);
    assert Pow256(8) == 65536 * Pow256(6);
  }

  predicate InRange(n: int, width: nat, signed: bool) {
    if signed then -(Range(width) / 2) <= n < Range(width) / 2 else 0 <= n < Range(width)
  }

  /** The two's-complement pattern of a value. */
  function Pattern(n: int, width: nat): (p: nat)
    requires InRange(n, width, true) || InRange(n, width, false)
    ensures p < Range(width)
  {
    if n < 0 then n + Range(width) else n
  }

  function FromPattern(p: nat, width: nat, signed: bool): (n: int)
    requires p < Range(width)
    ensures InRange(n, width, signed) && Pattern(n, width) == p
  {
    if signed && p >= Range(width) / 2 then p - Range(width) else p
  }

  function IntBytes(n: int, width: nat): (b: Bytes)
    requires InRange(n, width, true) || InRange(n, width, false)
    ensures |b| == width
  {
    BigEndian(Pattern(n, width), width)
  }

  lemma {:induction false} OneByte(n: Byte)
    ensures IntBytes(n, 1) == [n]
  {
    assert BigEndian(n, 1) == BigEndian(n / 256, 0) + [n % 256];
  }

  /** serializeInt, and serializeFloat on the bit pattern of the float. */
  method SerializeInt(buffer: Buffer, n: int, width: nat)
    requires IsWidth(width) && (InRange(n, width, true) || InRange(n, width, false))
    modifies buffer
    ensures buffer.data == old(buffer.data) + IntBytes(n, width)
  {
    buffer.Write(IntBytes(n, width));
  }

  method SerializeVarInt(buffer: Buffer, value: Int32)
    modifies buffer
    ensures buffer.data == old(buffer.data) + VarIntBytes(value)
  {
    LebRange(ToUInt32(value));
    var buf := new Byte[5];
    var length := EncodeVarInt32(buf, 0, value);
    assert buf[..length] == buf[0..0 + length];
    buffer.Write(buf[..length]);
  }

  function StringBytes(s: Bytes): Bytes
    requires |s| < 0x8000_0000
  {
    VarIntBytes(|s|) + s
  }

  method SerializeString(buffer: Buffer, s: Bytes)
    requires |s| < 0x8000_0000
    modifies buffer
    ensures buffer.data == old(buffer.data) + StringBytes(s)
  {
    SerializeVarInt(buffer, |s|);
    buffer.Write(s);
  }

  // ---- Readers ----

  /** deserializeBytes. */
  function ParseBlock(b: Bytes, size: nat): (r: Parse<Bytes>)
    ensures r.Ok? ==> |r.rest| + size == |b|
  {
    if |b| < size then Incomplete else Ok(b[..size], b[size..])
  }

  /** deserializeInt of a `width`-byte type, as a pattern. */
  function ParseFixed(b: Bytes, width: nat): (r: Parse<nat>)
    ensures r.Ok? ==> r.value < Pow256(width) && |r.rest| + width == |b|
  {
    if |b| < width then Incomplete else Ok(FromBigEndian(b, width), b[width..])
  }

  lemma {:induction false} ParseBlockBack(block: Bytes, more: Bytes)
    ensures ParseBlock(block + more, |block|) == Ok(block, more)
  {
  }

  lemma {:induction false} ParseFixedBack(n: nat, width: nat, more: Bytes)
    requires n < Pow256(width)
    ensures ParseFixed(BigEndian(n, width) + more, width) == Ok(n, more)
  {
    BigEndianReads(n, width, more);
  }
}
