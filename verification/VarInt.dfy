/** Variable-length integers: source/proxyd/serialize.hpp and source/proxyd/deserialize.hpp. */
module VarInt {
  import opened Numbers

  /** A DeserializeStatus together with what the call leaves in its out-parameters: the
      value and the bytes behind the advanced cursor. */
  datatype Parse<+T> = Ok(value: T, rest: Bytes) | Incomplete | Invalid

  const VARINT32_MAX_LENGTH: nat := 5

  // ---- What the format is ----

  /** Unsigned LEB128, section 7.6 of DWARF Version 4: seven bits a byte, lowest first,
      the top bit set on every byte but the last. */
  function Leb128(u: nat): (b: Bytes)
    ensures |b| > 0
  {
    if u < 128 then [u] else [128 + u % 128] + Leb128(u / 128)
  }

  /** The number whose base-128 digits, lowest first, are the low seven bits of each byte. */
  function Base128(b: Bytes): nat {
    if b == [] then 0 else b[0] % 128 + 128 * Base128(b[1..])
  }

  /** Reads at most `left` bytes up to and including one whose top bit is clear. */
  function TakeVarInt(b: Bytes, left: nat): Parse<nat> {
    if left == 0 then Invalid
    else if b == [] then Incomplete
    else if b[0] < 128 then Ok(b[0], b[1..])
    else match TakeVarInt(b[1..], left - 1)
      case Ok(v, rest) => Ok(b[0] % 128 + 128 * v, rest)
      case Incomplete => Incomplete
      case Invalid => Invalid
  }

  function ParseVarInt(b: Bytes): Parse<Int32> {
    match TakeVarInt(b, VARINT32_MAX_LENGTH)
    case Ok(raw, rest) => Ok(ToInt32(raw % 0x1_0000_0000), rest)
    case Incomplete => Incomplete
    case Invalid => Invalid
  }

  function VarIntBytes(value: Int32): (b: Bytes)
    ensures |b| > 0
  {
    Leb128(ToUInt32(value))
  }

  // ---- What the reader promises ----

  ghost predicate AllContinue(b: Bytes) {
    forall i :: 0 <= i < |b| ==> b[i] >= 128
  }

  /** What each outcome says about the bytes, for every byte string. */
  ghost predicate TakeMeaning(b: Bytes, left: nat, r: Parse<nat>) {
    match r
    case Ok(raw, rest) =>
      var n := |b| - |rest|;
      && 1 <= n <= left && n <= |b| && rest == b[n..]
      && AllContinue(b[..n - 1]) && b[n - 1] < 128 && raw == Base128(b[..n])
    case Incomplete => |b| < left && AllContinue(b)
    case Invalid => |b| >= left && AllContinue(b[..left])
  }

  lemma {:induction false} ContinueOn(b: Bytes, n: nat)
    requires 0 < n <= |b| && b[0] >= 128 && AllContinue(b[1..][..n - 1])
    ensures AllContinue(b[..n])
  {
    assert forall i :: 1 <= i < n ==> b[i] == b[1..][..n - 1][i - 1];
  }

  lemma {:induction false} MeaningOn(b: Bytes, left: nat, tail: Parse<nat>)
    requires left > 0 && b != [] && b[0] >= 128
    requires TakeVarInt(b[1..], left - 1) == tail && TakeMeaning(b[1..], left - 1, tail)
    ensures TakeMeaning(b, left, TakeVarInt(b, left))
  {
    match tail
    case Ok(v, rest) =>
      var n := |b| - |rest|;
      assert b[1..][n - 1..] == b[n..] && b[..n][1..] == b[1..][..n - 1];
      assert b[1..][..n - 2] == b[1..][..n - 1 - 1];
      ContinueOn(b, n - 1);
    case Incomplete =>
      assert b[1..][..|b| - 1] == b[1..] && b[..|b|] == b;
      ContinueOn(b, |b|);
    case Invalid =>
      ContinueOn(b, left);
  }

  lemma {:induction false} TakeVarIntMeaning(b: Bytes, left: nat)
    ensures TakeMeaning(b, left, TakeVarInt(b, left))
  {
    if left > 0 && b != [] && b[0] >= 128 {
      TakeVarIntMeaning(b[1..], left - 1);
      MeaningOn(b, left, TakeVarInt(b[1..], left - 1));
    } else if left > 0 && b != [] {
      assert b[..1][1..] == [];
    }
  }

  /** The decoder is the base-128 sum modulo 2^32 of 1 to 5 bytes; it asks for more exactly
      when fewer than five bytes are there and all continue, and rejects exactly when five
      continue. */
  lemma {:induction false} ParseVarIntMeaning(b: Bytes)
    ensures match ParseVarInt(b)
            case Ok(v, rest) =>
              (var n := |b| - |rest|;
               && 1 <= n <= 5 && n <= |b| && rest == b[n..]
               && AllContinue(b[..n - 1]) && b[n - 1] < 128
               && ToUInt32(v) == Base128(b[..n]) % TWO32)
            case Incomplete => |b| < 5 && AllContinue(b)
            case Invalid => |b| >= 5 && AllContinue(b[..5])
  {
    TakeVarIntMeaning(b, 5);
  }

  /** Bytes that arrive later change neither an accepted value nor a rejection. */
  lemma {:induction false} TakeVarIntStable(b: Bytes, left: nat, more: Bytes)
    ensures match TakeVarInt(b, left)
            case Ok(v, rest) => TakeVarInt(b + more, left) == Ok(v, rest + more)
            case Incomplete => true
            case Invalid => TakeVarInt(b + more, left) == Invalid
  {
    if left > 0 && b != [] {
      assert (b + more)[1..] == b[1..] + more;
      TakeVarIntStable(b[1..], left - 1, more);
    }
  }

  lemma {:induction false} TakeLeb128(u: nat, left: nat, more: Bytes)
    requires |Leb128(u)| <= left
    ensures TakeVarInt(Leb128(u) + more, left) == Ok(u, more)
  {
    var b := Leb128(u);
    if u < 128 {
      assert (b + more)[1..] == more;
    } else {
      assert b[1..] == Leb128(u / 128);
      assert (b + more)[1..] == Leb128(u / 128) + more;
      TakeLeb128(u / 128, left - 1, more);
    }
  }

  lemma {:induction false} LebLength(u: nat, n: nat)
    requires n > 0
    ensures |Leb128(u)| <= n <==> u < Shl(1, 7 * n)
  {
    var p := Shl(1, 7 * (n - 1));
    ShlShl(1, 7 * (n - 1), 7);
    Shl7(p);
    ShlPositive(7 * (n - 1));
    if u >= 128 && n > 1 {
      LebLength(u / 128, n - 1);
    }
  }

  lemma {:induction false} LebRange(u: UInt32)
    ensures |Leb128(u)| <= 5
    ensures |Leb128(u)| <= 4 <==> u < 0x1000_0000
    ensures |Leb128(u)| <= 3 <==> u < 0x20_0000
    ensures |Leb128(u)| <= 2 <==> u < 0x4000
    ensures |Leb128(u)| <= 1 <==> u < 0x80
  {
    LebLength(u, 1);
    LebLength(u, 2);
    LebLength(u, 3);
    LebLength(u, 4);
    LebLength(u, 5);
    Shl7(1);
    Shl14(1);
    Shl21(1);
    Shl28(1);
    ShlShl(1, 28, 7);
    Shl7(Shl(1, 28));
  }

  /** Every value decodes back from its own bytes, whatever follows them. */
  lemma {:induction false} VarIntRoundTrip(value: Int32, more: Bytes)
    ensures 1 <= |VarIntBytes(value)| <= 5
    ensures ParseVarInt(VarIntBytes(value) + more) == Ok(value, more)
  {
    LebRange(ToUInt32(value));
    TakeLeb128(ToUInt32(value), 5, more);
  }

  lemma {:induction false} Base128Bound(b: Bytes)
    ensures Base128(b) < Shl(1, 7 * |b|)
  {
    if b != [] {
      Base128Bound(b[1..]);
      ShlShl(1, 7 * |b[1..]|, 7);
      Shl7(Shl(1, 7 * |b[1..]|));
    }
  }

  /** No accepted byte string for a value is shorter than the one the encoder writes. */
  lemma {:induction false} VarIntShortest(b: Bytes)
    ensures match ParseVarInt(b)
            case Ok(v, rest) => |VarIntBytes(v)| <= |b| - |rest|
            case _ => true
  {
    ParseVarIntMeaning(b);
    match ParseVarInt(b)
    case Ok(v, rest) =>
      var n := |b| - |rest|;
      Base128Bound(b[..n]);
      LebLength(ToUInt32(v), n);
    case _ =>
  }

  // ---- The clz table ----

  /** wireSizeVarInt32: the switch over the number of leading zeros. */
  function WireSizeVarInt32(value: Int32): (n: nat)
    ensures n == |VarIntBytes(value)|
  {
    ClzTable(ToUInt32(value));
    var zeros := Clz32(ToUInt32(value));
    if zeros <= 3 then 5
    else if zeros <= 10 then 4
    else if zeros <= 17 then 3
    else if zeros <= 24 then 2
    else 1
  }

  /** Each row of the switch is one length of the LEB128 form. */
  lemma {:induction false} ClzTable(u: UInt32)
    ensures Clz32(u) <= 3 <==> |Leb128(u)| == 5
    ensures 4 <= Clz32(u) <= 10 <==> |Leb128(u)| == 4
    ensures 11 <= Clz32(u) <= 17 <==> |Leb128(u)| == 3
    ensures 18 <= Clz32(u) <= 24 <==> |Leb128(u)| == 2
    ensures 25 <= Clz32(u) <==> |Leb128(u)| == 1
  {
    ClzRange(u);
    LebRange(u);
  }

  lemma {:induction false} ClzRange(u: UInt32)
    ensures Clz32(u) <= 3 <==> u >= 0x1000_0000
    ensures Clz32(u) <= 10 <==> u >= 0x20_0000
    ensures Clz32(u) <= 17 <==> u >= 0x4000
    ensures Clz32(u) <= 24 <==> u >= 0x80
  {
    BitLengthBound(u, 7);
    BitLengthBound(u, 14);
    BitLengthBound(u, 21);
    BitLengthBound(u, 28);
    Shl7(1);
    Shl14(1);
    Shl21(1);
    Shl28(1);
  }

  /** The byte the encoder stores for 0x80u | v. */
  function ContinueByte(v: nat): (b: Byte)
    ensures b == 128 + v % 128
  {
    OrTopBit(v % 128, v / 128);
    Or(v, 0x80) % 256
  }

  lemma {:induction false} OrTopBit(low: nat, high: nat)
    requires low < 128
    ensures Or(low + 128 * high, 0x80) % 256 == 128 + low
  {
    Shl7(1);
    Shl7(high);
    OrAbove(low, high, 1, 7);
    Shl7(Or(high, 1));
    OddOr(high);
    OddSeptets(low, Or(high, 1));
  }

  lemma {:induction false} OddSeptets(low: nat, odd: nat)
    requires low < 128 && odd % 2 == 1
    ensures (low + 0x80 * odd) % 256 == 128 + low
  {
    var half := odd / 2;
    assert low + 0x80 * odd == 256 * half + (128 + low);
  }

  lemma {:induction false} OddOr(n: nat)
    ensures Or(n, 1) % 2 == 1
  {
    var rest := Or(n / 2, 0);
    assert Or(n, 1) == 2 * rest + 1;
  }

  /** encodeVarInt32: fills the caller's buffer from `at` on. */
  method EncodeVarInt32(buf: array<Byte>, at: nat, value: Int32) returns (n: nat)
    requires at + |VarIntBytes(value)| <= buf.Length
    modifies buf
    ensures n == |VarIntBytes(value)|
    ensures buf[at..at + n] == VarIntBytes(value)
    ensures buf[..at] == old(buf[..at]) && buf[at + n..] == old(buf[at + n..])
  {
    var v: UInt32 := ToUInt32(value);
    ClzTable(v);
    LebRange(v);
    var zeros := Clz32(v);
    if zeros <= 3 {
      Leb5(v);
      buf[at] := ContinueByte(v);
      buf[at + 1] := ContinueByte(v / 0x80);
      buf[at + 2] := ContinueByte(v / 0x4000);
      buf[at + 3] := ContinueByte(v / 0x20_0000);
      buf[at + 4] := v / 0x1000_0000;
      n := 5;
    } else if zeros <= 10 {
      Leb4(v);
      buf[at] := ContinueByte(v);
      buf[at + 1] := ContinueByte(v / 0x80);
      buf[at + 2] := ContinueByte(v / 0x4000);
      buf[at + 3] := v / 0x20_0000;
      n := 4;
    } else if zeros <= 17 {
      Leb3(v);
      buf[at] := ContinueByte(v);
      buf[at + 1] := ContinueByte(v / 0x80);
      buf[at + 2] := v / 0x4000;
      n := 3;
    } else if zeros <= 24 {
      Leb2(v);
      buf[at] := ContinueByte(v);
      buf[at + 1] := v / 0x80;
      n := 2;
    } else {
      buf[at] := v;
      n := 1;
    }
  }

  // The recursion of Leb128 written out for the five possible lengths.

  lemma {:induction false} DivDiv(u: UInt32)
    ensures u / 128 / 0x80 == u / 0x4000
    ensures u / 128 / 0x4000 == u / 0x20_0000
    ensures u / 128 / 0x20_0000 == u / 0x1000_0000
  {
  }

  lemma {:induction false} Leb2(u: UInt32)
    requires 0x80 <= u < 0x4000
    ensures Leb128(u) == [128 + u % 128, u / 0x80]
  {
  }

  lemma {:induction false} Leb3(u: UInt32)
    requires 0x4000 <= u < 0x20_0000
    ensures Leb128(u) == [128 + u % 128, 128 + u / 0x80 % 128, u / 0x4000]
  {
    DivDiv(u);
    Leb2(u / 128);
  }

  lemma {:induction false} Leb4(u: UInt32)
    requires 0x20_0000 <= u < 0x1000_0000
    ensures Leb128(u) == [128 + u % 128, 128 + u / 0x80 % 128, 128 + u / 0x4000 % 128, u / 0x20_0000]
  {
    DivDiv(u);
    Leb3(u / 128);
  }

  lemma {:induction false} Leb5(u: UInt32)
    requires 0x1000_0000 <= u
    ensures Leb128(u) ==
      [128 + u % 128, 128 + u / 0x80 % 128, 128 + u / 0x4000 % 128, 128 + u / 0x20_0000 % 128, u / 0x1000_0000]
  {
    DivDiv(u);
    Leb4(u / 128);
  }

  // ---- The loop ----

  /** deserializeVarInt: a do-while loop that ors seven bits at a time into 32. */
  method DeserializeVarInt(b: Bytes) returns (r: Parse<Int32>)
    ensures r == ParseVarInt(b)
  {
    var result: UInt32 := 0;
    var count: nat := 0;
    ghost var raw: nat := 0;
    var more := true;
    assert b[0..] == b;
    while more
      invariant count <= 5 && count <= |b|
      invariant result == raw % TWO32 && raw < Shl(1, 7 * count)
      invariant more ==> TakeVarInt(b, 5) == Continue(raw, count, TakeVarInt(b[count..], 5 - count))
      invariant !more ==> TakeVarInt(b, 5) == Ok(raw, b[count..])
      decreases more, 5 - count
    {
      if count == VARINT32_MAX_LENGTH {
        return Invalid;
      }
      if count >= |b| {
        return Incomplete;
      }
      var tmp := b[count];
      LoopStep(b, raw, count);
      var septet := Shl(tmp % 128, 7 * count) % 0x1_0000_0000;
      OrSeptet(raw, tmp % 128, count, result, septet);
      result := Or(result, septet);
      raw := raw + Shl(tmp % 128, 7 * count);
      count := count + 1;
      more := tmp >= 128;
    }
    r := Ok(ToInt32(result), b[count..]);
  }

  /** The whole parse, given the part already read and the parse of what is left. */
  function Continue(raw: nat, count: nat, tail: Parse<nat>): Parse<nat> {
    match tail
    case Ok(v, rest) => Ok(raw + Shl(v, 7 * count), rest)
    case Incomplete => Incomplete
    case Invalid => Invalid
  }

  lemma {:induction false} StepSeptet(raw: nat, tmp: Byte, count: nat, tail: Parse<nat>)
    requires raw < Shl(1, 7 * count)
    ensures raw + Shl(tmp % 128, 7 * count) < Shl(1, 7 * (count + 1))
    ensures tail.Ok? ==>
      Continue(raw, count, Ok(tmp % 128 + 128 * tail.value, tail.rest))
      == Continue(raw + Shl(tmp % 128, 7 * count), count + 1, tail)
  {
    var k := 7 * count;
    ShlBy7(1, k);
    ShlAdd(1, tmp % 128, k);
    ShlMonotone(1 + tmp % 128, 128, k);
    if tail.Ok? {
      ShlAdd(tmp % 128, 128 * tail.value, k);
      ShlBy7(tail.value, k);
    }
  }

  lemma {:induction false} LoopStep(b: Bytes, raw: nat, count: nat)
    requires count < 5 && count < |b| && raw < Shl(1, 7 * count)
    ensures raw + Shl(b[count] % 128, 7 * count) < Shl(1, 7 * (count + 1))
    ensures Continue(raw, count, TakeVarInt(b[count..], 5 - count))
         == if b[count] < 128 then Ok(raw + Shl(b[count] % 128, 7 * count), b[count + 1..])
            else Continue(raw + Shl(b[count] % 128, 7 * count), count + 1, TakeVarInt(b[count + 1..], 4 - count))
  {
    assert b[count..][1..] == b[count + 1..];
    StepSeptet(raw, b[count], count, TakeVarInt(b[count + 1..], 4 - count));
  }

  lemma {:induction false} ShlBy7(n: nat, k: nat)
    ensures Shl(128 * n, k) == Shl(n, k + 7)
  {
    ShlShl(n, 7, k);
    Shl7(n);
  }

  /** The or of the shifted septet, truncated to 32 bits, adds it modulo 2^32. */
  lemma {:induction false} OrSeptet(raw: nat, t: nat, count: nat, result: nat, septet: nat)
    requires count < 5 && raw < Shl(1, 7 * count) && t < 128
    requires result == raw % TWO32 && septet == Shl(t, 7 * count) % TWO32
    ensures Or(result, septet) == (raw + Shl(t, 7 * count)) % TWO32
  {
    var kept := SeptetTruncated(raw, t, count);
    OrDisjoint(raw, kept, 7 * count);
  }

  lemma {:induction false} SeptetTruncated(raw: nat, t: nat, count: nat) returns (kept: nat)
    requires count < 5 && raw < Shl(1, 7 * count) && t < 128
    ensures raw % TWO32 == raw && Shl(t, 7 * count) % TWO32 == Shl(kept, 7 * count)
    ensures (raw + Shl(t, 7 * count)) % TWO32 == raw + Shl(kept, 7 * count)
  {
    RawFits(raw, count);
    if count < 4 {
      kept := t;
      SeptetFits(raw, t, count);
    } else {
      kept := t % 16;
      LastSeptetSum(raw, t);
    }
  }

  lemma {:induction false} LastSeptetSum(raw: nat, t: nat)
    requires raw < 0x1000_0000 && t < 128
    ensures raw < Shl(1, 28)
    ensures Shl(t, 28) % TWO32 == Shl(t % 16, 28)
    ensures (raw + Shl(t, 28)) % TWO32 == raw + Shl(t % 16, 28)
  {
    Shl28(1);
    Shl28(t);
    Shl28(t % 16);
    TopSeptet(t);
  }

  /** Shifting the fifth septet into place loses its upper three bits. */
  lemma {:induction false} TopSeptet(t: nat)
    ensures 0x1000_0000 * t % 0x1_0000_0000 == 0x1000_0000 * (t % 16)
  {
    WholeWords(t / 16, t % 16);
  }

  lemma {:induction false} WholeWords(words: nat, top: nat)
    requires top < 16
    ensures 0x1000_0000 * (16 * words + top) % 0x1_0000_0000 == 0x1000_0000 * top
  {
    assert 0x1000_0000 * (16 * words + top) == 0x1_0000_0000 * words + 0x1000_0000 * top;
  }

  lemma {:induction false} SeptetFits(raw: nat, t: nat, count: nat)
    requires count < 4 && raw < Shl(1, 7 * count) && t < 128
    ensures raw + Shl(t, 7 * count) < 0x1000_0000
  {
    StepSeptet(raw, t, count, Invalid);
    RawFits(raw + Shl(t, 7 * count), count + 1);
  }

  lemma {:induction false} RawFits(raw: nat, count: nat)
    requires count < 5 && raw < Shl(1, 7 * count)
    ensures raw < 0x1000_0000
  {
    Shl7(1);
    Shl14(1);
    Shl21(1);
    Shl28(1);
  }
}
