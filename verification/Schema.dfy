/** The packet schema language of source/proxyd/packets.def and the two readings that
    source/proxyd/packets.hpp gives it: a serializer and a deserializer. */
module Schema {
  import opened Numbers
  import opened VarInt
  import opened Buffers
  import opened NbtTree
  import opened Metadata

  /** One PACKET_FIELD_ macro. Floats are carried as bit patterns. An array's element has a
      single field, as every array of the table does; the serializer's macro puts only the
      first statement of an element under its loop. */
  datatype Field =
    | FBool
    | FInt(width: nat)
    | FUInt(width: nat)
    | FFloat(width: nat)
    | FVarInt
    | FString
    | FTailBytes
    | FNbt
    | FUuid
    | FVarBytes
    | FMetadata
    | FArray(elem: Field)

  datatype Value =
    | BoolV(flag: bool)
    | IntV(n: int)
    | BytesV(bytes: Bytes)
    | NbtV(tag: Nbt)
    | MetaV(meta: seq<Entry>)
    | ArrayV(elems: seq<Value>)

  /** What the C++ type of a field admits, with lengths that fit Int32. */
  predicate Fits(f: Field, v: Value) {
    match f
    case FBool => v.BoolV?
    case FInt(w) => v.IntV? && InRange(v.n, w, true)
    case FUInt(w) => v.IntV? && InRange(v.n, w, false)
    case FFloat(w) => v.IntV? && InRange(v.n, w, false)
    case FVarInt => v.IntV? && -0x8000_0000 <= v.n < 0x8000_0000
    case FString => v.BytesV? && |v.bytes| < 0x8000_0000
    case FTailBytes => v.BytesV?
    case FNbt => v.NbtV? && Typed(v.tag) && Short(v.tag)
    case FUuid => v.BytesV? && |v.bytes| == 16
    case FVarBytes => v.BytesV? && |v.bytes| < 0x8000_0000
    case FMetadata => v.MetaV? && NoTerminator(v.meta)
    case FArray(e) => v.ArrayV? && |v.elems| < 0x8000_0000 && forall x :: x in v.elems ==> Fits(e, x)
  }

  predicate FitAll(fs: seq<Field>, vs: seq<Value>) {
    |fs| == |vs| && forall i :: 0 <= i < |fs| ==> Fits(fs[i], vs[i])
  }

  /** Widths exist, and an array's elements have an end of their own. */
  predicate GoodField(f: Field) {
    match f
    case FInt(w) => IsWidth(w)
    case FUInt(w) => IsWidth(w)
    case FFloat(w) => w == 4 || w == 8
    case FArray(e) => e != FTailBytes && GoodField(e)
    case _ => true
  }

  predicate AllGood(fs: seq<Field>) {
    forall i :: 0 <= i < |fs| ==> GoodField(fs[i])
  }

  /** Bytes that extend to the end of the payload come last. */
  predicate WellFormed(fs: seq<Field>) {
    forall i :: 0 <= i < |fs| ==> GoodField(fs[i]) && (fs[i] == FTailBytes ==> i == |fs| - 1)
  }

  // ---- The serializer's output ----

  function Reverse(b: Bytes): (r: Bytes)
    ensures |r| == |b|
  {
    if b == [] then [] else Reverse(b[1..]) + [b[0]]
  }

  function FieldBytes(f: Field, v: Value): Bytes
    requires GoodField(f) && Fits(f, v)
    decreases f, 0, 0
  {
    match f
    case FBool => [if v.flag then 1 else 0]
    case FInt(w) => IntBytes(v.n, w)
    case FUInt(w) => IntBytes(v.n, w)
    case FFloat(w) => IntBytes(v.n, w)
    case FVarInt => VarIntBytes(v.n)
    case FString => VarIntBytes(|v.bytes|) + v.bytes
    case FTailBytes => v.bytes
    case FNbt => TagBytes(v.tag)
    case FUuid => Reverse(v.bytes)
    case FVarBytes => VarIntBytes(|v.bytes|) + v.bytes
    case FMetadata => MetadataBytes(v.meta)
    case FArray(e) => VarIntBytes(|v.elems|) + ElemsBytes(e, v.elems)
  }

  function ElemsBytes(e: Field, vs: seq<Value>): Bytes
    requires GoodField(e) && forall x :: x in vs ==> Fits(e, x)
    decreases e, 1, |vs|
  {
    if vs == [] then [] else FieldBytes(e, vs[0]) + ElemsBytes(e, vs[1..])
  }

  function PayloadBytes(fs: seq<Field>, vs: seq<Value>): Bytes
    requires AllGood(fs) && FitAll(fs, vs)
  {
    if fs == [] then [] else FieldBytes(fs[0], vs[0]) + PayloadBytes(fs[1..], vs[1..])
  }

  // ---- The deserializer ----

  function ParseUuid(b: Bytes): (r: Parse<Bytes>)
    ensures r.Ok? ==> |r.value| == 16 && |r.rest| + 16 == |b|
  {
    if |b| < 16 then Incomplete else Ok(Reverse(b[..16]), b[16..])
  }

  /** What one field macro reads. On NBT and metadata the source throws; the reference readers
      stand in for the client's. */
  function ParseField(f: Field, b: Bytes): (r: Parse<Value>)
    requires GoodField(f)
    ensures r.Ok? && f != FTailBytes ==> |r.rest| < |b|
    decreases f, 0, 0
  {
    match f
    case FBool => (
      match ParseFixed(b, 1)
      case Ok(n, rest) => if n > 1 then Invalid else Ok(BoolV(n == 1), rest)
      case Incomplete => Incomplete
      case Invalid => Invalid)
    case FInt(w) => ParseInt(b, w, true)
    case FUInt(w) => ParseInt(b, w, false)
    case FFloat(w) => ParseInt(b, w, false)
    case FVarInt => (
      ParseVarIntMeaning(b);
      match ParseVarInt(b)
      case Ok(n, rest) => Ok(IntV(n), rest)
      case Incomplete => Incomplete
      case Invalid => Invalid)
    case FString => ParseCounted(b, Invalid)
    case FTailBytes => Ok(BytesV(b), [])
    case FNbt => (
      match ParseTag(b)
      case Ok(t, rest) => if Typed(t) && Short(t) then Ok(NbtV(t), rest) else Invalid
      case Incomplete => Incomplete
      case Invalid => Invalid)
    case FUuid => (
      match ParseUuid(b)
      case Ok(u, rest) => Ok(BytesV(u), rest)
      case Incomplete => Incomplete
      case Invalid => Invalid)
    case FVarBytes => ParseCounted(b, Incomplete)
    case FMetadata => (
      match ParseMetadata(b)
      case Ok(m, rest) => Ok(MetaV(m), rest)
      case Incomplete => Incomplete
      case Invalid => Invalid)
    case FArray(e) => (
      ParseVarIntMeaning(b);
      match ParseVarInt(b)
      case Ok(n, rest) => (
        match ParseElems(e, n, rest)
        case Ok(vs, rest') => Ok(ArrayV(vs), rest')
        case Incomplete => Incomplete
        case Invalid => Invalid)
      case Incomplete => Incomplete
      case Invalid => Invalid)
  }

  function ParseInt(b: Bytes, width: nat, signed: bool): (r: Parse<Value>)
    requires IsWidth(width)
    ensures r.Ok? ==> |r.rest| < |b|
  {
    RangeIs(width);
    match ParseFixed(b, width)
    case Ok(p, rest) => Ok(IntV(FromPattern(p, width, signed)), rest)
    case Incomplete => Incomplete
    case Invalid => Invalid
  }

  /** A VarInt length and that many bytes. A negative length is rejected as such for a string,
      and turns into an unsatisfiable unsigned size for VARBYTES. */
  function ParseCounted(b: Bytes, negative: Parse<Value>): (r: Parse<Value>)
    requires !negative.Ok?
    ensures r.Ok? ==> |r.rest| < |b|
  {
    ParseVarIntMeaning(b);
    match ParseVarInt(b)
    case Ok(n, rest) => (
      if n < 0 then negative
      else match ParseBlock(rest, n)
        case Ok(bytes, rest') => Ok(BytesV(bytes), rest')
        case Incomplete => Incomplete
        case Invalid => Invalid)
    case Incomplete => Incomplete
    case Invalid => Invalid
  }

  /** `while(length--)`: a count below zero never gets to zero, so only running out of bytes
      ends its loop. */
  function ParseElems(e: Field, count: int, b: Bytes): (r: Parse<seq<Value>>)
    requires GoodField(e) && e != FTailBytes
    ensures r.Ok? ==> |r.rest| <= |b| && |r.value| == count
    decreases e, 1, |b|
  {
    if count == 0 then Ok([], b)
    else match ParseField(e, b)
      case Ok(v, rest) => (
        match ParseElems(e, count - 1, rest)
        case Ok(vs, rest') => Ok([v] + vs, rest')
        case Incomplete => Incomplete
        case Invalid => Invalid)
      case Incomplete => Incomplete
      case Invalid => Invalid
  }

  /** The whole payload; false, here None, unless every byte was used. */
  function ParsePayload(fs: seq<Field>, b: Bytes): Option<seq<Value>>
    requires AllGood(fs)
  {
    if fs == [] then
      if b == [] then Some([]) else None
    else match ParseField(fs[0], b)
      case Ok(v, rest) => (
        match ParsePayload(fs[1..], rest)
        case Some(vs) => Some([v] + vs)
        case None => None)
      case _ => None
  }

  // ---- Round trips ----

  lemma {:induction false} ReverseSnoc(b: Bytes, x: Byte)
    ensures Reverse(b + [x]) == [x] + Reverse(b)
  {
    if b == [] {
      assert ([] + [x])[1..] == [];
    } else {
      assert (b + [x])[1..] == b[1..] + [x];
      ReverseSnoc(b[1..], x);
    }
  }

  lemma {:induction false} ReverseTwice(b: Bytes)
    ensures Reverse(Reverse(b)) == b
  {
    if b != [] {
      ReverseTwice(b[1..]);
      ReverseSnoc(Reverse(b[1..]), b[0]);
    }
  }

  lemma {:induction false} IntBack(n: int, width: nat, signed: bool, more: Bytes)
    requires IsWidth(width) && InRange(n, width, signed)
    ensures ParseInt(IntBytes(n, width) + more, width, signed) == Ok(IntV(n), more)
  {
    RangeIs(width);
    ParseFixedBack(Pattern(n, width), width, more);
  }

  lemma {:induction false} CountedBack(bytes: Bytes, negative: Parse<Value>, more: Bytes)
    requires |bytes| < 0x8000_0000 && !negative.Ok?
    ensures ParseCounted(VarIntBytes(|bytes|) + bytes + more, negative) == Ok(BytesV(bytes), more)
  {
    Regroup(VarIntBytes(|bytes|), bytes, more);
    VarIntRoundTrip(|bytes|, bytes + more);
    ParseBlockBack(bytes, more);
  }

  lemma {:induction false} BoolBack(flag: bool, more: Bytes)
    ensures ParseField(FBool, FieldBytes(FBool, BoolV(flag)) + more) == Ok(BoolV(flag), more)
  {
    var n := if flag then 1 else 0;
    OneByte(n);
    RangeIs(1);
    ParseFixedBack(n, 1, more);
  }

  lemma {:induction false} UuidBack(bytes: Bytes, more: Bytes)
    requires |bytes| == 16
    ensures ParseUuid(Reverse(bytes) + more) == Ok(bytes, more)
  {
    ReverseTwice(bytes);
    assert (Reverse(bytes) + more)[..16] == Reverse(bytes);
  }

  /** Every field but the tail bytes reads back its own bytes and stops there. */
  lemma {:induction false} FieldBack(f: Field, v: Value, more: Bytes)
    requires GoodField(f) && Fits(f, v) && f != FTailBytes
    ensures ParseField(f, FieldBytes(f, v) + more) == Ok(v, more)
    decreases f, 0, 0
  {
    match f
    case FBool => BoolBack(v.flag, more);
    case FInt(w) => IntBack(v.n, w, true, more);
    case FUInt(w) => IntBack(v.n, w, false, more);
    case FFloat(w) => IntBack(v.n, w, false, more);
    case FVarInt => VarIntRoundTrip(v.n, more);
    case FString => CountedBack(v.bytes, Invalid, more);
    case FNbt => TagBack(v.tag, more);
    case FUuid => UuidBack(v.bytes, more);
    case FVarBytes => CountedBack(v.bytes, Incomplete, more);
    case FMetadata => MetadataBack(v.meta, more);
    case FArray(e) =>
      Regroup(VarIntBytes(|v.elems|), ElemsBytes(e, v.elems), more);
      VarIntRoundTrip(|v.elems|, ElemsBytes(e, v.elems) + more);
      ElemsBack(e, v.elems, more);
  }

  lemma {:induction false} ElemsBack(e: Field, vs: seq<Value>, more: Bytes)
    requires GoodField(e) && e != FTailBytes && forall x :: x in vs ==> Fits(e, x)
    ensures ParseElems(e, |vs|, ElemsBytes(e, vs) + more) == Ok(vs, more)
    decreases e, 1, |vs|
  {
    if vs == [] {
      assert ElemsBytes(e, vs) + more == more;
    } else {
      var tail := ElemsBytes(e, vs[1..]) + more;
      assert ElemsBytes(e, vs) + more == FieldBytes(e, vs[0]) + tail by {
        Regroup(FieldBytes(e, vs[0]), ElemsBytes(e, vs[1..]), more);
      }
      FieldBack(e, vs[0], tail);
      ElemsBack(e, vs[1..], more);
      ReadCons(e, vs, ElemsBytes(e, vs) + more, tail, more);
    }
  }

  lemma {:induction false} ReadCons(e: Field, vs: seq<Value>, b: Bytes, tail: Bytes, more: Bytes)
    requires GoodField(e) && e != FTailBytes && vs != []
    requires ParseField(e, b) == Ok(vs[0], tail) && ParseElems(e, |vs| - 1, tail) == Ok(vs[1..], more)
    ensures ParseElems(e, |vs|, b) == Ok(vs, more)
  {
    assert [vs[0]] + vs[1..] == vs;
  }

  lemma {:induction false} WellFormedTail(fs: seq<Field>)
    requires WellFormed(fs) && fs != []
    ensures WellFormed(fs[1..]) && (fs[0] == FTailBytes ==> |fs| == 1)
  {
    assert fs[0] == FTailBytes ==> 0 == |fs| - 1;
    forall i | 0 <= i < |fs[1..]|
      ensures GoodField(fs[1..][i]) && (fs[1..][i] == FTailBytes ==> i == |fs[1..]| - 1)
    {
      assert fs[1..][i] == fs[i + 1];
    }
  }

  /** For every well-formed schema and every value of it, deserializing what serializing
      produced succeeds, uses every byte, and returns the value. */
  lemma {:induction false} PayloadRoundTrip(fs: seq<Field>, vs: seq<Value>)
    requires WellFormed(fs) && FitAll(fs, vs)
    ensures ParsePayload(fs, PayloadBytes(fs, vs)) == Some(vs)
  {
    if fs != [] {
      WellFormedTail(fs);
      PayloadRoundTrip(fs[1..], vs[1..]);
      assert [vs[0]] + vs[1..] == vs;
      if fs[0] == FTailBytes {
        assert fs[1..] == [];
        assert PayloadBytes(fs, vs) == vs[0].bytes;
      } else {
        FieldBack(fs[0], vs[0], PayloadBytes(fs[1..], vs[1..]));
      }
    }
  }

  // ---- What a successful parse returns ----

  lemma {:induction false} ParsedFits(f: Field, b: Bytes)
    requires GoodField(f)
    ensures var r := ParseField(f, b); r.Ok? ==> Fits(f, r.value)
    decreases f, 0, 0
  {
    match f
    case FMetadata => ReadHasNoTerminator(b);
    case FArray(e) =>
      if ParseVarInt(b).Ok? {
        ParsedElemsFit(e, ParseVarInt(b).value, ParseVarInt(b).rest);
      }
    case _ =>
  }

  lemma {:induction false} ParsedElemsFit(e: Field, count: int, b: Bytes)
    requires GoodField(e) && e != FTailBytes
    ensures var r := ParseElems(e, count, b); r.Ok? ==> forall x :: x in r.value ==> Fits(e, x)
    decreases e, 1, |b|
  {
    if count != 0 {
      ParsedFits(e, b);
      if ParseField(e, b).Ok? {
        ParsedElemsFit(e, count - 1, ParseField(e, b).rest);
      }
    }
  }

  lemma {:induction false} ParsedPayloadFits(fs: seq<Field>, b: Bytes)
    requires AllGood(fs)
    ensures match ParsePayload(fs, b)
            case Some(vs) => FitAll(fs, vs)
            case None => true
  {
    if fs != [] {
      ParsedFits(fs[0], b);
      if ParseField(fs[0], b).Ok? {
        ParsedPayloadFits(fs[1..], ParseField(fs[0], b).rest);
      }
    }
  }

  /** Whatever bytes were accepted, even with VarInts longer than necessary, serializing the
      result and parsing again gives the same result. */
  lemma {:induction false} Reparse(fs: seq<Field>, b: Bytes)
    requires WellFormed(fs)
    ensures match ParsePayload(fs, b)
            case Some(vs) => FitAll(fs, vs) && ParsePayload(fs, PayloadBytes(fs, vs)) == Some(vs)
            case None => true
  {
    ParsedPayloadFits(fs, b);
    match ParsePayload(fs, b)
    case Some(vs) => PayloadRoundTrip(fs, vs);
    case None =>
  }

  /** How often the array loop runs its body. */
  function Rounds(e: Field, count: int, b: Bytes): nat
    requires GoodField(e) && e != FTailBytes
    decreases |b|
  {
    if count == 0 then 0
    else match ParseField(e, b)
      case Ok(_, rest) => 1 + Rounds(e, count - 1, rest)
      case _ => 1
  }

  /** A negative count makes the array fail, after at most one round more than there are
      bytes, because every element takes at least one. */
  lemma {:induction false} NegativeCountFails(e: Field, count: int, b: Bytes)
    requires GoodField(e) && e != FTailBytes && count < 0
    ensures !ParseElems(e, count, b).Ok? && Rounds(e, count, b) <= |b| + 1
    decreases |b|
  {
    match ParseField(e, b)
    case Ok(_, rest) => NegativeCountFails(e, count - 1, rest);
    case _ =>
  }

  // ---- The deserializer's loops ----

  /** The fields the source has a reader for; deserializeNbt and deserializeEntityMetadata
      only throw. */
  predicate HasReader(f: Field) {
    match f
    case FNbt => false
    case FMetadata => false
    case FArray(e) => HasReader(e)
    case _ => true
  }

  function Before(elems: seq<Value>, tail: Parse<seq<Value>>): Parse<seq<Value>> {
    match tail
    case Ok(vs, rest) => Ok(elems + vs, rest)
    case Incomplete => Incomplete
    case Invalid => Invalid
  }

  /** One field macro of deserializePacketPayload. */
  method DeserializeField(f: Field, b: Bytes) returns (r: Parse<Value>)
    requires GoodField(f) && HasReader(f)
    ensures r == ParseField(f, b)
    decreases f, 0
  {
    match f
    case FVarInt =>
      var n := DeserializeVarInt(b);
      match n {
        case Ok(value, rest) => r := Ok(IntV(value), rest);
        case Incomplete => r := Incomplete;
        case Invalid => r := Invalid;
      }
    case FString =>
      r := DeserializeCounted(b, Invalid);
    case FVarBytes =>
      r := DeserializeCounted(b, Incomplete);
    case FArray(e) =>
      var n := DeserializeVarInt(b);
      match n {
        case Ok(length, rest) =>
          var elems := DeserializeElems(e, length, rest);
          match elems {
            case Ok(vs, rest') => r := Ok(ArrayV(vs), rest');
            case Incomplete => r := Incomplete;
            case Invalid => r := Invalid;
          }
        case Incomplete => r := Incomplete;
        case Invalid => r := Invalid;
      }
    case FBool => r := ParseField(f, b);
    case FInt(w) => r := ParseInt(b, w, true);
    case FUInt(w) => r := ParseInt(b, w, false);
    case FFloat(w) => r := ParseInt(b, w, false);
    case FTailBytes => r := Ok(BytesV(b), []);
    case FUuid => r := ParseField(f, b);
    case FNbt => assert false;
    case FMetadata => assert false;
  }

  method DeserializeCounted(b: Bytes, negative: Parse<Value>) returns (r: Parse<Value>)
    requires !negative.Ok?
    ensures r == ParseCounted(b, negative)
  {
    var n := DeserializeVarInt(b);
    match n {
      case Ok(length, rest) =>
        if length < 0 {
          return negative;
        }
        match ParseBlock(rest, length) {
          case Ok(bytes, rest') => r := Ok(BytesV(bytes), rest');
          case Incomplete => r := Incomplete;
          case Invalid => r := Invalid;
        }
      case Incomplete => r := Incomplete;
      case Invalid => r := Invalid;
    }
  }

  /** The loop of PACKET_FIELD_ARRAY. */
  method DeserializeElems(e: Field, length: Int32, b: Bytes) returns (r: Parse<seq<Value>>)
    requires GoodField(e) && HasReader(e) && e != FTailBytes
    ensures r == ParseElems(e, length, b)
    decreases e, 1
  {
    var left: int := length;
    var rest := b;
    var elems := [];
    BeforeNothing(ParseElems(e, length, b));
    while left != 0
      invariant ParseElems(e, length, b) == Before(elems, ParseElems(e, left, rest))
      decreases |rest|
    {
      ElemsStep(elems, e, left, rest);
      var fields := DeserializeField(e, rest);
      if !fields.Ok? {
        return if fields.Incomplete? then Incomplete else Invalid;
      }
      elems := elems + [fields.value];
      rest := fields.rest;
      left := left - 1;
    }
    assert elems + [] == elems;
    r := Ok(elems, rest);
  }

  lemma {:induction false} ElemsStep(elems: seq<Value>, e: Field, left: int, rest: Bytes)
    requires GoodField(e) && e != FTailBytes && left != 0
    ensures match ParseField(e, rest)
            case Ok(v, rest') =>
              Before(elems, ParseElems(e, left, rest)) == Before(elems + [v], ParseElems(e, left - 1, rest'))
            case Incomplete => ParseElems(e, left, rest) == Incomplete
            case Invalid => ParseElems(e, left, rest) == Invalid
  {
    match ParseField(e, rest)
    case Ok(v, rest') =>
      AppendElem(elems, v, ParseElems(e, left - 1, rest'));
      assert ParseElems(e, left, rest) == Before([v], ParseElems(e, left - 1, rest'));
    case _ =>
  }

  lemma {:induction false} BeforeNothing(tail: Parse<seq<Value>>)
    ensures Before([], tail) == tail
  {
    if tail.Ok? {
      assert [] + tail.value == tail.value;
    }
  }

  lemma {:induction false} AppendElem(elems: seq<Value>, v: Value, tail: Parse<seq<Value>>)
    ensures Before(elems, Before([v], tail)) == Before(elems + [v], tail)
  {
    if tail.Ok? {
      assert elems + ([v] + tail.value) == elems + [v] + tail.value;
    }
  }

  /** deserializePacketPayload: the macros in order, then `return size == 0`. */
  method DeserializePacketPayload(fs: seq<Field>, b: Bytes) returns (ok: bool, out: seq<Value>)
    requires AllGood(fs) && forall i :: 0 <= i < |fs| ==> HasReader(fs[i])
    ensures (if ok then Some(out) else None) == ParsePayload(fs, b)
  {
    var rest := b;
    out := [];
    var i := 0;
    AfterNothing(ParsePayload(fs, b));
    assert fs[0..] == fs;
    while i < |fs|
      invariant 0 <= i <= |fs|
      invariant ParsePayload(fs, b) == After(out, ParsePayload(fs[i..], rest))
    {
      assert fs[i..][0] == fs[i] && fs[i..][1..] == fs[i + 1..];
      var r := DeserializeField(fs[i], rest);
      if !r.Ok? {
        return false, out;
      }
      AppendValue(out, r.value, ParsePayload(fs[i + 1..], r.rest));
      out := out + [r.value];
      rest := r.rest;
      i := i + 1;
    }
    assert out + [] == out;
    ok := rest == [];
  }

  function After(out: seq<Value>, tail: Option<seq<Value>>): Option<seq<Value>> {
    match tail
    case Some(vs) => Some(out + vs)
    case None => None
  }

  lemma {:induction false} AfterNothing(tail: Option<seq<Value>>)
    ensures After([], tail) == tail
  {
    if tail.Some? {
      assert [] + tail.value == tail.value;
    }
  }

  lemma {:induction false} AppendValue(out: seq<Value>, v: Value, tail: Option<seq<Value>>)
    ensures After(out, After([v], tail)) == After(out + [v], tail)
  {
    if tail.Some? {
      assert out + ([v] + tail.value) == out + [v] + tail.value;
    }
  }

  // ---- The serializer's loops ----

  function FromLittleEndian(b: Bytes): nat {
    if b == [] then 0 else b[0] + 256 * FromLittleEndian(b[1..])
  }

  /** Reading a word in memory order and writing it big-endian turns its bytes around. */
  lemma {:induction false} SwapIsReverse(b: Bytes)
    ensures FromLittleEndian(b) < Pow256(|b|) && BigEndian(FromLittleEndian(b), |b|) == Reverse(b)
  {
    if b != [] {
      SwapIsReverse(b[1..]);
      LowDigit(b[0], FromLittleEndian(b[1..]));
    }
  }

  lemma {:induction false} LowDigit(low: Byte, high: nat)
    ensures (low + 256 * high) / 256 == high && (low + 256 * high) % 256 == low
  {
  }

  lemma {:induction false} ReverseConcat(a: Bytes, b: Bytes)
    ensures Reverse(a + b) == Reverse(b) + Reverse(a)
  {
    if a == [] {
      assert a + b == b;
    } else {
      assert (a + b)[1..] == a[1..] + b;
      ReverseConcat(a[1..], b);
    }
  }

  /** serializeUuid: the second half of the bytes, then the first, each as one 64-bit integer. */
  method SerializeUuid(buffer: Buffer, uuid: Bytes)
    requires |uuid| == 16
    modifies buffer
    ensures buffer.data == old(buffer.data) + Reverse(uuid)
  {
    var lo := FromLittleEndian(uuid[..8]);
    var hi := FromLittleEndian(uuid[8..]);
    SwapWord(uuid[..8]);
    SwapWord(uuid[8..]);
    SerializeInt(buffer, hi, 8);
    SerializeInt(buffer, lo, 8);
    ReverseConcat(uuid[..8], uuid[8..]);
    assert uuid == uuid[..8] + uuid[8..];
    Regroup(old(buffer.data), Reverse(uuid[8..]), Reverse(uuid[..8]));
  }

  lemma {:induction false} SwapWord(b: Bytes)
    requires |b| == 8
    ensures InRange(FromLittleEndian(b), 8, false) && IntBytes(FromLittleEndian(b), 8) == Reverse(b)
  {
    RangeIs(8);
    SwapIsReverse(b);
  }

  /** One field macro of serializePacketPayload. */
  method SerializeField(buffer: Buffer, f: Field, v: Value)
    requires GoodField(f) && Fits(f, v)
    modifies buffer
    ensures buffer.data == old(buffer.data) + FieldBytes(f, v)
    decreases f, 0
  {
    match f
    case FBool =>
      SerializeInt(buffer, if v.flag then 1 else 0, 1);
      OneByte(if v.flag then 1 else 0);
    case FInt(w) => SerializeInt(buffer, v.n, w);
    case FUInt(w) => SerializeInt(buffer, v.n, w);
    case FFloat(w) => SerializeInt(buffer, v.n, w);
    case FVarInt => SerializeVarInt(buffer, v.n);
    case FString => SerializeString(buffer, v.bytes);
    case FTailBytes => buffer.Write(v.bytes);
    case FNbt => SerializeNbt(buffer, v.tag);
    case FUuid => SerializeUuid(buffer, v.bytes);
    case FVarBytes => SerializeString(buffer, v.bytes);
    case FMetadata => SerializeEntityMetadata(buffer, v.meta);
    case FArray(e) =>
      SerializeVarInt(buffer, |v.elems|);
      SerializeElems(buffer, e, v.elems);
  }

  method SerializeElems(buffer: Buffer, e: Field, vs: seq<Value>)
    requires GoodField(e) && forall x :: x in vs ==> Fits(e, x)
    modifies buffer
    ensures buffer.data == old(buffer.data) + ElemsBytes(e, vs)
    decreases e, 1
  {
    var i := 0;
    while i < |vs|
      invariant 0 <= i <= |vs|
      invariant buffer.data + ElemsBytes(e, vs[i..]) == old(buffer.data) + ElemsBytes(e, vs)
    {
      assert vs[i..][1..] == vs[i + 1..];
      Regroup(buffer.data, FieldBytes(e, vs[i]), ElemsBytes(e, vs[i + 1..]));
      SerializeField(buffer, e, vs[i]);
      i := i + 1;
    }
  }

  /** serializePacketPayload: the macros in order. */
  method SerializePacketPayload(buffer: Buffer, fs: seq<Field>, vs: seq<Value>)
    requires AllGood(fs) && FitAll(fs, vs)
    modifies buffer
    ensures buffer.data == old(buffer.data) + PayloadBytes(fs, vs)
  {
    var i := 0;
    while i < |fs|
      invariant 0 <= i <= |fs|
      invariant FitAll(fs[i..], vs[i..])
      invariant buffer.data + PayloadBytes(fs[i..], vs[i..]) == old(buffer.data) + PayloadBytes(fs, vs)
    {
      assert fs[i..][1..] == fs[i + 1..] && vs[i..][1..] == vs[i + 1..];
      Regroup(buffer.data, FieldBytes(fs[i], vs[i]), PayloadBytes(fs[i + 1..], vs[i + 1..]));
      SerializeField(buffer, fs[i], vs[i]);
      i := i + 1;
    }
  }
}
