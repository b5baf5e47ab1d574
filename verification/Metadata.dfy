/** The 0xff-terminated entity metadata list of source/proxyd/entitymetadata.hpp. The source
    only writes it; ParseMetadata is a reference reader for the writer's layout. */
module Metadata {
  import opened Numbers
  import opened VarInt
  import opened Buffers

  /** The value types the source can write; it throws on every other one. */
  datatype MetaValue =
    | ByteValue(byte: Byte)
    | VarIntValue(number: Int32)
    | FloatValue(bits: UInt32)
    | BoolValue(flag: bool)
    | PoseValue(pose: Int32)

  datatype Entry = Entry(index: Byte, value: MetaValue)

  function TypeNumber(v: MetaValue): Int32 {
    match v
    case ByteValue(_) => 0
    case VarIntValue(_) => 1
    case FloatValue(_) => 2
    case BoolValue(_) => 7
    case PoseValue(_) => 18
  }

  function MetaValueBytes(v: MetaValue): Bytes {
    match v
    case ByteValue(byte) => [byte]
    case VarIntValue(number) => VarIntBytes(number)
    case FloatValue(bits) => BigEndian(bits, 4)
    case BoolValue(flag) => [if flag then 1 else 0]
    case PoseValue(pose) => VarIntBytes(pose)
  }

  function EntryBytes(e: Entry): (b: Bytes)
    ensures b != [] && b[0] == e.index
  {
    [e.index] + (VarIntBytes(TypeNumber(e.value)) + MetaValueBytes(e.value))
  }

  function EntriesBytes(meta: seq<Entry>): Bytes {
    if meta == [] then [] else EntryBytes(meta[0]) + EntriesBytes(meta[1..])
  }

  function MetadataBytes(meta: seq<Entry>): Bytes {
    EntriesBytes(meta) + [0xff]
  }

  // ---- A reference reader ----

  function ParseMetaValue(kind: Int32, b: Bytes): (r: Parse<MetaValue>)
    ensures r.Ok? ==> |r.rest| < |b|
  {
    if b == [] then Invalid
    else if kind == 0 then Ok(ByteValue(b[0]), b[1..])
    else if kind == 1 || kind == 18 then
      ParseVarIntMeaning(b);
      match ParseVarInt(b)
      case Ok(n, rest) => Ok(if kind == 1 then VarIntValue(n) else PoseValue(n), rest)
      case _ => Invalid
    else if kind == 2 then
      RangeIs(4);
      match ParseFixed(b, 4)
      case Ok(n, rest) => Ok(FloatValue(n), rest)
      case _ => Invalid
    else if kind == 7 && b[0] <= 1 then Ok(BoolValue(b[0] == 1), b[1..])
    else Invalid
  }

  function ParseEntry(b: Bytes): (r: Parse<Entry>)
    ensures r.Ok? ==> |r.rest| < |b| && r.value.index == b[0]
  {
    if b == [] then Invalid
    else
      ParseVarIntMeaning(b[1..]);
      match ParseVarInt(b[1..])
      case Ok(kind, rest) => (
        match ParseMetaValue(kind, rest)
        case Ok(v, rest') => Ok(Entry(b[0], v), rest')
        case _ => Invalid)
      case _ => Invalid
  }

  function ParseMetadata(b: Bytes): (r: Parse<seq<Entry>>)
    ensures r.Ok? ==> |r.rest| < |b|
    decreases |b|
  {
    if b == [] then Invalid
    else if b[0] == 0xff then Ok([], b[1..])
    else match ParseEntry(b)
      case Ok(e, rest) => (
        match ParseMetadata(rest)
        case Ok(meta, rest') => Ok([e] + meta, rest')
        case _ => Invalid)
      case _ => Invalid
  }

  lemma {:induction false} MetaValueBack(v: MetaValue, more: Bytes)
    ensures ParseMetaValue(TypeNumber(v), MetaValueBytes(v) + more) == Ok(v, more)
  {
    match v
    case VarIntValue(number) =>
      VarIntRoundTrip(number, more);
    case PoseValue(pose) =>
      VarIntRoundTrip(pose, more);
    case FloatValue(bits) =>
      RangeIs(4);
      ParseFixedBack(bits, 4, more);
    case _ =>
      assert (MetaValueBytes(v) + more)[1..] == more;
  }

  /** No entry may use the terminator as its index. */
  predicate NoTerminator(meta: seq<Entry>) {
    forall e :: e in meta ==> e.index != 0xff
  }

  lemma {:induction false} EntryBack(e: Entry, more: Bytes)
    ensures ParseEntry(EntryBytes(e) + more) == Ok(e, more)
  {
    var kind := TypeNumber(e.value);
    var tail := MetaValueBytes(e.value) + more;
    assert (EntryBytes(e) + more)[1..] == VarIntBytes(kind) + tail;
    VarIntRoundTrip(kind, tail);
    MetaValueBack(e.value, more);
  }

  lemma {:induction false} MetadataBack(meta: seq<Entry>, more: Bytes)
    requires NoTerminator(meta)
    ensures ParseMetadata(MetadataBytes(meta) + more) == Ok(meta, more)
  {
    if meta == [] {
      assert ([0xff] + more)[1..] == more;
    } else {
      var tail := MetadataBytes(meta[1..]) + more;
      assert MetadataBytes(meta) + more == EntryBytes(meta[0]) + tail;
      EntryBack(meta[0], tail);
      MetadataBack(meta[1..], more);
      assert [meta[0]] + meta[1..] == meta;
    }
  }

  lemma {:induction false} ReadHasNoTerminator(b: Bytes)
    ensures var r := ParseMetadata(b); r.Ok? ==> NoTerminator(r.value)
    decreases |b|
  {
    if b != [] && b[0] != 0xff && ParseEntry(b).Ok? {
      ReadHasNoTerminator(ParseEntry(b).rest);
    }
  }

  /** A list comes back exactly when none of its indices is the terminator 0xff. */
  lemma {:induction false} MetadataBackExactly(meta: seq<Entry>, more: Bytes)
    ensures ParseMetadata(MetadataBytes(meta) + more) == Ok(meta, more) <==> NoTerminator(meta)
  {
    if NoTerminator(meta) {
      MetadataBack(meta, more);
    } else {
      ReadHasNoTerminator(MetadataBytes(meta) + more);
    }
  }

  // ---- The writer ----

  /** serializeEntityMetadata. */
  method SerializeEntityMetadata(buffer: Buffer, meta: seq<Entry>)
    modifies buffer
    ensures buffer.data == old(buffer.data) + MetadataBytes(meta)
  {
    var i := 0;
    assert meta[0..] == meta;
    while i < |meta|
      invariant 0 <= i <= |meta|
      invariant buffer.data + EntriesBytes(meta[i..]) == old(buffer.data) + EntriesBytes(meta)
    {
      EntriesFrom(meta, i);
      Regroup(buffer.data, EntryBytes(meta[i]), EntriesBytes(meta[i + 1..]));
      SerializeEntry(buffer, meta[i]);
      i := i + 1;
    }
    OneByte(0xff);
    assert buffer.data == old(buffer.data) + EntriesBytes(meta);
    SerializeInt(buffer, 0xff, 1);
  }

  lemma {:induction false} EntriesFrom(meta: seq<Entry>, i: nat)
    requires i < |meta|
    ensures EntriesBytes(meta[i..]) == EntryBytes(meta[i]) + EntriesBytes(meta[i + 1..])
  {
    assert meta[i..][1..] == meta[i + 1..];
  }

  method SerializeEntry(buffer: Buffer, e: Entry)
    modifies buffer
    ensures buffer.data == old(buffer.data) + EntryBytes(e)
  {
    SerializeInt(buffer, e.index, 1);
    OneByte(e.index);
    SerializeVarInt(buffer, TypeNumber(e.value));
    match e.value
    case ByteValue(byte) =>
      SerializeInt(buffer, byte, 1);
      OneByte(byte);
    case VarIntValue(number) =>
      SerializeVarInt(buffer, number);
    case FloatValue(bits) =>
      SerializeInt(buffer, bits, 4);
    case BoolValue(flag) =>
      SerializeInt(buffer, if flag then 1 else 0, 1);
      OneByte(if flag then 1 else 0);
    case PoseValue(pose) =>
      SerializeVarInt(buffer, pose);
  }
}
