/** The tree format of source/proxyd/nbt.hpp and source/proxyd/nbt.cpp. The source only
    writes it; ParseTag is a reference reader derived from the writer's layout. */
module NbtTree {
  import opened Numbers
  import opened VarInt
  import opened Buffers

  datatype NbtType =
    | BYTE | SHORT | INT | LONG | FLOAT | DOUBLE | BYTE_ARRAY | STRING | LIST | COMPOUND | INT_ARRAY | LONG_ARRAY

  function Code(t: NbtType): (c: Byte)
    ensures 1 <= c <= 12
  {
    match t
    case BYTE => 1
    case SHORT => 2
    case INT => 3
    case LONG => 4
    case FLOAT => 5
    case DOUBLE => 6
    case BYTE_ARRAY => 7
    case STRING => 8
    case LIST => 9
    case COMPOUND => 10
    case INT_ARRAY => 11
    case LONG_ARRAY => 12
  }

  function FromCode(c: Byte): (t: Option<NbtType>)
    ensures t.Some? ==> Code(t.value) == c
    ensures t.None? <==> c == 0 || c > 12
  {
    if c == 1 then Some(BYTE)
    else if c == 2 then Some(SHORT)
    else if c == 3 then Some(INT)
    else if c == 4 then Some(LONG)
    else if c == 5 then Some(FLOAT)
    else if c == 6 then Some(DOUBLE)
    else if c == 7 then Some(BYTE_ARRAY)
    else if c == 8 then Some(STRING)
    else if c == 9 then Some(LIST)
    else if c == 10 then Some(COMPOUND)
    else if c == 11 then Some(INT_ARRAY)
    else if c == 12 then Some(LONG_ARRAY)
    else None
  }

  /** A value together with the member of the source's union that holds it. Numbers and
      floats are bit patterns of Width(kind) bytes. */
  datatype NbtValue =
    | Number(kind: NbtType, bits: nat)
    | Str(bytes: Bytes)
    | IntArray(kind: NbtType, elems: seq<nat>)
    | List(elem: NbtType, values: seq<NbtValue>)
    | Compound(tags: seq<Nbt>)

  datatype Nbt = Nbt(name: Bytes, value: NbtValue)

  /** The type tag. In the source it is a field of its own; a tag that disagrees with the
      union's active member is undefined behaviour there. */
  function TypeOf(v: NbtValue): NbtType {
    match v
    case Number(kind, _) => kind
    case Str(_) => STRING
    case IntArray(kind, _) => kind
    case List(_, _) => LIST
    case Compound(_) => COMPOUND
  }

  function Width(kind: NbtType): nat {
    match kind
    case BYTE => 1
    case SHORT => 2
    case INT => 4
    case LONG => 8
    case FLOAT => 4
    case DOUBLE => 8
    case BYTE_ARRAY => 1
    case INT_ARRAY => 4
    case LONG_ARRAY => 8
    case _ => 0
  }

  predicate IsNumber(kind: NbtType) {
    kind.BYTE? || kind.SHORT? || kind.INT? || kind.LONG? || kind.FLOAT? || kind.DOUBLE?
  }

  predicate IsArray(kind: NbtType) {
    kind.BYTE_ARRAY? || kind.INT_ARRAY? || kind.LONG_ARRAY?
  }

  /** Well typed, with element counts that fit Int32. */
  predicate TypedValue(v: NbtValue) {
    match v
    case Number(kind, bits) => IsNumber(kind) && bits < Range(Width(kind))
    case Str(_) => true
    case IntArray(kind, elems) =>
      IsArray(kind) && |elems| < 0x8000_0000 && forall i :: 0 <= i < |elems| ==> elems[i] < Range(Width(kind))
    case List(elem, values) =>
      |values| < 0x8000_0000 && forall w :: w in values ==> TypeOf(w) == elem && TypedValue(w)
    case Compound(tags) => forall t :: t in tags ==> Typed(t)
  }

  predicate Typed(t: Nbt) {
    TypedValue(t.value)
  }

  /** Every name and string has a length that its 16-bit prefix can hold. */
  predicate ShortValue(v: NbtValue) {
    match v
    case Str(bytes) => |bytes| < 0x1_0000
    case List(_, values) => forall w :: w in values ==> ShortValue(w)
    case Compound(tags) => forall t :: t in tags ==> Short(t)
    case _ => true
  }

  predicate Short(t: Nbt) {
    |t.name| < 0x1_0000 && ShortValue(t.value)
  }

  // ---- The writer's output ----

  function IntsBytes(elems: seq<nat>, width: nat): Bytes {
    if elems == [] then [] else BigEndian(elems[0], width) + IntsBytes(elems[1..], width)
  }

  function ValueBytes(v: NbtValue): Bytes
    requires TypedValue(v)
    decreases v, 0
  {
    match v
    case Number(kind, bits) => BigEndian(bits, Width(kind))
    case Str(bytes) => BigEndian(|bytes| % 0x1_0000, 2) + bytes
    case IntArray(kind, elems) => BigEndian(|elems|, 4) + IntsBytes(elems, Width(kind))
    case List(elem, values) => [Code(elem)] + BigEndian(|values|, 4) + ListBytes(values)
    case Compound(tags) => TagsBytes(tags) + [0]
  }

  function ListBytes(values: seq<NbtValue>): Bytes
    requires forall w :: w in values ==> TypedValue(w)
    decreases values, 1
  {
    if values == [] then [] else ValueBytes(values[0]) + ListBytes(values[1..])
  }

  function TagsBytes(tags: seq<Nbt>): Bytes
    requires forall t :: t in tags ==> Typed(t)
    decreases tags, 1
  {
    if tags == [] then [] else TagBytes(tags[0]) + TagsBytes(tags[1..])
  }

  function TagBytes(t: Nbt): Bytes
    requires Typed(t)
    decreases t, 0
  {
    [Code(TypeOf(t.value))] + BigEndian(|t.name| % 0x1_0000, 2) + t.name + ValueBytes(t.value)
  }

  // ---- A reference reader ----

  function ParseInts(b: Bytes, width: nat, count: nat): (r: Parse<seq<nat>>)
    ensures r.Ok? ==> |r.rest| <= |b| && |r.value| == count
    decreases count
  {
    if count == 0 then Ok([], b)
    else match ParseFixed(b, width)
      case Ok(n, rest) => (
        match ParseInts(rest, width, count - 1)
        case Ok(ns, rest') => Ok([n] + ns, rest')
        case _ => Invalid)
      case _ => Invalid
  }

  function ParseValue(kind: NbtType, b: Bytes): (r: Parse<NbtValue>)
    ensures r.Ok? ==> |r.rest| < |b|
    decreases |b|, 2
  {
    if IsNumber(kind) then
      match ParseFixed(b, Width(kind))
      case Ok(n, rest) => Ok(Number(kind, n), rest)
      case _ => Invalid
    else if kind == COMPOUND then
      match ParseTags(b)
      case Ok(tags, rest) => Ok(Compound(tags), rest)
      case _ => Invalid
    else if kind == STRING then
      match ParseFixed(b, 2)
      case Ok(n, rest) => (
        match ParseBlock(rest, n)
        case Ok(bytes, rest') => Ok(Str(bytes), rest')
        case _ => Invalid)
      case _ => Invalid
    else if kind == LIST then
      if |b| < 5 || FromCode(b[0]).None? then Invalid
      else match ParseFixed(b[1..], 4)
        case Ok(n, rest) => (
          match ParseList(FromCode(b[0]).value, n, rest)
          case Ok(values, rest') => Ok(List(FromCode(b[0]).value, values), rest')
          case _ => Invalid)
        case _ => Invalid
    else
      match ParseFixed(b, 4)
      case Ok(n, rest) => (
        match ParseInts(rest, Width(kind), n)
        case Ok(elems, rest') => Ok(IntArray(kind, elems), rest')
        case _ => Invalid)
      case _ => Invalid
  }

  function ParseList(kind: NbtType, count: nat, b: Bytes): (r: Parse<seq<NbtValue>>)
    ensures r.Ok? ==> |r.rest| <= |b|
    decreases |b|, 3
  {
    if count == 0 then Ok([], b)
    else match ParseValue(kind, b)
      case Ok(v, rest) => (
        match ParseList(kind, count - 1, rest)
        case Ok(vs, rest') => Ok([v] + vs, rest')
        case _ => Invalid)
      case _ => Invalid
  }

  function ParseTags(b: Bytes): (r: Parse<seq<Nbt>>)
    ensures r.Ok? ==> |r.rest| < |b|
    decreases |b|, 1
  {
    if b == [] then Invalid
    else if b[0] == 0 then Ok([], b[1..])
    else match ParseTag(b)
      case Ok(t, rest) => (
        match ParseTags(rest)
        case Ok(ts, rest') => Ok([t] + ts, rest')
        case _ => Invalid)
      case _ => Invalid
  }

  function ParseTag(b: Bytes): (r: Parse<Nbt>)
    ensures r.Ok? ==> |r.rest| < |b|
    decreases |b|, 0
  {
    if b == [] || FromCode(b[0]).None? then Invalid
    else match ParseFixed(b[1..], 2)
      case Ok(n, rest) => (
        match ParseBlock(rest, n)
        case Ok(name, rest') => (
          match ParseValue(FromCode(b[0]).value, rest')
          case Ok(v, rest'') => Ok(Nbt(name, v), rest'')
          case _ => Invalid)
        case _ => Invalid)
      case _ => Invalid
  }

  // ---- Unique decodability ----

  lemma {:induction false} WidthRange(kind: NbtType)
    requires IsNumber(kind) || IsArray(kind)
    ensures IsWidth(Width(kind)) && Range(Width(kind)) == Pow256(Width(kind))
  {
    RangeIs(Width(kind));
  }

  lemma {:induction false} IntsBack(elems: seq<nat>, width: nat, more: Bytes)
    requires forall i :: 0 <= i < |elems| ==> elems[i] < Pow256(width)
    ensures ParseInts(IntsBytes(elems, width) + more, width, |elems|) == Ok(elems, more)
  {
    if elems == [] {
      assert IntsBytes(elems, width) + more == more;
    } else {
      var tail := IntsBytes(elems[1..], width) + more;
      IntsBack(elems[1..], width, more);
      ParseFixedBack(elems[0], width, tail);
      Regroup(BigEndian(elems[0], width), IntsBytes(elems[1..], width), more);
      assert [elems[0]] + elems[1..] == elems;
    }
  }

  /** The reader recovers a value from its bytes and leaves what follows untouched. */
  lemma {:induction false} ValueBack(v: NbtValue, more: Bytes)
    requires TypedValue(v) && ShortValue(v)
    ensures ParseValue(TypeOf(v), ValueBytes(v) + more) == Ok(v, more)
    decreases v, 0
  {
    match v
    case Number(kind, bits) =>
      WidthRange(kind);
      ParseFixedBack(bits, Width(kind), more);
    case Str(bytes) =>
      StrBack(bytes, more);
    case IntArray(kind, elems) =>
      NumbersBack(kind, elems, more);
    case List(elem, values) =>
      ListBack(elem, values, more);
      ListHeaderBack(elem, |values|, ListBytes(values) + more);
      Regroup([Code(elem)] + BigEndian(|values|, 4), ListBytes(values), more);
    case Compound(tags) =>
      Regroup(TagsBytes(tags), [0], more);
      TagsBack(tags, more);
  }

  lemma {:induction false} ReadStr(b: Bytes, bytes: Bytes, tail: Bytes, more: Bytes)
    requires ParseFixed(b, 2) == Ok(|bytes|, tail) && ParseBlock(tail, |bytes|) == Ok(bytes, more)
    ensures ParseValue(STRING, b) == Ok(Str(bytes), more)
  {
  }

  lemma {:induction false} StrBytes(bytes: Bytes, more: Bytes)
    requires |bytes| < 0x1_0000
    ensures ValueBytes(Str(bytes)) + more == BigEndian(|bytes|, 2) + (bytes + more)
  {
    Regroup(BigEndian(|bytes|, 2), bytes, more);
  }

  lemma {:induction false} StrBack(bytes: Bytes, more: Bytes)
    requires |bytes| < 0x1_0000
    ensures ParseValue(STRING, ValueBytes(Str(bytes)) + more) == Ok(Str(bytes), more)
  {
    LengthBack(|bytes|, bytes + more);
    ParseBlockBack(bytes, more);
    StrBytes(bytes, more);
    ReadStr(ValueBytes(Str(bytes)) + more, bytes, bytes + more, more);
  }

  lemma {:induction false} ReadNumbers(kind: NbtType, b: Bytes, elems: seq<nat>, tail: Bytes, more: Bytes)
    requires IsArray(kind)
    requires ParseFixed(b, 4) == Ok(|elems|, tail) && ParseInts(tail, Width(kind), |elems|) == Ok(elems, more)
    ensures ParseValue(kind, b) == Ok(IntArray(kind, elems), more)
  {
  }

  lemma {:induction false} NumbersBack(kind: NbtType, elems: seq<nat>, more: Bytes)
    requires TypedValue(IntArray(kind, elems))
    ensures ParseValue(kind, ValueBytes(IntArray(kind, elems)) + more) == Ok(IntArray(kind, elems), more)
  {
    var ints := IntsBytes(elems, Width(kind));
    var b := ValueBytes(IntArray(kind, elems)) + more;
    assert b == BigEndian(|elems|, 4) + (ints + more) by {
      Regroup(BigEndian(|elems|, 4), ints, more);
    }
    CountBack(|elems|, ints + more);
    WidthRange(kind);
    IntsBack(elems, Width(kind), more);
    ReadNumbers(kind, b, elems, ints + more, more);
  }

  lemma {:induction false} CountBack(count: nat, tail: Bytes)
    requires count < 0x8000_0000
    ensures ParseFixed(BigEndian(count, 4) + tail, 4) == Ok(count, tail)
  {
    RangeIs(4);
    ParseFixedBack(count, 4, tail);
  }

  lemma {:induction false} ListHeaderBack(elem: NbtType, count: nat, tail: Bytes)
    requires count < 0x8000_0000
    ensures var b := [Code(elem)] + BigEndian(count, 4) + tail;
      && |b| >= 5 && FromCode(b[0]) == Some(elem) && ParseFixed(b[1..], 4) == Ok(count, tail)
  {
    var b := [Code(elem)] + BigEndian(count, 4) + tail;
    CountBack(count, tail);
    assert b[1..] == BigEndian(count, 4) + tail;
  }

  lemma {:induction false} ListBack(kind: NbtType, values: seq<NbtValue>, more: Bytes)
    requires forall w :: w in values ==> TypeOf(w) == kind && TypedValue(w) && ShortValue(w)
    ensures ParseList(kind, |values|, ListBytes(values) + more) == Ok(values, more)
    decreases values, 1
  {
    if values == [] {
      assert ListBytes(values) + more == more;
    } else {
      Regroup(ValueBytes(values[0]), ListBytes(values[1..]), more);
      ValueBack(values[0], ListBytes(values[1..]) + more);
      ListBack(kind, values[1..], more);
      assert [values[0]] + values[1..] == values;
    }
  }

  lemma {:induction false} TagsBack(tags: seq<Nbt>, more: Bytes)
    requires forall t :: t in tags ==> Typed(t) && Short(t)
    ensures ParseTags(TagsBytes(tags) + ([0] + more)) == Ok(tags, more)
    decreases tags, 1
  {
    if tags == [] {
      assert TagsBytes(tags) + ([0] + more) == [0] + more;
      assert ([0] + more)[1..] == more;
    } else {
      var tail := TagsBytes(tags[1..]) + ([0] + more);
      Regroup(TagBytes(tags[0]), TagsBytes(tags[1..]), [0] + more);
      TagBack(tags[0], tail);
      TagsBack(tags[1..], more);
      assert (TagBytes(tags[0]) + tail)[0] == Code(TypeOf(tags[0].value));
      assert [tags[0]] + tags[1..] == tags;
    }
  }

  lemma {:induction false} LengthBack(length: nat, tail: Bytes)
    requires length < 0x1_0000
    ensures ParseFixed(BigEndian(length, 2) + tail, 2) == Ok(length, tail)
  {
    RangeIs(2);
    ParseFixedBack(length, 2, tail);
  }

  lemma {:induction false} TagHeaderBack(kind: NbtType, name: Bytes, tail: Bytes)
    requires |name| < 0x1_0000
    ensures var b := [Code(kind)] + BigEndian(|name| % 0x1_0000, 2) + name + tail;
      && b != [] && FromCode(b[0]) == Some(kind) && ParseFixed(b[1..], 2) == Ok(|name|, name + tail)
      && ParseBlock(name + tail, |name|) == Ok(name, tail)
  {
    var b := [Code(kind)] + BigEndian(|name| % 0x1_0000, 2) + name + tail;
    assert b[1..] == BigEndian(|name|, 2) + (name + tail);
    LengthBack(|name|, name + tail);
    ParseBlockBack(name, tail);
  }

  lemma {:induction false} TagBack(t: Nbt, more: Bytes)
    requires Typed(t) && Short(t)
    ensures ParseTag(TagBytes(t) + more) == Ok(t, more)
    decreases t, 0
  {
    TagHeaderBack(TypeOf(t.value), t.name, ValueBytes(t.value) + more);
    Regroup([Code(TypeOf(t.value))] + BigEndian(|t.name| % 0x1_0000, 2) + t.name, ValueBytes(t.value), more);
    ValueBack(t.value, more);
  }

  /** No tree's bytes are a prefix of another's: equal streams start with equal trees. */
  lemma {:induction false} TagPrefixFree(t: Nbt, more: Bytes, t': Nbt, more': Bytes)
    requires Typed(t) && Short(t) && Typed(t') && Short(t')
    requires TagBytes(t) + more == TagBytes(t') + more'
    ensures t == t' && more == more'
  {
    TagBack(t, more);
    TagBack(t', more');
  }

  // Everything the reader returns is short: its length prefixes have 16 bits.

  lemma {:induction false} ReadValueShort(kind: NbtType, b: Bytes)
    ensures var r := ParseValue(kind, b); r.Ok? ==> ShortValue(r.value)
    decreases |b|, 2
  {
    RangeIs(2);
    if kind == COMPOUND {
      ReadTagsShort(b);
    } else if kind == LIST && |b| >= 5 && FromCode(b[0]).Some? && ParseFixed(b[1..], 4).Ok? {
      var p := ParseFixed(b[1..], 4);
      ReadListShort(FromCode(b[0]).value, p.value, p.rest);
    }
  }

  lemma {:induction false} ReadListShort(kind: NbtType, count: nat, b: Bytes)
    ensures var r := ParseList(kind, count, b); r.Ok? ==> forall w :: w in r.value ==> ShortValue(w)
    decreases |b|, 3
  {
    if count > 0 {
      ReadValueShort(kind, b);
      var p := ParseValue(kind, b);
      if p.Ok? {
        ReadListShort(kind, count - 1, p.rest);
      }
    }
  }

  lemma {:induction false} ReadTagsShort(b: Bytes)
    ensures var r := ParseTags(b); r.Ok? ==> forall t :: t in r.value ==> Short(t)
    decreases |b|, 1
  {
    if b != [] && b[0] != 0 {
      ReadTagShort(b);
      var p := ParseTag(b);
      if p.Ok? {
        ReadTagsShort(p.rest);
      }
    }
  }

  lemma {:induction false} ReadTagShort(b: Bytes)
    ensures var r := ParseTag(b); r.Ok? ==> Short(r.value)
    decreases |b|, 0
  {
    if b != [] && FromCode(b[0]).Some? && ParseFixed(b[1..], 2).Ok? {
      RangeIs(2);
      var p := ParseFixed(b[1..], 2);
      var name := ParseBlock(p.rest, p.value);
      if name.Ok? {
        ReadValueShort(FromCode(b[0]).value, name.rest);
      }
    }
  }

  /** A tree comes back from its bytes exactly when no name and no string in it is longer
      than its 16-bit length prefix can say. */
  lemma {:induction false} TagBackExactly(t: Nbt, more: Bytes)
    requires Typed(t)
    ensures ParseTag(TagBytes(t) + more) == Ok(t, more) <==> Short(t)
  {
    if Short(t) {
      TagBack(t, more);
    } else {
      ReadTagShort(TagBytes(t) + more);
    }
  }

  // ---- The writer ----

  /** serializeNbtValue. */
  method SerializeNbtValue(buffer: Buffer, v: NbtValue)
    requires TypedValue(v)
    modifies buffer
    ensures buffer.data == old(buffer.data) + ValueBytes(v)
    decreases v, 0
  {
    ghost var before := buffer.data;
    match v
    case Number(kind, bits) =>
      SerializeInt(buffer, bits, Width(kind));
    case Str(bytes) =>
      SerializeShortBytes(buffer, bytes);
    case IntArray(kind, elems) =>
      SerializeArray(buffer, kind, elems);
    case List(elem, values) =>
      SerializeListHeader(buffer, elem, |values|);
      SerializeList(buffer, values);
      Regroup(before, [Code(elem)] + BigEndian(|values|, 4), ListBytes(values));
    case Compound(tags) =>
      SerializeTags(buffer, tags);
      SerializeEndMarker(buffer);
      Regroup(before, TagsBytes(tags), [0]);
  }

  method SerializeArray(buffer: Buffer, kind: NbtType, elems: seq<nat>)
    requires TypedValue(IntArray(kind, elems))
    modifies buffer
    ensures buffer.data == old(buffer.data) + (BigEndian(|elems|, 4) + IntsBytes(elems, Width(kind)))
  {
    SerializeInt(buffer, |elems|, 4);
    SerializeInts(buffer, elems, Width(kind));
  }

  method SerializeEndMarker(buffer: Buffer)
    modifies buffer
    ensures buffer.data == old(buffer.data) + [0]
  {
    SerializeInt(buffer, 0, 1);
    OneByte(0);
  }

  /** A 16-bit length, of which a longer string keeps only the low bits, and the bytes. */
  method SerializeShortBytes(buffer: Buffer, bytes: Bytes)
    modifies buffer
    ensures buffer.data == old(buffer.data) + (BigEndian(|bytes| % 0x1_0000, 2) + bytes)
  {
    SerializeInt(buffer, |bytes| % 0x1_0000, 2);
    buffer.Write(bytes);
  }

  method SerializeListHeader(buffer: Buffer, elem: NbtType, count: nat)
    requires count < 0x8000_0000
    modifies buffer
    ensures buffer.data == old(buffer.data) + ([Code(elem)] + BigEndian(count, 4))
  {
    SerializeInt(buffer, Code(elem), 1);
    OneByte(Code(elem));
    SerializeInt(buffer, count, 4);
  }

  /** The loop over a list's values. */
  method SerializeList(buffer: Buffer, values: seq<NbtValue>)
    requires forall w :: w in values ==> TypedValue(w)
    modifies buffer
    ensures buffer.data == old(buffer.data) + ListBytes(values)
    decreases values, 1
  {
    var i := 0;
    while i < |values|
      invariant 0 <= i <= |values|
      invariant buffer.data + ListBytes(values[i..]) == old(buffer.data) + ListBytes(values)
    {
      SerializeNbtValue(buffer, values[i]);
      assert values[i..][1..] == values[i + 1..];
      i := i + 1;
    }
  }

  /** The loop over a compound's tags. */
  method SerializeTags(buffer: Buffer, tags: seq<Nbt>)
    requires forall t :: t in tags ==> Typed(t)
    modifies buffer
    ensures buffer.data == old(buffer.data) + TagsBytes(tags)
    decreases tags, 1
  {
    var i := 0;
    while i < |tags|
      invariant 0 <= i <= |tags|
      invariant buffer.data + TagsBytes(tags[i..]) == old(buffer.data) + TagsBytes(tags)
    {
      SerializeNbt(buffer, tags[i]);
      assert tags[i..][1..] == tags[i + 1..];
      i := i + 1;
    }
  }

  method SerializeInts(buffer: Buffer, elems: seq<nat>, width: nat)
    requires IsWidth(width) && forall i :: 0 <= i < |elems| ==> elems[i] < Range(width)
    modifies buffer
    ensures buffer.data == old(buffer.data) + IntsBytes(elems, width)
  {
    var i := 0;
    while i < |elems|
      invariant 0 <= i <= |elems|
      invariant buffer.data + IntsBytes(elems[i..], width) == old(buffer.data) + IntsBytes(elems, width)
    {
      SerializeInt(buffer, elems[i], width);
      assert elems[i..][1..] == elems[i + 1..];
      i := i + 1;
    }
  }

  /** serializeNbt. */
  method SerializeNbt(buffer: Buffer, tag: Nbt)
    requires Typed(tag)
    modifies buffer
    ensures buffer.data == old(buffer.data) + TagBytes(tag)
    decreases tag, 0
  {
    SerializeInt(buffer, Code(TypeOf(tag.value)), 1);
    OneByte(Code(TypeOf(tag.value)));
    SerializeShortBytes(buffer, tag.name);
    SerializeNbtValue(buffer, tag.value);
  }
}
