/** Frames and their reassembly from a TCP stream: source/proxyd/framing.hpp and
    source/proxyd/packetreader.hpp. */
module Framing {
  import opened Numbers
  import opened VarInt
  import opened Buffers
  import opened Schema
  import opened Variants

  const INCOMING_PACKET_MAX_TOTAL_LENGTH: nat := 1024
  const INCOMING_PACKET_MAX_LENGTH_VALUE: nat := INCOMING_PACKET_MAX_TOTAL_LENGTH - VARINT32_MAX_LENGTH

  datatype Frame = Frame(id: Int32, data: Bytes)

  /** A frame is a length, then that many bytes: an id and the payload. An id that runs past
      the end of its own, complete frame is INCOMPLETE in the text (framing.hpp:48-49), so the
      reader waits for bytes that cannot help; INVALID is meant. */
  function ParseFrame(framing: Variant, b: Bytes): (r: Parse<Frame>)
    ensures r.Ok? ==> |r.rest| + 2 <= |b|
  {
    ParseVarIntMeaning(b);
    match ParseVarInt(b)
    case Ok(length, rest) => (
      if length < 0 || length > INCOMING_PACKET_MAX_LENGTH_VALUE then Invalid
      else match ParseBlock(rest, length)
        case Ok(data, rest') => (
          ParseVarIntMeaning(data);
          match ParseVarInt(data)
          case Ok(id, payload) => Ok(Frame(id, payload), rest')
          case Incomplete => if framing.Written? then Incomplete else Invalid
          case Invalid => Invalid)
        case Incomplete => Incomplete
        case Invalid => Invalid)
    case Incomplete => Incomplete
    case Invalid => Invalid
  }

  /** A complete frame whose id does not end inside it. */
  predicate Overrun(b: Bytes) {
    match ParseVarInt(b)
    case Ok(length, rest) =>
      0 <= length <= INCOMING_PACKET_MAX_LENGTH_VALUE && |rest| >= length && ParseVarInt(rest[..length]).Incomplete?
    case _ => false
  }

  /** deserializePacketFrame. */
  method DeserializePacketFrame(framing: Variant, b: Bytes) returns (r: Parse<Frame>)
    ensures r == ParseFrame(framing, b)
  {
    var length := DeserializeVarInt(b);
    if !length.Ok? {
      return if length.Incomplete? then Incomplete else Invalid;
    }
    if length.value < 0 || length.value > INCOMING_PACKET_MAX_LENGTH_VALUE {
      return Invalid;
    }
    var data := ParseBlock(length.rest, length.value);
    if !data.Ok? {
      return if data.Incomplete? then Incomplete else Invalid;
    }
    var id := DeserializeVarInt(data.value);
    if !id.Ok? {
      return if id.Incomplete? && framing.Written? then Incomplete else Invalid;
    }
    r := Ok(Frame(id.value, id.rest), data.rest);
  }

  /** Bytes that arrive later change neither an accepted frame nor a rejection. */
  lemma {:induction false} FrameStable(framing: Variant, b: Bytes, more: Bytes)
    ensures match ParseFrame(framing, b)
            case Ok(frame, rest) => ParseFrame(framing, b + more) == Ok(frame, rest + more)
            case Incomplete => true
            case Invalid => ParseFrame(framing, b + more) == Invalid
  {
    TakeVarIntStable(b, 5, more);
    if ParseVarInt(b).Ok? {
      var length, rest := ParseVarInt(b).value, ParseVarInt(b).rest;
      if 0 <= length <= |rest| {
        assert (rest + more)[..length] == rest[..length] && (rest + more)[length..] == rest[length..] + more;
      }
    }
  }

  // ---- Whole streams ----

  /** Everything one pass over a buffer delivers, and the bytes from the first frame that was
      not delivered on. */
  datatype Delivery = Delivery(frames: seq<Frame>, residue: Bytes, failed: bool)

  function Deliver(framing: Variant, b: Bytes): Delivery
    decreases |b|
  {
    match ParseFrame(framing, b)
    case Ok(frame, rest) =>
      var d := Deliver(framing, rest);
      Delivery([frame] + d.frames, d.residue, d.failed)
    case Incomplete => Delivery([], b, false)
    case Invalid => Delivery([], b, true)
  }

  /** What a pass over b after a pass over a comes to. */
  function Continued(first: Delivery, second: Delivery, b: Bytes): Delivery {
    if first.failed then Delivery(first.frames, first.residue + b, true)
    else Delivery(first.frames + second.frames, second.residue, second.failed)
  }

  lemma {:induction false} OneFrameOn(framing: Variant, b: Bytes, frame: Frame, rest: Bytes)
    requires ParseFrame(framing, b) == Ok(frame, rest)
    ensures var d := Deliver(framing, rest);
      Deliver(framing, b) == Delivery([frame] + d.frames, d.residue, d.failed)
  {
  }

  lemma {:induction false} ContinuedOn(frame: Frame, d: Delivery, second: Delivery, b: Bytes)
    ensures var c := Continued(d, second, b);
      Continued(Delivery([frame] + d.frames, d.residue, d.failed), second, b)
          == Delivery([frame] + c.frames, c.residue, c.failed)
  {
    assert [frame] + (d.frames + second.frames) == [frame] + d.frames + second.frames;
  }

  /** A pass over more bytes picks up where the pass over fewer stopped. */
  lemma {:induction false} DeliverMore(framing: Variant, a: Bytes, b: Bytes)
    ensures var first := Deliver(framing, a);
      Deliver(framing, a + b) == Continued(first, Deliver(framing, first.residue + b), b)
    decreases |a|
  {
    FrameStable(framing, a, b);
    match ParseFrame(framing, a)
    case Ok(frame, rest) =>
      DeliverMore(framing, rest, b);
      OneFrameOn(framing, a, frame, rest);
      OneFrameOn(framing, a + b, frame, rest + b);
      var d := Deliver(framing, rest);
      ContinuedOn(frame, d, Deliver(framing, d.residue + b), b);
    case Incomplete =>
      assert [] + Deliver(framing, a + b).frames == Deliver(framing, a + b).frames;
    case Invalid =>
  }

  // ---- The reader ----

  datatype ReaderState = ReaderState(buffer: Bytes, packets: seq<Frame>, failed: bool)

  const EMPTY_READER := ReaderState([], [], false)

  /** How to read the text: framing.hpp:48-49, and on their own the size that is scanned
      (packetreader.hpp:29) and the way back after an error (packetreader.hpp:45-47). */
  datatype Reading = Reading(framing: Variant, scan: Variant, error: Variant)

  /** The reader as meant, over either framing. */
  function Meant(framing: Variant): Reading {
    Reading(framing, Intended, Intended)
  }

  const TEXT := Reading(Written, Written, Written)

  /** The bytes one call looks at: in the text data.size() bytes from the start of the buffer,
      meant are all that are buffered. */
  function Scanned(scan: Variant, buffer: Bytes, data: Bytes): Bytes
    requires |data| <= |buffer|
  {
    if scan.Written? then buffer[..|data|] else buffer
  }

  /** What one call of onBytesReceived does. After an error the text leaves the buffer as it is and
      would deliver from it again in a later call; meant is no delivery after an error. */
  function Receive(g: Reading, r: ReaderState, data: Bytes): ReaderState {
    if r.failed && g.error.Intended? then r
    else
      var buffer := r.buffer + data;
      var d := Deliver(g.framing, Scanned(g.scan, buffer, data));
      if d.failed then ReaderState(buffer, r.packets + d.frames, true)
      else
        DeliverShrinks(g.framing, Scanned(g.scan, buffer, data));
        ReaderState(buffer[|buffer| - |d.residue|..], r.packets + d.frames, r.failed)
  }

  lemma {:induction false} DeliverShrinks(framing: Variant, b: Bytes)
    ensures var d := Deliver(framing, b); |d.residue| <= |b| && d.residue == b[|b| - |d.residue|..]
    decreases |b|
  {
    FrameSuffix(framing, b);
    match ParseFrame(framing, b)
    case Ok(_, rest) =>
      DeliverShrinks(framing, rest);
    case _ =>
  }

  lemma {:induction false} FrameSuffix(framing: Variant, b: Bytes)
    ensures match ParseFrame(framing, b)
            case Ok(_, rest) => |rest| < |b| && rest == b[|b| - |rest|..]
            case _ => true
  {
    ParseVarIntMeaning(b);
  }

  /** What the loop has delivered so far, and what it still has to look at, are the whole pass. */
  ghost predicate Partway(framing: Variant, scanned: Bytes, delivered: seq<Frame>, rest: Bytes) {
    var d := Deliver(framing, rest);
    Deliver(framing, scanned) == Delivery(delivered + d.frames, d.residue, d.failed)
  }

  lemma {:induction false} PartwayStart(framing: Variant, scanned: Bytes)
    ensures Partway(framing, scanned, [], scanned)
  {
  }

  lemma {:induction false} PartwayOn(framing: Variant, scanned: Bytes, delivered: seq<Frame>, rest: Bytes, f: Frame,
      rest': Bytes)
    requires Partway(framing, scanned, delivered, rest) && ParseFrame(framing, rest) == Ok(f, rest')
    ensures Partway(framing, scanned, delivered + [f], rest')
  {
    OneFrameOn(framing, rest, f, rest');
    var d := Deliver(framing, rest');
    assert delivered + ([f] + d.frames) == delivered + [f] + d.frames;
  }

  lemma {:induction false} PartwayEnd(framing: Variant, scanned: Bytes, delivered: seq<Frame>, rest: Bytes)
    requires Partway(framing, scanned, delivered, rest) && !ParseFrame(framing, rest).Ok?
    ensures Deliver(framing, scanned) == Delivery(delivered, rest, ParseFrame(framing, rest).Invalid?)
  {
    assert delivered + [] == delivered;
  }

  class PacketReader {
    const reading: Reading
    const readBuffer: Buffer
    var packets: seq<Frame>
    var failed: bool

    ghost function State(): ReaderState
      reads this, readBuffer
    {
      ReaderState(readBuffer.data, packets, failed)
    }

    constructor (reading: Reading)
      ensures this.reading == reading
      ensures fresh(readBuffer) && State() == EMPTY_READER
    {
      this.reading := reading;
      readBuffer := new Buffer();
      packets := [];
      failed := false;
    }

    /** The packets handed to the onPacket callback are appended to `packets`; `failed` records
        that the onError callback ran. */
    method OnBytesReceived(data: Bytes)
      modifies this, readBuffer
      ensures State() == Receive(reading, old(State()), data)
    {
      if failed && reading.error.Intended? {
        return;
      }
      readBuffer.Write(data);
      var rest := Scanned(reading.scan, readBuffer.data, data);
      ghost var scanned, delivered := rest, [];
      PartwayStart(reading.framing, scanned);
      DeliverShrinks(reading.framing, scanned);
      while true
        invariant Partway(reading.framing, scanned, delivered, rest)
        invariant packets == old(packets) + delivered && failed == old(failed)
        invariant readBuffer.data == old(readBuffer.data) + data
        decreases |rest|
      {
        var frame := DeserializePacketFrame(reading.framing, rest);
        match frame {
          case Ok(f, rest') =>
            PartwayOn(reading.framing, scanned, delivered, rest, f, rest');
            packets := packets + [f];
            delivered := delivered + [f];
            rest := rest';
          case Incomplete =>
            PartwayEnd(reading.framing, scanned, delivered, rest);
            readBuffer.Discard(|readBuffer.data| - |rest|);
            return;
          case Invalid =>
            PartwayEnd(reading.framing, scanned, delivered, rest);
            failed := true;
            return;
        }
      }
    }
  }

  // ---- Fragmentation ----

  function Concat(chunks: seq<Bytes>): Bytes {
    if chunks == [] then [] else Concat(chunks[..|chunks| - 1]) + chunks[|chunks| - 1]
  }

  function Feed(g: Reading, chunks: seq<Bytes>): ReaderState {
    if chunks == [] then EMPTY_READER
    else Receive(g, Feed(g, chunks[..|chunks| - 1]), chunks[|chunks| - 1])
  }

  /** The reader has delivered what one pass over the whole stream so far delivers. */
  ghost predicate Represents(framing: Variant, r: ReaderState, stream: Bytes) {
    var d := Deliver(framing, stream);
    r.packets == d.frames && r.failed == d.failed && (!d.failed ==> r.buffer == d.residue)
  }

  lemma {:induction false} ReceiveRepresents(framing: Variant, r: ReaderState, stream: Bytes, data: Bytes)
    requires Represents(framing, r, stream)
    ensures Represents(framing, Receive(Meant(framing), r, data), stream + data)
  {
    DeliverMore(framing, stream, data);
    if !r.failed {
      DeliverShrinks(framing, r.buffer + data);
    }
  }

  lemma {:induction false} FeedRepresents(framing: Variant, chunks: seq<Bytes>)
    ensures Represents(framing, Feed(Meant(framing), chunks), Concat(chunks))
  {
    if chunks != [] {
      FeedRepresents(framing, chunks[..|chunks| - 1]);
      var before, last := chunks[..|chunks| - 1], chunks[|chunks| - 1];
      ReceiveRepresents(framing, Feed(Meant(framing), before), Concat(before), last);
    }
  }

  /** However a byte stream is cut into calls, the packets, the error verdict and the bytes kept
      are those of one call with all of it. */
  lemma {:induction false} FragmentationInvariance(framing: Variant, chunks: seq<Bytes>)
    ensures var cut := Feed(Meant(framing), chunks);
      var whole := Receive(Meant(framing), EMPTY_READER, Concat(chunks));
      cut.packets == whole.packets && cut.failed == whole.failed && (!cut.failed ==> cut.buffer == whole.buffer)
  {
    FeedRepresents(framing, chunks);
    ReceiveRepresents(framing, EMPTY_READER, [], Concat(chunks));
    assert [] + Concat(chunks) == Concat(chunks);
  }

  // ---- What the text breaks ----

  lemma {:induction false} SmallVarInt(n: Byte, more: Bytes)
    requires n < 128
    ensures ParseVarInt([n] + more) == Ok(n, more)
  {
    VarIntRoundTrip(n, more);
  }

  /** The two bytes of an empty packet with id 0. */
  const PING: Bytes := [1, 0]

  lemma {:induction false} PingParses(framing: Variant, more: Bytes)
    ensures ParseFrame(framing, PING + more) == Ok(Frame(0, []), more)
  {
    SmallVarInt(1, [0] + more);
    SmallVarInt(0, []);
    assert PING + more == [1] + ([0] + more) && [0] + [] == [0];
    ParseBlockBack([0], more);
  }

  lemma {:induction false} PingDelivers(framing: Variant)
    ensures Deliver(framing, PING) == Delivery([Frame(0, [])], [], false)
  {
    PingParses(framing, []);
    assert PING + [] == PING;
    NothingThere(framing);
  }

  lemma {:induction false} NothingThere(framing: Variant)
    ensures Deliver(framing, []) == Delivery([], [], false)
  {
  }

  lemma {:induction false} HalfPingWaits(framing: Variant)
    ensures Deliver(framing, [1]) == Delivery([], [1], false)
  {
    SmallVarInt(1, []);
    assert [1] + [] == [1];
  }

  lemma {:induction false} WholePing(g: Reading)
    ensures Receive(g, EMPTY_READER, PING).packets == [Frame(0, [])]
  {
    PingDelivers(g.framing);
    assert EMPTY_READER.buffer + PING == PING && PING[..2] == PING;
  }

  /** Each call scans one byte from the start of the buffer, that is the first byte both times. */
  lemma {:induction false} HalfPings(g: Reading, half: Bytes, rest: Bytes)
    requires g.scan.Written? && half == [1] && |rest| == 1
    ensures Receive(g, Receive(g, EMPTY_READER, half), rest).packets == []
  {
    HalfPingWaits(g.framing);
    assert EMPTY_READER.buffer + half == half && half[..1] == half && half[0..] == half;
    assert Receive(g, EMPTY_READER, half) == ReaderState(half, [], false);
    assert (half + rest)[..1] == half;
  }

  /** Because of line 29 one packet is delivered when it arrives whole and lost when it arrives
      in two parts. */
  lemma {:induction false} FragmentationFailsAsWritten(g: Reading)
    requires g.scan.Written?
    ensures Receive(g, EMPTY_READER, PING).packets == [Frame(0, [])]
    ensures Feed(g, [[1], [0]]).packets == []
  {
    WholePing(g);
    HalfPings(g, [1], [0]);
    FeedTwo(g, [1], [0]);
  }

  lemma {:induction false} FeedTwo(g: Reading, a: Bytes, b: Bytes)
    ensures Feed(g, [a, b]) == Receive(g, Receive(g, EMPTY_READER, a), b)
  {
    var one, two := [a], [a, b];
    assert one[..0] == [] && two[..1] == one && two[1] == b;
    assert Feed(g, one) == Receive(g, EMPTY_READER, a);
    assert Feed(g, two) == Receive(g, Feed(g, two[..1]), two[1]);
  }

  /** Exactly when a call that scans as written does what is meant, whatever is made of errors: when
      it does nothing, when nothing was left over from earlier calls, or when the bytes it does
      scan already contain an invalid frame. */
  lemma {:induction false} WrittenScanExactly(framing: Variant, error: Variant, r: ReaderState, data: Bytes)
    ensures Receive(Reading(framing, Written, error), r, data) == Receive(Reading(framing, Intended, error), r, data)
       <==> (r.failed && error.Intended?) || r.buffer == [] || Deliver(framing, (r.buffer + data)[..|data|]).failed
  {
    if !(r.failed && error.Intended?) {
      if r.buffer == [] {
        assert (r.buffer + data)[..|data|] == r.buffer + data;
      } else if Deliver(framing, (r.buffer + data)[..|data|]).failed {
        ScanFails(framing, r.buffer + data, |data|);
      } else {
        ScanFallsShort(framing, error, r, data);
      }
    }
  }

  lemma {:induction false} ScanFails(framing: Variant, buffer: Bytes, n: nat)
    requires n <= |buffer| && Deliver(framing, buffer[..n]).failed
    ensures Deliver(framing, buffer).failed && Deliver(framing, buffer).frames == Deliver(framing, buffer[..n]).frames
  {
    assert buffer == buffer[..n] + buffer[n..];
    DeliverMore(framing, buffer[..n], buffer[n..]);
  }

  /** A scan of fewer bytes delivers fewer packets or keeps fewer bytes. */
  lemma {:induction false} ScanFallsShort(framing: Variant, error: Variant, r: ReaderState, data: Bytes)
    requires r.buffer != [] && !(r.failed && error.Intended?)
    requires !Deliver(framing, (r.buffer + data)[..|data|]).failed
    ensures Receive(Reading(framing, Written, error), r, data) != Receive(Reading(framing, Intended, error), r, data)
  {
    var buffer, n := r.buffer + data, |data|;
    var first, whole := Deliver(framing, buffer[..n]), Deliver(framing, buffer);
    DeliverShrinks(framing, buffer[..n]);
    DeliverShrinks(framing, buffer);
    if !whole.failed && whole.frames == first.frames {
      SplitAt(buffer, n);
      SameFramesKeepMore(framing, buffer[..n], buffer[n..], buffer);
    } else if !whole.failed {
      AppendDiffers(r.packets, first.frames, whole.frames);
    }
  }

  lemma {:induction false} AppendDiffers(a: seq<Frame>, b: seq<Frame>, c: seq<Frame>)
    requires b != c
    ensures a + b != a + c
  {
    assert (a + b)[|a|..] == b && (a + c)[|a|..] == c;
  }

  lemma {:induction false} SameFramesKeepMore(framing: Variant, a: Bytes, b: Bytes, whole: Bytes)
    requires b != [] && whole == a + b && !Deliver(framing, a).failed && !Deliver(framing, whole).failed
    requires Deliver(framing, whole).frames == Deliver(framing, a).frames
    ensures |Deliver(framing, a).residue| < |Deliver(framing, whole).residue|
  {
    var first := Deliver(framing, a);
    var second := Deliver(framing, first.residue + b);
    assert Deliver(framing, whole) == Delivery(first.frames + second.frames, second.residue, second.failed) by {
      DeliverMore(framing, a, b);
    }
    NothingAppended(first.frames, second.frames);
    NothingDelivered(framing, first.residue + b);
  }

  lemma {:induction false} SplitAt(b: Bytes, n: nat)
    requires n <= |b|
    ensures b == b[..n] + b[n..]
  {
  }

  lemma {:induction false} NothingAppended(a: seq<Frame>, b: seq<Frame>)
    requires a + b == a
    ensures b == []
  {
    assert |a + b| == |a| + |b|;
  }

  lemma {:induction false} NothingDelivered(framing: Variant, b: Bytes)
    requires Deliver(framing, b).frames == [] && !Deliver(framing, b).failed
    ensures Deliver(framing, b).residue == b
  {
  }

  /** Exactly when a call that goes on after an error as written delivers what is meant, that is
      nothing once there was an error: when the bytes it scans hold no complete frame. */
  lemma {:induction false} WrittenErrorExactly(framing: Variant, scan: Variant, r: ReaderState, data: Bytes)
    ensures Receive(Reading(framing, scan, Written), r, data).packets
         == Receive(Reading(framing, scan, Intended), r, data).packets
       <==> !r.failed || Deliver(framing, Scanned(scan, r.buffer + data, data)).frames == []
  {
    DeliverShrinks(framing, Scanned(scan, r.buffer + data, data));
  }

  /** The bytes a failed reader keeps start with the frames of the call that failed. */
  lemma {:induction false} FailedBufferFails(framing: Variant, error: Variant, chunks: seq<Bytes>)
    ensures var r := Feed(Reading(framing, Intended, error), chunks); r.failed ==> Deliver(framing, r.buffer).failed
  {
    if chunks != [] {
      var before, last := chunks[..|chunks| - 1], chunks[|chunks| - 1];
      FailedBufferFails(framing, error, before);
      var r := Feed(Reading(framing, Intended, error), before);
      DeliverMore(framing, r.buffer, last);
    }
  }

  /** So after an error every call delivers the packets of the call that failed once more, whatever
      arrives. */
  lemma {:induction false} ErrorsRepeat(framing: Variant, chunks: seq<Bytes>, data: Bytes)
    ensures var g := Reading(framing, Intended, Written); var r := Feed(g, chunks);
      r.failed ==>
        Receive(g, r, data) == ReaderState(r.buffer + data, r.packets + Deliver(framing, r.buffer).frames, true)
  {
    FailedBufferFails(framing, Written, chunks);
    DeliverMore(framing, Feed(Reading(framing, Intended, Written), chunks).buffer, data);
  }

  const OVERLONG: Bytes := [0x80, 0x80, 0x80, 0x80, 0x80]

  lemma {:induction false} PingThenError(framing: Variant)
    ensures Deliver(framing, PING + OVERLONG) == Delivery([Frame(0, [])], OVERLONG, true)
  {
    PingParses(framing, OVERLONG);
    ParseVarIntMeaning(OVERLONG);
    assert ParseFrame(framing, OVERLONG) == Invalid;
    assert Deliver(framing, OVERLONG) == Delivery([], OVERLONG, true);
  }

  /** In the text, a packet followed by an invalid frame is delivered a second time when two more
      bytes arrive. A connection that has been told to disconnect reads no more
      (tcpserver.cpp:173), so this is about the reader on its own. */
  lemma {:induction false} ErrorDeliversAgain(more: Bytes)
    requires |more| == 2
    ensures var failed := Receive(TEXT, EMPTY_READER, PING + OVERLONG);
      && failed.failed && failed.packets == [Frame(0, [])]
      && Receive(TEXT, failed, more).packets == [Frame(0, []), Frame(0, [])]
  {
    var all := PING + OVERLONG;
    PingThenError(Written);
    PingDelivers(Written);
    assert EMPTY_READER.buffer + all == all && all[..7] == all;
    assert Receive(TEXT, EMPTY_READER, all) == ReaderState(all, [Frame(0, [])], true);
    assert (all + more)[..2] == PING;
  }

  // ---- Bounds ----

  lemma {:induction false} IncompleteIsShort(framing: Variant, b: Bytes)
    requires ParseFrame(framing, b).Incomplete?
    ensures |b| < INCOMING_PACKET_MAX_TOTAL_LENGTH || (framing.Written? && Overrun(b))
  {
    ParseVarIntMeaning(b);
  }

  lemma {:induction false} ResidueIncomplete(framing: Variant, b: Bytes)
    ensures !Deliver(framing, b).failed ==> ParseFrame(framing, Deliver(framing, b).residue).Incomplete?
    decreases |b|
  {
    match ParseFrame(framing, b)
    case Ok(_, rest) => ResidueIncomplete(framing, rest);
    case _ =>
  }

  /** Between calls without an error the reader keeps fewer than 1024 bytes, whatever arrived. */
  lemma {:induction false} ReaderBound(chunks: seq<Bytes>)
    ensures var r := Feed(Meant(Intended), chunks); !r.failed ==> |r.buffer| < 1024
  {
    FeedRepresents(Intended, chunks);
    ResidueIncomplete(Intended, Concat(chunks));
    if !Feed(Meant(Intended), chunks).failed {
      IncompleteIsShort(Intended, Feed(Meant(Intended), chunks).buffer);
    }
  }

  /** As written, a frame with an overrunning id stalls the reader for good: nothing behind it
      is ever delivered and every byte that follows is kept. */
  lemma {:induction false} OverrunStalls(b: Bytes, more: Bytes)
    requires Overrun(b)
    ensures Overrun(b + more) && Deliver(Written, b + more) == Delivery([], b + more, false)
    ensures ParseFrame(Intended, b + more) == Invalid
  {
    TakeVarIntStable(b, 5, more);
    var length, rest := ParseVarInt(b).value, ParseVarInt(b).rest;
    assert (rest + more)[..length] == rest[..length];
  }

  /** Such a frame: one byte that announces another. */
  lemma {:induction false} OverrunningFrame(more: Bytes)
    ensures Overrun([1, 0x80] + more)
  {
    SmallVarInt(1, [0x80] + more);
    assert [1, 0x80] + more == [1] + ([0x80] + more) && ([0x80] + more)[..1] == [0x80];
    ParseVarIntMeaning([0x80]);
  }

  /** The two readings of the frame differ on exactly those frames. */
  lemma {:induction false} FramingsDifferExactly(b: Bytes)
    ensures ParseFrame(Written, b) == ParseFrame(Intended, b) <==> !Overrun(b)
  {
  }

  // ---- Sending ----

  /** The bytes of one packet on the wire. */
  function FrameBytes(id: Int32, payload: Bytes): Bytes
    requires |payload| + |VarIntBytes(id)| < 0x8000_0000
  {
    VarIntBytes(|payload| + |VarIntBytes(id)|) + VarIntBytes(id) + payload
  }

  /** The header of serializePacket, built in a buffer on the stack. */
  method EncodeHeader(id: Int32, length: Int32) returns (header: Bytes)
    ensures header == VarIntBytes(length) + VarIntBytes(id)
  {
    var headerBuffer := new Byte[10];
    LebRange(ToUInt32(length));
    LebRange(ToUInt32(id));
    var lengthLength := EncodeVarInt32(headerBuffer, 0, length);
    ghost var first := headerBuffer[..lengthLength];
    var idLength := EncodeVarInt32(headerBuffer, lengthLength, id);
    assert headerBuffer[..lengthLength + idLength] == first + headerBuffer[lengthLength..lengthLength + idLength];
    header := headerBuffer[..lengthLength + idLength];
  }

  /** serializePacket: the payload first, then the header in front of it. */
  method SerializePacket(id: Int32, fs: seq<Field>, vs: seq<Value>) returns (buffer: Buffer)
    requires WellFormed(fs) && FitAll(fs, vs) && |PayloadBytes(fs, vs)| + |VarIntBytes(id)| < 0x8000_0000
    ensures fresh(buffer) && buffer.data == FrameBytes(id, PayloadBytes(fs, vs))
  {
    buffer := new Buffer();
    SerializePacketPayload(buffer, fs, vs);
    var idLength := WireSizeVarInt32(id);
    var header := EncodeHeader(id, |buffer.data| + idLength);
    buffer.Prepend(header);
  }

  /** A reader takes a sent packet back exactly when its length value is within the limit, and
      rejects it otherwise. */
  lemma {:induction false} FrameBack(framing: Variant, id: Int32, payload: Bytes, more: Bytes)
    requires |payload| + |VarIntBytes(id)| < 0x8000_0000
    ensures ParseFrame(framing, FrameBytes(id, payload) + more) ==
      if |payload| + |VarIntBytes(id)| <= 1019 then Ok(Frame(id, payload), more) else Invalid
  {
    var body := VarIntBytes(id) + payload;
    assert FrameBytes(id, payload) + more == VarIntBytes(|body|) + (body + more);
    VarIntRoundTrip(|body|, body + more);
    ParseBlockBack(body, more);
    VarIntRoundTrip(id, payload);
  }

  datatype Packet = Packet(id: Int32, fs: seq<Field>, vs: seq<Value>)

  /** A packet whose frame an incoming reader accepts. */
  predicate Sendable(p: Packet) {
    WellFormed(p.fs) && FitAll(p.fs, p.vs)
    && |PayloadBytes(p.fs, p.vs)| + |VarIntBytes(p.id)| <= INCOMING_PACKET_MAX_LENGTH_VALUE
  }

  predicate AllSendable(ps: seq<Packet>) {
    forall i :: 0 <= i < |ps| ==> Sendable(ps[i])
  }

  function SentBytes(ps: seq<Packet>): Bytes
    requires AllSendable(ps)
  {
    if ps == [] then []
    else FrameBytes(ps[0].id, PayloadBytes(ps[0].fs, ps[0].vs)) + SentBytes(ps[1..])
  }

  function SentFrames(ps: seq<Packet>): seq<Frame>
    requires AllSendable(ps)
  {
    if ps == [] then [] else [Frame(ps[0].id, PayloadBytes(ps[0].fs, ps[0].vs))] + SentFrames(ps[1..])
  }

  lemma {:induction false} DeliverSent(framing: Variant, ps: seq<Packet>)
    requires AllSendable(ps)
    ensures Deliver(framing, SentBytes(ps)) == Delivery(SentFrames(ps), [], false)
  {
    if ps != [] {
      FrameBack(framing, ps[0].id, PayloadBytes(ps[0].fs, ps[0].vs), SentBytes(ps[1..]));
      DeliverSent(framing, ps[1..]);
    } else {
      assert ParseVarInt([]) == Incomplete;
    }
  }

  lemma {:induction false} SentFramesParse(ps: seq<Packet>)
    requires AllSendable(ps)
    ensures |SentFrames(ps)| == |ps|
    ensures forall i :: 0 <= i < |ps| ==>
      SentFrames(ps)[i].id == ps[i].id && ParsePayload(ps[i].fs, SentFrames(ps)[i].data) == Some(ps[i].vs)
  {
    if ps != [] {
      SentFramesParse(ps[1..]);
      PayloadRoundTrip(ps[0].fs, ps[0].vs);
      forall i | 0 <= i < |ps|
        ensures SentFrames(ps)[i].id == ps[i].id && ParsePayload(ps[i].fs, SentFrames(ps)[i].data) == Some(ps[i].vs)
      {
        if i > 0 {
          assert SentFrames(ps)[i] == SentFrames(ps[1..])[i - 1] && ps[i] == ps[1..][i - 1];
        }
      }
    }
  }

  /** From end to end: any packets, serialized one after the other and delivered in any pieces,
      come out of the reader in order, with the values they went in with, and leave nothing
      behind. */
  lemma {:induction false} WireEndToEnd(framing: Variant, ps: seq<Packet>, chunks: seq<Bytes>)
    requires AllSendable(ps)
    requires Concat(chunks) == SentBytes(ps)
    ensures var r := Feed(Meant(framing), chunks);
      && !r.failed && r.buffer == [] && |r.packets| == |ps|
      && forall i :: 0 <= i < |ps| ==>
           r.packets[i].id == ps[i].id && ParsePayload(ps[i].fs, r.packets[i].data) == Some(ps[i].vs)
  {
    FeedRepresents(framing, chunks);
    DeliverSent(framing, ps);
    SentFramesParse(ps);
  }
}
