/** What the bytes of a client mean to its state machine: the switches over phase and id of
    source/proxyd/statemachine.cpp, between the packet table and the transition system. */
module Protocol {
  import opened Numbers
  import opened VarInt
  import opened Buffers
  import opened Schema
  import opened PacketTable
  import opened Framing
  import opened Coords
  import opened Variants
  import opened Tracker
  import opened World

  /** The packets a phase deserializes. */
  function Handled(phase: Phase): seq<PacketType> {
    match phase
    case INITIAL => HANDSHAKE_SERVERBOUND
    case LOGIN => LOGIN_SERVERBOUND
    case PLAY_INIT => [TELEPORT_CONFIRM, CLIENT_SETTINGS, PLUGIN_MESSAGE_CLIENT, PLAYER_POSITION_ROTATION_CLIENT]
    case PLAY => [
      CHAT_CLIENT, CLIENT_SETTINGS, CLOSE_WINDOW_CLIENT, INTERACT_ENTITY, KEEP_ALIVE_CLIENT, PLAYER_POSITION,
      PLAYER_POSITION_ROTATION_CLIENT, PLAYER_ROTATION, PLAYER_MOVEMENT, PLAYER_ABILITIES_CLIENT, PLAYER_DIGGING,
      ENTITY_ACTION, HELD_ITEM_CHANGE_CLIENT, ANIMATION_CLIENT, USE_ITEM]
    case STATUS => []
  }

  lemma {:induction false} HandledAscend(phase: Phase)
    ensures Ascending(Handled(phase))
  {
  }

  /** The packets of the table that a client sends in a phase. */
  function Expected(phase: Phase): seq<PacketType> {
    match phase
    case INITIAL => HANDSHAKE_SERVERBOUND
    case LOGIN => LOGIN_SERVERBOUND
    case PLAY_INIT => PLAY_SERVERBOUND
    case PLAY => PLAY_SERVERBOUND
    case STATUS => []
  }

  /** What a phase handles is in the table of that phase, and the server can read it. */
  lemma {:induction false} HandledIsExpected(phase: Phase, p: PacketType)
    requires p in Handled(phase)
    ensures p in Expected(phase) && Readable(p)
  {
    if phase.INITIAL? {
      ServerboundIsReadable(HANDSHAKE_SERVERBOUND, p);
    } else if phase.LOGIN? {
      ServerboundIsReadable(LOGIN_SERVERBOUND, p);
    } else {
      ServerboundIsReadable(PLAY_SERVERBOUND, p);
    }
  }

  // ---- Values ----

  /** toStdString. */
  function Text(b: Bytes): (s: string)
    ensures |s| == |b| && forall i :: 0 <= i < |b| ==> s[i] as int == b[i]
  {
    seq(|b|, i requires 0 <= i < |b| => b[i] as char)
  }

  lemma {:induction false} Kinds(fs: seq<Field>, vs: seq<Value>, i: nat)
    requires FitAll(fs, vs) && i < |fs|
    ensures |vs| == |fs|
    ensures fs[i].FInt? || fs[i].FVarInt? || fs[i].FFloat? ==> vs[i].IntV?
    ensures fs[i].FString? ==> vs[i].BytesV?
    ensures fs[i] == FFloat(8) ==> vs[i].n >= 0
  {
    assert Fits(fs[i], vs[i]);
  }

  /** The position in three fields from one on. What the number with a bit pattern is, is a
      parameter. */
  function PositionIn(p: PacketType, vs: seq<Value>, i: nat, toReal: nat -> real): EntityCoord
    requires i + 3 <= |p.fields| && FitAll(p.fields, vs)
    requires p.fields[i] == FFloat(8) && p.fields[i + 1] == FFloat(8) && p.fields[i + 2] == FFloat(8)
  {
    Kinds(p.fields, vs, i);
    Kinds(p.fields, vs, i + 1);
    Kinds(p.fields, vs, i + 2);
    EntityCoord(toReal(vs[i].n), toReal(vs[i + 1].n), toReal(vs[i + 2].n))
  }

  function HandshakeIn(vs: seq<Value>): Incoming
    requires FitAll(HANDSHAKE.fields, vs)
  {
    Kinds(HANDSHAKE.fields, vs, 0);
    Kinds(HANDSHAKE.fields, vs, 3);
    Handshake(vs[0].n, vs[3].n)
  }

  function LoginIn(vs: seq<Value>): Incoming
    requires FitAll(LOGIN_START.fields, vs)
  {
    Kinds(LOGIN_START.fields, vs, 0);
    LoginStart(Text(vs[0].bytes))
  }

  function ConfirmIn(vs: seq<Value>): Incoming
    requires FitAll(TELEPORT_CONFIRM.fields, vs)
  {
    Kinds(TELEPORT_CONFIRM.fields, vs, 0);
    TeleportConfirm(vs[0].n)
  }

  function SettingsIn(vs: seq<Value>): Incoming
    requires FitAll(CLIENT_SETTINGS.fields, vs)
  {
    Kinds(CLIENT_SETTINGS.fields, vs, 1);
    ClientSettings(vs[1].n)
  }

  /** What a packet with its values is to a machine in a phase. Before play a position with a
      rotation is only checked; of the packets not told apart here nothing reaches the players. */
  function Meaning(phase: Phase, p: PacketType, vs: seq<Value>, toReal: nat -> real): Incoming
    requires FitAll(p.fields, vs)
  {
    if p == HANDSHAKE then HandshakeIn(vs)
    else if p == LOGIN_START then LoginIn(vs)
    else if p == TELEPORT_CONFIRM then ConfirmIn(vs)
    else if p == CLIENT_SETTINGS then SettingsIn(vs)
    else if p == PLAYER_POSITION then PlayerPosition(PositionIn(p, vs, 0, toReal), false)
    else if p == PLAYER_POSITION_ROTATION_CLIENT && phase.PLAY? then PlayerPosition(PositionIn(p, vs, 0, toReal), true)
    else if p == PLAYER_ROTATION then PlayerRotation
    else Unhandled
  }

  /** What a frame is to a machine in a phase: the first two phases take one packet and no other,
      later ones pass over ids they do not know. */
  function Understood(phase: Phase, frame: Frame, toReal: nat -> real): Incoming {
    match Find(Handled(phase), frame.id)
    case None => if phase.INITIAL? || phase.LOGIN? then Malformed else Unhandled
    case Some(p) =>
      ParsedPayloadFits(p.fields, frame.data);
      match ParsePayload(p.fields, frame.data)
      case None => Malformed
      case Some(vs) => Meaning(phase, p, vs, toReal)
  }

  lemma {:induction false} FindStep(table: seq<PacketType>, i: nat, id: Int32)
    requires i < |table| && Find(table, id) == Find(table[i..], id)
    ensures Find(table, id) == if table[i].id == id then Some(table[i]) else Find(table[i + 1..], id)
  {
    assert table[i..][0] == table[i] && table[i..][1..] == table[i + 1..];
  }

  /** The switch over the id. */
  method Dispatch(table: seq<PacketType>, id: Int32) returns (p: Option<PacketType>)
    ensures p == Find(table, id)
  {
    assert table[0..] == table;
    for i := 0 to |table|
      invariant Find(table, id) == Find(table[i..], id)
    {
      FindStep(table, i, id);
      if table[i].id == id {
        return Some(table[i]);
      }
    }
    p := None;
  }

  /** onPacket, up to the handlers: the payload is deserialized by the packet its id stands for. */
  method Understand(phase: Phase, frame: Frame, toReal: nat -> real) returns (r: Incoming)
    ensures r == Understood(phase, frame, toReal)
  {
    var p := Dispatch(Handled(phase), frame.id);
    if p.None? {
      return if phase.INITIAL? || phase.LOGIN? then Malformed else Unhandled;
    }
    FindIsIn(Handled(phase), frame.id);
    HandledIsExpected(phase, p.value);
    var ok, values := DeserializePacketPayload(p.value.fields, frame.data);
    if !ok {
      return Malformed;
    }
    ParsedPayloadFits(p.value.fields, frame.data);
    r := Meaning(phase, p.value, values, toReal);
  }

  // ---- What is understood, by ids and layouts ----

  /** A packet is understood by its own layout: malformed if that does not parse, else by its values. */
  lemma {:induction false} UnderstoodBy(phase: Phase, p: PacketType, data: Bytes, toReal: nat -> real)
    requires p in Handled(phase)
    ensures var r := Understood(phase, Frame(p.id, data), toReal);
      match ParsePayload(p.fields, data)
      case None => r == Malformed
      case Some(vs) => FitAll(p.fields, vs) && r == Meaning(phase, p, vs, toReal)
  {
    HandledAscend(phase);
    FindExactly(Handled(phase), p);
    ParsedPayloadFits(p.fields, data);
  }

  lemma {:induction false} NotHandled(phase: Phase, frame: Frame, toReal: nat -> real)
    requires forall p :: p in Handled(phase) ==> p.id != frame.id
    ensures Understood(phase, frame, toReal) == if phase.INITIAL? || phase.LOGIN? then Malformed else Unhandled
  {
    FindIsIn(Handled(phase), frame.id);
  }

  /** At first, id 0 with a VarInt, a string, two bytes and a VarInt is a handshake with the two numbers
      at its ends; everything else is malformed. */
  lemma {:induction false} UnderstoodInitial(frame: Frame, toReal: nat -> real)
    ensures var r := Understood(INITIAL, frame, toReal);
      match ParsePayload([FVarInt, FString, FInt(2), FVarInt], frame.data)
      case Some(vs) =>
        |vs| == 4 && vs[0].IntV? && vs[3].IntV? && r == if frame.id == 0 then Handshake(vs[0].n, vs[3].n) else Malformed
      case None => r == Malformed
  {
    ParsedPayloadFits(HANDSHAKE.fields, frame.data);
    if frame.id == 0 {
      UnderstoodBy(INITIAL, HANDSHAKE, frame.data, toReal);
    } else {
      NotHandled(INITIAL, frame, toReal);
    }
    if ParsePayload(HANDSHAKE.fields, frame.data).Some? {
      Kinds(HANDSHAKE.fields, ParsePayload(HANDSHAKE.fields, frame.data).value, 0);
      Kinds(HANDSHAKE.fields, ParsePayload(HANDSHAKE.fields, frame.data).value, 3);
    }
  }

  /** Then id 0 with a string is a login under that name; everything else is malformed. */
  lemma {:induction false} UnderstoodLogin(frame: Frame, toReal: nat -> real)
    ensures var r := Understood(LOGIN, frame, toReal);
      match ParsePayload([FString], frame.data)
      case Some(vs) =>
        |vs| == 1 && vs[0].BytesV? && r == if frame.id == 0 then LoginStart(Text(vs[0].bytes)) else Malformed
      case None => r == Malformed
  {
    ParsedPayloadFits(LOGIN_START.fields, frame.data);
    if frame.id == 0 {
      UnderstoodBy(LOGIN, LOGIN_START, frame.data, toReal);
    } else {
      NotHandled(LOGIN, frame, toReal);
    }
    if ParsePayload(LOGIN_START.fields, frame.data).Some? {
      Kinds(LOGIN_START.fields, ParsePayload(LOGIN_START.fields, frame.data).value, 0);
    }
  }

  /** Before play, id 0 with a VarInt confirms a teleport. */
  lemma {:induction false} UnderstoodConfirm(data: Bytes, toReal: nat -> real)
    ensures var r := Understood(PLAY_INIT, Frame(0x00, data), toReal);
      match ParsePayload([FVarInt], data)
      case Some(vs) => |vs| == 1 && vs[0].IntV? && r == TeleportConfirm(vs[0].n)
      case None => r == Malformed
  {
    UnderstoodBy(PLAY_INIT, TELEPORT_CONFIRM, data, toReal);
    if ParsePayload(TELEPORT_CONFIRM.fields, data).Some? {
      Kinds(TELEPORT_CONFIRM.fields, ParsePayload(TELEPORT_CONFIRM.fields, data).value, 0);
    }
  }

  /** From then on, id 5 is settings, of which the signed byte behind the string is the view distance. */
  lemma {:induction false} UnderstoodSettings(phase: Phase, data: Bytes, toReal: nat -> real)
    requires phase.PLAY_INIT? || phase.PLAY?
    ensures var r := Understood(phase, Frame(0x05, data), toReal);
      match ParsePayload([FString, FInt(1), FVarInt, FBool, FUInt(1), FVarInt], data)
      case Some(vs) => |vs| == 6 && vs[1].IntV? && r == ClientSettings(vs[1].n)
      case None => r == Malformed
  {
    UnderstoodBy(phase, CLIENT_SETTINGS, data, toReal);
    if ParsePayload(CLIENT_SETTINGS.fields, data).Some? {
      Kinds(CLIENT_SETTINGS.fields, ParsePayload(CLIENT_SETTINGS.fields, data).value, 1);
    }
  }

  /** In play, id 0x11 is a position of three doubles. */
  lemma {:induction false} UnderstoodPosition(data: Bytes, toReal: nat -> real)
    ensures var r := Understood(PLAY, Frame(0x11, data), toReal);
      match ParsePayload([FFloat(8), FFloat(8), FFloat(8), FBool], data)
      case Some(vs) =>
        && |vs| == 4 && vs[0].IntV? && vs[1].IntV? && vs[2].IntV? && vs[0].n >= 0 && vs[1].n >= 0 && vs[2].n >= 0
        && r == PlayerPosition(EntityCoord(toReal(vs[0].n), toReal(vs[1].n), toReal(vs[2].n)), false)
      case None => r == Malformed
  {
    UnderstoodBy(PLAY, PLAYER_POSITION, data, toReal);
    if ParsePayload(PLAYER_POSITION.fields, data).Some? {
      PositionMeans(ParsePayload(PLAYER_POSITION.fields, data).value, toReal);
    }
  }

  lemma {:induction false} PositionMeans(vs: seq<Value>, toReal: nat -> real)
    requires FitAll(PLAYER_POSITION.fields, vs)
    ensures vs[0].IntV? && vs[1].IntV? && vs[2].IntV? && vs[0].n >= 0 && vs[1].n >= 0 && vs[2].n >= 0
    ensures Meaning(PLAY, PLAYER_POSITION, vs, toReal)
         == PlayerPosition(EntityCoord(toReal(vs[0].n), toReal(vs[1].n), toReal(vs[2].n)), false)
  {
    ThreeDoubles(PLAYER_POSITION.fields, vs);
  }

  lemma {:induction false} PositionRotationMeans(phase: Phase, vs: seq<Value>, toReal: nat -> real)
    requires FitAll(PLAYER_POSITION_ROTATION_CLIENT.fields, vs)
    ensures vs[0].IntV? && vs[1].IntV? && vs[2].IntV? && vs[0].n >= 0 && vs[1].n >= 0 && vs[2].n >= 0
    ensures Meaning(phase, PLAYER_POSITION_ROTATION_CLIENT, vs, toReal)
         == if phase.PLAY?
            then PlayerPosition(EntityCoord(toReal(vs[0].n), toReal(vs[1].n), toReal(vs[2].n)), true)
            else Unhandled
  {
    ThreeDoubles(PLAYER_POSITION_ROTATION_CLIENT.fields, vs);
  }

  lemma {:induction false} ThreeDoubles(fs: seq<Field>, vs: seq<Value>)
    requires FitAll(fs, vs) && |fs| >= 3 && fs[0] == FFloat(8) && fs[1] == FFloat(8) && fs[2] == FFloat(8)
    ensures vs[0].IntV? && vs[1].IntV? && vs[2].IntV? && vs[0].n >= 0 && vs[1].n >= 0 && vs[2].n >= 0
  {
    Kinds(fs, vs, 0);
    Kinds(fs, vs, 1);
    Kinds(fs, vs, 2);
  }

  /** Id 0x12 is a position with a rotation, which before play only has to parse. */
  lemma {:induction false} UnderstoodPositionRotation(phase: Phase, data: Bytes, toReal: nat -> real)
    requires phase.PLAY_INIT? || phase.PLAY?
    ensures var r := Understood(phase, Frame(0x12, data), toReal);
      match ParsePayload([FFloat(8), FFloat(8), FFloat(8), FFloat(4), FFloat(4), FBool], data)
      case Some(vs) =>
        && |vs| == 6 && vs[0].IntV? && vs[1].IntV? && vs[2].IntV? && vs[0].n >= 0 && vs[1].n >= 0 && vs[2].n >= 0
        && r == if phase.PLAY?
                then PlayerPosition(EntityCoord(toReal(vs[0].n), toReal(vs[1].n), toReal(vs[2].n)), true)
                else Unhandled
      case None => r == Malformed
  {
    var p := PLAYER_POSITION_ROTATION_CLIENT;
    UnderstoodBy(phase, p, data, toReal);
    if ParsePayload(p.fields, data).Some? {
      PositionRotationMeans(phase, ParsePayload(p.fields, data).value, toReal);
    }
  }

  /** In play, id 0x13 with two floats and a bool is a turn. */
  lemma {:induction false} UnderstoodRotation(data: Bytes, toReal: nat -> real)
    ensures Understood(PLAY, Frame(0x13, data), toReal)
         == if ParsePayload([FFloat(4), FFloat(4), FBool], data).Some? then PlayerRotation else Malformed
  {
    UnderstoodBy(PLAY, PLAYER_ROTATION, data, toReal);
    if ParsePayload(PLAYER_ROTATION.fields, data).Some? {
      RotationMeans(ParsePayload(PLAYER_ROTATION.fields, data).value, toReal);
    }
  }

  lemma {:induction false} RotationMeans(vs: seq<Value>, toReal: nat -> real)
    requires FitAll(PLAYER_ROTATION.fields, vs)
    ensures Meaning(PLAY, PLAYER_ROTATION, vs, toReal) == PlayerRotation
  {
  }

  /** The ids whose packets are told apart above. */
  predicate ToldApart(phase: Phase, id: Int32) {
    match phase
    case INITIAL => true
    case LOGIN => true
    case PLAY_INIT => id == 0x00 || id == 0x05 || id == 0x12
    case PLAY => id == 0x05 || id == 0x11 || id == 0x12 || id == 0x13
    case STATUS => false
  }

  /** The layouts of the others that a phase has a handler for. */
  function OtherLayout(phase: Phase, id: Int32): Option<PacketSchema> {
    if phase.PLAY_INIT? then
      if id == 0x0b then Some([FString, FTailBytes]) else None
    else if phase.PLAY? then
      match id
      case 0x03 => Some([FString])
      case 0x0a => Some([FUInt(1)])
      case 0x0e => Some([FVarInt, FVarInt, FTailBytes])
      case 0x0f => Some([FInt(8)])
      case 0x14 => Some([FBool])
      case 0x19 => Some([FUInt(1), FFloat(4), FFloat(4)])
      case 0x1a => Some([FVarInt, FUInt(8), FInt(1)])
      case 0x1b => Some([FVarInt, FVarInt, FVarInt])
      case 0x23 => Some([FInt(2)])
      case 0x2a => Some([FVarInt])
      case 0x2d => Some([FVarInt])
      case _ => None
    else None
  }

  lemma {:induction false} OtherInTable(phase: Phase, id: Int32)
    requires !ToldApart(phase, id)
    ensures match OtherLayout(phase, id)
            case Some(fs) => PacketType(id, fs) in Handled(phase)
            case None => forall p :: p in Handled(phase) ==> p.id != id
  {
  }

  lemma {:induction false} OtherMeans(phase: Phase, p: PacketType, vs: seq<Value>, toReal: nat -> real)
    requires p.id != 0x00 && p.id != 0x05 && p.id != 0x11 && p.id != 0x12 && p.id != 0x13 && FitAll(p.fields, vs)
    ensures Meaning(phase, p, vs, toReal) == Unhandled
  {
  }

  lemma {:induction false} OtherId(phase: Phase, id: Int32)
    requires OtherLayout(phase, id).Some?
    ensures id != 0x00 && id != 0x05 && id != 0x11 && id != 0x12 && id != 0x13
  {
  }

  lemma {:induction false} OtherUnderstood(phase: Phase, p: PacketType, data: Bytes, toReal: nat -> real)
    requires p in Handled(phase) && OtherLayout(phase, p.id).Some?
    ensures Understood(phase, Frame(p.id, data), toReal)
         == if ParsePayload(p.fields, data).Some? then Unhandled else Malformed
  {
    UnderstoodBy(phase, p, data, toReal);
    OtherId(phase, p.id);
    if ParsePayload(p.fields, data).Some? {
      OtherMeans(phase, p, ParsePayload(p.fields, data).value, toReal);
    }
  }

  /** They do nothing to the players but that they have to parse; packets without a handler do nothing
      at all. */
  lemma {:induction false} UnderstoodOther(phase: Phase, frame: Frame, toReal: nat -> real)
    requires !ToldApart(phase, frame.id)
    ensures Understood(phase, frame, toReal)
         == match OtherLayout(phase, frame.id)
            case Some(fs) => if ParsePayload(fs, frame.data).Some? then Unhandled else Malformed
            case None => Unhandled
  {
    OtherInTable(phase, frame.id);
    if OtherLayout(phase, frame.id).Some? {
      OtherUnderstood(phase, PacketType(frame.id, OtherLayout(phase, frame.id).value), frame.data, toReal);
    } else {
      NotHandled(phase, frame, toReal);
    }
  }

  // ---- From values to bytes and back ----

  /** A packet that the phase handles is understood as what was put into it. */
  lemma {:induction false} UnderstoodAsSaid(phase: Phase, p: PacketType, vs: seq<Value>, toReal: nat -> real)
    requires p in Handled(phase) && FitAll(p.fields, vs)
    ensures Understood(phase, Frame(p.id, PayloadBytes(p.fields, vs)), toReal) == Meaning(phase, p, vs, toReal)
  {
    HandledAscend(phase);
    FindExactly(Handled(phase), p);
    PayloadRoundTrip(p.fields, vs);
  }

  datatype Said = Said(packet: PacketType, values: seq<Value>)

  function OnWire(said: seq<Said>): (ps: seq<Packet>)
    ensures |ps| == |said|
    ensures forall i :: 0 <= i < |said| ==> ps[i] == Packet(said[i].packet.id, said[i].packet.fields, said[i].values)
  {
    seq(|said|, i requires 0 <= i < |said| => Packet(said[i].packet.id, said[i].packet.fields, said[i].values))
  }

  /** The state machine of a player is handed frames, one after the other; None if the player is
      gone or an order is not one of an unordered set. */
  function Hears(variant: Variant, w: World, p: Pid, frames: seq<Frame>, orders: seq<seq<Pid>>,
      toReal: nat -> real): Option<World>
    requires |orders| == |frames|
    decreases |frames|
  {
    if frames == [] then Some(w)
    else if p !in w.machines then None
    else
      var e := Received(p, Understood(w.machines[p].phase, frames[0], toReal), orders[0]);
      if Enabled(variant, w, e) then Hears(variant, Step(variant, w, e), p, frames[1..], orders[1..], toReal) else None
  }

  /** The same for what the client said, as long as it says what the phase it is in handles. */
  function Obeys(variant: Variant, w: World, p: Pid, said: seq<Said>, orders: seq<seq<Pid>>,
      toReal: nat -> real): Option<World>
    requires |orders| == |said|
    decreases |said|
  {
    if said == [] then Some(w)
    else if p !in w.machines || said[0].packet !in Handled(w.machines[p].phase)
        || !FitAll(said[0].packet.fields, said[0].values)
    then None
    else
      var e := Received(p, Meaning(w.machines[p].phase, said[0].packet, said[0].values, toReal), orders[0]);
      if Enabled(variant, w, e) then Obeys(variant, Step(variant, w, e), p, said[1..], orders[1..], toReal) else None
  }

  lemma {:induction false} HearsAsSaid(
      variant: Variant, w: World, p: Pid, said: seq<Said>, frames: seq<Frame>, orders: seq<seq<Pid>>,
          toReal: nat -> real)
    requires |orders| == |said| == |frames| && Obeys(variant, w, p, said, orders, toReal).Some?
    requires forall i :: 0 <= i < |said| ==>
      frames[i].id == said[i].packet.id && ParsePayload(said[i].packet.fields, frames[i].data) == Some(said[i].values)
    ensures Hears(variant, w, p, frames, orders, toReal) == Obeys(variant, w, p, said, orders, toReal)
    decreases |said|
  {
    if said != [] {
      var phase := w.machines[p].phase;
      HandledAscend(phase);
      FindExactly(Handled(phase), said[0].packet);
      assert Understood(phase, frames[0], toReal) == Meaning(phase, said[0].packet, said[0].values, toReal);
      var e := Received(p, Understood(phase, frames[0], toReal), orders[0]);
      HearsAsSaid(variant, Step(variant, w, e), p, said[1..], frames[1..], orders[1..], toReal);
    }
  }

  /** From bytes to the world: whatever a client says in the phases it is in, serialized, sent in any
      pieces and reassembled, does to the world what the values do. */
  lemma {:induction false} WireToWorld(
      framing: Variant, variant: Variant, w: World, p: Pid, said: seq<Said>, chunks: seq<Bytes>, orders: seq<seq<Pid>>,
      toReal: nat -> real)
    requires AllSendable(OnWire(said)) && Concat(chunks) == SentBytes(OnWire(said))
    requires |orders| == |said| && Obeys(variant, w, p, said, orders, toReal).Some?
    ensures var r := Feed(Meant(framing), chunks);
      && !r.failed && r.buffer == [] && |r.packets| == |said|
      && Hears(variant, w, p, r.packets, orders, toReal) == Obeys(variant, w, p, said, orders, toReal)
  {
    WireEndToEnd(framing, OnWire(said), chunks);
    HearsAsSaid(variant, w, p, said, Feed(Meant(framing), chunks).packets, orders, toReal);
  }

  // ---- The bytes of the packets the players' states depend on ----

  lemma {:induction false} OneField(f: Field, v: Value)
    requires GoodField(f) && Fits(f, v)
    ensures PayloadBytes([f], [v]) == FieldBytes(f, v)
  {
    assert PayloadBytes([f][1..], [v][1..]) == [];
  }

  lemma {:induction false} MoreFields(f: Field, fs: seq<Field>, v: Value, vs: seq<Value>)
    requires GoodField(f) && AllGood(fs) && Fits(f, v) && FitAll(fs, vs)
    ensures AllGood([f] + fs) && FitAll([f] + fs, [v] + vs)
    ensures PayloadBytes([f] + fs, [v] + vs) == FieldBytes(f, v) + PayloadBytes(fs, vs)
  {
    assert ([f] + fs)[1..] == fs && ([v] + vs)[1..] == vs;
  }

  /** Id 0 is a teleport confirmation before play. */
  lemma {:induction false} ConfirmBytes(id: Int32, toReal: nat -> real)
    ensures Understood(PLAY_INIT, Frame(0x00, VarIntBytes(id)), toReal) == TeleportConfirm(id)
  {
    OneField(FVarInt, IntV(id));
    UnderstoodAsSaid(PLAY_INIT, TELEPORT_CONFIRM, [IntV(id)], toReal);
  }

  /** A name at login. */
  lemma {:induction false} LoginBytes(name: Bytes, toReal: nat -> real)
    requires |name| < 0x8000_0000
    ensures Understood(LOGIN, Frame(0x00, StringBytes(name)), toReal) == LoginStart(Text(name))
  {
    OneField(FString, BytesV(name));
    UnderstoodAsSaid(LOGIN, LOGIN_START, [BytesV(name)], toReal);
  }

  /** The first packet of a connection. */
  lemma {:induction false} HandshakeBytes(version: Int32, address: Bytes, port: int, next: Int32, toReal: nat -> real)
    requires |address| < 0x8000_0000 && InRange(port, 2, true)
    ensures Understood(INITIAL,
        Frame(0x00, VarIntBytes(version) + (StringBytes(address) + (IntBytes(port, 2) + VarIntBytes(next)))), toReal)
         == Handshake(version, next)
  {
    OneField(FVarInt, IntV(next));
    MoreFields(FInt(2), [FVarInt], IntV(port), [IntV(next)]);
    MoreFields(FString, [FInt(2)] + [FVarInt], BytesV(address), [IntV(port)] + [IntV(next)]);
    MoreFields(FVarInt, [FString] + ([FInt(2)] + [FVarInt]), IntV(version),
        [BytesV(address)] + ([IntV(port)] + [IntV(next)]));
    var vs := [IntV(version)] + ([BytesV(address)] + ([IntV(port)] + [IntV(next)]));
    assert [FVarInt] + ([FString] + ([FInt(2)] + [FVarInt])) == HANDSHAKE.fields;
    UnderstoodAsSaid(INITIAL, HANDSHAKE, vs, toReal);
  }

  /** Settings, before play and in it: the view distance is the signed byte after the locale. */
  lemma {:induction false} SettingsBytes(phase: Phase, locale: Bytes, vd: int, rest: Bytes, values: seq<Value>,
      toReal: nat -> real)
    requires phase.PLAY_INIT? || phase.PLAY?
    requires |locale| < 0x8000_0000 && InRange(vd, 1, true)
    requires FitAll([FVarInt, FBool, FUInt(1), FVarInt], values)
    requires rest == PayloadBytes([FVarInt, FBool, FUInt(1), FVarInt], values)
    ensures Understood(phase, Frame(0x05, StringBytes(locale) + (IntBytes(vd, 1) + rest)), toReal) == ClientSettings(vd)
  {
    var fs := [FVarInt, FBool, FUInt(1), FVarInt];
    MoreFields(FInt(1), fs, IntV(vd), values);
    MoreFields(FString, [FInt(1)] + fs, BytesV(locale), [IntV(vd)] + values);
    assert [FString] + ([FInt(1)] + fs) == CLIENT_SETTINGS.fields;
    UnderstoodAsSaid(phase, CLIENT_SETTINGS, [BytesV(locale)] + ([IntV(vd)] + values), toReal);
  }

  lemma {:induction false} RotationFields(yaw: nat, pitch: nat, onGround: bool)
    requires InRange(yaw, 4, false) && InRange(pitch, 4, false)
    ensures var fs, vs := [FFloat(4), FFloat(4), FBool], [IntV(yaw), IntV(pitch), BoolV(onGround)];
      && AllGood(fs) && FitAll(fs, vs)
      && PayloadBytes(fs, vs) == IntBytes(yaw, 4) + (IntBytes(pitch, 4) + [if onGround then 1 else 0])
  {
    OneField(FBool, BoolV(onGround));
    MoreFields(FFloat(4), [FBool], IntV(pitch), [BoolV(onGround)]);
    MoreFields(FFloat(4), [FFloat(4)] + [FBool], IntV(yaw), [IntV(pitch)] + [BoolV(onGround)]);
    assert [FFloat(4)] + ([FFloat(4)] + [FBool]) == [FFloat(4), FFloat(4), FBool];
    assert [IntV(yaw)] + ([IntV(pitch)] + [BoolV(onGround)]) == [IntV(yaw), IntV(pitch), BoolV(onGround)];
  }

  /** A turn, whatever its angles. */
  lemma {:induction false} RotationBytes(yaw: nat, pitch: nat, onGround: bool, toReal: nat -> real)
    requires InRange(yaw, 4, false) && InRange(pitch, 4, false)
    ensures Understood(PLAY, Frame(0x13, IntBytes(yaw, 4) + (IntBytes(pitch, 4) + [if onGround then 1 else 0])), toReal)
         == PlayerRotation
  {
    RotationFields(yaw, pitch, onGround);
    PayloadRoundTrip([FFloat(4), FFloat(4), FBool], [IntV(yaw), IntV(pitch), BoolV(onGround)]);
    UnderstoodRotation(IntBytes(yaw, 4) + (IntBytes(pitch, 4) + [if onGround then 1 else 0]), toReal);
  }

  /** Three eight-byte patterns and the rest of a position packet. */
  lemma {:induction false} PositionFields(x: nat, y: nat, z: nat, fs: seq<Field>, vs: seq<Value>)
    requires InRange(x, 8, false) && InRange(y, 8, false) && InRange(z, 8, false) && AllGood(fs) && FitAll(fs, vs)
    ensures var fs' := [FFloat(8), FFloat(8), FFloat(8)] + fs; var vs' := [IntV(x), IntV(y), IntV(z)] + vs;
      && AllGood(fs') && FitAll(fs', vs')
      && PayloadBytes(fs', vs') == IntBytes(x, 8) + (IntBytes(y, 8) + (IntBytes(z, 8) + PayloadBytes(fs, vs)))
  {
    MoreFields(FFloat(8), fs, IntV(z), vs);
    MoreFields(FFloat(8), [FFloat(8)] + fs, IntV(y), [IntV(z)] + vs);
    MoreFields(FFloat(8), [FFloat(8)] + ([FFloat(8)] + fs), IntV(x), [IntV(y)] + ([IntV(z)] + vs));
    assert [FFloat(8)] + ([FFloat(8)] + ([FFloat(8)] + fs)) == [FFloat(8), FFloat(8), FFloat(8)] + fs;
    assert [IntV(x)] + ([IntV(y)] + ([IntV(z)] + vs)) == [IntV(x), IntV(y), IntV(z)] + vs;
  }

  /** A position in play. */
  lemma {:induction false} PositionBytes(x: nat, y: nat, z: nat, onGround: bool, toReal: nat -> real)
    requires InRange(x, 8, false) && InRange(y, 8, false) && InRange(z, 8, false)
    ensures Understood(PLAY,
        Frame(0x11, IntBytes(x, 8) + (IntBytes(y, 8) + (IntBytes(z, 8) + [if onGround then 1 else 0]))), toReal)
         == PlayerPosition(EntityCoord(toReal(x), toReal(y), toReal(z)), false)
  {
    OneField(FBool, BoolV(onGround));
    PositionFields(x, y, z, [FBool], [BoolV(onGround)]);
    assert [FFloat(8), FFloat(8), FFloat(8)] + [FBool] == PLAYER_POSITION.fields;
    UnderstoodAsSaid(PLAY, PLAYER_POSITION, [IntV(x), IntV(y), IntV(z)] + [BoolV(onGround)], toReal);
  }

  lemma {:induction false} TurnedMeaning(phase: Phase, x: nat, y: nat, z: nat, values: seq<Value>, toReal: nat -> real)
    requires FitAll(PLAYER_POSITION_ROTATION_CLIENT.fields, [IntV(x), IntV(y), IntV(z)] + values)
    ensures Meaning(phase, PLAYER_POSITION_ROTATION_CLIENT, [IntV(x), IntV(y), IntV(z)] + values, toReal)
         == if phase.PLAY? then PlayerPosition(EntityCoord(toReal(x), toReal(y), toReal(z)), true) else Unhandled
  {
  }

  /** A position with a rotation: a walk in play, nothing before it. */
  lemma {:induction false} PositionRotationBytes(
      phase: Phase, x: nat, y: nat, z: nat, rest: Bytes, values: seq<Value>, toReal: nat -> real)
    requires phase.PLAY_INIT? || phase.PLAY?
    requires InRange(x, 8, false) && InRange(y, 8, false) && InRange(z, 8, false)
    requires FitAll([FFloat(4), FFloat(4), FBool], values)
        && rest == PayloadBytes([FFloat(4), FFloat(4), FBool], values)
    ensures Understood(phase, Frame(0x12, IntBytes(x, 8) + (IntBytes(y, 8) + (IntBytes(z, 8) + rest))), toReal)
         == if phase.PLAY? then PlayerPosition(EntityCoord(toReal(x), toReal(y), toReal(z)), true) else Unhandled
  {
    var fs := [FFloat(4), FFloat(4), FBool];
    PositionFields(x, y, z, fs, values);
    assert [FFloat(8), FFloat(8), FFloat(8)] + fs == PLAYER_POSITION_ROTATION_CLIENT.fields;
    UnderstoodAsSaid(phase, PLAYER_POSITION_ROTATION_CLIENT, [IntV(x), IntV(y), IntV(z)] + values, toReal);
    TurnedMeaning(phase, x, y, z, values, toReal);
  }
}
