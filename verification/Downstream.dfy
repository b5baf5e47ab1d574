/** What a client makes of the bytes its connection writes: source/proxyd/framing.hpp and
    source/proxyd/packets.def read from the other end of source/common/net/tcpserver.cpp. */
module Downstream {
  import opened Numbers
  import opened VarInt
  import opened Buffers
  import opened Schema
  import opened PacketTable
  import opened Framing
  import opened Coords
  import opened Variants
  import opened Protocol
  import Client
  import WriteQueue

  // ---- Frames of any length ----

  /** A frame as a client takes it: the server's limit is for what it receives. */
  function TakeFrame(b: Bytes): (r: Parse<Frame>)
    ensures r.Ok? ==> |r.rest| < |b|
  {
    ParseVarIntMeaning(b);
    match ParseVarInt(b)
    case Ok(length, rest) => (
      if length < 0 then Invalid
      else match ParseBlock(rest, length)
        case Ok(data, rest') => (
          match ParseVarInt(data)
          case Ok(id, payload) => Ok(Frame(id, payload), rest')
          case _ => Invalid)
        case Incomplete => Incomplete
        case Invalid => Invalid)
    case Incomplete => Incomplete
    case Invalid => Invalid
  }

  /** The limit is all that the server's reader adds. */
  lemma {:induction false} LimitedExactly(b: Bytes)
    ensures ParseFrame(Intended, b) == TakeFrame(b)
       <==> TakeFrame(b).Invalid? || ParseVarInt(b).Incomplete? || ParseVarInt(b).value <= 1019
  {
  }

  lemma {:induction false} TakeStable(b: Bytes, more: Bytes)
    ensures match TakeFrame(b)
            case Ok(frame, rest) => TakeFrame(b + more) == Ok(frame, rest + more)
            case Incomplete => true
            case Invalid => TakeFrame(b + more) == Invalid
  {
    TakeVarIntStable(b, 5, more);
    if ParseVarInt(b).Ok? {
      var length, rest := ParseVarInt(b).value, ParseVarInt(b).rest;
      if 0 <= length <= |rest| {
        assert (rest + more)[..length] == rest[..length] && (rest + more)[length..] == rest[length..] + more;
      }
    }
  }

  /** A frame whose length fits the VarInt in front of it. */
  predicate Writable(f: Frame) {
    |f.data| + |VarIntBytes(f.id)| < 0x8000_0000
  }

  predicate AllWritable(fs: seq<Frame>) {
    forall i :: 0 <= i < |fs| ==> Writable(fs[i])
  }

  function BytesOf(f: Frame): Bytes
    requires Writable(f)
  {
    FrameBytes(f.id, f.data)
  }

  function WireBytes(fs: seq<Frame>): Bytes
    requires AllWritable(fs)
  {
    if fs == [] then [] else BytesOf(fs[0]) + WireBytes(fs[1..])
  }

  lemma {:induction false} TakeBack(f: Frame, more: Bytes)
    requires Writable(f)
    ensures TakeFrame(BytesOf(f) + more) == Ok(f, more)
  {
    var body := VarIntBytes(f.id) + f.data;
    assert BytesOf(f) + more == VarIntBytes(|body|) + (body + more);
    VarIntRoundTrip(|body|, body + more);
    ParseBlockBack(body, more);
    VarIntRoundTrip(f.id, f.data);
  }

  /** A frame that has not arrived to its end is waited for. */
  lemma {:induction false} CutFrameWaits(f: Frame, k: nat)
    requires Writable(f) && k < |BytesOf(f)|
    ensures TakeFrame(BytesOf(f)[..k]) == Incomplete
  {
    var b := BytesOf(f);
    TakeBack(f, []);
    assert b + [] == b && b[..k] + b[k..] == b;
    TakeStable(b[..k], b[k..]);
  }

  function Taken(b: Bytes): seq<Frame>
    decreases |b|
  {
    match TakeFrame(b)
    case Ok(frame, rest) => [frame] + Taken(rest)
    case _ => []
  }

  /** How many frames are whole within the first bytes. */
  function Whole(fs: seq<Frame>, size: nat): (n: nat)
    requires AllWritable(fs)
    ensures n <= |fs|
  {
    if fs == [] || size < |BytesOf(fs[0])| then 0 else 1 + Whole(fs[1..], size - |BytesOf(fs[0])|)
  }

  lemma {:induction false} BehindFirst(first: Bytes, others: Bytes, b: Bytes)
    requires b <= first + others && |first| <= |b|
    ensures b == first + b[|first|..] && b[|first|..] <= others
  {
    assert b[|first|..] == (first + others)[|first|..|b|] == others[..|b| - |first|];
  }

  lemma {:induction false} TakenOn(f: Frame, more: Bytes)
    requires Writable(f)
    ensures Taken(BytesOf(f) + more) == [f] + Taken(more)
  {
    TakeBack(f, more);
  }

  lemma {:induction false} TakenNothing(f: Frame, k: nat)
    requires Writable(f) && k < |BytesOf(f)|
    ensures Taken(BytesOf(f)[..k]) == []
  {
    CutFrameWaits(f, k);
  }

  lemma {:induction false} WholeOn(fs: seq<Frame>, size: nat)
    requires fs != [] && AllWritable(fs) && |BytesOf(fs[0])| <= size
    ensures var n := Whole(fs[1..], size - |BytesOf(fs[0])|);
      Whole(fs, size) == 1 + n && fs[..1 + n] == [fs[0]] + fs[1..][..n]
  {
  }

  /** The client takes the frames that have arrived to their ends, and no others. */
  lemma {:induction false} TakenExactly(fs: seq<Frame>, b: Bytes)
    requires AllWritable(fs) && b <= WireBytes(fs)
    ensures Taken(b) == fs[..Whole(fs, |b|)]
  {
    if fs == [] {
      assert ParseVarInt([]) == Incomplete;
    } else {
      var first := BytesOf(fs[0]);
      if |b| < |first| {
        assert b == first[..|b|];
        TakenNothing(fs[0], |b|);
      } else {
        var more := b[|first|..];
        BehindFirst(first, WireBytes(fs[1..]), b);
        TakenOn(fs[0], more);
        TakenExactly(fs[1..], more);
        WholeOn(fs, |b|);
      }
    }
  }

  lemma {:induction false} AllWhole(fs: seq<Frame>)
    requires AllWritable(fs)
    ensures Whole(fs, |WireBytes(fs)|) == |fs|
  {
    if fs != [] {
      AllWhole(fs[1..]);
    }
  }

  // ---- Packets and what they say ----

  /** packets.hpp writes this packet by hand; what its payload says is a parameter. */
  const PLAYER_INFO := PacketType(0x33, [FTailBytes])

  /** The packets a client can be sent: those of the login until its success, then those of play. */
  function Table(play: bool): seq<PacketType> {
    if play then PLAY_CLIENTBOUND[..14] + [PLAYER_INFO] + PLAY_CLIENTBOUND[14..] else LOGIN_CLIENTBOUND
  }

  lemma {:induction false} TableAscends(play: bool)
    ensures Ascending(Table(play))
  {
    if play {
      ClientboundIdsAscend();
      assert PLAY_CLIENTBOUND[13] == PLAYER_ABILITIES_SERVER && PLAY_CLIENTBOUND[14] == PLAYER_POSITION_LOOK_SERVER;
    } else {
      LoginIdsAscend();
    }
  }

  lemma {:induction false} NotInTable(table: seq<PacketType>, id: Int32)
    requires Ascending(table) && table != [] && id < table[0].id
    ensures Find(table, id) == None
  {
    FindIsIn(table, id);
    if Find(table, id).Some? {
      var i :| 0 <= i < |table| && table[i].id == id;
      if i > 0 {
        FirstIsLeast(table, i);
      }
    }
  }

  /** How bit patterns and the payload of the player list read. */
  datatype Senses = Senses(toReal: nat -> real, info: Bytes -> Client.Packet)

  function Number(p: PacketType, vs: seq<Value>, i: nat): int
    requires FitAll(p.fields, vs) && i < |p.fields| && (p.fields[i].FInt? || p.fields[i].FVarInt?)
  {
    Kinds(p.fields, vs, i);
    vs[i].n
  }

  function Destroyed(vs: seq<Value>): seq<Client.Packet>
    requires FitAll(DESTROY_ENTITIES.fields, vs)
  {
    assert Fits(DESTROY_ENTITIES.fields[0], vs[0]);
    var ids := vs[0].elems;
    seq(|ids|, i requires 0 <= i < |ids| => assert ids[i] in ids; Client.DestroyEntity(ids[i].n))
  }

  function OfOneself(p: PacketType, vs: seq<Value>, s: Senses): seq<Client.Packet>
    requires FitAll(p.fields, vs)
  {
    if p == LOGIN_SUCCESS then
      Kinds(p.fields, vs, 1);
      [Client.LoginSuccess(Text(vs[1].bytes))]
    else if p == JOIN_GAME then [Client.JoinGame(Number(p, vs, 0))]
    else if p == PLUGIN_MESSAGE_SERVER then [Client.PluginMessage]
    else if p == PLAYER_ABILITIES_SERVER then [Client.PlayerAbilities]
    else if p == HELD_ITEM_CHANGE_SERVER then [Client.HeldItemChange]
    else if p == PLAYER_INFO then
      assert Fits(p.fields[0], vs[0]);
      [s.info(vs[0].bytes)]
    else if p == SPAWN_POSITION then [Client.SpawnPosition]
    else if p == PLAYER_POSITION_LOOK_SERVER then
      [Client.PlayerPositionLook(PositionIn(p, vs, 0, s.toReal), Number(p, vs, 6))]
    else if p == DISCONNECT || p == DISCONNECT_LOGIN then [Client.Disconnect]
    else []
  }

  function OfChunks(p: PacketType, vs: seq<Value>): seq<Client.Packet>
    requires FitAll(p.fields, vs)
  {
    if p == CHUNK_DATA then [Client.ChunkData(ChunkCoord(Number(p, vs, 0), Number(p, vs, 1)))]
    else if p == UNLOAD_CHUNK then [Client.UnloadChunk(ChunkCoord(Number(p, vs, 0), Number(p, vs, 1)))]
    else if p == UPDATE_VIEW_POSITION then [Client.UpdateViewPosition(ChunkCoord(Number(p, vs, 0), Number(p, vs, 1)))]
    else []
  }

  function OfEntities(p: PacketType, vs: seq<Value>, s: Senses): seq<Client.Packet>
    requires FitAll(p.fields, vs)
  {
    if p == SPAWN_PLAYER then [Client.SpawnPlayer(Number(p, vs, 0), PositionIn(p, vs, 2, s.toReal))]
    else if p == ENTITY_MOVE || p == ENTITY_MOVE_ROTATION then
      [Client.EntityMove(Number(p, vs, 0), Number(p, vs, 1), Number(p, vs, 2), Number(p, vs, 3),
          p == ENTITY_MOVE_ROTATION)]
    else if p == ENTITY_TELEPORT then [Client.EntityTeleport(Number(p, vs, 0), PositionIn(p, vs, 1, s.toReal))]
    else if p == ENTITY_ROTATION then [Client.EntityRotation(Number(p, vs, 0))]
    else if p == ENTITY_HEAD_LOOK then [Client.EntityHeadLook(Number(p, vs, 0))]
    else if p == DESTROY_ENTITIES then Destroyed(vs)
    else []
  }

  /** What a packet says about the players. Chat, signs of life, animations, metadata and single
      blocks say nothing of them. */
  function Made(p: PacketType, vs: seq<Value>, s: Senses): seq<Client.Packet>
    requires FitAll(p.fields, vs)
  {
    OfOneself(p, vs, s) + OfChunks(p, vs) + OfEntities(p, vs, s)
  }

  function Followed(first: seq<Client.Packet>, then': Option<seq<Client.Packet>>): Option<seq<Client.Packet>> {
    match then'
    case Some(more) => Some(first + more)
    case None => None
  }

  /** A client makes sense of frames, one after the other; None if it cannot. */
  function Heard(play: bool, frames: seq<Frame>, s: Senses): Option<seq<Client.Packet>>
    decreases |frames|
  {
    if frames == [] then Some([])
    else match Find(Table(play), frames[0].id)
      case None => None
      case Some(p) =>
        ParsedPayloadFits(p.fields, frames[0].data);
        match ParsePayload(p.fields, frames[0].data)
        case None => None
        case Some(vs) => Followed(Made(p, vs, s), Heard(play || p == LOGIN_SUCCESS, frames[1..], s))
  }

  predicate Fit(said: seq<Said>) {
    forall i :: 0 <= i < |said| ==> FitAll(said[i].packet.fields, said[i].values)
  }

  /** serializePacket of each packet in turn. */
  function Framed(said: seq<Said>): (fs: seq<Frame>)
    requires Fit(said)
    ensures |fs| == |said|
  {
    seq(|said|, i requires 0 <= i < |said| =>
      Frame(said[i].packet.id, PayloadBytes(said[i].packet.fields, said[i].values)))
  }

  /** What the values said say, as long as the client is in the phase for each packet. */
  function Means(play: bool, said: seq<Said>, s: Senses): Option<seq<Client.Packet>>
    requires Fit(said)
    decreases |said|
  {
    if said == [] then Some([])
    else if said[0].packet !in Table(play) then None
    else
      assert FitAll(said[0].packet.fields, said[0].values);
      Followed(Made(said[0].packet, said[0].values, s), Means(play || said[0].packet == LOGIN_SUCCESS, said[1..], s))
  }

  lemma {:induction false} HeardFirst(play: bool, p: PacketType, vs: seq<Value>)
    requires p in Table(play) && FitAll(p.fields, vs)
    ensures Find(Table(play), p.id) == Some(p) && ParsePayload(p.fields, PayloadBytes(p.fields, vs)) == Some(vs)
  {
    TableAscends(play);
    FindExactly(Table(play), p);
    PayloadRoundTrip(p.fields, vs);
  }

  lemma {:induction false} HeardOn(play: bool, frames: seq<Frame>, p: PacketType, vs: seq<Value>, s: Senses)
    requires frames != [] && FitAll(p.fields, vs)
    requires Find(Table(play), frames[0].id) == Some(p) && ParsePayload(p.fields, frames[0].data) == Some(vs)
    ensures Heard(play, frames, s) == Followed(Made(p, vs, s), Heard(play || p == LOGIN_SUCCESS, frames[1..], s))
  {
  }

  lemma {:induction false} FramedRest(said: seq<Said>)
    requires said != [] && Fit(said)
    ensures Fit(said[1..]) && Framed(said)[1..] == Framed(said[1..])
  {
  }

  /** A client hears what was said to it. */
  lemma {:induction false} HeardAsSaid(play: bool, said: seq<Said>, s: Senses)
    requires Fit(said) && Means(play, said, s).Some?
    ensures Heard(play, Framed(said), s) == Means(play, said, s)
    decreases |said|
  {
    if said != [] {
      var p, vs := said[0].packet, said[0].values;
      assert FitAll(p.fields, vs);
      HeardFirst(play, p, vs);
      HeardOn(play, Framed(said), p, vs, s);
      FramedRest(said);
      HeardAsSaid(play || p == LOGIN_SUCCESS, said[1..], s);
    }
  }

  lemma {:induction false} FollowedBeginning(first: seq<Client.Packet>, a: seq<Client.Packet>, b: seq<Client.Packet>)
    requires a <= b
    ensures first + a <= first + b
  {
  }

  lemma {:induction false} MeansOn(play: bool, p: PacketType, vs: seq<Value>, more: seq<Said>, s: Senses)
    requires Fit(more) && FitAll(p.fields, vs)
    ensures var said := [Said(p, vs)] + more;
      && Fit(said)
      && Means(play, said, s)
         == if p in Table(play) then Followed(Made(p, vs, s), Means(play || p == LOGIN_SUCCESS, more, s)) else None
  {
    assert ([Said(p, vs)] + more)[1..] == more;
  }

  lemma {:induction false} MeansLonger(
      play: bool, p: PacketType, vs: seq<Value>, few: seq<Said>, more: seq<Said>, s: Senses)
    requires Fit(few) && Fit(more) && FitAll(p.fields, vs) && Means(play, [Said(p, vs)] + more, s).Some?
    requires var play' := play || p == LOGIN_SUCCESS;
      Means(play', more, s).Some? ==>
        Means(play', few, s).Some? && Means(play', few, s).value <= Means(play', more, s).value
    ensures Fit([Said(p, vs)] + few) && Means(play, [Said(p, vs)] + few, s).Some?
    ensures Means(play, [Said(p, vs)] + few, s).value <= Means(play, [Said(p, vs)] + more, s).value
  {
    var play' := play || p == LOGIN_SUCCESS;
    MeansOn(play, p, vs, more, s);
    MeansOn(play, p, vs, few, s);
    FollowedBeginning(Made(p, vs, s), Means(play', few, s).value, Means(play', more, s).value);
  }

  lemma {:induction false} FirstOfBoth(few: seq<Said>, rest: seq<Said>)
    requires few != [] && Fit(few) && Fit(rest)
    ensures Fit(few + rest) && FitAll(few[0].packet.fields, few[0].values) && Fit(few[1..]) && Fit(few[1..] + rest)
    ensures few == [Said(few[0].packet, few[0].values)] + few[1..]
    ensures few + rest == [Said(few[0].packet, few[0].values)] + (few[1..] + rest)
  {
  }

  lemma {:induction false} MeansFirst(play: bool, few: seq<Said>, rest: seq<Said>, s: Senses)
    requires Fit(few) && Fit(rest) && Means(play, few + rest, s).Some?
    ensures Means(play, few, s).Some? && Means(play, few, s).value <= Means(play, few + rest, s).value
    decreases |few|
  {
    if few != [] {
      FirstOfBoth(few, rest);
      var p, vs := few[0].packet, few[0].values;
      if Means(play || p == LOGIN_SUCCESS, few[1..] + rest, s).Some? {
        MeansFirst(play || p == LOGIN_SUCCESS, few[1..], rest, s);
      }
      MeansLonger(play, p, vs, few[1..], few[1..] + rest, s);
    }
  }

  /** The beginning of what is said means a beginning. */
  lemma {:induction false} MeansBeginning(play: bool, said: seq<Said>, n: nat, s: Senses)
    requires Fit(said) && Means(play, said, s).Some? && n <= |said|
    ensures Means(play, said[..n], s).Some? && Means(play, said[..n], s).value <= Means(play, said, s).value
  {
    assert said == said[..n] + said[n..];
    MeansFirst(play, said[..n], said[n..], s);
  }

  // ---- The packets one by one, by their ids and layouts ----

  lemma {:induction false} HeardNext(play: bool, p: PacketType, vs: seq<Value>, more: seq<Frame>, s: Senses)
    requires p in Table(play) && FitAll(p.fields, vs)
    ensures Heard(play, [Frame(p.id, PayloadBytes(p.fields, vs))] + more, s)
         == Followed(Made(p, vs, s), Heard(play || p == LOGIN_SUCCESS, more, s))
  {
    var frames := [Frame(p.id, PayloadBytes(p.fields, vs))] + more;
    HeardFirst(play, p, vs);
    HeardOn(play, frames, p, vs, s);
    assert frames[1..] == more;
  }

  predicate Numbers3(vs: seq<Value>, i: nat)
    requires i + 3 <= |vs|
  {
    && vs[i].IntV? && vs[i + 1].IntV? && vs[i + 2].IntV?
    && vs[i].n >= 0 && vs[i + 1].n >= 0 && vs[i + 2].n >= 0
  }

  function Position(vs: seq<Value>, i: nat, toReal: nat -> real): EntityCoord
    requires i + 3 <= |vs| && Numbers3(vs, i)
  {
    EntityCoord(toReal(vs[i].n), toReal(vs[i + 1].n), toReal(vs[i + 2].n))
  }

  lemma {:induction false} ThreeNumbers(p: PacketType, vs: seq<Value>, i: nat)
    requires FitAll(p.fields, vs) && i + 3 <= |p.fields|
    requires p.fields[i] == FFloat(8) && p.fields[i + 1] == FFloat(8) && p.fields[i + 2] == FFloat(8)
    ensures Numbers3(vs, i)
  {
    Kinds(p.fields, vs, i);
    Kinds(p.fields, vs, i + 1);
    Kinds(p.fields, vs, i + 2);
  }

  lemma {:induction false} InTable(p: PacketType)
    requires p in PLAY_CLIENTBOUND
    ensures p in Table(true)
  {
    var i :| 0 <= i < |PLAY_CLIENTBOUND| && PLAY_CLIENTBOUND[i] == p;
    assert Table(true)[if i < 14 then i else i + 1] == p;
  }

  lemma {:induction false} LoginInTable()
    ensures LOGIN_SUCCESS in Table(false)
  {
    assert Table(false)[1] == LOGIN_SUCCESS;
  }

  lemma {:induction false} InfoInTable()
    ensures PLAYER_INFO in Table(true)
  {
    assert Table(true)[14] == PLAYER_INFO;
  }

  lemma {:induction false} MadeSpawn(vs: seq<Value>, s: Senses)
    requires FitAll(SPAWN_PLAYER.fields, vs)
    ensures |vs| == 8 && Numbers3(vs, 2) && vs[0].IntV?
    ensures Made(SPAWN_PLAYER, vs, s) == [Client.SpawnPlayer(vs[0].n, Position(vs, 2, s.toReal))]
  {
    ThreeNumbers(SPAWN_PLAYER, vs, 2);
    Kinds(SPAWN_PLAYER.fields, vs, 0);
  }

  lemma {:induction false} HeardSpawn(vs: seq<Value>, more: seq<Frame>, s: Senses)
    requires FitAll([FVarInt, FUuid, FFloat(8), FFloat(8), FFloat(8), FUInt(1), FUInt(1), FMetadata], vs)
    ensures |vs| == 8 && Numbers3(vs, 2) && vs[0].IntV?
    ensures Heard(true, [Frame(0x05,
        PayloadBytes([FVarInt, FUuid, FFloat(8), FFloat(8), FFloat(8), FUInt(1), FUInt(1), FMetadata], vs))] + more, s)
         == Followed([Client.SpawnPlayer(vs[0].n, Position(vs, 2, s.toReal))], Heard(true, more, s))
  {
    MadeSpawn(vs, s);
    SpawnsListed();
    InTable(SPAWN_PLAYER);
    HeardNext(true, SPAWN_PLAYER, vs, more, s);
  }

  lemma {:induction false} MadeMove(vs: seq<Value>, s: Senses)
    requires FitAll(ENTITY_MOVE.fields, vs)
    ensures |vs| == 5 && vs[0].IntV? && vs[1].IntV? && vs[2].IntV? && vs[3].IntV?
    ensures Made(ENTITY_MOVE, vs, s) == [Client.EntityMove(vs[0].n, vs[1].n, vs[2].n, vs[3].n, false)]
  {
    Kinds(ENTITY_MOVE.fields, vs, 0);
    Kinds(ENTITY_MOVE.fields, vs, 1);
    Kinds(ENTITY_MOVE.fields, vs, 2);
    Kinds(ENTITY_MOVE.fields, vs, 3);
  }

  lemma {:induction false} HeardMove(vs: seq<Value>, more: seq<Frame>, s: Senses)
    requires FitAll([FVarInt, FInt(2), FInt(2), FInt(2), FBool], vs)
    ensures |vs| == 5 && vs[0].IntV? && vs[1].IntV? && vs[2].IntV? && vs[3].IntV?
    ensures Heard(true, [Frame(0x28, PayloadBytes([FVarInt, FInt(2), FInt(2), FInt(2), FBool], vs))] + more, s)
         == Followed([Client.EntityMove(vs[0].n, vs[1].n, vs[2].n, vs[3].n, false)], Heard(true, more, s))
  {
    MadeMove(vs, s);
    MovesListed();
    InTable(ENTITY_MOVE);
    HeardNext(true, ENTITY_MOVE, vs, more, s);
  }

  lemma {:induction false} MadeMoveRotation(vs: seq<Value>, s: Senses)
    requires FitAll(ENTITY_MOVE_ROTATION.fields, vs)
    ensures |vs| == 7 && vs[0].IntV? && vs[1].IntV? && vs[2].IntV? && vs[3].IntV?
    ensures Made(ENTITY_MOVE_ROTATION, vs, s) == [Client.EntityMove(vs[0].n, vs[1].n, vs[2].n, vs[3].n, true)]
  {
    Kinds(ENTITY_MOVE_ROTATION.fields, vs, 0);
    Kinds(ENTITY_MOVE_ROTATION.fields, vs, 1);
    Kinds(ENTITY_MOVE_ROTATION.fields, vs, 2);
    Kinds(ENTITY_MOVE_ROTATION.fields, vs, 3);
  }

  lemma {:induction false} HeardMoveRotation(vs: seq<Value>, more: seq<Frame>, s: Senses)
    requires FitAll([FVarInt, FInt(2), FInt(2), FInt(2), FUInt(1), FUInt(1), FBool], vs)
    ensures |vs| == 7 && vs[0].IntV? && vs[1].IntV? && vs[2].IntV? && vs[3].IntV?
    ensures Heard(true, [Frame(0x29, PayloadBytes([FVarInt, FInt(2), FInt(2), FInt(2), FUInt(1), FUInt(1), FBool], vs))]
        + more, s)
         == Followed([Client.EntityMove(vs[0].n, vs[1].n, vs[2].n, vs[3].n, true)], Heard(true, more, s))
  {
    MadeMoveRotation(vs, s);
    MovesListed();
    InTable(ENTITY_MOVE_ROTATION);
    HeardNext(true, ENTITY_MOVE_ROTATION, vs, more, s);
  }

  lemma {:induction false} MadeRotation(vs: seq<Value>, s: Senses)
    requires FitAll(ENTITY_ROTATION.fields, vs)
    ensures |vs| == 4 && vs[0].IntV?
    ensures Made(ENTITY_ROTATION, vs, s) == [Client.EntityRotation(vs[0].n)]
  {
    Kinds(ENTITY_ROTATION.fields, vs, 0);
  }

  lemma {:induction false} HeardRotation(vs: seq<Value>, more: seq<Frame>, s: Senses)
    requires FitAll([FVarInt, FUInt(1), FUInt(1), FBool], vs)
    ensures |vs| == 4 && vs[0].IntV?
    ensures Heard(true, [Frame(0x2a, PayloadBytes([FVarInt, FUInt(1), FUInt(1), FBool], vs))] + more, s)
         == Followed([Client.EntityRotation(vs[0].n)], Heard(true, more, s))
  {
    MadeRotation(vs, s);
    TurnsListed();
    InTable(ENTITY_ROTATION);
    HeardNext(true, ENTITY_ROTATION, vs, more, s);
  }

  lemma {:induction false} MadeHeadLook(vs: seq<Value>, s: Senses)
    requires FitAll(ENTITY_HEAD_LOOK.fields, vs)
    ensures |vs| == 2 && vs[0].IntV?
    ensures Made(ENTITY_HEAD_LOOK, vs, s) == [Client.EntityHeadLook(vs[0].n)]
  {
    Kinds(ENTITY_HEAD_LOOK.fields, vs, 0);
  }

  lemma {:induction false} HeardHeadLook(vs: seq<Value>, more: seq<Frame>, s: Senses)
    requires FitAll([FVarInt, FUInt(1)], vs)
    ensures |vs| == 2 && vs[0].IntV?
    ensures Heard(true, [Frame(0x3b, PayloadBytes([FVarInt, FUInt(1)], vs))] + more, s)
         == Followed([Client.EntityHeadLook(vs[0].n)], Heard(true, more, s))
  {
    MadeHeadLook(vs, s);
    TurnsListed();
    InTable(ENTITY_HEAD_LOOK);
    HeardNext(true, ENTITY_HEAD_LOOK, vs, more, s);
  }

  lemma {:induction false} MadeTeleport(vs: seq<Value>, s: Senses)
    requires FitAll(ENTITY_TELEPORT.fields, vs)
    ensures |vs| == 7 && Numbers3(vs, 1) && vs[0].IntV?
    ensures Made(ENTITY_TELEPORT, vs, s) == [Client.EntityTeleport(vs[0].n, Position(vs, 1, s.toReal))]
  {
    ThreeNumbers(ENTITY_TELEPORT, vs, 1);
    Kinds(ENTITY_TELEPORT.fields, vs, 0);
  }

  lemma {:induction false} HeardTeleport(vs: seq<Value>, more: seq<Frame>, s: Senses)
    requires FitAll([FVarInt, FFloat(8), FFloat(8), FFloat(8), FUInt(1), FUInt(1), FBool], vs)
    ensures |vs| == 7 && Numbers3(vs, 1) && vs[0].IntV?
    ensures Heard(true, [Frame(0x56,
        PayloadBytes([FVarInt, FFloat(8), FFloat(8), FFloat(8), FUInt(1), FUInt(1), FBool], vs))] + more, s)
         == Followed([Client.EntityTeleport(vs[0].n, Position(vs, 1, s.toReal))], Heard(true, more, s))
  {
    MadeTeleport(vs, s);
    SpawnsListed();
    InTable(ENTITY_TELEPORT);
    HeardNext(true, ENTITY_TELEPORT, vs, more, s);
  }

  lemma {:induction false} MadeChunk(vs: seq<Value>, s: Senses)
    requires FitAll(CHUNK_DATA.fields, vs)
    ensures |vs| == 7 && vs[0].IntV? && vs[1].IntV?
    ensures Made(CHUNK_DATA, vs, s) == [Client.ChunkData(ChunkCoord(vs[0].n, vs[1].n))]
  {
    Kinds(CHUNK_DATA.fields, vs, 0);
    Kinds(CHUNK_DATA.fields, vs, 1);
  }

  lemma {:induction false} HeardChunk(vs: seq<Value>, more: seq<Frame>, s: Senses)
    requires FitAll([FInt(4), FInt(4), FBool, FVarInt, FNbt, FVarBytes, FArray(FNbt)], vs)
    ensures |vs| == 7 && vs[0].IntV? && vs[1].IntV?
    ensures Heard(true, [Frame(0x21,
        PayloadBytes([FInt(4), FInt(4), FBool, FVarInt, FNbt, FVarBytes, FArray(FNbt)], vs))] + more, s)
         == Followed([Client.ChunkData(ChunkCoord(vs[0].n, vs[1].n))], Heard(true, more, s))
  {
    MadeChunk(vs, s);
    ChunksListed();
    InTable(CHUNK_DATA);
    HeardNext(true, CHUNK_DATA, vs, more, s);
  }

  lemma {:induction false} MadeUnload(vs: seq<Value>, s: Senses)
    requires FitAll(UNLOAD_CHUNK.fields, vs)
    ensures |vs| == 2 && vs[0].IntV? && vs[1].IntV?
    ensures Made(UNLOAD_CHUNK, vs, s) == [Client.UnloadChunk(ChunkCoord(vs[0].n, vs[1].n))]
  {
    Kinds(UNLOAD_CHUNK.fields, vs, 0);
    Kinds(UNLOAD_CHUNK.fields, vs, 1);
  }

  lemma {:induction false} HeardUnload(vs: seq<Value>, more: seq<Frame>, s: Senses)
    requires FitAll([FInt(4), FInt(4)], vs)
    ensures |vs| == 2 && vs[0].IntV? && vs[1].IntV?
    ensures Heard(true, [Frame(0x1d, PayloadBytes([FInt(4), FInt(4)], vs))] + more, s)
         == Followed([Client.UnloadChunk(ChunkCoord(vs[0].n, vs[1].n))], Heard(true, more, s))
  {
    MadeUnload(vs, s);
    ChunksListed();
    InTable(UNLOAD_CHUNK);
    HeardNext(true, UNLOAD_CHUNK, vs, more, s);
  }

  lemma {:induction false} MadeViewPosition(vs: seq<Value>, s: Senses)
    requires FitAll(UPDATE_VIEW_POSITION.fields, vs)
    ensures |vs| == 2 && vs[0].IntV? && vs[1].IntV?
    ensures Made(UPDATE_VIEW_POSITION, vs, s) == [Client.UpdateViewPosition(ChunkCoord(vs[0].n, vs[1].n))]
  {
    Kinds(UPDATE_VIEW_POSITION.fields, vs, 0);
    Kinds(UPDATE_VIEW_POSITION.fields, vs, 1);
  }

  lemma {:induction false} HeardViewPosition(vs: seq<Value>, more: seq<Frame>, s: Senses)
    requires FitAll([FVarInt, FVarInt], vs)
    ensures |vs| == 2 && vs[0].IntV? && vs[1].IntV?
    ensures Heard(true, [Frame(0x40, PayloadBytes([FVarInt, FVarInt], vs))] + more, s)
         == Followed([Client.UpdateViewPosition(ChunkCoord(vs[0].n, vs[1].n))], Heard(true, more, s))
  {
    MadeViewPosition(vs, s);
    ChunksListed();
    InTable(UPDATE_VIEW_POSITION);
    HeardNext(true, UPDATE_VIEW_POSITION, vs, more, s);
  }

  lemma {:induction false} MadeJoinGame(vs: seq<Value>, s: Senses)
    requires FitAll(JOIN_GAME.fields, vs)
    ensures |vs| == 7 && vs[0].IntV?
    ensures Made(JOIN_GAME, vs, s) == [Client.JoinGame(vs[0].n)]
  {
    Kinds(JOIN_GAME.fields, vs, 0);
  }

  lemma {:induction false} HeardJoinGame(vs: seq<Value>, more: seq<Frame>, s: Senses)
    requires FitAll([FInt(4), FUInt(1), FInt(4), FUInt(1), FString, FVarInt, FBool], vs)
    ensures |vs| == 7 && vs[0].IntV?
    ensures Heard(true, [Frame(0x25, PayloadBytes([FInt(4), FUInt(1), FInt(4), FUInt(1), FString, FVarInt, FBool], vs))]
        + more, s)
         == Followed([Client.JoinGame(vs[0].n)], Heard(true, more, s))
  {
    MadeJoinGame(vs, s);
    OwnListed();
    InTable(JOIN_GAME);
    HeardNext(true, JOIN_GAME, vs, more, s);
  }

  lemma {:induction false} MadePositionLook(vs: seq<Value>, s: Senses)
    requires FitAll(PLAYER_POSITION_LOOK_SERVER.fields, vs)
    ensures |vs| == 7 && Numbers3(vs, 0) && vs[6].IntV?
    ensures Made(PLAYER_POSITION_LOOK_SERVER, vs, s) == [Client.PlayerPositionLook(Position(vs, 0, s.toReal), vs[6].n)]
  {
    ThreeNumbers(PLAYER_POSITION_LOOK_SERVER, vs, 0);
    Kinds(PLAYER_POSITION_LOOK_SERVER.fields, vs, 6);
  }

  lemma {:induction false} HeardPositionLook(vs: seq<Value>, more: seq<Frame>, s: Senses)
    requires FitAll([FFloat(8), FFloat(8), FFloat(8), FFloat(4), FFloat(4), FInt(1), FVarInt], vs)
    ensures |vs| == 7 && Numbers3(vs, 0) && vs[6].IntV?
    ensures Heard(true, [Frame(0x35,
        PayloadBytes([FFloat(8), FFloat(8), FFloat(8), FFloat(4), FFloat(4), FInt(1), FVarInt], vs))] + more, s)
         == Followed([Client.PlayerPositionLook(Position(vs, 0, s.toReal), vs[6].n)], Heard(true, more, s))
  {
    MadePositionLook(vs, s);
    OwnListed();
    InTable(PLAYER_POSITION_LOOK_SERVER);
    HeardNext(true, PLAYER_POSITION_LOOK_SERVER, vs, more, s);
  }

  lemma {:induction false} MadeDestroy(id: Int32, s: Senses)
    ensures FitAll([FArray(FVarInt)], [ArrayV([IntV(id)])])
    ensures Made(DESTROY_ENTITIES, [ArrayV([IntV(id)])], s) == [Client.DestroyEntity(id)]
  {
    assert Fits(FVarInt, IntV(id));
    assert Destroyed([ArrayV([IntV(id)])]) == [Client.DestroyEntity(id)];
  }

  lemma {:induction false} HeardDestroy(id: Int32, more: seq<Frame>, s: Senses)
    ensures FitAll([FArray(FVarInt)], [ArrayV([IntV(id)])])
    ensures Heard(true, [Frame(0x37, PayloadBytes([FArray(FVarInt)], [ArrayV([IntV(id)])]))] + more, s)
         == Followed([Client.DestroyEntity(id)], Heard(true, more, s))
  {
    MadeDestroy(id, s);
    SpawnsListed();
    InTable(DESTROY_ENTITIES);
    HeardNext(true, DESTROY_ENTITIES, [ArrayV([IntV(id)])], more, s);
  }

  lemma {:induction false} MadeLoginSuccess(vs: seq<Value>, s: Senses)
    requires FitAll(LOGIN_SUCCESS.fields, vs)
    ensures |vs| == 2 && vs[1].BytesV?
    ensures Made(LOGIN_SUCCESS, vs, s) == [Client.LoginSuccess(Text(vs[1].bytes))]
  {
    Kinds(LOGIN_SUCCESS.fields, vs, 1);
  }

  /** The success of a login, its name behind its uuid, is what puts a client into play. */
  lemma {:induction false} HeardLoginSuccess(vs: seq<Value>, more: seq<Frame>, s: Senses)
    requires FitAll([FString, FString], vs)
    ensures |vs| == 2 && vs[1].BytesV?
    ensures Heard(false, [Frame(0x02, PayloadBytes([FString, FString], vs))] + more, s)
         == Followed([Client.LoginSuccess(Text(vs[1].bytes))], Heard(true, more, s))
  {
    MadeLoginSuccess(vs, s);
    LoginInTable();
    HeardNext(false, LOGIN_SUCCESS, vs, more, s);
  }

  lemma {:induction false} MadeInfo(payload: Bytes, s: Senses)
    ensures Made(PLAYER_INFO, [BytesV(payload)], s) == [s.info(payload)]
    ensures PayloadBytes(PLAYER_INFO.fields, [BytesV(payload)]) == payload
  {
    OneField(FTailBytes, BytesV(payload));
  }

  /** News of the player list is as its payload reads. */
  lemma {:induction false} HeardInfo(payload: Bytes, more: seq<Frame>, s: Senses)
    ensures Heard(true, [Frame(0x33, payload)] + more, s) == Followed([s.info(payload)], Heard(true, more, s))
  {
    MadeInfo(payload, s);
    InfoInTable();
    HeardNext(true, PLAYER_INFO, [BytesV(payload)], more, s);
  }

  /** The ids whose packets say something of the players, or at least that something happened. */
  predicate Telling(id: Int32) {
    || id == 0x00 || id == 0x02 || id == 0x05 || id == 0x18 || id == 0x1a || id == 0x1d || id == 0x21 || id == 0x25
    || id == 0x28 || id == 0x29 || id == 0x2a || id == 0x31 || id == 0x33 || id == 0x35 || id == 0x37 || id == 0x3b
    || id == 0x3f || id == 0x40 || id == 0x4d || id == 0x56
  }

  /** All others, such as chat, signs of life and metadata, say nothing. */
  lemma {:induction false} MadeNothing(p: PacketType, vs: seq<Value>, s: Senses)
    requires FitAll(p.fields, vs) && !Telling(p.id)
    ensures Made(p, vs, s) == []
  {
  }

  lemma {:induction false} MadeGreeting(vs: seq<Value>, s: Senses)
    ensures FitAll([FString, FTailBytes], vs) ==>
      Made(PacketType(0x18, [FString, FTailBytes]), vs, s) == [Client.PluginMessage]
    ensures FitAll([FUInt(1), FFloat(4), FFloat(4)], vs) ==>
      Made(PacketType(0x31, [FUInt(1), FFloat(4), FFloat(4)]), vs, s) == [Client.PlayerAbilities]
    ensures FitAll([FInt(1)], vs) ==> Made(PacketType(0x3f, [FInt(1)]), vs, s) == [Client.HeldItemChange]
  {
  }

  lemma {:induction false} MadePlain(vs: seq<Value>, s: Senses)
    ensures FitAll([FUInt(8)], vs) ==> Made(PacketType(0x4d, [FUInt(8)]), vs, s) == [Client.SpawnPosition]
  {
  }

  lemma {:induction false} MadeRefusal(vs: seq<Value>, s: Senses)
    ensures FitAll([FString], vs) ==> Made(PacketType(0x1a, [FString]), vs, s) == [Client.Disconnect]
    ensures FitAll([FString], vs) ==> Made(PacketType(0x00, [FString]), vs, s) == [Client.Disconnect]
  {
  }

  // ---- From the connection to the client ----

  lemma {:induction false} FramedBeginning(said: seq<Said>, n: nat)
    requires Fit(said) && n <= |said|
    ensures Fit(said[..n]) && Framed(said)[..n] == Framed(said[..n])
  {
  }

  /** Whatever a connection was given to send and however its writes went, without failing, the
      client has heard the packets that are whole in what was written, these say a beginning of what
      was said, and all of it once the connection is idle. */
  lemma {:induction false} ClientHears(es: seq<WriteQueue.Event>, said: seq<Said>, s: Senses)
    requires Fit(said) && AllWritable(Framed(said)) && Means(false, said, s).Some?
    requires WriteQueue.HealthyRun(WriteQueue.FRESH_CONN, es)
    requires WriteQueue.Accepted(WriteQueue.FRESH_CONN, es) == WireBytes(Framed(said))
    ensures var c := WriteQueue.RunFrom(WriteQueue.FRESH_CONN, es);
      var n := Whole(Framed(said), |c.written|);
      && Heard(false, Taken(c.written), s) == Means(false, said[..n], s)
      && Means(false, said[..n], s).Some?
      && Means(false, said[..n], s).value <= Means(false, said, s).value
      && (!c.closed && c.active == [] && c.strand == [] ==> n == |said|)
  {
    var c := WriteQueue.RunFrom(WriteQueue.FRESH_CONN, es);
    var n := Whole(Framed(said), |c.written|);
    WriteQueue.WrittenIsBeginning(es);
    TakenExactly(Framed(said), c.written);
    FramedBeginning(said, n);
    MeansBeginning(false, said, n, s);
    HeardAsSaid(false, said[..n], s);
    WriteQueue.IdleWroteAll(es);
    AllWhole(Framed(said));
  }

  lemma {:induction false} WholeAtLeast(fs: seq<Frame>, m: nat, size: nat)
    requires AllWritable(fs) && m <= |fs| && |WireBytes(fs[..m])| <= size
    ensures m <= Whole(fs, size)
  {
    if m != 0 {
      assert fs[..m][0] == fs[0] && fs[..m][1..] == fs[1..][..m - 1];
      WholeAtLeast(fs[1..], m - 1, size - |BytesOf(fs[0])|);
    }
  }

  /** The client of a closed connection has heard at least the packets sent before the first call of
      disconnect. */
  lemma {:induction false} ClosedHeard(es: seq<WriteQueue.Event>, fs: seq<Frame>, m: nat)
    requires AllWritable(fs) && m <= |fs| && WriteQueue.HealthyRun(WriteQueue.FRESH_CONN, es)
    requires WriteQueue.SentBefore(es) == WireBytes(fs[..m])
    requires WriteQueue.RunFrom(WriteQueue.FRESH_CONN, es).closed
    ensures m <= Whole(fs, |WriteQueue.RunFrom(WriteQueue.FRESH_CONN, es).written|)
  {
    WriteQueue.DisconnectFlushes(es);
    WholeAtLeast(fs, m, |WriteQueue.RunFrom(WriteQueue.FRESH_CONN, es).written|);
  }

  /** A refusal is a DisconnectLogin in every phase but play (statemachine.hpp:118-135), also between
      the login success and play, as for a confirmation of an id that is not outstanding
      (statemachine.cpp:182). A client that has had its login success has no packet with that id, and
      makes nothing of it or of anything behind it. */
  lemma {:induction false} LateRefusalUnheard(payload: Bytes, more: seq<Frame>, s: Senses)
    ensures Heard(true, [Frame(DISCONNECT_LOGIN.id, payload)] + more, s) == None
  {
    TableAscends(true);
    assert Table(true)[0] == SPAWN_PLAYER;
    NotInTable(Table(true), DISCONNECT_LOGIN.id);
  }
}
