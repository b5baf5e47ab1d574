/** The packets of source/proxyd/packets.def, each an id and its fields in order. */
module PacketTable {
  import opened Numbers
  import opened Schema

  type PacketSchema = fs: seq<Field> | WellFormed(fs) witness []

  datatype PacketType = PacketType(id: Int32, fields: PacketSchema)

  /** The server has a reader for every field. */
  predicate Readable(p: PacketType) {
    forall i :: 0 <= i < |p.fields| ==> HasReader(p.fields[i])
  }

  function Serverbound(id: Int32, fields: PacketSchema): (p: PacketType)
    requires Readable(PacketType(id, fields))
    ensures Readable(p)
  {
    PacketType(id, fields)
  }

  // Serverbound.

  const HANDSHAKE := Serverbound(0x00, [FVarInt, FString, FInt(2), FVarInt])
  const LOGIN_START := Serverbound(0x00, [FString])
  const TELEPORT_CONFIRM := Serverbound(0x00, [FVarInt])
  const CHAT_CLIENT := Serverbound(0x03, [FString])
  const CLIENT_SETTINGS := Serverbound(0x05, [FString, FInt(1), FVarInt, FBool, FUInt(1), FVarInt])
  const CLOSE_WINDOW_CLIENT := Serverbound(0x0a, [FUInt(1)])
  const PLUGIN_MESSAGE_CLIENT := Serverbound(0x0b, [FString, FTailBytes])
  const INTERACT_ENTITY := Serverbound(0x0e, [FVarInt, FVarInt, FTailBytes])
  const KEEP_ALIVE_CLIENT := Serverbound(0x0f, [FInt(8)])
  const PLAYER_POSITION := Serverbound(0x11, [FFloat(8), FFloat(8), FFloat(8), FBool])
  const PLAYER_POSITION_ROTATION_CLIENT := Serverbound(0x12,
      [FFloat(8), FFloat(8), FFloat(8), FFloat(4), FFloat(4), FBool])
  const PLAYER_ROTATION := Serverbound(0x13, [FFloat(4), FFloat(4), FBool])
  const PLAYER_MOVEMENT := Serverbound(0x14, [FBool])
  const PLAYER_ABILITIES_CLIENT := Serverbound(0x19, [FUInt(1), FFloat(4), FFloat(4)])
  const PLAYER_DIGGING := Serverbound(0x1a, [FVarInt, FUInt(8), FInt(1)])
  const ENTITY_ACTION := Serverbound(0x1b, [FVarInt, FVarInt, FVarInt])
  const HELD_ITEM_CHANGE_CLIENT := Serverbound(0x23, [FInt(2)])
  const ANIMATION_CLIENT := Serverbound(0x2a, [FVarInt])
  const USE_ITEM := Serverbound(0x2d, [FVarInt])

  // Clientbound.

  const DISCONNECT_LOGIN := PacketType(0x00, [FString])
  const LOGIN_SUCCESS := PacketType(0x02, [FString, FString])
  const SPAWN_PLAYER := PacketType(0x05,
      [FVarInt, FUuid, FFloat(8), FFloat(8), FFloat(8), FUInt(1), FUInt(1), FMetadata])
  const ENTITY_ANIMATION := PacketType(0x06, [FVarInt, FUInt(1)])
  const BLOCK_CHANGE := PacketType(0x0b, [FUInt(8), FVarInt])
  const CHAT_SERVER := PacketType(0x0e, [FString, FInt(1)])
  const PLUGIN_MESSAGE_SERVER := PacketType(0x18, [FString, FTailBytes])
  const DISCONNECT := PacketType(0x1a, [FString])
  const UNLOAD_CHUNK := PacketType(0x1d, [FInt(4), FInt(4)])
  const KEEP_ALIVE_SERVER := PacketType(0x20, [FInt(8)])
  const CHUNK_DATA := PacketType(0x21, [FInt(4), FInt(4), FBool, FVarInt, FNbt, FVarBytes, FArray(FNbt)])
  const JOIN_GAME := PacketType(0x25, [FInt(4), FUInt(1), FInt(4), FUInt(1), FString, FVarInt, FBool])
  const ENTITY_MOVE := PacketType(0x28, [FVarInt, FInt(2), FInt(2), FInt(2), FBool])
  const ENTITY_MOVE_ROTATION := PacketType(0x29, [FVarInt, FInt(2), FInt(2), FInt(2), FUInt(1), FUInt(1), FBool])
  const ENTITY_ROTATION := PacketType(0x2a, [FVarInt, FUInt(1), FUInt(1), FBool])
  const PLAYER_ABILITIES_SERVER := PacketType(0x31, [FUInt(1), FFloat(4), FFloat(4)])
  const PLAYER_POSITION_LOOK_SERVER := PacketType(0x35,
      [FFloat(8), FFloat(8), FFloat(8), FFloat(4), FFloat(4), FInt(1), FVarInt])
  const DESTROY_ENTITIES := PacketType(0x37, [FArray(FVarInt)])
  const ENTITY_HEAD_LOOK := PacketType(0x3b, [FVarInt, FUInt(1)])
  const HELD_ITEM_CHANGE_SERVER := PacketType(0x3f, [FInt(1)])
  const UPDATE_VIEW_POSITION := PacketType(0x40, [FVarInt, FVarInt])
  const ENTITY_METADATA := PacketType(0x43, [FVarInt, FMetadata])
  const SPAWN_POSITION := PacketType(0x4d, [FUInt(8)])
  const ENTITY_TELEPORT := PacketType(0x56, [FVarInt, FFloat(8), FFloat(8), FFloat(8), FUInt(1), FUInt(1), FBool])

  // By phase and direction.

  const HANDSHAKE_SERVERBOUND := [HANDSHAKE]
  const LOGIN_SERVERBOUND := [LOGIN_START]
  const PLAY_SERVERBOUND := [
    TELEPORT_CONFIRM, CHAT_CLIENT, CLIENT_SETTINGS, CLOSE_WINDOW_CLIENT, PLUGIN_MESSAGE_CLIENT, INTERACT_ENTITY,
    KEEP_ALIVE_CLIENT, PLAYER_POSITION, PLAYER_POSITION_ROTATION_CLIENT, PLAYER_ROTATION, PLAYER_MOVEMENT,
    PLAYER_ABILITIES_CLIENT, PLAYER_DIGGING, ENTITY_ACTION, HELD_ITEM_CHANGE_CLIENT, ANIMATION_CLIENT, USE_ITEM]

  const LOGIN_CLIENTBOUND := [DISCONNECT_LOGIN, LOGIN_SUCCESS]
  const PLAY_CLIENTBOUND := [
    SPAWN_PLAYER, ENTITY_ANIMATION, BLOCK_CHANGE, CHAT_SERVER, PLUGIN_MESSAGE_SERVER, DISCONNECT, UNLOAD_CHUNK,
    KEEP_ALIVE_SERVER, CHUNK_DATA, JOIN_GAME, ENTITY_MOVE, ENTITY_MOVE_ROTATION, ENTITY_ROTATION,
    PLAYER_ABILITIES_SERVER, PLAYER_POSITION_LOOK_SERVER, DESTROY_ENTITIES, ENTITY_HEAD_LOOK, HELD_ITEM_CHANGE_SERVER,
    UPDATE_VIEW_POSITION, ENTITY_METADATA, SPAWN_POSITION, ENTITY_TELEPORT]

  predicate IsServerbound(table: seq<PacketType>) {
    table == HANDSHAKE_SERVERBOUND || table == LOGIN_SERVERBOUND || table == PLAY_SERVERBOUND
  }

  predicate IsClientbound(table: seq<PacketType>) {
    table == LOGIN_CLIENTBOUND || table == PLAY_CLIENTBOUND
  }

  predicate Ascending(table: seq<PacketType>) {
    forall i :: 0 < i < |table| ==> table[i - 1].id < table[i].id
  }

  /** A switch over the ids of a table. */
  function Find(table: seq<PacketType>, id: Int32): Option<PacketType> {
    if table == [] then None else if table[0].id == id then Some(table[0]) else Find(table[1..], id)
  }

  lemma {:induction false} FirstIsLeast(table: seq<PacketType>, i: nat)
    requires Ascending(table) && 0 < i < |table|
    ensures table[0].id < table[i].id
  {
    if i > 1 {
      FirstIsLeast(table, i - 1);
    }
  }

  /** With ascending ids every packet is found by its own, and only by that. */
  lemma {:induction false} FindExactly(table: seq<PacketType>, p: PacketType)
    requires Ascending(table)
    ensures p in table <==> Find(table, p.id) == Some(p)
  {
    if table != [] {
      assert forall i :: 0 <= i < |table[1..]| ==> table[1..][i] == table[i + 1];
      FindExactly(table[1..], p);
      if p in table[1..] {
        var i :| 0 < i < |table| && table[i] == p;
        FirstIsLeast(table, i);
      }
    }
  }

  lemma {:induction false} LoginIdsAscend()
    ensures Ascending(HANDSHAKE_SERVERBOUND) && Ascending(LOGIN_SERVERBOUND) && Ascending(LOGIN_CLIENTBOUND)
  {
  }

  lemma {:induction false} ServerboundIdsAscend()
    ensures Ascending(PLAY_SERVERBOUND)
  {
  }

  lemma {:induction false} ClientboundIdsAscend()
    ensures Ascending(PLAY_CLIENTBOUND)
  {
  }

  /** Within a phase and a direction no two packets share an id. */
  lemma {:induction false} IdsAscend(table: seq<PacketType>)
    requires IsServerbound(table) || IsClientbound(table)
    ensures Ascending(table)
  {
    LoginIdsAscend();
    ServerboundIdsAscend();
    ClientboundIdsAscend();
  }

  /** No packet the server receives has a field that it cannot read. */
  lemma {:induction false} ServerboundIsReadable(table: seq<PacketType>, p: PacketType)
    requires IsServerbound(table) && p in table
    ensures Readable(p)
  {
  }

  /** Whatever the server accepts for an id of a serverbound table, the packet is the one the table
      has for that id, every value fits its field, and sending the values on and reading them
      again gives the same packet and values. */
  lemma {:induction false} AcceptedPacketsReparse(table: seq<PacketType>, id: Int32, b: Bytes)
    requires IsServerbound(table)
    ensures match Find(table, id)
            case Some(p) => (
              && p in table && p.id == id
              && match ParsePayload(p.fields, b)
                 case Some(vs) => FitAll(p.fields, vs) && ParsePayload(p.fields, PayloadBytes(p.fields, vs)) == Some(vs)
                 case None => true)
            case None => forall p :: p in table ==> p.id != id
  {
    IdsAscend(table);
    FindIsIn(table, id);
    forall p | p in table
      ensures Find(table, p.id) == Some(p)
    {
      FindExactly(table, p);
    }
    if Find(table, id).Some? {
      Reparse(Find(table, id).value.fields, b);
    }
  }

  lemma {:induction false} FindIsIn(table: seq<PacketType>, id: Int32)
    ensures Find(table, id).Some? ==> Find(table, id).value in table && Find(table, id).value.id == id
  {
    if table != [] {
      FindIsIn(table[1..], id);
    }
  }

  /** Whatever the server sends of a clientbound table, a client that looks the id up in it and
      reads the layout back gets the packet and its values. */
  lemma {:induction false} SentPacketsParse(table: seq<PacketType>, p: PacketType, vs: seq<Value>)
    requires IsClientbound(table) && p in table && FitAll(p.fields, vs)
    ensures Find(table, p.id) == Some(p) && ParsePayload(p.fields, PayloadBytes(p.fields, vs)) == Some(vs)
  {
    IdsAscend(table);
    FindExactly(table, p);
    PayloadRoundTrip(p.fields, vs);
  }

  lemma {:induction false} MovesListed()
    ensures ENTITY_MOVE in PLAY_CLIENTBOUND && ENTITY_MOVE_ROTATION in PLAY_CLIENTBOUND
  {
    assert PLAY_CLIENTBOUND[10] == ENTITY_MOVE && PLAY_CLIENTBOUND[11] == ENTITY_MOVE_ROTATION;
  }

  lemma {:induction false} TurnsListed()
    ensures ENTITY_ROTATION in PLAY_CLIENTBOUND && ENTITY_HEAD_LOOK in PLAY_CLIENTBOUND
  {
    assert PLAY_CLIENTBOUND[12] == ENTITY_ROTATION && PLAY_CLIENTBOUND[16] == ENTITY_HEAD_LOOK;
  }

  lemma {:induction false} SpawnsListed()
    ensures SPAWN_PLAYER in PLAY_CLIENTBOUND && ENTITY_TELEPORT in PLAY_CLIENTBOUND
        && DESTROY_ENTITIES in PLAY_CLIENTBOUND
  {
    assert PLAY_CLIENTBOUND[0] == SPAWN_PLAYER && PLAY_CLIENTBOUND[21] == ENTITY_TELEPORT;
    assert PLAY_CLIENTBOUND[15] == DESTROY_ENTITIES;
  }

  lemma {:induction false} ChunksListed()
    ensures CHUNK_DATA in PLAY_CLIENTBOUND && UNLOAD_CHUNK in PLAY_CLIENTBOUND
        && UPDATE_VIEW_POSITION in PLAY_CLIENTBOUND
  {
    assert PLAY_CLIENTBOUND[8] == CHUNK_DATA && PLAY_CLIENTBOUND[6] == UNLOAD_CHUNK;
    assert PLAY_CLIENTBOUND[18] == UPDATE_VIEW_POSITION;
  }

  lemma {:induction false} OwnListed()
    ensures JOIN_GAME in PLAY_CLIENTBOUND && PLAYER_POSITION_LOOK_SERVER in PLAY_CLIENTBOUND
  {
    assert PLAY_CLIENTBOUND[9] == JOIN_GAME && PLAY_CLIENTBOUND[14] == PLAYER_POSITION_LOOK_SERVER;
  }
}
