/** What the server tells one client, and what that client makes of it. */
module Client {
  import opened Coords
  import opened Numbers

  /** Clientbound packets, reduced to what they say about the world. An entry of the player list
      is keyed by the hash of the user name; here by the name itself. */
  datatype Packet =
    | LoginSuccess(username: string)
    | JoinGame(entityId: int)
    | PluginMessage
    | PlayerAbilities
    | HeldItemChange
    | AddPlayers(names: set<string>)
    | RemovePlayer(name: string)
    | ChunkData(at: ChunkCoord)
    | UnloadChunk(at: ChunkCoord)
    | UpdateViewPosition(at: ChunkCoord)
    | SpawnPosition
    | PlayerPositionLook(position: EntityCoord, teleportId: int)
    | SpawnPlayer(entityId: int, position: EntityCoord)
    | EntityMove(entityId: int, dx: int, dy: int, dz: int, rotate: bool)
    | EntityTeleport(entityId: int, position: EntityCoord)
    | EntityRotation(entityId: int)
    | EntityHeadLook(entityId: int)
    | DestroyEntity(entityId: int)
    | Disconnect

  /** Where a client believes an entity is, and after how many relative moves since it was last
      told a position outright. */
  datatype Belief = Belief(position: EntityCoord, moves: nat)

  /** A client's picture: chunks it holds and the one it was last told is in their middle, entities
      it knows, its player list, its own name and entity, and whether every entity packet so far
      made sense. */
  datatype View = View(
    loaded: set<ChunkCoord>, middle: Option<ChunkCoord>, known: map<int, Belief>, tab: set<string>,
    username: string, entityId: int, ok: bool)

  const BLANK := View({}, None, map[], {}, "", 0, true)

  function Shifted(b: Belief, dx: int, dy: int, dz: int): Belief {
    Belief(EntityCoord(b.position.x + dx as real / 4096.0,
                       b.position.y + dy as real / 4096.0,
                       b.position.z + dz as real / 4096.0), b.moves + 1)
  }

  /** One packet arrives. A spawn of a known entity makes no sense, nor does news of an unknown
      one. */
  function Watch(v: View, k: Packet): View {
    match k
    case LoginSuccess(username) => v.(username := username)
    case JoinGame(entityId) => v.(entityId := entityId)
    case UpdateViewPosition(at) => v.(middle := Some(at))
    case AddPlayers(names) => v.(tab := v.tab + names)
    case RemovePlayer(name) => v.(tab := v.tab - {name})
    case ChunkData(at) => v.(loaded := v.loaded + {at})
    case UnloadChunk(at) => v.(loaded := v.loaded - {at})
    case SpawnPlayer(id, position) =>
      if id in v.known then v.(ok := false) else v.(known := v.known[id := Belief(position, 0)])
    case EntityMove(id, dx, dy, dz, _) =>
      if id in v.known then v.(known := v.known[id := Shifted(v.known[id], dx, dy, dz)]) else v.(ok := false)
    case EntityTeleport(id, position) =>
      if id in v.known then v.(known := v.known[id := Belief(position, 0)]) else v.(ok := false)
    case EntityRotation(id) => if id in v.known then v else v.(ok := false)
    case EntityHeadLook(id) => if id in v.known then v else v.(ok := false)
    case DestroyEntity(id) => if id in v.known then v.(known := v.known - {id}) else v.(ok := false)
    case _ => v
  }

  function WatchAll(v: View, ks: seq<Packet>): View
    decreases ks
  {
    if ks == [] then v else WatchAll(Watch(v, ks[0]), ks[1..])
  }

  lemma {:induction false} WatchAppend(v: View, a: seq<Packet>, b: seq<Packet>)
    ensures WatchAll(v, a + b) == WatchAll(WatchAll(v, a), b)
    decreases a
  {
    if a == [] {
      assert a + b == b;
    } else {
      assert (a + b)[1..] == a[1..] + b;
      WatchAppend(Watch(v, a[0]), a[1..], b);
    }
  }

  lemma {:induction false} WatchOne(v: View, k: Packet)
    ensures WatchAll(v, [k]) == Watch(v, k)
  {
    assert [k][1..] == [];
  }

  // ---- Runs of chunk packets ----

  function Unloads(cells: seq<ChunkCoord>): (ks: seq<Packet>)
    ensures |ks| == |cells| && forall i :: 0 <= i < |ks| ==> ks[i] == UnloadChunk(cells[i])
  {
    seq(|cells|, i requires 0 <= i < |cells| => UnloadChunk(cells[i]))
  }

  function Loads(cells: seq<ChunkCoord>): (ks: seq<Packet>)
    ensures |ks| == |cells| && forall i :: 0 <= i < |ks| ==> ks[i] == ChunkData(cells[i])
  {
    seq(|cells|, i requires 0 <= i < |cells| => ChunkData(cells[i]))
  }

  function CellSet(cells: seq<ChunkCoord>): set<ChunkCoord> {
    set c | c in cells
  }

  lemma {:induction false} UnloadsWatched(v: View, cells: seq<ChunkCoord>)
    ensures WatchAll(v, Unloads(cells)) == v.(loaded := v.loaded - CellSet(cells))
    decreases cells
  {
    if cells != [] {
      assert Unloads(cells)[1..] == Unloads(cells[1..]);
      UnloadsWatched(Watch(v, Unloads(cells)[0]), cells[1..]);
      assert CellSet(cells) == {cells[0]} + CellSet(cells[1..]);
    }
  }

  lemma {:induction false} LoadsWatched(v: View, cells: seq<ChunkCoord>)
    ensures WatchAll(v, Loads(cells)) == v.(loaded := v.loaded + CellSet(cells))
    decreases cells
  {
    if cells != [] {
      assert Loads(cells)[1..] == Loads(cells[1..]);
      LoadsWatched(Watch(v, Loads(cells)[0]), cells[1..]);
      assert CellSet(cells) == {cells[0]} + CellSet(cells[1..]);
    }
  }

  // ---- Movement ----

  predicate FitsInt16(d: real) {
    -32768.0 <= d <= 32767.0
  }

  /** createMovePacket: the difference in 4096ths of a block, its fraction dropped, when all
      three fit in 16 bits; else the position outright. */
  function MovePacket(id: int, from: EntityCoord, to: EntityCoord, rotate: bool): Packet {
    var dx, dy, dz := (to.x - from.x) * 4096.0, (to.y - from.y) * 4096.0, (to.z - from.z) * 4096.0;
    if FitsInt16(dx) && FitsInt16(dy) && FitsInt16(dz)
    then EntityMove(id, Truncate(dx), Truncate(dy), Truncate(dz), rotate)
    else EntityTeleport(id, to)
  }

  predicate NearAxis(believed: real, actual: real, moves: nat) {
    -(moves as real) <= (believed - actual) * 4096.0 <= moves as real
  }

  /** A believed position is off by at most one 4096th of a block per relative move. */
  predicate Near(b: Belief, p: EntityCoord) {
    NearAxis(b.position.x, p.x, b.moves) && NearAxis(b.position.y, p.y, b.moves) && NearAxis(b.position.z, p.z, b.moves)
  }

  lemma {:induction false} TruncateClose(d: real)
    ensures -1.0 < Truncate(d) as real - d < 1.0
    ensures FitsInt16(d) ==> -0x8000 <= Truncate(d) < 0x8000
  {
  }

  lemma {:induction false} AxisTracks(believed: real, from: real, to: real, moves: nat)
    requires NearAxis(believed, from, moves)
    ensures NearAxis(believed + Truncate((to - from) * 4096.0) as real / 4096.0, to, moves + 1)
  {
    var d := (to - from) * 4096.0;
    TruncateClose(d);
    assert (believed + Truncate(d) as real / 4096.0 - to) * 4096.0
        == (believed - from) * 4096.0 + (Truncate(d) as real - d);
  }

  /** A move keeps a belief near the truth, and every delta sent fits in 16 bits. */
  lemma {:induction false} MoveTracks(v: View, id: int, from: EntityCoord, to: EntityCoord, rotate: bool)
    requires id in v.known && Near(v.known[id], from)
    ensures var k := MovePacket(id, from, to, rotate); var after := Watch(v, k);
      && (k.EntityMove? ==> -0x8000 <= k.dx < 0x8000 && -0x8000 <= k.dy < 0x8000 && -0x8000 <= k.dz < 0x8000)
      && id in after.known && after == v.(known := v.known[id := after.known[id]])
      && Near(after.known[id], to)
  {
    var b := v.known[id];
    TruncateClose((to.x - from.x) * 4096.0);
    TruncateClose((to.y - from.y) * 4096.0);
    TruncateClose((to.z - from.z) * 4096.0);
    AxisTracks(b.position.x, from.x, to.x, b.moves);
    AxisTracks(b.position.y, from.y, to.y, b.moves);
    AxisTracks(b.position.z, from.z, to.z, b.moves);
  }

  /** A real number without its fraction, towards zero. */
  predicate WithoutFraction(n: int, d: real) {
    if d >= 0.0 then n as real <= d < (n + 1) as real else (n - 1) as real < d <= n as real
  }

  /** A move is told relatively, with its rotation or without and each axis in 4096ths of a block, if
      and only if that fits in 16 bits on every axis; else the new position is told. */
  lemma {:induction false} MovePacketExactly(id: int, from: EntityCoord, to: EntityCoord, rotate: bool)
    ensures var k := MovePacket(id, from, to, rotate);
      var dx, dy, dz := (to.x - from.x) * 4096.0, (to.y - from.y) * 4096.0, (to.z - from.z) * 4096.0;
      if -32768.0 <= dx <= 32767.0 && -32768.0 <= dy <= 32767.0 && -32768.0 <= dz <= 32767.0 then
        && k == EntityMove(id, k.dx, k.dy, k.dz, rotate)
        && WithoutFraction(k.dx, dx) && WithoutFraction(k.dy, dy) && WithoutFraction(k.dz, dz)
      else k == EntityTeleport(id, to)
  {
    WithoutFractionIs((to.x - from.x) * 4096.0);
    WithoutFractionIs((to.y - from.y) * 4096.0);
    WithoutFractionIs((to.z - from.z) * 4096.0);
  }

  lemma {:induction false} WithoutFractionIs(d: real)
    ensures WithoutFraction(Truncate(d), d)
  {
    if d < 0.0 {
      assert (-d).Floor as real <= -d < ((-d).Floor + 1) as real;
    }
  }
}
