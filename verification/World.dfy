/** The players and their state machines as one transition system: the handlers of
    source/proxyd/statemachine.cpp, each an atomic step. */
module World {
  import opened Coords
  import opened Variants
  import opened Tracker
  import opened Client

  const PROTOCOL_VERSION := 498
  const MAX_VIEW_DISTANCE := 32

  datatype Phase = INITIAL | LOGIN | PLAY_INIT | PLAY | STATUS

  /** The fields of a StateMachine and its PlayerState that decide what it tells others. */
  datatype Machine = Machine(
    phase: Phase, username: string, entityId: int, position: EntityCoord, viewDistance: nat,
    nextTeleportId: nat, outstandingTeleportIds: set<nat>) {

    function Home(): ChunkCoord {
      ChunkOf(position)
    }

    function Square(): Area {
      Around(Home(), viewDistance)
    }

    predicate LoggedIn() {
      phase.PLAY_INIT? || phase.PLAY?
    }
  }

  /** The text leaves the view distance of a new player uninitialised; that it is 0 is read from
      the comment at statemachine.cpp:766. */
  const NEW_MACHINE := Machine(INITIAL, "", 0, EntityCoord(0.0, 64.0, 0.0), 0, 0, {})

  /** The machines of all connections, the logged-in players, the subscription index, and
      every call of send on each connection, also after a call of disconnect. */
  datatype World = World(
    machines: map<Pid, Machine>, players: set<Pid>, members: Relation, subs: Relation,
    sent: map<Pid, seq<Packet>>, nextEntityId: nat)

  const EMPTY_WORLD := World(map[], {}, {}, {}, map[], 1)

  /** Serverbound packets with their decoded fields; malformed ones have Malformed. */
  datatype Incoming =
    | Handshake(version: int, nextState: int)
    | LoginStart(name: string)
    | ClientSettings(viewDistance: int)
    | TeleportConfirm(teleportId: int)
    | PlayerPosition(position: EntityCoord, rotate: bool)
    | PlayerRotation
    | Malformed
    | Unhandled

  /** A connection opens, delivers a packet, or closes. The order is that in which an
      unordered_set of players happens to be traversed. */
  datatype Event =
    | Connected(p: Pid)
    | Received(p: Pid, packet: Incoming, order: seq<Pid>)
    | Disconnected(p: Pid)

  // ---- What a packet makes a machine do ----

  datatype Act =
    | Idle
    | Refuse
    | Start
    | Shake(next: Phase)
    | LogIn(name: string)
    | Settle(viewDistance: nat)
    | Enter(teleportId: int, order: seq<Pid>)
    | Walk(to: EntityCoord, rotate: bool)
    | Turn
    | Quit

  function ClampViewDistance(requested: int): (vd: nat)
    ensures 2 <= vd <= MAX_VIEW_DISTANCE
    ensures 2 <= requested <= MAX_VIEW_DISTANCE ==> vd == requested
    ensures (requested < 2 ==> vd == 2) && (MAX_VIEW_DISTANCE < requested ==> vd == MAX_VIEW_DISTANCE)
  {
    var low := if requested < MAX_VIEW_DISTANCE then requested else MAX_VIEW_DISTANCE;
    if 2 < low then low else 2
  }

  /** onPacket, up to the handlers. A confirmation of an id that is not outstanding is refused,
      but the text then carries on as if it had not been (statemachine.cpp:181-182). */
  function OnPacket(variant: Variant, m: Machine, packet: Incoming, order: seq<Pid>): Act {
    match m.phase
    case INITIAL => (
      match packet
      case Handshake(version, nextState) =>
        if version != PROTOCOL_VERSION then Refuse
        else if nextState == 1 then Shake(STATUS)
        else if nextState == 2 then Shake(LOGIN)
        else Refuse
      case _ => Idle)
    case LOGIN => if packet.LoginStart? then LogIn(packet.name) else Idle
    case PLAY_INIT => (
      match packet
      case TeleportConfirm(id) =>
        if id in m.outstandingTeleportIds || variant.Written? then Enter(id, order) else Refuse
      case ClientSettings(vd) => Settle(ClampViewDistance(vd))
      case _ => Idle)
    case PLAY => (
      match packet
      case ClientSettings(vd) => Settle(ClampViewDistance(vd))
      case PlayerPosition(position, rotate) => Walk(position, rotate)
      case PlayerRotation => Turn
      case _ => Idle)
    case STATUS => Idle
  }

  // ---- The new state after an act ----

  /** New settings; before play they also start a teleport. */
  function Settled(m: Machine, vd: nat): Machine {
    if m.phase.PLAY_INIT?
    then m.(viewDistance := vd, nextTeleportId := m.nextTeleportId + 1,
            outstandingTeleportIds := m.outstandingTeleportIds + {m.nextTeleportId})
    else m.(viewDistance := vd)
  }

  function Entered(m: Machine, id: int): Machine {
    m.(phase := PLAY, outstandingTeleportIds := set i | i in m.outstandingTeleportIds && i != id)
  }

  function MachineAfter(w: World, m: Machine, a: Act): Machine {
    match a
    case Shake(next) => m.(phase := next)
    case LogIn(name) => m.(phase := PLAY_INIT, username := name, entityId := w.nextEntityId)
    case Settle(vd) => Settled(m, vd)
    case Enter(id, _) => Entered(m, id)
    case Walk(to, _) => m.(position := to)
    case _ => m
  }

  function MachinesAfter(w: World, p: Pid, a: Act): map<Pid, Machine>
    requires p in w.machines <==> !a.Start?
  {
    match a
    case Start => w.machines[p := NEW_MACHINE]
    case Quit => w.machines - {p}
    case _ => w.machines[p := MachineAfter(w, w.machines[p], a)]
  }

  /** A departure is announced and the player forgotten. The text does so only from play, though
      players are registered at login (statemachine.cpp:1127). */
  predicate Unregisters(variant: Variant, m: Machine) {
    if variant.Written? then m.phase.PLAY? else m.LoggedIn()
  }

  function PlayersAfter(variant: Variant, w: World, p: Pid, a: Act): set<Pid>
    requires p in w.machines <==> !a.Start?
  {
    match a
    case LogIn(_) => w.players + {p}
    case Quit => if Unregisters(variant, w.machines[p]) then w.players - {p} else w.players
    case _ => w.players
  }

  function MembersAfter(w: World, p: Pid, a: Act): Relation
    requires p in w.machines <==> !a.Start?
  {
    match a
    case Enter(_, _) => w.members + {(w.machines[p].Home(), p)}
    case Walk(to, _) =>
      var from := w.machines[p].Home();
      if from == ChunkOf(to) then w.members else w.members - {(from, p)} + {(ChunkOf(to), p)}
    case Quit => if w.machines[p].phase.PLAY? then w.members - {(w.machines[p].Home(), p)} else w.members
    case _ => w.members
  }

  /** The cells that come into view, or out of it, when the middle of a square moves. */
  function Newly(from: ChunkCoord, to: ChunkCoord, vd: nat): seq<ChunkCoord> {
    Cells(Around(to, vd), Around(from, vd))
  }

  /** A change of view distance reaches the tracker as soon as there was one before, that is also
      for settings sent twice before the player has entered it (statemachine.cpp:767); meant is
      only a player that has entered. */
  predicate Tracked(variant: Variant, m: Machine) {
    if variant.Written? then m.viewDistance != 0 else m.phase.PLAY?
  }

  function SettledSubs(variant: Variant, subs: Relation, m: Machine, vd: nat, p: Pid): Relation {
    if Tracked(variant, m) then UpdatedSubs(variant, subs, m.Home(), m.viewDistance, vd, p) else subs
  }

  function SubsAfter(variant: Variant, w: World, p: Pid, a: Act): Relation
    requires p in w.machines <==> !a.Start?
  {
    match a
    case Settle(vd) => SettledSubs(variant, w.subs, w.machines[p], vd, p)
    case Enter(_, _) => With(w.subs, SquareOf(w.machines[p].Home(), w.machines[p].viewDistance), p)
    case Walk(to, _) =>
      var m := w.machines[p];
      var from, to := m.Home(), ChunkOf(to);
      if from == to then w.subs
      else With(Without(w.subs, Newly(to, from, m.viewDistance), p), Newly(from, to, m.viewDistance), p)
    case Quit =>
      var m := w.machines[p];
      if m.phase.PLAY? then Without(w.subs, SquareOf(m.Home(), m.viewDistance), p) else w.subs
    case _ => w.subs
  }

  // ---- What each connection is sent during an act ----

  function NamesOf(players: set<Pid>, machines: map<Pid, Machine>): set<string> {
    set q | q in players && q in machines :: machines[q].username
  }

  function Names(w: World): set<string> {
    NamesOf(w.players, w.machines)
  }

  /** The other players in the square around a player. */
  function Visible(w: World, p: Pid): (s: set<Pid>)
    requires p in w.machines
    ensures forall q :: q in s <==> q != p && exists c :: (c, q) in w.members && w.machines[p].Square().Contains(c)
  {
    set cq | cq in w.members && w.machines[p].Square().Contains(cq.0) && cq.1 != p :: cq.1
  }

  /** createSpawnPacket. */
  function SpawnOf(m: Machine): Packet {
    SpawnPlayer(m.entityId, m.position)
  }

  /** The machine of a player the tracker knows; by IndexIsExact there always is one. */
  function MachineOf(machines: map<Pid, Machine>, q: Pid): Machine {
    if q in machines then machines[q] else NEW_MACHINE
  }

  function Spawns(machines: map<Pid, Machine>, order: seq<Pid>): (ks: seq<Packet>)
    ensures |ks| == |order| && forall i :: 0 <= i < |ks| ==> ks[i] == SpawnOf(MachineOf(machines, order[i]))
  {
    seq(|order|, i requires 0 <= i < |order| => SpawnOf(MachineOf(machines, order[i])))
  }

  /** The chunks by which a square grew or shrank; the loops test the same guard as the
      tracker's. */
  function Resize(variant: Variant, m: Machine, vd: nat): seq<Packet> {
    if m.viewDistance == 0 || m.viewDistance == vd then []
    else if vd < m.viewDistance then Unloads(Ring(variant, m.Home(), m.viewDistance, vd))
    else Loads(Ring(variant, m.Home(), m.viewDistance, vd))
  }

  /** What follows a settings packet before the player has entered. */
  function Welcome(m: Machine, vd: nat): seq<Packet> {
    if m.phase.PLAY_INIT?
    then Loads(SquareOf(m.Home(), vd)) + [SpawnPosition, PlayerPositionLook(m.position, m.nextTeleportId)]
    else []
  }

  /** What a player is sent that walks into a chunk; nothing if it was there before. */
  function CrossingNews(m: Machine, to: ChunkCoord): seq<Packet> {
    if m.Home() == to then []
    else Unloads(Newly(to, m.Home(), m.viewDistance))
         + Loads(Newly(m.Home(), to, m.viewDistance)) + [UpdateViewPosition(to)]
  }

  /** What the acting player is sent. */
  function OwnNews(variant: Variant, w: World, p: Pid, a: Act): seq<Packet>
    requires p in w.machines <==> !a.Start?
  {
    match a
    case Refuse => [Disconnect]
    case LogIn(name) =>
      [LoginSuccess(name), JoinGame(w.nextEntityId), PluginMessage, PlayerAbilities, HeldItemChange,
       AddPlayers(Names(w)), AddPlayers({name})]
    case Settle(vd) => Resize(variant, w.machines[p], vd) + Welcome(w.machines[p], vd)
    case Enter(id, order) =>
      (if id in w.machines[p].outstandingTeleportIds then [] else [Disconnect]) + Spawns(w.machines, order)
    case Walk(to, _) => CrossingNews(w.machines[p], ChunkOf(to))
    case _ => []
  }

  function MoveNews(m: Machine, to: EntityCoord, rotate: bool): seq<Packet> {
    [MovePacket(m.entityId, m.position, to, rotate)] + if rotate then [EntityHeadLook(m.entityId)] else []
  }

  /** What another player is sent about a player that walks. */
  function WalkNews(w: World, m: Machine, to: EntityCoord, rotate: bool, o: Pid): seq<Packet> {
    if (m.Home(), o) in w.subs then
      if (ChunkOf(to), o) in w.subs then MoveNews(m, to, rotate) else [DestroyEntity(m.entityId)]
    else
      if (ChunkOf(to), o) in w.subs then [SpawnPlayer(m.entityId, to)] else []
  }

  function QuitNews(variant: Variant, w: World, p: Pid, o: Pid): seq<Packet>
    requires p in w.machines
  {
    var m := w.machines[p];
    (if m.phase.PLAY? && (m.Home(), o) in w.subs then [DestroyEntity(m.entityId)] else [])
    + if o in w.players && Unregisters(variant, m) then [RemovePlayer(m.username)] else []
  }

  /** What any other connection is sent. */
  function OthersNews(variant: Variant, w: World, p: Pid, a: Act, o: Pid): seq<Packet>
    requires p in w.machines <==> !a.Start?
  {
    match a
    case LogIn(name) => if o in w.players then [AddPlayers({name})] else []
    case Enter(_, _) =>
      if (w.machines[p].Home(), o) in w.subs then [SpawnOf(w.machines[p])] else []
    case Walk(to, rotate) => WalkNews(w, w.machines[p], to, rotate, o)
    case Turn =>
      if (w.machines[p].Home(), o) in w.subs
      then [EntityRotation(w.machines[p].entityId), EntityHeadLook(w.machines[p].entityId)] else []
    case Quit => QuitNews(variant, w, p, o)
    case _ => []
  }

  function News(variant: Variant, w: World, p: Pid, a: Act, o: Pid): seq<Packet>
    requires p in w.machines <==> !a.Start?
  {
    if o == p then OwnNews(variant, w, p, a) else OthersNews(variant, w, p, a, o)
  }

  /** All that a connection has been sent. */
  function Log(w: World, o: Pid): seq<Packet> {
    if o in w.sent then w.sent[o] else []
  }

  function Apply(variant: Variant, w: World, p: Pid, a: Act): World
    requires p in w.machines <==> !a.Start?
  {
    var machines := MachinesAfter(w, p, a);
    World(machines,
          PlayersAfter(variant, w, p, a),
          MembersAfter(w, p, a),
          SubsAfter(variant, w, p, a),
          map o | o in machines :: Log(w, o) + News(variant, w, p, a, o),
          if a.LogIn? then w.nextEntityId + 1 else w.nextEntityId)
  }

  // ---- Steps and runs ----

  /** Each element of a set exactly once. */
  predicate Enumerates(order: seq<Pid>, s: set<Pid>) {
    (set q | q in order) == s && forall i, j :: 0 <= i < j < |order| ==> order[i] != order[j]
  }

  predicate Enabled(variant: Variant, w: World, e: Event) {
    match e
    case Connected(p) => p !in w.machines
    case Received(p, packet, order) =>
      p in w.machines && (OnPacket(variant, w.machines[p], packet, order).Enter? ==> Enumerates(order, Visible(w, p)))
    case Disconnected(p) => p in w.machines
  }

  function ActOf(variant: Variant, w: World, e: Event): (a: Act)
    requires Enabled(variant, w, e)
    ensures e.p in w.machines <==> !a.Start?
  {
    match e
    case Connected(p) => Start
    case Received(p, packet, order) => OnPacket(variant, w.machines[p], packet, order)
    case Disconnected(p) => Quit
  }

  function Step(variant: Variant, w: World, e: Event): World
    requires Enabled(variant, w, e)
  {
    Apply(variant, w, e.p, ActOf(variant, w, e))
  }

  /** Every event of a run is possible when it happens. */
  predicate Possible(variant: Variant, es: seq<Event>)
    decreases |es|, 0
  {
    if es == [] then true
    else Possible(variant, es[..|es| - 1]) && Enabled(variant, Run(variant, es[..|es| - 1]), es[|es| - 1])
  }

  function Run(variant: Variant, es: seq<Event>): World
    requires Possible(variant, es)
    decreases |es|, 1
  {
    if es == [] then EMPTY_WORLD
    else Step(variant, Run(variant, es[..|es| - 1]), es[|es| - 1])
  }
}
