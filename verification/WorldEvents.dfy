/** What each event does, told without the act in between: to the machine it comes from, to the
    index, and what every client is sent. */
module WorldEvents {
  import opened Coords
  import opened Variants
  import opened Tracker
  import opened Client
  import opened World
  import opened WorldIndex

  /** What a step sends to a client. */
  predicate Sends(w: World, w': World, o: Pid, ks: seq<Packet>) {
    Log(w', o) == Log(w, o) + ks
  }

  /** A step leaves the machines of all but one as they are. */
  ghost predicate OthersAsBefore(w: World, w': World, p: Pid) {
    forall q :: q != p ==>
      && (q in w'.machines <==> q in w.machines)
      && (q in w.machines ==> w'.machines[q] == w.machines[q])
  }

  /** A step sends nothing to any other client. */
  ghost predicate OthersHearNothing(w: World, w': World, p: Pid) {
    forall o :: o != p && o in w.machines ==> Sends(w, w', o, [])
  }

  predicate IndexAsBefore(w: World, w': World) {
    w'.members == w.members && w'.subs == w.subs
  }

  predicate RegistryAsBefore(w: World, w': World) {
    w'.players == w.players && w'.nextEntityId == w.nextEntityId
  }

  lemma {:induction false} SendsNews(variant: Variant, w: World, e: Event, o: Pid)
    requires Enabled(variant, w, e) && o in w.machines && e != Disconnected(o)
    ensures var a := ActOf(variant, w, e);
      o in Step(variant, w, e).machines && Sends(w, Step(variant, w, e), o, News(variant, w, e.p, a, o))
  {
  }

  lemma {:induction false} OthersStayAll(variant: Variant, w: World, e: Event)
    requires Enabled(variant, w, e)
    ensures OthersAsBefore(w, Step(variant, w, e), e.p)
  {
    forall q | q != e.p
      ensures q in Step(variant, w, e).machines <==> q in w.machines
      ensures q in w.machines ==> Step(variant, w, e).machines[q] == w.machines[q]
    {
      OthersStay(variant, w, e.p, ActOf(variant, w, e), q);
    }
  }

  lemma {:induction false} NothingForOthers(variant: Variant, w: World, e: Event)
    requires Enabled(variant, w, e)
    requires forall o :: o != e.p ==> OthersNews(variant, w, e.p, ActOf(variant, w, e), o) == []
    ensures OthersHearNothing(w, Step(variant, w, e), e.p)
  {
    forall o | o != e.p && o in w.machines
      ensures Sends(w, Step(variant, w, e), o, [])
    {
      SendsNews(variant, w, e, o);
    }
  }

  // ---- Opening and the handshake ----

  /** A new connection waits at the spawn point for its handshake; nobody hears of it. */
  lemma {:induction false} ConnectedExactly(variant: Variant, w: World, p: Pid)
    requires Enabled(variant, w, Connected(p))
    ensures var w' := Step(variant, w, Connected(p));
      && p in w'.machines && w'.machines[p] == Machine(INITIAL, "", 0, EntityCoord(0.0, 64.0, 0.0), 0, 0, {})
      && Log(w', p) == Log(w, p)
      && OthersAsBefore(w, w', p) && OthersHearNothing(w, w', p) && IndexAsBefore(w, w') && RegistryAsBefore(w, w')
  {
    OthersStayAll(variant, w, Connected(p));
    NothingForOthers(variant, w, Connected(p));
  }

  /** A handshake of version 498 goes on to the status for 1 and to the login for 2; any other one is
      refused, and nothing else does anything. */
  lemma {:induction false} HandshakeExactly(variant: Variant, w: World, p: Pid, packet: Incoming, order: seq<Pid>)
    requires p in w.machines && w.machines[p].phase.INITIAL?
    ensures var e := Received(p, packet, order);
      && Enabled(variant, w, e)
      && var w' := Step(variant, w, e);
      && p in w'.machines && w'.machines[p] == w.machines[p].(phase := w'.machines[p].phase)
      && (w'.machines[p].phase.LOGIN? <==> packet == Handshake(498, 2))
      && (w'.machines[p].phase.STATUS? <==> packet == Handshake(498, 1))
      && (!w'.machines[p].phase.LOGIN? && !w'.machines[p].phase.STATUS? ==> w'.machines[p].phase.INITIAL?)
      && Sends(w, w', p, if packet.Handshake? && w'.machines[p].phase.INITIAL? then [Disconnect] else [])
      && OthersAsBefore(w, w', p) && OthersHearNothing(w, w', p) && IndexAsBefore(w, w') && RegistryAsBefore(w, w')
  {
    var e := Received(p, packet, order);
    OthersStayAll(variant, w, e);
    NothingForOthers(variant, w, e);
    SendsNews(variant, w, e, p);
  }

  /** The event is that handshake. */
  predicate Shakes(e: Event, p: Pid, next: int) {
    e.Received? && e.p == p && e.packet == Handshake(498, next)
  }

  /** Past the first phase, and which way. */
  predicate Past(w: World, p: Pid, next: int) {
    p in w.machines && !w.machines[p].phase.INITIAL? && (w.machines[p].phase.STATUS? <==> next == 1)
  }

  lemma {:induction false} ReceivedStays(variant: Variant, w: World, p: Pid, packet: Incoming, order: seq<Pid>)
    requires Enabled(variant, w, Received(p, packet, order)) && !w.machines[p].phase.INITIAL?
    ensures var w' := Step(variant, w, Received(p, packet, order));
      && p in w'.machines && !w'.machines[p].phase.INITIAL?
      && (w'.machines[p].phase.STATUS? <==> w.machines[p].phase.STATUS?)
  {
  }

  lemma {:induction false} PastExactly(variant: Variant, w: World, e: Event, p: Pid, next: int)
    requires Enabled(variant, w, e) && 1 <= next <= 2
    ensures Past(Step(variant, w, e), p, next)
       <==> (Past(w, p, next) && e != Disconnected(p))
            || (Shakes(e, p, next) && p in w.machines && w.machines[p].phase.INITIAL?)
  {
    if e.p != p {
      OthersStay(variant, w, e.p, ActOf(variant, w, e), p);
    } else if e.Received? {
      if w.machines[p].phase.INITIAL? {
        HandshakeExactly(variant, w, p, e.packet, e.order);
      } else {
        ReceivedStays(variant, w, p, e.packet, e.order);
      }
    }
  }

  /** Over runs: whoever is past its first phase has sent a handshake of version 498 and not
      disconnected since; for 1 if it is in the status, else for 2. */
  lemma {:induction false} PastInitialShook(variant: Variant, es: seq<Event>, p: Pid, next: int) returns (k: nat)
    requires Possible(variant, es) && 1 <= next <= 2 && Past(Run(variant, es), p, next)
    ensures k < |es| && Shakes(es[k], p, next) && forall j :: k < j < |es| ==> es[j] != Disconnected(p)
    decreases |es|
  {
    var before, e := es[..|es| - 1], es[|es| - 1];
    PastExactly(variant, Run(variant, before), e, p, next);
    if Past(Run(variant, before), p, next) && e != Disconnected(p) {
      k := PastInitialShook(variant, before, p, next);
    } else {
      k := |es| - 1;
    }
  }

  // ---- What is ignored ----

  /** The packets that a phase past the first does nothing with: malformed ones, and those that it
      has no handler for. */
  predicate Ignored(phase: Phase, packet: Incoming) {
    match phase
    case INITIAL => false
    case LOGIN => !packet.LoginStart?
    case PLAY_INIT => !packet.TeleportConfirm? && !packet.ClientSettings?
    case PLAY => !packet.ClientSettings? && !packet.PlayerPosition? && !packet.PlayerRotation?
    case STATUS => true
  }

  lemma {:induction false} IgnoredExactly(variant: Variant, w: World, p: Pid, packet: Incoming, order: seq<Pid>)
    requires p in w.machines && Ignored(w.machines[p].phase, packet)
    ensures var e := Received(p, packet, order);
      && Enabled(variant, w, e)
      && var w' := Step(variant, w, e);
      && w'.machines == w.machines && Sends(w, w', p, [])
      && OthersHearNothing(w, w', p) && IndexAsBefore(w, w') && RegistryAsBefore(w, w')
  {
    var e := Received(p, packet, order);
    NothingForOthers(variant, w, e);
    SendsNews(variant, w, e, p);
  }

  // ---- Logging in ----

  /** A login gives the player its name and the next entity id and registers it. Its client is told so,
      and the names of all players, also its own; every other player is told its name. */
  lemma {:induction false} LoginExactly(variant: Variant, w: World, p: Pid, name: string, order: seq<Pid>)
    requires p in w.machines && w.machines[p].phase.LOGIN?
    ensures var e := Received(p, LoginStart(name), order);
      && Enabled(variant, w, e)
      && var w', id := Step(variant, w, e), w.nextEntityId;
      && p in w'.machines
      && w'.machines[p] == w.machines[p].(phase := PLAY_INIT, username := name, entityId := id)
      && w'.players == w.players + {p} && w'.nextEntityId == id + 1
      && Sends(w, w', p, [
           LoginSuccess(name), JoinGame(id), PluginMessage, PlayerAbilities, HeldItemChange,
           AddPlayers(set q | q in w.players && q in w.machines :: w.machines[q].username), AddPlayers({name})])
      && (forall o :: o != p && o in w.machines ==>
            Sends(w, w', o, if o in w.players then [AddPlayers({name})] else []))
      && OthersAsBefore(w, w', p) && IndexAsBefore(w, w')
  {
    var e := Received(p, LoginStart(name), order);
    OthersStayAll(variant, w, e);
    SendsNews(variant, w, e, p);
    forall o | o != p && o in w.machines
      ensures Sends(w, Step(variant, w, e), o, if o in w.players then [AddPlayers({name})] else [])
    {
      SendsNews(variant, w, e, o);
    }
  }

  // ---- Settings ----

  function Brought(requested: int): nat {
    if requested < 2 then 2 else if requested > 32 then 32 else requested
  }

  /** The chunks between the squares of an old and a new view distance, unless there was none. */
  function Resized(variant: Variant, m: Machine, vd: nat): seq<Packet> {
    var between := Ring(variant, ChunkOf(m.position), m.viewDistance, vd);
    if m.viewDistance == 0 || vd == m.viewDistance then []
    else if vd < m.viewDistance then Unloads(between)
    else Loads(between)
  }

  /** Settings in play bring the view distance into 2..32, and the client is told of the chunks
      between. */
  lemma {:induction false} SettingsInPlay(variant: Variant, w: World, p: Pid, requested: int, order: seq<Pid>)
    requires InPlay(w, p)
    ensures var e := Received(p, ClientSettings(requested), order);
      && Enabled(variant, w, e)
      && var m, w', vd := w.machines[p], Step(variant, w, e), Brought(requested);
      && p in w'.machines && w'.machines[p] == m.(viewDistance := vd)
      && Sends(w, w', p, Resized(variant, m, vd))
  {
    SendsNews(variant, w, Received(p, ClientSettings(requested), order), p);
    var resized := Resized(variant, w.machines[p], Brought(requested));
    assert resized + [] == resized;
  }

  /** Before play the client is also sent its square, the spawn point and a teleport to where its player
      is, under the next id, which is outstanding from then on. */
  lemma {:induction false} SettingsBeforePlay(variant: Variant, w: World, p: Pid, requested: int, order: seq<Pid>)
    requires p in w.machines && w.machines[p].phase.PLAY_INIT?
    ensures var e := Received(p, ClientSettings(requested), order);
      && Enabled(variant, w, e)
      && var m, w', vd := w.machines[p], Step(variant, w, e), Brought(requested);
      && p in w'.machines
      && w'.machines[p] == m.(viewDistance := vd, nextTeleportId := m.nextTeleportId + 1,
                              outstandingTeleportIds := m.outstandingTeleportIds + {m.nextTeleportId})
      && Sends(w, w', p, Resized(variant, m, vd)
                         + (Loads(Cells(Around(ChunkOf(m.position), vd), NOWHERE))
                            + [SpawnPosition, PlayerPositionLook(m.position, m.nextTeleportId)]))
  {
    SendsNews(variant, w, Received(p, ClientSettings(requested), order), p);
  }

  /** Nobody else hears of settings. */
  lemma {:induction false} SettingsOfOthers(variant: Variant, w: World, p: Pid, requested: int, order: seq<Pid>)
    requires p in w.machines && (w.machines[p].phase.PLAY_INIT? || w.machines[p].phase.PLAY?)
    ensures var e := Received(p, ClientSettings(requested), order);
      && Enabled(variant, w, e)
      && var w' := Step(variant, w, e);
      && OthersAsBefore(w, w', p) && OthersHearNothing(w, w', p) && RegistryAsBefore(w, w')
  {
    var e := Received(p, ClientSettings(requested), order);
    OthersStayAll(variant, w, e);
    NothingForOthers(variant, w, e);
  }

  /** The index follows them: as written when there was a view distance before, as meant in play. */
  lemma {:induction false} SettingsIndex(variant: Variant, w: World, p: Pid, requested: int, order: seq<Pid>)
    requires p in w.machines && (w.machines[p].phase.PLAY_INIT? || w.machines[p].phase.PLAY?)
    requires Enabled(variant, w, Received(p, ClientSettings(requested), order))
    ensures var m, w' := w.machines[p], Step(variant, w, Received(p, ClientSettings(requested), order));
      var follows := if variant.Written? then m.viewDistance != 0 else m.phase.PLAY?;
      && w'.members == w.members
      && w'.subs == if follows
                    then UpdatedSubs(variant, w.subs, ChunkOf(m.position), m.viewDistance, Brought(requested), p)
                    else w.subs
  {
  }

  // ---- Entering ----

  /** As meant, an id that is not outstanding is refused, and that is all. */
  lemma {:induction false} ConfirmRefused(w: World, p: Pid, id: int, order: seq<Pid>)
    requires p in w.machines && w.machines[p].phase.PLAY_INIT? && id !in w.machines[p].outstandingTeleportIds
    ensures var e := Received(p, TeleportConfirm(id), order);
      && Enabled(Intended, w, e)
      && var w' := Step(Intended, w, e);
      && w'.machines == w.machines && Sends(w, w', p, [Disconnect])
      && OthersHearNothing(w, w', p) && IndexAsBefore(w, w') && RegistryAsBefore(w, w')
  {
    var e := Received(p, TeleportConfirm(id), order);
    NothingForOthers(Intended, w, e);
    SendsNews(Intended, w, e, p);
  }

  /** With an outstanding id, and as written with any other that is then refused on the way, the player
      is in play and told of the members of its square in some order. */
  lemma {:induction false} ConfirmOwn(variant: Variant, w: World, p: Pid, id: int, order: seq<Pid>)
    requires p in w.machines && w.machines[p].phase.PLAY_INIT?
    requires id in w.machines[p].outstandingTeleportIds || variant.Written?
    ensures var e := Received(p, TeleportConfirm(id), order);
      Enabled(variant, w, e) <==> Each(w, p, order)
    ensures var e := Received(p, TeleportConfirm(id), order);
      Enabled(variant, w, e) ==>
        var m, w' := w.machines[p], Step(variant, w, e);
        && p in w'.machines
        && w'.machines[p] == m.(phase := PLAY, outstandingTeleportIds := w'.machines[p].outstandingTeleportIds)
        && (forall i :: i in w'.machines[p].outstandingTeleportIds <==> i in m.outstandingTeleportIds && i != id)
        && Sends(w, w', p, (if id in m.outstandingTeleportIds then [] else [Disconnect]) + Spawns(w.machines, order))
  {
    var e := Received(p, TeleportConfirm(id), order);
    EachExactly(w, p, order);
    if Enabled(variant, w, e) {
      SendsNews(variant, w, e, p);
    }
  }

  /** It is a member of its chunk and subscribed to its square, and the subscribers of its chunk are
      told of it. */
  lemma {:induction false} ConfirmOthers(variant: Variant, w: World, p: Pid, id: int, order: seq<Pid>)
    requires p in w.machines && w.machines[p].phase.PLAY_INIT?
    requires id in w.machines[p].outstandingTeleportIds || variant.Written?
    requires Enabled(variant, w, Received(p, TeleportConfirm(id), order))
    ensures var m, w' := w.machines[p], Step(variant, w, Received(p, TeleportConfirm(id), order));
      var here := ChunkOf(m.position);
      && w'.members == w.members + {(here, p)}
      && w'.subs == With(w.subs, Cells(Around(here, m.viewDistance), NOWHERE), p)
      && (forall o :: o != p && o in w.machines ==>
            Sends(w, w', o, if (here, o) in w.subs then [SpawnPlayer(m.entityId, m.position)] else []))
      && OthersAsBefore(w, w', p) && RegistryAsBefore(w, w')
  {
    var e := Received(p, TeleportConfirm(id), order);
    OthersStayAll(variant, w, e);
    forall o | o != p && o in w.machines
      ensures var m := w.machines[p];
        Sends(w, Step(variant, w, e), o,
              if (ChunkOf(m.position), o) in w.subs then [SpawnPlayer(m.entityId, m.position)] else [])
    {
      SendsNews(variant, w, e, o);
    }
  }

  /** Every other member of a chunk in the square, once. */
  ghost predicate Each(w: World, p: Pid, order: seq<Pid>)
    requires p in w.machines
  {
    && (forall i, j :: 0 <= i < j < |order| ==> order[i] != order[j])
    && (forall q :: q in order <==>
          q != p && exists c :: (c, q) in w.members
                                && Around(ChunkOf(w.machines[p].position), w.machines[p].viewDistance).Contains(c))
  }

  lemma {:induction false} EachExactly(w: World, p: Pid, order: seq<Pid>)
    requires p in w.machines
    ensures Each(w, p, order) <==> Enumerates(order, Visible(w, p))
  {
    forall q
      ensures q in order <==> q in set r | r in order
    {
    }
    assert (set r | r in order) == Visible(w, p) <==> forall q :: q in order <==> q in Visible(w, p);
  }

  lemma {:induction false} SpawnsTell(machines: map<Pid, Machine>, order: seq<Pid>, i: nat)
    requires i < |order| && order[i] in machines
    ensures |Spawns(machines, order)| == |order|
    ensures Spawns(machines, order)[i] == SpawnPlayer(machines[order[i]].entityId, machines[order[i]].position)
  {
  }

  // ---- Moving ----

  /** What a client is told of a player that walks, by whether it is subscribed to the chunk that
      player leaves and to the one it is in. */
  function TellsOfWalk(m: Machine, to: EntityCoord, rotate: bool, before: bool, after: bool): seq<Packet> {
    match (before, after)
    case (true, true) =>
      [MovePacket(m.entityId, m.position, to, rotate)] + (if rotate then [EntityHeadLook(m.entityId)] else [])
    case (true, false) => [DestroyEntity(m.entityId)]
    case (false, true) => [SpawnPlayer(m.entityId, to)]
    case (false, false) => []
  }

  lemma {:induction false} WalkExactly(variant: Variant, w: World, p: Pid, to: EntityCoord, rotate: bool,
      order: seq<Pid>)
    requires InPlay(w, p)
    ensures var e := Received(p, PlayerPosition(to, rotate), order);
      && Enabled(variant, w, e)
      && var m, w' := w.machines[p], Step(variant, w, e);
      && p in w'.machines && w'.machines[p] == m.(position := to)
      && (forall o :: o != p && o in w.machines ==>
            Sends(w, w', o, TellsOfWalk(m, to, rotate, (ChunkOf(m.position), o) in w.subs, (ChunkOf(to), o) in w.subs)))
      && OthersAsBefore(w, w', p) && RegistryAsBefore(w, w')
  {
    var e := Received(p, PlayerPosition(to, rotate), order);
    OthersStayAll(variant, w, e);
    forall o | o != p && o in w.machines
      ensures var m := w.machines[p];
        Sends(w, Step(variant, w, e), o,
              TellsOfWalk(m, to, rotate, (ChunkOf(m.position), o) in w.subs, (ChunkOf(to), o) in w.subs))
    {
      SendsNews(variant, w, e, o);
    }
  }

  /** A walk inside a chunk is all that. Over its border the client unloads the chunks that only the
      old square has, is sent those that only the new one has, then its new middle, and the index
      follows. */
  lemma {:induction false} WalkOwn(variant: Variant, w: World, p: Pid, to: EntityCoord, rotate: bool, order: seq<Pid>)
    requires InPlay(w, p) && Enabled(variant, w, Received(p, PlayerPosition(to, rotate), order))
    ensures var m, w' := w.machines[p], Step(variant, w, Received(p, PlayerPosition(to, rotate), order));
      var from, here, vd := ChunkOf(m.position), ChunkOf(to), m.viewDistance;
      var gone, new' := Cells(Around(from, vd), Around(here, vd)), Cells(Around(here, vd), Around(from, vd));
      if from == here then IndexAsBefore(w, w') && Sends(w, w', p, [])
      else
        && w'.members == w.members - {(from, p)} + {(here, p)}
        && w'.subs == With(Without(w.subs, gone, p), new', p)
        && Sends(w, w', p, Unloads(gone) + Loads(new') + [UpdateViewPosition(here)])
  {
    SendsNews(variant, w, Received(p, PlayerPosition(to, rotate), order), p);
  }

  /** A turn is told to the other subscribers of the player's chunk, as a rotation and a head look, and
      changes nothing. */
  lemma {:induction false} TurnExactly(variant: Variant, w: World, p: Pid, order: seq<Pid>)
    requires InPlay(w, p)
    ensures var e := Received(p, PlayerRotation, order);
      && Enabled(variant, w, e)
      && var m, w' := w.machines[p], Step(variant, w, e);
      var told := [EntityRotation(m.entityId), EntityHeadLook(m.entityId)];
      && w'.machines == w.machines && IndexAsBefore(w, w') && RegistryAsBefore(w, w')
      && Sends(w, w', p, [])
      && forall o :: o != p && o in w.machines ==>
           Sends(w, w', o, if (ChunkOf(m.position), o) in w.subs then told else [])
  {
    var e, m := Received(p, PlayerRotation, order), w.machines[p];
    SendsNews(variant, w, e, p);
    var told := [EntityRotation(m.entityId), EntityHeadLook(m.entityId)];
    forall o | o != p && o in w.machines
      ensures Sends(w, Step(variant, w, e), o, if (ChunkOf(m.position), o) in w.subs then told else [])
    {
      SendsNews(variant, w, e, o);
    }
  }

  // ---- Leaving ----

  /** What a client is told of a player that leaves. */
  function TellsOfLeave(m: Machine, forgotten: bool, sees: bool, plays: bool): seq<Packet> {
    (if m.phase.PLAY? && sees then [DestroyEntity(m.entityId)] else [])
    + (if forgotten && plays then [RemovePlayer(m.username)] else [])
  }

  /** Who leaves from play leaves the index, and the subscribers of its chunk are told. The players are
      told of its name, and it is forgotten, if it leaves from play or, as meant, was logged in. */
  lemma {:induction false} LeaveExactly(variant: Variant, w: World, p: Pid)
    requires p in w.machines
    ensures Enabled(variant, w, Disconnected(p))
    ensures var m, w' := w.machines[p], Step(variant, w, Disconnected(p));
      var here, plays := ChunkOf(m.position), m.phase.PLAY?;
      var forgotten := plays || (variant.Intended? && m.phase.PLAY_INIT?);
      && p !in w'.machines && p !in w'.sent && OthersAsBefore(w, w', p)
      && w'.players == (if forgotten then w.players - {p} else w.players) && w'.nextEntityId == w.nextEntityId
      && w'.members == (if plays then w.members - {(here, p)} else w.members)
      && w'.subs == (if plays then Without(w.subs, Cells(Around(here, m.viewDistance), NOWHERE), p) else w.subs)
      && forall o :: o != p && o in w.machines ==>
           Sends(w, w', o, TellsOfLeave(m, forgotten, (here, o) in w.subs, o in w.players))
  {
    var e := Disconnected(p);
    OthersStayAll(variant, w, e);
    forall o | o != p && o in w.machines
      ensures Sends(w, Step(variant, w, e), o, QuitNews(variant, w, p, o))
    {
      SendsNews(variant, w, e, o);
    }
  }

  // ---- Entity ids ----

  predicate LogsIn(w: World, e: Event) {
    e.Received? && e.packet.LoginStart? && e.p in w.machines && w.machines[e.p].phase.LOGIN?
  }

  /** The logins of a run. */
  function Logins(variant: Variant, es: seq<Event>): nat
    requires Possible(variant, es)
    decreases |es|
  {
    if es == [] then 0
    else
      Logins(variant, es[..|es| - 1]) + if LogsIn(Run(variant, es[..|es| - 1]), es[|es| - 1]) then 1 else 0
  }

  lemma {:induction false} NextId(variant: Variant, w: World, e: Event)
    requires Enabled(variant, w, e)
    ensures Step(variant, w, e).nextEntityId == w.nextEntityId + if LogsIn(w, e) then 1 else 0
  {
  }

  /** Entity ids are given out one after the other, from 1. */
  lemma {:induction false} IdsCount(variant: Variant, es: seq<Event>)
    requires Possible(variant, es)
    ensures Run(variant, es).nextEntityId == 1 + Logins(variant, es)
    decreases |es|
  {
    if es != [] {
      var before, e := es[..|es| - 1], es[|es| - 1];
      IdsCount(variant, before);
      NextId(variant, Run(variant, before), e);
    }
  }
}
