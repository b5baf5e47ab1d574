/** What a step of the transition system comes to when its packets go out one after another. */
module Deliveries {
  import opened Coords
  import opened Variants
  import opened Tracker
  import opened Client
  import opened World

  type Outbox = map<Pid, seq<Packet>>

  /** What is sent once the same packets have gone to each of a set of players. */
  function Delivered(sent: Outbox, targets: set<Pid>, ks: seq<Packet>): (r: Outbox)
    ensures r.Keys == sent.Keys && forall o :: o in sent ==> r[o] == if o in targets then sent[o] + ks else sent[o]
  {
    map o | o in sent :: if o in targets then sent[o] + ks else sent[o]
  }

  lemma {:induction false} NothingDelivered(sent: Outbox, targets: set<Pid>)
    ensures Delivered(sent, targets, []) == sent
  {
    forall o | o in sent
      ensures sent[o] + [] == sent[o]
    {
    }
  }

  lemma {:induction false} Grouped(a: seq<Packet>, b: seq<Packet>, c: seq<Packet>)
    ensures a + b + c == a + (b + c)
  {
  }

  lemma {:induction false} DeliveredTwice(sent: Outbox, targets: set<Pid>, a: seq<Packet>, b: seq<Packet>)
    ensures Delivered(Delivered(sent, targets, a), targets, b) == Delivered(sent, targets, a + b)
  {
    forall o | o in sent && o in targets
      ensures sent[o] + a + b == sent[o] + (a + b)
    {
      Grouped(sent[o], a, b);
    }
  }

  lemma {:induction false} OneMoreSent(ks: seq<Packet>, i: nat)
    requires i < |ks|
    ensures ks[..i + 1] == ks[..i] + [ks[i]]
  {
  }

  lemma {:induction false} AllSent(ks: seq<Packet>)
    ensures ks[..|ks|] == ks
  {
  }

  lemma {:induction false} OneMoreUnload(cells: seq<ChunkCoord>, c: ChunkCoord)
    ensures Unloads(cells + [c]) == Unloads(cells) + [UnloadChunk(c)]
  {
  }

  lemma {:induction false} OneMoreLoad(cells: seq<ChunkCoord>, c: ChunkCoord)
    ensures Loads(cells + [c]) == Loads(cells) + [ChunkData(c)]
  {
  }

  /** What an act comes to, part by part. */
  lemma {:induction false} Applied(variant: Variant, w: World, p: Pid, a: Act, w': World)
    requires p in w.machines <==> !a.Start?
    requires w'.machines == MachinesAfter(w, p, a) && w'.players == PlayersAfter(variant, w, p, a)
    requires w'.members == MembersAfter(w, p, a) && w'.subs == SubsAfter(variant, w, p, a)
    requires w'.nextEntityId == if a.LogIn? then w.nextEntityId + 1 else w.nextEntityId
    requires w'.sent.Keys == w'.machines.Keys
    requires forall o :: o in w'.sent ==> w'.sent[o] == Log(w, o) + News(variant, w, p, a, o)
    ensures w' == Apply(variant, w, p, a)
  {
    assert w'.sent == Apply(variant, w, p, a).sent;
  }

  /** A new connection. */
  function AfterStart(w: World, p: Pid): World {
    w.(machines := w.machines[p := NEW_MACHINE], sent := w.sent[p := []])
  }

  lemma {:induction false} StartApplied(variant: Variant, w: World, p: Pid)
    requires p !in w.machines && w.sent.Keys == w.machines.Keys
    ensures Apply(variant, w, p, Start) == AfterStart(w, p)
  {
    var w' := AfterStart(w, p);
    forall o | o in w'.sent
      ensures w'.sent[o] == Log(w, o) + News(variant, w, p, Start, o)
    {
    }
    Applied(variant, w, p, Start, w');
  }

  lemma {:induction false} IdleApplied(variant: Variant, w: World, p: Pid)
    requires p in w.machines && w.sent.Keys == w.machines.Keys
    ensures Apply(variant, w, p, Idle) == w
  {
    forall o | o in w.sent
      ensures w.sent[o] == Log(w, o) + News(variant, w, p, Idle, o)
    {
    }
    assert w.machines[p := w.machines[p]] == w.machines;
    Applied(variant, w, p, Idle, w);
  }

  function AfterRefuse(w: World, p: Pid): World {
    w.(sent := Delivered(w.sent, {p}, [Disconnect]))
  }

  lemma {:induction false} RefuseApplied(variant: Variant, w: World, p: Pid)
    requires p in w.machines && w.sent.Keys == w.machines.Keys
    ensures Apply(variant, w, p, Refuse) == AfterRefuse(w, p)
  {
    var w' := AfterRefuse(w, p);
    forall o | o in w'.sent
      ensures w'.sent[o] == Log(w, o) + News(variant, w, p, Refuse, o)
    {
    }
    assert w.machines[p := w.machines[p]] == w.machines;
    Applied(variant, w, p, Refuse, w');
  }

  function AfterShake(w: World, p: Pid, next: Phase): World
    requires p in w.machines
  {
    w.(machines := w.machines[p := w.machines[p].(phase := next)])
  }

  lemma {:induction false} ShakeApplied(variant: Variant, w: World, p: Pid, next: Phase)
    requires p in w.machines && w.sent.Keys == w.machines.Keys
    ensures Apply(variant, w, p, Shake(next)) == AfterShake(w, p, next)
  {
    var w' := AfterShake(w, p, next);
    forall o | o in w'.sent
      ensures w'.sent[o] == Log(w, o) + News(variant, w, p, Shake(next), o)
    {
    }
    Applied(variant, w, p, Shake(next), w');
  }

  function Greeting(name: string, entityId: int, names: set<string>): seq<Packet> {
    [LoginSuccess(name), JoinGame(entityId), PluginMessage, PlayerAbilities, HeldItemChange, AddPlayers(names)]
  }

  /** The client is greeted and told of the players so far; then all are told of it. */
  function AfterLogIn(w: World, p: Pid, name: string): World
    requires p in w.machines
  {
    var m := w.machines[p].(phase := PLAY_INIT, username := name, entityId := w.nextEntityId);
    var greeted := Delivered(w.sent, {p}, Greeting(name, w.nextEntityId, Names(w)));
    World(w.machines[p := m], w.players + {p}, w.members, w.subs,
          Delivered(greeted, w.players + {p}, [AddPlayers({name})]), w.nextEntityId + 1)
  }

  lemma {:induction false} LogInApplied(variant: Variant, w: World, p: Pid, name: string)
    requires p in w.machines && w.sent.Keys == w.machines.Keys
    ensures Apply(variant, w, p, LogIn(name)) == AfterLogIn(w, p, name)
  {
    var w' := AfterLogIn(w, p, name);
    forall o | o in w'.sent
      ensures w'.sent[o] == Log(w, o) + News(variant, w, p, LogIn(name), o)
    {
      if o == p {
        assert w'.sent[p] == Log(w, p) + (Greeting(name, w.nextEntityId, Names(w)) + [AddPlayers({name})]);
      }
    }
    Applied(variant, w, p, LogIn(name), w');
  }

  function AfterSettle(variant: Variant, w: World, p: Pid, vd: nat): World
    requires p in w.machines
  {
    var m := w.machines[p];
    w.(machines := w.machines[p := Settled(m, vd)], subs := SettledSubs(variant, w.subs, m, vd, p),
       sent := Delivered(w.sent, {p}, Resize(variant, m, vd) + Welcome(m, vd)))
  }

  lemma {:induction false} SettleApplied(variant: Variant, w: World, p: Pid, vd: nat)
    requires p in w.machines && w.sent.Keys == w.machines.Keys
    ensures Apply(variant, w, p, Settle(vd)) == AfterSettle(variant, w, p, vd)
  {
    var w' := AfterSettle(variant, w, p, vd);
    forall o | o in w'.sent
      ensures w'.sent[o] == Log(w, o) + News(variant, w, p, Settle(vd), o)
    {
    }
    Applied(variant, w, p, Settle(vd), w');
  }

  // ---- Entering ----

  function MembersOf(members: Relation, cells: seq<ChunkCoord>): (s: set<Pid>)
    ensures forall q :: q in s <==> exists c :: (c, q) in members && c in cells
  {
    set cp | cp in members && cp.0 in cells :: cp.1
  }

  lemma {:induction false} MembersOfMore(members: Relation, cells: seq<ChunkCoord>, c: ChunkCoord)
    ensures MembersOf(members, cells + [c]) == MembersOf(members, cells) + At(members, c)
  {
    forall q
      ensures q in MembersOf(members, cells + [c]) <==> q in MembersOf(members, cells) + At(members, c)
    {
      if q in MembersOf(members, cells) {
        var d :| (d, q) in members && d in cells;
        assert d in cells + [c];
      }
      if q in At(members, c) {
        assert (c, q) in members && c in cells + [c];
      }
    }
  }

  /** Every player in a relation is one of a set. */
  ghost predicate Live(r: Relation, keys: set<Pid>) {
    forall c, q :: (c, q) in r ==> q in keys
  }

  lemma {:induction false} VisibleLive(members: Relation, keys: set<Pid>, m: Machine, p: Pid)
    requires Live(members, keys) && p in keys
    ensures MembersOf(members + {(m.Home(), p)}, SquareOf(m.Home(), m.viewDistance)) <= keys
  {
  }

  lemma {:induction false} OneMoreSpawn(machines: map<Pid, Machine>, order: seq<Pid>, q: Pid)
    ensures Spawns(machines, order + [q]) == Spawns(machines, order) + [SpawnOf(MachineOf(machines, q))]
  {
  }

  /** Spawn packets depend on entity ids and positions alone. */
  lemma {:induction false} SpawnsAlike(machines: map<Pid, Machine>, machines': map<Pid, Machine>, order: seq<Pid>)
    requires forall i :: 0 <= i < |order| ==>
        SpawnOf(MachineOf(machines, order[i])) == SpawnOf(MachineOf(machines', order[i]))
    ensures Spawns(machines, order) == Spawns(machines', order)
  {
  }

  lemma {:induction false} OneMoreEnumerated(order: seq<Pid>, s: set<Pid>, q: Pid)
    requires Enumerates(order, s) && q !in s
    ensures Enumerates(order + [q], s + {q})
  {
    assert forall i :: 0 <= i < |order| ==> order[i] in (set o | o in order);
  }

  /** The members met before and after a player has become one itself are the same others. */
  lemma {:induction false} VisibleOthers(w: World, p: Pid)
    requires p in w.machines
    ensures var m := w.machines[p];
      MembersOf(w.members + {(m.Home(), p)}, SquareOf(m.Home(), m.viewDistance)) - {p} == Visible(w, p)
  {
    var m := w.machines[p];
    CellsExactly(m.Square(), NOWHERE);
    forall q
      ensures q in MembersOf(w.members + {(m.Home(), p)}, SquareOf(m.Home(), m.viewDistance)) - {p}
          <==> q in Visible(w, p)
    {
      if q in Visible(w, p) {
        var c :| (c, q) in w.members && m.Square().Contains(c);
        assert (c, q) in w.members + {(m.Home(), p)} && c in SquareOf(m.Home(), m.viewDistance);
      }
    }
  }

  // ---- Moving ----

  /** What one watcher of the chunk that was left has been sent, once some have. */
  function LeftNews(o: Pid, p: Pid, done: set<Pid>, toSubs: set<Pid>, m: Machine, to: EntityCoord,
      rotate: bool): seq<Packet>
  {
    if o == p || o !in done then []
    else if o in toSubs then MoveNews(m, to, rotate)
    else [DestroyEntity(m.entityId)]
  }

  lemma {:induction false} LeftIsDelivered(
      before: Outbox, sent: Outbox, p: Pid, F: set<Pid>, T: set<Pid>, m: Machine, to: EntityCoord, rotate: bool)
    requires sent.Keys == before.Keys
    requires forall o :: o in sent ==> sent[o] == before[o] + LeftNews(o, p, F, T, m, to, rotate)
    ensures sent == Delivered(Delivered(before, F * T - {p}, MoveNews(m, to, rotate)), F - T - {p},
        [DestroyEntity(m.entityId)])
  {
    var told := Delivered(Delivered(before, F * T - {p}, MoveNews(m, to, rotate)), F - T - {p},
        [DestroyEntity(m.entityId)]);
    forall o | o in sent
      ensures sent[o] == told[o]
    {
    }
  }

  /** What all have been sent once those who watch the chunk a player left, F, or the one it came
      to, T, have been told. */
  function Watched(sent: Outbox, p: Pid, F: set<Pid>, T: set<Pid>, m: Machine, to: EntityCoord, rotate: bool): Outbox {
    var moved := Delivered(sent, F * T - {p}, MoveNews(m, to, rotate));
    var left := Delivered(moved, F - T - {p}, [DestroyEntity(m.entityId)]);
    Delivered(left, T - F - {p}, [SpawnPlayer(m.entityId, to)])
  }

  // ---- Handlers as acts ----

  /** The player enters: those who watch its chunk are told of it, and it is told of others. */
  function AfterEnter(w: World, p: Pid, id: int, order: seq<Pid>): World
    requires p in w.machines
  {
    var m := w.machines[p];
    var subs := With(w.subs, SquareOf(m.Home(), m.viewDistance), p);
    var checked := Delivered(w.sent, {p}, if id in m.outstandingTeleportIds then [] else [Disconnect]);
    var told := Delivered(checked, At(subs, m.Home()) - {p}, [SpawnOf(m)]);
    w.(machines := w.machines[p := Entered(m, id)], members := w.members + {(m.Home(), p)}, subs := subs,
       sent := Delivered(told, {p}, Spawns(w.machines, order)))
  }

  lemma {:induction false} EnterSent(variant: Variant, w: World, p: Pid, id: int, order: seq<Pid>, o: Pid)
    requires p in w.machines && w.sent.Keys == w.machines.Keys && o in w.sent
    ensures AfterEnter(w, p, id, order).sent[o] == w.sent[o] + News(variant, w, p, Enter(id, order), o)
  {
    if o == p {
      var refusal := if id in w.machines[p].outstandingTeleportIds then [] else [Disconnect];
      Grouped(w.sent[p], refusal, Spawns(w.machines, order));
    }
  }

  lemma {:induction false} EnterApplied(variant: Variant, w: World, p: Pid, id: int, order: seq<Pid>)
    requires p in w.machines && w.sent.Keys == w.machines.Keys
    ensures Apply(variant, w, p, Enter(id, order)) == AfterEnter(w, p, id, order)
  {
    var w' := AfterEnter(w, p, id, order);
    forall o | o in w'.sent
      ensures w'.sent[o] == Log(w, o) + News(variant, w, p, Enter(id, order), o)
    {
      EnterSent(variant, w, p, id, order, o);
    }
    Applied(variant, w, p, Enter(id, order), w');
  }

  /** A move within a chunk. */
  function AfterNudge(w: World, p: Pid, to: EntityCoord, rotate: bool): World
    requires p in w.machines
  {
    var m := w.machines[p];
    w.(machines := w.machines[p := m.(position := to)],
       sent := Delivered(w.sent, At(w.subs, ChunkOf(to)) - {p}, MoveNews(m, to, rotate)))
  }

  lemma {:induction false} NudgeApplied(variant: Variant, w: World, p: Pid, to: EntityCoord, rotate: bool)
    requires p in w.machines && w.sent.Keys == w.machines.Keys && w.machines[p].Home() == ChunkOf(to)
    ensures Apply(variant, w, p, Walk(to, rotate)) == AfterNudge(w, p, to, rotate)
  {
    var w' := AfterNudge(w, p, to, rotate);
    forall o | o in w'.sent
      ensures w'.sent[o] == Log(w, o) + News(variant, w, p, Walk(to, rotate), o)
    {
    }
    Applied(variant, w, p, Walk(to, rotate), w');
  }

  /** What all have been sent once a player has crossed into another chunk. */
  function Crossed(w: World, p: Pid, to: EntityCoord, rotate: bool, subs: Relation): Outbox
    requires p in w.machines
  {
    var m := w.machines[p];
    Watched(Delivered(w.sent, {p}, CrossingNews(m, ChunkOf(to))), p, At(subs, m.Home()), At(subs, ChunkOf(to)), m, to,
        rotate)
  }

  function WatcherNews(o: Pid, F: set<Pid>, T: set<Pid>, m: Machine, to: EntityCoord, rotate: bool): seq<Packet> {
    if o in F then
      if o in T then MoveNews(m, to, rotate) else [DestroyEntity(m.entityId)]
    else
      if o in T then [SpawnPlayer(m.entityId, to)] else []
  }

  lemma {:induction false} WatchedOne(sent: Outbox, p: Pid, F: set<Pid>, T: set<Pid>,
                                      m: Machine, to: EntityCoord, rotate: bool, o: Pid)
    requires o in sent
    ensures o in Watched(sent, p, F, T, m, to, rotate)
    ensures Watched(sent, p, F, T, m, to, rotate)[o] == sent[o] + if o == p then []
        else WatcherNews(o, F, T, m, to, rotate)
  {
  }

  lemma {:induction false} CrossedOne(w: World, p: Pid, to: EntityCoord, rotate: bool, subs: Relation, o: Pid)
    requires p in w.machines && o in w.sent
    requires o != p ==> ((w.machines[p].Home(), o) in subs <==> (w.machines[p].Home(), o) in w.subs)
    requires o != p ==> ((ChunkOf(to), o) in subs <==> (ChunkOf(to), o) in w.subs)
    ensures o in Crossed(w, p, to, rotate, subs)
    ensures Crossed(w, p, to, rotate, subs)[o]
         == w.sent[o] + if o == p then CrossingNews(w.machines[p], ChunkOf(to))
             else WalkNews(w, w.machines[p], to, rotate, o)
  {
    var m, c := w.machines[p], ChunkOf(to);
    WatchedOne(Delivered(w.sent, {p}, CrossingNews(m, c)), p, At(subs, m.Home()), At(subs, c), m, to, rotate, o);
  }

  lemma {:induction false} SubsOfOthers(variant: Variant, w: World, p: Pid, to: EntityCoord, rotate: bool,
                                        o: Pid, c: ChunkCoord)
    requires p in w.machines && o != p
    ensures (c, o) in SubsAfter(variant, w, p, Walk(to, rotate)) <==> (c, o) in w.subs
  {
  }

  lemma {:induction false} CrossingSent(variant: Variant, w: World, p: Pid, to: EntityCoord, rotate: bool, o: Pid)
    requires p in w.machines && o in w.machines && w.sent.Keys == w.machines.Keys
    ensures var sent := Apply(variant, w, p, Walk(to, rotate)).sent;
      o in sent && sent[o]
        == w.sent[o] + if o == p then CrossingNews(w.machines[p], ChunkOf(to))
            else WalkNews(w, w.machines[p], to, rotate, o)
  {
  }

  lemma {:induction false} SameOutbox(a: Outbox, b: Outbox)
    requires a.Keys == b.Keys && forall o :: o in a ==> a[o] == b[o]
    ensures a == b
  {
  }

  lemma {:induction false} CrossedIsSent(variant: Variant, w: World, p: Pid, to: EntityCoord, rotate: bool,
                                         subs: Relation, sent: Outbox)
    requires p in w.machines && w.sent.Keys == w.machines.Keys && w.machines[p].Home() != ChunkOf(to)
    requires subs == SubsAfter(variant, w, p, Walk(to, rotate)) && sent == Apply(variant, w, p, Walk(to, rotate)).sent
    ensures Crossed(w, p, to, rotate, subs) == sent
  {
    forall o | o in w.sent
      ensures o in Crossed(w, p, to, rotate, subs) && o in sent && Crossed(w, p, to, rotate, subs)[o] == sent[o]
    {
      CrossingSent(variant, w, p, to, rotate, o);
      if o != p {
        SubsOfOthers(variant, w, p, to, rotate, o, w.machines[p].Home());
        SubsOfOthers(variant, w, p, to, rotate, o, ChunkOf(to));
      }
      CrossedOne(w, p, to, rotate, subs, o);
    }
    assert sent.Keys == w.sent.Keys;
    SameOutbox(Crossed(w, p, to, rotate, subs), sent);
  }

  /** A move into another chunk. */
  function AfterCrossing(w: World, p: Pid, to: EntityCoord, rotate: bool): World
    requires p in w.machines
  {
    var m := w.machines[p];
    var from, c := m.Home(), ChunkOf(to);
    var subs := With(Without(w.subs, Newly(c, from, m.viewDistance), p), Newly(from, c, m.viewDistance), p);
    w.(machines := w.machines[p := m.(position := to)], members := w.members - {(from, p)} + {(c, p)}, subs := subs,
       sent := Crossed(w, p, to, rotate, subs))
  }

  lemma {:induction false} CrossingApplied(variant: Variant, w: World, p: Pid, to: EntityCoord, rotate: bool)
    requires p in w.machines && w.sent.Keys == w.machines.Keys && w.machines[p].Home() != ChunkOf(to)
    ensures Apply(variant, w, p, Walk(to, rotate)) == AfterCrossing(w, p, to, rotate)
  {
    var a := Walk(to, rotate);
    CrossedIsSent(variant, w, p, to, rotate, SubsAfter(variant, w, p, a), Apply(variant, w, p, a).sent);
  }

  function AfterTurn(w: World, p: Pid): World
    requires p in w.machines
  {
    var m := w.machines[p];
    w.(sent := Delivered(w.sent, At(w.subs, m.Home()) - {p}, [EntityRotation(m.entityId), EntityHeadLook(m.entityId)]))
  }

  lemma {:induction false} TurnApplied(variant: Variant, w: World, p: Pid)
    requires p in w.machines && w.sent.Keys == w.machines.Keys
    ensures Apply(variant, w, p, Turn) == AfterTurn(w, p)
  {
    var w' := AfterTurn(w, p);
    forall o | o in w'.sent
      ensures w'.sent[o] == Log(w, o) + News(variant, w, p, Turn, o)
    {
    }
    assert w.machines[p := w.machines[p]] == w.machines;
    Applied(variant, w, p, Turn, w');
  }

  // ---- Leaving ----

  /** A player in play goes from the tracker, and those who watch its chunk are told. */
  function AfterLeave(w: World, p: Pid): World
    requires p in w.machines
  {
    var m := w.machines[p];
    var subs := Without(w.subs, SquareOf(m.Home(), m.viewDistance), p);
    w.(members := w.members - {(m.Home(), p)}, subs := subs,
       sent := Delivered(w.sent, At(subs, m.Home()) - {p}, [DestroyEntity(m.entityId)]))
  }

  /** A player goes from the set of players, and the rest are told. */
  function AfterUnregister(w: World, p: Pid): World
    requires p in w.machines
  {
    w.(players := w.players - {p}, sent := Delivered(w.sent, w.players - {p}, [RemovePlayer(w.machines[p].username)]))
  }

  function AfterQuit(variant: Variant, w: World, p: Pid): World
    requires p in w.machines
  {
    var m := w.machines[p];
    var left := if m.phase.PLAY? then AfterLeave(w, p) else w;
    var unregistered := if Unregisters(variant, m) then AfterUnregister(left, p) else left;
    unregistered.(machines := w.machines - {p}, sent := unregistered.sent - {p})
  }

  lemma {:induction false} QuitSent(variant: Variant, w: World, p: Pid, o: Pid)
    requires p in w.machines && w.sent.Keys == w.machines.Keys && o in w.sent && o != p
    ensures o in AfterQuit(variant, w, p).sent
        && AfterQuit(variant, w, p).sent[o] == w.sent[o] + QuitNews(variant, w, p, o)
  {
    var m := w.machines[p];
    var gone := if m.phase.PLAY? && (m.Home(), o) in w.subs then [DestroyEntity(m.entityId)] else [];
    var listed := if o in w.players && Unregisters(variant, m) then [RemovePlayer(m.username)] else [];
    assert QuitNews(variant, w, p, o) == gone + listed;
    var left := if m.phase.PLAY? then AfterLeave(w, p) else w;
    assert left.sent[o] == w.sent[o] + gone;
    Grouped(w.sent[o], gone, listed);
  }

  lemma {:induction false} QuitApplied(variant: Variant, w: World, p: Pid)
    requires p in w.machines && w.sent.Keys == w.machines.Keys
    ensures Apply(variant, w, p, Quit) == AfterQuit(variant, w, p)
  {
    var w' := AfterQuit(variant, w, p);
    forall o | o in w'.sent
      ensures w'.sent[o] == Log(w, o) + News(variant, w, p, Quit, o)
    {
      QuitSent(variant, w, p, o);
    }
    Applied(variant, w, p, Quit, w');
  }

  // ---- Any act ----

  /** A step as a sequence of handler actions, each sending its packets in turn. */
  function After(variant: Variant, w: World, p: Pid, a: Act): World
    requires p in w.machines <==> !a.Start?
  {
    match a
    case Idle => w
    case Refuse => AfterRefuse(w, p)
    case Start => AfterStart(w, p)
    case Shake(next) => AfterShake(w, p, next)
    case LogIn(name) => AfterLogIn(w, p, name)
    case Settle(vd) => AfterSettle(variant, w, p, vd)
    case Enter(id, order) => AfterEnter(w, p, id, order)
    case Walk(to, rotate) =>
      if w.machines[p].Home() == ChunkOf(to) then AfterNudge(w, p, to, rotate) else AfterCrossing(w, p, to, rotate)
    case Turn => AfterTurn(w, p)
    case Quit => AfterQuit(variant, w, p)
  }

  /** It is the step of the transition system, which says for each connection on its own what it
      is sent. */
  lemma {:induction false} AfterIsApply(variant: Variant, w: World, p: Pid, a: Act)
    requires (p in w.machines <==> !a.Start?) && w.sent.Keys == w.machines.Keys
    ensures After(variant, w, p, a) == Apply(variant, w, p, a)
  {
    match a {
      case Idle => IdleApplied(variant, w, p);
      case Refuse => RefuseApplied(variant, w, p);
      case Start => StartApplied(variant, w, p);
      case Shake(next) => ShakeApplied(variant, w, p, next);
      case LogIn(name) => LogInApplied(variant, w, p, name);
      case Settle(vd) => SettleApplied(variant, w, p, vd);
      case Enter(id, order) => EnterApplied(variant, w, p, id, order);
      case Walk(to, rotate) =>
        if w.machines[p].Home() == ChunkOf(to) {
          NudgeApplied(variant, w, p, to, rotate);
        } else {
          CrossingApplied(variant, w, p, to, rotate);
        }
      case Turn => TurnApplied(variant, w, p);
      case Quit => QuitApplied(variant, w, p);
    }
  }

  /** Only logins and departures change the registry. */
  lemma {:induction false} RegistryStays(variant: Variant, w: World, p: Pid, a: Act)
    requires p in w.machines <==> !a.Start?
    ensures !a.LogIn? && !a.Quit? ==>
      After(variant, w, p, a).players == w.players && After(variant, w, p, a).nextEntityId == w.nextEntityId
  {
  }

  lemma {:induction false} RefusalChangesNothing(machines: map<Pid, Machine>, p: Pid, id: int)
    requires p in machines && id !in machines[p].outstandingTeleportIds
    ensures machines[p := machines[p].(
      outstandingTeleportIds := set i | i in machines[p].outstandingTeleportIds && i != id)] == machines
  {
    var m := machines[p];
    var kept: set<nat> := set i | i in m.outstandingTeleportIds && i != id;
    assert kept == m.outstandingTeleportIds;
    assert m.(outstandingTeleportIds := kept) == m;
    assert machines[p := m] == machines;
  }
}
