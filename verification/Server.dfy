/** The handlers of source/proxyd/statemachine.cpp over the objects they update, each proved to do
    what the transition system says. */
module Server {
  import opened Coords
  import opened Variants
  import opened Tracker
  import opened Client
  import opened World
  import opened Deliveries
  import opened WorldIndex

  /** The state machine of each connection, the global state, and what each connection has been
      given to send. A handler of the machine of p updates the record at p. */
  class ProxyServer {
    const variant: Variant
    const tracker: PlayerTracker
    var machines: map<Pid, Machine>
    var players: set<Pid>
    var sent: Outbox
    var nextEntityId: nat

    constructor (variant: Variant)
      ensures Valid() && this.variant == variant && State() == EMPTY_WORLD && fresh(tracker)
    {
      this.variant := variant;
      tracker := new PlayerTracker(variant);
      machines := map[];
      players := {};
      sent := map[];
      nextEntityId := 1;
    }

    ghost predicate Valid()
      reads this`machines, this`sent
    {
      sent.Keys == machines.Keys && tracker.variant == variant
    }

    ghost function State(): World
      reads this, tracker
    {
      World(machines, players, tracker.Members(), tracker.Subs(), sent, nextEntityId)
    }

    /** The parts of the state that handlers other than those of login and departure change. */
    ghost predicate Is(w: World)
      reads this`machines, this`sent, tracker
    {
      machines == w.machines && sent == w.sent && tracker.Members() == w.members && tracker.Subs() == w.subs
    }

    /** The other parts. */
    ghost predicate Registry(w: World)
      reads this`players, this`nextEntityId
    {
      players == w.players && nextEntityId == w.nextEntityId
    }

    // ---- Teleports ----

    method StartTeleport(p: Pid) returns (id: nat)
      requires p in machines
      modifies this`machines
      ensures var m := old(machines)[p];
        && id == m.nextTeleportId
        && machines == old(machines)[
             p := m.(nextTeleportId := id + 1, outstandingTeleportIds := m.outstandingTeleportIds + {id})]
    {
      var m := machines[p];
      id := m.nextTeleportId;
      machines := machines[
        p := m.(nextTeleportId := id + 1, outstandingTeleportIds := m.outstandingTeleportIds + {id})];
    }

    method ConfirmTeleport(p: Pid, id: int) returns (ok: bool)
      requires p in machines
      modifies this`machines
      ensures var m := old(machines)[p];
        && (ok <==> id in m.outstandingTeleportIds)
        && machines == old(machines)[
             p := m.(outstandingTeleportIds := set i | i in m.outstandingTeleportIds && i != id)]
    {
      var m := machines[p];
      ok := id in m.outstandingTeleportIds;
      machines := machines[p := m.(outstandingTeleportIds := set i | i in m.outstandingTeleportIds && i != id)];
    }

    // ---- Sending ----

    method Send(p: Pid, k: Packet)
      requires p in sent
      modifies this`sent
      ensures sent == Delivered(old(sent), {p}, [k])
    {
      sent := sent[p := sent[p] + [k]];
    }

    /** A loop of sends to each of a set of players. One that is gone gets nothing: as written,
        the set of players can hold such. */
    method Broadcast(targets: set<Pid>, k: Packet)
      modifies this`sent
      ensures sent == Delivered(old(sent), targets, [k])
    {
      var rest := targets;
      while rest != {}
        invariant rest <= targets
        invariant sent == Delivered(old(sent), targets - rest, [k])
        decreases rest
      {
        var q :| q in rest;
        rest := rest - {q};
        if q in sent {
          sent := sent[q := sent[q] + [k]];
        }
      }
      assert targets - rest == targets;
    }

    /** One more packet after those already sent to the same client. */
    method SendNext(p: Pid, ghost before: Outbox, ghost ks: seq<Packet>, k: Packet)
      requires p in sent && sent == Delivered(before, {p}, ks)
      modifies this`sent
      ensures sent == Delivered(before, {p}, ks + [k]) && p in sent
    {
      Send(p, k);
      DeliveredTwice(before, {p}, ks, [k]);
    }

    method SendUnload(p: Pid, ghost before: Outbox, ghost cells: seq<ChunkCoord>, c: ChunkCoord)
      requires p in sent && sent == Delivered(before, {p}, Unloads(cells))
      modifies this`sent
      ensures sent == Delivered(before, {p}, Unloads(cells + [c])) && p in sent
    {
      OneMoreUnload(cells, c);
      SendNext(p, before, Unloads(cells), UnloadChunk(c));
    }

    method SendChunk(p: Pid, ghost before: Outbox, ghost cells: seq<ChunkCoord>, c: ChunkCoord)
      requires p in sent && sent == Delivered(before, {p}, Loads(cells))
      modifies this`sent
      ensures sent == Delivered(before, {p}, Loads(cells + [c])) && p in sent
    {
      OneMoreLoad(cells, c);
      SendNext(p, before, Loads(cells), ChunkData(c));
    }

    method SendUnloads(p: Pid, cells: seq<ChunkCoord>)
      requires p in sent
      modifies this`sent
      ensures sent == Delivered(old(sent), {p}, Unloads(cells))
    {
      NothingDelivered(sent, {p});
      for i := 0 to |cells|
        invariant p in sent && sent == Delivered(old(sent), {p}, Unloads(cells)[..i])
      {
        OneMoreSent(Unloads(cells), i);
        SendNext(p, old(sent), Unloads(cells)[..i], UnloadChunk(cells[i]));
      }
      AllSent(Unloads(cells));
    }

    method SendChunks(p: Pid, cells: seq<ChunkCoord>)
      requires p in sent
      modifies this`sent
      ensures sent == Delivered(old(sent), {p}, Loads(cells))
    {
      NothingDelivered(sent, {p});
      for i := 0 to |cells|
        invariant p in sent && sent == Delivered(old(sent), {p}, Loads(cells)[..i])
      {
        OneMoreSent(Loads(cells), i);
        SendNext(p, old(sent), Loads(cells)[..i], ChunkData(cells[i]));
      }
      AllSent(Loads(cells));
    }

    /** One round of the loops: a cell in the smaller square is passed over. */
    method SendRingCell(p: Pid, c: ChunkCoord, larger: nat, smaller: nat, x: int, z: int, ghost before: Outbox)
      requires p in sent && c.x - larger <= x <= c.x + larger && c.z - larger <= z <= c.z + larger
      requires sent == Delivered(before, {p}, Loads(Sweep(Around(c, larger), Kept(variant, c, larger, smaller), x, z)))
      modifies this`sent
      ensures p in sent
      ensures sent == Delivered(before, {p},
          Loads(Sweep(Around(c, larger), Kept(variant, c, larger, smaller), x, z + 1)))
    {
      SweepStep(Around(c, larger), Kept(variant, c, larger, smaller), x, z);
      var dx, dz := x - c.x, z - c.z;
      if dx <= smaller && dz <= smaller && (variant.Written? || (0 <= smaller + dx && 0 <= smaller + dz)) {
        return;
      }
      SendChunk(p, before, Sweep(Around(c, larger), Kept(variant, c, larger, smaller), x, z), ChunkCoord(x, z));
    }

    /** The chunks of the larger square outside the smaller, as the guard of the loops has it. */
    method SendRing(p: Pid, c: ChunkCoord, larger: nat, smaller: nat)
      requires p in sent
      modifies this`sent
      ensures sent == Delivered(old(sent), {p}, Loads(Cells(Around(c, larger), Kept(variant, c, larger, smaller))))
    {
      var area := Around(c, larger);
      ghost var kept := Kept(variant, c, larger, smaller);
      NothingDelivered(sent, {p});
      assert Loads([]) == [];
      for x := area.x0 to area.x1 + 1
        invariant p in sent && sent == Delivered(old(sent), {p}, Loads(Sweep(area, kept, x, area.z0)))
      {
        for z := area.z0 to area.z1 + 1
          invariant p in sent && sent == Delivered(old(sent), {p}, Loads(Sweep(area, kept, x, z)))
        {
          SendRingCell(p, c, larger, smaller, x, z, old(sent));
        }
      }
    }

    /** One round of the loops: a cell in the smaller square is passed over. */
    method UnloadRingCell(p: Pid, c: ChunkCoord, larger: nat, smaller: nat, x: int, z: int, ghost before: Outbox)
      requires p in sent && c.x - larger <= x <= c.x + larger && c.z - larger <= z <= c.z + larger
      requires sent == Delivered(before, {p},
          Unloads(Sweep(Around(c, larger), Kept(variant, c, larger, smaller), x, z)))
      modifies this`sent
      ensures p in sent
      ensures sent == Delivered(before, {p},
          Unloads(Sweep(Around(c, larger), Kept(variant, c, larger, smaller), x, z + 1)))
    {
      SweepStep(Around(c, larger), Kept(variant, c, larger, smaller), x, z);
      var dx, dz := x - c.x, z - c.z;
      if dx <= smaller && dz <= smaller && (variant.Written? || (0 <= smaller + dx && 0 <= smaller + dz)) {
        return;
      }
      SendUnload(p, before, Sweep(Around(c, larger), Kept(variant, c, larger, smaller), x, z), ChunkCoord(x, z));
    }

    method UnloadRing(p: Pid, c: ChunkCoord, larger: nat, smaller: nat)
      requires p in sent
      modifies this`sent
      ensures sent == Delivered(old(sent), {p}, Unloads(Cells(Around(c, larger), Kept(variant, c, larger, smaller))))
    {
      var area := Around(c, larger);
      ghost var kept := Kept(variant, c, larger, smaller);
      NothingDelivered(sent, {p});
      assert Unloads([]) == [];
      for x := area.x0 to area.x1 + 1
        invariant p in sent && sent == Delivered(old(sent), {p}, Unloads(Sweep(area, kept, x, area.z0)))
      {
        for z := area.z0 to area.z1 + 1
          invariant p in sent && sent == Delivered(old(sent), {p}, Unloads(Sweep(area, kept, x, z)))
        {
          UnloadRingCell(p, c, larger, smaller, x, z, old(sent));
        }
      }
    }

    method SendSquare(p: Pid, c: ChunkCoord, vd: nat)
      requires p in sent
      modifies this`sent
      ensures sent == Delivered(old(sent), {p}, Loads(SquareOf(c, vd)))
    {
      var area := Around(c, vd);
      NothingDelivered(sent, {p});
      assert Loads([]) == [];
      for x := area.x0 to area.x1 + 1
        invariant p in sent && sent == Delivered(old(sent), {p}, Loads(Sweep(area, NOWHERE, x, area.z0)))
      {
        for z := area.z0 to area.z1 + 1
          invariant p in sent && sent == Delivered(old(sent), {p}, Loads(Sweep(area, NOWHERE, x, z)))
        {
          SweepStep(area, NOWHERE, x, z);
          SendChunk(p, old(sent), Sweep(area, NOWHERE, x, z), ChunkCoord(x, z));
        }
      }
    }

    // ---- Connections open ----

    method OnClientConnected(ghost w: World, p: Pid)
      requires Valid() && Is(w) && p !in machines
      modifies this`machines, this`sent
      ensures Valid() && Is(AfterStart(w, p))
    {
      machines := machines[p := NEW_MACHINE];
      sent := sent[p := []];
    }

    // ---- Login ----

    /** The names of all players, for the list a new client starts with. */
    method PlayerNames() returns (names: set<string>)
      ensures names == NamesOf(players, machines)
    {
      names := {};
      var rest := players;
      while rest != {}
        invariant rest <= players
        invariant names == set q | q in players - rest && q in machines :: machines[q].username
        decreases rest
      {
        var q :| q in rest;
        ghost var done := players - rest;
        rest := rest - {q};
        assert players - rest == done + {q};
        if q in machines {
          names := names + {machines[q].username};
        }
      }
      assert players - rest == players;
      assert NamesOf(players, machines) == set q | q in players && q in machines :: machines[q].username;
    }

    method Greet(p: Pid, name: string, entityId: int, names: set<string>)
      requires p in sent
      modifies this`sent
      ensures sent == Delivered(old(sent), {p}, Greeting(name, entityId, names))
    {
      ghost var before, ks := sent, Greeting(name, entityId, names);
      NothingDelivered(sent, {p});
      assert ks[..1] == [] + [ks[0]] && ks[..2] == ks[..1] + [ks[1]] && ks[..3] == ks[..2] + [ks[2]];
      assert ks[..4] == ks[..3] + [ks[3]] && ks[..5] == ks[..4] + [ks[4]] && ks == ks[..5] + [ks[5]];
      SendNext(p, before, [], LoginSuccess(name));
      SendNext(p, before, ks[..1], JoinGame(entityId));
      SendNext(p, before, ks[..2], PluginMessage);
      SendNext(p, before, ks[..3], PlayerAbilities);
      SendNext(p, before, ks[..4], HeldItemChange);
      SendNext(p, before, ks[..5], AddPlayers(names));
    }

    /** The new client is told of the players so far, is made one, and all are told of it. */
    method Register(p: Pid, name: string, entityId: int, names: set<string>)
      requires p in sent
      modifies this`players, this`sent
      ensures players == old(players) + {p}
      ensures sent == Delivered(Delivered(old(sent), {p}, Greeting(name, entityId, names)), players,
          [AddPlayers({name})])
    {
      Greet(p, name, entityId, names);
      players := players + {p};
      Broadcast(players, AddPlayers({name}));
    }

    // ---- Settings ----

    method OnClientSettingsChange(p: Pid, requested: int)
      requires p in machines && p in sent && tracker.variant == variant
      modifies this`machines, this`sent, tracker`subscriptions
      ensures var m, vd := old(machines)[p], ClampViewDistance(requested);
        && machines == old(machines)[p := m.(viewDistance := vd)]
        && tracker.Subs() == SettledSubs(variant, old(tracker.Subs()), m, vd, p)
        && sent == Delivered(old(sent), {p}, Resize(variant, m, vd))
    {
      var m := machines[p];
      var oldVd, home := m.viewDistance, ChunkOf(m.position);
      var vd := ClampViewDistance(requested);
      machines := machines[p := m.(viewDistance := vd)];
      if Tracked(variant, m) {
        tracker.UpdateViewDistance(home, oldVd, vd, p);
      }
      NothingDelivered(sent, {p});
      if oldVd != 0 {
        if vd < oldVd {
          UnloadRing(p, home, oldVd, vd);
        } else if oldVd < vd {
          SendRing(p, home, vd, oldVd);
        }
      }
    }

    /** The rest of what settings bring before the player has entered: its square, and a teleport
        it is to confirm. */
    method SendWelcome(p: Pid)
      requires p in machines && p in sent && machines[p].phase.PLAY_INIT?
      modifies this`machines, this`sent
      ensures var m := old(machines)[p];
        && machines == old(machines)[p := Settled(m, m.viewDistance)]
        && sent == Delivered(old(sent), {p}, Welcome(m, m.viewDistance))
    {
      var m := machines[p];
      ghost var before, chunks := sent, Loads(SquareOf(ChunkOf(m.position), m.viewDistance));
      SendSquare(p, ChunkOf(m.position), m.viewDistance);
      SendNext(p, before, chunks, SpawnPosition);
      var id := StartTeleport(p);
      SendNext(p, before, chunks + [SpawnPosition], PlayerPositionLook(m.position, id));
      assert chunks + [SpawnPosition] + [PlayerPositionLook(m.position, id)]
          == chunks + [SpawnPosition, PlayerPositionLook(m.position, id)];
    }

    method OnClientSettings(p: Pid, requested: int)
      requires p in machines && p in sent && tracker.variant == variant && machines[p].LoggedIn()
      modifies this`machines, this`sent, tracker`subscriptions
      ensures var m, vd := old(machines)[p], ClampViewDistance(requested);
        && machines == old(machines)[p := Settled(m, vd)]
        && tracker.Subs() == SettledSubs(variant, old(tracker.Subs()), m, vd, p)
        && sent == Delivered(old(sent), {p}, Resize(variant, m, vd) + Welcome(m, vd))
    {
      ghost var m := machines[p];
      ghost var vd := ClampViewDistance(requested);
      OnClientSettingsChange(p, requested);
      DeliveredTwice(old(sent), {p}, Resize(variant, m, vd), Welcome(m, vd));
      NothingDelivered(sent, {p});
      if machines[p].phase.PLAY_INIT? {
        SendWelcome(p);
      }
    }

    // ---- Entering ----

    /** enter, and the spawn told to all who watch the chunk. */
    method EnterTracker(p: Pid)
      requires p in machines && p in sent
      modifies this`sent, tracker`membership, tracker`subscriptions
      ensures var m := machines[p];
        && tracker.Members() == old(tracker.Members()) + {(m.Home(), p)}
        && tracker.Subs() == With(old(tracker.Subs()), SquareOf(m.Home(), m.viewDistance), p)
        && sent == Delivered(old(sent), At(tracker.Subs(), m.Home()) - {p}, [SpawnOf(m)])
    {
      var m := machines[p];
      var home := ChunkOf(m.position);
      tracker.Enter(home, m.viewDistance, p);
      var subscribers := tracker.Subscribers(home);
      Broadcast(subscribers - {p}, SpawnPlayer(m.entityId, m.position));
    }

    /** The members of all chunks of a square. */
    method VisiblePlayers(c: ChunkCoord, vd: nat) returns (visible: set<Pid>)
      ensures visible == MembersOf(tracker.Members(), SquareOf(c, vd))
    {
      var area := Around(c, vd);
      visible := {};
      for x := area.x0 to area.x1 + 1
        invariant visible == MembersOf(tracker.Members(), Sweep(area, NOWHERE, x, area.z0))
      {
        for z := area.z0 to area.z1 + 1
          invariant visible == MembersOf(tracker.Members(), Sweep(area, NOWHERE, x, z))
        {
          SweepStep(area, NOWHERE, x, z);
          MembersOfMore(tracker.Members(), Sweep(area, NOWHERE, x, z), ChunkCoord(x, z));
          var members := tracker.MembersAt(ChunkCoord(x, z));
          visible := visible + members;
        }
      }
    }

    /** The next spawn in a client's sequence of them. */
    method SendSpawn(p: Pid, ghost before: Outbox, ghost order: seq<Pid>, q: Pid)
      requires p in sent && q in machines
      requires sent == Delivered(before, {p}, Spawns(machines, order))
      modifies this`sent
      ensures p in sent && sent == Delivered(before, {p}, Spawns(machines, order + [q]))
    {
      OneMoreSpawn(machines, order, q);
      SendNext(p, before, Spawns(machines, order), SpawnPlayer(machines[q].entityId, machines[q].position));
    }

    /** A spawn for each other player in view, in whatever order the set is traversed. */
    method SendSpawns(p: Pid, visible: set<Pid>) returns (order: seq<Pid>)
      requires p in sent && visible <= machines.Keys
      modifies this`sent
      ensures p in sent && Enumerates(order, visible - {p})
      ensures sent == Delivered(old(sent), {p}, Spawns(machines, order))
    {
      order := [];
      var rest := visible - {p};
      ghost var done: set<Pid> := {};
      NothingDelivered(sent, {p});
      assert Spawns(machines, []) == [];
      while rest != {}
        invariant done !! rest && done + rest == visible - {p} && p in sent
        invariant Enumerates(order, done)
        invariant sent == Delivered(old(sent), {p}, Spawns(machines, order))
        decreases rest
      {
        var q :| q in rest;
        rest := rest - {q};
        OneMoreEnumerated(order, done, q);
        done := done + {q};
        SendSpawn(p, old(sent), order, q);
        order := order + [q];
      }
    }

    /** The player becomes one that others see, and sees others. */
    method EnterWorld(p: Pid) returns (order: seq<Pid>)
      requires p in machines && p in sent && Live(tracker.Members(), machines.Keys)
      modifies this`sent, tracker`membership, tracker`subscriptions
      ensures var m := machines[p];
        && tracker.Members() == old(tracker.Members()) + {(m.Home(), p)}
        && tracker.Subs() == With(old(tracker.Subs()), SquareOf(m.Home(), m.viewDistance), p)
        && Enumerates(order, MembersOf(tracker.Members(), SquareOf(m.Home(), m.viewDistance)) - {p})
        && sent == Delivered(Delivered(old(sent), At(tracker.Subs(), m.Home()) - {p}, [SpawnOf(m)]), {p},
            Spawns(machines, order))
    {
      var m := machines[p];
      VisibleLive(tracker.Members(), machines.Keys, m, p);
      EnterTracker(p);
      var visible := VisiblePlayers(ChunkOf(m.position), m.viewDistance);
      order := SendSpawns(p, visible);
    }

    method EnterPlay(p: Pid) returns (order: seq<Pid>)
      requires p in machines && p in sent && Live(tracker.Members(), machines.Keys)
      modifies this`machines, this`sent, tracker`membership, tracker`subscriptions
      ensures var m := old(machines)[p];
        && machines == old(machines)[p := m.(phase := PLAY)]
        && tracker.Members() == old(tracker.Members()) + {(m.Home(), p)}
        && tracker.Subs() == With(old(tracker.Subs()), SquareOf(m.Home(), m.viewDistance), p)
        && Enumerates(order, MembersOf(tracker.Members(), SquareOf(m.Home(), m.viewDistance)) - {p})
        && sent == Delivered(Delivered(old(sent), At(tracker.Subs(), m.Home()) - {p}, [SpawnOf(m)]),
                             {p}, Spawns(old(machines), order))
    {
      order := EnterWorld(p);
      machines := machines[p := machines[p].(phase := PLAY)];
    }

    /** Whether the id was outstanding. If not, the client is told so; the text then goes on. */
    method CheckTeleport(p: Pid, id: int) returns (ok: bool)
      requires p in machines && p in sent
      modifies this`machines, this`sent
      ensures var m := old(machines)[p];
        && (ok <==> id in m.outstandingTeleportIds)
        && machines == old(machines)[
             p := m.(outstandingTeleportIds := set i | i in m.outstandingTeleportIds && i != id)]
        && sent == Delivered(old(sent), {p}, if ok then [] else [Disconnect])
    {
      NothingDelivered(sent, {p});
      ok := ConfirmTeleport(p, id);
      if !ok {
        Send(p, Disconnect);
      }
    }

    // ---- Moving ----

    method SendMove(p: Pid, m: Machine, to: EntityCoord, rotate: bool)
      requires p in sent
      modifies this`sent
      ensures sent == Delivered(old(sent), {p}, MoveNews(m, to, rotate))
    {
      var move := MovePacket(m.entityId, m.position, to, rotate);
      Send(p, move);
      if rotate {
        Send(p, EntityHeadLook(m.entityId));
        DeliveredTwice(old(sent), {p}, [move], [EntityHeadLook(m.entityId)]);
      } else {
        assert [move] + [] == [move];
      }
    }

    method OnMoveInChunk(p: Pid, from: EntityCoord, rotate: bool)
      requires p in machines && p in sent
      modifies this`sent
      ensures var m := machines[p];
        sent == Delivered(old(sent), At(tracker.Subs(), m.Home()) - {p},
            MoveNews(m.(position := from), m.position, rotate))
    {
      var m := machines[p];
      var subscribers := tracker.Subscribers(ChunkOf(m.position));
      var move := MovePacket(m.entityId, from, m.position, rotate);
      Broadcast(subscribers - {p}, move);
      if rotate {
        Broadcast(subscribers - {p}, EntityHeadLook(m.entityId));
        DeliveredTwice(old(sent), subscribers - {p}, [move], [EntityHeadLook(m.entityId)]);
      } else {
        assert [move] + [] == [move];
      }
    }

    /** One round of the inner loop of MovedChunks. */
    method MovedCell(from: ChunkCoord, to: ChunkCoord, r: int, i: int, j: int, before: seq<ChunkCoord>,
        before': seq<ChunkCoord>)
      returns (removed: seq<ChunkCoord>, added: seq<ChunkCoord>)
      requires -r <= i <= r && -r <= j <= r
      requires before == Sweep(Around(from, r), Around(to, r), from.x + i, from.z + j)
      requires before' == Sweep(Around(to, r), Around(from, r), to.x + i, to.z + j)
      ensures removed == Sweep(Around(from, r), Around(to, r), from.x + i, from.z + j + 1)
      ensures added == Sweep(Around(to, r), Around(from, r), to.x + i, to.z + j + 1)
    {
      removed, added := before, before';
      SweepStep(Around(from, r), Around(to, r), from.x + i, from.z + j);
      SweepStep(Around(to, r), Around(from, r), to.x + i, to.z + j);
      var c := ChunkCoord(from.x + i, from.z + j);
      if !Around(to, r).Contains(c) {
        removed := removed + [c];
      }
      c := ChunkCoord(to.x + i, to.z + j);
      if !Around(from, r).Contains(c) {
        added := added + [c];
      }
    }

    /** One round of the outer loop. */
    method MovedColumn(from: ChunkCoord, to: ChunkCoord, r: int, i: int, before: seq<ChunkCoord>,
        before': seq<ChunkCoord>)
      returns (removed: seq<ChunkCoord>, added: seq<ChunkCoord>)
      requires -r <= i <= r
      requires before == Sweep(Around(from, r), Around(to, r), from.x + i, from.z - r)
      requires before' == Sweep(Around(to, r), Around(from, r), to.x + i, to.z - r)
      ensures removed == Sweep(Around(from, r), Around(to, r), from.x + i + 1, from.z - r)
      ensures added == Sweep(Around(to, r), Around(from, r), to.x + i + 1, to.z - r)
    {
      removed, added := before, before';
      for j := -r to r + 1
        invariant removed == Sweep(Around(from, r), Around(to, r), from.x + i, from.z + j)
        invariant added == Sweep(Around(to, r), Around(from, r), to.x + i, to.z + j)
      {
        removed, added := MovedCell(from, to, r, i, j, removed, added);
      }
    }

    /** The chunks that go out of a square of chunks that moves, and those that come into it. */
    method MovedChunks(from: ChunkCoord, to: ChunkCoord, vd: nat)
      returns (removed: seq<ChunkCoord>, added: seq<ChunkCoord>)
      ensures removed == Newly(to, from, vd) && added == Newly(from, to, vd)
    {
      removed, added := [], [];
      var r: int := vd;
      for i := -r to r + 1
        invariant removed == Sweep(Around(from, r), Around(to, r), from.x + i, from.z - r)
        invariant added == Sweep(Around(to, r), Around(from, r), to.x + i, to.z - r)
      {
        removed, added := MovedColumn(from, to, r, i, removed, added);
      }
    }

    method TellOwnTransition(p: Pid, removed: seq<ChunkCoord>, added: seq<ChunkCoord>, to: ChunkCoord)
      requires p in sent
      modifies this`sent
      ensures sent == Delivered(old(sent), {p}, Unloads(removed) + Loads(added) + [UpdateViewPosition(to)])
    {
      SendUnloads(p, removed);
      SendChunks(p, added);
      DeliveredTwice(old(sent), {p}, Unloads(removed), Loads(added));
      SendNext(p, old(sent), Unloads(removed) + Loads(added), UpdateViewPosition(to));
    }

    method MoveInTracker(p: Pid, from: ChunkCoord, to: ChunkCoord, removed: seq<ChunkCoord>, added: seq<ChunkCoord>)
      modifies tracker`membership, tracker`subscriptions
      ensures tracker.Members() == old(tracker.Members()) - {(from, p)} + {(to, p)}
      ensures tracker.Subs() == With(Without(old(tracker.Subs()), removed, p), added, p)
    {
      tracker.Move(from, to, p);
      tracker.Unsubscribe(removed, p);
      tracker.Subscribe(added, p);
    }

    /** Those who watched the chunk that was left: a move, or a despawn. */
    method TellLeft(p: Pid, fromSubs: set<Pid>, toSubs: set<Pid>, m: Machine, to: EntityCoord, rotate: bool)
      requires p in sent
      modifies this`sent
      ensures sent == Delivered(Delivered(old(sent), fromSubs * toSubs - {p}, MoveNews(m, to, rotate)),
                                fromSubs - toSubs - {p}, [DestroyEntity(m.entityId)])
    {
      var rest := fromSubs;
      ghost var done: set<Pid> := {};
      while rest != {}
        invariant done !! rest && done + rest == fromSubs && sent.Keys == old(sent.Keys)
        invariant forall o :: o in sent ==> sent[o] == old(sent)[o] + LeftNews(o, p, done, toSubs, m, to, rotate)
        decreases rest
      {
        var q :| q in rest;
        rest := rest - {q};
        done := done + {q};
        if q != p && q in sent {
          if q in toSubs {
            SendMove(q, m, to, rotate);
          } else {
            Send(q, DestroyEntity(m.entityId));
          }
        }
      }
      LeftIsDelivered(old(sent), sent, p, fromSubs, toSubs, m, to, rotate);
    }

    method TellWatchers(p: Pid, fromSubs: set<Pid>, toSubs: set<Pid>, m: Machine, to: EntityCoord, rotate: bool)
      requires p in sent
      modifies this`sent
      ensures sent == Watched(old(sent), p, fromSubs, toSubs, m, to, rotate)
    {
      TellLeft(p, fromSubs, toSubs, m, to, rotate);
      Broadcast(toSubs - fromSubs - {p}, SpawnPlayer(m.entityId, to));
    }

    /** The mover's own part of a transition: chunks to forget, chunks to hold, and the index. */
    method MoveSquare(p: Pid, from: ChunkCoord, to: ChunkCoord, vd: nat)
      requires p in sent
      modifies this`sent, tracker`membership, tracker`subscriptions
      ensures var removed, added := Newly(to, from, vd), Newly(from, to, vd);
        && tracker.Members() == old(tracker.Members()) - {(from, p)} + {(to, p)}
        && tracker.Subs() == With(Without(old(tracker.Subs()), removed, p), added, p)
        && sent == Delivered(old(sent), {p}, Unloads(removed) + Loads(added) + [UpdateViewPosition(to)])
    {
      var removed, added := MovedChunks(from, to, vd);
      TellOwnTransition(p, removed, added, to);
      MoveInTracker(p, from, to, removed, added);
    }

    method OnChunkTransition(p: Pid, oldPosition: EntityCoord, rotate: bool, ghost was: Machine)
      requires p in machines && p in sent && was == machines[p].(position := oldPosition)
      requires ChunkOf(oldPosition) != ChunkOf(machines[p].position)
      modifies this`sent, tracker`membership, tracker`subscriptions
      ensures var to := machines[p].position; var from, c := was.Home(), ChunkOf(to);
        && tracker.Members() == old(tracker.Members()) - {(from, p)} + {(c, p)}
        && tracker.Subs() == With(Without(old(tracker.Subs()), Newly(c, from, was.viewDistance), p),
                                  Newly(from, c, was.viewDistance), p)
        && sent == Watched(Delivered(old(sent), {p}, CrossingNews(was, c)),
                           p, At(tracker.Subs(), from), At(tracker.Subs(), c), was, to, rotate)
    {
      var m := machines[p];
      var from, to := ChunkOf(oldPosition), ChunkOf(m.position);
      MoveSquare(p, from, to, m.viewDistance);
      var fromSubs := tracker.Subscribers(from);
      var toSubs := tracker.Subscribers(to);
      TellWatchers(p, fromSubs, toSubs, m.(position := oldPosition), m.position, rotate);
    }

    method OnPlayerRotation(p: Pid)
      requires p in machines && p in sent
      modifies this`sent
      ensures var m := machines[p];
        sent == Delivered(old(sent), At(tracker.Subs(), m.Home()) - {p},
            [EntityRotation(m.entityId), EntityHeadLook(m.entityId)])
    {
      var m := machines[p];
      var subscribers := tracker.Subscribers(ChunkOf(m.position));
      Broadcast(subscribers - {p}, EntityRotation(m.entityId));
      Broadcast(subscribers - {p}, EntityHeadLook(m.entityId));
      DeliveredTwice(old(sent), subscribers - {p}, [EntityRotation(m.entityId)], [EntityHeadLook(m.entityId)]);
      assert [EntityRotation(m.entityId)] + [EntityHeadLook(m.entityId)]
          == [EntityRotation(m.entityId), EntityHeadLook(m.entityId)];
    }

    // ---- Leaving ----

    /** What the destructor of a machine in play tells the tracker, and those who see it. */
    method LeaveTracker(p: Pid)
      requires p in machines
      modifies this`sent, tracker`membership, tracker`subscriptions
      ensures var m := machines[p];
        && tracker.Members() == old(tracker.Members()) - {(m.Home(), p)}
        && tracker.Subs() == Without(old(tracker.Subs()), SquareOf(m.Home(), m.viewDistance), p)
        && sent == Delivered(old(sent), At(tracker.Subs(), m.Home()) - {p}, [DestroyEntity(m.entityId)])
    {
      var m := machines[p];
      tracker.Leave(ChunkOf(m.position), m.viewDistance, p);
      var subscribers := tracker.Subscribers(ChunkOf(m.position));
      Broadcast(subscribers - {p}, DestroyEntity(m.entityId));
    }

    method Unregister(p: Pid)
      requires p in machines
      modifies this`players, this`sent
      ensures players == old(players) - {p}
      ensures sent == Delivered(old(sent), old(players) - {p}, [RemovePlayer(machines[p].username)])
    {
      players := players - {p};
      Broadcast(players - {p}, RemovePlayer(machines[p].username));
      assert players - {p} == players;
    }

    // ---- Handlers on the whole state ----

    method Refuse(ghost w: World, p: Pid)
      requires Is(w) && p in sent
      modifies this`sent
      ensures Is(AfterRefuse(w, p))
    {
      Send(p, Disconnect);
    }

    method Shake(ghost w: World, p: Pid, next: Phase)
      requires Valid() && Is(w) && p in machines
      modifies this`machines
      ensures Valid() && Is(AfterShake(w, p, next))
    {
      machines := machines[p := machines[p].(phase := next)];
    }

    method LogIn(ghost w: World, p: Pid, name: string)
      requires Valid() && Is(w) && Registry(w) && p in machines
      modifies this`machines, this`players, this`nextEntityId, this`sent
      ensures Valid() && Is(AfterLogIn(w, p, name)) && Registry(AfterLogIn(w, p, name))
    {
      var names := PlayerNames();
      var entityId := nextEntityId;
      machines := machines[p := machines[p].(username := name, entityId := entityId)];
      nextEntityId := nextEntityId + 1;
      Register(p, name, entityId, names);
      machines := machines[p := machines[p].(phase := PLAY_INIT)];
    }

    method Settle(ghost w: World, p: Pid, requested: int)
      requires Valid() && Is(w) && p in machines && machines[p].LoggedIn()
      modifies this`machines, this`sent, tracker`subscriptions
      ensures Valid() && Is(AfterSettle(variant, w, p, ClampViewDistance(requested)))
    {
      OnClientSettings(p, requested);
    }

    method Nudge(ghost w: World, p: Pid, to: EntityCoord, rotate: bool)
      requires Valid() && Is(w) && p in machines && machines[p].Home() == ChunkOf(to)
      modifies this`machines, this`sent
      ensures Valid() && Is(AfterNudge(w, p, to, rotate))
    {
      var oldPosition := machines[p].position;
      machines := machines[p := machines[p].(position := to)];
      assert machines[p].(position := oldPosition) == w.machines[p];
      OnMoveInChunk(p, oldPosition, rotate);
    }

    method Cross(ghost w: World, p: Pid, to: EntityCoord, rotate: bool)
      requires Valid() && Is(w) && p in machines && machines[p].Home() != ChunkOf(to)
      modifies this`machines, this`sent, tracker`membership, tracker`subscriptions
      ensures Valid() && Is(AfterCrossing(w, p, to, rotate))
    {
      var oldPosition := machines[p].position;
      machines := machines[p := machines[p].(position := to)];
      assert machines[p].(position := oldPosition) == w.machines[p];
      OnChunkTransition(p, oldPosition, rotate, w.machines[p]);
    }

    /** onMove. */
    method Walk(ghost w: World, p: Pid, to: EntityCoord, rotate: bool)
      requires Valid() && Is(w) && p in machines
      modifies this`machines, this`sent, tracker`membership, tracker`subscriptions
      ensures Valid()
      ensures Is(if w.machines[p].Home() == ChunkOf(to) then AfterNudge(w, p, to, rotate)
          else AfterCrossing(w, p, to, rotate))
    {
      if ChunkOf(to) != ChunkOf(machines[p].position) {
        Cross(w, p, to, rotate);
      } else {
        Nudge(w, p, to, rotate);
      }
    }

    method Turn(ghost w: World, p: Pid)
      requires Is(w) && p in machines && p in sent
      modifies this`sent
      ensures Is(AfterTurn(w, p))
    {
      OnPlayerRotation(p);
    }

    method EnterChecked(ghost w: World, p: Pid, ghost id: int) returns (order: seq<Pid>)
      requires Valid() && p in w.machines && Live(tracker.Members(), machines.Keys)
      requires var m := w.machines[p];
        && Is(w.(machines := w.machines[
                   p := m.(outstandingTeleportIds := set i | i in m.outstandingTeleportIds && i != id)],
                 sent := Delivered(w.sent, {p}, if id in m.outstandingTeleportIds then [] else [Disconnect])))
      modifies this`machines, this`sent, tracker`membership, tracker`subscriptions
      ensures Valid() && Enumerates(order, Visible(w, p)) && Is(AfterEnter(w, p, id, order))
    {
      ghost var checked := machines;
      order := EnterPlay(p);
      VisibleOthers(w, p);
      SpawnsAlike(w.machines, checked, order);
    }

    /** TeleportConfirm before play. The text goes on to enter even when the id was refused. */
    method Enter(ghost w: World, p: Pid, id: int) returns (order: seq<Pid>)
      requires Valid() && Is(w) && p in machines && machines[p].phase.PLAY_INIT?
      requires Live(tracker.Members(), machines.Keys)
      modifies this`machines, this`sent, tracker`membership, tracker`subscriptions
      ensures Valid()
      ensures var enters := id in w.machines[p].outstandingTeleportIds || variant.Written?;
        (enters ==> Enumerates(order, Visible(w, p)))
            && Is(if enters then AfterEnter(w, p, id, order) else AfterRefuse(w, p))
    {
      var ok := CheckTeleport(p, id);
      if !ok && variant.Intended? {
        RefusalChangesNothing(w.machines, p, id);
        return [];
      }
      order := EnterChecked(w, p, id);
    }

    /** The destructor. */
    method Quit(ghost w: World, p: Pid)
      requires Valid() && Is(w) && Registry(w) && p in machines
      modifies this`machines, this`players, this`sent, tracker`membership, tracker`subscriptions
      ensures Valid() && Is(AfterQuit(variant, w, p)) && Registry(AfterQuit(variant, w, p))
    {
      var m := machines[p];
      if m.phase.PLAY? {
        LeaveTracker(p);
      }
      if Unregisters(variant, m) {
        Unregister(p);
      }
      machines := machines - {p};
      sent := sent - {p};
    }

    // ---- onPacket ----

    method ReceiveInitial(ghost w: World, p: Pid, packet: Incoming)
      requires Valid() && Is(w) && p in machines && machines[p].phase.INITIAL?
      modifies this`machines, this`sent
      ensures Valid() && Is(After(variant, w, p, OnPacket(variant, w.machines[p], packet, [])))
    {
      if !packet.Handshake? {
        return;
      }
      if packet.version != PROTOCOL_VERSION {
        Refuse(w, p);
        return;
      }
      match packet.nextState {
        case 1 => Shake(w, p, STATUS);
        case 2 => Shake(w, p, LOGIN);
        case _ => Refuse(w, p);
      }
    }

    method ReceiveLogin(ghost w: World, p: Pid, packet: Incoming)
      requires Valid() && Is(w) && Registry(w) && p in machines && machines[p].phase.LOGIN?
      modifies this`machines, this`players, this`nextEntityId, this`sent
      ensures var w' := After(variant, w, p, OnPacket(variant, w.machines[p], packet, []));
        Valid() && Is(w') && Registry(w')
    {
      match packet {
        case LoginStart(name) => LogIn(w, p, name);
        case _ =>
      }
    }

    method ReceiveConfirm(ghost w: World, p: Pid, id: int) returns (order: seq<Pid>)
      requires Valid() && Is(w) && p in machines && machines[p].phase.PLAY_INIT?
      requires Live(tracker.Members(), machines.Keys)
      modifies this`machines, this`sent, tracker`membership, tracker`subscriptions
      ensures var a := OnPacket(variant, w.machines[p], TeleportConfirm(id), order);
        Valid() && (a.Enter? ==> Enumerates(order, Visible(w, p))) && Is(After(variant, w, p, a))
    {
      order := Enter(w, p, id);
    }

    method ReceivePlayInit(ghost w: World, p: Pid, packet: Incoming) returns (order: seq<Pid>)
      requires Valid() && Is(w) && p in machines && machines[p].phase.PLAY_INIT?
      requires Live(tracker.Members(), machines.Keys)
      modifies this`machines, this`sent, tracker`membership, tracker`subscriptions
      ensures var a := OnPacket(variant, w.machines[p], packet, order);
        Valid() && (a.Enter? ==> Enumerates(order, Visible(w, p))) && Is(After(variant, w, p, a))
    {
      order := [];
      match packet {
        case TeleportConfirm(id) => order := ReceiveConfirm(w, p, id);
        case ClientSettings(vd) => Settle(w, p, vd);
        case _ =>
      }
    }

    method ReceivePlay(ghost w: World, p: Pid, packet: Incoming)
      requires Valid() && Is(w) && p in machines && machines[p].phase.PLAY?
      modifies this`machines, this`sent, tracker`membership, tracker`subscriptions
      ensures Valid() && Is(After(variant, w, p, OnPacket(variant, w.machines[p], packet, [])))
    {
      match packet {
        case ClientSettings(vd) => Settle(w, p, vd);
        case PlayerPosition(to, rotate) => Walk(w, p, to, rotate);
        case PlayerRotation => Turn(w, p);
        case _ =>
      }
    }

    method Receive(ghost w: World, p: Pid, packet: Incoming) returns (order: seq<Pid>)
      requires Valid() && Is(w) && Registry(w) && p in machines && Live(tracker.Members(), machines.Keys)
      modifies this, tracker`membership, tracker`subscriptions
      ensures var a := OnPacket(variant, w.machines[p], packet, order); var w' := After(variant, w, p, a);
        Valid() && (a.Enter? ==> Enumerates(order, Visible(w, p))) && Is(w') && Registry(w')
    {
      order := [];
      match machines[p].phase {
        case INITIAL => ReceiveInitial(w, p, packet);
        case LOGIN => ReceiveLogin(w, p, packet);
        case PLAY_INIT => order := ReceivePlayInit(w, p, packet);
        case PLAY => ReceivePlay(w, p, packet);
        case STATUS =>
      }
      RegistryStays(variant, w, p, OnPacket(variant, w.machines[p], packet, order));
    }

    // ---- The program takes the steps of the transition system ----

    method Connect(p: Pid)
      requires Valid() && p !in machines
      modifies this
      ensures Valid() && Enabled(variant, old(State()), Connected(p))
      ensures State() == Step(variant, old(State()), Connected(p))
    {
      AfterIsApply(variant, State(), p, Act.Start);
      OnClientConnected(State(), p);
    }

    method Deliver(p: Pid, packet: Incoming) returns (order: seq<Pid>)
      requires Valid() && p in machines && Live(tracker.Members(), machines.Keys)
      modifies this, tracker`membership, tracker`subscriptions
      ensures Valid() && Enabled(variant, old(State()), Received(p, packet, order))
      ensures State() == Step(variant, old(State()), Received(p, packet, order))
    {
      ghost var w := State();
      order := Receive(w, p, packet);
      AfterIsApply(variant, w, p, OnPacket(variant, w.machines[p], packet, order));
    }

    method Close(p: Pid)
      requires Valid() && p in machines
      modifies this, tracker`membership, tracker`subscriptions
      ensures Valid() && Enabled(variant, old(State()), Disconnected(p))
      ensures State() == Step(variant, old(State()), Disconnected(p))
    {
      ghost var w := State();
      AfterIsApply(variant, w, p, Act.Quit);
      Quit(w, p);
    }
  }

  /** What delivering a packet requires holds in every reachable state, in either reading. */
  lemma {:induction false} ReachableIsLive(variant: Variant, es: seq<Event>)
    requires Possible(variant, es)
    ensures Live(Run(variant, es).members, Run(variant, es).machines.Keys)
  {
    MembersAreExact(variant, es);
  }
}
