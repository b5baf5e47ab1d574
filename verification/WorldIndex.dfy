/** In every reachable state the subscription index is what its definition says, and every client
    holds exactly the chunks it is subscribed to. */
module WorldIndex {
  import opened Coords
  import opened Variants
  import opened Tracker
  import opened Client
  import opened World

  predicate InPlay(w: World, p: Pid) {
    p in w.machines && w.machines[p].phase.PLAY?
  }

  /** A player in play is a member of its own chunk only, and nobody else is a member of any. */
  ghost predicate MembersExact(w: World) {
    && w.sent.Keys == w.machines.Keys
    && forall c, p :: (c, p) in w.members <==> InPlay(w, p) && c == w.machines[p].Home()
  }

  /** Besides, a player in play is subscribed to exactly the square around it; no other player, nor
      one that has left, occurs anywhere. */
  ghost predicate Indexed(w: World) {
    && MembersExact(w)
    && forall c, p :: (c, p) in w.subs <==> InPlay(w, p) && w.machines[p].Square().Contains(c)
  }

  /** Acts come in the phases they belong to, in either reading. */
  ghost predicate InPhase(w: World, p: Pid, a: Act) {
    && (p in w.machines <==> !a.Start?)
    && match a
       case Shake(next) => w.machines[p].phase.INITIAL? && (next.STATUS? || next.LOGIN?)
       case LogIn(_) => w.machines[p].phase.LOGIN?
       case Settle(_) => w.machines[p].LoggedIn()
       case Enter(_, _) => w.machines[p].phase.PLAY_INIT?
       case Walk(_, _) => InPlay(w, p)
       case Turn => InPlay(w, p)
       case _ => true
  }

  lemma {:induction false} ActsInPhase(variant: Variant, w: World, e: Event)
    requires Enabled(variant, w, e)
    ensures InPhase(w, e.p, ActOf(variant, w, e))
  {
  }

  /** The acts a machine of the intended program performs. */
  ghost predicate Allowed(w: World, p: Pid, a: Act) {
    && (p in w.machines <==> !a.Start?)
    && match a
       case Shake(next) => w.machines[p].phase.INITIAL? && (next.STATUS? || next.LOGIN?)
       case LogIn(_) => w.machines[p].phase.LOGIN?
       case Settle(vd) => w.machines[p].LoggedIn() && 2 <= vd <= MAX_VIEW_DISTANCE
       case Enter(id, order) =>
         w.machines[p].phase.PLAY_INIT? && id in w.machines[p].outstandingTeleportIds
             && Enumerates(order, Visible(w, p))
       case Walk(_, _) => InPlay(w, p)
       case Turn => InPlay(w, p)
       case _ => true
  }

  lemma {:induction false} ActsAllowed(w: World, e: Event)
    requires Enabled(Intended, w, e)
    ensures Allowed(w, e.p, ActOf(Intended, w, e))
  {
  }

  // ---- The index ----

  /** Machines of others, and their members and subscriptions, are untouched by an act. */
  lemma {:induction false} OthersStay(variant: Variant, w: World, p: Pid, a: Act, q: Pid)
    requires (p in w.machines <==> !a.Start?) && q != p
    ensures var w' := Apply(variant, w, p, a);
      && (q in w'.machines <==> q in w.machines) && (q in w.machines ==> w'.machines[q] == w.machines[q])
      && (forall c :: (c, q) in w'.members <==> (c, q) in w.members)
      && (forall c :: (c, q) in w'.subs <==> (c, q) in w.subs)
  {
  }

  lemma {:induction false} OwnMembership(variant: Variant, w: World, p: Pid, a: Act, c: ChunkCoord)
    requires InPhase(w, p, a) && MembersExact(w)
    ensures var w' := Apply(variant, w, p, a);
      (c, p) in w'.members <==> InPlay(w', p) && c == w'.machines[p].Home()
  {
  }

  lemma {:induction false} ActKeepsMembers(variant: Variant, w: World, p: Pid, a: Act)
    requires InPhase(w, p, a) && MembersExact(w)
    ensures MembersExact(Apply(variant, w, p, a))
  {
    var w' := Apply(variant, w, p, a);
    forall c, q
      ensures (c, q) in w'.members <==> InPlay(w', q) && c == w'.machines[q].Home()
    {
      if q == p {
        OwnMembership(variant, w, p, a, c);
      } else {
        OthersStay(variant, w, p, a, q);
      }
    }
  }

  /** Membership is exact after every run, in either reading. */
  lemma {:induction false} MembersAreExact(variant: Variant, es: seq<Event>)
    requires Possible(variant, es)
    ensures MembersExact(Run(variant, es))
    decreases |es|
  {
    if es != [] {
      var before, e := es[..|es| - 1], es[|es| - 1];
      MembersAreExact(variant, before);
      var w := Run(variant, before);
      ActsInPhase(variant, w, e);
      ActKeepsMembers(variant, w, e.p, ActOf(variant, w, e));
    }
  }

  lemma {:induction false} WalkSquares(subs: Relation, p: Pid, from: ChunkCoord, to: ChunkCoord, vd: nat)
    requires SubscribesTo(subs, p, Around(from, vd))
    ensures SubscribesTo(With(Without(subs, Newly(to, from, vd), p), Newly(from, to, vd), p), p, Around(to, vd))
  {
    CellsExactly(Around(to, vd), Around(from, vd));
    CellsExactly(Around(from, vd), Around(to, vd));
  }

  lemma {:induction false} OwnSubscriptions(w: World, p: Pid, a: Act, c: ChunkCoord)
    requires Allowed(w, p, a) && Indexed(w)
    ensures var w' := Apply(Intended, w, p, a);
      (c, p) in w'.subs <==> InPlay(w', p) && w'.machines[p].Square().Contains(c)
  {
    if p in w.machines {
      var m := w.machines[p];
      match a {
        case Settle(vd) =>
          if m.phase.PLAY? {
            UpdateIsRecomputation(w.subs, m.Home(), m.viewDistance, vd, p);
          }
        case Enter(_, _) => CellsExactly(m.Square(), NOWHERE);
        case Walk(to, _) => WalkSquares(w.subs, p, m.Home(), ChunkOf(to), m.viewDistance);
        case Quit => CellsExactly(m.Square(), NOWHERE);
        case _ =>
      }
    }
  }

  lemma {:induction false} ActKeepsIndex(w: World, p: Pid, a: Act)
    requires Allowed(w, p, a) && Indexed(w)
    ensures Indexed(Apply(Intended, w, p, a))
  {
    var w' := Apply(Intended, w, p, a);
    ActKeepsMembers(Intended, w, p, a);
    forall c, q
      ensures (c, q) in w'.subs <==> InPlay(w', q) && w'.machines[q].Square().Contains(c)
    {
      if q == p {
        OwnSubscriptions(w, p, a, c);
      } else {
        OthersStay(Intended, w, p, a, q);
      }
    }
  }

  /** The index is exact after every run. */
  lemma {:induction false} IndexIsExact(es: seq<Event>)
    requires Possible(Intended, es)
    ensures Indexed(Run(Intended, es))
    decreases |es|
  {
    if es != [] {
      var before, e := es[..|es| - 1], es[|es| - 1];
      IndexIsExact(before);
      var w := Run(Intended, before);
      ActsAllowed(w, e);
      ActKeepsIndex(w, e.p, ActOf(Intended, w, e));
    }
  }

  // ---- Phases ----

  /** View distances, and teleport ids still to be confirmed. */
  predicate PhaseSafe(m: Machine) {
    && (m.viewDistance == 0 || 2 <= m.viewDistance <= MAX_VIEW_DISTANCE)
    && (m.phase.PLAY? ==> m.viewDistance != 0)
    && (!m.LoggedIn() ==> m.viewDistance == 0)
    && (m.viewDistance == 0 ==> m.nextTeleportId == 0)
    && (forall id :: id in m.outstandingTeleportIds ==> id < m.nextTeleportId)
  }

  // ---- Chunks held by clients ----

  predicate SaysNothingOfChunks(k: Packet) {
    !k.ChunkData? && !k.UnloadChunk?
  }

  lemma {:induction false} LoadedUntouched(v: View, ks: seq<Packet>)
    requires forall i :: 0 <= i < |ks| ==> SaysNothingOfChunks(ks[i])
    ensures WatchAll(v, ks).loaded == v.loaded
    decreases ks
  {
    if ks != [] {
      assert SaysNothingOfChunks(ks[0]);
      assert forall i :: 0 <= i < |ks[1..]| ==> ks[1..][i] == ks[i + 1];
      LoadedUntouched(Watch(v, ks[0]), ks[1..]);
    }
  }

  function Seen(ks: seq<Packet>): View {
    WatchAll(BLANK, ks)
  }

  /** A player has a square as soon as it has settings, and in any case when it plays. */
  predicate HasSquare(m: Machine) {
    m.phase.PLAY? || m.viewDistance != 0
  }

  /** A client whose player has a square holds exactly that; before, it holds nothing. */
  ghost predicate HoldsSquare(w: World, p: Pid)
    requires p in w.machines
  {
    forall c :: c in Seen(Log(w, p)).loaded <==> HasSquare(w.machines[p]) && w.machines[p].Square().Contains(c)
  }

  lemma {:induction false} NewsArrives(variant: Variant, w: World, p: Pid, a: Act, o: Pid)
    requires p in w.machines <==> !a.Start?
    requires o in MachinesAfter(w, p, a)
    ensures Seen(Log(Apply(variant, w, p, a), o)) == WatchAll(Seen(Log(w, o)), News(variant, w, p, a, o))
  {
    WatchAppend(BLANK, Log(w, o), News(variant, w, p, a, o));
  }

  lemma {:induction false} OthersNewsOfChunks(variant: Variant, w: World, p: Pid, a: Act, o: Pid)
    requires p in w.machines <==> !a.Start?
    ensures forall i :: 0 <= i < |OthersNews(variant, w, p, a, o)| ==>
        SaysNothingOfChunks(OthersNews(variant, w, p, a, o)[i])
  {
  }

  /** Resizing the square of a client turns it into the square of the new distance. */
  lemma {:induction false} ResizeWatched(v: View, m: Machine, vd: nat)
    requires m.viewDistance != 0 && forall c :: c in v.loaded <==> m.Square().Contains(c)
    ensures forall c :: c in WatchAll(v, Resize(Intended, m, vd)).loaded <==> Around(m.Home(), vd).Contains(c)
  {
    var ring := Ring(Intended, m.Home(), m.viewDistance, vd);
    UnloadsWatched(v, ring);
    LoadsWatched(v, ring);
    if m.viewDistance < vd {
      CellsExactly(Around(m.Home(), vd), m.Square());
    } else {
      CellsExactly(m.Square(), Around(m.Home(), vd));
    }
  }

  lemma {:induction false} WelcomeAdds(v: View, m: Machine, vd: nat)
    requires m.phase.PLAY_INIT?
    ensures forall c :: c in WatchAll(v, Welcome(m, vd)).loaded <==> c in v.loaded || Around(m.Home(), vd).Contains(c)
  {
    var cells := SquareOf(m.Home(), vd);
    var rest := [SpawnPosition, PlayerPositionLook(m.position, m.nextTeleportId)];
    WatchAppend(v, Loads(cells), rest);
    LoadsWatched(v, cells);
    LoadedUntouched(WatchAll(v, Loads(cells)), rest);
    CellsExactly(Around(m.Home(), vd), NOWHERE);
  }

  lemma {:induction false} SettleWatched(w: World, p: Pid, vd: nat)
    requires Allowed(w, p, Settle(vd)) && HoldsSquare(w, p) && PhaseSafe(w.machines[p])
    ensures HoldsSquare(Apply(Intended, w, p, Settle(vd)), p)
  {
    var m, v := w.machines[p], Seen(Log(w, p));
    NewsArrives(Intended, w, p, Settle(vd), p);
    WatchAppend(v, Resize(Intended, m, vd), Welcome(m, vd));
    if m.viewDistance != 0 {
      ResizeWatched(v, m, vd);
    }
    if m.phase.PLAY_INIT? {
      WelcomeAdds(WatchAll(v, Resize(Intended, m, vd)), m, vd);
    }
  }

  lemma {:induction false} WalkChunksWatched(v: View, from: ChunkCoord, to: ChunkCoord, vd: nat)
    requires forall c :: c in v.loaded <==> Around(from, vd).Contains(c)
    ensures forall c :: c in WatchAll(v,
        Unloads(Newly(to, from, vd)) + Loads(Newly(from, to, vd)) + [UpdateViewPosition(to)]).loaded
                   <==> Around(to, vd).Contains(c)
  {
    var out, into := Newly(to, from, vd), Newly(from, to, vd);
    WatchAppend(v, Unloads(out) + Loads(into), [UpdateViewPosition(to)]);
    WatchAppend(v, Unloads(out), Loads(into));
    UnloadsWatched(v, out);
    LoadsWatched(WatchAll(v, Unloads(out)), into);
    LoadedUntouched(WatchAll(v, Unloads(out) + Loads(into)), [UpdateViewPosition(to)]);
    CellsExactly(Around(to, vd), Around(from, vd));
    CellsExactly(Around(from, vd), Around(to, vd));
  }

  lemma {:induction false} WalkWatched(variant: Variant, w: World, p: Pid, to: EntityCoord, rotate: bool)
    requires InPlay(w, p) && HoldsSquare(w, p)
    ensures HoldsSquare(Apply(variant, w, p, Walk(to, rotate)), p)
  {
    var m, v := w.machines[p], Seen(Log(w, p));
    NewsArrives(variant, w, p, Walk(to, rotate), p);
    if m.Home() != ChunkOf(to) {
      WalkChunksWatched(v, m.Home(), ChunkOf(to), m.viewDistance);
    }
  }

  lemma {:induction false} OwnNewsOfChunks(variant: Variant, w: World, p: Pid, a: Act)
    requires (p in w.machines <==> !a.Start?) && !a.Settle? && !a.Walk?
    ensures forall i :: 0 <= i < |OwnNews(variant, w, p, a)| ==> SaysNothingOfChunks(OwnNews(variant, w, p, a)[i])
  {
  }

  // ---- Over whole runs ----

  ghost predicate AllSafe(w: World) {
    forall p :: p in w.machines ==> PhaseSafe(w.machines[p])
  }

  ghost predicate AllHold(w: World) {
    forall p :: p in w.machines ==> HoldsSquare(w, p)
  }

  lemma {:induction false} ActKeepsSafe(w: World, p: Pid, a: Act)
    requires Allowed(w, p, a) && AllSafe(w)
    ensures AllSafe(Apply(Intended, w, p, a))
  {
    var w' := Apply(Intended, w, p, a);
    forall q | q in w'.machines
      ensures PhaseSafe(w'.machines[q])
    {
      if q != p {
        OthersStay(Intended, w, p, a, q);
      }
    }
  }

  lemma {:induction false} ActKeepsOwnSquare(w: World, p: Pid, a: Act)
    requires Allowed(w, p, a) && AllSafe(w) && w.sent.Keys == w.machines.Keys
    requires p in w.machines ==> HoldsSquare(w, p)
    requires !a.Quit?
    ensures HoldsSquare(Apply(Intended, w, p, a), p)
  {
    if a.Settle? {
      SettleWatched(w, p, a.viewDistance);
    } else if a.Walk? {
      WalkWatched(Intended, w, p, a.to, a.rotate);
    } else {
      assert a.Enter? ==> PhaseSafe(w.machines[p]) && a.teleportId < w.machines[p].nextTeleportId;
      NewsArrives(Intended, w, p, a, p);
      OwnNewsOfChunks(Intended, w, p, a);
      LoadedUntouched(Seen(Log(w, p)), OwnNews(Intended, w, p, a));
    }
  }

  lemma {:induction false} ActKeepsSquares(w: World, p: Pid, a: Act)
    requires Allowed(w, p, a) && AllSafe(w) && AllHold(w) && w.sent.Keys == w.machines.Keys
    ensures AllHold(Apply(Intended, w, p, a))
  {
    var w' := Apply(Intended, w, p, a);
    forall q | q in w'.machines
      ensures HoldsSquare(w', q)
    {
      if q == p {
        ActKeepsOwnSquare(w, p, a);
      } else {
        OthersStay(Intended, w, p, a, q);
        NewsArrives(Intended, w, p, a, q);
        OthersNewsOfChunks(Intended, w, p, a, q);
        LoadedUntouched(Seen(Log(w, q)), OthersNews(Intended, w, p, a, q));
      }
    }
  }

  lemma {:induction false} RunKeepsSquares(es: seq<Event>)
    requires Possible(Intended, es)
    ensures AllSafe(Run(Intended, es)) && AllHold(Run(Intended, es))
    decreases |es|
  {
    if es != [] {
      var before, e := es[..|es| - 1], es[|es| - 1];
      RunKeepsSquares(before);
      IndexIsExact(before);
      var w := Run(Intended, before);
      ActsAllowed(w, e);
      ActKeepsSafe(w, e.p, ActOf(Intended, w, e));
      ActKeepsSquares(w, e.p, ActOf(Intended, w, e));
    }
  }

  /** After every run, a client in play has a view distance in 2..32, holds exactly the chunks
      within it, and these are the chunks the tracker has it subscribed to. */
  lemma {:induction false} ClientsHoldSubscriptions(es: seq<Event>, p: Pid)
    requires Possible(Intended, es) && InPlay(Run(Intended, es), p)
    ensures var w := Run(Intended, es);
      && 2 <= w.machines[p].viewDistance <= MAX_VIEW_DISTANCE
      && forall c :: && (c in Seen(Log(w, p)).loaded <==> (c, p) in w.subs)
                     && (c in Seen(Log(w, p)).loaded <==> w.machines[p].Square().Contains(c))
  {
    IndexIsExact(es);
    RunKeepsSquares(es);
    var w := Run(Intended, es);
    assert PhaseSafe(w.machines[p]) && HoldsSquare(w, p);
  }
}
