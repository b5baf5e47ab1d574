/** What a client knows of other players: their entities, and where they are. */
module WorldViews {
  import opened Coords
  import opened Variants
  import opened Tracker
  import opened Client
  import opened World
  import opened WorldIndex

  // ---- Entity ids ----

  function EntityOf(w: World, p: Pid): int {
    if p in w.machines then w.machines[p].entityId else 0
  }

  function PositionOf(w: World, p: Pid): EntityCoord {
    if p in w.machines then w.machines[p].position else NEW_MACHINE.position
  }

  predicate LoggedIn(w: World, p: Pid) {
    p in w.machines && w.machines[p].LoggedIn()
  }

  /** Entity ids are used once. */
  ghost predicate DistinctIds(w: World) {
    && (forall p :: LoggedIn(w, p) ==> EntityOf(w, p) < w.nextEntityId)
    && (forall p, q :: LoggedIn(w, p) && LoggedIn(w, q) && p != q ==> EntityOf(w, p) != EntityOf(w, q))
  }

  lemma {:induction false} ActKeepsIds(variant: Variant, w: World, p: Pid, a: Act)
    requires InPhase(w, p, a) && DistinctIds(w)
    ensures DistinctIds(Apply(variant, w, p, a))
  {
    var w' := Apply(variant, w, p, a);
    OwnId(variant, w, p, a);
    forall q
      ensures q != p ==> (LoggedIn(w', q) <==> LoggedIn(w, q)) && EntityOf(w', q) == EntityOf(w, q)
    {
      if q != p {
        OthersStay(variant, w, p, a, q);
      }
    }
  }

  lemma {:induction false} OwnId(variant: Variant, w: World, p: Pid, a: Act)
    requires InPhase(w, p, a)
    ensures LoggedIn(Apply(variant, w, p, a), p) ==>
      EntityOf(Apply(variant, w, p, a), p) == if a.LogIn? then w.nextEntityId else EntityOf(w, p)
    ensures LoggedIn(Apply(variant, w, p, a), p) ==> a.LogIn? || LoggedIn(w, p)
  {
  }

  // ---- Sight ----

  /** Both play, and the other stands in the observer's square. */
  predicate Sees(w: World, o: Pid, q: Pid) {
    q != o && InPlay(w, o) && InPlay(w, q) && w.machines[o].Square().Contains(w.machines[q].Home())
  }

  /** A client's picture has exactly the players its player sees, each where it is up to one 4096th
      of a block per relative move, and no entity packet it got was out of place. */
  ghost predicate Pictures(w: World, o: Pid, v: View) {
    && v.ok
    && (forall q :: Sees(w, o, q) ==> EntityOf(w, q) in v.known && Near(v.known[EntityOf(w, q)], PositionOf(w, q)))
    && (forall id :: id in v.known ==> exists q :: Sees(w, o, q) && EntityOf(w, q) == id)
  }

  ghost predicate KnowsExactly(w: World, o: Pid) {
    Pictures(w, o, Seen(Log(w, o)))
  }

  predicate SaysNothingOfEntities(k: Packet) {
    !k.SpawnPlayer? && !k.EntityMove? && !k.EntityTeleport? && !k.EntityRotation? && !k.EntityHeadLook?
        && !k.DestroyEntity?
  }

  lemma {:induction false} EntitiesUntouched(v: View, ks: seq<Packet>)
    requires forall i :: 0 <= i < |ks| ==> SaysNothingOfEntities(ks[i])
    ensures WatchAll(v, ks).known == v.known && WatchAll(v, ks).ok == v.ok
    decreases ks
  {
    if ks != [] {
      assert SaysNothingOfEntities(ks[0]);
      assert forall i :: 0 <= i < |ks[1..]| ==> ks[1..][i] == ks[i + 1];
      EntitiesUntouched(Watch(v, ks[0]), ks[1..]);
    }
  }

  // ---- Another player acts ----

  /** Two views that differ at most in what they know of one entity. */
  ghost predicate SameButFor(v: View, v': View, id: int) {
    && v'.ok == v.ok
    && forall i :: i != id ==> (i in v.known <==> i in v'.known) && (i in v.known ==> v'.known[i] == v.known[i])
  }

  /** The view knows of an entity exactly when it should, and then about where it is. */
  ghost predicate KnowsOf(v: View, id: int, present: bool, position: EntityCoord) {
    (id in v.known <==> present) && (present ==> Near(v.known[id], position))
  }

  lemma {:induction false} MoveNewsWatched(v: View, m: Machine, to: EntityCoord, rotate: bool)
    requires KnowsOf(v, m.entityId, true, m.position)
    ensures SameButFor(v, WatchAll(v, MoveNews(m, to, rotate)), m.entityId)
    ensures KnowsOf(WatchAll(v, MoveNews(m, to, rotate)), m.entityId, true, to)
  {
    var move := MovePacket(m.entityId, m.position, to, rotate);
    MoveTracks(v, m.entityId, m.position, to, rotate);
    WatchOne(v, move);
    if rotate {
      WatchAppend(v, [move], [EntityHeadLook(m.entityId)]);
      WatchOne(Watch(v, move), EntityHeadLook(m.entityId));
    } else {
      assert [move] + [] == [move];
    }
  }

  lemma {:induction false} WalkNewsWatched(w: World, p: Pid, to: EntityCoord, rotate: bool, o: Pid, v: View)
    requires InPlay(w, p)
    requires KnowsOf(v, EntityOf(w, p), (w.machines[p].Home(), o) in w.subs, PositionOf(w, p))
    ensures var v' := WatchAll(v, WalkNews(w, w.machines[p], to, rotate, o));
      SameButFor(v, v', EntityOf(w, p)) && KnowsOf(v', EntityOf(w, p), (ChunkOf(to), o) in w.subs, to)
  {
    var m := w.machines[p];
    if (m.Home(), o) in w.subs && (ChunkOf(to), o) in w.subs {
      MoveNewsWatched(v, m, to, rotate);
    } else {
      WatchOne(v, DestroyEntity(m.entityId));
      WatchOne(v, SpawnPlayer(m.entityId, to));
    }
  }

  lemma {:induction false} TurnNewsWatched(v: View, id: int)
    requires id in v.known
    ensures WatchAll(v, [EntityRotation(id), EntityHeadLook(id)]) == v
  {
    assert [EntityRotation(id), EntityHeadLook(id)] == [EntityRotation(id)] + [EntityHeadLook(id)];
    WatchAppend(v, [EntityRotation(id)], [EntityHeadLook(id)]);
    WatchOne(v, EntityRotation(id));
    WatchOne(v, EntityHeadLook(id));
  }

  lemma {:induction false} QuitNewsWatched(w: World, p: Pid, o: Pid, v: View)
    requires InPlay(w, p)
    requires KnowsOf(v, EntityOf(w, p), (w.machines[p].Home(), o) in w.subs, PositionOf(w, p))
    ensures var v' := WatchAll(v, QuitNews(Intended, w, p, o));
      SameButFor(v, v', EntityOf(w, p)) && EntityOf(w, p) !in v'.known
  {
    var m := w.machines[p];
    var gone := if (m.Home(), o) in w.subs then [DestroyEntity(m.entityId)] else [];
    var listed := if o in w.players && Unregisters(Intended, m) then [RemovePlayer(m.username)] else [];
    assert QuitNews(Intended, w, p, o) == gone + listed;
    WatchAppend(v, gone, listed);
    WatchOne(v, DestroyEntity(m.entityId));
    EntitiesUntouched(WatchAll(v, gone), listed);
  }

  /** Whether the acting player is in an observer's square, before and after, is what the
      observer's subscriptions said before. */
  lemma {:induction false} SightBySubs(w: World, p: Pid, a: Act, o: Pid)
    requires Allowed(w, p, a) && Indexed(w) && o != p
    ensures p in w.machines ==> (Sees(w, o, p) <==> InPlay(w, p) && (w.machines[p].Home(), o) in w.subs)
    ensures var w' := Apply(Intended, w, p, a);
      Sees(w', o, p) <==> InPlay(w', p) && (w'.machines[p].Home(), o) in w.subs
  {
    OthersStay(Intended, w, p, a, o);
  }

  /** News of a player in play, or about to be, tell an observer exactly whether it is there. */
  lemma {:induction false} NewsOfActive(w: World, p: Pid, a: Act, o: Pid, v: View)
    requires Allowed(w, p, a) && Indexed(w) && o != p
    requires InPlay(w, p) || a.Enter?
    requires KnowsOf(v, EntityOf(w, p), Sees(w, o, p), PositionOf(w, p))
    ensures var w' := Apply(Intended, w, p, a); var v' := WatchAll(v, OthersNews(Intended, w, p, a, o));
      && SameButFor(v, v', EntityOf(w, p))
      && KnowsOf(v', EntityOf(w, p), Sees(w', o, p), PositionOf(w', p))
  {
    SightBySubs(w, p, a, o);
    if a.Enter? {
      WatchOne(v, SpawnOf(w.machines[p]));
    } else if a.Walk? {
      WalkNewsWatched(w, p, a.to, a.rotate, o, v);
    } else if a.Turn? {
      if (w.machines[p].Home(), o) in w.subs {
        TurnNewsWatched(v, EntityOf(w, p));
      }
    } else if a.Quit? {
      QuitNewsWatched(w, p, o, v);
    } else {
      EntitiesUntouched(v, OthersNews(Intended, w, p, a, o));
    }
  }

  lemma {:induction false} NewsOfInactive(w: World, p: Pid, a: Act, o: Pid, v: View)
    requires Allowed(w, p, a) && Indexed(w) && o != p && !InPlay(w, p) && !a.Enter?
    ensures var v' := WatchAll(v, OthersNews(Intended, w, p, a, o)); v'.known == v.known && v'.ok == v.ok
    ensures !InPlay(Apply(Intended, w, p, a), p)
  {
    EntitiesUntouched(v, OthersNews(Intended, w, p, a, o));
  }

  lemma {:induction false} OthersSeenAlike(w: World, p: Pid, a: Act, o: Pid, q: Pid)
    requires Allowed(w, p, a) && o != p && q != p
    ensures var w' := Apply(Intended, w, p, a);
      && (Sees(w', o, q) <==> Sees(w, o, q)) && EntityOf(w', q) == EntityOf(w, q)
      && (InPlay(w, q) ==> InPlay(w', q) && PositionOf(w', q) == PositionOf(w, q))
  {
    OthersStay(Intended, w, p, a, o);
    OthersStay(Intended, w, p, a, q);
  }

  /** An observer that knew exactly what it saw knows of the acting player when that is now seen. */
  lemma {:induction false} KnowsActor(w: World, p: Pid, o: Pid)
    requires DistinctIds(w) && KnowsExactly(w, o) && LoggedIn(w, p)
    ensures KnowsOf(Seen(Log(w, o)), EntityOf(w, p), Sees(w, o, p), PositionOf(w, p))
  {
    var v := Seen(Log(w, o));
    if EntityOf(w, p) in v.known {
      var q :| Sees(w, o, q) && EntityOf(w, q) == EntityOf(w, p);
      assert LoggedIn(w, q);
    }
  }

  lemma {:induction false} KnowsStill(w: World, w': World, p: Pid, o: Pid)
    requires KnowsExactly(w, o) && DistinctIds(w) && o != p
    requires forall q :: q != p ==>
      && (Sees(w', o, q) <==> Sees(w, o, q)) && EntityOf(w', q) == EntityOf(w, q)
      && (InPlay(w, q) ==> InPlay(w', q) && PositionOf(w', q) == PositionOf(w, q))
    requires LoggedIn(w, p) && SameButFor(Seen(Log(w, o)), Seen(Log(w', o)), EntityOf(w, p))
    requires EntityOf(w, p) in Seen(Log(w', o)).known <==> Sees(w', o, p)
    requires Sees(w', o, p) ==>
      (EntityOf(w', p) == EntityOf(w, p) && Near(Seen(Log(w', o)).known[EntityOf(w, p)], PositionOf(w', p)))
    ensures KnowsExactly(w', o)
  {
    var v, v' := Seen(Log(w, o)), Seen(Log(w', o));
    forall q | Sees(w', o, q)
      ensures EntityOf(w', q) in v'.known && Near(v'.known[EntityOf(w', q)], PositionOf(w', q))
    {
      if q != p {
        assert Sees(w, o, q) && LoggedIn(w, q);
      }
    }
    forall id | id in v'.known
      ensures exists q :: Sees(w', o, q) && EntityOf(w', q) == id
    {
      if id == EntityOf(w, p) {
        assert Sees(w', o, p);
      } else {
        var q :| Sees(w, o, q) && EntityOf(w, q) == id;
        assert q != p && Sees(w', o, q);
      }
    }
  }

  lemma {:induction false} ActiveIdStays(w: World, p: Pid, a: Act)
    requires Allowed(w, p, a) && (InPlay(w, p) || a.Enter?)
    ensures LoggedIn(w, p)
    ensures InPlay(Apply(Intended, w, p, a), p) ==> EntityOf(Apply(Intended, w, p, a), p) == EntityOf(w, p)
  {
  }

  /** Whatever another player does, an observer goes on knowing exactly what it sees. */
  lemma {:induction false} OthersActKnown(w: World, p: Pid, a: Act, o: Pid)
    requires Allowed(w, p, a) && Indexed(w) && DistinctIds(w)
    requires o != p && o in w.machines && KnowsExactly(w, o)
    ensures KnowsExactly(Apply(Intended, w, p, a), o)
  {
    var w' := Apply(Intended, w, p, a);
    var v := Seen(Log(w, o));
    OthersStay(Intended, w, p, a, o);
    NewsArrives(Intended, w, p, a, o);
    forall q | q != p
      ensures (Sees(w', o, q) <==> Sees(w, o, q)) && EntityOf(w', q) == EntityOf(w, q)
      ensures InPlay(w, q) ==> InPlay(w', q) && PositionOf(w', q) == PositionOf(w, q)
    {
      OthersSeenAlike(w, p, a, o, q);
    }
    if InPlay(w, p) || a.Enter? {
      ActiveIdStays(w, p, a);
      KnowsActor(w, p, o);
      NewsOfActive(w, p, a, o, v);
      KnowsStill(w, w', p, o);
    } else {
      NewsOfInactive(w, p, a, o, v);
      KnowsSame(w, w', o);
    }
  }

  /** A view that has not changed is still exact when what is seen has not. */
  lemma {:induction false} KnowsSame(w: World, w': World, o: Pid)
    requires KnowsExactly(w, o)
    requires Seen(Log(w', o)).known == Seen(Log(w, o)).known && Seen(Log(w', o)).ok == Seen(Log(w, o)).ok
    requires forall q :: Sees(w', o, q) <==> Sees(w, o, q)
    requires forall q :: Sees(w, o, q) ==> EntityOf(w', q) == EntityOf(w, q) && PositionOf(w', q) == PositionOf(w, q)
    ensures KnowsExactly(w', o)
  {
  }

  // ---- The observer acts ----

  /** Entering tells a client of every player in sight. */
  lemma {:induction false} SpawnsWatched(w: World, order: seq<Pid>, v: View)
    requires forall i :: 0 <= i < |order| ==> InPlay(w, order[i]) && EntityOf(w, order[i]) !in v.known
    requires forall i, j :: 0 <= i < j < |order| ==> EntityOf(w, order[i]) != EntityOf(w, order[j])
    ensures var v' := WatchAll(v, Spawns(w.machines, order));
      && v'.ok == v.ok
      && (forall i :: 0 <= i < |order| ==> KnowsOf(v', EntityOf(w, order[i]), true, PositionOf(w, order[i])))
      && (forall id :: id in v.known ==> id in v'.known && v'.known[id] == v.known[id])
      && (forall id :: id in v'.known ==> id in v.known || exists i :: 0 <= i < |order| && EntityOf(w, order[i]) == id)
    decreases order
  {
    if order != [] {
      var rest := order[1..];
      var next := Watch(v, Spawns(w.machines, order)[0]);
      assert Spawns(w.machines, order)[1..] == Spawns(w.machines, rest);
      assert forall i :: 0 <= i < |rest| ==> rest[i] == order[i + 1];
      assert next == v.(known := v.known[EntityOf(w, order[0]) := Belief(PositionOf(w, order[0]), 0)]);
      SpawnsWatched(w, rest, next);
      var v' := WatchAll(next, Spawns(w.machines, rest));
      assert WatchAll(v, Spawns(w.machines, order)) == v';
      forall i | 0 <= i < |order|
        ensures KnowsOf(v', EntityOf(w, order[i]), true, PositionOf(w, order[i]))
      {
        if i > 0 {
          assert order[i] == rest[i - 1];
        }
      }
      forall id | id in v'.known
        ensures id in v.known || exists i :: 0 <= i < |order| && EntityOf(w, order[i]) == id
      {
        if id !in next.known {
          var i :| 0 <= i < |rest| && EntityOf(w, rest[i]) == id;
          assert EntityOf(w, order[i + 1]) == id;
        } else if id !in v.known {
          assert EntityOf(w, order[0]) == id;
        }
      }
    }
  }

  /** The players found among the members of the square are those that will be seen. */
  lemma {:induction false} VisibleIsSeen(w: World, p: Pid, id: int, order: seq<Pid>, q: Pid)
    requires Allowed(w, p, Enter(id, order)) && Indexed(w)
    ensures q in order <==> Sees(Apply(Intended, w, p, Enter(id, order)), p, q)
  {
    assert q in order <==> q in Visible(w, p);
    if q != p {
      OthersStay(Intended, w, p, Enter(id, order), q);
      if InPlay(w, q) {
        assert (w.machines[q].Home(), q) in w.members;
      }
    }
  }

  lemma {:induction false} OrderIsSeen(w: World, p: Pid, id: int, order: seq<Pid>, q: Pid)
    requires Allowed(w, p, Enter(id, order)) && Indexed(w)
    ensures var w' := Apply(Intended, w, p, Enter(id, order));
      && (q in order <==> Sees(w', p, q))
      && (q in order ==> InPlay(w, q) && EntityOf(w', q) == EntityOf(w, q) && PositionOf(w', q) == PositionOf(w, q))
  {
    VisibleIsSeen(w, p, id, order, q);
    if q in order {
      OthersStay(Intended, w, p, Enter(id, order), q);
    }
  }

  lemma {:induction false} EnterWatched(w: World, p: Pid, id: int, order: seq<Pid>)
    requires Allowed(w, p, Enter(id, order))
    ensures Seen(Log(Apply(Intended, w, p, Enter(id, order)), p))
        == WatchAll(Seen(Log(w, p)), Spawns(w.machines, order))
  {
    NewsArrives(Intended, w, p, Enter(id, order), p);
    assert [] + Spawns(w.machines, order) == Spawns(w.machines, order);
  }

  lemma {:induction false} EnterKnown(w: World, p: Pid, id: int, order: seq<Pid>)
    requires Allowed(w, p, Enter(id, order)) && Indexed(w) && DistinctIds(w) && KnowsExactly(w, p)
    ensures KnowsExactly(Apply(Intended, w, p, Enter(id, order)), p)
  {
    var w' := Apply(Intended, w, p, Enter(id, order));
    EnterWatched(w, p, id, order);
    forall q
      ensures q in order <==> Sees(w', p, q)
      ensures q in order ==> InPlay(w, q) && EntityOf(w', q) == EntityOf(w, q) && PositionOf(w', q) == PositionOf(w, q)
    {
      OrderIsSeen(w, p, id, order, q);
    }
    SpawnsKnown(w, w', p, order);
  }

  lemma {:induction false} SpawnsKnown(w: World, w': World, p: Pid, order: seq<Pid>)
    requires DistinctIds(w) && KnowsExactly(w, p) && !InPlay(w, p)
    requires forall i, j :: 0 <= i < j < |order| ==> order[i] != order[j]
    requires forall q :: q in order <==> Sees(w', p, q)
    requires forall q :: q in order ==>
        InPlay(w, q) && EntityOf(w', q) == EntityOf(w, q) && PositionOf(w', q) == PositionOf(w, q)
    requires Seen(Log(w', p)) == WatchAll(Seen(Log(w, p)), Spawns(w.machines, order))
    ensures KnowsExactly(w', p)
  {
    NothingKnown(w, p);
    DistinctOrder(w, order);
    SpawnsWatched(w, order, Seen(Log(w, p)));
    SpawnedKnown(w, w', p, order);
  }

  lemma {:induction false} NothingKnown(w: World, p: Pid)
    requires KnowsExactly(w, p) && !InPlay(w, p)
    ensures forall id :: id !in Seen(Log(w, p)).known
  {
  }

  lemma {:induction false} DistinctOrder(w: World, order: seq<Pid>)
    requires DistinctIds(w)
    requires forall i, j :: 0 <= i < j < |order| ==> order[i] != order[j]
    requires forall i :: 0 <= i < |order| ==> InPlay(w, order[i])
    ensures forall i, j :: 0 <= i < j < |order| ==> EntityOf(w, order[i]) != EntityOf(w, order[j])
  {
    forall i, j | 0 <= i < j < |order|
      ensures EntityOf(w, order[i]) != EntityOf(w, order[j])
    {
      assert LoggedIn(w, order[i]) && LoggedIn(w, order[j]);
    }
  }

  lemma {:induction false} SpawnedKnown(w: World, w': World, p: Pid, order: seq<Pid>)
    requires Seen(Log(w', p)).ok
    requires forall q :: q in order <==> Sees(w', p, q)
    requires forall q :: q in order ==> EntityOf(w', q) == EntityOf(w, q) && PositionOf(w', q) == PositionOf(w, q)
    requires forall i :: 0 <= i < |order| ==>
        KnowsOf(Seen(Log(w', p)), EntityOf(w, order[i]), true, PositionOf(w, order[i]))
    requires forall id :: id in Seen(Log(w', p)).known ==> exists i :: 0 <= i < |order| && EntityOf(w, order[i]) == id
    ensures KnowsExactly(w', p)
  {
    var v := Seen(Log(w', p));
    forall q | Sees(w', p, q)
      ensures EntityOf(w', q) in v.known && Near(v.known[EntityOf(w', q)], PositionOf(w', q))
    {
      var i :| 0 <= i < |order| && order[i] == q;
    }
    forall id | id in v.known
      ensures exists q :: Sees(w', p, q) && EntityOf(w', q) == id
    {
      var i :| 0 <= i < |order| && EntityOf(w, order[i]) == id;
      assert order[i] in order;
    }
  }

  /** Nothing came into sight or went out of it. */
  ghost predicate SameSight(w: World, w': World, o: Pid) {
    forall q :: Sees(w', o, q) <==> Sees(w, o, q)
  }

  /** The square that a player will have whose act this is. */
  function SquareAfter(m: Machine, a: Act): Area {
    match a
    case Settle(vd) => Around(m.Home(), vd)
    case Walk(to, _) => Around(ChunkOf(to), m.viewDistance)
    case _ => m.Square()
  }

  /** No other player in play stands in just one of the squares before and after an act. */
  ghost predicate NoneBetween(w: World, p: Pid, a: Act)
    requires InPlay(w, p)
  {
    var m := w.machines[p];
    forall q :: q != p && InPlay(w, q) ==>
      (m.Square().Contains(w.machines[q].Home()) <==> SquareAfter(m, a).Contains(w.machines[q].Home()))
  }

  lemma {:induction false} SquareIsAfter(variant: Variant, w: World, p: Pid, a: Act)
    requires InPhase(w, p, a) && InPlay(w, p) && !a.Quit?
    ensures InPlay(Apply(variant, w, p, a), p)
    ensures Apply(variant, w, p, a).machines[p].Square() == SquareAfter(w.machines[p], a)
  {
  }

  /** What a player sees stays the same exactly when no other stands in just one of the squares. */
  lemma {:induction false} SightExactly(variant: Variant, w: World, p: Pid, a: Act)
    requires InPhase(w, p, a) && InPlay(w, p) && !a.Quit?
    ensures SameSight(w, Apply(variant, w, p, a), p) <==> NoneBetween(w, p, a)
  {
    var w' := Apply(variant, w, p, a);
    SquareIsAfter(variant, w, p, a);
    forall q | q != p
      ensures Sees(w', p, q) <==> InPlay(w, q) && SquareAfter(w.machines[p], a).Contains(w.machines[q].Home())
      ensures Sees(w, p, q) <==> InPlay(w, q) && w.machines[p].Square().Contains(w.machines[q].Home())
    {
      OthersStay(variant, w, p, a, q);
    }
  }

  predicate AllSilent(ks: seq<Packet>) {
    forall i :: 0 <= i < |ks| ==> SaysNothingOfEntities(ks[i])
  }

  lemma {:induction false} ChunksSilent(cells: seq<ChunkCoord>)
    ensures AllSilent(Loads(cells)) && AllSilent(Unloads(cells))
  {
  }

  lemma {:induction false} BothSilent(a: seq<Packet>, b: seq<Packet>)
    requires AllSilent(a) && AllSilent(b)
    ensures AllSilent(a + b)
  {
  }

  lemma {:induction false} ResizeSilent(variant: Variant, m: Machine, vd: nat)
    ensures AllSilent(Resize(variant, m, vd))
  {
    ChunksSilent(Ring(variant, m.Home(), m.viewDistance, vd));
  }

  lemma {:induction false} WelcomeSilent(m: Machine, vd: nat)
    ensures AllSilent(Welcome(m, vd))
  {
    ChunksSilent(SquareOf(m.Home(), vd));
    BothSilent(Loads(SquareOf(m.Home(), vd)), [SpawnPosition, PlayerPositionLook(m.position, m.nextTeleportId)]);
  }

  lemma {:induction false} CrossingSilent(m: Machine, to: ChunkCoord)
    ensures AllSilent(CrossingNews(m, to))
  {
    var gone, come := Newly(to, m.Home(), m.viewDistance), Newly(m.Home(), to, m.viewDistance);
    ChunksSilent(gone);
    ChunksSilent(come);
    BothSilent(Unloads(gone), Loads(come));
    BothSilent(Unloads(gone) + Loads(come), [UpdateViewPosition(to)]);
  }

  lemma {:induction false} OwnNewsSilent(variant: Variant, w: World, p: Pid, a: Act)
    requires (p in w.machines <==> !a.Start?) && !a.Enter?
    ensures AllSilent(OwnNews(variant, w, p, a))
  {
    match a
    case Settle(vd) =>
      ResizeSilent(variant, w.machines[p], vd);
      WelcomeSilent(w.machines[p], vd);
      BothSilent(Resize(variant, w.machines[p], vd), Welcome(w.machines[p], vd));
    case Walk(to, _) => CrossingSilent(w.machines[p], ChunkOf(to));
    case _ =>
  }

  lemma {:induction false} OwnNewsOfEntities(variant: Variant, w: World, p: Pid, a: Act, v: View)
    requires (p in w.machines <==> !a.Start?) && !a.Enter?
    ensures var v' := WatchAll(v, OwnNews(variant, w, p, a)); v'.known == v.known && v'.ok == v.ok
  {
    OwnNewsSilent(variant, w, p, a);
    EntitiesUntouched(v, OwnNews(variant, w, p, a));
  }

  lemma {:induction false} IdleOutsidePlay(variant: Variant, w: World, p: Pid, a: Act)
    requires InPhase(w, p, a) && !InPlay(w, p) && !a.Enter?
    ensures !InPlay(Apply(variant, w, p, a), p)
  {
  }

  /** A player that walks or resizes its square is told nothing of others, in either reading: its
      client goes on knowing exactly what it sees if and only if no other player stands in just one
      of the squares before and after. */
  lemma {:induction false} OwnActKnownExactly(variant: Variant, w: World, p: Pid, a: Act)
    requires InPhase(w, p, a) && DistinctIds(w)
    requires p in w.machines && KnowsExactly(w, p) && !a.Enter? && !a.Quit?
    ensures KnowsExactly(Apply(variant, w, p, a), p) <==> (InPlay(w, p) ==> NoneBetween(w, p, a))
  {
    var w' := Apply(variant, w, p, a);
    NewsArrives(variant, w, p, a, p);
    OwnNewsOfEntities(variant, w, p, a, Seen(Log(w, p)));
    forall q | q != p
      ensures EntityOf(w', q) == EntityOf(w, q) && (InPlay(w', q) <==> InPlay(w, q))
      ensures InPlay(w, q) ==> PositionOf(w', q) == PositionOf(w, q)
    {
      OthersStay(variant, w, p, a, q);
    }
    if InPlay(w, p) {
      SightExactly(variant, w, p, a);
    } else {
      IdleOutsidePlay(variant, w, p, a);
    }
    if SameSight(w, w', p) {
      KnowsSame(w, w', p);
    } else if KnowsExactly(w', p) {
      SightIsKnown(w, w', p);
    }
  }

  /** Two states in which the same view is exact show the same players. */
  lemma {:induction false} SightIsKnown(w: World, w': World, o: Pid)
    requires KnowsExactly(w, o) && KnowsExactly(w', o) && Seen(Log(w, o)).known == Seen(Log(w', o)).known
    requires DistinctIds(w)
    requires forall q :: q != o ==> EntityOf(w', q) == EntityOf(w, q) && (InPlay(w', q) <==> InPlay(w, q))
    ensures SameSight(w, w', o)
  {
    forall q
      ensures Sees(w', o, q) <==> Sees(w, o, q)
    {
      if Sees(w, o, q) {
        var r :| Sees(w', o, r) && EntityOf(w', r) == EntityOf(w, q);
        assert LoggedIn(w, r) && LoggedIn(w, q);
      }
      if Sees(w', o, q) {
        var r :| Sees(w, o, r) && EntityOf(w, r) == EntityOf(w', q);
        assert LoggedIn(w, r) && LoggedIn(w, q);
      }
    }
  }

  // ---- Runs ----

  /** When the observer itself acts in play, no other stands in just one of its squares. */
  ghost predicate KeepsSight(w: World, e: Event, o: Pid)
    requires Enabled(Intended, w, e)
  {
    e.p == o && InPlay(w, o) && !e.Disconnected? ==> NoneBetween(w, o, ActOf(Intended, w, e))
  }

  ghost predicate SightKept(es: seq<Event>, o: Pid)
    requires Possible(Intended, es)
    decreases |es|
  {
    es == [] || (SightKept(es[..|es| - 1], o) && KeepsSight(Run(Intended, es[..|es| - 1]), es[|es| - 1], o))
  }

  /** The observer's packet leaves it in its chunk and with its view distance. */
  predicate Stays(w: World, e: Event, o: Pid) {
    e.p == o && e.Received? && InPlay(w, o) ==>
      && (e.packet.PlayerPosition? ==> ChunkOf(e.packet.position) == w.machines[o].Home())
      && (e.packet.ClientSettings? ==> ClampViewDistance(e.packet.viewDistance) == w.machines[o].viewDistance)
  }

  ghost predicate AlwaysStays(es: seq<Event>, o: Pid)
    requires Possible(Intended, es)
    decreases |es|
  {
    es == [] || (AlwaysStays(es[..|es| - 1], o) && Stays(Run(Intended, es[..|es| - 1]), es[|es| - 1], o))
  }

  /** In particular when it keeps to one chunk and one view distance. */
  lemma {:induction false} StayingKeepsSight(es: seq<Event>, o: Pid)
    requires Possible(Intended, es) && AlwaysStays(es, o)
    ensures SightKept(es, o)
    decreases |es|
  {
    if es != [] {
      var before, e := es[..|es| - 1], es[|es| - 1];
      StayingKeepsSight(before, o);
      StayKeepsSight(Run(Intended, before), e, o);
    }
  }

  lemma {:induction false} StayKeepsSight(w: World, e: Event, o: Pid)
    requires Enabled(Intended, w, e) && Stays(w, e, o)
    ensures KeepsSight(w, e, o)
  {
    if e.p == o && InPlay(w, o) && !e.Disconnected? {
      assert SquareAfter(w.machines[o], ActOf(Intended, w, e)) == w.machines[o].Square();
    }
  }

  lemma {:induction false} NewcomerKnows(w: World, p: Pid)
    requires p !in w.machines && p !in w.sent
    ensures KnowsExactly(Apply(Intended, w, p, Start), p)
  {
    var w' := Apply(Intended, w, p, Start);
    assert Log(w', p) == [];
    assert forall q :: !Sees(w', p, q);
  }

  lemma {:induction false} OwnStepKnown(w: World, e: Event)
    requires Enabled(Intended, w, e) && Indexed(w) && DistinctIds(w) && KeepsSight(w, e, e.p) && !e.Disconnected?
    requires e.p in w.machines ==> KnowsExactly(w, e.p)
    ensures KnowsExactly(Step(Intended, w, e), e.p)
  {
    var a := ActOf(Intended, w, e);
    ActsAllowed(w, e);
    if a.Start? {
      NewcomerKnows(w, e.p);
    } else if a.Enter? {
      EnterKnown(w, e.p, a.teleportId, a.order);
    } else {
      OwnActKnownExactly(Intended, w, e.p, a);
    }
  }

  /** Entity ids are distinct after every run, in either reading. */
  lemma {:induction false} RunKeepsIds(variant: Variant, es: seq<Event>)
    requires Possible(variant, es)
    ensures DistinctIds(Run(variant, es))
    decreases |es|
  {
    if es != [] {
      var before, e := es[..|es| - 1], es[|es| - 1];
      RunKeepsIds(variant, before);
      var w := Run(variant, before);
      ActsInPhase(variant, w, e);
      ActKeepsIds(variant, w, e.p, ActOf(variant, w, e));
    }
  }

  /** However others log in, enter, walk, turn and leave, after every run a client knows exactly
      the players that its player sees and about where they are, and no news was ever out of
      place, as long as its own acts did not change what it sees. */
  lemma {:induction false} ViewsAreExact(es: seq<Event>, o: Pid)
    requires Possible(Intended, es) && SightKept(es, o) && o in Run(Intended, es).machines
    ensures KnowsExactly(Run(Intended, es), o)
    decreases |es|
  {
    if es != [] {
      var before, e := es[..|es| - 1], es[|es| - 1];
      var w := Run(Intended, before);
      IndexIsExact(before);
      RunKeepsIds(Intended, before);
      ActsAllowed(w, e);
      if o in w.machines {
        ViewsAreExact(before, o);
      }
      if e.p == o {
        OwnStepKnown(w, e);
      } else {
        OthersStay(Intended, w, e.p, ActOf(Intended, w, e), o);
        OthersActKnown(w, e.p, ActOf(Intended, w, e), o);
      }
    }
  }

  /** Then it knows another player's entity exactly when it is subscribed to that player's chunk,
      and after n relative moves it is at most n 4096ths of a block off on each axis. */
  lemma {:induction false} KnownExactlySubscribed(es: seq<Event>, o: Pid, q: Pid)
    requires Possible(Intended, es) && SightKept(es, o)
    requires o != q && InPlay(Run(Intended, es), o) && InPlay(Run(Intended, es), q)
    ensures var w := Run(Intended, es); var known, id := Seen(Log(w, o)).known, EntityOf(w, q);
      && (id in known <==> (w.machines[q].Home(), o) in w.subs)
      && (id in known ==> Near(known[id], w.machines[q].position))
  {
    var w := Run(Intended, es);
    ViewsAreExact(es, o);
    IndexIsExact(es);
    RunKeepsIds(Intended, es);
    KnowsActor(w, q, o);
  }
}
