/** What clients know of a player that walks when the subscription index need not be exact, as
    after a square was resized as written. */
module WorldResized {
  import opened Coords
  import opened Variants
  import opened Tracker
  import opened Client
  import opened World
  import opened WorldIndex
  import opened WorldViews
  import opened WorldWritten

  /** Whether a player in play sees a chunk. */
  predicate SeesChunk(w: World, o: Pid, c: ChunkCoord) {
    InPlay(w, o) && w.machines[o].Square().Contains(c)
  }

  /** The subscriptions of an observer say of both chunks of a walk what it sees; or it is told
      nothing, and either has both in its square with a belief that is still near, or neither. */
  predicate RightlyTold(w: World, p: Pid, to: EntityCoord, o: Pid)
    requires InPlay(w, p)
  {
    var m, known := w.machines[p], Seen(Log(w, o)).known;
    var left, entered := SeesChunk(w, o, m.Home()), SeesChunk(w, o, ChunkOf(to));
    if (m.Home(), o) in w.subs then left && (entered <==> (ChunkOf(to), o) in w.subs)
    else if (ChunkOf(to), o) in w.subs then !left && entered
    else left == entered && (left && m.entityId in known ==> Near(known[m.entityId], to))
  }

  lemma {:induction false} NeverOkAgain(v: View, ks: seq<Packet>)
    requires !v.ok
    ensures !WatchAll(v, ks).ok
    decreases ks
  {
    if ks != [] {
      NeverOkAgain(Watch(v, ks[0]), ks[1..]);
    }
  }

  /** News of an entity that is not known, or a spawn of one that is, is out of place. */
  lemma {:induction false} OutOfPlace(v: View, k: Packet, ks: seq<Packet>)
    requires ((k.EntityMove? || k.EntityTeleport? || k.DestroyEntity?) && k.entityId !in v.known)
          || (k.SpawnPlayer? && k.entityId in v.known)
    ensures !WatchAll(v, [k] + ks).ok
  {
    WatchAppend(v, [k], ks);
    WatchOne(v, k);
    NeverOkAgain(Watch(v, k), ks);
  }

  /** What a walk tells an observer fits what it knows exactly when it knows of those, and only
      those, that it is told about as known. */
  lemma {:induction false} WalkNewsFits(w: World, p: Pid, to: EntityCoord, rotate: bool, o: Pid, v: View)
    requires InPlay(w, p) && v.ok
    requires (EntityOf(w, p) in v.known) != ((w.machines[p].Home(), o) in w.subs)
    requires (w.machines[p].Home(), o) in w.subs || (ChunkOf(to), o) in w.subs
    ensures !WatchAll(v, WalkNews(w, w.machines[p], to, rotate, o)).ok
  {
    var m := w.machines[p];
    if (m.Home(), o) in w.subs && (ChunkOf(to), o) in w.subs {
      OutOfPlace(v, MovePacket(m.entityId, m.position, to, rotate), if rotate then [EntityHeadLook(m.entityId)]
          else []);
    } else if (m.Home(), o) in w.subs {
      OutOfPlace(v, DestroyEntity(m.entityId), []);
    } else {
      OutOfPlace(v, SpawnPlayer(m.entityId, to), []);
    }
  }

  /** With all else unchanged, a view is exact if and only if it is right about one player. */
  lemma {:induction false} RightAboutOne(w: World, w': World, p: Pid, o: Pid)
    requires KnowsExactly(w, o) && DistinctIds(w) && DistinctIds(w') && o != p
    requires forall q :: q != p ==>
      && (Sees(w', o, q) <==> Sees(w, o, q)) && EntityOf(w', q) == EntityOf(w, q)
      && (InPlay(w, q) ==> InPlay(w', q) && PositionOf(w', q) == PositionOf(w, q))
    requires LoggedIn(w, p) && LoggedIn(w', p) && EntityOf(w', p) == EntityOf(w, p)
    requires SameButFor(Seen(Log(w, o)), Seen(Log(w', o)), EntityOf(w, p))
    ensures KnowsExactly(w', o) <==> KnowsOf(Seen(Log(w', o)), EntityOf(w, p), Sees(w', o, p), PositionOf(w', p))
  {
    if KnowsExactly(w', o) {
      KnowsActor(w', p, o);
    } else if KnowsOf(Seen(Log(w', o)), EntityOf(w, p), Sees(w', o, p), PositionOf(w', p)) {
      KnowsStill(w, w', p, o);
    }
  }

  lemma {:induction false} WalkSight(variant: Variant, w: World, p: Pid, to: EntityCoord, rotate: bool, o: Pid)
    requires InPlay(w, p) && o != p && o in w.machines
    ensures var w' := Apply(variant, w, p, Walk(to, rotate));
      && InPlay(w', p) && EntityOf(w', p) == EntityOf(w, p) && PositionOf(w', p) == to
      && (Sees(w, o, p) <==> SeesChunk(w, o, w.machines[p].Home()))
          && (Sees(w', o, p) <==> SeesChunk(w, o, ChunkOf(to)))
      && forall q :: q != p ==>
        && (Sees(w', o, q) <==> Sees(w, o, q)) && EntityOf(w', q) == EntityOf(w, q)
        && (InPlay(w, q) ==> InPlay(w', q) && PositionOf(w', q) == PositionOf(w, q))
  {
    var w' := Apply(variant, w, p, Walk(to, rotate));
    OthersStay(variant, w, p, Walk(to, rotate), o);
    forall q | q != p
      ensures (Sees(w', o, q) <==> Sees(w, o, q)) && EntityOf(w', q) == EntityOf(w, q)
      ensures InPlay(w, q) ==> InPlay(w', q) && PositionOf(w', q) == PositionOf(w, q)
    {
      OthersStay(variant, w, p, Walk(to, rotate), q);
    }
  }

  /** When the news fits, the view is right about the walker afterwards exactly when the observer
      is rightly told. */
  lemma {:induction false} FittingNewsExactly(w: World, p: Pid, to: EntityCoord, rotate: bool, o: Pid, v: View)
    requires InPlay(w, p) && v == Seen(Log(w, o))
    requires KnowsOf(v, EntityOf(w, p), SeesChunk(w, o, w.machines[p].Home()), PositionOf(w, p))
    requires SeesChunk(w, o, w.machines[p].Home()) == ((w.machines[p].Home(), o) in w.subs)
          || ((w.machines[p].Home(), o) !in w.subs && (ChunkOf(to), o) !in w.subs)
    ensures var v' := WatchAll(v, WalkNews(w, w.machines[p], to, rotate, o));
      && SameButFor(v, v', EntityOf(w, p))
      && (KnowsOf(v', EntityOf(w, p), SeesChunk(w, o, ChunkOf(to)), to) <==> RightlyTold(w, p, to, o))
  {
    if SeesChunk(w, o, w.machines[p].Home()) == ((w.machines[p].Home(), o) in w.subs) {
      WalkNewsWatched(w, p, to, rotate, o, v);
    }
  }

  /** Whatever the index says, in either reading, an observer whose view was exact keeps an exact
      view of a player that walks if and only if it is rightly told. */
  lemma {:induction false} WalkKnownExactly(variant: Variant, w: World, p: Pid, to: EntityCoord, rotate: bool, o: Pid)
    requires InPlay(w, p) && DistinctIds(w) && o != p && o in w.machines && KnowsExactly(w, o)
    ensures KnowsExactly(Apply(variant, w, p, Walk(to, rotate)), o) <==> RightlyTold(w, p, to, o)
  {
    var m, v, w' := w.machines[p], Seen(Log(w, o)), Apply(variant, w, p, Walk(to, rotate));
    KnowsActor(w, p, o);
    OthersStay(variant, w, p, Walk(to, rotate), o);
    NewsArrives(variant, w, p, Walk(to, rotate), o);
    WalkSight(variant, w, p, to, rotate, o);
    ActKeepsIds(variant, w, p, Walk(to, rotate));
    if SeesChunk(w, o, m.Home()) == ((m.Home(), o) in w.subs)
        || ((m.Home(), o) !in w.subs && (ChunkOf(to), o) !in w.subs) {
      FittingNewsExactly(w, p, to, rotate, o, v);
      RightAboutOne(w, w', p, o);
    } else {
      WalkNewsFits(w, p, to, rotate, o, v);
    }
  }

  /** The far corner of the larger of two squares around a player. */
  function FarCorner(m: Machine, vd: nat): ChunkCoord {
    var larger := if m.viewDistance < vd then vd else m.viewDistance;
    ChunkCoord(m.Home().x - larger, m.Home().z - larger)
  }

  lemma {:induction false} CornerUpdated(subs: Relation, c: ChunkCoord, oldVd: nat, newVd: nat, p: Pid)
    requires SubscribesTo(subs, p, Around(c, oldVd)) && oldVd != newVd
    ensures var larger := if oldVd < newVd then newVd else oldVd;
      (ChunkCoord(c.x - larger, c.z - larger), p) in UpdatedSubs(Written, subs, c, oldVd, newVd, p) <==> newVd < oldVd
  {
    CornerLeftOut(c, oldVd, newVd);
  }

  lemma {:induction false} CornerSeen(w: World, o: Pid, vd: nat)
    requires InPlay(w, o)
    ensures SeesChunk(Apply(Written, w, o, Settle(vd)), o, FarCorner(w.machines[o], vd))
       <==> w.machines[o].viewDistance <= vd
  {
    SquareIsAfter(Written, w, o, Settle(vd));
  }

  lemma {:induction false} SubsSettled(w: World, o: Pid, vd: nat)
    requires InPlay(w, o)
    ensures var m := w.machines[o];
      Apply(Written, w, o, Settle(vd)).subs
        == if m.viewDistance == 0 then w.subs else UpdatedSubs(Written, w.subs, m.Home(), m.viewDistance, vd, o)
  {
  }

  lemma {:induction false} CornerOutside(subs: Relation, p: Pid, c: ChunkCoord, oldVd: nat, newVd: nat)
    requires SubscribesTo(subs, p, Around(c, oldVd)) && oldVd < newVd
    ensures (ChunkCoord(c.x - newVd, c.z - newVd), p) !in subs
  {
  }

  lemma {:induction false} SubscribesToSquare(w: World, o: Pid)
    requires Indexed(w) && InPlay(w, o)
    ensures SubscribesTo(w.subs, o, w.machines[o].Square())
  {
  }

  lemma {:induction false} CornerSubscribed(w: World, o: Pid, vd: nat)
    requires Indexed(w) && InPlay(w, o) && w.machines[o].viewDistance != vd
    ensures (FarCorner(w.machines[o], vd), o) in Apply(Written, w, o, Settle(vd)).subs
       <==> vd < w.machines[o].viewDistance
  {
    var m := w.machines[o];
    SubscribesToSquare(w, o);
    SubsSettled(w, o, vd);
    if m.viewDistance == 0 {
      CornerOutside(w.subs, o, m.Home(), m.viewDistance, vd);
    } else {
      CornerUpdated(w.subs, m.Home(), m.viewDistance, vd, o);
    }
  }

  /** So once a client in play has resized its square as written, and still knows what it sees, any
      player that walks from outside both squares into that corner leaves it with a wrong picture:
      of a player it sees but was never told of, or of one it does not see but was told of. */
  lemma {:induction false} ResizedIsMisled(w: World, o: Pid, vd: nat, p: Pid, to: EntityCoord, rotate: bool)
    requires Indexed(w) && DistinctIds(w) && InPlay(w, o) && InPlay(w, p) && p != o
    requires w.machines[o].viewDistance != vd
    requires KnowsExactly(w, o) && NoneBetween(w, o, Settle(vd))
    requires !w.machines[o].Square().Contains(w.machines[p].Home())
    requires ChunkOf(to) == FarCorner(w.machines[o], vd)
    ensures var w' := Apply(Written, w, o, Settle(vd));
      KnowsExactly(w', o) && InPlay(w', p) && !KnowsExactly(Apply(Written, w', p, Walk(to, rotate)), o)
  {
    var w', home := Apply(Written, w, o, Settle(vd)), w.machines[p].Home();
    OthersStay(Written, w, o, Settle(vd), p);
    OwnActKnownExactly(Written, w, o, Settle(vd));
    ActKeepsIds(Written, w, o, Settle(vd));
    CornerSeen(w, o, vd);
    CornerSubscribed(w, o, vd);
    SquareIsAfter(Written, w, o, Settle(vd));
    assert !SquareAfter(w.machines[o], Settle(vd)).Contains(home);
    assert !SeesChunk(w', o, home);
    WalkKnownExactly(Written, w', p, to, rotate, o);
  }
}
