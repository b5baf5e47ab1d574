/** Where the program as written parts from what is meant, and what each such step breaks. */
module WorldWritten {
  import opened Coords
  import opened Variants
  import opened Tracker
  import opened Client
  import opened World
  import opened WorldIndex
  import opened WorldPhases
  import opened WorldViews
  import opened WorldTabs

  /** Settings that change the view distance of a player that has one, or that plays. */
  predicate Resizes(w: World, e: Event) {
    && e.Received? && e.packet.ClientSettings? && e.p in w.machines && w.machines[e.p].LoggedIn()
    && HasSquare(w.machines[e.p]) && w.machines[e.p].viewDistance != ClampViewDistance(e.packet.viewDistance)
  }

  /** A connection that closes between login and play. */
  predicate LeavesEarly(w: World, e: Event) {
    e.Disconnected? && e.p in w.machines && w.machines[e.p].phase.PLAY_INIT?
  }

  predicate Harmless(w: World, e: Event) {
    !BadConfirm(w, e, e.p) && !Resizes(w, e) && !LeavesEarly(w, e)
  }

  // ---- Where the two part ----

  lemma {:induction false} NewsAgrees(w: World, e: Event, o: Pid)
    requires Enabled(Intended, w, e) && Harmless(w, e)
    ensures Enabled(Written, w, e)
    ensures ActOf(Written, w, e) == ActOf(Intended, w, e)
    ensures News(Written, w, e.p, ActOf(Written, w, e), o) == News(Intended, w, e.p, ActOf(Intended, w, e), o)
  {
  }

  lemma {:induction false} HarmlessAgrees(w: World, e: Event)
    requires Enabled(Intended, w, e) && Harmless(w, e)
    ensures Enabled(Written, w, e)
    ensures Step(Written, w, e) == Step(Intended, w, e)
  {
    var a := ActOf(Intended, w, e);
    NewsAgrees(w, e, e.p);
    forall o | o in MachinesAfter(w, e.p, a)
      ensures News(Written, w, e.p, a, o) == News(Intended, w, e.p, a, o)
    {
      NewsAgrees(w, e, o);
    }
    assert Step(Written, w, e).sent == Step(Intended, w, e).sent;
  }

  /** The far corner of the larger square is in the ring as meant, but not as written. */
  lemma {:induction false} CornerLeftOut(c: ChunkCoord, oldVd: nat, newVd: nat)
    requires oldVd != newVd
    ensures var larger := if oldVd < newVd then newVd else oldVd; var corner := ChunkCoord(c.x - larger, c.z - larger);
      && corner in Ring(Intended, c, oldVd, newVd) && corner !in Ring(Written, c, oldVd, newVd)
      && (Around(c, newVd).Contains(corner) <==> oldVd < newVd)
  {
    var larger, smaller := if oldVd < newVd then newVd else oldVd, if oldVd < newVd then oldVd else newVd;
    CellsExactly(Around(c, larger), Kept(Intended, c, larger, smaller));
    CellsExactly(Around(c, larger), Kept(Written, c, larger, smaller));
  }

  lemma {:induction false} SameMiddle(a: seq<Packet>, x: seq<Packet>, y: seq<Packet>, b: seq<Packet>)
    requires a + (x + b) == a + (y + b)
    ensures x == y
  {
    assert (a + (x + b))[|a|..] == x + b && (a + (y + b))[|a|..] == y + b;
    assert |x| == |y|;
    assert (x + b)[..|x|] == x && (y + b)[..|y|] == y;
  }

  lemma {:induction false} ResizeDiffers(m: Machine, vd: nat)
    requires m.viewDistance != 0 && m.viewDistance != vd
    ensures Resize(Written, m, vd) != Resize(Intended, m, vd)
  {
    CornerLeftOut(m.Home(), m.viewDistance, vd);
    var meant, written := Ring(Intended, m.Home(), m.viewDistance, vd), Ring(Written, m.Home(), m.viewDistance, vd);
    if Resize(Written, m, vd) == Resize(Intended, m, vd) {
      if vd < m.viewDistance {
        UnloadsInjective(written, meant);
      } else {
        LoadsInjective(written, meant);
      }
    }
  }

  lemma {:induction false} UnloadsInjective(a: seq<ChunkCoord>, b: seq<ChunkCoord>)
    requires Unloads(a) == Unloads(b)
    ensures a == b
  {
    forall i | 0 <= i < |a|
      ensures a[i] == b[i]
    {
      assert Unloads(a)[i] == Unloads(b)[i];
    }
  }

  lemma {:induction false} LoadsInjective(a: seq<ChunkCoord>, b: seq<ChunkCoord>)
    requires Loads(a) == Loads(b)
    ensures a == b
  {
    forall i | 0 <= i < |a|
      ensures a[i] == b[i]
    {
      assert Loads(a)[i] == Loads(b)[i];
    }
  }

  lemma {:induction false} ResizesDiffers(w: World, e: Event)
    requires Enabled(Written, w, e) && Resizes(w, e) && w.machines[e.p].viewDistance != 0
    ensures Step(Written, w, e) != Step(Intended, w, e)
  {
    var m, vd := w.machines[e.p], ClampViewDistance(e.packet.viewDistance);
    ResizeDiffers(m, vd);
    if Step(Written, w, e) == Step(Intended, w, e) {
      assert Step(Written, w, e).sent[e.p] == Log(w, e.p) + (Resize(Written, m, vd) + Welcome(m, vd));
      assert Step(Intended, w, e).sent[e.p] == Log(w, e.p) + (Resize(Intended, m, vd) + Welcome(m, vd));
      SameMiddle(Log(w, e.p), Resize(Written, m, vd), Resize(Intended, m, vd), Welcome(m, vd));
    }
  }

  /** From a view distance of zero in play, the text leaves the index as it is. */
  lemma {:induction false} ResizesFromNoneDiffers(w: World, e: Event)
    requires Enabled(Written, w, e) && Resizes(w, e) && w.machines[e.p].viewDistance == 0 && Indexed(w)
    ensures Step(Written, w, e) != Step(Intended, w, e)
  {
    var m, vd := w.machines[e.p], ClampViewDistance(e.packet.viewDistance);
    var corner := ChunkCoord(m.Home().x - vd, m.Home().z - vd);
    CornerLeftOut(m.Home(), 0, vd);
    assert (corner, e.p) in Step(Intended, w, e).subs;
    assert (corner, e.p) !in Step(Written, w, e).subs;
  }

  lemma {:induction false} BadConfirmDiffers(w: World, e: Event)
    requires Enabled(Written, w, e) && BadConfirm(w, e, e.p)
    ensures Step(Written, w, e) != Step(Intended, w, e)
  {
    assert Step(Written, w, e).machines[e.p].phase.PLAY?;
    assert Step(Intended, w, e).machines[e.p].phase.PLAY_INIT?;
  }

  lemma {:induction false} LeavesEarlyDiffers(w: World, e: Event)
    requires Enabled(Written, w, e) && LeavesEarly(w, e) && Registered(w)
    ensures Step(Written, w, e) != Step(Intended, w, e)
  {
    assert LoggedIn(w, e.p);
    assert e.p in Step(Written, w, e).players && e.p !in Step(Intended, w, e).players;
  }

  /** From any state with an exact index and the right players registered, a step as written is the
      step as meant if and only if it is not one of the three. */
  lemma {:induction false} WrittenStepExactly(w: World, e: Event)
    requires Enabled(Written, w, e) && Indexed(w) && Registered(w)
    ensures Step(Written, w, e) == Step(Intended, w, e) <==> Harmless(w, e)
  {
    if Harmless(w, e) {
      HarmlessAgrees(w, e);
    } else if Resizes(w, e) {
      if w.machines[e.p].viewDistance == 0 {
        ResizesFromNoneDiffers(w, e);
      } else {
        ResizesDiffers(w, e);
      }
    } else if BadConfirm(w, e, e.p) {
      BadConfirmDiffers(w, e);
    } else {
      LeavesEarlyDiffers(w, e);
    }
  }

  ghost predicate AllHarmless(es: seq<Event>)
    requires Possible(Intended, es)
    decreases |es|
  {
    es == [] || (AllHarmless(es[..|es| - 1]) && Harmless(Run(Intended, es[..|es| - 1]), es[|es| - 1]))
  }

  /** Runs without such steps are runs of the program as written, so all that is proved of the
      one holds of the other. */
  lemma {:induction false} WrittenRunAgrees(es: seq<Event>)
    requires Possible(Intended, es) && AllHarmless(es)
    ensures Possible(Written, es) && Run(Written, es) == Run(Intended, es)
    decreases |es|
  {
    if es != [] {
      var before, e := es[..|es| - 1], es[|es| - 1];
      WrittenRunAgrees(before);
      HarmlessAgrees(Run(Intended, before), e);
    }
  }

  // ---- What such a step breaks ----

  /** Closing between login and play leaves a player registered that is gone; nothing else does. */
  lemma {:induction false} WrittenRegisteredExactly(w: World, e: Event)
    requires Enabled(Written, w, e) && Registered(w)
    ensures Registered(Step(Written, w, e)) <==> !LeavesEarly(w, e)
  {
    var a, w' := ActOf(Written, w, e), Step(Written, w, e);
    if LeavesEarly(w, e) {
      assert LoggedIn(w, e.p);
      assert e.p in w'.players && !LoggedIn(w', e.p);
    } else {
      forall q
        ensures q in w'.players <==> LoggedIn(w', q)
      {
        if q != e.p {
          OthersStay(Written, w, e.p, a, q);
        }
      }
    }
  }

  /** A bad confirmation by a player that has sent no settings. */
  predicate EntersBlind(w: World, e: Event) {
    BadConfirm(w, e, e.p) && w.machines[e.p].viewDistance == 0
  }

  /** A bad confirmation puts a player that has sent no settings into play with a view distance of
      zero; nothing else breaks what is meant of view distances and ids. */
  lemma {:induction false} WrittenDistancesExactly(w: World, e: Event)
    requires Enabled(Written, w, e) && AllSafe(w)
    ensures AllSafe(Step(Written, w, e)) <==> !EntersBlind(w, e)
  {
    var a, w' := ActOf(Written, w, e), Step(Written, w, e);
    forall q | q in w'.machines && q != e.p
      ensures PhaseSafe(w'.machines[q])
    {
      OthersStay(Written, w, e.p, a, q);
    }
    if e.p in w'.machines {
      OwnSafeExactly(w, e);
    }
  }

  /** Whoever the step puts into play has confirmed an outstanding id, and view distances and ids
      are as they should be. */
  ghost predicate EntersSafely(w: World, e: Event)
    requires Enabled(Written, w, e)
  {
    && AllSafe(Step(Written, w, e))
    && forall p :: !InPlay(w, p) && InPlay(Step(Written, w, e), p) ==> Confirms(w, e, p)
  }

  /** As written, phases go as they should if and only if no id is confirmed that is not
      outstanding, whatever the view distance. */
  lemma {:induction false} WrittenSafeExactly(w: World, e: Event)
    requires Enabled(Written, w, e) && AllSafe(w)
    ensures EntersSafely(w, e) <==> !BadConfirm(w, e, e.p)
  {
    WrittenDistancesExactly(w, e);
    forall p
      ensures !InPlay(w, p) && InPlay(Step(Written, w, e), p) <==> Enters(Written, w, e, p)
    {
      EntryExactly(Written, w, e, p);
    }
    if BadConfirm(w, e, e.p) {
      assert Enters(Written, w, e, e.p) && !Confirms(w, e, e.p);
    }
  }

  lemma {:induction false} OwnSafeExactly(w: World, e: Event)
    requires Enabled(Written, w, e) && AllSafe(w) && e.p in Step(Written, w, e).machines
    ensures PhaseSafe(Step(Written, w, e).machines[e.p]) <==> !EntersBlind(w, e)
  {
    if e.p in w.machines {
      assert PhaseSafe(w.machines[e.p]);
    }
  }

  // ---- The index ----

  /** Settings whose clamped distance is another one in play, or a larger one before it when there
      was one. */
  predicate BreaksIndex(w: World, e: Event) {
    Resizes(w, e) && (w.machines[e.p].phase.PLAY?
        || w.machines[e.p].viewDistance < ClampViewDistance(e.packet.viewDistance))
  }

  /** As written, a step keeps the index exact if and only if it is not of this kind. */
  lemma {:induction false} WrittenIndexExactly(w: World, e: Event)
    requires Enabled(Written, w, e) && Indexed(w)
    ensures Indexed(Step(Written, w, e)) <==> !BreaksIndex(w, e)
  {
    var a := ActOf(Written, w, e);
    if a.Settle? {
      SettleIndexExactly(w, e.p, a.viewDistance);
    } else if a.Enter? {
      EnterKeepsIndex(w, e.p, a.teleportId, a.order);
    } else {
      UnsettledIndex(w, e);
    }
  }

  lemma {:induction false} UnsettledIndex(w: World, e: Event)
    requires Enabled(Written, w, e) && Indexed(w) && !ActOf(Written, w, e).Settle? && !ActOf(Written, w, e).Enter?
    ensures Indexed(Step(Written, w, e))
  {
    var a := ActOf(Intended, w, e);
    ActsAllowed(w, e);
    assert ActOf(Written, w, e) == a;
    ActKeepsIndex(w, e.p, a);
    SameIndex(Apply(Intended, w, e.p, a), Apply(Written, w, e.p, a));
  }

  lemma {:induction false} SameIndex(w: World, w': World)
    requires Indexed(w) && w'.machines == w.machines && w'.members == w.members && w'.subs == w.subs
    requires w'.sent.Keys == w.sent.Keys
    ensures Indexed(w')
  {
  }

  lemma {:induction false} EnterKeepsIndex(w: World, p: Pid, id: int, order: seq<Pid>)
    requires Indexed(w) && p in w.machines && w.machines[p].phase.PLAY_INIT?
    ensures Indexed(Apply(Written, w, p, Enter(id, order)))
  {
    var w' := Apply(Written, w, p, Enter(id, order));
    CellsExactly(w.machines[p].Square(), NOWHERE);
    forall c, q
      ensures (c, q) in w'.members <==> InPlay(w', q) && c == w'.machines[q].Home()
      ensures (c, q) in w'.subs <==> InPlay(w', q) && w'.machines[q].Square().Contains(c)
    {
      if q != p {
        OthersStay(Written, w, p, Enter(id, order), q);
      }
    }
  }

  lemma {:induction false} SettleIndexExactly(w: World, p: Pid, vd: nat)
    requires Indexed(w) && p in w.machines && w.machines[p].LoggedIn() && vd != 0
    ensures var m := w.machines[p];
      Indexed(Apply(Written, w, p, Settle(vd))) <==>
        if m.phase.PLAY? then vd == m.viewDistance else m.viewDistance == 0 || vd <= m.viewDistance
  {
    var m := w.machines[p];
    if m.phase.PLAY? && vd != m.viewDistance {
      ResizedIndex(w, p, vd);
    } else if m.phase.PLAY_INIT? && 0 < m.viewDistance < vd {
      GrownEarly(w, p, vd);
    } else {
      assert Apply(Written, w, p, Settle(vd)).subs == w.subs;
      SubsStay(w, p, vd);
    }
  }

  lemma {:induction false} ResizedIndex(w: World, p: Pid, vd: nat)
    requires Indexed(w) && InPlay(w, p) && vd != w.machines[p].viewDistance
    ensures !Indexed(Apply(Written, w, p, Settle(vd)))
  {
    var m, w' := w.machines[p], Apply(Written, w, p, Settle(vd));
    assert w'.machines[p].Square() == Around(m.Home(), vd);
    if m.viewDistance == 0 {
      var corner := ChunkCoord(m.Home().x + vd, m.Home().z);
      assert w'.machines[p].Square().Contains(corner) && (corner, p) !in w'.subs;
    } else {
      WrittenUpdateExactly(w.subs, m.Home(), m.viewDistance, vd, p);
      assert !SubscribesTo(w'.subs, p, Around(m.Home(), vd));
    }
  }

  lemma {:induction false} GrownEarly(w: World, p: Pid, vd: nat)
    requires Indexed(w) && p in w.machines && w.machines[p].phase.PLAY_INIT? && 0 < w.machines[p].viewDistance < vd
    ensures !Indexed(Apply(Written, w, p, Settle(vd)))
  {
    var m, w' := w.machines[p], Apply(Written, w, p, Settle(vd));
    var corner := ChunkCoord(m.Home().x + vd, m.Home().z + vd);
    CellsExactly(Around(m.Home(), vd), Kept(Written, m.Home(), vd, m.viewDistance));
    assert (corner, p) in w'.subs && !InPlay(w', p);
  }

  lemma {:induction false} SubsStay(w: World, p: Pid, vd: nat)
    requires Indexed(w) && p in w.machines && (InPlay(w, p) ==> vd == w.machines[p].viewDistance)
    requires Apply(Written, w, p, Settle(vd)).subs == w.subs
    ensures Indexed(Apply(Written, w, p, Settle(vd)))
  {
    var w' := Apply(Written, w, p, Settle(vd));
    forall c, q
      ensures (c, q) in w'.members <==> InPlay(w', q) && c == w'.machines[q].Home()
      ensures (c, q) in w'.subs <==> InPlay(w', q) && w'.machines[q].Square().Contains(c)
    {
      if q != p {
        OthersStay(Written, w, p, Settle(vd), q);
      }
    }
  }

  // ---- Chunks held by clients ----

  /** Settings whose clamped distance is another one in play, or a smaller one before it when there
      was one, and going into play without a view distance. */
  predicate BreaksSquares(w: World, e: Event) {
    || (Resizes(w, e) && (w.machines[e.p].phase.PLAY?
        || ClampViewDistance(e.packet.viewDistance) < w.machines[e.p].viewDistance))
    || (Enters(Written, w, e, e.p) && w.machines[e.p].viewDistance == 0)
  }

  /** As written, a step leaves the clients' chunks their squares if and only if it is not of this
      kind. */
  lemma {:induction false} WrittenSquaresExactly(w: World, e: Event)
    requires Enabled(Written, w, e) && w.sent.Keys == w.machines.Keys && AllHold(w)
    ensures AllHold(Step(Written, w, e)) <==> !BreaksSquares(w, e)
  {
    var a, w' := ActOf(Written, w, e), Step(Written, w, e);
    forall q | q in w'.machines && q != e.p
      ensures HoldsSquare(w', q)
    {
      OthersStay(Written, w, e.p, a, q);
      NewsArrives(Written, w, e.p, a, q);
      OthersNewsOfChunks(Written, w, e.p, a, q);
      LoadedUntouched(Seen(Log(w, q)), OthersNews(Written, w, e.p, a, q));
    }
    if !a.Quit? {
      OwnSquareExactly(w, e);
    }
  }

  lemma {:induction false} OwnSquareExactly(w: World, e: Event)
    requires Enabled(Written, w, e) && w.sent.Keys == w.machines.Keys && AllHold(w) && !e.Disconnected?
    ensures HoldsSquare(Step(Written, w, e), e.p) <==> !BreaksSquares(w, e)
  {
    var a := ActOf(Written, w, e);
    if a.Settle? {
      SettleSquareExactly(w, e.p, a.viewDistance);
    } else if a.Walk? {
      WalkWatched(Written, w, e.p, a.to, a.rotate);
    } else if a.Enter? {
      EnterSquareExactly(w, e.p, a.teleportId, a.order);
    } else {
      QuietSquare(w, e.p, a);
    }
  }

  lemma {:induction false} QuietSquare(w: World, p: Pid, a: Act)
    requires (p in w.machines <==> !a.Start?) && !a.Settle? && !a.Walk? && !a.Quit? && !a.Enter?
    requires a.Shake? ==> w.machines[p].phase.INITIAL? && !a.next.PLAY?
    requires a.LogIn? ==> w.machines[p].phase.LOGIN?
    requires w.sent.Keys == w.machines.Keys && (p in w.machines ==> HoldsSquare(w, p))
    ensures HoldsSquare(Apply(Written, w, p, a), p)
  {
    LoadedStays(w, p, a);
  }

  lemma {:induction false} LoadedStays(w: World, p: Pid, a: Act)
    requires (p in w.machines <==> !a.Start?) && !a.Settle? && !a.Walk? && !a.Quit?
    ensures Seen(Log(Apply(Written, w, p, a), p)).loaded == Seen(Log(w, p)).loaded
  {
    NewsArrives(Written, w, p, a, p);
    OwnNewsOfChunks(Written, w, p, a);
    LoadedUntouched(Seen(Log(w, p)), OwnNews(Written, w, p, a));
  }

  lemma {:induction false} EnterSquareExactly(w: World, p: Pid, id: int, order: seq<Pid>)
    requires p in w.machines && w.machines[p].phase.PLAY_INIT? && HoldsSquare(w, p)
    ensures HoldsSquare(Apply(Written, w, p, Enter(id, order)), p) <==> w.machines[p].viewDistance != 0
  {
    LoadedStays(w, p, Enter(id, order));
    assert w.machines[p].Square().Contains(w.machines[p].Home());
  }

  lemma {:induction false} SettleSquareExactly(w: World, p: Pid, vd: nat)
    requires p in w.machines && w.machines[p].LoggedIn() && HoldsSquare(w, p) && vd != 0
    ensures var m := w.machines[p];
      HoldsSquare(Apply(Written, w, p, Settle(vd)), p) <==>
        if m.phase.PLAY? then vd == m.viewDistance else m.viewDistance <= vd
  {
    var m := w.machines[p];
    if m.viewDistance != 0 && vd != m.viewDistance {
      ResizeSquareExactly(w, p, vd);
    } else {
      UnresizedSquare(w, p, vd);
    }
  }

  lemma {:induction false} UnresizedSquare(w: World, p: Pid, vd: nat)
    requires p in w.machines && w.machines[p].LoggedIn() && HoldsSquare(w, p) && vd != 0
    requires w.machines[p].viewDistance == 0 || vd == w.machines[p].viewDistance
    ensures HoldsSquare(Apply(Written, w, p, Settle(vd)), p)
       <==> w.machines[p].phase.PLAY_INIT? || vd == w.machines[p].viewDistance
  {
    var m, v := w.machines[p], Seen(Log(w, p));
    NewsArrives(Written, w, p, Settle(vd), p);
    assert Resize(Written, m, vd) + Welcome(m, vd) == Welcome(m, vd);
    if m.phase.PLAY_INIT? {
      WelcomeAdds(v, m, vd);
    } else {
      assert WatchAll(v, []) == v;
      var corner := ChunkCoord(m.Home().x + vd, m.Home().z);
      assert Apply(Written, w, p, Settle(vd)).machines[p].Square().Contains(corner);
      assert corner in v.loaded <==> vd == m.viewDistance;
    }
  }

  lemma {:induction false} ResizeSquareExactly(w: World, p: Pid, vd: nat)
    requires p in w.machines && w.machines[p].LoggedIn() && HoldsSquare(w, p)
    requires w.machines[p].viewDistance != 0 && w.machines[p].viewDistance != vd && vd != 0
    ensures HoldsSquare(Apply(Written, w, p, Settle(vd)), p)
       <==> w.machines[p].phase.PLAY_INIT? && w.machines[p].viewDistance < vd
  {
    var m, v := w.machines[p], Seen(Log(w, p));
    var resized := WatchAll(v, Resize(Written, m, vd));
    var w' := Apply(Written, w, p, Settle(vd));
    NewsArrives(Written, w, p, Settle(vd), p);
    WatchAppend(v, Resize(Written, m, vd), Welcome(m, vd));
    WrittenResizeWatched(v, m, vd);
    if m.phase.PLAY_INIT? {
      WelcomeAdds(resized, m, vd);
    }
  }

  /** As written, a shrunk square keeps its far corner and a grown one lacks it, and no chunk
      outside both squares is ever held. */
  lemma {:induction false} WrittenResizeWatched(v: View, m: Machine, vd: nat)
    requires m.viewDistance != 0 && m.viewDistance != vd && forall c :: c in v.loaded <==> m.Square().Contains(c)
    ensures var loaded := WatchAll(v, Resize(Written, m, vd)).loaded;
      && (vd < m.viewDistance ==> exists c :: c in loaded && !Around(m.Home(), vd).Contains(c))
      && (m.viewDistance < vd ==> exists c :: c !in loaded && Around(m.Home(), vd).Contains(c))
      && (m.viewDistance < vd ==> forall c :: c in loaded ==> Around(m.Home(), vd).Contains(c))
  {
    var c, ring := m.Home(), Ring(Written, m.Home(), m.viewDistance, vd);
    CornerLeftOut(c, m.viewDistance, vd);
    UnloadsWatched(v, ring);
    LoadsWatched(v, ring);
    if m.viewDistance < vd {
      CellsExactly(Around(c, vd), Kept(Written, c, vd, m.viewDistance));
      assert Around(c, vd).Contains(ChunkCoord(c.x - vd, c.z - vd));
    } else {
      assert m.Square().Contains(ChunkCoord(c.x - m.viewDistance, c.z - m.viewDistance));
    }
  }

  // ---- Over whole runs as written ----

  /** A property holds after every prefix of a run. */
  ghost predicate Always(holds: World -> bool, es: seq<Event>)
    requires Possible(Written, es)
    decreases |es|
  {
    holds(Run(Written, es)) && (es != [] ==> Always(holds, es[..|es| - 1]))
  }

  /** No event of a run is of a kind. */
  ghost predicate Never(breaks: (World, Event) -> bool, es: seq<Event>)
    requires Possible(Written, es)
    decreases |es|
  {
    es != [] ==> Never(breaks, es[..|es| - 1]) && !breaks(Run(Written, es[..|es| - 1]), es[|es| - 1])
  }

  /** What exactly breaks a property in one step exactly breaks it in a run. */
  lemma {:induction false} Throughout(holds: World -> bool, breaks: (World, Event) -> bool, es: seq<Event>)
    requires Possible(Written, es) && holds(EMPTY_WORLD)
    requires forall w, e :: Enabled(Written, w, e) && holds(w) ==> (holds(Step(Written, w, e)) <==> !breaks(w, e))
    ensures Always(holds, es) <==> Never(breaks, es)
    decreases |es|
  {
    if es != [] {
      Throughout(holds, breaks, es[..|es| - 1]);
    }
  }

  /** As written, the index is exact after every prefix of a run if and only if no event of the run
      breaks it. */
  lemma {:induction false} IndexThroughout(es: seq<Event>)
    requires Possible(Written, es)
    ensures Always(Indexed, es) <==> Never(BreaksIndex, es)
  {
    forall w, e | Enabled(Written, w, e) && Indexed(w)
      ensures Indexed(Step(Written, w, e)) <==> !BreaksIndex(w, e)
    {
      WrittenIndexExactly(w, e);
    }
    Throughout(Indexed, BreaksIndex, es);
  }

  ghost predicate SquaresHeld(w: World) {
    w.sent.Keys == w.machines.Keys && AllHold(w)
  }

  /** So with the chunks that clients hold. */
  lemma {:induction false} SquaresThroughout(es: seq<Event>)
    requires Possible(Written, es)
    ensures Always(SquaresHeld, es) <==> Never(BreaksSquares, es)
  {
    forall w, e | Enabled(Written, w, e) && SquaresHeld(w)
      ensures SquaresHeld(Step(Written, w, e)) <==> !BreaksSquares(w, e)
    {
      WrittenSquaresExactly(w, e);
    }
    Throughout(SquaresHeld, BreaksSquares, es);
  }

  /** With the players that are registered. */
  lemma {:induction false} RegisteredThroughout(es: seq<Event>)
    requires Possible(Written, es)
    ensures Always(Registered, es) <==> Never(LeavesEarly, es)
  {
    forall w, e | Enabled(Written, w, e) && Registered(w)
      ensures Registered(Step(Written, w, e)) <==> !LeavesEarly(w, e)
    {
      WrittenRegisteredExactly(w, e);
    }
    Throughout(Registered, LeavesEarly, es);
  }

  /** With view distances and ids. */
  lemma {:induction false} DistancesThroughout(es: seq<Event>)
    requires Possible(Written, es)
    ensures Always(AllSafe, es) <==> Never(EntersBlind, es)
  {
    forall w, e | Enabled(Written, w, e) && AllSafe(w)
      ensures AllSafe(Step(Written, w, e)) <==> !EntersBlind(w, e)
    {
      WrittenDistancesExactly(w, e);
    }
    Throughout(AllSafe, EntersBlind, es);
  }

  /** Every step of a run enters safely. */
  ghost predicate AlwaysEntersSafely(es: seq<Event>)
    requires Possible(Written, es)
    decreases |es|
  {
    es != [] ==> AlwaysEntersSafely(es[..|es| - 1]) && EntersSafely(Run(Written, es[..|es| - 1]), es[|es| - 1])
  }

  /** And with phases: play is always entered by confirming an outstanding id if and only if no other
      id is ever confirmed. */
  lemma {:induction false} SafeThroughout(es: seq<Event>)
    requires Possible(Written, es)
    ensures AlwaysEntersSafely(es) <==> Never((w: World, e: Event) => BadConfirm(w, e, e.p), es)
    ensures AlwaysEntersSafely(es) ==> AllSafe(Run(Written, es))
    decreases |es|
  {
    if es != [] {
      var before, e := es[..|es| - 1], es[|es| - 1];
      SafeThroughout(before);
      if AlwaysEntersSafely(before) {
        WrittenSafeExactly(Run(Written, before), e);
      }
    }
  }
}
