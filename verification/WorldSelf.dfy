/** What a client knows of its own player. */
module WorldSelf {
  import opened Numbers
  import opened Coords
  import opened Variants
  import opened Tracker
  import opened Client
  import opened World
  import opened WorldIndex

  /** The chunk a client was last told is in the middle; one that was never told any has not left
      the chunk where players enter. */
  function Middle(v: View): ChunkCoord {
    if v.middle.Some? then v.middle.value else NEW_MACHINE.Home()
  }

  /** A client that is logged in has its player's name and entity id, and the chunk its player is
      in as the middle of those it holds. */
  ghost predicate KnowsItself(w: World, p: Pid)
    requires p in w.machines
  {
    var m, v := w.machines[p], Seen(Log(w, p));
    && (m.LoggedIn() ==> v.username == m.username && v.entityId == m.entityId)
    && Middle(v) == m.Home()
  }

  predicate SaysNothingOfSelf(k: Packet) {
    !k.LoginSuccess? && !k.JoinGame? && !k.UpdateViewPosition?
  }

  /** The parts of a view that are about the client's own player. */
  function Self(v: View): (string, int, Option<ChunkCoord>) {
    (v.username, v.entityId, v.middle)
  }

  lemma {:induction false} SelfUntouched(v: View, ks: seq<Packet>)
    requires forall i :: 0 <= i < |ks| ==> SaysNothingOfSelf(ks[i])
    ensures Self(WatchAll(v, ks)) == Self(v)
    decreases ks
  {
    if ks != [] {
      assert SaysNothingOfSelf(ks[0]);
      assert forall i :: 0 <= i < |ks[1..]| ==> ks[1..][i] == ks[i + 1];
      SelfUntouched(Watch(v, ks[0]), ks[1..]);
    }
  }

  lemma {:induction false} OthersNewsOfSelf(w: World, p: Pid, a: Act, o: Pid, v: View)
    requires Allowed(w, p, a)
    ensures Self(WatchAll(v, OthersNews(Intended, w, p, a, o))) == Self(v)
  {
    SelfUntouched(v, OthersNews(Intended, w, p, a, o));
  }

  lemma {:induction false} LogInTold(w: World, p: Pid, name: string, v: View)
    requires Allowed(w, p, LogIn(name))
    ensures Self(WatchAll(v, OwnNews(Intended, w, p, LogIn(name)))) == (name, w.nextEntityId, v.middle)
  {
    var success, join := LoginSuccess(name), JoinGame(w.nextEntityId);
    var rest := [PluginMessage, PlayerAbilities, HeldItemChange, AddPlayers(Names(w)), AddPlayers({name})];
    assert OwnNews(Intended, w, p, LogIn(name)) == [success] + ([join] + rest);
    WatchAppend(v, [success], [join] + rest);
    WatchOne(v, success);
    WatchAppend(Watch(v, success), [join], rest);
    WatchOne(Watch(v, success), join);
    SelfUntouched(Watch(Watch(v, success), join), rest);
  }

  lemma {:induction false} CrossingTold(m: Machine, to: ChunkCoord, v: View)
    requires Middle(v) == m.Home()
    ensures var v' := WatchAll(v, CrossingNews(m, to));
      v'.username == v.username && v'.entityId == v.entityId && Middle(v') == to
  {
    if m.Home() != to {
      var chunks := Unloads(Newly(to, m.Home(), m.viewDistance)) + Loads(Newly(m.Home(), to, m.viewDistance));
      WatchAppend(v, chunks, [UpdateViewPosition(to)]);
      SelfUntouched(v, chunks);
      WatchOne(WatchAll(v, chunks), UpdateViewPosition(to));
    }
  }

  lemma {:induction false} WalkSelfKept(w: World, p: Pid, to: EntityCoord, rotate: bool)
    requires Allowed(w, p, Walk(to, rotate)) && KnowsItself(w, p)
    ensures KnowsItself(Apply(Intended, w, p, Walk(to, rotate)), p)
  {
    NewsArrives(Intended, w, p, Walk(to, rotate), p);
    CrossingTold(w.machines[p], ChunkOf(to), Seen(Log(w, p)));
  }

  lemma {:induction false} LogInSelfKept(w: World, p: Pid, name: string)
    requires Allowed(w, p, LogIn(name)) && KnowsItself(w, p)
    ensures KnowsItself(Apply(Intended, w, p, LogIn(name)), p)
  {
    NewsArrives(Intended, w, p, LogIn(name), p);
    LogInTold(w, p, name, Seen(Log(w, p)));
  }

  lemma {:induction false} OwnNewsOfSelf(w: World, p: Pid, a: Act, v: View)
    requires Allowed(w, p, a) && !a.LogIn? && !a.Walk?
    ensures Self(WatchAll(v, OwnNews(Intended, w, p, a))) == Self(v)
  {
    SelfUntouched(v, OwnNews(Intended, w, p, a));
  }

  lemma {:induction false} QuietSelfKept(w: World, p: Pid, a: Act)
    requires Allowed(w, p, a) && !a.LogIn? && !a.Walk? && !a.Quit? && !a.Start? && KnowsItself(w, p)
    ensures KnowsItself(Apply(Intended, w, p, a), p)
  {
    NewsArrives(Intended, w, p, a, p);
    OwnNewsOfSelf(w, p, a, Seen(Log(w, p)));
  }

  lemma {:induction false} OwnSelfKept(w: World, p: Pid, a: Act)
    requires Allowed(w, p, a) && !a.Quit? && !a.Start? && KnowsItself(w, p)
    ensures KnowsItself(Apply(Intended, w, p, a), p)
  {
    if a.Walk? {
      WalkSelfKept(w, p, a.to, a.rotate);
    } else if a.LogIn? {
      LogInSelfKept(w, p, a.name);
    } else {
      QuietSelfKept(w, p, a);
    }
  }

  lemma {:induction false} OthersSelfKept(w: World, p: Pid, a: Act, o: Pid)
    requires Allowed(w, p, a) && o != p && o in w.machines && KnowsItself(w, o)
        && o in Apply(Intended, w, p, a).machines
    ensures KnowsItself(Apply(Intended, w, p, a), o)
  {
    OthersStay(Intended, w, p, a, o);
    NewsArrives(Intended, w, p, a, o);
    OthersNewsOfSelf(w, p, a, o, Seen(Log(w, o)));
  }

  lemma {:induction false} NewcomerSelf(w: World, p: Pid)
    requires p !in w.machines && p !in w.sent
    ensures KnowsItself(Apply(Intended, w, p, Start), p)
  {
    assert Log(Apply(Intended, w, p, Start), p) == [];
  }

  ghost predicate AllKnowThemselves(w: World) {
    forall p :: p in w.machines ==> KnowsItself(w, p)
  }

  lemma {:induction false} ActKeepsSelves(w: World, p: Pid, a: Act)
    requires Allowed(w, p, a) && AllKnowThemselves(w) && w.sent.Keys == w.machines.Keys
    ensures AllKnowThemselves(Apply(Intended, w, p, a))
  {
    var w' := Apply(Intended, w, p, a);
    forall o | o in w'.machines
      ensures KnowsItself(w', o)
    {
      if o != p {
        OthersSelfKept(w, p, a, o);
      } else if a.Start? {
        NewcomerSelf(w, p);
      } else {
        OwnSelfKept(w, p, a);
      }
    }
  }

  /** After every run each logged-in client has its own name, entity id and middle chunk right. */
  lemma {:induction false} ClientsKnowThemselves(es: seq<Event>)
    requires Possible(Intended, es)
    ensures AllKnowThemselves(Run(Intended, es))
    decreases |es|
  {
    if es != [] {
      var before, e := es[..|es| - 1], es[|es| - 1];
      var w := Run(Intended, before);
      ClientsKnowThemselves(before);
      MembersAreExact(Intended, before);
      ActsAllowed(w, e);
      ActKeepsSelves(w, e.p, ActOf(Intended, w, e));
    }
  }
}
