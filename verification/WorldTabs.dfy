/** The player list of every client is the list of players. */
module WorldTabs {
  import opened Variants
  import opened Tracker
  import opened Client
  import opened World
  import opened WorldIndex
  import opened WorldViews

  /** The players set holds exactly those that are logged in. */
  ghost predicate Registered(w: World) {
    forall p :: p in w.players <==> LoggedIn(w, p)
  }

  /** A client that is logged in lists the players; before, it lists nobody. */
  ghost predicate Lists(w: World, o: Pid) {
    Seen(Log(w, o)).tab == if LoggedIn(w, o) then Names(w) else {}
  }

  ghost predicate AllList(w: World) {
    forall o :: o in w.machines ==> Lists(w, o)
  }

  predicate SaysNothingOfPlayers(k: Packet) {
    !k.AddPlayers? && !k.RemovePlayer?
  }

  lemma {:induction false} TabUntouched(v: View, ks: seq<Packet>)
    requires forall i :: 0 <= i < |ks| ==> SaysNothingOfPlayers(ks[i])
    ensures WatchAll(v, ks).tab == v.tab
    decreases ks
  {
    if ks != [] {
      assert SaysNothingOfPlayers(ks[0]);
      assert forall i :: 0 <= i < |ks[1..]| ==> ks[1..][i] == ks[i + 1];
      TabUntouched(Watch(v, ks[0]), ks[1..]);
    }
  }

  lemma {:induction false} ActKeepsRegistered(w: World, p: Pid, a: Act)
    requires Allowed(w, p, a) && Registered(w)
    ensures Registered(Apply(Intended, w, p, a))
  {
    var w' := Apply(Intended, w, p, a);
    forall q
      ensures q in w'.players <==> LoggedIn(w', q)
    {
      if q != p {
        OthersStay(Intended, w, p, a, q);
      }
    }
  }

  /** Whoever is logged in is in the players set, which may also hold others. */
  ghost predicate Enlisted(w: World) {
    forall p :: LoggedIn(w, p) ==> p in w.players
  }

  lemma {:induction false} ActKeepsEnlisted(variant: Variant, w: World, p: Pid, a: Act)
    requires InPhase(w, p, a) && Enlisted(w)
    ensures Enlisted(Apply(variant, w, p, a))
  {
    var w' := Apply(variant, w, p, a);
    forall q | LoggedIn(w', q)
      ensures q in w'.players
    {
      if q != p {
        OthersStay(variant, w, p, a, q);
      }
    }
  }

  /** That is so after every run, in either reading. */
  lemma {:induction false} RunKeepsEnlisted(variant: Variant, es: seq<Event>)
    requires Possible(variant, es)
    ensures Enlisted(Run(variant, es))
    decreases |es|
  {
    if es != [] {
      var before, e := es[..|es| - 1], es[|es| - 1];
      RunKeepsEnlisted(variant, before);
      var w := Run(variant, before);
      ActsInPhase(variant, w, e);
      ActKeepsEnlisted(variant, w, e.p, ActOf(variant, w, e));
    }
  }

  // ---- Names after an act ----

  /** The names of the players in the set, but for one of them; and the name of that one. */
  function OthersNames(w: World, p: Pid): set<string> {
    NamesOf(w.players - {p}, w.machines)
  }

  function OwnName(w: World, p: Pid): set<string> {
    if p in w.players && p in w.machines then {w.machines[p].username} else {}
  }

  /** No other player has the name. */
  predicate Unshared(w: World, p: Pid, name: string) {
    name !in OthersNames(w, p)
  }

  lemma {:induction false} NamesSplit(w: World, p: Pid)
    ensures Names(w) == OthersNames(w, p) + OwnName(w, p)
  {
    forall n
      ensures n in Names(w) <==> n in OthersNames(w, p) + OwnName(w, p)
    {
      if n in Names(w) {
        var q :| q in w.players && q in w.machines && w.machines[q].username == n;
        assert q != p ==> q in w.players - {p};
      }
    }
  }

  lemma {:induction false} OthersNamesStay(variant: Variant, w: World, p: Pid, a: Act)
    requires InPhase(w, p, a)
    ensures OthersNames(Apply(variant, w, p, a), p) == OthersNames(w, p)
  {
    var w' := Apply(variant, w, p, a);
    assert w'.players - {p} == w.players - {p};
    forall q | q in w.players - {p}
      ensures q in w'.machines <==> q in w.machines
      ensures q in w.machines ==> w'.machines[q] == w.machines[q]
    {
      OthersStay(variant, w, p, a, q);
    }
  }

  /** What an act makes of the acting player's own entry. */
  function OwnNameAfter(w: World, p: Pid, a: Act): set<string> {
    match a
    case Start => if p in w.players then {NEW_MACHINE.username} else {}
    case LogIn(name) => {name}
    case Quit => {}
    case _ => OwnName(w, p)
  }

  lemma {:induction false} NamesAfter(variant: Variant, w: World, p: Pid, a: Act)
    requires InPhase(w, p, a)
    ensures Names(Apply(variant, w, p, a)) == OthersNames(w, p) + OwnNameAfter(w, p, a)
  {
    var w' := Apply(variant, w, p, a);
    NamesSplit(w', p);
    OthersNamesStay(variant, w, p, a);
    OwnNameIsAfter(variant, w, p, a);
  }

  lemma {:induction false} OwnNameIsAfter(variant: Variant, w: World, p: Pid, a: Act)
    requires InPhase(w, p, a)
    ensures OwnName(Apply(variant, w, p, a), p) == OwnNameAfter(w, p, a)
  {
  }

  // ---- Lists after an act ----

  lemma {:induction false} QuitTab(variant: Variant, w: World, p: Pid, o: Pid, v: View)
    requires p in w.machines && o != p
    ensures WatchAll(v, QuitNews(variant, w, p, o)).tab
         == if Unregisters(variant, w.machines[p]) && o in w.players then v.tab - {w.machines[p].username} else v.tab
  {
    var m := w.machines[p];
    var gone := if m.phase.PLAY? && (m.Home(), o) in w.subs then [DestroyEntity(m.entityId)] else [];
    var listed := if o in w.players && Unregisters(variant, m) then [RemovePlayer(m.username)] else [];
    assert QuitNews(variant, w, p, o) == gone + listed;
    WatchAppend(v, gone, listed);
    TabUntouched(v, gone);
    WatchOne(WatchAll(v, gone), RemovePlayer(m.username));
  }

  lemma {:induction false} LogInTab(variant: Variant, w: World, p: Pid, name: string, v: View)
    requires InPhase(w, p, LogIn(name))
    ensures WatchAll(v, OwnNews(variant, w, p, LogIn(name))).tab == v.tab + Names(w) + {name}
  {
    var greeting := [LoginSuccess(name), JoinGame(w.nextEntityId), PluginMessage, PlayerAbilities, HeldItemChange];
    var others, self := AddPlayers(Names(w)), AddPlayers({name});
    assert OwnNews(variant, w, p, LogIn(name)) == greeting + ([others] + [self]);
    WatchAppend(v, greeting, [others] + [self]);
    TabUntouched(v, greeting);
    WatchAppend(WatchAll(v, greeting), [others], [self]);
    WatchOne(WatchAll(v, greeting), others);
    WatchOne(WatchAll(WatchAll(v, greeting), [others]), self);
  }

  lemma {:induction false} OwnTab(variant: Variant, w: World, p: Pid, a: Act, v: View)
    requires InPhase(w, p, a) && !a.LogIn?
    ensures WatchAll(v, OwnNews(variant, w, p, a)).tab == v.tab
  {
    TabUntouched(v, OwnNews(variant, w, p, a));
  }

  lemma {:induction false} OthersTab(variant: Variant, w: World, p: Pid, a: Act, o: Pid, v: View)
    requires InPhase(w, p, a) && o != p && !a.Quit?
    ensures WatchAll(v, OthersNews(variant, w, p, a, o)).tab
         == if a.LogIn? && o in w.players then v.tab + {a.name} else v.tab
  {
    if a.LogIn? {
      WatchOne(v, AddPlayers({a.name}));
    } else {
      TabUntouched(v, OthersNews(variant, w, p, a, o));
    }
  }

  /** What another client in the players set makes of its list. */
  function TabAfter(variant: Variant, w: World, p: Pid, a: Act, tab: set<string>): set<string>
    requires p in w.machines <==> !a.Start?
  {
    match a
    case LogIn(name) => tab + {name}
    case Quit => if Unregisters(variant, w.machines[p]) then tab - {w.machines[p].username} else tab
    case _ => tab
  }

  lemma {:induction false} TabIsAfter(variant: Variant, w: World, p: Pid, a: Act, o: Pid)
    requires InPhase(w, p, a) && o != p && o in w.machines
    ensures Seen(Log(Apply(variant, w, p, a), o)).tab
         == if o in w.players then TabAfter(variant, w, p, a, Seen(Log(w, o)).tab) else Seen(Log(w, o)).tab
  {
    OthersStay(variant, w, p, a, o);
    NewsArrives(variant, w, p, a, o);
    if a.Quit? {
      QuitTab(variant, w, p, o, Seen(Log(w, o)));
    } else {
      OthersTab(variant, w, p, a, o, Seen(Log(w, o)));
    }
  }

  /** The event does to the players set what clients are not told, or tells them what it does not do:
      a name leaves the list that another still has, or, as written, stays that nobody has; and as
      written an entry left behind names a machine again when a connection opens under its identity,
      without a name, or then logs in with one. */
  predicate Misleads(variant: Variant, w: World, e: Event)
    requires Enabled(variant, w, e)
  {
    match ActOf(variant, w, e)
    case Start => e.p in w.players && Unshared(w, e.p, NEW_MACHINE.username)
    case LogIn(name) => !(OwnName(w, e.p) <= OthersNames(w, e.p) + {name})
    case Quit =>
      if Unregisters(variant, w.machines[e.p]) then !Unshared(w, e.p, w.machines[e.p].username)
      else !(OwnName(w, e.p) <= OthersNames(w, e.p))
    case _ => false
  }

  lemma {:induction false} OwnListKept(variant: Variant, w: World, p: Pid, a: Act)
    requires InPhase(w, p, a) && !a.LogIn? && !a.Quit? && !a.Start? && Lists(w, p)
    ensures Lists(Apply(variant, w, p, a), p)
  {
    NewsArrives(variant, w, p, a, p);
    OwnTab(variant, w, p, a, Seen(Log(w, p)));
    NamesAfter(variant, w, p, a);
    NamesSplit(w, p);
    OwnLogIn(variant, w, p, a);
  }

  lemma {:induction false} OwnLogIn(variant: Variant, w: World, p: Pid, a: Act)
    requires InPhase(w, p, a) && !a.Quit? && !a.Start?
    ensures LoggedIn(Apply(variant, w, p, a), p) <==> LoggedIn(w, p) || a.LogIn?
    ensures a.LogIn? ==> !LoggedIn(w, p)
  {
  }

  /** A client that logs in lists exactly the players if and only if what it was told before, and
      the name its entry had, are names of others or its own. */
  lemma {:induction false} LogInListedExactly(variant: Variant, w: World, p: Pid, name: string)
    requires InPhase(w, p, LogIn(name))
    ensures Lists(Apply(variant, w, p, LogIn(name)), p)
       <==> Seen(Log(w, p)).tab + OwnName(w, p) <= OthersNames(w, p) + {name}
  {
    NewsArrives(variant, w, p, LogIn(name), p);
    LogInTab(variant, w, p, name, Seen(Log(w, p)));
    NamesAfter(variant, w, p, LogIn(name));
    NamesSplit(w, p);
    OwnLogIn(variant, w, p, LogIn(name));
    var told, rest := Seen(Log(w, p)).tab + OwnName(w, p), OthersNames(w, p) + {name};
    assert Seen(Log(w, p)).tab + Names(w) + {name} == told + rest;
    assert told + rest == rest <==> told <= rest;
  }

  /** In either reading, from any state that a run reaches, an event leaves the list of a logged-in
      client right if and only if it does not mislead. */
  lemma {:induction false} ListsExactly(variant: Variant, w: World, e: Event, o: Pid)
    requires Enabled(variant, w, e) && Enlisted(w) && LoggedIn(w, o) && Lists(w, o) && e != Disconnected(o)
    ensures Lists(Step(variant, w, e), o) <==> !Misleads(variant, w, e)
  {
    var a := ActOf(variant, w, e);
    ActsInPhase(variant, w, e);
    if e.p == o {
      OwnListKept(variant, w, o, a);
    } else {
      OthersStay(variant, w, e.p, a, o);
      TabIsAfter(variant, w, e.p, a, o);
      NamesAfter(variant, w, e.p, a);
      NamesSplit(w, e.p);
      AfterAgreesExactly(variant, w, e);
    }
  }

  lemma {:induction false} AfterAgreesExactly(variant: Variant, w: World, e: Event)
    requires Enabled(variant, w, e) && Enlisted(w)
    ensures var a := ActOf(variant, w, e);
      TabAfter(variant, w, e.p, a, OthersNames(w, e.p) + OwnName(w, e.p)) == OthersNames(w, e.p)
          + OwnNameAfter(w, e.p, a)
      <==> !Misleads(variant, w, e)
  {
    var a, others, own := ActOf(variant, w, e), OthersNames(w, e.p), OwnName(w, e.p);
    if a.Start? {
      StartAgrees(others);
    } else if a.LogIn? {
      assert others + own + {a.name} == (others + {a.name}) + own;
      Absorbs(others + {a.name}, own);
    } else if a.Quit? && Unregisters(variant, w.machines[e.p]) {
      assert LoggedIn(w, e.p);
      TakesOff(others, w.machines[e.p].username);
    } else if a.Quit? {
      assert others + {} == others;
      Absorbs(others, own);
    }
  }

  lemma {:induction false} StartAgrees(others: set<string>)
    ensures others + {} == others + {NEW_MACHINE.username} <==> NEW_MACHINE.username in others
  {
    assert NEW_MACHINE.username in others + {NEW_MACHINE.username};
    assert others + {} == others;
  }

  lemma {:induction false} Absorbs(s: set<string>, t: set<string>)
    ensures s + t == s <==> t <= s
  {
    if s + t == s {
      assert t <= s + t;
    }
  }

  lemma {:induction false} TakesOff(others: set<string>, name: string)
    ensures others + {name} - {name} == others + {} <==> name !in others
  {
    assert name !in others + {name} - {name};
    assert others + {} == others;
  }

  /** After a player leaves, a remaining client still lists exactly the players if and only if
      either the departure is announced and no one else had that player's name, or it is not
      announced and someone had. */
  lemma {:induction false} DepartureListedExactly(variant: Variant, w: World, p: Pid, o: Pid)
    requires Enlisted(w) && LoggedIn(w, p) && LoggedIn(w, o) && o != p && Lists(w, o)
    ensures Lists(Apply(variant, w, p, Quit), o)
       <==> (Unregisters(variant, w.machines[p]) <==> Unshared(w, p, w.machines[p].username))
  {
    ListsExactly(variant, w, Disconnected(p), o);
  }

  // ---- While a client is logged in ----

  /** The client's list is right after k events and after each one since. */
  ghost predicate ListedSince(variant: Variant, es: seq<Event>, o: Pid, k: nat)
    requires Possible(variant, es) && k <= |es|
    decreases |es|
  {
    Lists(Run(variant, es), o) && (k < |es| ==> ListedSince(variant, es[..|es| - 1], o, k))
  }

  ghost predicate NoneMisleads(variant: Variant, es: seq<Event>, k: nat)
    requires Possible(variant, es) && k <= |es|
    decreases |es|
  {
    k < |es| ==>
      && NoneMisleads(variant, es[..|es| - 1], k)
      && !Misleads(variant, Run(variant, es[..|es| - 1]), es[|es| - 1])
  }

  ghost predicate LoggedInAfter(variant: Variant, es: seq<Event>, o: Pid, k: nat)
    requires k <= |es|
  {
    Possible(variant, es[..k]) && LoggedIn(Run(variant, es[..k]), o) && Lists(Run(variant, es[..k]), o)
  }

  lemma {:induction false} StaysLoggedIn(variant: Variant, w: World, e: Event, o: Pid)
    requires Enabled(variant, w, e) && LoggedIn(w, o) && e != Disconnected(o)
    ensures LoggedIn(Step(variant, w, e), o)
  {
    ActsInPhase(variant, w, e);
    if e.p == o {
      OwnLogIn(variant, w, o, ActOf(variant, w, e));
    } else {
      OthersStay(variant, w, e.p, ActOf(variant, w, e), o);
    }
  }

  /** In either reading, over the rest of any run, a logged-in client that stays keeps a right list
      throughout if and only if no event misleads. */
  lemma {:induction false} ListsThroughout(variant: Variant, es: seq<Event>, o: Pid, k: nat)
    requires Possible(variant, es) && k <= |es| && LoggedInAfter(variant, es, o, k)
    requires forall j :: k <= j < |es| ==> es[j] != Disconnected(o)
    ensures LoggedIn(Run(variant, es), o)
    ensures ListedSince(variant, es, o, k) <==> NoneMisleads(variant, es, k)
    decreases |es|
  {
    if k == |es| {
      assert es[..k] == es;
    } else {
      var before, e := es[..|es| - 1], es[|es| - 1];
      assert before[..k] == es[..k];
      ListsThroughout(variant, before, o, k);
      var w := Run(variant, before);
      StaysLoggedIn(variant, w, e, o);
      RunKeepsEnlisted(variant, before);
      if ListedSince(variant, before, o, k) {
        ListsExactly(variant, w, e, o);
      }
    }
  }

  // ---- Runs ----

  /** A login takes a name no logged-in player has. */
  ghost predicate TakesFreeName(w: World, e: Event)
    requires Enabled(Intended, w, e)
  {
    var a := ActOf(Intended, w, e);
    a.LogIn? ==> Unshared(w, e.p, a.name)
  }

  ghost predicate DistinctNames(es: seq<Event>)
    requires Possible(Intended, es)
    decreases |es|
  {
    es == [] || (DistinctNames(es[..|es| - 1]) && TakesFreeName(Run(Intended, es[..|es| - 1]), es[|es| - 1]))
  }

  /** Players share no names. */
  ghost predicate NoneShared(w: World) {
    forall p :: LoggedIn(w, p) ==> Unshared(w, p, w.machines[p].username)
  }

  lemma {:induction false} ActKeepsNoneShared(w: World, p: Pid, a: Act)
    requires Allowed(w, p, a) && Registered(w) && NoneShared(w)
    requires a.LogIn? ==> Unshared(w, p, a.name)
    ensures NoneShared(Apply(Intended, w, p, a))
  {
    var w' := Apply(Intended, w, p, a);
    ActKeepsRegistered(w, p, a);
    forall q, r | LoggedIn(w', q) && r in w'.players - {q} && r in w'.machines
      ensures w'.machines[r].username != w'.machines[q].username
    {
      assert LoggedIn(w', r);
      OneOfTwo(w, p, a, q);
      OneOfTwo(w, p, a, r);
    }
  }

  lemma {:induction false} OneOfTwo(w: World, p: Pid, a: Act, q: Pid)
    requires Allowed(w, p, a) && Registered(w) && LoggedIn(Apply(Intended, w, p, a), q)
    ensures var m := Apply(Intended, w, p, a).machines[q];
      if q == p && a.LogIn? then m.username == a.name
      else q in w.players && LoggedIn(w, q) && m.username == w.machines[q].username
  {
    if q != p {
      OthersStay(Intended, w, p, a, q);
    }
  }

  /** As meant, only the departure of a player whose name is shared misleads. */
  lemma {:induction false} IntendedMisleadsExactly(w: World, e: Event)
    requires Enabled(Intended, w, e) && Registered(w)
    ensures Misleads(Intended, w, e)
       <==> e.Disconnected? && LoggedIn(w, e.p) && !Unshared(w, e.p, w.machines[e.p].username)
  {
    assert e.p in w.players <==> LoggedIn(w, e.p);
    ActsInPhase(Intended, w, e);
  }

  /** Whoever leaves had a name that no other player has. */
  ghost predicate UnsharedDepartures(es: seq<Event>)
    requires Possible(Intended, es)
    decreases |es|
  {
    es == [] || (UnsharedDepartures(es[..|es| - 1]) && LeavesUnshared(Run(Intended, es[..|es| - 1]), es[|es| - 1]))
  }

  predicate LeavesUnshared(w: World, e: Event) {
    e.Disconnected? && LoggedIn(w, e.p) ==> Unshared(w, e.p, w.machines[e.p].username)
  }

  lemma {:induction false} ListKept(w: World, e: Event, o: Pid)
    requires Enabled(Intended, w, e) && Registered(w) && LeavesUnshared(w, e) && e != Disconnected(o)
    requires o in w.machines && Lists(w, o)
    ensures Lists(Step(Intended, w, e), o)
  {
    var a := ActOf(Intended, w, e);
    ActsInPhase(Intended, w, e);
    IntendedMisleadsExactly(w, e);
    if LoggedIn(w, o) {
      ListsExactly(Intended, w, e, o);
    } else if e.p == o && a.LogIn? {
      LogInListedExactly(Intended, w, o, a.name);
    } else if e.p == o {
      OwnListKept(Intended, w, o, a);
    } else {
      OthersStay(Intended, w, e.p, a, o);
      TabIsAfter(Intended, w, e.p, a, o);
    }
  }

  lemma {:induction false} NewcomerLists(w: World, p: Pid)
    requires p !in w.machines && p !in w.sent
    ensures Lists(Apply(Intended, w, p, Start), p)
  {
    assert Log(Apply(Intended, w, p, Start), p) == [];
  }

  /** Then after every run the lists of all logged-in clients are the set of the players' names. */
  lemma {:induction false} ListsAgree(es: seq<Event>)
    requires Possible(Intended, es) && UnsharedDepartures(es)
    ensures Registered(Run(Intended, es)) && AllList(Run(Intended, es))
    decreases |es|
  {
    if es != [] {
      var before, e := es[..|es| - 1], es[|es| - 1];
      var w := Run(Intended, before);
      ListsAgree(before);
      MembersAreExact(Intended, before);
      StepKeepsLists(w, e);
    }
  }

  lemma {:induction false} StepKeepsLists(w: World, e: Event)
    requires Enabled(Intended, w, e) && Registered(w) && AllList(w) && w.sent.Keys == w.machines.Keys
    requires LeavesUnshared(w, e)
    ensures Registered(Step(Intended, w, e)) && AllList(Step(Intended, w, e))
  {
    ActsAllowed(w, e);
    ActKeepsRegistered(w, e.p, ActOf(Intended, w, e));
    forall o | o in Step(Intended, w, e).machines
      ensures Lists(Step(Intended, w, e), o)
    {
      if o in w.machines {
        ListKept(w, e, o);
      } else {
        NewcomerLists(w, o);
      }
    }
  }

  lemma {:induction false} RunKeepsRegistered(es: seq<Event>)
    requires Possible(Intended, es)
    ensures Registered(Run(Intended, es))
    decreases |es|
  {
    if es != [] {
      var before, e := es[..|es| - 1], es[|es| - 1];
      RunKeepsRegistered(before);
      ActsAllowed(Run(Intended, before), e);
      ActKeepsRegistered(Run(Intended, before), e.p, ActOf(Intended, Run(Intended, before), e));
    }
  }

  /** In particular when nobody logs in with a name that a logged-in player has. */
  lemma {:induction false} DistinctNamesAgree(es: seq<Event>)
    requires Possible(Intended, es) && DistinctNames(es)
    ensures NoneShared(Run(Intended, es)) && UnsharedDepartures(es)
    decreases |es|
  {
    if es != [] {
      var before, e := es[..|es| - 1], es[|es| - 1];
      var w := Run(Intended, before);
      DistinctNamesAgree(before);
      RunKeepsRegistered(before);
      ActsAllowed(w, e);
      ActKeepsNoneShared(w, e.p, ActOf(Intended, w, e));
    }
  }
}
