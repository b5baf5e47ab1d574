/** Concrete runs of the program as written, event by event, that show what fails. For most,
    lines plainly do not do what they are for; for the last of the departures and for the one of
    sight, a shared name and an approach, no line is to blame. */
module WorldRuns {
  import opened Coords
  import opened Variants
  import opened Tracker
  import opened World
  import opened WorldIndex
  import opened WorldPhases
  import opened WorldViews
  import opened WorldTabs
  import opened WorldWritten

  // ---- Runs told by the machines alone ----

  /** What the next step depends on, for the events used here. */
  datatype Sketch = Sketch(machines: map<Pid, Machine>, nextId: int)

  function SketchOf(w: World): Sketch {
    Sketch(w.machines, w.nextEntityId)
  }

  /** The player sees nobody from where it enters. */
  predicate Alone(machines: map<Pid, Machine>, p: Pid)
    requires p in machines
  {
    forall q :: q != p && q in machines && machines[q].phase.PLAY? ==>
        !machines[p].Square().Contains(machines[q].Home())
  }

  /** Connections, logins, first settings, confirmations with nobody in sight, and walks: steps
      that are the same in both readings. */
  predicate Plain(s: Sketch, e: Event) {
    match e
    case Connected(p) => p !in s.machines
    case Disconnected(_) => false
    case Received(p, packet, order) =>
      && p in s.machines && order == []
      && match packet
         case Handshake(version, next) => s.machines[p].phase.INITIAL? && version == PROTOCOL_VERSION && next == 2
         case LoginStart(_) => s.machines[p].phase.LOGIN?
         case ClientSettings(vd) =>
           s.machines[p].phase.PLAY_INIT? && s.machines[p].viewDistance == 0 && 2 <= vd <= MAX_VIEW_DISTANCE
         case TeleportConfirm(id) =>
           s.machines[p].phase.PLAY_INIT? && id in s.machines[p].outstandingTeleportIds && Alone(s.machines, p)
         case PlayerPosition(_, _) => s.machines[p].phase.PLAY?
         case _ => false
  }

  function After(s: Sketch, e: Event): Sketch
    requires Plain(s, e)
  {
    if e.Connected? then s.(machines := s.machines[e.p := NEW_MACHINE])
    else
      var m := s.machines[e.p];
      match e.packet
      case Handshake(_, _) => s.(machines := s.machines[e.p := m.(phase := LOGIN)])
      case LoginStart(name) =>
        Sketch(s.machines[e.p := m.(phase := PLAY_INIT, username := name, entityId := s.nextId)], s.nextId + 1)
      case ClientSettings(vd) => s.(machines := s.machines[e.p := Settled(m, vd)])
      case TeleportConfirm(id) => s.(machines := s.machines[e.p := Entered(m, id)])
      case PlayerPosition(to, _) => s.(machines := s.machines[e.p := m.(position := to)])
      case _ => s
  }

  lemma {:induction false} NobodyVisible(w: World, p: Pid)
    requires MembersExact(w) && p in w.machines && Alone(w.machines, p)
    ensures Enumerates([], Visible(w, p))
  {
    assert forall q :: q !in Visible(w, p);
  }

  lemma {:induction false} PlainStep(w: World, e: Event)
    requires MembersExact(w) && Plain(SketchOf(w), e)
    ensures Enabled(Intended, w, e) && Harmless(w, e)
    ensures SketchOf(Step(Intended, w, e)) == After(SketchOf(w), e)
  {
    if e.Received? && e.packet.TeleportConfirm? {
      NobodyVisible(w, e.p);
    }
  }

  /** The states after each of a run's events, told by their sketches. */
  predicate Tells(es: seq<Event>, ss: seq<Sketch>) {
    && |ss| == |es| + 1 && ss[0] == Sketch(map[], 1)
    && forall n :: 0 <= n < |es| ==> Plain(ss[n], es[n]) && ss[n + 1] == After(ss[n], es[n])
  }

  ghost predicate Harmlessly(es: seq<Event>) {
    Possible(Intended, es) && AllHarmless(es)
  }

  lemma {:induction false} ToldRun(es: seq<Event>, ss: seq<Sketch>)
    requires Tells(es, ss)
    ensures Harmlessly(es) && SketchOf(Run(Intended, es)) == ss[|es|]
    decreases |es|
  {
    if es != [] {
      var before, e := es[..|es| - 1], es[|es| - 1];
      ToldRun(before, ss[..|es|]);
      MembersAreExact(Intended, before);
      PlainStep(Run(Intended, before), e);
    }
  }

  /** After such a run any step as written may follow, from a state that keeps the invariants. */
  lemma {:induction false} ThenWritten(es: seq<Event>, ss: seq<Sketch>, e: Event) returns (w: World)
    requires Tells(es, ss)
    ensures Possible(Intended, es) && w == Run(Intended, es) && SketchOf(w) == ss[|es|]
    ensures Enabled(Written, w, e) ==> Possible(Written, es + [e]) && Run(Written, es + [e]) == Step(Written, w, e)
    ensures Indexed(w) && AllSafe(w) && AllHold(w) && Registered(w) && DistinctIds(w)
  {
    ToldRun(es, ss);
    WrittenRunAgrees(es);
    IndexIsExact(es);
    RunKeepsSquares(es);
    RunKeepsRegistered(es);
    RunKeepsIds(Intended, es);
    w := Run(Intended, es);
    assert (es + [e])[..|es|] == es;
  }

  // ---- How a client logs in and enters ----

  const HELLO := Handshake(PROTOCOL_VERSION, 2)

  function Arrives(p: Pid, name: string): seq<Event> {
    [Connected(p), Received(p, HELLO, []), Received(p, LoginStart(name), [])]
  }

  function Waiting(name: string, id: int): Machine {
    NEW_MACHINE.(phase := PLAY_INIT, username := name, entityId := id)
  }

  function Playing(name: string, id: int): Machine {
    Entered(Settled(Waiting(name, id), 2), 0)
  }

  lemma {:induction false} WaitingAt(vd: nat, name: string, id: int)
    ensures var m := Settled(Waiting(name, id), vd);
      m.Home() == ChunkCoord(0, 0) && m.outstandingTeleportIds == {0} && m.viewDistance == vd
  {
  }

  lemma {:induction false} PlayingAt(name: string, id: int)
    ensures var m := Playing(name, id);
      m.phase.PLAY? && m.username == name && m.viewDistance == 2 && m.Home() == ChunkCoord(0, 0)
  {
    WaitingAt(2, name, id);
  }

  lemma {:induction false} Longer(es: seq<Event>, ss: seq<Sketch>, e: Event)
    requires Tells(es, ss) && Plain(ss[|es|], e)
    ensures Tells(es + [e], ss + [After(ss[|es|], e)])
  {
  }

  lemma {:induction false} Arriving(es: seq<Event>, ss: seq<Sketch>, p: Pid, name: string) returns (ss': seq<Sketch>)
    requires Tells(es, ss) && p !in ss[|es|].machines
    ensures Tells(es + Arrives(p, name), ss')
    ensures ss'[|es| + 3] == Sketch(ss[|es|].machines[p := Waiting(name, ss[|es|].nextId)], ss[|es|].nextId + 1)
  {
    var a, b, c := Connected(p), Received(p, HELLO, []), Received(p, LoginStart(name), []);
    Longer(es, ss, a);
    var ss1 := ss + [After(ss[|es|], a)];
    Longer(es + [a], ss1, b);
    var ss2 := ss1 + [After(ss1[|es| + 1], b)];
    Longer(es + [a] + [b], ss2, c);
    ss' := ss2 + [After(ss2[|es| + 2], c)];
    assert es + [a] + [b] + [c] == es + Arrives(p, name);
  }

  /** A login, settings, and the confirmation of the teleport that follows them. */
  function Joins(p: Pid, name: string): seq<Event> {
    Arrives(p, name) + [Received(p, ClientSettings(2), [])] + [Received(p, TeleportConfirm(0), [])]
  }

  /** Everyone else is out of sight of the chunk where players enter. */
  predicate ClearOf(machines: map<Pid, Machine>, p: Pid) {
    forall q :: q != p && q in machines ==> !Around(ChunkCoord(0, 0), 2).Contains(machines[q].Home())
  }

  lemma {:induction false} Settling(es: seq<Event>, ss: seq<Sketch>, p: Pid, vd: nat, name: string, id: int)
    returns (ss': seq<Sketch>)
    requires Tells(es, ss) && 2 <= vd <= MAX_VIEW_DISTANCE
    requires p in ss[|es|].machines && ss[|es|].machines[p] == Waiting(name, id)
    ensures Tells(es + [Received(p, ClientSettings(vd), [])], ss')
    ensures ss'[|es| + 1] == ss[|es|].(machines := ss[|es|].machines[p := Settled(Waiting(name, id), vd)])
  {
    Longer(es, ss, Received(p, ClientSettings(vd), []));
    ss' := ss + [After(ss[|es|], Received(p, ClientSettings(vd), []))];
  }

  lemma {:induction false} Confirming(es: seq<Event>, ss: seq<Sketch>, p: Pid, name: string, id: int)
    returns (ss': seq<Sketch>)
    requires Tells(es, ss) && ClearOf(ss[|es|].machines, p)
    requires p in ss[|es|].machines && ss[|es|].machines[p] == Settled(Waiting(name, id), 2)
    ensures Tells(es + [Received(p, TeleportConfirm(0), [])], ss')
    ensures ss'[|es| + 1] == ss[|es|].(machines := ss[|es|].machines[p := Playing(name, id)])
  {
    WaitingAt(2, name, id);
    Longer(es, ss, Received(p, TeleportConfirm(0), []));
    ss' := ss + [After(ss[|es|], Received(p, TeleportConfirm(0), []))];
  }

  lemma {:induction false} Joining(es: seq<Event>, ss: seq<Sketch>, p: Pid, name: string) returns (ss': seq<Sketch>)
    requires Tells(es, ss) && p !in ss[|es|].machines && ClearOf(ss[|es|].machines, p)
    ensures Tells(es + Joins(p, name), ss')
    ensures ss'[|es| + 5] == Sketch(ss[|es|].machines[p := Playing(name, ss[|es|].nextId)], ss[|es|].nextId + 1)
  {
    var arrived, settled := es + Arrives(p, name), es + Arrives(p, name) + [Received(p, ClientSettings(2), [])];
    var ss1 := Arriving(es, ss, p, name);
    var ss2 := Settling(arrived, ss1, p, 2, name, ss[|es|].nextId);
    ss' := Confirming(settled, ss2, p, name, ss[|es|].nextId);
    assert settled + [Received(p, TeleportConfirm(0), [])] == es + Joins(p, name);
  }

  const NOTHING: seq<Sketch> := [Sketch(map[], 1)]

  lemma {:induction false} FirstArrives() returns (ss: seq<Sketch>)
    ensures Tells(Arrives(0, "a"), ss) && ss[3] == Sketch(map[0 := Waiting("a", 1)], 2)
  {
    ss := Arriving([], NOTHING, 0, "a");
    assert [] + Arrives(0, "a") == Arrives(0, "a");
  }

  lemma {:induction false} FirstSettles(vd: nat) returns (ss: seq<Sketch>)
    requires 2 <= vd <= MAX_VIEW_DISTANCE
    ensures Tells(Arrives(0, "a") + [Received(0, ClientSettings(vd), [])], ss)
    ensures ss[4] == Sketch(map[0 := Settled(Waiting("a", 1), vd)], 2)
  {
    var ss1 := FirstArrives();
    ss := Settling(Arrives(0, "a"), ss1, 0, vd, "a", 1);
  }

  lemma {:induction false} FirstJoins() returns (ss: seq<Sketch>)
    ensures Tells(Joins(0, "a"), ss) && ss[5] == Sketch(map[0 := Playing("a", 1)], 2)
  {
    ss := Joining([], NOTHING, 0, "a");
    assert [] + Joins(0, "a") == Joins(0, "a");
  }

  // ---- Confirmations ----

  /** As written, a client that confirms a teleport it was never sent plays with no view distance. */
  lemma {:induction false} BadConfirmRun()
    ensures var es := Arrives(0, "a") + [Received(0, TeleportConfirm(7), [])];
      Possible(Written, es) && !AllSafe(Run(Written, es))
  {
    var ss := FirstArrives();
    var e := Received(0, TeleportConfirm(7), []);
    var w := ThenWritten(Arrives(0, "a"), ss, e);
    NobodyVisible(w, 0);
    WrittenDistancesExactly(w, e);
  }

  lemma {:induction false} Unconfirmed(w: World)
    requires Indexed(w) && AllSafe(w) && w.machines == map[0 := Settled(Waiting("a", 1), 2)]
    ensures var e := Received(0, TeleportConfirm(7), []);
      && Enabled(Written, w, e) && !Confirms(w, e, 0) && InPlay(Step(Written, w, e), 0) && AllSafe(Step(Written, w, e))
      && Step(Written, w, e).machines[0].outstandingTeleportIds == {0}
  {
    var e := Received(0, TeleportConfirm(7), []);
    WaitingAt(2, "a", 1);
    NobodyVisible(w, 0);
    WrittenDistancesExactly(w, e);
    assert Step(Written, w, e).machines[0] == Entered(w.machines[0], 7);
    assert Entered(w.machines[0], 7).outstandingTeleportIds == {0};
  }

  /** As written, one that has sent settings plays although the teleport it was sent is still to be
      confirmed, and no view distance or id looks wrong. */
  lemma {:induction false} UnconfirmedRun()
    ensures var before := Arrives(0, "a") + [Received(0, ClientSettings(2), [])];
      var e := Received(0, TeleportConfirm(7), []);
      && Possible(Written, before) && Possible(Written, before + [e]) && !Confirms(Run(Written, before), e, 0)
      && InPlay(Run(Written, before + [e]), 0) && AllSafe(Run(Written, before + [e]))
      && Run(Written, before + [e]).machines[0].outstandingTeleportIds == {0}
  {
    var ss := FirstSettles(2);
    var before, e := Arrives(0, "a") + [Received(0, ClientSettings(2), [])], Received(0, TeleportConfirm(7), []);
    var w := ThenWritten(before, ss, e);
    ToldRun(before, ss);
    WrittenRunAgrees(before);
    Unconfirmed(w);
  }

  // ---- Resized squares ----

  lemma {:induction false} GrownInPlay(w: World)
    requires Indexed(w) && AllSafe(w) && AllHold(w) && w.machines == map[0 := Playing("a", 1)]
    ensures var e := Received(0, ClientSettings(3), []);
      Enabled(Written, w, e) && !Indexed(Step(Written, w, e)) && !AllHold(Step(Written, w, e))
  {
    var e := Received(0, ClientSettings(3), []);
    PlayingAt("a", 1);
    WrittenIndexExactly(w, e);
    WrittenSquaresExactly(w, e);
  }

  /** As written, a larger view distance in play leaves neither the index nor the client right. */
  lemma {:induction false} GrownInPlayRun()
    ensures var es := Joins(0, "a") + [Received(0, ClientSettings(3), [])];
      Possible(Written, es) && !Indexed(Run(Written, es)) && !AllHold(Run(Written, es))
  {
    var ss := FirstJoins();
    var e := Received(0, ClientSettings(3), []);
    var w := ThenWritten(Joins(0, "a"), ss, e);
    GrownInPlay(w);
  }

  lemma {:induction false} EarlySettings(w: World, vd: nat, vd': nat)
    requires Indexed(w) && AllHold(w) && 2 <= vd <= MAX_VIEW_DISTANCE && 2 <= vd' <= MAX_VIEW_DISTANCE
    requires w.machines == map[0 := Settled(Waiting("a", 1), vd)]
    ensures var e := Received(0, ClientSettings(vd'), []);
      && Enabled(Written, w, e)
      && (Indexed(Step(Written, w, e)) <==> vd' <= vd) && (AllHold(Step(Written, w, e)) <==> vd <= vd')
  {
    var e := Received(0, ClientSettings(vd'), []);
    WaitingAt(vd, "a", 1);
    WrittenIndexExactly(w, e);
    WrittenSquaresExactly(w, e);
  }

  /** As written, one sent before play puts a player into the index that does not play yet. */
  lemma {:induction false} GrownEarlyRun()
    ensures var es := Arrives(0, "a") + [Received(0, ClientSettings(2), [])] + [Received(0, ClientSettings(3), [])];
      Possible(Written, es) && !Indexed(Run(Written, es))
  {
    var ss := FirstSettles(2);
    var before, e := Arrives(0, "a") + [Received(0, ClientSettings(2), [])], Received(0, ClientSettings(3), []);
    var w := ThenWritten(before, ss, e);
    EarlySettings(w, 2, 3);
  }

  /** A smaller one leaves the client chunks it should not hold. */
  lemma {:induction false} ShrunkEarlyRun()
    ensures var es := Arrives(0, "a") + [Received(0, ClientSettings(3), [])] + [Received(0, ClientSettings(2), [])];
      Possible(Written, es) && !AllHold(Run(Written, es))
  {
    var ss := FirstSettles(3);
    var before, e := Arrives(0, "a") + [Received(0, ClientSettings(3), [])], Received(0, ClientSettings(2), []);
    var w := ThenWritten(before, ss, e);
    EarlySettings(w, 3, 2);
  }

  lemma {:induction false} OneMore(es: seq<Event>, e: Event)
    requires Possible(Written, es) && Enabled(Written, Run(Written, es), e)
    ensures Possible(Written, es + [e]) && Run(Written, es + [e]) == Step(Written, Run(Written, es), e)
  {
    assert (es + [e])[..|es|] == es;
  }

  lemma {:induction false} EnteredBlind(w: World)
    requires Indexed(w) && AllHold(w) && w.machines == map[0 := Waiting("a", 1)]
    ensures var e := Received(0, TeleportConfirm(7), []); var w' := Step(Written, w, e);
      && Enabled(Written, w, e) && Indexed(w') && !AllHold(w')
      && InPlay(w', 0) && w'.machines[0].viewDistance == 0
  {
    var e := Received(0, TeleportConfirm(7), []);
    NobodyVisible(w, 0);
    WrittenIndexExactly(w, e);
    WrittenSquaresExactly(w, e);
  }

  lemma {:induction false} SettledBlind(w: World)
    requires Indexed(w) && InPlay(w, 0) && w.machines[0].viewDistance == 0
    ensures var e := Received(0, ClientSettings(5), []); Enabled(Written, w, e) && !Indexed(Step(Written, w, e))
  {
    WrittenIndexExactly(w, Received(0, ClientSettings(5), []));
  }

  /** As written, a client that confirms a teleport it was never sent plays without the chunk it is
      in, and its first settings in play reach neither the index nor its chunks. */
  lemma {:induction false} SettledBlindRun()
    ensures var before := Arrives(0, "a") + [Received(0, TeleportConfirm(7), [])];
      var es := before + [Received(0, ClientSettings(5), [])];
      && Possible(Written, before) && Indexed(Run(Written, before)) && !AllHold(Run(Written, before))
      && Possible(Written, es) && !Indexed(Run(Written, es))
  {
    var ss := FirstArrives();
    var before := Arrives(0, "a") + [Received(0, TeleportConfirm(7), [])];
    var w := ThenWritten(Arrives(0, "a"), ss, Received(0, TeleportConfirm(7), []));
    EnteredBlind(w);
    SettledBlind(Run(Written, before));
    OneMore(before, Received(0, ClientSettings(5), []));
  }

  // ---- Departures ----

  /** As written, a client that closes after its login stays registered. */
  lemma {:induction false} EarlyLeaveRun()
    ensures var es := Arrives(0, "a") + [Disconnected(0)]; Possible(Written, es) && !Registered(Run(Written, es))
  {
    var ss := FirstArrives();
    var w := ThenWritten(Arrives(0, "a"), ss, Disconnected(0));
    WrittenRegisteredExactly(w, Disconnected(0));
  }

  lemma {:induction false} NobodyLeft(es: seq<Event>, ss: seq<Sketch>)
    requires Tells(es, ss) && Possible(Intended, es)
    ensures UnsharedDepartures(es)
    decreases |es|
  {
    if es != [] {
      NobodyLeft(es[..|es| - 1], ss[..|es|]);
      assert Plain(ss[|es| - 1], es[|es| - 1]);
    }
  }

  lemma {:induction false} FirstLeaves(w: World, m0: Machine, m1: Machine)
    requires Registered(w) && w.machines == map[0 := m0, 1 := m1] && m0.LoggedIn() && m1.LoggedIn()
    ensures LoggedIn(w, 1) && Misleads(Written, w, Disconnected(0))
        <==> (m0.phase.PLAY? <==> m0.username == m1.username)
  {
    assert LoggedIn(w, 0) && LoggedIn(w, 1);
    assert 1 in w.players - {0};
    assert Unshared(w, 0, m0.username) <==> m0.username != m1.username;
  }

  lemma {:induction false} DepartedListed(es: seq<Event>, ss: seq<Sketch>, m0: Machine, m1: Machine)
    requires Tells(es, ss) && ss[|es|].machines == map[0 := m0, 1 := m1] && m0.LoggedIn() && m1.LoggedIn()
    ensures Possible(Written, es + [Disconnected(0)])
    ensures Lists(Run(Written, es + [Disconnected(0)]), 1) <==> (m0.phase.PLAY? <==> m0.username != m1.username)
  {
    var w := ThenWritten(es, ss, Disconnected(0));
    NobodyLeft(es, ss);
    ListsAgree(es);
    FirstLeaves(w, m0, m1);
    ListsExactly(Written, w, Disconnected(0), 1);
  }

  /** And another client goes on listing it. */
  lemma {:induction false} EarlyLeaveListedRun()
    ensures var es := Arrives(0, "a") + Arrives(1, "b") + [Disconnected(0)];
      Possible(Written, es) && !Lists(Run(Written, es), 1)
  {
    var ss := FirstArrives();
    var ss' := Arriving(Arrives(0, "a"), ss, 1, "b");
    DepartedListed(Arrives(0, "a") + Arrives(1, "b"), ss', Waiting("a", 1), Waiting("b", 2));
  }

  lemma {:induction false} Reopened(w: World, m1: Machine)
    requires Enlisted(w) && 0 in w.players && w.machines == map[1 := m1] && m1.LoggedIn() && m1.username == "a"
    requires Lists(w, 1)
    ensures Enabled(Written, w, Connected(0)) && !Lists(Step(Written, w, Connected(0)), 1)
  {
    assert Unshared(w, 0, "");
    assert LoggedIn(w, 1);
    ListsExactly(Written, w, Connected(0), 1);
  }

  /** As written, the entry that such a client leaves behind names a machine again when a connection
      opens under the same identity. */
  lemma {:induction false} ReusedIdentityRun()
    ensures var before := Arrives(0, "a") + Arrives(1, "a") + [Disconnected(0)]; var es := before + [Connected(0)];
      && Possible(Written, before) && Lists(Run(Written, before), 1)
      && Possible(Written, es) && !Lists(Run(Written, es), 1)
  {
    var ss := FirstArrives();
    var ss' := Arriving(Arrives(0, "a"), ss, 1, "a");
    var before := Arrives(0, "a") + Arrives(1, "a");
    DepartedListed(before, ss', Waiting("a", 1), Waiting("a", 2));
    var w := ThenWritten(before, ss', Disconnected(0));
    RunKeepsEnlisted(Written, before + [Disconnected(0)]);
    EarlyLeaver(w);
    Reopened(Run(Written, before + [Disconnected(0)]), Waiting("a", 2));
    OneMore(before + [Disconnected(0)], Connected(0));
  }

  lemma {:induction false} EarlyLeaver(w: World)
    requires Registered(w) && w.machines == map[0 := Waiting("a", 1), 1 := Waiting("a", 2)]
    ensures var w' := Step(Written, w, Disconnected(0)); 0 in w'.players && w'.machines == map[1 := Waiting("a", 2)]
  {
    assert LoggedIn(w, 0);
  }

  /** When one of two players with one name leaves from play, the other's list loses both. */
  lemma {:induction false} SharedNameRun()
    ensures var es := Joins(0, "a") + Arrives(1, "a") + [Disconnected(0)];
      Possible(Written, es) && !Lists(Run(Written, es), 1)
  {
    var ss := FirstJoins();
    var ss' := Arriving(Joins(0, "a"), ss, 1, "a");
    PlayingAt("a", 1);
    DepartedListed(Joins(0, "a") + Arrives(1, "a"), ss', Playing("a", 1), Waiting("a", 2));
  }

  // ---- Sight ----

  const AFAR := EntityCoord(1000.0, 64.0, 0.0)

  lemma {:induction false} AfarIsFar()
    ensures ChunkOf(AFAR) == ChunkCoord(62, 0)
  {
  }

  /** The player sends no positions before this. */
  predicate KeepsStill(es: seq<Event>, o: Pid) {
    forall i :: 0 <= i < |es| && es[i].p == o && es[i].Received? ==> !es[i].packet.PlayerPosition?
  }

  lemma {:induction false} StillSees(es: seq<Event>, ss: seq<Sketch>, o: Pid)
    requires Tells(es, ss) && Possible(Intended, es) && KeepsStill(es, o)
    ensures AlwaysStays(es, o)
    decreases |es|
  {
    if es != [] {
      var before, e := es[..|es| - 1], es[|es| - 1];
      StillSees(before, ss[..|es|], o);
      ToldRun(before, ss[..|es|]);
      assert Plain(ss[|es| - 1], e) && e == es[|es| - 1];
    }
  }

  lemma {:induction false} StillKnows(es: seq<Event>, ss: seq<Sketch>, o: Pid)
    requires Tells(es, ss) && KeepsStill(es, o) && o in ss[|es|].machines
    ensures Possible(Intended, es) && KnowsExactly(Run(Intended, es), o)
  {
    ToldRun(es, ss);
    StillSees(es, ss, o);
    StayingKeepsSight(es, o);
    ViewsAreExact(es, o);
  }

  lemma {:induction false} WalkIsTaken(w: World, p: Pid)
    requires InPlay(w, p)
    ensures var e := Received(p, PlayerPosition(AFAR, false), []);
      Enabled(Written, w, e) && Step(Written, w, e) == Apply(Written, w, p, Walk(AFAR, false))
  {
  }

  lemma {:induction false} Approach(w: World, m0: Machine, m1: Machine)
    requires DistinctIds(w) && w.machines == map[0 := m0, 1 := m1] && KnowsExactly(w, 1)
    requires m0.phase.PLAY? && m1.phase.PLAY? && m1.viewDistance == 2
    requires m0.Home() == ChunkCoord(62, 0) && m1.Home() == ChunkCoord(0, 0)
    ensures var w' := Apply(Written, w, 1, Walk(AFAR, false)); Sees(w', 1, 0) && !KnowsExactly(w', 1)
  {
    AfarIsFar();
    SquareIsAfter(Written, w, 1, Walk(AFAR, false));
    OthersStay(Written, w, 1, Walk(AFAR, false), 0);
    assert InPlay(w, 0) && SquareAfter(m1, Walk(AFAR, false)).Contains(m0.Home()) && !m1.Square().Contains(m0.Home());
    OwnActKnownExactly(Written, w, 1, Walk(AFAR, false));
  }

  lemma {:induction false} Approached(es: seq<Event>, ss: seq<Sketch>, m0: Machine, m1: Machine)
    requires Tells(es, ss) && KeepsStill(es, 1) && ss[|es|].machines == map[0 := m0, 1 := m1]
    requires m0.phase.PLAY? && m1.phase.PLAY? && m1.viewDistance == 2
    requires m0.Home() == ChunkCoord(62, 0) && m1.Home() == ChunkCoord(0, 0)
    ensures var es' := es + [Received(1, PlayerPosition(AFAR, false), [])];
      Possible(Written, es') && Sees(Run(Written, es'), 1, 0) && !KnowsExactly(Run(Written, es'), 1)
  {
    var w := ThenWritten(es, ss, Received(1, PlayerPosition(AFAR, false), []));
    StillKnows(es, ss, 1);
    WalkIsTaken(w, 1);
    Approach(w, m0, m1);
  }

  /** One player enters and walks away, and another enters. */
  const PARTED := Joins(0, "a") + [Received(0, PlayerPosition(AFAR, false), [])] + Joins(1, "b")

  lemma {:induction false} Parting() returns (ss: seq<Sketch>)
    ensures Tells(PARTED, ss)
    ensures ss[|PARTED|].machines == map[0 := Playing("a", 1).(position := AFAR), 1 := Playing("b", 2)]
  {
    AfarIsFar();
    PlayingAt("a", 1);
    var e := Received(0, PlayerPosition(AFAR, false), []);
    var ss0 := FirstJoins();
    Longer(Joins(0, "a"), ss0, e);
    ss := Joining(Joins(0, "a") + [e], ss0 + [After(ss0[5], e)], 1, "b");
  }

  /** A player that walks up to another is told nothing of it. */
  lemma {:induction false} ApproachRun()
    ensures var es := PARTED + [Received(1, PlayerPosition(AFAR, false), [])];
      Possible(Written, es) && Sees(Run(Written, es), 1, 0) && !KnowsExactly(Run(Written, es), 1)
  {
    AfarIsFar();
    PlayingAt("a", 1);
    PlayingAt("b", 2);
    var ss := Parting();
    Approached(PARTED, ss, Playing("a", 1).(position := AFAR), Playing("b", 2));
  }
}
