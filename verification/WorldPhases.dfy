/** How a machine enters play: once per connection, by confirming a teleport id that it was
    given and had not confirmed before. */
module WorldPhases {
  import opened Variants
  import opened Tracker
  import opened Client
  import opened World
  import opened WorldIndex

  /** The event confirms an outstanding id of a player that waits to play. */
  predicate Confirms(w: World, e: Event, p: Pid) {
    && e.Received? && e.p == p && e.packet.TeleportConfirm?
    && p in w.machines && w.machines[p].phase.PLAY_INIT?
    && e.packet.teleportId in w.machines[p].outstandingTeleportIds
  }

  /** The event confirms an id that is not outstanding. */
  predicate BadConfirm(w: World, e: Event, p: Pid) {
    && e.Received? && e.p == p && e.packet.TeleportConfirm?
    && p in w.machines && w.machines[p].phase.PLAY_INIT?
    && e.packet.teleportId !in w.machines[p].outstandingTeleportIds
  }

  /** What puts a player into play: meant is a confirmation of an outstanding id, but the text also
      goes on after one that it has rejected. */
  predicate Enters(variant: Variant, w: World, e: Event, p: Pid) {
    Confirms(w, e, p) || (variant.Written? && BadConfirm(w, e, p))
  }

  /** A step puts a player into play exactly when its event enters, in either reading. */
  lemma {:induction false} EntryExactly(variant: Variant, w: World, e: Event, p: Pid)
    requires Enabled(variant, w, e)
    ensures !InPlay(w, p) && InPlay(Step(variant, w, e), p) <==> Enters(variant, w, e, p)
  {
    if p != e.p {
      OthersStay(variant, w, e.p, ActOf(variant, w, e), p);
    }
  }

  /** Once in play, a player stays there until it disconnects. */
  lemma {:induction false} ExitExactly(variant: Variant, w: World, e: Event, p: Pid)
    requires Enabled(variant, w, e) && InPlay(w, p)
    ensures !InPlay(Step(variant, w, e), p) <==> e == Disconnected(p)
  {
    if p != e.p {
      OthersStay(variant, w, e.p, ActOf(variant, w, e), p);
    }
  }

  // ---- Ids issued ----

  /** The ids of the teleports a client was sent, in order. */
  function TeleportIds(ks: seq<Packet>): seq<int> {
    if ks == [] then []
    else TeleportIds(ks[..|ks| - 1]) +
         if ks[|ks| - 1].PlayerPositionLook? then [ks[|ks| - 1].teleportId] else []
  }

  lemma {:induction false} TeleportIdsAppend(a: seq<Packet>, b: seq<Packet>)
    ensures TeleportIds(a + b) == TeleportIds(a) + TeleportIds(b)
    decreases b
  {
    if b == [] {
      assert a + b == a;
    } else {
      var k := [b[|b| - 1]];
      assert (a + b)[..|a + b| - 1] == a + b[..|b| - 1];
      TeleportIdsAppend(a, b[..|b| - 1]);
    }
  }

  lemma {:induction false} NoTeleports(ks: seq<Packet>)
    requires forall i :: 0 <= i < |ks| ==> !ks[i].PlayerPositionLook?
    ensures TeleportIds(ks) == []
    decreases ks
  {
    if ks != [] {
      NoTeleports(ks[..|ks| - 1]);
    }
  }

  lemma {:induction false} TeleportIdsMention(ks: seq<Packet>, id: int)
    requires id in TeleportIds(ks)
    ensures exists position :: PlayerPositionLook(position, id) in ks
    decreases ks
  {
    var last := ks[|ks| - 1];
    if last.PlayerPositionLook? && last.teleportId == id {
      assert PlayerPositionLook(last.position, id) in ks;
    } else {
      TeleportIdsMention(ks[..|ks| - 1], id);
      var position :| PlayerPositionLook(position, id) in ks[..|ks| - 1];
      assert PlayerPositionLook(position, id) in ks;
    }
  }

  function UpTo(n: nat): (s: seq<int>)
    ensures |s| == n && forall i :: 0 <= i < n ==> s[i] == i
  {
    seq(n, i => i)
  }

  /** A client was sent the ids 0, 1, 2, ... in this order, each once. */
  ghost predicate Counted(w: World, p: Pid) {
    p in w.machines ==> TeleportIds(Log(w, p)) == UpTo(NextId(w, p))
  }

  lemma {:induction false} SettleTeleports(m: Machine, vd: nat)
    ensures TeleportIds(Resize(Intended, m, vd) + Welcome(m, vd))
         == if m.phase.PLAY_INIT? then [m.nextTeleportId] else []
  {
    TeleportIdsAppend(Resize(Intended, m, vd), Welcome(m, vd));
    NoTeleports(Resize(Intended, m, vd));
    if m.phase.PLAY_INIT? {
      var chunks := Loads(SquareOf(m.Home(), vd));
      var last := PlayerPositionLook(m.position, m.nextTeleportId);
      TeleportIdsAppend(chunks, [SpawnPosition, last]);
      NoTeleports(chunks);
      NoTeleports([SpawnPosition]);
      assert [SpawnPosition, last][..1] == [SpawnPosition];
    }
  }

  lemma {:induction false} NewsTeleports(w: World, p: Pid, a: Act, o: Pid)
    requires Allowed(w, p, a)
    ensures TeleportIds(News(Intended, w, p, a, o))
         == if o == p && a.Settle? && w.machines[p].phase.PLAY_INIT? then [w.machines[p].nextTeleportId] else []
  {
    if o == p && a.Settle? {
      SettleTeleports(w.machines[p], a.viewDistance);
    } else {
      NoTeleports(News(Intended, w, p, a, o));
    }
  }

  /** The id a machine will issue next; a new machine starts at 0. */
  function NextId(w: World, p: Pid): nat {
    if p in w.machines then w.machines[p].nextTeleportId else 0
  }

  lemma {:induction false} NextIdAfter(w: World, p: Pid, a: Act, o: Pid)
    requires Allowed(w, p, a) && o in MachinesAfter(w, p, a)
    ensures NextId(Apply(Intended, w, p, a), o)
         == NextId(w, o) + if o == p && a.Settle? && w.machines[p].phase.PLAY_INIT? then 1 else 0
  {
  }

  lemma {:induction false} NewsTakesNextId(w: World, p: Pid, a: Act, o: Pid)
    requires Allowed(w, p, a) && o in MachinesAfter(w, p, a)
    ensures var next, next' := NextId(w, o), NextId(Apply(Intended, w, p, a), o);
      var ids := TeleportIds(News(Intended, w, p, a, o));
      (ids == [] && next' == next) || (ids == [next] && next' == next + 1)
  {
    NextIdAfter(w, p, a, o);
    NewsTeleports(w, p, a, o);
  }

  lemma {:induction false} CountOn(log: seq<Packet>, news: seq<Packet>, next: nat, next': nat)
    requires TeleportIds(log) == UpTo(next)
    requires (TeleportIds(news) == [] && next' == next) || (TeleportIds(news) == [next] && next' == next + 1)
    ensures TeleportIds(log + news) == UpTo(next')
  {
    TeleportIdsAppend(log, news);
    assert UpTo(next) + [next] == UpTo(next + 1);
    assert UpTo(next) + [] == UpTo(next);
  }

  lemma {:induction false} ActKeepsCounted(w: World, p: Pid, a: Act, o: Pid)
    requires Allowed(w, p, a) && TeleportIds(Log(w, o)) == UpTo(NextId(w, o))
    requires o in MachinesAfter(w, p, a)
    ensures TeleportIds(Log(w, o) + News(Intended, w, p, a, o)) == UpTo(NextId(Apply(Intended, w, p, a), o))
  {
    NewsTakesNextId(w, p, a, o);
    CountOn(Log(w, o), News(Intended, w, p, a, o), NextId(w, o), NextId(Apply(Intended, w, p, a), o));
  }

  /** After every run, ids that can still be confirmed were sent to the client, and no id was
      sent to it twice. */
  lemma {:induction false} OutstandingWereIssued(es: seq<Event>, p: Pid)
    requires Possible(Intended, es)
    ensures Counted(Run(Intended, es), p)
    ensures var w := Run(Intended, es);
      p in w.machines ==> forall id :: id in w.machines[p].outstandingTeleportIds ==> id in TeleportIds(Log(w, p))
    decreases |es|
  {
    if es != [] {
      var before, e := es[..|es| - 1], es[|es| - 1];
      OutstandingWereIssued(before, p);
      IndexIsExact(before);
      var w := Run(Intended, before);
      ActsAllowed(w, e);
      if p in Run(Intended, es).machines {
        ActKeepsCounted(w, e.p, ActOf(Intended, w, e), p);
      }
    }
    RunKeepsSquares(es);
    var w := Run(Intended, es);
    if p in w.machines {
      assert PhaseSafe(w.machines[p]);
      forall id | id in w.machines[p].outstandingTeleportIds
        ensures id in TeleportIds(Log(w, p))
      {
        assert UpTo(w.machines[p].nextTeleportId)[id] == id;
      }
    }
  }

  // ---- Runs ----

  /** A run's prefix of n + 1 events is one step on from its prefix of n. */
  lemma {:induction false} StepAt(variant: Variant, es: seq<Event>, n: nat)
    requires n < |es| && Possible(variant, es[..n + 1])
    ensures Possible(variant, es[..n]) && Enabled(variant, Run(variant, es[..n]), es[n])
    ensures Run(variant, es[..n + 1]) == Step(variant, Run(variant, es[..n]), es[n])
  {
    assert es[..n + 1][..n] == es[..n];
  }

  lemma {:induction false} PrefixPossible(variant: Variant, es: seq<Event>, k: nat, n: nat)
    requires k <= n <= |es| && Possible(variant, es[..n])
    ensures Possible(variant, es[..k])
    decreases n
  {
    if k < n {
      StepAt(variant, es, n - 1);
      PrefixPossible(variant, es, k, n - 1);
    }
  }

  /** The k-th event of a run puts a player into play. */
  predicate EnteredAt(variant: Variant, es: seq<Event>, p: Pid, k: nat)
    requires k < |es|
  {
    Possible(variant, es[..k]) && Enters(variant, Run(variant, es[..k]), es[k], p)
  }

  /** The player is in play after n events. */
  predicate PlaysAt(variant: Variant, es: seq<Event>, p: Pid, n: nat)
    requires n <= |es|
  {
    Possible(variant, es[..n]) && InPlay(Run(variant, es[..n]), p)
  }

  /** After n + 1 events a player is in play exactly when the last of them made it enter, or it was
      in play before and did not disconnect. */
  lemma {:induction false} PlaysExactly(variant: Variant, es: seq<Event>, p: Pid, n: nat)
    requires n < |es| && Possible(variant, es[..n + 1])
    ensures PlaysAt(variant, es, p, n + 1)
       <==> EnteredAt(variant, es, p, n) || (PlaysAt(variant, es, p, n) && es[n] != Disconnected(p))
    ensures !(EnteredAt(variant, es, p, n) && PlaysAt(variant, es, p, n))
  {
    StepAt(variant, es, n);
    if InPlay(Run(variant, es[..n]), p) {
      ExitExactly(variant, Run(variant, es[..n]), es[n], p);
    } else {
      EntryExactly(variant, Run(variant, es[..n]), es[n], p);
    }
  }

  /** A condition that entering makes true and leaving makes false. */
  predicate Switched(on: seq<bool>, enters: seq<bool>, leaves: seq<bool>) {
    && |on| == |enters| + 1 && |enters| == |leaves| && !on[0]
    && forall i {:trigger enters[i]} :: 0 <= i < |enters| ==>
         (on[i + 1] <==> enters[i] || (on[i] && !leaves[i])) && !(enters[i] && on[i])
  }

  predicate NoneIn(s: seq<bool>, from: nat, to: nat)
    requires to <= |s|
  {
    forall i :: from <= i < to ==> !s[i]
  }

  /** While it is true, some entry made it so, and no leaving came after. */
  lemma {:induction false} LastEntry(on: seq<bool>, enters: seq<bool>, leaves: seq<bool>, n: nat) returns (k: nat)
    requires Switched(on, enters, leaves) && n < |on| && on[n]
    ensures k < n && enters[k] && NoneIn(leaves, k + 1, n)
    decreases n
  {
    k := n - 1;
    if !enters[k] {
      k := LastEntry(on, enters, leaves, n - 1);
    }
  }

  /** Between two entries it was left. */
  lemma {:induction false} LeftBetween(on: seq<bool>, enters: seq<bool>, leaves: seq<bool>, i: nat, j: nat)
    requires Switched(on, enters, leaves) && i < j < |enters| && enters[i] && enters[j]
    ensures !NoneIn(leaves, i + 1, j)
  {
    if NoneIn(leaves, i + 1, j) {
      for k := i + 1 to j
        invariant on[k]
      {
        assert !leaves[k] && (enters[k] || !enters[k]);
      }
    }
  }

  function PlayTrace(variant: Variant, es: seq<Event>, p: Pid): (s: seq<bool>)
    ensures |s| == |es| + 1 && forall i :: 0 <= i <= |es| ==> s[i] == PlaysAt(variant, es, p, i)
  {
    seq(|es| + 1, i requires 0 <= i <= |es| => PlaysAt(variant, es, p, i))
  }

  function EntryTrace(variant: Variant, es: seq<Event>, p: Pid): (s: seq<bool>)
    ensures |s| == |es| && forall i :: 0 <= i < |es| ==> s[i] == EnteredAt(variant, es, p, i)
  {
    seq(|es|, i requires 0 <= i < |es| => EnteredAt(variant, es, p, i))
  }

  function LeaveTrace(es: seq<Event>, p: Pid): (s: seq<bool>)
    ensures |s| == |es| && forall i :: 0 <= i < |es| ==> s[i] == (es[i] == Disconnected(p))
  {
    seq(|es|, i requires 0 <= i < |es| => es[i] == Disconnected(p))
  }

  lemma {:induction false} TraceStep(variant: Variant, es: seq<Event>, p: Pid, i: nat)
    requires Possible(variant, es) && i < |es|
    ensures PlayTrace(variant, es, p)[i + 1]
       <==> EntryTrace(variant, es, p)[i] || (PlayTrace(variant, es, p)[i] && !LeaveTrace(es, p)[i])
    ensures !(EntryTrace(variant, es, p)[i] && PlayTrace(variant, es, p)[i])
  {
    assert es[..|es|] == es;
    PrefixPossible(variant, es, i + 1, |es|);
    PlaysExactly(variant, es, p, i);
  }

  lemma {:induction false} TracesSwitch(variant: Variant, es: seq<Event>, p: Pid)
    requires Possible(variant, es)
    ensures Switched(PlayTrace(variant, es, p), EntryTrace(variant, es, p), LeaveTrace(es, p))
  {
    forall i {:trigger EntryTrace(variant, es, p)[i]} | 0 <= i < |es|
      ensures PlayTrace(variant, es, p)[i + 1]
         <==> EntryTrace(variant, es, p)[i] || (PlayTrace(variant, es, p)[i] && !LeaveTrace(es, p)[i])
      ensures !(EntryTrace(variant, es, p)[i] && PlayTrace(variant, es, p)[i])
    {
      TraceStep(variant, es, p, i);
    }
  }

  /** In either reading, every player in play was put there by an event that enters, and has not
      disconnected since. */
  lemma {:induction false} PlayWasEntered(variant: Variant, es: seq<Event>, p: Pid) returns (k: nat)
    requires Possible(variant, es) && InPlay(Run(variant, es), p)
    ensures k < |es| && EnteredAt(variant, es, p, k) && forall j :: k < j < |es| ==> es[j] != Disconnected(p)
  {
    assert es[..|es|] == es;
    TracesSwitch(variant, es, p);
    k := LastEntry(PlayTrace(variant, es, p), EntryTrace(variant, es, p), LeaveTrace(es, p), |es|);
    forall j | k < j < |es|
      ensures es[j] != Disconnected(p)
    {
      assert !LeaveTrace(es, p)[j];
    }
  }

  /** The k-th event of a run confirms an outstanding teleport of a player. */
  predicate ConfirmedAt(variant: Variant, es: seq<Event>, p: Pid, k: nat)
    requires k < |es|
  {
    Possible(variant, es[..k]) && Confirms(Run(variant, es[..k]), es[k], p)
  }

  /** As meant, it got there by confirming an outstanding id. */
  lemma {:induction false} PlayWasConfirmed(es: seq<Event>, p: Pid) returns (k: nat)
    requires Possible(Intended, es) && InPlay(Run(Intended, es), p)
    ensures k < |es| && ConfirmedAt(Intended, es, p, k) && forall j :: k < j < |es| ==> es[j] != Disconnected(p)
  {
    k := PlayWasEntered(Intended, es, p);
  }

  /** The id confirmed had been sent to the client in a teleport. */
  lemma {:induction false} ConfirmedWasSent(es: seq<Event>, p: Pid, k: nat)
    requires k < |es| && ConfirmedAt(Intended, es, p, k)
    ensures exists position :: PlayerPositionLook(position, es[k].packet.teleportId) in Log(Run(Intended, es[..k]), p)
  {
    OutstandingWereIssued(es[..k], p);
    TeleportIdsMention(Log(Run(Intended, es[..k]), p), es[k].packet.teleportId);
  }

  /** A connection enters at most once, so no id is confirmed twice, in either reading. */
  lemma {:induction false} EnteredOnce(variant: Variant, es: seq<Event>, p: Pid, i: nat, j: nat)
    requires Possible(variant, es) && i < j < |es| && EnteredAt(variant, es, p, i) && EnteredAt(variant, es, p, j)
    ensures exists l :: i < l < j && es[l] == Disconnected(p)
  {
    TracesSwitch(variant, es, p);
    assert EntryTrace(variant, es, p)[i] && EntryTrace(variant, es, p)[j];
    LeftBetween(PlayTrace(variant, es, p), EntryTrace(variant, es, p), LeaveTrace(es, p), i, j);
    var l :| i < l < j && LeaveTrace(es, p)[l];
  }
}
