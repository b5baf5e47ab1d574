/** The blocks that clients see: the chunk store beside the players, and what each client makes of
    the chunks and block changes it is sent. */
module WorldBlocks {
  import opened Coords
  import opened Variants
  import opened Tracker
  import opened Chunks
  import opened Client
  import opened World
  import opened WorldIndex

  /** A client's copies of the chunks it holds. */
  type Copies = map<ChunkCoord, Sections>

  datatype Scene = Scene(world: World, chunks: ChunkMap, copies: map<Pid, Copies>)

  const EMPTY_SCENE := Scene(EMPTY_WORLD, map[], map[])

  /** A step of the players, or a player in play digs a block; how far away it is does not matter to
      the text, which only notes it (statemachine.cpp:516-522). */
  datatype Happening = Stepped(e: Event) | Digs(p: Pid, block: BlockCoord)

  function CopyOf(s: Scene, o: Pid): Copies {
    if o in s.copies then s.copies[o] else map[]
  }

  function BlockAt(sections: Sections, b: BlockCoord): nat
    requires 0 <= b.y < 256
  {
    BlockIn(sections, b.y, ToLocal(b).z, ToLocal(b).x)
  }

  /** What a packet does to the store, which generates the chunks it has to send, and to the copies
      of the client it goes to. */
  function HandedOne(chunks: ChunkMap, copy: Copies, k: Packet): (ChunkMap, Copies) {
    match k
    case ChunkData(at) =>
      var more := StepChunks(chunks, Create(at));
      (more, copy[at := more[at].sections])
    case UnloadChunk(at) => (chunks, copy - {at})
    case _ => (chunks, copy)
  }

  function Handed(chunks: ChunkMap, copy: Copies, ks: seq<Packet>): (ChunkMap, Copies)
    decreases ks
  {
    if ks == [] then (chunks, copy)
    else
      var one := HandedOne(chunks, copy, ks[0]);
      Handed(one.0, one.1, ks[1..])
  }

  /** A client is told that a block is air. */
  function SetAir(copy: Copies, b: BlockCoord): Copies
    requires 0 <= b.y < 256
  {
    if ToChunk(b) !in copy then copy
    else copy[ToChunk(b) := DugSections(copy[ToChunk(b)], b.y, ToLocal(b).z, ToLocal(b).x)]
  }

  predicate Happens(variant: Variant, s: Scene, h: Happening) {
    match h
    case Stepped(e) => Enabled(variant, s.world, e)
    case Digs(p, b) => InPlay(s.world, p) && 0 <= b.y < 256
  }

  /** There is a block to break. */
  predicate Breaks(s: Scene, b: BlockCoord)
    requires 0 <= b.y < 256
  {
    ToChunk(b) in s.chunks && BlockAt(s.chunks[ToChunk(b)].sections, b) != AIR
  }

  /** The change is broadcast around the digger, not around the block, and not to the digger itself,
      whose client has made it already. */
  predicate Told(s: Scene, p: Pid, b: BlockCoord, o: Pid)
    requires InPlay(s.world, p) && 0 <= b.y < 256
  {
    o != p && Breaks(s, b) && (s.world.machines[p].Home(), o) in s.world.subs
  }

  function Next(variant: Variant, s: Scene, h: Happening): Scene
    requires Happens(variant, s, h)
  {
    match h
    case Stepped(e) =>
      var world := Step(variant, s.world, e);
      var handed := Handed(s.chunks, CopyOf(s, e.p), OwnNews(variant, s.world, e.p, ActOf(variant, s.world, e)));
      Scene(world, handed.0, map o | o in world.machines :: if o == e.p then handed.1 else CopyOf(s, o))
    case Digs(p, b) =>
      Scene(s.world, StepChunks(s.chunks, Dig(b)),
            map o | o in s.copies :: if o == p || Told(s, p, b, o) then SetAir(s.copies[o], b) else s.copies[o])
  }

  predicate Occurs(variant: Variant, hs: seq<Happening>)
    decreases |hs|, 0
  {
    hs == [] || (Occurs(variant, hs[..|hs| - 1]) && Happens(variant, After(variant, hs[..|hs| - 1]), hs[|hs| - 1]))
  }

  function After(variant: Variant, hs: seq<Happening>): Scene
    requires Occurs(variant, hs)
    decreases |hs|, 1
  {
    if hs == [] then EMPTY_SCENE else Next(variant, After(variant, hs[..|hs| - 1]), hs[|hs| - 1])
  }

  // ---- What a client has missed ----

  /** Whether a client's copy of a block is out of date after a happening: it is from when the block
      is broken without its being told until it is sent the chunk anew or digs there itself. Digs of
      what is air already change nothing, whoever is told of them. */
  predicate MissedAfter(variant: Variant, s: Scene, h: Happening, o: Pid, b: BlockCoord, missed: bool)
    requires Happens(variant, s, h) && 0 <= b.y < 256
  {
    match h
    case Stepped(e) =>
      missed && !(e.p == o && ChunkData(ToChunk(b)) in OwnNews(variant, s.world, o, ActOf(variant, s.world, e)))
    case Digs(p, d) =>
      if d != b then missed
      else if p == o then false
      else if Breaks(s, b) then !Told(s, p, b, o)
      else missed
  }

  predicate Missed(variant: Variant, hs: seq<Happening>, o: Pid, b: BlockCoord)
    requires Occurs(variant, hs) && 0 <= b.y < 256
    decreases |hs|
  {
    hs != [] &&
    var before := hs[..|hs| - 1];
    MissedAfter(variant, After(variant, before), hs[|hs| - 1], o, b, Missed(variant, before, o, b))
  }

  // ---- Chunks handed out ----

  lemma {:induction false} HandedOneKeepsStore(chunks: ChunkMap, copy: Copies, k: Packet, c: ChunkCoord)
    ensures c in chunks ==> c in HandedOne(chunks, copy, k).0 && HandedOne(chunks, copy, k).0[c] == chunks[c]
  {
  }

  lemma {:induction false} HandedKeepsStore(chunks: ChunkMap, copy: Copies, ks: seq<Packet>, c: ChunkCoord)
    ensures c in chunks ==> c in Handed(chunks, copy, ks).0 && Handed(chunks, copy, ks).0[c] == chunks[c]
    decreases ks
  {
    if ks != [] {
      var one := HandedOne(chunks, copy, ks[0]);
      HandedOneKeepsStore(chunks, copy, ks[0], c);
      HandedKeepsStore(one.0, one.1, ks[1..], c);
    }
  }

  lemma {:induction false} HandedOneExactly(chunks: ChunkMap, copy: Copies, k: Packet, c: ChunkCoord)
    ensures var one := HandedOne(chunks, copy, k);
      c in one.1 ==>
        if k == ChunkData(c) then c in one.0 && one.1[c] == one.0[c].sections else c in copy && one.1[c] == copy[c]
  {
  }

  /** A copy that is there afterwards is the store's if the chunk was sent, and else the old one. */
  lemma {:induction false} HandedExactly(chunks: ChunkMap, copy: Copies, ks: seq<Packet>, c: ChunkCoord)
    ensures var all := Handed(chunks, copy, ks);
      c in all.1 ==>
        if ChunkData(c) in ks then c in all.0 && all.1[c] == all.0[c].sections else c in copy && all.1[c] == copy[c]
    decreases ks
  {
    if ks != [] {
      var one := HandedOne(chunks, copy, ks[0]);
      HandedOneExactly(chunks, copy, ks[0], c);
      HandedExactly(one.0, one.1, ks[1..], c);
      HandedKeepsStore(one.0, one.1, ks[1..], c);
      assert ks == [ks[0]] + ks[1..];
    }
  }

  // ---- Agreement ----

  /** A client's copy of a block is the store's, or, if it has missed the block's being broken, still
      shows it. */
  predicate Agrees(s: Scene, o: Pid, b: BlockCoord, missed: bool)
    requires 0 <= b.y < 256
  {
    var c := ToChunk(b);
    c in CopyOf(s, o) ==>
      && c in s.chunks
      && var seen, there := BlockAt(CopyOf(s, o)[c], b), BlockAt(s.chunks[c].sections, b);
         if missed then there == AIR && seen != AIR else seen == there
  }

  lemma {:induction false} StepAgrees(variant: Variant, s: Scene, e: Event, o: Pid, b: BlockCoord, missed: bool)
    requires Enabled(variant, s.world, e) && 0 <= b.y < 256 && Agrees(s, o, b, missed)
    ensures Agrees(Next(variant, s, Stepped(e)), o, b, MissedAfter(variant, s, Stepped(e), o, b, missed))
  {
    var ks := OwnNews(variant, s.world, e.p, ActOf(variant, s.world, e));
    HandedExactly(s.chunks, CopyOf(s, e.p), ks, ToChunk(b));
    HandedKeepsStore(s.chunks, CopyOf(s, e.p), ks, ToChunk(b));
  }

  lemma {:induction false} AirExactly(sections: Sections, d: BlockCoord, b: BlockCoord)
    requires 0 <= b.y < 256 && 0 <= d.y < 256 && ToChunk(d) == ToChunk(b)
    ensures BlockAt(DugSections(sections, d.y, ToLocal(d).z, ToLocal(d).x), b)
         == if d == b then AIR else BlockAt(sections, b)
  {
    DigChangesOneBlock(sections, d.y, ToLocal(d).z, ToLocal(d).x, b.y, ToLocal(b).z, ToLocal(b).x);
    if ToLocal(d) == ToLocal(b) {
      SameCell(d, b);
    }
  }

  lemma {:induction false} StoreAfterDig(chunks: ChunkMap, d: BlockCoord, b: BlockCoord)
    requires 0 <= b.y < 256 && 0 <= d.y < 256 && ToChunk(b) in chunks
    ensures ToChunk(b) in StepChunks(chunks, Dig(d))
    ensures BlockAt(StepChunks(chunks, Dig(d))[ToChunk(b)].sections, b)
         == if d == b then AIR else BlockAt(chunks[ToChunk(b)].sections, b)
  {
    if ToChunk(d) == ToChunk(b) {
      AirExactly(chunks[ToChunk(b)].sections, d, b);
    }
  }

  lemma {:induction false} CopyAfterAir(copy: Copies, d: BlockCoord, b: BlockCoord)
    requires 0 <= b.y < 256 && 0 <= d.y < 256 && ToChunk(b) in copy
    ensures ToChunk(b) in SetAir(copy, d)
    ensures BlockAt(SetAir(copy, d)[ToChunk(b)], b) == if d == b then AIR else BlockAt(copy[ToChunk(b)], b)
  {
    if ToChunk(d) == ToChunk(b) {
      AirExactly(copy[ToChunk(b)], d, b);
    }
  }

  lemma {:induction false} DigAgrees(variant: Variant, s: Scene, p: Pid, d: BlockCoord, o: Pid, b: BlockCoord,
      missed: bool)
    requires InPlay(s.world, p) && 0 <= d.y < 256 && 0 <= b.y < 256 && Agrees(s, o, b, missed)
    ensures Agrees(Next(variant, s, Digs(p, d)), o, b, MissedAfter(variant, s, Digs(p, d), o, b, missed))
  {
    if ToChunk(b) in CopyOf(s, o) {
      StoreAfterDig(s.chunks, d, b);
      CopyAfterAir(CopyOf(s, o), d, b);
    }
  }

  /** In either reading, after every run a client's copy of a block of a chunk that it holds is the
      store's if and only if it has not missed the block's being broken; if it has, it still sees a
      block where there is none. */
  lemma {:induction false} CopiesExactly(variant: Variant, hs: seq<Happening>, o: Pid, b: BlockCoord)
    requires Occurs(variant, hs) && 0 <= b.y < 256 && ToChunk(b) in CopyOf(After(variant, hs), o)
    ensures var s, c := After(variant, hs), ToChunk(b);
      && c in s.chunks
      && (BlockAt(CopyOf(s, o)[c], b) == BlockAt(s.chunks[c].sections, b) <==> !Missed(variant, hs, o, b))
      && (Missed(variant, hs, o, b) ==> BlockAt(s.chunks[c].sections, b) == AIR)
  {
    RunAgrees(variant, hs, o, b);
  }

  lemma {:induction false} RunAgrees(variant: Variant, hs: seq<Happening>, o: Pid, b: BlockCoord)
    requires Occurs(variant, hs) && 0 <= b.y < 256
    ensures Agrees(After(variant, hs), o, b, Missed(variant, hs, o, b))
    decreases |hs|
  {
    if hs != [] {
      var before, h := hs[..|hs| - 1], hs[|hs| - 1];
      RunAgrees(variant, before, o, b);
      var s, missed := After(variant, before), Missed(variant, before, o, b);
      if h.Stepped? {
        StepAgrees(variant, s, h.e, o, b, missed);
      } else {
        DigAgrees(variant, s, h.p, h.block, o, b, missed);
      }
    }
  }

  // ---- The store's side ----

  lemma {:induction false} OneMoreOp(ops: seq<ChunkOp>, op: ChunkOp)
    requires AllInHeight(ops) && InHeight(op)
    ensures AllInHeight(ops + [op]) && RunChunks(ops + [op]) == StepChunks(RunChunks(ops), op)
  {
    assert (ops + [op])[..|ops|] == ops;
  }

  lemma {:induction false} HandedIsRun(ops: seq<ChunkOp>, copy: Copies, ks: seq<Packet>) returns (more: seq<ChunkOp>)
    requires AllInHeight(ops)
    ensures AllInHeight(more) && RunChunks(more) == Handed(RunChunks(ops), copy, ks).0
    decreases ks
  {
    more := ops;
    if ks != [] {
      var one := HandedOne(RunChunks(ops), copy, ks[0]);
      if ks[0].ChunkData? {
        OneMoreOp(ops, Create(ks[0].at));
        more := ops + [Create(ks[0].at)];
      }
      more := HandedIsRun(more, one.1, ks[1..]);
    }
  }

  /** The store is that of a run of chunk creations and digs. */
  lemma {:induction false} StoreIsRun(variant: Variant, hs: seq<Happening>) returns (ops: seq<ChunkOp>)
    requires Occurs(variant, hs)
    ensures AllInHeight(ops) && RunChunks(ops) == After(variant, hs).chunks
    decreases |hs|
  {
    ops := [];
    if hs != [] {
      var before, h := hs[..|hs| - 1], hs[|hs| - 1];
      ops := StoreIsRun(variant, before);
      var s := After(variant, before);
      if h.Stepped? {
        ops := HandedIsRun(ops, CopyOf(s, h.e.p), OwnNews(variant, s.world, h.e.p, ActOf(variant, s.world, h.e)));
      } else {
        OneMoreOp(ops, Dig(h.block));
        ops := ops + [Dig(h.block)];
      }
    }
  }

  // ---- The players' side ----

  /** The events among what happens. */
  function StepsOf(hs: seq<Happening>): seq<Event> {
    if hs == [] then []
    else StepsOf(hs[..|hs| - 1]) + if hs[|hs| - 1].Stepped? then [hs[|hs| - 1].e] else []
  }

  /** Digs leave the players as they are: they run as if there were none. */
  lemma {:induction false} PlayersRun(variant: Variant, hs: seq<Happening>)
    requires Occurs(variant, hs)
    ensures Possible(variant, StepsOf(hs)) && After(variant, hs).world == Run(variant, StepsOf(hs))
    decreases |hs|
  {
    if hs != [] {
      var before, h := hs[..|hs| - 1], hs[|hs| - 1];
      PlayersRun(variant, before);
      if h.Stepped? {
        OneStepOn(variant, StepsOf(before), h.e);
      } else {
        assert StepsOf(hs) == StepsOf(before);
      }
    }
  }

  lemma {:induction false} OneStepOn(variant: Variant, es: seq<Event>, e: Event)
    requires Possible(variant, es) && Enabled(variant, Run(variant, es), e)
    ensures Possible(variant, es + [e]) && Run(variant, es + [e]) == Step(variant, Run(variant, es), e)
  {
    assert (es + [e])[..|es|] == es;
  }

  lemma {:induction false} HandedOneLoads(chunks: ChunkMap, copy: Copies, k: Packet, v: View)
    requires copy.Keys == v.loaded
    ensures HandedOne(chunks, copy, k).1.Keys == Watch(v, k).loaded
  {
  }

  lemma {:induction false} HandedLoads(chunks: ChunkMap, copy: Copies, ks: seq<Packet>, v: View)
    requires copy.Keys == v.loaded
    ensures Handed(chunks, copy, ks).1.Keys == WatchAll(v, ks).loaded
    decreases ks
  {
    if ks != [] {
      var one := HandedOne(chunks, copy, ks[0]);
      HandedOneLoads(chunks, copy, ks[0], v);
      HandedLoads(one.0, one.1, ks[1..], Watch(v, ks[0]));
    }
  }

  /** A client has copies of exactly the chunks that it holds. */
  ghost predicate CopiesHeld(s: Scene) {
    && s.copies.Keys == s.world.machines.Keys == s.world.sent.Keys
    && forall o :: o in s.copies ==> s.copies[o].Keys == Seen(Log(s.world, o)).loaded
  }

  lemma {:induction false} NobodyHolds(s: Scene, o: Pid)
    requires CopiesHeld(s)
    ensures CopyOf(s, o).Keys == Seen(Log(s.world, o)).loaded
  {
  }

  lemma {:induction false} StepHolds(variant: Variant, s: Scene, e: Event, o: Pid)
    requires Enabled(variant, s.world, e) && o in Step(variant, s.world, e).machines
    requires CopyOf(s, o).Keys == Seen(Log(s.world, o)).loaded
    ensures CopyOf(Next(variant, s, Stepped(e)), o).Keys == Seen(Log(Step(variant, s.world, e), o)).loaded
  {
    var a := ActOf(variant, s.world, e);
    NewsArrives(variant, s.world, e.p, a, o);
    if o == e.p {
      HandedLoads(s.chunks, CopyOf(s, o), OwnNews(variant, s.world, o, a), Seen(Log(s.world, o)));
    } else {
      OthersNewsOfChunks(variant, s.world, e.p, a, o);
      LoadedUntouched(Seen(Log(s.world, o)), OthersNews(variant, s.world, e.p, a, o));
    }
  }

  lemma {:induction false} NextHeld(variant: Variant, s: Scene, h: Happening)
    requires Happens(variant, s, h) && CopiesHeld(s)
    ensures CopiesHeld(Next(variant, s, h))
  {
    var s' := Next(variant, s, h);
    if h.Stepped? {
      forall o | o in s'.copies
        ensures s'.copies[o].Keys == Seen(Log(s'.world, o)).loaded
      {
        NobodyHolds(s, o);
        StepHolds(variant, s, h.e, o);
      }
    }
  }

  lemma {:induction false} CopiesAreHeld(variant: Variant, hs: seq<Happening>)
    requires Occurs(variant, hs)
    ensures CopiesHeld(After(variant, hs))
    decreases |hs|
  {
    if hs != [] {
      CopiesAreHeld(variant, hs[..|hs| - 1]);
      NextHeld(variant, After(variant, hs[..|hs| - 1]), hs[|hs| - 1]);
    }
  }

  /** As meant, a client in play has copies of exactly the chunks in its square, and is told of a
      block that another breaks if and only if that other stands in it, wherever the block is. */
  lemma {:induction false} ToldExactly(hs: seq<Happening>, o: Pid, q: Pid, b: BlockCoord)
    requires Occurs(Intended, hs) && 0 <= b.y < 256 && o != q
    requires InPlay(After(Intended, hs).world, o) && InPlay(After(Intended, hs).world, q)
    ensures var s := After(Intended, hs); var square := s.world.machines[o].Square();
      && (forall c :: c in CopyOf(s, o) <==> square.Contains(c))
      && (Told(s, q, b, o) <==> Breaks(s, b) && square.Contains(s.world.machines[q].Home()))
  {
    PlayersRun(Intended, hs);
    IndexIsExact(StepsOf(hs));
    ClientsHoldSubscriptions(StepsOf(hs), o);
    CopiesAreHeld(Intended, hs);
    var s := After(Intended, hs);
    forall c
      ensures c in CopyOf(s, o) <==> s.world.machines[o].Square().Contains(c)
    {
      assert c in CopyOf(s, o) <==> c in CopyOf(s, o).Keys;
    }
  }

  lemma {:induction false} OneMoreHappens(variant: Variant, hs: seq<Happening>, h: Happening)
    requires Occurs(variant, hs) && Happens(variant, After(variant, hs), h)
    ensures Occurs(variant, hs + [h]) && After(variant, hs + [h]) == Next(variant, After(variant, hs), h)
    ensures forall o, b: BlockCoord :: 0 <= b.y < 256 ==>
      Missed(variant, hs + [h], o, b) == MissedAfter(variant, After(variant, hs), h, o, b, Missed(variant, hs, o, b))
  {
    assert (hs + [h])[..|hs|] == hs;
  }

  /** No dig by another repairs what was missed, not even one next to the client: the block is air
      already, so nobody is told. */
  lemma {:induction false} OthersDigsRepairNothing(variant: Variant, hs: seq<Happening>, o: Pid, q: Pid, b: BlockCoord)
    requires Occurs(variant, hs) && 0 <= b.y < 256 && Missed(variant, hs, o, b) && o != q
    requires ToChunk(b) in CopyOf(After(variant, hs), o) && InPlay(After(variant, hs).world, q)
    ensures Occurs(variant, hs + [Digs(q, b)]) && Missed(variant, hs + [Digs(q, b)], o, b)
  {
    CopiesExactly(variant, hs, o, b);
    OneMoreHappens(variant, hs, Digs(q, b));
  }

  /** A run without digs. */
  function Untouched(es: seq<Event>): (hs: seq<Happening>)
    ensures |hs| == |es| && forall i :: 0 <= i < |es| ==> hs[i] == Stepped(es[i])
  {
    seq(|es|, i requires 0 <= i < |es| => Stepped(es[i]))
  }

  lemma {:induction false} HandedGenerated(chunks: ChunkMap, copy: Copies, ks: seq<Packet>)
    requires forall c :: c in chunks ==> chunks[c] == GeneratedChunk()
    ensures forall c :: c in Handed(chunks, copy, ks).0 ==> Handed(chunks, copy, ks).0[c] == GeneratedChunk()
    decreases ks
  {
    if ks != [] {
      var one := HandedOne(chunks, copy, ks[0]);
      HandedGenerated(one.0, one.1, ks[1..]);
    }
  }

  lemma {:induction false} UntouchedIsGenerated(variant: Variant, es: seq<Event>)
    requires Possible(variant, es)
    ensures Occurs(variant, Untouched(es)) && After(variant, Untouched(es)).world == Run(variant, es)
    ensures var chunks := After(variant, Untouched(es)).chunks;
      forall c :: c in chunks ==> chunks[c] == GeneratedChunk()
    decreases |es|
  {
    if es != [] {
      var before, e := es[..|es| - 1], es[|es| - 1];
      assert Untouched(es)[..|es| - 1] == Untouched(before);
      UntouchedIsGenerated(variant, before);
      var s := After(variant, Untouched(before));
      HandedGenerated(s.chunks, CopyOf(s, e.p), OwnNews(variant, s.world, e.p, ActOf(variant, s.world, e)));
    }
  }
}
