/** A concrete run in which a client goes on seeing a block that was broken from afar. */
module WorldDigRun {
  import opened Coords
  import opened Variants
  import opened Chunks
  import opened World
  import opened WorldIndex
  import opened WorldBlocks
  import WorldWritten
  import Runs = WorldRuns

  /** The grass at the corner of the chunk where players enter. */
  const GRASS := BlockCoord(0, 15, 0)

  lemma {:induction false} GrassIsThere()
    ensures ToChunk(GRASS) == ChunkCoord(0, 0)
    ensures BlockAt(GeneratedChunk().sections, GRASS) == GRASS_BLOCK
  {
    LowFour(0);
    GeneratedIsTerrain(15, ToLocal(GRASS).z, ToLocal(GRASS).x);
  }

  lemma {:induction false} Parted(es: seq<Event>, ss: seq<Runs.Sketch>, m0: Machine, m1: Machine) returns (w: World)
    requires Runs.Tells(es, ss) && ss[|es|].machines == map[0 := m0, 1 := m1]
    ensures Possible(Written, es) && w == Run(Written, es) && Indexed(w) && AllHold(w)
    ensures w.machines == map[0 := m0, 1 := m1]
  {
    w := Runs.ThenWritten(es, ss, Connected(2));
    Runs.ToldRun(es, ss);
    WorldWritten.WrittenRunAgrees(es);
  }

  lemma {:induction false} FarDig(es: seq<Event>, w: World)
    requires Possible(Written, es) && w == Run(Written, es) && Indexed(w) && AllHold(w)
    requires InPlay(w, 0) && w.machines[0].Home() == ChunkCoord(62, 0)
    requires InPlay(w, 1) && w.machines[1].Home() == ChunkCoord(0, 0) && w.machines[1].viewDistance == 2
    ensures var hs := Untouched(es) + [Digs(0, GRASS)]; Occurs(Written, hs) && MissesGrass(hs)
  {
    var hs := Untouched(es);
    UntouchedIsGenerated(Written, es);
    FarFrom(hs, w);
    OneMoreHappens(Written, hs, Digs(0, GRASS));
    RunAgrees(Written, hs + [Digs(0, GRASS)], 1, GRASS);
  }

  /** The second player's copy shows the grass where the store has air. */
  predicate MissesGrass(hs: seq<Happening>)
    requires Occurs(Written, hs)
  {
    var s, c := After(Written, hs), ToChunk(GRASS);
    && Missed(Written, hs, 1, GRASS) && c in CopyOf(s, 1) && c in s.chunks
    && BlockAt(s.chunks[c].sections, GRASS) == AIR && BlockAt(CopyOf(s, 1)[c], GRASS) != AIR
  }

  /** The first digs in the other's chunk from where it is: the other is not subscribed to the
      digger's chunk, and its copy keeps the block. */
  lemma {:induction false} FarDigRun()
    ensures var hs := Untouched(Runs.PARTED) + [Digs(0, GRASS)]; Occurs(Written, hs) && MissesGrass(hs)
  {
    Runs.AfarIsFar();
    Runs.PlayingAt("a", 1);
    Runs.PlayingAt("b", 2);
    var ss := Runs.Parting();
    var w := Parted(Runs.PARTED, ss, Runs.Playing("a", 1).(position := Runs.AFAR), Runs.Playing("b", 2));
    FarDig(Runs.PARTED, w);
  }

  lemma {:induction false} FarFrom(hs: seq<Happening>, w: World)
    requires Occurs(Written, hs) && After(Written, hs).world == w && Indexed(w) && AllHold(w)
    requires InPlay(w, 0) && w.machines[0].Home() == ChunkCoord(62, 0)
    requires InPlay(w, 1) && w.machines[1].Home() == ChunkCoord(0, 0) && w.machines[1].viewDistance == 2
    requires var chunks := After(Written, hs).chunks; forall c :: c in chunks ==> chunks[c] == GeneratedChunk()
    ensures var s := After(Written, hs);
      && ChunkCoord(0, 0) in CopyOf(s, 1) && Breaks(s, GRASS) && !Told(s, 0, GRASS, 1)
      && ToChunk(GRASS) in CopyOf(Next(Written, s, Digs(0, GRASS)), 1)
  {
    var s := After(Written, hs);
    GrassIsThere();
    CopiesAreHeld(Written, hs);
    assert HoldsSquare(w, 1) && w.machines[1].Square().Contains(ChunkCoord(0, 0));
    assert ChunkCoord(0, 0) in s.copies[1].Keys;
    RunAgrees(Written, hs, 1, GRASS);
  }
}
