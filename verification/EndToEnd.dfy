/** From the players to the bytes their clients read: the views of the players joined to the write
    queue and the client's reader. */
module EndToEnd {
  import opened Numbers
  import opened Variants
  import opened Tracker
  import opened World
  import opened WorldIndex
  import opened WorldViews
  import Q = WriteQueue
  import D = Downstream
  import Protocol
  import Client
  import Coords
  import VarInt
  import Schema
  import Framing
  import Chunks
  import ChunkWire
  import WorldBlocks
  import PacketTable

  /** A connection has been given the packets of a player's log, among others that say nothing of the
      players, and its strand and writes have run this far without failing. */
  ghost predicate Carried(w: World, o: Pid, es: seq<Q.Event>, said: seq<Protocol.Said>, s: D.Senses) {
    && D.Fit(said) && D.AllWritable(D.Framed(said)) && D.Means(false, said, s) == Some(Log(w, o))
    && Q.HealthyRun(Q.FRESH_CONN, es) && Q.Accepted(Q.FRESH_CONN, es) == D.WireBytes(D.Framed(said))
  }

  /** Nothing is left to write. */
  predicate Idle(c: Q.Conn) {
    !c.closed && c.active == [] && c.strand == []
  }

  lemma {:induction false} LogHeard(w: World, o: Pid, es: seq<Q.Event>, said: seq<Protocol.Said>, s: D.Senses)
    requires Carried(w, o, es, said, s)
    ensures var c := Q.RunFrom(Q.FRESH_CONN, es);
      && D.Heard(false, D.Taken(c.written), s).Some?
      && D.Heard(false, D.Taken(c.written), s).value <= Log(w, o)
      && (Idle(c) ==> D.Heard(false, D.Taken(c.written), s).value == Log(w, o))
  {
    D.ClientHears(es, said, s);
    assert said[..|said|] == said;
  }

  /** What a client draws from the bytes that were written is the picture after a beginning of its
      log. Once the connection is idle the client knows exactly the players in sight, as long as its
      own acts did not change what it sees, and in play holds exactly the chunks of its square. */
  lemma {:induction false} ClientSees(events: seq<Event>, o: Pid, es: seq<Q.Event>, said: seq<Protocol.Said>,
      s: D.Senses)
    requires Possible(Intended, events) && o in Run(Intended, events).machines
    requires Carried(Run(Intended, events), o, es, said, s)
    ensures var w := Run(Intended, events);
      var c := Q.RunFrom(Q.FRESH_CONN, es);
      && D.Heard(false, D.Taken(c.written), s).Some?
      && var heard := D.Heard(false, D.Taken(c.written), s).value;
      && heard <= Log(w, o)
      && (Idle(c) && SightKept(events, o) ==> Pictures(w, o, Seen(heard)))
      && (Idle(c) && InPlay(w, o) ==>
           forall at :: at in Seen(heard).loaded <==> w.machines[o].Square().Contains(at))
  {
    LogHeard(Run(Intended, events), o, es, said, s);
    if SightKept(events, o) {
      ViewsAreExact(events, o);
    }
    if InPlay(Run(Intended, events), o) {
      ClientsHoldSubscriptions(events, o);
    }
  }

  /** From the store to a client: after any run of the players and of digs, the frame of a stored
      chunk, whatever is behind it and however long it is, is taken off the stream whole, is understood
      as that chunk, and reads as the sections in the store and the generated heights. */
  lemma {:induction false} StoredChunkTaken(
      variant: Variant, hs: seq<WorldBlocks.Happening>, at: Coords.ChunkCoord, more: Bytes, s: D.Senses)
    requires WorldBlocks.Occurs(variant, hs) && at in WorldBlocks.After(variant, hs).chunks && ChunkWire.InInt32(at)
    ensures var c := WorldBlocks.After(variant, hs).chunks[at];
      var p, vs := PacketTable.CHUNK_DATA, ChunkWire.ChunkValues(at, c);
      && Schema.FitAll(p.fields, vs)
      && D.TakeFrame(ChunkWire.ChunkFrame(at, c) + more)
         == VarInt.Ok(Framing.Frame(p.id, Schema.PayloadBytes(p.fields, vs)), more)
      && Schema.ParsePayload(p.fields, Schema.PayloadBytes(p.fields, vs)) == Some(vs)
      && D.Made(p, vs, s) == [Client.ChunkData(at)]
      && ChunkWire.ReadChunk(vs)
         == Some(ChunkWire.ClientChunk(at.x, at.z, true, ChunkWire.Plain(c.sections),
                                       Chunks.GeneratedChunk().biomes, Chunks.GeneratedChunk().heights, 0))
  {
    var ops := WorldBlocks.StoreIsRun(variant, hs);
    var c := WorldBlocks.After(variant, hs).chunks[at];
    ChunkWire.StoredChunkRead(ops, at);
    ChunkTaken(at, c, more, s);
  }

  lemma {:induction false} ChunkTaken(at: Coords.ChunkCoord, c: Chunks.Chunk, more: Bytes, s: D.Senses)
    requires ChunkWire.InInt32(at)
    ensures var p, vs := PacketTable.CHUNK_DATA, ChunkWire.ChunkValues(at, c);
      && Schema.FitAll(p.fields, vs)
      && D.TakeFrame(ChunkWire.ChunkFrame(at, c) + more)
         == VarInt.Ok(Framing.Frame(p.id, Schema.PayloadBytes(p.fields, vs)), more)
      && D.Made(p, vs, s) == [Client.ChunkData(at)]
  {
    var p, vs := PacketTable.CHUNK_DATA, ChunkWire.ChunkValues(at, c);
    ChunkWire.ChunkPayloadLength(at, c);
    VarInt.LebRange(ToUInt32(p.id));
    D.TakeBack(Framing.Frame(p.id, Schema.PayloadBytes(p.fields, vs)), more);
    assert ChunkWire.ChunkFrame(at, c) == D.BytesOf(Framing.Frame(p.id, Schema.PayloadBytes(p.fields, vs)));
  }
}
