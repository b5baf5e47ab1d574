/** Bytes that arrive for a player: source/proxyd/proxyserver.hpp, and the packet reader that each
    state machine owns. */
module Gateway {
  import opened Numbers
  import opened Tracker
  import opened World
  import opened WorldIndex
  import opened Server
  import opened Variants
  import Framing
  import Protocol

  /** Handling one frame more. */
  lemma {:induction false} HearsOneMore(
      variant: Variant, w: World, p: Pid, frames: seq<Framing.Frame>, orders: seq<seq<Pid>>, toReal: nat -> real,
      w': World, f: Framing.Frame, order: seq<Pid>)
    requires |orders| == |frames| && Protocol.Hears(variant, w, p, frames, orders, toReal) == Some(w')
        && p in w'.machines
    requires Enabled(variant, w', Received(p, Protocol.Understood(w'.machines[p].phase, f, toReal), order))
    ensures Protocol.Hears(variant, w, p, frames + [f], orders + [order], toReal)
         == Some(Step(variant, w', Received(p, Protocol.Understood(w'.machines[p].phase, f, toReal), order)))
    decreases |frames|
  {
    if frames != [] {
      var e := Received(p, Protocol.Understood(w.machines[p].phase, frames[0], toReal), orders[0]);
      assert (frames + [f])[1..] == frames[1..] + [f] && (orders + [order])[1..] == orders[1..] + [order];
      HearsOneMore(variant, Step(variant, w, e), p, frames[1..], orders[1..], toReal, w', f, order);
    } else {
      assert (frames + [f])[1..] == [] && (orders + [order])[1..] == [];
    }
  }

  lemma {:induction false} ReceivedKeeps(variant: Variant, w: World, p: Pid, packet: Incoming, order: seq<Pid>)
    requires MembersExact(w) && Enabled(variant, w, Received(p, packet, order))
    ensures MembersExact(Step(variant, w, Received(p, packet, order)))
    ensures p in Step(variant, w, Received(p, packet, order)).machines
  {
    var e := Received(p, packet, order);
    ActsInPhase(variant, w, e);
    ActKeepsMembers(variant, w, p, ActOf(variant, w, e));
  }

  /** A frame is deserialized as the phase its player is in has it, and handled. */
  method OnPacket(server: ProxyServer, p: Pid, frame: Framing.Frame, toReal: nat -> real) returns (order: seq<Pid>)
    requires server.Valid() && p in server.machines && MembersExact(server.State())
    modifies server, server.tracker
    ensures server.Valid() && p in server.machines && MembersExact(server.State())
    ensures var w := old(server.State());
      var e := Received(p, Protocol.Understood(w.machines[p].phase, frame, toReal), order);
      Enabled(server.variant, w, e) && server.State() == Step(server.variant, w, e)
  {
    ghost var w := server.State();
    var packet := Protocol.Understand(server.machines[p].phase, frame, toReal);
    order := server.Deliver(p, packet);
    ReceivedKeeps(server.variant, w, p, packet, order);
  }

  /** The callback, for each frame that was completed. */
  method OnPackets(server: ProxyServer, p: Pid, frames: seq<Framing.Frame>, toReal: nat -> real)
    returns (orders: seq<seq<Pid>>)
    requires server.Valid() && p in server.machines && MembersExact(server.State())
    modifies server, server.tracker
    ensures server.Valid() && p in server.machines && MembersExact(server.State()) && |orders| == |frames|
    ensures Protocol.Hears(server.variant, old(server.State()), p, frames, orders, toReal) == Some(server.State())
  {
    ghost var w := server.State();
    orders := [];
    for i := 0 to |frames|
      invariant server.Valid() && p in server.machines && MembersExact(server.State()) && |orders| == i
      invariant Protocol.Hears(server.variant, w, p, frames[..i], orders, toReal) == Some(server.State())
    {
      ghost var w' := server.State();
      var order := OnPacket(server, p, frames[i], toReal);
      HearsOneMore(server.variant, w, p, frames[..i], orders, toReal, w', frames[i], order);
      assert frames[..i + 1] == frames[..i] + [frames[i]];
      orders := orders + [order];
    }
    assert frames[..|frames|] == frames;
  }

  lemma {:induction false} NewPackets(g: Framing.Reading, r: Framing.ReaderState, data: Bytes)
    ensures r.packets <= Framing.Receive(g, r, data).packets
  {
  }

  /** onBytesReceived: the bytes go through the player's reader, and its machine handles each frame
      that is completed, in order. The callbacks run inside the reader's loop; as they do not touch
      the reader, they are called behind it here. An error only marks the connection for closing. */
  method OnBytesReceived(server: ProxyServer, reader: Framing.PacketReader, p: Pid, data: Bytes, toReal: nat -> real)
    returns (frames: seq<Framing.Frame>, orders: seq<seq<Pid>>)
    requires server.Valid() && p in server.machines && MembersExact(server.State())
    modifies server, server.tracker, reader, reader.readBuffer
    ensures server.Valid() && p in server.machines && MembersExact(server.State())
    ensures reader.State() == Framing.Receive(reader.reading, old(reader.State()), data)
    ensures reader.packets == old(reader.packets) + frames && |orders| == |frames|
    ensures Protocol.Hears(server.variant, old(server.State()), p, frames, orders, toReal) == Some(server.State())
  {
    var known := |reader.packets|;
    NewPackets(reader.reading, reader.State(), data);
    reader.OnBytesReceived(data);
    frames := reader.packets[known..];
    orders := OnPackets(server, p, frames, toReal);
  }
}
