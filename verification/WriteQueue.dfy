/** The double-buffered asynchronous write queue of a connection:
    source/common/net/tcpserver.cpp. Handlers run one at a time on the connection's strand. */
module WriteQueue {
  import opened Numbers

  /** A handler posted to the strand and not yet run. */
  datatype Task = SendTask(buffer: Bytes) | DisconnectTask

  /** A connection. `written` is what reached the socket; `enqueued`, `atDisconnect` and
      `atClose` are history: the bytes of every sendImpl so far, and their value at the first
      disconnectImpl and at the close. */
  datatype Conn = Conn(
    strand: seq<Task>,
    append: seq<Bytes>,
    active: seq<Bytes>,
    disconnectMarker: bool,
    closed: bool,
    written: Bytes,
    enqueued: Bytes,
    atDisconnect: Option<Bytes>,
    atClose: Option<Bytes>)

  const FRESH_CONN := Conn([], [], [], false, false, [], [], None, None)

  function Flat(buffers: seq<Bytes>): Bytes {
    if buffers == [] then [] else buffers[0] + Flat(buffers[1..])
  }

  lemma {:induction false} FlatSnoc(buffers: seq<Bytes>, b: Bytes)
    ensures Flat(buffers + [b]) == Flat(buffers) + b
  {
    if buffers == [] {
      assert ([] + [b])[1..] == [];
    } else {
      assert (buffers + [b])[1..] == buffers[1..] + [b];
      FlatSnoc(buffers[1..], b);
    }
  }

  // ---- The handlers ----

  function CloseSocket(c: Conn): Conn {
    if c.closed then c else c.(closed := true, atClose := Some(c.enqueued))
  }

  /** startWrite: nothing to append closes a marked connection; otherwise the queues swap and
      an asynchronous write of the active one begins. */
  function StartWrite(c: Conn): Conn {
    if c.append == [] then
      if c.disconnectMarker then CloseSocket(c) else c
    else c.(active := c.append, append := c.active)
  }

  function SendImpl(c: Conn, buffer: Bytes): Conn {
    var c' := c.(append := c.append + [buffer], enqueued := c.enqueued + buffer);
    if c.active != [] then c' else StartWrite(c')
  }

  function DisconnectImpl(c: Conn): Conn {
    var c' := c.(disconnectMarker := true,
                 atDisconnect := if c.atDisconnect.None? then Some(c.enqueued) else c.atDisconnect);
    if c.active == [] then CloseSocket(c') else c'
  }

  /** The completion handler of the write in flight. */
  function OnWritten(c: Conn, ok: bool): Conn {
    if ok then StartWrite(c.(active := [], written := c.written + Flat(c.active)))
    else c.(active := [])
  }

  /** One step: a call of send or disconnect from anywhere, or the strand running its next
      handler or the completion of the write in flight. */
  datatype Event = Send(buffer: Bytes) | Disconnect | RunTask | Complete(ok: bool)

  predicate Enabled(c: Conn, e: Event) {
    match e
    case RunTask => c.strand != []
    case Complete(ok) => c.active != []
    case _ => true
  }

  function Step(c: Conn, e: Event): Conn
    requires Enabled(c, e)
  {
    match e
    case Send(buffer) => if c.disconnectMarker then c else c.(strand := c.strand + [SendTask(buffer)])
    case Disconnect => c.(strand := c.strand + [DisconnectTask])
    case RunTask => (
      var c' := c.(strand := c.strand[1..]);
      match c.strand[0]
      case SendTask(buffer) => SendImpl(c', buffer)
      case DisconnectTask => DisconnectImpl(c'))
    case Complete(ok) => OnWritten(c, ok)
  }

  // ---- Invariants over every run ----

  function Queued(c: Conn): Bytes {
    Flat(c.active) + Flat(c.append)
  }

  ghost predicate Inv(c: Conn) {
    // Nothing is lost, doubled or reordered.
    && (!c.closed ==> c.written + Queued(c) == c.enqueued && c.atClose.None?)
    && (!c.closed && c.active == [] ==> c.append == [])
    // A marked connection without a write in flight is closed.
    && (c.disconnectMarker && c.active == [] ==> c.closed)
    && (c.disconnectMarker <==> c.atDisconnect.Some?)
    && (c.disconnectMarker ==> c.atDisconnect.value <= c.enqueued)
    // What the socket got by the time it closed is everything enqueued up to then.
    && (c.closed ==> c.disconnectMarker && c.atClose == Some(c.written) && c.atDisconnect.value <= c.written)
  }

  /** No write fails before the close; after it every write does. */
  predicate Healthy(c: Conn, e: Event) {
    e.Complete? ==> e.ok == !c.closed
  }

  lemma {:induction false} SendKeepsInv(c: Conn, buffer: Bytes)
    requires Inv(c)
    ensures Inv(SendImpl(c, buffer))
  {
    FlatSnoc(c.append, buffer);
    if c.active == [] && !c.closed {
      assert Flat([buffer]) == buffer + Flat([]) by {
        assert [buffer][1..] == [];
      }
      assert c.append + [buffer] == [buffer];
    }
    Regroup(c.written, Queued(c), buffer);
    Regroup(Flat(c.active), Flat(c.append), buffer);
  }

  lemma {:induction false} WrittenKeepsInv(c: Conn)
    requires Inv(c) && c.active != [] && !c.closed
    ensures Inv(OnWritten(c, true))
  {
    var c' := c.(active := [], written := c.written + Flat(c.active));
    Regroup(c.written, Flat(c.active), Flat(c.append));
    assert Flat([]) + Flat(c.append) == Flat(c.append) == Flat(c.append) + Flat([]);
    assert c'.written + Queued(c') == c.enqueued;
    if c.append == [] {
      assert c'.written + [] == c'.written;
    }
  }

  lemma {:induction false} DisconnectKeepsInv(c: Conn)
    requires Inv(c)
    ensures Inv(DisconnectImpl(c))
  {
    if c.active == [] && !c.closed {
      assert c.written + ([] + []) == c.written;
    }
  }

  lemma {:induction false} StepKeepsInv(c: Conn, e: Event)
    requires Inv(c) && Enabled(c, e) && Healthy(c, e)
    ensures Inv(Step(c, e))
  {
    match e
    case RunTask =>
      var c' := c.(strand := c.strand[1..]);
      match c.strand[0] {
        case SendTask(buffer) => SendKeepsInv(c', buffer);
        case DisconnectTask => DisconnectKeepsInv(c');
      }
    case Complete(ok) =>
      if !c.closed {
        WrittenKeepsInv(c);
      }
    case _ =>
  }

  ghost predicate HealthyRun(c: Conn, es: seq<Event>)
    decreases |es|
  {
    es != [] ==> Enabled(c, es[0]) && Healthy(c, es[0]) && HealthyRun(Step(c, es[0]), es[1..])
  }

  ghost function RunFrom(c: Conn, es: seq<Event>): Conn
    requires HealthyRun(c, es)
    decreases |es|
  {
    if es == [] then c else RunFrom(Step(c, es[0]), es[1..])
  }

  /** Over every run without write errors: written, active and appended bytes are what was
      enqueued, in order; and a closed connection has written everything enqueued before the
      close, in particular everything enqueued before the disconnect. */
  lemma {:induction false} RunConserves(c: Conn, es: seq<Event>)
    requires Inv(c) && HealthyRun(c, es)
    ensures Inv(RunFrom(c, es))
    decreases |es|
  {
    if es != [] {
      StepKeepsInv(c, es[0]);
      RunConserves(Step(c, es[0]), es[1..]);
    }
  }

  lemma {:induction false} FreshRunConserves(es: seq<Event>)
    requires HealthyRun(FRESH_CONN, es)
    ensures var c := RunFrom(FRESH_CONN, es);
      && (!c.closed ==> c.written + Flat(c.active) + Flat(c.append) == c.enqueued)
      && (c.closed ==> c.atClose == Some(c.written) && c.atDisconnect.Some? && c.atDisconnect.value <= c.written)
  {
    assert FRESH_CONN.written + Queued(FRESH_CONN) == [];
    RunConserves(FRESH_CONN, es);
    var c := RunFrom(FRESH_CONN, es);
    Regroup(c.written, Flat(c.active), Flat(c.append));
  }

  /** Once the socket closed nothing more is written to it. */
  lemma {:induction false} ClosedStaysDrained(c: Conn, es: seq<Event>)
    requires Inv(c) && c.closed && HealthyRun(c, es)
    ensures RunFrom(c, es).closed && RunFrom(c, es).written == c.written
    decreases |es|
  {
    if es != [] {
      StepKeepsInv(c, es[0]);
      ClosedStaysDrained(Step(c, es[0]), es[1..]);
    }
  }

  // ---- What this means for the callers of send ----

  /** The sends of a run before the first call of disconnect. */
  function SentBefore(es: seq<Event>): Bytes
    decreases |es|
  {
    if es == [] || es[0].Disconnect? then []
    else (if es[0].Send? then es[0].buffer else []) + SentBefore(es[1..])
  }

  /** The sends of a run that are not discarded. */
  ghost function Accepted(c: Conn, es: seq<Event>): Bytes
    requires HealthyRun(c, es)
    decreases |es|
  {
    if es == [] then []
    else (if es[0].Send? && !c.disconnectMarker then es[0].buffer else []) + Accepted(Step(c, es[0]), es[1..])
  }

  /** The bytes on their way to the queues. */
  function OnStrand(strand: seq<Task>): Bytes {
    if strand == [] then [] else (if strand[0].SendTask? then strand[0].buffer else []) + OnStrand(strand[1..])
  }

  /** Those that are ahead of the first disconnect. */
  function Ahead(strand: seq<Task>): Bytes {
    if strand == [] || strand[0].DisconnectTask? then [] else strand[0].buffer + Ahead(strand[1..])
  }

  lemma {:induction false} OnStrandSnoc(strand: seq<Task>, t: Task)
    ensures OnStrand(strand + [t]) == OnStrand(strand) + if t.SendTask? then t.buffer else []
  {
    if strand == [] {
      assert ([] + [t])[1..] == [];
    } else {
      assert (strand + [t])[1..] == strand[1..] + [t];
      OnStrandSnoc(strand[1..], t);
    }
  }

  lemma {:induction false} AheadSnoc(strand: seq<Task>, t: Task)
    ensures Ahead(strand + [t]) == Ahead(strand) + if t.SendTask? && DisconnectTask !in strand then t.buffer else []
  {
    if strand == [] {
      assert ([] + [t])[1..] == [];
    } else {
      assert (strand + [t])[1..] == strand[1..] + [t];
      if strand[0].SendTask? {
        AheadSnoc(strand[1..], t);
      }
    }
  }

  lemma {:induction false} AcceptedStep(c: Conn, e: Event)
    requires Enabled(c, e)
    ensures var c' := Step(c, e);
      c'.enqueued + OnStrand(c'.strand)
      == c.enqueued + OnStrand(c.strand) + if e.Send? && !c.disconnectMarker then e.buffer else []
  {
    match e
    case Send(buffer) => OnStrandSnoc(c.strand, SendTask(buffer));
    case Disconnect => OnStrandSnoc(c.strand, DisconnectTask);
    case RunTask =>
      if c.strand[0].SendTask? {
        Regroup(c.enqueued, c.strand[0].buffer, OnStrand(c.strand[1..]));
      }
    case Complete(_) =>
  }

  lemma {:induction false} AcceptedExactly(c: Conn, es: seq<Event>)
    requires HealthyRun(c, es)
    ensures var c' := RunFrom(c, es);
      c'.enqueued + OnStrand(c'.strand) == c.enqueued + OnStrand(c.strand) + Accepted(c, es)
    decreases |es|
  {
    if es != [] {
      AcceptedStep(c, es[0]);
      AcceptedExactly(Step(c, es[0]), es[1..]);
      Regroup(c.enqueued + OnStrand(c.strand), if es[0].Send? && !c.disconnectMarker then es[0].buffer else [],
              Accepted(Step(c, es[0]), es[1..]));
    }
  }

  /** What has reached the socket is always a beginning of what was accepted: in order, with no
      byte missing or doubled. */
  lemma {:induction false} WrittenIsBeginning(es: seq<Event>)
    requires HealthyRun(FRESH_CONN, es)
    ensures RunFrom(FRESH_CONN, es).written <= Accepted(FRESH_CONN, es)
  {
    var c := RunFrom(FRESH_CONN, es);
    assert FRESH_CONN.written + Queued(FRESH_CONN) == [];
    RunConserves(FRESH_CONN, es);
    EnqueuedCovers(FRESH_CONN, es);
    AcceptedExactly(FRESH_CONN, es);
    assert FRESH_CONN.enqueued + OnStrand(FRESH_CONN.strand) + Accepted(FRESH_CONN, es) == Accepted(FRESH_CONN, es);
  }

  /** A connection with no write in flight and nothing on its strand has written all that was
      accepted. */
  lemma {:induction false} IdleWroteAll(es: seq<Event>)
    requires HealthyRun(FRESH_CONN, es)
    ensures var c := RunFrom(FRESH_CONN, es);
      !c.closed && c.active == [] && c.strand == [] ==> c.written == Accepted(FRESH_CONN, es)
  {
    var c := RunFrom(FRESH_CONN, es);
    assert FRESH_CONN.written + Queued(FRESH_CONN) == [];
    RunConserves(FRESH_CONN, es);
    AcceptedExactly(FRESH_CONN, es);
    assert FRESH_CONN.enqueued + OnStrand(FRESH_CONN.strand) + Accepted(FRESH_CONN, es) == Accepted(FRESH_CONN, es);
    if !c.closed && c.active == [] && c.strand == [] {
      assert c.enqueued + [] == c.enqueued && c.written + ([] + []) == c.written;
    }
  }

  lemma {:induction false} EnqueuedCovers(c: Conn, es: seq<Event>)
    requires Inv(c) && c.written <= c.enqueued && HealthyRun(c, es)
    ensures RunFrom(c, es).written <= RunFrom(c, es).enqueued
    decreases |es|
  {
    if es != [] {
      StepKeepsInv(c, es[0]);
      EnqueuedCoversStep(c, es[0]);
      EnqueuedCovers(Step(c, es[0]), es[1..]);
    }
  }

  lemma {:induction false} EnqueuedCoversStep(c: Conn, e: Event)
    requires Inv(c) && c.written <= c.enqueued && Enabled(c, e) && Healthy(c, e)
    ensures Step(c, e).written <= Step(c, e).enqueued
  {
    var c' := Step(c, e);
    StepKeepsInv(c, e);
    if e.Complete? && !c.closed {
      assert c'.written == c.written + Flat(c.active) && c'.enqueued == c.enqueued;
      Regroup(c.written, Flat(c.active), Flat(c.append));
    }
  }

  /** A disconnect was called. */
  predicate Disconnecting(c: Conn) {
    c.atDisconnect.Some? || DisconnectTask in c.strand
  }

  /** What is enqueued by the time the first disconnect runs. */
  function ByDisconnect(c: Conn): Bytes {
    if c.atDisconnect.Some? then c.atDisconnect.value else c.enqueued + Ahead(c.strand)
  }

  lemma {:induction false} ByDisconnectStep(c: Conn, e: Event)
    requires Inv(c) && Enabled(c, e)
    ensures ByDisconnect(Step(c, e)) == ByDisconnect(c) + if e.Send? && !Disconnecting(c) then e.buffer else []
    ensures Disconnecting(Step(c, e)) <==> Disconnecting(c) || e.Disconnect?
  {
    match e
    case Send(buffer) => AheadSnoc(c.strand, SendTask(buffer));
    case Disconnect => AheadSnoc(c.strand, DisconnectTask);
    case RunTask =>
      assert c.strand == [c.strand[0]] + c.strand[1..];
      if c.strand[0].SendTask? {
        Regroup(c.enqueued, c.strand[0].buffer, Ahead(c.strand[1..]));
      }
    case Complete(_) =>
  }

  lemma {:induction false} ByDisconnectExactly(c: Conn, es: seq<Event>)
    requires Inv(c) && HealthyRun(c, es)
    ensures ByDisconnect(RunFrom(c, es)) == ByDisconnect(c) + if Disconnecting(c) then [] else SentBefore(es)
    decreases |es|
  {
    if es != [] {
      var c' := Step(c, es[0]);
      StepKeepsInv(c, es[0]);
      ByDisconnectStep(c, es[0]);
      ByDisconnectExactly(c', es[1..]);
      var buffer := if es[0].Send? && !Disconnecting(c) then es[0].buffer else [];
      Regroup(ByDisconnect(c), buffer, if Disconnecting(c') then [] else SentBefore(es[1..]));
    }
  }

  /** A connection that has closed has written everything that was sent before the first call of
      disconnect, in order, before anything else. */
  lemma {:induction false} DisconnectFlushes(es: seq<Event>)
    requires HealthyRun(FRESH_CONN, es)
    ensures RunFrom(FRESH_CONN, es).closed ==> SentBefore(es) <= RunFrom(FRESH_CONN, es).written
  {
    assert FRESH_CONN.written + Queued(FRESH_CONN) == [];
    RunConserves(FRESH_CONN, es);
    ByDisconnectExactly(FRESH_CONN, es);
    assert ByDisconnect(FRESH_CONN) + SentBefore(es) == SentBefore(es);
  }

  /** While a write is in flight the buffers it was given stay as they are. */
  lemma {:induction false} InFlightStays(c: Conn, es: seq<Event>)
    requires c.active != [] && HealthyRun(c, es) && Completions(es) == 0
    ensures RunFrom(c, es).active == c.active
    decreases |es|
  {
    if es != [] {
      InFlightStays(Step(c, es[0]), es[1..]);
    }
  }

  // ---- How soon the close comes ----

  function PendingSends(strand: seq<Task>): nat {
    if strand == [] then 0 else (if strand[0].SendTask? then 1 else 0) + PendingSends(strand[1..])
  }

  lemma {:induction false} PendingSnoc(strand: seq<Task>, t: Task)
    ensures PendingSends(strand + [t]) == PendingSends(strand) + (if t.SendTask? then 1 else 0)
  {
    if strand == [] {
      assert ([] + [t])[1..] == [];
    } else {
      assert (strand + [t])[1..] == strand[1..] + [t];
      PendingSnoc(strand[1..], t);
    }
  }

  /** An upper bound on the writes still to complete on a marked connection. */
  function WritesLeft(c: Conn): nat {
    (if c.active != [] then 1 else 0) + (if c.append != [] then 1 else 0) + PendingSends(c.strand)
  }

  lemma {:induction false} WritesLeftStep(c: Conn, e: Event)
    requires Inv(c) && c.disconnectMarker && !c.closed && Enabled(c, e) && Healthy(c, e)
    ensures var c' := Step(c, e);
      && c'.disconnectMarker && WritesLeft(c') <= WritesLeft(c)
      && (e.Complete? ==> c'.closed || WritesLeft(c') < WritesLeft(c))
  {
    PendingSnoc(c.strand, DisconnectTask);
  }

  function Completions(es: seq<Event>): nat {
    if es == [] then 0 else (if es[0].Complete? then 1 else 0) + Completions(es[1..])
  }

  /** A marked connection closes by the time that many writes have completed: two when no send
      is still on its way to the strand. */
  lemma {:induction false} ClosesInTime(c: Conn, es: seq<Event>)
    requires Inv(c) && c.disconnectMarker && HealthyRun(c, es) && Completions(es) >= WritesLeft(c)
    ensures RunFrom(c, es).closed
    ensures PendingSends(c.strand) == 0 ==> WritesLeft(c) <= 2
    decreases |es|
  {
    if c.closed {
      ClosedStaysDrained(c, es);
    } else if es != [] {
      WritesLeftStep(c, es[0]);
      StepKeepsInv(c, es[0]);
      var c' := Step(c, es[0]);
      if c'.closed {
        ClosedStaysDrained(c', es[1..]);
      } else {
        ClosesInTime(c', es[1..]);
      }
    }
  }

  /** What a failed write breaks, exactly: bytes are lost when the write carried any, and the
      append queue is left without a write in flight when it held anything. */
  lemma {:induction false} FailureExactly(c: Conn)
    requires Inv(c) && !c.closed && c.active != []
    ensures var c' := OnWritten(c, false);
      && (c'.written + Queued(c') == c'.enqueued <==> Flat(c.active) == [])
      && ((c'.active == [] ==> c'.append == []) <==> c.append == [])
  {
    var a, b := Flat(c.active), Flat(c.append);
    assert |c.written + Queued(c)| == |c.written| + |a| + |b|;
    assert Flat([]) + b == b;
    if a == [] {
      assert [] + b == b;
    }
  }

  // ---- The class ----

  class TcpServerConnection {
    var strand: seq<Task>
    var appendWriteQueue: seq<Bytes>
    var activeWriteQueue: seq<Bytes>
    var disconnectMarker: bool
    var closed: bool
    var written: Bytes
    ghost var enqueued: Bytes
    ghost var atDisconnect: Option<Bytes>
    ghost var atClose: Option<Bytes>

    ghost function State(): Conn
      reads this
    {
      Conn(strand, appendWriteQueue, activeWriteQueue, disconnectMarker, closed, written, enqueued, atDisconnect,
          atClose)
    }

    constructor ()
      ensures State() == FRESH_CONN
    {
      strand, appendWriteQueue, activeWriteQueue := [], [], [];
      disconnectMarker, closed, written := false, false, [];
      enqueued, atDisconnect, atClose := [], None, None;
    }

    method Close()
      modifies this
      ensures State() == CloseSocket(old(State()))
    {
      if !closed {
        atClose := Some(enqueued);
      }
      closed := true;
    }

    method StartTheWrite()
      modifies this
      ensures State() == StartWrite(old(State()))
    {
      if appendWriteQueue == [] {
        if disconnectMarker {
          Close();
        }
        return;
      }
      activeWriteQueue, appendWriteQueue := appendWriteQueue, activeWriteQueue;
    }

    method RunSend(buffer: Bytes)
      modifies this
      ensures State() == SendImpl(old(State()), buffer)
    {
      appendWriteQueue := appendWriteQueue + [buffer];
      enqueued := enqueued + buffer;
      if activeWriteQueue != [] {
        return;
      }
      StartTheWrite();
    }

    method RunDisconnect()
      modifies this
      ensures State() == DisconnectImpl(old(State()))
    {
      disconnectMarker := true;
      atDisconnect := if atDisconnect.None? then Some(enqueued) else atDisconnect;
      if activeWriteQueue == [] {
        Close();
      }
    }

    /** The handler async_write was given. */
    method WriteCompleted(ok: bool)
      requires activeWriteQueue != []
      modifies this
      ensures State() == Step(old(State()), Complete(ok))
    {
      var sent := Flat(activeWriteQueue);
      activeWriteQueue := [];
      if ok {
        written := written + sent;
        StartTheWrite();
      }
    }

    method PostSend(buffer: Bytes)
      modifies this
      ensures State() == Step(old(State()), Send(buffer))
    {
      if disconnectMarker {
        return;
      }
      strand := strand + [SendTask(buffer)];
    }

    method PostDisconnect()
      modifies this
      ensures State() == Step(old(State()), Disconnect)
    {
      strand := strand + [DisconnectTask];
    }

    /** The strand runs its next handler. */
    method RunNext()
      requires strand != []
      modifies this
      ensures State() == Step(old(State()), RunTask)
    {
      var task := strand[0];
      strand := strand[1..];
      match task
      case SendTask(buffer) => RunSend(buffer);
      case DisconnectTask => RunDisconnect();
    }
  }
}
