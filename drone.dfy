/**
 * Drone: the client object of drone.go.
 *
 * A `Drone` holds the command connection, the set of commands in flight,
 * the last reply, the last telemetry snapshot, the log of dispatched events
 * and the two once-flags that pair Start with Close.  Its methods do what the
 * Go methods do, one step at a time; sockets, goroutines, the condition
 * variable and the clock are replaced by parameters that say what the
 * outside world did (which datagrams arrived, whether a write succeeded,
 * how long a command waited and whether the drone was closed meanwhile).
 */
module Drone {
  import opened Text
  import opened Commands
  import T = Telemetry
  import V = Video

  /** What the client's event dispatcher is handed, oldest first. */
  datatype Event =
    | StateUpdate(state: T.State)   // the new snapshot
    | VideoFrame(frame: seq<Byte>)  // one reassembled frame
    | Named(name: string)           // an event without payload (take.off, land)
  {
    /** The name the event is dispatched under. */
    function Name(): string {
      match this
      case StateUpdate(_) => StateEvent
      case VideoFrame(_) => VideoPacketEvent
      case Named(name) => name
    }
  }

  /** The outcome of one Read on a UDP connection. */
  datatype Read = Datagram(bytes: seq<Byte>) | ReadFailed

  /** How a command's wait for its reply ended: the datagrams the response
      reader took in meanwhile, the milliseconds from the wait's start to
      the check of the command's context, and, when the drone was closed
      during the wait, how many milliseconds after the start that happened. */
  datatype Wait = Wait(replies: seq<Read>, elapsed: nat, closedAt: Option<nat>)

  // ---------------------------------------------------------------------------
  // The command's context
  // ---------------------------------------------------------------------------

  /** The drone was closed before the command checked its context. */
  predicate ClosedDuring(w: Wait) {
    w.closedAt.Some? && w.closedAt.value <= w.elapsed
  }

  /** ctx.Err() of the context sendCmd derives from the drone's: with a timeout
      it expires after `timeout` ms with DeadlineExceeded; closing the drone
      first cancels it with Canceled; whichever comes first is its error. */
  function ContextError(timeout: nat, w: Wait): (e: Option<Error>)
    ensures e == Some(DeadlineExceeded) <==>
      timeout > 0 && w.elapsed >= timeout && !(ClosedDuring(w) && w.closedAt.value < timeout)
    ensures e == Some(Canceled) <==> ClosedDuring(w) && (timeout == 0 || w.closedAt.value < timeout)
    ensures e.None? <==> (timeout == 0 || w.elapsed < timeout) && !ClosedDuring(w)
  {
    var deadline := timeout > 0 && w.elapsed >= timeout;
    if ClosedDuring(w) && (!deadline || w.closedAt.value < timeout) then Some(Canceled)
    else if deadline then Some(DeadlineExceeded)
    else None
  }

  // ---------------------------------------------------------------------------
  // priorityCmd
  // ---------------------------------------------------------------------------

  /** A command in flight that does not stop c from jumping the queue: it is
      not a canceller, and c is not a landing while it is a take-off. */
  predicate Compatible(c: Cmd, p: Cmd) {
    !p.canceller && !(c.text == "land" && p.text == "takeoff")
  }

  /** c may skip the queue: it is a canceller and nothing in flight forbids it. */
  predicate MayPreempt(c: Cmd, inflight: map<nat, Cmd>) {
    c.canceller && forall id :: id in inflight ==> Compatible(c, inflight[id])
  }

  // ---------------------------------------------------------------------------
  // sendCmd
  // ---------------------------------------------------------------------------

  /** What one sendCmd call comes to: its error, the value its handler stored,
      whether it wrote the command, and the events its handler dispatched. */
  datatype Outcome = Outcome(err: Option<Error>, value: Option<int>, wrote: bool, dispatched: seq<string>)

  /** sendCmd's decisions, in order: no connection; a queued command on a
      closed drone; the write; no handler; the context after the wait; the
      handler's verdict on the reply. */
  function Send(connected: bool, writable: bool, cancelled: bool, priority: bool, c: Cmd,
                writeOk: bool, reply: string, ctxErr: Option<Error>): (o: Outcome)
    requires ctxErr.None? || ctxErr == Some(Canceled) || ctxErr == Some(DeadlineExceeded)
    ensures o.err == Some(NotConnected) <==> !connected
    ensures o.wrote <==> connected && (priority || !cancelled) && writable && writeOk
    ensures connected && !priority && cancelled ==> o.err == Some(Canceled)
    ensures connected && (priority || !cancelled) && !(writable && writeOk) ==> o.err == Some(WriteFailed)
    ensures o.wrote && c.handler.NoHandler? ==> o == Outcome(None, None, true, [])
    ensures o.wrote && !c.handler.NoHandler? && ctxErr.Some? ==> o == Outcome(ctxErr, None, true, [])
    ensures o.wrote && !c.handler.NoHandler? && ctxErr.None? ==>
      match RunHandler(c.handler, reply)
      case Rejected(e) => o == Outcome(Some(e), None, true, [])
      case Accepted(names, v) => o == Outcome(None, v, true, names)
    ensures o.dispatched != [] ==> o.wrote && o.err.None?
    ensures o.value.Some? ==> o.wrote && o.err.None?
  {
    if !connected then Outcome(Some(NotConnected), None, false, [])
    else if !priority && cancelled then Outcome(Some(Canceled), None, false, [])
    else if !(writable && writeOk) then Outcome(Some(WriteFailed), None, false, [])
    else if c.handler.NoHandler? then Outcome(None, None, true, [])
    else if ctxErr.Some? then Outcome(ctxErr, None, true, [])
    else match RunHandler(c.handler, reply)
      case Rejected(e) => Outcome(Some(e), None, true, [])
      case Accepted(names, v) => Outcome(None, v, true, names)
  }

  /** The dispatches of payload-less events, in order. */
  function NamedEvents(names: seq<string>): (es: seq<Event>)
    ensures |es| == |names|
    ensures forall k :: 0 <= k < |names| ==> es[k] == Named(names[k])
  {
    if names == [] then [] else [Named(names[0])] + NamedEvents(names[1..])
  }

  // ---------------------------------------------------------------------------
  // The read loops
  // ---------------------------------------------------------------------------

  /** The trimmed text of a datagram read into the 2048-byte buffer. */
  function DatagramText(b: seq<Byte>): string {
    AsString(TrimSpace(V.Received(b)))
  }

  /** readResponses: every datagram overwrites the reply slot with its text;
      failed reads leave it alone. */
  function LastReply(r: string, inbox: seq<Read>): string {
    if inbox == [] then r
    else match inbox[|inbox| - 1]
      case Datagram(b) => DatagramText(b)
      case ReadFailed => LastReply(r, inbox[..|inbox| - 1])
  }

  /** readState: the snapshots parsed from the datagrams, in order; a read
      that fails or a line that does not parse gives none. */
  function Snapshots(inbox: seq<Read>): seq<T.State> {
    if inbox == [] then []
    else Snapshots(inbox[..|inbox| - 1]) + SnapshotOf(inbox[|inbox| - 1])
  }

  /** The snapshot one read contributes, if any. */
  function SnapshotOf(r: Read): seq<T.State> {
    match r
    case Datagram(b) => (
      match T.NewState(DatagramText(b))
      case Ok(s) => [s]
      case Err(_) => [])
    case ReadFailed => []
  }

  function StateEvents(ss: seq<T.State>): (es: seq<Event>)
    ensures |es| == |ss|
    ensures forall k :: 0 <= k < |ss| ==> es[k] == StateUpdate(ss[k])
  {
    if ss == [] then [] else StateEvents(ss[..|ss| - 1]) + [StateUpdate(ss[|ss| - 1])]
  }

  /** readVideo: the payloads of the datagrams, in order. */
  function Payloads(inbox: seq<Read>): seq<seq<Byte>> {
    if inbox == [] then []
    else Payloads(inbox[..|inbox| - 1]) + PayloadOf(inbox[|inbox| - 1])
  }

  /** The payload one read contributes, if any. */
  function PayloadOf(r: Read): seq<seq<Byte>> {
    match r
    case Datagram(b) => [V.Received(b)]
    case ReadFailed => []
  }

  function FrameEvents(frames: seq<seq<Byte>>): (es: seq<Event>)
    ensures |es| == |frames|
    ensures forall k :: 0 <= k < |frames| ==> es[k] == VideoFrame(frames[k])
  {
    if frames == [] then [] else FrameEvents(frames[..|frames| - 1]) + [VideoFrame(frames[|frames| - 1])]
  }

  /** The loop of readState: the snapshot last stored, starting from s0,
      and the state events dispatched, one per line that parses. */
  method CollectSnapshots(s0: T.State, inbox: seq<Read>) returns (s: T.State, dispatched: seq<Event>)
    ensures Snapshots(inbox) == [] ==> s == s0
    ensures Snapshots(inbox) != [] ==> s == Snapshots(inbox)[|Snapshots(inbox)| - 1]
    ensures dispatched == StateEvents(Snapshots(inbox))
  {
    s, dispatched := s0, [];
    var i := 0;
    while i < |inbox|
      invariant 0 <= i <= |inbox|
      invariant Snapshots(inbox[..i]) == [] ==> s == s0
      invariant Snapshots(inbox[..i]) != [] ==> s == Snapshots(inbox[..i])[|Snapshots(inbox[..i])| - 1]
      invariant dispatched == StateEvents(Snapshots(inbox[..i]))
    {
      var before := Snapshots(inbox[..i]);
      SnapshotsStep(inbox, i);
      var parsed := SnapshotOf(inbox[i]);
      if parsed != [] {
        assert parsed == [parsed[0]];
        StateEventsAppend(before, parsed[0]);
        s := parsed[0];
        dispatched := dispatched + [StateUpdate(parsed[0])];
      } else {
        assert before + parsed == before;
      }
      i := i + 1;
    }
    assert inbox[..i] == inbox;
  }

  /** The loop of readVideo: the frames dispatched, in order, one per payload
      that is not a full one, and the bytes left in the buffer. */
  method CollectFrames(inbox: seq<Read>) returns (pending: seq<Byte>, dispatched: seq<Event>)
    ensures dispatched == FrameEvents(V.Reassemble(Payloads(inbox)).frames)
    ensures pending == V.Reassemble(Payloads(inbox)).pending
  {
    var buf: seq<Byte> := [];
    var bufLength := 0;
    dispatched := [];
    var i := 0;
    while i < |inbox|
      invariant 0 <= i <= |inbox|
      invariant bufLength == |buf|
      invariant buf == V.Reassemble(Payloads(inbox[..i])).pending
      invariant dispatched == FrameEvents(V.Reassemble(Payloads(inbox[..i])).frames)
    {
      ghost var r := V.Reassemble(Payloads(inbox[..i]));
      ReassembleStep(inbox, i);
      if inbox[i].Datagram? {
        var b := V.Received(inbox[i].bytes);
        var n := |b|;
        buf := buf + b;
        bufLength := bufLength + n;
        if n != V.FullPayload {
          var frame := buf[..bufLength];
          assert frame == r.pending + b;
          FrameEventsAppend(r.frames, frame);
          dispatched := dispatched + [VideoFrame(frame)];
          buf := [];
          bufLength := 0;
        }
      }
      i := i + 1;
    }
    assert inbox[..i] == inbox;
    pending := buf;
  }

  // ---------------------------------------------------------------------------
  // Start
  // ---------------------------------------------------------------------------

  /** Which of Start's socket steps succeed: listening on the state port,
      listening on the video port, dialling the command port. */
  datatype Setup = Setup(stateListen: bool, videoListen: bool, dial: bool)

  datatype StartError = StateFailed | VideoFailed | DialFailed | HandshakeFailed(cause: Error)

  class Drone {
    /** cmdConn is set (it stays set after Close). */
    var connected: bool
    /** cmdConn is open: set by a successful dial, cleared by Close. */
    var writable: bool
    /** Start has created the drone's context. */
    var hasContext: bool
    /** The drone's context is cancelled (Close ran after it was created). */
    var cancelled: bool
    /** The commands in flight, under the identity sendCmd gave each of them. */
    var inflight: map<nat, Cmd>
    var nextId: nat
    /** The reply slot (lr). */
    var lastReply: string
    /** The last snapshot (s). */
    var state: T.State
    /** Every dispatch, oldest first. */
    var events: seq<Event>
    /** Every command text written to the command connection, oldest first. */
    var written: seq<string>
    /** The once-flag of Start (oo) is unused. */
    var startArmed: bool
    /** The once-flag of Close (ol) is unused. */
    var closeArmed: bool

    predicate Valid()
      reads this
    {
      && (forall id :: id in inflight ==> id < nextId)
      && (connected ==> hasContext)
      && (writable ==> connected && !cancelled)
      && (cancelled ==> hasContext)
      && (hasContext ==> (cancelled <==> !closeArmed))
    }

    /** New: nothing connected, no command in flight, a zero snapshot, both
        once-flags unused. */
    constructor ()
      ensures Valid()
      ensures !connected && !writable && !hasContext && !cancelled
      ensures inflight == map[] && nextId == 0
      ensures lastReply == "" && state == T.ZeroState && events == [] && written == []
      ensures startArmed && closeArmed
    {
      connected, writable, hasContext, cancelled := false, false, false, false;
      inflight, nextId := map[], 0;
      lastReply, state, events, written := "", T.ZeroState, [], [];
      startArmed, closeArmed := true, true;
    }

    /** priorityCmd: a canceller jumps the queue unless a canceller is in
        flight, or it is a landing and a take-off is in flight. */
    method PriorityCmd(c: Cmd) returns (priority: bool)
      ensures priority == MayPreempt(c, inflight)
    {
      priority := false;
      if c.canceller {
        priority := true;
        var ids := inflight.Keys;
        while ids != {}
          invariant ids <= inflight.Keys
          invariant forall id :: id in inflight && id !in ids ==> Compatible(c, inflight[id])
          decreases ids
        {
          var id :| id in ids;
          var p := inflight[id];
          if p.canceller {
            priority := false;
            break;
          }
          if c.text == "land" && p.text == "takeoff" {
            priority := false;
            break;
          }
          ids := ids - {id};
        }
      }
    }

    /** The first phase of sendCmd: decide priority, then enter the command
        in the in-flight set under a fresh identity. */
    method Enqueue(c: Cmd) returns (priority: bool, id: nat)
      requires Valid()
      modifies this
      ensures Valid()
      ensures priority == MayPreempt(c, old(inflight))
      ensures id !in old(inflight) && inflight == old(inflight)[id := c]
      ensures nextId == old(nextId) + 1
      ensures connected == old(connected) && writable == old(writable)
      ensures hasContext == old(hasContext) && cancelled == old(cancelled)
      ensures lastReply == old(lastReply) && state == old(state)
      ensures events == old(events) && written == old(written)
      ensures startArmed == old(startArmed) && closeArmed == old(closeArmed)
    {
      priority := PriorityCmd(c);
      id := nextId;
      inflight := inflight[id := c];
      nextId := nextId + 1;
    }

    /** The middle of sendCmd, with the command in flight: the context check
        of a queued command, the write, the wait and the handler. */
    method Transmit(c: Cmd, priority: bool, writeOk: bool, w: Wait) returns (err: Option<Error>, value: Option<int>)
      requires Valid() && connected
      modifies this
      ensures Valid()
      ensures var o := Send(true, old(writable), old(cancelled), priority, c, writeOk,
                            LastReply(old(lastReply), w.replies), ContextError(c.timeout, w));
        && err == o.err && value == o.value
        && written == old(written) + (if o.wrote then [c.text] else [])
        && events == old(events) + NamedEvents(o.dispatched)
        && lastReply == (if o.wrote && !c.handler.NoHandler? then LastReply(old(lastReply), w.replies)
                         else old(lastReply))
      ensures inflight == old(inflight) && nextId == old(nextId)
      ensures connected == old(connected) && writable == old(writable)
      ensures hasContext == old(hasContext) && cancelled == old(cancelled)
      ensures state == old(state) && startArmed == old(startArmed) && closeArmed == old(closeArmed)
    {
      value := None;
      if !priority && cancelled {
        err := Some(Canceled);
        return;
      }
      if !(writable && writeOk) {
        err := Some(WriteFailed);
        return;
      }
      written := written + [c.text];
      if c.handler.NoHandler? {
        err := None;
        return;
      }
      ReadResponses(w.replies);
      var ctxErr := ContextError(c.timeout, w);
      if ctxErr.Some? {
        err := ctxErr;
        return;
      }
      match RunHandler(c.handler, lastReply)
      case Rejected(e) =>
        err := Some(e);
      case Accepted(names, v) =>
        events := events + NamedEvents(names);
        err, value := None, v;
    }

    /** The deferred last step of sendCmd: remove the command from the set. */
    method Dequeue(id: nat)
      requires Valid()
      modifies this
      ensures Valid()
      ensures inflight == old(inflight) - {id}
      ensures nextId == old(nextId) && connected == old(connected) && writable == old(writable)
      ensures hasContext == old(hasContext) && cancelled == old(cancelled)
      ensures lastReply == old(lastReply) && state == old(state)
      ensures events == old(events) && written == old(written)
      ensures startArmed == old(startArmed) && closeArmed == old(closeArmed)
    {
      inflight := inflight - {id};
    }

    /** sendCmd: without a connection nothing happens; otherwise the command
        is in flight for the rest of the call and leaves the set at the end. */
    method SendCmd(c: Cmd, writeOk: bool, w: Wait) returns (err: Option<Error>, value: Option<int>)
      requires Valid()
      modifies this
      ensures Valid()
      ensures var o := Send(old(connected), old(writable), old(cancelled), MayPreempt(c, old(inflight)), c, writeOk,
                            LastReply(old(lastReply), w.replies), ContextError(c.timeout, w));
        && err == o.err && value == o.value
        && written == old(written) + (if o.wrote then [c.text] else [])
        && events == old(events) + NamedEvents(o.dispatched)
        && lastReply == (if o.wrote && !c.handler.NoHandler? then LastReply(old(lastReply), w.replies)
                         else old(lastReply))
      ensures inflight == old(inflight)
      ensures nextId == if old(connected) then old(nextId) + 1 else old(nextId)
      ensures connected == old(connected) && writable == old(writable)
      ensures hasContext == old(hasContext) && cancelled == old(cancelled)
      ensures state == old(state) && startArmed == old(startArmed) && closeArmed == old(closeArmed)
    {
      if !connected {
        err, value := Some(NotConnected), None;
        return;
      }
      var priority, id := Enqueue(c);
      err, value := Transmit(c, priority, writeOk, w);
      Dequeue(id);
    }

    /** readResponses over the reads that happen before the drone is closed. */
    method ReadResponses(inbox: seq<Read>)
      requires Valid()
      modifies this
      ensures Valid()
      ensures lastReply == LastReply(old(lastReply), inbox)
      ensures inflight == old(inflight) && nextId == old(nextId)
      ensures connected == old(connected) && writable == old(writable)
      ensures hasContext == old(hasContext) && cancelled == old(cancelled)
      ensures state == old(state) && events == old(events) && written == old(written)
      ensures startArmed == old(startArmed) && closeArmed == old(closeArmed)
    {
      var reply := lastReply;
      var i := 0;
      while i < |inbox|
        modifies {}
        invariant 0 <= i <= |inbox|
        invariant reply == LastReply(lastReply, inbox[..i])
      {
        assert inbox[..i + 1][..i] == inbox[..i];
        match inbox[i] {
          case Datagram(b) =>
            reply := DatagramText(b);
          case ReadFailed =>
        }
        i := i + 1;
      }
      assert inbox[..i] == inbox;
      lastReply := reply;
    }

    /** readState over the reads that happen before the drone is closed:
        each line that parses becomes the snapshot and is dispatched. */
    method ReadState(inbox: seq<Read>)
      requires Valid()
      modifies this
      ensures Valid()
      ensures Snapshots(inbox) == [] ==> state == old(state)
      ensures Snapshots(inbox) != [] ==> state == Snapshots(inbox)[|Snapshots(inbox)| - 1]
      ensures events == old(events) + StateEvents(Snapshots(inbox))
      ensures inflight == old(inflight) && nextId == old(nextId)
      ensures connected == old(connected) && writable == old(writable)
      ensures hasContext == old(hasContext) && cancelled == old(cancelled)
      ensures lastReply == old(lastReply) && written == old(written)
      ensures startArmed == old(startArmed) && closeArmed == old(closeArmed)
    {
      var s, dispatched := CollectSnapshots(state, inbox);
      state := s;
      events := events + dispatched;
    }

    /** readVideo over the reads that happen before the drone is closed.
        Returns the bytes left in the buffer, which are never published. */
    method ReadVideo(inbox: seq<Read>) returns (pending: seq<Byte>)
      requires Valid()
      modifies this
      ensures Valid()
      ensures events == old(events) + FrameEvents(V.Reassemble(Payloads(inbox)).frames)
      ensures pending == V.Reassemble(Payloads(inbox)).pending
      ensures inflight == old(inflight) && nextId == old(nextId)
      ensures connected == old(connected) && writable == old(writable)
      ensures hasContext == old(hasContext) && cancelled == old(cancelled)
      ensures lastReply == old(lastReply) && state == old(state) && written == old(written)
      ensures startArmed == old(startArmed) && closeArmed == old(closeArmed)
    {
      var dispatched;
      pending, dispatched := CollectFrames(inbox);
      events := events + dispatched;
    }

    /** Close, at most once per Start: cancel the drone's context, re-arm
        Start, forget the commands in flight and close the connection. */
    method Close()
      requires Valid()
      modifies this
      ensures Valid()
      ensures old(closeArmed) ==> !closeArmed && startArmed && inflight == map[]
      ensures old(closeArmed) ==> cancelled == old(hasContext) && !writable
      ensures !old(closeArmed) ==> closeArmed == old(closeArmed) && startArmed == old(startArmed)
      ensures !old(closeArmed) ==> inflight == old(inflight) && cancelled == old(cancelled) && writable == old(writable)
      ensures nextId == old(nextId) && connected == old(connected) && hasContext == old(hasContext)
      ensures lastReply == old(lastReply) && state == old(state)
      ensures events == old(events) && written == old(written)
    {
      if closeArmed {
        closeArmed := false;
        if hasContext {
          cancelled := true;
        }
        startArmed := true;
        inflight := map[];
        writable := false;
      }
    }

    /** Start, at most once per Close: create a fresh context, re-arm Close,
        then set up the state port, the video port and the command port and
        send the handshake.  The first step that fails ends it with its error;
        the once-flag stays used either way. */
    method Start(setup: Setup, writeOk: bool, w: Wait) returns (err: Option<StartError>)
      requires Valid()
      modifies this
      ensures Valid()
      ensures !old(startArmed) ==>
        && err.None? && startArmed == old(startArmed) && closeArmed == old(closeArmed)
        && connected == old(connected) && writable == old(writable)
        && hasContext == old(hasContext) && cancelled == old(cancelled)
        && inflight == old(inflight) && written == old(written) && events == old(events)
        && lastReply == old(lastReply) && nextId == old(nextId)
      ensures old(startArmed) ==> !startArmed && closeArmed && hasContext && !cancelled
      ensures old(startArmed) && !setup.stateListen ==> err == Some(StateFailed)
      ensures old(startArmed) && setup.stateListen && !setup.videoListen ==> err == Some(VideoFailed)
      ensures old(startArmed) && !(setup.stateListen && setup.videoListen) ==>
        connected == old(connected) && writable == old(writable) && written == old(written)
      ensures old(startArmed) && !(setup.stateListen && setup.videoListen && setup.dial) ==>
        lastReply == old(lastReply) && nextId == old(nextId)
      ensures old(startArmed) && setup.stateListen && setup.videoListen && setup.dial ==>
        nextId == old(nextId) + 1
      ensures old(startArmed) && setup.stateListen && setup.videoListen && !setup.dial ==>
        err == Some(DialFailed) && !connected && !writable && written == old(written)
      ensures old(startArmed) && setup.stateListen && setup.videoListen && setup.dial ==> connected && writable
      ensures old(startArmed) && setup.stateListen && setup.videoListen && setup.dial ==>
        (var o := Send(true, true, false, false, ToCmd(Handshake), writeOk,
                       LastReply(old(lastReply), w.replies), ContextError(ToCmd(Handshake).timeout, w));
         && written == old(written) + (if o.wrote then ["command"] else [])
         && lastReply == (if o.wrote then LastReply(old(lastReply), w.replies) else old(lastReply))
         && err == (if o.err.Some? then Some(HandshakeFailed(o.err.value)) else None))
      ensures inflight == old(inflight) && state == old(state) && events == old(events)
    {
      if !startArmed {
        return None;
      }
      startArmed := false;
      hasContext, cancelled := true, false;
      closeArmed := true;
      if !setup.stateListen {
        return Some(StateFailed);
      }
      if !setup.videoListen {
        return Some(VideoFailed);
      }
      if !setup.dial {
        connected, writable := false, false;
        return Some(DialFailed);
      }
      connected, writable := true, true;
      BareLine(Handshake);
      var e, _ := SendCmd(ToCmd(Handshake), writeOk, w);
      err := if e.Some? then Some(HandshakeFailed(e.value)) else None;
    }
  }

  // ---------------------------------------------------------------------------
  // Lemmas
  // ---------------------------------------------------------------------------

  lemma SnapshotsStep(inbox: seq<Read>, i: nat)
    requires i < |inbox|
    ensures Snapshots(inbox[..i + 1]) == Snapshots(inbox[..i]) + SnapshotOf(inbox[i])
    ensures |SnapshotOf(inbox[i])| <= 1
  {
    assert inbox[..i + 1][..i] == inbox[..i];
  }

  lemma StateEventsAppend(ss: seq<T.State>, s: T.State)
    ensures StateEvents(ss + [s]) == StateEvents(ss) + [StateUpdate(s)]
  {
    assert (ss + [s])[..|ss|] == ss;
  }

  lemma FrameEventsAppend(frames: seq<seq<Byte>>, f: seq<Byte>)
    ensures FrameEvents(frames + [f]) == FrameEvents(frames) + [VideoFrame(f)]
  {
    assert (frames + [f])[..|frames|] == frames;
  }

  /** One more read advances the reassembly by one step when it is a
      datagram, and not at all when it failed. */
  lemma ReassembleStep(inbox: seq<Read>, i: nat)
    requires i < |inbox|
    ensures V.Reassemble(Payloads(inbox[..i + 1])) ==
      if inbox[i].Datagram? then V.Step(V.Reassemble(Payloads(inbox[..i])), V.Received(inbox[i].bytes))
      else V.Reassemble(Payloads(inbox[..i]))
  {
    assert inbox[..i + 1][..i] == inbox[..i];
    var ps := Payloads(inbox[..i]);
    assert Payloads(inbox[..i + 1]) == ps + PayloadOf(inbox[i]);
    if inbox[i].Datagram? {
      RunStep(ps, V.Received(inbox[i].bytes));
    } else {
      assert ps + PayloadOf(inbox[i]) == ps;
    }
  }

  /** One more payload advances the reassembly by one step. */
  lemma RunStep(ps: seq<seq<Byte>>, p: seq<Byte>)
    ensures V.Reassemble(ps + [p]) == V.Step(V.Reassemble(ps), p)
  {
    assert (ps + [p])[..|ps|] == ps;
  }

  /** A failed read or a line that does not parse leaves the snapshot alone;
      the snapshots of two batches of reads are those of the batches. */
  lemma {:induction false} SnapshotsAppend(a: seq<Read>, b: seq<Read>)
    ensures Snapshots(a + b) == Snapshots(a) + Snapshots(b)
  {
    if b == [] {
      assert a + b == a;
    } else {
      var ab, init := a + b, b[..|b| - 1];
      assert ab[..|ab| - 1] == a + init;
      SnapshotsLast(ab);
      SnapshotsLast(b);
      SnapshotsAppend(a, init);
      T.AppendAssoc(Snapshots(a), Snapshots(init), SnapshotOf(b[|b| - 1]));
    }
  }

  /** Payloads of two batches of reads are those of the batches, so video
      read in two batches reassembles as if read in one. */
  lemma {:induction false} PayloadsAppend(a: seq<Read>, b: seq<Read>)
    ensures Payloads(a + b) == Payloads(a) + Payloads(b)
  {
    if b == [] {
      assert a + b == a;
    } else {
      var ab, init := a + b, b[..|b| - 1];
      assert ab[..|ab| - 1] == a + init;
      PayloadsLast(ab);
      PayloadsLast(b);
      PayloadsAppend(a, init);
      T.AppendAssoc(Payloads(a), Payloads(init), PayloadOf(b[|b| - 1]));
    }
  }

  lemma SnapshotsLast(inbox: seq<Read>)
    requires inbox != []
    ensures Snapshots(inbox) == Snapshots(inbox[..|inbox| - 1]) + SnapshotOf(inbox[|inbox| - 1])
  {
  }

  lemma PayloadsLast(inbox: seq<Read>)
    requires inbox != []
    ensures Payloads(inbox) == Payloads(inbox[..|inbox| - 1]) + PayloadOf(inbox[|inbox| - 1])
  {
  }

  /** The reply slot holds the text of the last datagram; failed reads after
      it do not matter. */
  lemma {:induction false} LastReplyIs(r: string, inbox: seq<Read>, k: nat)
    requires k < |inbox| && inbox[k].Datagram?
    requires forall j :: k < j < |inbox| ==> inbox[j].ReadFailed?
    ensures LastReply(r, inbox) == DatagramText(inbox[k].bytes)
  {
    if k < |inbox| - 1 {
      LastReplyIs(r, inbox[..|inbox| - 1], k);
    }
  }

  /** Without a datagram the reply slot keeps what it held. */
  lemma {:induction false} LastReplyKept(r: string, inbox: seq<Read>)
    requires forall j :: 0 <= j < |inbox| ==> inbox[j].ReadFailed?
    ensures LastReply(r, inbox) == r
  {
    if inbox != [] {
      LastReplyKept(r, inbox[..|inbox| - 1]);
    }
  }

  /** Only Emergency and Land ever jump the queue; with nothing in flight
      they always do. */
  lemma PriorityCommands(c: Command, inflight: map<nat, Cmd>)
    ensures MayPreempt(ToCmd(c), inflight) ==> c == Emergency || c == Land
    ensures inflight == map[] ==> (MayPreempt(ToCmd(c), inflight) <==> c == Emergency || c == Land)
  {
    CancellerCommands(c);
  }

  /** A take-off in flight keeps a landing in the queue, but not an emergency
      stop; any canceller in flight keeps both in the queue. */
  lemma TakeOffInFlight(inflight: map<nat, Cmd>, id: nat)
    requires id in inflight
    ensures inflight[id] == ToCmd(TakeOff) ==> !MayPreempt(ToCmd(Land), inflight)
    ensures inflight == map[id := ToCmd(TakeOff)] ==> MayPreempt(ToCmd(Emergency), inflight)
    ensures inflight[id].canceller ==> !MayPreempt(ToCmd(Land), inflight) && !MayPreempt(ToCmd(Emergency), inflight)
  {
    BareLine(TakeOff);
    BareLine(Land);
    BareLine(Emergency);
    if inflight[id] == ToCmd(TakeOff) {
      assert !Compatible(ToCmd(Land), inflight[id]);
    }
    if inflight[id].canceller {
      assert !Compatible(ToCmd(Land), inflight[id]);
      assert !Compatible(ToCmd(Emergency), inflight[id]);
    }
  }

  /** A take-off answered "ok" dispatches take.off. */
  lemma TakeOffOutcome(priority: bool)
    ensures Send(true, true, false, priority, ToCmd(TakeOff), true, "ok", None)
      == Outcome(None, None, true, [TakeOffEvent])
  {
    ReplyOk(TakeOffEvent, "ok");
  }

  /** A landing whose reply is not "ok" fails with that reply and dispatches
      nothing. */
  lemma RefusedLanding(priority: bool, reply: string)
    requires reply != "ok"
    ensures Send(true, true, false, priority, ToCmd(Land), true, reply, None)
      == Outcome(Some(InvalidResponse(reply)), None, true, [])
  {
    ReplyOk(LandEvent, reply);
  }

  /** Wifi() hands back the SNR of the test's reply "100". */
  lemma WifiOutcome(priority: bool)
    ensures Send(true, true, false, priority, ToCmd(WifiQuery), true, "100", None)
      == Outcome(None, Some(100), true, [])
  {
    WifiReplyExample();
  }

  /** Speed() hands back the speed of the test's reply "100.0". */
  lemma SpeedOutcome(priority: bool)
    ensures Send(true, true, false, priority, ToCmd(SpeedQuery), true, "100.0", None)
      == Outcome(None, Some(100), true, [])
  {
    SpeedReplyExample();
  }

  /** What an expired wait comes to for a command waiting for its reply. */
  lemma ExpiredWait(c: Cmd, priority: bool, writeOk: bool, reply: string, w: Wait)
    requires !c.handler.NoHandler? && writeOk
    requires c.timeout > 0 && w.elapsed >= c.timeout
    ensures !ClosedDuring(w) ==>
      Send(true, true, false, priority, c, writeOk, reply, ContextError(c.timeout, w))
        == Outcome(Some(DeadlineExceeded), None, true, [])
    ensures ClosedDuring(w) && w.closedAt.value < c.timeout ==>
      Send(true, true, false, priority, c, writeOk, reply, ContextError(c.timeout, w))
        == Outcome(Some(Canceled), None, true, [])
  {
  }

  lemma {:induction false} ConcatBound(parts: seq<string>, n: nat)
    requires forall k :: 0 <= k < |parts| ==> |parts[k]| <= n
    ensures |T.Concat(parts)| <= n * |parts|
  {
    if parts != [] {
      ConcatBound(parts[1..], n);
    }
  }

  lemma {:induction false} ConcatLast(parts: seq<string>)
    requires parts != [] && parts[|parts| - 1] != []
    ensures T.Concat(parts) != []
    ensures T.Concat(parts)[|T.Concat(parts)| - 1] == parts[|parts| - 1][|parts[|parts| - 1]| - 1]
  {
    if |parts| > 1 {
      ConcatLast(parts[1..]);
    }
  }

  lemma ExampleLineEnds()
    ensures |T.ExampleLine| <= V.ReadSize
    ensures T.ExampleLine[0] == 'p' && T.ExampleLine[|T.ExampleLine| - 1] == ';'
  {
    ConcatBound(T.ExampleFields, 16);
    ConcatLast(T.ExampleFields);
    assert T.ExampleFields[15] == "agz:23.1;";
  }

  /** The test's telemetry datagram yields exactly the test's snapshot. */
  lemma ExampleDatagram(b: seq<Byte>)
    requires AsString(b) == T.ExampleLine
    ensures Snapshots([Datagram(b)]) == [T.ExampleState]
  {
    ExampleLineEnds();
    assert V.Received(b) == b;
    assert b[0] == 112 && b[|b| - 1] == 59;
    TrimSpaceUnpadded(b);
    T.NewStateExample();
    assert [Datagram(b)][..0] == [];
  }

  /** The test's "packet" datagram is dispatched as one video frame. */
  lemma PacketEvent()
    ensures FrameEvents(V.Reassemble(Payloads([Datagram(V.Packet)])).frames) == [VideoFrame(V.Packet)]
  {
    assert [Datagram(V.Packet)][..0] == [];
    assert Payloads([Datagram(V.Packet)]) == [V.Received(V.Packet)];
    V.PacketFrame();
  }

  /** The bytes of the reply "ok". */
  const OkReply: seq<Byte> := [111, 107]

  lemma OkReplyText()
    ensures DatagramText(OkReply) == "ok"
  {
    TrimSpaceUnpadded(OkReply);
    assert AsString(OkReply) == "ok";
  }

  // ---------------------------------------------------------------------------
  // Scenarios
  // ---------------------------------------------------------------------------

  /** A drone that starts cleanly: every socket step succeeds and the
      handshake is answered "ok" at once. */
  method Started() returns (d: Drone, err: Option<StartError>)
    ensures fresh(d) && d.Valid()
    ensures err.None? && d.connected && d.writable && !d.cancelled
    ensures d.inflight == map[] && d.written == ["command"] && d.lastReply == "ok"
    ensures d.closeArmed && !d.startArmed
  {
    d := new Drone();
    OkReplyText();
    err := d.Start(Setup(true, true, true), true, Wait([Datagram(OkReply)], 0, None));
  }

  /** With the default timeout at one millisecond and a reply that never
      comes, the handshake fails with DeadlineExceeded. */
  method ShortTimeout() returns (err: Option<Error>)
    ensures err == Some(DeadlineExceeded)
  {
    var d, _ := Started();
    var value;
    err, value := d.SendCmd(Cmd(false, "command", Default, 1), true, Wait([], 1, None));
  }

  /** During a take-off a landing waits its turn but an emergency stop
      does not. */
  method LandDuringTakeOff() returns (landFirst: bool, emergencyFirst: bool)
    ensures !landFirst && emergencyFirst
  {
    var d := new Drone();
    var _, id := d.Enqueue(ToCmd(TakeOff));
    TakeOffInFlight(d.inflight, id);
    landFirst := d.PriorityCmd(ToCmd(Land));
    emergencyFirst := d.PriorityCmd(ToCmd(Emergency));
  }

  /** After Close, a queued command fails with Canceled without being written,
      an emergency stop fails to write on the closed connection, and Start
      works again. */
  method AfterClose() returns (queued: Option<Error>, urgent: Option<Error>, restarted: Option<StartError>)
    ensures queued == Some(Canceled) && urgent == Some(WriteFailed)
    ensures restarted.None?
  {
    var d, _ := Started();
    d.Close();
    var value;
    queued, value := d.SendCmd(ToCmd(TakeOff), true, Wait([], 0, None));
    PriorityCommands(Emergency, d.inflight);
    urgent, value := d.SendCmd(ToCmd(Emergency), true, Wait([], 0, None));
    OkReplyText();
    restarted := d.Start(Setup(true, true, true), true, Wait([Datagram(OkReply)], 0, None));
  }
}
