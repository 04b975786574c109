/**
 * Video: how the client turns the datagrams of the drone's video port into
 * frames (the reassembly done by readVideo in drone.go).
 *
 * The drone cuts each encoded frame into datagrams of 1460 bytes and sends
 * the remainder last.  The client appends every payload to a buffer; a
 * payload of exactly 1460 bytes means the frame goes on, any other length
 * (shorter, longer, or empty) ends it: the buffer is published as one frame
 * and emptied.  This module states that rule as a fold over the payloads and
 * proves what the fold keeps and produces.
 */
module Video {
  import opened Text

  /** The payload length that means "the frame goes on". */
  const FullPayload: nat := 1460

  /** The size of the buffer each read goes into. */
  const ReadSize: nat := 2048

  /** What one read returns of a datagram: a datagram longer than the
      buffer is cut to the buffer's size, the rest of it is lost. */
  function Received(datagram: seq<Byte>): (p: seq<Byte>)
    ensures |p| == if |datagram| <= ReadSize then |datagram| else ReadSize
    ensures p == datagram[..|p|]
  {
    if |datagram| <= ReadSize then datagram else datagram[..ReadSize]
  }

  /** The loop's state: the frames published so far, oldest first, and the
      bytes of the frame still being collected. */
  datatype Reassembly = Reassembly(frames: seq<seq<Byte>>, pending: seq<Byte>)

  /** The state before the first datagram: nothing published, empty buffer. */
  const Idle: Reassembly := Reassembly([], [])

  /** One payload: append it; unless it is a full payload, publish the
      buffer as a frame and empty it. */
  function Step(r: Reassembly, payload: seq<Byte>): Reassembly {
    if |payload| == FullPayload then Reassembly(r.frames, r.pending + payload)
    else Reassembly(r.frames + [r.pending + payload], [])
  }

  /** The state after the payloads, in arrival order, starting from r. */
  function Run(r: Reassembly, payloads: seq<seq<Byte>>): Reassembly {
    if payloads == [] then r
    else Step(Run(r, payloads[..|payloads| - 1]), payloads[|payloads| - 1])
  }

  function Reassemble(payloads: seq<seq<Byte>>): Reassembly {
    Run(Idle, payloads)
  }

  /** The payloads laid end to end. */
  function Flatten(ps: seq<seq<Byte>>): seq<Byte> {
    if ps == [] then [] else Flatten(ps[..|ps| - 1]) + ps[|ps| - 1]
  }

  /** How many of the payloads end a frame. */
  function Ends(ps: seq<seq<Byte>>): nat {
    if ps == [] then 0
    else Ends(ps[..|ps| - 1]) + (if |ps[|ps| - 1]| == FullPayload then 0 else 1)
  }

  predicate AllFull(ps: seq<seq<Byte>>) {
    forall k :: 0 <= k < |ps| ==> |ps[k]| == FullPayload
  }

  // ---------------------------------------------------------------------------
  // Lemmas
  // ---------------------------------------------------------------------------

  lemma FlattenAppend(ps: seq<seq<Byte>>, p: seq<Byte>)
    ensures Flatten(ps + [p]) == Flatten(ps) + p
  {
    assert (ps + [p])[..|ps|] == ps;
  }

  /** No byte is lost, duplicated or reordered: the published frames followed
      by the buffer are exactly the payloads received. */
  lemma {:induction false} RunConserves(r: Reassembly, payloads: seq<seq<Byte>>)
    ensures Flatten(Run(r, payloads).frames) + Run(r, payloads).pending
         == Flatten(r.frames) + r.pending + Flatten(payloads)
  {
    if payloads != [] {
      var init, p := payloads[..|payloads| - 1], payloads[|payloads| - 1];
      var q := Run(r, init);
      RunConserves(r, init);
      assert payloads == init + [p];
      FlattenAppend(init, p);
      if |p| == FullPayload {
        assert Flatten(q.frames) + (q.pending + p) == (Flatten(q.frames) + q.pending) + p;
      } else {
        FlattenAppend(q.frames, q.pending + p);
        assert Flatten(q.frames) + (q.pending + p) == (Flatten(q.frames) + q.pending) + p;
      }
    }
  }

  lemma Conservation(payloads: seq<seq<Byte>>)
    ensures Flatten(Reassemble(payloads).frames) + Reassemble(payloads).pending == Flatten(payloads)
  {
    RunConserves(Idle, payloads);
  }

  /** One frame is published per payload that is not a full one. */
  lemma {:induction false} FrameCount(r: Reassembly, payloads: seq<seq<Byte>>)
    ensures |Run(r, payloads).frames| == |r.frames| + Ends(payloads)
  {
    if payloads != [] {
      FrameCount(r, payloads[..|payloads| - 1]);
    }
  }

  /** Published frames stay published: later payloads only add frames. */
  lemma {:induction false} FramesGrow(r: Reassembly, payloads: seq<seq<Byte>>)
    ensures |r.frames| <= |Run(r, payloads).frames|
    ensures Run(r, payloads).frames[..|r.frames|] == r.frames
  {
    if payloads != [] {
      var q := Run(r, payloads[..|payloads| - 1]);
      FramesGrow(r, payloads[..|payloads| - 1]);
      var s := Step(q, payloads[|payloads| - 1]);
      assert s.frames[..|q.frames|] == q.frames;
      assert s.frames[..|r.frames|] == q.frames[..|r.frames|];
    }
  }

  /** Full payloads only fill the buffer. */
  lemma {:induction false} RunFull(r: Reassembly, fulls: seq<seq<Byte>>)
    requires AllFull(fulls)
    ensures Run(r, fulls) == Reassembly(r.frames, r.pending + Flatten(fulls))
  {
    if fulls != [] {
      var init, p := fulls[..|fulls| - 1], fulls[|fulls| - 1];
      assert |p| == FullPayload;
      RunFull(r, init);
      FlattenAppend(init, p);
      assert init + [p] == fulls;
    }
  }

  /** A run of full payloads closed by one that is not full publishes
      exactly one frame: the buffer, those payloads and the last one, and
      leaves the buffer empty. */
  lemma FrameBoundary(r: Reassembly, fulls: seq<seq<Byte>>, last: seq<Byte>)
    requires AllFull(fulls) && |last| != FullPayload
    ensures Run(r, fulls + [last]) == Reassembly(r.frames + [r.pending + Flatten(fulls) + last], [])
  {
    var ps := fulls + [last];
    assert ps[..|ps| - 1] == fulls;
    RunFull(r, fulls);
  }

  /** From an empty buffer: full payloads then a short one make one frame. */
  lemma OneFrame(fulls: seq<seq<Byte>>, last: seq<Byte>)
    requires AllFull(fulls) && |last| != FullPayload
    ensures Reassemble(fulls + [last]) == Reassembly([Flatten(fulls) + last], [])
  {
    FrameBoundary(Idle, fulls, last);
    assert Idle.pending + Flatten(fulls) + last == Flatten(fulls) + last;
    assert Idle.frames + [Flatten(fulls) + last] == [Flatten(fulls) + last];
  }

  /** A lone datagram shorter than a full payload is a frame of its own. */
  lemma SingleFrame(p: seq<Byte>)
    requires |p| != FullPayload
    ensures Reassemble([p]) == Reassembly([p], [])
  {
    OneFrame([], p);
    assert [] + [p] == [p];
    assert Flatten([]) + p == p;
  }

  /** While only full payloads have arrived, nothing is published. */
  lemma NothingPublished(fulls: seq<seq<Byte>>)
    requires AllFull(fulls)
    ensures Reassemble(fulls) == Reassembly([], Flatten(fulls))
  {
    RunFull(Idle, fulls);
  }

  /** Reading payloads in two batches is reading them in one. */
  lemma {:induction false} RunAppend(r: Reassembly, a: seq<seq<Byte>>, b: seq<seq<Byte>>)
    ensures Run(r, a + b) == Run(Run(r, a), b)
  {
    if b == [] {
      assert a + b == a;
    } else {
      var ab := a + b;
      assert ab[..|ab| - 1] == a + b[..|b| - 1];
      assert ab[|ab| - 1] == b[|b| - 1];
      RunAppend(r, a, b[..|b| - 1]);
    }
  }

  /** The bytes of "packet", the datagram the client's test sends. */
  const Packet: seq<Byte> := [112, 97, 99, 107, 101, 116]

  /** The test's six-byte datagram comes out as the frame "packet". */
  lemma PacketFrame()
    ensures Reassemble([Received(Packet)]) == Reassembly([Packet], [])
    ensures AsString(Reassemble([Received(Packet)]).frames[0]) == "packet"
  {
    assert Received(Packet) == Packet;
    SingleFrame(Packet);
  }
}
