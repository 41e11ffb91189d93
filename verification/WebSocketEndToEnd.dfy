/** A WebSocket writer, a wire and the peer's reader: what is handed to the peer is what was
    enqueued, however the tasks interleave, the writes are split and the reads are cut. */
module WebSocketEndToEnd {
  import opened Wrappers
  import opened Octets
  import opened WebSocketFrames
  import P = WebSocketParser
  import W = WebSocketWriter
  import Pacing

  // reading: DoRead's loop goes on.  failed: a Parse returned false.
  datatype Peer = Peer(rx: P.State, taken: seq<Frame>, reading: bool, failed: bool)

  // received: the bytes the peer's reads have returned so far (a record of the proof).
  datatype State = State(w: W.State, received: Bytes, peer: Peer)

  datatype Step =
    | Writer(step: W.Step)
    | Read(k: nat)       // the peer's next read returns k bytes

  const Start := State(W.Init, [], Peer(P.Fresh, [], true, false))

  /** Whether DoRead reads on after a frame: not after a close, nor after an opcode it does
      not know. */
  predicate GoesOn(f: Frame) {
    f.opcode in {0x1, 0x2, 0x9, 0xa}
  }

  /** One turn of DoRead: parse what was read, and take one frame if there is one. */
  function Turn(p: Peer, data: Bytes): Peer
    requires P.WellFormed(p.rx)
  {
    var (status, rx) := P.Parsed(p.rx, data);
    if !status.NeedMore? then Peer(rx, p.taken, false, true)
    else if rx.complete == [] then p.(rx := rx)
    else Peer(rx.(complete := rx.complete[1..]), p.taken + [rx.complete[0]], GoesOn(rx.complete[0]), p.failed)
  }

  predicate Enabled(s: State, step: Step) {
    match step
    case Writer(step) => W.Enabled(s.w, step)
    case Read(k) => s.peer.reading && 0 < k <= |s.w.wire| - |s.received| && P.WellFormed(s.peer.rx)
  }

  function Arrived(s: State, k: nat): Bytes
    requires |s.received| + k <= |s.w.wire|
  {
    s.w.wire[|s.received|..|s.received| + k]
  }

  function Apply(s: State, step: Step): State
    requires Enabled(s, step)
  {
    match step
    case Writer(step) => s.(w := W.Apply(s.w, step))
    case Read(k) => s.(received := s.received + Arrived(s, k), peer := Turn(s.peer, Arrived(s, k)))
  }

  predicate ValidRun(s: State, steps: seq<Step>)
    decreases |steps|
  {
    steps == [] || (Enabled(s, steps[0]) && ValidRun(Apply(s, steps[0]), steps[1..]))
  }

  function Exec(s: State, steps: seq<Step>): State
    requires ValidRun(s, steps)
    decreases |steps|
  {
    if steps == [] then s else Exec(Apply(s, steps[0]), steps[1..])
  }

  // ----- What the peer's state says -----

  /** The parser after `received`, as if in one piece. */
  function After(received: Bytes): (r: P.State)
    ensures P.WellFormed(r)
  {
    if received == [] then P.Fresh else P.Parsed(P.Fresh, received).1
  }

  ghost predicate PeerInv(p: Peer, received: Bytes) {
    && P.WellFormed(p.rx)
    && p.rx.(complete := p.taken + p.rx.complete) == After(received)
  }

  lemma AfterMore(received: Bytes, data: Bytes)
    requires data != []
    ensures P.Parsed(After(received), data) == P.Parsed(P.Fresh, received + data)
  {
    if received == [] {
      assert received + data == data;
    } else {
      P.ChunksJoin(P.Fresh, received, data);
    }
  }

  /** A read keeps the peer's frames, taken and waiting, those of the bytes received. */
  lemma TurnKeeps(p: Peer, received: Bytes, data: Bytes)
    requires PeerInv(p, received) && data != []
    ensures PeerInv(Turn(p, data), received + data)
    ensures P.Parsed(p.rx, data).0 == P.Parsed(P.Fresh, received + data).0
    ensures p.taken <= Turn(p, data).taken
  {
    var (status, rx) := P.Parsed(p.rx, data);
    AfterMore(received, data);
    P.CompleteAppends(P.Feed(p.rx, data), p.taken);
    assert P.Feed(After(received), data)
        == P.Feed(p.rx, data).(complete := p.taken + p.rx.complete);
    if status.NeedMore? && rx.complete != [] {
      TakenOver(p.taken, rx.complete);
    }
  }

  lemma TakenOver(taken: seq<Frame>, complete: seq<Frame>)
    requires complete != []
    ensures (taken + [complete[0]]) + complete[1..] == taken + complete
  {
  }

  // ----- What bytes of the wire mean -----

  predicate Sendable(raws: seq<P.Raw>) {
    W.AllValid(raws) && forall r :: r in raws ==> r.fin
  }

  lemma {:induction false} FinalFramesAssemble(delivered: seq<Frame>, raws: seq<P.Raw>)
    requires Sendable(raws)
    ensures P.Assemble(P.Assembly(delivered, []), P.FramesOf(raws))
         == P.Assembly(delivered + P.FramesOf(raws), [])
    decreases |raws|
  {
    var fs := P.FramesOf(raws);
    if raws == [] {
      assert delivered + [] == delivered;
    } else {
      var f := P.FrameOf(raws[0]);
      assert raws[0] in raws && fs[0] == f && fs[1..] == P.FramesOf(raws[1..]);
      CollectFinal(delivered, f);
      FinalFramesAssemble(delivered + [f], raws[1..]);
      TakenOver(delivered, fs);
    }
  }

  lemma CollectFinal(delivered: seq<Frame>, f: Frame)
    requires f.fin
    ensures P.Collect(P.Assembly(delivered, []), f) == P.Assembly(delivered + [f], [])
  {
    assert [] + [f] == [f];
  }

  /** The whole of what was enqueued parses into exactly the frames enqueued. */
  lemma AllArrived(raws: seq<P.Raw>)
    requires Sendable(raws)
    ensures P.Parsed(P.Fresh, P.EncodeAll(raws)).0.NeedMore?
    ensures P.Parsed(P.Fresh, P.EncodeAll(raws)).1.complete == P.FramesOf(raws)
  {
    var all := P.EncodeAll(raws);
    assert P.Feed(P.Fresh, all) == P.Between(P.Assembly([], []), all + []) by {
      assert [] + all == all == all + [];
    }
    P.ParserAssembles(raws, P.Assembly([], []), []);
    FinalFramesAssemble([], raws);
    assert [] + P.FramesOf(raws) == P.FramesOf(raws);
    NothingMore(P.FramesOf(raws));
  }

  lemma NothingMore(delivered: seq<Frame>)
    ensures P.ParseLoop(P.Between(P.Assembly(delivered, []), [])).0.NeedMore?
    ensures P.ParseLoop(P.Between(P.Assembly(delivered, []), [])).1.complete == delivered
  {
  }

  /** A part of it parses without error into the first of them. */
  lemma PartArrived(raws: seq<P.Raw>, part: Bytes, rest: Bytes)
    requires Sendable(raws) && P.EncodeAll(raws) == part + rest
    ensures P.Parsed(P.Fresh, part).0.NeedMore?
    ensures P.Parsed(P.Fresh, part).1.complete <= P.FramesOf(raws)
  {
    AllArrived(raws);
    P.PrefixCompletes(P.Fresh, part, rest);
    if !P.Parsed(P.Fresh, part).0.NeedMore? {
      P.LoopVerdict(P.Feed(P.Fresh, part), rest);
      P.ChunksJoin(P.Fresh, part, rest);
    }
  }

  // ----- Over whole runs -----

  ghost predicate Inv(s: State) {
    && W.Inv(s.w)
    && Sendable(s.w.queued)
    && s.received <= s.w.wire
    && PeerInv(s.peer, s.received)
    && !s.peer.failed
  }

  lemma QueuedSendable(w: W.State, step: W.Step)
    requires W.Inv(w) && W.Enabled(w, step) && Sendable(w.queued) && W.Inv(W.Apply(w, step))
    ensures Sendable(W.Apply(w, step).queued)
  {
  }

  /** The unsent bytes follow those on the wire. */
  function Unsent(w: W.State): Bytes
    requires w.flushed <= |w.f.writeBuffer|
  {
    w.f.writeBuffer[w.flushed..] + w.f.writeTempBuffer
  }

  lemma WireIsPart(w: W.State, part: Bytes)
    requires W.Inv(w) && part <= w.wire
    ensures P.EncodeAll(w.queued) == part + (w.wire[|part|..] + Unsent(w))
  {
    assert w.wire == part + w.wire[|part|..];
    W.Regroup(w.wire, w.f.writeBuffer[w.flushed..], w.f.writeTempBuffer);
    W.Regroup(part, w.wire[|part|..], Unsent(w));
  }

  /** Whatever part of the wire the peer has, it is the beginning of what was enqueued. */
  lemma WireArrived(w: W.State, part: Bytes)
    requires W.Inv(w) && Sendable(w.queued) && part <= w.wire
    ensures P.Parsed(P.Fresh, part).0.NeedMore?
    ensures P.Parsed(P.Fresh, part).1.complete <= P.FramesOf(w.queued)
  {
    WireIsPart(w, part);
    PartArrived(w.queued, part, w.wire[|part|..] + Unsent(w));
  }

  lemma MoreOfWire(wire: Bytes, received: Bytes, k: nat)
    requires received <= wire && |received| + k <= |wire|
    ensures received + wire[|received|..|received| + k] == wire[..|received| + k] <= wire
  {
  }

  lemma PeerReads(w: W.State, p: Peer, received: Bytes, data: Bytes)
    requires W.Inv(w) && Sendable(w.queued) && PeerInv(p, received) && !p.failed
    requires data != [] && received + data <= w.wire
    ensures PeerInv(Turn(p, data), received + data) && !Turn(p, data).failed && p.taken <= Turn(p, data).taken
  {
    TurnKeeps(p, received, data);
    WireArrived(w, received + data);
  }

  lemma ReadKeeps(s: State, k: nat)
    requires Inv(s) && Enabled(s, Read(k))
    ensures Inv(Apply(s, Read(k)))
    ensures s.peer.taken <= Apply(s, Read(k)).peer.taken
  {
    MoreOfWire(s.w.wire, s.received, k);
    assert |Arrived(s, k)| == k;
    PeerReads(s.w, s.peer, s.received, Arrived(s, k));
  }

  lemma {:induction false} RunKeeps(s: State, steps: seq<Step>)
    requires Inv(s) && ValidRun(s, steps)
    ensures Inv(Exec(s, steps)) && s.peer.taken <= Exec(s, steps).peer.taken
    decreases |steps|
  {
    if steps == [] {
    } else {
      match steps[0] {
        case Writer(step) =>
          W.StepKeeps(s.w, step);
          QueuedSendable(s.w, step);
        case Read(k) =>
          ReadKeeps(s, k);
      }
      RunKeeps(Apply(s, steps[0]), steps[1..]);
    }
  }

  /** For every interleaving of enqueues, every schedule of partial writes and failures, and
      every cutting of the wire into reads: the peer's parser never fails, and the frames it
      has taken, followed by those that wait to be taken, are the first of the frames
      enqueued, in order and byte for byte. */
  lemma FramesArriveInOrder(steps: seq<Step>)
    requires ValidRun(Start, steps)
    ensures !Exec(Start, steps).peer.failed
    ensures Exec(Start, steps).peer.taken + Exec(Start, steps).peer.rx.complete <= P.FramesOf(Exec(Start, steps).w.queued)
  {
    RunKeeps(Start, steps);
    var s := Exec(Start, steps);
    WireArrived(s.w, s.received);
  }

  /** Once no writer is busy on a live connection and the peer has read the whole wire, its
      frames are all of those enqueued: nothing is stranded anywhere. */
  lemma AllFramesArrive(steps: seq<Step>)
    requires ValidRun(Start, steps)
    requires var s := Exec(Start, steps);
             s.w.f.connected && !s.w.f.isWriting && s.received == s.w.wire
    ensures Exec(Start, steps).peer.taken + Exec(Start, steps).peer.rx.complete == P.FramesOf(Exec(Start, steps).w.queued)
  {
    RunKeeps(Start, steps);
    var s := Exec(Start, steps);
    assert Unsent(s.w) == [];
    WireIsPart(s.w, s.w.wire);
    assert P.EncodeAll(s.w.queued) == s.received;
    AllArrived(s.w.queued);
    if s.received == [] {
      NothingEncoded(s.w.queued);
    }
  }

  lemma NothingEncoded(raws: seq<P.Raw>)
    requires W.AllValid(raws)
    ensures raws != [] ==> P.EncodeAll(raws) != []
  {
    if raws != [] {
      assert raws[0] in raws;
      P.TouchesBlank(raws[0], []);
      P.WholeUses(P.EncodeRaw(raws[0]) + []);
    }
  }

  // ----- How long the peer reads -----

  predicate Welcome(f: Frame) {
    f.opcode == 1 || f.opcode == 2 || f.opcode == 9 || f.opcode == 10
  }

  /** A turn that parses leaves the reader reading just when it takes no frame, or one of text,
      binary data, a ping or a pong. */
  lemma TurnGoesOn(p: Peer, data: Bytes)
    requires P.WellFormed(p.rx) && p.reading && P.Parsed(p.rx, data).0.NeedMore?
    ensures var p', waiting := Turn(p, data), P.Parsed(p.rx, data).1.complete;
            && p'.taken == p.taken + (if waiting == [] then [] else [waiting[0]])
            && (p'.reading <==> waiting == [] || Welcome(waiting[0]))
  {
  }

  ghost predicate ReadsOn(p: Peer) {
    p.reading <==> forall f :: f in p.taken ==> Welcome(f)
  }

  lemma TurnKeepsReadsOn(p: Peer, data: Bytes)
    requires P.WellFormed(p.rx) && p.reading && ReadsOn(p) && P.Parsed(p.rx, data).0.NeedMore?
    ensures ReadsOn(Turn(p, data))
  {
    TurnGoesOn(p, data);
    var waiting := P.Parsed(p.rx, data).1.complete;
    if waiting != [] {
      assert waiting[0] in Turn(p, data).taken;
    }
  }

  lemma ReadParses(s: State, k: nat)
    requires Inv(s) && Enabled(s, Read(k))
    ensures P.Parsed(s.peer.rx, Arrived(s, k)).0.NeedMore?
  {
    ReadKeeps(s, k);
  }

  lemma {:induction false} RunReadsOn(s: State, steps: seq<Step>)
    requires Inv(s) && ReadsOn(s.peer) && ValidRun(s, steps)
    ensures ReadsOn(Exec(s, steps).peer)
    decreases |steps|
  {
    if steps != [] {
      match steps[0] {
        case Writer(_) =>
        case Read(k) =>
          ReadParses(s, k);
          TurnKeepsReadsOn(s.peer, Arrived(s, k));
      }
      RunKeeps(s, steps[..1]);
      assert steps[..1][1..] == [];
      RunReadsOn(Apply(s, steps[0]), steps[1..]);
    }
  }

  /** Over every run the peer can read any part of what it has not read, if and only if every
      frame it has taken was of text, binary data, a ping or a pong. */
  lemma ReadsOnIff(steps: seq<Step>, k: nat)
    requires ValidRun(Start, steps) && 0 < k <= |Exec(Start, steps).w.wire| - |Exec(Start, steps).received|
    ensures Enabled(Exec(Start, steps), Read(k)) <==>
              forall f :: f in Exec(Start, steps).peer.taken ==> Welcome(f)
  {
    RunKeeps(Start, steps);
    RunReadsOn(Start, steps);
  }

  // ----- One frame for each read -----

  /** The peer after these reads. */
  function AfterReads(chunks: seq<Bytes>): (p: Peer)
    ensures P.WellFormed(p.rx)
  {
    if chunks == [] then Start.peer else Turn(AfterReads(chunks[..|chunks| - 1]), chunks[|chunks| - 1])
  }

  /** A connection that goes on: each read returns something, to a reader that reads, and none
      of them fails to parse. */
  predicate GoingOn(chunks: seq<Bytes>) {
    chunks == [] ||
      (var init := chunks[..|chunks| - 1];
      GoingOn(init) && AfterReads(init).reading && chunks[|chunks| - 1] != [] && !AfterReads(chunks).failed)
  }

  /** How many frames the first reads complete, for none, one, two and so on of them. */
  function Totals(chunks: seq<Bytes>): (totals: seq<nat>)
    ensures |totals| == |chunks| + 1 && totals[|chunks|] == |After(P.Join(chunks)).complete|
  {
    (if chunks == [] then [] else Totals(chunks[..|chunks| - 1])) + [|After(P.Join(chunks)).complete|]
  }

  lemma {:induction false} ReadsKeep(chunks: seq<Bytes>)
    requires GoingOn(chunks)
    ensures PeerInv(AfterReads(chunks), P.Join(chunks))
    decreases |chunks|
  {
    if chunks != [] {
      ReadsKeep(chunks[..|chunks| - 1]);
      TurnKeeps(AfterReads(chunks[..|chunks| - 1]), P.Join(chunks[..|chunks| - 1]), chunks[|chunks| - 1]);
    }
  }

  /** Of the frames there are after a read one is taken. */
  lemma TurnTakesOne(p: Peer, received: Bytes, data: Bytes)
    requires PeerInv(p, received) && data != [] && !Turn(p, data).failed
    ensures var was, now := |After(received).complete|, |After(received + data).complete|;
            && was <= now
            && var there := |p.rx.complete| + (now - was);
            |Turn(p, data).rx.complete| == if there == 0 then 0 else there - 1
  {
    TurnKeeps(p, received, data);
    P.CompleteAppends(P.Feed(p.rx, data), []);
    assert |p.taken + p.rx.complete| == |After(received).complete|;
    assert |Turn(p, data).taken + Turn(p, data).rx.complete| == |After(received + data).complete|;
  }

  lemma {:induction false} WaitingIs(chunks: seq<Bytes>)
    requires GoingOn(chunks)
    ensures Pacing.Growing(Totals(chunks)) && Pacing.Waiting(Totals(chunks)) == |AfterReads(chunks).rx.complete|
    decreases |chunks|
  {
    if chunks != [] {
      var init, data := chunks[..|chunks| - 1], chunks[|chunks| - 1];
      WaitingIs(init);
      ReadsKeep(init);
      TurnTakesOne(AfterReads(init), P.Join(init), data);
      Pacing.OneMoreRead(Totals(init), |After(P.Join(chunks)).complete|, Totals(chunks));
    }
  }

  /** On a connection that goes on, no frame is left waiting after the reads if and only if no
      last reads of them have completed more frames than there are of these reads. */
  lemma NothingWaitsIff(chunks: seq<Bytes>)
    requires GoingOn(chunks)
    ensures AfterReads(chunks).rx.complete == [] <==> Pacing.Paced(Totals(chunks))
  {
    WaitingIs(chunks);
    Pacing.NothingWaitsIff(Totals(chunks));
  }

  /** So of frames that arrive in one read, the first is handed over and the others wait for
      more to be read. */
  lemma OneTurnOneFrame(raws: seq<P.Raw>)
    requires Sendable(raws) && raws != []
    ensures Turn(Start.peer, P.EncodeAll(raws)).taken == [P.FrameOf(raws[0])]
    ensures Turn(Start.peer, P.EncodeAll(raws)).rx.complete == P.FramesOf(raws[1..])
  {
    AllArrived(raws);
    assert [] + [P.FrameOf(raws[0])] == [P.FrameOf(raws[0])];
  }
}
