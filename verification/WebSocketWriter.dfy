/** The writing side of a WebSocket: tasks append frames to one buffer while at most one of
    them drains another into the socket, in whatever pieces the socket takes. */
module WebSocketWriter {
  import opened Wrappers
  import opened Octets
  import opened WebSocketFrames
  import P = WebSocketParser

  // A task spawned by Send, SendPong, SendPing or Close.
  type Id = nat

  // ----- The fields of the WebSocket, and the code between two suspension points -----

  datatype Fields = Fields(connected: bool, isWriting: bool, writeBuffer: Bytes, writeTempBuffer: Bytes)

  /** The head of DoWrite's loop: swap the buffers and hand the full one to WriteN, or leave. */
  function LoopHead(f: Fields): (r: (Fields, bool))
  {
    if !f.connected then (f.(isWriting := false), false)
    else
      var g := f.(writeBuffer := f.writeTempBuffer, writeTempBuffer := f.writeBuffer);
      if g.writeBuffer == [] then (g.(isWriting := false), false) else (g, true)
  }

  /** A task up to its first suspension: append the frame, and start DoWrite unless it runs. */
  function StartTask(f: Fields, frame: Bytes): (Fields, bool) {
    var g := f.(writeTempBuffer := f.writeTempBuffer + frame);
    if g.isWriting then (g, false) else LoopHead(g.(isWriting := true))
  }

  /** DoWrite after WriteN has come back, with all bytes written or with an error. */
  function WriteReturned(f: Fields, ok: bool): (Fields, bool) {
    if ok then LoopHead(f.(writeBuffer := [])) else (f.(connected := false, isWriting := false), false)
  }

  class WebSocket {
    var connected: bool
    var isWriting: bool
    var writeBuffer: Bytes
    var writeTempBuffer: Bytes

    function View(): Fields
      reads this
    {
      Fields(connected, isWriting, writeBuffer, writeTempBuffer)
    }

    constructor ()
      ensures View() == Fields(true, false, [], [])
    {
      connected, isWriting, writeBuffer, writeTempBuffer := true, false, [], [];
    }

    method SendTask(opcode: byte, payload: Bytes) returns (suspended: bool)
      requires opcode < 0x10 && |payload| < 0x8000_0000_0000_0000
      modifies this
      ensures (View(), suspended) == StartTask(old(View()), P.MakeFrame(opcode, None, payload))
    {
      writeTempBuffer := P.WebSocketParser.MakeFrameToBuffer(opcode, None, payload, writeTempBuffer);
      if isWriting {
        return false;
      }
      isWriting := true;
      suspended := NextRound();
    }

    method NextRound() returns (suspended: bool)
      modifies this
      ensures (View(), suspended) == LoopHead(old(View()))
    {
      if connected {
        writeBuffer, writeTempBuffer := writeTempBuffer, writeBuffer;
        if writeBuffer != [] {
          return true;
        }
      }
      isWriting := false;
      return false;
    }

    method AfterWriteN(written: int) returns (suspended: bool)
      modifies this
      ensures (View(), suspended) == WriteReturned(old(View()), written == old(|writeBuffer|))
    {
      if written != |writeBuffer| {
        connected := false;
        isWriting := false;
        return false;
      }
      writeBuffer := [];
      suspended := NextRound();
    }
  }

  // ----- All tasks together -----

  // A task inside WriteN: bytes already written, bytes to write, and whether the task closes
  // the socket after DoWrite (Close does).
  datatype Active = Active(sent: nat, total: nat, closes: bool)

  // wire: what the kernel accepted.  flushed: how much of writeBuffer that is (a counter of
  // the proof, like `queued`, the frames appended so far).
  datatype State = State(f: Fields, writers: map<Id, Active>, wire: Bytes, flushed: nat, queued: seq<P.Raw>)

  datatype Step =
    | Start(i: Id, opcode: byte, payload: Bytes, closes: bool)
    | Written(i: Id, k: nat)      // a write took k bytes
    | Failed(i: Id)               // a write failed, or found the socket closed
    | Disconnect                  // somebody else closed the socket

  const Init := State(Fields(true, false, [], []), map[], [], 0, [])

  function FrameToSend(opcode: byte, payload: Bytes): P.Raw {
    P.Raw(true, opcode, P.ShortestForm(|payload|), None, payload)
  }

  predicate Enabled(s: State, step: Step) {
    match step
    case Start(i, opcode, payload, _) => i !in s.writers && P.ValidRaw(FrameToSend(opcode, payload))
    case Written(i, k) => i in s.writers && s.f.connected && s.writers[i].sent + k <= s.writers[i].total <= |s.f.writeBuffer|
    case Failed(i) => i in s.writers
    case Disconnect => true
  }

  /** The task goes on after a segment: inside WriteN again, or done with DoWrite. */
  function Continue(s: State, i: Id, r: (Fields, bool), closes: bool): State {
    if r.1 then s.(f := r.0, writers := s.writers[i := Active(0, |r.0.writeBuffer|, closes)], flushed := 0)
    else s.(f := if closes then r.0.(connected := false) else r.0, writers := s.writers - {i})
  }

  /** A write took `k` more bytes of the first buffer. */
  function Wrote(s: State, i: Id, k: nat): State
    requires Enabled(s, Written(i, k))
  {
    var a := s.writers[i];
    s.(wire := s.wire + s.f.writeBuffer[a.sent..a.sent + k], flushed := s.flushed + k,
       writers := s.writers[i := a.(sent := a.sent + k)])
  }

  function Apply(s: State, step: Step): State
    requires Enabled(s, step)
  {
    match step
    case Start(i, opcode, payload, closes) =>
      var frame := P.MakeFrame(opcode, None, payload);
      var s' := s.(queued := s.queued + [FrameToSend(opcode, payload)]);
      // Close returns early, without closing, when another task is writing.
      Continue(s', i, StartTask(s.f, frame), closes && !s.f.isWriting)
    case Written(i, k) =>
      var a := s.writers[i];
      if a.sent + k < a.total then Wrote(s, i, k)
      else Continue(Wrote(s, i, k).(flushed := 0), i, WriteReturned(s.f, a.total == |s.f.writeBuffer|), a.closes)
    case Failed(i) =>
      Continue(s, i, WriteReturned(s.f, false), s.writers[i].closes)
    case Disconnect => s.(f := s.f.(connected := false))
  }

  predicate ValidRun(s: State, steps: seq<Step>)
    decreases |steps|
  {
    steps == [] || (Enabled(s, steps[0]) && ValidRun(Apply(s, steps[0]), steps[1..]))
  }

  function Exec(s: State, steps: seq<Step>): State
    requires ValidRun(s, steps)
    decreases |steps|
  {
    if steps == [] then s else Exec(Apply(s, steps[0]), steps[1..])
  }

  // ----- The invariant -----

  predicate AllValid(raws: seq<P.Raw>) {
    forall r :: r in raws ==> P.ValidRaw(r)
  }

  /** One DoWrite at most, and `isWriting` says whether there is one. */
  ghost predicate SingleWriter(s: State) {
    && (forall i, j :: i in s.writers && j in s.writers ==> i == j)
    && (s.f.isWriting <==> s.writers != map[])
    && (forall i :: i in s.writers ==> s.writers[i].sent == s.flushed < s.writers[i].total == |s.f.writeBuffer|)
  }

  /** Every byte enqueued is on the wire, in the unsent part of the one buffer, or in the
      other, in that order. */
  ghost predicate Conserved(s: State) {
    && s.flushed <= |s.f.writeBuffer|
    && AllValid(s.queued)
    && P.EncodeAll(s.queued) == s.wire + s.f.writeBuffer[s.flushed..] + s.f.writeTempBuffer
  }

  /** While connected, bytes waiting in the second buffer have a writer that will come for
      them, and between writers nothing is left in the first. */
  ghost predicate NoneStranded(s: State) {
    s.f.connected && !s.f.isWriting ==> s.f.writeTempBuffer == [] && s.f.writeBuffer == []
  }

  ghost predicate Inv(s: State) {
    SingleWriter(s) && Conserved(s) && NoneStranded(s)
  }

  lemma Regroup(a: Bytes, b: Bytes, c: Bytes)
    ensures a + (b + c) == a + b + c
  {
  }

  lemma {:induction false} EncodeAllAppend(raws: seq<P.Raw>, r: P.Raw)
    requires AllValid(raws) && P.ValidRaw(r)
    ensures AllValid(raws + [r])
    ensures P.EncodeAll(raws + [r]) == P.EncodeAll(raws) + P.EncodeRaw(r)
  {
    if raws == [] {
      assert [] + [r] == [r] && [r][1..] == [];
    } else {
      var first, later := raws[0], raws[1..];
      assert first in raws && AllValid(later);
      EncodeAllAppend(later, r);
      assert raws + [r] == [first] + (later + [r]);
      Regroup(P.EncodeRaw(first), P.EncodeAll(later), P.EncodeRaw(r));
    }
  }

  lemma TailsVanish(wire: Bytes, temp: Bytes)
    ensures wire + temp[0..] + [] == wire + temp
    ensures wire + [][0..] + temp == wire + temp
  {
    assert temp[0..] == temp;
  }

  /** A round of DoWrite's loop entered by task `i` with the first buffer empty. */
  lemma RoundKeeps(s: State, i: Id, g: Fields, closes: bool)
    requires forall j :: j in s.writers ==> j == i
    requires g.connected && g.isWriting && g.writeBuffer == [] && s.flushed == 0
    requires AllValid(s.queued) && P.EncodeAll(s.queued) == s.wire + g.writeTempBuffer
    ensures Inv(Continue(s, i, LoopHead(g), closes))
    ensures Continue(s, i, LoopHead(g), closes).wire == s.wire
  {
    TailsVanish(s.wire, g.writeTempBuffer);
    if g.writeTempBuffer == [] {
      RoundEnds(s, i, g, closes);
    } else {
      RoundGoesOn(s, i, g, closes);
    }
  }

  lemma RoundEnds(s: State, i: Id, g: Fields, closes: bool)
    requires forall j :: j in s.writers ==> j == i
    requires g.connected && g.writeBuffer == [] == g.writeTempBuffer && s.flushed == 0
    requires AllValid(s.queued) && P.EncodeAll(s.queued) == s.wire + [][0..] + []
    ensures Inv(Continue(s, i, LoopHead(g), closes))
  {
    assert Continue(s, i, LoopHead(g), closes).writers == map[];
  }

  lemma RoundGoesOn(s: State, i: Id, g: Fields, closes: bool)
    requires forall j :: j in s.writers ==> j == i
    requires g.connected && g.isWriting && g.writeBuffer == [] && g.writeTempBuffer != [] && s.flushed == 0
    requires AllValid(s.queued) && P.EncodeAll(s.queued) == s.wire + g.writeTempBuffer[0..] + []
    ensures Inv(Continue(s, i, LoopHead(g), closes))
  {
    var h := g.(writeBuffer := g.writeTempBuffer, writeTempBuffer := []);
    var s' := Continue(s, i, LoopHead(g), closes);
    assert s' == s.(f := h, writers := s.writers[i := Active(0, |h.writeBuffer|, closes)], flushed := 0);
    assert i in s'.writers && s'.writers != map[];
    assert SingleWriter(s');
  }

  lemma AppendConserves(s: State, frame: Bytes, r: P.Raw)
    requires Conserved(s) && P.ValidRaw(r) && P.EncodeRaw(r) == frame
    ensures AllValid(s.queued + [r])
    ensures P.EncodeAll(s.queued + [r])
         == s.wire + s.f.writeBuffer[s.flushed..] + (s.f.writeTempBuffer + frame)
  {
    EncodeAllAppend(s.queued, r);
  }

  /** The frame appended, nothing else done yet. */
  function Queued(s: State, r: P.Raw): State
    requires P.ValidRaw(r)
  {
    s.(queued := s.queued + [r], f := s.f.(writeTempBuffer := s.f.writeTempBuffer + P.EncodeRaw(r)))
  }

  lemma QueuedConserves(s: State, r: P.Raw)
    requires Inv(s) && P.ValidRaw(r)
    ensures Conserved(Queued(s, r)) && SingleWriter(Queued(s, r))
  {
    AppendConserves(s, P.EncodeRaw(r), r);
  }

  lemma StartsWriting(s: State, i: Id, r: P.Raw, closes: bool)
    requires Inv(s) && P.ValidRaw(r) && s.f.connected && !s.f.isWriting
    ensures var g := Queued(s, r).f.(isWriting := true);
            && Inv(Continue(Queued(s, r), i, LoopHead(g), closes))
            && Continue(Queued(s, r), i, LoopHead(g), closes).wire == s.wire
  {
    var q := Queued(s, r);
    QueuedConserves(s, r);
    assert q.f.writeBuffer == [] && q.flushed == 0;
    TailsVanish(q.wire, q.f.writeTempBuffer);
    RoundKeeps(q, i, q.f.(isWriting := true), closes);
  }

  lemma StartKeeps(s: State, step: Step)
    requires Inv(s) && step.Start? && Enabled(s, step)
    ensures Inv(Apply(s, step)) && Apply(s, step).wire == s.wire
  {
    var r := FrameToSend(step.opcode, step.payload);
    var q := Queued(s, r);
    assert P.EncodeRaw(r) == P.MakeFrame(step.opcode, None, step.payload);
    QueuedConserves(s, r);
    var s' := Apply(s, step);
    if s.f.isWriting {
      assert s'.writers == s.writers && s' == q;
    } else if s.f.connected {
      StartsWriting(s, step.i, r, step.closes);
      assert s' == Continue(q, step.i, LoopHead(q.f.(isWriting := true)), step.closes);
    } else {
      assert s'.writers == map[] && s'.f.(isWriting := false) == q.f;
    }
  }

  lemma PartConserves(wire: Bytes, b: Bytes, sent: nat, k: nat, temp: Bytes)
    requires sent + k <= |b|
    ensures wire + b[sent..] + temp == (wire + b[sent..sent + k]) + b[sent + k..] + temp
  {
    assert b[sent..] == b[sent..sent + k] + b[sent + k..];
  }

  lemma PartWritten(s: State, i: Id, k: nat)
    requires Inv(s) && Enabled(s, Written(i, k)) && s.writers[i].sent + k < s.writers[i].total
    ensures Inv(Wrote(s, i, k))
  {
    StaysSingle(s, i, k);
    StaysConserved(s, i, k);
  }

  lemma StaysConserved(s: State, i: Id, k: nat)
    requires Conserved(s) && Enabled(s, Written(i, k)) && s.writers[i].sent == s.flushed
    ensures Conserved(Wrote(s, i, k))
  {
    var b := s.f.writeBuffer;
    var s' := Wrote(s, i, k);
    assert s'.f == s.f && s'.queued == s.queued && s'.flushed == s.flushed + k <= |b|;
    assert s'.wire == s.wire + b[s.flushed..s.flushed + k];
    PartConserves(s.wire, b, s.flushed, k, s.f.writeTempBuffer);
  }

  lemma StaysSingle(s: State, i: Id, k: nat)
    requires SingleWriter(s) && Enabled(s, Written(i, k)) && s.writers[i].sent + k < s.writers[i].total
    ensures SingleWriter(Wrote(s, i, k))
  {
    var w := Wrote(s, i, k).writers;
    assert w.Keys == s.writers.Keys && i in w;
  }

  lemma AllWritten(s: State, i: Id, k: nat)
    requires Inv(s) && Enabled(s, Written(i, k)) && s.writers[i].sent + k == s.writers[i].total
    ensures var g := s.f.(writeBuffer := []);
            Inv(Continue(Wrote(s, i, k).(flushed := 0), i, LoopHead(g), s.writers[i].closes))
  {
    var b, s1 := s.f.writeBuffer, Wrote(s, i, k);
    PartConserves(s.wire, b, s.flushed, k, s.f.writeTempBuffer);
    assert b[s.flushed + k..] == [];
    assert s1.wire + [] == s1.wire;
    RoundKeeps(s1.(flushed := 0), i, s.f.(writeBuffer := []), s.writers[i].closes);
  }

  lemma WrittenKeeps(s: State, i: Id, k: nat)
    requires Inv(s) && Enabled(s, Written(i, k))
    ensures Inv(Apply(s, Written(i, k))) && s.wire <= Apply(s, Written(i, k)).wire
  {
    if s.writers[i].sent + k < s.writers[i].total {
      PartWritten(s, i, k);
    } else {
      AllWritten(s, i, k);
    }
  }

  lemma FailedKeeps(s: State, i: Id)
    requires Inv(s) && Enabled(s, Failed(i))
    ensures Inv(Apply(s, Failed(i))) && Apply(s, Failed(i)).wire == s.wire
  {
    assert Apply(s, Failed(i)).writers == map[];
  }

  lemma StepKeeps(s: State, step: Step)
    requires Inv(s) && Enabled(s, step)
    ensures Inv(Apply(s, step))
    ensures s.wire <= Apply(s, step).wire
  {
    match step
    case Start(_, _, _, _) => StartKeeps(s, step);
    case Written(i, k) => WrittenKeeps(s, i, k);
    case Failed(i) => FailedKeeps(s, i);
    case Disconnect =>
  }

  lemma {:induction false} RunKeeps(s: State, steps: seq<Step>)
    requires Inv(s) && ValidRun(s, steps)
    ensures Inv(Exec(s, steps)) && s.wire <= Exec(s, steps).wire
    decreases |steps|
  {
    if steps == [] {
    } else {
      StepKeeps(s, steps[0]);
      RunKeeps(Apply(s, steps[0]), steps[1..]);
    }
  }

  /** Over every run, at every suspension point: at most one DoWrite; the bytes on the wire are
      a prefix of the frames enqueued, in order; none are lost while connected; and bytes that
      wait in the second buffer wait for an active writer. */
  lemma WriterGuarantees(steps: seq<Step>)
    requires ValidRun(Init, steps)
    ensures var s := Exec(Init, steps);
            && (forall i, j :: i in s.writers && j in s.writers ==> i == j)
            && AllValid(s.queued)
            && s.flushed <= |s.f.writeBuffer|
            && P.EncodeAll(s.queued) == s.wire + s.f.writeBuffer[s.flushed..] + s.f.writeTempBuffer
            && (s.f.connected && s.f.writeTempBuffer != [] ==> s.f.isWriting && s.writers != map[])
            && (s.f.connected && !s.f.isWriting ==> s.wire == P.EncodeAll(s.queued))
  {
    RunKeeps(Init, steps);
    var s := Exec(Init, steps);
    if s.f.connected && !s.f.isWriting {
      assert s.f.writeBuffer[s.flushed..] == [];
      assert s.wire + [] + [] == s.wire;
    }
  }

  // ----- What can happen -----

  /** Every frame of any task can be enqueued, whatever the state, and is then the last queued;
      on a live connection nobody is writing, its task starts to. */
  lemma AnyFrameStarts(s: State, i: Id, opcode: byte, payload: Bytes, closes: bool)
    requires Inv(s) && i !in s.writers
    requires opcode < 16 && opcode !in {3, 4, 5, 6, 7, 11} && |payload| < 0x8000_0000_0000_0000
    ensures Enabled(s, Start(i, opcode, payload, closes))
    ensures var s' := Apply(s, Start(i, opcode, payload, closes));
            && |s'.queued| == |s.queued| + 1 && s'.queued[..|s.queued|] == s.queued
            && P.FrameOf(s'.queued[|s.queued|]) == Frame(true, false, opcode, |payload|, [0, 0, 0, 0], payload)
            && s'.f.connected == s.f.connected
            && (s.f.connected && s.writers == map[] ==> s'.writers.Keys == {i} && s'.writers[i].closes == closes)
            && (s.writers != map[] ==> s'.writers == s.writers)
  {
    var step := Start(i, opcode, payload, closes);
    var r := FrameToSend(opcode, payload);
    assert P.EncodeRaw(r) == P.MakeFrame(opcode, None, payload);
    FramesHaveBytes(r);
    if s.f.connected && s.writers == map[] {
      assert Apply(s, step).writers == map[i := Active(0, |P.EncodeRaw(r)|, closes)];
    }
  }

  lemma FramesHaveBytes(r: P.Raw)
    requires P.ValidRaw(r)
    ensures |P.EncodeRaw(r)| >= 2
  {
  }

  /** The writer can have any part of its bytes taken; with the rest of them taken and nothing
      else waiting it is done, and with it all that was queued is on the wire. */
  lemma LastRound(s: State, i: Id, k: nat)
    requires Inv(s) && s.f.connected && i in s.writers && k <= |s.f.writeBuffer| - s.flushed
    ensures Enabled(s, Written(i, k))
    ensures k == |s.f.writeBuffer| - s.flushed && s.f.writeTempBuffer == [] ==>
      var s' := Apply(s, Written(i, k));
      && s'.writers == map[] && s'.wire == P.EncodeAll(s.queued) && s'.queued == s.queued
      && (s'.f.connected <==> !s.writers[i].closes)
  {
    if k == |s.f.writeBuffer| - s.flushed && s.f.writeTempBuffer == [] {
      var s' := Apply(s, Written(i, k));
      assert s'.writers == map[];
      assert s.f.writeBuffer[s.flushed..s.flushed + k] == s.f.writeBuffer[s.flushed..];
      assert s'.wire == s.wire + s.f.writeBuffer[s.flushed..] + s.f.writeTempBuffer;
    }
  }

  /** With bytes waiting in the second buffer it goes on with these. */
  lemma NextRoundStarts(s: State, i: Id)
    requires Inv(s) && s.f.connected && i in s.writers && s.f.writeTempBuffer != []
    ensures var s' := Apply(s, Written(i, |s.f.writeBuffer| - s.flushed));
            && s'.f == Fields(true, true, s.f.writeTempBuffer, [])
            && s'.writers == map[i := Active(0, |s.f.writeTempBuffer|, s.writers[i].closes)]
            && s'.flushed == 0 && s'.queued == s.queued
  {
    var s' := Apply(s, Written(i, |s.f.writeBuffer| - s.flushed));
    assert s'.writers.Keys == {i};
  }

  /** So on a live connection everything queued is on the wire after two writes that succeed,
      and the connection is then closed only by a task that is to close it. */
  lemma TwoWritesDrain(s: State, i: Id)
    requires Inv(s) && s.f.connected && i in s.writers
    ensures var rest := |s.f.writeBuffer| - s.flushed;
            var steps := [Written(i, rest)] + (if s.f.writeTempBuffer == [] then [] else [Written(i, |s.f.writeTempBuffer|)]);
            && ValidRun(s, steps)
            && Exec(s, steps).writers == map[] && Exec(s, steps).wire == P.EncodeAll(s.queued)
            && (Exec(s, steps).f.connected <==> !s.writers[i].closes)
  {
    var first := Written(i, |s.f.writeBuffer| - s.flushed);
    LastRound(s, i, first.k);
    var s1 := Apply(s, first);
    if s.f.writeTempBuffer == [] {
      assert ValidRun(s1, []) && [first][1..] == [];
    } else {
      NextRoundStarts(s, i);
      WrittenKeeps(s, i, first.k);
      var second := Written(i, |s.f.writeTempBuffer|);
      LastRound(s1, i, second.k);
      RunsTwo(s, first, second);
    }
  }

  lemma RunsTwo(s: State, first: Step, second: Step)
    requires Enabled(s, first) && Enabled(Apply(s, first), second)
    ensures ValidRun(s, [first] + [second]) && Exec(s, [first] + [second]) == Apply(Apply(s, first), second)
  {
    var steps := [first] + [second];
    assert steps[1..] == [second] && [second][1..] == [];
    assert Exec(Apply(Apply(s, first), second), []) == Apply(Apply(s, first), second);
  }

  /** A write that leaves bytes to write leaves its task writing and the connection alive. */
  lemma PartKeepsWriting(s: State, i: Id, k: nat)
    requires Inv(s) && s.f.connected && i in s.writers && k < |s.f.writeBuffer| - s.flushed
    ensures Enabled(s, Written(i, k))
    ensures var s' := Apply(s, Written(i, k));
            && s'.f == s.f && s'.writers.Keys == {i} && s'.writers[i].closes == s.writers[i].closes
            && s'.flushed == s.flushed + k
  {
  }
}
