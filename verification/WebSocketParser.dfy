/** The incremental WebSocket parser: bytes are buffered until a frame is whole, frames until
    a message is. */
module WebSocketParser {
  import opened Wrappers
  import opened Octets
  import opened WebSocketFrames

  // Throws: the length announced wraps size_t and reserving the payload raises.
  datatype Status = Success | Error | NeedMore | Throws

  datatype State = State(buffer: Bytes, complete: seq<Frame>, frames: seq<Frame>, newFrame: bool)

  const Fresh := State([], [], [], true)

  // DoParse takes the last frame, so there is one unless it is about to push one.
  predicate WellFormed(s: State) {
    s.newFrame || s.frames != []
  }

  function Payloads(frames: seq<Frame>): Bytes {
    if frames == [] then [] else frames[0].payload + Payloads(frames[1..])
  }

  /** The message that a final frame completes: the first frame, with everybody's payload. */
  function Merge(frames: seq<Frame>): Frame
    requires frames != []
  {
    if |frames| == 1 then frames[0]
    else frames[0].(payload := Payloads(frames), payloadLen := |Payloads(frames)|, fin := true)
  }

  /** The frames of the message being parsed, with one for the next attempt. */
  function Opened(s: State): (frames: seq<Frame>)
    requires WellFormed(s)
    ensures frames != []
  {
    if s.newFrame then s.frames + [Blank] else s.frames
  }

  function Last<T>(s: seq<T>): T
    requires s != []
  {
    s[|s| - 1]
  }

  function SetLast<T>(s: seq<T>, x: T): seq<T>
    requires s != []
  {
    s[..|s| - 1] + [x]
  }

  function StatusOf(o: Outcome): Status {
    match o
    case BadOpcode(_, _) => Error
    case TooLong(_, _, _, _, _) => Throws
    case Whole(_, _, _, _, _, _, _) => Success
    case _ => NeedMore
  }

  /** One attempt to take a frame off the buffer. */
  function Attempt(s: State): (Status, State)
    requires WellFormed(s)
  {
    var o := Decode(s.buffer);
    var frames := SetLast(Opened(s), Touch(Last(Opened(s)), o));
    if o.Whole? then
      WholeUses(s.buffer);
      var rest := s.buffer[o.used..];
      if o.fin then (Success, State(rest, s.complete + [Merge(frames)], [], true))
      else (Success, State(rest, s.complete, frames, true))
    else (StatusOf(o), s.(frames := frames, newFrame := false))
  }

  lemma WholeUses(b: Bytes)
    requires Decode(b).Whole?
    ensures 2 <= Decode(b).used <= |b|
  {
    VerdictStands(b, []);
  }

  lemma AttemptProgress(s: State)
    requires WellFormed(s)
    ensures WellFormed(Attempt(s).1)
    ensures Attempt(s).0.Success? ==> |Attempt(s).1.buffer| + 2 <= |s.buffer|
    ensures !Attempt(s).0.Success? ==> Attempt(s).1.buffer == s.buffer
  {
    if Decode(s.buffer).Whole? {
      WholeUses(s.buffer);
    }
  }

  /** The loop of Parse: attempts until one does not yield a frame. */
  function ParseLoop(s: State): (r: (Status, State))
    requires WellFormed(s)
    ensures WellFormed(r.1) && !r.0.Success?
    decreases |s.buffer|
  {
    AttemptProgress(s);
    var (status, s') := Attempt(s);
    if status.Success? then ParseLoop(s') else (status, s')
  }

  function Feed(s: State, data: Bytes): State {
    s.(buffer := s.buffer + data)
  }

  function Parsed(s: State, data: Bytes): (r: (Status, State))
    requires WellFormed(s)
    ensures WellFormed(r.1)
  {
    ParseLoop(Feed(s, data))
  }

  // ----- Chunking does not matter -----

  lemma TouchLastTwice(frames: seq<Frame>, a: Frame, b: Frame)
    requires frames != []
    ensures SetLast(SetLast(frames, a), b) == SetLast(frames, b)
    ensures Last(SetLast(frames, a)) == a
  {
  }

  /** An attempt that needs more leaves nothing behind that the next attempt can tell. */
  lemma RetryForgets(s: State, more: Bytes)
    requires WellFormed(s) && Attempt(s).0.NeedMore?
    ensures Attempt(Feed(Attempt(s).1, more)) == Attempt(Feed(s, more))
  {
    var s1, f := Attempt(s).1, Last(Opened(s));
    PartialIsForgotten(f, s.buffer, more);
    TouchLastTwice(Opened(s), Touch(f, Decode(s.buffer)), Touch(f, Decode(s.buffer + more)));
    assert Opened(Feed(s1, more)) == s1.frames;
    assert Opened(Feed(s, more)) == Opened(s);
  }

  /** An error is final: the buffer is not consumed and the same verdict comes back. */
  lemma VerdictSticks(s: State, more: Bytes)
    requires WellFormed(s) && (Attempt(s).0.Error? || Attempt(s).0.Throws?)
    ensures Attempt(Feed(Attempt(s).1, more)) == Attempt(Feed(s, more))
    ensures Attempt(Feed(s, more)) == (Attempt(s).0, Feed(Attempt(s).1, more))
  {
    var s1, f, o := Attempt(s).1, Last(Opened(s)), Decode(s.buffer);
    VerdictStands(s.buffer, more);
    TouchLastTwice(Opened(s), Touch(f, o), Touch(f, o));
    assert Touch(Touch(f, o), o) == Touch(f, o);
    assert Opened(Feed(s1, more)) == s1.frames;
    assert Opened(Feed(s, more)) == Opened(s);
  }

  lemma SuccessStands(s: State, more: Bytes)
    requires WellFormed(s) && Attempt(s).0.Success?
    ensures Attempt(Feed(s, more)) == (Success, Feed(Attempt(s).1, more))
  {
    VerdictStands(s.buffer, more);
    var used := Decode(s.buffer).used;
    assert (s.buffer + more)[used..] == s.buffer[used..] + more;
    assert Opened(Feed(s, more)) == Opened(s);
  }

  lemma {:induction false} LoopAbsorbs(s: State, more: Bytes)
    requires WellFormed(s)
    ensures ParseLoop(Feed(ParseLoop(s).1, more)) == ParseLoop(Feed(s, more))
    decreases |s.buffer|
  {
    AttemptProgress(s);
    AttemptProgress(Feed(s, more));
    var (status, s1) := Attempt(s);
    match status
    case Success =>
      SuccessStands(s, more);
      LoopAbsorbs(s1, more);
    case NeedMore =>
      RetryForgets(s, more);
    case _ =>
      VerdictSticks(s, more);
  }

  lemma FeedTwice(s: State, a: Bytes, b: Bytes)
    ensures Feed(Feed(s, a), b) == Feed(s, a + b)
  {
    assert (s.buffer + a) + b == s.buffer + (a + b);
  }

  /** Chunking independence, for every parser state and every byte stream: feeding two chunks
      one after the other leaves the same status, completed frames, partial frame and buffer
      as feeding them at once. */
  lemma ChunksJoin(s: State, a: Bytes, b: Bytes)
    requires WellFormed(s)
    ensures Parsed(Parsed(s, a).1, b) == Parsed(s, a + b)
  {
    LoopAbsorbs(Feed(s, a), b);
    FeedTwice(s, a, b);
  }

  function Join(chunks: seq<Bytes>): Bytes {
    if chunks == [] then [] else Join(chunks[..|chunks| - 1]) + Last(chunks)
  }

  /** Parsing chunk after chunk. */
  function ParseChunks(s: State, chunks: seq<Bytes>): (r: State)
    requires WellFormed(s)
    ensures WellFormed(r)
  {
    if chunks == [] then s else Parsed(ParseChunks(s, chunks[..|chunks| - 1]), Last(chunks)).1
  }

  /** Any cutting of the stream, into any number of chunks, empty ones included. */
  lemma {:induction false} AnyCutting(s: State, chunks: seq<Bytes>)
    requires WellFormed(s) && chunks != []
    ensures ParseChunks(s, chunks) == Parsed(s, Join(chunks)).1
  {
    var init := chunks[..|chunks| - 1];
    if init == [] {
      assert Join(chunks) == [] + Last(chunks) == Last(chunks);
    } else {
      AnyCutting(s, init);
      ChunksJoin(s, Join(init), Last(chunks));
    }
  }

  /** After a failed Parse no further input completes a frame or changes the verdict. */
  lemma ErrorSticks(s: State, a: Bytes, b: Bytes)
    requires WellFormed(s) && (Parsed(s, a).0.Error? || Parsed(s, a).0.Throws?)
    ensures Parsed(Parsed(s, a).1, b).0 == Parsed(s, a).0
    ensures Parsed(Parsed(s, a).1, b).1.complete == Parsed(s, a).1.complete
  {
    LoopVerdict(Feed(s, a), b);
  }

  lemma {:induction false} LoopVerdict(s: State, more: Bytes)
    requires WellFormed(s) && !ParseLoop(s).0.NeedMore?
    ensures ParseLoop(Feed(ParseLoop(s).1, more)) == (ParseLoop(s).0, Feed(ParseLoop(s).1, more))
    decreases |s.buffer|
  {
    AttemptProgress(s);
    var (status, s1) := Attempt(s);
    if status.Success? {
      LoopVerdict(s1, more);
    } else {
      VerdictSticks(s, more);
    }
  }

  /** Completed frames are only appended, and what is appended does not depend on what the
      caller has or has not taken out yet. */
  lemma {:induction false} CompleteAppends(s: State, taken: seq<Frame>)
    requires WellFormed(s)
    ensures ParseLoop(s.(complete := taken + s.complete))
         == (ParseLoop(s).0, ParseLoop(s).1.(complete := taken + ParseLoop(s).1.complete))
    ensures s.complete <= ParseLoop(s).1.complete
    decreases |s.buffer|
  {
    AttemptProgress(s);
    var t := s.(complete := taken + s.complete);
    assert Opened(t) == Opened(s);
    var (status, s1) := Attempt(s);
    assert Attempt(t) == (status, s1.(complete := taken + s1.complete)) by {
      if status.Success? && Decode(s.buffer).fin {
        var m := Merge(SetLast(Opened(s), Touch(Last(Opened(s)), Decode(s.buffer))));
        assert (taken + s.complete) + [m] == taken + (s.complete + [m]);
      }
    }
    if status.Success? {
      CompleteAppends(s1, taken);
    }
  }

  // ----- What the parser makes of a sequence of frames -----

  datatype Raw = Raw(fin: bool, opcode: byte, form: Form, key: Option<Bytes>, payload: Bytes)

  predicate ValidRaw(r: Raw) {
    ValidKey(r.key) && Fits(r.form, |r.payload|) && r.opcode < 0x10 && !Reserved(r.opcode)
  }

  function FrameOf(r: Raw): Frame {
    Frame(r.fin, r.key.Some?, r.opcode, |r.payload|, if r.key.Some? then r.key.value else Blank.maskingKey, r.payload)
  }

  function EncodeRaw(r: Raw): Bytes
    requires ValidRaw(r)
  {
    Encode(r.fin, r.opcode, r.form, r.key, r.payload)
  }

  function EncodeAll(raws: seq<Raw>): Bytes
    requires forall r :: r in raws ==> ValidRaw(r)
  {
    if raws == [] then [] else EncodeRaw(raws[0]) + EncodeAll(raws[1..])
  }

  // Messages delivered, and frames of the message still open.
  datatype Assembly = Assembly(delivered: seq<Frame>, pending: seq<Frame>)

  /** The parser's rule: collect frames until one is final, then deliver them merged. */
  function Collect(a: Assembly, f: Frame): Assembly {
    var open := a.pending + [f];
    if f.fin then Assembly(a.delivered + [Merge(open)], []) else a.(pending := open)
  }

  function Assemble(a: Assembly, fs: seq<Frame>): Assembly
    decreases |fs|
  {
    if fs == [] then a else Assemble(Collect(a, fs[0]), fs[1..])
  }

  // The parser between two frames, with `input` still to parse.
  function Between(a: Assembly, input: Bytes): State {
    State(input, a.delivered, a.pending, true)
  }

  function FramesOf(raws: seq<Raw>): (fs: seq<Frame>)
    ensures |fs| == |raws|
  {
    if raws == [] then [] else [FrameOf(raws[0])] + FramesOf(raws[1..])
  }

  lemma TouchesBlank(r: Raw, rest: Bytes)
    requires ValidRaw(r)
    ensures var o := Decode(EncodeRaw(r) + rest);
            o.Whole? && o.fin == r.fin && o.used == |EncodeRaw(r)| && Touch(Blank, o) == FrameOf(r)
  {
    EncodingDecodes(r.fin, r.opcode, r.form, r.key, r.payload, rest);
    assert Blank.payload + r.payload == r.payload;
  }

  lemma TakesOne(a: Assembly, r: Raw, rest: Bytes)
    requires ValidRaw(r)
    ensures Attempt(Between(a, EncodeRaw(r) + rest)) == (Success, Between(Collect(a, FrameOf(r)), rest))
  {
    TouchesBlank(r, rest);
    var e := EncodeRaw(r);
    assert (e + rest)[|e|..] == rest;
    TouchLastTwice([Blank], Blank, FrameOf(r));
    assert SetLast(a.pending + [Blank], FrameOf(r)) == a.pending + [FrameOf(r)];
  }

  /** On the encodings of any frames, whatever their flags, opcodes, keys and length forms, the
      parser delivers exactly what its rule says, and keeps the rest of the input. */
  lemma {:induction false} ParserAssembles(raws: seq<Raw>, a: Assembly, rest: Bytes)
    requires forall r :: r in raws ==> ValidRaw(r)
    ensures ParseLoop(Between(a, EncodeAll(raws) + rest)) == ParseLoop(Between(Assemble(a, FramesOf(raws)), rest))
    decreases |raws|
  {
    if raws == [] {
      assert [] + rest == rest;
    } else {
      var r, later := raws[0], raws[1..];
      EncodeAllCons(raws, rest);
      TakesOne(a, r, EncodeAll(later) + rest);
      LoopStep(Between(a, EncodeAll(raws) + rest));
      assert FramesOf(raws)[1..] == FramesOf(later);
      ParserAssembles(later, Collect(a, FrameOf(r)), rest);
    }
  }

  lemma EncodeAllCons(raws: seq<Raw>, rest: Bytes)
    requires raws != [] && forall r :: r in raws ==> ValidRaw(r)
    ensures EncodeAll(raws) + rest == EncodeRaw(raws[0]) + (EncodeAll(raws[1..]) + rest)
  {
  }

  lemma LoopStep(s: State)
    requires WellFormed(s) && Attempt(s).0.Success?
    ensures WellFormed(Attempt(s).1) && ParseLoop(s) == ParseLoop(Attempt(s).1)
  {
    AttemptProgress(s);
  }

  // ----- Messages -----

  // One fragment of a message: length form, masking key if any, and data.
  datatype Fragment = Fragment(form: Form, key: Option<Bytes>, payload: Bytes)

  predicate ValidFragments(frags: seq<Fragment>) {
    forall f :: f in frags ==> ValidKey(f.key) && Fits(f.form, |f.payload|)
  }

  /** Section 5.4: the first frame carries the opcode, the others 0, the last one FIN. */
  function Fragmented(opcode: byte, frags: seq<Fragment>): (raws: seq<Raw>)
    ensures |raws| == |frags|
  {
    if frags == [] then []
    else [Raw(|frags| == 1, opcode, frags[0].form, frags[0].key, frags[0].payload)] + Fragmented(0, frags[1..])
  }

  function DataOfFragments(frags: seq<Fragment>): Bytes {
    if frags == [] then [] else frags[0].payload + DataOfFragments(frags[1..])
  }

  lemma {:induction false} PayloadsAppend(a: seq<Frame>, b: seq<Frame>)
    ensures Payloads(a + b) == Payloads(a) + Payloads(b)
  {
    if a == [] {
      assert a + b == b;
    } else {
      assert (a + b)[1..] == a[1..] + b;
      PayloadsAppend(a[1..], b);
    }
  }

  function Closed(f: Frame, data: Bytes): Frame {
    f.(payload := data, payloadLen := |data|, fin := true)
  }

  /** The continuation of an open message: everything is appended, one message comes out. */
  lemma {:induction false} ContinuationMerges(a: Assembly, frags: seq<Fragment>)
    requires a.pending != [] && frags != []
    ensures Assemble(a, FramesOf(Fragmented(0, frags)))
         == Assembly(a.delivered + [Closed(a.pending[0], Payloads(a.pending) + DataOfFragments(frags))], [])
    decreases |frags|
  {
    var raws := Fragmented(0, frags);
    var f := FrameOf(raws[0]);
    var open := a.pending + [f];
    PayloadsAppend(a.pending, [f]);
    assert Payloads([f]) == f.payload + Payloads([f][1..]) == f.payload;
    assert FramesOf(raws)[1..] == FramesOf(raws[1..]);
    assert raws[1..] == Fragmented(0, frags[1..]);
    if |frags| == 1 {
      assert DataOfFragments(frags) == f.payload;
    } else {
      ContinuationMerges(a.(pending := open), frags[1..]);
      assert Payloads(open) + DataOfFragments(frags[1..]) == Payloads(a.pending) + DataOfFragments(frags);
    }
  }

  /** The message a peer meant. */
  function Message(opcode: byte, frags: seq<Fragment>): Frame
    requires frags != []
  {
    var all := DataOfFragments(frags);
    var key := frags[0].key;
    Frame(true, key.Some?, opcode, |all|, if key.Some? then key.value else Blank.maskingKey, all)
  }

  lemma FragmentsAssemble(delivered: seq<Frame>, opcode: byte, frags: seq<Fragment>)
    requires frags != []
    ensures Assemble(Assembly(delivered, []), FramesOf(Fragmented(opcode, frags)))
         == Assembly(delivered + [Message(opcode, frags)], [])
  {
    var raws := Fragmented(opcode, frags);
    var f := FrameOf(raws[0]);
    assert FramesOf(raws)[1..] == FramesOf(raws[1..]);
    assert raws[1..] == Fragmented(0, frags[1..]);
    assert [] + [f] == [f];
    if |frags| == 1 {
      assert DataOfFragments(frags) == f.payload;
    } else {
      assert Payloads([f]) == f.payload;
      ContinuationMerges(Assembly(delivered, [f]), frags[1..]);
    }
  }

  /** A message split into any number of fragments, each masked or not and in any length form
      that fits, comes out as one frame: the first opcode, the whole data, nothing left over. */
  lemma MessageReassembled(opcode: byte, frags: seq<Fragment>, delivered: seq<Frame>, rest: Bytes)
    requires frags != [] && ValidFragments(frags) && opcode < 0x10 && !Reserved(opcode)
    ensures FragmentsValid(opcode, frags)
    ensures ParseLoop(Between(Assembly(delivered, []), EncodeAll(Fragmented(opcode, frags)) + rest))
         == ParseLoop(Between(Assembly(delivered + [Message(opcode, frags)], []), rest))
  {
    FragmentedValid(opcode, frags);
    FragmentsAssemble(delivered, opcode, frags);
    ParserAssembles(Fragmented(opcode, frags), Assembly(delivered, []), rest);
  }

  predicate FragmentsValid(opcode: byte, frags: seq<Fragment>) {
    forall r :: r in Fragmented(opcode, frags) ==> ValidRaw(r)
  }

  lemma {:induction false} FragmentedValid(opcode: byte, frags: seq<Fragment>)
    requires ValidFragments(frags) && opcode < 0x10 && !Reserved(opcode)
    ensures FragmentsValid(opcode, frags)
  {
    if frags == [] {
    } else {
      FragmentedValid(0, frags[1..]);
    }
  }

  // ----- Control frames inside a fragmented message -----

  predicate Control(f: Frame) {
    f.opcode >= 0x8
  }

  /** Sections 5.4 and 5.5: a control frame is delivered by itself, also in the middle of a
      fragmented message. */
  function CollectByStandard(a: Assembly, f: Frame): Assembly {
    if Control(f) then a.(delivered := a.delivered + [f]) else Collect(a, f)
  }

  function AssembleByStandard(a: Assembly, fs: seq<Frame>): Assembly
    decreases |fs|
  {
    if fs == [] then a else AssembleByStandard(CollectByStandard(a, fs[0]), fs[1..])
  }

  /** A stream the standard allows: control frames are not fragmented, and the opcode is 0 on
      continuations and only there. */
  predicate Legal(a: Assembly, fs: seq<Frame>)
    decreases |fs|
  {
    fs == [] ||
    (&& (Control(fs[0]) ==> fs[0].fin)
     && (!Control(fs[0]) ==> (fs[0].opcode == 0 <==> a.pending != []))
     && Legal(CollectByStandard(a, fs[0]), fs[1..]))
  }

  /** A control frame arrives while a message is open. */
  predicate Interleaved(a: Assembly, fs: seq<Frame>)
    decreases |fs|
  {
    fs != [] && ((Control(fs[0]) && a.pending != []) || Interleaved(CollectByStandard(a, fs[0]), fs[1..]))
  }

  predicate OpenMessage(pending: seq<Frame>) {
    pending != [] ==> !Control(pending[0]) && forall i :: 0 < i < |pending| ==> pending[i].opcode == 0
  }

  /** What the code asserts of the frames it merges, at every final frame of the stream. */
  predicate AssertsHold(a: Assembly, fs: seq<Frame>)
    decreases |fs|
  {
    fs == [] ||
    (&& (fs[0].fin ==> forall i :: 0 < i < |a.pending| ==> a.pending[i].opcode == 0)
     && (fs[0].fin && a.pending != [] ==> fs[0].opcode == 0)
     && AssertsHold(Collect(a, fs[0]), fs[1..]))
  }

  lemma {:induction false} DeliveredGrows(a: Assembly, fs: seq<Frame>)
    ensures a.delivered <= Assemble(a, fs).delivered
    ensures a.delivered <= AssembleByStandard(a, fs).delivered
    decreases |fs|
  {
    if fs == [] {
    } else {
      DeliveredGrows(Collect(a, fs[0]), fs[1..]);
      DeliveredGrows(CollectByStandard(a, fs[0]), fs[1..]);
    }
  }

  lemma InterleavingDiverges(a: Assembly, f: Frame, later: seq<Frame>)
    requires Control(f) && f.fin && a.pending != [] && OpenMessage(a.pending)
    ensures Assemble(Collect(a, f), later) != AssembleByStandard(CollectByStandard(a, f), later)
  {
    var k := |a.delivered|;
    DeliveredGrows(Collect(a, f), later);
    DeliveredGrows(CollectByStandard(a, f), later);
    assert Collect(a, f).delivered[k] == Merge(a.pending + [f]);
    assert Merge(a.pending + [f]).opcode == a.pending[0].opcode;
    assert CollectByStandard(a, f).delivered[k] == f;
  }

  lemma SameStep(a: Assembly, f: Frame)
    requires OpenMessage(a.pending)
    requires (Control(f) ==> f.fin) && (!Control(f) ==> (f.opcode == 0 <==> a.pending != []))
    requires !(Control(f) && a.pending != [])
    ensures Collect(a, f) == CollectByStandard(a, f) && OpenMessage(Collect(a, f).pending)
  {
    if Control(f) {
      assert [] + [f] == [f];
      assert a.delivered + [Merge([f])] == a.delivered + [f];
    }
  }

  /** The parser does what the standard asks of a legal stream exactly when no control frame
      arrives in the middle of a fragmented message; and its assert fails exactly when one
      does. */
  lemma {:induction false} FollowsStandardIff(a: Assembly, fs: seq<Frame>)
    requires OpenMessage(a.pending) && Legal(a, fs)
    ensures Assemble(a, fs) == AssembleByStandard(a, fs) <==> !Interleaved(a, fs)
    ensures AssertsHold(a, fs) <==> !Interleaved(a, fs)
    decreases |fs|
  {
    if fs == [] {
    } else if Control(fs[0]) && a.pending != [] {
      InterleavingDiverges(a, fs[0], fs[1..]);
    } else {
      SameStep(a, fs[0]);
      FollowsStandardIff(Collect(a, fs[0]), fs[1..]);
    }
  }

  const OpenText := Raw(false, 0x1, Short, None, [])
  const Ping := Raw(true, 0x9, Short, None, [])
  const Nobody := Assembly([], [])

  /** Two bytes of text frame, FIN clear, and a ping: the standard delivers the ping at once,
      the parser merges it into the text message. */
  lemma PingIsSwallowed()
    ensures EncodeRaw(OpenText) + EncodeRaw(Ping) == [0x01, 0x00, 0x89, 0x00]
    ensures Legal(Nobody, [FrameOf(OpenText), FrameOf(Ping)])
    ensures Assemble(Nobody, [FrameOf(OpenText), FrameOf(Ping)]) == Assembly([FrameOf(OpenText).(fin := true)], [])
    ensures AssembleByStandard(Nobody, [FrameOf(OpenText), FrameOf(Ping)])
         == Assembly([FrameOf(Ping)], [FrameOf(OpenText)])
  {
    var f, g := FrameOf(OpenText), FrameOf(Ping);
    assert [f, g][1..] == [g] && [g][1..] == [];
    assert Payloads([g]) == [];
    assert Payloads([f, g]) == [];
    assert Nobody.pending + [f] == [f];
    var a := Collect(Nobody, f);
    assert a == Assembly([], [f]) && a.pending + [g] == [f, g];
    assert Collect(a, g) == Assembly([] + [f.(fin := true)], []);
    assert Assemble(a, [g]) == Collect(a, g);
    assert CollectByStandard(a, g) == Assembly([] + [g], [f]);
    assert AssembleByStandard(a, [g]) == CollectByStandard(a, g);
  }

  // ----- Any prefix of a stream -----

  /** What has been completed on a prefix of the input is a prefix of what is completed on all
      of it. */
  lemma PrefixCompletes(s: State, prefix: Bytes, rest: Bytes)
    requires WellFormed(s)
    ensures Parsed(s, prefix).1.complete <= Parsed(s, prefix + rest).1.complete
  {
    ChunksJoin(s, prefix, rest);
    CompleteAppends(Feed(Parsed(s, prefix).1, rest), []);
  }

  // ----- The parser object -----

  class WebSocketParser {
    var buffer: Bytes
    var complete: seq<Frame>
    var frames: seq<Frame>
    var newFrame: bool

    function View(): State
      reads this
    {
      State(buffer, complete, frames, newFrame)
    }

    constructor ()
      ensures View() == Fresh
    {
      buffer, complete, frames, newFrame := [], [], [], true;
    }

    /** Takes in a chunk and completes whatever frames it can. */
    method Parse(data: Bytes) returns (ok: bool, ghost status: Status)
      requires WellFormed(View())
      modifies this
      ensures WellFormed(View())
      ensures (status, View()) == Parsed(old(View()), data)
      ensures ok == status.NeedMore?
    {
      buffer := buffer + data;
      var state := DoParse();
      while state.Success?
        invariant WellFormed(View())
        invariant !state.Success? ==> (state, View()) == Parsed(old(View()), data)
        invariant state.Success? ==> ParseLoop(View()) == Parsed(old(View()), data)
        decreases |buffer|, if state.Success? then 1 else 0
      {
        AttemptProgress(View());
        state := DoParse();
      }
      ok, status := state.NeedMore?, state;
    }

    method DoParse() returns (status: Status)
      requires WellFormed(View())
      modifies this
      ensures (status, View()) == Attempt(old(View()))
      ensures WellFormed(View())
      ensures status.Success? ==> |buffer| < old(|buffer|)
    {
      AttemptProgress(View());
      if newFrame {
        frames := frames + [Blank];
      }
      newFrame := false;
      var frame, used;
      status, frame, used := ReadFrame(Last(frames));
      frames := SetLast(frames, frame);
      if !status.Success? {
        return;
      }
      buffer := buffer[used..];
      newFrame := true;
      if frame.fin {
        var message := MergeFrames();
        complete := complete + [message];
        frames := [];
      }
    }

    /** The part of DoParse that reads the buffer and writes the fields of one frame. */
    method ReadFrame(start: Frame) returns (status: Status, frame: Frame, used: nat)
      ensures frame == Touch(start, Decode(buffer)) && status == StatusOf(Decode(buffer))
      ensures status.Success? ==> used == Decode(buffer).used && frame.fin == Decode(buffer).fin
    {
      frame, used := start, 0;
      if |buffer| < 2 {
        return NeedMore, frame, used;
      }
      frame := frame.(fin := buffer[0] >= 0x80, opcode := buffer[0] % 0x10);
      if (3 <= frame.opcode <= 7) || frame.opcode == 0xb {
        return Error, frame, used;
      }
      var len7 := buffer[1] % 0x80;
      frame := frame.(mask := buffer[1] >= 0x80, payloadLen := len7);
      var more := if len7 == 126 then 2 else if len7 == 127 then 8 else 0;
      var header := 2 + (if frame.mask then 4 else 0) + more;
      if |buffer| < header {
        return NeedMore, frame, used;
      }
      if more > 0 {
        var len := ReadLength(more);
        frame := frame.(payloadLen := len);
      }
      status, frame, used := ReadBody(frame, header);
    }

    /** ReadFrame from where the header has been read. */
    method ReadBody(start: Frame, header: nat) returns (status: Status, frame: Frame, used: nat)
      requires |buffer| >= 2 && !Reserved(OpcodeOf(buffer)) && |buffer| >= HeaderSize(buffer) == header
      requires start.fin == FinBit(buffer) && start.opcode == OpcodeOf(buffer)
      requires start.mask == MaskBit(buffer) && start.payloadLen == PayloadLen(buffer)
      ensures frame == Touch(start, Decode(buffer)) && status == StatusOf(Decode(buffer))
      ensures status.Success? ==> used == Decode(buffer).used && frame.fin == Decode(buffer).fin
    {
      DecodeBody(buffer);
      frame, used := start, 0;
      if |buffer| < SizeT(header + frame.payloadLen) {
        return NeedMore, frame, used;
      }
      if frame.mask {
        frame := frame.(maskingKey := buffer[header - 4..header]);
      }
      used := header + frame.payloadLen;
      if used >= SIZE_LIMIT {
        return Throws, frame, used;
      }
      var data := buffer[header..used];
      if frame.mask {
        data := Unmask(frame.maskingKey, data);
      }
      frame := frame.(payload := frame.payload + data);
      return Success, frame, used;
    }

    /** The extended length, most significant byte first. */
    method ReadLength(more: nat) returns (len: nat)
      requires 2 + more <= |buffer|
      ensures len == FromBigEndian(buffer[2..2 + more])
    {
      len := 0;
      for i := 0 to more
        invariant len == FromBigEndian(buffer[2..2 + i])
      {
        assert buffer[2..2 + i + 1][..i] == buffer[2..2 + i];
        len := len * 256 + buffer[2 + i];
      }
    }

    static method Unmask(key: Bytes, data: Bytes) returns (r: Bytes)
      requires |key| == 4
      ensures r == Masked(key, data)
    {
      r := [];
      for i := 0 to |data|
        invariant r == Masked(key, data)[..i]
      {
        r := r + [Xor(data[i], key[i % 4])];
      }
    }

    method MergeFrames() returns (message: Frame)
      requires frames != []
      ensures message == Merge(frames)
    {
      message := frames[0];
      if |frames| > 1 {
        for i := 1 to |frames|
          invariant message == frames[0].(payload := Payloads(frames[..i]))
        {
          PayloadsAppend(frames[..i], [frames[i]]);
          assert frames[..i + 1] == frames[..i] + [frames[i]];
          assert Payloads([frames[i]]) == frames[i].payload;
          message := message.(payload := message.payload + frames[i].payload);
        }
        assert frames[..|frames|] == frames;
        message := message.(payloadLen := |message.payload|, fin := true);
      }
    }

    predicate HasFrame()
      reads this
    {
      complete != []
    }

    method TakeFrame() returns (frame: Frame)
      requires HasFrame()
      modifies this
      ensures [frame] + complete == old(complete)
      ensures View() == old(View()).(complete := complete)
    {
      frame := complete[0];
      complete := complete[1..];
    }

    /** Appends a final frame to an output buffer, in the shortest length form; `key` is the
        random masking key, if the frame is to be masked. */
    static method MakeFrameToBuffer(opcode: byte, key: Option<Bytes>, payload: Bytes, out: Bytes) returns (out': Bytes)
      requires opcode < 0x10 && ValidKey(key) && |payload| < 0x8000_0000_0000_0000
      ensures out' == out + MakeFrame(opcode, key, payload)
    {
      var maskAndLen := if key.Some? then 0x80 else 0;
      out' := AppendLength(maskAndLen, |payload|, out + [0x80 + opcode]);
      ghost var form := ShortestForm(|payload|);
      ghost var front := Head(true, opcode, form, key, |payload|) + LengthBytes(form, |payload|);
      assert out' == out + front;
      if key.Some? {
        var masked := Unmask(key.value, payload);
        out' := out' + (key.value + masked);
      } else {
        out' := out' + payload;
      }
      assert out' == (out + front) + Body(key, payload) == out + (front + Body(key, payload));
    }

    static method AppendLength(maskBit: byte, size: nat, out: Bytes) returns (out': Bytes)
      requires maskBit <= 0x80 && size < 0x8000_0000_0000_0000
      ensures out' == out + [maskBit + FormLen7(ShortestForm(size), size)] + LengthBytes(ShortestForm(size), size)
    {
      if size < 126 {
        out' := out + [maskBit + size] + [];
      } else if size < 65536 {
        out' := out + [maskBit + 126] + BigEndian(size, 2);
      } else {
        out' := out + [maskBit + 127] + BigEndian(size, 8);
      }
    }
  }

  function ShortestForm(n: nat): Form {
    if n < 126 then Short else if n < 65536 then Medium else Long
  }

  /** What MakeFrameToBuffer appends: the frame as the standard encodes it. */
  function MakeFrame(opcode: byte, key: Option<Bytes>, payload: Bytes): Bytes
    requires opcode < 0x10 && ValidKey(key) && |payload| < 0x8000_0000_0000_0000
  {
    Encode(true, opcode, ShortestForm(|payload|), key, payload)
  }

  /** Byte by byte: final and of this opcode; mask bit and length, in as few bytes as it fits;
      key; payload, masked with the key if there is one. */
  lemma FrameBytes(opcode: byte, key: Option<Bytes>, payload: Bytes)
    requires opcode < 0x10 && ValidKey(key) && |payload| < 0x8000_0000_0000_0000
    ensures var n, mask := |payload|, if key.Some? then 128 else 0;
            var length := if n <= 125 then [mask + n]
                          else if n <= 65535 then [mask + 126, n / 256, n % 256]
                          else [mask + 127] + BigEndian(n, 8);
            var data := if key.Some? then key.value + Masked(key.value, payload) else payload;
            MakeFrame(opcode, key, payload) == [128 + opcode] + length + data
  {
    var n := |payload|;
    if 125 < n <= 65535 {
      TwoBytes(n);
    }
  }

  lemma TwoBytes(n: nat)
    requires n < 65536
    ensures BigEndian(n, 2) == [n / 256, n % 256]
  {
    assert BigEndian(n / 256, 1) == BigEndian(n / 256 / 256, 0) + [n / 256];
  }
}
