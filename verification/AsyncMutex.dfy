/** The coroutine mutex as a system of atomic steps.

    One word, `state_`, is either unlocked, locked with nobody waiting, or the head of a
    LIFO stack of waiters; `waitersHead_` is a FIFO list only the holder touches.  Every
    load, compare-exchange, exchange and link write is a step of its own, any coroutine may
    take the next step, and a weak compare-exchange may fail for no reason. */
module AsyncMutex {
  import opened Links
  import opened Wrappers

  // kNotLocked is NotLocked, kLockedNoWaiters is Locked(Null).
  datatype Word = NotLocked | Locked(top: Link)

  // Where a coroutine stands.
  datatype Pc =
    | Idle                                    // neither holds nor wants the mutex
    | Entering(seen: Word)                     // in await_suspend's loop, `oldState` read
    | Linked(seen: Word)                       // `next_` written, push still to come
    | Suspended                               // pushed: await_suspend returned true
    | Holding                                 // inside the critical section
    | Releasing(seen: Word)                    // in Unlock, `oldState` read
    | Exchanging                              // in Unlock, about to take the stack
    | Reversing(cur: Link, newHead: Link)     // in Unlock's reversal loop
    | Popping                                 // in Unlock, about to pop `waitersHead_`
    | Resuming(head: Id)                      // popped, about to resume `head`

  datatype State = State(word: Word, waitersHead: Link, next: map<Id, Link>, pcs: map<Id, Pc>)

  datatype Step =
    | Load(i: Id)
    | CasAcquire(i: Id, spurious: bool)
    | WriteNext(i: Id)
    | CasPush(i: Id, spurious: bool)
    | TryLock(i: Id)
    | UnlockLoad(i: Id)
    | CasRelease(i: Id)
    | Exchange(i: Id)
    | ReverseOne(i: Id)
    | ReverseDone(i: Id)
    | Pop(i: Id)
    | Resume(i: Id)

  const Init := State(NotLocked, Null, map[], map[])

  function PcOf(s: State, i: Id): Pc {
    if i in s.pcs then s.pcs[i] else Idle
  }

  function Goto(s: State, i: Id, pc: Pc): State {
    s.(pcs := s.pcs[i := pc])
  }

  predicate Enabled(s: State, step: Step) {
    match step
    case Load(i) => PcOf(s, i).Idle?
    case CasAcquire(i, _) => PcOf(s, i).Entering? && PcOf(s, i).seen.NotLocked?
    case WriteNext(i) => PcOf(s, i).Entering? && PcOf(s, i).seen.Locked?
    case CasPush(i, _) => PcOf(s, i).Linked?
    case TryLock(i) => PcOf(s, i).Idle?
    case UnlockLoad(i) => PcOf(s, i).Holding?
    case CasRelease(i) => PcOf(s, i) == Releasing(Locked(Null)) && s.waitersHead.Null?
    case Exchange(i) =>
      || PcOf(s, i).Exchanging?
      || (PcOf(s, i).Releasing? && PcOf(s, i).seen != Locked(Null) && s.waitersHead.Null?)
    case ReverseOne(i) => PcOf(s, i).Reversing? && PcOf(s, i).cur.To?
    case ReverseDone(i) => PcOf(s, i).Reversing? && PcOf(s, i).cur.Null?
    case Pop(i) =>
      && s.waitersHead.To?
      && (PcOf(s, i).Popping? || PcOf(s, i).Releasing?)
    case Resume(i) => PcOf(s, i).Resuming?
  }

  /** The effect of a step.  A failed compare-exchange reloads the expected value. */
  function Apply(s: State, step: Step): State
    requires Enabled(s, step)
  {
    match step
    case Load(i) => Goto(s, i, Entering(s.word))
    case CasAcquire(i, spurious) =>
      if s.word.NotLocked? && !spurious then Goto(s.(word := Locked(Null)), i, Holding)
      else Goto(s, i, Entering(s.word))
    case WriteNext(i) =>
      var seen := PcOf(s, i).seen;
      Goto(s.(next := s.next[i := seen.top]), i, Linked(seen))
    case CasPush(i, spurious) =>
      if s.word == PcOf(s, i).seen && !spurious then Goto(s.(word := Locked(To(i))), i, Suspended)
      else Goto(s, i, Entering(s.word))
    case TryLock(i) =>
      if s.word.NotLocked? then Goto(s.(word := Locked(Null)), i, Holding) else s
    case UnlockLoad(i) => Goto(s, i, Releasing(s.word))
    case CasRelease(i) =>
      if s.word == Locked(Null) then Goto(s.(word := NotLocked), i, Idle)
      else Goto(s, i, Exchanging)
    case Exchange(i) =>
      var stack := if s.word.Locked? then s.word.top else Null;
      Goto(s.(word := Locked(Null)), i, Reversing(stack, Null))
    case ReverseOne(i) =>
      var Reversing(cur, newHead) := PcOf(s, i);
      var temp := At(s.next, cur.id);
      Goto(s.(next := s.next[cur.id := newHead]), i, Reversing(temp, cur))
    case ReverseDone(i) =>
      Goto(s.(waitersHead := PcOf(s, i).newHead), i, Popping)
    case Pop(i) =>
      var head := s.waitersHead.id;
      Goto(s.(waitersHead := At(s.next, head)), i, Resuming(head))
    case Resume(i) =>
      Goto(Goto(s, i, Idle), PcOf(s, i).head, Holding)
  }

  /** What the asserts of Unlock say in the state where they are evaluated. */
  predicate AssertsHold(s: State, step: Step) {
    match step
    case UnlockLoad(_) => s.word.Locked?
    case Exchange(_) => s.word.Locked? && s.word.top.To?
    case ReverseDone(i) => PcOf(s, i).Reversing? && PcOf(s, i).newHead.To?
    case _ => true
  }

  predicate ValidRun(s: State, steps: seq<Step>)
    decreases |steps|
  {
    steps == [] || (Enabled(s, steps[0]) && ValidRun(Apply(s, steps[0]), steps[1..]))
  }

  function Exec(s: State, steps: seq<Step>): State
    requires ValidRun(s, steps)
    decreases |steps|
  {
    if steps == [] then s else Exec(Apply(s, steps[0]), steps[1..])
  }

  // ----- What the mutex is for: one holder and a FIFO queue -----

  datatype Queue = Queue(holder: Option<Id>, waiters: seq<Id>)

  datatype Event =
    | Internal
    | Acquired(i: Id)            // took a free mutex
    | Enqueued(i: Id)            // joined the queue
    | Freed(i: Id)               // left with nobody waiting
    | HandedOff(i: Id, to: Id)   // left and passed the mutex to `to`

  const Free := Queue(None, [])

  predicate SpecEnabled(q: Queue, e: Event) {
    match e
    case Internal => true
    case Acquired(_) => q == Free
    case Enqueued(i) => q.holder.Some? && q.holder.value != i && i !in q.waiters
    case Freed(i) => q == Queue(Some(i), [])
    case HandedOff(i, to) => q.holder == Some(i) && q.waiters != [] && q.waiters[0] == to
  }

  function SpecApply(q: Queue, e: Event): Queue
    requires SpecEnabled(q, e)
  {
    match e
    case Internal => q
    case Acquired(i) => Queue(Some(i), [])
    case Enqueued(i) => q.(waiters := q.waiters + [i])
    case Freed(_) => Free
    case HandedOff(_, to) => Queue(Some(to), q.waiters[1..])
  }

  predicate SpecRun(q: Queue, es: seq<Event>)
    decreases |es|
  {
    es == [] || (SpecEnabled(q, es[0]) && SpecRun(SpecApply(q, es[0]), es[1..]))
  }

  function SpecExec(q: Queue, es: seq<Event>): Queue
    requires SpecRun(q, es)
    decreases |es|
  {
    if es == [] then q else SpecExec(SpecApply(q, es[0]), es[1..])
  }

  /** What an observer sees of a step. */
  function EventOf(s: State, step: Step): Event
    requires Enabled(s, step)
  {
    match step
    case CasAcquire(i, spurious) => if s.word.NotLocked? && !spurious then Acquired(i) else Internal
    case TryLock(i) => if s.word.NotLocked? then Acquired(i) else Internal
    case CasPush(i, spurious) => if s.word == PcOf(s, i).seen && !spurious then Enqueued(i) else Internal
    case CasRelease(i) => if s.word == Locked(Null) then Freed(i) else Internal
    case Resume(i) => HandedOff(i, PcOf(s, i).head)
    case _ => Internal
  }

  function Trace(s: State, steps: seq<Step>): seq<Event>
    requires ValidRun(s, steps)
    decreases |steps|
  {
    if steps == [] then [] else [EventOf(s, steps[0])] + Trace(Apply(s, steps[0]), steps[1..])
  }

  // Who joins the queue and who is taken off it, in order.
  function EnqueueOrder(es: seq<Event>): seq<Id> {
    if es == [] then [] else Joins(es[0]) + EnqueueOrder(es[1..])
  }

  function GrantOrder(es: seq<Event>): seq<Id> {
    if es == [] then [] else Serves(es[0]) + GrantOrder(es[1..])
  }

  function Joins(e: Event): seq<Id> {
    if e.Enqueued? then [e.i] else []
  }

  function Serves(e: Event): seq<Id> {
    if e.HandedOff? then [e.to] else []
  }

  // ----- The lists behind the pointers -----

  // holder: who is between acquiring and giving up the mutex.  stack: from `state_`;
  // fifo: from `waitersHead_`; todo and done: the two halves of the reversal loop.
  datatype Shape = Shape(holder: Option<Id>, fifo: seq<Id>, todo: seq<Id>, done: seq<Id>, stack: seq<Id>)

  predicate HolderPc(pc: Pc) {
    pc.Holding? || pc.Releasing? || pc.Exchanging? || pc.Reversing? || pc.Popping? || pc.Resuming?
  }

  function InHand(s: State, sh: Shape): seq<Id> {
    if sh.holder.Some? && PcOf(s, sh.holder.value).Resuming? then [PcOf(s, sh.holder.value).head] else []
  }

  /** Every waiter, first to be served first. */
  function Waiters(s: State, sh: Shape): seq<Id> {
    InHand(s, sh) + sh.fifo + Reverse(sh.todo) + sh.done + Reverse(sh.stack)
  }

  /** The holder is the one coroutine between acquiring and giving up, and the word says
      whether there is one. */
  ghost predicate Held(s: State, holder: Option<Id>) {
    && (forall i: Id :: HolderPc(PcOf(s, i)) <==> holder == Some(i))
    && (s.word.NotLocked? <==> holder == None)
  }

  /** `w` lists each suspended coroutine once and nobody else. */
  ghost predicate Queued(s: State, w: seq<Id>) {
    && NoDup(w)
    && (forall i: Id :: i in w <==> PcOf(s, i).Suspended?)
  }

  ghost predicate Pledged(s: State) {
    forall i: Id :: PcOf(s, i).Linked? ==> PcOf(s, i).seen.Locked? && At(s.next, i) == PcOf(s, i).seen.top
  }

  ghost predicate Lists(s: State, sh: Shape) {
    && IsChain(s.next, s.waitersHead, sh.fifo)
    && IsChain(s.next, if s.word.Locked? then s.word.top else Null, sh.stack)
  }

  /** What the holder's position in Unlock says about the lists. */
  ghost predicate HolderAt(s: State, sh: Shape, pc: Pc) {
    && (pc.Reversing? ==>
          && IsChain(s.next, pc.cur, sh.todo)
          && IsChain(s.next, pc.newHead, sh.done)
          && (sh.todo != [] || sh.done != []) && sh.fifo == [])
    && (!pc.Reversing? ==> sh.todo == [] && sh.done == [])
    && (pc.Releasing? ==> pc.seen.Locked? && (pc.seen.top.To? ==> sh.stack != []))
    && (pc.Exchanging? ==> sh.stack != [] && sh.fifo == [])
    && (pc.Popping? ==> sh.fifo != [])
  }

  ghost predicate Placed(s: State, sh: Shape) {
    && Lists(s, sh)
    && (sh.holder.Some? ==> HolderAt(s, sh, PcOf(s, sh.holder.value)))
    && (sh.holder.None? ==> sh.fifo == [] && sh.todo == [] && sh.done == [])
  }

  ghost predicate Inv(s: State, sh: Shape) {
    && Held(s, sh.holder)
    && Placed(s, sh)
    && Queued(s, Waiters(s, sh))
    && Pledged(s)
  }

  function Abs(s: State, sh: Shape): Queue {
    Queue(sh.holder, Waiters(s, sh))
  }

  /** How a step rearranges the lists. */
  function NextShape(s: State, step: Step, sh: Shape): Shape
    requires Enabled(s, step)
  {
    match step
    case CasAcquire(i, spurious) =>
      if s.word.NotLocked? && !spurious then sh.(holder := Some(i)) else sh
    case TryLock(i) => if s.word.NotLocked? then sh.(holder := Some(i)) else sh
    case CasPush(i, spurious) =>
      if s.word == PcOf(s, i).seen && !spurious then sh.(stack := [i] + sh.stack) else sh
    case CasRelease(i) => if s.word == Locked(Null) then sh.(holder := None) else sh
    case Exchange(_) => sh.(todo := sh.stack, stack := [])
    case ReverseOne(_) =>
      if sh.todo == [] then sh else sh.(todo := sh.todo[1..], done := [sh.todo[0]] + sh.done)
    case ReverseDone(_) => sh.(fifo := sh.done, done := [])
    case Pop(_) => if sh.fifo == [] then sh else sh.(fifo := sh.fifo[1..])
    case Resume(i) => sh.(holder := Some(PcOf(s, i).head))
    case _ => sh
  }

  // ----- Every step keeps the invariant and follows the specification -----

  ghost predicate Simulates(s: State, sh: Shape, e: Event, s': State, sh': Shape) {
    && Inv(s', sh')
    && SpecEnabled(Abs(s, sh), e)
    && Abs(s', sh') == SpecApply(Abs(s, sh), e)
  }

  /** The lists hold suspended coroutines only, so a running one may write its own link. */
  lemma OffTheLists(s: State, sh: Shape, i: Id)
    requires Queued(s, Waiters(s, sh)) && !PcOf(s, i).Suspended?
    ensures i !in sh.fifo && i !in sh.todo && i !in sh.done && i !in sh.stack
  {
    ReverseMembers(sh.todo);
    ReverseMembers(sh.stack);
    assert i !in Waiters(s, sh);
  }

  lemma TailMembers(w: seq<Id>)
    requires w != [] && NoDup(w)
    ensures NoDup(w[1..])
    ensures forall j :: j in w[1..] <==> j in w && j != w[0]
  {
  }

  lemma PushQueued(s: State, s': State, i: Id, w: seq<Id>)
    requires Queued(s, w) && !PcOf(s, i).Suspended?
    requires s'.pcs == s.pcs[i := Suspended]
    ensures Queued(s', w + [i])
  {
    assert i !in w;
    forall j ensures j in w + [i] <==> PcOf(s', j).Suspended? {
    }
  }

  lemma MoveQueued(s: State, s': State, i: Id, pc: Pc, w: seq<Id>)
    requires Queued(s, w) && !PcOf(s, i).Suspended? && !pc.Suspended?
    requires s'.pcs == s.pcs[i := pc]
    ensures Queued(s', w)
  {
  }

  lemma MoveHeld(s: State, s': State, i: Id, pc: Pc, holder: Option<Id>)
    requires Held(s, holder)
    requires s'.pcs == s.pcs[i := pc] && s'.word.NotLocked? == s.word.NotLocked?
    requires HolderPc(pc) == HolderPc(PcOf(s, i))
    ensures Held(s', holder)
  {
  }

  lemma MovePledged(s: State, s': State, i: Id, pc: Pc)
    requires Pledged(s)
    requires s'.pcs == s.pcs[i := pc] && s'.next == s.next && !pc.Linked?
    ensures Pledged(s')
  {
    assert forall j: Id :: PcOf(s', j) == if j == i then pc else PcOf(s, j);
  }

  lemma OutsidePlaced(s: State, i: Id, pc: Pc, sh: Shape)
    requires Placed(s, sh) && sh.holder != Some(i)
    ensures Placed(Goto(s, i, pc), sh)
    ensures Waiters(Goto(s, i, pc), sh) == Waiters(s, sh)
  {
  }

  /** A step that moves one coroutine between two program points that are neither in the
      critical section nor suspended changes nothing the specification sees. */
  lemma OutsideMove(s: State, i: Id, pc: Pc, sh: Shape)
    requires Inv(s, sh)
    requires !HolderPc(PcOf(s, i)) && !PcOf(s, i).Suspended?
    requires pc.Idle? || pc.Entering?
    ensures Simulates(s, sh, Internal, Goto(s, i, pc), sh)
  {
    var s' := Goto(s, i, pc);
    assert sh.holder != Some(i);
    OutsidePlaced(s, i, pc, sh);
    MoveHeld(s, s', i, pc, sh.holder);
    MoveQueued(s, s', i, pc, Waiters(s, sh));
    MovePledged(s, s', i, pc);
  }

  lemma NobodyWaits(s: State, sh: Shape)
    requires Placed(s, sh) && sh.holder.None? && s.word.NotLocked?
    ensures Waiters(s, sh) == []
  {
  }

  lemma TakenHeld(s: State, s': State, i: Id)
    requires Held(s, None) && s.word.NotLocked? && s'.word.Locked?
    requires s'.pcs == s.pcs[i := Holding]
    ensures Held(s', Some(i))
  {
    assert forall j: Id :: !HolderPc(PcOf(s, j));
  }

  lemma TakeFree(s: State, i: Id, sh: Shape)
    requires Inv(s, sh)
    requires s.word.NotLocked? && !PcOf(s, i).Suspended?
    ensures Simulates(s, sh, Acquired(i), Goto(s.(word := Locked(Null)), i, Holding), sh.(holder := Some(i)))
  {
    var s', sh' := Goto(s.(word := Locked(Null)), i, Holding), sh.(holder := Some(i));
    assert sh.holder == None;
    NobodyWaits(s, sh);
    MoveQueued(s, s', i, Holding, []);
    MovePledged(s, s', i, Holding);
    TakenHeld(s, s', i);
    assert Waiters(s', sh') == [];
  }

  lemma WriteNextPledged(s: State, i: Id, seen: Word)
    requires Pledged(s) && seen.Locked?
    ensures Pledged(Goto(s.(next := s.next[i := seen.top]), i, Linked(seen)))
  {
    var s' := Goto(s.(next := s.next[i := seen.top]), i, Linked(seen));
    assert forall j: Id :: PcOf(s', j) == if j == i then Linked(seen) else PcOf(s, j);
  }

  lemma WriteNextPlaced(s: State, i: Id, seen: Word, sh: Shape)
    requires Placed(s, sh) && seen.Locked?
    requires i !in sh.fifo && i !in sh.todo && i !in sh.done && i !in sh.stack
    requires sh.holder != Some(i)
    ensures Placed(Goto(s.(next := s.next[i := seen.top]), i, Linked(seen)), sh)
  {
    ChainFrame(s.next, s.waitersHead, sh.fifo, i, seen.top);
    ChainFrame(s.next, if s.word.Locked? then s.word.top else Null, sh.stack, i, seen.top);
    if sh.holder.Some? && PcOf(s, sh.holder.value).Reversing? {
      var pc := PcOf(s, sh.holder.value);
      ChainFrame(s.next, pc.cur, sh.todo, i, seen.top);
      ChainFrame(s.next, pc.newHead, sh.done, i, seen.top);
    }
  }

  lemma WriteNextKeeps(s: State, i: Id, sh: Shape)
    requires Enabled(s, WriteNext(i)) && Inv(s, sh)
    ensures Simulates(s, sh, Internal, Apply(s, WriteNext(i)), sh)
  {
    var s', seen := Apply(s, WriteNext(i)), PcOf(s, i).seen;
    OffTheLists(s, sh, i);
    assert sh.holder != Some(i) by {
      assert !HolderPc(PcOf(s, i));
    }
    WriteNextPlaced(s, i, seen, sh);
    WriteNextPledged(s, i, seen);
    MoveHeld(s, s', i, Linked(seen), sh.holder);
    MoveQueued(s, s', i, Linked(seen), Waiters(s, sh));
  }

  lemma PushPlaced(s: State, i: Id, sh: Shape)
    requires Placed(s, sh) && s.word.Locked? && At(s.next, i) == s.word.top
    requires sh.holder.Some? && sh.holder != Some(i)
    ensures Placed(Goto(s.(word := Locked(To(i))), i, Suspended), sh.(stack := [i] + sh.stack))
    ensures Waiters(Goto(s.(word := Locked(To(i))), i, Suspended), sh.(stack := [i] + sh.stack)) == Waiters(s, sh) + [i]
  {
    ChainPush(s.next, s.word.top, sh.stack, i);
    assert Reverse([i] + sh.stack) == Reverse(sh.stack) + [i];
  }

  lemma PushKeeps(s: State, i: Id, sh: Shape)
    requires PcOf(s, i).Linked? && PcOf(s, i).seen == s.word && Inv(s, sh)
    ensures Simulates(s, sh, Enqueued(i), Goto(s.(word := Locked(To(i))), i, Suspended), sh.(stack := [i] + sh.stack))
  {
    var s' := Goto(s.(word := Locked(To(i))), i, Suspended);
    assert !HolderPc(PcOf(s, i));
    PushPlaced(s, i, sh);
    PushQueued(s, s', i, Waiters(s, sh));
    MoveHeld(s, s', i, Suspended, sh.holder);
    MovePledged(s, s', i, Suspended);
    assert i !in Waiters(s, sh);
  }

  /** A move of the holder inside Unlock that leaves the queue as it was. */
  lemma HolderMove(s: State, s': State, i: Id, pc: Pc, sh: Shape, sh': Shape)
    requires Inv(s, sh)
    requires sh.holder == Some(i) && sh'.holder == Some(i)
    requires s'.word.Locked? && s'.pcs == s.pcs[i := pc] && HolderPc(pc)
    requires Placed(s', sh')
    requires Waiters(s', sh') == Waiters(s, sh)
    requires forall j: Id :: PcOf(s, j).Linked? ==> At(s'.next, j) == At(s.next, j)
    ensures Simulates(s, sh, Internal, s', sh')
  {
    assert HolderPc(PcOf(s, i));
    MoveHeld(s, s', i, pc, sh.holder);
    MoveQueued(s, s', i, pc, Waiters(s, sh));
  }

  lemma UnlockLoadKeeps(s: State, i: Id, sh: Shape)
    requires Enabled(s, UnlockLoad(i)) && Inv(s, sh)
    ensures s.word.Locked?
    ensures Simulates(s, sh, Internal, Apply(s, UnlockLoad(i)), sh)
  {
    assert HolderPc(PcOf(s, i));
    HolderMove(s, Apply(s, UnlockLoad(i)), i, Releasing(s.word), sh, sh);
  }

  lemma ReverseDoneKeeps(s: State, i: Id, sh: Shape)
    requires Enabled(s, ReverseDone(i)) && Inv(s, sh)
    ensures PcOf(s, i).newHead.To?
    ensures Simulates(s, sh, Internal, Apply(s, ReverseDone(i)), sh.(fifo := sh.done, done := []))
  {
    assert HolderPc(PcOf(s, i));
    var s', sh' := Apply(s, ReverseDone(i)), sh.(fifo := sh.done, done := []);
    assert Waiters(s', sh') == Waiters(s, sh);
    HolderMove(s, s', i, Popping, sh, sh');
  }

  lemma FreedPlaced(s: State, i: Id, sh: Shape)
    requires Placed(s, sh) && sh.holder == Some(i) && PcOf(s, i).Releasing?
    requires s.word == Locked(Null) && s.waitersHead.Null?
    ensures Waiters(s, sh) == []
    ensures Placed(Goto(s.(word := NotLocked), i, Idle), sh.(holder := None))
    ensures Waiters(Goto(s.(word := NotLocked), i, Idle), sh.(holder := None)) == []
  {
    assert sh.stack == [] && sh.fifo == [];
  }

  lemma FreedHeld(s: State, s': State, i: Id)
    requires Held(s, Some(i)) && s'.pcs == s.pcs[i := Idle] && s'.word.NotLocked?
    ensures Held(s', None)
  {
    forall j: Id ensures !HolderPc(PcOf(s', j)) {
      assert HolderPc(PcOf(s, j)) <==> j == i;
    }
  }

  lemma FreedKeeps(s: State, i: Id, sh: Shape)
    requires Inv(s, sh) && PcOf(s, i).Releasing?
    requires s.word == Locked(Null) && s.waitersHead.Null?
    ensures Simulates(s, sh, Freed(i), Goto(s.(word := NotLocked), i, Idle), sh.(holder := None))
  {
    assert HolderPc(PcOf(s, i));
    var s' := Goto(s.(word := NotLocked), i, Idle);
    FreedPlaced(s, i, sh);
    FreedHeld(s, s', i);
    MoveQueued(s, s', i, Idle, Waiters(s, sh));
    MovePledged(s, s', i, Idle);
  }

  lemma ReleaseFailsKeeps(s: State, i: Id, sh: Shape)
    requires Enabled(s, CasRelease(i)) && s.word != Locked(Null) && Inv(s, sh)
    ensures Simulates(s, sh, Internal, Apply(s, CasRelease(i)), sh)
  {
    assert HolderPc(PcOf(s, i));
    HolderMove(s, Apply(s, CasRelease(i)), i, Exchanging, sh, sh);
  }

  lemma ExchangeKeeps(s: State, i: Id, sh: Shape)
    requires Enabled(s, Exchange(i)) && Inv(s, sh)
    ensures s.word.Locked? && s.word.top.To?
    ensures Simulates(s, sh, Internal, Apply(s, Exchange(i)), sh.(todo := sh.stack, stack := []))
  {
    assert HolderPc(PcOf(s, i));
    var s', sh' := Apply(s, Exchange(i)), sh.(todo := sh.stack, stack := []);
    assert Waiters(s', sh') == Waiters(s, sh);
    HolderMove(s, s', i, Reversing(s.word.top, Null), sh, sh');
  }

  lemma SplitNoDup(a: seq<Id>, b: seq<Id>, c: seq<Id>)
    requires NoDup(a + b + c)
    ensures NoDup(a)
    ensures forall i :: i in a ==> i !in b && i !in c
  {
    var all := a + b + c;
    assert forall k :: 0 <= k < |a| ==> all[k] == a[k];
    assert forall k :: 0 <= k < |b| ==> all[|a| + k] == b[k];
    assert forall k :: 0 <= k < |c| ==> all[|a| + |b| + k] == c[k];
  }

  lemma ReverseDistinct(a: seq<Id>)
    requires a != [] && NoDup(Reverse(a))
    ensures a[0] !in a[1..]
  {
    ReverseMembers(a[1..]);
    var r := Reverse(a[1..]);
    assert forall k :: 0 <= k < |r| ==> Reverse(a)[k] == r[k];
    assert Reverse(a)[|r|] == a[0];
  }

  /** The node the reversal loop is at occurs once, at the front of the list to reverse. */
  lemma ReverseOneApart(sh: Shape)
    requires sh.todo != []
    requires NoDup(Reverse(sh.todo) + sh.done + Reverse(sh.stack))
    ensures sh.todo[0] !in sh.todo[1..] && sh.todo[0] !in sh.done && sh.todo[0] !in sh.stack
  {
    SplitNoDup(Reverse(sh.todo), sh.done, Reverse(sh.stack));
    ReverseMembers(sh.todo);
    ReverseMembers(sh.stack);
    ReverseDistinct(sh.todo);
    assert sh.todo[0] in sh.todo;
  }

  lemma ReverseOneLinks(next: map<Id, Link>, c: Id, newHead: Link, top: Link, sh: Shape)
    requires sh.todo != [] && sh.todo[0] == c
    requires c !in sh.todo[1..] && c !in sh.done && c !in sh.stack
    requires IsChain(next, To(c), sh.todo) && IsChain(next, newHead, sh.done) && IsChain(next, top, sh.stack)
    ensures IsChain(next[c := newHead], At(next, c), sh.todo[1..])
    ensures IsChain(next[c := newHead], To(c), [c] + sh.done)
    ensures IsChain(next[c := newHead], top, sh.stack)
  {
    ChainFrame(next, At(next, c), sh.todo[1..], c, newHead);
    ChainFrame(next, newHead, sh.done, c, newHead);
    ChainFrame(next, top, sh.stack, c, newHead);
    ChainPush(next[c := newHead], newHead, sh.done, c);
  }

  lemma WaitersWhileReversing(s: State, i: Id, sh: Shape)
    requires sh.holder == Some(i) && PcOf(s, i).Reversing? && sh.fifo == []
    ensures Waiters(s, sh) == Reverse(sh.todo) + sh.done + Reverse(sh.stack)
  {
    assert InHand(s, sh) + sh.fifo == [];
  }

  lemma ReverseOneQueue(s: State, i: Id, sh: Shape)
    requires Enabled(s, ReverseOne(i)) && Inv(s, sh)
    ensures sh.holder == Some(i) && sh.fifo == []
    ensures sh.todo != [] && PcOf(s, i).cur == To(sh.todo[0])
    ensures NoDup(Reverse(sh.todo) + sh.done + Reverse(sh.stack))
    ensures PcOf(s, sh.todo[0]).Suspended?
  {
    assert HolderPc(PcOf(s, i));
    WaitersWhileReversing(s, i, sh);
    ReverseMembers(sh.todo);
    assert sh.todo[0] in Reverse(sh.todo);
    assert sh.todo[0] in Waiters(s, sh);
  }

  /** One round of the reversal loop moves the head of one list onto the other. */
  lemma ReverseOneOrder(s: State, i: Id, sh: Shape)
    requires Enabled(s, ReverseOne(i)) && sh.holder == Some(i) && sh.fifo == [] && sh.todo != []
    ensures Waiters(Apply(s, ReverseOne(i)), NextShape(s, ReverseOne(i), sh)) == Waiters(s, sh)
  {
    var sh' := NextShape(s, ReverseOne(i), sh);
    assert Reverse(sh'.todo) + sh'.done == Reverse(sh.todo) + sh.done;
    WaitersWhileReversing(s, i, sh);
    WaitersWhileReversing(Apply(s, ReverseOne(i)), i, sh');
  }

  lemma ReverseOneKeeps(s: State, i: Id, sh: Shape)
    requires Enabled(s, ReverseOne(i)) && Inv(s, sh)
    ensures Simulates(s, sh, Internal, Apply(s, ReverseOne(i)), NextShape(s, ReverseOne(i), sh))
  {
    var s', sh' := Apply(s, ReverseOne(i)), NextShape(s, ReverseOne(i), sh);
    ReverseOneQueue(s, i, sh);
    ReverseOneOrder(s, i, sh);
    ReverseOneApart(sh);
    ReverseOneLinks(s.next, sh.todo[0], PcOf(s, i).newHead, s.word.top, sh);
    HolderMove(s, s', i, PcOf(s', i), sh, sh');
  }

  lemma PopPlaced(s: State, i: Id, sh: Shape)
    requires Enabled(s, Pop(i)) && Placed(s, sh) && sh.holder == Some(i)
    ensures sh.fifo != [] && sh.fifo[0] == s.waitersHead.id
    ensures Placed(Apply(s, Pop(i)), sh.(fifo := sh.fifo[1..]))
  {
  }

  lemma PopWaiters(s: State, i: Id, sh: Shape)
    requires Enabled(s, Pop(i)) && sh.holder == Some(i)
    requires sh.fifo != [] && sh.fifo[0] == s.waitersHead.id
    ensures Waiters(Apply(s, Pop(i)), sh.(fifo := sh.fifo[1..])) == Waiters(s, sh)
  {
    assert sh.fifo == [s.waitersHead.id] + sh.fifo[1..];
  }

  lemma PopKeeps(s: State, i: Id, sh: Shape)
    requires Enabled(s, Pop(i)) && Inv(s, sh)
    ensures sh.fifo != []
    ensures Simulates(s, sh, Internal, Apply(s, Pop(i)), sh.(fifo := sh.fifo[1..]))
  {
    assert HolderPc(PcOf(s, i));
    PopPlaced(s, i, sh);
    PopWaiters(s, i, sh);
    HolderMove(s, Apply(s, Pop(i)), i, Resuming(s.waitersHead.id), sh, sh.(fifo := sh.fifo[1..]));
  }

  lemma ResumeQueued(s: State, s': State, i: Id, w: seq<Id>)
    requires Queued(s, w) && w != [] && i !in w
    requires s'.pcs == s.pcs[i := Idle][w[0] := Holding]
    ensures Queued(s', w[1..])
  {
    TailMembers(w);
    forall j ensures j in w[1..] <==> PcOf(s', j).Suspended? {
    }
  }

  lemma ResumeHeld(s: State, s': State, i: Id, head: Id)
    requires Held(s, Some(i)) && i != head
    requires s'.pcs == s.pcs[i := Idle][head := Holding] && s'.word == s.word
    ensures Held(s', Some(head))
  {
    forall j: Id ensures HolderPc(PcOf(s', j)) <==> j == head {
      assert HolderPc(PcOf(s, j)) <==> j == i;
    }
  }

  lemma ResumeWaiters(s: State, i: Id, sh: Shape)
    requires Enabled(s, Resume(i)) && sh.holder == Some(i) && sh.todo == [] && sh.done == []
    ensures Waiters(s, sh) == [PcOf(s, i).head] + sh.fifo + Reverse(sh.stack)
    ensures Waiters(Apply(s, Resume(i)), sh.(holder := Some(PcOf(s, i).head))) == sh.fifo + Reverse(sh.stack)
  {
  }

  lemma ResumeFacts(s: State, i: Id, sh: Shape)
    requires Enabled(s, Resume(i)) && Inv(s, sh)
    ensures sh.holder == Some(i) && sh.todo == [] && sh.done == []
    ensures Waiters(s, sh) != [] && Waiters(s, sh)[0] == PcOf(s, i).head
    ensures i !in Waiters(s, sh) && i != PcOf(s, i).head
  {
    assert HolderPc(PcOf(s, i));
    ResumeWaiters(s, i, sh);
    assert PcOf(s, i).head in Waiters(s, sh);
  }

  lemma ResumePledged(s: State, s': State, i: Id, head: Id)
    requires Pledged(s)
    requires s'.pcs == s.pcs[i := Idle][head := Holding] && s'.next == s.next
    ensures Pledged(s')
  {
    assert forall j: Id ::
      PcOf(s', j) == if j == head then Holding else if j == i then Idle else PcOf(s, j);
  }

  lemma ResumePlaced(s: State, i: Id, sh: Shape)
    requires Enabled(s, Resume(i)) && Placed(s, sh) && sh.holder == Some(i)
    ensures Placed(Apply(s, Resume(i)), sh.(holder := Some(PcOf(s, i).head)))
  {
  }

  lemma ResumeTail(s: State, i: Id, sh: Shape)
    requires Enabled(s, Resume(i)) && sh.holder == Some(i) && sh.todo == [] && sh.done == []
    ensures Waiters(s, sh) != []
    ensures Waiters(Apply(s, Resume(i)), sh.(holder := Some(PcOf(s, i).head))) == Waiters(s, sh)[1..]
  {
    ResumeWaiters(s, i, sh);
    assert ([PcOf(s, i).head] + sh.fifo + Reverse(sh.stack))[1..] == sh.fifo + Reverse(sh.stack);
  }

  lemma ResumeKeeps(s: State, i: Id, sh: Shape)
    requires Enabled(s, Resume(i)) && Inv(s, sh)
    ensures Simulates(s, sh, HandedOff(i, PcOf(s, i).head), Apply(s, Resume(i)), sh.(holder := Some(PcOf(s, i).head)))
  {
    var s', head := Apply(s, Resume(i)), PcOf(s, i).head;
    ResumeFacts(s, i, sh);
    ResumeTail(s, i, sh);
    ResumePlaced(s, i, sh);
    ResumeQueued(s, s', i, Waiters(s, sh));
    ResumeHeld(s, s', i, head);
    ResumePledged(s, s', i, head);
  }

  /** One step: the asserts of the code hold, the invariant survives, and the pair of holder
      and queue moves exactly as the event says. */
  lemma StepKeeps(s: State, step: Step, sh: Shape)
    requires Enabled(s, step) && Inv(s, sh)
    ensures AssertsHold(s, step)
    ensures Simulates(s, sh, EventOf(s, step), Apply(s, step), NextShape(s, step, sh))
  {
    match step
    case Load(i) => OutsideMove(s, i, Entering(s.word), sh);
    case CasAcquire(i, spurious) =>
      if s.word.NotLocked? && !spurious { TakeFree(s, i, sh); } else { OutsideMove(s, i, Entering(s.word), sh); }
    case TryLock(i) => if s.word.NotLocked? { TakeFree(s, i, sh); }
    case WriteNext(i) => WriteNextKeeps(s, i, sh);
    case CasPush(i, spurious) =>
      if s.word == PcOf(s, i).seen && !spurious { PushKeeps(s, i, sh); } else { OutsideMove(s, i, Entering(s.word), sh); }
    case UnlockLoad(i) => UnlockLoadKeeps(s, i, sh);
    case CasRelease(i) => if s.word == Locked(Null) { FreedKeeps(s, i, sh); } else { ReleaseFailsKeeps(s, i, sh); }
    case ReverseDone(i) => ReverseDoneKeeps(s, i, sh);
    case Exchange(i) => ExchangeKeeps(s, i, sh);
    case ReverseOne(i) => ReverseOneKeeps(s, i, sh);
    case Pop(i) => PopKeeps(s, i, sh);
    case Resume(i) => ResumeKeeps(s, i, sh);
  }

  // ----- Whole runs -----

  const NoLists := Shape(None, [], [], [], [])

  lemma InitInv()
    ensures Inv(Init, NoLists) && Abs(Init, NoLists) == Free
  {
  }

  /** State `s` stands for the plain mutex `q`. */
  ghost predicate Means(s: State, q: Queue) {
    exists sh :: Inv(s, sh) && Abs(s, sh) == q
  }

  lemma {:induction false} RunKeeps(s: State, steps: seq<Step>, sh: Shape) returns (sh': Shape)
    requires ValidRun(s, steps) && Inv(s, sh)
    ensures Inv(Exec(s, steps), sh')
    ensures SpecRun(Abs(s, sh), Trace(s, steps))
    ensures Abs(Exec(s, steps), sh') == SpecExec(Abs(s, sh), Trace(s, steps))
    decreases |steps|
  {
    if steps == [] {
      sh' := sh;
    } else {
      StepKeeps(s, steps[0], sh);
      sh' := RunKeeps(Apply(s, steps[0]), steps[1..], NextShape(s, steps[0], sh));
      assert Trace(s, steps)[1..] == Trace(Apply(s, steps[0]), steps[1..]);
    }
  }

  lemma RunMeans(steps: seq<Step>)
    requires ValidRun(Init, steps)
    ensures SpecRun(Free, Trace(Init, steps))
    ensures Means(Exec(Init, steps), SpecExec(Free, Trace(Init, steps)))
  {
    InitInv();
    var sh := RunKeeps(Init, steps, NoLists);
  }

  lemma StepMeans(s: State, q: Queue, step: Step)
    requires Means(s, q) && Enabled(s, step)
    ensures AssertsHold(s, step)
    ensures SpecEnabled(q, EventOf(s, step)) && Means(Apply(s, step), SpecApply(q, EventOf(s, step)))
  {
    var sh :| Inv(s, sh) && Abs(s, sh) == q;
    StepKeeps(s, step, sh);
  }

  /** Refinement: however the steps of any number of coroutines interleave, what they show is
      a run of the plain (holder, FIFO queue) mutex, and the next step never fails an assert. */
  lemma Refines(steps: seq<Step>, step: Step)
    requires ValidRun(Init, steps)
    ensures SpecRun(Free, Trace(Init, steps))
    ensures Means(Exec(Init, steps), SpecExec(Free, Trace(Init, steps)))
    ensures Enabled(Exec(Init, steps), step) ==> AssertsHold(Exec(Init, steps), step)
  {
    RunMeans(steps);
    if Enabled(Exec(Init, steps), step) {
      StepMeans(Exec(Init, steps), SpecExec(Free, Trace(Init, steps)), step);
    }
  }

  lemma SpecStepIsFifo(q: Queue, e: Event)
    requires SpecEnabled(q, e)
    ensures q.waiters + Joins(e) == Serves(e) + SpecApply(q, e).waiters
  {
  }

  lemma Regroup(w: seq<Id>, join: seq<Id>, serve: seq<Id>, w': seq<Id>,
                joins: seq<Id>, serves: seq<Id>, rest: seq<Id>)
    requires w + join == serve + w'
    requires w' + joins == serves + rest
    ensures w + (join + joins) == (serve + serves) + rest
  {
    assert w + (join + joins) == (w + join) + joins;
    assert (serve + w') + joins == serve + (w' + joins);
  }

  /** The plain mutex serves in order: whoever joined the queue is either still in it or has
      been granted the mutex, each once, in the order of joining. */
  lemma {:induction false} SpecIsFifo(q: Queue, es: seq<Event>)
    requires SpecRun(q, es)
    ensures q.waiters + EnqueueOrder(es) == GrantOrder(es) + SpecExec(q, es).waiters
    decreases |es|
  {
    if es == [] {
    } else {
      var q' := SpecApply(q, es[0]);
      SpecIsFifo(q', es[1..]);
      SpecStepIsFifo(q, es[0]);
      Regroup(q.waiters, Joins(es[0]), Serves(es[0]), q'.waiters,
              EnqueueOrder(es[1..]), GrantOrder(es[1..]), SpecExec(q, es).waiters);
    }
  }

  /** What the plain mutex says about a concrete state. */
  lemma MeansFacts(s: State, q: Queue)
    requires Means(s, q)
    ensures Held(s, q.holder) && Queued(s, q.waiters)
    ensures q.holder.None? ==> q.waiters == [] && s.waitersHead.Null?
  {
    var sh :| Inv(s, sh) && Abs(s, sh) == q;
    if sh.holder.None? {
      assert sh.stack == [] && sh.fifo == [];
      assert Waiters(s, sh) == [];
    }
  }

  /** The guarantees a caller relies on, in every reachable state: mutual exclusion, FIFO
      grants by successful push with nobody lost or served twice, and a free mutex with a
      suspended waiter nowhere. */
  lemma Guarantees(steps: seq<Step>, s: State, es: seq<Event>)
    requires ValidRun(Init, steps) && s == Exec(Init, steps) && es == Trace(Init, steps)
    ensures forall i: Id, j: Id :: HolderPc(PcOf(s, i)) && HolderPc(PcOf(s, j)) ==> i == j
    ensures SpecRun(Free, es)
    ensures EnqueueOrder(es) == GrantOrder(es) + SpecExec(Free, es).waiters
    ensures NoDup(SpecExec(Free, es).waiters)
    ensures forall i: Id :: i in SpecExec(Free, es).waiters <==> PcOf(s, i).Suspended?
    ensures s.word.NotLocked? ==> s.waitersHead.Null? && forall i: Id :: !PcOf(s, i).Suspended?
  {
    RunMeans(steps);
    MeansFacts(s, SpecExec(Free, es));
    SpecIsFifo(Free, es);
  }

  /** What the destructor asserts: once every coroutine is done with it, the mutex is free. */
  lemma QuiescentIsFree(steps: seq<Step>)
    requires ValidRun(Init, steps)
    requires forall i: Id :: PcOf(Exec(Init, steps), i).Idle?
    ensures Exec(Init, steps).word.NotLocked? && Exec(Init, steps).waitersHead.Null?
  {
    RunMeans(steps);
    var q := SpecExec(Free, Trace(Init, steps));
    MeansFacts(Exec(Init, steps), q);
    var i := if q.holder.Some? then q.holder.value else 0;
    assert HolderPc(PcOf(Exec(Init, steps), i)) <==> q.holder == Some(i);
  }

  /** The queue is no invention of the proof: the pointers determine it. */
  lemma QueueIsUnique(s: State, a: Shape, b: Shape)
    requires Inv(s, a) && Inv(s, b)
    ensures a == b
  {
    var i := if a.holder.Some? then a.holder.value else 0;
    assert HolderPc(PcOf(s, i)) <==> a.holder == Some(i);
    assert a.holder == b.holder;
    ChainUnique(s.next, s.waitersHead, a.fifo, b.fifo);
    ChainUnique(s.next, if s.word.Locked? then s.word.top else Null, a.stack, b.stack);
    if a.holder.Some? && PcOf(s, a.holder.value).Reversing? {
      var pc := PcOf(s, a.holder.value);
      ChainUnique(s.next, pc.cur, a.todo, b.todo);
      ChainUnique(s.next, pc.newHead, a.done, b.done);
    }
  }

  // ----- Unlock finishes under contention -----

  predicate InUnlock(pc: Pc) {
    HolderPc(pc) && !pc.Holding?
  }

  function UnlockStep(s: State, i: Id): Step
    requires InUnlock(PcOf(s, i))
  {
    match PcOf(s, i)
    case Releasing(seen) =>
      if s.waitersHead.To? then Pop(i) else if seen == Locked(Null) then CasRelease(i) else Exchange(i)
    case Exchanging => Exchange(i)
    case Reversing(cur, _) => if cur.To? then ReverseOne(i) else ReverseDone(i)
    case Popping => Pop(i)
    case Resuming(_) => Resume(i)
    case _ => Resume(i)
  }

  // Program points of Unlock still ahead; the reversal loop also counts its nodes.
  function Stage(pc: Pc): nat {
    match pc
    case Releasing(_) => 5
    case Exchanging => 4
    case Reversing(_, _) => 3
    case Popping => 2
    case Resuming(_) => 1
    case _ => 0
  }

  /** Whoever is in Unlock can always move ... */
  lemma UnlockCanMove(s: State, sh: Shape, i: Id)
    requires Inv(s, sh) && InUnlock(PcOf(s, i))
    ensures Enabled(s, UnlockStep(s, i)) && UnlockStep(s, i).i == i
  {
    assert sh.holder == Some(i);
  }

  /** ... each move brings it closer to the end ... */
  lemma UnlockAdvances(s: State, sh: Shape, i: Id, step: Step)
    requires Inv(s, sh) && InUnlock(PcOf(s, i)) && Enabled(s, step) && step.i == i
    ensures var s', sh' := Apply(s, step), NextShape(s, step, sh);
            || Stage(PcOf(s', i)) < Stage(PcOf(s, i))
            || (Stage(PcOf(s', i)) == Stage(PcOf(s, i)) && |sh'.todo| < |sh.todo|)
  {
    assert sh.holder == Some(i);
    if step.Resume? {
      StepKeeps(s, step, sh);
    }
  }

  /** ... and no move of another coroutine sets it back: Unlock never retries. */
  lemma UnlockUndisturbed(s: State, sh: Shape, i: Id, step: Step)
    requires Inv(s, sh) && InUnlock(PcOf(s, i)) && Enabled(s, step) && step.i != i
    ensures PcOf(Apply(s, step), i) == PcOf(s, i) && NextShape(s, step, sh).todo == sh.todo
  {
    assert sh.holder == Some(i);
    assert !HolderPc(PcOf(s, step.i));
  }

  // ----- Every operation gets somewhere -----

  /** Every coroutine but a suspended one can always go on by itself: it is never stuck in a
      program point for which the code has no next access. */
  lemma EveryoneCanMove(s: State, sh: Shape, i: Id)
    requires Inv(s, sh) && !PcOf(s, i).Suspended?
    ensures exists step: Step :: step.i == i && Enabled(s, step)
  {
    var pc := PcOf(s, i);
    if InUnlock(pc) {
      UnlockCanMove(s, sh, i);
    } else {
      var step := if pc.Idle? then Load(i) else if pc.Linked? then CasPush(i, false)
        else if pc.Holding? then UnlockLoad(i) else if pc.seen.NotLocked? then CasAcquire(i, false) else WriteNext(i);
      assert step.i == i && Enabled(s, step);
    }
  }

  /** Lock goes on until it has the mutex or is in its queue, and a suspended coroutine waits
      until the mutex is handed to it; no step of anybody ends either otherwise. */
  lemma LockNeverGivesUp(s: State, step: Step, i: Id)
    requires Enabled(s, step)
    ensures PcOf(s, i).Entering? || PcOf(s, i).Linked? ==>
      || PcOf(Apply(s, step), i).Entering? || PcOf(Apply(s, step), i).Linked?
      || (PcOf(Apply(s, step), i).Holding? && EventOf(s, step) == Acquired(i))
      || (PcOf(Apply(s, step), i).Suspended? && EventOf(s, step) == Enqueued(i))
      || (exists from :: EventOf(s, step) == HandedOff(from, i))
    ensures PcOf(s, i).Suspended? && !PcOf(Apply(s, step), i).Suspended? ==>
      PcOf(Apply(s, step), i).Holding? && exists from :: EventOf(s, step) == HandedOff(from, i)
  {
    if step.Resume? && PcOf(s, step.i).head == i {
      assert EventOf(s, step) == HandedOff(step.i, i);
    }
  }

  lemma RunsOn(s: State, step: Step, more: seq<Step>)
    requires Enabled(s, step) && ValidRun(Apply(s, step), more)
    ensures ValidRun(s, [step] + more) && Exec(s, [step] + more) == Exec(Apply(s, step), more)
    ensures Trace(s, [step] + more) == [EventOf(s, step)] + Trace(Apply(s, step), more)
  {
    assert ([step] + more)[1..] == more;
  }

  lemma RunsThree(s: State, a: Step, b: Step, c: Step)
    requires Enabled(s, a) && Enabled(Apply(s, a), b) && Enabled(Apply(Apply(s, a), b), c)
    ensures ValidRun(s, [a, b, c]) && Exec(s, [a, b, c]) == Apply(Apply(Apply(s, a), b), c)
  {
    RunsOn(Apply(Apply(s, a), b), c, []);
    RunsOn(Apply(s, a), b, [c]);
    RunsOn(s, a, [b, c]);
    assert [c] + [] == [c] && [b] + [c] == [b, c] && [a] + [b, c] == [a, b, c];
  }

  /** Lock on a mutex that somebody holds, whether others wait or not, undisturbed: three
      accesses, and the coroutine is suspended, last in the queue. */
  lemma LockQueues(s: State, q: Queue, i: Id)
    requires Means(s, q) && PcOf(s, i).Idle? && s.word.Locked?
    ensures var steps := [Load(i), WriteNext(i), CasPush(i, false)];
            && ValidRun(s, steps)
            && PcOf(Exec(s, steps), i).Suspended?
            && Means(Exec(s, steps), q.(waiters := q.waiters + [i]))
  {
    var s1 := Apply(s, Load(i));
    var s2 := Apply(s1, WriteNext(i));
    StepMeans(s, q, Load(i));
    StepMeans(s1, q, WriteNext(i));
    StepMeans(s2, q, CasPush(i, false));
    RunsThree(s, Load(i), WriteNext(i), CasPush(i, false));
  }

  /** Lock and TryLock on a free mutex take it ... */
  lemma LockAcquires(s: State, q: Queue, i: Id)
    requires Means(s, q) && PcOf(s, i).Idle? && s.word.NotLocked?
    ensures var steps := [Load(i), CasAcquire(i, false)];
            && ValidRun(s, steps) && PcOf(Exec(s, steps), i).Holding? && Means(Exec(s, steps), Queue(Some(i), []))
    ensures Enabled(s, TryLock(i)) && PcOf(Apply(s, TryLock(i)), i).Holding? && Means(Apply(s, TryLock(i)), Queue(Some(i), []))
  {
    MeansFacts(s, q);
    var s1 := Apply(s, Load(i));
    StepMeans(s, q, Load(i));
    StepMeans(s1, q, CasAcquire(i, false));
    StepMeans(s, q, TryLock(i));
    RunsOn(s1, CasAcquire(i, false), []);
    RunsOn(s, Load(i), [CasAcquire(i, false)]);
  }

  /** ... and TryLock on one that is held changes nothing. */
  lemma TryLockRefused(s: State, i: Id)
    requires PcOf(s, i).Idle? && s.word.Locked?
    ensures Enabled(s, TryLock(i)) && Apply(s, TryLock(i)) == s
  {
  }

  /** What Unlock leaves of the mutex: free, or with the first waiter. */
  function Unlocked(q: Queue): Queue {
    if q.waiters == [] then Free else Queue(Some(q.waiters[0]), q.waiters[1..])
  }

  lemma {:induction false} UnlockGoesOn(s: State, sh: Shape, i: Id) returns (steps: seq<Step>)
    requires Inv(s, sh) && InUnlock(PcOf(s, i))
    ensures (forall k :: 0 <= k < |steps| ==> steps[k].i == i) && ValidRun(s, steps)
    ensures PcOf(Exec(s, steps), i).Idle? && Means(Exec(s, steps), Unlocked(Abs(s, sh)))
    decreases Stage(PcOf(s, i)), |sh.todo|
  {
    var step := UnlockStep(s, i);
    UnlockCanMove(s, sh, i);
    StepKeeps(s, step, sh);
    var s', sh' := Apply(s, step), NextShape(s, step, sh);
    UnlockMoves(s, sh, i);
    if InUnlock(PcOf(s', i)) {
      UnlockAdvances(s, sh, i, step);
      var more := UnlockGoesOn(s', sh', i);
      RunsOn(s, step, more);
      steps := [step] + more;
    } else {
      RunsOn(s, step, []);
      steps := [step];
    }
  }

  predicate Ends(e: Event) {
    e.Freed? || e.HandedOff?
  }

  lemma UnlockStepIs(s: State, sh: Shape, i: Id)
    requires Inv(s, sh) && InUnlock(PcOf(s, i)) && Enabled(s, UnlockStep(s, i))
    ensures var e, s' := EventOf(s, UnlockStep(s, i)), Apply(s, UnlockStep(s, i));
            if Ends(e) then PcOf(s', i).Idle? else e == Internal && InUnlock(PcOf(s', i))
  {
    if PcOf(s, i).Resuming? {
      assert sh.holder == Some(i);
      assert PcOf(s, i).head in Waiters(s, sh);
    }
  }

  /** A step of Unlock stays inside with the mutex as it was, or ends it. */
  lemma UnlockMoves(s: State, sh: Shape, i: Id)
    requires Inv(s, sh) && InUnlock(PcOf(s, i)) && Enabled(s, UnlockStep(s, i))
    requires SpecEnabled(Abs(s, sh), EventOf(s, UnlockStep(s, i)))
    ensures var q', s' := SpecApply(Abs(s, sh), EventOf(s, UnlockStep(s, i))), Apply(s, UnlockStep(s, i));
            if InUnlock(PcOf(s', i)) then q' == Abs(s, sh) else PcOf(s', i).Idle? && q' == Unlocked(Abs(s, sh))
  {
    UnlockStepIs(s, sh, i);
  }

  /** Unlock, undisturbed, ends: the mutex is free if nobody waited, and else belongs to the
      first who did. */
  lemma UnlockEnds(s: State, q: Queue, i: Id) returns (steps: seq<Step>)
    requires Means(s, q) && PcOf(s, i).Holding?
    ensures (forall k :: 0 <= k < |steps| ==> steps[k].i == i) && ValidRun(s, steps)
    ensures PcOf(Exec(s, steps), i).Idle? && Means(Exec(s, steps), Unlocked(q))
  {
    var sh :| Inv(s, sh) && Abs(s, sh) == q;
    StepKeeps(s, UnlockLoad(i), sh);
    var s' := Apply(s, UnlockLoad(i));
    var more := UnlockGoesOn(s', NextShape(s, UnlockLoad(i), sh), i);
    RunsOn(s, UnlockLoad(i), more);
    steps := [UnlockLoad(i)] + more;
  }
}
