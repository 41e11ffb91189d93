/** The condition variable on top of the coroutine mutex, again as atomic steps.

    Waiters sit on a LIFO stack, `head_`, linked through awaiters of their own.  `Wait` and
    the two notifications run with the mutex held; a notified coroutine runs inline, inside
    the notifier, until it suspends in the mutex's queue. */
module ConditionVariable {
  import opened Links
  import opened Wrappers
  import M = AsyncMutex

  // A predicate passed to Wait is a number; the shared data is the set of predicates that
  // are true of it.
  type Cond = nat

  datatype Pc =
    | Outside                              // no condition-variable call in progress
    | Testing(cond: Cond)                  // at the head of Wait's loop
    | Parking(cond: Cond)                  // predicate was false, `head_` to be read
    | Pushing(cond: Cond)                  // `next_` read, compare-exchange to come
    | Unlocking(cond: Cond)                // on the stack, running Unlock
    | Blocked(cond: Cond)                  // on the stack, suspended
    | Relocking(cond: Cond)                // resumed, running Lock
    | Notifying(cur: Link)                 // NotifyOne, `head_` read
    | Swapping(top: Id, below: Link)       // NotifyOne, `cur->next_` read
    | Resuming(w: Id)                      // NotifyOne, running `w` inline
    | AllNotifying(cur: Link)              // NotifyAll, `head_` read
    | AllResuming(w: Id, rest: seq<Id>)    // NotifyAll, running `w`, then `rest`

  datatype State = State(m: M.State, head: Link, next: map<Id, Link>, pcs: map<Id, Pc>, facts: set<Cond>)

  datatype Step =
    | Mutex(step: M.Step)
    | WaitBegin(i: Id, cond: Cond)
    | TestTrue(i: Id)
    | TestFalse(i: Id)
    | ReadHead(i: Id)
    | CasHead(i: Id, spurious: bool)
    | Relocked(i: Id)
    | Mutate(i: Id, facts: set<Cond>)
    | NotifyLoad(i: Id)
    | NotifyNobody(i: Id)
    | ReadNext(i: Id)
    | CasPop(i: Id, spurious: bool)
    | ResumeDone(i: Id)
    | AllLoad(i: Id)
    | CasTake(i: Id, spurious: bool, snapshot: seq<Id>)
    | AllNext(i: Id)

  const Init := State(M.Init, Null, map[], map[], {})

  function PcOf(s: State, i: Id): Pc {
    if i in s.pcs then s.pcs[i] else Outside
  }

  function Goto(s: State, i: Id, pc: Pc): State {
    s.(pcs := s.pcs[i := pc])
  }

  predicate Owns(s: State, i: Id) {
    M.PcOf(s.m, i).Holding?
  }

  function Wake(s: State, w: Id): State {
    match PcOf(s, w)
    case Blocked(cond) => Goto(s, w, Relocking(cond))
    case _ => s
  }

  /** Which mutex steps the code of the condition variable leaves to a coroutine. */
  predicate MayStep(pc: Pc, step: M.Step) {
    match pc
    case Outside => true
    case Unlocking(_) => true
    case Relocking(_) => step.Load? || step.CasAcquire? || step.WriteNext? || step.CasPush?
    case _ => false
  }

  ghost predicate Enabled(s: State, step: Step) {
    match step
    case Mutex(ms) => M.Enabled(s.m, ms) && MayStep(PcOf(s, ms.i), ms)
    case WaitBegin(i, _) => PcOf(s, i).Outside? && Owns(s, i)
    case TestTrue(i) => PcOf(s, i).Testing? && PcOf(s, i).cond in s.facts
    case TestFalse(i) => PcOf(s, i).Testing? && PcOf(s, i).cond !in s.facts
    case ReadHead(i) => PcOf(s, i).Parking?
    case CasHead(i, _) => PcOf(s, i).Pushing?
    case Relocked(i) => PcOf(s, i).Relocking? && Owns(s, i)
    case Mutate(i, _) => PcOf(s, i).Outside? && Owns(s, i)
    case NotifyLoad(i) => PcOf(s, i).Outside? && Owns(s, i)
    case NotifyNobody(i) => PcOf(s, i) == Notifying(Null) || PcOf(s, i) == AllNotifying(Null)
    case ReadNext(i) => PcOf(s, i).Notifying? && PcOf(s, i).cur.To?
    case CasPop(i, _) => PcOf(s, i).Swapping?
    case ResumeDone(i) => PcOf(s, i).Resuming? && M.PcOf(s.m, PcOf(s, i).w).Suspended?
    case AllLoad(i) => PcOf(s, i).Outside? && Owns(s, i)
    case CasTake(i, spurious, snapshot) =>
      && PcOf(s, i).AllNotifying? && PcOf(s, i).cur.To?
      && (s.head == PcOf(s, i).cur && !spurious ==> snapshot != [] && IsChain(s.next, s.head, snapshot))
    case AllNext(i) => PcOf(s, i).AllResuming? && M.PcOf(s.m, PcOf(s, i).w).Suspended?
  }

  ghost function Apply(s: State, step: Step): State
    requires Enabled(s, step)
  {
    match step
    case Mutex(ms) =>
      var s' := s.(m := M.Apply(s.m, ms));
      if PcOf(s, ms.i).Unlocking? && M.PcOf(s'.m, ms.i).Idle? then Goto(s', ms.i, Blocked(PcOf(s, ms.i).cond))
      else s'
    case WaitBegin(i, cond) => Goto(s, i, Testing(cond))
    case TestTrue(i) => Goto(s, i, Outside)
    case TestFalse(i) => Goto(s, i, Parking(PcOf(s, i).cond))
    case ReadHead(i) => Goto(s.(next := s.next[i := s.head]), i, Pushing(PcOf(s, i).cond))
    case CasHead(i, spurious) =>
      if s.head == At(s.next, i) && !spurious then Goto(s.(head := To(i)), i, Unlocking(PcOf(s, i).cond))
      else s.(next := s.next[i := s.head])
    case Relocked(i) => Goto(s, i, Testing(PcOf(s, i).cond))
    case Mutate(_, facts) => s.(facts := facts)
    case NotifyLoad(i) => Goto(s, i, Notifying(s.head))
    case NotifyNobody(i) => Goto(s, i, Outside)
    case ReadNext(i) => Goto(s, i, Swapping(PcOf(s, i).cur.id, At(s.next, PcOf(s, i).cur.id)))
    case CasPop(i, spurious) =>
      var Swapping(top, below) := PcOf(s, i);
      if s.head == To(top) && !spurious then Goto(Wake(s.(head := below), top), i, Resuming(top))
      else Goto(s, i, Notifying(s.head))
    case ResumeDone(i) => Goto(s, i, Outside)
    case AllLoad(i) => Goto(s, i, AllNotifying(s.head))
    case CasTake(i, spurious, snapshot) =>
      if s.head == PcOf(s, i).cur && !spurious then
        Goto(Wake(s.(head := Null), snapshot[0]), i, AllResuming(snapshot[0], snapshot[1..]))
      else Goto(s, i, AllNotifying(s.head))
    case AllNext(i) =>
      var rest := PcOf(s, i).rest;
      if rest == [] then Goto(s, i, Outside)
      else Goto(Wake(s, rest[0]), i, AllResuming(rest[0], rest[1..]))
  }

  datatype Event =
    | Quiet
    | Parked(i: Id)      // joined the condition variable's stack
    | Notified(i: Id)    // taken off it and resumed
    | Requeued(i: Id)    // the resumed coroutine joined the mutex's queue

  ghost function EventOf(s: State, step: Step): Event
    requires Enabled(s, step)
  {
    match step
    case Mutex(ms) =>
      if PcOf(s, ms.i).Relocking? && M.EventOf(s.m, ms).Enqueued? then Requeued(ms.i) else Quiet
    case CasHead(i, spurious) => if s.head == At(s.next, i) && !spurious then Parked(i) else Quiet
    case CasPop(i, spurious) =>
      if s.head == To(PcOf(s, i).top) && !spurious then Notified(PcOf(s, i).top) else Quiet
    case CasTake(i, spurious, snapshot) =>
      if s.head == PcOf(s, i).cur && !spurious then Notified(snapshot[0]) else Quiet
    case AllNext(i) => if PcOf(s, i).rest == [] then Quiet else Notified(PcOf(s, i).rest[0])
    case _ => Quiet
  }

  // ----- The invariant -----

  datatype Shape = Shape(m: M.Shape, waiting: seq<Id>)

  /** The condition-variable position of whoever holds the mutex. */
  function HolderPc(s: State, m: M.Shape): Pc {
    if m.holder.Some? then PcOf(s, m.holder.value) else Outside
  }

  // Waiters NotifyAll has unlinked and will resume next; the waiter running inline.
  function Taken(pc: Pc): seq<Id> {
    if pc.AllResuming? then pc.rest else []
  }

  function Inline(pc: Pc): Option<Id> {
    if pc.Resuming? || pc.AllResuming? then Some(pc.w) else None
  }

  predicate OnStack(pc: Pc) {
    pc.Unlocking? || pc.Blocked?
  }

  // Between seeing the predicate false and being notified.
  predicate MidWait(pc: Pc) {
    pc.Parking? || pc.Pushing? || OnStack(pc)
  }

  predicate RoleOk(pc: Pc, mutex: M.Pc) {
    match pc
    case Outside => true
    case Unlocking(_) => M.HolderPc(mutex)
    case Blocked(_) => mutex.Idle?
    case Relocking(_) => !M.InUnlock(mutex)
    case _ => mutex.Holding?
  }

  ghost predicate Roles(s: State) {
    forall i: Id :: RoleOk(PcOf(s, i), M.PcOf(s.m, i))
  }

  /** `stack` followed by `taken` lists everybody on the stack once. */
  ghost predicate Listed(s: State, all: seq<Id>) {
    && NoDup(all)
    && (forall i: Id :: i in all <==> OnStack(PcOf(s, i)))
  }

  /** A resumed coroutine that has not joined the mutex's queue yet is the one running
      inline, and the one running inline is a resumed coroutine without the mutex. */
  ghost predicate Inlined(s: State, inline: Option<Id>) {
    && (forall i: Id :: PcOf(s, i).Relocking? && !M.PcOf(s.m, i).Suspended? && !M.PcOf(s.m, i).Holding? ==>
          inline == Some(i))
    && (inline.Some? ==> PcOf(s, inline.value).Relocking? && !M.HolderPc(M.PcOf(s.m, inline.value)))
  }

  /** The link NotifyOne read is still the link of the waiter it is about to pop. */
  ghost predicate Fresh(s: State) {
    forall i: Id :: PcOf(s, i).Swapping? ==> At(s.next, PcOf(s, i).top) == PcOf(s, i).below
  }

  ghost predicate Inv(s: State, sh: Shape) {
    && M.Inv(s.m, sh.m)
    && Roles(s)
    && Fresh(s)
    && IsChain(s.next, s.head, sh.waiting)
    && Listed(s, sh.waiting + Taken(HolderPc(s, sh.m)))
    && Inlined(s, Inline(HolderPc(s, sh.m)))
  }

  ghost function NextShape(s: State, step: Step, sh: Shape): Shape
    requires Enabled(s, step)
  {
    match step
    case Mutex(ms) => sh.(m := M.NextShape(s.m, ms, sh.m))
    case CasHead(i, _) => if EventOf(s, step).Parked? then sh.(waiting := [i] + sh.waiting) else sh
    case CasPop(_, _) => if EventOf(s, step).Notified? && sh.waiting != [] then sh.(waiting := sh.waiting[1..]) else sh
    case CasTake(_, _, _) => if EventOf(s, step).Notified? then sh.(waiting := []) else sh
    case _ => sh
  }

  // ----- Every step keeps the invariant -----

  /** The mutex holder is unique, so a coroutine that owns it is the holder. */
  lemma OwnerIsHolder(s: State, sh: Shape, i: Id)
    requires M.Inv(s.m, sh.m) && M.HolderPc(M.PcOf(s.m, i))
    ensures sh.m.holder == Some(i)
  {
  }

  lemma PcsOfGoto(s: State, i: Id, pc: Pc)
    ensures forall j: Id :: PcOf(Goto(s, i, pc), j) == if j == i then pc else PcOf(s, j)
  {
  }

  /** A step of the holder that stays off the stack: nothing but its own position moves. */
  lemma HolderKeeps(s: State, i: Id, pc: Pc, sh: Shape)
    requires Inv(s, sh) && Owns(s, i)
    requires !OnStack(PcOf(s, i)) && !OnStack(pc) && !pc.Relocking?
    requires Taken(pc) == Taken(PcOf(s, i)) && (Inline(pc) == Inline(PcOf(s, i)) || Inline(pc) == None)
    requires Inline(PcOf(s, i)).Some? && Inline(pc) == None ==> M.PcOf(s.m, Inline(PcOf(s, i)).value).Suspended?
    requires RoleOk(pc, M.PcOf(s.m, i))
    requires pc.Swapping? ==> At(s.next, pc.top) == pc.below
    ensures Inv(Goto(s, i, pc), sh)
  {
    OwnerIsHolder(s, sh, i);
    PcsOfGoto(s, i, pc);
  }

  // -- steps of the mutex --

  lemma MutexPcs(m: M.State, ms: M.Step)
    requires M.Enabled(m, ms)
    ensures forall j: Id :: M.PcOf(M.Apply(m, ms), j) ==
              if ms.Resume? && j == M.PcOf(m, ms.i).head then M.Holding
              else if j == ms.i then M.PcOf(M.Apply(m, ms), ms.i) else M.PcOf(m, j)
  {
  }

  lemma ResumedWasSuspended(m: M.State, sh: M.Shape, i: Id)
    requires M.Inv(m, sh) && M.Enabled(m, M.Resume(i))
    ensures M.PcOf(m, M.PcOf(m, i).head).Suspended? && sh.holder == Some(i)
  {
    M.ResumeFacts(m, i, sh);
    assert M.PcOf(m, i).head in M.Waiters(m, sh);
  }

  /** What a mutex step does to the mutex positions of others, in one sentence each. */
  lemma MutexOthers(m: M.State, ms: M.Step, sh: M.Shape, j: Id)
    requires M.Inv(m, sh) && M.Enabled(m, ms) && j != ms.i
    ensures var m' := M.Apply(m, ms);
            || M.PcOf(m', j) == M.PcOf(m, j)
            || (ms.Resume? && j == M.PcOf(m, ms.i).head && M.PcOf(m, j).Suspended? && M.PcOf(m', j).Holding?)
  {
    MutexPcs(m, ms);
    if ms.Resume? {
      ResumedWasSuspended(m, sh, ms.i);
    }
  }

  lemma MutexOwn(m: M.State, ms: M.Step)
    requires M.Enabled(m, ms)
    ensures M.HolderPc(M.PcOf(m, ms.i)) ==>
              M.HolderPc(M.PcOf(M.Apply(m, ms), ms.i)) || M.PcOf(M.Apply(m, ms), ms.i).Idle? || ms.Resume?
    ensures ms.Load? || ms.CasAcquire? || ms.WriteNext? || ms.CasPush? ==>
              !M.InUnlock(M.PcOf(M.Apply(m, ms), ms.i)) && !M.HolderPc(M.PcOf(m, ms.i)) && !M.PcOf(m, ms.i).Suspended?
  {
  }

  lemma MutexResumeLeaves(m: M.State, sh: M.Shape, i: Id)
    requires M.Inv(m, sh) && M.Enabled(m, M.Resume(i))
    ensures M.PcOf(M.Apply(m, M.Resume(i)), i).Idle?
  {
    M.ResumeFacts(m, i, sh);
  }

  lemma PcsAfterMutex(s: State, ms: M.Step)
    requires Enabled(s, Mutex(ms))
    ensures var s' := Apply(s, Mutex(ms));
            forall j: Id :: PcOf(s', j) ==
              if j == ms.i && PcOf(s, j).Unlocking? && M.PcOf(s'.m, j).Idle? then Blocked(PcOf(s, j).cond) else PcOf(s, j)
  {
  }

  lemma MutexRoles(s: State, ms: M.Step, sh: Shape)
    requires Inv(s, sh) && Enabled(s, Mutex(ms))
    ensures Roles(Apply(s, Mutex(ms)))
  {
    var s' := Apply(s, Mutex(ms));
    PcsAfterMutex(s, ms);
    forall j: Id ensures RoleOk(PcOf(s', j), M.PcOf(s'.m, j)) {
      assert RoleOk(PcOf(s, j), M.PcOf(s.m, j));
      if j == ms.i {
        MutexOwn(s.m, ms);
        if ms.Resume? {
          MutexResumeLeaves(s.m, sh.m, j);
        }
      } else {
        MutexOthers(s.m, ms, sh.m, j);
      }
    }
  }

  /** How the holder can change: not at all, by taking a free mutex, or by leaving it. */
  lemma MutexHolder(m: M.State, ms: M.Step, sh: M.Shape)
    requires M.Held(m, sh.holder) && M.Enabled(m, ms)
    ensures var holder' := M.NextShape(m, ms, sh).holder;
            || holder' == sh.holder
            || (sh.holder == None && holder' == Some(ms.i) && (ms.CasAcquire? || ms.TryLock?))
            || (sh.holder == Some(ms.i) && holder' == None)
            || (sh.holder == Some(ms.i) && ms.Resume? && holder' == Some(M.PcOf(m, ms.i).head))
    ensures sh.holder == Some(ms.i) <==> M.HolderPc(M.PcOf(m, ms.i))
  {
  }

  /** A notifier in the middle of its work lets nobody else change the mutex. */
  lemma MutexDuties(s: State, ms: M.Step, sh: Shape)
    requires Inv(s, sh) && Enabled(s, Mutex(ms))
    ensures var s', m' := Apply(s, Mutex(ms)), M.NextShape(s.m, ms, sh.m);
            && Taken(HolderPc(s', m')) == Taken(HolderPc(s, sh.m))
            && Inline(HolderPc(s', m')) == Inline(HolderPc(s, sh.m))
            && (Inline(HolderPc(s, sh.m)).Some? ==> m'.holder == sh.m.holder && !ms.Resume?)
  {
    MutexHolder(s.m, ms, sh.m);
    PcsAfterMutex(s, ms);
    assert RoleOk(PcOf(s, ms.i), M.PcOf(s.m, ms.i));
    if ms.Resume? {
      ResumedWasSuspended(s.m, sh.m, ms.i);
      var head := M.PcOf(s.m, ms.i).head;
      assert RoleOk(PcOf(s, head), M.PcOf(s.m, head));
    }
  }

  lemma MutexInlined(s: State, ms: M.Step, sh: Shape)
    requires Inv(s, sh) && Enabled(s, Mutex(ms))
    ensures Inlined(Apply(s, Mutex(ms)), Inline(HolderPc(s, sh.m)))
  {
    var s', inline := Apply(s, Mutex(ms)), Inline(HolderPc(s, sh.m));
    PcsAfterMutex(s, ms);
    MutexDuties(s, ms, sh);
    forall j: Id | PcOf(s', j).Relocking? && !M.PcOf(s'.m, j).Suspended? && !M.PcOf(s'.m, j).Holding?
      ensures inline == Some(j)
    {
      if j == ms.i {
        MutexOwn(s.m, ms);
      } else {
        MutexOthers(s.m, ms, sh.m, j);
      }
    }
    if inline.Some? {
      M.StepKeeps(s.m, ms, sh.m);
      assert M.HolderPc(M.PcOf(s'.m, inline.value)) <==> sh.m.holder == Some(inline.value);
      assert M.HolderPc(M.PcOf(s.m, inline.value)) <==> sh.m.holder == Some(inline.value);
    }
  }

  lemma MutexListed(s: State, ms: M.Step, all: seq<Id>)
    requires Listed(s, all) && Enabled(s, Mutex(ms))
    ensures Listed(Apply(s, Mutex(ms)), all)
    ensures Fresh(s) ==> Fresh(Apply(s, Mutex(ms)))
  {
    PcsAfterMutex(s, ms);
  }

  lemma MutexKeeps(s: State, ms: M.Step, sh: Shape)
    requires Inv(s, sh) && Enabled(s, Mutex(ms))
    ensures Inv(Apply(s, Mutex(ms)), NextShape(s, Mutex(ms), sh))
  {
    MutexRoles(s, ms, sh);
    MutexInlined(s, ms, sh);
    MutexDuties(s, ms, sh);
    MutexListed(s, ms, sh.waiting + Taken(HolderPc(s, sh.m)));
    M.StepKeeps(s.m, ms, sh.m);
  }

  // -- steps of the condition variable itself --

  lemma NobodySwaps(s: State, sh: Shape, i: Id)
    requires Inv(s, sh) && Owns(s, i) && !PcOf(s, i).Swapping?
    ensures forall j: Id :: !PcOf(s, j).Swapping?
  {
    forall j: Id ensures !PcOf(s, j).Swapping? {
      assert RoleOk(PcOf(s, j), M.PcOf(s.m, j));
      assert M.HolderPc(M.PcOf(s.m, j)) <==> sh.m.holder == Some(j);
      assert M.HolderPc(M.PcOf(s.m, i)) <==> sh.m.holder == Some(i);
    }
  }

  /** The holder rewrites its own link while off the stack. */
  lemma LinkKeeps(s: State, i: Id, pc: Pc, sh: Shape)
    requires Inv(s, sh)
    requires PcOf(s, i).Parking? || PcOf(s, i).Pushing?
    requires pc.Pushing?
    ensures Inv(Goto(s.(next := s.next[i := s.head]), i, pc), sh)
  {
    assert RoleOk(PcOf(s, i), M.PcOf(s.m, i));
    OwnerIsHolder(s, sh, i);
    var s' := s.(next := s.next[i := s.head]);
    assert i !in sh.waiting + Taken(HolderPc(s, sh.m));
    ChainFrame(s.next, s.head, sh.waiting, i, s.head);
    NobodySwaps(s, sh, i);
    assert Roles(s') && Inlined(s', Inline(HolderPc(s', sh.m)));
    assert Listed(s', sh.waiting + Taken(HolderPc(s', sh.m)));
    HolderKeeps(s', i, pc, sh);
  }

  lemma ParkRoles(s: State, i: Id, cond: Cond, head: Link, sh: Shape)
    requires Inv(s, sh) && Owns(s, i)
    ensures Roles(Goto(s.(head := head), i, Unlocking(cond)))
    ensures Fresh(Goto(s.(head := head), i, Unlocking(cond)))
    ensures Inlined(s, None) ==> Inlined(Goto(s.(head := head), i, Unlocking(cond)), None)
  {
    PcsOfGoto(s.(head := head), i, Unlocking(cond));
  }

  lemma ParkKeeps(s: State, i: Id, sh: Shape)
    requires Inv(s, sh) && PcOf(s, i).Pushing? && s.head == At(s.next, i)
    ensures Inv(Goto(s.(head := To(i)), i, Unlocking(PcOf(s, i).cond)), sh.(waiting := [i] + sh.waiting))
  {
    var cond := PcOf(s, i).cond;
    var s' := Goto(s.(head := To(i)), i, Unlocking(cond));
    assert RoleOk(PcOf(s, i), M.PcOf(s.m, i));
    OwnerIsHolder(s, sh, i);
    assert HolderPc(s, sh.m) == PcOf(s, i);
    ParkRoles(s, i, cond, To(i), sh);
    ChainPush(s.next, s.head, sh.waiting, i);
    assert sh.waiting + [] == sh.waiting;
    ListedPush(s, s', i, sh.waiting);
    assert HolderPc(s', sh.m) == Unlocking(cond);
    assert ([i] + sh.waiting) + [] == [i] + sh.waiting;
  }

  lemma ListedPush(s: State, s': State, i: Id, all: seq<Id>)
    requires Listed(s, all) && !OnStack(PcOf(s, i))
    requires OnStack(PcOf(s', i)) && forall j: Id :: j != i ==> PcOf(s', j) == PcOf(s, j)
    ensures Listed(s', [i] + all)
  {
    assert i !in all;
    forall j: Id ensures j in [i] + all <==> OnStack(PcOf(s', j)) {
    }
  }

  lemma RemoveOne(a: seq<Id>, w: Id, b: seq<Id>)
    requires NoDup(a + ([w] + b))
    ensures NoDup(a + b)
    ensures forall j: Id :: j in a + b <==> j in a + ([w] + b) && j != w
  {
    var all := a + ([w] + b);
    assert all[|a|] == w;
    assert forall k :: 0 <= k < |a| ==> all[k] == a[k];
    assert forall k :: 0 <= k < |b| ==> all[|a| + 1 + k] == b[k];
    assert w !in a && w !in b;
    assert NoDup(a) && NoDup(b);
    assert forall k, l :: 0 <= k < |a| && 0 <= l < |b| ==> a[k] != b[l];
  }

  lemma ListedTake(s: State, s': State, a: seq<Id>, w: Id, b: seq<Id>)
    requires Listed(s, a + ([w] + b))
    requires !OnStack(PcOf(s', w)) && forall j: Id :: j != w ==> (OnStack(PcOf(s', j)) <==> OnStack(PcOf(s, j)))
    ensures Listed(s', a + b)
  {
    RemoveOne(a, w, b);
  }

  /** Whoever waits while somebody else holds the mutex is suspended. */
  lemma StackIsBlocked(s: State, sh: Shape, i: Id, w: Id)
    requires Inv(s, sh) && Owns(s, i) && !OnStack(PcOf(s, i)) && OnStack(PcOf(s, w))
    ensures PcOf(s, w).Blocked? && M.PcOf(s.m, w).Idle? && w != i
  {
    OwnerIsHolder(s, sh, i);
    assert RoleOk(PcOf(s, w), M.PcOf(s.m, w));
  }

  lemma NotifyPcs(s: State, i: Id, pc: Pc, head: Link)
    requires pc.Resuming? || pc.AllResuming?
    requires PcOf(s, pc.w).Blocked? && pc.w != i
    ensures var s' := Goto(Wake(s.(head := head), pc.w), i, pc);
            && s'.m == s.m && s'.next == s.next && s'.head == head
            && (forall j: Id :: PcOf(s', j) ==
                  if j == i then pc else if j == pc.w then Relocking(PcOf(s, pc.w).cond) else PcOf(s, j))
  {
  }

  lemma NotifyRoles(s: State, s': State, i: Id, w: Id, pc: Pc)
    requires Roles(s) && Fresh(s) && Owns(s, i) && !PcOf(s, i).Relocking? && !OnStack(PcOf(s, i)) && !PcOf(s, i).Outside?
    requires s'.m == s.m && s'.next == s.next && M.PcOf(s.m, w).Idle? && (pc.Resuming? || pc.AllResuming?)
    requires PcOf(s', w).Relocking? && PcOf(s', i) == pc
    requires forall j: Id :: j != w && j != i ==> PcOf(s', j) == PcOf(s, j)
    ensures Roles(s') && Fresh(s')
  {
    forall j: Id ensures RoleOk(PcOf(s', j), M.PcOf(s'.m, j)) {
      assert RoleOk(PcOf(s, j), M.PcOf(s.m, j));
    }
  }

  lemma NotifierAndWaiter(s: State, i: Id, w: Id, sh: Shape, a: seq<Id>, b: seq<Id>)
    requires Inv(s, sh)
    requires PcOf(s, i).Swapping? || PcOf(s, i).AllNotifying? || PcOf(s, i).AllResuming?
    requires sh.waiting + Taken(PcOf(s, i)) == a + ([w] + b)
    ensures Owns(s, i) && sh.m.holder == Some(i)
    ensures PcOf(s, w).Blocked? && M.PcOf(s.m, w).Idle? && w != i
    ensures Listed(s, a + ([w] + b))
  {
    assert RoleOk(PcOf(s, i), M.PcOf(s.m, i));
    OwnerIsHolder(s, sh, i);
    assert (a + ([w] + b))[|a|] == w;
    StackIsBlocked(s, sh, i, w);
  }

  // In `s'` the notifier `i` is at `pc`, and the waiter it names is about to lock the mutex.
  ghost predicate NotifiedPcs(s: State, s': State, i: Id, pc: Pc)
    requires pc.Resuming? || pc.AllResuming?
  {
    && s'.m == s.m && s'.next == s.next && PcOf(s', i) == pc && PcOf(s', pc.w).Relocking?
    && forall j: Id :: j != pc.w && j != i ==> PcOf(s', j) == PcOf(s, j)
  }

  lemma NotifiedInv(s: State, s': State, i: Id, pc: Pc, sh: Shape, waiting: seq<Id>, a: seq<Id>, b: seq<Id>)
    requires M.Inv(s.m, sh.m) && Roles(s) && Fresh(s) && Inlined(s, Inline(PcOf(s, i)))
    requires Owns(s, i) && sh.m.holder == Some(i)
    requires PcOf(s, i).Swapping? || PcOf(s, i).AllNotifying? || PcOf(s, i).AllResuming?
    requires pc.Resuming? || pc.AllResuming?
    requires pc.w != i && M.PcOf(s.m, pc.w).Idle? && NotifiedPcs(s, s', i, pc)
    requires Inline(PcOf(s, i)).Some? ==> M.PcOf(s.m, Inline(PcOf(s, i)).value).Suspended?
    requires Listed(s, a + ([pc.w] + b)) && waiting + Taken(pc) == a + b
    requires IsChain(s'.next, s'.head, waiting)
    ensures Inv(s', sh.(waiting := waiting))
  {
    NotifyRoles(s, s', i, pc.w, pc);
    ListedTake(s, s', a, pc.w, b);
    NotifyInlined(s, s', i, pc.w, pc);
    assert HolderPc(s', sh.m) == pc && Listed(s', waiting + Taken(pc));
  }

  /** Taking `pc.w` off the list and resuming it inside the notifier `i`. */
  lemma NotifyKeeps(s: State, i: Id, pc: Pc, head: Link, sh: Shape, waiting: seq<Id>, a: seq<Id>, b: seq<Id>)
    requires Inv(s, sh)
    requires PcOf(s, i).Swapping? || PcOf(s, i).AllNotifying? || PcOf(s, i).AllResuming?
    requires pc.Resuming? || pc.AllResuming?
    requires Inline(PcOf(s, i)).Some? ==> M.PcOf(s.m, Inline(PcOf(s, i)).value).Suspended?
    requires sh.waiting + Taken(PcOf(s, i)) == a + ([pc.w] + b) && waiting + Taken(pc) == a + b
    requires IsChain(s.next, head, waiting)
    ensures Inv(Goto(Wake(s.(head := head), pc.w), i, pc), sh.(waiting := waiting))
  {
    NotifierAndWaiter(s, i, pc.w, sh, a, b);
    NotifyPcs(s, i, pc, head);
    NotifiedInv(s, Goto(Wake(s.(head := head), pc.w), i, pc), i, pc, sh, waiting, a, b);
  }

  lemma NotifyInlined(s: State, s': State, i: Id, w: Id, pc: Pc)
    requires Inlined(s, Inline(PcOf(s, i))) && w != i && M.PcOf(s.m, w).Idle?
    requires s'.m == s.m
    requires PcOf(s', w).Relocking? && PcOf(s', i) == pc && !pc.Relocking?
    requires forall j: Id :: j != w && j != i ==> PcOf(s', j) == PcOf(s, j)
    requires Inline(PcOf(s, i)).Some? ==> M.PcOf(s.m, Inline(PcOf(s, i)).value).Suspended?
    ensures Inlined(s', Some(w))
  {
    forall j: Id | PcOf(s', j).Relocking? && !M.PcOf(s'.m, j).Suspended? && !M.PcOf(s'.m, j).Holding?
      ensures j == w
    {
    }
  }

  lemma PopKeeps(s: State, i: Id, sh: Shape)
    requires Inv(s, sh) && PcOf(s, i).Swapping? && s.head == To(PcOf(s, i).top)
    ensures sh.waiting != [] && sh.waiting[0] == PcOf(s, i).top
    ensures Inv(Goto(Wake(s.(head := PcOf(s, i).below), PcOf(s, i).top), i, Resuming(PcOf(s, i).top)),
                sh.(waiting := sh.waiting[1..]))
  {
    var Swapping(top, below) := PcOf(s, i);
    assert sh.waiting + Taken(PcOf(s, i)) == [] + ([top] + sh.waiting[1..]);
    assert sh.waiting[1..] + [] == [] + sh.waiting[1..];
    NotifyKeeps(s, i, Resuming(top), below, sh, sh.waiting[1..], [], sh.waiting[1..]);
  }

  lemma HeadTail(q: seq<Id>)
    requires q != []
    ensures q + [] == [] + ([q[0]] + q[1..]) && [] + q[1..] == [] + q[1..]
  {
  }

  lemma TakeKeeps(s: State, i: Id, snapshot: seq<Id>, sh: Shape)
    requires Inv(s, sh) && PcOf(s, i).AllNotifying? && s.head == PcOf(s, i).cur
    requires snapshot != [] && IsChain(s.next, s.head, snapshot)
    ensures sh.waiting == snapshot
    ensures Inv(Goto(Wake(s.(head := Null), snapshot[0]), i, AllResuming(snapshot[0], snapshot[1..])), sh.(waiting := []))
  {
    ChainUnique(s.next, s.head, sh.waiting, snapshot);
    HeadTail(snapshot);
    NotifyKeeps(s, i, AllResuming(snapshot[0], snapshot[1..]), Null, sh, [], [], snapshot[1..]);
  }

  lemma NextKeeps(s: State, i: Id, sh: Shape)
    requires Inv(s, sh) && PcOf(s, i).AllResuming? && PcOf(s, i).rest != []
    requires M.PcOf(s.m, PcOf(s, i).w).Suspended?
    ensures var rest := PcOf(s, i).rest;
            Inv(Goto(Wake(s, rest[0]), i, AllResuming(rest[0], rest[1..])), sh)
  {
    var rest := PcOf(s, i).rest;
    assert sh.waiting + rest == sh.waiting + ([rest[0]] + rest[1..]);
    NotifyKeeps(s, i, AllResuming(rest[0], rest[1..]), s.head, sh, sh.waiting, sh.waiting, rest[1..]);
    assert s.(head := s.head) == s && sh.(waiting := sh.waiting) == sh;
  }

  predicate WaitSide(step: Step) {
    step.WaitBegin? || step.TestTrue? || step.TestFalse? || step.ReadHead? || step.CasHead? || step.Relocked? || step.Mutate?
  }

  /** The remaining steps move the holder between positions off the stack. */
  lemma WaitSideKeeps(s: State, step: Step, sh: Shape)
    requires Inv(s, sh) && Enabled(s, step) && WaitSide(step) && EventOf(s, step).Quiet?
    ensures Inv(Apply(s, step), sh)
  {
    assert RoleOk(PcOf(s, step.i), M.PcOf(s.m, step.i));
    match step
    case WaitBegin(i, cond) => HolderKeeps(s, i, Testing(cond), sh);
    case TestTrue(i) => HolderKeeps(s, i, Outside, sh);
    case TestFalse(i) => HolderKeeps(s, i, Parking(PcOf(s, i).cond), sh);
    case ReadHead(i) => LinkKeeps(s, i, Pushing(PcOf(s, i).cond), sh);
    case CasHead(i, _) =>
      LinkKeeps(s, i, PcOf(s, i), sh);
      assert s.pcs[i := PcOf(s, i)] == s.pcs;
    case Relocked(i) => HolderKeeps(s, i, Testing(PcOf(s, i).cond), sh);
    case Mutate(i, facts) => MutateKeeps(s, facts, sh);
  }

  lemma NotifySideKeeps(s: State, step: Step, sh: Shape)
    requires Inv(s, sh) && Enabled(s, step) && !step.Mutex? && !WaitSide(step) && EventOf(s, step).Quiet?
    ensures Inv(Apply(s, step), sh)
  {
    assert RoleOk(PcOf(s, step.i), M.PcOf(s.m, step.i));
    match step
    case NotifyLoad(i) => HolderKeeps(s, i, Notifying(s.head), sh);
    case NotifyNobody(i) => HolderKeeps(s, i, Outside, sh);
    case ReadNext(i) =>
      HolderKeeps(s, i, Swapping(PcOf(s, i).cur.id, At(s.next, PcOf(s, i).cur.id)), sh);
    case CasPop(i, _) => HolderKeeps(s, i, Notifying(s.head), sh);
    case ResumeDone(i) => HolderKeeps(s, i, Outside, sh);
    case AllLoad(i) => HolderKeeps(s, i, AllNotifying(s.head), sh);
    case CasTake(i, _, _) => HolderKeeps(s, i, AllNotifying(s.head), sh);
    case AllNext(i) => HolderKeeps(s, i, Outside, sh);
  }

  lemma QuietKeeps(s: State, step: Step, sh: Shape)
    requires Inv(s, sh) && Enabled(s, step) && !step.Mutex? && EventOf(s, step).Quiet?
    ensures Inv(Apply(s, step), sh)
  {
    if WaitSide(step) { WaitSideKeeps(s, step, sh); } else { NotifySideKeeps(s, step, sh); }
  }

  lemma MutateKeeps(s: State, facts: set<Cond>, sh: Shape)
    requires Inv(s, sh)
    ensures Inv(s.(facts := facts), sh)
  {
    var s' := s.(facts := facts);
    assert forall j: Id :: PcOf(s', j) == PcOf(s, j);
  }

  lemma StepKeeps(s: State, step: Step, sh: Shape)
    requires Inv(s, sh) && Enabled(s, step)
    ensures Inv(Apply(s, step), NextShape(s, step, sh))
  {
    match step {
      case Mutex(ms) => MutexKeeps(s, ms, sh);
      case CasHead(i, _) => if EventOf(s, step).Parked? { ParkKeeps(s, i, sh); } else { QuietKeeps(s, step, sh); }
      case CasPop(i, _) => if EventOf(s, step).Notified? { PopKeeps(s, i, sh); } else { QuietKeeps(s, step, sh); }
      case CasTake(i, _, snapshot) =>
        if EventOf(s, step).Notified? { TakeKeeps(s, i, snapshot, sh); } else { QuietKeeps(s, step, sh); }
      case AllNext(i) => if EventOf(s, step).Notified? { NextKeeps(s, i, sh); } else { QuietKeeps(s, step, sh); }
      case _ => QuietKeeps(s, step, sh);
    }
  }

  // ----- Whole runs -----

  ghost predicate ValidRun(s: State, steps: seq<Step>)
    decreases |steps|
  {
    steps == [] || (Enabled(s, steps[0]) && ValidRun(Apply(s, steps[0]), steps[1..]))
  }

  ghost function Exec(s: State, steps: seq<Step>): State
    requires ValidRun(s, steps)
    decreases |steps|
  {
    if steps == [] then s else Exec(Apply(s, steps[0]), steps[1..])
  }

  ghost function Trace(s: State, steps: seq<Step>): seq<Event>
    requires ValidRun(s, steps)
    decreases |steps|
  {
    if steps == [] then [] else [EventOf(s, steps[0])] + Trace(Apply(s, steps[0]), steps[1..])
  }

  function Parks(e: Event): seq<Id> { if e.Parked? then [e.i] else [] }
  function Notifies(e: Event): seq<Id> { if e.Notified? then [e.i] else [] }
  function Requeues(e: Event): seq<Id> { if e.Requeued? then [e.i] else [] }

  function ParkOrder(es: seq<Event>): seq<Id> {
    if es == [] then [] else Parks(es[0]) + ParkOrder(es[1..])
  }

  function NotifyOrder(es: seq<Event>): seq<Id> {
    if es == [] then [] else Notifies(es[0]) + NotifyOrder(es[1..])
  }

  function RequeueOrder(es: seq<Event>): seq<Id> {
    if es == [] then [] else Requeues(es[0]) + RequeueOrder(es[1..])
  }

  const NoWaiters := Shape(M.NoLists, [])

  lemma InitInv()
    ensures Inv(Init, NoWaiters)
  {
    M.InitInv();
  }

  // The mutex steps of a run, and the claim that they are a run of the mutex.
  function MutexSteps(steps: seq<Step>): seq<M.Step> {
    if steps == [] then [] else (if steps[0].Mutex? then [steps[0].step] else []) + MutexSteps(steps[1..])
  }

  lemma {:induction false} MutexRunFrom(s: State, steps: seq<Step>)
    requires ValidRun(s, steps)
    ensures M.ValidRun(s.m, MutexSteps(steps))
    ensures M.Exec(s.m, MutexSteps(steps)) == Exec(s, steps).m
    decreases |steps|
  {
    if steps == [] {
    } else {
      var s' := Apply(s, steps[0]);
      MutexRunFrom(s', steps[1..]);
      if steps[0].Mutex? {
        assert MutexSteps(steps)[0] == steps[0].step && MutexSteps(steps)[1..] == MutexSteps(steps[1..]);
      } else {
        assert s'.m == s.m;
        assert MutexSteps(steps) == MutexSteps(steps[1..]);
      }
    }
  }

  /** The condition variable never bypasses the mutex: erasing its own steps leaves a run of
      the mutex alone, so every guarantee of the mutex carries over. */
  lemma MutexRun(steps: seq<Step>)
    requires ValidRun(Init, steps)
    ensures M.ValidRun(M.Init, MutexSteps(steps))
    ensures M.Exec(M.Init, MutexSteps(steps)) == Exec(Init, steps).m
  {
    MutexRunFrom(Init, steps);
  }

  lemma {:induction false} RunKeeps(s: State, steps: seq<Step>, sh: Shape) returns (sh': Shape)
    requires Inv(s, sh) && ValidRun(s, steps)
    ensures Inv(Exec(s, steps), sh')
    decreases |steps|
  {
    if steps == [] {
      sh' := sh;
    } else {
      StepKeeps(s, steps[0], sh);
      sh' := RunKeeps(Apply(s, steps[0]), steps[1..], NextShape(s, steps[0], sh));
    }
  }

  ghost predicate Reachable(s: State) {
    exists steps :: ValidRun(Init, steps) && Exec(Init, steps) == s
  }

  lemma ReachableInv(s: State) returns (sh: Shape)
    requires Reachable(s)
    ensures Inv(s, sh)
  {
    var steps :| ValidRun(Init, steps) && Exec(Init, steps) == s;
    InitInv();
    sh := RunKeeps(Init, steps, NoWaiters);
  }

  // ----- No lost wakeup -----

  /** Whenever somebody may change the data or read `head_` to notify, everybody else who saw
      its predicate false and was not notified since is on the stack, suspended. */
  lemma NoLostWakeup(s: State, i: Id, j: Id)
    requires Reachable(s) && Owns(s, i) && PcOf(s, i).Outside?
    requires MidWait(PcOf(s, j))
    ensures exists waiting :: IsChain(s.next, s.head, waiting) && NoDup(waiting) && j in waiting
    ensures PcOf(s, j).Blocked? && M.PcOf(s.m, j).Idle?
  {
    var sh := ReachableInv(s);
    OwnerIsHolder(s, sh, i);
    assert RoleOk(PcOf(s, j), M.PcOf(s.m, j));
    assert sh.waiting + Taken(HolderPc(s, sh.m)) == sh.waiting;
    if PcOf(s, j).Parking? || PcOf(s, j).Pushing? || PcOf(s, j).Unlocking? {
      OwnerIsHolder(s, sh, j);
    }
    assert OnStack(PcOf(s, j));
    assert IsChain(s.next, s.head, sh.waiting) && NoDup(sh.waiting) && j in sh.waiting;
  }

  /** A coroutine inside Wait gives the mutex up only once it is on the stack. */
  lemma ReleasedOnlyWhenParked(s: State, ms: M.Step)
    requires Reachable(s) && Enabled(s, Mutex(ms)) && !PcOf(s, ms.i).Outside?
    requires M.EventOf(s.m, ms).Freed? || M.EventOf(s.m, ms).HandedOff?
    ensures exists waiting :: IsChain(s.next, s.head, waiting) && ms.i in waiting
    ensures PcOf(Apply(s, Mutex(ms)), ms.i).Blocked?
  {
    var sh := ReachableInv(s);
    assert RoleOk(PcOf(s, ms.i), M.PcOf(s.m, ms.i));
    assert PcOf(s, ms.i).Unlocking?;
    OwnerIsHolder(s, sh, ms.i);
    assert sh.waiting + Taken(HolderPc(s, sh.m)) == sh.waiting;
    assert IsChain(s.next, s.head, sh.waiting) && ms.i in sh.waiting;
    if ms.Resume? {
      MutexResumeLeaves(s.m, sh.m, ms.i);
    }
  }

  // Inside Wait.
  predicate InWait(pc: Pc) {
    pc.Testing? || MidWait(pc) || pc.Relocking?
  }

  /** No step of anybody takes a coroutine out of Wait, or changes what it waits for, unless its
      predicate is true of the data. */
  lemma WaitEndsTrue(s: State, step: Step, i: Id)
    requires Enabled(s, step) && InWait(PcOf(s, i))
    ensures var pc, s' := PcOf(s, i), Apply(s, step);
            if InWait(PcOf(s', i)) then PcOf(s', i).cond == pc.cond
            else PcOf(s', i).Outside? && pc.cond in s'.facts
  {
  }

  /** Wait returns holding the mutex, alone, with its predicate true of the data, whichever
      step it is that ends it. */
  lemma WaitReturns(s: State, step: Step, i: Id)
    requires Reachable(s) && Enabled(s, step) && InWait(PcOf(s, i)) && PcOf(Apply(s, step), i).Outside?
    ensures Owns(s, i) && forall j: Id :: M.HolderPc(M.PcOf(s.m, j)) ==> j == i
    ensures PcOf(s, i).cond in Apply(s, step).facts && Owns(Apply(s, step), i)
  {
    var sh := ReachableInv(s);
    WaitEndsTrue(s, step, i);
    assert RoleOk(PcOf(s, i), M.PcOf(s.m, i));
    EndsByTest(s, step, i);
    OwnerIsHolder(s, sh, i);
    forall j: Id | M.HolderPc(M.PcOf(s.m, j)) ensures j == i {
      OwnerIsHolder(s, sh, j);
    }
  }

  lemma EndsByTest(s: State, step: Step, i: Id)
    requires Enabled(s, step) && InWait(PcOf(s, i)) && PcOf(Apply(s, step), i).Outside?
    ensures PcOf(s, i).Testing? && Apply(s, step).m == s.m
  {
  }

  // ----- Every notified waiter joins the mutex's queue, once, in order -----

  // The coroutine running inline that has not joined the queue yet.
  function Pending(s: State, sh: Shape): seq<Id> {
    var inline := Inline(HolderPc(s, sh.m));
    if inline.Some? && !M.PcOf(s.m, inline.value).Suspended? then [inline.value] else []
  }

  lemma EnqueuedIsSuspended(m: M.State, ms: M.Step)
    requires M.Enabled(m, ms)
    requires ms.Load? || ms.CasAcquire? || ms.WriteNext? || ms.CasPush?
    ensures !M.PcOf(m, ms.i).Suspended?
    ensures M.EventOf(m, ms).Enqueued? <==> M.PcOf(M.Apply(m, ms), ms.i).Suspended?
  {
  }

  /** The inline coroutine stays off the queue until its own push succeeds. */
  lemma InlineMove(s: State, ms: M.Step, sh: Shape, w: Id)
    requires Inv(s, sh) && Enabled(s, Mutex(ms)) && Inline(HolderPc(s, sh.m)) == Some(w)
    ensures M.PcOf(M.Apply(s.m, ms), w).Suspended? <==>
              M.PcOf(s.m, w).Suspended? || EventOf(s, Mutex(ms)) == Requeued(w)
    ensures EventOf(s, Mutex(ms)) == Requeued(w) ==> !M.PcOf(s.m, w).Suspended?
  {
    MutexDuties(s, ms, sh);
    assert PcOf(s, w).Relocking?;
    if w == ms.i {
      EnqueuedIsSuspended(s.m, ms);
    } else {
      MutexOthers(s.m, ms, sh.m, w);
    }
  }

  /** Only the inline coroutine can be the one that joins the queue. */
  lemma RequeuedIsInline(s: State, ms: M.Step, sh: Shape)
    requires Inv(s, sh) && Enabled(s, Mutex(ms)) && EventOf(s, Mutex(ms)).Requeued?
    ensures Inline(HolderPc(s, sh.m)) == Some(EventOf(s, Mutex(ms)).i)
  {
    EnqueuedIsSuspended(s.m, ms);
    MutexOwn(s.m, ms);
  }

  lemma MutexPending(s: State, ms: M.Step, sh: Shape)
    requires Inv(s, sh) && Enabled(s, Mutex(ms))
    ensures Pending(s, sh) ==
              Requeues(EventOf(s, Mutex(ms))) + Pending(Apply(s, Mutex(ms)), NextShape(s, Mutex(ms), sh))
  {
    MutexDuties(s, ms, sh);
    var inline := Inline(HolderPc(s, sh.m));
    if EventOf(s, Mutex(ms)).Requeued? {
      RequeuedIsInline(s, ms, sh);
    }
    if inline.Some? {
      InlineMove(s, ms, sh, inline.value);
    }
  }

  lemma NotifiedIsListed(s: State, step: Step, sh: Shape)
    requires Inv(s, sh) && Enabled(s, step) && EventOf(s, step).Notified?
    ensures EventOf(s, step).i in sh.waiting + Taken(PcOf(s, step.i))
  {
    var i := step.i;
    match step
    case CasPop(_, _) => PopKeeps(s, i, sh); assert PcOf(s, i).top == sh.waiting[0];
    case CasTake(_, _, snapshot) => ChainUnique(s.next, s.head, sh.waiting, snapshot); assert snapshot[0] == sh.waiting[0];
    case AllNext(_) => assert PcOf(s, i).rest[0] in PcOf(s, i).rest;
  }

  /** The one notified runs inside the notifier, which keeps the mutex. */
  lemma NotifiedIsInline(s: State, step: Step, w: Id)
    requires Enabled(s, step) && EventOf(s, step) == Notified(w) && w != step.i
    ensures var s' := Apply(s, step); s'.m == s.m && Inline(PcOf(s', step.i)) == Some(w)
  {
  }

  lemma NotifiedIsBlocked(s: State, step: Step, sh: Shape)
    requires Inv(s, sh) && Enabled(s, step) && EventOf(s, step).Notified?
    ensures var w := EventOf(s, step).i;
            sh.m.holder == Some(step.i) && PcOf(s, w).Blocked? && M.PcOf(s.m, w).Idle? && w != step.i
  {
    assert RoleOk(PcOf(s, step.i), M.PcOf(s.m, step.i));
    OwnerIsHolder(s, sh, step.i);
    NotifiedIsListed(s, step, sh);
    StackIsBlocked(s, sh, step.i, EventOf(s, step).i);
  }

  // Whoever the notifier resumed before has reached the queue.
  lemma NotifierIsFree(s: State, step: Step)
    requires Enabled(s, step) && EventOf(s, step).Notified?
    ensures var inline := Inline(PcOf(s, step.i)); inline.None? || M.PcOf(s.m, inline.value).Suspended?
    ensures !step.Mutex? && !step.CasHead?
  {
  }

  lemma OnePending(s: State, s': State, i: Id, w: Id, sh: Shape, sh': Shape)
    requires s'.m == s.m && sh'.m == sh.m && sh.m.holder == Some(i)
    requires Inline(PcOf(s, i)).None? || M.PcOf(s.m, Inline(PcOf(s, i)).value).Suspended?
    requires Inline(PcOf(s', i)) == Some(w) && M.PcOf(s.m, w).Idle?
    ensures Pending(s, sh) == [] && Pending(s', sh') == [w]
  {
  }

  lemma NotifyPending(s: State, step: Step, sh: Shape)
    requires Inv(s, sh) && Enabled(s, step) && EventOf(s, step).Notified?
    ensures Pending(s, sh) == []
    ensures Pending(Apply(s, step), NextShape(s, step, sh)) == [EventOf(s, step).i]
  {
    NotifiedIsBlocked(s, step, sh);
    NotifierIsFree(s, step);
    NotifiedIsInline(s, step, EventOf(s, step).i);
    OnePending(s, Apply(s, step), step.i, EventOf(s, step).i, sh, NextShape(s, step, sh));
  }

  lemma QuietPending(s: State, step: Step, sh: Shape)
    requires Inv(s, sh) && Enabled(s, step) && !step.Mutex? && !EventOf(s, step).Notified?
    ensures Pending(Apply(s, step), NextShape(s, step, sh)) == Pending(s, sh)
  {
    assert RoleOk(PcOf(s, step.i), M.PcOf(s.m, step.i));
    OwnerIsHolder(s, sh, step.i);
    QuietInline(s, step);
    SamePending(s, Apply(s, step), step.i, sh, NextShape(s, step, sh));
  }

  lemma SamePending(s: State, s': State, i: Id, sh: Shape, sh': Shape)
    requires s'.m == s.m && sh'.m == sh.m && sh.m.holder == Some(i)
    requires Inline(PcOf(s', i)) == Inline(PcOf(s, i))
          || (Inline(PcOf(s', i)).None? && M.PcOf(s.m, Inline(PcOf(s, i)).value).Suspended?)
    ensures Pending(s', sh') == Pending(s, sh)
  {
  }

  /** A step that notifies nobody has nobody inline, before it and after, whose coroutine has
      not reached the queue. */
  lemma QuietInline(s: State, step: Step)
    requires Enabled(s, step) && !step.Mutex? && !EventOf(s, step).Notified?
    ensures var s' := Apply(s, step);
            && s'.m == s.m
            && (Inline(PcOf(s', step.i)) == Inline(PcOf(s, step.i))
              || (Inline(PcOf(s', step.i)).None? && M.PcOf(s.m, Inline(PcOf(s, step.i)).value).Suspended?))
  {
  }

  lemma StepPending(s: State, step: Step, sh: Shape)
    requires Inv(s, sh) && Enabled(s, step)
    ensures Pending(s, sh) + Notifies(EventOf(s, step))
         == Requeues(EventOf(s, step)) + Pending(Apply(s, step), NextShape(s, step, sh))
  {
    if step.Mutex? {
      MutexPending(s, step.step, sh);
    } else if EventOf(s, step).Notified? {
      NotifyPending(s, step, sh);
    } else {
      QuietPending(s, step, sh);
    }
  }

  lemma {:induction false} RequeuedInOrder(s: State, steps: seq<Step>, sh: Shape) returns (sh': Shape)
    requires Inv(s, sh) && ValidRun(s, steps)
    ensures Inv(Exec(s, steps), sh')
    ensures Pending(s, sh) + NotifyOrder(Trace(s, steps)) == RequeueOrder(Trace(s, steps)) + Pending(Exec(s, steps), sh')
    decreases |steps|
  {
    if steps == [] {
      sh' := sh;
    } else {
      var s1, sh1, es := Apply(s, steps[0]), NextShape(s, steps[0], sh), Trace(s, steps);
      StepKeeps(s, steps[0], sh);
      StepPending(s, steps[0], sh);
      sh' := RequeuedInOrder(s1, steps[1..], sh1);
      assert es[1..] == Trace(s1, steps[1..]);
      M.Regroup(Pending(s, sh), Notifies(es[0]), Requeues(es[0]), Pending(s1, sh1),
                NotifyOrder(es[1..]), RequeueOrder(es[1..]), Pending(Exec(s, steps), sh'));
    }
  }

  /** Over any run, the notified waiters are exactly those that joined the mutex's queue
      after being notified, in the same order, but for at most one that is still on its way:
      nobody is notified into a free mutex, and nobody joins twice for one notification. */
  lemma NotifiedAreRequeued(steps: seq<Step>) returns (onTheWay: seq<Id>)
    requires ValidRun(Init, steps)
    ensures NotifyOrder(Trace(Init, steps)) == RequeueOrder(Trace(Init, steps)) + onTheWay
    ensures |onTheWay| <= 1
  {
    InitInv();
    var sh := RequeuedInOrder(Init, steps, NoWaiters);
    onTheWay := Pending(Exec(Init, steps), sh);
    assert Pending(Init, NoWaiters) == [];
    NothingBefore(NotifyOrder(Trace(Init, steps)));
  }

  lemma NothingBefore(ids: seq<Id>)
    ensures [] + ids == ids
  {
  }

  // ----- Nobody parked is lost, nobody is notified twice for one parking -----

  function Everybody(s: State, sh: Shape): seq<Id> {
    sh.waiting + Taken(HolderPc(s, sh.m))
  }

  /** Outside the mutex, only its holder steps. */
  lemma StepperHolds(s: State, step: Step, sh: Shape)
    requires Inv(s, sh) && Enabled(s, step)
    ensures !step.Mutex? ==> sh.m.holder == Some(step.i) && HolderPc(s, sh.m) == PcOf(s, step.i)
  {
    if !step.Mutex? {
      assert RoleOk(PcOf(s, step.i), M.PcOf(s.m, step.i));
    }
  }

  lemma TakeConserves(all: seq<Id>, a: seq<Id>, w: Id, b: seq<Id>)
    requires all == a + ([w] + b)
    ensures multiset(all) == multiset([w]) + multiset(a + b)
  {
  }

  lemma PopConserves(s: State, i: Id, sh: Shape)
    requires Inv(s, sh) && Enabled(s, CasPop(i, false)) && s.head == To(PcOf(s, i).top)
    ensures multiset(Everybody(s, sh)) == multiset([PcOf(s, i).top]) + multiset(sh.waiting[1..])
  {
    StepperHolds(s, CasPop(i, false), sh);
    PopKeeps(s, i, sh);
    assert Everybody(s, sh) == [] + ([sh.waiting[0]] + sh.waiting[1..]);
    TakeConserves(Everybody(s, sh), [], sh.waiting[0], sh.waiting[1..]);
  }

  lemma SnapshotConserves(s: State, snapshot: seq<Id>, sh: Shape)
    requires IsChain(s.next, s.head, sh.waiting) && HolderPc(s, sh.m).AllNotifying?
    requires IsChain(s.next, s.head, snapshot) && snapshot != []
    ensures multiset(Everybody(s, sh)) == multiset([snapshot[0]]) + multiset(snapshot[1..])
  {
    ChainUnique(s.next, s.head, sh.waiting, snapshot);
    assert Everybody(s, sh) == [] + ([snapshot[0]] + snapshot[1..]);
    TakeConserves(Everybody(s, sh), [], snapshot[0], snapshot[1..]);
  }

  lemma NextConserves(s: State, i: Id, sh: Shape, rest: seq<Id>)
    requires HolderPc(s, sh.m).AllResuming? && HolderPc(s, sh.m).rest == rest && rest != []
    ensures multiset(Everybody(s, sh)) == multiset([rest[0]]) + multiset(sh.waiting + rest[1..])
  {
    TakeConserves(Everybody(s, sh), sh.waiting, rest[0], rest[1..]);
  }

  lemma NotifyConserves(s: State, step: Step, sh: Shape)
    requires Inv(s, sh) && Enabled(s, step) && EventOf(s, step).Notified?
    ensures multiset(Everybody(s, sh))
         == multiset([EventOf(s, step).i]) + multiset(Everybody(Apply(s, step), NextShape(s, step, sh)))
  {
    StepperHolds(s, step, sh);
    var sh', pc' := NextShape(s, step, sh), PcOf(Apply(s, step), step.i);
    assert Everybody(Apply(s, step), sh') == sh'.waiting + Taken(pc');
    match step
    case CasPop(i, _) => PopConserves(s, i, sh); PopKeeps(s, i, sh);
    case CasTake(i, _, snapshot) => SnapshotConserves(s, snapshot, sh);
    case AllNext(i) => NextConserves(s, i, sh, PcOf(s, i).rest);
  }

  lemma ParkConserves(s: State, i: Id, spurious: bool, sh: Shape)
    requires Inv(s, sh) && Enabled(s, CasHead(i, spurious)) && EventOf(s, CasHead(i, spurious)).Parked?
    ensures var s', sh' := Apply(s, CasHead(i, spurious)), NextShape(s, CasHead(i, spurious), sh);
            multiset(Everybody(s, sh)) + multiset([i]) == multiset(Everybody(s', sh'))
  {
    StepperHolds(s, CasHead(i, spurious), sh);
    var s', sh' := Apply(s, CasHead(i, spurious)), NextShape(s, CasHead(i, spurious), sh);
    assert Everybody(s, sh) == sh.waiting;
    assert Everybody(s', sh') == [i] + sh.waiting;
  }

  lemma QuietConserves(s: State, step: Step, sh: Shape)
    requires Inv(s, sh) && Enabled(s, step) && !EventOf(s, step).Notified? && !EventOf(s, step).Parked?
    ensures Everybody(Apply(s, step), NextShape(s, step, sh)) == Everybody(s, sh)
  {
    if step.Mutex? {
      MutexDuties(s, step.step, sh);
    } else {
      StepperHolds(s, step, sh);
    }
  }

  lemma StepConserves(s: State, step: Step, sh: Shape)
    requires Inv(s, sh) && Enabled(s, step)
    ensures multiset(Everybody(s, sh)) + multiset(Parks(EventOf(s, step)))
         == multiset(Notifies(EventOf(s, step))) + multiset(Everybody(Apply(s, step), NextShape(s, step, sh)))
  {
    if EventOf(s, step).Notified? {
      NotifyConserves(s, step, sh);
    } else if EventOf(s, step).Parked? {
      ParkConserves(s, step.i, step.spurious, sh);
    } else {
      QuietConserves(s, step, sh);
    }
  }

  lemma RegroupCounts(all: multiset<Id>, park: seq<Id>, notify: seq<Id>, all': multiset<Id>,
                      parks: seq<Id>, notifies: seq<Id>, rest: multiset<Id>)
    requires all + multiset(park) == multiset(notify) + all'
    requires all' + multiset(parks) == multiset(notifies) + rest
    ensures all + multiset(park + parks) == multiset(notify + notifies) + rest
  {
    var p, ps, n, ns := multiset(park), multiset(parks), multiset(notify), multiset(notifies);
    assert multiset(park + parks) == p + ps && multiset(notify + notifies) == n + ns;
    assert all + (p + ps) == (all + p) + ps;
    assert (n + all') + ps == n + (all' + ps);
    assert n + (ns + rest) == (n + ns) + rest;
  }

  lemma {:induction false} RunConserves(s: State, steps: seq<Step>, sh: Shape) returns (sh': Shape)
    requires Inv(s, sh) && ValidRun(s, steps)
    ensures Inv(Exec(s, steps), sh')
    ensures multiset(Everybody(s, sh)) + multiset(ParkOrder(Trace(s, steps)))
         == multiset(NotifyOrder(Trace(s, steps))) + multiset(Everybody(Exec(s, steps), sh'))
    decreases |steps|
  {
    if steps == [] {
      sh' := sh;
    } else {
      var s1, sh1, es := Apply(s, steps[0]), NextShape(s, steps[0], sh), Trace(s, steps);
      StepKeeps(s, steps[0], sh);
      StepConserves(s, steps[0], sh);
      sh' := RunConserves(s1, steps[1..], sh1);
      assert es[1..] == Trace(s1, steps[1..]);
      RegroupCounts(multiset(Everybody(s, sh)), Parks(es[0]), Notifies(es[0]), multiset(Everybody(s1, sh1)),
                    ParkOrder(es[1..]), NotifyOrder(es[1..]), multiset(Everybody(Exec(s, steps), sh')));
    }
  }

  /** Over any run the parkings are matched one for one by the notifications and by those
      still on the stack or in NotifyAll's hands; `left` lists each of these once and they
      are precisely the coroutines suspended (or about to be) in Wait. */
  lemma ParkedAreNotifiedOnce(steps: seq<Step>) returns (left: seq<Id>)
    requires ValidRun(Init, steps)
    ensures multiset(ParkOrder(Trace(Init, steps))) == multiset(NotifyOrder(Trace(Init, steps))) + multiset(left)
    ensures Listed(Exec(Init, steps), left)
  {
    InitInv();
    var sh := RunConserves(Init, steps, NoWaiters);
    left := Everybody(Exec(Init, steps), sh);
    assert Everybody(Init, NoWaiters) == [];
  }

  // ----- What one notification does -----

  /** NotifyOne resumes the waiter that parked last. */
  lemma NotifyOneTakesLatest(s: State, i: Id, spurious: bool, waiting: seq<Id>)
    requires Reachable(s) && Enabled(s, CasPop(i, spurious)) && EventOf(s, CasPop(i, spurious)).Notified?
    requires IsChain(s.next, s.head, waiting)
    ensures waiting != [] && EventOf(s, CasPop(i, spurious)) == Notified(waiting[0])
    ensures IsChain(Apply(s, CasPop(i, spurious)).next, Apply(s, CasPop(i, spurious)).head, waiting[1..])
  {
    var sh := ReachableInv(s);
    ChainUnique(s.next, s.head, sh.waiting, waiting);
    PopKeeps(s, i, sh);
  }

  // `i` stays inside NotifyAll's loop until the run ends.
  ghost predicate LoopsUntilEnd(s: State, i: Id, steps: seq<Step>)
    requires ValidRun(s, steps)
    decreases |steps|
  {
    if steps == [] then PcOf(s, i).Outside?
    else PcOf(s, i).AllResuming? && LoopsUntilEnd(Apply(s, steps[0]), i, steps[1..])
  }

  lemma OthersKeepLoop(s: State, step: Step, sh: Shape, i: Id)
    requires Inv(s, sh) && Enabled(s, step) && PcOf(s, i).AllResuming? && step != AllNext(i)
    ensures PcOf(Apply(s, step), i) == PcOf(s, i)
    ensures !EventOf(s, step).Notified?
  {
    assert RoleOk(PcOf(s, i), M.PcOf(s.m, i));
    OwnerIsHolder(s, sh, i);
    StepperHolds(s, step, sh);
  }

  /** One round of the loop resumes the next waiter, the previous one being in the queue. */
  lemma LoopRound(s: State, i: Id, sh: Shape, rest: seq<Id>)
    requires PcOf(s, i).AllResuming? && PcOf(s, i).rest == rest
    requires Inv(s, sh) && Enabled(s, AllNext(i))
    ensures Pending(s, sh) == []
    ensures rest != [] ==>
              && EventOf(s, AllNext(i)) == Notified(rest[0])
              && Pending(Apply(s, AllNext(i)), sh) == [rest[0]]
              && PcOf(Apply(s, AllNext(i)), i) == AllResuming(rest[0], rest[1..])
    ensures rest == [] ==> PcOf(Apply(s, AllNext(i)), i).Outside? && EventOf(s, AllNext(i)).Quiet?
  {
    StepperHolds(s, AllNext(i), sh);
    if rest != [] {
      NotifyPending(s, AllNext(i), sh);
    }
  }

  /** What the rest of NotifyAll's loop owes: `notifies` and `requeues` are delivered. */
  ghost predicate Delivers(s: State, i: Id, sh: Shape, notifies: seq<Id>, requeues: seq<Id>) {
    PcOf(s, i).AllResuming? && notifies == PcOf(s, i).rest && requeues == Pending(s, sh) + PcOf(s, i).rest
  }

  lemma RoundDelivers(s: State, i: Id, sh: Shape, notifies: seq<Id>, requeues: seq<Id>)
    requires Inv(s, sh) && Enabled(s, AllNext(i)) && PcOf(s, i).rest != []
    requires Delivers(Apply(s, AllNext(i)), i, sh, notifies, requeues)
    ensures Delivers(s, i, sh, Notifies(EventOf(s, AllNext(i))) + notifies, requeues)
  {
    LoopRound(s, i, sh, PcOf(s, i).rest);
  }

  lemma Prepend(p: seq<Id>, r: seq<Id>, p': seq<Id>, rest: seq<Id>)
    requires p + [] == r + p'
    ensures p + rest == r + (p' + rest)
  {
    assert p + [] == p;
  }

  lemma OtherDelivers(s: State, i: Id, step: Step, sh: Shape, notifies: seq<Id>, requeues: seq<Id>)
    requires Inv(s, sh) && Enabled(s, step) && step != AllNext(i) && PcOf(s, i).AllResuming?
    requires Delivers(Apply(s, step), i, NextShape(s, step, sh), notifies, requeues)
    ensures Delivers(s, i, sh, notifies, Requeues(EventOf(s, step)) + requeues)
    ensures Notifies(EventOf(s, step)) == []
  {
    StepPending(s, step, sh);
    OthersKeepLoop(s, step, sh, i);
    Prepend(Pending(s, sh), Requeues(EventOf(s, step)),
            Pending(Apply(s, step), NextShape(s, step, sh)), PcOf(s, i).rest);
  }

  lemma {:induction false} LoopDelivers(s: State, i: Id, steps: seq<Step>, sh: Shape)
    requires Inv(s, sh) && ValidRun(s, steps) && PcOf(s, i).AllResuming? && LoopsUntilEnd(s, i, steps)
    ensures Delivers(s, i, sh, NotifyOrder(Trace(s, steps)), RequeueOrder(Trace(s, steps)))
    decreases |steps|
  {
    var s1, sh1, later := Apply(s, steps[0]), NextShape(s, steps[0], sh), Trace(Apply(s, steps[0]), steps[1..]);
    TraceCons(s, steps);
    StepKeeps(s, steps[0], sh);
    if steps[0] != AllNext(i) {
      OthersKeepLoop(s, steps[0], sh, i);
      LoopDelivers(s1, i, steps[1..], sh1);
      OtherDelivers(s, i, steps[0], sh, NotifyOrder(later), RequeueOrder(later));
    } else {
      LoopRound(s, i, sh, PcOf(s, i).rest);
      if PcOf(s, i).rest == [] {
        assert steps[1..] == [];
      } else {
        LoopDelivers(s1, i, steps[1..], sh1);
        RoundDelivers(s, i, sh, NotifyOrder(later), RequeueOrder(later));
      }
    }
  }

  lemma TraceCons(s: State, steps: seq<Step>)
    requires ValidRun(s, steps) && steps != []
    ensures var e, es := EventOf(s, steps[0]), Trace(Apply(s, steps[0]), steps[1..]);
            && NotifyOrder(Trace(s, steps)) == Notifies(e) + NotifyOrder(es)
            && RequeueOrder(Trace(s, steps)) == Requeues(e) + RequeueOrder(es)
  {
    var e, es := EventOf(s, steps[0]), Trace(Apply(s, steps[0]), steps[1..]);
    assert Trace(s, steps) == [e] + es;
    assert ([e] + es)[1..] == es;
  }

  /** NotifyAll delivers to everybody who was waiting, once each, newest first: by the time
      it returns, all of them have joined the mutex's queue in that order, and nobody else
      was notified meanwhile. */
  lemma NotifyAllDelivers(s: State, i: Id, waiting: seq<Id>, s1: State, steps: seq<Step>)
    requires Reachable(s) && IsChain(s.next, s.head, waiting)
    requires Enabled(s, CasTake(i, false, waiting)) && s.head == PcOf(s, i).cur
    requires s1 == Apply(s, CasTake(i, false, waiting))
    requires ValidRun(s1, steps) && LoopsUntilEnd(s1, i, steps)
    ensures [waiting[0]] + NotifyOrder(Trace(s1, steps)) == waiting
    ensures RequeueOrder(Trace(s1, steps)) == waiting
  {
    var sh := ReachableInv(s);
    var sh1 := TakeStarts(s, i, waiting, sh);
    LoopServes(s1, i, steps, sh1, waiting);
  }

  lemma LoopServes(s: State, i: Id, steps: seq<Step>, sh: Shape, waiting: seq<Id>)
    requires Inv(s, sh) && ValidRun(s, steps) && waiting != [] && LoopsUntilEnd(s, i, steps)
    requires PcOf(s, i) == AllResuming(waiting[0], waiting[1..]) && Pending(s, sh) == [waiting[0]]
    ensures [waiting[0]] + NotifyOrder(Trace(s, steps)) == waiting
    ensures RequeueOrder(Trace(s, steps)) == waiting
  {
    LoopDelivers(s, i, steps, sh);
    assert waiting == [waiting[0]] + waiting[1..];
  }

  lemma TakeStarts(s: State, i: Id, waiting: seq<Id>, sh: Shape) returns (sh1: Shape)
    requires Inv(s, sh) && Enabled(s, CasTake(i, false, waiting)) && s.head == PcOf(s, i).cur
    ensures var s1 := Apply(s, CasTake(i, false, waiting));
            && Inv(s1, sh1) && PcOf(s1, i) == AllResuming(waiting[0], waiting[1..])
            && Pending(s1, sh1) == [waiting[0]]
  {
    sh1 := sh.(waiting := []);
    TakeKeeps(s, i, waiting, sh);
    NotifyPending(s, CasTake(i, false, waiting), sh);
  }

  // ----- What a notifier has read stays true -----

  /** With the mutex held nobody else changes `head_`: what a notifier loaded is still there. */
  ghost predicate Loaded(s: State) {
    && (forall i: Id :: PcOf(s, i).Notifying? || PcOf(s, i).AllNotifying? ==> PcOf(s, i).cur == s.head)
    && (forall i: Id :: PcOf(s, i).Swapping? ==> s.head == To(PcOf(s, i).top))
  }

  lemma MutexKeepsLoaded(s: State, ms: M.Step)
    requires Loaded(s) && Enabled(s, Mutex(ms))
    ensures Loaded(Apply(s, Mutex(ms)))
  {
    var s' := Apply(s, Mutex(ms));
    assert s'.head == s.head;
    assert forall i: Id :: PcOf(s', i) == PcOf(s, i) || PcOf(s', i).Blocked?;
  }

  /** A coroutine that the step is not about is in the same place, or was waiting. */
  lemma OthersStay(s: State, step: Step, j: Id)
    requires Enabled(s, step) && !step.Mutex? && j != step.i
    ensures PcOf(Apply(s, step), j) == PcOf(s, j) || PcOf(Apply(s, step), j).Relocking?
  {
  }

  lemma OwnStepLoads(s: State, step: Step)
    requires Enabled(s, step) && !step.Mutex? && Loaded(s)
    ensures var s', pc := Apply(s, step), PcOf(Apply(s, step), step.i);
            && (pc.Notifying? || pc.AllNotifying? ==> pc.cur == s'.head)
            && (pc.Swapping? ==> s'.head == To(pc.top))
  {
    var pc := PcOf(s, step.i);
    assert pc.Notifying? || pc.AllNotifying? ==> pc.cur == s.head;
    match step
    case Mutate(_, _) => assert PcOf(Apply(s, step), step.i) == pc;
    case _ =>
  }

  lemma StepKeepsLoaded(s: State, step: Step, sh: Shape)
    requires Inv(s, sh) && Loaded(s) && Enabled(s, step)
    ensures Loaded(Apply(s, step))
  {
    if step.Mutex? {
      MutexKeepsLoaded(s, step.step);
    } else {
      var s' := Apply(s, step);
      StepperHolds(s, step, sh);
      OwnStepLoads(s, step);
      forall j: Id | PcOf(s', j).Notifying? || PcOf(s', j).AllNotifying? || PcOf(s', j).Swapping?
        ensures j == step.i
      {
        if j != step.i {
          OthersStay(s, step, j);
          assert RoleOk(PcOf(s, j), M.PcOf(s.m, j));
          OwnerIsHolder(s, sh, j);
        }
      }
    }
  }

  lemma {:induction false} RunKeepsLoaded(s: State, steps: seq<Step>, sh: Shape)
    requires Inv(s, sh) && Loaded(s) && ValidRun(s, steps)
    ensures Loaded(Exec(s, steps))
    decreases |steps|
  {
    if steps != [] {
      StepKeepsLoaded(s, steps[0], sh);
      StepKeeps(s, steps[0], sh);
      RunKeepsLoaded(Apply(s, steps[0]), steps[1..], NextShape(s, steps[0], sh));
    }
  }

  lemma ReachableLoaded(s: State)
    requires Reachable(s)
    ensures Loaded(s)
  {
    var steps :| ValidRun(Init, steps) && Exec(Init, steps) == s;
    InitInv();
    RunKeepsLoaded(Init, steps, NoWaiters);
  }

  // ----- Every call gets somewhere -----

  /** NotifyOne ends with nobody resumed only when nobody waits; else it resumes somebody, and
      stays until that one has joined the mutex's queue. */
  lemma NotifyOneEnds(s: State, step: Step, i: Id)
    requires Reachable(s) && Enabled(s, step)
    ensures var pc, pc' := PcOf(s, i), PcOf(Apply(s, step), i);
            && (pc.Notifying? || pc.Swapping? ==>
                 || pc'.Notifying? || pc'.Swapping?
                 || (pc'.Resuming? && EventOf(s, step) == Notified(pc'.w))
                 || (pc'.Outside? && s.head.Null?))
            && (pc.Resuming? && pc' != pc ==> pc'.Outside? && M.PcOf(s.m, pc.w).Suspended?)
  {
    ReachableLoaded(s);
  }

  /** So does NotifyAll, for one after the other. */
  lemma NotifyAllEnds(s: State, step: Step, i: Id)
    requires Reachable(s) && Enabled(s, step)
    ensures var pc, pc' := PcOf(s, i), PcOf(Apply(s, step), i);
            && (pc.AllNotifying? ==>
                 || pc'.AllNotifying?
                 || (pc'.AllResuming? && EventOf(s, step) == Notified(pc'.w))
                 || (pc'.Outside? && s.head.Null?))
            && (pc.AllResuming? && pc' != pc ==>
                 && M.PcOf(s.m, pc.w).Suspended?
                 && (if pc.rest == [] then pc'.Outside? else pc' == AllResuming(pc.rest[0], pc.rest[1..])))
  {
    ReachableLoaded(s);
  }

  function Mover(step: Step): Id {
    match step
    case Mutex(ms) => ms.i
    case _ => step.i
  }

  ghost predicate CanMove(s: State, i: Id) {
    exists step :: Mover(step) == i && Enabled(s, step)
  }

  lemma MutexMoves(s: State, sh: Shape, i: Id)
    requires Inv(s, sh) && !M.PcOf(s.m, i).Suspended?
    requires PcOf(s, i).Outside? || PcOf(s, i).Unlocking? || PcOf(s, i).Relocking?
    ensures CanMove(s, i)
  {
    assert RoleOk(PcOf(s, i), M.PcOf(s.m, i));
    var pc := M.PcOf(s.m, i);
    if PcOf(s, i).Relocking? {
      var step := if pc.Holding? then Relocked(i) else if pc.Idle? then Mutex(M.Load(i))
        else if pc.Linked? then Mutex(M.CasPush(i, false))
        else if pc.seen.NotLocked? then Mutex(M.CasAcquire(i, false)) else Mutex(M.WriteNext(i));
      assert Mover(step) == i && Enabled(s, step);
    } else {
      M.EveryoneCanMove(s.m, sh.m, i);
      var ms: M.Step :| ms.i == i && M.Enabled(s.m, ms);
      assert Mover(Mutex(ms)) == i && Enabled(s, Mutex(ms));
    }
  }

  lemma CallMoves(s: State, sh: Shape, i: Id)
    requires Inv(s, sh)
    requires var pc := PcOf(s, i);
             pc.Testing? || pc.Parking? || pc.Pushing? || pc.Notifying? || pc.Swapping? || pc.AllNotifying?
    ensures CanMove(s, i)
  {
    var step := match PcOf(s, i)
      case Testing(cond) => if cond in s.facts then TestTrue(i) else TestFalse(i)
      case Parking(_) => ReadHead(i)
      case Pushing(_) => CasHead(i, false)
      case Notifying(cur) => if cur.Null? then NotifyNobody(i) else ReadNext(i)
      case Swapping(_, _) => CasPop(i, false)
      case AllNotifying(cur) => if cur.Null? then NotifyNobody(i) else CasTake(i, false, sh.waiting)
      case _ => AllLoad(i);
    assert Mover(step) == i && Enabled(s, step);
  }

  /** In every reachable state, a coroutine can go on by itself, unless it is suspended in the
      mutex's queue or on the condition variable's stack, or is a notifier that waits for the
      coroutine it has resumed, which then can go on. */
  lemma EveryoneCanMove(s: State, i: Id)
    requires Reachable(s)
    ensures var pc := PcOf(s, i);
            || CanMove(s, i) || M.PcOf(s.m, i).Suspended? || pc.Blocked?
            || ((pc.Resuming? || pc.AllResuming?) && CanMove(s, pc.w))
  {
    var sh := ReachableInv(s);
    var pc := PcOf(s, i);
    assert RoleOk(pc, M.PcOf(s.m, i));
    if pc.Resuming? || pc.AllResuming? {
      OwnerIsHolder(s, sh, i);
      if M.PcOf(s.m, pc.w).Suspended? {
        var step := if pc.Resuming? then ResumeDone(i) else AllNext(i);
        assert Mover(step) == i && Enabled(s, step);
      } else {
        MutexMoves(s, sh, pc.w);
      }
    } else if !M.PcOf(s.m, i).Suspended? && !pc.Blocked? {
      if pc.Outside? || pc.Unlocking? || pc.Relocking? { MutexMoves(s, sh, i); } else { CallMoves(s, sh, i); }
    }
  }

  lemma RunsTwo(s: State, a: Step, b: Step)
    requires Enabled(s, a) && Enabled(Apply(s, a), b)
    ensures ValidRun(s, [a, b]) && Exec(s, [a, b]) == Apply(Apply(s, a), b)
  {
    RunsOne(Apply(s, a), b);
    assert [a, b][1..] == [b];
  }

  lemma RunsOne(s: State, a: Step)
    requires Enabled(s, a)
    ensures ValidRun(s, [a]) && Exec(s, [a]) == Apply(s, a)
  {
    assert [a][1..] == [];
  }

  /** The test of Wait lets a coroutine through or has it park as the data say at that step. */
  lemma TestDecides(s: State, step: Step, i: Id)
    requires Enabled(s, step) && PcOf(s, i).Testing? && PcOf(Apply(s, step), i) != PcOf(s, i)
    ensures PcOf(Apply(s, step), i) == if PcOf(s, i).cond in s.facts then Outside else Parking(PcOf(s, i).cond)
  {
  }

  /** Whoever holds the mutex can change the data at will, and nobody else can. */
  lemma HolderChangesData(s: State, step: Step, i: Id, facts: set<Cond>)
    requires Enabled(s, step)
    ensures PcOf(s, i).Outside? && Owns(s, i) ==>
      Enabled(s, Mutate(i, facts)) && Apply(s, Mutate(i, facts)) == s.(facts := facts)
    ensures Apply(s, step).facts != s.facts ==> Owns(s, Mover(step)) && PcOf(s, Mover(step)).Outside?
  {
  }

  /** Wait by the holder of the mutex returns at once when its predicate is true ... */
  lemma WaitPasses(s: State, i: Id, cond: Cond)
    requires PcOf(s, i).Outside? && Owns(s, i) && cond in s.facts
    ensures var steps := [WaitBegin(i, cond), TestTrue(i)];
            ValidRun(s, steps) && PcOf(Exec(s, steps), i).Outside? && Exec(s, steps).m == s.m && Exec(s, steps).head == s.head
  {
    RunsTwo(s, WaitBegin(i, cond), TestTrue(i));
  }

  /** ... and else puts it on the stack, in front of all others, before it unlocks. */
  lemma WaitParks(s: State, i: Id, cond: Cond)
    requires PcOf(s, i).Outside? && Owns(s, i) && cond !in s.facts
    ensures Enabled(s, WaitBegin(i, cond)) && Enabled(Apply(s, WaitBegin(i, cond)), TestFalse(i))
    ensures var s1, steps := Apply(Apply(s, WaitBegin(i, cond)), TestFalse(i)), [ReadHead(i), CasHead(i, false)];
            && ValidRun(s1, steps)
            && PcOf(Exec(s1, steps), i) == Unlocking(cond) && Exec(s1, steps).head == To(i)
            && At(Exec(s1, steps).next, i) == s.head && Exec(s1, steps).m == s.m
  {
    var s1 := Apply(Apply(s, WaitBegin(i, cond)), TestFalse(i));
    RunsTwo(s1, ReadHead(i), CasHead(i, false));
  }

  /** NotifyOne by the holder of the mutex takes the coroutine at the head of the stack and
      resumes it, if there is one. */
  lemma NotifyOneResumes(s: State, i: Id, w: Id)
    requires Reachable(s) && PcOf(s, i).Outside? && Owns(s, i) && s.head == To(w)
    ensures var s1 := Apply(s, NotifyLoad(i));
            var steps := [ReadNext(i), CasPop(i, false)];
            && ValidRun(s1, steps) && PcOf(Exec(s1, steps), i) == Resuming(w)
            && PcOf(s, w).Blocked? && PcOf(Exec(s1, steps), w) == Relocking(PcOf(s, w).cond)
            && Exec(s1, steps).head == At(s.next, w)
  {
    var sh := ReachableInv(s);
    OwnerIsHolder(s, sh, i);
    assert sh.waiting[0] == w && w in sh.waiting + Taken(HolderPc(s, sh.m));
    StackIsBlocked(s, sh, i, w);
    var s1 := Apply(s, NotifyLoad(i));
    RunsTwo(s1, ReadNext(i), CasPop(i, false));
  }

  /** NotifyAll takes all of the stack, and resumes its first. */
  lemma NotifyAllTakes(s: State, i: Id, waiting: seq<Id>)
    requires Reachable(s) && PcOf(s, i).Outside? && Owns(s, i)
    requires waiting != [] && IsChain(s.next, s.head, waiting)
    ensures var steps := [AllLoad(i), CasTake(i, false, waiting)];
            && ValidRun(s, steps) && PcOf(Exec(s, steps), i) == AllResuming(waiting[0], waiting[1..])
            && PcOf(s, waiting[0]).Blocked? && PcOf(Exec(s, steps), waiting[0]) == Relocking(PcOf(s, waiting[0]).cond)
            && Exec(s, steps).head.Null?
  {
    var sh := ReachableInv(s);
    OwnerIsHolder(s, sh, i);
    ChainUnique(s.next, s.head, sh.waiting, waiting);
    assert waiting[0] in sh.waiting + Taken(HolderPc(s, sh.m));
    StackIsBlocked(s, sh, i, waiting[0]);
    RunsTwo(s, AllLoad(i), CasTake(i, false, waiting));
  }

  /** With nobody on the stack both return. */
  lemma NotifyNobodyReturns(s: State, i: Id)
    requires PcOf(s, i).Outside? && Owns(s, i) && s.head.Null?
    ensures var one := [NotifyLoad(i), NotifyNobody(i)];
            ValidRun(s, one) && PcOf(Exec(s, one), i).Outside? && Exec(s, one).m == s.m && Exec(s, one).head.Null?
    ensures var all := [AllLoad(i), NotifyNobody(i)];
            ValidRun(s, all) && PcOf(Exec(s, all), i).Outside? && Exec(s, all).m == s.m && Exec(s, all).head.Null?
  {
    RunsTwo(s, NotifyLoad(i), NotifyNobody(i));
    RunsTwo(s, AllLoad(i), NotifyNobody(i));
  }
}
