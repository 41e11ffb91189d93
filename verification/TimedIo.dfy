/** I/O with a timeout on the event loop: each operation is a task and a timer that race to
    resume one coroutine, through the phases of the loop. */
module TimedIo {
  import W = IoWatcher
  import T = TimerQueue

  type Fd = W.Fd

  // An operation is known by its timer's id, which is never used twice; the same number stands
  // for the handle of its inner task and for the timer's task.
  type Id = nat

  // The inner task: spawned; suspended at its descriptor; among the handles to resume; done.
  datatype Inner = NotStarted | Armed | Due | Finished

  // resumed: how often the operation has resumed the coroutine that awaits it.
  datatype Op = Op(fd: Fd, write: bool, inner: Inner, timedOut: bool, resumed: nat)

  datatype Phase = Pending | Timers | Io

  // pending: pendingTasks_.  running, fired and batch: what is left to run of a phase.
  // misuse: a finished coroutine was resumed.
  datatype State = State(
    phase: Phase, w: W.State, timers: map<nat, T.Node>, ops: map<Id, Op>,
    pending: seq<Id>, running: seq<Id>, fired: seq<Id>, batch: seq<W.Slot>, misuse: bool)

  datatype Step =
    | Register(fd: Fd)                                        // a socket's constructor
    | Begin(o: Id, fd: Fd, write: bool, expiry: T.Time)       // IoTimeoutAwaitable::await_suspend
    | RunNext(ready: bool)                                    // the next pending task
    | EnterTimers(now: T.Time, due: seq<nat>)                 // HandleTimeout
    | FireNext(ready: bool)                                   // the next expired timer's task
    | EnterIo(fds: seq<Fd>)                                   // WatchIo
    | ResumeNext                                              // the next active coroutine
    | EnterPending                                            // the loop comes round
    | Event(fd: Fd, what: W.Readiness)
    | Use(fd: Fd, read: bool)

  function SlotOf(o: Id, op: Op): W.Slot {
    W.Slot(op.fd, op.write, o)
  }

  function HandleAt(w: W.State, fd: Fd, write: bool): W.Handle {
    if write then W.WriteHandle(w, fd) else W.ReadHandle(w, fd)
  }

  function Listen(w: W.State, fd: Fd, write: bool, h: W.Handle): W.State
    requires W.Agree(w)
  {
    if write then W.ListenWrite(w, fd, h) else W.ListenRead(w, fd, h)
  }

  function Stop(w: W.State, fd: Fd, write: bool): W.State
    requires W.Agree(w) && fd in w.ioEvents
  {
    if write then W.StopWrite(w, fd) else W.StopRead(w, fd)
  }

  function SetOp(s: State, o: Id, op: Op): State {
    s.(ops := s.ops[o := op])
  }

  /** The inner task resumes the outer coroutine, whose await_resume cancels the timer unless
      the operation timed out. */
  function Finish(s: State, o: Id): State
    requires o in s.ops
  {
    var op := s.ops[o];
    SetOp(s, o, op.(inner := Finished, resumed := op.resumed + 1))
      .(timers := if op.timedOut then s.timers else T.Cancelled(s.timers, o))
  }

  /** The inner task from its beginning: it tries, and waits unless that did it. */
  function StartInner(s: State, o: Id, ready: bool): State
    requires o in s.ops && W.Agree(s.w)
  {
    var op := s.ops[o];
    if ready then Finish(s, o)
    else SetOp(s, o, op.(inner := Armed)).(w := Listen(s.w, op.fd, op.write, o))
  }

  /** The loop's eventfd gets something to read. */
  function WokenUp(w: W.State): W.State {
    w.(kernel := W.Happens(w.kernel, w.wakeUpFd, W.Readable))
  }

  /** await_suspend: ExpiresAfter, AsyncWait, and CoSpawn, which wakes the loop. */
  function Begun(s: State, o: Id, op: Op, expiry: T.Time): State {
    SetOp(s, o, op)
      .(timers := T.Added(T.Updated(s.timers, o, expiry), T.Node(o, expiry, o, true)),
        pending := s.pending + [o], w := WokenUp(s.w))
  }

  /** The inner task is resumed wherever it is; once it has ended that is an error. */
  function ResumeInner(s: State, o: Id, ready: bool): State
    requires o in s.ops && W.Agree(s.w)
  {
    match s.ops[o].inner
    case NotStarted => StartInner(s, o, ready)
    case Armed => Finish(s, o)
    case _ => s.(misuse := true)
  }

  /** IoAwaitableBase::SetTimeout. */
  function SetTimeout(s: State, o: Id): (s': State)
    requires o in s.ops && s.ops[o].fd in s.w.ioEvents && W.Agree(s.w)
    ensures W.Agree(s'.w)
  {
    StopKeeps(s.w, s.ops[o].fd, s.ops[o].write);
    SetOp(s, o, s.ops[o].(timedOut := true)).(w := Stop(s.w, s.ops[o].fd, s.ops[o].write))
  }

  // Its descriptor is open, and nobody else waits there should it have to.
  predicate CanGo(s: State, o: Id, ready: bool) {
    && o in s.ops && s.ops[o].fd in s.w.ioEvents
    && (ready || HandleAt(s.w, s.ops[o].fd, s.ops[o].write) in {W.Noop, o})
  }

  ghost predicate Enabled(s: State, step: Step) {
    match step
    case Register(fd) => fd !in s.w.ioEvents
    case Begin(o, fd, _, _) => o > 0 && o !in s.ops && o !in s.timers && fd in s.w.ioEvents && fd != s.w.wakeUpFd
    case RunNext(ready) => s.phase.Pending? && s.running != [] && CanGo(s, s.running[0], ready)
    case EnterTimers(now, due) => s.phase.Pending? && s.running == [] && T.DueInOrder(s.timers, now, due)
    case FireNext(ready) => s.phase.Timers? && s.fired != [] && CanGo(s, s.fired[0], ready)
    case EnterIo(fds) => s.phase.Timers? && s.fired == [] && W.CanScan(s.w.kernel, fds)
    case ResumeNext => s.phase.Io? && s.batch != [] && s.batch[0].handle in s.ops
    case EnterPending => s.phase.Io? && s.batch == []
    case Event(_, _) => true
    case Use(fd, _) => fd != s.w.wakeUpFd
  }

  function Awaken(ops: map<Id, Op>, batch: seq<W.Slot>): map<Id, Op> {
    map o | o in ops :: if ops[o].inner.Armed? && SlotOf(o, ops[o]) in batch then ops[o].(inner := Due) else ops[o]
  }

  function Reported(w: W.State, fds: seq<Fd>): seq<W.Slot>
    requires W.CanScan(w.kernel, fds)
  {
    W.AllDue(w, W.Reports(w.kernel, fds))
  }

  ghost function Apply(s: State, step: Step): State
    requires W.Agree(s.w) && Enabled(s, step)
  {
    match step
    case Register(fd) => s.(w := W.ListenRead(s.w, fd, W.Noop))
    case Begin(o, fd, write, expiry) =>
      Begun(s, o, Op(fd, write, NotStarted, false, 0), expiry)
    case RunNext(ready) => ResumeInner(s.(running := s.running[1..]), s.running[0], ready)
    case EnterTimers(now, due) =>
      s.(phase := Timers, timers := T.Remaining(s.timers, now), fired := T.TasksOf(s.timers, due))
    case FireNext(ready) => ResumeInner(SetTimeout(s, s.fired[0]).(fired := s.fired[1..]), s.fired[0], ready)
    case EnterIo(fds) =>
      var batch := Reported(s.w, fds);
      s.(phase := Io, w := W.WatchAll(s.w, fds).0, batch := batch, ops := Awaken(s.ops, batch))
    case ResumeNext =>
      var o, s' := s.batch[0].handle, s.(batch := s.batch[1..]);
      if s.ops[o].inner.Due? then Finish(s', o) else s'.(misuse := true)
    case EnterPending => s.(phase := Pending, running := s.pending, pending := [])
    case Event(fd, what) => s.(w := s.w.(kernel := W.Happens(s.w.kernel, fd, what)))
    case Use(fd, read) => s.(w := s.w.(kernel := W.Drained(s.w.kernel, fd, read)))
  }

  lemma StopKeeps(w: W.State, fd: Fd, write: bool)
    requires W.Agree(w) && fd in w.ioEvents
    ensures W.Agree(Stop(w, fd, write))
  {
  }

  // ----- The invariant -----

  predicate TimerSet(timers: map<nat, T.Node>, o: Id) {
    o in timers && timers[o].valid
  }

  // How often an operation is queued: as a task, as an expired timer, as a coroutine to resume.
  function Tasks(s: State, o: Id): nat {
    multiset(s.running)[o] + multiset(s.pending)[o]
  }

  function Firings(s: State, o: Id): nat {
    multiset(s.fired)[o]
  }

  function Resumptions(s: State, o: Id): nat
    requires o in s.ops
  {
    multiset(s.batch)[SlotOf(o, s.ops[o])]
  }

  /** Before it has resumed its coroutine, an operation is in one place, with a timer that will
      come for it; afterwards it is nowhere. */
  predicate OpOk(s: State, o: Id)
    requires o in s.ops
  {
    var op := s.ops[o];
    && o > 0 && op.fd in s.w.ioEvents && op.fd != s.w.wakeUpFd
    && Tasks(s, o) == (if op.inner.NotStarted? then 1 else 0)
    && W.Count(s.w, SlotOf(o, op)) == (if op.inner.Armed? then 1 else 0)
    && Resumptions(s, o) == (if op.inner.Due? then 1 else 0)
    && (if op.inner.Armed? then Firings(s, o) == (if TimerSet(s.timers, o) then 0 else 1)
        else Firings(s, o) == 0 && (TimerSet(s.timers, o) <==> !op.inner.Finished?))
    && op.resumed == (if op.inner.Finished? then 1 else 0)
    && (op.timedOut ==> op.inner.Finished?)
  }

  /** Every handle in the watcher is that of an operation there. */
  predicate Owned(s: State, slot: W.Slot) {
    slot.handle in s.ops && slot == SlotOf(slot.handle, s.ops[slot.handle])
  }

  predicate Known(s: State, queue: seq<Id>) {
    forall o :: o in queue ==> o in s.ops
  }

  predicate PhaseOk(s: State) {
    && (s.running != [] ==> s.phase.Pending?)
    && (s.fired != [] ==> s.phase.Timers?)
    && (s.batch != [] ==> s.phase.Io?)
  }

  predicate NodesOk(timers: map<nat, T.Node>) {
    forall id :: id in timers ==> timers[id].timerId == id && timers[id].task == id
  }

  ghost predicate AllOk(s: State) {
    forall o :: o in s.ops ==> OpOk(s, o)
  }

  ghost predicate AllOwned(s: State) {
    && (forall slot :: slot in W.Waiting(s.w) ==> Owned(s, slot))
    && (forall slot :: slot in s.batch ==> Owned(s, slot))
  }

  predicate AllKnown(s: State) {
    Known(s, s.pending) && Known(s, s.running) && Known(s, s.fired)
  }

  ghost predicate TimersKnown(s: State) {
    forall o: Id :: TimerSet(s.timers, o) ==> o in s.ops
  }

  ghost predicate Inv(s: State) {
    && W.Agree(s.w) && W.AllHeard(s.w) && PhaseOk(s) && NodesOk(s.timers) && !s.misuse
    && AllKnown(s) && TimersKnown(s) && AllOwned(s) && AllOk(s)
  }

  /** No timer fires whose operation's task has not started yet. */
  predicate Unhurried(s: State, now: T.Time) {
    forall o :: o in s.ops && s.ops[o].inner.NotStarted? && o in s.timers ==> s.timers[o].expiry > now
  }

  // ----- The watcher under one operation -----

  lemma ListenWaits(w: W.State, fd: Fd, write: bool, h: W.Handle)
    requires W.Agree(w) && W.AllHeard(w) && fd in w.ioEvents && fd != w.wakeUpFd
    requires h != W.Noop && HandleAt(w, fd, write) == W.Noop
    ensures var w' := Listen(w, fd, write, h);
            && W.Agree(w') && W.AllHeard(w') && w'.ioEvents.Keys == w.ioEvents.Keys && w'.wakeUpFd == w.wakeUpFd
            && W.Waiting(w') == W.Waiting(w) + {W.Slot(fd, write, h)}
  {
    if write {
      W.ListenWriteKeeps(w, fd, h);
      W.ArmWriteWaiting(w, fd, h);
    } else {
      W.ListenReadKeeps(w, fd, h);
      W.ArmReadWaiting(w, fd, h);
    }
  }

  lemma StopWaits(w: W.State, fd: Fd, write: bool)
    requires W.Agree(w) && W.AllHeard(w) && fd in w.ioEvents && fd != w.wakeUpFd
    ensures var w' := Stop(w, fd, write);
            && W.Agree(w') && W.AllHeard(w') && w'.ioEvents.Keys == w.ioEvents.Keys && w'.wakeUpFd == w.wakeUpFd
            && W.Waiting(w') == W.Waiting(w) - {W.Slot(fd, write, HandleAt(w, fd, write))}
  {
    StopKeeps(w, fd, write);
    W.WaitingIs(w, W.Slot(fd, write, HandleAt(w, fd, write)));
    if write {
      W.StopWriteWaiting(w, fd);
    } else {
      W.StopReadWaiting(w, fd);
    }
  }

  // ----- Operations that a step does not touch -----

  predicate Untouched(s: State, s': State, x: Id) {
    x in s.ops ==>
      && x in s'.ops && s'.ops[x] == s.ops[x]
      && Tasks(s', x) == Tasks(s, x) && Firings(s', x) == Firings(s, x)
      && Resumptions(s', x) == Resumptions(s, x)
      && W.Count(s'.w, SlotOf(x, s.ops[x])) == W.Count(s.w, SlotOf(x, s.ops[x]))
      && (TimerSet(s'.timers, x) <==> TimerSet(s.timers, x))
  }

  lemma OthersOk(s: State, s': State, o: Id)
    requires AllOk(s)
    requires s'.ops.Keys == s.ops.Keys + {o} && s.w.ioEvents.Keys <= s'.w.ioEvents.Keys && s'.w.wakeUpFd == s.w.wakeUpFd
    requires forall x: Id :: x != o ==> Untouched(s, s', x)
    requires OpOk(s', o)
    ensures AllOk(s')
  {
    forall x | x in s'.ops
      ensures OpOk(s', x)
    {
      if x != o {
        assert OpOk(s, x) && Untouched(s, s', x);
      }
    }
  }

  lemma PopCount<A>(q: seq<A>)
    requires q != []
    ensures forall x: A :: multiset(q)[x] == multiset(q[1..])[x] + if x == q[0] then 1 else 0
    ensures forall x :: x in q[1..] ==> x in q
  {
    assert q == [q[0]] + q[1..];
  }

  lemma PushCount<A>(q: seq<A>, a: A)
    ensures forall x: A :: multiset(q + [a])[x] == multiset(q)[x] + if x == a then 1 else 0
  {
  }

  // ----- Each step keeps the invariant -----

  lemma NotAround(s: State, o: Id, slot: W.Slot)
    requires AllKnown(s) && AllOwned(s) && o !in s.ops && slot.handle == o
    ensures slot !in W.Waiting(s.w) && slot !in s.batch
    ensures o !in s.running && o !in s.pending && o !in s.fired
  {
    assert slot in W.Waiting(s.w) ==> Owned(s, slot);
    assert slot in s.batch ==> Owned(s, slot);
  }

  lemma BegunOk(s: State, o: Id, op: Op, expiry: T.Time)
    requires AllKnown(s) && AllOwned(s) && o > 0 && o !in s.ops && o !in s.timers
    requires op.fd in s.w.ioEvents && op.fd != s.w.wakeUpFd && op.inner.NotStarted? && !op.timedOut && op.resumed == 0
    ensures OpOk(Begun(s, o, op, expiry), o)
  {
    NotAround(s, o, SlotOf(o, op));
    PushCount(s.pending, o);
    W.SameWaiting(s.w, WokenUp(s.w));
  }

  lemma BegunTouches(s: State, o: Id, op: Op, expiry: T.Time, x: Id)
    requires o !in s.timers && x != o
    ensures Untouched(s, Begun(s, o, op, expiry), x)
  {
    PushCount(s.pending, o);
    W.SameWaiting(s.w, WokenUp(s.w));
  }

  lemma BegunRest(s: State, o: Id, op: Op, expiry: T.Time)
    requires W.Agree(s.w) && NodesOk(s.timers) && AllKnown(s) && TimersKnown(s) && o !in s.timers
    ensures var s' := Begun(s, o, op, expiry); W.Agree(s'.w) && NodesOk(s'.timers) && AllKnown(s') && TimersKnown(s')
  {
  }

  lemma BeginKeeps(s: State, o: Id, fd: Fd, write: bool, expiry: T.Time)
    requires Inv(s) && Enabled(s, Begin(o, fd, write, expiry))
    ensures Inv(Apply(s, Begin(o, fd, write, expiry)))
  {
    var op := Op(fd, write, NotStarted, false, 0);
    var s' := Begun(s, o, op, expiry);
    BegunOk(s, o, op, expiry);
    forall x: Id | x != o ensures Untouched(s, s', x) { BegunTouches(s, o, op, expiry, x); }
    OthersOk(s, s', o);
    W.SameWaiting(s.w, s'.w);
    BeginOwns(s, s', o);
    BegunRest(s, o, op, expiry);
  }

  lemma BeginOwns(s: State, s': State, o: Id)
    requires AllOwned(s) && W.Waiting(s'.w) == W.Waiting(s.w) && s'.batch == s.batch && o !in s.ops
    requires o in s'.ops && forall x :: x in s.ops ==> x in s'.ops && s'.ops[x] == s.ops[x]
    ensures AllOwned(s')
  {
    forall slot | Owned(s, slot) ensures Owned(s', slot) {}
  }

  /** What changes when operation `o` moves on within a phase: its own record, and queues and
      slots that concern nobody else. */
  predicate Moves(s: State, s': State, o: Id) {
    && o in s.ops && o in s'.ops && s'.ops == s.ops[o := s'.ops[o]]
    && SlotOf(o, s'.ops[o]) == SlotOf(o, s.ops[o])
    && s'.w.ioEvents.Keys == s.w.ioEvents.Keys && s'.w.wakeUpFd == s.w.wakeUpFd
  }

  lemma MovesOwn(s: State, s': State, o: Id)
    requires AllOwned(s) && Moves(s, s', o)
    requires forall slot :: slot in W.Waiting(s'.w) ==> slot in W.Waiting(s.w) || slot == SlotOf(o, s.ops[o])
    requires forall slot :: slot in s'.batch ==> slot in s.batch
    ensures AllOwned(s')
  {
    forall slot | slot in W.Waiting(s'.w) || slot in s'.batch
      ensures Owned(s', slot)
    {
      assert slot == SlotOf(o, s.ops[o]) || Owned(s, slot);
    }
  }

  lemma HandleIs(s: State, o: Id)
    requires o in s.ops && o > 0 && HandleAt(s.w, s.ops[o].fd, s.ops[o].write) in {W.Noop, o}
    ensures W.Count(s.w, SlotOf(o, s.ops[o])) == if HandleAt(s.w, s.ops[o].fd, s.ops[o].write) == o then 1 else 0
  {
    W.WaitingIs(s.w, SlotOf(o, s.ops[o]));
  }

  /** From `s` to `s'` operation `o` is taken off every queue and counted as resumed. */
  ghost predicate Over(s: State, s': State, o: Id, timedOut: bool) {
    && o in s.ops && s'.ops == s.ops[o := s.ops[o].(inner := Finished, resumed := 1, timedOut := timedOut)]
    && (s'.timers == s.timers || s'.timers == T.Cancelled(s.timers, o))
    && !TimerSet(s'.timers, o) && Tasks(s', o) == 0 && Firings(s', o) == 0 && Resumptions(s', o) == 0
    && s'.w.ioEvents.Keys == s.w.ioEvents.Keys && s'.w.wakeUpFd == s.w.wakeUpFd
    && W.Waiting(s'.w) == W.Waiting(s.w) - {SlotOf(o, s.ops[o])}
    && (forall x: Id :: x != o ==> Tasks(s', x) == Tasks(s, x) && Firings(s', x) == Firings(s, x))
    && (forall w: W.Slot :: w.handle != o ==> multiset(s'.batch)[w] == multiset(s.batch)[w])
    && (forall slot :: slot in s'.batch ==> slot in s.batch)
  }

  lemma OverTouches(s: State, s': State, o: Id, timedOut: bool, x: Id)
    requires Over(s, s', o, timedOut) && x != o
    ensures Untouched(s, s', x)
  {
  }

  lemma OverOk(s: State, s': State, o: Id, timedOut: bool)
    requires Over(s, s', o, timedOut) && OpOk(s, o)
    ensures OpOk(s', o)
  {
  }

  lemma OverAllOk(s: State, s': State, o: Id, timedOut: bool)
    requires AllOk(s) && Over(s, s', o, timedOut)
    ensures AllOk(s')
  {
    OverOk(s, s', o, timedOut);
    forall x: Id | x != o ensures Untouched(s, s', x) { OverTouches(s, s', o, timedOut, x); }
    OthersOk(s, s', o);
  }

  lemma OverTimers(s: State, s': State, o: Id, timedOut: bool)
    requires NodesOk(s.timers) && TimersKnown(s) && Over(s, s', o, timedOut)
    ensures NodesOk(s'.timers) && TimersKnown(s')
  {
  }

  lemma OverKeeps(s: State, s': State, o: Id, timedOut: bool)
    requires Inv(s) && Over(s, s', o, timedOut)
    ensures AllOk(s') && AllOwned(s') && NodesOk(s'.timers) && TimersKnown(s')
  {
    OverAllOk(s, s', o, timedOut);
    OverTimers(s, s', o, timedOut);
    MovesOwn(s, s', o);
  }

  lemma RunIsOver(s: State, o: Id)
    requires s.running != [] && s.running[0] == o && o in s.ops && OpOk(s, o) && s.ops[o].inner.NotStarted?
    ensures Over(s, Finish(s.(running := s.running[1..]), o), o, false)
  {
    PopCount(s.running);
  }

  lemma KnownTail(s: State, q: seq<Id>)
    requires q != [] && Known(s, q)
    ensures Known(s, q[1..])
  {
    PopCount(q);
  }

  lemma RunReady(s: State)
    requires Inv(s) && Enabled(s, RunNext(true)) && s.ops[s.running[0]].inner.NotStarted?
    ensures Inv(StartInner(s.(running := s.running[1..]), s.running[0], true))
  {
    var o := s.running[0];
    assert OpOk(s, o);
    RunIsOver(s, o);
    OverKeeps(s, Finish(s.(running := s.running[1..]), o), o, false);
    KnownTail(s, s.running);
  }

  /** From `s` to `s'` the task of operation `o` leaves the queue and waits at its descriptor. */
  ghost predicate Waits(s: State, s': State, o: Id) {
    && o in s.ops && s'.ops == s.ops[o := s.ops[o].(inner := Armed)]
    && s'.timers == s.timers && s'.fired == s.fired && s'.batch == s.batch
    && s'.w.ioEvents.Keys == s.w.ioEvents.Keys && s'.w.wakeUpFd == s.w.wakeUpFd
    && W.Waiting(s'.w) == W.Waiting(s.w) + {SlotOf(o, s.ops[o])}
    && Tasks(s', o) == 0
    && (forall x: Id :: x != o ==> Tasks(s', x) == Tasks(s, x))
  }

  lemma WaitsOk(s: State, s': State, o: Id)
    requires Waits(s, s', o) && OpOk(s, o) && s.ops[o].inner.NotStarted?
    ensures OpOk(s', o)
  {
  }

  lemma WaitsTouches(s: State, s': State, o: Id, x: Id)
    requires Waits(s, s', o) && x != o
    ensures Untouched(s, s', x)
  {
  }

  lemma WaitsKeeps(s: State, s': State, o: Id)
    requires Inv(s) && Waits(s, s', o) && s.ops[o].inner.NotStarted?
    ensures AllOk(s') && AllOwned(s')
  {
    WaitsOk(s, s', o);
    forall x: Id | x != o ensures Untouched(s, s', x) { WaitsTouches(s, s', o, x); }
    OthersOk(s, s', o);
    MovesOwn(s, s', o);
  }

  function WaitingOn(s: State, o: Id, w: W.State): State
    requires o in s.ops && s.running != []
  {
    SetOp(s, o, s.ops[o].(inner := Armed)).(running := s.running[1..], w := w)
  }

  lemma RunWaitsIs(s: State, o: Id, w: W.State)
    requires s.running != [] && s.running[0] == o && o in s.ops && OpOk(s, o) && s.ops[o].inner.NotStarted?
    requires w.ioEvents.Keys == s.w.ioEvents.Keys && w.wakeUpFd == s.w.wakeUpFd
    requires W.Waiting(w) == W.Waiting(s.w) + {SlotOf(o, s.ops[o])}
    ensures Waits(s, WaitingOn(s, o, w), o)
  {
    PopCount(s.running);
  }

  lemma RunWaits(s: State)
    requires Inv(s) && Enabled(s, RunNext(false)) && s.ops[s.running[0]].inner.NotStarted?
    ensures Inv(StartInner(s.(running := s.running[1..]), s.running[0], false))
  {
    var o := s.running[0];
    var op := s.ops[o];
    assert OpOk(s, o);
    HandleIs(s, o);
    ListenWaits(s.w, op.fd, op.write, o);
    var w := Listen(s.w, op.fd, op.write, o);
    RunWaitsIs(s, o, w);
    WaitsKeeps(s, WaitingOn(s, o, w), o);
    KnownTail(s, s.running);
  }

  lemma RunKeeps(s: State, ready: bool)
    requires Inv(s) && Enabled(s, RunNext(ready))
    ensures Inv(Apply(s, RunNext(ready)))
  {
    var o := s.running[0];
    assert OpOk(s, o) && o in multiset(s.running);
    if ready { RunReady(s); } else { RunWaits(s); }
  }

  function FiredOn(s: State, o: Id, w: W.State): State
    requires o in s.ops && s.fired != []
  {
    Finish(SetOp(s, o, s.ops[o].(timedOut := true)).(fired := s.fired[1..], w := w), o)
  }

  /** A timer fires on a waiting task: it is disarmed, resumed once, and on no queue. */
  lemma FireIsOver(s: State, o: Id, w: W.State)
    requires s.fired != [] && s.fired[0] == o && o in s.ops && OpOk(s, o) && s.ops[o].inner.Armed?
    requires w.ioEvents.Keys == s.w.ioEvents.Keys && w.wakeUpFd == s.w.wakeUpFd
    requires W.Waiting(w) == W.Waiting(s.w) - {SlotOf(o, s.ops[o])}
    ensures Over(s, FiredOn(s, o, w), o, true)
  {
    PopCount(s.fired);
    assert o in multiset(s.fired);
  }

  lemma FireKeeps(s: State, ready: bool)
    requires Inv(s) && Enabled(s, FireNext(ready))
    ensures Inv(Apply(s, FireNext(ready)))
  {
    var o := s.fired[0];
    var op := s.ops[o];
    assert OpOk(s, o) && o in multiset(s.fired);
    W.WaitingIs(s.w, SlotOf(o, op));
    StopWaits(s.w, op.fd, op.write);
    var w := Stop(s.w, op.fd, op.write);
    FireIsOver(s, o, w);
    OverKeeps(s, FiredOn(s, o, w), o, true);
    KnownTail(s, s.fired);
  }

  lemma ResumeIsOver(s: State, o: Id)
    requires s.batch != [] && o in s.ops && s.batch[0] == SlotOf(o, s.ops[o]) && OpOk(s, o) && s.ops[o].inner.Due?
    ensures Over(s, Finish(s.(batch := s.batch[1..]), o), o, false)
  {
    PopCount(s.batch);
    assert SlotOf(o, s.ops[o]) !in W.Waiting(s.w);
  }

  lemma ResumeKeeps(s: State)
    requires Inv(s) && Enabled(s, ResumeNext)
    ensures Inv(Apply(s, ResumeNext))
  {
    var slot := s.batch[0];
    var o := slot.handle;
    assert Owned(s, slot) && OpOk(s, o) && slot in multiset(s.batch);
    ResumeIsOver(s, o);
    OverKeeps(s, Finish(s.(batch := s.batch[1..]), o), o, false);
  }

  // ----- The phases of the loop -----

  lemma {:induction false} TasksOnce(m: map<nat, T.Node>, due: seq<nat>, o: Id)
    requires NodesOk(m) && forall id :: id in due ==> id in m
    requires forall i, j :: 0 <= i < j < |due| ==> due[i] != due[j]
    ensures multiset(T.TasksOf(m, due))[o] == if o in due && m[o].valid then 1 else 0
    decreases |due|
  {
    if due != [] {
      var init, last := due[..|due| - 1], due[|due| - 1];
      assert due == init + [last];
      TasksOnce(m, init, o);
    }
  }

  lemma TasksKnown(m: map<nat, T.Node>, due: seq<nat>, o: Id)
    requires NodesOk(m) && forall id :: id in due ==> id in m
    ensures o in T.TasksOf(m, due) ==> o in m && m[o].valid
  {
    if due != [] {
      TasksKnown(m, due[..|due| - 1], o);
    }
  }

  /** HandleTimeout takes each expired timer once, out of the queue and onto the list. */
  lemma FiredOnce(m: map<nat, T.Node>, now: T.Time, due: seq<nat>, o: Id)
    requires NodesOk(m) && T.DueInOrder(m, now, due)
    ensures multiset(T.TasksOf(m, due))[o] == if TimerSet(m, o) && m[o].expiry <= now then 1 else 0
    ensures TimerSet(T.Remaining(m, now), o) <==> TimerSet(m, o) && m[o].expiry > now
  {
    assert forall i, j :: 0 <= i < j < |due| ==> due[i] != due[j] by {
      forall i, j | 0 <= i < j < |due| ensures due[i] != due[j] {
        assert T.Before(m, due[i], due[j]);
      }
    }
    TasksOnce(m, due, o);
  }

  lemma TimersKeep(s: State, now: T.Time, due: seq<nat>, o: Id)
    requires Inv(s) && Enabled(s, EnterTimers(now, due)) && Unhurried(s, now) && o in s.ops
    ensures OpOk(Apply(s, EnterTimers(now, due)), o)
  {
    assert OpOk(s, o);
    FiredOnce(s.timers, now, due, o);
    assert s.fired == [] && s.batch == [];
  }

  lemma EnterTimersKeeps(s: State, now: T.Time, due: seq<nat>)
    requires Inv(s) && Enabled(s, EnterTimers(now, due)) && Unhurried(s, now)
    ensures Inv(Apply(s, EnterTimers(now, due)))
  {
    var s' := Apply(s, EnterTimers(now, due));
    forall o | o in s'.ops ensures OpOk(s', o) { TimersKeep(s, now, due, o); }
    forall o | o in s'.fired ensures o in s'.ops { TasksKnown(s.timers, due, o); }
    assert AllOwned(s') by { SameOwned(s, s'); }
  }

  lemma SameOwned(s: State, s': State)
    requires AllOwned(s) && s'.ops == s.ops && W.Waiting(s'.w) == W.Waiting(s.w) && s'.batch == s.batch
    ensures AllOwned(s')
  {
    forall slot | Owned(s, slot) ensures Owned(s', slot) {}
  }

  /** WatchIo moves slots from the watcher into the batch. */
  lemma WatchMoves(w: W.State, fds: seq<Fd>, slot: W.Slot)
    requires W.Agree(w) && W.AllHeard(w) && W.CanScan(w.kernel, fds)
    ensures var w' := W.WatchAll(w, fds).0;
            && W.AllHeard(w') && w'.ioEvents.Keys == w.ioEvents.Keys
            && W.Count(w, slot) == multiset(Reported(w, fds))[slot] + W.Count(w', slot)
  {
    W.WatchBalanced(w, fds);
    W.HeardStep(w, W.Watch(fds));
  }

  lemma WokenOk(s: State, s': State, o: Id)
    requires o in s.ops && OpOk(s, o) && s.batch == [] && s.fired == []
    requires s'.ops == Awaken(s.ops, s'.batch) && s' == s.(phase := s'.phase, w := s'.w, batch := s'.batch, ops := s'.ops)
    requires s'.w.ioEvents.Keys == s.w.ioEvents.Keys && s'.w.wakeUpFd == s.w.wakeUpFd
    requires W.Count(s.w, SlotOf(o, s.ops[o])) == multiset(s'.batch)[SlotOf(o, s.ops[o])] + W.Count(s'.w, SlotOf(o, s.ops[o]))
    ensures OpOk(s', o)
  {
    assert SlotOf(o, s.ops[o]) in s'.batch <==> multiset(s'.batch)[SlotOf(o, s.ops[o])] > 0;
  }

  lemma IoKeeps(s: State, fds: seq<Fd>, o: Id)
    requires Inv(s) && Enabled(s, EnterIo(fds)) && o in s.ops
    ensures OpOk(Apply(s, EnterIo(fds)), o)
  {
    assert OpOk(s, o);
    WatchMoves(s.w, fds, SlotOf(o, s.ops[o]));
    WokenOk(s, Apply(s, EnterIo(fds)), o);
  }

  lemma EnterIoKeeps(s: State, fds: seq<Fd>)
    requires Inv(s) && Enabled(s, EnterIo(fds))
    ensures Inv(Apply(s, EnterIo(fds)))
  {
    var s' := Apply(s, EnterIo(fds));
    WatchMoves(s.w, fds, W.Slot(0, false, W.Noop));
    forall o | o in s'.ops ensures OpOk(s', o) { IoKeeps(s, fds, o); }
    assert AllOwned(s') by { WatchOwned(s, s', fds); }
  }

  lemma WatchOwned(s: State, s': State, fds: seq<Fd>)
    requires W.Agree(s.w) && W.AllHeard(s.w) && AllOwned(s)
    requires W.CanScan(s.w.kernel, fds) && s'.w == W.WatchAll(s.w, fds).0 && s'.batch == Reported(s.w, fds)
    requires s'.ops == Awaken(s.ops, s'.batch)
    ensures AllOwned(s')
  {
    forall slot | slot in W.Waiting(s'.w) || slot in s'.batch
      ensures Owned(s', slot)
    {
      WatchMoves(s.w, fds, slot);
      assert slot in s'.batch ==> multiset(s'.batch)[slot] > 0;
      assert Owned(s, slot);
    }
  }

  lemma EnterPendingKeeps(s: State)
    requires Inv(s) && Enabled(s, EnterPending)
    ensures Inv(Apply(s, EnterPending))
  {
    var s' := Apply(s, EnterPending);
    assert s.running == [];
    forall o | o in s'.ops ensures OpOk(s', o) { assert OpOk(s, o); }
    SameOwned(s, s');
  }

  lemma RegisterKeeps(s: State, fd: Fd)
    requires Inv(s) && Enabled(s, Register(fd))
    ensures Inv(Apply(s, Register(fd)))
  {
    var s' := Apply(s, Register(fd));
    W.ListenReadKeeps(s.w, fd, W.Noop);
    W.ArmReadWaiting(s.w, fd, W.Noop);
    forall o | o in s'.ops ensures OpOk(s', o) { assert OpOk(s, o); }
    SameOwned(s, s');
  }

  lemma KernelOk(s: State, k: W.Kernel, o: Id)
    requires o in s.ops && OpOk(s, o)
    ensures OpOk(s.(w := s.w.(kernel := k)), o)
  {
    W.SameWaiting(s.w, s.w.(kernel := k));
  }

  lemma NewKernelKeeps(s: State, k: W.Kernel)
    requires Inv(s) && W.Agree(s.w.(kernel := k))
    ensures Inv(s.(w := s.w.(kernel := k)))
  {
    var s' := s.(w := s.w.(kernel := k));
    forall o | o in s.ops ensures OpOk(s', o) { KernelOk(s, k, o); }
    W.SameWaiting(s.w, s'.w);
    SameOwned(s, s');
  }

  lemma KernelKeeps(s: State, step: Step)
    requires Inv(s) && Enabled(s, step) && (step.Event? || step.Use?)
    ensures Inv(Apply(s, step))
  {
    NewKernelKeeps(s, Apply(s, step).w.kernel);
  }

  predicate StepUnhurried(s: State, step: Step) {
    step.EnterTimers? ==> Unhurried(s, step.now)
  }

  lemma StepKeeps(s: State, step: Step)
    requires Inv(s) && Enabled(s, step) && StepUnhurried(s, step)
    ensures Inv(Apply(s, step))
  {
    match step
    case Register(fd) => RegisterKeeps(s, fd);
    case Begin(o, fd, write, expiry) => BeginKeeps(s, o, fd, write, expiry);
    case RunNext(ready) => RunKeeps(s, ready);
    case EnterTimers(now, due) => EnterTimersKeeps(s, now, due);
    case FireNext(ready) => FireKeeps(s, ready);
    case EnterIo(fds) => EnterIoKeeps(s, fds);
    case ResumeNext => ResumeKeeps(s);
    case EnterPending => EnterPendingKeeps(s);
    case Event(_, _) => KernelKeeps(s, step);
    case Use(_, _) => KernelKeeps(s, step);
  }

  ghost predicate ValidRun(s: State, steps: seq<Step>)
    requires Inv(s)
    decreases |steps|
  {
    steps != [] ==>
      && Enabled(s, steps[0]) && StepUnhurried(s, steps[0])
      && (StepKeeps(s, steps[0]); ValidRun(Apply(s, steps[0]), steps[1..]))
  }

  ghost function Exec(s: State, steps: seq<Step>): State
    requires Inv(s) && ValidRun(s, steps)
    decreases |steps|
  {
    if steps == [] then s else (StepKeeps(s, steps[0]); Exec(Apply(s, steps[0]), steps[1..]))
  }

  lemma {:induction false} RunsKeep(s: State, steps: seq<Step>)
    requires Inv(s) && ValidRun(s, steps)
    ensures Inv(Exec(s, steps))
    decreases |steps|
  {
    if steps != [] {
      StepKeeps(s, steps[0]);
      RunsKeep(Apply(s, steps[0]), steps[1..]);
    }
  }

  ghost function Fresh(kernel: W.Kernel, wakeUpFd: Fd): (s: State)
    requires kernel.epoll == map[]
    ensures Inv(s)
  {
    var w := W.Created(kernel, wakeUpFd);
    WatcherEmpty(w);
    State(Pending, w, map[], map[], [], [], [], [], false)
  }

  lemma WatcherEmpty(w: W.State)
    requires forall fd :: fd in w.ioEvents ==> w.ioEvents[fd].readHandle == W.Noop == w.ioEvents[fd].writeHandle
    ensures W.Waiting(w) == {}
  {
    forall slot ensures slot !in W.Waiting(w) { W.WaitingIs(w, slot); }
  }

  /** Where an operation is found: exactly one of these, until it has resumed its coroutine. */
  function Places(s: State, o: Id): nat
    requires o in s.ops
  {
    Tasks(s, o) + W.Count(s.w, SlotOf(o, s.ops[o])) + Resumptions(s, o)
  }

  /** In every run in which no timer fires before its task has started: an operation has
      resumed its coroutine once or not at all, by the I/O or by the timeout. While it has not,
      it is in one place and its timer is set or firing; once it has, no task, handle, event or
      timer of it is left to resume it again. No finished coroutine is ever resumed. */
  lemma ResumedExactlyOnce(kernel: W.Kernel, wakeUpFd: Fd, steps: seq<Step>, o: Id)
    requires kernel.epoll == map[] && ValidRun(Fresh(kernel, wakeUpFd), steps)
    ensures !Exec(Fresh(kernel, wakeUpFd), steps).misuse
    ensures var s := Exec(Fresh(kernel, wakeUpFd), steps);
            o in s.ops ==>
              && s.ops[o].resumed <= 1
              && Places(s, o) == 1 - s.ops[o].resumed
              && (s.ops[o].resumed == 0 ==> TimerSet(s.timers, o) != (Firings(s, o) > 0))
              && (s.ops[o].resumed == 1 ==> !TimerSet(s.timers, o) && Firings(s, o) == 0)
              && (s.ops[o].timedOut ==> s.ops[o].resumed == 1)
  {
    RunsKeep(Fresh(kernel, wakeUpFd), steps);
    var s := Exec(Fresh(kernel, wakeUpFd), steps);
    if o in s.ops {
      assert OpOk(s, o);
    }
  }

  // ----- What the steps come to -----

  /** An operation begins as one pending task with a timer that expires when it is told to, and
      the loop is woken. */
  lemma BeginIs(s: State, o: Id, fd: Fd, write: bool, expiry: T.Time)
    requires Inv(s) && o > 0 && o !in s.ops && o !in s.timers && fd in s.w.ioEvents && fd != s.w.wakeUpFd
    ensures Enabled(s, Begin(o, fd, write, expiry))
    ensures var s' := Apply(s, Begin(o, fd, write, expiry));
            && s'.ops == s.ops[o := Op(fd, write, NotStarted, false, 0)]
            && s'.timers == s.timers[o := T.Node(o, expiry, o, true)]
            && s'.pending == s.pending + [o] && s'.running == s.running && s'.phase == s.phase
            && s'.w.ioEvents == s.w.ioEvents && WillWake(s'.w)
  {
    EventfdRegistered(s);
  }

  lemma EventfdRegistered(s: State)
    requires Inv(s)
    ensures s.w.wakeUpFd in s.w.kernel.epoll && s.w.kernel.epoll[s.w.wakeUpFd].events.input
  {
  }

  /** HandleTimeout fires the timers that are set and have expired, and only these. */
  lemma TimersFireIff(s: State, now: T.Time, due: seq<nat>, o: Id)
    requires Inv(s) && Enabled(s, EnterTimers(now, due)) && o in s.ops
    ensures var s' := Apply(s, EnterTimers(now, due));
            && s'.ops == s.ops
            && (o in s'.fired <==> TimerSet(s.timers, o) && s.timers[o].expiry <= now)
            && (TimerSet(s'.timers, o) <==> TimerSet(s.timers, o) && now < s.timers[o].expiry)
  {
    FiredOnce(s.timers, now, due, o);
    var fired: seq<Id> := Apply(s, EnterTimers(now, due)).fired;
    assert o in fired <==> multiset(fired)[o] > 0;
  }

  /** WatchIo takes up the operations that wait where something was reported. */
  lemma DueIff(s: State, fds: seq<Fd>, o: Id)
    requires Inv(s) && Enabled(s, EnterIo(fds)) && o in s.ops
    ensures var op, op' := s.ops[o], Apply(s, EnterIo(fds)).ops[o];
            && (op'.inner.Due? <==> op.inner.Armed? && SlotOf(o, op) in Reported(s.w, fds))
            && op' == (if op'.inner.Due? then op.(inner := Due) else op)
  {
    assert OpOk(s, o);
  }

  // The operation a step is about: the task, the timer or the coroutine that runs.
  function Runs(s: State, step: Step): Id
    requires Inv(s) && Enabled(s, step) && (step.RunNext? || step.FireNext? || step.ResumeNext?)
  {
    match step
    case RunNext(_) => s.running[0]
    case FireNext(_) => s.fired[0]
    case ResumeNext => s.batch[0].handle
  }

  lemma RunsKnown(s: State, step: Step)
    requires Inv(s) && Enabled(s, step) && (step.RunNext? || step.FireNext? || step.ResumeNext?)
    ensures var o := Runs(s, step);
            && o in s.ops && s.ops[o].resumed == 0 && !s.ops[o].timedOut
            && (step.RunNext? ==> s.ops[o].inner.NotStarted?)
            && (step.FireNext? ==> s.ops[o].inner.Armed?)
            && (step.ResumeNext? ==> s.ops[o].inner.Due?)
  {
    match step
    case RunNext(_) => assert OpOk(s, s.running[0]) && s.running[0] in multiset(s.running);
    case FireNext(_) => assert OpOk(s, s.fired[0]) && s.fired[0] in multiset(s.fired);
    case ResumeNext =>
      var slot := s.batch[0];
      assert Owned(s, slot) && OpOk(s, slot.handle) && slot in multiset(s.batch);
  }

  predicate Ended(s: State, s': State, o: Id, timedOut: bool)
    requires o in s.ops
  {
    && s'.ops == s.ops[o := s.ops[o].(inner := Finished, resumed := 1, timedOut := timedOut)]
    && (timedOut || (s'.timers.Keys == s.timers.Keys && !TimerSet(s'.timers, o)))
  }

  predicate NowWaits(s: State, s': State, o: Id)
    requires o in s.ops
  {
    && s'.ops == s.ops[o := s.ops[o].(inner := Armed)]
    && s'.timers == s.timers && HandleAt(s'.w, s.ops[o].fd, s.ops[o].write) == o
  }

  lemma TaskEnds(s: State, o: Id, ready: bool)
    requires o in s.ops && s.ops[o].resumed == 0 && !s.ops[o].timedOut && s.ops[o].inner.NotStarted?
    requires W.Agree(s.w) && W.AllHeard(s.w) && CanGo(s, o, ready)
    ensures ready ==> Ended(s, ResumeInner(s, o, true), o, false)
    ensures !ready ==> NowWaits(s, ResumeInner(s, o, false), o)
  {
  }

  lemma ArmedEnds(s: State, o: Id, ready: bool)
    requires o in s.ops && s.ops[o].resumed == 0 && s.ops[o].inner.Armed?
    requires W.Agree(s.w) && s.ops[o].fd in s.w.ioEvents
    ensures Ended(s, ResumeInner(SetTimeout(s, o), o, ready), o, true)
  {
  }

  lemma FireNextEnds(s: State, o: Id, ready: bool)
    requires s.fired != [] && s.fired[0] == o && o in s.ops && s.ops[o].resumed == 0 && s.ops[o].inner.Armed?
    requires W.Agree(s.w) && s.ops[o].fd in s.w.ioEvents
    ensures Ended(s, ResumeInner(SetTimeout(s, o).(fired := s.fired[1..]), o, ready), o, true)
  {
    ArmedEnds(s.(fired := s.fired[1..]), o, ready);
  }

  /** A task that finds its descriptor ready, an expired timer and a coroutine resumed by the
      watcher end their operation; it has timed out if it was the timer, and else the timer is
      cancelled. A task that finds nothing waits at its descriptor. */
  lemma EndsIff(s: State, step: Step)
    requires Inv(s) && Enabled(s, step) && (step.RunNext? || step.FireNext? || step.ResumeNext?)
    ensures var o, s' := Runs(s, step), Apply(s, step);
            o in s.ops && if step == RunNext(false) then NowWaits(s, s', o) else Ended(s, s', o, step.FireNext?)
  {
    RunsKnown(s, step);
    var o := Runs(s, step);
    match step
    case RunNext(ready) => TaskEnds(s.(running := s.running[1..]), o, ready);
    case FireNext(ready) => FireNextEnds(s, o, ready);
    case ResumeNext =>
  }

  lemma OthersEndNothing(s: State, step: Step)
    requires Inv(s) && Enabled(s, step) && !step.RunNext? && !step.FireNext? && !step.ResumeNext?
    ensures forall x :: x in s.ops ==>
              x in Apply(s, step).ops && Apply(s, step).ops[x].resumed == s.ops[x].resumed
              && Apply(s, step).ops[x].timedOut == s.ops[x].timedOut
  {
  }

  /** The loop never stops: in any state one of its steps can be taken, tasks and timers going
      first, and with the time it is any order of what is due. */
  lemma LoopCanMove(s: State, now: T.Time)
    requires Inv(s)
    ensures match s.phase
            case Pending => if s.running != [] then Enabled(s, RunNext(true))
                            else exists due :: Enabled(s, EnterTimers(now, due))
            case Timers => Enabled(s, if s.fired != [] then FireNext(true) else EnterIo([]))
            case Io => Enabled(s, if s.batch != [] then ResumeNext else EnterPending)
  {
    match s.phase
    case Pending =>
      if s.running != [] {
        assert s.running[0] in s.running && OpOk(s, s.running[0]);
      } else {
        T.DueExists(s.timers, now);
        var due :| T.DueInOrder(s.timers, now, due);
        assert Enabled(s, EnterTimers(now, due));
      }
    case Timers =>
      if s.fired != [] {
        assert s.fired[0] in s.fired && OpOk(s, s.fired[0]);
      }
    case Io =>
      if s.batch != [] {
        assert s.batch[0] in s.batch && Owned(s, s.batch[0]);
      }
  }

  // ----- Tasks wake the loop -----

  /** An epoll_wait would return at once. */
  predicate WillWake(w: W.State) {
    && w.wakeUpFd in w.kernel.epoll && w.kernel.epoll[w.wakeUpFd].queued
    && w.kernel.epoll[w.wakeUpFd].events.input && W.ReadinessOf(w.kernel, w.wakeUpFd).readable
  }

  /** A task that the loop has not taken up keeps it from sleeping. */
  predicate Awake(s: State) {
    s.pending != [] && !s.phase.Io? ==> WillWake(s.w)
  }

  lemma ListenAwake(w: W.State, fd: Fd, write: bool, h: W.Handle)
    requires W.Agree(w) && WillWake(w) && fd != w.wakeUpFd
    ensures WillWake(Listen(w, fd, write, h))
  {
  }

  lemma StopAwake(w: W.State, fd: Fd, write: bool)
    requires W.Agree(w) && WillWake(w) && fd in w.ioEvents && fd != w.wakeUpFd
    ensures WillWake(Stop(w, fd, write))
  {
  }

  lemma StepAwake(s: State, step: Step)
    requires Inv(s) && Awake(s) && Enabled(s, step)
    ensures Awake(Apply(s, step))
  {
    match step
    case RunNext(ready) =>
      assert OpOk(s, s.running[0]);
      StartAwake(s.(running := s.running[1..]), s.running[0], ready);
    case FireNext(ready) =>
      assert OpOk(s, s.fired[0]);
      FireAwake(s, ready);
    case _ => OtherAwake(s, step);
  }

  lemma OtherAwake(s: State, step: Step)
    requires W.Agree(s.w) && Awake(s) && Enabled(s, step) && !step.RunNext? && !step.FireNext?
    ensures Awake(Apply(s, step))
  {
  }

  lemma StartAwake(s: State, o: Id, ready: bool)
    requires o in s.ops && W.Agree(s.w) && Awake(s) && s.ops[o].fd != s.w.wakeUpFd
    ensures Awake(StartInner(s, o, ready))
  {
    if WillWake(s.w) { ListenAwake(s.w, s.ops[o].fd, s.ops[o].write, o); }
  }

  lemma SetTimeoutAwake(s: State, o: Id)
    requires W.Agree(s.w) && Awake(s) && o in s.ops && s.ops[o].fd in s.w.ioEvents && s.ops[o].fd != s.w.wakeUpFd
    ensures Awake(SetTimeout(s, o))
  {
    if WillWake(s.w) { StopAwake(s.w, s.ops[o].fd, s.ops[o].write); }
  }

  lemma FireAwake(s: State, ready: bool)
    requires W.Agree(s.w) && Awake(s) && Enabled(s, FireNext(ready)) && s.ops[s.fired[0]].fd != s.w.wakeUpFd
    ensures Awake(Apply(s, FireNext(ready)))
  {
    SetTimeoutAwake(s, s.fired[0]);
    StartAwake(SetTimeout(s, s.fired[0]).(fired := s.fired[1..]), s.fired[0], ready);
  }

  /** No run ends up waiting for events while a spawned task waits for the loop. */
  lemma {:induction false} TasksWakeTheLoop(s: State, steps: seq<Step>)
    requires Inv(s) && Awake(s) && ValidRun(s, steps)
    ensures Awake(Exec(s, steps))
    decreases |steps|
  {
    if steps != [] {
      StepKeeps(s, steps[0]);
      StepAwake(s, steps[0]);
      TasksWakeTheLoop(Apply(s, steps[0]), steps[1..]);
    }
  }

  // ----- A timer that fires too early -----

  /** HandleTimeout hands out the timer of a task that has not started exactly when some such
      timer has expired, as when an operation with hardly any time begins in the pending phase. */
  lemma HurriedIff(s: State, now: T.Time, due: seq<nat>)
    requires Inv(s) && Enabled(s, EnterTimers(now, due))
    ensures (exists o :: o in Apply(s, EnterTimers(now, due)).fired && o in s.ops && s.ops[o].inner.NotStarted?)
       <==> !Unhurried(s, now)
  {
    var fired := Apply(s, EnterTimers(now, due)).fired;
    forall o | o in s.ops && s.ops[o].inner.NotStarted?
      ensures o in fired <==> s.timers[o].expiry <= now
    {
      assert OpOk(s, o);
      FiredOnce(s.timers, now, due, o);
      assert o in fired <==> multiset(fired)[o] > 0;
    }
  }

  // ----- Runs in which it may happen -----

  /** What every step keeps, hurried or not. */
  ghost predicate Sound(s: State) {
    && W.Agree(s.w) && W.AllHeard(s.w)
    && (forall o :: o in s.ops ==> o > 0 && s.ops[o].fd in s.w.ioEvents && s.ops[o].fd != s.w.wakeUpFd)
  }

  lemma InvIsSound(s: State)
    requires Inv(s)
    ensures Sound(s)
  {
    forall o | o in s.ops ensures o > 0 && s.ops[o].fd in s.w.ioEvents && s.ops[o].fd != s.w.wakeUpFd {
      assert OpOk(s, o);
    }
  }

  lemma ListenSound(w: W.State, fd: Fd, write: bool, h: W.Handle)
    requires W.Agree(w) && W.AllHeard(w) && fd in w.ioEvents && fd != w.wakeUpFd && h != W.Noop
    ensures var w' := Listen(w, fd, write, h);
            W.Agree(w') && W.AllHeard(w') && w'.ioEvents.Keys == w.ioEvents.Keys && w'.wakeUpFd == w.wakeUpFd
  {
    if write { W.ListenWriteKeeps(w, fd, h); } else { W.ListenReadKeeps(w, fd, h); }
  }

  lemma SameWatcherSound(s: State, s': State)
    requires Sound(s) && s'.w == s.w && forall o :: o in s'.ops ==> o in s.ops && s'.ops[o].fd == s.ops[o].fd
    ensures Sound(s')
  {
  }

  lemma NewWatcherSound(s: State, w: W.State)
    requires Sound(s) && W.Agree(w) && W.AllHeard(w) && w.ioEvents.Keys == s.w.ioEvents.Keys && w.wakeUpFd == s.w.wakeUpFd
    ensures Sound(s.(w := w))
  {
  }

  lemma ResumeInnerSound(s: State, o: Id, ready: bool)
    requires Sound(s) && o in s.ops
    ensures Sound(ResumeInner(s, o, ready))
  {
    var op := s.ops[o];
    if op.inner.NotStarted? && !ready {
      ListenSound(s.w, op.fd, op.write, o);
      var waiting := SetOp(s, o, op.(inner := Armed));
      SameWatcherSound(s, waiting);
      NewWatcherSound(waiting, Listen(s.w, op.fd, op.write, o));
    } else {
      SameWatcherSound(s, ResumeInner(s, o, ready));
    }
  }

  lemma SetTimeoutSound(s: State, o: Id)
    requires Sound(s) && o in s.ops
    ensures Sound(SetTimeout(s, o))
  {
    var op := s.ops[o];
    StopWaits(s.w, op.fd, op.write);
    var timedOut := SetOp(s, o, op.(timedOut := true));
    SameWatcherSound(s, timedOut);
    NewWatcherSound(timedOut, Stop(s.w, op.fd, op.write));
  }

  lemma FireSound(s: State, o: Id, ready: bool)
    requires Sound(s) && o in s.ops && s.fired != []
    ensures Sound(ResumeInner(SetTimeout(s, o).(fired := s.fired[1..]), o, ready))
  {
    SetTimeoutSound(s, o);
    ResumeInnerSound(SetTimeout(s, o).(fired := s.fired[1..]), o, ready);
  }

  lemma IoSound(s: State, fds: seq<Fd>)
    requires Sound(s) && Enabled(s, EnterIo(fds))
    ensures Sound(Apply(s, EnterIo(fds)))
  {
    WatchMoves(s.w, fds, W.Slot(0, false, W.Noop));
    var s' := Apply(s, EnterIo(fds));
    SameWatcherSound(s, s'.(w := s.w));
    NewWatcherSound(s'.(w := s.w), s'.w);
  }

  lemma BeginSound(s: State, step: Step)
    requires Sound(s) && (step.Register? || step.Begin?) && Enabled(s, step)
    ensures Sound(Apply(s, step))
  {
    if step.Register? { W.ListenReadKeeps(s.w, step.fd, W.Noop); }
  }

  lemma StepSound(s: State, step: Step)
    requires Sound(s) && Enabled(s, step)
    ensures Sound(Apply(s, step))
  {
    match step
    case Register(_) => BeginSound(s, step);
    case Begin(_, _, _, _) => BeginSound(s, step);
    case RunNext(ready) => ResumeInnerSound(s.(running := s.running[1..]), s.running[0], ready);
    case FireNext(ready) => FireSound(s, s.fired[0], ready);
    case EnterIo(fds) => IoSound(s, fds);
    case Event(_, _) => NewWatcherSound(s, Apply(s, step).w);
    case Use(_, _) => NewWatcherSound(s, Apply(s, step).w);
    case _ => SameWatcherSound(s, Apply(s, step));
  }

  ghost predicate FreeRun(s: State, steps: seq<Step>)
    requires Sound(s)
    decreases |steps|
  {
    steps != [] ==> Enabled(s, steps[0]) && (StepSound(s, steps[0]); FreeRun(Apply(s, steps[0]), steps[1..]))
  }

  ghost function FreeExec(s: State, steps: seq<Step>): (r: State)
    requires Sound(s) && FreeRun(s, steps)
    ensures Sound(r)
    decreases |steps|
  {
    if steps == [] then s else (StepSound(s, steps[0]); FreeExec(Apply(s, steps[0]), steps[1..]))
  }

  // ----- A round of timers -----

  /** What happens while expired timers are run: besides those, whatever the resumed coroutines
      and the kernel do. */
  predicate InTimers(steps: seq<Step>) {
    forall k :: 0 <= k < |steps| ==>
      steps[k].FireNext? || steps[k].Begin? || steps[k].Register? || steps[k].Event? || steps[k].Use?
  }

  // It has been started by its timer, or will be, while its task is still to run.
  predicate Doomed(s: State, o: Id) {
    o in s.ops && Tasks(s, o) > 0 && (s.ops[o].inner.NotStarted? ==> o in s.fired)
  }

  /** Being resumed, by whatever, leaves the tasks and timers to run as they are. */
  lemma ResumeInnerLeaves(s: State, x: Id, ready: bool, o: Id)
    requires W.Agree(s.w) && x in s.ops && o in s.ops
    ensures var s' := ResumeInner(s, x, ready);
            && o in s'.ops && Tasks(s', o) == Tasks(s, o) && s'.fired == s.fired
            && (s'.ops[o].inner.NotStarted? ==> s.ops[o].inner.NotStarted? && x != o)
  {
  }

  lemma FireDooms(s: State, ready: bool, o: Id)
    requires W.Agree(s.w) && Enabled(s, FireNext(ready)) && Doomed(s, o)
    ensures Doomed(Apply(s, FireNext(ready)), o)
  {
    var x := s.fired[0];
    assert s.fired == [x] + s.fired[1..];
    ResumeInnerLeaves(SetTimeout(s, x).(fired := s.fired[1..]), x, ready, o);
  }

  lemma StepDooms(s: State, step: Step, o: Id)
    requires Sound(s) && Enabled(s, step) && InTimers([step]) && Doomed(s, o)
    ensures Doomed(Apply(s, step), o)
  {
    assert [step][0] == step;
    if step.FireNext? {
      FireDooms(s, step.ready, o);
    } else if step.Begin? {
      PushCount(s.pending, step.o);
    }
  }

  lemma {:induction false} RoundDooms(s: State, steps: seq<Step>, o: Id)
    requires Sound(s) && FreeRun(s, steps) && InTimers(steps) && Doomed(s, o)
    ensures Doomed(FreeExec(s, steps), o)
    decreases |steps|
  {
    if steps != [] {
      assert InTimers([steps[0]]);
      StepDooms(s, steps[0], o);
      StepSound(s, steps[0]);
      RoundDooms(Apply(s, steps[0]), steps[1..], o);
    }
  }

  lemma {:induction false} RoundKeeps(s: State, steps: seq<Step>)
    requires Inv(s) && Sound(s) && FreeRun(s, steps) && InTimers(steps)
    ensures Inv(FreeExec(s, steps))
    decreases |steps|
  {
    if steps != [] {
      StepKeeps(s, steps[0]);
      StepSound(s, steps[0]);
      RoundKeeps(Apply(s, steps[0]), steps[1..]);
    }
  }

  /** After a round of timers everything is in order, every operation in one place with its
      timer set or over and done with, if and only if no timer was due whose task had not
      started. */
  lemma RoundInOrderIff(s: State, now: T.Time, due: seq<nat>, steps: seq<Step>)
    requires Inv(s) && Enabled(s, EnterTimers(now, due)) && Sound(Apply(s, EnterTimers(now, due)))
    requires FreeRun(Apply(s, EnterTimers(now, due)), steps) && InTimers(steps)
    requires FreeExec(Apply(s, EnterTimers(now, due)), steps).fired == []
    ensures AllOk(FreeExec(Apply(s, EnterTimers(now, due)), steps)) <==> Unhurried(s, now)
  {
    var s1 := Apply(s, EnterTimers(now, due));
    var r := FreeExec(s1, steps);
    if Unhurried(s, now) {
      EnterTimersKeeps(s, now, due);
      RoundKeeps(s1, steps);
    } else {
      HurriedIff(s, now, due);
      var o :| o in s1.fired && o in s.ops && s.ops[o].inner.NotStarted?;
      assert OpOk(s, o);
      RoundDooms(s1, steps, o);
      assert !OpOk(r, o);
    }
  }

  // ----- It does happen -----

  /** The steps lead from `s` to the resumption of a coroutine that has ended. */
  ghost predicate MisusesFrom(s: State, steps: seq<Step>) {
    Sound(s) && FreeRun(s, steps) && FreeExec(s, steps).misuse
  }

  lemma MisusesBefore(s: State, step: Step, more: seq<Step>, s': State)
    requires Sound(s) && Enabled(s, step) && s' == Apply(s, step) && MisusesFrom(s', more)
    ensures MisusesFrom(s, [step] + more)
  {
    assert ([step] + more)[1..] == more;
  }

  lemma MisusesNow(s: State, step: Step)
    requires Sound(s) && Enabled(s, step) && Apply(s, step).misuse
    ensures MisusesFrom(s, [step])
  {
    StepSound(s, step);
    assert MisusesFrom(Apply(s, step), []);
    MisusesBefore(s, step, [], Apply(s, step));
    assert [step] + [] == [step];
  }

  // One operation, and its timer has left the queue.
  function Lone(phase: Phase, w: W.State, op: Op, pending: seq<Id>, running: seq<Id>, fired: seq<Id>, batch: seq<W.Slot>): State {
    State(phase, w, map[], map[1 := op], pending, running, fired, batch, false)
  }

  // Nobody but `h` waits for reading at `fd`.
  ghost predicate Watches(w: W.State, fd: Fd, h: W.Handle) {
    W.Agree(w) && W.AllHeard(w) && fd in w.ioEvents && fd != w.wakeUpFd && W.ReadHandle(w, fd) == h
  }

  function ReadOp(fd: Fd, inner: Inner, timedOut: bool, resumed: nat): Op {
    Op(fd, false, inner, timedOut, resumed)
  }

  /** The timer starts the task before the loop does, and the task ends at once ... */
  lemma FiresReady(w: W.State, fd: Fd)
    requires Watches(w, fd, W.Noop) && WillWake(w)
    ensures var s, w' := Lone(Timers, w, ReadOp(fd, NotStarted, false, 0), [1], [], [1], []), W.StopRead(w, fd);
            && Enabled(s, FireNext(true)) && Watches(w', fd, W.Noop) && WillWake(w')
            && Apply(s, FireNext(true)) == Lone(Timers, w', ReadOp(fd, Finished, true, 1), [1], [], [], [])
  {
    StopWaits(w, fd, false);
    StopAwake(w, fd, false);
    assert [1][1..] == [];
  }

  /** ... or waits, with no timer left. */
  lemma FiresWaiting(w: W.State, fd: Fd)
    requires Watches(w, fd, W.Noop) && WillWake(w)
    ensures var s, w' := Lone(Timers, w, ReadOp(fd, NotStarted, false, 0), [1], [], [1], []), W.StopRead(w, fd);
            && Enabled(s, FireNext(false)) && Watches(w', fd, W.Noop)
            && var w'' := W.ListenRead(w', fd, 1);
            && Watches(w'', fd, 1) && WillWake(w'')
            && Apply(s, FireNext(false)) == Lone(Timers, w'', ReadOp(fd, Armed, true, 0), [1], [], [], [])
  {
    StopWaits(w, fd, false);
    StopAwake(w, fd, false);
    var w' := W.StopRead(w, fd);
    W.ListenReadKeeps(w', fd, 1);
    ListenAwake(w', fd, false, 1);
    assert [1][1..] == [];
  }

  /** An epoll_wait that finds the eventfd. */
  lemma IdleWatch(w: W.State, fd: Fd, h: W.Handle)
    requires Watches(w, fd, h) && WillWake(w)
    ensures W.CanScan(w.kernel, [w.wakeUpFd]) && Reported(w, [w.wakeUpFd]) == []
    ensures Watches(W.WatchAll(w, [w.wakeUpFd]).0, fd, h)
  {
    var fds := [w.wakeUpFd];
    var w' := W.WatchAll(w, fds).0;
    W.OneReport(w, w.wakeUpFd);
    W.OneBatch(w, W.ReportFor(w.kernel, w.wakeUpFd));
    assert Reported(w, fds) == [];
    WatchMoves(w, fds, W.Slot(fd, false, h));
    WatchMoves(w, fds, W.Slot(fd, false, W.ReadHandle(w', fd)));
    W.WaitingIs(w, W.Slot(fd, false, h));
    W.WaitingIs(w', W.Slot(fd, false, h));
    W.WaitingIs(w, W.Slot(fd, false, W.ReadHandle(w', fd)));
    W.WaitingIs(w', W.Slot(fd, false, W.ReadHandle(w', fd)));
  }

  lemma LoneSound(s: State, fd: Fd, h: W.Handle)
    requires s.ops.Keys == {1} && s.ops[1].fd == fd && Watches(s.w, fd, h)
    ensures Sound(s)
  {
  }

  /** Through the I/O phase and into the next round. */
  lemma GoesRound(w: W.State, op: Op, h: W.Handle, more: seq<Step>)
    requires Watches(w, op.fd, h) && WillWake(w)
    requires forall w' :: Watches(w', op.fd, h) ==> MisusesFrom(Lone(Pending, w', op, [], [1], [], []), more)
    ensures MisusesFrom(Lone(Timers, w, op, [1], [], [], []), [EnterIo([w.wakeUpFd])] + ([EnterPending] + more))
  {
    IdleWatch(w, op.fd, h);
    var w' := W.WatchAll(w, [w.wakeUpFd]).0;
    var s := Lone(Timers, w, op, [1], [], [], []);
    var s1, s2 := Lone(Io, w', op, [1], [], [], []), Lone(Pending, w', op, [], [1], [], []);
    LoneSound(s, op.fd, h);
    LoneSound(s1, op.fd, h);
    assert Apply(s1, EnterPending) == s2;
    MisusesBefore(s1, EnterPending, more, s2);
    assert Awaken(map[1 := op], []) == map[1 := op];
    MisusesBefore(s, EnterIo([w.wakeUpFd]), [EnterPending] + more, s1);
  }

  /** The loop takes up the task of an operation that is over. */
  lemma EndedIsRun(w: W.State, fd: Fd)
    requires Watches(w, fd, W.Noop)
    ensures MisusesFrom(Lone(Pending, w, ReadOp(fd, Finished, true, 1), [], [1], [], []), [RunNext(true)])
  {
    var s := Lone(Pending, w, ReadOp(fd, Finished, true, 1), [], [1], [], []);
    LoneSound(s, fd, W.Noop);
    MisusesNow(s, RunNext(true));
  }

  /** The loop takes up a task that waits, which ends and leaves its handle behind ... */
  lemma WaitingIsRun(w: W.State, fd: Fd, more: seq<Step>)
    requires Watches(w, fd, 1)
    requires MisusesFrom(Lone(Pending, w, ReadOp(fd, Finished, true, 1), [], [], [], []), more)
    ensures MisusesFrom(Lone(Pending, w, ReadOp(fd, Armed, true, 0), [], [1], [], []), [RunNext(true)] + more)
  {
    var s := Lone(Pending, w, ReadOp(fd, Armed, true, 0), [], [1], [], []);
    LoneSound(s, fd, 1);
    assert [1][1..] == [];
    MisusesBefore(s, RunNext(true), more, Lone(Pending, w, ReadOp(fd, Finished, true, 1), [], [], [], []));
  }

  // The handle of an operation that is over waits where there is something to read.
  ghost predicate Leftover(w: W.State, fd: Fd) {
    Watches(w, fd, 1) && fd in w.kernel.epoll && w.kernel.epoll[fd].queued && W.ReadinessOf(w.kernel, fd).readable
  }

  /** ... so that the next data resumes what has ended. */
  lemma DataComes(w: W.State, fd: Fd)
    requires Watches(w, fd, 1)
    ensures Leftover(w.(kernel := W.Happens(w.kernel, fd, W.Readable)), fd)
  {
    assert w.ioEvents[fd].events.input;
  }

  lemma LeftoverReported(w: W.State, fd: Fd)
    requires Leftover(w, fd)
    ensures W.CanScan(w.kernel, [fd])
    ensures Reported(w, [fd]) != [] && Reported(w, [fd])[0] == W.Slot(fd, false, 1)
  {
    assert w.ioEvents[fd].events.input;
    W.OneReport(w, fd);
    W.OneBatch(w, W.ReportFor(w.kernel, fd));
  }

  lemma LeftoverIsResumed(w: W.State, fd: Fd)
    requires Leftover(w, fd)
    ensures MisusesFrom(Lone(Timers, w, ReadOp(fd, Finished, true, 1), [], [], [], []), [EnterIo([fd])] + [ResumeNext])
  {
    var op := ReadOp(fd, Finished, true, 1);
    var s := Lone(Timers, w, op, [], [], [], []);
    LeftoverReported(w, fd);
    LoneSound(s, fd, 1);
    var s1 := Lone(Io, W.WatchAll(w, [fd]).0, op, [], [], [], Reported(w, [fd]));
    assert Awaken(map[1 := op], Reported(w, [fd])) == map[1 := op];
    StepSound(s, EnterIo([fd]));
    MisusesNow(s1, ResumeNext);
    MisusesBefore(s, EnterIo([fd]), [ResumeNext], s1);
  }

  function LateData(fd: Fd, now: T.Time): seq<Step> {
    [Event(fd, W.Readable)] + ([EnterTimers(now, [])] + ([EnterIo([fd])] + [ResumeNext]))
  }

  lemma DataMisuses(w: W.State, fd: Fd, now: T.Time)
    requires Watches(w, fd, 1)
    ensures MisusesFrom(Lone(Pending, w, ReadOp(fd, Finished, true, 1), [], [], [], []), LateData(fd, now))
  {
    var op := ReadOp(fd, Finished, true, 1);
    var w' := w.(kernel := W.Happens(w.kernel, fd, W.Readable));
    var s, s1, s2 := Lone(Pending, w, op, [], [], [], []), Lone(Pending, w', op, [], [], [], []), Lone(Timers, w', op, [], [], [], []);
    DataComes(w, fd);
    LeftoverIsResumed(w', fd);
    LoneSound(s, fd, 1);
    LoneSound(s1, fd, 1);
    assert T.Remaining(map[], now) == map[];
    MisusesBefore(s1, EnterTimers(now, []), [EnterIo([fd])] + [ResumeNext], s2);
    MisusesBefore(s, Event(fd, W.Readable), [EnterTimers(now, [])] + ([EnterIo([fd])] + [ResumeNext]), s1);
  }

  /** What follows when the timer's task is the first to start the operation's task, which ends
      at once (`ready`) or waits. */
  function Aftermath(wakeUpFd: Fd, fd: Fd, now: T.Time, ready: bool): seq<Step> {
    [FireNext(ready)] + ([EnterIo([wakeUpFd])] + ([EnterPending] + (if ready then [RunNext(true)] else [RunNext(true)] + LateData(fd, now))))
  }

  lemma EarlyTimerMisuses(w: W.State, fd: Fd, now: T.Time, ready: bool)
    requires Watches(w, fd, W.Noop) && WillWake(w)
    ensures MisusesFrom(Lone(Timers, w, ReadOp(fd, NotStarted, false, 0), [1], [], [1], []), Aftermath(w.wakeUpFd, fd, now, ready))
  {
    var s := Lone(Timers, w, ReadOp(fd, NotStarted, false, 0), [1], [], [1], []);
    LoneSound(s, fd, W.Noop);
    var w' := W.StopRead(w, fd);
    if ready {
      FiresReady(w, fd);
      var op := ReadOp(fd, Finished, true, 1);
      forall v | Watches(v, fd, W.Noop) ensures MisusesFrom(Lone(Pending, v, op, [], [1], [], []), [RunNext(true)]) {
        EndedIsRun(v, fd);
      }
      GoesRound(w', op, W.Noop, [RunNext(true)]);
      MisusesBefore(s, FireNext(true), [EnterIo([w.wakeUpFd])] + ([EnterPending] + [RunNext(true)]),
                    Lone(Timers, w', op, [1], [], [], []));
    } else {
      FiresWaiting(w, fd);
      var w'' := W.ListenRead(w', fd, 1);
      var op, more := ReadOp(fd, Armed, true, 0), [RunNext(true)] + LateData(fd, now);
      forall v | Watches(v, fd, 1) ensures MisusesFrom(Lone(Pending, v, op, [], [1], [], []), more) {
        DataMisuses(v, fd, now);
        WaitingIsRun(v, fd, LateData(fd, now));
      }
      GoesRound(w'', op, 1, more);
      MisusesBefore(s, FireNext(false), [EnterIo([w.wakeUpFd])] + ([EnterPending] + more),
                    Lone(Timers, w'', op, [1], [], [], []));
    }
  }

  // An operation begun by nobody else on the loop.
  function BegunAlone(w: W.State, fd: Fd, expiry: T.Time): State {
    State(Pending, w, map[1 := T.Node(1, expiry, 1, true)], map[1 := ReadOp(fd, NotStarted, false, 0)], [1], [], [], [], false)
  }

  lemma TimerIsDue(w: W.State, fd: Fd, now: T.Time)
    requires Watches(w, fd, W.Noop)
    ensures var s := BegunAlone(w, fd, now);
            && Enabled(s, EnterTimers(now, [1]))
            && Apply(s, EnterTimers(now, [1])) == Lone(Timers, w, ReadOp(fd, NotStarted, false, 0), [1], [], [1], [])
  {
    var timers := map[1 := T.Node(1, now, 1, true)];
    assert [1][..0] == [] && T.TasksOf(timers, []) == [];
    assert T.TasksOf(timers, [1]) == [1];
    assert T.Remaining(timers, now) == map[];
  }

  lemma BeginsAlone(w: W.State, fd: Fd, expiry: T.Time)
    requires Watches(w, fd, W.Noop)
    ensures var s := State(Pending, w, map[], map[], [], [], [], [], false);
            && Enabled(s, Begin(1, fd, false, expiry)) && Watches(WokenUp(w), fd, W.Noop) && WillWake(WokenUp(w))
            && Apply(s, Begin(1, fd, false, expiry)) == BegunAlone(WokenUp(w), fd, expiry)
  {
    assert [] + [1] == [1];
  }

  lemma Registers(kernel: W.Kernel, wakeUpFd: Fd, fd: Fd)
    requires kernel.epoll == map[] && fd != wakeUpFd
    ensures Enabled(Fresh(kernel, wakeUpFd), Register(fd))
    ensures var w := W.ListenRead(Fresh(kernel, wakeUpFd).w, fd, W.Noop);
            && Watches(w, fd, W.Noop) && w.wakeUpFd == wakeUpFd
            && Apply(Fresh(kernel, wakeUpFd), Register(fd)) == State(Pending, w, map[], map[], [], [], [], [], false)
  {
    W.ListenReadKeeps(Fresh(kernel, wakeUpFd).w, fd, W.Noop);
  }

  function TooEarly(wakeUpFd: Fd, fd: Fd, now: T.Time, ready: bool): seq<Step> {
    [Begin(1, fd, false, now)] + ([EnterTimers(now, [1])] + Aftermath(wakeUpFd, fd, now, ready))
  }

  lemma HurriedMisuses(w: W.State, fd: Fd, now: T.Time, ready: bool)
    requires Watches(w, fd, W.Noop)
    ensures MisusesFrom(State(Pending, w, map[], map[], [], [], [], [], false), TooEarly(w.wakeUpFd, fd, now, ready))
  {
    var s := State(Pending, w, map[], map[], [], [], [], [], false);
    BeginsAlone(w, fd, now);
    var w' := WokenUp(w);
    var after := Aftermath(w.wakeUpFd, fd, now, ready);
    TimerIsDue(w', fd, now);
    EarlyTimerMisuses(w', fd, now, ready);
    var s' := BegunAlone(w', fd, now);
    LoneSound(s', fd, W.Noop);
    MisusesBefore(s', EnterTimers(now, [1]), after, Lone(Timers, w', ReadOp(fd, NotStarted, false, 0), [1], [], [1], []));
    MisusesBefore(s, Begin(1, fd, false, now), [EnterTimers(now, [1])] + after, s');
  }

  /** From the start of the loop: a read begins in the pending phase with its time already up,
      so that its timer fires before its task has been taken up; whether the read then succeeds
      at once or waits, a coroutine is resumed in the end that has ended. */
  lemma TimerTooEarly(kernel: W.Kernel, wakeUpFd: Fd, fd: Fd, now: T.Time, ready: bool)
    requires kernel.epoll == map[] && fd != wakeUpFd
    ensures MisusesFrom(Fresh(kernel, wakeUpFd), [Register(fd)] + TooEarly(wakeUpFd, fd, now, ready))
  {
    var s := Fresh(kernel, wakeUpFd);
    InvIsSound(s);
    Registers(kernel, wakeUpFd, fd);
    var w := W.ListenRead(s.w, fd, W.Noop);
    HurriedMisuses(w, fd, now, ready);
    MisusesBefore(s, Register(fd), TooEarly(wakeUpFd, fd, now, ready), State(Pending, w, map[], map[], [], [], [], [], false));
  }
}
