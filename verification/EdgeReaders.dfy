/** Readers on an edge-triggered loop: a read is tried before its coroutine is armed, so that
    edges which find nobody waiting may be thrown away and no wakeup is lost all the same. */
module EdgeReaders {
  import W = IoWatcher

  type Fd = W.Fd
  type Handle = W.Handle

  // Where the one coroutine that reads (or accepts) at a descriptor is: not in a read; inside
  // await_suspend, having got EAGAIN; suspended; among those to be resumed; or its socket is
  // gone.
  datatype Pc = Idle | Tried | Armed | Woken | Gone

  // spoiled: the last attempt was an accept that failed, for another reason than that nothing
  // was there, with no edge pending (a record of the proof; no step depends on it).
  datatype Reader = Reader(pc: Pc, acceptor: bool, spoiled: bool)

  // batch: what WatchIo returned and the loop has not resumed yet.
  datatype State = State(w: W.State, readers: map<Fd, Reader>, batch: seq<W.Slot>)

  datatype Step =
    | Open(fd: Fd, acceptor: bool)       // a socket's constructor
    | Try(fd: Fd, all: bool)             // await_ready; `all` that is there, or a part
    | Fails(fd: Fd)                      // await_ready, with an error other than EAGAIN
    | Arm(fd: Fd, h: Handle)             // await_suspend
    | Watch(fds: seq<Fd>)
    | Resume(all: bool)                  // the next of the batch, reading again
    | Timeout(fd: Fd)                    // SetTimeout, then resumed
    | Destroy(fd: Fd)                    // a socket's destructor
    | ArmWrite(fd: Fd, h: Handle)
    | DisarmWrite(fd: Fd)
    | Wrote(fd: Fd)                      // a write fills the socket's buffer
    | Event(fd: Fd, what: W.Readiness)   // bytes, room or a hang-up arrive (Close is a hang-up)

  /** A read would not give EAGAIN. */
  predicate CanRead(w: W.State, fd: Fd) {
    W.ReadinessOf(w.kernel, fd).readable || W.ReadinessOf(w.kernel, fd).hup
  }

  predicate Queued(w: W.State, fd: Fd) {
    fd in w.kernel.epoll && w.kernel.epoll[fd].queued
  }

  predicate PcIs(s: State, fd: Fd, pc: Pc) {
    fd in s.readers && s.readers[fd].pc == pc
  }

  // One thread: nothing but the kernel comes between await_ready and await_suspend.
  predicate NobodyTried(s: State) {
    forall fd :: fd in s.readers ==> s.readers[fd].pc != Tried
  }

  predicate Enabled(s: State, step: Step) {
    match step
    case Event(fd, what) => true
    case Arm(fd, h) => PcIs(s, fd, Tried) && h != W.Noop && W.ReadHandle(s.w, fd) == W.Noop
    case _ => NobodyTried(s) && ThreadEnabled(s, step)
  }

  predicate ThreadEnabled(s: State, step: Step) {
    match step
    case Open(fd, _) => fd !in s.w.ioEvents && (fd in s.readers ==> s.readers[fd].pc.Gone?)
    case Try(fd, _) => PcIs(s, fd, Idle)
    case Fails(fd) => PcIs(s, fd, Idle)
    case Watch(fds) => s.batch == [] && W.CanScan(s.w.kernel, fds)
    case Resume(_) => s.batch != []
    case Timeout(fd) => s.batch == [] && PcIs(s, fd, Armed) && fd in s.w.ioEvents
    case Destroy(fd) => fd in s.readers && fd != s.w.wakeUpFd
    case ArmWrite(fd, h) => fd in s.w.ioEvents && fd != s.w.wakeUpFd && h != W.Noop && W.WriteHandle(s.w, fd) == W.Noop
    case DisarmWrite(fd) => fd in s.w.ioEvents && fd != s.w.wakeUpFd
    case Wrote(fd) => true
    case _ => false
  }

  function Goto(s: State, fd: Fd, pc: Pc): State
    requires fd in s.readers
  {
    s.(readers := s.readers[fd := s.readers[fd].(pc := pc)])
  }

  function TriedBy(s: State, fd: Fd, spoiled: bool): State
    requires fd in s.readers
  {
    s.(readers := s.readers[fd := s.readers[fd].(pc := Tried, spoiled := spoiled)])
  }

  function Use(w: W.State, fd: Fd, all: bool, read: bool): W.State {
    if all then w.(kernel := W.Drained(w.kernel, fd, read)) else w
  }

  predicate Resumed(fd: Fd, slots: seq<W.Slot>) {
    exists w :: w in slots && w.fd == fd && !w.write
  }

  function Wake(readers: map<Fd, Reader>, slots: seq<W.Slot>): map<Fd, Reader> {
    map fd | fd in readers ::
      if readers[fd].pc.Armed? && Resumed(fd, slots) then readers[fd].(pc := Woken) else readers[fd]
  }

  function Due(w: W.State, fds: seq<Fd>): seq<W.Slot>
    requires W.CanScan(w.kernel, fds)
  {
    W.AllDue(w, W.Reports(w.kernel, fds))
  }

  /** The first of the batch goes on; a reader reads again. */
  function AfterResume(s: State, all: bool): State
    requires s.batch != []
  {
    var slot := s.batch[0];
    var s' := s.(batch := s.batch[1..]);
    if !slot.write && PcIs(s, slot.fd, Woken)
    then Goto(s', slot.fd, Idle).(w := Use(s.w, slot.fd, all, true))
    else s'
  }

  function Apply(s: State, step: Step): State
    requires W.Agree(s.w) && Enabled(s, step)
  {
    match step
    case Open(fd, acceptor) =>
      s.(w := W.ListenRead(s.w, fd, W.Noop), readers := s.readers[fd := Reader(Idle, acceptor, false)])
    case Try(fd, all) =>
      if CanRead(s.w, fd) then s.(w := Use(s.w, fd, all, true)) else TriedBy(s, fd, false)
    case Fails(fd) =>
      // AcceptAwaitable arms after any error, ReadAwaitable after EAGAIN only.
      if s.readers[fd].acceptor then TriedBy(s, fd, !Edge(s.w, fd)) else s
    case Arm(fd, h) => Goto(s, fd, Armed).(w := W.ListenRead(s.w, fd, h))
    case Watch(fds) =>
      State(W.WatchAll(s.w, fds).0, Wake(s.readers, Due(s.w, fds)), Due(s.w, fds))
    case Resume(all) => AfterResume(s, all)
    case Timeout(fd) => Goto(s, fd, Idle).(w := W.StopRead(s.w, fd))
    case Destroy(fd) => Goto(s, fd, Gone).(w := W.StopAll(s.w, fd))
    case ArmWrite(fd, h) => s.(w := W.ListenWrite(s.w, fd, h))
    case DisarmWrite(fd) => s.(w := W.StopWrite(s.w, fd))
    case Wrote(fd) => s.(w := Use(s.w, fd, true, false))
    case Event(fd, what) => s.(w := s.w.(kernel := W.Happens(s.w.kernel, fd, what)))
  }

  // ----- The invariant -----

  /** What there is to read has an edge pending. */
  predicate Edge(w: W.State, fd: Fd) {
    CanRead(w, fd) ==> Queued(w, fd)
  }

  predicate ReaderOk(w: W.State, batch: seq<W.Slot>, fd: Fd, r: Reader) {
    && fd != w.wakeUpFd
    && (r.pc.Gone? <==> fd !in w.ioEvents)
    && (r.pc.Armed? <==> W.ReadHandle(w, fd) != W.Noop)
    && ((r.pc.Tried? || r.pc.Armed?) && !r.spoiled ==> Edge(w, fd))
    && (r.spoiled ==> r.acceptor)
    && (r.pc.Woken? ==> CanRead(w, fd) && Resumed(fd, batch))
  }

  ghost predicate Inv(s: State) {
    && W.Agree(s.w) && W.AllHeard(s.w)
    && (forall fd :: fd in s.readers ==> ReaderOk(s.w, s.batch, fd, s.readers[fd]))
  }

  /** Other descriptors do not notice. */
  predicate Unnoticed(w: W.State, w': W.State, fd: Fd) {
    && W.SameEntry(w, w', fd)
    && W.ReadinessOf(w.kernel, fd) == W.ReadinessOf(w'.kernel, fd)
    && w.wakeUpFd == w'.wakeUpFd
  }

  lemma OthersStay(s: State, s': State, fd: Fd)
    requires Inv(s) && W.Agree(s'.w) && W.AllHeard(s'.w) && s'.batch == s.batch
    requires forall x: Fd :: x != fd ==> Unnoticed(s.w, s'.w, x)
    requires forall x :: x in s'.readers && x != fd ==> x in s.readers && s'.readers[x] == s.readers[x]
    requires fd in s'.readers ==> ReaderOk(s'.w, s'.batch, fd, s'.readers[fd])
    ensures Inv(s')
  {
    forall x | x in s'.readers
      ensures ReaderOk(s'.w, s'.batch, x, s'.readers[x])
    {
      if x != fd {
        assert ReaderOk(s.w, s.batch, x, s.readers[x]);
        assert Unnoticed(s.w, s'.w, x);
      }
    }
  }

  lemma OpenKeeps(s: State, step: Step)
    requires Inv(s) && step.Open? && Enabled(s, step)
    ensures Inv(Apply(s, step))
  {
    W.ListenReadKeeps(s.w, step.fd, W.Noop);
    OthersStay(s, Apply(s, step), step.fd);
  }

  lemma TryKeeps(s: State, step: Step)
    requires Inv(s) && (step.Try? || step.Fails?) && Enabled(s, step)
    ensures Inv(Apply(s, step))
  {
    assert ReaderOk(s.w, s.batch, step.fd, s.readers[step.fd]);
    OthersStay(s, Apply(s, step), step.fd);
  }

  /** Arming between the failed read and the next epoll_wait loses nothing. */
  lemma ArmKeeps(s: State, step: Step)
    requires Inv(s) && step.Arm? && Enabled(s, step)
    ensures Inv(Apply(s, step))
  {
    assert ReaderOk(s.w, s.batch, step.fd, s.readers[step.fd]);
    W.ListenReadKeeps(s.w, step.fd, step.h);
    OthersStay(s, Apply(s, step), step.fd);
  }

  lemma TimeoutKeeps(s: State, step: Step)
    requires Inv(s) && step.Timeout? && Enabled(s, step)
    ensures Inv(Apply(s, step))
  {
    assert ReaderOk(s.w, s.batch, step.fd, s.readers[step.fd]);
    W.StopReadKeeps(s.w, step.fd);
    OthersStay(s, Apply(s, step), step.fd);
  }

  lemma DestroyKeeps(s: State, step: Step)
    requires Inv(s) && step.Destroy? && Enabled(s, step)
    ensures Inv(Apply(s, step))
  {
    assert ReaderOk(s.w, s.batch, step.fd, s.readers[step.fd]);
    W.StopAllKeeps(s.w, step.fd);
    OthersStay(s, Apply(s, step), step.fd);
  }

  lemma ArmWriteKeeps(s: State, step: Step)
    requires Inv(s) && step.ArmWrite? && Enabled(s, step)
    ensures Inv(Apply(s, step))
  {
    W.ListenWriteKeeps(s.w, step.fd, step.h);
    if step.fd in s.readers {
      assert ReaderOk(s.w, s.batch, step.fd, s.readers[step.fd]);
    }
    OthersStay(s, Apply(s, step), step.fd);
  }

  lemma DisarmWriteKeeps(s: State, step: Step)
    requires Inv(s) && step.DisarmWrite? && Enabled(s, step)
    ensures Inv(Apply(s, step))
  {
    W.StopWriteKeeps(s.w, step.fd);
    if step.fd in s.readers {
      assert ReaderOk(s.w, s.batch, step.fd, s.readers[step.fd]);
    }
    OthersStay(s, Apply(s, step), step.fd);
  }

  lemma WroteKeeps(s: State, step: Step)
    requires Inv(s) && step.Wrote? && Enabled(s, step)
    ensures Inv(Apply(s, step))
  {
    if step.fd in s.readers {
      assert ReaderOk(s.w, s.batch, step.fd, s.readers[step.fd]);
    }
    OthersStay(s, Apply(s, step), step.fd);
  }

  /** Data may come at any moment, between a failed read and its arming too. */
  lemma EventKeeps(s: State, fd: Fd, what: W.Readiness)
    requires Inv(s)
    ensures Inv(Apply(s, Event(fd, what)))
  {
    var s' := Apply(s, Event(fd, what));
    if fd in s.readers {
      assert ReaderOk(s.w, s.batch, fd, s.readers[fd]);
      if s.readers[fd].pc.Tried? || s.readers[fd].pc.Armed? { assert s.w.ioEvents[fd].events.input; }
    }
    OthersStay(s, s', fd);
  }

  lemma PoppedResumed(batch: seq<W.Slot>, fd: Fd)
    requires batch != [] && Resumed(fd, batch) && !(batch[0].fd == fd && !batch[0].write)
    ensures Resumed(fd, batch[1..])
  {
    var w :| w in batch && w.fd == fd && !w.write;
    assert w in batch[1..];
  }

  lemma ResumeKeepsOne(s: State, all: bool, fd: Fd)
    requires s.batch != [] && fd in s.readers && ReaderOk(s.w, s.batch, fd, s.readers[fd])
    ensures var s' := AfterResume(s, all);
            fd in s'.readers && ReaderOk(s'.w, s'.batch, fd, s'.readers[fd])
  {
    if s.readers[fd].pc.Woken? && !(s.batch[0].fd == fd && !s.batch[0].write) {
      PoppedResumed(s.batch, fd);
    }
  }

  lemma ResumeKeeps(s: State, all: bool)
    requires Inv(s) && Enabled(s, Resume(all))
    ensures Inv(Apply(s, Resume(all)))
  {
    var s' := Apply(s, Resume(all));
    forall fd | fd in s'.readers
      ensures ReaderOk(s'.w, s'.batch, fd, s'.readers[fd])
    {
      ResumeKeepsOne(s, all, fd);
    }
  }

  // ----- What an epoll_wait does for one reader -----

  predicate ReadReported(reports: seq<W.Report>, fd: Fd) {
    exists r :: r in reports && ForReader(r, fd)
  }

  predicate ForReader(r: W.Report, fd: Fd) {
    r.fd == fd && (r.input || r.hup)
  }

  lemma LastReport(reports: seq<W.Report>, fd: Fd)
    requires reports != []
    ensures ReadReported(reports, fd)
       <==> ReadReported(reports[..|reports| - 1], fd) || ForReader(reports[|reports| - 1], fd)
  {
    assert reports == reports[..|reports| - 1] + [reports[|reports| - 1]];
  }

  lemma LastResumed(fd: Fd, a: seq<W.Slot>, b: seq<W.Slot>)
    ensures Resumed(fd, a + b) <==> Resumed(fd, a) || Resumed(fd, b)
  {
    assert forall w :: w in a + b <==> w in a || w in b;
  }

  lemma {:induction false} ScanReports(w: W.State, fds: seq<Fd>, fd: Fd)
    requires W.Agree(w) && W.AllHeard(w) && forall x :: x in fds ==> x in w.kernel.epoll
    ensures ReadReported(W.Reports(w.kernel, fds), fd) <==> fd in fds && CanRead(w, fd)
    decreases |fds|
  {
    var reports := W.Reports(w.kernel, fds);
    if fds != [] {
      var init, last := fds[..|fds| - 1], fds[|fds| - 1];
      assert fds == init + [last] && last in fds;
      ScanReports(w, init, fd);
      if W.Matches(W.ReadinessOf(w.kernel, last), w.kernel.epoll[last].events) {
        LastReport(reports, fd);
        assert reports[..|reports| - 1] == W.Reports(w.kernel, init);
      }
      assert w.ioEvents[last].events.input;
    }
  }

  /** A batch of reports leaves a reader armed unless it resumes it. */
  lemma {:induction false} BatchReader(w: W.State, reports: seq<W.Report>, fd: Fd)
    requires W.Agree(w) && W.Fits(w, reports) && W.AllHeard(w) && fd != w.wakeUpFd
    ensures Resumed(fd, W.AllDue(w, reports)) <==> ReadReported(reports, fd) && W.ReadHandle(w, fd) != W.Noop
    ensures var w' := W.TakeReports(w, reports).0;
            && (fd in w'.ioEvents <==> fd in w.ioEvents)
            && W.ReadinessOf(w'.kernel, fd) == W.ReadinessOf(w.kernel, fd)
            && W.ReadHandle(w', fd) == if ReadReported(reports, fd) then W.Noop else W.ReadHandle(w, fd)
    decreases |reports|
  {
    if reports != [] {
      var init, last := reports[..|reports| - 1], reports[|reports| - 1];
      W.TakesLast(w, reports);
      BatchReader(w, init, fd);
      W.HeardBatch(w, init);
      var w1 := W.TakeReports(w, init).0;
      LastReport(reports, fd);
      LastResumed(fd, W.AllDue(w, init), W.Due(w, last));
      ReportReader(w1, last, fd);
      OneDue(w, last, fd);
    }
  }

  lemma OneDue(w: W.State, r: W.Report, fd: Fd)
    ensures Resumed(fd, W.Due(w, r)) <==> ForReader(r, fd) && W.ReadHandle(w, fd) != W.Noop
  {
    var slot := W.Slot(fd, false, W.ReadHandle(w, fd));
    if ForReader(r, fd) && W.ReadHandle(w, fd) != W.Noop {
      assert slot == W.Due(w, r)[0];
    }
  }

  lemma ReportReader(w: W.State, r: W.Report, fd: Fd)
    requires W.Agree(w) && W.ReportFits(w, r) && W.AllHeard(w) && fd != w.wakeUpFd
    ensures var w' := W.TakeReport(w, r).0;
            && (fd in w'.ioEvents <==> fd in w.ioEvents)
            && W.ReadinessOf(w'.kernel, fd) == W.ReadinessOf(w.kernel, fd)
            && W.ReadHandle(w', fd) == if ForReader(r, fd) then W.Noop else W.ReadHandle(w, fd)
  {
  }

  lemma WatchReader(w: W.State, fds: seq<Fd>, fd: Fd)
    requires W.Agree(w) && W.AllHeard(w) && W.CanScan(w.kernel, fds) && fd != w.wakeUpFd
    ensures Resumed(fd, Due(w, fds)) <==> fd in fds && CanRead(w, fd) && W.ReadHandle(w, fd) != W.Noop
    ensures var w' := W.WatchAll(w, fds).0;
            && (fd in w'.ioEvents <==> fd in w.ioEvents)
            && W.ReadinessOf(w'.kernel, fd) == W.ReadinessOf(w.kernel, fd)
            && W.ReadHandle(w', fd) == (if fd in fds && CanRead(w, fd) then W.Noop else W.ReadHandle(w, fd))
            && (fd !in fds ==> (Queued(w', fd) <==> Queued(w, fd)))
  {
    var reports := W.Reports(w.kernel, fds);
    var scanned := w.(kernel := W.Scanned(w.kernel, fds));
    W.ReportsFit(w, fds);
    ScanReports(w, fds, fd);
    BatchReader(scanned, reports, fd);
    W.SameEffects(w, scanned, reports);
    if fd !in fds {
      assert !W.IsAbout(reports, fd);
      assert W.SameEntry(scanned, W.WatchAll(w, fds).0, fd);
    }
  }

  lemma WatchHeard(w: W.State, fds: seq<Fd>)
    requires W.Agree(w) && W.AllHeard(w) && W.CanScan(w.kernel, fds)
    ensures W.AllHeard(W.WatchAll(w, fds).0)
  {
    W.ReportsFit(w, fds);
    W.HeardBatch(w.(kernel := W.Scanned(w.kernel, fds)), W.Reports(w.kernel, fds));
  }

  lemma WatchKeeps(s: State, fds: seq<Fd>)
    requires Inv(s) && Enabled(s, Watch(fds))
    ensures Inv(Apply(s, Watch(fds)))
  {
    var s' := Apply(s, Watch(fds));
    WatchHeard(s.w, fds);
    forall fd | fd in s'.readers
      ensures ReaderOk(s'.w, s'.batch, fd, s'.readers[fd])
    {
      assert ReaderOk(s.w, s.batch, fd, s.readers[fd]);
      WatchReader(s.w, fds, fd);
    }
  }

  lemma StepKeeps(s: State, step: Step)
    requires Inv(s) && Enabled(s, step)
    ensures Inv(Apply(s, step))
  {
    match step
    case Open(_, _) => OpenKeeps(s, step);
    case Try(_, _) => TryKeeps(s, step);
    case Fails(_) => TryKeeps(s, step);
    case Arm(_, _) => ArmKeeps(s, step);
    case Watch(fds) => WatchKeeps(s, fds);
    case Resume(all) => ResumeKeeps(s, all);
    case Timeout(_) => TimeoutKeeps(s, step);
    case Destroy(_) => DestroyKeeps(s, step);
    case ArmWrite(_, _) => ArmWriteKeeps(s, step);
    case DisarmWrite(_) => DisarmWriteKeeps(s, step);
    case Wrote(_) => WroteKeeps(s, step);
    case Event(fd, what) => EventKeeps(s, fd, what);
  }

  // ----- Whole runs -----

  /** Steps enabled one after the other. */
  ghost predicate ValidRun(s: State, steps: seq<Step>)
    requires Inv(s)
    decreases |steps|
  {
    steps != [] ==>
      && Enabled(s, steps[0])
      && (StepKeeps(s, steps[0]); ValidRun(Apply(s, steps[0]), steps[1..]))
  }

  ghost function Exec(s: State, steps: seq<Step>): State
    requires Inv(s) && ValidRun(s, steps)
    decreases |steps|
  {
    if steps == [] then s else (StepKeeps(s, steps[0]); Exec(Apply(s, steps[0]), steps[1..]))
  }

  lemma {:induction false} RunKeeps(s: State, steps: seq<Step>)
    requires Inv(s) && ValidRun(s, steps)
    ensures Inv(Exec(s, steps))
    decreases |steps|
  {
    if steps != [] {
      StepKeeps(s, steps[0]);
      RunKeeps(Apply(s, steps[0]), steps[1..]);
    }
  }

  ghost function Fresh(kernel: W.Kernel, wakeUpFd: Fd): (s: State)
    requires kernel.epoll == map[]
    ensures Inv(s)
  {
    State(W.Created(kernel, wakeUpFd), map[], [])
  }

  /** In every reachable state, a reader that waits while there is something to read has an
      edge pending, unless it is an acceptor whose accept failed for another reason when the
      edge was gone; and a reader that has been woken will be resumed, and finds something. */
  lemma NoLostWakeup(kernel: W.Kernel, wakeUpFd: Fd, steps: seq<Step>, fd: Fd)
    requires kernel.epoll == map[] && ValidRun(Fresh(kernel, wakeUpFd), steps)
    ensures var s := Exec(Fresh(kernel, wakeUpFd), steps);
            && (PcIs(s, fd, Armed) && CanRead(s.w, fd) && !s.readers[fd].spoiled ==> Queued(s.w, fd))
            && (fd in s.readers && s.readers[fd].spoiled ==> s.readers[fd].acceptor)
            && (PcIs(s, fd, Woken) ==> CanRead(s.w, fd) && Resumed(fd, s.batch))
  {
    RunKeeps(Fresh(kernel, wakeUpFd), steps);
    var s := Exec(Fresh(kernel, wakeUpFd), steps);
    if fd in s.readers {
      assert ReaderOk(s.w, s.batch, fd, s.readers[fd]);
    }
  }

  /** Whichever epoll_wait looks at a descriptor wakes a reader that has something to read, and
      no epoll_wait wakes one that has not. */
  lemma WatchWakesIff(s: State, fds: seq<Fd>, fd: Fd)
    requires Inv(s) && Enabled(s, Watch(fds)) && PcIs(s, fd, Armed)
    ensures PcIs(Apply(s, Watch(fds)), fd, Woken) <==> fd in fds && CanRead(s.w, fd)
  {
    assert ReaderOk(s.w, s.batch, fd, s.readers[fd]);
    WatchReader(s.w, fds, fd);
  }

  // ----- What the steps come to -----

  /** A read takes what there is, all of it or a part, and leaves the reader free; with nothing
      there and no hang-up the reader is about to wait. */
  lemma TryIs(s: State, fd: Fd, all: bool)
    requires Inv(s) && NobodyTried(s) && PcIs(s, fd, Idle)
    ensures Enabled(s, Try(fd, all))
    ensures var s', had := Apply(s, Try(fd, all)), W.ReadinessOf(s.w.kernel, fd);
            && PcIs(s', fd, if had.readable || had.hup then Idle else Tried)
            && (forall x :: x in s.readers && x != fd ==> x in s'.readers && s'.readers[x] == s.readers[x])
            && W.ReadinessOf(s'.w.kernel, fd) == (if all then had.(readable := false) else had)
  {
  }

  /** Nothing else comes before it is armed, with its own handle. */
  lemma ArmIs(s: State, fd: Fd, h: Handle)
    requires Inv(s) && PcIs(s, fd, Tried) && h != W.Noop
    ensures Enabled(s, Arm(fd, h)) && !Enabled(s, Try(fd, true)) && forall fds :: !Enabled(s, Watch(fds))
    ensures var s' := Apply(s, Arm(fd, h)); PcIs(s', fd, Armed) && W.ReadHandle(s'.w, fd) == h && s'.batch == s.batch
  {
    assert ReaderOk(s.w, s.batch, fd, s.readers[fd]);
  }

  /** A read that fails leaves its reader free; an accept that fails is about to wait. */
  lemma FailsIs(s: State, fd: Fd)
    requires Inv(s) && NobodyTried(s) && PcIs(s, fd, Idle)
    ensures Enabled(s, Fails(fd))
    ensures !s.readers[fd].acceptor ==> Apply(s, Fails(fd)) == s
    ensures s.readers[fd].acceptor ==> PcIs(Apply(s, Fails(fd)), fd, Tried)
  {
  }

  /** A reader that waits can time out, and is armed no longer. */
  lemma TimeoutIs(s: State, fd: Fd)
    requires Inv(s) && NobodyTried(s) && s.batch == [] && PcIs(s, fd, Armed)
    ensures Enabled(s, Timeout(fd))
    ensures var s' := Apply(s, Timeout(fd)); PcIs(s', fd, Idle) && W.ReadHandle(s'.w, fd) == W.Noop && s'.batch == []
  {
    assert ReaderOk(s.w, s.batch, fd, s.readers[fd]);
  }

  /** The first of a batch can always be resumed; a reader that was woken is then free. */
  lemma ResumeIs(s: State, all: bool)
    requires Inv(s) && NobodyTried(s) && s.batch != []
    ensures Enabled(s, Resume(all))
    ensures var s', slot := Apply(s, Resume(all)), s.batch[0];
            && s'.batch == s.batch[1..] && NobodyTried(s')
            && (!slot.write && PcIs(s, slot.fd, Woken) ==> PcIs(s', slot.fd, Idle))
            && (forall fd :: fd in s.readers && (slot.write || fd != slot.fd) ==>
                  fd in s'.readers && s'.readers[fd] == s.readers[fd])
  {
  }

  lemma WokenIsInBatch(s: State, fd: Fd)
    requires Inv(s) && PcIs(s, fd, Woken)
    ensures s.batch != []
  {
    assert ReaderOk(s.w, s.batch, fd, s.readers[fd]);
  }

  /** So whoever was woken reads again: resuming the batch gets to it. */
  lemma {:induction false} WokenReadsAgain(s: State, fd: Fd) returns (steps: seq<Step>)
    requires Inv(s) && NobodyTried(s) && PcIs(s, fd, Woken)
    ensures ValidRun(s, steps) && PcIs(Exec(s, steps), fd, Idle)
    ensures |steps| <= |s.batch| && forall step :: step in steps ==> step == Resume(true)
    decreases |s.batch|
  {
    WokenIsInBatch(s, fd);
    ResumeIs(s, true);
    StepKeeps(s, Resume(true));
    var s' := Apply(s, Resume(true));
    if PcIs(s', fd, Woken) {
      var more := WokenReadsAgain(s', fd);
      RunsOn(s, Resume(true), more);
      steps := [Resume(true)] + more;
    } else {
      RunsOn(s, Resume(true), []);
      steps := [Resume(true)] + [];
    }
  }

  // ----- Whether a waiting reader will be woken -----

  /** Steps after which epoll looks at the descriptor again whatever became of its edge. */
  predicate Concerns(step: Step, fd: Fd) {
    match step
    case Event(f, _) => f == fd
    case ArmWrite(f, _) => f == fd
    case DisarmWrite(f) => f == fd
    case Open(f, _) => f == fd
    case _ => false
  }

  predicate Quiet(steps: seq<Step>, fd: Fd) {
    forall k :: 0 <= k < |steps| ==> !Concerns(steps[k], fd)
  }

  predicate Wakeable(w: W.State, fd: Fd) {
    Queued(w, fd) && CanRead(w, fd)
  }

  /** Only the steps that concern a descriptor give back an edge that is gone. */
  lemma StaysAsleep(s: State, step: Step, fd: Fd)
    requires W.Agree(s.w) && Enabled(s, step) && !Concerns(step, fd) && !step.Watch?
    requires fd in s.readers && ReaderOk(s.w, s.batch, fd, s.readers[fd])
    requires !s.readers[fd].pc.Woken? && !Wakeable(s.w, fd)
    ensures fd in Apply(s, step).readers && !Apply(s, step).readers[fd].pc.Woken?
    ensures !Wakeable(Apply(s, step).w, fd)
  {
  }

  lemma WatchLeavesAsleep(s: State, fds: seq<Fd>, fd: Fd)
    requires Inv(s) && Enabled(s, Watch(fds))
    requires fd in s.readers && !s.readers[fd].pc.Woken? && !Wakeable(s.w, fd)
    ensures fd in Apply(s, Watch(fds)).readers && !Apply(s, Watch(fds)).readers[fd].pc.Woken?
    ensures !Wakeable(Apply(s, Watch(fds)).w, fd)
  {
    assert ReaderOk(s.w, s.batch, fd, s.readers[fd]);
    WatchReader(s.w, fds, fd);
  }

  lemma {:induction false} SleepsOn(s: State, steps: seq<Step>, fd: Fd)
    requires Inv(s) && ValidRun(s, steps) && Quiet(steps, fd)
    requires fd in s.readers && !s.readers[fd].pc.Woken? && !Wakeable(s.w, fd)
    ensures !PcIs(Exec(s, steps), fd, Woken) && !Wakeable(Exec(s, steps).w, fd)
    decreases |steps|
  {
    if steps != [] {
      assert !Concerns(steps[0], fd);
      assert ReaderOk(s.w, s.batch, fd, s.readers[fd]);
      if steps[0].Watch? { WatchLeavesAsleep(s, steps[0].fds, fd); } else { StaysAsleep(s, steps[0], fd); }
      StepKeeps(s, steps[0]);
      SleepsOn(Apply(s, steps[0]), steps[1..], fd);
    }
  }

  lemma ResumeLeavesWakeable(s: State, fd: Fd)
    requires W.Agree(s.w) && Enabled(s, Resume(false)) && PcIs(s, fd, Armed) && Wakeable(s.w, fd)
    ensures var s' := Apply(s, Resume(false));
            NobodyTried(s') && PcIs(s', fd, Armed) && Wakeable(s'.w, fd) && |s'.batch| < |s.batch|
  {
  }

  lemma RunsOn(s: State, step: Step, more: seq<Step>)
    requires Inv(s) && Enabled(s, step) && Inv(Apply(s, step)) && ValidRun(Apply(s, step), more)
    ensures ValidRun(s, [step] + more) && Exec(s, [step] + more) == Exec(Apply(s, step), more)
  {
    assert ([step] + more)[1..] == more;
  }

  lemma WakesNow(s: State, fd: Fd)
    requires Inv(s) && NobodyTried(s) && PcIs(s, fd, Armed) && Wakeable(s.w, fd) && s.batch == []
    ensures ValidRun(s, [Watch([fd])] + []) && PcIs(Exec(s, [Watch([fd])] + []), fd, Woken)
  {
    WatchWakesIff(s, [fd], fd);
    StepKeeps(s, Watch([fd]));
    RunsOn(s, Watch([fd]), []);
  }

  lemma RunsTwo(s: State, a: Step, b: Step)
    requires Inv(s) && Enabled(s, a) && Inv(Apply(s, a)) && Enabled(Apply(s, a), b) && Inv(Apply(Apply(s, a), b))
    ensures ValidRun(s, [a, b]) && Exec(s, [a, b]) == Apply(Apply(s, a), b)
  {
    RunsOn(Apply(s, a), b, []);
    RunsOn(s, a, [b]);
    assert [b] + [] == [b] && [a] + [b] == [a, b];
  }

  lemma RunsThree(s: State, a: Step, b: Step, c: Step)
    requires Inv(s) && Enabled(s, a) && Inv(Apply(s, a)) && Enabled(Apply(s, a), b)
    requires var s2 := Apply(Apply(s, a), b); Inv(s2) && Enabled(s2, c) && Inv(Apply(s2, c))
    ensures ValidRun(s, [a, b, c]) && Exec(s, [a, b, c]) == Apply(Apply(Apply(s, a), b), c)
  {
    RunsTwo(Apply(s, a), b, c);
    RunsOn(s, a, [b, c]);
    assert [a] + [b, c] == [a, b, c];
  }

  /** The loop finishes the batch and looks at the descriptor. */
  lemma {:induction false} WakesUp(s: State, fd: Fd) returns (steps: seq<Step>)
    requires Inv(s) && NobodyTried(s) && PcIs(s, fd, Armed) && Wakeable(s.w, fd)
    ensures ValidRun(s, steps) && Quiet(steps, fd) && PcIs(Exec(s, steps), fd, Woken)
    decreases |s.batch|
  {
    if s.batch == [] {
      WakesNow(s, fd);
      steps := [Watch([fd])] + [];
    } else {
      ResumeLeavesWakeable(s, fd);
      StepKeeps(s, Resume(false));
      var more := WakesUp(Apply(s, Resume(false)), fd);
      RunsOn(s, Resume(false), more);
      steps := [Resume(false)] + more;
    }
  }

  /** Some continuation wakes the reader without anything new happening at its descriptor. */
  ghost predicate CanBeWoken(s: State, fd: Fd)
    requires Inv(s)
  {
    exists steps :: ValidRun(s, steps) && Quiet(steps, fd) && PcIs(Exec(s, steps), fd, Woken)
  }

  /** A reader that waits can be woken without anything new happening at its descriptor if and
      only if there is something to read and its edge is pending: a wakeup is lost with the
      edge, and stays lost through every continuation. */
  lemma WokenIff(s: State, fd: Fd)
    requires Inv(s) && NobodyTried(s) && PcIs(s, fd, Armed)
    ensures CanBeWoken(s, fd) <==> Queued(s.w, fd) && CanRead(s.w, fd)
  {
    if Wakeable(s.w, fd) {
      var steps := WakesUp(s, fd);
    } else {
      forall steps | ValidRun(s, steps) && Quiet(steps, fd)
        ensures !PcIs(Exec(s, steps), fd, Woken)
      {
        SleepsOn(s, steps, fd);
      }
    }
  }

  /** An acceptor that fails for another reason than EAGAIN, and then waits. */
  function FailedThenArmed(s: State, fd: Fd, h: Handle): State
    requires W.Agree(s.w) && Enabled(s, Fails(fd)) && Enabled(Apply(s, Fails(fd)), Arm(fd, h))
  {
    Apply(Apply(s, Fails(fd)), Arm(fd, h))
  }

  lemma FailedThenArmedIs(s: State, fd: Fd, h: Handle)
    requires Inv(s) && Enabled(s, Fails(fd)) && s.readers[fd].acceptor && h != W.Noop
    ensures Enabled(Apply(s, Fails(fd)), Arm(fd, h)) && Inv(FailedThenArmed(s, fd, h))
    ensures var s' := FailedThenArmed(s, fd, h);
            && NobodyTried(s') && PcIs(s', fd, Armed)
            && (Queued(s'.w, fd) <==> Queued(s.w, fd)) && (CanRead(s'.w, fd) <==> CanRead(s.w, fd))
  {
    assert ReaderOk(s.w, s.batch, fd, s.readers[fd]);
    StepKeeps(s, Fails(fd));
    StepKeeps(Apply(s, Fails(fd)), Arm(fd, h));
  }

  /** It is woken, without anything new at its descriptor, exactly when the edge of what is
      there had not been taken before it tried. */
  lemma FailedAcceptIff(s: State, fd: Fd, h: Handle)
    requires Inv(s) && Enabled(s, Fails(fd)) && s.readers[fd].acceptor && h != W.Noop
    ensures Enabled(Apply(s, Fails(fd)), Arm(fd, h)) && Inv(FailedThenArmed(s, fd, h))
    ensures CanBeWoken(FailedThenArmed(s, fd, h), fd) <==> Queued(s.w, fd) && CanRead(s.w, fd)
  {
    FailedThenArmedIs(s, fd, h);
    WokenIff(FailedThenArmed(s, fd, h), fd);
  }

  // A connection that nobody has accepted, with its edge thrown away.
  ghost predicate Overlooked(s: State, fd: Fd) {
    && Inv(s) && NobodyTried(s) && PcIs(s, fd, Idle) && s.readers[fd].acceptor
    && CanRead(s.w, fd) && !Queued(s.w, fd)
  }

  lemma Listens(kernel: W.Kernel, wakeUpFd: Fd, fd: Fd)
    requires kernel.epoll == map[] && fd != wakeUpFd
    ensures var s := Fresh(kernel, wakeUpFd); Enabled(s, Open(fd, true)) && Inv(Apply(s, Open(fd, true)))
    ensures var s' := Apply(Fresh(kernel, wakeUpFd), Open(fd, true));
            NobodyTried(s') && PcIs(s', fd, Idle) && s'.readers[fd].acceptor && s'.batch == [] && W.WriteHandle(s'.w, fd) == W.Noop
  {
    StepKeeps(Fresh(kernel, wakeUpFd), Open(fd, true));
  }

  lemma EdgeComes(s: State, fd: Fd)
    requires Inv(s) && NobodyTried(s) && PcIs(s, fd, Idle) && s.readers[fd].acceptor && s.batch == []
    ensures var s' := Apply(s, Event(fd, W.Readable));
            && Inv(s') && NobodyTried(s') && s'.readers == s.readers && s'.batch == [] && Wakeable(s'.w, fd)
            && W.WriteHandle(s'.w, fd) == W.WriteHandle(s.w, fd)
  {
    assert ReaderOk(s.w, s.batch, fd, s.readers[fd]);
    StepKeeps(s, Event(fd, W.Readable));
  }

  /** A scan that finds nobody armed takes the edge and leaves everything else. */
  lemma EdgeTaken(w: W.State, fd: Fd)
    requires W.Agree(w) && W.CanScan(w.kernel, [fd]) && fd != w.wakeUpFd
    requires W.ReadHandle(w, fd) == W.Noop == W.WriteHandle(w, fd)
    ensures !Queued(W.WatchAll(w, [fd]).0, fd)
  {
    var scanned := w.(kernel := W.Scanned(w.kernel, [fd]));
    W.OneReport(w, fd);
    W.ReportsFit(w, [fd]);
    if W.Reports(w.kernel, [fd]) != [] {
      W.OneTaken(scanned, W.ReportFor(w.kernel, fd));
    }
  }

  lemma EdgeGoes(s: State, fd: Fd)
    requires Inv(s) && NobodyTried(s) && PcIs(s, fd, Idle) && s.readers[fd].acceptor && s.batch == []
    requires Wakeable(s.w, fd) && W.WriteHandle(s.w, fd) == W.Noop
    ensures Enabled(s, Watch([fd])) && Overlooked(Apply(s, Watch([fd])), fd)
  {
    assert ReaderOk(s.w, s.batch, fd, s.readers[fd]);
    StepKeeps(s, Watch([fd]));
    WatchReader(s.w, [fd], fd);
    EdgeTaken(s.w, fd);
    NobodyWoken(s, [fd]);
  }

  lemma NobodyWoken(s: State, fds: seq<Fd>)
    requires NobodyTried(s)
    ensures forall slots :: NobodyTried(s.(readers := Wake(s.readers, slots)))
  {
  }

  /** It does happen: a connection comes while nobody accepts, and its edge is thrown away ... */
  lemma ConnectionOverlooked(kernel: W.Kernel, wakeUpFd: Fd, fd: Fd)
    requires kernel.epoll == map[] && fd != wakeUpFd
    ensures var start, steps := Fresh(kernel, wakeUpFd), [Open(fd, true), Event(fd, W.Readable), Watch([fd])];
            ValidRun(start, steps) && Overlooked(Exec(start, steps), fd)
  {
    var s0 := Fresh(kernel, wakeUpFd);
    Listens(kernel, wakeUpFd, fd);
    var s1 := Apply(s0, Open(fd, true));
    EdgeComes(s1, fd);
    var s2 := Apply(s1, Event(fd, W.Readable));
    EdgeGoes(s2, fd);
    RunsThree(s0, Open(fd, true), Event(fd, W.Readable), Watch([fd]));
  }

  /** ... and an accept that fails then, for want of descriptors, say, waits for ever unless
      something new happens. */
  lemma OverlookedStays(s: State, fd: Fd, h: Handle)
    requires Overlooked(s, fd) && h != W.Noop
    ensures Enabled(s, Fails(fd)) && Enabled(Apply(s, Fails(fd)), Arm(fd, h))
    ensures Inv(FailedThenArmed(s, fd, h)) && PcIs(FailedThenArmed(s, fd, h), fd, Armed)
    ensures CanRead(FailedThenArmed(s, fd, h).w, fd) && !CanBeWoken(FailedThenArmed(s, fd, h), fd)
  {
    FailedThenArmedIs(s, fd, h);
    FailedAcceptIff(s, fd, h);
  }
}
