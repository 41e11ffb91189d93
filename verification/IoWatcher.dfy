/** The table of descriptors that an event loop watches, over a small model of an
    edge-triggered epoll. */
module IoWatcher {
  type Fd = nat
  type Handle = nat                    // a suspended coroutine
  const Noop: Handle := 0              // std::noop_coroutine()

  // EPOLLIN, EPOLLOUT and EPOLLET.
  datatype Mask = Mask(input: bool, output: bool, edge: bool)

  datatype IoEvent = IoEvent(events: Mask, readHandle: Handle, writeHandle: Handle)

  // ----- The kernel's side -----

  // What a descriptor is ready for; hup stands for EPOLLHUP and EPOLLERR.
  datatype Readiness = Readiness(readable: bool, writable: bool, hup: bool)

  // queued: on epoll's ready list.
  datatype Interest = Interest(events: Mask, queued: bool)

  datatype Kernel = Kernel(ready: map<Fd, Readiness>, epoll: map<Fd, Interest>)

  datatype Report = Report(fd: Fd, input: bool, output: bool, hup: bool)

  function ReadinessOf(k: Kernel, fd: Fd): Readiness {
    if fd in k.ready then k.ready[fd] else Readiness(false, false, false)
  }

  predicate Matches(r: Readiness, events: Mask) {
    (r.readable && events.input) || (r.writable && events.output) || r.hup
  }

  // Adding and modifying look at the descriptor's readiness again.
  function CtlAdd(k: Kernel, fd: Fd, events: Mask): Kernel
    requires fd !in k.epoll
  {
    k.(epoll := k.epoll[fd := Interest(events, Matches(ReadinessOf(k, fd), events))])
  }

  function CtlMod(k: Kernel, fd: Fd, events: Mask): Kernel
    requires fd in k.epoll
  {
    k.(epoll := k.epoll[fd := Interest(events, k.epoll[fd].queued || Matches(ReadinessOf(k, fd), events))])
  }

  function CtlDel(k: Kernel, fd: Fd): Kernel
    requires fd in k.epoll
  {
    k.(epoll := k.epoll - {fd})
  }

  /** Something happens at a descriptor: an edge, if its registration asks for it. */
  function Happens(k: Kernel, fd: Fd, what: Readiness): Kernel {
    var was := ReadinessOf(k, fd);
    var k' := k.(ready := k.ready[fd := Readiness(was.readable || what.readable, was.writable || what.writable, was.hup || what.hup)]);
    if fd in k.epoll && Matches(what, k.epoll[fd].events)
    then k'.(epoll := k.epoll[fd := k.epoll[fd].(queued := true)])
    else k'
  }

  /** A read or write uses up what the descriptor was ready for. */
  function Drained(k: Kernel, fd: Fd, read: bool): Kernel {
    var was := ReadinessOf(k, fd);
    k.(ready := k.ready[fd := if read then was.(readable := false) else was.(writable := false)])
  }

  function ReportFor(k: Kernel, fd: Fd): Report
    requires fd in k.epoll
  {
    var r, events := ReadinessOf(k, fd), k.epoll[fd].events;
    Report(fd, r.readable && events.input, r.writable && events.output, r.hup)
  }

  /** The descriptors an epoll_wait can look at: some of those on the ready list, each once. */
  predicate CanScan(k: Kernel, fds: seq<Fd>) {
    && (forall i, j :: 0 <= i < j < |fds| ==> fds[i] != fds[j])
    && (forall fd :: fd in fds ==> fd in k.epoll && k.epoll[fd].queued)
  }

  /** It reports those that are still ready, and takes the edge-triggered ones off the list. */
  function Reports(k: Kernel, fds: seq<Fd>): seq<Report>
    requires forall fd :: fd in fds ==> fd in k.epoll
  {
    if fds == [] then []
    else
      var last := fds[|fds| - 1];
      var before := Reports(k, fds[..|fds| - 1]);
      if Matches(ReadinessOf(k, last), k.epoll[last].events) then before + [ReportFor(k, last)] else before
  }

  function Scanned(k: Kernel, fds: seq<Fd>): Kernel {
    k.(epoll := map fd | fd in k.epoll :: if fd in fds && k.epoll[fd].events.edge then k.epoll[fd].(queued := false) else k.epoll[fd])
  }

  // ----- The watcher's side -----

  datatype State = State(ioEvents: map<Fd, IoEvent>, kernel: Kernel, wakeUpFd: Fd)

  function ReadHandle(s: State, fd: Fd): Handle {
    if fd in s.ioEvents then s.ioEvents[fd].readHandle else Noop
  }

  function WriteHandle(s: State, fd: Fd): Handle {
    if fd in s.ioEvents then s.ioEvents[fd].writeHandle else Noop
  }

  /** One entry, and what the kernel has of it: the same mask, with EPOLLOUT exactly while a
      write handle is armed. */
  predicate EntryAgrees(e: IoEvent, i: Interest, wakeUp: bool) {
    && e.events == i.events
    && (e.events.output <==> e.writeHandle != Noop)
    && (e.events.input || e.events.output)
    && (if wakeUp then e == IoEvent(Mask(true, false, false), Noop, Noop) else e.events.edge)
  }

  /** The table and epoll's set are of the same descriptors, with the same masks. */
  ghost predicate Agree(s: State) {
    && s.wakeUpFd in s.ioEvents
    && s.ioEvents.Keys == s.kernel.epoll.Keys
    && (forall fd :: fd in s.ioEvents ==> EntryAgrees(s.ioEvents[fd], s.kernel.epoll[fd], fd == s.wakeUpFd))
  }

  function Created(kernel: Kernel, wakeUpFd: Fd): State
    requires wakeUpFd !in kernel.epoll
  {
    var events := Mask(true, false, false);
    State(map[wakeUpFd := IoEvent(events, Noop, Noop)], CtlAdd(kernel, wakeUpFd, events), wakeUpFd)
  }

  function ListenRead(s: State, fd: Fd, h: Handle): State
    requires Agree(s)
  {
    if fd !in s.ioEvents then
      var events := Mask(true, false, true);
      s.(ioEvents := s.ioEvents[fd := IoEvent(events, h, Noop)], kernel := CtlAdd(s.kernel, fd, events))
    else s.(ioEvents := s.ioEvents[fd := s.ioEvents[fd].(readHandle := h)])
  }

  function ListenWrite(s: State, fd: Fd, h: Handle): State
    requires Agree(s)
  {
    var e := if fd in s.ioEvents then s.ioEvents[fd] else IoEvent(Mask(false, false, false), Noop, Noop);
    var events := e.events.(output := true, edge := true);
    s.(ioEvents := s.ioEvents[fd := e.(events := events, writeHandle := h)],
       kernel := if fd in s.ioEvents then CtlMod(s.kernel, fd, events) else CtlAdd(s.kernel, fd, events))
  }

  function StopRead(s: State, fd: Fd): State
    requires fd in s.ioEvents
  {
    s.(ioEvents := s.ioEvents[fd := s.ioEvents[fd].(readHandle := Noop)])
  }

  function StopWrite(s: State, fd: Fd): State
    requires fd in s.ioEvents && fd in s.kernel.epoll
  {
    var e := s.ioEvents[fd];
    var events := e.events.(output := false);
    if e.events.input
    then s.(ioEvents := s.ioEvents[fd := e.(events := events, writeHandle := Noop)], kernel := CtlMod(s.kernel, fd, events))
    else s.(ioEvents := s.ioEvents - {fd}, kernel := CtlDel(s.kernel, fd))
  }

  function StopAll(s: State, fd: Fd): State
    requires Agree(s)
  {
    if fd in s.ioEvents then s.(ioEvents := s.ioEvents - {fd}, kernel := CtlDel(s.kernel, fd)) else s
  }

  /** WatchIo for one report: the handles to resume, and their slots cleared. */
  function TakeRead(s: State, r: Report): (State, seq<Handle>)
    requires r.fd in s.ioEvents
  {
    var h := s.ioEvents[r.fd].readHandle;
    if (r.input || r.hup) && h != Noop then (StopRead(s, r.fd), [h]) else (s, [])
  }

  function TakeWrite(s: State, r: Report): (State, seq<Handle>)
    requires r.fd in s.ioEvents && r.fd in s.kernel.epoll
  {
    if r.output then (StopWrite(s, r.fd), [s.ioEvents[r.fd].writeHandle]) else (s, [])
  }

  function TakeReport(s: State, r: Report): (State, seq<Handle>)
    requires r.fd in s.ioEvents && r.fd in s.kernel.epoll
  {
    if r.fd == s.wakeUpFd then (s.(kernel := Drained(s.kernel, r.fd, true)), [])
    else
      var (s1, read) := TakeRead(s, r);
      var (s2, write) := TakeWrite(s1, r);
      (s2, read + write)
  }

  /** A batch of reports about the present registrations. */
  ghost predicate Fits(s: State, reports: seq<Report>) {
    && (forall i, j :: 0 <= i < j < |reports| ==> reports[i].fd != reports[j].fd)
    && (forall i :: 0 <= i < |reports| ==> ReportFits(s, reports[i]))
  }

  predicate ReportFits(s: State, r: Report) {
    && r.fd in s.ioEvents
    && (r.input ==> s.ioEvents[r.fd].events.input)
    && (r.output ==> s.ioEvents[r.fd].events.output)
  }

  /** All reports of a batch. An entry dies only by its own report, so the pointer that each
      report carries is still good when its turn comes. */
  function TakeReports(s: State, reports: seq<Report>): (r: (State, seq<Handle>))
    requires Agree(s) && Fits(s, reports)
    ensures Agree(r.0) && r.0.wakeUpFd == s.wakeUpFd
    ensures SameElsewhere(s, r.0, reports)
    decreases |reports|
  {
    if reports == [] then (s, [])
    else
      var n := |reports| - 1;
      var (s1, active) := TakeReports(s, reports[..n]);
      LastStillFits(s, s1, reports);
      ReportKeeps(s1, reports[n]);
      var (s2, more) := TakeReport(s1, reports[n]);
      ElsewhereSame(s, s1, s2, reports);
      (s2, active + more)
  }

  predicate SameEntry(s: State, s': State, fd: Fd) {
    && (fd in s.ioEvents <==> fd in s'.ioEvents)
    && (fd in s.ioEvents ==> s'.ioEvents[fd] == s.ioEvents[fd])
    && (fd in s.kernel.epoll <==> fd in s'.kernel.epoll)
    && (fd in s.kernel.epoll ==> s'.kernel.epoll[fd] == s.kernel.epoll[fd])
  }

  predicate IsAbout(reports: seq<Report>, fd: Fd) {
    exists r :: r in reports && r.fd == fd
  }

  ghost predicate SameElsewhere(s: State, s': State, reports: seq<Report>) {
    forall fd: Fd :: !IsAbout(reports, fd) ==> SameEntry(s, s', fd)
  }

  lemma LastStillFits(s: State, s1: State, reports: seq<Report>)
    requires Fits(s, reports) && reports != [] && SameElsewhere(s, s1, reports[..|reports| - 1])
    ensures ReportFits(s1, reports[|reports| - 1])
    ensures !IsAbout(reports[..|reports| - 1], reports[|reports| - 1].fd)
  {
    var n := |reports| - 1;
    var last := reports[n];
    assert ReportFits(s, reports[n]);
    forall r | r in reports[..n]
      ensures r.fd != last.fd
    {
      var i :| 0 <= i < n && reports[i] == r;
      assert reports[i].fd != reports[n].fd;
    }
    assert SameEntry(s, s1, last.fd);
  }

  lemma ElsewhereSame(s: State, s1: State, s2: State, reports: seq<Report>)
    requires reports != [] && SameElsewhere(s, s1, reports[..|reports| - 1])
    requires forall fd: Fd :: fd != reports[|reports| - 1].fd ==> SameEntry(s1, s2, fd)
    ensures SameElsewhere(s, s2, reports)
  {
    var n := |reports| - 1;
    forall fd: Fd | !IsAbout(reports, fd)
      ensures SameEntry(s, s2, fd)
    {
      assert reports[n] in reports;
      forall r | r in reports[..n] ensures r in reports && r.fd != fd {}
      assert !IsAbout(reports[..n], fd);
      assert SameEntry(s, s1, fd) && SameEntry(s1, s2, fd);
    }
  }

  // ----- Every operation keeps the table and the kernel in agreement -----

  lemma ListenReadKeeps(s: State, fd: Fd, h: Handle)
    requires Agree(s) && fd != s.wakeUpFd
    ensures Agree(ListenRead(s, fd, h))
  {
  }

  lemma ListenWriteKeeps(s: State, fd: Fd, h: Handle)
    requires Agree(s) && fd != s.wakeUpFd && h != Noop
    ensures Agree(ListenWrite(s, fd, h))
  {
  }

  lemma StopReadKeeps(s: State, fd: Fd)
    requires Agree(s) && fd in s.ioEvents && fd != s.wakeUpFd
    ensures Agree(StopRead(s, fd))
  {
  }

  lemma StopWriteKeeps(s: State, fd: Fd)
    requires Agree(s) && fd in s.ioEvents && fd != s.wakeUpFd
    ensures Agree(StopWrite(s, fd))
  {
  }

  lemma StopAllKeeps(s: State, fd: Fd)
    requires Agree(s) && fd != s.wakeUpFd
    ensures Agree(StopAll(s, fd))
  {
  }

  lemma ReportKeeps(s: State, r: Report)
    requires Agree(s) && ReportFits(s, r)
    ensures Agree(TakeReport(s, r).0)
    ensures TakeReport(s, r).0.wakeUpFd == s.wakeUpFd
    ensures forall fd: Fd :: fd != r.fd ==> SameEntry(s, TakeReport(s, r).0, fd)
  {
    if r.fd != s.wakeUpFd {
      var s1 := TakeRead(s, r).0;
      StopReadKeeps(s, r.fd);
      assert Agree(s1);
      StopWriteKeeps(s1, r.fd);
    }
  }

  /** What epoll reports fits the table. */
  lemma {:induction false} ReportsFit(s: State, fds: seq<Fd>)
    requires Agree(s) && CanScan(s.kernel, fds)
    ensures Fits(s, Reports(s.kernel, fds))
    ensures forall r :: r in Reports(s.kernel, fds) ==> r.fd in fds
    decreases |fds|
  {
    if fds != [] {
      var init, last := fds[..|fds| - 1], fds[|fds| - 1];
      ReportsFit(s, init);
      assert last in fds && ReportFits(s, ReportFor(s.kernel, last));
      forall r | r in Reports(s.kernel, init)
        ensures r.fd in fds && r.fd != last
      {
        var i :| 0 <= i < |init| && init[i] == r.fd;
        assert fds[i] == r.fd;
      }
    }
  }

  // ----- Where handles go -----

  // A coroutine waiting at a descriptor.
  datatype Slot = Slot(fd: Fd, write: bool, handle: Handle)

  function ReadSlot(s: State, fd: Fd): set<Slot> {
    if ReadHandle(s, fd) != Noop then {Slot(fd, false, ReadHandle(s, fd))} else {}
  }

  function WriteSlot(s: State, fd: Fd): set<Slot> {
    if WriteHandle(s, fd) != Noop then {Slot(fd, true, WriteHandle(s, fd))} else {}
  }

  /** Everybody who waits. */
  function Waiting(s: State): set<Slot> {
    set fd, w | fd in s.ioEvents && w in (ReadSlot(s, fd) + WriteSlot(s, fd)) :: w
  }

  lemma WaitingIs(s: State, w: Slot)
    ensures w in Waiting(s)
       <==> w.handle != Noop && w.handle == if w.write then WriteHandle(s, w.fd) else ReadHandle(s, w.fd)
  {
    if w.fd in s.ioEvents {
      assert w in Waiting(s) <==> w in ReadSlot(s, w.fd) + WriteSlot(s, w.fd);
    }
  }

  // What became of slots in a step.  lost: dropped without being resumed or stopped.
  datatype Effects = Effects(armed: multiset<Slot>, delivered: multiset<Slot>, stopped: multiset<Slot>, lost: multiset<Slot>)

  const Nothing := Effects(multiset{}, multiset{}, multiset{}, multiset{})

  function Plus(a: Effects, b: Effects): Effects {
    Effects(a.armed + b.armed, a.delivered + b.delivered, a.stopped + b.stopped, a.lost + b.lost)
  }

  function Count(s: State, w: Slot): nat {
    if w in Waiting(s) then 1 else 0
  }

  /** Slots armed have been delivered, stopped or lost, or wait still: each in one way. */
  ghost predicate Balanced(before: State, e: Effects, after: State) {
    forall w: Slot :: Count(before, w) + e.armed[w] == e.delivered[w] + e.stopped[w] + e.lost[w] + Count(after, w)
  }

  /** The slots that a report resumes, the reader first. */
  function Due(s: State, r: Report): seq<Slot> {
    ReadDue(s, r) + WriteDue(s, r)
  }

  function ReadDue(s: State, r: Report): seq<Slot> {
    if (r.input || r.hup) && ReadHandle(s, r.fd) != Noop then [Slot(r.fd, false, ReadHandle(s, r.fd))] else []
  }

  function WriteDue(s: State, r: Report): seq<Slot> {
    if r.output then [Slot(r.fd, true, WriteHandle(s, r.fd))] else []
  }

  /** The read slot that goes down with an entry made only for writing. */
  function Dropped(s: State, fd: Fd): set<Slot> {
    if fd in s.ioEvents && !s.ioEvents[fd].events.input then ReadSlot(s, fd) else {}
  }

  function LostBy(s: State, r: Report): set<Slot> {
    if r.output && ReadDue(s, r) == [] then Dropped(s, r.fd) else {}
  }

  function ReportEffects(s: State, r: Report): Effects {
    Nothing.(delivered := multiset(Due(s, r)), lost := multiset(LostBy(s, r)))
  }

  lemma StopReadWaiting(s: State, fd: Fd)
    requires Agree(s) && fd in s.ioEvents
    ensures Waiting(StopRead(s, fd)) == Waiting(s) - ReadSlot(s, fd)
  {
    forall w ensures w in Waiting(StopRead(s, fd)) <==> w in Waiting(s) - ReadSlot(s, fd) {
      WaitingIs(s, w);
      WaitingIs(StopRead(s, fd), w);
    }
  }

  lemma StopWriteWaiting(s: State, fd: Fd)
    requires Agree(s) && fd in s.ioEvents
    ensures Waiting(StopWrite(s, fd)) == Waiting(s) - WriteSlot(s, fd) - Dropped(s, fd)
  {
    forall w ensures w in Waiting(StopWrite(s, fd)) <==> w in Waiting(s) - WriteSlot(s, fd) - Dropped(s, fd) {
      WaitingIs(s, w);
      WaitingIs(StopWrite(s, fd), w);
    }
  }

  lemma SlotsWait(s: State, fd: Fd)
    ensures ReadSlot(s, fd) <= Waiting(s) && WriteSlot(s, fd) <= Waiting(s)
    ensures ReadSlot(s, fd) !! WriteSlot(s, fd)
  {
    WaitingIs(s, Slot(fd, false, ReadHandle(s, fd)));
    WaitingIs(s, Slot(fd, true, WriteHandle(s, fd)));
  }

  /** One report resumes the slots due, in order, and nobody twice. */
  lemma ReportResumes(s: State, r: Report)
    requires Agree(s) && ReportFits(s, r)
    ensures TakeReport(s, r).1 == Handles(Due(s, r)) && Noop !in TakeReport(s, r).1
  {
  }

  lemma ReportWaiting(s: State, r: Report)
    requires Agree(s) && ReportFits(s, r)
    ensures Waiting(TakeReport(s, r).0)
         == Waiting(s) - (set w | w in ReadDue(s, r)) - (set w | w in WriteDue(s, r)) - LostBy(s, r)
  {
    if r.fd == s.wakeUpFd {
      SameWaiting(s, TakeReport(s, r).0);
    } else {
      var s1 := TakeRead(s, r).0;
      StopReadWaiting(s, r.fd);
      StopReadKeeps(s, r.fd);
      assert Waiting(s1) == Waiting(s) - (set w | w in ReadDue(s, r));
      if r.output {
        StopWriteWaiting(s1, r.fd);
        assert (set w | w in WriteDue(s, r)) == WriteSlot(s1, r.fd);
        assert Dropped(s1, r.fd) == LostBy(s, r);
      }
    }
  }

  lemma ReportCounts(s: State, r: Report, w: Slot)
    requires Agree(s) && ReportFits(s, r)
    requires Waiting(TakeReport(s, r).0)
          == Waiting(s) - (set w | w in ReadDue(s, r)) - (set w | w in WriteDue(s, r)) - LostBy(s, r)
    ensures Count(s, w) == multiset(Due(s, r))[w] + multiset(LostBy(s, r))[w] + Count(TakeReport(s, r).0, w)
  {
    DueOnce(s, r, w);
  }

  lemma ReportBalanced(s: State, r: Report)
    requires Agree(s) && ReportFits(s, r)
    ensures Balanced(s, ReportEffects(s, r), TakeReport(s, r).0)
  {
    ReportWaiting(s, r);
    forall w: Slot
      ensures Count(s, w) == multiset(Due(s, r))[w] + multiset(LostBy(s, r))[w] + Count(TakeReport(s, r).0, w)
    {
      ReportCounts(s, r, w);
    }
  }

  lemma DueOnce(s: State, r: Report, w: Slot)
    requires Agree(s) && ReportFits(s, r)
    ensures multiset(Due(s, r))[w] == if w in ReadDue(s, r) || w in WriteDue(s, r) then 1 else 0
    ensures w in LostBy(s, r) ==> w !in ReadDue(s, r) && w !in WriteDue(s, r)
    ensures w in ReadDue(s, r) || w in WriteDue(s, r) || w in LostBy(s, r) ==> w in Waiting(s)
  {
    SlotsWait(s, r.fd);
    assert multiset(Due(s, r)) == multiset(ReadDue(s, r)) + multiset(WriteDue(s, r));
  }

  lemma Chained(s: State, a: Effects, s1: State, b: Effects, s2: State)
    requires Balanced(s, a, s1) && Balanced(s1, b, s2)
    ensures Balanced(s, Plus(a, b), s2)
  {
  }

  function Handles(slots: seq<Slot>): (hs: seq<Handle>)
    ensures |hs| == |slots| && forall i :: 0 <= i < |hs| ==> hs[i] == slots[i].handle
  {
    seq(|slots|, i requires 0 <= i < |slots| => slots[i].handle)
  }

  lemma SameWaiting(s: State, s': State)
    requires s.ioEvents == s'.ioEvents
    ensures Waiting(s) == Waiting(s')
  {
    forall w ensures w in Waiting(s) <==> w in Waiting(s') {
      WaitingIs(s, w);
      WaitingIs(s', w);
    }
  }

  function AllDue(s: State, reports: seq<Report>): seq<Slot> {
    if reports == [] then [] else AllDue(s, reports[..|reports| - 1]) + Due(s, reports[|reports| - 1])
  }

  function AllLost(s: State, reports: seq<Report>): multiset<Slot> {
    if reports == [] then multiset{}
    else AllLost(s, reports[..|reports| - 1]) + multiset(LostBy(s, reports[|reports| - 1]))
  }

  function BatchEffects(s: State, reports: seq<Report>): Effects {
    Nothing.(delivered := multiset(AllDue(s, reports)), lost := AllLost(s, reports))
  }

  lemma TakesLast(s: State, reports: seq<Report>)
    requires Agree(s) && Fits(s, reports) && reports != []
    ensures var n := |reports| - 1;
            && Fits(s, reports[..n])
            && var (s1, active) := TakeReports(s, reports[..n]);
            && ReportFits(s1, reports[n])
            && SameEntry(s, s1, reports[n].fd)
            && TakeReports(s, reports) == (TakeReport(s1, reports[n]).0, active + TakeReport(s1, reports[n]).1)
  {
    var n := |reports| - 1;
    LastStillFits(s, TakeReports(s, reports[..n]).0, reports);
  }

  lemma FitsPrefix(s: State, reports: seq<Report>, n: nat)
    requires Fits(s, reports) && n <= |reports|
    ensures Fits(s, reports[..n])
  {
    forall i | 0 <= i < n ensures ReportFits(s, reports[..n][i]) {
      assert reports[..n][i] == reports[i];
    }
  }

  lemma BatchNext(s: State, reports: seq<Report>, n: nat)
    requires Agree(s) && Fits(s, reports) && n < |reports|
    ensures Fits(s, reports[..n]) && Fits(s, reports[..n + 1])
    ensures var (s1, active) := TakeReports(s, reports[..n]);
            && ReportFits(s1, reports[n])
            && TakeReports(s, reports[..n + 1]) == (TakeReport(s1, reports[n]).0, active + TakeReport(s1, reports[n]).1)
  {
    FitsPrefix(s, reports, n);
    FitsPrefix(s, reports, n + 1);
    assert reports[..n + 1][..n] == reports[..n] && reports[..n + 1][n] == reports[n];
    TakesLast(s, reports[..n + 1]);
  }

  /** A batch resumes exactly the slots that its reports find armed at its start, in the order
      of the reports. */
  lemma {:induction false} BatchResumes(s: State, reports: seq<Report>)
    requires Agree(s) && Fits(s, reports)
    ensures TakeReports(s, reports).1 == Handles(AllDue(s, reports))
    ensures Noop !in TakeReports(s, reports).1
    decreases |reports|
  {
    if reports != [] {
      var init, last := reports[..|reports| - 1], reports[|reports| - 1];
      TakesLast(s, reports);
      BatchResumes(s, init);
      LastDue(s, TakeReports(s, init).0, last);
      ReportResumes(TakeReports(s, init).0, last);
      HandlesAppend(AllDue(s, init), Due(s, last));
    }
  }

  lemma HandlesAppend(a: seq<Slot>, b: seq<Slot>)
    ensures Handles(a + b) == Handles(a) + Handles(b)
  {
  }

  lemma {:induction false} BatchBalanced(s: State, reports: seq<Report>)
    requires Agree(s) && Fits(s, reports)
    ensures Balanced(s, BatchEffects(s, reports), TakeReports(s, reports).0)
    decreases |reports|
  {
    if reports != [] {
      var init, last := reports[..|reports| - 1], reports[|reports| - 1];
      TakesLast(s, reports);
      BatchBalanced(s, init);
      var s1 := TakeReports(s, init).0;
      LastDue(s, s1, last);
      ReportBalanced(s1, last);
      EffectsAdd(s, reports);
      Chained(s, BatchEffects(s, init), s1, ReportEffects(s1, last), TakeReports(s, reports).0);
    }
  }

  lemma LastDue(s: State, s1: State, r: Report)
    requires SameEntry(s, s1, r.fd)
    ensures Due(s1, r) == Due(s, r) && LostBy(s1, r) == LostBy(s, r)
  {
  }

  lemma EffectsAdd(s: State, reports: seq<Report>)
    requires reports != []
    ensures BatchEffects(s, reports)
         == Plus(BatchEffects(s, reports[..|reports| - 1]), ReportEffects(s, reports[|reports| - 1]))
  {
  }

  // ----- Whole runs -----

  datatype Step =
    | ArmRead(fd: Fd, h: Handle)
    | ArmWrite(fd: Fd, h: Handle)
    | DisarmRead(fd: Fd)
    | DisarmWrite(fd: Fd)
    | Forget(fd: Fd)
    | Watch(fds: seq<Fd>)
    | Event(fd: Fd, what: Readiness)
    | Use(fd: Fd, read: bool)

  predicate Enabled(s: State, step: Step) {
    match step
    case ArmRead(fd, h) => fd != s.wakeUpFd && ReadHandle(s, fd) == Noop
    case ArmWrite(fd, h) => fd != s.wakeUpFd && WriteHandle(s, fd) == Noop && h != Noop
    case DisarmRead(fd) => fd != s.wakeUpFd && fd in s.ioEvents
    case DisarmWrite(fd) => fd != s.wakeUpFd && fd in s.ioEvents
    case Forget(fd) => fd != s.wakeUpFd
    case Watch(fds) => CanScan(s.kernel, fds)
    case Event(fd, _) => true
    case Use(fd, _) => true
  }

  function WatchAll(s: State, fds: seq<Fd>): (r: (State, seq<Handle>))
    requires Agree(s) && CanScan(s.kernel, fds)
    ensures Agree(r.0) && r.0.wakeUpFd == s.wakeUpFd
  {
    ReportsFit(s, fds);
    var reports := Reports(s.kernel, fds);
    TakeReports(s.(kernel := Scanned(s.kernel, fds)), reports)
  }

  function Apply(s: State, step: Step): State
    requires Agree(s) && Enabled(s, step)
  {
    match step
    case ArmRead(fd, h) => ListenRead(s, fd, h)
    case ArmWrite(fd, h) => ListenWrite(s, fd, h)
    case DisarmRead(fd) => StopRead(s, fd)
    case DisarmWrite(fd) => StopWrite(s, fd)
    case Forget(fd) => StopAll(s, fd)
    case Watch(fds) => WatchAll(s, fds).0
    case Event(fd, what) => s.(kernel := Happens(s.kernel, fd, what))
    case Use(fd, read) => s.(kernel := Drained(s.kernel, fd, read))
  }

  function EffectsOf(s: State, step: Step): Effects
    requires Enabled(s, step)
  {
    match step
    case ArmRead(fd, h) => if h == Noop then Nothing else Nothing.(armed := multiset{Slot(fd, false, h)})
    case ArmWrite(fd, h) => Nothing.(armed := multiset{Slot(fd, true, h)})
    case DisarmRead(fd) => Nothing.(stopped := multiset(ReadSlot(s, fd)))
    case DisarmWrite(fd) => Nothing.(stopped := multiset(WriteSlot(s, fd)), lost := multiset(Dropped(s, fd)))
    case Forget(fd) => Nothing.(stopped := multiset(ReadSlot(s, fd)) + multiset(WriteSlot(s, fd)))
    case Watch(fds) => BatchEffects(s, Reports(s.kernel, fds))
    case Event(_, _) => Nothing
    case Use(_, _) => Nothing
  }

  lemma StepKeeps(s: State, step: Step)
    requires Agree(s) && Enabled(s, step)
    ensures Agree(Apply(s, step))
  {
    match step
    case ArmRead(fd, h) => ListenReadKeeps(s, fd, h);
    case ArmWrite(fd, h) => ListenWriteKeeps(s, fd, h);
    case DisarmRead(fd) => StopReadKeeps(s, fd);
    case DisarmWrite(fd) => StopWriteKeeps(s, fd);
    case Forget(fd) => StopAllKeeps(s, fd);
    case Watch(fds) =>
    case Event(fd, what) =>
    case Use(fd, read) =>
  }

  lemma ArmsBalance(s: State, w: Slot, s': State)
    requires w !in Waiting(s) && Waiting(s') == Waiting(s) + {w}
    ensures Balanced(s, Nothing.(armed := multiset{w}), s')
  {
  }

  lemma ArmReadWaiting(s: State, fd: Fd, h: Handle)
    requires Agree(s) && fd != s.wakeUpFd && ReadHandle(s, fd) == Noop
    ensures Waiting(ListenRead(s, fd, h)) == Waiting(s) + if h == Noop then {} else {Slot(fd, false, h)}
    ensures Slot(fd, false, h) !in Waiting(s)
  {
    var s' := ListenRead(s, fd, h);
    WaitingIs(s, Slot(fd, false, h));
    forall w ensures w in Waiting(s') <==> w in Waiting(s) + if h == Noop then {} else {Slot(fd, false, h)} {
      WaitingIs(s, w);
      WaitingIs(s', w);
    }
  }

  lemma ArmWriteWaiting(s: State, fd: Fd, h: Handle)
    requires Agree(s) && fd != s.wakeUpFd && WriteHandle(s, fd) == Noop && h != Noop
    ensures Waiting(ListenWrite(s, fd, h)) == Waiting(s) + {Slot(fd, true, h)}
    ensures Slot(fd, true, h) !in Waiting(s)
  {
    var s' := ListenWrite(s, fd, h);
    WaitingIs(s, Slot(fd, true, h));
    forall w ensures w in Waiting(s') <==> w in Waiting(s) + {Slot(fd, true, h)} {
      WaitingIs(s, w);
      WaitingIs(s', w);
    }
  }

  lemma ForgetWaiting(s: State, fd: Fd)
    requires Agree(s)
    ensures Waiting(StopAll(s, fd)) == Waiting(s) - ReadSlot(s, fd) - WriteSlot(s, fd)
  {
    forall w ensures w in Waiting(StopAll(s, fd)) <==> w in Waiting(s) - ReadSlot(s, fd) - WriteSlot(s, fd) {
      WaitingIs(s, w);
      WaitingIs(StopAll(s, fd), w);
    }
  }

  /** Every step accounts for every slot. */
  lemma StepBalanced(s: State, step: Step)
    requires Agree(s) && Enabled(s, step)
    ensures Balanced(s, EffectsOf(s, step), Apply(s, step))
  {
    var s' := Apply(s, step);
    match step
    case ArmRead(fd, h) =>
      ArmReadWaiting(s, fd, h);
      if h != Noop { ArmsBalance(s, Slot(fd, false, h), s'); }
    case ArmWrite(fd, h) =>
      ArmWriteWaiting(s, fd, h);
      ArmsBalance(s, Slot(fd, true, h), s');
    case DisarmRead(fd) =>
      SlotsWait(s, fd);
      StopReadWaiting(s, fd);
    case DisarmWrite(fd) =>
      SlotsWait(s, fd);
      StopWriteWaiting(s, fd);
    case Forget(fd) =>
      SlotsWait(s, fd);
      ForgetWaiting(s, fd);
    case Watch(fds) => WatchBalanced(s, fds);
    case Event(fd, what) => SameWaiting(s, s');
    case Use(fd, read) => SameWaiting(s, s');
  }

  lemma WatchBalanced(s: State, fds: seq<Fd>)
    requires Agree(s) && CanScan(s.kernel, fds)
    ensures Balanced(s, BatchEffects(s, Reports(s.kernel, fds)), WatchAll(s, fds).0)
    ensures WatchAll(s, fds).1 == Handles(AllDue(s, Reports(s.kernel, fds))) && Noop !in WatchAll(s, fds).1
  {
    var reports := Reports(s.kernel, fds);
    var scanned := s.(kernel := Scanned(s.kernel, fds));
    ReportsFit(s, fds);
    BatchBalanced(scanned, reports);
    BatchResumes(scanned, reports);
    SameWaiting(s, scanned);
    SameEffects(s, scanned, reports);
  }

  lemma {:induction false} SameEffects(s: State, s': State, reports: seq<Report>)
    requires s.ioEvents == s'.ioEvents
    ensures AllDue(s, reports) == AllDue(s', reports) && AllLost(s, reports) == AllLost(s', reports)
    decreases |reports|
  {
    if reports != [] {
      SameEffects(s, s', reports[..|reports| - 1]);
    }
  }

  predicate ValidRun(s: State, steps: seq<Step>)
    requires Agree(s)
    decreases |steps|
  {
    steps == [] || (Enabled(s, steps[0]) && (StepKeeps(s, steps[0]); ValidRun(Apply(s, steps[0]), steps[1..])))
  }

  /** The state at the end, and all that became of slots on the way. */
  function Exec(s: State, steps: seq<Step>): (r: (State, Effects))
    requires Agree(s) && ValidRun(s, steps)
    decreases |steps|
  {
    if steps == [] then (s, Nothing)
    else
      StepKeeps(s, steps[0]);
      var (s', e) := Exec(Apply(s, steps[0]), steps[1..]);
      (s', Plus(EffectsOf(s, steps[0]), e))
  }

  /** Over every run the table agrees with the kernel, and every slot armed has been delivered
      once, stopped once, lost once, or waits still. */
  lemma {:induction false} RunBalanced(s: State, steps: seq<Step>)
    requires Agree(s) && ValidRun(s, steps)
    ensures Agree(Exec(s, steps).0)
    ensures Balanced(s, Exec(s, steps).1, Exec(s, steps).0)
    decreases |steps|
  {
    if steps != [] {
      StepKeeps(s, steps[0]);
      StepBalanced(s, steps[0]);
      var s1 := Apply(s, steps[0]);
      RunBalanced(s1, steps[1..]);
      Chained(s, EffectsOf(s, steps[0]), s1, Exec(s1, steps[1..]).1, Exec(s, steps).0);
    }
  }

  // ----- Writers are never lost -----

  predicate Writable(s: State, fd: Fd) {
    ReadinessOf(s.kernel, fd).writable
  }

  lemma AppendedSlots(a: seq<Slot>, b: seq<Slot>, w: Slot)
    ensures w in a + b <==> w in a || w in b
  {
  }

  /** A scan delivers a writer just when it looks at its descriptor and there is room. */
  lemma {:induction false} WriterDueIff(s: State, fds: seq<Fd>, fd: Fd)
    requires Agree(s) && (forall x :: x in fds ==> x in s.kernel.epoll) && WriteHandle(s, fd) != Noop
    ensures Slot(fd, true, WriteHandle(s, fd)) in AllDue(s, Reports(s.kernel, fds)) <==> fd in fds && Writable(s, fd)
    decreases |fds|
  {
    if fds != [] {
      var init, last := fds[..|fds| - 1], fds[|fds| - 1];
      var w := Slot(fd, true, WriteHandle(s, fd));
      assert fds == init + [last];
      WriterDueIff(s, init, fd);
      var before, r := Reports(s.kernel, init), ReportFor(s.kernel, last);
      assert (before + [r])[..|before|] == before;
      AppendedSlots(AllDue(s, before), Due(s, r), w);
      WriterDueOf(s, last, w);
    }
  }

  lemma WriterDueOf(s: State, fd: Fd, w: Slot)
    requires Agree(s) && fd in s.kernel.epoll && w.write && w.handle != Noop && WriteHandle(s, w.fd) == w.handle
    ensures w in Due(s, ReportFor(s.kernel, fd)) <==> fd == w.fd && Writable(s, fd)
    ensures fd == w.fd && Writable(s, fd) ==> Matches(ReadinessOf(s.kernel, fd), s.kernel.epoll[fd].events)
  {
    var r := ReportFor(s.kernel, fd);
    AppendedSlots(ReadDue(s, r), WriteDue(s, r), w);
  }

  lemma WriterStaysIff(s: State, fds: seq<Fd>, fd: Fd, h: Handle)
    requires Agree(s) && CanScan(s.kernel, fds) && h != Noop
    ensures WriteHandle(WatchAll(s, fds).0, fd) == h <==> WriteHandle(s, fd) == h && !(fd in fds && Writable(s, fd))
  {
    var s' := WatchAll(s, fds).0;
    WatchBalanced(s, fds);
    WriterBalanced(s, fds, Slot(fd, true, h), s');
    WaitingIs(s, Slot(fd, true, h));
    WaitingIs(s', Slot(fd, true, h));
    if WriteHandle(s, fd) == h { WriterDueIff(s, fds, fd); }
  }

  /** After the scan it waits no longer just when it was delivered. */
  lemma WriterTakenIff(s: State, fds: seq<Fd>, fd: Fd)
    requires Agree(s) && CanScan(s.kernel, fds)
    ensures WriteHandle(WatchAll(s, fds).0, fd)
         == if fd in fds && Writable(s, fd) then Noop else WriteHandle(s, fd)
  {
    var before, after := WriteHandle(s, fd), WriteHandle(WatchAll(s, fds).0, fd);
    if before != Noop { WriterStaysIff(s, fds, fd, before); }
    if after != Noop { WriterStaysIff(s, fds, fd, after); }
  }

  lemma WriterBalanced(s: State, fds: seq<Fd>, w: Slot, s': State)
    requires Agree(s) && CanScan(s.kernel, fds) && w.write
    requires Balanced(s, BatchEffects(s, Reports(s.kernel, fds)), s')
    ensures Count(s', w) == if w in Waiting(s) && w !in AllDue(s, Reports(s.kernel, fds)) then 1 else 0
  {
    var reports := Reports(s.kernel, fds);
    LostAreReaders(s, reports, w);
    assert Count(s, w) == multiset(AllDue(s, reports))[w] + AllLost(s, reports)[w] + Count(s', w);
    assert w in AllDue(s, reports) <==> multiset(AllDue(s, reports))[w] > 0;
  }

  lemma {:induction false} LostAreReaders(s: State, reports: seq<Report>, w: Slot)
    requires w.write
    ensures AllLost(s, reports)[w] == 0
    decreases |reports|
  {
    if reports != [] {
      LostAreReaders(s, reports[..|reports| - 1], w);
    }
  }

  /** Scanning uses up no room to write. */
  lemma {:induction false} RoomStays(s: State, reports: seq<Report>, fd: Fd)
    requires Agree(s) && Fits(s, reports)
    ensures Writable(TakeReports(s, reports).0, fd) == Writable(s, fd)
    decreases |reports|
  {
    if reports != [] {
      var init := reports[..|reports| - 1];
      TakesLast(s, reports);
      RoomStays(s, init, fd);
    }
  }

  /** A writer that waits where there is room has an edge pending. */
  ghost predicate WriterOk(s: State, fd: Fd) {
    WriteHandle(s, fd) != Noop && Writable(s, fd) ==> fd in s.kernel.epoll && s.kernel.epoll[fd].queued
  }

  lemma WatchWriterOk(s: State, fds: seq<Fd>, fd: Fd)
    requires Agree(s) && CanScan(s.kernel, fds) && WriterOk(s, fd)
    ensures WriterOk(WatchAll(s, fds).0, fd)
  {
    var scanned, reports := s.(kernel := Scanned(s.kernel, fds)), Reports(s.kernel, fds);
    WriterTakenIff(s, fds, fd);
    ReportsFit(s, fds);
    RoomStays(scanned, reports, fd);
    if fd !in fds {
      assert !IsAbout(reports, fd);
      assert SameEntry(scanned, WatchAll(s, fds).0, fd);
    }
  }

  lemma StepWriterOk(s: State, step: Step, fd: Fd)
    requires Agree(s) && Enabled(s, step) && WriterOk(s, fd)
    ensures WriterOk(Apply(s, step), fd)
  {
    match step
    case Watch(fds) => WatchWriterOk(s, fds, fd);
    case _ =>
  }

  lemma {:induction false} RunWriterOk(s: State, steps: seq<Step>, fd: Fd)
    requires Agree(s) && ValidRun(s, steps) && WriterOk(s, fd)
    ensures Agree(Exec(s, steps).0) && WriterOk(Exec(s, steps).0, fd)
    decreases |steps|
  {
    if steps != [] {
      StepKeeps(s, steps[0]);
      StepWriterOk(s, steps[0], fd);
      RunWriterOk(Apply(s, steps[0]), steps[1..], fd);
    }
  }

  /** Arming a writer looks at its descriptor again, so over every run a writer that waits where
      there is room is about to be resumed: an epoll_wait that looks there delivers it. */
  lemma NoWriterLost(kernel: Kernel, wakeUpFd: Fd, steps: seq<Step>, fd: Fd)
    requires kernel.epoll == map[] && ValidRun(Created(kernel, wakeUpFd), steps)
    ensures var s := Exec(Created(kernel, wakeUpFd), steps).0;
            Agree(s) && (WriteHandle(s, fd) != Noop && Writable(s, fd) ==>
              CanScan(s.kernel, [fd]) && WriteHandle(s, fd) in WatchAll(s, [fd]).1)
  {
    RunWriterOk(Created(kernel, wakeUpFd), steps, fd);
    var s := Exec(Created(kernel, wakeUpFd), steps).0;
    if WriteHandle(s, fd) != Noop && Writable(s, fd) {
      WriterDueIff(s, [fd], fd);
      WatchBalanced(s, [fd]);
      InHandles(AllDue(s, Reports(s.kernel, [fd])), Slot(fd, true, WriteHandle(s, fd)));
    }
  }

  lemma InHandles(slots: seq<Slot>, w: Slot)
    requires w in slots
    ensures w.handle in Handles(slots)
  {
    var i :| 0 <= i < |slots| && slots[i] == w;
    assert Handles(slots)[i] == w.handle;
  }

  // ----- Descriptors registered for reading first -----

  /** Every entry has EPOLLIN, as when it was made by ListenReadEvent. */
  predicate AllHeard(s: State) {
    forall fd :: fd in s.ioEvents ==> s.ioEvents[fd].events.input
  }

  /** ListenWriteEvent finds an entry. */
  predicate ReadFirst(s: State, steps: seq<Step>)
    requires Agree(s) && ValidRun(s, steps)
    decreases |steps|
  {
    steps != [] ==>
      && (steps[0].ArmWrite? ==> steps[0].fd in s.ioEvents)
      && (StepKeeps(s, steps[0]); ReadFirst(Apply(s, steps[0]), steps[1..]))
  }

  lemma HeardBatch(s: State, reports: seq<Report>)
    requires Agree(s) && Fits(s, reports) && AllHeard(s)
    ensures AllHeard(TakeReports(s, reports).0) && AllLost(s, reports) == multiset{}
    ensures TakeReports(s, reports).0.ioEvents.Keys == s.ioEvents.Keys
    decreases |reports|
  {
    if reports != [] {
      var last := reports[|reports| - 1];
      TakesLast(s, reports);
      HeardBatch(s, reports[..|reports| - 1]);
      HeardReport(TakeReports(s, reports[..|reports| - 1]).0, last);
      assert LostBy(s, last) == {};
    }
  }

  lemma HeardReport(s: State, r: Report)
    requires Agree(s) && ReportFits(s, r) && AllHeard(s)
    ensures AllHeard(TakeReport(s, r).0) && TakeReport(s, r).0.ioEvents.Keys == s.ioEvents.Keys
  {
  }

  lemma HeardStep(s: State, step: Step)
    requires Agree(s) && Enabled(s, step) && AllHeard(s) && (step.ArmWrite? ==> step.fd in s.ioEvents)
    ensures AllHeard(Apply(s, step)) && EffectsOf(s, step).lost == multiset{}
    ensures step.Watch? ==> Apply(s, step).ioEvents.Keys == s.ioEvents.Keys
  {
    if step.Watch? {
      var reports := Reports(s.kernel, step.fds);
      ReportsFit(s, step.fds);
      HeardBatch(s.(kernel := Scanned(s.kernel, step.fds)), reports);
      SameEffects(s, s.(kernel := Scanned(s.kernel, step.fds)), reports);
    }
  }

  /** When every descriptor is registered for reading first, as sockets are, none is lost. */
  lemma {:induction false} NothingLost(s: State, steps: seq<Step>)
    requires Agree(s) && ValidRun(s, steps) && AllHeard(s) && ReadFirst(s, steps)
    ensures AllHeard(Exec(s, steps).0) && Exec(s, steps).1.lost == multiset{}
    decreases |steps|
  {
    if steps != [] {
      StepKeeps(s, steps[0]);
      HeardStep(s, steps[0]);
      NothingLost(Apply(s, steps[0]), steps[1..]);
    }
  }

  const Readable := Readiness(true, false, false)

  lemma OneReport(s: State, fd: Fd)
    requires Agree(s) && CanScan(s.kernel, [fd])
    ensures Reports(s.kernel, [fd])
         == if Matches(ReadinessOf(s.kernel, fd), s.kernel.epoll[fd].events) then [ReportFor(s.kernel, fd)] else []
  {
    assert [fd][..0] == [];
    assert Reports(s.kernel, []) == [];
  }

  lemma OneResumes(s: State, fd: Fd)
    requires Agree(s) && CanScan(s.kernel, [fd])
    ensures WatchAll(s, [fd]).1
         == if Matches(ReadinessOf(s.kernel, fd), s.kernel.epoll[fd].events) then Handles(Due(s, ReportFor(s.kernel, fd))) else []
  {
    OneReport(s, fd);
    WatchBalanced(s, [fd]);
    if Matches(ReadinessOf(s.kernel, fd), s.kernel.epoll[fd].events) {
      OneBatch(s, ReportFor(s.kernel, fd));
    } else {
      assert AllDue(s, []) == [];
    }
  }

  lemma OneTaken(s: State, r: Report)
    requires Agree(s) && ReportFits(s, r)
    ensures Fits(s, [r]) && TakeReports(s, [r]).0 == TakeReport(s, r).0
  {
    assert [r][..0] == [];
    assert TakeReports(s, []) == (s, []);
    TakesLast(s, [r]);
  }

  lemma OneBatch(s: State, r: Report)
    ensures AllDue(s, [r]) == Due(s, r) && BatchEffects(s, [r]) == ReportEffects(s, r)
  {
    assert [r][..0] == [];
    assert AllDue(s, [r]) == AllDue(s, []) + Due(s, r) == Due(s, r);
    assert AllLost(s, [r]) == AllLost(s, []) + multiset(LostBy(s, r));
  }

  /** ListenReadEvent does not add EPOLLIN to an entry made for writing: a reader is woken by
      data exactly when its entry was new or had EPOLLIN before. */
  lemma HeardIff(s: State, fd: Fd, h: Handle)
    requires Agree(s) && fd != s.wakeUpFd && ReadHandle(s, fd) == Noop && h != Noop
    requires ReadinessOf(s.kernel, fd) == Readiness(false, false, false)
    ensures Agree(DataFor(s, fd, h))
    ensures (CanScan(DataFor(s, fd, h).kernel, [fd]) && WatchAll(DataFor(s, fd, h), [fd]).1 == [h])
       <==> (fd !in s.ioEvents || s.ioEvents[fd].events.input)
  {
    var s' := DataFor(s, fd, h);
    DataForIs(s, fd, h);
    if s'.kernel.epoll[fd].queued {
      OneResumes(s', fd);
      assert Handles([Slot(fd, false, h)]) == [h];
    }
  }

  lemma DataForIs(s: State, fd: Fd, h: Handle)
    requires Agree(s) && Enabled(s, ArmRead(fd, h)) && ReadinessOf(s.kernel, fd) == Readiness(false, false, false)
    ensures var s' := DataFor(s, fd, h);
            && Agree(s') && fd in s'.ioEvents
            && ReadHandle(s', fd) == h && ReadinessOf(s'.kernel, fd) == Readable
            && s'.ioEvents[fd].events.input == (fd !in s.ioEvents || s.ioEvents[fd].events.input)
            && (s'.ioEvents[fd].events.input ==> s'.kernel.epoll[fd].queued)
  {
    StepKeeps(s, ArmRead(fd, h));
    StepKeeps(Apply(s, ArmRead(fd, h)), Event(fd, Readable));
  }

  /** A reader is armed, and then there is data. */
  function DataFor(s: State, fd: Fd, h: Handle): State
    requires Agree(s) && Enabled(s, ArmRead(fd, h))
  {
    StepKeeps(s, ArmRead(fd, h));
    Apply(Apply(s, ArmRead(fd, h)), Event(fd, Readable))
  }

  const BothReady := Readiness(true, true, false)

  // A reader on an entry made for writing, with data and room to write.
  ghost predicate Deaf(s: State, fd: Fd, w: Handle, r: Handle) {
    && Agree(s) && fd != s.wakeUpFd && fd in s.ioEvents && w != Noop && r != Noop
    && s.ioEvents[fd] == IoEvent(Mask(false, true, true), r, w)
    && ReadinessOf(s.kernel, fd) == BothReady && s.kernel.epoll[fd].queued
  }

  lemma DeafLoses(s: State, fd: Fd, w: Handle, r: Handle)
    requires Deaf(s, fd, w, r)
    ensures CanScan(s.kernel, [fd]) && EffectsOf(s, Watch([fd])).delivered == multiset{Slot(fd, true, w)}
    ensures EffectsOf(s, Watch([fd])).lost == multiset{Slot(fd, false, r)}
  {
    OneReport(s, fd);
    OneBatch(s, ReportFor(s.kernel, fd));
  }

  lemma DeafComes(s: State, fd: Fd, w: Handle, r: Handle)
    requires Agree(s) && fd != s.wakeUpFd && fd !in s.ioEvents && w != Noop && r != Noop
    requires ReadinessOf(s.kernel, fd) == Readiness(false, false, false)
    ensures var steps := [ArmWrite(fd, w), ArmRead(fd, r), Event(fd, BothReady)];
            ValidRun(s, steps) && Deaf(Exec(s, steps).0, fd, w, r)
  {
    var s1 := Apply(s, ArmWrite(fd, w));
    StepKeeps(s, ArmWrite(fd, w));
    var s2 := Apply(s1, ArmRead(fd, r));
    StepKeeps(s1, ArmRead(fd, r));
    assert s2.ioEvents[fd] == IoEvent(Mask(false, true, true), r, w);
    StepKeeps(s2, Event(fd, BothReady));
    var s3 := Apply(s2, Event(fd, BothReady));
    assert Deaf(s3, fd, w, r);
    RunsOne(s2, Event(fd, BothReady));
    RunsMore(s1, ArmRead(fd, r), [Event(fd, BothReady)]);
    RunsMore(s, ArmWrite(fd, w), [ArmRead(fd, r), Event(fd, BothReady)]);
  }

  lemma RunsOne(s: State, step: Step)
    requires Agree(s) && Enabled(s, step)
    ensures ValidRun(s, [step]) && Exec(s, [step]).0 == Apply(s, step)
  {
    StepKeeps(s, step);
    assert [step][1..] == [];
  }

  lemma RunsMore(s: State, step: Step, more: seq<Step>)
    requires Agree(s) && Enabled(s, step)
    requires Agree(Apply(s, step)) && ValidRun(Apply(s, step), more)
    ensures ValidRun(s, [step] + more) && Exec(s, [step] + more).0 == Exec(Apply(s, step), more).0
  {
    assert ([step] + more)[1..] == more;
  }

  /** Turning off the write interest keeps the reader exactly when there is none or the entry
      has EPOLLIN. */
  lemma StopWriteKeepsReaderIff(s: State, fd: Fd)
    requires Agree(s) && fd in s.ioEvents && fd != s.wakeUpFd
    ensures ReadHandle(StopWrite(s, fd), fd) == ReadHandle(s, fd)
       <==> s.ioEvents[fd].events.input || ReadHandle(s, fd) == Noop
  {
  }

  // ----- The watcher object -----

  class IoWatcher {
    var ioEvents: map<Fd, IoEvent>
    var kernel: Kernel
    const wakeUpFd: Fd

    function View(): State
      reads this
    {
      State(ioEvents, kernel, wakeUpFd)
    }

    /** Entries and epoll registrations agree; every method keeps this. */
    ghost predicate Valid()
      reads this
    {
      Agree(View())
    }

    constructor (eventFd: Fd, k: Kernel)
      requires k.epoll == map[]
      ensures Valid() && View() == Created(k, eventFd)
    {
      wakeUpFd := eventFd;
      ioEvents := map[eventFd := IoEvent(Mask(true, false, false), Noop, Noop)];
      kernel := CtlAdd(k, eventFd, Mask(true, false, false));
    }

    method ListenReadEvent(fd: Fd, handle: Handle)
      requires Valid() && fd != wakeUpFd && ReadHandle(View(), fd) == Noop
      modifies this
      ensures Valid() && View() == ListenRead(old(View()), fd, handle)
    {
      if fd !in ioEvents {
        var event := IoEvent(Mask(true, false, true), handle, Noop);
        ioEvents := ioEvents[fd := event];
        kernel := CtlAdd(kernel, fd, event.events);
      } else {
        ioEvents := ioEvents[fd := ioEvents[fd].(readHandle := handle)];
      }
    }

    method ListenWriteEvent(fd: Fd, handle: Handle)
      requires Valid() && fd != wakeUpFd && WriteHandle(View(), fd) == Noop && handle != Noop
      modifies this
      ensures Valid() && View() == ListenWrite(old(View()), fd, handle)
    {
      var add := fd !in ioEvents;
      var event := IoEvent(Mask(false, false, false), Noop, Noop);
      if !add { event := ioEvents[fd]; }
      event := event.(writeHandle := handle, events := event.events.(output := true, edge := true));
      ioEvents := ioEvents[fd := event];
      kernel := if add then CtlAdd(kernel, fd, event.events) else CtlMod(kernel, fd, event.events);
    }

    method StopListeningReadEvent(fd: Fd)
      requires Valid() && fd != wakeUpFd && fd in ioEvents
      modifies this
      ensures Valid() && View() == StopRead(old(View()), fd)
    {
      if ioEvents[fd].readHandle == Noop {
        assert ioEvents[fd] == ioEvents[fd].(readHandle := Noop);
        return;
      }
      ioEvents := ioEvents[fd := ioEvents[fd].(readHandle := Noop)];
    }

    method StopListeningWriteEvent(fd: Fd)
      requires Valid() && fd != wakeUpFd && fd in ioEvents
      modifies this
      ensures Valid() && View() == StopWrite(old(View()), fd)
    {
      StopWriteKeeps(View(), fd);
      var event := ioEvents[fd];
      event := event.(writeHandle := Noop, events := event.events.(output := false));
      ioEvents := ioEvents[fd := event];
      if event.events.input {
        kernel := CtlMod(kernel, fd, event.events);
      } else {
        kernel := CtlDel(kernel, fd);
        ioEvents := ioEvents - {fd};
      }
    }

    method StopListeningAll(fd: Fd)
      requires Valid() && fd != wakeUpFd
      modifies this
      ensures Valid() && View() == StopAll(old(View()), fd)
    {
      if fd !in ioEvents { return; }
      kernel := CtlDel(kernel, fd);
      ioEvents := ioEvents - {fd};
    }

    /** `fds` are the descriptors that this epoll_wait happens to look at. */
    method WatchIo(fds: seq<Fd>) returns (active: seq<Handle>)
      requires Valid() && CanScan(kernel, fds)
      modifies this
      ensures Valid() && (View(), active) == WatchAll(old(View()), fds)
      ensures active == Handles(AllDue(old(View()), Reports(old(kernel), fds))) && Noop !in active
    {
      ghost var s := View();
      var reports := Reports(kernel, fds);
      kernel := Scanned(kernel, fds);
      active := [];
      ReportsFit(s, fds);
      ghost var scanned := View();
      for n := 0 to |reports|
        invariant Fits(scanned, reports[..n])
        invariant (View(), active) == TakeReports(scanned, reports[..n])
      {
        BatchNext(scanned, reports, n);
        var more := Take(reports[n]);
        active := active + more;
      }
      assert reports[..|reports|] == reports;
      WatchBalanced(s, fds);
    }

    /** The body of WatchIo's loop. */
    method Take(r: Report) returns (active: seq<Handle>)
      requires Valid() && ReportFits(View(), r)
      modifies this
      ensures Valid() && (View(), active) == TakeReport(old(View()), r)
    {
      ReportKeeps(View(), r);
      active := [];
      if r.fd == wakeUpFd {
        kernel := Drained(kernel, r.fd, true);
        return;
      }
      StopReadKeeps(View(), r.fd);
      if (r.input || r.hup) && ioEvents[r.fd].readHandle != Noop {
        active := [ioEvents[r.fd].readHandle];
        ioEvents := ioEvents[r.fd := ioEvents[r.fd].(readHandle := Noop)];
      }
      assert View() == TakeRead(old(View()), r).0;
      assert active == TakeRead(old(View()), r).1;
      if r.output {
        active := active + [ioEvents[r.fd].writeHandle];
        StopListeningWriteEvent(r.fd);
      } else {
        assert active + [] == active;
      }
    }
  }
}
