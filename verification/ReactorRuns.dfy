/**
 Every interleaving of register, deregister and poll, with any number of threads in each.
 The lock sections of `register`, of each event and of the map removal are single steps; the
 kernel's epoll_wait, the DEL after the removal and the waker calls happen outside the lock.
 */
module ReactorRuns {
  import opened Options
  import opened Shared
  import opened Reactors

  /** Inside `poll`. */
  datatype PollPc =
    | Fetched(events: seq<Event>)                         // epoll_wait has returned
    | Collecting(events: seq<Event>, wakers: seq<Waker>)  // holds the lock
    | Calling(wakers: seq<Waker>)                         // lock released

  /** Where an accepted waker is. */
  datatype Fate = StoredFor(fd: Fd, isRead: bool) | Replaced | Dropped | Collected(tid: Tid) | Called

  datatype ReactorState = ReactorState(
    io: Io,
    lock: Target,
    pollers: map<Tid, PollPc>,
    deregs: map<Tid, Fd>,       // between the map removal and the DEL
    fates: map<Waker, Fate>,    // every waker accepted so far
    woken: seq<Waker>,          // wakers called, in order
    refused: set<Fd>            // descriptors whose last re-arm the kernel refused
  )

  datatype ReactorAction =
    | Register(fd: Fd, w: Waker, isRead: bool, refuse: bool)
    | Remove(fd: Fd)
    | Delete
    | Fetch(events: seq<Event>)
    | Lock
    | Handle(refuse: bool)
    | Unlock
    | Call
    | Poke

  ghost predicate ReactorInit(s: ReactorState) {
    && s.io == Io(map[], Kernel(map[], 0)) && s.lock.Nobody? && s.pollers == map[] && s.deregs == map[]
    && s.fates == map[] && s.woken == [] && s.refused == {}
  }

  /** EPOLLONESHOT: the descriptors of the returned events are disarmed. */
  function Disarm(interest: map<Fd, Mask>, events: seq<Event>): map<Fd, Mask> {
    map fd | fd in interest :: if HasEvent(events, fd) then Mask(false, false) else interest[fd]
  }

  predicate HasEvent(events: seq<Event>, fd: Fd) {
    exists n :: 0 <= n < |events| && events[n].FdEvent? && events[n].fd == fd
  }

  const MAX_EVENTS := 64

  ghost predicate ReactorEnabled(s: ReactorState, i: Tid, a: ReactorAction) {
    match a
    case Register(_, w, _, _) => s.lock.Nobody? && w !in s.fates
    case Remove(_) => s.lock.Nobody? && i !in s.deregs
    case Delete => i in s.deregs
    case Fetch(events) =>
      && i !in s.pollers && |events| <= MAX_EVENTS
      && (forall n :: 0 <= n < |events| ==> Deliverable(s.io.kernel, events[n]))
      && (forall n, m :: 0 <= n < m < |events| && events[n].FdEvent? && events[m].FdEvent? ==> events[n].fd != events[m].fd)
    case Lock => i in s.pollers && s.pollers[i].Fetched? && s.lock.Nobody?
    case Handle(_) => i in s.pollers && s.pollers[i].Collecting? && s.pollers[i].events != []
    case Unlock => i in s.pollers && s.pollers[i].Collecting? && s.pollers[i].events == []
    case Call => i in s.pollers && s.pollers[i].Calling?
    case Poke => true
  }

  /** The wakers of a registration get a new fate. */
  function Refate(fates: map<Waker, Fate>, ws: seq<Waker>, f: Fate): (r: map<Waker, Fate>) {
    map w | w in fates.Keys + (set v | v in ws) :: if w in ws then f else fates[w]
  }

  function Stored(reg: Registration): seq<Waker> {
    (if reg.read.Some? then [reg.read.value] else []) + (if reg.write.Some? then [reg.write.value] else [])
  }

  ghost function ReactorApply(s: ReactorState, i: Tid, a: ReactorAction): ReactorState
    requires ReactorEnabled(s, i, a)
  {
    match a
    case Register(fd, w, isRead, refuse) =>
      var (io, ok) := Registered(s.io, fd, w, isRead, refuse);
      if !ok then s
      else
        var previous := WakerOf(RegOf(s.io.regs, fd), isRead);
        var fates := if previous.Some? then s.fates[previous.value := Replaced] else s.fates;
        s.(io := io, fates := fates[w := StoredFor(fd, isRead)], refused := s.refused - {fd})
    case Remove(fd) =>
      if fd !in s.io.regs then s
      else
        s.(io := s.io.(regs := s.io.regs - {fd}), deregs := s.deregs[i := fd],
           fates := Refate(s.fates, Stored(s.io.regs[fd]), Dropped), refused := s.refused - {fd})
    case Delete =>
      s.(io := s.io.(kernel := CtlDel(s.io.kernel, s.deregs[i])), deregs := s.deregs - {i})
    case Fetch(events) =>
      s.(io := s.io.(kernel := s.io.kernel.(interest := Disarm(s.io.kernel.interest, events))),
         pollers := s.pollers[i := Fetched(events)])
    case Lock => s.(lock := Somebody(i), pollers := s.pollers[i := Collecting(s.pollers[i].events, [])])
    case Handle(refuse) =>
      var Collecting(events, wakers) := s.pollers[i];
      var e := events[0];
      var taken := TakenBy(s.io, e);
      s.(io := Handled(s.io, e, refuse),
         pollers := s.pollers[i := Collecting(events[1..], wakers + taken)],
         fates := Refate(s.fates, taken, Collected(i)),
         refused := if e.WakeEvent? || e.fd !in s.io.regs then s.refused
                    else if refuse && Wanted(Left(s.io.regs[e.fd], e)) != Mask(false, false) then s.refused + {e.fd}
                    else s.refused - {e.fd})
    case Unlock => s.(lock := Nobody, pollers := s.pollers[i := Calling(s.pollers[i].wakers)])
    case Call =>
      var ws := s.pollers[i].wakers;
      if ws == [] then s.(pollers := s.pollers - {i})
      else
        s.(pollers := s.pollers[i := Calling(ws[1..])], woken := s.woken + [ws[0]],
           fates := s.fates[ws[0] := Called])
    case Poke => s.(io := s.io.(kernel := s.io.kernel.(counter := Bump(s.io.kernel.counter))))
  }

  ghost predicate IsReactorRun(states: seq<ReactorState>, steps: seq<(Tid, ReactorAction)>) {
    && |states| == |steps| + 1
    && ReactorInit(states[0])
    && forall k :: 0 <= k < |steps| ==>
         && ReactorEnabled(states[k], steps[k].0, steps[k].1)
         && states[k + 1] == ReactorApply(states[k], steps[k].0, steps[k].1)
  }

  // ---- Invariants ----

  ghost predicate LockOk(s: ReactorState) {
    && (forall i :: i in s.pollers ==> (s.pollers[i].Collecting? <==> s.lock == Somebody(i)))
    && (s.lock.Somebody? ==> s.lock.tid in s.pollers)
  }

  ghost predicate MidDeregister(s: ReactorState, fd: Fd) {
    exists i :: i in s.deregs && s.deregs[i] == fd
  }

  /** The interest list is the map plus the descriptors between removal and DEL. */
  ghost predicate AgreeOk(s: ReactorState) {
    && (forall fd :: fd in s.io.regs ==> fd in s.io.kernel.interest)
    && (forall i :: i in s.deregs ==> s.deregs[i] in s.io.kernel.interest && s.deregs[i] !in s.io.regs)
    && (forall fd :: fd in s.io.kernel.interest ==> fd in s.io.regs || MidDeregister(s, fd))
    && (forall i, j :: i in s.deregs && j in s.deregs && i != j ==> s.deregs[i] != s.deregs[j])
  }

  predicate Armed(m: Mask, isRead: bool) { if isRead then m.read else m.write }

  function EventsOf(p: PollPc): seq<Event> {
    match p
    case Fetched(events) => events
    case Collecting(events, _) => events
    case Calling(_) => []
  }

  /** An event for the descriptor has been fetched and not yet handled. */
  ghost predicate EventPending(s: ReactorState, fd: Fd) {
    exists i :: i in s.pollers && HasEvent(EventsOf(s.pollers[i]), fd)
  }

  ghost predicate WakerReachable(s: ReactorState, fd: Fd, isRead: bool) {
    fd in s.io.regs && WakerOf(s.io.regs[fd], isRead).Some? && fd !in s.refused ==>
      || (fd in s.io.kernel.interest && Armed(s.io.kernel.interest[fd], isRead))
      || EventPending(s, fd)
  }

  ghost predicate ArmedOk(s: ReactorState) { forall fd, isRead :: WakerReachable(s, fd, isRead) }

  function WakersOf(p: PollPc): seq<Waker> {
    match p
    case Fetched(_) => []
    case Collecting(_, wakers) => wakers
    case Calling(wakers) => wakers
  }

  predicate Distinct(ws: seq<Waker>) { forall n, m :: 0 <= n < m < |ws| ==> ws[n] != ws[m] }

  predicate IsStored(io: Io, w: Waker, fd: Fd, isRead: bool) {
    fd in io.regs && WakerOf(io.regs[fd], isRead) == Some(w)
  }

  /** The waker is where its fate says, and nowhere else. */
  ghost predicate FateFits(s: ReactorState, w: Waker) {
    && (forall fd, isRead :: IsStored(s.io, w, fd, isRead) <==> w in s.fates && s.fates[w] == StoredFor(fd, isRead))
    && (forall i :: i in s.pollers ==> (w in WakersOf(s.pollers[i]) <==> w in s.fates && s.fates[w] == Collected(i)))
    && (w in s.fates && s.fates[w].Collected? ==> s.fates[w].tid in s.pollers)
    && (w in s.woken <==> w in s.fates && s.fates[w].Called?)
  }

  ghost predicate FatesOk(s: ReactorState) {
    && (forall w :: FateFits(s, w))
    && (forall i :: i in s.pollers ==> Distinct(WakersOf(s.pollers[i])))
    && Distinct(s.woken)
  }

  ghost predicate ReactorInv(s: ReactorState) {
    LockOk(s) && AgreeOk(s) && ArmedOk(s) && FatesOk(s)
  }
}
