/** What handling events does: to one slot, to a batch, and to the fate of a waker. */
module ReactorBatches {
  import opened Options
  import opened Shared
  import opened Reactors
  import opened ReactorRuns
  import opened ReactorProofs

  /** The event is for this direction; an error or a hang-up is for both. */
  predicate Reports(e: Event, fd: Fd, isRead: bool) {
    e.FdEvent? && e.fd == fd && (e.errOrHup || (if isRead then e.readable else e.writable))
  }

  /** An event takes exactly the wakers of the directions it reports, and leaves the others where they are. */
  lemma HandledMeans(io: Io, e: Event, refuse: bool, w: Waker, fd: Fd, isRead: bool)
    ensures IsStored(Handled(io, e, refuse), w, fd, isRead) <==> IsStored(io, w, fd, isRead) && !Reports(e, fd, isRead)
    ensures IsStored(io, w, fd, isRead) && Reports(e, fd, isRead) ==> w in TakenBy(io, e)
    ensures w in TakenBy(io, e) ==> e.FdEvent? && exists d :: IsStored(io, w, e.fd, d) && Reports(e, e.fd, d)
  {
    if w in TakenBy(io, e) {
      assert (IsStored(io, w, e.fd, true) && Reports(e, e.fd, true)) || (IsStored(io, w, e.fd, false) && Reports(e, e.fd, false));
    }
  }

  // ---- The batch and the machine ----

  lemma HandledLast(io: Io, events: seq<Event>, refusals: seq<bool>, e: Event, refuse: bool)
    requires |refusals| == |events|
    ensures var (io1, wakers) := HandledAll(io, events, refusals);
            HandledAll(io, events + [e], refusals + [refuse]) == (Handled(io1, e, refuse), wakers + TakenBy(io1, e))
  {
    assert (events + [e])[..|events|] == events && (refusals + [refuse])[..|events|] == refusals;
  }

  lemma {:induction false} HandledFirst(io: Io, e: Event, events: seq<Event>, refuse: bool, refusals: seq<bool>)
    requires |refusals| == |events|
    ensures var (io2, wakers) := HandledAll(Handled(io, e, refuse), events, refusals);
            HandledAll(io, [e] + events, [refuse] + refusals) == (io2, TakenBy(io, e) + wakers)
    decreases |events|
  {
    if events == [] {
      assert [e] + events == [] + [e] && [refuse] + refusals == [] + [refuse];
      HandledLast(io, [], [], e, refuse);
      assert [] + TakenBy(io, e) == TakenBy(io, e) + [];
    } else {
      var n := |events| - 1;
      var init, last, rs, r := events[..n], events[n], refusals[..n], refusals[n];
      assert events == init + [last] && refusals == rs + [r];
      assert [e] + events == [e] + init + [last] && [refuse] + refusals == [refuse] + rs + [r];
      HandledFirst(io, e, init, refuse, rs);
      HandledLast(io, [e] + init, [refuse] + rs, last, r);
      HandledLast(Handled(io, e, refuse), init, rs, last, r);
      var (io2, wakers) := HandledAll(Handled(io, e, refuse), init, rs);
      Associates(TakenBy(io, e), wakers, TakenBy(io2, last));
    }
  }

  /** Thread `i` handles the events it has fetched, one step each. */
  ghost function HandleSteps(s: ReactorState, i: Tid, refusals: seq<bool>): ReactorState
    requires i in s.pollers && s.pollers[i].Collecting? && |s.pollers[i].events| == |refusals|
    decreases |refusals|
  {
    if refusals == [] then s else HandleSteps(ReactorApply(s, i, Handle(refusals[0])), i, refusals[1..])
  }

  lemma HandleOne(s: ReactorState, i: Tid, refuse: bool)
    requires i in s.pollers && s.pollers[i].Collecting? && s.pollers[i].events != []
    ensures var s', e := ReactorApply(s, i, Handle(refuse)), s.pollers[i].events[0];
            && s'.io == Handled(s.io, e, refuse) && i in s'.pollers
            && s'.pollers[i] == Collecting(s.pollers[i].events[1..], s.pollers[i].wakers + TakenBy(s.io, e))
  {
  }

  lemma Associates(a: seq<Waker>, b: seq<Waker>, c: seq<Waker>)
    ensures a + (b + c) == a + b + c
  {
  }

  lemma HeadAndTail<T>(s: seq<T>)
    requires s != []
    ensures [s[0]] + s[1..] == s
  {
  }

  lemma BatchSplits(io: Io, events: seq<Event>, ws: seq<Waker>, refusals: seq<bool>)
    requires |events| == |refusals| && events != []
    ensures var rest := HandledAll(Handled(io, events[0], refusals[0]), events[1..], refusals[1..]);
            && HandledAll(io, events, refusals).0 == rest.0
            && ws + HandledAll(io, events, refusals).1 == ws + TakenBy(io, events[0]) + rest.1
  {
    HeadAndTail(events);
    HeadAndTail(refusals);
    HandledFirst(io, events[0], events[1..], refusals[0], refusals[1..]);
    Associates(ws, TakenBy(io, events[0]), HandledAll(Handled(io, events[0], refusals[0]), events[1..], refusals[1..]).1);
  }

  /** The loop of `poll` is the machine's steps: same registrations, same interest list, same wakers in the same order. */
  lemma {:induction false} BatchIsSteps(s: ReactorState, i: Tid, events: seq<Event>, ws: seq<Waker>, refusals: seq<bool>)
    requires i in s.pollers && s.pollers[i] == Collecting(events, ws) && |events| == |refusals|
    ensures var s' := HandleSteps(s, i, refusals);
            && s'.io == HandledAll(s.io, events, refusals).0 && i in s'.pollers
            && s'.pollers[i] == Collecting([], ws + HandledAll(s.io, events, refusals).1)
    decreases |refusals|
  {
    if refusals != [] {
      HandleOne(s, i, refusals[0]);
      BatchSplits(s.io, events, ws, refusals);
      BatchIsSteps(ReactorApply(s, i, Handle(refusals[0])), i, events[1..], ws + TakenBy(s.io, events[0]), refusals[1..]);
    } else {
      assert ws + [] == ws;
    }
  }

  // ---- The batch by itself ----

  predicate OnePerFd(events: seq<Event>) {
    forall n, m :: 0 <= n < m < |events| && events[n].FdEvent? && events[m].FdEvent? ==> events[n].fd != events[m].fd
  }

  /** A descriptor without an event in the batch keeps its registration. */
  lemma {:induction false} BatchLeavesOthers(io: Io, events: seq<Event>, refusals: seq<bool>, fd: Fd)
    requires |refusals| == |events| && !HasEvent(events, fd)
    ensures var io' := HandledAll(io, events, refusals).0;
            (fd in io'.regs <==> fd in io.regs) && (fd in io.regs ==> io'.regs[fd] == io.regs[fd])
  {
    if events != [] {
      var n := |events| - 1;
      assert !HasEvent(events[..n], fd) by {
        forall m | 0 <= m < n ensures !(events[..n][m].FdEvent? && events[..n][m].fd == fd) { assert events[m] == events[..n][m]; }
      }
      BatchLeavesOthers(io, events[..n], refusals[..n], fd);
      assert !(events[n].FdEvent? && events[n].fd == fd);
    }
  }

  /** What the events take from the registrations as they were, in the order of the events. */
  function AllTaken(io: Io, events: seq<Event>): seq<Waker> {
    if events == [] then [] else AllTaken(io, events[..|events| - 1]) + TakenBy(io, events[|events| - 1])
  }

  /** The wakers of a batch are those its events report, event after event. */
  lemma {:induction false} BatchTakesAll(io: Io, events: seq<Event>, refusals: seq<bool>)
    requires |refusals| == |events| && OnePerFd(events)
    ensures HandledAll(io, events, refusals).1 == AllTaken(io, events)
  {
    if events != [] {
      var n := |events| - 1;
      BatchTakesAll(io, events[..n], refusals[..n]);
      if events[n].FdEvent? {
        assert !HasEvent(events[..n], events[n].fd);
        BatchLeavesOthers(io, events[..n], refusals[..n], events[n].fd);
      }
    }
  }

  /** After the batch a waker is stored exactly where it was, if no event of the batch reported its direction. */
  lemma {:induction false} BatchMeans(io: Io, events: seq<Event>, refusals: seq<bool>, w: Waker, fd: Fd, isRead: bool)
    requires |refusals| == |events|
    ensures IsStored(HandledAll(io, events, refusals).0, w, fd, isRead) <==>
            IsStored(io, w, fd, isRead) && forall n :: 0 <= n < |events| ==> !Reports(events[n], fd, isRead)
    ensures IsStored(io, w, fd, isRead) && (exists n :: 0 <= n < |events| && Reports(events[n], fd, isRead)) ==>
            w in HandledAll(io, events, refusals).1
  {
    if events != [] {
      var n := |events| - 1;
      BatchMeans(io, events[..n], refusals[..n], w, fd, isRead);
      HandledMeans(HandledAll(io, events[..n], refusals[..n]).0, events[n], refusals[n], w, fd, isRead);
      assert forall m :: 0 <= m < n ==> events[..n][m] == events[m];
    }
  }

  // ---- Fates ----

  /** The only ways a waker's fate changes. */
  predicate FateMayChange(s: ReactorState, i: Tid, a: ReactorAction, f: Fate, f': Fate)
    requires ReactorEnabled(s, i, a)
  {
    match f
    case StoredFor(fd, isRead) =>
      || (a.Register? && a.fd == fd && a.isRead == isRead && f' == Replaced)
      || (a.Remove? && a.fd == fd && f' == Dropped)
      || (a.Handle? && Reports(s.pollers[i].events[0], fd, isRead) && f' == Collected(i))
    case Collected(j) => a.Call? && j == i && f' == Called
    case _ => false
  }

  lemma FateChange(s: ReactorState, i: Tid, a: ReactorAction, w: Waker)
    requires FatesOk(s) && ReactorEnabled(s, i, a) && w in s.fates
    ensures w in ReactorApply(s, i, a).fates
    ensures ReactorApply(s, i, a).fates[w] == s.fates[w] || FateMayChange(s, i, a, s.fates[w], ReactorApply(s, i, a).fates[w])
  {
    assert FateFits(s, w);
    match a
    case Register(fd, _, isRead, _) => assert IsStored(s.io, w, fd, isRead) <==> s.fates[w] == StoredFor(fd, isRead);
    case Remove(fd) => RemoveChange(s, i, fd, w);
    case Handle(refuse) => HandleChange(s, i, refuse, w);
    case Call => if s.pollers[i].wakers != [] && w == s.pollers[i].wakers[0] { assert w in WakersOf(s.pollers[i]); }
    case _ =>
  }

  lemma RemoveChange(s: ReactorState, i: Tid, fd: Fd, w: Waker)
    requires FateFits(s, w) && ReactorEnabled(s, i, Remove(fd)) && w in s.fates
    ensures w in ReactorApply(s, i, Remove(fd)).fates
    ensures var f' := ReactorApply(s, i, Remove(fd)).fates[w];
            f' == s.fates[w] || FateMayChange(s, i, Remove(fd), s.fates[w], f')
  {
    if fd in s.io.regs && w in Stored(s.io.regs[fd]) {
      assert IsStored(s.io, w, fd, true) || IsStored(s.io, w, fd, false);
    }
  }

  lemma HandleChange(s: ReactorState, i: Tid, refuse: bool, w: Waker)
    requires FateFits(s, w) && ReactorEnabled(s, i, Handle(refuse)) && w in s.fates
    ensures w in ReactorApply(s, i, Handle(refuse)).fates
    ensures var f' := ReactorApply(s, i, Handle(refuse)).fates[w];
            f' == s.fates[w] || FateMayChange(s, i, Handle(refuse), s.fates[w], f')
  {
    var e := s.pollers[i].events[0];
    if w in TakenBy(s.io, e) {
      HandledMeans(s.io, e, refuse, w, 0, true);
      var d :| IsStored(s.io, w, e.fd, d) && Reports(e, e.fd, d);
      assert s.fates[w] == StoredFor(e.fd, d);
    }
  }

  /**
   An accepted waker leaves its slot only by a new registration of the same direction, by a
   deregister, or by an event that reports its direction.
   */
  lemma StoredUntil(states: seq<ReactorState>, steps: seq<(Tid, ReactorAction)>, k: nat, w: Waker)
    requires IsReactorRun(states, steps) && k < |steps| && w in states[k].fates
    ensures ReactorEnabled(states[k], steps[k].0, steps[k].1) && w in states[k + 1].fates
    ensures || states[k + 1].fates[w] == states[k].fates[w]
            || FateMayChange(states[k], steps[k].0, steps[k].1, states[k].fates[w], states[k + 1].fates[w])
  {
    ReactorRunInv(states, steps, k);
    assert ReactorEnabled(states[k], steps[k].0, steps[k].1);
    FateChange(states[k], steps[k].0, steps[k].1, w);
  }

  /** A collected waker is called by the poller that collected it; it is never dropped. */
  lemma {:induction false} CollectedIsCalled(states: seq<ReactorState>, steps: seq<(Tid, ReactorAction)>, k: nat, m: nat, w: Waker)
    requires IsReactorRun(states, steps) && k <= m < |states| && w in states[k].fates && states[k].fates[w].Collected?
    ensures w in states[m].fates && (states[m].fates[w] == states[k].fates[w] || states[m].fates[w] == Called)
  {
    if k < m {
      CollectedIsCalled(states, steps, k, m - 1, w);
      StoredUntil(states, steps, m - 1, w);
    }
  }

  /** Handling an event collects every waker of a direction it reports. */
  lemma ReportedIsCollected(states: seq<ReactorState>, steps: seq<(Tid, ReactorAction)>, k: nat, w: Waker)
    requires IsReactorRun(states, steps) && k < |steps| && steps[k].1.Handle? && w in states[k].fates
    requires ReactorEnabled(states[k], steps[k].0, steps[k].1) && states[k].fates[w].StoredFor?
    requires Reports(states[k].pollers[steps[k].0].events[0], states[k].fates[w].fd, states[k].fates[w].isRead)
    ensures w in states[k + 1].fates && states[k + 1].fates[w] == Collected(steps[k].0)
  {
    ReactorRunInv(states, steps, k);
    var s, e := states[k], states[k].pollers[steps[k].0].events[0];
    assert FateFits(s, w);
    var StoredFor(fd, isRead) := s.fates[w];
    HandledMeans(s.io, e, steps[k].1.refuse, w, fd, isRead);
  }

  /** Calling takes the collected wakers in order, one at a time, and calls each. */
  lemma CallsInOrder(states: seq<ReactorState>, steps: seq<(Tid, ReactorAction)>, k: nat)
    requires IsReactorRun(states, steps) && k < |steps| && steps[k].1.Call? && steps[k].0 in states[k].pollers
    ensures var i, ws := steps[k].0, WakersOf(states[k].pollers[steps[k].0]);
            if ws == [] then i !in states[k + 1].pollers && states[k + 1].woken == states[k].woken
            else i in states[k + 1].pollers && WakersOf(states[k + 1].pollers[i]) == ws[1..] && states[k + 1].woken == states[k].woken + [ws[0]]
  {
    assert ReactorEnabled(states[k], steps[k].0, steps[k].1);
  }

  /** An accepted registration arms exactly the directions that have a waker, and touches no other descriptor. */
  lemma RegisterArmsWanted(states: seq<ReactorState>, steps: seq<(Tid, ReactorAction)>, k: nat)
    requires IsReactorRun(states, steps) && k < |steps| && steps[k].1.Register?
    requires !steps[k].1.refuse && !MidDeregister(states[k], steps[k].1.fd)
    ensures var io, io', a := states[k].io, states[k + 1].io, steps[k].1;
            && a.fd in io'.regs && a.fd in io'.kernel.interest
            && WakerOf(io'.regs[a.fd], a.isRead) == Some(a.w)
            && WakerOf(io'.regs[a.fd], !a.isRead) == WakerOf(RegOf(io.regs, a.fd), !a.isRead)
            && (forall d :: Armed(io'.kernel.interest[a.fd], d) <==> WakerOf(io'.regs[a.fd], d).Some?)
            && io'.regs - {a.fd} == io.regs - {a.fd} && io'.kernel.interest - {a.fd} == io.kernel.interest - {a.fd}
  {
    ReactorRunInv(states, steps, k);
    assert ReactorEnabled(states[k], steps[k].0, steps[k].1);
    OpsAreLegal(states[k], steps[k].0, steps[k].1);
  }

  /** Handling the wake event drains the eventfd and touches no registration; nothing else takes from the counter. */
  lemma CounterChange(states: seq<ReactorState>, steps: seq<(Tid, ReactorAction)>, k: nat)
    requires IsReactorRun(states, steps) && k < |steps|
    ensures ReactorEnabled(states[k], steps[k].0, steps[k].1)
    ensures var io, io', a := states[k].io, states[k + 1].io, steps[k].1;
            var drains := a.Handle? && states[k].pollers[steps[k].0].events[0].WakeEvent?;
            && (drains ==> io' == io.(kernel := io.kernel.(counter := 0)))
            && (!drains ==> io'.kernel.counter >= io.kernel.counter)
            && (a.Poke? ==> io' == io.(kernel := io'.kernel) && io'.kernel.interest == io.kernel.interest)
  {
    assert ReactorEnabled(states[k], steps[k].0, steps[k].1);
    CounterStep(states[k], steps[k].0, steps[k].1);
  }
}
