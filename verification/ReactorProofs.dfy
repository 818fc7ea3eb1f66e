/** The reactor invariant holds in every run. */
module ReactorProofs {
  import opened Options
  import opened Shared
  import opened Reactors
  import opened ReactorRuns

  lemma KeepsLock(s: ReactorState, i: Tid, a: ReactorAction)
    requires LockOk(s) && ReactorEnabled(s, i, a)
    ensures LockOk(ReactorApply(s, i, a))
  {
  }

  // ---- Interest-list agreement ----

  /**
   Register picks the operation the kernel expects, unless the descriptor is between the map
   removal and the DEL of a deregister; the re-arm and the DEL always do.
   */
  lemma OpsAreLegal(s: ReactorState, i: Tid, a: ReactorAction)
    requires AgreeOk(s) && ReactorEnabled(s, i, a)
    ensures match a
            case Register(fd, _, _, _) =>
              Legal(s.io.kernel, if fd in s.io.regs then Mod else Add, fd) <==> !MidDeregister(s, fd)
            case Handle(_) =>
              var e := s.pollers[i].events[0];
              e.FdEvent? && e.fd in s.io.regs ==> Legal(s.io.kernel, Mod, e.fd)
            case Delete => s.deregs[i] in s.io.kernel.interest
            case _ => true
  {
  }

  lemma IoKeepsAgree(s: ReactorState, i: Tid, a: ReactorAction)
    requires AgreeOk(s) && ReactorEnabled(s, i, a) && (a.Register? || a.Handle? || a.Fetch?)
    ensures AgreeOk(ReactorApply(s, i, a))
  {
    var s' := ReactorApply(s, i, a);
    OpsAreLegal(s, i, a);
    forall fd | fd in s'.io.kernel.interest ensures fd in s'.io.regs || MidDeregister(s', fd) {
      if fd in s.io.kernel.interest && fd !in s.io.regs {
        var j :| j in s.deregs && s.deregs[j] == fd;
        assert j in s'.deregs;
      }
    }
  }

  lemma RemovalKeepsAgree(s: ReactorState, i: Tid, a: ReactorAction)
    requires AgreeOk(s) && ReactorEnabled(s, i, a) && (a.Remove? || a.Delete?)
    ensures AgreeOk(ReactorApply(s, i, a))
  {
    var s' := ReactorApply(s, i, a);
    forall fd | fd in s'.io.kernel.interest ensures fd in s'.io.regs || MidDeregister(s', fd) {
      if a.Remove? && a.fd == fd && fd in s.io.regs {
        assert i in s'.deregs && s'.deregs[i] == fd;
      } else if fd !in s.io.regs {
        var j :| j in s.deregs && s.deregs[j] == fd;
        assert j in s'.deregs && s'.deregs[j] == fd;
      }
    }
  }

  lemma SameAgree(s: ReactorState, s': ReactorState)
    requires AgreeOk(s) && s'.io.regs == s.io.regs && s'.io.kernel.interest == s.io.kernel.interest && s'.deregs == s.deregs
    ensures AgreeOk(s')
  {
    forall fd | fd in s'.io.kernel.interest ensures fd in s'.io.regs || MidDeregister(s', fd) {
      assert fd in s.io.regs || MidDeregister(s, fd);
    }
  }

  lemma KeepsAgree(s: ReactorState, i: Tid, a: ReactorAction)
    requires AgreeOk(s) && ReactorEnabled(s, i, a)
    ensures AgreeOk(ReactorApply(s, i, a))
  {
    if a.Register? || a.Handle? || a.Fetch? { IoKeepsAgree(s, i, a); }
    else if a.Remove? || a.Delete? { RemovalKeepsAgree(s, i, a); }
    else { SameAgree(s, ReactorApply(s, i, a)); }
  }

  // ---- No stranded waker ----

  lemma RegisterArms(s: ReactorState, i: Tid, a: ReactorAction, fd: Fd, isRead: bool)
    requires AgreeOk(s) && ReactorEnabled(s, i, a) && a.Register? && WakerReachable(s, fd, isRead)
    ensures WakerReachable(ReactorApply(s, i, a), fd, isRead)
  {
    OpsAreLegal(s, i, a);
    PendingStays(s, ReactorApply(s, i, a), fd);
  }

  lemma PendingStays(s: ReactorState, s': ReactorState, fd: Fd)
    requires s'.pollers == s.pollers
    ensures EventPending(s', fd) == EventPending(s, fd)
  {
  }

  lemma FetchDisarms(s: ReactorState, i: Tid, a: ReactorAction, fd: Fd, isRead: bool)
    requires AgreeOk(s) && ReactorEnabled(s, i, a) && a.Fetch? && WakerReachable(s, fd, isRead)
    ensures WakerReachable(ReactorApply(s, i, a), fd, isRead)
  {
    var s' := ReactorApply(s, i, a);
    if HasEvent(a.events, fd) {
      assert i in s'.pollers && HasEvent(EventsOf(s'.pollers[i]), fd);
    } else if EventPending(s, fd) {
      var j :| j in s.pollers && HasEvent(EventsOf(s.pollers[j]), fd);
      assert j in s'.pollers && EventsOf(s'.pollers[j]) == EventsOf(s.pollers[j]);
    }
  }

  lemma HandleRearms(s: ReactorState, i: Tid, a: ReactorAction, fd: Fd, isRead: bool)
    requires AgreeOk(s) && ReactorEnabled(s, i, a) && a.Handle? && WakerReachable(s, fd, isRead)
    ensures WakerReachable(ReactorApply(s, i, a), fd, isRead)
  {
    var s' := ReactorApply(s, i, a);
    var e := s.pollers[i].events[0];
    OpsAreLegal(s, i, a);
    if e.WakeEvent? || e.fd != fd {
      if EventPending(s, fd) {
        var j :| j in s.pollers && HasEvent(EventsOf(s.pollers[j]), fd);
        if j == i { DropOther(s.pollers[i].events, fd); }
        assert j in s'.pollers && HasEvent(EventsOf(s'.pollers[j]), fd);
      }
    }
  }

  lemma DropOther(events: seq<Event>, fd: Fd)
    requires events != [] && HasEvent(events, fd) && (events[0].WakeEvent? || events[0].fd != fd)
    ensures HasEvent(events[1..], fd)
  {
    var n :| 0 <= n < |events| && events[n].FdEvent? && events[n].fd == fd;
    assert events[1..][n - 1] == events[n];
  }

  lemma OtherStepsReach(s: ReactorState, i: Tid, a: ReactorAction, fd: Fd, isRead: bool)
    requires AgreeOk(s) && ReactorEnabled(s, i, a) && WakerReachable(s, fd, isRead)
    requires !a.Register? && !a.Fetch? && !a.Handle?
    ensures WakerReachable(ReactorApply(s, i, a), fd, isRead)
  {
    var s' := ReactorApply(s, i, a);
    if EventPending(s, fd) {
      var j :| j in s.pollers && HasEvent(EventsOf(s.pollers[j]), fd);
      assert j in s'.pollers && EventsOf(s'.pollers[j]) == EventsOf(s.pollers[j]);
    }
  }

  lemma KeepsArmed(s: ReactorState, i: Tid, a: ReactorAction)
    requires AgreeOk(s) && ArmedOk(s) && ReactorEnabled(s, i, a)
    ensures ArmedOk(ReactorApply(s, i, a))
  {
    forall fd, isRead ensures WakerReachable(ReactorApply(s, i, a), fd, isRead) {
      assert WakerReachable(s, fd, isRead);
      match a {
        case Register(_, _, _, _) => RegisterArms(s, i, a, fd, isRead);
        case Fetch(_) => FetchDisarms(s, i, a, fd, isRead);
        case Handle(_) => HandleRearms(s, i, a, fd, isRead);
        case _ => OtherStepsReach(s, i, a, fd, isRead);
      }
    }
  }

  // ---- Waker conservation ----

  /** Accepting a waker changes the one slot it goes to, and the fate of what was there. */
  lemma RegisterMovesStored(s: ReactorState, i: Tid, a: ReactorAction, w: Waker, g: Fd, d: bool)
    requires FatesOk(s) && ReactorEnabled(s, i, a) && a.Register? && Registered(s.io, a.fd, a.w, a.isRead, a.refuse).1
    ensures var s' := ReactorApply(s, i, a);
            IsStored(s'.io, w, g, d) <==> w in s'.fates && s'.fates[w] == StoredFor(g, d)
  {
    assert FateFits(s, w);
    assert IsStored(s.io, w, g, d) <==> w in s.fates && s.fates[w] == StoredFor(g, d);
    assert IsStored(s.io, w, a.fd, a.isRead) <==> w in s.fates && s.fates[w] == StoredFor(a.fd, a.isRead);
  }

  /** The other side: a waker whose fate changes was in no list and is in none afterwards. */
  lemma RegisterLeavesLists(s: ReactorState, i: Tid, a: ReactorAction, w: Waker)
    requires FateFits(s, w) && ReactorEnabled(s, i, a) && a.Register?
    ensures var s' := ReactorApply(s, i, a);
            && s'.pollers == s.pollers && s'.woken == s.woken
            && (forall j :: j in s.pollers ==> (w in WakersOf(s.pollers[j]) <==> w in s'.fates && s'.fates[w] == Collected(j)))
            && (w in s'.fates && s'.fates[w].Collected? ==> s'.fates[w].tid in s.pollers)
            && (w in s.woken <==> w in s'.fates && s'.fates[w].Called?)
  {
    assert IsStored(s.io, w, a.fd, a.isRead) <==> w in s.fates && s.fates[w] == StoredFor(a.fd, a.isRead);
  }

  lemma RegisterFate(s: ReactorState, i: Tid, a: ReactorAction, w: Waker)
    requires FatesOk(s) && ReactorEnabled(s, i, a) && a.Register?
    ensures FateFits(ReactorApply(s, i, a), w)
  {
    var s' := ReactorApply(s, i, a);
    assert FateFits(s, w);
    if Registered(s.io, a.fd, a.w, a.isRead, a.refuse).1 {
      RegisterLeavesLists(s, i, a, w);
      forall g, d ensures IsStored(s'.io, w, g, d) <==> w in s'.fates && s'.fates[w] == StoredFor(g, d) {
        RegisterMovesStored(s, i, a, w, g, d);
      }
    }
  }

  /** The stored side of a fate, for a step that does not collect, drop or accept `w`. */
  lemma SameFate(s: ReactorState, s': ReactorState, w: Waker)
    requires FateFits(s, w)
    requires w in s'.fates <==> w in s.fates
    requires w in s.fates ==> s'.fates[w] == s.fates[w]
    requires forall fd, isRead :: IsStored(s'.io, w, fd, isRead) <==> IsStored(s.io, w, fd, isRead)
    requires forall i :: i in s.pollers && w in WakersOf(s.pollers[i]) ==> i in s'.pollers && w in WakersOf(s'.pollers[i])
    requires forall i :: i in s'.pollers && w in WakersOf(s'.pollers[i]) ==> i in s.pollers && w in WakersOf(s.pollers[i])
    requires w in s'.woken <==> w in s.woken
    ensures FateFits(s', w)
  {
    forall fd, isRead
      ensures IsStored(s'.io, w, fd, isRead) <==> w in s'.fates && s'.fates[w] == StoredFor(fd, isRead)
    {
      assert IsStored(s.io, w, fd, isRead) <==> w in s.fates && s.fates[w] == StoredFor(fd, isRead);
    }
  }

  /** The new fate of a waker that leaves its slot. */
  lemma LeavesSlot(s: ReactorState, s': ReactorState, w: Waker, fd: Fd, isRead: bool)
    requires FateFits(s, w) && IsStored(s.io, w, fd, isRead)
    requires w in s'.fates && !s'.fates[w].StoredFor? && !IsStored(s'.io, w, fd, isRead)
    requires forall g, d :: IsStored(s'.io, w, g, d) ==> IsStored(s.io, w, g, d)
    ensures forall g, d :: !IsStored(s'.io, w, g, d)
    ensures w !in s.woken && forall i :: i in s.pollers ==> w !in WakersOf(s.pollers[i])
  {
    forall g, d ensures !IsStored(s'.io, w, g, d) {
      assert IsStored(s.io, w, g, d) ==> s.fates[w] == StoredFor(g, d);
    }
  }

  lemma RemoveFate(s: ReactorState, i: Tid, a: ReactorAction, w: Waker)
    requires FatesOk(s) && ReactorEnabled(s, i, a) && a.Remove?
    ensures FateFits(ReactorApply(s, i, a), w)
  {
    var s' := ReactorApply(s, i, a);
    assert FateFits(s, w);
    if IsStored(s.io, w, a.fd, true) {
      LeavesSlot(s, s', w, a.fd, true);
    } else if IsStored(s.io, w, a.fd, false) {
      LeavesSlot(s, s', w, a.fd, false);
    } else {
      SameFate(s, s', w);
    }
  }

  /** The slot from which the event takes `w`. */
  predicate Takes(s: ReactorState, e: Event, w: Waker, isRead: bool) {
    && e.FdEvent? && IsStored(s.io, w, e.fd, isRead)
    && (e.errOrHup || (if isRead then e.readable else e.writable))
  }

  lemma TakenIff(s: ReactorState, e: Event, w: Waker)
    ensures w in TakenBy(s.io, e) <==> Takes(s, e, w, true) || Takes(s, e, w, false)
  {
  }

  lemma HandleTakes(s: ReactorState, i: Tid, a: ReactorAction, w: Waker, isRead: bool)
    requires FatesOk(s) && ReactorEnabled(s, i, a) && a.Handle? && Takes(s, s.pollers[i].events[0], w, isRead)
    ensures FateFits(ReactorApply(s, i, a), w)
  {
    var s' := ReactorApply(s, i, a);
    var e := s.pollers[i].events[0];
    assert FateFits(s, w);
    TakenIff(s, e, w);
    LeavesSlot(s, s', w, e.fd, isRead);
    assert s'.fates[w] == Collected(i);
  }

  lemma HandleFate(s: ReactorState, i: Tid, a: ReactorAction, w: Waker)
    requires FatesOk(s) && ReactorEnabled(s, i, a) && a.Handle?
    ensures FateFits(ReactorApply(s, i, a), w)
  {
    var s' := ReactorApply(s, i, a);
    var e := s.pollers[i].events[0];
    assert FateFits(s, w);
    TakenIff(s, e, w);
    if Takes(s, e, w, true) {
      HandleTakes(s, i, a, w, true);
    } else if Takes(s, e, w, false) {
      HandleTakes(s, i, a, w, false);
    } else {
      SameFate(s, s', w);
    }
  }

  lemma CallFate(s: ReactorState, i: Tid, a: ReactorAction, w: Waker)
    requires FatesOk(s) && ReactorEnabled(s, i, a) && a.Call?
    ensures FateFits(ReactorApply(s, i, a), w)
  {
    var s' := ReactorApply(s, i, a);
    var ws := s.pollers[i].wakers;
    assert FateFits(s, w);
    if ws != [] && w == ws[0] {
      assert w in WakersOf(s.pollers[i]);
      assert forall fd, isRead :: IsStored(s'.io, w, fd, isRead) == IsStored(s.io, w, fd, isRead);
      assert w !in WakersOf(s'.pollers[i]);
      assert w == s'.woken[|s.woken|];
    } else {
      SameFate(s, s', w);
    }
  }

  lemma OtherFate(s: ReactorState, i: Tid, a: ReactorAction, w: Waker)
    requires FatesOk(s) && ReactorEnabled(s, i, a) && !a.Register? && !a.Remove? && !a.Handle? && !a.Call?
    ensures FateFits(ReactorApply(s, i, a), w)
  {
    assert FateFits(s, w);
    SameFate(s, ReactorApply(s, i, a), w);
  }

  lemma KeepsDistinct(s: ReactorState, i: Tid, a: ReactorAction)
    requires FatesOk(s) && ReactorEnabled(s, i, a)
    ensures var s' := ReactorApply(s, i, a);
            Distinct(s'.woken) && forall j :: j in s'.pollers ==> Distinct(WakersOf(s'.pollers[j]))
  {
    if a.Call? && s.pollers[i].wakers != [] {
      assert FateFits(s, s.pollers[i].wakers[0]) && s.pollers[i].wakers[0] in WakersOf(s.pollers[i]);
    } else if a.Handle? {
      TakenIsNew(s, i, s.pollers[i].events[0]);
    }
  }

  /** What an event takes was not collected before, and is taken once. */
  lemma TakenIsNew(s: ReactorState, i: Tid, e: Event)
    requires FatesOk(s) && i in s.pollers
    ensures Distinct(WakersOf(s.pollers[i]) + TakenBy(s.io, e))
  {
    forall w | w in TakenBy(s.io, e) ensures w !in WakersOf(s.pollers[i]) {
      assert FateFits(s, w);
      TakenIff(s, e, w);
    }
    if e.FdEvent? && e.fd in s.io.regs && s.io.regs[e.fd].read.Some? {
      var r := s.io.regs[e.fd].read.value;
      assert FateFits(s, r) && IsStored(s.io, r, e.fd, true);
      assert !IsStored(s.io, r, e.fd, false);
    }
    assert Distinct(TakenBy(s.io, e));
    DistinctJoin(WakersOf(s.pollers[i]), TakenBy(s.io, e));
  }

  lemma DistinctJoin(a: seq<Waker>, b: seq<Waker>)
    requires Distinct(a) && Distinct(b) && forall w :: w in b ==> w !in a
    ensures Distinct(a + b)
  {
    forall n, m | 0 <= n < m < |a + b| ensures (a + b)[n] != (a + b)[m] {
      if n < |a| <= m { assert a[n] in a && b[m - |a|] in b; }
    }
  }

  lemma KeepsFates(s: ReactorState, i: Tid, a: ReactorAction)
    requires FatesOk(s) && ReactorEnabled(s, i, a)
    ensures FatesOk(ReactorApply(s, i, a))
  {
    KeepsDistinct(s, i, a);
    forall w ensures FateFits(ReactorApply(s, i, a), w) {
      match a {
        case Register(_, _, _, _) => RegisterFate(s, i, a, w);
        case Remove(_) => RemoveFate(s, i, a, w);
        case Handle(_) => HandleFate(s, i, a, w);
        case Call => CallFate(s, i, a, w);
        case _ => OtherFate(s, i, a, w);
      }
    }
  }

  lemma {:induction false} ReactorRunInv(states: seq<ReactorState>, steps: seq<(Tid, ReactorAction)>, k: nat)
    requires IsReactorRun(states, steps) && k < |states|
    ensures ReactorInv(states[k])
  {
    if k > 0 {
      ReactorRunInv(states, steps, k - 1);
      var s, i, a := states[k - 1], steps[k - 1].0, steps[k - 1].1;
      assert ReactorEnabled(s, i, a);
      KeepsLock(s, i, a);
      KeepsAgree(s, i, a);
      KeepsArmed(s, i, a);
      KeepsFates(s, i, a);
    }
  }

  // ---- Main results ----

  /**
   A stored waker whose descriptor's last re-arm was not refused has its direction armed, or an
   event for its descriptor has been fetched and not yet handled.
   */
  lemma NoStrandedWaker(states: seq<ReactorState>, steps: seq<(Tid, ReactorAction)>, k: nat, fd: Fd, isRead: bool)
    requires IsReactorRun(states, steps) && k < |states|
    requires fd in states[k].io.regs && WakerOf(states[k].io.regs[fd], isRead).Some? && fd !in states[k].refused
    ensures fd in states[k].io.kernel.interest
    ensures Armed(states[k].io.kernel.interest[fd], isRead) || EventPending(states[k], fd)
  {
    ReactorRunInv(states, steps, k);
    assert WakerReachable(states[k], fd, isRead);
  }

  /** With no descriptor mid-deregister the map and the interest list have the same keys. */
  lemma KeysAgree(states: seq<ReactorState>, steps: seq<(Tid, ReactorAction)>, k: nat, fd: Fd)
    requires IsReactorRun(states, steps) && k < |states|
    ensures fd in states[k].io.kernel.interest <==> fd in states[k].io.regs || MidDeregister(states[k], fd)
    ensures !(fd in states[k].io.regs && MidDeregister(states[k], fd))
  {
    ReactorRunInv(states, steps, k);
  }

  /**
   A registration fails exactly when the kernel refuses it or the descriptor is in the middle
   of a deregister, and then nothing has changed.
   */
  lemma RegisterFailsIff(states: seq<ReactorState>, steps: seq<(Tid, ReactorAction)>, k: nat)
    requires IsReactorRun(states, steps) && k < |steps| && steps[k].1.Register?
    ensures var a := steps[k].1;
            var ok := Registered(states[k].io, a.fd, a.w, a.isRead, a.refuse).1;
            && (ok <==> !a.refuse && !MidDeregister(states[k], a.fd))
            && (!ok ==> states[k + 1] == states[k])
            && (ok ==> IsStored(states[k + 1].io, a.w, a.fd, a.isRead))
  {
    ReactorRunInv(states, steps, k);
    assert ReactorEnabled(states[k], steps[k].0, steps[k].1);
    OpsAreLegal(states[k], steps[k].0, steps[k].1);
  }

  /** A run in which it fails without the kernel's refusal: thread 1 registers while thread 0 deregisters. */
  lemma HalfDeregisteredRefuses() returns (states: seq<ReactorState>, steps: seq<(Tid, ReactorAction)>)
    ensures IsReactorRun(states, steps) && |steps| == 3 && steps[2] == (1, Register(1, 11, true, false))
    ensures !Registered(states[2].io, 1, 11, true, false).1 && states[3] == states[2]
  {
    var s0 := ReactorState(Io(map[], Kernel(map[], 0)), Nobody, map[], map[], map[], [], {});
    states, steps := Extended([s0], [], 0, Register(1, 10, true, false));
    states, steps := Extended(states, steps, 0, Remove(1));
    HalfDeregistered(states[2]);
    states, steps := Extended(states, steps, 1, Register(1, 11, true, false));
  }

  lemma HalfDeregistered(s: ReactorState)
    requires s.io.regs == map[] && 1 in s.io.kernel.interest && s.lock.Nobody? && 11 !in s.fates
    ensures ReactorEnabled(s, 1, Register(1, 11, true, false)) && !Registered(s.io, 1, 11, true, false).1
    ensures ReactorApply(s, 1, Register(1, 11, true, false)) == s
  {
  }

  /** A direction whose waker survives an event is armed afterwards exactly unless the re-arm it needed was refused. */
  lemma SurvivorArmedIff(states: seq<ReactorState>, steps: seq<(Tid, ReactorAction)>, k: nat, isRead: bool)
    requires IsReactorRun(states, steps) && k < |steps| && steps[k].1.Handle?
    requires ReactorEnabled(states[k], steps[k].0, steps[k].1)
    requires var e := states[k].pollers[steps[k].0].events[0];
             e.FdEvent? && e.fd in states[k].io.regs && WakerOf(Left(states[k].io.regs[e.fd], e), isRead).Some?
    ensures var fd := states[k].pollers[steps[k].0].events[0].fd;
            && fd in states[k].io.kernel.interest && fd in states[k + 1].io.kernel.interest
            && (Armed(states[k + 1].io.kernel.interest[fd], isRead) <==>
                  !steps[k].1.refuse || Armed(states[k].io.kernel.interest[fd], isRead))
  {
    ReactorRunInv(states, steps, k);
    OpsAreLegal(states[k], steps[k].0, steps[k].1);
  }

  /** A poller takes the wake event off the eventfd. */
  ghost predicate DrainsAt(states: seq<ReactorState>, steps: seq<(Tid, ReactorAction)>, l: nat) {
    && l < |steps| && l < |states| && steps[l].1.Handle? && ReactorEnabled(states[l], steps[l].0, steps[l].1)
    && states[l].pollers[steps[l].0].events[0].WakeEvent?
  }

  lemma CounterStep(s: ReactorState, i: Tid, a: ReactorAction)
    requires ReactorEnabled(s, i, a)
    ensures a.Poke? ==> ReactorApply(s, i, a).io.kernel.counter > 0
    ensures !(a.Handle? && s.pollers[i].events[0].WakeEvent?) ==>
              ReactorApply(s, i, a).io.kernel.counter >= s.io.kernel.counter
  {
  }

  /** After a wake, epoll_wait keeps returning the wake event until a poller has drained the eventfd. */
  lemma {:induction false} PokeIsSeen(states: seq<ReactorState>, steps: seq<(Tid, ReactorAction)>, k: nat, m: nat)
    requires IsReactorRun(states, steps) && k < m < |states| && steps[k].1.Poke?
    ensures Deliverable(states[m].io.kernel, WakeEvent) || exists l :: k < l < m && DrainsAt(states, steps, l)
  {
    var s, i, a := states[m - 1], steps[m - 1].0, steps[m - 1].1;
    assert ReactorEnabled(s, i, a);
    CounterStep(s, i, a);
    if m > k + 1 {
      PokeIsSeen(states, steps, k, m - 1);
      if a.Handle? && s.pollers[i].events[0].WakeEvent? { assert DrainsAt(states, steps, m - 1); }
    }
  }

  /** An accepted waker is in one slot, or collected by one poller, or called once, or given up. */
  lemma WakerConservation(states: seq<ReactorState>, steps: seq<(Tid, ReactorAction)>, k: nat, w: Waker)
    requires IsReactorRun(states, steps) && k < |states| && w in states[k].fates
    ensures var s := states[k];
            match s.fates[w]
            case StoredFor(fd, isRead) =>
              && w !in s.woken && (forall i :: i in s.pollers ==> w !in WakersOf(s.pollers[i]))
              && (forall g, d :: IsStored(s.io, w, g, d) <==> g == fd && d == isRead)
            case Collected(i) =>
              && w !in s.woken && i in s.pollers && Distinct(WakersOf(s.pollers[i]))
              && (forall j :: j in s.pollers ==> (w in WakersOf(s.pollers[j]) <==> j == i))
              && (forall g, d :: !IsStored(s.io, w, g, d))
            case Called =>
              && w in s.woken && Distinct(s.woken) && (forall i :: i in s.pollers ==> w !in WakersOf(s.pollers[i]))
              && (forall g, d :: !IsStored(s.io, w, g, d))
            case _ =>
              && w !in s.woken && (forall i :: i in s.pollers ==> w !in WakersOf(s.pollers[i]))
              && (forall g, d :: !IsStored(s.io, w, g, d))
  {
    ReactorRunInv(states, steps, k);
    assert FateFits(states[k], w);
  }

  /** Descriptor 1 with read waker 10 and write waker 11, before and after its write side fires. */
  ghost function BothRegistered(mask: Mask, pollers: map<Tid, PollPc>): ReactorState {
    ReactorState(Io(map[1 := Registration(Some(10), Some(11))], Kernel(map[1 := mask], 0)), Nobody, pollers, map[],
                 map[10 := StoredFor(1, true), 11 := StoredFor(1, false)], [], {})
  }

  lemma RegistersBoth(s0: ReactorState, s1: ReactorState)
    requires ReactorInit(s0) && s1 == ReactorApply(s0, 0, Register(1, 10, true, false))
    ensures ReactorEnabled(s1, 0, Register(1, 11, false, false))
    ensures ReactorApply(s1, 0, Register(1, 11, false, false)) == BothRegistered(Mask(true, true), map[])
  {
  }

  lemma WriteFires(s2: ReactorState, e: Event)
    requires s2 == BothRegistered(Mask(true, true), map[]) && e == FdEvent(1, false, true, false)
    ensures ReactorEnabled(s2, 0, Fetch([e]))
    ensures ReactorApply(s2, 0, Fetch([e])) == BothRegistered(Mask(false, false), map[0 := Fetched([e])])
  {
    assert [e][0].FdEvent? && HasEvent([e], 1);
  }

  lemma RearmRefused(s4: ReactorState, s5: ReactorState, e: Event)
    requires s4 == BothRegistered(Mask(false, false), map[0 := Collecting([e], [])]).(lock := Somebody(0))
    requires e == FdEvent(1, false, true, false) && s5 == ReactorApply(s4, 0, Handle(true))
    ensures IsStored(s5.io, 10, 1, true) && s5.io.kernel.interest == map[1 := Mask(false, false)] && !EventPending(s5, 1)
  {
    assert s5.pollers.Keys == {0} && EventsOf(s5.pollers[0]) == [];
  }

  /**
   Without the condition the promise fails: both directions of descriptor 1 are registered, the
   write side fires, and the kernel refuses to re-arm the read side.
   */
  lemma RefusedRearmStrands() returns (states: seq<ReactorState>, steps: seq<(Tid, ReactorAction)>)
    ensures IsReactorRun(states, steps)
    ensures var s := states[|states| - 1];
            && IsStored(s.io, 10, 1, true) && 1 in s.io.kernel.interest
            && !Armed(s.io.kernel.interest[1], true) && !EventPending(s, 1)
  {
    var e := FdEvent(1, false, true, false);
    states, steps := WriteSideFetched(e);
    states, steps := Extended(states, steps, 0, Lock);
    var s4 := states[|steps|];
    states, steps := Extended(states, steps, 0, Handle(true));
    RearmRefused(s4, states[|steps|], e);
  }

  lemma WriteSideFetched(e: Event) returns (states: seq<ReactorState>, steps: seq<(Tid, ReactorAction)>)
    requires e == FdEvent(1, false, true, false)
    ensures IsReactorRun(states, steps)
    ensures states[|steps|] == BothRegistered(Mask(false, false), map[0 := Fetched([e])])
  {
    var s0 := ReactorState(Io(map[], Kernel(map[], 0)), Nobody, map[], map[], map[], [], {});
    states, steps := Extended([s0], [], 0, Register(1, 10, true, false));
    RegistersBoth(s0, states[1]);
    states, steps := Extended(states, steps, 0, Register(1, 11, false, false));
    WriteFires(states[2], e);
    states, steps := Extended(states, steps, 0, Fetch([e]));
  }

  lemma Extended(states: seq<ReactorState>, steps: seq<(Tid, ReactorAction)>, i: Tid, a: ReactorAction)
      returns (states': seq<ReactorState>, steps': seq<(Tid, ReactorAction)>)
    requires IsReactorRun(states, steps) && ReactorEnabled(states[|steps|], i, a)
    ensures IsReactorRun(states', steps') && steps' == steps + [(i, a)]
    ensures states'[|steps|] == states[|steps|] && states'[|steps'|] == ReactorApply(states[|steps|], i, a)
  {
    states', steps' := states + [ReactorApply(states[|steps|], i, a)], steps + [(i, a)];
    forall k | 0 <= k < |steps'|
      ensures ReactorEnabled(states'[k], steps'[k].0, steps'[k].1)
      ensures states'[k + 1] == ReactorApply(states'[k], steps'[k].0, steps'[k].1)
    {
      if k < |steps| { assert ReactorEnabled(states[k], steps[k].0, steps[k].1); }
    }
  }
}
