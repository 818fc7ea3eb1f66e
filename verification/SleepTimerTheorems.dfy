/** What holds in every run of the timers, for any number of threads, tasks and timers. */
module SleepTimerTheorems {
  import opened Options
  import opened Shared
  import opened Scheduler
  import opened SchedulerDriver
  import opened SchedulerTheorems
  import opened SleepTimers
  import opened SleepTimerProofs

  /** Thread `i` may touch the waker inside the cell of `k`. */
  predicate OwnsCell(s: TimerState, i: Tid, k: TimerId) {
    || (i in s.sleeping && (s.sleeping[i] == WriteCell(k) || s.sleeping[i] == Publish(k)))
    || (i in s.firing && (s.firing[i].TakeCell? || s.firing[i].Clear?) && s.firing[i].k == k)
  }

  lemma OwnerIsUser(s: TimerState, k: TimerId, sl: Target, fi: Target, o: Tid)
    requires TimerFits(s, k, sl, fi) && OwnsCell(s, o, k)
    ensures s.timers[k].cell.Waking? && (sl == Somebody(o) || fi == Somebody(o))
    ensures sl == Somebody(o) ==> s.sleeping[o].WriteCell? || s.sleeping[o].Publish? || fi == Somebody(o)
  {
    if o in s.firing && FiresTimer(s.firing[o], k) { assert fi == Somebody(o); } else { assert sl == Somebody(o); }
  }

  lemma WakingHasOwner(s: TimerState, k: TimerId, sl: Target, fi: Target)
    requires TimerFits(s, k, sl, fi) && s.timers[k].cell.Waking?
    ensures exists o :: OwnsCell(s, o, k)
  {
    assert OwnsCell(s, if fi.Somebody? && OwnsCell(s, fi.tid, k) then fi.tid else sl.tid, k);
  }

  lemma OwnersAgree(s: TimerState, k: TimerId, sl: Target, fi: Target, i: Tid, j: Tid)
    requires TimerFits(s, k, sl, fi) && OwnsCell(s, i, k) && OwnsCell(s, j, k)
    ensures i == j
  {
    OwnerIsUser(s, k, sl, fi, i);
    OwnerIsUser(s, k, sl, fi, j);
  }

  /** The cell is WAKING exactly while it has an owner, and it never has two. */
  lemma CellHasOneOwner(states: seq<TimerState>, steps: seq<(Tid, TimerAction)>, n: nat, k: TimerId, i: Tid, j: Tid)
    requires IsTimerRun(states, steps) && n < |states| && k in states[n].timers
    ensures OwnsCell(states[n], i, k) && OwnsCell(states[n], j, k) ==> i == j
    ensures states[n].timers[k].cell.Waking? <==> exists o :: OwnsCell(states[n], o, k)
  {
    TimerRunInv(states, steps, n);
    var s := states[n];
    assert TimerOk(s, k);
    var sl, fi :| TimerFits(s, k, sl, fi);
    if OwnsCell(s, i, k) && OwnsCell(s, j, k) { OwnersAgree(s, k, sl, fi, i, j); }
    if s.timers[k].cell.Waking? { WakingHasOwner(s, k, sl, fi); }
    forall o | OwnsCell(s, o, k) ensures s.timers[k].cell.Waking? { OwnerIsUser(s, k, sl, fi, o); }
  }

  /**
   If the last poll of a Sleep was pending then, until a poll answers the timer's wake: before
   completion the polling task's waker is in the cell; after it, the driver is waking the task,
   or the task is SCHEDULED, NOTIFIED or finished.
   */
  lemma SleepNeverLosesWake(states: seq<TimerState>, steps: seq<(Tid, TimerAction)>, n: nat, k: TimerId)
    requires IsTimerRun(states, steps) && n < |states| && k in states[n].awaiting
    ensures k in states[n].timers
    ensures var s, w := states[n], states[n].awaiting[k];
            if !s.timers[k].completed then WillBeWoken(s, k, w)
            else BeingWoken(s, k, w) || WakePending(s.sched, w) || w in s.sched.done
  {
    TimerRunInv(states, steps, n);
    assert TimerOk(states[n], k);
  }

  /** At step `l` a poll of `w` began although `k` had completed and was not waking it any more. */
  ghost predicate AnsweredAt(states: seq<TimerState>, steps: seq<(Tid, TimerAction)>, l: nat, k: TimerId, w: TaskId) {
    && l < |steps| && l < |states| && steps[l].1 == Sched(CasRunning) && TimerEnabled(states[l], steps[l].0, steps[l].1)
    && states[l].sched.threads[steps[l].0].pc.t == w
    && k in states[l].timers && states[l].timers[k].completed && !BeingWoken(states[l], k, w)
  }

  lemma AwaitStep(s: TimerState, i: Tid, a: TimerAction, k: TimerId)
    requires TimerEnabled(s, i, a) && a != StartPoll(k) && !(a.LoadSecond? && s.sleeping[i].k == k) && k in s.awaiting
    ensures || (k in TimerApply(s, i, a).awaiting && TimerApply(s, i, a).awaiting[k] == s.awaiting[k])
            || (a == Sched(CasRunning) && s.sched.threads[i].pc.t == s.awaiting[k]
                && k in s.timers && s.timers[k].completed && !BeingWoken(s, k, s.awaiting[k]))
  {
  }

  lemma CompletedStays(s: TimerState, i: Tid, a: TimerAction, k: TimerId)
    requires TimerEnabled(s, i, a) && k in s.timers && s.timers[k].completed
    ensures k in TimerApply(s, i, a).timers && TimerApply(s, i, a).timers[k].completed
  {
  }

  /** Step `n` is the pending end of a poll of `k` by `w`, and no other poll of `k` starts before `m`. */
  ghost predicate LastPollPending(states: seq<TimerState>, steps: seq<(Tid, TimerAction)>, n: nat, m: nat, k: TimerId, w: TaskId) {
    && n < m <= |steps| < |states| && steps[n].1 == LoadSecond && TimerEnabled(states[n], steps[n].0, LoadSecond)
    && states[n].sleeping[steps[n].0].k == k && !states[n].timers[k].completed
    && states[n].sched.threads[steps[n].0].pc.t == w
    && forall l :: n < l < m ==> steps[l].1 != StartPoll(k)
  }

  /** While somebody awaits `k` nobody is inside a poll of it. */
  lemma AwaitedNotPolled(states: seq<TimerState>, steps: seq<(Tid, TimerAction)>, n: nat, k: TimerId, i: Tid)
    requires IsTimerRun(states, steps) && n < |states| && k in states[n].awaiting && i in states[n].sleeping
    ensures k in states[n].timers && states[n].sleeping[i].k != k
  {
    TimerRunInv(states, steps, n);
    assert TimerOk(states[n], k);
  }

  predicate IsAwaited(s: TimerState, k: TimerId, w: TaskId) { k in s.awaiting && s.awaiting[k] == w }

  predicate HasCompleted(s: TimerState, k: TimerId) { k in s.timers && s.timers[k].completed }

  lemma PendingIsAwaited(s: TimerState, i: Tid)
    requires TimerEnabled(s, i, LoadSecond) && !s.timers[s.sleeping[i].k].completed
    ensures IsAwaited(TimerApply(s, i, LoadSecond), s.sleeping[i].k, s.sched.threads[i].pc.t)
  {
  }

  /** What step `l` leaves of somebody's waiting for `k`. */
  ghost predicate AwaitGoesOnAt(states: seq<TimerState>, steps: seq<(Tid, TimerAction)>, l: nat, k: TimerId, w: TaskId) {
    && l + 1 < |states|
    && (IsAwaited(states[l], k, w) ==>
          IsAwaited(states[l + 1], k, w) || (HasCompleted(states[l + 1], k) && AnsweredAt(states, steps, l, k, w)))
    && (HasCompleted(states[l], k) ==> HasCompleted(states[l + 1], k))
  }

  lemma AwaitedOneStep(states: seq<TimerState>, steps: seq<(Tid, TimerAction)>, l: nat, k: TimerId, w: TaskId)
    requires IsTimerRun(states, steps) && l < |steps| && steps[l].1 != StartPoll(k)
    ensures AwaitGoesOnAt(states, steps, l, k, w)
  {
    var s, i, a := states[l], steps[l].0, steps[l].1;
    assert TimerEnabled(s, i, a) && states[l + 1] == TimerApply(s, i, a);
    if HasCompleted(s, k) { CompletedStays(s, i, a, k); }
    if IsAwaited(s, k, w) {
      if a.LoadSecond? { AwaitedNotPolled(states, steps, l, k, i); }
      AwaitStep(s, i, a, k);
    }
  }

  lemma {:induction false} AwaiterStays(states: seq<TimerState>, steps: seq<(Tid, TimerAction)>, n: nat, m: nat, k: TimerId, w: TaskId)
    requires n < m < |states| && IsAwaited(states[n + 1], k, w)
    requires forall l :: n < l < m ==> AwaitGoesOnAt(states, steps, l, k, w)
    ensures || IsAwaited(states[m], k, w)
            || (HasCompleted(states[m], k) && exists l :: n < l < m && AnsweredAt(states, steps, l, k, w))
  {
    if m > n + 1 {
      AwaiterStays(states, steps, n, m - 1, k, w);
      assert AwaitGoesOnAt(states, steps, m - 1, k, w);
    }
  }

  /**
   The same from the history alone.  After a pending poll of a Sleep by `w`, and until the next
   poll of it: as long as the timer has not completed, its cell holds the waker of `w`; once it
   has, `w` is being woken, or SCHEDULED, NOTIFIED or finished, or has been polled in answer.
   */
  lemma PendingSleepWakes(states: seq<TimerState>, steps: seq<(Tid, TimerAction)>, n: nat, m: nat, k: TimerId, w: TaskId)
    requires IsTimerRun(states, steps) && LastPollPending(states, steps, n, m, k, w)
    ensures k in states[m].timers
    ensures var s := states[m];
            if !s.timers[k].completed then WillBeWoken(s, k, w)
            else
              || BeingWoken(s, k, w) || WakePending(s.sched, w) || w in s.sched.done
              || exists l :: n < l < m && AnsweredAt(states, steps, l, k, w)
  {
    PendingIsAwaited(states[n], steps[n].0);
    forall l | n < l < m ensures AwaitGoesOnAt(states, steps, l, k, w) { AwaitedOneStep(states, steps, l, k, w); }
    AwaiterStays(states, steps, n, m, k, w);
    if IsAwaited(states[m], k, w) { SleepNeverLosesWake(states, steps, m, k); }
  }

  /** A registered timer that has not fired is in the inbox or in the heap, once. */
  lemma WheelHoldsUnfired(states: seq<TimerState>, steps: seq<(Tid, TimerAction)>, n: nat, k: TimerId)
    requires IsTimerRun(states, steps) && n < |states|
    ensures var s := states[n];
            && (k in s.timers && k !in s.fired <==> k in s.inbox || k in s.heap)
            && !(k in s.inbox && k in s.heap)
            && (forall a, b :: 0 <= a < b < |s.inbox| ==> s.inbox[a] != s.inbox[b])
  {
    TimerRunInv(states, steps, n);
    assert k in states[n].timers ==> TimerOk(states[n], k);
  }

  /** The steps of `process` that read or write the heap. */
  predicate TouchesHeap(a: TimerAction) { a.Drain? || a.Pop? || a.StopFiring? }

  /** Only the holder of the driver token touches the heap, and nobody else is in the firing loop meanwhile. */
  lemma HeapOnlyByDriver(states: seq<TimerState>, steps: seq<(Tid, TimerAction)>, n: nat)
    requires IsTimerRun(states, steps) && n < |steps| && TouchesHeap(steps[n].1)
    ensures var s, i := states[n], steps[n].0;
            && s.sched.token
            && (forall j :: 0 <= j < |s.sched.threads| ==> (Drives(s.sched.threads[j].pc) <==> j == i))
            && (forall j :: j in s.firing ==> j == i)
  {
    TimerRunInv(states, steps, n);
    assert TimerEnabled(states[n], steps[n].0, steps[n].1);
    assert PlaceOk(states[n], steps[n].0);
    HeapToucherDrives(states[n], steps[n].0, steps[n].1);
    DriverAlone(states[n], steps[n].0);
  }

  lemma HeapToucherDrives(s: TimerState, i: Tid, a: TimerAction)
    requires PlaceOk(s, i) && TimerEnabled(s, i, a) && TouchesHeap(a)
    ensures i < |s.sched.threads| && Drives(s.sched.threads[i].pc)
  {
  }

  lemma DriverAlone(s: TimerState, i: Tid)
    requires OneDriver(s.sched) && PlacesOk(s) && i < |s.sched.threads| && Drives(s.sched.threads[i].pc)
    ensures s.sched.token
    ensures forall j :: 0 <= j < |s.sched.threads| ==> (Drives(s.sched.threads[j].pc) <==> j == i)
    ensures forall j :: j in s.firing ==> j == i
  {
    var p :| DriverIs(s.sched, p);
    assert p == Somebody(i);
    forall j | j in s.firing ensures j == i { assert PlaceOk(s, j) && Drives(s.sched.threads[j].pc); }
  }

  /** The heap changes by nothing else. */
  lemma HeapElsewhereSame(s: TimerState, i: Tid, a: TimerAction)
    requires TimerEnabled(s, i, a) && !TouchesHeap(a)
    ensures TimerApply(s, i, a).heap == s.heap
  {
  }

  /** A timer is popped at most once, and when it is due. */
  lemma FiresOnce(states: seq<TimerState>, steps: seq<(Tid, TimerAction)>, n: nat, i: Tid, k: TimerId)
    requires IsTimerRun(states, steps) && n < |steps| && steps[n] == (i, Pop(k))
    ensures k in states[n].timers && k !in states[n].fired && k in states[n + 1].fired
    ensures states[n].timers[k].deadline <= states[n].clock
  {
    TimerRunInv(states, steps, n);
    assert TimerEnabled(states[n], i, Pop(k));
    assert TimerOk(states[n], k) && PlaceOk(states[n], i);
  }

  /** No Sleep is Ready before its deadline. */
  lemma NeverReadyEarly(states: seq<TimerState>, steps: seq<(Tid, TimerAction)>, n: nat, k: TimerId)
    requires IsTimerRun(states, steps) && n < |states| && k in states[n].timers && states[n].timers[k].completed
    ensures states[n].timers[k].deadline <= states[n].clock
  {
    TimerRunInv(states, steps, n);
    assert TimerOk(states[n], k);
  }

  /** From the inbox drain until epoll_wait returns, a timer in the inbox means a poke has come or is coming. */
  lemma NewTimersReachDriver(states: seq<TimerState>, steps: seq<(Tid, TimerAction)>, n: nat, i: Tid)
    requires IsTimerRun(states, steps) && n < |states| && i < |states[n].sched.threads|
    requires Drained(states[n].sched.threads[i].pc) && states[n].inbox != []
    ensures states[n].sched.eventfd > 0 || SleepPokeComing(states[n].sched)
  {
    TimerRunInv(states, steps, n);
  }

  /** A registered timer has its deadline, is not completed, has an empty cell and waits in the inbox. */
  lemma RegisterIsHeld(states: seq<TimerState>, steps: seq<(Tid, TimerAction)>, n: nat)
    requires IsTimerRun(states, steps) && n < |steps| && steps[n].1.Register?
    ensures var k := steps[n].1.k;
            && k !in states[n].timers && k in states[n + 1].timers
            && states[n + 1].timers[k] == Timer(steps[n].1.deadline, false, Empty, None)
            && k in states[n + 1].inbox && k !in states[n + 1].fired
  {
    TimerRunInv(states, steps, n);
    assert TimerEnabled(states[n], steps[n].0, steps[n].1);
  }

  /** Step `n` ends the poll of a Sleep that its thread was in. */
  ghost predicate EndsSleepPoll(states: seq<TimerState>, steps: seq<(Tid, TimerAction)>, n: nat) {
    n < |steps| && n + 1 < |states| && steps[n].0 in states[n].sleeping && steps[n].0 !in states[n + 1].sleeping
  }

  /**
   A poll of a Sleep ends Ready, which is with nobody recorded as waiting, exactly when the timer
   has completed; then its deadline has passed.
   */
  lemma SleepReadyIff(states: seq<TimerState>, steps: seq<(Tid, TimerAction)>, n: nat)
    requires IsTimerRun(states, steps) && EndsSleepPoll(states, steps, n)
    ensures var s, k := states[n], states[n].sleeping[steps[n].0].k;
            && k in s.timers
            && (k !in states[n + 1].awaiting <==> s.timers[k].completed)
            && (s.timers[k].completed ==> s.timers[k].deadline <= s.clock)
  {
    TimerRunInv(states, steps, n);
    var s, i, a := states[n], steps[n].0, steps[n].1;
    assert TimerEnabled(s, i, a) && PlaceOk(s, i);
    var k := s.sleeping[i].k;
    assert TimerOk(s, k);
    var sl, fi :| TimerFits(s, k, sl, fi);
    assert sl == Somebody(i);
    EndsByLoad(s, i, a);
  }

  lemma EndsByLoad(s: TimerState, i: Tid, a: TimerAction)
    requires TimerEnabled(s, i, a) && i in s.sleeping && i !in SleepingAfter(s, i, a)
    ensures a.LoadSecond? || (a.LoadFirst? && s.timers[s.sleeping[i].k].completed)
  {
  }
}
