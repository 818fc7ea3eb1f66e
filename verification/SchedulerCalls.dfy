/** The order of a thread's steps, the condvar, and the end of the pool. */
module SchedulerCalls {
  import opened Shared
  import opened Scheduler
  import opened SchedulerOwnership
  import opened SchedulerDriver
  import opened SchedulerTheorems

  // ---- Program order ----

  /** In state `s` thread `i` takes step `a`; its next step may be `b`. */
  predicate MayFollow(s: State, i: Tid, a: Action, b: Action)
    requires Enabled(s, i, a)
  {
    match a
    case BeginWake(_) => b.LoadStatus?
    case LoadStatus =>
      var seen := s.status[s.threads[i].op.t];
      if seen.Idle? || seen.Running? then b.CasStatus? else !IsOpStep(b)
    case CasStatus(spurious) =>
      var op := s.threads[i].op;
      if spurious || s.status[op.t] != op.seen then b.LoadStatus?
      else if op.seen.Idle? then b.PushReady? else !IsOpStep(b)
    case BeginSpawn(_) => b.InsertTask?
    case InsertTask => b.CountTask?
    case CountTask => b.PushReady?
    case StoreScheduled => b.PushReady?
    case PushReady => b.LoadToken?
    case LoadToken => if s.token then b.Poke? else b.NotifyOne?
    case Poke => if s.threads[i].op.EnqWake? then b.NotifyOne? else !IsOpStep(b)
    case BeginSleep => b.RegisterTimer?
    case RegisterTimer => b.Poke?
    case BeginShutdown => b.NotifyShutdown?
    case NotifyShutdown => b.Poke?
    case _ => !IsOpStep(b)
  }

  lemma OpDecidesNext(s: State, i: Tid, a: Action, s1: State, b: Action)
    requires Enabled(s, i, a) && Enabled(s1, i, b) && s1.threads[i].op == OpAfter(s, i, a)
    ensures MayFollow(s, i, a, b)
  {
  }

  lemma {:induction false} OpWaits(states: seq<State>, steps: seq<Step>, k: nat, m: nat, i: Tid)
    requires IsPath(states, steps) && k < m < |states| && i < |states[0].threads|
    requires forall l :: k < l < m ==> steps[l].tid != i
    ensures |states[m].threads| == |states[k + 1].threads| == |states[0].threads|
    ensures states[m].threads[i].op == states[k + 1].threads[i].op
  {
    RolesAreFixed(states, steps, k + 1, i);
    RolesAreFixed(states, steps, m, i);
    if m > k + 1 {
      OpWaits(states, steps, k, m - 1, i);
      OpStaysOne(states, steps, m - 1, i);
    }
  }

  lemma OpStaysOne(states: seq<State>, steps: seq<Step>, l: nat, i: Tid)
    requires IsPath(states, steps) && l < |steps| && steps[l].tid != i && i < |states[l].threads|
    ensures |states[l + 1].threads| == |states[l].threads| && states[l + 1].threads[i].op == states[l].threads[i].op
  {
    assert Enabled(states[l], steps[l].tid, steps[l].action);
    OnlyActorMoves(states[l], steps[l].tid, steps[l].action);
    assert Undisturbed(states[l].threads[i], states[l + 1].threads[i]);
  }

  /**
   Calls run in the order of the source: an enqueue pushes, loads the token, pokes if there is a
   driver and then notifies; a spawn inserts and counts first; a sleep registers and pokes; a
   shutdown notifies and pokes; a wake loads and compares until it has an answer.
   */
  lemma ProgramOrder(states: seq<State>, steps: seq<Step>, k: nat, m: nat)
    requires IsRun(states, steps) && k < m < |steps| && steps[m].tid == steps[k].tid
    requires forall l :: k < l < m ==> steps[l].tid != steps[k].tid
    ensures Enabled(states[k], steps[k].tid, steps[k].action)
    ensures MayFollow(states[k], steps[k].tid, steps[k].action, steps[m].action)
  {
    var i := steps[k].tid;
    assert Enabled(states[k], i, steps[k].action) && Enabled(states[m], i, steps[m].action);
    SameThreads(states, steps, k);
    OpWaits(states, steps, k, m, i);
    OpDecidesNext(states[k], i, steps[k].action, states[m], steps[m].action);
  }

  lemma {:induction false} SameThreads(states: seq<State>, steps: seq<Step>, k: nat)
    requires IsPath(states, steps) && k < |states|
    ensures |states[k].threads| == |states[0].threads|
  {
    if k > 0 { SameThreads(states, steps, k - 1); }
  }

  // ---- The condvar ----

  ghost function ParkedIn(s: State): set<Tid> {
    set j: Tid | j < |s.threads| && s.threads[j].pc.Parked?
  }

  /** Only thread `i` and, if there is one, thread `j` are elsewhere afterwards. */
  ghost predicate OnlyReleases(s: State, s': State, i: Tid, target: Target) {
    && |s'.threads| == |s.threads|
    && (target.Somebody? ==> target.tid < |s.threads| && s'.threads[target.tid] == s.threads[target.tid].(pc := Woken))
    && (forall j: Tid :: j < |s.threads| && j != i && target != Somebody(j) ==> s'.threads[j] == s.threads[j])
  }

  lemma NotifyOneReleases(s: State, i: Tid, target: Target)
    requires Placed(s) && Enabled(s, i, NotifyOne(target))
    ensures var s' := Apply(s, i, NotifyOne(target));
            && OnlyReleases(s, s', i, target)
            && (target.Somebody? ==> target.tid in ParkedIn(s) && ParkedIn(s') == ParkedIn(s) - {target.tid})
            && (target.Nobody? ==> ParkedIn(s) == {} && ParkedIn(s') == {})
  {
    assert WellPlaced(s.threads[i]);
  }

  /**
   The end of an enqueue: if a worker is parked, exactly one parked worker is released and no
   other thread is touched; if none is, nothing happens.
   */
  lemma EnqueueReleases(states: seq<State>, steps: seq<Step>, m: nat)
    requires IsRun(states, steps) && m < |steps| && steps[m].action.NotifyOne?
    ensures var s, s', target := states[m], states[m + 1], steps[m].action.target;
            && OnlyReleases(s, s', steps[m].tid, target)
            && (ParkedIn(s) != {} ==>
                  target.Somebody? && target.tid in ParkedIn(s) && ParkedIn(s') == ParkedIn(s) - {target.tid})
            && (ParkedIn(s) == {} ==> target.Nobody? && ParkedIn(s') == {})
  {
    RunInv(states, steps, m);
    assert Enabled(states[m], steps[m].tid, steps[m].action);
    NotifyOneReleases(states[m], steps[m].tid, steps[m].action.target);
  }

  /** `notify_all`, when a task finishes and at shutdown, leaves nobody parked. */
  lemma NotifyAllReleases(states: seq<State>, steps: seq<Step>, m: nat)
    requires IsRun(states, steps) && m < |steps| && (steps[m].action.NotifyFinished? || steps[m].action.NotifyShutdown?)
    ensures ParkedIn(states[m + 1]) == {}
  {
    RunInv(states, steps, m);
    assert Enabled(states[m], steps[m].tid, steps[m].action);
    assert WellPlaced(states[m].threads[steps[m].tid]);
  }

  lemma LockedStaysEmpty(s: State, i: Tid, a: Action)
    requires Enabled(s, i, a) && (s.queueLock.Somebody? ==> s.ready.queue == [])
    ensures Effect(s, i, a).queueLock.Somebody? ==> Effect(s, i, a).ready.queue == []
  {
  }

  lemma {:induction false} LockedIsEmpty(states: seq<State>, steps: seq<Step>, k: nat)
    requires IsRun(states, steps) && k < |states|
    ensures states[k].queueLock.Somebody? ==> states[k].ready.queue == []
  {
    if k > 0 {
      LockedIsEmpty(states, steps, k - 1);
      assert Enabled(states[k - 1], steps[k - 1].tid, steps[k - 1].action);
      LockedStaysEmpty(states[k - 1], steps[k - 1].tid, steps[k - 1].action);
    }
  }

  /** A worker is between its look at the queue and its sleep, or falls asleep, only with the queue empty. */
  lemma ParksOnlyWhenEmpty(states: seq<State>, steps: seq<Step>, k: nat)
    requires IsRun(states, steps) && k < |steps| && (steps[k].action.CheckPark? || steps[k].action.StartPark?)
    ensures states[k].ready.queue == [] && states[k + 1].ready.queue == []
  {
    RunInv(states, steps, k);
    LockedIsEmpty(states, steps, k);
    assert Enabled(states[k], steps[k].tid, steps[k].action);
    assert HoldsQueue(states[k].threads[steps[k].tid].pc);
  }

  /** A worker that goes to sleep has seen a driver, and one is there. */
  lemma ParksOnlyBesideDriver(states: seq<State>, steps: seq<Step>, k: nat)
    requires IsRun(states, steps) && k < |steps| && steps[k].action.TakeToken? && states[k].token
    ensures states[k + 1].token && exists i :: 0 <= i < |states[k].threads| && Drives(states[k].threads[i].pc)
  {
    NeverAllParked(states, steps, k);
    assert Enabled(states[k], steps[k].tid, steps[k].action);
  }

  // ---- The eventfd ----

  /** A driver that saw the eventfd drains it; nobody else takes from it, and a poke makes it readable. */
  lemma EventfdChange(states: seq<State>, steps: seq<Step>, k: nat)
    requires IsRun(states, steps) && k < |steps|
    ensures var s, s', a := states[k], states[k + 1], steps[k].action;
            && (a.Poke? ==> s'.eventfd > 0 && s'.eventfd >= s.eventfd)
            && (a.DrainEventFd? && s.threads[steps[k].tid].pc == Collect(true) ==> s'.eventfd == 0)
            && (s'.eventfd < s.eventfd ==> a.DrainEventFd? && s.threads[steps[k].tid].pc == Collect(true))
  {
    assert Enabled(states[k], steps[k].tid, steps[k].action);
  }

  // ---- Shutdown ----

  lemma {:induction false} ShutdownStays(states: seq<State>, steps: seq<Step>, k: nat, m: nat)
    requires IsPath(states, steps) && k <= m < |states| && states[k].shutdown
    ensures states[m].shutdown
  {
    if k < m { ShutdownStays(states, steps, k, m - 1); }
  }

  /** From the shutdown on, a worker that looks at the flag, before a dequeue or before it sleeps, exits. */
  lemma ShutdownIsSeen(states: seq<State>, steps: seq<Step>, k: nat, m: nat)
    requires IsRun(states, steps) && k < m < |steps| && steps[k].action.BeginShutdown?
    requires steps[m].action.LoadShutdown? || steps[m].action.CheckPark?
    ensures steps[m].tid < |states[m + 1].threads| && states[m + 1].threads[steps[m].tid].pc.Exited?
  {
    assert Enabled(states[k], steps[k].tid, steps[k].action) && states[k + 1].shutdown;
    ShutdownStays(states, steps, k + 1, m);
    assert Enabled(states[m], steps[m].tid, steps[m].action);
  }

  /** Nobody exits before. */
  lemma ExitOnlyAfterShutdown(s: State, i: Tid, a: Action)
    requires Enabled(s, i, a) && PcAfter(s, i, a).Exited? && !s.threads[i].pc.Exited?
    ensures s.shutdown
  {
  }

  /** An exited worker takes no further step. */
  lemma ExitedIsOver(states: seq<State>, steps: seq<Step>, k: nat)
    requires IsRun(states, steps) && k < |steps|
    ensures steps[k].tid < |states[k].threads| && !states[k].threads[steps[k].tid].pc.Exited?
  {
    RunInv(states, steps, k);
    assert Enabled(states[k], steps[k].tid, steps[k].action);
    assert WellPlaced(states[k].threads[steps[k].tid]);
  }
}
