/**
 A Sleep whose deadline has passed ends.  From every reachable state of the pool before shutdown,
 the task of the last pending poll of a due Sleep gets to its next poll, or to its end, once the
 driver's bounded wait is over: somebody becomes the driver or already is, drains the inbox, fires
 what is due, and the wake goes its way.
 */
module Deadlines {
  import opened Shared
  import opened Scheduler
  import opened SchedulerOwnership
  import opened SchedulerDriver
  import opened SchedulerTheorems
  import opened SchedulerSteps
  import opened SleepTimers
  import opened SleepTimerProofs
  import opened SleepTimerTheorems
  import opened Settling
  import opened Progress

  // ---- What a path leaves alone ----

  /** The clock stands still, a timer keeps its deadline and does not go back to the inbox. */
  predicate SameDeadline(s: TimerState, s': TimerState, k: TimerId) {
    && s'.clock == s.clock && k in s.timers && k in s'.timers && s'.timers[k].deadline == s.timers[k].deadline
    && (k in s'.inbox ==> k in s.inbox)
  }

  lemma StepKeepsDeadline(s: TimerState, i: Tid, a: TimerAction, k: TimerId)
    requires TimerEnabled(s, i, a) && !a.Tick? && k in s.timers
    ensures SameDeadline(s, TimerApply(s, i, a), k)
  {
  }

  /** A thread in the firing loop has the present time. */
  predicate IsFresh(s: TimerState, u: Tid) {
    u in s.firing && !s.firing[u].ReadClock? ==> s.firing[u].now >= s.clock
  }

  lemma StepKeepsFresh(s: TimerState, i: Tid, a: TimerAction, u: Tid)
    requires TimerEnabled(s, i, a) && !a.Tick? && IsFresh(s, u)
    ensures IsFresh(TimerApply(s, i, a), u)
  {
    if i != u { OthersFire(s, i, a, u); } else { ActorKeepsFresh(s, i, a); }
  }

  lemma ActorKeepsFresh(s: TimerState, i: Tid, a: TimerAction)
    requires TimerEnabled(s, i, a) && IsFresh(s, i)
    ensures i in FiringAfter(s, i, a) && !FiringAfter(s, i, a)[i].ReadClock? ==> FiringAfter(s, i, a)[i].now >= s.clock
  {
  }

  lemma {:induction false} PathKeeps(states: seq<TimerState>, path: Path, c: Choice, n: nat, k: TimerId, u: Tid)
    requires IsPromptPath(states, path, c) && n <= |path| && k in states[0].timers && IsFresh(states[0], u)
    ensures SameDeadline(states[0], states[n], k) && IsFresh(states[n], u)
  {
    if n > 0 {
      PathKeeps(states, path, c, n - 1, k, u);
      assert Goes(states[n - 1], path[n - 1], states[n], c);
      StepKeepsDeadline(states[n - 1], path[n - 1].0, path[n - 1].1, k);
      StepKeepsFresh(states[n - 1], path[n - 1].0, path[n - 1].1, u);
    }
  }

  lemma LeadsKeeps(s: TimerState, path: Path, s': TimerState, c: Choice, k: TimerId, u: Tid)
    requires Leads(s, path, s', c) && k in s.timers && IsFresh(s, u)
    ensures SameDeadline(s, s', k) && IsFresh(s', u)
  {
    var states :| IsPromptPath(states, path, c) && states[0] == s && states[|path|] == s';
    PathKeeps(states, path, c, |path|, k, u);
  }

  // ---- Waiting along a path ----

  lemma {:induction false} PathInv(states: seq<TimerState>, path: Path, c: Choice, n: nat)
    requires IsPromptPath(states, path, c) && n <= |path| && TimerInv(states[0])
    ensures TimerInv(states[n])
  {
    if n > 0 {
      PathInv(states, path, c, n - 1);
      assert Goes(states[n - 1], path[n - 1], states[n], c);
      KeepsTimerInv(states[n - 1], path[n - 1].0, path[n - 1].1);
    }
  }

  /** Step `m` of the path begins a poll of `w`. */
  ghost predicate PollsAt(states: seq<TimerState>, path: Path, m: nat, w: TaskId) {
    && m < |path| && m < |states| && path[m].1 == Sched(CasRunning) && TimerEnabled(states[m], path[m].0, path[m].1)
    && states[m].sched.threads[path[m].0].pc.t == w
  }

  lemma AwaitedOnPath(states: seq<TimerState>, path: Path, c: Choice, m: nat, k: TimerId, w: TaskId)
    requires IsPromptPath(states, path, c) && m < |path| && TimerInv(states[m]) && IsAwaited(states[m], k, w)
    ensures IsAwaited(states[m + 1], k, w) || PollsAt(states, path, m, w)
  {
    var s, i, a := states[m], path[m].0, path[m].1;
    assert Goes(s, path[m], states[m + 1], c);
    assert k in s.timers && TimerOk(s, k);
    AwaitStep(s, i, a, k);
  }

  ghost predicate AwaitGoesOnPath(states: seq<TimerState>, path: Path, m: nat, k: TimerId, w: TaskId) {
    m + 1 < |states| && (IsAwaited(states[m], k, w) ==> IsAwaited(states[m + 1], k, w) || PollsAt(states, path, m, w))
  }

  lemma {:induction false} AwaitedAlong(states: seq<TimerState>, path: Path, n: nat, k: TimerId, w: TaskId)
    requires n < |states| && IsAwaited(states[0], k, w)
    requires forall m :: 0 <= m < n ==> AwaitGoesOnPath(states, path, m, k, w)
    ensures IsAwaited(states[n], k, w) || exists m :: 0 <= m < n && PollsAt(states, path, m, w)
  {
    if n > 0 {
      AwaitedAlong(states, path, n - 1, k, w);
      assert AwaitGoesOnPath(states, path, n - 1, k, w);
    }
  }

  /** The CAS to RUNNING succeeds, so the path up to it is one to a poll. */
  lemma PollsHere(states: seq<TimerState>, path: Path, c: Choice, m: nat, w: TaskId)
    requires IsPromptPath(states, path, c) && PollsAt(states, path, m, w) && TimerInv(states[m])
    ensures EndsInPoll(path[..m + 1], states[m + 1], w)
  {
    var s, i := states[m].sched, path[m].0;
    assert Goes(states[m], path[m], states[m + 1], c);
    assert HasPlace(s, w) && Handles(s.threads[i].pc, w);
  }

  lemma Prefix(states: seq<TimerState>, path: Path, c: Choice, m: nat)
    requires IsPromptPath(states, path, c) && m < |path|
    ensures Leads(states[0], path[..m + 1], states[m + 1], c)
  {
    var states', path' := states[..m + 2], path[..m + 1];
    forall n | 0 <= n < |path'| ensures Goes(states'[n], path'[n], states'[n + 1], c) {
      assert Goes(states[n], path[n], states[n + 1], c);
    }
    assert IsPromptPath(states', path', c);
  }

  /** Along a path whoever waits for a timer goes on waiting, or is polled on the way. */
  lemma WaitsOrIsPolled(s: TimerState, path: Path, s': TimerState, k: TimerId, w: TaskId, c: Choice)
      returns (polled: bool, path': Path, s1: TimerState)
    requires TimerInv(s) && Leads(s, path, s', c) && IsAwaited(s, k, w)
    ensures if polled then PollStarts(s, path', s1, w, c) else IsAwaited(s', k, w)
  {
    var states :| IsPromptPath(states, path, c) && states[0] == s && states[|path|] == s';
    forall m | 0 <= m < |path| ensures AwaitGoesOnPath(states, path, m, k, w) {
      PathInv(states, path, c, m);
      if IsAwaited(states[m], k, w) { AwaitedOnPath(states, path, c, m, k, w); }
    }
    AwaitedAlong(states, path, |path|, k, w);
    polled, path', s1 := !IsAwaited(s', k, w), path, s';
    if polled {
      var m :| 0 <= m < |path| && PollsAt(states, path, m, w);
      PathInv(states, path, c, m);
      PollsHere(states, path, c, m, w);
      Prefix(states, path, c, m);
      path', s1 := path[..m + 1], states[m + 1];
    }
  }

  // ---- A worker on its way to drain the inbox ----

  /** An awake worker, and the driver if there is one. */
  predicate Walks(s: State, u: Tid) {
    u < |s.threads| && Awake(s.threads[u].pc) && (s.token ==> Drives(s.threads[u].pc))
  }

  lemma SomebodyWalks(s: State) returns (u: Tid)
    requires Driver(s) && !s.shutdown
    ensures Walks(s, u)
  {
    if s.token {
      var p :| DriverIs(s, p);
      u := p.tid;
      assert Drives(s.threads[u].pc);
    } else {
      u :| 0 <= u < |s.threads| && Awake(s.threads[u].pc);
    }
  }

  function NextWalk(s: State, pc: Pc, c: Choice): Action {
    if pc.Wait? && s.eventfd == 0 then WaitReturn(false) else NextPc(pc, c)
  }

  predicate Drains(pc: Pc) { pc.Drain1? || pc.Drain2? }

  lemma WalkGuard(s: State, u: Tid, c: Choice)
    requires !s.shutdown && QueueFree(s) && Walks(s, u) && s.threads[u].op.NoOp? && c.timely
    requires forall t :: Handles(s.threads[u].pc, t) ==> t in s.status
    ensures Prompt(s, Step(u, NextWalk(s, s.threads[u].pc, c)), c) && IsPcStep(NextWalk(s, s.threads[u].pc, c))
  {
    var pc := s.threads[u].pc;
    assert pc.CasRun? || pc.CasIdle? || pc.StoreSched? ==> Handles(pc, pc.t);
  }

  lemma WalkAdvances(s: State, u: Tid, c: Choice)
    requires !s.shutdown && Walks(s, u) && Enabled(s, u, NextWalk(s, s.threads[u].pc, c))
    requires !s.threads[u].pc.Dequeueing? && !Drains(s.threads[u].pc)
    ensures var a := NextWalk(s, s.threads[u].pc, c);
            && Awake(PcAfter(s, u, a)) && (Effect(s, u, a).token ==> Drives(PcAfter(s, u, a)))
            && (Drains(PcAfter(s, u, a)) || PcRank(PcAfter(s, u, a)) < PcRank(s.threads[u].pc))
  {
  }

  lemma WalkStep(s: TimerState, u: Tid, c: Choice) returns (path: Path, s': TimerState)
    requires Live(s, c) && Settled(s, u) && Walks(s.sched, u) && c.timely
    requires !s.sched.threads[u].pc.Dequeueing? && !Drains(s.sched.threads[u].pc)
    ensures Leads(s, path, s', c) && Live(s', c) && Walks(s'.sched, u)
    ensures Drains(s'.sched.threads[u].pc) || PcRank(s'.sched.threads[u].pc) < PcRank(s.sched.threads[u].pc)
  {
    forall t | Handles(s.sched.threads[u].pc, t) ensures t in s.sched.status { HandledIsKnown(s.sched, u, t); }
    WalkGuard(s.sched, u, c);
    WalkAdvances(s.sched, u, c);
    path, s' := PcStep(s, u, NextWalk(s.sched, s.sched.threads[u].pc, c), c);
  }

  lemma SettleWalker(s: TimerState, u: Tid, c: Choice) returns (path: Path, s': TimerState)
    requires Live(s, c) && Walks(s.sched, u)
    ensures Leads(s, path, s', c) && Live(s', c) && Settled(s', u) && Walks(s'.sched, u)
    ensures s'.sched.threads[u].pc == s.sched.threads[u].pc
  {
    path, s' := Settle(s, u, c);
    KeptLive(s, s', u, c);
  }

  /** The worker gets to the inbox, or to the queue with nobody driving. */
  lemma {:induction false} WalksOn(s: TimerState, u: Tid, c: Choice) returns (path: Path, s': TimerState)
    requires Live(s, c) && Walks(s.sched, u) && c.timely
    ensures Leads(s, path, s', c) && Live(s', c) && Settled(s', u) && Walks(s'.sched, u)
    ensures Drains(s'.sched.threads[u].pc) || s'.sched.threads[u].pc.Dequeueing?
    decreases !Drains(s.sched.threads[u].pc), PcRank(s.sched.threads[u].pc)
  {
    path, s' := SettleWalker(s, u, c);
    if !Drains(s'.sched.threads[u].pc) && !s'.sched.threads[u].pc.Dequeueing? {
      var step, s1 := WalkStep(s', u, c);
      LeadsOn(s, path, s', step, s1, c);
      var more, s2 := WalksOn(s1, u, c);
      LeadsOn(s, path + step, s1, more, s2, c);
      path, s' := path + step + more, s2;
    }
  }

  // ---- Emptying the queue ----

  lemma StepLive(s: TimerState, i: Tid, a: TimerAction, c: Choice)
    requires Live(s, c) && TimerPrompt(s, i, a, c)
    ensures Live(TimerApply(s, i, a), c)
  {
    KeepsTimerInv(s, i, a);
    Projects(s, i, a);
    if SchedPart(s, i, a).Some? {
      TasksStayKnown(s.sched, i, SchedPart(s, i, a).value);
      PartDoesNotShutDown(s, i, a, c);
    }
  }

  lemma PartDoesNotShutDown(s: TimerState, i: Tid, a: TimerAction, c: Choice)
    requires TimerPrompt(s, i, a, c) && SchedPart(s, i, a).Some?
    ensures !SchedPart(s, i, a).value.BeginShutdown?
  {
  }

  lemma {:induction false} PathLive(states: seq<TimerState>, path: Path, c: Choice, n: nat)
    requires IsPromptPath(states, path, c) && n <= |path| && Live(states[0], c)
    ensures Live(states[n], c)
  {
    if n > 0 {
      PathLive(states, path, c, n - 1);
      assert Goes(states[n - 1], path[n - 1], states[n], c);
      StepLive(states[n - 1], path[n - 1].0, path[n - 1].1, c);
    }
  }

  lemma LeadsLive(s: TimerState, path: Path, s': TimerState, c: Choice)
    requires Live(s, c) && Leads(s, path, s', c)
    ensures Live(s', c)
  {
    var states :| IsPromptPath(states, path, c) && states[0] == s && states[|path|] == s';
    PathLive(states, path, c, |path|);
  }

  lemma StillRunning(s: TimerState, path: Path, s': TimerState, c: Choice)
    requires Live(s, c) && Leads(s, path, s', c)
    ensures !s'.sched.shutdown
  {
    LeadsLive(s, path, s', c);
  }

  /** Thread `u` is at `pc`, settled, with queue `q` and the token as in `token`. */
  ghost predicate IsAt(s: TimerState, u: Tid, pc: Pc, q: seq<TaskId>, token: bool) {
    Settled(s, u) && s.sched.threads[u].pc == pc && s.sched.token == token && s.sched.ready.queue == q
  }

  /** A step of the worker's own code that begins nothing. */
  predicate IsQuick(s: State, u: Tid, sa: Action, c: Choice) {
    && Prompt(s, Step(u, sa), c) && IsPcStep(sa) && !IsDriverStep(sa)
    && OpAfter(s, u, sa).NoOp? && Effect(s, u, sa).queueLock.Nobody?
  }

  lemma QuickStep(s: TimerState, u: Tid, sa: Action, c: Choice) returns (path: Path, s': TimerState)
    requires Live(s, c) && Settled(s, u) && IsQuick(s.sched, u, sa, c)
    ensures Leads(s, path, s', c)
    ensures var e := Effect(s.sched, u, sa);
            IsAt(s', u, PcAfter(s.sched, u, sa), e.ready.queue, e.token) && s'.sched.status == e.status
    ensures s'.sched.shutdown == s.sched.shutdown
  {
    path, s' := PcStep(s, u, sa, c);
  }

  /** A quick step at the end of a path, and where it leaves the worker. */
  lemma QuickSteps(s: TimerState, path: Path, s1: TimerState, u: Tid, sa: Action, c: Choice) returns (path': Path, s': TimerState)
    requires Live(s, c) && Leads(s, path, s1, c)
    requires Settled(s1, u) && IsQuick(s1.sched, u, sa, c)
    ensures Leads(s, path', s', c)
    ensures var e := Effect(s1.sched, u, sa);
            IsAt(s', u, PcAfter(s1.sched, u, sa), e.ready.queue, e.token) && s'.sched.status == e.status
    ensures s'.sched.shutdown == s1.sched.shutdown
  {
    LeadsLive(s, path, s1, c);
    var more;
    more, s' := QuickStep(s1, u, sa, c);
    LeadsOn(s, path, s1, more, s', c);
    path' := path + more;
  }

  predicate HasStatus(s: TimerState, t: TaskId, st: Status) { t in s.sched.status && s.sched.status[t] == st }

  lemma IsHandled(s: TimerState, path: Path, s1: TimerState, u: Tid, t: TaskId, c: Choice)
    requires Live(s, c) && Leads(s, path, s1, c) && u < |s1.sched.threads|
    requires s1.sched.threads[u].pc == Lookup(t) || s1.sched.threads[u].pc == CasRun(t)
    ensures t in s1.sched.tasks && t in s1.sched.status && s1.sched.status[t].Scheduled?
  {
    LeadsLive(s, path, s1, c);
    assert HasPlace(s1.sched, t) && Handles(s1.sched.threads[u].pc, t);
  }

  /** The worker is about to dequeue, with nobody driving. */
  ghost predicate AtQueue(s: TimerState, u: Tid, c: Choice) {
    Live(s, c) && IsAt(s, u, Dequeueing, s.sched.ready.queue, false)
  }

  // The steps of one lap, and of becoming the driver, one by one.

  lemma StepDequeue(s: TimerState, path: Path, s1: TimerState, u: Tid, t: TaskId, q: seq<TaskId>, c: Choice)
      returns (path': Path, s': TimerState)
    requires Live(s, c) && Leads(s, path, s1, c) && IsAt(s1, u, Dequeueing, [t] + q, false)
    ensures Leads(s, path', s', c) && IsAt(s', u, Lookup(t), q, false)
  {
    path', s' := QuickSteps(s, path, s1, u, DequeueReady, c);
  }

  lemma StepLookup(s: TimerState, path: Path, s1: TimerState, u: Tid, t: TaskId, q: seq<TaskId>, c: Choice)
      returns (path': Path, s': TimerState)
    requires Live(s, c) && Leads(s, path, s1, c) && IsAt(s1, u, Lookup(t), q, false)
    ensures Leads(s, path', s', c) && IsAt(s', u, CasRun(t), q, false)
  {
    IsHandled(s, path, s1, u, t, c);
    path', s' := QuickSteps(s, path, s1, u, LookupTask, c);
  }

  lemma StepRun(s: TimerState, path: Path, s1: TimerState, u: Tid, t: TaskId, q: seq<TaskId>, c: Choice)
      returns (path': Path, s': TimerState)
    requires Live(s, c) && Leads(s, path, s1, c) && IsAt(s1, u, CasRun(t), q, false)
    ensures Leads(s, path', s', c) && IsAt(s', u, Polling(t), q, false) && HasStatus(s', t, Running)
  {
    IsHandled(s, path, s1, u, t, c);
    path', s' := QuickSteps(s, path, s1, u, CasRunning, c);
  }

  lemma StepPending(s: TimerState, path: Path, s1: TimerState, u: Tid, t: TaskId, q: seq<TaskId>, c: Choice)
      returns (path': Path, s': TimerState)
    requires Live(s, c) && Leads(s, path, s1, c) && IsAt(s1, u, Polling(t), q, false) && HasStatus(s1, t, Running) && t !in c.finishing
    ensures Leads(s, path', s', c) && IsAt(s', u, CasIdle(t), q, false) && HasStatus(s', t, Running)
  {
    path', s' := QuickSteps(s, path, s1, u, PollPending, c);
  }

  lemma StepIdle(s: TimerState, path: Path, s1: TimerState, u: Tid, t: TaskId, q: seq<TaskId>, c: Choice)
      returns (path': Path, s': TimerState)
    requires Live(s, c) && Leads(s, path, s1, c) && IsAt(s1, u, CasIdle(t), q, false) && HasStatus(s1, t, Running)
    ensures Leads(s, path', s', c) && IsAt(s', u, Top, q, false)
  {
    path', s' := QuickSteps(s, path, s1, u, CasBackToIdle, c);
  }

  lemma StepDone(s: TimerState, path: Path, s1: TimerState, u: Tid, t: TaskId, q: seq<TaskId>, c: Choice)
      returns (path': Path, s': TimerState)
    requires Live(s, c) && Leads(s, path, s1, c) && IsAt(s1, u, Polling(t), q, false) && t in c.finishing
    ensures Leads(s, path', s', c) && IsAt(s', u, Remove(t), q, false)
  {
    path', s' := QuickSteps(s, path, s1, u, PollDone, c);
  }

  lemma StepRemove(s: TimerState, path: Path, s1: TimerState, u: Tid, t: TaskId, q: seq<TaskId>, c: Choice)
      returns (path': Path, s': TimerState)
    requires Live(s, c) && Leads(s, path, s1, c) && IsAt(s1, u, Remove(t), q, false)
    ensures Leads(s, path', s', c) && IsAt(s', u, Decr, q, false)
  {
    path', s' := QuickSteps(s, path, s1, u, RemoveTask, c);
  }

  lemma StepUncount(s: TimerState, path: Path, s1: TimerState, u: Tid, q: seq<TaskId>, c: Choice)
      returns (path': Path, s': TimerState)
    requires Live(s, c) && Leads(s, path, s1, c) && IsAt(s1, u, Decr, q, false)
    ensures Leads(s, path', s', c) && IsAt(s', u, NotifyDone, q, false)
  {
    path', s' := QuickSteps(s, path, s1, u, Uncount, c);
  }

  lemma StepNotify(s: TimerState, path: Path, s1: TimerState, u: Tid, q: seq<TaskId>, c: Choice)
      returns (path': Path, s': TimerState)
    requires Live(s, c) && Leads(s, path, s1, c) && IsAt(s1, u, NotifyDone, q, false)
    ensures Leads(s, path', s', c) && IsAt(s', u, Top, q, false)
  {
    path', s' := QuickSteps(s, path, s1, u, NotifyFinished, c);
  }

  lemma StepTop(s: TimerState, path: Path, s1: TimerState, u: Tid, q: seq<TaskId>, c: Choice)
      returns (path': Path, s': TimerState)
    requires Live(s, c) && Leads(s, path, s1, c) && IsAt(s1, u, Top, q, false)
    ensures Leads(s, path', s', c) && IsAt(s', u, Dequeueing, q, false)
  {
    StillRunning(s, path, s1, c);
    path', s' := QuickSteps(s, path, s1, u, LoadShutdown, c);
  }

  lemma StepEmpty(s: TimerState, path: Path, s1: TimerState, u: Tid, c: Choice)
      returns (path': Path, s': TimerState)
    requires Live(s, c) && Leads(s, path, s1, c) && IsAt(s1, u, Dequeueing, [], false)
    ensures Leads(s, path', s', c) && IsAt(s', u, CasToken, [], false)
  {
    path', s' := QuickSteps(s, path, s1, u, DequeueReady, c);
  }

  lemma StepToken(s: TimerState, path: Path, s1: TimerState, u: Tid, c: Choice)
      returns (path': Path, s': TimerState)
    requires Live(s, c) && Leads(s, path, s1, c) && IsAt(s1, u, CasToken, [], false)
    ensures Leads(s, path', s', c) && IsAt(s', u, Recheck, [], true)
  {
    path', s' := QuickSteps(s, path, s1, u, TakeToken, c);
  }

  lemma StepRecheck(s: TimerState, path: Path, s1: TimerState, u: Tid, c: Choice)
      returns (path': Path, s': TimerState)
    requires Live(s, c) && Leads(s, path, s1, c) && IsAt(s1, u, Recheck, [], true)
    ensures Leads(s, path', s', c) && IsAt(s', u, Drain1, [], true)
  {
    path', s' := QuickSteps(s, path, s1, u, RecheckReady, c);
  }

  lemma StartsHead(s: TimerState, u: Tid, t: TaskId, q: seq<TaskId>, c: Choice) returns (path: Path, s': TimerState)
    requires AtQueue(s, u, c) && s.sched.ready.queue == [t] + q
    ensures Leads(s, path, s', c) && IsAt(s', u, Polling(t), q, false) && HasStatus(s', t, Running)
  {
    NoStep(s, c);
    path, s' := StepDequeue(s, [], s, u, t, q, c);
    path, s' := StepLookup(s, path, s', u, t, q, c);
    path, s' := StepRun(s, path, s', u, t, q, c);
  }

  lemma EndsPoll(s: TimerState, path: Path, s1: TimerState, u: Tid, t: TaskId, q: seq<TaskId>, c: Choice)
      returns (path': Path, s': TimerState)
    requires Live(s, c) && Leads(s, path, s1, c) && IsAt(s1, u, Polling(t), q, false) && HasStatus(s1, t, Running)
    ensures Leads(s, path', s', c) && IsAt(s', u, Top, q, false)
  {
    if t in c.finishing {
      path', s' := StepDone(s, path, s1, u, t, q, c);
      path', s' := StepRemove(s, path', s', u, t, q, c);
      path', s' := StepUncount(s, path', s', u, q, c);
      path', s' := StepNotify(s, path', s', u, q, c);
    } else {
      path', s' := StepPending(s, path, s1, u, t, q, c);
      path', s' := StepIdle(s, path', s', u, t, q, c);
    }
  }

  /** One task less in the queue. */
  lemma OneLap(s: TimerState, u: Tid, c: Choice) returns (path: Path, s': TimerState)
    requires AtQueue(s, u, c) && s.sched.ready.queue != []
    ensures Leads(s, path, s', c) && AtQueue(s', u, c) && s'.sched.ready.queue == s.sched.ready.queue[1..]
  {
    var t, q := s.sched.ready.queue[0], s.sched.ready.queue[1..];
    assert s.sched.ready.queue == [t] + q;
    path, s' := StartsHead(s, u, t, q, c);
    path, s' := EndsPoll(s, path, s', u, t, q, c);
    path, s' := StepTop(s, path, s', u, q, c);
    LeadsLive(s, path, s', c);
  }

  lemma BecomesDriver(s: TimerState, u: Tid, c: Choice) returns (path: Path, s': TimerState)
    requires AtQueue(s, u, c) && s.sched.ready.queue == []
    ensures Leads(s, path, s', c) && Live(s', c) && Settled(s', u) && s'.sched.threads[u].pc.Drain1?
  {
    NoStep(s, c);
    path, s' := StepEmpty(s, [], s, u, c);
    path, s' := StepToken(s, path, s', u, c);
    path, s' := StepRecheck(s, path, s', u, c);
    LeadsLive(s, path, s', c);
  }

  lemma {:induction false} EmptiesQueue(s: TimerState, u: Tid, c: Choice) returns (path: Path, s': TimerState)
    requires AtQueue(s, u, c)
    ensures Leads(s, path, s', c) && Live(s', c) && Settled(s', u) && s'.sched.threads[u].pc.Drain1?
    decreases |s.sched.ready.queue|
  {
    if s.sched.ready.queue == [] {
      path, s' := BecomesDriver(s, u, c);
    } else {
      var path1, s1 := OneLap(s, u, c);
      var more;
      more, s' := EmptiesQueue(s1, u, c);
      LeadsOn(s, path1, s1, more, s', c);
      path := path1 + more;
    }
  }

  // ---- Firing what is due ----

  lemma ReachesDrain(s: TimerState, c: Choice) returns (path: Path, s': TimerState, u: Tid)
    requires Live(s, c) && c.timely
    ensures Leads(s, path, s', c) && Live(s', c) && Settled(s', u) && Drains(s'.sched.threads[u].pc)
  {
    u := SomebodyWalks(s.sched);
    path, s' := WalksOn(s, u, c);
    if s'.sched.threads[u].pc.Dequeueing? {
      var more, s1 := EmptiesQueue(s', u, c);
      LeadsOn(s, path, s', more, s1, c);
      path, s' := path + more, s1;
    }
  }

  /** After a drain every known timer is out of the inbox and the drainer will read the clock. */
  lemma DrainTakesAll(s: TimerState, u: Tid, c: Choice) returns (path: Path, s': TimerState)
    requires Live(s, c) && Settled(s, u) && Drains(s.sched.threads[u].pc)
    ensures Leads(s, path, s', c) && Live(s', c) && s'.inbox == [] && u in s'.firing && s'.firing[u].ReadClock?
    ensures u < |s'.sched.threads| && Fires(s'.sched.threads[u].pc)
    ensures s'.timers == s.timers && s'.clock == s.clock
  {
    path, s' := PcStep(s, u, DrainInbox, c);
  }

  /** A thread that has settled in the firing loop with the present time has left nothing due. */
  lemma NothingDueLeft(s: TimerState, u: Tid, k: TimerId)
    requires TimerInv(s) && Settled(s, u) && Fires(s.sched.threads[u].pc) && IsFresh(s, u)
    requires k in s.timers && k !in s.inbox && s.timers[k].deadline <= s.clock
    ensures k in s.fired
  {
    assert PlaceOk(s, u) && TimerOk(s, k);
  }

  lemma LoopStopsLive(s: TimerState, u: Tid, c: Choice) returns (s': TimerState)
    requires Live(s, c) && Settled(s, u) && Fires(s.sched.threads[u].pc)
    ensures Leads(s, [(u, StopFiring)], s', c) && Live(s', c) && s'.fired == s.fired && s'.timers == s.timers
    ensures s'.firing == map[]
  {
    var path;
    path, s' := PcStep(s, u, FiringDone, c);
    OneStep(s, u, StopFiring, c);
    OnlyFirer(s, u);
    assert s'.firing == s.firing - {u};
  }

  lemma OnlyFirer(s: TimerState, u: Tid)
    requires TimerInv(s) && u < |s.sched.threads| && Fires(s.sched.threads[u].pc)
    ensures s.firing.Keys == {u}
  {
    assert PlaceOk(s, u);
    DriverAlone(s, u);
  }

  /** The drained timers that are due get fired. */
  lemma DrainedGetsFired(s: TimerState, u: Tid, k: TimerId, c: Choice) returns (path: Path, s': TimerState)
    requires Live(s, c) && u < |s.sched.threads| && Fires(s.sched.threads[u].pc) && u in s.firing && s.firing[u].ReadClock?
    requires s.inbox == [] && k in s.timers && s.timers[k].deadline <= s.clock
    ensures Leads(s, path, s', c) && Live(s', c) && k in s'.fired && s'.firing == map[]
  {
    var path1, s1 := Settle(s, u, c);
    KeptLive(s, s1, u, c);
    LeadsKeeps(s, path1, s1, c, k, u);
    NothingDueLeft(s1, u, k);
    s' := LoopStopsLive(s1, u, c);
    LeadsOn(s, path1, s1, [(u, StopFiring)], s', c);
    path := path1 + [(u, StopFiring)];
  }

  /** From any state on, a due timer gets fired and the firing loop left. */
  lemma DueGetsFired(s: TimerState, k: TimerId, c: Choice) returns (path: Path, s': TimerState)
    requires Live(s, c) && c.timely && k in s.timers && s.timers[k].deadline <= s.clock
    ensures Leads(s, path, s', c) && Live(s', c) && k in s'.fired && s'.firing == map[]
  {
    var path1, s1, u := ReachesDrain(s, c);
    LeadsKeeps(s, path1, s1, c, k, |s.sched.threads|) by { NobodyBeyond(s); }
    var path2, s2 := DrainTakesAll(s1, u, c);
    LeadsOn(s, path1, s1, path2, s2, c);
    var path3;
    path3, s' := DrainedGetsFired(s2, u, k, c);
    LeadsOn(s, path1 + path2, s2, path3, s', c);
    path := path1 + path2 + path3;
  }

  lemma NobodyBeyond(s: TimerState)
    requires TimerInv(s)
    ensures IsFresh(s, |s.sched.threads|)
  {
    assert PlaceOk(s, |s.sched.threads|);
  }

  /** Once its timer has fired and nobody is firing, whoever waits for it has been woken. */
  lemma FiredIsWoken(s: TimerState, k: TimerId, w: TaskId)
    requires TimerInv(s) && k in s.fired && s.firing == map[] && IsAwaited(s, k, w)
    ensures WakePending(s.sched, w) || w in s.sched.done
  {
    assert k in s.timers && TimerOk(s, k);
  }

  // ---- Main result ----

  /**
   A due Sleep ends: in every reachable state before shutdown, the task of the last pending poll
   of a Sleep whose deadline has passed gets to its next poll, or to its end, with no wait but
   the driver's bounded one, whatever the surroundings choose.
   */
  lemma DueSleeperIsPolled(states: seq<TimerState>, steps: Path, n: nat, k: TimerId, c: Choice)
      returns (path: Path, s': TimerState)
    requires IsTimerRun(states, steps) && n < |states| && !states[n].sched.shutdown && c.timely
    requires forall m :: 0 <= m < |c.collected| ==> c.collected[m] in states[n].sched.status
    requires k in states[n].awaiting && k in states[n].timers && states[n].timers[k].deadline <= states[n].clock
    ensures var w := states[n].awaiting[k];
            PollStarts(states[n], path, s', w, c) || (Leads(states[n], path, s', c) && w in s'.sched.done)
  {
    TimerRunInv(states, steps, n);
    var s, w := states[n], states[n].awaiting[k];
    var path1, s1 := DueGetsFired(s, k, c);
    var polled;
    polled, path, s' := WaitsOrIsPolled(s, path1, s1, k, w, c);
    if !polled {
      FiredIsWoken(s1, k, w);
      path, s' := path1, s1;
      if w !in s1.sched.done {
        var more, s2 := WokenIsPolled(s1, w, c);
        path, s' := path1 + more, s2;
        ThenReaches(s, path1, s1, more, s2, w, c);
      }
    }
  }

  lemma ThenReaches(s: TimerState, path: Path, s1: TimerState, more: Path, s2: TimerState, w: TaskId, c: Choice)
    requires Leads(s, path, s1, c)
    requires PollStarts(s1, more, s2, w, c) || (Leads(s1, more, s2, c) && w in s2.sched.done)
    ensures PollStarts(s, path + more, s2, w, c) || (Leads(s, path + more, s2, c) && w in s2.sched.done)
  {
    LeadsOn(s, path, s1, more, s2, c);
    if EndsInPoll(more, s2, w) { StillEndsInPoll(path, more, s2, w); }
  }
}
