/**
 No stuck run.  From every reachable state of the pool before shutdown, timers and collected
 wakers included, a task that has been woken gets to its next poll by steps that wait for
 nothing, whatever the surroundings choose.
 */
module Progress {
  import opened Shared
  import opened Scheduler
  import opened SchedulerOwnership
  import opened SchedulerDriver
  import opened SchedulerTheorems
  import opened SchedulerSteps
  import opened SleepTimers
  import opened SleepTimerProofs
  import opened Settling

  /** The invariant, with the chosen wakers those of known tasks. */
  ghost predicate Sound(s: TimerState, c: Choice) {
    TimerInv(s) && forall n :: 0 <= n < |c.collected| ==> c.collected[n] in s.sched.status
  }

  /** The same with the pool running. */
  ghost predicate Live(s: TimerState, c: Choice) { Sound(s, c) && !s.sched.shutdown }

  lemma KeptLive(s: TimerState, s': TimerState, w: Tid, c: Choice)
    requires Live(s, c) && Kept(s, s', w)
    ensures Live(s', c)
  {
  }

  // ---- A worker's own steps ----

  /** The timer action that takes scheduler step `sa`. */
  function Lifted(sa: Action, c: Choice): TimerAction {
    match sa
    case DrainInbox => Drain
    case FiringDone => StopFiring
    case DrainEventFd => CollectWakers(c.collected)
    case WakersDone => CallsDone
    case _ => Sched(sa)
  }

  predicate IsPcStep(a: Action) {
    !IsOpStep(a) && !a.BeginWake? && !a.BeginSpawn? && !a.BeginSleep? && !a.BeginShutdown?
  }

  predicate IsDriverStep(a: Action) { a.DrainInbox? || a.FiringDone? || a.DrainEventFd? || a.WakersDone? }

  lemma DriverStepEnabled(s: TimerState, w: Tid, sa: Action, c: Choice)
    requires PlaceOk(s, w) && Settled(s, w) && Enabled(s.sched, w, sa) && IsDriverStep(sa) && s.heap <= s.timers.Keys
    requires forall n :: 0 <= n < |c.collected| ==> c.collected[n] in s.sched.status
    ensures TimerPrompt(s, w, Lifted(sa, c), c)
  {
  }

  lemma OwnStepEnabled(s: TimerState, w: Tid, sa: Action, c: Choice)
    requires PlaceOk(s, w) && Settled(s, w) && Prompt(s.sched, Step(w, sa), c) && IsPcStep(sa) && !IsDriverStep(sa)
    ensures TimerPrompt(s, w, Sched(sa), c)
  {
  }

  /** A settled thread can take the next step of its own code. */
  lemma LiftedEnabled(s: TimerState, w: Tid, sa: Action, c: Choice)
    requires PlaceOk(s, w) && Settled(s, w) && Prompt(s.sched, Step(w, sa), c) && IsPcStep(sa) && s.heap <= s.timers.Keys
    requires forall n :: 0 <= n < |c.collected| ==> c.collected[n] in s.sched.status
    ensures TimerPrompt(s, w, Lifted(sa, c), c)
    ensures TimerApply(s, w, Lifted(sa, c)).sched == Apply(s.sched, w, sa)
  {
    if IsDriverStep(sa) { DriverStepEnabled(s, w, sa, c); } else { OwnStepEnabled(s, w, sa, c); }
  }

  lemma PcStep(s: TimerState, w: Tid, sa: Action, c: Choice) returns (path: Path, s': TimerState)
    requires Sound(s, c) && Settled(s, w) && Prompt(s.sched, Step(w, sa), c) && IsPcStep(sa)
    ensures Leads(s, path, s', c) && Sound(s', c) && s'.sched == Apply(s.sched, w, sa)
    ensures s'.sched.shutdown == s.sched.shutdown
    ensures TimerEnabled(s, w, Lifted(sa, c)) && s' == TimerApply(s, w, Lifted(sa, c))
  {
    var a := Lifted(sa, c);
    assert PlaceOk(s, w);
    LiftedEnabled(s, w, sa, c);
    OneStep(s, w, a, c);
    KeepsTimerInv(s, w, a);
    TasksStayKnown(s.sched, w, sa);
    PcStepGoesOn(s.sched, w, sa);
    path, s' := [(w, a)], TimerApply(s, w, a);
  }

  lemma PcStepGoesOn(s: State, w: Tid, sa: Action)
    requires Enabled(s, w, sa) && IsPcStep(sa)
    ensures Effect(s, w, sa).shutdown == s.shutdown
  {
  }

  lemma SomebodyPokes(s: State, w: Tid) returns (j: Tid)
    requires Driver(s) && w < |s.threads| && s.threads[w].pc.Wait? && s.ready.queue != [] && s.eventfd == 0
    ensures j < |s.threads| && AboutToPoke(s.threads[j].op) && s.token
  {
    var p :| DriverIs(s, p);
    assert Drives(s.threads[w].pc) && Committed(s.threads[w].pc);
    j :| 0 <= j < |s.threads| && AboutToPoke(s.threads[j].op);
  }

  /** The worker waits in epoll_wait with work queued: whoever pushed it pokes the eventfd. */
  lemma GetsPoked(s: TimerState, w: Tid, c: Choice) returns (path: Path, s': TimerState)
    requires Live(s, c) && Settled(s, w) && s.sched.threads[w].pc.Wait?
    requires s.sched.ready.queue != [] && s.sched.eventfd == 0
    ensures Leads(s, path, s', c) && Live(s', c) && Settled(s', w) && s'.sched.eventfd > 0
    ensures s'.sched.ready == s.sched.ready && |s'.sched.threads| == |s.sched.threads|
    ensures s'.sched.threads[w] == s.sched.threads[w]
  {
    var j := SomebodyPokes(s.sched, w);
    if s.sched.threads[j].op.EnqWake? {
      path, s' := OpStep(s, j, Poke, w, c);
    } else {
      path, s' := LoadsAndPokes(s, j, w, c);
    }
  }

  lemma LoadsAndPokes(s: TimerState, j: Tid, w: Tid, c: Choice) returns (path: Path, s': TimerState)
    requires Live(s, c) && Settled(s, w) && w != j && j < |s.sched.threads| && s.sched.threads[j].op.EnqLoadToken? && s.sched.token
    ensures Leads(s, path, s', c) && Live(s', c) && Settled(s', w) && s'.sched.eventfd > 0
    ensures s'.sched.ready == s.sched.ready && |s'.sched.threads| == |s.sched.threads|
    ensures s'.sched.threads[w] == s.sched.threads[w]
  {
    var path1, s1 := OpStep(s, j, LoadToken, w, c);
    path, s' := OpStep(s1, j, Poke, w, c);
    LeadsOn(s, path1, s1, path, s', c);
    path := path1 + path;
  }

  lemma PokeKeeps(s: TimerState, j: Tid, sa: Action, w: Tid, c: Choice)
    requires PlaceOk(s, j) && Settled(s, w) && w != j && (sa.Poke? || sa.LoadToken?) && Enabled(s.sched, j, sa)
    ensures TimerPrompt(s, j, Sched(sa), c)
    ensures var s' := TimerApply(s, j, Sched(sa));
            && s' == s.(sched := Apply(s.sched, j, sa)) && Settled(s', w)
            && s'.sched.ready == s.sched.ready && s'.sched.threads[w] == s.sched.threads[w]
            && s'.sched.shutdown == s.sched.shutdown && s'.sched.status == s.sched.status
            && (sa.Poke? ==> s'.sched.eventfd > 0)
  {
  }

  /** One step of another thread on its way to the poke. */
  lemma OpStep(s: TimerState, j: Tid, sa: Action, w: Tid, c: Choice) returns (path: Path, s': TimerState)
    requires Live(s, c) && Settled(s, w) && w != j && (sa.Poke? || sa.LoadToken?) && Enabled(s.sched, j, sa)
    ensures Leads(s, path, s', c) && Live(s', c) && Settled(s', w) && s' == s.(sched := Apply(s.sched, j, sa))
    ensures s'.sched.ready == s.sched.ready && s'.sched.threads[w] == s.sched.threads[w]
    ensures sa.Poke? ==> s'.sched.eventfd > 0
  {
    assert PlaceOk(s, j);
    PokeKeeps(s, j, sa, w, c);
    OneStep(s, j, Sched(sa), c);
    KeepsTimerInv(s, j, Sched(sa));
    path, s' := [(j, Sched(sa))], TimerApply(s, j, Sched(sa));
  }

  // ---- To the head of the queue ----

  /** What a worker that got to the queue has done: taken its head and nothing else. */
  ghost predicate TookHead(s: TimerState, s': TimerState, w: Tid)
    requires s.sched.ready.queue != [] && w < |s.sched.threads|
  {
    && |s'.sched.threads| == |s.sched.threads|
    && s'.sched.threads[w] == Thread(Lookup(s.sched.ready.queue[0]), NoOp)
    && s.sched.ready.queue[1..] <= s'.sched.ready.queue
  }

  /** A worker that is ready to take a step of its own code takes it: the dequeue, or one that brings it nearer. */
  lemma Nearer(s: TimerState, w: Tid, c: Choice) returns (path: Path, s': TimerState)
    requires Live(s, c) && Settled(s, w) && Useful(s.sched.threads[w].pc) && s.sched.ready.queue != []
    requires s.sched.threads[w].pc.Wait? ==> s.sched.eventfd > 0
    ensures Leads(s, path, s', c) && Live(s', c)
    ensures if s.sched.threads[w].pc.Dequeueing? then TookHead(s, s', w)
            else
              && |s'.sched.threads| == |s.sched.threads| && Useful(s'.sched.threads[w].pc)
              && PcRank(s'.sched.threads[w].pc) < PcRank(s.sched.threads[w].pc)
              && s'.sched.ready == s.sched.ready
  {
    forall t | Handles(s.sched.threads[w].pc, t) ensures t in s.sched.status { HandledIsKnown(s.sched, w, t); }
    NextPcPrompt(s.sched, w, c);
    AdvancePc(s.sched, w, c);
    path, s' := PcStep(s, w, NextPc(s.sched.threads[w].pc, c), c);
  }

  /** The worker finishes what it has begun and, if it waits in epoll_wait, is poked. */
  lemma GetsReady(s: TimerState, w: Tid, c: Choice) returns (path: Path, s': TimerState)
    requires Live(s, c) && w < |s.sched.threads| && Useful(s.sched.threads[w].pc) && s.sched.ready.queue != []
    ensures Leads(s, path, s', c) && Live(s', c) && Settled(s', w)
    ensures |s'.sched.threads| == |s.sched.threads| && s'.sched.threads[w].pc == s.sched.threads[w].pc
    ensures s.sched.ready.queue <= s'.sched.ready.queue && (s.sched.threads[w].pc.Wait? ==> s'.sched.eventfd > 0)
  {
    path, s' := Settle(s, w, c);
    KeptLive(s, s', w, c);
    if s'.sched.threads[w].pc.Wait? && s'.sched.eventfd == 0 {
      var poke, s2 := GetsPoked(s', w, c);
      LeadsOn(s, path, s', poke, s2, c);
      path, s' := path + poke, s2;
    }
  }

  /** The worker gets ready and takes one step of its own code. */
  lemma GetsNearer(s: TimerState, w: Tid, c: Choice) returns (path: Path, s': TimerState)
    requires Live(s, c) && w < |s.sched.threads| && Useful(s.sched.threads[w].pc) && s.sched.ready.queue != []
    ensures Leads(s, path, s', c) && Live(s', c) && |s'.sched.threads| == |s.sched.threads|
    ensures if s.sched.threads[w].pc.Dequeueing? then TookHead(s, s', w)
            else
              && Useful(s'.sched.threads[w].pc) && PcRank(s'.sched.threads[w].pc) < PcRank(s.sched.threads[w].pc)
              && s.sched.ready.queue <= s'.sched.ready.queue
  {
    var path1, s1 := GetsReady(s, w, c);
    path, s' := Nearer(s1, w, c);
    LeadsOn(s, path1, s1, path, s', c);
    path := path1 + path;
  }

  /** Every worker that is not parked and does not hold the queue mutex gets to the head of the queue. */
  lemma {:induction false} ReachesHead(s: TimerState, w: Tid, c: Choice) returns (path: Path, s': TimerState)
    requires Live(s, c) && w < |s.sched.threads| && Useful(s.sched.threads[w].pc) && s.sched.ready.queue != []
    ensures Leads(s, path, s', c) && Live(s', c) && TookHead(s, s', w)
    decreases PcRank(s.sched.threads[w].pc)
  {
    path, s' := GetsNearer(s, w, c);
    if !s.sched.threads[w].pc.Dequeueing? {
      var more, s2 := ReachesHead(s', w, c);
      LeadsOn(s, path, s', more, s2, c);
      path, s' := path + more, s2;
    }
  }

  // ---- To the poll ----

  /** The path ends with the CAS by which a worker starts polling `t`. */
  predicate EndsInPoll(path: Path, s': TimerState, t: TaskId) {
    && path != [] && path[|path| - 1].1 == Sched(CasRunning)
    && path[|path| - 1].0 < |s'.sched.threads| && s'.sched.threads[path[|path| - 1].0].pc == Polling(t)
  }

  ghost predicate PollStarts(s: TimerState, path: Path, s': TimerState, t: TaskId, c: Choice) {
    Leads(s, path, s', c) && EndsInPoll(path, s', t)
  }

  lemma StillEndsInPoll(path: Path, more: Path, s': TimerState, t: TaskId)
    requires EndsInPoll(more, s', t)
    ensures EndsInPoll(path + more, s', t)
  {
    assert (path + more)[|path + more| - 1] == more[|more| - 1];
  }

  lemma ThenPollStarts(s: TimerState, path: Path, s1: TimerState, more: Path, s2: TimerState, t: TaskId, c: Choice)
    requires Leads(s, path, s1, c) && PollStarts(s1, more, s2, t, c)
    ensures PollStarts(s, path + more, s2, t, c)
  {
    StillEndsInPoll(path, more, s2, t);
    LeadsOn(s, path, s1, more, s2, c);
  }

  /** A worker inside poll_task is not in the middle of anything else. */
  lemma HandlerIsFree(s: TimerState, w: Tid)
    requires TimerInv(s) && w < |s.sched.threads|
    requires s.sched.threads[w].pc.Lookup? || s.sched.threads[w].pc.CasRun? || s.sched.threads[w].pc.CasIdle? || s.sched.threads[w].pc.StoreSched?
    ensures s.sched.threads[w].op.NoOp? && w !in s.sleeping && w !in s.firing && w !in s.calls
  {
    assert WellPlaced(s.sched.threads[w]) && PlaceOk(s, w);
  }

  lemma HandlerPrompt(s: TimerState, w: Tid, sa: Action, c: Choice)
    requires Enabled(s.sched, w, sa) && w !in s.sleeping && w !in s.firing && w !in s.calls
    requires sa.LookupTask? || sa.CasRunning? || sa.CasBackToIdle? || sa.StoreScheduled?
    ensures TimerPrompt(s, w, Sched(sa), c)
  {
  }

  /** Steps of poll_task itself, which do not need the queue mutex. */
  lemma HandlerStep(s: TimerState, w: Tid, sa: Action, c: Choice) returns (path: Path, s': TimerState)
    requires Live(s, c) && Enabled(s.sched, w, sa)
    requires sa.LookupTask? || sa.CasRunning? || sa.CasBackToIdle? || sa.StoreScheduled?
    ensures Leads(s, path, s', c) && Live(s', c) && s'.sched == Apply(s.sched, w, sa) && path == [(w, Sched(sa))]
  {
    HandlerIsFree(s, w);
    HandlerPrompt(s, w, sa, c);
    OneStep(s, w, Sched(sa), c);
    KeepsTimerInv(s, w, Sched(sa));
    TasksStayKnown(s.sched, w, sa);
    path, s' := [(w, Sched(sa))], TimerApply(s, w, Sched(sa));
  }

  lemma CasStartsPoll(s: TimerState, w: Tid, t: TaskId, c: Choice) returns (path: Path, s': TimerState)
    requires Live(s, c) && w < |s.sched.threads| && s.sched.threads[w].pc == CasRun(t)
    ensures PollStarts(s, path, s', t, c)
  {
    HandlerIsFree(s, w);
    assert HasPlace(s.sched, t) && Handles(s.sched.threads[w].pc, t);
    path, s' := HandlerStep(s, w, CasRunning, c);
  }

  lemma DequeuedIsPolled(s: TimerState, w: Tid, t: TaskId, c: Choice) returns (path: Path, s': TimerState)
    requires Live(s, c) && w < |s.sched.threads| && s.sched.threads[w].pc == Lookup(t)
    ensures PollStarts(s, path, s', t, c)
  {
    HandlerIsFree(s, w);
    assert HasPlace(s.sched, t) && Handles(s.sched.threads[w].pc, t);
    var path1, s1 := HandlerStep(s, w, LookupTask, c);
    path, s' := CasStartsPoll(s1, w, t, c);
    ThenPollStarts(s, path1, s1, path, s', t, c);
    path := path1 + path;
  }

  lemma HeadIsPolled(s: TimerState, w: Tid, c: Choice) returns (path: Path, s': TimerState)
    requires Live(s, c) && w < |s.sched.threads| && Useful(s.sched.threads[w].pc) && s.sched.ready.queue != []
    ensures PollStarts(s, path, s', s.sched.ready.queue[0], c)
  {
    var path1, s1 := ReachesHead(s, w, c);
    path, s' := DequeuedIsPolled(s1, w, s.sched.ready.queue[0], c);
    ThenPollStarts(s, path1, s1, path, s', s.sched.ready.queue[0], c);
    path := path1 + path;
  }

  /** The worker takes the head away, so that `t` moves up. */
  lemma MovesUp(s: TimerState, w: Tid, n: nat, c: Choice) returns (path: Path, s': TimerState)
    requires Live(s, c) && w < |s.sched.threads| && Useful(s.sched.threads[w].pc) && 0 < n < |s.sched.ready.queue|
    ensures Leads(s, path, s', c) && Live(s', c) && w < |s'.sched.threads| && Useful(s'.sched.threads[w].pc)
    ensures n - 1 < |s'.sched.ready.queue| && s'.sched.ready.queue[n - 1] == s.sched.ready.queue[n]
  {
    path, s' := ReachesHead(s, w, c);
    assert s.sched.ready.queue[1..][n - 1] == s.sched.ready.queue[n];
  }

  /** The worker empties the queue in order until it gets to `t`. */
  lemma {:induction false} QueuedIsPolled(s: TimerState, w: Tid, n: nat, t: TaskId, c: Choice) returns (path: Path, s': TimerState)
    requires Live(s, c) && w < |s.sched.threads| && Useful(s.sched.threads[w].pc)
    requires n < |s.sched.ready.queue| && s.sched.ready.queue[n] == t
    ensures PollStarts(s, path, s', t, c)
    decreases n
  {
    if n == 0 {
      path, s' := HeadIsPolled(s, w, c);
    } else {
      var path1, s1 := MovesUp(s, w, n, c);
      var more, s2 := QueuedIsPolled(s1, w, n - 1, t, c);
      ThenPollStarts(s, path1, s1, more, s2, t, c);
      path, s' := path1 + more, s2;
    }
  }

  lemma QueuedCanBePolled(s: TimerState, t: TaskId, c: Choice) returns (path: Path, s': TimerState)
    requires Live(s, c) && t in s.sched.ready.queue
    ensures PollStarts(s, path, s', t, c)
  {
    var w :| 0 <= w < |s.sched.threads| && Awake(s.sched.threads[w].pc);
    var n :| 0 <= n < |s.sched.ready.queue| && s.sched.ready.queue[n] == t;
    path, s' := QueuedIsPolled(s, w, n, t, c);
  }

  // ---- To the queue ----

  /** A task that thread `j` carries gets into the queue. */
  lemma CarriedIsQueued(s: TimerState, j: Tid, t: TaskId, c: Choice) returns (path: Path, s': TimerState)
    requires Live(s, c) && j < |s.sched.threads| && Carries(s.sched.threads[j].op, t)
    ensures Leads(s, path, s', c) && Live(s', c) && t in s'.sched.ready.queue
  {
    assert HasPlace(s.sched, t);
    var p :| TaskAt(s.sched, t, p);
    assert p == AtOp(j) && WakePending(s.sched, t) && WellPlaced(s.sched.threads[j]);
    path, s' := Settle(s, j, c);
    KeptLive(s, s', j, c);
    OnlyQueueLeft(s.sched, s'.sched, j, t);
  }

  lemma OnlyQueueLeft(s: State, s': State, j: Tid, t: TaskId)
    requires Ownership(s') && SchedKept(s, s', j) && TaskAt(s, t, AtOp(j)) && s'.threads[j].op.NoOp?
    ensures t in s'.ready.queue
  {
    assert WakePending(s, t) && WakePending(s', t) && t !in s'.done;
    forall i | 0 <= i < |s'.threads| ensures !HasTask(s'.threads[i], t) {
      assert !Handles(s.threads[i].pc, t) && (i != j ==> !HasTask(s.threads[i], t));
    }
    assert HasPlace(s', t);
    var p :| TaskAt(s', t, p);
    assert p.AtOp? ==> HasTask(s'.threads[p.tid], t);
    assert p.AtPc? ==> HasTask(s'.threads[p.tid], t);
  }

  predicate IsNotified(s: TimerState, t: TaskId) { t in s.sched.status && s.sched.status[t].Notified? }

  /** The worker that could not set its task back to IDLE enqueues it again. */
  lemma StoredIsQueued(s: TimerState, j: Tid, t: TaskId, c: Choice) returns (path: Path, s': TimerState)
    requires Live(s, c) && j < |s.sched.threads| && s.sched.threads[j].pc == StoreSched(t)
    ensures Leads(s, path, s', c) && Live(s', c) && t in s'.sched.ready.queue
  {
    HandlerIsFree(s, j);
    HandledIsKnown(s.sched, j, t);
    var path1, s1 := HandlerStep(s, j, StoreScheduled, c);
    path, s' := CarriedIsQueued(s1, j, t, c);
    LeadsOn(s, path1, s1, path, s', c);
    path := path1 + path;
  }

  lemma PolledIsQueued(s: TimerState, j: Tid, t: TaskId, c: Choice) returns (path: Path, s': TimerState)
    requires Live(s, c) && j < |s.sched.threads| && s.sched.threads[j].pc == CasIdle(t) && IsNotified(s, t)
    ensures Leads(s, path, s', c) && Live(s', c) && t in s'.sched.ready.queue
  {
    HandlerIsFree(s, j);
    var path1, s1 := HandlerStep(s, j, CasBackToIdle, c);
    path, s' := StoredIsQueued(s1, j, t, c);
    LeadsOn(s, path1, s1, path, s', c);
    path := path1 + path;
  }

  /** A task notified during its poll is queued again, or its poll was the last one. */
  lemma NotifiedIsQueued(s: TimerState, j: Tid, t: TaskId, c: Choice) returns (path: Path, s': TimerState)
    requires Live(s, c) && j < |s.sched.threads| && s.sched.threads[j].pc == Polling(t) && IsNotified(s, t)
    ensures Leads(s, path, s', c) && Live(s', c)
    ensures if t in c.finishing then t in s'.sched.done else t in s'.sched.ready.queue
  {
    var s1, more;
    path, s1 := Settle(s, j, c);
    KeptLive(s, s1, j, c);
    StillNotified(s, s1, j, t);
    more, s' := PcStep(s1, j, if t in c.finishing then PollDone else PollPending, c);
    LeadsOn(s, path, s1, more, s', c);
    path := path + more;
    if t !in c.finishing {
      var s2;
      more, s2 := PolledIsQueued(s', j, t, c);
      LeadsOn(s, path, s', more, s2, c);
      path, s' := path + more, s2;
    }
  }

  lemma StillNotified(s: TimerState, s1: TimerState, j: Tid, t: TaskId)
    requires IsNotified(s, t) && Kept(s, s1, j) && s.sched.threads[j].pc == Polling(t)
    ensures IsNotified(s1, t)
  {
    assert WakePending(s.sched, t) && HasPlace(s1.sched, t);
    var p :| TaskAt(s1.sched, t, p);
    assert Handles(s1.sched.threads[j].pc, t) && p == AtPc(j);
  }

  // ---- Main results ----

  /** A woken task inside poll_task. */
  lemma HandledGetsOn(s: TimerState, j: Tid, t: TaskId, c: Choice) returns (path: Path, s': TimerState, polled: bool)
    requires Live(s, c) && WakePending(s.sched, t) && t !in s.sched.done && TaskAt(s.sched, t, AtPc(j))
    ensures if polled then PollStarts(s, path, s', t, c)
            else Leads(s, path, s', c) && Live(s', c) && (t in s'.sched.ready.queue || t in s'.sched.done)
  {
    polled := false;
    assert Handles(s.sched.threads[j].pc, t);
    match s.sched.threads[j].pc {
      case Lookup(_) => path, s' := DequeuedIsPolled(s, j, t, c); polled := true;
      case CasRun(_) => path, s' := CasStartsPoll(s, j, t, c); polled := true;
      case CasIdle(_) => path, s' := PolledIsQueued(s, j, t, c);
      case StoreSched(_) => path, s' := StoredIsQueued(s, j, t, c);
      case Polling(_) => path, s' := NotifiedIsQueued(s, j, t, c);
    }
  }

  /** Where a woken task that has not finished is: on its way to a poll, or to the queue. */
  lemma WokenGetsOn(s: TimerState, t: TaskId, c: Choice) returns (path: Path, s': TimerState, polled: bool)
    requires Live(s, c) && WakePending(s.sched, t) && t !in s.sched.done
    ensures if polled then PollStarts(s, path, s', t, c)
            else Leads(s, path, s', c) && Live(s', c) && (t in s'.sched.ready.queue || t in s'.sched.done)
  {
    assert HasPlace(s.sched, t);
    var p :| TaskAt(s.sched, t, p);
    polled := false;
    match p {
      case InQueue => path, s' := [], s; NoStep(s, c);
      case AtOp(j) =>
        assert Carries(s.sched.threads[j].op, t);
        path, s' := CarriedIsQueued(s, j, t, c);
      case AtPc(j) => path, s', polled := HandledGetsOn(s, j, t, c);
    }
  }

  lemma WokenIsPolled(s: TimerState, t: TaskId, c: Choice) returns (path: Path, s': TimerState)
    requires Live(s, c) && WakePending(s.sched, t) && t !in s.sched.done
    ensures PollStarts(s, path, s', t, c) || (Leads(s, path, s', c) && t in s'.sched.done)
  {
    var polled;
    path, s', polled := WokenGetsOn(s, t, c);
    if !polled && t in s'.sched.ready.queue {
      var more, s2 := QueuedCanBePolled(s', t, c);
      ThenPollStarts(s, path, s', more, s2, t, c);
      path, s' := path + more, s2;
    }
  }

  /**
   No stuck run: in every reachable state before shutdown, and for every choice of how polls
   end and which wakers the reactor collects, a task with a pending wake whose future has not
   finished gets to its next poll, or to its end, without waiting for anything.
   */
  lemma WokenTaskCanBePolled(states: seq<TimerState>, steps: Path, n: nat, t: TaskId, c: Choice)
      returns (path: Path, s': TimerState)
    requires IsTimerRun(states, steps) && n < |states| && !states[n].sched.shutdown
    requires forall m :: 0 <= m < |c.collected| ==> c.collected[m] in states[n].sched.status
    requires WakePending(states[n].sched, t) && t !in states[n].sched.done
    ensures PollStarts(states[n], path, s', t, c) || (Leads(states[n], path, s', c) && t in s'.sched.done)
  {
    TimerRunInv(states, steps, n);
    path, s' := WokenIsPolled(states[n], t, c);
  }

  lemma StopEnabled(s: TimerState, i: Tid)
    requires PlaceOk(s, i) && Settled(s, i) && Fires(s.sched.threads[i].pc) && s.heap <= s.timers.Keys
    ensures TimerEnabled(s, i, StopFiring) && i !in FiringAfter(s, i, StopFiring)
  {
  }

  lemma LoopStops(s: TimerState, i: Tid, c: Choice) returns (s': TimerState)
    requires TimerInv(s) && Settled(s, i) && Fires(s.sched.threads[i].pc)
    ensures Leads(s, [(i, StopFiring)], s', c) && i !in s'.firing
  {
    assert PlaceOk(s, i);
    StopEnabled(s, i);
    OneStep(s, i, StopFiring, c);
    s' := TimerApply(s, i, StopFiring);
  }

  /** The firing loop comes to an end: every due timer is popped and its waker called, spinning included. */
  lemma FiringEnds(states: seq<TimerState>, steps: Path, n: nat, i: Tid, c: Choice) returns (path: Path, s': TimerState)
    requires IsTimerRun(states, steps) && n < |states| && i in states[n].firing
    ensures Leads(states[n], path, s', c) && i !in s'.firing
    ensures path != [] && path[|path| - 1] == (i, StopFiring)
  {
    TimerRunInv(states, steps, n);
    assert PlaceOk(states[n], i);
    var s1;
    path, s1 := Settle(states[n], i, c);
    s' := LoopStops(s1, i, c);
    LeadsOn(states[n], path, s1, [(i, StopFiring)], s', c);
    path := path + [(i, StopFiring)];
  }
}
