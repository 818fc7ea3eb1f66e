/**
 Single steps of the scheduler that need no waiting, and how they bring a thread nearer to the
 end of its operation, to the release of the queue mutex, and to the next dequeue.
 */
module SchedulerSteps {
  import opened Shared
  import opened Scheduler
  import opened SchedulerOwnership
  import opened SchedulerDriver
  import opened SchedulerTheorems

  /** What the surroundings decide: nothing below depends on how. */
  datatype Choice = Choice(
    finishing: set<TaskId>,    // tasks whose poll under way ends with Ready
    collected: seq<TaskId>,    // tasks whose wakers the reactor's poll collects
    saw: bool,                 // whether the fetched events include the eventfd
    deadline: nat,             // of a `sleep` call under way
    timely: bool,              // whether the driver's bounded wait may run out
    restless: bool             // whether the bounded wait on the condvar may run out
  )

  /**
   A step that waits for nothing but, if so chosen, the end of a bounded wait: no interrupted wait,
   no new call by user code and no spurious CAS failure.  Polls end and events are fetched as chosen.
   */
  predicate Prompt(s: State, step: Step, c: Choice) {
    && Enabled(s, step.tid, step.action)
    && match step.action {
         case BeginWake(_) | BeginSpawn(_) | BeginSleep | BeginShutdown => false
         case CasStatus(spurious) => !spurious
         case PollDone => s.threads[step.tid].pc.t in c.finishing
         case PollPending => s.threads[step.tid].pc.t !in c.finishing
         case WaitReturn(saw) => if s.eventfd > 0 then saw == c.saw else c.timely
         case ParkTimeout => c.restless
         case WaitFailed => false
         case _ => true
       }
  }

  // ---- Ranks: how far a thread is from the next dequeue ----

  function OpRank(s: State, op: Op): nat {
    match op
    case WakeCas(t, seen) => if t in s.status && s.status[t] == seen then 6 else 8
    case WakeLoad(_) | SpawnInsert(_) => 7
    case SpawnCount(_) => 6
    case EnqPush(_) => 5
    case EnqLoadToken => 4
    case EnqWake => 3
    case EnqNotify | SleepRegister | ShutNotify => 2
    case SleepWake | ShutWake => 1
    case NoOp => 0
  }

  function PcRank(pc: Pc): nat {
    match pc
    case Dequeueing => 1
    case Top => 2
    case Woken | ParkLock | Release | NotifyDone | StoreSched(_) => 3
    case Recheck | Fire2 | Decr | CasIdle(_) => 4
    case CasToken | Drain2 | Remove(_) => 5
    case WakeAll | Polling(_) => 6
    case Collect(_) | CasRun(_) => 7
    case Wait | Lookup(_) => 8
    case Fire1 => 9
    case Drain1 => 10
    case _ => 0
  }

  /** How far the parking worker is from giving the queue mutex back. */
  function LockRank(s: State): nat {
    match s.queueLock
    case Nobody => 0
    case Somebody(h) => if h < |s.threads| && s.threads[h].pc.ParkCheck? then 2 else 1
  }

  /** The mutex holder's next step, which brings the mutex closer to free and moves nobody else. */
  lemma Unlock(s: State, c: Choice) returns (step: Step)
    requires LockAgrees(s) && Placed(s) && s.queueLock.Somebody?
    ensures Prompt(s, step, c) && step.tid == s.queueLock.tid && HoldsQueue(s.threads[step.tid].pc)
    ensures step.action.CheckPark? || step.action.StartPark?
    ensures var s' := Apply(s, step.tid, step.action);
            && LockRank(s') < LockRank(s) && |s'.threads| == |s.threads|
            && s'.status == s.status && s'.ready == s.ready && s'.done == s.done
            && forall j :: 0 <= j < |s.threads| && j != step.tid ==> s'.threads[j] == s.threads[j]
  {
    var h := s.queueLock.tid;
    assert HoldsQueue(s.threads[h].pc);
    assert WellPlaced(s.threads[h]);
    step := Step(h, if s.threads[h].pc.ParkCheck? then CheckPark else StartPark);
  }

  /** The next step of an operation under way. */
  ghost function NextOp(s: State, i: Tid): Action
    requires i < |s.threads|
  {
    match s.threads[i].op
    case WakeLoad(_) => LoadStatus
    case WakeCas(_, _) => CasStatus(false)
    case SpawnInsert(_) => InsertTask
    case SpawnCount(_) => CountTask
    case EnqPush(_) => PushReady
    case EnqLoadToken => LoadToken
    case EnqNotify =>
      if j: Tid :| j < |s.threads| && j != i && s.threads[j].pc.Parked? then NotifyOne(Somebody(j)) else NotifyOne(Nobody)
    case SleepRegister => RegisterTimer
    case ShutNotify => NotifyShutdown
    case _ => Poke
  }

  lemma AdvanceOp(s: State, i: Tid, c: Choice)
    requires Placed(s) && QueueFree(s) && i < |s.threads| && !s.threads[i].op.NoOp?
    ensures Prompt(s, Step(i, NextOp(s, i)), c) && IsOpStep(NextOp(s, i))
    ensures var a := NextOp(s, i);
            && PcAfter(s, i, a) == s.threads[i].pc
            && OpRank(Effect(s, i, a), OpAfter(s, i, a)) < OpRank(s, s.threads[i].op)
            && Effect(s, i, a).queueLock == s.queueLock
            && s.ready.queue <= Effect(s, i, a).ready.queue
  {
    assert WellPlaced(s.threads[i]);
  }

  lemma OpNearsEnd(s: State, i: Tid, c: Choice)
    requires Placed(s) && QueueFree(s) && i < |s.threads| && !s.threads[i].op.NoOp?
    ensures Enabled(s, i, NextOp(s, i))
    ensures var s' := Apply(s, i, NextOp(s, i));
            OpRank(s', s'.threads[i].op) + LockRank(s') < OpRank(s, s.threads[i].op) + LockRank(s)
  {
    AdvanceOp(s, i, c);
  }

  /** A worker that can still get to the queue by itself. */
  predicate Useful(pc: Pc) {
    IsWorker(pc) && !HoldsQueue(pc) && !pc.Parked? && !pc.Exited?
  }

  /** The next step of a worker between operations. */
  function NextPc(pc: Pc, c: Choice): Action {
    match pc
    case Top => LoadShutdown
    case Dequeueing => DequeueReady
    case Lookup(_) => LookupTask
    case CasRun(_) => CasRunning
    case Polling(t) => if t in c.finishing then PollDone else PollPending
    case CasIdle(_) => CasBackToIdle
    case StoreSched(_) => StoreScheduled
    case Remove(_) => RemoveTask
    case Decr => Uncount
    case NotifyDone => NotifyFinished
    case CasToken => TakeToken
    case Recheck => RecheckReady
    case Drain1 | Drain2 => DrainInbox
    case Fire1 | Fire2 => FiringDone
    case Wait => WaitReturn(c.saw)
    case Collect(_) => DrainEventFd
    case WakeAll => WakersDone
    case Release => ReleaseToken
    case ParkLock => LockPark
    case _ => Reacquire
  }

  lemma HandledIsKnown(s: State, i: Tid, t: TaskId)
    requires Ownership(s) && i < |s.threads| && Handles(s.threads[i].pc, t)
    ensures t in s.status
  {
    assert HasPlace(s, t);
  }

  lemma NextPcPrompt(s: State, w: Tid, c: Choice)
    requires !s.shutdown && QueueFree(s) && w < |s.threads| && s.threads[w].op.NoOp? && Useful(s.threads[w].pc)
    requires forall t :: Handles(s.threads[w].pc, t) ==> t in s.status
    requires s.threads[w].pc.Wait? ==> s.eventfd > 0
    ensures Prompt(s, Step(w, NextPc(s.threads[w].pc, c)), c)
  {
    var pc := s.threads[w].pc;
    assert pc.CasRun? || pc.CasIdle? || pc.StoreSched? ==> Handles(pc, pc.t);
  }

  /** With the queue mutex free and work queued, every step of a useful worker brings it closer. */
  lemma AdvancePc(s: State, w: Tid, c: Choice)
    requires !s.shutdown && s.ready.queue != [] && w < |s.threads| && Useful(s.threads[w].pc)
    requires Enabled(s, w, NextPc(s.threads[w].pc, c))
    ensures var a := NextPc(s.threads[w].pc, c);
            if s.threads[w].pc.Dequeueing? then
              && PcAfter(s, w, a) == Lookup(s.ready.queue[0]) && OpAfter(s, w, a).NoOp?
              && Effect(s, w, a).ready == s.ready.Dequeue()
            else
              && PcRank(PcAfter(s, w, a)) < PcRank(s.threads[w].pc) && Useful(PcAfter(s, w, a))
              && Effect(s, w, a).ready == s.ready
  {
  }

  // ---- What such steps leave alone ----

  /** Steps that neither begin nor end a poll, take no task and leave the actor's own code where it is, or park. */
  predicate IsQuiet(a: Action) {
    IsOpStep(a) || a.BeginWake? || a.CheckPark? || a.StartPark?
  }

  /** Thread `w` is where it was, no wake is gone, and no other thread has a task it did not have. */
  ghost predicate SchedKept(s: State, s': State, w: Tid) {
    && w < |s.threads| == |s'.threads| && s'.threads[w].pc == s.threads[w].pc
    && s'.shutdown == s.shutdown && s'.token == s.token && s'.done == s.done && s.eventfd <= s'.eventfd
    && s.status.Keys <= s'.status.Keys && s.ready.queue <= s'.ready.queue
    && (forall t :: WakePending(s, t) ==> WakePending(s', t))
    && (forall j, t :: 0 <= j < |s.threads| && j != w && HasTask(s'.threads[j], t) ==> HasTask(s.threads[j], t))
  }

  predicate HasTask(th: Thread, t: TaskId) { Carries(th.op, t) || Handles(th.pc, t) }

  lemma QuietEffect(s: State, i: Tid, a: Action)
    requires Enabled(s, i, a) && IsQuiet(a)
    ensures var e := Effect(s, i, a);
            e.shutdown == s.shutdown && e.token == s.token && e.done == s.done && s.eventfd <= e.eventfd && s.ready.queue <= e.ready.queue
  {
  }

  lemma QuietActor(s: State, i: Tid, a: Action, t: TaskId)
    requires Enabled(s, i, a) && (a.BeginWake? || a.CheckPark? || a.StartPark?)
    ensures !HasTask(Thread(PcAfter(s, i, a), OpAfter(s, i, a)), t) || HasTask(s.threads[i], t)
  {
  }

  lemma QuietKeeps(s: State, i: Tid, a: Action, w: Tid)
    requires Enabled(s, i, a) && IsQuiet(a) && w < |s.threads|
    requires if i == w then !a.CheckPark? && !a.StartPark? else !IsOpStep(a)
    ensures SchedKept(s, Apply(s, i, a), w)
  {
    var s' := Apply(s, i, a);
    QuietEffect(s, i, a);
    TasksStayKnown(s, i, a);
    OnlyActorMoves(s, i, a);
    forall t | WakePending(s, t) ensures WakePending(s', t) { OnlyPollClearsWake(s, i, a, t); }
    forall j, t | 0 <= j < |s.threads| && j != w && HasTask(s'.threads[j], t) ensures HasTask(s.threads[j], t) {
      if j == i { QuietActor(s, i, a, t); } else { assert Undisturbed(s.threads[j], s'.threads[j]); }
    }
  }

  lemma KeptOn(s: State, s1: State, s2: State, w: Tid)
    requires SchedKept(s, s1, w) && SchedKept(s1, s2, w)
    ensures SchedKept(s, s2, w)
  {
  }
}
