/**
 The multi-threaded scheduler as a transition system.

 Every thread has a program counter `pc` (its place in `run_worker`, or `External`
 for a thread that is not a worker) and an `op` (its place in a runtime operation it
 called: a wake, an enqueue, a spawn, a sleep or a shutdown).  One action is one
 atomic operation or one lock section; threads interleave in any order.
 */
module Scheduler {
  import opened ReadyQueues
  import opened Shared

  type TaskId = nat

  /** The four values of a task's atomic state. */
  datatype Status = Idle | Scheduled | Running | Notified

  datatype Op =
    | NoOp
    // wake_by_ref_impl
    | WakeLoad(t: TaskId)
    | WakeCas(t: TaskId, seen: Status)
    // SharedState::spawn
    | SpawnInsert(t: TaskId)
    | SpawnCount(t: TaskId)
    // SharedState::enqueue_task
    | EnqPush(t: TaskId)
    | EnqLoadToken
    | EnqWake
    | EnqNotify
    // MultiThreadRuntime::sleep
    | SleepRegister
    | SleepWake
    // MultiThreadRuntime::shutdown
    | ShutNotify
    | ShutWake

  datatype Pc =
    | External
    // run_worker, step 1
    | Top
    | Dequeueing
    // poll_task
    | Lookup(t: TaskId)
    | CasRun(t: TaskId)
    | Polling(t: TaskId)
    | CasIdle(t: TaskId)
    | StoreSched(t: TaskId)
    | Remove(t: TaskId)
    | Decr
    | NotifyDone
    // run_worker, step 2, and drive_io
    | CasToken
    | Recheck
    | Drain1
    | Fire1
    | Wait
    | Collect(saw: bool)
    | WakeAll
    | Drain2
    | Fire2
    | Release
    // run_worker, step 3
    | ParkLock
    | ParkCheck
    | ParkWait
    | Parked
    | Woken
    | Exited

  datatype Thread = Thread(pc: Pc, op: Op)

  datatype State = State(
    threads: seq<Thread>,
    status: map<TaskId, Status>,  // every task created so far
    tasks: set<TaskId>,           // keys of the task map
    ready: Ready,
    active: int,
    shutdown: bool,
    token: bool,
    eventfd: nat,
    queueLock: Target,            // the parking worker that holds the queue mutex
    done: set<TaskId>             // tasks whose future returned Ready or panicked
  )

  ghost predicate Init(s: State) {
    && (forall i :: 0 <= i < |s.threads| ==>
          s.threads[i] == Thread(Top, NoOp) || s.threads[i] == Thread(External, NoOp))
    && (exists i :: 0 <= i < |s.threads| && s.threads[i].pc.Top?)
    && s.status == map[] && s.tasks == {} && s.ready == EmptyReady && s.active == 0
    && !s.shutdown && !s.token && s.eventfd == 0 && s.queueLock.Nobody? && s.done == {}
  }

  datatype Action =
    | BeginWake(t: TaskId) | BeginSpawn(t: TaskId) | BeginSleep | BeginShutdown
    | LoadStatus | CasStatus(spurious: bool)
    | InsertTask | CountTask
    | PushReady | LoadToken | Poke | NotifyOne(target: Target)
    | RegisterTimer | NotifyShutdown
    | LoadShutdown | DequeueReady
    | LookupTask | CasRunning | PollPending | PollDone
    | CasBackToIdle | StoreScheduled | RemoveTask | Uncount | NotifyFinished
    | TakeToken | RecheckReady | DrainInbox | FiringDone
    | WaitReturn(saw: bool) | WaitFailed | DrainEventFd | WakersDone | ReleaseToken
    | LockPark | CheckPark | StartPark | ParkTimeout | Reacquire

  /** Where user code runs: a thread of its own, or a future being polled. */
  predicate RunsUserCode(pc: Pc) { pc.External? || pc.Polling? }

  /** Where wakers are called: user code, the timer firing loops, the reactor. */
  predicate CallsWakers(pc: Pc) { RunsUserCode(pc) || pc.Fire1? || pc.Fire2? || pc.WakeAll? }

  /** The pcs between a successful token CAS and the store that gives it back. */
  predicate Drives(pc: Pc) {
    || pc.Recheck? || pc.Drain1? || pc.Fire1? || pc.Wait? || pc.Collect?
    || pc.WakeAll? || pc.Drain2? || pc.Fire2? || pc.Release?
  }

  predicate QueueFree(s: State) { s.queueLock.Nobody? }

  /** The steps of an operation under way, as opposed to those of the thread's own code. */
  predicate IsOpStep(a: Action) {
    || a.LoadStatus? || a.CasStatus? || a.InsertTask? || a.CountTask? || a.PushReady? || a.LoadToken?
    || a.Poke? || a.NotifyOne? || a.RegisterTimer? || a.NotifyShutdown?
  }

  predicate OpGuard(s: State, i: Tid, op: Op, a: Action) {
    match a
    case LoadStatus => op.WakeLoad? && op.t in s.status
    case CasStatus(_) => op.WakeCas? && op.t in s.status
    case InsertTask => op.SpawnInsert?
    case CountTask => op.SpawnCount?
    case PushReady => op.EnqPush? && QueueFree(s)
    case LoadToken => op.EnqLoadToken?
    case Poke => op.EnqWake? || op.SleepWake? || op.ShutWake?
    case NotifyOne(target) => op.EnqNotify? && MayNotify(s, i, target)
    case RegisterTimer => op.SleepRegister?
    case NotifyShutdown => op.ShutNotify?
    case _ => false
  }

  /** notify_one picks a parked worker; with none parked it does nothing. */
  predicate MayNotify(s: State, i: Tid, target: Target) {
    match target
    case Nobody => forall j :: 0 <= j < |s.threads| ==> !s.threads[j].pc.Parked?
    case Somebody(j) => j != i && j < |s.threads| && s.threads[j].pc.Parked?
  }

  predicate PcGuard(s: State, pc: Pc, a: Action) {
    match a
    case BeginWake(t) => CallsWakers(pc) && t in s.status
    case BeginSpawn(t) => RunsUserCode(pc) && t !in s.status
    case BeginSleep => RunsUserCode(pc)
    case BeginShutdown => pc.External?
    case LoadShutdown => pc.Top?
    case DequeueReady => pc.Dequeueing? && QueueFree(s)
    case LookupTask => pc.Lookup?
    case CasRunning => pc.CasRun? && pc.t in s.status
    case PollPending => pc.Polling?
    case PollDone => pc.Polling?
    case CasBackToIdle => pc.CasIdle? && pc.t in s.status
    case StoreScheduled => pc.StoreSched? && pc.t in s.status
    case RemoveTask => pc.Remove?
    case Uncount => pc.Decr?
    case NotifyFinished => pc.NotifyDone?
    case TakeToken => pc.CasToken?
    case RecheckReady => pc.Recheck? && QueueFree(s)
    case DrainInbox => pc.Drain1? || pc.Drain2?
    case FiringDone => pc.Fire1? || pc.Fire2?
    case WaitReturn(saw) => pc.Wait? && (saw ==> s.eventfd > 0)
    case WaitFailed => pc.Wait?
    case DrainEventFd => pc.Collect?
    case WakersDone => pc.WakeAll?
    case ReleaseToken => pc.Release?
    case LockPark => pc.ParkLock? && QueueFree(s)
    case CheckPark => pc.ParkCheck?
    case StartPark => pc.ParkWait?
    case ParkTimeout => pc.Parked?
    case Reacquire => pc.Woken? && QueueFree(s)
    case _ => false
  }

  predicate Enabled(s: State, i: Tid, a: Action) {
    && i < |s.threads|
    && if IsOpStep(a) then OpGuard(s, i, s.threads[i].op, a)
       else s.threads[i].op.NoOp? && PcGuard(s, s.threads[i].pc, a)
  }

  /** Where the acting thread is in its operation afterwards. */
  function OpAfter(s: State, i: Tid, a: Action): Op
    requires Enabled(s, i, a)
  {
    var op := s.threads[i].op;
    match a
    case BeginWake(t) => WakeLoad(t)
    case BeginSpawn(t) => SpawnInsert(t)
    case BeginSleep => SleepRegister
    case BeginShutdown => ShutNotify
    case LoadStatus =>
      var seen := s.status[op.t];
      if seen.Idle? || seen.Running? then WakeCas(op.t, seen) else NoOp
    case CasStatus(spurious) =>
      if spurious || s.status[op.t] != op.seen then WakeLoad(op.t)
      else if op.seen.Idle? then EnqPush(op.t)
      else NoOp
    case InsertTask => SpawnCount(op.t)
    case CountTask => EnqPush(op.t)
    case PushReady => EnqLoadToken
    case LoadToken => if s.token then EnqWake else EnqNotify
    case Poke => if op.EnqWake? then EnqNotify else NoOp
    case NotifyOne(_) => NoOp
    case RegisterTimer => SleepWake
    case NotifyShutdown => ShutWake
    case StoreScheduled => EnqPush(s.threads[i].pc.t)
    case _ => NoOp
  }

  /** Where the acting thread is in its own code afterwards. */
  function PcAfter(s: State, i: Tid, a: Action): Pc
    requires Enabled(s, i, a)
  {
    var pc := s.threads[i].pc;
    match a
    case LoadShutdown => if s.shutdown then Exited else Dequeueing
    case DequeueReady => if s.ready.queue == [] then CasToken else Lookup(s.ready.queue[0])
    case LookupTask => if pc.t in s.tasks then CasRun(pc.t) else Top
    case CasRunning => if s.status[pc.t].Scheduled? then Polling(pc.t) else Top
    case PollPending => CasIdle(pc.t)
    case PollDone => Remove(pc.t)
    case CasBackToIdle => if s.status[pc.t].Running? then Top else StoreSched(pc.t)
    case StoreScheduled => Top
    case RemoveTask => Decr
    case Uncount => NotifyDone
    case NotifyFinished => Top
    case TakeToken => if s.token then ParkLock else Recheck
    case RecheckReady => if s.ready.queue == [] then Drain1 else Release
    case DrainInbox => if pc.Drain1? then Fire1 else Fire2
    case FiringDone => if pc.Fire1? then Wait else Release
    case WaitReturn(saw) => Collect(saw)
    case WaitFailed => Drain2
    case DrainEventFd => WakeAll
    case WakersDone => Drain2
    case ReleaseToken => Top
    case LockPark => if s.ready.queue == [] then ParkCheck else Top
    case CheckPark => if s.shutdown then Exited else ParkWait
    case StartPark => Parked
    case ParkTimeout => Woken
    case Reacquire => Top
    case _ => pc
  }

  function StatusAfter(s: State, i: Tid, a: Action): map<TaskId, Status>
    requires Enabled(s, i, a)
  {
    var th := s.threads[i];
    match a
    case BeginSpawn(t) => s.status[t := Scheduled]
    case CasStatus(spurious) =>
      if spurious || s.status[th.op.t] != th.op.seen then s.status
      else s.status[th.op.t := if th.op.seen.Idle? then Scheduled else Notified]
    case CasRunning => if s.status[th.pc.t].Scheduled? then s.status[th.pc.t := Running] else s.status
    case CasBackToIdle => if s.status[th.pc.t].Running? then s.status[th.pc.t := Idle] else s.status
    case StoreScheduled => s.status[th.pc.t := Scheduled]
    case _ => s.status
  }

  function ReadyAfter(s: State, i: Tid, a: Action): Ready
    requires Enabled(s, i, a)
  {
    match a
    case PushReady => s.ready.Enqueue(s.threads[i].op.t)
    case DequeueReady => if s.ready.queue == [] then s.ready else s.ready.Dequeue()
    case _ => s.ready
  }

  function QueueLockAfter(s: State, i: Tid, a: Action): Target
    requires Enabled(s, i, a)
  {
    match a
    case LockPark => if s.ready.queue == [] then Somebody(i) else s.queueLock
    case CheckPark => if s.shutdown then Nobody else s.queueLock
    case StartPark => Nobody
    case _ => s.queueLock
  }

  function EventfdAfter(s: State, i: Tid, a: Action): nat
    requires Enabled(s, i, a)
  {
    match a
    case Poke => Bump(s.eventfd)
    case DrainEventFd => if s.threads[i].pc.saw then 0 else s.eventfd
    case _ => s.eventfd
  }

  function TasksAfter(s: State, i: Tid, a: Action): set<TaskId>
    requires Enabled(s, i, a)
  {
    match a
    case InsertTask => s.tasks + {s.threads[i].op.t}
    case RemoveTask => s.tasks - {s.threads[i].pc.t}
    case _ => s.tasks
  }

  /** What the action does to shared memory, threads aside. */
  function Effect(s: State, i: Tid, a: Action): State
    requires Enabled(s, i, a)
  {
    s.(status := StatusAfter(s, i, a),
       tasks := TasksAfter(s, i, a),
       ready := ReadyAfter(s, i, a),
       active := if a.CountTask? then s.active + 1 else if a.Uncount? then s.active - 1 else s.active,
       shutdown := s.shutdown || a.BeginShutdown?,
       token := if a.TakeToken? then true else if a.ReleaseToken? then false else s.token,
       eventfd := EventfdAfter(s, i, a),
       queueLock := QueueLockAfter(s, i, a),
       done := if a.PollDone? then s.done + {s.threads[i].pc.t} else s.done)
  }

  /** The condvar: which parked workers the action lets go. */
  function LetsGo(a: Action, j: Tid): bool {
    match a
    case NotifyOne(target) => target == Somebody(j)
    case NotifyShutdown | NotifyFinished => true
    case _ => false
  }

  function Bystander(s: State, a: Action, j: Tid): (r: Thread)
    requires j < |s.threads|
  {
    if s.threads[j].pc.Parked? && LetsGo(a, j) then s.threads[j].(pc := Woken) else s.threads[j]
  }

  function Apply(s: State, i: Tid, a: Action): (r: State)
    requires Enabled(s, i, a)
    ensures |r.threads| == |s.threads| && r.threads[i] == Thread(PcAfter(s, i, a), OpAfter(s, i, a))
  {
    Effect(s, i, a).(threads :=
      seq(|s.threads|, j requires 0 <= j < |s.threads| =>
        if j == i then Thread(PcAfter(s, i, a), OpAfter(s, i, a)) else Bystander(s, a, j)))
  }

  datatype Step = Step(tid: Tid, action: Action)

  /** `states[k + 1]` is what step `k` makes of `states[k]`. */
  ghost predicate IsPath(states: seq<State>, steps: seq<Step>) {
    && |states| == |steps| + 1
    && forall k :: 0 <= k < |steps| ==>
         && Enabled(states[k], steps[k].tid, steps[k].action)
         && states[k + 1] == Apply(states[k], steps[k].tid, steps[k].action)
  }

  /** A finite run: any interleaving of the threads' actions from an initial state. */
  ghost predicate IsRun(states: seq<State>, steps: seq<Step>) {
    IsPath(states, steps) && Init(states[0])
  }
}
