/**
 Timers of the multi-threaded runtime, on top of the scheduler: the inbox and the heap, the
 driver's firing loop, and `Sleep::poll` against the atomic waker cell, one atomic operation
 per step.  `compare_exchange_weak` may fail spuriously.
 */
module SleepTimers {
  import opened Options
  import opened Shared
  import opened Scheduler
  import opened SchedulerTheorems

  type TimerId = nat

  /** The state byte of an atomic waker cell. */
  datatype CellState = Empty | Stored | Waking

  datatype Timer = Timer(deadline: nat, completed: bool, cell: CellState, waker: Option<TaskId>)

  /** Inside Sleep::poll. */
  datatype SleepPc =
    | FirstLoad(k: TimerId)    // completed?
    | CasEmpty(k: TimerId)     // EMPTY -> WAKING
    | CasStored(k: TimerId)    // STORED -> WAKING
    | WriteCell(k: TimerId)    // owner: write the waker
    | Publish(k: TimerId)      // owner: store STORED
    | SecondLoad(k: TimerId)   // completed now?

  /** Inside TimerWheel::process, after the inbox was drained. */
  datatype FirePc =
    | ReadClock
    | Peek(now: nat)
    | Mark(now: nat, k: TimerId)       // store completed
    | CasWake(now: nat, k: TimerId)    // STORED -> WAKING
    | TakeCell(now: nat, k: TimerId)   // owner: take the waker
    | Clear(now: nat, k: TimerId, w: Option<TaskId>)  // owner: store EMPTY
    | Calling(now: nat, k: TimerId)    // the waker is being called

  datatype TimerState = TimerState(
    sched: State,
    timers: map<TimerId, Timer>,     // every timer registered so far
    inbox: seq<TimerId>,
    heap: set<TimerId>,
    fired: set<TimerId>,             // popped from the heap
    sleeping: map<Tid, SleepPc>,
    firing: map<Tid, FirePc>,
    clock: nat,
    awaiting: map<TimerId, TaskId>,  // timer -> task whose poll of the Sleep was the last one and
                                     // returned Pending, until a poll answers the timer's wake
    calls: map<Tid, seq<TaskId>>     // wakers a reactor poll has collected and not called yet
  )

  datatype TimerAction =
    | Sched(a: Action)
    | Tick(clock: nat)
    // MultiThreadRuntime::sleep
    | Register(k: TimerId, deadline: nat)
    // TimerWheel::process
    | Drain
    | ReadNow
    | Pop(k: TimerId)
    | StopFiring
    | MarkCompleted
    | TryTake(spurious: bool)
    | TakeWaker
    | ClearCell
    | CallDone
    // Reactor::poll, after epoll_wait
    | CollectWakers(ws: seq<TaskId>)
    | CallNext
    | CallsDone
    // Sleep::poll
    | StartPoll(k: TimerId)
    | LoadFirst
    | TryClaimEmpty(spurious: bool)
    | TryClaimStored(spurious: bool)
    | StoreWaker
    | PublishCell
    | LoadSecond

  ghost predicate TimerInit(s: TimerState) {
    && Init(s.sched) && s.timers == map[] && s.inbox == [] && s.heap == {} && s.fired == {}
    && s.sleeping == map[] && s.firing == map[] && s.awaiting == map[] && s.calls == map[]
  }

  /** The thread runs a future and is between calls. */
  predicate InFuture(s: TimerState, i: Tid) {
    && i < |s.sched.threads| && s.sched.threads[i].pc.Polling? && s.sched.threads[i].op.NoOp?
    && i !in s.sleeping
  }

  ghost predicate TimerEnabled(s: TimerState, i: Tid, a: TimerAction) {
    match a
    case Sched(sa) =>
      && Enabled(s.sched, i, sa) && i !in s.sleeping && (i in s.firing ==> !s.sched.threads[i].op.NoOp?)
      && !sa.RegisterTimer? && !sa.DrainInbox? && !sa.FiringDone?
      && !sa.DrainEventFd? && !sa.WakersDone? && (i in s.calls ==> !sa.BeginWake?)
    case Tick(clock) => clock >= s.clock
    case Register(k, _) => Enabled(s.sched, i, RegisterTimer) && i !in s.sleeping && k !in s.timers
    case Drain => Enabled(s.sched, i, DrainInbox) && i !in s.firing
    case ReadNow => i in s.firing && s.firing[i].ReadClock?
    case Pop(k) =>
      && i in s.firing && s.firing[i].Peek? && k in s.heap && s.heap <= s.timers.Keys
      && s.timers[k].deadline <= s.firing[i].now
      && forall m :: m in s.heap ==> s.timers[k].deadline <= s.timers[m].deadline
    case StopFiring =>
      && i in s.firing && s.firing[i].Peek? && Enabled(s.sched, i, FiringDone) && s.heap <= s.timers.Keys
      && forall m :: m in s.heap ==> s.timers[m].deadline > s.firing[i].now
    case MarkCompleted => i in s.firing && s.firing[i].Mark? && s.firing[i].k in s.timers
    case TryTake(_) => i in s.firing && s.firing[i].CasWake? && s.firing[i].k in s.timers
    case TakeWaker => i in s.firing && s.firing[i].TakeCell? && s.firing[i].k in s.timers
    case ClearCell =>
      && i in s.firing && s.firing[i].Clear? && s.firing[i].k in s.timers
      && (s.firing[i].w.Some? ==> Enabled(s.sched, i, BeginWake(s.firing[i].w.value)))
    case CallDone => i in s.firing && s.firing[i].Calling? && i < |s.sched.threads| && s.sched.threads[i].op.NoOp?
    case CollectWakers(ws) => Enabled(s.sched, i, DrainEventFd) && forall n :: 0 <= n < |ws| ==> ws[n] in s.sched.status
    case CallNext => i in s.calls && s.calls[i] != [] && Enabled(s.sched, i, BeginWake(s.calls[i][0]))
    case CallsDone => i in s.calls && s.calls[i] == [] && Enabled(s.sched, i, WakersDone)
    case StartPoll(k) =>
      // poll takes the Sleep by unique reference
      InFuture(s, i) && k in s.timers && forall j :: j in s.sleeping ==> s.sleeping[j].k != k
    case LoadFirst => i in s.sleeping && s.sleeping[i].FirstLoad? && s.sleeping[i].k in s.timers
    case TryClaimEmpty(_) => i in s.sleeping && s.sleeping[i].CasEmpty? && s.sleeping[i].k in s.timers
    case TryClaimStored(_) => i in s.sleeping && s.sleeping[i].CasStored? && s.sleeping[i].k in s.timers
    case StoreWaker =>
      && i in s.sleeping && s.sleeping[i].WriteCell? && s.sleeping[i].k in s.timers
      && i < |s.sched.threads| && s.sched.threads[i].pc.Polling?
    case PublishCell => i in s.sleeping && s.sleeping[i].Publish? && s.sleeping[i].k in s.timers
    case LoadSecond =>
      && i in s.sleeping && s.sleeping[i].SecondLoad? && s.sleeping[i].k in s.timers
      && i < |s.sched.threads| && s.sched.threads[i].pc.Polling?
  }

  /** The waker `w` sits in the cell of a timer that has not completed. */
  predicate WillBeWoken(s: TimerState, k: TimerId, w: TaskId) {
    k in s.timers && !s.timers[k].completed && s.timers[k].cell.Stored? && s.timers[k].waker == Some(w)
  }

  /** Thread `i` is firing `k` and has `w` in the cell, in hand, or in a wake under way. */
  predicate IsWaking(s: TimerState, i: Tid, k: TimerId, w: TaskId) {
    && i in s.firing && k in s.timers && FiresTimer(s.firing[i], k)
    && match s.firing[i] {
         case CasWake(_, _) => s.timers[k].cell.Stored? && s.timers[k].waker == Some(w)
         case TakeCell(_, _) => s.timers[k].waker == Some(w)
         case Clear(_, _, v) => v == Some(w)
         case Calling(_, _) => i < |s.sched.threads| && Wakes(s.sched.threads[i].op, w)
         case _ => false
       }
  }

  ghost predicate BeingWoken(s: TimerState, k: TimerId, w: TaskId) { exists i :: IsWaking(s, i, k, w) }

  /** A poll of `t` begins: it answers the wakes of completed timers, but not those still to come. */
  ghost function Answered(s: TimerState, t: TaskId): map<TimerId, TaskId> {
    Forget(s.awaiting, t, set k | k in s.timers && s.timers[k].completed && !BeingWoken(s, k, t))
  }

  /** The scheduler action inside a timer action, if any. */
  ghost function SchedPart(s: TimerState, i: Tid, a: TimerAction): (r: Option<Action>)
    requires TimerEnabled(s, i, a)
  {
    match a
    case Sched(sa) => Some(sa)
    case Register(_, _) => Some(RegisterTimer)
    case Drain => Some(DrainInbox)
    case StopFiring => Some(FiringDone)
    case ClearCell => if s.firing[i].w.Some? then Some(BeginWake(s.firing[i].w.value)) else None
    case CollectWakers(_) => Some(DrainEventFd)
    case CallNext => Some(BeginWake(s.calls[i][0]))
    case CallsDone => Some(WakersDone)
    case _ => None
  }

  ghost function SchedAfter(s: TimerState, i: Tid, a: TimerAction): State
    requires TimerEnabled(s, i, a)
  {
    match SchedPart(s, i, a)
    case None => s.sched
    case Some(sa) => Apply(s.sched, i, sa)
  }

  ghost function TimersAfter(s: TimerState, i: Tid, a: TimerAction): map<TimerId, Timer>
    requires TimerEnabled(s, i, a)
  {
    match a
    case Register(k, deadline) => s.timers[k := Timer(deadline, false, Empty, None)]
    case MarkCompleted => s.timers[s.firing[i].k := s.timers[s.firing[i].k].(completed := true)]
    case TryTake(spurious) =>
      var k := s.firing[i].k;
      if s.timers[k].cell.Stored? && !spurious then s.timers[k := s.timers[k].(cell := Waking)] else s.timers
    case TakeWaker => s.timers[s.firing[i].k := s.timers[s.firing[i].k].(waker := None)]
    case ClearCell => s.timers[s.firing[i].k := s.timers[s.firing[i].k].(cell := Empty)]
    case TryClaimEmpty(spurious) =>
      var k := s.sleeping[i].k;
      if s.timers[k].cell.Empty? && !spurious then s.timers[k := s.timers[k].(cell := Waking)] else s.timers
    case TryClaimStored(spurious) =>
      var k := s.sleeping[i].k;
      if s.timers[k].cell.Stored? && !spurious then s.timers[k := s.timers[k].(cell := Waking)] else s.timers
    case StoreWaker => s.timers[s.sleeping[i].k := s.timers[s.sleeping[i].k].(waker := Some(s.sched.threads[i].pc.t))]
    case PublishCell => s.timers[s.sleeping[i].k := s.timers[s.sleeping[i].k].(cell := Stored)]
    case _ => s.timers
  }

  /** The inbox, the heap and the fired set. */
  ghost function WheelAfter(s: TimerState, i: Tid, a: TimerAction): (seq<TimerId>, set<TimerId>, set<TimerId>)
    requires TimerEnabled(s, i, a)
  {
    match a
    case Register(k, _) => (s.inbox + [k], s.heap, s.fired)
    case Drain => ([], s.heap + (set k | k in s.inbox), s.fired)
    case Pop(k) => (s.inbox, s.heap - {k}, s.fired + {k})
    case _ => (s.inbox, s.heap, s.fired)
  }

  ghost function SleepingAfter(s: TimerState, i: Tid, a: TimerAction): map<Tid, SleepPc>
    requires TimerEnabled(s, i, a)
  {
    match a
    case StartPoll(k) => s.sleeping[i := FirstLoad(k)]
    case LoadFirst =>
      var k := s.sleeping[i].k;
      if s.timers[k].completed then s.sleeping - {i} else s.sleeping[i := CasEmpty(k)]
    case TryClaimEmpty(spurious) =>
      var k := s.sleeping[i].k;
      if s.timers[k].cell.Stored? then s.sleeping[i := CasStored(k)]
      else if s.timers[k].cell.Waking? || spurious then s.sleeping
      else s.sleeping[i := WriteCell(k)]
    case TryClaimStored(spurious) =>
      var k := s.sleeping[i].k;
      if s.timers[k].cell.Stored? && !spurious then s.sleeping[i := WriteCell(k)] else s.sleeping[i := CasEmpty(k)]
    case StoreWaker => s.sleeping[i := Publish(s.sleeping[i].k)]
    case PublishCell => s.sleeping[i := SecondLoad(s.sleeping[i].k)]
    case LoadSecond => s.sleeping - {i}
    case _ => s.sleeping
  }

  ghost function FiringAfter(s: TimerState, i: Tid, a: TimerAction): map<Tid, FirePc>
    requires TimerEnabled(s, i, a)
  {
    match a
    case Drain => s.firing[i := ReadClock]
    case ReadNow => s.firing[i := Peek(s.clock)]
    case Pop(k) => s.firing[i := Mark(s.firing[i].now, k)]
    case StopFiring => s.firing - {i}
    case MarkCompleted => s.firing[i := CasWake(s.firing[i].now, s.firing[i].k)]
    case TryTake(spurious) =>
      var k, now := s.firing[i].k, s.firing[i].now;
      if s.timers[k].cell.Empty? then s.firing[i := Peek(now)]
      else if s.timers[k].cell.Waking? || spurious then s.firing
      else s.firing[i := TakeCell(now, k)]
    case TakeWaker => s.firing[i := Clear(s.firing[i].now, s.firing[i].k, s.timers[s.firing[i].k].waker)]
    case ClearCell =>
      var Clear(now, k, w) := s.firing[i];
      s.firing[i := if w.None? then Peek(now) else Calling(now, k)]
    case CallDone => s.firing[i := Peek(s.firing[i].now)]
    case _ => s.firing
  }

  ghost function AwaitingAfter(s: TimerState, i: Tid, a: TimerAction): map<TimerId, TaskId>
    requires TimerEnabled(s, i, a)
  {
    match a
    case Sched(sa) => if sa.CasRunning? then Answered(s, s.sched.threads[i].pc.t) else s.awaiting
    case StartPoll(k) => s.awaiting - {k}
    case LoadSecond =>
      var k := s.sleeping[i].k;
      if s.timers[k].completed then s.awaiting else s.awaiting[k := s.sched.threads[i].pc.t]
    case _ => s.awaiting
  }

  ghost function CallsAfter(s: TimerState, i: Tid, a: TimerAction): map<Tid, seq<TaskId>>
    requires TimerEnabled(s, i, a)
  {
    match a
    case CollectWakers(ws) => s.calls[i := ws]
    case CallNext => s.calls[i := s.calls[i][1..]]
    case CallsDone => s.calls - {i}
    case _ => s.calls
  }

  ghost function TimerApply(s: TimerState, i: Tid, a: TimerAction): TimerState
    requires TimerEnabled(s, i, a)
  {
    var (inbox, heap, fired) := WheelAfter(s, i, a);
    TimerState(SchedAfter(s, i, a), TimersAfter(s, i, a), inbox, heap, fired, SleepingAfter(s, i, a), FiringAfter(s, i, a),
               if a.Tick? then a.clock else s.clock, AwaitingAfter(s, i, a), CallsAfter(s, i, a))
  }

  ghost predicate IsTimerRun(states: seq<TimerState>, steps: seq<(Tid, TimerAction)>) {
    && |states| == |steps| + 1
    && TimerInit(states[0])
    && forall n :: 0 <= n < |steps| ==>
         && TimerEnabled(states[n], steps[n].0, steps[n].1)
         && states[n + 1] == TimerApply(states[n], steps[n].0, steps[n].1)
  }

  // ---- Invariants ----

  predicate FiresTimer(f: FirePc, k: TimerId) {
    (f.Mark? || f.CasWake? || f.TakeCell? || f.Clear? || f.Calling?) && f.k == k
  }

  /** Thread `sl` is inside a poll of timer `k`, thread `fi` is firing it, and nobody else is. */
  ghost predicate UsersAre(s: TimerState, k: TimerId, sl: Target, fi: Target) {
    && (forall i :: i in s.sleeping ==> (s.sleeping[i].k == k <==> sl == Somebody(i)))
    && (forall i :: i in s.firing ==> (FiresTimer(s.firing[i], k) <==> fi == Somebody(i)))
    && (sl.Somebody? ==> sl.tid in s.sleeping)
    && (fi.Somebody? ==> fi.tid in s.firing)
  }

  /** The timer is in exactly one of the inbox, the heap and the fired set. */
  predicate InOnePlace(s: TimerState, k: TimerId) {
    && (k in s.inbox ==> k !in s.heap && k !in s.fired)
    && (k in s.heap ==> k !in s.fired)
    && (k in s.inbox || k in s.heap || k in s.fired)
  }

  /** The cell is WAKING exactly while one of its two users owns it. */
  predicate CellFits(s: TimerState, k: TimerId, sl: Target, fi: Target)
    requires k in s.timers
    requires sl.Somebody? ==> sl.tid in s.sleeping
    requires fi.Somebody? ==> fi.tid in s.firing
  {
    var tm := s.timers[k];
    var bySleep := sl.Somebody? && (s.sleeping[sl.tid].WriteCell? || s.sleeping[sl.tid].Publish?);
    var byFire := fi.Somebody? && (s.firing[fi.tid].TakeCell? || s.firing[fi.tid].Clear?);
    && (tm.cell.Waking? <==> bySleep || byFire)
    && !(bySleep && byFire)
    && (tm.cell.Empty? ==> tm.waker.None?)
    && (tm.cell.Stored? ==> tm.waker.Some?)
    && (fi.Somebody? && s.firing[fi.tid].TakeCell? ==> tm.waker.Some?)
    && (fi.Somebody? && s.firing[fi.tid].Clear? ==>
          tm.waker.None? && s.firing[fi.tid].w.Some? && s.firing[fi.tid].w.value in s.sched.status)
  }

  /** `completed` follows the pop, and never precedes the deadline. */
  predicate CompletionFits(s: TimerState, k: TimerId, fi: Target)
    requires k in s.timers
    requires fi.Somebody? ==> fi.tid in s.firing
  {
    var tm := s.timers[k];
    && (k in s.fired ==> tm.deadline <= s.clock)
    && (tm.completed ==> k in s.fired)
    && (k in s.fired && !tm.completed <==> fi.Somebody? && s.firing[fi.tid].Mark?)
    && (fi.Somebody? ==> k in s.fired)
  }

  /** The waker in the cell is a known task's, and the sleeper's own once it has written it. */
  predicate WakerFits(s: TimerState, k: TimerId, sl: Target)
    requires k in s.timers
    requires sl.Somebody? ==> sl.tid in s.sleeping
  {
    var tm := s.timers[k];
    && (tm.waker.Some? ==> tm.waker.value in s.sched.status)
    && (sl.Somebody? ==>
          && sl.tid < |s.sched.threads| && s.sched.threads[sl.tid].pc.Polling?
          && (s.sleeping[sl.tid].Publish? ==> tm.waker == Some(s.sched.threads[sl.tid].pc.t))
          && (s.sleeping[sl.tid].SecondLoad? && !tm.completed ==>
                tm.cell.Stored? && tm.waker == Some(s.sched.threads[sl.tid].pc.t)))
  }

  /**
   Who will wake a task whose last poll of the timer was pending: before completion the waker
   is in the cell; after it, the firing thread has it or the wake has taken effect.
   */
  predicate AwaitFits(s: TimerState, k: TimerId, sl: Target, fi: Target)
    requires k in s.timers
  {
    k in s.awaiting ==>
      var w := s.awaiting[k];
      && sl.Nobody? && w in s.sched.status
      && if !s.timers[k].completed then WillBeWoken(s, k, w)
         else (fi.Somebody? && IsWaking(s, fi.tid, k, w)) || WakePending(s.sched, w) || w in s.sched.done
  }

  ghost predicate TimerFits(s: TimerState, k: TimerId, sl: Target, fi: Target) {
    && k in s.timers && UsersAre(s, k, sl, fi)
    && InOnePlace(s, k) && CellFits(s, k, sl, fi) && CompletionFits(s, k, fi)
    && WakerFits(s, k, sl) && AwaitFits(s, k, sl, fi)
  }

  ghost predicate TimerOk(s: TimerState, k: TimerId) {
    exists sl, fi :: TimerFits(s, k, sl, fi)
  }

  predicate Fires(pc: Pc) { pc.Fire1? || pc.Fire2? }

  /** A thread inside Sleep::poll runs a future; a thread inside the firing loop drives. */
  ghost predicate PlaceOk(s: TimerState, i: Tid) {
    && (i in s.sleeping ==>
          i < |s.sched.threads| && s.sched.threads[i].pc.Polling? && s.sched.threads[i].op.NoOp? && s.sleeping[i].k in s.timers)
    && (i in s.firing ==>
          && i < |s.sched.threads| && Fires(s.sched.threads[i].pc)
          && (!s.firing[i].Calling? ==> s.sched.threads[i].op.NoOp?)
          && (!s.firing[i].ReadClock? ==> s.firing[i].now <= s.clock)
          && (forall k :: FiresTimer(s.firing[i], k) ==> k in s.timers))
    && (i < |s.sched.threads| && Fires(s.sched.threads[i].pc) ==> i in s.firing)
    && (i in s.calls <==> i < |s.sched.threads| && s.sched.threads[i].pc.WakeAll?)
    && (i in s.calls ==> forall n :: 0 <= n < |s.calls[i]| ==> s.calls[i][n] in s.sched.status)
  }

  ghost predicate PlacesOk(s: TimerState) { forall i: Tid :: PlaceOk(s, i) }

  ghost predicate WheelOk(s: TimerState) {
    && (forall n, m :: 0 <= n < m < |s.inbox| ==> s.inbox[n] != s.inbox[m])
    && (forall k :: k in s.inbox || k in s.heap || k in s.fired || k in s.awaiting ==> k in s.timers)
  }

  /** From the driver's inbox drain until epoll_wait returns. */
  predicate Drained(pc: Pc) { pc.Fire1? || pc.Wait? }

  ghost predicate SleepPokeComing(s: State) {
    exists j :: 0 <= j < |s.threads| && s.threads[j].op.SleepWake?
  }

  ghost predicate TimersHeard(s: TimerState) {
    forall i :: 0 <= i < |s.sched.threads| && Drained(s.sched.threads[i].pc) && s.inbox != [] ==>
      s.sched.eventfd > 0 || SleepPokeComing(s.sched)
  }

  ghost predicate TimerInv(s: TimerState) {
    && Inv(s.sched) && PlacesOk(s) && WheelOk(s) && TimersHeard(s)
    && forall k :: k in s.timers ==> TimerOk(s, k)
  }
}
