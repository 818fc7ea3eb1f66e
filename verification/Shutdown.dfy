/**
 The pool comes to an end.  From every reachable state after a shutdown each worker gets to its
 exit: it finishes what it has begun, is not kept by the queue, the driver's place or the condvar,
 and waits for nothing but the bounded waits.
 */
module Shutdown {
  import opened Shared
  import opened Scheduler
  import opened SchedulerOwnership
  import opened SchedulerDriver
  import opened SchedulerTheorems
  import opened SchedulerSteps
  import opened SleepTimers
  import opened SleepTimerProofs
  import opened Settling
  import opened Progress

  /** How far a worker is from its exit. */
  function ExitRank(pc: Pc): nat {
    match pc
    case External | Exited => 0
    case Top | ParkCheck => 1
    case Release | Woken | NotifyDone | StoreSched(_) | ParkLock => 2
    case Decr | CasIdle(_) | Fire2 | Parked => 3
    case Remove(_) | Drain2 | ParkWait => 4
    case Polling(_) | WakeAll => 5
    case CasRun(_) | Collect(_) => 6
    case Lookup(_) | Wait => 7
    case Fire1 => 8
    case Drain1 => 9
    case Recheck => 10
    case CasToken => 11
    case Dequeueing => 12
  }

  /** The next step of a worker on its way out. */
  function NextOut(s: State, pc: Pc, c: Choice): Action {
    match pc
    case ParkCheck => CheckPark
    case ParkWait => StartPark
    case Parked => ParkTimeout
    case Wait => if s.eventfd == 0 then WaitReturn(false) else WaitReturn(c.saw)
    case _ => NextPc(pc, c)
  }

  lemma OutPrompt(s: State, u: Tid, c: Choice)
    requires u < |s.threads| && s.threads[u].op.NoOp? && IsWorker(s.threads[u].pc) && !s.threads[u].pc.Exited?
    requires QueueFree(s) || HoldsQueue(s.threads[u].pc)
    requires c.timely && c.restless && forall t :: Handles(s.threads[u].pc, t) ==> t in s.status
    ensures Prompt(s, Step(u, NextOut(s, s.threads[u].pc, c)), c) && IsPcStep(NextOut(s, s.threads[u].pc, c))
  {
    var pc := s.threads[u].pc;
    assert pc.CasRun? || pc.CasIdle? || pc.StoreSched? ==> Handles(pc, pc.t);
  }

  lemma OutAdvances(s: State, u: Tid, c: Choice)
    requires s.shutdown && u < |s.threads| && IsWorker(s.threads[u].pc) && !s.threads[u].pc.Exited?
    requires Enabled(s, u, NextOut(s, s.threads[u].pc, c))
    ensures var pc' := PcAfter(s, u, NextOut(s, s.threads[u].pc, c));
            ExitRank(pc') < ExitRank(s.threads[u].pc) && IsWorker(pc')
  {
  }

  /** A worker with the queue mutex has nothing else under way. */
  lemma HolderStep(s: TimerState, u: Tid, c: Choice) returns (path: Path, s': TimerState)
    requires Sound(s, c) && s.sched.shutdown && u < |s.sched.threads| && HoldsQueue(s.sched.threads[u].pc)
    requires c.timely && c.restless
    ensures Leads(s, path, s', c) && Sound(s', c) && s'.sched.shutdown && |s'.sched.threads| == |s.sched.threads|
    ensures IsWorker(s'.sched.threads[u].pc) && ExitRank(s'.sched.threads[u].pc) < ExitRank(s.sched.threads[u].pc)
  {
    var sa := NextOut(s.sched, s.sched.threads[u].pc, c);
    assert PlaceOk(s, u) && WellPlaced(s.sched.threads[u]);
    OutPrompt(s.sched, u, c);
    OutAdvances(s.sched, u, c);
    HolderEnabled(s, u, sa, c);
    OneStep(s, u, Sched(sa), c);
    KeepsTimerInv(s, u, Sched(sa));
    path, s' := [(u, Sched(sa))], TimerApply(s, u, Sched(sa));
  }

  lemma HolderEnabled(s: TimerState, u: Tid, sa: Action, c: Choice)
    requires PlaceOk(s, u) && Prompt(s.sched, Step(u, sa), c) && (sa.CheckPark? || sa.StartPark?)
    ensures TimerPrompt(s, u, Sched(sa), c)
    ensures TimerApply(s, u, Sched(sa)).sched.status == s.sched.status
    ensures TimerApply(s, u, Sched(sa)).sched.shutdown == s.sched.shutdown
  {
  }

  lemma OtherStep(s: TimerState, u: Tid, c: Choice) returns (path: Path, s': TimerState)
    requires Sound(s, c) && s.sched.shutdown && Settled(s, u) && IsWorker(s.sched.threads[u].pc)
    requires !s.sched.threads[u].pc.Exited? && c.timely && c.restless
    ensures Leads(s, path, s', c) && Sound(s', c) && s'.sched.shutdown && |s'.sched.threads| == |s.sched.threads|
    ensures IsWorker(s'.sched.threads[u].pc) && ExitRank(s'.sched.threads[u].pc) < ExitRank(s.sched.threads[u].pc)
  {
    forall t | Handles(s.sched.threads[u].pc, t) ensures t in s.sched.status { HandledIsKnown(s.sched, u, t); }
    OutPrompt(s.sched, u, c);
    OutAdvances(s.sched, u, c);
    path, s' := PcStep(s, u, NextOut(s.sched, s.sched.threads[u].pc, c), c);
  }

  lemma SettleOut(s: TimerState, u: Tid, c: Choice) returns (path: Path, s': TimerState)
    requires Sound(s, c) && s.sched.shutdown && u < |s.sched.threads| && !HoldsQueue(s.sched.threads[u].pc)
    ensures Leads(s, path, s', c) && Sound(s', c) && s'.sched.shutdown && Settled(s', u)
    ensures |s'.sched.threads| == |s.sched.threads| && s'.sched.threads[u].pc == s.sched.threads[u].pc
  {
    path, s' := Settle(s, u, c);
  }

  lemma {:induction false} GetsOut(s: TimerState, u: Tid, c: Choice) returns (path: Path, s': TimerState)
    requires Sound(s, c) && s.sched.shutdown && u < |s.sched.threads| && IsWorker(s.sched.threads[u].pc)
    requires c.timely && c.restless
    ensures Leads(s, path, s', c) && u < |s'.sched.threads| && s'.sched.threads[u].pc.Exited?
    decreases ExitRank(s.sched.threads[u].pc)
  {
    if s.sched.threads[u].pc.Exited? {
      NoStep(s, c);
      return [], s;
    }
    if HoldsQueue(s.sched.threads[u].pc) {
      path, s' := HolderStep(s, u, c);
    } else {
      var path1, s1 := SettleOut(s, u, c);
      path, s' := OtherStep(s1, u, c);
      LeadsOn(s, path1, s1, path, s', c);
      path := path1 + path;
    }
    var more, s2 := GetsOut(s', u, c);
    LeadsOn(s, path, s', more, s2, c);
    path, s' := path + more, s2;
  }

  /**
   Shutdown ends the pool: in every reachable state after it, and whatever the surroundings
   choose, every worker gets to its exit.
   */
  lemma WorkersExit(states: seq<TimerState>, steps: Path, n: nat, u: Tid, c: Choice) returns (path: Path, s': TimerState)
    requires IsTimerRun(states, steps) && n < |states| && states[n].sched.shutdown && c.timely && c.restless
    requires forall m :: 0 <= m < |c.collected| ==> c.collected[m] in states[n].sched.status
    requires u < |states[n].sched.threads| && IsWorker(states[n].sched.threads[u].pc)
    ensures Leads(states[n], path, s', c) && u < |s'.sched.threads| && s'.sched.threads[u].pc.Exited?
  {
    TimerRunInv(states, steps, n);
    path, s' := GetsOut(states[n], u, c);
  }
}
