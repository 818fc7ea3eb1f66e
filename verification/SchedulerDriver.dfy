/**
 Driver election, parking and the eventfd: who drives, who sleeps, and why an enqueue
 never finds everybody asleep.
 */
module SchedulerDriver {
  import opened Shared
  import opened Scheduler
  import opened SchedulerOwnership

  /** The token belongs to the thread `p` and to no other. */
  ghost predicate DriverIs(s: State, p: Target) {
    && (forall i :: 0 <= i < |s.threads| ==> (Drives(s.threads[i].pc) <==> p == Somebody(i)))
    && (p.Somebody? ==> p.tid < |s.threads|)
    && (s.token <==> p.Somebody?)
  }

  ghost predicate OneDriver(s: State) { exists p :: DriverIs(s, p) }

  predicate HoldsQueue(pc: Pc) { pc.ParkCheck? || pc.ParkWait? }

  /** The queue mutex is held exactly by the worker between its check and its wait. */
  ghost predicate LockAgrees(s: State) {
    && (forall i :: 0 <= i < |s.threads| ==> (HoldsQueue(s.threads[i].pc) <==> s.queueLock == Somebody(i)))
    && (s.queueLock.Somebody? ==> s.queueLock.tid < |s.threads|)
  }

  /** From the driver's empty-queue re-check until epoll_wait returns. */
  predicate Committed(pc: Pc) { pc.Drain1? || pc.Fire1? || pc.Wait? }

  /** Between the push and the eventfd write. */
  predicate AboutToPoke(op: Op) { op.EnqLoadToken? || op.EnqWake? }

  ghost predicate PokeComing(s: State) {
    exists j :: 0 <= j < |s.threads| && AboutToPoke(s.threads[j].op)
  }

  ghost predicate DriverInformed(s: State) {
    forall i :: 0 <= i < |s.threads| && Committed(s.threads[i].pc) && s.ready.queue != [] ==>
      s.eventfd > 0 || PokeComing(s)
  }

  predicate IsWorker(pc: Pc) { !pc.External? }

  /** A worker that is neither parked, nor on its way to park, nor gone. */
  predicate Awake(pc: Pc) {
    IsWorker(pc) && !pc.ParkLock? && !pc.ParkCheck? && !pc.ParkWait? && !pc.Parked? && !pc.Exited?
  }

  ghost predicate SomeoneAwake(s: State) {
    exists i :: 0 <= i < |s.threads| && Awake(s.threads[i].pc)
  }

  ghost predicate Driver(s: State) {
    OneDriver(s) && LockAgrees(s) && DriverInformed(s) && (s.shutdown || SomeoneAwake(s))
  }

  // ---- Token and lock ----

  lemma ActorDrives(s: State, i: Tid, a: Action)
    requires Enabled(s, i, a) && !a.TakeToken? && !a.ReleaseToken?
    ensures Effect(s, i, a).token == s.token
    ensures Drives(PcAfter(s, i, a)) == Drives(s.threads[i].pc)
  {
  }

  lemma DriverFrame(s: State, s': State, i: Tid, p: Target, p': Target)
    requires DriverIs(s, p) && i < |s.threads| && OthersUndisturbed(s, s', i)
    requires p' == p || (p.Nobody? && p' == Somebody(i)) || (p == Somebody(i) && p'.Nobody?)
    requires Drives(s'.threads[i].pc) <==> p' == Somebody(i)
    requires s'.token <==> p'.Somebody?
    ensures OneDriver(s')
  {
    forall j | 0 <= j < |s'.threads| ensures Drives(s'.threads[j].pc) <==> p' == Somebody(j) {
      assert j != i ==> Undisturbed(s.threads[j], s'.threads[j]);
    }
    assert DriverIs(s', p');
  }

  lemma KeepsOneDriver(s: State, i: Tid, a: Action)
    requires OneDriver(s) && Enabled(s, i, a)
    ensures OneDriver(Apply(s, i, a))
  {
    var p :| DriverIs(s, p);
    var p' := if a.TakeToken? && !s.token then Somebody(i) else if a.ReleaseToken? then Nobody else p;
    OnlyActorMoves(s, i, a);
    if !a.TakeToken? && !a.ReleaseToken? { ActorDrives(s, i, a); }
    DriverFrame(s, Apply(s, i, a), i, p, p');
  }

  predicate LocksWell(s: State, i: Tid, a: Action)
    requires Enabled(s, i, a)
  {
    && (HoldsQueue(PcAfter(s, i, a)) <==> Effect(s, i, a).queueLock == Somebody(i))
    && (Effect(s, i, a).queueLock != s.queueLock ==>
          || (s.queueLock.Nobody? && Effect(s, i, a).queueLock == Somebody(i))
          || (s.queueLock == Somebody(i) && Effect(s, i, a).queueLock.Nobody?))
  }

  lemma OpLocks(s: State, i: Tid, a: Action)
    requires Enabled(s, i, a) && (HoldsQueue(s.threads[i].pc) <==> s.queueLock == Somebody(i)) && IsOpStep(a)
    ensures LocksWell(s, i, a)
  {
  }

  lemma PcLocks(s: State, i: Tid, a: Action)
    requires Enabled(s, i, a) && (HoldsQueue(s.threads[i].pc) <==> s.queueLock == Somebody(i)) && !IsOpStep(a)
    ensures LocksWell(s, i, a)
  {
  }

  lemma KeepsLock(s: State, i: Tid, a: Action)
    requires LockAgrees(s) && Enabled(s, i, a)
    ensures LockAgrees(Apply(s, i, a))
  {
    var s' := Apply(s, i, a);
    if IsOpStep(a) { OpLocks(s, i, a); } else { PcLocks(s, i, a); }
    OnlyActorMoves(s, i, a);
    LockFrame(s, s', i);
  }

  lemma LockFrame(s: State, s': State, i: Tid)
    requires LockAgrees(s) && i < |s.threads| && OthersUndisturbed(s, s', i)
    requires HoldsQueue(s'.threads[i].pc) <==> s'.queueLock == Somebody(i)
    requires s'.queueLock != s.queueLock ==>
               || (s.queueLock.Nobody? && s'.queueLock == Somebody(i))
               || (s.queueLock == Somebody(i) && s'.queueLock.Nobody?)
    ensures LockAgrees(s')
  {
    forall j | 0 <= j < |s'.threads| ensures HoldsQueue(s'.threads[j].pc) <==> s'.queueLock == Somebody(j) {
      assert j != i ==> Undisturbed(s.threads[j], s'.threads[j]);
    }
  }

  // ---- The driver hears of every enqueue ----

  /** What an action may do to the queue, the counter and the pokes under way. */
  predicate Informs(s: State, i: Tid, a: Action)
    requires Enabled(s, i, a)
  {
    && (Effect(s, i, a).ready.queue != [] ==> s.ready.queue != [] || AboutToPoke(OpAfter(s, i, a)))
    && (AboutToPoke(s.threads[i].op) ==>
          AboutToPoke(OpAfter(s, i, a)) || Effect(s, i, a).eventfd > 0 || !s.token)
    && (Effect(s, i, a).eventfd >= s.eventfd || s.threads[i].pc.Collect?)
    && (Committed(PcAfter(s, i, a)) ==> Committed(s.threads[i].pc) || Effect(s, i, a).ready.queue == [])
  }

  lemma OpInforms(s: State, i: Tid, a: Action)
    requires Enabled(s, i, a) && IsOpStep(a)
    ensures Informs(s, i, a)
  {
  }

  lemma PcOnlyDrains(s: State, i: Tid, a: Action)
    requires Enabled(s, i, a) && !IsOpStep(a)
    ensures Effect(s, i, a).ready.queue != [] ==> s.ready.queue != []
    ensures Effect(s, i, a).eventfd >= s.eventfd || s.threads[i].pc.Collect?
  {
  }

  lemma PcInforms(s: State, i: Tid, a: Action)
    requires Enabled(s, i, a) && !IsOpStep(a)
    ensures Informs(s, i, a)
  {
    PcOnlyDrains(s, i, a);
    if !Committed(s.threads[i].pc) && Committed(PcAfter(s, i, a)) { assert a.RecheckReady?; }
  }

  lemma KeepsInformed(s: State, i: Tid, a: Action)
    requires Driver(s) && Enabled(s, i, a)
    ensures DriverInformed(Apply(s, i, a))
  {
    var s' := Apply(s, i, a);
    if IsOpStep(a) { OpInforms(s, i, a); } else { PcInforms(s, i, a); }
    OnlyActorMoves(s, i, a);
    InformedFrame(s, s', i);
  }

  lemma InformedFrame(s: State, s': State, i: Tid)
    requires DriverInformed(s) && OneDriver(s) && i < |s.threads| && OthersUndisturbed(s, s', i)
    requires s'.ready.queue != [] ==> s.ready.queue != [] || AboutToPoke(s'.threads[i].op)
    requires AboutToPoke(s.threads[i].op) ==> AboutToPoke(s'.threads[i].op) || s'.eventfd > 0 || !s.token
    requires s'.eventfd >= s.eventfd || s.threads[i].pc.Collect?
    requires Committed(s'.threads[i].pc) ==> Committed(s.threads[i].pc) || s'.ready.queue == []
    ensures DriverInformed(s')
  {
    var p :| DriverIs(s, p);
    forall k | 0 <= k < |s'.threads| && Committed(s'.threads[k].pc) && s'.ready.queue != []
      ensures s'.eventfd > 0 || PokeComing(s')
    {
      assert k != i ==> Undisturbed(s.threads[k], s'.threads[k]);
      assert Drives(s.threads[k].pc) && p == Somebody(k);
      if !AboutToPoke(s'.threads[i].op) && s'.eventfd == 0 {
        var j :| 0 <= j < |s.threads| && AboutToPoke(s.threads[j].op);
        assert j != i && Undisturbed(s.threads[j], s'.threads[j]);
        assert AboutToPoke(s'.threads[j].op);
      }
    }
  }

  // ---- Somebody stays awake ----

  lemma ActorStaysAwake(s: State, i: Tid, a: Action)
    requires Enabled(s, i, a) && Awake(s.threads[i].pc) && !s.shutdown
    ensures Awake(PcAfter(s, i, a)) || (s.token && !Drives(s.threads[i].pc))
  {
  }

  /** A worker that goes to park has seen the token taken, and its holder is awake. */
  lemma DriverStaysAwake(s: State, s': State, i: Tid)
    requires OneDriver(s) && s.token && i < |s.threads| && OthersUndisturbed(s, s', i) && !Drives(s.threads[i].pc)
    ensures SomeoneAwake(s')
  {
    var p :| DriverIs(s, p);
    assert Drives(s.threads[p.tid].pc) && Undisturbed(s.threads[p.tid], s'.threads[p.tid]);
    assert Awake(s'.threads[p.tid].pc);
  }

  lemma KeepsAwake(s: State, i: Tid, a: Action)
    requires Driver(s) && Enabled(s, i, a) && !Effect(s, i, a).shutdown
    ensures SomeoneAwake(Apply(s, i, a))
  {
    var s' := Apply(s, i, a);
    assert !s.shutdown;
    OnlyActorMoves(s, i, a);
    var k :| 0 <= k < |s.threads| && Awake(s.threads[k].pc);
    if k != i {
      assert Undisturbed(s.threads[k], s'.threads[k]);
      assert Awake(s'.threads[k].pc);
    } else {
      ActorStaysAwake(s, i, a);
      if !Awake(s'.threads[i].pc) { DriverStaysAwake(s, s', i); }
    }
  }

  lemma KeepsDriver(s: State, i: Tid, a: Action)
    requires Driver(s) && Enabled(s, i, a)
    ensures Driver(Apply(s, i, a))
  {
    KeepsOneDriver(s, i, a);
    KeepsLock(s, i, a);
    KeepsInformed(s, i, a);
    if !Effect(s, i, a).shutdown { KeepsAwake(s, i, a); }
  }

  lemma InitDriver(s: State)
    requires Init(s)
    ensures Driver(s)
  {
    assert DriverIs(s, Nobody);
    var i :| 0 <= i < |s.threads| && s.threads[i].pc.Top?;
    assert Awake(s.threads[i].pc);
  }
}
