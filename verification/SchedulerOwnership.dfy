/**
 Where a task is.  In every reachable state a task is in exactly one place: nowhere
 (not created, idle, or finished), in the ready queue, in the hands of a thread that is
 about to enqueue it, or in the hands of a worker inside `poll_task`.  The place fixes
 the task's atomic state, its map entry and whether its future may be touched.
 */
module SchedulerOwnership {
  import opened Shared
  import opened Scheduler

  datatype Place = Nowhere | InQueue | AtOp(tid: Tid) | AtPc(tid: Tid)

  /** The operation carries `t` towards the ready queue. */
  predicate Carries(op: Op, t: TaskId) {
    (op.SpawnInsert? || op.SpawnCount? || op.EnqPush?) && op.t == t
  }

  /** The worker is inside `poll_task(t)`, between dequeuing it and letting go of it. */
  predicate Handles(pc: Pc, t: TaskId) {
    (pc.Lookup? || pc.CasRun? || pc.Polling? || pc.CasIdle? || pc.StoreSched? || pc.Remove?) && pc.t == t
  }

  predicate IsScheduled(s: State, t: TaskId) {
    t in s.status && s.status[t].Scheduled? && t !in s.done
  }

  predicate IsRunning(s: State, t: TaskId) {
    t in s.status && (s.status[t].Running? || s.status[t].Notified?)
  }

  /** What the place of a task says about its shared state. */
  predicate Fits(s: State, t: TaskId, p: Place) {
    match p
    case Nowhere =>
      if t !in s.status then t !in s.tasks && t !in s.done
      else if t in s.done then t !in s.tasks && IsRunning(s, t)
      else t in s.tasks && s.status[t].Idle?
    case InQueue => IsScheduled(s, t) && t in s.tasks
    case AtOp(i) =>
      i < |s.threads| && IsScheduled(s, t) && (t in s.tasks <==> !s.threads[i].op.SpawnInsert?)
    case AtPc(i) =>
      && i < |s.threads| && t in s.tasks
      && match s.threads[i].pc {
           case Lookup(_) | CasRun(_) => IsScheduled(s, t)
           case Polling(_) | CasIdle(_) => IsRunning(s, t) && t !in s.done
           case StoreSched(_) => t in s.status && s.status[t].Notified? && t !in s.done
           case Remove(_) => IsRunning(s, t) && t in s.done
           case _ => false
         }
  }

  /** Task `t` is at `p` and at no other place. */
  ghost predicate TaskAt(s: State, t: TaskId, p: Place) {
    && (forall i :: 0 <= i < |s.threads| ==> (Handles(s.threads[i].pc, t) <==> p == AtPc(i)))
    && (forall i :: 0 <= i < |s.threads| ==> (Carries(s.threads[i].op, t) <==> p == AtOp(i)))
    && (t in s.ready.queue <==> p == InQueue)
    && Fits(s, t, p)
  }

  ghost predicate HasPlace(s: State, t: TaskId) {
    exists p :: TaskAt(s, t, p)
  }

  /** Operations are only in progress where the code calls them. */
  predicate WellPlaced(th: Thread) {
    && (!th.op.NoOp? ==> CallsWakers(th.pc) || th.pc.Top?)
    && (th.op.SpawnInsert? || th.op.SpawnCount? || th.op.SleepRegister? || th.op.SleepWake? ==>
          RunsUserCode(th.pc))
    && (th.op.ShutNotify? || th.op.ShutWake? ==> th.pc.External?)
    && (th.op.WakeCas? ==> th.op.seen.Idle? || th.op.seen.Running?)
  }

  ghost predicate Placed(s: State) {
    forall i :: 0 <= i < |s.threads| ==>
      && WellPlaced(s.threads[i])
      && (s.threads[i].op.WakeLoad? || s.threads[i].op.WakeCas? ==> s.threads[i].op.t in s.status)
  }

  ghost predicate Ownership(s: State) {
    && s.ready.Valid()
    && Placed(s)
    && forall t: TaskId :: HasPlace(s, t)
  }

  // ---- Tasks an action does not touch ----

  predicate SameHandling(pc: Pc, pc': Pc, t: TaskId) {
    Handles(pc, t) || Handles(pc', t) ==> pc == pc'
  }

  predicate SameCarrying(op: Op, op': Op, t: TaskId) {
    Carries(op, t) || Carries(op', t) ==> op == op'
  }

  predicate SharedSame(s: State, s': State, t: TaskId) {
    && (t in s'.status <==> t in s.status) && (t in s.status ==> s'.status[t] == s.status[t])
    && (t in s'.tasks <==> t in s.tasks)
    && (t in s'.done <==> t in s.done)
    && (t in s'.ready.queue <==> t in s.ready.queue)
  }

  /** A thread that did not act either kept its place or was taken off the condvar. */
  predicate Undisturbed(th: Thread, th': Thread) {
    th' == th || (th.pc.Parked? && th' == th.(pc := Woken))
  }

  ghost predicate OthersUndisturbed(s: State, s': State, i: Tid) {
    && |s'.threads| == |s.threads|
    && forall j :: 0 <= j < |s.threads| && j != i ==> Undisturbed(s.threads[j], s'.threads[j])
  }

  lemma StaysPut(s: State, s': State, i: Tid, t: TaskId)
    requires HasPlace(s, t) && SharedSame(s, s', t)
    requires i < |s.threads| && OthersUndisturbed(s, s', i)
    requires SameHandling(s.threads[i].pc, s'.threads[i].pc, t)
    requires SameCarrying(s.threads[i].op, s'.threads[i].op, t)
    ensures HasPlace(s', t)
  {
    var p :| TaskAt(s, t, p);
    forall j | 0 <= j < |s'.threads|
      ensures Handles(s'.threads[j].pc, t) <==> p == AtPc(j)
      ensures Carries(s'.threads[j].op, t) <==> p == AtOp(j)
    {
      assert j != i ==> Undisturbed(s.threads[j], s'.threads[j]);
    }
    assert TaskAt(s', t, p);
  }

  /** The one task an action moves or changes, if any. */
  datatype Subject = NoTask | Task(t: TaskId)

  function SubjectOf(s: State, i: Tid, a: Action): Subject
    requires Enabled(s, i, a)
  {
    var th := s.threads[i];
    match a
    case BeginSpawn(t) => Task(t)
    case CasStatus(_) => Task(th.op.t)
    case InsertTask | CountTask | PushReady => Task(th.op.t)
    case DequeueReady => if s.ready.queue == [] then NoTask else Task(s.ready.queue[0])
    case LookupTask | CasRunning | PollPending | PollDone => Task(th.pc.t)
    case CasBackToIdle | StoreScheduled | RemoveTask => Task(th.pc.t)
    case _ => NoTask
  }

  lemma OnlyActorMoves(s: State, i: Tid, a: Action)
    requires Enabled(s, i, a)
    ensures OthersUndisturbed(s, Apply(s, i, a), i)
  {
  }

  /** An operation in progress leaves the caller's own program counter alone. */
  lemma OpKeepsPc(s: State, i: Tid, a: Action)
    requires Enabled(s, i, a) && !s.threads[i].op.NoOp?
    ensures PcAfter(s, i, a) == s.threads[i].pc
  {
  }

  lemma ActorHandling(s: State, i: Tid, a: Action, t: TaskId)
    requires Enabled(s, i, a) && SubjectOf(s, i, a) != Task(t)
    ensures SameHandling(s.threads[i].pc, PcAfter(s, i, a), t)
  {
  }

  lemma ActorCarrying(s: State, i: Tid, a: Action, t: TaskId)
    requires Enabled(s, i, a) && SubjectOf(s, i, a) != Task(t)
    ensures SameCarrying(s.threads[i].op, OpAfter(s, i, a), t)
  {
  }

  lemma StatusUntouched(s: State, i: Tid, a: Action, t: TaskId)
    requires Enabled(s, i, a) && SubjectOf(s, i, a) != Task(t)
    ensures t in Effect(s, i, a).status <==> t in s.status
    ensures t in s.status ==> Effect(s, i, a).status[t] == s.status[t]
  {
  }

  lemma SetsUntouched(s: State, i: Tid, a: Action, t: TaskId)
    requires Enabled(s, i, a) && SubjectOf(s, i, a) != Task(t)
    ensures t in Effect(s, i, a).tasks <==> t in s.tasks
    ensures t in Effect(s, i, a).done <==> t in s.done
  {
  }

  lemma SharedUntouched(s: State, i: Tid, a: Action, t: TaskId)
    requires Enabled(s, i, a) && SubjectOf(s, i, a) != Task(t)
    ensures SharedSame(s, Effect(s, i, a), t)
  {
    StatusUntouched(s, i, a, t);
    SetsUntouched(s, i, a, t);
    if !a.PushReady? && !a.DequeueReady? { ReadyUntouched(s, i, a); }
  }

  lemma ActorPlaced(s: State, i: Tid, a: Action)
    requires Enabled(s, i, a) && WellPlaced(s.threads[i])
    ensures WellPlaced(Thread(PcAfter(s, i, a), OpAfter(s, i, a)))
  {
  }

  // ---- The task an action moves ----

  lemma SubjectOfSpawn(s: State, i: Tid, a: Action, t: TaskId, p: Place)
    requires Ownership(s) && Enabled(s, i, a) && SubjectOf(s, i, a) == Task(t) && TaskAt(s, t, p)
    requires a.BeginSpawn? || a.InsertTask? || a.CountTask?
    ensures HasPlace(Apply(s, i, a), t)
  {
    assert TaskAt(Apply(s, i, a), t, AtOp(i));
  }

  lemma SubjectOfPush(s: State, i: Tid, a: Action, t: TaskId, p: Place)
    requires Ownership(s) && Enabled(s, i, a) && SubjectOf(s, i, a) == Task(t) && TaskAt(s, t, p)
    requires a.PushReady?
    ensures HasPlace(Apply(s, i, a), t)
  {
    assert TaskAt(Apply(s, i, a), t, InQueue);
  }

  lemma SubjectOfWake(s: State, i: Tid, t: TaskId, p: Place)
    requires Ownership(s) && Enabled(s, i, CasStatus(false)) && TaskAt(s, t, p)
    requires s.threads[i].op == WakeCas(t, Idle) && s.status[t].Idle?
    ensures HasPlace(Apply(s, i, CasStatus(false)), t)
  {
    assert TaskAt(Apply(s, i, CasStatus(false)), t, AtOp(i));
  }

  lemma SubjectOfNotify(s: State, i: Tid, t: TaskId, p: Place)
    requires Ownership(s) && Enabled(s, i, CasStatus(false)) && TaskAt(s, t, p)
    requires s.threads[i].op == WakeCas(t, Running) && s.status[t].Running?
    ensures HasPlace(Apply(s, i, CasStatus(false)), t)
  {
    assert TaskAt(Apply(s, i, CasStatus(false)), t, p);
  }

  lemma SubjectOfRetry(s: State, i: Tid, a: Action, t: TaskId, p: Place)
    requires TaskAt(s, t, p) && Enabled(s, i, a) && a.CasStatus? && s.threads[i].op.t == t
    requires a.spurious || s.status[t] != s.threads[i].op.seen
    ensures HasPlace(Apply(s, i, a), t)
  {
    assert TaskAt(Apply(s, i, a), t, p);
  }

  lemma SubjectOfPc(s: State, i: Tid, a: Action, t: TaskId, p: Place)
    requires Ownership(s) && Enabled(s, i, a) && SubjectOf(s, i, a) == Task(t) && TaskAt(s, t, p)
    requires a.DequeueReady? || a.LookupTask? || a.CasRunning? || a.PollPending? || a.PollDone?
    ensures HasPlace(Apply(s, i, a), t)
  {
    var s' := Apply(s, i, a);
    assert TaskAt(s', t, AtPc(i));
  }

  lemma SubjectLeaves(s: State, i: Tid, a: Action, t: TaskId, p: Place)
    requires Ownership(s) && Enabled(s, i, a) && SubjectOf(s, i, a) == Task(t) && TaskAt(s, t, p)
    requires a.CasBackToIdle? || a.StoreScheduled? || a.RemoveTask?
    ensures HasPlace(Apply(s, i, a), t)
  {
    var s' := Apply(s, i, a);
    if a.RemoveTask? || (a.CasBackToIdle? && s.status[t].Running?) {
      assert TaskAt(s', t, Nowhere);
    } else if a.StoreScheduled? {
      assert TaskAt(s', t, AtOp(i));
    } else {
      assert TaskAt(s', t, AtPc(i));
    }
  }

  lemma SubjectMoves(s: State, i: Tid, a: Action, t: TaskId)
    requires Ownership(s) && Enabled(s, i, a) && SubjectOf(s, i, a) == Task(t)
    ensures HasPlace(Apply(s, i, a), t)
  {
    assert HasPlace(s, t);
    var p :| TaskAt(s, t, p);
    if a.BeginSpawn? || a.InsertTask? || a.CountTask? {
      SubjectOfSpawn(s, i, a, t, p);
    } else if a.PushReady? {
      SubjectOfPush(s, i, a, t, p);
    } else if a.CasStatus? {
      assert WellPlaced(s.threads[i]);
      if a.spurious || s.status[t] != s.threads[i].op.seen {
        SubjectOfRetry(s, i, a, t, p);
      } else if s.status[t].Idle? {
        SubjectOfWake(s, i, t, p);
      } else {
        SubjectOfNotify(s, i, t, p);
      }
    } else if a.CasBackToIdle? || a.StoreScheduled? || a.RemoveTask? {
      SubjectLeaves(s, i, a, t, p);
    } else {
      SubjectOfPc(s, i, a, t, p);
    }
  }

  lemma PlacedFrame(s: State, s': State, i: Tid)
    requires Placed(s) && i < |s.threads| && OthersUndisturbed(s, s', i)
    requires WellPlaced(s'.threads[i]) && s.status.Keys <= s'.status.Keys
    requires s'.threads[i].op.WakeLoad? || s'.threads[i].op.WakeCas? ==> s'.threads[i].op.t in s'.status
    ensures Placed(s')
  {
    forall j | 0 <= j < |s'.threads|
      ensures WellPlaced(s'.threads[j])
      ensures s'.threads[j].op.WakeLoad? || s'.threads[j].op.WakeCas? ==> s'.threads[j].op.t in s'.status
    {
      assert j != i ==> Undisturbed(s.threads[j], s'.threads[j]);
    }
  }

  lemma TasksStayKnown(s: State, i: Tid, a: Action)
    requires Enabled(s, i, a)
    ensures s.status.Keys <= Effect(s, i, a).status.Keys
  {
  }

  lemma FinishedStay(s: State, i: Tid, a: Action)
    requires Enabled(s, i, a)
    ensures s.done <= Effect(s, i, a).done
  {
  }

  lemma WakeTargetKnown(s: State, i: Tid, a: Action)
    requires Enabled(s, i, a)
    requires s.threads[i].op.WakeLoad? || s.threads[i].op.WakeCas? ==> s.threads[i].op.t in s.status
    ensures var op := OpAfter(s, i, a);
            op.WakeLoad? || op.WakeCas? ==> op.t in s.status
  {
  }

  lemma KeepsReady(s: State, i: Tid, a: Action)
    requires s.ready.Valid() && Enabled(s, i, a)
    ensures Apply(s, i, a).ready.Valid()
  {
    if a.PushReady? {
      s.ready.EnqueueKeeps(s.threads[i].op.t);
    } else if a.DequeueReady? {
      if s.ready.queue != [] { s.ready.DequeueKeeps(); }
    } else {
      ReadyUntouched(s, i, a);
    }
  }

  lemma ReadyUntouched(s: State, i: Tid, a: Action)
    requires Enabled(s, i, a) && !a.PushReady? && !a.DequeueReady?
    ensures Effect(s, i, a).ready == s.ready
  {
  }

  lemma KeepsPlace(s: State, i: Tid, a: Action, t: TaskId)
    requires Ownership(s) && Enabled(s, i, a)
    ensures HasPlace(Apply(s, i, a), t)
  {
    if SubjectOf(s, i, a) == Task(t) {
      SubjectMoves(s, i, a, t);
    } else {
      assert HasPlace(s, t);
      OnlyActorMoves(s, i, a);
      ActorHandling(s, i, a, t);
      ActorCarrying(s, i, a, t);
      SharedUntouched(s, i, a, t);
      StaysPut(s, Apply(s, i, a), i, t);
    }
  }

  lemma KeepsOwnership(s: State, i: Tid, a: Action)
    requires Ownership(s) && Enabled(s, i, a)
    ensures Ownership(Apply(s, i, a))
  {
    var s' := Apply(s, i, a);
    assert WellPlaced(s.threads[i]);
    KeepsReady(s, i, a);
    OnlyActorMoves(s, i, a);
    ActorPlaced(s, i, a);
    TasksStayKnown(s, i, a);
    WakeTargetKnown(s, i, a);
    PlacedFrame(s, s', i);
    forall t: TaskId ensures HasPlace(s', t) { KeepsPlace(s, i, a, t); }
  }

  lemma InitOwnership(s: State)
    requires Init(s)
    ensures Ownership(s)
  {
    forall t: TaskId ensures HasPlace(s, t) { assert TaskAt(s, t, Nowhere); }
  }
}
