/** What holds in every run of the scheduler, for any number of threads and tasks. */
module SchedulerTheorems {
  import opened Shared
  import opened Scheduler
  import opened SchedulerOwnership
  import opened SchedulerDriver
  import opened SchedulerCount

  ghost predicate Inv(s: State) {
    Ownership(s) && Driver(s) && CountAgrees(s)
  }

  lemma KeepsInv(s: State, i: Tid, a: Action)
    requires Inv(s) && Enabled(s, i, a)
    ensures Inv(Apply(s, i, a))
  {
    KeepsOwnership(s, i, a);
    KeepsDriver(s, i, a);
    KeepsCount(s, i, a);
  }

  lemma {:induction false} PathInv(states: seq<State>, steps: seq<Step>, k: nat)
    requires IsPath(states, steps) && Inv(states[0]) && k < |states|
    ensures Inv(states[k])
  {
    if k > 0 {
      PathInv(states, steps, k - 1);
      assert Enabled(states[k - 1], steps[k - 1].tid, steps[k - 1].action);
      KeepsInv(states[k - 1], steps[k - 1].tid, steps[k - 1].action);
    }
  }

  lemma RunInv(states: seq<State>, steps: seq<Step>, k: nat)
    requires IsRun(states, steps) && k < |states|
    ensures Inv(states[k])
  {
    InitOwnership(states[0]);
    InitDriver(states[0]);
    InitCount(states[0]);
    PathInv(states, steps, k);
  }

  // ---- Scheduling tokens ----

  /** Every place where a scheduling token of `t` lies. */
  ghost function Tokens(s: State, t: TaskId): set<Place> {
    (if t in s.ready.queue then {InQueue} else {})
    + (set i: Tid | i < |s.threads| && Carries(s.threads[i].op, t) :: AtOp(i))
    + (set i: Tid | i < |s.threads| && (s.threads[i].pc == Lookup(t) || s.threads[i].pc == CasRun(t)) :: AtPc(i))
  }

  lemma PlaceGivesTokens(s: State, t: TaskId, p: Place)
    requires TaskAt(s, t, p)
    ensures Tokens(s, t) == if t in s.status && s.status[t].Scheduled? then {p} else {}
  {
  }

  /** A task has one scheduling token while it is SCHEDULED and none otherwise. */
  lemma TokenConservation(states: seq<State>, steps: seq<Step>, k: nat, t: TaskId)
    requires IsRun(states, steps) && k < |states|
    ensures var s := states[k];
            |Tokens(s, t)| == if t in s.status && s.status[t].Scheduled? then 1 else 0
  {
    RunInv(states, steps, k);
    assert HasPlace(states[k], t);
    var p :| TaskAt(states[k], t, p);
    PlaceGivesTokens(states[k], t, p);
  }

  /**
   The checks on the way never fail: the deduplicating set never rejects, the map lookup
   never misses, the CAS to RUNNING always succeeds, the failed CAS back to IDLE and the
   blind store after it only ever meet NOTIFIED, and the decrement never wraps.
   */
  lemma ChecksNeverFail(states: seq<State>, steps: seq<Step>, k: nat)
    requires IsRun(states, steps) && k < |steps|
    ensures var s, th := states[k], states[k].threads[steps[k].tid];
            match steps[k].action
            case PushReady => th.op.t !in s.ready.pending
            case LookupTask => th.pc.t in s.tasks
            case CasRunning => s.status[th.pc.t].Scheduled?
            case CasBackToIdle => s.status[th.pc.t].Running? || s.status[th.pc.t].Notified?
            case StoreScheduled => s.status[th.pc.t].Notified?
            case Uncount => s.active >= 1
            case _ => true
  {
    RunInv(states, steps, k);
    var s, i, a := states[k], steps[k].tid, steps[k].action;
    assert Enabled(s, i, a);
    var th := s.threads[i];
    if a.PushReady? {
      assert HasPlace(s, th.op.t);
      var p :| TaskAt(s, th.op.t, p);
      assert Carries(th.op, th.op.t) && p == AtOp(i);
    } else if a.Uncount? {
      UncountNeverUnderflows(s, i);
    } else if a.LookupTask? || a.CasRunning? || a.CasBackToIdle? || a.StoreScheduled? {
      assert HasPlace(s, th.pc.t);
      var p :| TaskAt(s, th.pc.t, p);
      assert Handles(th.pc, th.pc.t) && p == AtPc(i);
    }
  }

  // ---- Exclusive access to futures ----

  /** At most one thread is inside a future, and never in one that has finished. */
  lemma ExclusivePolling(states: seq<State>, steps: seq<Step>, k: nat, t: TaskId, i: Tid, j: Tid)
    requires IsRun(states, steps) && k < |states| && i < |states[k].threads| && j < |states[k].threads|
    requires states[k].threads[i].pc == Polling(t)
    ensures states[k].threads[j].pc == Polling(t) ==> i == j
    ensures t !in states[k].done && t in states[k].tasks
    ensures IsRunning(states[k], t)
  {
    RunInv(states, steps, k);
    var s := states[k];
    assert HasPlace(s, t);
    var p :| TaskAt(s, t, p);
    assert Handles(s.threads[i].pc, t) && p == AtPc(i);
    assert s.threads[j].pc == Polling(t) ==> Handles(s.threads[j].pc, t);
  }

  lemma {:induction false} DoneGrows(states: seq<State>, steps: seq<Step>, k: nat, m: nat)
    requires IsPath(states, steps) && k <= m < |states|
    ensures states[k].done <= states[m].done
  {
    if k < m { DoneGrows(states, steps, k, m - 1); }
  }

  /** Once a future has returned Ready or panicked its task is never queued, carried or polled again. */
  lemma FinishedStaysFinished(states: seq<State>, steps: seq<Step>, k: nat, m: nat, t: TaskId, i: Tid)
    requires IsRun(states, steps) && k <= m < |states| && t in states[k].done && i < |states[m].threads|
    ensures t in states[m].done && t !in states[m].ready.queue
    ensures !Carries(states[m].threads[i].op, t)
    ensures Handles(states[m].threads[i].pc, t) ==> states[m].threads[i].pc == Remove(t)
  {
    DoneGrows(states, steps, k, m);
    RunInv(states, steps, m);
    var s := states[m];
    assert HasPlace(s, t);
    var p :| TaskAt(s, t, p);
    assert Handles(s.threads[i].pc, t) ==> p == AtPc(i);
  }

  // ---- No lost wake ----

  predicate WakePending(s: State, t: TaskId) {
    t in s.status && (s.status[t].Scheduled? || s.status[t].Notified?)
  }

  /** The step at which a call to `wake` on `t` takes effect. */
  predicate WakeTakesEffect(s: State, step: Step, t: TaskId)
    requires Enabled(s, step.tid, step.action)
  {
    var op := s.threads[step.tid].op;
    match step.action
    case LoadStatus => op.t == t && WakePending(s, t)
    case CasStatus(spurious) => op.t == t && !spurious && s.status[t] == op.seen
    case _ => false
  }

  predicate PollBegins(s: State, step: Step, t: TaskId)
    requires Enabled(s, step.tid, step.action)
  {
    step.action.CasRunning? && s.threads[step.tid].pc.t == t && s.status[t].Scheduled?
  }

  lemma WakeLeavesPending(s: State, step: Step, t: TaskId)
    requires Placed(s) && Enabled(s, step.tid, step.action) && WakeTakesEffect(s, step, t)
    ensures WakePending(Apply(s, step.tid, step.action), t)
  {
    assert WellPlaced(s.threads[step.tid]);
  }

  lemma PendingPersists(s: State, step: Step, t: TaskId)
    requires Enabled(s, step.tid, step.action) && WakePending(s, t)
    ensures WakePending(Apply(s, step.tid, step.action), t) || PollBegins(s, step, t)
  {
    if SubjectOf(s, step.tid, step.action) != Task(t) {
      SharedUntouched(s, step.tid, step.action, t);
    }
  }

  lemma OnlyPollClearsWake(s: State, i: Tid, a: Action, t: TaskId)
    requires Enabled(s, i, a) && WakePending(s, t) && (a.CasRunning? ==> s.threads[i].pc.t != t)
    ensures WakePending(Apply(s, i, a), t)
  {
    PendingPersists(s, Step(i, a), t);
  }

  /** The call under way will wake `w`. */
  predicate Wakes(op: Op, w: TaskId) {
    (op.WakeLoad? || op.WakeCas?) && op.t == w
  }

  /** A wake under way stays under way until it has taken effect. */
  lemma WakeGoesOn(s: State, i: Tid, a: Action, w: TaskId)
    requires Placed(s) && Enabled(s, i, a) && Wakes(s.threads[i].op, w)
    ensures Wakes(OpAfter(s, i, a), w) || WakePending(Effect(s, i, a), w)
  {
    assert WellPlaced(s.threads[i]);
  }

  lemma PendingOneStep(states: seq<State>, steps: seq<Step>, l: nat, t: TaskId)
    requires IsRun(states, steps) && l < |steps|
    ensures Enabled(states[l], steps[l].tid, steps[l].action)
    ensures WakeTakesEffect(states[l], steps[l], t) ==> WakePending(states[l + 1], t)
    ensures WakePending(states[l], t) ==> WakePending(states[l + 1], t) || PollBegins(states[l], steps[l], t)
  {
    RunInv(states, steps, l);
    if WakeTakesEffect(states[l], steps[l], t) { WakeLeavesPending(states[l], steps[l], t); }
    if WakePending(states[l], t) { PendingPersists(states[l], steps[l], t); }
  }

  ghost predicate PollBeginsAt(states: seq<State>, steps: seq<Step>, l: nat, t: TaskId) {
    && l < |steps| && l < |states| && Enabled(states[l], steps[l].tid, steps[l].action)
    && PollBegins(states[l], steps[l], t)
  }

  ghost predicate WakeTakesEffectAt(states: seq<State>, steps: seq<Step>, l: nat, t: TaskId) {
    && l < |steps| && l < |states| && Enabled(states[l], steps[l].tid, steps[l].action)
    && WakeTakesEffect(states[l], steps[l], t)
  }

  /** What step `l` leaves of a pending wake. */
  ghost predicate WakeGoesOnAt(states: seq<State>, steps: seq<Step>, l: nat, t: TaskId) {
    && l + 1 < |states|
    && (WakePending(states[l], t) ==> WakePending(states[l + 1], t) || PollBeginsAt(states, steps, l, t))
  }

  lemma {:induction false} PendingAlong(states: seq<State>, steps: seq<Step>, k: nat, m: nat, t: TaskId)
    requires k < m < |states| && WakePending(states[k + 1], t)
    requires forall l :: k < l < m ==> WakeGoesOnAt(states, steps, l, t)
    ensures WakePending(states[m], t) || exists l :: k < l < m && PollBeginsAt(states, steps, l, t)
  {
    if m > k + 1 {
      PendingAlong(states, steps, k, m - 1, t);
      assert WakeGoesOnAt(states, steps, m - 1, t);
    }
  }

  /**
   A wake that took effect at step `k` is not forgotten: at every later point the task is
   still SCHEDULED or NOTIFIED, or a poll of it has begun since.
   */
  lemma NoLostWake(states: seq<State>, steps: seq<Step>, k: nat, m: nat, t: TaskId)
    requires IsRun(states, steps) && k < m < |states| && WakeTakesEffectAt(states, steps, k, t)
    ensures WakePending(states[m], t) || exists l :: k < l < m && PollBeginsAt(states, steps, l, t)
  {
    PendingOneStep(states, steps, k, t);
    forall l | k < l < m ensures WakeGoesOnAt(states, steps, l, t) { PendingOneStep(states, steps, l, t); }
    PendingAlong(states, steps, k, m, t);
  }

  /** A pending wake of an unfinished task has somebody who will act on it. */
  lemma PendingWakeHasCarrier(states: seq<State>, steps: seq<Step>, k: nat, t: TaskId)
    requires IsRun(states, steps) && k < |states| && WakePending(states[k], t) && t !in states[k].done
    ensures var s := states[k];
            || t in s.ready.queue
            || (exists i :: 0 <= i < |s.threads| && Carries(s.threads[i].op, t))
            || (exists i :: 0 <= i < |s.threads| && Handles(s.threads[i].pc, t))
  {
    RunInv(states, steps, k);
    var s := states[k];
    assert HasPlace(s, t);
    var p :| TaskAt(s, t, p);
    if p.AtOp? {
      assert Carries(s.threads[p.tid].op, t);
    } else if p.AtPc? {
      assert Handles(s.threads[p.tid].pc, t);
    }
  }

  // ---- The driver and the sleepers ----

  /** From the re-check until epoll_wait returns, a queued task means a poke has come or is coming. */
  lemma DriverNeverMissesEnqueue(states: seq<State>, steps: seq<Step>, k: nat, i: Tid)
    requires IsRun(states, steps) && k < |states| && i < |states[k].threads|
    requires Committed(states[k].threads[i].pc) && states[k].ready.queue != []
    ensures states[k].eventfd > 0 || PokeComing(states[k])
  {
    RunInv(states, steps, k);
  }

  /** The token has one holder, who is awake; before shutdown some worker always is. */
  lemma NeverAllParked(states: seq<State>, steps: seq<Step>, k: nat)
    requires IsRun(states, steps) && k < |states|
    ensures var s := states[k];
            && (s.token ==> exists i :: 0 <= i < |s.threads| && Drives(s.threads[i].pc) && Awake(s.threads[i].pc))
            && (!s.token ==> forall i :: 0 <= i < |s.threads| ==> !Drives(s.threads[i].pc))
            && (forall i, j ::
                  0 <= i < j < |s.threads| && Drives(s.threads[i].pc) ==> !Drives(s.threads[j].pc))
            && (!s.shutdown ==> SomeoneAwake(s))
  {
    RunInv(states, steps, k);
    var s := states[k];
    var p :| DriverIs(s, p);
    if s.token { assert Drives(s.threads[p.tid].pc); }
  }

  lemma {:induction false} RolesAreFixed(states: seq<State>, steps: seq<Step>, k: nat, i: Tid)
    requires IsPath(states, steps) && k < |states| && i < |states[0].threads|
    ensures |states[k].threads| == |states[0].threads|
    ensures IsWorker(states[k].threads[i].pc) == IsWorker(states[0].threads[i].pc)
  {
    if k > 0 {
      RolesAreFixed(states, steps, k - 1, i);
      OnlyActorMoves(states[k - 1], steps[k - 1].tid, steps[k - 1].action);
      assert i != steps[k - 1].tid ==> Undisturbed(states[k - 1].threads[i], states[k].threads[i]);
    }
  }

  /** A pool of one worker never parks. */
  lemma SingleWorkerNeverParks(states: seq<State>, steps: seq<Step>, k: nat, w: Tid)
    requires IsRun(states, steps) && k < |states| && w < |states[0].threads|
    requires forall i :: 0 <= i < |states[0].threads| && i != w ==> !IsWorker(states[0].threads[i].pc)
    requires !states[k].shutdown
    ensures w < |states[k].threads| && Awake(states[k].threads[w].pc)
  {
    NeverAllParked(states, steps, k);
    var i :| 0 <= i < |states[k].threads| && Awake(states[k].threads[i].pc);
    RolesAreFixed(states, steps, k, w);
    RolesAreFixed(states, steps, k, i);
  }

  /** `active_count` is the size of the task map, less the spawns and plus the removals under way. */
  lemma LiveCount(states: seq<State>, steps: seq<Step>, k: nat)
    requires IsRun(states, steps) && k < |states|
    ensures var s := states[k];
            s.active == |s.tasks| - |Uncounted(s)| + |Overcounted(s)| && s.active >= 0
  {
    RunInv(states, steps, k);
    SpawnersInMap(states[k]);
  }
}
