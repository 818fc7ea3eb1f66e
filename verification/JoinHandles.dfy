/**
 Join handles of the multi-threaded runtime, on top of the scheduler: the slot shared by a
 task and its handle, the wrapper that fills it, and the handle's poll.
 Every step is a scheduler step, a slot lock section, or both.
 */
module JoinHandles {
  import opened Options
  import opened Shared
  import opened Scheduler
  import opened SchedulerOwnership
  import opened SchedulerTheorems

  type Value = int

  /** TaskState: the result and the waker of the handle's last pending poll. */
  datatype Slot = Slot(result: Option<Value>, waker: Option<TaskId>)

  datatype JoinState = JoinState(
    sched: State,
    slots: map<TaskId, Slot>,          // tasks spawned with a handle
    finishing: map<Tid, TaskId>,       // workers inside the wrapper's lock section
    output: map<TaskId, Value>,        // what a future returned
    delivered: map<TaskId, seq<Value>>,// what polls of the handle returned
    awaiting: map<TaskId, TaskId>      // handle -> task whose poll of it was the last one and
                                       // returned Pending, until a poll answers the completion's wake
  )

  datatype JoinAction =
    | Sched(a: Action)
    | SpawnWithHandle(t: TaskId)
    | PollHandle(h: TaskId)
    | Complete(v: Value)
    | Return

  ghost predicate JoinInit(j: JoinState) {
    && Init(j.sched) && j.slots == map[] && j.finishing == map[] && j.output == map[]
    && j.delivered == map[] && j.awaiting == map[]
  }

  /** The thread runs a future and is between calls. */
  predicate InFuture(j: JoinState, i: Tid) {
    && i < |j.sched.threads| && j.sched.threads[i].pc.Polling? && j.sched.threads[i].op.NoOp?
    && i !in j.finishing
  }

  predicate SlotFree(j: JoinState, h: TaskId) {
    forall i :: i in j.finishing ==> j.finishing[i] != h
  }

  ghost predicate JoinEnabled(j: JoinState, i: Tid, a: JoinAction) {
    match a
    case Sched(sa) =>
      // inside the wrapper's lock section only the wake under way goes on
      Enabled(j.sched, i, sa) && (i in j.finishing ==> !j.sched.threads[i].op.NoOp?)
    case SpawnWithHandle(t) => Enabled(j.sched, i, BeginSpawn(t)) && i !in j.finishing
    case PollHandle(h) =>
      InFuture(j, i) && h in j.slots && SlotFree(j, h) && h in j.delivered
    case Complete(_) =>
      && InFuture(j, i) && j.sched.threads[i].pc.t in j.slots && SlotFree(j, j.sched.threads[i].pc.t)
      && (var w := j.slots[j.sched.threads[i].pc.t].waker;
          w.Some? ==> Enabled(j.sched, i, BeginWake(w.value)))
    case Return => i in j.finishing && Enabled(j.sched, i, PollDone)
  }

  /** The completing worker of `h` is in the middle of waking `w`. */
  ghost predicate WakeUnderWay(j: JoinState, h: TaskId, w: TaskId) {
    exists i :: i in j.finishing && j.finishing[i] == h && i < |j.sched.threads| && Wakes(j.sched.threads[i].op, w)
  }

  /** A poll of `t` begins: it answers the wakes of completed tasks, but not those still to come. */
  ghost function Answered(j: JoinState, t: TaskId): map<TaskId, TaskId> {
    Forget(j.awaiting, t, set h | h in j.output && !WakeUnderWay(j, h, t))
  }

  ghost function JoinApply(j: JoinState, i: Tid, a: JoinAction): JoinState
    requires JoinEnabled(j, i, a)
  {
    match a
    case Sched(sa) =>
      j.(sched := Apply(j.sched, i, sa),
         awaiting := if sa.CasRunning? then Answered(j, j.sched.threads[i].pc.t) else j.awaiting)
    case SpawnWithHandle(t) =>
      j.(sched := Apply(j.sched, i, BeginSpawn(t)),
         slots := j.slots[t := Slot(None, None)],
         delivered := j.delivered[t := []])
    case PollHandle(h) =>
      var w, slot := j.sched.threads[i].pc.t, j.slots[h];
      if slot.result.Some? then
        j.(slots := j.slots[h := slot.(result := None)],
           delivered := j.delivered[h := j.delivered[h] + [slot.result.value]],
           awaiting := j.awaiting - {h})
      else
        // a poll after the value was taken stays pending for good
        j.(slots := j.slots[h := slot.(waker := Some(w))],
           awaiting := if j.delivered[h] == [] then j.awaiting[h := w] else j.awaiting)
    case Complete(v) =>
      var t := j.sched.threads[i].pc.t;
      var w := j.slots[t].waker;
      j.(slots := j.slots[t := Slot(Some(v), None)],
         output := j.output[t := v],
         finishing := j.finishing[i := t],
         sched := if w.Some? then Apply(j.sched, i, BeginWake(w.value)) else j.sched)
    case Return =>
      j.(finishing := j.finishing - {i}, sched := Apply(j.sched, i, PollDone))
  }

  ghost predicate IsJoinRun(states: seq<JoinState>, steps: seq<(Tid, JoinAction)>) {
    && |states| == |steps| + 1
    && JoinInit(states[0])
    && forall k :: 0 <= k < |steps| ==>
         && JoinEnabled(states[k], steps[k].0, steps[k].1)
         && states[k + 1] == JoinApply(states[k], steps[k].0, steps[k].1)
  }

  // ---- Invariants ----

  /** Workers inside the lock section are still inside that task's future. */
  ghost predicate FinishingOk(j: JoinState) {
    forall i :: i in j.finishing ==>
      && i < |j.sched.threads| && j.sched.threads[i].pc == Polling(j.finishing[i])
      && j.finishing[i] in j.output
  }

  /** One value per task: not produced, in the slot, or handed out once. */
  predicate SlotOk(j: JoinState, t: TaskId) {
    && (t in j.slots <==> t in j.delivered) && (t in j.output ==> t in j.slots)
    && (t in j.slots ==>
          && t in j.sched.status
          && (if t !in j.output then j.slots[t].result.None? && j.delivered[t] == []
              else
                || (j.slots[t] == Slot(Some(j.output[t]), None) && j.delivered[t] == [])
                || (j.slots[t].result.None? && j.delivered[t] == [j.output[t]]))
          && (j.slots[t].waker.Some? ==> j.slots[t].waker.value in j.sched.status))
  }

  ghost predicate BeingFinished(j: JoinState, t: TaskId) {
    exists i :: i in j.finishing && j.finishing[i] == t
  }

  ghost predicate SlotsOk(j: JoinState) {
    && (forall t :: SlotOk(j, t))
    && (forall t :: t in j.output ==> t in j.sched.done || BeingFinished(j, t))
  }

  /** Before completion the awaiter's waker is in the slot; after it, it is being woken or has been. */
  ghost predicate AwaitOk(j: JoinState, h: TaskId, w: TaskId) {
    && h in j.slots && w in j.sched.status
    && if h !in j.output then j.slots[h].waker == Some(w)
       else WakeUnderWay(j, h, w) || WakePending(j.sched, w) || w in j.sched.done
  }

  ghost predicate AwaitsOk(j: JoinState) {
    forall h :: h in j.awaiting ==> AwaitOk(j, h, j.awaiting[h])
  }

  ghost predicate JoinInv(j: JoinState) {
    Inv(j.sched) && FinishingOk(j) && SlotsOk(j) && AwaitsOk(j)
  }

  // ---- Scheduler steps ----

  /** A thread inside a future stays there while others act, and while it makes a call. */
  lemma PollingStays(s: State, i: Tid, sa: Action, k: Tid)
    requires Enabled(s, i, sa) && k < |s.threads| && s.threads[k].pc.Polling? && (k == i ==> !s.threads[i].op.NoOp?)
    ensures Apply(s, i, sa).threads[k].pc == s.threads[k].pc
  {
    OnlyActorMoves(s, i, sa);
    if k != i { assert Undisturbed(s.threads[k], Apply(s, i, sa).threads[k]); } else { OpKeepsPc(s, i, sa); }
  }

  lemma SchedKeepsFinishing(j: JoinState, i: Tid, sa: Action)
    requires FinishingOk(j) && JoinEnabled(j, i, Sched(sa))
    ensures FinishingOk(JoinApply(j, i, Sched(sa)))
  {
    forall k | k in j.finishing ensures Apply(j.sched, i, sa).threads[k].pc == j.sched.threads[k].pc {
      PollingStays(j.sched, i, sa, k);
    }
  }

  lemma SlotFrame(j: JoinState, j': JoinState, t: TaskId)
    requires SlotOk(j, t) && j'.slots == j.slots && j'.output == j.output && j'.delivered == j.delivered
    requires j.sched.status.Keys <= j'.sched.status.Keys
    ensures SlotOk(j', t)
  {
  }

  lemma SchedKeepsSlots(j: JoinState, i: Tid, sa: Action)
    requires JoinInv(j) && JoinEnabled(j, i, Sched(sa))
    ensures SlotsOk(JoinApply(j, i, Sched(sa)))
  {
    var j' := JoinApply(j, i, Sched(sa));
    TasksStayKnown(j.sched, i, sa);
    FinishedStay(j.sched, i, sa);
    forall t ensures SlotOk(j', t) { SlotFrame(j, j', t); }
    forall t | t in j'.output ensures t in j'.sched.done || BeingFinished(j', t) {
      if t !in j.sched.done {
        var k :| k in j.finishing && j.finishing[k] == t;
        assert k in j'.finishing;
      }
    }
  }

  lemma SchedKeepsWake(j: JoinState, i: Tid, sa: Action, h: TaskId, w: TaskId)
    requires Placed(j.sched) && JoinEnabled(j, i, Sched(sa)) && WakeUnderWay(j, h, w)
    ensures var j' := JoinApply(j, i, Sched(sa)); WakeUnderWay(j', h, w) || WakePending(j'.sched, w)
  {
    var s, j' := j.sched, JoinApply(j, i, Sched(sa));
    var k :| k in j.finishing && j.finishing[k] == h && k < |s.threads| && Wakes(s.threads[k].op, w);
    assert k in j'.finishing;
    OnlyActorMoves(s, i, sa);
    if k == i { WakeGoesOn(s, i, sa, w); } else { assert Undisturbed(s.threads[k], j'.sched.threads[k]); }
  }

  lemma AwaitFrame(j: JoinState, j': JoinState, h: TaskId, w: TaskId)
    requires AwaitOk(j, h, w) && j'.slots == j.slots && j'.output == j.output
    requires j.sched.status.Keys <= j'.sched.status.Keys && j.sched.done <= j'.sched.done
    requires h in j.output && (WakePending(j.sched, w) || WakeUnderWay(j, h, w)) ==>
               WakePending(j'.sched, w) || WakeUnderWay(j', h, w)
    ensures AwaitOk(j', h, w)
  {
  }

  lemma SchedKeepsAwait(j: JoinState, i: Tid, sa: Action, h: TaskId, w: TaskId)
    requires Placed(j.sched) && JoinEnabled(j, i, Sched(sa)) && AwaitOk(j, h, w)
    requires sa.CasRunning? && j.sched.threads[i].pc.t == w && h in j.output ==> WakeUnderWay(j, h, w)
    ensures AwaitOk(JoinApply(j, i, Sched(sa)), h, w)
  {
    TasksStayKnown(j.sched, i, sa);
    FinishedStay(j.sched, i, sa);
    if h in j.output {
      if WakeUnderWay(j, h, w) { SchedKeepsWake(j, i, sa, h, w); }
      else if WakePending(j.sched, w) { OnlyPollClearsWake(j.sched, i, sa, w); }
    }
    AwaitFrame(j, JoinApply(j, i, Sched(sa)), h, w);
  }

  lemma SchedKeeps(j: JoinState, i: Tid, sa: Action)
    requires JoinInv(j) && JoinEnabled(j, i, Sched(sa))
    ensures JoinInv(JoinApply(j, i, Sched(sa)))
  {
    var j' := JoinApply(j, i, Sched(sa));
    KeepsInv(j.sched, i, sa);
    SchedKeepsFinishing(j, i, sa);
    SchedKeepsSlots(j, i, sa);
    forall h | h in j'.awaiting ensures AwaitOk(j', h, j'.awaiting[h]) {
      SchedKeepsAwait(j, i, sa, h, j.awaiting[h]);
    }
  }

  // ---- Spawning ----

  lemma SpawnKeeps(j: JoinState, i: Tid, t: TaskId)
    requires JoinInv(j) && JoinEnabled(j, i, SpawnWithHandle(t))
    ensures JoinInv(JoinApply(j, i, SpawnWithHandle(t)))
  {
    SchedKeeps(j, i, BeginSpawn(t));
    assert SlotOk(j, t);
    var j1, j' := JoinApply(j, i, Sched(BeginSpawn(t))), JoinApply(j, i, SpawnWithHandle(t));
    forall u ensures SlotOk(j', u) { assert SlotOk(j1, u); }
    forall u | u in j'.output ensures u in j'.sched.done || BeingFinished(j', u) {
      if u !in j1.sched.done {
        var k :| k in j1.finishing && j1.finishing[k] == u;
        assert k in j'.finishing;
      }
    }
    forall h | h in j'.awaiting ensures AwaitOk(j', h, j'.awaiting[h]) {
      SameAwait(j1, j', h, j'.awaiting[h]);
    }
  }

  /** What a handle waits for depends only on its own slot. */
  lemma SameAwait(j: JoinState, j': JoinState, h: TaskId, w: TaskId)
    requires AwaitOk(j, h, w) && j'.sched == j.sched
    requires h in j'.slots && j'.slots[h] == j.slots[h] && (h in j'.output <==> h in j.output)
    requires forall k :: k in j.finishing ==> k in j'.finishing && j'.finishing[k] == j.finishing[k]
    ensures AwaitOk(j', h, w)
  {
  }

  // ---- The handle's poll ----

  lemma PollHandleKeepsSlots(j: JoinState, i: Tid, h: TaskId)
    requires SlotsOk(j) && JoinEnabled(j, i, PollHandle(h)) && j.sched.threads[i].pc.t in j.sched.status
    ensures SlotsOk(JoinApply(j, i, PollHandle(h)))
  {
    var j' := JoinApply(j, i, PollHandle(h));
    assert SlotOk(j, h);
    forall u ensures SlotOk(j', u) { assert SlotOk(j, u); }
    forall u | u in j'.output ensures u in j'.sched.done || BeingFinished(j', u) {
      if u !in j.sched.done {
        var k :| k in j.finishing && j.finishing[k] == u;
        assert k in j'.finishing;
      }
    }
  }

  lemma PollHandleKeepsAwait(j: JoinState, i: Tid, h: TaskId, g: TaskId)
    requires SlotsOk(j) && AwaitsOk(j) && JoinEnabled(j, i, PollHandle(h)) && j.sched.threads[i].pc.t in j.sched.status
    requires g in JoinApply(j, i, PollHandle(h)).awaiting
    ensures AwaitOk(JoinApply(j, i, PollHandle(h)), g, JoinApply(j, i, PollHandle(h)).awaiting[g])
  {
    var j' := JoinApply(j, i, PollHandle(h));
    assert SlotOk(j, h);
    if g != h { SameAwait(j, j', g, j'.awaiting[g]); } else if j.delivered[h] != [] { assert AwaitOk(j, h, j.awaiting[h]); }
  }

  lemma PollHandleKeeps(j: JoinState, i: Tid, h: TaskId)
    requires JoinInv(j) && JoinEnabled(j, i, PollHandle(h))
    ensures JoinInv(JoinApply(j, i, PollHandle(h)))
  {
    var j' := JoinApply(j, i, PollHandle(h));
    var w := j.sched.threads[i].pc.t;
    assert HasPlace(j.sched, w) && Handles(j.sched.threads[i].pc, w);
    PollHandleKeepsSlots(j, i, h);
    forall g | g in j'.awaiting ensures AwaitOk(j', g, j'.awaiting[g]) { PollHandleKeepsAwait(j, i, h, g); }
  }

  // ---- Completion ----

  /** The completing worker is the only one in its future, so it completes it once. */
  lemma CompletesOnce(j: JoinState, i: Tid, v: Value)
    requires JoinInv(j) && JoinEnabled(j, i, Complete(v))
    ensures j.sched.threads[i].pc.t !in j.output
  {
    var t := j.sched.threads[i].pc.t;
    assert HasPlace(j.sched, t);
    var p :| TaskAt(j.sched, t, p);
    assert Handles(j.sched.threads[i].pc, t) && p == AtPc(i);
    assert t !in j.sched.done && !BeingFinished(j, t);
  }

  lemma CompleteKeepsSlots(j: JoinState, j1: JoinState, i: Tid, v: Value)
    requires JoinEnabled(j, i, Complete(v)) && j1 == j.(sched := JoinApply(j, i, Complete(v)).sched)
    requires SlotsOk(j1) && j.sched.threads[i].pc.t !in j.output
    ensures SlotsOk(JoinApply(j, i, Complete(v)))
  {
    var j' := JoinApply(j, i, Complete(v));
    forall u ensures SlotOk(j', u) { assert SlotOk(j1, u); }
    forall u | u in j'.output ensures u in j'.sched.done || BeingFinished(j', u) {
      if u !in j1.sched.done {
        var k :| (k == i && u == j.sched.threads[i].pc.t) || (k in j1.finishing && j1.finishing[k] == u);
        assert k in j'.finishing && j'.finishing[k] == u;
      }
    }
  }

  lemma CompleteKeepsFinishing(j: JoinState, j1: JoinState, i: Tid, v: Value)
    requires JoinEnabled(j, i, Complete(v)) && j1 == j.(sched := JoinApply(j, i, Complete(v)).sched)
    requires FinishingOk(j1)
    ensures FinishingOk(JoinApply(j, i, Complete(v)))
  {
  }

  lemma CompleteKeeps(j: JoinState, i: Tid, v: Value)
    requires JoinInv(j) && JoinEnabled(j, i, Complete(v))
    ensures JoinInv(JoinApply(j, i, Complete(v)))
  {
    var j' := JoinApply(j, i, Complete(v));
    var t := j.sched.threads[i].pc.t;
    CompletesOnce(j, i, v);
    if j.slots[t].waker.Some? { SchedKeeps(j, i, BeginWake(j.slots[t].waker.value)); }
    var j1 := j.(sched := j'.sched);
    CompleteKeepsSlots(j, j1, i, v);
    CompleteKeepsFinishing(j, j1, i, v);
    forall g | g in j'.awaiting ensures AwaitOk(j', g, j'.awaiting[g]) {
      if g != t {
        SameAwait(j1, j', g, j'.awaiting[g]);
      } else {
        CompletionWakes(j, j1, i, v, j.awaiting[t]);
      }
    }
  }

  /** The waker of the last pending poll is the one that completion calls. */
  lemma CompletionWakes(j: JoinState, j1: JoinState, i: Tid, v: Value, w: TaskId)
    requires JoinInv(j) && JoinEnabled(j, i, Complete(v)) && j1 == j.(sched := JoinApply(j, i, Complete(v)).sched)
    requires j.sched.threads[i].pc.t !in j.output
    requires AwaitOk(j1, j.sched.threads[i].pc.t, w)
    ensures AwaitOk(JoinApply(j, i, Complete(v)), j.sched.threads[i].pc.t, w)
  {
    var t := j.sched.threads[i].pc.t;
    var j' := JoinApply(j, i, Complete(v));
    assert i in j'.finishing && j'.finishing[i] == t && Wakes(j'.sched.threads[i].op, w);
    assert WakeUnderWay(j', t, w);
  }

  // ---- Leaving the wrapper ----

  lemma ReturnKeepsFinishing(j: JoinState, i: Tid)
    requires FinishingOk(j) && JoinEnabled(j, i, Return)
    ensures FinishingOk(JoinApply(j, i, Return))
  {
    forall k | k in j.finishing && k != i ensures Apply(j.sched, i, PollDone).threads[k].pc == j.sched.threads[k].pc {
      PollingStays(j.sched, i, PollDone, k);
    }
  }

  lemma ReturnKeepsSlots(j: JoinState, i: Tid)
    requires JoinInv(j) && JoinEnabled(j, i, Return)
    ensures SlotsOk(JoinApply(j, i, Return))
  {
    var j' := JoinApply(j, i, Return);
    TasksStayKnown(j.sched, i, PollDone);
    forall u ensures SlotOk(j', u) { SlotFrame(j, j', u); }
    forall u | u in j'.output ensures u in j'.sched.done || BeingFinished(j', u) { ReturnKeepsOutput(j, i, u); }
  }

  /** A worker leaves the slot and marks its task done; the others stay. */
  lemma OneLeaves(j: JoinState, j': JoinState, i: Tid, u: TaskId)
    requires i in j.finishing && j'.finishing == j.finishing - {i} && j'.sched.done == j.sched.done + {j.finishing[i]}
    requires u in j.sched.done || BeingFinished(j, u)
    ensures u in j'.sched.done || BeingFinished(j', u)
  {
    if u !in j'.sched.done {
      var k :| k in j.finishing && j.finishing[k] == u;
      assert k in j'.finishing && j'.finishing[k] == u;
    }
  }

  lemma ReturnKeepsOutput(j: JoinState, i: Tid, u: TaskId)
    requires FinishingOk(j) && JoinEnabled(j, i, Return) && (u in j.sched.done || BeingFinished(j, u))
    ensures u in JoinApply(j, i, Return).sched.done || BeingFinished(JoinApply(j, i, Return), u)
  {
    ReturnMarksDone(j, i);
    OneLeaves(j, JoinApply(j, i, Return), i, u);
  }

  lemma ReturnMarksDone(j: JoinState, i: Tid)
    requires FinishingOk(j) && JoinEnabled(j, i, Return)
    ensures JoinApply(j, i, Return).sched.done == j.sched.done + {j.finishing[i]}
  {
  }

  lemma ReturnKeepsAwait(j: JoinState, i: Tid, h: TaskId, w: TaskId)
    requires JoinEnabled(j, i, Return) && AwaitOk(j, h, w)
    ensures AwaitOk(JoinApply(j, i, Return), h, w)
  {
    var j' := JoinApply(j, i, Return);
    OnlyActorMoves(j.sched, i, PollDone);
    if WakeUnderWay(j, h, w) {
      var k :| k in j.finishing && j.finishing[k] == h && k < |j.sched.threads| && Wakes(j.sched.threads[k].op, w);
      assert k != i && Undisturbed(j.sched.threads[k], j'.sched.threads[k]);
      assert k in j'.finishing;
    }
  }

  lemma ReturnKeeps(j: JoinState, i: Tid)
    requires JoinInv(j) && JoinEnabled(j, i, Return)
    ensures JoinInv(JoinApply(j, i, Return))
  {
    var j' := JoinApply(j, i, Return);
    KeepsInv(j.sched, i, PollDone);
    ReturnKeepsFinishing(j, i);
    ReturnKeepsSlots(j, i);
    forall h | h in j'.awaiting ensures AwaitOk(j', h, j'.awaiting[h]) {
      ReturnKeepsAwait(j, i, h, j.awaiting[h]);
    }
  }

  lemma {:induction false} JoinRunInv(states: seq<JoinState>, steps: seq<(Tid, JoinAction)>, k: nat)
    requires IsJoinRun(states, steps) && k < |states|
    ensures JoinInv(states[k])
  {
    if k == 0 {
      RunInv([states[0].sched], [], 0);
      forall t ensures SlotOk(states[0], t) {}
    } else {
      JoinRunInv(states, steps, k - 1);
      var j, i, a := states[k - 1], steps[k - 1].0, steps[k - 1].1;
      assert JoinEnabled(j, i, a);
      match a {
        case Sched(sa) => SchedKeeps(j, i, sa);
        case SpawnWithHandle(t) => SpawnKeeps(j, i, t);
        case PollHandle(h) => PollHandleKeeps(j, i, h);
        case Complete(v) => CompleteKeeps(j, i, v);
        case Return => ReturnKeeps(j, i);
      }
    }
  }

  // ---- Main results ----

  /** A handle returns at most one value, and it is what the task's future returned. */
  lemma DeliveredAtMostOnce(states: seq<JoinState>, steps: seq<(Tid, JoinAction)>, k: nat, t: TaskId)
    requires IsJoinRun(states, steps) && k < |states| && t in states[k].slots
    ensures var j := states[k];
            && t in j.delivered
            && (j.delivered[t] == [] || (t in j.output && j.delivered[t] == [j.output[t]]))
            && (t in j.output && j.delivered[t] == [] ==> j.slots[t].result == Some(j.output[t]))
  {
    JoinRunInv(states, steps, k);
    assert SlotOk(states[k], t);
  }

  /**
   If the last poll of a handle was pending then, until a poll answers the completion's wake:
   before completion the polling task's waker is in the slot; after it, the task is being woken,
   or SCHEDULED, NOTIFIED or finished, and no longer just being woken once the worker is out.
   */
  lemma CompletionReachesAwaiter(states: seq<JoinState>, steps: seq<(Tid, JoinAction)>, k: nat, h: TaskId)
    requires IsJoinRun(states, steps) && k < |states| && h in states[k].awaiting
    ensures var j, w := states[k], states[k].awaiting[h];
            && h in j.slots
            && (h !in j.output ==> j.slots[h].waker == Some(w))
            && (h in j.output ==> WakeUnderWay(j, h, w) || WakePending(j.sched, w) || w in j.sched.done)
            && (h in j.output && !BeingFinished(j, h) ==> WakePending(j.sched, w) || w in j.sched.done)
  {
    JoinRunInv(states, steps, k);
    assert AwaitOk(states[k], h, states[k].awaiting[h]);
  }

  /** A poll of the handle of a completed task gives the future's output, unless it was given out before. */
  lemma ReadyIsDelivered(states: seq<JoinState>, steps: seq<(Tid, JoinAction)>, k: nat, h: TaskId)
    requires IsJoinRun(states, steps) && k < |steps| && steps[k].1 == PollHandle(h) && h in states[k].output
    ensures h in states[k + 1].delivered && states[k + 1].delivered[h] == [states[k].output[h]]
    ensures h in states[k + 1].slots && states[k + 1].slots[h].result.None?
  {
    JoinRunInv(states, steps, k);
    assert JoinEnabled(states[k], steps[k].0, steps[k].1);
    assert SlotOk(states[k], h);
  }

  /** Completion happens once per task, stores the value, and starts the wake of the waker it finds. */
  lemma CompletionStores(states: seq<JoinState>, steps: seq<(Tid, JoinAction)>, k: nat)
    requires IsJoinRun(states, steps) && k < |steps| && steps[k].1.Complete?
    ensures var j, j', i := states[k], states[k + 1], steps[k].0;
            && InFuture(j, i) && j.sched.threads[i].pc.t in j.slots
            && var t := j.sched.threads[i].pc.t;
            && t !in j.output && j'.output == j.output[t := steps[k].1.v]
            && t in j'.slots && j'.slots[t] == Slot(Some(steps[k].1.v), None) && BeingFinished(j', t)
            && (j.slots[t].waker.Some? ==> WakeUnderWay(j', t, j.slots[t].waker.value))
  {
    JoinRunInv(states, steps, k);
    var j, j', i := states[k], states[k + 1], steps[k].0;
    assert JoinEnabled(j, i, steps[k].1);
    CompletesOnce(j, i, steps[k].1.v);
    var t := j.sched.threads[i].pc.t;
    assert i in j'.finishing && j'.finishing[i] == t;
  }

  /** Spawning with a handle makes an empty slot for a task nobody has heard of. */
  lemma SpawnGivesHandle(states: seq<JoinState>, steps: seq<(Tid, JoinAction)>, k: nat)
    requires IsJoinRun(states, steps) && k < |steps| && steps[k].1.SpawnWithHandle?
    ensures var t := steps[k].1.t;
            && t !in states[k].slots && t in states[k + 1].slots && states[k + 1].slots[t] == Slot(None, None)
            && t in states[k + 1].delivered && states[k + 1].delivered[t] == [] && t in states[k + 1].sched.status
  {
    JoinRunInv(states, steps, k);
    assert JoinEnabled(states[k], steps[k].0, steps[k].1);
    assert SlotOk(states[k], steps[k].1.t);
  }

  /** At step `l` a poll of `w` began although `h` had completed and was not waking it any more. */
  ghost predicate AnsweredAt(states: seq<JoinState>, steps: seq<(Tid, JoinAction)>, l: nat, h: TaskId, w: TaskId) {
    && l < |steps| && l < |states| && steps[l].1 == Sched(CasRunning) && JoinEnabled(states[l], steps[l].0, steps[l].1)
    && states[l].sched.threads[steps[l].0].pc.t == w && h in states[l].output && !WakeUnderWay(states[l], h, w)
  }

  lemma AwaitStep(j: JoinState, i: Tid, a: JoinAction, h: TaskId)
    requires JoinEnabled(j, i, a) && a != PollHandle(h)
    ensures j.output.Keys <= JoinApply(j, i, a).output.Keys
    ensures h in j.awaiting ==>
              || (h in JoinApply(j, i, a).awaiting && JoinApply(j, i, a).awaiting[h] == j.awaiting[h])
              || (a == Sched(CasRunning) && j.sched.threads[i].pc.t == j.awaiting[h] && h in j.output
                  && !WakeUnderWay(j, h, j.awaiting[h]))
  {
  }

  /** Step `n` is a pending poll of `h` by `w` before the value was taken, and the last one before `m`. */
  ghost predicate LastPollPending(states: seq<JoinState>, steps: seq<(Tid, JoinAction)>, n: nat, m: nat, h: TaskId, w: TaskId) {
    && n < m <= |steps| < |states| && steps[n].1 == PollHandle(h) && JoinEnabled(states[n], steps[n].0, steps[n].1)
    && states[n].sched.threads[steps[n].0].pc.t == w
    && states[n].slots[h].result.None? && states[n].delivered[h] == []
    && forall l :: n < l < m ==> steps[l].1 != PollHandle(h)
  }

  predicate IsAwaited(j: JoinState, h: TaskId, w: TaskId) { h in j.awaiting && j.awaiting[h] == w }

  /** What step `l` leaves of somebody's waiting for `h`. */
  ghost predicate AwaitGoesOnAt(states: seq<JoinState>, steps: seq<(Tid, JoinAction)>, l: nat, h: TaskId, w: TaskId) {
    && l + 1 < |states|
    && (IsAwaited(states[l], h, w) ==>
          IsAwaited(states[l + 1], h, w) || (h in states[l + 1].output && AnsweredAt(states, steps, l, h, w)))
    && (h in states[l].output ==> h in states[l + 1].output)
  }

  lemma AwaitedOneStep(states: seq<JoinState>, steps: seq<(Tid, JoinAction)>, l: nat, h: TaskId, w: TaskId)
    requires IsJoinRun(states, steps) && l < |steps| && steps[l].1 != PollHandle(h)
    ensures AwaitGoesOnAt(states, steps, l, h, w)
  {
    assert JoinEnabled(states[l], steps[l].0, steps[l].1);
    AwaitStep(states[l], steps[l].0, steps[l].1, h);
  }

  lemma {:induction false} AwaiterStays(states: seq<JoinState>, steps: seq<(Tid, JoinAction)>, n: nat, m: nat, h: TaskId, w: TaskId)
    requires n < m < |states| && IsAwaited(states[n + 1], h, w)
    requires forall l :: n < l < m ==> AwaitGoesOnAt(states, steps, l, h, w)
    ensures || IsAwaited(states[m], h, w)
            || (h in states[m].output && exists l :: n < l < m && AnsweredAt(states, steps, l, h, w))
  {
    if m > n + 1 {
      AwaiterStays(states, steps, n, m - 1, h, w);
      assert AwaitGoesOnAt(states, steps, m - 1, h, w);
    }
  }

  /**
   The same from the history alone.  After a pending poll of a handle by `w`, and until the next
   poll of it: as long as the task has not completed, the slot holds the waker of `w`; once it has,
   `w` is being woken, or SCHEDULED, NOTIFIED or finished, or has been polled in answer.
   */
  lemma PendingHandleWakes(states: seq<JoinState>, steps: seq<(Tid, JoinAction)>, n: nat, m: nat, h: TaskId, w: TaskId)
    requires IsJoinRun(states, steps) && LastPollPending(states, steps, n, m, h, w)
    ensures var j := states[m];
            && (h !in j.output ==> h in j.slots && j.slots[h].waker == Some(w))
            && (h in j.output ==>
                  || WakeUnderWay(j, h, w) || WakePending(j.sched, w) || w in j.sched.done
                  || exists l :: n < l < m && AnsweredAt(states, steps, l, h, w))
  {
    forall l | n < l < m ensures AwaitGoesOnAt(states, steps, l, h, w) { AwaitedOneStep(states, steps, l, h, w); }
    AwaiterStays(states, steps, n, m, h, w);
    if IsAwaited(states[m], h, w) { CompletionReachesAwaiter(states, steps, m, h); }
  }

  /** Completion is never held up by the waker it has to call. */
  lemma CompletionIsEnabled(states: seq<JoinState>, steps: seq<(Tid, JoinAction)>, k: nat, i: Tid, v: Value)
    requires IsJoinRun(states, steps) && k < |states|
    requires InFuture(states[k], i) && states[k].sched.threads[i].pc.t in states[k].slots
    ensures JoinEnabled(states[k], i, Complete(v))
  {
    JoinRunInv(states, steps, k);
    var j := states[k];
    var t := j.sched.threads[i].pc.t;
    assert SlotOk(j, t);
    assert HasPlace(j.sched, t);
    var p :| TaskAt(j.sched, t, p);
    assert Handles(j.sched.threads[i].pc, t) && p == AtPc(i);
    forall g | g in j.finishing ensures j.finishing[g] != t {
      assert Handles(j.sched.threads[g].pc, j.finishing[g]);
    }
  }
}
