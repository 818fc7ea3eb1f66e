/**
 A thread of the pool can always finish what it has begun: the call it is making, the poll of a
 Sleep it is in, the firing loop, the wakers the reactor collected.  Only steps that wait for
 nothing are needed, some of them by the holder of the queue mutex or of a waker cell.
 */
module Settling {
  import opened Shared
  import opened Scheduler
  import opened SchedulerOwnership
  import opened SchedulerDriver
  import opened SchedulerSteps
  import opened SleepTimers
  import opened SleepTimerProofs

  /** No waiting, no new call by user code, no spurious failure; what the surroundings decide goes as chosen. */
  ghost predicate TimerPrompt(s: TimerState, i: Tid, a: TimerAction, c: Choice) {
    && TimerEnabled(s, i, a)
    && match a {
         case Sched(sa) => Prompt(s.sched, Step(i, sa), c)
         case Tick(_) | StartPoll(_) => false
         case Register(_, deadline) => deadline == c.deadline
         case CollectWakers(ws) => ws == c.collected
         case TryTake(spurious) => !spurious
         case TryClaimEmpty(spurious) => !spurious
         case TryClaimStored(spurious) => !spurious
         case _ => true
       }
  }

  type Path = seq<(Tid, TimerAction)>

  /** The relation between the states before and after a prompt step. */
  ghost predicate Goes(s: TimerState, step: (Tid, TimerAction), s': TimerState, c: Choice) {
    TimerPrompt(s, step.0, step.1, c) && s' == TimerApply(s, step.0, step.1)
  }

  ghost predicate IsPromptPath(states: seq<TimerState>, path: Path, c: Choice) {
    && |states| == |path| + 1
    && forall n :: 0 <= n < |path| ==> Goes(states[n], path[n], states[n + 1], c)
  }

  ghost predicate Leads(s: TimerState, path: Path, s': TimerState, c: Choice) {
    exists states :: IsPromptPath(states, path, c) && states[0] == s && states[|path|] == s'
  }

  lemma JoinedStep(a: seq<TimerState>, path: Path, b: seq<TimerState>, more: Path, n: nat, c: Choice)
    requires IsPromptPath(a, path, c) && IsPromptPath(b, more, c) && a[|path|] == b[0] && n < |path + more|
    ensures Goes((a + b[1..])[n], (path + more)[n], (a + b[1..])[n + 1], c)
  {
    var m := n - |path|;
    if n < |path| { assert Goes(a[n], path[n], a[n + 1], c); } else { assert Goes(b[m], more[m], b[m + 1], c); }
  }

  lemma LeadsOn(s: TimerState, path: Path, s1: TimerState, more: Path, s2: TimerState, c: Choice)
    requires Leads(s, path, s1, c) && Leads(s1, more, s2, c)
    ensures Leads(s, path + more, s2, c)
  {
    var a :| IsPromptPath(a, path, c) && a[0] == s && a[|path|] == s1;
    var b :| IsPromptPath(b, more, c) && b[0] == s1 && b[|more|] == s2;
    var states := a + b[1..];
    forall n | 0 <= n < |path + more| ensures Goes(states[n], (path + more)[n], states[n + 1], c) {
      JoinedStep(a, path, b, more, n, c);
    }
    assert IsPromptPath(states, path + more, c) && states[|path + more|] == s2;
  }

  lemma NoStep(s: TimerState, c: Choice)
    ensures Leads(s, [], s, c)
  {
    assert IsPromptPath([s], [], c);
  }

  lemma OneStep(s: TimerState, i: Tid, a: TimerAction, c: Choice)
    requires TimerPrompt(s, i, a, c)
    ensures Leads(s, [(i, a)], TimerApply(s, i, a), c)
  {
    assert Goes(s, (i, a), TimerApply(s, i, a), c);
    assert IsPromptPath([s, TimerApply(s, i, a)], [(i, a)], c);
  }

  ghost predicate Kept(s: TimerState, s': TimerState, w: Tid) {
    TimerInv(s') && SchedKept(s.sched, s'.sched, w)
  }

  lemma StaysKept(s: TimerState, s': TimerState, w: Tid)
    requires TimerInv(s') && s'.sched == s.sched && w < |s.sched.threads|
    ensures Kept(s, s', w)
  {
  }

  // ---- Freeing a waker cell ----

  /** Nothing that thread `w` is doing has been touched. */
  predicate Untouched(s: TimerState, s': TimerState, w: Tid) {
    && w < |s.sched.threads| == |s'.sched.threads| && s'.sched.threads[w] == s.sched.threads[w]
    && s'.sched.queueLock == s.sched.queueLock && s'.sched.status == s.sched.status && s'.heap == s.heap
    && (w in s'.sleeping <==> w in s.sleeping) && (w in s.sleeping ==> s'.sleeping[w] == s.sleeping[w])
    && (w in s'.firing <==> w in s.firing) && (w in s.firing ==> s'.firing[w] == s.firing[w])
    && (w in s'.calls <==> w in s.calls) && (w in s.calls ==> s'.calls[w] == s.calls[w])
  }

  /** Thread `o` owns the cell of `k` with `left` steps to go. */
  predicate OwnsFor(s: TimerState, o: Tid, k: TimerId, left: nat) {
    && k in s.timers && s.timers[k].cell.Waking?
    && (|| (o in s.sleeping && ((s.sleeping[o] == WriteCell(k) && left == 2) || (s.sleeping[o] == Publish(k) && left == 1)))
        || (o in s.firing && FiresTimer(s.firing[o], k)
            && ((s.firing[o].TakeCell? && left == 2) || (s.firing[o].Clear? && left == 1))))
  }

  lemma WakingIsOwned(s: TimerState, k: TimerId) returns (o: Tid, left: nat)
    requires TimerInv(s) && k in s.timers && s.timers[k].cell.Waking?
    ensures OwnsFor(s, o, k, left)
  {
    assert TimerOk(s, k);
    var sl, fi :| TimerFits(s, k, sl, fi);
    if sl.Somebody? && s.sleeping[sl.tid].WriteCell? { o, left := sl.tid, 2; }
    else if sl.Somebody? && s.sleeping[sl.tid].Publish? { o, left := sl.tid, 1; }
    else {
      assert FiresTimer(s.firing[fi.tid], k);
      o, left := fi.tid, if s.firing[fi.tid].TakeCell? then 2 else 1;
    }
  }

  ghost function OwnerAction(s: TimerState, o: Tid): TimerAction
    requires o in s.sleeping || o in s.firing
  {
    if o in s.sleeping then (if s.sleeping[o].WriteCell? then StoreWaker else PublishCell)
    else (if s.firing[o].TakeCell? then TakeWaker else ClearCell)
  }

  lemma OwnerEnabled(s: TimerState, o: Tid, k: TimerId, left: nat)
    requires TimerInv(s) && OwnsFor(s, o, k, left)
    ensures TimerEnabled(s, o, OwnerAction(s, o)) && o < |s.sched.threads|
  {
    assert PlaceOk(s, o) && TimerOk(s, k);
  }

  /** What a step of the owner does to the cell, and to thread `w`. */
  ghost predicate MovesOn(s: TimerState, s': TimerState, o: Tid, k: TimerId, left: nat, w: Tid) {
    && Untouched(s, s', w) && k in s'.timers
    && (left == 1 ==> !s'.timers[k].cell.Waking?) && (left == 2 ==> OwnsFor(s', o, k, 1))
  }

  lemma SleeperMoves(s: TimerState, o: Tid, k: TimerId, left: nat, w: Tid)
    requires OwnsFor(s, o, k, left) && o in s.sleeping && o !in s.firing && TimerEnabled(s, o, OwnerAction(s, o))
    requires w != o && w < |s.sched.threads|
    ensures MovesOn(s, TimerApply(s, o, OwnerAction(s, o)), o, k, left, w)
  {
  }

  lemma TakerMoves(s: TimerState, o: Tid, k: TimerId, w: Tid)
    requires OwnsFor(s, o, k, 2) && o in s.firing && o !in s.sleeping && TimerEnabled(s, o, TakeWaker)
    requires w != o && w < |s.sched.threads|
    ensures MovesOn(s, TimerApply(s, o, TakeWaker), o, k, 2, w)
  {
  }

  lemma ClearerMoves(s: TimerState, o: Tid, k: TimerId, w: Tid)
    requires OwnsFor(s, o, k, 1) && o in s.firing && o !in s.sleeping && TimerEnabled(s, o, ClearCell)
    requires w != o && w < |s.sched.threads|
    ensures MovesOn(s, TimerApply(s, o, ClearCell), o, k, 1, w)
  {
  }

  lemma OwnerMoves(s: TimerState, o: Tid, k: TimerId, left: nat, w: Tid)
    requires PlaceOk(s, o) && OwnsFor(s, o, k, left) && TimerEnabled(s, o, OwnerAction(s, o))
    requires w != o && w < |s.sched.threads|
    ensures MovesOn(s, TimerApply(s, o, OwnerAction(s, o)), o, k, left, w)
  {
    if o in s.sleeping { SleeperMoves(s, o, k, left, w); }
    else if left == 2 { TakerMoves(s, o, k, w); }
    else { ClearerMoves(s, o, k, w); }
  }

  lemma OwnerKeeps(s: TimerState, o: Tid, k: TimerId, left: nat, w: Tid)
    requires TimerInv(s) && OwnsFor(s, o, k, left) && TimerEnabled(s, o, OwnerAction(s, o))
    requires w != o && w < |s.sched.threads|
    ensures Kept(s, TimerApply(s, o, OwnerAction(s, o)), w)
  {
    var a := OwnerAction(s, o);
    KeepsTimerInv(s, o, a);
    Projects(s, o, a);
    if SchedPart(s, o, a).Some? { QuietKeeps(s.sched, o, SchedPart(s, o, a).value, w); }
    else { StaysKept(s, TimerApply(s, o, a), w); }
  }

  lemma OwnerStep(s: TimerState, o: Tid, k: TimerId, left: nat, w: Tid, c: Choice) returns (path: Path, s': TimerState)
    requires TimerInv(s) && OwnsFor(s, o, k, left) && w != o && w < |s.sched.threads|
    ensures Leads(s, path, s', c) && Kept(s, s', w) && MovesOn(s, s', o, k, left, w)
  {
    var a := OwnerAction(s, o);
    OwnerEnabled(s, o, k, left);
    assert PlaceOk(s, o);
    OwnerMoves(s, o, k, left, w);
    OwnerKeeps(s, o, k, left, w);
    OneStep(s, o, a, c);
    path, s' := [(o, a)], TimerApply(s, o, a);
  }

  lemma {:induction false} FreeCell(s: TimerState, o: Tid, k: TimerId, left: nat, w: Tid, c: Choice)
      returns (path: Path, s': TimerState)
    requires TimerInv(s) && OwnsFor(s, o, k, left) && w != o && w < |s.sched.threads|
    ensures Leads(s, path, s', c) && Kept(s, s', w) && Untouched(s, s', w)
    ensures k in s'.timers && !s'.timers[k].cell.Waking?
    decreases left
  {
    path, s' := OwnerStep(s, o, k, left, w, c);
    if left == 2 {
      var more, s2 := FreeCell(s', o, k, 1, w, c);
      LeadsOn(s, path, s', more, s2, c);
      KeptOn(s.sched, s'.sched, s2.sched, w);
      path, s' := path + more, s2;
    }
  }

  // ---- Ranks ----

  predicate IsWakingCell(s: TimerState, k: TimerId) { k in s.timers && s.timers[k].cell.Waking? }

  predicate IsStoredCell(s: TimerState, k: TimerId) { k in s.timers && s.timers[k].cell.Stored? }

  function SleepRank(s: TimerState, p: SleepPc): nat {
    match p
    case FirstLoad(_) => 8
    case CasStored(k) => if IsStoredCell(s, k) then 4 else 7
    case CasEmpty(k) => if IsWakingCell(s, k) then 6 else 5
    case WriteCell(_) => 3
    case Publish(_) => 2
    case SecondLoad(_) => 1
  }

  function FireRank(s: TimerState, f: FirePc): nat {
    match f
    case ReadClock => 8
    case Mark(_, _) => 7
    case CasWake(_, k) => if IsWakingCell(s, k) then 6 else 5
    case TakeCell(_, _) => 4
    case Clear(_, _, _) => 3
    case Calling(_, _) => 2
    case Peek(_) => 1
  }

  /** How much the thread has left of the poll of a Sleep, the firing loop or the collected wakers. */
  function WorkRank(s: TimerState, w: Tid): nat {
    if w in s.sleeping then SleepRank(s, s.sleeping[w])
    else if w in s.firing then |s.heap| * 10 + FireRank(s, s.firing[w])
    else if w in s.calls then |s.calls[w]|
    else 0
  }

  /** How much is left of the call under way and of the queue mutex's lock section. */
  function CallRank(s: TimerState, w: Tid): nat
    requires w < |s.sched.threads|
  {
    OpRank(s.sched, s.sched.threads[w].op) + LockRank(s.sched)
  }

  ghost predicate NoneDue(s: TimerState, now: nat) {
    forall k :: k in s.heap ==> k in s.timers && s.timers[k].deadline > now
  }

  /** Thread `w` has nothing left to do before the next step of its own code, and the queue mutex is free. */
  ghost predicate Settled(s: TimerState, w: Tid) {
    && w < |s.sched.threads| && QueueFree(s.sched) && s.sched.threads[w].op.NoOp? && w !in s.sleeping
    && (w in s.firing ==> s.firing[w].Peek? && NoneDue(s, s.firing[w].now))
    && (w in s.calls ==> s.calls[w] == [])
  }

  ghost predicate Closer(s: TimerState, s': TimerState, w: Tid)
    requires w < |s.sched.threads|
  {
    && Kept(s, s', w)
    && (WorkRank(s', w) < WorkRank(s, w) || (WorkRank(s', w) == WorkRank(s, w) && CallRank(s', w) < CallRank(s, w)))
  }

  // ---- One step closer ----

  /** A scheduler step that leaves the timers alone. */
  lemma SchedStep(s: TimerState, i: Tid, sa: Action, w: Tid, c: Choice) returns (path: Path, s': TimerState)
    requires TimerInv(s) && Prompt(s.sched, Step(i, sa), c) && w < |s.sched.threads|
    requires i !in s.sleeping && (i in s.firing ==> !s.sched.threads[i].op.NoOp?)
    requires IsQuiet(sa) && !sa.RegisterTimer? && (if i == w then IsOpStep(sa) else !IsOpStep(sa))
    ensures Leads(s, path, s', c) && Kept(s, s', w) && s' == s.(sched := Apply(s.sched, i, sa))
  {
    path, s' := [(i, Sched(sa))], TimerApply(s, i, Sched(sa));
    OneStep(s, i, Sched(sa), c);
    KeepsTimerInv(s, i, Sched(sa));
    QuietKeeps(s.sched, i, sa, w);
  }

  lemma SameWork(s: TimerState, s': TimerState, w: Tid)
    requires s' == s.(sched := s'.sched)
    ensures WorkRank(s', w) == WorkRank(s, w)
  {
  }

  lemma SameOpRank(s: State, s': State, op: Op)
    requires s'.status == s.status
    ensures OpRank(s', op) == OpRank(s, op)
  {
  }

  lemma CloserByUnlock(s: TimerState, w: Tid, c: Choice) returns (path: Path, s': TimerState)
    requires TimerInv(s) && w < |s.sched.threads| && !HoldsQueue(s.sched.threads[w].pc) && s.sched.queueLock.Somebody?
    ensures Leads(s, path, s', c) && Closer(s, s', w)
  {
    var step := Unlock(s.sched, c);
    assert PlaceOk(s, step.tid);
    path, s' := SchedStep(s, step.tid, step.action, w, c);
    SameWork(s, s', w);
    SameOpRank(s.sched, s'.sched, s.sched.threads[w].op);
  }

  lemma {:induction false} Fresh(keys: set<TimerId>) returns (k: TimerId)
    ensures forall x :: x in keys ==> x < k
  {
    if keys == {} {
      k := 0;
    } else {
      var x :| x in keys;
      var k' := Fresh(keys - {x});
      k := if x < k' then k' else x + 1;
      forall y | y in keys ensures y < k { assert y == x || y in keys - {x}; }
    }
  }

  lemma CloserByOp(s: TimerState, w: Tid, c: Choice) returns (path: Path, s': TimerState)
    requires TimerInv(s) && w < |s.sched.threads| && QueueFree(s.sched) && !s.sched.threads[w].op.NoOp?
    ensures Leads(s, path, s', c) && Closer(s, s', w)
  {
    var sa := NextOp(s.sched, w);
    AdvanceOp(s.sched, w, c);
    assert PlaceOk(s, w);
    if sa.RegisterTimer? {
      path, s' := CloserByRegister(s, w, c);
    } else {
      OpNearsEnd(s.sched, w, c);
      path, s' := SchedStep(s, w, sa, w, c);
      SameWork(s, s', w);
    }
  }

  lemma RegisterAdvances(s: TimerState, w: Tid, k: TimerId, deadline: nat)
    requires w < |s.sched.threads| && PlaceOk(s, w) && WellPlaced(s.sched.threads[w])
    requires s.sched.threads[w].op.SleepRegister? && k !in s.timers
    ensures TimerEnabled(s, w, Register(k, deadline))
    ensures var s' := TimerApply(s, w, Register(k, deadline));
            WorkRank(s', w) == WorkRank(s, w) == 0 && CallRank(s', w) < CallRank(s, w)
  {
  }

  lemma CloserByRegister(s: TimerState, w: Tid, c: Choice) returns (path: Path, s': TimerState)
    requires TimerInv(s) && w < |s.sched.threads| && QueueFree(s.sched) && s.sched.threads[w].op.SleepRegister?
    ensures Leads(s, path, s', c) && Closer(s, s', w)
  {
    var k := Fresh(s.timers.Keys);
    var a := Register(k, c.deadline);
    assert PlaceOk(s, w) && WellPlaced(s.sched.threads[w]);
    RegisterAdvances(s, w, k, c.deadline);
    OneStep(s, w, a, c);
    KeepsTimerInv(s, w, a);
    QuietKeeps(s.sched, w, RegisterTimer, w);
    path, s' := [(w, a)], TimerApply(s, w, a);
  }

  /** The next step of a poll of a Sleep, when its cell is not in another thread's hands. */
  ghost function NextSleep(p: SleepPc): TimerAction {
    match p
    case FirstLoad(_) => LoadFirst
    case CasEmpty(_) => TryClaimEmpty(false)
    case CasStored(_) => TryClaimStored(false)
    case WriteCell(_) => StoreWaker
    case Publish(_) => PublishCell
    case SecondLoad(_) => LoadSecond
  }

  lemma SleepAdvances(s: TimerState, w: Tid)
    requires PlaceOk(s, w) && w in s.sleeping && !(s.sleeping[w].CasEmpty? && IsWakingCell(s, s.sleeping[w].k))
    ensures TimerEnabled(s, w, NextSleep(s.sleeping[w]))
    ensures TimerApply(s, w, NextSleep(s.sleeping[w])).sched == s.sched
    ensures WorkRank(TimerApply(s, w, NextSleep(s.sleeping[w])), w) < WorkRank(s, w)
  {
  }

  /** A cell in other hands costs one step more. */
  lemma FreedIsCloser(s: TimerState, s': TimerState, w: Tid, k: TimerId)
    requires Untouched(s, s', w) && IsWakingCell(s, k) && !IsWakingCell(s', k)
    requires if w in s.sleeping then s.sleeping[w] == CasEmpty(k) else w in s.firing && s.firing[w].CasWake? && s.firing[w].k == k
    ensures WorkRank(s', w) < WorkRank(s, w)
  {
  }

  /** Another thread has the cell: it gives it up. */
  lemma SleeperGetsCell(s: TimerState, w: Tid, c: Choice) returns (path: Path, s': TimerState)
    requires TimerInv(s) && w in s.sleeping && w < |s.sched.threads|
    requires s.sleeping[w].CasEmpty? && IsWakingCell(s, s.sleeping[w].k)
    ensures Leads(s, path, s', c) && Closer(s, s', w)
  {
    var o, left := WakingIsOwned(s, s.sleeping[w].k);
    assert PlaceOk(s, w) && PlaceOk(s, o);
    path, s' := FreeCell(s, o, s.sleeping[w].k, left, w, c);
    FreedIsCloser(s, s', w, s.sleeping[w].k);
  }

  lemma CloserBySleep(s: TimerState, w: Tid, c: Choice) returns (path: Path, s': TimerState)
    requires TimerInv(s) && w in s.sleeping && w < |s.sched.threads|
    ensures Leads(s, path, s', c) && Closer(s, s', w)
  {
    if s.sleeping[w].CasEmpty? && IsWakingCell(s, s.sleeping[w].k) {
      path, s' := SleeperGetsCell(s, w, c);
    } else {
      var a := NextSleep(s.sleeping[w]);
      assert PlaceOk(s, w);
      SleepAdvances(s, w);
      OneStep(s, w, a, c);
      KeepsTimerInv(s, w, a);
      path, s' := [(w, a)], TimerApply(s, w, a);
      StaysKept(s, s', w);
    }
  }

  /** The next step of the firing loop between its waker calls. */
  ghost predicate IsNextFire(s: TimerState, w: Tid, a: TimerAction)
    requires w in s.firing
  {
    match s.firing[w]
    case ReadClock => a == ReadNow
    case Peek(_) => a.Pop?
    case Mark(_, _) => a == MarkCompleted
    case CasWake(_, _) => a == TryTake(false)
    case TakeCell(_, _) => a == TakeWaker
    case Clear(_, _, _) => a == ClearCell
    case Calling(_, _) => a == CallDone
  }

  lemma {:induction false} HeapHasMinimum(s: TimerState, heap: set<TimerId>) returns (k: TimerId)
    requires heap != {} && heap <= s.timers.Keys
    ensures k in heap && forall m :: m in heap ==> s.timers[k].deadline <= s.timers[m].deadline
  {
    k :| k in heap;
    if heap != {k} {
      var k' := HeapHasMinimum(s, heap - {k});
      if s.timers[k'].deadline < s.timers[k].deadline { k := k'; }
    }
  }

  lemma DueEnabled(s: TimerState, w: Tid) returns (a: TimerAction)
    requires s.heap <= s.timers.Keys && w in s.firing && s.firing[w].Peek? && !NoneDue(s, s.firing[w].now)
    ensures TimerEnabled(s, w, a) && IsNextFire(s, w, a)
  {
    var k := HeapHasMinimum(s, s.heap);
    a := Pop(k);
  }

  lemma MarkedEnabled(s: TimerState, w: Tid) returns (a: TimerAction)
    requires PlaceOk(s, w) && w in s.firing && s.sched.threads[w].op.NoOp? && !s.firing[w].Peek? && !s.firing[w].Clear?
    ensures TimerEnabled(s, w, a) && IsNextFire(s, w, a)
  {
    match s.firing[w]
    case ReadClock => a := ReadNow;
    case Mark(_, k) => a := MarkCompleted; assert FiresTimer(s.firing[w], k);
    case CasWake(_, k) => a := TryTake(false); assert FiresTimer(s.firing[w], k);
    case TakeCell(_, k) => a := TakeWaker; assert FiresTimer(s.firing[w], k);
    case Calling(_, _) => a := CallDone;
  }

  lemma ClearEnabled(s: TimerState, w: Tid, k: TimerId)
    requires PlaceOk(s, w) && TimerOk(s, k) && w in s.firing && s.firing[w].Clear? && s.firing[w].k == k
    ensures TimerEnabled(s, w, ClearCell)
  {
    assert FiresTimer(s.firing[w], k);
  }

  lemma FireEnabled(s: TimerState, w: Tid) returns (a: TimerAction)
    requires TimerInv(s) && w in s.firing && w < |s.sched.threads| && s.sched.threads[w].op.NoOp?
    requires !(s.firing[w].Peek? && NoneDue(s, s.firing[w].now))
    ensures TimerEnabled(s, w, a) && IsNextFire(s, w, a)
  {
    assert PlaceOk(s, w);
    if s.firing[w].Peek? {
      a := DueEnabled(s, w);
    } else if s.firing[w].Clear? {
      var k := s.firing[w].k;
      assert FiresTimer(s.firing[w], k);
      ClearEnabled(s, w, k);
      a := ClearCell;
    } else {
      a := MarkedEnabled(s, w);
    }
  }

  lemma CellAdvances(s: TimerState, w: Tid, a: TimerAction)
    requires PlaceOk(s, w) && w in s.firing && TimerEnabled(s, w, a) && IsNextFire(s, w, a)
    requires s.firing[w].TakeCell? || s.firing[w].Clear? || s.firing[w].Calling?
    ensures WorkRank(TimerApply(s, w, a), w) < WorkRank(s, w)
  {
  }

  lemma PopAdvances(s: TimerState, w: Tid, a: TimerAction)
    requires PlaceOk(s, w) && w in s.firing && TimerEnabled(s, w, a) && IsNextFire(s, w, a)
    requires s.firing[w].ReadClock? || s.firing[w].Peek?
    ensures WorkRank(TimerApply(s, w, a), w) < WorkRank(s, w)
  {
  }

  lemma FireAdvances(s: TimerState, w: Tid, a: TimerAction)
    requires PlaceOk(s, w) && w in s.firing && TimerEnabled(s, w, a) && IsNextFire(s, w, a)
    requires !(s.firing[w].CasWake? && IsWakingCell(s, s.firing[w].k))
    ensures WorkRank(TimerApply(s, w, a), w) < WorkRank(s, w)
  {
    if s.firing[w].TakeCell? || s.firing[w].Clear? || s.firing[w].Calling? { CellAdvances(s, w, a); }
    else if s.firing[w].ReadClock? || s.firing[w].Peek? { PopAdvances(s, w, a); }
  }

  lemma FirerGetsCell(s: TimerState, w: Tid, c: Choice) returns (path: Path, s': TimerState)
    requires TimerInv(s) && w in s.firing && w < |s.sched.threads|
    requires s.firing[w].CasWake? && IsWakingCell(s, s.firing[w].k)
    ensures Leads(s, path, s', c) && Closer(s, s', w)
  {
    var o, left := WakingIsOwned(s, s.firing[w].k);
    assert PlaceOk(s, w) && PlaceOk(s, o);
    path, s' := FreeCell(s, o, s.firing[w].k, left, w, c);
    FreedIsCloser(s, s', w, s.firing[w].k);
  }

  lemma CloserByFire(s: TimerState, w: Tid, c: Choice) returns (path: Path, s': TimerState)
    requires TimerInv(s) && w in s.firing && w < |s.sched.threads| && s.sched.threads[w].op.NoOp?
    requires !(s.firing[w].Peek? && NoneDue(s, s.firing[w].now))
    ensures Leads(s, path, s', c) && Closer(s, s', w)
  {
    if s.firing[w].CasWake? && IsWakingCell(s, s.firing[w].k) {
      path, s' := FirerGetsCell(s, w, c);
    } else {
      assert PlaceOk(s, w);
      var a := FireEnabled(s, w);
      FireAdvances(s, w, a);
      path, s' := WakerStep(s, w, a, c);
    }
  }

  /** A step of the thread's own that calls at most one waker. */
  lemma WakerStep(s: TimerState, w: Tid, a: TimerAction, c: Choice) returns (path: Path, s': TimerState)
    requires TimerInv(s) && w < |s.sched.threads| && TimerPrompt(s, w, a, c)
    requires SchedPart(s, w, a).None? || SchedPart(s, w, a).value.BeginWake?
    ensures Leads(s, path, s', c) && Kept(s, s', w) && s' == TimerApply(s, w, a)
  {
    path, s' := [(w, a)], TimerApply(s, w, a);
    OneStep(s, w, a, c);
    KeepsTimerInv(s, w, a);
    Projects(s, w, a);
    if SchedPart(s, w, a).Some? { QuietKeeps(s.sched, w, SchedPart(s, w, a).value, w); } else { StaysKept(s, s', w); }
  }

  lemma CloserByCall(s: TimerState, w: Tid, c: Choice) returns (path: Path, s': TimerState)
    requires TimerInv(s) && w in s.calls && s.calls[w] != [] && w < |s.sched.threads| && s.sched.threads[w].op.NoOp?
    ensures Leads(s, path, s', c) && Closer(s, s', w)
  {
    assert PlaceOk(s, w);
    path, s' := WakerStep(s, w, CallNext, c);
  }

  /** Thread `w` finishes what it has begun; see the module comment. */
  lemma {:induction false} Settle(s: TimerState, w: Tid, c: Choice) returns (path: Path, s': TimerState)
    requires TimerInv(s) && w < |s.sched.threads| && !HoldsQueue(s.sched.threads[w].pc)
    ensures Leads(s, path, s', c) && Kept(s, s', w) && Settled(s', w)
    decreases WorkRank(s, w), CallRank(s, w)
  {
    if s.sched.queueLock.Somebody? {
      path, s' := CloserByUnlock(s, w, c);
    } else if !s.sched.threads[w].op.NoOp? {
      path, s' := CloserByOp(s, w, c);
    } else if w in s.sleeping {
      path, s' := CloserBySleep(s, w, c);
    } else if w in s.firing && !(s.firing[w].Peek? && NoneDue(s, s.firing[w].now)) {
      path, s' := CloserByFire(s, w, c);
    } else if w in s.calls && s.calls[w] != [] {
      path, s' := CloserByCall(s, w, c);
    } else {
      StaysKept(s, s, w);
      NoStep(s, c);
      return [], s;
    }
    var more, s2 := Settle(s', w, c);
    LeadsOn(s, path, s', more, s2, c);
    KeptOn(s.sched, s'.sched, s2.sched, w);
    path, s' := path + more, s2;
  }
}
