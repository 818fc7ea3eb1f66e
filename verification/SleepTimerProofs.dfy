/** The timer invariant holds in every run. */
module SleepTimerProofs {
  import opened Options
  import opened Shared
  import opened Scheduler
  import opened SchedulerOwnership
  import opened SchedulerDriver
  import opened SchedulerTheorems
  import opened SleepTimers

  // ---- A timer that a step does not touch ----

  /** Thread `i` is in a poll of `k` before and after, at the same place, or neither. */
  predicate SameSleeper(s: TimerState, s': TimerState, i: Tid, k: TimerId) {
    (i in s.sleeping && s.sleeping[i].k == k) || (i in s'.sleeping && s'.sleeping[i].k == k) ==>
      i in s.sleeping && i in s'.sleeping && s'.sleeping[i] == s.sleeping[i]
  }

  /** Thread `i` is firing `k` before and after, at the same place, or neither. */
  predicate SameFirer(s: TimerState, s': TimerState, i: Tid, k: TimerId) {
    (i in s.firing && FiresTimer(s.firing[i], k)) || (i in s'.firing && FiresTimer(s'.firing[i], k)) ==>
      i in s.firing && i in s'.firing && s'.firing[i] == s.firing[i]
  }

  /** Same cell and flag; at most a move from the inbox to the heap. */
  predicate SameTimer(s: TimerState, s': TimerState, k: TimerId) {
    && k in s.timers && k in s'.timers && s'.timers[k] == s.timers[k]
    && InOnePlace(s', k) && (k in s'.fired <==> k in s.fired) && s.clock <= s'.clock
    && (k in s'.awaiting ==> k in s.awaiting && s'.awaiting[k] == s.awaiting[k])
  }

  ghost predicate SameUse(s: TimerState, s': TimerState, k: TimerId) {
    && SameTimer(s, s', k)
    && (forall i: Tid :: SameSleeper(s, s', i, k))
    && (forall i: Tid :: SameFirer(s, s', i, k))
  }

  /** What a scheduler step leaves to the timer's users. */
  ghost predicate SchedGoesOn(s: State, s': State, sl: Target) {
    && s.status.Keys <= s'.status.Keys && s.done <= s'.done && |s'.threads| == |s.threads|
    && (sl.Somebody? && sl.tid < |s.threads| && s.threads[sl.tid].pc.Polling? ==>
          s'.threads[sl.tid].pc == s.threads[sl.tid].pc)
  }

  /** A wake of the timer's awaiter that is under way goes on; one that took effect stays, unless another is to come. */
  predicate AwaitGoesOn(s: TimerState, s': TimerState, k: TimerId, fi: Target) {
    k in s'.awaiting && k in s.timers && s.timers[k].completed ==>
      var w := s'.awaiting[k];
      && (fi.Somebody? && fi.tid < |s.sched.threads| && Wakes(s.sched.threads[fi.tid].op, w) ==>
            fi.tid < |s'.sched.threads| && (Wakes(s'.sched.threads[fi.tid].op, w) || WakePending(s'.sched, w)))
      && (WakePending(s.sched, w) && !(fi.Somebody? && IsWaking(s, fi.tid, k, w)) ==> WakePending(s'.sched, w))
  }

  lemma TimerStays(s: TimerState, s': TimerState, k: TimerId, sl: Target, fi: Target)
    requires TimerFits(s, k, sl, fi) && SameUse(s, s', k)
    requires SchedGoesOn(s.sched, s'.sched, sl) && AwaitGoesOn(s, s', k, fi)
    ensures TimerFits(s', k, sl, fi)
  {
    forall i: Tid | i in s'.sleeping ensures s'.sleeping[i].k == k <==> sl == Somebody(i) {
      assert SameSleeper(s, s', i, k);
    }
    forall i: Tid | i in s'.firing ensures FiresTimer(s'.firing[i], k) <==> fi == Somebody(i) {
      assert SameFirer(s, s', i, k);
    }
    assert sl.Somebody? ==> SameSleeper(s, s', sl.tid, k);
    assert fi.Somebody? ==> SameFirer(s, s', fi.tid, k);
    assert UsersAre(s', k, sl, fi);
  }

  lemma SchedLeavesUsers(s: State, i: Tid, sa: Action, sl: Target)
    requires Enabled(s, i, sa) && sl != Somebody(i)
    ensures SchedGoesOn(s, Apply(s, i, sa), sl)
  {
    var s' := Apply(s, i, sa);
    TasksStayKnown(s, i, sa);
    FinishedStay(s, i, sa);
    OnlyActorMoves(s, i, sa);
    if sl.Somebody? && sl.tid < |s.threads| { assert Undisturbed(s.threads[sl.tid], s'.threads[sl.tid]); }
  }

  lemma FirerGoesOn(s: State, i: Tid, sa: Action, o: Tid, w: TaskId)
    requires Inv(s) && Enabled(s, i, sa) && o < |s.threads| && Wakes(s.threads[o].op, w)
    ensures Wakes(Apply(s, i, sa).threads[o].op, w) || WakePending(Apply(s, i, sa), w)
  {
    OnlyActorMoves(s, i, sa);
    if o == i { WakeGoesOn(s, i, sa, w); } else { assert Undisturbed(s.threads[o], Apply(s, i, sa).threads[o]); }
  }

  lemma PartIsEnabled(s: TimerState, i: Tid, a: TimerAction)
    requires TimerEnabled(s, i, a) && SchedPart(s, i, a).Some?
    ensures Enabled(s.sched, i, SchedPart(s, i, a).value)
  {
  }

  lemma PartIsNotSleeping(s: TimerState, i: Tid, a: TimerAction)
    requires PlaceOk(s, i) && TimerEnabled(s, i, a) && SchedPart(s, i, a).Some?
    ensures i !in s.sleeping
  {
  }

  lemma Projects(s: TimerState, i: Tid, a: TimerAction)
    requires PlacesOk(s) && TimerEnabled(s, i, a)
    ensures match SchedPart(s, i, a)
            case None => TimerApply(s, i, a).sched == s.sched
            case Some(sa) =>
              Enabled(s.sched, i, sa) && TimerApply(s, i, a).sched == Apply(s.sched, i, sa) && i !in s.sleeping
  {
    assert PlaceOk(s, i);
    if SchedPart(s, i, a).Some? {
      PartIsEnabled(s, i, a);
      PartIsNotSleeping(s, i, a);
    }
  }

  /** A poll that begins leaves an entry of the polled task only if its wake is still to come. */
  lemma AwaiterStillWaits(s: TimerState, i: Tid, k: TimerId)
    requires TimerEnabled(s, i, Sched(CasRunning)) && k in TimerApply(s, i, Sched(CasRunning)).awaiting
    requires k in s.timers && s.timers[k].completed
    ensures k in s.awaiting && TimerApply(s, i, Sched(CasRunning)).awaiting[k] == s.awaiting[k]
    ensures s.awaiting[k] == s.sched.threads[i].pc.t ==> BeingWoken(s, k, s.awaiting[k])
  {
  }

  lemma PendingKept(s: TimerState, i: Tid, a: TimerAction, k: TimerId, sl: Target, fi: Target, sa: Action)
    requires TimerEnabled(s, i, a) && SchedPart(s, i, a) == Some(sa) && Enabled(s.sched, i, sa) && TimerFits(s, k, sl, fi)
    requires k in AwaitingAfter(s, i, a) && s.timers[k].completed && WakePending(s.sched, AwaitingAfter(s, i, a)[k])
    ensures var w := AwaitingAfter(s, i, a)[k];
            WakePending(Apply(s.sched, i, sa), w) || (fi.Somebody? && IsWaking(s, fi.tid, k, w))
  {
    var w := AwaitingAfter(s, i, a)[k];
    if sa.CasRunning? && s.sched.threads[i].pc.t == w {
      AwaiterStillWaits(s, i, k);
      var o :| IsWaking(s, o, k, w);
      assert fi == Somebody(o);
    } else {
      OnlyPollClearsWake(s.sched, i, sa, w);
    }
  }

  lemma AwaitKept(s: TimerState, i: Tid, a: TimerAction, k: TimerId, sl: Target, fi: Target)
    requires TimerInv(s) && TimerEnabled(s, i, a) && SchedPart(s, i, a).Some? && TimerFits(s, k, sl, fi)
    ensures AwaitGoesOn(s, TimerApply(s, i, a), k, fi)
  {
    var s', sa := TimerApply(s, i, a), SchedPart(s, i, a).value;
    Projects(s, i, a);
    if k in s'.awaiting && s.timers[k].completed {
      var w := s'.awaiting[k];
      if fi.Somebody? && fi.tid < |s.sched.threads| && Wakes(s.sched.threads[fi.tid].op, w) {
        FirerGoesOn(s.sched, i, sa, fi.tid, w);
      }
      if WakePending(s.sched, w) { PendingKept(s, i, a, k, sl, fi, sa); }
    }
  }

  /** Every timer the step does not touch keeps its place in the protocol. */
  lemma OthersStay(s: TimerState, i: Tid, a: TimerAction, k: TimerId)
    requires TimerInv(s) && TimerEnabled(s, i, a) && SameUse(s, TimerApply(s, i, a), k)
    ensures TimerOk(TimerApply(s, i, a), k)
  {
    assert TimerOk(s, k);
    var sl, fi :| TimerFits(s, k, sl, fi);
    Projects(s, i, a);
    if SchedPart(s, i, a).Some? {
      SchedLeavesUsers(s.sched, i, SchedPart(s, i, a).value, sl);
      AwaitKept(s, i, a, k, sl, fi);
    }
    TimerStays(s, TimerApply(s, i, a), k, sl, fi);
  }

  /** The timer an action works on, if any. */
  ghost function SubjectTimer(s: TimerState, i: Tid, a: TimerAction): Option<TimerId>
    requires TimerEnabled(s, i, a)
  {
    match a
    case Sched(_) | Tick(_) | Drain | ReadNow | StopFiring | CollectWakers(_) | CallNext | CallsDone => None
    case Register(k, _) => Some(k)
    case Pop(k) => Some(k)
    case StartPoll(k) => Some(k)
    case MarkCompleted | TryTake(_) | TakeWaker | ClearCell | CallDone => Some(s.firing[i].k)
    case _ => Some(s.sleeping[i].k)
  }

  predicate CellStep(a: TimerAction) {
    a.MarkCompleted? || a.TryTake? || a.TakeWaker? || a.ClearCell? || a.CallDone?
  }

  predicate SleepStep(a: TimerAction) {
    a.LoadFirst? || a.TryClaimEmpty? || a.TryClaimStored? || a.StoreWaker? || a.PublishCell? || a.LoadSecond?
  }

  lemma AwaitUntouched(s: TimerState, i: Tid, a: TimerAction, k: TimerId)
    requires TimerEnabled(s, i, a) && SubjectTimer(s, i, a) != Some(k) && k in TimerApply(s, i, a).awaiting
    ensures k in s.awaiting && TimerApply(s, i, a).awaiting[k] == s.awaiting[k]
  {
  }

  lemma TimerUntouched(s: TimerState, i: Tid, a: TimerAction, k: TimerId)
    requires k in s.timers && InOnePlace(s, k) && TimerEnabled(s, i, a) && SubjectTimer(s, i, a) != Some(k)
    ensures SameTimer(s, TimerApply(s, i, a), k)
  {
    WheelUntouched(s, i, a, k);
    if k in TimerApply(s, i, a).awaiting { AwaitUntouched(s, i, a, k); }
  }

  lemma WheelUntouched(s: TimerState, i: Tid, a: TimerAction, k: TimerId)
    requires k in s.timers && InOnePlace(s, k) && TimerEnabled(s, i, a) && SubjectTimer(s, i, a) != Some(k)
    ensures var (inbox, heap, fired) := WheelAfter(s, i, a);
            && (k in inbox ==> k !in heap && k !in fired) && (k in heap ==> k !in fired)
            && (k in inbox || k in heap || k in fired) && (k in fired <==> k in s.fired)
  {
  }

  lemma SleeperUntouched(s: TimerState, i: Tid, a: TimerAction, k: TimerId)
    requires TimerEnabled(s, i, a) && SubjectTimer(s, i, a) != Some(k)
    ensures SameSleeper(s, TimerApply(s, i, a), i, k)
  {
  }

  lemma FirerUntouched(s: TimerState, i: Tid, a: TimerAction, k: TimerId)
    requires TimerEnabled(s, i, a) && SubjectTimer(s, i, a) != Some(k)
    ensures SameFirer(s, TimerApply(s, i, a), i, k)
  {
  }

  lemma UseUntouched(s: TimerState, i: Tid, a: TimerAction, k: TimerId)
    requires k in s.timers && InOnePlace(s, k) && TimerEnabled(s, i, a) && SubjectTimer(s, i, a) != Some(k)
    ensures SameUse(s, TimerApply(s, i, a), k)
  {
    var s' := TimerApply(s, i, a);
    TimerUntouched(s, i, a, k);
    forall j: Tid ensures SameSleeper(s, s', j, k) && SameFirer(s, s', j, k) {
      if j == i {
        SleeperUntouched(s, i, a, k);
        FirerUntouched(s, i, a, k);
      } else {
        OthersSleep(s, i, a, j);
        OthersFire(s, i, a, j);
      }
    }
  }

  // ---- The timer a step works on ----

  lemma RegisterFits(s: TimerState, i: Tid, k: TimerId, deadline: nat)
    requires TimerInv(s) && TimerEnabled(s, i, Register(k, deadline))
    ensures TimerOk(TimerApply(s, i, Register(k, deadline)), k)
  {
    forall j: Tid ensures (j in s.sleeping ==> s.sleeping[j].k != k) && (j in s.firing ==> !FiresTimer(s.firing[j], k)) {
      assert PlaceOk(s, j);
    }
    assert TimerFits(TimerApply(s, i, Register(k, deadline)), k, Nobody, Nobody);
  }

  lemma PopFits(s: TimerState, i: Tid, k: TimerId, sl: Target, fi: Target)
    requires PlacesOk(s) && TimerFits(s, k, sl, fi) && TimerEnabled(s, i, Pop(k))
    ensures TimerFits(TimerApply(s, i, Pop(k)), k, sl, Somebody(i))
  {
    assert PlaceOk(s, i);
  }

  lemma MarkFits(s: TimerState, i: Tid, k: TimerId, sl: Target, fi: Target)
    requires TimerFits(s, k, sl, fi) && TimerEnabled(s, i, MarkCompleted) && s.firing[i].k == k
    ensures TimerFits(TimerApply(s, i, MarkCompleted), k, sl, fi)
  {
    assert FiresTimer(s.firing[i], k) && fi == Somebody(i);
    assert UsersAre(TimerApply(s, i, MarkCompleted), k, sl, fi);
  }

  lemma TakeFits(s: TimerState, i: Tid, k: TimerId, sl: Target, fi: Target)
    requires TimerFits(s, k, sl, fi) && TimerEnabled(s, i, TakeWaker) && s.firing[i].k == k
    ensures TimerFits(TimerApply(s, i, TakeWaker), k, sl, fi)
  {
    assert FiresTimer(s.firing[i], k) && fi == Somebody(i);
    assert UsersAre(TimerApply(s, i, TakeWaker), k, sl, fi);
  }

  lemma TryTakeFits(s: TimerState, i: Tid, spurious: bool, k: TimerId, sl: Target, fi: Target)
    requires TimerFits(s, k, sl, fi) && TimerEnabled(s, i, TryTake(spurious)) && s.firing[i].k == k
    ensures TimerOk(TimerApply(s, i, TryTake(spurious)), k)
  {
    assert FiresTimer(s.firing[i], k) && fi == Somebody(i);
    var s' := TimerApply(s, i, TryTake(spurious));
    assert TimerFits(s', k, sl, if s'.firing[i].Peek? then Nobody else fi);
  }

  lemma ClearFits(s: TimerState, i: Tid, k: TimerId, sl: Target, fi: Target)
    requires PlacesOk(s) && TimerFits(s, k, sl, fi) && TimerEnabled(s, i, ClearCell) && s.firing[i].k == k
    requires s.firing[i].w.Some? && SchedGoesOn(s.sched, TimerApply(s, i, ClearCell).sched, sl)
    requires k in s.awaiting && WakePending(s.sched, s.awaiting[k]) ==>
               WakePending(TimerApply(s, i, ClearCell).sched, s.awaiting[k])
    ensures TimerFits(TimerApply(s, i, ClearCell), k, sl, fi)
  {
    assert FiresTimer(s.firing[i], k) && fi == Somebody(i);
    var s' := TimerApply(s, i, ClearCell);
    assert UsersAre(s', k, sl, fi);
  }

  lemma ClearKeeps(s: TimerState, i: Tid, k: TimerId, sl: Target, fi: Target)
    requires TimerInv(s) && TimerFits(s, k, sl, fi) && TimerEnabled(s, i, ClearCell) && s.firing[i].k == k
    ensures TimerOk(TimerApply(s, i, ClearCell), k)
  {
    assert FiresTimer(s.firing[i], k) && fi == Somebody(i);
    var sa := BeginWake(s.firing[i].w.value);
    Projects(s, i, ClearCell);
    SchedLeavesUsers(s.sched, i, sa, sl);
    if k in s.awaiting && WakePending(s.sched, s.awaiting[k]) { OnlyPollClearsWake(s.sched, i, sa, s.awaiting[k]); }
    ClearFits(s, i, k, sl, fi);
  }

  lemma CallDoneFits(s: TimerState, i: Tid, k: TimerId, sl: Target, fi: Target)
    requires PlacesOk(s) && TimerFits(s, k, sl, fi) && TimerEnabled(s, i, CallDone) && s.firing[i].k == k
    ensures TimerOk(TimerApply(s, i, CallDone), k)
  {
    assert FiresTimer(s.firing[i], k) && fi == Somebody(i);
    assert TimerFits(TimerApply(s, i, CallDone), k, sl, Nobody);
  }

  lemma StartPollFits(s: TimerState, i: Tid, k: TimerId, sl: Target, fi: Target)
    requires TimerFits(s, k, sl, fi) && TimerEnabled(s, i, StartPoll(k))
    ensures TimerOk(TimerApply(s, i, StartPoll(k)), k)
  {
    assert TimerFits(TimerApply(s, i, StartPoll(k)), k, Somebody(i), fi);
  }

  lemma ClaimFits(s: TimerState, i: Tid, a: TimerAction, k: TimerId, fi: Target)
    requires TimerFits(s, k, Somebody(i), fi) && TimerEnabled(s, i, a)
    requires a.TryClaimEmpty? || a.TryClaimStored?
    ensures TimerFits(TimerApply(s, i, a), k, Somebody(i), fi)
  {
    assert UsersAre(TimerApply(s, i, a), k, Somebody(i), fi);
  }

  lemma WriteFits(s: TimerState, i: Tid, a: TimerAction, k: TimerId, fi: Target)
    requires TimerFits(s, k, Somebody(i), fi) && TimerEnabled(s, i, a) && s.sched.threads[i].pc.t in s.sched.status
    requires a.StoreWaker? || a.PublishCell?
    ensures TimerFits(TimerApply(s, i, a), k, Somebody(i), fi)
  {
    assert UsersAre(TimerApply(s, i, a), k, Somebody(i), fi);
  }

  lemma LoadFits(s: TimerState, i: Tid, a: TimerAction, k: TimerId, fi: Target)
    requires TimerFits(s, k, Somebody(i), fi) && TimerEnabled(s, i, a) && s.sched.threads[i].pc.t in s.sched.status
    requires a.LoadFirst? || a.LoadSecond?
    ensures TimerOk(TimerApply(s, i, a), k)
  {
    var s' := TimerApply(s, i, a);
    assert TimerFits(s', k, if i in s'.sleeping then Somebody(i) else Nobody, fi);
  }

  lemma PolledIsKnown(s: State, i: Tid)
    requires Ownership(s) && i < |s.threads| && s.threads[i].pc.Polling?
    ensures s.threads[i].pc.t in s.status
  {
    assert HasPlace(s, s.threads[i].pc.t) && Handles(s.threads[i].pc, s.threads[i].pc.t);
  }

  lemma SleepKeeps(s: TimerState, i: Tid, a: TimerAction, k: TimerId, sl: Target, fi: Target)
    requires Ownership(s.sched) && TimerFits(s, k, sl, fi) && TimerEnabled(s, i, a) && SubjectTimer(s, i, a) == Some(k)
    requires SleepStep(a)
    ensures TimerOk(TimerApply(s, i, a), k)
  {
    assert sl == Somebody(i);
    PolledIsKnown(s.sched, i);
    if a.TryClaimEmpty? || a.TryClaimStored? {
      ClaimFits(s, i, a, k, fi);
    } else if a.StoreWaker? || a.PublishCell? {
      WriteFits(s, i, a, k, fi);
    } else {
      LoadFits(s, i, a, k, fi);
    }
  }

  lemma SubjectKeeps(s: TimerState, i: Tid, a: TimerAction, k: TimerId)
    requires TimerInv(s) && TimerEnabled(s, i, a) && SubjectTimer(s, i, a) == Some(k) && k in s.timers
    ensures TimerOk(TimerApply(s, i, a), k)
  {
    assert TimerOk(s, k);
    var sl, fi :| TimerFits(s, k, sl, fi);
    if a.ClearCell? {
      ClearKeeps(s, i, k, sl, fi);
    } else if a.CallDone? {
      CallDoneFits(s, i, k, sl, fi);
    } else if a.MarkCompleted? {
      MarkFits(s, i, k, sl, fi);
    } else if a.TakeWaker? {
      TakeFits(s, i, k, sl, fi);
    } else if a.TryTake? {
      TryTakeFits(s, i, a.spurious, k, sl, fi);
    } else if SleepStep(a) {
      SleepKeeps(s, i, a, k, sl, fi);
    } else if a.Pop? {
      PopFits(s, i, k, sl, fi);
    } else {
      StartPollFits(s, i, k, sl, fi);
    }
  }

  lemma KeepsTimer(s: TimerState, i: Tid, a: TimerAction, k: TimerId)
    requires TimerInv(s) && TimerEnabled(s, i, a) && k in TimerApply(s, i, a).timers
    ensures TimerOk(TimerApply(s, i, a), k)
  {
    if SubjectTimer(s, i, a) == Some(k) {
      if a.Register? { RegisterFits(s, i, k, a.deadline); } else { SubjectKnown(s, i, a); SubjectKeeps(s, i, a, k); }
    } else {
      OnlySubjectIsNew(s, i, a, k);
      assert TimerOk(s, k);
      UseUntouched(s, i, a, k);
      OthersStay(s, i, a, k);
    }
  }

  lemma OnlySubjectIsNew(s: TimerState, i: Tid, a: TimerAction, k: TimerId)
    requires TimerEnabled(s, i, a) && k in TimerApply(s, i, a).timers && SubjectTimer(s, i, a) != Some(k)
    ensures k in s.timers
  {
  }

  lemma SubjectKnown(s: TimerState, i: Tid, a: TimerAction)
    requires PlacesOk(s) && TimerEnabled(s, i, a) && SubjectTimer(s, i, a).Some? && !a.Register?
    ensures SubjectTimer(s, i, a).value in s.timers
  {
    assert PlaceOk(s, i);
    if a.CallDone? { assert FiresTimer(s.firing[i], s.firing[i].k); }
  }

  // ---- The wheel, the places and the pokes ----

  lemma KeepsWheel(s: TimerState, i: Tid, a: TimerAction)
    requires WheelOk(s) && TimerEnabled(s, i, a)
    ensures WheelOk(TimerApply(s, i, a))
  {
  }

  lemma PlaceFrame(s: TimerState, s': TimerState, j: Tid)
    requires PlaceOk(s, j) && s.timers.Keys <= s'.timers.Keys && s.clock <= s'.clock
    requires j in s'.sleeping <==> j in s.sleeping
    requires j in s.sleeping ==> s'.sleeping[j] == s.sleeping[j]
    requires j in s'.firing <==> j in s.firing
    requires j in s.firing ==> s'.firing[j] == s.firing[j]
    requires (j in s'.calls <==> j in s.calls) && (j in s.calls ==> s'.calls[j] == s.calls[j])
    requires |s'.sched.threads| == |s.sched.threads| && s.sched.status.Keys <= s'.sched.status.Keys
    requires j < |s.sched.threads| ==> Undisturbed(s.sched.threads[j], s'.sched.threads[j])
    ensures PlaceOk(s', j)
  {
  }

  lemma OthersSleep(s: TimerState, i: Tid, a: TimerAction, j: Tid)
    requires TimerEnabled(s, i, a) && j != i
    ensures j in TimerApply(s, i, a).sleeping <==> j in s.sleeping
    ensures j in s.sleeping ==> TimerApply(s, i, a).sleeping[j] == s.sleeping[j]
  {
  }

  lemma OthersFire(s: TimerState, i: Tid, a: TimerAction, j: Tid)
    requires TimerEnabled(s, i, a) && j != i
    ensures j in TimerApply(s, i, a).firing <==> j in s.firing
    ensures j in s.firing ==> TimerApply(s, i, a).firing[j] == s.firing[j]
  {
  }

  lemma OthersCall(s: TimerState, i: Tid, a: TimerAction, j: Tid)
    requires TimerEnabled(s, i, a) && j != i
    ensures j in TimerApply(s, i, a).calls <==> j in s.calls
    ensures j in s.calls ==> TimerApply(s, i, a).calls[j] == s.calls[j]
  {
  }

  lemma TimersStayKnown(s: TimerState, i: Tid, a: TimerAction)
    requires TimerEnabled(s, i, a)
    ensures s.timers.Keys <= TimerApply(s, i, a).timers.Keys && s.clock <= TimerApply(s, i, a).clock
  {
  }

  /** Inside the firing loop only a wake under way moves the scheduler, and it stays put. */
  lemma SchedActorPlaced(s: TimerState, i: Tid, sa: Action)
    requires PlaceOk(s, i) && TimerEnabled(s, i, Sched(sa)) && WellPlaced(s.sched.threads[i])
    ensures PlaceOk(TimerApply(s, i, Sched(sa)), i)
  {
    TasksStayKnown(s.sched, i, sa);
    if i in s.firing { OpKeepsPc(s.sched, i, sa); } else { NobodyStartsFiring(s.sched, i, sa); }
    CallsStay(s.sched, i, sa);
  }

  lemma NobodyStartsFiring(s: State, i: Tid, sa: Action)
    requires Enabled(s, i, sa) && !Fires(s.threads[i].pc) && !sa.DrainInbox?
    ensures !Fires(PcAfter(s, i, sa))
  {
  }

  lemma CallsStay(s: State, i: Tid, sa: Action)
    requires Enabled(s, i, sa) && !sa.DrainEventFd? && !sa.WakersDone?
    ensures PcAfter(s, i, sa).WakeAll? == s.threads[i].pc.WakeAll?
  {
  }

  lemma CellActorPlaced(s: TimerState, i: Tid, a: TimerAction)
    requires PlaceOk(s, i) && TimerEnabled(s, i, a) && CellStep(a)
    ensures PlaceOk(TimerApply(s, i, a), i)
  {
  }

  lemma SleepActorPlaced(s: TimerState, i: Tid, a: TimerAction)
    requires PlaceOk(s, i) && TimerEnabled(s, i, a) && SleepStep(a)
    ensures PlaceOk(TimerApply(s, i, a), i)
  {
  }

  lemma OtherActorPlaced(s: TimerState, i: Tid, a: TimerAction)
    requires PlaceOk(s, i) && TimerEnabled(s, i, a) && !a.Sched? && !CellStep(a) && !SleepStep(a)
    ensures PlaceOk(TimerApply(s, i, a), i)
  {
    match a {
      case Register(k, deadline) => RegisterPlaced(s, i, k, deadline);
      case Drain => DrainPlaced(s, i);
      case StopFiring => StopPlaced(s, i);
      case CollectWakers(ws) => CollectPlaced(s, i, ws);
      case CallNext => CallPlaced(s, i);
      case CallsDone => CallsDonePlaced(s, i);
      case _ =>
    }
  }

  lemma RegisterPlaced(s: TimerState, i: Tid, k: TimerId, deadline: nat)
    requires PlaceOk(s, i) && TimerEnabled(s, i, Register(k, deadline))
    ensures PlaceOk(TimerApply(s, i, Register(k, deadline)), i)
  {
  }

  lemma DrainPlaced(s: TimerState, i: Tid)
    requires PlaceOk(s, i) && TimerEnabled(s, i, Drain)
    ensures PlaceOk(TimerApply(s, i, Drain), i)
  {
  }

  lemma StopPlaced(s: TimerState, i: Tid)
    requires PlaceOk(s, i) && TimerEnabled(s, i, StopFiring)
    ensures PlaceOk(TimerApply(s, i, StopFiring), i)
  {
  }

  lemma CollectPlaced(s: TimerState, i: Tid, ws: seq<TaskId>)
    requires PlaceOk(s, i) && TimerEnabled(s, i, CollectWakers(ws))
    ensures PlaceOk(TimerApply(s, i, CollectWakers(ws)), i)
  {
  }

  lemma CallPlaced(s: TimerState, i: Tid)
    requires PlaceOk(s, i) && TimerEnabled(s, i, CallNext)
    ensures PlaceOk(TimerApply(s, i, CallNext), i)
  {
  }

  lemma CallsDonePlaced(s: TimerState, i: Tid)
    requires PlaceOk(s, i) && TimerEnabled(s, i, CallsDone)
    ensures PlaceOk(TimerApply(s, i, CallsDone), i)
  {
  }

  lemma ActorKeepsPlace(s: TimerState, i: Tid, a: TimerAction)
    requires TimerInv(s) && TimerEnabled(s, i, a)
    ensures PlaceOk(TimerApply(s, i, a), i)
  {
    assert PlaceOk(s, i);
    if a.Sched? {
      assert WellPlaced(s.sched.threads[i]);
      SchedActorPlaced(s, i, a.a);
    } else if CellStep(a) {
      CellActorPlaced(s, i, a);
    } else if SleepStep(a) {
      SleepActorPlaced(s, i, a);
    } else {
      OtherActorPlaced(s, i, a);
    }
  }

  lemma OthersKeepPlace(s: TimerState, i: Tid, a: TimerAction, j: Tid)
    requires PlacesOk(s) && TimerEnabled(s, i, a) && j != i
    ensures PlaceOk(TimerApply(s, i, a), j)
  {
    assert PlaceOk(s, j);
    OthersSleep(s, i, a, j);
    OthersFire(s, i, a, j);
    OthersCall(s, i, a, j);
    TimersStayKnown(s, i, a);
    Projects(s, i, a);
    if SchedPart(s, i, a).Some? {
      OnlyActorMoves(s.sched, i, SchedPart(s, i, a).value);
      TasksStayKnown(s.sched, i, SchedPart(s, i, a).value);
    }
    PlaceFrame(s, TimerApply(s, i, a), j);
  }

  lemma KeepsPlaces(s: TimerState, i: Tid, a: TimerAction)
    requires TimerInv(s) && TimerEnabled(s, i, a)
    ensures PlacesOk(TimerApply(s, i, a))
  {
    forall j: Tid ensures PlaceOk(TimerApply(s, i, a), j) {
      if j == i { ActorKeepsPlace(s, i, a); } else { OthersKeepPlace(s, i, a, j); }
    }
  }

  /** What a scheduler action may do to the counter and to the pokes of `sleep` callers. */
  predicate Heard(s: State, i: Tid, sa: Action)
    requires Enabled(s, i, sa)
  {
    && (s.threads[i].op.SleepWake? ==> OpAfter(s, i, sa).SleepWake? || Effect(s, i, sa).eventfd > 0)
    && (Effect(s, i, sa).eventfd >= s.eventfd || s.threads[i].pc.Collect?)
    && (Drained(PcAfter(s, i, sa)) ==> Drained(s.threads[i].pc) || sa.DrainInbox?)
  }

  lemma OpHeard(s: State, i: Tid, sa: Action)
    requires Enabled(s, i, sa) && IsOpStep(sa)
    ensures Heard(s, i, sa)
  {
  }

  lemma PcHeard(s: State, i: Tid, sa: Action)
    requires Enabled(s, i, sa) && !IsOpStep(sa)
    ensures Heard(s, i, sa)
  {
    PcOnlyDrains(s, i, sa);
  }

  lemma HeardFrame(s: TimerState, s': TimerState, i: Tid)
    requires TimersHeard(s) && OneDriver(s.sched) && i < |s.sched.threads| && OthersUndisturbed(s.sched, s'.sched, i)
    requires s'.inbox != [] ==> s.inbox != [] || s'.sched.threads[i].op.SleepWake?
    requires s.sched.threads[i].op.SleepWake? ==> s'.sched.threads[i].op.SleepWake? || s'.sched.eventfd > 0
    requires s'.sched.eventfd >= s.sched.eventfd || s.sched.threads[i].pc.Collect?
    requires Drained(s'.sched.threads[i].pc) ==> Drained(s.sched.threads[i].pc) || s'.inbox == []
    ensures TimersHeard(s')
  {
    var p :| DriverIs(s.sched, p);
    forall k | 0 <= k < |s'.sched.threads| && Drained(s'.sched.threads[k].pc) && s'.inbox != []
      ensures s'.sched.eventfd > 0 || SleepPokeComing(s'.sched)
    {
      assert k != i ==> Undisturbed(s.sched.threads[k], s'.sched.threads[k]);
      assert Drives(s.sched.threads[k].pc) && p == Somebody(k);
      if !s'.sched.threads[i].op.SleepWake? && s'.sched.eventfd == 0 {
        var j :| 0 <= j < |s.sched.threads| && s.sched.threads[j].op.SleepWake?;
        assert j != i && Undisturbed(s.sched.threads[j], s'.sched.threads[j]);
        assert s'.sched.threads[j].op.SleepWake?;
      }
    }
  }

  lemma InboxSteps(s: TimerState, i: Tid, a: TimerAction)
    requires PlacesOk(s) && TimerEnabled(s, i, a)
    ensures var s' := TimerApply(s, i, a);
            && (s'.inbox != [] ==> s.inbox != [] || a.Register?)
            && (SchedPart(s, i, a) == Some(DrainInbox) ==> s'.inbox == [])
            && (SchedPart(s, i, a).None? ==> s'.sched == s.sched)
  {
  }

  lemma KeepsHeard(s: TimerState, i: Tid, a: TimerAction)
    requires TimerInv(s) && TimerEnabled(s, i, a)
    ensures TimersHeard(TimerApply(s, i, a))
  {
    var s' := TimerApply(s, i, a);
    InboxSteps(s, i, a);
    if SchedPart(s, i, a).Some? {
      var sa := SchedPart(s, i, a).value;
      Projects(s, i, a);
      if IsOpStep(sa) { OpHeard(s.sched, i, sa); } else { PcHeard(s.sched, i, sa); }
      OnlyActorMoves(s.sched, i, sa);
      HeardFrame(s, s', i);
    }
  }

  lemma KeepsTimerInv(s: TimerState, i: Tid, a: TimerAction)
    requires TimerInv(s) && TimerEnabled(s, i, a)
    ensures TimerInv(TimerApply(s, i, a))
  {
    Projects(s, i, a);
    if SchedPart(s, i, a).Some? { KeepsInv(s.sched, i, SchedPart(s, i, a).value); }
    KeepsPlaces(s, i, a);
    KeepsWheel(s, i, a);
    KeepsHeard(s, i, a);
    forall k | k in TimerApply(s, i, a).timers ensures TimerOk(TimerApply(s, i, a), k) { KeepsTimer(s, i, a, k); }
  }

  lemma {:induction false} TimerRunInv(states: seq<TimerState>, steps: seq<(Tid, TimerAction)>, n: nat)
    requires IsTimerRun(states, steps) && n < |states|
    ensures TimerInv(states[n])
  {
    if n == 0 {
      RunInv([states[0].sched], [], 0);
      forall i: Tid ensures PlaceOk(states[0], i) {}
    } else {
      TimerRunInv(states, steps, n - 1);
      assert TimerEnabled(states[n - 1], steps[n - 1].0, steps[n - 1].1);
      KeepsTimerInv(states[n - 1], steps[n - 1].0, steps[n - 1].1);
    }
  }
}
