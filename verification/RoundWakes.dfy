/** Between any two rounds of `block_on`, and at every point of a tick, no wake has been forgotten. */
module RoundWakes {
  import opened Options
  import opened ReadyQueues
  import opened SingleThread
  import opened BlockOn

  /** A live task that was woken since its last poll is queued, or ahead in the current tick. */
  ghost predicate WokenAhead(w: World, ahead: seq<TaskId>) {
    && w.ready.Valid()
    && forall t :: t in w.woken && t in w.tasks ==> t in w.ready.queue || t in ahead
  }

  lemma WokeKeepsAhead(w: World, k: Waker, ahead: seq<TaskId>)
    requires WokenAhead(w, ahead)
    ensures WokenAhead(Woke(w, k), ahead)
  {
    if k.TaskWaker? { w.ready.EnqueueKeeps(k.t); }
  }

  lemma ActKeepsAhead(w: World, me: TaskId, a: Act, ahead: seq<TaskId>)
    requires WokenAhead(w, ahead)
    ensures WokenAhead(Acted(w, me, a), ahead)
  {
    if a.Wake? { WokeKeepsAhead(w, TaskWaker(a.t), ahead); }
  }

  lemma {:induction false} ActsKeepAhead(w: World, me: TaskId, acts: seq<Act>, ahead: seq<TaskId>)
    requires WokenAhead(w, ahead)
    ensures WokenAhead(ActedAll(w, me, acts), ahead)
  {
    if acts != [] {
      ActsKeepAhead(w, me, acts[..|acts| - 1], ahead);
      ActKeepsAhead(ActedAll(w, me, acts[..|acts| - 1]), me, acts[|acts| - 1], ahead);
    }
  }

  /** Polling the first task ahead: what it and others wake meanwhile is queued. */
  lemma PollKeepsAhead(w: World, t: TaskId, ahead: seq<TaskId>)
    requires WokenAhead(w, [t] + ahead)
    ensures WokenAhead(Polled(w, t), ahead)
  {
    if t in w.tasks && w.tasks[t] != [] {
      var w1, p := PollStarted(w, t), w.tasks[t][0];
      assert WokenAhead(w1, ahead);
      ActsKeepAhead(w1, t, p.acts, ahead);
      EndKeepsAhead(ActedAll(w1, t, p.acts), t, p.outcome, ahead);
    }
  }

  lemma EndKeepsAhead(w: World, t: TaskId, o: Outcome, ahead: seq<TaskId>)
    requires WokenAhead(w, ahead)
    ensures WokenAhead(PollEnded(w, t, o), ahead)
  {
    if o.Ready? && t in w.slots && w.slots[t].waker.Some? {
      WokeKeepsAhead(w.(slots := w.slots[t := Slot(Some(o.v), None)]), w.slots[t].waker.value, ahead);
    }
  }

  lemma {:induction false} PollsKeepAhead(w: World, ids: seq<TaskId>, n: nat)
    requires WokenAhead(w, ids) && n <= |ids|
    ensures WokenAhead(PolledAll(w, ids[..n]), ids[n..])
    decreases n
  {
    if n > 0 {
      PollsKeepAhead(w, ids, n - 1);
      assert ids[n - 1..] == [ids[n - 1]] + ids[n..];
      PollKeepsAhead(PolledAll(w, ids[..n - 1]), ids[n - 1], ids[n..]);
      assert ids[..n][..n - 1] == ids[..n - 1];
    } else {
      assert ids[..n] == [] && ids[n..] == ids;
    }
  }

  /** After `k` polls of a tick, every woken live task is queued again or still ahead in this tick. */
  lemma TickKeepsAhead(w: World, k: nat)
    requires WokenAhead(w, []) && k <= |w.ready.queue|
    ensures WokenAhead(PolledAll(w.(ready := EmptyReady), w.ready.queue[..k]), w.ready.queue[k..])
  {
    PollsKeepAhead(w.(ready := EmptyReady), w.ready.queue, k);
  }

  lemma {:induction false} TicksKeepAhead(w: World)
    requires WokenAhead(w, [])
    ensures WokenAhead(AllTicked(w), [])
    decreases Work(w.tasks), |w.ready.queue|
  {
    if w.ready.queue != [] {
      TickShrinks(w);
      var q := w.ready.queue;
      TickKeepsAhead(w, |q|);
      assert q[..|q|] == q && q[|q|..] == [];
      TicksKeepAhead(Ticked(w).0);
    }
  }

  lemma {:induction false} ProcessKeepsAhead(w: World, now: nat)
    requires WokenAhead(w, [])
    ensures WokenAhead(Processed(w, now).0, [])
    decreases |w.heap|
  {
    if w.heap != {} && Earliest(w.heap).deadline <= now {
      var e := Earliest(w.heap);
      FiredShrinks(w, e);
      if e.id in w.cells && w.cells[e.id].waker.Some? {
        WokeKeepsAhead(w.(heap := w.heap - {e}, cells := w.cells[e.id := Cell(true, None)]), w.cells[e.id].waker.value, []);
      }
      ProcessKeepsAhead(Fired(w, e), now);
    }
  }

  lemma {:induction false} WakesKeepAhead(w: World, ts: seq<TaskId>)
    requires WokenAhead(w, [])
    ensures WokenAhead(WokeAll(w, ts), [])
  {
    if ts != [] {
      WakesKeepAhead(w, ts[..|ts| - 1]);
      WokeKeepsAhead(WokeAll(w, ts[..|ts| - 1]), TaskWaker(ts[|ts| - 1]), []);
    }
  }

  lemma SpawnKeepsAhead(w: World, t: TaskId, f: Future, handOut: bool)
    requires WokenAhead(w, [])
    ensures WokenAhead(Spawned(w, t, f, handOut), [])
  {
    w.ready.EnqueueKeeps(t);
  }

  lemma SleptKeepsAhead(w: World, root: TaskId, env: Env)
    requires WokenAhead(w, []) && root in w.slots
    ensures WokenAhead(Slept(w, root, env).0, [])
  {
    var w1 := Processed(w, env.now).0;
    ProcessKeepsAhead(w, env.now);
    WakesKeepAhead(w1, env.wakes);
    ProcessKeepsAhead(WokeAll(w1, env.wakes), env.later);
    ProcessedKeepsSlots(w, env.now);
  }

  /** Between any two rounds every woken live task is in the queue, which has no duplicates. */
  lemma RoundKeepsAhead(w: World, root: TaskId, env: Env)
    requires WokenAhead(w, []) && root in w.slots
    ensures WokenAhead(Round(w, root, env).0, [])
  {
    TicksKeepAhead(w);
    AllTickedKeepsSlots(w);
    var w1 := AllTicked(w);
    var w2 := Checked(w1, root).0;
    if w2.tasks == map[] { SleptKeepsAhead(HandlePolled(w2, root, FlagWaker).0, root, env); }
    else { SleptKeepsAhead(w2, root, env); }
  }

  // ---- Whoever waits is still going to be woken ----

  /** Whoever waits for Sleep `k` is in its cell until it completes, and has been woken after that. */
  predicate SleepOk(w: World, k: TimerId) {
    k in w.asleep ==>
      && k in w.cells
      && if w.cells[k].completed then w.asleep[k] in w.woken else w.cells[k].waker == Some(TaskWaker(w.asleep[k]))
  }

  /** Whoever waits for handle `h` is in its empty slot until its task finishes, and has been woken after that. */
  predicate JoinOk(w: World, h: TaskId) {
    h in w.joining ==>
      && h in w.slots
      && if h in w.tasks then w.slots[h] == Slot(None, Some(TaskWaker(w.joining[h]))) else w.joining[h] in w.woken
  }

  ghost predicate WaitsOk(w: World) {
    (forall k: TimerId :: SleepOk(w, k)) && (forall h: TaskId :: JoinOk(w, h))
  }

  lemma JoinKeepsWait(w: World, me: TaskId, h: TaskId, n: nat)
    requires SleepOk(w, n) && JoinOk(w, n)
    ensures SleepOk(Acted(w, me, PollJoin(h)), n) && JoinOk(Acted(w, me, PollJoin(h)), n)
  {
  }

  lemma SleepKeepsWait(w: World, me: TaskId, k: TimerId, n: nat)
    requires SleepOk(w, n) && JoinOk(w, n)
    ensures SleepOk(Acted(w, me, PollSleep(k)), n) && JoinOk(Acted(w, me, PollSleep(k)), n)
  {
  }

  lemma ActKeepsWait(w: World, me: TaskId, a: Act, n: nat)
    requires SleepOk(w, n) && JoinOk(w, n)
    ensures SleepOk(Acted(w, me, a), n) && JoinOk(Acted(w, me, a), n)
  {
    match a
    case PollJoin(h) => JoinKeepsWait(w, me, h, n);
    case PollSleep(k) => SleepKeepsWait(w, me, k, n);
    case Wake(t) => assert Acted(w, me, a).slots == w.slots && Acted(w, me, a).cells == w.cells;
    case StartTimer(_, _, _) =>
  }

  lemma {:induction false} ActsKeepWaits(w: World, me: TaskId, acts: seq<Act>)
    requires WaitsOk(w)
    ensures WaitsOk(ActedAll(w, me, acts))
  {
    if acts != [] {
      var w1 := ActedAll(w, me, acts[..|acts| - 1]);
      ActsKeepWaits(w, me, acts[..|acts| - 1]);
      forall n: nat ensures SleepOk(ActedAll(w, me, acts), n) && JoinOk(ActedAll(w, me, acts), n) {
        assert SleepOk(w1, n) && JoinOk(w1, n);
        ActKeepsWait(w1, me, acts[|acts| - 1], n);
      }
    }
  }

  lemma EndKeepsWaits(w: World, t: TaskId, o: Outcome)
    requires WaitsOk(w)
    ensures WaitsOk(PollEnded(w, t, o))
  {
    forall n: nat ensures SleepOk(PollEnded(w, t, o), n) && JoinOk(PollEnded(w, t, o), n) {
      assert SleepOk(w, n) && JoinOk(w, n);
      if o.Ready? { FinishKeepsSleep(w, t, o.v, n); FinishKeepsJoin(w, t, o.v, n); }
    }
  }

  lemma FinishKeepsSleep(w: World, t: TaskId, v: Value, n: nat)
    requires SleepOk(w, n)
    ensures SleepOk(PollEnded(w, t, Outcome.Ready(v)), n)
  {
  }

  lemma FinishKeepsJoin(w: World, t: TaskId, v: Value, n: nat)
    requires JoinOk(w, n)
    ensures JoinOk(PollEnded(w, t, Outcome.Ready(v)), n)
  {
  }

  lemma StartKeepsWaits(w: World, t: TaskId)
    requires WaitsOk(w)
    ensures WaitsOk(PollBegun(w, t))
  {
    forall n: nat ensures SleepOk(PollBegun(w, t), n) && JoinOk(PollBegun(w, t), n) {
      assert SleepOk(w, n) && JoinOk(w, n);
    }
  }

  lemma SameWaits(w: World, w': World)
    requires WaitsOk(w) && w'.asleep == w.asleep && w'.joining == w.joining && w.woken <= w'.woken
    requires w'.cells == w.cells && w'.slots == w.slots && w'.tasks.Keys == w.tasks.Keys
    ensures WaitsOk(w')
  {
    forall n: nat ensures SleepOk(w', n) && JoinOk(w', n) { assert SleepOk(w, n) && JoinOk(w, n); }
  }

  lemma PollKeepsWaits(w: World, t: TaskId)
    requires WaitsOk(w)
    ensures WaitsOk(Polled(w, t))
  {
    StartKeepsWaits(w, t);
    if t in w.tasks && w.tasks[t] != [] {
      var w1, p := PollStarted(w, t), w.tasks[t][0];
      SameWaits(PollBegun(w, t), w1);
      ActsKeepWaits(w1, t, p.acts);
      EndKeepsWaits(ActedAll(w1, t, p.acts), t, p.outcome);
    }
  }

  lemma {:induction false} PollsKeepWaits(w: World, ids: seq<TaskId>)
    requires WaitsOk(w)
    ensures WaitsOk(PolledAll(w, ids))
  {
    if ids != [] {
      PollsKeepWaits(w, ids[..|ids| - 1]);
      PollKeepsWaits(PolledAll(w, ids[..|ids| - 1]), ids[|ids| - 1]);
    }
  }

  lemma {:induction false} TicksKeepWaits(w: World)
    requires WaitsOk(w)
    ensures WaitsOk(AllTicked(w))
    decreases Work(w.tasks), |w.ready.queue|
  {
    if w.ready.queue != [] {
      TickShrinks(w);
      SameWaits(w, w.(ready := EmptyReady));
      PollsKeepWaits(w.(ready := EmptyReady), w.ready.queue);
      TicksKeepWaits(Ticked(w).0);
    } else {
      SameWaits(w, AllTicked(w));
    }
  }

  lemma {:induction false} ProcessKeepsWaits(w: World, now: nat)
    requires WaitsOk(w)
    ensures WaitsOk(Processed(w, now).0)
    decreases |w.heap|
  {
    if w.heap != {} && Earliest(w.heap).deadline <= now {
      var w1 := Fired(w, Earliest(w.heap));
      FiredShrinks(w, Earliest(w.heap));
      forall n: nat ensures SleepOk(w1, n) && JoinOk(w1, n) {
        assert SleepOk(w, n) && JoinOk(w, n);
        FireKeepsWait(w, Earliest(w.heap), n);
      }
      ProcessKeepsWaits(w1, now);
    }
  }

  lemma FireKeepsWait(w: World, e: Entry, n: nat)
    requires SleepOk(w, n) && JoinOk(w, n)
    ensures SleepOk(Fired(w, e), n) && JoinOk(Fired(w, e), n)
  {
  }

  lemma {:induction false} WakesKeepWaits(w: World, ts: seq<TaskId>)
    requires WaitsOk(w)
    ensures WaitsOk(WokeAll(w, ts))
  {
    if ts != [] {
      WakesKeepWaits(w, ts[..|ts| - 1]);
      SameWaits(WokeAll(w, ts[..|ts| - 1]), WokeAll(w, ts));
    }
  }

  lemma HandlePollKeepsWaits(w: World, h: TaskId, k: Waker)
    requires WaitsOk(w) && h in w.slots
    ensures WaitsOk(HandlePolled(w, h, k).0)
  {
    forall n: nat ensures SleepOk(HandlePolled(w, h, k).0, n) && JoinOk(HandlePolled(w, h, k).0, n) {
      assert SleepOk(w, n) && JoinOk(w, n);
    }
  }

  lemma SleptKeepsWaits(w: World, root: TaskId, env: Env)
    requires WaitsOk(w) && root in w.slots
    ensures WaitsOk(Slept(w, root, env).0)
  {
    var w1 := Processed(w, env.now).0;
    ProcessKeepsWaits(w, env.now);
    ProcessedKeepsSlots(w, env.now);
    HandlePollKeepsWaits(w1, root, FlagWaker);
    WakesKeepWaits(w1, env.wakes);
    ProcessKeepsWaits(WokeAll(w1, env.wakes), env.later);
  }

  /** Between any two rounds nobody waits for a Sleep or a handle that has forgotten them. */
  lemma RoundKeepsWaits(w: World, root: TaskId, env: Env)
    requires WaitsOk(w) && root in w.slots
    ensures WaitsOk(Round(w, root, env).0)
  {
    TicksKeepWaits(w);
    AllTickedKeepsSlots(w);
    var w1 := AllTicked(w);
    var w2 := Checked(w1, root).0;
    if w1.flag {
      SameWaits(w1, w1.(flag := false));
      HandlePollKeepsWaits(w1.(flag := false), root, FlagWaker);
    }
    if w2.tasks == map[] {
      HandlePollKeepsWaits(w2, root, FlagWaker);
      SleptKeepsWaits(HandlePolled(w2, root, FlagWaker).0, root, env);
    } else {
      SleptKeepsWaits(w2, root, env);
    }
  }

  // ---- When it blocks ----

  /** The world in which step 6 of a round calls the reactor. */
  ghost function AtReactor(w: World, root: TaskId, env: Env): World
    requires root in w.slots
  {
    var w1 := AllTicked(w);
    AllTickedKeepsSlots(w);
    var w2 := Checked(w1, root).0;
    Processed(w2, env.now).0
  }

  /**
   The loop waits in the reactor only with an empty queue, with the root live and its result
   absent, and with no woken live task anywhere.
   */
  lemma BlocksOnlyWhenIdle(w: World, root: TaskId, f: Future, env: Env)
    requires RootOk(w, root, f) && WokenAhead(w, []) && Round(w, root, env).1.Blocked?
    ensures var b := AtReactor(w, root, env);
            && b.ready.queue == [] && root in b.tasks && root in b.slots && b.slots[root].result.None?
            && (forall t :: t in b.woken ==> t !in b.tasks)
  {
    TicksKeepRoot(w, root, f);
    TicksKeepAhead(w);
    var w1 := AllTicked(w);
    if w1.slots[root].result.None? {
      var w2 := Checked(w1, root).0;
      ProcessKeepsRoot(w2, env.now, root, f);
      ProcessedKeepsSlots(w2, env.now);
      ProcessKeepsAhead(w2, env.now);
    }
  }
}
