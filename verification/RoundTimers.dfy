/** Timers in the rounds of `block_on`: fired when due, never early, and in time to end a wait. */
module RoundTimers {
  import opened Options
  import opened ReadyQueues
  import opened SingleThread
  import opened BlockOn
  import opened RoundWakes

  predicate InHeap(heap: set<Entry>, k: TimerId) {
    exists e :: e in heap && e.id == k
  }

  /** The uncompleted cells are exactly those of the heap entries, one each. */
  predicate HeapOk(w: World) {
    && (forall e :: e in w.heap ==> e.id in w.cells && !w.cells[e.id].completed)
    && (forall k :: k in w.cells && !w.cells[k].completed ==> InHeap(w.heap, k))
    && (forall e, f :: e in w.heap && f in w.heap && e.id == f.id ==> e == f)
  }

  /** `process` takes exactly the due entries out of the heap and reports the gap to the next one. */
  lemma {:induction false} ProcessTakesDue(w: World, now: nat)
    ensures var (w', next) := Processed(w, now);
            && w'.heap == (set e | e in w.heap && e.deadline > now)
            && (next.None? <==> w'.heap == {})
            && (next.Some? ==> w'.heap != {} && next.value > 0 && Earliest(w'.heap).deadline == now + next.value)
    decreases |w.heap|
  {
    if w.heap != {} {
      var e := Earliest(w.heap);
      if e.deadline <= now {
        FiredShrinks(w, e);
        ProcessTakesDue(Fired(w, e), now);
        assert w.heap == Fired(w, e).heap + {e};
      } else {
        assert forall f :: f in w.heap ==> f.deadline > now;
        assert w.heap == (set f | f in w.heap && f.deadline > now);
      }
    }
  }

  predicate Due(heap: set<Entry>, k: TimerId, now: nat) {
    exists e :: e in heap && e.id == k && e.deadline <= now
  }

  lemma FiredKeepsHeap(w: World, e: Entry)
    requires HeapOk(w) && e in w.heap
    ensures HeapOk(Fired(w, e)) && Fired(w, e).cells == w.cells[e.id := Cell(true, None)]
  {
  }

  /** `process` completes exactly the timers that are due, and no timer early. */
  lemma {:induction false} ProcessCompletesDue(w: World, now: nat, k: TimerId)
    requires HeapOk(w) && k in w.cells
    ensures var w' := Processed(w, now).0;
            HeapOk(w') && k in w'.cells && (w'.cells[k].completed <==> w.cells[k].completed || Due(w.heap, k, now))
    decreases |w.heap|
  {
    if w.heap != {} {
      var e := Earliest(w.heap);
      if e.deadline <= now {
        FiredShrinks(w, e);
        FiredKeepsHeap(w, e);
        ProcessCompletesDue(Fired(w, e), now, k);
        DueSplits(w.heap, e, k, now);
      } else {
        assert forall f :: f in w.heap ==> f.deadline > now;
      }
    }
  }

  lemma DueSplits(heap: set<Entry>, e: Entry, k: TimerId, now: nat)
    requires e in heap && e.deadline <= now
    ensures Due(heap, k, now) <==> Due(heap - {e}, k, now) || e.id == k
  {
    if Due(heap, k, now) && e.id != k {
      var f :| f in heap && f.id == k && f.deadline <= now;
      assert f in heap - {e};
    }
  }

  lemma {:induction false} ProcessKeepsHeap(w: World, now: nat)
    requires HeapOk(w)
    ensures HeapOk(Processed(w, now).0)
    decreases |w.heap|
  {
    if w.heap != {} && Earliest(w.heap).deadline <= now {
      FiredShrinks(w, Earliest(w.heap));
      FiredKeepsHeap(w, Earliest(w.heap));
      ProcessKeepsHeap(Fired(w, Earliest(w.heap)), now);
    }
  }

  lemma {:induction false} WakesKeepHeap(w: World, ts: seq<TaskId>)
    ensures WokeAll(w, ts).heap == w.heap && WokeAll(w, ts).cells == w.cells
  {
    if ts != [] { WakesKeepHeap(w, ts[..|ts| - 1]); }
  }

  lemma ActKeepsHeap(w: World, me: TaskId, a: Act)
    requires HeapOk(w)
    ensures HeapOk(Acted(w, me, a))
  {
    match a
    case StartTimer(id, deadline, tie) =>
      if id !in w.cells { StartKeepsHeap(w, Entry(deadline, tie, id)); }
    case PollSleep(id) =>
    case _ => SameHeap(w, Acted(w, me, a));
  }

  lemma SameHeap(w: World, w': World)
    requires HeapOk(w) && w'.heap == w.heap && w'.cells == w.cells
    ensures HeapOk(w')
  {
  }

  lemma StartKeepsHeap(w: World, e: Entry)
    requires HeapOk(w) && e.id !in w.cells
    ensures HeapOk(w.(heap := w.heap + {e}, cells := w.cells[e.id := Cell(false, None)]))
  {
    assert e in w.heap + {e};
  }

  lemma {:induction false} ActsKeepHeap(w: World, me: TaskId, acts: seq<Act>)
    requires HeapOk(w)
    ensures HeapOk(ActedAll(w, me, acts))
  {
    if acts != [] {
      ActsKeepHeap(w, me, acts[..|acts| - 1]);
      ActKeepsHeap(ActedAll(w, me, acts[..|acts| - 1]), me, acts[|acts| - 1]);
    }
  }

  lemma {:induction false} PollsKeepHeap(w: World, ids: seq<TaskId>)
    requires HeapOk(w)
    ensures HeapOk(PolledAll(w, ids))
  {
    if ids != [] {
      PollsKeepHeap(w, ids[..|ids| - 1]);
      PollKeepsHeap(PolledAll(w, ids[..|ids| - 1]), ids[|ids| - 1]);
    }
  }

  lemma PollKeepsHeap(w: World, t: TaskId)
    requires HeapOk(w)
    ensures HeapOk(Polled(w, t))
  {
    if t in w.tasks && w.tasks[t] != [] {
      var w1, p := PollStarted(w, t), w.tasks[t][0];
      assert HeapOk(w1);
      ActsKeepHeap(w1, t, p.acts);
      EndKeepsHeap(ActedAll(w1, t, p.acts), t, p.outcome);
    }
  }

  lemma EndKeepsHeap(w: World, t: TaskId, o: Outcome)
    ensures PollEnded(w, t, o).heap == w.heap && PollEnded(w, t, o).cells == w.cells
  {
  }

  lemma {:induction false} TicksKeepHeap(w: World)
    requires HeapOk(w)
    ensures HeapOk(AllTicked(w))
    decreases Work(w.tasks), |w.ready.queue|
  {
    if w.ready.queue != [] {
      TickShrinks(w);
      PollsKeepHeap(w.(ready := EmptyReady), w.ready.queue);
      TicksKeepHeap(Ticked(w).0);
    }
  }

  lemma SleptKeepsHeap(w: World, root: TaskId, env: Env)
    requires HeapOk(w) && root in w.slots
    ensures HeapOk(Slept(w, root, env).0)
  {
    ProcessKeepsHeap(w, env.now);
    ProcessedKeepsSlots(w, env.now);
    WakesKeepHeap(Processed(w, env.now).0, env.wakes);
    ProcessKeepsHeap(WokeAll(Processed(w, env.now).0, env.wakes), env.later);
  }

  /** In every round a heap entry belongs to one uncompleted Sleep. */
  lemma RoundKeepsHeap(w: World, root: TaskId, env: Env)
    requires HeapOk(w) && root in w.slots
    ensures HeapOk(Round(w, root, env).0)
  {
    TicksKeepHeap(w);
    AllTickedKeepsSlots(w);
    var w1 := AllTicked(w);
    var w2 := Checked(w1, root).0;
    assert HeapOk(w2);
    if w2.tasks == map[] { SleptKeepsHeap(HandlePolled(w2, root, FlagWaker).0, root, env); }
    else { SleptKeepsHeap(w2, root, env); }
  }

  /**
   When a round waits for the next timer and the wait runs its full length, the `process` that
   follows fires at least one timer, provided the deadline is within the cap of the timeout.
   */
  lemma FullWaitFiresATimer(w: World, root: TaskId, f: Future, env: Env)
    requires RootOk(w, root, f) && Round(w, root, env).1.Blocked?
    requires AtReactor(w, root, env).heap != {}
    requires TimerWheels.RanFully(env.now, Round(w, root, env).1.timeout, env.later)
    requires Round(w, root, env).1.timeout <= TimerWheels.I32_MAX * NS_PER_MS
    ensures Round(w, root, env).0.heap < AtReactor(w, root, env).heap
  {
    TicksKeepRoot(w, root, f);
    var w1 := AllTicked(w);
    AllTickedKeepsSlots(w);
    if w1.slots[root].result.None? {
      var w2 := Checked(w1, root).0;
      SleptFiresATimer(w2, root, env);
    }
  }

  lemma SleptFiresATimer(w: World, root: TaskId, env: Env)
    requires root in w.slots && Slept(w, root, env).1.Blocked? && Processed(w, env.now).0.heap != {}
    requires TimerWheels.RanFully(env.now, Slept(w, root, env).1.timeout, env.later)
    requires Slept(w, root, env).1.timeout <= TimerWheels.I32_MAX * NS_PER_MS
    ensures Slept(w, root, env).0.heap < Processed(w, env.now).0.heap
  {
    var w1 := Processed(w, env.now).0;
    ProcessTakesDue(w, env.now);
    TimerWheels.FullWaitReachesDeadline(env.now, Slept(w, root, env).1.timeout);
    var e := Earliest(w1.heap);
    assert e.deadline <= env.later;
    WakesKeepHeap(w1, env.wakes);
    ProcessTakesDue(WokeAll(w1, env.wakes), env.later);
    assert e in w1.heap && e !in Slept(w, root, env).0.heap;
  }

  // ---- All rounds ----

  ghost predicate RoundInv(w: World) {
    WokenAhead(w, []) && WaitsOk(w) && HeapOk(w)
  }

  lemma SpawnKeepsInv(w: World, t: TaskId, f: Future, handOut: bool)
    requires RoundInv(w)
    ensures RoundInv(Spawned(w, t, f, handOut))
  {
    var w' := Spawned(w, t, f, handOut);
    SpawnKeepsAhead(w, t, f, handOut);
    forall n: nat ensures SleepOk(w', n) && JoinOk(w', n) { assert SleepOk(w, n) && JoinOk(w, n); }
    SameHeap(w, w');
  }

  lemma EnteredKeepsInv(w: World, root: TaskId, f: Future)
    requires RoundInv(w)
    ensures RoundInv(Entered(w, root, f))
  {
    SpawnKeepsInv(w, root, f, false);
    var w1 := Spawned(w, root, f, false);
    SameWaits(w1, w1.(flag := true));
    SameHeap(w1, w1.(flag := true));
  }

  lemma {:induction false} RoundsKeepInv(w: World, root: TaskId, envs: seq<Env>)
    requires RoundInv(w) && root in w.slots
    ensures RoundInv(Rounds(w, root, envs).0)
    decreases |envs|
  {
    if envs != [] {
      var (w1, x) := Round(w, root, envs[0]);
      RoundKeepsSlots(w, root, envs[0]);
      RoundKeepsAhead(w, root, envs[0]);
      RoundKeepsWaits(w, root, envs[0]);
      RoundKeepsHeap(w, root, envs[0]);
      if x.Continued? || x.Blocked? { RoundsKeepInv(w1, root, envs[1..]); }
    }
  }

  // ---- Every world a program can reach ----

  /** What a program does with its runtime, one call after the other. */
  datatype Call =
    | Spawn(t: TaskId, f: Future)
    | CallWaker(t: TaskId)
    | Sleep(id: TimerId, deadline: nat, tie: nat)
    | BlockOn(root: TaskId, f: Future, envs: seq<Env>)

  ghost function Called(w: World, call: Call): World {
    match call
    case Spawn(t, f) => Spawned(w, t, f, true)
    case CallWaker(t) => Woke(w, TaskWaker(t))
    case Sleep(id, deadline, tie) =>
      if id in w.cells then w
      else w.(heap := w.heap + {Entry(deadline, tie, id)}, cells := w.cells[id := Cell(false, None)])
    case BlockOn(root, f, envs) => Rounds(Entered(w, root, f), root, envs).0
  }

  ghost function Program(calls: seq<Call>): World {
    if calls == [] then EmptyWorld else Called(Program(calls[..|calls| - 1]), calls[|calls| - 1])
  }

  lemma CallKeepsInv(w: World, call: Call)
    requires RoundInv(w)
    ensures RoundInv(Called(w, call))
  {
    match call
    case Spawn(t, f) => SpawnKeepsInv(w, t, f, true);
    case CallWaker(t) =>
      WokeKeepsAhead(w, TaskWaker(t), []);
      SameWaits(w, Called(w, call));
      SameHeap(w, Called(w, call));
    case Sleep(id, deadline, tie) =>
      if id !in w.cells {
        StartKeepsHeap(w, Entry(deadline, tie, id));
        forall n: nat ensures SleepOk(Called(w, call), n) && JoinOk(Called(w, call), n) { assert SleepOk(w, n) && JoinOk(w, n); }
      }
    case BlockOn(root, f, envs) =>
      EnteredKeepsInv(w, root, f);
      RoundsKeepInv(Entered(w, root, f), root, envs);
  }

  /** Every world a program can reach has its wakes queued, its waiters registered and its timers in the heap. */
  lemma {:induction false} ProgramInv(calls: seq<Call>)
    ensures RoundInv(Program(calls))
  {
    if calls != [] {
      ProgramInv(calls[..|calls| - 1]);
      CallKeepsInv(Program(calls[..|calls| - 1]), calls[|calls| - 1]);
    }
  }

  /**
   In every world a program can reach, when the last poll of a Sleep by `asleep[k]` was pending
   and its wake has not been answered by a poll: until the timer completes, it is in the heap and
   holds the task's waker; after that the task, if live, is in the ready queue.
   */
  lemma SleeperWillBeWoken(calls: seq<Call>, k: TimerId)
    requires k in Program(calls).asleep
    ensures var w := Program(calls);
            && k in w.cells
            && (!w.cells[k].completed ==> InHeap(w.heap, k) && w.cells[k].waker == Some(TaskWaker(w.asleep[k])))
            && (w.cells[k].completed && w.asleep[k] in w.tasks ==> w.asleep[k] in w.ready.queue)
  {
    ProgramInv(calls);
    assert SleepOk(Program(calls), k);
  }

  /** The same for a join handle: until its task finishes the empty slot holds the waker; then the awaiter is queued. */
  lemma JoinerWillBeWoken(calls: seq<Call>, h: TaskId)
    requires h in Program(calls).joining
    ensures var w := Program(calls);
            && h in w.slots
            && (h in w.tasks ==> w.slots[h] == Slot(None, Some(TaskWaker(w.joining[h]))))
            && (h !in w.tasks && w.joining[h] in w.tasks ==> w.joining[h] in w.ready.queue)
  {
    ProgramInv(calls);
    assert JoinOk(Program(calls), h);
  }
}
