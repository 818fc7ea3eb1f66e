/** What the single-threaded runtime does, not only what it keeps: polls, acts, rounds and waits. */
module RoundProgress {
  import opened Options
  import opened ReadyQueues
  import opened SingleThread
  import opened BlockOn
  import opened RoundWakes
  import opened RoundTimers

  // ---- Spawning and handles ----

  /** A spawned task is live with its whole future, queued, and its handle is where `spawn` leaves it. */
  lemma SpawnQueues(w: World, t: TaskId, f: Future, handOut: bool)
    requires w.ready.Valid()
    ensures var w' := Spawned(w, t, f, handOut);
            && w'.tasks == w.tasks[t := f] && w'.slots == w.slots[t := Slot(None, None)]
            && t in w'.ready.queue && w.ready.queue <= w'.ready.queue && (t in w'.handles <==> handOut)
  {
  }

  /** A stored value is handed out by the next poll of the handle and by no later one. */
  lemma HandleGivesOnce(w: World, t: TaskId, k: Waker, k2: Waker)
    requires t in w.slots
    ensures var (w1, v) := HandlePolled(w, t, k);
            && v == w.slots[t].result && t in w1.slots && HandlePolled(w1, t, k2).1.None?
            && (v.None? ==> w1.slots[t].waker == Some(k))
  {
  }

  // ---- What a future does while it is polled ----

  /** Act `a` of task `me`, done in world `w`, has left its mark in `w'`. */
  predicate HasDone(w: World, me: TaskId, a: Act, w': World) {
    match a
    case Wake(u) => u in w'.ready.queue && u in w'.woken
    case StartTimer(id, deadline, tie) =>
      id !in w.cells ==> Entry(deadline, tie, id) in w'.heap && id in w'.cells && !w'.cells[id].completed
    case PollSleep(k) =>
      k in w.cells && !w.cells[k].completed ==>
        k in w'.cells && w'.cells[k] == Cell(false, Some(TaskWaker(me))) && k in w'.asleep && w'.asleep[k] == me
    case PollJoin(h) =>
      h in w.handles && h in w.slots ==>
        && h in w'.slots && w'.slots[h].result.None?
        && (w.slots[h].result.None? ==> w'.slots[h].waker == Some(TaskWaker(me)))
  }

  lemma ActDoes(w: World, me: TaskId, a: Act)
    requires w.ready.Valid()
    ensures HasDone(w, me, a, Acted(w, me, a)) && Acted(w, me, a).ready.Valid()
  {
    if a.Wake? { w.ready.EnqueueKeeps(a.t); }
  }

  lemma TimerMarkStays(w: World, me: TaskId, a: Act, w1: World, b: Act)
    requires HasDone(w, me, a, w1) && (a.StartTimer? || a.PollSleep?)
    ensures HasDone(w, me, a, Acted(w1, me, b))
  {
  }

  lemma JoinMarkStays(w: World, me: TaskId, h: TaskId, w1: World, b: Act)
    requires HasDone(w, me, PollJoin(h), w1)
    ensures HasDone(w, me, PollJoin(h), Acted(w1, me, b))
  {
  }

  /** A later act of the same poll leaves the mark alone. */
  lemma MarkStays(w: World, me: TaskId, a: Act, w1: World, b: Act)
    requires HasDone(w, me, a, w1)
    ensures HasDone(w, me, a, Acted(w1, me, b))
  {
    match a
    case Wake(_) =>
    case PollJoin(h) => JoinMarkStays(w, me, h, w1, b);
    case _ => TimerMarkStays(w, me, a, w1, b);
  }

  lemma {:induction false} ActsKeepValid(w: World, me: TaskId, acts: seq<Act>)
    requires w.ready.Valid()
    ensures ActedAll(w, me, acts).ready.Valid()
  {
    if acts != [] {
      ActsKeepValid(w, me, acts[..|acts| - 1]);
      ActDoes(ActedAll(w, me, acts[..|acts| - 1]), me, acts[|acts| - 1]);
    }
  }

  /** Every act of a poll is done, in the world its predecessors made. */
  lemma {:induction false} ActsDo(w: World, me: TaskId, acts: seq<Act>, n: nat)
    requires w.ready.Valid() && n < |acts|
    ensures HasDone(ActedAll(w, me, acts[..n]), me, acts[n], ActedAll(w, me, acts))
    decreases |acts|
  {
    var init, last := acts[..|acts| - 1], acts[|acts| - 1];
    ActsKeepValid(w, me, init);
    if n == |init| {
      ActDoes(ActedAll(w, me, init), me, last);
    } else {
      ActsDo(w, me, init, n);
      assert init[..n] == acts[..n];
      MarkStays(ActedAll(w, me, acts[..n]), me, acts[n], ActedAll(w, me, init), last);
    }
  }

  // ---- What a poll does ----

  /**
   A poll of a live task that has polls left uses up one of them: a pending task is left with the
   rest, a ready one is gone and its value is in the slot.  No other task is touched.
   */
  lemma PollUsesOne(w: World, t: TaskId)
    requires t in w.tasks && w.tasks[t] != []
    ensures var p, w' := w.tasks[t][0], Polled(w, t);
            match p.outcome
            case Pending => w'.tasks == w.tasks[t := w.tasks[t][1..]]
            case Ready(v) => w'.tasks == w.tasks - {t} && (t in w.slots ==> t in w'.slots && w'.slots[t] == Slot(Some(v), None))
  {
    var w1, acts := PollStarted(w, t), w.tasks[t][0].acts;
    ActsKeepTasks(w1, t, acts);
    ActsKeepSlots(w1, t, acts);
    assert w.tasks[t := w.tasks[t][1..]] - {t} == w.tasks - {t};
  }

  /** And it does all its acts: only the slot of a task that finishes by this poll changes afterwards. */
  lemma PollActs(w: World, t: TaskId, n: nat)
    requires w.ready.Valid() && t in w.tasks && w.tasks[t] != [] && n < |w.tasks[t][0].acts|
    requires w.tasks[t][0].acts[n] != PollJoin(t)
    ensures var acts := w.tasks[t][0].acts;
            HasDone(ActedAll(PollStarted(w, t), t, acts[..n]), t, acts[n], Polled(w, t))
  {
    var w1, acts := PollStarted(w, t), w.tasks[t][0].acts;
    ActsDo(w1, t, acts, n);
    ActsKeepValid(w1, t, acts);
    EndKeepsMark(ActedAll(w1, t, acts[..n]), t, acts[n], ActedAll(w1, t, acts), w.tasks[t][0].outcome);
  }

  lemma EndKeepsMark(w: World, t: TaskId, a: Act, w1: World, o: Outcome)
    requires HasDone(w, t, a, w1) && a != PollJoin(t) && w1.ready.Valid()
    ensures HasDone(w, t, a, PollEnded(w1, t, o))
  {
  }

  // ---- Rounds use up polls ----

  /** How many polls a future needs to be ready, or all it has if it never is. */
  function Needed(f: Future): nat {
    if f == [] then 0 else if f[0].outcome.Ready? then 1 else 1 + Needed(f[1..])
  }

  function Left(w: World, t: TaskId): nat {
    if t in w.tasks then Needed(w.tasks[t]) else 0
  }

  lemma OnePoll(w: World, t: TaskId, u: TaskId)
    ensures Left(Polled(w, u), t) == if u == t && Left(w, t) > 0 then Left(w, t) - 1 else Left(w, t)
  {
    if u in w.tasks && w.tasks[u] != [] { PollUsesOne(w, u); }
  }

  lemma {:induction false} PollsUse(w: World, ids: seq<TaskId>, t: TaskId)
    ensures Left(PolledAll(w, ids), t) <= Left(w, t)
    ensures t in ids && Left(w, t) > 0 ==> Left(PolledAll(w, ids), t) < Left(w, t)
  {
    if ids != [] {
      var init, u := ids[..|ids| - 1], ids[|ids| - 1];
      PollsUse(w, init, t);
      OnePoll(PolledAll(w, init), t, u);
      assert t in ids ==> t in init || t == u;
    }
  }

  /** A tick polls every task that was ready, live and not done with its polls. */
  lemma TickPollsReady(w: World, t: TaskId)
    requires t in w.ready.queue && Left(w, t) > 0
    ensures Left(Ticked(w).0, t) < Left(w, t)
  {
    PollsUse(w.(ready := EmptyReady), w.ready.queue, t);
  }

  lemma {:induction false} TicksUse(w: World, t: TaskId)
    ensures Left(AllTicked(w), t) <= Left(w, t)
    ensures t in w.ready.queue && Left(w, t) > 0 ==> Left(AllTicked(w), t) < Left(w, t)
    decreases Work(w.tasks), |w.ready.queue|
  {
    if w.ready.queue != [] {
      TickShrinks(w);
      PollsUse(w.(ready := EmptyReady), w.ready.queue, t);
      TicksUse(Ticked(w).0, t);
    }
  }

  lemma SleptKeepsTasks(w: World, root: TaskId, env: Env)
    requires root in w.slots
    ensures Slept(w, root, env).0.tasks == w.tasks
  {
    var w1 := Processed(w, env.now).0;
    ProcessedKeepsSlots(w, env.now);
    WakesKeepSlots(w1, env.wakes);
    ProcessedKeepsSlots(WokeAll(w1, env.wakes), env.later);
  }

  lemma RoundKeepsTasks(w: World, root: TaskId, env: Env)
    requires root in w.slots
    ensures Round(w, root, env).0.tasks == AllTicked(w).tasks
  {
    AllTickedKeepsSlots(w);
    var w2 := Checked(AllTicked(w), root).0;
    if w2.tasks == map[] { SleptKeepsTasks(HandlePolled(w2, root, FlagWaker).0, root, env); }
    else { SleptKeepsTasks(w2, root, env); }
  }

  /** How many of the rounds start with the root in the ready queue. */
  ghost function QueuedRounds(w: World, root: TaskId, envs: seq<Env>): nat
    requires root in w.slots
    decreases |envs|
  {
    if envs == [] then 0
    else
      var (w1, x) := Round(w, root, envs[0]);
      RoundKeepsSlots(w, root, envs[0]);
      (if root in w.ready.queue then 1 else 0) +
      (if x.Continued? || x.Blocked? then QueuedRounds(w1, root, envs[1..]) else 0)
  }

  lemma NothingLeft(w: World, root: TaskId, f: Future)
    requires RootOk(w, root, f) && Output(f).Some? && Left(w, root) == 0
    ensures w.slots[root].result == Output(f)
  {
  }

  lemma {:induction false} RoundsReturn(w: World, root: TaskId, f: Future, envs: seq<Env>)
    requires RootOk(w, root, f) && Output(f).Some? && root in w.tasks && QueuedRounds(w, root, envs) >= Left(w, root)
    ensures Rounds(w, root, envs).1 == Ended(Returned(Output(f).value))
    decreases |envs|
  {
    assert Left(w, root) > 0;
    RoundKeepsRoot(w, root, f, envs[0]);
    TicksUse(w, root);
    TicksKeepRoot(w, root, f);
    RoundKeepsTasks(w, root, envs[0]);
    var (w1, x) := Round(w, root, envs[0]);
    if Left(AllTicked(w), root) == 0 {
      NothingLeft(AllTicked(w), root, f);
    } else {
      RoundsReturn(w1, root, f, envs[1..]);
    }
  }

  /**
   block_on returns the root future's output once the root has been in the ready queue at the
   start of as many rounds as its future needs polls, whatever else goes on.
   */
  lemma BlockOnReturns(w: World, root: TaskId, f: Future, envs: seq<Env>)
    requires Output(f).Some? && QueuedRounds(Entered(w, root, f), root, envs) >= Needed(f)
    ensures Rounds(Entered(w, root, f), root, envs).1 == Ended(Returned(Output(f).value))
  {
    RoundsReturn(Entered(w, root, f), root, f, envs);
  }

  /** A future that is ready at once is returned by the first round. */
  lemma ReadyAtOnce(w: World, root: TaskId, f: Future, envs: seq<Env>)
    requires w.ready.Valid() && f != [] && f[0].outcome.Ready? && envs != []
    ensures Rounds(Entered(w, root, f), root, envs).1 == Ended(Returned(f[0].outcome.v))
  {
    SpawnQueues(w, root, f, false);
    assert root in Entered(w, root, f).ready.queue;
    BlockOnReturns(w, root, f, envs);
  }

  // ---- The wait ----

  lemma {:induction false} WakesQueue(w: World, ts: seq<TaskId>, t: TaskId)
    requires w.ready.Valid()
    ensures WokeAll(w, ts).ready.Valid() && w.ready.queue <= WokeAll(w, ts).ready.queue
    ensures t in ts ==> t in WokeAll(w, ts).ready.queue
  {
    if ts != [] {
      var init, u := ts[..|ts| - 1], ts[|ts| - 1];
      WakesQueue(w, init, t);
      WokeAll(w, init).ready.EnqueueKeeps(u);
      assert t in ts ==> t in init || t == u;
    }
  }

  lemma {:induction false} ProcessOnlyQueues(w: World, now: nat)
    ensures w.ready.queue <= Processed(w, now).0.ready.queue
    decreases |w.heap|
  {
    if w.heap != {} && Earliest(w.heap).deadline <= now {
      FiredShrinks(w, Earliest(w.heap));
      ProcessOnlyQueues(Fired(w, Earliest(w.heap)), now);
    }
  }

  /** The wait is for the gap to the earliest timer, or 5 ms without timers. */
  ghost predicate IsWait(b: World, now: nat, timeout: nat) {
    && b.ready.queue == []
    && (b.heap != {} ==> timeout > 0 && exists e :: IsEarliest(b.heap, e) && now + timeout == e.deadline)
    && (b.heap == {} ==> timeout == 5 * NS_PER_MS)
  }

  lemma SleptTimeout(w: World, root: TaskId, env: Env)
    requires root in w.slots && Slept(w, root, env).1.Blocked?
    ensures IsWait(Processed(w, env.now).0, env.now, Slept(w, root, env).1.timeout)
  {
    ProcessTakesDue(w, env.now);
    var b := Processed(w, env.now).0;
    if b.heap != {} { assert IsEarliest(b.heap, Earliest(b.heap)); }
  }

  /** After the wait, and a second `process`: whoever was woken is queued, and nothing due is left. */
  predicate IsAfterWait(b: World, env: Env, w': World) {
    && (forall t :: t in env.wakes ==> t in w'.ready.queue)
    && w'.heap == (set e | e in b.heap && e.deadline > env.later)
  }

  lemma WaitEnds(b: World, env: Env)
    requires b.ready.Valid()
    ensures IsAfterWait(b, env, Processed(WokeAll(b, env.wakes), env.later).0)
  {
    var w2 := WokeAll(b, env.wakes);
    WakesKeepHeap(b, env.wakes);
    ProcessTakesDue(w2, env.later);
    ProcessOnlyQueues(w2, env.later);
    forall t | t in env.wakes ensures t in Processed(w2, env.later).0.ready.queue {
      WakesQueue(b, env.wakes, t);
      assert t in w2.ready.queue;
    }
  }

  lemma SleptWaits(w: World, root: TaskId, env: Env)
    requires root in w.slots && WokenAhead(w, []) && Slept(w, root, env).1.Blocked?
    ensures IsWait(Processed(w, env.now).0, env.now, Slept(w, root, env).1.timeout)
    ensures IsAfterWait(Processed(w, env.now).0, env, Slept(w, root, env).0)
  {
    SleptTimeout(w, root, env);
    ProcessKeepsAhead(w, env.now);
    WaitEnds(Processed(w, env.now).0, env);
  }

  /** A round that skips the wait has a ready task; one that waits does it as said above. */
  lemma RoundWaits(w: World, root: TaskId, f: Future, env: Env)
    requires RootOk(w, root, f) && WokenAhead(w, [])
    ensures var b, (w', x) := AtReactor(w, root, env), Round(w, root, env);
            && (x.Continued? ==> w'.ready.queue != [])
            && (x.Blocked? ==> IsWait(b, env.now, x.timeout) && IsAfterWait(b, env, w'))
  {
    TicksKeepRoot(w, root, f);
    TicksKeepAhead(w);
    var w1 := AllTicked(w);
    if w1.slots[root].result.None? {
      var w2 := Checked(w1, root).0;
      if Slept(w2, root, env).1.Blocked? { SleptWaits(w2, root, env); }
    }
  }

  // ---- Timers in order ----

  function FiredAll(w: World, es: seq<Entry>): World
    decreases |es|
  {
    if es == [] then w else FiredAll(Fired(w, es[0]), es[1..])
  }

  predicate InOrder(es: seq<Entry>) { forall i, j :: 0 <= i < j < |es| ==> es[i].deadline <= es[j].deadline && es[i] != es[j] }

  lemma OrderExtends(e: Entry, rest: seq<Entry>)
    requires InOrder(rest) && forall x :: x in rest ==> e.deadline <= x.deadline && x != e
    ensures InOrder([e] + rest)
  {
    var es := [e] + rest;
    forall i, j | 0 <= i < j < |es| ensures es[i].deadline <= es[j].deadline && es[i] != es[j] {
      assert es[j] == rest[j - 1] && es[j] in rest;
      if i > 0 { assert es[i] == rest[i - 1]; }
    }
  }

  lemma FiredFirst(w: World, e: Entry, rest: seq<Entry>)
    ensures FiredAll(w, [e] + rest) == FiredAll(Fired(w, e), rest)
  {
    assert ([e] + rest)[1..] == rest;
  }

  /** `process` fires the due timers one after the other, earliest deadline first, each once. */
  lemma {:induction false} ProcessFiresInOrder(w: World, now: nat) returns (es: seq<Entry>)
    ensures Processed(w, now).0 == FiredAll(w, es) && InOrder(es)
    ensures forall e :: e in es <==> e in w.heap && e.deadline <= now
    decreases |w.heap|
  {
    es := [];
    if w.heap != {} {
      var e := Earliest(w.heap);
      if e.deadline <= now {
        FiredShrinks(w, e);
        var rest := ProcessFiresInOrder(Fired(w, e), now);
        FiredFirst(w, e, rest);
        OrderExtends(e, rest);
        es := [e] + rest;
      }
    }
  }
}
