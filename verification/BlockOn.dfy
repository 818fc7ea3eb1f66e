/** What `block_on` of the single-threaded runtime guarantees, for all futures and all surroundings. */
module BlockOn {
  import opened Options
  import opened ReadyQueues
  import opened SingleThread

  /** The value a future returns, if its list of polls gets that far. */
  function Output(f: Future): Option<Value> {
    if f == [] then None
    else if f[0].outcome.Ready? then Some(f[0].outcome.v)
    else Output(f[1..])
  }

  /**
   The root task is live exactly while its result is absent; a stored result is the future's
   own output and its flag is up; until then the flag is up or the flag waker is in the slot.
   */
  predicate RootOk(w: World, root: TaskId, f: Future) {
    && root in w.slots && root !in w.handles
    && (if w.slots[root].result.Some? then
          root !in w.tasks && w.flag && w.slots[root].result == Output(f)
        else
          && root in w.tasks && Output(w.tasks[root]) == Output(f)
          && (w.flag || w.slots[root].waker == Some(FlagWaker)))
  }

  lemma ActKeepsRoot(w: World, me: TaskId, a: Act, root: TaskId, f: Future)
    requires RootOk(w, root, f)
    ensures RootOk(Acted(w, me, a), root, f)
  {
  }

  lemma {:induction false} ActsKeepRoot(w: World, me: TaskId, acts: seq<Act>, root: TaskId, f: Future)
    requires RootOk(w, root, f)
    ensures RootOk(ActedAll(w, me, acts), root, f)
  {
    if acts != [] {
      ActsKeepRoot(w, me, acts[..|acts| - 1], root, f);
      ActKeepsRoot(ActedAll(w, me, acts[..|acts| - 1]), me, acts[|acts| - 1], root, f);
    }
  }

  /** Another task's poll. */
  lemma OtherPollKeepsRoot(w: World, t: TaskId, root: TaskId, f: Future)
    requires RootOk(w, root, f) && t != root
    ensures RootOk(Polled(w, t), root, f)
  {
    if t in w.tasks && w.tasks[t] != [] {
      var w1, p := PollStarted(w, t), w.tasks[t][0];
      assert RootOk(w1, root, f);
      ActsKeepRoot(w1, t, p.acts, root, f);
      OtherEndKeepsRoot(ActedAll(w1, t, p.acts), t, p.outcome, root, f);
    }
  }

  lemma OtherEndKeepsRoot(w: World, t: TaskId, o: Outcome, root: TaskId, f: Future)
    requires RootOk(w, root, f) && t != root
    ensures RootOk(PollEnded(w, t, o), root, f)
  {
  }

  /** The root's own poll: it stays live, or its output lands in the slot and raises the flag. */
  lemma RootPollKeepsRoot(w: World, root: TaskId, f: Future)
    requires RootOk(w, root, f)
    ensures RootOk(Polled(w, root), root, f)
  {
    if root in w.tasks && w.tasks[root] != [] {
      var w1, p := PollStarted(w, root), w.tasks[root][0];
      var f1 := w1.tasks[root];
      assert RootOk(w1, root, f1);
      ActsKeepRoot(w1, root, p.acts, root, f1);
      ActsKeepTasks(w1, root, p.acts);
      RootEndKeepsRoot(ActedAll(w1, root, p.acts), root, p.outcome, f1, f);
    }
  }

  lemma RootEndKeepsRoot(w: World, root: TaskId, o: Outcome, f1: Future, f: Future)
    requires RootOk(w, root, f1) && root in w.tasks
    requires Output(f) == if o.Ready? then Some(o.v) else Output(f1)
    ensures RootOk(PollEnded(w, root, o), root, f)
  {
  }

  lemma {:induction false} PollsKeepRoot(w: World, ids: seq<TaskId>, root: TaskId, f: Future)
    requires RootOk(w, root, f)
    ensures RootOk(PolledAll(w, ids), root, f)
  {
    if ids != [] {
      var w1, t := PolledAll(w, ids[..|ids| - 1]), ids[|ids| - 1];
      PollsKeepRoot(w, ids[..|ids| - 1], root, f);
      if t == root { RootPollKeepsRoot(w1, root, f); } else { OtherPollKeepsRoot(w1, t, root, f); }
    }
  }

  lemma {:induction false} TicksKeepRoot(w: World, root: TaskId, f: Future)
    requires RootOk(w, root, f)
    ensures RootOk(AllTicked(w), root, f)
    decreases Work(w.tasks), |w.ready.queue|
  {
    if w.ready.queue != [] {
      TickShrinks(w);
      PollsKeepRoot(w.(ready := EmptyReady), w.ready.queue, root, f);
      TicksKeepRoot(Ticked(w).0, root, f);
    }
  }

  lemma {:induction false} ProcessKeepsRoot(w: World, now: nat, root: TaskId, f: Future)
    requires RootOk(w, root, f)
    ensures RootOk(Processed(w, now).0, root, f)
    decreases |w.heap|
  {
    if w.heap != {} && Earliest(w.heap).deadline <= now {
      FiredShrinks(w, Earliest(w.heap));
      ProcessKeepsRoot(Fired(w, Earliest(w.heap)), now, root, f);
    }
  }

  lemma {:induction false} WakesKeepRoot(w: World, ts: seq<TaskId>, root: TaskId, f: Future)
    requires RootOk(w, root, f)
    ensures RootOk(WokeAll(w, ts), root, f)
  {
    if ts != [] { WakesKeepRoot(w, ts[..|ts| - 1], root, f); }
  }

  /** Steps 4 to 7 are only reached with the root live and its result absent. */
  lemma SleptKeepsRoot(w: World, root: TaskId, f: Future, env: Env)
    requires RootOk(w, root, f) && root in w.tasks
    ensures var (w', x) := Slept(w, root, env);
            (x.Continued? || x.Blocked?) && RootOk(w', root, f) && root in w'.tasks
  {
    var w1 := Processed(w, env.now).0;
    ProcessKeepsRoot(w, env.now, root, f);
    ProcessedKeepsSlots(w, env.now);
    assert root in w1.tasks;
    WakesKeepRoot(w1, env.wakes, root, f);
    WakesKeepSlots(w1, env.wakes);
    ProcessKeepsRoot(WokeAll(w1, env.wakes), env.later, root, f);
    ProcessedKeepsSlots(WokeAll(w1, env.wakes), env.later);
  }

  /**
   A round returns, with the root's output, exactly when its ticks have stored it; otherwise it
   goes on with the root live.  It never bails out, breaks or panics.
   */
  lemma RoundKeepsRoot(w: World, root: TaskId, f: Future, env: Env)
    requires RootOk(w, root, f)
    ensures root in AllTicked(w).slots
    ensures var (w', x) := Round(w, root, env);
            && (x.Returned? <==> AllTicked(w).slots[root].result.Some?)
            && match x {
                 case Returned(v) => Output(f) == Some(v)
                 case Continued | Blocked(_) => RootOk(w', root, f) && root in w'.tasks
                 case _ => false
               }
  {
    var w1 := AllTicked(w);
    TicksKeepRoot(w, root, f);
    if w1.slots[root].result.None? {
      var w2 := Checked(w1, root).0;
      SleptKeepsRoot(w2, root, f, env);
    }
  }

  /** The whole loop, for as many rounds as the surroundings are given for. */
  datatype End = Running | Ended(x: Exit)

  ghost function Rounds(w: World, root: TaskId, envs: seq<Env>): (World, End)
    requires root in w.slots
    decreases |envs|
  {
    if envs == [] then (w, Running)
    else
      var (w1, x) := Round(w, root, envs[0]);
      RoundKeepsSlots(w, root, envs[0]);
      if x.Continued? || x.Blocked? then Rounds(w1, root, envs[1..]) else (w1, Ended(x))
  }

  lemma RoundKeepsSlots(w: World, root: TaskId, env: Env)
    requires root in w.slots
    ensures root in Round(w, root, env).0.slots
  {
    AllTickedKeepsSlots(w);
    var w1 := AllTicked(w);
    var w2 := Checked(w1, root).0;
    if w2.tasks == map[] { SleptKeepsSlots(HandlePolled(w2, root, FlagWaker).0, root, env); }
    else { SleptKeepsSlots(w2, root, env); }
  }

  lemma SleptKeepsSlots(w: World, root: TaskId, env: Env)
    requires root in w.slots
    ensures root in Slept(w, root, env).0.slots
  {
    var w1 := Processed(w, env.now).0;
    ProcessedKeepsSlots(w, env.now);
    WakesKeepSlots(w1, env.wakes);
    ProcessedKeepsSlots(WokeAll(w1, env.wakes), env.later);
  }

  lemma {:induction false} WakesKeepSlots(w: World, ts: seq<TaskId>)
    ensures WokeAll(w, ts).slots == w.slots && WokeAll(w, ts).tasks == w.tasks
  {
    if ts != [] { WakesKeepSlots(w, ts[..|ts| - 1]); }
  }

  /** The world when the loop of block_on starts. */
  function Entered(w: World, root: TaskId, f: Future): World {
    Spawned(w, root, f, false).(flag := true)
  }

  lemma {:induction false} RoundsReturnOutput(w: World, root: TaskId, f: Future, envs: seq<Env>)
    requires RootOk(w, root, f)
    ensures var end := Rounds(w, root, envs).1;
            end.Ended? ==> end.x.Returned? && Output(f) == Some(end.x.v)
    decreases |envs|
  {
    if envs != [] {
      RoundKeepsRoot(w, root, f, envs[0]);
      var (w1, x) := Round(w, root, envs[0]);
      if x.Continued? || x.Blocked? { RoundsReturnOutput(w1, root, f, envs[1..]); }
    }
  }

  /**
   Whatever the world before, the futures in it and the surroundings: if block_on ends at all,
   it ends in step 2 and with the root future's own output.
   */
  lemma BlockOnReturnsOutput(w: World, root: TaskId, f: Future, envs: seq<Env>)
    ensures var end := Rounds(Entered(w, root, f), root, envs).1;
            end.Ended? ==> end.x.Returned? && Output(f) == Some(end.x.v)
  {
    RoundsReturnOutput(Entered(w, root, f), root, f, envs);
  }
}
