/** The single-threaded runtime as the object it is, method by method. */
module Runtimes {
  import opened Options
  import opened ReadyQueues
  import opened SingleThread
  import opened BlockOn

  class Runtime {
    const readyQueue: ReadyQueue
    var tasks: map<TaskId, Future>
    var slots: map<TaskId, Slot>
    var handles: set<TaskId>
    var flag: bool
    var heap: set<Entry>
    var cells: map<TimerId, Cell>
    ghost var woken: set<TaskId>
    ghost var asleep: map<TimerId, TaskId>
    ghost var joining: map<TaskId, TaskId>

    ghost function View(): World
      reads this, readyQueue
    {
      World(readyQueue.View(), tasks, slots, handles, flag, heap, cells, woken, asleep, joining)
    }

    constructor ()
      ensures View() == EmptyWorld && fresh(readyQueue)
    {
      readyQueue := new ReadyQueue();
      tasks, slots, handles, flag, heap, cells := map[], map[], {}, false, {}, map[];
      woken, asleep, joining := {}, map[], map[];
    }

    method Wake(k: Waker)
      modifies this`flag, this`woken, readyQueue
      ensures View() == Woke(old(View()), k)
    {
      match k
      case TaskWaker(t) =>
        readyQueue.Enqueue(t);
        woken := woken + {t};
      case FlagWaker =>
        flag := true;
    }

    method Spawn(t: TaskId, f: Future, handOut: bool)
      modifies this, readyQueue
      ensures View() == Spawned(old(View()), t, f, handOut)
    {
      slots := slots[t := Slot(None, None)];
      handles := if handOut then handles + {t} else handles - {t};
      joining := joining - {t};
      tasks := tasks[t := f];
      readyQueue.Enqueue(t);
      woken := woken + {t};
    }

    /** JoinHandle::poll. */
    method PollHandle(t: TaskId, k: Waker) returns (v: Option<Value>)
      requires t in slots
      modifies this`slots, this`joining
      ensures (View(), v) == HandlePolled(old(View()), t, k)
    {
      joining := joining - {t};
      v := slots[t].result;
      if v.Some? {
        slots := slots[t := slots[t].(result := None)];
      } else {
        slots := slots[t := slots[t].(waker := Some(k))];
      }
    }

    method Act(me: TaskId, a: Act)
      modifies this, readyQueue
      ensures View() == Acted(old(View()), me, a)
    {
      match a
      case Wake(t) => Wake(TaskWaker(t));
      case PollJoin(t) =>
        if t in handles && t in slots {
          var v := PollHandle(t, TaskWaker(me));
          if v.None? && t in tasks { joining := joining[t := me]; }
        }
      case StartTimer(id, deadline, tie) =>
        if id !in cells {
          heap := heap + {Entry(deadline, tie, id)};
          cells := cells[id := Cell(false, None)];
        }
      case PollSleep(id) =>
        if id in cells {
          if cells[id].completed {
            asleep := asleep - {id};
          } else {
            cells := cells[id := cells[id].(waker := Some(TaskWaker(me)))];
            asleep := asleep[id := me];
          }
        }
    }

    /** The end of the future made by wrap_future_with_state. */
    method Finish(t: TaskId, v: Value)
      modifies this`slots, this`flag, this`woken, readyQueue
      ensures View() == Finished(old(View()), t, v)
    {
      if t in slots {
        var waker := slots[t].waker;
        slots := slots[t := Slot(Some(v), None)];
        if waker.Some? {
          Wake(waker.value);
        }
      }
    }

    /** What the future does while it is polled. */
    method RunActs(t: TaskId, acts: seq<Act>)
      modifies this, readyQueue
      ensures View() == ActedAll(old(View()), t, acts)
    {
      for n := 0 to |acts|
        invariant View() == ActedAll(old(View()), t, acts[..n])
      {
        assert acts[..n + 1][..n] == acts[..n];
        Act(t, acts[n]);
      }
      assert acts[..|acts|] == acts;
    }

    ghost method BeginPoll(t: TaskId)
      modifies this`woken, this`asleep, this`joining
      ensures View() == PollBegun(old(View()), t)
    {
      var w := PollBegun(View(), t);
      woken, asleep, joining := w.woken, w.asleep, w.joining;
    }

    method StartPoll(t: TaskId) returns (p: Poll)
      requires t in tasks && tasks[t] != []
      modifies this
      ensures p == old(tasks)[t][0] && View() == PollStarted(old(View()), t)
    {
      BeginPoll(t);
      p := tasks[t][0];
      tasks := tasks[t := tasks[t][1..]];
    }

    method EndPoll(t: TaskId, o: Outcome)
      modifies this, readyQueue
      ensures View() == PollEnded(old(View()), t, o)
    {
      if o.Ready? {
        Finish(t, o.v);
        tasks := tasks - {t};
      }
    }

    method PollTask(t: TaskId)
      modifies this, readyQueue
      ensures View() == Polled(old(View()), t)
    {
      if t !in tasks { return; }
      if tasks[t] == [] {
        BeginPoll(t);
        return;
      }
      var p := StartPoll(t);
      RunActs(t, p.acts);
      EndPoll(t, p.outcome);
    }

    /** Executor::tick. */
    method Tick() returns (ticked: bool)
      modifies this, readyQueue
      ensures (View(), ticked) == Ticked(old(View()))
    {
      var ids := readyQueue.Drain();
      if ids == [] {
        return false;
      }
      ghost var before := View();
      for n := 0 to |ids|
        invariant View() == PolledAll(before, ids[..n])
      {
        assert ids[..n + 1][..n] == ids[..n];
        PollTask(ids[n]);
      }
      assert ids[..|ids|] == ids;
      return true;
    }

    method TickAll()
      modifies this, readyQueue
      ensures View() == AllTicked(old(View()))
    {
      var ticked := true;
      while ticked
        invariant AllTicked(View()) == AllTicked(old(View()))
        invariant !ticked ==> View().ready == EmptyReady
        decreases Work(tasks), |readyQueue.queue|, ticked
      {
        if readyQueue.queue != [] { TickShrinks(View()); }
        ticked := Tick();
      }
    }

    /** TimerWheel::process. */
    method ProcessTimers(now: nat) returns (next: Option<nat>)
      modifies this, readyQueue
      ensures (View(), next) == Processed(old(View()), now)
    {
      while heap != {}
        invariant Processed(View(), now) == Processed(old(View()), now)
        decreases |heap|
      {
        ghost var w := View();
        assert IsEarliest(heap, Earliest(heap));
        var e :| IsEarliest(heap, e);
        EarliestUnique(heap, e, Earliest(heap));
        if e.deadline <= now {
          FiredShrinks(w, e);
          heap := heap - {e};
          if e.id in cells {
            var waker := cells[e.id].waker;
            cells := cells[e.id := Cell(true, None)];
            if waker.Some? {
              Wake(waker.value);
            }
          }
          assert View() == Fired(w, e);
        } else {
          return Some(e.deadline - now);
        }
      }
      return None;
    }

    /** The wait in the reactor, as far as tasks notice it. */
    method WaitForEvents(wakes: seq<TaskId>)
      modifies this`flag, this`woken, readyQueue
      ensures View() == WokeAll(old(View()), wakes)
    {
      for n := 0 to |wakes|
        invariant View() == WokeAll(old(View()), wakes[..n])
      {
        assert wakes[..n + 1][..n] == wakes[..n];
        Wake(TaskWaker(wakes[n]));
      }
      assert wakes[..|wakes|] == wakes;
    }

    /** Steps 4 to 7 of a round, and the code after the loop. */
    method Sleep(root: TaskId, env: Env) returns (x: Exit)
      requires root in slots
      modifies this, readyQueue
      ensures (View(), x) == Slept(old(View()), root, env)
    {
      ProcessedKeepsSlots(View(), env.now);
      var next := ProcessTimers(env.now);
      if readyQueue.queue != [] {
        return Continued;
      }
      var timeout;
      if heap != {} {
        timeout := Or(next, NS_PER_MS);
      } else if tasks == map[] {
        var v := PollHandle(root, FlagWaker);
        return if v.Some? then AfterBreak(v.value) else Panicked;
      } else {
        timeout := 5 * NS_PER_MS;
      }
      WaitForEvents(env.wakes);
      var _ := ProcessTimers(env.later);
      return Blocked(timeout);
    }

    /** One round of the loop. */
    method RunRound(root: TaskId, env: Env) returns (x: Exit)
      requires root in slots
      modifies this, readyQueue
      ensures (View(), x) == Round(old(View()), root, env)
    {
      AllTickedKeepsSlots(View());
      TickAll();
      if flag {
        flag := false;
        var v := PollHandle(root, FlagWaker);
        if v.Some? {
          return Returned(v.value);
        }
      }
      if tasks == map[] {
        var v := PollHandle(root, FlagWaker);
        if v.Some? {
          return Bailed(v.value);
        }
      }
      x := Sleep(root, env);
    }

    /** block_on, for as many rounds as the surroundings are given for. */
    method BlockOn(root: TaskId, f: Future, envs: seq<Env>) returns (end: End)
      modifies this, readyQueue
      ensures (View(), end) == Rounds(Entered(old(View()), root, f), root, envs)
      ensures end.Ended? ==> end.x.Returned? && Output(f) == Some(end.x.v)
    {
      Spawn(root, f, false);
      flag := true;
      ghost var start := View();
      BlockOnReturnsOutput(old(View()), root, f, envs);
      for n := 0 to |envs|
        invariant root in slots && Rounds(start, root, envs) == Rounds(View(), root, envs[n..])
      {
        assert envs[n..][1..] == envs[n + 1..];
        RoundKeepsSlots(View(), root, envs[n]);
        var x := RunRound(root, envs[n]);
        if !x.Continued? && !x.Blocked? {
          return Ended(x);
        }
      }
      return Running;
    }
  }
}
