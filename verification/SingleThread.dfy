/**
 The single-threaded runtime as a value and its operations as functions: wakers, the executor's
 tick, join slots, timers and the rounds of `block_on`.

 A future is the finite list of what its polls do; once the list is used up it stays pending
 and does nothing.  Every finite run of the runtime is a run of such futures.
 */
module SingleThread {
  import opened Options
  import opened ReadyQueues
  import opened Shared
  import TimerWheels

  const NS_PER_MS := TimerWheels.NS_PER_MS

  type TaskId = nat
  type TimerId = nat
  type Value = int

  datatype Waker = TaskWaker(t: TaskId) | FlagWaker

  /** TaskState of task.rs: shared by a task and its JoinHandle. */
  datatype Slot = Slot(result: Option<Value>, waker: Option<Waker>)

  /** TimerState of timer.rs: shared by a heap entry and its Sleep. */
  datatype Cell = Cell(completed: bool, waker: Option<Waker>)

  /** A heap entry; `tie` settles the order of equal deadlines, which the heap leaves open. */
  datatype Entry = Entry(deadline: nat, tie: nat, id: TimerId)

  /** What a future may do while it is polled. */
  datatype Act =
    | Wake(t: TaskId)
    | PollJoin(t: TaskId)
    | StartTimer(id: TimerId, deadline: nat, tie: nat)
    | PollSleep(id: TimerId)

  datatype Outcome = Pending | Ready(v: Value)

  datatype Poll = Poll(acts: seq<Act>, outcome: Outcome)

  type Future = seq<Poll>

  datatype World = World(
    ready: Ready,
    tasks: map<TaskId, Future>,
    slots: map<TaskId, Slot>,
    handles: set<TaskId>,       // join handles in the hands of user code
    flag: bool,                 // `handle_woken` of block_on
    heap: set<Entry>,
    cells: map<TimerId, Cell>,
    woken: set<TaskId>,         // tasks woken since their last poll began
    asleep: map<TimerId, TaskId>, // Sleep -> task whose poll of it was the last one and returned
                                  // Pending, until a poll answers the timer's wake
    joining: map<TaskId, TaskId>  // the same for handles given out by `spawn`
  )

  const EmptyWorld := World(EmptyReady, map[], map[], {}, false, {}, map[], {}, map[], map[])

  function Woke(w: World, k: Waker): World {
    w.(ready := if k.TaskWaker? then w.ready.Enqueue(k.t) else w.ready,
       woken := if k.TaskWaker? then w.woken + {k.t} else w.woken,
       flag := w.flag || k.FlagWaker?)
  }

  /** Take a waker out of an option and call it. */
  function WokeIf(w: World, k: Option<Waker>): World {
    if k.Some? then Woke(w, k.value) else w
  }

  function WokeAll(w: World, ts: seq<TaskId>): World {
    if ts == [] then w else Woke(WokeAll(w, ts[..|ts| - 1]), TaskWaker(ts[|ts| - 1]))
  }

  // ---- Tasks and join handles ----

  /** Runtime::spawn; block_on keeps the handle to itself, other callers get it. */
  function Spawned(w: World, t: TaskId, f: Future, handOut: bool): World {
    w.(tasks := w.tasks[t := f], slots := w.slots[t := Slot(None, None)],
       handles := if handOut then w.handles + {t} else w.handles - {t}, joining := w.joining - {t},
       ready := w.ready.Enqueue(t), woken := w.woken + {t})
  }

  /** JoinHandle::poll. */
  function HandlePolled(w: World, t: TaskId, k: Waker): (World, Option<Value>)
    requires t in w.slots
  {
    var slot := w.slots[t];
    (w.(joining := w.joining - {t},
        slots := w.slots[t := if slot.result.Some? then slot.(result := None) else slot.(waker := Some(k))]),
     slot.result)
  }

  function Acted(w: World, me: TaskId, a: Act): World {
    match a
    case Wake(t) => Woke(w, TaskWaker(t))
    case PollJoin(t) =>
      if t !in w.handles || t !in w.slots then w
      else
        var (w1, v) := HandlePolled(w, t, TaskWaker(me));
        // a poll after the value was taken stays pending for good
        if v.Some? || t !in w.tasks then w1 else w1.(joining := w1.joining[t := me])
    case StartTimer(id, deadline, tie) =>
      if id in w.cells then w
      else w.(heap := w.heap + {Entry(deadline, tie, id)}, cells := w.cells[id := Cell(false, None)])
    case PollSleep(id) =>
      if id !in w.cells then w
      else if w.cells[id].completed then w.(asleep := w.asleep - {id})
      else w.(cells := w.cells[id := w.cells[id].(waker := Some(TaskWaker(me)))], asleep := w.asleep[id := me])
  }

  function ActedAll(w: World, me: TaskId, acts: seq<Act>): World {
    if acts == [] then w else Acted(ActedAll(w, me, acts[..|acts| - 1]), me, acts[|acts| - 1])
  }

  /** The end of the wrapped future: store the result and wake the handle. */
  function Finished(w: World, t: TaskId, v: Value): World {
    if t !in w.slots then w
    else WokeIf(w.(slots := w.slots[t := Slot(Some(v), None)]), w.slots[t].waker)
  }

  /** A new poll of `t` answers its wakes, and with them the timers and tasks that are over. */
  function PollBegun(w: World, t: TaskId): World {
    w.(woken := w.woken - {t},
       asleep := Forget(w.asleep, t, set k | k in w.cells && w.cells[k].completed),
       joining := Forget(w.joining, t, w.slots.Keys - w.tasks.Keys))
  }

  /** The future moves on to what its next poll does. */
  function PollStarted(w: World, t: TaskId): World
    requires t in w.tasks && w.tasks[t] != []
  {
    PollBegun(w, t).(tasks := w.tasks[t := w.tasks[t][1..]])
  }

  /** A future that is ready delivers its result and its task is removed. */
  function PollEnded(w: World, t: TaskId, o: Outcome): World {
    match o
    case Pending => w
    case Ready(v) => Finished(w, t, v).(tasks := w.tasks - {t})
  }

  /** One task of a tick; a task that is gone is skipped. */
  function Polled(w: World, t: TaskId): World {
    if t !in w.tasks then w
    else if w.tasks[t] == [] then PollBegun(w, t)
    else PollEnded(ActedAll(PollStarted(w, t), t, w.tasks[t][0].acts), t, w.tasks[t][0].outcome)
  }

  function PolledAll(w: World, ids: seq<TaskId>): World {
    if ids == [] then w else Polled(PolledAll(w, ids[..|ids| - 1]), ids[|ids| - 1])
  }

  /** Executor::tick. */
  function Ticked(w: World): (World, bool) {
    if w.ready.queue == [] then (w.(ready := EmptyReady), false)
    else (PolledAll(w.(ready := EmptyReady), w.ready.queue), true)
  }

  // ---- Timers ----

  predicate Before(a: Entry, b: Entry) {
    a.deadline < b.deadline || (a.deadline == b.deadline && (a.tie < b.tie || (a.tie == b.tie && a.id < b.id)))
  }

  predicate IsEarliest(heap: set<Entry>, e: Entry) {
    e in heap && forall f :: f in heap ==> f == e || Before(e, f)
  }

  lemma {:induction false} EarliestExists(heap: set<Entry>) returns (e: Entry)
    requires heap != {}
    ensures IsEarliest(heap, e)
  {
    e :| e in heap;
    if heap != {e} {
      var rest := EarliestExists(heap - {e});
      var first := if Before(rest, e) then rest else e;
      forall f | f in heap ensures f == first || Before(first, f) {
        if f != e { assert f in heap - {e}; }
      }
      e := first;
    }
  }

  ghost function Earliest(heap: set<Entry>): (e: Entry)
    requires heap != {}
    ensures IsEarliest(heap, e)
  {
    assert exists e :: IsEarliest(heap, e) by { var e := EarliestExists(heap); }
    var e :| IsEarliest(heap, e);
    e
  }

  lemma EarliestUnique(heap: set<Entry>, e: Entry, f: Entry)
    requires IsEarliest(heap, e) && IsEarliest(heap, f)
    ensures e == f
  {
    assert f in heap && e in heap;
  }

  /** One expired entry: out of the heap, completed, its waker called. */
  function Fired(w: World, e: Entry): World {
    if e.id !in w.cells then w.(heap := w.heap - {e})
    else WokeIf(w.(heap := w.heap - {e}, cells := w.cells[e.id := Cell(true, None)]), w.cells[e.id].waker)
  }

  /** TimerWheel::process: fire everything expired, earliest first; the gap to what remains. */
  ghost function Processed(w: World, now: nat): (r: (World, Option<nat>))
    decreases |w.heap|
  {
    if w.heap == {} then (w, None)
    else
      var e := Earliest(w.heap);
      if e.deadline <= now then
        FiredShrinks(w, e);
        Processed(Fired(w, e), now)
      else (w, Some(e.deadline - now))
  }

  lemma FiredShrinks(w: World, e: Entry)
    requires e in w.heap
    ensures Fired(w, e).heap == w.heap - {e} && |Fired(w, e).heap| < |w.heap|
  {
  }

  // ---- block_on ----

  /** How many polls the futures have left. */
  ghost function Work(tasks: map<TaskId, Future>): nat
    decreases |tasks|
  {
    if tasks == map[] then 0
    else
      var t :| t in tasks;
      |tasks[t]| + Work(tasks - {t})
  }

  lemma {:induction false} WorkSplits(tasks: map<TaskId, Future>, t: TaskId)
    requires t in tasks
    ensures Work(tasks) == |tasks[t]| + Work(tasks - {t})
    decreases |tasks|
  {
    var u :| u in tasks && Work(tasks) == |tasks[u]| + Work(tasks - {u});
    if u != t {
      WorkSplits(tasks - {u}, t);
      assert t in tasks - {u} && u in tasks - {t};
      WorkSplits(tasks - {t}, u);
      assert tasks - {u} - {t} == tasks - {t} - {u};
    }
  }

  lemma WorkOfUpdate(tasks: map<TaskId, Future>, t: TaskId, f: Future)
    requires t in tasks
    ensures Work(tasks[t := f]) == Work(tasks) - |tasks[t]| + |f|
    ensures Work(tasks - {t}) <= Work(tasks)
  {
    WorkSplits(tasks, t);
    WorkSplits(tasks[t := f], t);
    assert tasks[t := f] - {t} == tasks - {t};
  }

  // ---- What the operations leave alone ----

  lemma ActKeeps(w: World, me: TaskId, a: Act)
    ensures Acted(w, me, a).tasks == w.tasks && Acted(w, me, a).slots.Keys == w.slots.Keys
  {
  }

  lemma {:induction false} ActsKeepTasks(w: World, me: TaskId, acts: seq<Act>)
    ensures ActedAll(w, me, acts).tasks == w.tasks
    ensures acts == [] ==> ActedAll(w, me, acts) == w
  {
    if acts != [] {
      ActsKeepTasks(w, me, acts[..|acts| - 1]);
      ActKeeps(ActedAll(w, me, acts[..|acts| - 1]), me, acts[|acts| - 1]);
    }
  }

  lemma PolledWork(w: World, t: TaskId)
    ensures var w' := Polled(w, t);
            Work(w'.tasks) < Work(w.tasks) || (w'.tasks == w.tasks && w'.ready == w.ready)
  {
    if t in w.tasks && w.tasks[t] != [] {
      var w1 := PollStarted(w, t);
      WorkOfUpdate(w.tasks, t, w.tasks[t][1..]);
      ActsKeepTasks(w1, t, w.tasks[t][0].acts);
      WorkOfUpdate(w1.tasks, t, w1.tasks[t]);
    }
  }

  lemma {:induction false} PolledAllWork(w: World, ids: seq<TaskId>)
    ensures var w' := PolledAll(w, ids);
            Work(w'.tasks) < Work(w.tasks) || (w'.tasks == w.tasks && w'.ready == w.ready)
  {
    if ids != [] {
      PolledAllWork(w, ids[..|ids| - 1]);
      PolledWork(PolledAll(w, ids[..|ids| - 1]), ids[|ids| - 1]);
    }
  }

  /** A tick uses up work or empties the queue, so ticking comes to an end. */
  lemma TickShrinks(w: World)
    requires w.ready.queue != []
    ensures var w' := Ticked(w).0;
            Work(w'.tasks) < Work(w.tasks) || (Work(w'.tasks) == Work(w.tasks) && w'.ready.queue == [])
  {
    PolledAllWork(w.(ready := EmptyReady), w.ready.queue);
  }

  /** `while tick() {}`. */
  ghost function AllTicked(w: World): (r: World)
    ensures r.ready.queue == []
    decreases Work(w.tasks), |w.ready.queue|
  {
    if w.ready.queue == [] then Ticked(w).0
    else
      TickShrinks(w);
      AllTicked(Ticked(w).0)
  }

  // ---- block_on ----

  /** What the outside does in one round: clock readings and the tasks woken by I/O. */
  datatype Env = Env(now: nat, wakes: seq<TaskId>, later: nat)

  datatype Exit =
    | Returned(v: Value)   // step 2
    | Bailed(v: Value)     // step 3, executor empty
    | AfterBreak(v: Value) // after the loop
    | Panicked             // after the loop
    | Continued            // step 5
    | Blocked(timeout: nat)// steps 6 and 7

  function Or<T>(o: Option<T>, default: T): T {
    if o.Some? then o.value else default
  }

  /** Steps 4 to 7 and the code after the loop. */
  ghost function Slept(w: World, root: TaskId, env: Env): (World, Exit)
    requires root in w.slots
  {
    var (w1, next) := Processed(w, env.now);
    if w1.ready.queue != [] then (w1, Continued)
    else if w1.heap == {} && w1.tasks == map[] then
      ProcessedKeepsSlots(w, env.now);
      var (w2, v) := HandlePolled(w1, root, FlagWaker);
      (w2, if v.Some? then AfterBreak(v.value) else Panicked)
    else
      var timeout := if w1.heap != {} then Or(next, NS_PER_MS) else 5 * NS_PER_MS;
      (Processed(WokeAll(w1, env.wakes), env.later).0, Blocked(timeout))
  }

  /** Step 2: poll the handle if its flag is up. */
  function Checked(w: World, root: TaskId): (World, Option<Value>)
    requires root in w.slots
  {
    if w.flag then HandlePolled(w.(flag := false), root, FlagWaker) else (w, None)
  }

  /** One round of the loop in block_on. */
  ghost function Round(w: World, root: TaskId, env: Env): (World, Exit)
    requires root in w.slots
  {
    var w1 := AllTicked(w);
    AllTickedKeepsSlots(w);
    var (w2, v) := Checked(w1, root);
    if v.Some? then (w2, Returned(v.value))
    else if w2.tasks == map[] then
      var (w3, v3) := HandlePolled(w2, root, FlagWaker);
      if v3.Some? then (w3, Bailed(v3.value)) else Slept(w3, root, env)
    else Slept(w2, root, env)
  }

  // ---- Slots are never removed ----

  lemma {:induction false} ActsKeepSlots(w: World, me: TaskId, acts: seq<Act>)
    ensures ActedAll(w, me, acts).slots.Keys == w.slots.Keys
  {
    if acts != [] {
      ActsKeepSlots(w, me, acts[..|acts| - 1]);
      ActKeeps(ActedAll(w, me, acts[..|acts| - 1]), me, acts[|acts| - 1]);
    }
  }

  lemma PolledKeepsSlots(w: World, t: TaskId)
    ensures Polled(w, t).slots.Keys == w.slots.Keys
  {
    if t in w.tasks && w.tasks[t] != [] {
      var acts := w.tasks[t][0].acts;
      ActsKeepSlots(PollStarted(w, t), t, acts);
      EndKeepsSlots(ActedAll(PollStarted(w, t), t, acts), t, w.tasks[t][0].outcome);
    }
  }

  lemma EndKeepsSlots(w: World, t: TaskId, o: Outcome)
    ensures PollEnded(w, t, o).slots.Keys == w.slots.Keys
  {
  }

  lemma {:induction false} PolledAllKeepsSlots(w: World, ids: seq<TaskId>)
    ensures PolledAll(w, ids).slots.Keys == w.slots.Keys
  {
    if ids != [] {
      PolledAllKeepsSlots(w, ids[..|ids| - 1]);
      PolledKeepsSlots(PolledAll(w, ids[..|ids| - 1]), ids[|ids| - 1]);
    }
  }

  lemma {:induction false} AllTickedKeepsSlots(w: World)
    ensures AllTicked(w).slots.Keys == w.slots.Keys
    decreases Work(w.tasks), |w.ready.queue|
  {
    if w.ready.queue != [] {
      TickShrinks(w);
      PolledAllKeepsSlots(w.(ready := EmptyReady), w.ready.queue);
      AllTickedKeepsSlots(Ticked(w).0);
    }
  }

  lemma {:induction false} ProcessedKeepsSlots(w: World, now: nat)
    ensures Processed(w, now).0.slots == w.slots && Processed(w, now).0.tasks == w.tasks
    decreases |w.heap|
  {
    if w.heap != {} && Earliest(w.heap).deadline <= now {
      FiredShrinks(w, Earliest(w.heap));
      ProcessedKeepsSlots(Fired(w, Earliest(w.heap)), now);
    }
  }
}
