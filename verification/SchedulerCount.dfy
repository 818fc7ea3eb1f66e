/** `active_count` against the task map. */
module SchedulerCount {
  import opened Shared
  import opened Scheduler
  import opened SchedulerOwnership

  /** Spawners between the insert and the increment. */
  ghost function Uncounted(s: State): set<Tid> {
    set i: Tid | i < |s.threads| && s.threads[i].op.SpawnCount?
  }

  /** Workers between the remove and the decrement. */
  ghost function Overcounted(s: State): set<Tid> {
    set i: Tid | i < |s.threads| && s.threads[i].pc.Decr?
  }

  ghost predicate CountAgrees(s: State) {
    s.active == |s.tasks| - |Uncounted(s)| + |Overcounted(s)|
  }

  lemma ActorCounts(s: State, i: Tid, a: Action)
    requires Enabled(s, i, a) && WellPlaced(s.threads[i])
    requires !a.InsertTask? && !a.CountTask? && !a.RemoveTask? && !a.Uncount?
    ensures OpAfter(s, i, a).SpawnCount? == s.threads[i].op.SpawnCount?
    ensures PcAfter(s, i, a).Decr? == s.threads[i].pc.Decr?
  {
  }

  lemma CountUntouched(s: State, i: Tid, a: Action)
    requires Enabled(s, i, a) && !a.InsertTask? && !a.CountTask? && !a.RemoveTask? && !a.Uncount?
    ensures Effect(s, i, a).tasks == s.tasks && Effect(s, i, a).active == s.active
  {
  }

  /** How the two sets change when only thread `i` moves. */
  lemma SetsFrame(s: State, s': State, i: Tid)
    requires i < |s.threads| && OthersUndisturbed(s, s', i)
    ensures Uncounted(s') == if s'.threads[i].op.SpawnCount? then Uncounted(s) + {i} else Uncounted(s) - {i}
    ensures Overcounted(s') == if s'.threads[i].pc.Decr? then Overcounted(s) + {i} else Overcounted(s) - {i}
  {
    forall j: Tid | j < |s.threads| && j != i
      ensures s'.threads[j].op.SpawnCount? == s.threads[j].op.SpawnCount?
      ensures s'.threads[j].pc.Decr? == s.threads[j].pc.Decr?
    {
      assert Undisturbed(s.threads[j], s'.threads[j]);
    }
  }

  lemma InsertedIsNew(s: State, i: Tid)
    requires Ownership(s) && i < |s.threads| && s.threads[i].op.SpawnInsert?
    ensures s.threads[i].op.t !in s.tasks
  {
    assert HasPlace(s, s.threads[i].op.t) && Carries(s.threads[i].op, s.threads[i].op.t);
  }

  lemma RemovedIsThere(s: State, i: Tid)
    requires Ownership(s) && i < |s.threads| && s.threads[i].pc.Remove?
    ensures s.threads[i].pc.t in s.tasks
  {
    assert HasPlace(s, s.threads[i].pc.t) && Handles(s.threads[i].pc, s.threads[i].pc.t);
  }

  lemma KeepsCount(s: State, i: Tid, a: Action)
    requires Ownership(s) && CountAgrees(s) && Enabled(s, i, a)
    ensures CountAgrees(Apply(s, i, a))
  {
    var s' := Apply(s, i, a);
    var th := s.threads[i];
    assert WellPlaced(th);
    OnlyActorMoves(s, i, a);
    SetsFrame(s, s', i);
    if a.InsertTask? {
      InsertedIsNew(s, i);
    } else if a.RemoveTask? {
      RemovedIsThere(s, i);
    } else if !a.CountTask? && !a.Uncount? {
      ActorCounts(s, i, a);
      CountUntouched(s, i, a);
    }
  }

  /** Every spawner that has not counted yet has its own task in the map. */
  lemma {:induction false} SpawnersFit(s: State, ids: set<Tid>, room: set<TaskId>)
    requires Ownership(s)
    requires forall i :: i in ids ==> i < |s.threads| && s.threads[i].op.SpawnCount? && s.threads[i].op.t in room
    ensures |ids| <= |room|
  {
    if ids != {} {
      var i :| i in ids;
      var t := s.threads[i].op.t;
      forall j | j in ids - {i} ensures s.threads[j].op.t != t {
        assert HasPlace(s, t);
        var p :| TaskAt(s, t, p);
        assert Carries(s.threads[i].op, t) && p == AtOp(i);
      }
      SpawnersFit(s, ids - {i}, room - {t});
    }
  }

  lemma SpawnersInMap(s: State)
    requires Ownership(s)
    ensures |Uncounted(s)| <= |s.tasks|
  {
    forall i | i in Uncounted(s) ensures s.threads[i].op.t in s.tasks {
      var t := s.threads[i].op.t;
      assert HasPlace(s, t);
      var p :| TaskAt(s, t, p);
      assert Carries(s.threads[i].op, t) && p == AtOp(i);
    }
    SpawnersFit(s, Uncounted(s), s.tasks);
  }

  /** The decrement never goes below zero, so the unsigned counter never wraps. */
  lemma UncountNeverUnderflows(s: State, i: Tid)
    requires Ownership(s) && CountAgrees(s) && Enabled(s, i, Uncount)
    ensures s.active >= 1
  {
    SpawnersInMap(s);
    assert i in Overcounted(s);
    assert |Overcounted(s)| >= 1;
  }

  lemma InitCount(s: State)
    requires Init(s)
    ensures CountAgrees(s)
  {
    assert Uncounted(s) == {} && Overcounted(s) == {};
  }
}
