/** The deduplicating ready queue used by both executors. */
module ReadyQueues {

  /** The queue as a value: FIFO order plus the membership set kept beside it. */
  datatype Ready = Ready(queue: seq<nat>, pending: set<nat>) {

    ghost predicate Valid() {
      && (forall i, j :: 0 <= i < j < |queue| ==> queue[i] != queue[j])
      && (forall t :: t in pending <==> t in queue)
    }

    /** Append `t` unless the membership set already has it. */
    function Enqueue(t: nat): Ready {
      if t in pending then this else Ready(queue + [t], pending + {t})
    }

    function Dequeue(): Ready
      requires queue != []
    {
      Ready(queue[1..], pending - {queue[0]})
    }

    lemma EnqueueKeeps(t: nat)
      requires Valid()
      ensures Enqueue(t).Valid()
    {
    }

    lemma DequeueKeeps()
      requires Valid() && queue != []
      ensures Dequeue().Valid()
    {
      assert queue == [queue[0]] + queue[1..];
    }
  }

  const EmptyReady := Ready([], {})

  /** Both executors' ReadyQueue; `push` of the single-threaded one is `Enqueue`. */
  class ReadyQueue {
    var queue: seq<nat>
    var pending: set<nat>

    ghost function View(): Ready
      reads this
    {
      Ready(queue, pending)
    }

    constructor ()
      ensures View() == EmptyReady && View().Valid()
    {
      queue, pending := [], {};
    }

    method Enqueue(t: nat)
      modifies this
      ensures View() == old(View()).Enqueue(t)
      ensures old(View().Valid()) ==> View().Valid() && t in queue
    {
      if t !in pending {
        pending := pending + {t};
        queue := queue + [t];
      }
      if old(View().Valid()) { old(View()).EnqueueKeeps(t); }
    }

    method Dequeue() returns (empty: bool, t: nat)
      modifies this
      ensures empty <==> old(queue) == []
      ensures View() == if empty then old(View()) else old(View()).Dequeue()
      ensures !empty ==> t == old(queue)[0]
      ensures old(View().Valid()) ==> View().Valid() && (!empty ==> t !in queue)
    {
      t := 0;
      empty := queue == [];
      if !empty {
        t := queue[0];
        queue := queue[1..];
        pending := pending - {t};
        if old(View().Valid()) { old(View()).DequeueKeeps(); }
      }
    }

    method Drain() returns (ids: seq<nat>)
      modifies this
      ensures ids == old(queue) && View() == EmptyReady
    {
      pending := {};
      ids := queue;
      queue := [];
    }
  }
}
