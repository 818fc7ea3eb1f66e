/** The unbounded mpsc channel of the single-threaded runtime. */
module Channels {
  import opened Options

  type Waker = nat
  type SenderId = nat

  /** The shared Inner, as a value. */
  datatype Inner<T> = Inner(queue: seq<T>, rxWaker: Option<Waker>, senderCount: nat, rxClosed: bool)

  /** The channel and what has happened on it. */
  datatype Chan<T> = Chan(
    inner: Inner<T>,
    senders: set<SenderId>,   // live senders
    accepted: seq<T>,         // values for which send returned Ok
    received: seq<T>,         // values handed out
    woken: seq<Waker>         // wakers called
  )

  datatype Action<T> =
    | Clone(from: SenderId, id: SenderId)
    | Send(from: SenderId, value: T)
    | DropSender(id: SenderId)
    | TryRecv
    | PollRecv(waker: Waker)
    | DropReceiver

  datatype Reply<T> = Done | Refused(value: T) | Got(value: T) | Empty | Closed | Pending

  function Opened<T>(first: SenderId): Chan<T> {
    Chan(Inner([], None, 1, false), {first}, [], [], [])
  }

  /** Senders act while they live, the receiver until it is dropped. */
  predicate Enabled<T>(c: Chan<T>, a: Action<T>) {
    match a
    case Clone(from, id) => from in c.senders && id !in c.senders
    case Send(from, _) => from in c.senders
    case DropSender(id) => id in c.senders && c.inner.senderCount > 0
    case TryRecv | PollRecv(_) | DropReceiver => !c.inner.rxClosed
  }

  /** Take the receiver's waker and call it. */
  function Notified<T>(c: Chan<T>): Chan<T> {
    if c.inner.rxWaker.None? then c
    else c.(inner := c.inner.(rxWaker := None), woken := c.woken + [c.inner.rxWaker.value])
  }

  function Popped<T>(c: Chan<T>): Chan<T>
    requires c.inner.queue != []
  {
    c.(inner := c.inner.(queue := c.inner.queue[1..]), received := c.received + [c.inner.queue[0]])
  }

  function Apply<T>(c: Chan<T>, a: Action<T>): (Chan<T>, Reply<T>)
    requires Enabled(c, a)
  {
    match a
    case Clone(_, id) =>
      (c.(inner := c.inner.(senderCount := c.inner.senderCount + 1), senders := c.senders + {id}), Done)
    case Send(_, v) =>
      if c.inner.rxClosed then (c, Refused(v))
      else (Notified(c.(inner := c.inner.(queue := c.inner.queue + [v]), accepted := c.accepted + [v])), Done)
    case DropSender(id) =>
      var c1 := c.(inner := c.inner.(senderCount := c.inner.senderCount - 1), senders := c.senders - {id});
      (if c1.inner.senderCount == 0 then Notified(c1) else c1, Done)
    case TryRecv =>
      if c.inner.queue == [] then (c, Empty) else (Popped(c), Got(c.inner.queue[0]))
    case PollRecv(w) =>
      if c.inner.queue != [] then (Popped(c), Got(c.inner.queue[0]))
      else if c.inner.senderCount == 0 then (c, Closed)
      else (c.(inner := c.inner.(rxWaker := Some(w))), Pending)
    case DropReceiver => (c.(inner := c.inner.(rxClosed := true)), Done)
  }

  /**
   Accepted values are the received ones followed by the queue; the count is the number of live
   senders; a waiting receiver has nothing to receive and somebody to wait for.
   */
  ghost predicate ChannelOk<T>(c: Chan<T>) {
    && c.accepted == c.received + c.inner.queue
    && c.inner.senderCount == |c.senders|
    && (c.inner.rxWaker.Some? ==> c.inner.queue == [] && c.senders != {})
  }

  lemma KeepsOk<T>(c: Chan<T>, a: Action<T>)
    requires ChannelOk(c) && Enabled(c, a)
    ensures ChannelOk(Apply(c, a).0)
  {
    match a
    case Send(_, v) => assert c.received + (c.inner.queue + [v]) == c.accepted + [v];
    case TryRecv | PollRecv(_) =>
      if c.inner.queue != [] {
        assert c.received + [c.inner.queue[0]] + c.inner.queue[1..] == c.received + c.inner.queue;
      }
    case DropSender(id) => assert |c.senders - {id}| == |c.senders| - 1;
    case _ =>
  }

  ghost predicate IsChannelRun<T>(first: SenderId, states: seq<Chan<T>>, actions: seq<Action<T>>) {
    && |states| == |actions| + 1
    && states[0] == Opened(first)
    && forall k :: 0 <= k < |actions| ==>
         Enabled(states[k], actions[k]) && states[k + 1] == Apply(states[k], actions[k]).0
  }

  lemma {:induction false} ChannelHistory<T>(first: SenderId, states: seq<Chan<T>>, actions: seq<Action<T>>, k: nat)
    requires IsChannelRun(first, states, actions) && k < |states|
    ensures ChannelOk(states[k])
    ensures forall id :: id in states[k].senders ==> states[k].inner.senderCount > 0
  {
    if k > 0 {
      ChannelHistory(first, states, actions, k - 1);
      assert Enabled(states[k - 1], actions[k - 1]);
      KeepsOk(states[k - 1], actions[k - 1]);
    }
  }

  /** recv says None only when all senders are gone and every accepted value was received. */
  lemma ClosedMeansDrained<T>(first: SenderId, states: seq<Chan<T>>, actions: seq<Action<T>>, k: nat)
    requires IsChannelRun(first, states, actions) && k < |actions|
    requires Enabled(states[k], actions[k]) && Apply(states[k], actions[k]).1.Closed?
    ensures states[k].received == states[k].accepted && states[k].senders == {}
  {
    ChannelHistory(first, states, actions, k);
  }

  /** Values come out in the order they were accepted, each once. */
  lemma ReceivedInOrder<T>(first: SenderId, states: seq<Chan<T>>, actions: seq<Action<T>>, k: nat)
    requires IsChannelRun(first, states, actions) && k < |actions|
    requires Enabled(states[k], actions[k]) && Apply(states[k], actions[k]).1.Got?
    ensures |states[k].received| < |states[k].accepted|
    ensures Apply(states[k], actions[k]).1.value == states[k].accepted[|states[k].received|]
  {
    ChannelHistory(first, states, actions, k);
  }

  lemma {:induction false} ClosedIff<T>(first: SenderId, states: seq<Chan<T>>, actions: seq<Action<T>>, k: nat)
    requires IsChannelRun(first, states, actions) && k < |states|
    ensures states[k].inner.rxClosed <==> exists n :: 0 <= n < k && actions[n].DropReceiver?
  {
    if k > 0 {
      ClosedIff(first, states, actions, k - 1);
      assert Enabled(states[k - 1], actions[k - 1]);
    }
  }

  /**
   A send is refused exactly when the receiver has been dropped before, and then changes nothing
   and gives the value back; otherwise it succeeds and the value is the last one accepted.
   */
  lemma SendAnswered<T>(first: SenderId, states: seq<Chan<T>>, actions: seq<Action<T>>, k: nat)
    requires IsChannelRun(first, states, actions) && k < |actions| && actions[k].Send?
    ensures Enabled(states[k], actions[k])
    ensures var dropped := exists n :: 0 <= n < k && actions[n].DropReceiver?;
            var r, v := Apply(states[k], actions[k]).1, actions[k].value;
            if dropped then r == Refused(v) && states[k + 1] == states[k]
            else r == Done && states[k + 1].accepted == states[k].accepted + [v]
  {
    assert Enabled(states[k], actions[k]);
    ClosedIff(first, states, actions, k);
  }

  /**
   A receive gives a value exactly when some accepted value has not been received; otherwise
   `recv` says None exactly when all senders are gone, and `try_recv` says None.
   */
  lemma ReceiveAnswered<T>(first: SenderId, states: seq<Chan<T>>, actions: seq<Action<T>>, k: nat)
    requires IsChannelRun(first, states, actions) && k < |actions| && (actions[k].PollRecv? || actions[k].TryRecv?)
    ensures Enabled(states[k], actions[k])
    ensures var c, r := states[k], Apply(states[k], actions[k]).1;
            if |c.received| < |c.accepted| then
              && r == Got(c.accepted[|c.received|])
              && states[k + 1].received == c.received + [c.accepted[|c.received|]] && states[k + 1].accepted == c.accepted
            else
              && c.received == c.accepted && states[k + 1].received == c.received
              && r == if actions[k].TryRecv? then Empty else if c.senders == {} then Closed else Pending
  {
    assert Enabled(states[k], actions[k]);
    ChannelHistory(first, states, actions, k);
  }

  /** The live senders are the first one and the clones, less those dropped. */
  lemma SendersChange<T>(first: SenderId, states: seq<Chan<T>>, actions: seq<Action<T>>, k: nat)
    requires IsChannelRun(first, states, actions) && k < |actions|
    ensures states[k + 1].senders ==
            match actions[k] {
              case Clone(_, id) => states[k].senders + {id}
              case DropSender(id) => states[k].senders - {id}
              case _ => states[k].senders
            }
  {
    assert Enabled(states[k], actions[k]);
  }

  /** The last PollRecv before `m` was at `k`, and it was pending. */
  ghost predicate LastPollPending<T>(states: seq<Chan<T>>, actions: seq<Action<T>>, k: nat, m: nat) {
    && k < m <= |actions| < |states| && actions[k].PollRecv?
    && Enabled(states[k], actions[k]) && Apply(states[k], actions[k]).1.Pending?
    && forall n :: k < n < m ==> !actions[n].PollRecv?
  }

  predicate IsWaiting<T(==)>(c: Chan<T>, w: Waker) {
    c.inner.rxWaker == Some(w) && c.inner.queue == [] && c.senders != {}
  }

  /** The waker has been called, and the first `n` calls were before. */
  predicate WokenSince<T>(c: Chan<T>, w: Waker, n: nat) {
    n <= |c.woken| && w in c.woken[n..]
  }

  lemma WaitGoesOn<T>(c: Chan<T>, a: Action<T>, w: Waker, n: nat)
    requires Enabled(c, a) && !a.PollRecv? && ChannelOk(c) && n <= |c.woken|
    requires IsWaiting(c, w) || WokenSince(c, w, n)
    ensures n <= |Apply(c, a).0.woken|
    ensures IsWaiting(Apply(c, a).0, w) || WokenSince(Apply(c, a).0, w, n)
  {
    var c' := Apply(c, a).0;
    KeepsOk(c, a);
    WokenGrows(c, a);
    if c'.woken != c.woken { assert c'.woken[n..] == c.woken[n..] + [c.inner.rxWaker.value]; }
  }

  lemma WokenGrows<T>(c: Chan<T>, a: Action<T>)
    requires Enabled(c, a)
    ensures var c' := Apply(c, a).0;
            || (c'.woken == c.woken && c'.inner.rxWaker == (if a.PollRecv? && Apply(c, a).1.Pending? then Some(a.waker) else c.inner.rxWaker))
            || (c.inner.rxWaker.Some? && c'.woken == c.woken + [c.inner.rxWaker.value] && c'.inner.rxWaker.None?)
  {
  }

  /**
   A receiver whose last poll was pending still has its waker in the channel, with nothing to
   receive and a live sender; or that waker has been called since.
   */
  lemma {:induction false} PendingIsWoken<T>(first: SenderId, states: seq<Chan<T>>, actions: seq<Action<T>>, k: nat, m: nat)
    requires IsChannelRun(first, states, actions) && LastPollPending(states, actions, k, m)
    ensures |states[k].woken| <= |states[m].woken|
    ensures IsWaiting(states[m], actions[k].waker) || WokenSince(states[m], actions[k].waker, |states[k].woken|)
  {
    if m == k + 1 {
      ChannelHistory(first, states, actions, m);
    } else {
      assert LastPollPending(states, actions, k, m - 1);
      PendingIsWoken(first, states, actions, k, m - 1);
      ChannelHistory(first, states, actions, m - 1);
      assert Enabled(states[m - 1], actions[m - 1]);
      WaitGoesOn(states[m - 1], actions[m - 1], actions[k].waker, |states[k].woken|);
    }
  }

  /** The channel as the object shared by the two halves. */
  class Channel<T> {
    var queue: seq<T>
    var rxWaker: Option<Waker>
    var senderCount: nat
    var rxClosed: bool
    ghost var senders: set<SenderId>
    ghost var accepted: seq<T>
    ghost var received: seq<T>
    ghost var woken: seq<Waker>

    ghost function View(): Chan<T>
      reads this
    {
      Chan(Inner(queue, rxWaker, senderCount, rxClosed), senders, accepted, received, woken)
    }

    constructor (ghost first: SenderId)
      ensures View() == Opened(first)
    {
      queue, rxWaker, senderCount, rxClosed := [], None, 1, false;
      senders, accepted, received, woken := {first}, [], [], [];
    }

    /** Take and call the receiver's waker. */
    method WakeReceiver()
      modifies this
      ensures View() == Notified(old(View()))
    {
      if rxWaker.Some? {
        woken := woken + [rxWaker.value];
        rxWaker := None;
      }
    }

    method CloneSender(ghost from: SenderId, ghost id: SenderId)
      requires Enabled(View(), Clone(from, id))
      modifies this
      ensures View() == Apply(old(View()), Clone(from, id)).0
    {
      senderCount := senderCount + 1;
      senders := senders + {id};
    }

    method SendValue(ghost from: SenderId, value: T) returns (r: Reply<T>)
      requires Enabled(View(), Send(from, value))
      modifies this
      ensures (View(), r) == Apply(old(View()), Send(from, value))
    {
      if rxClosed {
        return Refused(value);
      }
      queue := queue + [value];
      accepted := accepted + [value];
      WakeReceiver();
      return Done;
    }

    method Disconnect(ghost id: SenderId)
      requires Enabled(View(), DropSender(id))
      modifies this
      ensures View() == Apply(old(View()), DropSender(id)).0
    {
      senderCount := senderCount - 1;
      senders := senders - {id};
      if senderCount == 0 {
        WakeReceiver();
      }
    }

    method TryReceive() returns (r: Reply<T>)
      requires Enabled(View(), TryRecv)
      modifies this
      ensures (View(), r) == Apply(old(View()), TryRecv)
    {
      if queue == [] {
        return Empty;
      }
      r := Got(queue[0]);
      received := received + [queue[0]];
      queue := queue[1..];
    }

    method PollReceive(waker: Waker) returns (r: Reply<T>)
      requires Enabled(View(), PollRecv(waker))
      modifies this
      ensures (View(), r) == Apply(old(View()), PollRecv(waker))
    {
      if queue != [] {
        r := Got(queue[0]);
        received := received + [queue[0]];
        queue := queue[1..];
      } else if senderCount == 0 {
        r := Closed;
      } else {
        rxWaker := Some(waker);
        r := Pending;
      }
    }

    method CloseReceiver()
      requires Enabled(View(), DropReceiver)
      modifies this
      ensures View() == Apply(old(View()), DropReceiver).0
    {
      rxClosed := true;
    }
  }
}
