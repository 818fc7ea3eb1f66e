/** The multi-threaded timer wheel's own data: the inbox, the heap and the firing loop. */
module TimerWheels {
  import opened Options

  /** A heap entry; entries are ordered by deadline alone. */
  datatype Entry = Entry(deadline: nat, id: nat)

  predicate Earliest(heap: multiset<Entry>, e: Entry) {
    e in heap && forall f :: f in heap ==> e.deadline <= f.deadline
  }

  lemma {:induction false} EarliestExists(heap: multiset<Entry>)
    requires heap != multiset{}
    ensures exists e :: Earliest(heap, e)
    decreases |heap|
  {
    var e :| e in heap;
    var rest := heap - multiset{e};
    if rest == multiset{} {
      assert Earliest(heap, e) by {
        forall f | f in heap ensures e.deadline <= f.deadline { assert f in rest || f == e; }
      }
    } else {
      EarliestExists(rest);
      var m :| Earliest(rest, m);
      var first := if m.deadline <= e.deadline then m else e;
      assert Earliest(heap, first) by {
        forall f | f in heap ensures first.deadline <= f.deadline { assert f in rest || f == e; }
      }
    }
  }

  predicate InDeadlineOrder(s: seq<Entry>) {
    forall i, j :: 0 <= i < j < |s| ==> s[i].deadline <= s[j].deadline
  }

  /** `fired` is what is due in `all`, in deadline order; `rest` is what is not. */
  ghost predicate SplitsAt(all: multiset<Entry>, now: nat, fired: seq<Entry>, rest: multiset<Entry>) {
    && all == multiset(fired) + rest
    && InDeadlineOrder(fired)
    && (forall e :: e in fired ==> e.deadline <= now)
    && (forall e :: e in rest ==> e.deadline > now)
  }

  /** The gap to the earliest entry, if there is one. */
  ghost predicate IsGap(heap: multiset<Entry>, now: nat, gap: Option<nat>) {
    match gap
    case None => heap == multiset{}
    case Some(d) => exists e :: Earliest(heap, e) && e.deadline == now + d
  }

  /** Part way through the firing loop. */
  ghost predicate FiredSoFar(all: multiset<Entry>, now: nat, fired: seq<Entry>, rest: multiset<Entry>) {
    && all == multiset(fired) + rest
    && InDeadlineOrder(fired)
    && (forall e :: e in fired ==> e.deadline <= now)
    && (forall e, f :: e in fired && f in rest ==> e.deadline <= f.deadline)
  }

  lemma FireNext(all: multiset<Entry>, now: nat, fired: seq<Entry>, rest: multiset<Entry>, entry: Entry)
    requires FiredSoFar(all, now, fired, rest) && Earliest(rest, entry) && entry.deadline <= now
    ensures FiredSoFar(all, now, fired + [entry], rest - multiset{entry})
  {
    assert multiset(fired + [entry]) == multiset(fired) + multiset{entry};
    forall e | e in fired + [entry] ensures e.deadline <= entry.deadline { assert e in fired || e == entry; }
    forall f | f in rest - multiset{entry} ensures f in rest {}
  }

  class TimerWheel {
    var inbox: seq<Entry>
    var heap: multiset<Entry>

    /** Registered and not fired. */
    ghost function Pending(): multiset<Entry>
      reads this
    {
      multiset(inbox) + heap
    }

    constructor ()
      ensures Pending() == multiset{}
    {
      inbox, heap := [], multiset{};
    }

    method Register(deadline: nat, id: nat)
      modifies this`inbox
      ensures Pending() == old(Pending()) + multiset{Entry(deadline, id)} && heap == old(heap)
    {
      inbox := inbox + [Entry(deadline, id)];
    }

    /** Drain the inbox, fire what is due, report the gap to the next deadline. */
    method Process(now: nat) returns (next: Option<nat>, fired: seq<Entry>)
      modifies this
      ensures inbox == []
      ensures SplitsAt(old(Pending()), now, fired, heap)
      ensures IsGap(heap, now, next)
      ensures next.Some? ==> next.value > 0
    {
      heap := heap + multiset(inbox);
      inbox := [];
      fired := [];
      while heap != multiset{}
        invariant inbox == [] && FiredSoFar(old(Pending()), now, fired, heap)
        decreases |heap|
      {
        EarliestExists(heap);
        var entry :| Earliest(heap, entry);
        if entry.deadline <= now {
          FireNext(old(Pending()), now, fired, heap, entry);
          heap := heap - multiset{entry};
          fired := fired + [entry];
        } else {
          next := Some(entry.deadline - now);
          return;
        }
      }
      next := None;
    }

    method HasPending() returns (r: bool)
      ensures r <==> Pending() != multiset{}
    {
      r := heap != multiset{} || inbox != [];
      if inbox != [] { assert inbox[0] in multiset(inbox); }
    }
  }

  // ---- Waiting for the next deadline ----

  const I32_MAX: nat := 0x7fff_ffff
  const NS_PER_MS: nat := 1_000_000

  /** The epoll_wait argument for a timeout in nanoseconds: rounded up to milliseconds and capped. */
  function TimeoutMs(timeout: Option<nat>): (ms: int)
    ensures ms == -1 <==> timeout.None?
    ensures ms == 0 <==> timeout == Some(0)
    ensures -1 <= ms <= I32_MAX
  {
    match timeout
    case None => -1
    case Some(ns) =>
      if ns == 0 then 0
      else
        var ms := (ns + NS_PER_MS - 1) / NS_PER_MS;
        if ms < I32_MAX then ms else I32_MAX
  }

  /** drive_io: the wait after a `process` that reported `next`. */
  function DriveTimeout(next: Option<nat>, hasPending: bool): (ns: nat) {
    if next.Some? then next.value
    else if hasPending then NS_PER_MS
    else 5 * NS_PER_MS
  }

  /** Rounding never shortens an uncapped wait and lengthens it by less than a millisecond. */
  lemma RoundsUp(d: nat)
    requires d <= I32_MAX * NS_PER_MS
    ensures d <= TimeoutMs(Some(d)) * NS_PER_MS < d + NS_PER_MS
  {
    var q := (d + NS_PER_MS - 1) / NS_PER_MS;
    assert q * NS_PER_MS <= d + NS_PER_MS - 1 < q * NS_PER_MS + NS_PER_MS;
  }

  /** The wait for `d` that started at `now` was over, by its timeout, at `later`. */
  predicate RanFully(now: nat, d: nat, later: nat) {
    later >= now + TimeoutMs(Some(d)) * NS_PER_MS
  }

  /** A wait that runs its full length reaches the deadline `d` ahead exactly when `d` is within the cap. */
  lemma FullWaitReachesDeadline(now: nat, d: nat)
    ensures (forall later: nat :: RanFully(now, d, later) ==> later >= now + d) <==> d <= I32_MAX * NS_PER_MS
  {
    if d <= I32_MAX * NS_PER_MS {
      RoundsUp(d);
    } else {
      assert RanFully(now, d, now + TimeoutMs(Some(d)) * NS_PER_MS);
    }
  }

  /**
   The driver's wait after a `process` that left `heap`: never a busy spin, and, if it runs its
   full length, long enough for the earliest timer exactly when that one is within the cap.
   */
  lemma DriverWaitReachesNext(heap: multiset<Entry>, now: nat, next: Option<nat>, hasPending: bool, e: Entry)
    requires IsGap(heap, now, next) && (next.Some? ==> next.value > 0) && Earliest(heap, e)
    ensures TimeoutMs(Some(DriveTimeout(next, hasPending))) > 0
    ensures (forall later: nat :: RanFully(now, DriveTimeout(next, hasPending), later) ==> later >= e.deadline)
              <==> e.deadline <= now + I32_MAX * NS_PER_MS
  {
    FullWaitReachesDeadline(now, DriveTimeout(next, hasPending));
  }
}
