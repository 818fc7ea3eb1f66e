/**
 The reactor's registration map against the kernel's one-shot interest list.

 The kernel follows epoll_ctl(2) and eventfd(2): ADD is refused for a descriptor already in
 the list, MOD and DEL for one that is not; an EPOLLONESHOT descriptor is disarmed when an
 event for it is returned and reports nothing until it is armed again.
 */
module Reactors {
  import opened Options
  import opened Shared

  type Fd = nat
  /** One waker object; every call to `register` brings its own. */
  type Waker = nat

  datatype Registration = Registration(read: Option<Waker>, write: Option<Waker>)

  /** The armed directions; neither means disarmed. */
  datatype Mask = Mask(read: bool, write: bool)

  datatype Kernel = Kernel(interest: map<Fd, Mask>, counter: nat)

  datatype CtlOp = Add | Mod | Del

  datatype Event =
    | WakeEvent
    | FdEvent(fd: Fd, readable: bool, writable: bool, errOrHup: bool)

  /** epoll_ctl knows the descriptor as the operation expects. */
  predicate Legal(k: Kernel, op: CtlOp, fd: Fd) {
    op.Add? <==> fd !in k.interest
  }

  /** epoll_ctl for ADD and MOD; `refuse` is any other reason the kernel may have to fail. */
  function Ctl(k: Kernel, op: CtlOp, fd: Fd, mask: Mask, refuse: bool): (r: (Kernel, bool)) {
    if Legal(k, op, fd) && !refuse then (k.(interest := k.interest[fd := mask]), true) else (k, false)
  }

  function CtlDel(k: Kernel, fd: Fd): Kernel {
    k.(interest := k.interest - {fd})
  }

  /** epoll_wait may return this event: a direction that is armed, or an error on an armed descriptor. */
  predicate Deliverable(k: Kernel, e: Event) {
    match e
    case WakeEvent => k.counter > 0
    case FdEvent(fd, r, w, x) =>
      && fd in k.interest && (k.interest[fd].read || k.interest[fd].write)
      && (r ==> k.interest[fd].read) && (w ==> k.interest[fd].write) && (r || w || x)
  }

  /** The directions that have a waker. */
  function Wanted(reg: Registration): Mask {
    Mask(reg.read.Some?, reg.write.Some?)
  }

  function WakerOf(reg: Registration, isRead: bool): Option<Waker> {
    if isRead then reg.read else reg.write
  }

  function WithWaker(reg: Registration, isRead: bool, w: Option<Waker>): Registration {
    if isRead then reg.(read := w) else reg.(write := w)
  }

  type Regs = map<Fd, Registration>

  function RegOf(regs: Regs, fd: Fd): Registration {
    if fd in regs then regs[fd] else Registration(None, None)
  }

  datatype Io = Io(regs: Regs, kernel: Kernel)

  /** What `register` does: all of it when the kernel accepts, nothing when it refuses. */
  function Registered(io: Io, fd: Fd, w: Waker, isRead: bool, refuse: bool): (r: (Io, bool)) {
    var reg := WithWaker(RegOf(io.regs, fd), isRead, Some(w));
    var (kernel, ok) := Ctl(io.kernel, if fd in io.regs then Mod else Add, fd, Wanted(reg), refuse);
    if ok then (Io(io.regs[fd := reg], kernel), true) else (io, false)
  }

  /** The wakers an event takes, read side first. */
  function Taken(reg: Registration, e: Event): (r: seq<Waker>)
    requires e.FdEvent?
  {
    (if (e.readable || e.errOrHup) && reg.read.Some? then [reg.read.value] else []) +
    (if (e.writable || e.errOrHup) && reg.write.Some? then [reg.write.value] else [])
  }

  /** The registration an event leaves behind. */
  function Left(reg: Registration, e: Event): Registration
    requires e.FdEvent?
  {
    Registration(if e.readable || e.errOrHup then None else reg.read,
                 if e.writable || e.errOrHup then None else reg.write)
  }

  /** One round of the event loop: take wakers, re-arm the direction that still has one. */
  function Handled(io: Io, e: Event, refuse: bool): Io {
    if e.WakeEvent? then io.(kernel := io.kernel.(counter := 0))
    else if e.fd !in io.regs then io
    else
      var reg := Left(io.regs[e.fd], e);
      var kernel :=
        if Wanted(reg) == Mask(false, false) then io.kernel
        else Ctl(io.kernel, Mod, e.fd, Wanted(reg), refuse).0;
      Io(io.regs[e.fd := reg], kernel)
  }

  function TakenBy(io: Io, e: Event): seq<Waker> {
    if e.WakeEvent? || e.fd !in io.regs then [] else Taken(io.regs[e.fd], e)
  }

  /** The whole event loop. */
  function HandledAll(io: Io, events: seq<Event>, refusals: seq<bool>): (r: (Io, seq<Waker>))
    requires |refusals| == |events|
  {
    if events == [] then (io, [])
    else
      var n := |events| - 1;
      var (io1, wakers) := HandledAll(io, events[..n], refusals[..n]);
      (Handled(io1, events[n], refusals[n]), wakers + TakenBy(io1, events[n]))
  }

  class Reactor {
    var registrations: Regs
    /** The kernel side, changed by the system calls the methods make. */
    var kernel: Kernel

    ghost function View(): Io
      reads this
    {
      Io(registrations, kernel)
    }

    constructor ()
      ensures View() == Io(map[], Kernel(map[], 0))
    {
      registrations := map[];
      kernel := Kernel(map[], 0);
    }

    /** Writing to the eventfd: the next epoll_wait returns at once. */
    method Wake()
      modifies this`kernel
      ensures Deliverable(kernel, WakeEvent) && kernel.interest == old(kernel.interest)
      ensures old(kernel.counter) <= kernel.counter <= old(kernel.counter) + 1
      ensures kernel.counter == old(kernel.counter) ==> kernel.counter >= EVENTFD_MAX
    {
      kernel := kernel.(counter := Bump(kernel.counter));
    }

    method Register(fd: Fd, waker: Waker, isRead: bool, refuse: bool) returns (ok: bool)
      modifies this
      ensures (View(), ok) == Registered(old(View()), fd, waker, isRead, refuse)
    {
      var isNew := fd !in registrations;
      if isNew {
        registrations := registrations[fd := Registration(None, None)];
      }
      // Keep the old waker so that a refusal can be rolled back.
      var oldWaker := WakerOf(registrations[fd], isRead);
      registrations := registrations[fd := WithWaker(registrations[fd], isRead, Some(waker))];
      var result := Ctl(kernel, if isNew then Add else Mod, fd, Wanted(registrations[fd]), refuse);
      kernel := result.0;
      ok := result.1;
      assert registrations == old(registrations)[fd := WithWaker(RegOf(old(registrations), fd), isRead, Some(waker))];
      if !ok {
        registrations := registrations[fd := WithWaker(registrations[fd], isRead, oldWaker)];
        if isNew {
          registrations := registrations - {fd};
        }
        assert registrations == old(registrations);
      }
    }

    method Deregister(fd: Fd)
      modifies this
      ensures registrations == old(registrations) - {fd}
      ensures kernel == if fd in old(registrations) then CtlDel(old(kernel), fd) else old(kernel)
    {
      if fd in registrations {
        registrations := registrations - {fd};
        kernel := CtlDel(kernel, fd);
      } else {
        assert registrations - {fd} == registrations;
      }
    }

    /** One event, under the lock. */
    method HandleEvent(e: Event, refuse: bool) returns (taken: seq<Waker>)
      modifies this
      ensures View() == Handled(old(View()), e, refuse) && taken == TakenBy(old(View()), e)
    {
      taken := [];
      if e.WakeEvent? {
        kernel := kernel.(counter := 0);
        return;
      }
      if e.fd !in registrations {
        return;
      }
      var reg := registrations[e.fd];
      if (e.readable || e.errOrHup) && reg.read.Some? {
        taken := taken + [reg.read.value];
        reg := reg.(read := None);
      }
      if (e.writable || e.errOrHup) && reg.write.Some? {
        taken := taken + [reg.write.value];
        reg := reg.(write := None);
      }
      registrations := registrations[e.fd := reg];
      if Wanted(reg) != Mask(false, false) {
        kernel := Ctl(kernel, Mod, e.fd, Wanted(reg), refuse).0;
      }
    }

    /** The part of `poll` under the lock: collect the wakers of the fetched events. */
    method CollectWakers(events: seq<Event>, refusals: seq<bool>) returns (wakers: seq<Waker>)
      requires |refusals| == |events|
      modifies this
      ensures (View(), wakers) == HandledAll(old(View()), events, refusals)
    {
      wakers := [];
      for n := 0 to |events|
        invariant (View(), wakers) == HandledAll(old(View()), events[..n], refusals[..n])
      {
        assert events[..n + 1][..n] == events[..n] && refusals[..n + 1][..n] == refusals[..n];
        var taken := HandleEvent(events[n], refusals[n]);
        wakers := wakers + taken;
      }
      assert events[..|events|] == events && refusals[..|events|] == refusals;
    }
  }
}
