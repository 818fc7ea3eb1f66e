/** Threads, the eventfd counter and waiting lists, used by several parts of the model. */
module Shared {

  type Tid = nat

  datatype Target = Nobody | Somebody(tid: Tid)

  /** The largest value an eventfd counter can hold; a write beyond it is refused. */
  const EVENTFD_MAX: nat := 0xffff_ffff_ffff_fffe

  function Bump(counter: nat): nat {
    if counter >= EVENTFD_MAX then counter else counter + 1
  }

  /** A new poll of `t` ends its waiting for those of the things in `over` it was waiting for. */
  function Forget(waiting: map<nat, nat>, t: nat, over: set<nat>): map<nat, nat> {
    map k | k in waiting && !(waiting[k] == t && k in over) :: waiting[k]
  }
}
