/** The bound on concurrently running fan-out branches. */
module Semaphores {
  class Semaphore {
    const limit: nat
    var active: nat
    var waiters: seq<nat>
    /** Every request in order, the ones granted so far, and how many released. */
    ghost var requests: seq<nat>
    ghost var granted: seq<nat>
    ghost var released: nat

    constructor (limit: nat)
      ensures Valid() && this.limit == limit && requests == [] && released == 0
    {
      this.limit, active, waiters := limit, 0, [];
      requests, granted, released := [], [], 0;
    }

    /** Never over the limit, first come first served, nobody waits while a slot
        is free, and every granted slot is held or was released. */
    ghost predicate Valid()
      reads this
    {
      && active <= limit
      && requests == granted + waiters
      && (waiters != [] ==> active == limit)
      && |granted| == released + active
    }

    /** Take a slot, or wait for one. */
    method Acquire(who: nat) returns (now: bool)
      requires Valid()
      modifies this
      ensures Valid() && requests == old(requests) + [who] && released == old(released)
      ensures now <==> old(active) < limit
      ensures granted == if now then old(granted) + [who] else old(granted)
    {
      requests := requests + [who];
      if active < limit {
        active := active + 1;
        granted := granted + [who];
        return true;
      }
      waiters := waiters + [who];
      return false;
    }

    /** A holder gives its slot back, straight to the longest waiting if anybody
        waits. */
    method Release() returns (next: seq<nat>)
      requires Valid() && active > 0
      modifies this
      ensures Valid() && requests == old(requests) && released == old(released) + 1
      ensures next == if old(waiters) == [] then [] else [old(waiters)[0]]
      ensures granted == old(granted) + next && active == old(active) - 1 + |next|
    {
      released := released + 1;
      if waiters == [] {
        active := active - 1;
        return [];
      }
      next := [waiters[0]];
      granted := granted + next;
      waiters := waiters[1..];
    }
  }
}
