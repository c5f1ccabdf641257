/** The race between a handler and the watchdog that calls it leaked. Times are
    milliseconds since dispatch. */
module Watchdog {
  import opened Wrappers

  datatype Invocation = Result | Thrown | Leak

  /** The deadlines armed, and what the handler, the abort and the event loop do.
      `late(i)` is how late the i-th timer is flushed, a timer is never early;
      two things due in the same millisecond come in either order. */
  datatype Env = Env(
    maxMs: Option<nat>, maxMsOverride: Option<nat>, settlesAt: Option<nat>, throws: bool,
    abortAt: Option<nat>, late: nat -> nat, handlerWinsTie: nat -> bool, abortWinsTie: nat -> bool)

  /** The tighter of the node's own deadline and the caller's; none at all for a
      node that opted out. */
  function Deadline(env: Env): (d: Option<nat>)
    ensures d == None <==> env.maxMs == None && env.maxMsOverride == None
    ensures forall m :: m == env.maxMs || m == env.maxMsOverride ==> m == None || d.value <= m.value
    ensures d == env.maxMs || d == env.maxMsOverride
  {
    if env.maxMs.Some? && env.maxMsOverride.Some?
    then (if env.maxMs.value < env.maxMsOverride.value then env.maxMs else env.maxMsOverride)
    else if env.maxMs.Some? then env.maxMs else env.maxMsOverride
  }

  /** The shortest timer the host arms is one millisecond. */
  function TimerMs(wait: nat): (ms: nat)
    ensures ms >= 1 && ms >= wait && (ms == 1 || ms == wait)
  {
    if wait == 0 then 1 else wait
  }

  function Max(a: nat, b: nat): nat {
    if a < b then b else a
  }

  predicate HandlerFirst(env: Env, i: nat, fire: nat) {
    env.settlesAt.Some? && (env.settlesAt.value < fire || (env.settlesAt.value == fire && env.handlerWinsTie(i)))
  }

  predicate AbortSeen(env: Env, i: nat, now: nat) {
    env.abortAt.Some? && (env.abortAt.value < now || (env.abortAt.value == now && env.abortWinsTie(i)))
  }

  /** No timer is flushed later than this. */
  ghost predicate LateBy(env: Env, lag: nat) {
    forall i :: env.late(i) <= lag
  }

  /** A leak can be declared at all. */
  predicate Armed(env: Env) {
    Deadline(env).Some? && env.abortAt.Some?
  }

  /** The earliest a leak can be declared: a whole grace after the deadline, and
      after the abort; no timer fires within its first millisecond. */
  function Earliest(grace: nat, env: Env): nat
    requires Armed(env)
  {
    Max(Max(1, Deadline(env).value + grace), env.abortAt.value + grace)
  }

  /** With timers that are never late the watchdog looks every millisecond when
      the grace is zero, and an abort due in the very millisecond it looks is
      seen then, or a millisecond later. */
  predicate MissedByTie(grace: nat, env: Env)
    requires Armed(env)
  {
    var first := Max(1, Deadline(env).value);
    grace == 0 && env.abortAt.value >= first && !env.abortWinsTie(env.abortAt.value - first)
  }

  /** When a leak is declared, if no timer is late. */
  function LeakAt(grace: nat, env: Env): nat
    requires Armed(env)
  {
    Earliest(grace, env) + if MissedByTie(grace, env) then 1 else 0
  }

  /** Returns at `at`. A leak is declared only of a handler that has been
      unsettled for the whole grace after the deadline and after the abort
      reached it, however late the timers are. One that outlives both by the
      grace and the worst lateness is declared leaked, by then at the latest;
      with timers that are never late, at one exact moment: a handler settling
      before it returns, one settling after it has leaked. The loop ends once
      the abort is delivered, or the handler settles. */
  method InvokeHandler(grace: nat, env: Env, ghost lag: nat) returns (r: Invocation, at: nat)
    requires env.settlesAt.Some? || Armed(env)
    ensures r != Leak ==> env.settlesAt == Some(at) && (r == Thrown <==> env.throws)
    ensures r == Leak ==> Armed(env) && at >= Earliest(grace, env)
    ensures r == Leak && env.settlesAt.Some? ==> env.settlesAt.value >= at
    ensures Armed(env) && LateBy(env, lag) ==>
              var latest := Max(Max(1, Deadline(env).value + grace), env.abortAt.value + Max(1, grace)) + lag;
              && (r == Leak ==> at <= latest)
              && (env.settlesAt == None || env.settlesAt.value > latest ==> r == Leak)
    ensures Armed(env) && LateBy(env, 0) ==>
              && (r == Leak ==> at == LeakAt(grace, env))
              && (env.settlesAt == None || env.settlesAt.value > LeakAt(grace, env) ==> r == Leak)
              && (env.settlesAt.Some? && env.settlesAt.value < LeakAt(grace, env) ==> r != Leak)
  {
    var deadline := Deadline(env);
    if deadline == None {
      return if env.throws then Thrown else Result, env.settlesAt.value;
    }
    var max := deadline.value;
    var now, wait, i: nat := 0, max + grace, 0;
    ghost var armedBefore := true;  // the pending timer was armed before the abort
    while true
      invariant i > 0 ==> now >= TimerMs(max + grace)
      invariant !armedBefore ==>
                  env.abortAt.Some? && now >= env.abortAt.value && now + wait == env.abortAt.value + grace
      invariant env.settlesAt.Some? ==> now <= env.settlesAt.value
      invariant armedBefore && i > 0 ==> wait == grace && (env.abortAt.Some? ==> now <= env.abortAt.value)
      invariant i == 0 ==> armedBefore && now == 0 && wait == max + grace
      invariant !armedBefore ==> wait > 0 && i > 0
      invariant Armed(env) && LateBy(env, 0) && grace == 0 && i > 0 ==>
                  && now == TimerMs(max) + (i - 1)
                  && (now == env.abortAt.value ==> !env.abortWinsTie(i - 1))
      decreases
        if !armedBefore then 0 else 1,
        if env.settlesAt.Some? && env.settlesAt.value > now then env.settlesAt.value - now else 0,
        if env.abortAt.Some? && env.abortAt.value >= now then env.abortAt.value + 1 - now else 0,
        if env.abortAt == None && env.settlesAt.Some? && env.settlesAt.value == now then 1 else 0
    {
      var fire := now + TimerMs(wait) + env.late(i);
      if HandlerFirst(env, i, fire) {
        return if env.throws then Thrown else Result, env.settlesAt.value;
      }
      now := fire;
      if AbortSeen(env, i, now) {
        var sinceAbort := now - env.abortAt.value;
        if sinceAbort >= grace {
          return Leak, now;
        }
        wait := grace - sinceAbort;
        armedBefore := false;
      } else {
        wait := grace;
      }
      i := i + 1;
    }
  }
}
