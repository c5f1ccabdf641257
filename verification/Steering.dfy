/** The registry of live agents and buffered steers of every run: a steer is
    broadcast to the run's live agents, or buffered for whoever registers. */
module Steering {
  const MAX_BUFFERED_STEERS := 32

  datatype Agent = Agent(id: nat)
  datatype Target = Target(node: string, iteration: nat)
  datatype Registration = Registration(agent: Agent, target: Target)

  /** A steer, with its place in the order of issue. */
  datatype Steer = Steer(index: nat, run: string, text: string)

  /** What the registry holds for one run. */
  datatype Slot = Slot(live: seq<Registration>, buffer: seq<Steer>, drained: set<Agent>)

  const EMPTY := Slot([], [], {})

  function Last(s: seq<Steer>, n: nat): seq<Steer> {
    if |s| <= n then s else s[|s| - n..]
  }

  /** Register an agent; one that is live keeps its place and is re-tagged. */
  function Registered(live: seq<Registration>, r: Registration): seq<Registration> {
    if live == [] then [r]
    else if live[0].agent == r.agent then [r] + live[1..]
    else [live[0]] + Registered(live[1..], r)
  }

  function Dropped(live: seq<Registration>, a: Agent): seq<Registration> {
    if live == [] then []
    else if live[0].agent == a then live[1..]
    else [live[0]] + Dropped(live[1..], a)
  }

  predicate IsLive(live: seq<Registration>, a: Agent) {
    exists k :: 0 <= k < |live| && live[k].agent == a
  }

  predicate Distinct(live: seq<Registration>) {
    forall i, j :: 0 <= i < j < |live| ==> live[i].agent != live[j].agent
  }

  /** Ending an agent takes its one registration out and moves no other: each keeps
      its target and its place; one that is not registered takes nothing. */
  lemma {:induction false} DroppedIsOneOut(live: seq<Registration>, a: Agent, k: nat)
    ensures !IsLive(live, a) ==> Dropped(live, a) == live
    ensures k < |live| && live[k].agent == a && !IsLive(live[..k], a) ==> Dropped(live, a) == live[..k] + live[k + 1..]
  {
    if live != [] {
      assert live == [live[0]] + live[1..];
      LiveParts(live[0], live[1..], a);
      if live[0].agent == a {
        assert 0 < k <= |live| ==> live[..k][0] == live[0];
      } else if 0 < k < |live| {
        DroppedIsOneOut(live[1..], a, k - 1);
        assert live[..k] == [live[0]] + live[1..][..k - 1];
        LiveParts(live[0], live[1..][..k - 1], a);
      } else {
        DroppedIsOneOut(live[1..], a, |live|);
      }
    }
  }

  /** So of distinct agents exactly the ended one is live no more. */
  lemma {:induction false} DroppedLive(live: seq<Registration>, a: Agent, b: Agent)
    ensures b != a ==> (IsLive(Dropped(live, a), b) <==> IsLive(live, b))
    ensures IsLive(Dropped(live, a), b) ==> IsLive(live, b)
    ensures Distinct(live) ==> !IsLive(Dropped(live, a), a)
  {
    if live != [] {
      LiveParts(live[0], live[1..], b);
      LiveParts(live[0], live[1..], a);
      assert live == [live[0]] + live[1..];
      DroppedLive(live[1..], a, b);
      LiveParts(live[0], Dropped(live[1..], a), b);
      LiveParts(live[0], Dropped(live[1..], a), a);
    }
  }

  /** Registering an agent tags it anew in its place, or puts it last. */
  lemma {:induction false} RegisteredInPlace(live: seq<Registration>, r: Registration, k: nat)
    ensures !IsLive(live, r.agent) ==> Registered(live, r) == live + [r]
    ensures k < |live| && live[k].agent == r.agent && !IsLive(live[..k], r.agent) ==>
              Registered(live, r) == live[k := r]
  {
    if live != [] {
      assert live == [live[0]] + live[1..];
      LiveParts(live[0], live[1..], r.agent);
      if live[0].agent == r.agent {
        assert 0 < k <= |live| ==> live[..k][0] == live[0];
      } else if 0 < k < |live| {
        RegisteredInPlace(live[1..], r, k - 1);
        assert live[..k] == [live[0]] + live[1..][..k - 1];
        LiveParts(live[0], live[1..][..k - 1], r.agent);
      } else {
        RegisteredInPlace(live[1..], r, |live|);
      }
    }
  }

  // ---------- the operations on one run ----------

  datatype Op =
    | Begin(run: string, r: Registration)
    | End(run: string, agent: Agent)
    | Issue(run: string, text: string)
    | Forget(run: string)

  /** The last agent out takes the run's buffer with it. */
  function EndOf(s: Slot, a: Agent): Slot {
    if s.live == [] then s
    else if Dropped(s.live, a) == [] then EMPTY
    else s.(live := Dropped(s.live, a))
  }

  function SlotStep(s: Slot, op: Op, index: nat): Slot {
    match op
    case Begin(_, r) =>
      s.(live := Registered(s.live, r), drained := if s.buffer == [] then s.drained else s.drained + {r.agent})
    case End(_, a) => EndOf(s, a)
    case Issue(run, text) =>
      if text == "" || s.live != [] then s
      else s.(buffer := Last(s.buffer + [Steer(index, run, text)], MAX_BUFFERED_STEERS))
    case Forget(_) => EMPTY
  }

  /** What one agent is handed by an operation on its run. */
  function Handed(s: Slot, op: Op, index: nat, a: Agent): seq<Steer> {
    match op
    case Begin(_, r) => if r.agent == a && a !in s.drained then s.buffer else []
    case Issue(run, text) => if text != "" && IsLive(s.live, a) then [Steer(index, run, text)] else []
    case _ => []
  }

  // ---------- a history of operations ----------

  function SlotAfter(ops: seq<Op>, run: string): Slot {
    if ops == [] then EMPTY
    else
      var k := |ops| - 1;
      var s := SlotAfter(ops[..k], run);
      if ops[k].run == run then SlotStep(s, ops[k], k) else s
  }

  function InboxAfter(ops: seq<Op>, a: Agent): seq<Steer> {
    if ops == [] then []
    else
      var k := |ops| - 1;
      InboxAfter(ops[..k], a) + Handed(SlotAfter(ops[..k], ops[k].run), ops[k], k, a)
  }

  /** The steers issued on a run while nobody was live, since its live set last
      emptied or it was forgotten: a reading of the history that never looks at
      a buffer. */
  function Missed(ops: seq<Op>, run: string): seq<Steer> {
    if ops == [] then []
    else
      var k := |ops| - 1;
      var live := SlotAfter(ops[..k], run).live;
      var before := Missed(ops[..k], run);
      if ops[k].run != run then before
      else
        match ops[k]
        case Begin(_, _) => before
        case End(_, a) => if live != [] && Dropped(live, a) == [] then [] else before
        case Issue(_, text) => if text != "" && live == [] then before + [Steer(k, run, text)] else before
        case Forget(_) => []
  }

  /** Every agent registers on one run only. */
  predicate Homed(ops: seq<Op>, home: Agent -> string) {
    forall k :: 0 <= k < |ops| && ops[k].Begin? ==> home(ops[k].r.agent) == ops[k].run
  }

  predicate Increasing(s: seq<Steer>) {
    forall i, j :: 0 <= i < j < |s| ==> s[i].index < s[j].index
  }

  /** The buffer is the last thirty-two steers missed. */
  lemma {:induction false} BufferIsMissedTail(ops: seq<Op>, run: string)
    ensures SlotAfter(ops, run).buffer == Last(Missed(ops, run), MAX_BUFFERED_STEERS)
  {
    if ops != [] {
      BufferIsMissedTail(ops[..|ops| - 1], run);
    }
  }

  lemma {:induction false} RegisteredLive(live: seq<Registration>, r: Registration, a: Agent)
    ensures IsLive(Registered(live, r), a) <==> a == r.agent || IsLive(live, a)
    ensures Registered(live, r) != []
  {
    if live == [] {
      assert Registered(live, r)[0].agent == r.agent;
    } else if live[0].agent == r.agent {
      assert Registered(live, r)[0].agent == r.agent && live[0].agent == r.agent;
      LiveParts(live[0], live[1..], a);
      LiveParts(r, live[1..], a);
      assert live == [live[0]] + live[1..];
    } else {
      RegisteredLive(live[1..], r, a);
      LiveParts(live[0], live[1..], a);
      LiveParts(live[0], Registered(live[1..], r), a);
      assert live == [live[0]] + live[1..];
    }
  }

  lemma LiveParts(first: Registration, rest: seq<Registration>, a: Agent)
    ensures IsLive([first] + rest, a) <==> first.agent == a || IsLive(rest, a)
  {
    var all := [first] + rest;
    assert all[0] == first;
    if k :| 0 <= k < |rest| && rest[k].agent == a {
      assert all[k + 1].agent == a;
    }
  }

  lemma LiveSnoc(live: seq<Registration>, last: Registration, a: Agent)
    ensures IsLive(live + [last], a) <==> IsLive(live, a) || last.agent == a
  {
    var all := live + [last];
    assert all[|live|] == last;
    if k :| 0 <= k < |live| && live[k].agent == a {
      assert all[k].agent == a;
    }
  }

  /** What holds of one agent and its run after any history. */
  ghost predicate Ordered(s: Slot, inbox: seq<Steer>, run: string, a: Agent, now: nat) {
    && Increasing(inbox) && Increasing(s.buffer)
    && (forall m :: m in inbox ==> m.run == run && m.index < now && m.text != "")
    && (forall m :: m in s.buffer ==> m.run == run && m.index < now && m.text != "")
    && (s.drained != {} ==> s.live != [])
    && (s.buffer != [] && IsLive(s.live, a) ==> a in s.drained)
    && (a in s.drained ==> forall m :: m in s.buffer ==> m in inbox)
    && (a !in s.drained ==> forall m, b :: m in inbox && b in s.buffer ==> m.index < b.index)
  }

  lemma BeginOrdered(s: Slot, inbox: seq<Steer>, run: string, r: Registration, a: Agent, now: nat)
    requires Ordered(s, inbox, run, a, now)
    ensures Ordered(SlotStep(s, Begin(run, r), now), inbox + Handed(s, Begin(run, r), now, a), run, a, now)
  {
    RegisteredLive(s.live, r, a);
    if r.agent == a && a !in s.drained {
      IncreasingConcat(inbox, s.buffer);
    } else {
      assert inbox + [] == inbox;
    }
  }

  lemma BroadcastOrdered(s: Slot, inbox: seq<Steer>, run: string, text: string, a: Agent, now: nat)
    requires Ordered(s, inbox, run, a, now) && text != "" && s.live != []
    ensures Ordered(SlotStep(s, Issue(run, text), now), inbox + Handed(s, Issue(run, text), now, a), run, a, now + 1)
  {
    assert inbox + [] == inbox;
    IncreasingConcat(inbox, [Steer(now, run, text)]);
  }

  lemma SuffixKeepsOrder(s: seq<Steer>, k: nat)
    requires Increasing(s) && k <= |s|
    ensures Increasing(s[k..]) && forall m :: m in s[k..] ==> m in s
  {
  }

  lemma LastKeepsOrder(s: seq<Steer>, n: nat)
    requires Increasing(s)
    ensures Increasing(Last(s, n)) && forall m :: m in Last(s, n) ==> m in s
  {
    if |s| > n {
      SuffixKeepsOrder(s, |s| - n);
    }
  }

  lemma BufferedOrdered(s: Slot, inbox: seq<Steer>, run: string, text: string, a: Agent, now: nat)
    requires Ordered(s, inbox, run, a, now) && text != "" && s.live == []
    ensures Ordered(SlotStep(s, Issue(run, text), now), inbox + Handed(s, Issue(run, text), now, a), run, a, now + 1)
  {
    var m := Steer(now, run, text);
    assert Handed(s, Issue(run, text), now, a) == [] && inbox + [] == inbox;
    IncreasingConcat(s.buffer, [m]);
    LastKeepsOrder(s.buffer + [m], MAX_BUFFERED_STEERS);
    var t := SlotStep(s, Issue(run, text), now);
    assert forall b :: b in t.buffer ==> b in s.buffer || b == m;
    assert t.live == [] && t.drained == {};
  }

  lemma {:induction false} StepOrdered(s: Slot, inbox: seq<Steer>, op: Op, run: string, a: Agent, now: nat)
    requires Ordered(s, inbox, run, a, now) && op.run == run
    ensures Ordered(SlotStep(s, op, now), inbox + Handed(s, op, now, a), run, a, now + 1)
  {
    assert inbox + [] == inbox;
    match op
    case Begin(_, r) => BeginOrdered(s, inbox, run, r, a, now);
    case End(_, b) =>
      if IsLive(SlotStep(s, op, now).live, a) && s.live != [] {
        DroppedLive(s.live, b, a);
      }
    case Issue(_, text) =>
      if text != "" {
        if s.live != [] {
          BroadcastOrdered(s, inbox, run, text, a, now);
        } else {
          BufferedOrdered(s, inbox, run, text, a, now);
        }
      }
    case Forget(_) =>
  }

  lemma IncreasingConcat(x: seq<Steer>, y: seq<Steer>)
    requires Increasing(x) && Increasing(y)
    requires forall m, b :: m in x && b in y ==> m.index < b.index
    ensures Increasing(x + y)
  {
    var z := x + y;
    forall i, j | 0 <= i < j < |z| ensures z[i].index < z[j].index {
      if i < |x| && j >= |x| {
        assert z[i] == x[i] && z[j] == y[j - |x|];
        assert x[i] in x && y[j - |x|] in y;
      }
    }
  }

  lemma {:induction false} AgentOrdered(ops: seq<Op>, home: Agent -> string, a: Agent)
    requires Homed(ops, home)
    ensures Ordered(SlotAfter(ops, home(a)), InboxAfter(ops, a), home(a), a, |ops|)
  {
    if ops != [] {
      var k := |ops| - 1;
      AgentOrdered(ops[..k], home, a);
      var run := home(a);
      var s := SlotAfter(ops[..k], run);
      if ops[k].run == run {
        StepOrdered(s, InboxAfter(ops[..k], a), ops[k], run, a, k);
      } else {
        NotLiveElsewhere(ops[..k], home, a, ops[k].run);
        assert InboxAfter(ops, a) == InboxAfter(ops[..k], a);
      }
    }
  }

  lemma {:induction false} NotLiveElsewhere(ops: seq<Op>, home: Agent -> string, a: Agent, run: string)
    requires Homed(ops, home) && run != home(a)
    ensures !IsLive(SlotAfter(ops, run).live, a)
  {
    if ops != [] {
      var k := |ops| - 1;
      NotLiveElsewhere(ops[..k], home, a, run);
      var s := SlotAfter(ops[..k], run);
      if ops[k].run == run {
        if ops[k].Begin? {
          RegisteredLive(s.live, ops[k].r, a);
        } else if ops[k].End? && IsLive(Dropped(s.live, ops[k].agent), a) {
          DroppedLive(s.live, ops[k].agent, a);
        }
      }
    }
  }

  /** Over any history, an agent receives only steers of its own run, in strictly
      increasing order of issue, so none twice; and once registered while the
      run's set is not empty it has the whole buffer. */
  lemma EachAgentInOrder(ops: seq<Op>, home: Agent -> string, a: Agent)
    requires Homed(ops, home)
    ensures Increasing(InboxAfter(ops, a))
    ensures forall m :: m in InboxAfter(ops, a) ==>
              && m.run == home(a) && m.text != ""
              && m.index < |ops| && ops[m.index] == Issue(m.run, m.text)
    ensures IsLive(SlotAfter(ops, home(a)).live, a) ==>
              forall m :: m in SlotAfter(ops, home(a)).buffer ==> m in InboxAfter(ops, a)
  {
    AgentOrdered(ops, home, a);
    forall m | m in InboxAfter(ops, a) ensures m.index < |ops| && ops[m.index] == Issue(m.run, m.text) {
      InboxIssued(ops, a, m);
    }
  }

  lemma {:induction false} BufferIssued(ops: seq<Op>, run: string, m: Steer)
    requires m in SlotAfter(ops, run).buffer
    ensures m.index < |ops| && ops[m.index] == Issue(m.run, m.text)
  {
    var k := |ops| - 1;
    if m in SlotAfter(ops[..k], run).buffer {
      BufferIssued(ops[..k], run, m);
    }
  }

  lemma {:induction false} InboxIssued(ops: seq<Op>, a: Agent, m: Steer)
    requires m in InboxAfter(ops, a)
    ensures m.index < |ops| && ops[m.index] == Issue(m.run, m.text)
  {
    var k := |ops| - 1;
    if m in InboxAfter(ops[..k], a) {
      InboxIssued(ops[..k], a, m);
    } else if ops[k].Begin? {
      BufferIssued(ops[..k], ops[k].run, m);
    }
  }

  /** Nothing crosses an emptying: what an agent is handed when it registers was
      issued after its run's live set last emptied. */
  lemma {:induction false} NothingCrossesEmptying(ops: seq<Op>, run: string, cut: nat)
    requires cut < |ops| && ops[cut].run == run && SlotAfter(ops[..cut + 1], run).live == []
    requires ops[cut].Forget? || (ops[cut].End? && SlotAfter(ops[..cut], run).live != [])
    ensures forall m :: m in SlotAfter(ops, run).buffer ==> m.index > cut
  {
    var k := |ops| - 1;
    if cut == k {
      assert ops[..cut + 1] == ops;
    } else {
      assert ops[..k][..cut + 1] == ops[..cut + 1] && ops[..k][..cut] == ops[..cut];
      NothingCrossesEmptying(ops[..k], run, cut);
    }
  }

  /** Nothing between the two ends the agent on the run or forgets the run. */
  predicate Undisturbed(ops: seq<Op>, run: string, a: Agent, from: nat) {
    forall k :: from < k < |ops| ==> ops[k] != End(run, a) && ops[k] != Forget(run)
  }

  lemma {:induction false} StaysLive(ops: seq<Op>, run: string, a: Agent, from: nat)
    requires from < |ops| && ops[from].Begin? && ops[from].run == run && ops[from].r.agent == a
    requires Undisturbed(ops, run, a, from)
    ensures IsLive(SlotAfter(ops, run).live, a)
  {
    var k := |ops| - 1;
    var s := SlotAfter(ops[..k], run);
    if from == k {
      RegisteredLive(s.live, ops[k].r, a);
    } else {
      StaysLive(ops[..k], run, a, from);
      if ops[k].run == run && ops[k].Begin? {
        RegisteredLive(s.live, ops[k].r, a);
      } else if ops[k].run == run && ops[k].End? {
        assert ops[k] != End(run, a);
        DroppedLive(s.live, ops[k].agent, a);
      }
    }
  }

  lemma {:induction false} InboxGrows(ops: seq<Op>, a: Agent, upto: nat)
    requires upto <= |ops|
    ensures InboxAfter(ops[..upto], a) <= InboxAfter(ops, a)
  {
    if upto == |ops| {
      assert ops[..upto] == ops;
    } else {
      InboxGrows(ops[..|ops| - 1], a, upto);
      assert ops[..|ops| - 1][..upto] == ops[..upto];
    }
  }

  /** The converse of `EachAgentInOrder`: an agent gets every steer that is not
      empty and that is issued on its run between its registration and its end,
      unless the run is forgotten in between. */
  lemma LiveAgentGetsEverySteer(ops: seq<Op>, run: string, a: Agent, from: nat, at: nat)
    requires from < at < |ops| && ops[from].Begin? && ops[from].run == run && ops[from].r.agent == a
    requires ops[at].Issue? && ops[at].run == run && ops[at].text != ""
    requires Undisturbed(ops[..at], run, a, from)
    ensures Steer(at, run, ops[at].text) in InboxAfter(ops, a)
  {
    StaysLive(ops[..at], run, a, from);
    InboxGrows(ops, a, at + 1);
    assert ops[..at + 1][..at] == ops[..at];
    var inbox := InboxAfter(ops[..at + 1], a);
    assert inbox[|inbox| - 1] == Steer(at, run, ops[at].text);
  }

  lemma {:induction false} LiveDistinct(ops: seq<Op>, run: string)
    ensures Distinct(SlotAfter(ops, run).live)
  {
    if ops != [] {
      var k := |ops| - 1;
      LiveDistinct(ops[..k], run);
      if ops[k].Begin? {
        RegisteredDistinct(SlotAfter(ops[..k], run).live, ops[k].r);
      } else if ops[k].End? {
        DroppedDistinct(SlotAfter(ops[..k], run).live, ops[k].agent);
      }
    }
  }

  /** And an agent that ended gets nothing more until it registers again. */
  lemma {:induction false} EndedAgentGetsNothing(ops: seq<Op>, home: Agent -> string, a: Agent, end: nat)
    requires Homed(ops, home) && end < |ops| && ops[end] == End(home(a), a)
    requires forall k :: end < k < |ops| && ops[k].Begin? ==> ops[k].r.agent != a
    ensures InboxAfter(ops, a) == InboxAfter(ops[..end + 1], a) && !IsLive(SlotAfter(ops, home(a)).live, a)
  {
    var k, run := |ops| - 1, home(a);
    var s := SlotAfter(ops[..k], run);
    if end == k {
      LiveDistinct(ops[..k], run);
      DroppedLive(s.live, a, a);
      assert ops[..end + 1] == ops;
    } else {
      EndedAgentGetsNothing(ops[..k], home, a, end);
      assert ops[..k][..end + 1] == ops[..end + 1];
      if ops[k].run != run {
        NotLiveElsewhere(ops[..k], home, a, ops[k].run);
      } else if ops[k].Begin? {
        RegisteredLive(s.live, ops[k].r, a);
      } else if ops[k].End? {
        DroppedLive(s.live, ops[k].agent, a);
      }
      assert InboxAfter(ops, a) == InboxAfter(ops[..k], a);
    }
  }

  lemma Snoc(ops: seq<Op>, op: Op, run: string, a: Agent)
    ensures SlotAfter(ops + [op], run)
            == if op.run == run then SlotStep(SlotAfter(ops, run), op, |ops|) else SlotAfter(ops, run)
    ensures InboxAfter(ops + [op], a) == InboxAfter(ops, a) + Handed(SlotAfter(ops, op.run), op, |ops|, a)
  {
    assert (ops + [op])[..|ops|] == ops;
  }

  /** An agent that registers after a steer was broadcast never gets it: the
      buffer is what was missed while nobody was live, not every steer since
      the set emptied. `buffered` is a history that left one steer behind. */
  lemma {:induction false} LateAgentMissesBroadcast(
      buffered: seq<Op>, run: string, early: Registration, late: Registration, one: Steer, two: string)
    requires SlotAfter(buffered, run) == Slot([], [one], {}) && two != ""
    requires early.agent != late.agent && InboxAfter(buffered, early.agent) == InboxAfter(buffered, late.agent) == []
    ensures var ops := buffered + [Begin(run, early)] + [Issue(run, two)] + [Begin(run, late)];
            && InboxAfter(ops, early.agent) == [one, Steer(|buffered| + 1, run, two)]
            && InboxAfter(ops, late.agent) == [one]
  {
    AfterBroadcast(buffered, run, early, one, two, early.agent);
    AfterBroadcast(buffered, run, early, one, two, late.agent);
    var ops := buffered + [Begin(run, early)] + [Issue(run, two)];
    Snoc(ops, Begin(run, late), run, early.agent);
    Snoc(ops, Begin(run, late), run, late.agent);
  }

  lemma {:induction false} AfterBroadcast(
      buffered: seq<Op>, run: string, early: Registration, one: Steer, two: string, a: Agent)
    requires SlotAfter(buffered, run) == Slot([], [one], {}) && two != "" && InboxAfter(buffered, a) == []
    ensures var ops := buffered + [Begin(run, early)] + [Issue(run, two)];
            && SlotAfter(ops, run) == Slot([early], [one], {early.agent})
            && InboxAfter(ops, a) == if a == early.agent then [one, Steer(|buffered| + 1, run, two)] else []
  {
    var ops := buffered + [Begin(run, early)];
    Snoc(buffered, Begin(run, early), run, a);
    Snoc(ops, Issue(run, two), run, a);
    LiveSnoc([], early, a);
    assert [] + [early] == [early] && !IsLive([], a);
    assert InboxAfter(ops, a) == if a == early.agent then [one] else [];
  }

  // ---------- the registry ----------

  lemma {:induction false} RegisteredDistinct(live: seq<Registration>, r: Registration)
    requires Distinct(live)
    ensures Distinct(Registered(live, r))
  {
    if live != [] && live[0].agent != r.agent {
      RegisteredDistinct(live[1..], r);
      var rest := Registered(live[1..], r);
      assert !IsLive(live[1..], live[0].agent);
      RegisteredLive(live[1..], r, live[0].agent);
      assert forall k :: 0 <= k < |rest| ==> rest[k].agent != live[0].agent;
    }
  }

  lemma {:induction false} DroppedDistinct(live: seq<Registration>, a: Agent)
    requires Distinct(live)
    ensures Distinct(Dropped(live, a))
  {
    if live != [] && live[0].agent != a {
      DroppedDistinct(live[1..], a);
      var rest := Dropped(live[1..], a);
      if k :| 0 <= k < |rest| && rest[k].agent == live[0].agent {
        assert IsLive(rest, live[0].agent);
        DroppedLive(live[1..], a, live[0].agent);
        assert false;
      }
    }
  }

  /** That agent alone leaves: every other keeps its tag and its place, and the
      buffer goes with the last one; one that is not live changes nothing. */
  ghost predicate Leaves(was: Slot, now: Slot, a: Agent) {
    && (forall b :: IsLive(now.live, b) <==> b != a && IsLive(was.live, b))
    && (!IsLive(was.live, a) ==> now == was)
    && (forall k :: 0 <= k < |was.live| && was.live[k].agent == a ==> now.live == was.live[..k] + was.live[k + 1..])
    && (now.live != [] || was.live == [] ==> now.buffer == was.buffer && now.drained == was.drained)
    && (now.live == [] && was.live != [] ==> now.buffer == [] && now.drained == {})
  }

  lemma LeavesAlone(was: Slot, a: Agent)
    requires Distinct(was.live)
    ensures Leaves(was, EndOf(was, a), a)
  {
    var live := was.live;
    DroppedIsOneOut(live, a, |live|);
    forall b ensures IsLive(Dropped(live, a), b) <==> b != a && IsLive(live, b) {
      DroppedLive(live, a, b);
    }
    forall k | 0 <= k < |live| && live[k].agent == a ensures Dropped(live, a) == live[..k] + live[k + 1..] {
      DroppedIsOneOut(live, a, k);
    }
  }

  /** The agent keeps its place with the new tag, or comes last. */
  ghost predicate Joins(was: seq<Registration>, now: seq<Registration>, r: Registration) {
    && (!IsLive(was, r.agent) ==> now == was + [r])
    && (forall k :: 0 <= k < |was| && was[k].agent == r.agent ==> now == was[k := r])
  }

  lemma JoinsLast(live: seq<Registration>, r: Registration)
    requires Distinct(live)
    ensures Joins(live, Registered(live, r), r)
  {
    RegisteredInPlace(live, r, |live|);
    forall k | 0 <= k < |live| && live[k].agent == r.agent ensures Registered(live, r) == live[k := r] {
      RegisteredInPlace(live, r, k);
    }
  }

  class SteeringRegistry {
    var activeAgents: map<string, seq<Registration>>
    var pendingSteers: map<string, seq<Steer>>
    var drainedInto: map<string, set<Agent>>
    /** What each agent has been handed. */
    var inbox: Agent -> seq<Steer>
    /** How many operations came before: a steer's place in the order of issue. */
    var clock: nat
    ghost var ops: seq<Op>

    constructor ()
      ensures Valid() && ops == []
    {
      activeAgents, pendingSteers, drainedInto, inbox, clock, ops := map[], map[], map[], a => [], 0, [];
    }

    /** What the three maps hold for a run. */
    function SlotOf(run: string): Slot
      reads this
    {
      Slot(if run in activeAgents then activeAgents[run] else [],
           if run in pendingSteers then pendingSteers[run] else [],
           if run in drainedInto then drainedInto[run] else {})
    }

    /** The maps and the inboxes are what the history makes them; a run's agents
        are distinct, and no run has an empty entry. */
    ghost predicate Valid()
      reads this
    {
      && clock == |ops|
      && (forall run :: SlotOf(run) == SlotAfter(ops, run))
      && (forall a :: inbox(a) == InboxAfter(ops, a))
      && (forall run :: run in activeAgents ==> activeAgents[run] != [] && Distinct(activeAgents[run]))
    }

    method Inject(agent: Agent, m: Steer)
      modifies this`inbox
      ensures forall a :: inbox(a) == if a == agent then old(inbox)(a) + [m] else old(inbox)(a)
    {
      var was := inbox;
      inbox := a => if a == agent then was(a) + [m] else was(a);
    }

    /** Enter an operation into the history its effect is the step of. */
    ghost method Log(op: Op)
      requires clock == |ops| + 1
      requires forall run :: SlotOf(run) == if run == op.run then SlotStep(SlotAfter(ops, run), op, |ops|)
                                            else SlotAfter(ops, run)
      requires forall a :: inbox(a) == InboxAfter(ops, a) + Handed(SlotAfter(ops, op.run), op, |ops|, a)
      requires forall run :: run in activeAgents ==> activeAgents[run] != [] && Distinct(activeAgents[run])
      modifies this`ops
      ensures Valid() && ops == old(ops) + [op]
    {
      assert (ops + [op])[..|ops|] == ops;
      ops := ops + [op];
    }

    /** Hand the buffer to an agent that has not had it; the buffer stays. */
    method DrainInto(run: string, agent: Agent)
      modifies this`inbox, this`drainedInto
      ensures var s := old(SlotOf(run));
              && SlotOf(run) == s.(drained := if s.buffer == [] then s.drained else s.drained + {agent})
              && (forall other :: other != run ==> SlotOf(other) == old(SlotOf(other)))
              && (forall a :: inbox(a) == old(inbox)(a)
                                          + if a == agent && agent !in s.drained then s.buffer else [])
    {
      var buffered := if run in pendingSteers then pendingSteers[run] else [];
      var drained := if run in drainedInto then drainedInto[run] else {};
      if buffered == [] || agent in drained {
        assert buffered != [] ==> drained + {agent} == drained;
        return;
      }
      drainedInto := drainedInto[run := drained + {agent}];
      for k := 0 to |buffered|
        invariant forall a :: inbox(a) == old(inbox)(a) + if a == agent then buffered[..k] else []
        modifies this`inbox
      {
        Inject(agent, buffered[k]);
      }
      assert buffered[..|buffered|] == buffered;
    }

    method BeginRun(run: string, agent: Agent, target: Target)
      requires Valid()
      modifies this
      ensures Valid() && ops == old(ops) + [Begin(run, Registration(agent, target))]
      ensures OnlyRun(run)
      ensures Joins(old(SlotOf(run)).live, SlotOf(run).live, Registration(agent, target))
      ensures var was := old(SlotOf(run));
              && SlotOf(run).buffer == was.buffer
              && forall a :: inbox(a) == old(inbox)(a) + if a == agent && a !in was.drained then was.buffer else []
    {
      var r := Registration(agent, target);
      assert SlotAfter(ops, run) == SlotOf(run);
      JoinsLast(SlotOf(run).live, r);
      SetLive(run, r);
      clock := clock + 1;
      DrainInto(run, agent);
      Log(Begin(run, r));
    }

    /** The run's agents with this one among them. */
    method SetLive(run: string, r: Registration)
      requires forall other :: other in activeAgents ==> activeAgents[other] != [] && Distinct(activeAgents[other])
      modifies this`activeAgents
      ensures OnlyRun(run) && SlotOf(run) == old(SlotOf(run)).(live := Registered(old(SlotOf(run)).live, r))
      ensures forall other :: other in activeAgents ==> activeAgents[other] != [] && Distinct(activeAgents[other])
    {
      var agents := if run in activeAgents then activeAgents[run] else [];
      RegisteredLive(agents, r, r.agent);
      RegisteredDistinct(agents, r);
      activeAgents := activeAgents[run := Registered(agents, r)];
    }

    method EndRun(run: string, agent: Agent)
      requires Valid()
      modifies this
      ensures Valid() && ops == old(ops) + [End(run, agent)]
      ensures OnlyRun(run) && inbox == old(inbox)
      ensures Leaves(old(SlotOf(run)), SlotOf(run), agent)
    {
      LeavesAlone(SlotOf(run), agent);
      TakeOut(run, agent);
    }

    /** Its step of the history. */
    method TakeOut(run: string, agent: Agent)
      requires Valid()
      modifies this
      ensures Valid() && ops == old(ops) + [End(run, agent)]
      ensures OnlyRun(run) && inbox == old(inbox)
      ensures SlotOf(run) == EndOf(old(SlotOf(run)), agent)
    {
      assert SlotAfter(ops, run) == SlotOf(run);
      DropLive(run, agent);
      clock := clock + 1;
      Log(End(run, agent));
    }

    /** The run's agents without this one; the last one takes the run's entries. */
    method DropLive(run: string, agent: Agent)
      requires forall other :: other in activeAgents ==> activeAgents[other] != [] && Distinct(activeAgents[other])
      modifies this`activeAgents, this`pendingSteers, this`drainedInto
      ensures OnlyRun(run)
      ensures SlotOf(run) == EndOf(old(SlotOf(run)), agent)
      ensures forall other :: other in activeAgents ==> activeAgents[other] != [] && Distinct(activeAgents[other])
    {
      if run in activeAgents {
        var agents := Dropped(activeAgents[run], agent);
        DroppedDistinct(activeAgents[run], agent);
        if agents != [] {
          activeAgents := activeAgents[run := agents];
        } else {
          activeAgents, pendingSteers, drainedInto := activeAgents - {run}, pendingSteers - {run}, drainedInto - {run};
        }
      }
    }

    /** No other run's registrations and buffer are touched. */
    twostate predicate OnlyRun(run: string)
      reads this
    {
      forall other :: other != run ==> SlotOf(other) == old(SlotOf(other))
    }

    /** Inject into every agent, in order. */
    method Broadcast(agents: seq<Registration>, m: Steer) returns (targets: seq<Target>)
      requires Distinct(agents)
      modifies this`inbox
      ensures forall a :: inbox(a) == old(inbox)(a) + if IsLive(agents, a) then [m] else []
      ensures |targets| == |agents| && forall k :: 0 <= k < |agents| ==> targets[k] == agents[k].target
    {
      targets := [];
      for k := 0 to |agents|
        invariant forall a :: inbox(a) == old(inbox)(a) + if IsLive(agents[..k], a) then [m] else []
        invariant |targets| == k && forall j :: 0 <= j < k ==> targets[j] == agents[j].target
      {
        Inject(agents[k].agent, m);
        targets := targets + [agents[k].target];
        assert agents[..k + 1] == agents[..k] + [agents[k]];
        forall a ensures IsLive(agents[..k + 1], a) <==> IsLive(agents[..k], a) || a == agents[k].agent {
          LiveSnoc(agents[..k], agents[k], a);
        }
      }
      assert agents[..|agents|] == agents;
    }

    /** Broadcast to every live agent, or buffer; says which, and to whom. */
    method IssueSteer(run: string, text: string) returns (delivered: bool, targets: seq<Target>)
      requires Valid()
      modifies this
      ensures Valid() && ops == old(ops) + [Issue(run, text)]
      ensures delivered <==> text != "" && old(SlotOf(run)).live != []
      ensures |targets| == if delivered then |old(SlotOf(run)).live| else 0
      ensures forall k :: 0 <= k < |targets| ==> targets[k] == old(SlotOf(run)).live[k].target
      ensures OnlyRun(run)
      // delivered to whoever is live, or kept with the newest thirty-two
      ensures var was, now, m := old(SlotOf(run)), SlotOf(run), Steer(old(clock), run, text);
              && now.live == was.live && now.drained == was.drained
              && (forall a :: inbox(a) == old(inbox)(a) + if delivered && IsLive(was.live, a) then [m] else [])
              && (delivered || text == "" ==> now.buffer == was.buffer)
              && (!delivered && text != "" ==>
                    var all := was.buffer + [m]; now.buffer == all[if |all| > 32 then |all| - 32 else 0..])
    {
      assert SlotAfter(ops, run) == SlotOf(run);
      delivered, targets := false, [];
      var m := Steer(clock, run, text);
      clock := clock + 1;
      if text == "" {
      } else if run in activeAgents {
        delivered := true;
        targets := Broadcast(activeAgents[run], m);
      } else {
        var existing := if run in pendingSteers then pendingSteers[run] else [];
        pendingSteers := pendingSteers[run := Last(existing + [m], MAX_BUFFERED_STEERS)];
      }
      Log(Issue(run, text));
    }

    method ForgetRun(run: string)
      requires Valid()
      modifies this
      ensures Valid() && ops == old(ops) + [Forget(run)]
      ensures OnlyRun(run) && inbox == old(inbox)
      ensures SlotOf(run).live == [] && SlotOf(run).buffer == [] && SlotOf(run).drained == {}
    {
      activeAgents, pendingSteers, drainedInto := activeAgents - {run}, pendingSteers - {run}, drainedInto - {run};
      clock := clock + 1;
      Log(Forget(run));
    }
  }
}
