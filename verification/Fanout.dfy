/** The fan-out superstep of a `parallel` node: a pool of branches that run
    concurrently, settle in any order and commit one at a time, and the bail
    that ends it early. */
module Fanout {
  import opened Wrappers
  import opened Facts
  import opened Seqs
  import opened ResultToFacts
  import opened AbortPlanner
  import opened FanoutPlanner
  import opened ClaimBoundStore
  import opened OccAppend

  // ---------- the pool ----------

  datatype BranchOutcome =
    | Skipped
    | Success(facts: seq<Fact>, nextNode: Option<string>, iteration: nat)
    | Exit(input: ExitInput)

  function OutcomeFacts(o: BranchOutcome): seq<Fact> {
    match o
    case Skipped => []
    case Success(facts, _, _) => facts
    case Exit(input) => PlanExit(input).facts
  }

  /** A branch waits for a pool slot, runs, is done running with its outcome not
      yet delivered, and then has an outcome or has thrown; `Failed` carries
      what it had spent. */
  datatype Branch =
    | Waiting | Live(u: Unsettled) | Landing(outcome: BranchOutcome)
    | Done(outcome: BranchOutcome) | Failed(spent: Usage)
  datatype Member = Member(node: string, state: Branch)

  predicate HasSettled(b: Branch) {
    b.Done? || b.Failed?
  }

  /** What a branch can become while nobody looks. Once the pool has bailed a
      waiting branch is skipped, never started. */
  predicate Progress(a: Branch, b: Branch, bailed: bool) {
    match a
    case Waiting => b.Waiting? || (bailed && b == Done(Skipped)) || (!bailed && b != Done(Skipped))
    case Live(_) => !b.Waiting? && b != Done(Skipped)
    case Landing(outcome) => b == a || b == Done(outcome)
    case _ => b == a
  }

  predicate Evolves(a: seq<Member>, b: seq<Member>, bailed: bool) {
    && |a| == |b|
    && forall i :: 0 <= i < |a| ==> a[i].node == b[i].node && Progress(a[i].state, b[i].state, bailed)
  }

  /** One column of what a branch has spent so far. */
  function BranchSpend(b: Branch, c: Column): nat {
    match b
    case Waiting => 0
    case Live(u) => u.usage.At(c)
    case Landing(o) => Spend(OutcomeFacts(o), c)
    case Done(o) => Spend(OutcomeFacts(o), c)
    case Failed(spent) => spent.At(c)
  }

  /** What a bail misses of it: a branch that threw, and one that is done running
      but has not delivered, is neither among the settled nor among the
      running. */
  function MissedOf(b: Branch, c: Column): nat {
    if b.Failed? || b.Landing? then BranchSpend(b, c) else 0
  }

  function PoolSpend(pool: seq<Member>, c: Column): nat {
    if pool == [] then 0 else BranchSpend(pool[0].state, c) + PoolSpend(pool[1..], c)
  }

  function MissedSpend(pool: seq<Member>, c: Column): nat {
    if pool == [] then 0 else MissedOf(pool[0].state, c) + MissedSpend(pool[1..], c)
  }

  function StillRunning(pool: seq<Member>): seq<Unsettled> {
    FlatMap((m: Member) => if m.state.Live? then [m.state.u] else [], pool)
  }

  function Remove(pool: seq<Member>, i: nat): seq<Member>
    requires i < |pool|
  {
    pool[..i] + pool[i + 1..]
  }

  lemma {:induction false} PoolSpendRemove(pool: seq<Member>, i: nat, c: Column)
    requires i < |pool|
    ensures PoolSpend(pool, c) == PoolSpend(Remove(pool, i), c) + BranchSpend(pool[i].state, c)
    ensures MissedSpend(pool, c) == MissedSpend(Remove(pool, i), c) + MissedOf(pool[i].state, c)
  {
    if i == 0 {
      assert Remove(pool, 0) == pool[1..];
    } else {
      PoolSpendRemove(pool[1..], i - 1, c);
      assert Remove(pool, i)[0] == pool[0] && Remove(pool, i)[1..] == Remove(pool[1..], i - 1);
    }
  }

  /** How often a node is in the pool. */
  function Times(node: string, pool: seq<Member>): nat {
    if pool == [] then 0 else (if pool[0].node == node then 1 else 0) + Times(node, pool[1..])
  }

  function Starts(node: string, entered: seq<string>): nat {
    if entered == [] then 0
    else (if entered[|entered| - 1] == node then 1 else 0) + Starts(node, entered[..|entered| - 1])
  }

  lemma {:induction false} TimesRemove(pool: seq<Member>, i: nat, node: string)
    requires i < |pool|
    ensures Times(node, pool) == Times(node, Remove(pool, i)) + if pool[i].node == node then 1 else 0
  {
    if i == 0 {
      assert Remove(pool, 0) == pool[1..];
    } else {
      TimesRemove(pool[1..], i - 1, node);
      assert Remove(pool, i)[0] == pool[0] && Remove(pool, i)[1..] == Remove(pool[1..], i - 1);
    }
  }

  lemma TimesSnoc(pool: seq<Member>, m: Member)
    ensures forall node :: Times(node, pool + [m]) == Times(node, pool) + if m.node == node then 1 else 0
  {
    forall node ensures Times(node, pool + [m]) == Times(node, pool) + if m.node == node then 1 else 0 {
      TimesRemove(pool + [m], |pool|, node);
      assert Remove(pool + [m], |pool|) == pool;
    }
  }

  lemma StartsSnoc(entered: seq<string>, node: string)
    ensures forall n :: Starts(n, entered + [node]) == Starts(n, entered) + if node == n then 1 else 0
  {
    assert (entered + [node])[..|entered|] == entered;
  }

  lemma {:induction false} TimesEvolve(a: seq<Member>, b: seq<Member>, bailed: bool, node: string)
    requires Evolves(a, b, bailed)
    ensures Times(node, a) == Times(node, b)
  {
    if a != [] {
      TimesEvolve(a[1..], b[1..], bailed, node);
    }
  }

  /** Every node started is in one of the three: settled, in the pool, or left. */
  ghost predicate Everyone(entered: seq<string>, settled: seq<Member>, pool: seq<Member>, rest: seq<Member>) {
    forall node {:trigger Starts(node, entered)} ::
      Starts(node, entered) == Times(node, settled) + Times(node, pool) + Times(node, rest)
  }

  lemma EveryoneEvolves(
      entered: seq<string>, settled: seq<Member>, a: seq<Member>, b: seq<Member>, rest: seq<Member>, bailed: bool)
    requires Everyone(entered, settled, a, rest) && Evolves(a, b, bailed)
    ensures Everyone(entered, settled, b, rest)
  {
    forall node ensures Starts(node, entered) == Times(node, settled) + Times(node, b) + Times(node, rest) {
      TimesEvolve(a, b, bailed, node);
    }
  }

  /** One branch, in whatever state, moves from the pool to the settled. */
  lemma EveryoneSettles(
      entered: seq<string>, settled: seq<Member>, pool: seq<Member>, rest: seq<Member>, i: nat, m: Member)
    requires i < |pool| && Everyone(entered, settled, pool, rest) && m.node == pool[i].node
    ensures Everyone(entered, settled + [m], Remove(pool, i), rest)
  {
    TimesSnoc(settled, m);
    forall node
      ensures Starts(node, entered)
              == Times(node, settled + [m]) + Times(node, Remove(pool, i)) + Times(node, rest)
    {
      TimesRemove(pool, i, node);
    }
  }

  lemma EveryoneLeaves(entered: seq<string>, settled: seq<Member>, pool: seq<Member>)
    requires Everyone(entered, settled, pool, [])
    ensures Everyone(entered, settled, [], pool)
  {
    forall node ensures Starts(node, entered) == Times(node, settled) + Times(node, []) + Times(node, pool) {
      assert Starts(node, entered) == Times(node, settled) + Times(node, pool) + Times(node, []);
    }
  }

  lemma EveryoneEnters(entered: seq<string>, settled: seq<Member>, pool: seq<Member>, rest: seq<Member>, node: string)
    requires Everyone(entered, settled, pool, rest)
    ensures Everyone(entered + [node], settled, pool + [Member(node, Waiting)], rest)
  {
    TimesSnoc(pool, Member(node, Waiting));
    StartsSnoc(entered, node);
  }

  lemma {:induction false} PoolSpendSnoc(pool: seq<Member>, m: Member, c: Column)
    ensures PoolSpend(pool + [m], c) == PoolSpend(pool, c) + BranchSpend(m.state, c)
    ensures MissedSpend(pool + [m], c) == MissedSpend(pool, c) + MissedOf(m.state, c)
  {
    PoolSpendRemove(pool + [m], |pool|, c);
    assert Remove(pool + [m], |pool|) == pool;
  }

  /** How the pool's superstep was left: every branch settled; or a branch's
      batch did not land; or a halt bailed it, `own` being what the halting
      branch still owed; or something threw. */
  datatype PoolEnd = Open | Drained | GaveUp | Bailed(own: seq<Fact>) | Threw

  /** Where a superstep runs: the pass, the region's join, the nodes of the graph. */
  datatype Scope = Scope(pass: nat, join: Option<string>, graph: Option<set<string>>)

  /** The node a branch's completion hands on to: none if that is the join, or if
      the branch would end the run, or leave the graph. */
  function HandsOn(scope: Scope, facts: seq<Fact>, nextNode: Option<string>): Option<string> {
    if nextNode == scope.join || nextNode == None || scope.graph == None then None
    else if nextNode.value !in scope.graph.value then None
    else if exists f :: f in facts && f.RunTerminated? && f.end.Finished? then None
    else nextNode
  }

  function NextOf(scope: Scope, m: Member): Option<string> {
    match m.state
    case Done(Success(facts, next, _)) => HandsOn(scope, facts, next)
    case _ => None
  }

  /** A lane's batch: what the branch's completion keeps, and behind it the marker
      of its successor, if it has one. */
  predicate IsLane(kept: seq<Fact>, successor: Option<string>, pass: nat, batch: seq<Fact>) {
    && kept <= batch
    && if successor == None then batch == kept
       else
         && |batch| == |kept| + 1 && batch[|kept|].DispatchStarted?
         && batch[|kept|].node == successor.value && batch[|kept|].pass == pass
  }

  /** A bail's batch stops the run, and carries, to the token and micro-unit,
      what the halting branch owed and what the rest of the pool had spent,
      but for what it misses of it. */
  ghost predicate BailCarries(batch: seq<Fact>, own: seq<Fact>, rest: seq<Member>) {
    && Parking(batch)
    && forall c {:trigger Money(c)} :: Money(c) ==>
         Spend(batch, c) + MissedSpend(rest, c) == Spend(own, c) + PoolSpend(rest, c)
  }

  function IsBranchEvent(e: PoolEvent): seq<PoolEvent> {
    if e.BranchExit? || e.BranchDone? then [e] else []
  }

  /** The events that are branches settling. */
  function BranchEvents(events: seq<PoolEvent>): seq<PoolEvent> {
    FlatMap(IsBranchEvent, events)
  }

  /** With no outcome left in it, a pool holds only what its running branches
      accrued and what a bail misses. */
  lemma {:induction false} DrainedSpend(pool: seq<Member>, c: Column)
    requires forall m :: m in pool ==> !m.state.Done?
    ensures PoolSpend(pool, c) == AccruedSpend(StillRunning(pool), c) + MissedSpend(pool, c)
  {
    if pool != [] {
      assert pool[0] in pool;
      DrainedSpend(pool[1..], c);
      assert StillRunning(pool) == (if pool[0].state.Live? then [pool[0].state.u] else []) + StillRunning(pool[1..]);
      if pool[0].state.Live? {
        assert StillRunning(pool)[1..] == StillRunning(pool[1..]);
      } else {
        assert StillRunning(pool) == StillRunning(pool[1..]);
      }
    }
  }

  /** Nothing is missed of a pool exactly when no branch of it is caught in the
      middle, or threw, with something spent. */
  lemma {:induction false} NothingMissed(pool: seq<Member>)
    ensures (forall c :: Money(c) ==> MissedSpend(pool, c) == 0)
            <==> forall m, c :: m in pool && Money(c) ==> MissedOf(m.state, c) == 0
  {
    if pool != [] {
      NothingMissed(pool[1..]);
      assert pool[0] in pool && forall m :: m in pool ==> m == pool[0] || m in pool[1..];
      if forall c :: Money(c) ==> MissedSpend(pool, c) == 0 {
        forall c | Money(c) ensures MissedOf(pool[0].state, c) == 0 && MissedSpend(pool[1..], c) == 0 {
          assert MissedSpend(pool, c) == 0;
        }
      }
    }
  }

  /** So a bail carries everything exactly then. */
  lemma BailCarriesAll(batch: seq<Fact>, own: seq<Fact>, rest: seq<Member>)
    requires BailCarries(batch, own, rest)
    ensures (forall c :: Money(c) ==> Spend(batch, c) == Spend(own, c) + PoolSpend(rest, c))
            <==> forall m, c :: m in rest && Money(c) ==> MissedOf(m.state, c) == 0
  {
    NothingMissed(rest);
    forall c | Money(c) ensures Spend(batch, c) == Spend(own, c) + PoolSpend(rest, c) <==> MissedSpend(rest, c) == 0 {
    }
  }

  /** A branch that completed for seven micro-units as the bounded wait ended: it
      is no longer among the running and not yet among the settled, and the
      bail carries none of the seven. Had it delivered, or not yet completed,
      the bail would have. */
  lemma HopLosesSpend(running: Unsettled)
    requires running.node == "build" && running.usage == SEVEN
    ensures var outcome := Success([NodeCompleted("build", 0, 0, SEVEN, "join")], Some("join"), 0);
            var hop := [Member("build", Landing(outcome))];
            && Evolves([Member("build", Live(running))], hop, true)
            && Evolves(hop, [Member("build", Done(outcome))], true)
            && StillRunning(hop) == [] && !HasSettled(hop[0].state)
            && PoolSpend(hop, Cost) == 7 && Spend(BailSettlement([], StillRunning(hop)), Cost) == 0
            && Spend(BailSettlement([OutcomeFacts(outcome)], []), Cost) == 7
            && Spend(BailSettlement([], [running]), Cost) == 7
  {
    var facts := [NodeCompleted("build", 0, 0, SEVEN, "join")];
    var m := Member("build", Landing(Success(facts, Some("join"), 0)));
    var none: seq<seq<Fact>> := [];
    assert facts[1..] == [] && [running][1..] == [] && [facts][1..] == none;
    assert Spend(facts, Cost) == 7;
    PoolSpendSnoc([], m, Cost);
    FlatMapSnoc((m: Member) => if m.state.Live? then [m.state.u] else [], [], m);
    assert [] + [m] == [m];
    assert Flatten(none) == [] && Flatten([facts]) == facts + Flatten(none);
    BailKeepsMoney([], [], Cost);
    BailKeepsMoney([facts], [], Cost);
    BailKeepsMoney([], [running], Cost);
  }

  lemma {:induction false} FlattenSpend(batches: seq<seq<Fact>>, facts: seq<Fact>, c: Column)
    ensures Spend(Flatten(batches + [facts]), c) == Spend(Flatten(batches), c) + Spend(facts, c)
    ensures Emitted(Flatten(batches)) && Emitted(facts) ==> Emitted(Flatten(batches + [facts]))
  {
    FlattenSnoc(batches, facts);
    SpendConcat(Flatten(batches), facts, c);
  }

  /** What the frontier says to do. */
  datatype FanoutPlan = Malformed | Seed(branches: seq<string>) | Join(nextNode: string) | Dispatch(active: seq<string>)

  function PlanFanoutStep(active: Option<seq<string>>, branches: seq<string>, join: Option<string>): FanoutPlan {
    if join == None || branches == [] then Malformed
    else if active == None then Seed(branches)
    else if active.value == [] then Join(join.value)
    else Dispatch(active.value)
  }

  function PlanJoin(deferredPause: bool, node: string, nextNode: string): Fact {
    if deferredPause then RunPaused(Operator, node) else FanoutJoined(node, nextNode)
  }

  function Bumped(streaks: seq<(string, nat)>, node: string): seq<(string, nat)> {
    if streaks == [] then [(node, 1)]
    else if streaks[0].0 == node then [(node, streaks[0].1 + 1)] + streaks[1..]
    else [streaks[0]] + Bumped(streaks[1..], node)
  }

  function Cleared(streaks: seq<(string, nat)>, node: string): seq<(string, nat)> {
    if streaks == [] then []
    else if streaks[0].0 == node then streaks[1..]
    else [streaks[0]] + Cleared(streaks[1..], node)
  }

  /** How often a node aborted in a row. */
  function Streak(streaks: seq<(string, nat)>, node: string): nat {
    if streaks == [] then 0 else if streaks[0].0 == node then streaks[0].1 else Streak(streaks[1..], node)
  }

  /** What a settled branch makes of the streaks: a plain abort adds one to its
      node's, a completion ends it. */
  function StreakStep(streaks: seq<(string, nat)>, m: Member): seq<(string, nat)> {
    match m.state
    case Done(Exit(input)) => if PlanExit(input).outcome == AbortStep then Bumped(streaks, m.node) else streaks
    case Done(Success(_, _, _)) => Cleared(streaks, m.node)
    case _ => streaks
  }

  function StreaksAfter(streaks: seq<(string, nat)>, settled: seq<Member>): seq<(string, nat)> {
    if settled == [] then streaks
    else StreakStep(StreaksAfter(streaks, settled[..|settled| - 1]), settled[|settled| - 1])
  }

  /** Every node has one streak, and none of none. */
  predicate Streaks(streaks: seq<(string, nat)>) {
    && (forall i, j :: 0 <= i < j < |streaks| ==> streaks[i].0 != streaks[j].0)
    && forall i :: 0 <= i < |streaks| ==> streaks[i].1 > 0
  }

  /** A reading of the branches that settled which never looks at a streak: how
      often a node aborted plainly since it last completed. */
  function AbortsSince(before: nat, settled: seq<Member>, node: string): nat {
    if settled == [] then before
    else
      var m := settled[|settled| - 1];
      var earlier := AbortsSince(before, settled[..|settled| - 1], node);
      if m.node != node || !m.state.Done? then earlier
      else if m.state.outcome.Success? then 0
      else if m.state.outcome.Exit? && PlanExit(m.state.outcome.input).outcome == AbortStep then earlier + 1
      else earlier
  }

  lemma {:induction false} NoStreak(streaks: seq<(string, nat)>, node: string)
    requires forall i :: 0 <= i < |streaks| ==> streaks[i].0 != node
    ensures Streak(streaks, node) == 0
  {
    if streaks != [] {
      NoStreak(streaks[1..], node);
    }
  }

  lemma {:induction false} BumpedStreak(streaks: seq<(string, nat)>, node: string, n: string)
    requires Streaks(streaks)
    ensures Streak(Bumped(streaks, node), n) == Streak(streaks, n) + if n == node then 1 else 0
    ensures Streaks(Bumped(streaks, node))
    ensures forall s :: s in Bumped(streaks, node) ==> s.0 == node || s in streaks
  {
    if streaks != [] && streaks[0].0 != node {
      BumpedStreak(streaks[1..], node, n);
    }
  }

  lemma {:induction false} ClearedStreak(streaks: seq<(string, nat)>, node: string, n: string)
    requires Streaks(streaks)
    ensures Streak(Cleared(streaks, node), n) == if n == node then 0 else Streak(streaks, n)
  {
    if streaks != [] {
      if streaks[0].0 != node {
        ClearedStreak(streaks[1..], node, n);
      } else {
        NoStreak(streaks[1..], node);
      }
    }
  }

  lemma {:induction false} ClearedStreaks(streaks: seq<(string, nat)>, node: string)
    requires Streaks(streaks)
    ensures Streaks(Cleared(streaks, node))
    ensures forall s :: s in Cleared(streaks, node) ==> s in streaks
  {
    if streaks != [] && streaks[0].0 != node {
      ClearedStreaks(streaks[1..], node);
      var rest := Cleared(streaks[1..], node);
      forall k | 0 <= k < |rest| ensures rest[k].0 != streaks[0].0 && rest[k].1 > 0 {
        assert rest[k] in rest && rest[k] in streaks[1..];
      }
    }
  }

  lemma {:induction false} StreakStepCounts(streaks: seq<(string, nat)>, m: Member, node: string)
    requires Streaks(streaks)
    ensures Streaks(StreakStep(streaks, m))
    ensures Streak(StreakStep(streaks, m), node) == AbortsSince(Streak(streaks, node), [m], node)
  {
    assert [m][..0] == [];
    BumpedStreak(streaks, m.node, node);
    ClearedStreak(streaks, m.node, node);
    ClearedStreaks(streaks, m.node);
  }

  /** The streaks a pool leaves are those: of every node, how often it aborted
      plainly since it last completed. */
  lemma {:induction false} StreaksCount(streaks: seq<(string, nat)>, settled: seq<Member>, node: string)
    requires Streaks(streaks)
    ensures Streaks(StreaksAfter(streaks, settled))
    ensures Streak(StreaksAfter(streaks, settled), node) == AbortsSince(Streak(streaks, node), settled, node)
  {
    if settled != [] {
      var k := |settled| - 1;
      StreaksCount(streaks, settled[..k], node);
      StreakStepCounts(StreaksAfter(streaks, settled[..k]), settled[k], node);
      assert [settled[k]][..0] == [];
      assert AbortsSince(Streak(streaks, node), settled, node)
          == AbortsSince(AbortsSince(Streak(streaks, node), settled[..k], node), [settled[k]], node);
    }
  }

  /** The story of a pool: every event that may have offered a run-level fact;
      the nodes started; the branches that settled, in that order and each as it
      had settled; the rest of the pool as it was when it was left, and how; and
      the ledger: as the pool found it, what its lanes committed, and what came
      behind them. */
  datatype Story = Story(
    events: seq<PoolEvent>, entered: seq<string>, settled: seq<Member>, rest: seq<Member>, how: PoolEnd,
    base: seq<Entry>, lanes: seq<Entry>, tail: seq<Entry>)

  function Blank(ledger: seq<Entry>): Story {
    Story([], [], [], [], Open, ledger, [], [])
  }

  /** The pool was not left yet. */
  predicate Going(s: Story) {
    s.how == Open && s.rest == [] && s.tail == []
  }

  /** The batch a branch's outcome puts on its lane. */
  ghost predicate LaneOf(scope: Scope, m: Member, batch: seq<Fact>) {
    match m.state
    case Done(Exit(input)) => batch == ExitKept(PlanExit(input).facts)
    case Done(Success(facts, next, iteration)) =>
      IsLane(Kept(facts, At(iteration, scope.pass)), HandsOn(scope, facts, next), scope.pass, batch)
    case _ => false
  }

  /** Each settled branch, in order, has its batch committed. */
  ghost predicate LanesOf(scope: Scope, settled: seq<Member>, lanes: seq<Entry>)
    decreases |settled|
  {
    if settled == [] then lanes == []
    else
      var k := |settled| - 1;
      && lanes != [] && LanesOf(scope, settled[..k], lanes[..|lanes| - 1])
      && LaneOf(scope, settled[k], lanes[|lanes| - 1].batch) && lanes[|lanes| - 1].fate == Committed
  }

  /** All but the last branch to settle have their batches committed. */
  ghost predicate AllButLast(scope: Scope, settled: seq<Member>, lanes: seq<Entry>) {
    && settled != [] && settled[|settled| - 1].state != Done(Skipped)
    && LanesOf(scope, settled[..|settled| - 1], lanes)
  }

  /** The last branch's own exit halts; its batch rides the bail. */
  ghost predicate HaltedByExit(scope: Scope, settled: seq<Member>, lanes: seq<Entry>, own: seq<Fact>) {
    && AllButLast(scope, settled, lanes)
    && var state := settled[|settled| - 1].state;
       && state.Done? && state.outcome.Exit? && PlanExit(state.outcome.input).outcome == Halt
       && forall c {:trigger Money(c)} :: Money(c) ==>
            Spend(own, c) == Spend(PlanExit(state.outcome.input).facts, c)
  }

  /** What a settled branch offers. */
  function EventOf(scope: Scope, m: Member): seq<PoolEvent> {
    match m.state
    case Done(Exit(input)) => [BranchExit(input)]
    case Done(Success(facts, next, _)) => [BranchDone(m.node, facts, Resolve(next, scope.join, scope.graph))]
    case _ => []
  }

  function EventsOf(scope: Scope, settled: seq<Member>): seq<PoolEvent> {
    if settled == [] then []
    else EventsOf(scope, settled[..|settled| - 1]) + EventOf(scope, settled[|settled| - 1])
  }

  /** What a pool that was left wrote: every branch's batch, but for the last one
      where it did not land, halted or threw. */
  ghost predicate PoolWrote(scope: Scope, s: Story) {
    match s.how
    case Open => false
    case Drained => LanesOf(scope, s.settled, s.lanes) && s.rest == []
    case GaveUp => AllButLast(scope, s.settled, s.lanes)
    case Bailed(_) => LanesOf(scope, s.settled, s.lanes) || AllButLast(scope, s.settled, s.lanes)
    case Threw =>
      && s.tail == []
      && (LanesOf(scope, s.settled, s.lanes)
          || (AllButLast(scope, s.settled, s.lanes) && s.settled[|s.settled| - 1].state.Failed?))
  }

  lemma {:induction false} LanesSkipNone(scope: Scope, settled: seq<Member>, lanes: seq<Entry>)
    requires LanesOf(scope, settled, lanes)
    ensures NoneSkipped(settled)
    decreases |settled|
  {
    if settled != [] {
      var k := |settled| - 1;
      LanesSkipNone(scope, settled[..k], lanes[..|lanes| - 1]);
      assert settled == settled[..k] + [settled[k]];
    }
  }

  /** No branch that settled had been skipped: a pool that skips has bailed, and
      settles no more. */
  lemma NoneWereSkipped(scope: Scope, s: Story)
    requires PoolWrote(scope, s)
    ensures NoneSkipped(s.settled)
  {
    if AllButLast(scope, s.settled, s.lanes) {
      var k := |s.settled| - 1;
      LanesSkipNone(scope, s.settled[..k], s.lanes);
      assert s.settled == s.settled[..k] + [s.settled[k]];
    } else {
      LanesSkipNone(scope, s.settled, s.lanes);
    }
  }

  /** A batch that stops the run, as what it entered and what is parked: entered
      once, or parked whole, or entered at most once behind a throw. */
  ghost predicate ParkWrote(wrote: seq<Entry>, parked: Option<seq<Fact>>, batch: seq<Fact>, r: TurnEnd) {
    match r
    case TurnOver(Terminal) => exists fate :: wrote == [Entry(batch, fate)]
    case TurnOver(Continue) => wrote == [] && parked == Some(batch)
    case TurnThrew(_) => wrote == [] || exists fate :: wrote == [Entry(batch, fate)]
  }

  /** A batch that was not committed: nothing was entered behind a throw, or its
      other fate. */
  ghost predicate WroteElse(wrote: seq<Entry>, batch: seq<Fact>, r: TurnEnd) {
    if wrote == [] then r.TurnThrew?
    else exists fate :: wrote == [Entry(batch, fate)] && (r.TurnOver? ==> fate != Committed) && EndsSo(fate, r)
  }

  /** What came behind the lanes of a pool that was left: the slot, the first
      maximum of all offers, if every branch settled; the last branch's batch
      that was not committed; or the batch of a bail, with all it carries. */
  ghost predicate TailWrote(scope: Scope, s: Story, parked: Option<seq<Fact>>, r: TurnEnd) {
    match s.how
    case Open => false
    case Drained =>
      && |s.tail| <= 1
      && var slot := PoolSlot(None, s.events); (slot.Some? ==> ParkWrote(s.tail, parked, [slot.value], r))
    case GaveUp =>
      s.settled != [] && exists batch ::
        LaneOf(scope, s.settled[|s.settled| - 1], batch) && WroteElse(s.tail, batch, r)
    case Bailed(own) => exists batch :: ParkWrote(s.tail, parked, batch, r) && BailCarries(batch, own, s.rest)
    case Threw => s.tail == [] && r.TurnThrew?
  }

  /** The frontier's nodes that start first: all of them, unless the budget had
      tripped or the dispatches ran out. */
  function FirstStarts(maxLoops: nat, active: seq<string>, dispatches: nat, tripped: bool): (first: seq<string>)
    ensures first <= active
  {
    if tripped || dispatches >= maxLoops then []
    else if |active| <= maxLoops - dispatches then active else active[..maxLoops - dispatches]
  }

  lemma FirstStartsSnoc(maxLoops: nat, front: seq<string>, node: string, dispatches: nat, tripped: bool)
    ensures var first := FirstStarts(maxLoops, front, dispatches, tripped);
            FirstStarts(maxLoops, front + [node], dispatches, tripped)
            == first + if tripped || dispatches + |first| >= maxLoops then [] else [node]
  {
  }

  predicate NoneSkipped(pool: seq<Member>) {
    forall m :: m in pool ==> m.state != Done(Skipped)
  }

  /** Nothing was started. */
  predicate Idle(s: Story) {
    s.entered == [] && s.settled == [] && s.rest == [] && s.how == Open
  }

  class Superstep {
    const occ: OccController
    const ts: TurnState
    const parallel: string
    const scope: Scope
    const maxLoops: nat
    /** The branch whose closure a node lies in: closures are disjoint. */
    const owner: string -> string

    var pool: seq<Member>
    var disposition: Option<Fact>
    var bailed: bool
    var budgetTrip: bool
    ghost var story: Story
    /** The books when the superstep began. */
    ghost const opening: Column -> nat
    ghost const openDropped: Column -> nat
    ghost const openDispatches: nat
    ghost const openAborts: seq<(string, nat)>
    ghost const openTrace: seq<Event>

    constructor (
        occ: OccController, ts: TurnState, parallel: string, scope: Scope, maxLoops: nat, owner: string -> string)
      ensures this.occ == occ && this.ts == ts && this.parallel == parallel && this.scope == scope
      ensures this.maxLoops == maxLoops && this.owner == owner
      ensures pool == [] && !bailed && !budgetTrip && disposition == None && story == Blank(occ.store.ledger)
      ensures opening == ts.billed && openDropped == ts.dropped && openDispatches == ts.dispatches
      ensures openAborts == ts.branchAborts
      ensures openTrace == occ.store.log.trace
    {
      this.occ, this.ts, this.parallel, this.scope := occ, ts, parallel, scope;
      this.maxLoops, this.owner := maxLoops, owner;
      pool, disposition, bailed, budgetTrip, story := [], None, false, false, Blank(occ.store.ledger);
      opening, openDropped, openDispatches, openTrace := ts.billed, ts.dropped, ts.dispatches, occ.store.log.trace;
      openAborts := ts.branchAborts;
    }

    // ---------- what a settled branch leaves ----------

    /** Every branch that settled so far committed its batch and made its offers,
        in the order they settled. */
    ghost predicate UpToDate(s: Story) {
      LanesOf(scope, s.settled, s.lanes) && BranchEvents(s.events) == EventsOf(scope, s.settled) && Going(s)
    }

    /** A branch has just settled; those before it are up to date. */
    ghost predicate Settling(s: Story, m: Member) {
      && s.settled != [] && s.settled[|s.settled| - 1] == m && Going(s)
      && LanesOf(scope, s.settled[..|s.settled| - 1], s.lanes)
      && BranchEvents(s.events) == EventsOf(scope, s.settled[..|s.settled| - 1])
    }

    /** It made its offers too, and has yet to commit its batch. */
    ghost predicate Ready(s: Story, m: Member) {
      && s.settled != [] && s.settled[|s.settled| - 1] == m && Going(s)
      && LanesOf(scope, s.settled[..|s.settled| - 1], s.lanes)
      && BranchEvents(s.events) == EventsOf(scope, s.settled)
    }

    lemma LaneCommitted(s: Story, m: Member, batch: seq<Fact>)
      requires Ready(s, m) && LaneOf(scope, m, batch)
      ensures LanesOf(scope, s.settled, s.lanes + [Entry(batch, Committed)])
    {
      var lanes := s.lanes + [Entry(batch, Committed)];
      assert lanes[..|lanes| - 1] == s.lanes;
    }

    /** Its offers are made. */
    lemma OffersMade(s: Story, m: Member, events: seq<PoolEvent>)
      requires Settling(s, m) && BranchEvents(events) == BranchEvents(s.events) + EventOf(scope, m)
      ensures BranchEvents(events) == EventsOf(scope, s.settled)
    {
    }

    // ---------- the invariant ----------

    /** A branch reports on its own node, emits no legacy fact, and hands on to
        a node of its own closure. */
    predicate MemberOk(m: Member) {
      match m.state
      case Live(u) => u.node == m.node
      case Landing(outcome) => outcome != Skipped && OutcomeOk(m.node, outcome)
      case Done(outcome) => OutcomeOk(m.node, outcome)
      case _ => true
    }

    predicate OutcomeOk(node: string, outcome: BranchOutcome) {
      match outcome
      case Skipped => true
      case Success(facts, nextNode, _) =>
        && Emitted(facts)
        && (Resolve(nextNode, scope.join, scope.graph).Continues? ==> owner(nextNode.value) == owner(node))
      case Exit(input) => input.node == node
    }

    predicate PoolOk(pool: seq<Member>) {
      && (forall m :: m in pool ==> MemberOk(m))
      && (forall i, j :: 0 <= i < j < |pool| ==> owner(pool[i].node) != owner(pool[j].node))
    }

    predicate Absent(node: string, pool: seq<Member>) {
      forall m :: m in pool ==> owner(m.node) != owner(node)
    }

    /** The slot holds what every event so far offered, ranked. */
    predicate SlotOk(slot: Option<Fact>, events: seq<PoolEvent>) {
      && slot == PoolSlot(None, events)
      && (slot.Some? ==> Parks(slot.value) && FactSpend(slot.value) == NO_USAGE)
    }

    /** The pool and its slot. Every start is counted, and until the pool bails
        no branch is skipped. */
    ghost predicate Pooled()
      reads this`pool, this`disposition, this`story, this`bailed, ts`dispatches
    {
      && PoolOk(pool) && SlotOk(disposition, story.events)
      && Everyone(story.entered, story.settled, pool, story.rest)
      && ts.dispatches == openDispatches + |story.entered|
      && (bailed || NoneSkipped(pool))
    }

    ghost predicate BooksKept()
      reads occ, occ.store, ts`billed, ts`dropped, ts`pending, ts`recommitting
    {
      occ.Valid() && occ.store.Balanced() && Accounted(occ, ts) && !ts.recommitting && occ.held == []
    }

    /** The store and the books. */
    ghost predicate Booked()
      reads this`story, occ, occ.store, ts`billed, ts`dropped, ts`pending, ts`recommitting
    {
      && BooksKept()
      && occ.store.ledger == story.base + story.lanes + story.tail && openTrace <= occ.store.log.trace
    }

    /** Since the superstep began, exactly what its branches spent was billed,
        but for what is still owed for a branch being settled; and what was
        dropped is what branches that threw had spent and what the rest of the
        pool had, of which a bail drops only what it misses. */
    ghost predicate Tallied(owed: seq<Fact>)
      reads this`story, ts`billed, ts`dropped
    {
      forall c {:trigger Money(c)} :: Money(c) ==>
        && ts.billed(c) + Spend(owed, c) == opening(c) + PoolSpend(story.settled, c) + PoolSpend(story.rest, c)
        && ts.dropped(c)
           == openDropped(c) + MissedSpend(story.settled, c)
              + if story.how.Bailed? then MissedSpend(story.rest, c) else PoolSpend(story.rest, c)
    }

    /** The branch being settled threw, and what it had spent is yet to drop. */
    ghost predicate Owing(spent: Usage)
      reads this`story, ts`billed, ts`dropped
    {
      forall c {:trigger Money(c)} :: Money(c) ==>
        && ts.billed(c) + spent.At(c) == opening(c) + PoolSpend(story.settled, c) + PoolSpend(story.rest, c)
        && ts.dropped(c) + spent.At(c)
           == openDropped(c) + MissedSpend(story.settled, c)
              + if story.how.Bailed? then MissedSpend(story.rest, c) else PoolSpend(story.rest, c)
    }

    /** What a settled branch owes, until its batch is committed or dropped. */
    ghost predicate Owes(m: Member)
      reads this`story, ts`billed, ts`dropped
    {
      match m.state
      case Failed(spent) => Owing(spent)
      case Done(outcome) => Tallied(OutcomeFacts(outcome))
      case _ => false
    }

    // ---------- the environment ----------

    lemma SkipsNone(a: seq<Member>, b: seq<Member>)
      requires PoolOk(a) && NoneSkipped(a) && Evolves(a, b, false)
      ensures NoneSkipped(b)
    {
      forall m | m in b ensures m.state != Done(Skipped) {
        var i :| 0 <= i < |b| && b[i] == m;
        assert a[i] in a;
      }
    }

    /** The handlers run on. */
    method Advance()
      requires Pooled()
      modifies this`pool, this`budgetTrip
      ensures Pooled() && Evolves(old(pool), pool, bailed)
    {
      var next: seq<Member>, trip: bool := *, *;
      if Evolves(pool, next, bailed) && PoolOk(next) {
        EveryoneEvolves(story.entered, story.settled, pool, next, story.rest, bailed);
        if !bailed {
          SkipsNone(pool, next);
        }
        pool := next;
      }
      budgetTrip := budgetTrip || trip;
    }

    /** Wait for some branch to settle and take it out of the pool. */
    method TakeSettled() returns (m: Member)
      requires Pooled() && pool != [] && !bailed
      modifies this`pool, this`budgetTrip, this`story
      ensures Pooled() && |pool| == |old(pool)| - 1
      ensures MemberOk(m) && HasSettled(m.state) && m.state != Done(Skipped) && Absent(m.node, pool)
      ensures story == old(story).(settled := old(story.settled) + [m])
    {
      Advance();
      var i: nat, b: Branch := *, *;
      i := i % |pool|;
      m := pool[i];
      assert m in pool;
      if !HasSettled(m.state) {
        m := if m.state.Landing? then Member(m.node, Done(m.state.outcome))
             else if HasSettled(b) && Progress(m.state, b, bailed) && MemberOk(Member(m.node, b)) then Member(m.node, b)
             else Member(m.node, Failed(NO_USAGE));
      }
      EveryoneSettles(story.entered, story.settled, pool, story.rest, i, m);
      pool := Remove(pool, i);
      story := story.(settled := story.settled + [m]);
    }

    twostate lemma NowOwed(m: Member)
      requires old(Tallied([])) && ts.billed == old(ts.billed) && ts.dropped == old(ts.dropped)
      requires story == old(story).(settled := old(story.settled) + [m]) && HasSettled(m.state)
      ensures Owes(m)
    {
      forall c ensures PoolSpend(story.settled, c) == PoolSpend(old(story.settled), c) + BranchSpend(m.state, c)
                       && MissedSpend(story.settled, c) == MissedSpend(old(story.settled), c) + MissedOf(m.state, c)
      {
        PoolSpendSnoc(old(story.settled), m, c);
      }
    }

    // ---------- the slot ----------

    ghost method Offer(e: PoolEvent)
      modifies this`story
      ensures story == old(story).(events := old(story.events) + [e])
      ensures PoolSlot(None, story.events) == SlotStep(PoolSlot(None, old(story.events)), e)
      ensures BranchEvents(story.events) == BranchEvents(old(story.events)) + IsBranchEvent(e)
    {
      PoolSlotSnoc(None, story.events, e);
      FlatMapSnoc(IsBranchEvent, story.events, e);
      story := story.(events := story.events + [e]);
    }

    method Audit() returns (raised: Option<Exn>)
      requires Booked()
      modifies occ.store`st, occ.store`log
      ensures Booked() && occ.store.ledger == old(occ.store.ledger)
      ensures raised == Some(ClaimLostError) ==> !Driven(occ.store.st, occ.store.claim)
      ensures raised.Some? ==> ThrewLast(occ.store.log.trace, raised.value)
    {
      raised := occ.store.AppendObservability();
    }

    /** A run-level budget breach joins the slot, unless a halt is in it. */
    method CaptureDisposition() returns (raised: Option<Exn>)
      requires Pooled() && Booked()
      modifies this`disposition, this`story, occ.store`st, occ.store`log
      ensures Pooled() && Booked() && occ.store.ledger == old(occ.store.ledger)
      ensures raised == Some(ClaimLostError) ==> !Driven(occ.store.st, occ.store.claim)
      ensures raised.Some? ==> ThrewLast(occ.store.log.trace, raised.value)
      ensures BranchEvents(story.events) == BranchEvents(old(story.events))
      ensures if raised.Some? || (old(disposition).Some? && old(disposition).value.RunTerminated?)
              then story == old(story) && disposition == old(disposition)
              else exists breach: Option<Fact> ::
                     && (breach.Some? ==> IsBreach(breach.value, parallel))
                     && story == old(story).(events := old(story.events) + [BudgetCapture(breach)])
                     && disposition == SlotStep(old(disposition), BudgetCapture(breach))
      ensures old(disposition).Some? && old(disposition).value.RunTerminated? ==> raised == None
    {
      if disposition.Some? && disposition.value.RunTerminated? {
        return None;
      }
      var halt: Option<string>, pause: bool := *, *;
      raised := Audit();
      if raised == None {
        var breach := PlanBudgetBreach(halt, pause, parallel);
        Offer(BudgetCapture(breach));
        if breach.Some? {
          disposition := NoteDisposition(disposition, breach.value);
        }
      }
    }

    /** Start one node; not once the budget tripped, and at the dispatch ceiling
        offer its pause instead. */
    method PoolDispatch(node: string)
      requires Pooled() && Absent(node, pool)
      modifies this`pool, this`disposition, this`story, ts`dispatches
      ensures Pooled() && BranchEvents(story.events) == BranchEvents(old(story.events))
      ensures if budgetTrip then
                pool == old(pool) && story == old(story) && disposition == old(disposition)
                && ts.dispatches == old(ts.dispatches)
              else if old(ts.dispatches) >= maxLoops then
                pool == old(pool) && ts.dispatches == old(ts.dispatches)
                && story == old(story).(events := old(story.events) + [LoopCeiling("")])
                && disposition == NoteDisposition(old(disposition), RunPaused(MaxLoops, ""))
              else
                pool == old(pool) + [Member(node, Waiting)] && ts.dispatches == old(ts.dispatches) + 1
                && story == old(story).(entered := old(story.entered) + [node]) && disposition == old(disposition)
    {
      if budgetTrip {
        return;
      }
      if ts.dispatches >= maxLoops {
        Offer(LoopCeiling(""));
        disposition := NoteDisposition(disposition, RunPaused(MaxLoops, ""));
        return;
      }
      ts.dispatches := ts.dispatches + 1;
      EveryoneEnters(story.entered, story.settled, pool, story.rest, node);
      pool := pool + [Member(node, Waiting)];
      story := story.(entered := story.entered + [node]);
    }

    // ---------- leaving the pool ----------

    /** The pool is left: what its branches had spent is on `rest`, and is dropped
        with them unless a bail commits it. */
    ghost method Leave(final: seq<Member>, end: PoolEnd, owed: seq<Fact>, batch: seq<Fact>, tail: seq<Entry>)
      requires Accounted(occ, ts) && Tallied(owed) && Going(story)
      requires if end.Bailed? then BailCarries(batch, owed, final) else batch == owed
      modifies this`story, ts`billed, ts`dropped
      ensures story == old(story).(rest := final, how := end, tail := tail) && Accounted(occ, ts) && Tallied(batch)
    {
      ts.Drop(c => if end.Bailed? then MissedSpend(final, c) else PoolSpend(final, c));
      story := story.(rest := final, how := end, tail := tail);
    }

    /** The rest of the pool is aborted and its outcomes discarded. */
    method Discard(ghost end: PoolEnd, ghost tail: seq<Entry>)
      requires Pooled() && Accounted(occ, ts) && Tallied([]) && Going(story) && !end.Bailed?
      modifies this`pool, this`budgetTrip, this`bailed, this`story, ts`billed, ts`dropped
      ensures Pooled() && Accounted(occ, ts) && Tallied([]) && pool == [] && bailed
      ensures story == old(story).(rest := story.rest, how := end, tail := tail) && Evolves(old(pool), story.rest, true)
    {
      bailed := true;
      Advance();
      EveryoneLeaves(story.entered, story.settled, pool);
      Leave(pool, end, [], [], tail);
      pool := [];
    }

    lemma OutcomeEmitted(m: Member)
      requires MemberOk(m) && m.state.Done?
      ensures Emitted(OutcomeFacts(m.state.outcome))
    {
      if m.state.outcome.Exit? {
        var body, tail := ExitShape(m.state.outcome.input);
      }
    }

    lemma DrainStep(settled: seq<seq<Fact>>, rest: seq<Member>, i: nat)
      requires i < |rest| && rest[i].state.Done?
      ensures var facts := OutcomeFacts(rest[i].state.outcome);
              && (forall c :: Spend(Flatten(settled + [facts]), c) + PoolSpend(Remove(rest, i), c)
                              == Spend(Flatten(settled), c) + PoolSpend(rest, c))
              && (forall c :: MissedSpend(Remove(rest, i), c) == MissedSpend(rest, c))
              && (Emitted(Flatten(settled)) && Emitted(facts) ==> Emitted(Flatten(settled + [facts])))
    {
      var facts := OutcomeFacts(rest[i].state.outcome);
      forall c
        ensures Spend(Flatten(settled + [facts]), c) + PoolSpend(Remove(rest, i), c)
                == Spend(Flatten(settled), c) + PoolSpend(rest, c)
        ensures MissedSpend(Remove(rest, i), c) == MissedSpend(rest, c)
      {
        PoolSpendRemove(rest, i, c);
        FlattenSpend(settled, facts, c);
      }
      FlattenSpend(settled, facts, Cost);
    }

    /** Split the pool into the batches of the branches that settled, in any
        order, and those still running. */
    method Drain(final: seq<Member>) returns (settled: seq<seq<Fact>>, unsettled: seq<Unsettled>)
      requires PoolOk(final)
      ensures forall c :: Spend(Flatten(settled), c) + AccruedSpend(unsettled, c) + MissedSpend(final, c)
                          == PoolSpend(final, c)
      ensures Emitted(Flatten(settled))
    {
      var rest := final;
      settled := [];
      while exists i :: 0 <= i < |rest| && rest[i].state.Done?
        invariant forall m :: m in rest ==> MemberOk(m)
        invariant forall c :: Spend(Flatten(settled), c) + PoolSpend(rest, c) == PoolSpend(final, c)
        invariant forall c :: MissedSpend(rest, c) == MissedSpend(final, c)
        invariant Emitted(Flatten(settled))
        decreases |rest|
      {
        var i: nat :| i < |rest| && rest[i].state.Done?;
        var facts := OutcomeFacts(rest[i].state.outcome);
        OutcomeEmitted(rest[i]);
        DrainStep(settled, rest, i);
        settled := settled + [facts];
        rest := Remove(rest, i);
      }
      unsettled := StillRunning(rest);
      forall c ensures Spend(Flatten(settled), c) + AccruedSpend(unsettled, c) + MissedSpend(final, c)
                       == PoolSpend(final, c)
      {
        DrainedSpend(rest, c);
      }
    }

    /** What holds however the superstep ends its turn. */
    ghost predicate PassState(r: TurnEnd)
      reads occ, occ.store, ts`billed, ts`dropped, ts`pending, ts`recommitting
    {
      && occ.Valid() && occ.store.Balanced() && Accounted(occ, ts) && PassEnds(r, occ)
      && openTrace <= occ.store.log.trace
      && (r.TurnOver? ==> !ts.recommitting && occ.held == [] && (ts.pending.Some? ==> Parking(ts.pending.value)))
    }

    /** A batch that stops the run is in the ledger, or parked for the next turn,
        or the store threw on it. */
    ghost predicate ParkShown(r: TurnEnd, batch: seq<Fact>)
      reads this`story, occ, occ.store, ts`pending
    {
      match r
      case TurnOver(Terminal) => exists fate :: story.tail == [Entry(batch, fate)]
      case TurnOver(Continue) => story.tail == [] && ts.pending == Some(batch)
      case TurnThrew(exn) =>
        if story.tail == [] then ThrewLast(occ.store.log.trace, exn)
        else exists fate :: story.tail == [Entry(batch, fate)]
    }

    /** Commit a park or terminal through the lane. A lost race parks it. */
    method CommitDisposition(facts: seq<Fact>) returns (r: TurnEnd)
      requires Booked() && Parking(facts) && story.tail == []
      requires ts.pending == None || ts.pending == Some(facts)
      modifies occ, occ.store, ts`pending, ts`billed, ts`recommitting, this`story
      ensures PassState(r) && ParkShown(r, facts) && story == old(story).(tail := story.tail)
      ensures occ.store.ledger == story.base + story.lanes + story.tail
      ensures forall c {:trigger Money(c)} :: Money(c) ==>
                ts.billed(c) == old(ts.billed)(c) + if old(ts.pending).Some? then 0 else Spend(facts, c)
    {
      ghost var was := occ.store.ledger;
      var end, last, shown := CommitBilled(occ, ts, CommitPlan(0, Lane, None, true), facts);
      ghost var tail := occ.store.ledger[|was|..];
      assert occ.store.ledger == was + tail;
      story := story.(tail := tail);
      if end.Raised? {
        return TurnThrew(end.exn);
      }
      r := TurnOver(Outcome(end, Terminal, Terminal));
    }

    /** A halt bails the pool: abort the siblings, wait a bounded while, and
        commit what they spent, running or settled, ahead of the terminal facts
        in one batch. */
    method BailOnTerminal(terminal: seq<Fact>) returns (r: TurnEnd, ghost batch: seq<Fact>)
      requires Pooled() && Booked() && Parking(terminal) && ts.pending == None && Tallied(terminal) && Going(story)
      modifies this`pool, this`budgetTrip, this`bailed, this`story, ts`billed, ts`dropped
      modifies occ, occ.store, ts`pending, ts`recommitting
      ensures PassState(r) && Tallied([]) && Pooled() && pool == []
      ensures story == old(story).(rest := story.rest, how := Bailed(terminal), tail := story.tail)
      ensures Evolves(old(pool), story.rest, true) && occ.store.ledger == story.base + story.lanes + story.tail
      // the terminal is last, and stops the run behind any sibling facts
      ensures exists siblings :: batch == siblings + terminal
      ensures forall s :: StatusAfter(s, batch) == StatusAfter(s, terminal)
      // every sibling's spend, settled or still running, rides it exactly once
      ensures BailCarries(batch, terminal, story.rest)
      // and it is what was offered to the log, or parked for the next turn
      ensures ParkShown(r, batch)
    {
      var all := BailBatch(terminal);
      batch := all;
      r := CommitDisposition(all);
    }

    /** Abort the pool and gather the batch of a bail. */
    method BailBatch(terminal: seq<Fact>) returns (batch: seq<Fact>)
      requires Pooled() && Booked() && Parking(terminal) && Tallied(terminal) && Going(story)
      modifies this`pool, this`budgetTrip, this`bailed, this`story, ts`billed, ts`dropped
      ensures Pooled() && Booked() && Tallied(batch) && pool == []
      ensures story == old(story).(rest := story.rest, how := Bailed(terminal))
      ensures Evolves(old(pool), story.rest, true)
      ensures exists siblings :: batch == siblings + terminal
      ensures forall s :: StatusAfter(s, batch) == StatusAfter(s, terminal)
      ensures BailCarries(batch, terminal, story.rest)
    {
      var siblings := AbortAndDrain(terminal);
      batch := siblings + terminal;
      EveryoneLeaves(story.entered, story.settled, pool);
      Leave(pool, Bailed(terminal), terminal, batch, []);
      pool := [];
    }

    /** Abort the siblings, wait for them, and plan what they leave behind. */
    method AbortAndDrain(ghost terminal: seq<Fact>) returns (siblings: seq<Fact>)
      requires Pooled() && Parking(terminal)
      modifies this`pool, this`budgetTrip, this`bailed
      ensures Pooled() && Evolves(old(pool), pool, true)
      ensures forall s :: StatusAfter(s, siblings + terminal) == StatusAfter(s, terminal)
      ensures BailCarries(siblings + terminal, terminal, pool)
    {
      bailed := true;
      Advance();
      var settled, unsettled := Drain(pool);
      siblings := PlanBailSettlement(settled, unsettled);
      BailAddsUp(settled, unsettled, pool, terminal);
    }

    lemma BailAddsUp(settled: seq<seq<Fact>>, unsettled: seq<Unsettled>, final: seq<Member>, terminal: seq<Fact>)
      requires Parking(terminal) && Emitted(Flatten(settled))
      requires forall c :: Spend(Flatten(settled), c) + AccruedSpend(unsettled, c) + MissedSpend(final, c)
                           == PoolSpend(final, c)
      ensures var batch := BailSettlement(settled, unsettled) + terminal;
              && (forall s :: StatusAfter(s, batch) == StatusAfter(s, terminal))
              && BailCarries(batch, terminal, final)
    {
      var siblings := BailSettlement(settled, unsettled);
      forall s ensures StatusAfter(s, siblings + terminal) == StatusAfter(s, terminal) {
        BailEndsRun(settled, unsettled, terminal, s);
      }
      forall c {:trigger Money(c)} | Money(c)
        ensures Spend(siblings + terminal, c) + MissedSpend(final, c) == Spend(terminal, c) + PoolSpend(final, c)
      {
        BailKeepsMoney(settled, unsettled, c);
        SpendConcat(siblings, terminal, c);
      }
    }

    /** A branch's batch that did not land: the store threw on it, or the ledger
        names its fate. */
    ghost predicate GaveUpOn(r: TurnEnd, batch: seq<Fact>, tail: seq<Entry>, trace: seq<Event>) {
      if tail == [] then r.TurnThrew? && ThrewLast(trace, r.exn)
      else exists fate :: tail == [Entry(batch, fate)] && (r.TurnOver? ==> fate != Committed) && EndsSo(fate, r)
    }

    lemma GivesUp(end: CommitEnd, batch: seq<Fact>, was: seq<Entry>, now: seq<Entry>, trace: seq<Event>)
      requires LaneShown(end, batch, was, now, trace) && !end.Landed?
      ensures was <= now && now == was + now[|was|..] && GaveUpOn(EndOfLane(end), batch, now[|was|..], trace)
    {
      if now != was {
        var fate :| now == was + [Entry(batch, fate)] && (!end.Raised? ==> fate != Committed)
                    && EndsSo(fate, EndOfLane(end));
        assert now[|was|..] == [Entry(batch, fate)];
      }
    }

    function EndOfLane(end: CommitEnd): TurnEnd {
      if end.Raised? then TurnThrew(end.exn) else TurnOver(Outcome(end, Continue, Continue))
    }

    /** Commit a settled branch's batch on the lane, or give the pool up. */
    method CommitBranch(m: Member, batch: seq<Fact>) returns (r: Option<TurnEnd>)
      requires Pooled() && Booked() && ts.pending == None && !bailed && Tallied(batch)
      requires Ready(story, m) && LaneOf(scope, m, batch)
      modifies this`pool, this`bailed, this`budgetTrip, this`story
      modifies ts`billed, ts`dropped, ts`pending, ts`recommitting, occ, occ.store
      ensures Tallied([]) && Pooled() && ts.pending == None
      ensures r.Some? ==>
                && PoolEnded(r.value) && Evolves(old(pool), story.rest, true)
                && story == old(story).(rest := story.rest, how := PoolEnd.GaveUp, tail := story.tail)
      ensures r == None ==>
                && Booked() && UpToDate(story) && pool == old(pool) && !bailed
                && story == old(story).(lanes := old(story.lanes) + [Entry(batch, Committed)])
    {
      var end := CommitLane(batch);
      if end.Landed? {
        NoteLane(m, batch);
        return None;
      }
      var over := GiveUpPool(m, batch, end);
      r := Some(over);
    }

    ghost method NoteLane(m: Member, batch: seq<Fact>)
      requires occ.Valid() && occ.store.Balanced() && Accounted(occ, ts) && !ts.recommitting && occ.held == []
      requires openTrace <= occ.store.log.trace && Pooled() && Tallied([]) && Ready(story, m) && LaneOf(scope, m, batch)
      requires occ.store.ledger == story.base + story.lanes + [Entry(batch, Committed)]
      modifies this`story
      ensures Pooled() && Booked() && Tallied([]) && UpToDate(story)
      ensures story == old(story).(lanes := old(story.lanes) + [Entry(batch, Committed)])
    {
      LaneCommitted(story, m, batch);
      story := story.(lanes := story.lanes + [Entry(batch, Committed)]);
    }

    /** A batch that did not land gives the turn up: the siblings are aborted and
        their outcomes dropped. */
    method GiveUpPool(m: Member, batch: seq<Fact>, end: CommitEnd) returns (r: TurnEnd)
      requires occ.Valid() && occ.store.Balanced() && Accounted(occ, ts) && Pooled() && Tallied([])
      requires Ready(story, m) && LaneOf(scope, m, batch) && ts.pending == None && LaneEnds(end, occ, ts)
      requires !end.Landed? && openTrace <= occ.store.log.trace
      requires LaneShown(end, batch, story.base + story.lanes, occ.store.ledger, occ.store.log.trace)
      modifies this`pool, this`bailed, this`budgetTrip, this`story, ts`billed, ts`dropped
      ensures PoolEnded(r) && Evolves(old(pool), story.rest, true) && Tallied([]) && Pooled()
      ensures story == old(story).(rest := story.rest, how := PoolEnd.GaveUp, tail := story.tail)
    {
      assert AllButLast(scope, story.settled, story.lanes);
      GivesUp(end, batch, story.base + story.lanes, occ.store.ledger, occ.store.log.trace);
      Discard(PoolEnd.GaveUp, occ.store.ledger[|story.base + story.lanes|..]);
      r := EndOfLane(end);
    }

    /** What a lane commit leaves of the pass. */
    ghost predicate LaneEnds(end: CommitEnd, occ: OccController, ts: TurnState)
      reads occ, occ.store, ts`recommitting
    {
      PassEnds(EndOfLane(end), occ) && (!end.Raised? ==> !ts.recommitting && occ.held == [])
    }

    /** The batch landed, or the store threw on it, or the ledger names its other
        fate. */
    ghost predicate LaneShown(
        end: CommitEnd, batch: seq<Fact>, was: seq<Entry>, now: seq<Entry>, trace: seq<Event>)
    {
      if now == was then end.Raised? && ThrewLast(trace, end.exn)
      else
        exists fate ::
          && now == was + [Entry(batch, fate)] && EndsSo(fate, EndOfLane(end))
          && (!end.Raised? ==> (fate == Committed <==> end.Landed?))
    }

    /** Commit a batch on the lane. It is never parked. */
    method CommitLane(batch: seq<Fact>) returns (end: CommitEnd)
      requires Booked() && ts.pending == None && story.tail == [] && Tallied(batch)
      modifies occ, occ.store, ts`pending, ts`billed, ts`recommitting
      ensures occ.Valid() && occ.store.Balanced() && Accounted(occ, ts) && Tallied([])
      ensures ts.pending == None && LaneEnds(end, occ, ts) && openTrace <= occ.store.log.trace
      ensures LaneShown(end, batch, old(occ.store.ledger), occ.store.ledger, occ.store.log.trace)
    {
      var last;
      ghost var shown;
      ghost var was, from := occ.store.ledger, |occ.store.log.trace|;
      end, last, shown := CommitBilled(occ, ts, CommitPlan(0, Lane, None, false), batch);
      LaneFate(end, batch, was, occ.store.ledger, occ.store.log.trace, from);
    }

    lemma LaneFate(
        end: CommitEnd, batch: seq<Fact>, was: seq<Entry>, now: seq<Entry>, trace: seq<Event>, from: nat)
      requires FateLogged(end, was, now, batch) && OpenEnd(end, trace, from, batch) && !end.ParkedForNextTurn?
      ensures LaneShown(end, batch, was, now, trace)
    {
      if now != was {
        var fate := now[|was|].fate;
        assert now == was + [Entry(batch, fate)] && EndsSo(fate, EndOfLane(end));
      }
    }

    /** Behind a branch commit the abort streaks move, and then comes the budget
        barrier; a throw drops the pool. */
    method CaptureOrDiscard(streaks: seq<(string, nat)>) returns (r: Option<TurnEnd>)
      requires Pooled() && Booked() && ts.pending == None && Tallied([]) && UpToDate(story)
      modifies this`pool, this`budgetTrip, this`bailed, this`disposition, this`story
      modifies ts`billed, ts`dropped, ts`branchAborts, occ.store`st, occ.store`log
      ensures Pooled() && Booked() && Tallied([]) && ts.branchAborts == streaks && ts.pending == old(ts.pending)
      ensures r.Some? ==> PoolEnded(r.value) && story == old(story).(rest := story.rest, how := Threw)
      ensures r == None ==>
                && UpToDate(story) && pool == old(pool) && bailed == old(bailed)
                && story == old(story).(events := story.events)
    {
      ts.branchAborts := streaks;
      var raised := CaptureDisposition();
      if raised == None {
        return None;
      }
      Discard(Threw, []);
      r := Some(TurnThrew(raised.value));
    }

    /** A halting exit: a leak commits its own facts verbatim, any other its
        node-scoped facts behind which the ranked halt. */
    method BailOnExitHalt(m: Member, input: ExitInput) returns (r: TurnEnd)
      requires Pooled() && Booked() && ts.pending == None && PlanExit(input).outcome == Halt
      requires m == Member(input.node, Done(Exit(input))) && Tallied(PlanExit(input).facts) && Settling(story, m)
      modifies this`pool, this`budgetTrip, this`bailed, this`disposition, this`story
      modifies ts`billed, ts`dropped, ts`pending, ts`recommitting
      modifies occ, occ.store
      ensures PoolEnded(r) && Tallied([]) && Pooled() && story.how.Bailed?
      ensures story == old(story).(events := story.events, rest := story.rest, how := story.how, tail := story.tail)
    {
      var terminal := HaltFacts(input);
      var end, batch := BailOnTerminal(terminal);
      return end;
    }

    /** What a halting exit ends the run with. */
    method HaltFacts(input: ExitInput) returns (terminal: seq<Fact>)
      requires Pooled() && PlanExit(input).outcome == Halt
      modifies this`disposition, this`story
      ensures Pooled() && Parking(terminal) && story == old(story).(events := story.events)
      ensures forall c :: Spend(terminal, c) == Spend(PlanExit(input).facts, c)
      ensures if input.exit == Leak then terminal == PlanExit(input).facts
              else disposition.Some? && disposition.value.RunTerminated?
                   && terminal == ExitKept(PlanExit(input).facts) + [disposition.value]
    {
      var facts := PlanExit(input).facts;
      var body, tail := ExitShape(input);
      ExitSplitConserves(input);
      if input.exit == Leak {
        assert facts[|facts| - 1] == tail[0];
        return facts;
      }
      var branchFacts := OfferExit(input);
      FreeTail(branchFacts, [disposition.value]);
      terminal := branchFacts + [disposition.value];
    }

    /** The exit's run-level facts join the slot. */
    method OfferExit(input: ExitInput) returns (branchFacts: seq<Fact>)
      requires Pooled()
      modifies this`disposition, this`story
      ensures Pooled() && story == old(story).(events := old(story.events) + [BranchExit(input)])
      ensures BranchEvents(story.events) == BranchEvents(old(story.events)) + [BranchExit(input)]
      ensures PlanExit(input).outcome == Halt ==> disposition.Some? && disposition.value.RunTerminated?
      ensures branchFacts == ExitKept(PlanExit(input).facts)
    {
      ExitSplitConserves(input);
      Offer(BranchExit(input));
      SlotTakesOffers(disposition, ExitOffers(PlanExit(input).facts));
      branchFacts, disposition := PartitionExitFacts(disposition, PlanExit(input).facts);
    }

    /** A branch left without a result. A halt bails; any other exit commits its
        node-scoped facts on its lane and offers the rest to the slot. */
    method SettleExit(m: Member, input: ExitInput) returns (r: Option<TurnEnd>)
      requires Pooled() && Booked() && ts.pending == None && m == Member(input.node, Done(Exit(input))) && !bailed
      requires Tallied(PlanExit(input).facts) && Settling(story, m)
      modifies this`pool, this`budgetTrip, this`bailed, this`disposition, this`story
      modifies ts`billed, ts`dropped, ts`pending, ts`recommitting, ts`branchAborts
      modifies occ, occ.store
      ensures Tallied([]) && Pooled() && story.settled == old(story.settled) && story.base == old(story.base)
      ensures story.entered == old(story.entered)
      ensures r.Some? ==> PoolEnded(r.value) && (story.how.Bailed? <==> PlanExit(input).outcome == Halt)
      ensures r == None ==>
                && Booked() && UpToDate(story) && pool == old(pool) && ts.pending == None && !bailed
                && PlanExit(input).outcome != Halt
                && story.lanes == old(story.lanes) + [Entry(ExitKept(PlanExit(input).facts), Committed)]
                && ts.branchAborts == StreakStep(old(ts.branchAborts), m)
    {
      ExitOutcomeIsStatus(input);
      ExitSplitConserves(input);
      if PlanExit(input).outcome == Halt {
        var end := BailOnExitHalt(m, input);
        return Some(end);
      }
      r := LandExit(m, input);
    }

    /** An exit's offers are made, and its batch is what it keeps. */
    method ReadyExit(m: Member, input: ExitInput) returns (branchFacts: seq<Fact>)
      requires Pooled() && Settling(story, m) && m == Member(input.node, Done(Exit(input)))
      modifies this`disposition, this`story
      ensures Pooled() && Ready(story, m) && LaneOf(scope, m, branchFacts)
      ensures branchFacts == ExitKept(PlanExit(input).facts) && story == old(story).(events := story.events)
    {
      ghost var was := story;
      branchFacts := OfferExit(input);
      OffersMade(was, m, story.events);
    }

    method LandExit(m: Member, input: ExitInput) returns (r: Option<TurnEnd>)
      requires Pooled() && Booked() && ts.pending == None && m == Member(input.node, Done(Exit(input))) && !bailed
      requires Tallied(ExitKept(PlanExit(input).facts)) && Settling(story, m)
      modifies this`pool, this`budgetTrip, this`bailed, this`disposition, this`story
      modifies ts`billed, ts`dropped, ts`pending, ts`recommitting, ts`branchAborts
      modifies occ, occ.store
      ensures Tallied([]) && Pooled() && story.settled == old(story.settled) && story.base == old(story.base)
      ensures story.entered == old(story.entered)
      ensures r.Some? ==> PoolEnded(r.value) && !story.how.Bailed?
      ensures r == None ==>
                && Booked() && UpToDate(story) && pool == old(pool) && ts.pending == None && !bailed
                && story.lanes == old(story.lanes) + [Entry(ExitKept(PlanExit(input).facts), Committed)]
                && ts.branchAborts == StreakStep(old(ts.branchAborts), m)
    {
      var branchFacts := ReadyExit(m, input);
      r := Land(m, branchFacts,
                if PlanExit(input).outcome == AbortStep then Bumped(ts.branchAborts, input.node) else ts.branchAborts);
    }

    /** Its offers made, a settled branch commits its batch; the abort streaks
        move once it landed, and then comes the budget barrier. */
    method Land(m: Member, batch: seq<Fact>, streaks: seq<(string, nat)>) returns (r: Option<TurnEnd>)
      requires Pooled() && Booked() && ts.pending == None && !bailed && Tallied(batch) && Ready(story, m)
      requires LaneOf(scope, m, batch)
      modifies this`pool, this`budgetTrip, this`bailed, this`disposition, this`story
      modifies ts`billed, ts`dropped, ts`pending, ts`recommitting, ts`branchAborts
      modifies occ, occ.store
      ensures Tallied([]) && Pooled() && story.settled == old(story.settled) && story.base == old(story.base)
      ensures story.entered == old(story.entered)
      ensures ts.branchAborts == if story.how.GaveUp? then old(ts.branchAborts) else streaks
      ensures r.Some? ==> PoolEnded(r.value) && !story.how.Bailed?
      ensures r == None ==>
                && Booked() && UpToDate(story) && pool == old(pool) && ts.pending == None && !bailed
                && story.lanes == old(story.lanes) + [Entry(batch, Committed)]
    {
      r := CommitBranch(m, batch);
      if r.Some? {
        return;
      }
      r := CaptureOrDiscard(streaks);
    }

    /** The batch a completion commits on its own lane, its run-level facts
        having joined the slot. */
    method PlanSuccess(node: string, facts: seq<Fact>, nextNode: Option<string>, iteration: nat)
      returns (s: Settlement)
      requires Pooled()
      modifies this`disposition, this`story
      ensures Pooled()
      ensures var e := BranchDone(node, facts, Resolve(nextNode, scope.join, scope.graph));
              && story == old(story).(events := old(story.events) + [e])
              && BranchEvents(story.events) == BranchEvents(old(story.events)) + [e]
      ensures s.successor == HandsOn(scope, facts, nextNode)
      ensures IsLane(Kept(facts, At(iteration, scope.pass)), s.successor, scope.pass, s.branchFacts)
      ensures forall c {:trigger Money(c)} :: Money(c) ==> Spend(s.branchFacts, c) == Spend(facts, c)
    {
      var next := Resolve(nextNode, scope.join, scope.graph);
      var at := At(iteration, scope.pass);
      var successorIteration: nat := *;
      s := PlanBranchSettlement(node, facts, nextNode, scope.join, scope.graph, at, successorIteration, disposition);
      SettlementConserves(node, facts, at, next, []);
      SlotTakesOffers(disposition, SettlementOffers(node, facts, next));
      Offer(BranchDone(node, facts, next));
      disposition := s.disposition;
      ghost var marker := if s.successor.Some?
                          then [DispatchStarted(s.successor.value, successorIteration, scope.pass)] else [];
      forall c {:trigger Money(c)} | Money(c) ensures Spend(s.branchFacts, c) == Spend(facts, c) {
        SettlementKeepsMoney(facts, at, marker, c);
      }
    }

    lemma SameOwed(a: seq<Fact>, b: seq<Fact>)
      requires Tallied(a) && forall c {:trigger Money(c)} :: Money(c) ==> Spend(b, c) == Spend(a, c)
      ensures Tallied(b)
    {
    }

    /** A branch completed: its own facts and spend commit on its lane behind
        the marker of its successor; a halt in the slot bails, else the
        successor starts. */
    method SettleSuccess(m: Member, facts: seq<Fact>, nextNode: Option<string>, iteration: nat)
      returns (r: Option<TurnEnd>)
      requires Pooled() && Booked() && ts.pending == None && !bailed && Absent(m.node, pool) && MemberOk(m)
      requires m.state == Done(Success(facts, nextNode, iteration)) && Tallied(facts) && Settling(story, m)
      modifies this`pool, this`budgetTrip, this`bailed, this`disposition, this`story
      modifies ts`billed, ts`dropped, ts`pending, ts`recommitting, ts`branchAborts, ts`dispatches
      modifies occ, occ.store
      ensures Tallied([]) && Pooled() && story.settled == old(story.settled) && story.base == old(story.base)
      ensures old(story.entered) <= story.entered
      ensures r.Some? ==> PoolEnded(r.value)
      ensures r == None ==>
                && Booked() && UpToDate(story) && ts.pending == None && !bailed
                && !(disposition.Some? && disposition.value.RunTerminated?)
                && ts.branchAborts == StreakStep(old(ts.branchAborts), m)
                // its successor is started, and only that
                && HandedTo(old(story.entered), HandsOn(scope, facts, nextNode))
                && if pool == old(pool) then ts.dispatches == old(ts.dispatches)
                   else |pool| == |old(pool)| + 1 && old(ts.dispatches) < ts.dispatches <= maxLoops
    {
      var successor;
      r, successor := LandSuccess(m, facts, nextNode, iteration);
      if r == None {
        r := ContinueBranch(successor);
      }
    }

    /** A completion's offers are made, and its batch is planned. */
    method ReadySuccess(m: Member, facts: seq<Fact>, nextNode: Option<string>, iteration: nat)
      returns (s: Settlement)
      requires Pooled() && Tallied(facts) && Settling(story, m)
      requires m.state == Done(Success(facts, nextNode, iteration))
      modifies this`disposition, this`story
      ensures Pooled() && Tallied(s.branchFacts) && Ready(story, m) && LaneOf(scope, m, s.branchFacts)
      ensures story == old(story).(events := story.events) && s.successor == HandsOn(scope, facts, nextNode)
    {
      ghost var was := story;
      s := PlanSuccess(m.node, facts, nextNode, iteration);
      OffersMade(was, m, story.events);
      SameOwed(facts, s.branchFacts);
    }

    method LandSuccess(m: Member, facts: seq<Fact>, nextNode: Option<string>, iteration: nat)
      returns (r: Option<TurnEnd>, successor: Option<string>)
      requires Pooled() && Booked() && ts.pending == None && !bailed
      requires m.state == Done(Success(facts, nextNode, iteration)) && Tallied(facts) && Settling(story, m)
      modifies this`pool, this`budgetTrip, this`bailed, this`disposition, this`story
      modifies ts`billed, ts`dropped, ts`pending, ts`recommitting, ts`branchAborts
      modifies occ, occ.store
      ensures Tallied([]) && Pooled() && story.settled == old(story.settled) && story.base == old(story.base)
      ensures story.entered == old(story.entered)
      ensures successor == HandsOn(scope, facts, nextNode)
      ensures r.Some? ==> PoolEnded(r.value)
      ensures r == None ==>
                && Booked() && UpToDate(story) && pool == old(pool) && ts.pending == None && !bailed
                && ts.branchAborts == StreakStep(old(ts.branchAborts), m)
    {
      var s := ReadySuccess(m, facts, nextNode, iteration);
      successor := s.successor;
      r := Land(m, s.branchFacts, Cleared(ts.branchAborts, m.node));
    }

    /** A committed completion bails on a halt in the slot; else its successor
        starts, unless anything is in the slot, the budget tripped, or the run
        is out of dispatches. */
    method ContinueBranch(successor: Option<string>) returns (r: Option<TurnEnd>)
      requires Pooled() && Booked() && ts.pending == None && !bailed && Tallied([]) && UpToDate(story)
      requires successor.Some? ==> Absent(successor.value, pool)
      modifies this`pool, this`budgetTrip, this`bailed, this`disposition, this`story
      modifies ts`billed, ts`dropped, ts`pending, ts`recommitting, ts`dispatches
      modifies occ, occ.store
      ensures Tallied([]) && Pooled() && story.settled == old(story.settled) && story.base == old(story.base)
      ensures r.Some? <==> old(disposition).Some? && old(disposition).value.RunTerminated?
      ensures r.Some? ==>
                && PoolEnded(r.value) && disposition == old(disposition)
                && story.how == Bailed([disposition.value]) && story.entered == old(story.entered)
      ensures r == None ==>
                && Booked() && UpToDate(story) && ts.pending == None && !bailed
                && !(disposition.Some? && disposition.value.RunTerminated?)
                && HandedTo(old(story.entered), successor)
                && if successor == None || old(disposition).Some? || old(budgetTrip) || old(ts.dispatches) >= maxLoops
                   then pool == old(pool) && ts.dispatches == old(ts.dispatches) && story.entered == old(story.entered)
                   else pool == old(pool) + [Member(successor.value, Waiting)]
                        && ts.dispatches == old(ts.dispatches) + 1
                        && story.entered == old(story.entered) + [successor.value]
    {
      if disposition.Some? && disposition.value.RunTerminated? {
        var over := BailOnSlot();
        return Some(over);
      }
      StartSuccessor(successor);
      return None;
    }

    /** This node was started, unless the budget tripped or something is in the
        slot; and no other. */
    ghost predicate HandedTo(was: seq<string>, next: Option<string>)
      reads this`story, this`budgetTrip, this`disposition
    {
      || story.entered == was + (if next.Some? then [next.value] else [])
      || (story.entered == was && (budgetTrip || disposition.Some?))
    }

    method StartSuccessor(successor: Option<string>)
      requires Pooled() && Booked() && Tallied([]) && UpToDate(story)
      requires !(disposition.Some? && disposition.value.RunTerminated?)
      requires successor.Some? ==> Absent(successor.value, pool)
      modifies this`pool, this`disposition, this`story, ts`dispatches
      ensures Pooled() && Booked() && Tallied([]) && UpToDate(story)
      ensures story == old(story).(events := story.events, entered := story.entered)
      ensures !(disposition.Some? && disposition.value.RunTerminated?) && HandedTo(old(story.entered), successor)
      ensures if successor == None || old(disposition).Some? || budgetTrip || old(ts.dispatches) >= maxLoops
              then pool == old(pool) && ts.dispatches == old(ts.dispatches) && story.entered == old(story.entered)
              else pool == old(pool) + [Member(successor.value, Waiting)]
                   && ts.dispatches == old(ts.dispatches) + 1
                   && story.entered == old(story.entered) + [successor.value]
    {
      if successor.Some? && disposition == None {
        PoolDispatch(successor.value);
      }
    }

    /** The halt in the slot bails. */
    method BailOnSlot() returns (r: TurnEnd)
      requires Pooled() && Booked() && ts.pending == None && Tallied([]) && UpToDate(story)
      requires disposition.Some? && disposition.value.RunTerminated?
      modifies this`pool, this`budgetTrip, this`bailed, this`story
      modifies ts`billed, ts`dropped, ts`pending, ts`recommitting
      modifies occ, occ.store
      ensures Tallied([]) && Pooled() && PoolEnded(r)
      ensures story == old(story).(rest := story.rest, how := Bailed([disposition.value]), tail := story.tail)
    {
      FreeBatch([disposition.value]);
      var over, batch := BailOnTerminal([disposition.value]);
      r := over;
    }

    // ---------- the pool ----------

    /** A bail's batch is in the ledger, or parked for the next turn, or the
        store threw on it; it carries what the halt and its siblings owed. */
    ghost predicate BailShown(r: TurnEnd)
      requires story.how.Bailed?
      reads this`story, occ, occ.store, ts`pending
    {
      exists batch :: ParkShown(r, batch) && BailCarries(batch, story.how.own, story.rest)
    }

    /** The last branch committed its batch, and the halt was in the slot. */
    ghost predicate HaltedBySlot(own: seq<Fact>)
      reads this`story, this`disposition
    {
      && LanesOf(scope, story.settled, story.lanes)
      && disposition.Some? && disposition.value.RunTerminated? && own == [disposition.value]
    }

    /** How a turn through the pool ended: every branch that settled has its batch
        committed, in order, and made its offers, in order; but for the last one
        where its batch did not land, it halted, or it threw. */
    ghost predicate PoolShown(r: TurnEnd)
      reads this`story, this`disposition, occ, occ.store, ts`pending
    {
      match story.how
      case Open => false
      case Drained =>
        && LanesOf(scope, story.settled, story.lanes)
        && BranchEvents(story.events) == EventsOf(scope, story.settled)
        && story.rest == []
      case GaveUp =>
        && AllButLast(scope, story.settled, story.lanes)
        && exists batch ::
             && LaneOf(scope, story.settled[|story.settled| - 1], batch)
             && GaveUpOn(r, batch, story.tail, occ.store.log.trace)
      case Bailed(own) => BailShown(r) && (HaltedBySlot(own) || HaltedByExit(scope, story.settled, story.lanes, own))
      case Threw =>
        && r.TurnThrew? && story.tail == []
        && if AllButLast(scope, story.settled, story.lanes) && story.settled[|story.settled| - 1].state.Failed?
           then true
           else LanesOf(scope, story.settled, story.lanes) && ThrewLast(occ.store.log.trace, r.exn)
    }

    /** The turn ended before the pool drained. */
    ghost predicate PoolEnded(r: TurnEnd)
      reads this`pool, this`story, this`disposition, occ, occ.store, ts`billed, ts`dropped, ts`pending, ts`recommitting
    {
      && PassState(r) && pool == [] && PoolShown(r) && story.how != PoolEnd.Drained
      && occ.store.ledger == story.base + story.lanes + story.tail
    }

    /** The reactive pool: start the live frontier, and as each branch settles,
        whichever is next, commit it and start its successor. It drains or ends
        the turn, having started at most what `maxLoops` leaves. */
    method RunPool(active: seq<string>, ceiling: nat) returns (r: TurnEnd)
      requires Pooled() && Booked() && ts.pending == None && !bailed && pool == [] && Tallied([])
      requires story == Blank(occ.store.ledger)
      requires forall i, j :: 0 <= i < j < |active| ==> owner(active[i]) != owner(active[j])
      modifies this`pool, this`budgetTrip, this`bailed, this`disposition, this`story
      modifies ts`billed, ts`dropped, ts`pending, ts`recommitting, ts`branchAborts, ts`dispatches
      modifies occ, occ.store
      ensures PassState(r) && Tallied([]) && story.base == old(occ.store.ledger)
      ensures ts.dispatches == openDispatches + |story.entered| && NoneSkipped(story.settled)
      // everyone started settled or was left
      ensures Everyone(story.entered, story.settled, [], story.rest)
      // the frontier was started, up to the ceiling or the tripped budget
      ensures FirstStarts(maxLoops, active, old(ts.dispatches), old(budgetTrip)) <= story.entered
      // whatever order the branches settled in, what they spent was billed once, and is in a
      // committed batch, or in the bail, or dropped with what was still in the pool
      ensures PoolShown(r) && occ.store.ledger == story.base + story.lanes + story.tail
      // and a drained pool commits the slot, the first maximum of all offers, or parks it
      ensures story.how == PoolEnd.Drained ==>
                disposition == PoolSlot(None, story.events) && RegionShown(r, ceiling)
                && ts.branchAborts == StreaksAfter(old(ts.branchAborts), story.settled)
    {
      StartFrontier(active);
      var step := SettleAll();
      if step.Some? {
        r := step.value;
      } else {
        r := SettleDrained(ceiling);
      }
      ShownSkipsNone(r);
    }

    lemma ShownSkipsNone(r: TurnEnd)
      requires PoolShown(r)
      ensures NoneSkipped(story.settled)
    {
      NoneWereSkipped(scope, story);
    }

    /** Settle one branch after the other, until none is left or one ends the
        turn. */
    method SettleAll() returns (step: Option<TurnEnd>)
      requires Pooled() && Booked() && ts.pending == None && !bailed && Tallied([]) && UpToDate(story)
      modifies this`pool, this`budgetTrip, this`bailed, this`disposition, this`story
      modifies ts`billed, ts`dropped, ts`pending, ts`recommitting, ts`branchAborts, ts`dispatches
      modifies occ, occ.store
      ensures Tallied([]) && Pooled() && old(story.entered) <= story.entered && story.base == old(story.base)
      ensures pool == []
      ensures step.Some? ==> PoolEnded(step.value)
      ensures step == None ==> Booked() && ts.pending == None && !bailed && UpToDate(story)
      ensures step == None && old(story.settled) == [] ==>
                ts.branchAborts == StreaksAfter(old(ts.branchAborts), story.settled)
    {
      while pool != []
        invariant Pooled() && Booked() && ts.pending == None && !bailed && Tallied([]) && UpToDate(story)
        invariant old(story.settled) == [] ==>
                    ts.branchAborts == StreaksAfter(old(ts.branchAborts), story.settled)
        invariant story.base == old(story.base) && old(story.entered) <= story.entered
        decreases if ts.dispatches < maxLoops then maxLoops - ts.dispatches else 0, |pool|
      {
        ghost var settled := story.settled;
        step := SettleNext();
        if step.Some? {
          return;
        }
        assert story.settled[..|story.settled| - 1] == settled;
      }
      step := None;
    }

    /** Every branch settled: what the pool leaves to the region. */
    method SettleDrained(ceiling: nat) returns (r: TurnEnd)
      requires Pooled() && Booked() && ts.pending == None && Tallied([]) && UpToDate(story) && pool == []
      modifies ts`billed, ts`pending, ts`recommitting, this`story
      modifies occ, occ.store
      ensures PassState(r) && Tallied([]) && RegionShown(r, ceiling) && PoolShown(r)
      ensures story == old(story).(tail := story.tail, how := PoolEnd.Drained)
      ensures occ.store.ledger == story.base + story.lanes + story.tail && SlotOk(disposition, story.events)
    {
      r := SettleRegion(ceiling);
      story := story.(how := PoolEnd.Drained);
    }

    method StartFrontier(active: seq<string>)
      requires Pooled() && pool == [] && story.entered == [] && BranchEvents(story.events) == []
      requires forall i, j :: 0 <= i < j < |active| ==> owner(active[i]) != owner(active[j])
      modifies this`pool, this`disposition, this`story, ts`dispatches
      ensures Pooled() && BranchEvents(story.events) == []
      ensures story == old(story).(events := story.events, entered := story.entered)
      ensures story.entered == FirstStarts(maxLoops, active, old(ts.dispatches), budgetTrip)
    {
      for i := 0 to |active|
        invariant FrontierStarted(active[..i], old(ts.dispatches))
        invariant story == old(story).(events := story.events, entered := story.entered)
      {
        assert active[..i + 1] == active[..i] + [active[i]];
        StartNext(active[..i], active[i]);
      }
      assert active[..|active|] == active;
    }

    /** The pool holds nodes of this frontier only, and all of those that start. */
    ghost predicate FrontierStarted(front: seq<string>, dispatches: nat)
      reads this`pool, this`disposition, this`story, this`bailed, this`budgetTrip, ts`dispatches
    {
      && Pooled() && BranchEvents(story.events) == []
      && (forall m :: m in pool ==> m.node in front)
      && story.entered == FirstStarts(maxLoops, front, dispatches, budgetTrip)
      && ts.dispatches == dispatches + |story.entered|
    }

    method StartNext(ghost front: seq<string>, node: string)
      requires FrontierStarted(front, openDispatches) && forall other :: other in front ==> owner(other) != owner(node)
      modifies this`pool, this`disposition, this`story, ts`dispatches
      ensures FrontierStarted(front + [node], openDispatches)
      ensures story == old(story).(events := story.events, entered := story.entered)
    {
      FirstStartsSnoc(maxLoops, front, node, openDispatches, budgetTrip);
      PoolDispatch(node);
    }

    /** Take the next branch that settles and settle it. A branch that threw
        takes the pool with it. */
    method SettleNext() returns (step: Option<TurnEnd>)
      requires Pooled() && Booked() && ts.pending == None && !bailed && pool != [] && Tallied([]) && UpToDate(story)
      modifies this`pool, this`budgetTrip, this`bailed, this`disposition, this`story
      modifies ts`billed, ts`dropped, ts`pending, ts`recommitting, ts`branchAborts, ts`dispatches
      modifies occ, occ.store
      ensures Tallied([]) && Pooled() && old(story.entered) <= story.entered && story.base == old(story.base)
      ensures |story.settled| == |old(story.settled)| + 1 && old(story.settled) <= story.settled
      ensures step.Some? ==> PoolEnded(step.value)
      ensures step == None ==>
                && Booked() && ts.pending == None && !bailed && UpToDate(story)
                && (var m := story.settled[|old(story.settled)|];
                    && ts.branchAborts == StreakStep(old(ts.branchAborts), m)
                    && HandedTo(old(story.entered), NextOf(scope, m)))
                && ((ts.dispatches == old(ts.dispatches) && |pool| < |old(pool)|)
                    || old(ts.dispatches) < ts.dispatches <= maxLoops)
    {
      var m := NextSettled();
      step := SettleMember(m);
    }

    method SettleMember(m: Member) returns (step: Option<TurnEnd>)
      requires Pooled() && Booked() && ts.pending == None && !bailed && Settling(story, m) && Owes(m)
      requires MemberOk(m) && Absent(m.node, pool) && HasSettled(m.state) && m.state != Done(Skipped)
      modifies this`pool, this`budgetTrip, this`bailed, this`disposition, this`story
      modifies ts`billed, ts`dropped, ts`pending, ts`recommitting, ts`branchAborts, ts`dispatches
      modifies occ, occ.store
      ensures Tallied([]) && Pooled() && story.settled == old(story.settled) && story.base == old(story.base)
      ensures old(story.entered) <= story.entered
      ensures step.Some? ==> PoolEnded(step.value)
      ensures step == None ==>
                && Booked() && ts.pending == None && !bailed && UpToDate(story)
                && ts.branchAborts == StreakStep(old(ts.branchAborts), m)
                && HandedTo(old(story.entered), NextOf(scope, m))
                && if pool == old(pool) then ts.dispatches == old(ts.dispatches)
                   else |pool| == |old(pool)| + 1 && old(ts.dispatches) < ts.dispatches <= maxLoops
    {
      step := None;
      match m.state {
        case Failed(spent) =>
          var over := DropFailed(m, spent);
          step := Some(over);
        case Done(Exit(input)) =>
          step := SettleExit(m, input);
        case Done(Success(facts, next, iteration)) =>
          step := SettleSuccess(m, facts, next, iteration);
      }
    }

    method NextSettled() returns (m: Member)
      requires Pooled() && ts.pending == None && !bailed && pool != [] && Tallied([]) && UpToDate(story)
      modifies this`pool, this`budgetTrip, this`story
      ensures Pooled() && |pool| == |old(pool)| - 1
      ensures MemberOk(m) && HasSettled(m.state) && m.state != Done(Skipped) && Absent(m.node, pool)
      ensures Settling(story, m)
      ensures story == old(story).(settled := old(story.settled) + [m])
      ensures Owes(m)
    {
      m := TakeSettled();
      NowOwed(m);
      assert story.settled[..|story.settled| - 1] == old(story.settled);
    }

    /** A branch that threw drops what it had spent, and the pool with it. */
    method DropFailed(m: Member, spent: Usage) returns (r: TurnEnd)
      requires Pooled() && Booked() && Owing(spent) && Settling(story, m) && m.state == Failed(spent)
      modifies this`pool, this`budgetTrip, this`bailed, this`story, ts`billed, ts`dropped
      ensures Pooled() && PoolEnded(r) && Tallied([]) && r.TurnThrew?
      ensures story == old(story).(rest := story.rest, how := Threw)
    {
      ts.Drop(c => spent.At(c));
      Discard(Threw, []);
      var lost: bool := *;
      r := TurnThrew(if lost && occ.store.st.epoch != occ.store.claim then ClaimLostError else OtherError);
    }

    /** What follows a drained pool: the slot, or an abort-loop pause, or a
        budget breach is committed or parked; otherwise the run goes round. */
    ghost predicate RegionShown(r: TurnEnd, ceiling: nat)
      reads this`story, this`disposition, occ, occ.store, ts`pending, ts`branchAborts
    {
      var streaks := ts.branchAborts;
      if disposition.Some? then ParkShown(r, [disposition.value])
      else
        || (Warned(streaks, ceiling) != [] && story.tail == [] && r.TurnThrew?
            && ThrewLast(occ.store.log.trace, r.exn))
        || (exists i: nat :: LoopsFirst(streaks, ceiling, i) && ParkShown(r, [RunPaused(AbortLoop, streaks[i].0)]))
        || (streaks == [] && exists breach :: IsBreach(breach, parallel) && ParkShown(r, [breach]))
        || ((forall i: nat :: !LoopsFirst(streaks, ceiling, i)) && r == TurnOver(Continue) && story.tail == [])
    }

    /** The first streak at the ceiling. */
    predicate LoopsFirst(streaks: seq<(string, nat)>, ceiling: nat, i: nat) {
      i < |streaks| && streaks[i].1 >= ceiling && forall j :: 0 <= j < i ==> streaks[j].1 < ceiling
    }

    /** The pool is empty: commit the slot, or an abort-loop pause, or a budget
        breach, or go round again. */
    method SettleRegion(ceiling: nat) returns (r: TurnEnd)
      requires Pooled() && Booked() && ts.pending == None && Tallied([]) && story.tail == []
      modifies ts`billed, ts`pending, ts`recommitting, this`story
      modifies occ, occ.store
      ensures PassState(r) && Tallied([]) && RegionShown(r, ceiling)
      ensures story == old(story).(tail := story.tail) && occ.store.ledger == story.base + story.lanes + story.tail
    {
      if disposition.Some? {
        r := CommitFree(disposition.value);
        return;
      }
      var loops := PlanAbortLoops(ts.branchAborts, ceiling);
      if loops.warns != [] {
        var raised := Audit();
        if raised.Some? {
          return TurnThrew(raised.value);
        }
      }
      if loops.pause.Some? {
        r := CommitFree(loops.pause.value);
        return;
      }
      if ts.branchAborts != [] {
        return TurnOver(Continue);
      }
      var halt: Option<string>, pause: bool := *, *;
      var breach := PlanBudgetBreach(halt, pause, parallel);
      if breach.Some? {
        r := CommitFree(breach.value);
        return;
      }
      return TurnOver(Continue);
    }

    /** Commit or park one fact that stops the run and carries no spend. */
    method CommitFree(f: Fact) returns (r: TurnEnd)
      requires Booked() && ts.pending == None && Tallied([]) && story.tail == []
      requires Parks(f) && FactSpend(f) == NO_USAGE
      modifies ts`billed, ts`pending, ts`recommitting, this`story
      modifies occ, occ.store
      ensures PassState(r) && Tallied([]) && ParkShown(r, [f])
      ensures story == old(story).(tail := story.tail) && occ.store.ledger == story.base + story.lanes + story.tail
    {
      FreeBatch([f]);
      r := CommitDisposition([f]);
    }

    /** A region's batch that ended the turn: the store threw on it, or the ledger
        names its fate, and if it was committed something threw behind it. */
    ghost predicate NotLanded(r: TurnEnd, batch: seq<Fact>, was: seq<Entry>)
      reads occ, occ.store
    {
      && StepShown(r, batch, was, occ.store.ledger, occ.store.log.trace)
      && (r.TurnOver? ==> occ.store.ledger != was + [Entry(batch, Committed)])
    }

    /** Commit a batch of the region itself; `None` means it landed. */
    method CommitRegion(batch: seq<Fact>) returns (r: Option<TurnEnd>)
      requires Booked() && ts.pending == None && Tallied([]) && story == Blank(occ.store.ledger)
      requires forall f :: f in batch ==> FactSpend(f) == NO_USAGE
      modifies ts`billed, ts`pending, ts`recommitting, this`story
      modifies occ, occ.store
      ensures Tallied([]) && story == Blank(occ.store.ledger) && ts.pending == None
      ensures r.Some? ==> PassState(r.value)
      ensures r == None ==> Booked() && occ.store.ledger == old(occ.store.ledger) + [Entry(batch, Committed)]
      ensures r.Some? ==> NotLanded(r.value, batch, old(occ.store.ledger))
    {
      FreeBatch(batch);
      ghost var was := occ.store.ledger;
      var end := CommitLane(batch);
      story := Blank(occ.store.ledger);
      assert occ.store.ledger == was + [Entry(batch, Committed)] ==> occ.store.ledger[|was|] == Entry(batch, Committed);
      if end.Landed? {
        return None;
      }
      r := Some(EndOfLane(end));
    }

    /** What an empty frontier commits: a budget breach at the barrier, in the
        ledger or parked, or the region's join. */
    ghost predicate JoinShown(r: TurnEnd, next: string, deferredPause: bool, was: seq<Entry>)
      reads this`story, occ, occ.store, ts`pending
    {
      || (exists breach ::
            IsBreach(breach, parallel) && story.base == was && story.lanes == [] && ParkShown(r, [breach]))
      || (var batch := [if deferredPause then RunPaused(Operator, parallel) else FanoutJoined(parallel, next)];
          && StepShown(r, batch, was, occ.store.ledger, occ.store.log.trace)
          && (occ.store.ledger == was + [Entry(batch, Committed)] ==> r == TurnOver(Continue) || r.TurnThrew?))
    }

    /** What a turn through a frontier did: a re-dispatch batch did not land and
        ended it, or the pool behind it has its whole story in the ledger. */
    ghost predicate FrontierShown(
        r: TurnEnd, frontier: seq<string>, redispatch: seq<Fact>, was: seq<Entry>, ceiling: nat)
      reads this`story, this`disposition, occ, occ.store, ts`pending, ts`branchAborts
    {
      if story.how == Open then Idle(story) && redispatch != [] && NotLanded(r, redispatch, was)
      else
        && story.base == was + (if redispatch == [] then [] else [Entry(redispatch, Committed)])
        && PoolShown(r) && Everyone(story.entered, story.settled, [], story.rest)
        && FirstStarts(maxLoops, frontier, openDispatches, false) <= story.entered
        && (story.how == PoolEnd.Drained ==>
              && disposition == PoolSlot(None, story.events) && RegionShown(r, ceiling)
              && ts.branchAborts == StreaksAfter(openAborts, story.settled))
    }

    /** What a fan-out turn did, by the frontier it read and the disposition it
        found parked. */
    ghost predicate FanoutShown(
        r: TurnEnd, active: Option<seq<string>>, branches: seq<string>, redispatch: seq<Fact>, deferredPause: bool,
        was: seq<Entry>, parked: Option<seq<Fact>>, ceiling: nat)
      reads this`story, this`disposition, occ, occ.store, ts`pending, ts`branchAborts
    {
      if scope.join == None || branches == [] then
        && Idle(story)
        && StepShown(r, [RunTerminated(Errored(HaltError, "fanout_malformed", None, None))],
                     was, occ.store.ledger, occ.store.log.trace)
      else if parked.Some? then Idle(story) && story.base == was && story.lanes == [] && ParkShown(r, parked.value)
      else
        match active
        case None =>
          Idle(story) && StepShown(r, [FanoutStarted(parallel, branches)], was, occ.store.ledger, occ.store.log.trace)
        case Some(frontier) =>
          if frontier == [] then Idle(story) && JoinShown(r, scope.join.value, deferredPause, was)
          else FrontierShown(r, frontier, redispatch, was, ceiling)
    }

    /** A batch shown as committed or parked is one that wrote so. */
    lemma ParkEntered(r: TurnEnd, batch: seq<Fact>)
      requires ParkShown(r, batch)
      ensures ParkWrote(story.tail, ts.pending, batch, r)
      ensures story.tail == [] && r.TurnThrew? ==> ThrewLast(occ.store.log.trace, r.exn)
    {
    }

    lemma TailEntered(r: TurnEnd, ceiling: nat)
      requires PoolShown(r)
      requires story.how == PoolEnd.Drained ==> disposition == PoolSlot(None, story.events) && RegionShown(r, ceiling)
      ensures TailWrote(scope, story, ts.pending, r)
      ensures r.TurnThrew? && story.tail == [] ==>
                || (story.settled != [] && story.settled[|story.settled| - 1].state.Failed? && story.how == Threw)
                || ThrewLast(occ.store.log.trace, r.exn)
    {
      if story.how.GaveUp? {
        var last := story.settled[|story.settled| - 1];
        var batch :| LaneOf(scope, last, batch) && GaveUpOn(r, batch, story.tail, occ.store.log.trace);
        assert WroteElse(story.tail, batch, r);
      }
    }

    /** One fan-out turn, over the frontier as the turn read it. */
    method RunFanout(
        active: Option<seq<string>>, branches: seq<string>, redispatch: seq<Fact>, deferredPause: bool,
        expected: nat, ceiling: nat)
      returns (r: TurnEnd)
      requires Booked() && Tallied([]) && story == Blank(occ.store.ledger)
      requires !bailed && !budgetTrip && pool == [] && disposition == None && ts.dispatches == openDispatches
      requires ts.branchAborts == openAborts
      requires ts.pending.Some? ==> Parking(ts.pending.value)
      requires active.Some? ==>
                 forall i, j :: 0 <= i < j < |active.value| ==> owner(active.value[i]) != owner(active.value[j])
      requires forall f :: f in redispatch ==> f.DispatchStarted?
      modifies this
      modifies ts`billed, ts`dropped, ts`pending, ts`recommitting, ts`branchAborts, ts`dispatches
      modifies occ, occ.store
      ensures PassState(r)
      // the turn did what its frontier calls for, and the ledger shows it
      ensures FanoutShown(
                r, active, branches, redispatch, deferredPause, old(occ.store.ledger), old(ts.pending), ceiling)
      ensures old(occ.store.ledger) <= occ.store.ledger
      ensures occ.store.ledger == story.base + story.lanes + story.tail
      // everything its branches spent was billed, and a turn without a pool dropped nothing
      ensures Tallied([]) && ts.dispatches == openDispatches + |story.entered|
    {
      var plan := StepOf(active, branches);
      if plan.Malformed? {
        FreeBatch([MALFORMED]);
        r := CommitPark(occ, ts, expected, [MALFORMED]);
        story := Blank(occ.store.ledger);
        return;
      }
      if ts.pending.Some? {
        r := CommitDisposition(ts.pending.value);
        return;
      }
      match plan {
        case Seed(entries) =>
          r := CommitSeed(entries);
        case Join(next) =>
          r := CommitJoin(next, deferredPause);
        case Dispatch(frontier) =>
          r := RunFrontier(frontier, redispatch, ceiling);
      }
    }

    /** Fresh entry: the region starts on its branches' first nodes. */
    method CommitSeed(entries: seq<string>) returns (r: TurnEnd)
      requires Booked() && ts.pending == None && Tallied([]) && story == Blank(occ.store.ledger)
      modifies ts`billed, ts`pending, ts`recommitting, this`story, occ, occ.store
      ensures PassState(r) && Tallied([]) && story == Blank(occ.store.ledger)
      ensures StepShown(
                r, [FanoutStarted(parallel, entries)], old(occ.store.ledger), occ.store.ledger, occ.store.log.trace)
    {
      var step := CommitRegion([FanoutStarted(parallel, entries)]);
      r := if step.Some? then step.value else TurnOver(Continue);
    }

    /** Branches aborted before are marked again, and then the pool runs. */
    method RunFrontier(frontier: seq<string>, redispatch: seq<Fact>, ceiling: nat) returns (r: TurnEnd)
      requires Booked() && ts.pending == None && Tallied([]) && story == Blank(occ.store.ledger)
      requires !bailed && !budgetTrip && pool == [] && disposition == None && ts.dispatches == openDispatches
      requires ts.branchAborts == openAborts
      requires forall i, j :: 0 <= i < j < |frontier| ==> owner(frontier[i]) != owner(frontier[j])
      requires forall f :: f in redispatch ==> f.DispatchStarted?
      modifies this
      modifies ts`billed, ts`dropped, ts`pending, ts`recommitting, ts`branchAborts, ts`dispatches
      modifies occ, occ.store
      ensures PassState(r) && Tallied([]) && FrontierShown(r, frontier, redispatch, old(occ.store.ledger), ceiling)
      ensures old(occ.store.ledger) <= occ.store.ledger
      ensures occ.store.ledger == story.base + story.lanes + story.tail
      ensures ts.dispatches == openDispatches + |story.entered|
    {
      if redispatch != [] {
        var step := CommitRegion(redispatch);
        if step.Some? {
          return step.value;
        }
      }
      r := RunPool(frontier, ceiling);
    }

    /** The frontier is empty: a budget breach parks at the barrier, else the
        region's join commits. */
    method CommitJoin(next: string, deferredPause: bool) returns (r: TurnEnd)
      requires Booked() && ts.pending == None && Tallied([]) && story == Blank(occ.store.ledger)
      modifies ts`billed, ts`pending, ts`recommitting, this`story, occ, occ.store
      ensures PassState(r) && Tallied([]) && Idle(story) && JoinShown(r, next, deferredPause, old(occ.store.ledger))
      ensures occ.store.ledger == story.base + story.lanes + story.tail && old(occ.store.ledger) <= occ.store.ledger
    {
      var halt: Option<string>, pause: bool := *, *;
      var barrier := PlanBudgetBreach(halt, pause, parallel);
      if barrier.Some? {
        r := CommitFree(barrier.value);
        return;
      }
      r := EnterJoin(PlanJoin(deferredPause, parallel, next));
    }

    /** Commit the join, or the pause in its place; a landed one resolves conflicts. */
    method EnterJoin(fact: Fact) returns (r: TurnEnd)
      requires Booked() && ts.pending == None && Tallied([]) && story == Blank(occ.store.ledger)
      requires FactSpend(fact) == NO_USAGE
      modifies ts`billed, ts`pending, ts`recommitting, this`story, occ, occ.store
      ensures PassState(r) && Tallied([]) && story == Blank(occ.store.ledger)
      ensures StepShown(r, [fact], old(occ.store.ledger), occ.store.ledger, occ.store.log.trace)
      ensures occ.store.ledger == old(occ.store.ledger) + [Entry([fact], Committed)] ==>
                r == TurnOver(Continue) || r.TurnThrew?
      ensures old(occ.store.ledger) <= occ.store.ledger
    {
      var step := CommitRegion([fact]);
      if step.Some? {
        return step.value;
      }
      var raised := occ.OnResolved();
      r := if raised.Some? then TurnThrew(raised.value) else TurnOver(Continue);
    }

    function StepOf(active: Option<seq<string>>, branches: seq<string>): FanoutPlan {
      PlanFanoutStep(active, branches, scope.join)
    }
  }

  const MALFORMED := HaltFact(HaltError, "fanout_malformed")

  lemma FreeBatch(facts: seq<Fact>)
    requires forall f :: f in facts ==> FactSpend(f) == NO_USAGE
    ensures forall c :: Spend(facts, c) == 0
  {
    forall c ensures Spend(facts, c) == 0 {
      FreeFactsSpendNothing(facts, c);
    }
  }

  /** Offers that park and carry nothing leave such a fact in the slot. */
  lemma {:induction false} SlotTakesOffers(slot: Option<Fact>, offers: seq<Fact>)
    requires slot.Some? ==> Parks(slot.value) && FactSpend(slot.value) == NO_USAGE
    requires forall f :: f in offers ==> Parks(f) && FactSpend(f) == NO_USAGE
    ensures var s := FoldSlot(slot, offers);
            && (s.Some? ==> Parks(s.value) && FactSpend(s.value) == NO_USAGE)
            && (offers != [] ==> s.Some?)
            && ((exists f :: f in offers && f.RunTerminated?) ==> s.value.RunTerminated?)
            && (slot.Some? && slot.value.RunTerminated? ==> s == slot)
    decreases |offers|
  {
    if offers != [] {
      SlotTakesOffers(NoteDisposition(slot, offers[0]), offers[1..]);
      assert offers[0] in offers;
    }
  }
}
