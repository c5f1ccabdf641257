/** Every non-success handler exit, on the linear path and on a fan-out branch:
    what it commits, where its spend goes, and whether the run may resume. */
module AbortPlanner {
  import opened Wrappers
  import opened Facts
  import opened ResultToFacts

  const TIMEOUT_RETRY_BACKOFF_MS_BASE := 5_000
  const TIMEOUT_RETRY_BACKOFF_MS_CEILING := 60_000
  const TIMEOUT_RETRY_MAX_ATTEMPTS := 3

  datatype ExitKind = Throw | Timeout | Abort | Shutdown | Leak
  datatype AbortCause = NoSignal | TimeoutSignal | ShutdownSignal | OtherSignal

  function ClassifyExit(leaked: bool, cause: AbortCause, budgetTripped: bool): ExitKind {
    if leaked then Leak
    else if cause == NoSignal then (if budgetTripped then Abort else Throw)
    else if cause == TimeoutSignal then Timeout
    else if cause == ShutdownSignal then Shutdown
    else Abort
  }

  function ExitCause(exit: ExitKind): string {
    match exit
    case Throw => "error"
    case Timeout => "timeout"
    case Abort => "aborted"
    case Shutdown => "shutdown"
    case Leak => "leak"
  }

  /** The routing keys an exit plan reads or writes, and any other key. */
  datatype RoutingKey = AutoResumeAt | TimeoutRetries(node: string) | OtherKey(key: string)
  type Routing = map<RoutingKey, nat>

  datatype ExitInput = ExitInput(
    exit: ExitKind, node: string, iteration: nat, pass: nat, errorDetail: string, leakedAt: nat,
    budgetHalt: Option<string>, budgetPause: bool,
    usage: Usage, routingDelta: Routing, watermark: Option<nat>, routing: Routing, now: nat)

  datatype ExitOutcome = Halt | Pause | RetryAfterTimeout | AbortStep | ShutdownStep
  datatype ExitPlan = ExitPlan(facts: seq<Fact>, outcome: ExitOutcome, patch: Routing, watermark: Option<nat>)

  /** A stop-policy breach halts, a pause-policy breach parks; the halt wins. */
  function PlanBudgetBreach(haltDetail: Option<string>, pauseBreach: bool, node: string): Option<Fact> {
    if haltDetail.Some? then Some(HaltFact(HaltBudget, haltDetail.value))
    else if pauseBreach then Some(RunPaused(Budget, node))
    else None
  }

  /** What a budget breach of a node puts on the log. */
  predicate IsBreach(f: Fact, node: string) {
    || f == RunPaused(Budget, node)
    || (f.RunTerminated? && f.end.Errored? && f == RunTerminated(Errored(HaltBudget, f.end.detail, None, None)))
  }

  function PriorTimeouts(routing: Routing, node: string): nat {
    if TimeoutRetries(node) in routing then routing[TimeoutRetries(node)] else 0
  }

  function TimeoutDelay(prior: nat): nat {
    var d := TIMEOUT_RETRY_BACKOFF_MS_BASE * Pow2(prior);
    if d < TIMEOUT_RETRY_BACKOFF_MS_CEILING then d else TIMEOUT_RETRY_BACKOFF_MS_CEILING
  }

  /** What the exit pushes behind its spend, and the control outcome. */
  function ExitTail(input: ExitInput): (seq<Fact>, ExitOutcome) {
    if input.exit == Leak then
      ([HandlerLeaked(input.node, input.leakedAt), HaltFact(HaltError, "handler_leaked")], Halt)
    else
      match PlanBudgetBreach(input.budgetHalt, input.budgetPause, input.node)
      case Some(breach) => ([breach], if breach.RunTerminated? then Halt else Pause)
      case None =>
        match input.exit
        case Shutdown => ([], ShutdownStep)
        case Timeout =>
          if PriorTimeouts(input.routing, input.node) + 1 < TIMEOUT_RETRY_MAX_ATTEMPTS
          then ([RunPaused(TimeoutRetry, input.node)], RetryAfterTimeout)
          else ([HaltFact(TimeoutExhausted, "")], Halt)
        case Throw => ([HaltFact(HaltError, input.errorDetail)], Halt)
        case _ => ([], AbortStep)
  }

  function ExitPatch(input: ExitInput, outcome: ExitOutcome): Routing {
    if outcome == RetryAfterTimeout then
      var prior := PriorTimeouts(input.routing, input.node);
      input.routingDelta
        [AutoResumeAt := input.now + TimeoutDelay(prior)]
        [TimeoutRetries(input.node) := prior + 1]
    else input.routingDelta
  }

  function PlanExit(input: ExitInput): ExitPlan {
    var spend := ExitSpendFacts(input.node, input.iteration, ExitCause(input.exit), input.usage, input.pass);
    var (tail, outcome) := ExitTail(input);
    ExitPlan(spend + tail, outcome, ExitPatch(input, outcome), input.watermark)
  }

  /** Every exit credits exactly the turn's usage, once and in all ten columns,
      on a `node_aborted` of the dispatched node; whatever parks or ends the
      run carries none of it. So a plan made again over other routing, at
      another time, carries the same spend. */
  lemma ExitCreditsUsageOnce(input: ExitInput)
    ensures forall c :: Spend(PlanExit(input).facts, c) == input.usage.At(c)
    ensures forall f :: f in PlanExit(input).facts && Parks(f) ==> FactSpend(f) == NO_USAGE
    ensures forall f :: f in PlanExit(input).facts && FactSpend(f) != NO_USAGE ==> CreditedNode(f) == Some(input.node)
    ensures NodeCost(PlanExit(input).facts, input.node) == input.usage.cost
  {
    var spend := ExitSpendFacts(input.node, input.iteration, ExitCause(input.exit), input.usage, input.pass);
    var facts := PlanExit(input).facts;
    assert facts == spend + facts[1..] && |facts| <= 3;
    NodeCostConcat(spend, facts[1..], input.node);
    assert NodeCost(spend, input.node) == input.usage.cost;
    FreeFactsSpendNothing(facts[1..], BilledTokens);
    forall c ensures Spend(facts, c) == input.usage.At(c) {
      SpendConcat(spend, facts[1..], c);
      assert Spend(spend, c) == input.usage.At(c);
      FreeFactsSpendNothing(facts[1..], c);
    }
  }

  /** The outcome tag says what the batch does to the run: a halt, a pause or a
      timeout retry stops it, the two step outcomes leave a running run
      running. A leak halts whatever the budget gate or the signals said, so a
      leaked handler's run never resumes; and the run is parked on a daemon
      timer exactly for a timeout retry. Every other exit patches the routing
      with what the intents folded and nothing else; every exit moves the
      watermark past those intents. */
  lemma ExitOutcomeIsStatus(input: ExitInput)
    ensures var p := PlanExit(input); var s := StatusAfter(Running, p.facts);
            && (p.outcome == Halt <==> s == Halted)
            && (p.outcome == Pause <==> s == Paused)
            && (p.outcome == RetryAfterTimeout <==> s == PausedAuto)
            && (p.outcome in {AbortStep, ShutdownStep} <==> s == Running)
    ensures input.exit == Leak ==> PlanExit(input).outcome == Halt
    ensures PlanExit(input).outcome == RetryAfterTimeout ==> AutoResumeAt in PlanExit(input).patch
    ensures PlanExit(input).outcome != RetryAfterTimeout ==> PlanExit(input).patch == input.routingDelta
    ensures PlanExit(input).watermark == input.watermark
    ensures forall k :: k in PlanExit(input).patch && k !in input.routingDelta ==>
              k == AutoResumeAt || k == TimeoutRetries(input.node)
    ensures forall k :: k in input.routingDelta && k != AutoResumeAt && k != TimeoutRetries(input.node)
              ==> k in PlanExit(input).patch && PlanExit(input).patch[k] == input.routingDelta[k]
  {
    var p := PlanExit(input);
    assert p.facts == [p.facts[0]] + p.facts[1..];
    StatusAfterConcat(Running, [p.facts[0]], p.facts[1..]);
    assert StatusAfter(Running, [p.facts[0]]) == Running;
    assert |p.facts| <= 3;
    if |p.facts| == 3 {
      assert p.facts[1..] == [p.facts[1]] + [p.facts[2]];
      StatusAfterConcat(Running, [p.facts[1]], [p.facts[2]]);
    }
  }

  /** Which exits stop the run for good, park it, or let it go on: a leak, then a
      budget halt, then a budget pause outrank whatever signal ended the
      handler; a shutdown outranks nothing but is never a failure. */
  lemma ExitPrecedence(input: ExitInput)
    ensures var o := PlanExit(input).outcome;
            var spent := PriorTimeouts(input.routing, input.node) + 1 >= TIMEOUT_RETRY_MAX_ATTEMPTS;
            && (o == Halt <==> input.exit == Leak || input.budgetHalt.Some?
                               || (!input.budgetPause && (input.exit == Throw || (input.exit == Timeout && spent))))
            && (o == Pause <==> input.exit != Leak && input.budgetHalt == None && input.budgetPause)
            && (o == RetryAfterTimeout <==> StatusAfter(Running, PlanExit(input).facts) == PausedAuto)
            && (o == RetryAfterTimeout ==> input.exit == Timeout && !spent)
  {
    ExitOutcomeIsStatus(input);
  }

  /** A node that times out waits five seconds, and ten if that was its second time
      in a row: with three attempts the sixty-second ceiling is never reached.
      The counter it leaves says which it was. */
  lemma TimeoutBackoff(input: ExitInput)
    requires PlanExit(input).outcome == RetryAfterTimeout
    ensures var patch, counter := PlanExit(input).patch, TimeoutRetries(input.node);
            var again := counter in input.routing && input.routing[counter] > 0;
            && (again ==> input.routing[counter] == 1)
            && AutoResumeAt in patch && patch[AutoResumeAt] == input.now + (if again then 10_000 else 5_000)
            && counter in patch && patch[counter] == if again then 2 else 1
  {
    assert Pow2(0) == 1 && Pow2(1) == 2;
    assert PlanExit(input).patch == ExitPatch(input, RetryAfterTimeout);
  }

  /** A plan is its node-scoped facts and then at most one run-level fact. */
  lemma ExitShape(input: ExitInput) returns (body: seq<Fact>, tail: seq<Fact>)
    ensures PlanExit(input).facts == body + tail && body != [] && |tail| <= 1
    ensures forall f :: f in body ==> f.NodeAborted? || f.HandlerLeaked?
    ensures tail != [] ==> tail[0].RunPaused? || tail[0].RunTerminated?
    ensures PlanExit(input).outcome == Halt <==> tail != [] && tail[0].RunTerminated?
  {
    var spend := ExitSpendFacts(input.node, input.iteration, ExitCause(input.exit), input.usage, input.pass);
    var pushed := ExitTail(input).0;
    if input.exit == Leak {
      body, tail := spend + [pushed[0]], [pushed[1]];
    } else {
      body, tail := spend, pushed;
    }
  }

  /** Apply a sequence of exits of one node, each planned over the routing the
      one before it left. */
  function Exits(routing: Routing, inputs: seq<ExitInput>): seq<ExitOutcome>
    decreases |inputs|
  {
    if inputs == [] then []
    else
      var p := PlanExit(inputs[0].(routing := routing));
      [p.outcome] + Exits(routing + p.patch, inputs[1..])
  }

  /** A run of watchdog timeouts on one node whose intent folds leave the
      node's counter alone. */
  predicate TimeoutStreak(inputs: seq<ExitInput>, node: string) {
    forall i :: 0 <= i < |inputs| ==>
      && inputs[i].exit == Timeout && inputs[i].node == node
      && inputs[i].budgetHalt == None && !inputs[i].budgetPause
      && TimeoutRetries(node) !in inputs[i].routingDelta
  }

  /** However long the streak and whatever was counted before it, it pauses
      exactly while the counter is short of the bound and halts from then on:
      from a fresh counter, two pauses and then a halt. */
  lemma {:induction false} TimeoutChain(routing: Routing, inputs: seq<ExitInput>, node: string)
    requires TimeoutStreak(inputs, node)
    ensures |Exits(routing, inputs)| == |inputs|
    ensures forall i :: 0 <= i < |inputs| ==>
              Exits(routing, inputs)[i] ==
              if PriorTimeouts(routing, node) + i < TIMEOUT_RETRY_MAX_ATTEMPTS - 1 then RetryAfterTimeout else Halt
    decreases |inputs|
  {
    if inputs != [] {
      var p := PlanExit(inputs[0].(routing := routing));
      var prior := PriorTimeouts(routing, node);
      assert PriorTimeouts(routing + p.patch, node) == if prior < 2 then prior + 1 else prior;
      assert TimeoutStreak(inputs[1..], node);
      TimeoutChain(routing + p.patch, inputs[1..], node);
    }
  }

  // ---------- the abort-loop ceiling over every branch streak ----------

  datatype LoopPlan = LoopPlan(warns: seq<string>, pause: Option<Fact>)

  function Warned(streaks: seq<(string, nat)>, ceiling: nat): seq<string> {
    if streaks == [] then []
    else if streaks[0].1 == ceiling - 1 then [streaks[0].0] + Warned(streaks[1..], ceiling)
    else Warned(streaks[1..], ceiling)
  }

  /** Warned about are the nodes one abort short of the ceiling, and no other, in
      the order of their streaks. */
  lemma {:induction false} WarnedExactly(streaks: seq<(string, nat)>, more: seq<(string, nat)>, ceiling: nat)
    ensures forall node :: node in Warned(streaks, ceiling) <==> (node, ceiling - 1) in streaks
    ensures Warned(streaks + more, ceiling) == Warned(streaks, ceiling) + Warned(more, ceiling)
    ensures |Warned(streaks, ceiling)| <= |streaks|
  {
    if streaks == [] {
      assert streaks + more == more;
    } else {
      WarnedExactly(streaks[1..], more, ceiling);
      assert (streaks + more)[1..] == streaks[1..] + more;
      assert forall s :: s in streaks <==> s == streaks[0] || s in streaks[1..];
    }
  }

  /** The first streak at or past the ceiling parks the run; every streak one
      short of it is warned about, and no streak is both. */
  method PlanAbortLoops(streaks: seq<(string, nat)>, ceiling: nat) returns (plan: LoopPlan)
    ensures plan.warns == Warned(streaks, ceiling)
    ensures forall node :: node in plan.warns <==> (node, ceiling - 1) in streaks
    ensures plan.pause == None <==> forall i :: 0 <= i < |streaks| ==> streaks[i].1 < ceiling
    ensures plan.pause.Some? ==> exists i ::
              && 0 <= i < |streaks| && streaks[i].1 >= ceiling
              && (forall j :: 0 <= j < i ==> streaks[j].1 < ceiling)
              && plan.pause.value == RunPaused(AbortLoop, streaks[i].0)
  {
    var warns: seq<string> := [];
    var pause: Option<Fact> := None;
    for i := 0 to |streaks|
      invariant warns + Warned(streaks[i..], ceiling) == Warned(streaks, ceiling)
      invariant pause == None <==> forall j :: 0 <= j < i ==> streaks[j].1 < ceiling
      invariant pause.Some? ==> exists k ::
                  && 0 <= k < i && streaks[k].1 >= ceiling
                  && (forall j :: 0 <= j < k ==> streaks[j].1 < ceiling)
                  && pause.value == RunPaused(AbortLoop, streaks[k].0)
    {
      assert streaks[i..][1..] == streaks[i + 1..];
      if streaks[i].1 == ceiling - 1 {
        warns := warns + [streaks[i].0];
      }
      if pause == None && streaks[i].1 >= ceiling {
        pause := Some(RunPaused(AbortLoop, streaks[i].0));
      }
    }
    WarnedExactly(streaks, [], ceiling);
    plan := LoopPlan(warns, pause);
  }
}
