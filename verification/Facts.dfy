/** Sequence maps shared by the fact planners. */
module Seqs {
  function FlatMap<S, T>(g: S -> seq<T>, s: seq<S>): seq<T> {
    if s == [] then [] else g(s[0]) + FlatMap(g, s[1..])
  }

  function Flatten<T>(s: seq<seq<T>>): seq<T> {
    if s == [] then [] else s[0] + Flatten(s[1..])
  }

  lemma {:induction false} FlatMapConcat<S, T>(g: S -> seq<T>, a: seq<S>, b: seq<S>)
    ensures FlatMap(g, a + b) == FlatMap(g, a) + FlatMap(g, b)
  {
    if a == [] {
      assert a + b == b;
    } else {
      FlatMapConcat(g, a[1..], b);
      assert (a + b)[1..] == a[1..] + b;
    }
  }

  lemma FlatMapSnoc<S, T>(g: S -> seq<T>, a: seq<S>, x: S)
    ensures FlatMap(g, a + [x]) == FlatMap(g, a) + g(x)
  {
    FlatMapConcat(g, a, [x]);
    assert [x][1..] == [];
    assert FlatMap(g, [x]) == g(x);
  }

  lemma {:induction false} FlatMapMember<S(!new), T>(g: S -> seq<T>, s: seq<S>, y: T)
    ensures y in FlatMap(g, s) <==> exists x :: x in s && y in g(x)
  {
    if s != [] {
      FlatMapMember(g, s[1..], y);
      assert forall x :: x in s <==> x == s[0] || x in s[1..];
    }
  }

  lemma {:induction false} FlattenSnoc<T>(s: seq<seq<T>>, x: seq<T>)
    ensures Flatten(s + [x]) == Flatten(s) + x
  {
    if s == [] {
      assert [x][1..] == [] && s + [x] == [x];
    } else {
      FlattenSnoc(s[1..], x);
      assert (s + [x])[1..] == s[1..] + [x];
    }
  }
}

/** The durable facts of a run, and the two projections of the store's reducer
    that the commit protocol depends on: the run status and the run's spend. */
module Facts {
  import opened Wrappers
  import opened Seqs

  /** The ten columns the reducer folds a turn's spend into. */
  datatype Column =
    | BilledTokens | Cost
    | InputTokens | OutputTokens | CacheReadTokens | CacheWriteTokens
    | InputCost | OutputCost | CacheReadCost | CacheWriteCost

  /** One turn's spend. Money and tokens are exact naturals (micro-units). */
  datatype Usage = Usage(
    billed: nat, cost: nat,
    inputTokens: nat, outputTokens: nat, cacheReadTokens: nat, cacheWriteTokens: nat,
    inputCost: nat, outputCost: nat, cacheReadCost: nat, cacheWriteCost: nat)
  {
    /** The guard under which an exit credits the usage at all. */
    predicate Billable() {
      billed > 0 || cost > 0
    }

    function At(c: Column): nat {
      match c
      case BilledTokens => billed
      case Cost => cost
      case InputTokens => inputTokens
      case OutputTokens => outputTokens
      case CacheReadTokens => cacheReadTokens
      case CacheWriteTokens => cacheWriteTokens
      case InputCost => inputCost
      case OutputCost => outputCost
      case CacheReadCost => cacheReadCost
      case CacheWriteCost => cacheWriteCost
    }
  }

  const NO_USAGE := Usage(0, 0, 0, 0, 0, 0, 0, 0, 0, 0)

  datatype Status =
    | Queued | Running
    | Paused | PausedHuman | PausedAuto | Quarantined
    | Completed | Cancelled | Halted
    | Deleted  // no row: the reader returns null

  datatype PauseReason =
    | Human | Operator | ProviderError | PaymentRequired | Budget
    | MaxRetries | GoalGate | MaxLoops | AbortLoop | ProviderExhausted | EngineIncompatible
    | ProviderRetry | HandlerRetry | TimeoutRetry

  /** The reasons a daemon timer wakes on its own. */
  predicate AutoWake(reason: PauseReason) {
    reason in {ProviderRetry, HandlerRetry, TimeoutRetry}
  }

  datatype HaltReason =
    | HaltBudget | HaltError | AbortedExit | OccExhausted | TimeoutExhausted | WorktreeError | OtherHalt

  datatype Termination =
    | Finished(finalNode: string)
    | Aborted(intentSeq: nat)
    | Errored(reason: HaltReason, detail: string, node: Option<string>, partial: Option<Usage>)

  datatype Fact =
    | RunStarted(node: string)
    | NodeStarted(node: string)
    | DispatchStarted(node: string, iteration: nat, pass: nat)
    | NodeCompleted(node: string, iteration: nat, pass: nat, usage: Usage, nextNode: string)
    | NodeAborted(node: string, iteration: nat, pass: nat, cause: string, usage: Usage)
    | HandlerLeaked(node: string, leakedAt: nat)
    | FanoutStarted(node: string, branches: seq<string>)
    | FanoutJoined(node: string, nextNode: string)
    | RunPaused(reason: PauseReason, node: string)
    | RunResumed(fromStatus: Status)
    | RunTerminated(end: Termination)
    | RunHalted(haltNode: Option<string>, partial: Option<Usage>)  // legacy shape, folded but not emitted
    | SideEffect(key: string)
    | IntentsFolded(intentSeq: nat)

  /** The facts that stop a run: what a parking or terminal batch ends in. */
  predicate Parks(f: Fact) {
    f.RunPaused? || f.RunTerminated? || f.RunHalted?
  }

  /** A terminal error that carries no spend. */
  function HaltFact(reason: HaltReason, detail: string): Fact {
    RunTerminated(Errored(reason, detail, None, None))
  }

  /** What the reducer adds to the run metrics for one fact. */
  function FactSpend(f: Fact): Usage {
    match f
    case NodeCompleted(_, _, _, usage, _) => usage
    case NodeAborted(_, _, _, _, usage) => usage
    case RunTerminated(Errored(_, _, _, Some(usage))) => usage
    case RunHalted(_, Some(usage)) => usage
    case _ => NO_USAGE
  }

  /** One column of the run metrics a fact sequence folds to. */
  function Spend(facts: seq<Fact>, c: Column): nat {
    if facts == [] then 0 else FactSpend(facts[0]).At(c) + Spend(facts[1..], c)
  }

  /** Token and cost columns: the two every split keeps without exception. */
  predicate Money(c: Column) {
    c == BilledTokens || c == Cost
  }

  /** Two sequences fold to the same run metrics. */
  ghost predicate SameSpend(a: seq<Fact>, b: seq<Fact>) {
    forall c :: Spend(a, c) == Spend(b, c)
  }

  /** The node whose bucket the reducer credits with a fact's spend. */
  function CreditedNode(f: Fact): Option<string> {
    match f
    case NodeCompleted(node, _, _, _, _) => Some(node)
    case NodeAborted(node, _, _, _, _) => Some(node)
    case RunTerminated(Errored(_, _, node, Some(_))) => node
    case RunHalted(node, Some(_)) => node
    case _ => None
  }

  /** The cost bucket of one node after a fact sequence. */
  function NodeCost(facts: seq<Fact>, node: string): nat {
    if facts == [] then 0
    else (if CreditedNode(facts[0]) == Some(node) then FactSpend(facts[0]).cost else 0) + NodeCost(facts[1..], node)
  }

  function PausedStatus(reason: PauseReason): Status {
    if reason == Human then PausedHuman else if AutoWake(reason) then PausedAuto else Paused
  }

  /** The reducer's status projection for one fact. */
  function StatusStep(s: Status, f: Fact): Status {
    match f
    case RunStarted(_) => Running
    case NodeStarted(_) => Running
    case FanoutStarted(_, _) => Running
    case DispatchStarted(_, _, _) => if s == Queued then Running else s
    case RunPaused(reason, _) => PausedStatus(reason)
    case RunResumed(_) => Queued
    case RunTerminated(Finished(_)) => Completed
    case RunTerminated(Aborted(_)) => Cancelled
    case RunTerminated(Errored(_, _, _, _)) => Halted
    case RunHalted(_, _) => Halted
    case _ => s
  }

  function StatusAfter(s: Status, facts: seq<Fact>): Status
    decreases |facts|
  {
    if facts == [] then s else StatusAfter(StatusStep(s, facts[0]), facts[1..])
  }

  /** Facts that never move a run's status. */
  predicate Neutral(f: Fact) {
    f.NodeCompleted? || f.NodeAborted? || f.HandlerLeaked? || f.FanoutJoined? || f.SideEffect? || f.IntentsFolded?
  }

  /** Which facts bring a run where: none but a resume queues it, none but a start
      or a dispatch has it running, and a dispatch only from the queue; the
      reason decides how it is paused, its end which of the three ends it is. */
  lemma StatusByFact(s: Status, f: Fact)
    ensures Neutral(f) ==> StatusStep(s, f) == s
    ensures StatusStep(s, f) == Running && s != Running ==>
              f.RunStarted? || f.NodeStarted? || f.FanoutStarted? || (f.DispatchStarted? && s == Queued)
    ensures f.RunStarted? || f.NodeStarted? || f.FanoutStarted? || (f.DispatchStarted? && s in {Queued, Running}) ==>
              StatusStep(s, f) == Running
    ensures f.DispatchStarted? && s != Queued ==> StatusStep(s, f) == s
    ensures f.RunResumed? <==> StatusStep(s, f) == Queued && (s != Queued || !(Neutral(f) || f.DispatchStarted?))
    ensures f.RunPaused? ==>
              StatusStep(s, f) == if f.reason == Human then PausedHuman
                                  else if f.reason in {ProviderRetry, HandlerRetry, TimeoutRetry} then PausedAuto
                                  else Paused
    ensures f.RunTerminated? ==>
              StatusStep(s, f) == match f.end
                                  case Finished(_) => Completed
                                  case Aborted(_) => Cancelled
                                  case Errored(_, _, _, _) => Halted
    ensures f.RunHalted? ==> StatusStep(s, f) == Halted
  {
  }

  lemma {:induction false} SpendConcat(a: seq<Fact>, b: seq<Fact>, c: Column)
    ensures Spend(a + b, c) == Spend(a, c) + Spend(b, c)
  {
    if a == [] {
      assert a + b == b;
    } else {
      SpendConcat(a[1..], b, c);
      assert (a + b)[1..] == a[1..] + b;
    }
  }

  lemma {:induction false} NodeCostConcat(a: seq<Fact>, b: seq<Fact>, node: string)
    ensures NodeCost(a + b, node) == NodeCost(a, node) + NodeCost(b, node)
  {
    if a == [] {
      assert a + b == b;
    } else {
      NodeCostConcat(a[1..], b, node);
      assert (a + b)[1..] == a[1..] + b;
    }
  }

  /** No node is credited with more than the run. */
  lemma {:induction false} NodeCostWithin(facts: seq<Fact>, node: string)
    ensures NodeCost(facts, node) <= Spend(facts, Cost)
    ensures (forall f :: f in facts && FactSpend(f) != NO_USAGE ==> CreditedNode(f) == Some(node)) ==>
              NodeCost(facts, node) == Spend(facts, Cost)
  {
    if facts != [] {
      NodeCostWithin(facts[1..], node);
      assert facts[0] in facts;
    }
  }

  lemma {:induction false} StatusAfterConcat(s: Status, a: seq<Fact>, b: seq<Fact>)
    ensures StatusAfter(s, a + b) == StatusAfter(StatusAfter(s, a), b)
    decreases |a|
  {
    if a == [] {
      assert a + b == b;
    } else {
      StatusAfterConcat(StatusStep(s, a[0]), a[1..], b);
      assert (a + b)[1..] == a[1..] + b;
    }
  }

  /** A batch that ends in a park or terminal fact takes the run out of
      `running` whatever precedes it and whatever the status was. */
  lemma ParkingBatchStops(s: Status, facts: seq<Fact>)
    requires facts != [] && Parks(facts[|facts| - 1])
    ensures StatusAfter(s, facts) != Running && StatusAfter(s, facts) != Queued
  {
    var k := |facts| - 1;
    assert facts == facts[..k] + [facts[k]];
    StatusAfterConcat(s, facts[..k], [facts[k]]);
  }

  lemma {:induction false} FreeFactsSpendNothing(facts: seq<Fact>, c: Column)
    requires forall f :: f in facts ==> FactSpend(f) == NO_USAGE
    ensures Spend(facts, c) == 0
    ensures forall node :: NodeCost(facts, node) == 0
  {
    if facts != [] {
      assert facts[0] in facts;
      FreeFactsSpendNothing(facts[1..], c);
    }
  }

  // ---------- what a per-fact filter does to spend ----------

  /** One column of the facts a filter does not keep. */
  function Dropped(facts: seq<Fact>, keeps: Fact -> bool, c: Column): nat {
    if facts == [] then 0
    else (if keeps(facts[0]) then 0 else FactSpend(facts[0]).At(c)) + Dropped(facts[1..], keeps, c)
  }

  /** A filter that passes a kept fact's spend and nothing of a dropped one. */
  ghost predicate Filters(g: Fact -> seq<Fact>, keeps: Fact -> bool) {
    forall f, c :: Spend(g(f), c) == if keeps(f) then FactSpend(f).At(c) else 0
  }

  lemma {:induction false} FilterSpend(facts: seq<Fact>, g: Fact -> seq<Fact>, keeps: Fact -> bool, c: Column)
    requires Filters(g, keeps)
    ensures Spend(FlatMap(g, facts), c) + Dropped(facts, keeps, c) == Spend(facts, c)
  {
    if facts != [] {
      FilterSpend(facts[1..], g, keeps, c);
      SpendConcat(g(facts[0]), FlatMap(g, facts[1..]), c);
    }
  }

  /** No spend hides in the facts a filter drops. */
  predicate KeepsAll(facts: seq<Fact>, keeps: Fact -> bool) {
    forall f :: f in facts ==> keeps(f) || FactSpend(f) == NO_USAGE
  }

  lemma {:induction false} DroppedNoneOf(facts: seq<Fact>, keeps: Fact -> bool, c: Column)
    requires forall f :: f in facts ==> keeps(f) || FactSpend(f).At(c) == 0
    ensures Dropped(facts, keeps, c) == 0
  {
    if facts != [] {
      assert facts[0] in facts;
      DroppedNoneOf(facts[1..], keeps, c);
    }
  }

  lemma {:induction false} DroppedSomething(facts: seq<Fact>, keeps: Fact -> bool) returns (c: Column)
    requires !KeepsAll(facts, keeps)
    ensures Dropped(facts, keeps, c) > 0
  {
    if keeps(facts[0]) || FactSpend(facts[0]) == NO_USAGE {
      c := DroppedSomething(facts[1..], keeps);
    } else {
      c := NonZeroColumn(FactSpend(facts[0]));
    }
  }

  lemma NonZeroColumn(u: Usage) returns (c: Column)
    requires u != NO_USAGE
    ensures u.At(c) > 0
  {
    c := if u.billed > 0 then BilledTokens else if u.cost > 0 then Cost
         else if u.inputTokens > 0 then InputTokens else if u.outputTokens > 0 then OutputTokens
         else if u.cacheReadTokens > 0 then CacheReadTokens else if u.cacheWriteTokens > 0 then CacheWriteTokens
         else if u.inputCost > 0 then InputCost else if u.outputCost > 0 then OutputCost
         else if u.cacheReadCost > 0 then CacheReadCost else CacheWriteCost;
  }

  /** A filter conserves a batch's spend in every column exactly when no spend
      hides in what it drops. */
  lemma FilterConserves(facts: seq<Fact>, g: Fact -> seq<Fact>, keeps: Fact -> bool)
    requires Filters(g, keeps)
    ensures SameSpend(FlatMap(g, facts), facts) <==> KeepsAll(facts, keeps)
  {
    if KeepsAll(facts, keeps) {
      forall c ensures Spend(FlatMap(g, facts), c) == Spend(facts, c) {
        FilterSpend(facts, g, keeps, c);
        DroppedNoneOf(facts, keeps, c);
      }
    } else {
      var c := DroppedSomething(facts, keeps);
      FilterSpend(facts, g, keeps, c);
    }
  }
}
