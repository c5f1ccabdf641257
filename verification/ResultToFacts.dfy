/** Where a turn's spend rides: the one producer of a non-success exit's spend,
    and the split of a discarded batch down to its spend. */
module ResultToFacts {
  import opened Wrappers
  import opened Facts
  import opened Seqs

  datatype At = At(iteration: nat, pass: nat)

  const ORIGIN := At(0, 0)

  function ExitSpendFacts(node: string, iteration: nat, cause: string, usage: Usage, pass: nat): seq<Fact> {
    [NodeAborted(node, iteration, pass, cause, usage)]
  }

  /** The halt payload that may carry `partial*` spend. */
  function PartialSpendOf(f: Fact): Option<(Option<string>, Option<Usage>)> {
    match f
    case RunHalted(node, partial) => Some((node, partial))
    case RunTerminated(Errored(_, _, node, partial)) => Some((node, partial))
    case _ => None
  }

  /** The stand-alone spend of one fact: nothing, or one `node_aborted`. */
  function SpendTwin(f: Fact, cause: string, at: At): seq<Fact> {
    match f
    case NodeAborted(_, _, _, _, usage) =>
      if usage.Billable() then [f] else []
    case NodeCompleted(node, iteration, pass, usage, _) =>
      if usage.Billable() then ExitSpendFacts(node, iteration, cause, usage, pass) else []
    case _ =>
      match PartialSpendOf(f)
      case Some((node, Some(usage))) =>
        if usage.Billable()
        then ExitSpendFacts(if node.Some? then node.value else "", at.iteration, cause, usage, at.pass)
        else []
      case _ => []
  }

  /** The spend of a batch that is being discarded. */
  function SpendFactsFor(facts: seq<Fact>, cause: string, at: At): seq<Fact> {
    FlatMap(f => SpendTwin(f, cause, at), facts)
  }

  /** The fact with a halt's partial spend, and the node it is keyed on, removed. */
  function WithoutSpend(f: Fact): Fact {
    match f
    case RunHalted(_, _) => RunHalted(None, None)
    case RunTerminated(Errored(reason, detail, _, _)) => RunTerminated(Errored(reason, detail, None, None))
    case _ => f
  }

  /** The split keeps a fact that is billed at all. */
  predicate IsBilled(f: Fact) {
    FactSpend(f).Billable()
  }

  lemma TwinFilters(cause: string, at: At)
    ensures Filters(f => SpendTwin(f, cause, at), IsBilled)
  {
    forall f, c ensures Spend(SpendTwin(f, cause, at), c) == if IsBilled(f) then FactSpend(f).At(c) else 0 {
      var twin := SpendTwin(f, cause, at);
      assert twin == [] || (twin == [twin[0]] && twin[1..] == []);
    }
  }

  /** The loop form: one pass over the batch, pushing into `out`. */
  method BuildSpendFacts(facts: seq<Fact>, cause: string, at: At) returns (out: seq<Fact>)
    ensures out == SpendFactsFor(facts, cause, at)
    ensures Spend(out, BilledTokens) == Spend(facts, BilledTokens) && Spend(out, Cost) == Spend(facts, Cost)
  {
    out := [];
    var twin := f => SpendTwin(f, cause, at);
    for i := 0 to |facts|
      invariant out == FlatMap(twin, facts[..i])
    {
      assert facts[..i + 1] == facts[..i] + [facts[i]];
      FlatMapSnoc(twin, facts[..i], facts[i]);
      out := out + twin(facts[i]);
    }
    assert facts[..|facts|] == facts;
    SpendFactsConserve(facts, cause, at);
  }

  /** The split keeps the tokens and the cost of every batch; it keeps all ten
      columns exactly when no fact carries columns under zero tokens and cost. */
  lemma SpendFactsConserve(facts: seq<Fact>, cause: string, at: At)
    ensures Spend(SpendFactsFor(facts, cause, at), BilledTokens) == Spend(facts, BilledTokens)
    ensures Spend(SpendFactsFor(facts, cause, at), Cost) == Spend(facts, Cost)
    ensures SameSpend(SpendFactsFor(facts, cause, at), facts) <==> KeepsAll(facts, IsBilled)
  {
    TwinFilters(cause, at);
    FilterConserves(facts, f => SpendTwin(f, cause, at), IsBilled);
    FilterSpend(facts, f => SpendTwin(f, cause, at), IsBilled, BilledTokens);
    FilterSpend(facts, f => SpendTwin(f, cause, at), IsBilled, Cost);
    DroppedNoneOf(facts, IsBilled, BilledTokens);
    DroppedNoneOf(facts, IsBilled, Cost);
  }

  /** The split is a projection: splitting spend facts again changes nothing. */
  lemma {:induction false} SpendFactsIdempotent(facts: seq<Fact>, cause: string, at: At, cause2: string, at2: At)
    ensures SpendFactsFor(SpendFactsFor(facts, cause, at), cause2, at2) == SpendFactsFor(facts, cause, at)
  {
    if facts != [] {
      var twin := SpendTwin(facts[0], cause, at);
      var rest := SpendFactsFor(facts[1..], cause, at);
      SpendFactsIdempotent(facts[1..], cause, at, cause2, at2);
      FlatMapConcat(f => SpendTwin(f, cause2, at2), twin, rest);
      if twin != [] {
        FlatMapSnoc(f => SpendTwin(f, cause2, at2), [], twin[0]);
        assert twin == [] + [twin[0]];
      }
    }
  }

  /** Spend facts never move the run status, so they may lead any halt. */
  lemma {:induction false} SpendFactsKeepStatus(s: Status, facts: seq<Fact>, cause: string, at: At)
    ensures StatusAfter(s, SpendFactsFor(facts, cause, at)) == s
  {
    if facts != [] {
      var twin := SpendTwin(facts[0], cause, at);
      SpendFactsKeepStatus(s, facts[1..], cause, at);
      StatusAfterConcat(s, twin, SpendFactsFor(facts[1..], cause, at));
      assert twin == [] || twin == [twin[0]];
      assert StatusAfter(s, twin) == s;
    }
  }

  /** The split is made of aborts only, each billed and under the cause of the
      split unless the batch had it; a completed node's stays on its node, its
      iteration and its pass. */
  lemma SpendFactsAreAborts(facts: seq<Fact>, cause: string, at: At, f: Fact)
    ensures f in SpendFactsFor(facts, cause, at) ==>
              f.NodeAborted? && FactSpend(f).Billable() && (f in facts || f.cause == cause)
    ensures f in facts && f.NodeCompleted? && f.usage.Billable() ==>
              NodeAborted(f.node, f.iteration, f.pass, cause, f.usage) in SpendFactsFor(facts, cause, at)
    ensures f in facts && f.NodeAborted? && f.usage.Billable() ==> f in SpendFactsFor(facts, cause, at)
  {
    var twin := f => SpendTwin(f, cause, at);
    FlatMapMember(twin, facts, f);
    if f.NodeCompleted? && f.usage.Billable() {
      var abort := NodeAborted(f.node, f.iteration, f.pass, cause, f.usage);
      FlatMapMember(twin, facts, abort);
      assert abort in twin(f);
    } else {
      assert f.NodeAborted? && f.usage.Billable() ==> f in twin(f);
    }
  }

  /** The cost in a batch that the reducer credits to no node: that of the halts
      that carry spend and name none. */
  function UncreditedCost(facts: seq<Fact>): nat {
    if facts == [] then 0
    else (if CreditedNode(facts[0]) == None then FactSpend(facts[0]).cost else 0) + UncreditedCost(facts[1..])
  }

  /** The split keeps the cost bucket of every node, but for the node named "",
      which it credits with what the batch credited to no node. */
  lemma {:induction false} SpendFactsNodeCost(facts: seq<Fact>, cause: string, at: At, node: string)
    ensures NodeCost(SpendFactsFor(facts, cause, at), node)
            == NodeCost(facts, node) + if node == "" then UncreditedCost(facts) else 0
  {
    if facts != [] {
      var twin := SpendTwin(facts[0], cause, at);
      SpendFactsNodeCost(facts[1..], cause, at, node);
      NodeCostConcat(twin, SpendFactsFor(facts[1..], cause, at), node);
      assert twin == [] || twin == [twin[0]];
    }
  }

  /** So it keeps that bucket exactly when no halt without a node costs
      anything. */
  lemma SpendFactsKeepNodeCost(facts: seq<Fact>, cause: string, at: At)
    ensures NodeCost(SpendFactsFor(facts, cause, at), "") == NodeCost(facts, "")
            <==> forall f :: f in facts && PartialSpendOf(f).Some? && CreditedNode(f) == None ==> FactSpend(f).cost == 0
  {
    SpendFactsNodeCost(facts, cause, at, "");
    UncreditedExactly(facts);
  }

  lemma {:induction false} UncreditedExactly(facts: seq<Fact>)
    ensures UncreditedCost(facts) == 0
            <==> forall f :: f in facts && PartialSpendOf(f).Some? && CreditedNode(f) == None ==> FactSpend(f).cost == 0
  {
    if facts != [] {
      UncreditedExactly(facts[1..]);
      assert facts[0] in facts;
      assert forall f :: f in facts ==> f == facts[0] || f in facts[1..];
    }
  }

  /** A halt that spent seven micro-units and names no node. */
  lemma UnnamedHaltIsCredited(cause: string)
    ensures var halt := RunTerminated(Errored(HaltBudget, "", None, Some(Usage(5, 7, 5, 0, 0, 0, 7, 0, 0, 0))));
            NodeCost([halt], "") == 0 && NodeCost(SpendFactsFor([halt], cause, ORIGIN), "") == 7
  {
    var halt := RunTerminated(Errored(HaltBudget, "", None, Some(Usage(5, 7, 5, 0, 0, 0, 7, 0, 0, 0))));
    SpendFactsNodeCost([halt], cause, ORIGIN, "");
    assert [halt][1..] == [];
  }

  /** `withoutSpend` and the split partition a fact: together they carry what
      the fact carried, and the remainder of a halt carries nothing, still
      stops the run, and ranks the same. */
  lemma HaltPartition(f: Fact, cause: string, at: At)
    requires PartialSpendOf(f).Some?
    ensures FactSpend(WithoutSpend(f)) == NO_USAGE && CreditedNode(WithoutSpend(f)) == None
    ensures WithoutSpend(WithoutSpend(f)) == WithoutSpend(f)
    ensures forall s :: StatusStep(s, WithoutSpend(f)) == StatusStep(s, f)
    ensures SameSpend(SpendFactsFor([f], cause, at) + [WithoutSpend(f)], [f]) <==> KeepsAll([f], IsBilled)
  {
    SpendFactsConserve([f], cause, at);
    var split := SpendFactsFor([f], cause, at);
    forall c ensures Spend(split + [WithoutSpend(f)], c) == Spend(split, c) {
      SpendConcat(split, [WithoutSpend(f)], c);
      assert FactSpend(WithoutSpend(f)).At(c) == 0;
    }
  }
}
