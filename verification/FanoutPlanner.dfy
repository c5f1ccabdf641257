/** The pure decisions of a fan-out superstep: the single run-level disposition
    slot, the split of a settling branch, and what an early bail commits. */
module FanoutPlanner {
  import opened Wrappers
  import opened Facts
  import opened Seqs
  import opened ResultToFacts
  import opened AbortPlanner

  // ---------- the disposition slot ----------

  /** A halt beats a budget pause, which beats a pause the operator must act
      on, which beats a pause a timer would wake. */
  function DispositionRank(f: Fact): int {
    match f
    case RunTerminated(_) => 3
    case RunPaused(reason, _) =>
      if reason == Budget then 2 else if reason != Human && AutoWake(reason) then 0 else 1
    case _ => -1
  }

  function NoteDisposition(current: Option<Fact>, incoming: Fact): Option<Fact> {
    if current == None then Some(incoming)
    else if DispositionRank(incoming) > DispositionRank(current.value) then Some(incoming)
    else current
  }

  /** The slot after a sequence of offered facts. */
  function FoldSlot(slot: Option<Fact>, offers: seq<Fact>): Option<Fact>
    decreases |offers|
  {
    if offers == [] then slot else FoldSlot(NoteDisposition(slot, offers[0]), offers[1..])
  }

  /** `i` is the first of the highest-ranked offers. */
  ghost predicate FirstMax(offers: seq<Fact>, i: nat) {
    && i < |offers|
    && (forall j :: 0 <= j < |offers| ==> DispositionRank(offers[j]) <= DispositionRank(offers[i]))
    && (forall j :: 0 <= j < i ==> DispositionRank(offers[j]) < DispositionRank(offers[i]))
  }

  lemma {:induction false} FoldSlotConcat(slot: Option<Fact>, a: seq<Fact>, b: seq<Fact>)
    ensures FoldSlot(slot, a + b) == FoldSlot(FoldSlot(slot, a), b)
    decreases |a|
  {
    if a == [] {
      assert a + b == b;
    } else {
      FoldSlotConcat(NoteDisposition(slot, a[0]), a[1..], b);
      assert (a + b)[1..] == a[1..] + b;
    }
  }

  lemma {:induction false} FirstMaxExists(offers: seq<Fact>) returns (i: nat)
    requires offers != []
    ensures FirstMax(offers, i) && FoldSlot(None, offers) == Some(offers[i])
    decreases |offers|
  {
    var k := |offers| - 1;
    var front := offers[..k];
    assert offers == front + [offers[k]];
    FoldSlotConcat(None, front, [offers[k]]);
    if front == [] {
      i := 0;
    } else {
      i := FirstMaxExists(front);
      if DispositionRank(offers[k]) > DispositionRank(front[i]) {
        i := k;
      }
    }
  }

  /** The slot holds the first fact of maximal rank, and nothing else. */
  lemma SlotIsFirstMax(offers: seq<Fact>, f: Fact)
    ensures FoldSlot(None, offers) == Some(f) <==> exists i: nat :: FirstMax(offers, i) && offers[i] == f
    ensures FoldSlot(None, offers) == None <==> offers == []
  {
    if offers != [] {
      var i := FirstMaxExists(offers);
      assert forall j: nat :: FirstMax(offers, j) ==> j == i;
    }
  }

  // ---------- what a settling branch commits and offers ----------

  /** The fail-closed halt of a branch that resolved to a run terminal. */
  function PlanBranchTerminal(node: string): Fact {
    HaltFact(HaltError, "fanout_branch_terminal:" + node)
  }

  predicate RunLevel(f: Fact) {
    f.RunPaused? || f.RunTerminated?
  }

  function ExitKept(facts: seq<Fact>): seq<Fact> {
    FlatMap(f => if RunLevel(f) then [] else [f], facts)
  }

  function ExitOffers(facts: seq<Fact>): seq<Fact> {
    FlatMap(f => if RunLevel(f) then [f] else [], facts)
  }

  lemma ExitSnoc(facts: seq<Fact>, f: Fact)
    ensures ExitKept(facts + [f]) == ExitKept(facts) + if RunLevel(f) then [] else [f]
    ensures ExitOffers(facts + [f]) == ExitOffers(facts) + if RunLevel(f) then [f] else []
  {
    FlatMapSnoc(f => if RunLevel(f) then [] else [f], facts, f);
    FlatMapSnoc(f => if RunLevel(f) then [f] else [], facts, f);
  }

  method PartitionExitFacts(slot: Option<Fact>, facts: seq<Fact>)
    returns (branchFacts: seq<Fact>, disposition: Option<Fact>)
    ensures branchFacts == ExitKept(facts)
    ensures disposition == FoldSlot(slot, ExitOffers(facts))
  {
    branchFacts, disposition := [], slot;
    for i := 0 to |facts|
      invariant branchFacts == ExitKept(facts[..i])
      invariant disposition == FoldSlot(slot, ExitOffers(facts[..i]))
    {
      assert facts[..i + 1] == facts[..i] + [facts[i]];
      ExitSnoc(facts[..i], facts[i]);
      if RunLevel(facts[i]) {
        FoldSlotConcat(slot, ExitOffers(facts[..i]), [facts[i]]);
        disposition := NoteDisposition(disposition, facts[i]);
      } else {
        assert ExitOffers(facts[..i]) + [] == ExitOffers(facts[..i]);
        branchFacts := branchFacts + [facts[i]];
      }
    }
    assert facts[..|facts|] == facts;
  }

  /** A completion of the whole run, planned by one branch. */
  predicate CompletesRun(f: Fact) {
    f.RunTerminated? && f.end.Finished?
  }

  function KeptOf(f: Fact, at: At): seq<Fact> {
    if CompletesRun(f) then []
    else if f.RunTerminated? || f.RunPaused? then SpendFactsFor([f], "halt", at)
    else if f.NodeStarted? then []
    else [f]
  }

  function Kept(facts: seq<Fact>, at: At): seq<Fact> {
    FlatMap(f => KeptOf(f, at), facts)
  }

  function OfferOf(f: Fact): seq<Fact> {
    if RunLevel(f) && !CompletesRun(f) then [WithoutSpend(f)] else []
  }

  function Offers(facts: seq<Fact>): seq<Fact> {
    FlatMap(OfferOf, facts)
  }

  predicate CompletesSome(facts: seq<Fact>) {
    exists f :: f in facts && CompletesRun(f)
  }

  datatype Settlement = Settlement(
    branchFacts: seq<Fact>, disposition: Option<Fact>, successor: Option<string>, terminal: bool)

  /** What a branch's planned successor resolves to. */
  datatype Successor = Drained | Dangling | Continues(node: string)

  function Resolve(nextNode: Option<string>, join: Option<string>, graphNodes: Option<set<string>>): Successor {
    if nextNode == None || nextNode == join then Drained
    else if graphNodes == None || nextNode.value !in graphNodes.value then Dangling
    else Continues(nextNode.value)
  }

  predicate BranchTerminal(facts: seq<Fact>, next: Successor) {
    CompletesSome(facts) || next.Dangling?
  }

  function SettlementOffers(node: string, facts: seq<Fact>, next: Successor): seq<Fact> {
    Offers(facts) + if BranchTerminal(facts, next) then [PlanBranchTerminal(node)] else []
  }

  lemma SortSnoc(facts: seq<Fact>, f: Fact, at: At, slot: Option<Fact>)
    ensures Kept(facts + [f], at) == Kept(facts, at) + KeptOf(f, at)
    ensures FoldSlot(slot, Offers(facts + [f]))
            == if OfferOf(f) == [] then FoldSlot(slot, Offers(facts))
               else NoteDisposition(FoldSlot(slot, Offers(facts)), WithoutSpend(f))
  {
    FlatMapSnoc(f => KeptOf(f, at), facts, f);
    FlatMapSnoc(OfferOf, facts, f);
    FoldSlotConcat(slot, Offers(facts), OfferOf(f));
    var before := FoldSlot(slot, Offers(facts));
    if OfferOf(f) != [] {
      assert OfferOf(f)[1..] == [];
      assert FoldSlot(before, OfferOf(f)) == FoldSlot(NoteDisposition(before, OfferOf(f)[0]), []);
    }
  }

  /** The scan over a completion's facts. */
  method SortCompletion(facts: seq<Fact>, at: At, slot: Option<Fact>)
    returns (branchFacts: seq<Fact>, disposition: Option<Fact>, terminal: bool)
    ensures branchFacts == Kept(facts, at)
    ensures disposition == FoldSlot(slot, Offers(facts))
    ensures terminal == CompletesSome(facts)
  {
    branchFacts, disposition, terminal := [], slot, false;
    for i := 0 to |facts|
      invariant branchFacts == Kept(facts[..i], at)
      invariant disposition == FoldSlot(slot, Offers(facts[..i]))
      invariant terminal <==> exists k :: 0 <= k < i && CompletesRun(facts[k])
    {
      var f := facts[i];
      assert facts[..i + 1] == facts[..i] + [f];
      SortSnoc(facts[..i], f, at, slot);
      if CompletesRun(f) {
        terminal := true;
      } else if f.RunTerminated? || f.RunPaused? {
        branchFacts := branchFacts + SpendFactsFor([f], "halt", at);
        disposition := NoteDisposition(disposition, WithoutSpend(f));
      } else if !f.NodeStarted? {
        branchFacts := branchFacts + [f];
      }
    }
    assert facts[..|facts|] == facts;
  }

  method PlanBranchSettlement(
      node: string, facts: seq<Fact>, nextNode: Option<string>, join: Option<string>,
      graphNodes: Option<set<string>>, at: At, successorIteration: nat, slot: Option<Fact>)
    returns (s: Settlement)
    ensures var next := Resolve(nextNode, join, graphNodes);
            && s.terminal == BranchTerminal(facts, next)
            && s.disposition == FoldSlot(slot, SettlementOffers(node, facts, next))
            && s.successor == (if next.Continues? && !s.terminal then Some(next.node) else None)
            && s.branchFacts == Kept(facts, at)
                + if s.successor.Some? then [DispatchStarted(s.successor.value, successorIteration, at.pass)] else []
  {
    var branchFacts, disposition, terminal := SortCompletion(facts, at, slot);
    var successor := if nextNode.Some? && nextNode != join then nextNode else None;
    if successor.Some? && (graphNodes == None || successor.value !in graphNodes.value) {
      terminal, successor := true, None;
    }
    if terminal {
      successor := None;
      FoldSlotConcat(slot, Offers(facts), [PlanBranchTerminal(node)]);
      disposition := NoteDisposition(disposition, PlanBranchTerminal(node));
    } else {
      assert Offers(facts) + [] == Offers(facts);
    }
    if successor.Some? {
      branchFacts := branchFacts + [DispatchStarted(successor.value, successorIteration, at.pass)];
    }
    s := Settlement(branchFacts, disposition, successor, terminal);
  }

  /** A branch never ends the run by completing it: where its batch would, or its
      successor is neither the join nor a node of the graph, what it offers
      halts the run; and it names its successor's node only of the graph. */
  lemma BranchFailsClosed(
      node: string, facts: seq<Fact>, nextNode: Option<string>, join: Option<string>, graphNodes: Option<set<string>>)
    ensures var next := Resolve(nextNode, join, graphNodes); var offers := SettlementOffers(node, facts, next);
            && (forall f :: f in offers ==> !CompletesRun(f))
            && ((exists f :: f in facts && f.RunTerminated? && f.end.Finished?)
                || (nextNode.Some? && nextNode != join
                    && (graphNodes == None || nextNode.value !in graphNodes.value)) ==>
                  exists f :: f in offers && f.RunTerminated? && f.end.Errored? && f.end.reason == HaltError)
            && (next.Continues? ==>
                  nextNode == Some(next.node) && nextNode != join && graphNodes.Some? && next.node in graphNodes.value)
  {
    var next := Resolve(nextNode, join, graphNodes);
    var offers := SettlementOffers(node, facts, next);
    forall f | f in Offers(facts) ensures !CompletesRun(f) {
      FlatMapMember(OfferOf, facts, f);
    }
    if BranchTerminal(facts, next) {
      assert offers[|offers| - 1] == PlanBranchTerminal(node);
    }
  }

  // ---------- money across the split ----------

  /** The settlement keeps every fact but a halt with nothing billed. */
  predicate SettleKeeps(f: Fact) {
    f.RunTerminated? ==> FactSpend(f).Billable()
  }

  lemma OneFactSpend(f: Fact, c: Column)
    ensures Spend([f], c) == FactSpend(f).At(c) && Spend([], c) == 0
  {
    assert [f][1..] == [];
  }

  lemma OneTwin(f: Fact, at: At, c: Column)
    ensures Spend(SpendFactsFor([f], "halt", at), c) == if IsBilled(f) then FactSpend(f).At(c) else 0
  {
    TwinFilters("halt", at);
    FilterSpend([f], f => SpendTwin(f, "halt", at), IsBilled, c);
    OneFactSpend(f, c);
    assert [f][1..] == [];
    assert Dropped([f], IsBilled, c) == (if IsBilled(f) then 0 else FactSpend(f).At(c)) + Dropped([], IsBilled, c);
  }

  lemma SettleFilters(at: At)
    ensures Filters(f => KeptOf(f, at), SettleKeeps)
  {
    forall f, c ensures Spend(KeptOf(f, at), c) == if SettleKeeps(f) then FactSpend(f).At(c) else 0 {
      OneTwin(f, at, c);
      OneFactSpend(f, c);
    }
  }

  /** What a settling branch commits on its own lane is what it spent: in every
      column, exactly when no halt in its batch carries columns under zero
      tokens and cost; the successor marker adds nothing, and what reaches the
      slot carries nothing. */
  lemma SettlementConserves(node: string, facts: seq<Fact>, at: At, next: Successor, marker: seq<Fact>)
    requires forall f :: f in marker ==> f.DispatchStarted?
    ensures SameSpend(Kept(facts, at) + marker, facts) <==> KeepsAll(facts, SettleKeeps)
    ensures forall f :: f in SettlementOffers(node, facts, next) ==> Parks(f) && FactSpend(f) == NO_USAGE
  {
    SettleFilters(at);
    FilterConserves(facts, f => KeptOf(f, at), SettleKeeps);
    forall c ensures Spend(Kept(facts, at) + marker, c) == Spend(Kept(facts, at), c) {
      SpendConcat(Kept(facts, at), marker, c);
      FreeFactsSpendNothing(marker, c);
    }
    forall f | f in Offers(facts) ensures Parks(f) && FactSpend(f) == NO_USAGE {
      FlatMapMember(OfferOf, facts, f);
    }
  }

  /** Tokens and cost are kept whatever the batch. */
  lemma SettlementKeepsMoney(facts: seq<Fact>, at: At, marker: seq<Fact>, c: Column)
    requires Money(c) && forall f :: f in marker ==> f.DispatchStarted?
    ensures Spend(Kept(facts, at) + marker, c) == Spend(facts, c)
  {
    SettleFilters(at);
    FilterSpend(facts, f => KeptOf(f, at), SettleKeeps, c);
    DroppedNoneOf(facts, SettleKeeps, c);
    SpendConcat(Kept(facts, at), marker, c);
    FreeFactsSpendNothing(marker, c);
  }

  /** A branch's exit plan splits the same way: its `node_aborted` keeps the
      whole usage on the lane, and what reaches the slot carries nothing. */
  lemma ExitSplitConserves(input: ExitInput)
    ensures SameSpend(ExitKept(PlanExit(input).facts), PlanExit(input).facts)
    ensures ExitKept(PlanExit(input).facts) != []
    ensures forall f :: f in ExitOffers(PlanExit(input).facts) ==> Parks(f) && FactSpend(f) == NO_USAGE
    ensures PlanExit(input).outcome == Halt <==> exists f :: f in ExitOffers(PlanExit(input).facts) && f.RunTerminated?
  {
    var body, tail := ExitShape(input);
    var facts := PlanExit(input).facts;
    ExitCreditsUsageOnce(input);
    SplitConcat(body, tail);
    TailOffers(tail);
    assert body + [] == body && ExitKept(facts) == body && ExitOffers(facts) == tail;
    assert forall f :: f in tail ==> f in facts && Parks(f);
    FreeTail(body, tail);
  }

  lemma FreeTail(body: seq<Fact>, tail: seq<Fact>)
    requires forall f :: f in tail ==> FactSpend(f) == NO_USAGE
    ensures SameSpend(body, body + tail)
  {
    forall c ensures Spend(body, c) == Spend(body + tail, c) {
      SpendConcat(body, tail, c);
      FreeFactsSpendNothing(tail, c);
    }
  }

  lemma TailOffers(tail: seq<Fact>)
    requires |tail| <= 1 && (tail != [] ==> RunLevel(tail[0]))
    ensures ExitKept(tail) == [] && ExitOffers(tail) == tail
  {
    if tail != [] {
      assert tail == [] + [tail[0]];
      ExitSnoc([], tail[0]);
    }
  }

  /** Splitting a batch whose park facts all come last. */
  lemma {:induction false} SplitConcat(body: seq<Fact>, tail: seq<Fact>)
    requires forall f :: f in body ==> !RunLevel(f)
    ensures ExitKept(body + tail) == body + ExitKept(tail)
    ensures ExitOffers(body + tail) == ExitOffers(tail)
  {
    if body == [] {
      assert body + tail == tail;
    } else {
      SplitConcat(body[1..], tail);
      assert body[0] in body;
      assert (body + tail)[1..] == body[1..] + tail;
    }
  }

  // ---------- the slot over a whole pool ----------

  /** One thing that may offer run-level facts while the pool drains. */
  datatype PoolEvent =
    | BranchExit(input: ExitInput)
    | BranchDone(node: string, facts: seq<Fact>, next: Successor)
    | BudgetCapture(breach: Option<Fact>)
    | LoopCeiling(node: string)

  function EventOffers(e: PoolEvent): seq<Fact> {
    match e
    case BranchExit(input) => ExitOffers(PlanExit(input).facts)
    case BranchDone(node, facts, next) => SettlementOffers(node, facts, next)
    case BudgetCapture(breach) => if breach.Some? then [breach.value] else []
    case LoopCeiling(node) => [RunPaused(MaxLoops, node)]
  }

  /** What the driver does to the slot. A halt already in it skips the budget
      evaluation. */
  function SlotStep(slot: Option<Fact>, e: PoolEvent): Option<Fact> {
    match e
    case BudgetCapture(breach) =>
      if slot.Some? && slot.value.RunTerminated? then slot
      else if breach.Some? then NoteDisposition(slot, breach.value) else slot
    case LoopCeiling(node) => NoteDisposition(slot, RunPaused(MaxLoops, node))
    case _ => FoldSlot(slot, EventOffers(e))
  }

  function PoolSlot(slot: Option<Fact>, events: seq<PoolEvent>): Option<Fact>
    decreases |events|
  {
    if events == [] then slot else PoolSlot(SlotStep(slot, events[0]), events[1..])
  }

  function AllOffers(events: seq<PoolEvent>): seq<Fact> {
    FlatMap(EventOffers, events)
  }

  lemma {:induction false} PoolSlotIsFold(slot: Option<Fact>, events: seq<PoolEvent>)
    ensures PoolSlot(slot, events) == FoldSlot(slot, AllOffers(events))
    decreases |events|
  {
    if events != [] {
      var offers := EventOffers(events[0]);
      FoldSlotConcat(slot, offers, AllOffers(events[1..]));
      PoolSlotIsFold(SlotStep(slot, events[0]), events[1..]);
      if events[0].BudgetCapture? && offers != [] {
        assert offers[1..] == [];
        assert FoldSlot(slot, offers) == NoteDisposition(slot, offers[0]);
      }
    }
  }

  lemma {:induction false} PoolSlotSnoc(slot: Option<Fact>, events: seq<PoolEvent>, e: PoolEvent)
    ensures PoolSlot(slot, events + [e]) == SlotStep(PoolSlot(slot, events), e)
    decreases |events|
  {
    if events == [] {
      assert [e][1..] == [] && events + [e] == [e];
    } else {
      PoolSlotSnoc(SlotStep(slot, events[0]), events[1..], e);
      assert (events + [e])[1..] == events[1..] + [e];
    }
  }

  /** Over any order in which branches exit, complete, breach a budget or hit
      the ceiling, the pool ends on the first fact of maximal rank among
      everything offered. */
  lemma PoolSlotIsFirstMax(events: seq<PoolEvent>, f: Fact)
    ensures PoolSlot(None, events) == Some(f)
            <==> exists i: nat :: FirstMax(AllOffers(events), i) && AllOffers(events)[i] == f
    ensures PoolSlot(None, events) == None <==> AllOffers(events) == []
  {
    PoolSlotIsFold(None, events);
    SlotIsFirstMax(AllOffers(events), f);
  }

  /** So no pause masks a halt, no other pause a budget's, and none that a timer
      wakes one that the operator must act on. */
  lemma PoolSlotMasksNothing(events: seq<PoolEvent>, g: Fact)
    requires g in AllOffers(events)
    ensures PoolSlot(None, events).Some?
    ensures g.RunTerminated? ==> PoolSlot(None, events).value.RunTerminated?
    ensures g.RunPaused? && g.reason == Budget ==>
              var slot := PoolSlot(None, events).value;
              slot.RunTerminated? || (slot.RunPaused? && slot.reason == Budget)
    ensures g.RunPaused? && g.reason !in {ProviderRetry, HandlerRetry, TimeoutRetry} ==>
              var slot := PoolSlot(None, events).value;
              slot.RunTerminated? || (slot.RunPaused? && slot.reason !in {ProviderRetry, HandlerRetry, TimeoutRetry})
    ensures PoolSlot(None, events).value.RunPaused? && AutoWake(PoolSlot(None, events).value.reason) && g.RunPaused?
            ==> AutoWake(g.reason)
  {
    var offers := AllOffers(events);
    PoolSlotIsFold(None, events);
    var i := FirstMaxExists(offers);
    var j :| 0 <= j < |offers| && offers[j] == g;
    assert DispositionRank(g) <= DispositionRank(offers[i]);
  }

  // ---------- the early bail ----------

  datatype Unsettled = Unsettled(node: string, iteration: nat, pass: nat, usage: Usage)

  function BailKeptOf(f: Fact): seq<Fact> {
    if f.NodeCompleted? || f.NodeAborted? || f.HandlerLeaked? then [f]
    else if f.RunTerminated? then SpendFactsFor([f], "halt", ORIGIN)
    else []
  }

  function UnsettledSpend(u: Unsettled): seq<Fact> {
    ExitSpendFacts(u.node, u.iteration, "aborted", u.usage, u.pass)
  }

  /** The sibling facts a bail commits ahead of its terminal. */
  function BailSettlement(settled: seq<seq<Fact>>, unsettled: seq<Unsettled>): seq<Fact> {
    FlatMap(BailKeptOf, Flatten(settled)) + FlatMap(UnsettledSpend, unsettled)
  }

  method PlanBailSettlement(settled: seq<seq<Fact>>, unsettled: seq<Unsettled>) returns (out: seq<Fact>)
    ensures out == BailSettlement(settled, unsettled)
  {
    out := [];
    for i := 0 to |settled|
      invariant out == FlatMap(BailKeptOf, Flatten(settled[..i]))
    {
      var facts := settled[i];
      ghost var before := Flatten(settled[..i]);
      assert settled[..i + 1] == settled[..i] + [facts];
      FlattenSnoc(settled[..i], facts);
      assert before + facts[..0] == before;
      for k := 0 to |facts|
        invariant out == FlatMap(BailKeptOf, before + facts[..k])
      {
        assert before + facts[..k + 1] == (before + facts[..k]) + [facts[k]];
        FlatMapSnoc(BailKeptOf, before + facts[..k], facts[k]);
        if facts[k].NodeCompleted? || facts[k].NodeAborted? || facts[k].HandlerLeaked? {
          out := out + [facts[k]];
        } else if facts[k].RunTerminated? {
          out := out + SpendFactsFor([facts[k]], "halt", ORIGIN);
        }
      }
      assert facts[..|facts|] == facts;
    }
    assert settled[..|settled|] == settled;
    ghost var siblings := out;
    for i := 0 to |unsettled|
      invariant out == siblings + FlatMap(UnsettledSpend, unsettled[..i])
    {
      assert unsettled[..i + 1] == unsettled[..i] + [unsettled[i]];
      FlatMapSnoc(UnsettledSpend, unsettled[..i], unsettled[i]);
      out := out + UnsettledSpend(unsettled[i]);
    }
    assert unsettled[..|unsettled|] == unsettled;
  }

  function AccruedSpend(unsettled: seq<Unsettled>, c: Column): nat {
    if unsettled == [] then 0 else unsettled[0].usage.At(c) + AccruedSpend(unsettled[1..], c)
  }

  /** The bail keeps this fact's spend: every emitted spend-bearing shape does,
      except a halt with nothing billed; the legacy halt shape is not looked
      at. */
  predicate BailKeeps(f: Fact) {
    f.NodeCompleted? || f.NodeAborted? || (f.RunTerminated? && FactSpend(f).Billable())
  }

  lemma BailFilters()
    ensures Filters(BailKeptOf, BailKeeps)
  {
    forall f, c ensures Spend(BailKeptOf(f), c) == if BailKeeps(f) then FactSpend(f).At(c) else 0 {
      OneTwin(f, ORIGIN, c);
      OneFactSpend(f, c);
    }
  }

  lemma {:induction false} AccruedLands(unsettled: seq<Unsettled>, c: Column)
    ensures Spend(FlatMap(UnsettledSpend, unsettled), c) == AccruedSpend(unsettled, c)
  {
    if unsettled != [] {
      AccruedLands(unsettled[1..], c);
      SpendConcat(UnsettledSpend(unsettled[0]), FlatMap(UnsettledSpend, unsettled[1..]), c);
      assert UnsettledSpend(unsettled[0])[1..] == [];
    }
  }

  /** Whatever the order of settlement, the bail's sibling batch carries every
      settled sibling's spend and every running sibling's accrued usage, each
      once and in all ten columns, exactly when no settled fact hides spend
      the bail does not keep; in no case does it carry more. */
  lemma BailConserves(settled: seq<seq<Fact>>, unsettled: seq<Unsettled>)
    ensures (forall c :: Spend(BailSettlement(settled, unsettled), c)
                         == Spend(Flatten(settled), c) + AccruedSpend(unsettled, c))
            <==> KeepsAll(Flatten(settled), BailKeeps)
    ensures forall c :: Spend(BailSettlement(settled, unsettled), c)
                        <= Spend(Flatten(settled), c) + AccruedSpend(unsettled, c)
  {
    var facts := Flatten(settled);
    var kept := FlatMap(BailKeptOf, facts);
    BailFilters();
    FilterConserves(facts, BailKeptOf, BailKeeps);
    forall c ensures Spend(BailSettlement(settled, unsettled), c) == Spend(kept, c) + AccruedSpend(unsettled, c)
             ensures Spend(kept, c) <= Spend(facts, c)
    {
      FilterSpend(facts, BailKeptOf, BailKeeps, c);
      AccruedLands(unsettled, c);
      SpendConcat(kept, FlatMap(UnsettledSpend, unsettled), c);
    }
    if !SameSpend(kept, facts) {
      var c :| Spend(kept, c) != Spend(facts, c);
      assert Spend(BailSettlement(settled, unsettled), c) != Spend(facts, c) + AccruedSpend(unsettled, c);
    }
  }

  /** The facts the daemon emits: all but the legacy halt shape. */
  predicate Emitted(facts: seq<Fact>) {
    forall f :: f in facts ==> !f.RunHalted?
  }

  /** Of emitted facts the bail keeps every token and every micro-unit. */
  lemma BailKeepsMoney(settled: seq<seq<Fact>>, unsettled: seq<Unsettled>, c: Column)
    requires Money(c) && Emitted(Flatten(settled))
    ensures Spend(BailSettlement(settled, unsettled), c) == Spend(Flatten(settled), c) + AccruedSpend(unsettled, c)
  {
    var facts := Flatten(settled);
    BailFilters();
    FilterSpend(facts, BailKeptOf, BailKeeps, c);
    DroppedNoneOf(facts, BailKeeps, c);
    AccruedLands(unsettled, c);
    SpendConcat(FlatMap(BailKeptOf, facts), FlatMap(UnsettledSpend, unsettled), c);
  }

  /** The sibling batch never moves the run status, so the terminal facts
      behind it decide, and a bail always ends the run. */
  lemma BailEndsRun(settled: seq<seq<Fact>>, unsettled: seq<Unsettled>, terminal: seq<Fact>, s: Status)
    requires terminal != [] && Parks(terminal[|terminal| - 1])
    ensures StatusAfter(s, BailSettlement(settled, unsettled)) == s
    ensures StatusAfter(s, BailSettlement(settled, unsettled) + terminal) == StatusAfter(s, terminal)
    ensures StatusAfter(s, terminal) !in {Queued, Running}
  {
    var siblings := BailSettlement(settled, unsettled);
    forall f | f in siblings ensures forall t :: StatusStep(t, f) == t {
      FlatMapMember(BailKeptOf, Flatten(settled), f);
      FlatMapMember(UnsettledSpend, unsettled, f);
      BailShape(f, settled, unsettled);
    }
    NeutralFacts(s, siblings);
    StatusAfterConcat(s, siblings, terminal);
    ParkingBatchStops(s, terminal);
  }

  /** What the bail keeps of its siblings: how each settled one ended, as it was
      emitted, and one abort of each running one, with its own spend. */
  lemma BailKeepsEnds(settled: seq<seq<Fact>>, unsettled: seq<Unsettled>, f: Fact, u: Unsettled)
    ensures f in Flatten(settled) && (f.NodeCompleted? || f.NodeAborted? || f.HandlerLeaked?) ==>
              f in BailSettlement(settled, unsettled)
    ensures u in unsettled ==>
              NodeAborted(u.node, u.iteration, u.pass, "aborted", u.usage) in BailSettlement(settled, unsettled)
    ensures |FlatMap(UnsettledSpend, unsettled)| == |unsettled|
  {
    FlatMapMember(BailKeptOf, Flatten(settled), f);
    assert f.NodeCompleted? || f.NodeAborted? || f.HandlerLeaked? ==> f in BailKeptOf(f);
    var abort := NodeAborted(u.node, u.iteration, u.pass, "aborted", u.usage);
    FlatMapMember(UnsettledSpend, unsettled, abort);
    assert abort in UnsettledSpend(u);
    OneAbortEach(unsettled);
  }

  lemma {:induction false} OneAbortEach(unsettled: seq<Unsettled>)
    ensures |FlatMap(UnsettledSpend, unsettled)| == |unsettled|
  {
    if unsettled != [] {
      OneAbortEach(unsettled[1..]);
    }
  }

  lemma BailShape(f: Fact, settled: seq<seq<Fact>>, unsettled: seq<Unsettled>)
    requires f in BailSettlement(settled, unsettled)
    ensures f.NodeCompleted? || f.NodeAborted? || f.HandlerLeaked?
  {
    FlatMapMember(BailKeptOf, Flatten(settled), f);
    FlatMapMember(UnsettledSpend, unsettled, f);
    if f in FlatMap(BailKeptOf, Flatten(settled)) {
      var g :| g in Flatten(settled) && f in BailKeptOf(g);
      FlatMapMember(h => SpendTwin(h, "halt", ORIGIN), [g], f);
    }
  }

  lemma {:induction false} NeutralFacts(s: Status, facts: seq<Fact>)
    requires forall f, t :: f in facts ==> StatusStep(t, f) == t
    ensures StatusAfter(s, facts) == s
  {
    if facts != [] {
      assert facts[0] in facts;
      NeutralFacts(s, facts[1..]);
    }
  }

  // ---------- the frontier ----------

  /** The reducer's active-set projection of a fact inside a live region. */
  function FrontierStep(active: seq<string>, f: Fact): seq<string> {
    match f
    case NodeCompleted(node, _, _, _, _) => Without(active, node)
    case DispatchStarted(node, _, _) => if node in active then active else active + [node]
    case FanoutStarted(_, branches) => branches
    case _ => active
  }

  function Without(active: seq<string>, node: string): seq<string> {
    if active == [] then []
    else if active[0] == node then Without(active[1..], node)
    else [active[0]] + Without(active[1..], node)
  }

  function Frontier(active: seq<string>, facts: seq<Fact>): seq<string>
    decreases |facts|
  {
    if facts == [] then active else Frontier(FrontierStep(active, facts[0]), facts[1..])
  }

  lemma {:induction false} WithoutMembers(active: seq<string>, node: string, n: string)
    ensures n in Without(active, node) <==> n in active && n != node
  {
    if active != [] {
      WithoutMembers(active[1..], node, n);
    }
  }

  /** One commit moves the frontier from a completed node to its successor, a
      self-loop included, and touches no sibling: a crash between the two can
      not lose the successor. An aborted node stays in the frontier, and a
      region starts with its branches. */
  lemma SettlementMovesFrontier(
      active: seq<string>, done: Fact, successor: string, iteration: nat, pass: nat, n: string)
    requires done.NodeCompleted?
    ensures n in Frontier(active, [done, DispatchStarted(successor, iteration, pass)])
            <==> n == successor || (n in active && n != done.node)
    ensures n in Frontier(active, [done]) <==> n in active && n != done.node
    ensures forall usage :: Frontier(active, [NodeAborted(n, iteration, pass, "", usage)]) == active
    ensures forall branches :: Frontier(active, [FanoutStarted(n, branches)]) == branches
  {
    var marker := DispatchStarted(successor, iteration, pass);
    assert [done, marker][1..] == [marker] && [marker][1..] == [] && [done][1..] == [];
    WithoutMembers(active, done.node, n);
    var a := Without(active, done.node);
    assert Frontier(active, [done, marker]) == Frontier(a, [marker]);
    assert Frontier(a, [marker]) == Frontier(FrontierStep(a, marker), []);
    assert Frontier(active, [done]) == Frontier(a, []);
    forall f: Fact ensures Frontier(active, [f]) == FrontierStep(active, f) {
      assert [f][1..] == [];
      assert Frontier(active, [f]) == Frontier(FrontierStep(active, f), []);
    }
  }
}
