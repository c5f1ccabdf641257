/** One fiber's drive of a claimed run: its turns, and the safety net that
    leaves no run `running` with nobody driving it. */
module Executor {
  import opened Wrappers
  import opened Facts
  import opened AbortPlanner
  import opened ClaimBoundStore
  import opened OccAppend
  import opened Fanout

  // ---------- what a turn meets ----------

  /** How a handler left the turn. A re-plan over a fresh row may throw (a
      routing blob is missing), hence the option. */
  datatype HandlerEnd =
    | Returned(facts: seq<Fact>, replan: RunState -> Replan)
    | Left(leaked: bool, cause: AbortCause, budgetTripped: bool, base: ExitInput,
           routing: RunState -> Option<Routing>, clock: RunState -> nat, pass: RunState -> nat)
    | Escaped  // a throw outside the handler, before any batch was planned

  datatype Work =
    | Region(active: Option<seq<string>>, branches: seq<string>, redispatch: seq<Fact>, join: Option<string>,
             graph: Option<set<string>>, pass: nat, owner: string -> string, deferredPause: bool)
    | Handler(marked: bool, iteration: nat, pass: nat, recorderVersion: nat, end: HandlerEnd)

  datatype Intents = CancelRun(seq_: nat) | PauseRun | Go

  /** Everything a turn reads besides the run's row. */
  datatype Turn = Turn(
    shutdown: bool, escapes: bool, compatible: bool, parseError: Option<string>, drops: bool, intents: Intents,
    worktreeError: Option<string>, node: Option<string>, maxLoops: nat, ceiling: nat, work: Work)

  /** What the planners outside this model promise: a re-planned transition
      carries the accounting of the first, a hook raises a lost claim only if
      it is lost, a frontier's branches lie in disjoint closures. */
  ghost predicate TurnOk(t: Turn, claim: nat) {
    match t.work
    case Region(active, _, redispatch, _, _, _, owner, _) =>
      && (forall f :: f in redispatch ==> f.DispatchStarted?)
      && (active.Some? ==>
            forall i, j :: 0 <= i < j < |active.value| ==> owner(active.value[i]) != owner(active.value[j]))
    case Handler(_, _, _, _, Returned(facts, replan)) =>
      && (forall s, next, c :: replan(s) == Next(next) && Money(c) ==> Spend(next, c) == Spend(facts, c))
      && (forall s :: replan(s) == HookThrew(ClaimLostError) ==> s.epoch != claim)
    case Handler(_, _, _, _, Left(_, cause, _, _, _, _, _)) => cause == ShutdownSignal ==> t.shutdown
    case _ => true
  }

  ghost predicate ScriptOk(script: nat -> Turn, claim: nat) {
    forall i: nat {:trigger TurnOk(script(i), claim)} :: TurnOk(script(i), claim)
  }

  /** The gates ahead of a dispatch, in the order they are met. */
  function PlanPreDispatch(
      compatible: bool, parseError: Option<string>, worktreeError: Option<string>, dispatches: nat, maxLoops: nat)
    : Option<Fact>
  {
    if !compatible then Some(RunPaused(EngineIncompatible, ""))
    else if parseError.Some? then Some(HaltFact(HaltError, "workflow_parse_failed: " + parseError.value))
    else if worktreeError.Some? then Some(HaltFact(WorktreeError, "worktree_provision_failed: " + worktreeError.value))
    else if dispatches >= maxLoops then Some(RunPaused(MaxLoops, ""))
    else None
  }

  /** What the exit plan is made from: the exit is classified by the signal that
      fired. */
  function ExitOf(h: HandlerEnd): ExitInput
    requires h.Left?
  {
    h.base.(exit := ClassifyExit(h.leaked, h.cause, h.budgetTripped))
  }

  /** An exit planned again over a fresh row; another outcome declines. */
  function ReplanExit(h: HandlerEnd, s: RunState): Replan
    requires h.Left?
  {
    if h.routing(s) == None then HookThrew(OtherError)
    else
      var next := PlanExit(ExitAt(h, s));
      if next.outcome != PlanExit(ExitOf(h)).outcome then Declined else Next(next.facts)
  }

  function ExitAt(h: HandlerEnd, s: RunState): ExitInput
    requires h.Left? && h.routing(s).Some?
  {
    ExitOf(h).(routing := h.routing(s).value, now := h.clock(s), leakedAt := h.clock(s), pass := h.pass(s))
  }

  function ExitCommitPlan(version: nat, h: HandlerEnd): CommitPlan
    requires h.Left?
  {
    CommitPlan(version, AppendOnce, Some(s => ReplanExit(h, s)), false)
  }

  /** Every re-plan of an exit carries the same spend, and parks the run exactly
      when the first plan did. */
  lemma ReplannedExit(version: nat, h: HandlerEnd, claim: nat)
    requires h.Left?
    ensures HookFenced(ExitCommitPlan(version, h), claim)
    ensures SpendStable(ExitCommitPlan(version, h), PlanExit(ExitOf(h)).facts)
    ensures forall next :: next == PlanExit(ExitOf(h)).facts || Answers(ExitCommitPlan(version, h), Next(next))
              ==> (Parking(next) <==> PlanExit(ExitOf(h)).outcome in {Halt, Pause, RetryAfterTimeout})
  {
    var plan := ExitCommitPlan(version, h);
    forall next | next == PlanExit(ExitOf(h)).facts || Answers(plan, Next(next))
      ensures Parking(next) <==> PlanExit(ExitOf(h)).outcome in {Halt, Pause, RetryAfterTimeout}
      ensures forall c :: Spend(next, c) == Spend(PlanExit(ExitOf(h)).facts, c)
    {
      var input := ExitOf(h);
      if next != PlanExit(ExitOf(h)).facts {
        var s :| plan.replan.value(s) == Next(next);
        input := ExitAt(h, s);
      }
      ExitCreditsUsageOnce(input);
      ExitCreditsUsageOnce(ExitOf(h));
      ExitParks(input);
    }
  }

  /** A plan parks the run exactly by its outcome. */
  lemma ExitParks(input: ExitInput)
    ensures Parking(PlanExit(input).facts) <==> PlanExit(input).outcome in {Halt, Pause, RetryAfterTimeout}
  {
    var facts := PlanExit(input).facts;
    var body, tail := ExitShape(input);
    ExitOutcomeIsStatus(input);
    if tail != [] {
      assert facts[|facts| - 1] == tail[0];
    }
    if Parking(facts) {
      ParkingBatchStops(Running, facts);
    }
  }

  // ---------- what a turn keeps ----------

  /** The books are kept, and no commit is in flight, at every turn's end. */
  ghost predicate Steady(occ: OccController, ts: TurnState)
    reads occ, occ.store, ts`billed, ts`dropped, ts`pending, ts`recommitting
  {
    && occ.Valid() && occ.store.Balanced() && Accounted(occ, ts)
    && !ts.recommitting && occ.held == [] && (ts.pending.Some? ==> Parking(ts.pending.value))
  }

  /** A turn that ends the pass leaves the run stopped, or the claim to be given
      back, or shutdown to requeue it. */
  ghost predicate TurnEnds(r: TurnEnd, occ: OccController, ts: TurnState)
    reads occ, occ.store, ts`billed, ts`dropped, ts`pending, ts`recommitting, ts`leaked, ts`stopping
  {
    && occ.Valid() && occ.store.Balanced() && Accounted(occ, ts)
    && (r.TurnOver? ==> Steady(occ, ts))
    && match r
       case TurnOver(outcome) =>
         outcome == Terminal ==>
           !Driven(occ.store.st, occ.store.claim) || occ.abandoned || ts.leaked != {} || ts.stopping
       case TurnThrew(exn) => exn == ClaimLostError ==> !Driven(occ.store.st, occ.store.claim)
  }

  /** The books billed this much more, in tokens and in money. */
  ghost predicate BilledMore(was: Column -> nat, now: Column -> nat, facts: seq<Fact>) {
    forall c {:trigger Money(c)} :: Money(c) ==> now(c) == was(c) + Spend(facts, c)
  }

  // ---------- what a turn did ----------

  /** What a turn did: it read the run stopped; the audit of the dropped intents
      threw; it threw outside any commit; its node's handler had leaked in this
      pass; a gate or the operator stopped it; it put a start or a marker; it
      ran the node's handler, or a superstep. */
  datatype Deed =
    | Quit | Unaudited | Broke | Refused
    | Gated(fact: Fact) | Intended(fact: Fact) | Began(fact: Fact)
    | Ran(node: string, end: HandlerEnd) | Stepped(story: Story)

  /** With what it entered in the ledger, and what was parked when it ended. */
  datatype Act = Act(deed: Deed, wrote: seq<Entry>, parked: Option<seq<Fact>>)

  /** The batch the end of a handler plans. */
  function Planned(h: HandlerEnd): seq<Fact> {
    match h
    case Returned(facts, _) => facts
    case Left(_, _, _, _, _, _, _) => PlanExit(ExitOf(h)).facts
    case Escaped => []
  }

  /** One column of what the handlers of a turn spent. */
  function DeedSpend(d: Deed, c: Column): nat {
    match d
    case Ran(_, h) => Spend(Planned(h), c)
    case Stepped(s) => PoolSpend(s.settled, c) + PoolSpend(s.rest, c)
    case _ => 0
  }

  /** And of what a superstep of it dropped: what branches that threw had spent,
      and the rest of the pool, of which a bail drops only what it misses. */
  function DeedDrops(d: Deed, c: Column): nat {
    if !d.Stepped? then 0
    else
      var s := d.story;
      MissedSpend(s.settled, c) + if s.how.Bailed? then MissedSpend(s.rest, c) else PoolSpend(s.rest, c)
  }

  /** The handlers it started, and the node of one that leaked. */
  function DeedStarts(d: Deed): nat {
    match d
    case Ran(_, _) => 1
    case Stepped(s) => |s.entered|
    case _ => 0
  }

  function DeedLeaks(d: Deed): set<string> {
    if d.Ran? && d.end.Left? && d.end.leaked then {d.node} else {}
  }

  /** What stands between the turn and its node, if anything: the contract
      window, the graph, the intents, the worktree, the start, in that order. */
  function GateDeed(t: Turn): Option<Deed> {
    if !t.compatible then Some(Gated(RunPaused(EngineIncompatible, "")))
    else if t.parseError.Some? then
      Some(Gated(RunTerminated(Errored(HaltError, "workflow_parse_failed: " + t.parseError.value, None, None))))
    else if t.escapes then Some(Broke)
    else
      match t.intents
      case CancelRun(intentSeq) => Some(Intended(RunTerminated(Aborted(intentSeq))))
      case PauseRun => Some(Intended(RunPaused(Operator, "")))
      case Go =>
        if t.worktreeError.Some? then
          var detail := "worktree_provision_failed: " + t.worktreeError.value;
          Some(Gated(RunTerminated(Errored(WorktreeError, detail, None, None))))
        else if t.node == None then Some(Began(RunStarted("start")))
        else None
  }

  /** What the node itself calls for: a superstep; or its marker, if it has none;
      or its handler, below the ceiling. */
  ghost predicate WorkFollows(work: Work, maxLoops: nat, node: string, dispatches: nat, d: Deed) {
    match work
    case Region(_, _, _, _, _, _, _, _) => d.Stepped?
    case Handler(marked, iteration, pass, _, h) =>
      if !marked then d == Began(DispatchStarted(node, iteration, pass))
      else if dispatches >= maxLoops then d == Gated(RunPaused(MaxLoops, ""))
      else d == Ran(node, h)
  }

  /** The one thing a live turn does, given the nodes that leaked and the
      dispatches so far; only the audit of dropped intents can throw first. */
  ghost predicate Follows(t: Turn, leaked: set<string>, dispatches: nat, d: Deed) {
    if d.Unaudited? then t.drops && t.compatible && t.parseError == None
    else if GateDeed(t).Some? then d == GateDeed(t).value
    else if t.node.value in leaked then d == Refused
    else WorkFollows(t.work, t.maxLoops, t.node.value, dispatches, d)
  }

  /** One batch was to be entered: nothing was if it threw, else it has one fate. */
  ghost predicate WroteOne(wrote: seq<Entry>, batch: seq<Fact>, r: TurnEnd) {
    if wrote == [] then r.TurnThrew? else exists fate :: wrote == [Entry(batch, fate)] && EndsSo(fate, r)
  }

  function HandlerPlan(version: nat, h: HandlerEnd): CommitPlan
    requires !h.Escaped?
  {
    if h.Left? then ExitCommitPlan(version, h) else CommitPlan(version, AppendOnce, Some(h.replan), false)
  }

  /** A handler's turn enters its planned batch, or a re-plan of it, which for one
      that left means what the way it left does, and which is cut to its spend
      only if a fresh row may decline it; behind a plain abort that landed comes
      at most the abort-loop pause. */
  ghost predicate HandlerWrote(node: string, h: HandlerEnd, wrote: seq<Entry>, r: TurnEnd) {
    if h.Escaped? then wrote == [] && r == TurnThrew(OtherError)
    else if wrote == [] then r.TurnThrew?
    else
      && (wrote[0].batch == Planned(h) || Answers(HandlerPlan(0, h), Next(wrote[0].batch)))
      && (h.Left? ==> ExitMeant(h, wrote[0].batch))
      && (IsCut(wrote[0].fate) ==> MayDecline(h))
      && (|wrote| == 1 || AbortParked(node, h, wrote))
      && (h.Left? && PlanExit(ExitOf(h)).outcome in {Halt, Pause} ==> r != TurnOver(Continue))
      && (h.Returned? && wrote[0].fate == Committed ==> r != TurnOver(Terminal))
  }

  /** The streak of timeouts the node had before this one is at its bound. */
  predicate TimedOutTwice(routing: Routing, node: string) {
    TimeoutRetries(node) in routing && routing[TimeoutRetries(node)] >= 2
  }

  /** What the batch of a handler that left without a result does, by how it left:
      its first fact charges the node with what it spent; then
      - a leak halts the run and is on the log;
      - a budget breach halts it or parks it for the operator;
      - a throw that no signal and no budget trip explains halts it, with the
        handler's own error;
      - a timeout parks it for a timer, and the third in a row halts it;
      - a shutdown, and any other abort, leave it running. */
  ghost predicate ExitMeant(h: HandlerEnd, batch: seq<Fact>)
    requires h.Left?
  {
    && batch != [] && batch[0].NodeAborted? && batch[0].node == h.base.node && batch[0].usage == h.base.usage
    && batch[0].cause == ExitedAs(h)
    && var last, s := batch[|batch| - 1], StatusAfter(Running, batch);
    if h.leaked then
      && s == Halted && last == RunTerminated(Errored(HaltError, "handler_leaked", None, None))
      && |batch| == 3 && batch[1].HandlerLeaked? && batch[1].node == h.base.node
    else if h.base.budgetHalt.Some? then
      s == Halted && batch[1..] == [RunTerminated(Errored(HaltBudget, h.base.budgetHalt.value, None, None))]
    else if h.base.budgetPause then s == Paused && batch[1..] == [RunPaused(Budget, h.base.node)]
    else
      match h.cause
      case NoSignal =>
        if h.budgetTripped then s == Running && |batch| == 1
        else s == Halted && batch[1..] == [RunTerminated(Errored(HaltError, h.base.errorDetail, None, None))]
      case TimeoutSignal =>
        if TimedOutTwice(h.base.routing, h.base.node)
        then s == Halted && |batch| == 2 && last.RunTerminated? && last.end.Errored?
             && last.end.reason == TimeoutExhausted
        else s == PausedAuto && batch[1..] == [RunPaused(TimeoutRetry, h.base.node)]
      case ShutdownSignal => s == Running && |batch| == 1
      case OtherSignal => s == Running && |batch| == 1
  }

  /** The cause such a handler's abort is recorded under. */
  function ExitedAs(h: HandlerEnd): string
    requires h.Left?
  {
    if h.leaked then "leak"
    else
      match h.cause
      case NoSignal => if h.budgetTripped then "aborted" else "error"
      case TimeoutSignal => "timeout"
      case ShutdownSignal => "shutdown"
      case OtherSignal => "aborted"
  }

  /** The planned batch of a handler that left, and every re-plan of it, mean what
      the way it left does. */
  lemma {:induction false} ExitMeans(h: HandlerEnd, batch: seq<Fact>)
    requires h.Left? && (batch == Planned(h) || Answers(HandlerPlan(0, h), Next(batch)))
    ensures ExitMeant(h, batch)
  {
    if batch != Planned(h) {
      var s :| HandlerPlan(0, h).replan.value(s) == Next(batch);
      ExitPlanned(h, ExitAt(h, s));
    } else {
      ExitPlanned(h, ExitOf(h));
    }
  }

  lemma {:induction false} ExitPlanned(h: HandlerEnd, input: ExitInput)
    requires h.Left? && PlanExit(input).outcome == PlanExit(ExitOf(h)).outcome
    requires input == ExitOf(h).(routing := input.routing, now := input.now, leakedAt := input.leakedAt,
                                 pass := input.pass)
    ensures ExitMeant(h, PlanExit(input).facts)
  {
    var facts := PlanExit(input).facts;
    var spend := [facts[0]];
    ExitOutcomeIsStatus(input);
    assert facts == spend + facts[1..];
    assert facts[1..] == ExitTail(input).0;
  }

  /** Such a handler's exit is declined by the fresh row exactly if it timed out
      and the row's counter is on the other side of the bound; it throws
      exactly if the row's routing is gone. */
  lemma {:induction false} ExitDeclinedExactly(h: HandlerEnd, s: RunState)
    requires h.Left?
    ensures ReplanExit(h, s) == HookThrew(OtherError) <==> h.routing(s) == None
    ensures ReplanExit(h, s) == Declined
            <==> && h.routing(s).Some? && !h.leaked && h.base.budgetHalt == None && !h.base.budgetPause
                 && h.cause == TimeoutSignal
                 && TimedOutTwice(h.base.routing, h.base.node) != TimedOutTwice(h.routing(s).value, h.base.node)
  {
  }

  /** A re-plan is of the row's pass, and a leak's of the row's time. */
  lemma {:induction false} ReplanIsFresh(h: HandlerEnd, s: RunState, batch: seq<Fact>)
    requires h.Left? && ReplanExit(h, s) == Next(batch)
    ensures batch != [] && batch[0].NodeAborted? && batch[0].iteration == h.base.iteration && batch[0].pass == h.pass(s)
    ensures h.leaked ==> |batch| > 1 && batch[1] == HandlerLeaked(h.base.node, h.clock(s))
  {
  }

  /** Whether a fresh row can decline to plan what the handler left again: some row
      its own hook declines; without a result, only behind a timeout. */
  ghost predicate MayDecline(h: HandlerEnd)
    requires !h.Escaped?
  {
    match h
    case Returned(_, replan) => exists s :: replan(s) == Declined
    case Left(leaked, cause, _, base, _, _, _) =>
      cause == TimeoutSignal && !leaked && base.budgetHalt == None && !base.budgetPause
  }

  lemma {:induction false} Declines(h: HandlerEnd)
    requires !h.Escaped? && Answers(HandlerPlan(0, h), Declined)
    ensures MayDecline(h)
  {
    var s :| HandlerPlan(0, h).replan.value(s) == Declined;
    if h.Left? {
      ExitDeclinedExactly(h, s);
    } else {
      assert h.replan(s) == Declined;
    }
  }

  lemma HandlerEntered(node: string, h: HandlerEnd, last: seq<Fact>, wrote: seq<Entry>, r: TurnEnd)
    requires !h.Escaped? && WroteOne(wrote, last, r)
    requires last == Planned(h) || Answers(HandlerPlan(0, h), Next(last))
    requires h.Left? && PlanExit(ExitOf(h)).outcome in {Halt, Pause} ==> r != TurnOver(Continue)
    requires h.Returned? && wrote == [Entry(last, Committed)] ==> r != TurnOver(Terminal)
    requires wrote != [] && IsCut(wrote[0].fate) ==> Answers(HandlerPlan(0, h), Declined)
    ensures HandlerWrote(node, h, wrote, r)
  {
    if wrote != [] && IsCut(wrote[0].fate) {
      Declines(h);
    }
    if h.Left? {
      ExitMeans(h, last);
    }
  }

  lemma AbortEntered(node: string, h: HandlerEnd, last: seq<Fact>, wrote: seq<Entry>, r: TurnEnd)
    requires h.Left? && PlanExit(ExitOf(h)).outcome == AbortStep && AbortWrote(node, last, wrote, r)
    requires last == Planned(h) || Answers(HandlerPlan(0, h), Next(last))
    requires wrote != [] && IsCut(wrote[0].fate) ==> Answers(HandlerPlan(0, h), Declined)
    ensures HandlerWrote(node, h, wrote, r)
  {
    if wrote != [] && IsCut(wrote[0].fate) {
      Declines(h);
    }
    ExitMeans(h, last);
  }

  predicate AbortParked(node: string, h: HandlerEnd, wrote: seq<Entry>) {
    && h.Left? && PlanExit(ExitOf(h)).outcome == AbortStep
    && |wrote| == 2 && wrote[0].fate == Committed && wrote[1].batch == [RunPaused(AbortLoop, node)]
  }

  function ScopeOf(w: Work): Scope
    requires w.Region?
  {
    Scope(w.pass, w.join, w.graph)
  }

  /** The join: a budget breach at the barrier, entered or parked, or the region's
      join fact. */
  ghost predicate JoinWrote(next: string, deferredPause: bool, node: string, a: Act, r: TurnEnd) {
    || WroteOne(a.wrote, [if deferredPause then RunPaused(Operator, node) else FanoutJoined(node, next)], r)
    || exists breach :: IsBreach(breach, node) && ParkWrote(a.wrote, a.parked, [breach], r)
  }

  /** A frontier: the re-dispatch markers, if any, did not land, and nothing was
      started; or behind them the pool did all it does, its first nodes those
      of the frontier, and the ledger has its lanes and what came behind. */
  ghost predicate FrontierWrote(
      w: Work, frontier: seq<string>, maxLoops: nat, dispatches: nat, s: Story, a: Act, r: TurnEnd)
    requires w.Region?
  {
    if s.how == Open then Idle(s) && w.redispatch != [] && WroteElse(a.wrote, w.redispatch, r)
    else
      && FirstStarts(maxLoops, frontier, dispatches, false) <= s.entered && Everyone(s.entered, s.settled, [], s.rest)
      && PoolWrote(ScopeOf(w), s) && TailWrote(ScopeOf(w), s, a.parked, r)
      && (s.how == PoolEnd.Drained ==> BranchEvents(s.events) == EventsOf(ScopeOf(w), s.settled))
      && a.wrote == (if w.redispatch == [] then [] else [Entry(w.redispatch, Committed)]) + s.lanes + s.tail
  }

  /** What a superstep's turn entered, by the frontier it read and the disposition
      it found parked. */
  ghost predicate StepWrote(
      w: Work, node: string, maxLoops: nat, dispatches: nat, parked: Option<seq<Fact>>, s: Story, a: Act, r: TurnEnd)
    requires w.Region?
  {
    if w.join == None || w.branches == [] then
      Idle(s) && WroteOne(a.wrote, [RunTerminated(Errored(HaltError, "fanout_malformed", None, None))], r)
    else if parked.Some? then Idle(s) && ParkWrote(a.wrote, a.parked, parked.value, r)
    else
      match w.active
      case None => Idle(s) && WroteOne(a.wrote, [FanoutStarted(node, w.branches)], r)
      case Some(frontier) =>
        if frontier == [] then Idle(s) && JoinWrote(w.join.value, w.deferredPause, node, a, r)
        else FrontierWrote(w, frontier, maxLoops, dispatches, s, a, r)
  }

  /** A turn's entries and its end are those of its deed. */
  ghost predicate ActShown(t: Turn, dispatches: nat, parked: Option<seq<Fact>>, a: Act, r: TurnEnd) {
    match a.deed
    case Quit => a.wrote == [] && r == TurnOver(Terminal)
    case Refused => a.wrote == [] && r == TurnOver(Terminal)
    case Unaudited => a.wrote == [] && r.TurnThrew?
    case Broke => a.wrote == [] && r == TurnThrew(OtherError)
    case Gated(f) => WroteOne(a.wrote, [f], r) && r != TurnOver(Continue)
    case Intended(f) => WroteOne(a.wrote, [f], r) && (r == TurnOver(Continue) ==> a.wrote != [Entry([f], Committed)])
    case Began(f) => WroteOne(a.wrote, [f], r) && (r == TurnOver(Terminal) ==> a.wrote != [Entry([f], Committed)])
    case Ran(node, h) => HandlerWrote(node, h, a.wrote, r)
    case Stepped(s) =>
      && t.work.Region? && t.node.Some?
      && StepWrote(t.work, t.node.value, t.maxLoops, dispatches, parked, s, a, r)
  }

  /** A branch of the superstep's pool threw, and the turn with it. */
  predicate BranchThrew(d: Deed) {
    && d.Stepped? && d.story.how == Threw && d.story.settled != []
    && d.story.settled[|d.story.settled| - 1].state.Failed?
  }

  /** A turn that threw with nothing entered, or a superstep with nothing behind
      its lanes, threw on its last store access, but for a throw of the turn's
      own code, a handler's or a branch's. */
  ghost predicate ThrowShown(a: Act, r: TurnEnd, trace: seq<Event>) {
    (r.TurnThrew? && !a.deed.Broke? && !(a.deed.Ran? && a.deed.end.Escaped?) && !BranchThrew(a.deed)
     && (a.wrote == [] || (a.deed.Stepped? && a.deed.story.how != Open && a.deed.story.tail == []))) ==>
      ThrewLast(trace, r.exn)
  }

  /** A row on which no turn does anything. */
  predicate IsStopped(row: RunState) {
    row.status != Queued && row.status != Running
  }

  // ---------- commits ----------

  lemma BilledBehind(was: Column -> nat, mid: Column -> nat, now: Column -> nat, facts: seq<Fact>)
    requires BilledMore(was, mid, facts) && BilledMore(mid, now, [])
    ensures BilledMore(was, now, facts)
  {
  }

  lemma NotCutUnless(
      plan: CommitPlan, r: CommitEnd, shown: Option<RunState>, was: seq<Entry>, now: seq<Entry>, last: seq<Fact>)
    requires CanEnd(plan, r, shown) && FateLogged(r, was, now, last)
    ensures NeverCut(was, now) || plan.replan == None || Answers(plan, Declined)
  {
    if !NeverCut(was, now) {
      CutIfDeclined(plan, r, shown, was, now, last);
    }
  }

  /** A commit of the linear path; `last` is the batch whose fate it entered. */
  method CommitLinear(occ: OccController, ts: TurnState, plan: CommitPlan, facts: seq<Fact>, success: DispatchOutcome)
    returns (r: TurnEnd, landed: bool, ghost last: seq<Fact>)
    requires Steady(occ, ts) && HookFenced(plan, occ.store.claim) && SpendStable(plan, facts) && !plan.parks
    requires success == Terminal ==>
               ts.stopping || (Parking(facts) && forall next :: Answers(plan, Next(next)) ==> Parking(next))
    modifies occ, occ.store, ts`pending, ts`billed, ts`recommitting
    ensures TurnEnds(r, occ, ts) && ts.pending == old(ts.pending)
    ensures last == facts || Answers(plan, Next(last))
    ensures StepShown(r, last, old(occ.store.ledger), occ.store.ledger, occ.store.log.trace)
    ensures landed ==> r == TurnOver(success) && occ.store.ledger == old(occ.store.ledger) + [Entry(last, Committed)]
    ensures !landed && r.TurnOver? ==> occ.store.ledger != old(occ.store.ledger) + [Entry(last, Committed)]
    ensures occ.store.log.foreign >= old(occ.store.log.foreign) && old(occ.store.log.trace) <= occ.store.log.trace
    ensures Unmoved(old(occ.store.log), occ.store.log, old(occ.store.st), occ.store.claim, plan) ==>
              last == facts && (landed || r.TurnThrew?)
    ensures BilledMore(old(ts.billed), ts.billed, facts)
    ensures NeverCut(old(occ.store.ledger), occ.store.ledger) || plan.replan == None || Answers(plan, Declined)
  {
    ghost var was := occ.store.ledger;
    var end;
    ghost var shown;
    end, last, shown := CommitBilled(occ, ts, plan, facts);
    NotCutUnless(plan, end, shown, was, occ.store.ledger, last);
    landed := end.Landed?;
    r := if end.Raised? then TurnThrew(end.exn) else TurnOver(Outcome(end, success, success));
    assert occ.store.ledger == was + [Entry(last, Committed)] ==> occ.store.ledger[|was|] == Entry(last, Committed);
  }

  /** Commit the fact a gate stops the run with. */
  method ParkTurn(occ: OccController, ts: TurnState, expected: nat, fact: Fact) returns (r: TurnEnd)
    requires Steady(occ, ts) && Parks(fact) && FactSpend(fact) == NO_USAGE
    modifies occ, occ.store, ts`pending, ts`billed, ts`recommitting
    ensures TurnEnds(r, occ, ts) && r != TurnOver(Continue) && ts.pending == old(ts.pending)
    ensures StepShown(r, [fact], old(occ.store.ledger), occ.store.ledger, occ.store.log.trace)
    ensures occ.store.log.foreign >= old(occ.store.log.foreign) && old(occ.store.log.trace) <= occ.store.log.trace
    ensures BilledMore(old(ts.billed), ts.billed, [])
  {
    FreeBatch([fact]);
    r := CommitPark(occ, ts, expected, [fact]);
  }

  /** What a landed linear commit does next may raise. */
  method Resolve(occ: OccController, ts: TurnState, was: TurnEnd) returns (r: TurnEnd)
    requires Steady(occ, ts) && was == TurnOver(Continue)
    modifies occ`occCount, occ`occWarned, occ.store`st, occ.store`log
    ensures TurnEnds(r, occ, ts) && (r == was || r.TurnThrew?)
    ensures r == was ==> occ.occCount == 0 && !occ.occWarned
    ensures occ.store.log.foreign >= old(occ.store.log.foreign) && old(occ.store.log.trace) <= occ.store.log.trace
  {
    var raised := occ.OnResolved();
    r := if raised.Some? then TurnThrew(raised.value) else was;
  }

  /** With nobody else moving since, the batch bound to this version is in the
      ledger whole, unless the turn threw. */
  ghost predicate LandsAlone(
      r: TurnEnd, was: Log, now: Log, row: RunState, claim: nat, version: nat, wrote: seq<Entry>, facts: seq<Fact>)
  {
    (now.foreign == was.foreign && Driven(row, claim) && version == row.version) ==>
      r.TurnThrew? || (wrote != [] && wrote[0] == Entry(facts, Committed))
  }

  lemma LandsBehind(
      r: TurnEnd, was: Log, mid: Log, now: Log, row: RunState, claim: nat, version: nat, wrote: seq<Entry>,
      more: seq<Entry>, facts: seq<Fact>)
    requires LandsAlone(TurnOver(Continue), was, mid, row, claim, version, wrote, facts)
    requires was.foreign <= mid.foreign <= now.foreign
    ensures LandsAlone(r, was, now, row, claim, version, wrote + more, facts)
  {
  }

  /** A plain abort counts against the node: one short of the ceiling warns, and
      at the ceiling the abort-loop pause is committed. */
  method CountAbort(occ: OccController, ts: TurnState, node: string, ceiling: nat) returns (r: TurnEnd)
    requires Steady(occ, ts)
    modifies occ, occ.store, ts`pending, ts`billed, ts`recommitting, ts`consecutiveAborts
    ensures TurnEnds(r, occ, ts) && ts.consecutiveAborts == old(ts.consecutiveAborts) + 1
    ensures occ.store.log.foreign >= old(occ.store.log.foreign) && old(occ.store.log.trace) <= occ.store.log.trace
    ensures ts.pending == old(ts.pending) && BilledMore(old(ts.billed), ts.billed, [])
    ensures if ts.consecutiveAborts >= ceiling
            then r != TurnOver(Continue)
                 && StepShown(r, [RunPaused(AbortLoop, node)],
                              old(occ.store.ledger), occ.store.ledger, occ.store.log.trace)
            else occ.store.ledger == old(occ.store.ledger)
                 && (r == TurnOver(Continue) || (ts.consecutiveAborts == ceiling - 1 && r.TurnThrew?
                                                 && ThrewLast(occ.store.log.trace, r.exn)))
  {
    ts.consecutiveAborts := ts.consecutiveAborts + 1;
    if ts.consecutiveAborts == ceiling - 1 {
      var raised := occ.store.AppendObservability();
      if raised.Some? {
        return TurnThrew(raised.value);
      }
    }
    if ts.consecutiveAborts < ceiling {
      return TurnOver(Continue);
    }
    var row := occ.store.GetState();
    r := ParkTurn(occ, ts, row.version, RunPaused(AbortLoop, node));
  }

  /** The commit of a handler that left without a result. */
  method CommitExit(occ: OccController, ts: TurnState, node: string, version: nat, ceiling: nat, h: HandlerEnd)
    returns (r: TurnEnd, ghost wrote: seq<Entry>)
    requires Steady(occ, ts) && h.Left? && (ExitOf(h).exit == Shutdown ==> ts.stopping)
    modifies occ, occ.store, ts`pending, ts`billed, ts`recommitting, ts`consecutiveAborts
    ensures TurnEnds(r, occ, ts) && ts.pending == old(ts.pending)
    ensures occ.store.ledger == old(occ.store.ledger) + wrote && HandlerWrote(node, h, wrote, r)
    ensures r.TurnThrew? && wrote == [] ==> ThrewLast(occ.store.log.trace, r.exn)
    // the turn's usage is billed once, and only a step outcome may go on
    ensures BilledMore(old(ts.billed), ts.billed, PlanExit(ExitOf(h)).facts)
    ensures PlanExit(ExitOf(h)).outcome in {Halt, Pause} ==> r != TurnOver(Continue)
    // a plain abort that landed counts, and parks exactly at the ceiling
    ensures PlanExit(ExitOf(h)).outcome == AbortStep ==>
              StreakCounted(r, wrote, old(ts.consecutiveAborts), ts.consecutiveAborts, ceiling)
    ensures occ.store.log.foreign >= old(occ.store.log.foreign) && old(occ.store.log.trace) <= occ.store.log.trace
    ensures LandsAlone(r, old(occ.store.log), occ.store.log, old(occ.store.st), occ.store.claim, version, wrote,
                       PlanExit(ExitOf(h)).facts)
  {
    ReplannedExit(version, h, occ.store.claim);
    if PlanExit(ExitOf(h)).outcome in {Halt, Pause} {
      r, wrote := CommitStop(occ, ts, node, version, h);
    } else {
      r, wrote := CommitOn(occ, ts, node, version, ceiling, h);
    }
  }

  /** Any other exit: a timeout's retry and a shutdown end the pass, a plain abort
      goes on, and behind one that landed comes its count. */
  method CommitOn(occ: OccController, ts: TurnState, node: string, version: nat, ceiling: nat, h: HandlerEnd)
    returns (r: TurnEnd, ghost wrote: seq<Entry>)
    requires Steady(occ, ts) && h.Left? && (ExitOf(h).exit == Shutdown ==> ts.stopping)
    requires PlanExit(ExitOf(h)).outcome !in {Halt, Pause}
    modifies occ, occ.store, ts`pending, ts`billed, ts`recommitting, ts`consecutiveAborts
    ensures TurnEnds(r, occ, ts) && ts.pending == old(ts.pending)
    ensures occ.store.ledger == old(occ.store.ledger) + wrote && HandlerWrote(node, h, wrote, r)
    ensures r.TurnThrew? && wrote == [] ==> ThrewLast(occ.store.log.trace, r.exn)
    ensures BilledMore(old(ts.billed), ts.billed, PlanExit(ExitOf(h)).facts)
    ensures PlanExit(ExitOf(h)).outcome == AbortStep ==>
              StreakCounted(r, wrote, old(ts.consecutiveAborts), ts.consecutiveAborts, ceiling)
    ensures occ.store.log.foreign >= old(occ.store.log.foreign) && old(occ.store.log.trace) <= occ.store.log.trace
    ensures LandsAlone(r, old(occ.store.log), occ.store.log, old(occ.store.st), occ.store.claim, version, wrote,
                       PlanExit(ExitOf(h)).facts)
  {
    var plan, commit := PlanExit(ExitOf(h)), ExitCommitPlan(version, h);
    ReplannedExit(version, h, occ.store.claim);
    StepParks(h, commit);
    ghost var last;
    if plan.outcome == AbortStep {
      r, last, wrote := CommitAndCount(occ, ts, commit, plan.facts, node, ceiling);
      AbortEntered(node, h, last, wrote, r);
    } else {
      var landed;
      r, landed, last, wrote := CommitEntered(occ, ts, commit, plan.facts, Terminal);
      HandlerEntered(node, h, last, wrote, r);
    }
  }

  /** A plain abort that landed counts, and parks exactly at the ceiling. */
  predicate StreakCounted(r: TurnEnd, wrote: seq<Entry>, was: nat, now: nat, ceiling: nat) {
    r.TurnOver? && wrote != [] && wrote[0].fate == Committed ==> now == was + 1 && (|wrote| == 2 <==> now >= ceiling)
  }

  /** A batch, and behind it, if it landed, the abort-loop pause. */
  predicate AbortWrote(node: string, last: seq<Fact>, wrote: seq<Entry>, r: TurnEnd) {
    if wrote == [] then r.TurnThrew?
    else
      && wrote[0].batch == last
      && (|wrote| == 1
          || (|wrote| == 2 && wrote[0].fate == Committed && wrote[1].batch == [RunPaused(AbortLoop, node)]))
  }

  lemma EnteredBehind(was: seq<Entry>, mid: seq<Entry>, now: seq<Entry>, wrote: seq<Entry>, more: seq<Entry>)
    requires mid == was + wrote && now == mid + more
    ensures now == was + (wrote + more)
  {
  }

  lemma CountBehind(
      node: string, last: seq<Fact>, more: seq<Entry>, r: TurnEnd, was: nat, now: nat, ceiling: nat)
    requires |more| <= 1 && now == was + 1
    requires more != [] ==> more[0].batch == [RunPaused(AbortLoop, node)] && now >= ceiling
    requires more == [] ==> r.TurnThrew? || now < ceiling
    ensures AbortWrote(node, last, [Entry(last, Committed)] + more, r)
    ensures StreakCounted(r, [Entry(last, Committed)] + more, was, now, ceiling)
  {
  }

  /** Commit a plain abort, and count it if it landed. */
  method CommitAndCount(
      occ: OccController, ts: TurnState, plan: CommitPlan, facts: seq<Fact>, node: string, ceiling: nat)
    returns (r: TurnEnd, ghost last: seq<Fact>, ghost wrote: seq<Entry>)
    requires Steady(occ, ts) && HookFenced(plan, occ.store.claim) && SpendStable(plan, facts) && !plan.parks
    requires plan.kind == AppendOnce
    modifies occ, occ.store, ts`pending, ts`billed, ts`recommitting, ts`consecutiveAborts
    ensures TurnEnds(r, occ, ts) && ts.pending == old(ts.pending)
    ensures last == facts || Answers(plan, Next(last))
    ensures occ.store.ledger == old(occ.store.ledger) + wrote && AbortWrote(node, last, wrote, r)
    ensures r.TurnThrew? && wrote == [] ==> ThrewLast(occ.store.log.trace, r.exn)
    ensures BilledMore(old(ts.billed), ts.billed, facts)
    ensures StreakCounted(r, wrote, old(ts.consecutiveAborts), ts.consecutiveAborts, ceiling)
    ensures wrote != [] && IsCut(wrote[0].fate) ==> plan.replan == None || Answers(plan, Declined)
    ensures occ.store.log.foreign >= old(occ.store.log.foreign) && old(occ.store.log.trace) <= occ.store.log.trace
    ensures LandsAlone(r, old(occ.store.log), occ.store.log, old(occ.store.st), occ.store.claim, plan.expected, wrote,
                       facts)
  {
    var landed;
    r, landed, last, wrote := CommitEntered(occ, ts, plan, facts, Continue);
    if landed {
      ghost var more, billed, mid, entered := [], ts.billed, occ.store.log, occ.store.ledger;
      r, more := ParkAborts(occ, ts, node, ceiling);
      EnteredBehind(old(occ.store.ledger), entered, occ.store.ledger, wrote, more);
      LandsBehind(r, old(occ.store.log), mid, occ.store.log, old(occ.store.st), occ.store.claim, plan.expected, wrote,
                  more, facts);
      BilledBehind(old(ts.billed), billed, ts.billed, facts);
      CountBehind(node, last, more, r, old(ts.consecutiveAborts), ts.consecutiveAborts, ceiling);
      wrote := wrote + more;
    }
  }

  /** An exit that halts or pauses. */
  method CommitStop(occ: OccController, ts: TurnState, node: string, version: nat, h: HandlerEnd)
    returns (r: TurnEnd, ghost wrote: seq<Entry>)
    requires Steady(occ, ts) && h.Left? && PlanExit(ExitOf(h)).outcome in {Halt, Pause}
    requires Parking(PlanExit(ExitOf(h)).facts)
    modifies occ, occ.store, ts`pending, ts`billed, ts`recommitting
    ensures TurnEnds(r, occ, ts) && ts.pending == old(ts.pending) && r != TurnOver(Continue)
    ensures occ.store.ledger == old(occ.store.ledger) + wrote && HandlerWrote(node, h, wrote, r)
    ensures r.TurnThrew? && wrote == [] ==> ThrewLast(occ.store.log.trace, r.exn)
    ensures BilledMore(old(ts.billed), ts.billed, PlanExit(ExitOf(h)).facts)
    ensures occ.store.log.foreign >= old(occ.store.log.foreign) && old(occ.store.log.trace) <= occ.store.log.trace
    ensures LandsAlone(r, old(occ.store.log), occ.store.log, old(occ.store.st), occ.store.claim, version, wrote,
                       PlanExit(ExitOf(h)).facts)
  {
    ghost var was := occ.store.ledger;
    var facts := PlanExit(ExitOf(h)).facts;
    r := CommitPark(occ, ts, version, facts);
    StepEntered(r, facts, was, occ.store.ledger, occ.store.log.trace);
    wrote := occ.store.ledger[|was|..];
    HandlerEntered(node, h, facts, wrote, r);
  }

  /** A linear commit, and what it entered. */
  method CommitEntered(occ: OccController, ts: TurnState, plan: CommitPlan, facts: seq<Fact>, success: DispatchOutcome)
    returns (r: TurnEnd, landed: bool, ghost last: seq<Fact>, ghost wrote: seq<Entry>)
    requires Steady(occ, ts) && HookFenced(plan, occ.store.claim) && SpendStable(plan, facts) && !plan.parks
    requires plan.kind == AppendOnce
    requires success == Terminal ==>
               ts.stopping || (Parking(facts) && forall next :: Answers(plan, Next(next)) ==> Parking(next))
    modifies occ, occ.store, ts`pending, ts`billed, ts`recommitting
    ensures TurnEnds(r, occ, ts) && ts.pending == old(ts.pending)
    ensures last == facts || Answers(plan, Next(last))
    ensures occ.store.ledger == old(occ.store.ledger) + wrote && WroteOne(wrote, last, r)
    ensures wrote == [] ==> ThrewLast(occ.store.log.trace, r.exn)
    ensures landed ==> wrote == [Entry(last, Committed)] && r == TurnOver(success)
    ensures !landed && r.TurnOver? ==> wrote != [Entry(last, Committed)]
    ensures BilledMore(old(ts.billed), ts.billed, facts)
    ensures wrote != [] && IsCut(wrote[0].fate) ==> plan.replan == None || Answers(plan, Declined)
    ensures occ.store.log.foreign >= old(occ.store.log.foreign) && old(occ.store.log.trace) <= occ.store.log.trace
    ensures LandsAlone(r, old(occ.store.log), occ.store.log, old(occ.store.st), occ.store.claim, plan.expected, wrote,
                       facts)
  {
    ghost var was := occ.store.ledger;
    r, landed, last := CommitLinear(occ, ts, plan, facts, success);
    StepEntered(r, last, was, occ.store.ledger, occ.store.log.trace);
    wrote := occ.store.ledger[|was|..];
  }

  lemma StepParks(h: HandlerEnd, commit: CommitPlan)
    requires h.Left? && (commit == ExitCommitPlan(0, h) || exists version :: commit == ExitCommitPlan(version, h))
    ensures PlanExit(ExitOf(h)).outcome == ShutdownStep ==> ExitOf(h).exit == Shutdown
    ensures forall next :: Answers(commit, Next(next)) ==> Answers(ExitCommitPlan(0, h), Next(next))
    ensures commit.replan.Some? && (Answers(commit, Declined) ==> Answers(ExitCommitPlan(0, h), Declined))
  {
    if s :| commit.replan.value(s) == Declined {
      assert ExitCommitPlan(0, h).replan.value(s) == Declined;
    }
    forall next | Answers(commit, Next(next)) ensures Answers(ExitCommitPlan(0, h), Next(next)) {
      var s :| commit.replan.value(s) == Next(next);
      assert ExitCommitPlan(0, h).replan.value(s) == Next(next);
    }
  }

  /** The abort counts, behind its commit. */
  method ParkAborts(occ: OccController, ts: TurnState, node: string, ceiling: nat)
    returns (r: TurnEnd, ghost wrote: seq<Entry>)
    requires Steady(occ, ts)
    modifies occ, occ.store, ts`pending, ts`billed, ts`recommitting, ts`consecutiveAborts
    ensures TurnEnds(r, occ, ts) && ts.consecutiveAborts == old(ts.consecutiveAborts) + 1
    ensures occ.store.log.foreign >= old(occ.store.log.foreign) && old(occ.store.log.trace) <= occ.store.log.trace
    ensures ts.pending == old(ts.pending) && BilledMore(old(ts.billed), ts.billed, [])
    ensures occ.store.ledger == old(occ.store.ledger) + wrote && |wrote| <= 1
    ensures wrote != [] ==> wrote[0].batch == [RunPaused(AbortLoop, node)] && ts.consecutiveAborts >= ceiling
    ensures wrote == [] ==> r.TurnThrew? || ts.consecutiveAborts < ceiling
  {
    ghost var was := occ.store.ledger;
    r := CountAbort(occ, ts, node, ceiling);
    if ts.consecutiveAborts >= ceiling {
      StepEntered(r, [RunPaused(AbortLoop, node)], was, occ.store.ledger, occ.store.log.trace);
    }
    wrote := occ.store.ledger[|was|..];
  }

  method DispatchHandler(occ: OccController, ts: TurnState, node: string, version: nat, ceiling: nat, h: HandlerEnd)
    returns (r: TurnEnd, ghost wrote: seq<Entry>)
    requires Steady(occ, ts) && (h.Left? && ExitOf(h).exit == Shutdown ==> ts.stopping)
    requires h.Returned? ==>
               && (forall s, next, c :: h.replan(s) == Next(next) && Money(c) ==> Spend(next, c) == Spend(h.facts, c))
               && (forall s :: h.replan(s) == HookThrew(ClaimLostError) ==> s.epoch != occ.store.claim)
    modifies occ, occ.store
    modifies ts`pending, ts`billed, ts`recommitting, ts`consecutiveAborts, ts`leaked
    ensures TurnEnds(r, occ, ts) && ts.pending == old(ts.pending)
    ensures occ.store.ledger == old(occ.store.ledger) + wrote && HandlerWrote(node, h, wrote, r)
    ensures r.TurnThrew? && wrote == [] && !h.Escaped? ==> ThrewLast(occ.store.log.trace, r.exn)
    ensures BilledMore(old(ts.billed), ts.billed, Planned(h))
    ensures old(occ.store.log.trace) <= occ.store.log.trace
    ensures LandsAlone(r, old(occ.store.log), occ.store.log, old(occ.store.st), occ.store.claim, version, wrote,
                       Planned(h))
    ensures ts.leaked == old(ts.leaked) + DeedLeaks(Ran(node, h))
    ensures h.Left? && h.leaked ==> r != TurnOver(Continue)
    ensures h.Returned? ==> ts.consecutiveAborts == 0
  {
    wrote := [];
    match h
    case Escaped => r := TurnThrew(OtherError);
    case Left(leaked, _, _, _, _, _, _) =>
      if leaked {
        ts.leaked := ts.leaked + {node};
      }
      r, wrote := CommitExit(occ, ts, node, version, ceiling, h);
    case Returned(_, _) =>
      ts.consecutiveAborts := 0;
      r, wrote := CommitReturned(occ, ts, node, version, h);
  }

  /** The commit of a handler's result. */
  method CommitReturned(occ: OccController, ts: TurnState, node: string, version: nat, h: HandlerEnd)
    returns (r: TurnEnd, ghost wrote: seq<Entry>)
    requires Steady(occ, ts) && h.Returned?
    requires forall s, next, c :: h.replan(s) == Next(next) && Money(c) ==> Spend(next, c) == Spend(h.facts, c)
    requires forall s :: h.replan(s) == HookThrew(ClaimLostError) ==> s.epoch != occ.store.claim
    modifies occ, occ.store, ts`pending, ts`billed, ts`recommitting
    ensures TurnEnds(r, occ, ts) && ts.pending == old(ts.pending)
    ensures occ.store.ledger == old(occ.store.ledger) + wrote && HandlerWrote(node, h, wrote, r)
    ensures r.TurnThrew? && wrote == [] ==> ThrewLast(occ.store.log.trace, r.exn)
    ensures BilledMore(old(ts.billed), ts.billed, h.facts)
    // a committed result goes on with the conflicts resolved, unless that threw
    ensures wrote != [] && wrote[0].fate == Committed ==>
              r.TurnThrew? || (r == TurnOver(Continue) && occ.occCount == 0 && !occ.occWarned)
    ensures old(occ.store.log.trace) <= occ.store.log.trace
    ensures LandsAlone(r, old(occ.store.log), occ.store.log, old(occ.store.st), occ.store.claim, version, wrote,
                       h.facts)
  {
    var landed;
    ghost var last;
    r, landed, last, wrote := CommitEntered(occ, ts, HandlerPlan(version, h), h.facts, Continue);
    HandlerEntered(node, h, last, wrote, r);
    if landed {
      r := Resolve(occ, ts, r);
    }
  }

  // ---------- the turn ----------

  /** The books a turn state keeps. */
  datatype Books = Books(
    billed: Column -> nat, dropped: Column -> nat, leaked: set<string>, dispatches: nat, parked: Option<seq<Fact>>)

  ghost function BooksOf(ts: TurnState): Books
    reads ts`billed, ts`dropped, ts`leaked, ts`dispatches, ts`pending
  {
    Books(ts.billed, ts.dropped, ts.leaked, ts.dispatches, ts.pending)
  }

  /** The books before and behind a turn. */
  ghost predicate Counted(a: Act, was: Books, now: Books) {
    && now.leaked == was.leaked + DeedLeaks(a.deed) && now.dispatches == was.dispatches + DeedStarts(a.deed)
    && now.parked == a.parked
    && forall c {:trigger Money(c)} :: Money(c) ==>
         && now.billed(c) == was.billed(c) + DeedSpend(a.deed, c)
         && now.dropped(c) == was.dropped(c) + DeedDrops(a.deed, c)
  }

  /** A turn without a superstep: it drops nothing, and bills its handler. */
  lemma CountedAs(a: Act, was: Books, now: Books)
    requires !a.deed.Stepped? && now.parked == a.parked && now.dropped == was.dropped
    requires now.leaked == was.leaked + DeedLeaks(a.deed) && now.dispatches == was.dispatches + DeedStarts(a.deed)
    requires BilledMore(was.billed, now.billed, if a.deed.Ran? then Planned(a.deed.end) else [])
    ensures Counted(a, was, now)
  {
  }

  /** Gates that let the turn pass billed nothing. */
  lemma CountedBehind(a: Act, was: Books, mid: Books, now: Books)
    requires mid == was.(billed := mid.billed) && BilledMore(was.billed, mid.billed, []) && Counted(a, mid, now)
    ensures Counted(a, was, now)
  {
  }

  /** What a gate does depends on nothing the pass did before. */
  lemma GateFollows(
      t: Turn, leaked: set<string>, dispatches: nat, parked: Option<seq<Fact>>, a: Act, r: TurnEnd, trace: seq<Event>)
    requires GateShown(t, a, r, trace)
    ensures Follows(t, leaked, dispatches, a.deed) && ActShown(t, dispatches, parked, a, r)
  {
  }

  /** A turn that is past its entry gates does what the operator asked: for a cancel
      the one batch it enters ends the run aborted on that intent, for a pause
      it parks the run, on no timer, for the operator. Once that is committed
      the pass is over. */
  ghost predicate OperatorObeyed(t: Turn, a: Act, r: TurnEnd) {
    t.compatible && t.parseError == None && !t.escapes && !a.deed.Unaudited? ==>
      match t.intents
      case Go => !a.deed.Intended?
      case CancelRun(intentSeq) => StopsAs(RunTerminated(Aborted(intentSeq)), Cancelled, a, r)
      case PauseRun => exists node :: StopsAs(RunPaused(Operator, node), Paused, a, r)
  }

  /** The one batch entered is this fact, which leaves a run in this status. */
  ghost predicate StopsAs(stop: Fact, status: Status, a: Act, r: TurnEnd) {
    && WroteOne(a.wrote, [stop], r) && (a.wrote == [Entry([stop], Committed)] ==> r != TurnOver(Continue))
    && forall row :: Appended(row, [stop]).status == status
  }

  lemma OperatorIsObeyed(
      t: Turn, leaked: set<string>, dispatches: nat, parked: Option<seq<Fact>>, a: Act, r: TurnEnd)
    requires Follows(t, leaked, dispatches, a.deed) && ActShown(t, dispatches, parked, a, r)
    ensures OperatorObeyed(t, a, r)
  {
    forall s: Status, f: Fact ensures StatusAfter(s, [f]) == StatusStep(s, f) {
      assert [f][1..] == [];
      assert StatusAfter(s, [f]) == StatusAfter(StatusStep(s, f), []);
    }
    if t.intents.PauseRun? && t.compatible && t.parseError == None && !t.escapes && !a.deed.Unaudited? {
      assert StopsAs(RunPaused(Operator, ""), Paused, a, r);
    }
  }

  /** So does every turn of a pass that did not read the run stopped. */
  lemma PassObeys(script: nat -> Turn, acts: seq<Act>, turned: seq<TurnEnd>, k: nat)
    requires PassShown(script, acts, turned) && k < |acts| && !acts[k].deed.Quit?
    ensures OperatorObeyed(script(k), acts[k], turned[k])
  {
    var before := acts[..k];
    assert TurnShown(script, acts, turned, k);
    OperatorIsObeyed(script(k), LeakedBy(before), StartedBy(before), ParkedBy(before), acts[k], turned[k]);
  }

  /** One turn: it reads the row, and unless that has stopped does the one thing
      its inputs call for; every batch of it is in the ledger, or it threw; and
      everything its handlers spent is billed. */
  method DispatchTurn(occ: OccController, ts: TurnState, t: Turn) returns (r: TurnEnd, ghost act: Act)
    requires Steady(occ, ts) && TurnOk(t, occ.store.claim) && (t.shutdown ==> ts.stopping)
    modifies occ, occ.store, ts
    ensures TurnEnds(r, occ, ts) && ts.stopping == old(ts.stopping)
    ensures ts.turned == old(ts.turned) + [r] && old(occ.store.log.trace) <= occ.store.log.trace
    ensures if act.deed.Quit?
            then exists row :: IsStopped(row) && occ.store.log.trace == old(occ.store.log.trace) + [Read(row)]
            else Follows(t, old(ts.leaked), old(ts.dispatches), act.deed) && OperatorObeyed(t, act, r)
    ensures ActShown(t, old(ts.dispatches), old(ts.pending), act, r) && ThrowShown(act, r, occ.store.log.trace)
    ensures occ.store.ledger == old(occ.store.ledger) + act.wrote
    ensures Counted(act, old(BooksOf(ts)), BooksOf(ts))
  {
    r, act := ReadTurn(occ, ts, t);
    if !act.deed.Quit? {
      OperatorIsObeyed(t, old(ts.leaked), old(ts.dispatches), old(ts.pending), act, r);
    }
    ts.turned := ts.turned + [r];
  }

  /** The turn itself, before it is written down. */
  method ReadTurn(occ: OccController, ts: TurnState, t: Turn) returns (r: TurnEnd, ghost act: Act)
    requires Steady(occ, ts) && TurnOk(t, occ.store.claim) && (t.shutdown ==> ts.stopping)
    modifies occ, occ.store, ts
    ensures TurnEnds(r, occ, ts) && ts.stopping == old(ts.stopping) && ts.turned == old(ts.turned)
    ensures old(occ.store.log.trace) <= occ.store.log.trace
    ensures if act.deed.Quit?
            then exists row :: IsStopped(row) && occ.store.log.trace == old(occ.store.log.trace) + [Read(row)]
            else Follows(t, old(ts.leaked), old(ts.dispatches), act.deed)
    ensures ActShown(t, old(ts.dispatches), old(ts.pending), act, r) && ThrowShown(act, r, occ.store.log.trace)
    ensures occ.store.ledger == old(occ.store.ledger) + act.wrote
    ensures Counted(act, old(BooksOf(ts)), BooksOf(ts))
  {
    var row := occ.store.GetState();
    if IsStopped(row) {
      r, act := TurnOver(Terminal), Act(Quit, [], ts.pending);
      CountedAs(act, old(BooksOf(ts)), BooksOf(ts));
      assert exists row :: IsStopped(row) && occ.store.log.trace == old(occ.store.log.trace) + [Read(row)];
    } else {
      r, act := DispatchLive(occ, ts, t, row.version);
    }
  }

  /** The turn of a run that is queued or running. */
  method DispatchLive(occ: OccController, ts: TurnState, t: Turn, version: nat) returns (r: TurnEnd, ghost act: Act)
    requires Steady(occ, ts) && TurnOk(t, occ.store.claim) && (t.shutdown ==> ts.stopping)
    modifies occ, occ.store, ts
    ensures TurnEnds(r, occ, ts) && ts.stopping == old(ts.stopping) && ts.turned == old(ts.turned)
    ensures old(occ.store.log.trace) <= occ.store.log.trace
    ensures !act.deed.Quit? && Follows(t, old(ts.leaked), old(ts.dispatches), act.deed)
    ensures ActShown(t, old(ts.dispatches), old(ts.pending), act, r) && ThrowShown(act, r, occ.store.log.trace)
    ensures occ.store.ledger == old(occ.store.ledger) + act.wrote
    ensures Counted(act, old(BooksOf(ts)), BooksOf(ts))
  {
    var gate;
    gate, act := PassGates(occ, ts, t, version);
    if gate.Some? {
      GateFollows(t, old(ts.leaked), old(ts.dispatches), old(ts.pending), act, gate.value, occ.store.log.trace);
      CountedAs(act, old(BooksOf(ts)), BooksOf(ts));
      return gate.value, act;
    }
    if t.node.value in ts.leaked {
      r, act := TurnOver(Terminal), Act(Refused, [], ts.pending);
      CountedAs(act, old(BooksOf(ts)), BooksOf(ts));
      return;
    }
    ghost var books := BooksOf(ts);
    r, act := DispatchWork(occ, ts, t, t.node.value, version);
    CountedBehind(act, old(BooksOf(ts)), books, BooksOf(ts));
  }

  /** A turn that a gate ended. */
  ghost predicate GateShown(t: Turn, act: Act, r: TurnEnd, trace: seq<Event>) {
    && !act.deed.Quit? && !act.deed.Ran? && !act.deed.Stepped? && (act.deed.Unaudited? || GateDeed(t).Some?)
    && Follows(t, {}, 0, act.deed) && ActShown(t, 0, None, act, r) && ThrowShown(act, r, trace)
  }

  /** The contract window, the graph, the intents, the worktree and the start,
      in that order; `None` is past them all, with nothing done. */
  method PassGates(occ: OccController, ts: TurnState, t: Turn, version: nat)
    returns (r: Option<TurnEnd>, ghost act: Act)
    requires Steady(occ, ts)
    modifies occ, occ.store, ts`pending, ts`billed, ts`recommitting
    ensures old(occ.store.log.trace) <= occ.store.log.trace && ts.pending == old(ts.pending)
    ensures BilledMore(old(ts.billed), ts.billed, [])
    ensures r == None ==> Steady(occ, ts) && GateDeed(t) == None && occ.store.ledger == old(occ.store.ledger)
    ensures r.Some? ==>
              && TurnEnds(r.value, occ, ts) && GateShown(t, act, r.value, occ.store.log.trace)
              && occ.store.ledger == old(occ.store.ledger) + act.wrote && act.parked == ts.pending
  {
    r, act := PassEntry(occ, ts, t, version);
    if r == None {
      r, act := PassIntents(occ, ts, t, version);
    }
  }

  /** No gate at the turn's entry stands. */
  predicate Entered(t: Turn) {
    t.compatible && t.parseError == None && !t.escapes
  }

  /** The contract window, the graph, and the fold of the intents. */
  method PassEntry(occ: OccController, ts: TurnState, t: Turn, version: nat)
    returns (r: Option<TurnEnd>, ghost act: Act)
    requires Steady(occ, ts)
    modifies occ, occ.store, ts`pending, ts`billed, ts`recommitting
    ensures old(occ.store.log.trace) <= occ.store.log.trace && ts.pending == old(ts.pending)
    ensures BilledMore(old(ts.billed), ts.billed, [])
    ensures r == None ==> Steady(occ, ts) && Entered(t) && occ.store.ledger == old(occ.store.ledger)
    ensures r.Some? ==>
              && TurnEnds(r.value, occ, ts) && GateShown(t, act, r.value, occ.store.log.trace)
              && occ.store.ledger == old(occ.store.ledger) + act.wrote && act.parked == ts.pending
  {
    act := Act(Refused, [], ts.pending);
    var gate := PlanPreDispatch(t.compatible, t.parseError, None, 0, 1);
    if gate.Some? {
      var end;
      end, act := MarkOrPark(occ, ts, version, gate.value);
      return Some(end), act;
    }
    if t.drops {
      var raised := occ.store.AppendObservability();
      if raised.Some? {
        return Some(TurnThrew(raised.value)), Act(Unaudited, [], ts.pending);
      }
    }
    if t.escapes {
      return Some(TurnThrew(OtherError)), Act(Broke, [], ts.pending);
    }
    return None, act;
  }

  /** The intents, the worktree and the start. */
  method PassIntents(occ: OccController, ts: TurnState, t: Turn, version: nat)
    returns (r: Option<TurnEnd>, ghost act: Act)
    requires Steady(occ, ts) && Entered(t)
    modifies occ, occ.store, ts`pending, ts`billed, ts`recommitting
    ensures old(occ.store.log.trace) <= occ.store.log.trace && ts.pending == old(ts.pending)
    ensures BilledMore(old(ts.billed), ts.billed, [])
    ensures r == None ==> Steady(occ, ts) && GateDeed(t) == None && occ.store.ledger == old(occ.store.ledger)
    ensures r.Some? ==>
              && TurnEnds(r.value, occ, ts) && GateShown(t, act, r.value, occ.store.log.trace)
              && occ.store.ledger == old(occ.store.ledger) + act.wrote && act.parked == ts.pending
  {
    act := Act(Refused, [], ts.pending);
    var end;
    if t.intents != Go {
      ghost var was := occ.store.ledger;
      var stop;
      stop, end := StopTurn(occ, ts, version, t.intents);
      StepEntered(end, [stop], was, occ.store.ledger, occ.store.log.trace);
      act := Act(Intended(stop), occ.store.ledger[|was|..], ts.pending);
    } else if t.worktreeError.Some? {
      end, act := MarkOrPark(occ, ts, version, PlanPreDispatch(true, None, t.worktreeError, 0, 1).value);
    } else if t.node == None {
      end, act := MarkOrPark(occ, ts, version, RunStarted("start"));
    } else {
      return None, act;
    }
    r := Some(end);
  }

  /** Commit the operator's pause or cancel: a cancel ends the run aborted on its
      intent, a pause parks it for the operator. */
  method StopTurn(occ: OccController, ts: TurnState, version: nat, intents: Intents) returns (stop: Fact, r: TurnEnd)
    requires Steady(occ, ts) && intents != Go
    modifies occ, occ.store, ts`pending, ts`billed, ts`recommitting
    ensures TurnEnds(r, occ, ts) && BilledMore(old(ts.billed), ts.billed, []) && ts.pending == old(ts.pending)
    ensures match intents
            case CancelRun(intentSeq) => stop == RunTerminated(Aborted(intentSeq))
            case PauseRun => stop == RunPaused(Operator, "")
            case Go => true
    ensures StepShown(r, [stop], old(occ.store.ledger), occ.store.ledger, occ.store.log.trace)
    ensures r == TurnOver(Continue) ==> occ.store.ledger != old(occ.store.ledger) + [Entry([stop], Committed)]
    ensures old(occ.store.log.trace) <= occ.store.log.trace
  {
    stop := if intents.PauseRun? then RunPaused(Operator, "") else RunTerminated(Aborted(intents.seq_));
    FreeBatch([stop]);
    var landed;
    ghost var last;
    r, landed, last := CommitLinear(occ, ts, CommitPlan(version, AppendOnce, None, false), [stop], Terminal);
  }

  /** Commit a start or a dispatch marker; a landed one resolves conflicts. */
  method StartOrMark(occ: OccController, ts: TurnState, version: nat, fact: Fact) returns (r: TurnEnd)
    requires Steady(occ, ts) && FactSpend(fact) == NO_USAGE
    modifies occ, occ.store, ts`pending, ts`billed, ts`recommitting
    ensures TurnEnds(r, occ, ts) && BilledMore(old(ts.billed), ts.billed, []) && ts.pending == old(ts.pending)
    ensures StepShown(r, [fact], old(occ.store.ledger), occ.store.ledger, occ.store.log.trace)
    // committed, the turn goes on with the conflicts resolved, unless that threw
    ensures occ.store.ledger == old(occ.store.ledger) + [Entry([fact], Committed)] ==>
              r.TurnThrew? || (r == TurnOver(Continue) && occ.occCount == 0 && !occ.occWarned)
    ensures old(occ.store.log.trace) <= occ.store.log.trace
  {
    FreeBatch([fact]);
    var landed;
    ghost var last;
    r, landed, last := CommitLinear(occ, ts, CommitPlan(version, AppendOnce, None, false), [fact], Continue);
    if landed {
      r := Resolve(occ, ts, r);
    }
  }

  /** The current node: a fan-out region, or a handler behind its marker and
      the dispatch ceiling. */
  method DispatchWork(occ: OccController, ts: TurnState, t: Turn, node: string, version: nat)
    returns (r: TurnEnd, ghost act: Act)
    requires Steady(occ, ts) && TurnOk(t, occ.store.claim) && (t.shutdown ==> ts.stopping) && t.node == Some(node)
    modifies occ, occ.store, ts
    ensures TurnEnds(r, occ, ts) && ts.stopping == old(ts.stopping) && ts.turned == old(ts.turned)
    ensures old(occ.store.log.trace) <= occ.store.log.trace
    ensures !act.deed.Quit? && !act.deed.Unaudited?
    ensures WorkFollows(t.work, t.maxLoops, node, old(ts.dispatches), act.deed)
    ensures ActShown(t, old(ts.dispatches), old(ts.pending), act, r) && ThrowShown(act, r, occ.store.log.trace)
    ensures occ.store.ledger == old(occ.store.ledger) + act.wrote
    ensures Counted(act, old(BooksOf(ts)), BooksOf(ts))
  {
    if t.work.Region? {
      ghost var step;
      r, act, step := DispatchRegion(occ, ts, t, node, version);
    } else {
      r, act := DispatchNode(occ, ts, t, node, version);
    }
  }

  /** A handler, behind its marker and below the ceiling. */
  method DispatchNode(occ: OccController, ts: TurnState, t: Turn, node: string, version: nat)
    returns (r: TurnEnd, ghost act: Act)
    requires Steady(occ, ts) && TurnOk(t, occ.store.claim) && (t.shutdown ==> ts.stopping) && t.work.Handler?
    modifies occ, occ.store
    modifies ts`pending, ts`billed, ts`recommitting, ts`consecutiveAborts, ts`leaked, ts`dispatches
    ensures TurnEnds(r, occ, ts) && old(occ.store.log.trace) <= occ.store.log.trace
    ensures !act.deed.Quit? && !act.deed.Unaudited?
    ensures WorkFollows(t.work, t.maxLoops, node, old(ts.dispatches), act.deed)
    ensures ActShown(t, old(ts.dispatches), old(ts.pending), act, r) && ThrowShown(act, r, occ.store.log.trace)
    ensures occ.store.ledger == old(occ.store.ledger) + act.wrote
    ensures Counted(act, old(BooksOf(ts)), BooksOf(ts))
  {
    var gate := PlanPreDispatch(true, None, None, ts.dispatches, t.maxLoops);
    if t.work.marked && gate == None {
      r, act := CountAndRun(occ, ts, t, node);
    } else {
      var fact := if t.work.marked then gate.value else DispatchStarted(node, t.work.iteration, t.work.pass);
      r, act := MarkOrPark(occ, ts, version, fact);
      CountedAs(act, old(BooksOf(ts)), BooksOf(ts));
    }
  }

  /** Count the dispatch and run the handler. */
  method CountAndRun(occ: OccController, ts: TurnState, t: Turn, node: string) returns (r: TurnEnd, ghost act: Act)
    requires Steady(occ, ts) && TurnOk(t, occ.store.claim) && (t.shutdown ==> ts.stopping) && t.work.Handler?
    modifies occ, occ.store
    modifies ts`pending, ts`billed, ts`recommitting, ts`consecutiveAborts, ts`leaked, ts`dispatches
    ensures TurnEnds(r, occ, ts) && old(occ.store.log.trace) <= occ.store.log.trace
    ensures act.deed == Ran(node, t.work.end) && HandlerWrote(node, t.work.end, act.wrote, r)
    ensures ThrowShown(act, r, occ.store.log.trace)
    ensures occ.store.ledger == old(occ.store.ledger) + act.wrote
    ensures Counted(act, old(BooksOf(ts)), BooksOf(ts))
  {
    ghost var wrote;
    ts.dispatches := ts.dispatches + 1;
    r, wrote := DispatchHandler(occ, ts, node, t.work.recorderVersion, t.ceiling, t.work.end);
    act := Act(Ran(node, t.work.end), wrote, ts.pending);
    CountedAs(act, old(BooksOf(ts)), BooksOf(ts));
  }

  /** Commit what stands ahead of a handler: a gate's fact, or a start or a marker. */
  method MarkOrPark(occ: OccController, ts: TurnState, version: nat, fact: Fact) returns (r: TurnEnd, ghost act: Act)
    requires Steady(occ, ts) && FactSpend(fact) == NO_USAGE
    modifies occ, occ.store, ts`pending, ts`billed, ts`recommitting
    ensures TurnEnds(r, occ, ts) && old(occ.store.log.trace) <= occ.store.log.trace && ts.pending == old(ts.pending)
    ensures act.deed == if Parks(fact) then Gated(fact) else Began(fact)
    ensures WroteOne(act.wrote, [fact], r)
    ensures if Parks(fact) then r != TurnOver(Continue)
            else r == TurnOver(Terminal) ==> act.wrote != [Entry([fact], Committed)]
    ensures ThrowShown(act, r, occ.store.log.trace) && BilledMore(old(ts.billed), ts.billed, [])
    ensures occ.store.ledger == old(occ.store.ledger) + act.wrote && act.parked == ts.pending
  {
    ghost var was := occ.store.ledger;
    if Parks(fact) {
      r := ParkTurn(occ, ts, version, fact);
    } else {
      r := StartOrMark(occ, ts, version, fact);
    }
    StepEntered(r, [fact], was, occ.store.ledger, occ.store.log.trace);
    act := Act(if Parks(fact) then Gated(fact) else Began(fact), occ.store.ledger[|was|..], ts.pending);
  }

  /** A fan-out turn, with the superstep's own account of it. */
  method DispatchRegion(occ: OccController, ts: TurnState, t: Turn, node: string, version: nat)
    returns (r: TurnEnd, ghost act: Act, ghost step: Superstep)
    requires Steady(occ, ts) && TurnOk(t, occ.store.claim) && t.work.Region?
    modifies occ, occ.store, ts`billed, ts`dropped, ts`pending, ts`recommitting, ts`branchAborts, ts`dispatches
    ensures TurnEnds(r, occ, ts) && old(occ.store.log.trace) <= occ.store.log.trace
    ensures act.deed.Stepped?
    ensures StepWrote(t.work, node, t.maxLoops, old(ts.dispatches), old(ts.pending), act.deed.story, act, r)
    ensures ThrowShown(act, r, occ.store.log.trace)
    ensures occ.store.ledger == old(occ.store.ledger) + act.wrote
    ensures Counted(act, old(BooksOf(ts)), BooksOf(ts))
    ensures step.occ == occ && step.ts == ts && step.parallel == node && step.story == act.deed.story
    ensures step.FanoutShown(r, t.work.active, t.work.branches, t.work.redispatch, t.work.deferredPause,
                             old(occ.store.ledger), old(ts.pending), t.ceiling)
  {
    var w := t.work;
    var region := NewRegion(occ, ts, t.work, t.maxLoops, node);
    r, act := RunRegion(region, w, version, t.ceiling);
    step := region;
  }

  /** The superstep's turn, and its account as an act. */
  method RunRegion(step: Superstep, w: Work, version: nat, ceiling: nat) returns (r: TurnEnd, ghost act: Act)
    requires step.Booked() && step.Tallied([]) && step.story == Blank(step.occ.store.ledger)
    requires !step.bailed && !step.budgetTrip && step.pool == [] && step.disposition == None
    requires step.openDispatches == step.ts.dispatches && step.openAborts == step.ts.branchAborts
    requires step.ts.pending.Some? ==> Parking(step.ts.pending.value)
    requires w.Region? && step.scope == ScopeOf(w) && step.owner == w.owner
    requires forall f :: f in w.redispatch ==> f.DispatchStarted?
    requires w.active.Some? ==>
               forall i, j :: 0 <= i < j < |w.active.value| ==> w.owner(w.active.value[i]) != w.owner(w.active.value[j])
    modifies step, step.occ, step.occ.store
    modifies step.ts`billed, step.ts`dropped, step.ts`pending, step.ts`recommitting
    modifies step.ts`branchAborts, step.ts`dispatches
    ensures step.PassState(r)
    ensures act.deed == Stepped(step.story) && act.parked == step.ts.pending
    ensures StepWrote(
              w, step.parallel, step.maxLoops, step.openDispatches, old(step.ts.pending), step.story, act, r)
    ensures ThrowShown(act, r, step.occ.store.log.trace)
    ensures step.occ.store.ledger == old(step.occ.store.ledger) + act.wrote
    ensures Counted(act, OpenBooks(step, old(step.ts.pending)), BooksOf(step.ts))
    ensures step.FanoutShown(r, w.active, w.branches, w.redispatch, w.deferredPause,
                             old(step.occ.store.ledger), old(step.ts.pending), ceiling)
  {
    ghost var was, parked := step.occ.store.ledger, step.ts.pending;
    r := step.RunFanout(w.active, w.branches, w.redispatch, w.deferredPause, version, ceiling);
    act := Act(Stepped(step.story), step.occ.store.ledger[|was|..], step.ts.pending);
    WroteAsShown(step, w, r, was, parked, ceiling, act);
    RegionCounted(step, act, parked);
  }

  method NewRegion(occ: OccController, ts: TurnState, w: Work, maxLoops: nat, node: string) returns (step: Superstep)
    requires Steady(occ, ts) && w.Region?
    ensures fresh(step) && step.occ == occ && step.ts == ts && step.parallel == node
    ensures step.scope == ScopeOf(w) && step.owner == w.owner
    ensures step.maxLoops == maxLoops && step.Booked() && step.Tallied([]) && step.story == Blank(occ.store.ledger)
    ensures !step.bailed && !step.budgetTrip && step.pool == [] && step.disposition == None
    ensures step.opening == ts.billed && step.openDropped == ts.dropped && step.openDispatches == ts.dispatches
    ensures step.openAborts == ts.branchAborts
    ensures step.openTrace == occ.store.log.trace
  {
    step := new Superstep(occ, ts, node, ScopeOf(w), maxLoops, w.owner);
    assert step.BooksKept();
    forall c {:trigger Money(c)} | Money(c) ensures PoolSpend([], c) == 0 && MissedSpend([], c) == 0 {
    }
  }

  /** The books as a superstep found them. */
  ghost function OpenBooks(step: Superstep, parked: Option<seq<Fact>>): Books
    reads step.ts`leaked
  {
    Books(step.opening, step.openDropped, step.ts.leaked, step.openDispatches, parked)
  }

  /** A superstep's tally, as the books of its turn. */
  lemma RegionCounted(step: Superstep, a: Act, parked: Option<seq<Fact>>)
    requires step.Tallied([]) && a.deed == Stepped(step.story) && a.parked == step.ts.pending
    requires step.ts.dispatches == step.openDispatches + |step.story.entered|
    ensures Counted(a, OpenBooks(step, parked), BooksOf(step.ts))
  {
  }

  /** The entries of a superstep's turn, from its own account. */
  lemma WroteAsShown(
      step: Superstep, w: Work, r: TurnEnd, was: seq<Entry>, parked: Option<seq<Fact>>, ceiling: nat, act: Act)
    requires w.Region? && step.scope == ScopeOf(w)
    requires step.FanoutShown(r, w.active, w.branches, w.redispatch, w.deferredPause, was, parked, ceiling)
    requires step.occ.store.ledger == step.story.base + step.story.lanes + step.story.tail
    requires was <= step.occ.store.ledger
    requires act == Act(Stepped(step.story), step.occ.store.ledger[|was|..], step.ts.pending)
    ensures StepWrote(w, step.parallel, step.maxLoops, step.openDispatches, parked, step.story, act, r)
    ensures ThrowShown(act, r, step.occ.store.log.trace)
  {
    var ledger, trace := step.occ.store.ledger, step.occ.store.log.trace;
    if w.join == None || w.branches == [] {
      StepEntered(r, [MALFORMED], was, ledger, trace);
    } else if parked.Some? {
      step.ParkEntered(r, parked.value);
      BehindBase(was, step.story.base, [], step.story.tail);
    } else if w.active == None {
      StepEntered(r, [FanoutStarted(step.parallel, w.branches)], was, ledger, trace);
    } else if w.active.value == [] {
      JoinAsShown(step, w, w.join.value, r, was, act);
    } else {
      FrontierAsShown(step, w, w.active.value, r, was, ceiling, act);
    }
  }

  lemma JoinAsShown(step: Superstep, w: Work, next: string, r: TurnEnd, was: seq<Entry>, act: Act)
    requires w.Region? && step.JoinShown(r, next, w.deferredPause, was)
    requires step.occ.store.ledger == step.story.base + step.story.lanes + step.story.tail
    requires was <= step.occ.store.ledger
    requires act == Act(Stepped(step.story), step.occ.store.ledger[|was|..], step.ts.pending)
    ensures JoinWrote(next, w.deferredPause, step.parallel, act, r)
    ensures r.TurnThrew? && act.wrote == [] ==> ThrewLast(step.occ.store.log.trace, r.exn)
  {
    var join := [if w.deferredPause then RunPaused(Operator, step.parallel) else FanoutJoined(step.parallel, next)];
    if StepShown(r, join, was, step.occ.store.ledger, step.occ.store.log.trace) {
      StepEntered(r, join, was, step.occ.store.ledger, step.occ.store.log.trace);
    } else {
      var breach :| IsBreach(breach, step.parallel) && step.story.base == was && step.story.lanes == []
                    && step.ParkShown(r, [breach]);
      step.ParkEntered(r, [breach]);
      BehindBase(was, step.story.base, [], step.story.tail);
    }
  }

  lemma FrontierAsShown(
      step: Superstep, w: Work, frontier: seq<string>, r: TurnEnd, was: seq<Entry>, ceiling: nat, act: Act)
    requires w.Region? && step.scope == ScopeOf(w)
    requires step.FrontierShown(r, frontier, w.redispatch, was, ceiling)
    requires step.occ.store.ledger == step.story.base + step.story.lanes + step.story.tail
    requires was <= step.occ.store.ledger
    requires act == Act(Stepped(step.story), step.occ.store.ledger[|was|..], step.ts.pending)
    ensures FrontierWrote(w, frontier, step.maxLoops, step.openDispatches, step.story, act, r)
    ensures ThrowShown(act, r, step.occ.store.log.trace)
  {
    if step.story.how == Open {
      StepEntered(r, w.redispatch, was, step.occ.store.ledger, step.occ.store.log.trace);
    } else {
      step.TailEntered(r, ceiling);
      BehindBase(was, step.story.base, step.story.lanes, step.story.tail);
    }
  }

  lemma BehindBase(was: seq<Entry>, base: seq<Entry>, lanes: seq<Entry>, tail: seq<Entry>)
    requires was <= base
    ensures (base + lanes + tail)[|was|..] == base[|was|..] + lanes + tail
  {
  }

  // ---------- the pass ----------

  /** Give the claim back if the run is still `running`. */
  method ReleaseIfStillRunning(store: RunStore)
    requires store.Valid()
    modifies store`st, store`log
    ensures store.Valid() && store.st.landed == old(store.st.landed)
    ensures (old(store.Evidenced()) ==> store.Evidenced()) && old(store.log.trace) <= store.log.trace
    ensures store.log.conflicts == old(store.log.conflicts)
    ensures !Driven(store.st, store.claim)
  {
    var row := store.GetState();
    if row.status == Running {
      store.ReleaseClaim();
    }
  }

  ghost predicate ShutdownBy(script: nat -> Turn, turns: nat) {
    exists i: nat :: i < turns && script(i).shutdown
  }

  /** Every turn so far went on to the next. */
  ghost predicate AllContinued(turned: seq<TurnEnd>) {
    forall i :: 0 <= i < |turned| ==> turned[i] == TurnOver(Continue)
  }

  /** Why the pass ended, as its turns show: one threw; or every one of as many
      as the cap allows went on; or one ended it; or shutdown was seen. */
  ghost predicate PassEnded(
      crash: Option<Exn>, capped: bool, stopping: bool, turned: seq<TurnEnd>, maxTurns: nat)
  {
    && |turned| <= maxTurns
    && match crash
       case Some(exn) =>
         !capped && turned != [] && turned[|turned| - 1] == TurnThrew(exn) && AllContinued(turned[..|turned| - 1])
       case None =>
         if capped then |turned| == maxTurns && AllContinued(turned)
         else (turned != [] && turned[|turned| - 1] == TurnOver(Terminal) && AllContinued(turned[..|turned| - 1]))
              || (stopping && AllContinued(turned) && |turned| < maxTurns)
  }

  // ---------- what the turns of a pass did ----------

  /** Everything they entered, spent, dropped, started and let leak, turn after
      turn. */
  function WroteBy(acts: seq<Act>): seq<Entry> {
    if acts == [] then [] else WroteBy(acts[..|acts| - 1]) + acts[|acts| - 1].wrote
  }

  function SpentBy(acts: seq<Act>, c: Column): nat {
    if acts == [] then 0 else SpentBy(acts[..|acts| - 1], c) + DeedSpend(acts[|acts| - 1].deed, c)
  }

  function DroppedBy(acts: seq<Act>, c: Column): nat {
    if acts == [] then 0 else DroppedBy(acts[..|acts| - 1], c) + DeedDrops(acts[|acts| - 1].deed, c)
  }

  function StartedBy(acts: seq<Act>): nat {
    if acts == [] then 0 else StartedBy(acts[..|acts| - 1]) + DeedStarts(acts[|acts| - 1].deed)
  }

  function LeakedBy(acts: seq<Act>): set<string> {
    if acts == [] then {} else LeakedBy(acts[..|acts| - 1]) + DeedLeaks(acts[|acts| - 1].deed)
  }

  /** The disposition the last of them left parked. */
  function ParkedBy(acts: seq<Act>): Option<seq<Fact>> {
    if acts == [] then None else acts[|acts| - 1].parked
  }

  /** Each turn did the one thing its inputs called for after the turns before
      it, unless it read the run stopped, and entered what that enters. */
  ghost predicate PassShown(script: nat -> Turn, acts: seq<Act>, turned: seq<TurnEnd>) {
    |acts| == |turned| && forall k {:trigger TurnShown(script, acts, turned, k)} ::
      0 <= k < |acts| ==> TurnShown(script, acts, turned, k)
  }

  ghost predicate TurnShown(script: nat -> Turn, acts: seq<Act>, turned: seq<TurnEnd>, k: nat)
    requires k < |acts| == |turned|
  {
    var t, a, before := script(k), acts[k], acts[..k];
    && (a.deed.Quit? || Follows(t, LeakedBy(before), StartedBy(before), a.deed))
    && ActShown(t, StartedBy(before), ParkedBy(before), a, turned[k])
  }

  /** The last turn, as the trace it ended on shows: a throw of the store, or the
      read of a stopped run. */
  ghost predicate LastShown(acts: seq<Act>, turned: seq<TurnEnd>, trace: seq<Event>) {
    acts != [] && turned != [] ==>
      var a := acts[|acts| - 1];
      && ThrowShown(a, turned[|turned| - 1], trace)
      && (a.deed.Quit? ==> trace != [] && trace[|trace| - 1].Read? && IsStopped(trace[|trace| - 1].row))
  }

  /** The books of the pass are those of its turns. */
  ghost predicate PassBooks(acts: seq<Act>, books: Books, ledger: seq<Entry>) {
    && ledger == WroteBy(acts) && books.leaked == LeakedBy(acts) && books.dispatches == StartedBy(acts)
    && books.parked == ParkedBy(acts)
    && forall c {:trigger Money(c)} :: Money(c) ==>
         books.billed(c) == SpentBy(acts, c) && books.dropped(c) == DroppedBy(acts, c)
  }

  lemma OneMoreBooked(acts: seq<Act>, act: Act, was: Books, now: Books, ledger: seq<Entry>)
    requires PassBooks(acts, was, ledger) && Counted(act, was, now)
    ensures PassBooks(acts + [act], now, ledger + act.wrote)
  {
    assert (acts + [act])[..|acts|] == acts;
  }

  lemma OneMoreShown(script: nat -> Turn, acts: seq<Act>, turned: seq<TurnEnd>, act: Act, r: TurnEnd)
    requires PassShown(script, acts, turned)
    requires act.deed.Quit? || Follows(script(|acts|), LeakedBy(acts), StartedBy(acts), act.deed)
    requires ActShown(script(|acts|), StartedBy(acts), ParkedBy(acts), act, r)
    ensures PassShown(script, acts + [act], turned + [r])
  {
    forall k | 0 <= k < |acts| + 1 ensures TurnShown(script, acts + [act], turned + [r], k) {
      assert (acts + [act])[..k] == acts[..k];
      if k < |acts| {
        assert TurnShown(script, acts, turned, k);
      } else {
        assert acts[..k] == acts;
      }
    }
  }

  lemma EndedBy(before: seq<TurnEnd>, end: TurnEnd, stopping: bool, maxTurns: nat)
    requires AllContinued(before) && |before| < maxTurns
    ensures end.TurnThrew? ==> PassEnded(Some(end.exn), false, stopping, before + [end], maxTurns)
    ensures end == TurnOver(Terminal) ==> PassEnded(None, false, stopping, before + [end], maxTurns)
    ensures end == TurnOver(Continue) ==> AllContinued(before + [end])
  {
    var turned := before + [end];
    assert turned[..|turned| - 1] == before;
  }

  function Thrown(end: Option<TurnEnd>): Option<Exn> {
    if end.Some? && end.value.TurnThrew? then Some(end.value.exn) else None
  }

  /** Turns until one ends the pass, shutdown, or the turn cap. */
  method RunTurns(occ: OccController, ts: TurnState, script: nat -> Turn, maxTurns: nat)
    returns (crash: Option<Exn>, capped: bool, ghost acts: seq<Act>)
    requires Steady(occ, ts) && !ts.stopping && ts.turned == []
    requires PassBooks([], BooksOf(ts), occ.store.ledger)
    requires ScriptOk(script, occ.store.claim)
    modifies occ, occ.store, ts
    ensures occ.Valid() && occ.store.Balanced() && Accounted(occ, ts) && old(occ.store.log.trace) <= occ.store.log.trace
    ensures crash == None ==> Steady(occ, ts)
    ensures crash == None ==>
              !Driven(occ.store.st, occ.store.claim) || occ.abandoned || ts.leaked != {} || ts.stopping || capped
    ensures crash == Some(ClaimLostError) ==> !Driven(occ.store.st, occ.store.claim)
    ensures PassEnded(crash, capped, ts.stopping, ts.turned, maxTurns)
    ensures ts.stopping ==> ShutdownBy(script, |ts.turned| + 1)
    // what each turn did, and the ledger and the books as the sum of it
    ensures PassShown(script, acts, ts.turned) && LastShown(acts, ts.turned, occ.store.log.trace)
    ensures PassBooks(acts, BooksOf(ts), occ.store.ledger)
  {
    acts := [];
    for turn := 0 to maxTurns
      invariant Steady(occ, ts) && |ts.turned| == turn && AllContinued(ts.turned)
      invariant old(occ.store.log.trace) <= occ.store.log.trace
      invariant ts.stopping ==> ShutdownBy(script, turn)
      invariant |acts| == turn && PassShown(script, acts, ts.turned)
      invariant PassBooks(acts, BooksOf(ts), occ.store.ledger)
      invariant LastShown(acts, ts.turned, occ.store.log.trace)
    {
      var end;
      end, acts := TakeTurn(occ, ts, script, turn, acts, maxTurns);
      if end != Some(TurnOver(Continue)) {
        return Thrown(end), false, acts;
      }
    }
    return None, true, acts;
  }

  /** The shutdown signal may come at a turn, and is looked at before it. */
  method SeeShutdown(ts: TurnState, t: Turn) returns (seen: bool)
    modifies ts`stopping
    ensures ts.stopping == (old(ts.stopping) || t.shutdown) && (seen ==> ts.stopping)
  {
    if t.shutdown {
      ts.stopping := true;
    }
    var looked: bool := *;
    seen := ts.stopping && looked;
  }

  lemma ShutdownLater(script: nat -> Turn, a: nat, b: nat)
    requires a < b
    ensures ShutdownBy(script, a) || script(a).shutdown ==> ShutdownBy(script, b)
  {
    if ShutdownBy(script, a) {
      var i: nat :| i < a && script(i).shutdown;
    }
  }

  /** Unless shutdown is seen, one turn, entered behind the turns before it. */
  method TakeTurn(
      occ: OccController, ts: TurnState, script: nat -> Turn, turn: nat, ghost before: seq<Act>, ghost maxTurns: nat)
    returns (end: Option<TurnEnd>, ghost acts: seq<Act>)
    requires Steady(occ, ts) && TurnOk(script(turn), occ.store.claim)
    requires |before| == |ts.turned| == turn < maxTurns && (ts.stopping ==> ShutdownBy(script, turn))
    requires PassShown(script, before, ts.turned) && AllContinued(ts.turned)
    requires PassBooks(before, BooksOf(ts), occ.store.ledger)
    modifies occ, occ.store, ts
    ensures old(occ.store.log.trace) <= occ.store.log.trace && (ts.stopping ==> ShutdownBy(script, turn + 1))
    ensures end == None ==>
              && ts.stopping && Steady(occ, ts) && acts == before && ts.turned == old(ts.turned)
              && occ.store.log.trace == old(occ.store.log.trace)
    ensures end.Some? ==>
              && TurnEnds(end.value, occ, ts) && ts.turned == old(ts.turned) + [end.value]
              && LastShown(acts, ts.turned, occ.store.log.trace)
    // the pass goes on, or has ended
    ensures if end == Some(TurnOver(Continue)) then AllContinued(ts.turned)
            else PassEnded(Thrown(end), false, ts.stopping, ts.turned, maxTurns)
    ensures |acts| == |ts.turned| && PassShown(script, acts, ts.turned)
    ensures PassBooks(acts, BooksOf(ts), occ.store.ledger)
  {
    acts := before;
    var seen := SeeShutdown(ts, script(turn));
    ShutdownLater(script, turn, turn + 1);
    if seen {
      return None, acts;
    }
    var r;
    r, acts := DriveTurn(occ, ts, script, script(turn), before);
    EndedBy(old(ts.turned), r, ts.stopping, maxTurns);
    end := Some(r);
  }

  method DriveTurn(occ: OccController, ts: TurnState, ghost script: nat -> Turn, t: Turn, ghost before: seq<Act>)
    returns (end: TurnEnd, ghost acts: seq<Act>)
    requires Steady(occ, ts) && TurnOk(t, occ.store.claim) && (t.shutdown ==> ts.stopping)
    requires |before| == |ts.turned| && t == script(|before|)
    requires PassShown(script, before, ts.turned)
    requires PassBooks(before, BooksOf(ts), occ.store.ledger)
    modifies occ, occ.store, ts
    ensures TurnEnds(end, occ, ts) && ts.stopping == old(ts.stopping) && ts.turned == old(ts.turned) + [end]
    ensures old(occ.store.log.trace) <= occ.store.log.trace
    ensures |acts| == |ts.turned| && PassShown(script, acts, ts.turned)
    ensures PassBooks(acts, BooksOf(ts), occ.store.ledger)
    ensures LastShown(acts, ts.turned, occ.store.log.trace)
  {
    ghost var books, turned, ledger := BooksOf(ts), ts.turned, occ.store.ledger;
    ghost var act;
    end, act := DispatchTurn(occ, ts, t);
    OneMoreBooked(before, act, books, BooksOf(ts), ledger);
    OneMoreShown(script, before, turned, act, end);
    acts := before + [act];
  }

  /** Behind a pass that did not throw: an abandoned run's claim is given back, and
      a leaked one's if it is still `running`. */
  method GiveBack(occ: OccController, ts: TurnState)
    requires Steady(occ, ts)
    modifies occ.store`st, occ.store`log
    ensures Steady(occ, ts) && old(occ.store.log.trace) <= occ.store.log.trace
    ensures !old(Driven(occ.store.st, occ.store.claim)) || occ.abandoned || ts.leaked != {} ==>
              !Driven(occ.store.st, occ.store.claim)
  {
    if occ.abandoned {
      occ.store.ReleaseClaim();
    }
    if ts.leaked != {} {
      ReleaseIfStillRunning(occ.store);
    }
  }

  method RunOneInner(occ: OccController, ts: TurnState, script: nat -> Turn, maxTurns: nat)
    returns (crash: Option<Exn>, capped: bool, ghost turnCrash: Option<Exn>, ghost acts: seq<Act>, ghost turnedAt: nat)
    requires Steady(occ, ts) && !ts.stopping && ts.turned == []
    requires PassBooks([], BooksOf(ts), occ.store.ledger)
    requires ScriptOk(script, occ.store.claim)
    modifies occ, occ.store, ts
    ensures occ.Valid() && occ.store.Balanced() && Accounted(occ, ts)
    ensures crash == None ==> Steady(occ, ts)
    ensures crash == None ==> !Driven(occ.store.st, occ.store.claim) || ts.stopping || capped
    ensures crash == Some(ClaimLostError) ==> !Driven(occ.store.st, occ.store.claim)
    // the disposal's own throw takes the place of whatever the turns threw
    ensures PassEnded(turnCrash, capped, ts.stopping, ts.turned, maxTurns)
    ensures crash == turnCrash || crash == Some(OtherError)
    ensures ts.stopping ==> ShutdownBy(script, |ts.turned| + 1)
    ensures PassShown(script, acts, ts.turned) && PassBooks(acts, BooksOf(ts), occ.store.ledger)
    ensures |old(occ.store.log.trace)| <= turnedAt <= |occ.store.log.trace|
    ensures old(occ.store.log.trace) <= occ.store.log.trace
    ensures LastShown(acts, ts.turned, occ.store.log.trace[..turnedAt])
  {
    crash, capped, acts := RunTurns(occ, ts, script, maxTurns);
    turnCrash, turnedAt := crash, |occ.store.log.trace|;
    ghost var shown := occ.store.log.trace;
    assert shown[..turnedAt] == shown;
    if crash == None {
      GiveBack(occ, ts);
    }
    assert occ.store.log.trace[..turnedAt] == shown;
    var disposeFails: bool := *;
    if disposeFails {
      crash := Some(OtherError);
    }
  }

  /** Somewhere here the run was read stopped, or a store access threw. */
  ghost predicate ShowsCause(evs: seq<Event>) {
    exists k :: 0 <= k < |evs| && CauseAt(evs[k])
  }

  predicate CauseAt(ev: Event) {
    match ev
    case Read(row) => row.status != Running
    case Tried(_, _, _, result) => result.AppendThrew?
    case Noted(raised) => raised.Some?
  }

  lemma LastShowsCause(was: seq<Event>, now: seq<Event>)
    requires was < now && CauseAt(now[|now| - 1])
    ensures ShowsCause(now[|was|..])
  {
    assert now[|was|..][|now| - |was| - 1] == now[|now| - 1];
  }

  /** One commit of the halt, right behind a read, and the fate it entered; none
      if it threw. */
  method HaltOnce(occ: OccController, ts: TurnState, expected: nat, facts: seq<Fact>)
    returns (threw: Option<Exn>, ghost fate: Option<Fate>)
    requires occ.Valid() && occ.store.Balanced() && Parking(facts) && !occ.abandoned
    requires occ.store.log.trace != [] && occ.store.log.trace[|occ.store.log.trace| - 1].Read?
    modifies occ, occ.store, ts`pending
    ensures occ.Valid() && occ.store.Balanced() && ts.pending == old(ts.pending)
    ensures old(occ.store.log.trace) <= occ.store.log.trace
    ensures occ.store.ledger == old(occ.store.ledger) + if fate.Some? then [Entry(facts, fate.value)] else []
    ensures fate == None ==> ShowsCause(occ.store.log.trace[|old(occ.store.log.trace)|..])
    ensures occ.abandoned <==> fate == Some(Lost(EveryHaltLost))
    ensures threw == None && !occ.abandoned ==> !Driven(occ.store.st, occ.store.claim)
    ensures threw == Some(PayloadTooLarge) ==> fate == None
  {
    ghost var was := occ.store.log.trace;
    var end, _ := CommitParkOrTerminal(occ, ts, expected, facts);
    fate := None;
    if end.Raised? && end.point == InCommit {
      LastShowsCause(was, occ.store.log.trace);
    } else {
      fate := Some(occ.store.ledger[|occ.store.ledger| - 1].fate);
    }
    threw := if end.Raised? then Some(end.exn) else None;
  }

  /** Drive the crash halt: one commit call settles it or throws, so the loop
      around it never goes round. It enters no fate only if the run was read
      stopped or the commit threw, and it leaves the controller abandoned only
      if every halt lost its race. */
  method DriveCrashHalt(occ: OccController, ts: TurnState, facts: seq<Fact>)
    returns (threw: Option<Exn>, ghost fate: Option<Fate>)
    requires occ.Valid() && occ.store.Balanced() && Parking(facts) && !occ.abandoned
    modifies occ, occ.store, ts`pending
    ensures occ.Valid() && occ.store.Balanced() && ts.pending == old(ts.pending)
    ensures old(occ.store.log.trace) <= occ.store.log.trace
    ensures occ.store.ledger == old(occ.store.ledger) + if fate.Some? then [Entry(facts, fate.value)] else []
    ensures fate == None ==> ShowsCause(occ.store.log.trace[|old(occ.store.log.trace)|..])
    ensures occ.abandoned <==> fate == Some(Lost(EveryHaltLost))
    ensures threw == None && !occ.abandoned ==> !Driven(occ.store.st, occ.store.claim)
    ensures threw == Some(PayloadTooLarge) ==> fate == None
  {
    ghost var was := occ.store.log.trace;
    for attempt := 0 to HALT_APPEND_MAX_ATTEMPTS
      invariant attempt == 0 && occ.Valid() && occ.store.Balanced() && !occ.abandoned && occ.store.log.trace == was
      invariant occ.store.ledger == old(occ.store.ledger) && ts.pending == old(ts.pending)
    {
      var row := occ.store.GetState();
      if row.status != Running {
        LastShowsCause(was, occ.store.log.trace);
        return None, None;
      }
      ghost var read := occ.store.log.trace;
      threw, fate := HaltOnce(occ, ts, row.version, facts);
      CauseIsLater(was, read, occ.store.log.trace);
      return;
    }
    assert false;
    return None, None;
  }

  lemma HaltCarries(spend: seq<Fact>, detail: string)
    ensures forall c :: Spend(spend + [HaltFact(HaltError, detail)], c) == Spend(spend, c)
  {
    forall c ensures Spend(spend + [HaltFact(HaltError, detail)], c) == Spend(spend, c) {
      SpendConcat(spend, [HaltFact(HaltError, detail)], c);
      assert [HaltFact(HaltError, detail)][1..] == [];
    }
  }

  /** One more batch in the ledger, with this spend and a halt behind it that ends
      the run in error. */
  ghost predicate Carries(was: seq<Entry>, now: seq<Entry>, spend: seq<Fact>) {
    && |now| == |was| + 1 && now[..|was|] == was
    && (forall c :: Spend(now[|was|].batch, c) == Spend(spend, c))
    && exists detail :: now[|was|].batch == spend + [RunTerminated(Errored(HaltError, detail, None, None))]
  }

  /** The outer safety net: halt the run behind the spend of whatever the crash
      interrupted, with a minimal detail if the store finds the first too large,
      and give the claim back if it is still `running` after all that. */
  method CommitCrashHalt(store: RunStore, ts: TurnState, spend: seq<Fact>, detail: string) returns (ghost carried: bool)
    requires store.Valid() && store.Balanced()
    modifies store, ts`pending
    ensures store.Valid() && store.Balanced() && ts.pending == old(ts.pending)
    ensures old(store.log.trace) <= store.log.trace
    ensures !Driven(store.st, store.claim)
    ensures !carried ==>
              store.ledger == old(store.ledger) && ShowsCause(store.log.trace[|old(store.log.trace)|..])
    ensures carried ==> Carries(old(store.ledger), store.ledger, spend)
  {
    ghost var was := store.log.trace;
    var row := store.GetState();
    if row.status != Running {
      LastShowsCause(was, store.log.trace);
      return false;
    }
    ghost var read := store.log.trace;
    var occ := new OccController(store);
    carried := HaltTwice(occ, ts, spend, detail);
    ghost var tried := store.log.trace;
    if occ.abandoned {
      store.ReleaseClaim();
    }
    ReleaseIfStillRunning(store);
    CauseStays(read, tried, store.log.trace);
    CauseIsLater(was, read, store.log.trace);
  }

  /** The clipped halt, and the minimal one if the store finds it too large. */
  method HaltTwice(occ: OccController, ts: TurnState, spend: seq<Fact>, detail: string) returns (ghost carried: bool)
    requires occ.Valid() && occ.store.Balanced() && !occ.abandoned
    modifies occ, occ.store, ts`pending
    ensures occ.Valid() && occ.store.Balanced() && ts.pending == old(ts.pending)
    ensures old(occ.store.log.trace) <= occ.store.log.trace
    ensures !carried ==>
              occ.store.ledger == old(occ.store.ledger)
              && ShowsCause(occ.store.log.trace[|old(occ.store.log.trace)|..])
    ensures carried ==> Carries(old(occ.store.ledger), occ.store.ledger, spend)
  {
    ghost var was := occ.store.log.trace;
    HaltCarries(spend, detail);
    var threw, fate := DriveCrashHalt(occ, ts, spend + [HaltFact(HaltError, detail)]);
    carried := fate.Some?;
    if threw == Some(PayloadTooLarge) {
      ghost var read := occ.store.log.trace;
      HaltCarries(spend, "executor crashed (detail exceeded payload cap)");
      threw, fate := DriveCrashHalt(
        occ, ts, spend + [HaltFact(HaltError, "executor crashed (detail exceeded payload cap)")]);
      carried := fate.Some?;
      CauseIsLater(was, read, occ.store.log.trace);
    }
  }

  lemma CauseIsLater(was: seq<Event>, read: seq<Event>, now: seq<Event>)
    requires was <= read <= now
    ensures ShowsCause(now[|read|..]) ==> ShowsCause(now[|was|..])
  {
    if ShowsCause(now[|read|..]) {
      var k :| 0 <= k < |now[|read|..]| && CauseAt(now[|read|..][k]);
      assert now[|was|..][k + |read| - |was|] == now[|read|..][k];
    }
  }

  lemma CauseStays(was: seq<Event>, tried: seq<Event>, now: seq<Event>)
    requires was <= tried <= now
    ensures ShowsCause(tried[|was|..]) ==> ShowsCause(now[|was|..])
  {
    if ShowsCause(tried[|was|..]) {
      var k :| 0 <= k < |tried[|was|..]| && CauseAt(tried[|was|..][k]);
      assert now[|was|..][k] == tried[|was|..][k];
    }
  }

  /** Drive one claimed run until its pass ends. However the store, the other
      writers and the handlers behave:
      - The pass took its turns, each doing the one thing its inputs called for
        after those before it, and ended as its last turn shows.
      - The run is then not `running` under this claim, unless shutdown was
        signalled by the last turn taken, or every turn the cap allows was taken
        and went on.
      - The ledger is what the turns entered, and behind it at most the crash
        halt. Every token and micro-unit that the handlers of the turns spent is
        on the log once, or in the spend of a batch the ledger names as lost, or
        still parked, or dropped by a fan-out that gave up, or `orphaned`: held
        by a commit that threw and that no crash halt carried.
      - A batch is named lost only on the evidence of the trace, and spend is
        orphaned only if the claim was lost, or after the crash the run was read
        stopped or the store threw again. */
  method RunOneGuarded(store: RunStore, script: nat -> Turn, maxTurns: nat)
    returns (ts: TurnState, crash: Option<Exn>, capped: bool, ghost pass: Pass)
    requires store.Valid() && store.Balanced() && store.ledger == []
    requires ScriptOk(script, store.claim)
    modifies store
    ensures store.Valid() && store.Balanced() && store.Evidenced() && old(store.log.trace) <= store.log.trace
    ensures PassEnded(pass.turnCrash, capped, ts.stopping, ts.turned, maxTurns)
    ensures crash == pass.turnCrash || crash == Some(OtherError)
    ensures PassShown(script, pass.acts, ts.turned) && (ts.stopping ==> ShutdownBy(script, |ts.turned| + 1))
    ensures |old(store.log.trace)| <= pass.turnedAt <= pass.crashedAt <= |store.log.trace|
    ensures LastShown(pass.acts, ts.turned, store.log.trace[..pass.turnedAt])
    ensures !Driven(store.st, store.claim)
            || (capped && |ts.turned| == maxTurns && AllContinued(ts.turned))
            || (crash == None && ShutdownBy(script, |ts.turned| + 1))
    ensures store.ledger == WroteBy(pass.acts) + pass.halt && |pass.halt| <= 1 && (crash == None ==> pass.halt == [])
    ensures forall c {:trigger Money(c)} :: Money(c) ==>
              Spend(store.st.landed, c) + LostSpend(store.ledger, c) + ParkedSpend(ts, c) + ts.dropped(c)
              + pass.orphaned(c)
              == SpentBy(pass.acts, c)
    ensures ts.pending == ParkedBy(pass.acts)
    ensures forall c {:trigger Money(c)} :: Money(c) ==> ts.dropped(c) == DroppedBy(pass.acts, c)
    ensures crash == None ==> forall c :: pass.orphaned(c) == 0
    ensures crash.Some? && crash != Some(ClaimLostError) && !ShowsCause(store.log.trace[pass.crashedAt..]) ==>
              forall c :: pass.orphaned(c) == 0
    ensures crash == Some(ClaimLostError) ==> !Driven(store.st, store.claim)
  {
    var occ := new OccController(store);
    ts := new TurnState();
    crash, capped, pass := RunPass(occ, ts, script, maxTurns);
  }

  method RunPass(occ: OccController, ts: TurnState, script: nat -> Turn, maxTurns: nat)
    returns (crash: Option<Exn>, capped: bool, ghost pass: Pass)
    requires Steady(occ, ts) && !ts.stopping && ts.turned == []
    requires PassBooks([], BooksOf(ts), occ.store.ledger)
    requires ScriptOk(script, occ.store.claim)
    modifies occ, occ.store, ts
    ensures occ.store.Valid() && occ.store.Balanced() && old(occ.store.log.trace) <= occ.store.log.trace
    ensures PassEnded(pass.turnCrash, capped, ts.stopping, ts.turned, maxTurns)
    ensures crash == pass.turnCrash || crash == Some(OtherError)
    ensures ts.stopping ==> ShutdownBy(script, |ts.turned| + 1)
    ensures PassShown(script, pass.acts, ts.turned)
    ensures |old(occ.store.log.trace)| <= pass.turnedAt <= pass.crashedAt <= |occ.store.log.trace|
    ensures LastShown(pass.acts, ts.turned, occ.store.log.trace[..pass.turnedAt])
    ensures !Driven(occ.store.st, occ.store.claim) || (crash == None && (capped || ts.stopping))
    ensures occ.store.ledger == WroteBy(pass.acts) + pass.halt && |pass.halt| <= 1
    ensures crash == None ==> pass.halt == []
    ensures forall c {:trigger Money(c)} :: Money(c) ==>
              Spend(occ.store.st.landed, c) + LostSpend(occ.store.ledger, c) + ParkedSpend(ts, c) + ts.dropped(c)
              + pass.orphaned(c)
              == SpentBy(pass.acts, c)
    ensures ts.pending == ParkedBy(pass.acts)
    ensures forall c {:trigger Money(c)} :: Money(c) ==> ts.dropped(c) == DroppedBy(pass.acts, c)
    ensures crash == None ==> forall c :: pass.orphaned(c) == 0
    ensures crash.Some? && crash != Some(ClaimLostError) && !ShowsCause(occ.store.log.trace[pass.crashedAt..]) ==>
              forall c :: pass.orphaned(c) == 0
  {
    ghost var turnCrash, acts, turnedAt;
    crash, capped, turnCrash, acts, turnedAt := RunOneInner(occ, ts, script, maxTurns);
    ghost var trace := occ.store.log.trace;
    ghost var halt, orphaned := EndPass(occ, ts, crash, acts);
    assert occ.store.log.trace[..turnedAt] == trace[..turnedAt];
    pass := Pass(acts, turnCrash, halt, orphaned, turnedAt, |trace|);
  }

  /** The crash net under the turns' books. */
  method EndPass(occ: OccController, ts: TurnState, crash: Option<Exn>, ghost acts: seq<Act>)
    returns (ghost halt: seq<Entry>, ghost orphaned: Column -> nat)
    requires occ.Valid() && occ.store.Balanced() && Accounted(occ, ts) && (crash == None ==> occ.held == [])
    requires forall c {:trigger Money(c)} :: Money(c) ==> ts.billed(c) == SpentBy(acts, c)
    requires crash == Some(ClaimLostError) ==> !Driven(occ.store.st, occ.store.claim)
    modifies occ.store, ts`pending
    ensures occ.store.Valid() && occ.store.Balanced() && ts.pending == old(ts.pending)
    ensures old(occ.store.log.trace) <= occ.store.log.trace
    ensures occ.store.ledger == old(occ.store.ledger) + halt && |halt| <= 1
    ensures crash == None ==> halt == [] && occ.store.st == old(occ.store.st) && forall c :: orphaned(c) == 0
    ensures crash.Some? ==> !Driven(occ.store.st, occ.store.claim)
    ensures forall c {:trigger Money(c)} :: Money(c) ==>
              Spend(occ.store.st.landed, c) + LostSpend(occ.store.ledger, c) + ParkedSpend(ts, c) + ts.dropped(c)
              + orphaned(c)
              == SpentBy(acts, c)
    ensures crash != Some(ClaimLostError) && !ShowsCause(occ.store.log.trace[|old(occ.store.log.trace)|..]) ==>
              forall c :: orphaned(c) == 0
  {
    ghost var was := occ.store.ledger;
    orphaned := CrashNet(occ, ts, crash);
    halt := occ.store.ledger[|was|..];
    PassMoney(occ, ts, was, acts, orphaned);
  }

  /** The money of a pass: the log, by the ledger, against what its turns spent. */
  lemma PassMoney(occ: OccController, ts: TurnState, was: seq<Entry>, acts: seq<Act>, orphaned: Column -> nat)
    requires occ.store.Balanced()
    requires forall c {:trigger Money(c)} :: Money(c) ==>
               && ts.billed(c) == SpentBy(acts, c)
               && ts.billed(c) == Offered(was, c) + Spend(HeldFacts(occ.held), c) + ParkedSpend(ts, c) + ts.dropped(c)
               && Offered(occ.store.ledger, c) + orphaned(c) == Offered(was, c) + Spend(HeldFacts(occ.held), c)
    ensures forall c {:trigger Money(c)} :: Money(c) ==>
              Spend(occ.store.st.landed, c) + LostSpend(occ.store.ledger, c) + ParkedSpend(ts, c) + ts.dropped(c)
              + orphaned(c)
              == SpentBy(acts, c)
  {
    forall c {:trigger Money(c)} | Money(c)
      ensures Spend(occ.store.st.landed, c) + LostSpend(occ.store.ledger, c) + ParkedSpend(ts, c) + ts.dropped(c)
              + orphaned(c)
              == SpentBy(acts, c)
    {
      LedgerConserves(occ.store.ledger, c);
    }
  }

  /** The story of a pass: what its turns did and how they ended; the crash halt's
      entry; what it orphaned; and where on the trace the turns and then the
      pass ended. */
  datatype Pass = Pass(
    acts: seq<Act>, turnCrash: Option<Exn>, halt: seq<Entry>, orphaned: Column -> nat, turnedAt: nat, crashedAt: nat)

  /** A pass that threw: nothing to do if the claim was lost, else the crash halt. */
  method CrashNet(occ: OccController, ts: TurnState, crash: Option<Exn>) returns (ghost orphaned: Column -> nat)
    requires occ.Valid() && occ.store.Balanced() && (crash == None ==> occ.held == [])
    requires crash == Some(ClaimLostError) ==> !Driven(occ.store.st, occ.store.claim)
    modifies occ.store, ts`pending
    ensures occ.store.Valid() && occ.store.Balanced() && ts.pending == old(ts.pending)
    ensures old(occ.store.log.trace) <= occ.store.log.trace
    ensures old(occ.store.ledger) <= occ.store.ledger && |occ.store.ledger| <= |old(occ.store.ledger)| + 1
    ensures crash == None ==> occ.store.ledger == old(occ.store.ledger) && occ.store.st == old(occ.store.st)
    ensures crash.Some? ==> !Driven(occ.store.st, occ.store.claim)
    ensures forall c {:trigger Money(c)} :: Money(c) ==>
              Offered(occ.store.ledger, c) + orphaned(c)
              == Offered(old(occ.store.ledger), c) + Spend(HeldFacts(occ.held), c)
    ensures crash == None || (crash != Some(ClaimLostError)
                              && !ShowsCause(occ.store.log.trace[|old(occ.store.log.trace)|..])) ==>
              forall c :: orphaned(c) == 0
  {
    ghost var held := HeldFacts(occ.held);
    orphaned := c => Spend(held, c);
    if crash == None {
      orphaned := c => 0;
    } else if crash != Some(ClaimLostError) {
      orphaned := HaltBehind(occ, ts);
    }
  }

  /** The crash halt behind everything the crash left held: it is in the ledger
      now, or orphaned for a cause the trace shows. */
  method HaltBehind(occ: OccController, ts: TurnState) returns (ghost orphaned: Column -> nat)
    requires occ.Valid() && occ.store.Balanced()
    modifies occ.store, ts`pending
    ensures occ.store.Valid() && occ.store.Balanced() && ts.pending == old(ts.pending)
    ensures old(occ.store.log.trace) <= occ.store.log.trace && !Driven(occ.store.st, occ.store.claim)
    ensures forall c {:trigger Money(c)} :: Money(c) ==>
              Offered(occ.store.ledger, c) + orphaned(c)
              == Offered(old(occ.store.ledger), c) + Spend(HeldFacts(occ.held), c)
    ensures old(occ.store.ledger) <= occ.store.ledger && |occ.store.ledger| <= |old(occ.store.ledger)| + 1
    ensures !ShowsCause(occ.store.log.trace[|old(occ.store.log.trace)|..]) ==> forall c :: orphaned(c) == 0
  {
    ghost var held, was := HeldFacts(occ.held), occ.store.ledger;
    var spend := occ.PendingSpend();
    var carried := CommitCrashHalt(occ.store, ts, spend, "executor crashed");
    orphaned := c => if carried then 0 else Spend(held, c);
    if carried {
      forall c {:trigger Money(c)} | Money(c)
        ensures Offered(occ.store.ledger, c) == Offered(was, c) + Spend(held, c)
      {
        SplitSpend(held, "crash", c);
        var e := occ.store.ledger[|was|];
        assert occ.store.ledger == was + [e] && [e][1..] == [];
        OfferedConcat(was, [e], c);
      }
    }
  }

  /** A batch of the pass whose evidence shows no other writer, no stopped run
      and no throw is on the log whole. */
  lemma EveryLossHasACause(ledger: seq<Entry>, evidence: seq<Window>, trace: seq<Event>, i: nat)
    requires AllJust(ledger, evidence, trace) && i < |ledger|
    requires QuietAll(trace[evidence[i].from..evidence[i].upto])
    ensures ledger[i].fate == Committed
  {
    assert JustAt(ledger[i], evidence[i], trace);
    QuietCommits(ledger[i], trace[evidence[i].from..evidence[i].upto]);
  }
}
