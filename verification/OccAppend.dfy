/** The optimistic append protocol of one run fiber: the store as the fiber and
    everyone else sees it, the conflict controller, and the commit loop every
    append site goes through. */
module OccAppend {
  import opened Wrappers
  import opened Facts
  import opened Seqs
  import opened ResultToFacts
  import opened ClaimBoundStore

  // ---------- the conflict controller ----------

  /** `HaltLanded`, `Stopped` and `Fenced` are the halted outcome: the run left
      `running`, or the claim did. `Abandoned` must give the claim back. */
  datatype Conflict = HaltLanded | Stopped | Fenced | Abandoned | Retry | ConflictThrew(exn: Exn)
  datatype SpendCommit = SpendLanded | SpendFenced | SpendRunGone | SpendNeverLanded | SpendThrew(exn: Exn)

  /** What the controller did at its ceiling: bounded halts, each against a row
      read anew and still `running`, until one landed, threw or was fenced, or
      the run was read stopped, or all of them lost their race. */
  ghost predicate HaltTries(r: Conflict, halt: seq<Fact>, tries: seq<Event>) {
    && |tries| <= 2 * HALT_APPEND_MAX_ATTEMPTS + 1
    && match r
       case HaltLanded => RacesTo(tries, halt, true, AppendLanded)
       case Fenced => RacesTo(tries, halt, true, AppendClaimLost)
       case ConflictThrew(exn) => RacesTo(tries, halt, true, AppendThrew(exn))
       case Stopped => StopsAt(tries, halt, true)
       case Abandoned =>
         && |tries| == 2 * HALT_APPEND_MAX_ATTEMPTS + 1
         && LostRaces(tries[..|tries| - 1], halt, true) && ReadAs(tries[|tries| - 1], true)
       case Retry => false
  }

  /** Below the ceiling it at most notes a warning; at the ceiling it halts. */
  ghost predicate ConflictTries(r: Conflict, count: nat, halt: seq<Fact>, tries: seq<Event>) {
    if count >= OCC_CEILING then HaltTries(r, halt, tries)
    else (r.Retry? && (tries == [] || tries == [Noted(None)]))
         || (r.ConflictThrew? && tries == [Noted(Some(r.exn))])
  }

  ghost predicate SpendTries(r: SpendCommit, spend: seq<Fact>, tries: seq<Event>) {
    match r
    case SpendLanded => if spend == [] then tries == [] else RacesTo(tries, spend, false, AppendLanded)
    case SpendFenced => RacesTo(tries, spend, false, AppendClaimLost)
    case SpendThrew(exn) => RacesTo(tries, spend, false, AppendThrew(exn))
    case SpendRunGone => StopsAt(tries, spend, false)
    case SpendNeverLanded => |tries| == 2 * HALT_APPEND_MAX_ATTEMPTS && LostRaces(tries, spend, false)
  }

  datatype Held = Held(token: nat, facts: seq<Fact>)

  function HeldFacts(held: seq<Held>): seq<Fact> {
    FlatMap((h: Held) => h.facts, held)
  }

  function Without(held: seq<Held>, token: nat): seq<Held> {
    if held == [] then []
    else if held[0].token == token then held[1..]
    else [held[0]] + Without(held[1..], token)
  }

  lemma {:induction false} WithoutLast(held: seq<Held>, h: Held)
    requires forall k :: k in held ==> k.token != h.token
    ensures Without(held + [h], h.token) == held
  {
    if held == [] {
      assert held + [h] == [h];
    } else {
      assert held[0] in held;
      WithoutLast(held[1..], h);
      assert (held + [h])[1..] == held[1..] + [h];
    }
  }

  class OccController {
    const store: RunStore
    var occCount: nat
    var occWarned: bool
    var abandoned: bool
    var nextToken: nat
    /** Batches mid-commit, in the order they were held. */
    var held: seq<Held>

    constructor (store: RunStore)
      requires store.Valid()
      ensures Valid() && this.store == store && held == [] && occCount == 0 && !abandoned
    {
      this.store := store;
      occCount, occWarned, abandoned, nextToken, held := 0, false, false, 0, [];
    }

    /** The count is of writes that really conflicted. */
    ghost predicate Valid()
      reads this, store
    {
      && store.Valid() && (forall h :: h in held ==> h.token < nextToken)
      && occCount <= store.log.conflicts
    }

    method HoldSpend(facts: seq<Fact>) returns (token: nat)
      requires Valid()
      modifies this`nextToken, this`held
      ensures Valid() && held == old(held) + [Held(token, facts)]
      ensures token == old(nextToken) && nextToken == token + 1
    {
      token, nextToken := nextToken, nextToken + 1;
      held := held + [Held(token, facts)];
    }

    method ReleaseSpend(token: nat)
      requires Valid()
      modifies this`held
      ensures held == Without(old(held), token)
      ensures Valid()
    {
      WithoutMembers(held, token);
      held := Without(held, token);
    }

    /** Release the batch held last. */
    method ReleaseLast(token: nat)
      requires Valid() && held != [] && held[|held| - 1].token == token
      requires forall h :: h in held[..|held| - 1] ==> h.token != token
      modifies this`held
      ensures Valid() && held == old(held[..|held| - 1])
    {
      var before, h := held[..|held| - 1], held[|held| - 1];
      assert held == before + [h];
      WithoutLast(before, h);
      ReleaseSpend(token);
    }

    lemma {:induction false} WithoutMembers(hs: seq<Held>, token: nat)
      ensures forall h :: h in Without(hs, token) ==> h in hs
    {
      if hs != [] {
        WithoutMembers(hs[1..], token);
      }
    }

    /** What a crash halt must carry. */
    function PendingSpend(): seq<Fact>
      reads this
    {
      SpendFactsFor(HeldFacts(held), "crash", ORIGIN)
    }

    /** One conflict. Below the ceiling it backs off; at the ceiling it halts
        the run behind the losing batch's spend, bounded, and says `halted`
        only once the run really left `running`. */
    method OnConflict(spend: seq<Fact>) returns (r: Conflict, ghost tries: seq<Event>)
      requires Valid() && occCount < store.log.conflicts
      modifies this`occCount, this`occWarned, this`abandoned, store`st, store`log
      ensures Valid() && occCount == old(occCount) + 1 && (old(store.Evidenced()) ==> store.Evidenced())
      ensures store.log.trace == old(store.log.trace) + tries
      ensures ConflictTries(r, occCount, spend + [OccHalt()], tries)
      ensures store.log.foreign >= old(store.log.foreign) && store.log.conflicts >= old(store.log.conflicts)
      ensures store.st.landed == old(store.st.landed) + if r.HaltLanded? then spend + [OccHalt()] else []
      ensures r.HaltLanded? || r.Stopped? || r.Fenced? ==> !Driven(store.st, store.claim)
      ensures r == ConflictThrew(ClaimLostError) ==> store.st.epoch != store.claim
      ensures r.Fenced? ==> store.st.epoch != store.claim
      ensures abandoned <==> old(abandoned) || r.Abandoned?
    {
      tries := [];
      occCount := occCount + 1;
      if occCount >= OCC_CEILING {
        r, tries := HaltExhausted(spend + [OccHalt()]);
        abandoned := abandoned || r.Abandoned?;
        return;
      }
      if occCount == OCC_WARN_AT && !occWarned {
        var raised := store.AppendObservability();
        tries := [Noted(raised)];
        if raised.Some? {
          return ConflictThrew(raised.value), tries;
        }
        occWarned := true;
      }
      store.Interfere();
      r := Retry;
    }

    /** The halt at the ceiling. */
    method HaltExhausted(halt: seq<Fact>) returns (r: Conflict, ghost tries: seq<Event>)
      requires Valid() && Parking(halt)
      modifies store`st, store`log
      ensures Valid() && (old(store.Evidenced()) ==> store.Evidenced())
      ensures store.log.trace == old(store.log.trace) + tries && HaltTries(r, halt, tries)
      ensures store.log.foreign >= old(store.log.foreign) && store.log.conflicts >= old(store.log.conflicts)
      ensures store.st.landed == old(store.st.landed) + if r.HaltLanded? then halt else []
      ensures r.HaltLanded? || r.Stopped? || r.Fenced? ==> !Driven(store.st, store.claim)
      ensures r.Fenced? ==> store.st.epoch != store.claim
      ensures r.ConflictThrew? ==> r.exn != ClaimLostError
    {
      var end, evs, at := store.Race(halt, true, HALT_APPEND_MAX_ATTEMPTS);
      tries := evs;
      match end
      case Won =>
        ParkingBatchStops(at.status, halt);
        r := HaltLanded;
      case FoundStopped => r := Stopped;
      case Fenced => r := Conflict.Fenced;
      case RaceThrew(exn) => r := ConflictThrew(exn);
      case AllLost =>
        var row := store.GetState();
        tries := evs + [Read(row)];
        assert tries[..|tries| - 1] == evs;
        r := if row.status != Running then Stopped else Abandoned;
    }

    method OnResolved() returns (raised: Option<Exn>)
      requires Valid()
      modifies this`occCount, this`occWarned, store`st, store`log
      ensures Valid() && Rely(old(store.st), store.st) && (old(store.Evidenced()) ==> store.Evidenced())
      ensures store.log.trace == old(store.log.trace) + if old(occCount) > 0 then [Noted(raised)] else []
      ensures old(occCount) == 0 ==> raised == None
      ensures store.log.foreign >= old(store.log.foreign) && store.log.conflicts == old(store.log.conflicts)
      ensures raised == None ==> occCount == 0 && !occWarned
      ensures raised == Some(ClaimLostError) ==> store.st.epoch != store.claim
      ensures raised != Some(PayloadTooLarge)
    {
      raised := None;
      if occCount > 0 {
        raised := store.AppendObservability();
        if raised.Some? {
          return;
        }
      }
      occCount, occWarned := 0, false;
    }

    /** Commit spend facts alone, bounded, whatever the run's status. */
    method CommitSpend(spend: seq<Fact>) returns (r: SpendCommit, ghost tries: seq<Event>)
      requires Valid()
      modifies store`st, store`log
      ensures Valid() && (old(store.Evidenced()) ==> store.Evidenced())
      ensures store.log.trace == old(store.log.trace) + tries && SpendTries(r, spend, tries)
      ensures store.log.foreign >= old(store.log.foreign) && store.log.conflicts >= old(store.log.conflicts)
      ensures store.st.landed == old(store.st.landed) + if r.SpendLanded? then spend else []
      ensures r.SpendFenced? ==> store.st.epoch != store.claim
      ensures r.SpendThrew? ==> r.exn != ClaimLostError
    {
      if spend == [] {
        return SpendLanded, [];
      }
      var end, evs, at := store.Race(spend, false, HALT_APPEND_MAX_ATTEMPTS);
      tries := evs;
      match end
      case Won => r := SpendLanded;
      case FoundStopped => r := SpendRunGone;
      case Fenced => r := SpendFenced;
      case RaceThrew(exn) => r := SpendThrew(exn);
      case AllLost => r := SpendNeverLanded;
    }
  }

  // ---------- the commit loop ----------

  /** The commit primitive an attempt is bound to. */
  datatype CommitKind = AppendOnce | ParkDefault | Lane
  datatype CommitResult = Ok | Occ | StatusStop | ClaimLost | CommitThrew(exn: Exn)

  /** What the re-plan hook answers for a fresh state. */
  datatype Replan = Next(facts: seq<Fact>) | Declined | HookThrew(exn: Exn)

  datatype CommitPlan = CommitPlan(
    expected: nat, kind: CommitKind, replan: Option<RunState -> Replan>, parks: bool)

  /** The hook's own store writes carry the claim, so it raises a lost claim
      only if the claim is lost. */
  ghost predicate HookFenced(plan: CommitPlan, claim: nat) {
    plan.replan.Some? ==> forall s :: plan.replan.value(s) == HookThrew(ClaimLostError) ==> s.epoch != claim
  }

  datatype DispatchOutcome = Terminal | Continue

  /** How a commit call ended. */
  datatype CommitEnd =
    | Landed | StatusStopped | ClaimGone
    | HaltedByOcc | GaveUp
    | ParkedForNextTurn | SpendOnly
    | Raised(exn: Exn, point: RaisePoint)
  datatype RaisePoint = InCommit | InReplan | InSpendCommit | AfterLanding

  /** The turn outcome the end maps to, given the plan's two outcomes. */
  function Outcome(end: CommitEnd, success: DispatchOutcome, status: DispatchOutcome): DispatchOutcome
    requires !end.Raised?
  {
    match end
    case Landed => success
    case StatusStopped => status
    case ParkedForNextTurn => Continue
    case SpendOnly => Continue
    case _ => Terminal
  }

  /** The turn state of one pass over the run. The ghost fields are its books:
      what every planned batch carried, and what was planned and then dropped
      without reaching the commit loop. */
  class TurnState {
    var pending: Option<seq<Fact>>          // a parked disposition
    var leaked: set<string>                 // the nodes whose handler leaked this pass
    var dispatches: nat
    var consecutiveAborts: nat
    var branchAborts: seq<(string, nat)>
    var stopping: bool                      // the shutdown signal
    ghost var billed: Column -> nat
    ghost var dropped: Column -> nat
    ghost var recommitting: bool            // the parked batch is back in the commit loop
    ghost var turned: seq<TurnEnd>          // how each turn of the pass ended

    constructor ()
      ensures pending == None && leaked == {} && dispatches == 0 && consecutiveAborts == 0 && branchAborts == []
      ensures !stopping && !recommitting && turned == [] && billed == (c => 0) && dropped == (c => 0)
    {
      pending, leaked, dispatches, consecutiveAborts, branchAborts := None, {}, 0, 0, [];
      stopping, recommitting, turned, billed, dropped := false, false, [], c => 0, c => 0;
    }

    ghost method Bill(facts: seq<Fact>)
      modifies this`billed
      ensures forall c :: billed(c) == old(billed)(c) + Spend(facts, c)
    {
      var before := billed;
      billed := c => before(c) + Spend(facts, c);
    }

    ghost method Drop(spend: Column -> nat)
      modifies this`billed, this`dropped
      ensures forall c :: billed(c) == old(billed)(c) + spend(c) && dropped(c) == old(dropped)(c) + spend(c)
    {
      var b, d := billed, dropped;
      billed, dropped := c => b(c) + spend(c), c => d(c) + spend(c);
    }
  }

  predicate Parking(facts: seq<Fact>) {
    facts != [] && Parks(facts[|facts| - 1])
  }

  function RaceOf(r: CommitResult): RaceEnd {
    match r
    case Ok => Won
    case Occ => AllLost
    case StatusStop => FoundStopped
    case ClaimLost => RaceEnd.Fenced
    case CommitThrew(exn) => RaceThrew(exn)
  }

  /** What an attempt did: nothing for an empty batch; the lane's bounded series;
      or one append at the given version, which on a conflict the park default
      follows with a read that tells a stopped run apart. */
  ghost predicate AttemptTries(r: CommitResult, kind: CommitKind, version: nat, facts: seq<Fact>, tries: seq<Event>) {
    if facts == [] then r.Ok? && tries == []
    else if kind == Lane then RaceTries(RaceOf(r), facts, true, FANOUT_COMMIT_ATTEMPTS, tries)
    else
      && tries != [] && tries[0].Tried? && tries[0].facts == facts && tries[0].expected == version
      && match r
         case Ok => |tries| == 1 && tries[0].result == AppendLanded
         case ClaimLost => |tries| == 1 && tries[0].result == AppendClaimLost
         case CommitThrew(exn) => |tries| == 1 && tries[0].result == AppendThrew(exn)
         case Occ =>
           && ConflictOn(tries[0], facts)
           && (|tries| == 1 || (kind == ParkDefault && |tries| == 2 && ReadAs(tries[1], true)))
         case StatusStop =>
           kind == ParkDefault && ConflictOn(tries[0], facts) && |tries| == 2 && ReadAs(tries[1], false)
  }

  function FateOf(r: CommitResult): Fate {
    match r
    case Ok => Committed
    case StatusStop => Lost(LeftRunning)
    case _ => Lost(ClaimMoved)
  }

  /** An attempt's store accesses bear out the fate it is entered under, or show
      the conflict it ended in. */
  lemma AttemptJust(r: CommitResult, kind: CommitKind, version: nat, facts: seq<Fact>, tries: seq<Event>)
    requires AttemptTries(r, kind, version, facts, tries)
    ensures !r.Occ? && !r.CommitThrew? ==> Just(Entry(facts, FateOf(r)), tries)
    ensures r.Occ? ==> Conflicted(tries, facts)
    ensures r.CommitThrew? ==> tries != [] && tries[|tries| - 1].Tried? && tries[|tries| - 1].facts == facts
                               && tries[|tries| - 1].result == AppendThrew(r.exn)
  {
    if r.Occ? {
      if kind == Lane {
        assert ConflictOn(tries[|tries| - 1], facts);
      } else {
        assert ConflictOn(tries[0], facts);
      }
    }
  }

  /** One attempt. The lane re-reads the version and the status each time, so
      it lands only on a running row; the others are bound to `version`. With
      nobody else moving, a running row met at its version takes the batch. */
  method Attempt(store: RunStore, kind: CommitKind, version: nat, facts: seq<Fact>)
    returns (r: CommitResult, ghost at: RunState, ghost tries: seq<Event>)
    requires store.Valid()
    modifies store`st, store`log
    ensures store.Valid() && (old(store.Evidenced()) ==> store.Evidenced())
    ensures store.log.trace == old(store.log.trace) + tries && AttemptTries(r, kind, version, facts, tries)
    ensures store.log.conflicts >= old(store.log.conflicts) + if r.Occ? then 1 else 0
    ensures store.st.landed == old(store.st.landed) + if r.Ok? then facts else []
    ensures r.Ok? && facts != [] ==> store.st == Appended(at, facts) && at.epoch == store.claim
    ensures r.Ok? && facts != [] ==> if kind == Lane then at.status == Running else at.version == version
    ensures r.StatusStop? ==> store.st.status != Running
    ensures r.ClaimLost? ==> store.st.epoch != store.claim
    ensures r.CommitThrew? ==> r.exn != ClaimLostError
    ensures store.log.foreign >= old(store.log.foreign)
    ensures (store.log.foreign == old(store.log.foreign) && Driven(old(store.st), store.claim)
             && (kind == Lane || version == old(store.st).version)) ==> r.Ok? || r.CommitThrew?
  {
    if facts == [] {
      return Ok, store.st, [];
    }
    if kind == Lane {
      var end, evs, met := store.Race(facts, true, FANOUT_COMMIT_ATTEMPTS);
      tries, at := evs, met;
      match end
      case Won => return Ok, at, tries;
      case FoundStopped => return StatusStop, at, tries;
      case Fenced => return ClaimLost, at, tries;
      case RaceThrew(exn) => return CommitThrew(exn), at, tries;
      case AllLost => return Occ, at, tries;
    }
    var res, met := store.AppendFact(facts, version);
    at, tries := met, [Tried(facts, version, met, res)];
    match res
    case AppendLanded => r := Ok;
    case AppendClaimLost => r := ClaimLost;
    case AppendThrew(exn) => r := CommitThrew(exn);
    case AppendConflict =>
      r := Occ;
      if kind == ParkDefault {
        var row := store.GetState();
        tries := [Tried(facts, version, met, res), Read(row)];
        if row.status != Running {
          r := StatusStop;
        }
      }
  }

  /** The one entry a commit call adds to the ledger, by how it ended: none
      while the batch's fate is open, that is while it is parked or still
      held. */
  ghost predicate FateLogged(r: CommitEnd, was: seq<Entry>, now: seq<Entry>, last: seq<Fact>) {
    match r
    case Landed => now == was + [Entry(last, Committed)]
    case StatusStopped => now == was + [Entry(last, Lost(LeftRunning))]
    case ClaimGone => now == was + [Entry(last, Lost(ClaimMoved))]
    case HaltedByOcc =>
      || now == was + [Entry(last, LedOccHalt)]
      || now == was + [Entry(last, Lost(LeftRunning))]
      || now == was + [Entry(last, Lost(ClaimMoved))]
    case GaveUp => now == was + [Entry(last, Lost(EveryHaltLost))]
    case ParkedForNextTurn => now == was
    case SpendOnly =>
      || now == was + [Entry(last, SpendAlone)]
      || now == was + [Entry(last, Lost(EverySpendLost))]
      || now == was + [Entry(last, Lost(ClaimMoved))]
      || now == was + [Entry(last, Lost(RunGone))]
    case Raised(_, InCommit) => now == was
    case Raised(_, InReplan) => now == was + [Entry(last, Lost(ReplanThrew))]
    case Raised(_, InSpendCommit) => now == was + [Entry(last, Lost(SpendAppendThrew))]
    case Raised(_, AfterLanding) => now == was + [Entry(last, Committed)]
  }

  /** The evidence for a new entry lies after this point of the trace. */
  ghost predicate EvidenceSince(was: seq<Window>, now: seq<Window>, from: nat) {
    now == was || (|now| == |was| + 1 && now[..|was|] == was && now[|was|].from >= from)
  }

  /** The last store access threw this. */
  predicate ThrewLast(trace: seq<Event>, exn: Exn) {
    trace != [] && (trace[|trace| - 1] == Noted(Some(exn))
                    || (trace[|trace| - 1].Tried? && trace[|trace| - 1].result == AppendThrew(exn)))
  }

  /** The trace since `from` shows the batch losing a race. */
  ghost predicate LostSince(trace: seq<Event>, from: nat, batch: seq<Fact>) {
    from <= |trace| && Conflicted(trace[from..], batch)
  }

  lemma LostSinceGrows(trace: seq<Event>, more: seq<Event>, from: nat, batch: seq<Fact>)
    requires LostSince(trace, from, batch)
    ensures LostSince(trace + more, from, batch) && (trace + more)[from..] == trace[from..] + more
  {
    assert (trace + more)[from..] == trace[from..] + more;
    ConflictedGrows(trace[from..], more, batch);
  }

  lemma LostSinceEarlier(trace: seq<Event>, from: nat, earlier: nat, batch: seq<Fact>)
    requires LostSince(trace, from, batch) && earlier <= from
    ensures LostSince(trace, earlier, batch)
  {
    var k :| 0 <= k < |trace[from..]| && ConflictOn(trace[from..][k], batch);
    assert trace[earlier..][k + from - earlier] == trace[from..][k];
  }

  // ---------- a batch with no re-plan ----------

  function SpendFate(r: SpendCommit): Fate {
    match r
    case SpendLanded => SpendAlone
    case SpendFenced => Lost(ClaimMoved)
    case SpendRunGone => Lost(RunGone)
    case SpendNeverLanded => Lost(EverySpendLost)
    case SpendThrew(_) => Lost(SpendAppendThrew)
  }

  lemma SpendJust(last: seq<Fact>, before: seq<Event>, r: SpendCommit, tries: seq<Event>)
    requires Conflicted(before, last)
    requires SpendTries(r, SpendFactsFor(last, "occ_replan_declined", ORIGIN), tries)
    ensures Just(Entry(last, SpendFate(r)), before + tries)
  {
    var all := before + tries;
    ConflictedGrows(before, tries, last);
    assert tries != [] ==> all[|all| - 1] == tries[|tries| - 1];
    if r.SpendNeverLanded? {
      assert all[|all| - 2 * HALT_APPEND_MAX_ATTEMPTS..] == tries;
    }
  }

  /** A conflicted batch with no in-turn re-plan: a parking lane keeps it whole
      for the next turn, any other drops it to its spend, committed now. */
  method ParkUnplanned(occ: OccController, ts: TurnState, parks: bool, last: seq<Fact>, ghost from: nat)
    returns (r: CommitEnd)
    requires occ.Valid() && occ.store.Balanced() && LostSince(occ.store.log.trace, from, last)
    modifies occ.store, ts`pending
    ensures occ.Valid() && occ.store.Balanced() && occ.store.log.conflicts >= old(occ.store.log.conflicts)
    ensures if parks then r.ParkedForNextTurn? && ts.pending == Some(last)
            else (r.SpendOnly? || (r.Raised? && r.point == InSpendCommit && r.exn != ClaimLostError))
                 && ts.pending == old(ts.pending)
    ensures FateLogged(r, old(occ.store.ledger), occ.store.ledger, last)
    ensures EvidenceSince(old(occ.store.evidence), occ.store.evidence, from)
    ensures old(occ.store.log.trace) <= occ.store.log.trace && LostSince(occ.store.log.trace, from, last)
    ensures r.Raised? ==> ThrewLast(occ.store.log.trace, r.exn)
    ensures occ.store.log.foreign >= old(occ.store.log.foreign)
  {
    if parks {
      ts.pending := Some(last);
      return ParkedForNextTurn;
    }
    r := CutToSpend(occ, last, from);
  }

  method CutToSpend(occ: OccController, last: seq<Fact>, ghost from: nat) returns (r: CommitEnd)
    requires occ.Valid() && occ.store.Balanced() && LostSince(occ.store.log.trace, from, last)
    modifies occ.store
    ensures occ.Valid() && occ.store.Balanced() && occ.store.log.conflicts >= old(occ.store.log.conflicts)
    ensures r.SpendOnly? || (r.Raised? && r.point == InSpendCommit && r.exn != ClaimLostError)
    ensures FateLogged(r, old(occ.store.ledger), occ.store.ledger, last)
    ensures EvidenceSince(old(occ.store.evidence), occ.store.evidence, from)
    ensures old(occ.store.log.trace) <= occ.store.log.trace && LostSince(occ.store.log.trace, from, last)
    ensures r.Raised? ==> ThrewLast(occ.store.log.trace, r.exn)
    ensures occ.store.log.foreign >= old(occ.store.log.foreign)
  {
    var spent, tries := occ.CommitSpend(SpendFactsFor(last, "occ_replan_declined", ORIGIN));
    SettleSpend(occ.store, last, spent, old(occ.store.log.trace), tries, from);
    r := if spent.SpendThrew? then Raised(spent.exn, InSpendCommit) else SpendOnly;
  }

  ghost method SettleSpend(
      store: RunStore, last: seq<Fact>, r: SpendCommit, was: seq<Event>, tries: seq<Event>, from: nat)
    requires store.Valid() && store.Evidenced() && LostSince(was, from, last) && store.log.trace == was + tries
    requires SpendTries(r, SpendFactsFor(last, "occ_replan_declined", ORIGIN), tries)
    requires store.st.landed == FlatMap(Part, store.ledger) + Part(Entry(last, SpendFate(r)))
    modifies store`ledger, store`evidence
    ensures store.Valid() && store.Balanced() && LostSince(store.log.trace, from, last)
    ensures store.ledger == old(store.ledger) + [Entry(last, SpendFate(r))]
    ensures EvidenceSince(old(store.evidence), store.evidence, from)
    ensures r.SpendThrew? ==> ThrewLast(store.log.trace, r.exn)
  {
    LostSinceGrows(was, tries, from, last);
    SpendJust(last, was[from..], r, tries);
    assert tries != [] ==> store.log.trace[|store.log.trace| - 1] == tries[|tries| - 1];
    store.Settle(last, SpendFate(r), from);
  }

  // ---------- the rounds ----------

  datatype Replanned = RunStopped | Unasked | Answer(next: Replan, version: nat)

  /** The re-plan for the next attempt: `shown` is the row the hook was asked
      about, read just now and still `running`. */
  method NextReplan(store: RunStore, plan: CommitPlan) returns (r: Replanned, ghost shown: Option<RunState>)
    requires store.Valid() && HookFenced(plan, store.claim)
    modifies store`st, store`log
    ensures store.Valid() && Rely(old(store.st), store.st) && (old(store.Evidenced()) ==> store.Evidenced())
    ensures store.log.conflicts == old(store.log.conflicts) && store.log.foreign >= old(store.log.foreign)
    ensures r.Unasked? <==> plan.replan == None
    ensures store.log.trace == old(store.log.trace) + if plan.replan == None then [] else [Read(store.st)]
    ensures r.RunStopped? ==> store.st.status != Running
    ensures shown == if r.Answer? then Some(store.st) else None
    ensures r.Answer? ==>
              && store.st.status == Running && r.version == store.st.version
              && r.next == plan.replan.value(store.st)
              && (r.next == HookThrew(ClaimLostError) ==> store.st.epoch != store.claim)
  {
    if plan.replan == None {
      return Unasked, None;
    }
    var row := store.GetState();
    if row.status != Running {
      return RunStopped, None;
    }
    var hook := plan.replan.value;
    r, shown := Answer(hook(row), row.version), Some(row);
  }

  function ConflictFate(r: Conflict): Fate {
    match r
    case HaltLanded => LedOccHalt
    case Stopped => Lost(LeftRunning)
    case Fenced => Lost(ClaimMoved)
    case _ => Lost(EveryHaltLost)
  }

  lemma ConflictJust(last: seq<Fact>, before: seq<Event>, r: Conflict, tries: seq<Event>)
    requires Conflicted(before, last) && !r.Retry? && !r.ConflictThrew?
    requires HaltTries(r, SpendFactsFor(last, "occ_exhausted", ORIGIN) + [OccHalt()], tries)
    ensures Just(Entry(last, ConflictFate(r)), before + tries)
  {
    var all := before + tries;
    ConflictedGrows(before, tries, last);
    assert all[|all| - 1] == tries[|tries| - 1];
    if r.Abandoned? {
      assert all[|all| - 2 * HALT_APPEND_MAX_ATTEMPTS - 1..|all| - 1] == tries[..|tries| - 1];
    }
  }

  /** Enter the fate a conflict's halt gave the batch. */
  ghost method SettleConflict(
      store: RunStore, last: seq<Fact>, r: Conflict, was: seq<Event>, tries: seq<Event>, from: nat)
    requires store.Valid() && store.Evidenced() && LostSince(was, from, last) && store.log.trace == was + tries
    requires !r.Retry? && !r.ConflictThrew?
    requires HaltTries(r, SpendFactsFor(last, "occ_exhausted", ORIGIN) + [OccHalt()], tries)
    requires store.st.landed == FlatMap(Part, store.ledger) + Part(Entry(last, ConflictFate(r)))
    modifies store`ledger, store`evidence
    ensures store.Valid() && store.Balanced()
    ensures store.ledger == old(store.ledger) + [Entry(last, ConflictFate(r))]
    ensures EvidenceSince(old(store.evidence), store.evidence, from)
  {
    LostSinceGrows(was, tries, from, last);
    ConflictJust(last, was[from..], r, tries);
    store.Settle(last, ConflictFate(r), from);
  }

  /** Drive the controller on a conflict, and settle a batch the conflict ends.
      `None` means the loop goes on. */
  method DriveConflict(
      occ: OccController, ts: TurnState, parks: bool, token: nat, last: seq<Fact>, ghost from: nat)
    returns (r: Option<CommitEnd>)
    requires occ.Valid() && occ.store.Balanced() && occ.occCount < occ.store.log.conflicts
    requires LostSince(occ.store.log.trace, from, last)
    requires occ.held != [] && occ.held[|occ.held| - 1] == Held(token, last)
    requires forall h :: h in occ.held[..|occ.held| - 1] ==> h.token != token
    modifies occ, occ.store, ts`pending
    ensures occ.Valid() && occ.store.Balanced() && occ.occCount == old(occ.occCount) + 1
    ensures occ.nextToken == old(occ.nextToken)
    ensures LostSince(occ.store.log.trace, from, last) && old(occ.store.log.trace) <= occ.store.log.trace
    ensures occ.store.log.foreign >= old(occ.store.log.foreign)
    ensures r == None ==> occ.occCount < OCC_CEILING && occ.store.ledger == old(occ.store.ledger)
    ensures r.Some? ==> r.value.HaltedByOcc? || r.value.GaveUp? || (r.value.Raised? && r.value.point == InCommit)
    ensures r.Some? && !r.value.Raised? ==> occ.occCount >= OCC_CEILING
    ensures occ.held == if r.Some? && r.value.Raised? then old(occ.held) else old(occ.held[..|occ.held| - 1])
    ensures r.Some? ==> FateLogged(r.value, old(occ.store.ledger), occ.store.ledger, last)
    ensures EvidenceSince(old(occ.store.evidence), occ.store.evidence, from)
    ensures r == Some(HaltedByOcc) ==> !Driven(occ.store.st, occ.store.claim)
    ensures occ.abandoned <==> old(occ.abandoned) || r == Some(GaveUp)
    ensures r.Some? && r.value.Raised? ==> ThrewLast(occ.store.log.trace, r.value.exn)
    ensures r.Some? && r.value.Raised? && r.value.exn == ClaimLostError ==> occ.store.st.epoch != occ.store.claim
    ensures ts.pending == if r.Some? && !r.value.Raised? && parks then None else old(ts.pending)
  {
    ghost var was := occ.store.log.trace;
    var conflict, tries := FaceConflict(occ, token, last);
    LostSinceGrows(was, tries, from, last);
    if conflict.ConflictThrew? {
      return Some(Raised(conflict.exn, InCommit));
    }
    if conflict.Retry? {
      return None;
    }
    SettleConflict(occ.store, last, conflict, was, tries, from);
    if parks {
      ts.pending := None;
    }
    r := Some(if conflict.Abandoned? then GaveUp else HaltedByOcc);
  }

  /** Run the controller, and let the batch go unless it threw. */
  method FaceConflict(occ: OccController, token: nat, last: seq<Fact>) returns (r: Conflict, ghost tries: seq<Event>)
    requires occ.Valid() && occ.occCount < occ.store.log.conflicts
    requires occ.held != [] && occ.held[|occ.held| - 1] == Held(token, last)
    requires forall h :: h in occ.held[..|occ.held| - 1] ==> h.token != token
    modifies occ, occ.store`st, occ.store`log
    ensures occ.Valid() && occ.occCount == old(occ.occCount) + 1 && occ.nextToken == old(occ.nextToken)
    ensures old(occ.store.Evidenced()) ==> occ.store.Evidenced()
    ensures occ.held == if r.ConflictThrew? then old(occ.held) else old(occ.held[..|occ.held| - 1])
    ensures occ.store.log.trace == old(occ.store.log.trace) + tries
    ensures ConflictTries(r, occ.occCount, SpendFactsFor(last, "occ_exhausted", ORIGIN) + [OccHalt()], tries)
    ensures occ.store.st.landed
            == old(occ.store.st.landed)
               + if r.HaltLanded? then SpendFactsFor(last, "occ_exhausted", ORIGIN) + [OccHalt()] else []
    ensures occ.store.log.foreign >= old(occ.store.log.foreign)
    ensures r.HaltLanded? || r.Stopped? || r.Fenced? ==> !Driven(occ.store.st, occ.store.claim)
    ensures occ.abandoned <==> old(occ.abandoned) || r.Abandoned?
    ensures r.ConflictThrew? ==> ThrewLast(occ.store.log.trace, r.exn)
    ensures r == ConflictThrew(ClaimLostError) ==> occ.store.st.epoch != occ.store.claim
  {
    r, tries := occ.OnConflict(SpendFactsFor(last, "occ_exhausted", ORIGIN));
    if r.ConflictThrew? {
      assert occ.store.log.trace[|occ.store.log.trace| - 1] == tries[|tries| - 1];
    } else {
      occ.ReleaseLast(token);
    }
  }

  /** One attempt of the loop; unless it conflicted or threw, the batch's fate
      is settled. */
  method AttemptSettled(store: RunStore, kind: CommitKind, version: nat, last: seq<Fact>) returns (res: CommitResult)
    requires store.Valid() && store.Balanced()
    modifies store
    ensures store.Valid() && store.Balanced()
    ensures store.ledger
            == old(store.ledger) + if res.Occ? || res.CommitThrew? then [] else [Entry(last, FateOf(res))]
    ensures EvidenceSince(old(store.evidence), store.evidence, |old(store.log.trace)|)
    ensures old(store.log.trace) <= store.log.trace
    ensures res.Occ? ==> LostSince(store.log.trace, |old(store.log.trace)|, last)
    ensures store.log.conflicts >= old(store.log.conflicts) + if res.Occ? then 1 else 0
    ensures store.log.foreign >= old(store.log.foreign)
    ensures (store.log.foreign == old(store.log.foreign) && Driven(old(store.st), store.claim)
             && (kind == Lane || version == old(store.st).version)) ==> res.Ok? || res.CommitThrew?
    ensures res.StatusStop? || res.ClaimLost? || (res.Ok? && Parking(last)) ==> !Driven(store.st, store.claim)
    ensures res.CommitThrew? ==> res.exn != ClaimLostError && ThrewLast(store.log.trace, res.exn)
  {
    ghost var was := store.log.trace;
    ghost var at, tries;
    res, at, tries := Attempt(store, kind, version, last);
    AttemptShows(was, tries, res, kind, version, last);
    if !res.Occ? && !res.CommitThrew? {
      store.Settle(last, FateOf(res), |was|);
      if res.Ok? && Parking(last) {
        ParkingBatchStops(at.status, last);
      }
    }
  }

  /** Hold the batch and try it; unless it conflicted or threw, release it. */
  method AttemptHeld(occ: OccController, kind: CommitKind, version: nat, last: seq<Fact>)
    returns (res: CommitResult, token: nat)
    requires occ.Valid() && occ.store.Balanced()
    modifies occ`held, occ`nextToken, occ.store
    ensures occ.Valid() && occ.store.Balanced()
    ensures token == old(occ.nextToken) && occ.nextToken == token + 1
    ensures occ.held == old(occ.held) + if res.Occ? || res.CommitThrew? then [Held(token, last)] else []
    ensures occ.store.ledger
            == old(occ.store.ledger) + if res.Occ? || res.CommitThrew? then [] else [Entry(last, FateOf(res))]
    ensures EvidenceSince(old(occ.store.evidence), occ.store.evidence, |old(occ.store.log.trace)|)
    ensures old(occ.store.log.trace) <= occ.store.log.trace
    ensures res.Occ? ==> LostSince(occ.store.log.trace, |old(occ.store.log.trace)|, last)
    ensures occ.store.log.conflicts >= old(occ.store.log.conflicts) + if res.Occ? then 1 else 0
    ensures occ.store.log.foreign >= old(occ.store.log.foreign)
    ensures (occ.store.log.foreign == old(occ.store.log.foreign) && Driven(old(occ.store.st), occ.store.claim)
             && (kind == Lane || version == old(occ.store.st).version)) ==> res.Ok? || res.CommitThrew?
    ensures res.StatusStop? || res.ClaimLost? || (res.Ok? && Parking(last)) ==> !Driven(occ.store.st, occ.store.claim)
    ensures res.CommitThrew? ==> res.exn != ClaimLostError && ThrewLast(occ.store.log.trace, res.exn)
  {
    ghost var before := occ.held;
    token := occ.HoldSpend(last);
    res := AttemptSettled(occ.store, kind, version, last);
    if !res.Occ? && !res.CommitThrew? {
      assert occ.held[..|before|] == before;
      occ.ReleaseLast(token);
    }
  }

  /** What an attempt leaves on the trace behind what was there. */
  lemma AttemptShows(
      was: seq<Event>, tries: seq<Event>, r: CommitResult, kind: CommitKind, version: nat, facts: seq<Fact>)
    requires AttemptTries(r, kind, version, facts, tries)
    ensures var now := was + tries;
            && now[|was|..] == tries && was <= now
            && (!r.Occ? && !r.CommitThrew? ==> Just(Entry(facts, FateOf(r)), now[|was|..]))
            && (r.Occ? ==> LostSince(now, |was|, facts))
            && (r.CommitThrew? ==> ThrewLast(now, r.exn))
  {
    AttemptJust(r, kind, version, facts, tries);
    assert (was + tries)[|was|..] == tries;
    assert tries != [] ==> (was + tries)[|was + tries| - 1] == tries[|tries| - 1];
  }

  datatype Round = Ended(end: CommitEnd) | Again(facts: seq<Fact>, version: nat)

  /** The hook gives this answer to some state. */
  ghost predicate Answers(plan: CommitPlan, answer: Replan) {
    plan.replan.Some? && exists s :: plan.replan.value(s) == answer
  }

  predicate HookSays(plan: CommitPlan, shown: Option<RunState>, answer: Replan) {
    plan.replan.Some? && shown.Some? && plan.replan.value(shown.value) == answer
  }

  /** Which ends a plan can have, given the row the hook was last shown: only a
      parking lane parks, only another is cut to its spend, either only if the
      plan has no re-plan or the hook declined that row; and the loop raises
      from the hook exactly when the hook threw for it. */
  predicate CanEnd(plan: CommitPlan, r: CommitEnd, shown: Option<RunState>) {
    && (match r
        case ParkedForNextTurn => plan.parks && (plan.replan == None || HookSays(plan, shown, Declined))
        case SpendOnly => !plan.parks && (plan.replan == None || HookSays(plan, shown, Declined))
        case Raised(exn, InSpendCommit) => !plan.parks && (plan.replan == None || HookSays(plan, shown, Declined))
        case Raised(exn, InReplan) => HookSays(plan, shown, HookThrew(exn))
        case Raised(exn, AfterLanding) => exn != PayloadTooLarge
        case _ => true)
    && (shown.Some? && plan.replan.Some? && plan.replan.value(shown.value).HookThrew? ==>
          r.Raised? && r.point == InReplan)
  }

  /** What an end says of the run: whenever it promises the run stopped, it has
      left `running` under this claim. */
  ghost predicate RunLeft(r: CommitEnd, last: seq<Fact>, store: RunStore)
    reads store
  {
    r.StatusStopped? || r.ClaimGone? || r.HaltedByOcc?
    || ((r.Landed? || (r.Raised? && r.point == AfterLanding)) && Parking(last))
    || (r.Raised? && r.exn == ClaimLostError)
    ==> !Driven(store.st, store.claim)
  }

  /** What the trace says of an end whose batch is not in the ledger: it threw,
      or it was parked after losing a race. */
  ghost predicate OpenEnd(r: CommitEnd, trace: seq<Event>, from: nat, last: seq<Fact>) {
    && (r.Raised? && r.point == InCommit ==> ThrewLast(trace, r.exn))
    && (r.ParkedForNextTurn? ==> LostSince(trace, from, last))
  }

  // ---------- spend lost to a throw ----------

  /** A batch is lost to the re-plan hook exactly when the hook threw for the row
      it was shown, whatever the batch had spent; and to its spend append
      exactly when that append threw, which takes a lane that does not park,
      with no hook or one that declined. Nothing of it is on the log. */
  lemma LostToThrow(
      plan: CommitPlan, r: CommitEnd, shown: Option<RunState>, was: seq<Entry>, now: seq<Entry>, last: seq<Fact>,
      c: Column)
    requires CanEnd(plan, r, shown) && FateLogged(r, was, now, last)
    ensures now == was + [Entry(last, Lost(ReplanThrew))] <==> exists exn :: HookSays(plan, shown, HookThrew(exn))
    ensures now == was + [Entry(last, Lost(SpendAppendThrew))] <==> r.Raised? && r.point == InSpendCommit
    ensures r.Raised? && r.point == InSpendCommit ==>
              !plan.parks && (plan.replan == None || HookSays(plan, shown, Declined))
    ensures r.Raised? && (r.point == InReplan || r.point == InSpendCommit) ==>
              Spend(FlatMap(Part, now), c) == Spend(FlatMap(Part, was), c)
  {
    if r.Raised? && (r.point == InReplan || r.point == InSpendCommit) {
      var e := Entry(last, if r.point == InReplan then Lost(ReplanThrew) else Lost(SpendAppendThrew));
      assert now == was + [e];
      FlatMapSnoc(Part, was, e);
      assert FlatMap(Part, now) == FlatMap(Part, was);
    }
    var lost := was + [Entry(last, Lost(ReplanThrew))];
    if now == lost {
      assert now[|was|] == lost[|was|];
      assert r.Raised? && r.point == InReplan && HookSays(plan, shown, HookThrew(r.exn));
    }
    if exn :| HookSays(plan, shown, HookThrew(exn)) {
      assert now == lost;
    }
    var spent := was + [Entry(last, Lost(SpendAppendThrew))];
    assert now == spent ==> now[|was|] == spent[|was|];
  }

  /** Such a batch: a completed turn of seven micro-units meets one conflict, and
      its hook throws for the running row it is shown. The trace bears the loss
      out, the loop can only raise, and the seven are on no log; cut to its
      spend instead, the batch would have kept them. */
  lemma ThrowingHookLosesBatch()
    ensures var batch := [NodeCompleted("plan", 0, 0, SEVEN, "build")];
            var row := RunState(1, 0, Running, []);
            var plan := CommitPlan(0, AppendOnce, Some(s => HookThrew(OtherError)), false);
            var entry := Entry(batch, Lost(ReplanThrew));
            && Just(entry, [Tried(batch, 0, row, AppendConflict), Read(row)])
            && (forall r :: CanEnd(plan, r, Some(row)) <==> r == Raised(OtherError, InReplan))
            && FateLogged(Raised(OtherError, InReplan), [], [entry], batch)
            && Spend(batch, Cost) == 7 && Spend(Part(entry), Cost) == 0
            && Spend(Part(Entry(batch, SpendAlone)), Cost) == 7
  {
    var batch := [NodeCompleted("plan", 0, 0, SEVEN, "build")];
    var row := RunState(1, 0, Running, []);
    assert ConflictOn([Tried(batch, 0, row, AppendConflict), Read(row)][0], batch);
    assert batch[1..] == [];
    PartSpend(Entry(batch, SpendAlone), Cost);
  }

  const SEVEN := Usage(5, 7, 5, 0, 0, 0, 7, 0, 0, 0)

  /** Nor does a throwing spend append leave anything. */
  lemma ThrowingSpendAppendLosesBatch()
    ensures var batch := [NodeCompleted("plan", 0, 0, SEVEN, "build")];
            var row := RunState(1, 0, Running, []);
            var spend := SpendFactsFor(batch, "occ_replan_declined", ORIGIN);
            var entry := Entry(batch, Lost(SpendAppendThrew));
            && Just(entry, [Tried(batch, 0, row, AppendConflict), Read(row),
                            Tried(spend, 1, row, AppendThrew(OtherError))])
            && CanEnd(CommitPlan(0, AppendOnce, None, false), Raised(OtherError, InSpendCommit), None)
            && Spend(batch, Cost) == 7 && Spend(spend, Cost) == 7 && Spend(Part(entry), Cost) == 0
  {
    var batch := [NodeCompleted("plan", 0, 0, SEVEN, "build")];
    var row := RunState(1, 0, Running, []);
    var spend := SpendFactsFor(batch, "occ_replan_declined", ORIGIN);
    var evs := [Tried(batch, 0, row, AppendConflict), Read(row), Tried(spend, 1, row, AppendThrew(OtherError))];
    assert ConflictOn(evs[0], batch);
    assert batch[1..] == [];
    SplitSpend(batch, "occ_replan_declined", Cost);
  }

  function PendingAfter(parks: bool, r: CommitEnd, last: seq<Fact>, was: Option<seq<Fact>>): Option<seq<Fact>> {
    if !parks || r.Raised? then was else if r.ParkedForNextTurn? then Some(last) else None
  }

  /** The run was read stopped: the batch is lost, a parked one dropped. */
  method FoundLeft(occ: OccController, ts: TurnState, parks: bool, last: seq<Fact>, ghost from: nat)
    requires occ.Valid() && occ.store.Balanced() && from < |occ.store.log.trace|
    requires ReadAs(occ.store.log.trace[|occ.store.log.trace| - 1], false)
    modifies occ.store`ledger, occ.store`evidence, ts`pending
    ensures occ.Valid() && occ.store.Balanced()
    ensures FateLogged(StatusStopped, old(occ.store.ledger), occ.store.ledger, last)
    ensures EvidenceSince(old(occ.store.evidence), occ.store.evidence, from)
    ensures ts.pending == PendingAfter(parks, StatusStopped, last, old(ts.pending))
  {
    occ.store.Settle(last, Lost(LeftRunning), from);
    if parks {
      ts.pending := None;
    }
  }

  /** The controller backed off: re-plan against fresh state, or park. */
  method ReplanOrPark(occ: OccController, ts: TurnState, plan: CommitPlan, last: seq<Fact>, ghost from: nat)
    returns (round: Round, ghost shown: Option<RunState>)
    requires occ.Valid() && occ.store.Balanced() && HookFenced(plan, occ.store.claim)
    requires LostSince(occ.store.log.trace, from, last)
    modifies occ.store, ts`pending
    ensures occ.Valid() && occ.store.Balanced() && old(occ.store.log.trace) <= occ.store.log.trace
    ensures LostSince(occ.store.log.trace, from, last)
    ensures occ.store.log.foreign >= old(occ.store.log.foreign)
    ensures shown.Some? ==> Read(shown.value) in occ.store.log.trace && shown.value.status == Running
    ensures round.Again? ==>
              && occ.store.ledger == old(occ.store.ledger) && occ.store.evidence == old(occ.store.evidence)
              && ts.pending == old(ts.pending) && HookSays(plan, shown, Next(round.facts))
    ensures round.Ended? ==>
              && FateLogged(round.end, old(occ.store.ledger), occ.store.ledger, last)
              && EvidenceSince(old(occ.store.evidence), occ.store.evidence, from)
              && RunLeft(round.end, last, occ.store) && CanEnd(plan, round.end, shown)
              && !round.end.Landed? && !round.end.GaveUp? && !round.end.HaltedByOcc? && !round.end.ClaimGone?
              && !(round.end.Raised? && (round.end.point == InCommit || round.end.point == AfterLanding))
              && ts.pending == PendingAfter(plan.parks, round.end, last, old(ts.pending))
              && OpenEnd(round.end, occ.store.log.trace, from, last)
  {
    ghost var was := occ.store.log.trace;
    var answer, row := NextReplan(occ.store, plan);
    shown := row;
    ghost var more := occ.store.log.trace[|was|..];
    LostSinceGrows(was, more, from, last);
    assert occ.store.log.trace == was + more;
    if answer.RunStopped? {
      FoundLeft(occ, ts, plan.parks, last, from);
      return Ended(StatusStopped), shown;
    }
    if answer.Unasked? || answer.next == Declined {
      var end := ParkUnplanned(occ, ts, plan.parks, last, from);
      return Ended(end), shown;
    }
    match answer.next
    case HookThrew(exn) =>
      occ.store.Settle(last, Lost(ReplanThrew), from);
      round := Ended(Raised(exn, InReplan));
    case Next(facts) =>
      round := Again(facts, answer.version);
  }

  /** The batch conflicted: drive the controller, then re-plan or park. */
  method AfterConflict(
      occ: OccController, ts: TurnState, plan: CommitPlan, token: nat, last: seq<Fact>, ghost from: nat)
    returns (round: Round, ghost shown: Option<RunState>)
    requires occ.Valid() && occ.store.Balanced() && HookFenced(plan, occ.store.claim)
    requires occ.occCount < occ.store.log.conflicts && LostSince(occ.store.log.trace, from, last)
    requires occ.held != [] && occ.held[|occ.held| - 1] == Held(token, last)
    requires forall h :: h in occ.held[..|occ.held| - 1] ==> h.token != token
    modifies occ, occ.store, ts`pending
    ensures occ.Valid() && occ.store.Balanced() && old(occ.store.log.trace) <= occ.store.log.trace
    ensures LostSince(occ.store.log.trace, from, last)
    ensures occ.nextToken == old(occ.nextToken) && occ.occCount == old(occ.occCount) + 1
    ensures occ.store.log.foreign >= old(occ.store.log.foreign)
    ensures shown.Some? ==> Read(shown.value) in occ.store.log.trace && shown.value.status == Running
    ensures round.Again? ==>
              && occ.occCount < OCC_CEILING && HookSays(plan, shown, Next(round.facts))
              && occ.store.ledger == old(occ.store.ledger) && occ.held == old(occ.held[..|occ.held| - 1])
              && occ.store.evidence == old(occ.store.evidence)
              && occ.abandoned == old(occ.abandoned) && ts.pending == old(ts.pending)
    ensures round.Ended? ==>
              && FateLogged(round.end, old(occ.store.ledger), occ.store.ledger, last)
              && EvidenceSince(old(occ.store.evidence), occ.store.evidence, from)
              && occ.held == (if round.end.Raised? && round.end.point == InCommit
                              then old(occ.held) else old(occ.held[..|occ.held| - 1]))
              && RunLeft(round.end, last, occ.store) && CanEnd(plan, round.end, shown)
              && OpenEnd(round.end, occ.store.log.trace, from, last)
              && (occ.abandoned <==> old(occ.abandoned) || round.end.GaveUp?)
              && (round.end.HaltedByOcc? || round.end.GaveUp? ==> occ.occCount >= OCC_CEILING)
              && !round.end.Landed?
              && ts.pending == PendingAfter(plan.parks, round.end, last, old(ts.pending))
  {
    var ended := DriveConflict(occ, ts, plan.parks, token, last, from);
    if ended.Some? {
      return Ended(ended.value), None;
    }
    round, shown := ReplanOrPark(occ, ts, plan, last, from);
  }

  /** The batch landed, or the run or the claim is gone; a re-planned landing
      resolves the conflict count, which may raise. */
  method AfterAttempt(
      occ: OccController, ts: TurnState, plan: CommitPlan, res: CommitResult, last: seq<Fact>, replanned: bool)
    returns (end: CommitEnd)
    requires occ.Valid() && occ.store.Balanced() && !res.Occ? && !res.CommitThrew?
    requires res.StatusStop? || res.ClaimLost? || Parking(last) ==> !Driven(occ.store.st, occ.store.claim)
    modifies occ`occCount, occ`occWarned, occ.store`st, occ.store`log, ts`pending
    ensures occ.Valid() && occ.store.Balanced() && old(occ.store.log.trace) <= occ.store.log.trace
    ensures occ.store.log.foreign >= old(occ.store.log.foreign)
    ensures RunLeft(end, last, occ.store) && CanEnd(plan, end, None)
    ensures match res
            case Ok => if replanned then end.Landed? || (end.Raised? && end.point == AfterLanding) else end.Landed?
            case StatusStop => end.StatusStopped?
            case _ => end.ClaimGone?
    ensures ts.pending == PendingAfter(plan.parks, end, last, old(ts.pending))
  {
    if res.Ok? && replanned {
      var raised := occ.OnResolved();
      if raised.Some? {
        return Raised(raised.value, AfterLanding);
      }
    }
    if plan.parks {
      ts.pending := None;
    }
    return if res.Ok? then Landed else if res.ClaimLost? then ClaimGone else StatusStopped;
  }

  /** The first half of a round: hold the batch and try it. `None` is a conflict,
      with the batch still held. */
  method TryBatch(
      occ: OccController, ts: TurnState, plan: CommitPlan, version: nat, last: seq<Fact>, replanned: bool)
    returns (end: Option<CommitEnd>, token: nat)
    requires occ.Valid() && occ.store.Balanced() && HookFenced(plan, occ.store.claim)
    modifies occ, occ.store, ts`pending
    ensures occ.Valid() && occ.store.Balanced() && old(occ.store.log.trace) <= occ.store.log.trace
    ensures token == old(occ.nextToken) && occ.nextToken == token + 1 && occ.abandoned == old(occ.abandoned)
    ensures occ.store.log.foreign >= old(occ.store.log.foreign)
    ensures (occ.store.log.foreign == old(occ.store.log.foreign) && Driven(old(occ.store.st), occ.store.claim)
             && (plan.kind == Lane || version == old(occ.store.st).version)) ==>
              end.Some? && (end.value.Landed? || end.value.Raised?)
    ensures end == None ==>
              && LostSince(occ.store.log.trace, |old(occ.store.log.trace)|, last)
              && occ.occCount == old(occ.occCount) < occ.store.log.conflicts
              && occ.held == old(occ.held) + [Held(token, last)] && ts.pending == old(ts.pending)
              && occ.store.ledger == old(occ.store.ledger) && occ.store.evidence == old(occ.store.evidence)
    ensures end.Some? ==>
              && (end.value.Landed? || end.value.StatusStopped? || end.value.ClaimGone?
                  || (end.value.Raised? && end.value.point == InCommit)
                  || (end.value.Raised? && end.value.point == AfterLanding && replanned))
              && FateLogged(end.value, old(occ.store.ledger), occ.store.ledger, last)
              && EvidenceSince(old(occ.store.evidence), occ.store.evidence, |old(occ.store.log.trace)|)
              && occ.held == old(occ.held) + (if end.value.Raised? && end.value.point == InCommit
                                              then [Held(token, last)] else [])
              && RunLeft(end.value, last, occ.store) && CanEnd(plan, end.value, None)
              && OpenEnd(end.value, occ.store.log.trace, |old(occ.store.log.trace)|, last)
              && ts.pending == PendingAfter(plan.parks, end.value, last, old(ts.pending))
  {
    var res;
    res, token := AttemptHeld(occ, plan.kind, version, last);
    if res.Occ? {
      return None, token;
    }
    if res.CommitThrew? {
      return Some(Raised(res.exn, InCommit)), token;
    }
    var done := AfterAttempt(occ, ts, plan, res, last, replanned);
    end := Some(done);
  }

  /** One round: try the batch, and if it lost its race drive the controller and
      re-plan or park. */
  method CommitRound(
      occ: OccController, ts: TurnState, plan: CommitPlan, version: nat, last: seq<Fact>, replanned: bool)
    returns (round: Round, lost: bool, ghost shown: Option<RunState>)
    requires occ.Valid() && occ.store.Balanced() && HookFenced(plan, occ.store.claim)
    modifies occ, occ.store, ts`pending
    ensures occ.Valid() && occ.store.Balanced() && old(occ.store.log.trace) <= occ.store.log.trace
    ensures occ.nextToken == old(occ.nextToken) + 1 && occ.store.log.foreign >= old(occ.store.log.foreign)
    ensures lost ==> occ.occCount == old(occ.occCount) + 1
    ensures (occ.store.log.foreign == old(occ.store.log.foreign) && Driven(old(occ.store.st), occ.store.claim)
             && (plan.kind == Lane || version == old(occ.store.st).version)) ==>
              && !lost && round.Ended?
              && (round.end.Landed? || (round.end.Raised? && (round.end.point == InCommit || replanned)))
    ensures shown.Some? ==> Read(shown.value) in occ.store.log.trace && shown.value.status == Running
    ensures round.Again? ==>
              && lost && occ.occCount < OCC_CEILING && HookSays(plan, shown, Next(round.facts))
              && occ.store.ledger == old(occ.store.ledger) && occ.held == old(occ.held)
              && occ.store.evidence == old(occ.store.evidence)
              && occ.abandoned == old(occ.abandoned) && ts.pending == old(ts.pending)
    ensures round.Ended? ==>
              && FateLogged(round.end, old(occ.store.ledger), occ.store.ledger, last)
              && EvidenceSince(old(occ.store.evidence), occ.store.evidence, |old(occ.store.log.trace)|)
              && occ.held == old(occ.held) + (if round.end.Raised? && round.end.point == InCommit
                                              then [Held(old(occ.nextToken), last)] else [])
              && RunLeft(round.end, last, occ.store) && CanEnd(plan, round.end, shown)
              && OpenEnd(round.end, occ.store.log.trace, |old(occ.store.log.trace)|, last)
              && (occ.abandoned <==> old(occ.abandoned) || round.end.GaveUp?)
              && (round.end.HaltedByOcc? || round.end.GaveUp? ==> lost && occ.occCount >= OCC_CEILING)
              && ts.pending == PendingAfter(plan.parks, round.end, last, old(ts.pending))
  {
    ghost var before, from := occ.held, |occ.store.log.trace|;
    var end, token := TryBatch(occ, ts, plan, version, last, replanned);
    if end.Some? {
      return Ended(end.value), false, None;
    }
    assert occ.held[..|before|] == before;
    lost := true;
    round, shown := AfterConflict(occ, ts, plan, token, last, from);
  }

  /** Nobody else moved the row while it was running under the claim, and the
      plan is bound to its version, or to whatever it reads. */
  ghost predicate Unmoved(was: Log, now: Log, row: RunState, claim: nat, plan: CommitPlan) {
    now.foreign == was.foreign && Driven(row, claim) && (plan.kind == Lane || plan.expected == row.version)
  }

  /** The commit loop. `last` is the batch of the last attempt, `conflicts` how
      many conflicts there were, and `shown` the row the hook was asked about
      in the last round. */
  method CommitWithOcc(occ: OccController, ts: TurnState, plan: CommitPlan, facts: seq<Fact>)
    returns (r: CommitEnd, last: seq<Fact>, conflicts: nat, ghost shown: Option<RunState>)
    requires occ.Valid() && occ.store.Balanced() && HookFenced(plan, occ.store.claim)
    modifies occ, occ.store, ts`pending
    ensures occ.Valid() && occ.store.Balanced() && old(occ.store.log.trace) <= occ.store.log.trace
    // bounded, for any hook, and every conflict counted is one the store answered
    ensures conflicts <= 1 || old(occ.occCount) + conflicts <= OCC_CEILING
    ensures r.HaltedByOcc? || r.GaveUp? ==> old(occ.occCount) + conflicts >= OCC_CEILING
    ensures last == facts || Answers(plan, Next(last))
    // the batch's one fate, borne out by what this call read and tried, and it is
    // held exactly while that is open
    ensures FateLogged(r, old(occ.store.ledger), occ.store.ledger, last)
    ensures EvidenceSince(old(occ.store.evidence), occ.store.evidence, |old(occ.store.log.trace)|)
    ensures OpenEnd(r, occ.store.log.trace, |old(occ.store.log.trace)|, last)
    ensures if r.Raised? && r.point == InCommit
            then occ.nextToken > old(occ.nextToken)
                 && occ.held == old(occ.held) + [Held(occ.nextToken - 1, last)]
            else occ.held == old(occ.held)
    // with nobody else moving, a batch bound to the running row lands, unless the write throws
    ensures occ.store.log.foreign >= old(occ.store.log.foreign)
    ensures Unmoved(old(occ.store.log), occ.store.log, old(occ.store.st), occ.store.claim, plan) ==>
              last == facts && (r.Landed? || (r.Raised? && r.point == InCommit))
    ensures RunLeft(r, last, occ.store)
    ensures occ.abandoned <==> old(occ.abandoned) || r.GaveUp?
    ensures CanEnd(plan, r, shown)
    ensures shown.Some? ==> Read(shown.value) in occ.store.log.trace && shown.value.status == Running
    ensures ts.pending == PendingAfter(plan.parks, r, last, old(ts.pending))
  {
    var store := occ.store;
    var version := plan.expected;
    last, conflicts, shown := facts, 0, None;
    while true
      invariant occ.Valid() && store.Balanced() && store.ledger == old(store.ledger)
      invariant store.evidence == old(store.evidence) && old(store.log.trace) <= store.log.trace
      invariant occ.held == old(occ.held) && occ.nextToken == old(occ.nextToken) + conflicts
      invariant occ.occCount == old(occ.occCount) + conflicts && (conflicts > 0 ==> occ.occCount < OCC_CEILING)
      invariant occ.abandoned == old(occ.abandoned) && ts.pending == old(ts.pending)
      invariant last == facts || Answers(plan, Next(last))
      invariant conflicts == 0 ==> version == plan.expected && last == facts && store.st == old(store.st)
                                   && store.log == old(store.log)
      invariant store.log.foreign >= old(store.log.foreign)
      invariant conflicts > 0 && Driven(old(store.st), store.claim)
                && (plan.kind == Lane || plan.expected == old(store.st).version) ==>
                  store.log.foreign > old(store.log.foreign)
      decreases if conflicts == 0 then OCC_CEILING + 1 else OCC_CEILING - occ.occCount
    {
      ghost var from := |store.log.trace|;
      var round, lost;
      round, lost, shown := CommitRound(occ, ts, plan, version, last, conflicts > 0);
      conflicts := conflicts + if lost then 1 else 0;
      match round
      case Ended(end) =>
        if end.ParkedForNextTurn? {
          LostSinceEarlier(store.log.trace, from, |old(store.log.trace)|, last);
        }
        return end, last, conflicts, shown;
      case Again(next, fresher) =>
        last, version := next, fresher;
    }
  }

  // ---------- the books ----------

  ghost function ParkedSpend(ts: TurnState, c: Column): nat
    reads ts`pending, ts`recommitting
  {
    if ts.pending.Some? && !ts.recommitting then Spend(ts.pending.value, c) else 0
  }

  /** Every unit of every planned batch is in exactly one place: a ledger entry,
      a batch still held, the parked disposition, or dropped. */
  ghost predicate Accounted(occ: OccController, ts: TurnState)
    reads occ`held, occ.store`ledger, ts`billed, ts`dropped, ts`pending, ts`recommitting
  {
    forall c {:trigger Money(c)} :: Money(c) ==>
      ts.billed(c) == Offered(occ.store.ledger, c) + Spend(HeldFacts(occ.held), c) + ParkedSpend(ts, c) + ts.dropped(c)
  }

  lemma {:induction false} OfferedConcat(a: seq<Entry>, b: seq<Entry>, c: Column)
    ensures Offered(a + b, c) == Offered(a, c) + Offered(b, c)
  {
    if a == [] {
      assert a + b == b;
    } else {
      OfferedConcat(a[1..], b, c);
      assert (a + b)[1..] == a[1..] + b;
    }
  }

  lemma FateOffered(r: CommitEnd, was: seq<Entry>, now: seq<Entry>, last: seq<Fact>, c: Column)
    requires FateLogged(r, was, now, last)
    ensures Offered(now, c)
            == Offered(was, c)
               + if r.ParkedForNextTurn? || (r.Raised? && r.point == InCommit) then 0 else Spend(last, c)
  {
    if |now| == |was| + 1 {
      OfferedSnoc(was, now[|was|], c);
    }
  }

  lemma OfferedSnoc(was: seq<Entry>, e: Entry, c: Column)
    ensures Offered(was + [e], c) == Offered(was, c) + Spend(e.batch, c)
  {
    OfferedConcat(was, [e], c);
    assert [e][1..] == [];
  }

  lemma HeldSpendSnoc(held: seq<Held>, h: Held, c: Column)
    ensures Spend(HeldFacts(held + [h]), c) == Spend(HeldFacts(held), c) + Spend(h.facts, c)
  {
    FlatMapSnoc((x: Held) => x.facts, held, h);
    SpendConcat(HeldFacts(held), h.facts, c);
  }

  /** One commit call moves its batch to one place. */
  lemma CommitMovesOnce(
      r: CommitEnd, was: seq<Entry>, now: seq<Entry>, last: seq<Fact>, h: Held, before: seq<Held>, after: seq<Held>,
      c: Column)
    requires FateLogged(r, was, now, last) && h.facts == last
    requires after == if r.Raised? && r.point == InCommit then before + [h] else before
    ensures Offered(now, c) + Spend(HeldFacts(after), c)
            == Offered(was, c) + Spend(HeldFacts(before), c) + if r.ParkedForNextTurn? then 0 else Spend(last, c)
  {
    FateOffered(r, was, now, last, c);
    HeldSpendSnoc(before, h, c);
  }

  /** The plan's every re-plan carries what the first batch carried. */
  ghost predicate SpendStable(plan: CommitPlan, facts: seq<Fact>) {
    forall next, c :: Answers(plan, Next(next)) && Money(c) ==> Spend(next, c) == Spend(facts, c)
  }

  /** A batch whose append threw is held one deeper, any other not at all. */
  predicate HeldAfter(r: CommitEnd, last: seq<Fact>, was: seq<Held>, now: seq<Held>) {
    if r.Raised? && r.point == InCommit
    then |now| == |was| + 1 && now[..|was|] == was && now[|was|].facts == last
    else now == was
  }

  /** The parked disposition is held by a commit as well. */
  predicate ParkedAndHeld(pending: Option<seq<Fact>>, held: seq<Held>) {
    pending.Some? && exists h :: h in held && h.facts == pending.value
  }

  /** A commit call, in money: its batch is in the ledger or held, unless it was
      parked. */
  method CommitMoved(occ: OccController, ts: TurnState, plan: CommitPlan, facts: seq<Fact>)
    returns (r: CommitEnd, last: seq<Fact>, ghost shown: Option<RunState>)
    requires occ.Valid() && occ.store.Balanced() && HookFenced(plan, occ.store.claim) && SpendStable(plan, facts)
    modifies occ, occ.store, ts`pending
    ensures occ.Valid() && occ.store.Balanced() && old(occ.store.log.trace) <= occ.store.log.trace
    ensures forall c {:trigger Money(c)} :: Money(c) ==>
              Offered(occ.store.ledger, c) + Spend(HeldFacts(occ.held), c)
              == Offered(old(occ.store.ledger), c) + Spend(HeldFacts(old(occ.held)), c)
                 + if r.ParkedForNextTurn? then 0 else Spend(facts, c)
    ensures forall c {:trigger Money(c)} :: Money(c) ==> Spend(last, c) == Spend(facts, c)
    ensures last == facts || Answers(plan, Next(last))
    ensures FateLogged(r, old(occ.store.ledger), occ.store.ledger, last)
    ensures EvidenceSince(old(occ.store.evidence), occ.store.evidence, |old(occ.store.log.trace)|)
    ensures OpenEnd(r, occ.store.log.trace, |old(occ.store.log.trace)|, last)
    ensures occ.store.log.foreign >= old(occ.store.log.foreign)
    ensures Unmoved(old(occ.store.log), occ.store.log, old(occ.store.st), occ.store.claim, plan) ==>
              last == facts && (r.Landed? || (r.Raised? && r.point == InCommit))
    ensures RunLeft(r, last, occ.store) && CanEnd(plan, r, shown)
    ensures occ.abandoned <==> old(occ.abandoned) || r.GaveUp?
    ensures HeldAfter(r, last, old(occ.held), occ.held)
    ensures ts.pending == PendingAfter(plan.parks, r, last, old(ts.pending))
  {
    ghost var before, was := occ.held, occ.store.ledger;
    var conflicts;
    r, last, conflicts, shown := CommitWithOcc(occ, ts, plan, facts);
    ghost var h := if r.Raised? && r.point == InCommit then occ.held[|before|] else Held(0, last);
    forall c {:trigger Money(c)} | Money(c)
      ensures Offered(occ.store.ledger, c) + Spend(HeldFacts(occ.held), c)
              == Offered(was, c) + Spend(HeldFacts(before), c) + if r.ParkedForNextTurn? then 0 else Spend(facts, c)
    {
      CommitMovesOnce(r, was, occ.store.ledger, last, h, before, occ.held, c);
    }
  }

  /** A batch is billed as its commit begins, unless it is the parked one, which
      was. */
  ghost method BillOnce(occ: OccController, ts: TurnState, plan: CommitPlan, facts: seq<Fact>)
    requires Accounted(occ, ts) && !ts.recommitting
    requires plan.parks ==> ts.pending == None || ts.pending == Some(facts)
    modifies ts`billed, ts`recommitting
    ensures ts.recommitting <==> plan.parks && ts.pending.Some?
    ensures forall c {:trigger Money(c)} :: Money(c) ==>
              && ts.billed(c) == old(ts.billed)(c) + (if ts.recommitting then 0 else Spend(facts, c))
              && ts.billed(c) == Offered(occ.store.ledger, c) + Spend(HeldFacts(occ.held), c) + Spend(facts, c)
                                 + (if plan.parks then 0 else ParkedSpend(ts, c)) + ts.dropped(c)
  {
    if plan.parks && ts.pending.Some? {
      ts.recommitting := true;
    } else {
      ts.Bill(facts);
    }
  }

  /** A commit call with its books kept: a batch that is not the parked one is
      billed here, and then sits in exactly one place. */
  method CommitBilled(occ: OccController, ts: TurnState, plan: CommitPlan, facts: seq<Fact>)
    returns (r: CommitEnd, last: seq<Fact>, ghost shown: Option<RunState>)
    requires occ.Valid() && occ.store.Balanced() && HookFenced(plan, occ.store.claim)
    requires Accounted(occ, ts) && SpendStable(plan, facts) && !ts.recommitting
    requires plan.parks ==> ts.pending == None || ts.pending == Some(facts)
    modifies occ, occ.store, ts`pending, ts`billed, ts`recommitting
    ensures occ.Valid() && occ.store.Balanced() && Accounted(occ, ts)
    ensures old(occ.store.log.trace) <= occ.store.log.trace
    ensures forall c {:trigger Money(c)} :: Money(c) ==>
              ts.billed(c) == old(ts.billed)(c) + if plan.parks && old(ts.pending).Some? then 0 else Spend(facts, c)
    ensures last == facts || Answers(plan, Next(last))
    ensures FateLogged(r, old(occ.store.ledger), occ.store.ledger, last)
    ensures EvidenceSince(old(occ.store.evidence), occ.store.evidence, |old(occ.store.log.trace)|)
    ensures OpenEnd(r, occ.store.log.trace, |old(occ.store.log.trace)|, last)
    ensures occ.store.log.foreign >= old(occ.store.log.foreign)
    ensures Unmoved(old(occ.store.log), occ.store.log, old(occ.store.st), occ.store.claim, plan) ==>
              last == facts && (r.Landed? || (r.Raised? && r.point == InCommit))
    ensures RunLeft(r, last, occ.store) && CanEnd(plan, r, shown)
    ensures occ.abandoned <==> old(occ.abandoned) || r.GaveUp?
    ensures HeldAfter(r, last, old(occ.held), occ.held)
    ensures ts.recommitting <==> r.Raised? && plan.parks && old(ts.pending).Some?
    // a disposition ends up parked and held at once exactly when it was parked and its append threw
    ensures plan.parks && plan.replan == None && old(occ.held) == [] ==>
              (ParkedAndHeld(ts.pending, occ.held)
               <==> r.Raised? && r.point == InCommit && old(ts.pending).Some?)
    ensures ts.pending == PendingAfter(plan.parks, r, last, old(ts.pending))
  {
    BillOnce(occ, ts, plan, facts);
    ghost var was, before, parked := occ.store.ledger, occ.held, ts.pending;
    r, last, shown := CommitMoved(occ, ts, plan, facts);
    CloseBooks(occ, ts, plan, r, last, facts, was, before, parked);
  }

  /** And the books are whole again when it ends: a parked batch counts as parked
      once more, unless its commit threw. */
  ghost method CloseBooks(
      occ: OccController, ts: TurnState, plan: CommitPlan, r: CommitEnd, last: seq<Fact>, facts: seq<Fact>,
      was: seq<Entry>, before: seq<Held>, parked: Option<seq<Fact>>)
    requires ts.recommitting <==> plan.parks && parked.Some?
    requires ts.pending == PendingAfter(plan.parks, r, last, parked) && (r.ParkedForNextTurn? ==> plan.parks)
    requires forall c {:trigger Money(c)} :: Money(c) ==>
               && Spend(last, c) == Spend(facts, c)
               && ts.billed(c) == Offered(was, c) + Spend(HeldFacts(before), c) + Spend(facts, c) + ts.dropped(c)
                                  + (if plan.parks || parked == None then 0 else Spend(parked.value, c))
               && Offered(occ.store.ledger, c) + Spend(HeldFacts(occ.held), c)
                  == Offered(was, c) + Spend(HeldFacts(before), c) + if r.ParkedForNextTurn? then 0 else Spend(facts, c)
    modifies ts`recommitting
    ensures Accounted(occ, ts) && ts.recommitting == (old(ts.recommitting) && r.Raised?)
  {
    if !r.Raised? {
      ts.recommitting := false;
    }
  }

  /** Such a disposition: it carries seven micro-units, and the append of its
      re-commit throws. It is then parked and held, its seven counted in both
      places; the crash halt takes the held copy alone. */
  lemma ThrowingRecommitHoldsParked()
    ensures var batch := [NodeAborted("plan", 0, 0, "halt", SEVEN), HaltFact(HaltError, "stop")];
            var row := RunState(1, 0, Running, []);
            var end := Raised(OtherError, InCommit);
            var held := [Held(0, batch)];
            && AttemptTries(CommitThrew(OtherError), Lane, 0, batch,
                            [Read(row), Tried(batch, 1, row, AppendThrew(OtherError))])
            && CanEnd(CommitPlan(0, Lane, None, true), end, None) && FateLogged(end, [], [], batch)
            && HeldAfter(end, batch, [], held) && PendingAfter(true, end, batch, Some(batch)) == Some(batch)
            && ParkedAndHeld(Some(batch), held)
            && Spend(batch, Cost) == 7 && Spend(batch, Cost) + Spend(HeldFacts(held), Cost) == 14
            && Spend(SpendFactsFor(HeldFacts(held), "crash", ORIGIN), Cost) == 7
  {
    var batch := [NodeAborted("plan", 0, 0, "halt", SEVEN), HaltFact(HaltError, "stop")];
    var held := [Held(0, batch)];
    assert batch[1..] == [batch[1]] && batch[1..][1..] == [];
    HeldSpendSnoc([], held[0], Cost);
    assert [] + [held[0]] == held;
    SplitSpend(HeldFacts(held), "crash", Cost);
    assert held[0] in held;
  }

  /** The plan of a parking or terminal commit: the same batch again against
      every fresh version. */
  function ParkPlan(expected: nat, facts: seq<Fact>): CommitPlan {
    CommitPlan(expected, ParkDefault, Some(s => Next(facts)), false)
  }

  /** Commit a parking or terminal batch honestly: the same batch is tried
      again against every fresh version until it lands, the run leaves
      `running`, the claim moves, or the controller gives up. Never parked,
      never dropped to its spend, never a silent `continue`. */
  method CommitParkOrTerminal(occ: OccController, ts: TurnState, expected: nat, facts: seq<Fact>)
    returns (r: CommitEnd, conflicts: nat)
    requires occ.Valid() && occ.store.Balanced()
    modifies occ, occ.store, ts`pending
    ensures occ.Valid() && occ.store.Balanced() && old(occ.store.log.trace) <= occ.store.log.trace
    ensures conflicts <= 1 || old(occ.occCount) + conflicts <= OCC_CEILING
    ensures r.Landed? || r.StatusStopped? || r.ClaimGone? || r.HaltedByOcc? || r.GaveUp?
            || (r.Raised? && (r.point == InCommit || r.point == AfterLanding))
    ensures !r.Raised? ==> Outcome(r, Terminal, Terminal) == Terminal
    ensures !r.Raised? && !r.GaveUp? && Parking(facts) ==> !Driven(occ.store.st, occ.store.claim)
    ensures r.HaltedByOcc? || r.GaveUp? ==> old(occ.occCount) + conflicts >= OCC_CEILING
    ensures r.Raised? && r.point == AfterLanding && Parking(facts) ==> !Driven(occ.store.st, occ.store.claim)
    ensures r.Raised? && r.exn == ClaimLostError ==> !Driven(occ.store.st, occ.store.claim)
    ensures r.Raised? && r.exn == PayloadTooLarge ==> r.point == InCommit
    ensures occ.abandoned <==> old(occ.abandoned) || r.GaveUp?
    ensures FateLogged(r, old(occ.store.ledger), occ.store.ledger, facts)
    ensures EvidenceSince(old(occ.store.evidence), occ.store.evidence, |old(occ.store.log.trace)|)
    ensures OpenEnd(r, occ.store.log.trace, |old(occ.store.log.trace)|, facts)
    ensures occ.store.log.foreign >= old(occ.store.log.foreign)
    ensures Unmoved(
              old(occ.store.log), occ.store.log, old(occ.store.st), occ.store.claim, ParkPlan(expected, facts)) ==>
              (r.Landed? || (r.Raised? && r.point == InCommit))
    ensures !r.Raised? ==> occ.held == old(occ.held)
    ensures ts.pending == old(ts.pending)
  {
    var last;
    ghost var shown;
    r, last, conflicts, shown := CommitWithOcc(occ, ts, ParkPlan(expected, facts), facts);
  }

  /** How a turn, or a step of it, ended. */
  datatype TurnEnd = TurnOver(outcome: DispatchOutcome) | TurnThrew(exn: Exn)

  /** The batch a step was to commit: the store threw on it and nothing was
      entered, or the ledger names its one fate. */
  ghost predicate StepShown(r: TurnEnd, batch: seq<Fact>, was: seq<Entry>, now: seq<Entry>, trace: seq<Event>) {
    if now == was then r.TurnThrew? && ThrewLast(trace, r.exn)
    else exists fate :: now == was + [Entry(batch, fate)] && EndsSo(fate, r)
  }

  /** The batch was cut to its spend, or lost on the way. */
  predicate IsCut(fate: Fate) {
    match fate
    case SpendAlone => true
    case Lost(why) => why.EverySpendLost? || why.RunGone? || why.SpendAppendThrew?
    case _ => false
  }

  /** A batch is cut only if its plan has no re-plan, or one that declined. */
  lemma CutIfDeclined(plan: CommitPlan, r: CommitEnd, shown: Option<RunState>, was: seq<Entry>, now: seq<Entry>,
                      last: seq<Fact>)
    requires CanEnd(plan, r, shown) && FateLogged(r, was, now, last) && |now| == |was| + 1 && IsCut(now[|was|].fate)
    ensures plan.replan == None || Answers(plan, Declined)
  {
    if plan.replan.Some? {
      assert HookSays(plan, shown, Declined);
      assert plan.replan.value(shown.value) == Declined;
    }
  }

  /** A turn whose batch led the halt of the ceiling, or lost it, ends the pass;
      one whose batch was cut to its spend goes on. */
  predicate EndsSo(fate: Fate, r: TurnEnd) {
    match fate
    case LedOccHalt => r != TurnOver(Continue)
    case Lost(EveryHaltLost) => r != TurnOver(Continue)
    case SpendAlone => r != TurnOver(Terminal)
    case Lost(EverySpendLost) => r != TurnOver(Terminal)
    case Lost(RunGone) => r != TurnOver(Terminal)
    case _ => true
  }

  /** What such a step entered, as a sequence of its own. */
  lemma StepEntered(r: TurnEnd, batch: seq<Fact>, was: seq<Entry>, now: seq<Entry>, trace: seq<Event>)
    requires StepShown(r, batch, was, now, trace)
    ensures was <= now && now == was + now[|was|..]
    ensures if now[|was|..] == [] then r.TurnThrew? && ThrewLast(trace, r.exn)
            else exists fate :: now[|was|..] == [Entry(batch, fate)] && EndsSo(fate, r)
    ensures forall fate :: now == was + [Entry(batch, fate)] <==> now[|was|..] == [Entry(batch, fate)]
  {
    if now != was {
      var fate :| now == was + [Entry(batch, fate)] && EndsSo(fate, r);
      assert now[|was|..] == [Entry(batch, fate)];
    }
  }

  /** A turn that ends the pass leaves no run behind: it stopped, or the claim
      must be given back. */
  ghost predicate PassEnds(r: TurnEnd, occ: OccController)
    reads occ, occ.store
  {
    match r
    case TurnOver(outcome) => outcome == Terminal ==> !Driven(occ.store.st, occ.store.claim) || occ.abandoned
    case TurnThrew(exn) => exn == ClaimLostError ==> !Driven(occ.store.st, occ.store.claim)
  }

  /** What is new in the ledger was not cut. */
  predicate NeverCut(was: seq<Entry>, now: seq<Entry>) {
    |now| == |was| + 1 ==> !IsCut(now[|was|].fate)
  }

  /** A parking or terminal commit with its books kept: it ends the pass. */
  method CommitPark(occ: OccController, ts: TurnState, expected: nat, facts: seq<Fact>) returns (r: TurnEnd)
    requires occ.Valid() && occ.store.Balanced() && Accounted(occ, ts) && !ts.recommitting && Parking(facts)
    modifies occ, occ.store, ts`pending, ts`billed, ts`recommitting
    ensures occ.Valid() && occ.store.Balanced() && Accounted(occ, ts) && PassEnds(r, occ)
    ensures r.TurnOver? ==> r.outcome == Terminal && !ts.recommitting && occ.held == old(occ.held)
    ensures StepShown(r, facts, old(occ.store.ledger), occ.store.ledger, occ.store.log.trace)
    ensures ts.pending == old(ts.pending) && old(occ.store.log.trace) <= occ.store.log.trace
    ensures occ.store.log.foreign >= old(occ.store.log.foreign)
    ensures Unmoved(
              old(occ.store.log), occ.store.log, old(occ.store.st), occ.store.claim, ParkPlan(expected, facts)) ==>
              r.TurnThrew? || occ.store.ledger == old(occ.store.ledger) + [Entry(facts, Committed)]
    ensures forall c {:trigger Money(c)} :: Money(c) ==> ts.billed(c) == old(ts.billed)(c) + Spend(facts, c)
    ensures old(occ.abandoned) ==> occ.abandoned
    ensures NeverCut(old(occ.store.ledger), occ.store.ledger)
  {
    ghost var was := occ.store.ledger;
    var end, last, shown := CommitBilled(occ, ts, ParkPlan(expected, facts), facts);
    if |occ.store.ledger| == |was| + 1 && IsCut(occ.store.ledger[|was|].fate) {
      CutIfDeclined(ParkPlan(expected, facts), end, shown, was, occ.store.ledger, last);
      assert false;
    }
    r := if end.Raised? then TurnThrew(end.exn) else TurnOver(Outcome(end, Terminal, Terminal));
  }
}
