/** One run's store as one fiber sees it, through the view that carries the
    fiber's claim on every write: the row, what everybody else may do to it, a
    trace of what the fiber read and tried, and the ledger of its batches. */
module ClaimBoundStore {
  import opened Wrappers
  import opened Facts
  import opened Seqs
  import opened ResultToFacts

  const OCC_CEILING := 3
  const OCC_WARN_AT := 2
  const HALT_APPEND_MAX_ATTEMPTS := OCC_CEILING + 2
  const FANOUT_COMMIT_ATTEMPTS := 8

  // ---------- the store ----------

  /** The run's row, and the facts this fiber's commits have landed. */
  datatype RunState = RunState(version: nat, epoch: nat, status: Status, landed: seq<Fact>)

  /** The run is `running` under the given claim. */
  predicate Driven(s: RunState, claim: nat) {
    s.status == Running && s.epoch == claim
  }

  /** What anyone else may do between two of the fiber's store accesses: other
      commits, a pause or cancel, a crash requeue, a re-claim. Every write
      moves the version; only a claim makes a run `running`, and it moves the
      epoch. */
  predicate Rely(a: RunState, b: RunState) {
    && a.version <= b.version
    && a.epoch <= b.epoch
    && a.landed == b.landed
    && (a.version == b.version ==> a == b)
    && (b.status == Running && b.epoch == a.epoch ==> a.status == Running)
  }

  lemma RelyTransitive(a: RunState, b: RunState, c: RunState)
    requires Rely(a, b) && Rely(b, c)
    ensures Rely(a, c)
  {
  }

  /** A run that left `running` under a claim never comes back under it. */
  lemma LeftStaysLeft(a: RunState, b: RunState, claim: nat)
    requires Rely(a, b) && claim <= a.epoch && !Driven(a, claim)
    ensures !Driven(b, claim)
  {
  }

  /** And it may be any of these: a commit, a pause, a cancel or any other stop, a
      crash requeue, a new claim. */
  lemma OthersMay(a: RunState, stopped: Status)
    requires stopped != Running
    ensures Rely(a, a)
    ensures Rely(a, a.(version := a.version + 1))
    ensures Rely(a, a.(version := a.version + 1, status := stopped))
    ensures Rely(a, a.(version := a.version + 1, epoch := a.epoch + 1, status := stopped))
    ensures Rely(a, a.(version := a.version + 1, epoch := a.epoch + 1, status := Running))
  {
  }

  /** A landed batch: one new version, the reducer's status. */
  function Appended(s: RunState, facts: seq<Fact>): RunState {
    s.(version := s.version + 1, status := StatusAfter(s.status, facts), landed := s.landed + facts)
  }

  datatype Exn = ClaimLostError | PayloadTooLarge | OtherError
  datatype Append = AppendLanded | AppendConflict | AppendClaimLost | AppendThrew(exn: Exn)

  /** What a write that does not throw does on the row it meets. */
  function Meets(row: RunState, claim: nat, expected: nat): Append {
    if row.epoch != claim then AppendClaimLost
    else if row.version != expected then AppendConflict
    else AppendLanded
  }

  // ---------- the trace ----------

  /** One store access of the fiber: a read of the row, a write and the row it
      met, or an audit event. */
  datatype Event =
    | Read(row: RunState)
    | Tried(facts: seq<Fact>, expected: nat, met: RunState, result: Append)
    | Noted(raised: Option<Exn>)

  /** A read and then a write bound to the version read, which lost to a writer
      that came between. */
  predicate LostRace(a: Event, b: Event, facts: seq<Fact>, running: bool) {
    && a.Read? && a.row.status != Deleted && (running ==> a.row.status == Running)
    && b.Tried? && b.facts == facts && b.expected == a.row.version && b.result == AppendConflict
    && b.met.version > a.row.version
  }

  /** Nothing but lost races for one batch, each against a row read anew. */
  predicate LostRaces(evs: seq<Event>, facts: seq<Fact>, running: bool) {
    if evs == [] then true
    else
      && |evs| >= 2 && LostRaces(evs[..|evs| - 2], facts, running)
      && LostRace(evs[|evs| - 2], evs[|evs| - 1], facts, running)
  }

  /** Lost races, and then one more read and write that ended so. */
  ghost predicate RacesTo(evs: seq<Event>, facts: seq<Fact>, running: bool, result: Append) {
    && |evs| >= 2 && LostRaces(evs[..|evs| - 2], facts, running)
    && var a, b := evs[|evs| - 2], evs[|evs| - 1];
    && a.Read? && a.row.status != Deleted && (running ==> a.row.status == Running)
    && b.Tried? && b.facts == facts && b.expected == a.row.version && b.result == result
  }

  /** Lost races, and then a read of a run that had stopped: left `running`, or
      for a write that only needs the run to exist, gone. */
  ghost predicate StopsAt(evs: seq<Event>, facts: seq<Fact>, running: bool) {
    && evs != [] && LostRaces(evs[..|evs| - 1], facts, running)
    && var a := evs[|evs| - 1];
       a.Read? && if running then a.row.status != Running else a.row.status == Deleted
  }

  /** A read of a live row and a write bound to it. */
  predicate OneTry(evs: seq<Event>, facts: seq<Fact>, running: bool) {
    && |evs| == 2 && evs[0].Read? && evs[0].row.status != Deleted && (running ==> evs[0].row.status == Running)
    && evs[1].Tried? && evs[1].facts == facts && evs[1].expected == evs[0].row.version
    && (evs[1].result == AppendConflict ==> evs[1].met.version > evs[0].row.version)
  }

  predicate StoppedRead(evs: seq<Event>, running: bool) {
    && |evs| == 1 && evs[0].Read?
    && if running then evs[0].row.status != Running else evs[0].row.status == Deleted
  }

  lemma OneMoreTry(lost: seq<Event>, evs: seq<Event>, facts: seq<Fact>, running: bool)
    requires LostRaces(lost, facts, running) && OneTry(evs, facts, running)
    ensures RacesTo(lost + evs, facts, running, evs[1].result)
    ensures evs[1].result == AppendConflict ==> LostRaces(lost + evs, facts, running)
  {
    var all := lost + evs;
    assert all[..|all| - 2] == lost && all[|all| - 2] == evs[0] && all[|all| - 1] == evs[1];
  }

  lemma StopAfter(lost: seq<Event>, evs: seq<Event>, facts: seq<Fact>, running: bool)
    requires LostRaces(lost, facts, running) && StoppedRead(evs, running)
    ensures StopsAt(lost + evs, facts, running)
  {
    var all := lost + evs;
    assert all[..|all| - 1] == lost && all[|all| - 1] == evs[0];
  }

  /** How a bounded series of reads and appends ended. */
  datatype RaceEnd = Won | FoundStopped | Fenced | RaceThrew(exn: Exn) | AllLost

  ghost predicate RaceTries(r: RaceEnd, facts: seq<Fact>, running: bool, attempts: nat, tries: seq<Event>) {
    && |tries| <= 2 * attempts
    && match r
       case Won => RacesTo(tries, facts, running, AppendLanded)
       case Fenced => RacesTo(tries, facts, running, AppendClaimLost)
       case RaceThrew(exn) => RacesTo(tries, facts, running, AppendThrew(exn))
       case FoundStopped => StopsAt(tries, facts, running)
       case AllLost => |tries| == 2 * attempts && LostRaces(tries, facts, running)
  }

  function EndOf(r: Option<Append>): RaceEnd {
    match r
    case None => FoundStopped
    case Some(AppendLanded) => Won
    case Some(AppendClaimLost) => Fenced
    case Some(AppendThrew(exn)) => RaceThrew(exn)
    case Some(AppendConflict) => AllLost
  }

  /** The row such a series leaves, by how it ended; `at` is the row it last met. */
  predicate RaceLeaves(r: RaceEnd, st: RunState, at: RunState, landed: seq<Fact>, facts: seq<Fact>, running: bool,
                       claim: nat)
  {
    && at.landed == landed
    && match r
       case Won => at.epoch == claim && st == Appended(at, facts) && (running ==> at.status == Running)
       case FoundStopped => st == at && if running then st.status != Running else st.status == Deleted
       case Fenced => st == at && st.epoch != claim
       case RaceThrew(exn) => st == at && exn != ClaimLostError
       case AllLost => st == at
  }

  lemma Extends(a: seq<Event>, b: seq<Event>)
    requires a <= b
    ensures a + b[|a|..] == b
  {
  }

  lemma RaceStep(lost: seq<Event>, evs: seq<Event>, r: Option<Append>, facts: seq<Fact>, running: bool, done: nat)
    requires LostRaces(lost, facts, running) && |lost| == 2 * done
    requires if r == None then StoppedRead(evs, running) else OneTry(evs, facts, running) && evs[1].result == r.value
    ensures RaceTries(EndOf(r), facts, running, done + 1, lost + evs)
  {
    if r == None {
      StopAfter(lost, evs, facts, running);
    } else {
      OneMoreTry(lost, evs, facts, running);
    }
  }

  /** Nothing here shows another writer, a stopped run or a throw. */
  predicate Quiet(ev: Event) {
    match ev
    case Read(row) => row.status == Running
    case Tried(_, _, _, result) => result == AppendLanded
    case Noted(raised) => raised == None
  }

  ghost predicate QuietAll(evs: seq<Event>) {
    forall k :: 0 <= k < |evs| ==> Quiet(evs[k])
  }

  predicate ConflictOn(ev: Event, batch: seq<Fact>) {
    ev.Tried? && ev.facts == batch && ev.result == AppendConflict && ev.met.version != ev.expected
  }

  /** The batch itself lost a race in here. */
  ghost predicate Conflicted(evs: seq<Event>, batch: seq<Fact>) {
    exists k :: 0 <= k < |evs| && ConflictOn(evs[k], batch)
  }

  lemma ConflictedGrows(evs: seq<Event>, more: seq<Event>, batch: seq<Fact>)
    requires Conflicted(evs, batch)
    ensures Conflicted(evs + more, batch)
  {
    var k :| 0 <= k < |evs| && ConflictOn(evs[k], batch);
    assert (evs + more)[k] == evs[k];
  }

  // ---------- the spend ledger ----------

  datatype Why =
    | LeftRunning | ClaimMoved | RunGone // the run is somebody else's, or nobody's, now
    | EveryHaltLost | EverySpendLost   // every bounded retry lost its race
    | ReplanThrew | SpendAppendThrew   // released before the next attempt held it

  /** What became of one batch that entered the commit loop. */
  datatype Fate = Committed | LedOccHalt | SpendAlone | Lost(why: Why)
  datatype Entry = Entry(batch: seq<Fact>, fate: Fate)

  function OccHalt(): Fact {
    HaltFact(OccExhausted, "consecutive OCC conflicts")
  }

  /** What the batch put on the log. */
  function Part(e: Entry): seq<Fact> {
    match e.fate
    case Committed => e.batch
    case LedOccHalt => SpendFactsFor(e.batch, "occ_exhausted", ORIGIN) + [OccHalt()]
    case SpendAlone => SpendFactsFor(e.batch, "occ_replan_declined", ORIGIN)
    case Lost(_) => []
  }

  /** One column of what the batches that were not lost carried. */
  function Settled(ledger: seq<Entry>, c: Column): nat {
    if ledger == [] then 0
    else (if ledger[0].fate.Lost? then 0 else Spend(ledger[0].batch, c)) + Settled(ledger[1..], c)
  }

  function Offered(ledger: seq<Entry>, c: Column): nat {
    if ledger == [] then 0 else Spend(ledger[0].batch, c) + Offered(ledger[1..], c)
  }

  /** One column of what the batches that were lost carried. */
  function LostSpend(ledger: seq<Entry>, c: Column): nat {
    if ledger == [] then 0
    else (if ledger[0].fate.Lost? then Spend(ledger[0].batch, c) else 0) + LostSpend(ledger[1..], c)
  }

  lemma PartSpend(e: Entry, c: Column)
    ensures Spend(Part(e), c) <= Spend(e.batch, c)
    ensures e.fate.Lost? ==> Spend(Part(e), c) == 0
    ensures !e.fate.Lost? && (Money(c) || KeepsAll(e.batch, IsBilled))
            ==> Spend(Part(e), c) == Spend(e.batch, c)
  {
    if e.fate == LedOccHalt {
      SplitSpend(e.batch, "occ_exhausted", c);
      OccHaltFree(SpendFactsFor(e.batch, "occ_exhausted", ORIGIN), c);
    } else if e.fate == SpendAlone {
      SplitSpend(e.batch, "occ_replan_declined", c);
    }
  }

  /** What such a part does to the run: the halt of the conflict ceiling ends it,
      for that reason, and the spend of a batch alone leaves its status. */
  lemma PartStops(e: Entry, s: Status)
    ensures e.fate == LedOccHalt ==>
              && StatusAfter(s, Part(e)) == Halted && Part(e) != []
              && var last := Part(e)[|Part(e)| - 1];
                 last.RunTerminated? && last.end.Errored? && last.end.reason == OccExhausted
    ensures e.fate == SpendAlone || e.fate.Lost? ==> StatusAfter(s, Part(e)) == s
    ensures e.fate == Committed ==> Part(e) == e.batch
  {
    SpendFactsKeepStatus(s, e.batch, "occ_exhausted", ORIGIN);
    SpendFactsKeepStatus(s, e.batch, "occ_replan_declined", ORIGIN);
    StatusAfterConcat(s, SpendFactsFor(e.batch, "occ_exhausted", ORIGIN), [OccHalt()]);
    assert [OccHalt()][1..] == [];
    assert StatusAfter(s, [OccHalt()]) == StatusAfter(StatusStep(s, OccHalt()), []);
  }

  lemma OccHaltFree(spend: seq<Fact>, c: Column)
    ensures Spend(spend + [OccHalt()], c) == Spend(spend, c)
  {
    SpendConcat(spend, [OccHalt()], c);
    assert [OccHalt()][1..] == [];
  }

  lemma SplitSpend(batch: seq<Fact>, cause: string, c: Column)
    ensures Spend(SpendFactsFor(batch, cause, ORIGIN), c) <= Spend(batch, c)
    ensures Money(c) || KeepsAll(batch, IsBilled)
            ==> Spend(SpendFactsFor(batch, cause, ORIGIN), c) == Spend(batch, c)
  {
    TwinFilters(cause, ORIGIN);
    FilterSpend(batch, f => SpendTwin(f, cause, ORIGIN), IsBilled, c);
    SpendFactsConserve(batch, cause, ORIGIN);
  }

  /** What the ledger put on the log is, to the token and the micro-unit, the
      spend of every batch that was not lost, each once; in every other column
      it is that too unless a fact hides columns under zero tokens and cost. */
  lemma {:induction false} LedgerConserves(ledger: seq<Entry>, c: Column)
    ensures Spend(FlatMap(Part, ledger), c) <= Settled(ledger, c) <= Offered(ledger, c)
    ensures Money(c) || (forall e :: e in ledger ==> KeepsAll(e.batch, IsBilled))
            ==> Spend(FlatMap(Part, ledger), c) == Settled(ledger, c)
    ensures Settled(ledger, c) + LostSpend(ledger, c) == Offered(ledger, c)
    ensures (forall e :: e in ledger ==> !e.fate.Lost?) ==> LostSpend(ledger, c) == 0
  {
    if ledger != [] {
      LedgerConserves(ledger[1..], c);
      PartSpend(ledger[0], c);
      SpendConcat(Part(ledger[0]), FlatMap(Part, ledger[1..]), c);
      assert ledger[0] in ledger;
    }
  }

  // ---------- the evidence for a fate ----------

  predicate LandedOn(ev: Event, facts: seq<Fact>) {
    ev.Tried? && ev.facts == facts && ev.result == AppendLanded
  }

  predicate FencedOut(ev: Event) {
    ev.Tried? && ev.result == AppendClaimLost
  }

  predicate ReadAs(ev: Event, running: bool) {
    ev.Read? && (ev.row.status == Running <==> running)
  }

  /** A fate is what the store accesses of the batch's last round show: it landed
      whole, or behind the halt, or cut to its spend after a conflict; or the
      run was read stopped or gone, or the claim was gone; or five halts, or
      five spend appends, each on a row read anew, lost their race; or the
      hook or the spend append threw after a conflict. */
  ghost predicate Just(e: Entry, evs: seq<Event>) {
    match e.fate
    case Committed => e.batch == [] || (evs != [] && LandedOn(evs[|evs| - 1], e.batch))
    case LedOccHalt => evs != [] && LandedOn(evs[|evs| - 1], Part(e)) && Conflicted(evs, e.batch)
    case SpendAlone =>
      (Part(e) == [] || (evs != [] && LandedOn(evs[|evs| - 1], Part(e)))) && Conflicted(evs, e.batch)
    case Lost(LeftRunning) => evs != [] && ReadAs(evs[|evs| - 1], false)
    case Lost(ClaimMoved) => evs != [] && FencedOut(evs[|evs| - 1])
    case Lost(RunGone) =>
      evs != [] && evs[|evs| - 1].Read? && evs[|evs| - 1].row.status == Deleted && Conflicted(evs, e.batch)
    case Lost(EveryHaltLost) =>
      && |evs| >= 2 * HALT_APPEND_MAX_ATTEMPTS + 1 && ReadAs(evs[|evs| - 1], true)
      && LostRaces(evs[|evs| - 2 * HALT_APPEND_MAX_ATTEMPTS - 1..|evs| - 1],
                   SpendFactsFor(e.batch, "occ_exhausted", ORIGIN) + [OccHalt()], true)
      && Conflicted(evs, e.batch)
    case Lost(EverySpendLost) =>
      && |evs| >= 2 * HALT_APPEND_MAX_ATTEMPTS
      && LostRaces(evs[|evs| - 2 * HALT_APPEND_MAX_ATTEMPTS..],
                   SpendFactsFor(e.batch, "occ_replan_declined", ORIGIN), false)
      && Conflicted(evs, e.batch)
    case Lost(ReplanThrew) => evs != [] && ReadAs(evs[|evs| - 1], true) && Conflicted(evs, e.batch)
    case Lost(SpendAppendThrew) =>
      && evs != [] && evs[|evs| - 1].Tried? && evs[|evs| - 1].result.AppendThrew?
      && evs[|evs| - 1].facts == SpendFactsFor(e.batch, "occ_replan_declined", ORIGIN) && Conflicted(evs, e.batch)
  }

  /** Whatever was not committed whole has its cause on the trace: another
      writer's move, a stopped run or a throw. So a round with none of them
      commits its batch. */
  lemma QuietCommits(e: Entry, evs: seq<Event>)
    requires Just(e, evs) && QuietAll(evs)
    ensures e.fate == Committed
  {
    assert forall k :: 0 <= k < |evs| ==> Quiet(evs[k]) && !ConflictOn(evs[k], e.batch);
    assert evs != [] ==> Quiet(evs[|evs| - 1]);
  }

  /** Where on the trace the last round of a batch lies. */
  datatype Window = Window(from: nat, upto: nat)

  /** The trace, and how often another writer moved the row, and how many of the
      fiber's writes conflicted. */
  datatype Log = Log(trace: seq<Event>, foreign: nat, conflicts: nat)

  ghost predicate JustAt(e: Entry, w: Window, trace: seq<Event>) {
    w.from <= w.upto <= |trace| && Just(e, trace[w.from..w.upto])
  }

  ghost predicate AllJust(ledger: seq<Entry>, evidence: seq<Window>, trace: seq<Event>) {
    |evidence| == |ledger| && forall i :: 0 <= i < |ledger| ==> JustAt(ledger[i], evidence[i], trace)
  }

  lemma AllJustGrows(ledger: seq<Entry>, evidence: seq<Window>, trace: seq<Event>, ev: Event)
    requires AllJust(ledger, evidence, trace)
    ensures AllJust(ledger, evidence, trace + [ev])
  {
    forall i | 0 <= i < |ledger| ensures JustAt(ledger[i], evidence[i], trace + [ev]) {
      var w := evidence[i];
      assert JustAt(ledger[i], w, trace);
      assert (trace + [ev])[w.from..w.upto] == trace[w.from..w.upto];
    }
  }

  /** The last read, if it is the last access, bounds what the row can be now. */
  ghost predicate ReadHolds(trace: seq<Event>, st: RunState) {
    trace != [] && trace[|trace| - 1].Read? ==> Rely(trace[|trace| - 1].row, st)
  }

  class RunStore {
    const claim: nat
    var st: RunState
    ghost var ledger: seq<Entry>
    ghost var evidence: seq<Window>
    ghost var log: Log

    constructor (claim: nat, st: RunState)
      requires claim <= st.epoch && st.landed == []
      ensures Valid() && Balanced() && this.claim == claim && this.st == st
      ensures ledger == [] && log == Log([], 0, 0)
    {
      this.claim, this.st, ledger, evidence, log := claim, st, [], [], Log([], 0, 0);
    }

    ghost predicate Valid()
      reads this
    {
      claim <= st.epoch && ReadHolds(log.trace, st)
    }

    /** The log holds what the ledger says, in order, and nothing more, and the
        trace bears every fate out. */
    ghost predicate Balanced()
      reads this
    {
      st.landed == FlatMap(Part, ledger) && Evidenced()
    }

    ghost predicate Evidenced()
      reads this`ledger, this`evidence, this`log
    {
      AllJust(ledger, evidence, log.trace)
    }

    /** Enter a batch's fate, on the evidence of the trace since `from`. */
    ghost method Settle(batch: seq<Fact>, fate: Fate, from: nat)
      requires Evidenced() && st.landed == FlatMap(Part, ledger) + Part(Entry(batch, fate))
      requires from <= |log.trace| && Just(Entry(batch, fate), log.trace[from..])
      modifies this`ledger, this`evidence
      ensures ledger == old(ledger) + [Entry(batch, fate)] && Balanced()
      ensures evidence == old(evidence) + [Window(from, |log.trace|)]
    {
      var e := Entry(batch, fate);
      FlatMapSnoc(Part, ledger, e);
      assert log.trace[from..|log.trace|] == log.trace[from..];
      ledger, evidence := ledger + [e], evidence + [Window(from, |log.trace|)];
    }

    ghost method Trace(ev: Event)
      modifies this`log
      ensures log.trace == old(log.trace) + [ev] && log.foreign == old(log.foreign)
      ensures log.conflicts == old(log.conflicts) + if ev.Tried? && ev.result == AppendConflict then 1 else 0
      ensures old(Evidenced()) ==> Evidenced()
    {
      if Evidenced() {
        AllJustGrows(ledger, evidence, log.trace, ev);
      }
      log := Log(log.trace + [ev], log.foreign,
                 log.conflicts + if ev.Tried? && ev.result == AppendConflict then 1 else 0);
    }

    /** Everybody else moves, or nobody does. */
    method Interfere()
      requires Valid()
      modifies this`st, this`log
      ensures Valid() && Rely(old(st), st) && old(Evidenced()) == Evidenced()
      ensures log.trace == old(log.trace) && log.conflicts == old(log.conflicts)
      ensures log.foreign >= old(log.foreign) && (log.foreign == old(log.foreign) ==> st == old(st))
    {
      var next: RunState := *;
      if Rely(st, next) && next != st {
        if log.trace != [] && log.trace[|log.trace| - 1].Read? {
          RelyTransitive(log.trace[|log.trace| - 1].row, st, next);
        }
        st := next;
        log := log.(foreign := log.foreign + 1);
      }
    }

    method GetState() returns (s: RunState)
      requires Valid()
      modifies this`st, this`log
      ensures Valid() && Rely(old(st), st) && s == st && (old(Evidenced()) ==> Evidenced())
      ensures log.trace == old(log.trace) + [Read(s)] && log.conflicts == old(log.conflicts)
      ensures log.foreign >= old(log.foreign) && (log.foreign == old(log.foreign) ==> st == old(st))
    {
      Interfere();
      s := st;
      Trace(Read(s));
    }

    /** Lands iff the claim and the version still hold, unless the write itself
        throws. `at` is the row the append met. */
    method AppendFact(facts: seq<Fact>, expected: nat) returns (r: Append, ghost at: RunState)
      requires Valid()
      modifies this`st, this`log
      ensures Valid() && Rely(old(st), at) && ReadHolds(old(log.trace), at) && (old(Evidenced()) ==> Evidenced())
      ensures log.trace == old(log.trace) + [Tried(facts, expected, at, r)]
      ensures log.conflicts == old(log.conflicts) + if r == AppendConflict then 1 else 0
      ensures log.foreign >= old(log.foreign) && (log.foreign == old(log.foreign) ==> at == old(st))
      ensures match r
              case AppendLanded => at.epoch == claim && at.version == expected
              case AppendConflict => at.epoch == claim && at.version != expected
              case AppendClaimLost => at.epoch != claim
              case AppendThrew(_) => true
      ensures st == if r.AppendLanded? then Appended(at, facts) else at
      ensures r.AppendLanded? ==>
                st == RunState(at.version + 1, at.epoch, StatusAfter(at.status, facts), at.landed + facts)
      ensures r.AppendThrew? ==> r.exn != ClaimLostError
    {
      Interfere();
      at := st;
      var fails: bool, tooLarge: bool := *, *;
      if fails || facts == [] || st.status == Deleted {
        r := AppendThrew(if tooLarge then PayloadTooLarge else OtherError);
      } else {
        r := Meets(st, claim, expected);
        if r.AppendLanded? {
          st := Appended(st, facts);
        }
      }
      Trace(Tried(facts, expected, at, r));
    }

    /** Read the row, and if the run is still live (or still exists) append to
        the version read; `None` if it is not. */
    method ReadAndAppend(facts: seq<Fact>, running: bool)
      returns (r: Option<Append>, ghost evs: seq<Event>, ghost at: RunState)
      requires Valid()
      modifies this`st, this`log
      ensures Valid() && (old(Evidenced()) ==> Evidenced())
      ensures log.trace == old(log.trace) + evs
      ensures log.conflicts == old(log.conflicts) + if r == Some(AppendConflict) then 1 else 0
      ensures if r == None then StoppedRead(evs, running) && evs[0].row == at
              else OneTry(evs, facts, running) && evs[1].result == r.value && evs[1].met == at
      ensures RaceLeaves(EndOf(r), st, at, old(st.landed), facts, running, claim)
      ensures log.foreign >= old(log.foreign)
      ensures log.foreign == old(log.foreign) ==> at == old(st)
      ensures r == Some(AppendConflict) ==> log.foreign > old(log.foreign)
    {
      var row := GetState();
      evs, at := [Read(row)], row;
      if if running then row.status != Running else row.status == Deleted {
        return None, evs, at;
      }
      var res, met := AppendFact(facts, row.version);
      evs, at := [Read(row), Tried(facts, row.version, met, res)], met;
      r := Some(res);
    }

    /** One more read and append behind `done` lost races. */
    method RaceOnce(facts: seq<Fact>, running: bool, ghost lost: seq<Event>, ghost done: nat)
      returns (r: RaceEnd, ghost tries: seq<Event>, ghost at: RunState)
      requires Valid() && LostRaces(lost, facts, running) && |lost| == 2 * done
      modifies this`st, this`log
      ensures Valid() && (old(Evidenced()) ==> Evidenced())
      ensures lost <= tries && log.trace == old(log.trace) + tries[|lost|..]
      ensures RaceTries(r, facts, running, done + 1, tries)
      ensures RaceLeaves(r, st, at, old(st.landed), facts, running, claim)
      ensures log.conflicts == old(log.conflicts) + if r.AllLost? then 1 else 0
      ensures log.foreign >= old(log.foreign) + if r.AllLost? then 1 else 0
      ensures log.foreign == old(log.foreign) ==> at == old(st)
    {
      var res, evs, met := ReadAndAppend(facts, running);
      RaceStep(lost, evs, res, facts, running, done);
      assert (lost + evs)[|lost|..] == evs;
      r, tries, at := EndOf(res), lost + evs, met;
    }

    /** The bounded series the halt, the spend append and the fan-out lane all
        run: read, append, and on a lost race read anew. */
    method Race(facts: seq<Fact>, running: bool, attempts: nat)
      returns (r: RaceEnd, ghost tries: seq<Event>, ghost at: RunState)
      requires Valid() && attempts > 0
      modifies this`st, this`log
      ensures Valid() && (old(Evidenced()) ==> Evidenced())
      ensures log.trace == old(log.trace) + tries && RaceTries(r, facts, running, attempts, tries)
      ensures RaceLeaves(r, st, at, old(st.landed), facts, running, claim)
      ensures log.conflicts >= old(log.conflicts) + if r.AllLost? then 1 else 0
      ensures log.foreign >= old(log.foreign) + if r.AllLost? then 1 else 0
      ensures log.foreign == old(log.foreign) ==> at == old(st)
    {
      var attempt := 0;
      r, tries, at := AllLost, [], st;
      while attempt < attempts && r.AllLost?
        invariant Valid() && (old(Evidenced()) ==> Evidenced())
        invariant attempt <= attempts && log.trace == old(log.trace) + tries
        invariant RaceTries(r, facts, running, attempt, tries)
        invariant RaceLeaves(r, st, at, old(st.landed), facts, running, claim)
        invariant log.conflicts >= old(log.conflicts) + if r.AllLost? && attempt > 0 then 1 else 0
        invariant log.foreign >= old(log.foreign) + if r.AllLost? && attempt > 0 then 1 else 0
        invariant log.foreign == old(log.foreign) ==> at == old(st)
      {
        ghost var lost := tries;
        r, tries, at := RaceOnce(facts, running, lost, attempt);
        Extends(lost, tries);
        attempt := attempt + 1;
      }
    }

    /** Observability is fenced by the claim like a fact, and moves nothing. */
    method AppendObservability() returns (raised: Option<Exn>)
      requires Valid()
      modifies this`st, this`log
      ensures Valid() && Rely(old(st), st) && (old(Evidenced()) ==> Evidenced())
      ensures log.trace == old(log.trace) + [Noted(raised)] && log.conflicts == old(log.conflicts)
      ensures log.foreign >= old(log.foreign) && (log.foreign == old(log.foreign) ==> st == old(st))
      ensures raised == Some(ClaimLostError) ==> st.epoch != claim
      ensures raised != Some(PayloadTooLarge)
    {
      Interfere();
      var fails: bool := *;
      raised := if fails then Some(OtherError) else if st.epoch != claim then Some(ClaimLostError) else None;
      Trace(Noted(raised));
    }

    /** Requeue the run if it is still `running` under the fiber's claim. */
    method ReleaseClaim()
      requires Valid()
      modifies this`st, this`log
      ensures Valid() && st.landed == old(st.landed) && old(Evidenced()) == Evidenced()
      ensures log.trace == old(log.trace) && log.conflicts == old(log.conflicts)
      ensures !Driven(st, claim)
    {
      Interfere();
      if Driven(st, claim) {
        st := st.(version := st.version + 1, epoch := st.epoch + 1, status := Queued);
      }
    }
  }
}
