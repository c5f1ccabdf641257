# fragua: the commit protocol and the cores around it, verified

fragua runs workflows durably: many fibers, operators, a supervisor and a crash
requeue race on one versioned event log per run. This project models the daemon's
commit protocol and proves, over every interleaving of those writers, that a handler's
money lands once and that no run is left `running` with nobody driving it. Around that
core it proves the fan-out superstep, the side-effect recorder, the wake-up of paused
runs, and eight smaller algorithms.

## How the protocol is modelled

`ClaimBoundStore.RunStore` is one run's row as a fiber sees it: version, claim epoch,
status, and the facts the fiber landed. Before every store access the model takes an
arbitrary step of everybody else (`Interfere`, any state `Rely` allows): versions only
grow, every write moves the version, and only a claim makes a run `running` again, under a
new epoch. A method's `ensures` therefore holds for all interleavings. An append lands iff
version and epoch still match, and may throw on its own. Exceptions are values.

The store keeps a ghost trace: every read with the row it saw, every append with the facts
it offered, the version it was bound to, the row it met and the answer. Each batch that
enters the commit loop gets one ghost ledger entry with its fate, and each entry a window
of the trace that bears the fate out (`Just`): a batch counts as committed only behind an
append of exactly its facts that landed; as lost to the halt only behind five offered halts
that all lost their race; and so on. The log is the concatenation of what the entries put
on it (`Balanced`), and `Accounted` keeps the books: what was planned is what the ledger
was offered, plus what is still held, plus the parked disposition, plus what a fan-out that
gave up dropped. Money and tokens are exact naturals, in the ten columns the store's
reducer folds.

The main theorem is the contract of `Executor.RunOneGuarded`. Whatever the store, the
handlers and the other writers do, the pass takes its turns, each doing the one thing its
inputs, the dispatches so far and the disposition parked before it call for (`PassShown`,
`Follows`, `ActShown`), and ends as its last turn shows (`PassEnded`, `LastShown`); it stops
for a shutdown only where one was signalled. The ledger is what those turns entered, batch
by batch, and behind it at most the crash halt. When the pass ends the run is not `running`
under its claim, unless every turn the cap allows was taken and went on, or shutdown was
signalled by the last turn taken. Everything the handlers and branches of those turns spent
is on the log once, or in one of the named places, what is parked and what was dropped
being what the turns themselves parked and dropped. `QuietCommits` and `EveryLossHasACause`
are the converse: a batch whose window shows no other writer, no stopped run and no throw is
on the log whole.

A fan-out superstep carries the story of its pool in the same way: who was started, who
settled and with what outcome, what each lane committed, what was left and how. `PoolShown`
ties the story to the ledger: each settled branch's batch is committed, in order, with its
offers made, but for the last one where its batch did not land, it halted, or it threw.
`StepWrote` carries that to the turn: by the frontier it read, a fan-out turn entered the
halt of a malformed region, the parked disposition, the seed, the join or a breach, or the
re-dispatch markers, the lanes and what comes behind them.

The contracts of turns and supersteps name their inputs and the facts those call for, not
the planners that choose them: `GateDeed`, `WorkFollows`, `ExitMeant` and `StepWrote` for a
turn, `FanoutShown`, `HandsOn` and `AbortsSince` for a superstep.

Files: `Facts` (facts, spend, the reducer's status), `ResultToFacts` (where spend rides),
`AbortPlanner` (exits), `ClaimBoundStore` (store, trace, ledger), `OccAppend` (controller,
commit loop), `Recorder`, `FanoutPlanner` and `Fanout` (the superstep), `FanoutFold` (the
operator fold on its commits), `Executor` (turns, pass, crash net), `WakePending` (intent
fold and sweeps), `Steering`, `Watchdog`, `Utf16` and `PayloadText` (clipping),
`OperatorNotes`, `CodeSpan`, `MessageStores`, `ProviderRetry`, `Semaphores`, `Wrappers`.

## What does not hold as documented

Each of these keeps the code as it is; the named member shows it or says exactly when the
code does meet the claim.

- A batch can lose its spend though the run stayed claimed and no retry was lost. The
  held batch is released before the re-plan hook runs, so a hook that throws loses it, and
  does exactly when it throws for the row it is shown; a throwing spend append loses it
  too, which takes a lane that does not park and a hook that is absent or declined
  (`LostToThrow`; at an input, `ThrowingHookLosesBatch` and `ThrowingSpendAppendLosesBatch`;
  `packages/daemon/src/occ-append.ts:331`, `:341`, `:359`).
- The fan-out pool builds its recorders on a row it reads anew, whose status it does not
  look at. If the run left `running` between the turn's read and that one, the first side
  effect lands on a stopped run, which the recorder's own comment rules out. A first
  append lands on running rows only exactly when the row the recorder was built on is
  running, if it is still under the claim; every retry does anyway
  (`FirstAppendFenced`, `PoolRecorderLandsOnPausedRow`; `packages/daemon/src/fanout.ts:681`,
  `packages/daemon/src/recorder.ts:99-108`).
- A unit is not always in one place: a parked disposition stays parked while it is
  committed again. It is parked and held at once, its spend in both, exactly when that
  commit's append throws (`CommitBilled`; at an input, `ThrowingRecommitHoldsParked`). The
  books then count the held copy, and that is the one the crash halt carries.
- A budget warning that should fire once can fire again. A branch writes the warned tags it
  started with and its own over the row's, so of two siblings that warn the second to land
  drops the first one's tag (`SiblingWarningLost`). A landing loses no tag exactly when the
  branch writes none, or the set that overwrites holds the one it overwrites (`TagsJoin`; at
  an input, `WarningLost`; `packages/daemon/src/transition-planner.ts:1034-1038`,
  `packages/daemon/src/fanout-commit.ts:41-52`).
- `spendFactsFor` keeps tokens and cost of every batch, but all ten columns only if no fact
  has other columns under zero tokens and zero cost (`SpendFactsConserve`). The cost of a
  halt that names no node moves to the node named "" (`SpendFactsNodeCost`,
  `UnnamedHaltIsCredited`), whose bucket is kept exactly when no such halt costs anything
  (`SpendFactsKeepNodeCost`).
- A bail can lose the spend of a branch that completed. A branch leaves `inflight` some
  microtasks before its outcome reaches the drain, so a bounded wait that ends in between
  finds it neither running nor settled (`HopLosesSpend`). A bail carries all that the rest
  of the pool had spent exactly when no branch in it is caught there, or threw, with
  something spent (`BailCarriesAll`; `packages/daemon/src/fanout.ts:145`, `:447-477`).
- A bail keeps all ten columns exactly if no settled fact is a legacy `run_halted` with
  spend or an unbilled halt with spend (`BailConserves`).
- The loop of `driveCrashHalt` never goes round: one commit call settles the halt or throws
  (`DriveCrashHalt`).
- The operator fold is used up by a first commit that has nothing to append, as when a
  branch yields to a human: the pause then lands without it (`FoldRidesFirstOrNone`,
  `HumanYieldDropsFold`; against the comment at `packages/daemon/src/fanout.ts:248-251`).
  Of a pool's own commits only the first lane, behind no markers, can do so, and does
  exactly if its branch completed, kept nothing and had no successor (`FoldRidesPool`).
- A malformed `intent.unquarantine` is not skipped: while it is the first one pending, no
  later resolution is seen (`MalformedBlocks`, `ReissueIsIgnored`; against the comment at
  `packages/daemon/src/wake-pending.ts:228-229`).
- `capOperatorNotes` can return `[]` though one character would fit. The rooms beside the
  envelope from which no well-formed note vanishes are nine bytes, and sixteen and up
  (`SixteenBytesKeepAny`; `FifteenBytesCanLose`, `EscapedNoteVanishes` at inputs). For a
  first code point of two to four bytes it is kept, whatever follows, exactly when the last
  halving that seats it also seats six bytes for every byte behind it (`KeepsExactly`);
  text that needs no escaping vanishes exactly when its first character does not fit.
- With a zero grace the leak watchdog can declare a leak a millisecond after the abort
  instead of with it, exactly when both are due in the same millisecond and the timer comes
  first (`LeakAt`, `InvokeHandler`).
- The steering buffer holds the last 32 steers missed while no agent was live, not the last
  32 since the live set emptied: an agent that registers after a broadcast misses it
  (`BufferIsMissedTail`, `LateAgentMissesBroadcast`).
- The code span round trip needs a value with no line ending and no space at both ends;
  the escaped command always is one (`CodeSpanRoundTrip`, `BootstrapRoundTrip`).

## Model

| member | source | states |
|---|---|---|
| Executor.RunOneGuarded | packages/daemon/src/executor.ts:284-308 | the pass took its turns, each doing what its inputs call for, a fan-out what its frontier and the parked disposition do, and ended as the last one shows, for a shutdown only where one was signalled; the ledger is what they entered and at most the crash halt; no stranded run but for the cap or shutdown; all that their handlers and branches spent is on the log once, in a batch lost on evidence, parked or dropped by those turns, or orphaned, and that only by a lost claim or a cause shown after the crash |
| Executor.PassMoney | packages/daemon/src/executor.ts:284-308 | the money of the log, of what was lost, parked, dropped and orphaned adds up to what the turns' handlers spent |
| Executor.CrashNet | packages/daemon/src/executor.ts:287-308 | a pass that threw leaves no driven run; at most one more ledger entry, and nothing orphaned without a lost claim or a shown cause |
| Executor.EveryLossHasACause | packages/daemon/src/occ-append.ts:304-361 | a batch whose window shows no other writer, no stopped run and no throw is committed whole |
| Executor.HaltBehind | packages/daemon/src/executor.ts:290-308 | everything the crash left held is in the ledger once, or orphaned because the run was read stopped or the store threw again |
| Executor.CommitCrashHalt | packages/daemon/src/executor.ts:315-343 | the run is never left `running`; either one batch with exactly the interrupted spend and a halt in error behind it is in the ledger, or the trace shows the run stopped or a throw |
| Executor.HaltTwice | packages/daemon/src/executor.ts:325-340 | the clipped halt, and the minimal one only if the first was too large and landed nothing |
| Executor.DriveCrashHalt | packages/daemon/src/executor.ts:345-361 | one commit call settles the halt: no fate only if the run was read stopped or the append threw, abandoned exactly if five halts lost their race |
| Executor.ReleaseIfStillRunning | packages/daemon/src/executor.ts:363-366 | afterwards the run is not `running` under the claim, and nothing landed |
| Executor.RunOneInner | packages/daemon/src/executor.ts:376-413 | a pass that ends without a crash leaves the run stopped or its claim given back, unless shutdown or the cap with every turn continued ended it; a failing disposal replaces the crash |
| Executor.RunTurns | packages/daemon/src/executor.ts:399-404 | the turn loop ends exactly as its turns show: one threw, one ended it, every turn of the cap went on, or shutdown was seen; ledger, spend, leaks and dispatches are the sum of what the turns did |
| Executor.TakeTurn | packages/daemon/src/executor.ts:399-404 | one more turn behind the others unless shutdown is seen, and whether the pass has ended with it |
| Executor.DispatchTurn | packages/daemon/src/dispatch-turn.ts:95-134 | the turn reads the run stopped and does nothing, or does the one thing its inputs call for, the operator's pause or cancel first; its entries, throw, spend, drops, starts, leaks and what it leaves parked are those of that thing |
| Executor.ReadTurn | packages/daemon/src/dispatch-turn.ts:95-100 | the row is read: a stopped run ends the pass with nothing done, any other goes to the gates |
| Executor.DispatchLive | packages/daemon/src/dispatch-turn.ts:100-134 | past its read a turn is stopped by the first gate that stands, refuses a leaked node, or starts, marks or dispatches its node, a region's entries following its frontier and the disposition parked |
| Executor.DispatchWork | packages/daemon/src/dispatch-turn.ts:117-133 | a region enters its halt, the parked disposition, its seed, its join or breach, or its markers, lanes and what comes behind them, as its frontier says; a handler runs, is counted and billed exactly behind its marker and below the ceiling |
| Executor.DispatchNode | packages/daemon/src/dispatch-turn.ts:125-134 | no marker: the marker is committed; at the ceiling: its pause; else the handler runs |
| Executor.DispatchRegion | packages/daemon/src/dispatch-turn.ts:121-123 | the superstep's own account of its turn, as entries, starts, spend, drops and throw of the turn |
| Executor.WroteAsShown | packages/daemon/src/fanout.ts:709-799 | a fan-out turn's ledger entries are those its frontier and the parked disposition call for, and it threw only on a store access or in a branch |
| Executor.PassGates | packages/daemon/src/dispatch-turn.ts:100-119 | the first gate that stands ends the turn with its own fact in the ledger or a throw shown by the trace; `None` exactly when no gate stands, with nothing billed or entered, unless the audit of dropped intents threw |
| Executor.StopTurn | packages/daemon/src/dispatch-turn.ts:168-203 | an operator's cancel is entered as the abort on its intent, a pause as the operator's, with its one fate or its append threw; committed, it ends the pass |
| Executor.OperatorIsObeyed | packages/daemon/src/dispatch-turn.ts:100-110 | of every turn past its entry gates: for a cancel the one batch entered ends the run aborted on that intent and leaves it cancelled, for a pause it parks the run for the operator on no timer; committed, the pass is over |
| Executor.PassObeys | packages/daemon/src/dispatch-turn.ts:100-110 | the same of every turn of a whole pass |
| Executor.StartOrMark | packages/daemon/src/dispatch-turn.ts:261-356 | the start or the marker is entered with its one fate or its append threw; committed, the turn goes on with the conflict count cleared, or clearing threw |
| Executor.DispatchHandler | packages/daemon/src/dispatch-turn.ts:439-493 | the planned batch or a re-plan of it is entered, or its append threw, and for a handler without a result the batch means what the way it left calls for; it is billed once; a leaked node is refused from then on and its turn never goes on |
| Executor.ExitMeans | packages/daemon/src/dispatch-turn.ts:474-495 | every batch planned for a handler that left charges the node first; then a leak halts, a budget breach halts or parks, a throw that no signal and no trip explains halts with the handler's own error, a timeout parks for a timer and the third in a row halts, and a shutdown, a trip or any other abort leaves the run running |
| Executor.ExitDeclinedExactly | packages/daemon/src/dispatch-turn.ts:577-581 | a fresh row declines an exit iff it timed out and the row's counter is on the other side of the bound; planning throws iff the row's routing is gone |
| Executor.ReplanIsFresh | packages/daemon/src/dispatch-turn.ts:577-581 | a re-plan is charged to the row's pass, and a leak's to the row's time |
| Executor.CommitReturned | packages/daemon/src/dispatch-turn.ts:655-694 | a result's batch, or its hook's, is entered once, and cut to its spend only if the hook can decline; committed, the turn goes on with the conflict count cleared unless clearing threw |
| Executor.CommitExit | packages/daemon/src/dispatch-turn.ts:555-648 | the exit's batch or a re-plan of it is entered, cut to its spend only behind a timeout, behind a committed plain abort at most the abort-loop pause; the usage is billed once, and a halt or pause never goes on |
| Executor.CommitAndCount | packages/daemon/src/dispatch-turn.ts:617-648 | a committed plain abort counts, and parks exactly at the ceiling |
| Executor.CountAbort | packages/daemon/src/dispatch-turn.ts:624-644 | the streak grows by one; at the ceiling the abort-loop pause of the node is entered or its append threw, below it nothing is and only the warning can throw |
| Executor.CommitLinear | packages/daemon/src/dispatch-turn.ts:168-203 | the batch or its hook's has one fate in the ledger, or its append threw, and the turn ends as that fate says; it is billed once and never ends the pass with a driven run |
| Executor.ParkTurn | packages/daemon/src/dispatch-turn.ts:140-166 | the gate's fact is entered with its one fate, or its append threw; the turn never goes on |
| Executor.Resolve | packages/daemon/src/occ-append.ts:183-194 | resolving after a landed commit changes no book, whether or not it raises |
| Executor.ReplannedExit | packages/daemon/src/dispatch-turn.ts:568-581 | every re-plan of an exit carries the same spend and parks the run exactly if the first plan did |
| OccAppend.CommitWithOcc | packages/daemon/src/occ-append.ts:304-350 | ends within the ceiling for any hook; the batch has one fate, borne out by this call's reads and appends, and is held exactly while that is open; with nobody else moving it lands or its append threw; it raises from the hook exactly if the hook threw |
| OccAppend.CommitRound | packages/daemon/src/occ-append.ts:307-345 | one round: the loop goes on only behind a conflicting append below the ceiling with a re-planned batch, nothing held or logged; undisturbed it ends with the batch landed or a throw |
| OccAppend.TryBatch | packages/daemon/src/occ-append.ts:308-323 | one attempt: landed, stopped, claim gone or thrown as the trace shows, or a conflicting append of this very batch |
| OccAppend.AfterAttempt | packages/daemon/src/occ-append.ts:311-323 | a landed, stopped or fenced attempt ends the call, a re-planned landing resetting the conflict count |
| OccAppend.AttemptHeld | packages/daemon/src/occ-append.ts:308-310 | the batch is released and its fate logged with its evidence unless the attempt conflicted or threw |
| OccAppend.AfterConflict | packages/daemon/src/occ-append.ts:324-345 | a conflict halts, gives up, parks, cuts to spend, stops or re-plans, with the matching fate and evidence; halts and gives up only at the ceiling |
| OccAppend.ReplanOrPark | packages/daemon/src/occ-append.ts:341-361 | below the ceiling the hook's answer for a fresh running row decides: re-plan, park or cut, or raise with the batch lost |
| OccAppend.DriveConflict | packages/daemon/src/occ-append.ts:324-340 | the batch that meets the ceiling is logged behind the landed halt, or lost to five halts that lost their race, a stopped run or a moved claim |
| OccAppend.NextReplan | packages/daemon/src/occ-append.ts:365-370 | the hook is asked about the row just read, and that is running; otherwise the run was read stopped |
| OccAppend.ParkUnplanned | packages/daemon/src/occ-append.ts:356-361 | a parking lane keeps the whole batch, any other is cut to its spend |
| OccAppend.CutToSpend | packages/daemon/src/occ-append.ts:205-214 | the spend lands alone, or is lost to five conflicting appends, a moved claim, a deleted run or a throw, as the trace shows |
| OccAppend.Attempt | packages/daemon/src/fanout-commit.ts:30-65 | an attempt lands the batch whole on one row or not at all, the lane only on a running row; an empty batch alone offers nothing; a conflict is an append of the batch, on the lane a whole bounded series of them |
| OccAppend.CommitParkOrTerminal | packages/daemon/src/occ-append.ts:394-420 | never parked or cut: terminal, and then the run stopped or, at the ceiling and after five lost halts, the controller abandoned; undisturbed it lands or throws |
| OccAppend.CommitPark | packages/daemon/src/occ-append.ts:394-420 | the same with the books kept: one fate in the ledger, or the append threw |
| OccAppend.StepEntered | packages/daemon/src/occ-append.ts:304-361 | what such a step entered: one batch with one fate, which decides whether the pass ends or goes on, or nothing behind a throw the trace shows |
| OccAppend.CommitBilled | packages/daemon/src/occ-append.ts:304-361 | a batch is billed once, and the books count every unit in one place; a parked disposition is parked and held at once exactly when the append of its re-commit threw |
| OccAppend.ThrowingRecommitHoldsParked | packages/daemon/src/occ-append.ts:304-310 | a concrete parked batch whose re-commit throws: its seven micro-units are counted twice, and the crash halt takes them once |
| OccAppend.CommitMovesOnce | packages/daemon/src/occ-append.ts:304-361 | one commit call adds its batch's spend to exactly one of ledger, held and parked |
| ClaimBoundStore.LedgerConserves | packages/daemon/src/occ-append.ts:324-361 | the log carries exactly the spend of every batch not lost, once, to the token and micro-unit |
| ClaimBoundStore.PartSpend | packages/daemon/src/lifecycle-planner.ts:111-135 | a batch cut to its halt or its spend keeps its tokens and cost, and never more than it had |
| ClaimBoundStore.PartStops | packages/daemon/src/lifecycle-planner.ts:111-135 | the halt of the conflict ceiling ends the run as halted, for that reason; the spend of a batch alone never moves its status |
| OccAppend.OccController.OnConflict | packages/daemon/src/occ-append.ts:141-182 | retries exactly below the ceiling; says halted only if the run left `running`; abandons only after five halts offered and lost on running rows; lands the halt behind the spend or nothing |
| OccAppend.OccController.HaltExhausted | packages/daemon/src/occ-append.ts:150-164 | the bounded halt: landed, found stopped, fenced, thrown, or five lost races and a last read |
| ClaimBoundStore.RunStore.Race | packages/daemon/src/fanout-commit.ts:37-64 | the bounded read-and-append series: every lost race is a read and an append bound to it that a later write overtook; without other writers the first one decides |
| OccAppend.OccController.OnResolved | packages/daemon/src/occ-append.ts:183-194 | resets the counter unless the audit event raises |
| OccAppend.OccController.CommitSpend | packages/daemon/src/occ-append.ts:205-214 | the spend lands whole and once, or not at all, and the trace says why: fenced, deleted, thrown, or five lost races |
| ClaimBoundStore.QuietCommits | packages/daemon/src/occ-append.ts:304-361 | whatever is not committed whole has another writer's move, a stopped run or a throw in its window |
| OccAppend.LostToThrow | packages/daemon/src/occ-append.ts:324-361 | a batch is lost to the hook exactly when the hook threw for the row shown, to its spend append exactly when that threw; nothing of it is logged |
| OccAppend.CutIfDeclined | packages/daemon/src/occ-append.ts:356-370 | a batch is cut to its spend, or lost on the way, only if its plan has no re-plan or one that declined |
| OccAppend.ThrowingHookLosesBatch | packages/daemon/src/occ-append.ts:331-345 | a concrete batch, row and hook that lose seven micro-units a cut would have kept |
| OccAppend.ThrowingSpendAppendLosesBatch | packages/daemon/src/occ-append.ts:356-361 | the same with a throwing spend append |
| OccAppend.OccController.HoldSpend | packages/daemon/src/occ-append.ts:196-200 | the batch is held last, under a token no other batch has |
| OccAppend.OccController.ReleaseSpend | packages/daemon/src/occ-append.ts:201-203 | exactly the token's batch is released |
| OccAppend.WithoutLast | packages/daemon/src/occ-append.ts:196-203 | holding and releasing a batch leaves the held batches as they were |
| ClaimBoundStore.RunStore.AppendFact | packages/store/src/store-writer.ts:175-256 | an append lands iff version and epoch match the row it meets, as one new version |
| ClaimBoundStore.RunStore.ReleaseClaim | packages/store/src/run-state-queries.ts:732-745 | the run is not `running` under the claim afterwards |
| ClaimBoundStore.LeftStaysLeft | packages/store/src/run-state-queries.ts:604-614 | no other writer puts a stopped run back under an old claim |
| ClaimBoundStore.OthersMay | packages/store/src/run-state-queries.ts:604-745 | what everybody else may do includes any commit, any stop, a crash requeue and a new claim |
| Recorder.CommittingRecorder.Commit | packages/daemon/src/recorder.ts:80-115 | a record call lands one fact or throws having landed none; the trace shows at most sixteen retries, each behind a conflicting append and a running read; gives up only at seventeen conflicts or on a run not running; a retry lands on a running row, a first append on the row of its token |
| Recorder.FirstAppendFenced | packages/daemon/src/recorder.ts:99-108 | every row a first append can land on is running iff the row the recorder was built on is, if it is under the claim |
| Recorder.PoolRecorderLandsOnPausedRow | packages/daemon/src/fanout.ts:681 | a concrete pause between two reads after which a side effect lands on the paused run |
| Recorder.CommittingRecorder.constructor | packages/daemon/src/recorder.ts:33-38 | any row read earlier gives a recorder whose token is that row |
| Facts.ParkingBatchStops | packages/store/src/reducers.ts:185-265 | a batch that ends in a pause or terminal takes the run out of `running` whatever precedes it |
| Facts.StatusByFact | packages/store/src/reducers.ts:40-230 | only a resume queues a run, only a start, or a dispatch from the queue, has it running; the reason decides how it is paused, the kind of end which end it is |
| Facts.NodeCostWithin | packages/store/src/reducers.ts:142-167 | no node's bucket is credited with more cost than the run, and the only node credited has all of it |
| Facts.FilterConserves | packages/store/src/reducers.ts:142-167 | dropping facts conserves all ten columns exactly if what is dropped has no spend |
| ResultToFacts.SpendFactsConserve | packages/daemon/src/result-to-facts.ts:404-449 | the split keeps tokens and cost always, all ten columns iff nothing hides under zero tokens and cost |
| ResultToFacts.BuildSpendFacts | packages/daemon/src/result-to-facts.ts:404-449 | the loop computes the split and conserves tokens and cost |
| ResultToFacts.SpendFactsIdempotent | packages/daemon/src/result-to-facts.ts:404-449 | splitting again changes nothing |
| ResultToFacts.SpendFactsAreAborts | packages/daemon/src/result-to-facts.ts:404-449 | the split is billed aborts only, under its cause; a completion's spend stays on its node, iteration and pass |
| ResultToFacts.SpendFactsKeepStatus | packages/daemon/src/result-to-facts.ts:326-350 | spend facts never move the run's status |
| ResultToFacts.SpendFactsNodeCost | packages/daemon/src/result-to-facts.ts:429-448 | every node's cost bucket is kept, but the node named "" also gets what no node was credited with |
| ResultToFacts.SpendFactsKeepNodeCost | packages/daemon/src/result-to-facts.ts:429-448 | that bucket is kept iff no halt without a node costs anything |
| ResultToFacts.UnnamedHaltIsCredited | packages/daemon/src/result-to-facts.ts:429-448 | a concrete unnamed halt whose cost moves to the node named "" |
| ResultToFacts.HaltPartition | packages/daemon/src/result-to-facts.ts:454-459 | split and remainder partition a halt; the remainder still stops the run and carries nothing |
| AbortPlanner.ExitCreditsUsageOnce | packages/daemon/src/abort-planner.ts:169-257 | every exit credits the turn's usage once in all columns, on the dispatched node, whatever the routing |
| AbortPlanner.ExitOutcomeIsStatus | packages/daemon/src/abort-planner.ts:189-256 | the outcome tag is what the batch does to the run; a leak always halts; only a timeout's retry touches the routing beyond what the intents folded, and sets the timer |
| AbortPlanner.ExitPrecedence | packages/daemon/src/abort-planner.ts:166-257 | leak, budget halt and budget pause outrank the signal; exactly which exits halt, pause or retry |
| AbortPlanner.TimeoutBackoff | packages/daemon/src/abort-planner.ts:208-236 | the two retries wait five and ten seconds, so the ceiling is never reached, and count themselves |
| AbortPlanner.ExitShape | packages/daemon/src/abort-planner.ts:169-257 | node-scoped facts first, then at most one run-level fact |
| AbortPlanner.TimeoutChain | packages/daemon/src/abort-planner.ts:208-246 | consecutive timeouts pause exactly while the counter is short of the bound: two pauses, then a halt |
| AbortPlanner.PlanAbortLoops | packages/daemon/src/abort-planner.ts:297-309 | the first streak at the ceiling parks, and exactly the streaks one short of it warn |
| AbortPlanner.WarnedExactly | packages/daemon/src/abort-planner.ts:272-309 | the nodes one abort short of the ceiling, in the order of their streaks, and no other |
| FanoutPlanner.SlotIsFirstMax | packages/daemon/src/fanout-planner.ts:73-88 | the slot is the first fact of maximal rank |
| FanoutPlanner.PoolSlotIsFirstMax | packages/daemon/src/fanout.ts:392-408 | over any order of exits, completions, breaches and ceilings the slot is the first maximum of all offers |
| FanoutPlanner.PoolSlotMasksNothing | packages/daemon/src/fanout-planner.ts:69-79 | no pause masks a halt, no other pause a budget's, and none that a timer wakes any other |
| FanoutPlanner.PartitionExitFacts | packages/daemon/src/fanout-planner.ts:93-104 | splits an exit into branch facts and the slot after its offers |
| FanoutPlanner.PlanBranchSettlement | packages/daemon/src/fanout-planner.ts:195-242 | kept facts, marker, slot, successor and fail-closed terminal of a completion |
| FanoutPlanner.BranchFailsClosed | packages/daemon/src/fanout-planner.ts:195-242 | a branch never completes the run: where it would, or its successor is neither the join nor in the graph, what it offers halts the run |
| FanoutPlanner.SortCompletion | packages/daemon/src/fanout-planner.ts:207-228 | one scan sorts kept facts, offers and the run-completing terminal |
| FanoutPlanner.SettlementConserves | packages/daemon/src/fanout-planner.ts:195-242 | the lane batch spends what the branch spent, iff no unbilled halt hides columns; offers carry nothing |
| FanoutPlanner.SettlementKeepsMoney | packages/daemon/src/fanout-planner.ts:195-242 | tokens and cost are kept for every batch |
| FanoutPlanner.ExitSplitConserves | packages/daemon/src/fanout-planner.ts:93-104 | an exit's usage stays on its lane; what reaches the slot carries nothing |
| FanoutPlanner.PlanBailSettlement | packages/daemon/src/fanout-planner.ts:254-267 | the bail's sibling batch |
| FanoutPlanner.BailConserves | packages/daemon/src/fanout-planner.ts:254-267 | every settled sibling's spend and running sibling's usage once, iff nothing the bail does not keep carries spend; never more |
| FanoutPlanner.BailKeepsMoney | packages/daemon/src/fanout-planner.ts:254-267 | of emitted facts every token and micro-unit is kept |
| FanoutPlanner.BailKeepsEnds | packages/daemon/src/fanout-planner.ts:244-267 | each settled sibling's completion, abort or leak is in the batch as it was, and one abort of each running one with its own spend |
| FanoutPlanner.BailEndsRun | packages/daemon/src/fanout-planner.ts:244-267 | sibling facts never change what the terminal does to the run |
| FanoutPlanner.SettlementMovesFrontier | packages/store/src/reducers.ts:75-83 | one commit moves the frontier from a node to its successor and touches no sibling; an abort leaves its node in it, and a seed starts it with the branches |
| Fanout.Superstep.BailOnTerminal | packages/daemon/src/fanout.ts:447-480 | one batch, offered to the log or parked, carries every sibling's spend, settled or running, exactly once, ahead of the terminal, but for what a bail misses |
| Fanout.Superstep.Drain | packages/daemon/src/fanout.ts:447-477 | whatever the settlement order, settled and running branches partition the pool's spend, but for what a bail misses |
| Fanout.Superstep.BailOnExitHalt | packages/daemon/src/fanout.ts:485-493 | a halting exit bails with exactly its own spend and its siblings', but for what a bail misses, and ends the turn |
| Fanout.Superstep.HaltFacts | packages/daemon/src/fanout.ts:485-493 | a leak ends the run with its own facts, any other halt with its branch facts and the ranked halt |
| Fanout.Superstep.SettleExit | packages/daemon/src/fanout.ts:499-529 | bails exactly on a halting exit; any other commits exactly its branch facts next on the lanes and makes its offers, a plain abort adding to its node's streak, or the pool is left for a shown cause |
| Fanout.Superstep.SettleSuccess | packages/daemon/src/fanout.ts:533-578 | a completion's batch, with the marker of its successor, is next on the lanes with its offers made, and that successor and no other is started unless the budget tripped or the slot holds something; its streak ends; or the pool is left for a shown cause |
| Fanout.Superstep.ContinueBranch | packages/daemon/src/fanout.ts:566-574 | bails exactly on a halt in the slot; else starts the successor exactly with an empty slot, no tripped budget and dispatches left |
| Fanout.Superstep.StartSuccessor | packages/daemon/src/fanout.ts:573 | the successor starts, counted, exactly with an empty slot, no tripped budget and dispatches left |
| Fanout.Superstep.PlanSuccess | packages/daemon/src/fanout.ts:539-551 | the lane batch keeps the completion's tokens and cost and its offers join the slot |
| Fanout.Superstep.OfferExit | packages/daemon/src/fanout.ts:490-506 | a halting exit leaves a halt in the slot |
| Fanout.Superstep.CommitBranch | packages/daemon/src/fanout.ts:507-528 | a settled branch's batch is next on the lanes, or the pool is given up |
| Fanout.Superstep.Land | packages/daemon/src/fanout.ts:507-572 | the batch is committed, then the streaks move, then the barrier looks; each may leave the pool |
| Fanout.StreaksCount | packages/daemon/src/fanout.ts:525-566 | the abort streaks a pool leaves are, of every node, how often it aborted plainly since it last completed, read off the branches that settled |
| Fanout.Superstep.CommitLane | packages/daemon/src/fanout.ts:507-516 | the batch is never parked: it landed, its append threw, or the ledger names its fate |
| Fanout.Superstep.GiveUpPool | packages/daemon/src/fanout.ts:517-520 | ends the turn only on a batch that threw or has another fate than committed; what the siblings had spent is dropped, neither more nor less |
| Fanout.Superstep.Discard | packages/daemon/src/fanout.ts:692-696 | the rest of the pool is dropped, exactly what it had spent |
| Fanout.Superstep.DropFailed | packages/daemon/src/fanout.ts:692-696 | a branch that threw drops its spend and takes the pool with it |
| Fanout.Superstep.CaptureDisposition | packages/daemon/src/fanout.ts:394-398 | exactly one breach event joins the slot by rank, none over a halt or if the audit threw |
| Fanout.Superstep.CaptureOrDiscard | packages/daemon/src/fanout.ts:566-572 | a barrier that throws drops the pool, otherwise nothing |
| Fanout.Superstep.PoolDispatch | packages/daemon/src/fanout.ts:402-435 | nothing once the budget tripped; at the ceiling its pause is offered; else the node is started and counted |
| Fanout.Superstep.StartFrontier | packages/daemon/src/fanout.ts:683 | exactly the frontier's nodes the ceiling and the budget allow are started, in order |
| Fanout.Superstep.CommitDisposition | packages/daemon/src/fanout.ts:252-268 | the disposition is in the ledger and the run stopped, or parks whole for the next turn, or its append threw |
| Fanout.Superstep.RunPool | packages/daemon/src/fanout.ts:676-706 | the pool terminates with the frontier started; each settled branch's batch is committed in order and its offers made, but the last one's where its batch failed, halted or threw; none was skipped; every started node settled or was left, and only what was left or threw is dropped; drained, nothing was left, the abort streaks are those of the branches that settled, and the first maximum of all offers is committed or parked |
| Fanout.NoneWereSkipped | packages/daemon/src/fanout.ts:402-436 | no branch of a pool that wrote its lanes had been skipped |
| Fanout.Superstep.SettleAll | packages/daemon/src/fanout.ts:685-691 | branch after branch settles until the pool is empty or one ends the turn |
| Fanout.Superstep.SettleNext | packages/daemon/src/fanout.ts:686-696 | one more branch settles, its batch next on the lanes, its offers made, its streak moved and its successor started, or the pool is left for a shown cause; each step makes progress |
| Fanout.Superstep.TakeSettled | packages/daemon/src/fanout.ts:685-688 | whichever branch settled leaves the pool and joins the settled, no node lost or doubled |
| Fanout.Superstep.SettleRegion | packages/daemon/src/fanout.ts:698-705 | the slot, else the first abort loop's pause, else a breach is what is committed or parked; otherwise the run goes round |
| Fanout.Superstep.CommitRegion | packages/daemon/src/fanout.ts:646-672 | a region batch is committed, or threw, or has another named fate and ends the turn |
| Fanout.Superstep.RunFanout | packages/daemon/src/fanout.ts:709-799 | by its inputs: without a join or branches it halts, a parked disposition is committed again, with no frontier it enters the region's start with its branches, with an empty one the join, the operator's deferred pause or a breach, with any other it runs the pool or ends on re-dispatch markers that did not land; ledger, starts and spend are those of the superstep's story |
| Fanout.Superstep.CommitSeed | packages/daemon/src/fanout.ts:581-606 | the region's start is entered with its one fate, or its append threw |
| Fanout.Superstep.RunFrontier | packages/daemon/src/fanout.ts:646-706 | re-dispatch markers that do not land end the turn; behind them the pool runs with its whole story in the ledger |
| Fanout.Superstep.CommitJoin | packages/daemon/src/fanout.ts:608-643 | a breach is entered or parked at the barrier; else the join, or the deferred pause instead, is entered with its one fate, or its append threw; committed, the turn goes on or resolving threw |
| Fanout.DrainedSpend | packages/daemon/src/fanout.ts:472-477 | a drained pool holds only accrued spend and what a bail misses |
| Fanout.NothingMissed | packages/daemon/src/fanout.ts:447-477 | a bail misses nothing of a pool iff no branch of it threw or is caught between running and delivered with something spent |
| Fanout.BailCarriesAll | packages/daemon/src/fanout.ts:447-477 | so a bail carries all that the rest of the pool had spent, iff no branch of it is one of those |
| Fanout.HopLosesSpend | packages/daemon/src/fanout.ts:145 | a concrete branch whose seven micro-units a bail would carry an instant before and after, and misses in between |
| Fanout.SlotTakesOffers | packages/daemon/src/fanout-planner.ts:81-88 | the slot parks, carries nothing, and keeps a halt |
| FanoutFold.MergeIsBoth | packages/daemon/src/dispatch-wiring.ts:76-85 | one merged append does what fold and branch would do in two, the watermark never going back |
| FanoutFold.TagsJoin | packages/daemon/src/fanout-commit.ts:41-52 | warn tags join without touching another key or the watermark; none of row, region and branch is lost iff the branch writes none or the overwriting set holds the overwritten one |
| FanoutFold.SiblingWarningLost | packages/daemon/src/transition-planner.ts:1034-1038 | of two siblings that warn, the second to land drops the first one's tag unless it was recorded before or is its own |
| FanoutFold.WarningLost | packages/daemon/src/fanout-commit.ts:41-52 | a concrete row and branch that lose a warning, both ways |
| FanoutFold.FoldLane.TakeFold | packages/daemon/src/fanout.ts:242-246 | the fold is handed out once |
| FanoutFold.FoldLane.CommitFanoutFact | packages/daemon/src/fanout-commit.ts:30-65 | an empty batch appends nothing and says it landed; another lands its options once or not at all, giving up only behind eight conflicting appends of it |
| FanoutFold.FoldLane.RunCommits | packages/daemon/src/fanout.ts:507-578 | over a sequence of commits the options appended are those of `Rides`; it stops only at a batch whose bounded series, as the trace shows, did not land it |
| FanoutFold.FoldRidesFirstOrNone | packages/daemon/src/fanout.ts:242-246 | the fold rides the first append whole, or none, iff the first batch is empty |
| FanoutFold.FoldRidesPool | packages/daemon/src/fanout.ts:242-246 | whatever a pool did, the fold rides the first batch its turn committed, whole, or nothing: the markers, else the lane of the branch that settled first, empty iff that branch completed, kept nothing and had no successor |
| FanoutFold.ExitKeepsItsAbort | packages/daemon/src/fanout-planner.ts:93-104 | every exit keeps its abort on its lane, so no exit's lane is empty |
| FanoutFold.HumanYieldDropsFold | packages/daemon/src/fanout.ts:248-268 | a concrete pause that lands without the fold |
| WakePending.FoldAccountsForAll | packages/core/src/handler/intent-fold.ts:82-291 | every intent takes effect, is dropped with a reason, or is a marker, in every status |
| WakePending.Fold | packages/core/src/handler/intent-fold.ts:82-291 | the loops compute the fold |
| WakePending.FoldPauses | packages/core/src/handler/intent-fold.ts:270-278 | a pause request stops a dispatching run now, or behind the dispatch iff a steer or a human input came with it, never both |
| WakePending.FoldLastWins | packages/core/src/handler/intent-fold.ts:229-262 | of several inputs, priorities or values of one cap the last one stands |
| WakePending.FoldInventsNothing | packages/core/src/handler/intent-fold.ts:82-291 | no input, priority or cap that no intent asked for |
| WakePending.FoldDropsExactly | packages/core/src/handler/intent-fold.ts:98-245 | an intent is dropped, and for this reason, iff a cancel supersedes it, its status has no use for it, it is malformed, or a later one won |
| WakePending.FirstCancel | packages/core/src/handler/intent-fold.ts:85-92 | the lowest cancel, iff there is one |
| WakePending.AtMostOneBatch | packages/daemon/src/wake-pending.ts:49-56 | one wake-up appends at most one batch per run, by the first sweep that has one |
| WakePending.CancelWins | packages/daemon/src/wake-pending.ts:62-83 | a pending cancel ends the run aborted, on the first one issued, and nothing resumes it |
| WakePending.WakesExactly | packages/daemon/src/wake-pending.ts:91-206 | a run with no cancel pending wakes iff what it waits for is there: an input or a resume, its time or a resume, a resume; then it is queued by one fact and nothing else of it changes; no other run is touched |
| WakePending.TimerWakes | packages/daemon/src/wake-pending.ts:182-206 | a timer wakes a paused run iff a provider's, a handler's or a timeout's retry paused it and the time has come |
| WakePending.QuarantineResolved | packages/daemon/src/wake-pending.ts:235-271 | the first pending resolution of a quarantined run: cancel ends it aborted on that intent, retry queues it and nothing else, done queues it behind one done fact for each orphan in order |
| WakePending.SecondSweepQuiet | packages/daemon/src/wake-pending.ts:44-56 | a second wake-up changes nothing |
| WakePending.SweepOutcome | packages/daemon/src/wake-pending.ts:91-206 | a sweep leaves the run queued or cancelled; resumes never move the watermark |
| WakePending.UnquarantineFoldsWhatItPasses | packages/daemon/src/wake-pending.ts:223-271 | the watermark passes intents only in one append with their fold |
| WakePending.MalformedBlocks | packages/daemon/src/wake-pending.ts:235-242 | a quarantined run wakes iff its first pending resolution is valid |
| WakePending.ReissueIsIgnored | packages/daemon/src/wake-pending.ts:228-242 | a concrete reissued resolution that is never seen |
| WakePending.TreatedAsDone | packages/daemon/src/wake-pending.ts:255-263 | one done fact for each orphan and no other, and the run queued in the same append |
| WakePending.NextPending | packages/store/src/event-queries.ts:359-370 | a pending intent of the kind, iff there is one |
| WakePending.NextIsEarliest | packages/store/src/event-queries.ts:359-370 | and it is the earliest of its kind |
| WakePending.WakeStore.AppendFact | packages/store/src/store-writer.ts:180-186 | lands iff the version is the one read |
| WakePending.WakeStore.WakeOne | packages/daemon/src/wake-pending.ts:67-81 | one candidate's row becomes its swept row |
| WakePending.WakeStore.RunSweep | packages/daemon/src/wake-pending.ts:62-83 | the loop sweeps every row and reports exactly the rows it changed |
| WakePending.WakeStore.WakeAll | packages/daemon/src/wake-pending.ts:49-56 | every run ends as its own five sweeps make it, independent of the others |
| Steering.EachAgentInOrder | packages/agent/src/steering-registry.ts:89-146 | an agent gets only its own run's steers, in strictly increasing order of issue, and the whole buffer while live |
| Steering.LiveAgentGetsEverySteer | packages/agent/src/steering-registry.ts:89-146 | the converse: an agent gets every steer that is not empty and issued on its run between its registration and its end, unless the run is forgotten in between |
| Steering.EndedAgentGetsNothing | packages/agent/src/steering-registry.ts:113-146 | an agent that ended is handed nothing until it registers again |
| Steering.BufferIsMissedTail | packages/agent/src/steering-registry.ts:126-146 | the buffer is the last 32 steers missed while nobody was live |
| Steering.NothingCrossesEmptying | packages/agent/src/steering-registry.ts:113-121 | nothing buffered before an emptying or a forget is handed out after it |
| Steering.StepOrdered | packages/agent/src/steering-registry.ts:89-155 | every operation keeps the order of one agent's inbox against its run's buffer |
| Steering.LateAgentMissesBroadcast | packages/agent/src/steering-registry.ts:126-136 | an agent that registers after a broadcast never gets it |
| Steering.SteeringRegistry.BeginRun | packages/agent/src/steering-registry.ts:89-107 | the agent keeps its place with the new tag or comes last, and gets the buffer once; no other run or agent changes; the history is refined |
| Steering.SteeringRegistry.DrainInto | packages/agent/src/steering-registry.ts:97-106 | the buffer goes once to an agent, and stays |
| Steering.SteeringRegistry.EndRun | packages/agent/src/steering-registry.ts:113-121 | the ended agent alone leaves and every other keeps its tag and its place; the buffer goes with the last one; one that is not live changes nothing; the history is refined |
| Steering.SteeringRegistry.IssueSteer | packages/agent/src/steering-registry.ts:126-146 | delivered to exactly the live agents, naming every target in order, or kept behind the newest of what was missed; the history is refined |
| Steering.SteeringRegistry.ForgetRun | packages/agent/src/steering-registry.ts:151-155 | nothing of the run is left and nothing of another is touched; the history is refined |
| Watchdog.InvokeHandler | packages/daemon/src/invoke-handler.ts:66-115 | a leak never before a whole grace after deadline and abort; by the worst lateness after that at the latest, and certainly of a handler that settles later still or never; with punctual timers at one exact moment, a handler settling before it returning and one settling after it leaking; the loop terminates |
| Watchdog.Deadline | packages/daemon/src/invoke-handler.ts:65-68 | the tighter of the two deadlines, none iff there is none |
| PayloadText.ClipFits | packages/core/src/payload-text.ts:69-77 | the stored form of every result is within the budget, lone surrogates included |
| PayloadText.ClipIsExact | packages/core/src/payload-text.ts:69-77 | a fitting text is unchanged; any other is cut at the last boundary in its room, the marker naming the dropped bytes exactly |
| PayloadText.ClipPayloadText | packages/core/src/payload-text.ts:69-77 | the loops compute the clip and keep the bound |
| PayloadText.FitIsLongest | packages/core/src/payload-text.ts:38-51 | the cut splits no pair and is the longest that fits |
| PayloadText.FitEnd | packages/core/src/payload-text.ts:40-51 | the walk finds that cut, and whether it is the whole text |
| PayloadText.Utf8LengthFrom | packages/core/src/payload-text.ts:53-62 | the exact UTF-8 size of the tail |
| PayloadText.MarkerBytes | packages/core/src/payload-text.ts:32-36 | the stored size of a marker |
| PayloadText.SizesAreExact | packages/core/src/payload-text.ts:9-26 | the cost tables are the sizes of JSON-quoted and plain UTF-8 text |
| PayloadText.MarkerSize | packages/core/src/payload-text.ts:28-30 | a marker's size grows only with its digits |
| PayloadText.MarkerReads | packages/core/src/payload-text.ts:28-30 | the marker is its text around the number of dropped bytes, which its digits read back to |
| OperatorNotes.Utf8Truncate | packages/core/src/routing.ts:630-648 | the loop and its surrogate fix-up compute the truncation |
| OperatorNotes.TruncatedBound | packages/core/src/routing.ts:618-648 | a prefix within the budget that splits no pair for every text, unchanged if it fits |
| OperatorNotes.TruncatedIsLongest | packages/core/src/routing.ts:618-648 | for well-formed text the longest boundary prefix, empty only if no code point fits |
| OperatorNotes.NoteFits | packages/core/src/routing.ts:655-661 | a truncated note fits with its marker, and four bytes leave something |
| OperatorNotes.NoteIsCut | packages/core/src/routing.ts:655-661 | a note within its budget is unchanged; of any other the longest boundary prefix is left that fits beside its marker, which stands iff it takes less than half of the budget |
| OperatorNotes.CapOperatorNotes | packages/core/src/routing.ts:675-693 | the two loops compute the cap |
| OperatorNotes.ShrinkNote | packages/core/src/routing.ts:687-692 | the halving loop finds the first room whose note fits, and terminates |
| OperatorNotes.CapIsLongestSuffix | packages/core/src/routing.ts:663-693 | the longest suffix whose JSON fits, else the newest alone truncated to the first halved room that fits, nothing iff none does |
| OperatorNotes.KeepsExactly | packages/core/src/routing.ts:686-692 | no well-formed note with a first code point of two to four bytes vanishes from a room, iff the last halving that seats it seats the worst case |
| OperatorNotes.SixteenBytesKeepAny | packages/core/src/routing.ts:672-692 | no well-formed note vanishes, iff the room is nine bytes, or sixteen or more |
| OperatorNotes.FifteenBytesCanLose | packages/core/src/routing.ts:686-692 | a concrete note lost from fifteen bytes |
| OperatorNotes.PlainVanishesExactly | packages/core/src/routing.ts:672-692 | plain text vanishes iff its first code point does not fit |
| OperatorNotes.EscapedNoteVanishes | packages/core/src/routing.ts:686-692 | a concrete note that vanishes though one character fits |
| OperatorNotes.JsonSizeIsExact | packages/core/src/routing.ts:676-686 | the count compared with the budget is the UTF-8 size of the array's JSON, quoting and all |
| CodeSpan.CodeSpanRoundTrip | packages/agent/src/system-prompt.ts:302-307 | section 6.1 of CommonMark reads back the value and nothing else, iff it is not empty, one line and not space-wrapped |
| CodeSpan.BootstrapRoundTrip | packages/agent/src/system-prompt.ts:281-307 | every escaped command has no `<` and no line ending and, iff not empty, survives its span |
| CodeSpan.EntitiesRoundTrip | packages/agent/src/system-prompt.ts:281-284 | the entities read back to the value |
| CodeSpan.OneLineCommandReadsBack | packages/agent/src/system-prompt.ts:281-287 | a trimmed one-line command is quoted exactly |
| CodeSpan.CommandKeepsItsWords | packages/agent/src/system-prompt.ts:281-287 | every command, of any number of lines, reads back with the same words in the same order |
| CodeSpan.LongestRun | packages/agent/src/system-prompt.ts:303 | the longest backtick run, reached if positive |
| CodeSpan.RenderRunEnvironment | packages/agent/src/system-prompt.ts:236-252 | the block's lines are exactly the ones pushed |
| CodeSpan.BlockIsFramed | packages/agent/src/system-prompt.ts:236-264 | the closing delimiter occurs only as the last line, whatever the command |
| MessageStores.KeysDistinct | packages/agent/src/message-store.ts:25-31 | keys are unambiguous for separator-free run ids, and collide otherwise |
| MessageStores.MessageStore.Get | packages/agent/src/message-store.ts:39-42 | the pair's transcript, or none |
| MessageStores.MessageStore.Put | packages/agent/src/message-store.ts:52-54 | sets the pair and no other |
| MessageStores.MessageStore.Delete | packages/agent/src/message-store.ts:59-61 | removes the pair and no other |
| MessageStores.MessageStore.ClearRun | packages/agent/src/message-store.ts:66-71 | removes every thread of the run and none of another |
| MessageStores.MessageStore.Keys | packages/agent/src/message-store.ts:79-87 | exactly the pairs stored |
| MessageStores.MessageStore.Serialise | packages/agent/src/message-store.ts:92-96 | every transcript under its key |
| MessageStores.MessageStore.Hydrate | packages/agent/src/message-store.ts:101-106 | exactly the snapshot's transcripts |
| MessageStores.Resume | packages/agent/src/message-store.ts:92-106 | hydrating a serialised store is the identity |
| MessageStores.SyntheticThreadInjective | packages/agent/src/thread.ts:65-68 | equal ids iff equal node, iteration and pass, for any node id |
| MessageStores.ThreadOfPass | packages/agent/src/thread.ts:65-68 | the first pass's id is node and iteration alone, and a later pass's is that with the pass behind it |
| ProviderRetry.FreshChainBounded | packages/daemon/src/provider-retry-policy.ts:111-144 | at most five retries, own waits under 31 s, cumulative cap unreachable, for any failures |
| ProviderRetry.ManualExactly | packages/daemon/src/provider-retry-policy.ts:111-121 | an operator is needed iff the status is none of overload, time-out and server fault, or the provider asks for more patience than the cap |
| ProviderRetry.RetriesExactly | packages/daemon/src/provider-retry-policy.ts:122-144 | any other failure is retried until five were, as the next attempt, when its delay is over: the provider's own, or at least 0.5, 1, 2, 4 and 8 seconds and less than twice that |
| ProviderRetry.PersistentFailure | packages/daemon/src/provider-retry-policy.ts:122-144 | retryable failures retry exactly five times and then exhaust |
| ProviderRetry.ComputeBackoffMs | packages/daemon/src/provider-retry-policy.ts:170-178 | at least half the exponential and less than all of it; a Retry-After exactly |
| Semaphores.Semaphore.Acquire | packages/daemon/src/fanout-support.ts:9-15 | first come first served within the limit |
| Semaphores.Semaphore.Release | packages/daemon/src/fanout-support.ts:16-20 | the slot goes to the longest waiting, or is free; none is lost |

## Left out

- Termination of the turn loop: a pass may take unboundedly many turns; the theorem is about every pass that ends.
- Store reads and `releaseClaim` are assumed not to throw; appends and observability may.
- The facts a recorder lands during a pass are steps of everybody else in `RunOneGuarded`; `Recorder` proves them on their own, over any row a recorder is built on.
- A handler that throws before any batch is planned, or a planner that throws on its result, has its spend outside the books.
- `planTransition`, edge selection and budget arithmetic: any plan whose re-plans carry the same spend; any breach.
- Snapshots, worktrees, observability payloads, halt detail text, title generation and log lines.
- `Superstep` does not carry the options of its commits: `FoldRidesPool` takes any options for the batches of its story, and `RunCommits` any sequence of commits.
- Fanout.Superstep.RunPool: assumes the branch closures disjoint; its semaphore is modelled apart in `Semaphores`.
- The agent set a `WeakSet` holds, and time stamps of injected steers.
- Wake sweeps that lose to a conflicting writer skip the run; the whole-sweep theorems are for sweeps nobody conflicts with.
- FanoutPlanner.BailConserves: does not claim all ten columns for every input, because unbilled halts and legacy halts lose columns in the code.
- Rounding of costs and timers: amounts are naturals, jitter is a real in [0, 1).
- Abort registry, leak budget, supervisor, schedules, HTTP server, web client, CLI and credential handling.
