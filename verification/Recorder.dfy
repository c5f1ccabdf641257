/** The recorder through which a running handler makes its side effects
    durable, each in an append of its own. */
module Recorder {
  import opened Wrappers
  import opened Facts
  import opened ClaimBoundStore

  const RECORDER_COMMIT_ATTEMPTS := 16

  datatype RecordError = Concurrency | StoreError(exn: Exn)

  /** Conflicting appends, each followed by a read that found the run running and
      gave the next token; they lead from one token to another. */
  predicate Retried(evs: seq<Event>, facts: seq<Fact>, first: nat, next: nat) {
    if evs == [] then first == next
    else
      && |evs| >= 2
      && var a, b := evs[|evs| - 2], evs[|evs| - 1];
         a.Tried? && OneRetry(a, b, facts, a.expected, next) && Retried(evs[..|evs| - 2], facts, first, a.expected)
  }

  predicate OneRetry(a: Event, b: Event, facts: seq<Fact>, token: nat, next: nat) {
    && a.Tried? && a.facts == facts && a.expected == token && a.result == AppendConflict && a.met.version != token
    && b.Read? && b.row.status == Running && b.row.version == next
  }

  /** How a last append under a token ends a record call; a conflict ends it when
      the attempts are spent, or when the read behind it finds the run not
      running. */
  predicate EndsRecord(r: Option<RecordError>, last: seq<Event>, facts: seq<Fact>, token: nat, spent: bool) {
    && last != [] && last[0].Tried? && last[0].facts == facts && last[0].expected == token
    && match r
       case None => |last| == 1 && last[0].result == AppendLanded
       case Some(StoreError(exn)) =>
         |last| == 1 && last[0].result == if exn == ClaimLostError then AppendClaimLost else AppendThrew(exn)
       case Some(Concurrency) =>
         && last[0].result == AppendConflict && last[0].met.version != token
         && if spent then |last| == 1
            else |last| == 2 && last[1].Read? && last[1].row.status != Running
  }

  /** What a record call did: at most sixteen retries, and the append that ended
      it. */
  ghost predicate RecordTries(r: Option<RecordError>, tries: seq<Event>, facts: seq<Fact>, token: nat, retries: nat) {
    && retries <= RECORDER_COMMIT_ATTEMPTS
    && exists retried, last, next ::
         && tries == retried + last && |retried| == 2 * retries && Retried(retried, facts, token, next)
         && EndsRecord(r, last, facts, next, retries == RECORDER_COMMIT_ATTEMPTS)
  }

  class CommittingRecorder {
    const store: RunStore
    var currentVersion: nat
    /** The row the token was taken from: one it was built on, read, or wrote. */
    ghost var token: RunState

    /** Built on the version of a row somebody read, whatever its status. */
    constructor (store: RunStore, row: RunState)
      requires store.Valid() && Rely(row, store.st)
      ensures Valid() && this.store == store && token == row
    {
      this.store, currentVersion, token := store, row.version, row;
    }

    ghost predicate Valid()
      reads this, store
    {
      store.Valid() && token.version == currentVersion && Rely(token, store.st)
    }

    /** Whatever the siblings, the operator and other fibers commit between its
        steps, a record call lands exactly one fact or throws having landed
        none, after what the trace shows: at most sixteen retries, each for a
        conflict, each on a row read running. So it never gives up on a running
        row short of its attempts. What a retry lands on is running under the
        claim; what the first append lands on is the row of its token. */
    method Commit(key: string)
      returns (threw: Option<RecordError>, retries: nat, ghost at: RunState, ghost tries: seq<Event>)
      requires Valid()
      modifies this`currentVersion, this`token, store`st, store`log
      ensures Valid() && (old(store.Evidenced()) ==> store.Evidenced())
      ensures store.log.trace == old(store.log.trace) + tries
      ensures RecordTries(threw, tries, [SideEffect(key)], old(currentVersion), retries)
      ensures store.st.landed == old(store.st.landed) + if threw == None then [SideEffect(key)] else []
      ensures threw == None ==>
                && at.epoch == store.claim && store.st == Appended(at, [SideEffect(key)]) && token == store.st
                && (if retries == 0 then at == old(token) else at.status == Running) && token.status == at.status
      ensures old(token).status == Running ==> token.status == Running
      ensures threw == Some(Concurrency) ==> retries == RECORDER_COMMIT_ATTEMPTS || !Driven(store.st, store.claim)
      ensures threw == Some(StoreError(ClaimLostError)) ==> !Driven(store.st, store.claim)
    {
      ghost var first := currentVersion;
      var facts := [SideEffect(key)];
      retries, tries := 0, [];
      while true
        invariant Valid() && store.st.landed == old(store.st.landed) && (old(store.Evidenced()) ==> store.Evidenced())
        invariant store.log.trace == old(store.log.trace) + tries
        invariant |tries| == 2 * retries && retries <= RECORDER_COMMIT_ATTEMPTS
        invariant Retried(tries, facts, first, currentVersion)
        invariant if retries == 0 then token == old(token) else token.status == Running
        decreases RECORDER_COMMIT_ATTEMPTS - retries
      {
        ghost var now := currentVersion;
        ghost var evs;
        var done;
        done, threw, evs, at := CommitOnce(facts, retries == RECORDER_COMMIT_ATTEMPTS);
        assert store.log.trace == old(store.log.trace) + (tries + evs);
        if done {
          tries := tries + evs;
          return;
        }
        MoreRetried(tries, evs, facts, first, now, currentVersion);
        tries, retries := tries + evs, retries + 1;
      }
    }

    /** One append, and unless that ended the call the read behind its conflict. */
    method CommitOnce(facts: seq<Fact>, spent: bool)
      returns (done: bool, threw: Option<RecordError>, ghost evs: seq<Event>, ghost at: RunState)
      requires Valid() && exists key :: facts == [SideEffect(key)]
      modifies this`currentVersion, this`token, store`st, store`log
      ensures Valid() && (old(store.Evidenced()) ==> store.Evidenced()) && store.log.trace == old(store.log.trace) + evs
      ensures store.st.landed == old(store.st.landed) + if done && threw == None then facts else []
      ensures done ==> EndsRecord(threw, evs, facts, old(currentVersion), spent)
      ensures done && threw == None ==>
                && at == old(token) && at.epoch == store.claim && store.st == Appended(at, facts)
                && token == store.st && token.status == at.status
      ensures done && threw.Some? ==> token == old(token)
      ensures done && threw == Some(Concurrency) ==> spent || !Driven(store.st, store.claim)
      ensures threw == Some(StoreError(ClaimLostError)) ==> !Driven(store.st, store.claim)
      ensures !done ==>
                && |evs| == 2 && OneRetry(evs[0], evs[1], facts, old(currentVersion), currentVersion)
                && token.status == Running && !spent
    {
      done, threw := true, None;
      var res, met := store.AppendFact(facts, currentVersion);
      at, evs := met, [Tried(facts, currentVersion, met, res)];
      match res {
        case AppendLanded =>
          assert StatusAfter(at.status, facts) == StatusAfter(at.status, []);
          currentVersion, token := store.st.version, store.st;
          return;
        case AppendClaimLost =>
          threw := Some(StoreError(ClaimLostError));
          return;
        case AppendThrew(exn) =>
          threw := Some(StoreError(exn));
          return;
        case AppendConflict =>
      }
      threw := Some(Concurrency);
      if spent {
        return;
      }
      var live := store.GetState();
      evs := evs + [Read(live)];
      if live.status == Running {
        done, currentVersion, token := false, live.version, live;
      }
    }
  }

  lemma MoreRetried(retried: seq<Event>, evs: seq<Event>, facts: seq<Fact>, first: nat, now: nat, next: nat)
    requires Retried(retried, facts, first, now) && |evs| == 2 && OneRetry(evs[0], evs[1], facts, now, next)
    ensures Retried(retried + evs, facts, first, next)
  {
    assert (retried + evs)[..|retried|] == retried;
  }

  /** Every row a first append can land on is running exactly when the row the
      recorder was built on is, if that is still the fiber's own. */
  lemma FirstAppendFenced(row: RunState, claim: nat)
    requires claim <= row.epoch
    ensures (forall at :: Rely(row, at) && Meets(at, claim, row.version) == AppendLanded ==> at.status == Running)
            <==> (row.epoch == claim ==> row.status == Running)
  {
    if row.epoch == claim && row.status != Running {
      assert Rely(row, row) && Meets(row, claim, row.version) == AppendLanded;
    }
  }

  /** The fan-out pool builds its recorders on a row it reads anew and whose
      status it does not look at: the operator's pause that lands between the
      turn's read and that one lets a side effect land on a paused run. */
  lemma PoolRecorderLandsOnPausedRow(key: string)
    ensures var turn := RunState(5, 3, Running, []);
            var read := RunState(6, 3, Paused, []);
            && Driven(turn, 3) && Rely(turn, read) && Meets(read, 3, read.version) == AppendLanded
            && Appended(read, [SideEffect(key)]) == RunState(7, 3, Paused, [SideEffect(key)])
            && Meets(read, 3, turn.version) == AppendConflict
  {
    assert StatusAfter(Paused, [SideEffect(key)]) == StatusAfter(Paused, []);
  }
}
