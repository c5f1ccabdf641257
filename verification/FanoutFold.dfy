/** The operator fold of a fan-out turn: the routing delta and the watermark of
    the intents folded at its start ride the superstep's first commit. */
module FanoutFold {
  import opened Wrappers
  import opened Facts
  import opened ResultToFacts
  import opened FanoutPlanner
  import opened ClaimBoundStore
  import opened AbortPlanner
  import opened Fanout

  datatype Value = Tags(tags: set<string>) | Text(text: string)
  type Patch = map<string, Value>

  const BUDGET_WARNED_KEY := "__budget_warned"

  datatype AppendOpts = AppendOpts(patch: Option<Patch>, advance: Option<nat>)

  const NO_OPTS := AppendOpts(None, None)

  /** The run's routing and last applied intent, and what the store makes of an
      append's options. */
  datatype Projection = Projection(routing: Patch, applied: nat) {
    function With(o: AppendOpts): Projection {
      Projection(
        if o.patch.Some? then routing + o.patch.value else routing,
        if o.advance.Some? then o.advance.value else applied)
    }
  }

  /** Merge key by key, the branch winning a key, the larger watermark winning. */
  function MergeFanoutAppendOpts(fold: AppendOpts, plan: AppendOpts): AppendOpts {
    AppendOpts(
      if fold.patch.Some? && plan.patch.Some? then Some(fold.patch.value + plan.patch.value)
      else if plan.patch.Some? then plan.patch else fold.patch,
      if fold.advance.Some? && plan.advance.Some?
      then Some(if fold.advance.value < plan.advance.value then plan.advance.value else fold.advance.value)
      else if plan.advance.Some? then plan.advance else fold.advance)
  }

  /** One merged append does to the run what the fold and then the branch would
      do in two, except that the watermark never goes back. */
  lemma MergeIsBoth(fold: AppendOpts, plan: AppendOpts, row: Projection)
    ensures var merged := row.With(MergeFanoutAppendOpts(fold, plan));
            && merged.routing == row.With(fold).With(plan).routing
            && (forall k :: fold.patch.Some? && k in fold.patch.value
                            && !(plan.patch.Some? && k in plan.patch.value)
                  ==> k in merged.routing && merged.routing[k] == fold.patch.value[k])
            && (fold.advance.Some? ==> merged.applied >= fold.advance.value)
            && (fold.advance.Some? ==>
                  merged.applied == fold.advance.value || Some(merged.applied) == plan.advance)
    ensures MergeFanoutAppendOpts(fold, NO_OPTS) == fold && MergeFanoutAppendOpts(NO_OPTS, plan) == plan
  {
  }

  function WarnedIn(routing: Patch): set<string> {
    if BUDGET_WARNED_KEY in routing && routing[BUDGET_WARNED_KEY].Tags? then routing[BUDGET_WARNED_KEY].tags else {}
  }

  /** The tags a patch itself carries. */
  function Own(o: AppendOpts): set<string> {
    if o.patch.Some? then WarnedIn(o.patch.value) else {}
  }

  /** The options with any tag the row does not record yet joined to it. */
  function WithTags(o: AppendOpts, tags: set<string>, row: Projection): AppendOpts {
    var prior := WarnedIn(row.routing);
    if tags <= prior then o
    else o.(patch := Some((if o.patch.Some? then o.patch.value else map[])[BUDGET_WARNED_KEY := Tags(prior + tags)]))
  }

  predicate WritesTags(o: AppendOpts) {
    o.patch.Some? && BUDGET_WARNED_KEY in o.patch.value
  }

  /** The tag merge touches no other key and no watermark. It loses no tag of the
      row, of the region or of the branch exactly when the branch writes no
      tags, or of the two sets one of which overwrites the other that one
      holds the other: the branch's own replaces the row's if the row records
      the region's already, and else is replaced by the join of those two. */
  lemma TagsJoin(o: AppendOpts, tags: set<string>, row: Projection)
    ensures var after := row.With(WithTags(o, tags, row));
            && after.applied == row.With(o).applied
            && after.routing - {BUDGET_WARNED_KEY} == row.With(o).routing - {BUDGET_WARNED_KEY}
            && (WarnedIn(row.routing) + tags + Own(o) <= WarnedIn(after.routing)
                <==> if tags <= WarnedIn(row.routing)
                     then !WritesTags(o) || WarnedIn(row.routing) <= Own(o)
                     else Own(o) <= WarnedIn(row.routing) + tags)
            && (!WritesTags(o) ==> WarnedIn(after.routing) == WarnedIn(row.routing) + tags)
  {
  }

  /** What a branch that warned writes: the tags of the routing it started with
      and its own. */
  function Warns(start: set<string>, tag: string): AppendOpts {
    AppendOpts(Some(map[BUDGET_WARNED_KEY := Tags(start + {tag})]), None)
  }

  /** Two siblings start from one routing and both warn: the second to land drops
      the first one's tag, unless it was recorded before, or is its own. */
  lemma SiblingWarningLost(row: Projection, first: string, second: string)
    ensures var start := WarnedIn(row.routing);
            var landed := row.With(WithTags(Warns(start, first), {}, row));
            var after := landed.With(WithTags(Warns(start, second), {}, landed));
            && WarnedIn(landed.routing) == start + {first}
            && (first in WarnedIn(after.routing) <==> first in start || first == second)
  {
  }

  /** A row that warned of one budget, and a branch that warned of another. */
  lemma WarningLost()
    ensures var row := Projection(map[BUDGET_WARNED_KEY := Tags({"plan"})], 0);
            && WarnedIn(row.With(WithTags(Warns({}, "build"), {}, row)).routing) == {"build"}
            && WarnedIn(row.With(WithTags(Warns({}, "build"), {"run"}, row)).routing) == {"plan", "run"}
  {
    var row := Projection(map[BUDGET_WARNED_KEY := Tags({"plan"})], 0);
    assert {} + {"build"} == {"build"};
    assert "run" in {"run"} && "run" !in WarnedIn(row.routing);
    assert WarnedIn(row.routing) + {"run"} == {"plan", "run"};
  }

  /** One commit of a superstep: its batch and its branch's own options. */
  datatype Call = Call(facts: seq<Fact>, opts: AppendOpts)

  /** What one commit appends, with the fold if it is there to ride. */
  function Ride(fold: Option<AppendOpts>, c: Call): seq<AppendOpts> {
    if c.facts == [] then []
    else [MergeFanoutAppendOpts(if fold.Some? then fold.value else NO_OPTS, c.opts)]
  }

  /** The options a superstep's commits append, in order, when every one lands. */
  function Rides(fold: Option<AppendOpts>, calls: seq<Call>): seq<AppendOpts>
    decreases |calls|
  {
    if calls == [] then [] else Ride(fold, calls[0]) + Rides(None, calls[1..])
  }

  class FoldLane {
    const store: RunStore
    const foldOpts: AppendOpts
    var foldPending: bool
    var warnTags: set<string>
    /** The projection of the store's row. */
    var row: Projection
    /** What the lane's landed appends carried, before their tags. */
    ghost var appended: seq<AppendOpts>

    constructor (store: RunStore, foldOpts: AppendOpts, row: Projection)
      ensures this.store == store && this.foldOpts == foldOpts && this.row == row && appended == []
      ensures foldPending <==> foldOpts.patch.Some? || foldOpts.advance.Some?
    {
      this.store, this.foldOpts, this.row, warnTags, appended := store, foldOpts, row, {}, [];
      foldPending := foldOpts.patch.Some? || foldOpts.advance.Some?;
    }

    /** The fold still to be carried, if any. */
    function Fold(): Option<AppendOpts>
      reads this
    {
      if foldPending then Some(foldOpts) else None
    }

    method TakeFold() returns (o: AppendOpts)
      modifies this`foldPending
      ensures !foldPending && o == if old(foldPending) then foldOpts else NO_OPTS
    {
      if !foldPending {
        return NO_OPTS;
      }
      foldPending := false;
      return foldOpts;
    }

    /** The serialized lane: the bounded series of reads and appends, the tags
        joined on the row each append is bound to. An empty batch appends
        nothing and says it landed. Giving up takes eight conflicting appends;
        every other end is the one the trace shows. */
    method CommitFanoutFact(facts: seq<Fact>, opts: AppendOpts)
      returns (r: RaceEnd, ghost at: Projection, ghost tries: seq<Event>)
      requires store.Valid()
      modifies this`row, this`appended, store`st, store`log
      ensures store.Valid() && (old(store.Evidenced()) ==> store.Evidenced())
      ensures store.log.trace == old(store.log.trace) + tries
      ensures if facts == [] then r == Won && tries == []
              else RaceTries(r, facts, true, FANOUT_COMMIT_ATTEMPTS, tries)
      ensures store.st.landed == old(store.st.landed) + if r == Won then facts else []
      ensures appended == old(appended) + if r == Won && facts != [] then [opts] else []
      ensures r == Won && facts != [] ==> row == at.With(WithTags(opts, warnTags, at))
      // with nobody else moving, the row the append met is the lane's own
      ensures store.st.version == old(store.st.version) + 1 && r == Won ==> at == old(row)
      ensures facts == [] ==> row == old(row) && store.st == old(store.st)
    {
      at := row;
      if facts == [] {
        return Won, at, [];
      }
      var version := store.st.version;
      ghost var met;
      r, tries, met := store.Race(facts, true, FANOUT_COMMIT_ATTEMPTS);
      if store.st.version != version + if r == Won then 1 else 0 {
        row := *;
      }
      at := row;
      if r == Won {
        row := row.With(WithTags(opts, warnTags, row));
        appended := appended + [opts];
      }
    }

    /** One commit, with the fold if it is still there. */
    method CommitNext(c: Call) returns (r: RaceEnd)
      requires store.Valid()
      modifies this`foldPending, this`row, this`appended, store`st, store`log
      ensures store.Valid() && !foldPending
      ensures appended == old(appended) + if r == Won then Ride(old(Fold()), c) else []
      ensures store.st.landed == old(store.st.landed) + if r == Won then c.facts else []
      ensures r != Won ==> SeriesFailed(r, c.facts, store.log.trace)
    {
      var taken := TakeFold();
      ghost var was, at, tries := store.log.trace, row, [];
      r, at, tries := CommitFanoutFact(c.facts, MergeFanoutAppendOpts(taken, c.opts));
      assert store.log.trace == was + tries;
    }

    /** A superstep's commits, one after the other, until one does not land. */
    method RunCommits(calls: seq<Call>) returns (done: nat, last: RaceEnd)
      requires store.Valid()
      modifies this`foldPending, this`row, this`appended, store`st, store`log
      ensures store.Valid() && done <= |calls|
      ensures appended == old(appended) + Rides(old(Fold()), calls[..done])
      ensures foldPending <==> old(foldPending) && calls == []
      // it stops at a batch that did not land, for the reason the trace shows
      ensures done == |calls| <==> last == Won
      ensures done < |calls| ==> SeriesFailed(last, calls[done].facts, store.log.trace)
    {
      done, last := 0, Won;
      ghost var fold, front, rode := Fold(), [], [];
      while done < |calls|
        invariant store.Valid() && done <= |calls| && last == Won && front == calls[..done]
        invariant rode == Rides(fold, front) && appended == old(appended) + rode
        invariant if done == 0 then Fold() == fold else !foldPending
      {
        ghost var ride := Ride(Fold(), calls[done]);
        last := CommitNext(calls[done]);
        if last != Won {
          return;
        }
        RidesSnoc(fold, front, calls[done]);
        assert appended == old(appended) + (rode + ride);
        front, rode := front + [calls[done]], rode + ride;
        done := done + 1;
      }
      assert calls[..done] == calls;
    }
  }

  /** The trace ends in a lane's bounded series that did not land this batch. */
  ghost predicate SeriesFailed(r: RaceEnd, facts: seq<Fact>, trace: seq<Event>) {
    facts != [] && exists before, tries ::
      trace == before + tries && RaceTries(r, facts, true, FANOUT_COMMIT_ATTEMPTS, tries)
  }

  lemma {:induction false} RidesSnoc(fold: Option<AppendOpts>, calls: seq<Call>, c: Call)
    ensures Rides(fold, calls + [c]) == Rides(fold, calls) + Ride(if calls == [] then fold else None, c)
    decreases |calls|
  {
    if calls == [] {
      assert calls + [c] == [c] && [c][1..] == [];
    } else {
      RidesSnoc(None, calls[1..], c);
      assert (calls + [c])[1..] == calls[1..] + [c];
    }
  }

  /** The options of the non-empty batches alone. */
  function OwnOpts(calls: seq<Call>): seq<AppendOpts> {
    if calls == [] then [] else (if calls[0].facts == [] then [] else [calls[0].opts]) + OwnOpts(calls[1..])
  }

  lemma {:induction false} NoFoldNoRide(calls: seq<Call>)
    ensures Rides(None, calls) == OwnOpts(calls)
  {
    if calls != [] {
      NoFoldNoRide(calls[1..]);
    }
  }

  /** The fold rides at most one append, the first, whole: delta and watermark
      together. It rides exactly when the first commit has something to
      append; an empty first batch uses the fold up, and every later append
      goes without it. */
  lemma FoldRidesFirstOrNone(fold: AppendOpts, calls: seq<Call>)
    requires calls != []
    ensures Rides(Some(fold), calls)
            == if calls[0].facts == [] then OwnOpts(calls)
               else [MergeFanoutAppendOpts(fold, calls[0].opts)] + OwnOpts(calls)[1..]
  {
    NoFoldNoRide(calls[1..]);
  }

  // ---------- the commits of a pool ----------

  /** What a frontier's turn has committed when its pool is left: the markers of
      branches dispatched again, each settled branch's lane, and what came
      behind them. */
  function Landed(redispatch: seq<Fact>, s: Story): seq<Entry> {
    (if redispatch == [] then [] else [Entry(redispatch, Committed)]) + s.lanes
    + if s.tail != [] && s.tail[0].fate == Committed then [s.tail[0]] else []
  }

  /** The commits that entered them, each with its branch's own options. */
  function CallsOf(entries: seq<Entry>, opts: seq<AppendOpts>): (calls: seq<Call>)
    requires |opts| == |entries|
    ensures |calls| == |entries|
    ensures forall i :: 0 <= i < |calls| ==> calls[i] == Call(entries[i].batch, opts[i])
  {
    if entries == [] then [] else [Call(entries[0].batch, opts[0])] + CallsOf(entries[1..], opts[1..])
  }

  lemma {:induction false} FirstLane(scope: Scope, settled: seq<Member>, lanes: seq<Entry>)
    requires LanesOf(scope, settled, lanes)
    ensures |lanes| == |settled|
    ensures settled != [] ==> LaneOf(scope, settled[0], lanes[0].batch)
    decreases |settled|
  {
    if settled != [] {
      FirstLane(scope, settled[..|settled| - 1], lanes[..|lanes| - 1]);
    }
  }

  /** A branch completed with nothing to keep on its lane and no successor to mark. */
  predicate KeepsNothing(scope: Scope, m: Member) {
    && m.state.Done? && m.state.outcome.Success?
    && Kept(m.state.outcome.facts, At(m.state.outcome.iteration, scope.pass)) == []
    && NextOf(scope, m) == None
  }

  /** Every exit keeps the fact that aborted its node, so its lane is not empty. */
  lemma ExitKeepsItsAbort(input: ExitInput)
    ensures var kept := ExitKept(PlanExit(input).facts); kept != [] && kept[0].NodeAborted?
  {
    var facts := PlanExit(input).facts;
    assert facts[0].NodeAborted? && ExitKept(facts) == [facts[0]] + ExitKept(facts[1..]);
  }

  /** Whatever a pool did, the fold rode the first thing its turn committed, and
      nothing behind it: the markers; or else the lane of the branch that settled
      first, whole, unless that lane was empty, that is unless that branch
      completed, kept nothing and had no successor; or else, where no lane was committed, what
      came behind them. */
  lemma FoldRidesPool(fold: AppendOpts, redispatch: seq<Fact>, scope: Scope, s: Story, opts: seq<AppendOpts>)
    requires PoolWrote(scope, s) && |opts| == |Landed(redispatch, s)| > 0
    ensures var calls := CallsOf(Landed(redispatch, s), opts);
            var first, later := Landed(redispatch, s)[0].batch, OwnOpts(calls[1..]);
            && Rides(Some(fold), calls)
               == (if first == [] then [] else [MergeFanoutAppendOpts(fold, opts[0])]) + later
            && (redispatch != [] ==> first == redispatch)
            && (redispatch == [] && s.lanes != [] ==>
                  && s.settled != [] && LaneOf(scope, s.settled[0], first)
                  && (first == [] <==> KeepsNothing(scope, s.settled[0])))
  {
    var calls := CallsOf(Landed(redispatch, s), opts);
    FoldRidesFirstOrNone(fold, calls);
    if redispatch == [] && s.lanes != [] {
      if LanesOf(scope, s.settled, s.lanes) {
        FirstLane(scope, s.settled, s.lanes);
      } else {
        FirstLane(scope, s.settled[..|s.settled| - 1], s.lanes);
      }
      var state := s.settled[0].state;
      if state.Done? && state.outcome.Exit? {
        ExitKeepsItsAbort(state.outcome.input);
      }
    }
  }

  /** A branch that yields to a human settles with an empty batch, its pause
      going to the slot: the pause then lands without the fold, and the run is
      paused with the resume intent it was folded with still unapplied. */
  lemma HumanYieldDropsFold(node: string, row: Projection)
    ensures var settled := Kept([RunPaused(Human, node)], ORIGIN);
            var calls := [Call(settled, NO_OPTS), Call([RunPaused(Human, node)], NO_OPTS)];
            var fold := AppendOpts(Some(map["steer" := Text("go on")]), Some(row.applied + 1));
            && Rides(Some(fold), calls) == [NO_OPTS]
            && row.With(Rides(Some(fold), calls)[0]).applied == row.applied
  {
    var pause := RunPaused(Human, node);
    assert [pause][1..] == [];
    assert Kept([pause], ORIGIN) == KeptOf(pause, ORIGIN) + Kept([], ORIGIN);
    assert SpendFactsFor([pause], "halt", ORIGIN)
        == SpendTwin(pause, "halt", ORIGIN) + SpendFactsFor([], "halt", ORIGIN);
    var calls := [Call([], NO_OPTS), Call([pause], NO_OPTS)];
    var fold := AppendOpts(Some(map["steer" := Text("go on")]), Some(row.applied + 1));
    FoldRidesFirstOrNone(fold, calls);
    assert calls[1..] == [calls[1]] && calls[1..][1..] == [];
    assert OwnOpts(calls) == OwnOpts(calls[1..]) == [NO_OPTS] + OwnOpts([]);
  }
}
