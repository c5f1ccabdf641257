/** The intent fold, and the sweep that wakes runs no fiber is dispatching. */
module WakePending {
  import opened Wrappers
  import opened Facts
  import opened Seqs

  // ---------- intents and their fold ----------

  datatype Resolution = TreatAsDone | RetryIt | CancelIt

  datatype IntentKind =
    | CancelRequested | PauseRequested | Steering(text: string) | HumanInput(input: string)
    | PriorityAdjusted(priority: int)
    | LimitAdjusted(key: string, limit: int, wellFormed: bool)  // a budget, retry, goal-gate or loop cap
    | Resume | Unquarantine(resolution: Option<Resolution>) | RunEnqueued

  datatype Intent = Intent(seqNo: nat, kind: IntentKind)

  datatype DropReason = WrongState | SupersededByCancel | LaterInputWon | AlreadyPaused
  datatype Drop = Drop(seqNo: nat, reason: DropReason)

  datatype Decision =
    | CancelDecision(intentSeq: nat, dropped: seq<Drop>)
    | Proceed(delta: map<string, int>, steering: seq<string>, human: Option<string>,
              shouldPause: bool, shouldPauseAfterDispatch: bool, appliedSeqs: seq<nat>, dropped: seq<Drop>)

  const PRIORITY_KEY := "priority"

  predicate Dispatching(s: Status) {
    s == Queued || s == Running
  }

  predicate IsPaused(s: Status) {
    s == Paused || s == PausedHuman || s == PausedAuto
  }

  function FirstCancel(intents: seq<Intent>): (r: Option<nat>)
    ensures r == None <==> forall i :: i in intents ==> i.kind != CancelRequested
    ensures r.Some? ==> Intent(r.value, CancelRequested) in intents
    ensures r.Some? ==> forall i :: i in intents && i.kind == CancelRequested ==> r.value <= i.seqNo
  {
    if intents == [] then None
    else
      var rest := FirstCancel(intents[1..]);
      if intents[0].kind != CancelRequested then rest
      else if rest.Some? && rest.value < intents[0].seqNo then rest
      else Some(intents[0].seqNo)
  }

  function CancelDrops(intents: seq<Intent>, cancel: nat): seq<Drop> {
    FlatMap((i: Intent) =>
      if i.seqNo == cancel then []
      else [Drop(i.seqNo, if i.kind == CancelRequested then LaterInputWon else SupersededByCancel)], intents)
  }

  /** What the pass over the intents drops as it goes. */
  function StateDrop(i: Intent, s: Status): seq<Drop> {
    match i.kind
    case PauseRequested =>
      if IsPaused(s) then [Drop(i.seqNo, AlreadyPaused)]
      else if !Dispatching(s) then [Drop(i.seqNo, WrongState)] else []
    case Steering(_) => if !Dispatching(s) && !IsPaused(s) then [Drop(i.seqNo, WrongState)] else []
    case HumanInput(_) => if !Dispatching(s) && !IsPaused(s) then [Drop(i.seqNo, WrongState)] else []
    case LimitAdjusted(_, _, wellFormed) => if wellFormed then [] else [Drop(i.seqNo, WrongState)]
    case _ => []
  }

  /** The caps the intents adjust, the last adjustment of a cap winning. */
  function Limits(intents: seq<Intent>): map<string, int> {
    if intents == [] then map[]
    else
      var k := |intents| - 1;
      match intents[k].kind
      case LimitAdjusted(key, limit, true) => Limits(intents[..k])[key := limit]
      case _ => Limits(intents[..k])
  }

  function Pick(intents: seq<Intent>, wanted: Intent -> bool): seq<Intent> {
    FlatMap(i => if wanted(i) then [i] else [], intents)
  }

  /** All but the last of the intents of which the last wins. */
  function Superseded(intents: seq<Intent>): seq<Drop> {
    if |intents| <= 1 then [] else [Drop(intents[0].seqNo, LaterInputWon)] + Superseded(intents[1..])
  }

  function SteersIn(s: Status): Intent -> bool {
    (i: Intent) => i.kind.Steering? && (Dispatching(s) || IsPaused(s)) && i.kind.text != ""
  }

  function HumansIn(s: Status): Intent -> bool {
    (i: Intent) => i.kind.HumanInput? && (Dispatching(s) || IsPaused(s))
  }

  function PausesIn(s: Status): Intent -> bool {
    (i: Intent) => i.kind.PauseRequested? && Dispatching(s)
  }

  predicate IsPriority(i: Intent) {
    i.kind.PriorityAdjusted?
  }

  /** The last priority, over the caps. */
  function WithPriority(limits: map<string, int>, priorities: seq<Intent>): map<string, int> {
    if priorities == [] || !priorities[|priorities| - 1].kind.PriorityAdjusted? then limits
    else limits[PRIORITY_KEY := priorities[|priorities| - 1].kind.priority]
  }

  function LastInput(humans: seq<Intent>): Option<string> {
    if humans == [] || !humans[|humans| - 1].kind.HumanInput? then None
    else Some(humans[|humans| - 1].kind.input)
  }

  function FoldIntents(intents: seq<Intent>, s: Status): Decision {
    var cancel := FirstCancel(intents);
    if cancel.Some? then CancelDecision(cancel.value, CancelDrops(intents, cancel.value))
    else
      var steers := Pick(intents, SteersIn(s));
      var humans := Pick(intents, HumansIn(s));
      var priorities := Pick(intents, IsPriority);
      var pauses := Pick(intents, PausesIn(s));
      var specific := steers != [] || humans != [];
      Proceed(
        WithPriority(Limits(intents), priorities),
        FlatMap((i: Intent) => if i.kind.Steering? then [i.kind.text] else [], steers),
        LastInput(humans),
        pauses != [] && !specific,
        pauses != [] && specific,
        FlatMap((i: Intent) => [i.seqNo], intents),
        FlatMap(i => StateDrop(i, s), intents) + Superseded(humans) + Superseded(priorities))
  }

  /** The intent has an effect in the decision, is recorded as dropped, or is a
      marker that has none. */
  ghost predicate AccountedFor(i: Intent, d: Decision) {
    || (exists r :: Drop(i.seqNo, r) in d.dropped)
    || match d
       case CancelDecision(intentSeq, _) => i.seqNo == intentSeq
       case Proceed(delta, steering, human, pause, pauseAfter, applied, _) =>
         && i.seqNo in applied
         && match i.kind
            case LimitAdjusted(key, _, _) => key in delta
            case PriorityAdjusted(p) => PRIORITY_KEY in delta && delta[PRIORITY_KEY] == p
            case PauseRequested => pause || pauseAfter
            case Steering(text) => text == "" || text in steering
            case HumanInput(input) => human == Some(input)
            case _ => true
  }

  lemma {:induction false} SupersededAll(intents: seq<Intent>, i: Intent)
    requires i in intents
    ensures i == intents[|intents| - 1] || Drop(i.seqNo, LaterInputWon) in Superseded(intents)
  {
    if |intents| > 1 && i != intents[0] {
      SupersededAll(intents[1..], i);
    }
  }

  lemma {:induction false} LimitsHave(intents: seq<Intent>, key: string, limit: int, seqNo: nat)
    requires Intent(seqNo, LimitAdjusted(key, limit, true)) in intents
    ensures key in Limits(intents)
  {
    var k := |intents| - 1;
    if intents[k] != Intent(seqNo, LimitAdjusted(key, limit, true)) {
      LimitsHave(intents[..k], key, limit, seqNo);
    }
  }

  /** The fold loses no intent, in any status: each takes effect, or is dropped
      with a reason, or is a wake marker. A cap is the value of its last
      adjustment. */
  lemma FoldAccountsForAll(intents: seq<Intent>, s: Status, i: Intent)
    requires i in intents
    ensures AccountedFor(i, FoldIntents(intents, s))
  {
    var d := FoldIntents(intents, s);
    if d.CancelDecision? {
      var drop := (i: Intent) =>
        if i.seqNo == d.intentSeq then []
        else [Drop(i.seqNo, if i.kind == CancelRequested then LaterInputWon else SupersededByCancel)];
      var r := if i.kind == CancelRequested then LaterInputWon else SupersededByCancel;
      FlatMapMember(drop, intents, Drop(i.seqNo, r));
      assert i.seqNo != d.intentSeq ==> Drop(i.seqNo, r) in drop(i);
    } else {
      FlatMapMember((i: Intent) => [i.seqNo], intents, i.seqNo);
      assert i.seqNo in ((i: Intent) => [i.seqNo])(i);
      ProceedAccounts(intents, s, i);
    }
  }

  lemma Picked(intents: seq<Intent>, wanted: Intent -> bool, i: Intent)
    ensures i in Pick(intents, wanted) <==> i in intents && wanted(i)
  {
    FlatMapMember(i => if wanted(i) then [i] else [], intents, i);
  }

  lemma DropsOf(intents: seq<Intent>, s: Status, i: Intent, r: DropReason)
    requires i in intents && StateDrop(i, s) == [Drop(i.seqNo, r)] && FirstCancel(intents) == None
    ensures Drop(i.seqNo, r) in FoldIntents(intents, s).dropped
  {
    FlatMapMember(i => StateDrop(i, s), intents, Drop(i.seqNo, r));
    assert Drop(i.seqNo, r) in (i => StateDrop(i, s))(i);
  }

  lemma ProceedAccounts(intents: seq<Intent>, s: Status, i: Intent)
    requires i in intents && FirstCancel(intents) == None && i.seqNo in FoldIntents(intents, s).appliedSeqs
    ensures AccountedFor(i, FoldIntents(intents, s))
  {
    match i.kind
    case LimitAdjusted(_, _, _) => LimitCarried(intents, s, i);
    case PauseRequested => PauseCarried(intents, s, i);
    case Steering(text) =>
      if !Dispatching(s) && !IsPaused(s) {
        DropsOf(intents, s, i, WrongState);
      } else if text != "" {
        SteerCarried(intents, s, i);
      }
    case HumanInput(_) =>
      if !Dispatching(s) && !IsPaused(s) {
        DropsOf(intents, s, i, WrongState);
      } else {
        HumanCarried(intents, s, i);
      }
    case PriorityAdjusted(_) => PriorityCarried(intents, s, i);
    case _ =>
  }

  lemma LimitCarried(intents: seq<Intent>, s: Status, i: Intent)
    requires i in intents && i.kind.LimitAdjusted? && FirstCancel(intents) == None
    ensures var d := FoldIntents(intents, s);
            Drop(i.seqNo, WrongState) in d.dropped || i.kind.key in d.delta
  {
    if i.kind.wellFormed {
      LimitsHave(intents, i.kind.key, i.kind.limit, i.seqNo);
    } else {
      DropsOf(intents, s, i, WrongState);
    }
  }

  lemma PauseCarried(intents: seq<Intent>, s: Status, i: Intent)
    requires i in intents && i.kind == PauseRequested && FirstCancel(intents) == None
    ensures var d := FoldIntents(intents, s);
            || Drop(i.seqNo, if IsPaused(s) then AlreadyPaused else WrongState) in d.dropped
            || d.shouldPause || d.shouldPauseAfterDispatch
  {
    if Dispatching(s) {
      Picked(intents, PausesIn(s), i);
    } else {
      DropsOf(intents, s, i, if IsPaused(s) then AlreadyPaused else WrongState);
    }
  }

  lemma LaterWins(intents: seq<Intent>, s: Status, d: Drop)
    requires FirstCancel(intents) == None
    requires d in Superseded(Pick(intents, HumansIn(s))) || d in Superseded(Pick(intents, IsPriority))
    ensures d in FoldIntents(intents, s).dropped
  {
  }

  lemma LastOrLater(picked: seq<Intent>, i: Intent)
    requires i in picked
    ensures Drop(i.seqNo, LaterInputWon) !in Superseded(picked) ==>
              && (i.kind.HumanInput? ==> LastInput(picked) == Some(i.kind.input))
              && (i.kind.PriorityAdjusted? ==> forall m :: PRIORITY_KEY in WithPriority(m, picked)
                                                           && WithPriority(m, picked)[PRIORITY_KEY] == i.kind.priority)
  {
    SupersededAll(picked, i);
  }

  lemma HumanCarried(intents: seq<Intent>, s: Status, i: Intent)
    requires i in intents && i.kind.HumanInput? && (Dispatching(s) || IsPaused(s)) && FirstCancel(intents) == None
    ensures var d := FoldIntents(intents, s);
            Drop(i.seqNo, LaterInputWon) in d.dropped || d.human == Some(i.kind.input)
  {
    Picked(intents, HumansIn(s), i);
    LastOrLater(Pick(intents, HumansIn(s)), i);
    if Drop(i.seqNo, LaterInputWon) in Superseded(Pick(intents, HumansIn(s))) {
      LaterWins(intents, s, Drop(i.seqNo, LaterInputWon));
    }
  }

  lemma PriorityCarried(intents: seq<Intent>, s: Status, i: Intent)
    requires i in intents && i.kind.PriorityAdjusted? && FirstCancel(intents) == None
    ensures var d := FoldIntents(intents, s);
            || Drop(i.seqNo, LaterInputWon) in d.dropped
            || (PRIORITY_KEY in d.delta && d.delta[PRIORITY_KEY] == i.kind.priority)
  {
    Picked(intents, IsPriority, i);
    LastOrLater(Pick(intents, IsPriority), i);
    if Drop(i.seqNo, LaterInputWon) in Superseded(Pick(intents, IsPriority)) {
      LaterWins(intents, s, Drop(i.seqNo, LaterInputWon));
    }
  }

  lemma SteerCarried(intents: seq<Intent>, s: Status, i: Intent)
    requires i in intents && i.kind.Steering? && i.kind.text != "" && (Dispatching(s) || IsPaused(s))
    requires FirstCancel(intents) == None
    ensures i.kind.text in FoldIntents(intents, s).steering
  {
    var text := (i: Intent) => if i.kind.Steering? then [i.kind.text] else [];
    Picked(intents, SteersIn(s), i);
    FlatMapMember(text, Pick(intents, SteersIn(s)), i.kind.text);
    assert i.kind.text in text(i);
  }

  // ---------- what the fold decides, and why it drops ----------

  lemma {:induction false} PickSnoc(intents: seq<Intent>, wanted: Intent -> bool, i: Intent)
    ensures Pick(intents + [i], wanted) == Pick(intents, wanted) + if wanted(i) then [i] else []
  {
    FlatMapSnoc(i => if wanted(i) then [i] else [], intents, i);
  }

  /** The last intent of a kind is the last one picked. */
  lemma {:induction false} LastPicked(intents: seq<Intent>, wanted: Intent -> bool, k: nat)
    requires k < |intents| && wanted(intents[k]) && forall j :: k < j < |intents| ==> !wanted(intents[j])
    ensures var picked := Pick(intents, wanted); picked != [] && picked[|picked| - 1] == intents[k]
    decreases |intents|
  {
    var n := |intents| - 1;
    assert intents == intents[..n] + [intents[n]];
    PickSnoc(intents[..n], wanted, intents[n]);
    if k < n {
      LastPicked(intents[..n], wanted, k);
    }
  }

  lemma {:induction false} PickedSome(intents: seq<Intent>, wanted: Intent -> bool)
    ensures Pick(intents, wanted) != [] <==> exists i :: i in intents && wanted(i)
  {
    var picked := Pick(intents, wanted);
    if picked != [] {
      Picked(intents, wanted, picked[0]);
    }
    if i :| i in intents && wanted(i) {
      Picked(intents, wanted, i);
    }
  }

  /** The fold of a batch with no cancel in it. A pause request stops the run now,
      or only behind the dispatch if a steer or a human input came with it;
      never both, and only a run that is dispatching. */
  lemma {:induction false} FoldPauses(intents: seq<Intent>, s: Status)
    requires forall i :: i in intents ==> i.kind != CancelRequested
    ensures var d := FoldIntents(intents, s);
            var asked := s in {Queued, Running} && exists i :: i in intents && i.kind == PauseRequested;
            var input := exists i :: i in intents && IsInput(i.kind);
            d.Proceed? && d.shouldPause == (asked && !input) && d.shouldPauseAfterDispatch == (asked && input)
  {
    PausePicked(intents, s);
    if s in {Queued, Running} {
      InputPicked(intents, s);
    }
  }

  /** A steer with a text, or a human input. */
  predicate IsInput(kind: IntentKind) {
    kind.HumanInput? || (kind.Steering? && kind.text != "")
  }

  lemma {:induction false} PausePicked(intents: seq<Intent>, s: Status)
    ensures Pick(intents, PausesIn(s)) != []
            <==> s in {Queued, Running} && exists i :: i in intents && i.kind == PauseRequested
  {
    PickedSome(intents, PausesIn(s));
    if i :| s in {Queued, Running} && i in intents && i.kind == PauseRequested {
      assert PausesIn(s)(i);
    }
  }

  lemma {:induction false} InputPicked(intents: seq<Intent>, s: Status)
    requires s in {Queued, Running}
    ensures Pick(intents, SteersIn(s)) != [] || Pick(intents, HumansIn(s)) != []
            <==> exists i :: i in intents && IsInput(i.kind)
  {
    PickedSome(intents, SteersIn(s));
    PickedSome(intents, HumansIn(s));
    if i :| i in intents && IsInput(i.kind) {
      assert SteersIn(s)(i) || HumansIn(s)(i);
    }
  }

  /** Of several inputs, priorities or values of one cap the last one stands. */
  lemma {:induction false} FoldLastWins(intents: seq<Intent>, s: Status, k: nat)
    requires k < |intents| && forall i :: i in intents ==> i.kind != CancelRequested
    ensures var d := FoldIntents(intents, s); var kind := intents[k].kind;
            && d.Proceed?
            && (kind.HumanInput? && (forall j :: k < j < |intents| ==> !intents[j].kind.HumanInput?) ==>
                  d.human == if s in {Queued, Running, Paused, PausedHuman, PausedAuto} then Some(kind.input) else None)
            && (kind.PriorityAdjusted? && (forall j :: k < j < |intents| ==> !intents[j].kind.PriorityAdjusted?) ==>
                  PRIORITY_KEY in d.delta && d.delta[PRIORITY_KEY] == kind.priority)
            && (kind.LimitAdjusted? && kind.wellFormed && kind.key != PRIORITY_KEY
                && (forall j :: k < j < |intents| ==> !Adjusts(intents[j].kind, kind.key)) ==>
                  kind.key in d.delta && d.delta[kind.key] == kind.limit)
  {
    var kind := intents[k].kind;
    if kind.HumanInput? && forall j :: k < j < |intents| ==> !intents[j].kind.HumanInput? {
      LastHuman(intents, s, k);
    }
    if kind.PriorityAdjusted? && forall j :: k < j < |intents| ==> !intents[j].kind.PriorityAdjusted? {
      LastPicked(intents, IsPriority, k);
    }
    if kind.LimitAdjusted? && kind.wellFormed && forall j :: k < j < |intents| ==> !Adjusts(intents[j].kind, kind.key) {
      LimitsLast(intents, kind.key, k);
    }
  }

  lemma {:induction false} LastHuman(intents: seq<Intent>, s: Status, k: nat)
    requires k < |intents| && intents[k].kind.HumanInput?
    requires forall j :: k < j < |intents| ==> !intents[j].kind.HumanInput?
    ensures LastInput(Pick(intents, HumansIn(s)))
            == if s in {Queued, Running, Paused, PausedHuman, PausedAuto} then Some(intents[k].kind.input) else None
  {
    PickedSome(intents, HumansIn(s));
    if HumansIn(s)(intents[k]) {
      LastPicked(intents, HumansIn(s), k);
    }
  }

  /** And nothing else is decided: no input, priority or cap of nobody's. */
  lemma {:induction false} FoldInventsNothing(intents: seq<Intent>, s: Status, key: string)
    requires forall i :: i in intents ==> i.kind != CancelRequested
    ensures var d := FoldIntents(intents, s);
            && d.Proceed?
            && (d.human.Some? ==> exists i :: i in intents && i.kind == HumanInput(d.human.value))
            && (key in d.delta ==>
                  exists i ::
                    i in intents && (Adjusts(i.kind, key) || (key == PRIORITY_KEY && i.kind.PriorityAdjusted?)))
  {
    var humans := Pick(intents, HumansIn(s));
    var priorities := Pick(intents, IsPriority);
    if humans != [] {
      Picked(intents, HumansIn(s), humans[|humans| - 1]);
    }
    if priorities != [] {
      Picked(intents, IsPriority, priorities[|priorities| - 1]);
    }
    LimitsOnly(intents, key);
  }

  predicate Adjusts(kind: IntentKind, key: string) {
    kind.LimitAdjusted? && kind.wellFormed && kind.key == key
  }

  lemma {:induction false} LimitsLast(intents: seq<Intent>, key: string, k: nat)
    requires k < |intents| && Adjusts(intents[k].kind, key)
    requires forall j :: k < j < |intents| ==> !Adjusts(intents[j].kind, key)
    ensures key in Limits(intents) && Limits(intents)[key] == intents[k].kind.limit
    decreases |intents|
  {
    if k < |intents| - 1 {
      LimitsLast(intents[..|intents| - 1], key, k);
    }
  }

  lemma {:induction false} LimitsOnly(intents: seq<Intent>, key: string)
    ensures key in Limits(intents) ==> exists i :: i in intents && Adjusts(i.kind, key)
    decreases |intents|
  {
    if intents != [] && key in Limits(intents) {
      var k := |intents| - 1;
      if Adjusts(intents[k].kind, key) {
        assert intents[k] in intents;
      } else {
        LimitsOnly(intents[..k], key);
      }
    }
  }

  /** Why the k-th intent is dropped, if it is: behind a cancel everything else is;
      without one, what its status has no use for, what is malformed, and every
      input and priority but the last. */
  ghost predicate DroppedFor(intents: seq<Intent>, s: Status, k: nat, r: DropReason)
    requires k < |intents|
  {
    var i := intents[k];
    var cancel := FirstCancel(intents);
    var open := s in {Queued, Running, Paused, PausedHuman, PausedAuto};
    if cancel.Some? then
      i.seqNo != cancel.value && r == if i.kind == CancelRequested then LaterInputWon else SupersededByCancel
    else
      match i.kind
      case PauseRequested =>
        s !in {Queued, Running} && r == if s in {Paused, PausedHuman, PausedAuto} then AlreadyPaused else WrongState
      case Steering(_) => !open && r == WrongState
      case HumanInput(_) =>
        if !open then r == WrongState
        else r == LaterInputWon && exists j :: k < j < |intents| && intents[j].kind.HumanInput?
      case PriorityAdjusted(_) =>
        r == LaterInputWon && exists j :: k < j < |intents| && intents[j].kind.PriorityAdjusted?
      case LimitAdjusted(_, _, wellFormed) => !wellFormed && r == WrongState
      case _ => false
  }

  /** The fold drops exactly those, each with its reason. */
  lemma {:induction false} FoldDropsExactly(intents: seq<Intent>, s: Status, seqNo: nat, r: DropReason)
    ensures Drop(seqNo, r) in FoldIntents(intents, s).dropped
            <==> exists k :: 0 <= k < |intents| && intents[k].seqNo == seqNo && DroppedFor(intents, s, k, r)
  {
    if FirstCancel(intents).Some? {
      CancelDropsExactly(intents, s, seqNo, r);
    } else {
      ProceedDropsExactly(intents, s, seqNo, r);
    }
  }

  lemma {:induction false} CancelDropsExactly(intents: seq<Intent>, s: Status, seqNo: nat, r: DropReason)
    requires FirstCancel(intents).Some?
    ensures Drop(seqNo, r) in CancelDrops(intents, FirstCancel(intents).value)
            <==> exists k :: 0 <= k < |intents| && intents[k].seqNo == seqNo && DroppedFor(intents, s, k, r)
  {
    var cancel := FirstCancel(intents).value;
    var drop := (i: Intent) =>
      if i.seqNo == cancel then []
      else [Drop(i.seqNo, if i.kind == CancelRequested then LaterInputWon else SupersededByCancel)];
    FlatMapMember(drop, intents, Drop(seqNo, r));
    if i :| i in intents && Drop(seqNo, r) in drop(i) {
      var k :| 0 <= k < |intents| && intents[k] == i;
      assert DroppedFor(intents, s, k, r);
    }
    if k :| 0 <= k < |intents| && intents[k].seqNo == seqNo && DroppedFor(intents, s, k, r) {
      assert intents[k] in intents && Drop(seqNo, r) in drop(intents[k]);
    }
  }

  lemma {:induction false} ProceedDropsExactly(intents: seq<Intent>, s: Status, seqNo: nat, r: DropReason)
    requires FirstCancel(intents) == None
    ensures Drop(seqNo, r) in FoldIntents(intents, s).dropped
            <==> exists k :: 0 <= k < |intents| && intents[k].seqNo == seqNo && DroppedFor(intents, s, k, r)
  {
    if k :| 0 <= k < |intents| && intents[k].seqNo == seqNo && DroppedFor(intents, s, k, r) {
      ReasonDrops(intents, s, k, r);
    }
    if Drop(seqNo, r) in FoldIntents(intents, s).dropped {
      DropHasReason(intents, s, seqNo, r);
    }
  }

  lemma {:induction false} DropHasReason(intents: seq<Intent>, s: Status, seqNo: nat, r: DropReason)
    requires FirstCancel(intents) == None && Drop(seqNo, r) in FoldIntents(intents, s).dropped
    ensures exists k :: 0 <= k < |intents| && intents[k].seqNo == seqNo && DroppedFor(intents, s, k, r)
  {
    var d := Drop(seqNo, r);
    StateDropsExactly(intents, s, d);
    SupersededExactly(intents, HumansIn(s), d);
    SupersededExactly(intents, IsPriority, d);
    if k :| 0 <= k < |intents| && d in StateDrop(intents[k], s) {
      StateReason(intents, s, k, d);
    } else if d in Superseded(Pick(intents, HumansIn(s))) {
      var k, j :| Supersedes(intents, HumansIn(s), k, j, d);
      LaterReason(intents, s, k, j);
    } else {
      var k, j :| Supersedes(intents, IsPriority, k, j, d);
      LaterReason(intents, s, k, j);
    }
  }

  lemma {:induction false} StateReason(intents: seq<Intent>, s: Status, k: nat, d: Drop)
    requires FirstCancel(intents) == None && k < |intents| && d in StateDrop(intents[k], s)
    ensures intents[k].seqNo == d.seqNo && DroppedFor(intents, s, k, d.reason)
  {
  }

  lemma {:induction false} LaterReason(intents: seq<Intent>, s: Status, k: nat, j: nat)
    requires FirstCancel(intents) == None && k < j < |intents|
    requires (HumansIn(s)(intents[k]) && HumansIn(s)(intents[j])) || (IsPriority(intents[k]) && IsPriority(intents[j]))
    ensures DroppedFor(intents, s, k, LaterInputWon)
  {
  }

  lemma {:induction false} ReasonDrops(intents: seq<Intent>, s: Status, k: nat, r: DropReason)
    requires FirstCancel(intents) == None && k < |intents| && DroppedFor(intents, s, k, r)
    ensures Drop(intents[k].seqNo, r) in FoldIntents(intents, s).dropped
  {
    var d := Drop(intents[k].seqNo, r);
    if IsPriority(intents[k]) {
      var j :| k < j < |intents| && intents[j].kind.PriorityAdjusted?;
      LaterDrops(intents, IsPriority, k, j);
      LaterWins(intents, s, d);
    } else if r == LaterInputWon {
      var j :| k < j < |intents| && intents[j].kind.HumanInput?;
      LaterDrops(intents, HumansIn(s), k, j);
      LaterWins(intents, s, d);
    } else {
      ReasonOfState(intents, s, k, r);
      DropsOf(intents, s, intents[k], r);
    }
  }

  lemma {:induction false} ReasonOfState(intents: seq<Intent>, s: Status, k: nat, r: DropReason)
    requires FirstCancel(intents) == None && k < |intents| && DroppedFor(intents, s, k, r)
    requires !IsPriority(intents[k]) && r != LaterInputWon
    ensures StateDrop(intents[k], s) == [Drop(intents[k].seqNo, r)]
  {
  }

  lemma {:induction false} LaterDrops(intents: seq<Intent>, wanted: Intent -> bool, k: nat, j: nat)
    requires k < j < |intents| && wanted(intents[k]) && wanted(intents[j])
    ensures Drop(intents[k].seqNo, LaterInputWon) in Superseded(Pick(intents, wanted))
  {
    var d := Drop(intents[k].seqNo, LaterInputWon);
    SupersededExactly(intents, wanted, d);
    assert Supersedes(intents, wanted, k, j, d);
  }

  lemma {:induction false} StateDropsExactly(intents: seq<Intent>, s: Status, d: Drop)
    ensures d in FlatMap(i => StateDrop(i, s), intents)
            <==> exists k :: 0 <= k < |intents| && d in StateDrop(intents[k], s)
  {
    FlatMapMember(i => StateDrop(i, s), intents, d);
    if i :| i in intents && d in StateDrop(i, s) {
      var k :| 0 <= k < |intents| && intents[k] == i;
    }
  }

  /** The k-th intent is wanted, and so is a later one. */
  ghost predicate Supersedes(intents: seq<Intent>, wanted: Intent -> bool, k: int, j: int, d: Drop) {
    && 0 <= k < j < |intents| && wanted(intents[k]) && wanted(intents[j])
    && d == Drop(intents[k].seqNo, LaterInputWon)
  }

  lemma {:induction false} SupersededExactly(intents: seq<Intent>, wanted: Intent -> bool, d: Drop)
    ensures d in Superseded(Pick(intents, wanted)) <==> exists k, j :: Supersedes(intents, wanted, k, j, d)
  {
    if intents != [] {
      var rest := intents[1..];
      var more := Pick(rest, wanted);
      SupersededExactly(rest, wanted, d);
      PickedSome(rest, wanted);
      assert Pick(intents, wanted) == (if wanted(intents[0]) then [intents[0]] else []) + more;
      if wanted(intents[0]) && more != [] {
        assert Pick(intents, wanted)[1..] == more;
        assert Superseded(Pick(intents, wanted)) == [Drop(intents[0].seqNo, LaterInputWon)] + Superseded(more);
      } else {
        assert Pick(intents, wanted) == more || Pick(intents, wanted) == [intents[0]];
      }
      SupersedesHeadOrTail(intents, wanted, d);
      assert d in Superseded(more) <==> exists k, j :: Supersedes(rest, wanted, k, j, d);
    }
  }

  lemma {:induction false} SupersedesHeadOrTail(intents: seq<Intent>, wanted: Intent -> bool, d: Drop)
    requires intents != []
    ensures (exists k, j :: Supersedes(intents, wanted, k, j, d))
            <==> || (exists k, j :: Supersedes(intents[1..], wanted, k, j, d))
                 || (wanted(intents[0]) && d == Drop(intents[0].seqNo, LaterInputWon)
                     && exists i :: i in intents[1..] && wanted(i))
  {
    var rest := intents[1..];
    if k, j :| Supersedes(intents, wanted, k, j, d) {
      assert intents[j] == rest[j - 1] && intents[j] in rest;
      assert k > 0 ==> Supersedes(rest, wanted, k - 1, j - 1, d);
    }
    if k, j :| Supersedes(rest, wanted, k, j, d) {
      assert Supersedes(intents, wanted, k + 1, j + 1, d);
    }
    if i :| i in rest && wanted(intents[0]) && d == Drop(intents[0].seqNo, LaterInputWon) && wanted(i) {
      var j :| 0 <= j < |rest| && rest[j] == i;
      assert Supersedes(intents, wanted, 0, j + 1, d);
    }
  }

  // ---------- the fold as a loop ----------

  /** The first pass looks for a cancel; the second one sorts the intents. */
  method Fold(intents: seq<Intent>, s: Status) returns (d: Decision)
    ensures d == FoldIntents(intents, s)
  {
    var cancel := LowestCancel(intents);
    if cancel.Some? {
      var dropped := DropBehind(intents, cancel.value);
      return CancelDecision(cancel.value, dropped);
    }
    var g := GatherAll(intents, s);
    d := Decide(g, intents, s);
  }

  method LowestCancel(intents: seq<Intent>) returns (cancel: Option<nat>)
    ensures cancel == FirstCancel(intents)
  {
    cancel := None;
    for k := 0 to |intents|
      invariant cancel == None <==> forall i :: i in intents[..k] ==> i.kind != CancelRequested
      invariant cancel.Some? ==> Intent(cancel.value, CancelRequested) in intents[..k]
      invariant cancel.Some? ==>
                  forall i :: i in intents[..k] && i.kind == CancelRequested ==> cancel.value <= i.seqNo
    {
      assert intents[..k + 1] == intents[..k] + [intents[k]];
      if intents[k].kind == CancelRequested && (cancel == None || intents[k].seqNo < cancel.value) {
        cancel := Some(intents[k].seqNo);
      }
    }
    assert intents[..|intents|] == intents;
  }

  method DropBehind(intents: seq<Intent>, cancel: nat) returns (dropped: seq<Drop>)
    ensures dropped == CancelDrops(intents, cancel)
  {
    dropped := [];
    ghost var drop := (i: Intent) =>
      if i.seqNo == cancel then []
      else [Drop(i.seqNo, if i.kind == CancelRequested then LaterInputWon else SupersededByCancel)];
    for k := 0 to |intents|
      invariant dropped == FlatMap(drop, intents[..k])
    {
      assert intents[..k + 1] == intents[..k] + [intents[k]];
      FlatMapSnoc(drop, intents[..k], intents[k]);
      if intents[k].seqNo != cancel {
        var later := intents[k].kind == CancelRequested;
        dropped := dropped + [Drop(intents[k].seqNo, if later then LaterInputWon else SupersededByCancel)];
      }
    }
    assert intents[..|intents|] == intents;
  }

  /** What the pass over the intents has gathered. */
  datatype Gathered = Gathered(
    delta: map<string, int>, steers: seq<Intent>, humans: seq<Intent>, priorities: seq<Intent>, pauses: seq<Intent>,
    applied: seq<nat>, dropped: seq<Drop>)

  function GatheredFrom(intents: seq<Intent>, s: Status): Gathered {
    Gathered(
      Limits(intents), Pick(intents, SteersIn(s)), Pick(intents, HumansIn(s)), Pick(intents, IsPriority),
      Pick(intents, PausesIn(s)), FlatMap((i: Intent) => [i.seqNo], intents), FlatMap(i => StateDrop(i, s), intents))
  }

  lemma GatheredSnoc(intents: seq<Intent>, s: Status, i: Intent)
    ensures var g, h := GatheredFrom(intents, s), GatheredFrom(intents + [i], s);
            && h.delta == (if i.kind.LimitAdjusted? && i.kind.wellFormed then g.delta[i.kind.key := i.kind.limit]
                           else g.delta)
            && h.steers == g.steers + (if SteersIn(s)(i) then [i] else [])
            && h.humans == g.humans + (if HumansIn(s)(i) then [i] else [])
            && h.priorities == g.priorities + (if IsPriority(i) then [i] else [])
            && h.pauses == g.pauses + (if PausesIn(s)(i) then [i] else [])
            && h.applied == g.applied + [i.seqNo] && h.dropped == g.dropped + StateDrop(i, s)
  {
    PickSnoc(intents, SteersIn(s), i);
    PickSnoc(intents, HumansIn(s), i);
    PickSnoc(intents, IsPriority, i);
    PickSnoc(intents, PausesIn(s), i);
    FlatMapSnoc((i: Intent) => [i.seqNo], intents, i);
    FlatMapSnoc(i => StateDrop(i, s), intents, i);
    assert (intents + [i])[..|intents|] == intents;
  }

  /** One intent, by its kind and what the status has a use for. */
  method Gather(g: Gathered, ghost before: seq<Intent>, i: Intent, s: Status) returns (h: Gathered)
    requires g == GatheredFrom(before, s)
    ensures h == GatheredFrom(before + [i], s)
  {
    GatheredSnoc(before, s, i);
    var dispatching := s == Queued || s == Running;
    var paused := s == PausedHuman || s == Paused || s == PausedAuto;
    h := g.(applied := g.applied + [i.seqNo]);
    match i.kind {
      case PauseRequested =>
        if paused {
          h := h.(dropped := h.dropped + [Drop(i.seqNo, AlreadyPaused)]);
        } else if !dispatching {
          h := h.(dropped := h.dropped + [Drop(i.seqNo, WrongState)]);
        } else {
          h := h.(pauses := h.pauses + [i]);
        }
      case Steering(text) =>
        if (dispatching || paused) && text != "" {
          h := h.(steers := h.steers + [i]);
        } else if !dispatching && !paused {
          h := h.(dropped := h.dropped + [Drop(i.seqNo, WrongState)]);
        }
      case HumanInput(_) =>
        if dispatching || paused {
          h := h.(humans := h.humans + [i]);
        } else {
          h := h.(dropped := h.dropped + [Drop(i.seqNo, WrongState)]);
        }
      case PriorityAdjusted(_) => h := h.(priorities := h.priorities + [i]);
      case LimitAdjusted(key, limit, wellFormed) =>
        if wellFormed {
          h := h.(delta := h.delta[key := limit]);
        } else {
          h := h.(dropped := h.dropped + [Drop(i.seqNo, WrongState)]);
        }
      case _ =>
    }
  }

  method GatherAll(intents: seq<Intent>, s: Status) returns (g: Gathered)
    ensures g == GatheredFrom(intents, s)
  {
    g := Gathered(map[], [], [], [], [], [], []);
    for k := 0 to |intents|
      invariant g == GatheredFrom(intents[..k], s)
    {
      assert intents[..k + 1] == intents[..k] + [intents[k]];
      g := Gather(g, intents[..k], intents[k], s);
    }
    assert intents[..|intents|] == intents;
  }

  /** The last input and priority win; a pause gives way to a specific intent. */
  method Decide(g: Gathered, ghost intents: seq<Intent>, s: Status) returns (d: Decision)
    requires FirstCancel(intents) == None && g == GatheredFrom(intents, s)
    ensures d == FoldIntents(intents, s)
  {
    var delta, human := g.delta, None;
    if g.humans != [] {
      var last := g.humans[|g.humans| - 1];
      Picked(intents, HumansIn(s), last);
      human := Some(last.kind.input);
    }
    if g.priorities != [] {
      var last := g.priorities[|g.priorities| - 1];
      Picked(intents, IsPriority, last);
      delta := delta[PRIORITY_KEY := last.kind.priority];
    }
    var specific := g.steers != [] || human.Some?;
    var early := AllButLast(g.humans);
    var outdated := AllButLast(g.priorities);
    d := Proceed(
      delta, FlatMap((i: Intent) => if i.kind.Steering? then [i.kind.text] else [], g.steers), human,
      g.pauses != [] && !specific, g.pauses != [] && specific, g.applied, g.dropped + early + outdated);
  }

  /** Of the intents of which the last wins, the drops of the others. */
  method AllButLast(intents: seq<Intent>) returns (dropped: seq<Drop>)
    ensures dropped == Superseded(intents)
  {
    dropped := [];
    for k := 0 to if intents == [] then 0 else |intents| - 1
      invariant dropped + Superseded(intents[k..]) == Superseded(intents)
    {
      assert intents[k..][1..] == intents[k + 1..];
      dropped := dropped + [Drop(intents[k].seqNo, LaterInputWon)];
    }
  }

  // ---------- one run ----------

  function After(applied: nat): Intent -> bool {
    (i: Intent) => i.seqNo > applied
  }

  function UpTo(seqNo: nat): Intent -> bool {
    (i: Intent) => i.seqNo <= seqNo
  }

  predicate IsCancel(k: IntentKind) {
    k == CancelRequested
  }

  predicate IsHuman(k: IntentKind) {
    k.HumanInput?
  }

  predicate IsResume(k: IntentKind) {
    k == Resume
  }

  predicate IsUnquarantine(k: IntentKind) {
    k.Unquarantine?
  }

  /** One append of the sweep. */
  datatype Batch = Batch(facts: seq<Fact>, delta: map<string, int>, advance: Option<nat>)

  /** A run as the sweep meets it: `intents` in the order they were issued. */
  datatype Row = Row(
    status: Status, version: nat, applied: nat, routing: map<string, int>, resumeAt: Option<nat>,
    intents: seq<Intent>, orphans: seq<string>, batches: seq<Batch>)
  {
    function With(b: Batch): Row {
      this.(status := StatusAfter(status, b.facts), version := version + 1, routing := routing + b.delta,
            applied := if b.advance.Some? then b.advance.value else applied, batches := batches + [b])
    }

    function Pending(): seq<Intent> {
      Pick(intents, After(applied))
    }
  }

  /** The first pending intent of a kind. */
  function NextPending(pending: seq<Intent>, wanted: IntentKind -> bool): (r: Option<Intent>)
    ensures r == None <==> forall i :: i in pending ==> !wanted(i.kind)
    ensures r.Some? ==> r.value in pending && wanted(r.value.kind)
  {
    if pending == [] then None
    else if wanted(pending[0].kind) then Some(pending[0])
    else NextPending(pending[1..], wanted)
  }

  /** It is the earliest one: every pending intent ahead of it is of another kind. */
  lemma {:induction false} NextIsEarliest(pending: seq<Intent>, wanted: IntentKind -> bool) returns (k: nat)
    requires NextPending(pending, wanted).Some?
    ensures k < |pending| && NextPending(pending, wanted) == Some(pending[k]) && wanted(pending[k].kind)
    ensures forall j :: 0 <= j < k ==> !wanted(pending[j].kind)
  {
    if wanted(pending[0].kind) {
      k := 0;
    } else {
      var i := NextIsEarliest(pending[1..], wanted);
      k := i + 1;
      assert forall j :: 0 < j < k ==> pending[j] == pending[1..][j - 1];
    }
  }

  datatype Sweep = WakeCancel | WakeHuman | WakeResume | WakeAutoResume | WakeUnquarantine

  predicate Candidate(sweep: Sweep, r: Row, now: nat) {
    match sweep
    case WakeCancel => r.status in {Paused, PausedHuman, PausedAuto, Quarantined, Queued}
    case WakeHuman => r.status == PausedHuman
    case WakeResume => IsPaused(r.status)
    case WakeAutoResume => r.status == PausedAuto && r.resumeAt.Some? && r.resumeAt.value <= now
    case WakeUnquarantine => r.status == Quarantined
  }

  /** What the sweep appends to a candidate, if anything. */
  function Plan(sweep: Sweep, r: Row): Option<Batch> {
    match sweep
    case WakeCancel =>
      var cancel := NextPending(r.Pending(), IsCancel);
      if cancel == None then None
      else Some(Batch([RunTerminated(Aborted(cancel.value.seqNo))], map[], Some(cancel.value.seqNo)))
    case WakeHuman =>
      if NextPending(r.Pending(), IsHuman) == None then None
      else Some(Batch([RunResumed(PausedHuman)], map[], None))
    case WakeResume =>
      if NextPending(r.Pending(), IsResume) == None then None
      else Some(Batch([RunResumed(r.status)], map[], None))
    case WakeAutoResume => Some(Batch([RunResumed(PausedAuto)], map[], None))
    case WakeUnquarantine =>
      match NextPending(r.Pending(), IsUnquarantine)
      case None => None
      case Some(intent) =>
        if !intent.kind.Unquarantine? || intent.kind.resolution == None then None
        else
          var decision := FoldIntents(Pick(r.Pending(), UpTo(intent.seqNo)), Quarantined);
          Some(Batch(
            UnquarantineFacts(decision, intent.kind.resolution.value, intent.seqNo, r.orphans),
            if decision.Proceed? then decision.delta else map[],
            Some(intent.seqNo)))
  }

  function UnquarantineFacts(decision: Decision, resolution: Resolution, seqNo: nat, orphans: seq<string>): seq<Fact> {
    if decision.CancelDecision? then [RunTerminated(Aborted(decision.intentSeq))]
    else if resolution == CancelIt then [RunTerminated(Aborted(seqNo))]
    else (if resolution == TreatAsDone then SynthesisedDone(orphans) else []) + [RunResumed(Quarantined)]
  }

  function SynthesisedDone(orphans: seq<string>): seq<Fact> {
    if orphans == [] then [] else [SideEffect(orphans[0])] + SynthesisedDone(orphans[1..])
  }

  function Swept(sweep: Sweep, r: Row, now: nat): Row {
    if Candidate(sweep, r, now) && Plan(sweep, r).Some? then r.With(Plan(sweep, r).value) else r
  }

  /** All five, in their order: cancel first. */
  function Woken(r: Row, now: nat): Row {
    Swept(WakeUnquarantine,
      Swept(WakeAutoResume, Swept(WakeResume, Swept(WakeHuman, Swept(WakeCancel, r, now), now), now), now), now)
  }

  lemma {:induction false} DoneKeepsStatus(s: Status, orphans: seq<string>, rest: seq<Fact>)
    ensures StatusAfter(s, SynthesisedDone(orphans) + rest) == StatusAfter(s, rest)
    decreases |orphans|
  {
    if orphans == [] {
      assert SynthesisedDone(orphans) + rest == rest;
    } else {
      DoneKeepsStatus(s, orphans[1..], rest);
      var all := SynthesisedDone(orphans) + rest;
      assert all[0] == SideEffect(orphans[0]) && all[1..] == SynthesisedDone(orphans[1..]) + rest;
    }
  }

  lemma OneFact(s: Status, f: Fact)
    ensures StatusAfter(s, [f]) == StatusStep(s, f)
  {
    assert [f][1..] == [];
    assert StatusAfter(s, [f]) == StatusAfter(StatusStep(s, f), []);
  }

  lemma UnquarantineOutcome(decision: Decision, resolution: Resolution, seqNo: nat, orphans: seq<string>)
    ensures StatusAfter(Quarantined, UnquarantineFacts(decision, resolution, seqNo, orphans)) in {Queued, Cancelled}
  {
    if decision.CancelDecision? {
      OneFact(Quarantined, RunTerminated(Aborted(decision.intentSeq)));
    } else if resolution == CancelIt {
      OneFact(Quarantined, RunTerminated(Aborted(seqNo)));
    } else {
      OneFact(Quarantined, RunResumed(Quarantined));
      DoneKeepsStatus(Quarantined, orphans, [RunResumed(Quarantined)]);
      assert [] + [RunResumed(Quarantined)] == [RunResumed(Quarantined)];
    }
  }

  lemma PlanOutcome(sweep: Sweep, r: Row)
    requires Plan(sweep, r).Some? && (sweep == WakeUnquarantine ==> r.status == Quarantined)
    ensures var b := Plan(sweep, r).value; var s := StatusAfter(r.status, b.facts);
            && s in {Queued, Cancelled}
            && (sweep == WakeCancel ==> s == Cancelled)
            && (sweep in {WakeHuman, WakeResume, WakeAutoResume} ==> s == Queued && b.advance == None)
  {
    var b := Plan(sweep, r).value;
    if sweep == WakeUnquarantine {
      var intent := NextPending(r.Pending(), IsUnquarantine).value;
      var decision := FoldIntents(Pick(r.Pending(), UpTo(intent.seqNo)), Quarantined);
      UnquarantineOutcome(decision, intent.kind.resolution.value, intent.seqNo, r.orphans);
    } else {
      OneFact(r.status, b.facts[0]);
    }
  }

  /** A sweep that appends to a run leaves it queued, or cancelled; which. */
  lemma SweepOutcome(sweep: Sweep, r: Row, now: nat)
    requires Swept(sweep, r, now) != r
    ensures Candidate(sweep, r, now) && Plan(sweep, r).Some?
    ensures var t := Swept(sweep, r, now);
            && t.intents == r.intents && t.batches == r.batches + [Plan(sweep, r).value]
            && t.status in {Queued, Cancelled}
            && (sweep == WakeCancel ==> t.status == Cancelled)
            && (sweep in {WakeHuman, WakeResume, WakeAutoResume} ==> t.status == Queued && t.applied == r.applied)
  {
    PlanOutcome(sweep, r);
  }

  lemma Untouched(sweep: Sweep, r: Row, now: nat)
    ensures Swept(sweep, r, now) == r
            <==> !(Candidate(sweep, r, now) && Plan(sweep, r).Some?)
  {
    if Candidate(sweep, r, now) && Plan(sweep, r).Some? {
      assert |r.With(Plan(sweep, r).value).batches| == |r.batches| + 1;
    }
  }

  /** The one sweep that acts on a run, if any does. */
  function ActingSweep(r: Row, now: nat): Option<Sweep> {
    if Swept(WakeCancel, r, now) != r then Some(WakeCancel)
    else if Swept(WakeHuman, r, now) != r then Some(WakeHuman)
    else if Swept(WakeResume, r, now) != r then Some(WakeResume)
    else if Swept(WakeAutoResume, r, now) != r then Some(WakeAutoResume)
    else if Swept(WakeUnquarantine, r, now) != r then Some(WakeUnquarantine)
    else None
  }

  lemma QuietOnceDone(sweep: Sweep, r: Row, now: nat)
    requires r.status == Cancelled || (r.status == Queued && sweep != WakeCancel)
    ensures Swept(sweep, r, now) == r
  {
  }

  /** One wake-up appends at most one batch to a run: the first sweep that has
      something for it is the only one to act. */
  lemma AtMostOneBatch(r: Row, now: nat)
    ensures Woken(r, now) == match ActingSweep(r, now) case None => r case Some(sweep) => Swept(sweep, r, now)
    ensures |Woken(r, now).batches| <= |r.batches| + 1
  {
    var acting := ActingSweep(r, now);
    if acting.Some? {
      var t := Swept(acting.value, r, now);
      SweepOutcome(acting.value, r, now);
      QuietOnceDone(WakeHuman, t, now);
      QuietOnceDone(WakeResume, t, now);
      QuietOnceDone(WakeAutoResume, t, now);
      QuietOnceDone(WakeUnquarantine, t, now);
    }
  }

  /** A run that no fiber is dispatching and that has a pending cancel ends
      aborted on the first of them, and nothing resumes it. */
  lemma CancelWins(r: Row, now: nat)
    requires r.status in {Paused, PausedHuman, PausedAuto, Quarantined, Queued}
    requires exists i :: i in r.Pending() && i.kind == CancelRequested
    ensures Woken(r, now).status == Cancelled
    ensures exists k ::
              && FirstOf(r.Pending(), CancelRequested, k)
              && var seqNo := r.Pending()[k].seqNo;
                 Woken(r, now).batches == r.batches + [Batch([RunTerminated(Aborted(seqNo))], map[], Some(seqNo))]
  {
    Untouched(WakeCancel, r, now);
    SweepOutcome(WakeCancel, r, now);
    AtMostOneBatch(r, now);
    var k := NextIsEarliest(r.Pending(), IsCancel);
    assert FirstOf(r.Pending(), CancelRequested, k);
  }

  /** The first intent of this kind. */
  predicate FirstOf(intents: seq<Intent>, kind: IntentKind, k: int) {
    0 <= k < |intents| && intents[k].kind == kind && forall j :: 0 <= j < k ==> intents[j].kind != kind
  }

  /** With no new intent and no timer elapsed a second wake-up changes nothing. */
  lemma SecondSweepQuiet(r: Row, now: nat)
    ensures Woken(Woken(r, now), now) == Woken(r, now)
  {
    AtMostOneBatch(r, now);
    var t := Woken(r, now);
    var acting := ActingSweep(r, now);
    if acting.Some? {
      SweepOutcome(acting.value, r, now);
      Untouched(WakeCancel, r, now);
      if t.status == Queued {
        NoCancelAppears(acting.value, r, now);
      }
      Settles(t, now);
    }
  }

  /** A run that is cancelled, or queued with no cancel pending, is left alone. */
  lemma Settles(t: Row, now: nat)
    requires t.status == Cancelled || (t.status == Queued && Plan(WakeCancel, t) == None)
    ensures Woken(t, now) == t
  {
    Untouched(WakeCancel, t, now);
    QuietOnceDone(WakeHuman, t, now);
    QuietOnceDone(WakeResume, t, now);
    QuietOnceDone(WakeAutoResume, t, now);
    QuietOnceDone(WakeUnquarantine, t, now);
  }

  /** A sweep passes intents; it makes none pending. */
  lemma NoCancelAppears(sweep: Sweep, r: Row, now: nat)
    requires Plan(WakeCancel, r) == None && Swept(sweep, r, now) != r && sweep != WakeCancel
    ensures Plan(WakeCancel, Swept(sweep, r, now)) == None
  {
    var t := Swept(sweep, r, now);
    SweepOutcome(sweep, r, now);
    forall i | i in t.Pending() ensures i.kind != CancelRequested {
      Picked(t.intents, After(t.applied), i);
      Picked(r.intents, After(r.applied), i);
      if sweep == WakeUnquarantine {
        AdvancesForward(r);
      }
    }
  }

  lemma AdvancesForward(r: Row)
    requires Plan(WakeUnquarantine, r).Some?
    ensures Plan(WakeUnquarantine, r).value.advance.value > r.applied
  {
    var intent := NextPending(r.Pending(), IsUnquarantine).value;
    Picked(r.intents, After(r.applied), intent);
  }

  /** An unquarantine moves the watermark to its own intent only, in one append
      with the fold of every intent that passes: each of them is in the delta
      it commits, or dropped, or a marker, or the cancel it commits. */
  lemma UnquarantineFoldsWhatItPasses(r: Row, now: nat, intent: Intent, i: Intent)
    requires r.status == Quarantined && NextPending(r.Pending(), IsUnquarantine) == Some(intent)
    requires intent.kind.Unquarantine? && intent.kind.resolution.Some?
    requires i in r.intents && r.applied < i.seqNo <= intent.seqNo
    ensures var t := Swept(WakeUnquarantine, r, now);
            var decision := FoldIntents(Pick(r.Pending(), UpTo(intent.seqNo)), Quarantined);
            && t.applied == intent.seqNo && |t.batches| == |r.batches| + 1
            && AccountedFor(i, decision)
            && match decision
               case Proceed(delta, _, _, _, _, _, _) => t.routing == r.routing + delta
               case CancelDecision(seqNo, _) =>
                 t.status == Cancelled && t.batches[|r.batches|].facts == [RunTerminated(Aborted(seqNo))]
  {
    PassedIsAccountedFor(r, intent, i);
    UnquarantinedRow(r, now, intent);
  }

  lemma PassedIsAccountedFor(r: Row, intent: Intent, i: Intent)
    requires i in r.intents && r.applied < i.seqNo <= intent.seqNo
    ensures AccountedFor(i, FoldIntents(Pick(r.Pending(), UpTo(intent.seqNo)), Quarantined))
  {
    Picked(r.intents, After(r.applied), i);
    Picked(r.Pending(), UpTo(intent.seqNo), i);
    FoldAccountsForAll(Pick(r.Pending(), UpTo(intent.seqNo)), Quarantined, i);
  }

  lemma UnquarantinedRow(r: Row, now: nat, intent: Intent)
    requires r.status == Quarantined && NextPending(r.Pending(), IsUnquarantine) == Some(intent)
    requires intent.kind.Unquarantine? && intent.kind.resolution.Some?
    ensures var t := Swept(WakeUnquarantine, r, now);
            var decision := FoldIntents(Pick(r.Pending(), UpTo(intent.seqNo)), Quarantined);
            && t.applied == intent.seqNo && |t.batches| == |r.batches| + 1
            && match decision
               case Proceed(delta, _, _, _, _, _, _) => t.routing == r.routing + delta
               case CancelDecision(seqNo, _) =>
                 t.status == Cancelled && t.batches[|r.batches|].facts == [RunTerminated(Aborted(seqNo))]
  {
    var batch := Plan(WakeUnquarantine, r).value;
    assert Swept(WakeUnquarantine, r, now) == r.With(batch);
    var decision := FoldIntents(Pick(r.Pending(), UpTo(intent.seqNo)), Quarantined);
    if decision.CancelDecision? {
      OneFact(Quarantined, RunTerminated(Aborted(decision.intentSeq)));
    }
  }

  /** A quarantined run whose first pending resolution is one of the three, with no
      cancel pending: cancelled it ends aborted on that resolution; retried it
      is queued and its side effect driven again; treated as done it is queued
      behind one done fact for each orphan, in their order. */
  lemma QuarantineResolved(r: Row, now: nat, intent: Intent)
    requires r.status == Quarantined && forall i :: i in r.Pending() ==> i.kind != CancelRequested
    requires NextPending(r.Pending(), IsUnquarantine) == Some(intent)
    requires intent.kind.Unquarantine? && intent.kind.resolution.Some?
    ensures var t := Woken(r, now);
            && |t.batches| == |r.batches| + 1 && t.batches[..|r.batches|] == r.batches && t.applied == intent.seqNo
            && var facts := t.batches[|r.batches|].facts;
               match intent.kind.resolution.value
               case CancelIt => t.status == Cancelled && facts == [RunTerminated(Aborted(intent.seqNo))]
               case RetryIt => t.status == Queued && facts == [RunResumed(Quarantined)]
               case TreatAsDone =>
                 && t.status == Queued && |facts| == |r.orphans| + 1
                 && facts[|r.orphans|] == RunResumed(Quarantined)
                 && forall k :: 0 <= k < |r.orphans| ==> facts[k] == SideEffect(r.orphans[k])
  {
    var decision := FoldIntents(Pick(r.Pending(), UpTo(intent.seqNo)), Quarantined);
    NoCancelPasses(r, intent);
    UnquarantineAlone(r, now);
    UnquarantinePlan(r, intent);
    UnquarantineStatus(decision, intent.kind.resolution.value, intent.seqNo, r.orphans);
  }

  lemma UnquarantinePlan(r: Row, intent: Intent)
    requires NextPending(r.Pending(), IsUnquarantine) == Some(intent)
    requires intent.kind.Unquarantine? && intent.kind.resolution.Some?
    ensures var plan := Plan(WakeUnquarantine, r);
            var decision := FoldIntents(Pick(r.Pending(), UpTo(intent.seqNo)), Quarantined);
            && plan.Some? && plan.value.advance == Some(intent.seqNo)
            && plan.value.facts
               == UnquarantineFacts(decision, intent.kind.resolution.value, intent.seqNo, r.orphans)
  {
  }

  lemma NoCancelPasses(r: Row, intent: Intent)
    requires forall i :: i in r.Pending() ==> i.kind != CancelRequested
    ensures FoldIntents(Pick(r.Pending(), UpTo(intent.seqNo)), Quarantined).Proceed?
  {
    var passed := Pick(r.Pending(), UpTo(intent.seqNo));
    forall i | i in passed ensures i.kind != CancelRequested {
      Picked(r.Pending(), UpTo(intent.seqNo), i);
    }
    assert FirstCancel(passed) == None;
  }

  lemma UnquarantineAlone(r: Row, now: nat)
    requires r.status == Quarantined && forall i :: i in r.Pending() ==> i.kind != CancelRequested
    ensures var plan := Plan(WakeUnquarantine, r); Woken(r, now) == if plan.Some? then r.With(plan.value) else r
  {
    AtMostOneBatch(r, now);
    Untouched(WakeCancel, r, now);
    assert Plan(WakeCancel, r) == None;
  }

  lemma UnquarantineStatus(decision: Decision, resolution: Resolution, seqNo: nat, orphans: seq<string>)
    requires decision.Proceed?
    ensures var facts := UnquarantineFacts(decision, resolution, seqNo, orphans);
            && StatusAfter(Quarantined, facts) == (if resolution == CancelIt then Cancelled else Queued)
            && match resolution
               case CancelIt => facts == [RunTerminated(Aborted(seqNo))]
               case RetryIt => facts == [RunResumed(Quarantined)]
               case TreatAsDone =>
                 && |facts| == |orphans| + 1 && facts[|orphans|] == RunResumed(Quarantined)
                 && forall k :: 0 <= k < |orphans| ==> facts[k] == SideEffect(orphans[k])
  {
    DoneInOrder(orphans);
    OneFact(Quarantined, RunTerminated(Aborted(seqNo)));
    OneFact(Quarantined, RunResumed(Quarantined));
    DoneKeepsStatus(Quarantined, orphans, [RunResumed(Quarantined)]);
    assert [] + [RunResumed(Quarantined)] == [RunResumed(Quarantined)];
  }

  lemma {:induction false} DoneInOrder(orphans: seq<string>)
    ensures |SynthesisedDone(orphans)| == |orphans|
    ensures forall k :: 0 <= k < |orphans| ==> SynthesisedDone(orphans)[k] == SideEffect(orphans[k])
  {
    if orphans != [] {
      DoneInOrder(orphans[1..]);
    }
  }

  /** Any other run with no cancel pending. A run paused for a human waits for an
      input or a resume; one that a timer may wake, for its time or a resume;
      any other paused one for a resume. It is then queued by one fact and
      nothing else changes. No run in another status is touched. */
  lemma WakesExactly(r: Row, now: nat)
    requires r.status != Quarantined && forall i :: i in r.Pending() ==> i.kind != CancelRequested
    ensures var human := exists i :: i in r.Pending() && i.kind.HumanInput?;
            var resume := exists i :: i in r.Pending() && i.kind == Resume;
            var wakes := match r.status
                         case PausedHuman => human || resume
                         case PausedAuto => resume || (r.resumeAt.Some? && r.resumeAt.value <= now)
                         case Paused => resume
                         case _ => false;
            Woken(r, now)
            == if wakes
               then r.(status := Queued, version := r.version + 1,
                       batches := r.batches + [Batch([RunResumed(r.status)], map[], None)])
               else r
  {
    AtMostOneBatch(r, now);
    ActsExactly(r, now);
    OneFact(r.status, RunResumed(r.status));
    assert r.routing + map[] == r.routing;
  }

  lemma ActsExactly(r: Row, now: nat)
    requires r.status != Quarantined && forall i :: i in r.Pending() ==> i.kind != CancelRequested
    ensures ActingSweep(r, now)
            == if r.status == PausedHuman && exists i :: i in r.Pending() && i.kind.HumanInput? then Some(WakeHuman)
               else if IsPaused(r.status) && exists i :: i in r.Pending() && i.kind == Resume then Some(WakeResume)
               else if r.status == PausedAuto && r.resumeAt.Some? && r.resumeAt.value <= now then Some(WakeAutoResume)
               else None
  {
    Untouched(WakeCancel, r, now);
    Untouched(WakeHuman, r, now);
    Untouched(WakeResume, r, now);
    Untouched(WakeAutoResume, r, now);
    Untouched(WakeUnquarantine, r, now);
  }

  /** So a timer wakes a paused run exactly if what paused it was a provider's, a
      handler's or a timeout's retry. */
  lemma TimerWakes(r: Row, reason: PauseReason, at: nat, now: nat)
    requires r.status == PausedStatus(reason) && r.Pending() == [] && r.resumeAt == Some(at)
    ensures Woken(r, now).status == Queued <==> reason in {ProviderRetry, HandlerRetry, TimeoutRetry} && at <= now
  {
    WakesExactly(r, now);
  }

  lemma {:induction false} DoneForEach(orphans: seq<string>, o: string)
    ensures SideEffect(o) in SynthesisedDone(orphans) <==> o in orphans
    ensures |SynthesisedDone(orphans)| == |orphans|
  {
    if orphans != [] {
      DoneForEach(orphans[1..], o);
    }
  }

  /** Treating a quarantined run's side effects as done records one for each
      orphan and for nothing else, and queues the run in the same append. */
  lemma TreatedAsDone(decision: Decision, seqNo: nat, orphans: seq<string>, o: string)
    requires decision.Proceed?
    ensures var facts := UnquarantineFacts(decision, TreatAsDone, seqNo, orphans);
            && |facts| == |orphans| + 1
            && (SideEffect(o) in facts <==> o in orphans)
            && StatusAfter(Quarantined, facts) == Queued
  {
    DoneForEach(orphans, o);
    DoneKeepsStatus(Quarantined, orphans, [RunResumed(Quarantined)]);
    OneFact(Quarantined, RunResumed(Quarantined));
  }

  /** A quarantined run with no cancel pending wakes exactly if its first pending
      resolution is one of the three: a malformed one is not skipped but
      blocks every resolution issued after it. */
  lemma MalformedBlocks(r: Row, now: nat)
    requires r.status == Quarantined && Plan(WakeCancel, r) == None
    ensures Woken(r, now) != r
            <==> match NextPending(r.Pending(), IsUnquarantine)
                 case None => false
                 case Some(intent) => intent.kind.Unquarantine? && intent.kind.resolution.Some?
  {
    AtMostOneBatch(r, now);
    Untouched(WakeCancel, r, now);
    Untouched(WakeUnquarantine, r, now);
  }

  /** So a resolution issued again behind a malformed one is never seen. */
  lemma ReissueIsIgnored(r: Row, now: nat, resolution: Resolution)
    requires r.status == Quarantined && r.applied == 0
    requires r.intents == [Intent(1, Unquarantine(None)), Intent(2, Unquarantine(Some(resolution)))]
    ensures Woken(r, now) == r
  {
    var first, second := r.intents[0], r.intents[1];
    assert r.intents[1..] == [second] && r.intents[1..][1..] == [];
    assert Pick([second], After(0)) == [second] + Pick([], After(0));
    assert r.Pending() == [first] + Pick([second], After(0));
    assert r.Pending()[0] == first && r.Pending()[1..] == [second];
    assert NextPending([second], IsCancel) == NextPending([second][1..], IsCancel);
    MalformedBlocks(r, now);
  }

  // ---------- the loops ----------

  class WakeStore {
    var rows: map<string, Row>

    constructor (rows: map<string, Row>)
      ensures this.rows == rows
    {
      this.rows := rows;
    }

    /** Lands iff nobody moved the row since it was read. */
    method AppendFact(run: string, b: Batch, expected: nat) returns (ok: bool)
      requires run in rows
      modifies this
      ensures ok <==> old(rows)[run].version == expected
      ensures rows == if ok then old(rows)[run := old(rows)[run].With(b)] else old(rows)
    {
      ok := rows[run].version == expected;
      if ok {
        rows := rows[run := rows[run].With(b)];
      }
    }

    /** What the sweep has for one candidate, as the candidate was read. */
    method WakeOne(sweep: Sweep, run: string, read: Row, now: nat) returns (woke: bool)
      requires run in rows && rows[run] == read && Candidate(sweep, read, now)
      modifies this
      ensures rows == old(rows)[run := Swept(sweep, read, now)]
      ensures woke <==> Swept(sweep, read, now) != read
    {
      var plan := Plan(sweep, read);
      Untouched(sweep, read, now);
      woke := false;
      if plan.Some? {
        woke := AppendFact(run, plan.value, read.version);
      }
    }

    /** One sweep: a loop over the rows that qualified when it began. */
    method RunSweep(sweep: Sweep, now: nat) returns (out: set<string>)
      modifies this
      ensures SweptAll(sweep, old(rows), rows, now)
      ensures out == set run | run in old(rows) && rows[run] != old(rows)[run]
    {
      var read := rows;
      var todo := set run | run in read && Candidate(sweep, read[run], now);
      forall run | run in read && run !in todo ensures Swept(sweep, read[run], now) == read[run] {
        Untouched(sweep, read[run], now);
      }
      out := {};
      while todo != {}
        invariant rows.Keys == read.Keys
        invariant forall run :: run in todo ==>
                    run in read && Candidate(sweep, read[run], now) && rows[run] == read[run]
        invariant forall run :: run in read && run !in todo ==> rows[run] == Swept(sweep, read[run], now)
        invariant forall run :: run in out <==> run in read && rows[run] != read[run]
      {
        var run :| run in todo;
        todo := todo - {run};
        var woke := WakeOne(sweep, run, read[run], now);
        if woke {
          out := out + {run};
        }
      }
    }

    /** The wake-up of every run: with nobody else writing, each ends as its own
        five sweeps make it, whatever the others are. */
    method WakeAll(now: nat) returns (woken: set<string>)
      modifies this
      ensures rows.Keys == old(rows).Keys
      ensures forall run :: run in rows ==> rows[run] == Woken(old(rows)[run], now)
    {
      ghost var r0 := rows;
      var cancelled := RunSweep(WakeCancel, now);
      ghost var r1 := rows;
      var humanWoken := RunSweep(WakeHuman, now);
      ghost var r2 := rows;
      var resumed := RunSweep(WakeResume, now);
      ghost var r3 := rows;
      var retried := RunSweep(WakeAutoResume, now);
      ghost var r4 := rows;
      var unquarantined := RunSweep(WakeUnquarantine, now);
      woken := cancelled + humanWoken + resumed + retried + unquarantined;
      forall run | run in rows ensures rows[run] == Woken(r0[run], now) {
        FiveSteps(r0[run], r1[run], r2[run], r3[run], r4[run], rows[run], now);
      }
    }
  }

  ghost predicate SweptAll(sweep: Sweep, before: map<string, Row>, after: map<string, Row>, now: nat) {
    after.Keys == before.Keys && forall run :: run in before ==> after[run] == Swept(sweep, before[run], now)
  }

  lemma FiveSteps(r0: Row, r1: Row, r2: Row, r3: Row, r4: Row, r5: Row, now: nat)
    requires r1 == Swept(WakeCancel, r0, now) && r2 == Swept(WakeHuman, r1, now) && r3 == Swept(WakeResume, r2, now)
    requires r4 == Swept(WakeAutoResume, r3, now) && r5 == Swept(WakeUnquarantine, r4, now)
    ensures r5 == Woken(r0, now)
  {
  }
}
