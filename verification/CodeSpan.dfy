/** The bootstrap command quoted to the model: escaped, put in a code span it
    cannot break out of, and framed by the environment block. */
module CodeSpan {
  import opened Wrappers
  import opened Utf16
  import opened Seqs

  const TICK: CodeUnit := 0x60
  const SPACE: CodeUnit := 0x20
  const LT: CodeUnit := 0x3C
  const AMP: CodeUnit := 0x26

  predicate LineEnding(u: CodeUnit) {
    u == 0x0A || u == 0x0D
  }

  predicate NoLineEnding(s: Str) {
    forall k :: 0 <= k < |s| ==> !LineEnding(s[k])
  }

  // ---------- reading a code span: section 6.1 of CommonMark ----------

  /** The length of the backtick run that starts here. */
  function RunAt(s: Str, i: nat): (n: nat)
    ensures i + n <= |s| || n == 0
    decreases |s| - i
  {
    if i < |s| && s[i] == TICK then 1 + RunAt(s, i + 1) else 0
  }

  /** The first backtick string of exactly `n`, from an index that is not inside
      one. */
  function ClosesAt(s: Str, i: nat, n: nat): (r: Option<nat>)
    ensures r.Some? ==> i <= r.value < |s| && r.value + n <= |s| && s[r.value] == TICK
    decreases |s| - i
  {
    if i >= |s| then None
    else if s[i] != TICK then ClosesAt(s, i + 1, n)
    else if RunAt(s, i) == n then Some(i)
    else ClosesAt(s, i + RunAt(s, i), n)
  }

  /** Line endings, a carriage return and line feed pair being one, as spaces. */
  function Spaced(s: Str): Str {
    if s == [] then []
    else if s[0] == 0x0D && |s| > 1 && s[1] == 0x0A then [SPACE] + Spaced(s[2..])
    else [if LineEnding(s[0]) then SPACE else s[0]] + Spaced(s[1..])
  }

  lemma {:induction false} SpacedHasNoLineEnding(s: Str)
    ensures NoLineEnding(Spaced(s)) && (NoLineEnding(s) ==> Spaced(s) == s)
  {
    if s != [] {
      SpacedHasNoLineEnding(s[1..]);
      if s[0] == 0x0D && |s| > 1 && s[1] == 0x0A {
        SpacedHasNoLineEnding(s[2..]);
      } else if NoLineEnding(s) {
        assert NoLineEnding(s[1..]);
      }
    }
  }

  lemma SpacedNotEmpty(s: Str)
    requires s != []
    ensures Spaced(s) != []
  {
  }

  predicate AllSpaces(s: Str) {
    forall k :: 0 <= k < |s| ==> s[k] == SPACE
  }

  /** Begins and ends with a space, and is not all spaces. */
  predicate Strips(s: Str) {
    s != [] && s[0] == SPACE && s[|s| - 1] == SPACE && !AllSpaces(s)
  }

  function Normalised(content: Str): Str {
    var s := Spaced(content);
    if Strips(s) then s[1..|s| - 1] else s
  }

  /** The content of the code span a text opens with, and what follows it. */
  function ParseSpan(s: Str): Option<(Str, Str)> {
    var n := RunAt(s, 0);
    if n == 0 then None
    else
      match ClosesAt(s, n, n)
      case None => None
      case Some(close) => Some((Normalised(s[n..close]), s[close + n..]))
  }

  // ---------- printing one ----------

  function LongestRunFrom(s: Str, i: nat): nat
    requires i <= |s|
    decreases |s| - i
  {
    if i == |s| then 0
    else
      var rest := LongestRunFrom(s, i + 1);
      if RunAt(s, i) > rest then RunAt(s, i) else rest
  }

  function Fence(n: nat): Str {
    seq(n, i => TICK)
  }

  predicate Padded(value: Str) {
    value != [] && (value[0] == TICK || value[|value| - 1] == TICK)
  }

  /** A value with a backtick at either end is padded with a space at both. */
  function Content(value: Str): Str {
    var pad := if Padded(value) then [SPACE] else [];
    pad + value + pad
  }

  function CodeSpan(value: Str): Str {
    var fence := Fence(LongestRunFrom(value, 0) + 1);
    fence + Content(value) + fence
  }

  /** The scan over the value's runs, one run at a time. */
  method LongestRun(value: Str) returns (longest: nat)
    ensures longest == LongestRunFrom(value, 0)
    ensures forall i: nat :: RunAt(value, i) <= longest
    ensures longest > 0 ==> exists i: nat :: RunAt(value, i) == longest
  {
    longest := 0;
    var at := 0;
    while at < |value|
      invariant at <= |value|
      invariant LongestRunFrom(value, 0)
             == if longest > LongestRunFrom(value, at) then longest else LongestRunFrom(value, at)
      invariant longest > 0 ==> exists i: nat :: RunAt(value, i) == longest
      decreases |value| - at
    {
      var run := RunAt(value, at);
      LongestSkipsRun(value, at);
      if run > longest {
        longest := run;
      }
      at := at + if run == 0 then 1 else run;
    }
    forall i: nat ensures RunAt(value, i) <= longest {
      LongestIsMax(value, 0, i);
    }
  }

  lemma {:induction false} LongestIsMax(s: Str, from: nat, i: nat)
    requires from <= |s| && from <= i
    ensures RunAt(s, i) <= LongestRunFrom(s, from)
    decreases |s| - from
  {
    if from < i && from < |s| {
      LongestIsMax(s, from + 1, i);
    }
  }

  lemma {:induction false} LongestAtMost(s: Str, from: nat, bound: nat)
    requires from <= |s| && forall k: nat :: RunAt(s, k) <= bound
    ensures LongestRunFrom(s, from) <= bound
    decreases |s| - from
  {
    if from < |s| {
      LongestAtMost(s, from + 1, bound);
    }
  }

  /** The runs inside a run are shorter. */
  lemma {:induction false} LongestSkipsRun(s: Str, i: nat)
    requires i < |s|
    ensures var n := RunAt(s, i); var next := i + if n == 0 then 1 else n;
            && next <= |s|
            && LongestRunFrom(s, i) == if n > LongestRunFrom(s, next) then n else LongestRunFrom(s, next)
    decreases |s| - i
  {
    if s[i] == TICK && i + 1 < |s| && s[i + 1] == TICK {
      LongestSkipsRun(s, i + 1);
    }
  }

  // ---------- the round trip ----------

  lemma {:induction false} FenceRun(n: nat, rest: Str, i: nat)
    requires i <= n && (rest == [] || rest[0] != TICK)
    ensures RunAt(Fence(n) + rest, i) == n - i
    decreases n - i
  {
    if i < n {
      FenceRun(n, rest, i + 1);
    }
  }

  lemma {:induction false} RunShift(a: Str, b: Str, i: nat)
    ensures RunAt(a + b, |a| + i) == RunAt(b, i)
    decreases |b| - i
  {
    if i < |b| && b[i] == TICK {
      RunShift(a, b, i + 1);
    }
  }

  /** Behind a text that does not end in a backtick its runs are its own. */
  lemma {:induction false} RunInside(c: Str, tail: Str, i: nat)
    requires i < |c| && c[|c| - 1] != TICK
    ensures RunAt(c + tail, i) == RunAt(c, i) && i + RunAt(c, i) < |c|
    decreases |c| - i
  {
    if c[i] == TICK {
      RunInside(c, tail, i + 1);
    }
  }

  /** A content with only shorter runs is closed by its own fence. */
  lemma {:induction false} FenceCloses(c: Str, n: nat, rest: Str, i: nat)
    requires c != [] && c[|c| - 1] != TICK && i <= |c| && LongestRunFrom(c, 0) < n
    requires rest == [] || rest[0] != TICK
    ensures ClosesAt(c + (Fence(n) + rest), i, n) == Some(|c|)
    decreases |c| - i
  {
    var tail := Fence(n) + rest;
    if i == |c| {
      FenceRun(n, rest, 0);
      RunShift(c, tail, 0);
    } else {
      RunInside(c, tail, i);
      LongestIsMax(c, 0, i);
      FenceCloses(c, n, rest, if c[i] == TICK then i + RunAt(c, i) else i + 1);
    }
  }

  lemma {:induction false} ClosesShift(a: Str, b: Str, i: nat, n: nat)
    ensures ClosesAt(a + b, |a| + i, n)
            == match ClosesAt(b, i, n) case None => None case Some(at) => Some(|a| + at)
    decreases |b| - i
  {
    RunShift(a, b, i);
    if i < |b| {
      ClosesShift(a, b, if b[i] == TICK then i + RunAt(b, i) else i + 1, n);
    }
  }

  lemma ParseFenced(c: Str, n: nat, rest: Str)
    requires c != [] && c[0] != TICK && c[|c| - 1] != TICK && LongestRunFrom(c, 0) < n
    requires rest == [] || rest[0] != TICK
    ensures ParseSpan(Fence(n) + (c + (Fence(n) + rest))) == Some((Normalised(c), rest))
  {
    var fence, body := Fence(n), c + (Fence(n) + rest);
    FenceRun(n, body, 0);
    assert RunAt(fence + body, 0) == n;
    FenceCloses(c, n, rest, 0);
    assert ClosesAt(body, 0, n) == Some(|c|);
    ClosesShift(fence, body, 0, n);
    assert ClosesAt(fence + body, n, n) == Some(n + |c|);
    ParseParts(fence, c, rest, n);
  }

  lemma ParseParts(fence: Str, c: Str, rest: Str, n: nat)
    requires |fence| == n > 0 && RunAt(fence + (c + (fence + rest)), 0) == n
    requires ClosesAt(fence + (c + (fence + rest)), n, n) == Some(n + |c|)
    ensures ParseSpan(fence + (c + (fence + rest))) == Some((Normalised(c), rest))
  {
    var s := fence + (c + (fence + rest));
    assert s[n..n + |c|] == c;
    assert s[n + |c| + n..] == rest;
  }

  lemma {:induction false} PaddedRuns(v: Str, i: nat)
    ensures RunAt([SPACE] + v + [SPACE], i) <= LongestRunFrom(v, 0)
    decreases |v| + 2 - i
  {
    var c := v + [SPACE];
    assert [SPACE] + v + [SPACE] == [SPACE] + c;
    if 0 < i <= |v| {
      RunShift([SPACE], c, i - 1);
      RunInside(c, [], i - 1);
      RunPrefix(v, i - 1);
      LongestIsMax(v, 0, i - 1);
    }
  }

  lemma {:induction false} RunPrefix(v: Str, i: nat)
    requires i <= |v|
    ensures RunAt(v + [SPACE], i) == RunAt(v, i)
    decreases |v| - i
  {
    if i < |v| && v[i] == TICK {
      RunPrefix(v, i + 1);
    }
  }

  /** A code span has never an empty content. */
  lemma NeverEmpty(s: Str)
    ensures ParseSpan(s).Some? ==> ParseSpan(s).value.0 != []
  {
    var n := RunAt(s, 0);
    if n > 0 && ClosesAt(s, n, n).Some? {
      RunEnds(s, 0);
      var close := ClosesAt(s, n, n).value;
      SpacedNotEmpty(s[n..close]);
      var t := Spaced(s[n..close]);
      if |t| == 2 {
        assert t[0] == SPACE && t[1] == SPACE ==> AllSpaces(t);
      }
    }
  }

  lemma {:induction false} RunEnds(s: Str, i: nat)
    ensures i + RunAt(s, i) < |s| ==> s[i + RunAt(s, i)] != TICK
    decreases |s| - i
  {
    if i < |s| && s[i] == TICK {
      RunEnds(s, i + 1);
    }
  }

  /** Whatever the value, reading the printed span gives it back, and nothing of
      what follows, exactly if it is not empty, has no line ending, and does not
      have a space at both ends around something else. */
  lemma CodeSpanRoundTrip(value: Str, rest: Str)
    requires rest == [] || rest[0] != TICK
    ensures ParseSpan(CodeSpan(value) + rest) == Some((value, rest))
            <==> value != [] && NoLineEnding(value) && !Strips(value)
  {
    if value == [] {
      NeverEmpty(CodeSpan(value) + rest);
    } else {
      SpanParses(value, rest);
      SpanContent(value);
    }
  }

  lemma ContentRuns(value: Str)
    ensures LongestRunFrom(Content(value), 0) <= LongestRunFrom(value, 0)
  {
    var c := Content(value);
    if Padded(value) {
      assert c == [SPACE] + value + [SPACE];
      forall k: nat ensures RunAt(c, k) <= LongestRunFrom(value, 0) {
        PaddedRuns(value, k);
      }
      LongestAtMost(c, 0, LongestRunFrom(value, 0));
    } else {
      assert c == value;
    }
  }

  lemma ContentEnds(value: Str)
    requires value != []
    ensures var c := Content(value); c != [] && c[0] != TICK && c[|c| - 1] != TICK
  {
  }

  lemma SpanParses(value: Str, rest: Str)
    requires value != [] && (rest == [] || rest[0] != TICK)
    ensures ParseSpan(CodeSpan(value) + rest) == Some((Normalised(Content(value)), rest))
  {
    var n := LongestRunFrom(value, 0) + 1;
    var c := Content(value);
    ContentEnds(value);
    ContentRuns(value);
    ParseFenced(c, n, rest);
    Regroup(Fence(n), c, Fence(n), rest);
  }

  lemma Regroup(a: Str, b: Str, c: Str, d: Str)
    ensures a + b + c + d == a + (b + (c + d))
  {
  }

  lemma SpanContent(value: Str)
    requires value != []
    ensures Normalised(Content(value)) == value <==> NoLineEnding(value) && !Strips(value)
  {
    var c := Content(value);
    SpacedHasNoLineEnding(c);
    assert NoLineEnding(Normalised(c));
    if NoLineEnding(value) {
      assert NoLineEnding(c) && Spaced(c) == c;
      if Padded(value) {
        var k := if value[0] == TICK then 0 else |value| - 1;
        assert c[k + 1] == TICK;
        assert c[1..|c| - 1] == value;
      } else {
        assert c == value;
      }
    }
  }

  // ---------- escaping the command ----------

  function Replace(s: Str, u: CodeUnit, entity: Str): Str {
    FlatMap(x => if x == u then entity else [x], s)
  }

  /** Runs of carriage returns and line feeds, each as one space. */
  function Collapse(s: Str): Str {
    if s == [] then []
    else if !LineEnding(s[0]) then [s[0]] + Collapse(s[1..])
    else if |s| > 1 && LineEnding(s[1]) then Collapse(s[1..])
    else [SPACE] + Collapse(s[1..])
  }

  /** The white space and line terminators of ECMA-262. */
  predicate Blank(u: CodeUnit) {
    || 0x09 <= u <= 0x0D
    || u in {0x20, 0xA0, 0x1680, 0x2028, 0x2029, 0x202F, 0x205F, 0x3000, 0xFEFF}
    || 0x2000 <= u <= 0x200A
  }

  function Trim(s: Str): Str {
    if s == [] then []
    else if Blank(s[0]) then Trim(s[1..])
    else if Blank(s[|s| - 1]) then Trim(s[..|s| - 1])
    else s
  }

  const AMP_ENTITY: Str := [0x26, 0x61, 0x6D, 0x70, 0x3B]
  const LT_ENTITY: Str := [0x26, 0x6C, 0x74, 0x3B]

  function Entities(value: Str): Str {
    Replace(Replace(value, AMP, AMP_ENTITY), LT, LT_ENTITY)
  }

  function EscapeBootstrapCommand(value: Str): Str {
    Trim(Collapse(Entities(value)))
  }

  /** Read the two entities back. */
  function Unescape(s: Str): Str {
    if s == [] then []
    else if AMP_ENTITY <= s then [AMP] + Unescape(s[|AMP_ENTITY|..])
    else if LT_ENTITY <= s then [LT] + Unescape(s[|LT_ENTITY|..])
    else [s[0]] + Unescape(s[1..])
  }

  function EntityOf(u: CodeUnit): Str {
    if u == AMP then AMP_ENTITY else if u == LT then LT_ENTITY else [u]
  }

  /** The ampersand pass first makes the two passes one. */
  lemma {:induction false} OnePass(value: Str)
    ensures Entities(value) == FlatMap(EntityOf, value)
  {
    if value != [] {
      var first := x => if x == AMP then AMP_ENTITY else [x];
      var second := x => if x == LT then LT_ENTITY else [x];
      var u := value[0];
      OnePass(value[1..]);
      FlatMapConcat(second, first(u), FlatMap(first, value[1..]));
      if u == AMP {
        assert AMP_ENTITY == [0x26] + [0x61] + [0x6D] + [0x70] + [0x3B];
        FlatMapSnoc(second, [], 0x26);
        FlatMapSnoc(second, [0x26], 0x61);
        FlatMapSnoc(second, [0x26] + [0x61], 0x6D);
        FlatMapSnoc(second, [0x26] + [0x61] + [0x6D], 0x70);
        FlatMapSnoc(second, [0x26] + [0x61] + [0x6D] + [0x70], 0x3B);
        assert [] + [0x26] == [0x26];
      } else {
        FlatMapSnoc(second, [], u);
        assert [] + [u] == [u];
      }
      assert FlatMap(second, first(u)) == EntityOf(u);
    }
  }

  /** Escaping loses nothing: the entities read back to the value. */
  lemma {:induction false} EntitiesRoundTrip(value: Str)
    ensures Unescape(Entities(value)) == value
  {
    OnePass(value);
    if value != [] {
      var u, rest := value[0], FlatMap(EntityOf, value[1..]);
      var s := EntityOf(u) + rest;
      EntitiesRoundTrip(value[1..]);
      OnePass(value[1..]);
      if u == AMP {
        assert s[..5] == AMP_ENTITY && s[5..] == rest;
      } else if u == LT {
        assert s[..4] == LT_ENTITY && s[4..] == rest && s[1] != AMP_ENTITY[1];
      } else {
        assert s[0] == u && s[1..] == rest;
      }
    }
  }

  predicate Without(s: Str, u: CodeUnit) {
    forall k :: 0 <= k < |s| ==> s[k] != u
  }

  lemma {:induction false} ReplaceRemoves(s: Str, u: CodeUnit, entity: Str)
    requires Without(entity, u)
    ensures Without(Replace(s, u, entity), u)
  {
    if s != [] {
      ReplaceRemoves(s[1..], u, entity);
    }
  }

  lemma {:induction false} CollapseClean(s: Str)
    ensures NoLineEnding(Collapse(s)) && (Without(s, LT) ==> Without(Collapse(s), LT))
    ensures NoLineEnding(s) ==> Collapse(s) == s
  {
    if s != [] {
      CollapseClean(s[1..]);
      assert NoLineEnding(s) ==> NoLineEnding(s[1..]);
      assert Without(s, LT) ==> Without(s[1..], LT);
    }
  }

  lemma {:induction false} TrimClean(s: Str)
    ensures NoLineEnding(s) ==> NoLineEnding(Trim(s))
    ensures Without(s, LT) ==> Without(Trim(s), LT)
    ensures var t := Trim(s); t != [] ==> !Blank(t[0]) && !Blank(t[|t| - 1])
    ensures s != [] && !Blank(s[0]) && !Blank(s[|s| - 1]) ==> Trim(s) == s
    decreases |s|
  {
    if s != [] {
      if Blank(s[0]) {
        TrimClean(s[1..]);
      } else if Blank(s[|s| - 1]) {
        TrimClean(s[..|s| - 1]);
      }
    }
  }

  /** For every command the escaped form holds no `<` and no line ending and is
      trimmed, so every one that is not empty survives its code span. */
  lemma BootstrapRoundTrip(command: Str, rest: Str)
    requires rest == [] || rest[0] != TICK
    ensures var shown := EscapeBootstrapCommand(command);
            && Without(shown, LT) && NoLineEnding(shown)
            && (shown != [] <==> ParseSpan(CodeSpan(shown) + rest) == Some((shown, rest)))
  {
    EscapedClean(command);
    CodeSpanRoundTrip(EscapeBootstrapCommand(command), rest);
  }

  lemma EscapedClean(command: Str)
    ensures var shown := EscapeBootstrapCommand(command);
            && Without(shown, LT) && NoLineEnding(shown) && (shown != [] ==> shown[0] != SPACE)
  {
    ReplaceRemoves(Replace(command, AMP, AMP_ENTITY), LT, LT_ENTITY);
    CollapseClean(Entities(command));
    TrimClean(Collapse(Entities(command)));
  }

  /** And a command of one trimmed line is quoted exactly: its entities read
      back to what ran. */
  lemma OneLineCommandReadsBack(command: Str)
    requires command != [] && NoLineEnding(command) && !Blank(command[0]) && !Blank(command[|command| - 1])
    ensures Unescape(EscapeBootstrapCommand(command)) == command
  {
    var e := Entities(command);
    OnePass(command);
    EntitiesRoundTrip(command);
    EntitiesKeepLine(command);
    CollapseClean(e);
    TrimClean(e);
  }

  lemma {:induction false} EntitiesKeepLine(s: Str)
    requires NoLineEnding(s)
    ensures NoLineEnding(FlatMap(EntityOf, s))
    ensures s != [] && !Blank(s[0]) && !Blank(s[|s| - 1]) ==>
              var e := FlatMap(EntityOf, s); e != [] && !Blank(e[0]) && !Blank(e[|e| - 1])
  {
    if s != [] {
      var k := |s| - 1;
      assert s == s[..k] + [s[k]];
      FlatMapSnoc(EntityOf, s[..k], s[k]);
      EntitiesKeepLine(s[..k]);
      if k > 0 {
        assert FlatMap(EntityOf, s[..k])[0] == EntityOf(s[0])[0];
      }
    }
  }

  // ---------- what a command reads back as ----------

  /** The words of a text: what stands between its white space. */
  function Words(s: Str): seq<Str> {
    if s == [] then []
    else if Blank(s[0]) then Words(s[1..])
    else if |s| == 1 || Blank(s[1]) then [[s[0]]] + Words(s[1..])
    else
      var rest := Words(s[1..]);
      if rest == [] then [[s[0]]] else [[s[0]] + rest[0]] + rest[1..]
  }

  lemma {:induction false} CollapseKeepsWords(s: Str)
    ensures Words(Collapse(s)) == Words(s)
    ensures s != [] ==> Collapse(s) != [] && (Blank(Collapse(s)[0]) <==> Blank(s[0]))
  {
    if s != [] {
      var c := Collapse(s[1..]);
      CollapseKeepsWords(s[1..]);
      if !LineEnding(s[0]) {
        assert Collapse(s)[1..] == c && ([s[0]] + c)[0] == s[0];
      } else if !(|s| > 1 && LineEnding(s[1])) {
        assert Collapse(s)[1..] == c;
      }
    }
  }

  lemma {:induction false} TailBlank(s: Str)
    requires s != [] && Blank(s[|s| - 1])
    ensures Words(s[..|s| - 1]) == Words(s)
  {
    var front := s[..|s| - 1];
    if |s| > 1 {
      assert front[1..] == s[1..][..|s[1..]| - 1];
      TailBlank(s[1..]);
    }
  }

  lemma {:induction false} TrimKeepsWords(s: Str)
    ensures Words(Trim(s)) == Words(s)
    decreases |s|
  {
    if s != [] {
      if Blank(s[0]) {
        TrimKeepsWords(s[1..]);
      } else if Blank(s[|s| - 1]) {
        TrimKeepsWords(s[..|s| - 1]);
        TailBlank(s);
      }
    }
  }

  /** Escaping first and collapsing and trimming then is the same the other way
      around: no entity holds white space. */
  lemma {:induction false} CollapseCommutes(s: Str)
    ensures Collapse(FlatMap(EntityOf, s)) == FlatMap(EntityOf, Collapse(s))
  {
    if s != [] {
      var rest := FlatMap(EntityOf, s[1..]);
      CollapseCommutes(s[1..]);
      if LineEnding(s[0]) {
        EscapedStart(s[1..]);
        CollapseBreak(s[0], rest);
        CollapseBreak(s[0], s[1..]);
        assert [s[0]] + s[1..] == s;
        EscapedFirst(SPACE, Collapse(s[1..]));
      } else {
        CollapseSkips(EntityOf(s[0]), rest);
        EscapedFirst(s[0], Collapse(s[1..]));
      }
    }
  }

  lemma EscapedFirst(u: CodeUnit, rest: Str)
    ensures FlatMap(EntityOf, [u] + rest) == EntityOf(u) + FlatMap(EntityOf, rest)
  {
    assert ([u] + rest)[1..] == rest;
  }

  /** Escaped text starts with a line ending exactly if the text does. */
  lemma EscapedStart(s: Str)
    ensures var e := FlatMap(EntityOf, s);
            (e != [] <==> s != []) && (e != [] ==> (LineEnding(e[0]) <==> LineEnding(s[0])))
  {
    if s != [] {
      assert FlatMap(EntityOf, s) == EntityOf(s[0]) + FlatMap(EntityOf, s[1..]);
    }
  }

  lemma CollapseBreak(u: CodeUnit, rest: Str)
    requires LineEnding(u)
    ensures Collapse([u] + rest)
            == if rest != [] && LineEnding(rest[0]) then Collapse(rest) else [SPACE] + Collapse(rest)
  {
    assert ([u] + rest)[1..] == rest;
  }

  lemma {:induction false} CollapseSkips(a: Str, rest: Str)
    requires NoLineEnding(a)
    ensures Collapse(a + rest) == a + Collapse(rest)
  {
    if a == [] {
      assert a + rest == rest;
    } else {
      assert NoLineEnding(a[1..]);
      CollapseSkips(a[1..], rest);
      assert (a + rest)[1..] == a[1..] + rest;
    }
  }

  lemma {:induction false} TrimCommutes(s: Str)
    ensures Trim(FlatMap(EntityOf, s)) == FlatMap(EntityOf, Trim(s))
    decreases |s|
  {
    if s != [] {
      var k := |s| - 1;
      assert s == s[..k] + [s[k]] && s == [s[0]] + s[1..];
      EscapedFirst(s[0], s[1..]);
      FlatMapSnoc(EntityOf, s[..k], s[k]);
      if Blank(s[0]) {
        TrimCommutes(s[1..]);
        TrimFirst(s[0], FlatMap(EntityOf, s[1..]));
      } else if Blank(s[k]) {
        TrimCommutes(s[..k]);
        TrimLast(FlatMap(EntityOf, s[..k]), s[k]);
      }
    }
  }

  lemma TrimFirst(u: CodeUnit, rest: Str)
    requires Blank(u)
    ensures Trim([u] + rest) == Trim(rest)
  {
    assert ([u] + rest)[1..] == rest;
  }

  lemma TrimLast(front: Str, u: CodeUnit)
    requires Blank(u) && front != [] && !Blank(front[0])
    ensures Trim(front + [u]) == Trim(front)
  {
    assert (front + [u])[..|front|] == front;
  }

  /** Every command reads back, entities and all, with the same words in the same
      order: only the white space at its ends and its line endings change. */
  lemma CommandKeepsItsWords(command: Str)
    ensures Words(Unescape(EscapeBootstrapCommand(command))) == Words(command)
    ensures EscapeBootstrapCommand(command) == [] <==> Words(command) == []
  {
    var c := Trim(Collapse(command));
    OnePass(command);
    CollapseCommutes(command);
    TrimCommutes(Collapse(command));
    OnePass(c);
    assert EscapeBootstrapCommand(command) == Entities(c);
    EntitiesRoundTrip(c);
    TrimKeepsWords(Collapse(command));
    CollapseKeepsWords(command);
    TrimClean(Collapse(command));
    assert c != [] ==> Words(c) != [];
  }

  // ---------- the environment block ----------

  const LF: CodeUnit := 0x0A

  const OPENING := Units("<environment>")
  const CLOSING := Units("</environment>")
  const RAN := Units(" ran here. If you ") + Units("edit dep manifests,") + Units(" re-run before tests.")

  function Join(lines: seq<Str>): Str {
    if lines == [] then [] else if |lines| == 1 then lines[0] else lines[0] + [LF] + Join(lines[1..])
  }

  /** The lines of a text. */
  function Lines(s: Str): seq<Str> {
    if s == [] then [[]]
    else
      var rest := Lines(s[1..]);
      if s[0] == LF then [[]] + rest else [[s[0]] + rest[0]] + rest[1..]
  }

  lemma {:induction false} LinesPrefix(a: Str, rest: Str)
    requires Without(a, LF)
    ensures Lines(a + [LF] + rest) == [a] + Lines(rest) && Lines(a) == [a]
  {
    if a == [] {
      assert a + [LF] + rest == [LF] + rest && ([LF] + rest)[1..] == rest;
    } else {
      LinesPrefix(a[1..], rest);
      assert (a + [LF] + rest)[1..] == a[1..] + [LF] + rest;
      assert [a[0]] + a[1..] == a;
    }
  }

  lemma {:induction false} LinesOfJoin(lines: seq<Str>)
    requires lines != [] && forall k :: 0 <= k < |lines| ==> Without(lines[k], LF)
    ensures Lines(Join(lines)) == lines
  {
    if |lines| == 1 {
      LinesPrefix(lines[0], []);
    } else {
      LinesPrefix(lines[0], Join(lines[1..]));
      LinesOfJoin(lines[1..]);
      assert [lines[0]] + lines[1..] == lines;
    }
  }

  /** The block's lines: the delimiters, what holds of every project, and what
      ran, if a command did. */
  function EnvironmentLines(guidance: Str, bootstrap: Str): seq<Str> {
    var shown := EscapeBootstrapCommand(bootstrap);
    [OPENING, guidance] + (if shown == [] then [] else [CodeSpan(shown) + RAN]) + [CLOSING]
  }

  method RenderRunEnvironment(guidance: Str, bootstrap: Str) returns (block: Str)
    requires Without(guidance, LT) && Without(guidance, LF)
    ensures block == Join(EnvironmentLines(guidance, bootstrap))
    ensures Lines(block) == EnvironmentLines(guidance, bootstrap)
  {
    var lines := [OPENING, guidance];
    var shown := if bootstrap == [] then [] else EscapeBootstrapCommand(bootstrap);
    if shown != [] {
      lines := lines + [CodeSpan(shown) + RAN];
    }
    lines := lines + [CLOSING];
    block := Join(lines);
    assert bootstrap == [] ==> Entities(bootstrap) == [] && EscapeBootstrapCommand(bootstrap) == [];
    assert lines == EnvironmentLines(guidance, bootstrap);
    BlockIsFramed(guidance, bootstrap);
  }

  lemma {:induction false} SpanWithout(value: Str, u: CodeUnit)
    requires Without(value, u) && u != TICK && u != SPACE
    ensures Without(CodeSpan(value), u)
  {
  }

  /** Whatever the command, the block has exactly its three or four lines, a
      `<` opens only its first line and its last, and the closing delimiter
      is the last line alone. */
  lemma BlockIsFramed(guidance: Str, bootstrap: Str)
    requires Without(guidance, LT) && Without(guidance, LF)
    ensures var lines := EnvironmentLines(guidance, bootstrap);
            && Lines(Join(lines)) == lines && 3 <= |lines| <= 4
            && (forall k :: 0 < k < |lines| - 1 ==> Without(lines[k], LT))
            && (forall k, i :: 0 <= k < |lines| && ClosesAtUnit(lines[k], i) ==> k == |lines| - 1 && i == 0)
  {
    var lines := EnvironmentLines(guidance, bootstrap);
    var shown := EscapeBootstrapCommand(bootstrap);
    EscapedClean(bootstrap);
    SpanWithout(shown, LT);
    SpanWithout(shown, LF);
    assert NoLineEnding(shown) ==> Without(shown, LF);
    FixedText();
    LinesOfJoin(lines);
    forall k, i | 0 <= k < |lines| && ClosesAtUnit(lines[k], i) ensures k == |lines| - 1 && i == 0 {
      assert lines[k][i..i + |CLOSING|][0] == lines[k][i] && lines[k][i..i + |CLOSING|][1] == lines[k][i + 1];
      assert CLOSING[0] == LT && CLOSING[1] == 0x2F;
      assert k == 0 || k == |lines| - 1;
    }
  }

  /** The closing delimiter stands in a line at this unit. */
  predicate ClosesAtUnit(line: Str, i: int) {
    0 <= i <= |line| - |CLOSING| && line[i..i + |CLOSING|] == CLOSING
  }

  lemma FixedText()
    ensures Without(RAN, LT) && Without(RAN, LF)
    ensures OPENING[0] == LT && OPENING[1] != 0x2F && Without(OPENING[1..], LT) && Without(OPENING, LF)
    ensures CLOSING[0] == LT && CLOSING[1] == 0x2F && Without(CLOSING[1..], LT) && Without(CLOSING, LF)
  {
    RanText();
    DelimiterText();
  }

  lemma RanText()
    ensures Without(RAN, LT) && Without(RAN, LF)
  {
    var a, b, c := Units(" ran here. If you "), Units("edit dep manifests,"), Units(" re-run before tests.");
    assert Without(a, LT) && Without(a, LF);
    assert Without(b, LT) && Without(b, LF);
    assert Without(c, LT) && Without(c, LF);
    assert RAN == a + b + c;
  }

  lemma DelimiterText()
    ensures OPENING[0] == LT && OPENING[1] != 0x2F && Without(OPENING[1..], LT) && Without(OPENING, LF)
    ensures CLOSING[0] == LT && CLOSING[1] == 0x2F && Without(CLOSING[1..], LT) && Without(CLOSING, LF)
  {
  }
}
