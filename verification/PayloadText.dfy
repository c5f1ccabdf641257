/** Free text clipped to a byte budget of its stored form, with a marker that
    says how much was cut. */
module PayloadText {
  import opened Utf16

  // ---------- the cost of one code point ----------

  /** Bytes a code point occupies once it is escaped and encoded. */
  function EscapedBytes(cp: CodePoint): nat {
    if cp == 0x22 || cp == 0x5C then 2
    else if cp < 0x20 then (if cp == 0x08 || cp == 0x09 || cp == 0x0A || cp == 0x0C || cp == 0x0D then 2 else 6)
    else if cp < 0x80 then 1
    else if cp < 0x800 then 2
    else if 0xD800 <= cp <= 0xDFFF then 6
    else if cp < 0x1_0000 then 3
    else 4
  }

  function Utf8Bytes(cp: CodePoint): nat {
    if cp < 0x80 then 1 else if cp < 0x800 then 2 else if cp < 0x1_0000 then 3 else 4
  }

  function Cost(cps: seq<CodePoint>, price: CodePoint -> nat): nat {
    if cps == [] then 0 else price(cps[0]) + Cost(cps[1..], price)
  }

  lemma {:induction false} CostConcat(a: seq<CodePoint>, b: seq<CodePoint>, price: CodePoint -> nat)
    ensures Cost(a + b, price) == Cost(a, price) + Cost(b, price)
  {
    if a == [] {
      assert a + b == b;
    } else {
      assert (a + b)[1..] == a[1..] + b;
      CostConcat(a[1..], b, price);
    }
  }

  /** The tables are exact: summed over a text they are the sizes of its stored
      and of its plain UTF-8 form. */
  lemma {:induction false} CostsAreSizes(cps: seq<CodePoint>)
    ensures |Utf8(QuoteAll(cps))| == Cost(cps, EscapedBytes)
    ensures |Utf8(cps)| == Cost(cps, Utf8Bytes)
  {
    if cps != [] {
      CostsAreSizes(cps[1..]);
      Utf8Concat(Quote(cps[0]), QuoteAll(cps[1..]));
      QuotedSize(cps[0]);
    }
  }

  lemma QuotedSize(cp: CodePoint)
    ensures |Utf8(Quote(cp))| == EscapedBytes(cp)
  {
    var q := Quote(cp);
    if |q| != 1 {
      AsciiSize(q);
    } else {
      assert q[1..] == [];
    }
  }

  lemma {:induction false} AsciiSize(q: seq<CodePoint>)
    requires forall k :: 0 <= k < |q| ==> q[k] < 0x80
    ensures |Utf8(q)| == |q|
  {
    if q != [] {
      AsciiSize(q[1..]);
    }
  }

  function StoredSize(s: Str): nat {
    Cost(CodePoints(s), EscapedBytes)
  }

  function TextSize(s: Str): nat {
    Cost(CodePoints(s), Utf8Bytes)
  }

  lemma SizesAreExact(s: Str)
    ensures |StoredBytes(s)| == StoredSize(s) && |TextBytes(s)| == TextSize(s)
  {
    CostsAreSizes(CodePoints(s));
  }

  // ---------- the cut ----------

  /** How far whole code points fit a budget, from an index on. */
  function FitFrom(s: Str, i: nat, budget: int): (end: nat)
    requires i <= |s|
    ensures i <= end <= |s|
    decreases |s| - i
  {
    if i == |s| || EscapedBytes(CodePointAt(s, i)) > budget then i
    else FitFrom(s, i + Width(s, i), budget - EscapedBytes(CodePointAt(s, i)))
  }

  lemma SizeStep(s: Str, i: nat)
    requires Boundary(s, i) && i < |s|
    ensures Boundary(s, i + Width(s, i))
    ensures StoredSize(s[..i + Width(s, i)]) == StoredSize(s[..i]) + EscapedBytes(CodePointAt(s, i))
  {
    var cp := CodePointAt(s, i);
    CodePointsStep(s, i);
    CostConcat(CodePoints(s[..i]), [cp], EscapedBytes);
    assert Cost([cp], EscapedBytes) == EscapedBytes(cp) + Cost([], EscapedBytes);
  }

  /** The cut splits no pair, fits, and is the longest that does. */
  lemma {:induction false} FitIsLongest(s: Str, i: nat, budget: int)
    requires Boundary(s, i) && budget >= 0
    ensures var end := FitFrom(s, i, budget);
            && Boundary(s, end)
            && StoredSize(s[..end]) <= StoredSize(s[..i]) + budget
            && (forall k :: end < k <= |s| && Boundary(s, k) ==> StoredSize(s[..k]) > StoredSize(s[..i]) + budget)
    decreases |s| - i
  {
    if i < |s| {
      var cp, next := CodePointAt(s, i), i + Width(s, i);
      SizeStep(s, i);
      if EscapedBytes(cp) <= budget {
        FitIsLongest(s, next, budget - EscapedBytes(cp));
      } else {
        forall k | i < k <= |s| && Boundary(s, k) ensures StoredSize(s[..k]) > StoredSize(s[..i]) + budget {
          assert k >= next;
          SizeMonotone(s, next, k);
        }
      }
    }
  }

  lemma SizeMonotone(s: Str, i: nat, k: nat)
    requires Boundary(s, i) && Boundary(s, k) && i <= k
    ensures StoredSize(s[..i]) <= StoredSize(s[..k])
  {
    assert s[..k][..i] == s[..i] && Boundary(s[..k], i);
    CodePointsSplit(s[..k], i);
    CostConcat(CodePoints(s[..i]), CodePoints(s[..k][i..]), EscapedBytes);
  }

  // ---------- the marker ----------

  function Digits(n: nat): Str {
    (if n < 10 then [] else Digits(n / 10)) + [0x30 + n % 10]
  }

  /** " …" */
  const MARKER_ELLIPSIS: Str := [0x20, 0x2026]
  /** " [clipped " */
  const MARKER_LABEL: Str := [0x20, 0x5B, 0x63, 0x6C, 0x69, 0x70, 0x70, 0x65, 0x64, 0x20]
  /** " bytes]" */
  const MARKER_SUFFIX: Str := [0x20, 0x62, 0x79, 0x74, 0x65, 0x73, 0x5D]

  function Marker(dropped: nat): Str {
    MARKER_ELLIPSIS + (MARKER_LABEL + Digits(dropped) + MARKER_SUFFIX)
  }

  /** A number read back from its digits. */
  function NumberOf(digits: Str): int {
    if digits == [] then 0 else 10 * NumberOf(digits[..|digits| - 1]) + (digits[|digits| - 1] as int - 0x30)
  }

  /** The marker is the text " … [clipped N bytes]", N being the number in decimal. */
  lemma {:induction false} MarkerReads(n: nat)
    ensures Marker(n) == Units(" \U{2026}") + Units(" [clipped ") + Digits(n) + Units(" bytes]")
    ensures NumberOf(Digits(n)) == n && (Digits(n)[0] == 0x30 ==> n == 0)
  {
    MarkerText();
    var d := Digits(n);
    if n >= 10 {
      MarkerReads(n / 10);
      assert d[..|d| - 1] == Digits(n / 10) && d[0] == Digits(n / 10)[0];
    } else {
      assert d[..|d| - 1] == [];
    }
  }

  lemma MarkerText()
    ensures MARKER_ELLIPSIS == Units(" \U{2026}") && MARKER_LABEL == Units(" [clipped ")
    ensures MARKER_SUFFIX == Units(" bytes]")
  {
  }

  lemma {:induction false} DigitsMonotone(n: nat, m: nat)
    requires n <= m
    ensures 1 <= |Digits(n)| <= |Digits(m)|
  {
    if n >= 10 {
      DigitsMonotone(n / 10, m / 10);
    }
  }

  lemma {:induction false} DigitsAreDigits(n: nat)
    ensures forall k :: 0 <= k < |Digits(n)| ==> 0x30 <= Digits(n)[k] <= 0x39
  {
    if n >= 10 {
      DigitsAreDigits(n / 10);
    }
  }

  /** Units in the basic plane that are no surrogates are their own code points. */
  lemma {:induction false} PlainCodePoints(s: Str)
    requires forall k :: 0 <= k < |s| ==> !Surrogate(s[k])
    ensures CodePoints(s) == s
  {
    if s != [] {
      PlainCodePoints(s[1..]);
    }
  }

  lemma {:induction false} AsciiCost(s: seq<CodePoint>)
    requires forall k :: 0 <= k < |s| ==> 0x20 <= s[k] < 0x80 && s[k] != 0x22 && s[k] != 0x5C
    ensures Cost(s, EscapedBytes) == |s|
  {
    if s != [] {
      AsciiCost(s[1..]);
    }
  }

  lemma MarkerSize(n: nat)
    ensures StoredSize(Marker(n)) == 21 + |Digits(n)|
    ensures Marker(n)[0] == 0x20
  {
    var rest := MARKER_LABEL + Digits(n) + MARKER_SUFFIX;
    DigitsAreDigits(n);
    LabelSize(rest, n);
    PlainCodePoints(MARKER_ELLIPSIS);
    CodePointsConcat(MARKER_ELLIPSIS, rest);
    CostConcat(CodePoints(MARKER_ELLIPSIS), CodePoints(rest), EscapedBytes);
    EllipsisSize();
  }

  lemma LabelSize(rest: Str, n: nat)
    requires rest == MARKER_LABEL + Digits(n) + MARKER_SUFFIX
    ensures StoredSize(rest) == 17 + |Digits(n)|
  {
    DigitsAreDigits(n);
    forall k | 0 <= k < |rest| ensures 0x20 <= rest[k] < 0x80 && rest[k] != 0x22 && rest[k] != 0x5C {
      var inDigits := 10 <= k < 10 + |Digits(n)|;
      if inDigits {
        assert rest[k] == Digits(n)[k - 10];
      }
    }
    PlainCodePoints(rest);
    AsciiCost(rest);
  }

  lemma EllipsisSize()
    ensures Cost(MARKER_ELLIPSIS, EscapedBytes) == 4
  {
    var tail := MARKER_ELLIPSIS[1..];
    assert tail == [0x2026] && tail[1..] == [];
    assert Cost(tail, EscapedBytes) == EscapedBytes(0x2026) + Cost([], EscapedBytes);
  }

  // ---------- the clip ----------

  function Clip(s: Str, maxBytes: int): Str {
    if maxBytes <= 0 then []
    else
      var head := FitFrom(s, 0, maxBytes);
      var reserve := StoredSize(Marker(3 * |s|));
      if head == |s| then s
      else if reserve >= maxBytes then s[..head]
      else
        var end := FitFrom(s, 0, maxBytes - reserve);
        s[..end] + Marker(TextSize(s[end..]))
  }

  lemma {:induction false} TextSizeBound(s: Str)
    ensures TextSize(s) <= 3 * |s|
  {
    if s != [] {
      TextSizeBound(s[Width(s, 0)..]);
    }
  }

  /** The stored form of the result is within the budget, for every text and
      every budget. */
  lemma ClipFits(s: Str, maxBytes: int)
    ensures |StoredBytes(Clip(s, maxBytes))| <= if maxBytes <= 0 then 0 else maxBytes
  {
    var r := Clip(s, maxBytes);
    SizesAreExact(r);
    if maxBytes > 0 {
      FitIsLongest(s, 0, maxBytes);
      assert s[..|s|] == s && StoredSize(s[..0]) == 0;
      var reserve := StoredSize(Marker(3 * |s|));
      if FitFrom(s, 0, maxBytes) < |s| && reserve < maxBytes {
        var end := FitFrom(s, 0, maxBytes - reserve);
        var dropped := TextSize(s[end..]);
        FitIsLongest(s, 0, maxBytes - reserve);
        TextSizeBound(s[end..]);
        DigitsMonotone(dropped, 3 * |s|);
        MarkerSize(dropped);
        MarkerSize(3 * |s|);
        CodePointsConcat(s[..end], Marker(dropped));
        CostConcat(CodePoints(s[..end]), CodePoints(Marker(dropped)), EscapedBytes);
      }
    }
  }

  /** The last boundary whose prefix fits the room. */
  ghost predicate CutsAt(s: Str, end: nat, room: int) {
    && end < |s| && Boundary(s, end) && |StoredBytes(s[..end])| <= room
    && forall k: nat :: end < k <= |s| && Boundary(s, k) ==> |StoredBytes(s[..k])| > room
  }

  lemma FitCuts(s: Str, room: int)
    requires room >= 0
    ensures var end := FitFrom(s, 0, room);
            if |StoredBytes(s)| <= room then end == |s| else CutsAt(s, end, room)
  {
    var end := FitFrom(s, 0, room);
    FitIsLongest(s, 0, room);
    SizesAreExact(s);
    SizesAreExact(s[..end]);
    assert s[..|s|] == s && StoredSize(s[..0]) == 0 && Boundary(s, |s|);
    forall k: nat | end < k <= |s| && Boundary(s, k) ensures |StoredBytes(s[..k])| > room {
      SizesAreExact(s[..k]);
    }
  }

  /** A text that fits is unchanged, and one that does not is cut at the last
      boundary that leaves room for the marker, or for no marker at all; the
      marker names the exact UTF-8 size of what was dropped. */
  lemma ClipIsExact(s: Str, maxBytes: int)
    requires maxBytes > 0
    ensures |StoredBytes(s)| <= maxBytes ==> Clip(s, maxBytes) == s
    ensures |StoredBytes(s)| > maxBytes ==>
              var reserve := |StoredBytes(Marker(3 * |s|))|;
              if reserve >= maxBytes
              then exists end: nat :: CutsAt(s, end, maxBytes) && Clip(s, maxBytes) == s[..end]
              else exists end: nat :: CutsAt(s, end, maxBytes - reserve)
                                      && Clip(s, maxBytes) == s[..end] + Marker(|TextBytes(s[end..])|)
  {
    var reserve := StoredSize(Marker(3 * |s|));
    SizesAreExact(Marker(3 * |s|));
    FitCuts(s, maxBytes);
    if reserve < maxBytes {
      FitCuts(s, maxBytes - reserve);
      SizesAreExact(s[FitFrom(s, 0, maxBytes - reserve)..]);
    }
  }

  // ---------- the loops ----------

  method FitEnd(s: Str, budget: int) returns (end: nat, whole: bool)
    requires budget >= 0
    ensures end == FitFrom(s, 0, budget) && (whole <==> end == |s|)
  {
    var used := 0;
    end := 0;
    while end < |s|
      invariant end <= |s| && used <= budget
      invariant FitFrom(s, end, budget - used) == FitFrom(s, 0, budget)
      decreases |s| - end
    {
      var cost := EscapedBytes(CodePointAt(s, end));
      if used + cost > budget {
        return end, false;
      }
      used := used + cost;
      end := end + Width(s, end);
    }
    whole := true;
  }

  method Utf8LengthFrom(s: Str, from: nat) returns (n: nat)
    requires Boundary(s, from)
    ensures n == TextSize(s[from..])
  {
    n := 0;
    var i := from;
    while i < |s|
      invariant Boundary(s, i) && n + TextSize(s[i..]) == TextSize(s[from..])
      decreases |s| - i
    {
      CodePointsStep(s, i);
      n := n + Utf8Bytes(CodePointAt(s, i));
      i := i + Width(s, i);
    }
  }

  method MarkerBytes(m: Str) returns (n: nat)
    ensures n == StoredSize(m)
  {
    n := 0;
    var i := 0;
    while i < |m|
      invariant Boundary(m, i) && n + StoredSize(m[i..]) == StoredSize(m)
      decreases |m| - i
    {
      CodePointsStep(m, i);
      n := n + EscapedBytes(CodePointAt(m, i));
      i := i + Width(m, i);
    }
  }

  method ClipPayloadText(s: Str, maxBytes: int) returns (r: Str)
    ensures r == Clip(s, maxBytes)
    ensures |StoredBytes(r)| <= if maxBytes <= 0 then 0 else maxBytes
  {
    ClipFits(s, maxBytes);
    if maxBytes <= 0 {
      return [];
    }
    var head, whole := FitEnd(s, maxBytes);
    if whole {
      return s;
    }
    var reserve := MarkerBytes(Marker(|s| * 3));
    if reserve >= maxBytes {
      return s[..head];
    }
    var end, _ := FitEnd(s, maxBytes - reserve);
    FitIsLongest(s, 0, maxBytes - reserve);
    var dropped := Utf8LengthFrom(s, end);
    r := s[..end] + Marker(dropped);
  }
}
