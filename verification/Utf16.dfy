/** Text as the host language holds it: UTF-16 code units, lone surrogates
    included; its code points, its UTF-8, and its JSON-quoted form. */
module Utf16 {
  type CodeUnit = u: int | 0 <= u < 0x1_0000
  type Str = seq<CodeUnit>
  type CodePoint = c: int | 0 <= c <= 0x10FFFF
  type Byte = b: int | 0 <= b < 0x100

  /** The units of a literal. */
  function Units(s: string): Str {
    seq(|s|, i requires 0 <= i < |s| => if s[i] as int < 0x1_0000 then s[i] as int else 0xFFFD)
  }

  predicate High(u: CodeUnit) {
    0xD800 <= u <= 0xDBFF
  }

  predicate Low(u: CodeUnit) {
    0xDC00 <= u <= 0xDFFF
  }

  predicate Surrogate(cp: CodePoint) {
    0xD800 <= cp <= 0xDFFF
  }

  /** The code point that starts at an index: a pair, or one unit as it is. */
  function CodePointAt(s: Str, i: nat): (cp: CodePoint)
    requires i < |s|
    ensures cp > 0xFFFF <==> High(s[i]) && i + 1 < |s| && Low(s[i + 1])
  {
    if High(s[i]) && i + 1 < |s| && Low(s[i + 1])
    then 0x1_0000 + (s[i] as int - 0xD800) * 0x400 + (s[i + 1] as int - 0xDC00)
    else s[i]
  }

  function Width(s: Str, i: nat): (w: nat)
    requires i < |s|
    ensures 1 <= w <= 2 && i + w <= |s|
  {
    if CodePointAt(s, i) > 0xFFFF then 2 else 1
  }

  function CodePoints(s: Str): seq<CodePoint> {
    if s == [] then [] else [CodePointAt(s, 0)] + CodePoints(s[Width(s, 0)..])
  }

  /** Cutting here splits no surrogate pair. */
  predicate Boundary(s: Str, i: nat) {
    i <= |s| && !(0 < i < |s| && High(s[i - 1]) && Low(s[i]))
  }

  /** Two texts join without a pair forming across the seam. */
  predicate Seam(a: Str, b: Str) {
    a == [] || b == [] || !(High(a[|a| - 1]) && Low(b[0]))
  }

  lemma {:induction false} CodePointsConcat(a: Str, b: Str)
    requires Seam(a, b)
    ensures CodePoints(a + b) == CodePoints(a) + CodePoints(b)
  {
    if a == [] {
      assert a + b == b;
    } else {
      var w := Width(a, 0);
      assert CodePointAt(a + b, 0) == CodePointAt(a, 0);
      assert (a + b)[w..] == a[w..] + b;
      CodePointsConcat(a[w..], b);
    }
  }

  /** A step of a walk over whole code points goes from boundary to boundary. */
  lemma CodePointsStep(s: Str, i: nat)
    requires Boundary(s, i) && i < |s|
    ensures Boundary(s, i + Width(s, i))
    ensures CodePoints(s[..i + Width(s, i)]) == CodePoints(s[..i]) + [CodePointAt(s, i)]
    ensures CodePoints(s[i..]) == [CodePointAt(s, i)] + CodePoints(s[i + Width(s, i)..])
  {
    var w := Width(s, i);
    var piece := s[i..i + w];
    assert s[..i + w] == s[..i] + piece;
    CodePointsConcat(s[..i], piece);
    assert CodePointAt(piece, 0) == CodePointAt(s, i) && piece[w..] == [];
    assert CodePoints(piece) == [CodePointAt(s, i)] + CodePoints([]);
    assert CodePointAt(s[i..], 0) == CodePointAt(s, i) && s[i..][w..] == s[i + w..];
  }

  lemma CodePointsSplit(s: Str, i: nat)
    requires Boundary(s, i)
    ensures CodePoints(s) == CodePoints(s[..i]) + CodePoints(s[i..])
  {
    CodePointsConcat(s[..i], s[i..]);
    assert s[..i] + s[i..] == s;
  }

  // ---------- UTF-8: section 3 of RFC 3629 ----------

  function Utf8Of(cp: CodePoint): seq<Byte> {
    if cp < 0x80 then [cp]
    else if cp < 0x800 then [0xC0 + cp / 0x40, 0x80 + cp % 0x40]
    else if cp < 0x1_0000 then [0xE0 + cp / 0x1000, 0x80 + cp / 0x40 % 0x40, 0x80 + cp % 0x40]
    else [0xF0 + cp / 0x4_0000, 0x80 + cp / 0x1000 % 0x40, 0x80 + cp / 0x40 % 0x40, 0x80 + cp % 0x40]
  }

  /** Encoding replaces a lone surrogate by U+FFFD. */
  function Utf8(cps: seq<CodePoint>): seq<Byte> {
    if cps == [] then []
    else Utf8Of(if Surrogate(cps[0]) then 0xFFFD else cps[0]) + Utf8(cps[1..])
  }

  // ---------- JSON: QuoteJSONString, section 25.5.2.2 of ECMA-262 ----------

  function HexDigit(d: int): CodePoint
    requires 0 <= d < 16
  {
    if d < 10 then 0x30 + d else 0x61 + d - 10
  }

  /** The code points one code point is quoted as. */
  function Quote(cp: CodePoint): seq<CodePoint> {
    if cp == 0x08 then [0x5C, 0x62]
    else if cp == 0x09 then [0x5C, 0x74]
    else if cp == 0x0A then [0x5C, 0x6E]
    else if cp == 0x0C then [0x5C, 0x66]
    else if cp == 0x0D then [0x5C, 0x72]
    else if cp == 0x22 then [0x5C, 0x22]
    else if cp == 0x5C then [0x5C, 0x5C]
    else if cp < 0x20 || Surrogate(cp) then
      [0x5C, 0x75, HexDigit(cp / 0x1000 % 16), HexDigit(cp / 0x100 % 16), HexDigit(cp / 0x10 % 16), HexDigit(cp % 16)]
    else [cp]
  }

  function QuoteAll(cps: seq<CodePoint>): seq<CodePoint> {
    if cps == [] then [] else Quote(cps[0]) + QuoteAll(cps[1..])
  }

  lemma {:induction false} Utf8Concat(a: seq<CodePoint>, b: seq<CodePoint>)
    ensures Utf8(a + b) == Utf8(a) + Utf8(b)
  {
    if a == [] {
      assert a + b == b;
    } else {
      assert (a + b)[1..] == a[1..] + b;
      Utf8Concat(a[1..], b);
    }
  }

  /** The bytes a text takes inside a stored JSON payload, quotes excluded. */
  function StoredBytes(s: Str): seq<Byte> {
    Utf8(QuoteAll(CodePoints(s)))
  }

  /** The bytes a text takes on its own. */
  function TextBytes(s: Str): seq<Byte> {
    Utf8(CodePoints(s))
  }
}
