/** Operator notes kept within the byte budgets of the routing column. */
module OperatorNotes {
  import opened Utf16
  import opened PayloadText

  // ---------- truncation on a code point ----------

  /** Every surrogate is half of a pair. */
  predicate WellFormed(s: Str) {
    && (forall k {:trigger High(s[k])} :: 0 <= k < |s| && High(s[k]) ==> k + 1 < |s| && Low(s[k + 1]))
    && (forall k {:trigger Low(s[k])} :: 0 <= k < |s| && Low(s[k]) ==> k > 0 && High(s[k - 1]))
  }

  lemma {:induction false} TextSizeConcat(a: Str, b: Str)
    requires Seam(a, b)
    ensures TextSize(a + b) == TextSize(a) + TextSize(b)
  {
    CodePointsConcat(a, b);
    CostConcat(CodePoints(a), CodePoints(b), Utf8Bytes);
  }

  lemma OneUnit(u: CodeUnit)
    ensures TextSize([u]) == Utf8Bytes(u)
  {
    assert [u][1..] == [];
    assert CodePoints([u]) == [u as CodePoint] + CodePoints([]);
    assert Cost([u as CodePoint], Utf8Bytes) == Utf8Bytes(u) + Cost([], Utf8Bytes);
  }

  /** One more code unit always makes the text longer, even where it completes a
      pair. */
  lemma {:induction false} OneMoreUnit(s: Str, u: CodeUnit)
    ensures TextSize(s) < TextSize(s + [u]) <= TextSize(s) + 3
    ensures !(s != [] && High(s[|s| - 1]) && Low(u)) ==> TextSize(s + [u]) == TextSize(s) + Utf8Bytes(u)
  {
    OneUnit(u);
    if s != [] && High(s[|s| - 1]) && Low(u) {
      var k := |s| - 1;
      var pair := [s[k], u];
      assert s == s[..k] + [s[k]] && s + [u] == s[..k] + pair;
      TextSizeConcat(s[..k], [s[k]]);
      TextSizeConcat(s[..k], pair);
      OneUnit(s[k]);
      assert pair[2..] == [] && CodePoints(pair) == [CodePointAt(pair, 0)];
      assert Cost(CodePoints(pair), Utf8Bytes) == Utf8Bytes(CodePointAt(pair, 0)) + Cost([], Utf8Bytes);
    } else {
      TextSizeConcat(s, [u]);
    }
  }

  lemma {:induction false} PrefixSizes(s: Str, i: nat, k: nat)
    requires i <= k <= |s|
    ensures TextSize(s[..i]) + (k - i) <= TextSize(s[..k]) <= TextSize(s[..i]) + 3 * (k - i)
    decreases k - i
  {
    if i < k {
      PrefixSizes(s, i, k - 1);
      assert s[..k] == s[..k - 1] + [s[k - 1]];
      OneMoreUnit(s[..k - 1], s[k - 1]);
    }
  }

  /** Where the cut falls, given the last unit the budget takes. */
  function Aligned(s: Str, end: nat): (e: nat)
    requires end <= |s|
    ensures e <= end
  {
    if end == 0 || end == |s| then end
    else if High(s[end - 1]) then end - 1
    else if Low(s[end - 1]) && !(end >= 2 && High(s[end - 2])) then end - 1
    else end
  }

  /** Drop units until the rest fits, then whatever half of a pair is left. */
  method Utf8Truncate(text: Str, maxBytes: int) returns (r: Str)
    ensures r == Truncated(text, maxBytes)
  {
    if maxBytes <= 0 {
      return [];
    }
    if TextSize(text) <= maxBytes {
      return text;
    }
    var end: nat := |text|;
    while end > 0 && TextSize(text[..end]) > maxBytes
      invariant end <= |text|
      invariant UnitEnd(text, end, maxBytes) == UnitEnd(text, |text|, maxBytes)
    {
      end := end - 1;
    }
    if 0 < end < |text| {
      if High(text[end - 1]) {
        end := end - 1;
      } else if Low(text[end - 1]) {
        if !(end >= 2 && High(text[end - 2])) {
          end := end - 1;
        }
      }
    }
    if end == 0 {
      return [];
    }
    return text[..end];
  }

  /** The longest prefix of whole units, no longer than `end`, in the budget. */
  function UnitEnd(s: Str, end: nat, maxBytes: int): (e: nat)
    requires end <= |s|
    ensures e <= end
  {
    if end == 0 || TextSize(s[..end]) <= maxBytes then end else UnitEnd(s, end - 1, maxBytes)
  }

  function Truncated(s: Str, maxBytes: int): Str {
    if maxBytes <= 0 then []
    else if TextSize(s) <= maxBytes then s
    else s[..Aligned(s, UnitEnd(s, |s|, maxBytes))]
  }

  lemma {:induction false} UnitEndIsLongest(s: Str, end: nat, maxBytes: nat)
    requires end <= |s|
    ensures var e := UnitEnd(s, end, maxBytes);
            TextSize(s[..e]) <= maxBytes && forall k :: e < k <= end ==> TextSize(s[..k]) > maxBytes
  {
    if end > 0 && TextSize(s[..end]) > maxBytes {
      UnitEndIsLongest(s, end - 1, maxBytes);
    } else if end == 0 {
      assert s[..0] == [];
    }
  }

  lemma TruncatedFits(s: Str, maxBytes: int)
    ensures var r := Truncated(s, maxBytes);
            && r <= s && Boundary(s, |r|)
            && TextSize(r) <= if maxBytes <= 0 then 0 else maxBytes
  {
    if maxBytes > 0 && TextSize(s) > maxBytes {
      var e := UnitEnd(s, |s|, maxBytes);
      UnitEndIsLongest(s, |s|, maxBytes);
      PrefixSizes(s, Aligned(s, e), e);
    }
  }

  /** For every text, lone surrogates included, the result is a prefix within the
      budget that splits no pair, and a text that fits is unchanged. */
  lemma TruncatedBound(s: Str, maxBytes: int)
    ensures var r := Truncated(s, maxBytes);
            && r <= s && Boundary(s, |r|)
            && |TextBytes(r)| <= (if maxBytes <= 0 then 0 else maxBytes)
            && (maxBytes > 0 && |TextBytes(s)| <= maxBytes ==> r == s)
  {
    TruncatedFits(s, maxBytes);
    SizesAreExact(Truncated(s, maxBytes));
    SizesAreExact(s);
  }

  /** For well-formed text it is the longest boundary prefix within the budget,
      so it is empty only if the budget seats no code point. */
  lemma TruncatedIsLongest(s: Str, maxBytes: nat)
    requires WellFormed(s) && maxBytes > 0
    ensures forall k: nat :: |Truncated(s, maxBytes)| < k <= |s| && Boundary(s, k) ==> TextSize(s[..k]) > maxBytes
    ensures s != [] && Truncated(s, maxBytes) == [] ==> maxBytes < Utf8Bytes(CodePointAt(s, 0))
  {
    if TextSize(s) > maxBytes {
      UnitEndIsLongest(s, |s|, maxBytes);
      if s != [] && Truncated(s, maxBytes) == [] {
        FirstUnitSize(s);
      }
    }
  }

  lemma FirstUnitSize(s: Str)
    requires s != []
    ensures var w := Width(s, 0); Boundary(s, w) && TextSize(s[..w]) == Utf8Bytes(CodePointAt(s, 0))
  {
    CodePointsStep(s, 0);
    assert s[..0] == [] && CodePoints(s[..Width(s, 0)]) == [CodePointAt(s, 0)];
    assert Cost([CodePointAt(s, 0)], Utf8Bytes) == Utf8Bytes(CodePointAt(s, 0)) + Cost([], Utf8Bytes);
  }

  // ---------- one note ----------

  /** " [truncated]" */
  const TRUNCATION_MARKER: Str := [0x20, 0x5B, 0x74, 0x72, 0x75, 0x6E, 0x63, 0x61, 0x74, 0x65, 0x64, 0x5D]

  lemma {:induction false} AsciiText(s: Str)
    requires forall k :: 0 <= k < |s| ==> s[k] < 0x80
    ensures TextSize(s) == |s|
  {
    if s != [] {
      AsciiText(s[1..]);
    }
  }

  function MarkerFor(maxBytes: int): Str {
    if maxBytes > 2 * |TRUNCATION_MARKER| then TRUNCATION_MARKER else []
  }

  function TruncateOperatorNote(note: Str, maxBytes: int): Str {
    if TextSize(note) <= maxBytes then note
    else
      var truncated := Truncated(note, maxBytes - |MarkerFor(maxBytes)|);
      if truncated == [] then [] else truncated + MarkerFor(maxBytes)
  }

  lemma MarkedSize(t: Str, maxBytes: int)
    ensures TextSize(t + MarkerFor(maxBytes)) == TextSize(t) + |MarkerFor(maxBytes)|
    ensures 0 <= |MarkerFor(maxBytes)| <= 12 && (MarkerFor(maxBytes) != [] ==> maxBytes > 24)
  {
    AsciiText(MarkerFor(maxBytes));
    TextSizeConcat(t, MarkerFor(maxBytes));
  }

  /** A truncated note is within its budget, marker and all, and of a well-formed
      one a budget of four bytes leaves something. */
  lemma NoteFits(note: Str, maxBytes: nat)
    ensures TextSize(TruncateOperatorNote(note, maxBytes)) <= maxBytes
    ensures WellFormed(note) && note != [] && (maxBytes >= 4 || maxBytes >= Utf8Bytes(CodePointAt(note, 0)))
            ==> TruncateOperatorNote(note, maxBytes) != []
  {
    if TextSize(note) > maxBytes {
      var budget := maxBytes - |MarkerFor(maxBytes)|;
      var t := Truncated(note, budget);
      MarkedSize(t, maxBytes);
      TruncatedFits(note, budget);
      assert TruncateOperatorNote(note, maxBytes) == if t == [] then [] else t + MarkerFor(maxBytes);
      if budget > 0 && WellFormed(note) {
        TruncatedIsLongest(note, budget);
      }
    }
  }

  /** A note within its budget is unchanged. Of any other a boundary prefix is left,
      with " [truncated]" behind it exactly if that takes less than half of the
      budget; for well-formed text it is the longest that fits beside it. */
  lemma NoteIsCut(note: Str, maxBytes: nat)
    ensures TextSize(note) <= maxBytes ==> TruncateOperatorNote(note, maxBytes) == note
    ensures var r := TruncateOperatorNote(note, maxBytes);
            var marker := if maxBytes > 24 then Units(" [truncated]") else [];
            TextSize(note) > maxBytes && r != [] ==>
              && |marker| <= |r| && r[|r| - |marker|..] == marker
              && var k := |r| - |marker|;
                 && k <= |note| && r[..k] == note[..k] && Boundary(note, k)
                 && (WellFormed(note) ==>
                       forall j: nat :: k < j <= |note| && Boundary(note, j) ==>
                         TextSize(note[..j]) > maxBytes - |marker|)
  {
    MarkerUnits();
    if TextSize(note) > maxBytes {
      var budget := maxBytes - |MarkerFor(maxBytes)|;
      TruncatedFits(note, budget);
      if budget > 0 && WellFormed(note) {
        TruncatedIsLongest(note, budget);
      }
    }
  }

  lemma MarkerUnits()
    ensures TRUNCATION_MARKER == Units(" [truncated]") && |Units(" [truncated]")| == 12
  {
  }

  // ---------- the serialised array ----------

  datatype OperatorNote = OperatorNote(gateNode: Str, route: Str, note: Str)

  function Field(opening: string, text: Str): seq<CodePoint> {
    Units(opening) + QuoteAll(CodePoints(text))
  }

  function JsonNote(n: OperatorNote): seq<CodePoint> {
    Field("{\"gateNodeId\":\"", n.gateNode) + Field("\",\"route\":\"", n.route) + Field("\",\"note\":\"", n.note)
    + Units("\"}")
  }

  function JsonItems(notes: seq<OperatorNote>): seq<CodePoint> {
    if notes == [] then []
    else JsonNote(notes[0]) + (if |notes| == 1 then [] else Units(",")) + JsonItems(notes[1..])
  }

  function Json(notes: seq<OperatorNote>): seq<CodePoint> {
    Units("[") + JsonItems(notes) + Units("]")
  }

  /** The bytes of the array's JSON, counted: thirty-eight a note around its
      three texts. */
  function NoteSize(n: OperatorNote): nat {
    38 + StoredSize(n.gateNode) + StoredSize(n.route) + StoredSize(n.note)
  }

  function ItemsSize(notes: seq<OperatorNote>): nat {
    if notes == [] then 0
    else NoteSize(notes[0]) + (if |notes| == 1 then 0 else 1) + ItemsSize(notes[1..])
  }

  function JsonSize(notes: seq<OperatorNote>): nat {
    2 + ItemsSize(notes)
  }

  lemma Size3(a: seq<CodePoint>, b: seq<CodePoint>, c: seq<CodePoint>)
    ensures |Utf8(a + b + c)| == |Utf8(a)| + |Utf8(b)| + |Utf8(c)|
  {
    Utf8Concat(a + b, c);
    Utf8Concat(a, b);
  }

  lemma FieldSize(opening: string, text: Str)
    requires forall k :: 0 <= k < |Units(opening)| ==> Units(opening)[k] < 0x80
    ensures |Utf8(Field(opening, text))| == |opening| + StoredSize(text)
  {
    AsciiSize(Units(opening));
    SizesAreExact(text);
    Utf8Concat(Units(opening), QuoteAll(CodePoints(text)));
  }

  lemma NoteSizeIsExact(n: OperatorNote)
    ensures |Utf8(JsonNote(n))| == NoteSize(n)
  {
    var gate, route := Field("{\"gateNodeId\":\"", n.gateNode), Field("\",\"route\":\"", n.route);
    var note, closing := Field("\",\"note\":\"", n.note), Units("\"}");
    FieldSize("{\"gateNodeId\":\"", n.gateNode);
    FieldSize("\",\"route\":\"", n.route);
    FieldSize("\",\"note\":\"", n.note);
    AsciiSize(closing);
    Size3(gate, route, note);
    Utf8Concat(gate + route + note, closing);
  }

  lemma {:induction false} ItemsSizeIsExact(notes: seq<OperatorNote>)
    ensures |Utf8(JsonItems(notes))| == ItemsSize(notes)
  {
    if notes != [] {
      var comma := if |notes| == 1 then [] else Units(",");
      NoteSizeIsExact(notes[0]);
      ItemsSizeIsExact(notes[1..]);
      AsciiSize(comma);
      Size3(JsonNote(notes[0]), comma, JsonItems(notes[1..]));
    }
  }

  /** The count is the size of the array's JSON in UTF-8. */
  lemma JsonSizeIsExact(notes: seq<OperatorNote>)
    ensures JsonSize(notes) == |Utf8(Json(notes))|
  {
    ItemsSizeIsExact(notes);
    AsciiSize(Units("["));
    AsciiSize(Units("]"));
    Size3(Units("["), JsonItems(notes), Units("]"));
  }

  function Blank(n: OperatorNote): OperatorNote {
    n.(note := [])
  }

  lemma BlankSize(n: OperatorNote, note: Str)
    ensures JsonSize([n.(note := note)]) == JsonSize([Blank(n)]) + StoredSize(note)
  {
    assert [n.(note := note)][1..] == [] && [Blank(n)][1..] == [];
  }

  // ---------- the cap ----------

  /** The first of ever halved rooms whose truncation fits, if any. */
  function Shrunk(n: OperatorNote, room: int, maxBytes: int): seq<OperatorNote>
    decreases room
  {
    if room <= 0 then []
    else
      var candidate := TruncateOperatorNote(n.note, room);
      if candidate != [] && JsonSize([n.(note := candidate)]) <= maxBytes then [n.(note := candidate)]
      else Shrunk(n, room / 2, maxBytes)
  }

  /** The note truncated to a room is there, and fits. */
  predicate RoomFits(n: OperatorNote, room: int, maxBytes: int) {
    var candidate := TruncateOperatorNote(n.note, room);
    candidate != [] && JsonSize([n.(note := candidate)]) <= maxBytes
  }

  function FitsRoom(n: OperatorNote, maxBytes: int): int -> bool {
    room => RoomFits(n, room, maxBytes)
  }

  /** The rooms a start is halved through. */
  function Rooms(start: int): (rooms: seq<int>)
    ensures forall room :: room in rooms ==> room > 0
    decreases start
  {
    if start <= 0 then [] else [start] + Rooms(start / 2)
  }

  function FirstRoom(rooms: seq<int>, fits: int -> bool): int {
    if rooms == [] then 0 else if fits(rooms[0]) then rooms[0] else FirstRoom(rooms[1..], fits)
  }

  lemma {:induction false} FirstRoomIsFirst(rooms: seq<int>, fits: int -> bool)
    requires forall room :: room in rooms ==> room > 0
    ensures FirstRoom(rooms, fits) == 0 <==> forall i :: 0 <= i < |rooms| ==> !fits(rooms[i])
    ensures FirstRoom(rooms, fits) != 0 ==> exists i ::
              && 0 <= i < |rooms| && FirstRoom(rooms, fits) == rooms[i] && fits(rooms[i])
              && forall j :: 0 <= j < i ==> !fits(rooms[j])
  {
    if rooms != [] {
      var rest := rooms[1..];
      assert rooms[0] in rooms && forall room :: room in rest ==> room in rooms;
      FirstRoomIsFirst(rest, fits);
      assert forall i :: 0 <= i < |rest| ==> rest[i] == rooms[i + 1];
      if fits(rooms[0]) {
      } else if FirstRoom(rest, fits) != 0 {
        var i :| 0 <= i < |rest| && FirstRoom(rest, fits) == rest[i] && fits(rest[i])
                 && forall j :: 0 <= j < i ==> !fits(rest[j]);
        forall j | 0 <= j < i + 1 ensures !fits(rooms[j]) {
          assert j > 0 ==> rooms[j] == rest[j - 1];
        }
        assert rooms[i + 1] == rest[i];
      } else {
        forall i | 0 <= i < |rooms| ensures !fits(rooms[i]) {
          assert i > 0 ==> rooms[i] == rest[i - 1];
        }
      }
    }
  }

  lemma {:induction false} ShrunkToFirstRoom(n: OperatorNote, start: int, maxBytes: int)
    ensures var room := FirstRoom(Rooms(start), FitsRoom(n, maxBytes));
            Shrunk(n, start, maxBytes) == if room == 0 then [] else [n.(note := TruncateOperatorNote(n.note, room))]
    decreases start
  {
    if start > 0 {
      ShrunkToFirstRoom(n, start / 2, maxBytes);
      assert Rooms(start)[0] == start && Rooms(start)[1..] == Rooms(start / 2);
    }
  }

  /** Room for a note beside its envelope. */
  function Room(n: OperatorNote, maxBytes: int): int {
    maxBytes - JsonSize([Blank(n)])
  }

  /** What is left of one note that does not fit. */
  function Remains(n: OperatorNote, maxBytes: int): seq<OperatorNote> {
    Shrunk(n, Room(n, maxBytes), maxBytes)
  }

  method CapOperatorNotes(notes: seq<OperatorNote>, maxBytes: int) returns (r: seq<OperatorNote>)
    ensures r == Capped(notes, maxBytes)
  {
    var fits := Fits(maxBytes);
    var out := notes;
    while |out| > 1 && !fits(out)
      invariant DropOldest(out, fits) == DropOldest(notes, fits)
      decreases |out|
    {
      out := out[1..];
    }
    if out == [] || fits(out) {
      return out;
    }
    r := TruncateNewest(out[0], maxBytes);
  }

  /** The room the newest note's envelope leaves, halved until it fits. */
  method TruncateNewest(newest: OperatorNote, maxBytes: int) returns (r: seq<OperatorNote>)
    ensures r == Remains(newest, maxBytes)
  {
    r := ShrinkNote(newest, maxBytes - JsonSize([Blank(newest)]), maxBytes);
  }

  /** Halve the room until the truncated note fits. */
  method ShrinkNote(newest: OperatorNote, start: int, maxBytes: int) returns (r: seq<OperatorNote>)
    ensures r == Shrunk(newest, start, maxBytes)
  {
    var room := start;
    while room > 0
      invariant Shrunk(newest, room, maxBytes) == Shrunk(newest, start, maxBytes)
      decreases room
    {
      var candidate := TruncateOperatorNote(newest.note, room);
      if candidate != [] && JsonSize([newest.(note := candidate)]) <= maxBytes {
        return [newest.(note := candidate)];
      }
      room := room / 2;
    }
    return [];
  }

  function Fits(maxBytes: int): seq<OperatorNote> -> bool {
    list => JsonSize(list) <= maxBytes
  }

  function DropOldest(notes: seq<OperatorNote>, fits: seq<OperatorNote> -> bool): seq<OperatorNote> {
    if |notes| > 1 && !fits(notes) then DropOldest(notes[1..], fits) else notes
  }

  function Capped(notes: seq<OperatorNote>, maxBytes: int): seq<OperatorNote> {
    var out := DropOldest(notes, Fits(maxBytes));
    if out == [] || Fits(maxBytes)(out) then out else Remains(out[0], maxBytes)
  }

  /** Dropping stops at the longest suffix that fits, or at the newest. */
  lemma {:induction false} DropsToFirstFit(notes: seq<OperatorNote>, fits: seq<OperatorNote> -> bool) returns (cut: nat)
    requires notes != []
    ensures cut < |notes| && DropOldest(notes, fits) == notes[cut..]
    ensures forall k :: 0 <= k < cut ==> !fits(notes[k..])
    ensures fits(notes[cut..]) || cut == |notes| - 1
  {
    assert notes[0..] == notes;
    if fits(notes) || |notes| == 1 {
      cut := 0;
    } else {
      var rest := notes[1..];
      var c := DropsToFirstFit(rest, fits);
      cut := c + 1;
      forall k | 0 <= k < cut ensures !fits(notes[k..]) {
        if k > 0 {
          assert rest[k - 1..] == notes[k..];
        }
      }
      assert rest[c..] == notes[cut..];
    }
  }

  /** The cap keeps the longest suffix whose JSON fits. If none does it keeps the
      newest note alone, truncated to the first of ever halved rooms that fits,
      and nothing exactly when none of those does. */
  lemma CapIsLongestSuffix(notes: seq<OperatorNote>, maxBytes: int) returns (cut: nat)
    requires notes != []
    ensures cut < |notes|
    ensures forall k :: 0 <= k < cut ==> JsonSize(notes[k..]) > maxBytes
    ensures JsonSize(notes[cut..]) <= maxBytes ==> Capped(notes, maxBytes) == notes[cut..]
    ensures JsonSize(notes[cut..]) > maxBytes ==>
              && cut == |notes| - 1
              && CutToFirstFit(notes[cut], Rooms(Room(notes[cut], maxBytes)), maxBytes, Capped(notes, maxBytes))
  {
    cut := DropsToFirstFit(notes, Fits(maxBytes));
    RemainsFirstFit(notes[cut], maxBytes);
  }

  ghost predicate CutToFirstFit(n: OperatorNote, rooms: seq<int>, maxBytes: int, r: seq<OperatorNote>) {
    var fits := FitsRoom(n, maxBytes);
    && (r == [] <==> forall i :: 0 <= i < |rooms| ==> !fits(rooms[i]))
    && (r != [] ==> exists i ::
          && 0 <= i < |rooms| && fits(rooms[i]) && (forall j :: 0 <= j < i ==> !fits(rooms[j]))
          && r == [n.(note := TruncateOperatorNote(n.note, rooms[i]))])
  }

  lemma RemainsFirstFit(n: OperatorNote, maxBytes: int)
    ensures CutToFirstFit(n, Rooms(Room(n, maxBytes)), maxBytes, Remains(n, maxBytes))
  {
    var rooms, fits := Rooms(Room(n, maxBytes)), FitsRoom(n, maxBytes);
    ShrunkToFirstRoom(n, Room(n, maxBytes), maxBytes);
    FirstRoomIsFirst(rooms, fits);
    var room := FirstRoom(rooms, fits);
    if room != 0 {
      assert Remains(n, maxBytes) == [n.(note := TruncateOperatorNote(n.note, room))];
    }
  }

  // ---------- when nothing is left ----------

  lemma {:induction false} EscapingInflates(cps: seq<CodePoint>)
    ensures Cost(cps, EscapedBytes) <= 6 * Cost(cps, Utf8Bytes)
  {
    if cps != [] {
      EscapingInflates(cps[1..]);
    }
  }

  /** A note whose text needs no escaping, wherever it is cut. */
  predicate Plain(s: Str) {
    forall k :: 0 <= k < |s| ==> s[k] >= 0x20 && s[k] != 0x22 && s[k] != 0x5C
  }

  lemma SuffixWellFormed(s: Str, w: nat)
    requires Plain(s) && WellFormed(s) && s != [] && w == Width(s, 0)
    ensures Plain(s[w..]) && WellFormed(s[w..])
  {
    var t := s[w..];
    forall k | 0 <= k < |t|
      ensures High(t[k]) ==> k + 1 < |t| && Low(t[k + 1])
      ensures Low(t[k]) ==> k > 0 && High(t[k - 1])
    {
      assert t[k] == s[k + w];
      assert Low(s[k + w]) ==> High(s[k + w - 1]);
      assert High(s[0]) ==> w == 2;
    }
  }

  lemma {:induction false} PlainSize(s: Str)
    requires Plain(s) && WellFormed(s)
    ensures StoredSize(s) == TextSize(s)
  {
    if s != [] {
      var cp, w := CodePointAt(s, 0), Width(s, 0);
      SuffixWellFormed(s, w);
      PlainSize(s[w..]);
      PlainUnit(s);
      assert CodePoints(s) == [cp] + CodePoints(s[w..]);
    }
  }

  lemma PlainUnit(s: Str)
    requires Plain(s) && WellFormed(s) && s != []
    ensures EscapedBytes(CodePointAt(s, 0)) == Utf8Bytes(CodePointAt(s, 0))
  {
    assert !Low(s[0]);
    assert High(s[0]) ==> Low(s[1]);
  }

  lemma PrefixWellFormed(s: Str, t: Str)
    requires WellFormed(s) && Plain(s) && t <= s && Boundary(s, |t|)
    ensures WellFormed(t) && Plain(t)
  {
    assert forall k :: 0 <= k < |t| ==> t[k] == s[k];
  }

  /** Plain, well-formed text vanishes exactly when the room does not seat its
      first code point. */
  lemma PlainVanishesExactly(n: OperatorNote, room: int, maxBytes: int)
    requires Plain(n.note) && WellFormed(n.note) && n.note != [] && room == Room(n, maxBytes)
    ensures Remains(n, maxBytes) == [] <==> room < Utf8Bytes(CodePointAt(n.note, 0))
  {
    assert Remains(n, maxBytes) == Shrunk(n, room, maxBytes);
    if room < Utf8Bytes(CodePointAt(n.note, 0)) {
      TooSmall(n, room, maxBytes);
    } else {
      PlainKept(n, room, maxBytes);
    }
  }

  lemma PlainKept(n: OperatorNote, room: nat, maxBytes: int)
    requires Plain(n.note) && WellFormed(n.note) && n.note != []
    requires room >= Utf8Bytes(CodePointAt(n.note, 0)) && room <= maxBytes - JsonSize([Blank(n)])
    ensures Shrunk(n, room, maxBytes) != []
  {
    NoteFits(n.note, room);
    PlainCandidateFits(n, room);
    FirstRoomFits(n, room, maxBytes);
  }

  lemma FirstRoomFits(n: OperatorNote, room: int, maxBytes: int)
    requires room > 0 && TruncateOperatorNote(n.note, room) != []
    requires JsonSize([n.(note := TruncateOperatorNote(n.note, room))]) <= maxBytes
    ensures Shrunk(n, room, maxBytes) != []
  {
  }

  lemma PlainCandidateFits(n: OperatorNote, room: nat)
    requires Plain(n.note) && WellFormed(n.note)
    ensures var candidate := TruncateOperatorNote(n.note, room);
            JsonSize([n.(note := candidate)]) <= JsonSize([Blank(n)]) + room
  {
    var candidate := TruncateOperatorNote(n.note, room);
    NoteFits(n.note, room);
    PlainCandidate(n.note, room);
    PlainSize(candidate);
    BlankSize(n, candidate);
  }

  lemma TruncateCases(note: Str, room: nat)
    ensures var r := TruncateOperatorNote(note, room); var t := Truncated(note, room - |MarkerFor(room)|);
            (r == note || r == [] || r == t + MarkerFor(room)) && t <= note && Boundary(note, |t|)
  {
    TruncatedFits(note, room - |MarkerFor(room)|);
  }

  lemma PlainCandidate(note: Str, room: nat)
    requires Plain(note) && WellFormed(note)
    ensures Plain(TruncateOperatorNote(note, room)) && WellFormed(TruncateOperatorNote(note, room))
  {
    var t := Truncated(note, room - |MarkerFor(room)|);
    TruncateCases(note, room);
    PrefixWellFormed(note, t);
    MarkerPlain(room);
    PlainJoin(t, MarkerFor(room));
  }

  lemma MarkerPlain(maxBytes: int)
    ensures Plain(MarkerFor(maxBytes))
    ensures forall k :: 0 <= k < |MarkerFor(maxBytes)| ==> MarkerFor(maxBytes)[k] < 0x80
  {
  }

  lemma PlainJoin(a: Str, b: Str)
    requires Plain(a) && WellFormed(a) && Plain(b)
    requires forall k :: 0 <= k < |b| ==> b[k] < 0x80
    ensures Plain(a + b) && WellFormed(a + b)
  {
    var r := a + b;
    forall k | 0 <= k < |r|
      ensures r[k] >= 0x20 && r[k] != 0x22 && r[k] != 0x5C
      ensures High(r[k]) ==> k + 1 < |r| && Low(r[k + 1])
      ensures Low(r[k]) ==> k > 0 && High(r[k - 1])
    {
      if k < |a| {
        assert r[k] == a[k];
      } else {
        assert r[k] == b[k - |a|];
      }
    }
  }

  lemma {:induction false} TooSmall(n: OperatorNote, room: int, maxBytes: int)
    requires n.note != [] && room < Utf8Bytes(CodePointAt(n.note, 0))
    ensures Shrunk(n, room, maxBytes) == []
    decreases room
  {
    if room > 0 {
      FirstDoesNotFit(n.note, room);
      TooSmall(n, room / 2, maxBytes);
    }
  }

  lemma FirstDoesNotFit(note: Str, room: nat)
    requires note != [] && room < Utf8Bytes(CodePointAt(note, 0))
    ensures TruncateOperatorNote(note, room) == []
  {
    var w := Width(note, 0);
    CodePointsSplit(note, 0);
    var t := TruncateOperatorNote(note, room);
    assert TextSize(note) >= Utf8Bytes(CodePointAt(note, 0));
    TruncatedFits(note, room);
  }

  // ---------- when escaped text vanishes ----------

  /** The last of the halved rooms that still seats `width` bytes. */
  function LastRoom(room: nat, width: nat): (last: nat)
    requires 0 < width <= room
    ensures width <= last <= room && last < (if room < 2 * width then room + 1 else 2 * width)
  {
    if room / 2 < width then room else LastRoom(room / 2, width)
  }

  /** The worst case in the last room: the first code point, and then nothing but
      control characters, each escaped to six bytes. */
  predicate Seats(room: int, width: nat) {
    0 < width <= room && width + 6 * (LastRoom(room, width) - width) <= room
  }

  ghost predicate Starts(n: OperatorNote, width: nat) {
    n.note != [] && WellFormed(n.note) && Utf8Bytes(CodePointAt(n.note, 0)) == width
  }

  /** No note whose first code point takes `width` bytes vanishes from this room. */
  ghost predicate Keeps(room: int, width: nat) {
    forall n: OperatorNote, maxBytes: int ::
      Starts(n, width) && Room(n, maxBytes) == room ==> Capped([n], maxBytes) != []
  }

  /** Whatever follows a first code point of two to four bytes, the note is kept
      exactly when the last room seats the worst case. */
  lemma KeepsExactly(room: int, width: nat)
    requires 2 <= width <= 4
    ensures Keeps(room, width) <==> Seats(room, width)
  {
    if Seats(room, width) {
      forall n: OperatorNote, maxBytes: int | Starts(n, width) && Room(n, maxBytes) == room
        ensures Capped([n], maxBytes) != []
      {
        LastRoomFits(n, LastRoom(room, width), maxBytes, width);
        LastRoomKeeps(n, room, maxBytes, width);
      }
    } else if room < width {
      var n := OperatorNote([], [], Worst(width, width));
      var maxBytes := JsonSize([Blank(n)]) + room;
      WorstText(width, width);
      BlankSize(n, n.note);
      assert n.(note := n.note) == n;
      TooSmall(n, room, maxBytes);
      assert Starts(n, width) && Room(n, maxBytes) == room && Capped([n], maxBytes) == [];
    } else {
      var n := OperatorNote([], [], Worst(width, LastRoom(room, width)));
      var maxBytes := JsonSize([Blank(n)]) + room;
      WorstVanishes(n, room, maxBytes, width);
      assert Starts(n, width) && Room(n, maxBytes) == room && Capped([n], maxBytes) == [];
    }
  }

  /** No well-formed note at all vanishes from this room. */
  ghost predicate KeepsAny(room: int) {
    forall n: OperatorNote, maxBytes: int ::
      n.note != [] && WellFormed(n.note) && Room(n, maxBytes) == room ==> Capped([n], maxBytes) != []
  }

  /** So the rooms that keep every note are nine bytes, and sixteen and up:
      fifteen can lose a note whose first character takes four. */
  lemma SixteenBytesKeepAny(room: int)
    ensures KeepsAny(room) <==> room == 9 || room >= 16
  {
    KeepsExactly(room, 2);
    KeepsExactly(room, 3);
    KeepsExactly(room, 4);
    RoomTable(room);
    if KeepsAny(room) {
      AnyKeepsEach(room);
    } else {
      var n: OperatorNote, maxBytes: int :|
        n.note != [] && WellFormed(n.note) && Room(n, maxBytes) == room && Capped([n], maxBytes) == [];
      var width := Utf8Bytes(CodePointAt(n.note, 0));
      assert Starts(n, width);
      if width == 1 && room >= 6 {
        OneByteKept(n, room, maxBytes);
      }
    }
  }

  lemma AnyKeepsEach(room: int)
    requires KeepsAny(room)
    ensures Keeps(room, 2) && Keeps(room, 3) && Keeps(room, 4)
  {
  }

  /** Which rooms seat the worst case of all three widths. */
  lemma RoomTable(room: int)
    ensures (forall width: nat :: 2 <= width <= 4 ==> Seats(room, width)) <==> room == 9 || room >= 16
  {
    if room < 4 || room in {12, 13, 14, 15} {
      assert !Seats(room, 4);
    } else if room in {4, 5, 8, 10, 11} {
      assert !Seats(room, 3);
    } else if room in {6, 7} {
      assert !Seats(room, 2);
    } else if room < 30 {
      assert Seats(room, 2) && Seats(room, 3) && Seats(room, 4);
    } else {
      assert LastRoom(room, 2) < 4 && LastRoom(room, 3) < 6 && LastRoom(room, 4) < 8;
      assert Seats(room, 2) && Seats(room, 3) && Seats(room, 4);
    }
  }

  /** Fifteen bytes of room beside the envelope, a four-byte character and three
      control characters: the note is lost, though the character would fit. */
  lemma FifteenBytesCanLose(n: OperatorNote, maxBytes: int)
    requires n.note == [0xD83D, 0xDE00, 1, 1, 1] && Room(n, maxBytes) == 15
    ensures Capped([n], maxBytes) == [] && StoredSize([0xD83D, 0xDE00]) < Room(n, maxBytes)
  {
    SevenUnits();
    WorstVanishes(n, 15, maxBytes, 4);
  }

  lemma SevenUnits()
    ensures !Seats(15, 4) && LastRoom(15, 4) == 7 && Worst(4, 7) == [0xD83D, 0xDE00, 1, 1, 1]
    ensures StoredSize([0xD83D, 0xDE00]) == 4
  {
    WorstText(4, 4);
    assert Controls(3) == [1, 1, 1] && Controls(0) == [];
    assert Worst(4, 4) == [0xD83D, 0xDE00];
  }

  function Controls(k: nat): (s: Str)
    ensures |s| == k && forall i :: 0 <= i < k ==> s[i] == 1
  {
    if k == 0 then [] else [1] + Controls(k - 1)
  }

  lemma {:induction false} ControlSizes(k: nat)
    ensures TextSize(Controls(k)) == k && StoredSize(Controls(k)) == 6 * k
  {
    if k > 0 {
      ControlSizes(k - 1);
      assert Controls(k)[1..] == Controls(k - 1);
      assert CodePoints(Controls(k)) == [1] + CodePoints(Controls(k - 1));
    }
  }

  function First(width: nat): (s: Str)
    requires 2 <= width <= 4
    ensures |s| > 0
  {
    if width == 2 then [0xE9] else if width == 3 then [0x2026] else [0xD83D, 0xDE00]
  }

  function Worst(width: nat, last: nat): Str
    requires 2 <= width <= 4 && width <= last
  {
    First(width) + Controls(last - width)
  }

  lemma WorstText(width: nat, last: nat)
    requires 2 <= width <= 4 && width <= last
    ensures var s := Worst(width, last);
            && s != [] && WellFormed(s) && Utf8Bytes(CodePointAt(s, 0)) == width
            && TextSize(s) == last && StoredSize(s) == width + 6 * (last - width)
  {
    WorstSizes(width, last);
    var a, s := First(width), Worst(width, last);
    forall k | |a| <= k < |s| ensures s[k] == 1 {
      assert s[k] == Controls(last - width)[k - |a|];
    }
    assert forall k :: 0 <= k < |a| ==> s[k] == a[k];
  }

  lemma FirstSizes(width: nat)
    requires 2 <= width <= 4
    ensures TextSize(First(width)) == width && StoredSize(First(width)) == width
  {
    var a := First(width);
    var cp := CodePointAt(a, 0);
    assert a[Width(a, 0)..] == [] && CodePoints(a) == [cp] + CodePoints([]);
    assert CodePoints(a)[1..] == [];
    assert Cost(CodePoints(a), Utf8Bytes) == Utf8Bytes(cp) + Cost([], Utf8Bytes);
    assert Cost(CodePoints(a), EscapedBytes) == EscapedBytes(cp) + Cost([], EscapedBytes);
  }

  lemma WorstSizes(width: nat, last: nat)
    requires 2 <= width <= 4 && width <= last
    ensures TextSize(Worst(width, last)) == last && StoredSize(Worst(width, last)) == width + 6 * (last - width)
  {
    var a, b := First(width), Controls(last - width);
    FirstSizes(width);
    ControlSizes(last - width);
    CodePointsConcat(a, b);
    CostConcat(CodePoints(a), CodePoints(b), Utf8Bytes);
    CostConcat(CodePoints(a), CodePoints(b), EscapedBytes);
  }

  /** Every room down to the last takes the whole note, which does not fit, and
      every later one takes nothing. */
  lemma WorstVanishes(n: OperatorNote, room: int, maxBytes: int, width: nat)
    requires 2 <= width <= 4 && room >= width && !Seats(room, width) && Room(n, maxBytes) == room
    requires n.note == Worst(width, LastRoom(room, width))
    ensures Starts(n, width) && Capped([n], maxBytes) == []
  {
    WorstText(width, LastRoom(room, width));
    BlankSize(n, n.note);
    assert n.(note := n.note) == n;
    WholeNeverFits(n, room, maxBytes, width);
    assert !Fits(maxBytes)([n]) && DropOldest([n], Fits(maxBytes)) == [n];
  }

  lemma {:induction false} WholeNeverFits(n: OperatorNote, room: int, maxBytes: int, width: nat)
    requires 0 < width <= room && Starts(n, width) && JsonSize([n]) > maxBytes
    requires TextSize(n.note) == LastRoom(room, width)
    ensures Shrunk(n, room, maxBytes) == []
    decreases room
  {
    WholeDoesNotFit(n, room, maxBytes);
    if room / 2 < width {
      TooSmall(n, room / 2, maxBytes);
    } else {
      WholeNeverFits(n, room / 2, maxBytes, width);
    }
  }

  lemma WholeDoesNotFit(n: OperatorNote, room: nat, maxBytes: int)
    requires room > 0 && TextSize(n.note) <= room && JsonSize([n]) > maxBytes
    ensures Shrunk(n, room, maxBytes) == Shrunk(n, room / 2, maxBytes)
  {
    assert n.(note := n.note) == n;
  }

  /** What a room under two dozen bytes leaves of a note: a non-empty prefix that
      starts with its first code point. */
  lemma ShortCandidate(note: Str, room: nat)
    requires note != [] && WellFormed(note) && Utf8Bytes(CodePointAt(note, 0)) <= room <= 24
    ensures var t := TruncateOperatorNote(note, room);
            && t != [] && TextSize(t) <= room && CodePointAt(t, 0) == CodePointAt(note, 0)
  {
    NoteFits(note, room);
    TruncateCases(note, room);
    var t := TruncateOperatorNote(note, room);
    assert t <= note && Boundary(note, |t|);
    assert t[0] == note[0] && (|t| > 1 ==> t[1] == note[1]);
  }

  /** A text's escaped form: its first code point, and at most six bytes for each
      byte behind it. */
  lemma EscapedBehindFirst(t: Str)
    requires t != []
    ensures var first := CodePointAt(t, 0);
            StoredSize(t) <= EscapedBytes(first) + 6 * (TextSize(t) - Utf8Bytes(first))
  {
    var rest := CodePoints(t[Width(t, 0)..]);
    EscapingInflates(rest);
    assert CodePoints(t) == [CodePointAt(t, 0)] + rest && CodePoints(t)[1..] == rest;
  }

  lemma LastRoomFits(n: OperatorNote, last: nat, maxBytes: int, width: nat)
    requires 2 <= width <= 4 && Starts(n, width) && width <= last <= 24
    requires width + 6 * (last - width) <= Room(n, maxBytes)
    ensures RoomFits(n, last, maxBytes)
  {
    var t := TruncateOperatorNote(n.note, last);
    ShortCandidate(n.note, last);
    EscapedBehindFirst(t);
    BlankSize(n, t);
    assert High(n.note[0]) ==> |n.note| > 1 && Low(n.note[1]);
    assert !Low(n.note[0]);
  }

  lemma {:induction false} LastRoomShrinks(n: OperatorNote, room: int, maxBytes: int, width: nat)
    requires 0 < width <= room && RoomFits(n, LastRoom(room, width), maxBytes)
    ensures Shrunk(n, room, maxBytes) != []
    decreases room
  {
    if room / 2 >= width {
      LastRoomShrinks(n, room / 2, maxBytes, width);
    }
  }

  lemma LastRoomKeeps(n: OperatorNote, room: int, maxBytes: int, width: nat)
    requires 0 < width <= room && RoomFits(n, LastRoom(room, width), maxBytes) && room == Room(n, maxBytes)
    ensures Capped([n], maxBytes) != []
  {
    LastRoomShrinks(n, room, maxBytes, width);
    assert DropOldest([n], Fits(maxBytes)) == [n];
  }

  /** One byte is always reached, and holds a first character of one byte, which
      takes at most six escaped. */
  lemma OneByteKept(n: OperatorNote, room: int, maxBytes: int)
    requires Starts(n, 1) && room == Room(n, maxBytes) && room >= 6
    ensures Capped([n], maxBytes) != []
  {
    var t := TruncateOperatorNote(n.note, 1);
    ShortCandidate(n.note, 1);
    EscapedBehindFirst(t);
    BlankSize(n, t);
    LastRoomIsOne(room);
    LastRoomKeeps(n, room, maxBytes, 1);
  }

  lemma LastRoomIsOne(room: nat)
    requires room >= 1
    ensures LastRoom(room, 1) == 1
  {
  }

  /** So do five bytes, with a three-byte character and two of them. */
  lemma EscapedNoteVanishes(n: OperatorNote, maxBytes: int)
    requires n.note == [0x2026, 1, 1] && Room(n, maxBytes) == 5
    ensures Capped([n], maxBytes) == [] && StoredSize([0x2026]) < Room(n, maxBytes)
  {
    FiveUnits();
    WorstVanishes(n, 5, maxBytes, 3);
  }

  lemma FiveUnits()
    ensures !Seats(5, 3) && LastRoom(5, 3) == 5 && Worst(3, 5) == [0x2026, 1, 1] && StoredSize([0x2026]) == 3
  {
    WorstText(3, 3);
    assert Controls(2) == [1, 1] && Controls(0) == [];
    assert Worst(3, 3) == [0x2026];
  }
}
