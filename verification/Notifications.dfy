/** How a long notification is cut into messages, over JavaScript strings: sequences of UTF-16 code units. */
module Notifications {

  type Unit = u: int | 0 <= u < 0x10000
  type Text = seq<Unit>

  const NEWLINE: Unit := 10
  const LIMIT := 1800

  predicate High(u: Unit) {
    0xD800 <= u < 0xDC00
  }

  predicate Low(u: Unit) {
    0xDC00 <= u < 0xE000
  }

  /** How many units the code point at a position takes, as iterating over a string finds it. */
  function PointLength(text: Text, i: nat): (n: nat)
    requires i < |text|
    ensures 1 <= n <= 2 && i + n <= |text|
  {
    if High(text[i]) && i + 1 < |text| && Low(text[i + 1]) then 2 else 1
  }

  /** The bytes of a code point in UTF-8; a lone surrogate is written as U+FFFD. */
  function Width(first: Unit, units: nat): (w: nat)
    ensures 1 <= w <= 4
  {
    if units == 2 then 4 else if first < 0x80 then 1 else if first < 0x800 then 2 else 3
  }

  /** `Buffer.byteLength`. */
  function ByteLength(text: Text): nat
    decreases |text|
  {
    if text == [] then 0
    else
      var n := PointLength(text, 0);
      Width(text[0], n) + ByteLength(text[n..])
  }

  /** Two texts that meet within no surrogate pair. */
  predicate Apart(a: Text, b: Text) {
    a != [] && b != [] ==> !(High(a[|a| - 1]) && Low(b[0]))
  }

  lemma {:induction false} BytesAdd(a: Text, b: Text)
    requires Apart(a, b)
    ensures ByteLength(a + b) == ByteLength(a) + ByteLength(b)
    decreases |a|
  {
    if a == [] {
      assert a + b == b;
    } else {
      var n := PointLength(a, 0);
      assert PointLength(a + b, 0) == n;
      assert (a + b)[n..] == a[n..] + b;
      BytesAdd(a[n..], b);
    }
  }

  /** A position that is not inside a surrogate pair. */
  predicate Whole(text: Text, at: nat) {
    0 < at < |text| ==> !(High(text[at - 1]) && Low(text[at]))
  }

  predicate OnlyNewlines(text: Text, from: nat, to: nat) {
    from <= to <= |text| && forall i :: from <= i < to ==> text[i] == NEWLINE
  }

  datatype Cut = Cut(start: nat, end: nat)

  function LastEnd(cuts: seq<Cut>): nat {
    if cuts == [] then 0 else cuts[|cuts| - 1].end
  }

  /** Each part is a piece of the text; between the pieces are only newlines, and no cut is inside a code point. */
  ghost predicate Pieces(text: Text, parts: seq<Text>, cuts: seq<Cut>) {
    |parts| == |cuts| &&
    forall k :: 0 <= k < |cuts| ==> PieceAt(text, parts[k], LastEnd(cuts[..k]), cuts[k])
  }

  ghost predicate PieceAt(text: Text, part: Text, before: nat, cut: Cut) {
    before <= cut.start < cut.end <= |text| && part == text[cut.start..cut.end] && OnlyNewlines(text, before, cut.start) &&
    Whole(text, cut.start) && Whole(text, cut.end)
  }

  /** The pieces cover the text but for newlines. */
  ghost predicate SplitOf(text: Text, parts: seq<Text>, cuts: seq<Cut>) {
    Pieces(text, parts, cuts) && OnlyNewlines(text, LastEnd(cuts), |text|)
  }

  /** Where the line that begins at a position ends. */
  function LineStop(text: Text, at: nat): (end: nat)
    requires at <= |text|
    ensures at <= end <= |text|
    decreases |text| - at
  {
    if at < |text| && text[at] != NEWLINE then LineStop(text, at + 1) else at
  }

  /** A part ends only because the next line, or within a line the next code point, would not fit in it. */
  ghost predicate Forced(text: Text, cut: Cut) {
    cut.start < cut.end < |text| &&
    if text[cut.end] == NEWLINE then ByteLength(text[cut.start..LineStop(text, cut.end + 1)]) > LIMIT
    else ByteLength(text[cut.start..cut.end + PointLength(text, cut.end)]) > LIMIT
  }

  ghost predicate AllForced(text: Text, cuts: seq<Cut>) {
    forall k :: 0 <= k < |cuts| ==> Forced(text, cuts[k])
  }

  function WithoutNewlines(text: Text): Text
    decreases |text|
  {
    if text == [] then []
    else WithoutNewlines(text[..|text| - 1]) + (if text[|text| - 1] == NEWLINE then [] else [text[|text| - 1]])
  }

  function Joined(parts: seq<Text>): Text
    decreases |parts|
  {
    if parts == [] then [] else Joined(parts[..|parts| - 1]) + parts[|parts| - 1]
  }

  lemma {:induction false} WithoutAdd(a: Text, b: Text)
    ensures WithoutNewlines(a + b) == WithoutNewlines(a) + WithoutNewlines(b)
    decreases |b|
  {
    if b == [] {
      assert a + b == a;
    } else {
      assert (a + b)[..|a + b| - 1] == a + b[..|b| - 1];
      WithoutAdd(a, b[..|b| - 1]);
    }
  }

  lemma {:induction false} NothingWithout(text: Text)
    requires forall i :: 0 <= i < |text| ==> text[i] == NEWLINE
    ensures WithoutNewlines(text) == []
    decreases |text|
  {
    if text != [] {
      NothingWithout(text[..|text| - 1]);
    }
  }

  lemma OnePiece(text: Text, part: Text, before: nat, cut: Cut)
    requires PieceAt(text, part, before, cut)
    ensures WithoutNewlines(text[..cut.end]) == WithoutNewlines(text[..before]) + WithoutNewlines(part)
  {
    hide WithoutNewlines, Whole;
    var gap := text[before..cut.start];
    NothingWithout(gap);
    WithoutAdd(text[..before], gap);
    WithoutAdd(text[..cut.start], part);
    assert text[..cut.start] == text[..before] + gap;
    assert text[..cut.end] == text[..cut.start] + part;
  }

  /** Newlines aside, the parts one after the other are the text. */
  lemma {:induction false} PiecesJoin(text: Text, parts: seq<Text>, cuts: seq<Cut>)
    requires Pieces(text, parts, cuts)
    ensures LastEnd(cuts) <= |text| && WithoutNewlines(Joined(parts)) == WithoutNewlines(text[..LastEnd(cuts)])
    decreases |parts|
  {
    hide PieceAt, WithoutNewlines;
    if parts == [] {
      assert text[..0] == Joined(parts);
    } else {
      var k := |parts| - 1;
      assert PieceAt(text, parts[k], LastEnd(cuts[..k]), cuts[k]);
      assert cuts[k].end <= |text| by {
        PieceEnds(text, parts[k], LastEnd(cuts[..k]), cuts[k]);
      }
      FewerPieces(text, parts, cuts);
      PiecesJoin(text, parts[..k], cuts[..k]);
      WithoutAdd(Joined(parts[..k]), parts[k]);
      OnePiece(text, parts[k], LastEnd(cuts[..k]), cuts[k]);
    }
  }

  lemma PieceEnds(text: Text, part: Text, before: nat, cut: Cut)
    requires PieceAt(text, part, before, cut)
    ensures cut.end <= |text|
  {
  }

  lemma FewerPieces(text: Text, parts: seq<Text>, cuts: seq<Cut>)
    requires Pieces(text, parts, cuts) && parts != []
    ensures Pieces(text, parts[..|parts| - 1], cuts[..|cuts| - 1])
  {
    hide PieceAt;
    var fewer := cuts[..|cuts| - 1];
    forall i | 0 <= i < |fewer| ensures PieceAt(text, parts[..|parts| - 1][i], LastEnd(fewer[..i]), fewer[i]) {
      assert fewer[..i] == cuts[..i];
    }
  }

  lemma SplitKeepsText(text: Text, parts: seq<Text>, cuts: seq<Cut>)
    requires SplitOf(text, parts, cuts)
    ensures WithoutNewlines(Joined(parts)) == WithoutNewlines(text)
  {
    PiecesJoin(text, parts, cuts);
    var end := LastEnd(cuts);
    assert text == text[..end] + text[end..];
    NothingWithout(text[end..]);
    WithoutAdd(text[..end], text[end..]);
  }

  // ---------------------------------------------------------------- the loops

  lemma AddPiece(text: Text, parts: seq<Text>, cuts: seq<Cut>, start: nat, end: nat)
    requires Pieces(text, parts, cuts) && start < end <= |text| && OnlyNewlines(text, LastEnd(cuts), start)
    requires Whole(text, start) && Whole(text, end)
    ensures Pieces(text, parts + [text[start..end]], cuts + [Cut(start, end)])
  {
    var more, longer := cuts + [Cut(start, end)], parts + [text[start..end]];
    forall k | 0 <= k < |more| ensures PieceAt(text, longer[k], LastEnd(more[..k]), more[k]) {
      if k < |cuts| {
        assert more[..k] == cuts[..k];
        assert PieceAt(text, parts[k], LastEnd(cuts[..k]), cuts[k]);
      } else {
        assert more[..k] == cuts;
      }
    }
  }

  /** The end of the line that begins at a position. */
  method LineEnd(text: Text, at: nat) returns (end: nat)
    requires at <= |text|
    ensures end == LineStop(text, at) && (end < |text| ==> text[end] == NEWLINE)
    ensures forall i :: at <= i < end ==> text[i] != NEWLINE
  {
    end := at;
    while end < |text| && text[end] != NEWLINE
      invariant at <= end <= |text| && LineStop(text, at) == LineStop(text, end)
      invariant forall i :: at <= i < end ==> text[i] != NEWLINE
    {
      end := end + 1;
    }
  }

  ghost predicate PartsFit(parts: seq<Text>) {
    forall k :: 0 <= k < |parts| ==> parts[k] != [] && ByteLength(parts[k]) <= LIMIT
  }

  /** The line's next code point. */
  lemma NextPoint(text: Text, at: nat, end: nat, i: nat)
    requires at + i < end <= |text| && (end < |text| ==> text[end] == NEWLINE)
    ensures var line := text[at..end]; var n := PointLength(line, i);
            n == PointLength(text, at + i) && line[i..i + n] == text[at + i..at + i + n] && Whole(text, at + i + n)
  {
    var line := text[at..end];
    assert forall k :: 0 <= k < |line| ==> line[k] == text[at + k];
  }

  /** The line's next code point, added to the text before it. */
  lemma AddPoint(text: Text, start: nat, at: nat)
    requires start <= at < |text| && Whole(text, at)
    ensures var n := PointLength(text, at); var point := text[at..at + n];
            text[start..at + n] == text[start..at] + point && ByteLength(point) <= LIMIT &&
            ByteLength(text[start..at + n]) == ByteLength(text[start..at]) + ByteLength(point)
  {
    var n := PointLength(text, at);
    var point := text[at..at + n];
    PointBytes(point);
    hide ByteLength;
    assert text[start..at + n] == text[start..at] + point;
    BytesAdd(text[start..at], point);
  }

  lemma PointBytes(point: Text)
    requires point != [] && PointLength(point, 0) == |point|
    ensures ByteLength(point) <= 4
  {
    assert point[|point|..] == [];
  }

  lemma NoBytes()
    ensures ByteLength([]) == 0
  {
  }

  /** A line fits after a newline only if the newline does. */
  lemma NewlineFits(current: Text, line: Text)
    ensures ByteLength(current + [NEWLINE] + line) == ByteLength(current + [NEWLINE]) + ByteLength(line)
    ensures ByteLength(current + [NEWLINE]) == ByteLength(current) + 1
  {
    BytesAdd(current + [NEWLINE], line);
    BytesAdd(current, [NEWLINE]);
    assert ByteLength([NEWLINE]) == 1 + ByteLength([]);
  }

  /** The parts so far, when the next one begins at `start`. */
  ghost predicate Done(text: Text, parts: seq<Text>, cuts: seq<Cut>, start: nat) {
    PartsFit(parts) && Pieces(text, parts, cuts) && AllForced(text, cuts) && OnlyNewlines(text, LastEnd(cuts), start) &&
    Whole(text, start)
  }

  lemma SkipNewline(text: Text, parts: seq<Text>, cuts: seq<Cut>, start: nat)
    requires Done(text, parts, cuts, start) && start < |text| && text[start] == NEWLINE
    ensures Done(text, parts, cuts, start + 1)
  {
  }

  lemma EndPart(text: Text, parts: seq<Text>, cuts: seq<Cut>, start: nat, end: nat)
    requires Done(text, parts, cuts, start) && Whole(text, end) && Forced(text, Cut(start, end))
    requires ByteLength(text[start..end]) <= LIMIT
    ensures Done(text, parts + [text[start..end]], cuts + [Cut(start, end)], end)
  {
    hide PieceAt, Whole, ByteLength;
    AddPiece(text, parts, cuts, start, end);
  }

  lemma EndLast(text: Text, parts: seq<Text>, cuts: seq<Cut>, start: nat)
    requires Done(text, parts, cuts, start) && start < |text| && ByteLength(text[start..|text|]) <= LIMIT
    ensures SplitOf(text, parts + [text[start..|text|]], cuts + [Cut(start, |text|)])
    ensures PartsFit(parts + [text[start..|text|]])
  {
    hide PieceAt, ByteLength;
    assert text[start..|text|] != [];
    AddPiece(text, parts, cuts, start, |text|);
  }

  /** The loop over a line's code points: `current` is what of the text is in no part yet. */
  method AddLine(text: Text, at: nat, end: nat, before: seq<Text>, ghost beforeCuts: seq<Cut>, pending: Text, ghost begun: nat)
    returns (parts: seq<Text>, ghost cuts: seq<Cut>, current: Text, ghost start: nat)
    requires at <= end <= |text| && (end < |text| ==> text[end] == NEWLINE) && Whole(text, at)
    requires forall k :: at <= k < end ==> text[k] != NEWLINE
    requires begun <= at && Done(text, before, beforeCuts, begun)
    requires pending == text[begun..at] && ByteLength(pending) <= LIMIT
    ensures start <= end && Done(text, parts, cuts, start)
    ensures current == text[start..end] && ByteLength(current) <= LIMIT && (at < end || pending != [] ==> current != [])
  {
    hide ByteLength, PointLength, Whole, Done;
    NoBytes();
    parts, cuts, current, start := before, beforeCuts, pending, begun;
    var line := text[at..end];
    var i := 0;
    while i < |line|
      invariant 0 <= i <= |line| && start <= at + i && Done(text, parts, cuts, start) && Whole(text, at + i)
      invariant current == text[start..at + i] && ByteLength(current) <= LIMIT
      invariant 0 < i || pending != [] ==> start < at + i
    {
      NextPoint(text, at, end, i);
      AddPoint(text, start, at + i);
      var n := PointLength(line, i);
      var point := line[i..i + n];
      if ByteLength(current + point) > LIMIT {
        EndPart(text, parts, cuts, start, at + i);
        parts, cuts := parts + [current], cuts + [Cut(start, at + i)];
        current, start := [], at + i;
        AddPoint(text, start, at + i);
      }
      current := current + point;
      i := i + n;
    }
  }

  /**
   Messages of at most 1800 bytes, none empty, that keep the text but for newlines between them; one ends only where
   the next line, or in a long line the next code point, does not fit.
   */
  method SplitNotification(text: Text) returns (parts: seq<Text>, ghost cuts: seq<Cut>)
    ensures PartsFit(parts) && SplitOf(text, parts, cuts)
    ensures forall k :: 0 <= k < |cuts| && cuts[k].end < |text| ==> Forced(text, cuts[k])
    ensures WithoutNewlines(Joined(parts)) == WithoutNewlines(text)
  {
    hide ByteLength, PointLength, WithoutNewlines, PieceAt, Joined, LineStop, Done;
    NoBytes();
    parts, cuts := [], [];
    var current: Text := [];
    ghost var start: nat := 0;
    var at := 0;
    NothingDone(text);
    while at <= |text|
      invariant 0 <= at <= |text| + 1 && (0 < at <= |text| ==> text[at - 1] == NEWLINE)
      invariant start <= |text| && Done(text, parts, cuts, start) && ByteLength(current) <= LIMIT
      invariant if current == [] then start == at - 1 || start == at == 0 else start < at - 1 && current == text[start..at - 1]
    {
      var end := LineEnd(text, at);
      var line := text[at..end];
      if current != [] && ByteLength(current + [NEWLINE] + line) > LIMIT {
        assert current + [NEWLINE] + line == text[start..end];
        EndPart(text, parts, cuts, start, at - 1);
        parts, cuts := parts + [current], cuts + [Cut(start, at - 1)];
        current, start := [], at - 1;
      }
      if current != [] {
        NewlineFits(current, line);
        current := current + [NEWLINE];
        assert current == text[start..at];
      } else if at > 0 {
        SkipNewline(text, parts, cuts, start);
        start := at;
      }
      parts, cuts, current, start := AddLine(text, at, end, parts, cuts, current, start);
      at := end + 1;
    }
    AllDone(text, parts, cuts, start);
    if current != [] {
      assert at - 1 == |text|;
      EndLast(text, parts, cuts, start);
      parts, cuts := parts + [current], cuts + [Cut(start, |text|)];
    }
    SplitKeepsText(text, parts, cuts);
  }

  lemma NothingDone(text: Text)
    ensures Done(text, [], [], 0)
  {
  }

  lemma AllDone(text: Text, parts: seq<Text>, cuts: seq<Cut>, start: nat)
    requires Done(text, parts, cuts, start)
    ensures AllForced(text, cuts) && PartsFit(parts) && (start == |text| ==> SplitOf(text, parts, cuts))
  {
  }
}
