/** The session log as bytes: one JSON object per line, and the repair of a torn tail. */
module SessionFile {
  import opened Common

  type Byte = b: int | 0 <= b < 256
  type Line = seq<Byte>

  const NEWLINE: Byte := 10
  const QUOTE: Byte := 34
  const BACKSLASH: Byte := 92
  const OPEN_BRACE: Byte := 123
  const CLOSE_BRACE: Byte := 125
  const OPEN_BRACKET: Byte := 91
  const CLOSE_BRACKET: Byte := 93

  /**
   The part of the JSON grammar that decides whether an object is whole: strings with escapes, and nesting. All its
   characters are ASCII, so bytes of other characters never look like them.
   */
  datatype Scan = Start | Inside(depth: nat, quoted: bool, escaped: bool) | Whole | Bad

  function Next(scan: Scan, b: Byte): Scan {
    match scan
    case Start => if b == OPEN_BRACE then Inside(1, false, false) else Bad
    case Inside(depth, quoted, escaped) =>
      if quoted then Inside(depth, escaped || b != QUOTE, !escaped && b == BACKSLASH)
      else if b == QUOTE then Inside(depth, true, false)
      else if b == OPEN_BRACE || b == OPEN_BRACKET then Inside(depth + 1, false, false)
      else if b == CLOSE_BRACE || b == CLOSE_BRACKET then (if depth <= 1 then Whole else Inside(depth - 1, false, false))
      else scan
    case Whole => Bad
    case Bad => Bad
  }

  function ScanLine(line: Line): Scan {
    if line == [] then Start else Next(ScanLine(line[..|line| - 1]), line[|line| - 1])
  }

  /** `JSON.parse` accepts the line. */
  predicate Parses(line: Line) {
    ScanLine(line) == Whole
  }

  predicate Record(line: Line) {
    Parses(line) && NEWLINE !in line
  }

  /** A whole object is no strict prefix of another line that parses. */
  lemma NoWholePrefix(line: Line, n: nat)
    requires Parses(line) && n < |line|
    ensures !Parses(line[..n])
  {
    assert line[..|line|] == line;
    if Parses(line[..n]) {
      ScansBad(line, n, |line|);
    }
  }

  lemma {:induction false} ScansBad(line: Line, n: nat, m: nat)
    requires n < m <= |line| && Parses(line[..n])
    ensures ScanLine(line[..m]) == Bad
    decreases m
  {
    assert line[..m][..m - 1] == line[..m - 1] && line[..m][m - 1] == line[m - 1];
    if m > n + 1 {
      ScansBad(line, n, m - 1);
    }
  }

  // ---------------------------------------------------------------- the file

  /** What the writer puts into the file: the header and the records, each ended by a newline. */
  function Lines(header: Line, records: seq<Line>): Line {
    if records == [] then header + [NEWLINE]
    else Lines(header, records[..|records| - 1]) + records[|records| - 1] + [NEWLINE]
  }

  /** The position of the first newline from i on. */
  function FirstNewline(content: Line, i: nat): nat
    requires i <= |content|
    ensures i <= FirstNewline(content, i) <= |content|
    decreases |content| - i
  {
    if i == |content| || content[i] == NEWLINE then i else FirstNewline(content, i + 1)
  }

  /** `content.split("\n")`. */
  function Split(content: Line): (pieces: seq<Line>)
    ensures pieces != []
    decreases |content|
  {
    var i := FirstNewline(content, 0);
    if i == |content| then [content] else [content[..i]] + Split(content[i + 1..])
  }

  function NonEmpty(lines: seq<Line>): seq<Line> {
    if lines == [] then [] else if lines[0] == [] then NonEmpty(lines[1..]) else [lines[0]] + NonEmpty(lines[1..])
  }

  datatype Opened = Opened(content: Line, records: seq<Line>) | Refused

  /** The lines that count: the last piece is a record if it parses, and a torn tail otherwise. */
  function Counted(pieces: seq<Line>): seq<Line>
    requires pieces != []
  {
    if pieces[|pieces| - 1] != [] && Parses(pieces[|pieces| - 1]) then pieces else pieces[..|pieces| - 1]
  }

  /** `open`, as far as the file goes: drop a torn tail, or end a whole last record; refuse corrupt lines. */
  function Open(content: Line): Opened {
    var pieces := Split(content);
    var tail := pieces[|pieces| - 1];
    var lines := Counted(pieces);
    if lines == [] || !Parses(lines[0]) then Refused
    else
      var records := NonEmpty(lines[1..]);
      if exists i :: 0 <= i < |records| && !Parses(records[i]) then Refused
      else if tail == [] then Opened(content, records)
      else if Parses(tail) then Opened(content + [NEWLINE], records)
      else if |tail| <= |content| then Opened(content[..|content| - |tail|], records)
      else Refused
  }

  /** `inspect`: the records without a repair. The header is what comes before the first newline. */
  function Inspect(content: Line): Option<seq<Line>> {
    var header := content[..FirstNewline(content, 0)];
    var pieces := Split(content)[1..];
    if pieces == [] || !Parses(header) then None
    else
      var records := NonEmpty(Counted(pieces));
      if exists i :: 0 <= i < |records| && !Parses(records[i]) then None else Some(records)
  }

  /** `load`: `inspect`, and then the repair. */
  function Load(content: Line): Opened {
    match Inspect(content)
    case None => Refused
    case Some(records) =>
      var pieces := Split(content)[1..];
      if pieces == [] then Refused
      else
        var tail := pieces[|pieces| - 1];
        if tail == [] then Opened(content, records)
        else if Parses(tail) then Opened(content + [NEWLINE], records)
        else if |tail| <= |content| then Opened(content[..|content| - |tail|], records)
        else Refused
  }

  // ---------------------------------------------------------------- splitting

  lemma {:induction false} FirstNewlineIs(content: Line, i: nat, n: nat)
    requires i <= n < |content| && content[n] == NEWLINE && forall k :: i <= k < n ==> content[k] != NEWLINE
    ensures FirstNewline(content, i) == n
    decreases n - i
  {
    if i < n {
      FirstNewlineIs(content, i + 1, n);
    }
  }

  lemma {:induction false} NoNewline(content: Line, i: nat)
    requires i <= |content| && NEWLINE !in content
    ensures FirstNewline(content, i) == |content|
    decreases |content| - i
  {
    if i < |content| {
      NoNewline(content, i + 1);
    }
  }

  lemma SplitLine(line: Line, rest: Line)
    requires NEWLINE !in line
    ensures Split(line + [NEWLINE] + rest) == [line] + Split(rest)
  {
    var content := line + [NEWLINE] + rest;
    FirstNewlineIs(content, 0, |line|);
    assert content[..|line|] == line && content[|line| + 1..] == rest;
  }

  lemma SplitTail(tail: Line)
    requires NEWLINE !in tail
    ensures Split(tail) == [tail]
  {
    NoNewline(tail, 0);
  }

  /** Whole lines followed by a tail without a newline split into just those. */
  lemma {:induction false} SplitLines(header: Line, records: seq<Line>, tail: Line)
    requires NEWLINE !in header && NEWLINE !in tail && forall i :: 0 <= i < |records| ==> NEWLINE !in records[i]
    ensures Split(Lines(header, records) + tail) == [header] + records + [tail]
    decreases |records|
  {
    SplitInto(header, records, tail);
    SplitTail(tail);
  }

  lemma {:induction false} SplitInto(header: Line, records: seq<Line>, rest: Line)
    requires NEWLINE !in header && forall i :: 0 <= i < |records| ==> NEWLINE !in records[i]
    ensures Split(Lines(header, records) + rest) == [header] + records + Split(rest)
    decreases |records|
  {
    if records == [] {
      SplitLine(header, rest);
      assert [header] + records + Split(rest) == [header] + Split(rest);
    } else {
      var init := records[..|records| - 1];
      var last := records[|records| - 1];
      assert Lines(header, records) + rest == Lines(header, init) + (last + [NEWLINE] + rest);
      SplitInto(header, init, last + [NEWLINE] + rest);
      SplitLine(last, rest);
      assert [header] + init + ([last] + Split(rest)) == [header] + records + Split(rest) by {
        assert records == init + [last];
      }
    }
  }

  lemma {:induction false} AllNonEmpty(lines: seq<Line>)
    requires forall i :: 0 <= i < |lines| ==> lines[i] != []
    ensures NonEmpty(lines) == lines
    decreases |lines|
  {
    if lines != [] {
      AllNonEmpty(lines[1..]);
    }
  }

  // ---------------------------------------------------------------- torn tails

  /** How many records are wholly in the first n bytes, their last newline not counted. */
  function Present(header: Line, records: seq<Line>, n: nat): (k: nat)
    ensures k <= |records|
    decreases |records|
  {
    if records == [] || |Lines(header, records)| - 1 <= n then |records| else Present(header, records[..|records| - 1], n)
  }

  lemma RecordNotEmpty(line: Line)
    requires Record(line)
    ensures line != []
  {
  }

  lemma {:induction false} LinesPrefix(header: Line, records: seq<Line>, k: nat)
    requires k <= |records|
    ensures Lines(header, records[..k]) <= Lines(header, records)
    decreases |records|
  {
    if k == |records| {
      assert records[..k] == records;
    } else {
      var init := records[..|records| - 1];
      LinesPrefix(header, init, k);
      assert init[..k] == records[..k];
    }
  }

  /** A strict part of a record. */
  predicate IsPart(tail: Line, record: Line) {
    |tail| < |record| && tail == record[..|tail|]
  }

  /** The cut file: whole lines, and a strict part of the next record or all of it without its newline. */
  lemma {:induction false} CutShape(header: Line, records: seq<Line>, n: nat)
    requires |header| + 1 <= n <= |Lines(header, records)|
    ensures var k := Present(header, records, n);
            var content := Lines(header, records)[..n];
            (n >= |Lines(header, records[..k])| ==>
               content == Lines(header, records[..k]) + content[|Lines(header, records[..k])|..] &&
               (k == |records| ==> content == Lines(header, records)) &&
               (k < |records| ==> IsPart(content[|Lines(header, records[..k])|..], records[k]))) &&
            (n < |Lines(header, records[..k])| ==>
               k > 0 && content == Lines(header, records[..k - 1]) + records[k - 1])
    decreases |records|
  {
    var whole := Lines(header, records);
    if records == [] || |whole| - 1 <= n {
      assert records[..|records|] == records;
      if records != [] && n < |whole| {
        var init := records[..|records| - 1];
        assert records[..|records| - 1] == init;
        assert whole[..n] == Lines(header, init) + records[|records| - 1];
      } else {
        assert whole[..n] == whole;
      }
    } else {
      var init := records[..|records| - 1];
      var last := records[|records| - 1];
      var before := Lines(header, init);
      var k := Present(header, init, n);
      assert init[..k] == records[..k];
      if n <= |before| {
        CutShape(header, init, n);
        assert whole[..n] == before[..n];
        if k == |init| {
          assert init[..k] == init;
        } else {
          assert init[k] == records[k];
        }
        if k > 0 {
          assert init[..k - 1] == records[..k - 1];
        }
      } else {
        PresentAll(header, init, n);
        assert init[..k] == init && records[k] == last;
        assert whole[..n] == before + last[..n - |before|];
      }
    }
  }

  lemma PresentAll(header: Line, records: seq<Line>, n: nat)
    requires |Lines(header, records)| <= n
    ensures Present(header, records, n) == |records|
  {
  }

  /** What the pieces of a file with whole lines and a tail are. */
  lemma PiecesOf(header: Line, records: seq<Line>, tail: Line)
    requires Record(header) && NEWLINE !in tail && forall i :: 0 <= i < |records| ==> Record(records[i])
    ensures var pieces := Split(Lines(header, records) + tail);
            pieces == [header] + records + [tail] && pieces[|pieces| - 1] == tail && pieces[1..] == records + [tail] &&
            (if tail != [] && Parses(tail)
             then Counted(pieces) == [header] + (records + [tail]) && Counted(pieces[1..]) == records + [tail] &&
                  NonEmpty(records + [tail]) == records + [tail]
             else Counted(pieces) == [header] + records && Counted(pieces[1..]) == records && NonEmpty(records) == records)
  {
    hide Split, Lines, ScanLine;
    SplitLines(header, records, tail);
    var pieces := Split(Lines(header, records) + tail);
    var after := records + [tail];
    assert pieces[..|pieces| - 1] == [header] + records && pieces[1..] == after && after[..|records|] == records;
    assert pieces == [header] + after;
    forall i | 0 <= i < |records| ensures records[i] != [] {
      RecordNotEmpty(records[i]);
    }
    AllNonEmpty(records);
    if tail != [] {
      forall i | 0 <= i < |after| ensures after[i] != [] {
        if i < |records| {
          RecordNotEmpty(records[i]);
        }
      }
      AllNonEmpty(after);
    }
  }

  /** A file that was cut after whole lines and a tail opens to the lines, and the tail if it is whole. */
  lemma OpenShape(header: Line, records: seq<Line>, tail: Line)
    requires Record(header) && NEWLINE !in tail && forall i :: 0 <= i < |records| ==> Record(records[i])
    ensures var content := Lines(header, records) + tail;
            Open(content) ==
            if tail == [] || !Parses(tail) then Opened(Lines(header, records), records)
            else Opened(content + [NEWLINE], records + [tail])
  {
    hide Split, Lines, Counted, NonEmpty, ScanLine;
    var content := Lines(header, records) + tail;
    PiecesOf(header, records, tail);
    assert ([header] + records)[1..] == records && ([header] + (records + [tail]))[1..] == records + [tail];
    assert content[..|content| - |tail|] == Lines(header, records);
  }

  lemma LoadShape(header: Line, records: seq<Line>, tail: Line)
    requires Record(header) && NEWLINE !in tail && forall i :: 0 <= i < |records| ==> Record(records[i])
    ensures var content := Lines(header, records) + tail;
            Inspect(content) == Some(if tail == [] || !Parses(tail) then records else records + [tail]) &&
            Load(content) ==
            if tail == [] || !Parses(tail) then Opened(Lines(header, records), records)
            else Opened(content + [NEWLINE], records + [tail])
  {
    hide Split, Lines, Counted, NonEmpty, ScanLine, FirstNewline;
    var content := Lines(header, records) + tail;
    PiecesOf(header, records, tail);
    HeaderFirst(header, records, tail);
    assert content[..|content| - |tail|] == Lines(header, records);
  }

  lemma HeaderFirst(header: Line, records: seq<Line>, tail: Line)
    requires NEWLINE !in header
    ensures var content := Lines(header, records) + tail;
            content[..FirstNewline(content, 0)] == header
  {
    var content := Lines(header, records) + tail;
    LinesPrefix(header, records, 0);
    assert records[..0] == [] && content[..|header| + 1] == header + [NEWLINE];
    assert forall k :: 0 <= k <= |header| ==> content[k] == (header + [NEWLINE])[k];
    FirstNewlineIs(content, 0, |header|);
  }

  /**
   Wherever past the header a log is cut, opening it finds exactly the records wholly there, leaves a file of just
   those lines, each ended by a newline, and inspecting and loading find the same.
   */
  lemma TornTail(header: Line, records: seq<Line>, n: nat)
    requires Record(header) && (forall i :: 0 <= i < |records| ==> Record(records[i]))
    requires |header| + 1 <= n <= |Lines(header, records)|
    ensures var content := Lines(header, records)[..n];
            var k := Present(header, records, n);
            Open(content) == Opened(Lines(header, records[..k]), records[..k]) && Load(content) == Open(content) &&
            Inspect(content) == Some(records[..k])
  {
    var content := Lines(header, records)[..n];
    var k := Present(header, records, n);
    CutShape(header, records, n);
    if n < |Lines(header, records[..k])| {
      OpenShape(header, records[..k - 1], records[k - 1]);
      LoadShape(header, records[..k - 1], records[k - 1]);
      assert records[..k] == records[..k - 1] + [records[k - 1]];
      assert records[..k][..k - 1] == records[..k - 1];
    } else {
      var tail := content[|Lines(header, records[..k])|..];
      if k < |records| {
        NoWholePrefix(records[k], |tail|);
        assert forall b :: b in tail ==> b in records[k];
      } else {
        assert records[..k] == records && tail == [];
      }
      OpenShape(header, records[..k], tail);
      LoadShape(header, records[..k], tail);
    }
  }

  /** Records are counted as present exactly when all their bytes are. */
  lemma {:induction false} PresentIs(header: Line, records: seq<Line>, n: nat, i: nat)
    requires i < |records|
    ensures i < Present(header, records, n) <==> |Lines(header, records[..i + 1])| - 1 <= n
    decreases |records|
  {
    LinesPrefix(header, records, i + 1);
    if i + 1 < |records| {
      var init := records[..|records| - 1];
      PresentIs(header, init, n, i);
      assert init[..i + 1] == records[..i + 1];
      LinesLonger(header, records, i + 1);
    } else {
      assert records[..i + 1] == records;
    }
  }

  lemma LinesLonger(header: Line, records: seq<Line>, k: nat)
    requires k <= |records|
    ensures |Lines(header, records[..k])| <= |Lines(header, records)|
  {
    LinesPrefix(header, records, k);
  }
}
