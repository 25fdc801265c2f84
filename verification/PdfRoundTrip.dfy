/** What the table of a written document says, read back; and the text its pages show. */
module PdfRoundTrip {
  import opened Common
  import opened PdfLines
  import opened PdfNumbers
  import opened PdfDocument

  // ---------------------------------------------------------------- lines of the table

  predicate OneLine(s: string) {
    '\n' !in s
  }

  lemma {:induction false} SplitLine(line: string, rest: string)
    requires OneLine(line)
    ensures Split(line + "\n" + rest) == [line] + Split(rest)
    decreases |line|
  {
    var s := line + "\n" + rest;
    if line == "" {
      assert s[1..] == rest && s[0] == '\n';
    } else {
      assert s[0] == line[0] && s[0] in line;
      assert s[1..] == line[1..] + "\n" + rest;
      SplitLine(line[1..], rest);
      assert [line[0]] + line[1..] == line;
    }
  }

  lemma EntryIsLine(offset: nat)
    ensures OneLine(EntryLine(offset)) && ScanEntry(EntryLine(offset)) == Some((offset as int, "n"))
  {
    hide Padded, Value, WordRun, ScanNumber;
    assert EntryLine(offset) == Padded(offset, 10) + ENTRY_END;
    DigitsAreOneLine(Padded(offset, 10), ENTRY_END);
    ScanPadded(offset, 10, ENTRY_END);
    EntryEnd();
  }

  const ENTRY_END := " 00000 n "

  lemma DigitsAreOneLine(digits: string, rest: string)
    requires (forall i :: 0 <= i < |digits| ==> IsDigit(digits[i])) && OneLine(rest)
    ensures OneLine(digits + rest)
  {
  }

  /** What stands after an entry's offset. */
  lemma EntryEnd()
    ensures OneLine(ENTRY_END) && ScanSpace(ENTRY_END) == Scanned((), "00000 n ")
    ensures ScanNumber("00000 n ").Scanned? && ScanNumber("00000 n ").rest == " n "
    ensures ScanSpace(" n ") == Scanned((), "n ") && ScanWord("n ") == Scanned("n", " ")
  {
    hide ScanNumber, ScanSpace, ScanWord;
    OneBlank(ENTRY_END, "00000 n ");
    OneBlank(" n ", "n ");
    Generation("00000 n ", "00000", " n ");
    OneLetter();
  }

  lemma Generation(s: string, digits: string, rest: string)
    requires s == digits + rest && digits != "" && (forall i :: 0 <= i < |digits| ==> IsDigit(digits[i]))
    requires rest != "" ==> !IsDigit(rest[0])
    ensures ScanNumber(s).Scanned? && ScanNumber(s).rest == rest
  {
    ScanDigits(digits, rest);
  }

  lemma OneBlank(t: string, s: string)
    requires t != "" && t[0] == ' ' && t[1..] == s && s != "" && !IsBlank(s[0])
    ensures ScanSpace(t) == Scanned((), s)
  {
    assert SkipBlanks(t) == SkipBlanks(s) == s;
  }

  lemma OneLetter()
    ensures ScanWord("n ") == Scanned("n", " ")
  {
    var s := "n ";
    assert s[1..] == " " && s[..1] == "n";
    assert WordRun(s) == 1 + WordRun(" ") && WordRun(" ") == 0;
    assert SkipBlanks(s) == s;
  }

  /** An entry takes twenty bytes exactly when its offset has at most ten digits. */
  lemma EntryIsTwentyBytes(offset: nat)
    ensures |EntryLine(offset) + "\n"| == 20 <==> offset < 10_000_000_000
  {
    PaddedWidth(offset, 10);
    assert Power(10) == 10_000_000_000;
  }

  lemma {:induction false} SplitTerminated(lines: seq<string>, rest: string)
    requires forall k :: 0 <= k < |lines| ==> OneLine(lines[k])
    ensures Split(Terminated(lines) + rest) == lines + Split(rest)
    decreases |lines|
  {
    hide Split, OneLine;
    if lines == [] {
      assert Terminated(lines) + rest == rest;
    } else {
      var more := Terminated(lines[1..]) + rest;
      assert Terminated(lines) + rest == lines[0] + "\n" + more;
      SplitLine(lines[0], more);
      SplitTerminated(lines[1..], rest);
      assert lines == [lines[0]] + lines[1..];
    }
  }

  function OffsetOf(offsets: seq<nat>, id: int): int
    requires 1 <= id <= |offsets|
  {
    offsets[id - 1]
  }

  /** The objects' numbers, each with its offset. */
  function Index(offsets: seq<nat>, below: nat): map<int, int>
    requires 1 <= below <= |offsets| + 1
  {
    map id: int | 1 <= id < below :: OffsetOf(offsets, id)
  }

  lemma {:induction false} EntriesRead(lines: seq<string>, offsets: seq<nat>, index: nat)
    requires 1 <= index <= |offsets| + 1 && |lines| >= 3 + |offsets|
    requires forall id :: 1 <= id <= |offsets| ==> lines[2 + id] == EntryLine(OffsetOf(offsets, id))
    ensures ReadEntries(lines, |offsets| + 1, index, Index(offsets, index)) == Some(Index(offsets, |offsets| + 1))
    decreases |offsets| + 1 - index
  {
    hide EntryLine, ScanEntry, OneLine;
    if index <= |offsets| {
      var offset: nat := OffsetOf(offsets, index);
      EntryIsLine(offset);
      assert Index(offsets, index)[index := offset] == Index(offsets, index + 1);
      EntriesRead(lines, offsets, index + 1);
    }
  }

  lemma {:induction false} DecimalIsLine(n: nat, before: string)
    requires OneLine(before)
    ensures OneLine(before + Decimal(n))
  {
    assert forall i :: 0 <= i < |Decimal(n)| ==> IsDigit(Decimal(n)[i]);
  }

  lemma CountRead(count: nat)
    ensures ScanPair("0 " + Decimal(count)) == Scanned((0, count), "")
  {
    var rest := " " + Decimal(count);
    assert "0 " + Decimal(count) == "0" + rest;
    ScanDigits("0", rest);
    assert Value("0") == 10 * Value("") + DigitValue('0');
    assert rest[1..] == Decimal(count) + "" && SkipBlanks(rest) == SkipBlanks(rest[1..]);
    assert SkipBlanks(rest[1..]) == rest[1..];
    ScanDecimal(count, "");
  }

  lemma TableLinesSplit(offsets: seq<nat>, rest: string)
    ensures Split(Terminated(TableLines(offsets)) + rest) == TableLines(offsets) + Split(rest)
  {
    var lines := TableLines(offsets);
    forall k | 0 <= k < |lines| ensures OneLine(lines[k]) {
      if k < 3 {
        DecimalIsLine(|offsets| + 1, "0 ");
      } else {
        EntryIsLine(offsets[k - 3]);
      }
    }
    hide TableLines;
    SplitTerminated(lines, rest);
  }

  lemma TableRead(offsets: seq<nat>, start: nat)
    ensures var lines := Split(Table(offsets, start));
            |lines| >= 2 && ReadTable(lines) == Some(Index(offsets, |offsets| + 1))
  {
    hide Split, Terminated, Decimal, ScanPair, ReadEntries, EntryLine;
    var n := |offsets| + 1;
    TableLinesSplit(offsets, Trailer(n, start));
    CountRead(n);
    var lines := Split(Table(offsets, start));
    assert lines[1] == "0 " + Decimal(n);
    assert |lines| >= 3 + |offsets|;
    assert Index(offsets, 1) == map[];
    forall id | 1 <= id <= |offsets| ensures lines[2 + id] == EntryLine(OffsetOf(offsets, id)) {
      assert lines[2 + id] == EntryLines(offsets)[id - 1];
    }
    EntriesRead(lines, offsets, 1);
  }

  // ---------------------------------------------------------------- finding the table

  /** The last place of a pattern, when what comes after holds none. */
  lemma {:induction false} LastFromFinds(s: string, pattern: string, i: nat, at: nat)
    requires at <= i && i + |pattern| <= |s| && At(s, pattern, at)
    requires forall j :: at < j <= i ==> !At(s, pattern, j)
    ensures LastFrom(s, pattern, i) == Some(at)
    decreases i
  {
    if i > at {
      LastFromFinds(s, pattern, i - 1, at);
    }
  }

  /** No place in what follows the pattern's beginning has its first letter. */
  lemma NotAgain(s: string, at: nat, j: nat, after: string)
    requires at < j && at + |START_XREF| <= |s| && s[at..] == START_XREF + after && 's' !in after
    ensures !At(s, START_XREF, j)
  {
    if j < |s| {
      var k := j - at;
      assert s[j] == s[at..][k];
      assert k >= |START_XREF| ==> s[j] == after[k - |START_XREF|];
      assert s[j] != START_XREF[0];
      if j + |START_XREF| <= |s| {
        assert s[j..j + |START_XREF|][0] == s[j];
      }
    }
  }

  lemma TrailerFound(before: string, start: nat)
    ensures var s := before + START_XREF + Decimal(start) + "\n%%EOF\n";
            LastIndex(s, START_XREF) == Some(|before|) && s[|before| + |START_XREF|..] == Decimal(start) + "\n%%EOF\n"
  {
    var after := Decimal(start) + "\n%%EOF\n";
    assert 's' !in after by {
      assert forall i :: 0 <= i < |Decimal(start)| ==> IsDigit(Decimal(start)[i]);
    }
    assert before + START_XREF + Decimal(start) + "\n%%EOF\n" == before + START_XREF + after;
    hide Decimal;
    PatternFound(before, after);
  }

  lemma PatternFound(before: string, after: string)
    requires 's' !in after
    ensures var s := before + START_XREF + after;
            LastIndex(s, START_XREF) == Some(|before|) && s[|before| + |START_XREF|..] == after
  {
    var s := before + START_XREF + after;
    assert s == before + (START_XREF + after);
    assert s[|before|..] == START_XREF + after;
    assert At(s, START_XREF, |before|) by {
      assert s[|before|..|before| + |START_XREF|] == START_XREF;
    }
    forall j | |before| < j <= |s| - |START_XREF| ensures !At(s, START_XREF, j) {
      NotAgain(s, |before|, j, after);
    }
    LastFromFinds(s, START_XREF, |s| - |START_XREF|, |before|);
  }

  /** Reading the table of any document gives the place of every object. */
  lemma TableRoundTrip(bodies: seq<string>)
    ensures Xref(Document(bodies)) == Some(Index(Offsets(bodies), |bodies| + 1))
  {
    hide Objects, Offsets, LastIndex, ScanNumber, Decimal, Terminated, TableLines, Split, ReadTable;
    var front := HEADER + Objects(bodies);
    var offsets := Offsets(bodies);
    var before := front + TableFront(offsets);
    var d := Document(bodies);
    TableEnds(offsets, |front|);
    assert d == before + START_XREF + Decimal(|front|) + "\n%%EOF\n";
    TrailerFound(before, |front|);
    ScanDecimal(|front|, "\n%%EOF\n");
    assert d[|front|..] == Table(offsets, |front|);
    TableBegins(offsets, |front|);
    assert At(d, XREF, |front|) by {
      assert d[|front|..|front| + |XREF|] == d[|front|..][..|XREF|];
    }
    TableRead(offsets, |front|);
  }

  function TableFront(offsets: seq<nat>): string {
    Terminated(TableLines(offsets)) + "trailer\n<< /Size " + Decimal(|offsets| + 1) + " /Root 1 0 R >>\n"
  }

  lemma TableEnds(offsets: seq<nat>, start: nat)
    ensures Table(offsets, start) == TableFront(offsets) + START_XREF + Decimal(start) + "\n%%EOF\n"
  {
    hide Decimal, Terminated;
  }

  lemma TableBegins(offsets: seq<nat>, start: nat)
    ensures |XREF| <= |Table(offsets, start)| && Table(offsets, start)[..|XREF|] == XREF
  {
    hide Decimal, Trailer;
    var lines := TableLines(offsets);
    assert Terminated(lines) == "xref" + "\n" + Terminated(lines[1..]);
    hide TableLines, Terminated;
    assert Table(offsets, start) == XREF + (Terminated(lines[1..]) + Trailer(|offsets| + 1, start));
  }

  // ---------------------------------------------------------------- objects

  lemma {:induction false} ObjectsSplit(bodies: seq<string>, k: nat)
    requires k <= |bodies|
    ensures Objects(bodies[..k]) <= Objects(bodies)
    decreases |bodies|
  {
    if k < |bodies| {
      ObjectsSplit(bodies[..|bodies| - 1], k);
      assert bodies[..|bodies| - 1][..k] == bodies[..k];
    } else {
      assert bodies[..k] == bodies;
    }
  }

  /** At an object's offset the document has that object. */
  lemma ObjectIsThere(bodies: seq<string>, id: nat)
    requires 1 <= id <= |bodies|
    ensures var offset := Offsets(bodies)[id - 1];
            offset <= |Document(bodies)| && Object(id, bodies[id - 1]) <= Document(bodies)[offset..]
  {
    var front := HEADER + Objects(bodies[..id - 1]);
    assert bodies[..id][..id - 1] == bodies[..id - 1];
    ObjectsSplit(bodies, id);
    var through := HEADER + Objects(bodies[..id]);
    assert through == front + Object(id, bodies[id - 1]);
    assert through <= HEADER + Objects(bodies);
    assert through <= Document(bodies);
    var d := Document(bodies);
    assert d[..|through|] == through;
    assert d[|front|..][..|through| - |front|] == d[|front|..|through|] == through[|front|..] == Object(id, bodies[id - 1]);
  }
}
