/** The writer and the table reader as the program runs them, and what a written document holds. */
module PdfWriter {
  import opened Common
  import opened PdfLines
  import opened PdfNumbers
  import opened PdfDocument
  import opened PdfRoundTrip

  // ---------------------------------------------------------------- text in content streams

  ghost predicate Basic(line: Line) {
    forall r :: r in line ==> r <= 0xFFFF
  }

  lemma HexDigitValue(d: nat)
    requires d < 16
    ensures HexValue(HexDigit(d)) == Some(d)
  {
  }

  lemma HexRead(r: nat)
    requires r <= 0xFFFF
    ensures |Hex(r)| == 4
    ensures HexValue(Hex(r)[0]) == Some(r / 4096) && HexValue(Hex(r)[1]) == Some(r / 256 % 16)
    ensures HexValue(Hex(r)[2]) == Some(r / 16 % 16) && HexValue(Hex(r)[3]) == Some(r % 16)
    ensures ((r / 4096 * 16 + r / 256 % 16) * 16 + r / 16 % 16) * 16 + r % 16 == r
  {
    HexDigitValue(r / 4096);
    HexDigitValue(r / 256 % 16);
    HexDigitValue(r / 16 % 16);
    HexDigitValue(r % 16);
    assert r / 4096 == r / 256 / 16 && r / 256 == r / 16 / 16;
  }

  /** A line is read back from its hexadecimal string. */
  lemma {:induction false} RunesRead(line: Line, rest: string)
    requires Basic(line)
    ensures ReadRunes(HexRunes(line) + ">" + rest) == Scanned(line, rest)
    decreases |line|
  {
    hide Hex, HexValue;
    var s := HexRunes(line) + ">" + rest;
    if line == [] {
      assert s == ">" + rest && s[1..] == rest;
    } else {
      assert line[0] in line;
      var r: nat := line[0];
      HexRead(r);
      var more := HexRunes(line[1..]) + ">" + rest;
      assert s == Hex(r) + more;
      NotClosed(Hex(r)[0]);
      assert s[4..] == more;
      forall x | x in line[1..] ensures x <= 0xFFFF {
        assert x in line;
      }
      RunesRead(line[1..], rest);
      assert [line[0]] + line[1..] == line;
    }
  }

  lemma NotClosed(c: char)
    requires HexValue(c).Some?
    ensures c != '>'
  {
  }

  lemma {:induction false} ShowsRead(lines: seq<Line>, first: bool)
    requires forall k :: 0 <= k < |lines| ==> Basic(lines[k])
    ensures ReadShows(Shows(lines, first) + END_TEXT, first) == Some(lines)
    decreases |lines|
  {
    hide ReadRunes, HexRunes, Basic;
    var s := Shows(lines, first) + END_TEXT;
    if lines == [] {
      assert s == END_TEXT;
    } else {
      var more := Shows(lines[1..], false) + END_TEXT;
      var shown := "<" + (HexRunes(lines[0]) + ">" + (SHOW + more));
      ShowsStep(lines, first);
      RunesRead(lines[0], SHOW + more);
      assert shown[1..] == HexRunes(lines[0]) + ">" + (SHOW + more);
      assert (SHOW + more)[|SHOW|..] == more && StartsWith(SHOW + more, SHOW);
      ShowsRead(lines[1..], false);
      assert [lines[0]] + lines[1..] == lines;
      if !first {
        assert s[|TO_NEXT_LINE|..] == shown && StartsWith(s, TO_NEXT_LINE) && s[0] == 'T';
      } else {
        assert s == shown && s[0] == '<';
      }
    }
  }

  lemma ShowsStep(lines: seq<Line>, first: bool)
    requires lines != []
    ensures Shows(lines, first) + END_TEXT ==
            (if first then "" else TO_NEXT_LINE) +
            ("<" + (HexRunes(lines[0]) + ">" + (SHOW + (Shows(lines[1..], false) + END_TEXT))))
  {
    hide HexRunes;
    var hex, more := HexRunes(lines[0]), Shows(lines[1..], false);
    var start := if first then "" else TO_NEXT_LINE;
    assert Shows(lines, first) == start + Encoded(lines[0]) + SHOW + more;
    hide Shows, Encoded;
    Regroup(start, "<", hex, ">", SHOW, more, END_TEXT);
  }

  lemma Regroup(a: string, b: string, c: string, d: string, e: string, f: string, g: string)
    ensures a + (b + c + d) + e + f + g == a + (b + (c + d + (e + (f + g))))
  {
    assert e + f + g == e + (f + g);
    assert b + c + d + (e + (f + g)) == b + (c + d + (e + (f + g)));
    assert a + (b + c + d) + e + f + g == a + (b + c + d) + (e + (f + g));
  }

  /** The text operators of a content stream show the page's lines. */
  lemma StreamShowsLines(lines: seq<Line>)
    requires forall k :: 0 <= k < |lines| ==> Basic(lines[k])
    ensures ReadStream(Stream(lines)) == Some(lines)
  {
    hide ReadShows, Shows;
    ShowsRead(lines, true);
    var s := Stream(lines);
    assert s == BEGIN_TEXT + (Shows(lines, true) + END_TEXT);
  }

  // ---------------------------------------------------------------- writing

  method EncodeLine(line: Line) returns (encoded: string)
    ensures encoded == Encoded(line)
  {
    hide Hex;
    encoded := "<";
    assert line[0..] == line;
    for i := 0 to |line|
      invariant encoded + HexRunes(line[i..]) == "<" + HexRunes(line)
    {
      assert line[i..][1..] == line[i + 1..];
      assert HexRunes(line[i..]) == Hex(line[i]) + HexRunes(line[i + 1..]);
      encoded := encoded + Hex(line[i]);
    }
    assert encoded + "" == encoded;
    encoded := encoded + ">";
  }

  lemma ShowAdded(before: string, start: string, line: string, more: string)
    ensures before + start + (line + SHOW) + more == before + (start + line + SHOW + more)
    ensures before + "" == before
  {
  }

  method WriteStream(page: seq<Line>) returns (stream: string)
    ensures stream == Stream(page)
  {
    hide Encoded;
    stream := BEGIN_TEXT;
    assert page[0..] == page;
    for position := 0 to |page|
      invariant stream + Shows(page[position..], position == 0) == BEGIN_TEXT + Shows(page, true)
    {
      var line := EncodeLine(page[position]);
      assert page[position..][1..] == page[position + 1..];
      ghost var before, more := stream, Shows(page[position + 1..], false);
      ghost var start := if position == 0 then "" else TO_NEXT_LINE;
      assert Shows(page[position..], position == 0) == start + line + SHOW + more;
      if position > 0 {
        stream := stream + TO_NEXT_LINE;
      }
      stream := stream + (line + SHOW);
      ShowAdded(before, start, line, more);
    }
    assert stream + "" == stream;
    stream := stream + END_TEXT;
  }

  /** The objects so far, and where they are. */
  ghost predicate Written(document: string, offsets: map<int, int>, bodies: seq<string>, next: nat) {
    1 <= next <= |bodies| + 1 && document == HEADER + Objects(bodies[..next - 1]) && offsets == Index(Offsets(bodies), next)
  }

  method WriteObject(before: string, known: map<int, int>, id: nat, body: string, ghost bodies: seq<string>)
    returns (document: string, offsets: map<int, int>)
    requires Written(before, known, bodies, id) && id <= |bodies| && body == bodies[id - 1]
    ensures Written(document, offsets, bodies, id + 1)
  {
    hide Object;
    offsets := known[id := |before|];
    document := before + Object(id, body);
    assert bodies[..id][..id - 1] == bodies[..id - 1];
    assert Objects(bodies[..id]) == Objects(bodies[..id - 1]) + Object(id, body);
    assert OffsetOf(Offsets(bodies), id) == |before|;
    assert offsets == Index(Offsets(bodies), id + 1);
  }

  ghost predicate BodyAt(bodies: seq<string>, i: int, body: string) {
    0 <= i < |bodies| && bodies[i] == body
  }

  lemma {:induction false} PageBodyAt(pages: seq<seq<Line>>, index: nat)
    requires index < |pages|
    ensures BodyAt(PageBodies(pages), 2 * index, PageBody(index))
    ensures BodyAt(PageBodies(pages), 2 * index + 1, ContentBody(pages[index]))
    decreases |pages|
  {
    hide PageBody, ContentBody;
    var k := |pages| - 1;
    if index < k {
      PageBodyAt(pages[..k], index);
    }
  }

  lemma BodiesAt(pages: seq<seq<Line>>, index: nat)
    requires index < |pages|
    ensures BodyAt(Bodies(pages), PageId(index) - 1, PageBody(index))
    ensures BodyAt(Bodies(pages), PageId(index), ContentBody(pages[index]))
  {
    hide PageBody, ContentBody, PageTree, PageBodies;
    PageBodyAt(pages, index);
  }

  method WriteKids(pages: nat) returns (kids: string)
    ensures kids == Kids(pages)
  {
    kids := "";
    for index := 0 to pages
      invariant kids == Kids(index)
    {
      kids := kids + Decimal(PageId(index)) + " 0 R ";
    }
  }

  method WriteObjects(pages: seq<seq<Line>>) returns (document: string, offsets: map<int, int>)
    ensures Written(document, offsets, Bodies(pages), 5 + 2 * |pages|)
  {
    ghost var bodies := Bodies(pages);
    document, offsets := HEADER, map[];
    FirstObject(bodies);
    hide Written, Content, Stream, PageBody, Kids;
    document, offsets := WriteObject(document, offsets, 1, CATALOG, bodies);
    var kids := WriteKids(|pages|);
    document, offsets := WriteObject(document, offsets, 2, "<< /Type /Pages /Kids [" + kids + "] /Count " +
                                                           Decimal(|pages|) + " >>", bodies);
    document, offsets := WriteObject(document, offsets, 3, FONT, bodies);
    document, offsets := WriteObject(document, offsets, 4, CID_FONT, bodies);
    hide Bodies, PageBodies;
    for index := 0 to |pages|
      invariant Written(document, offsets, bodies, PageId(index))
    {
      BodiesAt(pages, index);
      document, offsets := WriteObject(document, offsets, PageId(index), PageBody(index), bodies);
      var stream := WriteStream(pages[index]);
      document, offsets := WriteObject(document, offsets, PageId(index) + 1, Content(stream), bodies);
    }
  }

  lemma FirstObject(bodies: seq<string>)
    ensures Written(HEADER, map[], bodies, 1)
  {
    assert HEADER + "" == HEADER;
  }

  /** `WritePDF` */
  method WritePdf(text: Line) returns (document: string)
    ensures document == Document(Bodies(PagesOf(text)))
  {
    hide Bodies, Decimal, Pages, LinesOf, Fits, Written, Objects, Offsets, TableLines, Terminated;
    var lines := WrapLines(text);
    PagesHoldLines(lines);
    var pages := Paginate(lines);
    if |pages| == 0 {
      pages := pages + [[]];
    }
    assert pages == PagesOf(text);
    ghost var bodies := Bodies(pages);
    var offsets;
    document, offsets := WriteObjects(pages);
    var maxId := 4 + 2 * |pages|;
    var start := |document|;
    AllWritten(document, offsets, bodies);
    document := WriteTable(document, offsets, maxId, Offsets(bodies));
    document := document + Trailer(maxId + 1, start);
    DocumentParts(bodies);
  }

  lemma AllWritten(document: string, offsets: map<int, int>, bodies: seq<string>)
    requires Written(document, offsets, bodies, |bodies| + 1)
    ensures document == HEADER + Objects(bodies) && offsets == Index(Offsets(bodies), |bodies| + 1)
  {
    assert bodies[..|bodies|] == bodies;
  }

  lemma DocumentParts(bodies: seq<string>)
    ensures var front := HEADER + Objects(bodies);
            Document(bodies) == front + Terminated(TableLines(Offsets(bodies))) + Trailer(|bodies| + 1, |front|)
  {
    hide Objects, Offsets, TableLines, Terminated, Trailer;
  }

  method WriteTable(front: string, offsets: map<int, int>, maxId: nat, ghost where: seq<nat>) returns (document: string)
    requires maxId == |where| && offsets == Index(where, |where| + 1)
    ensures document == front + Terminated(TableLines(where))
  {
    hide Decimal, EntryLine, Terminated;
    ghost var lines := TableLines(where);
    document := front + Terminated(["xref", "0 " + Decimal(maxId + 1), FREE_LINE]);
    ghost var all := front + Terminated(lines);
    assert lines == ["xref", "0 " + Decimal(maxId + 1), FREE_LINE] + lines[3..];
    TerminatedAdd(["xref", "0 " + Decimal(maxId + 1), FREE_LINE], lines[3..]);
    for id := 1 to maxId + 1
      invariant document + Terminated(lines[id + 2..]) == all
    {
      ghost var before, rest := document, Terminated(lines[id + 3..]);
      assert offsets[id] == OffsetOf(where, id);
      var line := EntryLine(offsets[id]) + "\n";
      assert lines[id + 2] == EntryLine(offsets[id]);
      NextLine(lines, id + 2);
      document := document + line;
      assert document + rest == before + (line + rest);
    }
    NoLines();
    assert lines[maxId + 3..] == [];
    assert document + "" == document;
  }

  lemma NextLine(lines: seq<string>, k: nat)
    requires k < |lines|
    ensures Terminated(lines[k..]) == lines[k] + "\n" + Terminated(lines[k + 1..])
  {
    assert lines[k..][1..] == lines[k + 1..];
  }

  lemma {:induction false} TerminatedAdd(a: seq<string>, b: seq<string>)
    ensures Terminated(a + b) == Terminated(a) + Terminated(b)
    decreases |a|
  {
    if a == [] {
      assert a + b == b;
    } else {
      assert (a + b)[1..] == a[1..] + b;
      TerminatedAdd(a[1..], b);
    }
  }

  lemma NoLines()
    ensures Terminated([]) == ""
  {
  }

  // ---------------------------------------------------------------- reading

  /** `xrefEntries` */
  method XrefEntries(document: string) returns (r: Option<map<int, int>>)
    ensures r == Xref(document)
  {
    hide ScanNumber, ScanEntry, Split, LastIndex, At, ScanPair;
    var trailer := LastIndex(document, START_XREF);
    if trailer.None? {
      return None;
    }
    var number := ScanNumber(document[trailer.value + |START_XREF|..]);
    if number.Mismatch? {
      return None;
    }
    var start := number.value;
    if start < 0 || !At(document, XREF, start) {
      return None;
    }
    ReadsLines(document, start);
    var lines := Split(document[start..]);
    var header := ScanPair(lines[1]);
    if header.Mismatch? || header.value.0 != 0 {
      return None;
    }
    var count := header.value.1;
    if |lines| < 2 + count {
      return None;
    }
    var entries: map<int, int> := map[];
    var index := 1;
    while index < count
      invariant 1 <= index && ReadEntries(lines, count, 1, map[]) == ReadEntries(lines, count, index, entries)
    {
      var entry := ScanEntry(lines[2 + index]);
      if entry.None? || entry.value.1 != "n" {
        return None;
      }
      entries := entries[index := entry.value.0];
      index := index + 1;
    }
    return Some(entries);
  }

  lemma ReadsLines(document: string, start: nat)
    requires At(document, XREF, start)
    ensures start <= |document| && |Split(document[start..])| >= 2
  {
    assert document[start..][|XREF| - 1] == document[start..start + |XREF|][|XREF| - 1];
  }

  // ---------------------------------------------------------------- what a document holds

  /** At an object's place in the table the document has that object. */
  ghost predicate ObjectAt(d: string, entries: map<int, int>, bodies: seq<string>, id: int) {
    1 <= id <= |bodies| && id in entries && 0 <= entries[id] <= |d| && Object(id, bodies[id - 1]) <= d[entries[id]..]
  }

  /** A reader that follows the table finds every object. */
  ghost predicate Indexed(d: string, bodies: seq<string>) {
    Xref(d).Some? && (forall id :: id in Xref(d).value <==> 1 <= id <= |bodies|) &&
    forall id :: 1 <= id <= |bodies| ==> ObjectAt(d, Xref(d).value, bodies, id)
  }

  lemma EveryObjectFound(bodies: seq<string>)
    ensures Indexed(Document(bodies), bodies)
  {
    hide Document, Xref, Offsets, Object;
    TableRoundTrip(bodies);
    ghost var d, entries := Document(bodies), Index(Offsets(bodies), |bodies| + 1);
    forall id | 1 <= id <= |bodies| ensures ObjectAt(d, entries, bodies, id) {
      ObjectIsThere(bodies, id);
      assert OffsetOf(Offsets(bodies), id) == Offsets(bodies)[id - 1];
    }
  }

  /** A page's object names its content object, and the text operators there show exactly the page's lines. */
  ghost predicate PageShows(bodies: seq<string>, p: nat, page: seq<Line>) {
    BodyAt(bodies, PageId(p) - 1, PageBody(p)) &&
    exists stream :: BodyAt(bodies, PageId(p), Content(stream)) && ReadStream(stream) == Some(page)
  }

  /** The pages hold the lines in order, all but the last full, and every line fits. */
  ghost predicate PagesHold(pages: seq<seq<Line>>, lines: seq<Line>) {
    pages != [] && Bound(pages) == lines &&
    (forall p :: 0 <= p < |pages| ==> |pages[p]| <= LINES_PER_PAGE) &&
    (forall p :: 0 <= p < |pages| - 1 ==> |pages[p]| == LINES_PER_PAGE) &&
    forall k :: 0 <= k < |lines| ==> Fits(lines[k])
  }

  /**
   For any text: the table of the written document, read back, gives the place of every object from 1 to twice the
   pages and four; each page's content shows the page's lines; and the pages hold the wrapped lines, 46 on each but the
   last, each within the page's width.
   */
  lemma DocumentHoldsText(text: Line)
    ensures var pages := PagesOf(text); var bodies := Bodies(pages);
            |bodies| == 4 + 2 * |pages| && Indexed(Document(bodies), bodies) && PagesHold(pages, LinesOf(text)) &&
            forall p :: 0 <= p < |pages| ==> PageShows(bodies, p, pages[p])
  {
    hide Bodies, Document, Indexed, PagesOf, PagesHold, PageShows;
    var pages := PagesOf(text);
    EveryObjectFound(Bodies(pages));
    PagesHoldText(text);
    forall p | 0 <= p < |pages| ensures PageShows(Bodies(pages), p, pages[p]) {
      PageIsShown(text, p);
    }
  }

  lemma PagesHoldText(text: Line)
    ensures PagesHold(PagesOf(text), LinesOf(text))
  {
    LinesFit(SplitLines(Unreturned(text)));
    PagesHoldLines(LinesOf(text));
  }

  lemma PageIsBasic(text: Line, p: nat)
    requires p < |PagesOf(text)|
    ensures forall k :: 0 <= k < |PagesOf(text)[p]| ==> Basic(PagesOf(text)[p][k])
  {
    LinesFit(SplitLines(Unreturned(text)));
    hide Fits, Basic, Wrapped;
    PageLines(LinesOf(text), p);
  }

  lemma PageIsShown(text: Line, p: nat)
    requires p < |PagesOf(text)|
    ensures PageShows(Bodies(PagesOf(text)), p, PagesOf(text)[p])
  {
    hide Bodies, Stream, Basic, PagesOf, PageBody, Content, ReadStream;
    PageIsBasic(text, p);
    BodiesAt(PagesOf(text), p);
    StreamShowsLines(PagesOf(text)[p]);
  }

  /** A page's lines are among the document's. */
  lemma {:induction false} PageLines(lines: seq<Line>, p: nat)
    requires p < |Pages(lines)| && forall k :: 0 <= k < |lines| ==> Fits(lines[k])
    ensures forall k :: 0 <= k < |Pages(lines)[p]| ==> Basic(Pages(lines)[p][k])
    decreases |lines|
  {
    forall k | 0 <= k < |lines| ensures Basic(lines[k]) {
      assert Fits(lines[k]);
    }
    if p > 0 {
      PageLines(lines[LINES_PER_PAGE..], p - 1);
    }
  }
}
