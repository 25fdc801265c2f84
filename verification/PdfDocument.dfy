/** The PDF document as a string of bytes, one character each: how it is laid out, and how its table is read back. */
module PdfDocument {
  import opened Common
  import opened PdfLines
  import opened PdfNumbers

  // ---------------------------------------------------------------- content streams

  function HexDigit(d: nat): char
    requires d < 16
  {
    "0123456789ABCDEF"[d]
  }

  /** `%04X` */
  function Hex(r: nat): string {
    if r <= 0xFFFF then [HexDigit(r / 4096), HexDigit(r / 256 % 16), HexDigit(r / 16 % 16), HexDigit(r % 16)]
    else Hex(r / 16) + [HexDigit(r % 16)]
  }

  function HexRunes(line: Line): string
    decreases |line|
  {
    if line == [] then "" else Hex(line[0]) + HexRunes(line[1..])
  }

  /** `encodeUCS2Hex` */
  function Encoded(line: Line): string {
    "<" + HexRunes(line) + ">"
  }

  const TO_NEXT_LINE := "T*\n"
  const SHOW := " Tj\n"

  function Shows(lines: seq<Line>, first: bool): string
    decreases |lines|
  {
    if lines == [] then "" else (if first then "" else TO_NEXT_LINE) + Encoded(lines[0]) + SHOW + Shows(lines[1..], false)
  }

  const BEGIN_TEXT := "BT /F1 11 Tf 16 TL 50 792 Td\n"
  const END_TEXT := "ET"

  function Stream(lines: seq<Line>): string {
    BEGIN_TEXT + Shows(lines, true) + END_TEXT
  }

  // ---------------------------------------------------------------- objects

  const CATALOG := "<< /Type /Catalog /Pages 2 0 R >>"
  const FONT := "<< /Type /Font /Subtype /Type0 /BaseFont /STSong-Light /Encoding /UniGB-UCS2-H /DescendantFonts [4 0 R] >>"
  const CID_FONT :=
    "<< /Type /Font /Subtype /CIDFontType0 /BaseFont /STSong-Light " +
    "/CIDSystemInfo << /Registry (Adobe) /Ordering (GB1) /Supplement 5 >> /DW 1000 >>"

  function PageId(index: nat): nat {
    5 + 2 * index
  }

  function Kids(pages: nat): string {
    if pages == 0 then "" else Kids(pages - 1) + Decimal(PageId(pages - 1)) + " 0 R "
  }

  function PageTree(pages: nat): string {
    "<< /Type /Pages /Kids [" + Kids(pages) + "] /Count " + Decimal(pages) + " >>"
  }

  function PageBody(index: nat): string {
    "<< /Type /Page /Parent 2 0 R " + "/MediaBox [0 0 595 842] " + "/Resources << /Font << /F1 3 0 R >> >> " + "/Contents " +
    Decimal(PageId(index) + 1) + " 0 R >>"
  }

  function Content(stream: string): string {
    "<< /Length " + Decimal(|stream|) + " >>\nstream\n" + stream + "\nendstream"
  }

  function ContentBody(lines: seq<Line>): string {
    Content(Stream(lines))
  }

  function PageBodies(pages: seq<seq<Line>>): (bodies: seq<string>)
    ensures |bodies| == 2 * |pages|
    decreases |pages|
  {
    if pages == [] then []
    else
      var k := |pages| - 1;
      PageBodies(pages[..k]) + [PageBody(k), ContentBody(pages[k])]
  }

  /** The objects, numbered from 1. */
  function Bodies(pages: seq<seq<Line>>): (bodies: seq<string>)
    ensures |bodies| == 4 + 2 * |pages|
  {
    [CATALOG, PageTree(|pages|), FONT, CID_FONT] + PageBodies(pages)
  }

  function Object(id: nat, body: string): string {
    Decimal(id) + " 0 obj\n" + body + "\nendobj\n"
  }

  function Objects(bodies: seq<string>): string
    decreases |bodies|
  {
    if bodies == [] then "" else Objects(bodies[..|bodies| - 1]) + Object(|bodies|, bodies[|bodies| - 1])
  }

  const HEADER := "%PDF-1.4\n%\U{E2}\U{E3}\U{CF}\U{D3}\n"

  /** Where each object begins. */
  function Offsets(bodies: seq<string>): (offsets: seq<nat>)
    ensures |offsets| == |bodies|
  {
    seq(|bodies|, (k: nat) requires k < |bodies| => |HEADER + Objects(bodies[..k])|)
  }

  // ---------------------------------------------------------------- the table

  function EntryLine(offset: nat): string {
    Padded(offset, 10) + " 00000 n "
  }

  const XREF := "xref\n"
  const FREE_LINE := "0000000000 65535 f "

  function EntryLines(offsets: seq<nat>): seq<string> {
    seq(|offsets|, (k: nat) requires k < |offsets| => EntryLine(offsets[k]))
  }

  function TableLines(offsets: seq<nat>): seq<string> {
    ["xref", "0 " + Decimal(|offsets| + 1), FREE_LINE] + EntryLines(offsets)
  }

  /** Lines, each with its end. */
  function Terminated(lines: seq<string>): string
    decreases |lines|
  {
    if lines == [] then "" else lines[0] + "\n" + Terminated(lines[1..])
  }

  function Trailer(size: nat, start: nat): string {
    "trailer\n<< /Size " + Decimal(size) + " /Root 1 0 R >>\n" + START_XREF + Decimal(start) + "\n%%EOF\n"
  }

  const START_XREF := "startxref\n"

  function Table(offsets: seq<nat>, start: nat): string {
    Terminated(TableLines(offsets)) + Trailer(|offsets| + 1, start)
  }

  function Document(bodies: seq<string>): string {
    var front := HEADER + Objects(bodies);
    front + Table(Offsets(bodies), |front|)
  }

  /** A document has at least one page, if an empty one. */
  function PagesOf(text: Line): seq<seq<Line>> {
    if LinesOf(text) == [] then [[]] else Pages(LinesOf(text))
  }

  // ---------------------------------------------------------------- reading the table

  predicate At(s: string, pattern: string, i: nat) {
    i + |pattern| <= |s| && s[i..i + |pattern|] == pattern
  }

  function LastFrom(s: string, pattern: string, i: nat): (r: Option<nat>)
    requires i + |pattern| <= |s|
    ensures r.Some? ==> r.value <= i
  {
    if At(s, pattern, i) then Some(i) else if i == 0 then None else LastFrom(s, pattern, i - 1)
  }

  function LastIndex(s: string, pattern: string): (r: Option<nat>)
    ensures r.Some? ==> r.value + |pattern| <= |s|
  {
    if |pattern| > |s| then None else LastFrom(s, pattern, |s| - |pattern|)
  }

  function Split(s: string): (lines: seq<string>)
    ensures lines != [] && ('\n' in s ==> |lines| >= 2)
    decreases |s|
  {
    if s == "" then [""]
    else
      var rest := Split(s[1..]);
      if s[0] == '\n' then [""] + rest else [[s[0]] + rest[0]] + rest[1..]
  }

  /** `"%d %d"` */
  function ScanPair(line: string): Scan<(int, int)> {
    match ScanNumber(line)
    case Mismatch => Mismatch
    case Scanned(a, afterA) =>
      match ScanSpace(afterA)
      case Mismatch => Mismatch
      case Scanned(_, beforeB) =>
        match ScanNumber(beforeB)
        case Mismatch => Mismatch
        case Scanned(b, rest) => Scanned((a, b), rest)
  }

  /** `"%d %d %s"` */
  function ScanEntry(line: string): Option<(int, string)> {
    match ScanPair(line)
    case Mismatch => None
    case Scanned(pair, rest) =>
      match ScanSpace(rest)
      case Mismatch => None
      case Scanned(_, status) =>
        match ScanWord(status)
        case Mismatch => None
        case Scanned(word, _) => Some((pair.0, word))
  }

  function ReadEntries(lines: seq<string>, count: int, index: nat, entries: map<int, int>): Option<map<int, int>>
    requires |lines| >= 2 + count
    decreases count - index
  {
    if index >= count then Some(entries)
    else
      match ScanEntry(lines[2 + index])
      case None => None
      case Some((offset, status)) =>
        if status != "n" then None else ReadEntries(lines, count, index + 1, entries[index := offset])
  }

  /** `xrefEntries` */
  function Xref(document: string): Option<map<int, int>> {
    match LastIndex(document, START_XREF)
    case None => None
    case Some(trailer) =>
      match ScanNumber(document[trailer + |START_XREF|..])
      case Mismatch => None
      case Scanned(start, _) =>
        if start < 0 || !At(document, XREF, start) then None
        else
          assert document[start..][|XREF| - 1] == document[start..start + |XREF|][|XREF| - 1];
          ReadTable(Split(document[start..]))
  }

  function ReadTable(lines: seq<string>): Option<map<int, int>>
    requires |lines| >= 2
  {
    match ScanPair(lines[1])
    case Mismatch => None
    case Scanned((first, count), _) =>
      if first != 0 || |lines| < 2 + count then None else ReadEntries(lines, count, 1, map[])
  }

  // ---------------------------------------------------------------- reading the text

  function HexValue(c: char): Option<nat> {
    if '0' <= c <= '9' then Some(c as nat - '0' as nat)
    else if 'A' <= c <= 'F' then Some(c as nat - 'A' as nat + 10)
    else None
  }

  /** Four hexadecimal digits a rune, up to the closing bracket. */
  function ReadRunes(s: string): (r: Scan<Line>)
    ensures r.Scanned? ==> |r.rest| < |s|
    decreases |s|
  {
    if s != "" && s[0] == '>' then Scanned([], s[1..])
    else if |s| < 4 then Mismatch
    else
      match (HexValue(s[0]), HexValue(s[1]), HexValue(s[2]), HexValue(s[3]))
      case (Some(a), Some(b), Some(c), Some(d)) =>
        (match ReadRunes(s[4..])
         case Mismatch => Mismatch
         case Scanned(line, rest) =>
           var r := ((a * 16 + b) * 16 + c) * 16 + d;
           if r > 0x10FFFF then Mismatch else Scanned([r] + line, rest))
      case _ => Mismatch
  }

  predicate StartsWith(s: string, prefix: string) {
    |prefix| <= |s| && s[..|prefix|] == prefix
  }

  /** The strings a content stream shows, one line after the other. */
  function ReadShows(s: string, first: bool): Option<seq<Line>>
    decreases |s|
  {
    if s == END_TEXT then Some([])
    else if !first && !StartsWith(s, TO_NEXT_LINE) then None
    else
      var shown := if first then s else s[|TO_NEXT_LINE|..];
      if shown == "" || shown[0] != '<' then None
      else
        match ReadRunes(shown[1..])
        case Mismatch => None
        case Scanned(line, rest) =>
          if !StartsWith(rest, SHOW) then None
          else
            match ReadShows(rest[|SHOW|..], false)
            case None => None
            case Some(lines) => Some([line] + lines)
  }

  function ReadStream(s: string): Option<seq<Line>> {
    if StartsWith(s, BEGIN_TEXT) then ReadShows(s[|BEGIN_TEXT|..], true) else None
  }
}
