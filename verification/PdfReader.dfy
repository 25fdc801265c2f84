/**
 A reader that knows nothing of the writer: from the trailer and the table to the catalog, the page tree, the pages,
 and the text that their content streams show.
 */
module PdfReader {
  import opened Common
  import opened PdfLines
  import opened PdfNumbers
  import opened PdfDocument
  import opened PdfRoundTrip
  import opened PdfWriter

  // ---------------------------------------------------------------- the reader

  /** What follows the first place of a key. */
  function After(s: string, key: string): (rest: Option<string>)
    ensures rest.Some? ==> |rest.value| <= |s|
    decreases |s|
  {
    if StartsWith(s, key) then Some(s[|key|..]) else if s == "" then None else After(s[1..], key)
  }

  /** The number after a key, and what follows it. */
  function Number(s: string, key: string): Option<(nat, string)> {
    match After(s, key)
    case None => None
    case Some(found) =>
      match ScanNumber(found)
      case Mismatch => None
      case Scanned(n, rest) => if n < 0 then None else Some((n, rest))
  }

  const OBJ := " 0 obj\n"

  /** The document from the body of an object on. */
  function ObjectFrom(d: string, entries: map<int, int>, id: nat): Option<string> {
    if id !in entries || entries[id] < 0 || entries[id] > |d| then None
    else
      match ScanNumber(d[entries[id]..])
      case Mismatch => None
      case Scanned(n, rest) => if n == id && StartsWith(rest, OBJ) then Some(rest[|OBJ|..]) else None
  }

  function Field(d: string, entries: map<int, int>, id: nat, key: string): Option<(nat, string)> {
    match ObjectFrom(d, entries, id)
    case None => None
    case Some(body) => Number(body, key)
  }

  const STREAM := " >>\nstream\n"
  const END_STREAM := "\nendstream"

  /** The lines that a page of this page tree shows: its content stream is as long as it says. */
  function ReadPage(d: string, entries: map<int, int>, tree: nat, id: nat): Option<seq<Line>> {
    match (Field(d, entries, id, "/Parent "), Field(d, entries, id, "/Contents "))
    case (Some((parent, _)), Some((content, _))) =>
      if parent != tree then None
      else
        (match Field(d, entries, content, "/Length ")
         case None => None
         case Some((length, rest)) =>
           if !StartsWith(rest, STREAM) then None
           else
             var s := rest[|STREAM|..];
             if length > |s| || !StartsWith(s[length..], END_STREAM) then None else ReadStream(s[..length]))
    case _ => None
  }

  function ReadPages(d: string, entries: map<int, int>, tree: nat, ids: seq<nat>): Option<seq<seq<Line>>> {
    if ids == [] then Some([])
    else
      match (ReadPage(d, entries, tree, ids[0]), ReadPages(d, entries, tree, ids[1..]))
      case (Some(page), Some(pages)) => Some([page] + pages)
      case _ => None
  }

  const REFERENCE := " 0 R "

  /** References up to the closing bracket. */
  function ReadKids(s: string): Scan<seq<nat>>
    decreases |s|
  {
    if StartsWith(s, "]") then Scanned([], s[1..])
    else
      match ScanNumber(s)
      case Mismatch => Mismatch
      case Scanned(n, rest) =>
        if n < 0 || !StartsWith(rest, REFERENCE) then Mismatch
        else
          match ReadKids(rest[|REFERENCE|..])
          case Mismatch => Mismatch
          case Scanned(ids, left) => Scanned([n] + ids, left)
  }

  /** The pages of a page tree, which are as many as it says. */
  function ReadTree(d: string, entries: map<int, int>, tree: nat): Option<seq<seq<Line>>> {
    match ObjectFrom(d, entries, tree)
    case None => None
    case Some(body) =>
      match After(body, "/Kids [")
      case None => None
      case Some(kids) =>
        match ReadKids(kids)
        case Mismatch => None
        case Scanned(ids, rest) =>
          match Number(rest, "/Count ")
          case None => None
          case Some((count, _)) => if count != |ids| then None else ReadPages(d, entries, tree, ids)
  }

  const ROOT := "/Root "

  /** The object that the trailer names as the catalog. */
  function RootOf(d: string): Option<nat> {
    match LastIndex(d, ROOT)
    case None => None
    case Some(at) =>
      match ScanNumber(d[at + |ROOT|..])
      case Mismatch => None
      case Scanned(n, _) => if n < 0 then None else Some(n)
  }

  function ReadDocument(d: string): Option<seq<seq<Line>>> {
    match (Xref(d), RootOf(d))
    case (Some(entries), Some(root)) =>
      (match Field(d, entries, root, "/Pages ")
       case None => None
       case Some((tree, _)) => ReadTree(d, entries, tree))
    case _ => None
  }

  // ---------------------------------------------------------------- finding a key

  predicate NoSlash(s: string) {
    forall i :: 0 <= i < |s| ==> s[i] != '/'
  }

  lemma {:induction false} AfterPlain(plain: string, s: string, key: string)
    requires NoSlash(plain) && key != "" && key[0] == '/'
    ensures After(plain + s, key) == After(s, key)
    decreases |plain|
  {
    if plain == "" {
      assert plain + s == s;
    } else {
      assert (plain + s)[0] == plain[0] && (plain + s)[1..] == plain[1..] + s;
      assert |key| <= |plain + s| ==> (plain + s)[..|key|][0] == plain[0];
      AfterPlain(plain[1..], s, key);
    }
  }

  /** A word that differs from the key in some place is skipped. */
  lemma AfterWord(word: string, s: string, key: string, i: nat)
    requires word != "" && NoSlash(word[1..]) && i < |word| && i < |key| && key[0] == '/' && key[i] != word[i]
    ensures After(word + s, key) == After(s, key)
  {
    assert (word + s)[1..] == word[1..] + s && (word + s)[i] == word[i];
    assert |key| <= |word + s| ==> (word + s)[..|key|][i] == word[i];
    AfterPlain(word[1..], s, key);
  }

  lemma AfterHere(s: string, key: string)
    ensures After(key + s, key) == Some(s)
  {
    assert (key + s)[..|key|] == key && (key + s)[|key|..] == s;
  }

  lemma NumberHere(n: nat, s: string, key: string)
    requires s != "" ==> !IsDigit(s[0])
    ensures Number(key + Decimal(n) + s, key) == Some((n, s))
  {
    hide Decimal, ScanNumber, After;
    assert key + Decimal(n) + s == key + (Decimal(n) + s);
    AfterHere(Decimal(n) + s, key);
    ScanDecimal(n, s);
  }

  // ---------------------------------------------------------------- the catalog and the page tree

  lemma SameAfter(a: string, b: string, key: string)
    requires After(a, key) == After(b, key)
    ensures Number(a, key) == Number(b, key)
  {
  }

  lemma DecimalTwo()
    ensures Decimal(2) == "2"
  {
  }

  lemma CatalogText()
    ensures CATALOG == "<< " + ("/Type " + ("/Catalog " + ("/Pages " + Decimal(2) + " 0 R >>")))
  {
    DecimalTwo();
    hide Decimal;
  }

  lemma Nested(a: string, b: string, c: string, d: string, s: string)
    ensures a + (b + (c + d)) + s == a + (b + (c + (d + s)))
  {
  }

  lemma CatalogRead(s: string)
    ensures Number(CATALOG + s, "/Pages ").Some? && Number(CATALOG + s, "/Pages ").value.0 == 2
  {
    hide Decimal, ScanNumber, After, Number, CATALOG;
    var key := "/Pages ";
    CatalogText();
    var tail := " 0 R >>" + s;
    var found := key + Decimal(2) + tail;
    Nested("<< ", "/Type ", "/Catalog ", key + Decimal(2) + " 0 R >>", s);
    assert key + Decimal(2) + " 0 R >>" + s == found;
    AfterPlain("<< ", "/Type " + ("/Catalog " + found), key);
    AfterWord("/Type ", "/Catalog " + found, key, 1);
    AfterWord("/Catalog ", found, key, 1);
    NumberHere(2, tail, key);
    SameAfter(CATALOG + s, found, key);
  }

  // ---------------------------------------------------------------- the page tree

  /** The ids of the page objects from one page on. */
  function IdsFrom(first: nat, pages: nat): (ids: seq<nat>)
    decreases pages - first
  {
    if first >= pages then [] else [PageId(first)] + IdsFrom(first + 1, pages)
  }

  function KidsFrom(first: nat, pages: nat): string
    decreases pages - first
  {
    if first >= pages then "" else Decimal(PageId(first)) + REFERENCE + KidsFrom(first + 1, pages)
  }

  lemma {:induction false} KidsJoin(first: nat, pages: nat)
    requires first <= pages
    ensures Kids(first) + KidsFrom(first, pages) == Kids(pages)
    decreases pages - first
  {
    hide Decimal;
    if first < pages {
      KidsJoin(first + 1, pages);
      assert Kids(first + 1) == Kids(first) + Decimal(PageId(first)) + REFERENCE;
    }
  }

  lemma {:induction false} KidsRead(first: nat, pages: nat, s: string)
    ensures ReadKids(KidsFrom(first, pages) + "]" + s) == Scanned(IdsFrom(first, pages), s)
    decreases pages - first
  {
    hide Decimal, ScanNumber;
    var text := KidsFrom(first, pages) + "]" + s;
    if first >= pages {
      assert text == "]" + s && text[..1] == "]" && text[1..] == s;
    } else {
      var more := KidsFrom(first + 1, pages) + "]" + s;
      var digits := Decimal(PageId(first));
      assert text == digits + (REFERENCE + more);
      assert IsDigit(digits[0]) && text[0] == digits[0] && text[..1][0] == text[0];
      ScanDecimal(PageId(first), REFERENCE + more);
      assert (REFERENCE + more)[..|REFERENCE|] == REFERENCE && (REFERENCE + more)[|REFERENCE|..] == more;
      KidsRead(first + 1, pages, s);
    }
  }

  lemma TreeText(pages: nat)
    ensures PageTree(pages) == "<< " + ("/Type " + ("/Pages " + ("/Kids [" + (Kids(pages) + "]" + (" /Count " + Decimal(pages) + " >>")))))
  {
    hide Decimal, Kids;
    assert "<< /Type /Pages /Kids [" == "<< " + "/Type " + "/Pages " + "/Kids [";
    assert "] /Count " == "]" + " /Count ";
  }

  lemma TreeRead(pages: nat, s: string)
    ensures var kids := Kids(pages) + "]" + (" /Count " + Decimal(pages) + " >>") + s;
            After(PageTree(pages) + s, "/Kids [") == Some(kids) &&
            ReadKids(kids) == Scanned(IdsFrom(0, pages), " /Count " + Decimal(pages) + " >>" + s)
  {
    hide Decimal, ScanNumber, After, ReadKids, PageTree, Kids, KidsFrom, IdsFrom;
    TreeText(pages);
    var key := "/Kids [";
    var tail := " /Count " + Decimal(pages) + " >>";
    var kids := Kids(pages) + "]" + tail + s;
    assert PageTree(pages) + s == "<< " + ("/Type " + ("/Pages " + (key + kids)));
    AfterPlain("<< ", "/Type " + ("/Pages " + (key + kids)), key);
    AfterWord("/Type ", "/Pages " + (key + kids), key, 1);
    AfterWord("/Pages ", key + kids, key, 1);
    AfterHere(kids, key);
    KidsAll(pages);
    KidsRead(0, pages, tail + s);
    assert kids == KidsFrom(0, pages) + "]" + (tail + s);
    assert tail + s == " /Count " + Decimal(pages) + " >>" + s;
  }

  lemma KidsAll(pages: nat)
    ensures KidsFrom(0, pages) == Kids(pages)
  {
    hide Decimal, KidsFrom;
    KidsJoin(0, pages);
    assert Kids(0) == "";
  }

  lemma CountRead(pages: nat, s: string)
    ensures Number(" /Count " + Decimal(pages) + " >>" + s, "/Count ") == Some((pages, " >>" + s))
  {
    hide Decimal, ScanNumber, After, Number;
    var key := "/Count ";
    var found := key + Decimal(pages) + (" >>" + s);
    assert " /Count " == " " + key;
    assert " /Count " + Decimal(pages) + " >>" + s == " " + found;
    AfterPlain(" ", found, key);
    SameAfter(" " + found, found, key);
    NumberHere(pages, " >>" + s, key);
  }

  // ---------------------------------------------------------------- pages

  const BOX := "/MediaBox [0 0 595 842] "

  lemma PageBegins()
    ensures "<< /Type /Page /Parent 2 0 R " == "<< " + "/Type " + "/Page " + "/Parent " + Decimal(2) + " 0 R "
  {
    DecimalTwo();
    hide Decimal;
  }

  lemma ResourceWords()
    ensures "/Resources << /Font << /F1 3 0 R >> >> " == "/Resources << " + "/Font << " + "/F1 3 0 R >> >> "
  {
  }

  const PARENT := "/Parent " + Decimal(2) + " 0 R "

  lemma Regroup(text: string, head: string, resources: string, b: string, c: string, f: string, g: string, h: string, i: string,
                s: string)
    requires text == head + BOX + resources + i && head == "<< " + b + c + PARENT && resources == f + g + h
    ensures text + s == "<< " + (b + (c + (PARENT + (BOX + (f + (g + (h + (i + s))))))))
  {
  }

  /** The words of a page object. */
  function PageWords(contents: string): string {
    "<< " + ("/Type " + ("/Page " + (PARENT + (BOX + ("/Resources << " + ("/Font << " + ("/F1 3 0 R >> >> " + contents)))))))
  }

  lemma PageText(index: nat, s: string)
    ensures PageBody(index) + s == PageWords("/Contents " + Decimal(PageId(index) + 1) + (" 0 R >>" + s))
  {
    PageBegins();
    ResourceWords();
    hide Decimal, PageId;
    var contents := "/Contents " + Decimal(PageId(index) + 1) + " 0 R >>";
    var head, resources := "<< /Type /Page /Parent 2 0 R ", "/Resources << /Font << /F1 3 0 R >> >> ";
    assert PageBody(index) == head + BOX + resources + contents;
    Regroup(PageBody(index), head, resources, "/Type ", "/Page ", "/Resources << ", "/Font << ", "/F1 3 0 R >> >> ", contents, s);
    assert contents + s == "/Contents " + Decimal(PageId(index) + 1) + (" 0 R >>" + s);
  }

  lemma ParentWord()
    ensures PARENT == "/Parent 2 0 R "
  {
    DecimalTwo();
  }

  lemma ParentRead(contents: string)
    ensures Number(PageWords(contents), "/Parent ").Some? && Number(PageWords(contents), "/Parent ").value.0 == 2
  {
    hide Decimal, ScanNumber, After, Number;
    var key := "/Parent ";
    var more := BOX + ("/Resources << " + ("/Font << " + ("/F1 3 0 R >> >> " + contents)));
    var found := key + Decimal(2) + (" 0 R " + more);
    assert PARENT + more == found;
    assert PageWords(contents) == "<< " + ("/Type " + ("/Page " + found));
    AfterPlain("<< ", "/Type " + ("/Page " + found), key);
    AfterWord("/Type ", "/Page " + found, key, 1);
    AfterWord("/Page ", found, key, 3);
    SameAfter(PageWords(contents), found, key);
    NumberHere(2, " 0 R " + more, key);
  }

  lemma BoxWords()
    ensures BOX == "/MediaBox " + "[0 0 595 842] "
  {
  }

  lemma ContentsWords(contents: string)
    ensures After(PageWords(contents), "/Contents ") == After(contents, "/Contents ")
  {
    ParentWord();
    BoxWords();
    hide After, BOX, PARENT;
    var key := "/Contents ";
    var resources := "/Resources << " + ("/Font << " + ("/F1 3 0 R >> >> " + contents));
    var parent := PARENT + (BOX + resources);
    AfterPlain("<< ", "/Type " + ("/Page " + parent), key);
    AfterWord("/Type ", "/Page " + parent, key, 1);
    AfterWord("/Page ", parent, key, 1);
    AfterWord(PARENT, BOX + resources, key, 1);
    assert BOX + resources == "/MediaBox " + ("[0 0 595 842] " + resources);
    AfterWord("/MediaBox ", "[0 0 595 842] " + resources, key, 1);
    AfterPlain("[0 0 595 842] ", resources, key);
    AfterWord("/Resources << ", "/Font << " + ("/F1 3 0 R >> >> " + contents), key, 1);
    AfterWord("/Font << ", "/F1 3 0 R >> >> " + contents, key, 1);
    AfterWord("/F1 3 0 R >> >> ", contents, key, 1);
  }

  lemma ContentsRead(content: nat, s: string)
    ensures var text := PageWords("/Contents " + Decimal(content) + (" 0 R >>" + s));
            Number(text, "/Contents ").Some? && Number(text, "/Contents ").value.0 == content
  {
    hide Decimal, ScanNumber, After, Number, PageWords;
    var contents := "/Contents " + Decimal(content) + (" 0 R >>" + s);
    ContentsWords(contents);
    SameAfter(PageWords(contents), contents, "/Contents ");
    NumberHere(content, " 0 R >>" + s, "/Contents ");
  }

  // ---------------------------------------------------------------- content streams

  lemma LengthRead(stream: string, s: string)
    ensures Number(Content(stream) + s, "/Length ") == Some((|stream|, STREAM + stream + END_STREAM + s))
  {
    hide Decimal, ScanNumber, After, Number;
    var key := "/Length ";
    var tail := STREAM + stream + END_STREAM + s;
    var found := key + Decimal(|stream|) + tail;
    assert "<< /Length " == "<< " + key;
    assert Content(stream) + s == "<< " + found;
    AfterPlain("<< ", found, key);
    SameAfter("<< " + found, found, key);
    NumberHere(|stream|, tail, key);
  }

  // ---------------------------------------------------------------- objects

  /** At its place in the table the document has an object, and more after it. */
  lemma ObjectRead(bodies: seq<string>, id: nat) returns (s: string)
    requires 1 <= id <= |bodies|
    ensures ObjectFrom(Document(bodies), Index(Offsets(bodies), |bodies| + 1), id) == Some(bodies[id - 1] + s)
  {
    hide Document, Offsets, Decimal, ScanNumber;
    var d, offset := Document(bodies), Offsets(bodies)[id - 1];
    ObjectIsThere(bodies, id);
    assert OffsetOf(Offsets(bodies), id) == offset;
    var body := bodies[id - 1];
    var whole := Object(id, body);
    var left := d[offset..][|whole|..];
    assert d[offset..] == whole + left;
    s := "\nendobj\n" + left;
    assert whole + left == Decimal(id) + (OBJ + (body + s));
    ScanDecimal(id, OBJ + (body + s));
    assert (OBJ + (body + s))[..|OBJ|] == OBJ && (OBJ + (body + s))[|OBJ|..] == body + s;
  }

  // ---------------------------------------------------------------- the whole document

  /** The table of a document. */
  function TableOf(bodies: seq<string>): map<int, int> {
    Index(Offsets(bodies), |bodies| + 1)
  }

  lemma PageIsRead(text: Line, p: nat)
    requires p < |PagesOf(text)|
    ensures var bodies := Bodies(PagesOf(text));
            ReadPage(Document(bodies), TableOf(bodies), 2, PageId(p)) == Some(PagesOf(text)[p])
  {
    hide Bodies, Document, Index, Offsets, Stream, Basic, PagesOf, PageBody, Content, ReadStream, Number, ObjectFrom, PageWords, Decimal;
    var page := PagesOf(text)[p];
    var bodies := Bodies(PagesOf(text));
    PageIsBasic(text, p);
    BodiesAt(PagesOf(text), p);
    StreamShowsLines(page);
    var s := ObjectRead(bodies, PageId(p));
    PageText(p, s);
    ParentRead("/Contents " + Decimal(PageId(p) + 1) + (" 0 R >>" + s));
    ContentsRead(PageId(p) + 1, s);
    var t := ObjectRead(bodies, PageId(p) + 1);
    LengthRead(Stream(page), t);
    StreamCut(Stream(page), t);
  }

  lemma StreamCut(stream: string, t: string)
    ensures var rest := STREAM + stream + END_STREAM + t;
            StartsWith(rest, STREAM) && |stream| <= |rest[|STREAM|..]| && rest[|STREAM|..][..|stream|] == stream &&
            StartsWith(rest[|STREAM|..][|stream|..], END_STREAM)
  {
    var rest := STREAM + stream + END_STREAM + t;
    assert rest == STREAM + (stream + (END_STREAM + t));
    assert rest[..|STREAM|] == STREAM && rest[|STREAM|..] == stream + (END_STREAM + t);
    assert rest[|STREAM|..][|stream|..] == END_STREAM + t;
    assert (END_STREAM + t)[..|END_STREAM|] == END_STREAM;
  }

  lemma {:induction false} PagesAreRead(text: Line, first: nat)
    requires first <= |PagesOf(text)|
    ensures var (pages, bodies) := (PagesOf(text), Bodies(PagesOf(text)));
            ReadPages(Document(bodies), TableOf(bodies), 2, IdsFrom(first, |pages|)) == Some(pages[first..])
    decreases |PagesOf(text)| - first
  {
    hide Bodies, Document, PagesOf, ReadPage, TableOf;
    var pages := PagesOf(text);
    if first < |pages| {
      PageIsRead(text, first);
      PagesAreRead(text, first + 1);
      var ids := IdsFrom(first, |pages|);
      assert ids[0] == PageId(first) && ids[1..] == IdsFrom(first + 1, |pages|);
      assert pages[first..] == [pages[first]] + pages[first + 1..];
    } else {
      assert pages[first..] == [];
    }
  }

  lemma {:induction false} IdsCount(first: nat, pages: nat)
    requires first <= pages
    ensures |IdsFrom(first, pages)| == pages - first
    decreases pages - first
  {
    if first < pages {
      IdsCount(first + 1, pages);
    }
  }

  lemma FrontBodies(pages: seq<seq<Line>>)
    ensures Bodies(pages)[0] == CATALOG && Bodies(pages)[1] == PageTree(|pages|)
  {
    hide PageTree, PageBodies, CATALOG, FONT, CID_FONT;
  }

  lemma TreeIsRead(text: Line)
    ensures var bodies := Bodies(PagesOf(text)); ReadTree(Document(bodies), TableOf(bodies), 2) == Some(PagesOf(text))
  {
    hide Bodies, Document, Index, Offsets, PagesOf, PageTree, ReadKids, Number, ObjectFrom, Decimal, After, ReadPages, IdsFrom, Kids;
    var pages, bodies := PagesOf(text), Bodies(PagesOf(text));
    FrontBodies(pages);
    var s := ObjectRead(bodies, 2);
    TreeRead(|pages|, s);
    CountRead(|pages|, s);
    IdsCount(0, |pages|);
    PagesAreRead(text, 0);
    assert pages[0..] == pages;
  }

  lemma RootFound(before: string, after: string)
    requires NoSlash(after)
    ensures var s := before + ROOT + after; LastIndex(s, ROOT) == Some(|before|) && s[|before| + |ROOT|..] == after
  {
    var s := before + ROOT + after;
    assert s == before + (ROOT + after);
    assert At(s, ROOT, |before|) by {
      assert s[|before|..|before| + |ROOT|] == ROOT;
    }
    forall j | |before| < j <= |s| - |ROOT| ensures !At(s, ROOT, j) {
      assert s[j..j + |ROOT|][0] == s[j] && s[j] == (ROOT + after)[j - |before|];
    }
    LastFromFinds(s, ROOT, |s| - |ROOT|, |before|);
  }

  lemma RootIsOne(bodies: seq<string>)
    ensures RootOf(Document(bodies)) == Some(1)
  {
    hide Objects, Offsets, LastIndex, ScanNumber, Decimal, Terminated, TableLines;
    var front, offsets := HEADER + Objects(bodies), Offsets(bodies);
    var after := TrailerEnd(|front|);
    var before := front + (Terminated(TableLines(offsets)) + "trailer\n<< /Size " + Decimal(|offsets| + 1) + " ");
    TrailerWords(|offsets| + 1, |front|);
    assert Document(bodies) == before + ROOT + after;
    TrailerPlain(|front|);
    RootFound(before, after);
    OneScanned(|front|);
  }

  function TrailerEnd(start: nat): string {
    "1" + (" 0 R >>\n" + START_XREF + Decimal(start) + "\n%%EOF\n")
  }

  lemma TrailerWords(size: nat, start: nat)
    ensures Trailer(size, start) == "trailer\n<< /Size " + Decimal(size) + " " + ROOT + TrailerEnd(start)
  {
    hide Decimal;
    assert " /Root 1 0 R >>\n" == " " + ROOT + "1" + " 0 R >>\n";
  }

  lemma TrailerPlain(start: nat)
    ensures NoSlash(TrailerEnd(start))
  {
    assert forall i :: 0 <= i < |Decimal(start)| ==> IsDigit(Decimal(start)[i]);
    hide Decimal;
  }

  lemma OneScanned(start: nat)
    ensures ScanNumber(TrailerEnd(start)).Scanned? && ScanNumber(TrailerEnd(start)).value == 1
  {
    assert Decimal(1) == "1";
    hide Decimal, ScanNumber;
    ScanDecimal(1, " 0 R >>\n" + START_XREF + Decimal(start) + "\n%%EOF\n");
  }

  /**
   For any text: a reader of the written document, who starts at its trailer and its table and follows the catalog, the
   page tree, each page's contents and the length of each stream, finds the pages of the text, in order.
   */
  lemma DocumentIsRead(text: Line)
    ensures ReadDocument(Document(Bodies(PagesOf(text)))) == Some(PagesOf(text))
  {
    hide Bodies, Document, Index, Offsets, PagesOf, Number, ObjectFrom, RootOf, Xref, ReadTree, CATALOG;
    var bodies := Bodies(PagesOf(text));
    TableRoundTrip(bodies);
    RootIsOne(bodies);
    FrontBodies(PagesOf(text));
    var s := ObjectRead(bodies, 1);
    CatalogRead(s);
    TreeIsRead(text);
  }
}
