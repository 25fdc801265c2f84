/** How the text of a document is cut into the lines and pages of a PDF. */
module PdfLines {

  type Rune = r: int | 0 <= r <= 0x10FFFF
  type Line = seq<Rune>

  const TAB: Rune := 9
  const NEWLINE: Rune := 10
  const RETURN: Rune := 13
  const SPACE: Rune := 32

  /** The width of a page's text, 495 points of 11-point type, in half-ems. */
  const WRAP_WIDTH := 90
  const LINES_PER_PAGE := 46

  predicate IsControl(r: Rune) {
    r < 0x20 || 0x7F <= r < 0xA0
  }

  /** What `\r\n` becomes. */
  function Unreturned(text: Line): Line
    decreases |text|
  {
    if |text| >= 2 && text[0] == RETURN && text[1] == NEWLINE then [NEWLINE] + Unreturned(text[2..])
    else if text == [] then []
    else [text[0]] + Unreturned(text[1..])
  }

  function SplitLines(text: Line): (lines: seq<Line>)
    ensures lines != []
    decreases |text|
  {
    if text == [] then [[]]
    else
      var rest := SplitLines(text[1..]);
      if text[0] == NEWLINE then [[]] + rest else [[text[0]] + rest[0]] + rest[1..]
  }

  /** Tabs become spaces; control characters and what lies beyond the basic plane are dropped. */
  function Shown(raw: Line): Line
    decreases |raw|
  {
    if raw == [] then []
    else
      var r := raw[0];
      (if r == TAB then [SPACE] else if IsControl(r) || r > 0xFFFF then [] else [r]) + Shown(raw[1..])
  }

  function HalfEms(r: Rune): nat {
    if r > 0xFF then 2 else 1
  }

  function Width(line: Line): nat
    decreases |line|
  {
    if line == [] then 0 else Width(line[..|line| - 1]) + HalfEms(line[|line| - 1])
  }

  /** The end of the longest beginning of a line that fits, given what is taken already. */
  function FitEnd(line: Line, at: nat): (end: nat)
    requires at <= |line|
    ensures at <= end <= |line|
    decreases |line| - at
  {
    if at < |line| && Width(line[..at + 1]) <= WRAP_WIDTH then FitEnd(line, at + 1) else at
  }

  function TrimLeft(line: Line): (t: Line)
    ensures |t| <= |line|
    decreases |line|
  {
    if line != [] && line[0] == SPACE then TrimLeft(line[1..]) else line
  }

  /** A line that is not empty, in pieces that fit; the spaces a piece would begin with go. */
  function Wrapped(line: Line): seq<Line>
    decreases |line|
  {
    if line == [] then []
    else
      FitEndGrows(line);
      var cut := FitEnd(line, 0);
      [line[..cut]] + Wrapped(TrimLeft(line[cut..]))
  }

  /** The first rune always fits. */
  lemma FitEndGrows(line: Line)
    requires line != []
    ensures FitEnd(line, 0) > 0
  {
    assert line[..1] == [line[0]];
    assert Width(line[..1]) == Width([]) + HalfEms(line[0]);
  }

  function WrappedAll(raws: seq<Line>): seq<Line>
    decreases |raws|
  {
    if raws == [] then []
    else
      var line := Shown(raws[|raws| - 1]);
      WrappedAll(raws[..|raws| - 1]) + (if line == [] then [[]] else Wrapped(line))
  }

  /** `wrapLines`. */
  function LinesOf(text: Line): seq<Line> {
    WrappedAll(SplitLines(Unreturned(text)))
  }

  // ---------------------------------------------------------------- what the lines are

  /** A line that fits and that the font's encoding can write. */
  ghost predicate Fits(line: Line) {
    Width(line) <= WRAP_WIDTH && forall r :: r in line ==> r <= 0xFFFF && !IsControl(r)
  }

  lemma {:induction false} FitEndFits(line: Line, at: nat)
    requires at <= |line| && Width(line[..at]) <= WRAP_WIDTH
    ensures Width(line[..FitEnd(line, at)]) <= WRAP_WIDTH
    ensures FitEnd(line, at) < |line| ==> Width(line[..FitEnd(line, at) + 1]) > WRAP_WIDTH
    decreases |line| - at
  {
    if at < |line| && Width(line[..at + 1]) <= WRAP_WIDTH {
      FitEndFits(line, at + 1);
    }
  }

  lemma {:induction false} ShownRunes(raw: Line)
    ensures forall r :: r in Shown(raw) ==> r <= 0xFFFF && !IsControl(r)
    decreases |raw|
  {
    if raw != [] {
      ShownRunes(raw[1..]);
    }
  }

  lemma {:induction false} TrimLeftPart(line: Line)
    ensures TrimLeft(line) == line[|line| - |TrimLeft(line)|..]
    ensures forall i :: 0 <= i < |line| - |TrimLeft(line)| ==> line[i] == SPACE
    decreases |line|
  {
    if line != [] && line[0] == SPACE {
      TrimLeftPart(line[1..]);
    }
  }

  lemma {:induction false} WrappedFits(line: Line)
    requires forall r :: r in line ==> r <= 0xFFFF && !IsControl(r)
    ensures forall k :: 0 <= k < |Wrapped(line)| ==> Wrapped(line)[k] != [] && Fits(Wrapped(line)[k])
    decreases |line|
  {
    if line != [] {
      FitEndGrows(line);
      var cut := FitEnd(line, 0);
      FitEndFits(line, 0);
      var rest := TrimLeft(line[cut..]);
      TrimLeftPart(line[cut..]);
      forall r | r in rest ensures r in line {
        assert r in line[cut..];
      }
      forall r | r in line[..cut] ensures r in line {
      }
      WrappedFits(rest);
    }
  }

  /** Every line of every document fits the page and the encoding. */
  lemma {:induction false} LinesFit(raws: seq<Line>)
    ensures raws != [] ==> WrappedAll(raws) != []
    ensures forall k :: 0 <= k < |WrappedAll(raws)| ==> Fits(WrappedAll(raws)[k])
    decreases |raws|
  {
    if raws != [] {
      LinesFit(raws[..|raws| - 1]);
      var line := Shown(raws[|raws| - 1]);
      ShownRunes(raws[|raws| - 1]);
      WrappedFits(line);
    }
  }

  function WithoutSpaces(line: Line): Line
    decreases |line|
  {
    if line == [] then []
    else WithoutSpaces(line[..|line| - 1]) + (if line[|line| - 1] == SPACE then [] else [line[|line| - 1]])
  }

  function Joined(lines: seq<Line>): Line
    decreases |lines|
  {
    if lines == [] then [] else lines[0] + Joined(lines[1..])
  }

  lemma {:induction false} WithoutAdd(a: Line, b: Line)
    ensures WithoutSpaces(a + b) == WithoutSpaces(a) + WithoutSpaces(b)
    decreases |b|
  {
    if b == [] {
      assert a + b == a;
    } else {
      assert (a + b)[..|a + b| - 1] == a + b[..|b| - 1];
      WithoutAdd(a, b[..|b| - 1]);
    }
  }

  lemma {:induction false} OnlySpaces(line: Line)
    requires forall i :: 0 <= i < |line| ==> line[i] == SPACE
    ensures WithoutSpaces(line) == []
    decreases |line|
  {
    if line != [] {
      OnlySpaces(line[..|line| - 1]);
    }
  }

  /** Wrapping loses nothing but spaces. */
  lemma {:induction false} WrappedKeeps(line: Line)
    ensures WithoutSpaces(Joined(Wrapped(line))) == WithoutSpaces(line)
    decreases |line|
  {
    if line != [] {
      FitEndGrows(line);
      var cut := FitEnd(line, 0);
      var tail := line[cut..];
      var rest := TrimLeft(tail);
      WrappedKeeps(rest);
      TrimmedKeeps(tail);
      assert Wrapped(line) == [line[..cut]] + Wrapped(rest);
      WrappedStep(line, cut, rest, Wrapped(rest));
    }
  }

  lemma TrimmedKeeps(line: Line)
    ensures WithoutSpaces(TrimLeft(line)) == WithoutSpaces(line)
  {
    TrimLeftPart(line);
    var gap := line[..|line| - |TrimLeft(line)|];
    OnlySpaces(gap);
    WithoutAdd(gap, TrimLeft(line));
    assert line == gap + TrimLeft(line);
  }

  lemma WrappedStep(line: Line, cut: nat, rest: Line, more: seq<Line>)
    requires cut <= |line| && WithoutSpaces(rest) == WithoutSpaces(line[cut..]) == WithoutSpaces(Joined(more))
    ensures WithoutSpaces(Joined([line[..cut]] + more)) == WithoutSpaces(line)
  {
    hide WithoutSpaces;
    assert line == line[..cut] + line[cut..];
    WithoutAdd(line[..cut], line[cut..]);
    assert ([line[..cut]] + more)[1..] == more;
    WithoutAdd(line[..cut], Joined(more));
  }

  function ShownAll(raws: seq<Line>): Line
    decreases |raws|
  {
    if raws == [] then [] else ShownAll(raws[..|raws| - 1]) + Shown(raws[|raws| - 1])
  }

  lemma {:induction false} JoinedAdd(a: seq<Line>, b: seq<Line>)
    ensures Joined(a + b) == Joined(a) + Joined(b)
    decreases |a|
  {
    if a == [] {
      assert a + b == b;
    } else {
      assert (a + b)[1..] == a[1..] + b;
      JoinedAdd(a[1..], b);
    }
  }

  /** The lines of a document hold, spaces aside, what of its text can be shown, in order. */
  lemma {:induction false} LinesKeep(raws: seq<Line>)
    ensures WithoutSpaces(Joined(WrappedAll(raws))) == WithoutSpaces(ShownAll(raws))
    decreases |raws|
  {
    if raws != [] {
      var init := raws[..|raws| - 1];
      var line := Shown(raws[|raws| - 1]);
      LinesKeep(init);
      var last := if line == [] then [[]] else Wrapped(line);
      JoinedAdd(WrappedAll(init), last);
      WithoutAdd(Joined(WrappedAll(init)), Joined(last));
      WithoutAdd(ShownAll(init), line);
      if line == [] {
        assert Joined(last) == [] + Joined(last[1..]);
      } else {
        WrappedKeeps(line);
      }
    }
  }

  // ---------------------------------------------------------------- the loops

  lemma WidthNext(line: Line, at: nat)
    requires at < |line|
    ensures Width(line[..at + 1]) == Width(line[..at]) + HalfEms(line[at])
  {
    assert line[..at + 1][..at] == line[..at];
  }

  method WrapLines(text: Line) returns (wrapped: seq<Line>)
    ensures wrapped == LinesOf(text)
    ensures wrapped != [] && forall k :: 0 <= k < |wrapped| ==> Fits(wrapped[k])
  {
    hide Fits;
    wrapped := [];
    var raws := SplitLines(Unreturned(text));
    for i := 0 to |raws|
      invariant wrapped == WrappedAll(raws[..i])
    {
      assert raws[..i + 1][..i] == raws[..i];
      var line := Shown(raws[i]);
      if line == [] {
        wrapped := wrapped + [[]];
        continue;
      }
      ghost var whole, before := line, wrapped;
      while line != []
        invariant before + Wrapped(whole) == wrapped + Wrapped(line)
        decreases |line|
      {
        var width, cut := 0, 0;
        FitEndGrows(line);
        while cut < |line|
          invariant 0 <= cut <= |line| && width == Width(line[..cut]) && FitEnd(line, 0) == FitEnd(line, cut)
        {
          WidthNext(line, cut);
          if width + HalfEms(line[cut]) > WRAP_WIDTH {
            break;
          }
          width, cut := width + HalfEms(line[cut]), cut + 1;
        }
        if cut == 0 {
          cut := |line|;
        }
        assert Wrapped(line) == [line[..cut]] + Wrapped(TrimLeft(line[cut..]));
        wrapped := wrapped + [line[..cut]];
        line := TrimLeft(line[cut..]);
      }
    }
    assert raws[..|raws|] == raws;
    LinesFit(raws);
  }

  // ---------------------------------------------------------------- pages

  function Pages(lines: seq<Line>): seq<seq<Line>>
    decreases |lines|
  {
    if |lines| <= LINES_PER_PAGE then (if lines == [] then [] else [lines])
    else [lines[..LINES_PER_PAGE]] + Pages(lines[LINES_PER_PAGE..])
  }

  function Bound(pages: seq<seq<Line>>): seq<Line>
    decreases |pages|
  {
    if pages == [] then [] else pages[0] + Bound(pages[1..])
  }

  /** The pages one after the other are the lines; each is full but the last. */
  lemma {:induction false} PagesHoldLines(lines: seq<Line>)
    ensures Bound(Pages(lines)) == lines
    ensures forall p :: 0 <= p < |Pages(lines)| ==> 0 < |Pages(lines)[p]| <= LINES_PER_PAGE
    ensures forall p :: 0 <= p < |Pages(lines)| - 1 ==> |Pages(lines)[p]| == LINES_PER_PAGE
    ensures lines != [] ==> Pages(lines) != []
    decreases |lines|
  {
    if |lines| > LINES_PER_PAGE {
      PagesHoldLines(lines[LINES_PER_PAGE..]);
      assert Pages(lines)[1..] == Pages(lines[LINES_PER_PAGE..]);
    } else if lines != [] {
      assert Pages(lines)[1..] == [];
    }
  }

  function Least(a: nat, b: nat): nat {
    if a < b then a else b
  }

  lemma NextPage(lines: seq<Line>, start: nat)
    requires start < |lines|
    ensures var end := if start + LINES_PER_PAGE > |lines| then |lines| else start + LINES_PER_PAGE;
            Pages(lines[start..]) == [lines[start..end]] + Pages(lines[end..])
  {
    var rest := lines[start..];
    if |rest| <= LINES_PER_PAGE {
      assert rest == lines[start..|lines|] && lines[|lines|..] == [];
    } else {
      assert rest[LINES_PER_PAGE..] == lines[start + LINES_PER_PAGE..];
      assert rest[..LINES_PER_PAGE] == lines[start..start + LINES_PER_PAGE];
    }
  }

  method Paginate(lines: seq<Line>) returns (pages: seq<seq<Line>>)
    ensures pages == Pages(lines)
  {
    pages := [];
    var start := 0;
    while start < |lines|
      invariant 0 <= start
      invariant pages + Pages(lines[Least(start, |lines|)..]) == Pages(lines)
    {
      var end := start + LINES_PER_PAGE;
      if end > |lines| {
        end := |lines|;
      }
      NextPage(lines, start);
      pages := pages + [lines[start..end]];
      start := start + LINES_PER_PAGE;
    }
  }
}
