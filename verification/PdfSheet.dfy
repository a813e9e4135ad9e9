/**
 * The page-breaking arithmetic of the PDF export: what every sequence of layout commands
 * leaves on paper.
 */
module PdfSheet {

  const MARGIN: int := 48
  const LINE: int := 14

  datatype Style = Normal | Bold

  datatype Mark =
    | Line(text: string, y: int, size: nat, style: Style)
    | Rule(y: int)
    | Footer(caption: string, at: real)

  type Page = seq<Mark>

  /** The pages already left, the page being written, and the cursor on it. */
  datatype Sheet = Sheet(done: seq<Page>, page: Page, y: int) {
    function Pages(): seq<Page> {
      done + [page]
    }
  }

  const EMPTY := Sheet([], [], MARGIN)

  /** How the PDF library cuts a text into lines at a size; its metrics are not modelled. */
  type Splitter = (string, nat, Style) -> seq<string>

  /** The library always returns at least one line. */
  ghost predicate Productive(split: Splitter) {
    forall text, size, style :: |split(text, size, style)| >= 1
  }

  datatype Command =
    | Write(text: string, size: nat, style: Style)
    | Reserve(needed: nat)
    | Skip(gap: nat)
    | Underline

  // --- one step at a time ----------------------------------------------------

  predicate Overflows(height: real, y: int, needed: int) {
    (y + needed) as real > height - MARGIN as real - LINE as real
  }

  /** The lowest whole-point position `y + needed` may reach. */
  function Bottom(height: real): int {
    (height - (MARGIN + LINE) as real).Floor
  }

  lemma OverflowIsPastBottom(height: real, y: int, needed: int)
    ensures Overflows(height, y, needed) <==> y + needed > Bottom(height)
  {}

  function Break(height: real, s: Sheet, needed: int): Sheet {
    if Overflows(height, s.y, needed) then Sheet(s.done + [s.page], [], MARGIN) else s
  }

  function PutLine(height: real, s: Sheet, text: string, size: nat, style: Style): Sheet {
    var t := Break(height, s, LINE);
    Sheet(t.done, t.page + [Line(text, t.y, size, style)], t.y + size + 4)
  }

  function PutLines(height: real, s: Sheet, lines: seq<string>, size: nat, style: Style): Sheet {
    if |lines| == 0 then s
    else
      var last := |lines| - 1;
      PutLine(height, PutLines(height, s, lines[..last], size, style), lines[last], size, style)
  }

  function Step(height: real, split: Splitter, s: Sheet, c: Command): Sheet {
    match c
    case Write(text, size, style) => PutLines(height, s, split(text, size, style), size, style)
    case Reserve(needed) => Break(height, s, needed)
    case Skip(gap) => s.(y := s.y + gap)
    case Underline => s.(page := s.page + [Rule(s.y - 6)])
  }

  function Run(height: real, split: Splitter, s: Sheet, script: seq<Command>): Sheet {
    if |script| == 0 then s
    else
      var last := |script| - 1;
      Step(height, split, Run(height, split, s, script[..last]), script[last])
  }

  lemma RunSnoc(height: real, split: Splitter, s: Sheet, script: seq<Command>, c: Command)
    ensures Run(height, split, s, script + [c]) == Step(height, split, Run(height, split, s, script), c)
  {
    assert (script + [c])[..|script|] == script;
  }

  lemma {:induction false} RunConcat(height: real, split: Splitter, s: Sheet, a: seq<Command>, b: seq<Command>)
    ensures Run(height, split, s, a + b) == Run(height, split, Run(height, split, s, a), b)
  {
    if |b| == 0 {
      assert a + b == a;
    } else {
      var last := |b| - 1;
      assert (a + b)[..|a + b| - 1] == a + b[..last];
      RunConcat(height, split, s, a, b[..last]);
    }
  }

  // --- conservation ----------------------------------------------------------

  /** One printed body line, without its place. */
  datatype Printed = Printed(text: string, size: nat, style: Style)

  function PageBody(page: Page): seq<Printed> {
    if |page| == 0 then []
    else
      var last := |page| - 1;
      PageBody(page[..last]) +
      match page[last] { case Line(text, _, size, style) => [Printed(text, size, style)] case _ => [] }
  }

  /** The body lines of a document, read page by page and down each page. */
  function Body(pages: seq<Page>): seq<Printed> {
    if |pages| == 0 then [] else Body(pages[..|pages| - 1]) + PageBody(pages[|pages| - 1])
  }

  function Printing(lines: seq<string>, size: nat, style: Style): seq<Printed> {
    seq(|lines|, i requires 0 <= i < |lines| => Printed(lines[i], size, style))
  }

  function SpokenBy(split: Splitter, c: Command): seq<Printed> {
    match c
    case Write(text, size, style) => Printing(split(text, size, style), size, style)
    case _ => []
  }

  /** The split lines of everything a script writes, in call order. */
  function Spoken(split: Splitter, script: seq<Command>): seq<Printed> {
    if |script| == 0 then []
    else
      var last := |script| - 1;
      Spoken(split, script[..last]) + SpokenBy(split, script[last])
  }

  lemma BodySnoc(done: seq<Page>, page: Page)
    ensures Body(done + [page]) == Body(done) + PageBody(page)
  {
    assert (done + [page])[..|done|] == done;
  }

  lemma DrawBody(s: Sheet, mark: Mark, y: int)
    ensures Body(Sheet(s.done, s.page + [mark], y).Pages()) ==
            Body(s.Pages()) +
            match mark { case Line(text, _, size, style) => [Printed(text, size, style)] case _ => [] }
  {
    assert (s.page + [mark])[..|s.page|] == s.page;
    BodySnoc(s.done, s.page);
    BodySnoc(s.done, s.page + [mark]);
  }

  lemma BreakKeepsBody(height: real, s: Sheet, needed: int)
    ensures Body(Break(height, s, needed).Pages()) == Body(s.Pages())
  {
    BodySnoc(s.done + [s.page], []);
  }

  lemma PutLineBody(height: real, s: Sheet, text: string, size: nat, style: Style)
    ensures Body(PutLine(height, s, text, size, style).Pages()) == Body(s.Pages()) + [Printed(text, size, style)]
  {
    BreakKeepsBody(height, s, LINE);
    var t := Break(height, s, LINE);
    DrawBody(t, Line(text, t.y, size, style), t.y + size + 4);
  }

  lemma {:induction false} PutLinesBody(height: real, s: Sheet, lines: seq<string>, size: nat, style: Style)
    ensures Body(PutLines(height, s, lines, size, style).Pages()) ==
            Body(s.Pages()) + Printing(lines, size, style)
  {
    if |lines| > 0 {
      var last := |lines| - 1;
      PutLinesBody(height, s, lines[..last], size, style);
      PutLineBody(height, PutLines(height, s, lines[..last], size, style), lines[last], size, style);
      PrintingSnoc(Body(s.Pages()), lines, size, style);
    }
  }

  lemma PrintingSnoc(before: seq<Printed>, lines: seq<string>, size: nat, style: Style)
    requires |lines| > 0
    ensures before + Printing(lines, size, style) ==
            before + Printing(lines[..|lines| - 1], size, style) + [Printed(lines[|lines| - 1], size, style)]
  {}

  lemma StepBody(height: real, split: Splitter, s: Sheet, c: Command)
    ensures Body(Step(height, split, s, c).Pages()) == Body(s.Pages()) + SpokenBy(split, c)
  {
    match c {
      case Write(text, size, style) => PutLinesBody(height, s, split(text, size, style), size, style);
      case Reserve(needed) => BreakKeepsBody(height, s, needed);
      case Skip(_) =>
      case Underline => DrawBody(s, Rule(s.y - 6), s.y);
    }
  }

  /** Every written line is on paper exactly once, in call order, and nothing else is in the body. */
  lemma {:induction false} NothingLostOrRepeated(height: real, split: Splitter, s: Sheet, script: seq<Command>)
    ensures Body(Run(height, split, s, script).Pages()) == Body(s.Pages()) + Spoken(split, script)
  {
    if |script| > 0 {
      var last := |script| - 1;
      NothingLostOrRepeated(height, split, s, script[..last]);
      StepBody(height, split, Run(height, split, s, script[..last]), script[last]);
      Assoc(Body(s.Pages()), Spoken(split, script[..last]), SpokenBy(split, script[last]));
    }
  }

  lemma Assoc<T>(a: seq<T>, b: seq<T>, c: seq<T>)
    ensures a + b + c == a + (b + c)
  {}

  // --- geometry --------------------------------------------------------------

  /** Later lines on a page sit below earlier ones, by at least the earlier size and 4 points. */
  ghost predicate NonOverlapping(page: Page) {
    forall i, j :: 0 <= i < j < |page| && page[i].Line? && page[j].Line? ==>
      page[i].y + page[i].size + 4 <= page[j].y
  }

  ghost predicate Within(page: Page, lowest: int) {
    forall i :: 0 <= i < |page| && page[i].Line? ==> MARGIN <= page[i].y <= lowest
  }

  ghost predicate AboveCursor(page: Page, y: int) {
    forall i :: 0 <= i < |page| && page[i].Line? ==> page[i].y + page[i].size + 4 <= y
  }

  ghost predicate WellPlaced(s: Sheet) {
    && s.y >= MARGIN
    && AboveCursor(s.page, s.y)
    && NonOverlapping(s.page)
    && forall k :: 0 <= k < |s.done| ==> NonOverlapping(s.done[k])
  }

  /** The lowest place a body line can be: room for itself above the page-number strip. */
  function Lowest(height: real): int {
    Bottom(height) - LINE
  }

  ghost predicate InBounds(pages: seq<Page>, lowest: int) {
    forall k :: 0 <= k < |pages| ==> Within(pages[k], lowest)
  }

  lemma PutLineGeometry(height: real, s: Sheet, text: string, size: nat, style: Style)
    requires WellPlaced(s)
    ensures WellPlaced(PutLine(height, s, text, size, style))
    ensures InBounds(s.Pages(), Lowest(height)) && MARGIN <= Lowest(height) ==>
              InBounds(PutLine(height, s, text, size, style).Pages(), Lowest(height))
  {
    OverflowIsPastBottom(height, s.y, LINE);
    var t := Break(height, s, LINE);
    var r := PutLine(height, s, text, size, style);
    if InBounds(s.Pages(), Lowest(height)) && MARGIN <= Lowest(height) {
      assert s.Pages()[|s.done|] == s.page;
      assert Within(t.page, Lowest(height));
      assert Within(r.page, Lowest(height));
      forall k | 0 <= k < |r.Pages()| ensures Within(r.Pages()[k], Lowest(height)) {
        if k < |s.done| { assert r.Pages()[k] == s.Pages()[k]; }
      }
    }
  }

  lemma {:induction false} PutLinesGeometry(height: real, s: Sheet, lines: seq<string>, size: nat, style: Style)
    requires WellPlaced(s)
    ensures WellPlaced(PutLines(height, s, lines, size, style))
    ensures InBounds(s.Pages(), Lowest(height)) && MARGIN <= Lowest(height) ==>
              InBounds(PutLines(height, s, lines, size, style).Pages(), Lowest(height))
  {
    if |lines| > 0 {
      var last := |lines| - 1;
      PutLinesGeometry(height, s, lines[..last], size, style);
      PutLineGeometry(height, PutLines(height, s, lines[..last], size, style), lines[last], size, style);
    }
  }

  lemma StepGeometry(height: real, split: Splitter, s: Sheet, c: Command)
    requires WellPlaced(s)
    ensures WellPlaced(Step(height, split, s, c))
    ensures InBounds(s.Pages(), Lowest(height)) && MARGIN <= Lowest(height) ==>
              InBounds(Step(height, split, s, c).Pages(), Lowest(height))
  {
    match c {
      case Write(text, size, style) =>
        PutLinesGeometry(height, s, split(text, size, style), size, style);
      case Reserve(needed) =>
        assert s.Pages()[|s.done|] == s.page;
      case Skip(_) =>
        assert Step(height, split, s, c).Pages() == s.Pages();
      case Underline =>
        var r := Step(height, split, s, c);
        if InBounds(s.Pages(), Lowest(height)) {
          assert s.Pages()[|s.done|] == s.page;
          forall k | 0 <= k < |r.Pages()| ensures Within(r.Pages()[k], Lowest(height)) {
            if k < |s.done| { assert r.Pages()[k] == s.Pages()[k]; }
          }
        }
    }
  }

  /** On every page of every document, body lines run strictly down the page without overlapping. */
  lemma {:induction false} LinesNeverOverlap(height: real, split: Splitter, script: seq<Command>)
    ensures WellPlaced(Run(height, split, EMPTY, script))
    ensures forall k :: 0 <= k < |Run(height, split, EMPTY, script).Pages()| ==>
              NonOverlapping(Run(height, split, EMPTY, script).Pages()[k])
    ensures MARGIN <= Lowest(height) ==>
              InBounds(Run(height, split, EMPTY, script).Pages(), Lowest(height))
  {
    if |script| > 0 {
      var last := |script| - 1;
      LinesNeverOverlap(height, split, script[..last]);
      StepGeometry(height, split, Run(height, split, EMPTY, script[..last]), script[last]);
    }
  }

  lemma MarginFitsIff(height: real)
    ensures MARGIN <= Lowest(height) <==> height >= 124.0
  {}

  /**
   * Body lines keep clear of the page-number strip on exactly the pages at least 124 points high.
   * On a shorter page every line of every document is too low.
   */
  lemma BodyClearsTheFootIff(height: real, split: Splitter, script: seq<Command>)
    requires |Spoken(split, script)| > 0
    ensures InBounds(Run(height, split, EMPTY, script).Pages(), Lowest(height)) <==> height >= 124.0
  {
    LinesNeverOverlap(height, split, script);
    MarginFitsIff(height);
    var pages := Run(height, split, EMPTY, script).Pages();
    if InBounds(pages, Lowest(height)) {
      NothingLostOrRepeated(height, split, EMPTY, script);
      BodySnoc([], []);
      var k, i := SomeLine(pages);
      assert Within(pages[k], Lowest(height));
    }
  }

  lemma {:induction false} SomeLine(pages: seq<Page>) returns (k: nat, i: nat)
    requires |Body(pages)| > 0
    ensures k < |pages| && i < |pages[k]| && pages[k][i].Line?
  {
    var last := |pages| - 1;
    if |PageBody(pages[last])| > 0 {
      k := last;
      i := SomeLineOnPage(pages[last]);
    } else {
      k, i := SomeLine(pages[..last]);
    }
  }

  lemma {:induction false} SomeLineOnPage(page: Page) returns (i: nat)
    requires |PageBody(page)| > 0
    ensures i < |page| && page[i].Line?
  {
    i := |page| - 1;
    if !page[i].Line? {
      i := SomeLineOnPage(page[..i]);
    }
  }
}
