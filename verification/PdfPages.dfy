/** What page breaks keep together, how many pages they make, and which pages they leave empty. */
module PdfPages {
  import opened Division
  import opened PdfSheet

  /** The page height below which a heading and the line after it do not fit on an empty page. */
  const HEADING_ROOM: real := 152.0

  // --- what is drawn stays where it is ---------------------------------------

  /** `later` only adds to `s`: finished pages are final and the open page only grows. */
  ghost predicate Extends(s: Sheet, later: Sheet) {
    && s.done <= later.done
    && s.page <= later.Pages()[|s.done|]
  }

  lemma ExtendsTransitive(a: Sheet, b: Sheet, c: Sheet)
    requires Extends(a, b) && Extends(b, c)
    ensures Extends(a, c)
  {
    assert b.Pages()[|a.done|] <= c.Pages()[|a.done|];
  }

  lemma {:induction false} PutLinesExtends(height: real, s: Sheet, lines: seq<string>, size: nat, style: Style)
    ensures Extends(s, PutLines(height, s, lines, size, style))
  {
    if |lines| > 0 {
      var last := |lines| - 1;
      var before := PutLines(height, s, lines[..last], size, style);
      PutLinesExtends(height, s, lines[..last], size, style);
      ExtendsTransitive(s, before, PutLine(height, before, lines[last], size, style));
    }
  }

  lemma {:induction false} RunExtends(height: real, split: Splitter, s: Sheet, script: seq<Command>)
    ensures Extends(s, Run(height, split, s, script))
  {
    if |script| > 0 {
      var last := |script| - 1;
      var before := Run(height, split, s, script[..last]);
      RunExtends(height, split, s, script[..last]);
      match script[last] {
        case Write(text, size, style) => PutLinesExtends(height, before, split(text, size, style), size, style);
        case _ =>
      }
      ExtendsTransitive(s, before, Step(height, split, before, script[last]));
    }
  }

  // --- keep with next --------------------------------------------------------

  function Heading(title: string): seq<Command> {
    [Reserve(LINE * 3)] + HeadingBlock(title)
  }

  /** A heading after its room has been reserved. */
  function HeadingBlock(title: string): seq<Command> {
    [Skip(8), Write(title, 12, Bold), Underline, Skip(4)]
  }

  /** The sheet once a heading's block has been drawn, from the sheet left by its reservation. */
  function HeadingDrawn(height: real, split: Splitter, reserved: Sheet, title: string): Sheet {
    var t := PutLines(height, reserved.(y := reserved.y + 8), split(title, 12, Bold), 12, Bold);
    Sheet(t.done, t.page + [Rule(t.y - 6)], t.y + 4)
  }

  lemma HeadingDrawnIsRun(height: real, split: Splitter, s: Sheet, title: string)
    ensures Run(height, split, s, HeadingBlock(title)) == HeadingDrawn(height, split, s, title)
    ensures Run(height, split, s, Heading(title)) ==
            HeadingDrawn(height, split, Break(height, s, LINE * 3), title)
  {
    BlockRun(height, split, s, title);
    RunConcat(height, split, s, [Reserve(LINE * 3)], HeadingBlock(title));
    RunSnoc(height, split, s, [], Reserve(LINE * 3));
    BlockRun(height, split, Break(height, s, LINE * 3), title);
  }

  lemma BlockRun(height: real, split: Splitter, s: Sheet, title: string)
    ensures Run(height, split, s, HeadingBlock(title)) == HeadingDrawn(height, split, s, title)
  {
    var a: seq<Command> := [];
    var b := a + [Skip(8)];
    var c := b + [Write(title, 12, Bold)];
    var d := c + [Underline];
    RunSnoc(height, split, s, a, Skip(8));
    RunSnoc(height, split, s, b, Write(title, 12, Bold));
    RunSnoc(height, split, s, c, Underline);
    RunSnoc(height, split, s, d, Skip(4));
    assert HeadingBlock(title) == d + [Skip(4)];
  }

  /** A run of equal lines stays on its page exactly when the last of them still fits. */
  lemma {:induction false} StaysIff(height: real, s: Sheet, lines: seq<string>, size: nat, style: Style)
    ensures var r := PutLines(height, s, lines, size, style);
            var n := |lines|;
            && |s.done| <= |r.done|
            && (|r.done| == |s.done| <==> n == 0 || s.y + (n - 1) * (size + 4) + LINE <= Bottom(height))
            && (|r.done| == |s.done| ==> r.done == s.done && r.y == s.y + n * (size + 4))
  {
    if |lines| > 0 {
      var last := |lines| - 1;
      StaysIff(height, s, lines[..last], size, style);
      var before := PutLines(height, s, lines[..last], size, style);
      OverflowIsPastBottom(height, before.y, LINE);
      NextMultiple(last, size + 4);
    }
  }

  /**
   * A heading of `n` lines, its rule and the first line after it share a page exactly when
   * `16 n + 26` points are left where the heading starts.
   */
  lemma HeadingKeptIff(height: real, split: Splitter, reserved: Sheet, title: string,
                       next: string, size: nat, style: Style)
    requires |split(title, 12, Bold)| >= 1
    ensures var r := PutLine(height, HeadingDrawn(height, split, reserved, title), next, size, style);
            |r.done| == |reserved.done| <==>
            reserved.y + 16 * |split(title, 12, Bold)| + 26 <= Bottom(height)
  {
    var lines := split(title, 12, Bold);
    StaysIff(height, reserved.(y := reserved.y + 8), lines, 12, Bold);
    var drawn := HeadingDrawn(height, split, reserved, title);
    OverflowIsPastBottom(height, drawn.y, LINE);
  }

  /** The three-line reservation is exactly what a one-line heading needs, on any page that has it. */
  lemma OneLineHeadingKeptIff(height: real, split: Splitter, s: Sheet, title: string,
                              next: string, size: nat, style: Style)
    requires s.y >= MARGIN && |split(title, 12, Bold)| == 1
    ensures var reserved := Break(height, s, LINE * 3);
            var r := PutLine(height, HeadingDrawn(height, split, reserved, title), next, size, style);
            |r.done| == |reserved.done| <==> height >= HEADING_ROOM
  {
    var reserved := Break(height, s, LINE * 3);
    OverflowIsPastBottom(height, s.y, LINE * 3);
    HeadingKeptIff(height, split, reserved, title, next, size, style);
  }

  /** What a kept heading looks like. */
  function KeptMarks(y: int, title: string, next: string, size: nat, style: Style): seq<Mark> {
    [Line(title, y + 8, 12, Bold), Rule(y + 18), Line(next, y + 28, size, style)]
  }

  lemma KeptHeadingMarks(height: real, split: Splitter, s: Sheet, title: string,
                         next: string, size: nat, style: Style)
    requires s.y >= MARGIN && |split(title, 12, Bold)| == 1 && height >= HEADING_ROOM
    ensures var reserved := Break(height, s, LINE * 3);
            var r := PutLine(height, HeadingDrawn(height, split, reserved, title), next, size, style);
            r.page == reserved.page + KeptMarks(reserved.y, split(title, 12, Bold)[0], next, size, style)
  {
    var reserved := Break(height, s, LINE * 3);
    OverflowIsPastBottom(height, s.y, LINE * 3);
    var lines := split(title, 12, Bold);
    var start := reserved.(y := reserved.y + 8);
    assert lines[..0] == [];
    OverflowIsPastBottom(height, start.y, LINE);
    assert PutLines(height, start, lines, 12, Bold) == PutLine(height, start, lines[0], 12, Bold);
    var drawn := HeadingDrawn(height, split, reserved, title);
    OverflowIsPastBottom(height, drawn.y, LINE);
  }

  /** Lines of one size as they stand when no page is turned between them. */
  function LineMarks(y: int, lines: seq<string>, size: nat, style: Style): seq<Mark> {
    seq(|lines|, i requires 0 <= i < |lines| => Line(lines[i], y + i * (size + 4), size, style))
  }

  /** A heading of several lines, its rule and the first line after it. */
  function KeptLines(y: int, title: seq<string>, next: string, size: nat, style: Style): seq<Mark> {
    LineMarks(y + 8, title, 12, Bold)
    + [Rule(y + 2 + 16 * |title|), Line(next, y + 12 + 16 * |title|, size, style)]
  }

  lemma {:induction false} StayingMarks(height: real, s: Sheet, lines: seq<string>, size: nat, style: Style)
    requires |lines| == 0 || s.y + (|lines| - 1) * (size + 4) + LINE <= Bottom(height)
    ensures PutLines(height, s, lines, size, style) ==
            Sheet(s.done, s.page + LineMarks(s.y, lines, size, style), s.y + |lines| * (size + 4))
  {
    if |lines| > 0 {
      var last := |lines| - 1;
      NextMultiple(last, size + 4);
      if last > 0 { NextMultiple(last - 1, size + 4); }
      StayingMarks(height, s, lines[..last], size, style);
      OverflowIsPastBottom(height, s.y + last * (size + 4), LINE);
      LineMarksSnoc(s.page, s.y, lines, size, style);
    }
  }

  lemma LineMarksSnoc(page: Page, y: int, lines: seq<string>, size: nat, style: Style)
    requires |lines| > 0
    ensures var last := |lines| - 1;
            page + LineMarks(y, lines[..last], size, style) + [Line(lines[last], y + last * (size + 4), size, style)]
            == page + LineMarks(y, lines, size, style)
  {}

  lemma KeptHeadingLines(height: real, split: Splitter, reserved: Sheet, title: string,
                         next: string, size: nat, style: Style)
    requires |split(title, 12, Bold)| >= 1
    requires reserved.y + 16 * |split(title, 12, Bold)| + 26 <= Bottom(height)
    ensures var r := PutLine(height, HeadingDrawn(height, split, reserved, title), next, size, style);
            r.page == reserved.page + KeptLines(reserved.y, split(title, 12, Bold), next, size, style)
  {
    var lines := split(title, 12, Bold);
    StayingMarks(height, reserved.(y := reserved.y + 8), lines, 12, Bold);
    OverflowIsPastBottom(height, HeadingDrawn(height, split, reserved, title).y, LINE);
  }

  /**
   * After a reservation of its own, a heading of any number of lines that it covers is kept with its
   * rule and the first line of the text that follows, on every page that has that much room.
   */
  lemma ReservedHeadingKept(height: real, split: Splitter, before: seq<Command>, room: nat, title: string,
                            text: string, size: nat, style: Style, after: seq<Command>)
    requires Productive(split) && room >= LINE * 3 && MARGIN + room <= Bottom(height)
    requires 16 * |split(title, 12, Bold)| + 26 <= room
    ensures var script := before + [Reserve(room)] + Heading(title) + [Write(text, size, style)] + after;
            exists y :: Together(Run(height, split, EMPTY, script).Pages(),
                                 KeptLines(y, split(title, 12, Bold), split(text, size, style)[0], size, style))
  {
    var s := Run(height, split, EMPTY, before);
    var reserved := Break(height, s, room);
    LinesNeverOverlap(height, split, before);
    OverflowIsPastBottom(height, s.y, room);
    OverflowIsPastBottom(height, reserved.y, LINE * 3);
    RunSnoc(height, split, EMPTY, before, Reserve(room));
    RunConcat(height, split, EMPTY, before + [Reserve(room)], Heading(title));
    HeadingDrawnIsRun(height, split, reserved, title);
    var drawn := HeadingDrawn(height, split, reserved, title);
    WrittenAfterDrawn(height, split, before + [Reserve(room)] + Heading(title), drawn, text, size, style, after);
    var first := PutLine(height, drawn, split(text, size, style)[0], size, style);
    KeptHeadingLines(height, split, reserved, title, split(text, size, style)[0], size, style);
    MarksSurvive(first, Run(height, split, EMPTY, before + [Reserve(room)] + Heading(title)
                                                  + [Write(text, size, style)] + after),
                 reserved.page,
                 KeptLines(reserved.y, split(title, 12, Bold), split(text, size, style)[0], size, style));
  }

  /** What a text and everything after it add to the sheet its first line is on. */
  lemma WrittenAfterDrawn(height: real, split: Splitter, script: seq<Command>, drawn: Sheet,
                          text: string, size: nat, style: Style, after: seq<Command>)
    requires Productive(split) && Run(height, split, EMPTY, script) == drawn
    ensures Extends(PutLine(height, drawn, split(text, size, style)[0], size, style),
                    Run(height, split, EMPTY, script + [Write(text, size, style)] + after))
  {
    var lines := split(text, size, style);
    var first := PutLine(height, drawn, lines[0], size, style);
    var written := PutLines(height, drawn, lines, size, style);
    RunSnoc(height, split, EMPTY, script, Write(text, size, style));
    RunConcat(height, split, EMPTY, script + [Write(text, size, style)], after);
    FirstThenRest(height, drawn, lines, size, style);
    PutLinesExtends(height, first, lines[1..], size, style);
    RunExtends(height, split, written, after);
    ExtendsTransitive(first, written, Run(height, split, EMPTY, script + [Write(text, size, style)] + after));
  }

  /** Three consecutive marks somewhere on one page of a document. */
  ghost predicate Together(pages: seq<Page>, marks: seq<Mark>) {
    exists k, i :: 0 <= k < |pages| && OnPage(pages[k], i, marks)
  }

  ghost predicate OnPage(page: Page, i: int, marks: seq<Mark>) {
    0 <= i <= i + |marks| <= |page| && page[i..i + |marks|] == marks
  }

  /**
   * In any document with such a heading, wherever it falls and whatever comes before and after,
   * the heading, its rule and the first line of the text that follows it end up together.
   */
  lemma HeadingKeptInDocument(height: real, split: Splitter, before: seq<Command>, title: string,
                              text: string, size: nat, style: Style, after: seq<Command>)
    requires height >= HEADING_ROOM && Productive(split) && |split(title, 12, Bold)| == 1
    ensures var script := before + Heading(title) + [Write(text, size, style)] + after;
            exists y :: Together(Run(height, split, EMPTY, script).Pages(),
                         KeptMarks(y, split(title, 12, Bold)[0], split(text, size, style)[0], size, style))
  {
    var lines := split(text, size, style);
    var s := Run(height, split, EMPTY, before);
    LinesNeverOverlap(height, split, before);
    RunConcat(height, split, EMPTY, before, Heading(title));
    HeadingDrawnIsRun(height, split, s, title);
    var reserved := Break(height, s, LINE * 3);
    var drawn := HeadingDrawn(height, split, reserved, title);
    var first := PutLine(height, drawn, lines[0], size, style);
    KeptHeadingMarks(height, split, s, title, lines[0], size, style);
    var marks := KeptMarks(reserved.y, split(title, 12, Bold)[0], lines[0], size, style);

    var written := PutLines(height, drawn, lines, size, style);
    FirstThenRest(height, drawn, lines, size, style);
    PutLinesExtends(height, first, lines[1..], size, style);
    RunSnoc(height, split, EMPTY, before + Heading(title), Write(text, size, style));
    var script := before + Heading(title) + [Write(text, size, style)];
    RunConcat(height, split, EMPTY, script, after);
    RunExtends(height, split, written, after);
    var final := Run(height, split, EMPTY, script + after);
    ExtendsTransitive(first, written, final);
    MarksSurvive(first, final, reserved.page, marks);
  }

  lemma MarksSurvive(s: Sheet, later: Sheet, head: Page, marks: seq<Mark>)
    requires Extends(s, later) && s.page == head + marks
    ensures Together(later.Pages(), marks)
  {
    MarksStay(s, later, head, marks);
  }

  lemma {:induction false} FirstThenRest(height: real, s: Sheet, lines: seq<string>, size: nat, style: Style)
    requires |lines| > 0
    ensures PutLines(height, s, lines, size, style) ==
            PutLines(height, PutLine(height, s, lines[0], size, style), lines[1..], size, style)
  {
    var last := |lines| - 1;
    if last == 0 {
      assert lines[..0] == [];
    } else {
      FirstThenRest(height, s, lines[..last], size, style);
      assert lines[..last][1..] == lines[1..][..last - 1];
    }
  }

  /**
   * The strategy heading is the exception: its first side reserves four lines of its own, so the
   * two share a page only where 84 points are left, twice what the heading itself asks for.
   */
  lemma StrategyHeadingKeptIff(height: real, split: Splitter, reserved: Sheet, title: string,
                               side: string, size: nat, style: Style)
    requires |split(title, 12, Bold)| == 1 && reserved.y >= MARGIN && height >= HEADING_ROOM
    requires reserved.y + LINE * 3 <= Bottom(height)
    ensures var drawn := HeadingDrawn(height, split, reserved, title);
            var r := PutLine(height, Break(height, drawn, LINE * 4), side, size, style);
            |r.done| == |reserved.done| <==> reserved.y + 84 <= Bottom(height)
  {
    var lines := split(title, 12, Bold);
    StaysIff(height, reserved.(y := reserved.y + 8), lines, 12, Bold);
    var drawn := HeadingDrawn(height, split, reserved, title);
    OverflowIsPastBottom(height, drawn.y, LINE * 4);
    OverflowIsPastBottom(height, Break(height, drawn, LINE * 4).y, LINE);
  }

  lemma HeadingDrawnOne(height: real, split: Splitter, reserved: Sheet, title: string)
    requires |split(title, 12, Bold)| == 1 && reserved.y + LINE * 3 <= Bottom(height)
    ensures HeadingDrawn(height, split, reserved, title) ==
            Sheet(reserved.done,
                  reserved.page + [Line(split(title, 12, Bold)[0], reserved.y + 8, 12, Bold), Rule(reserved.y + 18)],
                  reserved.y + 28)
  {
    var lines, start := split(title, 12, Bold), reserved.(y := reserved.y + 8);
    assert lines[..0] == [];
    OverflowIsPastBottom(height, start.y, LINE);
    assert PutLines(height, start, lines, 12, Bold) == PutLine(height, start, lines[0], 12, Bold);
  }

  /**
   * In a finished document: where such a heading has 84 points it stands with its side's first line;
   * where it has less, it ends its page and the side opens the next.
   */
  lemma HeadingThenReservation(height: real, split: Splitter, before: seq<Command>, title: string,
                               side: string, size: nat, style: Style, after: seq<Command>)
    requires height >= HEADING_ROOM && Productive(split) && |split(title, 12, Bold)| == 1
    ensures var s := Break(height, Run(height, split, EMPTY, before), LINE * 3);
            var script := before + Heading(title) + [Reserve(LINE * 4)] + [Write(side, size, style)] + after;
            var pages := Run(height, split, EMPTY, script).Pages();
            var head, first := split(title, 12, Bold)[0], split(side, size, style)[0];
            Placed(height, pages, s, head, first, size, style)
  {
    var s := Break(height, Run(height, split, EMPTY, before), LINE * 3);
    LinesNeverOverlap(height, split, before);
    OverflowIsPastBottom(height, Run(height, split, EMPTY, before).y, LINE * 3);
    RunConcat(height, split, EMPTY, before, Heading(title));
    HeadingDrawnIsRun(height, split, Run(height, split, EMPTY, before), title);
    HeadingDrawnOne(height, split, s, title);
    var drawn := HeadingDrawn(height, split, s, title);
    var lines := split(side, size, style);
    var held := Break(height, drawn, LINE * 4);
    var first := PutLine(height, held, lines[0], size, style);
    var written := PutLines(height, held, lines, size, style);
    RunSnoc(height, split, EMPTY, before + Heading(title), Reserve(LINE * 4));
    RunSnoc(height, split, EMPTY, before + Heading(title) + [Reserve(LINE * 4)], Write(side, size, style));
    FirstThenRest(height, held, lines, size, style);
    PutLinesExtends(height, first, lines[1..], size, style);
    var script := before + Heading(title) + [Reserve(LINE * 4)] + [Write(side, size, style)];
    RunConcat(height, split, EMPTY, script, after);
    RunExtends(height, split, written, after);
    var final := Run(height, split, EMPTY, script + after);
    ExtendsTransitive(first, written, final);
    PlacedFinally(height, s, drawn, first, final, split(title, 12, Bold)[0], lines[0], size, style);
  }

  /** A heading drawn from `s`, and the line after the reservation that follows it. */
  ghost predicate Placed(height: real, pages: seq<Page>, s: Sheet, head: string, first: string,
                         size: nat, style: Style)
  {
    && |s.done| < |pages|
    && var page := pages[|s.done|];
       if s.y + 84 <= Bottom(height) then OnPage(page, |s.page|, KeptMarks(s.y, head, first, size, style))
       else
         && page == s.page + [Line(head, s.y + 8, 12, Bold), Rule(s.y + 18)]
         && |s.done| + 1 < |pages|
         && OnPage(pages[|s.done| + 1], 0, [Line(first, MARGIN, size, style)])
  }

  lemma PlacedFinally(height: real, s: Sheet, drawn: Sheet, first: Sheet, final: Sheet,
                      head: string, text: string, size: nat, style: Style)
    requires height >= HEADING_ROOM && s.y >= MARGIN
    requires drawn == Sheet(s.done, s.page + [Line(head, s.y + 8, 12, Bold), Rule(s.y + 18)], s.y + 28)
    requires first == PutLine(height, Break(height, drawn, LINE * 4), text, size, style) && Extends(first, final)
    ensures Placed(height, final.Pages(), s, head, text, size, style)
  {
    OverflowIsPastBottom(height, drawn.y, LINE * 4);
    OverflowIsPastBottom(height, Break(height, drawn, LINE * 4).y, LINE);
    if s.y + 84 <= Bottom(height) {
      assert first.page == s.page + KeptMarks(s.y, head, text, size, style);
      MarksStay(first, final, s.page, KeptMarks(s.y, head, text, size, style));
    } else {
      assert first.done == s.done + [drawn.page];
      assert final.Pages()[|s.done|] == first.done[|s.done|];
      assert first.page == [] + [Line(text, MARGIN, size, style)];
      MarksStay(first, final, [], [Line(text, MARGIN, size, style)]);
    }
  }

  lemma MarksStay(s: Sheet, later: Sheet, head: Page, marks: seq<Mark>)
    requires Extends(s, later) && s.page == head + marks
    ensures OnPage(later.Pages()[|s.done|], |head|, marks)
  {
    var page := later.Pages()[|s.done|];
    assert page[..|s.page|] == s.page;
    assert page[|head|..|head| + |marks|] == page[..|s.page|][|head|..] == marks;
  }

  // --- how far down a page ---------------------------------------------------

  /** How far one command moves the cursor when it turns no page. */
  function Move(split: Splitter, c: Command): nat {
    match c
    case Write(text, size, style) => |split(text, size, style)| * (size + 4)
    case Reserve(_) => 0
    case Skip(gap) => gap
    case Underline => 0
  }

  function Advance(split: Splitter, script: seq<Command>): nat {
    if |script| == 0 then 0
    else Advance(split, script[..|script| - 1]) + Move(split, script[|script| - 1])
  }

  lemma {:induction false} AdvanceConcat(split: Splitter, a: seq<Command>, b: seq<Command>)
    ensures Advance(split, a + b) == Advance(split, a) + Advance(split, b)
  {
    if |b| == 0 {
      assert a + b == a;
    } else {
      assert (a + b)[..|a + b| - 1] == a + b[..|b| - 1];
      AdvanceConcat(split, a, b[..|b| - 1]);
    }
  }

  lemma AdvanceOne(split: Splitter, c: Command)
    ensures Advance(split, [c]) == Move(split, c)
  {
    assert [c][..0] == [];
  }

  ghost predicate ReservesUpTo(script: seq<Command>, room: nat) {
    forall i :: 0 <= i < |script| && script[i].Reserve? ==> script[i].needed <= room
  }

  lemma WriteStays(height: real, s: Sheet, lines: seq<string>, size: nat, style: Style)
    requires s.y + |lines| * (size + 4) + LINE <= Bottom(height)
    ensures var r := PutLines(height, s, lines, size, style);
            r.done == s.done && r.y == s.y + |lines| * (size + 4)
  {
    NextMultiple(|lines| - 1, size + 4);
    StaysIff(height, s, lines, size, style);
  }

  /** A script that leaves `room` at its end, and never asks for more, turns no page on its way. */
  lemma {:induction false} ScriptStays(height: real, split: Splitter, s: Sheet, script: seq<Command>, room: nat)
    requires ReservesUpTo(script, room) && room >= LINE
    requires s.y + Advance(split, script) + room <= Bottom(height)
    ensures Run(height, split, s, script).done == s.done
    ensures Run(height, split, s, script).y == s.y + Advance(split, script)
  {
    if |script| > 0 {
      var last := |script| - 1;
      var before := Run(height, split, s, script[..last]);
      ScriptStays(height, split, s, script[..last], room);
      match script[last] {
        case Write(text, size, style) => WriteStays(height, before, split(text, size, style), size, style);
        case Reserve(needed) => OverflowIsPastBottom(height, before.y, needed);
        case _ =>
      }
    }
  }

  // --- pages without a body line ---------------------------------------------

  ghost predicate HasLine(page: Page) {
    exists i :: 0 <= i < |page| && page[i].Line?
  }

  ghost predicate NoneBlank(pages: seq<Page>) {
    forall k :: 0 <= k < |pages| ==> HasLine(pages[k])
  }

  /** Whether the open page is sure to have a line, or how far the cursor may be down an empty one. */
  datatype Lull = Spoke | Silent(gap: nat)

  function Next(lull: Lull, c: Command): Lull {
    match c
    case Write(_, _, _) => Spoke
    case Reserve(_) => if lull.Spoke? then Silent(0) else lull
    case Skip(gap) => if lull.Silent? then Silent(lull.gap + gap) else lull
    case Underline => lull
  }

  function After(lull: Lull, script: seq<Command>): Lull {
    if |script| == 0 then lull else Next(After(lull, script[..|script| - 1]), script[|script| - 1])
  }

  predicate Fits(lull: Lull, c: Command, room: nat) {
    match c
    case Write(_, _, _) => lull.Silent? ==> lull.gap + LINE <= room
    case Reserve(needed) => lull.Silent? ==> lull.gap + needed <= room
    case _ => true
  }

  /** On an empty page with `room` points, no command of the script asks for more than is left. */
  predicate Roomy(lull: Lull, script: seq<Command>, room: nat) {
    |script| == 0 ||
    (Roomy(lull, script[..|script| - 1], room) &&
     Fits(After(lull, script[..|script| - 1]), script[|script| - 1], room))
  }

  lemma {:induction false} RoomyConcat(lull: Lull, a: seq<Command>, b: seq<Command>, room: nat)
    ensures After(lull, a + b) == After(After(lull, a), b)
    ensures Roomy(lull, a + b, room) <==> Roomy(lull, a, room) && Roomy(After(lull, a), b, room)
  {
    if |b| == 0 {
      assert a + b == a;
    } else {
      assert (a + b)[..|a + b| - 1] == a + b[..|b| - 1];
      RoomyConcat(lull, a, b[..|b| - 1], room);
    }
  }

  /** The state the analysis promises: nothing blank left behind, and the lull is truthful. */
  ghost predicate Honest(s: Sheet, lull: Lull) {
    && NoneBlank(s.done)
    && (HasLine(s.page) || (lull.Silent? && s.y <= MARGIN + lull.gap))
  }

  lemma PutLineHonest(height: real, s: Sheet, text: string, size: nat, style: Style)
    requires NoneBlank(s.done) && (HasLine(s.page) || s.y + LINE <= Bottom(height))
    ensures Honest(PutLine(height, s, text, size, style), Spoke)
  {
    OverflowIsPastBottom(height, s.y, LINE);
    var r := PutLine(height, s, text, size, style);
    assert r.page[|r.page| - 1].Line?;
  }

  lemma {:induction false} PutLinesHonest(height: real, s: Sheet, lines: seq<string>, size: nat, style: Style)
    requires NoneBlank(s.done) && (HasLine(s.page) || s.y + LINE <= Bottom(height))
    requires |lines| > 0
    ensures Honest(PutLines(height, s, lines, size, style), Spoke)
  {
    var last := |lines| - 1;
    if last == 0 {
      assert lines[..0] == [];
      PutLineHonest(height, s, lines[0], size, style);
    } else {
      PutLinesHonest(height, s, lines[..last], size, style);
      PutLineHonest(height, PutLines(height, s, lines[..last], size, style), lines[last], size, style);
    }
  }

  lemma StepHonest(height: real, split: Splitter, s: Sheet, c: Command, lull: Lull, room: nat)
    requires Productive(split) && MARGIN + room <= Bottom(height)
    requires Honest(s, lull) && Fits(lull, c, room)
    ensures Honest(Step(height, split, s, c), Next(lull, c))
  {
    match c {
      case Write(text, size, style) =>
        PutLinesHonest(height, s, split(text, size, style), size, style);
      case Reserve(needed) =>
        OverflowIsPastBottom(height, s.y, needed);
      case Skip(_) =>
      case Underline =>
        if HasLine(s.page) {
          var i :| 0 <= i < |s.page| && s.page[i].Line?;
          assert (s.page + [Rule(s.y - 6)])[i].Line?;
        }
    }
  }

  /** A roomy script leaves no page without a body line. */
  lemma {:induction false} RoomyLeavesNoBlank(height: real, split: Splitter, script: seq<Command>, room: nat)
    requires Productive(split) && MARGIN + room <= Bottom(height)
    requires Roomy(Silent(0), script, room)
    ensures Honest(Run(height, split, EMPTY, script), After(Silent(0), script))
  {
    if |script| > 0 {
      var last := |script| - 1;
      RoomyLeavesNoBlank(height, split, script[..last], room);
      StepHonest(height, split, Run(height, split, EMPTY, script[..last]), script[last],
                 After(Silent(0), script[..last]), room);
    }
  }

  // --- how many pages --------------------------------------------------------

  /** How many lines of a size an empty page takes. */
  function PerPage(height: real, size: nat): nat
    requires height >= 124.0
  {
    (Bottom(height) - MARGIN - LINE) / (size + 4) + 1
  }

  lemma A4Holds33()
    ensures PerPage(841.89, 18) == 33
  {}

  /** The next line of a size fits after `r + 1` of them exactly when the page takes more than that. */
  lemma FitsWhileUnderPerPage(height: real, size: nat, r: nat)
    requires height >= 124.0
    ensures MARGIN + (r + 1) * (size + 4) + LINE <= Bottom(height) <==> r + 1 < PerPage(height, size)
  {
    var spare, pitch := Bottom(height) - MARGIN - LINE, size + 4;
    DivideIff(spare, pitch, r + 1);
  }

  /** `n` equal lines from the top of a page fill exactly `1 + (n - 1) / k` pages. */
  lemma {:induction false} UniformCount(height: real, s: Sheet, lines: seq<string>, size: nat, style: Style)
    requires height >= 124.0 && s.page == [] && s.y == MARGIN && |lines| > 0
    ensures var k := PerPage(height, size);
            var r := PutLines(height, s, lines, size, style);
            var n := |lines|;
            && |r.done| == |s.done| + (n - 1) / k
            && |r.page| == (n - 1) % k + 1
            && r.y == MARGIN + ((n - 1) % k + 1) * (size + 4)
  {
    var k := PerPage(height, size);
    var last := |lines| - 1;
    if last == 0 {
      assert lines[..0] == [];
      OverflowIsPastBottom(height, s.y, LINE);
      QuotientStep(0, k);
    } else {
      UniformCount(height, s, lines[..last], size, style);
      UniformStep(height, PutLines(height, s, lines[..last], size, style), (last - 1) % k, lines[last], size, style);
      QuotientStep(last, k);
    }
  }

  /** One more line of a size on a page that has `m + 1` of them already. */
  lemma UniformStep(height: real, s: Sheet, m: nat, text: string, size: nat, style: Style)
    requires height >= 124.0 && |s.page| == m + 1 && s.y == MARGIN + (m + 1) * (size + 4)
    ensures var r := PutLine(height, s, text, size, style);
            if m + 1 < PerPage(height, size)
            then |r.done| == |s.done| && |r.page| == m + 2 && r.y == MARGIN + (m + 2) * (size + 4)
            else |r.done| == |s.done| + 1 && |r.page| == 1 && r.y == MARGIN + (size + 4)
  {
    OverflowIsPastBottom(height, s.y, LINE);
    FitsWhileUnderPerPage(height, size, m);
    NextMultiple(m + 1, size + 4);
  }

  /** The closed form of such a run: line `i` is line `i % k` of page `i / k`. */
  lemma {:induction false} UniformPlace(height: real, s: Sheet, lines: seq<string>, size: nat, style: Style, i: nat)
    requires height >= 124.0 && s.page == [] && s.y == MARGIN && i < |lines|
    ensures var k := PerPage(height, size);
            PlacedAt(PutLines(height, s, lines, size, style).Pages(), |s.done| + i / k, i % k,
                     Line(lines[i], MARGIN + (i % k) * (size + 4), size, style))
  {
    var k := PerPage(height, size);
    var last := |lines| - 1;
    var before := PutLines(height, s, lines[..last], size, style);
    var r := PutLine(height, before, lines[last], size, style);
    if i == last {
      UniformCount(height, s, lines, size, style);
      NextMultiple(i % k, size + 4);
      assert r.page[|r.page| - 1] == r.Pages()[|r.done|][i % k];
    } else {
      UniformPlace(height, s, lines[..last], size, style, i);
      assert Extends(before, r);
      assert lines[..last][i] == lines[i];
      PlaceSurvives(before, r, |s.done| + i / k, i % k,
                    Line(lines[i], MARGIN + (i % k) * (size + 4), size, style));
    }
  }

  lemma PlaceSurvives(s: Sheet, later: Sheet, page: int, at: int, mark: Mark)
    requires Extends(s, later) && PlacedAt(s.Pages(), page, at, mark)
    ensures PlacedAt(later.Pages(), page, at, mark)
  {
    if page < |s.done| {
      assert later.done[page] == s.done[page];
    } else {
      assert later.Pages()[|s.done|][..|s.page|] == s.page;
    }
  }

  ghost predicate PlacedAt(pages: seq<Page>, page: int, at: int, mark: Mark) {
    0 <= page < |pages| && 0 <= at < |pages[page]| && pages[page][at] == mark
  }

  /** A page holding only lines, each with at most `size`: `m` of them reach no lower than this. */
  ghost predicate Packed(s: Sheet, size: nat, k: nat) {
    && s.y <= MARGIN + |s.page| * (size + 4)
    && forall p :: 0 <= p < |s.done| ==> |s.done[p]| >= k
  }

  lemma {:induction false} PutLinesPacked(height: real, s: Sheet, lines: seq<string>, size: nat, style: Style,
                                          largest: nat)
    requires height >= 124.0 && size <= largest && Packed(s, largest, PerPage(height, largest))
    ensures var r := PutLines(height, s, lines, size, style);
            && Packed(r, largest, PerPage(height, largest))
            && Total(r.Pages()) == Total(s.Pages()) + |lines|
            && (|lines| > 0 ==> |r.page| > 0)
  {
    if |lines| > 0 {
      var last := |lines| - 1;
      PutLinesPacked(height, s, lines[..last], size, style, largest);
      PutLinePacked(height, PutLines(height, s, lines[..last], size, style), lines[last], size, style, largest);
    }
  }

  lemma BreakPacked(height: real, s: Sheet, largest: nat)
    requires height >= 124.0 && Packed(s, largest, PerPage(height, largest))
    ensures Packed(Break(height, s, LINE), largest, PerPage(height, largest))
    ensures Total(Break(height, s, LINE).Pages()) == Total(s.Pages())
  {
    OverflowIsPastBottom(height, s.y, LINE);
    if Overflows(height, s.y, LINE) {
      assert |s.page| > 0;
      FitsWhileUnderPerPage(height, largest, |s.page| - 1);
      TotalSnoc(s.done + [s.page], []);
    }
  }

  lemma PutLinePacked(height: real, s: Sheet, text: string, size: nat, style: Style, largest: nat)
    requires height >= 124.0 && size <= largest && Packed(s, largest, PerPage(height, largest))
    ensures var r := PutLine(height, s, text, size, style);
            && Packed(r, largest, PerPage(height, largest))
            && Total(r.Pages()) == Total(s.Pages()) + 1
            && |r.page| > 0
  {
    BreakPacked(height, s, largest);
    var t := Break(height, s, LINE);
    NextMultiple(|t.page|, largest + 4);
    TotalSnoc(t.done, t.page);
    TotalSnoc(t.done, t.page + [Line(text, t.y, size, style)]);
  }

  function Total(pages: seq<Page>): nat {
    if |pages| == 0 then 0 else Total(pages[..|pages| - 1]) + |pages[|pages| - 1]|
  }

  lemma TotalSnoc(done: seq<Page>, page: Page)
    ensures Total(done + [page]) == Total(done) + |page|
  {
    assert (done + [page])[..|done|] == done;
  }

  lemma {:induction false} TotalAtLeast(pages: seq<Page>, k: nat)
    requires forall p :: 0 <= p < |pages| ==> |pages[p]| >= k
    ensures Total(pages) >= |pages| * k
  {
    if |pages| > 0 {
      TotalAtLeast(pages[..|pages| - 1], k);
      NextMultiple(|pages| - 1, k);
    }
  }

  ghost predicate WritesUpTo(script: seq<Command>, largest: nat) {
    forall i :: 0 <= i < |script| ==> script[i].Write? && script[i].size <= largest
  }

  lemma {:induction false} WritesPacked(height: real, split: Splitter, script: seq<Command>, largest: nat)
    requires height >= 124.0 && Productive(split) && WritesUpTo(script, largest)
    ensures var r := Run(height, split, EMPTY, script);
            && Packed(r, largest, PerPage(height, largest))
            && Total(r.Pages()) == |Spoken(split, script)|
            && (|script| > 0 ==> |r.page| > 0)
  {
    if |script| == 0 {
      assert EMPTY.Pages() == [[]];
    } else {
      var last := |script| - 1;
      WritesPacked(height, split, script[..last], largest);
      var c := script[last];
      PutLinesPacked(height, Run(height, split, EMPTY, script[..last]),
                     split(c.text, c.size, c.style), c.size, c.style, largest);
    }
  }

  /** `lines` lines, of which there are some, on at most `1 + (lines - 1) / k` pages. */
  predicate Bounded(pages: nat, lines: nat, k: nat) {
    k > 0 && lines > 0 && pages <= 1 + (lines - 1) / k
  }

  /** `n` written lines of at most a size need at most `1 + (n - 1) / k` pages. */
  lemma PageCountBound(height: real, split: Splitter, script: seq<Command>, largest: nat)
    requires height >= 124.0 && Productive(split) && WritesUpTo(script, largest) && |script| > 0
    ensures Bounded(|Run(height, split, EMPTY, script).Pages()|, |Spoken(split, script)|, PerPage(height, largest))
  {
    WritesPacked(height, split, script, largest);
    PackedBound(Run(height, split, EMPTY, script), largest, PerPage(height, largest));
  }

  lemma PackedBound(s: Sheet, largest: nat, k: nat)
    requires Packed(s, largest, k) && |s.page| > 0 && k > 0
    ensures Bounded(|s.Pages()|, Total(s.Pages()), k)
  {
    TotalSnoc(s.done, s.page);
    TotalAtLeast(s.done, k);
    DivideIff(Total(s.Pages()) - 1, k, |s.done|);
  }
}
