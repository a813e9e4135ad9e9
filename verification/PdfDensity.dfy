/** How full the pages of a whole exported document are, whatever it says. */
module PdfDensity {
  import opened Division
  import opened Json
  import opened PdfSheet
  import opened PdfPages
  import opened PdfScript
  import opened PdfDocument

  /** The most the cursor skips between two lines, the largest line, and the largest reservation. */
  const SLACK: nat := 16
  const LARGEST: nat := 18
  const RESERVATION: nat := LINE * 6

  /** The most room one line and the skips before it can take. */
  const PITCH: nat := LARGEST + 4 + SLACK

  // --- what a script skips ---------------------------------------------------

  /** Points skipped since the last line, given those skipped before the script. */
  function Gap(p: nat, script: seq<Command>): nat {
    if |script| == 0 then p
    else
      var before := Gap(p, script[..|script| - 1]);
      match script[|script| - 1]
      case Write(_, _, _) => 0
      case Skip(gap) => before + gap
      case _ => before
  }

  predicate Allowed(c: Command) {
    match c
    case Write(_, size, _) => size <= LARGEST
    case Reserve(needed) => needed <= RESERVATION
    case _ => true
  }

  /** The script never skips more than the slack between lines, and asks for nothing larger than allowed. */
  predicate Paced(p: nat, script: seq<Command>) {
    p <= SLACK && Gap(p, script) <= SLACK &&
    (|script| == 0 || (Allowed(script[|script| - 1]) && Paced(p, script[..|script| - 1])))
  }

  lemma {:induction false} PacedConcat(p: nat, a: seq<Command>, b: seq<Command>)
    ensures Gap(p, a + b) == Gap(Gap(p, a), b)
    ensures Paced(p, a) && Paced(Gap(p, a), b) ==> Paced(p, a + b)
  {
    if |b| == 0 {
      assert a + b == a;
    } else {
      assert (a + b)[..|a + b| - 1] == a + b[..|b| - 1];
      PacedConcat(p, a, b[..|b| - 1]);
    }
  }

  lemma PacedStep(p: nat, script: seq<Command>, c: Command)
    ensures Gap(p, script + [c]) ==
            match c { case Write(_, _, _) => 0 case Skip(gap) => Gap(p, script) + gap case _ => Gap(p, script) }
    ensures Paced(p, script) && Allowed(c) && Gap(p, script + [c]) <= SLACK ==> Paced(p, script + [c])
  {
    assert (script + [c])[..|script|] == script;
  }

  /** Starting right after a line, ends right after a line. */
  ghost predicate Tight(script: seq<Command>) {
    Paced(0, script) && Gap(0, script) == 0
  }

  /** Starting at most half the slack after a line, ends at most half the slack after one. */
  ghost predicate Loose(script: seq<Command>) {
    forall p: nat :: p <= 8 ==> Paced(p, script) && Gap(p, script) <= 8
  }

  lemma TightConcat(a: seq<Command>, b: seq<Command>)
    requires Tight(a) && Tight(b)
    ensures Tight(a + b)
  {
    PacedConcat(0, a, b);
  }

  lemma LooseConcat(a: seq<Command>, b: seq<Command>)
    requires Loose(a) && Loose(b)
    ensures Loose(a + b)
  {
    forall p: nat | p <= 8 ensures Paced(p, a + b) && Gap(p, a + b) <= 8 {
      PacedConcat(p, a, b);
    }
  }

  /** A line, tight text, and a skip of at most half the slack. */
  lemma LooseBlock(opening: seq<Command>, body: seq<Command>, gap: nat)
    requires Tight(body) && gap <= 8
    requires forall p: nat :: p <= 8 ==> Paced(p, opening) && Gap(p, opening) == 0
    ensures Loose(opening + body) && Loose(opening + body + [Skip(gap)])
  {
    forall p: nat | p <= 8
      ensures Paced(p, opening + body) && Gap(p, opening + body) == 0
      ensures Paced(p, opening + body + [Skip(gap)]) && Gap(p, opening + body + [Skip(gap)]) <= 8
    {
      PacedConcat(p, opening, body);
      PacedStep(p, opening + body, Skip(gap));
    }
  }

  lemma HeadingIsLoose(title: string)
    ensures Loose(Heading(title))
  {
    var a := [Reserve(LINE * 3)];
    var b := a + [Skip(8)];
    var c := b + [Write(title, 12, Bold)];
    var d := c + [Underline];
    assert Heading(title) == d + [Skip(4)];
    forall p: nat | p <= 8 ensures Paced(p, Heading(title)) && Gap(p, Heading(title)) <= 8 {
      assert [] + [Reserve(LINE * 3)] == a;
      PacedStep(p, [], Reserve(LINE * 3));
      PacedStep(p, a, Skip(8));
      PacedStep(p, b, Write(title, 12, Bold));
      PacedStep(p, c, Underline);
      PacedStep(p, d, Skip(4));
    }
  }

  lemma OneLineOpens(c: Command)
    requires c.Write? && c.size <= LARGEST
    ensures forall p: nat :: p <= 8 ==> Paced(p, [c]) && Gap(p, [c]) == 0
  {
    forall p: nat | p <= 8 ensures Paced(p, [c]) && Gap(p, [c]) == 0 {
      PacedStep(p, [], c);
      assert [] + [c] == [c];
    }
  }

  lemma {:induction false} WritesAreTight(script: seq<Command>)
    requires forall i :: 0 <= i < |script| ==> script[i].Write? && script[i].size <= LARGEST
    ensures Tight(script)
  {
    if |script| > 0 {
      WritesAreTight(script[..|script| - 1]);
    }
  }

  /** A small skip and then only lines. */
  lemma SkipThenWrites(gap: nat, lines: seq<Command>)
    requires gap <= SLACK && |lines| > 0
    requires forall i :: 0 <= i < |lines| ==> lines[i].Write? && lines[i].size <= LARGEST
    ensures Tight([Skip(gap)] + lines)
  {
    PacedStep(0, [], Skip(gap));
    assert [] + [Skip(gap)] == [Skip(gap)];
    var first := [lines[0]];
    PacedStep(0, [Skip(gap)], lines[0]);
    WritesAreTight(lines[1..]);
    PacedConcat(0, [Skip(gap)] + first, lines[1..]);
    assert [Skip(gap)] + lines == [Skip(gap)] + first + lines[1..];
  }

  // --- the pieces of a document ----------------------------------------------

  lemma ListIsTight(name: string, size: nat, values: Value)
    requires size <= LARGEST
    ensures Tight(List(name, size, values))
  {
    var lines := Prose.AsLines(values);
    if |lines| == 0 {
      WritesAreTight([]);
    } else {
      TitledLinesAreTight(name, size, lines);
    }
  }

  lemma TitledLinesAreTight(name: string, size: nat, lines: seq<string>)
    requires size <= LARGEST
    ensures Tight([Skip(2), Write(name, size, Bold)] + Lines(lines, size))
  {
    var titled := [Write(name, size, Bold)] + Lines(lines, size);
    SkipThenWrites(2, titled);
    assert [Skip(2), Write(name, size, Bold)] + Lines(lines, size) == [Skip(2)] + titled;
  }

  lemma {:induction false} JoinedTight(part: nat -> seq<Command>, n: nat)
    requires forall k :: 0 <= k < n ==> Tight(part(k))
    ensures Tight(Joined(part, n))
  {
    if n == 0 {
      WritesAreTight([]);
    } else {
      JoinedTight(part, n - 1);
      TightConcat(Joined(part, n - 1), part(n - 1));
    }
  }

  lemma ListsAreTight(lists: seq<(string, Value)>, size: nat, n: nat)
    requires n <= |lists| && size <= LARGEST
    ensures Tight(Lists(lists, size, n))
  {
    forall k | 0 <= k < n ensures Tight(ListAt(lists, size)(k)) {
      ListIsTight(lists[k].0, size, lists[k].1);
    }
    JoinedTight(ListAt(lists, size), n);
  }

  lemma FieldIsTight(name: string, value: string)
    ensures Tight(Field(name, value))
  {
    WritesAreTight(Field(name, value));
  }

  lemma FieldsAreTight(r: Record, L: PdfLabels)
    ensures Tight(RecommendationFields(r, L))
  {
    var entry := Get(r, "support_level");
    var level := if Truthy(entry) then AsString(entry) else "";
    var confidence, horizon := AsStringOrEmpty(Get(r, "confidence")), AsStringOrEmpty(Get(r, "horizon"));
    var target := JoinTruthy(Get(r, "target_price"), Get(r, "target_price_method"));
    var stop := JoinTruthy(Get(r, "suggested_stop"), Get(r, "suggested_stop_method"));
    var a, b := Field(L.confidence, confidence), Field(L.horizon, horizon);
    var c, d, e := Field(L.entry, level), Field(L.target, target), Field(L.stop, stop);
    FieldIsTight(L.confidence, confidence);
    FieldIsTight(L.horizon, horizon);
    FieldIsTight(L.entry, level);
    FieldIsTight(L.target, target);
    FieldIsTight(L.stop, stop);
    TightConcat(a, b);
    TightConcat(a + b, c);
    TightConcat(a + b + c, d);
    TightConcat(a + b + c + d, e);
  }

  lemma RationaleIsTight(r: Record, L: PdfLabels)
    ensures Tight(Rationale(r, L))
  {
    var reasoning := Get(r, "reasoning");
    if Truthy(reasoning) {
      var lines := [Write(L.rationale, 10, Bold), Write(AsString(reasoning), 10, Normal)];
      SkipThenWrites(4, lines);
      assert Rationale(r, L) == [Skip(4)] + lines;
    } else {
      WritesAreTight([]);
    }
  }

  lemma DetailIsTight(r: Record, L: PdfLabels)
    ensures Tight(RecommendationDetail(r, L))
  {
    FieldsAreTight(r, L);
    RationaleIsTight(r, L);
    ListsAreTight(FactorLists(r), 10, 3);
    TightConcat(RecommendationFields(r, L), Rationale(r, L));
    TightConcat(RecommendationFields(r, L) + Rationale(r, L), Lists(FactorLists(r), 10, 3));
  }

  lemma LevelsAreTight(g: Record)
    ensures Tight(Levels(g))
  {
    var levels := Fields(Get(g, "reference_levels"));
    if |levels| > 0 {
      SkipThenWrites(2, [Write(Join(LevelTexts(levels), GAP), 9, Normal)]);
      assert Levels(g) == [Skip(2)] + [Write(Join(LevelTexts(levels), GAP), 9, Normal)];
    } else {
      WritesAreTight([]);
    }
  }

  lemma GuidanceDetailIsTight(g: Record, L: PdfLabels)
    ensures Tight(GuidanceDetail(g, L))
  {
    WritesAreTight(GuidanceRationale(g));
    ListsAreTight(GuidanceLists(g, L), 9, 2);
    LevelsAreTight(g);
    TightConcat(GuidanceRationale(g), Lists(GuidanceLists(g, L), 9, 2));
    TightConcat(GuidanceRationale(g) + Lists(GuidanceLists(g, L), 9, 2), Levels(g));
  }

  lemma SideOpens(side: string, stance: Command)
    requires stance.Write? && stance.size <= LARGEST
    ensures forall p: nat :: p <= 8 ==>
              Paced(p, [Reserve(LINE * 4), Write(side, 11, Bold), stance]) &&
              Gap(p, [Reserve(LINE * 4), Write(side, 11, Bold), stance]) == 0
  {
    var a := [Reserve(LINE * 4)];
    var b := a + [Write(side, 11, Bold)];
    assert b + [stance] == [Reserve(LINE * 4), Write(side, 11, Bold), stance];
    forall p: nat | p <= 8 ensures Paced(p, b + [stance]) && Gap(p, b + [stance]) == 0 {
      assert [] + [Reserve(LINE * 4)] == a;
      PacedStep(p, [], Reserve(LINE * 4));
      PacedStep(p, a, Write(side, 11, Bold));
      PacedStep(p, b, stance);
    }
  }

  lemma GuidanceIsLoose(side: string, g: Record, L: PdfLabels)
    ensures Loose(Guidance(side, g, L))
  {
    var stance := Write(Prose.StanceLabel(AsStringOrEmpty(Get(g, "stance"))), 10, Bold);
    GuidanceDetailIsTight(g, L);
    SideOpens(side, stance);
    LooseBlock([Reserve(LINE * 4), Write(side, 11, Bold), stance], GuidanceDetail(g, L), 8);
  }

  lemma {:induction false} JoinedLoose(part: nat -> seq<Command>, n: nat)
    requires forall k :: 0 <= k < n ==> Loose(part(k))
    ensures Loose(Joined(part, n))
  {
    if n > 0 {
      JoinedLoose(part, n - 1);
      LooseConcat(Joined(part, n - 1), part(n - 1));
    }
  }

  lemma GuidancesAreLoose(sides: seq<(string, Record)>, L: PdfLabels, n: nat)
    requires n <= |sides|
    ensures Loose(Guidances(sides, L, n))
  {
    forall k | 0 <= k < n ensures Loose(GuidanceAt(sides, L)(k)) {
      GuidanceIsLoose(sides[k].0, sides[k].1, L);
    }
    JoinedLoose(GuidanceAt(sides, L), n);
  }

  ghost predicate Written(script: seq<Command>) {
    forall i :: 0 <= i < |script| ==> script[i].Write? && script[i].size <= LARGEST
  }

  lemma {:induction false} JoinedWritten(part: nat -> seq<Command>, n: nat)
    requires forall k :: 0 <= k < n ==> Written(part(k))
    ensures Written(Joined(part, n))
  {
    if n > 0 {
      JoinedWritten(part, n - 1);
    }
  }

  lemma ProseIsWritten(payload: Record, n: nat)
    requires n <= |PROSE_ORDER|
    ensures Written(ProseItems(payload, n))
  {
    forall k | 0 <= k < n ensures Written(ProseItemAt(payload)(k)) {
      ProseItemIsWritten(payload, PROSE_ORDER[k]);
    }
    JoinedWritten(ProseItemAt(payload), n);
  }

  lemma ProseItemIsWritten(payload: Record, key: string)
    ensures Written(ProseItem(payload, key))
  {}

  lemma AgentIsLoose(name: string, payload: Record)
    ensures Loose(Agent(name, payload))
  {
    ProseIsWritten(payload, |PROSE_ORDER|);
    WritesAreTight(AgentProse(payload));
    OneLineOpens(Write(Prose.Label(name), 11, Bold));
    LooseBlock([Write(Prose.Label(name), 11, Bold)], AgentProse(payload), 6);
  }

  lemma AgentsAreLoose(agents: Record, language: string, n: nat)
    requires n <= |agents|
    ensures Loose(Agents(agents, language, n))
  {
    forall k | 0 <= k < n ensures Loose(AgentAt(agents, language)(k)) {
      AgentIsLoose(agents[k].0, Prose.InLanguage(agents[k].1, language));
    }
    JoinedLoose(AgentAt(agents, language), n);
  }

  lemma HeaderIsLoose(input: ExportInput)
    ensures Loose(Header(input))
  {
    var h := Header(input);
    OneLineOpens(h[0]);
    WritesAreTight([h[1]]);
    LooseBlock([h[0]], [h[1]], 6);
    assert h == [h[0]] + [h[1]] + [Skip(6)];
  }

  lemma RecommendationIsLoose(input: ExportInput)
    ensures Loose(Recommendation(input))
  {
    if Truthy(input.recommendation) {
      var r := Prose.InLanguage(input.recommendation, input.language);
      var opening := Write(LabelText(r), 14, Bold);
      DetailIsTight(r, input.labels);
      OneLineOpens(opening);
      LooseBlock([opening], RecommendationDetail(r, input.labels), 0);
      HeadingIsLoose(input.labels.recommendation);
      LooseConcat(Heading(input.labels.recommendation), [opening] + RecommendationDetail(r, input.labels));
      Assoc(Heading(input.labels.recommendation), [opening], RecommendationDetail(r, input.labels));
    }
  }

  lemma StrategyIsLoose(input: ExportInput)
    ensures Loose(Strategy(input))
  {
    HeadingIsLoose(input.labels.strategy);
    GuidancesAreLoose(Sides(input), input.labels, 2);
    LooseConcat(Heading(input.labels.strategy), Guidances(Sides(input), input.labels, 2));
  }

  lemma AgentSectionIsLoose(input: ExportInput)
    ensures Loose(AgentSection(input))
  {
    HeadingIsLoose(input.labels.agents);
    AgentsAreLoose(input.agents, input.language, |input.agents|);
    LooseConcat(Heading(input.labels.agents), Agents(input.agents, input.language, |input.agents|));
  }

  lemma ReservationIsLoose()
    ensures Loose([Reserve(RESERVATION)])
  {
    forall p: nat | p <= 8 ensures Paced(p, [Reserve(RESERVATION)]) && Gap(p, [Reserve(RESERVATION)]) <= 8 {
      PacedStep(p, [], Reserve(RESERVATION));
      assert [] + [Reserve(RESERVATION)] == [Reserve(RESERVATION)];
    }
  }

  lemma ScriptIsPaced(input: ExportInput)
    ensures Paced(0, Script(input))
  {
    var L := input.labels;
    var h, r, s, a := Header(input), Recommendation(input), Strategy(input), AgentSection(input);
    var body := Write(L.disclaimerBody, 9, Normal);
    HeaderIsLoose(input);
    RecommendationIsLoose(input);
    StrategyIsLoose(input);
    AgentSectionIsLoose(input);
    ReservationIsLoose();
    HeadingIsLoose(L.disclaimer);
    OneLineOpens(body);
    LooseConcat(h, r);
    LooseConcat(h + r, s);
    LooseConcat(h + r + s, a);
    LooseConcat(Findings(input), [Reserve(RESERVATION)]);
    LooseConcat(Findings(input) + [Reserve(RESERVATION)], Heading(L.disclaimer));
    LooseConcat(Findings(input) + [Reserve(RESERVATION)] + Heading(L.disclaimer), [body]);
  }

  // --- what that makes of the pages ------------------------------------------

  /** The fewest lines on a page that a document has moved on from. */
  function Fewest(height: real): nat
    requires height >= 210.0
  {
    (Bottom(height) - MARGIN - SLACK - RESERVATION) / PITCH + 1
  }

  lemma A4HoldsAtLeast17()
    ensures Fewest(841.89) == 17
  {}

  ghost predicate Dense(s: Sheet, gap: nat, k: nat) {
    && s.y <= MARGIN + |PageBody(s.page)| * PITCH + gap
    && forall p :: 0 <= p < |s.done| ==> |PageBody(s.done[p])| >= k
  }

  /** A page is left only once it holds enough. */
  lemma LeavingDense(height: real, s: Sheet, needed: nat, gap: nat)
    requires height >= 210.0 && needed <= RESERVATION && gap <= SLACK && Dense(s, gap, Fewest(height))
    ensures Dense(Break(height, s, needed), gap, Fewest(height))
  {
    OverflowIsPastBottom(height, s.y, needed);
    if Overflows(height, s.y, needed) {
      var n := |PageBody(s.page)|;
      var spare := Bottom(height) - MARGIN - SLACK - RESERVATION;
      if n < Fewest(height) {
        DivideIff(spare, PITCH, n);
      }
    }
  }

  lemma PutLineDense(height: real, s: Sheet, text: string, size: nat, style: Style, gap: nat)
    requires height >= 210.0 && size <= LARGEST && gap <= SLACK && Dense(s, gap, Fewest(height))
    ensures Dense(PutLine(height, s, text, size, style), 0, Fewest(height))
  {
    LeavingDense(height, s, LINE, gap);
    var t := Break(height, s, LINE);
    var mark := Line(text, t.y, size, style);
    assert (t.page + [mark])[..|t.page|] == t.page;
    NextMultiple(|PageBody(t.page)|, PITCH);
  }

  lemma {:induction false} PutLinesDense(height: real, s: Sheet, lines: seq<string>, size: nat, style: Style, gap: nat)
    requires height >= 210.0 && size <= LARGEST && gap <= SLACK && Dense(s, gap, Fewest(height))
    requires |lines| > 0
    ensures Dense(PutLines(height, s, lines, size, style), 0, Fewest(height))
  {
    var last := |lines| - 1;
    if last == 0 {
      assert lines[..0] == [];
      PutLineDense(height, s, lines[0], size, style, gap);
    } else {
      PutLinesDense(height, s, lines[..last], size, style, gap);
      PutLineDense(height, PutLines(height, s, lines[..last], size, style), lines[last], size, style, 0);
    }
  }

  lemma {:induction false} PacedIsDense(height: real, split: Splitter, script: seq<Command>)
    requires height >= 210.0 && Productive(split) && Paced(0, script)
    ensures Dense(Run(height, split, EMPTY, script), Gap(0, script), Fewest(height))
  {
    if |script| > 0 {
      var last := |script| - 1;
      var before := Run(height, split, EMPTY, script[..last]);
      var gap := Gap(0, script[..last]);
      PacedIsDense(height, split, script[..last]);
      match script[last] {
        case Write(text, size, style) =>
          PutLinesDense(height, before, split(text, size, style), size, style, gap);
        case Reserve(needed) =>
          LeavingDense(height, before, needed, gap);
        case Skip(_) =>
        case Underline =>
          assert (before.page + [Rule(before.y - 6)])[..|before.page|] == before.page;
      }
    }
  }

  lemma {:induction false} BodyAtLeast(pages: seq<Page>, k: nat)
    requires forall p :: 0 <= p < |pages| ==> |PageBody(pages[p])| >= k
    ensures |Body(pages)| >= |pages| * k
  {
    if |pages| > 0 {
      BodyAtLeast(pages[..|pages| - 1], k);
      NextMultiple(|pages| - 1, k);
    }
  }

  /** `n` lines on at most `1 + (n - 1) / k` pages. */
  ghost predicate Economical(pages: seq<Page>, k: nat) {
    Bounded(|pages|, |Body(pages)|, k)
  }

  /**
   * Whatever a document says, a page it has moved on from holds at least `k` lines, so `n` lines
   * never take more than `1 + (n - 1) / k` pages: seventeen lines a page on A4.
   */
  lemma DocumentWastesNoPages(input: ExportInput, height: real, split: Splitter)
    requires height >= 210.0 && Productive(split)
    ensures Economical(Document(input, height, split), Fewest(height))
  {
    ScriptIsPaced(input);
    ScriptIsRoomy(input);
    PacedWastesNoPages(height, split, Script(input));
    DocumentIsStamped(input, height, split);
    StampKeepsBody(Document(input, height, split), Run(height, split, EMPTY, Script(input)).Pages());
  }

  lemma PacedWastesNoPages(height: real, split: Splitter, script: seq<Command>)
    requires height >= 210.0 && Productive(split) && Paced(0, script)
    requires Roomy(Silent(0), script, LINE * 3) && After(Silent(0), script) == Spoke
    ensures Economical(Run(height, split, EMPTY, script).Pages(), Fewest(height))
  {
    PacedIsDense(height, split, script);
    RoomyLeavesNoBlank(height, split, script, LINE * 3);
    DenseBound(Run(height, split, EMPTY, script), Gap(0, script), Fewest(height));
  }

  lemma DenseBound(s: Sheet, gap: nat, k: nat)
    requires Dense(s, gap, k) && HasLine(s.page) && k > 0
    ensures Economical(s.Pages(), k)
  {
    LineIsBody(s.page);
    BodyAtLeast(s.done, k);
    BodySnoc(s.done, s.page);
    DivideIff(|Body(s.Pages())| - 1, k, |s.done|);
  }
}
