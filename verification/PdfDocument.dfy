/** The export itself: a cursor and a growing document, driven section by section. */
module PdfDocument {
  import opened Json
  import opened Prose
  import opened PdfSheet
  import opened PdfPages
  import opened PdfScript
  import opened PdfReading

  /** A whole number in decimal digits. */
  function Decimal(n: nat): string {
    if n < 10 then [(n + '0' as int) as char] else Decimal(n / 10) + [(n % 10 + '0' as int) as char]
  }

  /** The number a text of digits stands for. */
  function NumberOf(digits: string): int {
    if |digits| == 0 then 0 else NumberOf(digits[..|digits| - 1]) * 10 + (digits[|digits| - 1] as int - 48)
  }

  /** Decimal digits, standing for the number, without a leading zero. */
  lemma {:induction false} DecimalReads(n: nat)
    ensures NumberOf(Decimal(n)) == n && |Decimal(n)| > 0
    ensures forall i :: 0 <= i < |Decimal(n)| ==> 48 <= Decimal(n)[i] as int <= 57
    ensures n > 0 ==> Decimal(n)[0] != '0'
  {
    if n >= 10 {
      DecimalReads(n / 10);
      var digits := Decimal(n);
      assert digits[..|digits| - 1] == Decimal(n / 10);
    } else {
      var digits := Decimal(n);
      assert digits[..|digits| - 1] == [];
    }
  }

  function PageNumber(input: ExportInput, height: real, page: nat, total: nat): Mark {
    Footer(input.ticker + " · " + input.labels.page + " " + Decimal(page) + "/" + Decimal(total),
           height - MARGIN as real / 2.0)
  }

  /** The finished document: the body of the script, every page numbered. */
  function Document(input: ExportInput, height: real, split: Splitter): seq<Page> {
    Numbered(input, height, Run(height, split, EMPTY, Script(input)).Pages())
  }

  /** Every page with its number, below whatever is on it. */
  function Numbered(input: ExportInput, height: real, body: seq<Page>): seq<Page> {
    seq(|body|, k requires 0 <= k < |body| => body[k] + [PageNumber(input, height, k + 1, |body|)])
  }

  class Layout {
    const height: real
    const split: Splitter
    var pages: seq<Page>
    var y: int
    /** The commands carried out so far. */
    ghost var script: seq<Command>

    ghost function View(): Sheet
      reads this
      requires |pages| > 0
    {
      Sheet(pages[..|pages| - 1], pages[|pages| - 1], y)
    }

    ghost predicate Valid()
      reads this
    {
      |pages| > 0 && View() == Run(height, split, EMPTY, script)
    }

    constructor (height: real, split: Splitter)
      ensures Valid() && script == []
      ensures this.height == height && this.split == split
    {
      this.height, this.split := height, split;
      pages, y, script := [[]], MARGIN, [];
    }

    method BreakIfNeeded(needed: nat)
      requires |pages| > 0
      modifies `pages, `y
      ensures |pages| > 0 && View() == Break(height, old(View()), needed)
    {
      if Overflows(height, y, needed) {
        pages := pages + [[]];
        y := MARGIN;
      }
    }

    method Draw(mark: Mark)
      requires |pages| > 0
      modifies `pages
      ensures |pages| > 0 && View() == old(View()).(page := old(View()).page + [mark])
    {
      pages := pages[|pages| - 1 := pages[|pages| - 1] + [mark]];
    }

    method Reserving(needed: nat)
      requires Valid()
      modifies this
      ensures Valid() && script == old(script) + [Reserve(needed)]
    {
      BreakIfNeeded(needed);
      RunSnoc(height, split, EMPTY, script, Reserve(needed));
      script := script + [Reserve(needed)];
    }

    method Skipping(gap: nat)
      requires Valid()
      modifies this
      ensures Valid() && script == old(script) + [Skip(gap)]
    {
      y := y + gap;
      RunSnoc(height, split, EMPTY, script, Skip(gap));
      script := script + [Skip(gap)];
    }

    method Writing(text: string, size: nat, style: Style)
      requires Valid()
      modifies this
      ensures Valid() && script == old(script) + [Write(text, size, style)]
    {
      var lines := split(text, size, style);
      for i := 0 to |lines|
        invariant |pages| > 0 && script == old(script)
        invariant View() == PutLines(height, old(View()), lines[..i], size, style)
      {
        assert lines[..i + 1][..i] == lines[..i];
        BreakIfNeeded(LINE);
        Draw(Line(lines[i], y, size, style));
        y := y + size + 4;
      }
      assert lines[..|lines|] == lines;
      RunSnoc(height, split, EMPTY, script, Write(text, size, style));
      script := script + [Write(text, size, style)];
    }

    method Underlining()
      requires Valid()
      modifies this
      ensures Valid() && script == old(script) + [Underline]
    {
      Draw(Rule(y - 6));
      RunSnoc(height, split, EMPTY, script, Underline);
      script := script + [Underline];
    }

    method WriteHeading(text: string)
      requires Valid()
      modifies this
      ensures Valid() && script == old(script) + Heading(text)
    {
      Reserving(LINE * 3);
      Skipping(8);
      Writing(text, 12, Bold);
      Underlining();
      Skipping(4);
    }

    method WriteField(name: string, value: string)
      requires Valid()
      modifies this
      ensures Valid() && script == old(script) + Field(name, value)
    {
      if value == "" {
        return;
      }
      Writing(name + ": " + value, 10, Normal);
    }

    method WriteLines(lines: seq<string>, size: nat)
      requires Valid()
      modifies this
      ensures Valid() && script == old(script) + Lines(lines, size)
    {
      for i := 0 to |lines|
        invariant Valid() && script == old(script) + Lines(lines[..i], size)
      {
        assert Lines(lines[..i + 1], size) == Lines(lines[..i], size) + [Write(lines[i], size, Normal)];
        Writing(lines[i], size, Normal);
      }
      assert lines[..|lines|] == lines;
    }

    method WriteList(name: string, size: nat, values: Value)
      requires Valid()
      modifies this
      ensures Valid() && script == old(script) + List(name, size, values)
    {
      var lines := AsLines(values);
      if |lines| == 0 {
        return;
      }
      ghost var opening := [Skip(2), Write(name, size, Bold)];
      Skipping(2);
      Writing(name, size, Bold);
      assert script == old(script) + opening;
      WriteLines(lines, size);
      Assoc(old(script), opening, Lines(lines, size));
    }

    method WriteLists(lists: seq<(string, Value)>, size: nat)
      requires Valid()
      modifies this
      ensures Valid() && script == old(script) + Lists(lists, size, |lists|)
    {
      for i := 0 to |lists|
        invariant Valid() && script == old(script) + Lists(lists, size, i)
      {
        WriteList(lists[i].0, size, lists[i].1);
        Assoc(old(script), Lists(lists, size, i), List(lists[i].0, size, lists[i].1));
      }
    }

    method WriteHeader(input: ExportInput)
      requires Valid()
      modifies this
      ensures Valid() && script == old(script) + Header(input)
    {
      var L := input.labels;
      Writing(input.ticker + DASH + L.title, 18, Bold);
      Writing(L.generated + ": " + input.generatedAt + GAP + L.timeframe + ": " + input.timeframe, 9, Normal);
      Skipping(6);
    }

    method WriteRecommendationFields(r: Record, L: PdfLabels)
      requires Valid()
      modifies this
      ensures Valid() && script == old(script) + RecommendationFields(r, L)
    {
      var entry := Get(r, "support_level");
      var confidence := AsStringOrEmpty(Get(r, "confidence"));
      var horizon := AsStringOrEmpty(Get(r, "horizon"));
      var level := if Truthy(entry) then AsString(entry) else "";
      var target := JoinTruthy(Get(r, "target_price"), Get(r, "target_price_method"));
      var stop := JoinTruthy(Get(r, "suggested_stop"), Get(r, "suggested_stop_method"));
      ghost var base := script;
      ghost var a, b := Field(L.confidence, confidence), Field(L.horizon, horizon);
      ghost var c, d, e := Field(L.entry, level), Field(L.target, target), Field(L.stop, stop);
      WriteField(L.confidence, confidence);
      WriteField(L.horizon, horizon);
      WriteField(L.entry, level);
      WriteField(L.target, target);
      WriteField(L.stop, stop);
      assert script == base + a + b + c + d + e;
      Assoc(base, a, b);
      Assoc(base, a + b, c);
      Assoc(base, a + b + c, d);
      Assoc(base, a + b + c + d, e);
    }

    method WriteRationale(r: Record, L: PdfLabels)
      requires Valid()
      modifies this
      ensures Valid() && script == old(script) + Rationale(r, L)
    {
      var reasoning := Get(r, "reasoning");
      if Truthy(reasoning) {
        Skipping(4);
        Writing(L.rationale, 10, Bold);
        Writing(AsString(reasoning), 10, Normal);
      }
    }

    method WriteRecommendation(input: ExportInput)
      requires Valid()
      modifies this
      ensures Valid() && script == old(script) + Recommendation(input)
      ensures Truthy(input.recommendation) ==>
                script == old(script) + RecommendationReading(InLanguage(input.recommendation, input.language),
                                                              input.labels)
    {
      if Truthy(input.recommendation) { RecommendationReads(input); }
      if !Truthy(input.recommendation) {
        return;
      }
      var r := InLanguage(input.recommendation, input.language);
      WriteHeading(input.labels.recommendation);
      Writing(LabelText(r), 14, Bold);
      WriteRecommendationFields(r, input.labels);
      WriteRationale(r, input.labels);
      WriteLists(FactorLists(r), 10);
      ghost var base, L := old(script), input.labels;
      ghost var a, b := Heading(L.recommendation), [Write(LabelText(r), 14, Bold)];
      ghost var c, d, e := RecommendationFields(r, L), Rationale(r, L), Lists(FactorLists(r), 10, 3);
      Assoc(base, a, b);
      Assoc(base + (a + b), c, d);
      Assoc(base + (a + b), c + d, e);
      Assoc(base, a + b, c + d + e);
    }

    method WriteGuidance(side: string, g: Record, L: PdfLabels)
      requires Valid()
      modifies this
      ensures Valid() && script == old(script) + Guidance(side, g, L)
    {
      ghost var base, detail := script, GuidanceDetail(g, L);
      var stance := StanceLabel(AsStringOrEmpty(Get(g, "stance")));
      Reserving(LINE * 4);
      Writing(side, 11, Bold);
      Writing(stance, 10, Bold);
      ghost var opening := [Reserve(LINE * 4), Write(side, 11, Bold), Write(stance, 10, Bold)];
      OneByOne(base, Reserve(LINE * 4), Write(side, 11, Bold), Write(stance, 10, Bold));
      WriteGuidanceDetail(g, L);
      Skipping(8);
      ThenThree(base, opening, detail, [Skip(8)]);
    }

    method WriteLevels(g: Record)
      requires Valid()
      modifies this
      ensures Valid() && script == old(script) + Levels(g)
    {
      var levels := Fields(Get(g, "reference_levels"));
      if |levels| > 0 {
        Skipping(2);
        Writing(Join(LevelTexts(levels), GAP), 9, Normal);
      }
    }

    method WriteGuidanceDetail(g: Record, L: PdfLabels)
      requires Valid()
      modifies this
      ensures Valid() && script == old(script) + GuidanceDetail(g, L)
    {
      var rationale := Get(g, "rationale");
      if Truthy(rationale) {
        Writing(AsString(rationale), 10, Normal);
      }
      ghost var a, b, c := GuidanceRationale(g), Lists(GuidanceLists(g, L), 9, 2), Levels(g);
      assert script == old(script) + a;
      WriteLists(GuidanceLists(g, L), 9);
      WriteLevels(g);
      Assoc(old(script), a, b);
      Assoc(old(script), a + b, c);
    }

    method WriteStrategy(input: ExportInput)
      requires Valid()
      modifies this
      ensures Valid() && script == old(script) + Strategy(input)
      ensures Truthy(input.strategy) ==>
                script == old(script) + StrategyReading(Fields(input.strategy), input.language, input.labels)
    {
      if Truthy(input.strategy) { StrategyReads(input); }
      if !Truthy(input.strategy) {
        return;
      }
      WriteHeading(input.labels.strategy);
      WriteSides(Sides(input), input.labels);
      Assoc(old(script), Heading(input.labels.strategy), Guidances(Sides(input), input.labels, 2));
    }

    method WriteSides(sides: seq<(string, Record)>, L: PdfLabels)
      requires Valid()
      modifies this
      ensures Valid() && script == old(script) + Guidances(sides, L, |sides|)
    {
      for i := 0 to |sides|
        invariant Valid() && script == old(script) + Guidances(sides, L, i)
      {
        WriteGuidance(sides[i].0, sides[i].1, L);
        Assoc(old(script), Guidances(sides, L, i), Guidance(sides[i].0, sides[i].1, L));
      }
    }

    /** Prints one prose key, where it has something to say. */
    method WriteProseItem(payload: Record, key: string) returns (wrote: bool)
      requires Valid()
      modifies this
      ensures Valid() && script == old(script) + ProseItem(payload, key)
      ensures wrote <==> ProseItem(payload, key) != []
    {
      var lines := AsLines(Get(payload, key));
      wrote := |lines| > 0;
      if wrote {
        Writing(Label(key), 9, Bold);
        WriteLines(lines, 9);
        Assoc(old(script), [Write(Label(key), 9, Bold)], Lines(lines, 9));
      }
    }

    method WriteProse(payload: Record) returns (wrote: bool)
      requires Valid()
      modifies this
      ensures Valid() && script == old(script) + ProseItems(payload, |PROSE_ORDER|)
      ensures wrote <==> ProseItems(payload, |PROSE_ORDER|) != []
    {
      wrote := false;
      for i := 0 to |PROSE_ORDER|
        invariant Valid() && wrote == (ProseItems(payload, i) != [])
        invariant script == old(script) + ProseItems(payload, i)
      {
        ghost var before, item := ProseItems(payload, i), ProseItem(payload, PROSE_ORDER[i]);
        var one := WriteProseItem(payload, PROSE_ORDER[i]);
        wrote := wrote || one;
        Assoc(old(script), before, item);
        OneMoreItem(payload, i);
      }
    }

    method WriteAgent(name: string, payload: Record)
      requires Valid()
      modifies this
      ensures Valid() && script == old(script) + Agent(name, payload)
    {
      ghost var title := [Write(Label(name), 11, Bold)];
      Writing(Label(name), 11, Bold);
      var wrote := WriteProse(payload);
      if !wrote {
        Writing("—", 9, Normal);
      }
      ghost var prose := AgentProse(payload);
      assert script == old(script) + title + prose;
      Skipping(6);
      ThenThree(old(script), title, prose, [Skip(6)]);
    }

    method WriteEachAgent(agents: Record, language: string)
      requires Valid()
      modifies this
      ensures Valid() && script == old(script) + Agents(agents, language, |agents|)
    {
      for i := 0 to |agents|
        invariant Valid() && script == old(script) + Agents(agents, language, i)
      {
        var payload := InLanguage(agents[i].1, language);
        WriteAgent(agents[i].0, payload);
        Assoc(old(script), Agents(agents, language, i), Agent(agents[i].0, payload));
      }
    }

    method WriteAgents(input: ExportInput)
      requires Valid()
      modifies this
      ensures Valid() && script == old(script) + AgentSection(input)
      ensures script == old(script) +
                if |input.agents| > 0 then Title(input.labels.agents) + AgentsReading(input.agents, input.language)
                else []
    {
      AgentSectionReads(input);
      if |input.agents| == 0 {
        return;
      }
      WriteHeading(input.labels.agents);
      WriteEachAgent(input.agents, input.language);
      Assoc(old(script), Heading(input.labels.agents), Agents(input.agents, input.language, |input.agents|));
    }

    method WriteFindings(input: ExportInput)
      requires Valid() && script == []
      modifies this
      ensures Valid() && script == Findings(input)
    {
      WriteHeader(input);
      assert script == Header(input);
      WriteRecommendation(input);
      WriteStrategy(input);
      WriteAgents(input);
    }

    method WriteDisclaimer(input: ExportInput)
      requires Valid()
      modifies this
      ensures Valid()
      ensures script == old(script) + [Reserve(LINE * 6)] + Heading(input.labels.disclaimer)
                        + [Write(input.labels.disclaimerBody, 9, Normal)]
    {
      Reserving(LINE * 6);
      WriteHeading(input.labels.disclaimer);
      Writing(input.labels.disclaimerBody, 9, Normal);
    }

    method WriteAll(input: ExportInput) returns (ghost all: seq<Command>)
      requires Valid() && script == []
      modifies this
      ensures pages == Run(height, split, EMPTY, all).Pages() && all == Script(input)
    {
      WriteFindings(input);
      WriteDisclaimer(input);
      all := script;
      PagesAreRun();
    }

    lemma PagesAreRun()
      requires Valid()
      ensures pages == Run(height, split, EMPTY, script).Pages()
    {}

    /** Every page gets its number out of the total, so this comes once all pages are there. */
    method Stamp(input: ExportInput)
      modifies `pages
      ensures pages == Numbered(input, height, old(pages))
      ensures |pages| == old(|pages|)
      ensures forall k :: 0 <= k < |pages| ==>
                pages[k] == old(pages)[k] +
                  [Footer(input.ticker + " · " + input.labels.page + " " + Decimal(k + 1) + "/" + Decimal(|pages|),
                          height - 24.0)]
    {
      var total := |pages|;
      for page := 1 to total + 1
        invariant |pages| == total
        invariant forall k :: 0 <= k < page - 1 ==>
                    pages[k] == old(pages)[k] + [PageNumber(input, height, k + 1, total)]
        invariant forall k :: page - 1 <= k < total ==> pages[k] == old(pages)[k]
      {
        pages := pages[page - 1 := pages[page - 1] + [PageNumber(input, height, page, total)]];
      }
    }
  }

  lemma OneMoreItem(payload: Record, i: nat)
    requires i < |PROSE_ORDER|
    ensures ProseItems(payload, i + 1) == ProseItems(payload, i) + ProseItem(payload, PROSE_ORDER[i])
    ensures ProseItems(payload, i + 1) == [] <==>
            ProseItems(payload, i) == [] && ProseItem(payload, PROSE_ORDER[i]) == []
  {}

  lemma OneByOne(before: seq<Command>, a: Command, b: Command, c: Command)
    ensures before + [a] + [b] + [c] == before + [a, b, c]
  {}

  lemma ThenThree(before: seq<Command>, a: seq<Command>, b: seq<Command>, c: seq<Command>)
    ensures before + a + b + c == before + (a + b + c)
  {}

  method BuildAnalysisPdf(input: ExportInput, height: real, split: Splitter) returns (pages: seq<Page>)
    ensures pages == Document(input, height, split)
    ensures Body(pages) == Spoken(split, Reading(input))
  {
    PaperReads(input, height, split);
    var doc := new Layout(height, split);
    ghost var script := doc.WriteAll(input);
    doc.Stamp(input);
    pages := doc.pages;
    DocumentIs(input, height, split, script, pages);
  }

  lemma DocumentIs(input: ExportInput, height: real, split: Splitter, script: seq<Command>, pages: seq<Page>)
    requires script == Script(input)
    requires pages == Numbered(input, height, Run(height, split, EMPTY, script).Pages())
    ensures pages == Document(input, height, split)
  {}

  /** On page `k` of `n` stands the ticker, the word for page, `k/n`, 24 points from the foot. */
  lemma PagesAreNumbered(input: ExportInput, height: real, split: Splitter, k: nat)
    requires k < |Document(input, height, split)|
    ensures var pages := Document(input, height, split);
            && |pages[k]| > 0
            && pages[k][|pages[k]| - 1] ==
               Footer(input.ticker + " · " + input.labels.page + " " + Decimal(k + 1) + "/" + Decimal(|pages|),
                      height - 24.0)
  {
    NumberedAt(input, height, Run(height, split, EMPTY, Script(input)).Pages(), k);
  }

  lemma NumberedAt(input: ExportInput, height: real, body: seq<Page>, k: nat)
    requires k < |body|
    ensures var pages := Numbered(input, height, body);
            && |pages| == |body| && |pages[k]| > 0
            && pages[k][|pages[k]| - 1] ==
               Footer(input.ticker + " · " + input.labels.page + " " + Decimal(k + 1) + "/" + Decimal(|body|),
                      height - 24.0)
  {
    assert Numbered(input, height, body)[k] == body[k] + [PageNumber(input, height, k + 1, |body|)];
  }

  // --- the document as a whole -----------------------------------------------

  ghost predicate StampedOn(pages: seq<Page>, body: seq<Page>) {
    && |pages| == |body|
    && forall k :: 0 <= k < |body| ==> Stamped(pages[k], body[k])
  }

  ghost predicate Stamped(page: Page, body: Page) {
    |page| == |body| + 1 && page[..|body|] == body && page[|body|].Footer?
  }

  lemma {:induction false} StampKeepsBody(pages: seq<Page>, body: seq<Page>)
    requires StampedOn(pages, body)
    ensures Body(pages) == Body(body)
  {
    if |body| > 0 {
      var last := |body| - 1;
      forall k | 0 <= k < last ensures Stamped(pages[..last][k], body[..last][k]) {
        assert Stamped(pages[k], body[k]);
      }
      StampKeepsBody(pages[..last], body[..last]);
      assert Stamped(pages[last], body[last]);
    }
  }

  lemma DocumentIsStamped(input: ExportInput, height: real, split: Splitter)
    ensures StampedOn(Document(input, height, split), Run(height, split, EMPTY, Script(input)).Pages())
  {
    NumberedIsStamped(input, height, Run(height, split, EMPTY, Script(input)).Pages());
  }

  /** What is on paper, read page by page, is everything the document had to say, once and in order. */
  lemma DocumentSaysEverything(input: ExportInput, height: real, split: Splitter)
    ensures Body(Document(input, height, split)) == Spoken(split, Script(input))
  {
    DocumentIsStamped(input, height, split);
    StampKeepsBody(Document(input, height, split), Run(height, split, EMPTY, Script(input)).Pages());
    NothingLostOrRepeated(height, split, EMPTY, Script(input));
    BodySnoc([], []);
  }

  /** Read page by page, the paper holds the lines of the reading, each once and in order. */
  lemma PaperReads(input: ExportInput, height: real, split: Splitter)
    ensures Body(Document(input, height, split)) == Spoken(split, Reading(input))
  {
    DocumentSaysEverything(input, height, split);
    ScriptReads(input);
  }

  /** Some stretch of `all` is exactly `part`. */
  ghost predicate Includes(all: seq<Printed>, part: seq<Printed>) {
    exists i, j :: 0 <= i <= j <= |all| && all[i..j] == part
  }

  lemma {:induction false} WrittenIsSpoken(split: Splitter, script: seq<Command>, c: Command)
    requires c in script && c.Write?
    ensures Includes(Spoken(split, script), Printing(split(c.text, c.size, c.style), c.size, c.style))
  {
    var last := |script| - 1;
    var before, all := Spoken(split, script[..last]), Spoken(split, script);
    var part := Printing(split(c.text, c.size, c.style), c.size, c.style);
    if c == script[last] {
      assert all[|before|..|all|] == part;
    } else {
      WrittenIsSpoken(split, script[..last], c);
      var i, j :| 0 <= i <= j <= |before| && before[i..j] == part;
      assert all[i..j] == before[i..j];
    }
  }

  /** Whatever the script writes is on paper, its split lines standing together. */
  lemma WrittenReachesThePaper(input: ExportInput, height: real, split: Splitter, c: Command)
    requires c in Script(input) && c.Write?
    ensures Includes(Body(Document(input, height, split)), Printing(split(c.text, c.size, c.style), c.size, c.style))
  {
    WrittenIsSpoken(split, Script(input), c);
    DocumentSaysEverything(input, height, split);
  }

  /**
   * Every printable scalar an agent put under a prose key, in the requested language's rendering and
   * however deep in arrays, is part of a text whose split lines stand together in the document.
   */
  lemma AgentProseReachesThePaper(input: ExportInput, height: real, split: Splitter,
                                  agent: nat, key: nat, path: seq<nat>, leaf: Value)
    requires agent < |input.agents| && key < |PROSE_ORDER|
    requires Prints(Get(InLanguage(input.agents[agent].1, input.language), PROSE_ORDER[key]), path, leaf)
    ensures exists c: Command :: c.Write? && Contains(c.text, Trim(AsString(leaf))) &&
              Includes(Body(Document(input, height, split)), Printing(split(c.text, c.size, c.style), c.size, c.style))
  {
    AgentProseReachesTheScript(input, agent, key, path, leaf);
    var c :| c in Script(input) && c.Write? && Contains(c.text, Trim(AsString(leaf)));
    WrittenReachesThePaper(input, height, split, c);
  }

  /** The line overlaps no later one on its page and stays 52 points clear of the page number, the last mark. */
  ghost predicate Legible(marks: Page, i: nat)
    requires i < |marks| && marks[i].Line?
  {
    && MARGIN <= marks[i].y
    && marks[|marks| - 1].Footer?
    && marks[|marks| - 1].at - marks[i].y as real >= 52.0
    && forall j :: i < j < |marks| && marks[j].Line? ==> marks[i].y + marks[i].size + 4 <= marks[j].y
  }

  ghost predicate AllLegible(pages: seq<Page>) {
    forall k, i :: 0 <= k < |pages| && 0 <= i < |pages[k]| && pages[k][i].Line? ==> Legible(pages[k], i)
  }

  /** On paper at least 124 points high every body line of every document is legible. */
  lemma DocumentIsLegible(input: ExportInput, height: real, split: Splitter)
    requires height >= 124.0
    ensures AllLegible(Document(input, height, split))
  {
    NumberedIsLegible(input, height, split, Script(input));
  }

  lemma NumberedIsLegible(input: ExportInput, height: real, split: Splitter, script: seq<Command>)
    requires height >= 124.0
    ensures AllLegible(Numbered(input, height, Run(height, split, EMPTY, script).Pages()))
  {
    LinesNeverOverlap(height, split, script);
    MarginFitsIff(height);
    var body := Run(height, split, EMPTY, script).Pages();
    var pages: seq<Page> := Numbered(input, height, body);
    forall k: nat, i: nat | k < |pages| && i < |pages[k]| && pages[k][i].Line? ensures Legible(pages[k], i) {
      assert Within(body[k], Lowest(height)) && NonOverlapping(body[k]);
      assert pages[k][i] == body[k][i];
    }
  }

  /**
   * No page of any document is left without a body line on paper at least 152 points high; on
   * shorter paper every document has such a page.
   */
  lemma NoBlankPageIff(input: ExportInput, height: real, split: Splitter)
    requires Productive(split)
    ensures NoneBlank(Document(input, height, split)) <==> height >= HEADING_ROOM
  {
    var body := Run(height, split, EMPTY, Script(input)).Pages();
    NumberingBlanksNothing(input, height, body);
    if height >= HEADING_ROOM {
      ScriptIsRoomy(input);
      RoomyLeavesNoBlank(height, split, Script(input), LINE * 3);
    } else {
      var k := DisclaimerLeavesBlank(input, height, split);
      assert !HasLine(body[k]);
    }
  }

  lemma NumberingBlanksNothing(input: ExportInput, height: real, body: seq<Page>)
    ensures NoneBlank(Numbered(input, height, body)) <==> NoneBlank(body)
  {
    var pages: seq<Page> := Numbered(input, height, body);
    forall k | 0 <= k < |body| ensures HasLine(pages[k]) <==> HasLine(body[k]) {
      if HasLine(body[k]) {
        var i :| 0 <= i < |body[k]| && body[k][i].Line?;
        assert pages[k][i].Line?;
      }
    }
  }

  /** On short paper the disclaimer's two reservations turn two pages, the second still empty. */
  lemma TwoTurnsLeaveBlank(height: real, s: Sheet)
    requires height < HEADING_ROOM && s.y >= MARGIN
    ensures var again := Break(height, Break(height, s, LINE * 6), LINE * 3);
            |again.done| == |s.done| + 2 && again.done[|s.done| + 1] == []
  {
    OverflowIsPastBottom(height, s.y, LINE * 6);
    OverflowIsPastBottom(height, MARGIN, LINE * 3);
  }

  lemma DisclaimerReservesTwice(input: ExportInput)
    ensures Script(input) ==
            Findings(input) + [Reserve(LINE * 6)] + [Reserve(LINE * 3)]
            + (HeadingBlock(input.labels.disclaimer) + [Write(input.labels.disclaimerBody, 9, Normal)])
  {
    var title, body := input.labels.disclaimer, [Write(input.labels.disclaimerBody, 9, Normal)];
    assert Heading(title) == [Reserve(LINE * 3)] + HeadingBlock(title);
    Regrouped(Findings(input) + [Reserve(LINE * 6)], [Reserve(LINE * 3)], HeadingBlock(title), body);
  }

  lemma Regrouped(a: seq<Command>, b: seq<Command>, c: seq<Command>, d: seq<Command>)
    ensures a + (b + c) + d == a + b + (c + d)
  {}

  lemma DisclaimerLeavesBlank(input: ExportInput, height: real, split: Splitter) returns (k: nat)
    requires height < HEADING_ROOM
    ensures k < |Run(height, split, EMPTY, Script(input)).Pages()|
    ensures Run(height, split, EMPTY, Script(input)).Pages()[k] == []
  {
    var before := Findings(input);
    var s := Run(height, split, EMPTY, before);
    LinesNeverOverlap(height, split, before);
    TwoTurnsLeaveBlank(height, s);
    var again := Break(height, Break(height, s, LINE * 6), LINE * 3);
    k := |s.done| + 1;

    var rest := HeadingBlock(input.labels.disclaimer) + [Write(input.labels.disclaimerBody, 9, Normal)];
    RunSnoc(height, split, EMPTY, before, Reserve(LINE * 6));
    RunSnoc(height, split, EMPTY, before + [Reserve(LINE * 6)], Reserve(LINE * 3));
    RunConcat(height, split, EMPTY, before + [Reserve(LINE * 6)] + [Reserve(LINE * 3)], rest);
    DisclaimerReservesTwice(input);
    RunExtends(height, split, again, rest);
    BlankIsFinal(again, Run(height, split, EMPTY, Script(input)), k);
  }

  lemma BlankIsFinal(s: Sheet, later: Sheet, k: nat)
    requires Extends(s, later) && k < |s.done| && s.done[k] == []
    ensures k < |later.Pages()| && later.Pages()[k] == []
  {
    assert later.done[k] == s.done[k];
  }

  lemma {:induction false} LineIsBody(page: Page)
    requires HasLine(page)
    ensures |PageBody(page)| > 0
  {
    var last := |page| - 1;
    if !page[last].Line? {
      var i :| 0 <= i < |page| && page[i].Line?;
      assert page[..last][i].Line?;
      LineIsBody(page[..last]);
    }
  }

  // --- headings and what follows them ----------------------------------------

  lemma TogetherSurvivesStamp(pages: seq<Page>, body: seq<Page>, marks: seq<Mark>)
    requires StampedOn(pages, body) && Together(body, marks)
    ensures Together(pages, marks)
  {
    var k, i :| 0 <= k < |body| && OnPage(body[k], i, marks);
    assert Stamped(pages[k], body[k]);
    assert pages[k][..|body[k]|][i..i + |marks|] == pages[k][i..i + |marks|];
    assert OnPage(pages[k], i, marks);
  }

  /** A heading, its rule and the first line of `text`, on one page of the document. */
  ghost predicate KeptTogether(input: ExportInput, height: real, split: Splitter, title: string,
                               text: string, size: nat, style: Style)
    requires Productive(split)
  {
    exists y :: Together(Document(input, height, split),
                         KeptMarks(y, split(title, 12, Bold)[0], split(text, size, style)[0], size, style))
  }

  lemma KeptWherever(input: ExportInput, height: real, split: Splitter, before: seq<Command>, title: string,
                     text: string, size: nat, style: Style, after: seq<Command>)
    requires height >= HEADING_ROOM && Productive(split) && |split(title, 12, Bold)| == 1
    requires Script(input) == before + Heading(title) + [Write(text, size, style)] + after
    ensures KeptTogether(input, height, split, title, text, size, style)
  {
    HeadingKeptInDocument(height, split, before, title, text, size, style, after);
    var body := Run(height, split, EMPTY, Script(input)).Pages();
    var y :| Together(body, KeptMarks(y, split(title, 12, Bold)[0], split(text, size, style)[0], size, style));
    DocumentIsStamped(input, height, split);
    TogetherSurvivesStamp(Document(input, height, split), body,
                          KeptMarks(y, split(title, 12, Bold)[0], split(text, size, style)[0], size, style));
  }

  lemma PlusNothing(a: seq<Command>)
    ensures a == a + []
  {}

  /** The disclaimer is in every document, heading and body never on different pages. */
  lemma DisclaimerIsKept(input: ExportInput, height: real, split: Splitter)
    requires height >= HEADING_ROOM && Productive(split)
    requires |split(input.labels.disclaimer, 12, Bold)| == 1
    ensures KeptTogether(input, height, split, input.labels.disclaimer, input.labels.disclaimerBody, 9, Normal)
  {
    var L := input.labels;
    var before := Findings(input) + [Reserve(LINE * 6)];
    PlusNothing(before + Heading(L.disclaimer) + [Write(L.disclaimerBody, 9, Normal)]);
    KeptWherever(input, height, split, before, L.disclaimer, L.disclaimerBody, 9, Normal, []);
  }

  /** With 194 points of height the six-line reservation keeps a disclaimer heading of up to three lines. */
  lemma LongDisclaimerIsKept(input: ExportInput, height: real, split: Splitter)
    requires height >= 194.0 && Productive(split)
    requires |split(input.labels.disclaimer, 12, Bold)| <= 3
    ensures var title := split(input.labels.disclaimer, 12, Bold);
            var first := split(input.labels.disclaimerBody, 9, Normal)[0];
            exists y :: Together(Document(input, height, split), KeptLines(y, title, first, 9, Normal))
  {
    var L := input.labels;
    PlusNothing(Findings(input) + [Reserve(LINE * 6)] + Heading(L.disclaimer) + [Write(L.disclaimerBody, 9, Normal)]);
    LongHeadingIsKept(input, height, split, Findings(input), L.disclaimer, L.disclaimerBody, Script(input));
  }

  lemma LongHeadingIsKept(input: ExportInput, height: real, split: Splitter, before: seq<Command>,
                          title: string, body: string, script: seq<Command>)
    requires height >= 194.0 && Productive(split) && |split(title, 12, Bold)| <= 3
    requires script == before + [Reserve(LINE * 6)] + Heading(title) + [Write(body, 9, Normal)] + []
    ensures exists y :: Together(Numbered(input, height, Run(height, split, EMPTY, script).Pages()),
                                 KeptLines(y, split(title, 12, Bold), split(body, 9, Normal)[0], 9, Normal))
  {
    ReservedHeadingKept(height, split, before, LINE * 6, title, body, 9, Normal, []);
    var pages := Run(height, split, EMPTY, script).Pages();
    var y :| Together(pages, KeptLines(y, split(title, 12, Bold), split(body, 9, Normal)[0], 9, Normal));
    NumberedIsStamped(input, height, pages);
    TogetherSurvivesStamp(Numbered(input, height, pages), pages,
                          KeptLines(y, split(title, 12, Bold), split(body, 9, Normal)[0], 9, Normal));
  }

  lemma NumberedIsStamped(input: ExportInput, height: real, body: seq<Page>)
    ensures StampedOn(Numbered(input, height, body), body)
  {
    forall k | 0 <= k < |body| ensures Stamped(Numbered(input, height, body)[k], body[k]) {
      assert Numbered(input, height, body)[k] == body[k] + [PageNumber(input, height, k + 1, |body|)];
    }
  }

  lemma RecommendationHeadingIsKept(input: ExportInput, height: real, split: Splitter)
    requires height >= HEADING_ROOM && Productive(split) && Truthy(input.recommendation)
    requires |split(input.labels.recommendation, 12, Bold)| == 1
    ensures var r := InLanguage(input.recommendation, input.language);
            KeptTogether(input, height, split, input.labels.recommendation,
                         LabelText(r), 14, Bold)
  {
    var L := input.labels;
    var r := InLanguage(input.recommendation, input.language);
    var tail := Strategy(input) + AgentSection(input) + [Reserve(LINE * 6)] + Heading(L.disclaimer)
                + [Write(L.disclaimerBody, 9, Normal)];
    var after := RecommendationDetail(r, L) + tail;
    RecommendationParts(input, r, tail);
    KeptWherever(input, height, split, Header(input), L.recommendation, LabelText(r),
                 14, Bold, after);
  }

  lemma RecommendationParts(input: ExportInput, r: Record, tail: seq<Command>)
    requires Truthy(input.recommendation) && r == InLanguage(input.recommendation, input.language)
    requires tail == Strategy(input) + AgentSection(input) + [Reserve(LINE * 6)]
                     + Heading(input.labels.disclaimer) + [Write(input.labels.disclaimerBody, 9, Normal)]
    ensures Script(input) == Header(input) + Heading(input.labels.recommendation)
                             + [Write(LabelText(r), 14, Bold)]
                             + (RecommendationDetail(r, input.labels) + tail)
  {
    var L := input.labels;
    var a, b := Heading(L.recommendation), [Write(LabelText(r), 14, Bold)];
    SixParts(Header(input), a, b, RecommendationDetail(r, L), Strategy(input), AgentSection(input),
             [Reserve(LINE * 6)], Heading(L.disclaimer), [Write(L.disclaimerBody, 9, Normal)]);
  }

  lemma SixParts(h: seq<Command>, a: seq<Command>, b: seq<Command>, c: seq<Command>, s: seq<Command>,
                 g: seq<Command>, d: seq<Command>, e: seq<Command>, f: seq<Command>)
    ensures h + (a + b + c) + s + g + d + e + f == h + a + b + (c + (s + g + d + e + f))
  {}

  lemma AgentHeadingIsKept(input: ExportInput, height: real, split: Splitter)
    requires height >= HEADING_ROOM && Productive(split) && |input.agents| > 0
    requires |split(input.labels.agents, 12, Bold)| == 1
    ensures KeptTogether(input, height, split, input.labels.agents, Label(input.agents[0].0), 11, Bold)
  {
    var all := Agents(input.agents, input.language, |input.agents|);
    var before := Header(input) + Recommendation(input) + Strategy(input);
    var after := all[1..] + [Reserve(LINE * 6)] + Heading(input.labels.disclaimer)
                 + [Write(input.labels.disclaimerBody, 9, Normal)];
    AgentsOpen(input.agents, input.language, |input.agents|);
    AgentSectionParts(input, before, all);
    KeptWherever(input, height, split, before, input.labels.agents, Label(input.agents[0].0), 11, Bold, after);
  }

  lemma AgentSectionParts(input: ExportInput, before: seq<Command>, all: seq<Command>)
    requires |input.agents| > 0 && before == Header(input) + Recommendation(input) + Strategy(input)
    requires all == Agents(input.agents, input.language, |input.agents|) && |all| > 0
    ensures Script(input) == before + Heading(input.labels.agents) + [all[0]]
                             + (all[1..] + [Reserve(LINE * 6)] + Heading(input.labels.disclaimer)
                                + [Write(input.labels.disclaimerBody, 9, Normal)])
  {
    var L := input.labels;
    AgentParts(before, Heading(L.agents), all, [Reserve(LINE * 6)], Heading(L.disclaimer),
               [Write(L.disclaimerBody, 9, Normal)]);
  }

  lemma AgentParts(before: seq<Command>, heading: seq<Command>, all: seq<Command>,
                   reserve: seq<Command>, disclaimer: seq<Command>, body: seq<Command>)
    requires |all| > 0
    ensures before + (heading + all) + reserve + disclaimer + body ==
            before + heading + [all[0]] + (all[1..] + reserve + disclaimer + body)
  {}

  lemma AgentsOpen(agents: Record, language: string, n: nat)
    requires 0 < n <= |agents|
    ensures |Agents(agents, language, n)| > 0
    ensures Agents(agents, language, n)[0] == Write(Label(agents[0].0), 11, Bold)
  {
    JoinedOpens(AgentAt(agents, language), n);
    AgentOpens(agents[0].0, InLanguage(agents[0].1, language));
  }

  lemma AgentOpens(name: string, payload: Record)
    ensures |Agent(name, payload)| > 0 && Agent(name, payload)[0] == Write(Label(name), 11, Bold)
  {}

  // --- the strategy heading --------------------------------------------------

  /** The sheet as the strategy heading's own reservation leaves it. */
  function AtStrategy(input: ExportInput, height: real, split: Splitter): Sheet {
    Break(height, Run(height, split, EMPTY, Header(input) + Recommendation(input)), LINE * 3)
  }

  lemma GuidancesOpen(sides: seq<(string, Record)>, L: PdfLabels, n: nat)
    requires 0 < n <= |sides|
    ensures |Guidances(sides, L, n)| >= 2
    ensures Guidances(sides, L, n)[0] == Reserve(LINE * 4)
    ensures Guidances(sides, L, n)[1] == Write(sides[0].0, 11, Bold)
  {
    JoinedOpens(GuidanceAt(sides, L), n);
    GuidanceSays(sides[0].0, sides[0].1, L);
  }

  lemma StrategyParts(h: seq<Command>, r: seq<Command>, heading: seq<Command>, all: seq<Command>, rest: seq<Command>)
    requires |all| >= 2
    ensures h + r + (heading + all) + rest == h + r + heading + [all[0]] + [all[1]] + (all[2..] + rest)
  {}

  /** Everything after the strategy. */
  function AfterStrategy(input: ExportInput): seq<Command> {
    AgentSection(input) + [Reserve(LINE * 6)] + Heading(input.labels.disclaimer)
    + [Write(input.labels.disclaimerBody, 9, Normal)]
  }

  lemma ScriptAroundStrategy(input: ExportInput)
    ensures Script(input) == Header(input) + Recommendation(input) + Strategy(input) + AfterStrategy(input)
  {
    FourMore(Header(input) + Recommendation(input) + Strategy(input), AgentSection(input), [Reserve(LINE * 6)],
             Heading(input.labels.disclaimer), [Write(input.labels.disclaimerBody, 9, Normal)]);
  }

  lemma FourMore(s: seq<Command>, a: seq<Command>, b: seq<Command>, c: seq<Command>, d: seq<Command>)
    ensures s + a + b + c + d == s + (a + b + c + d)
  {}

  /**
   * In every document with a strategy: its heading and its first side share a page where 84 points
   * are left, and otherwise the heading is the last thing on its page and the side opens the next.
   */
  lemma StrategyHeadingInDocumentIff(input: ExportInput, height: real, split: Splitter)
    requires height >= HEADING_ROOM && Productive(split) && Truthy(input.strategy)
    requires |split(input.labels.strategy, 12, Bold)| == 1
    ensures var s := AtStrategy(input, height, split);
            var body := Run(height, split, EMPTY, Script(input)).Pages();
            && Document(input, height, split) == Numbered(input, height, body)
            && Placed(height, body, s, split(input.labels.strategy, 12, Bold)[0],
                      split(input.labels.notHolding, 11, Bold)[0], 11, Bold)
  {
    var all := Guidances(Sides(input), input.labels, 2);
    var before := Header(input) + Recommendation(input);
    GuidancesOpen(Sides(input), input.labels, 2);
    ScriptAroundStrategy(input);
    StrategyParts(Header(input), Recommendation(input), Heading(input.labels.strategy), all, AfterStrategy(input));
    HeadingThenReservation(height, split, before, input.labels.strategy, input.labels.notHolding, 11, Bold,
                           all[2..] + AfterStrategy(input));
  }

  const A4: real := 841.89

  /** Everything up to the strategy fits on the first page and leaves it between 42 and 84 points. */
  ghost predicate CrowdsStrategy(input: ExportInput, split: Splitter) {
    var y := MARGIN + Advance(split, Header(input) + Recommendation(input));
    y + LINE * 3 <= Bottom(A4) < y + 84
  }

  lemma CrowdedStart(input: ExportInput, split: Splitter)
    requires CrowdsStrategy(input, split)
    ensures AtStrategy(input, A4, split).done == []
    ensures AtStrategy(input, A4, split).y == MARGIN + Advance(split, Header(input) + Recommendation(input))
  {
    FirstSectionsReserve(input);
    ScriptStays(A4, split, EMPTY, Header(input) + Recommendation(input), LINE * 3);
    OverflowIsPastBottom(A4, MARGIN + Advance(split, Header(input) + Recommendation(input)), LINE * 3);
  }

  lemma FirstSectionsReserve(input: ExportInput)
    ensures ReservesUpTo(Header(input) + Recommendation(input), LINE * 3)
  {
    HeaderReserves(input);
    RecommendationReserves(input);
    ReservesConcat(Header(input), Recommendation(input), LINE * 3);
  }

  lemma ReservesConcat(a: seq<Command>, b: seq<Command>, room: nat)
    requires ReservesUpTo(a, room) && ReservesUpTo(b, room)
    ensures ReservesUpTo(a + b, room)
  {}

  lemma HeaderReserves(input: ExportInput)
    ensures ReservesUpTo(Header(input), LINE * 3)
  {}

  lemma RecommendationReserves(input: ExportInput)
    ensures ReservesUpTo(Recommendation(input), LINE * 3)
  {
    if Truthy(input.recommendation) {
      var r := InLanguage(input.recommendation, input.language);
      DetailIsPlain(r, input.labels);
      HeadedReserves(input.labels.recommendation, Write(LabelText(r), 14, Bold), RecommendationDetail(r, input.labels));
    }
  }

  lemma HeadedReserves(title: string, opening: Command, detail: seq<Command>)
    requires Plain(detail) && opening.Write?
    ensures ReservesUpTo(Heading(title) + [opening] + detail, LINE * 3)
  {}

  /** The heading and its rule end the first page but for its number, and the side's line opens the second. */
  ghost predicate LeftBehind(pages: seq<Page>, y: int, head: string, first: string) {
    && |pages| >= 2 && |pages[0]| >= 3
    && pages[0][|pages[0]| - 3] == Line(head, y + 8, 12, Bold)
    && pages[0][|pages[0]| - 2] == Rule(y + 18) && pages[0][|pages[0]| - 1].Footer?
    && |pages[1]| > 0 && pages[1][0] == Line(first, MARGIN, 11, Bold)
  }

  /** It does happen on A4: there the strategy heading stays behind when its first side moves on. */
  lemma StrategyHeadingPartsOnA4(input: ExportInput, split: Splitter)
    requires Productive(split) && Truthy(input.strategy) && CrowdsStrategy(input, split)
    requires |split(input.labels.strategy, 12, Bold)| == 1
    ensures LeftBehind(Document(input, A4, split), AtStrategy(input, A4, split).y,
                       split(input.labels.strategy, 12, Bold)[0], split(input.labels.notHolding, 11, Bold)[0])
  {
    CrowdedStart(input, split);
    StrategyHeadingInDocumentIff(input, A4, split);
    PartedMarks(input, Run(A4, split, EMPTY, Script(input)).Pages(), AtStrategy(input, A4, split),
                split(input.labels.strategy, 12, Bold)[0], split(input.labels.notHolding, 11, Bold)[0]);
  }

  lemma PartedMarks(input: ExportInput, body: seq<Page>, s: Sheet, head: string, first: string)
    requires s.done == [] && s.y + 84 > Bottom(A4)
    requires Placed(A4, body, s, head, first, 11, Bold)
    ensures LeftBehind(Numbered(input, A4, body), s.y, head, first)
  {
    assert body[1][0..1][0] == body[1][0];
  }
}
