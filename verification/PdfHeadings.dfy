/** What stands under which heading, in the document and on paper. */
module PdfHeadings {
  import opened Json
  import opened Prose
  import opened PdfSheet
  import opened PdfPages
  import opened PdfScript
  import opened PdfReading
  import opened PdfDocument

  lemma {:induction false} SpokenConcat(split: Splitter, a: seq<Command>, b: seq<Command>)
    ensures Spoken(split, a + b) == Spoken(split, a) + Spoken(split, b)
  {
    if |b| == 0 {
      assert a + b == a;
    } else {
      var last := |b| - 1;
      assert (a + b)[..|a + b| - 1] == a + b[..last];
      SpokenConcat(split, a, b[..last]);
      Assoc(Spoken(split, a), Spoken(split, b[..last]), SpokenBy(split, b[last]));
    }
  }

  /** What stands together in the script stands together on paper. */
  lemma StretchReachesThePaper(input: ExportInput, height: real, split: Splitter,
                               before: seq<Command>, stretch: seq<Command>, after: seq<Command>)
    requires Script(input) == before + stretch + after
    ensures Body(Document(input, height, split)) ==
            Spoken(split, before) + Spoken(split, stretch) + Spoken(split, after)
  {
    DocumentSaysEverything(input, height, split);
    SpokenConcat(split, before + stretch, after);
    SpokenConcat(split, before, stretch);
  }

  /**
   * On either side of a strategy the conditions stand under their heading, and after them what would
   * invalidate the stance under its own: one stretch of the document, after that side's title.
   */
  lemma ConditionsStandUnderTheirHeadings(input: ExportInput, holding: bool)
      returns (before: seq<Command>, why: seq<Command>, after: seq<Command>)
    requires Truthy(input.strategy)
    ensures var L := input.labels;
            var key := if holding then "holding" else "not_holding";
            var g := InLanguage(Get(Fields(input.strategy), key), input.language);
            var conditions, invalid := AsLines(Get(g, "conditions")), AsLines(Get(g, "invalidated_if"));
            && Script(input) ==
               before
               + ([Write(if holding then L.holding else L.notHolding, 11, Bold)] + why
                  + (if |conditions| == 0 then [] else [Skip(2), Write(L.conditions, 9, Bold)] + Lines(conditions, 9))
                  + (if |invalid| == 0 then [] else [Skip(2), Write(L.invalidatedIf, 9, Bold)] + Lines(invalid, 9)))
               + after
            && why == [Write(StanceLabel(AsStringOrEmpty(Get(g, "stance"))), 10, Bold)]
                      + if Truthy(Get(g, "rationale")) then [Write(AsString(Get(g, "rationale")), 10, Normal)] else []
  {
    var L := input.labels;
    var strategy := Fields(input.strategy);
    var one := InLanguage(Get(strategy, "not_holding"), input.language);
    var two := InLanguage(Get(strategy, "holding"), input.language);
    var head, tail := SidesInScript(input);
    var a, w, z := SideStretch(if holding then L.holding else L.notHolding, if holding then two else one, L);
    why := w;
    if holding {
      before, after := head + SideReading(L.notHolding, one, L) + a, z + tail;
      Nested(head + SideReading(L.notHolding, one, L), a, SideCore(L.holding, two, L, w), z, tail);
    } else {
      before, after := head + a, z + SideReading(L.holding, two, L) + tail;
      Nested(head, a, SideCore(L.notHolding, one, L, w), z, SideReading(L.holding, two, L) + tail);
      TailTogether(head, a + SideCore(L.notHolding, one, L, w) + z, SideReading(L.holding, two, L), tail);
      Assoc(z, SideReading(L.holding, two, L), tail);
    }
  }

  lemma TailTogether(a: seq<Command>, b: seq<Command>, c: seq<Command>, d: seq<Command>)
    ensures a + b + c + d == a + b + (c + d)
  {}

  lemma Nested(head: seq<Command>, a: seq<Command>, core: seq<Command>, z: seq<Command>, tail: seq<Command>)
    ensures head + (a + core + z) + tail == head + a + core + (z + tail)
  {}

  function SideCore(title: string, g: Record, L: PdfLabels, why: seq<Command>): seq<Command> {
    var conditions, invalid := AsLines(Get(g, "conditions")), AsLines(Get(g, "invalidated_if"));
    [Write(title, 11, Bold)] + why
    + (if |conditions| == 0 then [] else [Skip(2), Write(L.conditions, 9, Bold)] + Lines(conditions, 9))
    + (if |invalid| == 0 then [] else [Skip(2), Write(L.invalidatedIf, 9, Bold)] + Lines(invalid, 9))
  }

  lemma SidesInScript(input: ExportInput) returns (head: seq<Command>, tail: seq<Command>)
    requires Truthy(input.strategy)
    ensures var strategy, L := Fields(input.strategy), input.labels;
            Script(input) ==
            head + SideReading(L.notHolding, InLanguage(Get(strategy, "not_holding"), input.language), L)
            + SideReading(L.holding, InLanguage(Get(strategy, "holding"), input.language), L) + tail
  {
    var strategy, L := Fields(input.strategy), input.labels;
    head := Header(input) + Recommendation(input) + Title(L.strategy);
    tail := AfterStrategy(input);
    ScriptAroundStrategy(input);
    StrategyReads(input);
    Between(Header(input) + Recommendation(input), Title(L.strategy),
            SideReading(L.notHolding, InLanguage(Get(strategy, "not_holding"), input.language), L),
            SideReading(L.holding, InLanguage(Get(strategy, "holding"), input.language), L), tail);
  }

  lemma Between(s: seq<Command>, t: seq<Command>, a: seq<Command>, b: seq<Command>, tail: seq<Command>)
    ensures s + (t + (a + b)) + tail == s + t + a + b + tail
  {}

  lemma SideStretch(title: string, g: Record, L: PdfLabels)
      returns (a: seq<Command>, why: seq<Command>, z: seq<Command>)
    ensures SideReading(title, g, L) == a + SideCore(title, g, L, why) + z
    ensures why == [Write(StanceLabel(AsStringOrEmpty(Get(g, "stance"))), 10, Bold)]
                   + if Truthy(Get(g, "rationale")) then [Write(AsString(Get(g, "rationale")), 10, Normal)] else []
  {
    var stance := Write(StanceLabel(AsStringOrEmpty(Get(g, "stance"))), 10, Bold);
    var reason := if Truthy(Get(g, "rationale")) then [Write(AsString(Get(g, "rationale")), 10, Normal)] else [];
    var c, i := Under(L.conditions, Get(g, "conditions"), 9), Under(L.invalidatedIf, Get(g, "invalidated_if"), 9);
    a, why, z := [Reserve(56)], [stance] + reason, LevelsReading(Fields(Get(g, "reference_levels"))) + [Skip(8)];
    UnderReads(L.conditions, 9, Get(g, "conditions"));
    UnderReads(L.invalidatedIf, 9, Get(g, "invalidated_if"));
    Unfold(Reserve(56), Write(title, 11, Bold), stance, reason, c, i,
           LevelsReading(Fields(Get(g, "reference_levels"))), [Skip(8)]);
    CoreIs(title, g, L, why);
  }

  lemma CoreIs(title: string, g: Record, L: PdfLabels, why: seq<Command>)
    ensures SideCore(title, g, L, why) ==
            [Write(title, 11, Bold)] + why + Under(L.conditions, Get(g, "conditions"), 9)
            + Under(L.invalidatedIf, Get(g, "invalidated_if"), 9)
  {
    UnderReads(L.conditions, 9, Get(g, "conditions"));
    UnderReads(L.invalidatedIf, 9, Get(g, "invalidated_if"));
  }

  lemma Unfold(r: Command, t: Command, s: Command, reason: seq<Command>, c: seq<Command>, i: seq<Command>,
               levels: seq<Command>, z: seq<Command>)
    ensures [r, t, s] + (reason + (c + i) + levels) + z == [r] + ([t] + ([s] + reason) + c + i) + (levels + z)
  {}
}
