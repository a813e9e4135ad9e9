/** What the exported document says, and in what order it asks the page for room. */
module PdfScript {
  import opened Ascii
  import opened Json
  import opened Prose
  import opened PdfSheet
  import opened PdfPages
  import Translation

  datatype PdfLabels = PdfLabels(
    title: string, generated: string, timeframe: string, recommendation: string,
    confidence: string, horizon: string, entry: string, target: string, stop: string,
    rationale: string, strategy: string, notHolding: string, holding: string,
    conditions: string, invalidatedIf: string, agents: string,
    disclaimer: string, disclaimerBody: string, page: string)

  datatype ExportInput = ExportInput(
    ticker: string, language: string, timeframe: string, generatedAt: string,
    recommendation: Value, strategy: Value, agents: Record, labels: PdfLabels)

  const PROSE_ORDER: seq<string> := [
    "summary", "thesis", "rationale", "assessment", "interpretation", "notes", "agreements",
    "disagreements", "supporting_signals", "conflicting_factors", "risk_factors", "watch_items"]

  const DASH := " — "
  const GAP := "    "

  /** The first `n` parts, one after the other. */
  function Joined(part: nat -> seq<Command>, n: nat): seq<Command> {
    if n == 0 then [] else Joined(part, n - 1) + part(n - 1)
  }

  // --- pieces ----------------------------------------------------------------

  function Field(name: string, value: string): seq<Command> {
    if value == "" then [] else [Write(name + ": " + value, 10, Normal)]
  }

  function Lines(lines: seq<string>, size: nat): seq<Command> {
    seq(|lines|, i requires 0 <= i < |lines| => Write(lines[i], size, Normal))
  }

  /** A labelled list, absent altogether when it has nothing to say. */
  function List(name: string, size: nat, values: Value): seq<Command> {
    var lines := AsLines(values);
    if |lines| == 0 then [] else [Skip(2), Write(name, size, Bold)] + Lines(lines, size)
  }

  function ListAt(lists: seq<(string, Value)>, size: nat): nat -> seq<Command> {
    (k: nat) => if k < |lists| then List(lists[k].0, size, lists[k].1) else []
  }

  function Lists(lists: seq<(string, Value)>, size: nat, n: nat): seq<Command>
    requires n <= |lists|
  {
    Joined(ListAt(lists, size), n)
  }

  /** `[a, b].filter(Boolean).join(" — ")`. */
  function JoinTruthy(a: Value, b: Value): string {
    Join((if Truthy(a) then [AsString(a)] else []) + (if Truthy(b) then [AsString(b)] else []), DASH)
  }

  // --- sections --------------------------------------------------------------

  function Header(input: ExportInput): seq<Command> {
    var L := input.labels;
    [Write(input.ticker + DASH + L.title, 18, Bold),
     Write(L.generated + ": " + input.generatedAt + GAP + L.timeframe + ": " + input.timeframe, 9, Normal),
     Skip(6)]
  }

  function LabelText(r: Record): string {
    Spaced(Uppercase(AsStringOrEmpty(Get(r, "label"))))
  }

  function RecommendationFields(r: Record, L: PdfLabels): seq<Command> {
    var entry := Get(r, "support_level");
    Field(L.confidence, AsStringOrEmpty(Get(r, "confidence")))
    + Field(L.horizon, AsStringOrEmpty(Get(r, "horizon")))
    + Field(L.entry, if Truthy(entry) then AsString(entry) else "")
    + Field(L.target, JoinTruthy(Get(r, "target_price"), Get(r, "target_price_method")))
    + Field(L.stop, JoinTruthy(Get(r, "suggested_stop"), Get(r, "suggested_stop_method")))
  }

  function Rationale(r: Record, L: PdfLabels): seq<Command> {
    var reasoning := Get(r, "reasoning");
    if !Truthy(reasoning) then []
    else [Skip(4), Write(L.rationale, 10, Bold), Write(AsString(reasoning), 10, Normal)]
  }

  function FactorLists(r: Record): seq<(string, Value)> {
    [(Label("supporting_factors"), Get(r, "supporting_factors")),
     (Label("conflicting_factors"), Get(r, "conflicting_factors")),
     (Label("risk_factors"), Get(r, "risk_factors"))]
  }

  /** The recommendation after its heading and its label line. */
  function RecommendationDetail(r: Record, L: PdfLabels): seq<Command> {
    RecommendationFields(r, L) + Rationale(r, L) + Lists(FactorLists(r), 10, 3)
  }

  function Recommendation(input: ExportInput): seq<Command> {
    if !Truthy(input.recommendation) then []
    else
      var r := InLanguage(input.recommendation, input.language);
      Heading(input.labels.recommendation) + [Write(LabelText(r), 14, Bold)]
      + RecommendationDetail(r, input.labels)
  }

  function Sides(input: ExportInput): seq<(string, Record)> {
    var strategy := Fields(input.strategy);
    [(input.labels.notHolding, InLanguage(Get(strategy, "not_holding"), input.language)),
     (input.labels.holding, InLanguage(Get(strategy, "holding"), input.language))]
  }

  function GuidanceLists(g: Record, L: PdfLabels): seq<(string, Value)> {
    [(L.conditions, Get(g, "conditions")), (L.invalidatedIf, Get(g, "invalidated_if"))]
  }

  function LevelTexts(levels: Record): seq<string> {
    seq(|levels|, i requires 0 <= i < |levels| => Label(levels[i].0) + ": " + AsString(levels[i].1))
  }

  function Levels(g: Record): seq<Command> {
    var levels := Fields(Get(g, "reference_levels"));
    if |levels| == 0 then [] else [Skip(2), Write(Join(LevelTexts(levels), GAP), 9, Normal)]
  }

  function GuidanceRationale(g: Record): seq<Command> {
    var rationale := Get(g, "rationale");
    if Truthy(rationale) then [Write(AsString(rationale), 10, Normal)] else []
  }

  /** One side of the strategy after its two opening lines. */
  function GuidanceDetail(g: Record, L: PdfLabels): seq<Command> {
    GuidanceRationale(g) + Lists(GuidanceLists(g, L), 9, 2) + Levels(g)
  }

  function Guidance(side: string, g: Record, L: PdfLabels): seq<Command> {
    [Reserve(LINE * 4), Write(side, 11, Bold),
     Write(StanceLabel(AsStringOrEmpty(Get(g, "stance"))), 10, Bold)]
    + GuidanceDetail(g, L) + [Skip(8)]
  }

  function GuidanceAt(sides: seq<(string, Record)>, L: PdfLabels): nat -> seq<Command> {
    (k: nat) => if k < |sides| then Guidance(sides[k].0, sides[k].1, L) else []
  }

  function Guidances(sides: seq<(string, Record)>, L: PdfLabels, n: nat): seq<Command>
    requires n <= |sides|
  {
    Joined(GuidanceAt(sides, L), n)
  }

  function Strategy(input: ExportInput): seq<Command> {
    if !Truthy(input.strategy) then []
    else Heading(input.labels.strategy) + Guidances(Sides(input), input.labels, 2)
  }

  function ProseItem(payload: Record, key: string): seq<Command> {
    var lines := AsLines(Get(payload, key));
    if |lines| == 0 then [] else [Write(Label(key), 9, Bold)] + Lines(lines, 9)
  }

  function ProseItemAt(payload: Record): nat -> seq<Command> {
    (k: nat) => if k < |PROSE_ORDER| then ProseItem(payload, PROSE_ORDER[k]) else []
  }

  /** What a payload has under the first `n` prose keys. */
  function ProseItems(payload: Record, n: nat): seq<Command>
    requires n <= |PROSE_ORDER|
  {
    Joined(ProseItemAt(payload), n)
  }

  function AgentProse(payload: Record): seq<Command> {
    var prose := ProseItems(payload, |PROSE_ORDER|);
    if prose == [] then [Write("—", 9, Normal)] else prose
  }

  function Agent(name: string, payload: Record): seq<Command> {
    [Write(Label(name), 11, Bold)] + AgentProse(payload) + [Skip(6)]
  }

  function AgentAt(agents: Record, language: string): nat -> seq<Command> {
    (k: nat) => if k < |agents| then Agent(agents[k].0, InLanguage(agents[k].1, language)) else []
  }

  function Agents(agents: Record, language: string, n: nat): seq<Command>
    requires n <= |agents|
  {
    Joined(AgentAt(agents, language), n)
  }

  function AgentSection(input: ExportInput): seq<Command> {
    if |input.agents| == 0 then []
    else Heading(input.labels.agents) + Agents(input.agents, input.language, |input.agents|)
  }

  /** Everything before the disclaimer. */
  function Findings(input: ExportInput): seq<Command> {
    Header(input) + Recommendation(input) + Strategy(input) + AgentSection(input)
  }

  function Script(input: ExportInput): seq<Command> {
    Findings(input) + [Reserve(LINE * 6)] + Heading(input.labels.disclaimer)
    + [Write(input.labels.disclaimerBody, 9, Normal)]
  }

  // --- what reaches the page -------------------------------------------------

  lemma InEither(a: seq<Command>, b: seq<Command>, c: Command)
    requires c in a || c in b
    ensures c in a + b
  {}

  lemma {:induction false} JoinedSays(part: nat -> seq<Command>, n: nat, k: nat, c: Command)
    requires k < n && c in part(k)
    ensures c in Joined(part, n)
  {
    if k < n - 1 {
      JoinedSays(part, n - 1, k, c);
    }
    InEither(Joined(part, n - 1), part(n - 1), c);
  }

  lemma {:induction false} JoinedOpens(part: nat -> seq<Command>, n: nat)
    requires n > 0
    ensures part(0) <= Joined(part, n)
  {
    if n > 1 {
      JoinedOpens(part, n - 1);
    } else {
      assert Joined(part, 1) == [] + part(0);
    }
  }

  /**
   * Every printable scalar an agent put under a prose key, however deep in arrays, is written by
   * the document, in the rendering of the requested language.
   */
  lemma AgentProseReachesTheScript(input: ExportInput, agent: nat, key: nat, path: seq<nat>, leaf: Value)
    requires agent < |input.agents| && key < |PROSE_ORDER|
    requires Prints(Get(InLanguage(input.agents[agent].1, input.language), PROSE_ORDER[key]), path, leaf)
    ensures exists c :: c in Script(input) && c.Write? && Contains(c.text, Trim(AsString(leaf)))
  {
    var payload := InLanguage(input.agents[agent].1, input.language);
    var value := Get(payload, PROSE_ORDER[key]);
    LeafIsPrinted(value, path, leaf);
    var i :| 0 <= i < |AsLines(value)| && Contains(AsLines(value)[i], Trim(AsString(leaf)));
    var c := Write(AsLines(value)[i], 9, Normal);
    assert Lines(AsLines(value), 9)[i] == c;
    assert c in ProseItem(payload, PROSE_ORDER[key]);
    JoinedSays(ProseItemAt(payload), |PROSE_ORDER|, key, c);
    assert c in Agent(input.agents[agent].0, payload);
    JoinedSays(AgentAt(input.agents, input.language), |input.agents|, agent, c);
    assert c in AgentSection(input);
    assert c in Findings(input);
    assert c in Script(input);
  }

  lemma GuidanceSays(side: string, g: Record, L: PdfLabels)
    ensures Guidance(side, g, L)[0] == Reserve(LINE * 4)
    ensures Guidance(side, g, L)[1] == Write(side, 11, Bold)
    ensures Guidance(side, g, L)[2] == Write(StanceLabel(AsStringOrEmpty(Get(g, "stance"))), 10, Bold)
    ensures forall c :: c in GuidanceDetail(g, L) ==> c in Guidance(side, g, L)
  {}

  lemma DetailSays(g: Record, L: PdfLabels)
    ensures Truthy(Get(g, "rationale")) ==> Write(AsString(Get(g, "rationale")), 10, Normal) in GuidanceDetail(g, L)
    ensures SaysLines(GuidanceDetail(g, L), Get(g, "conditions"), 9)
    ensures SaysLines(GuidanceDetail(g, L), Get(g, "invalidated_if"), 9)
    ensures |Fields(Get(g, "reference_levels"))| > 0 ==>
              Write(Join(LevelTexts(Fields(Get(g, "reference_levels"))), GAP), 9, Normal) in GuidanceDetail(g, L)
  {
    ListsSayLines(GuidanceLists(g, L), 9, 2, 0);
    ListsSayLines(GuidanceLists(g, L), 9, 2, 1);
    SaysWithin(GuidanceRationale(g), Lists(GuidanceLists(g, L), 9, 2), Levels(g), Get(g, "conditions"), 9);
    SaysWithin(GuidanceRationale(g), Lists(GuidanceLists(g, L), 9, 2), Levels(g), Get(g, "invalidated_if"), 9);
    EndsSay(GuidanceRationale(g), Lists(GuidanceLists(g, L), 9, 2), Levels(g));
  }

  /** A script writes every printable line of a value. */
  ghost predicate SaysLines(script: seq<Command>, values: Value, size: nat) {
    forall i :: 0 <= i < |AsLines(values)| ==> Write(AsLines(values)[i], size, Normal) in script
  }

  lemma SaysWithin(a: seq<Command>, b: seq<Command>, c: seq<Command>, values: Value, size: nat)
    requires SaysLines(b, values, size)
    ensures SaysLines(a + b + c, values, size)
  {}

  lemma EndsSay(a: seq<Command>, b: seq<Command>, c: seq<Command>)
    ensures forall x :: x in a || x in b || x in c ==> x in a + b + c
  {}

  lemma LinesSay(name: string, size: nat, values: Value, k: nat)
    requires k < |AsLines(values)|
    ensures Write(AsLines(values)[k], size, Normal) in List(name, size, values)
  {
    assert Lines(AsLines(values), size)[k] == Write(AsLines(values)[k], size, Normal);
  }

  lemma ListsSayLines(lists: seq<(string, Value)>, size: nat, n: nat, k: nat)
    requires k < n <= |lists|
    ensures SaysLines(Lists(lists, size, n), lists[k].1, size)
  {
    forall i | 0 <= i < |AsLines(lists[k].1)|
      ensures Write(AsLines(lists[k].1)[i], size, Normal) in Lists(lists, size, n)
    {
      LinesSay(lists[k].0, size, lists[k].1, i);
      JoinedSays(ListAt(lists, size), n, k, Write(AsLines(lists[k].1)[i], size, Normal));
    }
  }

  /** The reasoning and every line of the three factor lists are written, in the requested language. */
  lemma RecommendationIsWritten(input: ExportInput, k: nat)
    requires Truthy(input.recommendation) && k < 3
    ensures var r := InLanguage(input.recommendation, input.language);
            && Write(LabelText(r), 14, Bold) in Script(input)
            && (Truthy(Get(r, "reasoning")) ==> Write(AsString(Get(r, "reasoning")), 10, Normal) in Script(input))
            && SaysLines(Script(input), FactorLists(r)[k].1, 10)
  {
    var L := input.labels;
    var r := InLanguage(input.recommendation, input.language);
    var detail := RecommendationDetail(r, L);
    ListsSayLines(FactorLists(r), 10, 3, k);
    SaysWithin(RecommendationFields(r, L) + Rationale(r, L), Lists(FactorLists(r), 10, 3), [], FactorLists(r)[k].1, 10);
    assert RecommendationFields(r, L) + Rationale(r, L) + Lists(FactorLists(r), 10, 3) + [] == detail;
    EndsSay(RecommendationFields(r, L), Rationale(r, L), Lists(FactorLists(r), 10, 3));
    EndsSay(Heading(L.recommendation), [Write(LabelText(r), 14, Bold)], detail);
    RecommendationIsScripted(input);
  }

  /** A script writes a labelled value, unless there is none. */
  ghost predicate SaysField(script: seq<Command>, name: string, value: string) {
    value != "" ==> Write(name + ": " + value, 10, Normal) in script
  }

  lemma FieldsSay(r: Record, L: PdfLabels)
    ensures var fields, entry := RecommendationFields(r, L), Get(r, "support_level");
            && SaysField(fields, L.confidence, AsStringOrEmpty(Get(r, "confidence")))
            && SaysField(fields, L.horizon, AsStringOrEmpty(Get(r, "horizon")))
            && SaysField(fields, L.entry, if Truthy(entry) then AsString(entry) else "")
            && SaysField(fields, L.target, JoinTruthy(Get(r, "target_price"), Get(r, "target_price_method")))
            && SaysField(fields, L.stop, JoinTruthy(Get(r, "suggested_stop"), Get(r, "suggested_stop_method")))
  {
    var entry := Get(r, "support_level");
    var level := if Truthy(entry) then AsString(entry) else "";
    var confidence, horizon := AsStringOrEmpty(Get(r, "confidence")), AsStringOrEmpty(Get(r, "horizon"));
    var target := JoinTruthy(Get(r, "target_price"), Get(r, "target_price_method"));
    var stop := JoinTruthy(Get(r, "suggested_stop"), Get(r, "suggested_stop_method"));
    FieldSays(L.confidence, confidence);
    FieldSays(L.horizon, horizon);
    FieldSays(L.entry, level);
    FieldSays(L.target, target);
    FieldSays(L.stop, stop);
    FiveSay(Field(L.confidence, confidence), Field(L.horizon, horizon), Field(L.entry, level),
            Field(L.target, target), Field(L.stop, stop));
  }

  lemma FieldSays(name: string, value: string)
    ensures SaysField(Field(name, value), name, value)
  {}

  lemma FiveSay(a: seq<Command>, b: seq<Command>, c: seq<Command>, d: seq<Command>, e: seq<Command>)
    ensures forall x :: x in a || x in b || x in c || x in d || x in e ==> x in a + b + c + d + e
  {}

  /** So are its confidence, horizon, entry, target and stop, a price always with its method beside it. */
  lemma RecommendationFieldsAreWritten(input: ExportInput)
    requires Truthy(input.recommendation)
    ensures var r, L := InLanguage(input.recommendation, input.language), input.labels;
            var entry := Get(r, "support_level");
            && SaysField(Script(input), L.confidence, AsStringOrEmpty(Get(r, "confidence")))
            && SaysField(Script(input), L.horizon, AsStringOrEmpty(Get(r, "horizon")))
            && SaysField(Script(input), L.entry, if Truthy(entry) then AsString(entry) else "")
            && SaysField(Script(input), L.target, JoinTruthy(Get(r, "target_price"), Get(r, "target_price_method")))
            && SaysField(Script(input), L.stop, JoinTruthy(Get(r, "suggested_stop"), Get(r, "suggested_stop_method")))
  {
    var r, L := InLanguage(input.recommendation, input.language), input.labels;
    FieldsSay(r, L);
    forall c | c in RecommendationFields(r, L) ensures c in Script(input) {
      FieldIsScripted(input, r, c);
    }
  }

  lemma FieldIsScripted(input: ExportInput, r: Record, c: Command)
    requires Truthy(input.recommendation) && r == InLanguage(input.recommendation, input.language)
    requires c in RecommendationFields(r, input.labels)
    ensures c in Script(input)
  {
    var L := input.labels;
    EndsSay(RecommendationFields(r, L), Rationale(r, L), Lists(FactorLists(r), 10, 3));
    EndsSay(Heading(L.recommendation), [Write(LabelText(r), 14, Bold)], RecommendationDetail(r, L));
    RecommendationIsScripted(input);
  }

  lemma RecommendationIsScripted(input: ExportInput)
    ensures forall c :: c in Recommendation(input) ==> c in Script(input)
  {
    forall c | c in Recommendation(input) ensures c in Script(input) {
      assert c in Findings(input);
    }
  }

  lemma StrategyIsScripted(input: ExportInput)
    ensures forall c :: c in Strategy(input) ==> c in Script(input)
  {
    forall c | c in Strategy(input) ensures c in Script(input) {
      assert c in Findings(input);
    }
  }

  /**
   * Both sides of a strategy are written whatever either payload holds: each with its stance, its
   * rationale, every condition, every line of what would invalidate it and its reference levels.
   */
  lemma BothSidesAreWritten(input: ExportInput, k: nat)
    requires Truthy(input.strategy) && k < 2
    ensures var side := Sides(input)[k];
            var script := Script(input);
            && Write(side.0, 11, Bold) in script
            && Write(StanceLabel(AsStringOrEmpty(Get(side.1, "stance"))), 10, Bold) in script
            && (Truthy(Get(side.1, "rationale")) ==> Write(AsString(Get(side.1, "rationale")), 10, Normal) in script)
            && SaysLines(script, Get(side.1, "conditions"), 9)
            && SaysLines(script, Get(side.1, "invalidated_if"), 9)
            && (|Fields(Get(side.1, "reference_levels"))| > 0 ==>
                  Write(Join(LevelTexts(Fields(Get(side.1, "reference_levels"))), GAP), 9, Normal) in script)
  {
    var L := input.labels;
    var side := Sides(input)[k];
    var one := Guidance(side.0, side.1, L);
    DetailSays(side.1, L);
    GuidanceSays(side.0, side.1, L);
    StrategyIsScripted(input);
    assert one[1] in one && one[2] in one;
    forall c | c in one ensures c in Script(input) {
      GuidanceIsInStrategy(input, k, c);
    }
  }

  /** The sides the document writes, in terms the strategy panel is compared in. */
  lemma SidesAreExported(input: ExportInput)
    ensures var strategy := Fields(input.strategy);
            && Sides(input)[0].1 == Translation.ExportedSide(strategy, "not_holding", input.language)
            && Sides(input)[1].1 == Translation.ExportedSide(strategy, "holding", input.language)
  {}

  /** So a strategy whose sides carry no versions is written alike in every language. */
  lemma StrategySectionIgnoresLanguage(input: ExportInput, other: string)
    requires Translation.Versionless(Get(Fields(input.strategy), "not_holding"))
    requires Translation.Versionless(Get(Fields(input.strategy), "holding"))
    ensures Strategy(input.(language := other)) == Strategy(input)
  {
    var strategy := Fields(input.strategy);
    SidesAreExported(input);
    SidesAreExported(input.(language := other));
    Translation.StrategyExportIgnoresLanguage(strategy, "not_holding", input.language);
    Translation.StrategyExportIgnoresLanguage(strategy, "holding", input.language);
    assert Sides(input.(language := other)) == Sides(input);
  }

  lemma GuidanceIsInStrategy(input: ExportInput, k: nat, c: Command)
    requires Truthy(input.strategy) && k < 2
    requires c in Guidance(Sides(input)[k].0, Sides(input)[k].1, input.labels)
    ensures c in Strategy(input)
  {
    JoinedSays(GuidanceAt(Sides(input), input.labels), 2, k, c);
    InEither(Heading(input.labels.strategy), Guidances(Sides(input), input.labels, 2), c);
  }

  // --- the room it asks for --------------------------------------------------

  /** No reservation of its own: once a line is on the page, only single lines can break it. */
  predicate Plain(script: seq<Command>) {
    forall i :: 0 <= i < |script| ==> !script[i].Reserve?
  }

  lemma {:induction false} PlainIsRoomy(script: seq<Command>, room: nat)
    requires Plain(script)
    ensures Roomy(Spoke, script, room) && After(Spoke, script) == Spoke
  {
    if |script| > 0 {
      PlainIsRoomy(script[..|script| - 1], room);
    }
  }

  lemma PlainConcat(a: seq<Command>, b: seq<Command>)
    requires Plain(a) && Plain(b)
    ensures Plain(a + b)
  {}

  lemma RoomyStep(lull: Lull, script: seq<Command>, c: Command, room: nat)
    ensures After(lull, script + [c]) == Next(After(lull, script), c)
    ensures Roomy(lull, script + [c], room) <==> Roomy(lull, script, room) && Fits(After(lull, script), c, room)
  {
    assert (script + [c])[..|script|] == script;
  }

  lemma HeadingIsRoomy(lull: Lull, title: string)
    requires lull == Spoke || lull == Silent(0)
    ensures Roomy(lull, Heading(title), LINE * 3) && After(lull, Heading(title)) == Spoke
  {
    var a := [Reserve(LINE * 3)];
    var b := a + [Skip(8)];
    var c := b + [Write(title, 12, Bold)];
    var d := c + [Underline];
    assert [] + [Reserve(LINE * 3)] == a;
    RoomyStep(lull, [], Reserve(LINE * 3), LINE * 3);
    RoomyStep(lull, a, Skip(8), LINE * 3);
    RoomyStep(lull, b, Write(title, 12, Bold), LINE * 3);
    RoomyStep(lull, c, Underline, LINE * 3);
    RoomyStep(lull, d, Skip(4), LINE * 3);
    assert Heading(title) == d + [Skip(4)];
  }

  lemma {:induction false} JoinedPlain(part: nat -> seq<Command>, n: nat)
    requires forall k :: 0 <= k < n ==> Plain(part(k))
    ensures Plain(Joined(part, n))
  {
    if n > 0 {
      JoinedPlain(part, n - 1);
      PlainConcat(Joined(part, n - 1), part(n - 1));
    }
  }

  lemma ListsArePlain(lists: seq<(string, Value)>, size: nat, n: nat)
    requires n <= |lists|
    ensures Plain(Lists(lists, size, n))
  {
    forall k | 0 <= k < n ensures Plain(ListAt(lists, size)(k)) {
      ListIsPlain(lists[k].0, size, lists[k].1);
    }
    JoinedPlain(ListAt(lists, size), n);
  }

  lemma ListIsPlain(name: string, size: nat, values: Value)
    ensures Plain(List(name, size, values))
  {
    PlainConcat([Skip(2), Write(name, size, Bold)], Lines(AsLines(values), size));
  }

  lemma AgentsArePlain(agents: Record, language: string)
    ensures Plain(Agents(agents, language, |agents|))
  {
    forall k | 0 <= k < |agents| ensures Plain(AgentAt(agents, language)(k)) {
      AgentIsPlain(agents[k].0, InLanguage(agents[k].1, language));
    }
    JoinedPlain(AgentAt(agents, language), |agents|);
  }

  lemma AgentIsPlain(name: string, payload: Record)
    ensures Plain(Agent(name, payload))
  {
    ProseIsPlain(payload, |PROSE_ORDER|);
    PlainConcat([Write(Label(name), 11, Bold)], AgentProse(payload));
    PlainConcat([Write(Label(name), 11, Bold)] + AgentProse(payload), [Skip(6)]);
  }

  lemma ProseIsPlain(payload: Record, n: nat)
    requires n <= |PROSE_ORDER|
    ensures Plain(ProseItems(payload, n))
  {
    forall k | 0 <= k < n ensures Plain(ProseItemAt(payload)(k)) {
      ProseItemIsPlain(payload, PROSE_ORDER[k]);
    }
    JoinedPlain(ProseItemAt(payload), n);
  }

  lemma ProseItemIsPlain(payload: Record, key: string)
    ensures Plain(ProseItem(payload, key))
  {
    PlainConcat([Write(Label(key), 9, Bold)], Lines(AsLines(Get(payload, key)), 9));
  }

  ghost predicate KeepsSpeaking(script: seq<Command>) {
    Roomy(Spoke, script, LINE * 3) && After(Spoke, script) == Spoke
  }

  lemma SpeakingConcat(a: seq<Command>, b: seq<Command>)
    requires KeepsSpeaking(a) && KeepsSpeaking(b)
    ensures KeepsSpeaking(a + b)
  {
    RoomyConcat(Spoke, a, b, LINE * 3);
  }

  lemma GuidanceKeepsSpeaking(side: string, g: Record, L: PdfLabels)
    ensures KeepsSpeaking(Guidance(side, g, L))
  {
    var stance := Write(StanceLabel(AsStringOrEmpty(Get(g, "stance"))), 10, Bold);
    ListsArePlain(GuidanceLists(g, L), 9, 2);
    PlainConcat(GuidanceRationale(g), Lists(GuidanceLists(g, L), 9, 2));
    PlainConcat(GuidanceRationale(g) + Lists(GuidanceLists(g, L), 9, 2), Levels(g));
    OpenedSideSpeaks(side, stance, GuidanceDetail(g, L));
  }

  lemma OpenedSideSpeaks(side: string, stance: Command, detail: seq<Command>)
    requires Plain(detail) && stance.Write?
    ensures KeepsSpeaking([Reserve(LINE * 4), Write(side, 11, Bold), stance] + detail + [Skip(8)])
  {
    var a := [Reserve(LINE * 4)];
    var b := a + [Write(side, 11, Bold)];
    var rest := [stance] + detail + [Skip(8)];
    PlainIsRoomy(rest, LINE * 3);
    assert [] + [Reserve(LINE * 4)] == a;
    RoomyStep(Spoke, [], Reserve(LINE * 4), LINE * 3);
    RoomyStep(Spoke, a, Write(side, 11, Bold), LINE * 3);
    RoomyConcat(Spoke, b, rest, LINE * 3);
    assert [Reserve(LINE * 4), Write(side, 11, Bold), stance] + detail + [Skip(8)] == b + rest;
  }

  lemma {:induction false} JoinedSpeaks(part: nat -> seq<Command>, n: nat)
    requires forall k :: 0 <= k < n ==> KeepsSpeaking(part(k))
    ensures KeepsSpeaking(Joined(part, n))
  {
    if n > 0 {
      JoinedSpeaks(part, n - 1);
      SpeakingConcat(Joined(part, n - 1), part(n - 1));
    }
  }

  lemma GuidancesKeepSpeaking(sides: seq<(string, Record)>, L: PdfLabels, n: nat)
    requires n <= |sides|
    ensures KeepsSpeaking(Guidances(sides, L, n))
  {
    forall k | 0 <= k < n ensures KeepsSpeaking(GuidanceAt(sides, L)(k)) {
      GuidanceKeepsSpeaking(sides[k].0, sides[k].1, L);
    }
    JoinedSpeaks(GuidanceAt(sides, L), n);
  }

  lemma HeadedSpeaks(title: string, body: seq<Command>)
    requires KeepsSpeaking(body)
    ensures KeepsSpeaking(Heading(title) + body)
  {
    HeadingIsRoomy(Spoke, title);
    SpeakingConcat(Heading(title), body);
  }

  lemma FieldsArePlain(r: Record, L: PdfLabels)
    ensures Plain(RecommendationFields(r, L))
  {
    var entry := Get(r, "support_level");
    var a := Field(L.confidence, AsStringOrEmpty(Get(r, "confidence")));
    var b := Field(L.horizon, AsStringOrEmpty(Get(r, "horizon")));
    var c := Field(L.entry, if Truthy(entry) then AsString(entry) else "");
    var d := Field(L.target, JoinTruthy(Get(r, "target_price"), Get(r, "target_price_method")));
    var e := Field(L.stop, JoinTruthy(Get(r, "suggested_stop"), Get(r, "suggested_stop_method")));
    PlainConcat(a, b);
    PlainConcat(a + b, c);
    PlainConcat(a + b + c, d);
    PlainConcat(a + b + c + d, e);
  }

  lemma DetailIsPlain(r: Record, L: PdfLabels)
    ensures Plain(RecommendationDetail(r, L))
  {
    FieldsArePlain(r, L);
    RationaleIsPlain(r, L);
    ListsArePlain(FactorLists(r), 10, 3);
    PlainThree(RecommendationFields(r, L), Rationale(r, L), Lists(FactorLists(r), 10, 3));
  }

  lemma RationaleIsPlain(r: Record, L: PdfLabels)
    ensures Plain(Rationale(r, L))
  {}

  lemma PlainThree(a: seq<Command>, b: seq<Command>, c: seq<Command>)
    requires Plain(a) && Plain(b) && Plain(c)
    ensures Plain(a + b + c)
  {}

  lemma LabelledSpeaks(title: string, opening: Command, detail: seq<Command>)
    requires opening.Write? && Plain(detail)
    ensures KeepsSpeaking(Heading(title) + [opening] + detail)
  {
    PlainIsRoomy([opening] + detail, LINE * 3);
    HeadedSpeaks(title, [opening] + detail);
    assert Heading(title) + [opening] + detail == Heading(title) + ([opening] + detail);
  }

  lemma RecommendationKeepsSpeaking(input: ExportInput)
    ensures KeepsSpeaking(Recommendation(input))
  {
    var L := input.labels;
    if Truthy(input.recommendation) {
      var r := InLanguage(input.recommendation, input.language);
      DetailIsPlain(r, L);
      LabelledSpeaks(L.recommendation, Write(LabelText(r), 14, Bold), RecommendationDetail(r, L));
    }
  }

  lemma StrategyKeepsSpeaking(input: ExportInput)
    ensures KeepsSpeaking(Strategy(input))
  {
    GuidancesKeepSpeaking(Sides(input), input.labels, 2);
    HeadedSpeaks(input.labels.strategy, Guidances(Sides(input), input.labels, 2));
  }

  lemma AgentsKeepSpeaking(input: ExportInput)
    ensures KeepsSpeaking(AgentSection(input))
  {
    var all := Agents(input.agents, input.language, |input.agents|);
    AgentsArePlain(input.agents, input.language);
    PlainIsRoomy(all, LINE * 3);
    HeadedSpeaks(input.labels.agents, all);
  }

  /** A document that opens with a line and goes on speaking. */
  lemma OpeningThenSpeaking(first: Command, rest: seq<Command>)
    requires first.Write? && KeepsSpeaking(rest)
    ensures Roomy(Silent(0), [first] + rest, LINE * 3) && After(Silent(0), [first] + rest) == Spoke
  {
    RoomyStep(Silent(0), [], first, LINE * 3);
    assert [] + [first] == [first];
    RoomyConcat(Silent(0), [first], rest, LINE * 3);
  }

  lemma FindingsAreRoomy(input: ExportInput)
    ensures Roomy(Silent(0), Findings(input), LINE * 3) && After(Silent(0), Findings(input)) == Spoke
  {
    var first, rest := Header(input)[0], Header(input)[1..];
    var r, s, a := Recommendation(input), Strategy(input), AgentSection(input);
    PlainIsRoomy(rest, LINE * 3);
    RecommendationKeepsSpeaking(input);
    StrategyKeepsSpeaking(input);
    AgentsKeepSpeaking(input);
    SpeakingConcat(rest, r);
    SpeakingConcat(rest + r, s);
    SpeakingConcat(rest + r + s, a);
    OpeningThenSpeaking(first, rest + r + s + a);
    Regroup(first, rest, r, s, a);
    assert [first] + rest == Header(input);
  }

  lemma Regroup(first: Command, rest: seq<Command>, r: seq<Command>, s: seq<Command>, a: seq<Command>)
    ensures [first] + (rest + r + s + a) == [first] + rest + r + s + a
  {}

  lemma ScriptIsRoomy(input: ExportInput)
    ensures Roomy(Silent(0), Script(input), LINE * 3) && After(Silent(0), Script(input)) == Spoke
  {
    var L := input.labels;
    var a := Findings(input);
    var b := a + [Reserve(LINE * 6)];
    var c := b + Heading(L.disclaimer);
    FindingsAreRoomy(input);
    RoomyStep(Silent(0), a, Reserve(LINE * 6), LINE * 3);
    HeadingIsRoomy(Silent(0), L.disclaimer);
    RoomyConcat(Silent(0), b, Heading(L.disclaimer), LINE * 3);
    RoomyStep(Silent(0), c, Write(L.disclaimerBody, 9, Normal), LINE * 3);
  }
}
