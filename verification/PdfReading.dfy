/**
 * What a reader finds in the exported document, from top to bottom and key by key: an independent
 * statement of what the builder's sections add up to.
 */
module PdfReading {
  import Ascii
  import opened Json
  import opened Prose
  import opened PdfSheet
  import opened PdfPages
  import opened PdfScript

  // --- the reading -----------------------------------------------------------

  function Title(text: string): seq<Command> {
    [Reserve(42), Skip(8), Write(text, 12, Bold), Underline, Skip(4)]
  }

  /** A name and what it stands for, where it stands for anything. */
  function Said(name: string, value: string): seq<Command> {
    if value == "" then [] else [Write(name + ": " + value, 10, Normal)]
  }

  /** A name over the lines of a value, where there are any, the lines below it in their order. */
  function Under(name: string, value: Value, size: nat): seq<Command> {
    if |AsLines(value)| == 0 then []
    else [Skip(2), Write(name, size, Bold)] + seq(|AsLines(value)|, i requires 0 <= i < |AsLines(value)| =>
                                                    Write(AsLines(value)[i], size, Normal))
  }

  /** A price with how it was arrived at, or whichever of the two there is. */
  function Priced(price: Value, how: Value): string {
    if Truthy(price) && Truthy(how) then AsString(price) + " — " + AsString(how)
    else if Truthy(price) then AsString(price)
    else if Truthy(how) then AsString(how)
    else ""
  }

  function HeaderReading(input: ExportInput): seq<Command> {
    var L := input.labels;
    [Write(input.ticker + " — " + L.title, 18, Bold),
     Write(L.generated + ": " + input.generatedAt + "    " + L.timeframe + ": " + input.timeframe, 9, Normal),
     Skip(6)]
  }

  function ReasonReading(r: Record, L: PdfLabels): seq<Command> {
    if Truthy(Get(r, "reasoning"))
    then [Skip(4), Write(L.rationale, 10, Bold), Write(AsString(Get(r, "reasoning")), 10, Normal)]
    else []
  }

  function RecommendationReading(r: Record, L: PdfLabels): seq<Command> {
    Title(L.recommendation)
    + [Write(Spaced(Ascii.Uppercase(AsStringOrEmpty(Get(r, "label")))), 14, Bold)]
    + (Said(L.confidence, AsStringOrEmpty(Get(r, "confidence")))
       + Said(L.horizon, AsStringOrEmpty(Get(r, "horizon")))
       + Said(L.entry, if Truthy(Get(r, "support_level")) then AsString(Get(r, "support_level")) else "")
       + Said(L.target, Priced(Get(r, "target_price"), Get(r, "target_price_method")))
       + Said(L.stop, Priced(Get(r, "suggested_stop"), Get(r, "suggested_stop_method")))
       + ReasonReading(r, L)
       + (Under("Supporting Factors", Get(r, "supporting_factors"), 10)
          + Under("Conflicting Factors", Get(r, "conflicting_factors"), 10)
          + Under("Risk Factors", Get(r, "risk_factors"), 10)))
  }

  function LevelsReading(levels: Record): seq<Command> {
    if |levels| == 0 then []
    else
      var texts := seq(|levels|, i requires 0 <= i < |levels| => Label(levels[i].0) + ": " + AsString(levels[i].1));
      [Skip(2), Write(Join(texts, "    "), 9, Normal)]
  }

  /** One side: its title and stance, why, on which conditions, what would prove it wrong, and the levels. */
  function SideReading(title: string, g: Record, L: PdfLabels): seq<Command> {
    [Reserve(56), Write(title, 11, Bold), Write(StanceLabel(AsStringOrEmpty(Get(g, "stance"))), 10, Bold)]
    + ((if Truthy(Get(g, "rationale")) then [Write(AsString(Get(g, "rationale")), 10, Normal)] else [])
       + (Under(L.conditions, Get(g, "conditions"), 9) + Under(L.invalidatedIf, Get(g, "invalidated_if"), 9))
       + LevelsReading(Fields(Get(g, "reference_levels"))))
    + [Skip(8)]
  }

  function StrategyReading(strategy: Record, language: string, L: PdfLabels): seq<Command> {
    Title(L.strategy)
    + (SideReading(L.notHolding, InLanguage(Get(strategy, "not_holding"), language), L)
       + SideReading(L.holding, InLanguage(Get(strategy, "holding"), language), L))
  }

  /** A prose key over its lines, without space before it. */
  function Told(name: string, value: Value): seq<Command> {
    if |AsLines(value)| == 0 then []
    else [Write(name, 9, Bold)] + seq(|AsLines(value)|, i requires 0 <= i < |AsLines(value)| =>
                                        Write(AsLines(value)[i], 9, Normal))
  }

  function FirstTold(p: Record): seq<Command> {
    Told("Summary", Get(p, "summary")) + Told("Thesis", Get(p, "thesis"))
    + Told("Rationale", Get(p, "rationale")) + Told("Assessment", Get(p, "assessment"))
  }

  function ThenTold(p: Record): seq<Command> {
    Told("Interpretation", Get(p, "interpretation")) + Told("Notes", Get(p, "notes"))
    + Told("Agreements", Get(p, "agreements")) + Told("Disagreements", Get(p, "disagreements"))
  }

  function LastTold(p: Record): seq<Command> {
    Told("Supporting Signals", Get(p, "supporting_signals"))
    + Told("Conflicting Factors", Get(p, "conflicting_factors"))
    + Told("Risk Factors", Get(p, "risk_factors")) + Told("Watch Items", Get(p, "watch_items"))
  }

  /** An agent's name and the twelve kinds of prose, in this order; a dash for one with none. */
  function AgentReading(name: string, p: Record): seq<Command> {
    var told := FirstTold(p) + ThenTold(p) + LastTold(p);
    [Write(Label(name), 11, Bold)] + (if told == [] then [Write("—", 9, Normal)] else told) + [Skip(6)]
  }

  function AgentReadingAt(agents: Record, language: string): nat -> seq<Command> {
    (k: nat) => if k < |agents| then AgentReading(agents[k].0, InLanguage(agents[k].1, language)) else []
  }

  /** Every agent, in the order the payload has them. */
  function AgentsReading(agents: Record, language: string): seq<Command> {
    Joined(AgentReadingAt(agents, language), |agents|)
  }

  /** The whole document: header, recommendation, strategy, agents, disclaimer. */
  function Reading(input: ExportInput): seq<Command> {
    var L := input.labels;
    HeaderReading(input)
    + (if Truthy(input.recommendation)
       then RecommendationReading(InLanguage(input.recommendation, input.language), L) else [])
    + (if Truthy(input.strategy) then StrategyReading(Fields(input.strategy), input.language, L) else [])
    + (if |input.agents| > 0 then Title(L.agents) + AgentsReading(input.agents, input.language) else [])
    + [Reserve(84)] + Title(L.disclaimer) + [Write(L.disclaimerBody, 9, Normal)]
  }

  // --- the sections read so --------------------------------------------------

  lemma TitleReads(text: string)
    ensures Heading(text) == Title(text)
  {}

  lemma HeaderReads(input: ExportInput)
    ensures Header(input) == HeaderReading(input)
  {}

  lemma LinesAre(lines: seq<string>, size: nat)
    ensures |Lines(lines, size)| == |lines|
    ensures forall i :: 0 <= i < |lines| ==> Lines(lines, size)[i] == Write(lines[i], size, Normal)
  {}

  lemma UnderReads(name: string, size: nat, value: Value)
    ensures List(name, size, value) == Under(name, value, size)
  {
    LinesAre(AsLines(value), size);
    assert |AsLines(value)| > 0 ==>
             Lines(AsLines(value), size) ==
             seq(|AsLines(value)|, i requires 0 <= i < |AsLines(value)| => Write(AsLines(value)[i], size, Normal));
  }

  lemma ToldReads(key: string, name: string, p: Record)
    requires Label(key) == name
    ensures ProseItem(p, key) == Told(name, Get(p, key))
  {
    var value := Get(p, key);
    LinesAre(AsLines(value), 9);
    assert |AsLines(value)| > 0 ==>
             Lines(AsLines(value), 9) ==
             seq(|AsLines(value)|, i requires 0 <= i < |AsLines(value)| => Write(AsLines(value)[i], 9, Normal));
  }

  lemma PricedReads(price: Value, how: Value)
    ensures JoinTruthy(price, how) == Priced(price, how)
  {
    if Truthy(price) { JoinTwo(AsString(price), AsString(how), DASH); }
    if !Truthy(price) && Truthy(how) { JoinTwo(AsString(how), "", DASH); }
    assert (if Truthy(price) then [AsString(price)] else []) + (if Truthy(how) then [AsString(how)] else []) ==
           if Truthy(price) && Truthy(how) then [AsString(price), AsString(how)]
           else if Truthy(price) then [AsString(price)]
           else if Truthy(how) then [AsString(how)] else [];
  }

  lemma FieldsRead(r: Record, L: PdfLabels)
    ensures RecommendationFields(r, L) ==
            Said(L.confidence, AsStringOrEmpty(Get(r, "confidence")))
            + Said(L.horizon, AsStringOrEmpty(Get(r, "horizon")))
            + Said(L.entry, if Truthy(Get(r, "support_level")) then AsString(Get(r, "support_level")) else "")
            + Said(L.target, Priced(Get(r, "target_price"), Get(r, "target_price_method")))
            + Said(L.stop, Priced(Get(r, "suggested_stop"), Get(r, "suggested_stop_method")))
  {
    PricedReads(Get(r, "target_price"), Get(r, "target_price_method"));
    PricedReads(Get(r, "suggested_stop"), Get(r, "suggested_stop_method"));
  }

  lemma JoinedThree(part: nat -> seq<Command>)
    ensures Joined(part, 2) == part(0) + part(1) && Joined(part, 3) == part(0) + part(1) + part(2)
  {
    assert Joined(part, 1) == [] + part(0);
  }

  lemma FactorLabels()
    ensures Label("supporting_factors") == "Supporting Factors"
    ensures Label("conflicting_factors") == "Conflicting Factors"
    ensures Label("risk_factors") == "Risk Factors"
  {
    SupportingLabel();
    ConflictingLabel();
    RiskLabel();
  }

  lemma SupportingLabel()
    ensures Label("supporting_factors") == "Supporting Factors"
  {
    LabelIs("supporting_factors", "Supporting Factors");
  }

  lemma ConflictingLabel()
    ensures Label("conflicting_factors") == "Conflicting Factors"
  {
    LabelIs("conflicting_factors", "Conflicting Factors");
  }

  lemma RiskLabel()
    ensures Label("risk_factors") == "Risk Factors"
  {
    LabelIs("risk_factors", "Risk Factors");
  }

  predicate Capital(key: string, i: nat)
    requires i < |key|
  {
    'a' <= key[i] <= 'z' && (i == 0 || key[i - 1] == '_')
  }

  lemma LabelIs(key: string, name: string)
    requires |key| == |name| && forall i :: 0 <= i < |key| ==> key[i] == '_' || 'a' <= key[i] <= 'z'
    requires forall i :: 0 <= i < |key| ==>
               name[i] as int == if key[i] == '_' then 32 else if Capital(key, i) then key[i] as int - 32
                                 else key[i] as int
    ensures Label(key) == name
  {
    forall i | 0 <= i < |key| ensures Label(key)[i] == name[i] {
      LabelReads(key, i);
    }
  }

  lemma FactorsRead(r: Record)
    ensures Lists(FactorLists(r), 10, 3) ==
            Under("Supporting Factors", Get(r, "supporting_factors"), 10)
            + Under("Conflicting Factors", Get(r, "conflicting_factors"), 10)
            + Under("Risk Factors", Get(r, "risk_factors"), 10)
  {
    var part := ListAt(FactorLists(r), 10);
    FactorLabels();
    JoinedThree(part);
    UnderReads("Supporting Factors", 10, Get(r, "supporting_factors"));
    UnderReads("Conflicting Factors", 10, Get(r, "conflicting_factors"));
    UnderReads("Risk Factors", 10, Get(r, "risk_factors"));
    FactorsAt(r);
  }

  lemma FactorsAt(r: Record)
    requires Label("supporting_factors") == "Supporting Factors"
    requires Label("conflicting_factors") == "Conflicting Factors" && Label("risk_factors") == "Risk Factors"
    ensures var part := ListAt(FactorLists(r), 10);
            && part(0) == List("Supporting Factors", 10, Get(r, "supporting_factors"))
            && part(1) == List("Conflicting Factors", 10, Get(r, "conflicting_factors"))
            && part(2) == List("Risk Factors", 10, Get(r, "risk_factors"))
  {}

  lemma ReasonReads(r: Record, L: PdfLabels)
    ensures Rationale(r, L) == ReasonReading(r, L)
  {}

  lemma RecommendationReads(input: ExportInput)
    requires Truthy(input.recommendation)
    ensures Recommendation(input) ==
            RecommendationReading(InLanguage(input.recommendation, input.language), input.labels)
  {
    var r, L := InLanguage(input.recommendation, input.language), input.labels;
    TitleReads(L.recommendation);
    FieldsRead(r, L);
    ReasonReads(r, L);
    FactorsRead(r);
  }

  lemma LevelsRead(g: Record)
    ensures Levels(g) == LevelsReading(Fields(Get(g, "reference_levels")))
  {
    var levels := Fields(Get(g, "reference_levels"));
    assert LevelTexts(levels) ==
           seq(|levels|, i requires 0 <= i < |levels| => Label(levels[i].0) + ": " + AsString(levels[i].1));
  }

  lemma ConditionsRead(g: Record, L: PdfLabels)
    ensures Lists(GuidanceLists(g, L), 9, 2) ==
            Under(L.conditions, Get(g, "conditions"), 9) + Under(L.invalidatedIf, Get(g, "invalidated_if"), 9)
  {
    JoinedThree(ListAt(GuidanceLists(g, L), 9));
    UnderReads(L.conditions, 9, Get(g, "conditions"));
    UnderReads(L.invalidatedIf, 9, Get(g, "invalidated_if"));
  }

  lemma SideReads(title: string, g: Record, L: PdfLabels)
    ensures Guidance(title, g, L) == SideReading(title, g, L)
  {
    ConditionsRead(g, L);
    LevelsRead(g);
  }

  lemma StrategyReads(input: ExportInput)
    requires Truthy(input.strategy)
    ensures Strategy(input) == StrategyReading(Fields(input.strategy), input.language, input.labels)
  {
    var strategy, L := Fields(input.strategy), input.labels;
    TitleReads(L.strategy);
    JoinedThree(GuidanceAt(Sides(input), L));
    SideReads(L.notHolding, InLanguage(Get(strategy, "not_holding"), input.language), L);
    SideReads(L.holding, InLanguage(Get(strategy, "holding"), input.language), L);
  }

  lemma FirstLabels()
    ensures Label("summary") == "Summary" && Label("thesis") == "Thesis"
  {
    LabelIs("summary", "Summary");
    LabelIs("thesis", "Thesis");
  }

  lemma SecondLabels()
    ensures Label("rationale") == "Rationale" && Label("assessment") == "Assessment"
  {
    LabelIs("rationale", "Rationale");
    LabelIs("assessment", "Assessment");
  }

  lemma ThirdLabels()
    ensures Label("interpretation") == "Interpretation" && Label("notes") == "Notes"
  {
    LabelIs("interpretation", "Interpretation");
    LabelIs("notes", "Notes");
  }

  lemma FourthLabels()
    ensures Label("agreements") == "Agreements" && Label("disagreements") == "Disagreements"
  {
    LabelIs("agreements", "Agreements");
    LabelIs("disagreements", "Disagreements");
  }

  lemma LastLabels()
    ensures Label("supporting_signals") == "Supporting Signals" && Label("watch_items") == "Watch Items"
  {
    LabelIs("supporting_signals", "Supporting Signals");
    LabelIs("watch_items", "Watch Items");
  }

  lemma ToldAt(p: Record, k: nat, key: string, name: string)
    requires k < |PROSE_ORDER| && PROSE_ORDER[k] == key && Label(key) == name
    ensures ProseItemAt(p)(k) == Told(name, Get(p, key))
  {
    ToldReads(key, name, p);
  }

  lemma ProseOrderIs()
    ensures |PROSE_ORDER| == 12
    ensures PROSE_ORDER[0] == "summary" && PROSE_ORDER[1] == "thesis" && PROSE_ORDER[2] == "rationale"
    ensures PROSE_ORDER[3] == "assessment" && PROSE_ORDER[4] == "interpretation" && PROSE_ORDER[5] == "notes"
    ensures PROSE_ORDER[6] == "agreements" && PROSE_ORDER[7] == "disagreements"
    ensures PROSE_ORDER[8] == "supporting_signals" && PROSE_ORDER[9] == "conflicting_factors"
    ensures PROSE_ORDER[10] == "risk_factors" && PROSE_ORDER[11] == "watch_items"
  {}

  lemma FirstReads(p: Record)
    ensures Joined(ProseItemAt(p), 4) == FirstTold(p)
  {
    ProseOrderIs();
    FirstLabels();
    SecondLabels();
    ToldAt(p, 0, "summary", "Summary");
    ToldAt(p, 1, "thesis", "Thesis");
    ToldAt(p, 2, "rationale", "Rationale");
    ToldAt(p, 3, "assessment", "Assessment");
    JoinedFirstFour(ProseItemAt(p));
  }

  /** Four more parts. */
  lemma JoinedFour(part: nat -> seq<Command>, n: nat)
    ensures Joined(part, n + 4) == Joined(part, n) + (part(n) + part(n + 1) + part(n + 2) + part(n + 3))
  {
    assert Joined(part, n + 4) == Joined(part, n) + part(n) + part(n + 1) + part(n + 2) + part(n + 3) by {
      assert Joined(part, n + 1) == Joined(part, n) + part(n);
      assert Joined(part, n + 2) == Joined(part, n + 1) + part(n + 1);
      assert Joined(part, n + 3) == Joined(part, n + 2) + part(n + 2);
    }
    FourTogether(Joined(part, n), part(n), part(n + 1), part(n + 2), part(n + 3));
  }

  lemma JoinedFirstFour(part: nat -> seq<Command>)
    ensures Joined(part, 4) == part(0) + part(1) + part(2) + part(3)
  {
    JoinedFour(part, 0);
    assert Joined(part, 0) == [];
  }

  lemma FourTogether(s: seq<Command>, a: seq<Command>, b: seq<Command>, c: seq<Command>, d: seq<Command>)
    ensures s + a + b + c + d == s + (a + b + c + d)
  {}

  lemma ThenReads(p: Record)
    ensures Joined(ProseItemAt(p), 8) == Joined(ProseItemAt(p), 4) + ThenTold(p)
  {
    ProseOrderIs();
    ThirdLabels();
    FourthLabels();
    ToldAt(p, 4, "interpretation", "Interpretation");
    ToldAt(p, 5, "notes", "Notes");
    ToldAt(p, 6, "agreements", "Agreements");
    ToldAt(p, 7, "disagreements", "Disagreements");
    JoinedFour(ProseItemAt(p), 4);
  }

  lemma LastReads(p: Record)
    ensures Joined(ProseItemAt(p), 12) == Joined(ProseItemAt(p), 8) + LastTold(p)
  {
    ProseOrderIs();
    FactorLabels();
    LastLabels();
    ToldAt(p, 8, "supporting_signals", "Supporting Signals");
    ToldAt(p, 9, "conflicting_factors", "Conflicting Factors");
    ToldAt(p, 10, "risk_factors", "Risk Factors");
    ToldAt(p, 11, "watch_items", "Watch Items");
    JoinedFour(ProseItemAt(p), 8);
  }

  lemma AgentReads(name: string, p: Record)
    ensures Agent(name, p) == AgentReading(name, p)
  {
    FirstReads(p);
    ThenReads(p);
    LastReads(p);
    ProseOrderIs();
    AgentFrom(name, p, Joined(ProseItemAt(p), 12));
  }

  lemma AgentFrom(name: string, p: Record, prose: seq<Command>)
    requires prose == ProseItems(p, |PROSE_ORDER|) && prose == FirstTold(p) + ThenTold(p) + LastTold(p)
    ensures Agent(name, p) == AgentReading(name, p)
  {}

  lemma {:induction false} JoinedAlike(a: nat -> seq<Command>, b: nat -> seq<Command>, n: nat)
    requires forall k :: 0 <= k < n ==> a(k) == b(k)
    ensures Joined(a, n) == Joined(b, n)
  {
    if n > 0 {
      JoinedAlike(a, b, n - 1);
    }
  }

  lemma AgentsRead(agents: Record, language: string)
    ensures Agents(agents, language, |agents|) == AgentsReading(agents, language)
  {
    forall k | 0 <= k < |agents| ensures AgentAt(agents, language)(k) == AgentReadingAt(agents, language)(k) {
      AgentReads(agents[k].0, InLanguage(agents[k].1, language));
    }
    JoinedAlike(AgentAt(agents, language), AgentReadingAt(agents, language), |agents|);
  }

  lemma AgentSectionReads(input: ExportInput)
    ensures AgentSection(input) ==
            if |input.agents| > 0 then Title(input.labels.agents) + AgentsReading(input.agents, input.language) else []
  {
    TitleReads(input.labels.agents);
    AgentsRead(input.agents, input.language);
  }

  /** The builder's commands are the reading, command by command. */
  lemma ScriptReads(input: ExportInput)
    ensures Script(input) == Reading(input)
  {
    HeaderReads(input);
    if Truthy(input.recommendation) { RecommendationReads(input); }
    if Truthy(input.strategy) { StrategyReads(input); }
    AgentSectionReads(input);
    TitleReads(input.labels.disclaimer);
  }
}
