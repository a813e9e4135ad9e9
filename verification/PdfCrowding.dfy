/** An ordinary export on A4 whose strategy heading is left behind on the first page. */
module PdfCrowding {
  import opened Json
  import opened Prose
  import opened PdfSheet
  import opened PdfPages
  import opened PdfScript
  import opened PdfDocument

  /** Texts cut into lines of ninety characters. */
  function Wrapped(text: string): seq<string> {
    if |text| <= 90 then [text] else [text[..90]] + Wrapped(text[90..])
  }

  function Wrapping(): Splitter {
    (text, size, style) => Wrapped(text)
  }

  function LongReasoning(): string {
    seq(3420, _ => 'a')
  }

  /** A recommendation whose reasoning runs to 38 such lines, exported with its strategy. */
  function Reasoned(): Record {
    [("label", Text("hold")), ("confidence", Number("70")), ("horizon", Text("medium")),
     ("reasoning", Text(LongReasoning()))]
  }

  function ReasonedExport(): ExportInput {
    ExportInput("BBCA", "en", "1D", "2026-01-05", Object(Reasoned()), Object([]), [],
                PdfLabels("Analysis", "Generated", "Timeframe", "Recommendation", "Confidence", "Horizon", "Entry",
                          "Target", "Stop", "Rationale", "Strategy", "Not holding", "Holding", "Conditions",
                          "Invalidated if", "Agents", "Disclaimer", "Not advice.", "Page"))
  }

  lemma {:induction false} WrappedLines(text: string, n: nat)
    requires n > 0 && 90 * (n - 1) < |text| <= 90 * n
    ensures |Wrapped(text)| == n
  {
    if n > 1 {
      WrappedLines(text[90..], n - 1);
    }
  }

  lemma {:induction false} WrappedIsProductive(text: string)
    ensures |Wrapped(text)| >= 1
  {}

  lemma AbsentByLength(r: Record, key: string)
    requires forall i :: 0 <= i < |r| ==> |r[i].0| != |key|
    ensures Get(r, key) == Undefined
  {
    GetAbsent(r, key);
  }

  lemma ReasonedReads()
    ensures var r := Reasoned();
            && InLanguage(Object(r), "en") == r
            && Get(r, "label") == Text("hold") && Get(r, "confidence") == Number("70")
            && Get(r, "horizon") == Text("medium") && Get(r, "reasoning") == Text(LongReasoning())
  {
    var r := Reasoned();
    assert |"label"| == 5 && |"confidence"| == 10 && |"horizon"| == 7 && |"reasoning"| == 9;
    assert |"translations"| == 12;
    assert r[1..][0] == r[1] && r[1..][1..] == r[2..] && r[2..][0] == r[2];
    assert r[2..][1..] == r[3..] && r[3..][0] == r[3];
    assert Get(r, "horizon") == Get(r[1..], "horizon") == Get(r[2..], "horizon");
    assert Get(r, "reasoning") == Get(r[1..], "reasoning") == Get(r[2..], "reasoning") == Get(r[3..], "reasoning");
    AbsentByLength(r, "translations");
  }

  lemma ReasonedLacks()
    ensures var r := Reasoned();
            && Get(r, "support_level") == Undefined
            && Get(r, "target_price") == Undefined && Get(r, "target_price_method") == Undefined
            && Get(r, "suggested_stop") == Undefined && Get(r, "suggested_stop_method") == Undefined
            && Get(r, "supporting_factors") == Undefined && Get(r, "conflicting_factors") == Undefined
            && Get(r, "risk_factors") == Undefined
  {
    var r := Reasoned();
    assert |"label"| == 5 && |"confidence"| == 10 && |"horizon"| == 7 && |"reasoning"| == 9;
    assert |"support_level"| == 13 && |"target_price"| == 12 && |"target_price_method"| == 19;
    assert |"suggested_stop"| == 14 && |"suggested_stop_method"| == 21 && |"supporting_factors"| == 18;
    assert |"conflicting_factors"| == 19 && |"risk_factors"| == 12;
    AbsentByLength(r, "support_level");
    AbsentByLength(r, "target_price");
    AbsentByLength(r, "target_price_method");
    AbsentByLength(r, "suggested_stop");
    AbsentByLength(r, "suggested_stop_method");
    AbsentByLength(r, "supporting_factors");
    AbsentByLength(r, "conflicting_factors");
    AbsentByLength(r, "risk_factors");
  }

  /** What such a recommendation writes, after its heading and label. */
  lemma ReasonedDetail(L: PdfLabels)
    ensures RecommendationDetail(Reasoned(), L) ==
            [Write(L.confidence + ": " + "70", 10, Normal), Write(L.horizon + ": " + "medium", 10, Normal),
             Skip(4), Write(L.rationale, 10, Bold), Write(LongReasoning(), 10, Normal)]
  {
    var r := Reasoned();
    ReasonedReads();
    ReasonedLacks();
    ReasonedFields(r, L);
    NoFactors(r);
    DetailOf(r, L);
  }

  lemma DetailOf(r: Record, L: PdfLabels)
    requires Get(r, "reasoning") == Text(LongReasoning()) && Lists(FactorLists(r), 10, 3) == []
    ensures RecommendationDetail(r, L) ==
            RecommendationFields(r, L)
            + [Skip(4), Write(L.rationale, 10, Bold), Write(LongReasoning(), 10, Normal)]
  {
    assert |LongReasoning()| == 3420;
  }

  lemma ReasonedFields(r: Record, L: PdfLabels)
    requires Get(r, "confidence") == Number("70") && Get(r, "horizon") == Text("medium")
    requires Get(r, "support_level") == Undefined
    requires Get(r, "target_price") == Undefined && Get(r, "target_price_method") == Undefined
    requires Get(r, "suggested_stop") == Undefined && Get(r, "suggested_stop_method") == Undefined
    ensures RecommendationFields(r, L) ==
            [Write(L.confidence + ": " + "70", 10, Normal), Write(L.horizon + ": " + "medium", 10, Normal)]
  {
    assert JoinTruthy(Undefined, Undefined) == "";
    assert |"70"| == 2 && |"medium"| == 6;
  }

  lemma NoFactors(r: Record)
    requires Get(r, "supporting_factors") == Undefined && Get(r, "conflicting_factors") == Undefined
    requires Get(r, "risk_factors") == Undefined
    ensures Lists(FactorLists(r), 10, 3) == []
  {
    var part := ListAt(FactorLists(r), 10);
    assert part(0) == [] && part(1) == [] && part(2) == [];
    assert Joined(part, 1) == [] && Joined(part, 2) == [];
  }
  /** Single lines but for the reasoning. */
  function ShortScript(title: string, date: string, heading: string, stance: string,
                       confidence: string, horizon: string, rationale: string, reasoning: string): seq<Command> {
    [Write(title, 18, Bold), Write(date, 9, Normal), Skip(6)]
    + (Heading(heading) + [Write(stance, 14, Bold)]
       + [Write(confidence, 10, Normal), Write(horizon, 10, Normal), Skip(4),
          Write(rationale, 10, Bold), Write(reasoning, 10, Normal)])
  }

  lemma ShortScriptAdvance(title: string, date: string, heading: string, stance: string,
                           confidence: string, horizon: string, rationale: string, reasoning: string)
    requires |title| <= 90 && |date| <= 90 && |heading| <= 90 && |stance| <= 90
    requires |confidence| <= 90 && |horizon| <= 90 && |rationale| <= 90 && |reasoning| == 3420
    ensures Advance(Wrapping(), ShortScript(title, date, heading, stance, confidence, horizon, rationale, reasoning))
            == 665
  {
    var a := [Write(title, 18, Bold), Write(date, 9, Normal), Skip(6)];
    var b := Heading(heading) + [Write(stance, 14, Bold)];
    var c := [Write(confidence, 10, Normal), Write(horizon, 10, Normal), Skip(4),
              Write(rationale, 10, Bold), Write(reasoning, 10, Normal)];
    AdvanceConcat(Wrapping(), a, b + c);
    AdvanceConcat(Wrapping(), b, c);
    HeaderAdvance(title, date);
    OpeningAdvance(heading, stance);
    DetailAdvance(confidence, horizon, rationale, reasoning);
  }

  lemma AdvanceFive(split: Splitter, a: Command, b: Command, c: Command, d: Command, e: Command)
    ensures Advance(split, [a, b, c, d, e]) ==
            Move(split, a) + Move(split, b) + Move(split, c) + Move(split, d) + Move(split, e)
  {
    assert [a, b, c, d, e][..4] == [a, b, c, d] && [a, b, c, d][..3] == [a, b, c];
    AdvanceThree(split, a, b, c);
  }

  lemma AdvanceThree(split: Splitter, a: Command, b: Command, c: Command)
    ensures Advance(split, [a, b, c]) == Move(split, a) + Move(split, b) + Move(split, c)
  {
    assert [a, b, c][..2] == [a, b] && [a, b][..1] == [a];
    AdvanceOne(split, a);
  }

  lemma ShortMove(text: string, size: nat, style: Style)
    requires |text| <= 90
    ensures Move(Wrapping(), Write(text, size, style)) == size + 4
  {}

  lemma LongMove(text: string, n: nat, size: nat, style: Style)
    requires n > 0 && 90 * (n - 1) < |text| <= 90 * n
    ensures Move(Wrapping(), Write(text, size, style)) == n * (size + 4)
  {
    WrappedLines(text, n);
  }

  lemma HeaderAdvance(ticker: string, date: string)
    requires |ticker| <= 90 && |date| <= 90
    ensures Advance(Wrapping(), [Write(ticker, 18, Bold), Write(date, 9, Normal), Skip(6)]) == 41
  {
    AdvanceThree(Wrapping(), Write(ticker, 18, Bold), Write(date, 9, Normal), Skip(6));
    ShortMove(ticker, 18, Bold);
    ShortMove(date, 9, Normal);
  }

  lemma OpeningAdvance(title: string, stance: string)
    requires |title| <= 90 && |stance| <= 90
    ensures Advance(Wrapping(), Heading(title) + [Write(stance, 14, Bold)]) == 46
  {
    var a, b, c, d := Reserve(LINE * 3), Skip(8), Write(title, 12, Bold), Skip(4);
    assert Heading(title) == [a, b, c, Underline, d];
    AdvanceConcat(Wrapping(), Heading(title), [Write(stance, 14, Bold)]);
    AdvanceFive(Wrapping(), a, b, c, Underline, d);
    AdvanceOne(Wrapping(), Write(stance, 14, Bold));
    ShortMove(title, 12, Bold);
    ShortMove(stance, 14, Bold);
  }

  lemma DetailAdvance(confidence: string, horizon: string, title: string, reasoning: string)
    requires |confidence| <= 90 && |horizon| <= 90 && |title| <= 90 && |reasoning| == 3420
    ensures Advance(Wrapping(), [Write(confidence, 10, Normal), Write(horizon, 10, Normal), Skip(4),
                                 Write(title, 10, Bold), Write(reasoning, 10, Normal)]) == 578
  {
    AdvanceFive(Wrapping(), Write(confidence, 10, Normal), Write(horizon, 10, Normal), Skip(4),
                Write(title, 10, Bold), Write(reasoning, 10, Normal));
    ShortMove(confidence, 10, Normal);
    ShortMove(horizon, 10, Normal);
    ShortMove(title, 10, Bold);
    LongMove(reasoning, 38, 10, Normal);
  }

  /** The first two sections of an export of this recommendation. */
  lemma ReasonedSections(input: ExportInput)
    requires input.recommendation == Object(Reasoned()) && input.language == "en"
    ensures var h, L := Header(input), input.labels;
            h + Recommendation(input) ==
            ShortScript(h[0].text, h[1].text, L.recommendation, LabelText(Reasoned()),
                        L.confidence + ": " + "70", L.horizon + ": " + "medium", L.rationale, LongReasoning())
  {
    ReasonedReads();
    ReasonedDetail(input.labels);
  }

  /** An ordinary export for which it does: 66 points of the first page are left when the strategy begins. */
  lemma ReasonedExportCrowdsStrategy()
    ensures Productive(Wrapping()) && Truthy(ReasonedExport().strategy)
    ensures |Wrapping()(ReasonedExport().labels.strategy, 12, Bold)| == 1
    ensures CrowdsStrategy(ReasonedExport(), Wrapping())
  {
    forall text, size, style ensures |Wrapping()(text, size, style)| >= 1 { WrappedIsProductive(text); }
    assert |"Strategy"| == 8;
    SmallPrint();
    ReasonedCrowds(ReasonedExport());
  }

  lemma SmallPrint()
    ensures var h, L := Header(ReasonedExport()), ReasonedExport().labels;
            && |h[0].text| <= 90 && |h[1].text| <= 90 && |L.recommendation| <= 90
            && |L.confidence| <= 20 && |L.horizon| <= 20 && |L.rationale| <= 90
  {}

  lemma ReasonedCrowds(input: ExportInput)
    requires input.recommendation == Object(Reasoned()) && input.language == "en"
    requires var h, L := Header(input), input.labels;
             && |h[0].text| <= 90 && |h[1].text| <= 90 && |L.recommendation| <= 90
             && |L.confidence| <= 20 && |L.horizon| <= 20 && |L.rationale| <= 90
    ensures CrowdsStrategy(input, Wrapping())
  {
    var h, L := Header(input), input.labels;
    ReasonedSections(input);
    ReasonedReads();
    assert |LabelText(Reasoned())| == |"hold"| == 4;
    assert |"70"| == 2 && |"medium"| == 6;
    ShortScriptAdvance(h[0].text, h[1].text, L.recommendation, LabelText(Reasoned()),
                       L.confidence + ": " + "70", L.horizon + ": " + "medium", L.rationale, LongReasoning());
  }
}
