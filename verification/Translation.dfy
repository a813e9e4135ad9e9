/** The on-screen language switch, and its agreement with the exported document. */
module Translation {
  import opened Json
  import opened Prose

  predicate IsLang(key: string) {
    key == "id" || key == "en"
  }

  function Other(lang: string): string {
    if lang == "id" then "en" else "id"
  }

  /** What the prose is written in: what the payload says, "id" where it says nothing usable. */
  function Source(fields: Record): string {
    var language := Get(fields, "language");
    if language.Text? && IsLang(language.text) then language.text else "id"
  }

  datatype Found = NotFound | Key(key: string)

  /** The first stored rendering in a known language other than the source. */
  function FirstOther(stored: Record, source: string): Found {
    if |stored| == 0 then NotFound
    else if IsLang(stored[0].0) && stored[0].0 != source then Key(stored[0].0)
    else FirstOther(stored[1..], source)
  }

  /** The language to offer: the reader's own, else a stored one, else the other of the two. */
  function Target(fields: Record, locale: string): string {
    var source := Source(fields);
    if locale != source && IsLang(locale) then locale
    else
      match FirstOther(Fields(Get(fields, "translations")), source)
      case Key(key) => key
      case NotFound => if source == "id" then "en" else "id"
  }

  lemma {:induction false} FirstOtherIsOther(stored: Record, source: string)
    requires IsLang(source)
    ensures FirstOther(stored, source).Key? ==> FirstOther(stored, source).key == Other(source)
  {
    if |stored| > 0 && !(IsLang(stored[0].0) && stored[0].0 != source) {
      FirstOtherIsOther(stored[1..], source);
    }
  }

  /** Three routes to a target, one answer: the switch always offers the language not shown. */
  lemma TargetIsTheOtherLanguage(fields: Record, locale: string)
    ensures Target(fields, locale) == Other(Source(fields))
    ensures Target(fields, locale) != Source(fields)
  {
    FirstOtherIsOther(Fields(Get(fields, "translations")), Source(fields));
  }

  /** What a payload is taken to be written in: what it says, where that is one of the two, else Indonesian. */
  lemma SourceReads(fields: Record)
    ensures Get(fields, "language") == Text("en") ==> Source(fields) == "en"
    ensures Get(fields, "language") != Text("en") ==> Source(fields) == "id"
  {
    assert |"en"| == 2 && "en"[0] == 'e' && "id"[0] == 'i';
  }

  /** The fields on screen, given what the translation endpoint has returned so far. */
  function Rendered(fields: Record, locale: string, showing: bool, fetched: Record): Record {
    var ready := Rendering(fields, Target(fields, locale));
    var translated := if Nullish(ready) then fetched else Fields(ready);
    if showing then Spread(fields, translated) else fields
  }

  /**
   * Where a rendering is stored, the document exported in the offered language holds the fields
   * the screen shows with the switch on, whatever the reader's locale and whatever was fetched.
   */
  lemma ExportAgreesWithScreen(fields: Record, locale: string, fetched: Record)
    requires Truthy(Rendering(fields, Target(fields, locale)))
    ensures InLanguage(Object(fields), Target(fields, locale)) == Rendered(fields, locale, true, fetched)
  {
    TargetIsTheOtherLanguage(fields, locale);
  }

  /**
   * Exporting in the source language is showing the original, switch off, where the payload names
   * that language. Where it names none and yet stores a rendering in it that differs, the two differ.
   */
  lemma SourceExportIsTheOriginalIff(fields: Record, locale: string, fetched: Record, key: string)
    requires Truthy(Rendering(fields, Source(fields)))
    requires var rendered := Fields(Rendering(fields, Source(fields)));
             Has(rendered, key) && Get(rendered, key) != Get(fields, key)
    ensures InLanguage(Object(fields), Source(fields)) == Rendered(fields, locale, false, fetched) <==>
            Get(fields, "language") == Text(Source(fields))
  {
    SpreadReads(fields, Fields(Rendering(fields, Source(fields))), key);
  }

  /** A rendering that says nothing the original does not. */
  ghost predicate SaysTheSame(rendered: Record, fields: Record) {
    forall key :: Has(rendered, key) ==> Get(rendered, key) == Get(fields, key)
  }

  /**
   * Exporting in a language prints the original exactly when none is stored in it, or the payload
   * names it as its own, or the stored one says the same.
   */
  lemma ExportIsTheOriginalIff(fields: Record, language: string)
    ensures (forall key :: Get(InLanguage(Object(fields), language), key) == Get(fields, key)) <==>
            || !Truthy(Rendering(fields, language))
            || Get(fields, "language") == Text(language)
            || SaysTheSame(Fields(Rendering(fields, language)), fields)
  {
    SpreadChangesNothingIff(fields, Fields(Rendering(fields, language)));
  }

  lemma SpreadChangesNothingIff(fields: Record, rendered: Record)
    ensures (forall key :: Get(Spread(fields, rendered), key) == Get(fields, key)) <==> SaysTheSame(rendered, fields)
  {
    if SaysTheSame(rendered, fields) {
      forall key ensures Get(Spread(fields, rendered), key) == Get(fields, key) {
        SpreadReads(fields, rendered, key);
      }
    } else {
      var key :| Has(rendered, key) && Get(rendered, key) != Get(fields, key);
      SpreadReads(fields, rendered, key);
      assert Get(Spread(fields, rendered), key) != Get(fields, key);
    }
  }

  /** A payload that names no language and yet stores a rendering in the one it is taken to be in. */
  function Unnamed(): Record {
    [("summary", Text("y")),
     ("translations", Object([("id", Object([("fields", Object([("summary", Text("x"))]))]))]))]
  }

  /** It does happen: exported in its own language such a payload reads otherwise than on screen. */
  lemma UnnamedPayloadIsReplaced(locale: string, fetched: Record)
    ensures Source(Unnamed()) == "id"
    ensures Get(InLanguage(Object(Unnamed()), "id"), "summary") == Text("x")
    ensures Get(Rendered(Unnamed(), locale, false, fetched), "summary") == Text("y")
  {
    var fields := Unnamed();
    var inner: Record := [("summary", Text("x"))];
    var one := Object([("fields", Object(inner))]);
    assert |"summary"| == 7 && |"translations"| == 12 && |"language"| == 8;
    assert fields[1..][0].0 == "translations" && fields[1..][1..] == [];
    assert Get(fields, "language") == Undefined;
    assert Get(fields, "translations") == Object([("id", one)]);
    assert Get([("id", one)], "id") == one;
    assert Rendering(fields, "id") == Object(inner);
    assert inner[0].0 == "summary" && Has(inner, "summary");
    SpreadReads(fields, inner, "summary");
  }

  /** Overlaying prose never touches a key the rendering does not carry: prices and labels stay. */
  lemma OverlayKeepsTheRest(payload: Value, language: string, key: string)
    ensures var original := Fields(payload);
            var rendered := Fields(Rendering(original, language));
            Get(InLanguage(payload, language), key) == Get(original, key) ||
            (Has(rendered, key) && Get(InLanguage(payload, language), key) == Get(rendered, key))
  {
    SpreadReads(Fields(payload), Fields(Rendering(Fields(payload), language)), key);
  }

  // --- the strategy panel ----------------------------------------------------

  /** The language the panel shows: the one asked for where there is a version in it, else English. */
  function PanelLanguage(strategy: Record, language: string): string {
    if Has(Versions(strategy), language) then language else "en"
  }

  /** One side of the strategy as the panel shows it: versions sit on the strategy, not on its sides. */
  function PanelSide(strategy: Record, side: string, language: string): Record {
    var shown := PanelLanguage(strategy, language);
    if shown == "en" then Fields(Get(strategy, side))
    else Fields(Get(Fields(Get(Versions(strategy), shown)), side))
  }

  /** One side of the strategy as the document prints it. */
  function ExportedSide(strategy: Record, side: string, language: string): Record {
    InLanguage(Get(strategy, side), language)
  }

  /** The service's guidance carries no versions of its own. */
  predicate Versionless(v: Value) {
    Nullish(Get(Fields(v), "translations"))
  }

  /** The versions of a strategy in other languages. */
  function Versions(strategy: Record): Record {
    Fields(Get(strategy, "translations"))
  }

  /**
   * The document therefore prints a side the same in every language, and agrees with the panel
   * exactly for English, for a language no version is stored in, and where the stored version of the
   * side is the English one.
   */
  lemma StrategyExportIgnoresLanguage(strategy: Record, side: string, language: string)
    requires Versionless(Get(strategy, side))
    ensures forall other :: ExportedSide(strategy, side, other) == ExportedSide(strategy, side, language)
    ensures ExportedSide(strategy, side, language) == PanelSide(strategy, side, "en")
    ensures ExportedSide(strategy, side, language) == PanelSide(strategy, side, language) <==>
            || language == "en"
            || !Has(Versions(strategy), language)
            || Fields(Get(Fields(Get(Versions(strategy), language)), side)) == Fields(Get(strategy, side))
  {
    forall other ensures ExportedSide(strategy, side, other) == Fields(Get(strategy, side)) {
      VersionlessIsItself(Get(strategy, side), other);
    }
  }

  /** A strategy as the service builds it: both sides in English, and again under the other language. */
  function Served(notHolding: Record, holding: Record, other: string, otherNotHolding: Record, otherHolding: Record)
    : Record
  {
    [("not_holding", Object(notHolding)), ("holding", Object(holding)),
     ("translations", Object([(other, Object([("not_holding", Object(otherNotHolding)),
                                              ("holding", Object(otherHolding))]))]))]
  }

  lemma ServedReads(a: Record, b: Record, other: string, c: Record, d: Record)
    ensures var s := Served(a, b, other, c, d);
            && Get(s, "holding") == Object(b) && Get(s, "not_holding") == Object(a)
            && Versions(s) == [(other, Object([("not_holding", Object(c)), ("holding", Object(d))]))]
            && Has(Versions(s), other)
            && Fields(Get(Versions(s), other)) == [("not_holding", Object(c)), ("holding", Object(d))]
            && Get(Fields(Get(Versions(s), other)), "holding") == Object(d)
            && Get(Fields(Get(Versions(s), other)), "not_holding") == Object(c)
  {
    var s := Served(a, b, other, c, d);
    assert |"not_holding"| == 11 && |"holding"| == 7 && |"translations"| == 12;
    assert s[1..][0] == s[1] && s[1..][1..] == s[2..] && s[2..][0] == s[2];
    var inner: Record := [("not_holding", Object(c)), ("holding", Object(d))];
    assert inner[1..][0] == inner[1];
    assert Get(s, "translations") == Get(s[1..], "translations") == Get(s[2..], "translations") == s[2].1;
    assert Versions(s)[0].0 == other;
  }

  /**
   * It does happen, for any strategy the service builds whose two versions differ: exported in the
   * other language it still reads in English, where the panel reads as the version.
   */
  lemma ServedStrategyIsExportedInEnglish(a: Record, b: Record, other: string, c: Record, d: Record)
    requires other != "en" && Nullish(Get(b, "translations"))
    ensures ExportedSide(Served(a, b, other, c, d), "holding", other) == b
    ensures PanelSide(Served(a, b, other, c, d), "holding", other) == d
  {
    ServedReads(a, b, other, c, d);
    VersionlessIsItself(Object(b), other);
  }

  /** A rationale in English and in Indonesian, and the one the Indonesian document prints. */
  lemma IndonesianExportReadsEnglish()
    ensures var a, b: Record, d: Record := [], [("rationale", Text("a"))], [("rationale", Text("b"))];
            var strategy := Served(a, b, "id", a, d);
            && Get(ExportedSide(strategy, "holding", "id"), "rationale") == Text("a")
            && Get(PanelSide(strategy, "holding", "id"), "rationale") == Text("b")
  {
    var b: Record, d: Record := [("rationale", Text("a"))], [("rationale", Text("b"))];
    assert |"rationale"| == 9 && |"translations"| == 12;
    assert b[1..] == [];
    assert Get(b, "translations") == Undefined;
    ServedStrategyIsExportedInEnglish([], b, "id", [], d);
  }

  lemma VersionlessIsItself(v: Value, language: string)
    requires Versionless(v)
    ensures InLanguage(v, language) == Fields(v)
  {}

  // --- the switch ------------------------------------------------------------

  /** The state behind the switch: whether it is on, and what the endpoint returned. */
  class Switch {
    const fields: Record
    const locale: string
    var showing: bool
    var fetched: Record
    var hasData: bool

    /** It is never on with nothing to show. */
    ghost predicate Valid()
      reads this
    {
      && (showing ==> Truthy(Stored()) || hasData)
      && (!hasData ==> fetched == [])
    }

    ghost function Stored(): Value
      reads this
    {
      Rendering(fields, Target(fields, locale))
    }

    /** The fields on screen. */
    ghost function Shown(): Record
      reads this
    {
      Rendered(fields, locale, showing, fetched)
    }

    constructor (fields: Record, locale: string)
      ensures this.fields == fields && this.locale == locale
      ensures Valid() && Shown() == fields && !hasData
    {
      this.fields, this.locale := fields, locale;
      showing, fetched, hasData := false, [], false;
    }

    method ShowOriginal()
      requires Valid()
      modifies `showing
      ensures Valid() && Shown() == fields
    {
      showing := false;
    }

    /**
     * Where a rendering is stored the screen at once reads as the document exported in the offered
     * language, and nothing is asked for. Else what was fetched is shown over the original, and only
     * where there is neither is a translation asked for, the original staying up meanwhile.
     */
    method ShowTranslation() returns (asks: bool)
      requires Valid()
      modifies `showing
      ensures Valid()
      ensures Truthy(Stored()) ==> !asks && Shown() == InLanguage(Object(fields), Target(fields, locale))
      ensures Nullish(Stored()) && hasData ==>
                !asks && forall key ::
                  Get(Shown(), key) == if Has(fetched, key) then Get(fetched, key) else Get(fields, key)
      ensures !Truthy(Stored()) && !hasData ==> asks && Shown() == fields
    {
      asks := !(Truthy(Rendering(fields, Target(fields, locale))) || hasData);
      if !asks {
        showing := true;
      }
      if Truthy(Stored()) {
        ExportAgreesWithScreen(fields, locale, fetched);
      }
      forall key
        ensures Get(Spread(fields, fetched), key) == if Has(fetched, key) then Get(fetched, key) else Get(fields, key)
      {
        SpreadReads(fields, fetched, key);
      }
    }

    /** The answer is shown when it comes, but never over a stored rendering. */
    method Fetched(data: Record)
      requires Valid()
      modifies this
      ensures Valid() && hasData && fetched == data
      ensures Truthy(Stored()) ==> Shown() == InLanguage(Object(fields), Target(fields, locale))
      ensures Nullish(Stored()) ==> Shown() == Spread(fields, data)
    {
      fetched, hasData, showing := data, true, true;
      if Truthy(Stored()) {
        ExportAgreesWithScreen(fields, locale, fetched);
      }
    }
  }
}
