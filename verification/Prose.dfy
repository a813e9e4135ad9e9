/** What of a payload is worth printing, and in which language. */
module Prose {
  import opened Ascii
  import opened Json

  const BULLET := "• "

  // --- nested values to printable lines --------------------------------------

  function AsLines(v: Value): seq<string>
    decreases v, 1
  {
    match v
    case Undefined => []
    case Null => []
    case Array(items) => EntryLines(items)
    case Object(_) => []
    case _ =>
      var text := Trim(AsString(v));
      if text == "" then [] else [text]
  }

  /** One bulleted line per entry that has something to say. */
  function EntryLines(items: seq<Value>): seq<string>
    decreases items, 0
  {
    if |items| == 0 then []
    else
      var lines := AsLines(items[0]);
      (if |lines| > 0 then [BULLET + Join(lines, " ")] else []) + EntryLines(items[1..])
  }

  /** A value that prints as itself: neither nullish nor a container. */
  predicate Scalar(v: Value) {
    v.Bool? || v.Number? || v.Text?
  }

  /** `leaf` sits in `v` at the end of a path of array positions. */
  ghost predicate Reaches(v: Value, path: seq<nat>, leaf: Value)
    decreases |path|
  {
    if |path| == 0 then v == leaf
    else v.Array? && path[0] < |v.items| && Reaches(v.items[path[0]], path[1..], leaf)
  }

  predicate Printable(leaf: Value) {
    Scalar(leaf) && !Blank(AsString(leaf))
  }

  /** A printable scalar at the end of a path. */
  ghost predicate Prints(v: Value, path: seq<nat>, leaf: Value) {
    Reaches(v, path, leaf) && Printable(leaf)
  }

  ghost predicate Contains(s: string, part: string) {
    exists i: nat, j: nat :: Cuts(s, i, j, part)
  }

  predicate Cuts(s: string, i: nat, j: nat, part: string) {
    i <= j <= |s| && s[i..j] == part
  }

  lemma ContainsWithin(before: string, s: string, after: string, part: string)
    requires Contains(s, part)
    ensures Contains(before + s + after, part)
  {
    var i: nat, j: nat :| Cuts(s, i, j, part);
    assert (before + s + after)[|before| + i..|before| + j] == s[i..j];
    assert Cuts(before + s + after, |before| + i, |before| + j, part);
  }

  lemma {:induction false} JoinContains(parts: seq<string>, glue: string, k: nat)
    requires k < |parts|
    ensures Contains(Join(parts, glue), parts[k])
  {
    var whole := Join(parts, glue);
    if k == 0 {
      assert whole[0..|parts[0]|] == parts[0];
      assert Cuts(whole, 0, |parts[0]|, parts[0]);
    } else {
      JoinContains(parts[1..], glue, k - 1);
      ContainsWithin(parts[0] + glue, Join(parts[1..], glue), "", parts[k]);
      assert parts[0] + glue + Join(parts[1..], glue) + "" == whole;
    }
  }

  lemma ContainsTransitive(outer: string, middle: string, inner: string)
    requires Contains(outer, middle) && Contains(middle, inner)
    ensures Contains(outer, inner)
  {
    var i: nat, j: nat :| Cuts(outer, i, j, middle);
    assert outer == outer[..i] + middle + outer[j..];
    ContainsWithin(outer[..i], middle, outer[j..], inner);
  }

  /** Nothing printable is lost: every printable scalar, however deep in arrays, is in some line. */
  lemma {:induction false} LeafIsPrinted(v: Value, path: seq<nat>, leaf: Value)
    requires Prints(v, path, leaf)
    ensures exists k :: 0 <= k < |AsLines(v)| && Contains(AsLines(v)[k], Trim(AsString(leaf)))
    decreases |path|
  {
    var text := Trim(AsString(leaf));
    if |path| == 0 {
      TrimEmptyIffBlank(AsString(leaf));
      assert AsLines(v)[0] == text;
      assert Cuts(text, 0, |text|, text);
    } else {
      var entry := v.items[path[0]];
      LeafIsPrinted(entry, path[1..], leaf);
      var k :| 0 <= k < |AsLines(entry)| && Contains(AsLines(entry)[k], text);
      var joined := Join(AsLines(entry), " ");
      JoinContains(AsLines(entry), " ", k);
      ContainsTransitive(joined, AsLines(entry)[k], text);
      ContainsWithin(BULLET, joined, "", text);
      assert BULLET + joined + "" == BULLET + joined;
      var at := EntryHasLine(v.items, path[0]);
      assert Contains(AsLines(v)[at], text);
    }
  }

  lemma {:induction false} EntryHasLine(items: seq<Value>, k: nat) returns (at: nat)
    requires k < |items| && |AsLines(items[k])| > 0
    ensures at < |EntryLines(items)|
    ensures EntryLines(items)[at] == BULLET + Join(AsLines(items[k]), " ")
  {
    var head := if |AsLines(items[0])| > 0 then 1 else 0;
    if k == 0 {
      at := 0;
    } else {
      at := EntryHasLine(items[1..], k - 1);
      at := head + at;
    }
  }

  /** No line is invented: whatever is printed has a printable scalar behind it. */
  lemma {:induction false} LineHasLeaf(v: Value) returns (path: seq<nat>, leaf: Value)
    requires |AsLines(v)| > 0
    ensures Prints(v, path, leaf)
    decreases v, 1
  {
    match v {
      case Array(items) =>
        var k;
        k, path, leaf := EntryHasLeaf(items);
        path := [k] + path;
      case _ =>
        path, leaf := [], v;
        TrimEmptyIffBlank(AsString(v));
    }
  }

  lemma {:induction false} EntryHasLeaf(items: seq<Value>) returns (k: nat, path: seq<nat>, leaf: Value)
    requires |EntryLines(items)| > 0
    ensures k < |items| && Prints(items[k], path, leaf)
    decreases items, 0
  {
    if |AsLines(items[0])| > 0 {
      path, leaf := LineHasLeaf(items[0]);
      k := 0;
    } else {
      k, path, leaf := EntryHasLeaf(items[1..]);
      k := k + 1;
    }
  }

  /** A value prints nothing exactly when no printable scalar is reachable through its arrays. */
  lemma EmptyIffNothingReachable(v: Value)
    ensures AsLines(v) == [] <==>
            !exists path: seq<nat>, leaf: Value :: Prints(v, path, leaf)
  {
    if |AsLines(v)| > 0 {
      var path, leaf := LineHasLeaf(v);
    } else {
      forall path: seq<nat>, leaf: Value ensures !Prints(v, path, leaf) {
        if Prints(v, path, leaf) { LeafIsPrinted(v, path, leaf); }
      }
    }
  }

  /** Entries with something to say. */
  function Speaking(items: seq<Value>): nat {
    if |items| == 0 then 0
    else (if |AsLines(items[0])| > 0 then 1 else 0) + Speaking(items[1..])
  }

  /** One line per entry that speaks, never an empty line, and at most one line outside arrays. */
  lemma {:induction false} LineShape(v: Value)
    ensures forall k :: 0 <= k < |AsLines(v)| ==> AsLines(v)[k] != ""
    ensures if v.Array? then |AsLines(v)| == Speaking(v.items) <= |v.items| else |AsLines(v)| <= 1
  {
    if v.Array? {
      EntryShape(v.items);
    }
  }

  lemma {:induction false} EntryShape(items: seq<Value>)
    ensures |EntryLines(items)| == Speaking(items) <= |items|
    ensures forall k :: 0 <= k < |EntryLines(items)| ==> EntryLines(items)[k] != ""
  {
    if |items| > 0 {
      EntryShape(items[1..]);
    }
  }

  // --- one payload, in the requested language --------------------------------

  /** `payload.translations?.[language]?.fields`. */
  function Rendering(payload: Record, language: string): Value {
    Get(Fields(Get(Fields(Get(payload, "translations")), language)), "fields")
  }

  /** The payload with its prose overlaid, or as it is where there is nothing to overlay. */
  function InLanguage(payload: Value, language: string): Record {
    if !Truthy(payload) then []
    else
      var original := Fields(payload);
      var rendered := Rendering(original, language);
      if !Truthy(rendered) || Get(original, "language") == Value.Text(language) then original
      else Spread(original, Fields(rendered))
  }

  lemma {:induction false} EntryLinesConcat(a: seq<Value>, b: seq<Value>)
    ensures EntryLines(a + b) == EntryLines(a) + EntryLines(b)
  {
    if |a| == 0 {
      assert a + b == b;
    } else {
      assert (a + b)[1..] == a[1..] + b;
      EntryLinesConcat(a[1..], b);
    }
  }

  /** Entries print in order, each on a bulleted line of its own with what is nested in it after it. */
  lemma ArraysRead(a: seq<Value>, b: seq<Value>, v: Value)
    ensures AsLines(Array(a + b)) == AsLines(Array(a)) + AsLines(Array(b))
    ensures AsLines(Array([v])) == if |AsLines(v)| == 0 then [] else ["• " + Join(AsLines(v), " ")]
  {
    EntryLinesConcat(a, b);
    OneEntryReads(v);
  }

  /** A plain value prints trimmed, where that leaves anything; objects and missing values do not print. */
  lemma PlainValuesRead(v: Value)
    ensures v.Bool? || v.Number? || v.Text? ==>
              AsLines(v) == if Trim(AsString(v)) == "" then [] else [Trim(AsString(v))]
    ensures v.Object? || v == Undefined || v == Null ==> AsLines(v) == []
  {}

  lemma OneEntryReads(v: Value)
    ensures EntryLines([v]) == if |AsLines(v)| == 0 then [] else ["• " + Join(AsLines(v), " ")]
  {
    var rest := [v][1..];
    assert rest == [];
    assert EntryLines([v]) == (if |AsLines(v)| > 0 then [BULLET + Join(AsLines(v), " ")] else []) + EntryLines(rest);
  }

  // --- labels ----------------------------------------------------------------

  function Spaced(s: string): string {
    seq(|s|, i requires 0 <= i < |s| => if s[i] == '_' then ' ' else s[i])
  }

  /** A key written out: underscores to spaces, then each word capitalised. */
  function Label(key: string): string {
    var s := Spaced(key);
    seq(|s|, i requires 0 <= i < |s| =>
      if IsWord(s[i]) && (i == 0 || !IsWord(s[i - 1])) then Upper(s[i]) else s[i])
  }

  /**
   * A label is as long as its key: underscores are spaces, a small letter that starts a word is a
   * capital, and every other character is as it was.
   */
  lemma LabelReads(key: string, i: nat)
    requires i < |key|
    ensures |Label(key)| == |key|
    ensures key[i] == '_' ==> Label(key)[i] == ' '
    ensures 'a' <= key[i] <= 'z' && (i == 0 || key[i - 1] in {'_', ' ', '-', '.', '/'}) ==>
              Label(key)[i] as int == key[i] as int - 32
    ensures key[i] != '_' && i > 0 &&
            ('a' <= key[i - 1] <= 'z' || 'A' <= key[i - 1] <= 'Z' || '0' <= key[i - 1] <= '9') ==>
              Label(key)[i] == key[i]
    ensures key[i] != '_' && !('a' <= key[i] <= 'z') ==> Label(key)[i] == key[i]
  {}

  /** A label is already a label: writing it out twice changes nothing. */
  lemma LabelIdempotent(key: string)
    ensures Label(Label(key)) == Label(key)
  {
    var once := Label(key);
    assert Spaced(once) == once;
    forall i | 0 <= i < |once| ensures Label(once)[i] == once[i] {}
  }

  const STANCE_LABELS: map<string, string> := map[
    "entry_candidate" := "Entry candidate",
    "add_candidate" := "Add candidate",
    "wait_for_level" := "Wait for level",
    "no_basis_to_enter" := "No basis to enter",
    "maintain" := "Maintain",
    "reduce_candidate" := "Reduce candidate",
    "exit_candidate" := "Exit candidate",
    "avoid" := "Avoid"
  ]

  function StanceLabel(stance: string): string {
    if stance in STANCE_LABELS then STANCE_LABELS[stance] else Label(stance)
  }

  /** The written-out stances spell the stance itself: only case and the underscores differ. */
  lemma StanceLabelsSpellTheStance(stance: string)
    requires stance in STANCE_LABELS
    ensures Lowercase(StanceLabel(stance)) == Spaced(stance)
  {
    EntriesSpell();
    ExitsSpell();
  }

  /** The eight stances as written out, and any other as its label. */
  lemma StancesRead(other: string)
    ensures StanceLabel("entry_candidate") == "Entry candidate" && StanceLabel("add_candidate") == "Add candidate"
    ensures StanceLabel("wait_for_level") == "Wait for level"
    ensures StanceLabel("no_basis_to_enter") == "No basis to enter"
    ensures StanceLabel("maintain") == "Maintain" && StanceLabel("reduce_candidate") == "Reduce candidate"
    ensures StanceLabel("exit_candidate") == "Exit candidate" && StanceLabel("avoid") == "Avoid"
    ensures other !in STANCE_LABELS ==> StanceLabel(other) == Label(other)
  {}

  lemma EntriesSpell()
    ensures Lowercase("Entry candidate") == Spaced("entry_candidate")
    ensures Lowercase("Add candidate") == Spaced("add_candidate")
    ensures Lowercase("Wait for level") == Spaced("wait_for_level")
    ensures Lowercase("No basis to enter") == Spaced("no_basis_to_enter")
  {
    SameSpelling("entry_candidate", "Entry candidate");
    SameSpelling("add_candidate", "Add candidate");
    SameSpelling("wait_for_level", "Wait for level");
    SameSpelling("no_basis_to_enter", "No basis to enter");
  }

  lemma ExitsSpell()
    ensures Lowercase("Maintain") == Spaced("maintain")
    ensures Lowercase("Reduce candidate") == Spaced("reduce_candidate")
    ensures Lowercase("Exit candidate") == Spaced("exit_candidate")
    ensures Lowercase("Avoid") == Spaced("avoid")
  {
    SameSpelling("maintain", "Maintain");
    SameSpelling("reduce_candidate", "Reduce candidate");
    SameSpelling("exit_candidate", "Exit candidate");
    SameSpelling("avoid", "Avoid");
  }

  lemma SameSpelling(stance: string, written: string)
    requires |stance| == |written|
    requires forall i :: 0 <= i < |stance| ==> Lower(written[i]) == if stance[i] == '_' then ' ' else stance[i]
    ensures Lowercase(written) == Spaced(stance)
  {}
}
