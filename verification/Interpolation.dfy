/** Placeholders in message templates: the scan that fills them in, against what a template means. */
module Interpolation {
  import opened Ascii
  import opened Options

  predicate IsName(s: string) {
    |s| > 0 && forall i :: 0 <= i < |s| ==> IsWord(s[i])
  }

  /** How many word characters a text starts with. */
  function WordRun(s: string): nat {
    if |s| > 0 && IsWord(s[0]) then 1 + WordRun(s[1..]) else 0
  }

  lemma {:induction false} WordRunIs(s: string)
    ensures WordRun(s) <= |s|
    ensures forall i :: 0 <= i < WordRun(s) ==> IsWord(s[i])
    ensures WordRun(s) < |s| ==> !IsWord(s[WordRun(s)])
  {
    if |s| > 0 && IsWord(s[0]) {
      WordRunIs(s[1..]);
      forall i | 0 <= i < WordRun(s) ensures IsWord(s[i]) {
        if i > 0 { assert IsWord(s[1..][i - 1]); }
      }
    }
  }

  /** The length of the name in a placeholder that starts the text, or 0 where none does. */
  function NameAt(s: string): nat {
    if |s| > 0 && s[0] == '{' then
      var n := WordRun(s[1..]);
      if n > 0 && n + 1 < |s| && s[n + 1] == '}' then n else 0
    else 0
  }

  lemma NameAtBounds(s: string)
    ensures NameAt(s) > 0 ==> NameAt(s) + 2 <= |s| && IsName(s[1..NameAt(s) + 1])
    ensures NameAt(s) > 0 ==> s[..NameAt(s) + 2] == Placeholder(s[1..NameAt(s) + 1])
  {
    if |s| > 0 {
      WordRunIs(s[1..]);
    }
    var n := NameAt(s);
    if n > 0 {
      var name := s[1..n + 1];
      forall i | 0 <= i < |name| ensures IsWord(name[i]) {
        assert name[i] == s[1..][i];
      }
      assert s[..n + 2] == "{" + name + "}";
    }
  }

  function Placeholder(name: string): string {
    "{" + name + "}"
  }

  /** Scans left to right, replacing each placeholder that has a value and leaving the rest. */
  function Fill(template: string, values: map<string, string>): string {
    if |template| == 0 then ""
    else
      var n := NameAt(template);
      NameAtBounds(template);
      if n > 0 then
        var name := template[1..n + 1];
        (if name in values then values[name] else template[..n + 2]) + Fill(template[n + 2..], values)
      else [template[0]] + Fill(template[1..], values)
  }

  /** A message in the reader's language, the key itself where there is none. */
  function Translate(messages: map<string, string>, key: string, values: Option<map<string, string>>): string {
    var template := if key in messages then messages[key] else key;
    if values == None then template else Fill(template, values.value)
  }

  // --- what a template means -------------------------------------------------

  datatype Segment = Literal(text: string) | Hole(name: string)

  predicate Braceless(s: string) {
    forall i :: 0 <= i < |s| ==> s[i] != '{' && s[i] != '}'
  }

  ghost predicate Proper(segments: seq<Segment>) {
    forall i :: 0 <= i < |segments| ==>
      match segments[i] case Literal(text) => Braceless(text) case Hole(name) => IsName(name)
  }

  function Written(segments: seq<Segment>): string {
    if |segments| == 0 then ""
    else
      (match segments[0] case Literal(text) => text case Hole(name) => Placeholder(name)) + Written(segments[1..])
  }

  /** Each hole takes its value, or stays a placeholder; values are never looked into. */
  function Meant(segments: seq<Segment>, values: map<string, string>): string {
    if |segments| == 0 then ""
    else
      (match segments[0]
       case Literal(text) => text
       case Hole(name) => if name in values then values[name] else Placeholder(name))
      + Meant(segments[1..], values)
  }

  lemma {:induction false} FillLiteral(text: string, rest: string, values: map<string, string>)
    requires Braceless(text)
    ensures Fill(text + rest, values) == text + Fill(rest, values)
  {
    if |text| == 0 {
      assert text + rest == rest;
    } else {
      assert (text + rest)[1..] == text[1..] + rest;
      assert NameAt(text + rest) == 0;
      FillLiteral(text[1..], rest, values);
    }
  }

  lemma {:induction false} WordRunOfName(name: string, rest: string)
    requires forall i :: 0 <= i < |name| ==> IsWord(name[i])
    requires |rest| == 0 || !IsWord(rest[0])
    ensures WordRun(name + rest) == |name|
  {
    if |name| == 0 {
      assert name + rest == rest;
    } else {
      assert (name + rest)[1..] == name[1..] + rest;
      WordRunOfName(name[1..], rest);
    }
  }

  lemma FillPlaceholder(name: string, rest: string, values: map<string, string>)
    requires IsName(name)
    ensures Fill(Placeholder(name) + rest, values) ==
            (if name in values then values[name] else Placeholder(name)) + Fill(rest, values)
  {
    var s := Placeholder(name) + rest;
    assert s[1..] == name + ("}" + rest);
    WordRunOfName(name, "}" + rest);
    assert NameAt(s) == |name|;
    assert s[1..|name| + 1] == name;
    assert s[..|name| + 2] == Placeholder(name);
    assert s[|name| + 2..] == rest;
  }

  /** The scan fills a proper template exactly hole by hole, whatever the values contain. */
  lemma {:induction false} FillMeans(segments: seq<Segment>, values: map<string, string>)
    requires Proper(segments)
    ensures Fill(Written(segments), values) == Meant(segments, values)
  {
    if |segments| > 0 {
      FillMeans(segments[1..], values);
      match segments[0] {
        case Literal(text) => FillLiteral(text, Written(segments[1..]), values);
        case Hole(name) => FillPlaceholder(name, Written(segments[1..]), values);
      }
    }
  }

  /**
   * A reader's message with values is its template filled hole by hole; a key without a message, or
   * a message without values, is shown as it is.
   */
  lemma TranslateMeans(messages: map<string, string>, key: string, segments: seq<Segment>, values: map<string, string>)
    requires key in messages && messages[key] == Written(segments) && Proper(segments)
    ensures Translate(messages, key, Some(values)) == Meant(segments, values)
    ensures Translate(messages, key, None) == Written(segments) == Meant(segments, map[])
    ensures Braceless(key) ==> Translate(messages - {key}, key, Some(values)) == key
  {
    FillMeans(segments, values);
    MeantWithout(segments);
    if Braceless(key) {
      FillLiteral(key, "", values);
      assert key + "" == key;
    }
  }

  lemma {:induction false} MeantWithout(segments: seq<Segment>)
    ensures Meant(segments, map[]) == Written(segments)
  {
    if |segments| > 0 {
      MeantWithout(segments[1..]);
    }
  }

  /** Giving every name its own placeholder leaves any template as it was, stray braces included. */
  lemma {:induction false} FillWithPlaceholders(template: string, values: map<string, string>)
    requires forall name :: name in values ==> values[name] == Placeholder(name)
    ensures Fill(template, values) == template
  {
    if |template| > 0 {
      var n := NameAt(template);
      NameAtBounds(template);
      if n > 0 {
        FillWithPlaceholders(template[n + 2..], values);
        assert template[..n + 2] == Placeholder(template[1..n + 1]) by { PlaceholderAt(template); }
        assert template == template[..n + 2] + template[n + 2..];
      } else {
        FillWithPlaceholders(template[1..], values);
        assert template == [template[0]] + template[1..];
      }
    }
  }

  lemma PlaceholderAt(template: string)
    requires NameAt(template) > 0
    ensures NameAt(template) + 2 <= |template|
    ensures template[..NameAt(template) + 2] == Placeholder(template[1..NameAt(template) + 1])
  {
    NameAtBounds(template);
  }

  // --- filling in two steps --------------------------------------------------

  function Settled(segments: seq<Segment>, values: map<string, string>): seq<Segment> {
    seq(|segments|, i requires 0 <= i < |segments| =>
      if segments[i].Hole? && segments[i].name in values then Literal(values[segments[i].name]) else segments[i])
  }

  lemma {:induction false} SettledWrites(segments: seq<Segment>, values: map<string, string>)
    ensures Written(Settled(segments, values)) == Meant(segments, values)
  {
    if |segments| > 0 {
      SettledWrites(segments[1..], values);
      assert Settled(segments, values)[1..] == Settled(segments[1..], values);
    }
  }

  lemma {:induction false} SettledThenMeant(segments: seq<Segment>,
                                            first: map<string, string>, second: map<string, string>)
    ensures Meant(Settled(segments, first), second) == Meant(segments, second + first)
  {
    if |segments| > 0 {
      SettledThenMeant(segments[1..], first, second);
      assert Settled(segments, first)[1..] == Settled(segments[1..], first);
    }
  }

  /** Filling in two steps is filling once with both, the first step's values taking precedence. */
  lemma FillTwice(segments: seq<Segment>, first: map<string, string>, second: map<string, string>)
    requires Proper(segments) && forall name :: name in first ==> Braceless(first[name])
    ensures Fill(Fill(Written(segments), first), second) == Fill(Written(segments), second + first)
  {
    FillMeans(segments, first);
    SettledWrites(segments, first);
    FillMeans(Settled(segments, first), second);
    SettledThenMeant(segments, first, second);
    FillMeans(segments, second + first);
  }

  /** A first value with braces in it can be taken for a placeholder by the second step. */
  lemma FillTwiceNeedsBracelessValues()
    ensures var first, second := map["a" := "{b}"], map["b" := "x"];
            && Fill(Fill(Placeholder("a"), first), second) == "x"
            && Fill(Placeholder("a"), second + first) == "{b}"
  {
    var first, second := map["a" := "{b}"], map["b" := "x"];
    assert Placeholder("a") + "" == Placeholder("a") && Placeholder("b") + "" == Placeholder("b");
    FillPlaceholder("a", "", first);
    assert Fill(Placeholder("a"), first) == Placeholder("b");
    FillPlaceholder("b", "", second);
    FillPlaceholder("a", "", second + first);
  }

  // --- which first values are safe -------------------------------------------

  /** A text that ends in a brace and word characters: a name could go on after it. */
  predicate OpenTail(s: string) {
    |s| > 0 && (s[|s| - 1] == '{' || (IsWord(s[|s| - 1]) && OpenTail(s[..|s| - 1])))
  }

  /** A text that starts with word characters and a brace: a name could end in it. */
  predicate CloseHead(s: string) {
    |s| > 0 && (s[0] == '}' || (IsWord(s[0]) && CloseHead(s[1..])))
  }

  predicate HasPlaceholder(s: string) {
    exists i :: 0 <= i < |s| && NameAt(s[i..]) > 0
  }

  /** A value a hole can take. */
  predicate Fills(values: map<string, string>, name: string) {
    name in values && IsName(name)
  }

  /**
   * No value holds a placeholder, and no two, or one taken twice, could make one up between them: a
   * value that opens a name and a value that closes one never occur together.
   */
  ghost predicate Safe(values: map<string, string>) {
    && (forall a :: Fills(values, a) ==> !HasPlaceholder(values[a]))
    && ((forall a :: Fills(values, a) ==> !OpenTail(values[a]))
        || (forall b :: Fills(values, b) ==> !CloseHead(values[b])))
  }

  ghost predicate TwoStepsAreOne(segments: seq<Segment>, first: map<string, string>, second: map<string, string>) {
    Fill(Fill(Written(segments), first), second) == Fill(Written(segments), second + first)
  }

  ghost predicate AlwaysTwoStepsAreOne(first: map<string, string>) {
    forall segments, second :: Proper(segments) ==> TwoStepsAreOne(segments, first, second)
  }

  lemma {:induction false} CloseHeadConcat(a: string, b: string)
    requires CloseHead(a + b)
    ensures CloseHead(a) || CloseHead(b)
  {
    if |a| == 0 {
      assert a + b == b;
    } else if a[0] != '}' {
      assert (a + b)[1..] == a[1..] + b;
      CloseHeadConcat(a[1..], b);
    }
  }

  lemma {:induction false} BracelessNeverCloses(s: string)
    requires Braceless(s)
    ensures !CloseHead(s)
  {
    if |s| > 0 {
      BracelessNeverCloses(s[1..]);
    }
  }

  lemma {:induction false} WordsCloseHead(s: string, n: nat)
    requires n < |s| && s[n] == '}' && forall i :: 0 <= i < n ==> IsWord(s[i])
    ensures CloseHead(s)
  {
    if n > 0 {
      assert s[1..][n - 1] == '}';
      assert forall i :: 0 <= i < n - 1 ==> s[1..][i] == s[i + 1];
      WordsCloseHead(s[1..], n - 1);
    }
  }

  lemma {:induction false} WordsOpenTail(s: string, i: nat)
    requires i < |s| && s[i] == '{' && forall k :: i < k < |s| ==> IsWord(s[k])
    ensures OpenTail(s)
  {
    if i < |s| - 1 {
      WordsOpenTail(s[..|s| - 1], i);
    }
  }

  /** What a placeholder looks like, character by character. */
  lemma NameIs(s: string)
    requires NameAt(s) > 0
    ensures var n := NameAt(s);
            n + 2 <= |s| && s[0] == '{' && s[n + 1] == '}' && forall i :: 1 <= i <= n ==> IsWord(s[i])
  {
    WordRunIs(s[1..]);
    forall i | 1 <= i <= NameAt(s) ensures IsWord(s[i]) {
      assert s[1..][i - 1] == s[i];
    }
  }

  lemma NameIf(s: string, n: nat)
    requires 0 < n && n + 1 < |s| && s[0] == '{' && s[n + 1] == '}' && forall i :: 1 <= i <= n ==> IsWord(s[i])
    ensures NameAt(s) == n
  {
    WordRunIs(s[1..]);
    assert forall k :: 0 <= k < |s| - 1 ==> s[1..][k] == s[k + 1];
  }

  /** A placeholder that starts in `v` lies in it, or is opened by its tail and closed by what follows. */
  lemma CrossingPlaceholder(v: string, rest: string)
    requires |v| > 0 && NameAt(v + rest) > 0
    ensures NameAt(v) > 0 || (OpenTail(v) && CloseHead(rest))
  {
    var s := v + rest;
    var n := NameAt(s);
    NameIs(s);
    if n + 2 <= |v| {
      assert forall i :: 0 <= i < |v| ==> v[i] == s[i];
      NameIf(v, n);
    } else {
      assert forall i :: 0 <= i < |v| ==> v[i] == s[i];
      WordsOpenTail(v, 0);
      assert forall i :: 0 <= i < |rest| ==> rest[i] == s[|v| + i];
      WordsCloseHead(rest, n + 1 - |v|);
    }
  }

  lemma {:induction false} FillValue(v: string, rest: string, values: map<string, string>)
    requires !HasPlaceholder(v) && (!OpenTail(v) || !CloseHead(rest))
    ensures Fill(v + rest, values) == v + Fill(rest, values)
  {
    if |v| == 0 {
      assert v + rest == rest;
    } else {
      NoPlaceholderAt(v, rest);
      TailHasNone(v);
      FillValue(v[1..], rest, values);
      FillPast(v, rest, values);
      HeadAndTail(v, Fill(rest, values));
    }
  }

  lemma FillPast(v: string, rest: string, values: map<string, string>)
    requires |v| > 0 && NameAt(v + rest) == 0
    ensures Fill(v + rest, values) == [v[0]] + Fill(v[1..] + rest, values)
  {
    assert (v + rest)[1..] == v[1..] + rest;
  }

  lemma HeadAndTail(v: string, rest: string)
    requires |v| > 0
    ensures [v[0]] + (v[1..] + rest) == v + rest
  {}

  lemma NoPlaceholderAt(v: string, rest: string)
    requires |v| > 0 && !HasPlaceholder(v) && (!OpenTail(v) || !CloseHead(rest))
    ensures NameAt(v + rest) == 0
  {
    assert v[0..] == v;
    if NameAt(v + rest) > 0 {
      CrossingPlaceholder(v, rest);
    }
  }

  lemma TailHasNone(v: string)
    requires |v| > 0 && !HasPlaceholder(v)
    ensures !HasPlaceholder(v[1..])
    ensures OpenTail(v[1..]) ==> OpenTail(v)
  {
    forall i | 0 <= i < |v[1..]| ensures NameAt(v[1..][i..]) == 0 {
      assert v[1..][i..] == v[i + 1..];
    }
    if OpenTail(v[1..]) {
      TailOpens(v);
    }
  }

  lemma {:induction false} TailOpens(v: string)
    requires |v| > 0 && OpenTail(v[1..])
    ensures OpenTail(v)
  {
    if v[|v| - 1] != '{' {
      assert v[1..][..|v| - 2] == v[..|v| - 1][1..];
      TailOpens(v[..|v| - 1]);
    }
  }

  lemma {:induction false} MeantNeverCloses(segments: seq<Segment>, values: map<string, string>)
    requires Proper(segments) && forall b :: Fills(values, b) ==> !CloseHead(values[b])
    ensures !CloseHead(Meant(segments, values))
  {
    if |segments| > 0 {
      var rest := Meant(segments[1..], values);
      MeantNeverCloses(segments[1..], values);
      match segments[0] {
        case Literal(text) =>
          BracelessNeverCloses(text);
          if CloseHead(text + rest) { CloseHeadConcat(text, rest); }
        case Hole(name) =>
          if name in values {
            assert Fills(values, name);
            if CloseHead(values[name] + rest) { CloseHeadConcat(values[name], rest); }
          } else {
            assert (Placeholder(name) + rest)[0] == '{';
          }
      }
    }
  }

  lemma {:induction false} SafeValuesStay(segments: seq<Segment>,
                                          first: map<string, string>, second: map<string, string>)
    requires Proper(segments) && Safe(first)
    ensures Fill(Meant(segments, first), second) == Meant(segments, second + first)
  {
    if |segments| > 0 {
      var rest := Meant(segments[1..], first);
      SafeValuesStay(segments[1..], first, second);
      match segments[0] {
        case Literal(text) => FillLiteral(text, rest, second);
        case Hole(name) =>
          if name in first {
            assert Fills(first, name);
            if OpenTail(first[name]) { MeantNeverCloses(segments[1..], first); }
            FillValue(first[name], rest, second);
          } else {
            FillPlaceholder(name, rest, second);
          }
      }
    }
  }

  // --- and which are not -----------------------------------------------------

  /** A value one longer than the placeholder it stands for. */
  function Longer(name: string): map<string, string> {
    map[name := Placeholder(name) + "!"]
  }

  lemma {:induction false} FillNeverShorter(s: string, name: string)
    ensures |Fill(s, Longer(name))| >= |s|
  {
    if |s| > 0 {
      NameAtBounds(s);
      FillNeverShorter(s[if NameAt(s) > 0 then NameAt(s) + 2 else 1..], name);
    }
  }

  lemma NoneInside(s: string, i: nat)
    requires NameAt(s) > 0 && 0 < i < NameAt(s) + 2 && i < |s|
    ensures NameAt(s[i..]) == 0
  {
    NameIs(s);
    assert s[i..][0] == s[i];
    if NameAt(s[i..]) > 0 {
      NameIs(s[i..]);
    }
  }

  lemma {:induction false} FillLonger(s: string, i: nat, name: string)
    requires i < |s| && NameAt(s[i..]) > 0 && name == s[i..][1..NameAt(s[i..]) + 1]
    ensures |Fill(s, Longer(name))| > |s|
  {
    var n := NameAt(s);
    NameAtBounds(s);
    if i == 0 {
      assert s[0..] == s;
      FillNeverShorter(s[n + 2..], name);
    } else {
      var step := if n > 0 then n + 2 else 1;
      if i < step { NoneInside(s, i); }
      assert s[step..][i - step..] == s[i..];
      FillLonger(s[step..], i - step, name);
      FillStep(s, Longer(name));
    }
  }

  /** One step of the scan, where no value is shorter than its placeholder. */
  lemma FillStep(s: string, values: map<string, string>)
    requires |s| > 0 && forall name :: name in values ==> |values[name]| >= |name| + 2
    ensures var step := if NameAt(s) > 0 then NameAt(s) + 2 else 1;
            step <= |s| && |Fill(s, values)| >= step + |Fill(s[step..], values)|
  {
    NameAtBounds(s);
  }

  /** A template whose first filling holds a placeholder does not keep it through the second. */
  lemma PlaceholderIsRefilled(segments: seq<Segment>, first: map<string, string>)
    requires Proper(segments) && HasPlaceholder(Meant(segments, first))
    requires forall k :: 0 <= k < |segments| && segments[k].Hole? ==> segments[k].name in first
    ensures exists second :: !TwoStepsAreOne(segments, first, second)
  {
    var s := Meant(segments, first);
    var i :| 0 <= i < |s| && NameAt(s[i..]) > 0;
    NameAtBounds(s[i..]);
    var name := s[i..][1..NameAt(s[i..]) + 1];
    FillLonger(s, i, name);
    FillMeans(segments, first);
    FillMeans(segments, Longer(name) + first);
    AllFilled(segments, first, Longer(name));
    assert !TwoStepsAreOne(segments, first, Longer(name));
  }

  lemma {:induction false} AllFilled(segments: seq<Segment>, first: map<string, string>, second: map<string, string>)
    requires forall k :: 0 <= k < |segments| && segments[k].Hole? ==> segments[k].name in first
    ensures Meant(segments, second + first) == Meant(segments, first)
  {
    if |segments| > 0 {
      assert forall k :: 0 <= k < |segments[1..]| ==> segments[1..][k] == segments[k + 1];
      AllFilled(segments[1..], first, second);
    }
  }

  lemma {:induction false} TailIs(s: string) returns (i: nat)
    requires OpenTail(s)
    ensures i < |s| && s[i] == '{' && forall k :: i < k < |s| ==> IsWord(s[k])
  {
    i := |s| - 1;
    if s[i] != '{' {
      i := TailIs(s[..|s| - 1]);
    }
  }

  lemma {:induction false} HeadIs(s: string) returns (n: nat)
    requires CloseHead(s)
    ensures n < |s| && s[n] == '}' && forall k :: 0 <= k < n ==> IsWord(s[k])
  {
    n := 0;
    if s[0] != '}' {
      n := HeadIs(s[1..]);
      n := n + 1;
      forall k | 0 <= k < n ensures IsWord(s[k]) {
        if k > 0 { assert IsWord(s[1..][k - 1]); }
      }
    }
  }

  /** A tail, a letter and a head make a placeholder. */
  lemma TailMeetsHead(a: string, b: string)
    requires OpenTail(a) && CloseHead(b)
    ensures HasPlaceholder(a + ("x" + b))
  {
    var i := TailIs(a);
    var n := HeadIs(b);
    var s := a + ("x" + b);
    var t, m := s[i..], |a| - i + n;
    assert forall k :: 0 <= k < |a| - i ==> t[k] == a[i + k];
    assert t[|a| - i] == 'x';
    assert forall k :: 0 <= k < |b| ==> t[|a| - i + 1 + k] == b[k];
    forall k | 1 <= k <= m ensures IsWord(t[k]) {
      if k < |a| - i { assert t[k] == a[i + k]; }
      else if k > |a| - i { assert t[k] == b[k - (|a| - i) - 1]; }
    }
    NameIf(t, m);
  }

  lemma MeantOne(a: string, values: map<string, string>)
    requires a in values
    ensures Meant([Hole(a)], values) == values[a]
  {
    assert [Hole(a)][1..] == [];
    assert Meant([Hole(a)], values) == values[a] + Meant([], values);
  }

  lemma MeantThree(a: string, b: string, values: map<string, string>)
    requires a in values && b in values
    ensures Meant([Hole(a), Literal("x"), Hole(b)], values) == values[a] + ("x" + values[b])
  {
    assert [Hole(a), Literal("x"), Hole(b)][1..] == [Literal("x"), Hole(b)];
    assert [Literal("x"), Hole(b)][1..] == [Hole(b)];
    MeantOne(b, values);
    assert Meant([Literal("x"), Hole(b)], values) == "x" + Meant([Hole(b)], values);
  }

  lemma OneHoleIsUnsafe(first: map<string, string>, a: string)
    requires Fills(first, a) && HasPlaceholder(first[a])
    ensures !AlwaysTwoStepsAreOne(first)
  {
    MeantOne(a, first);
    PlaceholderIsRefilled([Hole(a)], first);
  }

  lemma TwoHolesAreUnsafe(first: map<string, string>, a: string, b: string)
    requires Fills(first, a) && OpenTail(first[a]) && Fills(first, b) && CloseHead(first[b])
    ensures !AlwaysTwoStepsAreOne(first)
  {
    MeantThree(a, b, first);
    TailMeetsHead(first[a], first[b]);
    PlaceholderIsRefilled([Hole(a), Literal("x"), Hole(b)], first);
  }

  /** For every template and all second values, two steps are one exactly where the first values are safe. */
  lemma FillTwiceIff(first: map<string, string>)
    ensures AlwaysTwoStepsAreOne(first) <==> Safe(first)
  {
    if Safe(first) {
      forall segments, second | Proper(segments) ensures TwoStepsAreOne(segments, first, second) {
        FillMeans(segments, first);
        SafeValuesStay(segments, first, second);
        FillMeans(segments, second + first);
      }
    } else if a :| Fills(first, a) && HasPlaceholder(first[a]) {
      OneHoleIsUnsafe(first, a);
    } else {
      var a :| Fills(first, a) && OpenTail(first[a]);
      var b :| Fills(first, b) && CloseHead(first[b]);
      TwoHolesAreUnsafe(first, a, b);
    }
  }
}
