/** The JSON values the frontend handles, and the JavaScript conversions applied to them. */
module Json {

  /** A number is kept as the text `String(n)` prints for it: nothing here computes with it. */
  datatype Value =
    | Undefined
    | Null
    | Bool(b: bool)
    | Number(shown: string)
    | Text(text: string)
    | Array(items: seq<Value>)
    | Object(fields: seq<(string, Value)>)

  /** An object's own entries, in the order JavaScript enumerates them. */
  type Record = seq<(string, Value)>

  predicate Has(r: Record, key: string) {
    exists i :: 0 <= i < |r| && r[i].0 == key
  }

  /** `r[key]`: the first entry under the key, `undefined` when there is none. */
  function Get(r: Record, key: string): Value {
    if |r| == 0 then Undefined
    else if r[0].0 == key then r[0].1
    else Get(r[1..], key)
  }

  /** `value?.fields` of something that should be an object. */
  function Fields(v: Value): Record {
    if v.Object? then v.fields else []
  }

  /** The entries of `a`, each taking its value from `b` where `b` has the key. */
  function Overwritten(a: Record, b: Record): Record {
    if |a| == 0 then []
    else [(a[0].0, if Has(b, a[0].0) then Get(b, a[0].0) else a[0].1)] + Overwritten(a[1..], b)
  }

  /** The entries of `b` whose key `a` does not have. */
  function Added(a: Record, b: Record): Record {
    if |b| == 0 then []
    else (if Has(a, b[0].0) then [] else [b[0]]) + Added(a, b[1..])
  }

  /** `{ ...a, ...b }`. */
  function Spread(a: Record, b: Record): Record {
    Overwritten(a, b) + Added(a, b)
  }

  lemma {:induction false} GetConcat(a: Record, b: Record, key: string)
    ensures Get(a + b, key) == if Has(a, key) then Get(a, key) else Get(b, key)
  {
    if |a| == 0 {
      assert a + b == b;
    } else {
      assert (a + b)[1..] == a[1..] + b;
      GetConcat(a[1..], b, key);
      HasTail(a, key);
    }
  }

  lemma HasTail(r: Record, key: string)
    requires |r| > 0
    ensures Has(r, key) <==> r[0].0 == key || Has(r[1..], key)
  {
    if Has(r[1..], key) {
      var i :| 0 <= i < |r[1..]| && r[1..][i].0 == key;
      assert r[i + 1].0 == key;
    }
    if Has(r, key) && r[0].0 != key {
      var i :| 0 <= i < |r| && r[i].0 == key;
      assert r[1..][i - 1].0 == key;
    }
  }

  lemma {:induction false} GetOverwritten(a: Record, b: Record, key: string)
    ensures Has(Overwritten(a, b), key) <==> Has(a, key)
    ensures Has(a, key) ==>
              Get(Overwritten(a, b), key) == if Has(b, key) then Get(b, key) else Get(a, key)
  {
    if |a| > 0 {
      GetOverwritten(a[1..], b, key);
      HasTail(a, key);
      HasTail(Overwritten(a, b), key);
      assert Overwritten(a, b)[1..] == Overwritten(a[1..], b);
    }
  }

  lemma {:induction false} GetAdded(a: Record, b: Record, key: string)
    requires !Has(a, key)
    ensures Get(Added(a, b), key) == Get(b, key)
  {
    if |b| > 0 {
      GetAdded(a, b[1..], key);
      if !Has(a, b[0].0) {
        assert Added(a, b)[1..] == Added(a, b[1..]);
      } else {
        assert Added(a, b) == Added(a, b[1..]);
      }
    }
  }

  lemma {:induction false} GetAbsent(r: Record, key: string)
    requires !Has(r, key)
    ensures Get(r, key) == Undefined
  {
    if |r| > 0 {
      HasTail(r, key);
      GetAbsent(r[1..], key);
    }
  }

  /** A spread reads as its right-hand operand wherever that operand speaks, and as the left elsewhere. */
  lemma SpreadReads(a: Record, b: Record, key: string)
    ensures Get(Spread(a, b), key) == if Has(b, key) then Get(b, key) else Get(a, key)
  {
    GetConcat(Overwritten(a, b), Added(a, b), key);
    GetOverwritten(a, b, key);
    if !Has(a, key) {
      GetAdded(a, b, key);
      if !Has(b, key) {
        GetAbsent(a, key);
        GetAbsent(b, key);
      }
    }
  }

  // --- conversions ---------------------------------------------------------

  /** JavaScript truthiness. A number prints as "0" exactly when it is a zero. */
  predicate Truthy(v: Value) {
    match v
    case Undefined => false
    case Null => false
    case Bool(b) => b
    case Number(shown) => shown != "0" && shown != "NaN"
    case Text(t) => t != ""
    case Array(_) => true
    case Object(_) => true
  }

  predicate Nullish(v: Value) {
    v.Undefined? || v.Null?
  }

  function Join(parts: seq<string>, glue: string): string {
    if |parts| == 0 then ""
    else if |parts| == 1 then parts[0]
    else parts[0] + glue + Join(parts[1..], glue)
  }

  /** `String(v)`. An array prints its items between commas, the nullish ones as nothing. */
  function AsString(v: Value): string
    decreases v, 1
  {
    match v
    case Undefined => "undefined"
    case Null => "null"
    case Bool(b) => if b then "true" else "false"
    case Number(shown) => shown
    case Text(t) => t
    case Array(items) => Join(AsStrings(items), ",")
    case Object(_) => "[object Object]"
  }

  function AsStrings(items: seq<Value>): seq<string>
    decreases items, 0
  {
    if |items| == 0 then []
    else [if Nullish(items[0]) then "" else AsString(items[0])] + AsStrings(items[1..])
  }

  /** `String(v ?? "")`. */
  function AsStringOrEmpty(v: Value): string {
    if Nullish(v) then "" else AsString(v)
  }

  /** The six values a condition takes for false, and the two a default takes the place of. */
  lemma FalsyValues(v: Value)
    ensures !Truthy(v) <==> v in {Undefined, Null, Bool(false), Number("0"), Number("NaN"), Text("")}
    ensures Nullish(v) <==> v in {Undefined, Null}
  {}

  /** How values print. */
  lemma PrintedValues(t: string, a: Value, b: Value)
    ensures AsString(Undefined) == "undefined" && AsString(Null) == "null"
    ensures AsString(Bool(true)) == "true" && AsString(Bool(false)) == "false"
    ensures AsString(Number(t)) == t && AsString(Text(t)) == t && AsString(Object([])) == "[object Object]"
    ensures AsString(Array([])) == ""
    ensures !Nullish(a) && !Nullish(b) ==> AsString(Array([a, b])) == AsString(a) + "," + AsString(b)
    ensures Nullish(a) ==> AsString(Array([a, b])) == "," + AsStringOrEmpty(b)
    ensures AsStringOrEmpty(a) == if a == Undefined || a == Null then "" else AsString(a)
  {
    assert [a, b][1..] == [b] && [b][1..] == [];
    assert AsStrings([b]) == [AsStringOrEmpty(b)];
    assert AsStrings([a, b]) == [AsStringOrEmpty(a), AsStringOrEmpty(b)];
    JoinTwo(AsStringOrEmpty(a), AsStringOrEmpty(b), ",");
  }

  lemma JoinTwo(a: string, b: string, glue: string)
    ensures Join([], glue) == "" && Join([a], glue) == a && Join([a, b], glue) == a + glue + b
  {
    assert [a, b][1..] == [b];
    assert Join([a, b], glue) == a + glue + Join([a, b][1..], glue);
  }

  predicate IsSpace(c: char) {
    c in {' ', '\t', '\n', '\r', '\U{000B}', '\U{000C}', '\U{00A0}', '\U{1680}', '\U{2028}',
          '\U{2029}', '\U{202F}', '\U{205F}', '\U{3000}', '\U{FEFF}'}
    || '\U{2000}' <= c <= '\U{200A}'
  }

  /** By code point: the white space and the line ends of the language. */
  lemma TrimmedCharacters(c: char)
    ensures IsSpace(c) <==>
            c as int in {9, 10, 11, 12, 13, 32, 160, 5760, 8192, 8193, 8194, 8195, 8196, 8197, 8198, 8199, 8200,
                         8201, 8202, 8232, 8233, 8239, 8287, 12288, 65279}
  {}

  function TrimStart(s: string): string {
    if |s| > 0 && IsSpace(s[0]) then TrimStart(s[1..]) else s
  }

  function TrimEnd(s: string): string {
    if |s| > 0 && IsSpace(s[|s| - 1]) then TrimEnd(s[..|s| - 1]) else s
  }

  /** `s.trim()`. */
  function Trim(s: string): string {
    TrimEnd(TrimStart(s))
  }

  predicate Blank(s: string) {
    forall i :: 0 <= i < |s| ==> IsSpace(s[i])
  }

  /** Trimming leaves nothing exactly when there was nothing but white space. */
  lemma {:induction false} TrimEmptyIffBlank(s: string)
    ensures Trim(s) == "" <==> Blank(s)
  {
    if |s| > 0 && IsSpace(s[0]) {
      TrimEmptyIffBlank(s[1..]);
      assert Blank(s) <==> Blank(s[1..]) by {
        if Blank(s[1..]) {
          forall i | 0 <= i < |s| ensures IsSpace(s[i]) {
            if i > 0 { assert IsSpace(s[1..][i - 1]); }
          }
        }
      }
    } else if |s| > 0 {
      TrimEndKeepsHead(s);
    }
  }

  lemma {:induction false} TrimEndKeepsHead(s: string)
    requires |s| > 0 && !IsSpace(s[0])
    ensures |TrimEnd(s)| > 0
  {
    if IsSpace(s[|s| - 1]) {
      TrimEndKeepsHead(s[..|s| - 1]);
    }
  }

  lemma {:induction false} TrimStartIs(s: string) returns (before: string)
    ensures s == before + TrimStart(s) && Blank(before)
    ensures |TrimStart(s)| > 0 ==> !IsSpace(TrimStart(s)[0])
  {
    before := "";
    if |s| > 0 && IsSpace(s[0]) {
      before := TrimStartIs(s[1..]);
      before := [s[0]] + before;
    }
  }

  lemma {:induction false} TrimEndIs(s: string) returns (after: string)
    ensures s == TrimEnd(s) + after && Blank(after)
    ensures |TrimEnd(s)| > 0 ==> TrimEnd(s)[0] == s[0] && !IsSpace(TrimEnd(s)[|TrimEnd(s)| - 1])
  {
    after := "";
    if |s| > 0 && IsSpace(s[|s| - 1]) {
      after := TrimEndIs(s[..|s| - 1]);
      after := after + [s[|s| - 1]];
    }
  }

  /** Trimming takes white space off both ends, all of it, and nothing else. */
  lemma TrimIs(s: string) returns (before: string, after: string)
    ensures s == before + Trim(s) + after && Blank(before) && Blank(after)
    ensures |Trim(s)| > 0 ==> !IsSpace(Trim(s)[0]) && !IsSpace(Trim(s)[|Trim(s)| - 1])
  {
    before := TrimStartIs(s);
    after := TrimEndIs(TrimStart(s));
  }
}
