/** Case folding on ASCII letters; other characters are left as they are. */
module Ascii {

  function Upper(c: char): char {
    if 'a' <= c <= 'z' then c - 32 as char else c
  }

  function Lower(c: char): char {
    if 'A' <= c <= 'Z' then c + 32 as char else c
  }

  function Uppercase(s: string): string {
    seq(|s|, i requires 0 <= i < |s| => Upper(s[i]))
  }

  function Lowercase(s: string): string {
    seq(|s|, i requires 0 <= i < |s| => Lower(s[i]))
  }

  /** The twenty-six letters fold into each other, one by one. */
  lemma LettersFold(i: nat)
    requires i < 26
    ensures Upper("abcdefghijklmnopqrstuvwxyz"[i]) == "ABCDEFGHIJKLMNOPQRSTUVWXYZ"[i]
    ensures Lower("ABCDEFGHIJKLMNOPQRSTUVWXYZ"[i]) == "abcdefghijklmnopqrstuvwxyz"[i]
  {}

  /** Nothing else folds. */
  lemma OnlyLettersFold(c: char)
    ensures Upper(c) != c ==> exists i :: 0 <= i < 26 && c == "abcdefghijklmnopqrstuvwxyz"[i]
    ensures Lower(c) != c ==> exists i :: 0 <= i < 26 && c == "ABCDEFGHIJKLMNOPQRSTUVWXYZ"[i]
  {
    if 'a' <= c <= 'z' { assert "abcdefghijklmnopqrstuvwxyz"[c as int - 'a' as int] == c; }
    if 'A' <= c <= 'Z' { assert "ABCDEFGHIJKLMNOPQRSTUVWXYZ"[c as int - 'A' as int] == c; }
  }

  /** Folding either way forgets the case the text had before, and nothing else. */
  lemma FoldsForget(s: string)
    ensures Lowercase(Uppercase(s)) == Lowercase(s) == Lowercase(Lowercase(s))
    ensures Uppercase(Lowercase(s)) == Uppercase(s) == Uppercase(Uppercase(s))
  {
    forall i | 0 <= i < |s|
      ensures Lower(Upper(s[i])) == Lower(s[i]) == Lower(Lower(s[i]))
      ensures Upper(Lower(s[i])) == Upper(s[i]) == Upper(Upper(s[i]))
    {}
  }

  /** What `\w` matches. */
  predicate IsWord(c: char) {
    'a' <= c <= 'z' || 'A' <= c <= 'Z' || '0' <= c <= '9' || c == '_'
  }

  /** The sixty-three of them, by code point. */
  lemma WordCharacters(c: char)
    ensures var n := c as int;
            IsWord(c) <==> 48 <= n <= 57 || 65 <= n <= 90 || n == 95 || 97 <= n <= 122
  {}
}
