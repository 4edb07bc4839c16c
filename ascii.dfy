/**
  Case mapping of Python strings, restricted to ASCII letters: `str.lower()`
  (used to compare model names case-insensitively and to build the URL) and
  `str.title()` (used on the verbose names for the record titles).
 */
module Ascii {

  predicate IsUpper(c: char) { 'A' <= c <= 'Z' }

  predicate IsLower(c: char) { 'a' <= c <= 'z' }

  /** A "cased" character in Python's sense, for the ASCII range: a letter. */
  predicate IsCased(c: char) { IsUpper(c) || IsLower(c) }

  function LowerChar(c: char): (d: char)
    ensures !IsUpper(d)
    ensures IsCased(d) == IsCased(c)
  {
    if IsUpper(c) then (c as int + 32) as char else c
  }

  function UpperChar(c: char): (d: char)
    ensures !IsLower(d)
    ensures IsCased(d) == IsCased(c)
    ensures LowerChar(d) == LowerChar(c)
  {
    if IsLower(c) then (c as int - 32) as char else c
  }

  /** `s.lower()`: every upper-case letter is replaced by its lower-case form, nothing else changes. */
  function Lower(s: string): (r: string)
    ensures |r| == |s|
    ensures forall i :: 0 <= i < |s| ==> r[i] == LowerChar(s[i])
  {
    if s == [] then [] else [LowerChar(s[0])] + Lower(s[1..])
  }

  /**
    `s.title()` continued after a character that was (`afterCased`) or was
    not cased: a letter that follows a cased character is lowered, any other
    letter is raised, and every other character is kept.
   */
  function TitleFrom(s: string, afterCased: bool): (r: string)
    ensures |r| == |s|
    ensures forall i :: 0 <= i < |s| ==> LowerChar(r[i]) == LowerChar(s[i]) && IsCased(r[i]) == IsCased(s[i])
    ensures |s| > 0 && IsCased(s[0]) ==> (IsUpper(r[0]) <==> !afterCased)
  {
    if s == [] then []
    else
      var c := s[0];
      var d := if !IsCased(c) then c else if afterCased then LowerChar(c) else UpperChar(c);
      [d] + TitleFrom(s[1..], IsCased(c))
  }

  /**
    `s.title()`: the same characters up to case (the lowered forms agree), and
    a string that starts with a letter starts with an upper-case one.
   */
  function Title(s: string): (r: string)
    ensures |r| == |s|
    ensures Lower(r) == Lower(s)
    ensures |s| > 0 && IsCased(s[0]) ==> IsUpper(r[0])
  {
    TitleFrom(s, false)
  }

  /** Whether position `i` of `s` starts a word, when `s` follows a character that was (`afterCased`) or was not cased. */
  predicate StartsWord(s: string, i: nat, afterCased: bool)
    requires i < |s|
  {
    if i == 0 then !afterCased else !IsCased(s[i - 1])
  }

  /**
    What `title()` does, position by position: only letters change, and only
    in case; a letter is upper-case exactly when it starts a word.
   */
  lemma {:induction false} TitleAt(s: string, afterCased: bool, i: nat)
    requires i < |s|
    ensures LowerChar(TitleFrom(s, afterCased)[i]) == LowerChar(s[i])
    ensures IsCased(TitleFrom(s, afterCased)[i]) == IsCased(s[i])
    ensures !IsCased(s[i]) ==> TitleFrom(s, afterCased)[i] == s[i]
    ensures IsCased(s[i]) ==> (IsUpper(TitleFrom(s, afterCased)[i]) <==> StartsWord(s, i, afterCased))
  {
    if i > 0 {
      var rest := TitleFrom(s[1..], IsCased(s[0]));
      TitleAt(s[1..], IsCased(s[0]), i - 1);
      assert TitleFrom(s, afterCased) == [TitleFrom(s, afterCased)[0]] + rest;
      assert s[1..][i - 1] == s[i];
      assert StartsWord(s, i, afterCased) == StartsWord(s[1..], i - 1, IsCased(s[0]));
    }
  }

  /** Title-casing a title-cased string changes nothing. */
  lemma {:induction false} TitleIdempotent(s: string, afterCased: bool)
    ensures TitleFrom(TitleFrom(s, afterCased), afterCased) == TitleFrom(s, afterCased)
  {
    if s != [] {
      var t := TitleFrom(s, afterCased);
      TitleAt(s, afterCased, 0);
      TitleIdempotent(s[1..], IsCased(s[0]));
      assert t[1..] == TitleFrom(s[1..], IsCased(s[0]));
    }
  }

  /** A word of lower-case letters is title-cased by raising its first letter only. */
  lemma {:induction false} TitleLowerWord(w: string)
    requires |w| > 0 && forall i :: 0 <= i < |w| ==> IsLower(w[i])
    ensures Title(w) == [UpperChar(w[0])] + w[1..]
  {
    TitleKeepsLowerTail(w[1..]);
  }

  lemma {:induction false} TitleKeepsLowerTail(w: string)
    requires forall i :: 0 <= i < |w| ==> IsLower(w[i])
    ensures TitleFrom(w, true) == w
  {
    if w != [] {
      TitleKeepsLowerTail(w[1..]);
    }
  }
}
