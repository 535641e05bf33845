/**
 * The wildcard matcher `esif_ccb_strmatch` of Common/esif_ccb_string.h, compared with the language
 * a pattern denotes: '*' stands for any string, '?' for any one character, and every other
 * character for itself in either case. A string here holds the characters before the terminating
 * NUL of the C string.
 */
module Glob {
  /** `tolower` in the C locale. */
  function ToLower(c: char): char {
    if 'A' <= c <= 'Z' then c - 'A' + 'a' else c
  }

  /** What one pattern character allows in its place. */
  predicate Allows(c: char, piece: string) {
    c == '*' || (|piece| == 1 && (c == '?' || ToLower(piece[0]) == ToLower(c)))
  }

  function Concat(pieces: seq<string>): string {
    if pieces == [] then "" else pieces[0] + Concat(pieces[1..])
  }

  /** `pieces` cuts `s` up so that each pattern character allows its piece. */
  ghost predicate Splits(pieces: seq<string>, s: string, p: string) {
    && |pieces| == |p|
    && Concat(pieces) == s
    && forall i :: 0 <= i < |p| ==> Allows(p[i], pieces[i])
  }

  ghost predicate InLanguage(s: string, p: string) {
    exists pieces :: Splits(pieces, s, p)
  }

  /** The matcher's branches, as a recursive definition. */
  predicate Accepts(s: string, p: string)
    decreases |s| + |p|
  {
    if s == "" && p == "" then true
    else if p != "" && p[0] == '*' then Accepts(s, p[1..]) || (s != "" && Accepts(s[1..], p))
    else s != "" && p != "" && Allows(p[0], [s[0]]) && Accepts(s[1..], p[1..])
  }

  method StrMatch(s: string, p: string) returns (matched: bool)
    ensures matched <==> InLanguage(s, p)
    decreases |s| + |p|
  {
    AcceptsIffInLanguage(s, p);
    var i := 0;
    while i < |p| || i < |s|
      invariant 0 <= i <= |s| && i <= |p|
      invariant Accepts(s[i..], p[i..]) == Accepts(s, p)
      decreases |s| - i
    {
      if i < |p| && p[i] == '*' {
        AcceptsIffInLanguage(s[i..], p[i + 1..]);
        assert p[i..][1..] == p[i + 1..];
        matched := StrMatch(s[i..], p[i + 1..]);
        if !matched && i < |s| {
          AcceptsIffInLanguage(s[i + 1..], p[i..]);
          assert s[i..][1..] == s[i + 1..];
          matched := StrMatch(s[i + 1..], p[i..]);
        }
        return;
      }
      if i < |s| && i < |p| && (p[i] == '?' || ToLower(s[i]) == ToLower(p[i])) {
        assert s[i..][1..] == s[i + 1..] && p[i..][1..] == p[i + 1..];
        i := i + 1;
        continue;
      }
      return false;
    }
    return true;
  }

  /** Every accepted string can be cut up as the pattern says. */
  lemma {:induction false} Sound(s: string, p: string) returns (pieces: seq<string>)
    requires Accepts(s, p)
    ensures Splits(pieces, s, p)
    decreases |s| + |p|
  {
    if p == "" {
      pieces := [];
    } else if p[0] == '*' && !Accepts(s, p[1..]) {
      var rest := Sound(s[1..], p);
      pieces := [[s[0]] + rest[0]] + rest[1..];
    } else {
      var first := if p[0] == '*' then "" else [s[0]];
      var rest := Sound(s[|first|..], p[1..]);
      pieces := [first] + rest;
    }
  }

  /** Every string that can be cut up so is accepted. */
  lemma {:induction false} Complete(s: string, p: string, pieces: seq<string>)
    requires Splits(pieces, s, p)
    ensures Accepts(s, p)
    decreases |s| + |p|
  {
    if p != "" {
      var first := pieces[0];
      if p[0] == '*' && first != "" {
        Complete(s[1..], p, [first[1..]] + pieces[1..]);
      } else {
        assert s[|first|..] == Concat(pieces[1..]);
        Complete(s[|first|..], p[1..], pieces[1..]);
      }
    }
  }

  lemma AcceptsIffInLanguage(s: string, p: string)
    ensures Accepts(s, p) <==> InLanguage(s, p)
  {
    if Accepts(s, p) {
      var pieces := Sound(s, p);
    }
    if InLanguage(s, p) {
      var pieces :| Splits(pieces, s, p);
      Complete(s, p, pieces);
    }
  }

  // ----- what the characters of a pattern stand for -----

  /** The same character, or the two forms of one of the 26 letters. */
  predicate SameLetter(a: char, b: char) {
    || a == b
    || ('A' <= a <= 'Z' && b as int == a as int + 32)
    || ('A' <= b <= 'Z' && a as int == b as int + 32)
  }

  lemma FoldsTogether(a: char, b: char)
    ensures ToLower(a) == ToLower(b) <==> SameLetter(a, b)
  {
  }

  predicate IsLiteral(p: string) {
    forall i :: 0 <= i < |p| ==> p[i] != '*' && p[i] != '?'
  }

  /** A pattern without wildcards accepts exactly itself, in upper and lower case. */
  lemma {:induction false} LiteralPattern(s: string, p: string)
    requires IsLiteral(p)
    ensures Accepts(s, p) <==> |s| == |p| && forall i :: 0 <= i < |p| ==> SameLetter(s[i], p[i])
    decreases |p|
  {
    hide ToLower, SameLetter;
    if s != "" && p != "" {
      FoldsTogether(s[0], p[0]);
      LiteralPattern(s[1..], p[1..]);
      assert forall i :: 1 <= i < |p| ==> p[i] == p[1..][i - 1];
      assert forall i :: 1 <= i < |s| ==> s[i] == s[1..][i - 1];
    }
  }

  predicate AllQuestions(p: string) {
    forall i :: 0 <= i < |p| ==> p[i] == '?'
  }

  /** Question marks accept exactly the strings of their number, and a star behind them all that are no shorter. */
  lemma {:induction false} WildPattern(s: string, p: string)
    requires AllQuestions(p)
    ensures Accepts(s, p) <==> |s| == |p|
    ensures Accepts(s, p + "*") <==> |s| >= |p|
    decreases |s| + |p|
  {
    if p == "" {
      assert p + "*" == "*" && "*"[1..] == "";
      if s != "" { WildPattern(s[1..], p); }
    } else {
      assert (p + "*")[0] == '?' && (p + "*")[1..] == p[1..] + "*";
      if s != "" { WildPattern(s[1..], p[1..]); }
    }
  }
}
