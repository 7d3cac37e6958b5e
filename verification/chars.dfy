/**
 Character classes used by the password rules, and the ASCII case folding
 that stands in for `toLowerCase` and for the regex `i` flag.
 */
module Chars {

  /** The regex class `[A-Z]`. */
  predicate IsUpper(c: char) {
    'A' <= c <= 'Z'
  }

  /** The regex class `[a-z]`. */
  predicate IsLower(c: char) {
    'a' <= c <= 'z'
  }

  /** The regex class `[0-9]`. */
  predicate IsDigit(c: char) {
    '0' <= c <= '9'
  }

  /**
   The bracket class of the special-character check: thirty ASCII
   punctuation characters. Backquote, tilde and space are not in it.
   */
  const Specials: set<char> := {
    '!', '@', '#', '$', '%', '^', '&', '*', '(', ')',
    '_', '+', '-', '=', '[', ']', '{', '}', ';', '\'',
    ':', '"', '\\', '|', ',', '.', '<', '>', '/', '?'
  }

  predicate IsSpecial(c: char) {
    c in Specials
  }

  /** The characters the regex wildcard `.` refuses to match. */
  predicate IsLineTerminator(c: char) {
    c == '\n' || c == '\r' || c == '\U{2028}' || c == '\U{2029}'
  }

  /** ASCII lower-casing of one character: A-Z become a-z, all else is kept. */
  function Fold(c: char): char {
    if IsUpper(c) then (c as int + 32) as char else c
  }

  /**
   The `i` flag's comparison of a text character `c` with a pattern
   character `p` that is a lower-case letter or a digit: `c` is `p` itself
   or, for a letter, its upper-case twin.
   */
  predicate SameIgnoringCase(c: char, p: char) {
    c == p || (IsLower(p) && c as int == p as int - 32)
  }

  /**
   Folding decides case-insensitive equality with a lower-case letter or a
   digit: `c` folds to `p` exactly when the two are the same ignoring case.
   */
  lemma FoldMatchesIgnoringCase(c: char, p: char)
    requires IsLower(p) || IsDigit(p)
    ensures Fold(c) == p <==> SameIgnoringCase(c, p)
  {
  }

  /** ASCII lower-casing of a whole string, character by character. */
  function Lower(s: seq<char>): seq<char> {
    seq(|s|, i requires 0 <= i < |s| => Fold(s[i]))
  }

  /** Lower-casing commutes with concatenation. */
  lemma {:induction false} LowerAppend(a: seq<char>, b: seq<char>)
    ensures Lower(a + b) == Lower(a) + Lower(b)
  {
    var l, r := Lower(a + b), Lower(a) + Lower(b);
    assert |l| == |r|;
    forall i | 0 <= i < |l|
      ensures l[i] == r[i]
    {
      if i < |a| {
        assert (a + b)[i] == a[i];
      } else {
        assert (a + b)[i] == b[i - |a|];
      }
    }
  }
}
