/**
 The individual rules of the password analyzer: the five requirement
 checks, the length bonus and the three penalty tests. Each regular
 expression of the analyzer is stated here as a predicate over the
 password's characters.
 */
module Rules {
  import opened Chars
  import opened Text

  // ---------------------------------------------------------------------------
  // The five requirement checks
  // ---------------------------------------------------------------------------

  /** Shortest length that passes the length check. */
  const MinimumLength: nat := 8

  predicate HasMinLength(s: seq<char>) {
    |s| >= MinimumLength
  }

  /** `/[A-Z]/.test(s)` */
  predicate HasUppercase(s: seq<char>) {
    exists i :: 0 <= i < |s| && IsUpper(s[i])
  }

  /** `/[a-z]/.test(s)` */
  predicate HasLowercase(s: seq<char>) {
    exists i :: 0 <= i < |s| && IsLower(s[i])
  }

  /** `/[0-9]/.test(s)` */
  predicate HasDigit(s: seq<char>) {
    exists i :: 0 <= i < |s| && IsDigit(s[i])
  }

  /** The special-character class test. */
  predicate HasSpecial(s: seq<char>) {
    exists i :: 0 <= i < |s| && IsSpecial(s[i])
  }

  // ---------------------------------------------------------------------------
  // Length bonus
  // ---------------------------------------------------------------------------

  /** Length from which the full bonus is given and the length advice stops. */
  const RecommendedLength: nat := 12

  /** Length from which the partial bonus is given. */
  const PartialBonusLength: nat := 10

  /** Score added for the length alone: +10 from 12 characters, +5 from 10. */
  function LengthBonus(n: nat): (b: int)
    ensures b == 0 || b == 5 || b == 10
    ensures b == 10 <==> n >= RecommendedLength
    ensures b == 5 <==> PartialBonusLength <= n < RecommendedLength
    ensures b == 0 <==> n < PartialBonusLength
  {
    if n >= RecommendedLength then 10
    else if n >= PartialBonusLength then 5
    else 0
  }

  /** A longer password never earns a smaller length bonus. */
  lemma LengthBonusMonotone(m: nat, n: nat)
    requires m <= n
    ensures LengthBonus(m) <= LengthBonus(n)
  {
  }

  // ---------------------------------------------------------------------------
  // Sequential characters
  // ---------------------------------------------------------------------------

  /** The alternatives of the case-insensitive sequence pattern. */
  const SequencePatterns: seq<string> :=
    ["abc", "bcd", "cde", "def", "123", "234", "345", "456", "567", "678", "789"]

  /** A pattern made of lower-case letters and digits only. */
  predicate CaseFree(p: seq<char>) {
    forall j :: 0 <= j < |p| ==> IsLower(p[j]) || IsDigit(p[j])
  }

  /**
   Searching the folded text for a case-free pattern is matching with the
   `i` flag: the pattern occurs at `i` of the folded text exactly when each
   of its characters equals the text character it faces, ignoring case.
   */
  lemma {:induction false} FoldedOccurrence(s: seq<char>, p: seq<char>, i: int)
    requires CaseFree(p)
    ensures OccursAt(Lower(s), p, i) <==>
      0 <= i && i + |p| <= |s| && forall j :: 0 <= j < |p| ==> SameIgnoringCase(s[i + j], p[j])
  {
    if 0 <= i && i + |p| <= |s| {
      var w := Lower(s)[i..i + |p|];
      forall j | 0 <= j < |p|
        ensures w[j] == p[j] <==> SameIgnoringCase(s[i + j], p[j])
      {
        FoldMatchesIgnoringCase(s[i + j], p[j]);
      }
      if forall j :: 0 <= j < |p| ==> SameIgnoringCase(s[i + j], p[j]) {
        assert w == p;
      }
    }
  }

  /** Every listed sequence and every common password is case-free. */
  lemma PatternsAreCaseFree()
    ensures forall k :: 0 <= k < |SequencePatterns| ==> CaseFree(SequencePatterns[k])
    ensures forall k :: 0 <= k < |CommonPasswords| ==> CaseFree(CommonPasswords[k])
  {
  }

  /**
   The sequence test. The regex carries the `i` flag and its alternatives
   are lower-case letters and digits, so it is the same as searching the
   ASCII-folded password (see `Chars.FoldMatchesIgnoringCase`).
   */
  predicate HasSequence(s: seq<char>) {
    exists k :: 0 <= k < |SequencePatterns| && Contains(Lower(s), SequencePatterns[k])
  }

  /**
   Three consecutive characters of the folded text `t` that climb by one,
   starting at one of a-d or 1-7: exactly the triples the pattern list spells.
   */
  predicate RunStartsAt(t: seq<char>, i: int) {
    && 0 <= i && i + 2 < |t|
    && (('a' <= t[i] <= 'd') || ('1' <= t[i] <= '7'))
    && t[i + 1] as int == t[i] as int + 1
    && t[i + 2] as int == t[i] as int + 2
  }

  /** Pattern number `k` is the climbing triple that starts with its first character. */
  lemma SequencePatternShape(k: int)
    requires 0 <= k < |SequencePatterns|
    ensures |SequencePatterns[k]| == 3
    ensures RunStartsAt(SequencePatterns[k], 0)
    ensures SequencePatterns[k][0] as int == if k < 4 then 'a' as int + k else '1' as int + k - 4
  {
  }

  /**
   The pattern list, read as a rule: the password contains a sequence
   exactly when three neighbouring characters, once folded, climb by one
   from a-d or from 1-7. So "efg", "xyz", "012" and "890" do not count,
   and descending runs such as "cba" do not either.
   */
  lemma {:induction false} SequenceIsAscendingRun(s: seq<char>)
    ensures HasSequence(s) <==> exists i :: 0 <= i < |s| && RunStartsAt(Lower(s), i)
  {
    var t := Lower(s);
    if HasSequence(s) {
      var k :| 0 <= k < |SequencePatterns| && Contains(t, SequencePatterns[k]);
      var p := SequencePatterns[k];
      var i :| 0 <= i <= |t| && OccursAt(t, p, i);
      SequencePatternShape(k);
      assert t[i..i + 3] == p;
      assert t[i] == p[0] && t[i + 1] == p[1] && t[i + 2] == p[2];
      assert 0 <= i < |s| && RunStartsAt(Lower(s), i);
    }
    if i :| 0 <= i < |s| && RunStartsAt(t, i) {
      var k := if 'a' <= t[i] then t[i] as int - 'a' as int else t[i] as int - '1' as int + 4;
      SequencePatternShape(k);
      var p := SequencePatterns[k];
      assert t[i..i + 3] == p by {
        assert t[i..i + 3][0] == p[0];
        assert t[i..i + 3][1] == p[1];
        assert t[i..i + 3][2] == p[2];
      }
      assert OccursAt(t, p, i);
      assert Contains(t, SequencePatterns[k]);
      assert HasSequence(s);
    }
  }

  // ---------------------------------------------------------------------------
  // Repeated characters
  // ---------------------------------------------------------------------------

  /**
   `(.)\1{2,}` matches at `i`: three equal characters in a row, the first
   of them one that `.` accepts.
   */
  predicate RepeatAt(s: seq<char>, i: int) {
    && 0 <= i && i + 2 < |s|
    && !IsLineTerminator(s[i])
    && s[i + 1] == s[i]
    && s[i + 2] == s[i]
  }

  /** `/(.)\1{2,}/.test(s)` */
  predicate HasRepeat(s: seq<char>) {
    exists i :: 0 <= i < |s| && RepeatAt(s, i)
  }

  // ---------------------------------------------------------------------------
  // Common passwords
  // ---------------------------------------------------------------------------

  /** The fixed list of common passwords, all lower-case ASCII. */
  const CommonPasswords: seq<string> :=
    ["password", "qwerty", "admin", "letmein", "welcome", "123456"]

  /** Some common password is a substring of the lower-cased password. */
  predicate IsCommon(s: seq<char>) {
    exists k :: 0 <= k < |CommonPasswords| && Contains(Lower(s), CommonPasswords[k])
  }

  // ---------------------------------------------------------------------------
  // Every rule is a substring property
  // ---------------------------------------------------------------------------

  /**
   The four character-class checks look for one witness character, and the
   length check only for enough characters, so text written around the
   password never takes a passed check away.
   */
  lemma {:induction false} ChecksSurviveExtension(pre: seq<char>, s: seq<char>, post: seq<char>)
    ensures HasMinLength(s) ==> HasMinLength(pre + s + post)
    ensures HasUppercase(s) ==> HasUppercase(pre + s + post)
    ensures HasLowercase(s) ==> HasLowercase(pre + s + post)
    ensures HasDigit(s) ==> HasDigit(pre + s + post)
    ensures HasSpecial(s) ==> HasSpecial(pre + s + post)
  {
    var big := pre + s + post;
    if HasUppercase(s) {
      var i :| 0 <= i < |s| && IsUpper(s[i]);
      assert big[|pre| + i] == s[i];
    }
    if HasLowercase(s) {
      var i :| 0 <= i < |s| && IsLower(s[i]);
      assert big[|pre| + i] == s[i];
    }
    if HasDigit(s) {
      var i :| 0 <= i < |s| && IsDigit(s[i]);
      assert big[|pre| + i] == s[i];
    }
    if HasSpecial(s) {
      var i :| 0 <= i < |s| && IsSpecial(s[i]);
      assert big[|pre| + i] == s[i];
    }
  }

  /**
   The three penalties are substring properties: text written around the
   password never lifts a penalty it already incurs.
   */
  lemma {:induction false} PenaltiesSurviveExtension(pre: seq<char>, s: seq<char>, post: seq<char>)
    ensures HasSequence(s) ==> HasSequence(pre + s + post)
    ensures HasRepeat(s) ==> HasRepeat(pre + s + post)
    ensures IsCommon(s) ==> IsCommon(pre + s + post)
  {
    var big := pre + s + post;
    LowerAppend(pre + s, post);
    LowerAppend(pre, s);
    assert Lower(big) == Lower(pre) + Lower(s) + Lower(post);
    if HasSequence(s) {
      var k :| 0 <= k < |SequencePatterns| && Contains(Lower(s), SequencePatterns[k]);
      ContainsExtend(Lower(pre), Lower(s), Lower(post), SequencePatterns[k]);
    }
    if HasRepeat(s) {
      var i :| 0 <= i < |s| && RepeatAt(s, i);
      var j := |pre| + i;
      assert big[j] == s[i] && big[j + 1] == s[i + 1] && big[j + 2] == s[i + 2];
      assert RepeatAt(big, j);
    }
    if IsCommon(s) {
      var k :| 0 <= k < |CommonPasswords| && Contains(Lower(s), CommonPasswords[k]);
      ContainsExtend(Lower(pre), Lower(s), Lower(post), CommonPasswords[k]);
    }
  }
}
