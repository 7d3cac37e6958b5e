/**
 The analyzer on particular passwords, including the threshold edges.
 */
module Scenarios {
  import opened Chars
  import opened Text
  import opened Rules
  import opened Analyzer

  /** A word cannot occur where its first character never stands early enough. */
  lemma Absent(t: string, p: string)
    requires |p| > 0
    requires forall i :: 0 <= i && i + |p| <= |t| ==> t[i] != p[0]
    ensures !Contains(t, p)
  {
    forall i | 0 <= i <= |t|
      ensures !OccursAt(t, p, i)
    {
      if i + |p| <= |t| {
        assert t[i..i + |p|][0] == t[i];
      }
    }
  }

  /** No listed sequence, shown window by window. */
  lemma NoSequence(s: string)
    requires forall i :: 0 <= i < |s| ==> !RunStartsAt(Lower(s), i)
    ensures !HasSequence(s)
  {
    SequenceIsAscendingRun(s);
  }

  /** The label changes exactly at 40, 60, 80 and 95; negative scores are weak. */
  lemma ClassifyEdges()
    ensures Classify(-40) == Weak && Classify(39) == Weak
    ensures Classify(40) == Fair && Classify(59) == Fair
    ensures Classify(60) == Good && Classify(79) == Good
    ensures Classify(80) == Strong && Classify(94) == Strong
    ensures Classify(95) == VeryStrong && Classify(110) == VeryStrong
  {
  }

  /**
   The empty password fails every check, gets no bonus and no penalty:
   score 0, weak, and six suggestions.
   */
  lemma EmptyPassword()
    ensures Analyze("") == Analysis(
      Weak,
      [Report(Length, false), Report(Uppercase, false), Report(Lowercase, false),
       Report(Digit, false), Report(Special, false)],
      [UseEightChars, AddUppercase, AddLowercase, AddNumbers, AddSpecial, UseTwelveChars],
      0)
  {
    assert Lower("") == "";
    assert !HasSequence("");
    assert !IsCommon("");
    assert Inspect("") == Findings(false, false, false, false, false, false, false, false);
  }

  /** "password" has lower-case letters and no other character class. */
  lemma PlainClasses()
    ensures HasLowercase("password")
    ensures !HasUppercase("password") && !HasDigit("password") && !HasSpecial("password")
  {
    assert IsLower("password"[0]);
  }

  /** "password" holds no sequence and no repeat, and is itself a common password. */
  lemma PlainPenalties()
    ensures !HasSequence("password") && !HasRepeat("password") && IsCommon("password")
  {
    var s := "password";
    assert Lower(s) == s;
    NoSequence(s);
    assert OccursAt(Lower(s), CommonPasswords[0], 0);
  }

  /**
   "password" meets the length and lower-case requirements and contains a
   common password: 40 - 20 = 20, weak.
   */
  lemma PlainPassword()
    ensures Analyze("password") == Analysis(
      Weak,
      [Report(Length, true), Report(Uppercase, false), Report(Lowercase, true),
       Report(Digit, false), Report(Special, false)],
      [AddUppercase, AddNumbers, AddSpecial, UseTwelveChars, AvoidCommonWords],
      20)
  {
    PlainFindings();
  }

  /** The test outcomes for "password". */
  lemma PlainFindings()
    ensures Inspect("password") == Findings(true, false, true, false, false, false, false, true)
  {
    PlainClasses();
    PlainPenalties();
  }

  /** "Password123!" has all four character classes. */
  lemma CapitalisedClasses()
    ensures HasUppercase("Password123!") && HasLowercase("Password123!")
    ensures HasDigit("Password123!") && HasSpecial("Password123!")
  {
    var s := "Password123!";
    assert IsUpper(s[0]) && IsLower(s[1]) && IsDigit(s[8]) && IsSpecial(s[11]);
  }

  /** Folded, "Password123!" holds the run "123" and the word "password". */
  lemma CapitalisedPenalties()
    ensures HasSequence("Password123!") && !HasRepeat("Password123!") && IsCommon("Password123!")
  {
    var s := "Password123!";
    var t := Lower(s);
    assert t == "password123!";
    assert RunStartsAt(t, 8);
    SequenceIsAscendingRun(s);
    assert OccursAt(t, CommonPasswords[0], 0);
  }

  /**
   "Password123!" meets all five requirements and has twelve characters
   (110), but holds the sequence "123" (-10) and the common word
   "password" once lower-cased (-20): exactly 80, which is strong.
   */
  lemma CapitalisedPassword()
    ensures Analyze("Password123!") == Analysis(
      Strong,
      [Report(Length, true), Report(Uppercase, true), Report(Lowercase, true),
       Report(Digit, true), Report(Special, true)],
      [AvoidSequences, AvoidCommonWords],
      80)
  {
    CapitalisedFindings();
  }

  /** The test outcomes for "Password123!". */
  lemma CapitalisedFindings()
    ensures Inspect("Password123!") == Findings(true, true, true, true, true, true, false, true)
  {
    CapitalisedClasses();
    CapitalisedPenalties();
  }

  /** "Tr7#mK9$qLpZ" has all four character classes. */
  lemma MixedClasses()
    ensures HasUppercase("Tr7#mK9$qLpZ") && HasLowercase("Tr7#mK9$qLpZ")
    ensures HasDigit("Tr7#mK9$qLpZ") && HasSpecial("Tr7#mK9$qLpZ")
  {
    var s := "Tr7#mK9$qLpZ";
    assert IsUpper(s[0]) && IsLower(s[1]) && IsDigit(s[2]) && IsSpecial(s[3]);
  }

  /** ASCII folding of "Tr7#mK9$qLpZ". */
  lemma MixedFolded()
    ensures Lower("Tr7#mK9$qLpZ") == "tr7#mk9$qlpz"
  {
  }

  /** No three neighbouring characters of "tr7#mk9$qlpz" climb by one. */
  lemma MixedNoSequence()
    ensures !HasSequence("Tr7#mK9$qLpZ")
  {
    MixedFolded();
    NoSequence("Tr7#mK9$qLpZ");
  }

  /** None of the common passwords starts with a character of "tr7#mk9$qlpz". */
  lemma MixedNotCommon()
    ensures !IsCommon("Tr7#mK9$qLpZ")
  {
    var t := "tr7#mk9$qlpz";
    MixedFolded();
    forall k | 0 <= k < |CommonPasswords|
      ensures !Contains(t, CommonPasswords[k])
    {
      Absent(t, CommonPasswords[k]);
    }
  }

  /**
   "Tr7#mK9$qLpZ" meets all five requirements, has twelve characters and
   triggers no penalty: 110, above 100 because the score is not clamped.
   */
  lemma MixedPassword()
    ensures Analyze("Tr7#mK9$qLpZ") == Analysis(
      VeryStrong,
      [Report(Length, true), Report(Uppercase, true), Report(Lowercase, true),
       Report(Digit, true), Report(Special, true)],
      [],
      110)
  {
    MixedFindings();
  }

  /** The test outcomes for "Tr7#mK9$qLpZ": every class present, no penalty. */
  lemma MixedFindings()
    ensures Inspect("Tr7#mK9$qLpZ") == Findings(true, true, true, true, true, false, false, false)
  {
    MixedClasses();
    MixedNoSequence();
    assert !HasRepeat("Tr7#mK9$qLpZ");
    MixedNotCommon();
  }
}
