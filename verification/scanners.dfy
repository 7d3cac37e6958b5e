/**
 Single-pass implementations of the analyzer's pattern tests, each proved
 to decide the predicate it implements, and an analyzer built from them.
 */
module Scanners {
  import opened Chars
  import opened Text
  import opened Rules
  import opened Analyzer

  /** A character-class test: does some character of `s` satisfy `p`? */
  method ScanClass(s: string, p: char -> bool) returns (found: bool)
    ensures found <==> exists i :: 0 <= i < |s| && p(s[i])
  {
    found := false;
    var i := 0;
    while i < |s| && !found
      invariant 0 <= i <= |s|
      invariant found <==> exists j :: 0 <= j < i && p(s[j])
    {
      found := p(s[i]);
      i := i + 1;
    }
  }

  /**
   The repeat test, scanning once while tracking the length of the run of
   equal characters that ends at the current position.
   */
  method ScanRepeat(s: string) returns (found: bool)
    ensures found == HasRepeat(s)
  {
    found := false;
    if |s| == 0 {
      return;
    }
    var run := 1;
    var i := 1;
    while i < |s| && !found
      invariant 1 <= i <= |s|
      invariant 1 <= run <= i
      invariant forall k :: i - run <= k < i ==> s[k] == s[i - 1]
      invariant run < i ==> s[i - run - 1] != s[i - 1]
      invariant found <==> exists j :: 0 <= j && j + 2 < i && RepeatAt(s, j)
    {
      if s[i] == s[i - 1] {
        run := run + 1;
      } else {
        run := 1;
      }
      found := run >= 3 && !IsLineTerminator(s[i]);
      if found {
        assert RepeatAt(s, i - 2);
      } else {
        assert !RepeatAt(s, i - 2);
      }
      i := i + 1;
    }
    if !found {
      assert forall j :: 0 <= j < |s| ==> !RepeatAt(s, j);
    }
  }

  /**
   The sequence test, comparing each window of three folded characters
   with the climbing runs the pattern list spells.
   */
  method ScanSequence(s: string) returns (found: bool)
    ensures found == HasSequence(s)
  {
    var t := Lower(s);
    found := false;
    var i := 0;
    while i + 2 < |t| && !found
      invariant 0 <= i
      invariant found <==> exists j :: 0 <= j < i && RunStartsAt(t, j)
      invariant !found ==> i <= |t|
    {
      found := RunStartsAt(t, i);
      i := i + 1;
    }
    SequenceIsAscendingRun(s);
    if found {
      var j :| 0 <= j < i && RunStartsAt(t, j);
      assert 0 <= j < |s| && RunStartsAt(Lower(s), j);
    } else {
      assert forall j :: 0 <= j < |s| ==> !RunStartsAt(t, j);
    }
  }

  /** The common-password test: search the folded text for each listed word. */
  method ScanCommon(s: string) returns (found: bool)
    ensures found == IsCommon(s)
  {
    var t := Lower(s);
    found := false;
    var k := 0;
    while k < |CommonPasswords| && !found
      invariant 0 <= k <= |CommonPasswords|
      invariant found <==> exists m :: 0 <= m < k && Contains(t, CommonPasswords[m])
    {
      found := Includes(t, CommonPasswords[k]);
      k := k + 1;
    }
  }

  /** The analyzer, with every test run by its scanner. */
  method AnalyzePassword(password: string) returns (a: Analysis)
    ensures a == Analyze(password)
  {
    var uppercase := ScanClass(password, IsUpper);
    var lowercase := ScanClass(password, IsLower);
    var digit := ScanClass(password, IsDigit);
    var special := ScanClass(password, IsSpecial);
    var sequence := ScanSequence(password);
    var repeat := ScanRepeat(password);
    var common := ScanCommon(password);
    var f := Findings(|password| >= MinimumLength, uppercase, lowercase, digit, special, sequence, repeat, common);
    assert f == Inspect(password);
    a := Assemble(|password|, f);
  }
}
