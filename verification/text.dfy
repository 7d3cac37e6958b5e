/**
 Substring occurrence, the relation behind `String.prototype.includes` and
 behind an unanchored regex alternation of literal words.
 */
module Text {

  /** `pat` occurs in `text` starting at index `i`. */
  predicate OccursAt(text: seq<char>, pat: seq<char>, i: int) {
    0 <= i && i + |pat| <= |text| && text[i..i + |pat|] == pat
  }

  /** `pat` occurs somewhere in `text`. */
  predicate Contains(text: seq<char>, pat: seq<char>) {
    exists i :: 0 <= i <= |text| && OccursAt(text, pat, i)
  }

  /** An occurrence in `text[1..]` is an occurrence in `text`, one place further on. */
  lemma OccursInTail(text: seq<char>, pat: seq<char>, i: int)
    requires |text| > 0
    ensures OccursAt(text[1..], pat, i) <==> i >= 0 && OccursAt(text, pat, i + 1)
  {
    if 0 <= i && i + |pat| <= |text| - 1 {
      assert text[1..][i..i + |pat|] == text[i + 1..i + 1 + |pat|];
    }
  }

  /**
   Left-to-right search, as `includes` performs it: try the front of the text,
   then the rest of it.
   */
  function Includes(text: seq<char>, pat: seq<char>): (b: bool)
    ensures b <==> Contains(text, pat)
    decreases |text|
  {
    if |text| < |pat| then false
    else if text[..|pat|] == pat then
      assert OccursAt(text, pat, 0);
      true
    else
      var rest := Includes(text[1..], pat);
      assert rest ==> Contains(text, pat) by {
        if rest {
          var i :| 0 <= i <= |text[1..]| && OccursAt(text[1..], pat, i);
          OccursInTail(text, pat, i);
        }
      }
      assert Contains(text, pat) ==> rest by {
        if Contains(text, pat) {
          var i :| 0 <= i <= |text| && OccursAt(text, pat, i);
          assert i != 0;
          OccursInTail(text, pat, i - 1);
        }
      }
      rest
  }

  /** An occurrence survives putting text before and after it. */
  lemma {:induction false} ContainsExtend(pre: seq<char>, text: seq<char>, post: seq<char>, pat: seq<char>)
    requires Contains(text, pat)
    ensures Contains(pre + text + post, pat)
  {
    var i :| 0 <= i <= |text| && OccursAt(text, pat, i);
    var big := pre + text + post;
    var j := |pre| + i;
    assert big[j..j + |pat|] == text[i..i + |pat|];
    assert OccursAt(big, pat, j);
  }
}
