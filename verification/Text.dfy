/** Case folding as strcasecmp does it. */
module Text {
  function LowerChar(c: char): char {
    if 'A' <= c <= 'Z' then ((c as int) + 32) as char else c
  }

  function Lower(s: string): (r: string)
    ensures |r| == |s|
  {
    seq(|s|, i requires 0 <= i < |s| => LowerChar(s[i]))
  }

  predicate IsUpper(c: char) { 'A' <= c <= 'Z' }

  /** The same letter, or a capital and its small letter. */
  predicate SameChar(c: char, d: char) {
    c == d || (IsUpper(c) && d as int == c as int + 32) || (IsUpper(d) && c as int == d as int + 32)
  }

  /** The same text, letter by letter, up to case. */
  predicate SameText(s: string, t: string) {
    |s| == |t| && forall i :: 0 <= i < |s| ==> SameChar(s[i], t[i])
  }

  /** Folding case makes no other texts alike. */
  lemma LowerIff(s: string, t: string)
    ensures Lower(s) == Lower(t) <==> SameText(s, t)
  {
    assert forall i :: 0 <= i < |s| ==> Lower(s)[i] == LowerChar(s[i]);
    assert forall i :: 0 <= i < |t| ==> Lower(t)[i] == LowerChar(t[i]);
    if Lower(s) == Lower(t) {
      forall i | 0 <= i < |s| ensures SameChar(s[i], t[i]) { assert Lower(s)[i] == Lower(t)[i]; }
    }
  }
}
