/** Substring search and case mapping on strings, as the error classifiers of
    s3_bucket.py use them: `needle in text` and `text.lower()`. */
module Text {

  /** ASCII case mapping of one character; every other character is left alone. */
  function LowerChar(c: char): char
  {
    if 'A' <= c <= 'Z' then (c as int - 'A' as int + 'a' as int) as char else c
  }

  /** `s.lower()`: the string with every upper-case letter replaced by its lower-case form. */
  function Lower(s: string): (r: string)
    ensures |r| == |s|
    ensures forall i :: 0 <= i < |s| ==> r[i] == LowerChar(s[i])
  {
    if s == [] then [] else [LowerChar(s[0])] + Lower(s[1..])
  }

  /** `w in s`: `w` occurs in `s` as a contiguous piece. */
  predicate Contains(s: string, w: string)
  {
    w <= s || (s != [] && Contains(s[1..], w))
  }

  /** `Contains` agrees with the positional reading: some suffix of `s` starts with `w`. */
  lemma {:induction false} ContainsAt(s: string, w: string)
    ensures Contains(s, w) <==> exists i :: 0 <= i <= |s| && w <= s[i..]
  {
    if s != [] {
      ContainsAt(s[1..], w);
      if Contains(s[1..], w) {
        var i :| 0 <= i <= |s[1..]| && w <= s[1..][i..];
        assert s[1..][i..] == s[i + 1..];
      }
      if exists i :: 0 <= i <= |s| && w <= s[i..] {
        var i :| 0 <= i <= |s| && w <= s[i..];
        if i > 0 {
          assert s[1..][i - 1..] == s[i..];
        }
      }
    } else {
      assert forall i :: 0 <= i <= |s| ==> s[i..] == s;
    }
  }

  /** A piece cannot occur in a text shorter than itself. */
  lemma {:induction false} NotContainsLonger(s: string, w: string)
    requires |s| < |w|
    ensures !Contains(s, w)
  {
    if s != [] {
      NotContainsLonger(s[1..], w);
    }
  }

  /** Lower-casing the text and the piece together never loses an occurrence: whatever
      occurs in `s` occurs, lower-cased, in `s.lower()`. */
  lemma {:induction false} LowerKeepsOccurrence(s: string, w: string)
    requires Contains(s, w)
    ensures Contains(Lower(s), Lower(w))
  {
    if w <= s {
      assert Lower(w) == Lower(s)[..|w|];
    } else {
      LowerKeepsOccurrence(s[1..], w);
      assert Lower(s[1..]) == Lower(s)[1..];
    }
  }
}
