/** String helpers that the source takes from the JavaScript runtime:
    `String.prototype.toLowerCase` and a first-occurrence search. */
module Strings {

  /** Lower-cases one character. Only the ASCII letters 'A'..'Z' are mapped;
      every other character is left as it is. */
  function LowerChar(c: char): (d: char)
    ensures !('A' <= d <= 'Z')
    ensures d == c || ('A' <= c <= 'Z' && d as int == c as int + 32)
  {
    if 'A' <= c <= 'Z' then (c as int + 32) as char else c
  }

  /** `s.toLowerCase()`: the same length, each character lower-cased. */
  function Lower(s: string): (r: string)
    ensures |r| == |s|
    ensures forall i :: 0 <= i < |s| ==> r[i] == LowerChar(s[i])
  {
    if s == [] then [] else [LowerChar(s[0])] + Lower(s[1..])
  }

  /** Lower-casing twice is lower-casing once. */
  lemma {:induction false} LowerIdempotent(s: string)
    ensures Lower(Lower(s)) == Lower(s)
  {
    var once := Lower(s);
    forall i | 0 <= i < |s|
      ensures Lower(once)[i] == once[i]
    {
      var c := s[i];
      assert once[i] == LowerChar(c);
      assert LowerChar(LowerChar(c)) == LowerChar(c);
    }
  }

  /** The index of the first `c` in `s`, or `|s|` when there is none. */
  function IndexOf(s: string, c: char): (k: nat)
    ensures k <= |s|
    ensures k < |s| ==> s[k] == c
    ensures forall j :: 0 <= j < k ==> s[j] != c
  {
    if s == [] then 0
    else if s[0] == c then 0
    else 1 + IndexOf(s[1..], c)
  }

  /** A first-occurrence search in `a + b` skips over an `a` free of `c`. */
  lemma IndexOfAfterPrefix(a: string, b: string, c: char)
    requires c !in a
    ensures IndexOf(a + b, c) == |a| + IndexOf(b, c)
  {
    var s := a + b;
    var m := IndexOf(b, c);
    forall j | 0 <= j < |a| + m
      ensures s[j] != c
    {
      if j >= |a| {
        assert s[j] == b[j - |a|];
      }
    }
    assert |a| + m < |s| ==> s[|a| + m] == b[m];
  }
}
