/** Shared vocabulary: an optional value, and the ASCII case folding that
    `strcasecmp` performs in the C locale, which decides how the freeze CLI
    commands recognise their argument words. */
module Basics {

  datatype Option<+T> = None | Some(value: T)

  /** `tolower` in the C locale: only 'A'..'Z' change. */
  function Lower(c: char): char
  {
    if 'A' <= c <= 'Z' then (c as int + 32) as char else c
  }

  /** A C string: it cannot contain the terminating NUL. */
  predicate CString(s: string)
  {
    '\0' !in s
  }

  /** `strcasecmp(a, b) == 0`: same length and equal character by character
      once both are folded to lower case. */
  predicate EqualsIgnoreCase(a: string, b: string)
  {
    |a| == |b| && forall i :: 0 <= i < |a| ==> Lower(a[i]) == Lower(b[i])
  }

  /** The whole string folded to lower case: an independent way to say what
      `EqualsIgnoreCase` means. */
  function LowerString(s: string): (l: string)
    ensures |l| == |s|
    ensures forall i :: 0 <= i < |s| ==> l[i] == Lower(s[i])
  {
    seq(|s|, i requires 0 <= i < |s| => Lower(s[i]))
  }

  /** Comparing ignoring case is comparing the lower-case foldings. */
  lemma EqualsIgnoreCaseIsLowerEquality(a: string, b: string)
    ensures EqualsIgnoreCase(a, b) <==> LowerString(a) == LowerString(b)
  {
    if LowerString(a) == LowerString(b) {
      assert |a| == |LowerString(a)| == |LowerString(b)| == |b|;
      forall i | 0 <= i < |a|
        ensures Lower(a[i]) == Lower(b[i])
      {
        assert LowerString(a)[i] == LowerString(b)[i];
      }
    }
  }

  /** Case-insensitive equality is an equivalence relation, so the order in
      which the CLI compares the argument with a keyword does not matter. */
  lemma EqualsIgnoreCaseIsEquivalence(a: string, b: string, c: string)
    ensures EqualsIgnoreCase(a, a)
    ensures EqualsIgnoreCase(a, b) ==> EqualsIgnoreCase(b, a)
    ensures EqualsIgnoreCase(a, b) && EqualsIgnoreCase(b, c) ==> EqualsIgnoreCase(a, c)
  {
  }

  /** The C library's `strcasecmp` loop: walk both strings while their folded
      characters agree, then return the difference of the folded characters
      at the first mismatch, where the end of a string reads as NUL. */
  method StrCaseCmp(a: string, b: string) returns (d: int)
    requires CString(a) && CString(b)
    ensures d == 0 <==> EqualsIgnoreCase(a, b)
  {
    var i := 0;
    while i < |a| && i < |b| && Lower(a[i]) == Lower(b[i])
      invariant 0 <= i <= |a| && i <= |b|
      invariant forall j :: 0 <= j < i ==> Lower(a[j]) == Lower(b[j])
    {
      i := i + 1;
    }
    var ca := if i < |a| then Lower(a[i]) as int else 0;
    var cb := if i < |b| then Lower(b[i]) as int else 0;
    assert i < |a| ==> a[i] != '\0' && ca != 0;
    assert i < |b| ==> b[i] != '\0' && cb != 0;
    d := ca - cb;
  }
}
