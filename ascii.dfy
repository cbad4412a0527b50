/** ASCII case folding, the part of `strings.ToLower` that hex addresses use. */
module Ascii {

  predicate IsUpperChar(c: char)
  {
    'A' <= c <= 'Z'
  }

  function LowerChar(c: char): char
  {
    if IsUpperChar(c) then (c as int + 32) as char else c
  }

  /** Two characters that are equal once ASCII letters are folded to lower case. */
  predicate SameCharIgnoringCase(x: char, y: char)
  {
    || x == y
    || (IsUpperChar(x) && y as int == x as int + 32)
    || (IsUpperChar(y) && x as int == y as int + 32)
  }

  /** A string with no upper-case ASCII letter. */
  predicate IsLower(s: string)
  {
    forall i :: 0 <= i < |s| ==> !IsUpperChar(s[i])
  }

  /** Lower-cases every ASCII letter and keeps every other character. */
  function ToLower(s: string): (r: string)
    ensures IsLower(r)
  {
    seq(|s|, i requires 0 <= i < |s| => LowerChar(s[i]))
  }

  lemma LowerCharSame(x: char, y: char)
    ensures LowerChar(x) == LowerChar(y) <==> SameCharIgnoringCase(x, y)
  {
  }

  /** Folding is idempotent, and a string that is already lower case is left alone. */
  lemma ToLowerFixesLower(s: string)
    requires IsLower(s)
    ensures ToLower(s) == s
  {
  }

  lemma ToLowerIdempotent(s: string)
    ensures ToLower(ToLower(s)) == ToLower(s)
  {
    ToLowerFixesLower(ToLower(s));
  }

  /** Two strings fold to the same key exactly when they have the same length and
      agree character by character up to ASCII case. */
  lemma ToLowerEqual(a: string, b: string)
    ensures ToLower(a) == ToLower(b) <==>
              |a| == |b| && forall i :: 0 <= i < |a| ==> SameCharIgnoringCase(a[i], b[i])
  {
    if ToLower(a) == ToLower(b) {
      forall i | 0 <= i < |a| ensures SameCharIgnoringCase(a[i], b[i]) {
        assert ToLower(a)[i] == ToLower(b)[i];
        LowerCharSame(a[i], b[i]);
      }
    }
    if |a| == |b| && forall i :: 0 <= i < |a| ==> SameCharIgnoringCase(a[i], b[i]) {
      forall i | 0 <= i < |a| ensures ToLower(a)[i] == ToLower(b)[i] {
        LowerCharSame(a[i], b[i]);
      }
    }
  }
}
