/**
  PHP 8.2's `strtoupper` (and earlier versions under the C locale):
  locale-independent, it maps the ASCII letters a-z to A-Z and leaves every other character as it is.
 */
module Ascii {

  predicate IsLower(c: char) {
    'a' <= c <= 'z'
  }

  /** A string in which `strtoupper` has nothing left to change. */
  predicate NoLower(s: string) {
    forall i :: 0 <= i < |s| ==> !IsLower(s[i])
  }

  /** The upper-case form of one character. */
  function UpperChar(c: char): (u: char)
    ensures !IsLower(u)
    ensures !IsLower(c) ==> u == c
    ensures IsLower(c) ==> 'A' <= u <= 'Z' && u as int + 32 == c as int
  {
    if IsLower(c) then (c as int - 32) as char else c
  }

  /** The lower-case form of one character (used only to state case-insensitivity). */
  function LowerChar(c: char): (l: char)
    ensures UpperChar(l) == UpperChar(c)
  {
    if 'A' <= c <= 'Z' then (c as int + 32) as char else c
  }

  /** `strtoupper(s)`: every character is replaced by its upper-case form. */
  function ToUpper(s: string): (r: string)
    ensures |r| == |s|
    ensures forall i :: 0 <= i < |s| ==> r[i] == UpperChar(s[i])
    ensures NoLower(r)
  {
    if s == [] then [] else [UpperChar(s[0])] + ToUpper(s[1..])
  }

  /** `strtolower(s)`, the ASCII counterpart of ToUpper. */
  function ToLower(s: string): (r: string)
    ensures |r| == |s|
    ensures forall i :: 0 <= i < |s| ==> r[i] == LowerChar(s[i])
  {
    if s == [] then [] else [LowerChar(s[0])] + ToLower(s[1..])
  }

  /** Two strings that differ at most in the case of ASCII letters. */
  predicate SameIgnoringCase(a: string, b: string) {
    |a| == |b| && forall i :: 0 <= i < |a| ==> UpperChar(a[i]) == UpperChar(b[i])
  }

  /** Uppercasing changes a string exactly when it holds a lower-case letter. */
  lemma {:induction false} ToUpperFixesExactlyNoLower(s: string)
    ensures ToUpper(s) == s <==> NoLower(s)
  {
    if NoLower(s) {
      forall i | 0 <= i < |s| ensures ToUpper(s)[i] == s[i] {
      }
    }
  }

  /** Uppercasing is idempotent. */
  lemma ToUpperIdempotent(s: string)
    ensures ToUpper(ToUpper(s)) == ToUpper(s)
  {
    ToUpperFixesExactlyNoLower(ToUpper(s));
  }

  /** Uppercasing identifies exactly the strings that agree up to case. */
  lemma {:induction false} ToUpperEqualIffSameIgnoringCase(a: string, b: string)
    ensures ToUpper(a) == ToUpper(b) <==> SameIgnoringCase(a, b)
  {
    if SameIgnoringCase(a, b) {
      forall i | 0 <= i < |a| ensures ToUpper(a)[i] == ToUpper(b)[i] {
      }
    }
    if ToUpper(a) == ToUpper(b) {
      forall i | 0 <= i < |a| ensures UpperChar(a[i]) == UpperChar(b[i]) {
        assert ToUpper(a)[i] == ToUpper(b)[i];
      }
    }
  }

  /** Lower-casing a string first does not change its upper-case form. */
  lemma ToUpperOfToLower(s: string)
    ensures ToUpper(ToLower(s)) == ToUpper(s)
  {
    ToUpperEqualIffSameIgnoringCase(ToLower(s), s);
  }
}
