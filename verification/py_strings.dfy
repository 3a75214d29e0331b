/**
 * The two pieces of Python string semantics the Dapr extension handler relies on:
 * `str.lower()` (restricted to ASCII letters) and the ordering `a < b` on `str`.
 */
module PyStrings {

  /** `c.lower()` for one character: ASCII upper-case letters map to lower case, all else is kept. */
  function LowerChar(c: char): char
  {
    if 'A' <= c <= 'Z' then (c as int + 32) as char else c
  }

  /** `c.upper()` for one character, on ASCII lower-case letters. */
  function UpperChar(c: char): char
  {
    if 'a' <= c <= 'z' then (c as int - 32) as char else c
  }

  /** A word made only of ASCII lower-case letters, such as `managedclusters`. */
  predicate IsLowerWord(w: string)
  {
    forall i :: 0 <= i < |w| ==> 'a' <= w[i] <= 'z'
  }

  /** `s.lower()`: every character lowered on its own, so the length is kept. */
  function Lower(s: string): (r: string)
    ensures |r| == |s|
    ensures forall i :: 0 <= i < |s| ==> r[i] == LowerChar(s[i])
  {
    if s == [] then [] else [LowerChar(s[0])] + Lower(s[1..])
  }

  /** `s` spells the lower-case word `w` with each letter in either case. */
  predicate IsCaseVariantOf(s: string, w: string)
  {
    |s| == |w| && forall i :: 0 <= i < |s| ==> s[i] == w[i] || s[i] == UpperChar(w[i])
  }

  /** Comparing `s.lower()` with a lower-case word is a case-insensitive comparison, in both directions. */
  lemma LowerEqualsWordIffCaseVariant(s: string, w: string)
    requires IsLowerWord(w)
    ensures Lower(s) == w <==> IsCaseVariantOf(s, w)
  {
  }

  /**
   * Python's `a < b` on `str`: lexicographic by code point, a proper prefix
   * ordering before the longer string. (Dafny's own `<` on sequences means
   * "proper prefix", which is a different relation.)
   */
  predicate PyStrLess(a: string, b: string)
  {
    if b == [] then false
    else if a == [] then true
    else if a[0] != b[0] then a[0] < b[0]
    else PyStrLess(a[1..], b[1..])
  }

  /** No string is below itself. */
  lemma {:induction false} PyStrLessIrreflexive(a: string)
    ensures !PyStrLess(a, a)
  {
    if a != [] {
      PyStrLessIrreflexive(a[1..]);
    }
  }

  /** The order is transitive. */
  lemma {:induction false} PyStrLessTransitive(a: string, b: string, c: string)
    requires PyStrLess(a, b) && PyStrLess(b, c)
    ensures PyStrLess(a, c)
  {
    if a != [] && a[0] == b[0] && b[0] == c[0] {
      PyStrLessTransitive(a[1..], b[1..], c[1..]);
    }
  }

  /** Any two strings are equal or ordered one way; never both ways. */
  lemma {:induction false} PyStrLessTrichotomy(a: string, b: string)
    ensures a == b || PyStrLess(a, b) || PyStrLess(b, a)
    ensures !(PyStrLess(a, b) && PyStrLess(b, a))
  {
    if a != [] && b != [] && a[0] == b[0] {
      PyStrLessTrichotomy(a[1..], b[1..]);
      if a[1..] == b[1..] {
        assert a == [a[0]] + a[1..] && b == [b[0]] + b[1..];
      }
    }
  }

  /** A proper prefix is smaller: `"1.9" < "1.9.0"`. */
  lemma {:induction false} PyStrLessProperPrefix(a: string, b: string)
    requires |a| < |b| && a == b[..|a|]
    ensures PyStrLess(a, b)
  {
    if a != [] {
      assert a[1..] == b[1..][..|a| - 1];
      PyStrLessProperPrefix(a[1..], b[1..]);
    }
  }
}
