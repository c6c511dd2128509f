/**
 * String tests used by the core, all as ordinal comparisons. The source's
 * `StartsWith(string)` compares under the current culture, which ignores
 * characters such as the soft hyphen U+00AD; that is not modelled.
 */
module Strings {

  /** `s.StartsWith(p, StringComparison.Ordinal)`: `p` is a prefix of `s`, character for character. */
  predicate StartsWith(s: string, p: string)
  {
    |p| <= |s| && s[..|p|] == p
  }

  /** Upper-case folding of ASCII letters; every other character is kept. */
  function UpperAscii(c: char): (u: char)
    ensures 'a' <= c <= 'z' ==> u as int == c as int - 32
    ensures !('a' <= c <= 'z') ==> u == c
    ensures !('a' <= u <= 'z')
  {
    if 'a' <= c <= 'z' then (c as int - 32) as char else c
  }

  /** Two characters equal once ASCII letters are folded. */
  predicate EqualsIgnoreCase(a: char, b: char)
  {
    UpperAscii(a) == UpperAscii(b)
  }

  /** `s` contains `p` at position `i`, folding ASCII case. */
  predicate MatchesAtIgnoreCase(s: string, p: string, i: int)
  {
    0 <= i && i + |p| <= |s| && forall j :: 0 <= j < |p| ==> EqualsIgnoreCase(s[i + j], p[j])
  }

  /** `s.Contains(p, StringComparison.OrdinalIgnoreCase)`, restricted to ASCII case folding. */
  predicate ContainsIgnoreCase(s: string, p: string)
  {
    exists i :: 0 <= i <= |s| - |p| && MatchesAtIgnoreCase(s, p, i)
  }
}
