/**
 Text helpers shared by every stage of the normalizer: Go's case-insensitive
 string comparison and Go's zero-value map lookup.
 */
module Strings {

  /** Simple case folding of one character, restricted to the ASCII letters. */
  function Fold(c: char): char
  {
    if 'A' <= c <= 'Z' then (c as int + 32) as char else c
  }

  /** `strings.EqualFold`: equal lengths and equal characters after folding. */
  predicate EqualFold(a: string, b: string)
  {
    |a| == |b| && forall i :: 0 <= i < |a| ==> Fold(a[i]) == Fold(b[i])
  }

  /** The whole string with every character folded: an independent
      description of case-insensitive equality. */
  function Lower(s: string): string
  {
    if s == [] then [] else [Fold(s[0])] + Lower(s[1..])
  }

  /** `Lower` keeps the length and folds each position. */
  lemma {:induction false} LowerAt(s: string)
    ensures |Lower(s)| == |s|
    ensures forall i :: 0 <= i < |s| ==> Lower(s)[i] == Fold(s[i])
  {
    if s != [] {
      LowerAt(s[1..]);
    }
  }

  /** Two strings are equal ignoring case exactly when their lower-cased forms
      are equal. */
  lemma EqualFoldIsEqualLower(a: string, b: string)
    ensures EqualFold(a, b) <==> Lower(a) == Lower(b)
  {
    LowerAt(a);
    LowerAt(b);
    if Lower(a) == Lower(b) {
      forall i | 0 <= i < |a|
        ensures Fold(a[i]) == Fold(b[i])
      {
        assert Lower(a)[i] == Lower(b)[i];
      }
    }
  }

  /** Reading a `map[string]string` in Go yields "" for a missing key. */
  function Lookup(m: map<string, string>, key: string): string
  {
    if key in m then m[key] else ""
  }
}
