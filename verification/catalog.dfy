/**
 The catalog of storage backends: a type is known when it matches one of
 `storage.ValidTypes()` ignoring case, and `unknownStorage` scans the list.
 */
module Catalog {
  import opened Strings

  /** `typ` matches some valid type case-insensitively. */
  predicate Known(typ: string, validTypes: seq<string>)
  {
    exists i :: 0 <= i < |validTypes| && EqualFold(typ, validTypes[i])
  }

  /** `unknownStorage`: walk the valid types in order and stop at the first
      case-insensitive match. */
  method UnknownStorage(typ: string, validTypes: seq<string>) returns (unknown: bool)
    ensures unknown <==> !Known(typ, validTypes)
  {
    var n := 0;
    while n < |validTypes|
      invariant 0 <= n <= |validTypes|
      invariant forall i :: 0 <= i < n ==> !EqualFold(typ, validTypes[i])
    {
      if EqualFold(typ, validTypes[n]) {
        return false;
      }
      n := n + 1;
    }
    return true;
  }

  /** Being known does not depend on the spelling: a type that differs only in
      case from a known one is known too. */
  lemma KnownUpToCase(a: string, b: string, validTypes: seq<string>)
    requires EqualFold(a, b)
    requires Known(b, validTypes)
    ensures Known(a, validTypes)
  {
  }
}
