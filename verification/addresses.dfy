/** Account addresses as the pages compare them: as plain strings, equal when
    they agree after `toLowerCase()`. Addresses are hexadecimal, so only the
    ASCII letters A-Z need folding. */
module Addresses {
  import opened Wrappers

  type Address = string

  function LowerChar(c: char): char {
    if 'A' <= c <= 'Z' then (c as int + 32) as char else c
  }

  /** `s.toLowerCase()` restricted to ASCII letters. */
  function ToLower(s: string): (r: string)
    ensures |r| == |s|
    ensures forall i :: 0 <= i < |s| ==> r[i] == LowerChar(s[i])
  {
    seq(|s|, i requires 0 <= i < |s| => LowerChar(s[i]))
  }

  /** `a.toLowerCase() === b.toLowerCase()` */
  predicate SameAddress(a: Address, b: Address) {
    ToLower(a) == ToLower(b)
  }

  /** JavaScript truthiness of a possibly missing string: it must exist and be non-empty. */
  predicate Truthy(s: Option<string>) {
    s.Some? && s.value != ""
  }

  /** Lower-casing twice is lower-casing once. */
  lemma ToLowerIdempotent(s: string)
    ensures ToLower(ToLower(s)) == ToLower(s)
  {
  }

  /** Case-insensitive address comparison is an equivalence relation, so
      "owned by the wallet" does not depend on which spelling is used. */
  lemma SameAddressIsEquivalence(a: Address, b: Address, c: Address)
    ensures SameAddress(a, a)
    ensures SameAddress(a, b) ==> SameAddress(b, a)
    ensures SameAddress(a, b) && SameAddress(b, c) ==> SameAddress(a, c)
  {
  }

  /** An address matches its own lower-cased spelling, and two spellings that
      differ only in the case of letters match. */
  lemma SameAddressIgnoresCase(a: Address)
    ensures SameAddress(a, ToLower(a))
  {
    ToLowerIdempotent(a);
  }
}
