// Character classes the scanner dispatches on, and the greedy runs it reads.

module Chars {

  /** The digit test of the number arm: `'0' <= c < ':'`. */
  predicate IsDigit(c: char) {
    '0' <= c <= '9'
  }

  /** Letters. The source asks Unicode's alphabetic property; this model keeps to ASCII. */
  predicate IsAlphabetic(c: char) {
    ('a' <= c <= 'z') || ('A' <= c <= 'Z')
  }

  /** Letters and digits, ASCII only, as for IsAlphabetic. */
  predicate IsAlphanumeric(c: char) {
    IsAlphabetic(c) || IsDigit(c)
  }

  /** The two greedy runs: a number and a word (identifier or reserved word). */
  datatype RunKind = NumberRun | WordRun

  /**
   * The characters that continue a run: digits and the decimal point for a
   * number; alphanumerics, `_` and `-` for a word.
   */
  predicate Continues(kind: RunKind, c: char) {
    match kind
    case NumberRun => IsDigit(c) || c == '.'
    case WordRun => IsAlphanumeric(c) || c == '_' || c == '-'
  }

  /**
   * The length of the longest prefix of `s` that continues a run of `kind`:
   * every character before it belongs to the run and the one at it, if
   * there is one, does not.
   */
  function RunLength(kind: RunKind, s: seq<char>): (n: nat)
    ensures n <= |s|
    ensures forall i :: 0 <= i < n ==> Continues(kind, s[i])
    ensures n < |s| ==> !Continues(kind, s[n])
  {
    if s != [] && Continues(kind, s[0]) then 1 + RunLength(kind, s[1..]) else 0
  }

  /** A run is determined by where it stops. */
  lemma {:induction false} RunLengthIs(kind: RunKind, s: seq<char>, n: nat)
    requires n <= |s|
    requires forall i :: 0 <= i < n ==> Continues(kind, s[i])
    requires n < |s| ==> !Continues(kind, s[n])
    ensures RunLength(kind, s) == n
  {
    if n > 0 {
      RunLengthIs(kind, s[1..], n - 1);
    }
  }
}
