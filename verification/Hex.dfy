/** Digits and lower-case hexadecimal text. */
module Hex {
  predicate Digit(c: char) { '0' <= c <= '9' }

  predicate LowerHex(c: char) { Digit(c) || 'a' <= c <= 'f' }

  predicate HexOk(s: string, length: nat) { |s| == length && forall i :: 0 <= i < |s| ==> LowerHex(s[i]) }

  /** A SHA-256 digest as text. */
  predicate HashOk(s: string) { HexOk(s, 64) }
}
