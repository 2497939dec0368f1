/** The character classes of the parser's identifier patterns. */
module Chars {

  /** `[A-Za-z0-9]`. */
  predicate IsAlnum(ch: char) {
    'A' <= ch <= 'Z' || 'a' <= ch <= 'z' || '0' <= ch <= '9'
  }

  /** `[0-9A-Z]`: the characters that start a new word of a camel-case spelling. */
  predicate IsUpperOrDigit(ch: char) {
    'A' <= ch <= 'Z' || '0' <= ch <= '9'
  }

  /** Every character of `s` is in `[A-Za-z0-9]`. */
  predicate AllAlnum(s: string) {
    forall i :: 0 <= i < |s| ==> IsAlnum(s[i])
  }
}
