/** The words a player can type. */
module Tokens {

  predicate IsSpace(c: char) {
    c == ' ' || 9 <= c as int <= 13
  }

  /** A word of a command line: not empty, no whitespace in it. */
  predicate IsToken(t: string) {
    t != "" && forall i :: 0 <= i < |t| ==> !IsSpace(t[i])
  }
}
