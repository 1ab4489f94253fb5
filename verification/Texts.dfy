/** Text the way Ruby and Rails look at it. */
module Texts {

  /** A space in Ruby's `[[:space:]]`, the class behind Rails' `blank?`. */
  predicate Space(c: char) {
    || '\t' <= c <= '\r' || c == ' ' || c == '\U{85}' || c == '\U{A0}' || c == '\U{1680}'
    || '\U{2000}' <= c <= '\U{200A}' || c == '\U{2028}' || c == '\U{2029}' || c == '\U{202F}'
    || c == '\U{205F}' || c == '\U{3000}'
  }

  /** `blank?` */
  predicate Blank(s: string) { forall c :: c in s ==> Space(c) }
}
