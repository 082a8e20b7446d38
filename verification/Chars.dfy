/** Characters as Rust classifies them. */
module Chars {
  /** `char::is_whitespace`: the Unicode property White_Space. */
  predicate IsWhitespace(c: char) {
    || '\U{0009}' <= c <= '\U{000D}'
    || c == ' ' || c == '\U{0085}' || c == '\U{00A0}' || c == '\U{1680}'
    || '\U{2000}' <= c <= '\U{200A}'
    || c == '\U{2028}' || c == '\U{2029}' || c == '\U{202F}' || c == '\U{205F}' || c == '\U{3000}'
  }

  /** `trim().is_empty()` */
  predicate IsBlank(s: string) {
    forall c | c in s :: IsWhitespace(c)
  }

  /** Of the ASCII characters these are space, tab, line feed, vertical tab, form feed and carriage return, among them
      the four blanks of JSON (section 2 of RFC 8259). */
  lemma AsciiBlanks(c: char)
    requires c as int < 128
    ensures IsWhitespace(c) <==> c == ' ' || c == '\t' || c == '\n' || c == '\U{000B}' || c == '\U{000C}' || c == '\r'
  {
  }
}
