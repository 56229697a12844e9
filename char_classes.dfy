/** Character classes of the three regular expressions used by the form
    validator (App.js:104, App.js:109, App.js:121), and the `^[...]+$`
    shape they share. */
module CharClasses {

  /** `[A-Za-z]` */
  predicate IsAsciiLetter(c: char) {
    ('A' <= c <= 'Z') || ('a' <= c <= 'z')
  }

  /** `[0-9]` */
  predicate IsAsciiDigit(c: char) {
    '0' <= c <= '9'
  }

  /** JavaScript's `\s`: the ECMAScript WhiteSpace and LineTerminator code
      points. WhiteSpace is TAB, VT, FF, ZWNBSP (U+FEFF) and every code point
      of Unicode category Zs (U+0020, U+00A0, U+1680, U+2000..U+200A, U+202F,
      U+205F, U+3000); LineTerminator is LF, CR, U+2028 and U+2029. */
  predicate IsJsSpace(c: char) {
    || c == '\t' || c == '\n' || c == '\U{000B}' || c == '\U{000C}' || c == '\r'
    || c == ' ' || c == '\U{00A0}' || c == '\U{1680}'
    || ('\U{2000}' <= c <= '\U{200A}')
    || c == '\U{2028}' || c == '\U{2029}' || c == '\U{202F}' || c == '\U{205F}'
    || c == '\U{3000}' || c == '\U{FEFF}'
  }

  /** The bracket expressions that occur in the validator's patterns. */
  datatype CharClass =
    | NameChars    // [A-Za-z\s]          common name
    | TextChars    // [A-Za-z0-9\s]       organization, unit, locality
    | LocalChars   // [A-Za-z0-9._%+-]    e-mail local part
    | DomainChars  // [A-Za-z0-9.-]       e-mail domain
    | Letters      // [A-Za-z]            e-mail top-level label

  predicate InClass(cls: CharClass, c: char) {
    match cls
    case NameChars => IsAsciiLetter(c) || IsJsSpace(c)
    case TextChars => IsAsciiLetter(c) || IsAsciiDigit(c) || IsJsSpace(c)
    case LocalChars =>
      IsAsciiLetter(c) || IsAsciiDigit(c) || c == '.' || c == '_' || c == '%' || c == '+' || c == '-'
    case DomainChars => IsAsciiLetter(c) || IsAsciiDigit(c) || c == '.' || c == '-'
    case Letters => IsAsciiLetter(c)
  }

  /** Every character of `s` belongs to `cls` (the regex `[cls]*`). */
  predicate AllIn(cls: CharClass, s: string) {
    forall i :: 0 <= i < |s| ==> InClass(cls, s[i])
  }

  /** The anchored pattern `^[cls]+$`. */
  predicate OneOrMore(cls: CharClass, s: string) {
    |s| >= 1 && AllIn(cls, s)
  }

  /** No bracket expression admits `@`: in an e-mail address the only `@`
      is the separator. */
  lemma NoAtInClasses(cls: CharClass)
    ensures !InClass(cls, '@')
  {
  }
}
