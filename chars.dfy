/**
 * Character classes used by the tokenizer.
 *
 * Full Unicode classification is approximated: the ASCII classes are exact,
 * the operator-head ranges of the Swift grammar are listed explicitly, and
 * every other scalar at or above U+0080 counts as a letter (this covers the
 * identifiers `µsec` and `💩` and the operator `≥`).
 */
module Chars {

  /** Horizontal whitespace: a run of these is one Whitespace token. */
  predicate IsSpace(c: char) {
    c == ' ' || c == '\t'
  }

  /** The two characters that make up the three linebreak forms. */
  predicate IsLinebreakChar(c: char) {
    c == '\n' || c == '\r'
  }

  predicate IsDigit(c: char) {
    '0' <= c <= '9'
  }

  predicate IsAsciiLetter(c: char) {
    ('a' <= c <= 'z') || ('A' <= c <= 'Z')
  }

  /** Operator-head scalars outside ASCII (the Swift operator grammar's ranges). */
  predicate IsUnicodeOperator(c: char) {
    var n := c as int;
    (0xA1 <= n <= 0xA7) || n == 0xA9 || n == 0xAB || n == 0xAC || n == 0xAE ||
    (0xB0 <= n <= 0xB1) || n == 0xB6 || n == 0xBB || n == 0xBF || n == 0xD7 || n == 0xF7 ||
    (0x2016 <= n <= 0x2017) || (0x2020 <= n <= 0x2027) || (0x2030 <= n <= 0x203E) ||
    (0x2041 <= n <= 0x2053) || (0x2055 <= n <= 0x205E) || (0x2190 <= n <= 0x23FF) ||
    (0x2500 <= n <= 0x2775) || (0x2794 <= n <= 0x2BFF) || (0x2E00 <= n <= 0x2E7F) ||
    (0x3001 <= n <= 0x3003) || (0x3008 <= n <= 0x3020) || n == 0x3030
  }

  /** Non-ASCII scalars that are not operators are treated as letters (this includes emoji). */
  predicate IsUnicodeLetter(c: char) {
    c as int >= 0x80 && !IsUnicodeOperator(c)
  }

  /** Characters that may form a multi-character operator run. */
  predicate IsOperatorChar(c: char) {
    c == '/' || c == '=' || c == '-' || c == '+' || c == '!' || c == '*' || c == '%' ||
    c == '<' || c == '>' || c == '&' || c == '|' || c == '^' || c == '~' || c == '?' || c == '.' ||
    IsUnicodeOperator(c)
  }

  /** Punctuation that is always a one-character Operator token. */
  predicate IsPunctuation(c: char) {
    c == ',' || c == ';' || c == ':'
  }

  /** First character of an identifier (the backtick of an escaped identifier is handled apart). */
  predicate IsIdentifierHead(c: char) {
    IsAsciiLetter(c) || c == '_' || c == '$' || c == '@' || c == '#' || IsUnicodeLetter(c)
  }

  /** Later characters of an identifier. */
  predicate IsIdentifierBody(c: char) {
    IsAsciiLetter(c) || IsDigit(c) || c == '_' || c == '$' || IsUnicodeLetter(c)
  }

  /** ASCII lower-casing, used for the case-insensitive option values. */
  function ToLower(c: char): (r: char)
    ensures 'A' <= c <= 'Z' ==> r as int == c as int + 32
    ensures !('A' <= c <= 'Z') ==> r == c
  {
    if 'A' <= c <= 'Z' then (c as int + 32) as char else c
  }

  function Lowercase(s: string): (r: string)
    ensures |r| == |s|
    ensures forall k | 0 <= k < |s| :: r[k] == ToLower(s[k])
  {
    if s == [] then [] else [ToLower(s[0])] + Lowercase(s[1..])
  }
}
