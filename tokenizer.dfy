/**
 * The lossless, context-aware tokenizer: one left-to-right pass over the
 * text that carries a stack of open scopes and emits a flat token list
 * whose texts, concatenated, give back the input.
 *
 * `Step` reads the next token from the front of the rest of the text in
 * the current `Lexer` state; `Lex` repeats it on what remains until the
 * text is used up; `Tokenize` starts it with an empty scope stack.  The
 * speculative generic scope of a `<` is decided by `Probe`, a lookahead
 * that only reads the text: when it fails nothing is pushed and the `<` is
 * scanned again as an ordinary operator, which is the rollback.
 */
module Tokenizer {
  import opened Chars
  import opened Wrappers

  datatype TokenKind =
    | Whitespace
    | Linebreak
    | Identifier
    | Number
    | Operator
    | StringBody
    | CommentBody
    | StartOfScope
    | EndOfScope

  /** A token is its kind and the exact text it was scanned from. */
  datatype Token = Token(kind: TokenKind, text: string)

  /** One frame of the scope stack. */
  datatype Scope =
    | StringScope              // inside "…"
    | Interpolation            // inside \( … ) within a string
    | LineComment              // after //, closed by the next linebreak
    | BlockComment             // one frame per opening of a block comment
    | Paren
    | Bracket
    | Brace(switchBody: bool)  // switchBody: opened right after `switch <expr>`
    | Generic                  // a committed < … > type-argument list

  /**
   * Tokenizer state between two tokens.
   * last: the kind of the token before (None at the start of the text);
   * pendingSwitch: an identifier `switch` was seen and its `{` has not come yet;
   * awaitingColon: a case label is open and its `:` has not come yet.
   */
  datatype Lexer = Lexer(scopes: seq<Scope>, last: Option<TokenKind>, pendingSwitch: bool, awaitingColon: bool)

  const Initial := Lexer([], None, false, false)

  /** The result of one step: the token (its text is the consumed prefix) and the new state. */
  datatype Scan = Scan(token: Token, lexer: Lexer)

  // ---------------------------------------------------------------------------
  // The scope stack

  predicate TopIs(scopes: seq<Scope>, f: Scope) {
    |scopes| > 0 && scopes[|scopes| - 1] == f
  }

  function Pop(scopes: seq<Scope>): (r: seq<Scope>)
    requires |scopes| > 0
    ensures scopes == r + [scopes[|scopes| - 1]]
  {
    scopes[..|scopes| - 1]
  }

  /** Number of open generic frames anywhere on the stack. */
  function CountGeneric(scopes: seq<Scope>): nat {
    if scopes == [] then 0
    else CountGeneric(scopes[..|scopes| - 1]) + (if scopes[|scopes| - 1] == Generic then 1 else 0)
  }

  /** The closer c matches the frame on top: `)` closes a paren or an interpolation. */
  predicate Closes(c: char, scopes: seq<Scope>) {
    |scopes| > 0 &&
    match scopes[|scopes| - 1]
    case Paren => c == ')'
    case Interpolation => c == ')'
    case Bracket => c == ']'
    case Brace(_) => c == '}'
    case _ => false
  }

  /** The stack after the closer c: the matching frame is popped, a stray closer pops nothing. */
  function AfterClose(c: char, scopes: seq<Scope>): seq<Scope> {
    if Closes(c, scopes) then Pop(scopes) else scopes
  }

  // ---------------------------------------------------------------------------
  // Scanning runs of characters at the front of the text

  function SpaceRun(s: string): (n: nat)
    ensures n <= |s|
  {
    if |s| > 0 && IsSpace(s[0]) then 1 + SpaceRun(s[1..]) else 0
  }

  function DigitRun(s: string): (n: nat)
    ensures n <= |s|
  {
    if |s| > 0 && IsDigit(s[0]) then 1 + DigitRun(s[1..]) else 0
  }

  function IdentifierBodyRun(s: string): (n: nat)
    ensures n <= |s|
  {
    if |s| > 0 && IsIdentifierBody(s[0]) then 1 + IdentifierBodyRun(s[1..]) else 0
  }

  /** Number of consecutive `>` characters at the front. */
  function ChevronRun(s: string): (n: nat)
    ensures n <= |s|
  {
    if |s| > 0 && s[0] == '>' then 1 + ChevronRun(s[1..]) else 0
  }

  /** `\n`, `\r` or `\r\n`, whichever is at the front. */
  function LinebreakLen(s: string): (n: nat)
    requires |s| > 0 && IsLinebreakChar(s[0])
    ensures 0 < n <= |s|
  {
    if s[0] == '\r' && |s| > 1 && s[1] == '\n' then 2 else 1
  }

  /** An identifier: a head character and body characters, or `…` backtick-escaped. */
  function IdentifierLen(s: string): (n: nat)
    requires |s| > 0 && (IsIdentifierHead(s[0]) || s[0] == '`')
    ensures 0 < n <= |s|
  {
    if s[0] == '`' then
      var k := 1 + IdentifierBodyRun(s[1..]);
      if k < |s| && s[k] == '`' then k + 1 else k
    else
      1 + IdentifierBodyRun(s[1..])
  }

  /**
   * A decimal literal: digits, then `.` and digits, then `e`/`E`, an optional
   * sign and digits.  A part that is not followed by its digits is not taken.
   */
  function NumberLen(s: string): (n: nat)
    requires |s| > 0 && IsDigit(s[0])
    ensures 0 < n <= |s|
  {
    ExponentEnd(s, FractionEnd(s, 1 + DigitRun(s[1..])))
  }

  /** The end of `.digits` starting at d, or d when no such fraction starts there. */
  function FractionEnd(s: string, d: nat): (f: nat)
    requires d <= |s|
    ensures d <= f <= |s|
  {
    if d + 1 < |s| && s[d] == '.' && IsDigit(s[d + 1]) then d + 2 + DigitRun(s[d + 2..]) else d
  }

  /** The end of an exponent `e`/`E`, optional sign, digits starting at f, or f when there is none. */
  function ExponentEnd(s: string, f: nat): (n: nat)
    requires f <= |s|
    ensures f <= n <= |s|
  {
    if f < |s| && (s[f] == 'e' || s[f] == 'E') then
      var k := if f + 1 < |s| && (s[f + 1] == '+' || s[f + 1] == '-') then f + 2 else f + 1;
      if k < |s| && IsDigit(s[k]) then k + 1 + DigitRun(s[k + 1..]) else f
    else f
  }

  // A line comment or a block comment opens at the front.
  predicate CommentOpens(s: string) {
    |s| > 1 && s[0] == '/' && (s[1] == '/' || s[1] == '*')
  }

  // A block comment opens or closes at the front.
  predicate BlockDelimiter(s: string) {
    |s| > 1 && ((s[0] == '/' && s[1] == '*') || (s[0] == '*' && s[1] == '/'))
  }

  /**
   * Whether an operator run may take the front character: it is an operator
   * character, a `.` only when the run began with one, no chevron while a
   * generic scope is on top, and no comment begins there.
   */
  predicate OperatorContinues(s: string, dots: bool, inGeneric: bool) {
    |s| > 0 && IsOperatorChar(s[0]) && (dots || s[0] != '.') &&
    !(inGeneric && (s[0] == '<' || s[0] == '>')) && !CommentOpens(s)
  }

  function OperatorRun(s: string, dots: bool, inGeneric: bool): (n: nat)
    ensures n <= |s|
  {
    if OperatorContinues(s, dots, inGeneric) then 1 + OperatorRun(s[1..], dots, inGeneric) else 0
  }

  /** A word of a line comment: up to the next space, tab or linebreak. */
  function LineCommentBodyRun(s: string): (n: nat)
    ensures n <= |s|
  {
    if |s| > 0 && !IsSpace(s[0]) && !IsLinebreakChar(s[0]) then 1 + LineCommentBodyRun(s[1..]) else 0
  }

  /** A word of a block comment: also stops where a nested comment opens or one closes. */
  function BlockCommentBodyRun(s: string): (n: nat)
    ensures n <= |s|
  {
    if |s| > 0 && !IsSpace(s[0]) && !IsLinebreakChar(s[0]) && !BlockDelimiter(s) then
      1 + BlockCommentBodyRun(s[1..])
    else 0
  }

  /**
   * The raw body of a string: it runs to the closing quote, to the end of
   * the text, or up to and including the backslash of an interpolation
   * `\(`.  An escape (a backslash and the character after it) is kept as it is.
   */
  function StringBodyLen(s: string): (n: nat)
    ensures n <= |s|
    ensures |s| > 0 && s[0] != '"' ==> n > 0
  {
    if |s| == 0 || s[0] == '"' then 0
    else if s[0] == '\\' then
      if |s| > 1 && s[1] == '(' then 1
      else if |s| > 1 then 2 + StringBodyLen(s[2..])
      else 1
    else 1 + StringBodyLen(s[1..])
  }

  // ---------------------------------------------------------------------------
  // Generic lookahead

  function CountChar(c: char, xs: seq<char>): nat {
    if xs == [] then 0 else CountChar(c, xs[..|xs| - 1]) + (if xs[|xs| - 1] == c then 1 else 0)
  }

  /** A character that would begin an identifier or a number. */
  predicate StartsWord(c: char) {
    IsIdentifierHead(c) || IsDigit(c) || c == '`'
  }

  /**
   * Characters the lookahead steps over anywhere inside a type-argument
   * list: spaces, the separator `,`, the `.` of a qualified name and the
   * optional marks `?` and `!`.  A `:` is stepped over only directly inside
   * `[ ]`, where it separates the key and value types of a dictionary.
   */
  predicate IsProbeSkip(c: char) {
    IsSpace(c) || c == ',' || c == '.' || c == '?' || c == '!'
  }

  /**
   * Lookahead inside a speculative `<` list: `opens` holds the brackets the
   * probe has opened (starting with that `<`), `outer` the generic frames
   * already open around it.  It succeeds when the list is closed by a `>`
   * after nothing but identifiers, spaces, `, . ? !`, a `:` directly
   * inside `[ ]`, and balanced `< >`, `( )`, `[ ]`; it fails on anything
   * else, at the end of the text, when a run of `>` is longer than the
   * generic scopes it could close (a shift or custom operator), or when a
   * closing `>` is directly followed by an identifier or a number.
   */
  function Probe(s: string, opens: seq<char>, outer: nat): bool
    decreases |s|
  {
    if |s| == 0 then false
    else
      var c := s[0];
      if IsProbeSkip(c) || (c == ':' && |opens| > 0 && opens[|opens| - 1] == '[') then
        Probe(s[1..], opens, outer)
      else if IsIdentifierHead(c) || c == '`' then
        Probe(s[IdentifierLen(s)..], opens, outer)
      else if c == '<' || c == '(' || c == '[' then
        Probe(s[1..], opens + [c], outer)
      else if c == ')' || c == ']' then
        |opens| > 0 && opens[|opens| - 1] == (if c == ')' then '(' else '[') &&
        Probe(s[1..], opens[..|opens| - 1], outer)
      else if c == '>' then
        |opens| > 0 && opens[|opens| - 1] == '<' &&
        ChevronRun(s) <= CountChar('<', opens) + outer &&
        !(|s| > 1 && StartsWord(s[1])) &&
        (|opens| == 1 || Probe(s[1..], opens[..|opens| - 1], outer))
      else false
  }

  /** A `<` at the front opens a generic scope: it follows an identifier and the lookahead succeeds. */
  predicate GenericOpens(s: string, lx: Lexer) {
    |s| > 0 && s[0] == '<' && lx.last == Some(Identifier) &&
    Probe(s[1..], ['<'], CountGeneric(lx.scopes))
  }

  // ---------------------------------------------------------------------------
  // One step, by the kind of scope on top of the stack

  function StringStep(s: string, lx: Lexer): (r: Scan)
    requires |s| > 0 && TopIs(lx.scopes, StringScope)
    ensures 0 < |r.token.text| <= |s| && r.token.text == s[..|r.token.text|]
  {
    if s[0] == '"' then
      Scan(Token(EndOfScope, "\""), lx.(scopes := Pop(lx.scopes)))
    else if s[0] == '(' && lx.last == Some(StringBody) then
      // the body before stopped at the backslash of `\(`
      Scan(Token(StartOfScope, "("), lx.(scopes := lx.scopes + [Interpolation]))
    else
      Scan(Token(StringBody, s[..StringBodyLen(s)]), lx)
  }

  function LineCommentStep(s: string, lx: Lexer): (r: Scan)
    requires |s| > 0 && TopIs(lx.scopes, LineComment)
    ensures 0 < |r.token.text| <= |s| && r.token.text == s[..|r.token.text|]
  {
    if IsLinebreakChar(s[0]) then
      Scan(Token(Linebreak, s[..LinebreakLen(s)]), lx.(scopes := Pop(lx.scopes)))
    else if IsSpace(s[0]) then
      Scan(Token(Whitespace, s[..SpaceRun(s)]), lx)
    else
      Scan(Token(CommentBody, s[..LineCommentBodyRun(s)]), lx)
  }

  function BlockCommentStep(s: string, lx: Lexer): (r: Scan)
    requires |s| > 0 && TopIs(lx.scopes, BlockComment)
    ensures 0 < |r.token.text| <= |s| && r.token.text == s[..|r.token.text|]
  {
    if |s| > 1 && s[0] == '*' && s[1] == '/' then
      Scan(Token(EndOfScope, "*/"), lx.(scopes := Pop(lx.scopes)))
    else if |s| > 1 && s[0] == '/' && s[1] == '*' then
      Scan(Token(StartOfScope, "/*"), lx.(scopes := lx.scopes + [BlockComment]))
    else if IsLinebreakChar(s[0]) then
      Scan(Token(Linebreak, s[..LinebreakLen(s)]), lx)
    else if IsSpace(s[0]) then
      Scan(Token(Whitespace, s[..SpaceRun(s)]), lx)
    else
      Scan(Token(CommentBody, s[..BlockCommentBodyRun(s)]), lx)
  }

  /** An identifier, or a `case`/`default` label directly inside a switch body. */
  function WordStep(s: string, lx: Lexer): (r: Scan)
    requires |s| > 0 && (IsIdentifierHead(s[0]) || s[0] == '`')
    ensures 0 < |r.token.text| <= |s| && r.token.text == s[..|r.token.text|]
  {
    var w := s[..IdentifierLen(s)];
    if (w == "case" || w == "default") && TopIs(lx.scopes, Brace(true)) then
      Scan(Token(EndOfScope, w), lx.(awaitingColon := true))
    else
      Scan(Token(Identifier, w), lx.(pendingSwitch := lx.pendingSwitch || w == "switch"))
  }

  /** Ordinary code: the top level and the inside of brackets, generics and interpolations. */
  function CodeStep(s: string, lx: Lexer): (r: Scan)
    requires |s| > 0
    ensures 0 < |r.token.text| <= |s| && r.token.text == s[..|r.token.text|]
  {
    var c := s[0];
    if IsLinebreakChar(c) then
      Scan(Token(Linebreak, s[..LinebreakLen(s)]), lx.(awaitingColon := false))
    else if IsSpace(c) then
      Scan(Token(Whitespace, s[..SpaceRun(s)]), lx)
    else if c == '"' then
      Scan(Token(StartOfScope, "\""), lx.(scopes := lx.scopes + [StringScope]))
    else if CommentOpens(s) then
      if s[1] == '/' then
        Scan(Token(StartOfScope, "//"), lx.(scopes := lx.scopes + [LineComment]))
      else
        Scan(Token(StartOfScope, "/*"), lx.(scopes := lx.scopes + [BlockComment]))
    else if c == '(' then
      Scan(Token(StartOfScope, "("), lx.(scopes := lx.scopes + [Paren]))
    else if c == '[' then
      Scan(Token(StartOfScope, "["), lx.(scopes := lx.scopes + [Bracket]))
    else if c == '{' then
      Scan(Token(StartOfScope, "{"),
           lx.(scopes := lx.scopes + [Brace(lx.pendingSwitch)], pendingSwitch := false, awaitingColon := false))
    else if c == ')' || c == ']' || c == '}' then
      Scan(Token(EndOfScope, [c]), lx.(scopes := AfterClose(c, lx.scopes)))
    else if c == '>' && TopIs(lx.scopes, Generic) then
      Scan(Token(EndOfScope, ">"), lx.(scopes := Pop(lx.scopes)))
    else if GenericOpens(s, lx) then
      Scan(Token(StartOfScope, "<"), lx.(scopes := lx.scopes + [Generic]))
    else if c == ':' && lx.awaitingColon && TopIs(lx.scopes, Brace(true)) then
      Scan(Token(StartOfScope, ":"), lx.(awaitingColon := false))
    else if IsPunctuation(c) then
      Scan(Token(Operator, [c]), lx)
    else if IsOperatorChar(c) then
      Scan(Token(Operator, s[..1 + OperatorRun(s[1..], c == '.', TopIs(lx.scopes, Generic))]), lx)
    else if IsDigit(c) then
      Scan(Token(Number, s[..NumberLen(s)]), lx)
    else if IsIdentifierHead(c) || c == '`' then
      WordStep(s, lx)
    else
      // any other character (a stray backslash, a control character) stands alone
      Scan(Token(Operator, [c]), lx)
  }

  /** The next token, chosen by the scope on top of the stack. */
  function Step(s: string, lx: Lexer): (r: Scan)
    requires |s| > 0
    ensures 0 < |r.token.text| <= |s|
    ensures r.token.text == s[..|r.token.text|]
    ensures r.lexer.last == Some(r.token.kind)
  {
    var r :=
      if TopIs(lx.scopes, StringScope) then StringStep(s, lx)
      else if TopIs(lx.scopes, LineComment) then LineCommentStep(s, lx)
      else if TopIs(lx.scopes, BlockComment) then BlockCommentStep(s, lx)
      else CodeStep(s, lx);
    r.(lexer := r.lexer.(last := Some(r.token.kind)))
  }

  /** The tokens of the text s, starting in state lx. */
  function Lex(s: string, lx: Lexer): (ts: seq<Token>)
    ensures |ts| <= |s|
    decreases |s|
  {
    if s == [] then []
    else
      var r := Step(s, lx);
      [r.token] + Lex(s[|r.token.text|..], r.lexer)
  }

  function Tokenize(s: string): seq<Token> {
    Lex(s, Initial)
  }

  /** The texts of the tokens, concatenated. */
  function Join(ts: seq<Token>): string {
    if ts == [] then [] else ts[0].text + Join(ts[1..])
  }
}
