/**
 * Properties of the tokenizer on every input, not only on the inputs of the tests:
 * the token texts concatenate back to the input, every token has the shape
 * its kind promises, and neighbouring tokens are separated where a scanner
 * reads maximal runs (no two Whitespace tokens in a row, `\r\n` never split,
 * a number or an identifier never followed by a character that would have
 * continued it).
 */
module TokenizerProperties {
  import opened Chars
  import opened Wrappers
  import opened Tokenizer
  import opened Scanning
  import opened Steps

  // ---------------------------------------------------------------------------
  // Losslessness

  /** The token texts, concatenated, are the text that was scanned. */
  lemma {:induction false} LexRoundTrip(s: string, lx: Lexer)
    ensures Join(Lex(s, lx)) == s
    decreases |s|
  {
    if s != [] {
      var r := Step(s, lx);
      var n := |r.token.text|;
      var ts := Lex(s, lx);
      assert ts == [r.token] + Lex(s[n..], r.lexer);
      assert ts[1..] == Lex(s[n..], r.lexer);
      LexRoundTrip(s[n..], r.lexer);
      assert s == s[..n] + s[n..];
    }
  }

  lemma TokenizeRoundTrip(s: string)
    ensures Join(Tokenize(s)) == s
  {
    LexRoundTrip(s, Initial);
  }

  // ---------------------------------------------------------------------------
  // What the scanners of runs take

  lemma {:induction false} SpaceRunShape(s: string)
    ensures AllSpace(s[..SpaceRun(s)])
    ensures SpaceRun(s) < |s| ==> !IsSpace(s[SpaceRun(s)])
    decreases |s|
  {
    if |s| > 0 && IsSpace(s[0]) {
      SpaceRunShape(s[1..]);
      var n := SpaceRun(s[1..]);
      var w := s[..1 + n];
      assert forall i | 1 <= i < 1 + n :: w[i] == s[1..][..n][i - 1];
    }
  }

  lemma {:induction false} DigitRunShape(s: string)
    ensures AllDigits(s[..DigitRun(s)])
    ensures DigitRun(s) < |s| ==> !IsDigit(s[DigitRun(s)])
    decreases |s|
  {
    if |s| > 0 && IsDigit(s[0]) {
      DigitRunShape(s[1..]);
      var n := DigitRun(s[1..]);
      var w := s[..1 + n];
      assert forall i | 1 <= i < 1 + n :: w[i] == s[1..][..n][i - 1];
    }
  }

  lemma {:induction false} IdentifierBodyRunShape(s: string)
    ensures AllIdentifierBody(s[..IdentifierBodyRun(s)])
    ensures IdentifierBodyRun(s) < |s| ==> !IsIdentifierBody(s[IdentifierBodyRun(s)])
    decreases |s|
  {
    if |s| > 0 && IsIdentifierBody(s[0]) {
      IdentifierBodyRunShape(s[1..]);
      var n := IdentifierBodyRun(s[1..]);
      var w := s[..1 + n];
      assert forall i | 1 <= i < 1 + n :: w[i] == s[1..][..n][i - 1];
    }
  }

  lemma {:induction false} LineCommentBodyRunShape(s: string)
    ensures AllCommentText(s[..LineCommentBodyRun(s)])
    ensures LineCommentBodyRun(s) < |s| ==>
              IsSpace(s[LineCommentBodyRun(s)]) || IsLinebreakChar(s[LineCommentBodyRun(s)])
    decreases |s|
  {
    if |s| > 0 && !IsSpace(s[0]) && !IsLinebreakChar(s[0]) {
      LineCommentBodyRunShape(s[1..]);
      var n := LineCommentBodyRun(s[1..]);
      var w := s[..1 + n];
      assert forall i | 1 <= i < 1 + n :: w[i] == s[1..][..n][i - 1];
    }
  }

  lemma {:induction false} BlockCommentBodyRunShape(s: string)
    ensures BlockCommentText(s[..BlockCommentBodyRun(s)])
    ensures BlockCommentBodyRun(s) < |s| ==>
              IsSpace(s[BlockCommentBodyRun(s)]) || IsLinebreakChar(s[BlockCommentBodyRun(s)]) ||
              BlockDelimiter(s[BlockCommentBodyRun(s)..])
    ensures 0 < BlockCommentBodyRun(s) < |s| ==>
              !IsBlockPair(s[BlockCommentBodyRun(s) - 1], s[BlockCommentBodyRun(s)])
    decreases |s|
  {
    if |s| > 0 && !IsSpace(s[0]) && !IsLinebreakChar(s[0]) && !BlockDelimiter(s) {
      BlockCommentBodyRunShape(s[1..]);
      var n := BlockCommentBodyRun(s[1..]);
      var w := s[..1 + n];
      assert forall i | 1 <= i < 1 + n :: w[i] == s[1..][..n][i - 1];
      assert s[1 + n..] == s[1..][n..];
      if n > 0 {
        assert !IsBlockPair(w[0], w[1]);
      } else if 1 < |s| {
        assert !IsBlockPair(s[0], s[1]);
      }
    }
  }

  lemma {:induction false} OperatorRunShape(s: string, dots: bool, inGeneric: bool)
    ensures OperatorText(s[..OperatorRun(s, dots, inGeneric)], dots, inGeneric)
    ensures !OperatorContinues(s[OperatorRun(s, dots, inGeneric)..], dots, inGeneric)
    ensures 0 < OperatorRun(s, dots, inGeneric) < |s| ==>
              !IsCommentPair(s[OperatorRun(s, dots, inGeneric) - 1], s[OperatorRun(s, dots, inGeneric)])
    decreases |s|
  {
    if OperatorContinues(s, dots, inGeneric) {
      OperatorRunShape(s[1..], dots, inGeneric);
      var n := OperatorRun(s[1..], dots, inGeneric);
      var w := s[..1 + n];
      assert forall i | 1 <= i < 1 + n :: w[i] == s[1..][..n][i - 1];
      assert s[1 + n..] == s[1..][n..];
      if n > 0 {
        assert OperatorContinues(s[1..], dots, inGeneric);
        assert !IsCommentPair(w[0], w[1]);
      }
    }
  }

  lemma LinebreakShape(s: string)
    requires |s| > 0 && IsLinebreakChar(s[0])
    ensures IsLinebreakText(s[..LinebreakLen(s)])
    ensures s[..LinebreakLen(s)] == "\r" ==> |s| == 1 || s[1] != '\n'
  {
    if LinebreakLen(s) == 2 {
      assert s[..2] == [s[0], s[1]];
    } else {
      assert s[..1] == [s[0]];
    }
  }

  lemma IdentifierShape(s: string)
    requires |s| > 0 && (IsIdentifierHead(s[0]) || s[0] == '`')
    ensures IdentifierText(s[..IdentifierLen(s)])
    ensures s[0] != '`' && IdentifierLen(s) < |s| ==> !IsIdentifierBody(s[IdentifierLen(s)])
  {
    var n := IdentifierLen(s);
    var b := IdentifierBodyRun(s[1..]);
    IdentifierBodyRunShape(s[1..]);
    var w := s[..n];
    assert s[1..][..b] == s[1..1 + b];
    if n == 1 + b {
      assert w[1..] == s[1..1 + b];
    } else {
      assert w[1..|w| - 1] == s[1..1 + b];
    }
  }

  /**
   * The body scanner takes a string body and stops where one must end: at
   * the closing quote, at the `(` after a dangling backslash, or at the end
   * of the text.
   */
  lemma {:induction false} StringBodyShape(s: string)
    requires |s| > 0 && s[0] != '"'
    ensures StringBodyText(s[..StringBodyLen(s)])
    ensures BodyEnds(s[..StringBodyLen(s)], s[StringBodyLen(s)..])
    decreases |s|
  {
    var n := StringBodyLen(s);
    var w := s[..n];
    if s[0] == '\\' {
      if |s| > 1 && s[1] != '(' {
        if |s| > 2 && s[2] != '"' {
          StringBodyShape(s[2..]);
          assert w[2..] == s[2..][..StringBodyLen(s[2..])];
          assert s[n..] == s[2..][StringBodyLen(s[2..])..];
        } else {
          assert w[2..] == [] && !Dangling(w[2..]);
        }
      }
    } else if |s| > 1 && s[1] != '"' {
      StringBodyShape(s[1..]);
      assert w[1..] == s[1..][..StringBodyLen(s[1..])];
      assert s[n..] == s[1..][StringBodyLen(s[1..])..];
    } else {
      assert w[1..] == [] && !Dangling(w[1..]);
    }
  }

  lemma NumberShapeOf(s: string)
    requires |s| > 0 && IsDigit(s[0])
    ensures NumberText(s[..NumberLen(s)])
    ensures NumberLen(s) < |s| ==> !IsDigit(s[NumberLen(s)])
  {
    var p := 1 + DigitRun(s[1..]);
    var q := FractionEnd(s, p);
    var w := s[..NumberLen(s)];
    IntegerShape(s, w, p);
    FractionShape(s, w, p, q);
    ExponentShape(s, w, q);
    assert NumberShape(w, p, q);
    NumberBoundary(s, p, q);
  }

  lemma IntegerShape(s: string, w: string, p: nat)
    requires |s| > 0 && IsDigit(s[0]) && w == s[..NumberLen(s)]
    requires p == 1 + DigitRun(s[1..])
    ensures p <= |w| && AllDigits(w[..p])
  {
    DigitRunShape(s[1..]);
    assert w[..p] == [s[0]] + s[1..][..p - 1];
  }

  lemma FractionShape(s: string, w: string, p: nat, q: nat)
    requires |s| > 0 && IsDigit(s[0]) && w == s[..NumberLen(s)]
    requires p == 1 + DigitRun(s[1..]) && q == FractionEnd(s, p)
    ensures q <= |w|
    ensures p == q || (q >= p + 2 && w[p] == '.' && AllDigits(w[p + 1..q]))
  {
    assert q <= NumberLen(s);
    if q != p {
      FractionDigits(s, p, q);
      SliceOfPrefix(s, NumberLen(s), p + 1, q);
    }
  }

  lemma SliceOfPrefix(s: string, n: nat, i: nat, j: nat)
    requires i <= j <= n <= |s|
    ensures s[..n][i..j] == s[i..j]
  {
  }

  lemma FractionDigits(s: string, p: nat, q: nat)
    requires p <= |s| && q == FractionEnd(s, p) && q != p
    ensures q >= p + 2 && s[p] == '.' && AllDigits(s[p + 1..q])
  {
    DigitRunShape(s[p + 2..]);
    assert s[p + 1..q] == [s[p + 1]] + s[p + 2..][..q - p - 2];
  }

  lemma ExponentShape(s: string, w: string, q: nat)
    requires |s| > 0 && IsDigit(s[0]) && w == s[..NumberLen(s)]
    requires q == FractionEnd(s, 1 + DigitRun(s[1..]))
    ensures q == |w| || ExponentAt(w, q)
  {
    var n := ExponentEnd(s, q);
    assert |w| == n;
    if n != q {
      var k := if q + 1 < |s| && (s[q + 1] == '+' || s[q + 1] == '-') then q + 2 else q + 1;
      assert k < |s| && IsDigit(s[k]) && n == k + 1 + DigitRun(s[k + 1..]);
      assert w[q] == s[q];
      assert ExponentDigits(w, q) == k by {
        assert q + 1 < n ==> w[q + 1] == s[q + 1];
      }
      ExponentTail(s, k, n);
      assert w[k..] == s[..n][k..];
    }
  }

  /** The exponent digits the number scanner takes are all digits. */
  lemma ExponentTail(s: string, k: nat, n: nat)
    requires k < |s| && IsDigit(s[k]) && n == k + 1 + DigitRun(s[k + 1..])
    ensures AllDigits(s[..n][k..])
  {
    DigitRunShape(s[k + 1..]);
    var d := s[k + 1..][..n - k - 1];
    assert s[..n][k..] == [s[k]] + d;
  }

  lemma NumberBoundary(s: string, p: nat, q: nat)
    requires |s| > 0 && IsDigit(s[0])
    requires p == 1 + DigitRun(s[1..]) && q == FractionEnd(s, p)
    ensures NumberLen(s) < |s| ==> !IsDigit(s[NumberLen(s)])
  {
    var n := ExponentEnd(s, q);
    assert NumberLen(s) == n;
    if n != q {
      var k := if q + 1 < |s| && (s[q + 1] == '+' || s[q + 1] == '-') then q + 2 else q + 1;
      DigitRunEnd(s, k + 1, n);
    } else if q != p {
      DigitRunEnd(s, p + 2, n);
    } else {
      DigitRunEnd(s, 1, n);
    }
  }

  /** A digit run from a to e ends before a character that is not a digit. */
  lemma DigitRunEnd(s: string, a: nat, e: nat)
    requires a <= |s| && e == a + DigitRun(s[a..])
    ensures e < |s| ==> !IsDigit(s[e])
  {
    DigitRunShape(s[a..]);
  }

  // ---------------------------------------------------------------------------
  // Token shapes

  predicate IsLinebreakText(w: string) {
    w == "\n" || w == "\r" || w == "\r\n"
  }

  /** A head character and body characters, or a name opened by a backtick (closed by one when the text has it). */
  predicate IdentifierText(w: string) {
    |w| > 0 &&
    ((IsIdentifierHead(w[0]) && AllIdentifierBody(w[1..])) ||
     (w[0] == '`' &&
      (AllIdentifierBody(w[1..]) || (|w| > 1 && w[|w| - 1] == '`' && AllIdentifierBody(w[1..|w| - 1])))))
  }

  /** Digits up to p, an optional `.digits` fraction up to q, an optional exponent to the end. */
  predicate NumberShape(w: string, p: nat, q: nat) {
    0 < p <= q <= |w| && AllDigits(w[..p]) &&
    (p == q || (q >= p + 2 && w[p] == '.' && AllDigits(w[p + 1..q]))) &&
    (q == |w| || ExponentAt(w, q))
  }

  predicate NumberText(w: string) {
    exists p: nat, q: nat | 0 < p <= q <= |w| :: NumberShape(w, p, q)
  }

  /**
   * One character, or a run of operator characters in which a `.` only
   * follows a leading `.` and no comment opens.
   */
  predicate OperatorToken(w: string) {
    |w| == 1 ||
    ((forall i | 0 <= i < |w| :: IsOperatorChar(w[i])) &&
     (forall i | 0 < i < |w| :: w[i] == '.' ==> w[0] == '.') &&
     (forall i | 0 <= i < |w| - 1 :: !IsCommentPair(w[i], w[i + 1])))
  }

  /** The text of a token has the form its kind stands for. */
  predicate WellFormed(t: Token) {
    match t.kind
    case Whitespace => |t.text| > 0 && AllSpace(t.text)
    case Linebreak => IsLinebreakText(t.text)
    case Identifier => IdentifierText(t.text)
    case Number => NumberText(t.text)
    case Operator => |t.text| > 0 && OperatorToken(t.text)
    case StringBody => StringBodyText(t.text)
    case CommentBody => |t.text| > 0 && AllCommentText(t.text)
    case StartOfScope => t.text in {"\"", "(", "[", "{", "<", ":", "//", "/*"}
    case EndOfScope => t.text in {"\"", ")", "]", "}", ">", "*/", "case", "default"}
  }

  // ---------------------------------------------------------------------------
  // Every token is well formed

  /**
   * Inside a string a step gives the closing quote, the `(` of an
   * interpolation right after a body, or a well-formed body.
   */
  lemma StringStepWellFormed(s: string, lx: Lexer)
    requires |s| > 0 && TopIs(lx.scopes, StringScope)
    ensures WellFormed(StringStep(s, lx).token)
    ensures StringStep(s, lx).token.kind in {StringBody, EndOfScope, StartOfScope}
    ensures StringStep(s, lx).token == Token(EndOfScope, "\"") <==> s[0] == '"'
    ensures StringStep(s, lx).token == Token(StartOfScope, "(") <==> s[0] == '(' && lx.last == Some(StringBody)
  {
    if s[0] != '"' && !(s[0] == '(' && lx.last == Some(StringBody)) {
      StringBodyShape(s);
    }
  }

  lemma LineCommentStepWellFormed(s: string, lx: Lexer)
    requires |s| > 0 && TopIs(lx.scopes, LineComment)
    ensures WellFormed(LineCommentStep(s, lx).token)
  {
    if IsLinebreakChar(s[0]) {
      LinebreakShape(s);
    } else if IsSpace(s[0]) {
      SpaceRunShape(s);
    } else {
      LineCommentBodyRunShape(s);
    }
  }

  lemma BlockCommentStepWellFormed(s: string, lx: Lexer)
    requires |s| > 0 && TopIs(lx.scopes, BlockComment)
    ensures WellFormed(BlockCommentStep(s, lx).token)
  {
    if |s| > 1 && s[0] == '*' && s[1] == '/' {
    } else if |s| > 1 && s[0] == '/' && s[1] == '*' {
    } else if IsLinebreakChar(s[0]) {
      LinebreakShape(s);
    } else if IsSpace(s[0]) {
      SpaceRunShape(s);
    } else {
      BlockCommentBodyRunShape(s);
    }
  }

  /** The text an operator run takes from code. */
  lemma OperatorShape(s: string, inGeneric: bool)
    requires |s| > 0 && IsOperatorChar(s[0]) && !CommentOpens(s)
    ensures OperatorToken(s[..1 + OperatorRun(s[1..], s[0] == '.', inGeneric)])
  {
    var m := OperatorRun(s[1..], s[0] == '.', inGeneric);
    var w := s[..1 + m];
    OperatorRunShape(s[1..], s[0] == '.', inGeneric);
    assert w[1..] == s[1..][..m];
    if m > 0 {
      assert w[1] == s[1];
    }
  }

  lemma CodeStepWellFormed(s: string, lx: Lexer)
    requires |s| > 0
    ensures WellFormed(CodeStep(s, lx).token)
  {
    var c := s[0];
    if IsLinebreakChar(c) {
      LinebreakShape(s);
    } else if IsSpace(c) {
      SpaceRunShape(s);
    } else if c == '"' || CommentOpens(s) || c == '(' || c == '[' || c == '{' {
    } else if c == ')' || c == ']' || c == '}' {
      assert [c] in {")", "]", "}"};
    } else if c == '>' && TopIs(lx.scopes, Generic) {
    } else if GenericOpens(s, lx) {
    } else if c == ':' && lx.awaitingColon && TopIs(lx.scopes, Brace(true)) {
    } else if IsPunctuation(c) {
    } else if IsOperatorChar(c) {
      OperatorShape(s, TopIs(lx.scopes, Generic));
    } else if IsDigit(c) {
      NumberShapeOf(s);
    } else if IsIdentifierHead(c) || c == '`' {
      IdentifierShape(s);
    }
  }

  lemma StepWellFormed(s: string, lx: Lexer)
    requires |s| > 0
    ensures WellFormed(Step(s, lx).token)
  {
    if TopIs(lx.scopes, StringScope) {
      StringStepWellFormed(s, lx);
    } else if TopIs(lx.scopes, LineComment) {
      LineCommentStepWellFormed(s, lx);
    } else if TopIs(lx.scopes, BlockComment) {
      BlockCommentStepWellFormed(s, lx);
    } else {
      CodeStepWellFormed(s, lx);
    }
  }

  /** Every token of every text has the form its kind stands for. */
  lemma {:induction false} LexWellFormed(s: string, lx: Lexer)
    ensures forall i | 0 <= i < |Lex(s, lx)| :: WellFormed(Lex(s, lx)[i])
    decreases |s|
  {
    if s != [] {
      var r := Step(s, lx);
      var n := |r.token.text|;
      var ts := Lex(s, lx);
      assert ts == [r.token] + Lex(s[n..], r.lexer);
      StepWellFormed(s, lx);
      LexWellFormed(s[n..], r.lexer);
      forall i | 0 <= i < |ts|
        ensures WellFormed(ts[i])
      {
        if i > 0 {
          assert ts[i] == Lex(s[n..], r.lexer)[i - 1];
        }
      }
    }
  }

  // ---------------------------------------------------------------------------
  // Maximal runs: what may follow a token

  /**
   * The character c may come right after the token t: a Whitespace token is
   * not followed by a space or tab, a `\r` linebreak not by `\n`, a number
   * not by a digit, and an identifier that does not start with a backtick
   * not by a character that would continue it.
   */
  predicate CanFollow(t: Token, c: char) {
    (t.kind == Whitespace ==> !IsSpace(c)) &&
    (t == Token(Linebreak, "\r") ==> c != '\n') &&
    (t.kind == Number ==> !IsDigit(c)) &&
    (t.kind == Identifier && |t.text| > 0 && t.text[0] != '`' ==> !IsIdentifierBody(c))
  }

  /** u is a token that may come right after t. */
  predicate Separated(t: Token, u: Token) {
    |u.text| > 0 && CanFollow(t, u.text[0])
  }

  lemma CodeStepBoundary(s: string, lx: Lexer)
    requires |s| > 0
    ensures |CodeStep(s, lx).token.text| < |s| ==> CanFollow(CodeStep(s, lx).token, s[|CodeStep(s, lx).token.text|])
  {
    var c := s[0];
    if IsLinebreakChar(c) {
      LinebreakShape(s);
    } else if IsSpace(c) {
      SpaceRunShape(s);
    } else if c == '"' || CommentOpens(s) || c == '(' || c == '[' || c == '{' {
    } else if c == ')' || c == ']' || c == '}' {
    } else if c == '>' && TopIs(lx.scopes, Generic) {
    } else if GenericOpens(s, lx) {
    } else if c == ':' && lx.awaitingColon && TopIs(lx.scopes, Brace(true)) {
    } else if IsPunctuation(c) || IsOperatorChar(c) {
    } else if IsDigit(c) {
      NumberShapeOf(s);
    } else if IsIdentifierHead(c) || c == '`' {
      IdentifierShape(s);
    }
  }

  lemma StepBoundary(s: string, lx: Lexer)
    requires |s| > 0
    ensures |Step(s, lx).token.text| < |s| ==> CanFollow(Step(s, lx).token, s[|Step(s, lx).token.text|])
  {
    if TopIs(lx.scopes, StringScope) {
    } else if TopIs(lx.scopes, LineComment) {
      if IsLinebreakChar(s[0]) {
        LinebreakShape(s);
      } else if IsSpace(s[0]) {
        SpaceRunShape(s);
      }
    } else if TopIs(lx.scopes, BlockComment) {
      if IsLinebreakChar(s[0]) {
        LinebreakShape(s);
      } else if IsSpace(s[0]) {
        SpaceRunShape(s);
      }
    } else {
      CodeStepBoundary(s, lx);
    }
  }

  /** Every token is followed by one that may come after it. */
  lemma {:induction false} LexSeparated(s: string, lx: Lexer)
    ensures forall i | 0 <= i < |Lex(s, lx)| - 1 :: Separated(Lex(s, lx)[i], Lex(s, lx)[i + 1])
    decreases |s|
  {
    if s != [] {
      var r := Step(s, lx);
      var n := |r.token.text|;
      var rest := s[n..];
      var tail := Lex(rest, r.lexer);
      var ts := Lex(s, lx);
      assert ts == [r.token] + tail;
      LexSeparated(rest, r.lexer);
      if rest != [] {
        StepBoundary(s, lx);
        var u := Step(rest, r.lexer).token;
        assert tail[0] == u;
        assert u.text[0] == rest[0] == s[n];
      }
      forall i | 0 <= i < |ts| - 1
        ensures Separated(ts[i], ts[i + 1])
      {
        if i > 0 {
          assert ts[i] == tail[i - 1] && ts[i + 1] == tail[i];
        }
      }
    }
  }

  /**
   * Runs are never split: no two Whitespace tokens and no two Number tokens
   * are neighbours, and `\r\n` is never a `\r` linebreak followed by a `\n` one.
   */
  lemma MaximalRuns(s: string)
    ensures forall i | 0 <= i < |Tokenize(s)| - 1 ::
              !(Tokenize(s)[i].kind == Whitespace && Tokenize(s)[i + 1].kind == Whitespace) &&
              !(Tokenize(s)[i].kind == Number && Tokenize(s)[i + 1].kind == Number) &&
              !(Tokenize(s)[i] == Token(Linebreak, "\r") && Tokenize(s)[i + 1] == Token(Linebreak, "\n"))
  {
    var ts := Tokenize(s);
    LexWellFormed(s, Initial);
    LexSeparated(s, Initial);
    forall i | 0 <= i < |ts| - 1
      ensures !(ts[i].kind == Whitespace && ts[i + 1].kind == Whitespace)
      ensures !(ts[i].kind == Number && ts[i + 1].kind == Number)
    {
      assert Separated(ts[i], ts[i + 1]) && WellFormed(ts[i + 1]);
      if ts[i + 1].kind == Number {
        var p: nat, q: nat :| 0 < p <= q <= |ts[i + 1].text| && NumberShape(ts[i + 1].text, p, q);
        assert ts[i + 1].text[..p][0] == ts[i + 1].text[0];
      }
    }
  }

  // ---------------------------------------------------------------------------
  // Scopes

  /**
   * A `<` in code opens a generic scope exactly when the lookahead succeeds
   * after an identifier; otherwise it is an operator and the stack is left
   * as it was.
   */
  lemma ChevronDecision(rest: string, lx: Lexer)
    requires InCode(lx)
    ensures Step("<" + rest, lx).token.kind == StartOfScope <==> GenericOpens("<" + rest, lx)
    ensures GenericOpens("<" + rest, lx) ==>
              Step("<" + rest, lx).token.text == "<" && Step("<" + rest, lx).lexer.scopes == lx.scopes + [Generic]
    ensures !GenericOpens("<" + rest, lx) ==>
              Step("<" + rest, lx).token.kind == Operator && Step("<" + rest, lx).lexer.scopes == lx.scopes
  {
    var s := "<" + rest;
    assert s[0] == '<';
    assert !CommentOpens(s);
  }

  /** `case` and `default` end a scope exactly when the innermost frame is a switch body. */
  lemma CaseLabelDecision(w: string, rest: string, lx: Lexer)
    requires InCode(lx) && (w == "case" || w == "default")
    requires rest == [] || !IsIdentifierBody(rest[0])
    ensures Step(w + rest, lx).token.text == w
    ensures Step(w + rest, lx).token.kind == EndOfScope <==> TopIs(lx.scopes, Brace(true))
    ensures Step(w + rest, lx).token.kind != EndOfScope ==> Step(w + rest, lx).token.kind == Identifier
  {
    if TopIs(lx.scopes, Brace(true)) {
      CodeCaseLabel(w, rest, lx);
    } else {
      assert AllIdentifierBody(w[1..]);
      CodeIdentifier(w, rest, lx);
    }
  }

  /**
   * Inside a line comment only a linebreak ends it, and it is the linebreak
   * that pops the frame: no EndOfScope token closes `//`.
   */
  lemma LineCommentTokens(s: string, lx: Lexer)
    requires |s| > 0 && TopIs(lx.scopes, LineComment)
    ensures Step(s, lx).token.kind in {Whitespace, CommentBody, Linebreak}
    ensures Step(s, lx).token.kind == Linebreak <==> IsLinebreakChar(s[0])
    ensures Step(s, lx).lexer.scopes ==
              if Step(s, lx).token.kind == Linebreak then Pop(lx.scopes) else lx.scopes
  {
    if !IsLinebreakChar(s[0]) && !IsSpace(s[0]) {
      assert LineCommentBodyRun(s) > 0;
    }
  }

  // Inside a block comment every opener (slash, star) pushes one more frame
  // and every closer (star, slash) pops one, each as its own StartOfScope or
  // EndOfScope token; nothing else touches the stack.
  lemma BlockCommentTokens(s: string, lx: Lexer)
    requires |s| > 0 && TopIs(lx.scopes, BlockComment)
    ensures Step(s, lx).token.kind == StartOfScope <==> |s| > 1 && s[0] == '/' && s[1] == '*'
    ensures Step(s, lx).token.kind == EndOfScope <==> |s| > 1 && s[0] == '*' && s[1] == '/'
    ensures Step(s, lx).lexer.scopes ==
              match Step(s, lx).token.kind
              case StartOfScope => lx.scopes + [BlockComment]
              case EndOfScope => Pop(lx.scopes)
              case _ => lx.scopes
    ensures Step(s, lx).token.kind in {StartOfScope, EndOfScope, Whitespace, Linebreak, CommentBody}
  {
  }
}
