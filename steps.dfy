/**
 * What one step of the tokenizer produces, stated per kind of token: when
 * the rest of the text is a word `w` followed by `rest`, and `w` is a
 * complete token of that kind that `rest` cannot extend, `Step` emits `w`
 * with that kind and moves to the stated state.  Each lemma is one branch
 * of the scanner; together they pin down every token the tests show, and
 * `LexOne` turns each of them into the first token of a token list.
 */
module Steps {
  import opened Chars
  import opened Wrappers
  import opened Tokenizer
  import opened Scanning

  /** No string or comment is open: the text is ordinary code. */
  predicate InCode(lx: Lexer) {
    !TopIs(lx.scopes, StringScope) && !TopIs(lx.scopes, LineComment) && !TopIs(lx.scopes, BlockComment)
  }

  /** One step: the token and then the tokens of the rest. */
  lemma LexOne(w: string, rest: string, lx: Lexer, t: Token, lx': Lexer)
    requires |w| > 0 && t.text == w
    requires Step(w + rest, lx) == Scan(t, lx')
    ensures Lex(w + rest, lx) == [t] + Lex(rest, lx')
  {
    var s := w + rest;
    assert s[|w|..] == rest;
  }

  // ---------------------------------------------------------------------------
  // Ordinary code

  /** `\n`, `\r\n`, and `\r` not followed by `\n`, are one Linebreak each; a linebreak ends a case label. */
  lemma CodeLinebreak(w: string, rest: string, lx: Lexer)
    requires InCode(lx)
    requires w == "\n" || w == "\r\n" || (w == "\r" && (rest == [] || rest[0] != '\n'))
    ensures Step(w + rest, lx) == Scan(Token(Linebreak, w), lx.(awaitingColon := false, last := Some(Linebreak)))
  {
    var s := w + rest;
    assert s[0] == w[0];
    if w == "\r\n" {
      assert s[1] == '\n';
    } else if w == "\r" && rest != [] {
      assert s[1] == rest[0];
    }
    assert s[..|w|] == w;
  }

  /** A maximal run of spaces and tabs is one Whitespace token, in code and in comments. */
  lemma WhitespaceToken(w: string, rest: string, lx: Lexer)
    requires !TopIs(lx.scopes, StringScope)
    requires |w| > 0 && AllSpace(w) && (rest == [] || !IsSpace(rest[0]))
    ensures Step(w + rest, lx) == Scan(Token(Whitespace, w), lx.(last := Some(Whitespace)))
  {
    var s := w + rest;
    assert s[0] == w[0] && IsSpace(w[0]);
    SpaceRunOf(w, rest);
    assert s[..|w|] == w;
  }

  /** A quote opens a string scope. */
  lemma CodeStringOpen(rest: string, lx: Lexer)
    requires InCode(lx)
    ensures Step("\"" + rest, lx) ==
            Scan(Token(StartOfScope, "\""), lx.(scopes := lx.scopes + [StringScope], last := Some(StartOfScope)))
  {
    assert ("\"" + rest)[0] == '"';
  }

  // A double slash opens a line comment, slash-star a block comment.
  lemma CodeCommentOpen(w: string, rest: string, lx: Lexer)
    requires InCode(lx)
    requires w == "//" || w == "/*"
    ensures Step(w + rest, lx) ==
            Scan(Token(StartOfScope, w),
                 lx.(scopes := lx.scopes + [if w == "//" then LineComment else BlockComment], last := Some(StartOfScope)))
  {
    var s := w + rest;
    assert s[0] == w[0] && s[1] == w[1];
  }

  /** `(` and `[` open their scopes. */
  lemma CodeBracketOpen(w: string, rest: string, lx: Lexer)
    requires InCode(lx)
    requires w == "(" || w == "["
    ensures Step(w + rest, lx) ==
            Scan(Token(StartOfScope, w),
                 lx.(scopes := lx.scopes + [if w == "(" then Paren else Bracket], last := Some(StartOfScope)))
  {
    assert (w + rest)[0] == w[0];
  }

  /** `{` opens a brace that is a switch body exactly when a `switch` is pending. */
  lemma CodeBraceOpen(rest: string, lx: Lexer)
    requires InCode(lx)
    ensures Step("{" + rest, lx) ==
            Scan(Token(StartOfScope, "{"),
                 Lexer(lx.scopes + [Brace(lx.pendingSwitch)], Some(StartOfScope), false, false))
  {
    assert ("{" + rest)[0] == '{';
  }

  /** A closer is one EndOfScope token; it pops the frame it matches. */
  lemma CodeClose(w: string, rest: string, lx: Lexer)
    requires InCode(lx)
    requires w == ")" || w == "]" || w == "}"
    ensures Step(w + rest, lx) ==
            Scan(Token(EndOfScope, w), lx.(scopes := AfterClose(w[0], lx.scopes), last := Some(EndOfScope)))
  {
    var s := w + rest;
    assert s[0] == w[0];
    assert [s[0]] == w;
  }

  /** Inside a generic scope every `>` is its own EndOfScope and closes one level. */
  lemma CodeGenericClose(rest: string, lx: Lexer)
    requires InCode(lx) && TopIs(lx.scopes, Generic)
    ensures Step(">" + rest, lx) ==
            Scan(Token(EndOfScope, ">"), lx.(scopes := Pop(lx.scopes), last := Some(EndOfScope)))
  {
    assert (">" + rest)[0] == '>';
  }

  /** A `<` right after an identifier, whose lookahead succeeds, opens a generic scope. */
  lemma CodeGenericOpen(rest: string, lx: Lexer)
    requires InCode(lx) && lx.last == Some(Identifier)
    requires Probe(rest, ['<'], CountGeneric(lx.scopes))
    ensures Step("<" + rest, lx) ==
            Scan(Token(StartOfScope, "<"), lx.(scopes := lx.scopes + [Generic], last := Some(StartOfScope)))
  {
    var s := "<" + rest;
    assert s[0] == '<' && s[1..] == rest;
  }

  /** The `:` closing a case label in a switch body opens the case's scope. */
  lemma CodeCaseColon(rest: string, lx: Lexer)
    requires InCode(lx) && lx.awaitingColon && TopIs(lx.scopes, Brace(true))
    ensures Step(":" + rest, lx) ==
            Scan(Token(StartOfScope, ":"), lx.(awaitingColon := false, last := Some(StartOfScope)))
  {
    assert (":" + rest)[0] == ':';
  }

  /** `,` `;` and any other `:` are one-character operators. */
  lemma CodePunctuation(w: string, rest: string, lx: Lexer)
    requires InCode(lx)
    requires w == "," || w == ";" || (w == ":" && !(lx.awaitingColon && TopIs(lx.scopes, Brace(true))))
    ensures Step(w + rest, lx) == Scan(Token(Operator, w), lx.(last := Some(Operator)))
  {
    var s := w + rest;
    assert s[0] == w[0];
    assert [s[0]] == w;
  }

  /**
   * A maximal run of operator characters is one Operator.  It may contain a
   * `.` only when it starts with one, holds no chevron while a generic scope
   * is on top, and stops where a comment opens.
   */
  lemma CodeOperator(w: string, rest: string, lx: Lexer)
    requires InCode(lx)
    requires |w| > 0 && IsOperatorChar(w[0]) && !(|w| > 1 && IsCommentPair(w[0], w[1]))
    requires OperatorText(w[1..], w[0] == '.', TopIs(lx.scopes, Generic))
    requires !(|rest| > 0 && IsCommentPair(w[|w| - 1], rest[0]))
    requires !OperatorContinues(rest, w[0] == '.', TopIs(lx.scopes, Generic))
    requires !(w[0] == '>' && TopIs(lx.scopes, Generic))
    requires !GenericOpens(w + rest, lx)
    ensures Step(w + rest, lx) == Scan(Token(Operator, w), lx.(last := Some(Operator)))
  {
    var s := w + rest;
    assert s[0] == w[0];
    assert !CommentOpens(s) by {
      if |w| > 1 {
        assert s[1] == w[1];
      } else if |rest| > 0 {
        assert s[1] == rest[0];
      }
    }
    OperatorTail(w, rest, w[0] == '.', TopIs(lx.scopes, Generic));
    CodeStepOperator(s, lx);
    StepInCode(s, lx);
    assert s[..|w|] == w;
  }

  lemma OperatorTail(w: string, rest: string, dots: bool, inGeneric: bool)
    requires |w| > 0 && OperatorText(w[1..], dots, inGeneric)
    requires !(|rest| > 0 && IsCommentPair(w[|w| - 1], rest[0]))
    requires !OperatorContinues(rest, dots, inGeneric)
    ensures OperatorRun((w + rest)[1..], dots, inGeneric) == |w| - 1
  {
    assert (w + rest)[1..] == w[1..] + rest;
    if |w| > 1 {
      assert w[1..][|w[1..]| - 1] == w[|w| - 1];
    }
    OperatorRunOf(w[1..], rest, dots, inGeneric);
  }

  /** In code, a step is the code scanner's step with the token's kind recorded. */
  lemma StepInCode(s: string, lx: Lexer)
    requires |s| > 0 && InCode(lx)
    ensures Step(s, lx) == CodeStep(s, lx).(lexer := CodeStep(s, lx).lexer.(last := Some(CodeStep(s, lx).token.kind)))
  {
  }

  lemma CodeStepWord(s: string, lx: Lexer)
    requires |s| > 0 && InCode(lx) && (IsIdentifierHead(s[0]) || s[0] == '`')
    ensures CodeStep(s, lx) == WordStep(s, lx)
  {
    assert !IsOperatorChar(s[0]) && !IsPunctuation(s[0]) && !IsDigit(s[0]);
    assert !CommentOpens(s) && !GenericOpens(s, lx);
  }

  lemma CodeStepOperator(s: string, lx: Lexer)
    requires |s| > 0 && InCode(lx) && IsOperatorChar(s[0]) && !CommentOpens(s)
    requires !(s[0] == '>' && TopIs(lx.scopes, Generic)) && !GenericOpens(s, lx)
    ensures CodeStep(s, lx) ==
            Scan(Token(Operator, s[..1 + OperatorRun(s[1..], s[0] == '.', TopIs(lx.scopes, Generic))]), lx)
  {
    assert !IsPunctuation(s[0]) && !IsLinebreakChar(s[0]) && !IsSpace(s[0]);
  }

  /**
   * A maximal decimal literal is one Number: digits up to p, an optional
   * fraction up to q and an optional exponent.
   */
  lemma CodeNumber(w: string, rest: string, p: nat, q: nat, lx: Lexer)
    requires InCode(lx)
    requires 0 < p <= q <= |w| && AllDigits(w[..p])
    requires p == q || (q >= p + 2 && w[p] == '.' && AllDigits(w[p + 1..q]))
    requires q == |w| || ExponentAt(w, q)
    requires rest == [] || !(IsDigit(rest[0]) || rest[0] == '.' || rest[0] == 'e' || rest[0] == 'E')
    ensures Step(w + rest, lx) == Scan(Token(Number, w), lx.(last := Some(Number)))
  {
    var s := w + rest;
    assert w[..p][0] == w[0] == s[0];
    NumberLenOf(w, rest, p, q);
    CodeStepNumber(s, lx);
    StepInCode(s, lx);
    assert s[..|w|] == w;
  }

  lemma CodeStepNumber(s: string, lx: Lexer)
    requires |s| > 0 && InCode(lx) && IsDigit(s[0])
    ensures CodeStep(s, lx) == Scan(Token(Number, s[..NumberLen(s)]), lx)
  {
    assert !IsOperatorChar(s[0]) && !IsPunctuation(s[0]) && !IsLinebreakChar(s[0]) && !IsSpace(s[0]);
    assert !CommentOpens(s) && !GenericOpens(s, lx);
  }

  /** A maximal identifier is one Identifier, except a case label in a switch body; `switch` makes the next brace a switch body. */
  lemma CodeIdentifier(w: string, rest: string, lx: Lexer)
    requires InCode(lx)
    requires IdentifierWord(w, rest)
    requires !((w == "case" || w == "default") && TopIs(lx.scopes, Brace(true)))
    ensures Step(w + rest, lx) ==
            Scan(Token(Identifier, w), lx.(pendingSwitch := lx.pendingSwitch || w == "switch", last := Some(Identifier)))
  {
    var s := w + rest;
    assert s[0] == w[0];
    IdentifierLenOf(w, rest);
    assert s[..|w|] == w;
    CodeStepWord(s, lx);
  }

  /** Directly inside a switch body, `case` and `default` are EndOfScope tokens that open a label. */
  lemma CodeCaseLabel(w: string, rest: string, lx: Lexer)
    requires InCode(lx) && TopIs(lx.scopes, Brace(true))
    requires w == "case" || w == "default"
    requires rest == [] || !IsIdentifierBody(rest[0])
    ensures Step(w + rest, lx) == Scan(Token(EndOfScope, w), lx.(awaitingColon := true, last := Some(EndOfScope)))
  {
    var s := w + rest;
    assert s[0] == w[0];
    assert AllIdentifierBody(w[1..]);
    IdentifierLenOf(w, rest);
    assert s[..|w|] == w;
    CodeStepWord(s, lx);
  }

  // ---------------------------------------------------------------------------
  // Inside a string

  /** The closing quote ends the string scope. */
  lemma StringClose(rest: string, lx: Lexer)
    requires TopIs(lx.scopes, StringScope)
    ensures Step("\"" + rest, lx) ==
            Scan(Token(EndOfScope, "\""), lx.(scopes := Pop(lx.scopes), last := Some(EndOfScope)))
  {
    assert ("\"" + rest)[0] == '"';
  }

  /** The `(` after a body that stopped at `\(` opens an interpolation, tokenized as code. */
  lemma StringInterpolation(rest: string, lx: Lexer)
    requires TopIs(lx.scopes, StringScope) && lx.last == Some(StringBody)
    ensures Step("(" + rest, lx) ==
            Scan(Token(StartOfScope, "("), lx.(scopes := lx.scopes + [Interpolation], last := Some(StartOfScope)))
  {
    assert ("(" + rest)[0] == '(';
  }

  /**
   * The body of a string, escapes kept verbatim, up to the quote or the
   * backslash of `\(`: w is one StringBody token when the body scanner takes
   * exactly w from the front of the text.
   */
  lemma StringBodyToken(w: string, rest: string, lx: Lexer)
    requires TopIs(lx.scopes, StringScope)
    requires |w| > 0 && w[0] != '"' && !(w[0] == '(' && lx.last == Some(StringBody))
    requires StringBodyLen(w + rest) == |w|
    ensures Step(w + rest, lx) == Scan(Token(StringBody, w), lx.(last := Some(StringBody)))
  {
    var s := w + rest;
    assert s[0] == w[0];
    assert s[..|w|] == w;
  }

  /**
   * A whole string body, told by its own form: its escapes stay verbatim in
   * one StringBody token when the text goes on with the closing quote, with
   * the `(` of an interpolation after a dangling backslash, or not at all.
   */
  lemma StringBodyOf(w: string, rest: string, lx: Lexer)
    requires TopIs(lx.scopes, StringScope) && StringBodyText(w) && BodyEnds(w, rest)
    requires !(w[0] == '(' && lx.last == Some(StringBody))
    ensures Step(w + rest, lx) == Scan(Token(StringBody, w), lx.(last := Some(StringBody)))
  {
    StringBodyLenOf(w, rest);
    StringBodyToken(w, rest, lx);
  }

  // ---------------------------------------------------------------------------
  // Inside a line comment

  /** A linebreak ends a line comment; no EndOfScope token is emitted for it. */
  lemma LineCommentEnd(w: string, rest: string, lx: Lexer)
    requires TopIs(lx.scopes, LineComment)
    requires w == "\n" || w == "\r\n" || (w == "\r" && (rest == [] || rest[0] != '\n'))
    ensures Step(w + rest, lx) ==
            Scan(Token(Linebreak, w), lx.(scopes := Pop(lx.scopes), last := Some(Linebreak)))
  {
    var s := w + rest;
    assert s[0] == w[0];
    if w == "\r\n" {
      assert s[1] == '\n';
    } else if w == "\r" && rest != [] {
      assert s[1] == rest[0];
    }
    assert s[..|w|] == w;
  }

  /** A word of a line comment is one CommentBody token. */
  lemma LineCommentWord(w: string, rest: string, lx: Lexer)
    requires TopIs(lx.scopes, LineComment)
    requires |w| > 0 && AllCommentText(w)
    requires rest == [] || IsSpace(rest[0]) || IsLinebreakChar(rest[0])
    ensures Step(w + rest, lx) == Scan(Token(CommentBody, w), lx.(last := Some(CommentBody)))
  {
    var s := w + rest;
    assert s[0] == w[0] && !IsSpace(w[0]) && !IsLinebreakChar(w[0]);
    LineCommentBodyRunOf(w, rest);
    assert s[..|w|] == w;
  }

  // ---------------------------------------------------------------------------
  // Inside a block comment

  // Every star-slash is an EndOfScope that closes one level of block comment.
  lemma BlockCommentClose(rest: string, lx: Lexer)
    requires TopIs(lx.scopes, BlockComment)
    ensures Step("*/" + rest, lx) ==
            Scan(Token(EndOfScope, "*/"), lx.(scopes := Pop(lx.scopes), last := Some(EndOfScope)))
  {
    var s := "*/" + rest;
    assert s[0] == '*' && s[1] == '/';
  }

  // Every slash-star, also inside a block comment, is a StartOfScope that opens one more level.
  lemma BlockCommentNest(rest: string, lx: Lexer)
    requires TopIs(lx.scopes, BlockComment)
    ensures Step("/*" + rest, lx) ==
            Scan(Token(StartOfScope, "/*"), lx.(scopes := lx.scopes + [BlockComment], last := Some(StartOfScope)))
  {
    var s := "/*" + rest;
    assert s[0] == '/' && s[1] == '*';
  }

  /** A linebreak inside a block comment is its own token and closes nothing. */
  lemma BlockCommentLinebreak(w: string, rest: string, lx: Lexer)
    requires TopIs(lx.scopes, BlockComment)
    requires w == "\n" || w == "\r\n" || (w == "\r" && (rest == [] || rest[0] != '\n'))
    ensures Step(w + rest, lx) == Scan(Token(Linebreak, w), lx.(last := Some(Linebreak)))
  {
    var s := w + rest;
    assert s[0] == w[0];
    if w == "\r\n" {
      assert s[1] == '\n';
    } else if w == "\r" && rest != [] {
      assert s[1] == rest[0];
    }
    assert s[..|w|] == w;
  }

  // A word of a block comment is one CommentBody token; it stops before a nested slash-star or a star-slash.
  lemma BlockCommentWord(w: string, rest: string, lx: Lexer)
    requires TopIs(lx.scopes, BlockComment)
    requires |w| > 0 && BlockCommentText(w)
    requires !(|rest| > 0 && IsBlockPair(w[|w| - 1], rest[0]))
    requires rest == [] || IsSpace(rest[0]) || IsLinebreakChar(rest[0]) || BlockDelimiter(rest)
    ensures Step(w + rest, lx) == Scan(Token(CommentBody, w), lx.(last := Some(CommentBody)))
  {
    var s := w + rest;
    assert s[0] == w[0] && !IsSpace(w[0]) && !IsLinebreakChar(w[0]);
    if |w| == 1 {
      if |rest| > 0 {
        assert s[1] == rest[0];
      }
    } else {
      assert s[1] == w[1];
    }
    BlockCommentBodyRunOf(w, rest);
    assert s[..|w|] == w;
  }

  // ---------------------------------------------------------------------------
  // The generic lookahead, one move at a time

  /** Every character of w is one the lookahead steps over. */
  predicate AllProbeSkip(w: string) {
    forall i | 0 <= i < |w| :: IsProbeSkip(w[i])
  }

  lemma {:induction false} ProbeSkip(w: string, rest: string, opens: seq<char>, outer: nat)
    requires AllProbeSkip(w)
    ensures Probe(w + rest, opens, outer) == Probe(rest, opens, outer)
    decreases |w|
  {
    if w == [] {
      assert w + rest == rest;
    } else {
      var s := w + rest;
      assert s[0] == w[0] && s[1..] == w[1..] + rest;
      ProbeSkip(w[1..], rest, opens, outer);
    }
  }

  /** An identifier is stepped over whole. */
  lemma ProbeWord(w: string, rest: string, opens: seq<char>, outer: nat)
    requires IdentifierWord(w, rest)
    ensures Probe(w + rest, opens, outer) == Probe(rest, opens, outer)
  {
    var s := w + rest;
    assert s[0] == w[0];
    IdentifierLenOf(w, rest);
    assert s[|w|..] == rest;
  }

  /** `<`, `(` and `[` are pushed onto the lookahead's own stack. */
  lemma ProbeOpen(w: string, rest: string, opens: seq<char>, opens': seq<char>, outer: nat)
    requires w == "<" || w == "(" || w == "["
    requires opens' == opens + [w[0]]
    ensures Probe(w + rest, opens, outer) == Probe(rest, opens', outer)
  {
    var s := w + rest;
    assert s[0] == w[0] && s[1..] == rest;
  }

  /** A `)` or `]` that matches the innermost open bracket of the lookahead pops it. */
  lemma ProbeClose(w: string, rest: string, opens: seq<char>, opens': seq<char>, outer: nat)
    requires w == ")" || w == "]"
    requires |opens| > 0 && opens[|opens| - 1] == (if w == ")" then '(' else '[')
    requires opens' == opens[..|opens| - 1]
    ensures Probe(w + rest, opens, outer) == Probe(rest, opens', outer)
  {
    var s := w + rest;
    assert s[0] == w[0] && s[1..] == rest;
  }

  /** A `)` or `]` that does not match ends the lookahead in failure. */
  lemma ProbeCloseFails(w: string, rest: string, opens: seq<char>, outer: nat)
    requires w == ")" || w == "]"
    requires !(|opens| > 0 && opens[|opens| - 1] == (if w == ")" then '(' else '['))
    ensures !Probe(w + rest, opens, outer)
  {
    assert (w + rest)[0] == w[0];
  }

  /**
   * A `>` closes the innermost `<`: the whole run of `>` must not be longer
   * than the `<` that are open, and no word may follow it directly.
   */
  predicate ChevronCloses(rest: string, opens: seq<char>, outer: nat) {
    |opens| > 0 && opens[|opens| - 1] == '<' &&
    1 + ChevronRun(rest) <= CountChar('<', opens) + outer &&
    !(|rest| > 0 && StartsWord(rest[0]))
  }

  /** The lookahead succeeds at the `>` that closes its first `<`. */
  lemma ProbeChevronEnds(rest: string, opens: seq<char>, outer: nat)
    requires |opens| == 1 && ChevronCloses(rest, opens, outer)
    ensures Probe(">" + rest, opens, outer)
  {
    var s := ">" + rest;
    assert s[0] == '>' && s[1..] == rest;
    if |rest| > 0 {
      assert s[1] == rest[0];
    }
  }

  /** A `>` that closes an inner `<` pops it and the lookahead goes on. */
  lemma ProbeChevronPops(rest: string, opens: seq<char>, opens': seq<char>, outer: nat)
    requires |opens| > 1 && ChevronCloses(rest, opens, outer)
    requires opens' == opens[..|opens| - 1]
    ensures Probe(">" + rest, opens, outer) == Probe(rest, opens', outer)
  {
    var s := ">" + rest;
    assert s[0] == '>' && s[1..] == rest;
    if |rest| > 0 {
      assert s[1] == rest[0];
    }
  }

  /** A `>` that cannot close ends the lookahead in failure. */
  lemma ProbeChevronFails(rest: string, opens: seq<char>, outer: nat)
    requires !ChevronCloses(rest, opens, outer)
    ensures !Probe(">" + rest, opens, outer)
  {
    var s := ">" + rest;
    assert s[0] == '>' && s[1..] == rest;
    if |rest| > 0 {
      assert s[1] == rest[0];
    }
  }

  /** Any other character ends the lookahead in failure, and so does a `:` outside `[ ]`. */
  lemma ProbeStop(w: string, rest: string, opens: seq<char>, outer: nat)
    requires |w| > 0 && !IsProbeSkip(w[0]) && !IsIdentifierHead(w[0])
    requires !(w[0] in "`<([)]>")
    requires !(w[0] == ':' && |opens| > 0 && opens[|opens| - 1] == '[')
    ensures !Probe(w + rest, opens, outer)
  {
    assert (w + rest)[0] == w[0];
  }
}
