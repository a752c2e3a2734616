/**
 * How each scanner of the tokenizer behaves on a text that starts with a
 * word `w` whose characters are all of the scanned class: the scan runs
 * through all of `w` and goes on into what follows.  The character classes
 * are stated per character, so that they can be checked one character at
 * a time; these facts are what the per-token lemmas of `Steps` are built on.
 */
module Scanning {
  import opened Chars
  import opened Tokenizer

  predicate AllSpace(w: string) {
    forall i | 0 <= i < |w| :: IsSpace(w[i])
  }

  predicate AllDigits(w: string) {
    forall i | 0 <= i < |w| :: IsDigit(w[i])
  }

  predicate AllChevrons(w: string) {
    forall i | 0 <= i < |w| :: w[i] == '>'
  }

  predicate AllIdentifierBody(w: string) {
    forall i | 0 <= i < |w| :: IsIdentifierBody(w[i])
  }

  /** Characters that may appear in a word of a comment. */
  predicate AllCommentText(w: string) {
    forall i | 0 <= i < |w| :: !IsSpace(w[i]) && !IsLinebreakChar(w[i])
  }

  /** Characters of a string body other than the quote and the backslash. */
  predicate AllStringText(w: string) {
    forall i | 0 <= i < |w| :: w[i] != '"' && w[i] != '\\'
  }

  /** The pair `a b` opens or closes a block comment. */
  predicate IsBlockPair(a: char, b: char) {
    (a == '/' && b == '*') || (a == '*' && b == '/')
  }

  /** The pair `a b` opens a comment. */
  predicate IsCommentPair(a: char, b: char) {
    a == '/' && (b == '/' || b == '*')
  }

  /** The characters an operator run takes, and no comment opening inside. */
  predicate OperatorText(w: string, dots: bool, inGeneric: bool) {
    (forall i | 0 <= i < |w| ::
       IsOperatorChar(w[i]) && (dots || w[i] != '.') && !(inGeneric && (w[i] == '<' || w[i] == '>'))) &&
    (forall i | 0 <= i < |w| - 1 :: !IsCommentPair(w[i], w[i + 1]))
  }

  /** A word of a block comment: comment text with no comment delimiter inside. */
  predicate BlockCommentText(w: string) {
    AllCommentText(w) && (forall i | 0 <= i < |w| - 1 :: !IsBlockPair(w[i], w[i + 1]))
  }

  /**
   * w is a whole identifier in front of rest: a head character and body
   * characters that rest does not continue, or a name in backticks.
   */
  predicate IdentifierWord(w: string, rest: string) {
    |w| > 0 &&
    ((IsIdentifierHead(w[0]) && AllIdentifierBody(w[1..]) && (rest == [] || !IsIdentifierBody(rest[0]))) ||
     (|w| > 1 && w[0] == '`' && w[|w| - 1] == '`' && AllIdentifierBody(w[1..|w| - 1])))
  }

  // ---------------------------------------------------------------------------
  // Runs

  lemma {:induction false} SpaceRunOf(w: string, rest: string)
    requires AllSpace(w)
    ensures SpaceRun(w + rest) == |w| + SpaceRun(rest)
    decreases |w|
  {
    if w == [] {
      assert w + rest == rest;
    } else {
      assert (w + rest)[0] == w[0] && (w + rest)[1..] == w[1..] + rest;
      SpaceRunOf(w[1..], rest);
    }
  }

  lemma {:induction false} DigitRunOf(w: string, rest: string)
    requires AllDigits(w)
    ensures DigitRun(w + rest) == |w| + DigitRun(rest)
    decreases |w|
  {
    if w == [] {
      assert w + rest == rest;
    } else {
      assert (w + rest)[0] == w[0] && (w + rest)[1..] == w[1..] + rest;
      DigitRunOf(w[1..], rest);
    }
  }

  lemma {:induction false} ChevronRunOf(w: string, rest: string)
    requires AllChevrons(w)
    ensures ChevronRun(w + rest) == |w| + ChevronRun(rest)
    decreases |w|
  {
    if w == [] {
      assert w + rest == rest;
    } else {
      assert (w + rest)[0] == w[0] && (w + rest)[1..] == w[1..] + rest;
      ChevronRunOf(w[1..], rest);
    }
  }

  lemma {:induction false} IdentifierBodyRunOf(w: string, rest: string)
    requires AllIdentifierBody(w)
    ensures IdentifierBodyRun(w + rest) == |w| + IdentifierBodyRun(rest)
    decreases |w|
  {
    if w == [] {
      assert w + rest == rest;
    } else {
      assert (w + rest)[0] == w[0] && (w + rest)[1..] == w[1..] + rest;
      IdentifierBodyRunOf(w[1..], rest);
    }
  }

  lemma {:induction false} LineCommentBodyRunOf(w: string, rest: string)
    requires AllCommentText(w)
    ensures LineCommentBodyRun(w + rest) == |w| + LineCommentBodyRun(rest)
    decreases |w|
  {
    if w == [] {
      assert w + rest == rest;
    } else {
      assert (w + rest)[0] == w[0] && (w + rest)[1..] == w[1..] + rest;
      LineCommentBodyRunOf(w[1..], rest);
    }
  }

  /** A block-comment word runs on when no delimiter is formed across the end of w either. */
  lemma {:induction false} BlockCommentBodyRunOf(w: string, rest: string)
    requires BlockCommentText(w)
    requires !(|w| > 0 && |rest| > 0 && IsBlockPair(w[|w| - 1], rest[0]))
    ensures BlockCommentBodyRun(w + rest) == |w| + BlockCommentBodyRun(rest)
    decreases |w|
  {
    if w == [] {
      assert w + rest == rest;
    } else {
      var s := w + rest;
      assert s[0] == w[0] && s[1..] == w[1..] + rest;
      assert !BlockDelimiter(s) by {
        if |w| == 1 {
          assert w[|w| - 1] == w[0];
          if |rest| > 0 {
            assert s[1] == rest[0];
          }
        } else {
          assert s[1] == w[1] && !IsBlockPair(w[0], w[1]);
        }
      }
      assert BlockCommentText(w[1..]) by {
        forall i | 0 <= i < |w[1..]| - 1
          ensures !IsBlockPair(w[1..][i], w[1..][i + 1])
        {
          assert w[1..][i] == w[i + 1] && w[1..][i + 1] == w[i + 2];
        }
      }
      if |w| > 1 {
        assert w[1..][|w[1..]| - 1] == w[|w| - 1];
      }
      BlockCommentBodyRunOf(w[1..], rest);
    }
  }

  /** An operator run runs on when no comment opens across the end of w either. */
  lemma {:induction false} OperatorRunOf(w: string, rest: string, dots: bool, inGeneric: bool)
    requires OperatorText(w, dots, inGeneric)
    requires !(|w| > 0 && |rest| > 0 && IsCommentPair(w[|w| - 1], rest[0]))
    ensures OperatorRun(w + rest, dots, inGeneric) == |w| + OperatorRun(rest, dots, inGeneric)
    decreases |w|
  {
    if w == [] {
      assert w + rest == rest;
    } else {
      var s := w + rest;
      assert s[0] == w[0] && s[1..] == w[1..] + rest;
      assert !CommentOpens(s) by {
        if |w| == 1 {
          assert w[|w| - 1] == w[0];
          if |rest| > 0 {
            assert s[1] == rest[0];
          }
        } else {
          assert s[1] == w[1] && !IsCommentPair(w[0], w[1]);
        }
      }
      assert OperatorText(w[1..], dots, inGeneric) by {
        forall i | 0 <= i < |w[1..]| - 1
          ensures !IsCommentPair(w[1..][i], w[1..][i + 1])
        {
          assert w[1..][i] == w[i + 1] && w[1..][i + 1] == w[i + 2];
        }
      }
      if |w| > 1 {
        assert w[1..][|w[1..]| - 1] == w[|w| - 1];
      }
      OperatorRunOf(w[1..], rest, dots, inGeneric);
    }
  }

  // ---------------------------------------------------------------------------
  // String bodies

  /** Ordinary characters of a string body are taken one by one. */
  lemma {:induction false} StringTextOf(w: string, rest: string)
    requires AllStringText(w)
    ensures StringBodyLen(w + rest) == |w| + StringBodyLen(rest)
    decreases |w|
  {
    if w == [] {
      assert w + rest == rest;
    } else {
      assert (w + rest)[0] == w[0] && (w + rest)[1..] == w[1..] + rest;
      StringTextOf(w[1..], rest);
    }
  }

  /**
   * A string body: no quote outside an escape, every escape (a backslash
   * and the character after it) kept whole, and a backslash that is not the
   * start of an escape only at the end, where an interpolation follows.
   */
  predicate StringBodyText(w: string)
    decreases |w|
  {
    |w| > 0 && w[0] != '"' &&
    if w[0] == '\\' then
      |w| == 1 || (w[1] != '(' && (|w| == 2 || StringBodyText(w[2..])))
    else
      |w| == 1 || StringBodyText(w[1..])
  }

  /**
   * The last backslash of w starts no complete escape: reading w from the
   * left in pairs, it is left alone at the end.
   */
  predicate Dangling(w: string)
    decreases |w|
  {
    |w| > 0 &&
    if w[0] == '\\' then |w| == 1 || Dangling(w[2..]) else Dangling(w[1..])
  }

  /**
   * What may follow a whole string body: the end of the text, the closing
   * quote, or, after a dangling backslash, the `(` of an interpolation.
   */
  predicate BodyEnds(w: string, rest: string) {
    rest == [] || (if Dangling(w) then rest[0] == '(' else rest[0] == '"')
  }

  /** The body scanner takes exactly a string body w that rest does not continue. */
  lemma {:induction false} StringBodyLenOf(w: string, rest: string)
    requires StringBodyText(w) && BodyEnds(w, rest)
    ensures StringBodyLen(w + rest) == |w|
    decreases |w|
  {
    var s := w + rest;
    assert s[0] == w[0];
    if w[0] == '\\' {
      if |w| == 1 {
        if rest != [] {
          assert s[1] == rest[0];
        }
      } else {
        assert s[1] == w[1] && s[2..] == w[2..] + rest;
        if |w| == 2 {
          assert w[2..] == [] && w[2..] + rest == rest;
          assert !Dangling(w[2..]);
        } else {
          StringBodyLenOf(w[2..], rest);
        }
      }
    } else {
      assert s[1..] == w[1..] + rest;
      if |w| == 1 {
        assert w[1..] == [] && w[1..] + rest == rest;
        assert !Dangling(w[1..]);
      } else {
        StringBodyLenOf(w[1..], rest);
      }
    }
  }

  /** An escape is taken as a pair, unless it is the `\(` of an interpolation. */
  lemma StringEscapeOf(w: string, rest: string)
    requires |w| == 2 && w[0] == '\\' && w[1] != '('
    ensures StringBodyLen(w + rest) == 2 + StringBodyLen(rest)
  {
    var s := w + rest;
    assert s[0] == '\\' && s[1] == w[1] && s[2..] == rest;
  }

  /** The backslash of `\(` ends the body. */
  lemma StringInterpolationOf(rest: string)
    requires |rest| > 0 && rest[0] == '('
    ensures StringBodyLen("\\" + rest) == 1
  {
    var s := "\\" + rest;
    assert s[0] == '\\' && s[1] == '(';
  }

  // ---------------------------------------------------------------------------
  // Identifiers and numbers

  /** A whole identifier is what the identifier scanner takes. */
  lemma IdentifierLenOf(w: string, rest: string)
    requires IdentifierWord(w, rest)
    ensures IdentifierLen(w + rest) == |w|
  {
    var s := w + rest;
    assert s[0] == w[0];
    if w[0] == '`' {
      var body := w[1..|w| - 1];
      assert s[1..] == body + ([w[|w| - 1]] + rest);
      IdentifierBodyRunOf(body, [w[|w| - 1]] + rest);
      assert ([w[|w| - 1]] + rest)[0] == '`';
      assert s[|w| - 1] == '`';
    } else {
      assert s[1..] == w[1..] + rest;
      IdentifierBodyRunOf(w[1..], rest);
      if rest != [] {
        assert IdentifierBodyRun(rest) == 0;
      }
    }
  }

  /** Where the digits of an exponent start, after `e`/`E` at q and an optional sign. */
  function ExponentDigits(w: string, q: nat): nat {
    if q + 1 < |w| && (w[q + 1] == '+' || w[q + 1] == '-') then q + 2 else q + 1
  }

  /** An exponent at q: `e` or `E`, an optional sign and at least one digit, to the end of w. */
  predicate ExponentAt(w: string, q: nat) {
    q < |w| && (w[q] == 'e' || w[q] == 'E') && ExponentDigits(w, q) < |w| && AllDigits(w[ExponentDigits(w, q)..])
  }

  /**
   * A whole decimal literal is what the number scanner takes: digits up to
   * p, an optional fraction up to q, an optional exponent to the end, and
   * nothing in rest that could continue it.
   */
  lemma NumberLenOf(w: string, rest: string, p: nat, q: nat)
    requires 0 < p <= q <= |w| && AllDigits(w[..p])
    requires p == q || (q >= p + 2 && w[p] == '.' && AllDigits(w[p + 1..q]))
    requires q == |w| || ExponentAt(w, q)
    requires rest == [] || !(IsDigit(rest[0]) || rest[0] == '.' || rest[0] == 'e' || rest[0] == 'E')
    ensures NumberLen(w + rest) == |w|
  {
    IntegerPartOf(w, rest, p);
    FractionOf(w, rest, p, q);
    ExponentOf(w, rest, q);
  }

  lemma IntegerPartOf(w: string, rest: string, p: nat)
    requires 0 < p <= |w| && AllDigits(w[..p])
    requires p == |w| || !IsDigit(w[p])
    requires rest == [] || !IsDigit(rest[0])
    ensures 1 + DigitRun((w + rest)[1..]) == p
  {
    var s := w + rest;
    assert s[1..] == w[1..p] + (w[p..] + rest);
    DigitRunOf(w[1..p], w[p..] + rest);
    if p < |w| {
      assert (w[p..] + rest)[0] == w[p];
    } else {
      assert w[p..] + rest == rest;
    }
  }

  lemma FractionOf(w: string, rest: string, p: nat, q: nat)
    requires 0 < p <= q <= |w|
    requires p == q || (q >= p + 2 && w[p] == '.' && AllDigits(w[p + 1..q]))
    requires q == |w| || w[q] == 'e' || w[q] == 'E'
    requires rest == [] || !(IsDigit(rest[0]) || rest[0] == '.')
    ensures FractionEnd(w + rest, p) == q
  {
    var s := w + rest;
    if p < q {
      assert s[p] == '.' && s[p + 1] == w[p + 1];
      assert s[p + 2..] == w[p + 2..q] + (w[q..] + rest);
      DigitRunOf(w[p + 2..q], w[q..] + rest);
      if q < |w| {
        assert (w[q..] + rest)[0] == w[q];
      } else {
        assert w[q..] + rest == rest;
      }
    } else if p < |w| {
      assert s[p] == w[p];
    } else if rest != [] {
      assert s[p] == rest[0];
    }
  }

  lemma ExponentOf(w: string, rest: string, q: nat)
    requires q <= |w| && (q == |w| || ExponentAt(w, q))
    requires rest == [] || !(IsDigit(rest[0]) || rest[0] == 'e' || rest[0] == 'E')
    ensures ExponentEnd(w + rest, q) == |w|
  {
    var s := w + rest;
    if q < |w| {
      var k := ExponentDigits(w, q);
      assert s[q] == w[q] && s[q + 1] == w[q + 1];
      assert s[k] == w[k] && IsDigit(w[k]);
      assert s[k + 1..] == w[k + 1..] + rest;
      DigitRunOf(w[k + 1..], rest);
      if rest != [] {
        assert DigitRun(rest) == 0;
      }
    } else if rest != [] {
      assert s[q] == rest[0];
    }
  }
}
