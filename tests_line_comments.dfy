/**
 * The tokenizer's expected output for single-line comments, one lemma per test case
 * of SwiftFormatTests/TokenizerTests.swift.  Each input and each expected
 * token list is written as a right-nested concatenation, one piece per token,
 * so that the proof can take the tokens one at a time: lemma <Case>Step<k>
 * scans token k, <Case>From<k> joins a group of eight scans, and
 * <Case>Probe<k> settles the lookahead for a `<` at token k.
 */
module LineCommentTests {
  import opened Wrappers
  import opened Tokenizer
  import opened Scanning
  import opened Steps

  // SwiftFormatTests/TokenizerTests.swift:127-134
  lemma SingleLineComment()
    ensures Tokenize("//" + ("foo" + "")) ==
            [Token(StartOfScope, "//")] + ([Token(CommentBody, "foo")] + [])
  {
    SingleLineCommentStep0();
    SingleLineCommentStep1();
  }

  lemma SingleLineCommentStep0()
    ensures Lex("//" + ("foo" + ""), Lexer([], None, false, false)) ==
            [Token(StartOfScope, "//")] + Lex("foo" + "", Lexer([LineComment], Some(StartOfScope), false, false))
  {
    var r2 := "";
    var r1 := "foo" + r2;
    var r0 := "//" + r1;
    CodeCommentOpen("//", r1, Lexer([], None, false, false));
    LexOne("//", r1, Lexer([], None, false, false), Token(StartOfScope, "//"), Lexer([LineComment], Some(StartOfScope), false, false));
  }

  lemma SingleLineCommentStep1()
    ensures Lex("foo" + "", Lexer([LineComment], Some(StartOfScope), false, false)) ==
            [Token(CommentBody, "foo")] + Lex("", Lexer([LineComment], Some(CommentBody), false, false))
  {
    var r2 := "";
    var r1 := "foo" + r2;
    LineCommentWord("foo", r2, Lexer([LineComment], Some(StartOfScope), false, false));
    LexOne("foo", r2, Lexer([LineComment], Some(StartOfScope), false, false), Token(CommentBody, "foo"), Lexer([LineComment], Some(CommentBody), false, false));
  }

  // SwiftFormatTests/TokenizerTests.swift:136-145
  lemma SingleLineCommentWithSpace()
    ensures Tokenize("//" + (" " + ("foo" + (" " + "")))) ==
            [Token(StartOfScope, "//")] + ([Token(Whitespace, " ")] + ([Token(CommentBody, "foo")] + ([Token(Whitespace, " ")] + [])))
  {
    SingleLineCommentWithSpaceStep0();
    SingleLineCommentWithSpaceStep1();
    SingleLineCommentWithSpaceStep2();
    SingleLineCommentWithSpaceStep3();
  }

  lemma SingleLineCommentWithSpaceStep0()
    ensures Lex("//" + (" " + ("foo" + (" " + ""))), Lexer([], None, false, false)) ==
            [Token(StartOfScope, "//")] + Lex(" " + ("foo" + (" " + "")), Lexer([LineComment], Some(StartOfScope), false, false))
  {
    var r4 := "";
    var r3 := " " + r4;
    var r2 := "foo" + r3;
    var r1 := " " + r2;
    var r0 := "//" + r1;
    CodeCommentOpen("//", r1, Lexer([], None, false, false));
    LexOne("//", r1, Lexer([], None, false, false), Token(StartOfScope, "//"), Lexer([LineComment], Some(StartOfScope), false, false));
  }

  lemma SingleLineCommentWithSpaceStep1()
    ensures Lex(" " + ("foo" + (" " + "")), Lexer([LineComment], Some(StartOfScope), false, false)) ==
            [Token(Whitespace, " ")] + Lex("foo" + (" " + ""), Lexer([LineComment], Some(Whitespace), false, false))
  {
    var r4 := "";
    var r3 := " " + r4;
    var r2 := "foo" + r3;
    var r1 := " " + r2;
    WhitespaceToken(" ", r2, Lexer([LineComment], Some(StartOfScope), false, false));
    LexOne(" ", r2, Lexer([LineComment], Some(StartOfScope), false, false), Token(Whitespace, " "), Lexer([LineComment], Some(Whitespace), false, false));
  }

  lemma SingleLineCommentWithSpaceStep2()
    ensures Lex("foo" + (" " + ""), Lexer([LineComment], Some(Whitespace), false, false)) ==
            [Token(CommentBody, "foo")] + Lex(" " + "", Lexer([LineComment], Some(CommentBody), false, false))
  {
    var r4 := "";
    var r3 := " " + r4;
    var r2 := "foo" + r3;
    LineCommentWord("foo", r3, Lexer([LineComment], Some(Whitespace), false, false));
    LexOne("foo", r3, Lexer([LineComment], Some(Whitespace), false, false), Token(CommentBody, "foo"), Lexer([LineComment], Some(CommentBody), false, false));
  }

  lemma SingleLineCommentWithSpaceStep3()
    ensures Lex(" " + "", Lexer([LineComment], Some(CommentBody), false, false)) ==
            [Token(Whitespace, " ")] + Lex("", Lexer([LineComment], Some(Whitespace), false, false))
  {
    var r4 := "";
    var r3 := " " + r4;
    WhitespaceToken(" ", r4, Lexer([LineComment], Some(CommentBody), false, false));
    LexOne(" ", r4, Lexer([LineComment], Some(CommentBody), false, false), Token(Whitespace, " "), Lexer([LineComment], Some(Whitespace), false, false));
  }

  // SwiftFormatTests/TokenizerTests.swift:147-156
  lemma SingleLineCommentWithLinebreak()
    ensures Tokenize("//" + ("foo" + ("\n" + ("bar" + "")))) ==
            [Token(StartOfScope, "//")] + ([Token(CommentBody, "foo")] + ([Token(Linebreak, "\n")] + ([Token(Identifier, "bar")] + [])))
  {
    SingleLineCommentWithLinebreakStep0();
    SingleLineCommentWithLinebreakStep1();
    SingleLineCommentWithLinebreakStep2();
    SingleLineCommentWithLinebreakStep3();
  }

  lemma SingleLineCommentWithLinebreakStep0()
    ensures Lex("//" + ("foo" + ("\n" + ("bar" + ""))), Lexer([], None, false, false)) ==
            [Token(StartOfScope, "//")] + Lex("foo" + ("\n" + ("bar" + "")), Lexer([LineComment], Some(StartOfScope), false, false))
  {
    var r4 := "";
    var r3 := "bar" + r4;
    var r2 := "\n" + r3;
    var r1 := "foo" + r2;
    var r0 := "//" + r1;
    CodeCommentOpen("//", r1, Lexer([], None, false, false));
    LexOne("//", r1, Lexer([], None, false, false), Token(StartOfScope, "//"), Lexer([LineComment], Some(StartOfScope), false, false));
  }

  lemma SingleLineCommentWithLinebreakStep1()
    ensures Lex("foo" + ("\n" + ("bar" + "")), Lexer([LineComment], Some(StartOfScope), false, false)) ==
            [Token(CommentBody, "foo")] + Lex("\n" + ("bar" + ""), Lexer([LineComment], Some(CommentBody), false, false))
  {
    var r4 := "";
    var r3 := "bar" + r4;
    var r2 := "\n" + r3;
    var r1 := "foo" + r2;
    LineCommentWord("foo", r2, Lexer([LineComment], Some(StartOfScope), false, false));
    LexOne("foo", r2, Lexer([LineComment], Some(StartOfScope), false, false), Token(CommentBody, "foo"), Lexer([LineComment], Some(CommentBody), false, false));
  }

  lemma SingleLineCommentWithLinebreakStep2()
    ensures Lex("\n" + ("bar" + ""), Lexer([LineComment], Some(CommentBody), false, false)) ==
            [Token(Linebreak, "\n")] + Lex("bar" + "", Lexer([], Some(Linebreak), false, false))
  {
    var r4 := "";
    var r3 := "bar" + r4;
    var r2 := "\n" + r3;
    LineCommentEnd("\n", r3, Lexer([LineComment], Some(CommentBody), false, false));
    LexOne("\n", r3, Lexer([LineComment], Some(CommentBody), false, false), Token(Linebreak, "\n"), Lexer([], Some(Linebreak), false, false));
  }

  lemma SingleLineCommentWithLinebreakStep3()
    ensures Lex("bar" + "", Lexer([], Some(Linebreak), false, false)) ==
            [Token(Identifier, "bar")] + Lex("", Lexer([], Some(Identifier), false, false))
  {
    var r4 := "";
    var r3 := "bar" + r4;
    CodeIdentifier("bar", r4, Lexer([], Some(Linebreak), false, false));
    LexOne("bar", r4, Lexer([], Some(Linebreak), false, false), Token(Identifier, "bar"), Lexer([], Some(Identifier), false, false));
  }
}
