/**
 * The tokenizer's expected output for multiline comments, one lemma per test case
 * of SwiftFormatTests/TokenizerTests.swift.  Each input and each expected
 * token list is written as a right-nested concatenation, one piece per token,
 * so that the proof can take the tokens one at a time: lemma <Case>Step<k>
 * scans token k, <Case>From<k> joins a group of eight scans, and
 * <Case>Probe<k> settles the lookahead for a `<` at token k.
 */
module BlockCommentTests {
  import opened Wrappers
  import opened Tokenizer
  import opened Scanning
  import opened Steps

  // SwiftFormatTests/TokenizerTests.swift:160-168
  lemma SingleLineMultilineComment()
    ensures Tokenize("/*" + ("foo" + ("*/" + ""))) ==
            [Token(StartOfScope, "/*")] + ([Token(CommentBody, "foo")] + ([Token(EndOfScope, "*/")] + []))
  {
    SingleLineMultilineCommentStep0();
    SingleLineMultilineCommentStep1();
    SingleLineMultilineCommentStep2();
  }

  lemma SingleLineMultilineCommentStep0()
    ensures Lex("/*" + ("foo" + ("*/" + "")), Lexer([], None, false, false)) ==
            [Token(StartOfScope, "/*")] + Lex("foo" + ("*/" + ""), Lexer([BlockComment], Some(StartOfScope), false, false))
  {
    var r3 := "";
    var r2 := "*/" + r3;
    var r1 := "foo" + r2;
    var r0 := "/*" + r1;
    CodeCommentOpen("/*", r1, Lexer([], None, false, false));
    LexOne("/*", r1, Lexer([], None, false, false), Token(StartOfScope, "/*"), Lexer([BlockComment], Some(StartOfScope), false, false));
  }

  lemma SingleLineMultilineCommentStep1()
    ensures Lex("foo" + ("*/" + ""), Lexer([BlockComment], Some(StartOfScope), false, false)) ==
            [Token(CommentBody, "foo")] + Lex("*/" + "", Lexer([BlockComment], Some(CommentBody), false, false))
  {
    var r3 := "";
    var r2 := "*/" + r3;
    var r1 := "foo" + r2;
    BlockCommentWord("foo", r2, Lexer([BlockComment], Some(StartOfScope), false, false));
    LexOne("foo", r2, Lexer([BlockComment], Some(StartOfScope), false, false), Token(CommentBody, "foo"), Lexer([BlockComment], Some(CommentBody), false, false));
  }

  lemma SingleLineMultilineCommentStep2()
    ensures Lex("*/" + "", Lexer([BlockComment], Some(CommentBody), false, false)) ==
            [Token(EndOfScope, "*/")] + Lex("", Lexer([], Some(EndOfScope), false, false))
  {
    var r3 := "";
    var r2 := "*/" + r3;
    BlockCommentClose(r3, Lexer([BlockComment], Some(CommentBody), false, false));
    LexOne("*/", r3, Lexer([BlockComment], Some(CommentBody), false, false), Token(EndOfScope, "*/"), Lexer([], Some(EndOfScope), false, false));
  }

  // SwiftFormatTests/TokenizerTests.swift:170-180
  lemma SingleLineMultilineCommentWithSpace()
    ensures Tokenize("/*" + (" " + ("foo" + (" " + ("*/" + ""))))) ==
            [Token(StartOfScope, "/*")] + ([Token(Whitespace, " ")] + ([Token(CommentBody, "foo")] + ([Token(Whitespace, " ")] + ([Token(EndOfScope, "*/")] + []))))
  {
    SingleLineMultilineCommentWithSpaceStep0();
    SingleLineMultilineCommentWithSpaceStep1();
    SingleLineMultilineCommentWithSpaceStep2();
    SingleLineMultilineCommentWithSpaceStep3();
    SingleLineMultilineCommentWithSpaceStep4();
  }

  lemma SingleLineMultilineCommentWithSpaceStep0()
    ensures Lex("/*" + (" " + ("foo" + (" " + ("*/" + "")))), Lexer([], None, false, false)) ==
            [Token(StartOfScope, "/*")] + Lex(" " + ("foo" + (" " + ("*/" + ""))), Lexer([BlockComment], Some(StartOfScope), false, false))
  {
    var r5 := "";
    var r4 := "*/" + r5;
    var r3 := " " + r4;
    var r2 := "foo" + r3;
    var r1 := " " + r2;
    var r0 := "/*" + r1;
    CodeCommentOpen("/*", r1, Lexer([], None, false, false));
    LexOne("/*", r1, Lexer([], None, false, false), Token(StartOfScope, "/*"), Lexer([BlockComment], Some(StartOfScope), false, false));
  }

  lemma SingleLineMultilineCommentWithSpaceStep1()
    ensures Lex(" " + ("foo" + (" " + ("*/" + ""))), Lexer([BlockComment], Some(StartOfScope), false, false)) ==
            [Token(Whitespace, " ")] + Lex("foo" + (" " + ("*/" + "")), Lexer([BlockComment], Some(Whitespace), false, false))
  {
    var r5 := "";
    var r4 := "*/" + r5;
    var r3 := " " + r4;
    var r2 := "foo" + r3;
    var r1 := " " + r2;
    WhitespaceToken(" ", r2, Lexer([BlockComment], Some(StartOfScope), false, false));
    LexOne(" ", r2, Lexer([BlockComment], Some(StartOfScope), false, false), Token(Whitespace, " "), Lexer([BlockComment], Some(Whitespace), false, false));
  }

  lemma SingleLineMultilineCommentWithSpaceStep2()
    ensures Lex("foo" + (" " + ("*/" + "")), Lexer([BlockComment], Some(Whitespace), false, false)) ==
            [Token(CommentBody, "foo")] + Lex(" " + ("*/" + ""), Lexer([BlockComment], Some(CommentBody), false, false))
  {
    var r5 := "";
    var r4 := "*/" + r5;
    var r3 := " " + r4;
    var r2 := "foo" + r3;
    BlockCommentWord("foo", r3, Lexer([BlockComment], Some(Whitespace), false, false));
    LexOne("foo", r3, Lexer([BlockComment], Some(Whitespace), false, false), Token(CommentBody, "foo"), Lexer([BlockComment], Some(CommentBody), false, false));
  }

  lemma SingleLineMultilineCommentWithSpaceStep3()
    ensures Lex(" " + ("*/" + ""), Lexer([BlockComment], Some(CommentBody), false, false)) ==
            [Token(Whitespace, " ")] + Lex("*/" + "", Lexer([BlockComment], Some(Whitespace), false, false))
  {
    var r5 := "";
    var r4 := "*/" + r5;
    var r3 := " " + r4;
    WhitespaceToken(" ", r4, Lexer([BlockComment], Some(CommentBody), false, false));
    LexOne(" ", r4, Lexer([BlockComment], Some(CommentBody), false, false), Token(Whitespace, " "), Lexer([BlockComment], Some(Whitespace), false, false));
  }

  lemma SingleLineMultilineCommentWithSpaceStep4()
    ensures Lex("*/" + "", Lexer([BlockComment], Some(Whitespace), false, false)) ==
            [Token(EndOfScope, "*/")] + Lex("", Lexer([], Some(EndOfScope), false, false))
  {
    var r5 := "";
    var r4 := "*/" + r5;
    BlockCommentClose(r5, Lexer([BlockComment], Some(Whitespace), false, false));
    LexOne("*/", r5, Lexer([BlockComment], Some(Whitespace), false, false), Token(EndOfScope, "*/"), Lexer([], Some(EndOfScope), false, false));
  }

  // SwiftFormatTests/TokenizerTests.swift:182-192
  lemma MultilineComment()
    ensures Tokenize("/*" + ("foo" + ("\n" + ("bar" + ("*/" + ""))))) ==
            [Token(StartOfScope, "/*")] + ([Token(CommentBody, "foo")] + ([Token(Linebreak, "\n")] + ([Token(CommentBody, "bar")] + ([Token(EndOfScope, "*/")] + []))))
  {
    MultilineCommentStep0();
    MultilineCommentStep1();
    MultilineCommentStep2();
    MultilineCommentStep3();
    MultilineCommentStep4();
  }

  lemma MultilineCommentStep0()
    ensures Lex("/*" + ("foo" + ("\n" + ("bar" + ("*/" + "")))), Lexer([], None, false, false)) ==
            [Token(StartOfScope, "/*")] + Lex("foo" + ("\n" + ("bar" + ("*/" + ""))), Lexer([BlockComment], Some(StartOfScope), false, false))
  {
    var r5 := "";
    var r4 := "*/" + r5;
    var r3 := "bar" + r4;
    var r2 := "\n" + r3;
    var r1 := "foo" + r2;
    var r0 := "/*" + r1;
    CodeCommentOpen("/*", r1, Lexer([], None, false, false));
    LexOne("/*", r1, Lexer([], None, false, false), Token(StartOfScope, "/*"), Lexer([BlockComment], Some(StartOfScope), false, false));
  }

  lemma MultilineCommentStep1()
    ensures Lex("foo" + ("\n" + ("bar" + ("*/" + ""))), Lexer([BlockComment], Some(StartOfScope), false, false)) ==
            [Token(CommentBody, "foo")] + Lex("\n" + ("bar" + ("*/" + "")), Lexer([BlockComment], Some(CommentBody), false, false))
  {
    var r5 := "";
    var r4 := "*/" + r5;
    var r3 := "bar" + r4;
    var r2 := "\n" + r3;
    var r1 := "foo" + r2;
    BlockCommentWord("foo", r2, Lexer([BlockComment], Some(StartOfScope), false, false));
    LexOne("foo", r2, Lexer([BlockComment], Some(StartOfScope), false, false), Token(CommentBody, "foo"), Lexer([BlockComment], Some(CommentBody), false, false));
  }

  lemma MultilineCommentStep2()
    ensures Lex("\n" + ("bar" + ("*/" + "")), Lexer([BlockComment], Some(CommentBody), false, false)) ==
            [Token(Linebreak, "\n")] + Lex("bar" + ("*/" + ""), Lexer([BlockComment], Some(Linebreak), false, false))
  {
    var r5 := "";
    var r4 := "*/" + r5;
    var r3 := "bar" + r4;
    var r2 := "\n" + r3;
    BlockCommentLinebreak("\n", r3, Lexer([BlockComment], Some(CommentBody), false, false));
    LexOne("\n", r3, Lexer([BlockComment], Some(CommentBody), false, false), Token(Linebreak, "\n"), Lexer([BlockComment], Some(Linebreak), false, false));
  }

  lemma MultilineCommentStep3()
    ensures Lex("bar" + ("*/" + ""), Lexer([BlockComment], Some(Linebreak), false, false)) ==
            [Token(CommentBody, "bar")] + Lex("*/" + "", Lexer([BlockComment], Some(CommentBody), false, false))
  {
    var r5 := "";
    var r4 := "*/" + r5;
    var r3 := "bar" + r4;
    BlockCommentWord("bar", r4, Lexer([BlockComment], Some(Linebreak), false, false));
    LexOne("bar", r4, Lexer([BlockComment], Some(Linebreak), false, false), Token(CommentBody, "bar"), Lexer([BlockComment], Some(CommentBody), false, false));
  }

  lemma MultilineCommentStep4()
    ensures Lex("*/" + "", Lexer([BlockComment], Some(CommentBody), false, false)) ==
            [Token(EndOfScope, "*/")] + Lex("", Lexer([], Some(EndOfScope), false, false))
  {
    var r5 := "";
    var r4 := "*/" + r5;
    BlockCommentClose(r5, Lexer([BlockComment], Some(CommentBody), false, false));
    LexOne("*/", r5, Lexer([BlockComment], Some(CommentBody), false, false), Token(EndOfScope, "*/"), Lexer([], Some(EndOfScope), false, false));
  }

  // SwiftFormatTests/TokenizerTests.swift:194-205
  lemma MultilineCommentWithWhitespace()
    ensures Tokenize("/*" + ("foo" + ("\n" + ("  " + ("bar" + ("*/" + "")))))) ==
            [Token(StartOfScope, "/*")] + ([Token(CommentBody, "foo")] + ([Token(Linebreak, "\n")] + ([Token(Whitespace, "  ")] + ([Token(CommentBody, "bar")] + ([Token(EndOfScope, "*/")] + [])))))
  {
    MultilineCommentWithWhitespaceStep0();
    MultilineCommentWithWhitespaceStep1();
    MultilineCommentWithWhitespaceStep2();
    MultilineCommentWithWhitespaceStep3();
    MultilineCommentWithWhitespaceStep4();
    MultilineCommentWithWhitespaceStep5();
  }

  lemma MultilineCommentWithWhitespaceStep0()
    ensures Lex("/*" + ("foo" + ("\n" + ("  " + ("bar" + ("*/" + ""))))), Lexer([], None, false, false)) ==
            [Token(StartOfScope, "/*")] + Lex("foo" + ("\n" + ("  " + ("bar" + ("*/" + "")))), Lexer([BlockComment], Some(StartOfScope), false, false))
  {
    var r6 := "";
    var r5 := "*/" + r6;
    var r4 := "bar" + r5;
    var r3 := "  " + r4;
    var r2 := "\n" + r3;
    var r1 := "foo" + r2;
    var r0 := "/*" + r1;
    CodeCommentOpen("/*", r1, Lexer([], None, false, false));
    LexOne("/*", r1, Lexer([], None, false, false), Token(StartOfScope, "/*"), Lexer([BlockComment], Some(StartOfScope), false, false));
  }

  lemma MultilineCommentWithWhitespaceStep1()
    ensures Lex("foo" + ("\n" + ("  " + ("bar" + ("*/" + "")))), Lexer([BlockComment], Some(StartOfScope), false, false)) ==
            [Token(CommentBody, "foo")] + Lex("\n" + ("  " + ("bar" + ("*/" + ""))), Lexer([BlockComment], Some(CommentBody), false, false))
  {
    var r6 := "";
    var r5 := "*/" + r6;
    var r4 := "bar" + r5;
    var r3 := "  " + r4;
    var r2 := "\n" + r3;
    var r1 := "foo" + r2;
    BlockCommentWord("foo", r2, Lexer([BlockComment], Some(StartOfScope), false, false));
    LexOne("foo", r2, Lexer([BlockComment], Some(StartOfScope), false, false), Token(CommentBody, "foo"), Lexer([BlockComment], Some(CommentBody), false, false));
  }

  lemma MultilineCommentWithWhitespaceStep2()
    ensures Lex("\n" + ("  " + ("bar" + ("*/" + ""))), Lexer([BlockComment], Some(CommentBody), false, false)) ==
            [Token(Linebreak, "\n")] + Lex("  " + ("bar" + ("*/" + "")), Lexer([BlockComment], Some(Linebreak), false, false))
  {
    var r6 := "";
    var r5 := "*/" + r6;
    var r4 := "bar" + r5;
    var r3 := "  " + r4;
    var r2 := "\n" + r3;
    BlockCommentLinebreak("\n", r3, Lexer([BlockComment], Some(CommentBody), false, false));
    LexOne("\n", r3, Lexer([BlockComment], Some(CommentBody), false, false), Token(Linebreak, "\n"), Lexer([BlockComment], Some(Linebreak), false, false));
  }

  lemma MultilineCommentWithWhitespaceStep3()
    ensures Lex("  " + ("bar" + ("*/" + "")), Lexer([BlockComment], Some(Linebreak), false, false)) ==
            [Token(Whitespace, "  ")] + Lex("bar" + ("*/" + ""), Lexer([BlockComment], Some(Whitespace), false, false))
  {
    var r6 := "";
    var r5 := "*/" + r6;
    var r4 := "bar" + r5;
    var r3 := "  " + r4;
    WhitespaceToken("  ", r4, Lexer([BlockComment], Some(Linebreak), false, false));
    LexOne("  ", r4, Lexer([BlockComment], Some(Linebreak), false, false), Token(Whitespace, "  "), Lexer([BlockComment], Some(Whitespace), false, false));
  }

  lemma MultilineCommentWithWhitespaceStep4()
    ensures Lex("bar" + ("*/" + ""), Lexer([BlockComment], Some(Whitespace), false, false)) ==
            [Token(CommentBody, "bar")] + Lex("*/" + "", Lexer([BlockComment], Some(CommentBody), false, false))
  {
    var r6 := "";
    var r5 := "*/" + r6;
    var r4 := "bar" + r5;
    BlockCommentWord("bar", r5, Lexer([BlockComment], Some(Whitespace), false, false));
    LexOne("bar", r5, Lexer([BlockComment], Some(Whitespace), false, false), Token(CommentBody, "bar"), Lexer([BlockComment], Some(CommentBody), false, false));
  }

  lemma MultilineCommentWithWhitespaceStep5()
    ensures Lex("*/" + "", Lexer([BlockComment], Some(CommentBody), false, false)) ==
            [Token(EndOfScope, "*/")] + Lex("", Lexer([], Some(EndOfScope), false, false))
  {
    var r6 := "";
    var r5 := "*/" + r6;
    BlockCommentClose(r6, Lexer([BlockComment], Some(CommentBody), false, false));
    LexOne("*/", r6, Lexer([BlockComment], Some(CommentBody), false, false), Token(EndOfScope, "*/"), Lexer([], Some(EndOfScope), false, false));
  }

  // SwiftFormatTests/TokenizerTests.swift:207-219
  lemma NestedComments()
    ensures Tokenize("/*" + ("foo" + ("/*" + ("bar" + ("*/" + ("baz" + ("*/" + ""))))))) ==
            [Token(StartOfScope, "/*")] + ([Token(CommentBody, "foo")] + ([Token(StartOfScope, "/*")] + ([Token(CommentBody, "bar")] + ([Token(EndOfScope, "*/")] + ([Token(CommentBody, "baz")] + ([Token(EndOfScope, "*/")] + []))))))
  {
    NestedCommentsStep0();
    NestedCommentsStep1();
    NestedCommentsStep2();
    NestedCommentsStep3();
    NestedCommentsStep4();
    NestedCommentsStep5();
    NestedCommentsStep6();
  }

  lemma NestedCommentsStep0()
    ensures Lex("/*" + ("foo" + ("/*" + ("bar" + ("*/" + ("baz" + ("*/" + "")))))), Lexer([], None, false, false)) ==
            [Token(StartOfScope, "/*")] + Lex("foo" + ("/*" + ("bar" + ("*/" + ("baz" + ("*/" + ""))))), Lexer([BlockComment], Some(StartOfScope), false, false))
  {
    var r7 := "";
    var r6 := "*/" + r7;
    var r5 := "baz" + r6;
    var r4 := "*/" + r5;
    var r3 := "bar" + r4;
    var r2 := "/*" + r3;
    var r1 := "foo" + r2;
    var r0 := "/*" + r1;
    CodeCommentOpen("/*", r1, Lexer([], None, false, false));
    LexOne("/*", r1, Lexer([], None, false, false), Token(StartOfScope, "/*"), Lexer([BlockComment], Some(StartOfScope), false, false));
  }

  lemma NestedCommentsStep1()
    ensures Lex("foo" + ("/*" + ("bar" + ("*/" + ("baz" + ("*/" + ""))))), Lexer([BlockComment], Some(StartOfScope), false, false)) ==
            [Token(CommentBody, "foo")] + Lex("/*" + ("bar" + ("*/" + ("baz" + ("*/" + "")))), Lexer([BlockComment], Some(CommentBody), false, false))
  {
    var r7 := "";
    var r6 := "*/" + r7;
    var r5 := "baz" + r6;
    var r4 := "*/" + r5;
    var r3 := "bar" + r4;
    var r2 := "/*" + r3;
    var r1 := "foo" + r2;
    BlockCommentWord("foo", r2, Lexer([BlockComment], Some(StartOfScope), false, false));
    LexOne("foo", r2, Lexer([BlockComment], Some(StartOfScope), false, false), Token(CommentBody, "foo"), Lexer([BlockComment], Some(CommentBody), false, false));
  }

  lemma NestedCommentsStep2()
    ensures Lex("/*" + ("bar" + ("*/" + ("baz" + ("*/" + "")))), Lexer([BlockComment], Some(CommentBody), false, false)) ==
            [Token(StartOfScope, "/*")] + Lex("bar" + ("*/" + ("baz" + ("*/" + ""))), Lexer([BlockComment, BlockComment], Some(StartOfScope), false, false))
  {
    var r7 := "";
    var r6 := "*/" + r7;
    var r5 := "baz" + r6;
    var r4 := "*/" + r5;
    var r3 := "bar" + r4;
    var r2 := "/*" + r3;
    BlockCommentNest(r3, Lexer([BlockComment], Some(CommentBody), false, false));
    LexOne("/*", r3, Lexer([BlockComment], Some(CommentBody), false, false), Token(StartOfScope, "/*"), Lexer([BlockComment, BlockComment], Some(StartOfScope), false, false));
  }

  lemma NestedCommentsStep3()
    ensures Lex("bar" + ("*/" + ("baz" + ("*/" + ""))), Lexer([BlockComment, BlockComment], Some(StartOfScope), false, false)) ==
            [Token(CommentBody, "bar")] + Lex("*/" + ("baz" + ("*/" + "")), Lexer([BlockComment, BlockComment], Some(CommentBody), false, false))
  {
    var r7 := "";
    var r6 := "*/" + r7;
    var r5 := "baz" + r6;
    var r4 := "*/" + r5;
    var r3 := "bar" + r4;
    BlockCommentWord("bar", r4, Lexer([BlockComment, BlockComment], Some(StartOfScope), false, false));
    LexOne("bar", r4, Lexer([BlockComment, BlockComment], Some(StartOfScope), false, false), Token(CommentBody, "bar"), Lexer([BlockComment, BlockComment], Some(CommentBody), false, false));
  }

  lemma NestedCommentsStep4()
    ensures Lex("*/" + ("baz" + ("*/" + "")), Lexer([BlockComment, BlockComment], Some(CommentBody), false, false)) ==
            [Token(EndOfScope, "*/")] + Lex("baz" + ("*/" + ""), Lexer([BlockComment], Some(EndOfScope), false, false))
  {
    var r7 := "";
    var r6 := "*/" + r7;
    var r5 := "baz" + r6;
    var r4 := "*/" + r5;
    BlockCommentClose(r5, Lexer([BlockComment, BlockComment], Some(CommentBody), false, false));
    LexOne("*/", r5, Lexer([BlockComment, BlockComment], Some(CommentBody), false, false), Token(EndOfScope, "*/"), Lexer([BlockComment], Some(EndOfScope), false, false));
  }

  lemma NestedCommentsStep5()
    ensures Lex("baz" + ("*/" + ""), Lexer([BlockComment], Some(EndOfScope), false, false)) ==
            [Token(CommentBody, "baz")] + Lex("*/" + "", Lexer([BlockComment], Some(CommentBody), false, false))
  {
    var r7 := "";
    var r6 := "*/" + r7;
    var r5 := "baz" + r6;
    BlockCommentWord("baz", r6, Lexer([BlockComment], Some(EndOfScope), false, false));
    LexOne("baz", r6, Lexer([BlockComment], Some(EndOfScope), false, false), Token(CommentBody, "baz"), Lexer([BlockComment], Some(CommentBody), false, false));
  }

  lemma NestedCommentsStep6()
    ensures Lex("*/" + "", Lexer([BlockComment], Some(CommentBody), false, false)) ==
            [Token(EndOfScope, "*/")] + Lex("", Lexer([], Some(EndOfScope), false, false))
  {
    var r7 := "";
    var r6 := "*/" + r7;
    BlockCommentClose(r7, Lexer([BlockComment], Some(CommentBody), false, false));
    LexOne("*/", r7, Lexer([BlockComment], Some(CommentBody), false, false), Token(EndOfScope, "*/"), Lexer([], Some(EndOfScope), false, false));
  }

  // SwiftFormatTests/TokenizerTests.swift:221-239
  lemma NestedCommentsWithWhitespace()
    ensures Tokenize("/*" + (" " + ("foo" + (" " + ("/*" + (" " + ("bar" + (" " + ("*/" + (" " + ("baz" + (" " + ("*/" + ""))))))))))))) ==
            [Token(StartOfScope, "/*")] + ([Token(Whitespace, " ")] + ([Token(CommentBody, "foo")] + ([Token(Whitespace, " ")] + ([Token(StartOfScope, "/*")] + ([Token(Whitespace, " ")] + ([Token(CommentBody, "bar")] + ([Token(Whitespace, " ")] + ([Token(EndOfScope, "*/")] + ([Token(Whitespace, " ")] + ([Token(CommentBody, "baz")] + ([Token(Whitespace, " ")] + ([Token(EndOfScope, "*/")] + []))))))))))))
  {
    NestedCommentsWithWhitespaceStep0();
    NestedCommentsWithWhitespaceStep1();
    NestedCommentsWithWhitespaceStep2();
    NestedCommentsWithWhitespaceStep3();
    NestedCommentsWithWhitespaceStep4();
    NestedCommentsWithWhitespaceStep5();
    NestedCommentsWithWhitespaceStep6();
    NestedCommentsWithWhitespaceStep7();
    NestedCommentsWithWhitespaceFrom8();
  }

  lemma NestedCommentsWithWhitespaceFrom8()
    ensures Lex("*/" + (" " + ("baz" + (" " + ("*/" + "")))), Lexer([BlockComment, BlockComment], Some(Whitespace), false, false)) ==
            [Token(EndOfScope, "*/")] + ([Token(Whitespace, " ")] + ([Token(CommentBody, "baz")] + ([Token(Whitespace, " ")] + ([Token(EndOfScope, "*/")] + Lex("", Lexer([], Some(EndOfScope), false, false))))))
  {
    NestedCommentsWithWhitespaceStep8();
    NestedCommentsWithWhitespaceStep9();
    NestedCommentsWithWhitespaceStep10();
    NestedCommentsWithWhitespaceStep11();
    NestedCommentsWithWhitespaceStep12();
  }

  lemma NestedCommentsWithWhitespaceStep0()
    ensures Lex("/*" + (" " + ("foo" + (" " + ("/*" + (" " + ("bar" + (" " + ("*/" + (" " + ("baz" + (" " + ("*/" + "")))))))))))), Lexer([], None, false, false)) ==
            [Token(StartOfScope, "/*")] + Lex(" " + ("foo" + (" " + ("/*" + (" " + ("bar" + (" " + ("*/" + (" " + ("baz" + (" " + ("*/" + ""))))))))))), Lexer([BlockComment], Some(StartOfScope), false, false))
  {
    var r13 := "";
    var r12 := "*/" + r13;
    var r11 := " " + r12;
    var r10 := "baz" + r11;
    var r9 := " " + r10;
    var r8 := "*/" + r9;
    var r7 := " " + r8;
    var r6 := "bar" + r7;
    var r5 := " " + r6;
    var r4 := "/*" + r5;
    var r3 := " " + r4;
    var r2 := "foo" + r3;
    var r1 := " " + r2;
    var r0 := "/*" + r1;
    CodeCommentOpen("/*", r1, Lexer([], None, false, false));
    LexOne("/*", r1, Lexer([], None, false, false), Token(StartOfScope, "/*"), Lexer([BlockComment], Some(StartOfScope), false, false));
  }

  lemma NestedCommentsWithWhitespaceStep1()
    ensures Lex(" " + ("foo" + (" " + ("/*" + (" " + ("bar" + (" " + ("*/" + (" " + ("baz" + (" " + ("*/" + ""))))))))))), Lexer([BlockComment], Some(StartOfScope), false, false)) ==
            [Token(Whitespace, " ")] + Lex("foo" + (" " + ("/*" + (" " + ("bar" + (" " + ("*/" + (" " + ("baz" + (" " + ("*/" + "")))))))))), Lexer([BlockComment], Some(Whitespace), false, false))
  {
    var r13 := "";
    var r12 := "*/" + r13;
    var r11 := " " + r12;
    var r10 := "baz" + r11;
    var r9 := " " + r10;
    var r8 := "*/" + r9;
    var r7 := " " + r8;
    var r6 := "bar" + r7;
    var r5 := " " + r6;
    var r4 := "/*" + r5;
    var r3 := " " + r4;
    var r2 := "foo" + r3;
    var r1 := " " + r2;
    WhitespaceToken(" ", r2, Lexer([BlockComment], Some(StartOfScope), false, false));
    LexOne(" ", r2, Lexer([BlockComment], Some(StartOfScope), false, false), Token(Whitespace, " "), Lexer([BlockComment], Some(Whitespace), false, false));
  }

  lemma NestedCommentsWithWhitespaceStep2()
    ensures Lex("foo" + (" " + ("/*" + (" " + ("bar" + (" " + ("*/" + (" " + ("baz" + (" " + ("*/" + "")))))))))), Lexer([BlockComment], Some(Whitespace), false, false)) ==
            [Token(CommentBody, "foo")] + Lex(" " + ("/*" + (" " + ("bar" + (" " + ("*/" + (" " + ("baz" + (" " + ("*/" + ""))))))))), Lexer([BlockComment], Some(CommentBody), false, false))
  {
    var r13 := "";
    var r12 := "*/" + r13;
    var r11 := " " + r12;
    var r10 := "baz" + r11;
    var r9 := " " + r10;
    var r8 := "*/" + r9;
    var r7 := " " + r8;
    var r6 := "bar" + r7;
    var r5 := " " + r6;
    var r4 := "/*" + r5;
    var r3 := " " + r4;
    var r2 := "foo" + r3;
    BlockCommentWord("foo", r3, Lexer([BlockComment], Some(Whitespace), false, false));
    LexOne("foo", r3, Lexer([BlockComment], Some(Whitespace), false, false), Token(CommentBody, "foo"), Lexer([BlockComment], Some(CommentBody), false, false));
  }

  lemma NestedCommentsWithWhitespaceStep3()
    ensures Lex(" " + ("/*" + (" " + ("bar" + (" " + ("*/" + (" " + ("baz" + (" " + ("*/" + ""))))))))), Lexer([BlockComment], Some(CommentBody), false, false)) ==
            [Token(Whitespace, " ")] + Lex("/*" + (" " + ("bar" + (" " + ("*/" + (" " + ("baz" + (" " + ("*/" + "")))))))), Lexer([BlockComment], Some(Whitespace), false, false))
  {
    var r13 := "";
    var r12 := "*/" + r13;
    var r11 := " " + r12;
    var r10 := "baz" + r11;
    var r9 := " " + r10;
    var r8 := "*/" + r9;
    var r7 := " " + r8;
    var r6 := "bar" + r7;
    var r5 := " " + r6;
    var r4 := "/*" + r5;
    var r3 := " " + r4;
    WhitespaceToken(" ", r4, Lexer([BlockComment], Some(CommentBody), false, false));
    LexOne(" ", r4, Lexer([BlockComment], Some(CommentBody), false, false), Token(Whitespace, " "), Lexer([BlockComment], Some(Whitespace), false, false));
  }

  lemma NestedCommentsWithWhitespaceStep4()
    ensures Lex("/*" + (" " + ("bar" + (" " + ("*/" + (" " + ("baz" + (" " + ("*/" + "")))))))), Lexer([BlockComment], Some(Whitespace), false, false)) ==
            [Token(StartOfScope, "/*")] + Lex(" " + ("bar" + (" " + ("*/" + (" " + ("baz" + (" " + ("*/" + ""))))))), Lexer([BlockComment, BlockComment], Some(StartOfScope), false, false))
  {
    var r13 := "";
    var r12 := "*/" + r13;
    var r11 := " " + r12;
    var r10 := "baz" + r11;
    var r9 := " " + r10;
    var r8 := "*/" + r9;
    var r7 := " " + r8;
    var r6 := "bar" + r7;
    var r5 := " " + r6;
    var r4 := "/*" + r5;
    BlockCommentNest(r5, Lexer([BlockComment], Some(Whitespace), false, false));
    LexOne("/*", r5, Lexer([BlockComment], Some(Whitespace), false, false), Token(StartOfScope, "/*"), Lexer([BlockComment, BlockComment], Some(StartOfScope), false, false));
  }

  lemma NestedCommentsWithWhitespaceStep5()
    ensures Lex(" " + ("bar" + (" " + ("*/" + (" " + ("baz" + (" " + ("*/" + ""))))))), Lexer([BlockComment, BlockComment], Some(StartOfScope), false, false)) ==
            [Token(Whitespace, " ")] + Lex("bar" + (" " + ("*/" + (" " + ("baz" + (" " + ("*/" + "")))))), Lexer([BlockComment, BlockComment], Some(Whitespace), false, false))
  {
    var r13 := "";
    var r12 := "*/" + r13;
    var r11 := " " + r12;
    var r10 := "baz" + r11;
    var r9 := " " + r10;
    var r8 := "*/" + r9;
    var r7 := " " + r8;
    var r6 := "bar" + r7;
    var r5 := " " + r6;
    WhitespaceToken(" ", r6, Lexer([BlockComment, BlockComment], Some(StartOfScope), false, false));
    LexOne(" ", r6, Lexer([BlockComment, BlockComment], Some(StartOfScope), false, false), Token(Whitespace, " "), Lexer([BlockComment, BlockComment], Some(Whitespace), false, false));
  }

  lemma NestedCommentsWithWhitespaceStep6()
    ensures Lex("bar" + (" " + ("*/" + (" " + ("baz" + (" " + ("*/" + "")))))), Lexer([BlockComment, BlockComment], Some(Whitespace), false, false)) ==
            [Token(CommentBody, "bar")] + Lex(" " + ("*/" + (" " + ("baz" + (" " + ("*/" + ""))))), Lexer([BlockComment, BlockComment], Some(CommentBody), false, false))
  {
    var r13 := "";
    var r12 := "*/" + r13;
    var r11 := " " + r12;
    var r10 := "baz" + r11;
    var r9 := " " + r10;
    var r8 := "*/" + r9;
    var r7 := " " + r8;
    var r6 := "bar" + r7;
    BlockCommentWord("bar", r7, Lexer([BlockComment, BlockComment], Some(Whitespace), false, false));
    LexOne("bar", r7, Lexer([BlockComment, BlockComment], Some(Whitespace), false, false), Token(CommentBody, "bar"), Lexer([BlockComment, BlockComment], Some(CommentBody), false, false));
  }

  lemma NestedCommentsWithWhitespaceStep7()
    ensures Lex(" " + ("*/" + (" " + ("baz" + (" " + ("*/" + ""))))), Lexer([BlockComment, BlockComment], Some(CommentBody), false, false)) ==
            [Token(Whitespace, " ")] + Lex("*/" + (" " + ("baz" + (" " + ("*/" + "")))), Lexer([BlockComment, BlockComment], Some(Whitespace), false, false))
  {
    var r13 := "";
    var r12 := "*/" + r13;
    var r11 := " " + r12;
    var r10 := "baz" + r11;
    var r9 := " " + r10;
    var r8 := "*/" + r9;
    var r7 := " " + r8;
    WhitespaceToken(" ", r8, Lexer([BlockComment, BlockComment], Some(CommentBody), false, false));
    LexOne(" ", r8, Lexer([BlockComment, BlockComment], Some(CommentBody), false, false), Token(Whitespace, " "), Lexer([BlockComment, BlockComment], Some(Whitespace), false, false));
  }

  lemma NestedCommentsWithWhitespaceStep8()
    ensures Lex("*/" + (" " + ("baz" + (" " + ("*/" + "")))), Lexer([BlockComment, BlockComment], Some(Whitespace), false, false)) ==
            [Token(EndOfScope, "*/")] + Lex(" " + ("baz" + (" " + ("*/" + ""))), Lexer([BlockComment], Some(EndOfScope), false, false))
  {
    var r13 := "";
    var r12 := "*/" + r13;
    var r11 := " " + r12;
    var r10 := "baz" + r11;
    var r9 := " " + r10;
    var r8 := "*/" + r9;
    BlockCommentClose(r9, Lexer([BlockComment, BlockComment], Some(Whitespace), false, false));
    LexOne("*/", r9, Lexer([BlockComment, BlockComment], Some(Whitespace), false, false), Token(EndOfScope, "*/"), Lexer([BlockComment], Some(EndOfScope), false, false));
  }

  lemma NestedCommentsWithWhitespaceStep9()
    ensures Lex(" " + ("baz" + (" " + ("*/" + ""))), Lexer([BlockComment], Some(EndOfScope), false, false)) ==
            [Token(Whitespace, " ")] + Lex("baz" + (" " + ("*/" + "")), Lexer([BlockComment], Some(Whitespace), false, false))
  {
    var r13 := "";
    var r12 := "*/" + r13;
    var r11 := " " + r12;
    var r10 := "baz" + r11;
    var r9 := " " + r10;
    WhitespaceToken(" ", r10, Lexer([BlockComment], Some(EndOfScope), false, false));
    LexOne(" ", r10, Lexer([BlockComment], Some(EndOfScope), false, false), Token(Whitespace, " "), Lexer([BlockComment], Some(Whitespace), false, false));
  }

  lemma NestedCommentsWithWhitespaceStep10()
    ensures Lex("baz" + (" " + ("*/" + "")), Lexer([BlockComment], Some(Whitespace), false, false)) ==
            [Token(CommentBody, "baz")] + Lex(" " + ("*/" + ""), Lexer([BlockComment], Some(CommentBody), false, false))
  {
    var r13 := "";
    var r12 := "*/" + r13;
    var r11 := " " + r12;
    var r10 := "baz" + r11;
    BlockCommentWord("baz", r11, Lexer([BlockComment], Some(Whitespace), false, false));
    LexOne("baz", r11, Lexer([BlockComment], Some(Whitespace), false, false), Token(CommentBody, "baz"), Lexer([BlockComment], Some(CommentBody), false, false));
  }

  lemma NestedCommentsWithWhitespaceStep11()
    ensures Lex(" " + ("*/" + ""), Lexer([BlockComment], Some(CommentBody), false, false)) ==
            [Token(Whitespace, " ")] + Lex("*/" + "", Lexer([BlockComment], Some(Whitespace), false, false))
  {
    var r13 := "";
    var r12 := "*/" + r13;
    var r11 := " " + r12;
    WhitespaceToken(" ", r12, Lexer([BlockComment], Some(CommentBody), false, false));
    LexOne(" ", r12, Lexer([BlockComment], Some(CommentBody), false, false), Token(Whitespace, " "), Lexer([BlockComment], Some(Whitespace), false, false));
  }

  lemma NestedCommentsWithWhitespaceStep12()
    ensures Lex("*/" + "", Lexer([BlockComment], Some(Whitespace), false, false)) ==
            [Token(EndOfScope, "*/")] + Lex("", Lexer([], Some(EndOfScope), false, false))
  {
    var r13 := "";
    var r12 := "*/" + r13;
    BlockCommentClose(r13, Lexer([BlockComment], Some(Whitespace), false, false));
    LexOne("*/", r13, Lexer([BlockComment], Some(Whitespace), false, false), Token(EndOfScope, "*/"), Lexer([], Some(EndOfScope), false, false));
  }
}
