/**
 * The tokenizer's expected output for operators, one lemma per test case
 * of SwiftFormatTests/TokenizerTests.swift.  Each input and each expected
 * token list is written as a right-nested concatenation, one piece per token,
 * so that the proof can take the tokens one at a time: lemma <Case>Step<k>
 * scans token k, <Case>From<k> joins a group of eight scans, and
 * <Case>Probe<k> settles the lookahead for a `<` at token k.
 */
module OperatorTests {
  import opened Wrappers
  import opened Tokenizer
  import opened Scanning
  import opened Steps

  // SwiftFormatTests/TokenizerTests.swift:392-396
  lemma BasicOperator()
    ensures Tokenize("+=" + "") ==
            [Token(Operator, "+=")] + []
  {
    BasicOperatorStep0();
  }

  lemma BasicOperatorStep0()
    ensures Lex("+=" + "", Lexer([], None, false, false)) ==
            [Token(Operator, "+=")] + Lex("", Lexer([], Some(Operator), false, false))
  {
    var r1 := "";
    var r0 := "+=" + r1;
    CodeOperator("+=", r1, Lexer([], None, false, false));
    LexOne("+=", r1, Lexer([], None, false, false), Token(Operator, "+="), Lexer([], Some(Operator), false, false));
  }

  // SwiftFormatTests/TokenizerTests.swift:398-408
  lemma Divide()
    ensures Tokenize("a" + (" " + ("/" + (" " + ("b" + ""))))) ==
            [Token(Identifier, "a")] + ([Token(Whitespace, " ")] + ([Token(Operator, "/")] + ([Token(Whitespace, " ")] + ([Token(Identifier, "b")] + []))))
  {
    DivideStep0();
    DivideStep1();
    DivideStep2();
    DivideStep3();
    DivideStep4();
  }

  lemma DivideStep0()
    ensures Lex("a" + (" " + ("/" + (" " + ("b" + "")))), Lexer([], None, false, false)) ==
            [Token(Identifier, "a")] + Lex(" " + ("/" + (" " + ("b" + ""))), Lexer([], Some(Identifier), false, false))
  {
    var r5 := "";
    var r4 := "b" + r5;
    var r3 := " " + r4;
    var r2 := "/" + r3;
    var r1 := " " + r2;
    var r0 := "a" + r1;
    CodeIdentifier("a", r1, Lexer([], None, false, false));
    LexOne("a", r1, Lexer([], None, false, false), Token(Identifier, "a"), Lexer([], Some(Identifier), false, false));
  }

  lemma DivideStep1()
    ensures Lex(" " + ("/" + (" " + ("b" + ""))), Lexer([], Some(Identifier), false, false)) ==
            [Token(Whitespace, " ")] + Lex("/" + (" " + ("b" + "")), Lexer([], Some(Whitespace), false, false))
  {
    var r5 := "";
    var r4 := "b" + r5;
    var r3 := " " + r4;
    var r2 := "/" + r3;
    var r1 := " " + r2;
    WhitespaceToken(" ", r2, Lexer([], Some(Identifier), false, false));
    LexOne(" ", r2, Lexer([], Some(Identifier), false, false), Token(Whitespace, " "), Lexer([], Some(Whitespace), false, false));
  }

  lemma DivideStep2()
    ensures Lex("/" + (" " + ("b" + "")), Lexer([], Some(Whitespace), false, false)) ==
            [Token(Operator, "/")] + Lex(" " + ("b" + ""), Lexer([], Some(Operator), false, false))
  {
    var r5 := "";
    var r4 := "b" + r5;
    var r3 := " " + r4;
    var r2 := "/" + r3;
    CodeOperator("/", r3, Lexer([], Some(Whitespace), false, false));
    LexOne("/", r3, Lexer([], Some(Whitespace), false, false), Token(Operator, "/"), Lexer([], Some(Operator), false, false));
  }

  lemma DivideStep3()
    ensures Lex(" " + ("b" + ""), Lexer([], Some(Operator), false, false)) ==
            [Token(Whitespace, " ")] + Lex("b" + "", Lexer([], Some(Whitespace), false, false))
  {
    var r5 := "";
    var r4 := "b" + r5;
    var r3 := " " + r4;
    WhitespaceToken(" ", r4, Lexer([], Some(Operator), false, false));
    LexOne(" ", r4, Lexer([], Some(Operator), false, false), Token(Whitespace, " "), Lexer([], Some(Whitespace), false, false));
  }

  lemma DivideStep4()
    ensures Lex("b" + "", Lexer([], Some(Whitespace), false, false)) ==
            [Token(Identifier, "b")] + Lex("", Lexer([], Some(Identifier), false, false))
  {
    var r5 := "";
    var r4 := "b" + r5;
    CodeIdentifier("b", r5, Lexer([], Some(Whitespace), false, false));
    LexOne("b", r5, Lexer([], Some(Whitespace), false, false), Token(Identifier, "b"), Lexer([], Some(Identifier), false, false));
  }

  // SwiftFormatTests/TokenizerTests.swift:410-414
  lemma CustomOperator()
    ensures Tokenize("~=" + "") ==
            [Token(Operator, "~=")] + []
  {
    CustomOperatorStep0();
  }

  lemma CustomOperatorStep0()
    ensures Lex("~=" + "", Lexer([], None, false, false)) ==
            [Token(Operator, "~=")] + Lex("", Lexer([], Some(Operator), false, false))
  {
    var r1 := "";
    var r0 := "~=" + r1;
    CodeOperator("~=", r1, Lexer([], None, false, false));
    LexOne("~=", r1, Lexer([], None, false, false), Token(Operator, "~="), Lexer([], Some(Operator), false, false));
  }

  // SwiftFormatTests/TokenizerTests.swift:416-427
  lemma SequentialOperators()
    ensures Tokenize("a" + (" " + ("*=" + (" " + ("-" + ("b" + "")))))) ==
            [Token(Identifier, "a")] + ([Token(Whitespace, " ")] + ([Token(Operator, "*=")] + ([Token(Whitespace, " ")] + ([Token(Operator, "-")] + ([Token(Identifier, "b")] + [])))))
  {
    SequentialOperatorsStep0();
    SequentialOperatorsStep1();
    SequentialOperatorsStep2();
    SequentialOperatorsStep3();
    SequentialOperatorsStep4();
    SequentialOperatorsStep5();
  }

  lemma SequentialOperatorsStep0()
    ensures Lex("a" + (" " + ("*=" + (" " + ("-" + ("b" + ""))))), Lexer([], None, false, false)) ==
            [Token(Identifier, "a")] + Lex(" " + ("*=" + (" " + ("-" + ("b" + "")))), Lexer([], Some(Identifier), false, false))
  {
    var r6 := "";
    var r5 := "b" + r6;
    var r4 := "-" + r5;
    var r3 := " " + r4;
    var r2 := "*=" + r3;
    var r1 := " " + r2;
    var r0 := "a" + r1;
    CodeIdentifier("a", r1, Lexer([], None, false, false));
    LexOne("a", r1, Lexer([], None, false, false), Token(Identifier, "a"), Lexer([], Some(Identifier), false, false));
  }

  lemma SequentialOperatorsStep1()
    ensures Lex(" " + ("*=" + (" " + ("-" + ("b" + "")))), Lexer([], Some(Identifier), false, false)) ==
            [Token(Whitespace, " ")] + Lex("*=" + (" " + ("-" + ("b" + ""))), Lexer([], Some(Whitespace), false, false))
  {
    var r6 := "";
    var r5 := "b" + r6;
    var r4 := "-" + r5;
    var r3 := " " + r4;
    var r2 := "*=" + r3;
    var r1 := " " + r2;
    WhitespaceToken(" ", r2, Lexer([], Some(Identifier), false, false));
    LexOne(" ", r2, Lexer([], Some(Identifier), false, false), Token(Whitespace, " "), Lexer([], Some(Whitespace), false, false));
  }

  lemma SequentialOperatorsStep2()
    ensures Lex("*=" + (" " + ("-" + ("b" + ""))), Lexer([], Some(Whitespace), false, false)) ==
            [Token(Operator, "*=")] + Lex(" " + ("-" + ("b" + "")), Lexer([], Some(Operator), false, false))
  {
    var r6 := "";
    var r5 := "b" + r6;
    var r4 := "-" + r5;
    var r3 := " " + r4;
    var r2 := "*=" + r3;
    CodeOperator("*=", r3, Lexer([], Some(Whitespace), false, false));
    LexOne("*=", r3, Lexer([], Some(Whitespace), false, false), Token(Operator, "*="), Lexer([], Some(Operator), false, false));
  }

  lemma SequentialOperatorsStep3()
    ensures Lex(" " + ("-" + ("b" + "")), Lexer([], Some(Operator), false, false)) ==
            [Token(Whitespace, " ")] + Lex("-" + ("b" + ""), Lexer([], Some(Whitespace), false, false))
  {
    var r6 := "";
    var r5 := "b" + r6;
    var r4 := "-" + r5;
    var r3 := " " + r4;
    WhitespaceToken(" ", r4, Lexer([], Some(Operator), false, false));
    LexOne(" ", r4, Lexer([], Some(Operator), false, false), Token(Whitespace, " "), Lexer([], Some(Whitespace), false, false));
  }

  lemma SequentialOperatorsStep4()
    ensures Lex("-" + ("b" + ""), Lexer([], Some(Whitespace), false, false)) ==
            [Token(Operator, "-")] + Lex("b" + "", Lexer([], Some(Operator), false, false))
  {
    var r6 := "";
    var r5 := "b" + r6;
    var r4 := "-" + r5;
    CodeOperator("-", r5, Lexer([], Some(Whitespace), false, false));
    LexOne("-", r5, Lexer([], Some(Whitespace), false, false), Token(Operator, "-"), Lexer([], Some(Operator), false, false));
  }

  lemma SequentialOperatorsStep5()
    ensures Lex("b" + "", Lexer([], Some(Operator), false, false)) ==
            [Token(Identifier, "b")] + Lex("", Lexer([], Some(Identifier), false, false))
  {
    var r6 := "";
    var r5 := "b" + r6;
    CodeIdentifier("b", r6, Lexer([], Some(Operator), false, false));
    LexOne("b", r6, Lexer([], Some(Operator), false, false), Token(Identifier, "b"), Lexer([], Some(Identifier), false, false));
  }

  // SwiftFormatTests/TokenizerTests.swift:429-433
  lemma DotPrefixedOperator()
    ensures Tokenize("..." + "") ==
            [Token(Operator, "...")] + []
  {
    DotPrefixedOperatorStep0();
  }

  lemma DotPrefixedOperatorStep0()
    ensures Lex("..." + "", Lexer([], None, false, false)) ==
            [Token(Operator, "...")] + Lex("", Lexer([], Some(Operator), false, false))
  {
    var r1 := "";
    var r0 := "..." + r1;
    CodeOperator("...", r1, Lexer([], None, false, false));
    LexOne("...", r1, Lexer([], None, false, false), Token(Operator, "..."), Lexer([], Some(Operator), false, false));
  }

  // SwiftFormatTests/TokenizerTests.swift:435-439
  lemma UnicodeOperator()
    ensures Tokenize("\U{2265}" + "") ==
            [Token(Operator, "\U{2265}")] + []
  {
    UnicodeOperatorStep0();
  }

  lemma UnicodeOperatorStep0()
    ensures Lex("\U{2265}" + "", Lexer([], None, false, false)) ==
            [Token(Operator, "\U{2265}")] + Lex("", Lexer([], Some(Operator), false, false))
  {
    var r1 := "";
    var r0 := "\U{2265}" + r1;
    CodeOperator("\U{2265}", r1, Lexer([], None, false, false));
    LexOne("\U{2265}", r1, Lexer([], None, false, false), Token(Operator, "\U{2265}"), Lexer([], Some(Operator), false, false));
  }

  // SwiftFormatTests/TokenizerTests.swift:441-454
  lemma OperatorFollowedByComment()
    ensures Tokenize("a" + (" " + ("+" + ("/*" + (" " + ("b" + (" " + ("*/" + "")))))))) ==
            [Token(Identifier, "a")] + ([Token(Whitespace, " ")] + ([Token(Operator, "+")] + ([Token(StartOfScope, "/*")] + ([Token(Whitespace, " ")] + ([Token(CommentBody, "b")] + ([Token(Whitespace, " ")] + ([Token(EndOfScope, "*/")] + [])))))))
  {
    OperatorFollowedByCommentStep0();
    OperatorFollowedByCommentStep1();
    OperatorFollowedByCommentStep2();
    OperatorFollowedByCommentStep3();
    OperatorFollowedByCommentStep4();
    OperatorFollowedByCommentStep5();
    OperatorFollowedByCommentStep6();
    OperatorFollowedByCommentStep7();
  }

  lemma OperatorFollowedByCommentStep0()
    ensures Lex("a" + (" " + ("+" + ("/*" + (" " + ("b" + (" " + ("*/" + ""))))))), Lexer([], None, false, false)) ==
            [Token(Identifier, "a")] + Lex(" " + ("+" + ("/*" + (" " + ("b" + (" " + ("*/" + "")))))), Lexer([], Some(Identifier), false, false))
  {
    var r8 := "";
    var r7 := "*/" + r8;
    var r6 := " " + r7;
    var r5 := "b" + r6;
    var r4 := " " + r5;
    var r3 := "/*" + r4;
    var r2 := "+" + r3;
    var r1 := " " + r2;
    var r0 := "a" + r1;
    CodeIdentifier("a", r1, Lexer([], None, false, false));
    LexOne("a", r1, Lexer([], None, false, false), Token(Identifier, "a"), Lexer([], Some(Identifier), false, false));
  }

  lemma OperatorFollowedByCommentStep1()
    ensures Lex(" " + ("+" + ("/*" + (" " + ("b" + (" " + ("*/" + "")))))), Lexer([], Some(Identifier), false, false)) ==
            [Token(Whitespace, " ")] + Lex("+" + ("/*" + (" " + ("b" + (" " + ("*/" + ""))))), Lexer([], Some(Whitespace), false, false))
  {
    var r8 := "";
    var r7 := "*/" + r8;
    var r6 := " " + r7;
    var r5 := "b" + r6;
    var r4 := " " + r5;
    var r3 := "/*" + r4;
    var r2 := "+" + r3;
    var r1 := " " + r2;
    WhitespaceToken(" ", r2, Lexer([], Some(Identifier), false, false));
    LexOne(" ", r2, Lexer([], Some(Identifier), false, false), Token(Whitespace, " "), Lexer([], Some(Whitespace), false, false));
  }

  lemma OperatorFollowedByCommentStep2()
    ensures Lex("+" + ("/*" + (" " + ("b" + (" " + ("*/" + ""))))), Lexer([], Some(Whitespace), false, false)) ==
            [Token(Operator, "+")] + Lex("/*" + (" " + ("b" + (" " + ("*/" + "")))), Lexer([], Some(Operator), false, false))
  {
    var r8 := "";
    var r7 := "*/" + r8;
    var r6 := " " + r7;
    var r5 := "b" + r6;
    var r4 := " " + r5;
    var r3 := "/*" + r4;
    var r2 := "+" + r3;
    CodeOperator("+", r3, Lexer([], Some(Whitespace), false, false));
    LexOne("+", r3, Lexer([], Some(Whitespace), false, false), Token(Operator, "+"), Lexer([], Some(Operator), false, false));
  }

  lemma OperatorFollowedByCommentStep3()
    ensures Lex("/*" + (" " + ("b" + (" " + ("*/" + "")))), Lexer([], Some(Operator), false, false)) ==
            [Token(StartOfScope, "/*")] + Lex(" " + ("b" + (" " + ("*/" + ""))), Lexer([BlockComment], Some(StartOfScope), false, false))
  {
    var r8 := "";
    var r7 := "*/" + r8;
    var r6 := " " + r7;
    var r5 := "b" + r6;
    var r4 := " " + r5;
    var r3 := "/*" + r4;
    CodeCommentOpen("/*", r4, Lexer([], Some(Operator), false, false));
    LexOne("/*", r4, Lexer([], Some(Operator), false, false), Token(StartOfScope, "/*"), Lexer([BlockComment], Some(StartOfScope), false, false));
  }

  lemma OperatorFollowedByCommentStep4()
    ensures Lex(" " + ("b" + (" " + ("*/" + ""))), Lexer([BlockComment], Some(StartOfScope), false, false)) ==
            [Token(Whitespace, " ")] + Lex("b" + (" " + ("*/" + "")), Lexer([BlockComment], Some(Whitespace), false, false))
  {
    var r8 := "";
    var r7 := "*/" + r8;
    var r6 := " " + r7;
    var r5 := "b" + r6;
    var r4 := " " + r5;
    WhitespaceToken(" ", r5, Lexer([BlockComment], Some(StartOfScope), false, false));
    LexOne(" ", r5, Lexer([BlockComment], Some(StartOfScope), false, false), Token(Whitespace, " "), Lexer([BlockComment], Some(Whitespace), false, false));
  }

  lemma OperatorFollowedByCommentStep5()
    ensures Lex("b" + (" " + ("*/" + "")), Lexer([BlockComment], Some(Whitespace), false, false)) ==
            [Token(CommentBody, "b")] + Lex(" " + ("*/" + ""), Lexer([BlockComment], Some(CommentBody), false, false))
  {
    var r8 := "";
    var r7 := "*/" + r8;
    var r6 := " " + r7;
    var r5 := "b" + r6;
    BlockCommentWord("b", r6, Lexer([BlockComment], Some(Whitespace), false, false));
    LexOne("b", r6, Lexer([BlockComment], Some(Whitespace), false, false), Token(CommentBody, "b"), Lexer([BlockComment], Some(CommentBody), false, false));
  }

  lemma OperatorFollowedByCommentStep6()
    ensures Lex(" " + ("*/" + ""), Lexer([BlockComment], Some(CommentBody), false, false)) ==
            [Token(Whitespace, " ")] + Lex("*/" + "", Lexer([BlockComment], Some(Whitespace), false, false))
  {
    var r8 := "";
    var r7 := "*/" + r8;
    var r6 := " " + r7;
    WhitespaceToken(" ", r7, Lexer([BlockComment], Some(CommentBody), false, false));
    LexOne(" ", r7, Lexer([BlockComment], Some(CommentBody), false, false), Token(Whitespace, " "), Lexer([BlockComment], Some(Whitespace), false, false));
  }

  lemma OperatorFollowedByCommentStep7()
    ensures Lex("*/" + "", Lexer([BlockComment], Some(Whitespace), false, false)) ==
            [Token(EndOfScope, "*/")] + Lex("", Lexer([], Some(EndOfScope), false, false))
  {
    var r8 := "";
    var r7 := "*/" + r8;
    BlockCommentClose(r8, Lexer([BlockComment], Some(Whitespace), false, false));
    LexOne("*/", r8, Lexer([BlockComment], Some(Whitespace), false, false), Token(EndOfScope, "*/"), Lexer([], Some(EndOfScope), false, false));
  }

  // SwiftFormatTests/TokenizerTests.swift:456-468
  lemma OperatorPrecededByComment()
    ensures Tokenize("/*" + (" " + ("a" + (" " + ("*/" + ("-" + ("b" + ""))))))) ==
            [Token(StartOfScope, "/*")] + ([Token(Whitespace, " ")] + ([Token(CommentBody, "a")] + ([Token(Whitespace, " ")] + ([Token(EndOfScope, "*/")] + ([Token(Operator, "-")] + ([Token(Identifier, "b")] + []))))))
  {
    OperatorPrecededByCommentStep0();
    OperatorPrecededByCommentStep1();
    OperatorPrecededByCommentStep2();
    OperatorPrecededByCommentStep3();
    OperatorPrecededByCommentStep4();
    OperatorPrecededByCommentStep5();
    OperatorPrecededByCommentStep6();
  }

  lemma OperatorPrecededByCommentStep0()
    ensures Lex("/*" + (" " + ("a" + (" " + ("*/" + ("-" + ("b" + "")))))), Lexer([], None, false, false)) ==
            [Token(StartOfScope, "/*")] + Lex(" " + ("a" + (" " + ("*/" + ("-" + ("b" + ""))))), Lexer([BlockComment], Some(StartOfScope), false, false))
  {
    var r7 := "";
    var r6 := "b" + r7;
    var r5 := "-" + r6;
    var r4 := "*/" + r5;
    var r3 := " " + r4;
    var r2 := "a" + r3;
    var r1 := " " + r2;
    var r0 := "/*" + r1;
    CodeCommentOpen("/*", r1, Lexer([], None, false, false));
    LexOne("/*", r1, Lexer([], None, false, false), Token(StartOfScope, "/*"), Lexer([BlockComment], Some(StartOfScope), false, false));
  }

  lemma OperatorPrecededByCommentStep1()
    ensures Lex(" " + ("a" + (" " + ("*/" + ("-" + ("b" + ""))))), Lexer([BlockComment], Some(StartOfScope), false, false)) ==
            [Token(Whitespace, " ")] + Lex("a" + (" " + ("*/" + ("-" + ("b" + "")))), Lexer([BlockComment], Some(Whitespace), false, false))
  {
    var r7 := "";
    var r6 := "b" + r7;
    var r5 := "-" + r6;
    var r4 := "*/" + r5;
    var r3 := " " + r4;
    var r2 := "a" + r3;
    var r1 := " " + r2;
    WhitespaceToken(" ", r2, Lexer([BlockComment], Some(StartOfScope), false, false));
    LexOne(" ", r2, Lexer([BlockComment], Some(StartOfScope), false, false), Token(Whitespace, " "), Lexer([BlockComment], Some(Whitespace), false, false));
  }

  lemma OperatorPrecededByCommentStep2()
    ensures Lex("a" + (" " + ("*/" + ("-" + ("b" + "")))), Lexer([BlockComment], Some(Whitespace), false, false)) ==
            [Token(CommentBody, "a")] + Lex(" " + ("*/" + ("-" + ("b" + ""))), Lexer([BlockComment], Some(CommentBody), false, false))
  {
    var r7 := "";
    var r6 := "b" + r7;
    var r5 := "-" + r6;
    var r4 := "*/" + r5;
    var r3 := " " + r4;
    var r2 := "a" + r3;
    BlockCommentWord("a", r3, Lexer([BlockComment], Some(Whitespace), false, false));
    LexOne("a", r3, Lexer([BlockComment], Some(Whitespace), false, false), Token(CommentBody, "a"), Lexer([BlockComment], Some(CommentBody), false, false));
  }

  lemma OperatorPrecededByCommentStep3()
    ensures Lex(" " + ("*/" + ("-" + ("b" + ""))), Lexer([BlockComment], Some(CommentBody), false, false)) ==
            [Token(Whitespace, " ")] + Lex("*/" + ("-" + ("b" + "")), Lexer([BlockComment], Some(Whitespace), false, false))
  {
    var r7 := "";
    var r6 := "b" + r7;
    var r5 := "-" + r6;
    var r4 := "*/" + r5;
    var r3 := " " + r4;
    WhitespaceToken(" ", r4, Lexer([BlockComment], Some(CommentBody), false, false));
    LexOne(" ", r4, Lexer([BlockComment], Some(CommentBody), false, false), Token(Whitespace, " "), Lexer([BlockComment], Some(Whitespace), false, false));
  }

  lemma OperatorPrecededByCommentStep4()
    ensures Lex("*/" + ("-" + ("b" + "")), Lexer([BlockComment], Some(Whitespace), false, false)) ==
            [Token(EndOfScope, "*/")] + Lex("-" + ("b" + ""), Lexer([], Some(EndOfScope), false, false))
  {
    var r7 := "";
    var r6 := "b" + r7;
    var r5 := "-" + r6;
    var r4 := "*/" + r5;
    BlockCommentClose(r5, Lexer([BlockComment], Some(Whitespace), false, false));
    LexOne("*/", r5, Lexer([BlockComment], Some(Whitespace), false, false), Token(EndOfScope, "*/"), Lexer([], Some(EndOfScope), false, false));
  }

  lemma OperatorPrecededByCommentStep5()
    ensures Lex("-" + ("b" + ""), Lexer([], Some(EndOfScope), false, false)) ==
            [Token(Operator, "-")] + Lex("b" + "", Lexer([], Some(Operator), false, false))
  {
    var r7 := "";
    var r6 := "b" + r7;
    var r5 := "-" + r6;
    CodeOperator("-", r6, Lexer([], Some(EndOfScope), false, false));
    LexOne("-", r6, Lexer([], Some(EndOfScope), false, false), Token(Operator, "-"), Lexer([], Some(Operator), false, false));
  }

  lemma OperatorPrecededByCommentStep6()
    ensures Lex("b" + "", Lexer([], Some(Operator), false, false)) ==
            [Token(Identifier, "b")] + Lex("", Lexer([], Some(Identifier), false, false))
  {
    var r7 := "";
    var r6 := "b" + r7;
    CodeIdentifier("b", r7, Lexer([], Some(Operator), false, false));
    LexOne("b", r7, Lexer([], Some(Operator), false, false), Token(Identifier, "b"), Lexer([], Some(Identifier), false, false));
  }

  // SwiftFormatTests/TokenizerTests.swift:470-474
  lemma OperatorMayContainDotIfStartsWithDot()
    ensures Tokenize(".*.." + "") ==
            [Token(Operator, ".*..")] + []
  {
    OperatorMayContainDotIfStartsWithDotStep0();
  }

  lemma OperatorMayContainDotIfStartsWithDotStep0()
    ensures Lex(".*.." + "", Lexer([], None, false, false)) ==
            [Token(Operator, ".*..")] + Lex("", Lexer([], Some(Operator), false, false))
  {
    var r1 := "";
    var r0 := ".*.." + r1;
    CodeOperator(".*..", r1, Lexer([], None, false, false));
    LexOne(".*..", r1, Lexer([], None, false, false), Token(Operator, ".*.."), Lexer([], Some(Operator), false, false));
  }

  // SwiftFormatTests/TokenizerTests.swift:476-483
  lemma OperatorMayNotContainDotUnlessStartsWithDot()
    ensures Tokenize("*" + (".." + "")) ==
            [Token(Operator, "*")] + ([Token(Operator, "..")] + [])
  {
    OperatorMayNotContainDotUnlessStartsWithDotStep0();
    OperatorMayNotContainDotUnlessStartsWithDotStep1();
  }

  lemma OperatorMayNotContainDotUnlessStartsWithDotStep0()
    ensures Lex("*" + (".." + ""), Lexer([], None, false, false)) ==
            [Token(Operator, "*")] + Lex(".." + "", Lexer([], Some(Operator), false, false))
  {
    var r2 := "";
    var r1 := ".." + r2;
    var r0 := "*" + r1;
    CodeOperator("*", r1, Lexer([], None, false, false));
    LexOne("*", r1, Lexer([], None, false, false), Token(Operator, "*"), Lexer([], Some(Operator), false, false));
  }

  lemma OperatorMayNotContainDotUnlessStartsWithDotStep1()
    ensures Lex(".." + "", Lexer([], Some(Operator), false, false)) ==
            [Token(Operator, "..")] + Lex("", Lexer([], Some(Operator), false, false))
  {
    var r2 := "";
    var r1 := ".." + r2;
    CodeOperator("..", r2, Lexer([], Some(Operator), false, false));
    LexOne("..", r2, Lexer([], Some(Operator), false, false), Token(Operator, ".."), Lexer([], Some(Operator), false, false));
  }
}
