/**
 * The tokenizer's expected output for linebreaks, one lemma per test case
 * of SwiftFormatTests/TokenizerTests.swift.  Each input and each expected
 * token list is written as a right-nested concatenation, one piece per token,
 * so that the proof can take the tokens one at a time: lemma <Case>Step<k>
 * scans token k, <Case>From<k> joins a group of eight scans, and
 * <Case>Probe<k> settles the lookahead for a `<` at token k.
 */
module LinebreakTests {
  import opened Wrappers
  import opened Tokenizer
  import opened Scanning
  import opened Steps

  // SwiftFormatTests/TokenizerTests.swift:1020-1028
  lemma LF()
    ensures Tokenize("foo" + ("\n" + ("bar" + ""))) ==
            [Token(Identifier, "foo")] + ([Token(Linebreak, "\n")] + ([Token(Identifier, "bar")] + []))
  {
    LFStep0();
    LFStep1();
    LFStep2();
  }

  lemma LFStep0()
    ensures Lex("foo" + ("\n" + ("bar" + "")), Lexer([], None, false, false)) ==
            [Token(Identifier, "foo")] + Lex("\n" + ("bar" + ""), Lexer([], Some(Identifier), false, false))
  {
    var r3 := "";
    var r2 := "bar" + r3;
    var r1 := "\n" + r2;
    var r0 := "foo" + r1;
    CodeIdentifier("foo", r1, Lexer([], None, false, false));
    LexOne("foo", r1, Lexer([], None, false, false), Token(Identifier, "foo"), Lexer([], Some(Identifier), false, false));
  }

  lemma LFStep1()
    ensures Lex("\n" + ("bar" + ""), Lexer([], Some(Identifier), false, false)) ==
            [Token(Linebreak, "\n")] + Lex("bar" + "", Lexer([], Some(Linebreak), false, false))
  {
    var r3 := "";
    var r2 := "bar" + r3;
    var r1 := "\n" + r2;
    CodeLinebreak("\n", r2, Lexer([], Some(Identifier), false, false));
    LexOne("\n", r2, Lexer([], Some(Identifier), false, false), Token(Linebreak, "\n"), Lexer([], Some(Linebreak), false, false));
  }

  lemma LFStep2()
    ensures Lex("bar" + "", Lexer([], Some(Linebreak), false, false)) ==
            [Token(Identifier, "bar")] + Lex("", Lexer([], Some(Identifier), false, false))
  {
    var r3 := "";
    var r2 := "bar" + r3;
    CodeIdentifier("bar", r3, Lexer([], Some(Linebreak), false, false));
    LexOne("bar", r3, Lexer([], Some(Linebreak), false, false), Token(Identifier, "bar"), Lexer([], Some(Identifier), false, false));
  }

  // SwiftFormatTests/TokenizerTests.swift:1030-1038
  lemma CR()
    ensures Tokenize("foo" + ("\r" + ("bar" + ""))) ==
            [Token(Identifier, "foo")] + ([Token(Linebreak, "\r")] + ([Token(Identifier, "bar")] + []))
  {
    CRStep0();
    CRStep1();
    CRStep2();
  }

  lemma CRStep0()
    ensures Lex("foo" + ("\r" + ("bar" + "")), Lexer([], None, false, false)) ==
            [Token(Identifier, "foo")] + Lex("\r" + ("bar" + ""), Lexer([], Some(Identifier), false, false))
  {
    var r3 := "";
    var r2 := "bar" + r3;
    var r1 := "\r" + r2;
    var r0 := "foo" + r1;
    CodeIdentifier("foo", r1, Lexer([], None, false, false));
    LexOne("foo", r1, Lexer([], None, false, false), Token(Identifier, "foo"), Lexer([], Some(Identifier), false, false));
  }

  lemma CRStep1()
    ensures Lex("\r" + ("bar" + ""), Lexer([], Some(Identifier), false, false)) ==
            [Token(Linebreak, "\r")] + Lex("bar" + "", Lexer([], Some(Linebreak), false, false))
  {
    var r3 := "";
    var r2 := "bar" + r3;
    var r1 := "\r" + r2;
    CodeLinebreak("\r", r2, Lexer([], Some(Identifier), false, false));
    LexOne("\r", r2, Lexer([], Some(Identifier), false, false), Token(Linebreak, "\r"), Lexer([], Some(Linebreak), false, false));
  }

  lemma CRStep2()
    ensures Lex("bar" + "", Lexer([], Some(Linebreak), false, false)) ==
            [Token(Identifier, "bar")] + Lex("", Lexer([], Some(Identifier), false, false))
  {
    var r3 := "";
    var r2 := "bar" + r3;
    CodeIdentifier("bar", r3, Lexer([], Some(Linebreak), false, false));
    LexOne("bar", r3, Lexer([], Some(Linebreak), false, false), Token(Identifier, "bar"), Lexer([], Some(Identifier), false, false));
  }

  // SwiftFormatTests/TokenizerTests.swift:1040-1048
  lemma CRLF()
    ensures Tokenize("foo" + ("\r\n" + ("bar" + ""))) ==
            [Token(Identifier, "foo")] + ([Token(Linebreak, "\r\n")] + ([Token(Identifier, "bar")] + []))
  {
    CRLFStep0();
    CRLFStep1();
    CRLFStep2();
  }

  lemma CRLFStep0()
    ensures Lex("foo" + ("\r\n" + ("bar" + "")), Lexer([], None, false, false)) ==
            [Token(Identifier, "foo")] + Lex("\r\n" + ("bar" + ""), Lexer([], Some(Identifier), false, false))
  {
    var r3 := "";
    var r2 := "bar" + r3;
    var r1 := "\r\n" + r2;
    var r0 := "foo" + r1;
    CodeIdentifier("foo", r1, Lexer([], None, false, false));
    LexOne("foo", r1, Lexer([], None, false, false), Token(Identifier, "foo"), Lexer([], Some(Identifier), false, false));
  }

  lemma CRLFStep1()
    ensures Lex("\r\n" + ("bar" + ""), Lexer([], Some(Identifier), false, false)) ==
            [Token(Linebreak, "\r\n")] + Lex("bar" + "", Lexer([], Some(Linebreak), false, false))
  {
    var r3 := "";
    var r2 := "bar" + r3;
    var r1 := "\r\n" + r2;
    CodeLinebreak("\r\n", r2, Lexer([], Some(Identifier), false, false));
    LexOne("\r\n", r2, Lexer([], Some(Identifier), false, false), Token(Linebreak, "\r\n"), Lexer([], Some(Linebreak), false, false));
  }

  lemma CRLFStep2()
    ensures Lex("bar" + "", Lexer([], Some(Linebreak), false, false)) ==
            [Token(Identifier, "bar")] + Lex("", Lexer([], Some(Identifier), false, false))
  {
    var r3 := "";
    var r2 := "bar" + r3;
    CodeIdentifier("bar", r3, Lexer([], Some(Linebreak), false, false));
    LexOne("bar", r3, Lexer([], Some(Linebreak), false, false), Token(Identifier, "bar"), Lexer([], Some(Identifier), false, false));
  }

  // SwiftFormatTests/TokenizerTests.swift:1050-1060
  lemma CRLFAfterComment()
    ensures Tokenize("//" + ("foo" + ("\r\n" + ("//" + ("bar" + ""))))) ==
            [Token(StartOfScope, "//")] + ([Token(CommentBody, "foo")] + ([Token(Linebreak, "\r\n")] + ([Token(StartOfScope, "//")] + ([Token(CommentBody, "bar")] + []))))
  {
    CRLFAfterCommentStep0();
    CRLFAfterCommentStep1();
    CRLFAfterCommentStep2();
    CRLFAfterCommentStep3();
    CRLFAfterCommentStep4();
  }

  lemma CRLFAfterCommentStep0()
    ensures Lex("//" + ("foo" + ("\r\n" + ("//" + ("bar" + "")))), Lexer([], None, false, false)) ==
            [Token(StartOfScope, "//")] + Lex("foo" + ("\r\n" + ("//" + ("bar" + ""))), Lexer([LineComment], Some(StartOfScope), false, false))
  {
    var r5 := "";
    var r4 := "bar" + r5;
    var r3 := "//" + r4;
    var r2 := "\r\n" + r3;
    var r1 := "foo" + r2;
    var r0 := "//" + r1;
    CodeCommentOpen("//", r1, Lexer([], None, false, false));
    LexOne("//", r1, Lexer([], None, false, false), Token(StartOfScope, "//"), Lexer([LineComment], Some(StartOfScope), false, false));
  }

  lemma CRLFAfterCommentStep1()
    ensures Lex("foo" + ("\r\n" + ("//" + ("bar" + ""))), Lexer([LineComment], Some(StartOfScope), false, false)) ==
            [Token(CommentBody, "foo")] + Lex("\r\n" + ("//" + ("bar" + "")), Lexer([LineComment], Some(CommentBody), false, false))
  {
    var r5 := "";
    var r4 := "bar" + r5;
    var r3 := "//" + r4;
    var r2 := "\r\n" + r3;
    var r1 := "foo" + r2;
    LineCommentWord("foo", r2, Lexer([LineComment], Some(StartOfScope), false, false));
    LexOne("foo", r2, Lexer([LineComment], Some(StartOfScope), false, false), Token(CommentBody, "foo"), Lexer([LineComment], Some(CommentBody), false, false));
  }

  lemma CRLFAfterCommentStep2()
    ensures Lex("\r\n" + ("//" + ("bar" + "")), Lexer([LineComment], Some(CommentBody), false, false)) ==
            [Token(Linebreak, "\r\n")] + Lex("//" + ("bar" + ""), Lexer([], Some(Linebreak), false, false))
  {
    var r5 := "";
    var r4 := "bar" + r5;
    var r3 := "//" + r4;
    var r2 := "\r\n" + r3;
    LineCommentEnd("\r\n", r3, Lexer([LineComment], Some(CommentBody), false, false));
    LexOne("\r\n", r3, Lexer([LineComment], Some(CommentBody), false, false), Token(Linebreak, "\r\n"), Lexer([], Some(Linebreak), false, false));
  }

  lemma CRLFAfterCommentStep3()
    ensures Lex("//" + ("bar" + ""), Lexer([], Some(Linebreak), false, false)) ==
            [Token(StartOfScope, "//")] + Lex("bar" + "", Lexer([LineComment], Some(StartOfScope), false, false))
  {
    var r5 := "";
    var r4 := "bar" + r5;
    var r3 := "//" + r4;
    CodeCommentOpen("//", r4, Lexer([], Some(Linebreak), false, false));
    LexOne("//", r4, Lexer([], Some(Linebreak), false, false), Token(StartOfScope, "//"), Lexer([LineComment], Some(StartOfScope), false, false));
  }

  lemma CRLFAfterCommentStep4()
    ensures Lex("bar" + "", Lexer([LineComment], Some(StartOfScope), false, false)) ==
            [Token(CommentBody, "bar")] + Lex("", Lexer([LineComment], Some(CommentBody), false, false))
  {
    var r5 := "";
    var r4 := "bar" + r5;
    LineCommentWord("bar", r5, Lexer([LineComment], Some(StartOfScope), false, false));
    LexOne("bar", r5, Lexer([LineComment], Some(StartOfScope), false, false), Token(CommentBody, "bar"), Lexer([LineComment], Some(CommentBody), false, false));
  }

  // SwiftFormatTests/TokenizerTests.swift:1062-1072
  lemma CRLFInMultilineComment()
    ensures Tokenize("/*" + ("foo" + ("\r\n" + ("bar" + ("*/" + ""))))) ==
            [Token(StartOfScope, "/*")] + ([Token(CommentBody, "foo")] + ([Token(Linebreak, "\r\n")] + ([Token(CommentBody, "bar")] + ([Token(EndOfScope, "*/")] + []))))
  {
    CRLFInMultilineCommentStep0();
    CRLFInMultilineCommentStep1();
    CRLFInMultilineCommentStep2();
    CRLFInMultilineCommentStep3();
    CRLFInMultilineCommentStep4();
  }

  lemma CRLFInMultilineCommentStep0()
    ensures Lex("/*" + ("foo" + ("\r\n" + ("bar" + ("*/" + "")))), Lexer([], None, false, false)) ==
            [Token(StartOfScope, "/*")] + Lex("foo" + ("\r\n" + ("bar" + ("*/" + ""))), Lexer([BlockComment], Some(StartOfScope), false, false))
  {
    var r5 := "";
    var r4 := "*/" + r5;
    var r3 := "bar" + r4;
    var r2 := "\r\n" + r3;
    var r1 := "foo" + r2;
    var r0 := "/*" + r1;
    CodeCommentOpen("/*", r1, Lexer([], None, false, false));
    LexOne("/*", r1, Lexer([], None, false, false), Token(StartOfScope, "/*"), Lexer([BlockComment], Some(StartOfScope), false, false));
  }

  lemma CRLFInMultilineCommentStep1()
    ensures Lex("foo" + ("\r\n" + ("bar" + ("*/" + ""))), Lexer([BlockComment], Some(StartOfScope), false, false)) ==
            [Token(CommentBody, "foo")] + Lex("\r\n" + ("bar" + ("*/" + "")), Lexer([BlockComment], Some(CommentBody), false, false))
  {
    var r5 := "";
    var r4 := "*/" + r5;
    var r3 := "bar" + r4;
    var r2 := "\r\n" + r3;
    var r1 := "foo" + r2;
    BlockCommentWord("foo", r2, Lexer([BlockComment], Some(StartOfScope), false, false));
    LexOne("foo", r2, Lexer([BlockComment], Some(StartOfScope), false, false), Token(CommentBody, "foo"), Lexer([BlockComment], Some(CommentBody), false, false));
  }

  lemma CRLFInMultilineCommentStep2()
    ensures Lex("\r\n" + ("bar" + ("*/" + "")), Lexer([BlockComment], Some(CommentBody), false, false)) ==
            [Token(Linebreak, "\r\n")] + Lex("bar" + ("*/" + ""), Lexer([BlockComment], Some(Linebreak), false, false))
  {
    var r5 := "";
    var r4 := "*/" + r5;
    var r3 := "bar" + r4;
    var r2 := "\r\n" + r3;
    BlockCommentLinebreak("\r\n", r3, Lexer([BlockComment], Some(CommentBody), false, false));
    LexOne("\r\n", r3, Lexer([BlockComment], Some(CommentBody), false, false), Token(Linebreak, "\r\n"), Lexer([BlockComment], Some(Linebreak), false, false));
  }

  lemma CRLFInMultilineCommentStep3()
    ensures Lex("bar" + ("*/" + ""), Lexer([BlockComment], Some(Linebreak), false, false)) ==
            [Token(CommentBody, "bar")] + Lex("*/" + "", Lexer([BlockComment], Some(CommentBody), false, false))
  {
    var r5 := "";
    var r4 := "*/" + r5;
    var r3 := "bar" + r4;
    BlockCommentWord("bar", r4, Lexer([BlockComment], Some(Linebreak), false, false));
    LexOne("bar", r4, Lexer([BlockComment], Some(Linebreak), false, false), Token(CommentBody, "bar"), Lexer([BlockComment], Some(CommentBody), false, false));
  }

  lemma CRLFInMultilineCommentStep4()
    ensures Lex("*/" + "", Lexer([BlockComment], Some(CommentBody), false, false)) ==
            [Token(EndOfScope, "*/")] + Lex("", Lexer([], Some(EndOfScope), false, false))
  {
    var r5 := "";
    var r4 := "*/" + r5;
    BlockCommentClose(r5, Lexer([BlockComment], Some(CommentBody), false, false));
    LexOne("*/", r5, Lexer([BlockComment], Some(CommentBody), false, false), Token(EndOfScope, "*/"), Lexer([], Some(EndOfScope), false, false));
  }
}
