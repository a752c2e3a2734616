/**
 * The tokenizer's expected output for string literals, one lemma per test case
 * of SwiftFormatTests/TokenizerTests.swift.  Each input and each expected
 * token list is written as a right-nested concatenation, one piece per token,
 * so that the proof can take the tokens one at a time: lemma <Case>Step<k>
 * scans token k, <Case>From<k> joins a group of eight scans, and
 * <Case>Probe<k> settles the lookahead for a `<` at token k.
 */
module StringTests {
  import opened Wrappers
  import opened Tokenizer
  import opened Scanning
  import opened Steps

  // SwiftFormatTests/TokenizerTests.swift:63-70
  lemma EmptyString()
    ensures Tokenize("\"" + ("\"" + "")) ==
            [Token(StartOfScope, "\"")] + ([Token(EndOfScope, "\"")] + [])
  {
    EmptyStringStep0();
    EmptyStringStep1();
  }

  lemma EmptyStringStep0()
    ensures Lex("\"" + ("\"" + ""), Lexer([], None, false, false)) ==
            [Token(StartOfScope, "\"")] + Lex("\"" + "", Lexer([StringScope], Some(StartOfScope), false, false))
  {
    var r2 := "";
    var r1 := "\"" + r2;
    var r0 := "\"" + r1;
    CodeStringOpen(r1, Lexer([], None, false, false));
    LexOne("\"", r1, Lexer([], None, false, false), Token(StartOfScope, "\""), Lexer([StringScope], Some(StartOfScope), false, false));
  }

  lemma EmptyStringStep1()
    ensures Lex("\"" + "", Lexer([StringScope], Some(StartOfScope), false, false)) ==
            [Token(EndOfScope, "\"")] + Lex("", Lexer([], Some(EndOfScope), false, false))
  {
    var r2 := "";
    var r1 := "\"" + r2;
    StringClose(r2, Lexer([StringScope], Some(StartOfScope), false, false));
    LexOne("\"", r2, Lexer([StringScope], Some(StartOfScope), false, false), Token(EndOfScope, "\""), Lexer([], Some(EndOfScope), false, false));
  }

  // SwiftFormatTests/TokenizerTests.swift:72-80
  lemma SimpleString()
    ensures Tokenize("\"" + ("foo" + ("\"" + ""))) ==
            [Token(StartOfScope, "\"")] + ([Token(StringBody, "foo")] + ([Token(EndOfScope, "\"")] + []))
  {
    SimpleStringStep0();
    SimpleStringStep1();
    SimpleStringStep2();
  }

  lemma SimpleStringStep0()
    ensures Lex("\"" + ("foo" + ("\"" + "")), Lexer([], None, false, false)) ==
            [Token(StartOfScope, "\"")] + Lex("foo" + ("\"" + ""), Lexer([StringScope], Some(StartOfScope), false, false))
  {
    var r3 := "";
    var r2 := "\"" + r3;
    var r1 := "foo" + r2;
    var r0 := "\"" + r1;
    CodeStringOpen(r1, Lexer([], None, false, false));
    LexOne("\"", r1, Lexer([], None, false, false), Token(StartOfScope, "\""), Lexer([StringScope], Some(StartOfScope), false, false));
  }

  lemma SimpleStringStep1()
    ensures Lex("foo" + ("\"" + ""), Lexer([StringScope], Some(StartOfScope), false, false)) ==
            [Token(StringBody, "foo")] + Lex("\"" + "", Lexer([StringScope], Some(StringBody), false, false))
  {
    var r3 := "";
    var r2 := "\"" + r3;
    var r1 := "foo" + r2;
    StringTextOf("foo", r2);
    StringBodyToken("foo", r2, Lexer([StringScope], Some(StartOfScope), false, false));
    LexOne("foo", r2, Lexer([StringScope], Some(StartOfScope), false, false), Token(StringBody, "foo"), Lexer([StringScope], Some(StringBody), false, false));
  }

  lemma SimpleStringStep2()
    ensures Lex("\"" + "", Lexer([StringScope], Some(StringBody), false, false)) ==
            [Token(EndOfScope, "\"")] + Lex("", Lexer([], Some(EndOfScope), false, false))
  {
    var r3 := "";
    var r2 := "\"" + r3;
    StringClose(r3, Lexer([StringScope], Some(StringBody), false, false));
    LexOne("\"", r3, Lexer([StringScope], Some(StringBody), false, false), Token(EndOfScope, "\""), Lexer([], Some(EndOfScope), false, false));
  }

  // SwiftFormatTests/TokenizerTests.swift:82-90
  lemma StringWithEscape()
    ensures Tokenize("\"" + ("hello\\tworld" + ("\"" + ""))) ==
            [Token(StartOfScope, "\"")] + ([Token(StringBody, "hello\\tworld")] + ([Token(EndOfScope, "\"")] + []))
  {
    StringWithEscapeStep0();
    StringWithEscapeStep1();
    StringWithEscapeStep2();
  }

  lemma StringWithEscapeStep0()
    ensures Lex("\"" + ("hello\\tworld" + ("\"" + "")), Lexer([], None, false, false)) ==
            [Token(StartOfScope, "\"")] + Lex("hello\\tworld" + ("\"" + ""), Lexer([StringScope], Some(StartOfScope), false, false))
  {
    var r3 := "";
    var r2 := "\"" + r3;
    var r1 := "hello\\tworld" + r2;
    var r0 := "\"" + r1;
    CodeStringOpen(r1, Lexer([], None, false, false));
    LexOne("\"", r1, Lexer([], None, false, false), Token(StartOfScope, "\""), Lexer([StringScope], Some(StartOfScope), false, false));
  }

  lemma StringWithEscapeStep1()
    ensures Lex("hello\\tworld" + ("\"" + ""), Lexer([StringScope], Some(StartOfScope), false, false)) ==
            [Token(StringBody, "hello\\tworld")] + Lex("\"" + "", Lexer([StringScope], Some(StringBody), false, false))
  {
    var r3 := "";
    var r2 := "\"" + r3;
    var r1 := "hello\\tworld" + r2;
    StringWithEscapeBody1();
    StringBodyToken("hello\\tworld", r2, Lexer([StringScope], Some(StartOfScope), false, false));
    LexOne("hello\\tworld", r2, Lexer([StringScope], Some(StartOfScope), false, false), Token(StringBody, "hello\\tworld"), Lexer([StringScope], Some(StringBody), false, false));
  }

  lemma StringWithEscapeBody1()
    ensures StringBodyLen("hello\\tworld" + ("\"" + "")) == 12
  {
    var r3 := "";
    var r2 := "\"" + r3;
    assert "hello\\tworld" + r2 == "hello" + ("\\t" + ("world" + r2));
    StringTextOf("hello", "\\t" + ("world" + r2));
    StringEscapeOf("\\t", "world" + r2);
    StringTextOf("world", r2);
  }

  lemma StringWithEscapeStep2()
    ensures Lex("\"" + "", Lexer([StringScope], Some(StringBody), false, false)) ==
            [Token(EndOfScope, "\"")] + Lex("", Lexer([], Some(EndOfScope), false, false))
  {
    var r3 := "";
    var r2 := "\"" + r3;
    StringClose(r3, Lexer([StringScope], Some(StringBody), false, false));
    LexOne("\"", r3, Lexer([StringScope], Some(StringBody), false, false), Token(EndOfScope, "\""), Lexer([], Some(EndOfScope), false, false));
  }

  // SwiftFormatTests/TokenizerTests.swift:92-100
  lemma StringWithEscapedQuotes()
    ensures Tokenize("\"" + ("\\\"nice\\\" to meet you" + ("\"" + ""))) ==
            [Token(StartOfScope, "\"")] + ([Token(StringBody, "\\\"nice\\\" to meet you")] + ([Token(EndOfScope, "\"")] + []))
  {
    StringWithEscapedQuotesStep0();
    StringWithEscapedQuotesStep1();
    StringWithEscapedQuotesStep2();
  }

  lemma StringWithEscapedQuotesStep0()
    ensures Lex("\"" + ("\\\"nice\\\" to meet you" + ("\"" + "")), Lexer([], None, false, false)) ==
            [Token(StartOfScope, "\"")] + Lex("\\\"nice\\\" to meet you" + ("\"" + ""), Lexer([StringScope], Some(StartOfScope), false, false))
  {
    var r3 := "";
    var r2 := "\"" + r3;
    var r1 := "\\\"nice\\\" to meet you" + r2;
    var r0 := "\"" + r1;
    CodeStringOpen(r1, Lexer([], None, false, false));
    LexOne("\"", r1, Lexer([], None, false, false), Token(StartOfScope, "\""), Lexer([StringScope], Some(StartOfScope), false, false));
  }

  lemma StringWithEscapedQuotesStep1()
    ensures Lex("\\\"nice\\\" to meet you" + ("\"" + ""), Lexer([StringScope], Some(StartOfScope), false, false)) ==
            [Token(StringBody, "\\\"nice\\\" to meet you")] + Lex("\"" + "", Lexer([StringScope], Some(StringBody), false, false))
  {
    var r3 := "";
    var r2 := "\"" + r3;
    var r1 := "\\\"nice\\\" to meet you" + r2;
    StringWithEscapedQuotesBody1();
    StringBodyToken("\\\"nice\\\" to meet you", r2, Lexer([StringScope], Some(StartOfScope), false, false));
    LexOne("\\\"nice\\\" to meet you", r2, Lexer([StringScope], Some(StartOfScope), false, false), Token(StringBody, "\\\"nice\\\" to meet you"), Lexer([StringScope], Some(StringBody), false, false));
  }

  lemma StringWithEscapedQuotesBody1()
    ensures StringBodyLen("\\\"nice\\\" to meet you" + ("\"" + "")) == 20
  {
    var r3 := "";
    var r2 := "\"" + r3;
    assert "\\\"nice\\\" to meet you" + r2 == "\\\"" + ("nice" + ("\\\"" + (" to meet you" + r2)));
    StringEscapeOf("\\\"", "nice" + ("\\\"" + (" to meet you" + r2)));
    StringTextOf("nice", "\\\"" + (" to meet you" + r2));
    StringEscapeOf("\\\"", " to meet you" + r2);
    StringTextOf(" to meet you", r2);
  }

  lemma StringWithEscapedQuotesStep2()
    ensures Lex("\"" + "", Lexer([StringScope], Some(StringBody), false, false)) ==
            [Token(EndOfScope, "\"")] + Lex("", Lexer([], Some(EndOfScope), false, false))
  {
    var r3 := "";
    var r2 := "\"" + r3;
    StringClose(r3, Lexer([StringScope], Some(StringBody), false, false));
    LexOne("\"", r3, Lexer([StringScope], Some(StringBody), false, false), Token(EndOfScope, "\""), Lexer([], Some(EndOfScope), false, false));
  }

  // SwiftFormatTests/TokenizerTests.swift:102-113
  lemma StringWithEscapedLogic()
    ensures Tokenize("\"" + ("hello \\" + ("(" + ("name" + (")" + ("\"" + "")))))) ==
            [Token(StartOfScope, "\"")] + ([Token(StringBody, "hello \\")] + ([Token(StartOfScope, "(")] + ([Token(Identifier, "name")] + ([Token(EndOfScope, ")")] + ([Token(EndOfScope, "\"")] + [])))))
  {
    StringWithEscapedLogicStep0();
    StringWithEscapedLogicStep1();
    StringWithEscapedLogicStep2();
    StringWithEscapedLogicStep3();
    StringWithEscapedLogicStep4();
    StringWithEscapedLogicStep5();
  }

  lemma StringWithEscapedLogicStep0()
    ensures Lex("\"" + ("hello \\" + ("(" + ("name" + (")" + ("\"" + ""))))), Lexer([], None, false, false)) ==
            [Token(StartOfScope, "\"")] + Lex("hello \\" + ("(" + ("name" + (")" + ("\"" + "")))), Lexer([StringScope], Some(StartOfScope), false, false))
  {
    var r6 := "";
    var r5 := "\"" + r6;
    var r4 := ")" + r5;
    var r3 := "name" + r4;
    var r2 := "(" + r3;
    var r1 := "hello \\" + r2;
    var r0 := "\"" + r1;
    CodeStringOpen(r1, Lexer([], None, false, false));
    LexOne("\"", r1, Lexer([], None, false, false), Token(StartOfScope, "\""), Lexer([StringScope], Some(StartOfScope), false, false));
  }

  lemma StringWithEscapedLogicStep1()
    ensures Lex("hello \\" + ("(" + ("name" + (")" + ("\"" + "")))), Lexer([StringScope], Some(StartOfScope), false, false)) ==
            [Token(StringBody, "hello \\")] + Lex("(" + ("name" + (")" + ("\"" + ""))), Lexer([StringScope], Some(StringBody), false, false))
  {
    var r6 := "";
    var r5 := "\"" + r6;
    var r4 := ")" + r5;
    var r3 := "name" + r4;
    var r2 := "(" + r3;
    var r1 := "hello \\" + r2;
    StringWithEscapedLogicBody1();
    StringBodyToken("hello \\", r2, Lexer([StringScope], Some(StartOfScope), false, false));
    LexOne("hello \\", r2, Lexer([StringScope], Some(StartOfScope), false, false), Token(StringBody, "hello \\"), Lexer([StringScope], Some(StringBody), false, false));
  }

  lemma StringWithEscapedLogicBody1()
    ensures StringBodyLen("hello \\" + ("(" + ("name" + (")" + ("\"" + ""))))) == 7
  {
    var r6 := "";
    var r5 := "\"" + r6;
    var r4 := ")" + r5;
    var r3 := "name" + r4;
    var r2 := "(" + r3;
    assert "hello \\" + r2 == "hello " + ("\\" + r2);
    StringTextOf("hello ", "\\" + r2);
    StringInterpolationOf(r2);
  }

  lemma StringWithEscapedLogicStep2()
    ensures Lex("(" + ("name" + (")" + ("\"" + ""))), Lexer([StringScope], Some(StringBody), false, false)) ==
            [Token(StartOfScope, "(")] + Lex("name" + (")" + ("\"" + "")), Lexer([StringScope, Interpolation], Some(StartOfScope), false, false))
  {
    var r6 := "";
    var r5 := "\"" + r6;
    var r4 := ")" + r5;
    var r3 := "name" + r4;
    var r2 := "(" + r3;
    StringInterpolation(r3, Lexer([StringScope], Some(StringBody), false, false));
    LexOne("(", r3, Lexer([StringScope], Some(StringBody), false, false), Token(StartOfScope, "("), Lexer([StringScope, Interpolation], Some(StartOfScope), false, false));
  }

  lemma StringWithEscapedLogicStep3()
    ensures Lex("name" + (")" + ("\"" + "")), Lexer([StringScope, Interpolation], Some(StartOfScope), false, false)) ==
            [Token(Identifier, "name")] + Lex(")" + ("\"" + ""), Lexer([StringScope, Interpolation], Some(Identifier), false, false))
  {
    var r6 := "";
    var r5 := "\"" + r6;
    var r4 := ")" + r5;
    var r3 := "name" + r4;
    CodeIdentifier("name", r4, Lexer([StringScope, Interpolation], Some(StartOfScope), false, false));
    LexOne("name", r4, Lexer([StringScope, Interpolation], Some(StartOfScope), false, false), Token(Identifier, "name"), Lexer([StringScope, Interpolation], Some(Identifier), false, false));
  }

  lemma StringWithEscapedLogicStep4()
    ensures Lex(")" + ("\"" + ""), Lexer([StringScope, Interpolation], Some(Identifier), false, false)) ==
            [Token(EndOfScope, ")")] + Lex("\"" + "", Lexer([StringScope], Some(EndOfScope), false, false))
  {
    var r6 := "";
    var r5 := "\"" + r6;
    var r4 := ")" + r5;
    CodeClose(")", r5, Lexer([StringScope, Interpolation], Some(Identifier), false, false));
    LexOne(")", r5, Lexer([StringScope, Interpolation], Some(Identifier), false, false), Token(EndOfScope, ")"), Lexer([StringScope], Some(EndOfScope), false, false));
  }

  lemma StringWithEscapedLogicStep5()
    ensures Lex("\"" + "", Lexer([StringScope], Some(EndOfScope), false, false)) ==
            [Token(EndOfScope, "\"")] + Lex("", Lexer([], Some(EndOfScope), false, false))
  {
    var r6 := "";
    var r5 := "\"" + r6;
    StringClose(r6, Lexer([StringScope], Some(EndOfScope), false, false));
    LexOne("\"", r6, Lexer([StringScope], Some(EndOfScope), false, false), Token(EndOfScope, "\""), Lexer([], Some(EndOfScope), false, false));
  }

  // SwiftFormatTests/TokenizerTests.swift:115-123
  lemma StringWithEscapedBackslash()
    ensures Tokenize("\"" + ("\\\\" + ("\"" + ""))) ==
            [Token(StartOfScope, "\"")] + ([Token(StringBody, "\\\\")] + ([Token(EndOfScope, "\"")] + []))
  {
    StringWithEscapedBackslashStep0();
    StringWithEscapedBackslashStep1();
    StringWithEscapedBackslashStep2();
  }

  lemma StringWithEscapedBackslashStep0()
    ensures Lex("\"" + ("\\\\" + ("\"" + "")), Lexer([], None, false, false)) ==
            [Token(StartOfScope, "\"")] + Lex("\\\\" + ("\"" + ""), Lexer([StringScope], Some(StartOfScope), false, false))
  {
    var r3 := "";
    var r2 := "\"" + r3;
    var r1 := "\\\\" + r2;
    var r0 := "\"" + r1;
    CodeStringOpen(r1, Lexer([], None, false, false));
    LexOne("\"", r1, Lexer([], None, false, false), Token(StartOfScope, "\""), Lexer([StringScope], Some(StartOfScope), false, false));
  }

  lemma StringWithEscapedBackslashStep1()
    ensures Lex("\\\\" + ("\"" + ""), Lexer([StringScope], Some(StartOfScope), false, false)) ==
            [Token(StringBody, "\\\\")] + Lex("\"" + "", Lexer([StringScope], Some(StringBody), false, false))
  {
    var r3 := "";
    var r2 := "\"" + r3;
    var r1 := "\\\\" + r2;
    StringEscapeOf("\\\\", r2);
    StringBodyToken("\\\\", r2, Lexer([StringScope], Some(StartOfScope), false, false));
    LexOne("\\\\", r2, Lexer([StringScope], Some(StartOfScope), false, false), Token(StringBody, "\\\\"), Lexer([StringScope], Some(StringBody), false, false));
  }

  lemma StringWithEscapedBackslashStep2()
    ensures Lex("\"" + "", Lexer([StringScope], Some(StringBody), false, false)) ==
            [Token(EndOfScope, "\"")] + Lex("", Lexer([], Some(EndOfScope), false, false))
  {
    var r3 := "";
    var r2 := "\"" + r3;
    StringClose(r3, Lexer([StringScope], Some(StringBody), false, false));
    LexOne("\"", r3, Lexer([StringScope], Some(StringBody), false, false), Token(EndOfScope, "\""), Lexer([], Some(EndOfScope), false, false));
  }
}
