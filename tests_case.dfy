/**
 * The tokenizer's expected output for case and default labels, one lemma per test case
 * of SwiftFormatTests/TokenizerTests.swift.  Each input and each expected
 * token list is written as a right-nested concatenation, one piece per token,
 * so that the proof can take the tokens one at a time: lemma <Case>Step<k>
 * scans token k, <Case>From<k> joins a group of eight scans, and
 * <Case>Probe<k> settles the lookahead for a `<` at token k.
 */
module CaseTests {
  import opened Wrappers
  import opened Tokenizer
  import opened Scanning
  import opened Steps

  // SwiftFormatTests/TokenizerTests.swift:922-939
  lemma SingleLineEnum()
    ensures Tokenize("enum" + (" " + ("Foo" + (" " + ("{" + ("case" + (" " + ("Bar" + ("," + (" " + ("Baz" + ("}" + "")))))))))))) ==
            [Token(Identifier, "enum")] + ([Token(Whitespace, " ")] + ([Token(Identifier, "Foo")] + ([Token(Whitespace, " ")] + ([Token(StartOfScope, "{")] + ([Token(Identifier, "case")] + ([Token(Whitespace, " ")] + ([Token(Identifier, "Bar")] + ([Token(Operator, ",")] + ([Token(Whitespace, " ")] + ([Token(Identifier, "Baz")] + ([Token(EndOfScope, "}")] + [])))))))))))
  {
    SingleLineEnumStep0();
    SingleLineEnumStep1();
    SingleLineEnumStep2();
    SingleLineEnumStep3();
    SingleLineEnumStep4();
    SingleLineEnumStep5();
    SingleLineEnumStep6();
    SingleLineEnumStep7();
    SingleLineEnumFrom8();
  }

  lemma SingleLineEnumFrom8()
    ensures Lex("," + (" " + ("Baz" + ("}" + ""))), Lexer([Brace(false)], Some(Identifier), false, false)) ==
            [Token(Operator, ",")] + ([Token(Whitespace, " ")] + ([Token(Identifier, "Baz")] + ([Token(EndOfScope, "}")] + Lex("", Lexer([], Some(EndOfScope), false, false)))))
  {
    SingleLineEnumStep8();
    SingleLineEnumStep9();
    SingleLineEnumStep10();
    SingleLineEnumStep11();
  }

  lemma SingleLineEnumStep0()
    ensures Lex("enum" + (" " + ("Foo" + (" " + ("{" + ("case" + (" " + ("Bar" + ("," + (" " + ("Baz" + ("}" + ""))))))))))), Lexer([], None, false, false)) ==
            [Token(Identifier, "enum")] + Lex(" " + ("Foo" + (" " + ("{" + ("case" + (" " + ("Bar" + ("," + (" " + ("Baz" + ("}" + "")))))))))), Lexer([], Some(Identifier), false, false))
  {
    var r12 := "";
    var r11 := "}" + r12;
    var r10 := "Baz" + r11;
    var r9 := " " + r10;
    var r8 := "," + r9;
    var r7 := "Bar" + r8;
    var r6 := " " + r7;
    var r5 := "case" + r6;
    var r4 := "{" + r5;
    var r3 := " " + r4;
    var r2 := "Foo" + r3;
    var r1 := " " + r2;
    var r0 := "enum" + r1;
    CodeIdentifier("enum", r1, Lexer([], None, false, false));
    LexOne("enum", r1, Lexer([], None, false, false), Token(Identifier, "enum"), Lexer([], Some(Identifier), false, false));
  }

  lemma SingleLineEnumStep1()
    ensures Lex(" " + ("Foo" + (" " + ("{" + ("case" + (" " + ("Bar" + ("," + (" " + ("Baz" + ("}" + "")))))))))), Lexer([], Some(Identifier), false, false)) ==
            [Token(Whitespace, " ")] + Lex("Foo" + (" " + ("{" + ("case" + (" " + ("Bar" + ("," + (" " + ("Baz" + ("}" + ""))))))))), Lexer([], Some(Whitespace), false, false))
  {
    var r12 := "";
    var r11 := "}" + r12;
    var r10 := "Baz" + r11;
    var r9 := " " + r10;
    var r8 := "," + r9;
    var r7 := "Bar" + r8;
    var r6 := " " + r7;
    var r5 := "case" + r6;
    var r4 := "{" + r5;
    var r3 := " " + r4;
    var r2 := "Foo" + r3;
    var r1 := " " + r2;
    WhitespaceToken(" ", r2, Lexer([], Some(Identifier), false, false));
    LexOne(" ", r2, Lexer([], Some(Identifier), false, false), Token(Whitespace, " "), Lexer([], Some(Whitespace), false, false));
  }

  lemma SingleLineEnumStep2()
    ensures Lex("Foo" + (" " + ("{" + ("case" + (" " + ("Bar" + ("," + (" " + ("Baz" + ("}" + ""))))))))), Lexer([], Some(Whitespace), false, false)) ==
            [Token(Identifier, "Foo")] + Lex(" " + ("{" + ("case" + (" " + ("Bar" + ("," + (" " + ("Baz" + ("}" + "")))))))), Lexer([], Some(Identifier), false, false))
  {
    var r12 := "";
    var r11 := "}" + r12;
    var r10 := "Baz" + r11;
    var r9 := " " + r10;
    var r8 := "," + r9;
    var r7 := "Bar" + r8;
    var r6 := " " + r7;
    var r5 := "case" + r6;
    var r4 := "{" + r5;
    var r3 := " " + r4;
    var r2 := "Foo" + r3;
    CodeIdentifier("Foo", r3, Lexer([], Some(Whitespace), false, false));
    LexOne("Foo", r3, Lexer([], Some(Whitespace), false, false), Token(Identifier, "Foo"), Lexer([], Some(Identifier), false, false));
  }

  lemma SingleLineEnumStep3()
    ensures Lex(" " + ("{" + ("case" + (" " + ("Bar" + ("," + (" " + ("Baz" + ("}" + "")))))))), Lexer([], Some(Identifier), false, false)) ==
            [Token(Whitespace, " ")] + Lex("{" + ("case" + (" " + ("Bar" + ("," + (" " + ("Baz" + ("}" + ""))))))), Lexer([], Some(Whitespace), false, false))
  {
    var r12 := "";
    var r11 := "}" + r12;
    var r10 := "Baz" + r11;
    var r9 := " " + r10;
    var r8 := "," + r9;
    var r7 := "Bar" + r8;
    var r6 := " " + r7;
    var r5 := "case" + r6;
    var r4 := "{" + r5;
    var r3 := " " + r4;
    WhitespaceToken(" ", r4, Lexer([], Some(Identifier), false, false));
    LexOne(" ", r4, Lexer([], Some(Identifier), false, false), Token(Whitespace, " "), Lexer([], Some(Whitespace), false, false));
  }

  lemma SingleLineEnumStep4()
    ensures Lex("{" + ("case" + (" " + ("Bar" + ("," + (" " + ("Baz" + ("}" + ""))))))), Lexer([], Some(Whitespace), false, false)) ==
            [Token(StartOfScope, "{")] + Lex("case" + (" " + ("Bar" + ("," + (" " + ("Baz" + ("}" + "")))))), Lexer([Brace(false)], Some(StartOfScope), false, false))
  {
    var r12 := "";
    var r11 := "}" + r12;
    var r10 := "Baz" + r11;
    var r9 := " " + r10;
    var r8 := "," + r9;
    var r7 := "Bar" + r8;
    var r6 := " " + r7;
    var r5 := "case" + r6;
    var r4 := "{" + r5;
    CodeBraceOpen(r5, Lexer([], Some(Whitespace), false, false));
    LexOne("{", r5, Lexer([], Some(Whitespace), false, false), Token(StartOfScope, "{"), Lexer([Brace(false)], Some(StartOfScope), false, false));
  }

  lemma SingleLineEnumStep5()
    ensures Lex("case" + (" " + ("Bar" + ("," + (" " + ("Baz" + ("}" + "")))))), Lexer([Brace(false)], Some(StartOfScope), false, false)) ==
            [Token(Identifier, "case")] + Lex(" " + ("Bar" + ("," + (" " + ("Baz" + ("}" + ""))))), Lexer([Brace(false)], Some(Identifier), false, false))
  {
    var r12 := "";
    var r11 := "}" + r12;
    var r10 := "Baz" + r11;
    var r9 := " " + r10;
    var r8 := "," + r9;
    var r7 := "Bar" + r8;
    var r6 := " " + r7;
    var r5 := "case" + r6;
    CodeIdentifier("case", r6, Lexer([Brace(false)], Some(StartOfScope), false, false));
    LexOne("case", r6, Lexer([Brace(false)], Some(StartOfScope), false, false), Token(Identifier, "case"), Lexer([Brace(false)], Some(Identifier), false, false));
  }

  lemma SingleLineEnumStep6()
    ensures Lex(" " + ("Bar" + ("," + (" " + ("Baz" + ("}" + ""))))), Lexer([Brace(false)], Some(Identifier), false, false)) ==
            [Token(Whitespace, " ")] + Lex("Bar" + ("," + (" " + ("Baz" + ("}" + "")))), Lexer([Brace(false)], Some(Whitespace), false, false))
  {
    var r12 := "";
    var r11 := "}" + r12;
    var r10 := "Baz" + r11;
    var r9 := " " + r10;
    var r8 := "," + r9;
    var r7 := "Bar" + r8;
    var r6 := " " + r7;
    WhitespaceToken(" ", r7, Lexer([Brace(false)], Some(Identifier), false, false));
    LexOne(" ", r7, Lexer([Brace(false)], Some(Identifier), false, false), Token(Whitespace, " "), Lexer([Brace(false)], Some(Whitespace), false, false));
  }

  lemma SingleLineEnumStep7()
    ensures Lex("Bar" + ("," + (" " + ("Baz" + ("}" + "")))), Lexer([Brace(false)], Some(Whitespace), false, false)) ==
            [Token(Identifier, "Bar")] + Lex("," + (" " + ("Baz" + ("}" + ""))), Lexer([Brace(false)], Some(Identifier), false, false))
  {
    var r12 := "";
    var r11 := "}" + r12;
    var r10 := "Baz" + r11;
    var r9 := " " + r10;
    var r8 := "," + r9;
    var r7 := "Bar" + r8;
    CodeIdentifier("Bar", r8, Lexer([Brace(false)], Some(Whitespace), false, false));
    LexOne("Bar", r8, Lexer([Brace(false)], Some(Whitespace), false, false), Token(Identifier, "Bar"), Lexer([Brace(false)], Some(Identifier), false, false));
  }

  lemma SingleLineEnumStep8()
    ensures Lex("," + (" " + ("Baz" + ("}" + ""))), Lexer([Brace(false)], Some(Identifier), false, false)) ==
            [Token(Operator, ",")] + Lex(" " + ("Baz" + ("}" + "")), Lexer([Brace(false)], Some(Operator), false, false))
  {
    var r12 := "";
    var r11 := "}" + r12;
    var r10 := "Baz" + r11;
    var r9 := " " + r10;
    var r8 := "," + r9;
    CodePunctuation(",", r9, Lexer([Brace(false)], Some(Identifier), false, false));
    LexOne(",", r9, Lexer([Brace(false)], Some(Identifier), false, false), Token(Operator, ","), Lexer([Brace(false)], Some(Operator), false, false));
  }

  lemma SingleLineEnumStep9()
    ensures Lex(" " + ("Baz" + ("}" + "")), Lexer([Brace(false)], Some(Operator), false, false)) ==
            [Token(Whitespace, " ")] + Lex("Baz" + ("}" + ""), Lexer([Brace(false)], Some(Whitespace), false, false))
  {
    var r12 := "";
    var r11 := "}" + r12;
    var r10 := "Baz" + r11;
    var r9 := " " + r10;
    WhitespaceToken(" ", r10, Lexer([Brace(false)], Some(Operator), false, false));
    LexOne(" ", r10, Lexer([Brace(false)], Some(Operator), false, false), Token(Whitespace, " "), Lexer([Brace(false)], Some(Whitespace), false, false));
  }

  lemma SingleLineEnumStep10()
    ensures Lex("Baz" + ("}" + ""), Lexer([Brace(false)], Some(Whitespace), false, false)) ==
            [Token(Identifier, "Baz")] + Lex("}" + "", Lexer([Brace(false)], Some(Identifier), false, false))
  {
    var r12 := "";
    var r11 := "}" + r12;
    var r10 := "Baz" + r11;
    CodeIdentifier("Baz", r11, Lexer([Brace(false)], Some(Whitespace), false, false));
    LexOne("Baz", r11, Lexer([Brace(false)], Some(Whitespace), false, false), Token(Identifier, "Baz"), Lexer([Brace(false)], Some(Identifier), false, false));
  }

  lemma SingleLineEnumStep11()
    ensures Lex("}" + "", Lexer([Brace(false)], Some(Identifier), false, false)) ==
            [Token(EndOfScope, "}")] + Lex("", Lexer([], Some(EndOfScope), false, false))
  {
    var r12 := "";
    var r11 := "}" + r12;
    CodeClose("}", r12, Lexer([Brace(false)], Some(Identifier), false, false));
    LexOne("}", r12, Lexer([Brace(false)], Some(Identifier), false, false), Token(EndOfScope, "}"), Lexer([], Some(EndOfScope), false, false));
  }

  // SwiftFormatTests/TokenizerTests.swift:941-961
  lemma SingleLineGenericEnum()
    ensures Tokenize("enum" + (" " + ("Foo" + ("<" + ("T" + (">" + (" " + ("{" + ("case" + (" " + ("Bar" + ("," + (" " + ("Baz" + ("}" + ""))))))))))))))) ==
            [Token(Identifier, "enum")] + ([Token(Whitespace, " ")] + ([Token(Identifier, "Foo")] + ([Token(StartOfScope, "<")] + ([Token(Identifier, "T")] + ([Token(EndOfScope, ">")] + ([Token(Whitespace, " ")] + ([Token(StartOfScope, "{")] + ([Token(Identifier, "case")] + ([Token(Whitespace, " ")] + ([Token(Identifier, "Bar")] + ([Token(Operator, ",")] + ([Token(Whitespace, " ")] + ([Token(Identifier, "Baz")] + ([Token(EndOfScope, "}")] + []))))))))))))))
  {
    SingleLineGenericEnumStep0();
    SingleLineGenericEnumStep1();
    SingleLineGenericEnumStep2();
    SingleLineGenericEnumStep3();
    SingleLineGenericEnumStep4();
    SingleLineGenericEnumStep5();
    SingleLineGenericEnumStep6();
    SingleLineGenericEnumStep7();
    SingleLineGenericEnumFrom8();
  }

  lemma SingleLineGenericEnumFrom8()
    ensures Lex("case" + (" " + ("Bar" + ("," + (" " + ("Baz" + ("}" + "")))))), Lexer([Brace(false)], Some(StartOfScope), false, false)) ==
            [Token(Identifier, "case")] + ([Token(Whitespace, " ")] + ([Token(Identifier, "Bar")] + ([Token(Operator, ",")] + ([Token(Whitespace, " ")] + ([Token(Identifier, "Baz")] + ([Token(EndOfScope, "}")] + Lex("", Lexer([], Some(EndOfScope), false, false))))))))
  {
    SingleLineGenericEnumStep8();
    SingleLineGenericEnumStep9();
    SingleLineGenericEnumStep10();
    SingleLineGenericEnumStep11();
    SingleLineGenericEnumStep12();
    SingleLineGenericEnumStep13();
    SingleLineGenericEnumStep14();
  }

  lemma SingleLineGenericEnumStep0()
    ensures Lex("enum" + (" " + ("Foo" + ("<" + ("T" + (">" + (" " + ("{" + ("case" + (" " + ("Bar" + ("," + (" " + ("Baz" + ("}" + "")))))))))))))), Lexer([], None, false, false)) ==
            [Token(Identifier, "enum")] + Lex(" " + ("Foo" + ("<" + ("T" + (">" + (" " + ("{" + ("case" + (" " + ("Bar" + ("," + (" " + ("Baz" + ("}" + ""))))))))))))), Lexer([], Some(Identifier), false, false))
  {
    var r15 := "";
    var r14 := "}" + r15;
    var r13 := "Baz" + r14;
    var r12 := " " + r13;
    var r11 := "," + r12;
    var r10 := "Bar" + r11;
    var r9 := " " + r10;
    var r8 := "case" + r9;
    var r7 := "{" + r8;
    var r6 := " " + r7;
    var r5 := ">" + r6;
    var r4 := "T" + r5;
    var r3 := "<" + r4;
    var r2 := "Foo" + r3;
    var r1 := " " + r2;
    var r0 := "enum" + r1;
    CodeIdentifier("enum", r1, Lexer([], None, false, false));
    LexOne("enum", r1, Lexer([], None, false, false), Token(Identifier, "enum"), Lexer([], Some(Identifier), false, false));
  }

  lemma SingleLineGenericEnumStep1()
    ensures Lex(" " + ("Foo" + ("<" + ("T" + (">" + (" " + ("{" + ("case" + (" " + ("Bar" + ("," + (" " + ("Baz" + ("}" + ""))))))))))))), Lexer([], Some(Identifier), false, false)) ==
            [Token(Whitespace, " ")] + Lex("Foo" + ("<" + ("T" + (">" + (" " + ("{" + ("case" + (" " + ("Bar" + ("," + (" " + ("Baz" + ("}" + "")))))))))))), Lexer([], Some(Whitespace), false, false))
  {
    var r15 := "";
    var r14 := "}" + r15;
    var r13 := "Baz" + r14;
    var r12 := " " + r13;
    var r11 := "," + r12;
    var r10 := "Bar" + r11;
    var r9 := " " + r10;
    var r8 := "case" + r9;
    var r7 := "{" + r8;
    var r6 := " " + r7;
    var r5 := ">" + r6;
    var r4 := "T" + r5;
    var r3 := "<" + r4;
    var r2 := "Foo" + r3;
    var r1 := " " + r2;
    WhitespaceToken(" ", r2, Lexer([], Some(Identifier), false, false));
    LexOne(" ", r2, Lexer([], Some(Identifier), false, false), Token(Whitespace, " "), Lexer([], Some(Whitespace), false, false));
  }

  lemma SingleLineGenericEnumStep2()
    ensures Lex("Foo" + ("<" + ("T" + (">" + (" " + ("{" + ("case" + (" " + ("Bar" + ("," + (" " + ("Baz" + ("}" + "")))))))))))), Lexer([], Some(Whitespace), false, false)) ==
            [Token(Identifier, "Foo")] + Lex("<" + ("T" + (">" + (" " + ("{" + ("case" + (" " + ("Bar" + ("," + (" " + ("Baz" + ("}" + ""))))))))))), Lexer([], Some(Identifier), false, false))
  {
    var r15 := "";
    var r14 := "}" + r15;
    var r13 := "Baz" + r14;
    var r12 := " " + r13;
    var r11 := "," + r12;
    var r10 := "Bar" + r11;
    var r9 := " " + r10;
    var r8 := "case" + r9;
    var r7 := "{" + r8;
    var r6 := " " + r7;
    var r5 := ">" + r6;
    var r4 := "T" + r5;
    var r3 := "<" + r4;
    var r2 := "Foo" + r3;
    CodeIdentifier("Foo", r3, Lexer([], Some(Whitespace), false, false));
    LexOne("Foo", r3, Lexer([], Some(Whitespace), false, false), Token(Identifier, "Foo"), Lexer([], Some(Identifier), false, false));
  }

  lemma SingleLineGenericEnumStep3()
    ensures Lex("<" + ("T" + (">" + (" " + ("{" + ("case" + (" " + ("Bar" + ("," + (" " + ("Baz" + ("}" + ""))))))))))), Lexer([], Some(Identifier), false, false)) ==
            [Token(StartOfScope, "<")] + Lex("T" + (">" + (" " + ("{" + ("case" + (" " + ("Bar" + ("," + (" " + ("Baz" + ("}" + "")))))))))), Lexer([Generic], Some(StartOfScope), false, false))
  {
    var r15 := "";
    var r14 := "}" + r15;
    var r13 := "Baz" + r14;
    var r12 := " " + r13;
    var r11 := "," + r12;
    var r10 := "Bar" + r11;
    var r9 := " " + r10;
    var r8 := "case" + r9;
    var r7 := "{" + r8;
    var r6 := " " + r7;
    var r5 := ">" + r6;
    var r4 := "T" + r5;
    var r3 := "<" + r4;
    SingleLineGenericEnumProbe3();
    CodeGenericOpen(r4, Lexer([], Some(Identifier), false, false));
    LexOne("<", r4, Lexer([], Some(Identifier), false, false), Token(StartOfScope, "<"), Lexer([Generic], Some(StartOfScope), false, false));
  }

  lemma SingleLineGenericEnumProbe3_0()
    ensures Probe("T" + (">" + (" " + ("{" + ("case" + (" " + ("Bar" + ("," + (" " + ("Baz" + ("}" + "")))))))))), "<", 0) == Probe((">" + (" " + ("{" + ("case" + (" " + ("Bar" + ("," + (" " + ("Baz" + ("}" + "")))))))))), "<", 0)
  {
    var r15 := "";
    var r14 := "}" + r15;
    var r13 := "Baz" + r14;
    var r12 := " " + r13;
    var r11 := "," + r12;
    var r10 := "Bar" + r11;
    var r9 := " " + r10;
    var r8 := "case" + r9;
    var r7 := "{" + r8;
    var r6 := " " + r7;
    var r5 := ">" + r6;
    var r4 := "T" + r5;
    ProbeWord("T", r5, "<", 0);
  }

  lemma SingleLineGenericEnumProbe3_1()
    ensures Probe(">" + (" " + ("{" + ("case" + (" " + ("Bar" + ("," + (" " + ("Baz" + ("}" + ""))))))))), "<", 0)
  {
    var r15 := "";
    var r14 := "}" + r15;
    var r13 := "Baz" + r14;
    var r12 := " " + r13;
    var r11 := "," + r12;
    var r10 := "Bar" + r11;
    var r9 := " " + r10;
    var r8 := "case" + r9;
    var r7 := "{" + r8;
    var r6 := " " + r7;
    var r5 := ">" + r6;
    var r4 := "T" + r5;
    ProbeChevronEnds(r6, "<", 0);
  }

  lemma SingleLineGenericEnumProbe3()
    ensures Probe("T" + (">" + (" " + ("{" + ("case" + (" " + ("Bar" + ("," + (" " + ("Baz" + ("}" + "")))))))))), "<", 0)
  {
    var r15 := "";
    var r14 := "}" + r15;
    var r13 := "Baz" + r14;
    var r12 := " " + r13;
    var r11 := "," + r12;
    var r10 := "Bar" + r11;
    var r9 := " " + r10;
    var r8 := "case" + r9;
    var r7 := "{" + r8;
    var r6 := " " + r7;
    var r5 := ">" + r6;
    var r4 := "T" + r5;
    SingleLineGenericEnumProbe3_0();
    SingleLineGenericEnumProbe3_1();
  }

  lemma SingleLineGenericEnumStep4()
    ensures Lex("T" + (">" + (" " + ("{" + ("case" + (" " + ("Bar" + ("," + (" " + ("Baz" + ("}" + "")))))))))), Lexer([Generic], Some(StartOfScope), false, false)) ==
            [Token(Identifier, "T")] + Lex(">" + (" " + ("{" + ("case" + (" " + ("Bar" + ("," + (" " + ("Baz" + ("}" + ""))))))))), Lexer([Generic], Some(Identifier), false, false))
  {
    var r15 := "";
    var r14 := "}" + r15;
    var r13 := "Baz" + r14;
    var r12 := " " + r13;
    var r11 := "," + r12;
    var r10 := "Bar" + r11;
    var r9 := " " + r10;
    var r8 := "case" + r9;
    var r7 := "{" + r8;
    var r6 := " " + r7;
    var r5 := ">" + r6;
    var r4 := "T" + r5;
    CodeIdentifier("T", r5, Lexer([Generic], Some(StartOfScope), false, false));
    LexOne("T", r5, Lexer([Generic], Some(StartOfScope), false, false), Token(Identifier, "T"), Lexer([Generic], Some(Identifier), false, false));
  }

  lemma SingleLineGenericEnumStep5()
    ensures Lex(">" + (" " + ("{" + ("case" + (" " + ("Bar" + ("," + (" " + ("Baz" + ("}" + ""))))))))), Lexer([Generic], Some(Identifier), false, false)) ==
            [Token(EndOfScope, ">")] + Lex(" " + ("{" + ("case" + (" " + ("Bar" + ("," + (" " + ("Baz" + ("}" + "")))))))), Lexer([], Some(EndOfScope), false, false))
  {
    var r15 := "";
    var r14 := "}" + r15;
    var r13 := "Baz" + r14;
    var r12 := " " + r13;
    var r11 := "," + r12;
    var r10 := "Bar" + r11;
    var r9 := " " + r10;
    var r8 := "case" + r9;
    var r7 := "{" + r8;
    var r6 := " " + r7;
    var r5 := ">" + r6;
    CodeGenericClose(r6, Lexer([Generic], Some(Identifier), false, false));
    LexOne(">", r6, Lexer([Generic], Some(Identifier), false, false), Token(EndOfScope, ">"), Lexer([], Some(EndOfScope), false, false));
  }

  lemma SingleLineGenericEnumStep6()
    ensures Lex(" " + ("{" + ("case" + (" " + ("Bar" + ("," + (" " + ("Baz" + ("}" + "")))))))), Lexer([], Some(EndOfScope), false, false)) ==
            [Token(Whitespace, " ")] + Lex("{" + ("case" + (" " + ("Bar" + ("," + (" " + ("Baz" + ("}" + ""))))))), Lexer([], Some(Whitespace), false, false))
  {
    var r15 := "";
    var r14 := "}" + r15;
    var r13 := "Baz" + r14;
    var r12 := " " + r13;
    var r11 := "," + r12;
    var r10 := "Bar" + r11;
    var r9 := " " + r10;
    var r8 := "case" + r9;
    var r7 := "{" + r8;
    var r6 := " " + r7;
    WhitespaceToken(" ", r7, Lexer([], Some(EndOfScope), false, false));
    LexOne(" ", r7, Lexer([], Some(EndOfScope), false, false), Token(Whitespace, " "), Lexer([], Some(Whitespace), false, false));
  }

  lemma SingleLineGenericEnumStep7()
    ensures Lex("{" + ("case" + (" " + ("Bar" + ("," + (" " + ("Baz" + ("}" + ""))))))), Lexer([], Some(Whitespace), false, false)) ==
            [Token(StartOfScope, "{")] + Lex("case" + (" " + ("Bar" + ("," + (" " + ("Baz" + ("}" + "")))))), Lexer([Brace(false)], Some(StartOfScope), false, false))
  {
    var r15 := "";
    var r14 := "}" + r15;
    var r13 := "Baz" + r14;
    var r12 := " " + r13;
    var r11 := "," + r12;
    var r10 := "Bar" + r11;
    var r9 := " " + r10;
    var r8 := "case" + r9;
    var r7 := "{" + r8;
    CodeBraceOpen(r8, Lexer([], Some(Whitespace), false, false));
    LexOne("{", r8, Lexer([], Some(Whitespace), false, false), Token(StartOfScope, "{"), Lexer([Brace(false)], Some(StartOfScope), false, false));
  }

  lemma SingleLineGenericEnumStep8()
    ensures Lex("case" + (" " + ("Bar" + ("," + (" " + ("Baz" + ("}" + "")))))), Lexer([Brace(false)], Some(StartOfScope), false, false)) ==
            [Token(Identifier, "case")] + Lex(" " + ("Bar" + ("," + (" " + ("Baz" + ("}" + ""))))), Lexer([Brace(false)], Some(Identifier), false, false))
  {
    var r15 := "";
    var r14 := "}" + r15;
    var r13 := "Baz" + r14;
    var r12 := " " + r13;
    var r11 := "," + r12;
    var r10 := "Bar" + r11;
    var r9 := " " + r10;
    var r8 := "case" + r9;
    CodeIdentifier("case", r9, Lexer([Brace(false)], Some(StartOfScope), false, false));
    LexOne("case", r9, Lexer([Brace(false)], Some(StartOfScope), false, false), Token(Identifier, "case"), Lexer([Brace(false)], Some(Identifier), false, false));
  }

  lemma SingleLineGenericEnumStep9()
    ensures Lex(" " + ("Bar" + ("," + (" " + ("Baz" + ("}" + ""))))), Lexer([Brace(false)], Some(Identifier), false, false)) ==
            [Token(Whitespace, " ")] + Lex("Bar" + ("," + (" " + ("Baz" + ("}" + "")))), Lexer([Brace(false)], Some(Whitespace), false, false))
  {
    var r15 := "";
    var r14 := "}" + r15;
    var r13 := "Baz" + r14;
    var r12 := " " + r13;
    var r11 := "," + r12;
    var r10 := "Bar" + r11;
    var r9 := " " + r10;
    WhitespaceToken(" ", r10, Lexer([Brace(false)], Some(Identifier), false, false));
    LexOne(" ", r10, Lexer([Brace(false)], Some(Identifier), false, false), Token(Whitespace, " "), Lexer([Brace(false)], Some(Whitespace), false, false));
  }

  lemma SingleLineGenericEnumStep10()
    ensures Lex("Bar" + ("," + (" " + ("Baz" + ("}" + "")))), Lexer([Brace(false)], Some(Whitespace), false, false)) ==
            [Token(Identifier, "Bar")] + Lex("," + (" " + ("Baz" + ("}" + ""))), Lexer([Brace(false)], Some(Identifier), false, false))
  {
    var r15 := "";
    var r14 := "}" + r15;
    var r13 := "Baz" + r14;
    var r12 := " " + r13;
    var r11 := "," + r12;
    var r10 := "Bar" + r11;
    CodeIdentifier("Bar", r11, Lexer([Brace(false)], Some(Whitespace), false, false));
    LexOne("Bar", r11, Lexer([Brace(false)], Some(Whitespace), false, false), Token(Identifier, "Bar"), Lexer([Brace(false)], Some(Identifier), false, false));
  }

  lemma SingleLineGenericEnumStep11()
    ensures Lex("," + (" " + ("Baz" + ("}" + ""))), Lexer([Brace(false)], Some(Identifier), false, false)) ==
            [Token(Operator, ",")] + Lex(" " + ("Baz" + ("}" + "")), Lexer([Brace(false)], Some(Operator), false, false))
  {
    var r15 := "";
    var r14 := "}" + r15;
    var r13 := "Baz" + r14;
    var r12 := " " + r13;
    var r11 := "," + r12;
    CodePunctuation(",", r12, Lexer([Brace(false)], Some(Identifier), false, false));
    LexOne(",", r12, Lexer([Brace(false)], Some(Identifier), false, false), Token(Operator, ","), Lexer([Brace(false)], Some(Operator), false, false));
  }

  lemma SingleLineGenericEnumStep12()
    ensures Lex(" " + ("Baz" + ("}" + "")), Lexer([Brace(false)], Some(Operator), false, false)) ==
            [Token(Whitespace, " ")] + Lex("Baz" + ("}" + ""), Lexer([Brace(false)], Some(Whitespace), false, false))
  {
    var r15 := "";
    var r14 := "}" + r15;
    var r13 := "Baz" + r14;
    var r12 := " " + r13;
    WhitespaceToken(" ", r13, Lexer([Brace(false)], Some(Operator), false, false));
    LexOne(" ", r13, Lexer([Brace(false)], Some(Operator), false, false), Token(Whitespace, " "), Lexer([Brace(false)], Some(Whitespace), false, false));
  }

  lemma SingleLineGenericEnumStep13()
    ensures Lex("Baz" + ("}" + ""), Lexer([Brace(false)], Some(Whitespace), false, false)) ==
            [Token(Identifier, "Baz")] + Lex("}" + "", Lexer([Brace(false)], Some(Identifier), false, false))
  {
    var r15 := "";
    var r14 := "}" + r15;
    var r13 := "Baz" + r14;
    CodeIdentifier("Baz", r14, Lexer([Brace(false)], Some(Whitespace), false, false));
    LexOne("Baz", r14, Lexer([Brace(false)], Some(Whitespace), false, false), Token(Identifier, "Baz"), Lexer([Brace(false)], Some(Identifier), false, false));
  }

  lemma SingleLineGenericEnumStep14()
    ensures Lex("}" + "", Lexer([Brace(false)], Some(Identifier), false, false)) ==
            [Token(EndOfScope, "}")] + Lex("", Lexer([], Some(EndOfScope), false, false))
  {
    var r15 := "";
    var r14 := "}" + r15;
    CodeClose("}", r15, Lexer([Brace(false)], Some(Identifier), false, false));
    LexOne("}", r15, Lexer([Brace(false)], Some(Identifier), false, false), Token(EndOfScope, "}"), Lexer([], Some(EndOfScope), false, false));
  }

  // SwiftFormatTests/TokenizerTests.swift:963-983
  lemma MultilineLineEnum()
    ensures Tokenize("enum" + (" " + ("Foo" + (" " + ("{" + ("\n" + ("case" + (" " + ("Bar" + ("\n" + ("case" + (" " + ("Baz" + ("\n" + ("}" + ""))))))))))))))) ==
            [Token(Identifier, "enum")] + ([Token(Whitespace, " ")] + ([Token(Identifier, "Foo")] + ([Token(Whitespace, " ")] + ([Token(StartOfScope, "{")] + ([Token(Linebreak, "\n")] + ([Token(Identifier, "case")] + ([Token(Whitespace, " ")] + ([Token(Identifier, "Bar")] + ([Token(Linebreak, "\n")] + ([Token(Identifier, "case")] + ([Token(Whitespace, " ")] + ([Token(Identifier, "Baz")] + ([Token(Linebreak, "\n")] + ([Token(EndOfScope, "}")] + []))))))))))))))
  {
    MultilineLineEnumStep0();
    MultilineLineEnumStep1();
    MultilineLineEnumStep2();
    MultilineLineEnumStep3();
    MultilineLineEnumStep4();
    MultilineLineEnumStep5();
    MultilineLineEnumStep6();
    MultilineLineEnumStep7();
    MultilineLineEnumFrom8();
  }

  lemma MultilineLineEnumFrom8()
    ensures Lex("Bar" + ("\n" + ("case" + (" " + ("Baz" + ("\n" + ("}" + "")))))), Lexer([Brace(false)], Some(Whitespace), false, false)) ==
            [Token(Identifier, "Bar")] + ([Token(Linebreak, "\n")] + ([Token(Identifier, "case")] + ([Token(Whitespace, " ")] + ([Token(Identifier, "Baz")] + ([Token(Linebreak, "\n")] + ([Token(EndOfScope, "}")] + Lex("", Lexer([], Some(EndOfScope), false, false))))))))
  {
    MultilineLineEnumStep8();
    MultilineLineEnumStep9();
    MultilineLineEnumStep10();
    MultilineLineEnumStep11();
    MultilineLineEnumStep12();
    MultilineLineEnumStep13();
    MultilineLineEnumStep14();
  }

  lemma MultilineLineEnumStep0()
    ensures Lex("enum" + (" " + ("Foo" + (" " + ("{" + ("\n" + ("case" + (" " + ("Bar" + ("\n" + ("case" + (" " + ("Baz" + ("\n" + ("}" + "")))))))))))))), Lexer([], None, false, false)) ==
            [Token(Identifier, "enum")] + Lex(" " + ("Foo" + (" " + ("{" + ("\n" + ("case" + (" " + ("Bar" + ("\n" + ("case" + (" " + ("Baz" + ("\n" + ("}" + ""))))))))))))), Lexer([], Some(Identifier), false, false))
  {
    var r15 := "";
    var r14 := "}" + r15;
    var r13 := "\n" + r14;
    var r12 := "Baz" + r13;
    var r11 := " " + r12;
    var r10 := "case" + r11;
    var r9 := "\n" + r10;
    var r8 := "Bar" + r9;
    var r7 := " " + r8;
    var r6 := "case" + r7;
    var r5 := "\n" + r6;
    var r4 := "{" + r5;
    var r3 := " " + r4;
    var r2 := "Foo" + r3;
    var r1 := " " + r2;
    var r0 := "enum" + r1;
    CodeIdentifier("enum", r1, Lexer([], None, false, false));
    LexOne("enum", r1, Lexer([], None, false, false), Token(Identifier, "enum"), Lexer([], Some(Identifier), false, false));
  }

  lemma MultilineLineEnumStep1()
    ensures Lex(" " + ("Foo" + (" " + ("{" + ("\n" + ("case" + (" " + ("Bar" + ("\n" + ("case" + (" " + ("Baz" + ("\n" + ("}" + ""))))))))))))), Lexer([], Some(Identifier), false, false)) ==
            [Token(Whitespace, " ")] + Lex("Foo" + (" " + ("{" + ("\n" + ("case" + (" " + ("Bar" + ("\n" + ("case" + (" " + ("Baz" + ("\n" + ("}" + "")))))))))))), Lexer([], Some(Whitespace), false, false))
  {
    var r15 := "";
    var r14 := "}" + r15;
    var r13 := "\n" + r14;
    var r12 := "Baz" + r13;
    var r11 := " " + r12;
    var r10 := "case" + r11;
    var r9 := "\n" + r10;
    var r8 := "Bar" + r9;
    var r7 := " " + r8;
    var r6 := "case" + r7;
    var r5 := "\n" + r6;
    var r4 := "{" + r5;
    var r3 := " " + r4;
    var r2 := "Foo" + r3;
    var r1 := " " + r2;
    WhitespaceToken(" ", r2, Lexer([], Some(Identifier), false, false));
    LexOne(" ", r2, Lexer([], Some(Identifier), false, false), Token(Whitespace, " "), Lexer([], Some(Whitespace), false, false));
  }

  lemma MultilineLineEnumStep2()
    ensures Lex("Foo" + (" " + ("{" + ("\n" + ("case" + (" " + ("Bar" + ("\n" + ("case" + (" " + ("Baz" + ("\n" + ("}" + "")))))))))))), Lexer([], Some(Whitespace), false, false)) ==
            [Token(Identifier, "Foo")] + Lex(" " + ("{" + ("\n" + ("case" + (" " + ("Bar" + ("\n" + ("case" + (" " + ("Baz" + ("\n" + ("}" + ""))))))))))), Lexer([], Some(Identifier), false, false))
  {
    var r15 := "";
    var r14 := "}" + r15;
    var r13 := "\n" + r14;
    var r12 := "Baz" + r13;
    var r11 := " " + r12;
    var r10 := "case" + r11;
    var r9 := "\n" + r10;
    var r8 := "Bar" + r9;
    var r7 := " " + r8;
    var r6 := "case" + r7;
    var r5 := "\n" + r6;
    var r4 := "{" + r5;
    var r3 := " " + r4;
    var r2 := "Foo" + r3;
    CodeIdentifier("Foo", r3, Lexer([], Some(Whitespace), false, false));
    LexOne("Foo", r3, Lexer([], Some(Whitespace), false, false), Token(Identifier, "Foo"), Lexer([], Some(Identifier), false, false));
  }

  lemma MultilineLineEnumStep3()
    ensures Lex(" " + ("{" + ("\n" + ("case" + (" " + ("Bar" + ("\n" + ("case" + (" " + ("Baz" + ("\n" + ("}" + ""))))))))))), Lexer([], Some(Identifier), false, false)) ==
            [Token(Whitespace, " ")] + Lex("{" + ("\n" + ("case" + (" " + ("Bar" + ("\n" + ("case" + (" " + ("Baz" + ("\n" + ("}" + "")))))))))), Lexer([], Some(Whitespace), false, false))
  {
    var r15 := "";
    var r14 := "}" + r15;
    var r13 := "\n" + r14;
    var r12 := "Baz" + r13;
    var r11 := " " + r12;
    var r10 := "case" + r11;
    var r9 := "\n" + r10;
    var r8 := "Bar" + r9;
    var r7 := " " + r8;
    var r6 := "case" + r7;
    var r5 := "\n" + r6;
    var r4 := "{" + r5;
    var r3 := " " + r4;
    WhitespaceToken(" ", r4, Lexer([], Some(Identifier), false, false));
    LexOne(" ", r4, Lexer([], Some(Identifier), false, false), Token(Whitespace, " "), Lexer([], Some(Whitespace), false, false));
  }

  lemma MultilineLineEnumStep4()
    ensures Lex("{" + ("\n" + ("case" + (" " + ("Bar" + ("\n" + ("case" + (" " + ("Baz" + ("\n" + ("}" + "")))))))))), Lexer([], Some(Whitespace), false, false)) ==
            [Token(StartOfScope, "{")] + Lex("\n" + ("case" + (" " + ("Bar" + ("\n" + ("case" + (" " + ("Baz" + ("\n" + ("}" + ""))))))))), Lexer([Brace(false)], Some(StartOfScope), false, false))
  {
    var r15 := "";
    var r14 := "}" + r15;
    var r13 := "\n" + r14;
    var r12 := "Baz" + r13;
    var r11 := " " + r12;
    var r10 := "case" + r11;
    var r9 := "\n" + r10;
    var r8 := "Bar" + r9;
    var r7 := " " + r8;
    var r6 := "case" + r7;
    var r5 := "\n" + r6;
    var r4 := "{" + r5;
    CodeBraceOpen(r5, Lexer([], Some(Whitespace), false, false));
    LexOne("{", r5, Lexer([], Some(Whitespace), false, false), Token(StartOfScope, "{"), Lexer([Brace(false)], Some(StartOfScope), false, false));
  }

  lemma MultilineLineEnumStep5()
    ensures Lex("\n" + ("case" + (" " + ("Bar" + ("\n" + ("case" + (" " + ("Baz" + ("\n" + ("}" + ""))))))))), Lexer([Brace(false)], Some(StartOfScope), false, false)) ==
            [Token(Linebreak, "\n")] + Lex("case" + (" " + ("Bar" + ("\n" + ("case" + (" " + ("Baz" + ("\n" + ("}" + "")))))))), Lexer([Brace(false)], Some(Linebreak), false, false))
  {
    var r15 := "";
    var r14 := "}" + r15;
    var r13 := "\n" + r14;
    var r12 := "Baz" + r13;
    var r11 := " " + r12;
    var r10 := "case" + r11;
    var r9 := "\n" + r10;
    var r8 := "Bar" + r9;
    var r7 := " " + r8;
    var r6 := "case" + r7;
    var r5 := "\n" + r6;
    CodeLinebreak("\n", r6, Lexer([Brace(false)], Some(StartOfScope), false, false));
    LexOne("\n", r6, Lexer([Brace(false)], Some(StartOfScope), false, false), Token(Linebreak, "\n"), Lexer([Brace(false)], Some(Linebreak), false, false));
  }

  lemma MultilineLineEnumStep6()
    ensures Lex("case" + (" " + ("Bar" + ("\n" + ("case" + (" " + ("Baz" + ("\n" + ("}" + "")))))))), Lexer([Brace(false)], Some(Linebreak), false, false)) ==
            [Token(Identifier, "case")] + Lex(" " + ("Bar" + ("\n" + ("case" + (" " + ("Baz" + ("\n" + ("}" + ""))))))), Lexer([Brace(false)], Some(Identifier), false, false))
  {
    var r15 := "";
    var r14 := "}" + r15;
    var r13 := "\n" + r14;
    var r12 := "Baz" + r13;
    var r11 := " " + r12;
    var r10 := "case" + r11;
    var r9 := "\n" + r10;
    var r8 := "Bar" + r9;
    var r7 := " " + r8;
    var r6 := "case" + r7;
    CodeIdentifier("case", r7, Lexer([Brace(false)], Some(Linebreak), false, false));
    LexOne("case", r7, Lexer([Brace(false)], Some(Linebreak), false, false), Token(Identifier, "case"), Lexer([Brace(false)], Some(Identifier), false, false));
  }

  lemma MultilineLineEnumStep7()
    ensures Lex(" " + ("Bar" + ("\n" + ("case" + (" " + ("Baz" + ("\n" + ("}" + ""))))))), Lexer([Brace(false)], Some(Identifier), false, false)) ==
            [Token(Whitespace, " ")] + Lex("Bar" + ("\n" + ("case" + (" " + ("Baz" + ("\n" + ("}" + "")))))), Lexer([Brace(false)], Some(Whitespace), false, false))
  {
    var r15 := "";
    var r14 := "}" + r15;
    var r13 := "\n" + r14;
    var r12 := "Baz" + r13;
    var r11 := " " + r12;
    var r10 := "case" + r11;
    var r9 := "\n" + r10;
    var r8 := "Bar" + r9;
    var r7 := " " + r8;
    WhitespaceToken(" ", r8, Lexer([Brace(false)], Some(Identifier), false, false));
    LexOne(" ", r8, Lexer([Brace(false)], Some(Identifier), false, false), Token(Whitespace, " "), Lexer([Brace(false)], Some(Whitespace), false, false));
  }

  lemma MultilineLineEnumStep8()
    ensures Lex("Bar" + ("\n" + ("case" + (" " + ("Baz" + ("\n" + ("}" + "")))))), Lexer([Brace(false)], Some(Whitespace), false, false)) ==
            [Token(Identifier, "Bar")] + Lex("\n" + ("case" + (" " + ("Baz" + ("\n" + ("}" + ""))))), Lexer([Brace(false)], Some(Identifier), false, false))
  {
    var r15 := "";
    var r14 := "}" + r15;
    var r13 := "\n" + r14;
    var r12 := "Baz" + r13;
    var r11 := " " + r12;
    var r10 := "case" + r11;
    var r9 := "\n" + r10;
    var r8 := "Bar" + r9;
    CodeIdentifier("Bar", r9, Lexer([Brace(false)], Some(Whitespace), false, false));
    LexOne("Bar", r9, Lexer([Brace(false)], Some(Whitespace), false, false), Token(Identifier, "Bar"), Lexer([Brace(false)], Some(Identifier), false, false));
  }

  lemma MultilineLineEnumStep9()
    ensures Lex("\n" + ("case" + (" " + ("Baz" + ("\n" + ("}" + ""))))), Lexer([Brace(false)], Some(Identifier), false, false)) ==
            [Token(Linebreak, "\n")] + Lex("case" + (" " + ("Baz" + ("\n" + ("}" + "")))), Lexer([Brace(false)], Some(Linebreak), false, false))
  {
    var r15 := "";
    var r14 := "}" + r15;
    var r13 := "\n" + r14;
    var r12 := "Baz" + r13;
    var r11 := " " + r12;
    var r10 := "case" + r11;
    var r9 := "\n" + r10;
    CodeLinebreak("\n", r10, Lexer([Brace(false)], Some(Identifier), false, false));
    LexOne("\n", r10, Lexer([Brace(false)], Some(Identifier), false, false), Token(Linebreak, "\n"), Lexer([Brace(false)], Some(Linebreak), false, false));
  }

  lemma MultilineLineEnumStep10()
    ensures Lex("case" + (" " + ("Baz" + ("\n" + ("}" + "")))), Lexer([Brace(false)], Some(Linebreak), false, false)) ==
            [Token(Identifier, "case")] + Lex(" " + ("Baz" + ("\n" + ("}" + ""))), Lexer([Brace(false)], Some(Identifier), false, false))
  {
    var r15 := "";
    var r14 := "}" + r15;
    var r13 := "\n" + r14;
    var r12 := "Baz" + r13;
    var r11 := " " + r12;
    var r10 := "case" + r11;
    CodeIdentifier("case", r11, Lexer([Brace(false)], Some(Linebreak), false, false));
    LexOne("case", r11, Lexer([Brace(false)], Some(Linebreak), false, false), Token(Identifier, "case"), Lexer([Brace(false)], Some(Identifier), false, false));
  }

  lemma MultilineLineEnumStep11()
    ensures Lex(" " + ("Baz" + ("\n" + ("}" + ""))), Lexer([Brace(false)], Some(Identifier), false, false)) ==
            [Token(Whitespace, " ")] + Lex("Baz" + ("\n" + ("}" + "")), Lexer([Brace(false)], Some(Whitespace), false, false))
  {
    var r15 := "";
    var r14 := "}" + r15;
    var r13 := "\n" + r14;
    var r12 := "Baz" + r13;
    var r11 := " " + r12;
    WhitespaceToken(" ", r12, Lexer([Brace(false)], Some(Identifier), false, false));
    LexOne(" ", r12, Lexer([Brace(false)], Some(Identifier), false, false), Token(Whitespace, " "), Lexer([Brace(false)], Some(Whitespace), false, false));
  }

  lemma MultilineLineEnumStep12()
    ensures Lex("Baz" + ("\n" + ("}" + "")), Lexer([Brace(false)], Some(Whitespace), false, false)) ==
            [Token(Identifier, "Baz")] + Lex("\n" + ("}" + ""), Lexer([Brace(false)], Some(Identifier), false, false))
  {
    var r15 := "";
    var r14 := "}" + r15;
    var r13 := "\n" + r14;
    var r12 := "Baz" + r13;
    CodeIdentifier("Baz", r13, Lexer([Brace(false)], Some(Whitespace), false, false));
    LexOne("Baz", r13, Lexer([Brace(false)], Some(Whitespace), false, false), Token(Identifier, "Baz"), Lexer([Brace(false)], Some(Identifier), false, false));
  }

  lemma MultilineLineEnumStep13()
    ensures Lex("\n" + ("}" + ""), Lexer([Brace(false)], Some(Identifier), false, false)) ==
            [Token(Linebreak, "\n")] + Lex("}" + "", Lexer([Brace(false)], Some(Linebreak), false, false))
  {
    var r15 := "";
    var r14 := "}" + r15;
    var r13 := "\n" + r14;
    CodeLinebreak("\n", r14, Lexer([Brace(false)], Some(Identifier), false, false));
    LexOne("\n", r14, Lexer([Brace(false)], Some(Identifier), false, false), Token(Linebreak, "\n"), Lexer([Brace(false)], Some(Linebreak), false, false));
  }

  lemma MultilineLineEnumStep14()
    ensures Lex("}" + "", Lexer([Brace(false)], Some(Linebreak), false, false)) ==
            [Token(EndOfScope, "}")] + Lex("", Lexer([], Some(EndOfScope), false, false))
  {
    var r15 := "";
    var r14 := "}" + r15;
    CodeClose("}", r15, Lexer([Brace(false)], Some(Linebreak), false, false));
    LexOne("}", r15, Lexer([Brace(false)], Some(Linebreak), false, false), Token(EndOfScope, "}"), Lexer([], Some(EndOfScope), false, false));
  }

  // SwiftFormatTests/TokenizerTests.swift:985-1016
  lemma SwitchStatement()
    ensures Tokenize("switch" + (" " + ("x" + (" " + ("{" + ("\n" + ("case" + (" " + ("1" + (":" + ("\n" + ("break" + ("\n" + ("case" + (" " + ("2" + (":" + ("\n" + ("break" + ("\n" + ("default" + (":" + ("\n" + ("break" + ("\n" + ("}" + "")))))))))))))))))))))))))) ==
            [Token(Identifier, "switch")] + ([Token(Whitespace, " ")] + ([Token(Identifier, "x")] + ([Token(Whitespace, " ")] + ([Token(StartOfScope, "{")] + ([Token(Linebreak, "\n")] + ([Token(EndOfScope, "case")] + ([Token(Whitespace, " ")] + ([Token(Number, "1")] + ([Token(StartOfScope, ":")] + ([Token(Linebreak, "\n")] + ([Token(Identifier, "break")] + ([Token(Linebreak, "\n")] + ([Token(EndOfScope, "case")] + ([Token(Whitespace, " ")] + ([Token(Number, "2")] + ([Token(StartOfScope, ":")] + ([Token(Linebreak, "\n")] + ([Token(Identifier, "break")] + ([Token(Linebreak, "\n")] + ([Token(EndOfScope, "default")] + ([Token(StartOfScope, ":")] + ([Token(Linebreak, "\n")] + ([Token(Identifier, "break")] + ([Token(Linebreak, "\n")] + ([Token(EndOfScope, "}")] + [])))))))))))))))))))))))))
  {
    SwitchStatementStep0();
    SwitchStatementStep1();
    SwitchStatementStep2();
    SwitchStatementStep3();
    SwitchStatementStep4();
    SwitchStatementStep5();
    SwitchStatementStep6();
    SwitchStatementStep7();
    SwitchStatementFrom8();
    SwitchStatementFrom16();
    SwitchStatementFrom24();
  }

  lemma SwitchStatementFrom8()
    ensures Lex("1" + (":" + ("\n" + ("break" + ("\n" + ("case" + (" " + ("2" + (":" + ("\n" + ("break" + ("\n" + ("default" + (":" + ("\n" + ("break" + ("\n" + ("}" + ""))))))))))))))))), Lexer([Brace(true)], Some(Whitespace), false, true)) ==
            [Token(Number, "1")] + ([Token(StartOfScope, ":")] + ([Token(Linebreak, "\n")] + ([Token(Identifier, "break")] + ([Token(Linebreak, "\n")] + ([Token(EndOfScope, "case")] + ([Token(Whitespace, " ")] + ([Token(Number, "2")] + Lex(":" + ("\n" + ("break" + ("\n" + ("default" + (":" + ("\n" + ("break" + ("\n" + ("}" + ""))))))))), Lexer([Brace(true)], Some(Number), false, true)))))))))
  {
    SwitchStatementStep8();
    SwitchStatementStep9();
    SwitchStatementStep10();
    SwitchStatementStep11();
    SwitchStatementStep12();
    SwitchStatementStep13();
    SwitchStatementStep14();
    SwitchStatementStep15();
  }

  lemma SwitchStatementFrom16()
    ensures Lex(":" + ("\n" + ("break" + ("\n" + ("default" + (":" + ("\n" + ("break" + ("\n" + ("}" + ""))))))))), Lexer([Brace(true)], Some(Number), false, true)) ==
            [Token(StartOfScope, ":")] + ([Token(Linebreak, "\n")] + ([Token(Identifier, "break")] + ([Token(Linebreak, "\n")] + ([Token(EndOfScope, "default")] + ([Token(StartOfScope, ":")] + ([Token(Linebreak, "\n")] + ([Token(Identifier, "break")] + Lex("\n" + ("}" + ""), Lexer([Brace(true)], Some(Identifier), false, false)))))))))
  {
    SwitchStatementStep16();
    SwitchStatementStep17();
    SwitchStatementStep18();
    SwitchStatementStep19();
    SwitchStatementStep20();
    SwitchStatementStep21();
    SwitchStatementStep22();
    SwitchStatementStep23();
  }

  lemma SwitchStatementFrom24()
    ensures Lex("\n" + ("}" + ""), Lexer([Brace(true)], Some(Identifier), false, false)) ==
            [Token(Linebreak, "\n")] + ([Token(EndOfScope, "}")] + Lex("", Lexer([], Some(EndOfScope), false, false)))
  {
    SwitchStatementStep24();
    SwitchStatementStep25();
  }

  lemma SwitchStatementStep0()
    ensures Lex("switch" + (" " + ("x" + (" " + ("{" + ("\n" + ("case" + (" " + ("1" + (":" + ("\n" + ("break" + ("\n" + ("case" + (" " + ("2" + (":" + ("\n" + ("break" + ("\n" + ("default" + (":" + ("\n" + ("break" + ("\n" + ("}" + ""))))))))))))))))))))))))), Lexer([], None, false, false)) ==
            [Token(Identifier, "switch")] + Lex(" " + ("x" + (" " + ("{" + ("\n" + ("case" + (" " + ("1" + (":" + ("\n" + ("break" + ("\n" + ("case" + (" " + ("2" + (":" + ("\n" + ("break" + ("\n" + ("default" + (":" + ("\n" + ("break" + ("\n" + ("}" + "")))))))))))))))))))))))), Lexer([], Some(Identifier), true, false))
  {
    var r26 := "";
    var r25 := "}" + r26;
    var r24 := "\n" + r25;
    var r23 := "break" + r24;
    var r22 := "\n" + r23;
    var r21 := ":" + r22;
    var r20 := "default" + r21;
    var r19 := "\n" + r20;
    var r18 := "break" + r19;
    var r17 := "\n" + r18;
    var r16 := ":" + r17;
    var r15 := "2" + r16;
    var r14 := " " + r15;
    var r13 := "case" + r14;
    var r12 := "\n" + r13;
    var r11 := "break" + r12;
    var r10 := "\n" + r11;
    var r9 := ":" + r10;
    var r8 := "1" + r9;
    var r7 := " " + r8;
    var r6 := "case" + r7;
    var r5 := "\n" + r6;
    var r4 := "{" + r5;
    var r3 := " " + r4;
    var r2 := "x" + r3;
    var r1 := " " + r2;
    var r0 := "switch" + r1;
    CodeIdentifier("switch", r1, Lexer([], None, false, false));
    LexOne("switch", r1, Lexer([], None, false, false), Token(Identifier, "switch"), Lexer([], Some(Identifier), true, false));
  }

  lemma SwitchStatementStep1()
    ensures Lex(" " + ("x" + (" " + ("{" + ("\n" + ("case" + (" " + ("1" + (":" + ("\n" + ("break" + ("\n" + ("case" + (" " + ("2" + (":" + ("\n" + ("break" + ("\n" + ("default" + (":" + ("\n" + ("break" + ("\n" + ("}" + "")))))))))))))))))))))))), Lexer([], Some(Identifier), true, false)) ==
            [Token(Whitespace, " ")] + Lex("x" + (" " + ("{" + ("\n" + ("case" + (" " + ("1" + (":" + ("\n" + ("break" + ("\n" + ("case" + (" " + ("2" + (":" + ("\n" + ("break" + ("\n" + ("default" + (":" + ("\n" + ("break" + ("\n" + ("}" + ""))))))))))))))))))))))), Lexer([], Some(Whitespace), true, false))
  {
    var r26 := "";
    var r25 := "}" + r26;
    var r24 := "\n" + r25;
    var r23 := "break" + r24;
    var r22 := "\n" + r23;
    var r21 := ":" + r22;
    var r20 := "default" + r21;
    var r19 := "\n" + r20;
    var r18 := "break" + r19;
    var r17 := "\n" + r18;
    var r16 := ":" + r17;
    var r15 := "2" + r16;
    var r14 := " " + r15;
    var r13 := "case" + r14;
    var r12 := "\n" + r13;
    var r11 := "break" + r12;
    var r10 := "\n" + r11;
    var r9 := ":" + r10;
    var r8 := "1" + r9;
    var r7 := " " + r8;
    var r6 := "case" + r7;
    var r5 := "\n" + r6;
    var r4 := "{" + r5;
    var r3 := " " + r4;
    var r2 := "x" + r3;
    var r1 := " " + r2;
    WhitespaceToken(" ", r2, Lexer([], Some(Identifier), true, false));
    LexOne(" ", r2, Lexer([], Some(Identifier), true, false), Token(Whitespace, " "), Lexer([], Some(Whitespace), true, false));
  }

  lemma SwitchStatementStep2()
    ensures Lex("x" + (" " + ("{" + ("\n" + ("case" + (" " + ("1" + (":" + ("\n" + ("break" + ("\n" + ("case" + (" " + ("2" + (":" + ("\n" + ("break" + ("\n" + ("default" + (":" + ("\n" + ("break" + ("\n" + ("}" + ""))))))))))))))))))))))), Lexer([], Some(Whitespace), true, false)) ==
            [Token(Identifier, "x")] + Lex(" " + ("{" + ("\n" + ("case" + (" " + ("1" + (":" + ("\n" + ("break" + ("\n" + ("case" + (" " + ("2" + (":" + ("\n" + ("break" + ("\n" + ("default" + (":" + ("\n" + ("break" + ("\n" + ("}" + "")))))))))))))))))))))), Lexer([], Some(Identifier), true, false))
  {
    var r26 := "";
    var r25 := "}" + r26;
    var r24 := "\n" + r25;
    var r23 := "break" + r24;
    var r22 := "\n" + r23;
    var r21 := ":" + r22;
    var r20 := "default" + r21;
    var r19 := "\n" + r20;
    var r18 := "break" + r19;
    var r17 := "\n" + r18;
    var r16 := ":" + r17;
    var r15 := "2" + r16;
    var r14 := " " + r15;
    var r13 := "case" + r14;
    var r12 := "\n" + r13;
    var r11 := "break" + r12;
    var r10 := "\n" + r11;
    var r9 := ":" + r10;
    var r8 := "1" + r9;
    var r7 := " " + r8;
    var r6 := "case" + r7;
    var r5 := "\n" + r6;
    var r4 := "{" + r5;
    var r3 := " " + r4;
    var r2 := "x" + r3;
    CodeIdentifier("x", r3, Lexer([], Some(Whitespace), true, false));
    LexOne("x", r3, Lexer([], Some(Whitespace), true, false), Token(Identifier, "x"), Lexer([], Some(Identifier), true, false));
  }

  lemma SwitchStatementStep3()
    ensures Lex(" " + ("{" + ("\n" + ("case" + (" " + ("1" + (":" + ("\n" + ("break" + ("\n" + ("case" + (" " + ("2" + (":" + ("\n" + ("break" + ("\n" + ("default" + (":" + ("\n" + ("break" + ("\n" + ("}" + "")))))))))))))))))))))), Lexer([], Some(Identifier), true, false)) ==
            [Token(Whitespace, " ")] + Lex("{" + ("\n" + ("case" + (" " + ("1" + (":" + ("\n" + ("break" + ("\n" + ("case" + (" " + ("2" + (":" + ("\n" + ("break" + ("\n" + ("default" + (":" + ("\n" + ("break" + ("\n" + ("}" + ""))))))))))))))))))))), Lexer([], Some(Whitespace), true, false))
  {
    var r26 := "";
    var r25 := "}" + r26;
    var r24 := "\n" + r25;
    var r23 := "break" + r24;
    var r22 := "\n" + r23;
    var r21 := ":" + r22;
    var r20 := "default" + r21;
    var r19 := "\n" + r20;
    var r18 := "break" + r19;
    var r17 := "\n" + r18;
    var r16 := ":" + r17;
    var r15 := "2" + r16;
    var r14 := " " + r15;
    var r13 := "case" + r14;
    var r12 := "\n" + r13;
    var r11 := "break" + r12;
    var r10 := "\n" + r11;
    var r9 := ":" + r10;
    var r8 := "1" + r9;
    var r7 := " " + r8;
    var r6 := "case" + r7;
    var r5 := "\n" + r6;
    var r4 := "{" + r5;
    var r3 := " " + r4;
    WhitespaceToken(" ", r4, Lexer([], Some(Identifier), true, false));
    LexOne(" ", r4, Lexer([], Some(Identifier), true, false), Token(Whitespace, " "), Lexer([], Some(Whitespace), true, false));
  }

  lemma SwitchStatementStep4()
    ensures Lex("{" + ("\n" + ("case" + (" " + ("1" + (":" + ("\n" + ("break" + ("\n" + ("case" + (" " + ("2" + (":" + ("\n" + ("break" + ("\n" + ("default" + (":" + ("\n" + ("break" + ("\n" + ("}" + ""))))))))))))))))))))), Lexer([], Some(Whitespace), true, false)) ==
            [Token(StartOfScope, "{")] + Lex("\n" + ("case" + (" " + ("1" + (":" + ("\n" + ("break" + ("\n" + ("case" + (" " + ("2" + (":" + ("\n" + ("break" + ("\n" + ("default" + (":" + ("\n" + ("break" + ("\n" + ("}" + "")))))))))))))))))))), Lexer([Brace(true)], Some(StartOfScope), false, false))
  {
    var r26 := "";
    var r25 := "}" + r26;
    var r24 := "\n" + r25;
    var r23 := "break" + r24;
    var r22 := "\n" + r23;
    var r21 := ":" + r22;
    var r20 := "default" + r21;
    var r19 := "\n" + r20;
    var r18 := "break" + r19;
    var r17 := "\n" + r18;
    var r16 := ":" + r17;
    var r15 := "2" + r16;
    var r14 := " " + r15;
    var r13 := "case" + r14;
    var r12 := "\n" + r13;
    var r11 := "break" + r12;
    var r10 := "\n" + r11;
    var r9 := ":" + r10;
    var r8 := "1" + r9;
    var r7 := " " + r8;
    var r6 := "case" + r7;
    var r5 := "\n" + r6;
    var r4 := "{" + r5;
    CodeBraceOpen(r5, Lexer([], Some(Whitespace), true, false));
    LexOne("{", r5, Lexer([], Some(Whitespace), true, false), Token(StartOfScope, "{"), Lexer([Brace(true)], Some(StartOfScope), false, false));
  }

  lemma SwitchStatementStep5()
    ensures Lex("\n" + ("case" + (" " + ("1" + (":" + ("\n" + ("break" + ("\n" + ("case" + (" " + ("2" + (":" + ("\n" + ("break" + ("\n" + ("default" + (":" + ("\n" + ("break" + ("\n" + ("}" + "")))))))))))))))))))), Lexer([Brace(true)], Some(StartOfScope), false, false)) ==
            [Token(Linebreak, "\n")] + Lex("case" + (" " + ("1" + (":" + ("\n" + ("break" + ("\n" + ("case" + (" " + ("2" + (":" + ("\n" + ("break" + ("\n" + ("default" + (":" + ("\n" + ("break" + ("\n" + ("}" + ""))))))))))))))))))), Lexer([Brace(true)], Some(Linebreak), false, false))
  {
    var r26 := "";
    var r25 := "}" + r26;
    var r24 := "\n" + r25;
    var r23 := "break" + r24;
    var r22 := "\n" + r23;
    var r21 := ":" + r22;
    var r20 := "default" + r21;
    var r19 := "\n" + r20;
    var r18 := "break" + r19;
    var r17 := "\n" + r18;
    var r16 := ":" + r17;
    var r15 := "2" + r16;
    var r14 := " " + r15;
    var r13 := "case" + r14;
    var r12 := "\n" + r13;
    var r11 := "break" + r12;
    var r10 := "\n" + r11;
    var r9 := ":" + r10;
    var r8 := "1" + r9;
    var r7 := " " + r8;
    var r6 := "case" + r7;
    var r5 := "\n" + r6;
    CodeLinebreak("\n", r6, Lexer([Brace(true)], Some(StartOfScope), false, false));
    LexOne("\n", r6, Lexer([Brace(true)], Some(StartOfScope), false, false), Token(Linebreak, "\n"), Lexer([Brace(true)], Some(Linebreak), false, false));
  }

  lemma SwitchStatementStep6()
    ensures Lex("case" + (" " + ("1" + (":" + ("\n" + ("break" + ("\n" + ("case" + (" " + ("2" + (":" + ("\n" + ("break" + ("\n" + ("default" + (":" + ("\n" + ("break" + ("\n" + ("}" + ""))))))))))))))))))), Lexer([Brace(true)], Some(Linebreak), false, false)) ==
            [Token(EndOfScope, "case")] + Lex(" " + ("1" + (":" + ("\n" + ("break" + ("\n" + ("case" + (" " + ("2" + (":" + ("\n" + ("break" + ("\n" + ("default" + (":" + ("\n" + ("break" + ("\n" + ("}" + "")))))))))))))))))), Lexer([Brace(true)], Some(EndOfScope), false, true))
  {
    var r26 := "";
    var r25 := "}" + r26;
    var r24 := "\n" + r25;
    var r23 := "break" + r24;
    var r22 := "\n" + r23;
    var r21 := ":" + r22;
    var r20 := "default" + r21;
    var r19 := "\n" + r20;
    var r18 := "break" + r19;
    var r17 := "\n" + r18;
    var r16 := ":" + r17;
    var r15 := "2" + r16;
    var r14 := " " + r15;
    var r13 := "case" + r14;
    var r12 := "\n" + r13;
    var r11 := "break" + r12;
    var r10 := "\n" + r11;
    var r9 := ":" + r10;
    var r8 := "1" + r9;
    var r7 := " " + r8;
    var r6 := "case" + r7;
    CodeCaseLabel("case", r7, Lexer([Brace(true)], Some(Linebreak), false, false));
    LexOne("case", r7, Lexer([Brace(true)], Some(Linebreak), false, false), Token(EndOfScope, "case"), Lexer([Brace(true)], Some(EndOfScope), false, true));
  }

  lemma SwitchStatementStep7()
    ensures Lex(" " + ("1" + (":" + ("\n" + ("break" + ("\n" + ("case" + (" " + ("2" + (":" + ("\n" + ("break" + ("\n" + ("default" + (":" + ("\n" + ("break" + ("\n" + ("}" + "")))))))))))))))))), Lexer([Brace(true)], Some(EndOfScope), false, true)) ==
            [Token(Whitespace, " ")] + Lex("1" + (":" + ("\n" + ("break" + ("\n" + ("case" + (" " + ("2" + (":" + ("\n" + ("break" + ("\n" + ("default" + (":" + ("\n" + ("break" + ("\n" + ("}" + ""))))))))))))))))), Lexer([Brace(true)], Some(Whitespace), false, true))
  {
    var r26 := "";
    var r25 := "}" + r26;
    var r24 := "\n" + r25;
    var r23 := "break" + r24;
    var r22 := "\n" + r23;
    var r21 := ":" + r22;
    var r20 := "default" + r21;
    var r19 := "\n" + r20;
    var r18 := "break" + r19;
    var r17 := "\n" + r18;
    var r16 := ":" + r17;
    var r15 := "2" + r16;
    var r14 := " " + r15;
    var r13 := "case" + r14;
    var r12 := "\n" + r13;
    var r11 := "break" + r12;
    var r10 := "\n" + r11;
    var r9 := ":" + r10;
    var r8 := "1" + r9;
    var r7 := " " + r8;
    WhitespaceToken(" ", r8, Lexer([Brace(true)], Some(EndOfScope), false, true));
    LexOne(" ", r8, Lexer([Brace(true)], Some(EndOfScope), false, true), Token(Whitespace, " "), Lexer([Brace(true)], Some(Whitespace), false, true));
  }

  lemma SwitchStatementStep8()
    ensures Lex("1" + (":" + ("\n" + ("break" + ("\n" + ("case" + (" " + ("2" + (":" + ("\n" + ("break" + ("\n" + ("default" + (":" + ("\n" + ("break" + ("\n" + ("}" + ""))))))))))))))))), Lexer([Brace(true)], Some(Whitespace), false, true)) ==
            [Token(Number, "1")] + Lex(":" + ("\n" + ("break" + ("\n" + ("case" + (" " + ("2" + (":" + ("\n" + ("break" + ("\n" + ("default" + (":" + ("\n" + ("break" + ("\n" + ("}" + "")))))))))))))))), Lexer([Brace(true)], Some(Number), false, true))
  {
    var r26 := "";
    var r25 := "}" + r26;
    var r24 := "\n" + r25;
    var r23 := "break" + r24;
    var r22 := "\n" + r23;
    var r21 := ":" + r22;
    var r20 := "default" + r21;
    var r19 := "\n" + r20;
    var r18 := "break" + r19;
    var r17 := "\n" + r18;
    var r16 := ":" + r17;
    var r15 := "2" + r16;
    var r14 := " " + r15;
    var r13 := "case" + r14;
    var r12 := "\n" + r13;
    var r11 := "break" + r12;
    var r10 := "\n" + r11;
    var r9 := ":" + r10;
    var r8 := "1" + r9;
    CodeNumber("1", r9, 1, 1, Lexer([Brace(true)], Some(Whitespace), false, true));
    LexOne("1", r9, Lexer([Brace(true)], Some(Whitespace), false, true), Token(Number, "1"), Lexer([Brace(true)], Some(Number), false, true));
  }

  lemma SwitchStatementStep9()
    ensures Lex(":" + ("\n" + ("break" + ("\n" + ("case" + (" " + ("2" + (":" + ("\n" + ("break" + ("\n" + ("default" + (":" + ("\n" + ("break" + ("\n" + ("}" + "")))))))))))))))), Lexer([Brace(true)], Some(Number), false, true)) ==
            [Token(StartOfScope, ":")] + Lex("\n" + ("break" + ("\n" + ("case" + (" " + ("2" + (":" + ("\n" + ("break" + ("\n" + ("default" + (":" + ("\n" + ("break" + ("\n" + ("}" + ""))))))))))))))), Lexer([Brace(true)], Some(StartOfScope), false, false))
  {
    var r26 := "";
    var r25 := "}" + r26;
    var r24 := "\n" + r25;
    var r23 := "break" + r24;
    var r22 := "\n" + r23;
    var r21 := ":" + r22;
    var r20 := "default" + r21;
    var r19 := "\n" + r20;
    var r18 := "break" + r19;
    var r17 := "\n" + r18;
    var r16 := ":" + r17;
    var r15 := "2" + r16;
    var r14 := " " + r15;
    var r13 := "case" + r14;
    var r12 := "\n" + r13;
    var r11 := "break" + r12;
    var r10 := "\n" + r11;
    var r9 := ":" + r10;
    CodeCaseColon(r10, Lexer([Brace(true)], Some(Number), false, true));
    LexOne(":", r10, Lexer([Brace(true)], Some(Number), false, true), Token(StartOfScope, ":"), Lexer([Brace(true)], Some(StartOfScope), false, false));
  }

  lemma SwitchStatementStep10()
    ensures Lex("\n" + ("break" + ("\n" + ("case" + (" " + ("2" + (":" + ("\n" + ("break" + ("\n" + ("default" + (":" + ("\n" + ("break" + ("\n" + ("}" + ""))))))))))))))), Lexer([Brace(true)], Some(StartOfScope), false, false)) ==
            [Token(Linebreak, "\n")] + Lex("break" + ("\n" + ("case" + (" " + ("2" + (":" + ("\n" + ("break" + ("\n" + ("default" + (":" + ("\n" + ("break" + ("\n" + ("}" + "")))))))))))))), Lexer([Brace(true)], Some(Linebreak), false, false))
  {
    var r26 := "";
    var r25 := "}" + r26;
    var r24 := "\n" + r25;
    var r23 := "break" + r24;
    var r22 := "\n" + r23;
    var r21 := ":" + r22;
    var r20 := "default" + r21;
    var r19 := "\n" + r20;
    var r18 := "break" + r19;
    var r17 := "\n" + r18;
    var r16 := ":" + r17;
    var r15 := "2" + r16;
    var r14 := " " + r15;
    var r13 := "case" + r14;
    var r12 := "\n" + r13;
    var r11 := "break" + r12;
    var r10 := "\n" + r11;
    CodeLinebreak("\n", r11, Lexer([Brace(true)], Some(StartOfScope), false, false));
    LexOne("\n", r11, Lexer([Brace(true)], Some(StartOfScope), false, false), Token(Linebreak, "\n"), Lexer([Brace(true)], Some(Linebreak), false, false));
  }

  lemma SwitchStatementStep11()
    ensures Lex("break" + ("\n" + ("case" + (" " + ("2" + (":" + ("\n" + ("break" + ("\n" + ("default" + (":" + ("\n" + ("break" + ("\n" + ("}" + "")))))))))))))), Lexer([Brace(true)], Some(Linebreak), false, false)) ==
            [Token(Identifier, "break")] + Lex("\n" + ("case" + (" " + ("2" + (":" + ("\n" + ("break" + ("\n" + ("default" + (":" + ("\n" + ("break" + ("\n" + ("}" + ""))))))))))))), Lexer([Brace(true)], Some(Identifier), false, false))
  {
    var r26 := "";
    var r25 := "}" + r26;
    var r24 := "\n" + r25;
    var r23 := "break" + r24;
    var r22 := "\n" + r23;
    var r21 := ":" + r22;
    var r20 := "default" + r21;
    var r19 := "\n" + r20;
    var r18 := "break" + r19;
    var r17 := "\n" + r18;
    var r16 := ":" + r17;
    var r15 := "2" + r16;
    var r14 := " " + r15;
    var r13 := "case" + r14;
    var r12 := "\n" + r13;
    var r11 := "break" + r12;
    CodeIdentifier("break", r12, Lexer([Brace(true)], Some(Linebreak), false, false));
    LexOne("break", r12, Lexer([Brace(true)], Some(Linebreak), false, false), Token(Identifier, "break"), Lexer([Brace(true)], Some(Identifier), false, false));
  }

  lemma SwitchStatementStep12()
    ensures Lex("\n" + ("case" + (" " + ("2" + (":" + ("\n" + ("break" + ("\n" + ("default" + (":" + ("\n" + ("break" + ("\n" + ("}" + ""))))))))))))), Lexer([Brace(true)], Some(Identifier), false, false)) ==
            [Token(Linebreak, "\n")] + Lex("case" + (" " + ("2" + (":" + ("\n" + ("break" + ("\n" + ("default" + (":" + ("\n" + ("break" + ("\n" + ("}" + "")))))))))))), Lexer([Brace(true)], Some(Linebreak), false, false))
  {
    var r26 := "";
    var r25 := "}" + r26;
    var r24 := "\n" + r25;
    var r23 := "break" + r24;
    var r22 := "\n" + r23;
    var r21 := ":" + r22;
    var r20 := "default" + r21;
    var r19 := "\n" + r20;
    var r18 := "break" + r19;
    var r17 := "\n" + r18;
    var r16 := ":" + r17;
    var r15 := "2" + r16;
    var r14 := " " + r15;
    var r13 := "case" + r14;
    var r12 := "\n" + r13;
    CodeLinebreak("\n", r13, Lexer([Brace(true)], Some(Identifier), false, false));
    LexOne("\n", r13, Lexer([Brace(true)], Some(Identifier), false, false), Token(Linebreak, "\n"), Lexer([Brace(true)], Some(Linebreak), false, false));
  }

  lemma SwitchStatementStep13()
    ensures Lex("case" + (" " + ("2" + (":" + ("\n" + ("break" + ("\n" + ("default" + (":" + ("\n" + ("break" + ("\n" + ("}" + "")))))))))))), Lexer([Brace(true)], Some(Linebreak), false, false)) ==
            [Token(EndOfScope, "case")] + Lex(" " + ("2" + (":" + ("\n" + ("break" + ("\n" + ("default" + (":" + ("\n" + ("break" + ("\n" + ("}" + ""))))))))))), Lexer([Brace(true)], Some(EndOfScope), false, true))
  {
    var r26 := "";
    var r25 := "}" + r26;
    var r24 := "\n" + r25;
    var r23 := "break" + r24;
    var r22 := "\n" + r23;
    var r21 := ":" + r22;
    var r20 := "default" + r21;
    var r19 := "\n" + r20;
    var r18 := "break" + r19;
    var r17 := "\n" + r18;
    var r16 := ":" + r17;
    var r15 := "2" + r16;
    var r14 := " " + r15;
    var r13 := "case" + r14;
    CodeCaseLabel("case", r14, Lexer([Brace(true)], Some(Linebreak), false, false));
    LexOne("case", r14, Lexer([Brace(true)], Some(Linebreak), false, false), Token(EndOfScope, "case"), Lexer([Brace(true)], Some(EndOfScope), false, true));
  }

  lemma SwitchStatementStep14()
    ensures Lex(" " + ("2" + (":" + ("\n" + ("break" + ("\n" + ("default" + (":" + ("\n" + ("break" + ("\n" + ("}" + ""))))))))))), Lexer([Brace(true)], Some(EndOfScope), false, true)) ==
            [Token(Whitespace, " ")] + Lex("2" + (":" + ("\n" + ("break" + ("\n" + ("default" + (":" + ("\n" + ("break" + ("\n" + ("}" + "")))))))))), Lexer([Brace(true)], Some(Whitespace), false, true))
  {
    var r26 := "";
    var r25 := "}" + r26;
    var r24 := "\n" + r25;
    var r23 := "break" + r24;
    var r22 := "\n" + r23;
    var r21 := ":" + r22;
    var r20 := "default" + r21;
    var r19 := "\n" + r20;
    var r18 := "break" + r19;
    var r17 := "\n" + r18;
    var r16 := ":" + r17;
    var r15 := "2" + r16;
    var r14 := " " + r15;
    WhitespaceToken(" ", r15, Lexer([Brace(true)], Some(EndOfScope), false, true));
    LexOne(" ", r15, Lexer([Brace(true)], Some(EndOfScope), false, true), Token(Whitespace, " "), Lexer([Brace(true)], Some(Whitespace), false, true));
  }

  lemma SwitchStatementStep15()
    ensures Lex("2" + (":" + ("\n" + ("break" + ("\n" + ("default" + (":" + ("\n" + ("break" + ("\n" + ("}" + "")))))))))), Lexer([Brace(true)], Some(Whitespace), false, true)) ==
            [Token(Number, "2")] + Lex(":" + ("\n" + ("break" + ("\n" + ("default" + (":" + ("\n" + ("break" + ("\n" + ("}" + ""))))))))), Lexer([Brace(true)], Some(Number), false, true))
  {
    var r26 := "";
    var r25 := "}" + r26;
    var r24 := "\n" + r25;
    var r23 := "break" + r24;
    var r22 := "\n" + r23;
    var r21 := ":" + r22;
    var r20 := "default" + r21;
    var r19 := "\n" + r20;
    var r18 := "break" + r19;
    var r17 := "\n" + r18;
    var r16 := ":" + r17;
    var r15 := "2" + r16;
    CodeNumber("2", r16, 1, 1, Lexer([Brace(true)], Some(Whitespace), false, true));
    LexOne("2", r16, Lexer([Brace(true)], Some(Whitespace), false, true), Token(Number, "2"), Lexer([Brace(true)], Some(Number), false, true));
  }

  lemma SwitchStatementStep16()
    ensures Lex(":" + ("\n" + ("break" + ("\n" + ("default" + (":" + ("\n" + ("break" + ("\n" + ("}" + ""))))))))), Lexer([Brace(true)], Some(Number), false, true)) ==
            [Token(StartOfScope, ":")] + Lex("\n" + ("break" + ("\n" + ("default" + (":" + ("\n" + ("break" + ("\n" + ("}" + "")))))))), Lexer([Brace(true)], Some(StartOfScope), false, false))
  {
    var r26 := "";
    var r25 := "}" + r26;
    var r24 := "\n" + r25;
    var r23 := "break" + r24;
    var r22 := "\n" + r23;
    var r21 := ":" + r22;
    var r20 := "default" + r21;
    var r19 := "\n" + r20;
    var r18 := "break" + r19;
    var r17 := "\n" + r18;
    var r16 := ":" + r17;
    CodeCaseColon(r17, Lexer([Brace(true)], Some(Number), false, true));
    LexOne(":", r17, Lexer([Brace(true)], Some(Number), false, true), Token(StartOfScope, ":"), Lexer([Brace(true)], Some(StartOfScope), false, false));
  }

  lemma SwitchStatementStep17()
    ensures Lex("\n" + ("break" + ("\n" + ("default" + (":" + ("\n" + ("break" + ("\n" + ("}" + "")))))))), Lexer([Brace(true)], Some(StartOfScope), false, false)) ==
            [Token(Linebreak, "\n")] + Lex("break" + ("\n" + ("default" + (":" + ("\n" + ("break" + ("\n" + ("}" + ""))))))), Lexer([Brace(true)], Some(Linebreak), false, false))
  {
    var r26 := "";
    var r25 := "}" + r26;
    var r24 := "\n" + r25;
    var r23 := "break" + r24;
    var r22 := "\n" + r23;
    var r21 := ":" + r22;
    var r20 := "default" + r21;
    var r19 := "\n" + r20;
    var r18 := "break" + r19;
    var r17 := "\n" + r18;
    CodeLinebreak("\n", r18, Lexer([Brace(true)], Some(StartOfScope), false, false));
    LexOne("\n", r18, Lexer([Brace(true)], Some(StartOfScope), false, false), Token(Linebreak, "\n"), Lexer([Brace(true)], Some(Linebreak), false, false));
  }

  lemma SwitchStatementStep18()
    ensures Lex("break" + ("\n" + ("default" + (":" + ("\n" + ("break" + ("\n" + ("}" + ""))))))), Lexer([Brace(true)], Some(Linebreak), false, false)) ==
            [Token(Identifier, "break")] + Lex("\n" + ("default" + (":" + ("\n" + ("break" + ("\n" + ("}" + "")))))), Lexer([Brace(true)], Some(Identifier), false, false))
  {
    var r26 := "";
    var r25 := "}" + r26;
    var r24 := "\n" + r25;
    var r23 := "break" + r24;
    var r22 := "\n" + r23;
    var r21 := ":" + r22;
    var r20 := "default" + r21;
    var r19 := "\n" + r20;
    var r18 := "break" + r19;
    CodeIdentifier("break", r19, Lexer([Brace(true)], Some(Linebreak), false, false));
    LexOne("break", r19, Lexer([Brace(true)], Some(Linebreak), false, false), Token(Identifier, "break"), Lexer([Brace(true)], Some(Identifier), false, false));
  }

  lemma SwitchStatementStep19()
    ensures Lex("\n" + ("default" + (":" + ("\n" + ("break" + ("\n" + ("}" + "")))))), Lexer([Brace(true)], Some(Identifier), false, false)) ==
            [Token(Linebreak, "\n")] + Lex("default" + (":" + ("\n" + ("break" + ("\n" + ("}" + ""))))), Lexer([Brace(true)], Some(Linebreak), false, false))
  {
    var r26 := "";
    var r25 := "}" + r26;
    var r24 := "\n" + r25;
    var r23 := "break" + r24;
    var r22 := "\n" + r23;
    var r21 := ":" + r22;
    var r20 := "default" + r21;
    var r19 := "\n" + r20;
    CodeLinebreak("\n", r20, Lexer([Brace(true)], Some(Identifier), false, false));
    LexOne("\n", r20, Lexer([Brace(true)], Some(Identifier), false, false), Token(Linebreak, "\n"), Lexer([Brace(true)], Some(Linebreak), false, false));
  }

  lemma SwitchStatementStep20()
    ensures Lex("default" + (":" + ("\n" + ("break" + ("\n" + ("}" + ""))))), Lexer([Brace(true)], Some(Linebreak), false, false)) ==
            [Token(EndOfScope, "default")] + Lex(":" + ("\n" + ("break" + ("\n" + ("}" + "")))), Lexer([Brace(true)], Some(EndOfScope), false, true))
  {
    var r26 := "";
    var r25 := "}" + r26;
    var r24 := "\n" + r25;
    var r23 := "break" + r24;
    var r22 := "\n" + r23;
    var r21 := ":" + r22;
    var r20 := "default" + r21;
    CodeCaseLabel("default", r21, Lexer([Brace(true)], Some(Linebreak), false, false));
    LexOne("default", r21, Lexer([Brace(true)], Some(Linebreak), false, false), Token(EndOfScope, "default"), Lexer([Brace(true)], Some(EndOfScope), false, true));
  }

  lemma SwitchStatementStep21()
    ensures Lex(":" + ("\n" + ("break" + ("\n" + ("}" + "")))), Lexer([Brace(true)], Some(EndOfScope), false, true)) ==
            [Token(StartOfScope, ":")] + Lex("\n" + ("break" + ("\n" + ("}" + ""))), Lexer([Brace(true)], Some(StartOfScope), false, false))
  {
    var r26 := "";
    var r25 := "}" + r26;
    var r24 := "\n" + r25;
    var r23 := "break" + r24;
    var r22 := "\n" + r23;
    var r21 := ":" + r22;
    CodeCaseColon(r22, Lexer([Brace(true)], Some(EndOfScope), false, true));
    LexOne(":", r22, Lexer([Brace(true)], Some(EndOfScope), false, true), Token(StartOfScope, ":"), Lexer([Brace(true)], Some(StartOfScope), false, false));
  }

  lemma SwitchStatementStep22()
    ensures Lex("\n" + ("break" + ("\n" + ("}" + ""))), Lexer([Brace(true)], Some(StartOfScope), false, false)) ==
            [Token(Linebreak, "\n")] + Lex("break" + ("\n" + ("}" + "")), Lexer([Brace(true)], Some(Linebreak), false, false))
  {
    var r26 := "";
    var r25 := "}" + r26;
    var r24 := "\n" + r25;
    var r23 := "break" + r24;
    var r22 := "\n" + r23;
    CodeLinebreak("\n", r23, Lexer([Brace(true)], Some(StartOfScope), false, false));
    LexOne("\n", r23, Lexer([Brace(true)], Some(StartOfScope), false, false), Token(Linebreak, "\n"), Lexer([Brace(true)], Some(Linebreak), false, false));
  }

  lemma SwitchStatementStep23()
    ensures Lex("break" + ("\n" + ("}" + "")), Lexer([Brace(true)], Some(Linebreak), false, false)) ==
            [Token(Identifier, "break")] + Lex("\n" + ("}" + ""), Lexer([Brace(true)], Some(Identifier), false, false))
  {
    var r26 := "";
    var r25 := "}" + r26;
    var r24 := "\n" + r25;
    var r23 := "break" + r24;
    CodeIdentifier("break", r24, Lexer([Brace(true)], Some(Linebreak), false, false));
    LexOne("break", r24, Lexer([Brace(true)], Some(Linebreak), false, false), Token(Identifier, "break"), Lexer([Brace(true)], Some(Identifier), false, false));
  }

  lemma SwitchStatementStep24()
    ensures Lex("\n" + ("}" + ""), Lexer([Brace(true)], Some(Identifier), false, false)) ==
            [Token(Linebreak, "\n")] + Lex("}" + "", Lexer([Brace(true)], Some(Linebreak), false, false))
  {
    var r26 := "";
    var r25 := "}" + r26;
    var r24 := "\n" + r25;
    CodeLinebreak("\n", r25, Lexer([Brace(true)], Some(Identifier), false, false));
    LexOne("\n", r25, Lexer([Brace(true)], Some(Identifier), false, false), Token(Linebreak, "\n"), Lexer([Brace(true)], Some(Linebreak), false, false));
  }

  lemma SwitchStatementStep25()
    ensures Lex("}" + "", Lexer([Brace(true)], Some(Linebreak), false, false)) ==
            [Token(EndOfScope, "}")] + Lex("", Lexer([], Some(EndOfScope), false, false))
  {
    var r26 := "";
    var r25 := "}" + r26;
    CodeClose("}", r26, Lexer([Brace(true)], Some(Linebreak), false, false));
    LexOne("}", r26, Lexer([Brace(true)], Some(Linebreak), false, false), Token(EndOfScope, "}"), Lexer([], Some(EndOfScope), false, false));
  }
}
