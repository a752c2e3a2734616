/**
 * The tokenizer's expected output for chevrons, which may be operators or generic brackets, one lemma per test case
 * of SwiftFormatTests/TokenizerTests.swift.  Each input and each expected
 * token list is written as a right-nested concatenation, one piece per token,
 * so that the proof can take the tokens one at a time: lemma <Case>Step<k>
 * scans token k, <Case>From<k> joins a group of eight scans, and
 * <Case>Probe<k> settles the lookahead for a `<` at token k.
 */
module ChevronTests {
  import opened Wrappers
  import opened Tokenizer
  import opened Scanning
  import opened Steps

  // SwiftFormatTests/TokenizerTests.swift:487-501
  lemma LessThanGreaterThan()
    ensures Tokenize("a" + ("<" + ("b" + (" " + ("==" + (" " + ("a" + (">" + ("c" + ""))))))))) ==
            [Token(Identifier, "a")] + ([Token(Operator, "<")] + ([Token(Identifier, "b")] + ([Token(Whitespace, " ")] + ([Token(Operator, "==")] + ([Token(Whitespace, " ")] + ([Token(Identifier, "a")] + ([Token(Operator, ">")] + ([Token(Identifier, "c")] + []))))))))
  {
    LessThanGreaterThanStep0();
    LessThanGreaterThanStep1();
    LessThanGreaterThanStep2();
    LessThanGreaterThanStep3();
    LessThanGreaterThanStep4();
    LessThanGreaterThanStep5();
    LessThanGreaterThanStep6();
    LessThanGreaterThanStep7();
    LessThanGreaterThanFrom8();
  }

  lemma LessThanGreaterThanFrom8()
    ensures Lex("c" + "", Lexer([], Some(Operator), false, false)) ==
            [Token(Identifier, "c")] + Lex("", Lexer([], Some(Identifier), false, false))
  {
    LessThanGreaterThanStep8();
  }

  lemma LessThanGreaterThanStep0()
    ensures Lex("a" + ("<" + ("b" + (" " + ("==" + (" " + ("a" + (">" + ("c" + "")))))))), Lexer([], None, false, false)) ==
            [Token(Identifier, "a")] + Lex("<" + ("b" + (" " + ("==" + (" " + ("a" + (">" + ("c" + ""))))))), Lexer([], Some(Identifier), false, false))
  {
    var r9 := "";
    var r8 := "c" + r9;
    var r7 := ">" + r8;
    var r6 := "a" + r7;
    var r5 := " " + r6;
    var r4 := "==" + r5;
    var r3 := " " + r4;
    var r2 := "b" + r3;
    var r1 := "<" + r2;
    var r0 := "a" + r1;
    CodeIdentifier("a", r1, Lexer([], None, false, false));
    LexOne("a", r1, Lexer([], None, false, false), Token(Identifier, "a"), Lexer([], Some(Identifier), false, false));
  }

  lemma LessThanGreaterThanStep1()
    ensures Lex("<" + ("b" + (" " + ("==" + (" " + ("a" + (">" + ("c" + ""))))))), Lexer([], Some(Identifier), false, false)) ==
            [Token(Operator, "<")] + Lex("b" + (" " + ("==" + (" " + ("a" + (">" + ("c" + "")))))), Lexer([], Some(Operator), false, false))
  {
    var r9 := "";
    var r8 := "c" + r9;
    var r7 := ">" + r8;
    var r6 := "a" + r7;
    var r5 := " " + r6;
    var r4 := "==" + r5;
    var r3 := " " + r4;
    var r2 := "b" + r3;
    var r1 := "<" + r2;
    assert ("<" + r2)[1..] == r2;
    LessThanGreaterThanProbe1();
    CodeOperator("<", r2, Lexer([], Some(Identifier), false, false));
    LexOne("<", r2, Lexer([], Some(Identifier), false, false), Token(Operator, "<"), Lexer([], Some(Operator), false, false));
  }

  lemma LessThanGreaterThanProbe1_0()
    ensures Probe("b" + (" " + ("==" + (" " + ("a" + (">" + ("c" + "")))))), "<", 0) == Probe((" " + ("==" + (" " + ("a" + (">" + ("c" + "")))))), "<", 0)
  {
    var r9 := "";
    var r8 := "c" + r9;
    var r7 := ">" + r8;
    var r6 := "a" + r7;
    var r5 := " " + r6;
    var r4 := "==" + r5;
    var r3 := " " + r4;
    var r2 := "b" + r3;
    ProbeWord("b", r3, "<", 0);
  }

  lemma LessThanGreaterThanProbe1_1()
    ensures Probe(" " + ("==" + (" " + ("a" + (">" + ("c" + ""))))), "<", 0) == Probe(("==" + (" " + ("a" + (">" + ("c" + ""))))), "<", 0)
  {
    var r9 := "";
    var r8 := "c" + r9;
    var r7 := ">" + r8;
    var r6 := "a" + r7;
    var r5 := " " + r6;
    var r4 := "==" + r5;
    var r3 := " " + r4;
    var r2 := "b" + r3;
    ProbeSkip(" ", r4, "<", 0);
  }

  lemma LessThanGreaterThanProbe1_2()
    ensures !Probe("==" + (" " + ("a" + (">" + ("c" + "")))), "<", 0)
  {
    var r9 := "";
    var r8 := "c" + r9;
    var r7 := ">" + r8;
    var r6 := "a" + r7;
    var r5 := " " + r6;
    var r4 := "==" + r5;
    var r3 := " " + r4;
    var r2 := "b" + r3;
    ProbeStop("==", r5, "<", 0);
  }

  lemma LessThanGreaterThanProbe1()
    ensures !Probe("b" + (" " + ("==" + (" " + ("a" + (">" + ("c" + "")))))), "<", 0)
  {
    var r9 := "";
    var r8 := "c" + r9;
    var r7 := ">" + r8;
    var r6 := "a" + r7;
    var r5 := " " + r6;
    var r4 := "==" + r5;
    var r3 := " " + r4;
    var r2 := "b" + r3;
    LessThanGreaterThanProbe1_0();
    LessThanGreaterThanProbe1_1();
    LessThanGreaterThanProbe1_2();
  }

  lemma LessThanGreaterThanStep2()
    ensures Lex("b" + (" " + ("==" + (" " + ("a" + (">" + ("c" + "")))))), Lexer([], Some(Operator), false, false)) ==
            [Token(Identifier, "b")] + Lex(" " + ("==" + (" " + ("a" + (">" + ("c" + ""))))), Lexer([], Some(Identifier), false, false))
  {
    var r9 := "";
    var r8 := "c" + r9;
    var r7 := ">" + r8;
    var r6 := "a" + r7;
    var r5 := " " + r6;
    var r4 := "==" + r5;
    var r3 := " " + r4;
    var r2 := "b" + r3;
    CodeIdentifier("b", r3, Lexer([], Some(Operator), false, false));
    LexOne("b", r3, Lexer([], Some(Operator), false, false), Token(Identifier, "b"), Lexer([], Some(Identifier), false, false));
  }

  lemma LessThanGreaterThanStep3()
    ensures Lex(" " + ("==" + (" " + ("a" + (">" + ("c" + ""))))), Lexer([], Some(Identifier), false, false)) ==
            [Token(Whitespace, " ")] + Lex("==" + (" " + ("a" + (">" + ("c" + "")))), Lexer([], Some(Whitespace), false, false))
  {
    var r9 := "";
    var r8 := "c" + r9;
    var r7 := ">" + r8;
    var r6 := "a" + r7;
    var r5 := " " + r6;
    var r4 := "==" + r5;
    var r3 := " " + r4;
    WhitespaceToken(" ", r4, Lexer([], Some(Identifier), false, false));
    LexOne(" ", r4, Lexer([], Some(Identifier), false, false), Token(Whitespace, " "), Lexer([], Some(Whitespace), false, false));
  }

  lemma LessThanGreaterThanStep4()
    ensures Lex("==" + (" " + ("a" + (">" + ("c" + "")))), Lexer([], Some(Whitespace), false, false)) ==
            [Token(Operator, "==")] + Lex(" " + ("a" + (">" + ("c" + ""))), Lexer([], Some(Operator), false, false))
  {
    var r9 := "";
    var r8 := "c" + r9;
    var r7 := ">" + r8;
    var r6 := "a" + r7;
    var r5 := " " + r6;
    var r4 := "==" + r5;
    CodeOperator("==", r5, Lexer([], Some(Whitespace), false, false));
    LexOne("==", r5, Lexer([], Some(Whitespace), false, false), Token(Operator, "=="), Lexer([], Some(Operator), false, false));
  }

  lemma LessThanGreaterThanStep5()
    ensures Lex(" " + ("a" + (">" + ("c" + ""))), Lexer([], Some(Operator), false, false)) ==
            [Token(Whitespace, " ")] + Lex("a" + (">" + ("c" + "")), Lexer([], Some(Whitespace), false, false))
  {
    var r9 := "";
    var r8 := "c" + r9;
    var r7 := ">" + r8;
    var r6 := "a" + r7;
    var r5 := " " + r6;
    WhitespaceToken(" ", r6, Lexer([], Some(Operator), false, false));
    LexOne(" ", r6, Lexer([], Some(Operator), false, false), Token(Whitespace, " "), Lexer([], Some(Whitespace), false, false));
  }

  lemma LessThanGreaterThanStep6()
    ensures Lex("a" + (">" + ("c" + "")), Lexer([], Some(Whitespace), false, false)) ==
            [Token(Identifier, "a")] + Lex(">" + ("c" + ""), Lexer([], Some(Identifier), false, false))
  {
    var r9 := "";
    var r8 := "c" + r9;
    var r7 := ">" + r8;
    var r6 := "a" + r7;
    CodeIdentifier("a", r7, Lexer([], Some(Whitespace), false, false));
    LexOne("a", r7, Lexer([], Some(Whitespace), false, false), Token(Identifier, "a"), Lexer([], Some(Identifier), false, false));
  }

  lemma LessThanGreaterThanStep7()
    ensures Lex(">" + ("c" + ""), Lexer([], Some(Identifier), false, false)) ==
            [Token(Operator, ">")] + Lex("c" + "", Lexer([], Some(Operator), false, false))
  {
    var r9 := "";
    var r8 := "c" + r9;
    var r7 := ">" + r8;
    CodeOperator(">", r8, Lexer([], Some(Identifier), false, false));
    LexOne(">", r8, Lexer([], Some(Identifier), false, false), Token(Operator, ">"), Lexer([], Some(Operator), false, false));
  }

  lemma LessThanGreaterThanStep8()
    ensures Lex("c" + "", Lexer([], Some(Operator), false, false)) ==
            [Token(Identifier, "c")] + Lex("", Lexer([], Some(Identifier), false, false))
  {
    var r9 := "";
    var r8 := "c" + r9;
    CodeIdentifier("c", r9, Lexer([], Some(Operator), false, false));
    LexOne("c", r9, Lexer([], Some(Operator), false, false), Token(Identifier, "c"), Lexer([], Some(Identifier), false, false));
  }

  // SwiftFormatTests/TokenizerTests.swift:503-511
  lemma Bitshift()
    ensures Tokenize("a" + (">>" + ("b" + ""))) ==
            [Token(Identifier, "a")] + ([Token(Operator, ">>")] + ([Token(Identifier, "b")] + []))
  {
    BitshiftStep0();
    BitshiftStep1();
    BitshiftStep2();
  }

  lemma BitshiftStep0()
    ensures Lex("a" + (">>" + ("b" + "")), Lexer([], None, false, false)) ==
            [Token(Identifier, "a")] + Lex(">>" + ("b" + ""), Lexer([], Some(Identifier), false, false))
  {
    var r3 := "";
    var r2 := "b" + r3;
    var r1 := ">>" + r2;
    var r0 := "a" + r1;
    CodeIdentifier("a", r1, Lexer([], None, false, false));
    LexOne("a", r1, Lexer([], None, false, false), Token(Identifier, "a"), Lexer([], Some(Identifier), false, false));
  }

  lemma BitshiftStep1()
    ensures Lex(">>" + ("b" + ""), Lexer([], Some(Identifier), false, false)) ==
            [Token(Operator, ">>")] + Lex("b" + "", Lexer([], Some(Operator), false, false))
  {
    var r3 := "";
    var r2 := "b" + r3;
    var r1 := ">>" + r2;
    CodeOperator(">>", r2, Lexer([], Some(Identifier), false, false));
    LexOne(">>", r2, Lexer([], Some(Identifier), false, false), Token(Operator, ">>"), Lexer([], Some(Operator), false, false));
  }

  lemma BitshiftStep2()
    ensures Lex("b" + "", Lexer([], Some(Operator), false, false)) ==
            [Token(Identifier, "b")] + Lex("", Lexer([], Some(Identifier), false, false))
  {
    var r3 := "";
    var r2 := "b" + r3;
    CodeIdentifier("b", r3, Lexer([], Some(Operator), false, false));
    LexOne("b", r3, Lexer([], Some(Operator), false, false), Token(Identifier, "b"), Lexer([], Some(Identifier), false, false));
  }

  // SwiftFormatTests/TokenizerTests.swift:513-521
  lemma TripleShift()
    ensures Tokenize("a" + (">>>" + ("b" + ""))) ==
            [Token(Identifier, "a")] + ([Token(Operator, ">>>")] + ([Token(Identifier, "b")] + []))
  {
    TripleShiftStep0();
    TripleShiftStep1();
    TripleShiftStep2();
  }

  lemma TripleShiftStep0()
    ensures Lex("a" + (">>>" + ("b" + "")), Lexer([], None, false, false)) ==
            [Token(Identifier, "a")] + Lex(">>>" + ("b" + ""), Lexer([], Some(Identifier), false, false))
  {
    var r3 := "";
    var r2 := "b" + r3;
    var r1 := ">>>" + r2;
    var r0 := "a" + r1;
    CodeIdentifier("a", r1, Lexer([], None, false, false));
    LexOne("a", r1, Lexer([], None, false, false), Token(Identifier, "a"), Lexer([], Some(Identifier), false, false));
  }

  lemma TripleShiftStep1()
    ensures Lex(">>>" + ("b" + ""), Lexer([], Some(Identifier), false, false)) ==
            [Token(Operator, ">>>")] + Lex("b" + "", Lexer([], Some(Operator), false, false))
  {
    var r3 := "";
    var r2 := "b" + r3;
    var r1 := ">>>" + r2;
    CodeOperator(">>>", r2, Lexer([], Some(Identifier), false, false));
    LexOne(">>>", r2, Lexer([], Some(Identifier), false, false), Token(Operator, ">>>"), Lexer([], Some(Operator), false, false));
  }

  lemma TripleShiftStep2()
    ensures Lex("b" + "", Lexer([], Some(Operator), false, false)) ==
            [Token(Identifier, "b")] + Lex("", Lexer([], Some(Identifier), false, false))
  {
    var r3 := "";
    var r2 := "b" + r3;
    CodeIdentifier("b", r3, Lexer([], Some(Operator), false, false));
    LexOne("b", r3, Lexer([], Some(Operator), false, false), Token(Identifier, "b"), Lexer([], Some(Identifier), false, false));
  }

  // SwiftFormatTests/TokenizerTests.swift:523-531
  lemma TripleShiftEquals()
    ensures Tokenize("a" + (">>=" + ("b" + ""))) ==
            [Token(Identifier, "a")] + ([Token(Operator, ">>=")] + ([Token(Identifier, "b")] + []))
  {
    TripleShiftEqualsStep0();
    TripleShiftEqualsStep1();
    TripleShiftEqualsStep2();
  }

  lemma TripleShiftEqualsStep0()
    ensures Lex("a" + (">>=" + ("b" + "")), Lexer([], None, false, false)) ==
            [Token(Identifier, "a")] + Lex(">>=" + ("b" + ""), Lexer([], Some(Identifier), false, false))
  {
    var r3 := "";
    var r2 := "b" + r3;
    var r1 := ">>=" + r2;
    var r0 := "a" + r1;
    CodeIdentifier("a", r1, Lexer([], None, false, false));
    LexOne("a", r1, Lexer([], None, false, false), Token(Identifier, "a"), Lexer([], Some(Identifier), false, false));
  }

  lemma TripleShiftEqualsStep1()
    ensures Lex(">>=" + ("b" + ""), Lexer([], Some(Identifier), false, false)) ==
            [Token(Operator, ">>=")] + Lex("b" + "", Lexer([], Some(Operator), false, false))
  {
    var r3 := "";
    var r2 := "b" + r3;
    var r1 := ">>=" + r2;
    CodeOperator(">>=", r2, Lexer([], Some(Identifier), false, false));
    LexOne(">>=", r2, Lexer([], Some(Identifier), false, false), Token(Operator, ">>="), Lexer([], Some(Operator), false, false));
  }

  lemma TripleShiftEqualsStep2()
    ensures Lex("b" + "", Lexer([], Some(Operator), false, false)) ==
            [Token(Identifier, "b")] + Lex("", Lexer([], Some(Identifier), false, false))
  {
    var r3 := "";
    var r2 := "b" + r3;
    CodeIdentifier("b", r3, Lexer([], Some(Operator), false, false));
    LexOne("b", r3, Lexer([], Some(Operator), false, false), Token(Identifier, "b"), Lexer([], Some(Identifier), false, false));
  }

  // SwiftFormatTests/TokenizerTests.swift:533-551
  lemma BitshiftThatLooksLikeAGeneric()
    ensures Tokenize("a" + ("<" + ("b" + ("," + (" " + ("b" + ("<" + ("c" + ("," + (" " + ("d" + (">>" + ("e" + ""))))))))))))) ==
            [Token(Identifier, "a")] + ([Token(Operator, "<")] + ([Token(Identifier, "b")] + ([Token(Operator, ",")] + ([Token(Whitespace, " ")] + ([Token(Identifier, "b")] + ([Token(Operator, "<")] + ([Token(Identifier, "c")] + ([Token(Operator, ",")] + ([Token(Whitespace, " ")] + ([Token(Identifier, "d")] + ([Token(Operator, ">>")] + ([Token(Identifier, "e")] + []))))))))))))
  {
    BitshiftThatLooksLikeAGenericStep0();
    BitshiftThatLooksLikeAGenericStep1();
    BitshiftThatLooksLikeAGenericStep2();
    BitshiftThatLooksLikeAGenericStep3();
    BitshiftThatLooksLikeAGenericStep4();
    BitshiftThatLooksLikeAGenericStep5();
    BitshiftThatLooksLikeAGenericStep6();
    BitshiftThatLooksLikeAGenericStep7();
    BitshiftThatLooksLikeAGenericFrom8();
  }

  lemma BitshiftThatLooksLikeAGenericFrom8()
    ensures Lex("," + (" " + ("d" + (">>" + ("e" + "")))), Lexer([], Some(Identifier), false, false)) ==
            [Token(Operator, ",")] + ([Token(Whitespace, " ")] + ([Token(Identifier, "d")] + ([Token(Operator, ">>")] + ([Token(Identifier, "e")] + Lex("", Lexer([], Some(Identifier), false, false))))))
  {
    BitshiftThatLooksLikeAGenericStep8();
    BitshiftThatLooksLikeAGenericStep9();
    BitshiftThatLooksLikeAGenericStep10();
    BitshiftThatLooksLikeAGenericStep11();
    BitshiftThatLooksLikeAGenericStep12();
  }

  lemma BitshiftThatLooksLikeAGenericStep0()
    ensures Lex("a" + ("<" + ("b" + ("," + (" " + ("b" + ("<" + ("c" + ("," + (" " + ("d" + (">>" + ("e" + "")))))))))))), Lexer([], None, false, false)) ==
            [Token(Identifier, "a")] + Lex("<" + ("b" + ("," + (" " + ("b" + ("<" + ("c" + ("," + (" " + ("d" + (">>" + ("e" + ""))))))))))), Lexer([], Some(Identifier), false, false))
  {
    var r13 := "";
    var r12 := "e" + r13;
    var r11 := ">>" + r12;
    var r10 := "d" + r11;
    var r9 := " " + r10;
    var r8 := "," + r9;
    var r7 := "c" + r8;
    var r6 := "<" + r7;
    var r5 := "b" + r6;
    var r4 := " " + r5;
    var r3 := "," + r4;
    var r2 := "b" + r3;
    var r1 := "<" + r2;
    var r0 := "a" + r1;
    CodeIdentifier("a", r1, Lexer([], None, false, false));
    LexOne("a", r1, Lexer([], None, false, false), Token(Identifier, "a"), Lexer([], Some(Identifier), false, false));
  }

  lemma BitshiftThatLooksLikeAGenericStep1()
    ensures Lex("<" + ("b" + ("," + (" " + ("b" + ("<" + ("c" + ("," + (" " + ("d" + (">>" + ("e" + ""))))))))))), Lexer([], Some(Identifier), false, false)) ==
            [Token(Operator, "<")] + Lex("b" + ("," + (" " + ("b" + ("<" + ("c" + ("," + (" " + ("d" + (">>" + ("e" + "")))))))))), Lexer([], Some(Operator), false, false))
  {
    var r13 := "";
    var r12 := "e" + r13;
    var r11 := ">>" + r12;
    var r10 := "d" + r11;
    var r9 := " " + r10;
    var r8 := "," + r9;
    var r7 := "c" + r8;
    var r6 := "<" + r7;
    var r5 := "b" + r6;
    var r4 := " " + r5;
    var r3 := "," + r4;
    var r2 := "b" + r3;
    var r1 := "<" + r2;
    assert ("<" + r2)[1..] == r2;
    BitshiftThatLooksLikeAGenericProbe1();
    CodeOperator("<", r2, Lexer([], Some(Identifier), false, false));
    LexOne("<", r2, Lexer([], Some(Identifier), false, false), Token(Operator, "<"), Lexer([], Some(Operator), false, false));
  }

  lemma BitshiftThatLooksLikeAGenericProbe1_0()
    ensures Probe("b" + ("," + (" " + ("b" + ("<" + ("c" + ("," + (" " + ("d" + (">>" + ("e" + "")))))))))), "<", 0) == Probe(("," + (" " + ("b" + ("<" + ("c" + ("," + (" " + ("d" + (">>" + ("e" + "")))))))))), "<", 0)
  {
    var r13 := "";
    var r12 := "e" + r13;
    var r11 := ">>" + r12;
    var r10 := "d" + r11;
    var r9 := " " + r10;
    var r8 := "," + r9;
    var r7 := "c" + r8;
    var r6 := "<" + r7;
    var r5 := "b" + r6;
    var r4 := " " + r5;
    var r3 := "," + r4;
    var r2 := "b" + r3;
    ProbeWord("b", r3, "<", 0);
  }

  lemma BitshiftThatLooksLikeAGenericProbe1_1()
    ensures Probe("," + (" " + ("b" + ("<" + ("c" + ("," + (" " + ("d" + (">>" + ("e" + ""))))))))), "<", 0) == Probe((" " + ("b" + ("<" + ("c" + ("," + (" " + ("d" + (">>" + ("e" + ""))))))))), "<", 0)
  {
    var r13 := "";
    var r12 := "e" + r13;
    var r11 := ">>" + r12;
    var r10 := "d" + r11;
    var r9 := " " + r10;
    var r8 := "," + r9;
    var r7 := "c" + r8;
    var r6 := "<" + r7;
    var r5 := "b" + r6;
    var r4 := " " + r5;
    var r3 := "," + r4;
    var r2 := "b" + r3;
    ProbeSkip(",", r4, "<", 0);
  }

  lemma BitshiftThatLooksLikeAGenericProbe1_2()
    ensures Probe(" " + ("b" + ("<" + ("c" + ("," + (" " + ("d" + (">>" + ("e" + "")))))))), "<", 0) == Probe(("b" + ("<" + ("c" + ("," + (" " + ("d" + (">>" + ("e" + "")))))))), "<", 0)
  {
    var r13 := "";
    var r12 := "e" + r13;
    var r11 := ">>" + r12;
    var r10 := "d" + r11;
    var r9 := " " + r10;
    var r8 := "," + r9;
    var r7 := "c" + r8;
    var r6 := "<" + r7;
    var r5 := "b" + r6;
    var r4 := " " + r5;
    var r3 := "," + r4;
    var r2 := "b" + r3;
    ProbeSkip(" ", r5, "<", 0);
  }

  lemma BitshiftThatLooksLikeAGenericProbe1_3()
    ensures Probe("b" + ("<" + ("c" + ("," + (" " + ("d" + (">>" + ("e" + ""))))))), "<", 0) == Probe(("<" + ("c" + ("," + (" " + ("d" + (">>" + ("e" + ""))))))), "<", 0)
  {
    var r13 := "";
    var r12 := "e" + r13;
    var r11 := ">>" + r12;
    var r10 := "d" + r11;
    var r9 := " " + r10;
    var r8 := "," + r9;
    var r7 := "c" + r8;
    var r6 := "<" + r7;
    var r5 := "b" + r6;
    var r4 := " " + r5;
    var r3 := "," + r4;
    var r2 := "b" + r3;
    ProbeWord("b", r6, "<", 0);
  }

  lemma BitshiftThatLooksLikeAGenericProbe1_4()
    ensures Probe("<" + ("c" + ("," + (" " + ("d" + (">>" + ("e" + "")))))), "<", 0) == Probe(("c" + ("," + (" " + ("d" + (">>" + ("e" + "")))))), "<<", 0)
  {
    var r13 := "";
    var r12 := "e" + r13;
    var r11 := ">>" + r12;
    var r10 := "d" + r11;
    var r9 := " " + r10;
    var r8 := "," + r9;
    var r7 := "c" + r8;
    var r6 := "<" + r7;
    var r5 := "b" + r6;
    var r4 := " " + r5;
    var r3 := "," + r4;
    var r2 := "b" + r3;
    ProbeOpen("<", r7, "<", "<<", 0);
  }

  lemma BitshiftThatLooksLikeAGenericProbe1_5()
    ensures Probe("c" + ("," + (" " + ("d" + (">>" + ("e" + ""))))), "<<", 0) == Probe(("," + (" " + ("d" + (">>" + ("e" + ""))))), "<<", 0)
  {
    var r13 := "";
    var r12 := "e" + r13;
    var r11 := ">>" + r12;
    var r10 := "d" + r11;
    var r9 := " " + r10;
    var r8 := "," + r9;
    var r7 := "c" + r8;
    var r6 := "<" + r7;
    var r5 := "b" + r6;
    var r4 := " " + r5;
    var r3 := "," + r4;
    var r2 := "b" + r3;
    ProbeWord("c", r8, "<<", 0);
  }

  lemma BitshiftThatLooksLikeAGenericProbe1_6()
    ensures Probe("," + (" " + ("d" + (">>" + ("e" + "")))), "<<", 0) == Probe((" " + ("d" + (">>" + ("e" + "")))), "<<", 0)
  {
    var r13 := "";
    var r12 := "e" + r13;
    var r11 := ">>" + r12;
    var r10 := "d" + r11;
    var r9 := " " + r10;
    var r8 := "," + r9;
    var r7 := "c" + r8;
    var r6 := "<" + r7;
    var r5 := "b" + r6;
    var r4 := " " + r5;
    var r3 := "," + r4;
    var r2 := "b" + r3;
    ProbeSkip(",", r9, "<<", 0);
  }

  lemma BitshiftThatLooksLikeAGenericProbe1_7()
    ensures Probe(" " + ("d" + (">>" + ("e" + ""))), "<<", 0) == Probe(("d" + (">>" + ("e" + ""))), "<<", 0)
  {
    var r13 := "";
    var r12 := "e" + r13;
    var r11 := ">>" + r12;
    var r10 := "d" + r11;
    var r9 := " " + r10;
    var r8 := "," + r9;
    var r7 := "c" + r8;
    var r6 := "<" + r7;
    var r5 := "b" + r6;
    var r4 := " " + r5;
    var r3 := "," + r4;
    var r2 := "b" + r3;
    ProbeSkip(" ", r10, "<<", 0);
  }

  lemma BitshiftThatLooksLikeAGenericProbe1_8()
    ensures Probe("d" + (">>" + ("e" + "")), "<<", 0) == Probe((">>" + ("e" + "")), "<<", 0)
  {
    var r13 := "";
    var r12 := "e" + r13;
    var r11 := ">>" + r12;
    var r10 := "d" + r11;
    var r9 := " " + r10;
    var r8 := "," + r9;
    var r7 := "c" + r8;
    var r6 := "<" + r7;
    var r5 := "b" + r6;
    var r4 := " " + r5;
    var r3 := "," + r4;
    var r2 := "b" + r3;
    ProbeWord("d", r11, "<<", 0);
  }

  lemma BitshiftThatLooksLikeAGenericProbe1_9()
    ensures Probe(">" + (">" + ("e" + "")), "<<", 0) == Probe((">" + ("e" + "")), "<", 0)
  {
    var r13 := "";
    var r12 := "e" + r13;
    var r11 := ">>" + r12;
    var r10 := "d" + r11;
    var r9 := " " + r10;
    var r8 := "," + r9;
    var r7 := "c" + r8;
    var r6 := "<" + r7;
    var r5 := "b" + r6;
    var r4 := " " + r5;
    var r3 := "," + r4;
    var r2 := "b" + r3;
    assert ">>" + r12 == ">" + (">" + r12);
    ChevronRunOf(">", r12);
    ProbeChevronPops((">" + r12), "<<", "<", 0);
  }

  lemma BitshiftThatLooksLikeAGenericProbe1_10()
    ensures !Probe(">" + ("e" + ""), "<", 0)
  {
    var r13 := "";
    var r12 := "e" + r13;
    var r11 := ">>" + r12;
    var r10 := "d" + r11;
    var r9 := " " + r10;
    var r8 := "," + r9;
    var r7 := "c" + r8;
    var r6 := "<" + r7;
    var r5 := "b" + r6;
    var r4 := " " + r5;
    var r3 := "," + r4;
    var r2 := "b" + r3;
    assert ">>" + r12 == ">" + (">" + r12);
    ProbeChevronFails(r12, "<", 0);
  }

  lemma BitshiftThatLooksLikeAGenericProbe1()
    ensures !Probe("b" + ("," + (" " + ("b" + ("<" + ("c" + ("," + (" " + ("d" + (">>" + ("e" + "")))))))))), "<", 0)
  {
    var r13 := "";
    var r12 := "e" + r13;
    var r11 := ">>" + r12;
    var r10 := "d" + r11;
    var r9 := " " + r10;
    var r8 := "," + r9;
    var r7 := "c" + r8;
    var r6 := "<" + r7;
    var r5 := "b" + r6;
    var r4 := " " + r5;
    var r3 := "," + r4;
    var r2 := "b" + r3;
    assert ">>" + r12 == ">" + (">" + r12);
    BitshiftThatLooksLikeAGenericProbe1_0();
    BitshiftThatLooksLikeAGenericProbe1_1();
    BitshiftThatLooksLikeAGenericProbe1_2();
    BitshiftThatLooksLikeAGenericProbe1_3();
    BitshiftThatLooksLikeAGenericProbe1_4();
    BitshiftThatLooksLikeAGenericProbe1_5();
    BitshiftThatLooksLikeAGenericProbe1_6();
    BitshiftThatLooksLikeAGenericProbe1_7();
    BitshiftThatLooksLikeAGenericProbe1_8();
    BitshiftThatLooksLikeAGenericProbe1_9();
    BitshiftThatLooksLikeAGenericProbe1_10();
  }

  lemma BitshiftThatLooksLikeAGenericStep2()
    ensures Lex("b" + ("," + (" " + ("b" + ("<" + ("c" + ("," + (" " + ("d" + (">>" + ("e" + "")))))))))), Lexer([], Some(Operator), false, false)) ==
            [Token(Identifier, "b")] + Lex("," + (" " + ("b" + ("<" + ("c" + ("," + (" " + ("d" + (">>" + ("e" + ""))))))))), Lexer([], Some(Identifier), false, false))
  {
    var r13 := "";
    var r12 := "e" + r13;
    var r11 := ">>" + r12;
    var r10 := "d" + r11;
    var r9 := " " + r10;
    var r8 := "," + r9;
    var r7 := "c" + r8;
    var r6 := "<" + r7;
    var r5 := "b" + r6;
    var r4 := " " + r5;
    var r3 := "," + r4;
    var r2 := "b" + r3;
    CodeIdentifier("b", r3, Lexer([], Some(Operator), false, false));
    LexOne("b", r3, Lexer([], Some(Operator), false, false), Token(Identifier, "b"), Lexer([], Some(Identifier), false, false));
  }

  lemma BitshiftThatLooksLikeAGenericStep3()
    ensures Lex("," + (" " + ("b" + ("<" + ("c" + ("," + (" " + ("d" + (">>" + ("e" + ""))))))))), Lexer([], Some(Identifier), false, false)) ==
            [Token(Operator, ",")] + Lex(" " + ("b" + ("<" + ("c" + ("," + (" " + ("d" + (">>" + ("e" + "")))))))), Lexer([], Some(Operator), false, false))
  {
    var r13 := "";
    var r12 := "e" + r13;
    var r11 := ">>" + r12;
    var r10 := "d" + r11;
    var r9 := " " + r10;
    var r8 := "," + r9;
    var r7 := "c" + r8;
    var r6 := "<" + r7;
    var r5 := "b" + r6;
    var r4 := " " + r5;
    var r3 := "," + r4;
    CodePunctuation(",", r4, Lexer([], Some(Identifier), false, false));
    LexOne(",", r4, Lexer([], Some(Identifier), false, false), Token(Operator, ","), Lexer([], Some(Operator), false, false));
  }

  lemma BitshiftThatLooksLikeAGenericStep4()
    ensures Lex(" " + ("b" + ("<" + ("c" + ("," + (" " + ("d" + (">>" + ("e" + "")))))))), Lexer([], Some(Operator), false, false)) ==
            [Token(Whitespace, " ")] + Lex("b" + ("<" + ("c" + ("," + (" " + ("d" + (">>" + ("e" + ""))))))), Lexer([], Some(Whitespace), false, false))
  {
    var r13 := "";
    var r12 := "e" + r13;
    var r11 := ">>" + r12;
    var r10 := "d" + r11;
    var r9 := " " + r10;
    var r8 := "," + r9;
    var r7 := "c" + r8;
    var r6 := "<" + r7;
    var r5 := "b" + r6;
    var r4 := " " + r5;
    WhitespaceToken(" ", r5, Lexer([], Some(Operator), false, false));
    LexOne(" ", r5, Lexer([], Some(Operator), false, false), Token(Whitespace, " "), Lexer([], Some(Whitespace), false, false));
  }

  lemma BitshiftThatLooksLikeAGenericStep5()
    ensures Lex("b" + ("<" + ("c" + ("," + (" " + ("d" + (">>" + ("e" + ""))))))), Lexer([], Some(Whitespace), false, false)) ==
            [Token(Identifier, "b")] + Lex("<" + ("c" + ("," + (" " + ("d" + (">>" + ("e" + "")))))), Lexer([], Some(Identifier), false, false))
  {
    var r13 := "";
    var r12 := "e" + r13;
    var r11 := ">>" + r12;
    var r10 := "d" + r11;
    var r9 := " " + r10;
    var r8 := "," + r9;
    var r7 := "c" + r8;
    var r6 := "<" + r7;
    var r5 := "b" + r6;
    CodeIdentifier("b", r6, Lexer([], Some(Whitespace), false, false));
    LexOne("b", r6, Lexer([], Some(Whitespace), false, false), Token(Identifier, "b"), Lexer([], Some(Identifier), false, false));
  }

  lemma BitshiftThatLooksLikeAGenericStep6()
    ensures Lex("<" + ("c" + ("," + (" " + ("d" + (">>" + ("e" + "")))))), Lexer([], Some(Identifier), false, false)) ==
            [Token(Operator, "<")] + Lex("c" + ("," + (" " + ("d" + (">>" + ("e" + ""))))), Lexer([], Some(Operator), false, false))
  {
    var r13 := "";
    var r12 := "e" + r13;
    var r11 := ">>" + r12;
    var r10 := "d" + r11;
    var r9 := " " + r10;
    var r8 := "," + r9;
    var r7 := "c" + r8;
    var r6 := "<" + r7;
    assert ("<" + r7)[1..] == r7;
    BitshiftThatLooksLikeAGenericProbe6();
    CodeOperator("<", r7, Lexer([], Some(Identifier), false, false));
    LexOne("<", r7, Lexer([], Some(Identifier), false, false), Token(Operator, "<"), Lexer([], Some(Operator), false, false));
  }

  lemma BitshiftThatLooksLikeAGenericProbe6_0()
    ensures Probe("c" + ("," + (" " + ("d" + (">>" + ("e" + ""))))), "<", 0) == Probe(("," + (" " + ("d" + (">>" + ("e" + ""))))), "<", 0)
  {
    var r13 := "";
    var r12 := "e" + r13;
    var r11 := ">>" + r12;
    var r10 := "d" + r11;
    var r9 := " " + r10;
    var r8 := "," + r9;
    var r7 := "c" + r8;
    ProbeWord("c", r8, "<", 0);
  }

  lemma BitshiftThatLooksLikeAGenericProbe6_1()
    ensures Probe("," + (" " + ("d" + (">>" + ("e" + "")))), "<", 0) == Probe((" " + ("d" + (">>" + ("e" + "")))), "<", 0)
  {
    var r13 := "";
    var r12 := "e" + r13;
    var r11 := ">>" + r12;
    var r10 := "d" + r11;
    var r9 := " " + r10;
    var r8 := "," + r9;
    var r7 := "c" + r8;
    ProbeSkip(",", r9, "<", 0);
  }

  lemma BitshiftThatLooksLikeAGenericProbe6_2()
    ensures Probe(" " + ("d" + (">>" + ("e" + ""))), "<", 0) == Probe(("d" + (">>" + ("e" + ""))), "<", 0)
  {
    var r13 := "";
    var r12 := "e" + r13;
    var r11 := ">>" + r12;
    var r10 := "d" + r11;
    var r9 := " " + r10;
    var r8 := "," + r9;
    var r7 := "c" + r8;
    ProbeSkip(" ", r10, "<", 0);
  }

  lemma BitshiftThatLooksLikeAGenericProbe6_3()
    ensures Probe("d" + (">>" + ("e" + "")), "<", 0) == Probe((">>" + ("e" + "")), "<", 0)
  {
    var r13 := "";
    var r12 := "e" + r13;
    var r11 := ">>" + r12;
    var r10 := "d" + r11;
    var r9 := " " + r10;
    var r8 := "," + r9;
    var r7 := "c" + r8;
    ProbeWord("d", r11, "<", 0);
  }

  lemma BitshiftThatLooksLikeAGenericProbe6_4()
    ensures !Probe(">" + (">" + ("e" + "")), "<", 0)
  {
    var r13 := "";
    var r12 := "e" + r13;
    var r11 := ">>" + r12;
    var r10 := "d" + r11;
    var r9 := " " + r10;
    var r8 := "," + r9;
    var r7 := "c" + r8;
    assert ">>" + r12 == ">" + (">" + r12);
    ChevronRunOf(">", r12);
    ProbeChevronFails((">" + r12), "<", 0);
  }

  lemma BitshiftThatLooksLikeAGenericProbe6()
    ensures !Probe("c" + ("," + (" " + ("d" + (">>" + ("e" + ""))))), "<", 0)
  {
    var r13 := "";
    var r12 := "e" + r13;
    var r11 := ">>" + r12;
    var r10 := "d" + r11;
    var r9 := " " + r10;
    var r8 := "," + r9;
    var r7 := "c" + r8;
    assert ">>" + r12 == ">" + (">" + r12);
    BitshiftThatLooksLikeAGenericProbe6_0();
    BitshiftThatLooksLikeAGenericProbe6_1();
    BitshiftThatLooksLikeAGenericProbe6_2();
    BitshiftThatLooksLikeAGenericProbe6_3();
    BitshiftThatLooksLikeAGenericProbe6_4();
  }

  lemma BitshiftThatLooksLikeAGenericStep7()
    ensures Lex("c" + ("," + (" " + ("d" + (">>" + ("e" + ""))))), Lexer([], Some(Operator), false, false)) ==
            [Token(Identifier, "c")] + Lex("," + (" " + ("d" + (">>" + ("e" + "")))), Lexer([], Some(Identifier), false, false))
  {
    var r13 := "";
    var r12 := "e" + r13;
    var r11 := ">>" + r12;
    var r10 := "d" + r11;
    var r9 := " " + r10;
    var r8 := "," + r9;
    var r7 := "c" + r8;
    CodeIdentifier("c", r8, Lexer([], Some(Operator), false, false));
    LexOne("c", r8, Lexer([], Some(Operator), false, false), Token(Identifier, "c"), Lexer([], Some(Identifier), false, false));
  }

  lemma BitshiftThatLooksLikeAGenericStep8()
    ensures Lex("," + (" " + ("d" + (">>" + ("e" + "")))), Lexer([], Some(Identifier), false, false)) ==
            [Token(Operator, ",")] + Lex(" " + ("d" + (">>" + ("e" + ""))), Lexer([], Some(Operator), false, false))
  {
    var r13 := "";
    var r12 := "e" + r13;
    var r11 := ">>" + r12;
    var r10 := "d" + r11;
    var r9 := " " + r10;
    var r8 := "," + r9;
    CodePunctuation(",", r9, Lexer([], Some(Identifier), false, false));
    LexOne(",", r9, Lexer([], Some(Identifier), false, false), Token(Operator, ","), Lexer([], Some(Operator), false, false));
  }

  lemma BitshiftThatLooksLikeAGenericStep9()
    ensures Lex(" " + ("d" + (">>" + ("e" + ""))), Lexer([], Some(Operator), false, false)) ==
            [Token(Whitespace, " ")] + Lex("d" + (">>" + ("e" + "")), Lexer([], Some(Whitespace), false, false))
  {
    var r13 := "";
    var r12 := "e" + r13;
    var r11 := ">>" + r12;
    var r10 := "d" + r11;
    var r9 := " " + r10;
    WhitespaceToken(" ", r10, Lexer([], Some(Operator), false, false));
    LexOne(" ", r10, Lexer([], Some(Operator), false, false), Token(Whitespace, " "), Lexer([], Some(Whitespace), false, false));
  }

  lemma BitshiftThatLooksLikeAGenericStep10()
    ensures Lex("d" + (">>" + ("e" + "")), Lexer([], Some(Whitespace), false, false)) ==
            [Token(Identifier, "d")] + Lex(">>" + ("e" + ""), Lexer([], Some(Identifier), false, false))
  {
    var r13 := "";
    var r12 := "e" + r13;
    var r11 := ">>" + r12;
    var r10 := "d" + r11;
    CodeIdentifier("d", r11, Lexer([], Some(Whitespace), false, false));
    LexOne("d", r11, Lexer([], Some(Whitespace), false, false), Token(Identifier, "d"), Lexer([], Some(Identifier), false, false));
  }

  lemma BitshiftThatLooksLikeAGenericStep11()
    ensures Lex(">>" + ("e" + ""), Lexer([], Some(Identifier), false, false)) ==
            [Token(Operator, ">>")] + Lex("e" + "", Lexer([], Some(Operator), false, false))
  {
    var r13 := "";
    var r12 := "e" + r13;
    var r11 := ">>" + r12;
    CodeOperator(">>", r12, Lexer([], Some(Identifier), false, false));
    LexOne(">>", r12, Lexer([], Some(Identifier), false, false), Token(Operator, ">>"), Lexer([], Some(Operator), false, false));
  }

  lemma BitshiftThatLooksLikeAGenericStep12()
    ensures Lex("e" + "", Lexer([], Some(Operator), false, false)) ==
            [Token(Identifier, "e")] + Lex("", Lexer([], Some(Identifier), false, false))
  {
    var r13 := "";
    var r12 := "e" + r13;
    CodeIdentifier("e", r13, Lexer([], Some(Operator), false, false));
    LexOne("e", r13, Lexer([], Some(Operator), false, false), Token(Identifier, "e"), Lexer([], Some(Identifier), false, false));
  }

  // SwiftFormatTests/TokenizerTests.swift:553-565
  lemma BasicGeneric()
    ensures Tokenize("Foo" + ("<" + ("Bar" + ("," + (" " + ("Baz" + (">" + ""))))))) ==
            [Token(Identifier, "Foo")] + ([Token(StartOfScope, "<")] + ([Token(Identifier, "Bar")] + ([Token(Operator, ",")] + ([Token(Whitespace, " ")] + ([Token(Identifier, "Baz")] + ([Token(EndOfScope, ">")] + []))))))
  {
    BasicGenericStep0();
    BasicGenericStep1();
    BasicGenericStep2();
    BasicGenericStep3();
    BasicGenericStep4();
    BasicGenericStep5();
    BasicGenericStep6();
  }

  lemma BasicGenericStep0()
    ensures Lex("Foo" + ("<" + ("Bar" + ("," + (" " + ("Baz" + (">" + "")))))), Lexer([], None, false, false)) ==
            [Token(Identifier, "Foo")] + Lex("<" + ("Bar" + ("," + (" " + ("Baz" + (">" + ""))))), Lexer([], Some(Identifier), false, false))
  {
    var r7 := "";
    var r6 := ">" + r7;
    var r5 := "Baz" + r6;
    var r4 := " " + r5;
    var r3 := "," + r4;
    var r2 := "Bar" + r3;
    var r1 := "<" + r2;
    var r0 := "Foo" + r1;
    CodeIdentifier("Foo", r1, Lexer([], None, false, false));
    LexOne("Foo", r1, Lexer([], None, false, false), Token(Identifier, "Foo"), Lexer([], Some(Identifier), false, false));
  }

  lemma BasicGenericStep1()
    ensures Lex("<" + ("Bar" + ("," + (" " + ("Baz" + (">" + ""))))), Lexer([], Some(Identifier), false, false)) ==
            [Token(StartOfScope, "<")] + Lex("Bar" + ("," + (" " + ("Baz" + (">" + "")))), Lexer([Generic], Some(StartOfScope), false, false))
  {
    var r7 := "";
    var r6 := ">" + r7;
    var r5 := "Baz" + r6;
    var r4 := " " + r5;
    var r3 := "," + r4;
    var r2 := "Bar" + r3;
    var r1 := "<" + r2;
    BasicGenericProbe1();
    CodeGenericOpen(r2, Lexer([], Some(Identifier), false, false));
    LexOne("<", r2, Lexer([], Some(Identifier), false, false), Token(StartOfScope, "<"), Lexer([Generic], Some(StartOfScope), false, false));
  }

  lemma BasicGenericProbe1_0()
    ensures Probe("Bar" + ("," + (" " + ("Baz" + (">" + "")))), "<", 0) == Probe(("," + (" " + ("Baz" + (">" + "")))), "<", 0)
  {
    var r7 := "";
    var r6 := ">" + r7;
    var r5 := "Baz" + r6;
    var r4 := " " + r5;
    var r3 := "," + r4;
    var r2 := "Bar" + r3;
    ProbeWord("Bar", r3, "<", 0);
  }

  lemma BasicGenericProbe1_1()
    ensures Probe("," + (" " + ("Baz" + (">" + ""))), "<", 0) == Probe((" " + ("Baz" + (">" + ""))), "<", 0)
  {
    var r7 := "";
    var r6 := ">" + r7;
    var r5 := "Baz" + r6;
    var r4 := " " + r5;
    var r3 := "," + r4;
    var r2 := "Bar" + r3;
    ProbeSkip(",", r4, "<", 0);
  }

  lemma BasicGenericProbe1_2()
    ensures Probe(" " + ("Baz" + (">" + "")), "<", 0) == Probe(("Baz" + (">" + "")), "<", 0)
  {
    var r7 := "";
    var r6 := ">" + r7;
    var r5 := "Baz" + r6;
    var r4 := " " + r5;
    var r3 := "," + r4;
    var r2 := "Bar" + r3;
    ProbeSkip(" ", r5, "<", 0);
  }

  lemma BasicGenericProbe1_3()
    ensures Probe("Baz" + (">" + ""), "<", 0) == Probe((">" + ""), "<", 0)
  {
    var r7 := "";
    var r6 := ">" + r7;
    var r5 := "Baz" + r6;
    var r4 := " " + r5;
    var r3 := "," + r4;
    var r2 := "Bar" + r3;
    ProbeWord("Baz", r6, "<", 0);
  }

  lemma BasicGenericProbe1_4()
    ensures Probe(">" + (""), "<", 0)
  {
    var r7 := "";
    var r6 := ">" + r7;
    var r5 := "Baz" + r6;
    var r4 := " " + r5;
    var r3 := "," + r4;
    var r2 := "Bar" + r3;
    ProbeChevronEnds(r7, "<", 0);
  }

  lemma BasicGenericProbe1()
    ensures Probe("Bar" + ("," + (" " + ("Baz" + (">" + "")))), "<", 0)
  {
    var r7 := "";
    var r6 := ">" + r7;
    var r5 := "Baz" + r6;
    var r4 := " " + r5;
    var r3 := "," + r4;
    var r2 := "Bar" + r3;
    BasicGenericProbe1_0();
    BasicGenericProbe1_1();
    BasicGenericProbe1_2();
    BasicGenericProbe1_3();
    BasicGenericProbe1_4();
  }

  lemma BasicGenericStep2()
    ensures Lex("Bar" + ("," + (" " + ("Baz" + (">" + "")))), Lexer([Generic], Some(StartOfScope), false, false)) ==
            [Token(Identifier, "Bar")] + Lex("," + (" " + ("Baz" + (">" + ""))), Lexer([Generic], Some(Identifier), false, false))
  {
    var r7 := "";
    var r6 := ">" + r7;
    var r5 := "Baz" + r6;
    var r4 := " " + r5;
    var r3 := "," + r4;
    var r2 := "Bar" + r3;
    CodeIdentifier("Bar", r3, Lexer([Generic], Some(StartOfScope), false, false));
    LexOne("Bar", r3, Lexer([Generic], Some(StartOfScope), false, false), Token(Identifier, "Bar"), Lexer([Generic], Some(Identifier), false, false));
  }

  lemma BasicGenericStep3()
    ensures Lex("," + (" " + ("Baz" + (">" + ""))), Lexer([Generic], Some(Identifier), false, false)) ==
            [Token(Operator, ",")] + Lex(" " + ("Baz" + (">" + "")), Lexer([Generic], Some(Operator), false, false))
  {
    var r7 := "";
    var r6 := ">" + r7;
    var r5 := "Baz" + r6;
    var r4 := " " + r5;
    var r3 := "," + r4;
    CodePunctuation(",", r4, Lexer([Generic], Some(Identifier), false, false));
    LexOne(",", r4, Lexer([Generic], Some(Identifier), false, false), Token(Operator, ","), Lexer([Generic], Some(Operator), false, false));
  }

  lemma BasicGenericStep4()
    ensures Lex(" " + ("Baz" + (">" + "")), Lexer([Generic], Some(Operator), false, false)) ==
            [Token(Whitespace, " ")] + Lex("Baz" + (">" + ""), Lexer([Generic], Some(Whitespace), false, false))
  {
    var r7 := "";
    var r6 := ">" + r7;
    var r5 := "Baz" + r6;
    var r4 := " " + r5;
    WhitespaceToken(" ", r5, Lexer([Generic], Some(Operator), false, false));
    LexOne(" ", r5, Lexer([Generic], Some(Operator), false, false), Token(Whitespace, " "), Lexer([Generic], Some(Whitespace), false, false));
  }

  lemma BasicGenericStep5()
    ensures Lex("Baz" + (">" + ""), Lexer([Generic], Some(Whitespace), false, false)) ==
            [Token(Identifier, "Baz")] + Lex(">" + "", Lexer([Generic], Some(Identifier), false, false))
  {
    var r7 := "";
    var r6 := ">" + r7;
    var r5 := "Baz" + r6;
    CodeIdentifier("Baz", r6, Lexer([Generic], Some(Whitespace), false, false));
    LexOne("Baz", r6, Lexer([Generic], Some(Whitespace), false, false), Token(Identifier, "Baz"), Lexer([Generic], Some(Identifier), false, false));
  }

  lemma BasicGenericStep6()
    ensures Lex(">" + "", Lexer([Generic], Some(Identifier), false, false)) ==
            [Token(EndOfScope, ">")] + Lex("", Lexer([], Some(EndOfScope), false, false))
  {
    var r7 := "";
    var r6 := ">" + r7;
    CodeGenericClose(r7, Lexer([Generic], Some(Identifier), false, false));
    LexOne(">", r7, Lexer([Generic], Some(Identifier), false, false), Token(EndOfScope, ">"), Lexer([], Some(EndOfScope), false, false));
  }

  // SwiftFormatTests/TokenizerTests.swift:567-579
  lemma NestedGenerics()
    ensures Tokenize("Foo" + ("<" + ("Bar" + ("<" + ("Baz" + (">" + (">" + ""))))))) ==
            [Token(Identifier, "Foo")] + ([Token(StartOfScope, "<")] + ([Token(Identifier, "Bar")] + ([Token(StartOfScope, "<")] + ([Token(Identifier, "Baz")] + ([Token(EndOfScope, ">")] + ([Token(EndOfScope, ">")] + []))))))
  {
    NestedGenericsStep0();
    NestedGenericsStep1();
    NestedGenericsStep2();
    NestedGenericsStep3();
    NestedGenericsStep4();
    NestedGenericsStep5();
    NestedGenericsStep6();
  }

  lemma NestedGenericsStep0()
    ensures Lex("Foo" + ("<" + ("Bar" + ("<" + ("Baz" + (">" + (">" + "")))))), Lexer([], None, false, false)) ==
            [Token(Identifier, "Foo")] + Lex("<" + ("Bar" + ("<" + ("Baz" + (">" + (">" + ""))))), Lexer([], Some(Identifier), false, false))
  {
    var r7 := "";
    var r6 := ">" + r7;
    var r5 := ">" + r6;
    var r4 := "Baz" + r5;
    var r3 := "<" + r4;
    var r2 := "Bar" + r3;
    var r1 := "<" + r2;
    var r0 := "Foo" + r1;
    CodeIdentifier("Foo", r1, Lexer([], None, false, false));
    LexOne("Foo", r1, Lexer([], None, false, false), Token(Identifier, "Foo"), Lexer([], Some(Identifier), false, false));
  }

  lemma NestedGenericsStep1()
    ensures Lex("<" + ("Bar" + ("<" + ("Baz" + (">" + (">" + ""))))), Lexer([], Some(Identifier), false, false)) ==
            [Token(StartOfScope, "<")] + Lex("Bar" + ("<" + ("Baz" + (">" + (">" + "")))), Lexer([Generic], Some(StartOfScope), false, false))
  {
    var r7 := "";
    var r6 := ">" + r7;
    var r5 := ">" + r6;
    var r4 := "Baz" + r5;
    var r3 := "<" + r4;
    var r2 := "Bar" + r3;
    var r1 := "<" + r2;
    NestedGenericsProbe1();
    CodeGenericOpen(r2, Lexer([], Some(Identifier), false, false));
    LexOne("<", r2, Lexer([], Some(Identifier), false, false), Token(StartOfScope, "<"), Lexer([Generic], Some(StartOfScope), false, false));
  }

  lemma NestedGenericsProbe1_0()
    ensures Probe("Bar" + ("<" + ("Baz" + (">" + (">" + "")))), "<", 0) == Probe(("<" + ("Baz" + (">" + (">" + "")))), "<", 0)
  {
    var r7 := "";
    var r6 := ">" + r7;
    var r5 := ">" + r6;
    var r4 := "Baz" + r5;
    var r3 := "<" + r4;
    var r2 := "Bar" + r3;
    ProbeWord("Bar", r3, "<", 0);
  }

  lemma NestedGenericsProbe1_1()
    ensures Probe("<" + ("Baz" + (">" + (">" + ""))), "<", 0) == Probe(("Baz" + (">" + (">" + ""))), "<<", 0)
  {
    var r7 := "";
    var r6 := ">" + r7;
    var r5 := ">" + r6;
    var r4 := "Baz" + r5;
    var r3 := "<" + r4;
    var r2 := "Bar" + r3;
    ProbeOpen("<", r4, "<", "<<", 0);
  }

  lemma NestedGenericsProbe1_2()
    ensures Probe("Baz" + (">" + (">" + "")), "<<", 0) == Probe((">" + (">" + "")), "<<", 0)
  {
    var r7 := "";
    var r6 := ">" + r7;
    var r5 := ">" + r6;
    var r4 := "Baz" + r5;
    var r3 := "<" + r4;
    var r2 := "Bar" + r3;
    ProbeWord("Baz", r5, "<<", 0);
  }

  lemma NestedGenericsProbe1_3()
    ensures Probe(">" + (">" + ""), "<<", 0) == Probe((">" + ""), "<", 0)
  {
    var r7 := "";
    var r6 := ">" + r7;
    var r5 := ">" + r6;
    var r4 := "Baz" + r5;
    var r3 := "<" + r4;
    var r2 := "Bar" + r3;
    assert r6 == ">" + r7;
    ChevronRunOf(">", r7);
    ProbeChevronPops(r6, "<<", "<", 0);
  }

  lemma NestedGenericsProbe1_4()
    ensures Probe(">" + (""), "<", 0)
  {
    var r7 := "";
    var r6 := ">" + r7;
    var r5 := ">" + r6;
    var r4 := "Baz" + r5;
    var r3 := "<" + r4;
    var r2 := "Bar" + r3;
    ProbeChevronEnds(r7, "<", 0);
  }

  lemma NestedGenericsProbe1()
    ensures Probe("Bar" + ("<" + ("Baz" + (">" + (">" + "")))), "<", 0)
  {
    var r7 := "";
    var r6 := ">" + r7;
    var r5 := ">" + r6;
    var r4 := "Baz" + r5;
    var r3 := "<" + r4;
    var r2 := "Bar" + r3;
    NestedGenericsProbe1_0();
    NestedGenericsProbe1_1();
    NestedGenericsProbe1_2();
    NestedGenericsProbe1_3();
    NestedGenericsProbe1_4();
  }

  lemma NestedGenericsStep2()
    ensures Lex("Bar" + ("<" + ("Baz" + (">" + (">" + "")))), Lexer([Generic], Some(StartOfScope), false, false)) ==
            [Token(Identifier, "Bar")] + Lex("<" + ("Baz" + (">" + (">" + ""))), Lexer([Generic], Some(Identifier), false, false))
  {
    var r7 := "";
    var r6 := ">" + r7;
    var r5 := ">" + r6;
    var r4 := "Baz" + r5;
    var r3 := "<" + r4;
    var r2 := "Bar" + r3;
    CodeIdentifier("Bar", r3, Lexer([Generic], Some(StartOfScope), false, false));
    LexOne("Bar", r3, Lexer([Generic], Some(StartOfScope), false, false), Token(Identifier, "Bar"), Lexer([Generic], Some(Identifier), false, false));
  }

  lemma NestedGenericsStep3()
    ensures Lex("<" + ("Baz" + (">" + (">" + ""))), Lexer([Generic], Some(Identifier), false, false)) ==
            [Token(StartOfScope, "<")] + Lex("Baz" + (">" + (">" + "")), Lexer([Generic, Generic], Some(StartOfScope), false, false))
  {
    var r7 := "";
    var r6 := ">" + r7;
    var r5 := ">" + r6;
    var r4 := "Baz" + r5;
    var r3 := "<" + r4;
    NestedGenericsProbe3();
    CodeGenericOpen(r4, Lexer([Generic], Some(Identifier), false, false));
    LexOne("<", r4, Lexer([Generic], Some(Identifier), false, false), Token(StartOfScope, "<"), Lexer([Generic, Generic], Some(StartOfScope), false, false));
  }

  lemma NestedGenericsProbe3_0()
    ensures Probe("Baz" + (">" + (">" + "")), "<", 1) == Probe((">" + (">" + "")), "<", 1)
  {
    var r7 := "";
    var r6 := ">" + r7;
    var r5 := ">" + r6;
    var r4 := "Baz" + r5;
    ProbeWord("Baz", r5, "<", 1);
  }

  lemma NestedGenericsProbe3_1()
    ensures Probe(">" + (">" + ""), "<", 1)
  {
    var r7 := "";
    var r6 := ">" + r7;
    var r5 := ">" + r6;
    var r4 := "Baz" + r5;
    assert r6 == ">" + r7;
    ChevronRunOf(">", r7);
    ProbeChevronEnds(r6, "<", 1);
  }

  lemma NestedGenericsProbe3()
    ensures Probe("Baz" + (">" + (">" + "")), "<", 1)
  {
    var r7 := "";
    var r6 := ">" + r7;
    var r5 := ">" + r6;
    var r4 := "Baz" + r5;
    NestedGenericsProbe3_0();
    NestedGenericsProbe3_1();
  }

  lemma NestedGenericsStep4()
    ensures Lex("Baz" + (">" + (">" + "")), Lexer([Generic, Generic], Some(StartOfScope), false, false)) ==
            [Token(Identifier, "Baz")] + Lex(">" + (">" + ""), Lexer([Generic, Generic], Some(Identifier), false, false))
  {
    var r7 := "";
    var r6 := ">" + r7;
    var r5 := ">" + r6;
    var r4 := "Baz" + r5;
    CodeIdentifier("Baz", r5, Lexer([Generic, Generic], Some(StartOfScope), false, false));
    LexOne("Baz", r5, Lexer([Generic, Generic], Some(StartOfScope), false, false), Token(Identifier, "Baz"), Lexer([Generic, Generic], Some(Identifier), false, false));
  }

  lemma NestedGenericsStep5()
    ensures Lex(">" + (">" + ""), Lexer([Generic, Generic], Some(Identifier), false, false)) ==
            [Token(EndOfScope, ">")] + Lex(">" + "", Lexer([Generic], Some(EndOfScope), false, false))
  {
    var r7 := "";
    var r6 := ">" + r7;
    var r5 := ">" + r6;
    CodeGenericClose(r6, Lexer([Generic, Generic], Some(Identifier), false, false));
    LexOne(">", r6, Lexer([Generic, Generic], Some(Identifier), false, false), Token(EndOfScope, ">"), Lexer([Generic], Some(EndOfScope), false, false));
  }

  lemma NestedGenericsStep6()
    ensures Lex(">" + "", Lexer([Generic], Some(EndOfScope), false, false)) ==
            [Token(EndOfScope, ">")] + Lex("", Lexer([], Some(EndOfScope), false, false))
  {
    var r7 := "";
    var r6 := ">" + r7;
    CodeGenericClose(r7, Lexer([Generic], Some(EndOfScope), false, false));
    LexOne(">", r7, Lexer([Generic], Some(EndOfScope), false, false), Token(EndOfScope, ">"), Lexer([], Some(EndOfScope), false, false));
  }

  // SwiftFormatTests/TokenizerTests.swift:581-592
  lemma FunctionThatLooksLikeGenericType()
    ensures Tokenize("y" + ("<" + ("CGRectGetMaxY" + ("(" + ("r" + (")" + "")))))) ==
            [Token(Identifier, "y")] + ([Token(Operator, "<")] + ([Token(Identifier, "CGRectGetMaxY")] + ([Token(StartOfScope, "(")] + ([Token(Identifier, "r")] + ([Token(EndOfScope, ")")] + [])))))
  {
    FunctionThatLooksLikeGenericTypeStep0();
    FunctionThatLooksLikeGenericTypeStep1();
    FunctionThatLooksLikeGenericTypeStep2();
    FunctionThatLooksLikeGenericTypeStep3();
    FunctionThatLooksLikeGenericTypeStep4();
    FunctionThatLooksLikeGenericTypeStep5();
  }

  lemma FunctionThatLooksLikeGenericTypeStep0()
    ensures Lex("y" + ("<" + ("CGRectGetMaxY" + ("(" + ("r" + (")" + ""))))), Lexer([], None, false, false)) ==
            [Token(Identifier, "y")] + Lex("<" + ("CGRectGetMaxY" + ("(" + ("r" + (")" + "")))), Lexer([], Some(Identifier), false, false))
  {
    var r6 := "";
    var r5 := ")" + r6;
    var r4 := "r" + r5;
    var r3 := "(" + r4;
    var r2 := "CGRectGetMaxY" + r3;
    var r1 := "<" + r2;
    var r0 := "y" + r1;
    CodeIdentifier("y", r1, Lexer([], None, false, false));
    LexOne("y", r1, Lexer([], None, false, false), Token(Identifier, "y"), Lexer([], Some(Identifier), false, false));
  }

  lemma FunctionThatLooksLikeGenericTypeStep1()
    ensures Lex("<" + ("CGRectGetMaxY" + ("(" + ("r" + (")" + "")))), Lexer([], Some(Identifier), false, false)) ==
            [Token(Operator, "<")] + Lex("CGRectGetMaxY" + ("(" + ("r" + (")" + ""))), Lexer([], Some(Operator), false, false))
  {
    var r6 := "";
    var r5 := ")" + r6;
    var r4 := "r" + r5;
    var r3 := "(" + r4;
    var r2 := "CGRectGetMaxY" + r3;
    var r1 := "<" + r2;
    assert ("<" + r2)[1..] == r2;
    FunctionThatLooksLikeGenericTypeProbe1();
    CodeOperator("<", r2, Lexer([], Some(Identifier), false, false));
    LexOne("<", r2, Lexer([], Some(Identifier), false, false), Token(Operator, "<"), Lexer([], Some(Operator), false, false));
  }

  lemma FunctionThatLooksLikeGenericTypeProbe1_0()
    ensures Probe("CGRectGetMaxY" + ("(" + ("r" + (")" + ""))), "<", 0) == Probe(("(" + ("r" + (")" + ""))), "<", 0)
  {
    var r6 := "";
    var r5 := ")" + r6;
    var r4 := "r" + r5;
    var r3 := "(" + r4;
    var r2 := "CGRectGetMaxY" + r3;
    ProbeWord("CGRectGetMaxY", r3, "<", 0);
  }

  lemma FunctionThatLooksLikeGenericTypeProbe1_1()
    ensures Probe("(" + ("r" + (")" + "")), "<", 0) == Probe(("r" + (")" + "")), "<(", 0)
  {
    var r6 := "";
    var r5 := ")" + r6;
    var r4 := "r" + r5;
    var r3 := "(" + r4;
    var r2 := "CGRectGetMaxY" + r3;
    ProbeOpen("(", r4, "<", "<(", 0);
  }

  lemma FunctionThatLooksLikeGenericTypeProbe1_2()
    ensures Probe("r" + (")" + ""), "<(", 0) == Probe((")" + ""), "<(", 0)
  {
    var r6 := "";
    var r5 := ")" + r6;
    var r4 := "r" + r5;
    var r3 := "(" + r4;
    var r2 := "CGRectGetMaxY" + r3;
    ProbeWord("r", r5, "<(", 0);
  }

  lemma FunctionThatLooksLikeGenericTypeProbe1_3()
    ensures Probe(")" + (""), "<(", 0) == Probe((""), "<", 0)
  {
    var r6 := "";
    var r5 := ")" + r6;
    var r4 := "r" + r5;
    var r3 := "(" + r4;
    var r2 := "CGRectGetMaxY" + r3;
    ProbeClose(")", r6, "<(", "<", 0);
  }

  lemma FunctionThatLooksLikeGenericTypeProbe1_4()
    ensures !Probe("", "<", 0)
  {
    var r6 := "";
    var r5 := ")" + r6;
    var r4 := "r" + r5;
    var r3 := "(" + r4;
    var r2 := "CGRectGetMaxY" + r3;
    assert !Probe("", "<", 0);
  }

  lemma FunctionThatLooksLikeGenericTypeProbe1()
    ensures !Probe("CGRectGetMaxY" + ("(" + ("r" + (")" + ""))), "<", 0)
  {
    var r6 := "";
    var r5 := ")" + r6;
    var r4 := "r" + r5;
    var r3 := "(" + r4;
    var r2 := "CGRectGetMaxY" + r3;
    FunctionThatLooksLikeGenericTypeProbe1_0();
    FunctionThatLooksLikeGenericTypeProbe1_1();
    FunctionThatLooksLikeGenericTypeProbe1_2();
    FunctionThatLooksLikeGenericTypeProbe1_3();
    FunctionThatLooksLikeGenericTypeProbe1_4();
  }

  lemma FunctionThatLooksLikeGenericTypeStep2()
    ensures Lex("CGRectGetMaxY" + ("(" + ("r" + (")" + ""))), Lexer([], Some(Operator), false, false)) ==
            [Token(Identifier, "CGRectGetMaxY")] + Lex("(" + ("r" + (")" + "")), Lexer([], Some(Identifier), false, false))
  {
    var r6 := "";
    var r5 := ")" + r6;
    var r4 := "r" + r5;
    var r3 := "(" + r4;
    var r2 := "CGRectGetMaxY" + r3;
    CodeIdentifier("CGRectGetMaxY", r3, Lexer([], Some(Operator), false, false));
    LexOne("CGRectGetMaxY", r3, Lexer([], Some(Operator), false, false), Token(Identifier, "CGRectGetMaxY"), Lexer([], Some(Identifier), false, false));
  }

  lemma FunctionThatLooksLikeGenericTypeStep3()
    ensures Lex("(" + ("r" + (")" + "")), Lexer([], Some(Identifier), false, false)) ==
            [Token(StartOfScope, "(")] + Lex("r" + (")" + ""), Lexer([Paren], Some(StartOfScope), false, false))
  {
    var r6 := "";
    var r5 := ")" + r6;
    var r4 := "r" + r5;
    var r3 := "(" + r4;
    CodeBracketOpen("(", r4, Lexer([], Some(Identifier), false, false));
    LexOne("(", r4, Lexer([], Some(Identifier), false, false), Token(StartOfScope, "("), Lexer([Paren], Some(StartOfScope), false, false));
  }

  lemma FunctionThatLooksLikeGenericTypeStep4()
    ensures Lex("r" + (")" + ""), Lexer([Paren], Some(StartOfScope), false, false)) ==
            [Token(Identifier, "r")] + Lex(")" + "", Lexer([Paren], Some(Identifier), false, false))
  {
    var r6 := "";
    var r5 := ")" + r6;
    var r4 := "r" + r5;
    CodeIdentifier("r", r5, Lexer([Paren], Some(StartOfScope), false, false));
    LexOne("r", r5, Lexer([Paren], Some(StartOfScope), false, false), Token(Identifier, "r"), Lexer([Paren], Some(Identifier), false, false));
  }

  lemma FunctionThatLooksLikeGenericTypeStep5()
    ensures Lex(")" + "", Lexer([Paren], Some(Identifier), false, false)) ==
            [Token(EndOfScope, ")")] + Lex("", Lexer([], Some(EndOfScope), false, false))
  {
    var r6 := "";
    var r5 := ")" + r6;
    CodeClose(")", r6, Lexer([Paren], Some(Identifier), false, false));
    LexOne(")", r6, Lexer([Paren], Some(Identifier), false, false), Token(EndOfScope, ")"), Lexer([], Some(EndOfScope), false, false));
  }

  // SwiftFormatTests/TokenizerTests.swift:594-610
  lemma GenericClassDeclaration()
    ensures Tokenize("class" + (" " + ("Foo" + ("<" + ("T" + ("," + ("U" + (">" + (" " + ("{" + ("}" + ""))))))))))) ==
            [Token(Identifier, "class")] + ([Token(Whitespace, " ")] + ([Token(Identifier, "Foo")] + ([Token(StartOfScope, "<")] + ([Token(Identifier, "T")] + ([Token(Operator, ",")] + ([Token(Identifier, "U")] + ([Token(EndOfScope, ">")] + ([Token(Whitespace, " ")] + ([Token(StartOfScope, "{")] + ([Token(EndOfScope, "}")] + []))))))))))
  {
    GenericClassDeclarationStep0();
    GenericClassDeclarationStep1();
    GenericClassDeclarationStep2();
    GenericClassDeclarationStep3();
    GenericClassDeclarationStep4();
    GenericClassDeclarationStep5();
    GenericClassDeclarationStep6();
    GenericClassDeclarationStep7();
    GenericClassDeclarationFrom8();
  }

  lemma GenericClassDeclarationFrom8()
    ensures Lex(" " + ("{" + ("}" + "")), Lexer([], Some(EndOfScope), false, false)) ==
            [Token(Whitespace, " ")] + ([Token(StartOfScope, "{")] + ([Token(EndOfScope, "}")] + Lex("", Lexer([], Some(EndOfScope), false, false))))
  {
    GenericClassDeclarationStep8();
    GenericClassDeclarationStep9();
    GenericClassDeclarationStep10();
  }

  lemma GenericClassDeclarationStep0()
    ensures Lex("class" + (" " + ("Foo" + ("<" + ("T" + ("," + ("U" + (">" + (" " + ("{" + ("}" + "")))))))))), Lexer([], None, false, false)) ==
            [Token(Identifier, "class")] + Lex(" " + ("Foo" + ("<" + ("T" + ("," + ("U" + (">" + (" " + ("{" + ("}" + ""))))))))), Lexer([], Some(Identifier), false, false))
  {
    var r11 := "";
    var r10 := "}" + r11;
    var r9 := "{" + r10;
    var r8 := " " + r9;
    var r7 := ">" + r8;
    var r6 := "U" + r7;
    var r5 := "," + r6;
    var r4 := "T" + r5;
    var r3 := "<" + r4;
    var r2 := "Foo" + r3;
    var r1 := " " + r2;
    var r0 := "class" + r1;
    CodeIdentifier("class", r1, Lexer([], None, false, false));
    LexOne("class", r1, Lexer([], None, false, false), Token(Identifier, "class"), Lexer([], Some(Identifier), false, false));
  }

  lemma GenericClassDeclarationStep1()
    ensures Lex(" " + ("Foo" + ("<" + ("T" + ("," + ("U" + (">" + (" " + ("{" + ("}" + ""))))))))), Lexer([], Some(Identifier), false, false)) ==
            [Token(Whitespace, " ")] + Lex("Foo" + ("<" + ("T" + ("," + ("U" + (">" + (" " + ("{" + ("}" + "")))))))), Lexer([], Some(Whitespace), false, false))
  {
    var r11 := "";
    var r10 := "}" + r11;
    var r9 := "{" + r10;
    var r8 := " " + r9;
    var r7 := ">" + r8;
    var r6 := "U" + r7;
    var r5 := "," + r6;
    var r4 := "T" + r5;
    var r3 := "<" + r4;
    var r2 := "Foo" + r3;
    var r1 := " " + r2;
    WhitespaceToken(" ", r2, Lexer([], Some(Identifier), false, false));
    LexOne(" ", r2, Lexer([], Some(Identifier), false, false), Token(Whitespace, " "), Lexer([], Some(Whitespace), false, false));
  }

  lemma GenericClassDeclarationStep2()
    ensures Lex("Foo" + ("<" + ("T" + ("," + ("U" + (">" + (" " + ("{" + ("}" + "")))))))), Lexer([], Some(Whitespace), false, false)) ==
            [Token(Identifier, "Foo")] + Lex("<" + ("T" + ("," + ("U" + (">" + (" " + ("{" + ("}" + ""))))))), Lexer([], Some(Identifier), false, false))
  {
    var r11 := "";
    var r10 := "}" + r11;
    var r9 := "{" + r10;
    var r8 := " " + r9;
    var r7 := ">" + r8;
    var r6 := "U" + r7;
    var r5 := "," + r6;
    var r4 := "T" + r5;
    var r3 := "<" + r4;
    var r2 := "Foo" + r3;
    CodeIdentifier("Foo", r3, Lexer([], Some(Whitespace), false, false));
    LexOne("Foo", r3, Lexer([], Some(Whitespace), false, false), Token(Identifier, "Foo"), Lexer([], Some(Identifier), false, false));
  }

  lemma GenericClassDeclarationStep3()
    ensures Lex("<" + ("T" + ("," + ("U" + (">" + (" " + ("{" + ("}" + ""))))))), Lexer([], Some(Identifier), false, false)) ==
            [Token(StartOfScope, "<")] + Lex("T" + ("," + ("U" + (">" + (" " + ("{" + ("}" + "")))))), Lexer([Generic], Some(StartOfScope), false, false))
  {
    var r11 := "";
    var r10 := "}" + r11;
    var r9 := "{" + r10;
    var r8 := " " + r9;
    var r7 := ">" + r8;
    var r6 := "U" + r7;
    var r5 := "," + r6;
    var r4 := "T" + r5;
    var r3 := "<" + r4;
    GenericClassDeclarationProbe3();
    CodeGenericOpen(r4, Lexer([], Some(Identifier), false, false));
    LexOne("<", r4, Lexer([], Some(Identifier), false, false), Token(StartOfScope, "<"), Lexer([Generic], Some(StartOfScope), false, false));
  }

  lemma GenericClassDeclarationProbe3_0()
    ensures Probe("T" + ("," + ("U" + (">" + (" " + ("{" + ("}" + "")))))), "<", 0) == Probe(("," + ("U" + (">" + (" " + ("{" + ("}" + "")))))), "<", 0)
  {
    var r11 := "";
    var r10 := "}" + r11;
    var r9 := "{" + r10;
    var r8 := " " + r9;
    var r7 := ">" + r8;
    var r6 := "U" + r7;
    var r5 := "," + r6;
    var r4 := "T" + r5;
    ProbeWord("T", r5, "<", 0);
  }

  lemma GenericClassDeclarationProbe3_1()
    ensures Probe("," + ("U" + (">" + (" " + ("{" + ("}" + ""))))), "<", 0) == Probe(("U" + (">" + (" " + ("{" + ("}" + ""))))), "<", 0)
  {
    var r11 := "";
    var r10 := "}" + r11;
    var r9 := "{" + r10;
    var r8 := " " + r9;
    var r7 := ">" + r8;
    var r6 := "U" + r7;
    var r5 := "," + r6;
    var r4 := "T" + r5;
    ProbeSkip(",", r6, "<", 0);
  }

  lemma GenericClassDeclarationProbe3_2()
    ensures Probe("U" + (">" + (" " + ("{" + ("}" + "")))), "<", 0) == Probe((">" + (" " + ("{" + ("}" + "")))), "<", 0)
  {
    var r11 := "";
    var r10 := "}" + r11;
    var r9 := "{" + r10;
    var r8 := " " + r9;
    var r7 := ">" + r8;
    var r6 := "U" + r7;
    var r5 := "," + r6;
    var r4 := "T" + r5;
    ProbeWord("U", r7, "<", 0);
  }

  lemma GenericClassDeclarationProbe3_3()
    ensures Probe(">" + (" " + ("{" + ("}" + ""))), "<", 0)
  {
    var r11 := "";
    var r10 := "}" + r11;
    var r9 := "{" + r10;
    var r8 := " " + r9;
    var r7 := ">" + r8;
    var r6 := "U" + r7;
    var r5 := "," + r6;
    var r4 := "T" + r5;
    ProbeChevronEnds(r8, "<", 0);
  }

  lemma GenericClassDeclarationProbe3()
    ensures Probe("T" + ("," + ("U" + (">" + (" " + ("{" + ("}" + "")))))), "<", 0)
  {
    var r11 := "";
    var r10 := "}" + r11;
    var r9 := "{" + r10;
    var r8 := " " + r9;
    var r7 := ">" + r8;
    var r6 := "U" + r7;
    var r5 := "," + r6;
    var r4 := "T" + r5;
    GenericClassDeclarationProbe3_0();
    GenericClassDeclarationProbe3_1();
    GenericClassDeclarationProbe3_2();
    GenericClassDeclarationProbe3_3();
  }

  lemma GenericClassDeclarationStep4()
    ensures Lex("T" + ("," + ("U" + (">" + (" " + ("{" + ("}" + "")))))), Lexer([Generic], Some(StartOfScope), false, false)) ==
            [Token(Identifier, "T")] + Lex("," + ("U" + (">" + (" " + ("{" + ("}" + ""))))), Lexer([Generic], Some(Identifier), false, false))
  {
    var r11 := "";
    var r10 := "}" + r11;
    var r9 := "{" + r10;
    var r8 := " " + r9;
    var r7 := ">" + r8;
    var r6 := "U" + r7;
    var r5 := "," + r6;
    var r4 := "T" + r5;
    CodeIdentifier("T", r5, Lexer([Generic], Some(StartOfScope), false, false));
    LexOne("T", r5, Lexer([Generic], Some(StartOfScope), false, false), Token(Identifier, "T"), Lexer([Generic], Some(Identifier), false, false));
  }

  lemma GenericClassDeclarationStep5()
    ensures Lex("," + ("U" + (">" + (" " + ("{" + ("}" + ""))))), Lexer([Generic], Some(Identifier), false, false)) ==
            [Token(Operator, ",")] + Lex("U" + (">" + (" " + ("{" + ("}" + "")))), Lexer([Generic], Some(Operator), false, false))
  {
    var r11 := "";
    var r10 := "}" + r11;
    var r9 := "{" + r10;
    var r8 := " " + r9;
    var r7 := ">" + r8;
    var r6 := "U" + r7;
    var r5 := "," + r6;
    CodePunctuation(",", r6, Lexer([Generic], Some(Identifier), false, false));
    LexOne(",", r6, Lexer([Generic], Some(Identifier), false, false), Token(Operator, ","), Lexer([Generic], Some(Operator), false, false));
  }

  lemma GenericClassDeclarationStep6()
    ensures Lex("U" + (">" + (" " + ("{" + ("}" + "")))), Lexer([Generic], Some(Operator), false, false)) ==
            [Token(Identifier, "U")] + Lex(">" + (" " + ("{" + ("}" + ""))), Lexer([Generic], Some(Identifier), false, false))
  {
    var r11 := "";
    var r10 := "}" + r11;
    var r9 := "{" + r10;
    var r8 := " " + r9;
    var r7 := ">" + r8;
    var r6 := "U" + r7;
    CodeIdentifier("U", r7, Lexer([Generic], Some(Operator), false, false));
    LexOne("U", r7, Lexer([Generic], Some(Operator), false, false), Token(Identifier, "U"), Lexer([Generic], Some(Identifier), false, false));
  }

  lemma GenericClassDeclarationStep7()
    ensures Lex(">" + (" " + ("{" + ("}" + ""))), Lexer([Generic], Some(Identifier), false, false)) ==
            [Token(EndOfScope, ">")] + Lex(" " + ("{" + ("}" + "")), Lexer([], Some(EndOfScope), false, false))
  {
    var r11 := "";
    var r10 := "}" + r11;
    var r9 := "{" + r10;
    var r8 := " " + r9;
    var r7 := ">" + r8;
    CodeGenericClose(r8, Lexer([Generic], Some(Identifier), false, false));
    LexOne(">", r8, Lexer([Generic], Some(Identifier), false, false), Token(EndOfScope, ">"), Lexer([], Some(EndOfScope), false, false));
  }

  lemma GenericClassDeclarationStep8()
    ensures Lex(" " + ("{" + ("}" + "")), Lexer([], Some(EndOfScope), false, false)) ==
            [Token(Whitespace, " ")] + Lex("{" + ("}" + ""), Lexer([], Some(Whitespace), false, false))
  {
    var r11 := "";
    var r10 := "}" + r11;
    var r9 := "{" + r10;
    var r8 := " " + r9;
    WhitespaceToken(" ", r9, Lexer([], Some(EndOfScope), false, false));
    LexOne(" ", r9, Lexer([], Some(EndOfScope), false, false), Token(Whitespace, " "), Lexer([], Some(Whitespace), false, false));
  }

  lemma GenericClassDeclarationStep9()
    ensures Lex("{" + ("}" + ""), Lexer([], Some(Whitespace), false, false)) ==
            [Token(StartOfScope, "{")] + Lex("}" + "", Lexer([Brace(false)], Some(StartOfScope), false, false))
  {
    var r11 := "";
    var r10 := "}" + r11;
    var r9 := "{" + r10;
    CodeBraceOpen(r10, Lexer([], Some(Whitespace), false, false));
    LexOne("{", r10, Lexer([], Some(Whitespace), false, false), Token(StartOfScope, "{"), Lexer([Brace(false)], Some(StartOfScope), false, false));
  }

  lemma GenericClassDeclarationStep10()
    ensures Lex("}" + "", Lexer([Brace(false)], Some(StartOfScope), false, false)) ==
            [Token(EndOfScope, "}")] + Lex("", Lexer([], Some(EndOfScope), false, false))
  {
    var r11 := "";
    var r10 := "}" + r11;
    CodeClose("}", r11, Lexer([Brace(false)], Some(StartOfScope), false, false));
    LexOne("}", r11, Lexer([Brace(false)], Some(StartOfScope), false, false), Token(EndOfScope, "}"), Lexer([], Some(EndOfScope), false, false));
  }

  // SwiftFormatTests/TokenizerTests.swift:612-628
  lemma GenericSubclassDeclaration()
    ensures Tokenize("class" + (" " + ("Foo" + ("<" + ("T" + ("," + ("U" + (">" + (":" + (" " + ("Bar" + ""))))))))))) ==
            [Token(Identifier, "class")] + ([Token(Whitespace, " ")] + ([Token(Identifier, "Foo")] + ([Token(StartOfScope, "<")] + ([Token(Identifier, "T")] + ([Token(Operator, ",")] + ([Token(Identifier, "U")] + ([Token(EndOfScope, ">")] + ([Token(Operator, ":")] + ([Token(Whitespace, " ")] + ([Token(Identifier, "Bar")] + []))))))))))
  {
    GenericSubclassDeclarationStep0();
    GenericSubclassDeclarationStep1();
    GenericSubclassDeclarationStep2();
    GenericSubclassDeclarationStep3();
    GenericSubclassDeclarationStep4();
    GenericSubclassDeclarationStep5();
    GenericSubclassDeclarationStep6();
    GenericSubclassDeclarationStep7();
    GenericSubclassDeclarationFrom8();
  }

  lemma GenericSubclassDeclarationFrom8()
    ensures Lex(":" + (" " + ("Bar" + "")), Lexer([], Some(EndOfScope), false, false)) ==
            [Token(Operator, ":")] + ([Token(Whitespace, " ")] + ([Token(Identifier, "Bar")] + Lex("", Lexer([], Some(Identifier), false, false))))
  {
    GenericSubclassDeclarationStep8();
    GenericSubclassDeclarationStep9();
    GenericSubclassDeclarationStep10();
  }

  lemma GenericSubclassDeclarationStep0()
    ensures Lex("class" + (" " + ("Foo" + ("<" + ("T" + ("," + ("U" + (">" + (":" + (" " + ("Bar" + "")))))))))), Lexer([], None, false, false)) ==
            [Token(Identifier, "class")] + Lex(" " + ("Foo" + ("<" + ("T" + ("," + ("U" + (">" + (":" + (" " + ("Bar" + ""))))))))), Lexer([], Some(Identifier), false, false))
  {
    var r11 := "";
    var r10 := "Bar" + r11;
    var r9 := " " + r10;
    var r8 := ":" + r9;
    var r7 := ">" + r8;
    var r6 := "U" + r7;
    var r5 := "," + r6;
    var r4 := "T" + r5;
    var r3 := "<" + r4;
    var r2 := "Foo" + r3;
    var r1 := " " + r2;
    var r0 := "class" + r1;
    CodeIdentifier("class", r1, Lexer([], None, false, false));
    LexOne("class", r1, Lexer([], None, false, false), Token(Identifier, "class"), Lexer([], Some(Identifier), false, false));
  }

  lemma GenericSubclassDeclarationStep1()
    ensures Lex(" " + ("Foo" + ("<" + ("T" + ("," + ("U" + (">" + (":" + (" " + ("Bar" + ""))))))))), Lexer([], Some(Identifier), false, false)) ==
            [Token(Whitespace, " ")] + Lex("Foo" + ("<" + ("T" + ("," + ("U" + (">" + (":" + (" " + ("Bar" + "")))))))), Lexer([], Some(Whitespace), false, false))
  {
    var r11 := "";
    var r10 := "Bar" + r11;
    var r9 := " " + r10;
    var r8 := ":" + r9;
    var r7 := ">" + r8;
    var r6 := "U" + r7;
    var r5 := "," + r6;
    var r4 := "T" + r5;
    var r3 := "<" + r4;
    var r2 := "Foo" + r3;
    var r1 := " " + r2;
    WhitespaceToken(" ", r2, Lexer([], Some(Identifier), false, false));
    LexOne(" ", r2, Lexer([], Some(Identifier), false, false), Token(Whitespace, " "), Lexer([], Some(Whitespace), false, false));
  }

  lemma GenericSubclassDeclarationStep2()
    ensures Lex("Foo" + ("<" + ("T" + ("," + ("U" + (">" + (":" + (" " + ("Bar" + "")))))))), Lexer([], Some(Whitespace), false, false)) ==
            [Token(Identifier, "Foo")] + Lex("<" + ("T" + ("," + ("U" + (">" + (":" + (" " + ("Bar" + ""))))))), Lexer([], Some(Identifier), false, false))
  {
    var r11 := "";
    var r10 := "Bar" + r11;
    var r9 := " " + r10;
    var r8 := ":" + r9;
    var r7 := ">" + r8;
    var r6 := "U" + r7;
    var r5 := "," + r6;
    var r4 := "T" + r5;
    var r3 := "<" + r4;
    var r2 := "Foo" + r3;
    CodeIdentifier("Foo", r3, Lexer([], Some(Whitespace), false, false));
    LexOne("Foo", r3, Lexer([], Some(Whitespace), false, false), Token(Identifier, "Foo"), Lexer([], Some(Identifier), false, false));
  }

  lemma GenericSubclassDeclarationStep3()
    ensures Lex("<" + ("T" + ("," + ("U" + (">" + (":" + (" " + ("Bar" + ""))))))), Lexer([], Some(Identifier), false, false)) ==
            [Token(StartOfScope, "<")] + Lex("T" + ("," + ("U" + (">" + (":" + (" " + ("Bar" + "")))))), Lexer([Generic], Some(StartOfScope), false, false))
  {
    var r11 := "";
    var r10 := "Bar" + r11;
    var r9 := " " + r10;
    var r8 := ":" + r9;
    var r7 := ">" + r8;
    var r6 := "U" + r7;
    var r5 := "," + r6;
    var r4 := "T" + r5;
    var r3 := "<" + r4;
    GenericSubclassDeclarationProbe3();
    CodeGenericOpen(r4, Lexer([], Some(Identifier), false, false));
    LexOne("<", r4, Lexer([], Some(Identifier), false, false), Token(StartOfScope, "<"), Lexer([Generic], Some(StartOfScope), false, false));
  }

  lemma GenericSubclassDeclarationProbe3_0()
    ensures Probe("T" + ("," + ("U" + (">" + (":" + (" " + ("Bar" + "")))))), "<", 0) == Probe(("," + ("U" + (">" + (":" + (" " + ("Bar" + "")))))), "<", 0)
  {
    var r11 := "";
    var r10 := "Bar" + r11;
    var r9 := " " + r10;
    var r8 := ":" + r9;
    var r7 := ">" + r8;
    var r6 := "U" + r7;
    var r5 := "," + r6;
    var r4 := "T" + r5;
    ProbeWord("T", r5, "<", 0);
  }

  lemma GenericSubclassDeclarationProbe3_1()
    ensures Probe("," + ("U" + (">" + (":" + (" " + ("Bar" + ""))))), "<", 0) == Probe(("U" + (">" + (":" + (" " + ("Bar" + ""))))), "<", 0)
  {
    var r11 := "";
    var r10 := "Bar" + r11;
    var r9 := " " + r10;
    var r8 := ":" + r9;
    var r7 := ">" + r8;
    var r6 := "U" + r7;
    var r5 := "," + r6;
    var r4 := "T" + r5;
    ProbeSkip(",", r6, "<", 0);
  }

  lemma GenericSubclassDeclarationProbe3_2()
    ensures Probe("U" + (">" + (":" + (" " + ("Bar" + "")))), "<", 0) == Probe((">" + (":" + (" " + ("Bar" + "")))), "<", 0)
  {
    var r11 := "";
    var r10 := "Bar" + r11;
    var r9 := " " + r10;
    var r8 := ":" + r9;
    var r7 := ">" + r8;
    var r6 := "U" + r7;
    var r5 := "," + r6;
    var r4 := "T" + r5;
    ProbeWord("U", r7, "<", 0);
  }

  lemma GenericSubclassDeclarationProbe3_3()
    ensures Probe(">" + (":" + (" " + ("Bar" + ""))), "<", 0)
  {
    var r11 := "";
    var r10 := "Bar" + r11;
    var r9 := " " + r10;
    var r8 := ":" + r9;
    var r7 := ">" + r8;
    var r6 := "U" + r7;
    var r5 := "," + r6;
    var r4 := "T" + r5;
    ProbeChevronEnds(r8, "<", 0);
  }

  lemma GenericSubclassDeclarationProbe3()
    ensures Probe("T" + ("," + ("U" + (">" + (":" + (" " + ("Bar" + "")))))), "<", 0)
  {
    var r11 := "";
    var r10 := "Bar" + r11;
    var r9 := " " + r10;
    var r8 := ":" + r9;
    var r7 := ">" + r8;
    var r6 := "U" + r7;
    var r5 := "," + r6;
    var r4 := "T" + r5;
    GenericSubclassDeclarationProbe3_0();
    GenericSubclassDeclarationProbe3_1();
    GenericSubclassDeclarationProbe3_2();
    GenericSubclassDeclarationProbe3_3();
  }

  lemma GenericSubclassDeclarationStep4()
    ensures Lex("T" + ("," + ("U" + (">" + (":" + (" " + ("Bar" + "")))))), Lexer([Generic], Some(StartOfScope), false, false)) ==
            [Token(Identifier, "T")] + Lex("," + ("U" + (">" + (":" + (" " + ("Bar" + ""))))), Lexer([Generic], Some(Identifier), false, false))
  {
    var r11 := "";
    var r10 := "Bar" + r11;
    var r9 := " " + r10;
    var r8 := ":" + r9;
    var r7 := ">" + r8;
    var r6 := "U" + r7;
    var r5 := "," + r6;
    var r4 := "T" + r5;
    CodeIdentifier("T", r5, Lexer([Generic], Some(StartOfScope), false, false));
    LexOne("T", r5, Lexer([Generic], Some(StartOfScope), false, false), Token(Identifier, "T"), Lexer([Generic], Some(Identifier), false, false));
  }

  lemma GenericSubclassDeclarationStep5()
    ensures Lex("," + ("U" + (">" + (":" + (" " + ("Bar" + ""))))), Lexer([Generic], Some(Identifier), false, false)) ==
            [Token(Operator, ",")] + Lex("U" + (">" + (":" + (" " + ("Bar" + "")))), Lexer([Generic], Some(Operator), false, false))
  {
    var r11 := "";
    var r10 := "Bar" + r11;
    var r9 := " " + r10;
    var r8 := ":" + r9;
    var r7 := ">" + r8;
    var r6 := "U" + r7;
    var r5 := "," + r6;
    CodePunctuation(",", r6, Lexer([Generic], Some(Identifier), false, false));
    LexOne(",", r6, Lexer([Generic], Some(Identifier), false, false), Token(Operator, ","), Lexer([Generic], Some(Operator), false, false));
  }

  lemma GenericSubclassDeclarationStep6()
    ensures Lex("U" + (">" + (":" + (" " + ("Bar" + "")))), Lexer([Generic], Some(Operator), false, false)) ==
            [Token(Identifier, "U")] + Lex(">" + (":" + (" " + ("Bar" + ""))), Lexer([Generic], Some(Identifier), false, false))
  {
    var r11 := "";
    var r10 := "Bar" + r11;
    var r9 := " " + r10;
    var r8 := ":" + r9;
    var r7 := ">" + r8;
    var r6 := "U" + r7;
    CodeIdentifier("U", r7, Lexer([Generic], Some(Operator), false, false));
    LexOne("U", r7, Lexer([Generic], Some(Operator), false, false), Token(Identifier, "U"), Lexer([Generic], Some(Identifier), false, false));
  }

  lemma GenericSubclassDeclarationStep7()
    ensures Lex(">" + (":" + (" " + ("Bar" + ""))), Lexer([Generic], Some(Identifier), false, false)) ==
            [Token(EndOfScope, ">")] + Lex(":" + (" " + ("Bar" + "")), Lexer([], Some(EndOfScope), false, false))
  {
    var r11 := "";
    var r10 := "Bar" + r11;
    var r9 := " " + r10;
    var r8 := ":" + r9;
    var r7 := ">" + r8;
    CodeGenericClose(r8, Lexer([Generic], Some(Identifier), false, false));
    LexOne(">", r8, Lexer([Generic], Some(Identifier), false, false), Token(EndOfScope, ">"), Lexer([], Some(EndOfScope), false, false));
  }

  lemma GenericSubclassDeclarationStep8()
    ensures Lex(":" + (" " + ("Bar" + "")), Lexer([], Some(EndOfScope), false, false)) ==
            [Token(Operator, ":")] + Lex(" " + ("Bar" + ""), Lexer([], Some(Operator), false, false))
  {
    var r11 := "";
    var r10 := "Bar" + r11;
    var r9 := " " + r10;
    var r8 := ":" + r9;
    CodePunctuation(":", r9, Lexer([], Some(EndOfScope), false, false));
    LexOne(":", r9, Lexer([], Some(EndOfScope), false, false), Token(Operator, ":"), Lexer([], Some(Operator), false, false));
  }

  lemma GenericSubclassDeclarationStep9()
    ensures Lex(" " + ("Bar" + ""), Lexer([], Some(Operator), false, false)) ==
            [Token(Whitespace, " ")] + Lex("Bar" + "", Lexer([], Some(Whitespace), false, false))
  {
    var r11 := "";
    var r10 := "Bar" + r11;
    var r9 := " " + r10;
    WhitespaceToken(" ", r10, Lexer([], Some(Operator), false, false));
    LexOne(" ", r10, Lexer([], Some(Operator), false, false), Token(Whitespace, " "), Lexer([], Some(Whitespace), false, false));
  }

  lemma GenericSubclassDeclarationStep10()
    ensures Lex("Bar" + "", Lexer([], Some(Whitespace), false, false)) ==
            [Token(Identifier, "Bar")] + Lex("", Lexer([], Some(Identifier), false, false))
  {
    var r11 := "";
    var r10 := "Bar" + r11;
    CodeIdentifier("Bar", r11, Lexer([], Some(Whitespace), false, false));
    LexOne("Bar", r11, Lexer([], Some(Whitespace), false, false), Token(Identifier, "Bar"), Lexer([], Some(Identifier), false, false));
  }

  // SwiftFormatTests/TokenizerTests.swift:630-646
  lemma GenericFunctionDeclaration()
    ensures Tokenize("func" + (" " + ("foo" + ("<" + ("T" + (">" + ("(" + ("bar" + (":" + ("T" + (")" + ""))))))))))) ==
            [Token(Identifier, "func")] + ([Token(Whitespace, " ")] + ([Token(Identifier, "foo")] + ([Token(StartOfScope, "<")] + ([Token(Identifier, "T")] + ([Token(EndOfScope, ">")] + ([Token(StartOfScope, "(")] + ([Token(Identifier, "bar")] + ([Token(Operator, ":")] + ([Token(Identifier, "T")] + ([Token(EndOfScope, ")")] + []))))))))))
  {
    GenericFunctionDeclarationStep0();
    GenericFunctionDeclarationStep1();
    GenericFunctionDeclarationStep2();
    GenericFunctionDeclarationStep3();
    GenericFunctionDeclarationStep4();
    GenericFunctionDeclarationStep5();
    GenericFunctionDeclarationStep6();
    GenericFunctionDeclarationStep7();
    GenericFunctionDeclarationFrom8();
  }

  lemma GenericFunctionDeclarationFrom8()
    ensures Lex(":" + ("T" + (")" + "")), Lexer([Paren], Some(Identifier), false, false)) ==
            [Token(Operator, ":")] + ([Token(Identifier, "T")] + ([Token(EndOfScope, ")")] + Lex("", Lexer([], Some(EndOfScope), false, false))))
  {
    GenericFunctionDeclarationStep8();
    GenericFunctionDeclarationStep9();
    GenericFunctionDeclarationStep10();
  }

  lemma GenericFunctionDeclarationStep0()
    ensures Lex("func" + (" " + ("foo" + ("<" + ("T" + (">" + ("(" + ("bar" + (":" + ("T" + (")" + "")))))))))), Lexer([], None, false, false)) ==
            [Token(Identifier, "func")] + Lex(" " + ("foo" + ("<" + ("T" + (">" + ("(" + ("bar" + (":" + ("T" + (")" + ""))))))))), Lexer([], Some(Identifier), false, false))
  {
    var r11 := "";
    var r10 := ")" + r11;
    var r9 := "T" + r10;
    var r8 := ":" + r9;
    var r7 := "bar" + r8;
    var r6 := "(" + r7;
    var r5 := ">" + r6;
    var r4 := "T" + r5;
    var r3 := "<" + r4;
    var r2 := "foo" + r3;
    var r1 := " " + r2;
    var r0 := "func" + r1;
    CodeIdentifier("func", r1, Lexer([], None, false, false));
    LexOne("func", r1, Lexer([], None, false, false), Token(Identifier, "func"), Lexer([], Some(Identifier), false, false));
  }

  lemma GenericFunctionDeclarationStep1()
    ensures Lex(" " + ("foo" + ("<" + ("T" + (">" + ("(" + ("bar" + (":" + ("T" + (")" + ""))))))))), Lexer([], Some(Identifier), false, false)) ==
            [Token(Whitespace, " ")] + Lex("foo" + ("<" + ("T" + (">" + ("(" + ("bar" + (":" + ("T" + (")" + "")))))))), Lexer([], Some(Whitespace), false, false))
  {
    var r11 := "";
    var r10 := ")" + r11;
    var r9 := "T" + r10;
    var r8 := ":" + r9;
    var r7 := "bar" + r8;
    var r6 := "(" + r7;
    var r5 := ">" + r6;
    var r4 := "T" + r5;
    var r3 := "<" + r4;
    var r2 := "foo" + r3;
    var r1 := " " + r2;
    WhitespaceToken(" ", r2, Lexer([], Some(Identifier), false, false));
    LexOne(" ", r2, Lexer([], Some(Identifier), false, false), Token(Whitespace, " "), Lexer([], Some(Whitespace), false, false));
  }

  lemma GenericFunctionDeclarationStep2()
    ensures Lex("foo" + ("<" + ("T" + (">" + ("(" + ("bar" + (":" + ("T" + (")" + "")))))))), Lexer([], Some(Whitespace), false, false)) ==
            [Token(Identifier, "foo")] + Lex("<" + ("T" + (">" + ("(" + ("bar" + (":" + ("T" + (")" + ""))))))), Lexer([], Some(Identifier), false, false))
  {
    var r11 := "";
    var r10 := ")" + r11;
    var r9 := "T" + r10;
    var r8 := ":" + r9;
    var r7 := "bar" + r8;
    var r6 := "(" + r7;
    var r5 := ">" + r6;
    var r4 := "T" + r5;
    var r3 := "<" + r4;
    var r2 := "foo" + r3;
    CodeIdentifier("foo", r3, Lexer([], Some(Whitespace), false, false));
    LexOne("foo", r3, Lexer([], Some(Whitespace), false, false), Token(Identifier, "foo"), Lexer([], Some(Identifier), false, false));
  }

  lemma GenericFunctionDeclarationStep3()
    ensures Lex("<" + ("T" + (">" + ("(" + ("bar" + (":" + ("T" + (")" + ""))))))), Lexer([], Some(Identifier), false, false)) ==
            [Token(StartOfScope, "<")] + Lex("T" + (">" + ("(" + ("bar" + (":" + ("T" + (")" + "")))))), Lexer([Generic], Some(StartOfScope), false, false))
  {
    var r11 := "";
    var r10 := ")" + r11;
    var r9 := "T" + r10;
    var r8 := ":" + r9;
    var r7 := "bar" + r8;
    var r6 := "(" + r7;
    var r5 := ">" + r6;
    var r4 := "T" + r5;
    var r3 := "<" + r4;
    GenericFunctionDeclarationProbe3();
    CodeGenericOpen(r4, Lexer([], Some(Identifier), false, false));
    LexOne("<", r4, Lexer([], Some(Identifier), false, false), Token(StartOfScope, "<"), Lexer([Generic], Some(StartOfScope), false, false));
  }

  lemma GenericFunctionDeclarationProbe3_0()
    ensures Probe("T" + (">" + ("(" + ("bar" + (":" + ("T" + (")" + "")))))), "<", 0) == Probe((">" + ("(" + ("bar" + (":" + ("T" + (")" + "")))))), "<", 0)
  {
    var r11 := "";
    var r10 := ")" + r11;
    var r9 := "T" + r10;
    var r8 := ":" + r9;
    var r7 := "bar" + r8;
    var r6 := "(" + r7;
    var r5 := ">" + r6;
    var r4 := "T" + r5;
    ProbeWord("T", r5, "<", 0);
  }

  lemma GenericFunctionDeclarationProbe3_1()
    ensures Probe(">" + ("(" + ("bar" + (":" + ("T" + (")" + ""))))), "<", 0)
  {
    var r11 := "";
    var r10 := ")" + r11;
    var r9 := "T" + r10;
    var r8 := ":" + r9;
    var r7 := "bar" + r8;
    var r6 := "(" + r7;
    var r5 := ">" + r6;
    var r4 := "T" + r5;
    ProbeChevronEnds(r6, "<", 0);
  }

  lemma GenericFunctionDeclarationProbe3()
    ensures Probe("T" + (">" + ("(" + ("bar" + (":" + ("T" + (")" + "")))))), "<", 0)
  {
    var r11 := "";
    var r10 := ")" + r11;
    var r9 := "T" + r10;
    var r8 := ":" + r9;
    var r7 := "bar" + r8;
    var r6 := "(" + r7;
    var r5 := ">" + r6;
    var r4 := "T" + r5;
    GenericFunctionDeclarationProbe3_0();
    GenericFunctionDeclarationProbe3_1();
  }

  lemma GenericFunctionDeclarationStep4()
    ensures Lex("T" + (">" + ("(" + ("bar" + (":" + ("T" + (")" + "")))))), Lexer([Generic], Some(StartOfScope), false, false)) ==
            [Token(Identifier, "T")] + Lex(">" + ("(" + ("bar" + (":" + ("T" + (")" + ""))))), Lexer([Generic], Some(Identifier), false, false))
  {
    var r11 := "";
    var r10 := ")" + r11;
    var r9 := "T" + r10;
    var r8 := ":" + r9;
    var r7 := "bar" + r8;
    var r6 := "(" + r7;
    var r5 := ">" + r6;
    var r4 := "T" + r5;
    CodeIdentifier("T", r5, Lexer([Generic], Some(StartOfScope), false, false));
    LexOne("T", r5, Lexer([Generic], Some(StartOfScope), false, false), Token(Identifier, "T"), Lexer([Generic], Some(Identifier), false, false));
  }

  lemma GenericFunctionDeclarationStep5()
    ensures Lex(">" + ("(" + ("bar" + (":" + ("T" + (")" + ""))))), Lexer([Generic], Some(Identifier), false, false)) ==
            [Token(EndOfScope, ">")] + Lex("(" + ("bar" + (":" + ("T" + (")" + "")))), Lexer([], Some(EndOfScope), false, false))
  {
    var r11 := "";
    var r10 := ")" + r11;
    var r9 := "T" + r10;
    var r8 := ":" + r9;
    var r7 := "bar" + r8;
    var r6 := "(" + r7;
    var r5 := ">" + r6;
    CodeGenericClose(r6, Lexer([Generic], Some(Identifier), false, false));
    LexOne(">", r6, Lexer([Generic], Some(Identifier), false, false), Token(EndOfScope, ">"), Lexer([], Some(EndOfScope), false, false));
  }

  lemma GenericFunctionDeclarationStep6()
    ensures Lex("(" + ("bar" + (":" + ("T" + (")" + "")))), Lexer([], Some(EndOfScope), false, false)) ==
            [Token(StartOfScope, "(")] + Lex("bar" + (":" + ("T" + (")" + ""))), Lexer([Paren], Some(StartOfScope), false, false))
  {
    var r11 := "";
    var r10 := ")" + r11;
    var r9 := "T" + r10;
    var r8 := ":" + r9;
    var r7 := "bar" + r8;
    var r6 := "(" + r7;
    CodeBracketOpen("(", r7, Lexer([], Some(EndOfScope), false, false));
    LexOne("(", r7, Lexer([], Some(EndOfScope), false, false), Token(StartOfScope, "("), Lexer([Paren], Some(StartOfScope), false, false));
  }

  lemma GenericFunctionDeclarationStep7()
    ensures Lex("bar" + (":" + ("T" + (")" + ""))), Lexer([Paren], Some(StartOfScope), false, false)) ==
            [Token(Identifier, "bar")] + Lex(":" + ("T" + (")" + "")), Lexer([Paren], Some(Identifier), false, false))
  {
    var r11 := "";
    var r10 := ")" + r11;
    var r9 := "T" + r10;
    var r8 := ":" + r9;
    var r7 := "bar" + r8;
    CodeIdentifier("bar", r8, Lexer([Paren], Some(StartOfScope), false, false));
    LexOne("bar", r8, Lexer([Paren], Some(StartOfScope), false, false), Token(Identifier, "bar"), Lexer([Paren], Some(Identifier), false, false));
  }

  lemma GenericFunctionDeclarationStep8()
    ensures Lex(":" + ("T" + (")" + "")), Lexer([Paren], Some(Identifier), false, false)) ==
            [Token(Operator, ":")] + Lex("T" + (")" + ""), Lexer([Paren], Some(Operator), false, false))
  {
    var r11 := "";
    var r10 := ")" + r11;
    var r9 := "T" + r10;
    var r8 := ":" + r9;
    CodePunctuation(":", r9, Lexer([Paren], Some(Identifier), false, false));
    LexOne(":", r9, Lexer([Paren], Some(Identifier), false, false), Token(Operator, ":"), Lexer([Paren], Some(Operator), false, false));
  }

  lemma GenericFunctionDeclarationStep9()
    ensures Lex("T" + (")" + ""), Lexer([Paren], Some(Operator), false, false)) ==
            [Token(Identifier, "T")] + Lex(")" + "", Lexer([Paren], Some(Identifier), false, false))
  {
    var r11 := "";
    var r10 := ")" + r11;
    var r9 := "T" + r10;
    CodeIdentifier("T", r10, Lexer([Paren], Some(Operator), false, false));
    LexOne("T", r10, Lexer([Paren], Some(Operator), false, false), Token(Identifier, "T"), Lexer([Paren], Some(Identifier), false, false));
  }

  lemma GenericFunctionDeclarationStep10()
    ensures Lex(")" + "", Lexer([Paren], Some(Identifier), false, false)) ==
            [Token(EndOfScope, ")")] + Lex("", Lexer([], Some(EndOfScope), false, false))
  {
    var r11 := "";
    var r10 := ")" + r11;
    CodeClose(")", r11, Lexer([Paren], Some(Identifier), false, false));
    LexOne(")", r11, Lexer([Paren], Some(Identifier), false, false), Token(EndOfScope, ")"), Lexer([], Some(EndOfScope), false, false));
  }

  // SwiftFormatTests/TokenizerTests.swift:648-665
  lemma GenericClassInit()
    ensures Tokenize("foo" + (" " + ("=" + (" " + ("Foo" + ("<" + ("Int" + ("," + ("String" + (">" + ("(" + (")" + "")))))))))))) ==
            [Token(Identifier, "foo")] + ([Token(Whitespace, " ")] + ([Token(Operator, "=")] + ([Token(Whitespace, " ")] + ([Token(Identifier, "Foo")] + ([Token(StartOfScope, "<")] + ([Token(Identifier, "Int")] + ([Token(Operator, ",")] + ([Token(Identifier, "String")] + ([Token(EndOfScope, ">")] + ([Token(StartOfScope, "(")] + ([Token(EndOfScope, ")")] + [])))))))))))
  {
    GenericClassInitStep0();
    GenericClassInitStep1();
    GenericClassInitStep2();
    GenericClassInitStep3();
    GenericClassInitStep4();
    GenericClassInitStep5();
    GenericClassInitStep6();
    GenericClassInitStep7();
    GenericClassInitFrom8();
  }

  lemma GenericClassInitFrom8()
    ensures Lex("String" + (">" + ("(" + (")" + ""))), Lexer([Generic], Some(Operator), false, false)) ==
            [Token(Identifier, "String")] + ([Token(EndOfScope, ">")] + ([Token(StartOfScope, "(")] + ([Token(EndOfScope, ")")] + Lex("", Lexer([], Some(EndOfScope), false, false)))))
  {
    GenericClassInitStep8();
    GenericClassInitStep9();
    GenericClassInitStep10();
    GenericClassInitStep11();
  }

  lemma GenericClassInitStep0()
    ensures Lex("foo" + (" " + ("=" + (" " + ("Foo" + ("<" + ("Int" + ("," + ("String" + (">" + ("(" + (")" + ""))))))))))), Lexer([], None, false, false)) ==
            [Token(Identifier, "foo")] + Lex(" " + ("=" + (" " + ("Foo" + ("<" + ("Int" + ("," + ("String" + (">" + ("(" + (")" + "")))))))))), Lexer([], Some(Identifier), false, false))
  {
    var r12 := "";
    var r11 := ")" + r12;
    var r10 := "(" + r11;
    var r9 := ">" + r10;
    var r8 := "String" + r9;
    var r7 := "," + r8;
    var r6 := "Int" + r7;
    var r5 := "<" + r6;
    var r4 := "Foo" + r5;
    var r3 := " " + r4;
    var r2 := "=" + r3;
    var r1 := " " + r2;
    var r0 := "foo" + r1;
    CodeIdentifier("foo", r1, Lexer([], None, false, false));
    LexOne("foo", r1, Lexer([], None, false, false), Token(Identifier, "foo"), Lexer([], Some(Identifier), false, false));
  }

  lemma GenericClassInitStep1()
    ensures Lex(" " + ("=" + (" " + ("Foo" + ("<" + ("Int" + ("," + ("String" + (">" + ("(" + (")" + "")))))))))), Lexer([], Some(Identifier), false, false)) ==
            [Token(Whitespace, " ")] + Lex("=" + (" " + ("Foo" + ("<" + ("Int" + ("," + ("String" + (">" + ("(" + (")" + ""))))))))), Lexer([], Some(Whitespace), false, false))
  {
    var r12 := "";
    var r11 := ")" + r12;
    var r10 := "(" + r11;
    var r9 := ">" + r10;
    var r8 := "String" + r9;
    var r7 := "," + r8;
    var r6 := "Int" + r7;
    var r5 := "<" + r6;
    var r4 := "Foo" + r5;
    var r3 := " " + r4;
    var r2 := "=" + r3;
    var r1 := " " + r2;
    WhitespaceToken(" ", r2, Lexer([], Some(Identifier), false, false));
    LexOne(" ", r2, Lexer([], Some(Identifier), false, false), Token(Whitespace, " "), Lexer([], Some(Whitespace), false, false));
  }

  lemma GenericClassInitStep2()
    ensures Lex("=" + (" " + ("Foo" + ("<" + ("Int" + ("," + ("String" + (">" + ("(" + (")" + ""))))))))), Lexer([], Some(Whitespace), false, false)) ==
            [Token(Operator, "=")] + Lex(" " + ("Foo" + ("<" + ("Int" + ("," + ("String" + (">" + ("(" + (")" + "")))))))), Lexer([], Some(Operator), false, false))
  {
    var r12 := "";
    var r11 := ")" + r12;
    var r10 := "(" + r11;
    var r9 := ">" + r10;
    var r8 := "String" + r9;
    var r7 := "," + r8;
    var r6 := "Int" + r7;
    var r5 := "<" + r6;
    var r4 := "Foo" + r5;
    var r3 := " " + r4;
    var r2 := "=" + r3;
    CodeOperator("=", r3, Lexer([], Some(Whitespace), false, false));
    LexOne("=", r3, Lexer([], Some(Whitespace), false, false), Token(Operator, "="), Lexer([], Some(Operator), false, false));
  }

  lemma GenericClassInitStep3()
    ensures Lex(" " + ("Foo" + ("<" + ("Int" + ("," + ("String" + (">" + ("(" + (")" + "")))))))), Lexer([], Some(Operator), false, false)) ==
            [Token(Whitespace, " ")] + Lex("Foo" + ("<" + ("Int" + ("," + ("String" + (">" + ("(" + (")" + ""))))))), Lexer([], Some(Whitespace), false, false))
  {
    var r12 := "";
    var r11 := ")" + r12;
    var r10 := "(" + r11;
    var r9 := ">" + r10;
    var r8 := "String" + r9;
    var r7 := "," + r8;
    var r6 := "Int" + r7;
    var r5 := "<" + r6;
    var r4 := "Foo" + r5;
    var r3 := " " + r4;
    WhitespaceToken(" ", r4, Lexer([], Some(Operator), false, false));
    LexOne(" ", r4, Lexer([], Some(Operator), false, false), Token(Whitespace, " "), Lexer([], Some(Whitespace), false, false));
  }

  lemma GenericClassInitStep4()
    ensures Lex("Foo" + ("<" + ("Int" + ("," + ("String" + (">" + ("(" + (")" + ""))))))), Lexer([], Some(Whitespace), false, false)) ==
            [Token(Identifier, "Foo")] + Lex("<" + ("Int" + ("," + ("String" + (">" + ("(" + (")" + "")))))), Lexer([], Some(Identifier), false, false))
  {
    var r12 := "";
    var r11 := ")" + r12;
    var r10 := "(" + r11;
    var r9 := ">" + r10;
    var r8 := "String" + r9;
    var r7 := "," + r8;
    var r6 := "Int" + r7;
    var r5 := "<" + r6;
    var r4 := "Foo" + r5;
    CodeIdentifier("Foo", r5, Lexer([], Some(Whitespace), false, false));
    LexOne("Foo", r5, Lexer([], Some(Whitespace), false, false), Token(Identifier, "Foo"), Lexer([], Some(Identifier), false, false));
  }

  lemma GenericClassInitStep5()
    ensures Lex("<" + ("Int" + ("," + ("String" + (">" + ("(" + (")" + "")))))), Lexer([], Some(Identifier), false, false)) ==
            [Token(StartOfScope, "<")] + Lex("Int" + ("," + ("String" + (">" + ("(" + (")" + ""))))), Lexer([Generic], Some(StartOfScope), false, false))
  {
    var r12 := "";
    var r11 := ")" + r12;
    var r10 := "(" + r11;
    var r9 := ">" + r10;
    var r8 := "String" + r9;
    var r7 := "," + r8;
    var r6 := "Int" + r7;
    var r5 := "<" + r6;
    GenericClassInitProbe5();
    CodeGenericOpen(r6, Lexer([], Some(Identifier), false, false));
    LexOne("<", r6, Lexer([], Some(Identifier), false, false), Token(StartOfScope, "<"), Lexer([Generic], Some(StartOfScope), false, false));
  }

  lemma GenericClassInitProbe5_0()
    ensures Probe("Int" + ("," + ("String" + (">" + ("(" + (")" + ""))))), "<", 0) == Probe(("," + ("String" + (">" + ("(" + (")" + ""))))), "<", 0)
  {
    var r12 := "";
    var r11 := ")" + r12;
    var r10 := "(" + r11;
    var r9 := ">" + r10;
    var r8 := "String" + r9;
    var r7 := "," + r8;
    var r6 := "Int" + r7;
    ProbeWord("Int", r7, "<", 0);
  }

  lemma GenericClassInitProbe5_1()
    ensures Probe("," + ("String" + (">" + ("(" + (")" + "")))), "<", 0) == Probe(("String" + (">" + ("(" + (")" + "")))), "<", 0)
  {
    var r12 := "";
    var r11 := ")" + r12;
    var r10 := "(" + r11;
    var r9 := ">" + r10;
    var r8 := "String" + r9;
    var r7 := "," + r8;
    var r6 := "Int" + r7;
    ProbeSkip(",", r8, "<", 0);
  }

  lemma GenericClassInitProbe5_2()
    ensures Probe("String" + (">" + ("(" + (")" + ""))), "<", 0) == Probe((">" + ("(" + (")" + ""))), "<", 0)
  {
    var r12 := "";
    var r11 := ")" + r12;
    var r10 := "(" + r11;
    var r9 := ">" + r10;
    var r8 := "String" + r9;
    var r7 := "," + r8;
    var r6 := "Int" + r7;
    ProbeWord("String", r9, "<", 0);
  }

  lemma GenericClassInitProbe5_3()
    ensures Probe(">" + ("(" + (")" + "")), "<", 0)
  {
    var r12 := "";
    var r11 := ")" + r12;
    var r10 := "(" + r11;
    var r9 := ">" + r10;
    var r8 := "String" + r9;
    var r7 := "," + r8;
    var r6 := "Int" + r7;
    ProbeChevronEnds(r10, "<", 0);
  }

  lemma GenericClassInitProbe5()
    ensures Probe("Int" + ("," + ("String" + (">" + ("(" + (")" + ""))))), "<", 0)
  {
    var r12 := "";
    var r11 := ")" + r12;
    var r10 := "(" + r11;
    var r9 := ">" + r10;
    var r8 := "String" + r9;
    var r7 := "," + r8;
    var r6 := "Int" + r7;
    GenericClassInitProbe5_0();
    GenericClassInitProbe5_1();
    GenericClassInitProbe5_2();
    GenericClassInitProbe5_3();
  }

  lemma GenericClassInitStep6()
    ensures Lex("Int" + ("," + ("String" + (">" + ("(" + (")" + ""))))), Lexer([Generic], Some(StartOfScope), false, false)) ==
            [Token(Identifier, "Int")] + Lex("," + ("String" + (">" + ("(" + (")" + "")))), Lexer([Generic], Some(Identifier), false, false))
  {
    var r12 := "";
    var r11 := ")" + r12;
    var r10 := "(" + r11;
    var r9 := ">" + r10;
    var r8 := "String" + r9;
    var r7 := "," + r8;
    var r6 := "Int" + r7;
    CodeIdentifier("Int", r7, Lexer([Generic], Some(StartOfScope), false, false));
    LexOne("Int", r7, Lexer([Generic], Some(StartOfScope), false, false), Token(Identifier, "Int"), Lexer([Generic], Some(Identifier), false, false));
  }

  lemma GenericClassInitStep7()
    ensures Lex("," + ("String" + (">" + ("(" + (")" + "")))), Lexer([Generic], Some(Identifier), false, false)) ==
            [Token(Operator, ",")] + Lex("String" + (">" + ("(" + (")" + ""))), Lexer([Generic], Some(Operator), false, false))
  {
    var r12 := "";
    var r11 := ")" + r12;
    var r10 := "(" + r11;
    var r9 := ">" + r10;
    var r8 := "String" + r9;
    var r7 := "," + r8;
    CodePunctuation(",", r8, Lexer([Generic], Some(Identifier), false, false));
    LexOne(",", r8, Lexer([Generic], Some(Identifier), false, false), Token(Operator, ","), Lexer([Generic], Some(Operator), false, false));
  }

  lemma GenericClassInitStep8()
    ensures Lex("String" + (">" + ("(" + (")" + ""))), Lexer([Generic], Some(Operator), false, false)) ==
            [Token(Identifier, "String")] + Lex(">" + ("(" + (")" + "")), Lexer([Generic], Some(Identifier), false, false))
  {
    var r12 := "";
    var r11 := ")" + r12;
    var r10 := "(" + r11;
    var r9 := ">" + r10;
    var r8 := "String" + r9;
    CodeIdentifier("String", r9, Lexer([Generic], Some(Operator), false, false));
    LexOne("String", r9, Lexer([Generic], Some(Operator), false, false), Token(Identifier, "String"), Lexer([Generic], Some(Identifier), false, false));
  }

  lemma GenericClassInitStep9()
    ensures Lex(">" + ("(" + (")" + "")), Lexer([Generic], Some(Identifier), false, false)) ==
            [Token(EndOfScope, ">")] + Lex("(" + (")" + ""), Lexer([], Some(EndOfScope), false, false))
  {
    var r12 := "";
    var r11 := ")" + r12;
    var r10 := "(" + r11;
    var r9 := ">" + r10;
    CodeGenericClose(r10, Lexer([Generic], Some(Identifier), false, false));
    LexOne(">", r10, Lexer([Generic], Some(Identifier), false, false), Token(EndOfScope, ">"), Lexer([], Some(EndOfScope), false, false));
  }

  lemma GenericClassInitStep10()
    ensures Lex("(" + (")" + ""), Lexer([], Some(EndOfScope), false, false)) ==
            [Token(StartOfScope, "(")] + Lex(")" + "", Lexer([Paren], Some(StartOfScope), false, false))
  {
    var r12 := "";
    var r11 := ")" + r12;
    var r10 := "(" + r11;
    CodeBracketOpen("(", r11, Lexer([], Some(EndOfScope), false, false));
    LexOne("(", r11, Lexer([], Some(EndOfScope), false, false), Token(StartOfScope, "("), Lexer([Paren], Some(StartOfScope), false, false));
  }

  lemma GenericClassInitStep11()
    ensures Lex(")" + "", Lexer([Paren], Some(StartOfScope), false, false)) ==
            [Token(EndOfScope, ")")] + Lex("", Lexer([], Some(EndOfScope), false, false))
  {
    var r12 := "";
    var r11 := ")" + r12;
    CodeClose(")", r12, Lexer([Paren], Some(StartOfScope), false, false));
    LexOne(")", r12, Lexer([Paren], Some(StartOfScope), false, false), Token(EndOfScope, ")"), Lexer([], Some(EndOfScope), false, false));
  }

  // SwiftFormatTests/TokenizerTests.swift:667-680
  lemma GenericFollowedByDot()
    ensures Tokenize("Foo" + ("<" + ("Bar" + (">" + ("." + ("baz" + ("(" + (")" + "")))))))) ==
            [Token(Identifier, "Foo")] + ([Token(StartOfScope, "<")] + ([Token(Identifier, "Bar")] + ([Token(EndOfScope, ">")] + ([Token(Operator, ".")] + ([Token(Identifier, "baz")] + ([Token(StartOfScope, "(")] + ([Token(EndOfScope, ")")] + [])))))))
  {
    GenericFollowedByDotStep0();
    GenericFollowedByDotStep1();
    GenericFollowedByDotStep2();
    GenericFollowedByDotStep3();
    GenericFollowedByDotStep4();
    GenericFollowedByDotStep5();
    GenericFollowedByDotStep6();
    GenericFollowedByDotStep7();
  }

  lemma GenericFollowedByDotStep0()
    ensures Lex("Foo" + ("<" + ("Bar" + (">" + ("." + ("baz" + ("(" + (")" + ""))))))), Lexer([], None, false, false)) ==
            [Token(Identifier, "Foo")] + Lex("<" + ("Bar" + (">" + ("." + ("baz" + ("(" + (")" + "")))))), Lexer([], Some(Identifier), false, false))
  {
    var r8 := "";
    var r7 := ")" + r8;
    var r6 := "(" + r7;
    var r5 := "baz" + r6;
    var r4 := "." + r5;
    var r3 := ">" + r4;
    var r2 := "Bar" + r3;
    var r1 := "<" + r2;
    var r0 := "Foo" + r1;
    CodeIdentifier("Foo", r1, Lexer([], None, false, false));
    LexOne("Foo", r1, Lexer([], None, false, false), Token(Identifier, "Foo"), Lexer([], Some(Identifier), false, false));
  }

  lemma GenericFollowedByDotStep1()
    ensures Lex("<" + ("Bar" + (">" + ("." + ("baz" + ("(" + (")" + "")))))), Lexer([], Some(Identifier), false, false)) ==
            [Token(StartOfScope, "<")] + Lex("Bar" + (">" + ("." + ("baz" + ("(" + (")" + ""))))), Lexer([Generic], Some(StartOfScope), false, false))
  {
    var r8 := "";
    var r7 := ")" + r8;
    var r6 := "(" + r7;
    var r5 := "baz" + r6;
    var r4 := "." + r5;
    var r3 := ">" + r4;
    var r2 := "Bar" + r3;
    var r1 := "<" + r2;
    GenericFollowedByDotProbe1();
    CodeGenericOpen(r2, Lexer([], Some(Identifier), false, false));
    LexOne("<", r2, Lexer([], Some(Identifier), false, false), Token(StartOfScope, "<"), Lexer([Generic], Some(StartOfScope), false, false));
  }

  lemma GenericFollowedByDotProbe1_0()
    ensures Probe("Bar" + (">" + ("." + ("baz" + ("(" + (")" + ""))))), "<", 0) == Probe((">" + ("." + ("baz" + ("(" + (")" + ""))))), "<", 0)
  {
    var r8 := "";
    var r7 := ")" + r8;
    var r6 := "(" + r7;
    var r5 := "baz" + r6;
    var r4 := "." + r5;
    var r3 := ">" + r4;
    var r2 := "Bar" + r3;
    ProbeWord("Bar", r3, "<", 0);
  }

  lemma GenericFollowedByDotProbe1_1()
    ensures Probe(">" + ("." + ("baz" + ("(" + (")" + "")))), "<", 0)
  {
    var r8 := "";
    var r7 := ")" + r8;
    var r6 := "(" + r7;
    var r5 := "baz" + r6;
    var r4 := "." + r5;
    var r3 := ">" + r4;
    var r2 := "Bar" + r3;
    ProbeChevronEnds(r4, "<", 0);
  }

  lemma GenericFollowedByDotProbe1()
    ensures Probe("Bar" + (">" + ("." + ("baz" + ("(" + (")" + ""))))), "<", 0)
  {
    var r8 := "";
    var r7 := ")" + r8;
    var r6 := "(" + r7;
    var r5 := "baz" + r6;
    var r4 := "." + r5;
    var r3 := ">" + r4;
    var r2 := "Bar" + r3;
    GenericFollowedByDotProbe1_0();
    GenericFollowedByDotProbe1_1();
  }

  lemma GenericFollowedByDotStep2()
    ensures Lex("Bar" + (">" + ("." + ("baz" + ("(" + (")" + ""))))), Lexer([Generic], Some(StartOfScope), false, false)) ==
            [Token(Identifier, "Bar")] + Lex(">" + ("." + ("baz" + ("(" + (")" + "")))), Lexer([Generic], Some(Identifier), false, false))
  {
    var r8 := "";
    var r7 := ")" + r8;
    var r6 := "(" + r7;
    var r5 := "baz" + r6;
    var r4 := "." + r5;
    var r3 := ">" + r4;
    var r2 := "Bar" + r3;
    CodeIdentifier("Bar", r3, Lexer([Generic], Some(StartOfScope), false, false));
    LexOne("Bar", r3, Lexer([Generic], Some(StartOfScope), false, false), Token(Identifier, "Bar"), Lexer([Generic], Some(Identifier), false, false));
  }

  lemma GenericFollowedByDotStep3()
    ensures Lex(">" + ("." + ("baz" + ("(" + (")" + "")))), Lexer([Generic], Some(Identifier), false, false)) ==
            [Token(EndOfScope, ">")] + Lex("." + ("baz" + ("(" + (")" + ""))), Lexer([], Some(EndOfScope), false, false))
  {
    var r8 := "";
    var r7 := ")" + r8;
    var r6 := "(" + r7;
    var r5 := "baz" + r6;
    var r4 := "." + r5;
    var r3 := ">" + r4;
    CodeGenericClose(r4, Lexer([Generic], Some(Identifier), false, false));
    LexOne(">", r4, Lexer([Generic], Some(Identifier), false, false), Token(EndOfScope, ">"), Lexer([], Some(EndOfScope), false, false));
  }

  lemma GenericFollowedByDotStep4()
    ensures Lex("." + ("baz" + ("(" + (")" + ""))), Lexer([], Some(EndOfScope), false, false)) ==
            [Token(Operator, ".")] + Lex("baz" + ("(" + (")" + "")), Lexer([], Some(Operator), false, false))
  {
    var r8 := "";
    var r7 := ")" + r8;
    var r6 := "(" + r7;
    var r5 := "baz" + r6;
    var r4 := "." + r5;
    CodeOperator(".", r5, Lexer([], Some(EndOfScope), false, false));
    LexOne(".", r5, Lexer([], Some(EndOfScope), false, false), Token(Operator, "."), Lexer([], Some(Operator), false, false));
  }

  lemma GenericFollowedByDotStep5()
    ensures Lex("baz" + ("(" + (")" + "")), Lexer([], Some(Operator), false, false)) ==
            [Token(Identifier, "baz")] + Lex("(" + (")" + ""), Lexer([], Some(Identifier), false, false))
  {
    var r8 := "";
    var r7 := ")" + r8;
    var r6 := "(" + r7;
    var r5 := "baz" + r6;
    CodeIdentifier("baz", r6, Lexer([], Some(Operator), false, false));
    LexOne("baz", r6, Lexer([], Some(Operator), false, false), Token(Identifier, "baz"), Lexer([], Some(Identifier), false, false));
  }

  lemma GenericFollowedByDotStep6()
    ensures Lex("(" + (")" + ""), Lexer([], Some(Identifier), false, false)) ==
            [Token(StartOfScope, "(")] + Lex(")" + "", Lexer([Paren], Some(StartOfScope), false, false))
  {
    var r8 := "";
    var r7 := ")" + r8;
    var r6 := "(" + r7;
    CodeBracketOpen("(", r7, Lexer([], Some(Identifier), false, false));
    LexOne("(", r7, Lexer([], Some(Identifier), false, false), Token(StartOfScope, "("), Lexer([Paren], Some(StartOfScope), false, false));
  }

  lemma GenericFollowedByDotStep7()
    ensures Lex(")" + "", Lexer([Paren], Some(StartOfScope), false, false)) ==
            [Token(EndOfScope, ")")] + Lex("", Lexer([], Some(EndOfScope), false, false))
  {
    var r8 := "";
    var r7 := ")" + r8;
    CodeClose(")", r8, Lexer([Paren], Some(StartOfScope), false, false));
    LexOne(")", r8, Lexer([Paren], Some(StartOfScope), false, false), Token(EndOfScope, ")"), Lexer([], Some(EndOfScope), false, false));
  }

  // SwiftFormatTests/TokenizerTests.swift:682-692
  lemma ConstantThatLooksLikeGenericType()
    ensures Tokenize("(" + ("y" + ("<" + ("Pi" + (")" + ""))))) ==
            [Token(StartOfScope, "(")] + ([Token(Identifier, "y")] + ([Token(Operator, "<")] + ([Token(Identifier, "Pi")] + ([Token(EndOfScope, ")")] + []))))
  {
    ConstantThatLooksLikeGenericTypeStep0();
    ConstantThatLooksLikeGenericTypeStep1();
    ConstantThatLooksLikeGenericTypeStep2();
    ConstantThatLooksLikeGenericTypeStep3();
    ConstantThatLooksLikeGenericTypeStep4();
  }

  lemma ConstantThatLooksLikeGenericTypeStep0()
    ensures Lex("(" + ("y" + ("<" + ("Pi" + (")" + "")))), Lexer([], None, false, false)) ==
            [Token(StartOfScope, "(")] + Lex("y" + ("<" + ("Pi" + (")" + ""))), Lexer([Paren], Some(StartOfScope), false, false))
  {
    var r5 := "";
    var r4 := ")" + r5;
    var r3 := "Pi" + r4;
    var r2 := "<" + r3;
    var r1 := "y" + r2;
    var r0 := "(" + r1;
    CodeBracketOpen("(", r1, Lexer([], None, false, false));
    LexOne("(", r1, Lexer([], None, false, false), Token(StartOfScope, "("), Lexer([Paren], Some(StartOfScope), false, false));
  }

  lemma ConstantThatLooksLikeGenericTypeStep1()
    ensures Lex("y" + ("<" + ("Pi" + (")" + ""))), Lexer([Paren], Some(StartOfScope), false, false)) ==
            [Token(Identifier, "y")] + Lex("<" + ("Pi" + (")" + "")), Lexer([Paren], Some(Identifier), false, false))
  {
    var r5 := "";
    var r4 := ")" + r5;
    var r3 := "Pi" + r4;
    var r2 := "<" + r3;
    var r1 := "y" + r2;
    CodeIdentifier("y", r2, Lexer([Paren], Some(StartOfScope), false, false));
    LexOne("y", r2, Lexer([Paren], Some(StartOfScope), false, false), Token(Identifier, "y"), Lexer([Paren], Some(Identifier), false, false));
  }

  lemma ConstantThatLooksLikeGenericTypeStep2()
    ensures Lex("<" + ("Pi" + (")" + "")), Lexer([Paren], Some(Identifier), false, false)) ==
            [Token(Operator, "<")] + Lex("Pi" + (")" + ""), Lexer([Paren], Some(Operator), false, false))
  {
    var r5 := "";
    var r4 := ")" + r5;
    var r3 := "Pi" + r4;
    var r2 := "<" + r3;
    assert ("<" + r3)[1..] == r3;
    ConstantThatLooksLikeGenericTypeProbe2();
    CodeOperator("<", r3, Lexer([Paren], Some(Identifier), false, false));
    LexOne("<", r3, Lexer([Paren], Some(Identifier), false, false), Token(Operator, "<"), Lexer([Paren], Some(Operator), false, false));
  }

  lemma ConstantThatLooksLikeGenericTypeProbe2_0()
    ensures Probe("Pi" + (")" + ""), "<", 0) == Probe((")" + ""), "<", 0)
  {
    var r5 := "";
    var r4 := ")" + r5;
    var r3 := "Pi" + r4;
    ProbeWord("Pi", r4, "<", 0);
  }

  lemma ConstantThatLooksLikeGenericTypeProbe2_1()
    ensures !Probe(")" + (""), "<", 0)
  {
    var r5 := "";
    var r4 := ")" + r5;
    var r3 := "Pi" + r4;
    ProbeCloseFails(")", r5, "<", 0);
  }

  lemma ConstantThatLooksLikeGenericTypeProbe2()
    ensures !Probe("Pi" + (")" + ""), "<", 0)
  {
    var r5 := "";
    var r4 := ")" + r5;
    var r3 := "Pi" + r4;
    ConstantThatLooksLikeGenericTypeProbe2_0();
    ConstantThatLooksLikeGenericTypeProbe2_1();
  }

  lemma ConstantThatLooksLikeGenericTypeStep3()
    ensures Lex("Pi" + (")" + ""), Lexer([Paren], Some(Operator), false, false)) ==
            [Token(Identifier, "Pi")] + Lex(")" + "", Lexer([Paren], Some(Identifier), false, false))
  {
    var r5 := "";
    var r4 := ")" + r5;
    var r3 := "Pi" + r4;
    CodeIdentifier("Pi", r4, Lexer([Paren], Some(Operator), false, false));
    LexOne("Pi", r4, Lexer([Paren], Some(Operator), false, false), Token(Identifier, "Pi"), Lexer([Paren], Some(Identifier), false, false));
  }

  lemma ConstantThatLooksLikeGenericTypeStep4()
    ensures Lex(")" + "", Lexer([Paren], Some(Identifier), false, false)) ==
            [Token(EndOfScope, ")")] + Lex("", Lexer([], Some(EndOfScope), false, false))
  {
    var r5 := "";
    var r4 := ")" + r5;
    CodeClose(")", r5, Lexer([Paren], Some(Identifier), false, false));
    LexOne(")", r5, Lexer([Paren], Some(Identifier), false, false), Token(EndOfScope, ")"), Lexer([], Some(EndOfScope), false, false));
  }

  // SwiftFormatTests/TokenizerTests.swift:694-708
  lemma TupleOfBoolsThatLooksLikeGeneric()
    ensures Tokenize("(" + ("Foo" + ("<" + ("T" + ("," + ("U" + (">" + ("V" + (")" + ""))))))))) ==
            [Token(StartOfScope, "(")] + ([Token(Identifier, "Foo")] + ([Token(Operator, "<")] + ([Token(Identifier, "T")] + ([Token(Operator, ",")] + ([Token(Identifier, "U")] + ([Token(Operator, ">")] + ([Token(Identifier, "V")] + ([Token(EndOfScope, ")")] + []))))))))
  {
    TupleOfBoolsThatLooksLikeGenericStep0();
    TupleOfBoolsThatLooksLikeGenericStep1();
    TupleOfBoolsThatLooksLikeGenericStep2();
    TupleOfBoolsThatLooksLikeGenericStep3();
    TupleOfBoolsThatLooksLikeGenericStep4();
    TupleOfBoolsThatLooksLikeGenericStep5();
    TupleOfBoolsThatLooksLikeGenericStep6();
    TupleOfBoolsThatLooksLikeGenericStep7();
    TupleOfBoolsThatLooksLikeGenericFrom8();
  }

  lemma TupleOfBoolsThatLooksLikeGenericFrom8()
    ensures Lex(")" + "", Lexer([Paren], Some(Identifier), false, false)) ==
            [Token(EndOfScope, ")")] + Lex("", Lexer([], Some(EndOfScope), false, false))
  {
    TupleOfBoolsThatLooksLikeGenericStep8();
  }

  lemma TupleOfBoolsThatLooksLikeGenericStep0()
    ensures Lex("(" + ("Foo" + ("<" + ("T" + ("," + ("U" + (">" + ("V" + (")" + "")))))))), Lexer([], None, false, false)) ==
            [Token(StartOfScope, "(")] + Lex("Foo" + ("<" + ("T" + ("," + ("U" + (">" + ("V" + (")" + ""))))))), Lexer([Paren], Some(StartOfScope), false, false))
  {
    var r9 := "";
    var r8 := ")" + r9;
    var r7 := "V" + r8;
    var r6 := ">" + r7;
    var r5 := "U" + r6;
    var r4 := "," + r5;
    var r3 := "T" + r4;
    var r2 := "<" + r3;
    var r1 := "Foo" + r2;
    var r0 := "(" + r1;
    CodeBracketOpen("(", r1, Lexer([], None, false, false));
    LexOne("(", r1, Lexer([], None, false, false), Token(StartOfScope, "("), Lexer([Paren], Some(StartOfScope), false, false));
  }

  lemma TupleOfBoolsThatLooksLikeGenericStep1()
    ensures Lex("Foo" + ("<" + ("T" + ("," + ("U" + (">" + ("V" + (")" + ""))))))), Lexer([Paren], Some(StartOfScope), false, false)) ==
            [Token(Identifier, "Foo")] + Lex("<" + ("T" + ("," + ("U" + (">" + ("V" + (")" + "")))))), Lexer([Paren], Some(Identifier), false, false))
  {
    var r9 := "";
    var r8 := ")" + r9;
    var r7 := "V" + r8;
    var r6 := ">" + r7;
    var r5 := "U" + r6;
    var r4 := "," + r5;
    var r3 := "T" + r4;
    var r2 := "<" + r3;
    var r1 := "Foo" + r2;
    CodeIdentifier("Foo", r2, Lexer([Paren], Some(StartOfScope), false, false));
    LexOne("Foo", r2, Lexer([Paren], Some(StartOfScope), false, false), Token(Identifier, "Foo"), Lexer([Paren], Some(Identifier), false, false));
  }

  lemma TupleOfBoolsThatLooksLikeGenericStep2()
    ensures Lex("<" + ("T" + ("," + ("U" + (">" + ("V" + (")" + "")))))), Lexer([Paren], Some(Identifier), false, false)) ==
            [Token(Operator, "<")] + Lex("T" + ("," + ("U" + (">" + ("V" + (")" + ""))))), Lexer([Paren], Some(Operator), false, false))
  {
    var r9 := "";
    var r8 := ")" + r9;
    var r7 := "V" + r8;
    var r6 := ">" + r7;
    var r5 := "U" + r6;
    var r4 := "," + r5;
    var r3 := "T" + r4;
    var r2 := "<" + r3;
    assert ("<" + r3)[1..] == r3;
    TupleOfBoolsThatLooksLikeGenericProbe2();
    CodeOperator("<", r3, Lexer([Paren], Some(Identifier), false, false));
    LexOne("<", r3, Lexer([Paren], Some(Identifier), false, false), Token(Operator, "<"), Lexer([Paren], Some(Operator), false, false));
  }

  lemma TupleOfBoolsThatLooksLikeGenericProbe2_0()
    ensures Probe("T" + ("," + ("U" + (">" + ("V" + (")" + ""))))), "<", 0) == Probe(("," + ("U" + (">" + ("V" + (")" + ""))))), "<", 0)
  {
    var r9 := "";
    var r8 := ")" + r9;
    var r7 := "V" + r8;
    var r6 := ">" + r7;
    var r5 := "U" + r6;
    var r4 := "," + r5;
    var r3 := "T" + r4;
    ProbeWord("T", r4, "<", 0);
  }

  lemma TupleOfBoolsThatLooksLikeGenericProbe2_1()
    ensures Probe("," + ("U" + (">" + ("V" + (")" + "")))), "<", 0) == Probe(("U" + (">" + ("V" + (")" + "")))), "<", 0)
  {
    var r9 := "";
    var r8 := ")" + r9;
    var r7 := "V" + r8;
    var r6 := ">" + r7;
    var r5 := "U" + r6;
    var r4 := "," + r5;
    var r3 := "T" + r4;
    ProbeSkip(",", r5, "<", 0);
  }

  lemma TupleOfBoolsThatLooksLikeGenericProbe2_2()
    ensures Probe("U" + (">" + ("V" + (")" + ""))), "<", 0) == Probe((">" + ("V" + (")" + ""))), "<", 0)
  {
    var r9 := "";
    var r8 := ")" + r9;
    var r7 := "V" + r8;
    var r6 := ">" + r7;
    var r5 := "U" + r6;
    var r4 := "," + r5;
    var r3 := "T" + r4;
    ProbeWord("U", r6, "<", 0);
  }

  lemma TupleOfBoolsThatLooksLikeGenericProbe2_3()
    ensures !Probe(">" + ("V" + (")" + "")), "<", 0)
  {
    var r9 := "";
    var r8 := ")" + r9;
    var r7 := "V" + r8;
    var r6 := ">" + r7;
    var r5 := "U" + r6;
    var r4 := "," + r5;
    var r3 := "T" + r4;
    ProbeChevronFails(r7, "<", 0);
  }

  lemma TupleOfBoolsThatLooksLikeGenericProbe2()
    ensures !Probe("T" + ("," + ("U" + (">" + ("V" + (")" + ""))))), "<", 0)
  {
    var r9 := "";
    var r8 := ")" + r9;
    var r7 := "V" + r8;
    var r6 := ">" + r7;
    var r5 := "U" + r6;
    var r4 := "," + r5;
    var r3 := "T" + r4;
    TupleOfBoolsThatLooksLikeGenericProbe2_0();
    TupleOfBoolsThatLooksLikeGenericProbe2_1();
    TupleOfBoolsThatLooksLikeGenericProbe2_2();
    TupleOfBoolsThatLooksLikeGenericProbe2_3();
  }

  lemma TupleOfBoolsThatLooksLikeGenericStep3()
    ensures Lex("T" + ("," + ("U" + (">" + ("V" + (")" + ""))))), Lexer([Paren], Some(Operator), false, false)) ==
            [Token(Identifier, "T")] + Lex("," + ("U" + (">" + ("V" + (")" + "")))), Lexer([Paren], Some(Identifier), false, false))
  {
    var r9 := "";
    var r8 := ")" + r9;
    var r7 := "V" + r8;
    var r6 := ">" + r7;
    var r5 := "U" + r6;
    var r4 := "," + r5;
    var r3 := "T" + r4;
    CodeIdentifier("T", r4, Lexer([Paren], Some(Operator), false, false));
    LexOne("T", r4, Lexer([Paren], Some(Operator), false, false), Token(Identifier, "T"), Lexer([Paren], Some(Identifier), false, false));
  }

  lemma TupleOfBoolsThatLooksLikeGenericStep4()
    ensures Lex("," + ("U" + (">" + ("V" + (")" + "")))), Lexer([Paren], Some(Identifier), false, false)) ==
            [Token(Operator, ",")] + Lex("U" + (">" + ("V" + (")" + ""))), Lexer([Paren], Some(Operator), false, false))
  {
    var r9 := "";
    var r8 := ")" + r9;
    var r7 := "V" + r8;
    var r6 := ">" + r7;
    var r5 := "U" + r6;
    var r4 := "," + r5;
    CodePunctuation(",", r5, Lexer([Paren], Some(Identifier), false, false));
    LexOne(",", r5, Lexer([Paren], Some(Identifier), false, false), Token(Operator, ","), Lexer([Paren], Some(Operator), false, false));
  }

  lemma TupleOfBoolsThatLooksLikeGenericStep5()
    ensures Lex("U" + (">" + ("V" + (")" + ""))), Lexer([Paren], Some(Operator), false, false)) ==
            [Token(Identifier, "U")] + Lex(">" + ("V" + (")" + "")), Lexer([Paren], Some(Identifier), false, false))
  {
    var r9 := "";
    var r8 := ")" + r9;
    var r7 := "V" + r8;
    var r6 := ">" + r7;
    var r5 := "U" + r6;
    CodeIdentifier("U", r6, Lexer([Paren], Some(Operator), false, false));
    LexOne("U", r6, Lexer([Paren], Some(Operator), false, false), Token(Identifier, "U"), Lexer([Paren], Some(Identifier), false, false));
  }

  lemma TupleOfBoolsThatLooksLikeGenericStep6()
    ensures Lex(">" + ("V" + (")" + "")), Lexer([Paren], Some(Identifier), false, false)) ==
            [Token(Operator, ">")] + Lex("V" + (")" + ""), Lexer([Paren], Some(Operator), false, false))
  {
    var r9 := "";
    var r8 := ")" + r9;
    var r7 := "V" + r8;
    var r6 := ">" + r7;
    CodeOperator(">", r7, Lexer([Paren], Some(Identifier), false, false));
    LexOne(">", r7, Lexer([Paren], Some(Identifier), false, false), Token(Operator, ">"), Lexer([Paren], Some(Operator), false, false));
  }

  lemma TupleOfBoolsThatLooksLikeGenericStep7()
    ensures Lex("V" + (")" + ""), Lexer([Paren], Some(Operator), false, false)) ==
            [Token(Identifier, "V")] + Lex(")" + "", Lexer([Paren], Some(Identifier), false, false))
  {
    var r9 := "";
    var r8 := ")" + r9;
    var r7 := "V" + r8;
    CodeIdentifier("V", r8, Lexer([Paren], Some(Operator), false, false));
    LexOne("V", r8, Lexer([Paren], Some(Operator), false, false), Token(Identifier, "V"), Lexer([Paren], Some(Identifier), false, false));
  }

  lemma TupleOfBoolsThatLooksLikeGenericStep8()
    ensures Lex(")" + "", Lexer([Paren], Some(Identifier), false, false)) ==
            [Token(EndOfScope, ")")] + Lex("", Lexer([], Some(EndOfScope), false, false))
  {
    var r9 := "";
    var r8 := ")" + r9;
    CodeClose(")", r9, Lexer([Paren], Some(Identifier), false, false));
    LexOne(")", r9, Lexer([Paren], Some(Identifier), false, false), Token(EndOfScope, ")"), Lexer([], Some(EndOfScope), false, false));
  }

  // SwiftFormatTests/TokenizerTests.swift:710-726
  lemma GenericClassInitThatLooksLikeTuple()
    ensures Tokenize("(" + ("Foo" + ("<" + ("String" + ("," + ("Int" + (">" + ("(" + ("Bar" + (")" + (")" + ""))))))))))) ==
            [Token(StartOfScope, "(")] + ([Token(Identifier, "Foo")] + ([Token(StartOfScope, "<")] + ([Token(Identifier, "String")] + ([Token(Operator, ",")] + ([Token(Identifier, "Int")] + ([Token(EndOfScope, ">")] + ([Token(StartOfScope, "(")] + ([Token(Identifier, "Bar")] + ([Token(EndOfScope, ")")] + ([Token(EndOfScope, ")")] + []))))))))))
  {
    GenericClassInitThatLooksLikeTupleStep0();
    GenericClassInitThatLooksLikeTupleStep1();
    GenericClassInitThatLooksLikeTupleStep2();
    GenericClassInitThatLooksLikeTupleStep3();
    GenericClassInitThatLooksLikeTupleStep4();
    GenericClassInitThatLooksLikeTupleStep5();
    GenericClassInitThatLooksLikeTupleStep6();
    GenericClassInitThatLooksLikeTupleStep7();
    GenericClassInitThatLooksLikeTupleFrom8();
  }

  lemma GenericClassInitThatLooksLikeTupleFrom8()
    ensures Lex("Bar" + (")" + (")" + "")), Lexer([Paren, Paren], Some(StartOfScope), false, false)) ==
            [Token(Identifier, "Bar")] + ([Token(EndOfScope, ")")] + ([Token(EndOfScope, ")")] + Lex("", Lexer([], Some(EndOfScope), false, false))))
  {
    GenericClassInitThatLooksLikeTupleStep8();
    GenericClassInitThatLooksLikeTupleStep9();
    GenericClassInitThatLooksLikeTupleStep10();
  }

  lemma GenericClassInitThatLooksLikeTupleStep0()
    ensures Lex("(" + ("Foo" + ("<" + ("String" + ("," + ("Int" + (">" + ("(" + ("Bar" + (")" + (")" + "")))))))))), Lexer([], None, false, false)) ==
            [Token(StartOfScope, "(")] + Lex("Foo" + ("<" + ("String" + ("," + ("Int" + (">" + ("(" + ("Bar" + (")" + (")" + ""))))))))), Lexer([Paren], Some(StartOfScope), false, false))
  {
    var r11 := "";
    var r10 := ")" + r11;
    var r9 := ")" + r10;
    var r8 := "Bar" + r9;
    var r7 := "(" + r8;
    var r6 := ">" + r7;
    var r5 := "Int" + r6;
    var r4 := "," + r5;
    var r3 := "String" + r4;
    var r2 := "<" + r3;
    var r1 := "Foo" + r2;
    var r0 := "(" + r1;
    CodeBracketOpen("(", r1, Lexer([], None, false, false));
    LexOne("(", r1, Lexer([], None, false, false), Token(StartOfScope, "("), Lexer([Paren], Some(StartOfScope), false, false));
  }

  lemma GenericClassInitThatLooksLikeTupleStep1()
    ensures Lex("Foo" + ("<" + ("String" + ("," + ("Int" + (">" + ("(" + ("Bar" + (")" + (")" + ""))))))))), Lexer([Paren], Some(StartOfScope), false, false)) ==
            [Token(Identifier, "Foo")] + Lex("<" + ("String" + ("," + ("Int" + (">" + ("(" + ("Bar" + (")" + (")" + "")))))))), Lexer([Paren], Some(Identifier), false, false))
  {
    var r11 := "";
    var r10 := ")" + r11;
    var r9 := ")" + r10;
    var r8 := "Bar" + r9;
    var r7 := "(" + r8;
    var r6 := ">" + r7;
    var r5 := "Int" + r6;
    var r4 := "," + r5;
    var r3 := "String" + r4;
    var r2 := "<" + r3;
    var r1 := "Foo" + r2;
    CodeIdentifier("Foo", r2, Lexer([Paren], Some(StartOfScope), false, false));
    LexOne("Foo", r2, Lexer([Paren], Some(StartOfScope), false, false), Token(Identifier, "Foo"), Lexer([Paren], Some(Identifier), false, false));
  }

  lemma GenericClassInitThatLooksLikeTupleStep2()
    ensures Lex("<" + ("String" + ("," + ("Int" + (">" + ("(" + ("Bar" + (")" + (")" + "")))))))), Lexer([Paren], Some(Identifier), false, false)) ==
            [Token(StartOfScope, "<")] + Lex("String" + ("," + ("Int" + (">" + ("(" + ("Bar" + (")" + (")" + ""))))))), Lexer([Paren, Generic], Some(StartOfScope), false, false))
  {
    var r11 := "";
    var r10 := ")" + r11;
    var r9 := ")" + r10;
    var r8 := "Bar" + r9;
    var r7 := "(" + r8;
    var r6 := ">" + r7;
    var r5 := "Int" + r6;
    var r4 := "," + r5;
    var r3 := "String" + r4;
    var r2 := "<" + r3;
    GenericClassInitThatLooksLikeTupleProbe2();
    CodeGenericOpen(r3, Lexer([Paren], Some(Identifier), false, false));
    LexOne("<", r3, Lexer([Paren], Some(Identifier), false, false), Token(StartOfScope, "<"), Lexer([Paren, Generic], Some(StartOfScope), false, false));
  }

  lemma GenericClassInitThatLooksLikeTupleProbe2_0()
    ensures Probe("String" + ("," + ("Int" + (">" + ("(" + ("Bar" + (")" + (")" + ""))))))), "<", 0) == Probe(("," + ("Int" + (">" + ("(" + ("Bar" + (")" + (")" + ""))))))), "<", 0)
  {
    var r11 := "";
    var r10 := ")" + r11;
    var r9 := ")" + r10;
    var r8 := "Bar" + r9;
    var r7 := "(" + r8;
    var r6 := ">" + r7;
    var r5 := "Int" + r6;
    var r4 := "," + r5;
    var r3 := "String" + r4;
    ProbeWord("String", r4, "<", 0);
  }

  lemma GenericClassInitThatLooksLikeTupleProbe2_1()
    ensures Probe("," + ("Int" + (">" + ("(" + ("Bar" + (")" + (")" + "")))))), "<", 0) == Probe(("Int" + (">" + ("(" + ("Bar" + (")" + (")" + "")))))), "<", 0)
  {
    var r11 := "";
    var r10 := ")" + r11;
    var r9 := ")" + r10;
    var r8 := "Bar" + r9;
    var r7 := "(" + r8;
    var r6 := ">" + r7;
    var r5 := "Int" + r6;
    var r4 := "," + r5;
    var r3 := "String" + r4;
    ProbeSkip(",", r5, "<", 0);
  }

  lemma GenericClassInitThatLooksLikeTupleProbe2_2()
    ensures Probe("Int" + (">" + ("(" + ("Bar" + (")" + (")" + ""))))), "<", 0) == Probe((">" + ("(" + ("Bar" + (")" + (")" + ""))))), "<", 0)
  {
    var r11 := "";
    var r10 := ")" + r11;
    var r9 := ")" + r10;
    var r8 := "Bar" + r9;
    var r7 := "(" + r8;
    var r6 := ">" + r7;
    var r5 := "Int" + r6;
    var r4 := "," + r5;
    var r3 := "String" + r4;
    ProbeWord("Int", r6, "<", 0);
  }

  lemma GenericClassInitThatLooksLikeTupleProbe2_3()
    ensures Probe(">" + ("(" + ("Bar" + (")" + (")" + "")))), "<", 0)
  {
    var r11 := "";
    var r10 := ")" + r11;
    var r9 := ")" + r10;
    var r8 := "Bar" + r9;
    var r7 := "(" + r8;
    var r6 := ">" + r7;
    var r5 := "Int" + r6;
    var r4 := "," + r5;
    var r3 := "String" + r4;
    ProbeChevronEnds(r7, "<", 0);
  }

  lemma GenericClassInitThatLooksLikeTupleProbe2()
    ensures Probe("String" + ("," + ("Int" + (">" + ("(" + ("Bar" + (")" + (")" + ""))))))), "<", 0)
  {
    var r11 := "";
    var r10 := ")" + r11;
    var r9 := ")" + r10;
    var r8 := "Bar" + r9;
    var r7 := "(" + r8;
    var r6 := ">" + r7;
    var r5 := "Int" + r6;
    var r4 := "," + r5;
    var r3 := "String" + r4;
    GenericClassInitThatLooksLikeTupleProbe2_0();
    GenericClassInitThatLooksLikeTupleProbe2_1();
    GenericClassInitThatLooksLikeTupleProbe2_2();
    GenericClassInitThatLooksLikeTupleProbe2_3();
  }

  lemma GenericClassInitThatLooksLikeTupleStep3()
    ensures Lex("String" + ("," + ("Int" + (">" + ("(" + ("Bar" + (")" + (")" + ""))))))), Lexer([Paren, Generic], Some(StartOfScope), false, false)) ==
            [Token(Identifier, "String")] + Lex("," + ("Int" + (">" + ("(" + ("Bar" + (")" + (")" + "")))))), Lexer([Paren, Generic], Some(Identifier), false, false))
  {
    var r11 := "";
    var r10 := ")" + r11;
    var r9 := ")" + r10;
    var r8 := "Bar" + r9;
    var r7 := "(" + r8;
    var r6 := ">" + r7;
    var r5 := "Int" + r6;
    var r4 := "," + r5;
    var r3 := "String" + r4;
    CodeIdentifier("String", r4, Lexer([Paren, Generic], Some(StartOfScope), false, false));
    LexOne("String", r4, Lexer([Paren, Generic], Some(StartOfScope), false, false), Token(Identifier, "String"), Lexer([Paren, Generic], Some(Identifier), false, false));
  }

  lemma GenericClassInitThatLooksLikeTupleStep4()
    ensures Lex("," + ("Int" + (">" + ("(" + ("Bar" + (")" + (")" + "")))))), Lexer([Paren, Generic], Some(Identifier), false, false)) ==
            [Token(Operator, ",")] + Lex("Int" + (">" + ("(" + ("Bar" + (")" + (")" + ""))))), Lexer([Paren, Generic], Some(Operator), false, false))
  {
    var r11 := "";
    var r10 := ")" + r11;
    var r9 := ")" + r10;
    var r8 := "Bar" + r9;
    var r7 := "(" + r8;
    var r6 := ">" + r7;
    var r5 := "Int" + r6;
    var r4 := "," + r5;
    CodePunctuation(",", r5, Lexer([Paren, Generic], Some(Identifier), false, false));
    LexOne(",", r5, Lexer([Paren, Generic], Some(Identifier), false, false), Token(Operator, ","), Lexer([Paren, Generic], Some(Operator), false, false));
  }

  lemma GenericClassInitThatLooksLikeTupleStep5()
    ensures Lex("Int" + (">" + ("(" + ("Bar" + (")" + (")" + ""))))), Lexer([Paren, Generic], Some(Operator), false, false)) ==
            [Token(Identifier, "Int")] + Lex(">" + ("(" + ("Bar" + (")" + (")" + "")))), Lexer([Paren, Generic], Some(Identifier), false, false))
  {
    var r11 := "";
    var r10 := ")" + r11;
    var r9 := ")" + r10;
    var r8 := "Bar" + r9;
    var r7 := "(" + r8;
    var r6 := ">" + r7;
    var r5 := "Int" + r6;
    CodeIdentifier("Int", r6, Lexer([Paren, Generic], Some(Operator), false, false));
    LexOne("Int", r6, Lexer([Paren, Generic], Some(Operator), false, false), Token(Identifier, "Int"), Lexer([Paren, Generic], Some(Identifier), false, false));
  }

  lemma GenericClassInitThatLooksLikeTupleStep6()
    ensures Lex(">" + ("(" + ("Bar" + (")" + (")" + "")))), Lexer([Paren, Generic], Some(Identifier), false, false)) ==
            [Token(EndOfScope, ">")] + Lex("(" + ("Bar" + (")" + (")" + ""))), Lexer([Paren], Some(EndOfScope), false, false))
  {
    var r11 := "";
    var r10 := ")" + r11;
    var r9 := ")" + r10;
    var r8 := "Bar" + r9;
    var r7 := "(" + r8;
    var r6 := ">" + r7;
    CodeGenericClose(r7, Lexer([Paren, Generic], Some(Identifier), false, false));
    LexOne(">", r7, Lexer([Paren, Generic], Some(Identifier), false, false), Token(EndOfScope, ">"), Lexer([Paren], Some(EndOfScope), false, false));
  }

  lemma GenericClassInitThatLooksLikeTupleStep7()
    ensures Lex("(" + ("Bar" + (")" + (")" + ""))), Lexer([Paren], Some(EndOfScope), false, false)) ==
            [Token(StartOfScope, "(")] + Lex("Bar" + (")" + (")" + "")), Lexer([Paren, Paren], Some(StartOfScope), false, false))
  {
    var r11 := "";
    var r10 := ")" + r11;
    var r9 := ")" + r10;
    var r8 := "Bar" + r9;
    var r7 := "(" + r8;
    CodeBracketOpen("(", r8, Lexer([Paren], Some(EndOfScope), false, false));
    LexOne("(", r8, Lexer([Paren], Some(EndOfScope), false, false), Token(StartOfScope, "("), Lexer([Paren, Paren], Some(StartOfScope), false, false));
  }

  lemma GenericClassInitThatLooksLikeTupleStep8()
    ensures Lex("Bar" + (")" + (")" + "")), Lexer([Paren, Paren], Some(StartOfScope), false, false)) ==
            [Token(Identifier, "Bar")] + Lex(")" + (")" + ""), Lexer([Paren, Paren], Some(Identifier), false, false))
  {
    var r11 := "";
    var r10 := ")" + r11;
    var r9 := ")" + r10;
    var r8 := "Bar" + r9;
    CodeIdentifier("Bar", r9, Lexer([Paren, Paren], Some(StartOfScope), false, false));
    LexOne("Bar", r9, Lexer([Paren, Paren], Some(StartOfScope), false, false), Token(Identifier, "Bar"), Lexer([Paren, Paren], Some(Identifier), false, false));
  }

  lemma GenericClassInitThatLooksLikeTupleStep9()
    ensures Lex(")" + (")" + ""), Lexer([Paren, Paren], Some(Identifier), false, false)) ==
            [Token(EndOfScope, ")")] + Lex(")" + "", Lexer([Paren], Some(EndOfScope), false, false))
  {
    var r11 := "";
    var r10 := ")" + r11;
    var r9 := ")" + r10;
    CodeClose(")", r10, Lexer([Paren, Paren], Some(Identifier), false, false));
    LexOne(")", r10, Lexer([Paren, Paren], Some(Identifier), false, false), Token(EndOfScope, ")"), Lexer([Paren], Some(EndOfScope), false, false));
  }

  lemma GenericClassInitThatLooksLikeTupleStep10()
    ensures Lex(")" + "", Lexer([Paren], Some(EndOfScope), false, false)) ==
            [Token(EndOfScope, ")")] + Lex("", Lexer([], Some(EndOfScope), false, false))
  {
    var r11 := "";
    var r10 := ")" + r11;
    CodeClose(")", r11, Lexer([Paren], Some(EndOfScope), false, false));
    LexOne(")", r11, Lexer([Paren], Some(EndOfScope), false, false), Token(EndOfScope, ")"), Lexer([], Some(EndOfScope), false, false));
  }

  // SwiftFormatTests/TokenizerTests.swift:728-740
  lemma CustomChevronOperatorThatLooksLikeGeneric()
    ensures Tokenize("Foo" + ("<" + ("Bar" + ("," + ("Baz" + (">>>" + ("5" + ""))))))) ==
            [Token(Identifier, "Foo")] + ([Token(Operator, "<")] + ([Token(Identifier, "Bar")] + ([Token(Operator, ",")] + ([Token(Identifier, "Baz")] + ([Token(Operator, ">>>")] + ([Token(Number, "5")] + []))))))
  {
    CustomChevronOperatorThatLooksLikeGenericStep0();
    CustomChevronOperatorThatLooksLikeGenericStep1();
    CustomChevronOperatorThatLooksLikeGenericStep2();
    CustomChevronOperatorThatLooksLikeGenericStep3();
    CustomChevronOperatorThatLooksLikeGenericStep4();
    CustomChevronOperatorThatLooksLikeGenericStep5();
    CustomChevronOperatorThatLooksLikeGenericStep6();
  }

  lemma CustomChevronOperatorThatLooksLikeGenericStep0()
    ensures Lex("Foo" + ("<" + ("Bar" + ("," + ("Baz" + (">>>" + ("5" + "")))))), Lexer([], None, false, false)) ==
            [Token(Identifier, "Foo")] + Lex("<" + ("Bar" + ("," + ("Baz" + (">>>" + ("5" + ""))))), Lexer([], Some(Identifier), false, false))
  {
    var r7 := "";
    var r6 := "5" + r7;
    var r5 := ">>>" + r6;
    var r4 := "Baz" + r5;
    var r3 := "," + r4;
    var r2 := "Bar" + r3;
    var r1 := "<" + r2;
    var r0 := "Foo" + r1;
    CodeIdentifier("Foo", r1, Lexer([], None, false, false));
    LexOne("Foo", r1, Lexer([], None, false, false), Token(Identifier, "Foo"), Lexer([], Some(Identifier), false, false));
  }

  lemma CustomChevronOperatorThatLooksLikeGenericStep1()
    ensures Lex("<" + ("Bar" + ("," + ("Baz" + (">>>" + ("5" + ""))))), Lexer([], Some(Identifier), false, false)) ==
            [Token(Operator, "<")] + Lex("Bar" + ("," + ("Baz" + (">>>" + ("5" + "")))), Lexer([], Some(Operator), false, false))
  {
    var r7 := "";
    var r6 := "5" + r7;
    var r5 := ">>>" + r6;
    var r4 := "Baz" + r5;
    var r3 := "," + r4;
    var r2 := "Bar" + r3;
    var r1 := "<" + r2;
    assert ("<" + r2)[1..] == r2;
    CustomChevronOperatorThatLooksLikeGenericProbe1();
    CodeOperator("<", r2, Lexer([], Some(Identifier), false, false));
    LexOne("<", r2, Lexer([], Some(Identifier), false, false), Token(Operator, "<"), Lexer([], Some(Operator), false, false));
  }

  lemma CustomChevronOperatorThatLooksLikeGenericProbe1_0()
    ensures Probe("Bar" + ("," + ("Baz" + (">>>" + ("5" + "")))), "<", 0) == Probe(("," + ("Baz" + (">>>" + ("5" + "")))), "<", 0)
  {
    var r7 := "";
    var r6 := "5" + r7;
    var r5 := ">>>" + r6;
    var r4 := "Baz" + r5;
    var r3 := "," + r4;
    var r2 := "Bar" + r3;
    ProbeWord("Bar", r3, "<", 0);
  }

  lemma CustomChevronOperatorThatLooksLikeGenericProbe1_1()
    ensures Probe("," + ("Baz" + (">>>" + ("5" + ""))), "<", 0) == Probe(("Baz" + (">>>" + ("5" + ""))), "<", 0)
  {
    var r7 := "";
    var r6 := "5" + r7;
    var r5 := ">>>" + r6;
    var r4 := "Baz" + r5;
    var r3 := "," + r4;
    var r2 := "Bar" + r3;
    ProbeSkip(",", r4, "<", 0);
  }

  lemma CustomChevronOperatorThatLooksLikeGenericProbe1_2()
    ensures Probe("Baz" + (">>>" + ("5" + "")), "<", 0) == Probe((">>>" + ("5" + "")), "<", 0)
  {
    var r7 := "";
    var r6 := "5" + r7;
    var r5 := ">>>" + r6;
    var r4 := "Baz" + r5;
    var r3 := "," + r4;
    var r2 := "Bar" + r3;
    ProbeWord("Baz", r5, "<", 0);
  }

  lemma CustomChevronOperatorThatLooksLikeGenericProbe1_3()
    ensures !Probe(">" + (">" + (">" + ("5" + ""))), "<", 0)
  {
    var r7 := "";
    var r6 := "5" + r7;
    var r5 := ">>>" + r6;
    var r4 := "Baz" + r5;
    var r3 := "," + r4;
    var r2 := "Bar" + r3;
    assert ">>>" + r6 == ">" + (">" + (">" + r6));
    assert (">" + (">" + r6)) == ">>" + r6;
    ChevronRunOf(">>", r6);
    ProbeChevronFails((">" + (">" + r6)), "<", 0);
  }

  lemma CustomChevronOperatorThatLooksLikeGenericProbe1()
    ensures !Probe("Bar" + ("," + ("Baz" + (">>>" + ("5" + "")))), "<", 0)
  {
    var r7 := "";
    var r6 := "5" + r7;
    var r5 := ">>>" + r6;
    var r4 := "Baz" + r5;
    var r3 := "," + r4;
    var r2 := "Bar" + r3;
    assert ">>>" + r6 == ">" + (">" + (">" + r6));
    CustomChevronOperatorThatLooksLikeGenericProbe1_0();
    CustomChevronOperatorThatLooksLikeGenericProbe1_1();
    CustomChevronOperatorThatLooksLikeGenericProbe1_2();
    CustomChevronOperatorThatLooksLikeGenericProbe1_3();
  }

  lemma CustomChevronOperatorThatLooksLikeGenericStep2()
    ensures Lex("Bar" + ("," + ("Baz" + (">>>" + ("5" + "")))), Lexer([], Some(Operator), false, false)) ==
            [Token(Identifier, "Bar")] + Lex("," + ("Baz" + (">>>" + ("5" + ""))), Lexer([], Some(Identifier), false, false))
  {
    var r7 := "";
    var r6 := "5" + r7;
    var r5 := ">>>" + r6;
    var r4 := "Baz" + r5;
    var r3 := "," + r4;
    var r2 := "Bar" + r3;
    CodeIdentifier("Bar", r3, Lexer([], Some(Operator), false, false));
    LexOne("Bar", r3, Lexer([], Some(Operator), false, false), Token(Identifier, "Bar"), Lexer([], Some(Identifier), false, false));
  }

  lemma CustomChevronOperatorThatLooksLikeGenericStep3()
    ensures Lex("," + ("Baz" + (">>>" + ("5" + ""))), Lexer([], Some(Identifier), false, false)) ==
            [Token(Operator, ",")] + Lex("Baz" + (">>>" + ("5" + "")), Lexer([], Some(Operator), false, false))
  {
    var r7 := "";
    var r6 := "5" + r7;
    var r5 := ">>>" + r6;
    var r4 := "Baz" + r5;
    var r3 := "," + r4;
    CodePunctuation(",", r4, Lexer([], Some(Identifier), false, false));
    LexOne(",", r4, Lexer([], Some(Identifier), false, false), Token(Operator, ","), Lexer([], Some(Operator), false, false));
  }

  lemma CustomChevronOperatorThatLooksLikeGenericStep4()
    ensures Lex("Baz" + (">>>" + ("5" + "")), Lexer([], Some(Operator), false, false)) ==
            [Token(Identifier, "Baz")] + Lex(">>>" + ("5" + ""), Lexer([], Some(Identifier), false, false))
  {
    var r7 := "";
    var r6 := "5" + r7;
    var r5 := ">>>" + r6;
    var r4 := "Baz" + r5;
    CodeIdentifier("Baz", r5, Lexer([], Some(Operator), false, false));
    LexOne("Baz", r5, Lexer([], Some(Operator), false, false), Token(Identifier, "Baz"), Lexer([], Some(Identifier), false, false));
  }

  lemma CustomChevronOperatorThatLooksLikeGenericStep5()
    ensures Lex(">>>" + ("5" + ""), Lexer([], Some(Identifier), false, false)) ==
            [Token(Operator, ">>>")] + Lex("5" + "", Lexer([], Some(Operator), false, false))
  {
    var r7 := "";
    var r6 := "5" + r7;
    var r5 := ">>>" + r6;
    CodeOperator(">>>", r6, Lexer([], Some(Identifier), false, false));
    LexOne(">>>", r6, Lexer([], Some(Identifier), false, false), Token(Operator, ">>>"), Lexer([], Some(Operator), false, false));
  }

  lemma CustomChevronOperatorThatLooksLikeGenericStep6()
    ensures Lex("5" + "", Lexer([], Some(Operator), false, false)) ==
            [Token(Number, "5")] + Lex("", Lexer([], Some(Number), false, false))
  {
    var r7 := "";
    var r6 := "5" + r7;
    CodeNumber("5", r7, 1, 1, Lexer([], Some(Operator), false, false));
    LexOne("5", r7, Lexer([], Some(Operator), false, false), Token(Number, "5"), Lexer([], Some(Number), false, false));
  }

  // SwiftFormatTests/TokenizerTests.swift:742-755
  lemma GenericAsFunctionType()
    ensures Tokenize("Foo" + ("<" + ("Bar" + ("," + ("Baz" + (">" + ("->" + ("Void" + "")))))))) ==
            [Token(Identifier, "Foo")] + ([Token(StartOfScope, "<")] + ([Token(Identifier, "Bar")] + ([Token(Operator, ",")] + ([Token(Identifier, "Baz")] + ([Token(EndOfScope, ">")] + ([Token(Operator, "->")] + ([Token(Identifier, "Void")] + [])))))))
  {
    GenericAsFunctionTypeStep0();
    GenericAsFunctionTypeStep1();
    GenericAsFunctionTypeStep2();
    GenericAsFunctionTypeStep3();
    GenericAsFunctionTypeStep4();
    GenericAsFunctionTypeStep5();
    GenericAsFunctionTypeStep6();
    GenericAsFunctionTypeStep7();
  }

  lemma GenericAsFunctionTypeStep0()
    ensures Lex("Foo" + ("<" + ("Bar" + ("," + ("Baz" + (">" + ("->" + ("Void" + ""))))))), Lexer([], None, false, false)) ==
            [Token(Identifier, "Foo")] + Lex("<" + ("Bar" + ("," + ("Baz" + (">" + ("->" + ("Void" + "")))))), Lexer([], Some(Identifier), false, false))
  {
    var r8 := "";
    var r7 := "Void" + r8;
    var r6 := "->" + r7;
    var r5 := ">" + r6;
    var r4 := "Baz" + r5;
    var r3 := "," + r4;
    var r2 := "Bar" + r3;
    var r1 := "<" + r2;
    var r0 := "Foo" + r1;
    CodeIdentifier("Foo", r1, Lexer([], None, false, false));
    LexOne("Foo", r1, Lexer([], None, false, false), Token(Identifier, "Foo"), Lexer([], Some(Identifier), false, false));
  }

  lemma GenericAsFunctionTypeStep1()
    ensures Lex("<" + ("Bar" + ("," + ("Baz" + (">" + ("->" + ("Void" + "")))))), Lexer([], Some(Identifier), false, false)) ==
            [Token(StartOfScope, "<")] + Lex("Bar" + ("," + ("Baz" + (">" + ("->" + ("Void" + ""))))), Lexer([Generic], Some(StartOfScope), false, false))
  {
    var r8 := "";
    var r7 := "Void" + r8;
    var r6 := "->" + r7;
    var r5 := ">" + r6;
    var r4 := "Baz" + r5;
    var r3 := "," + r4;
    var r2 := "Bar" + r3;
    var r1 := "<" + r2;
    GenericAsFunctionTypeProbe1();
    CodeGenericOpen(r2, Lexer([], Some(Identifier), false, false));
    LexOne("<", r2, Lexer([], Some(Identifier), false, false), Token(StartOfScope, "<"), Lexer([Generic], Some(StartOfScope), false, false));
  }

  lemma GenericAsFunctionTypeProbe1_0()
    ensures Probe("Bar" + ("," + ("Baz" + (">" + ("->" + ("Void" + ""))))), "<", 0) == Probe(("," + ("Baz" + (">" + ("->" + ("Void" + ""))))), "<", 0)
  {
    var r8 := "";
    var r7 := "Void" + r8;
    var r6 := "->" + r7;
    var r5 := ">" + r6;
    var r4 := "Baz" + r5;
    var r3 := "," + r4;
    var r2 := "Bar" + r3;
    ProbeWord("Bar", r3, "<", 0);
  }

  lemma GenericAsFunctionTypeProbe1_1()
    ensures Probe("," + ("Baz" + (">" + ("->" + ("Void" + "")))), "<", 0) == Probe(("Baz" + (">" + ("->" + ("Void" + "")))), "<", 0)
  {
    var r8 := "";
    var r7 := "Void" + r8;
    var r6 := "->" + r7;
    var r5 := ">" + r6;
    var r4 := "Baz" + r5;
    var r3 := "," + r4;
    var r2 := "Bar" + r3;
    ProbeSkip(",", r4, "<", 0);
  }

  lemma GenericAsFunctionTypeProbe1_2()
    ensures Probe("Baz" + (">" + ("->" + ("Void" + ""))), "<", 0) == Probe((">" + ("->" + ("Void" + ""))), "<", 0)
  {
    var r8 := "";
    var r7 := "Void" + r8;
    var r6 := "->" + r7;
    var r5 := ">" + r6;
    var r4 := "Baz" + r5;
    var r3 := "," + r4;
    var r2 := "Bar" + r3;
    ProbeWord("Baz", r5, "<", 0);
  }

  lemma GenericAsFunctionTypeProbe1_3()
    ensures Probe(">" + ("->" + ("Void" + "")), "<", 0)
  {
    var r8 := "";
    var r7 := "Void" + r8;
    var r6 := "->" + r7;
    var r5 := ">" + r6;
    var r4 := "Baz" + r5;
    var r3 := "," + r4;
    var r2 := "Bar" + r3;
    ProbeChevronEnds(r6, "<", 0);
  }

  lemma GenericAsFunctionTypeProbe1()
    ensures Probe("Bar" + ("," + ("Baz" + (">" + ("->" + ("Void" + ""))))), "<", 0)
  {
    var r8 := "";
    var r7 := "Void" + r8;
    var r6 := "->" + r7;
    var r5 := ">" + r6;
    var r4 := "Baz" + r5;
    var r3 := "," + r4;
    var r2 := "Bar" + r3;
    GenericAsFunctionTypeProbe1_0();
    GenericAsFunctionTypeProbe1_1();
    GenericAsFunctionTypeProbe1_2();
    GenericAsFunctionTypeProbe1_3();
  }

  lemma GenericAsFunctionTypeStep2()
    ensures Lex("Bar" + ("," + ("Baz" + (">" + ("->" + ("Void" + ""))))), Lexer([Generic], Some(StartOfScope), false, false)) ==
            [Token(Identifier, "Bar")] + Lex("," + ("Baz" + (">" + ("->" + ("Void" + "")))), Lexer([Generic], Some(Identifier), false, false))
  {
    var r8 := "";
    var r7 := "Void" + r8;
    var r6 := "->" + r7;
    var r5 := ">" + r6;
    var r4 := "Baz" + r5;
    var r3 := "," + r4;
    var r2 := "Bar" + r3;
    CodeIdentifier("Bar", r3, Lexer([Generic], Some(StartOfScope), false, false));
    LexOne("Bar", r3, Lexer([Generic], Some(StartOfScope), false, false), Token(Identifier, "Bar"), Lexer([Generic], Some(Identifier), false, false));
  }

  lemma GenericAsFunctionTypeStep3()
    ensures Lex("," + ("Baz" + (">" + ("->" + ("Void" + "")))), Lexer([Generic], Some(Identifier), false, false)) ==
            [Token(Operator, ",")] + Lex("Baz" + (">" + ("->" + ("Void" + ""))), Lexer([Generic], Some(Operator), false, false))
  {
    var r8 := "";
    var r7 := "Void" + r8;
    var r6 := "->" + r7;
    var r5 := ">" + r6;
    var r4 := "Baz" + r5;
    var r3 := "," + r4;
    CodePunctuation(",", r4, Lexer([Generic], Some(Identifier), false, false));
    LexOne(",", r4, Lexer([Generic], Some(Identifier), false, false), Token(Operator, ","), Lexer([Generic], Some(Operator), false, false));
  }

  lemma GenericAsFunctionTypeStep4()
    ensures Lex("Baz" + (">" + ("->" + ("Void" + ""))), Lexer([Generic], Some(Operator), false, false)) ==
            [Token(Identifier, "Baz")] + Lex(">" + ("->" + ("Void" + "")), Lexer([Generic], Some(Identifier), false, false))
  {
    var r8 := "";
    var r7 := "Void" + r8;
    var r6 := "->" + r7;
    var r5 := ">" + r6;
    var r4 := "Baz" + r5;
    CodeIdentifier("Baz", r5, Lexer([Generic], Some(Operator), false, false));
    LexOne("Baz", r5, Lexer([Generic], Some(Operator), false, false), Token(Identifier, "Baz"), Lexer([Generic], Some(Identifier), false, false));
  }

  lemma GenericAsFunctionTypeStep5()
    ensures Lex(">" + ("->" + ("Void" + "")), Lexer([Generic], Some(Identifier), false, false)) ==
            [Token(EndOfScope, ">")] + Lex("->" + ("Void" + ""), Lexer([], Some(EndOfScope), false, false))
  {
    var r8 := "";
    var r7 := "Void" + r8;
    var r6 := "->" + r7;
    var r5 := ">" + r6;
    CodeGenericClose(r6, Lexer([Generic], Some(Identifier), false, false));
    LexOne(">", r6, Lexer([Generic], Some(Identifier), false, false), Token(EndOfScope, ">"), Lexer([], Some(EndOfScope), false, false));
  }

  lemma GenericAsFunctionTypeStep6()
    ensures Lex("->" + ("Void" + ""), Lexer([], Some(EndOfScope), false, false)) ==
            [Token(Operator, "->")] + Lex("Void" + "", Lexer([], Some(Operator), false, false))
  {
    var r8 := "";
    var r7 := "Void" + r8;
    var r6 := "->" + r7;
    CodeOperator("->", r7, Lexer([], Some(EndOfScope), false, false));
    LexOne("->", r7, Lexer([], Some(EndOfScope), false, false), Token(Operator, "->"), Lexer([], Some(Operator), false, false));
  }

  lemma GenericAsFunctionTypeStep7()
    ensures Lex("Void" + "", Lexer([], Some(Operator), false, false)) ==
            [Token(Identifier, "Void")] + Lex("", Lexer([], Some(Identifier), false, false))
  {
    var r8 := "";
    var r7 := "Void" + r8;
    CodeIdentifier("Void", r8, Lexer([], Some(Operator), false, false));
    LexOne("Void", r8, Lexer([], Some(Operator), false, false), Token(Identifier, "Void"), Lexer([], Some(Identifier), false, false));
  }

  // SwiftFormatTests/TokenizerTests.swift:757-770
  lemma GenericContainingArrayType()
    ensures Tokenize("Foo" + ("<" + ("[" + ("Bar" + ("]" + ("," + ("Baz" + (">" + "")))))))) ==
            [Token(Identifier, "Foo")] + ([Token(StartOfScope, "<")] + ([Token(StartOfScope, "[")] + ([Token(Identifier, "Bar")] + ([Token(EndOfScope, "]")] + ([Token(Operator, ",")] + ([Token(Identifier, "Baz")] + ([Token(EndOfScope, ">")] + [])))))))
  {
    GenericContainingArrayTypeStep0();
    GenericContainingArrayTypeStep1();
    GenericContainingArrayTypeStep2();
    GenericContainingArrayTypeStep3();
    GenericContainingArrayTypeStep4();
    GenericContainingArrayTypeStep5();
    GenericContainingArrayTypeStep6();
    GenericContainingArrayTypeStep7();
  }

  lemma GenericContainingArrayTypeStep0()
    ensures Lex("Foo" + ("<" + ("[" + ("Bar" + ("]" + ("," + ("Baz" + (">" + ""))))))), Lexer([], None, false, false)) ==
            [Token(Identifier, "Foo")] + Lex("<" + ("[" + ("Bar" + ("]" + ("," + ("Baz" + (">" + "")))))), Lexer([], Some(Identifier), false, false))
  {
    var r8 := "";
    var r7 := ">" + r8;
    var r6 := "Baz" + r7;
    var r5 := "," + r6;
    var r4 := "]" + r5;
    var r3 := "Bar" + r4;
    var r2 := "[" + r3;
    var r1 := "<" + r2;
    var r0 := "Foo" + r1;
    CodeIdentifier("Foo", r1, Lexer([], None, false, false));
    LexOne("Foo", r1, Lexer([], None, false, false), Token(Identifier, "Foo"), Lexer([], Some(Identifier), false, false));
  }

  lemma GenericContainingArrayTypeStep1()
    ensures Lex("<" + ("[" + ("Bar" + ("]" + ("," + ("Baz" + (">" + "")))))), Lexer([], Some(Identifier), false, false)) ==
            [Token(StartOfScope, "<")] + Lex("[" + ("Bar" + ("]" + ("," + ("Baz" + (">" + ""))))), Lexer([Generic], Some(StartOfScope), false, false))
  {
    var r8 := "";
    var r7 := ">" + r8;
    var r6 := "Baz" + r7;
    var r5 := "," + r6;
    var r4 := "]" + r5;
    var r3 := "Bar" + r4;
    var r2 := "[" + r3;
    var r1 := "<" + r2;
    GenericContainingArrayTypeProbe1();
    CodeGenericOpen(r2, Lexer([], Some(Identifier), false, false));
    LexOne("<", r2, Lexer([], Some(Identifier), false, false), Token(StartOfScope, "<"), Lexer([Generic], Some(StartOfScope), false, false));
  }

  lemma GenericContainingArrayTypeProbe1_0()
    ensures Probe("[" + ("Bar" + ("]" + ("," + ("Baz" + (">" + ""))))), "<", 0) == Probe(("Bar" + ("]" + ("," + ("Baz" + (">" + ""))))), "<[", 0)
  {
    var r8 := "";
    var r7 := ">" + r8;
    var r6 := "Baz" + r7;
    var r5 := "," + r6;
    var r4 := "]" + r5;
    var r3 := "Bar" + r4;
    var r2 := "[" + r3;
    ProbeOpen("[", r3, "<", "<[", 0);
  }

  lemma GenericContainingArrayTypeProbe1_1()
    ensures Probe("Bar" + ("]" + ("," + ("Baz" + (">" + "")))), "<[", 0) == Probe(("]" + ("," + ("Baz" + (">" + "")))), "<[", 0)
  {
    var r8 := "";
    var r7 := ">" + r8;
    var r6 := "Baz" + r7;
    var r5 := "," + r6;
    var r4 := "]" + r5;
    var r3 := "Bar" + r4;
    var r2 := "[" + r3;
    ProbeWord("Bar", r4, "<[", 0);
  }

  lemma GenericContainingArrayTypeProbe1_2()
    ensures Probe("]" + ("," + ("Baz" + (">" + ""))), "<[", 0) == Probe(("," + ("Baz" + (">" + ""))), "<", 0)
  {
    var r8 := "";
    var r7 := ">" + r8;
    var r6 := "Baz" + r7;
    var r5 := "," + r6;
    var r4 := "]" + r5;
    var r3 := "Bar" + r4;
    var r2 := "[" + r3;
    ProbeClose("]", r5, "<[", "<", 0);
  }

  lemma GenericContainingArrayTypeProbe1_3()
    ensures Probe("," + ("Baz" + (">" + "")), "<", 0) == Probe(("Baz" + (">" + "")), "<", 0)
  {
    var r8 := "";
    var r7 := ">" + r8;
    var r6 := "Baz" + r7;
    var r5 := "," + r6;
    var r4 := "]" + r5;
    var r3 := "Bar" + r4;
    var r2 := "[" + r3;
    ProbeSkip(",", r6, "<", 0);
  }

  lemma GenericContainingArrayTypeProbe1_4()
    ensures Probe("Baz" + (">" + ""), "<", 0) == Probe((">" + ""), "<", 0)
  {
    var r8 := "";
    var r7 := ">" + r8;
    var r6 := "Baz" + r7;
    var r5 := "," + r6;
    var r4 := "]" + r5;
    var r3 := "Bar" + r4;
    var r2 := "[" + r3;
    ProbeWord("Baz", r7, "<", 0);
  }

  lemma GenericContainingArrayTypeProbe1_5()
    ensures Probe(">" + (""), "<", 0)
  {
    var r8 := "";
    var r7 := ">" + r8;
    var r6 := "Baz" + r7;
    var r5 := "," + r6;
    var r4 := "]" + r5;
    var r3 := "Bar" + r4;
    var r2 := "[" + r3;
    ProbeChevronEnds(r8, "<", 0);
  }

  lemma GenericContainingArrayTypeProbe1()
    ensures Probe("[" + ("Bar" + ("]" + ("," + ("Baz" + (">" + ""))))), "<", 0)
  {
    var r8 := "";
    var r7 := ">" + r8;
    var r6 := "Baz" + r7;
    var r5 := "," + r6;
    var r4 := "]" + r5;
    var r3 := "Bar" + r4;
    var r2 := "[" + r3;
    GenericContainingArrayTypeProbe1_0();
    GenericContainingArrayTypeProbe1_1();
    GenericContainingArrayTypeProbe1_2();
    GenericContainingArrayTypeProbe1_3();
    GenericContainingArrayTypeProbe1_4();
    GenericContainingArrayTypeProbe1_5();
  }

  lemma GenericContainingArrayTypeStep2()
    ensures Lex("[" + ("Bar" + ("]" + ("," + ("Baz" + (">" + ""))))), Lexer([Generic], Some(StartOfScope), false, false)) ==
            [Token(StartOfScope, "[")] + Lex("Bar" + ("]" + ("," + ("Baz" + (">" + "")))), Lexer([Generic, Bracket], Some(StartOfScope), false, false))
  {
    var r8 := "";
    var r7 := ">" + r8;
    var r6 := "Baz" + r7;
    var r5 := "," + r6;
    var r4 := "]" + r5;
    var r3 := "Bar" + r4;
    var r2 := "[" + r3;
    CodeBracketOpen("[", r3, Lexer([Generic], Some(StartOfScope), false, false));
    LexOne("[", r3, Lexer([Generic], Some(StartOfScope), false, false), Token(StartOfScope, "["), Lexer([Generic, Bracket], Some(StartOfScope), false, false));
  }

  lemma GenericContainingArrayTypeStep3()
    ensures Lex("Bar" + ("]" + ("," + ("Baz" + (">" + "")))), Lexer([Generic, Bracket], Some(StartOfScope), false, false)) ==
            [Token(Identifier, "Bar")] + Lex("]" + ("," + ("Baz" + (">" + ""))), Lexer([Generic, Bracket], Some(Identifier), false, false))
  {
    var r8 := "";
    var r7 := ">" + r8;
    var r6 := "Baz" + r7;
    var r5 := "," + r6;
    var r4 := "]" + r5;
    var r3 := "Bar" + r4;
    CodeIdentifier("Bar", r4, Lexer([Generic, Bracket], Some(StartOfScope), false, false));
    LexOne("Bar", r4, Lexer([Generic, Bracket], Some(StartOfScope), false, false), Token(Identifier, "Bar"), Lexer([Generic, Bracket], Some(Identifier), false, false));
  }

  lemma GenericContainingArrayTypeStep4()
    ensures Lex("]" + ("," + ("Baz" + (">" + ""))), Lexer([Generic, Bracket], Some(Identifier), false, false)) ==
            [Token(EndOfScope, "]")] + Lex("," + ("Baz" + (">" + "")), Lexer([Generic], Some(EndOfScope), false, false))
  {
    var r8 := "";
    var r7 := ">" + r8;
    var r6 := "Baz" + r7;
    var r5 := "," + r6;
    var r4 := "]" + r5;
    CodeClose("]", r5, Lexer([Generic, Bracket], Some(Identifier), false, false));
    LexOne("]", r5, Lexer([Generic, Bracket], Some(Identifier), false, false), Token(EndOfScope, "]"), Lexer([Generic], Some(EndOfScope), false, false));
  }

  lemma GenericContainingArrayTypeStep5()
    ensures Lex("," + ("Baz" + (">" + "")), Lexer([Generic], Some(EndOfScope), false, false)) ==
            [Token(Operator, ",")] + Lex("Baz" + (">" + ""), Lexer([Generic], Some(Operator), false, false))
  {
    var r8 := "";
    var r7 := ">" + r8;
    var r6 := "Baz" + r7;
    var r5 := "," + r6;
    CodePunctuation(",", r6, Lexer([Generic], Some(EndOfScope), false, false));
    LexOne(",", r6, Lexer([Generic], Some(EndOfScope), false, false), Token(Operator, ","), Lexer([Generic], Some(Operator), false, false));
  }

  lemma GenericContainingArrayTypeStep6()
    ensures Lex("Baz" + (">" + ""), Lexer([Generic], Some(Operator), false, false)) ==
            [Token(Identifier, "Baz")] + Lex(">" + "", Lexer([Generic], Some(Identifier), false, false))
  {
    var r8 := "";
    var r7 := ">" + r8;
    var r6 := "Baz" + r7;
    CodeIdentifier("Baz", r7, Lexer([Generic], Some(Operator), false, false));
    LexOne("Baz", r7, Lexer([Generic], Some(Operator), false, false), Token(Identifier, "Baz"), Lexer([Generic], Some(Identifier), false, false));
  }

  lemma GenericContainingArrayTypeStep7()
    ensures Lex(">" + "", Lexer([Generic], Some(Identifier), false, false)) ==
            [Token(EndOfScope, ">")] + Lex("", Lexer([], Some(EndOfScope), false, false))
  {
    var r8 := "";
    var r7 := ">" + r8;
    CodeGenericClose(r8, Lexer([Generic], Some(Identifier), false, false));
    LexOne(">", r8, Lexer([Generic], Some(Identifier), false, false), Token(EndOfScope, ">"), Lexer([], Some(EndOfScope), false, false));
  }

  // SwiftFormatTests/TokenizerTests.swift:772-785
  lemma GenericContainingTupleType()
    ensures Tokenize("Foo" + ("<" + ("(" + ("Bar" + ("," + ("Baz" + (")" + (">" + "")))))))) ==
            [Token(Identifier, "Foo")] + ([Token(StartOfScope, "<")] + ([Token(StartOfScope, "(")] + ([Token(Identifier, "Bar")] + ([Token(Operator, ",")] + ([Token(Identifier, "Baz")] + ([Token(EndOfScope, ")")] + ([Token(EndOfScope, ">")] + [])))))))
  {
    GenericContainingTupleTypeStep0();
    GenericContainingTupleTypeStep1();
    GenericContainingTupleTypeStep2();
    GenericContainingTupleTypeStep3();
    GenericContainingTupleTypeStep4();
    GenericContainingTupleTypeStep5();
    GenericContainingTupleTypeStep6();
    GenericContainingTupleTypeStep7();
  }

  lemma GenericContainingTupleTypeStep0()
    ensures Lex("Foo" + ("<" + ("(" + ("Bar" + ("," + ("Baz" + (")" + (">" + ""))))))), Lexer([], None, false, false)) ==
            [Token(Identifier, "Foo")] + Lex("<" + ("(" + ("Bar" + ("," + ("Baz" + (")" + (">" + "")))))), Lexer([], Some(Identifier), false, false))
  {
    var r8 := "";
    var r7 := ">" + r8;
    var r6 := ")" + r7;
    var r5 := "Baz" + r6;
    var r4 := "," + r5;
    var r3 := "Bar" + r4;
    var r2 := "(" + r3;
    var r1 := "<" + r2;
    var r0 := "Foo" + r1;
    CodeIdentifier("Foo", r1, Lexer([], None, false, false));
    LexOne("Foo", r1, Lexer([], None, false, false), Token(Identifier, "Foo"), Lexer([], Some(Identifier), false, false));
  }

  lemma GenericContainingTupleTypeStep1()
    ensures Lex("<" + ("(" + ("Bar" + ("," + ("Baz" + (")" + (">" + "")))))), Lexer([], Some(Identifier), false, false)) ==
            [Token(StartOfScope, "<")] + Lex("(" + ("Bar" + ("," + ("Baz" + (")" + (">" + ""))))), Lexer([Generic], Some(StartOfScope), false, false))
  {
    var r8 := "";
    var r7 := ">" + r8;
    var r6 := ")" + r7;
    var r5 := "Baz" + r6;
    var r4 := "," + r5;
    var r3 := "Bar" + r4;
    var r2 := "(" + r3;
    var r1 := "<" + r2;
    GenericContainingTupleTypeProbe1();
    CodeGenericOpen(r2, Lexer([], Some(Identifier), false, false));
    LexOne("<", r2, Lexer([], Some(Identifier), false, false), Token(StartOfScope, "<"), Lexer([Generic], Some(StartOfScope), false, false));
  }

  lemma GenericContainingTupleTypeProbe1_0()
    ensures Probe("(" + ("Bar" + ("," + ("Baz" + (")" + (">" + ""))))), "<", 0) == Probe(("Bar" + ("," + ("Baz" + (")" + (">" + ""))))), "<(", 0)
  {
    var r8 := "";
    var r7 := ">" + r8;
    var r6 := ")" + r7;
    var r5 := "Baz" + r6;
    var r4 := "," + r5;
    var r3 := "Bar" + r4;
    var r2 := "(" + r3;
    ProbeOpen("(", r3, "<", "<(", 0);
  }

  lemma GenericContainingTupleTypeProbe1_1()
    ensures Probe("Bar" + ("," + ("Baz" + (")" + (">" + "")))), "<(", 0) == Probe(("," + ("Baz" + (")" + (">" + "")))), "<(", 0)
  {
    var r8 := "";
    var r7 := ">" + r8;
    var r6 := ")" + r7;
    var r5 := "Baz" + r6;
    var r4 := "," + r5;
    var r3 := "Bar" + r4;
    var r2 := "(" + r3;
    ProbeWord("Bar", r4, "<(", 0);
  }

  lemma GenericContainingTupleTypeProbe1_2()
    ensures Probe("," + ("Baz" + (")" + (">" + ""))), "<(", 0) == Probe(("Baz" + (")" + (">" + ""))), "<(", 0)
  {
    var r8 := "";
    var r7 := ">" + r8;
    var r6 := ")" + r7;
    var r5 := "Baz" + r6;
    var r4 := "," + r5;
    var r3 := "Bar" + r4;
    var r2 := "(" + r3;
    ProbeSkip(",", r5, "<(", 0);
  }

  lemma GenericContainingTupleTypeProbe1_3()
    ensures Probe("Baz" + (")" + (">" + "")), "<(", 0) == Probe((")" + (">" + "")), "<(", 0)
  {
    var r8 := "";
    var r7 := ">" + r8;
    var r6 := ")" + r7;
    var r5 := "Baz" + r6;
    var r4 := "," + r5;
    var r3 := "Bar" + r4;
    var r2 := "(" + r3;
    ProbeWord("Baz", r6, "<(", 0);
  }

  lemma GenericContainingTupleTypeProbe1_4()
    ensures Probe(")" + (">" + ""), "<(", 0) == Probe((">" + ""), "<", 0)
  {
    var r8 := "";
    var r7 := ">" + r8;
    var r6 := ")" + r7;
    var r5 := "Baz" + r6;
    var r4 := "," + r5;
    var r3 := "Bar" + r4;
    var r2 := "(" + r3;
    ProbeClose(")", r7, "<(", "<", 0);
  }

  lemma GenericContainingTupleTypeProbe1_5()
    ensures Probe(">" + (""), "<", 0)
  {
    var r8 := "";
    var r7 := ">" + r8;
    var r6 := ")" + r7;
    var r5 := "Baz" + r6;
    var r4 := "," + r5;
    var r3 := "Bar" + r4;
    var r2 := "(" + r3;
    ProbeChevronEnds(r8, "<", 0);
  }

  lemma GenericContainingTupleTypeProbe1()
    ensures Probe("(" + ("Bar" + ("," + ("Baz" + (")" + (">" + ""))))), "<", 0)
  {
    var r8 := "";
    var r7 := ">" + r8;
    var r6 := ")" + r7;
    var r5 := "Baz" + r6;
    var r4 := "," + r5;
    var r3 := "Bar" + r4;
    var r2 := "(" + r3;
    GenericContainingTupleTypeProbe1_0();
    GenericContainingTupleTypeProbe1_1();
    GenericContainingTupleTypeProbe1_2();
    GenericContainingTupleTypeProbe1_3();
    GenericContainingTupleTypeProbe1_4();
    GenericContainingTupleTypeProbe1_5();
  }

  lemma GenericContainingTupleTypeStep2()
    ensures Lex("(" + ("Bar" + ("," + ("Baz" + (")" + (">" + ""))))), Lexer([Generic], Some(StartOfScope), false, false)) ==
            [Token(StartOfScope, "(")] + Lex("Bar" + ("," + ("Baz" + (")" + (">" + "")))), Lexer([Generic, Paren], Some(StartOfScope), false, false))
  {
    var r8 := "";
    var r7 := ">" + r8;
    var r6 := ")" + r7;
    var r5 := "Baz" + r6;
    var r4 := "," + r5;
    var r3 := "Bar" + r4;
    var r2 := "(" + r3;
    CodeBracketOpen("(", r3, Lexer([Generic], Some(StartOfScope), false, false));
    LexOne("(", r3, Lexer([Generic], Some(StartOfScope), false, false), Token(StartOfScope, "("), Lexer([Generic, Paren], Some(StartOfScope), false, false));
  }

  lemma GenericContainingTupleTypeStep3()
    ensures Lex("Bar" + ("," + ("Baz" + (")" + (">" + "")))), Lexer([Generic, Paren], Some(StartOfScope), false, false)) ==
            [Token(Identifier, "Bar")] + Lex("," + ("Baz" + (")" + (">" + ""))), Lexer([Generic, Paren], Some(Identifier), false, false))
  {
    var r8 := "";
    var r7 := ">" + r8;
    var r6 := ")" + r7;
    var r5 := "Baz" + r6;
    var r4 := "," + r5;
    var r3 := "Bar" + r4;
    CodeIdentifier("Bar", r4, Lexer([Generic, Paren], Some(StartOfScope), false, false));
    LexOne("Bar", r4, Lexer([Generic, Paren], Some(StartOfScope), false, false), Token(Identifier, "Bar"), Lexer([Generic, Paren], Some(Identifier), false, false));
  }

  lemma GenericContainingTupleTypeStep4()
    ensures Lex("," + ("Baz" + (")" + (">" + ""))), Lexer([Generic, Paren], Some(Identifier), false, false)) ==
            [Token(Operator, ",")] + Lex("Baz" + (")" + (">" + "")), Lexer([Generic, Paren], Some(Operator), false, false))
  {
    var r8 := "";
    var r7 := ">" + r8;
    var r6 := ")" + r7;
    var r5 := "Baz" + r6;
    var r4 := "," + r5;
    CodePunctuation(",", r5, Lexer([Generic, Paren], Some(Identifier), false, false));
    LexOne(",", r5, Lexer([Generic, Paren], Some(Identifier), false, false), Token(Operator, ","), Lexer([Generic, Paren], Some(Operator), false, false));
  }

  lemma GenericContainingTupleTypeStep5()
    ensures Lex("Baz" + (")" + (">" + "")), Lexer([Generic, Paren], Some(Operator), false, false)) ==
            [Token(Identifier, "Baz")] + Lex(")" + (">" + ""), Lexer([Generic, Paren], Some(Identifier), false, false))
  {
    var r8 := "";
    var r7 := ">" + r8;
    var r6 := ")" + r7;
    var r5 := "Baz" + r6;
    CodeIdentifier("Baz", r6, Lexer([Generic, Paren], Some(Operator), false, false));
    LexOne("Baz", r6, Lexer([Generic, Paren], Some(Operator), false, false), Token(Identifier, "Baz"), Lexer([Generic, Paren], Some(Identifier), false, false));
  }

  lemma GenericContainingTupleTypeStep6()
    ensures Lex(")" + (">" + ""), Lexer([Generic, Paren], Some(Identifier), false, false)) ==
            [Token(EndOfScope, ")")] + Lex(">" + "", Lexer([Generic], Some(EndOfScope), false, false))
  {
    var r8 := "";
    var r7 := ">" + r8;
    var r6 := ")" + r7;
    CodeClose(")", r7, Lexer([Generic, Paren], Some(Identifier), false, false));
    LexOne(")", r7, Lexer([Generic, Paren], Some(Identifier), false, false), Token(EndOfScope, ")"), Lexer([Generic], Some(EndOfScope), false, false));
  }

  lemma GenericContainingTupleTypeStep7()
    ensures Lex(">" + "", Lexer([Generic], Some(EndOfScope), false, false)) ==
            [Token(EndOfScope, ">")] + Lex("", Lexer([], Some(EndOfScope), false, false))
  {
    var r8 := "";
    var r7 := ">" + r8;
    CodeGenericClose(r8, Lexer([Generic], Some(EndOfScope), false, false));
    LexOne(">", r8, Lexer([Generic], Some(EndOfScope), false, false), Token(EndOfScope, ">"), Lexer([], Some(EndOfScope), false, false));
  }

  // SwiftFormatTests/TokenizerTests.swift:787-802
  lemma GenericContainingArrayAndTupleType()
    ensures Tokenize("Foo" + ("<" + ("[" + ("Bar" + ("]" + ("," + ("(" + ("Baz" + (")" + (">" + "")))))))))) ==
            [Token(Identifier, "Foo")] + ([Token(StartOfScope, "<")] + ([Token(StartOfScope, "[")] + ([Token(Identifier, "Bar")] + ([Token(EndOfScope, "]")] + ([Token(Operator, ",")] + ([Token(StartOfScope, "(")] + ([Token(Identifier, "Baz")] + ([Token(EndOfScope, ")")] + ([Token(EndOfScope, ">")] + [])))))))))
  {
    GenericContainingArrayAndTupleTypeStep0();
    GenericContainingArrayAndTupleTypeStep1();
    GenericContainingArrayAndTupleTypeStep2();
    GenericContainingArrayAndTupleTypeStep3();
    GenericContainingArrayAndTupleTypeStep4();
    GenericContainingArrayAndTupleTypeStep5();
    GenericContainingArrayAndTupleTypeStep6();
    GenericContainingArrayAndTupleTypeStep7();
    GenericContainingArrayAndTupleTypeFrom8();
  }

  lemma GenericContainingArrayAndTupleTypeFrom8()
    ensures Lex(")" + (">" + ""), Lexer([Generic, Paren], Some(Identifier), false, false)) ==
            [Token(EndOfScope, ")")] + ([Token(EndOfScope, ">")] + Lex("", Lexer([], Some(EndOfScope), false, false)))
  {
    GenericContainingArrayAndTupleTypeStep8();
    GenericContainingArrayAndTupleTypeStep9();
  }

  lemma GenericContainingArrayAndTupleTypeStep0()
    ensures Lex("Foo" + ("<" + ("[" + ("Bar" + ("]" + ("," + ("(" + ("Baz" + (")" + (">" + ""))))))))), Lexer([], None, false, false)) ==
            [Token(Identifier, "Foo")] + Lex("<" + ("[" + ("Bar" + ("]" + ("," + ("(" + ("Baz" + (")" + (">" + "")))))))), Lexer([], Some(Identifier), false, false))
  {
    var r10 := "";
    var r9 := ">" + r10;
    var r8 := ")" + r9;
    var r7 := "Baz" + r8;
    var r6 := "(" + r7;
    var r5 := "," + r6;
    var r4 := "]" + r5;
    var r3 := "Bar" + r4;
    var r2 := "[" + r3;
    var r1 := "<" + r2;
    var r0 := "Foo" + r1;
    CodeIdentifier("Foo", r1, Lexer([], None, false, false));
    LexOne("Foo", r1, Lexer([], None, false, false), Token(Identifier, "Foo"), Lexer([], Some(Identifier), false, false));
  }

  lemma GenericContainingArrayAndTupleTypeStep1()
    ensures Lex("<" + ("[" + ("Bar" + ("]" + ("," + ("(" + ("Baz" + (")" + (">" + "")))))))), Lexer([], Some(Identifier), false, false)) ==
            [Token(StartOfScope, "<")] + Lex("[" + ("Bar" + ("]" + ("," + ("(" + ("Baz" + (")" + (">" + ""))))))), Lexer([Generic], Some(StartOfScope), false, false))
  {
    var r10 := "";
    var r9 := ">" + r10;
    var r8 := ")" + r9;
    var r7 := "Baz" + r8;
    var r6 := "(" + r7;
    var r5 := "," + r6;
    var r4 := "]" + r5;
    var r3 := "Bar" + r4;
    var r2 := "[" + r3;
    var r1 := "<" + r2;
    GenericContainingArrayAndTupleTypeProbe1();
    CodeGenericOpen(r2, Lexer([], Some(Identifier), false, false));
    LexOne("<", r2, Lexer([], Some(Identifier), false, false), Token(StartOfScope, "<"), Lexer([Generic], Some(StartOfScope), false, false));
  }

  lemma GenericContainingArrayAndTupleTypeProbe1_0()
    ensures Probe("[" + ("Bar" + ("]" + ("," + ("(" + ("Baz" + (")" + (">" + ""))))))), "<", 0) == Probe(("Bar" + ("]" + ("," + ("(" + ("Baz" + (")" + (">" + ""))))))), "<[", 0)
  {
    var r10 := "";
    var r9 := ">" + r10;
    var r8 := ")" + r9;
    var r7 := "Baz" + r8;
    var r6 := "(" + r7;
    var r5 := "," + r6;
    var r4 := "]" + r5;
    var r3 := "Bar" + r4;
    var r2 := "[" + r3;
    ProbeOpen("[", r3, "<", "<[", 0);
  }

  lemma GenericContainingArrayAndTupleTypeProbe1_1()
    ensures Probe("Bar" + ("]" + ("," + ("(" + ("Baz" + (")" + (">" + "")))))), "<[", 0) == Probe(("]" + ("," + ("(" + ("Baz" + (")" + (">" + "")))))), "<[", 0)
  {
    var r10 := "";
    var r9 := ">" + r10;
    var r8 := ")" + r9;
    var r7 := "Baz" + r8;
    var r6 := "(" + r7;
    var r5 := "," + r6;
    var r4 := "]" + r5;
    var r3 := "Bar" + r4;
    var r2 := "[" + r3;
    ProbeWord("Bar", r4, "<[", 0);
  }

  lemma GenericContainingArrayAndTupleTypeProbe1_2()
    ensures Probe("]" + ("," + ("(" + ("Baz" + (")" + (">" + ""))))), "<[", 0) == Probe(("," + ("(" + ("Baz" + (")" + (">" + ""))))), "<", 0)
  {
    var r10 := "";
    var r9 := ">" + r10;
    var r8 := ")" + r9;
    var r7 := "Baz" + r8;
    var r6 := "(" + r7;
    var r5 := "," + r6;
    var r4 := "]" + r5;
    var r3 := "Bar" + r4;
    var r2 := "[" + r3;
    ProbeClose("]", r5, "<[", "<", 0);
  }

  lemma GenericContainingArrayAndTupleTypeProbe1_3()
    ensures Probe("," + ("(" + ("Baz" + (")" + (">" + "")))), "<", 0) == Probe(("(" + ("Baz" + (")" + (">" + "")))), "<", 0)
  {
    var r10 := "";
    var r9 := ">" + r10;
    var r8 := ")" + r9;
    var r7 := "Baz" + r8;
    var r6 := "(" + r7;
    var r5 := "," + r6;
    var r4 := "]" + r5;
    var r3 := "Bar" + r4;
    var r2 := "[" + r3;
    ProbeSkip(",", r6, "<", 0);
  }

  lemma GenericContainingArrayAndTupleTypeProbe1_4()
    ensures Probe("(" + ("Baz" + (")" + (">" + ""))), "<", 0) == Probe(("Baz" + (")" + (">" + ""))), "<(", 0)
  {
    var r10 := "";
    var r9 := ">" + r10;
    var r8 := ")" + r9;
    var r7 := "Baz" + r8;
    var r6 := "(" + r7;
    var r5 := "," + r6;
    var r4 := "]" + r5;
    var r3 := "Bar" + r4;
    var r2 := "[" + r3;
    ProbeOpen("(", r7, "<", "<(", 0);
  }

  lemma GenericContainingArrayAndTupleTypeProbe1_5()
    ensures Probe("Baz" + (")" + (">" + "")), "<(", 0) == Probe((")" + (">" + "")), "<(", 0)
  {
    var r10 := "";
    var r9 := ">" + r10;
    var r8 := ")" + r9;
    var r7 := "Baz" + r8;
    var r6 := "(" + r7;
    var r5 := "," + r6;
    var r4 := "]" + r5;
    var r3 := "Bar" + r4;
    var r2 := "[" + r3;
    ProbeWord("Baz", r8, "<(", 0);
  }

  lemma GenericContainingArrayAndTupleTypeProbe1_6()
    ensures Probe(")" + (">" + ""), "<(", 0) == Probe((">" + ""), "<", 0)
  {
    var r10 := "";
    var r9 := ">" + r10;
    var r8 := ")" + r9;
    var r7 := "Baz" + r8;
    var r6 := "(" + r7;
    var r5 := "," + r6;
    var r4 := "]" + r5;
    var r3 := "Bar" + r4;
    var r2 := "[" + r3;
    ProbeClose(")", r9, "<(", "<", 0);
  }

  lemma GenericContainingArrayAndTupleTypeProbe1_7()
    ensures Probe(">" + (""), "<", 0)
  {
    var r10 := "";
    var r9 := ">" + r10;
    var r8 := ")" + r9;
    var r7 := "Baz" + r8;
    var r6 := "(" + r7;
    var r5 := "," + r6;
    var r4 := "]" + r5;
    var r3 := "Bar" + r4;
    var r2 := "[" + r3;
    ProbeChevronEnds(r10, "<", 0);
  }

  lemma GenericContainingArrayAndTupleTypeProbe1()
    ensures Probe("[" + ("Bar" + ("]" + ("," + ("(" + ("Baz" + (")" + (">" + ""))))))), "<", 0)
  {
    var r10 := "";
    var r9 := ">" + r10;
    var r8 := ")" + r9;
    var r7 := "Baz" + r8;
    var r6 := "(" + r7;
    var r5 := "," + r6;
    var r4 := "]" + r5;
    var r3 := "Bar" + r4;
    var r2 := "[" + r3;
    GenericContainingArrayAndTupleTypeProbe1_0();
    GenericContainingArrayAndTupleTypeProbe1_1();
    GenericContainingArrayAndTupleTypeProbe1_2();
    GenericContainingArrayAndTupleTypeProbe1_3();
    GenericContainingArrayAndTupleTypeProbe1_4();
    GenericContainingArrayAndTupleTypeProbe1_5();
    GenericContainingArrayAndTupleTypeProbe1_6();
    GenericContainingArrayAndTupleTypeProbe1_7();
  }

  lemma GenericContainingArrayAndTupleTypeStep2()
    ensures Lex("[" + ("Bar" + ("]" + ("," + ("(" + ("Baz" + (")" + (">" + ""))))))), Lexer([Generic], Some(StartOfScope), false, false)) ==
            [Token(StartOfScope, "[")] + Lex("Bar" + ("]" + ("," + ("(" + ("Baz" + (")" + (">" + "")))))), Lexer([Generic, Bracket], Some(StartOfScope), false, false))
  {
    var r10 := "";
    var r9 := ">" + r10;
    var r8 := ")" + r9;
    var r7 := "Baz" + r8;
    var r6 := "(" + r7;
    var r5 := "," + r6;
    var r4 := "]" + r5;
    var r3 := "Bar" + r4;
    var r2 := "[" + r3;
    CodeBracketOpen("[", r3, Lexer([Generic], Some(StartOfScope), false, false));
    LexOne("[", r3, Lexer([Generic], Some(StartOfScope), false, false), Token(StartOfScope, "["), Lexer([Generic, Bracket], Some(StartOfScope), false, false));
  }

  lemma GenericContainingArrayAndTupleTypeStep3()
    ensures Lex("Bar" + ("]" + ("," + ("(" + ("Baz" + (")" + (">" + "")))))), Lexer([Generic, Bracket], Some(StartOfScope), false, false)) ==
            [Token(Identifier, "Bar")] + Lex("]" + ("," + ("(" + ("Baz" + (")" + (">" + ""))))), Lexer([Generic, Bracket], Some(Identifier), false, false))
  {
    var r10 := "";
    var r9 := ">" + r10;
    var r8 := ")" + r9;
    var r7 := "Baz" + r8;
    var r6 := "(" + r7;
    var r5 := "," + r6;
    var r4 := "]" + r5;
    var r3 := "Bar" + r4;
    CodeIdentifier("Bar", r4, Lexer([Generic, Bracket], Some(StartOfScope), false, false));
    LexOne("Bar", r4, Lexer([Generic, Bracket], Some(StartOfScope), false, false), Token(Identifier, "Bar"), Lexer([Generic, Bracket], Some(Identifier), false, false));
  }

  lemma GenericContainingArrayAndTupleTypeStep4()
    ensures Lex("]" + ("," + ("(" + ("Baz" + (")" + (">" + ""))))), Lexer([Generic, Bracket], Some(Identifier), false, false)) ==
            [Token(EndOfScope, "]")] + Lex("," + ("(" + ("Baz" + (")" + (">" + "")))), Lexer([Generic], Some(EndOfScope), false, false))
  {
    var r10 := "";
    var r9 := ">" + r10;
    var r8 := ")" + r9;
    var r7 := "Baz" + r8;
    var r6 := "(" + r7;
    var r5 := "," + r6;
    var r4 := "]" + r5;
    CodeClose("]", r5, Lexer([Generic, Bracket], Some(Identifier), false, false));
    LexOne("]", r5, Lexer([Generic, Bracket], Some(Identifier), false, false), Token(EndOfScope, "]"), Lexer([Generic], Some(EndOfScope), false, false));
  }

  lemma GenericContainingArrayAndTupleTypeStep5()
    ensures Lex("," + ("(" + ("Baz" + (")" + (">" + "")))), Lexer([Generic], Some(EndOfScope), false, false)) ==
            [Token(Operator, ",")] + Lex("(" + ("Baz" + (")" + (">" + ""))), Lexer([Generic], Some(Operator), false, false))
  {
    var r10 := "";
    var r9 := ">" + r10;
    var r8 := ")" + r9;
    var r7 := "Baz" + r8;
    var r6 := "(" + r7;
    var r5 := "," + r6;
    CodePunctuation(",", r6, Lexer([Generic], Some(EndOfScope), false, false));
    LexOne(",", r6, Lexer([Generic], Some(EndOfScope), false, false), Token(Operator, ","), Lexer([Generic], Some(Operator), false, false));
  }

  lemma GenericContainingArrayAndTupleTypeStep6()
    ensures Lex("(" + ("Baz" + (")" + (">" + ""))), Lexer([Generic], Some(Operator), false, false)) ==
            [Token(StartOfScope, "(")] + Lex("Baz" + (")" + (">" + "")), Lexer([Generic, Paren], Some(StartOfScope), false, false))
  {
    var r10 := "";
    var r9 := ">" + r10;
    var r8 := ")" + r9;
    var r7 := "Baz" + r8;
    var r6 := "(" + r7;
    CodeBracketOpen("(", r7, Lexer([Generic], Some(Operator), false, false));
    LexOne("(", r7, Lexer([Generic], Some(Operator), false, false), Token(StartOfScope, "("), Lexer([Generic, Paren], Some(StartOfScope), false, false));
  }

  lemma GenericContainingArrayAndTupleTypeStep7()
    ensures Lex("Baz" + (")" + (">" + "")), Lexer([Generic, Paren], Some(StartOfScope), false, false)) ==
            [Token(Identifier, "Baz")] + Lex(")" + (">" + ""), Lexer([Generic, Paren], Some(Identifier), false, false))
  {
    var r10 := "";
    var r9 := ">" + r10;
    var r8 := ")" + r9;
    var r7 := "Baz" + r8;
    CodeIdentifier("Baz", r8, Lexer([Generic, Paren], Some(StartOfScope), false, false));
    LexOne("Baz", r8, Lexer([Generic, Paren], Some(StartOfScope), false, false), Token(Identifier, "Baz"), Lexer([Generic, Paren], Some(Identifier), false, false));
  }

  lemma GenericContainingArrayAndTupleTypeStep8()
    ensures Lex(")" + (">" + ""), Lexer([Generic, Paren], Some(Identifier), false, false)) ==
            [Token(EndOfScope, ")")] + Lex(">" + "", Lexer([Generic], Some(EndOfScope), false, false))
  {
    var r10 := "";
    var r9 := ">" + r10;
    var r8 := ")" + r9;
    CodeClose(")", r9, Lexer([Generic, Paren], Some(Identifier), false, false));
    LexOne(")", r9, Lexer([Generic, Paren], Some(Identifier), false, false), Token(EndOfScope, ")"), Lexer([Generic], Some(EndOfScope), false, false));
  }

  lemma GenericContainingArrayAndTupleTypeStep9()
    ensures Lex(">" + "", Lexer([Generic], Some(EndOfScope), false, false)) ==
            [Token(EndOfScope, ">")] + Lex("", Lexer([], Some(EndOfScope), false, false))
  {
    var r10 := "";
    var r9 := ">" + r10;
    CodeGenericClose(r10, Lexer([Generic], Some(EndOfScope), false, false));
    LexOne(">", r10, Lexer([Generic], Some(EndOfScope), false, false), Token(EndOfScope, ">"), Lexer([], Some(EndOfScope), false, false));
  }

  // SwiftFormatTests/TokenizerTests.swift:804-817
  lemma GenericFollowedByIn()
    ensures Tokenize("Foo" + ("<" + ("Bar" + ("," + ("Baz" + (">" + (" " + ("in" + "")))))))) ==
            [Token(Identifier, "Foo")] + ([Token(StartOfScope, "<")] + ([Token(Identifier, "Bar")] + ([Token(Operator, ",")] + ([Token(Identifier, "Baz")] + ([Token(EndOfScope, ">")] + ([Token(Whitespace, " ")] + ([Token(Identifier, "in")] + [])))))))
  {
    GenericFollowedByInStep0();
    GenericFollowedByInStep1();
    GenericFollowedByInStep2();
    GenericFollowedByInStep3();
    GenericFollowedByInStep4();
    GenericFollowedByInStep5();
    GenericFollowedByInStep6();
    GenericFollowedByInStep7();
  }

  lemma GenericFollowedByInStep0()
    ensures Lex("Foo" + ("<" + ("Bar" + ("," + ("Baz" + (">" + (" " + ("in" + ""))))))), Lexer([], None, false, false)) ==
            [Token(Identifier, "Foo")] + Lex("<" + ("Bar" + ("," + ("Baz" + (">" + (" " + ("in" + "")))))), Lexer([], Some(Identifier), false, false))
  {
    var r8 := "";
    var r7 := "in" + r8;
    var r6 := " " + r7;
    var r5 := ">" + r6;
    var r4 := "Baz" + r5;
    var r3 := "," + r4;
    var r2 := "Bar" + r3;
    var r1 := "<" + r2;
    var r0 := "Foo" + r1;
    CodeIdentifier("Foo", r1, Lexer([], None, false, false));
    LexOne("Foo", r1, Lexer([], None, false, false), Token(Identifier, "Foo"), Lexer([], Some(Identifier), false, false));
  }

  lemma GenericFollowedByInStep1()
    ensures Lex("<" + ("Bar" + ("," + ("Baz" + (">" + (" " + ("in" + "")))))), Lexer([], Some(Identifier), false, false)) ==
            [Token(StartOfScope, "<")] + Lex("Bar" + ("," + ("Baz" + (">" + (" " + ("in" + ""))))), Lexer([Generic], Some(StartOfScope), false, false))
  {
    var r8 := "";
    var r7 := "in" + r8;
    var r6 := " " + r7;
    var r5 := ">" + r6;
    var r4 := "Baz" + r5;
    var r3 := "," + r4;
    var r2 := "Bar" + r3;
    var r1 := "<" + r2;
    GenericFollowedByInProbe1();
    CodeGenericOpen(r2, Lexer([], Some(Identifier), false, false));
    LexOne("<", r2, Lexer([], Some(Identifier), false, false), Token(StartOfScope, "<"), Lexer([Generic], Some(StartOfScope), false, false));
  }

  lemma GenericFollowedByInProbe1_0()
    ensures Probe("Bar" + ("," + ("Baz" + (">" + (" " + ("in" + ""))))), "<", 0) == Probe(("," + ("Baz" + (">" + (" " + ("in" + ""))))), "<", 0)
  {
    var r8 := "";
    var r7 := "in" + r8;
    var r6 := " " + r7;
    var r5 := ">" + r6;
    var r4 := "Baz" + r5;
    var r3 := "," + r4;
    var r2 := "Bar" + r3;
    ProbeWord("Bar", r3, "<", 0);
  }

  lemma GenericFollowedByInProbe1_1()
    ensures Probe("," + ("Baz" + (">" + (" " + ("in" + "")))), "<", 0) == Probe(("Baz" + (">" + (" " + ("in" + "")))), "<", 0)
  {
    var r8 := "";
    var r7 := "in" + r8;
    var r6 := " " + r7;
    var r5 := ">" + r6;
    var r4 := "Baz" + r5;
    var r3 := "," + r4;
    var r2 := "Bar" + r3;
    ProbeSkip(",", r4, "<", 0);
  }

  lemma GenericFollowedByInProbe1_2()
    ensures Probe("Baz" + (">" + (" " + ("in" + ""))), "<", 0) == Probe((">" + (" " + ("in" + ""))), "<", 0)
  {
    var r8 := "";
    var r7 := "in" + r8;
    var r6 := " " + r7;
    var r5 := ">" + r6;
    var r4 := "Baz" + r5;
    var r3 := "," + r4;
    var r2 := "Bar" + r3;
    ProbeWord("Baz", r5, "<", 0);
  }

  lemma GenericFollowedByInProbe1_3()
    ensures Probe(">" + (" " + ("in" + "")), "<", 0)
  {
    var r8 := "";
    var r7 := "in" + r8;
    var r6 := " " + r7;
    var r5 := ">" + r6;
    var r4 := "Baz" + r5;
    var r3 := "," + r4;
    var r2 := "Bar" + r3;
    ProbeChevronEnds(r6, "<", 0);
  }

  lemma GenericFollowedByInProbe1()
    ensures Probe("Bar" + ("," + ("Baz" + (">" + (" " + ("in" + ""))))), "<", 0)
  {
    var r8 := "";
    var r7 := "in" + r8;
    var r6 := " " + r7;
    var r5 := ">" + r6;
    var r4 := "Baz" + r5;
    var r3 := "," + r4;
    var r2 := "Bar" + r3;
    GenericFollowedByInProbe1_0();
    GenericFollowedByInProbe1_1();
    GenericFollowedByInProbe1_2();
    GenericFollowedByInProbe1_3();
  }

  lemma GenericFollowedByInStep2()
    ensures Lex("Bar" + ("," + ("Baz" + (">" + (" " + ("in" + ""))))), Lexer([Generic], Some(StartOfScope), false, false)) ==
            [Token(Identifier, "Bar")] + Lex("," + ("Baz" + (">" + (" " + ("in" + "")))), Lexer([Generic], Some(Identifier), false, false))
  {
    var r8 := "";
    var r7 := "in" + r8;
    var r6 := " " + r7;
    var r5 := ">" + r6;
    var r4 := "Baz" + r5;
    var r3 := "," + r4;
    var r2 := "Bar" + r3;
    CodeIdentifier("Bar", r3, Lexer([Generic], Some(StartOfScope), false, false));
    LexOne("Bar", r3, Lexer([Generic], Some(StartOfScope), false, false), Token(Identifier, "Bar"), Lexer([Generic], Some(Identifier), false, false));
  }

  lemma GenericFollowedByInStep3()
    ensures Lex("," + ("Baz" + (">" + (" " + ("in" + "")))), Lexer([Generic], Some(Identifier), false, false)) ==
            [Token(Operator, ",")] + Lex("Baz" + (">" + (" " + ("in" + ""))), Lexer([Generic], Some(Operator), false, false))
  {
    var r8 := "";
    var r7 := "in" + r8;
    var r6 := " " + r7;
    var r5 := ">" + r6;
    var r4 := "Baz" + r5;
    var r3 := "," + r4;
    CodePunctuation(",", r4, Lexer([Generic], Some(Identifier), false, false));
    LexOne(",", r4, Lexer([Generic], Some(Identifier), false, false), Token(Operator, ","), Lexer([Generic], Some(Operator), false, false));
  }

  lemma GenericFollowedByInStep4()
    ensures Lex("Baz" + (">" + (" " + ("in" + ""))), Lexer([Generic], Some(Operator), false, false)) ==
            [Token(Identifier, "Baz")] + Lex(">" + (" " + ("in" + "")), Lexer([Generic], Some(Identifier), false, false))
  {
    var r8 := "";
    var r7 := "in" + r8;
    var r6 := " " + r7;
    var r5 := ">" + r6;
    var r4 := "Baz" + r5;
    CodeIdentifier("Baz", r5, Lexer([Generic], Some(Operator), false, false));
    LexOne("Baz", r5, Lexer([Generic], Some(Operator), false, false), Token(Identifier, "Baz"), Lexer([Generic], Some(Identifier), false, false));
  }

  lemma GenericFollowedByInStep5()
    ensures Lex(">" + (" " + ("in" + "")), Lexer([Generic], Some(Identifier), false, false)) ==
            [Token(EndOfScope, ">")] + Lex(" " + ("in" + ""), Lexer([], Some(EndOfScope), false, false))
  {
    var r8 := "";
    var r7 := "in" + r8;
    var r6 := " " + r7;
    var r5 := ">" + r6;
    CodeGenericClose(r6, Lexer([Generic], Some(Identifier), false, false));
    LexOne(">", r6, Lexer([Generic], Some(Identifier), false, false), Token(EndOfScope, ">"), Lexer([], Some(EndOfScope), false, false));
  }

  lemma GenericFollowedByInStep6()
    ensures Lex(" " + ("in" + ""), Lexer([], Some(EndOfScope), false, false)) ==
            [Token(Whitespace, " ")] + Lex("in" + "", Lexer([], Some(Whitespace), false, false))
  {
    var r8 := "";
    var r7 := "in" + r8;
    var r6 := " " + r7;
    WhitespaceToken(" ", r7, Lexer([], Some(EndOfScope), false, false));
    LexOne(" ", r7, Lexer([], Some(EndOfScope), false, false), Token(Whitespace, " "), Lexer([], Some(Whitespace), false, false));
  }

  lemma GenericFollowedByInStep7()
    ensures Lex("in" + "", Lexer([], Some(Whitespace), false, false)) ==
            [Token(Identifier, "in")] + Lex("", Lexer([], Some(Identifier), false, false))
  {
    var r8 := "";
    var r7 := "in" + r8;
    CodeIdentifier("in", r8, Lexer([], Some(Whitespace), false, false));
    LexOne("in", r8, Lexer([], Some(Whitespace), false, false), Token(Identifier, "in"), Lexer([], Some(Identifier), false, false));
  }

  // SwiftFormatTests/TokenizerTests.swift:819-831
  lemma OptionalGenericType()
    ensures Tokenize("Foo" + ("<" + ("T" + ("?" + ("," + ("U" + (">" + ""))))))) ==
            [Token(Identifier, "Foo")] + ([Token(StartOfScope, "<")] + ([Token(Identifier, "T")] + ([Token(Operator, "?")] + ([Token(Operator, ",")] + ([Token(Identifier, "U")] + ([Token(EndOfScope, ">")] + []))))))
  {
    OptionalGenericTypeStep0();
    OptionalGenericTypeStep1();
    OptionalGenericTypeStep2();
    OptionalGenericTypeStep3();
    OptionalGenericTypeStep4();
    OptionalGenericTypeStep5();
    OptionalGenericTypeStep6();
  }

  lemma OptionalGenericTypeStep0()
    ensures Lex("Foo" + ("<" + ("T" + ("?" + ("," + ("U" + (">" + "")))))), Lexer([], None, false, false)) ==
            [Token(Identifier, "Foo")] + Lex("<" + ("T" + ("?" + ("," + ("U" + (">" + ""))))), Lexer([], Some(Identifier), false, false))
  {
    var r7 := "";
    var r6 := ">" + r7;
    var r5 := "U" + r6;
    var r4 := "," + r5;
    var r3 := "?" + r4;
    var r2 := "T" + r3;
    var r1 := "<" + r2;
    var r0 := "Foo" + r1;
    CodeIdentifier("Foo", r1, Lexer([], None, false, false));
    LexOne("Foo", r1, Lexer([], None, false, false), Token(Identifier, "Foo"), Lexer([], Some(Identifier), false, false));
  }

  lemma OptionalGenericTypeStep1()
    ensures Lex("<" + ("T" + ("?" + ("," + ("U" + (">" + ""))))), Lexer([], Some(Identifier), false, false)) ==
            [Token(StartOfScope, "<")] + Lex("T" + ("?" + ("," + ("U" + (">" + "")))), Lexer([Generic], Some(StartOfScope), false, false))
  {
    var r7 := "";
    var r6 := ">" + r7;
    var r5 := "U" + r6;
    var r4 := "," + r5;
    var r3 := "?" + r4;
    var r2 := "T" + r3;
    var r1 := "<" + r2;
    OptionalGenericTypeProbe1();
    CodeGenericOpen(r2, Lexer([], Some(Identifier), false, false));
    LexOne("<", r2, Lexer([], Some(Identifier), false, false), Token(StartOfScope, "<"), Lexer([Generic], Some(StartOfScope), false, false));
  }

  lemma OptionalGenericTypeProbe1_0()
    ensures Probe("T" + ("?" + ("," + ("U" + (">" + "")))), "<", 0) == Probe(("?" + ("," + ("U" + (">" + "")))), "<", 0)
  {
    var r7 := "";
    var r6 := ">" + r7;
    var r5 := "U" + r6;
    var r4 := "," + r5;
    var r3 := "?" + r4;
    var r2 := "T" + r3;
    ProbeWord("T", r3, "<", 0);
  }

  lemma OptionalGenericTypeProbe1_1()
    ensures Probe("?" + ("," + ("U" + (">" + ""))), "<", 0) == Probe(("," + ("U" + (">" + ""))), "<", 0)
  {
    var r7 := "";
    var r6 := ">" + r7;
    var r5 := "U" + r6;
    var r4 := "," + r5;
    var r3 := "?" + r4;
    var r2 := "T" + r3;
    ProbeSkip("?", r4, "<", 0);
  }

  lemma OptionalGenericTypeProbe1_2()
    ensures Probe("," + ("U" + (">" + "")), "<", 0) == Probe(("U" + (">" + "")), "<", 0)
  {
    var r7 := "";
    var r6 := ">" + r7;
    var r5 := "U" + r6;
    var r4 := "," + r5;
    var r3 := "?" + r4;
    var r2 := "T" + r3;
    ProbeSkip(",", r5, "<", 0);
  }

  lemma OptionalGenericTypeProbe1_3()
    ensures Probe("U" + (">" + ""), "<", 0) == Probe((">" + ""), "<", 0)
  {
    var r7 := "";
    var r6 := ">" + r7;
    var r5 := "U" + r6;
    var r4 := "," + r5;
    var r3 := "?" + r4;
    var r2 := "T" + r3;
    ProbeWord("U", r6, "<", 0);
  }

  lemma OptionalGenericTypeProbe1_4()
    ensures Probe(">" + (""), "<", 0)
  {
    var r7 := "";
    var r6 := ">" + r7;
    var r5 := "U" + r6;
    var r4 := "," + r5;
    var r3 := "?" + r4;
    var r2 := "T" + r3;
    ProbeChevronEnds(r7, "<", 0);
  }

  lemma OptionalGenericTypeProbe1()
    ensures Probe("T" + ("?" + ("," + ("U" + (">" + "")))), "<", 0)
  {
    var r7 := "";
    var r6 := ">" + r7;
    var r5 := "U" + r6;
    var r4 := "," + r5;
    var r3 := "?" + r4;
    var r2 := "T" + r3;
    OptionalGenericTypeProbe1_0();
    OptionalGenericTypeProbe1_1();
    OptionalGenericTypeProbe1_2();
    OptionalGenericTypeProbe1_3();
    OptionalGenericTypeProbe1_4();
  }

  lemma OptionalGenericTypeStep2()
    ensures Lex("T" + ("?" + ("," + ("U" + (">" + "")))), Lexer([Generic], Some(StartOfScope), false, false)) ==
            [Token(Identifier, "T")] + Lex("?" + ("," + ("U" + (">" + ""))), Lexer([Generic], Some(Identifier), false, false))
  {
    var r7 := "";
    var r6 := ">" + r7;
    var r5 := "U" + r6;
    var r4 := "," + r5;
    var r3 := "?" + r4;
    var r2 := "T" + r3;
    CodeIdentifier("T", r3, Lexer([Generic], Some(StartOfScope), false, false));
    LexOne("T", r3, Lexer([Generic], Some(StartOfScope), false, false), Token(Identifier, "T"), Lexer([Generic], Some(Identifier), false, false));
  }

  lemma OptionalGenericTypeStep3()
    ensures Lex("?" + ("," + ("U" + (">" + ""))), Lexer([Generic], Some(Identifier), false, false)) ==
            [Token(Operator, "?")] + Lex("," + ("U" + (">" + "")), Lexer([Generic], Some(Operator), false, false))
  {
    var r7 := "";
    var r6 := ">" + r7;
    var r5 := "U" + r6;
    var r4 := "," + r5;
    var r3 := "?" + r4;
    CodeOperator("?", r4, Lexer([Generic], Some(Identifier), false, false));
    LexOne("?", r4, Lexer([Generic], Some(Identifier), false, false), Token(Operator, "?"), Lexer([Generic], Some(Operator), false, false));
  }

  lemma OptionalGenericTypeStep4()
    ensures Lex("," + ("U" + (">" + "")), Lexer([Generic], Some(Operator), false, false)) ==
            [Token(Operator, ",")] + Lex("U" + (">" + ""), Lexer([Generic], Some(Operator), false, false))
  {
    var r7 := "";
    var r6 := ">" + r7;
    var r5 := "U" + r6;
    var r4 := "," + r5;
    CodePunctuation(",", r5, Lexer([Generic], Some(Operator), false, false));
    LexOne(",", r5, Lexer([Generic], Some(Operator), false, false), Token(Operator, ","), Lexer([Generic], Some(Operator), false, false));
  }

  lemma OptionalGenericTypeStep5()
    ensures Lex("U" + (">" + ""), Lexer([Generic], Some(Operator), false, false)) ==
            [Token(Identifier, "U")] + Lex(">" + "", Lexer([Generic], Some(Identifier), false, false))
  {
    var r7 := "";
    var r6 := ">" + r7;
    var r5 := "U" + r6;
    CodeIdentifier("U", r6, Lexer([Generic], Some(Operator), false, false));
    LexOne("U", r6, Lexer([Generic], Some(Operator), false, false), Token(Identifier, "U"), Lexer([Generic], Some(Identifier), false, false));
  }

  lemma OptionalGenericTypeStep6()
    ensures Lex(">" + "", Lexer([Generic], Some(Identifier), false, false)) ==
            [Token(EndOfScope, ">")] + Lex("", Lexer([], Some(EndOfScope), false, false))
  {
    var r7 := "";
    var r6 := ">" + r7;
    CodeGenericClose(r7, Lexer([Generic], Some(Identifier), false, false));
    LexOne(">", r7, Lexer([Generic], Some(Identifier), false, false), Token(EndOfScope, ">"), Lexer([], Some(EndOfScope), false, false));
  }

  // SwiftFormatTests/TokenizerTests.swift:833-843
  lemma TrailingOptionalGenericType()
    ensures Tokenize("Foo" + ("<" + ("T" + ("?" + (">" + ""))))) ==
            [Token(Identifier, "Foo")] + ([Token(StartOfScope, "<")] + ([Token(Identifier, "T")] + ([Token(Operator, "?")] + ([Token(EndOfScope, ">")] + []))))
  {
    TrailingOptionalGenericTypeStep0();
    TrailingOptionalGenericTypeStep1();
    TrailingOptionalGenericTypeStep2();
    TrailingOptionalGenericTypeStep3();
    TrailingOptionalGenericTypeStep4();
  }

  lemma TrailingOptionalGenericTypeStep0()
    ensures Lex("Foo" + ("<" + ("T" + ("?" + (">" + "")))), Lexer([], None, false, false)) ==
            [Token(Identifier, "Foo")] + Lex("<" + ("T" + ("?" + (">" + ""))), Lexer([], Some(Identifier), false, false))
  {
    var r5 := "";
    var r4 := ">" + r5;
    var r3 := "?" + r4;
    var r2 := "T" + r3;
    var r1 := "<" + r2;
    var r0 := "Foo" + r1;
    CodeIdentifier("Foo", r1, Lexer([], None, false, false));
    LexOne("Foo", r1, Lexer([], None, false, false), Token(Identifier, "Foo"), Lexer([], Some(Identifier), false, false));
  }

  lemma TrailingOptionalGenericTypeStep1()
    ensures Lex("<" + ("T" + ("?" + (">" + ""))), Lexer([], Some(Identifier), false, false)) ==
            [Token(StartOfScope, "<")] + Lex("T" + ("?" + (">" + "")), Lexer([Generic], Some(StartOfScope), false, false))
  {
    var r5 := "";
    var r4 := ">" + r5;
    var r3 := "?" + r4;
    var r2 := "T" + r3;
    var r1 := "<" + r2;
    TrailingOptionalGenericTypeProbe1();
    CodeGenericOpen(r2, Lexer([], Some(Identifier), false, false));
    LexOne("<", r2, Lexer([], Some(Identifier), false, false), Token(StartOfScope, "<"), Lexer([Generic], Some(StartOfScope), false, false));
  }

  lemma TrailingOptionalGenericTypeProbe1_0()
    ensures Probe("T" + ("?" + (">" + "")), "<", 0) == Probe(("?" + (">" + "")), "<", 0)
  {
    var r5 := "";
    var r4 := ">" + r5;
    var r3 := "?" + r4;
    var r2 := "T" + r3;
    ProbeWord("T", r3, "<", 0);
  }

  lemma TrailingOptionalGenericTypeProbe1_1()
    ensures Probe("?" + (">" + ""), "<", 0) == Probe((">" + ""), "<", 0)
  {
    var r5 := "";
    var r4 := ">" + r5;
    var r3 := "?" + r4;
    var r2 := "T" + r3;
    ProbeSkip("?", r4, "<", 0);
  }

  lemma TrailingOptionalGenericTypeProbe1_2()
    ensures Probe(">" + (""), "<", 0)
  {
    var r5 := "";
    var r4 := ">" + r5;
    var r3 := "?" + r4;
    var r2 := "T" + r3;
    ProbeChevronEnds(r5, "<", 0);
  }

  lemma TrailingOptionalGenericTypeProbe1()
    ensures Probe("T" + ("?" + (">" + "")), "<", 0)
  {
    var r5 := "";
    var r4 := ">" + r5;
    var r3 := "?" + r4;
    var r2 := "T" + r3;
    TrailingOptionalGenericTypeProbe1_0();
    TrailingOptionalGenericTypeProbe1_1();
    TrailingOptionalGenericTypeProbe1_2();
  }

  lemma TrailingOptionalGenericTypeStep2()
    ensures Lex("T" + ("?" + (">" + "")), Lexer([Generic], Some(StartOfScope), false, false)) ==
            [Token(Identifier, "T")] + Lex("?" + (">" + ""), Lexer([Generic], Some(Identifier), false, false))
  {
    var r5 := "";
    var r4 := ">" + r5;
    var r3 := "?" + r4;
    var r2 := "T" + r3;
    CodeIdentifier("T", r3, Lexer([Generic], Some(StartOfScope), false, false));
    LexOne("T", r3, Lexer([Generic], Some(StartOfScope), false, false), Token(Identifier, "T"), Lexer([Generic], Some(Identifier), false, false));
  }

  lemma TrailingOptionalGenericTypeStep3()
    ensures Lex("?" + (">" + ""), Lexer([Generic], Some(Identifier), false, false)) ==
            [Token(Operator, "?")] + Lex(">" + "", Lexer([Generic], Some(Operator), false, false))
  {
    var r5 := "";
    var r4 := ">" + r5;
    var r3 := "?" + r4;
    CodeOperator("?", r4, Lexer([Generic], Some(Identifier), false, false));
    LexOne("?", r4, Lexer([Generic], Some(Identifier), false, false), Token(Operator, "?"), Lexer([Generic], Some(Operator), false, false));
  }

  lemma TrailingOptionalGenericTypeStep4()
    ensures Lex(">" + "", Lexer([Generic], Some(Operator), false, false)) ==
            [Token(EndOfScope, ">")] + Lex("", Lexer([], Some(EndOfScope), false, false))
  {
    var r5 := "";
    var r4 := ">" + r5;
    CodeGenericClose(r5, Lexer([Generic], Some(Operator), false, false));
    LexOne(">", r5, Lexer([Generic], Some(Operator), false, false), Token(EndOfScope, ">"), Lexer([], Some(EndOfScope), false, false));
  }

  // SwiftFormatTests/TokenizerTests.swift:845-858
  lemma NestedOptionalGenericType()
    ensures Tokenize("Foo" + ("<" + ("Bar" + ("<" + ("T" + ("?" + (">" + (">" + "")))))))) ==
            [Token(Identifier, "Foo")] + ([Token(StartOfScope, "<")] + ([Token(Identifier, "Bar")] + ([Token(StartOfScope, "<")] + ([Token(Identifier, "T")] + ([Token(Operator, "?")] + ([Token(EndOfScope, ">")] + ([Token(EndOfScope, ">")] + [])))))))
  {
    NestedOptionalGenericTypeStep0();
    NestedOptionalGenericTypeStep1();
    NestedOptionalGenericTypeStep2();
    NestedOptionalGenericTypeStep3();
    NestedOptionalGenericTypeStep4();
    NestedOptionalGenericTypeStep5();
    NestedOptionalGenericTypeStep6();
    NestedOptionalGenericTypeStep7();
  }

  lemma NestedOptionalGenericTypeStep0()
    ensures Lex("Foo" + ("<" + ("Bar" + ("<" + ("T" + ("?" + (">" + (">" + ""))))))), Lexer([], None, false, false)) ==
            [Token(Identifier, "Foo")] + Lex("<" + ("Bar" + ("<" + ("T" + ("?" + (">" + (">" + "")))))), Lexer([], Some(Identifier), false, false))
  {
    var r8 := "";
    var r7 := ">" + r8;
    var r6 := ">" + r7;
    var r5 := "?" + r6;
    var r4 := "T" + r5;
    var r3 := "<" + r4;
    var r2 := "Bar" + r3;
    var r1 := "<" + r2;
    var r0 := "Foo" + r1;
    CodeIdentifier("Foo", r1, Lexer([], None, false, false));
    LexOne("Foo", r1, Lexer([], None, false, false), Token(Identifier, "Foo"), Lexer([], Some(Identifier), false, false));
  }

  lemma NestedOptionalGenericTypeStep1()
    ensures Lex("<" + ("Bar" + ("<" + ("T" + ("?" + (">" + (">" + "")))))), Lexer([], Some(Identifier), false, false)) ==
            [Token(StartOfScope, "<")] + Lex("Bar" + ("<" + ("T" + ("?" + (">" + (">" + ""))))), Lexer([Generic], Some(StartOfScope), false, false))
  {
    var r8 := "";
    var r7 := ">" + r8;
    var r6 := ">" + r7;
    var r5 := "?" + r6;
    var r4 := "T" + r5;
    var r3 := "<" + r4;
    var r2 := "Bar" + r3;
    var r1 := "<" + r2;
    NestedOptionalGenericTypeProbe1();
    CodeGenericOpen(r2, Lexer([], Some(Identifier), false, false));
    LexOne("<", r2, Lexer([], Some(Identifier), false, false), Token(StartOfScope, "<"), Lexer([Generic], Some(StartOfScope), false, false));
  }

  lemma NestedOptionalGenericTypeProbe1_0()
    ensures Probe("Bar" + ("<" + ("T" + ("?" + (">" + (">" + ""))))), "<", 0) == Probe(("<" + ("T" + ("?" + (">" + (">" + ""))))), "<", 0)
  {
    var r8 := "";
    var r7 := ">" + r8;
    var r6 := ">" + r7;
    var r5 := "?" + r6;
    var r4 := "T" + r5;
    var r3 := "<" + r4;
    var r2 := "Bar" + r3;
    ProbeWord("Bar", r3, "<", 0);
  }

  lemma NestedOptionalGenericTypeProbe1_1()
    ensures Probe("<" + ("T" + ("?" + (">" + (">" + "")))), "<", 0) == Probe(("T" + ("?" + (">" + (">" + "")))), "<<", 0)
  {
    var r8 := "";
    var r7 := ">" + r8;
    var r6 := ">" + r7;
    var r5 := "?" + r6;
    var r4 := "T" + r5;
    var r3 := "<" + r4;
    var r2 := "Bar" + r3;
    ProbeOpen("<", r4, "<", "<<", 0);
  }

  lemma NestedOptionalGenericTypeProbe1_2()
    ensures Probe("T" + ("?" + (">" + (">" + ""))), "<<", 0) == Probe(("?" + (">" + (">" + ""))), "<<", 0)
  {
    var r8 := "";
    var r7 := ">" + r8;
    var r6 := ">" + r7;
    var r5 := "?" + r6;
    var r4 := "T" + r5;
    var r3 := "<" + r4;
    var r2 := "Bar" + r3;
    ProbeWord("T", r5, "<<", 0);
  }

  lemma NestedOptionalGenericTypeProbe1_3()
    ensures Probe("?" + (">" + (">" + "")), "<<", 0) == Probe((">" + (">" + "")), "<<", 0)
  {
    var r8 := "";
    var r7 := ">" + r8;
    var r6 := ">" + r7;
    var r5 := "?" + r6;
    var r4 := "T" + r5;
    var r3 := "<" + r4;
    var r2 := "Bar" + r3;
    ProbeSkip("?", r6, "<<", 0);
  }

  lemma NestedOptionalGenericTypeProbe1_4()
    ensures Probe(">" + (">" + ""), "<<", 0) == Probe((">" + ""), "<", 0)
  {
    var r8 := "";
    var r7 := ">" + r8;
    var r6 := ">" + r7;
    var r5 := "?" + r6;
    var r4 := "T" + r5;
    var r3 := "<" + r4;
    var r2 := "Bar" + r3;
    assert r7 == ">" + r8;
    ChevronRunOf(">", r8);
    ProbeChevronPops(r7, "<<", "<", 0);
  }

  lemma NestedOptionalGenericTypeProbe1_5()
    ensures Probe(">" + (""), "<", 0)
  {
    var r8 := "";
    var r7 := ">" + r8;
    var r6 := ">" + r7;
    var r5 := "?" + r6;
    var r4 := "T" + r5;
    var r3 := "<" + r4;
    var r2 := "Bar" + r3;
    ProbeChevronEnds(r8, "<", 0);
  }

  lemma NestedOptionalGenericTypeProbe1()
    ensures Probe("Bar" + ("<" + ("T" + ("?" + (">" + (">" + ""))))), "<", 0)
  {
    var r8 := "";
    var r7 := ">" + r8;
    var r6 := ">" + r7;
    var r5 := "?" + r6;
    var r4 := "T" + r5;
    var r3 := "<" + r4;
    var r2 := "Bar" + r3;
    NestedOptionalGenericTypeProbe1_0();
    NestedOptionalGenericTypeProbe1_1();
    NestedOptionalGenericTypeProbe1_2();
    NestedOptionalGenericTypeProbe1_3();
    NestedOptionalGenericTypeProbe1_4();
    NestedOptionalGenericTypeProbe1_5();
  }

  lemma NestedOptionalGenericTypeStep2()
    ensures Lex("Bar" + ("<" + ("T" + ("?" + (">" + (">" + ""))))), Lexer([Generic], Some(StartOfScope), false, false)) ==
            [Token(Identifier, "Bar")] + Lex("<" + ("T" + ("?" + (">" + (">" + "")))), Lexer([Generic], Some(Identifier), false, false))
  {
    var r8 := "";
    var r7 := ">" + r8;
    var r6 := ">" + r7;
    var r5 := "?" + r6;
    var r4 := "T" + r5;
    var r3 := "<" + r4;
    var r2 := "Bar" + r3;
    CodeIdentifier("Bar", r3, Lexer([Generic], Some(StartOfScope), false, false));
    LexOne("Bar", r3, Lexer([Generic], Some(StartOfScope), false, false), Token(Identifier, "Bar"), Lexer([Generic], Some(Identifier), false, false));
  }

  lemma NestedOptionalGenericTypeStep3()
    ensures Lex("<" + ("T" + ("?" + (">" + (">" + "")))), Lexer([Generic], Some(Identifier), false, false)) ==
            [Token(StartOfScope, "<")] + Lex("T" + ("?" + (">" + (">" + ""))), Lexer([Generic, Generic], Some(StartOfScope), false, false))
  {
    var r8 := "";
    var r7 := ">" + r8;
    var r6 := ">" + r7;
    var r5 := "?" + r6;
    var r4 := "T" + r5;
    var r3 := "<" + r4;
    NestedOptionalGenericTypeProbe3();
    CodeGenericOpen(r4, Lexer([Generic], Some(Identifier), false, false));
    LexOne("<", r4, Lexer([Generic], Some(Identifier), false, false), Token(StartOfScope, "<"), Lexer([Generic, Generic], Some(StartOfScope), false, false));
  }

  lemma NestedOptionalGenericTypeProbe3_0()
    ensures Probe("T" + ("?" + (">" + (">" + ""))), "<", 1) == Probe(("?" + (">" + (">" + ""))), "<", 1)
  {
    var r8 := "";
    var r7 := ">" + r8;
    var r6 := ">" + r7;
    var r5 := "?" + r6;
    var r4 := "T" + r5;
    ProbeWord("T", r5, "<", 1);
  }

  lemma NestedOptionalGenericTypeProbe3_1()
    ensures Probe("?" + (">" + (">" + "")), "<", 1) == Probe((">" + (">" + "")), "<", 1)
  {
    var r8 := "";
    var r7 := ">" + r8;
    var r6 := ">" + r7;
    var r5 := "?" + r6;
    var r4 := "T" + r5;
    ProbeSkip("?", r6, "<", 1);
  }

  lemma NestedOptionalGenericTypeProbe3_2()
    ensures Probe(">" + (">" + ""), "<", 1)
  {
    var r8 := "";
    var r7 := ">" + r8;
    var r6 := ">" + r7;
    var r5 := "?" + r6;
    var r4 := "T" + r5;
    assert r7 == ">" + r8;
    ChevronRunOf(">", r8);
    ProbeChevronEnds(r7, "<", 1);
  }

  lemma NestedOptionalGenericTypeProbe3()
    ensures Probe("T" + ("?" + (">" + (">" + ""))), "<", 1)
  {
    var r8 := "";
    var r7 := ">" + r8;
    var r6 := ">" + r7;
    var r5 := "?" + r6;
    var r4 := "T" + r5;
    NestedOptionalGenericTypeProbe3_0();
    NestedOptionalGenericTypeProbe3_1();
    NestedOptionalGenericTypeProbe3_2();
  }

  lemma NestedOptionalGenericTypeStep4()
    ensures Lex("T" + ("?" + (">" + (">" + ""))), Lexer([Generic, Generic], Some(StartOfScope), false, false)) ==
            [Token(Identifier, "T")] + Lex("?" + (">" + (">" + "")), Lexer([Generic, Generic], Some(Identifier), false, false))
  {
    var r8 := "";
    var r7 := ">" + r8;
    var r6 := ">" + r7;
    var r5 := "?" + r6;
    var r4 := "T" + r5;
    CodeIdentifier("T", r5, Lexer([Generic, Generic], Some(StartOfScope), false, false));
    LexOne("T", r5, Lexer([Generic, Generic], Some(StartOfScope), false, false), Token(Identifier, "T"), Lexer([Generic, Generic], Some(Identifier), false, false));
  }

  lemma NestedOptionalGenericTypeStep5()
    ensures Lex("?" + (">" + (">" + "")), Lexer([Generic, Generic], Some(Identifier), false, false)) ==
            [Token(Operator, "?")] + Lex(">" + (">" + ""), Lexer([Generic, Generic], Some(Operator), false, false))
  {
    var r8 := "";
    var r7 := ">" + r8;
    var r6 := ">" + r7;
    var r5 := "?" + r6;
    CodeOperator("?", r6, Lexer([Generic, Generic], Some(Identifier), false, false));
    LexOne("?", r6, Lexer([Generic, Generic], Some(Identifier), false, false), Token(Operator, "?"), Lexer([Generic, Generic], Some(Operator), false, false));
  }

  lemma NestedOptionalGenericTypeStep6()
    ensures Lex(">" + (">" + ""), Lexer([Generic, Generic], Some(Operator), false, false)) ==
            [Token(EndOfScope, ">")] + Lex(">" + "", Lexer([Generic], Some(EndOfScope), false, false))
  {
    var r8 := "";
    var r7 := ">" + r8;
    var r6 := ">" + r7;
    CodeGenericClose(r7, Lexer([Generic, Generic], Some(Operator), false, false));
    LexOne(">", r7, Lexer([Generic, Generic], Some(Operator), false, false), Token(EndOfScope, ">"), Lexer([Generic], Some(EndOfScope), false, false));
  }

  lemma NestedOptionalGenericTypeStep7()
    ensures Lex(">" + "", Lexer([Generic], Some(EndOfScope), false, false)) ==
            [Token(EndOfScope, ">")] + Lex("", Lexer([], Some(EndOfScope), false, false))
  {
    var r8 := "";
    var r7 := ">" + r8;
    CodeGenericClose(r8, Lexer([Generic], Some(EndOfScope), false, false));
    LexOne(">", r8, Lexer([Generic], Some(EndOfScope), false, false), Token(EndOfScope, ">"), Lexer([], Some(EndOfScope), false, false));
  }

  // SwiftFormatTests/TokenizerTests.swift:860-868
  lemma CustomOperatorStartingWithOpenChevron()
    ensures Tokenize("foo" + ("<--" + ("bar" + ""))) ==
            [Token(Identifier, "foo")] + ([Token(Operator, "<--")] + ([Token(Identifier, "bar")] + []))
  {
    CustomOperatorStartingWithOpenChevronStep0();
    CustomOperatorStartingWithOpenChevronStep1();
    CustomOperatorStartingWithOpenChevronStep2();
  }

  lemma CustomOperatorStartingWithOpenChevronStep0()
    ensures Lex("foo" + ("<--" + ("bar" + "")), Lexer([], None, false, false)) ==
            [Token(Identifier, "foo")] + Lex("<--" + ("bar" + ""), Lexer([], Some(Identifier), false, false))
  {
    var r3 := "";
    var r2 := "bar" + r3;
    var r1 := "<--" + r2;
    var r0 := "foo" + r1;
    CodeIdentifier("foo", r1, Lexer([], None, false, false));
    LexOne("foo", r1, Lexer([], None, false, false), Token(Identifier, "foo"), Lexer([], Some(Identifier), false, false));
  }

  lemma CustomOperatorStartingWithOpenChevronStep1()
    ensures Lex("<--" + ("bar" + ""), Lexer([], Some(Identifier), false, false)) ==
            [Token(Operator, "<--")] + Lex("bar" + "", Lexer([], Some(Operator), false, false))
  {
    var r3 := "";
    var r2 := "bar" + r3;
    var r1 := "<--" + r2;
    assert ("<--" + r2)[1..] == "--" + r2;
    CustomOperatorStartingWithOpenChevronProbe1();
    CodeOperator("<--", r2, Lexer([], Some(Identifier), false, false));
    LexOne("<--", r2, Lexer([], Some(Identifier), false, false), Token(Operator, "<--"), Lexer([], Some(Operator), false, false));
  }

  lemma CustomOperatorStartingWithOpenChevronProbe1_0()
    ensures !Probe("--" + ("bar" + ""), "<", 0)
  {
    var r3 := "";
    var r2 := "bar" + r3;
    ProbeStop("--", r2, "<", 0);
  }

  lemma CustomOperatorStartingWithOpenChevronProbe1()
    ensures !Probe("--" + ("bar" + ""), "<", 0)
  {
    var r3 := "";
    var r2 := "bar" + r3;
    CustomOperatorStartingWithOpenChevronProbe1_0();
  }

  lemma CustomOperatorStartingWithOpenChevronStep2()
    ensures Lex("bar" + "", Lexer([], Some(Operator), false, false)) ==
            [Token(Identifier, "bar")] + Lex("", Lexer([], Some(Identifier), false, false))
  {
    var r3 := "";
    var r2 := "bar" + r3;
    CodeIdentifier("bar", r3, Lexer([], Some(Operator), false, false));
    LexOne("bar", r3, Lexer([], Some(Operator), false, false), Token(Identifier, "bar"), Lexer([], Some(Identifier), false, false));
  }

  // SwiftFormatTests/TokenizerTests.swift:870-878
  lemma CustomOperatorEndingWithCloseChevron()
    ensures Tokenize("foo" + ("-->" + ("bar" + ""))) ==
            [Token(Identifier, "foo")] + ([Token(Operator, "-->")] + ([Token(Identifier, "bar")] + []))
  {
    CustomOperatorEndingWithCloseChevronStep0();
    CustomOperatorEndingWithCloseChevronStep1();
    CustomOperatorEndingWithCloseChevronStep2();
  }

  lemma CustomOperatorEndingWithCloseChevronStep0()
    ensures Lex("foo" + ("-->" + ("bar" + "")), Lexer([], None, false, false)) ==
            [Token(Identifier, "foo")] + Lex("-->" + ("bar" + ""), Lexer([], Some(Identifier), false, false))
  {
    var r3 := "";
    var r2 := "bar" + r3;
    var r1 := "-->" + r2;
    var r0 := "foo" + r1;
    CodeIdentifier("foo", r1, Lexer([], None, false, false));
    LexOne("foo", r1, Lexer([], None, false, false), Token(Identifier, "foo"), Lexer([], Some(Identifier), false, false));
  }

  lemma CustomOperatorEndingWithCloseChevronStep1()
    ensures Lex("-->" + ("bar" + ""), Lexer([], Some(Identifier), false, false)) ==
            [Token(Operator, "-->")] + Lex("bar" + "", Lexer([], Some(Operator), false, false))
  {
    var r3 := "";
    var r2 := "bar" + r3;
    var r1 := "-->" + r2;
    CodeOperator("-->", r2, Lexer([], Some(Identifier), false, false));
    LexOne("-->", r2, Lexer([], Some(Identifier), false, false), Token(Operator, "-->"), Lexer([], Some(Operator), false, false));
  }

  lemma CustomOperatorEndingWithCloseChevronStep2()
    ensures Lex("bar" + "", Lexer([], Some(Operator), false, false)) ==
            [Token(Identifier, "bar")] + Lex("", Lexer([], Some(Identifier), false, false))
  {
    var r3 := "";
    var r2 := "bar" + r3;
    CodeIdentifier("bar", r3, Lexer([], Some(Operator), false, false));
    LexOne("bar", r3, Lexer([], Some(Operator), false, false), Token(Identifier, "bar"), Lexer([], Some(Identifier), false, false));
  }

  // SwiftFormatTests/TokenizerTests.swift:880-888
  lemma GreaterThanLessThanOperator()
    ensures Tokenize("foo" + ("><" + ("bar" + ""))) ==
            [Token(Identifier, "foo")] + ([Token(Operator, "><")] + ([Token(Identifier, "bar")] + []))
  {
    GreaterThanLessThanOperatorStep0();
    GreaterThanLessThanOperatorStep1();
    GreaterThanLessThanOperatorStep2();
  }

  lemma GreaterThanLessThanOperatorStep0()
    ensures Lex("foo" + ("><" + ("bar" + "")), Lexer([], None, false, false)) ==
            [Token(Identifier, "foo")] + Lex("><" + ("bar" + ""), Lexer([], Some(Identifier), false, false))
  {
    var r3 := "";
    var r2 := "bar" + r3;
    var r1 := "><" + r2;
    var r0 := "foo" + r1;
    CodeIdentifier("foo", r1, Lexer([], None, false, false));
    LexOne("foo", r1, Lexer([], None, false, false), Token(Identifier, "foo"), Lexer([], Some(Identifier), false, false));
  }

  lemma GreaterThanLessThanOperatorStep1()
    ensures Lex("><" + ("bar" + ""), Lexer([], Some(Identifier), false, false)) ==
            [Token(Operator, "><")] + Lex("bar" + "", Lexer([], Some(Operator), false, false))
  {
    var r3 := "";
    var r2 := "bar" + r3;
    var r1 := "><" + r2;
    CodeOperator("><", r2, Lexer([], Some(Identifier), false, false));
    LexOne("><", r2, Lexer([], Some(Identifier), false, false), Token(Operator, "><"), Lexer([], Some(Operator), false, false));
  }

  lemma GreaterThanLessThanOperatorStep2()
    ensures Lex("bar" + "", Lexer([], Some(Operator), false, false)) ==
            [Token(Identifier, "bar")] + Lex("", Lexer([], Some(Identifier), false, false))
  {
    var r3 := "";
    var r2 := "bar" + r3;
    CodeIdentifier("bar", r3, Lexer([], Some(Operator), false, false));
    LexOne("bar", r3, Lexer([], Some(Operator), false, false), Token(Identifier, "bar"), Lexer([], Some(Identifier), false, false));
  }

  // SwiftFormatTests/TokenizerTests.swift:890-898
  lemma LessThanGreaterThanOperator()
    ensures Tokenize("foo" + ("<>" + ("bar" + ""))) ==
            [Token(Identifier, "foo")] + ([Token(Operator, "<>")] + ([Token(Identifier, "bar")] + []))
  {
    LessThanGreaterThanOperatorStep0();
    LessThanGreaterThanOperatorStep1();
    LessThanGreaterThanOperatorStep2();
  }

  lemma LessThanGreaterThanOperatorStep0()
    ensures Lex("foo" + ("<>" + ("bar" + "")), Lexer([], None, false, false)) ==
            [Token(Identifier, "foo")] + Lex("<>" + ("bar" + ""), Lexer([], Some(Identifier), false, false))
  {
    var r3 := "";
    var r2 := "bar" + r3;
    var r1 := "<>" + r2;
    var r0 := "foo" + r1;
    CodeIdentifier("foo", r1, Lexer([], None, false, false));
    LexOne("foo", r1, Lexer([], None, false, false), Token(Identifier, "foo"), Lexer([], Some(Identifier), false, false));
  }

  lemma LessThanGreaterThanOperatorStep1()
    ensures Lex("<>" + ("bar" + ""), Lexer([], Some(Identifier), false, false)) ==
            [Token(Operator, "<>")] + Lex("bar" + "", Lexer([], Some(Operator), false, false))
  {
    var r3 := "";
    var r2 := "bar" + r3;
    var r1 := "<>" + r2;
    assert ("<>" + r2)[1..] == ">" + r2;
    LessThanGreaterThanOperatorProbe1();
    CodeOperator("<>", r2, Lexer([], Some(Identifier), false, false));
    LexOne("<>", r2, Lexer([], Some(Identifier), false, false), Token(Operator, "<>"), Lexer([], Some(Operator), false, false));
  }

  lemma LessThanGreaterThanOperatorProbe1_0()
    ensures !Probe(">" + ("bar" + ""), "<", 0)
  {
    var r3 := "";
    var r2 := "bar" + r3;
    ProbeChevronFails(r2, "<", 0);
  }

  lemma LessThanGreaterThanOperatorProbe1()
    ensures !Probe(">" + ("bar" + ""), "<", 0)
  {
    var r3 := "";
    var r2 := "bar" + r3;
    LessThanGreaterThanOperatorProbe1_0();
  }

  lemma LessThanGreaterThanOperatorStep2()
    ensures Lex("bar" + "", Lexer([], Some(Operator), false, false)) ==
            [Token(Identifier, "bar")] + Lex("", Lexer([], Some(Identifier), false, false))
  {
    var r3 := "";
    var r2 := "bar" + r3;
    CodeIdentifier("bar", r3, Lexer([], Some(Operator), false, false));
    LexOne("bar", r3, Lexer([], Some(Operator), false, false), Token(Identifier, "bar"), Lexer([], Some(Identifier), false, false));
  }

  // SwiftFormatTests/TokenizerTests.swift:900-918
  lemma GenericFollowedByAssign()
    ensures Tokenize("let" + (" " + ("foo" + (":" + (" " + ("Bar" + ("<" + ("Baz" + (">" + (" " + ("=" + (" " + ("5" + ""))))))))))))) ==
            [Token(Identifier, "let")] + ([Token(Whitespace, " ")] + ([Token(Identifier, "foo")] + ([Token(Operator, ":")] + ([Token(Whitespace, " ")] + ([Token(Identifier, "Bar")] + ([Token(StartOfScope, "<")] + ([Token(Identifier, "Baz")] + ([Token(EndOfScope, ">")] + ([Token(Whitespace, " ")] + ([Token(Operator, "=")] + ([Token(Whitespace, " ")] + ([Token(Number, "5")] + []))))))))))))
  {
    GenericFollowedByAssignStep0();
    GenericFollowedByAssignStep1();
    GenericFollowedByAssignStep2();
    GenericFollowedByAssignStep3();
    GenericFollowedByAssignStep4();
    GenericFollowedByAssignStep5();
    GenericFollowedByAssignStep6();
    GenericFollowedByAssignStep7();
    GenericFollowedByAssignFrom8();
  }

  lemma GenericFollowedByAssignFrom8()
    ensures Lex(">" + (" " + ("=" + (" " + ("5" + "")))), Lexer([Generic], Some(Identifier), false, false)) ==
            [Token(EndOfScope, ">")] + ([Token(Whitespace, " ")] + ([Token(Operator, "=")] + ([Token(Whitespace, " ")] + ([Token(Number, "5")] + Lex("", Lexer([], Some(Number), false, false))))))
  {
    GenericFollowedByAssignStep8();
    GenericFollowedByAssignStep9();
    GenericFollowedByAssignStep10();
    GenericFollowedByAssignStep11();
    GenericFollowedByAssignStep12();
  }

  lemma GenericFollowedByAssignStep0()
    ensures Lex("let" + (" " + ("foo" + (":" + (" " + ("Bar" + ("<" + ("Baz" + (">" + (" " + ("=" + (" " + ("5" + "")))))))))))), Lexer([], None, false, false)) ==
            [Token(Identifier, "let")] + Lex(" " + ("foo" + (":" + (" " + ("Bar" + ("<" + ("Baz" + (">" + (" " + ("=" + (" " + ("5" + ""))))))))))), Lexer([], Some(Identifier), false, false))
  {
    var r13 := "";
    var r12 := "5" + r13;
    var r11 := " " + r12;
    var r10 := "=" + r11;
    var r9 := " " + r10;
    var r8 := ">" + r9;
    var r7 := "Baz" + r8;
    var r6 := "<" + r7;
    var r5 := "Bar" + r6;
    var r4 := " " + r5;
    var r3 := ":" + r4;
    var r2 := "foo" + r3;
    var r1 := " " + r2;
    var r0 := "let" + r1;
    CodeIdentifier("let", r1, Lexer([], None, false, false));
    LexOne("let", r1, Lexer([], None, false, false), Token(Identifier, "let"), Lexer([], Some(Identifier), false, false));
  }

  lemma GenericFollowedByAssignStep1()
    ensures Lex(" " + ("foo" + (":" + (" " + ("Bar" + ("<" + ("Baz" + (">" + (" " + ("=" + (" " + ("5" + ""))))))))))), Lexer([], Some(Identifier), false, false)) ==
            [Token(Whitespace, " ")] + Lex("foo" + (":" + (" " + ("Bar" + ("<" + ("Baz" + (">" + (" " + ("=" + (" " + ("5" + "")))))))))), Lexer([], Some(Whitespace), false, false))
  {
    var r13 := "";
    var r12 := "5" + r13;
    var r11 := " " + r12;
    var r10 := "=" + r11;
    var r9 := " " + r10;
    var r8 := ">" + r9;
    var r7 := "Baz" + r8;
    var r6 := "<" + r7;
    var r5 := "Bar" + r6;
    var r4 := " " + r5;
    var r3 := ":" + r4;
    var r2 := "foo" + r3;
    var r1 := " " + r2;
    WhitespaceToken(" ", r2, Lexer([], Some(Identifier), false, false));
    LexOne(" ", r2, Lexer([], Some(Identifier), false, false), Token(Whitespace, " "), Lexer([], Some(Whitespace), false, false));
  }

  lemma GenericFollowedByAssignStep2()
    ensures Lex("foo" + (":" + (" " + ("Bar" + ("<" + ("Baz" + (">" + (" " + ("=" + (" " + ("5" + "")))))))))), Lexer([], Some(Whitespace), false, false)) ==
            [Token(Identifier, "foo")] + Lex(":" + (" " + ("Bar" + ("<" + ("Baz" + (">" + (" " + ("=" + (" " + ("5" + ""))))))))), Lexer([], Some(Identifier), false, false))
  {
    var r13 := "";
    var r12 := "5" + r13;
    var r11 := " " + r12;
    var r10 := "=" + r11;
    var r9 := " " + r10;
    var r8 := ">" + r9;
    var r7 := "Baz" + r8;
    var r6 := "<" + r7;
    var r5 := "Bar" + r6;
    var r4 := " " + r5;
    var r3 := ":" + r4;
    var r2 := "foo" + r3;
    CodeIdentifier("foo", r3, Lexer([], Some(Whitespace), false, false));
    LexOne("foo", r3, Lexer([], Some(Whitespace), false, false), Token(Identifier, "foo"), Lexer([], Some(Identifier), false, false));
  }

  lemma GenericFollowedByAssignStep3()
    ensures Lex(":" + (" " + ("Bar" + ("<" + ("Baz" + (">" + (" " + ("=" + (" " + ("5" + ""))))))))), Lexer([], Some(Identifier), false, false)) ==
            [Token(Operator, ":")] + Lex(" " + ("Bar" + ("<" + ("Baz" + (">" + (" " + ("=" + (" " + ("5" + "")))))))), Lexer([], Some(Operator), false, false))
  {
    var r13 := "";
    var r12 := "5" + r13;
    var r11 := " " + r12;
    var r10 := "=" + r11;
    var r9 := " " + r10;
    var r8 := ">" + r9;
    var r7 := "Baz" + r8;
    var r6 := "<" + r7;
    var r5 := "Bar" + r6;
    var r4 := " " + r5;
    var r3 := ":" + r4;
    CodePunctuation(":", r4, Lexer([], Some(Identifier), false, false));
    LexOne(":", r4, Lexer([], Some(Identifier), false, false), Token(Operator, ":"), Lexer([], Some(Operator), false, false));
  }

  lemma GenericFollowedByAssignStep4()
    ensures Lex(" " + ("Bar" + ("<" + ("Baz" + (">" + (" " + ("=" + (" " + ("5" + "")))))))), Lexer([], Some(Operator), false, false)) ==
            [Token(Whitespace, " ")] + Lex("Bar" + ("<" + ("Baz" + (">" + (" " + ("=" + (" " + ("5" + ""))))))), Lexer([], Some(Whitespace), false, false))
  {
    var r13 := "";
    var r12 := "5" + r13;
    var r11 := " " + r12;
    var r10 := "=" + r11;
    var r9 := " " + r10;
    var r8 := ">" + r9;
    var r7 := "Baz" + r8;
    var r6 := "<" + r7;
    var r5 := "Bar" + r6;
    var r4 := " " + r5;
    WhitespaceToken(" ", r5, Lexer([], Some(Operator), false, false));
    LexOne(" ", r5, Lexer([], Some(Operator), false, false), Token(Whitespace, " "), Lexer([], Some(Whitespace), false, false));
  }

  lemma GenericFollowedByAssignStep5()
    ensures Lex("Bar" + ("<" + ("Baz" + (">" + (" " + ("=" + (" " + ("5" + ""))))))), Lexer([], Some(Whitespace), false, false)) ==
            [Token(Identifier, "Bar")] + Lex("<" + ("Baz" + (">" + (" " + ("=" + (" " + ("5" + "")))))), Lexer([], Some(Identifier), false, false))
  {
    var r13 := "";
    var r12 := "5" + r13;
    var r11 := " " + r12;
    var r10 := "=" + r11;
    var r9 := " " + r10;
    var r8 := ">" + r9;
    var r7 := "Baz" + r8;
    var r6 := "<" + r7;
    var r5 := "Bar" + r6;
    CodeIdentifier("Bar", r6, Lexer([], Some(Whitespace), false, false));
    LexOne("Bar", r6, Lexer([], Some(Whitespace), false, false), Token(Identifier, "Bar"), Lexer([], Some(Identifier), false, false));
  }

  lemma GenericFollowedByAssignStep6()
    ensures Lex("<" + ("Baz" + (">" + (" " + ("=" + (" " + ("5" + "")))))), Lexer([], Some(Identifier), false, false)) ==
            [Token(StartOfScope, "<")] + Lex("Baz" + (">" + (" " + ("=" + (" " + ("5" + ""))))), Lexer([Generic], Some(StartOfScope), false, false))
  {
    var r13 := "";
    var r12 := "5" + r13;
    var r11 := " " + r12;
    var r10 := "=" + r11;
    var r9 := " " + r10;
    var r8 := ">" + r9;
    var r7 := "Baz" + r8;
    var r6 := "<" + r7;
    GenericFollowedByAssignProbe6();
    CodeGenericOpen(r7, Lexer([], Some(Identifier), false, false));
    LexOne("<", r7, Lexer([], Some(Identifier), false, false), Token(StartOfScope, "<"), Lexer([Generic], Some(StartOfScope), false, false));
  }

  lemma GenericFollowedByAssignProbe6_0()
    ensures Probe("Baz" + (">" + (" " + ("=" + (" " + ("5" + ""))))), "<", 0) == Probe((">" + (" " + ("=" + (" " + ("5" + ""))))), "<", 0)
  {
    var r13 := "";
    var r12 := "5" + r13;
    var r11 := " " + r12;
    var r10 := "=" + r11;
    var r9 := " " + r10;
    var r8 := ">" + r9;
    var r7 := "Baz" + r8;
    ProbeWord("Baz", r8, "<", 0);
  }

  lemma GenericFollowedByAssignProbe6_1()
    ensures Probe(">" + (" " + ("=" + (" " + ("5" + "")))), "<", 0)
  {
    var r13 := "";
    var r12 := "5" + r13;
    var r11 := " " + r12;
    var r10 := "=" + r11;
    var r9 := " " + r10;
    var r8 := ">" + r9;
    var r7 := "Baz" + r8;
    ProbeChevronEnds(r9, "<", 0);
  }

  lemma GenericFollowedByAssignProbe6()
    ensures Probe("Baz" + (">" + (" " + ("=" + (" " + ("5" + ""))))), "<", 0)
  {
    var r13 := "";
    var r12 := "5" + r13;
    var r11 := " " + r12;
    var r10 := "=" + r11;
    var r9 := " " + r10;
    var r8 := ">" + r9;
    var r7 := "Baz" + r8;
    GenericFollowedByAssignProbe6_0();
    GenericFollowedByAssignProbe6_1();
  }

  lemma GenericFollowedByAssignStep7()
    ensures Lex("Baz" + (">" + (" " + ("=" + (" " + ("5" + ""))))), Lexer([Generic], Some(StartOfScope), false, false)) ==
            [Token(Identifier, "Baz")] + Lex(">" + (" " + ("=" + (" " + ("5" + "")))), Lexer([Generic], Some(Identifier), false, false))
  {
    var r13 := "";
    var r12 := "5" + r13;
    var r11 := " " + r12;
    var r10 := "=" + r11;
    var r9 := " " + r10;
    var r8 := ">" + r9;
    var r7 := "Baz" + r8;
    CodeIdentifier("Baz", r8, Lexer([Generic], Some(StartOfScope), false, false));
    LexOne("Baz", r8, Lexer([Generic], Some(StartOfScope), false, false), Token(Identifier, "Baz"), Lexer([Generic], Some(Identifier), false, false));
  }

  lemma GenericFollowedByAssignStep8()
    ensures Lex(">" + (" " + ("=" + (" " + ("5" + "")))), Lexer([Generic], Some(Identifier), false, false)) ==
            [Token(EndOfScope, ">")] + Lex(" " + ("=" + (" " + ("5" + ""))), Lexer([], Some(EndOfScope), false, false))
  {
    var r13 := "";
    var r12 := "5" + r13;
    var r11 := " " + r12;
    var r10 := "=" + r11;
    var r9 := " " + r10;
    var r8 := ">" + r9;
    CodeGenericClose(r9, Lexer([Generic], Some(Identifier), false, false));
    LexOne(">", r9, Lexer([Generic], Some(Identifier), false, false), Token(EndOfScope, ">"), Lexer([], Some(EndOfScope), false, false));
  }

  lemma GenericFollowedByAssignStep9()
    ensures Lex(" " + ("=" + (" " + ("5" + ""))), Lexer([], Some(EndOfScope), false, false)) ==
            [Token(Whitespace, " ")] + Lex("=" + (" " + ("5" + "")), Lexer([], Some(Whitespace), false, false))
  {
    var r13 := "";
    var r12 := "5" + r13;
    var r11 := " " + r12;
    var r10 := "=" + r11;
    var r9 := " " + r10;
    WhitespaceToken(" ", r10, Lexer([], Some(EndOfScope), false, false));
    LexOne(" ", r10, Lexer([], Some(EndOfScope), false, false), Token(Whitespace, " "), Lexer([], Some(Whitespace), false, false));
  }

  lemma GenericFollowedByAssignStep10()
    ensures Lex("=" + (" " + ("5" + "")), Lexer([], Some(Whitespace), false, false)) ==
            [Token(Operator, "=")] + Lex(" " + ("5" + ""), Lexer([], Some(Operator), false, false))
  {
    var r13 := "";
    var r12 := "5" + r13;
    var r11 := " " + r12;
    var r10 := "=" + r11;
    CodeOperator("=", r11, Lexer([], Some(Whitespace), false, false));
    LexOne("=", r11, Lexer([], Some(Whitespace), false, false), Token(Operator, "="), Lexer([], Some(Operator), false, false));
  }

  lemma GenericFollowedByAssignStep11()
    ensures Lex(" " + ("5" + ""), Lexer([], Some(Operator), false, false)) ==
            [Token(Whitespace, " ")] + Lex("5" + "", Lexer([], Some(Whitespace), false, false))
  {
    var r13 := "";
    var r12 := "5" + r13;
    var r11 := " " + r12;
    WhitespaceToken(" ", r12, Lexer([], Some(Operator), false, false));
    LexOne(" ", r12, Lexer([], Some(Operator), false, false), Token(Whitespace, " "), Lexer([], Some(Whitespace), false, false));
  }

  lemma GenericFollowedByAssignStep12()
    ensures Lex("5" + "", Lexer([], Some(Whitespace), false, false)) ==
            [Token(Number, "5")] + Lex("", Lexer([], Some(Number), false, false))
  {
    var r13 := "";
    var r12 := "5" + r13;
    CodeNumber("5", r13, 1, 1, Lexer([], Some(Whitespace), false, false));
    LexOne("5", r13, Lexer([], Some(Whitespace), false, false), Token(Number, "5"), Lexer([], Some(Number), false, false));
  }
}
