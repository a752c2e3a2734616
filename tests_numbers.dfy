/**
 * The tokenizer's expected output for numbers, one lemma per test case
 * of SwiftFormatTests/TokenizerTests.swift.  Each input and each expected
 * token list is written as a right-nested concatenation, one piece per token,
 * so that the proof can take the tokens one at a time: lemma <Case>Step<k>
 * scans token k, <Case>From<k> joins a group of eight scans, and
 * <Case>Probe<k> settles the lookahead for a `<` at token k.
 */
module NumberTests {
  import opened Wrappers
  import opened Tokenizer
  import opened Scanning
  import opened Steps

  // SwiftFormatTests/TokenizerTests.swift:243-247
  lemma Zero()
    ensures Tokenize("0" + "") ==
            [Token(Number, "0")] + []
  {
    ZeroStep0();
  }

  lemma ZeroStep0()
    ensures Lex("0" + "", Lexer([], None, false, false)) ==
            [Token(Number, "0")] + Lex("", Lexer([], Some(Number), false, false))
  {
    var r1 := "";
    var r0 := "0" + r1;
    CodeNumber("0", r1, 1, 1, Lexer([], None, false, false));
    LexOne("0", r1, Lexer([], None, false, false), Token(Number, "0"), Lexer([], Some(Number), false, false));
  }

  // SwiftFormatTests/TokenizerTests.swift:249-253
  lemma SmallInteger()
    ensures Tokenize("5" + "") ==
            [Token(Number, "5")] + []
  {
    SmallIntegerStep0();
  }

  lemma SmallIntegerStep0()
    ensures Lex("5" + "", Lexer([], None, false, false)) ==
            [Token(Number, "5")] + Lex("", Lexer([], Some(Number), false, false))
  {
    var r1 := "";
    var r0 := "5" + r1;
    CodeNumber("5", r1, 1, 1, Lexer([], None, false, false));
    LexOne("5", r1, Lexer([], None, false, false), Token(Number, "5"), Lexer([], Some(Number), false, false));
  }

  // SwiftFormatTests/TokenizerTests.swift:255-259
  lemma LargeInteger()
    ensures Tokenize("12345678901234567890" + "") ==
            [Token(Number, "12345678901234567890")] + []
  {
    LargeIntegerStep0();
  }

  lemma LargeIntegerStep0()
    ensures Lex("12345678901234567890" + "", Lexer([], None, false, false)) ==
            [Token(Number, "12345678901234567890")] + Lex("", Lexer([], Some(Number), false, false))
  {
    var r1 := "";
    var r0 := "12345678901234567890" + r1;
    CodeNumber("12345678901234567890", r1, 20, 20, Lexer([], None, false, false));
    LexOne("12345678901234567890", r1, Lexer([], None, false, false), Token(Number, "12345678901234567890"), Lexer([], Some(Number), false, false));
  }

  // SwiftFormatTests/TokenizerTests.swift:261-268
  lemma NegativeInteger()
    ensures Tokenize("-" + ("7" + "")) ==
            [Token(Operator, "-")] + ([Token(Number, "7")] + [])
  {
    NegativeIntegerStep0();
    NegativeIntegerStep1();
  }

  lemma NegativeIntegerStep0()
    ensures Lex("-" + ("7" + ""), Lexer([], None, false, false)) ==
            [Token(Operator, "-")] + Lex("7" + "", Lexer([], Some(Operator), false, false))
  {
    var r2 := "";
    var r1 := "7" + r2;
    var r0 := "-" + r1;
    CodeOperator("-", r1, Lexer([], None, false, false));
    LexOne("-", r1, Lexer([], None, false, false), Token(Operator, "-"), Lexer([], Some(Operator), false, false));
  }

  lemma NegativeIntegerStep1()
    ensures Lex("7" + "", Lexer([], Some(Operator), false, false)) ==
            [Token(Number, "7")] + Lex("", Lexer([], Some(Number), false, false))
  {
    var r2 := "";
    var r1 := "7" + r2;
    CodeNumber("7", r2, 1, 1, Lexer([], Some(Operator), false, false));
    LexOne("7", r2, Lexer([], Some(Operator), false, false), Token(Number, "7"), Lexer([], Some(Number), false, false));
  }

  // SwiftFormatTests/TokenizerTests.swift:270-274
  lemma SmallFloat()
    ensures Tokenize("0.2" + "") ==
            [Token(Number, "0.2")] + []
  {
    SmallFloatStep0();
  }

  lemma SmallFloatStep0()
    ensures Lex("0.2" + "", Lexer([], None, false, false)) ==
            [Token(Number, "0.2")] + Lex("", Lexer([], Some(Number), false, false))
  {
    var r1 := "";
    var r0 := "0.2" + r1;
    CodeNumber("0.2", r1, 1, 3, Lexer([], None, false, false));
    LexOne("0.2", r1, Lexer([], None, false, false), Token(Number, "0.2"), Lexer([], Some(Number), false, false));
  }

  // SwiftFormatTests/TokenizerTests.swift:276-280
  lemma LargeFloat()
    ensures Tokenize("1234.567890" + "") ==
            [Token(Number, "1234.567890")] + []
  {
    LargeFloatStep0();
  }

  lemma LargeFloatStep0()
    ensures Lex("1234.567890" + "", Lexer([], None, false, false)) ==
            [Token(Number, "1234.567890")] + Lex("", Lexer([], Some(Number), false, false))
  {
    var r1 := "";
    var r0 := "1234.567890" + r1;
    CodeNumber("1234.567890", r1, 4, 11, Lexer([], None, false, false));
    LexOne("1234.567890", r1, Lexer([], None, false, false), Token(Number, "1234.567890"), Lexer([], Some(Number), false, false));
  }

  // SwiftFormatTests/TokenizerTests.swift:282-289
  lemma NegativeFloat()
    ensures Tokenize("-" + ("0.34" + "")) ==
            [Token(Operator, "-")] + ([Token(Number, "0.34")] + [])
  {
    NegativeFloatStep0();
    NegativeFloatStep1();
  }

  lemma NegativeFloatStep0()
    ensures Lex("-" + ("0.34" + ""), Lexer([], None, false, false)) ==
            [Token(Operator, "-")] + Lex("0.34" + "", Lexer([], Some(Operator), false, false))
  {
    var r2 := "";
    var r1 := "0.34" + r2;
    var r0 := "-" + r1;
    CodeOperator("-", r1, Lexer([], None, false, false));
    LexOne("-", r1, Lexer([], None, false, false), Token(Operator, "-"), Lexer([], Some(Operator), false, false));
  }

  lemma NegativeFloatStep1()
    ensures Lex("0.34" + "", Lexer([], Some(Operator), false, false)) ==
            [Token(Number, "0.34")] + Lex("", Lexer([], Some(Number), false, false))
  {
    var r2 := "";
    var r1 := "0.34" + r2;
    CodeNumber("0.34", r2, 1, 4, Lexer([], Some(Operator), false, false));
    LexOne("0.34", r2, Lexer([], Some(Operator), false, false), Token(Number, "0.34"), Lexer([], Some(Number), false, false));
  }

  // SwiftFormatTests/TokenizerTests.swift:291-295
  lemma Exponential()
    ensures Tokenize("1234e5" + "") ==
            [Token(Number, "1234e5")] + []
  {
    ExponentialStep0();
  }

  lemma ExponentialStep0()
    ensures Lex("1234e5" + "", Lexer([], None, false, false)) ==
            [Token(Number, "1234e5")] + Lex("", Lexer([], Some(Number), false, false))
  {
    var r1 := "";
    var r0 := "1234e5" + r1;
    CodeNumber("1234e5", r1, 4, 4, Lexer([], None, false, false));
    LexOne("1234e5", r1, Lexer([], None, false, false), Token(Number, "1234e5"), Lexer([], Some(Number), false, false));
  }

  // SwiftFormatTests/TokenizerTests.swift:297-301
  lemma PositiveExponential()
    ensures Tokenize("0.123e+4" + "") ==
            [Token(Number, "0.123e+4")] + []
  {
    PositiveExponentialStep0();
  }

  lemma PositiveExponentialStep0()
    ensures Lex("0.123e+4" + "", Lexer([], None, false, false)) ==
            [Token(Number, "0.123e+4")] + Lex("", Lexer([], Some(Number), false, false))
  {
    var r1 := "";
    var r0 := "0.123e+4" + r1;
    CodeNumber("0.123e+4", r1, 1, 5, Lexer([], None, false, false));
    LexOne("0.123e+4", r1, Lexer([], None, false, false), Token(Number, "0.123e+4"), Lexer([], Some(Number), false, false));
  }

  // SwiftFormatTests/TokenizerTests.swift:303-307
  lemma NegativeExponential()
    ensures Tokenize("0.123e-4" + "") ==
            [Token(Number, "0.123e-4")] + []
  {
    NegativeExponentialStep0();
  }

  lemma NegativeExponentialStep0()
    ensures Lex("0.123e-4" + "", Lexer([], None, false, false)) ==
            [Token(Number, "0.123e-4")] + Lex("", Lexer([], Some(Number), false, false))
  {
    var r1 := "";
    var r0 := "0.123e-4" + r1;
    CodeNumber("0.123e-4", r1, 1, 5, Lexer([], None, false, false));
    LexOne("0.123e-4", r1, Lexer([], None, false, false), Token(Number, "0.123e-4"), Lexer([], Some(Number), false, false));
  }

  // SwiftFormatTests/TokenizerTests.swift:309-313
  lemma CapitalExponential()
    ensures Tokenize("0.123E-4" + "") ==
            [Token(Number, "0.123E-4")] + []
  {
    CapitalExponentialStep0();
  }

  lemma CapitalExponentialStep0()
    ensures Lex("0.123E-4" + "", Lexer([], None, false, false)) ==
            [Token(Number, "0.123E-4")] + Lex("", Lexer([], Some(Number), false, false))
  {
    var r1 := "";
    var r0 := "0.123E-4" + r1;
    CodeNumber("0.123E-4", r1, 1, 5, Lexer([], None, false, false));
    LexOne("0.123E-4", r1, Lexer([], None, false, false), Token(Number, "0.123E-4"), Lexer([], Some(Number), false, false));
  }
}
