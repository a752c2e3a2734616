/**
 * The tokenizer's expected output for whitespace, one lemma per test case
 * of SwiftFormatTests/TokenizerTests.swift.  Each input and each expected
 * token list is written as a right-nested concatenation, one piece per token,
 * so that the proof can take the tokens one at a time: lemma <Case>Step<k>
 * scans token k, <Case>From<k> joins a group of eight scans, and
 * <Case>Probe<k> settles the lookahead for a `<` at token k.
 */
module WhitespaceTests {
  import opened Wrappers
  import opened Tokenizer
  import opened Scanning
  import opened Steps

  // SwiftFormatTests/TokenizerTests.swift:45-51
  lemma Spaces()
    ensures Tokenize("    " + "") ==
            [Token(Whitespace, "    ")] + []
  {
    SpacesStep0();
  }

  lemma SpacesStep0()
    ensures Lex("    " + "", Lexer([], None, false, false)) ==
            [Token(Whitespace, "    ")] + Lex("", Lexer([], Some(Whitespace), false, false))
  {
    var r1 := "";
    var r0 := "    " + r1;
    WhitespaceToken("    ", r1, Lexer([], None, false, false));
    LexOne("    ", r1, Lexer([], None, false, false), Token(Whitespace, "    "), Lexer([], Some(Whitespace), false, false));
  }

  // SwiftFormatTests/TokenizerTests.swift:53-59
  lemma SpacesAndTabs()
    ensures Tokenize("  \t  \t" + "") ==
            [Token(Whitespace, "  \t  \t")] + []
  {
    SpacesAndTabsStep0();
  }

  lemma SpacesAndTabsStep0()
    ensures Lex("  \t  \t" + "", Lexer([], None, false, false)) ==
            [Token(Whitespace, "  \t  \t")] + Lex("", Lexer([], Some(Whitespace), false, false))
  {
    var r1 := "";
    var r0 := "  \t  \t" + r1;
    WhitespaceToken("  \t  \t", r1, Lexer([], None, false, false));
    LexOne("  \t  \t", r1, Lexer([], None, false, false), Token(Whitespace, "  \t  \t"), Lexer([], Some(Whitespace), false, false));
  }
}
