/**
 * The tokenizer's expected output for identifiers, one lemma per test case
 * of SwiftFormatTests/TokenizerTests.swift.  Each input and each expected
 * token list is written as a right-nested concatenation, one piece per token,
 * so that the proof can take the tokens one at a time: lemma <Case>Step<k>
 * scans token k, <Case>From<k> joins a group of eight scans, and
 * <Case>Probe<k> settles the lookahead for a `<` at token k.
 */
module IdentifierTests {
  import opened Wrappers
  import opened Tokenizer
  import opened Scanning
  import opened Steps

  // SwiftFormatTests/TokenizerTests.swift:317-321
  lemma Foo()
    ensures Tokenize("foo" + "") ==
            [Token(Identifier, "foo")] + []
  {
    FooStep0();
  }

  lemma FooStep0()
    ensures Lex("foo" + "", Lexer([], None, false, false)) ==
            [Token(Identifier, "foo")] + Lex("", Lexer([], Some(Identifier), false, false))
  {
    var r1 := "";
    var r0 := "foo" + r1;
    CodeIdentifier("foo", r1, Lexer([], None, false, false));
    LexOne("foo", r1, Lexer([], None, false, false), Token(Identifier, "foo"), Lexer([], Some(Identifier), false, false));
  }

  // SwiftFormatTests/TokenizerTests.swift:323-327
  lemma Dollar0()
    ensures Tokenize("$0" + "") ==
            [Token(Identifier, "$0")] + []
  {
    Dollar0Step0();
  }

  lemma Dollar0Step0()
    ensures Lex("$0" + "", Lexer([], None, false, false)) ==
            [Token(Identifier, "$0")] + Lex("", Lexer([], Some(Identifier), false, false))
  {
    var r1 := "";
    var r0 := "$0" + r1;
    CodeIdentifier("$0", r1, Lexer([], None, false, false));
    LexOne("$0", r1, Lexer([], None, false, false), Token(Identifier, "$0"), Lexer([], Some(Identifier), false, false));
  }

  // SwiftFormatTests/TokenizerTests.swift:329-334
  lemma Dollar()
    ensures Tokenize("$" + "") ==
            [Token(Identifier, "$")] + []
  {
    DollarStep0();
  }

  lemma DollarStep0()
    ensures Lex("$" + "", Lexer([], None, false, false)) ==
            [Token(Identifier, "$")] + Lex("", Lexer([], Some(Identifier), false, false))
  {
    var r1 := "";
    var r0 := "$" + r1;
    CodeIdentifier("$", r1, Lexer([], None, false, false));
    LexOne("$", r1, Lexer([], None, false, false), Token(Identifier, "$"), Lexer([], Some(Identifier), false, false));
  }

  // SwiftFormatTests/TokenizerTests.swift:336-340
  lemma FooDollar()
    ensures Tokenize("foo$" + "") ==
            [Token(Identifier, "foo$")] + []
  {
    FooDollarStep0();
  }

  lemma FooDollarStep0()
    ensures Lex("foo$" + "", Lexer([], None, false, false)) ==
            [Token(Identifier, "foo$")] + Lex("", Lexer([], Some(Identifier), false, false))
  {
    var r1 := "";
    var r0 := "foo$" + r1;
    CodeIdentifier("foo$", r1, Lexer([], None, false, false));
    LexOne("foo$", r1, Lexer([], None, false, false), Token(Identifier, "foo$"), Lexer([], Some(Identifier), false, false));
  }

  // SwiftFormatTests/TokenizerTests.swift:342-346
  lemma Underscore()
    ensures Tokenize("_" + "") ==
            [Token(Identifier, "_")] + []
  {
    UnderscoreStep0();
  }

  lemma UnderscoreStep0()
    ensures Lex("_" + "", Lexer([], None, false, false)) ==
            [Token(Identifier, "_")] + Lex("", Lexer([], Some(Identifier), false, false))
  {
    var r1 := "";
    var r0 := "_" + r1;
    CodeIdentifier("_", r1, Lexer([], None, false, false));
    LexOne("_", r1, Lexer([], None, false, false), Token(Identifier, "_"), Lexer([], Some(Identifier), false, false));
  }

  // SwiftFormatTests/TokenizerTests.swift:348-352
  lemma UnderscoreFoo()
    ensures Tokenize("_foo" + "") ==
            [Token(Identifier, "_foo")] + []
  {
    UnderscoreFooStep0();
  }

  lemma UnderscoreFooStep0()
    ensures Lex("_foo" + "", Lexer([], None, false, false)) ==
            [Token(Identifier, "_foo")] + Lex("", Lexer([], Some(Identifier), false, false))
  {
    var r1 := "";
    var r0 := "_foo" + r1;
    CodeIdentifier("_foo", r1, Lexer([], None, false, false));
    LexOne("_foo", r1, Lexer([], None, false, false), Token(Identifier, "_foo"), Lexer([], Some(Identifier), false, false));
  }

  // SwiftFormatTests/TokenizerTests.swift:354-358
  lemma Foo_bar()
    ensures Tokenize("foo_bar" + "") ==
            [Token(Identifier, "foo_bar")] + []
  {
    Foo_barStep0();
  }

  lemma Foo_barStep0()
    ensures Lex("foo_bar" + "", Lexer([], None, false, false)) ==
            [Token(Identifier, "foo_bar")] + Lex("", Lexer([], Some(Identifier), false, false))
  {
    var r1 := "";
    var r0 := "foo_bar" + r1;
    CodeIdentifier("foo_bar", r1, Lexer([], None, false, false));
    LexOne("foo_bar", r1, Lexer([], None, false, false), Token(Identifier, "foo_bar"), Lexer([], Some(Identifier), false, false));
  }

  // SwiftFormatTests/TokenizerTests.swift:360-364
  lemma AtFoo()
    ensures Tokenize("@foo" + "") ==
            [Token(Identifier, "@foo")] + []
  {
    AtFooStep0();
  }

  lemma AtFooStep0()
    ensures Lex("@foo" + "", Lexer([], None, false, false)) ==
            [Token(Identifier, "@foo")] + Lex("", Lexer([], Some(Identifier), false, false))
  {
    var r1 := "";
    var r0 := "@foo" + r1;
    CodeIdentifier("@foo", r1, Lexer([], None, false, false));
    LexOne("@foo", r1, Lexer([], None, false, false), Token(Identifier, "@foo"), Lexer([], Some(Identifier), false, false));
  }

  // SwiftFormatTests/TokenizerTests.swift:366-370
  lemma HashFoo()
    ensures Tokenize("#foo" + "") ==
            [Token(Identifier, "#foo")] + []
  {
    HashFooStep0();
  }

  lemma HashFooStep0()
    ensures Lex("#foo" + "", Lexer([], None, false, false)) ==
            [Token(Identifier, "#foo")] + Lex("", Lexer([], Some(Identifier), false, false))
  {
    var r1 := "";
    var r0 := "#foo" + r1;
    CodeIdentifier("#foo", r1, Lexer([], None, false, false));
    LexOne("#foo", r1, Lexer([], None, false, false), Token(Identifier, "#foo"), Lexer([], Some(Identifier), false, false));
  }

  // SwiftFormatTests/TokenizerTests.swift:372-376
  lemma Unicode()
    ensures Tokenize("\U{B5}sec" + "") ==
            [Token(Identifier, "\U{B5}sec")] + []
  {
    UnicodeStep0();
  }

  lemma UnicodeStep0()
    ensures Lex("\U{B5}sec" + "", Lexer([], None, false, false)) ==
            [Token(Identifier, "\U{B5}sec")] + Lex("", Lexer([], Some(Identifier), false, false))
  {
    var r1 := "";
    var r0 := "\U{B5}sec" + r1;
    CodeIdentifier("\U{B5}sec", r1, Lexer([], None, false, false));
    LexOne("\U{B5}sec", r1, Lexer([], None, false, false), Token(Identifier, "\U{B5}sec"), Lexer([], Some(Identifier), false, false));
  }

  // SwiftFormatTests/TokenizerTests.swift:378-382
  lemma Emoji()
    ensures Tokenize("\U{1F4A9}" + "") ==
            [Token(Identifier, "\U{1F4A9}")] + []
  {
    EmojiStep0();
  }

  lemma EmojiStep0()
    ensures Lex("\U{1F4A9}" + "", Lexer([], None, false, false)) ==
            [Token(Identifier, "\U{1F4A9}")] + Lex("", Lexer([], Some(Identifier), false, false))
  {
    var r1 := "";
    var r0 := "\U{1F4A9}" + r1;
    CodeIdentifier("\U{1F4A9}", r1, Lexer([], None, false, false));
    LexOne("\U{1F4A9}", r1, Lexer([], None, false, false), Token(Identifier, "\U{1F4A9}"), Lexer([], Some(Identifier), false, false));
  }

  // SwiftFormatTests/TokenizerTests.swift:384-388
  lemma BacktickEscapedClass()
    ensures Tokenize("`class`" + "") ==
            [Token(Identifier, "`class`")] + []
  {
    BacktickEscapedClassStep0();
  }

  lemma BacktickEscapedClassStep0()
    ensures Lex("`class`" + "", Lexer([], None, false, false)) ==
            [Token(Identifier, "`class`")] + Lex("", Lexer([], Some(Identifier), false, false))
  {
    var r1 := "";
    var r0 := "`class`" + r1;
    CodeIdentifier("`class`", r1, Lexer([], None, false, false));
    LexOne("`class`", r1, Lexer([], None, false, false), Token(Identifier, "`class`"), Lexer([], Some(Identifier), false, false));
  }
}
