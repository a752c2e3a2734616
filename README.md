# SwiftFormat: tokenizer and command line, in Dafny

This project models two parts of SwiftFormat, a formatter for Swift source.

**The tokenizer.** `Tokenizer.Tokenize` turns a text into a flat list of tokens. Each token is a kind and the
exact text it covers. The kinds are whitespace, linebreak, identifier, number, operator, string body,
comment body, start of scope and end of scope.

- It is one left-to-right pass. It carries a stack of open scopes:
  - strings and their `\(` interpolations;
  - line and nested block comments;
  - `(`, `[`, and `{` (which remembers whether it is a switch body);
  - the speculative `<` of a generic.
- A `<` right after an identifier opens a generic scope only when a lookahead (`Tokenizer.Probe`) finds a
  type-argument list closed by `>`. When it does not, the `<` is read again as an operator. That re-read is
  the rollback.
- Inside a switch body `case` and `default` close the previous case, and the `:` after the label opens the
  next one. Inside an enum's braces `case` stays an identifier.

**The command line.** `Arguments.PreprocessArguments` is the argument preprocessor of the command-line tool. It
is a loop that turns the arguments into a map from option names to values, or fails on an unknown or
ambiguous argument. It is proved to compute `Arguments.Preprocess`, a fold of `Arguments.ArgStep` over the
arguments. `CommandLine.ProcessArguments` decides what the tool does next: help, version, an error, or
formatting with the decoded indent, linebreak and semicolon options.

Files:
- `wrappers.dfy`, `chars.dfy`: option and result types, character classes.
- `tokenizer.dfy`: the token model and the scanner.
- `scanning.dfy`: lemmas that compute the scanner's runs on a concatenation.
- `steps.dfy`: one lemma per branch of `Tokenizer.Step`.
- `properties.dfy`: the tokenizer's general properties (round trip, token shapes, maximal runs, scope decisions).
- `type_arguments.dfy`: a grammar of type-argument lists, proved to be exactly what the generic lookahead accepts.
- `tests_*.dfy`: the tokenizer tests, one lemma each.
- `decimal.dfy`, `arguments.dfy`, `command_line.dfy`: the command-line tool.

**How the tests are written.** Every test of `SwiftFormatTests/TokenizerTests.swift` is a lemma stating that
`Tokenize` of the test's input is exactly its expected token list. The input and the expected list are written
as right-nested concatenations, one piece per token (`"a" + ("<" + ("b" + ""))`). One step of the scanner can
then be stated on the front piece:
- `<Test>Step<k>` says that token k is the first token of the rest;
- `<Test>From<k>` chains eight steps;
- `<Test>Probe<k>` states the outcome of the generic lookahead at token k.

## Model

| member | source | states |
|---|---|---|
| `TokenizerProperties.TokenizeRoundTrip` | SwiftFormatTests/TokenizerTests.swift:45-59 | the concatenated texts of the tokens of any text are that text: the tokenizer loses and adds nothing |
| `TokenizerProperties.LexRoundTrip` | SwiftFormatTests/TokenizerTests.swift:985-1016 | the round trip from any scanner state, so also inside strings, comments, generics and switch bodies |
| `TokenizerProperties.LexWellFormed` | SwiftFormatTests/TokenizerTests.swift:243-313 | every token has the form of its kind: a Number is digits with an optional `.digits` and an `e`/`E` exponent with an optional sign, an Operator contains `.` only when it starts with one, scope tokens are the listed openers and closers |
| `TokenizerProperties.LexSeparated` | SwiftFormatTests/TokenizerTests.swift:45-59 | a token is never followed by what would have extended it: whitespace by a space or tab, a number by a digit, a plain identifier by an identifier character, a `\r` linebreak by `\n` |
| `TokenizerProperties.MaximalRuns` | SwiftFormatTests/TokenizerTests.swift:1020-1048 | no two adjacent Whitespace tokens, no two adjacent Number tokens, and `\r\n` is never split into two Linebreak tokens |
| `TokenizerProperties.NumberShapeOf` | SwiftFormatTests/TokenizerTests.swift:243-313 | the number scanner takes an integer part, an optional fraction and an optional exponent with sign, and stops before a digit is left over |
| `TokenizerProperties.OperatorShape` | SwiftFormatTests/TokenizerTests.swift:470-483 | an operator run taken from code is a well-formed operator: only a leading `.` allows dots after it |
| `TokenizerProperties.OperatorRunShape` | SwiftFormatTests/TokenizerTests.swift:441-468 | an operator run stops where a comment opens, and is maximal otherwise |
| `TokenizerProperties.StringBodyShape` | SwiftFormatTests/TokenizerTests.swift:82-123 | a string body is a run of ordinary characters and complete escapes; it ends at the end of the text, before the closing quote, or after a dangling backslash when a `(` follows (an interpolation) |
| `TokenizerProperties.StringStepWellFormed` | SwiftFormatTests/TokenizerTests.swift:63-123 | inside a string every token is well formed and is a StringBody, an EndOfScope or a StartOfScope; it is the EndOfScope `"` exactly at a quote, and the StartOfScope `(` exactly at a `(` right after a body |
| `TokenizerProperties.LineCommentTokens` | SwiftFormatTests/TokenizerTests.swift:127-156 | inside a line comment the tokens are whitespace, comment words and linebreaks; a linebreak ends the comment without an EndOfScope token |
| `TokenizerProperties.BlockCommentTokens` | SwiftFormatTests/TokenizerTests.swift:160-239 | inside a block comment every opener is a StartOfScope that pushes a frame and every closer an EndOfScope that pops one, so nesting is balanced; other tokens are whitespace, linebreaks and comment words |
| `TokenizerProperties.ChevronDecision` | SwiftFormatTests/TokenizerTests.swift:487-551 | a `<` in code opens a generic scope exactly when the lookahead succeeds; otherwise it is an Operator and no scope is pushed |
| `TokenizerProperties.CaseLabelDecision` | SwiftFormatTests/TokenizerTests.swift:922-1016 | `case` and `default` are EndOfScope exactly when the innermost scope is a switch body, and Identifier otherwise |
| `TokenizerProperties.LinebreakShape` | SwiftFormatTests/TokenizerTests.swift:1020-1048 | a linebreak token is `\n`, `\r\n`, or a `\r` not followed by `\n` |
| `TokenizerProperties.IdentifierShape` | SwiftFormatTests/TokenizerTests.swift:317-388 | an identifier is a head character and identifier characters, or a backtick-escaped word, and is maximal |
| `TokenizerProperties.SpaceRunShape` | SwiftFormatTests/TokenizerTests.swift:45-59 | the whitespace scanner takes only spaces and tabs and stops at the first other character |
| `Steps.CodeStringOpen` | SwiftFormatTests/TokenizerTests.swift:63-70 | a quote in code is StartOfScope and pushes a string scope |
| `Steps.StringClose` | SwiftFormatTests/TokenizerTests.swift:63-80 | the closing quote is EndOfScope and pops the string scope |
| `Steps.StringInterpolation` | SwiftFormatTests/TokenizerTests.swift:102-113 | the `(` after a body that stopped at a backslash opens an interpolation scanned as code, closed by EndOfScope `)` |
| `Steps.StringBodyOf` | SwiftFormatTests/TokenizerTests.swift:82-100 | any run of ordinary characters and complete escapes, ending where a body ends, is one StringBody token with its escapes kept verbatim |
| `Scanning.StringBodyLenOf` | SwiftFormatTests/TokenizerTests.swift:82-123 | the string-body scanner takes exactly such a run in front of the closing quote, of an interpolation's `(`, or of the end of the text |
| `Steps.CodeCommentOpen` | SwiftFormatTests/TokenizerTests.swift:127-168 | `//` and the block-comment opener are StartOfScope and push their comment scope |
| `Steps.LineCommentEnd` | SwiftFormatTests/TokenizerTests.swift:147-156 | a linebreak ends a line comment and emits no EndOfScope |
| `Steps.BlockCommentNest` | SwiftFormatTests/TokenizerTests.swift:207-219 | an opener inside a block comment is StartOfScope and pushes another frame |
| `Steps.BlockCommentClose` | SwiftFormatTests/TokenizerTests.swift:207-239 | a closer inside a block comment is EndOfScope and pops one frame |
| `Steps.BlockCommentLinebreak` | SwiftFormatTests/TokenizerTests.swift:1062-1072 | a linebreak inside a block comment is its own token and closes nothing |
| `Steps.CodeLinebreak` | SwiftFormatTests/TokenizerTests.swift:1020-1048 | `\n`, `\r\n` and a lone `\r` are each one Linebreak token |
| `Steps.WhitespaceToken` | SwiftFormatTests/TokenizerTests.swift:45-59 | a maximal run of spaces and tabs is one Whitespace token |
| `Steps.CodeNumber` | SwiftFormatTests/TokenizerTests.swift:243-313 | a digit starts one Number token that takes the whole numeral |
| `Steps.CodeOperator` | SwiftFormatTests/TokenizerTests.swift:392-483 | an operator character starts one Operator token that takes the maximal run |
| `Steps.CodeIdentifier` | SwiftFormatTests/TokenizerTests.swift:317-388 | a maximal identifier is one Identifier token |
| `Steps.CodeGenericOpen` | SwiftFormatTests/TokenizerTests.swift:553-579 | after an identifier, a `<` whose lookahead succeeds is StartOfScope and pushes a generic scope |
| `Steps.CodeGenericClose` | SwiftFormatTests/TokenizerTests.swift:567-579 | inside a generic scope each `>` is its own EndOfScope and pops one level |
| `Steps.CodeBraceOpen` | SwiftFormatTests/TokenizerTests.swift:985-1016 | a `{` opens a brace that is a switch body exactly when `switch` came before it |
| `Steps.CodeCaseLabel` | SwiftFormatTests/TokenizerTests.swift:985-1016 | directly inside a switch body `case` and `default` are EndOfScope |
| `Steps.CodeCaseColon` | SwiftFormatTests/TokenizerTests.swift:985-1016 | the `:` ending a case label in a switch body is StartOfScope |
| `Steps.CodeClose` | SwiftFormatTests/TokenizerTests.swift:553-565 | a closer matching the innermost scope is EndOfScope and pops it |
| `Steps.ProbeChevronFails` | SwiftFormatTests/TokenizerTests.swift:503-551 | the lookahead fails at a run of `>` longer than the generic levels it could close, or at a `>` followed by an identifier or digit |
| `Steps.ProbeStop` | SwiftFormatTests/TokenizerTests.swift:581-592 | the lookahead fails at any character a type-argument list cannot contain |
| `TypeArguments.ProbeReads` | SwiftFormatTests/TokenizerTests.swift:553-579 | the lookahead reads a whole type-argument list and decides on what follows it as if the list were not there |
| `TypeArguments.ProbeAccepts` | SwiftFormatTests/TokenizerTests.swift:553-579 | the lookahead succeeds on every type-argument list (names, separators, balanced `< >`, `( )`, `[ ]`) closed by a `>` that no word follows and whose `>` run fits the open generic levels |
| `TypeArguments.ProbeFinds` | SwiftFormatTests/TokenizerTests.swift:581-740 | every success of the lookahead reads such a type-argument list closed by `>` |
| `TypeArguments.ColonOnlyInBrackets` | SwiftFormatTests/TokenizerTests.swift:581-592 | a `:` continues the lookahead exactly when the innermost open bracket is `[`, so a ternary's `:` ends it |
| `TypeArguments.GenericOpensList` | SwiftFormatTests/TokenizerTests.swift:553-858 | a `<` opens a generic scope exactly when it follows an identifier and a type-argument list closed by `>` follows it |
| `Decimal.ParseNatToString` | CommandLineTool/main.swift:113 | the anonymous key written for a count reads back as that count |
| `Decimal.NatToStringInjective` | CommandLineTool/main.swift:111-115 | distinct counts give distinct anonymous keys, in both directions |
| `Arguments.Matches` | CommandLineTool/main.swift:99 | a name is among the matches exactly when it is an option name with the flag as prefix |
| `Arguments.PreprocessArguments` | CommandLineTool/main.swift:81-141 | the loop over the arguments computes `Preprocess`: the values map, or the first unknown or ambiguous argument |
| `Arguments.RunErrorStays` | CommandLineTool/main.swift:87-109 | once an argument is refused, the whole result is that refusal |
| `Arguments.LongName` | CommandLineTool/main.swift:87-95 | `--key` is refused exactly when key is not an option name; otherwise the key gets the empty value and takes the values after it |
| `Arguments.ShortName` | CommandLineTool/main.swift:96-109 | `-flag` is accepted exactly when one name has the flag as prefix; it then selects that name, gives it the empty value and leaves the count and the quote state as they were; two such names make it ambiguous |
| `Arguments.AnonymousValue` | CommandLineTool/main.swift:111-115 | a value with no option pending is stored under the next anonymous key and advances the count |
| `Arguments.AnonymousStep` | CommandLineTool/main.swift:111-137 | one more plain value keeps exactly the keys "0" to n-1, each holding its argument |
| `Arguments.AnonymousKeys` | CommandLineTool/main.swift:111-137 | plain arguments alone land under "0", "1", ... in order, and nothing else is stored |
| `Arguments.OptionValue` | CommandLineTool/main.swift:134-137 | a plain value after an option is appended to it, and the option is done |
| `Arguments.QuoteOpens` | CommandLineTool/main.swift:111-137 | outside a quote an argument starting with a quote opens a quoted, unescaped value under the pending option or, with none pending, under the next anonymous key, and keeps that key for the next argument |
| `Arguments.QuoteContinues` | CommandLineTool/main.swift:111-137 | inside a quote an argument not ending in a quote is unescaped and appended to the pending option or, with none pending, to the next anonymous key, and the quote stays open |
| `Arguments.QuoteCloses` | CommandLineTool/main.swift:111-137 | inside a quote an argument ending in a quote closes it and loses that quote; it goes to the pending option or, with none pending, to the next anonymous key |
| `Arguments.TrailingBackslash` | CommandLineTool/main.swift:111-137 | outside a quote a trailing backslash becomes a space, the value goes to the pending option or the next anonymous key, and no option stays pending |
| `Arguments.UnescapeQuote` | CommandLineTool/main.swift:131-133 | a backslash-quote at the front is replaced by a quote |
| `Arguments.UnescapeAppend` | CommandLineTool/main.swift:131-133 | unescaping works piece by piece: a text not ending in a backslash unescapes the same whatever follows, so every backslash-quote becomes a quote |
| `Arguments.UnescapeEscape` | CommandLineTool/main.swift:131-133 | unescaping undoes writing each quote as a backslash-quote, for every text |
| `Arguments.QuoteSpan` | CommandLineTool/main.swift:117-137 | only the opening argument keeps the option: a third argument of the same quote goes to a new anonymous key, unescaped while the quote stays open, or closing it and losing its quote |
| `CommandLine.SwiftIntOfNumeral` | CommandLineTool/main.swift:200 | `Int` reads back every numeral within the 64-bit range, with or without sign, and refuses a larger one |
| `CommandLine.SwiftIntShape` | CommandLineTool/main.swift:200 | a value read as an `Int` is a signed numeral within the 64-bit range |
| `CommandLine.RunNoDash` | CommandLineTool/main.swift:86-139 | no preprocessed value starts with `-`, since such an argument is taken as an option name |
| `CommandLine.SwiftIntNonNegative` | CommandLineTool/main.swift:200-201 | a value not starting with `-` is never a negative count, so `String(count:)` never traps |
| `CommandLine.IndentDecoding` | CommandLineTool/main.swift:195-207 | tab exactly for "tab"/"tabs" in any case, n spaces exactly when `Int` reads n, otherwise the unsupported-indent error |
| `CommandLine.IndentWidth` | CommandLineTool/main.swift:200-202 | every width up to `Int.max` written out gives that many spaces |
| `CommandLine.SemicolonsDecoding` | CommandLineTool/main.swift:208-218 | "inline" exactly gives true, "never" exactly gives false, anything else the unsupported-semicolons error |
| `CommandLine.LinebreaksDecoding` | CommandLineTool/main.swift:219-231 | a decoded linebreak is `\r`, `\n` or `\r\n` and its name is the lower-cased value; each is decoded from its name |
| `CommandLine.CaseInsensitive` | CommandLineTool/main.swift:208-231 | a semicolons or linebreaks value and its lower-case form decode alike |
| `CommandLine.IndentCaseInsensitive` | CommandLineTool/main.swift:195-207 | an indent value and its lower-case form decode alike, since lower-casing changes no sign or digit |
| `CommandLine.ConfigureOutcome` | CommandLineTool/main.swift:193-231 | the options are the decoded values or the defaults; the first value, in the order indent, semicolons, linebreaks, that does not decode is the error, so a bad linebreaks value after good ones (or none) gives the unsupported-linebreaks error |
| `CommandLine.CommandOutcome` | CommandLineTool/main.swift:165-191 | a refused argument stops the tool; help is shown exactly when `--help` is given, version when `--version` is given without it; an option that does not decode gives that decoding error, and otherwise the tool formats with input anonymous argument "1" and output `--output` or else the input |
| `CommandLine.InPlace` | CommandLineTool/main.swift:189-191 | `swiftformat file` formats the file in place with the default options: the input is the path and the output defaults to it |
| `CommandLine.NoInput` | CommandLineTool/main.swift:189-191 | with no path the input and the output are both absent |
| `WhitespaceTests.Spaces` | SwiftFormatTests/TokenizerTests.swift:45-51 | the input `"    "` tokenizes to exactly the test's expected token list |
| `WhitespaceTests.SpacesAndTabs` | SwiftFormatTests/TokenizerTests.swift:53-59 | the input `"  \t  \t"` tokenizes to exactly the test's expected token list |
| `StringTests.EmptyString` | SwiftFormatTests/TokenizerTests.swift:63-70 | the input `"\"\""` tokenizes to exactly the test's expected token list |
| `StringTests.SimpleString` | SwiftFormatTests/TokenizerTests.swift:72-80 | the input `"\"foo\""` tokenizes to exactly the test's expected token list |
| `StringTests.StringWithEscape` | SwiftFormatTests/TokenizerTests.swift:82-90 | the input `"\"hello\\tworld\""` tokenizes to exactly the test's expected token list |
| `StringTests.StringWithEscapedQuotes` | SwiftFormatTests/TokenizerTests.swift:92-100 | the input `"\"\\\"nice\\\" to meet you\""` tokenizes to exactly the test's expected token list |
| `StringTests.StringWithEscapedLogic` | SwiftFormatTests/TokenizerTests.swift:102-113 | the input `"\"hello \\(name)\""` tokenizes to exactly the test's expected token list |
| `StringTests.StringWithEscapedBackslash` | SwiftFormatTests/TokenizerTests.swift:115-123 | the input `"\"\\\\\""` tokenizes to exactly the test's expected token list |
| `LineCommentTests.SingleLineComment` | SwiftFormatTests/TokenizerTests.swift:127-134 | the input `"//foo"` tokenizes to exactly the test's expected token list |
| `LineCommentTests.SingleLineCommentWithSpace` | SwiftFormatTests/TokenizerTests.swift:136-145 | the input `"// foo "` tokenizes to exactly the test's expected token list |
| `LineCommentTests.SingleLineCommentWithLinebreak` | SwiftFormatTests/TokenizerTests.swift:147-156 | the input `"//foo\nbar"` tokenizes to exactly the test's expected token list |
| `BlockCommentTests.SingleLineMultilineComment` | SwiftFormatTests/TokenizerTests.swift:160-168 | the input `"/*foo*/"` tokenizes to exactly the test's expected token list |
| `BlockCommentTests.SingleLineMultilineCommentWithSpace` | SwiftFormatTests/TokenizerTests.swift:170-180 | the input `"/* foo */"` tokenizes to exactly the test's expected token list |
| `BlockCommentTests.MultilineComment` | SwiftFormatTests/TokenizerTests.swift:182-192 | the input `"/*foo\nbar*/"` tokenizes to exactly the test's expected token list |
| `BlockCommentTests.MultilineCommentWithWhitespace` | SwiftFormatTests/TokenizerTests.swift:194-205 | the input `"/*foo\n  bar*/"` tokenizes to exactly the test's expected token list |
| `BlockCommentTests.NestedComments` | SwiftFormatTests/TokenizerTests.swift:207-219 | the input `"/*foo/*bar*/baz*/"` tokenizes to exactly the test's expected token list |
| `BlockCommentTests.NestedCommentsWithWhitespace` | SwiftFormatTests/TokenizerTests.swift:221-239 | the input `"/* foo /* bar */ baz */"` tokenizes to exactly the test's expected token list |
| `NumberTests.Zero` | SwiftFormatTests/TokenizerTests.swift:243-247 | the input `"0"` tokenizes to exactly the test's expected token list |
| `NumberTests.SmallInteger` | SwiftFormatTests/TokenizerTests.swift:249-253 | the input `"5"` tokenizes to exactly the test's expected token list |
| `NumberTests.LargeInteger` | SwiftFormatTests/TokenizerTests.swift:255-259 | the input `"12345678901234567890"` tokenizes to exactly the test's expected token list |
| `NumberTests.NegativeInteger` | SwiftFormatTests/TokenizerTests.swift:261-268 | the input `"-7"` tokenizes to exactly the test's expected token list |
| `NumberTests.SmallFloat` | SwiftFormatTests/TokenizerTests.swift:270-274 | the input `"0.2"` tokenizes to exactly the test's expected token list |
| `NumberTests.LargeFloat` | SwiftFormatTests/TokenizerTests.swift:276-280 | the input `"1234.567890"` tokenizes to exactly the test's expected token list |
| `NumberTests.NegativeFloat` | SwiftFormatTests/TokenizerTests.swift:282-289 | the input `"-0.34"` tokenizes to exactly the test's expected token list |
| `NumberTests.Exponential` | SwiftFormatTests/TokenizerTests.swift:291-295 | the input `"1234e5"` tokenizes to exactly the test's expected token list |
| `NumberTests.PositiveExponential` | SwiftFormatTests/TokenizerTests.swift:297-301 | the input `"0.123e+4"` tokenizes to exactly the test's expected token list |
| `NumberTests.NegativeExponential` | SwiftFormatTests/TokenizerTests.swift:303-307 | the input `"0.123e-4"` tokenizes to exactly the test's expected token list |
| `NumberTests.CapitalExponential` | SwiftFormatTests/TokenizerTests.swift:309-313 | the input `"0.123E-4"` tokenizes to exactly the test's expected token list |
| `IdentifierTests.Foo` | SwiftFormatTests/TokenizerTests.swift:317-321 | the input `"foo"` tokenizes to exactly the test's expected token list |
| `IdentifierTests.Dollar0` | SwiftFormatTests/TokenizerTests.swift:323-327 | the input `"$0"` tokenizes to exactly the test's expected token list |
| `IdentifierTests.Dollar` | SwiftFormatTests/TokenizerTests.swift:329-334 | the input `"$"` tokenizes to exactly the test's expected token list |
| `IdentifierTests.FooDollar` | SwiftFormatTests/TokenizerTests.swift:336-340 | the input `"foo$"` tokenizes to exactly the test's expected token list |
| `IdentifierTests.Underscore` | SwiftFormatTests/TokenizerTests.swift:342-346 | the input `"_"` tokenizes to exactly the test's expected token list |
| `IdentifierTests.UnderscoreFoo` | SwiftFormatTests/TokenizerTests.swift:348-352 | the input `"_foo"` tokenizes to exactly the test's expected token list |
| `IdentifierTests.Foo_bar` | SwiftFormatTests/TokenizerTests.swift:354-358 | the input `"foo_bar"` tokenizes to exactly the test's expected token list |
| `IdentifierTests.AtFoo` | SwiftFormatTests/TokenizerTests.swift:360-364 | the input `"@foo"` tokenizes to exactly the test's expected token list |
| `IdentifierTests.HashFoo` | SwiftFormatTests/TokenizerTests.swift:366-370 | the input `"#foo"` tokenizes to exactly the test's expected token list |
| `IdentifierTests.Unicode` | SwiftFormatTests/TokenizerTests.swift:372-376 | the input `"µsec"` tokenizes to exactly the test's expected token list |
| `IdentifierTests.Emoji` | SwiftFormatTests/TokenizerTests.swift:378-382 | the input `"💩"` tokenizes to exactly the test's expected token list |
| `IdentifierTests.BacktickEscapedClass` | SwiftFormatTests/TokenizerTests.swift:384-388 | the input `` "`class`" `` tokenizes to exactly the test's expected token list |
| `OperatorTests.BasicOperator` | SwiftFormatTests/TokenizerTests.swift:392-396 | the input `"+="` tokenizes to exactly the test's expected token list |
| `OperatorTests.Divide` | SwiftFormatTests/TokenizerTests.swift:398-408 | the input `"a / b"` tokenizes to exactly the test's expected token list |
| `OperatorTests.CustomOperator` | SwiftFormatTests/TokenizerTests.swift:410-414 | the input `"~="` tokenizes to exactly the test's expected token list |
| `OperatorTests.SequentialOperators` | SwiftFormatTests/TokenizerTests.swift:416-427 | the input `"a *= -b"` tokenizes to exactly the test's expected token list |
| `OperatorTests.DotPrefixedOperator` | SwiftFormatTests/TokenizerTests.swift:429-433 | the input `"..."` tokenizes to exactly the test's expected token list |
| `OperatorTests.UnicodeOperator` | SwiftFormatTests/TokenizerTests.swift:435-439 | the input `"≥"` tokenizes to exactly the test's expected token list |
| `OperatorTests.OperatorFollowedByComment` | SwiftFormatTests/TokenizerTests.swift:441-454 | the input `"a +/* b */"` tokenizes to exactly the test's expected token list |
| `OperatorTests.OperatorPrecededByComment` | SwiftFormatTests/TokenizerTests.swift:456-468 | the input `"/* a */-b"` tokenizes to exactly the test's expected token list |
| `OperatorTests.OperatorMayContainDotIfStartsWithDot` | SwiftFormatTests/TokenizerTests.swift:470-474 | the input `".*.."` tokenizes to exactly the test's expected token list |
| `OperatorTests.OperatorMayNotContainDotUnlessStartsWithDot` | SwiftFormatTests/TokenizerTests.swift:476-483 | the input `"*.."` tokenizes to exactly the test's expected token list |
| `ChevronTests.LessThanGreaterThan` | SwiftFormatTests/TokenizerTests.swift:487-501 | the input `"a<b == a>c"` tokenizes to exactly the test's expected token list |
| `ChevronTests.Bitshift` | SwiftFormatTests/TokenizerTests.swift:503-511 | the input `"a>>b"` tokenizes to exactly the test's expected token list |
| `ChevronTests.TripleShift` | SwiftFormatTests/TokenizerTests.swift:513-521 | the input `"a>>>b"` tokenizes to exactly the test's expected token list |
| `ChevronTests.TripleShiftEquals` | SwiftFormatTests/TokenizerTests.swift:523-531 | the input `"a>>=b"` tokenizes to exactly the test's expected token list |
| `ChevronTests.BitshiftThatLooksLikeAGeneric` | SwiftFormatTests/TokenizerTests.swift:533-551 | the input `"a<b, b<c, d>>e"` tokenizes to exactly the test's expected token list |
| `ChevronTests.BasicGeneric` | SwiftFormatTests/TokenizerTests.swift:553-565 | the input `"Foo<Bar, Baz>"` tokenizes to exactly the test's expected token list |
| `ChevronTests.NestedGenerics` | SwiftFormatTests/TokenizerTests.swift:567-579 | the input `"Foo<Bar<Baz>>"` tokenizes to exactly the test's expected token list |
| `ChevronTests.FunctionThatLooksLikeGenericType` | SwiftFormatTests/TokenizerTests.swift:581-592 | the input `"y<CGRectGetMaxY(r)"` tokenizes to exactly the test's expected token list |
| `ChevronTests.GenericClassDeclaration` | SwiftFormatTests/TokenizerTests.swift:594-610 | the input `"class Foo<T,U> {}"` tokenizes to exactly the test's expected token list |
| `ChevronTests.GenericSubclassDeclaration` | SwiftFormatTests/TokenizerTests.swift:612-628 | the input `"class Foo<T,U>: Bar"` tokenizes to exactly the test's expected token list |
| `ChevronTests.GenericFunctionDeclaration` | SwiftFormatTests/TokenizerTests.swift:630-646 | the input `"func foo<T>(bar:T)"` tokenizes to exactly the test's expected token list |
| `ChevronTests.GenericClassInit` | SwiftFormatTests/TokenizerTests.swift:648-665 | the input `"foo = Foo<Int,String>()"` tokenizes to exactly the test's expected token list |
| `ChevronTests.GenericFollowedByDot` | SwiftFormatTests/TokenizerTests.swift:667-680 | the input `"Foo<Bar>.baz()"` tokenizes to exactly the test's expected token list |
| `ChevronTests.ConstantThatLooksLikeGenericType` | SwiftFormatTests/TokenizerTests.swift:682-692 | the input `"(y<Pi)"` tokenizes to exactly the test's expected token list |
| `ChevronTests.TupleOfBoolsThatLooksLikeGeneric` | SwiftFormatTests/TokenizerTests.swift:694-708 | the input `"(Foo<T,U>V)"` tokenizes to exactly the test's expected token list |
| `ChevronTests.GenericClassInitThatLooksLikeTuple` | SwiftFormatTests/TokenizerTests.swift:710-726 | the input `"(Foo<String,Int>(Bar))"` tokenizes to exactly the test's expected token list |
| `ChevronTests.CustomChevronOperatorThatLooksLikeGeneric` | SwiftFormatTests/TokenizerTests.swift:728-740 | the input `"Foo<Bar,Baz>>>5"` tokenizes to exactly the test's expected token list |
| `ChevronTests.GenericAsFunctionType` | SwiftFormatTests/TokenizerTests.swift:742-755 | the input `"Foo<Bar,Baz>->Void"` tokenizes to exactly the test's expected token list |
| `ChevronTests.GenericContainingArrayType` | SwiftFormatTests/TokenizerTests.swift:757-770 | the input `"Foo<[Bar],Baz>"` tokenizes to exactly the test's expected token list |
| `ChevronTests.GenericContainingTupleType` | SwiftFormatTests/TokenizerTests.swift:772-785 | the input `"Foo<(Bar,Baz)>"` tokenizes to exactly the test's expected token list |
| `ChevronTests.GenericContainingArrayAndTupleType` | SwiftFormatTests/TokenizerTests.swift:787-802 | the input `"Foo<[Bar],(Baz)>"` tokenizes to exactly the test's expected token list |
| `ChevronTests.GenericFollowedByIn` | SwiftFormatTests/TokenizerTests.swift:804-817 | the input `"Foo<Bar,Baz> in"` tokenizes to exactly the test's expected token list |
| `ChevronTests.OptionalGenericType` | SwiftFormatTests/TokenizerTests.swift:819-831 | the input `"Foo<T?,U>"` tokenizes to exactly the test's expected token list |
| `ChevronTests.TrailingOptionalGenericType` | SwiftFormatTests/TokenizerTests.swift:833-843 | the input `"Foo<T?>"` tokenizes to exactly the test's expected token list |
| `ChevronTests.NestedOptionalGenericType` | SwiftFormatTests/TokenizerTests.swift:845-858 | the input `"Foo<Bar<T?>>"` tokenizes to exactly the test's expected token list |
| `ChevronTests.CustomOperatorStartingWithOpenChevron` | SwiftFormatTests/TokenizerTests.swift:860-868 | the input `"foo<--bar"` tokenizes to exactly the test's expected token list |
| `ChevronTests.CustomOperatorEndingWithCloseChevron` | SwiftFormatTests/TokenizerTests.swift:870-878 | the input `"foo-->bar"` tokenizes to exactly the test's expected token list |
| `ChevronTests.GreaterThanLessThanOperator` | SwiftFormatTests/TokenizerTests.swift:880-888 | the input `"foo><bar"` tokenizes to exactly the test's expected token list |
| `ChevronTests.LessThanGreaterThanOperator` | SwiftFormatTests/TokenizerTests.swift:890-898 | the input `"foo<>bar"` tokenizes to exactly the test's expected token list |
| `ChevronTests.GenericFollowedByAssign` | SwiftFormatTests/TokenizerTests.swift:900-918 | the input `"let foo: Bar<Baz> = 5"` tokenizes to exactly the test's expected token list |
| `CaseTests.SingleLineEnum` | SwiftFormatTests/TokenizerTests.swift:922-939 | the input `"enum Foo {case Bar, Baz}"` tokenizes to exactly the test's expected token list |
| `CaseTests.SingleLineGenericEnum` | SwiftFormatTests/TokenizerTests.swift:941-961 | the input `"enum Foo<T> {case Bar, Baz}"` tokenizes to exactly the test's expected token list |
| `CaseTests.MultilineLineEnum` | SwiftFormatTests/TokenizerTests.swift:963-983 | the input `"enum Foo {\ncase Bar\ncase Baz\n}"` tokenizes to exactly the test's expected token list |
| `CaseTests.SwitchStatement` | SwiftFormatTests/TokenizerTests.swift:985-1016 | the input `"switch x {\ncase 1:\nbreak\ncase 2:\nbreak\ndefault:\nbreak\n}"` tokenizes to exactly the test's expected token list |
| `LinebreakTests.LF` | SwiftFormatTests/TokenizerTests.swift:1020-1028 | the input `"foo\nbar"` tokenizes to exactly the test's expected token list |
| `LinebreakTests.CR` | SwiftFormatTests/TokenizerTests.swift:1030-1038 | the input `"foo\rbar"` tokenizes to exactly the test's expected token list |
| `LinebreakTests.CRLF` | SwiftFormatTests/TokenizerTests.swift:1040-1048 | the input `"foo\r\nbar"` tokenizes to exactly the test's expected token list |
| `LinebreakTests.CRLFAfterComment` | SwiftFormatTests/TokenizerTests.swift:1050-1060 | the input `"//foo\r\n//bar"` tokenizes to exactly the test's expected token list |
| `LinebreakTests.CRLFInMultilineComment` | SwiftFormatTests/TokenizerTests.swift:1062-1072 | the input `"/*foo\r\nbar*/"` tokenizes to exactly the test's expected token list |

## Left out

- The tokenizer's implementation file is not part of this model. The scanner here is designed to give exactly
  the token lists the tests expect. Where prose and tests differ, the tests win: for example `Foo<Bar,Baz>>>5`
  gives `Operator("<")` and one `Operator(">>>")`, with no generic scope.
- Chevron rule chosen to meet the tests: the lookahead fails when a run of `>` is longer than the `<` levels it
  could close, or when a closing `>` is directly followed by an identifier or a number.
- Tokenizer.Probe: inside a speculative `<` list the lookahead steps over names, spaces and `, . ? !`, and over
  `:` only directly inside `[ ]` (the key and value types of a dictionary). So a ternary such as
  `a<b ? c : d > e` is not read as a generic, but an expression made only of those characters, such as
  `a<b.c > (d)`, is. `TypeArguments.ProbeAccepts` and `TypeArguments.ProbeFinds` state exactly which texts
  the lookahead accepts. The lookahead also counts every `<` it meets as a generic level, while the scanner opens
  a generic only after an identifier: `Foo<<A>>` passes the lookahead with two levels but scans as
  StartOfScope `<`, Operator `<`, `A`, EndOfScope `>`, Operator `>`. This is not valid Swift and no test has it.
- Chars.IsUnicodeOperator: Unicode classes are approximated. Operator characters are the Unicode math, arrow
  and symbol ranges Swift names for operators; any other character from 0x80 up counts as a letter. This
  covers ASCII and the `µ`, `💩` and `≥` that the tests use.
- Diagnostics for unbalanced or unterminated scopes are not modelled. `Tokenize` is total, and a scope left
  open at the end of the text is simply not closed.
- Chars.Lowercase: lower-cases ASCII letters only. Swift's `lowercaseString` also lower-cases other letters.
  No non-ASCII letter lower-cases to a letter of the option names, so the accepted values are the same.
- `processInput` (file and directory traversal, reads and writes) is not modelled.
- Reading from stdin is not modelled. With no input path, `CommandLine.Format` has an absent input; what
  happens next (dispatch queues, `readLine`, timing loops, help when nothing arrives) is concurrency and
  timing.
- `showHelp`, the version text and every `print` are not modelled. Each error message becomes a value of
  `Arguments.ArgError` or `CommandLine.OptionError` that carries the text the message shows.
- `expandPath` (tilde and current-directory expansion) is a foreign call. Paths are kept as given.
- `FormattingOptions()` comes from the formatter, which is not part of this model. Its defaults are a
  parameter of `CommandLine.ProcessArguments`.
- `format` and the formatting rules are not part of this model.
- Arguments.QuoteSpan: the model follows the code as written. Only the argument that opens a quote keeps
  the option, and the opening quote stays in the value. This departs from reading a quoted value as
  continuing until its closing quote.
- Arguments.TrailingBackslash: the model follows the code as written. A trailing backslash becomes a space, but
  no option stays pending, so the next argument goes to a new anonymous key. It does not continue the value.
- CommandLine.DecodeIndent: requires that the value is not read as a negative number, because `String(count:)` traps on a
  negative count. `CommandLine.RunNoDash` and `CommandLine.SwiftIntNonNegative` prove that no preprocessed
  value can be one.
