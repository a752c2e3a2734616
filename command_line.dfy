/**
 * What `processArguments` makes of the preprocessed arguments: help or
 * version when asked for, the input path (anonymous argument "1"), the
 * output path (`--output`, or the input path when absent), and the
 * formatting options decoded from their case-insensitive option values.
 * The first value that cannot be decoded stops the tool.
 */
module CommandLine {
  import opened Wrappers
  import opened Chars
  import opened Decimal
  import opened Arguments

  /** The smallest value of Swift's 64-bit `Int`. */
  const MinInt: int := -0x8000_0000_0000_0000

  /** The option names the tool accepts, in the order they are matched against short flags. */
  const Names: seq<string> := ["output", "indent", "linebreaks", "semicolons", "help", "version"]

  /** The formatter's settings: indent unit, linebreak text and whether inline semicolons stay. */
  datatype FormattingOptions = FormattingOptions(indent: string, linebreak: string, allowInlineSemicolons: bool)

  /** An option value no case of its switch accepts; the text is the value as given. */
  datatype OptionError =
    | UnsupportedIndent(value: string)
    | UnsupportedSemicolons(value: string)
    | UnsupportedLinebreaks(value: string)

  /** What the tool goes on to do. */
  datatype Command =
    | Refused(argError: ArgError)
    | ShowHelp
    | ShowVersion
    | Unsupported(optionError: OptionError)
    | Format(input: Option<string>, output: Option<string>, options: FormattingOptions)

  // ---------------------------------------------------------------------------
  // Swift's Int(text)

  /** Swift's `Int(text)`: an optional sign, then one or more decimal digits, within the 64-bit range. */
  function SwiftInt(s: string): Option<int> {
    if |s| > 0 && (s[0] == '+' || s[0] == '-') then
      if !IsDecimal(s[1..]) then None
      else
        var n: int := if s[0] == '-' then 0 - ParseNat(s[1..]) else ParseNat(s[1..]);
        if MinInt <= n <= MaxInt then Some(n) else None
    else if IsDecimal(s) && ParseNat(s) <= MaxInt then Some(ParseNat(s))
    else None
  }

  /** Every integer Swift's `Int` can hold is read back from its numeral, with or without a sign. */
  lemma SwiftIntOfNumeral(n: nat)
    ensures n <= MaxInt ==> SwiftInt(NatToString(n)) == Some(n)
    ensures n <= MaxInt ==> SwiftInt("+" + NatToString(n)) == Some(n)
    ensures n <= MaxInt + 1 ==> SwiftInt("-" + NatToString(n)) == Some(0 - n)
    ensures n > MaxInt ==> SwiftInt(NatToString(n)) == None
  {
    var s := NatToString(n);
    ParseNatToString(n);
    assert s[0] != '+' && s[0] != '-';
    assert ("+" + s)[1..] == s;
    assert ("-" + s)[1..] == s;
  }

  /** A value read as an integer is a signed numeral within the 64-bit range. */
  lemma SwiftIntShape(s: string)
    ensures SwiftInt(s).Some? ==>
              MinInt <= SwiftInt(s).value <= MaxInt &&
              (IsDecimal(s) || (|s| > 0 && (s[0] == '+' || s[0] == '-') && IsDecimal(s[1..])))
  {
  }

  /** A value that does not start with `-` is never read as a negative number. */
  lemma SwiftIntNonNegative(s: string)
    requires s == [] || s[0] != '-'
    ensures SwiftInt(s).Some? ==> SwiftInt(s).value >= 0
  {
  }

  /** Lower-casing changes no sign or digit, so it does not change what `Int` reads. */
  lemma SwiftIntLowercase(s: string)
    ensures SwiftInt(Lowercase(s)) == SwiftInt(s)
  {
    var l := Lowercase(s);
    assert forall k | 0 <= k < |s| :: IsDigit(l[k]) <==> IsDigit(s[k]);
    if IsDecimal(s) || IsDecimal(l) {
      assert l == s by {
        assert forall k | 0 <= k < |s| :: l[k] == s[k];
      }
    } else if |s| > 0 && (s[0] == '+' || s[0] == '-') {
      assert l[1..] == Lowercase(s[1..]);
      if IsDecimal(s[1..]) || IsDecimal(l[1..]) {
        assert l == s by {
          assert forall k | 1 <= k < |s| :: l[1..][k - 1] == l[k] && s[1..][k - 1] == s[k];
          assert forall k | 0 <= k < |s| :: l[k] == s[k];
        }
      }
    }
  }

  // ---------------------------------------------------------------------------
  // The option values

  /** n spaces. */
  function Spaces(n: nat): (r: string)
    ensures |r| == n && forall k | 0 <= k < n :: r[k] == ' '
  {
    seq(n, _ => ' ')
  }

  /** A value `String(count:repeatedValue:)` accepts when read as a count: not a negative number. */
  predicate CountAllowed(value: string) {
    SwiftInt(value).Some? ==> SwiftInt(value).value >= 0
  }

  /**
   * `--indent`: "tab" or "tabs" in any case gives a tab, a number n gives n
   * spaces; Swift's `String(count:repeatedValue:)` traps on a negative n,
   * hence the precondition.
   */
  function DecodeIndent(value: string): (r: Result<string, OptionError>)
    requires CountAllowed(value)
  {
    var lower := Lowercase(value);
    if lower == "tab" || lower == "tabs" then Ok("\t")
    else
      match SwiftInt(value)
      case Some(n) => Ok(Spaces(n))
      case None => Err(UnsupportedIndent(value))
  }

  /** `--semicolons`: "inline" allows inline semicolons, "never" does not. */
  function DecodeSemicolons(value: string): (r: Result<bool, OptionError>) {
    var lower := Lowercase(value);
    if lower == "inline" then Ok(true)
    else if lower == "never" then Ok(false)
    else Err(UnsupportedSemicolons(value))
  }

  /** `--linebreaks`: "cr", "lf" and "crlf" name the three linebreak texts. */
  function DecodeLinebreaks(value: string): (r: Result<string, OptionError>) {
    var lower := Lowercase(value);
    if lower == "cr" then Ok("\r")
    else if lower == "lf" then Ok("\n")
    else if lower == "crlf" then Ok("\r\n")
    else Err(UnsupportedLinebreaks(value))
  }

  /** The name that selects a linebreak text, the inverse of `DecodeLinebreaks`. */
  function LinebreakName(linebreak: string): string {
    if linebreak == "\r" then "cr" else if linebreak == "\r\n" then "crlf" else "lf"
  }

  /** The indent decoder: tabs exactly for the tab names, spaces exactly for a number, else an error naming the value. */
  lemma IndentDecoding(value: string)
    requires CountAllowed(value)
    ensures DecodeIndent(value) == Ok("\t") <==> Lowercase(value) in {"tab", "tabs"}
    ensures forall n: nat :: DecodeIndent(value) == Ok(Spaces(n)) <==> SwiftInt(value) == Some(n)
    ensures DecodeIndent(value).Err? <==> Lowercase(value) !in {"tab", "tabs"} && SwiftInt(value).None?
    ensures DecodeIndent(value).Err? ==> DecodeIndent(value).error == UnsupportedIndent(value)
  {
    var lower := Lowercase(value);
    if lower == "tab" || lower == "tabs" {
      assert value[0] == 't' || value[0] == 'T';
      assert SwiftInt(value).None?;
      forall n: nat
        ensures Spaces(n) != "\t"
      {
        if n == 1 {
          assert Spaces(n)[0] == ' ';
        }
      }
    } else if SwiftInt(value).Some? {
      assert Spaces(SwiftInt(value).value) != "\t" by {
        if SwiftInt(value).value == 1 {
          assert Spaces(1)[0] == ' ';
        }
      }
      forall n: nat
        ensures Spaces(n) == Spaces(SwiftInt(value).value) <==> SwiftInt(value) == Some(n)
      {
        if Spaces(n) == Spaces(SwiftInt(value).value) {
          assert |Spaces(n)| == n;
        }
      }
    }
  }

  /** Every indent width the tool can hold is reached by writing it out. */
  lemma IndentWidth(n: nat)
    requires n <= MaxInt
    ensures DecodeIndent(NatToString(n)) == Ok(Spaces(n))
  {
    SwiftIntOfNumeral(n);
    var s := NatToString(n);
    assert Lowercase(s)[0] == s[0];
    assert Lowercase(s) != "tab" && Lowercase(s) != "tabs";
  }

  /** The semicolon decoder accepts exactly the two policy names. */
  lemma SemicolonsDecoding(value: string)
    ensures DecodeSemicolons(value) == Ok(true) <==> Lowercase(value) == "inline"
    ensures DecodeSemicolons(value) == Ok(false) <==> Lowercase(value) == "never"
    ensures DecodeSemicolons(value).Err? ==> DecodeSemicolons(value).error == UnsupportedSemicolons(value)
  {
  }

  /** A decoded linebreak is one of the three texts, and each is decoded from its name. */
  lemma LinebreaksDecoding(value: string, linebreak: string)
    ensures DecodeLinebreaks(value).Ok? ==>
              DecodeLinebreaks(value).value in {"\r", "\n", "\r\n"} &&
              Lowercase(value) == LinebreakName(DecodeLinebreaks(value).value)
    ensures DecodeLinebreaks(value).Err? ==> DecodeLinebreaks(value).error == UnsupportedLinebreaks(value)
    ensures linebreak in {"\r", "\n", "\r\n"} ==> DecodeLinebreaks(LinebreakName(linebreak)) == Ok(linebreak)
  {
    if linebreak in {"\r", "\n", "\r\n"} {
      var name := LinebreakName(linebreak);
      assert Lowercase(name) == name;
    }
  }

  /** Lower-case lower-cases: applying it twice changes nothing. */
  lemma LowercaseIdempotent(s: string)
    ensures Lowercase(Lowercase(s)) == Lowercase(s)
  {
    var l := Lowercase(s);
    assert forall k | 0 <= k < |s| :: Lowercase(l)[k] == l[k];
  }

  /** The option values are case-insensitive: a value and its lower-case form decode alike. */
  lemma CaseInsensitive(value: string)
    ensures DecodeSemicolons(Lowercase(value)).Ok? == DecodeSemicolons(value).Ok?
    ensures DecodeSemicolons(value).Ok? ==> DecodeSemicolons(Lowercase(value)) == DecodeSemicolons(value)
    ensures DecodeLinebreaks(Lowercase(value)).Ok? == DecodeLinebreaks(value).Ok?
    ensures DecodeLinebreaks(value).Ok? ==> DecodeLinebreaks(Lowercase(value)) == DecodeLinebreaks(value)
  {
    LowercaseIdempotent(value);
  }

  /** The same for the indent, whose number is read from the value as given. */
  lemma IndentCaseInsensitive(value: string)
    requires CountAllowed(value)
    ensures CountAllowed(Lowercase(value))
    ensures DecodeIndent(Lowercase(value)).Ok? == DecodeIndent(value).Ok?
    ensures DecodeIndent(value).Ok? ==> DecodeIndent(Lowercase(value)) == DecodeIndent(value)
  {
    LowercaseIdempotent(value);
    SwiftIntLowercase(value);
  }

  // ---------------------------------------------------------------------------
  // Values never start with a dash

  /** An option value that cannot be negative: empty, or not starting with `-`. */
  predicate NoDash(v: string) {
    v == [] || v[0] != '-'
  }

  predicate NoDashValues(m: map<string, string>) {
    forall k | k in m :: NoDash(m[k])
  }

  /** Unescaping keeps the first character, or makes it the quote it unescaped. */
  lemma UnescapeFirst(s: string)
    ensures Unescape(s) == [] <==> s == []
    ensures s != [] ==> Unescape(s)[0] == s[0] || Unescape(s)[0] == '"'
  {
  }

  /** Appending keeps a value free of a leading dash. */
  lemma NoDashAppend(a: string, b: string)
    requires NoDash(a) && NoDash(b)
    ensures NoDash(a + b)
  {
    if a != [] {
      assert (a + b)[0] == a[0];
    }
  }

  lemma NoDashUpdate(m: map<string, string>, k: string, v: string)
    requires NoDashValues(m) && NoDash(v)
    ensures NoDashValues(m[k := v])
  {
  }

  /** The text a value argument contributes never starts with `-`. */
  lemma ValueTextNoDash(arg: string)
    requires !HasPrefix(arg, "-")
    ensures NoDash(arg)
    ensures |arg| > 0 ==> NoDash(arg[..|arg| - 1]) && NoDash(arg[..|arg| - 1] + " ")
    ensures NoDash(Unescape(arg)) && (|arg| > 0 ==> NoDash(Unescape(arg[..|arg| - 1])) && NoDash(Unescape(arg[..|arg| - 1] + " ")))
  {
    if |arg| > 0 {
      assert arg[0] != '-';
      UnescapeFirst(arg);
      UnescapeFirst(arg[..|arg| - 1]);
      UnescapeFirst(arg[..|arg| - 1] + " ");
      if |arg| > 1 {
        assert arg[..|arg| - 1][0] == arg[0];
      }
      assert (arg[..|arg| - 1] + " ")[0] == (if |arg| > 1 then arg[0] else ' ');
    }
  }

  /** A value argument never starts a value with `-`, because such an argument names an option. */
  lemma ValueNoDash(st: Parse, arg: string)
    requires NoDashValues(st.named) && !HasPrefix(arg, "-")
    ensures NoDashValues(Value(st, arg).named)
  {
    var name := if st.name == "" then NatToString(st.anonymous) else st.name;
    var closes := st.quoted && HasSuffix(arg, "\"");
    var opens := !st.quoted && HasPrefix(arg, "\"");
    var text :=
      if closes then arg[..|arg| - 1]
      else if !st.quoted && !opens && HasSuffix(arg, "\\") then arg[..|arg| - 1] + " "
      else arg;
    var quoted := (st.quoted && !closes) || opens;
    var piece := if quoted then Unescape(text) else text;
    ValueTextNoDash(arg);
    assert NoDash(piece);
    var old_ := Lookup(st.named, name);
    NoDashAppend(old_, piece);
    NoDashUpdate(st.named, name, old_ + piece);
    assert Value(st, arg).named == st.named[name := old_ + piece];
  }

  lemma StepNoDash(st: Parse, arg: string, names: seq<string>)
    requires NoDashValues(st.named) && ArgStep(st, arg, names).Ok?
    ensures NoDashValues(ArgStep(st, arg, names).value.named)
  {
    if !HasPrefix(arg, "--") && !HasPrefix(arg, "-") {
      ValueNoDash(st, arg);
    }
  }

  /** No preprocessed value starts with `-`. */
  lemma {:induction false} RunNoDash(args: seq<string>, names: seq<string>)
    ensures Run(args, names).Ok? ==> NoDashValues(Run(args, names).value.named)
    decreases |args|
  {
    if args != [] {
      var init := args[..|args| - 1];
      RunNoDash(init, names);
      if Run(init, names).Ok? && ArgStep(Run(init, names).value, args[|args| - 1], names).Ok? {
        StepNoDash(Run(init, names).value, args[|args| - 1], names);
      }
    }
  }

  // ---------------------------------------------------------------------------
  // processArguments

  /**
   * The options after the indent, semicolons and linebreaks switches, in
   * that order; an option that is absent keeps its default.
   */
  function Configure(m: map<string, string>, defaults: FormattingOptions): (r: Result<FormattingOptions, OptionError>)
    requires NoDashValues(m)
  {
    var indent :=
      if "indent" in m then (SwiftIntNonNegative(m["indent"]); DecodeIndent(m["indent"])) else Ok(defaults.indent);
    var semicolons := if "semicolons" in m then DecodeSemicolons(m["semicolons"]) else Ok(defaults.allowInlineSemicolons);
    var linebreak := if "linebreaks" in m then DecodeLinebreaks(m["linebreaks"]) else Ok(defaults.linebreak);
    if indent.Err? then Err(indent.error)
    else if semicolons.Err? then Err(semicolons.error)
    else if linebreak.Err? then Err(linebreak.error)
    else Ok(FormattingOptions(indent.value, linebreak.value, semicolons.value))
  }

  /** The command the preprocessed arguments select. */
  function Dispatch(m: map<string, string>, defaults: FormattingOptions): (c: Command)
    requires NoDashValues(m)
  {
    if "help" in m then ShowHelp
    else if "version" in m then ShowVersion
    else
      var input := if "1" in m then Some(m["1"]) else None;
      var output := if "output" in m then Some(m["output"]) else input;
      match Configure(m, defaults)
      case Err(e) => Unsupported(e)
      case Ok(options) => Format(input, output, options)
  }

  /** The command the whole argument list selects, `Process.arguments` with the tool's own path first. */
  function ProcessArguments(args: seq<string>, defaults: FormattingOptions): (c: Command) {
    match Preprocess(args, Names)
    case Err(e) => Refused(e)
    case Ok(m) => RunNoDash(args, Names); Dispatch(m, defaults)
  }

  /**
   * The options switches: each present value must decode, the first one
   * that does not is the error, and an absent option keeps its default.
   */
  lemma ConfigureOutcome(m: map<string, string>, defaults: FormattingOptions)
    requires NoDashValues(m)
    ensures "indent" in m ==> CountAllowed(m["indent"])
    ensures "indent" in m && DecodeIndent(m["indent"]).Err? ==>
              Configure(m, defaults) == Err(UnsupportedIndent(m["indent"]))
    ensures ("indent" !in m || DecodeIndent(m["indent"]).Ok?) &&
            "semicolons" in m && DecodeSemicolons(m["semicolons"]).Err? ==>
              Configure(m, defaults) == Err(UnsupportedSemicolons(m["semicolons"]))
    ensures ("indent" !in m || DecodeIndent(m["indent"]).Ok?) &&
            ("semicolons" !in m || DecodeSemicolons(m["semicolons"]).Ok?) &&
            "linebreaks" in m && DecodeLinebreaks(m["linebreaks"]).Err? ==>
              Configure(m, defaults) == Err(UnsupportedLinebreaks(m["linebreaks"]))
    ensures Configure(m, defaults).Ok? <==>
              ("indent" in m ==> DecodeIndent(m["indent"]).Ok?) &&
              ("semicolons" in m ==> DecodeSemicolons(m["semicolons"]).Ok?) &&
              ("linebreaks" in m ==> DecodeLinebreaks(m["linebreaks"]).Ok?)
    ensures Configure(m, defaults).Err? ==>
              (Configure(m, defaults).error in
                 {UnsupportedIndent(Lookup(m, "indent")), UnsupportedSemicolons(Lookup(m, "semicolons")),
                  UnsupportedLinebreaks(Lookup(m, "linebreaks"))})
    ensures Configure(m, defaults).Ok? ==>
              var o := Configure(m, defaults).value;
              o.indent == (if "indent" in m then DecodeIndent(m["indent"]).value else defaults.indent) &&
              o.allowInlineSemicolons ==
                (if "semicolons" in m then DecodeSemicolons(m["semicolons"]).value else defaults.allowInlineSemicolons) &&
              o.linebreak == (if "linebreaks" in m then DecodeLinebreaks(m["linebreaks"]).value else defaults.linebreak)
  {
    if "indent" in m {
      SwiftIntNonNegative(m["indent"]);
      IndentDecoding(m["indent"]);
    }
    SemicolonsDecoding(Lookup(m, "semicolons"));
    LinebreaksDecoding(Lookup(m, "linebreaks"), "");
  }

  /**
   * Help, then version, win over everything after them; otherwise an option
   * value that does not decode is reported, and when all decode the input
   * is the anonymous argument "1" and the output defaults to it.
   */
  lemma CommandOutcome(args: seq<string>, defaults: FormattingOptions)
    ensures Preprocess(args, Names).Ok? ==> NoDashValues(Preprocess(args, Names).value)
    ensures Preprocess(args, Names).Err? <==> ProcessArguments(args, defaults).Refused?
    ensures Preprocess(args, Names).Ok? && "help" in Preprocess(args, Names).value ==>
              ProcessArguments(args, defaults) == ShowHelp
    ensures ProcessArguments(args, defaults) == ShowHelp ==>
              Preprocess(args, Names).Ok? && "help" in Preprocess(args, Names).value
    ensures Preprocess(args, Names).Ok? &&
            "version" in Preprocess(args, Names).value && "help" !in Preprocess(args, Names).value ==>
              ProcessArguments(args, defaults) == ShowVersion
    ensures ProcessArguments(args, defaults) == ShowVersion ==>
              "version" in Preprocess(args, Names).value && "help" !in Preprocess(args, Names).value
    ensures Preprocess(args, Names).Ok? &&
            "help" !in Preprocess(args, Names).value && "version" !in Preprocess(args, Names).value ==>
              (Configure(Preprocess(args, Names).value, defaults).Err? ==>
                 ProcessArguments(args, defaults) == Unsupported(Configure(Preprocess(args, Names).value, defaults).error)) &&
              (Configure(Preprocess(args, Names).value, defaults).Ok? ==> ProcessArguments(args, defaults).Format?)
    ensures ProcessArguments(args, defaults).Format? ==>
              var m := Preprocess(args, Names).value;
              var c := ProcessArguments(args, defaults);
              (c.input.Some? <==> "1" in m) && (c.input.Some? ==> c.input.value == m["1"]) &&
              ("output" !in m ==> c.output == c.input) &&
              ("output" in m ==> c.output == Some(m["output"])) &&
              Configure(m, defaults) == Ok(c.options)
  {
    RunNoDash(args, Names);
  }

  /** `NatToString` for the keys the tool reads and the tool's own path. */
  lemma FirstKeys()
    ensures NatToString(0) == "0" && NatToString(1) == "1"
    ensures AnonymousKeySet(2) == {"0", "1"}
  {
    assert NatToString(0) == [DigitChar(0)];
    assert NatToString(1) == [DigitChar(1)];
  }

  /** A map with keys "0" and "1" is given by its two values. */
  lemma TwoKeyMap(m: map<string, string>, a: string, b: string)
    requires m.Keys == {"0", "1"} && m["0"] == a && m["1"] == b
    ensures m == map["0" := a, "1" := b]
  {
  }

  /** Two plain arguments are the anonymous arguments "0" and "1". */
  lemma TwoAnonymous(args: seq<string>, names: seq<string>)
    requires |args| == 2 && Plain(args[0]) && Plain(args[1])
    ensures Preprocess(args, names) == Ok(map["0" := args[0], "1" := args[1]])
  {
    AnonymousKeys(args, names);
    FirstKeys();
    var st := Run(args, names).value;
    assert st.named[NatToString(0)] == args[0] && st.named[NatToString(1)] == args[1];
    TwoKeyMap(st.named, args[0], args[1]);
  }

  /** The command for exactly the anonymous arguments "0" and "1": format "1" in place with the defaults. */
  lemma DispatchInPlace(tool: string, input: string, defaults: FormattingOptions)
    ensures NoDashValues(map["0" := tool, "1" := input]) ==>
              Dispatch(map["0" := tool, "1" := input], defaults) == Format(Some(input), Some(input), defaults)
  {
  }

  /** `swiftformat file`: the file is formatted in place with the default options. */
  lemma InPlace(args: seq<string>, defaults: FormattingOptions)
    requires |args| == 2 && Plain(args[0]) && Plain(args[1])
    ensures ProcessArguments(args, defaults) == Format(Some(args[1]), Some(args[1]), defaults)
  {
    TwoAnonymous(args, Names);
    RunNoDash(args, Names);
    DispatchInPlace(args[0], args[1], defaults);
  }

  /** A single plain argument is the anonymous argument "0" and nothing else. */
  lemma OneAnonymous(args: seq<string>, names: seq<string>)
    requires |args| == 1 && Plain(args[0])
    ensures Preprocess(args, names).Ok? && Preprocess(args, names).value.Keys == {"0"}
  {
    AnonymousKeys(args, names);
    FirstKeys();
    assert AnonymousKeySet(1) == {"0"};
  }

  /** With only the tool's own path there is no input path, and no output path either. */
  lemma NoInput(args: seq<string>, defaults: FormattingOptions)
    requires |args| == 1 && Plain(args[0])
    ensures ProcessArguments(args, defaults) == Format(None, None, defaults)
  {
    OneAnonymous(args, Names);
    RunNoDash(args, Names);
  }
}
