/**
 * The command-line argument preprocessor: it turns the argument list into
 * a map from option names to values.  `--name` and a unique-prefix `-n`
 * select an option and give it the empty value; the arguments that follow
 * are its value, and an argument with no option before it is stored under
 * the next anonymous key "0", "1", ...  An argument that opens with a
 * quote keeps the option for the next argument; a trailing backslash is
 * read as a space, but the argument after it still goes to a new key.  An
 * unknown or ambiguous option name makes the whole result an error.
 *
 * `Preprocess` states the result as a fold of `ArgStep` over the
 * arguments; `PreprocessArguments` is the loop that updates the scanner's
 * variables in place, proved to compute the same thing.
 */
module Arguments {
  import opened Wrappers
  import opened Decimal

  /** Why preprocessing stopped; the text is what the error message shows. */
  datatype ArgError = UnknownArgument(arg: string) | AmbiguousArgument(flag: string)

  /**
   * The scanner's variables between two arguments: inside a quoted value,
   * how many anonymous arguments were named, the values so far, and the
   * option the next value belongs to ("" when none).
   */
  datatype Parse = Parse(quoted: bool, anonymous: nat, named: map<string, string>, name: string)

  const Start := Parse(false, 0, map[], "")

  /**
   * Swift's `hasPrefix`.  The toolchain the tool was written for answers
   * false for an empty prefix, so a lone `-` matches no option name.
   */
  predicate HasPrefix(s: string, p: string) {
    |p| > 0 && p <= s
  }

  predicate HasSuffix(s: string, p: string) {
    |p| > 0 && |p| <= |s| && s[|s| - |p|..] == p
  }

  /** The option names that start with flag, in their order. */
  function Matches(names: seq<string>, flag: string): (ms: seq<string>)
    ensures forall n :: n in ms <==> n in names && HasPrefix(n, flag)
    ensures |ms| <= |names|
  {
    if names == [] then []
    else (if HasPrefix(names[0], flag) then [names[0]] else []) + Matches(names[1..], flag)
  }

  /** Every `\"` replaced by `"`, scanning from the left. */
  function Unescape(s: string): (r: string)
    ensures |r| <= |s|
    ensures !('\\' in s) ==> r == s
  {
    if |s| < 2 then s
    else if s[0] == '\\' && s[1] == '"' then "\"" + Unescape(s[2..])
    else [s[0]] + Unescape(s[1..])
  }

  function Lookup(m: map<string, string>, k: string): string {
    if k in m then m[k] else ""
  }

  /**
   * A value argument: it is appended to the current option or to a new
   * anonymous key.  Inside a quote an argument ending in `"` closes it and
   * loses that quote; outside, one starting with `"` opens a quote and one
   * ending in a backslash has it replaced by a space.  While quoted, `\"`
   * becomes `"`.  Only the argument that opens a quote keeps the current
   * option for the next argument.
   */
  function Value(st: Parse, arg: string): (next: Parse)
    ensures next.name == "" || next.quoted
  {
    var name := KeyOf(st);
    var anonymous := CountAfter(st);
    var closes := st.quoted && HasSuffix(arg, "\"");
    var opens := !st.quoted && HasPrefix(arg, "\"");
    var text :=
      if closes then arg[..|arg| - 1]
      else if !st.quoted && !opens && HasSuffix(arg, "\\") then arg[..|arg| - 1] + " "
      else arg;
    var quoted := (st.quoted && !closes) || opens;
    var piece := if quoted then Unescape(text) else text;
    Parse(quoted, anonymous, st.named[name := Lookup(st.named, name) + piece], if opens then name else "")
  }

  /** The key a value goes to: the pending option, or else the next anonymous key. */
  function KeyOf(st: Parse): string {
    if st.name == "" then NatToString(st.anonymous) else st.name
  }

  /** The anonymous count after a value: one more when the value took an anonymous key. */
  function CountAfter(st: Parse): nat {
    if st.name == "" then st.anonymous + 1 else st.anonymous
  }

  /** One argument. */
  function ArgStep(st: Parse, arg: string, names: seq<string>): Result<Parse, ArgError> {
    if HasPrefix(arg, "--") then
      var key := arg[2..];
      if key !in names then Err(UnknownArgument(arg))
      else Ok(st.(named := st.named[key := ""], name := key))
    else if HasPrefix(arg, "-") then
      var flag := arg[1..];
      var ms := Matches(names, flag);
      if |ms| > 1 then Err(AmbiguousArgument(flag))
      else if |ms| == 0 then Err(UnknownArgument(arg))
      else Ok(st.(named := st.named[ms[0] := ""], name := ms[0]))
    else
      Ok(Value(st, arg))
  }

  /** The scanner's variables after the arguments, or the first error. */
  function Run(args: seq<string>, names: seq<string>): Result<Parse, ArgError>
    decreases |args|
  {
    if args == [] then Ok(Start)
    else
      match Run(args[..|args| - 1], names)
      case Err(e) => Err(e)
      case Ok(st) => ArgStep(st, args[|args| - 1], names)
  }

  function Preprocess(args: seq<string>, names: seq<string>): Result<map<string, string>, ArgError> {
    match Run(args, names)
    case Err(e) => Err(e)
    case Ok(st) => Ok(st.named)
  }

  // ---------------------------------------------------------------------------
  // The loop

  method PreprocessArguments(args: seq<string>, names: seq<string>) returns (r: Result<map<string, string>, ArgError>)
    ensures r == Preprocess(args, names)
  {
    var quoted := false;
    var anonymousArgs := 0;
    var namedArgs: map<string, string> := map[];
    var name := "";
    for i := 0 to |args|
      invariant Run(args[..i], names) == Ok(Parse(quoted, anonymousArgs, namedArgs, name))
    {
      var arg := args[i];
      assert args[..i + 1] == args[..i] + [arg];
      RunSnoc(args[..i], arg, names);
      if HasPrefix(arg, "--") {
        var key := arg[2..];
        if key !in names {
          RunErrorStays(args, i + 1, names);
          return Err(UnknownArgument(arg));
        }
        name := key;
        namedArgs := namedArgs[name := ""];
      } else if HasPrefix(arg, "-") {
        var flag := arg[1..];
        var matches := Matches(names, flag);
        if |matches| > 1 {
          RunErrorStays(args, i + 1, names);
          return Err(AmbiguousArgument(flag));
        } else if |matches| == 0 {
          RunErrorStays(args, i + 1, names);
          return Err(UnknownArgument(arg));
        } else {
          name := matches[0];
          namedArgs := namedArgs[name := ""];
        }
      } else {
        if name == "" {
          name := NatToString(anonymousArgs);
          anonymousArgs := anonymousArgs + 1;
        }
        var text := arg;
        var unterminated := false;
        if quoted {
          if HasSuffix(text, "\"") {
            text := text[..|text| - 1];
            unterminated := false;
            quoted := false;
          }
        } else if HasPrefix(text, "\"") {
          quoted := true;
          unterminated := true;
        } else if HasSuffix(text, "\\") {
          text := text[..|text| - 1] + " ";
        }
        if quoted {
          text := Unescape(text);
        }
        namedArgs := namedArgs[name := Lookup(namedArgs, name) + text];
        if !unterminated {
          name := "";
        }
      }
    }
    assert args[..|args|] == args;
    return Ok(namedArgs);
  }

  // ---------------------------------------------------------------------------
  // Properties

  /** Once an argument is refused, the arguments after it change nothing. */
  lemma {:induction false} RunErrorStays(args: seq<string>, i: nat, names: seq<string>)
    requires i <= |args| && Run(args[..i], names).Err?
    ensures Run(args, names) == Run(args[..i], names)
    decreases |args| - i
  {
    if i < |args| {
      assert args[..i + 1][..i] == args[..i];
      RunErrorStays(args, i + 1, names);
    } else {
      assert args[..i] == args;
    }
  }

  /** `--key` is refused unless key is an option name; a known key starts an empty value. */
  lemma LongName(st: Parse, key: string, names: seq<string>)
    ensures ArgStep(st, "--" + key, names) ==
              (if key in names then Ok(st.(named := st.named[key := ""], name := key))
               else Err(UnknownArgument("--" + key)))
  {
    assert ("--" + key)[2..] == key;
  }

  /**
   * `-flag` is accepted exactly when one option name starts with flag, and
   * then selects that name; two names with that prefix make it ambiguous.
   */
  lemma ShortName(st: Parse, flag: string, names: seq<string>)
    requires |flag| == 0 || flag[0] != '-'
    ensures ArgStep(st, "-" + flag, names).Ok? <==> |Matches(names, flag)| == 1
    ensures ArgStep(st, "-" + flag, names).Ok? ==>
              var n := ArgStep(st, "-" + flag, names).value.name;
              n in names && HasPrefix(n, flag) &&
              (forall m | m in names && HasPrefix(m, flag) :: m == n) &&
              ArgStep(st, "-" + flag, names).value == st.(named := st.named[n := ""], name := n)
    ensures forall a, b | a in names && b in names && a != b && HasPrefix(a, flag) && HasPrefix(b, flag) ::
              ArgStep(st, "-" + flag, names) == Err(AmbiguousArgument(flag))
  {
    var arg := "-" + flag;
    assert arg[1..] == flag;
    assert !HasPrefix(arg, "--") by {
      if |flag| > 0 {
        assert arg[1] == flag[0];
      }
    }
    var ms := Matches(names, flag);
    forall a, b | a in names && b in names && a != b && HasPrefix(a, flag) && HasPrefix(b, flag)
      ensures |ms| > 1
    {
      assert a in ms && b in ms;
    }
  }

  /** An argument that is neither an option nor quoting nor continued. */
  predicate Plain(arg: string) {
    !HasPrefix(arg, "-") && !HasPrefix(arg, "\"") && !HasSuffix(arg, "\\")
  }

  /** A plain value with no option selected takes the next anonymous key. */
  lemma AnonymousValue(st: Parse, arg: string, names: seq<string>)
    requires st.name == "" && !st.quoted && Plain(arg)
    ensures ArgStep(st, arg, names) ==
              Ok(Parse(false, st.anonymous + 1, st.named[NatToString(st.anonymous) := Lookup(st.named, NatToString(st.anonymous)) + arg], ""))
  {
  }

  /** The first n anonymous keys. */
  function AnonymousKeySet(n: nat): (ks: set<string>)
    ensures forall i: nat | i < n :: NatToString(i) in ks
  {
    if n == 0 then {} else AnonymousKeySet(n - 1) + {NatToString(n - 1)}
  }

  lemma {:induction false} NotYetAnonymous(n: nat)
    ensures NatToString(n) !in AnonymousKeySet(n)
  {
    if n > 0 {
      NotYetAnonymousBelow(n, n - 1);
    }
  }

  lemma {:induction false} NotYetAnonymousBelow(n: nat, k: nat)
    requires k < n
    ensures NatToString(n) !in AnonymousKeySet(k + 1)
    decreases k
  {
    NatToStringInjective(n, k);
    if k > 0 {
      NotYetAnonymousBelow(n, k - 1);
    }
  }

  /**
   * The state after n plain values: no quote, no option selected, n
   * anonymous keys used, and exactly the keys "0" .. n-1, each holding the
   * argument given at that position.
   */
  predicate AnonymousState(st: Parse, args: seq<string>) {
    && !st.quoted && st.name == ""
    && st.anonymous == |args|
    && st.named.Keys == AnonymousKeySet(|args|)
    && forall i | 0 <= i < |args| :: st.named[NatToString(i)] == args[i]
  }

  /** Run over one more argument is one more step. */
  lemma RunSnoc(init: seq<string>, arg: string, names: seq<string>)
    ensures Run(init, names).Err? ==> Run(init + [arg], names) == Run(init, names)
    ensures Run(init, names).Ok? ==> Run(init + [arg], names) == ArgStep(Run(init, names).value, arg, names)
  {
    assert (init + [arg])[..|init|] == init;
  }

  /** One more plain value keeps the state anonymous. */
  lemma AnonymousStep(st: Parse, init: seq<string>, arg: string, names: seq<string>)
    requires AnonymousState(st, init) && Plain(arg)
    ensures ArgStep(st, arg, names).Ok? && AnonymousState(ArgStep(st, arg, names).value, init + [arg])
  {
    var k := |init|;
    var key := NatToString(k);
    NotYetAnonymous(k);
    AnonymousValue(st, arg, names);
    var m := st.named[key := arg];
    assert Lookup(st.named, key) + arg == arg;
    var args := init + [arg];
    forall i | 0 <= i < |args|
      ensures m[NatToString(i)] == args[i]
    {
      if i < k {
        NatToStringInjective(i, k);
      }
    }
  }

  /**
   * Arguments that are all plain values land under the anonymous keys
   * "0", "1", ... in the order they were given.
   */
  lemma {:induction false} AnonymousKeys(args: seq<string>, names: seq<string>)
    requires forall i | 0 <= i < |args| :: Plain(args[i])
    ensures Run(args, names).Ok? && AnonymousState(Run(args, names).value, args)
    decreases |args|
  {
    if args != [] {
      var k := |args| - 1;
      var init := args[..k];
      assert args == init + [args[k]];
      AnonymousKeys(init, names);
      RunSnoc(init, args[k], names);
      AnonymousStep(Run(init, names).value, init, args[k], names);
    }
  }

  /**
   * A value given after a selected option: the plain argument is appended
   * to that option's value and the next argument no longer belongs to it.
   */
  lemma OptionValue(st: Parse, arg: string)
    requires st.name != "" && !st.quoted && Plain(arg)
    ensures Value(st, arg) == Parse(false, st.anonymous, st.named[st.name := Lookup(st.named, st.name) + arg], "")
  {
  }

  /** An argument starting with a quote opens a quoted value that the next argument continues. */
  lemma QuoteOpens(st: Parse, arg: string)
    requires !st.quoted && HasPrefix(arg, "\"")
    ensures Value(st, arg) ==
              Parse(true, CountAfter(st), st.named[KeyOf(st) := Lookup(st.named, KeyOf(st)) + Unescape(arg)], KeyOf(st))
  {
  }

  /** Inside a quote, an argument ending in a quote closes it and drops that quote. */
  lemma QuoteCloses(st: Parse, arg: string)
    requires st.quoted && HasSuffix(arg, "\"")
    ensures Value(st, arg) ==
              Parse(false, CountAfter(st), st.named[KeyOf(st) := Lookup(st.named, KeyOf(st)) + arg[..|arg| - 1]], "")
  {
  }

  /** Outside a quote, a trailing backslash is replaced by a space. */
  lemma TrailingBackslash(st: Parse, arg: string)
    requires !st.quoted && !HasPrefix(arg, "\"") && HasSuffix(arg, "\\")
    ensures Value(st, arg) ==
              Parse(false, CountAfter(st), st.named[KeyOf(st) := Lookup(st.named, KeyOf(st)) + (arg[..|arg| - 1] + " ")], "")
  {
  }

  /**
   * Only the argument that opens a quote keeps the option: the next one is
   * still appended to it, but a third piece of the same quote goes to a new
   * anonymous key.  The opening quote itself stays in the value.
   */
  lemma QuoteSpan(st: Parse, first: string, second: string, third: string)
    requires !st.quoted && st.name != "" && HasPrefix(first, "\"") && !HasSuffix(second, "\"")
    ensures Value(st, first).name == st.name
    ensures var st2 := Value(Value(st, first), second);
              && st2.quoted && st2.name == "" && st2.anonymous == st.anonymous
              && st2.named == st.named[st.name := Lookup(st.named, st.name) + Unescape(first) + Unescape(second)]
    ensures var st3 := Value(Value(Value(st, first), second), third);
              NatToString(st.anonymous) in st3.named && st3.anonymous == st.anonymous + 1
    ensures var st2 := Value(Value(st, first), second);
            var k := NatToString(st.anonymous);
            var st3 := Value(st2, third);
              && st3.quoted == !HasSuffix(third, "\"") && st3.name == ""
              && st3.named == st2.named[k := Lookup(st2.named, k) +
                                               (if HasSuffix(third, "\"") then third[..|third| - 1] else Unescape(third))]
  {
    var st1 := Value(st, first);
    QuoteOpens(st, first);
    assert Lookup(st1.named, st.name) == Lookup(st.named, st.name) + Unescape(first);
    var st2 := Value(st1, second);
    QuoteContinues(st1, second);
    var v := Lookup(st.named, st.name) + Unescape(first) + Unescape(second);
    assert st2.named == st1.named[st.name := v];
    MapOverwrite(st.named, st.name, Lookup(st.named, st.name) + Unescape(first), v);
    AnonymousKeyTaken(st2, third);
    if HasSuffix(third, "\"") {
      QuoteCloses(st2, third);
    } else {
      QuoteContinues(st2, third);
    }
  }

  /** A second value under a key replaces the first. */
  lemma MapOverwrite(m: map<string, string>, k: string, a: string, b: string)
    ensures m[k := a][k := b] == m[k := b]
  {
  }

  /** Inside a quote, an argument not ending in a quote is unescaped and appended, and the quote stays open. */
  lemma QuoteContinues(st: Parse, arg: string)
    requires st.quoted && !HasSuffix(arg, "\"")
    ensures Value(st, arg) ==
              Parse(true, CountAfter(st), st.named[KeyOf(st) := Lookup(st.named, KeyOf(st)) + Unescape(arg)], "")
  {
  }

  /** With no option pending, a value takes the next anonymous key. */
  lemma AnonymousKeyTaken(st: Parse, arg: string)
    requires st.name == ""
    ensures NatToString(st.anonymous) in Value(st, arg).named && Value(st, arg).anonymous == st.anonymous + 1
  {
  }

  /** While quoted, `\"` stands for a quote. */
  lemma UnescapeQuote(s: string)
    ensures Unescape("\\\"" + s) == "\"" + Unescape(s)
  {
    var u := "\\\"" + s;
    assert u[0] == '\\' && u[1] == '"' && u[2..] == s;
  }

  /**
   * Unescaping works piece by piece: a text that does not end in a
   * backslash is unescaped the same whatever follows it, so every `\"`
   * becomes `"`, wherever it stands.
   */
  lemma {:induction false} UnescapeAppend(a: string, b: string)
    requires a == [] || a[|a| - 1] != '\\'
    ensures Unescape(a + b) == Unescape(a) + Unescape(b)
    decreases |a|
  {
    var s := a + b;
    if a == [] {
      assert s == b;
    } else if |a| >= 2 && a[0] == '\\' && a[1] == '"' {
      assert s[0] == '\\' && s[1] == '"' && s[2..] == a[2..] + b;
      UnescapeAppend(a[2..], b);
    } else if |a| == 1 {
      if |s| >= 2 {
        assert s[0] == a[0] && s[1..] == b;
      } else {
        assert b == [] && s == a;
      }
    } else {
      assert s[0] == a[0] && s[1] == a[1] && s[1..] == a[1..] + b;
      UnescapeAppend(a[1..], b);
    }
  }

  /** How a quote is written inside a quoted value: with a backslash before it. */
  function Escape(t: string): (e: string)
    ensures |e| >= |t|
    ensures e != [] ==> e[0] != '"'
  {
    if t == [] then []
    else (if t[0] == '"' then "\\\"" else [t[0]]) + Escape(t[1..])
  }

  /** Unescaping gives back any text written with its quotes escaped. */
  lemma {:induction false} UnescapeEscape(t: string)
    ensures Unescape(Escape(t)) == t
    decreases |t|
  {
    if t != [] {
      var e := Escape(t);
      var tail := Escape(t[1..]);
      UnescapeEscape(t[1..]);
      if t[0] == '"' {
        assert e == "\\\"" + tail;
        UnescapeQuote(tail);
      } else {
        assert e == [t[0]] + tail && e[1..] == tail;
        if tail != [] {
          assert e[1] == tail[0];
        }
      }
    }
  }
}
