/**
 * What the generic lookahead accepts, described without the lookahead: a
 * type-argument list is a sequence of pieces, each a separator character,
 * a name, or a bracketed group `< … >`, `( … )`, `[ … ]` holding such a
 * list again.  `ProbeAccepts` and `ProbeFinds` show that `Probe` succeeds
 * on exactly the texts that start with such a list closed by `>`, so the
 * `<` after an identifier opens a generic scope exactly then.
 */
module TypeArguments {
  import opened Chars
  import opened Wrappers
  import opened Tokenizer
  import opened Scanning
  import opened TokenizerProperties

  /** One piece of a type-argument list. */
  datatype Piece =
    | Gap(c: char)                           // a space, `,`, `.`, `?`, `!`, or `:` inside `[ ]`
    | Name(w: string)                        // an identifier
    | Group(open: char, inner: seq<Piece>)   // a bracketed list

  function Closer(open: char): char {
    if open == '(' then ')' else if open == '[' then ']' else '>'
  }

  /** The text of a list of pieces. */
  function Render(ps: seq<Piece>): string
    decreases ps
  {
    if ps == [] then []
    else
      var head :=
        match ps[0]
        case Gap(c) => [c]
        case Name(w) => w
        case Group(o, inner) => [o] + Render(inner) + [Closer(o)];
      head + Render(ps[1..])
  }

  /**
   * A name ends where the text after it could not continue it: a closed
   * backtick name ends at its backtick, any other name before a character
   * that is not an identifier character (nor, for a backtick name, a
   * backtick).
   */
  predicate NameEnds(w: string, after: string) {
    (|w| > 1 && w[0] == '`' && w[|w| - 1] == '`' && AllIdentifierBody(w[1..|w| - 1])) ||
    after == [] ||
    (!IsIdentifierBody(after[0]) && (|w| > 0 && w[0] == '`' ==> after[0] != '`'))
  }

  /**
   * The pieces ps form a list in front of the text after; inBracket says
   * that the innermost group is `[ ]`.  A `<` group must not be followed
   * directly by a word, since `>` before a word reads as a comparison.
   */
  predicate Fits(ps: seq<Piece>, after: string, inBracket: bool)
    decreases ps
  {
    ps == [] ||
    (var tail := Render(ps[1..]) + after;
     Fits(ps[1..], after, inBracket) &&
     match ps[0]
     case Gap(c) => IsProbeSkip(c) || (c == ':' && inBracket)
     case Name(w) => IdentifierText(w) && NameEnds(w, tail)
     case Group(o, inner) =>
       (o == '<' || o == '(' || o == '[') &&
       Fits(inner, [Closer(o)] + tail, o == '[') &&
       (o == '<' ==> !(|tail| > 0 && StartsWord(tail[0]))))
  }

  /**
   * A type-argument list closed by `>` in front of rest: no word follows
   * the closing `>`, and the `>` run that follows is not longer than the
   * generic scopes open around the list.
   */
  predicate ArgumentList(ps: seq<Piece>, rest: string, outer: nat) {
    Fits(ps, ">" + rest, false) && !(|rest| > 0 && StartsWord(rest[0])) && ChevronRun(rest) <= outer
  }

  // ---------------------------------------------------------------------------
  // Helpers

  lemma RenderCons(p: Piece, ps: seq<Piece>)
    ensures Render([p] + ps) == Render([p]) + Render(ps)
  {
    assert ([p] + ps)[0] == p && ([p] + ps)[1..] == ps;
    assert [p][1..] == [];
  }

  lemma RenderGroup(o: char, inner: seq<Piece>, t: string)
    ensures Render([Group(o, inner)]) + t == [o] + (Render(inner) + ([Closer(o)] + t))
  {
    var g := Group(o, inner);
    assert [g][0] == g && [g][1..] == [];
    calc {
      Render([g]) + t;
      ([o] + Render(inner) + [Closer(o)]) + t;
      [o] + (Render(inner) + ([Closer(o)] + t));
    }
  }

  lemma RenderFront(ps: seq<Piece>, more: string)
    requires ps != []
    ensures Render(ps) + more == Render([ps[0]]) + (Render(ps[1..]) + more)
  {
    RenderUnfold(ps);
    Associative(Render([ps[0]]), Render(ps[1..]), more);
  }

  lemma Associative(a: string, b: string, c: string)
    ensures (a + b) + c == a + (b + c)
  {
  }

  lemma RenderUnfold(ps: seq<Piece>)
    requires ps != []
    ensures Render(ps) == Render([ps[0]]) + Render(ps[1..])
  {
    var p := ps[0];
    assert [p][0] == p && [p][1..] == [];
  }

  lemma RenderPrepend(p: Piece, ps: seq<Piece>, x: string)
    ensures Render([p] + ps) + x == Render([p]) + (Render(ps) + x)
  {
    RenderCons(p, ps);
  }

  /** What one piece demands of the text after it. */
  lemma FitsSingle(p: Piece, x: string, inBracket: bool)
    ensures p.Gap? ==> (Fits([p], x, inBracket) <==> IsProbeSkip(p.c) || (p.c == ':' && inBracket))
    ensures p.Name? ==> (Fits([p], x, inBracket) <==> IdentifierText(p.w) && NameEnds(p.w, x))
    ensures p.Group? ==>
              (Fits([p], x, inBracket) <==>
                 (p.open == '<' || p.open == '(' || p.open == '[') &&
                 Fits(p.inner, [Closer(p.open)] + x, p.open == '[') &&
                 (p.open == '<' ==> !(|x| > 0 && StartsWord(x[0]))))
  {
    assert [p][0] == p && [p][1..] == [];
    assert Render([p][1..]) + x == x;
  }

  lemma RenderSingle(p: Piece, t: string)
    ensures p.Gap? ==> Render([p]) + t == [p.c] + t
    ensures p.Name? ==> Render([p]) + t == p.w + t
  {
    assert [p][0] == p && [p][1..] == [];
  }

  lemma FitsCons(p: Piece, ps: seq<Piece>, after: string, inBracket: bool)
    ensures Fits([p] + ps, after, inBracket) == (Fits([p], Render(ps) + after, inBracket) && Fits(ps, after, inBracket))
  {
    assert ([p] + ps)[0] == p && ([p] + ps)[1..] == ps;
    assert [p][1..] == [];
    assert Render([]) + (Render(ps) + after) == Render(ps) + after;
  }

  /** A list starts with no `>`: every piece opens with another character. */
  lemma FirstNotChevron(ps: seq<Piece>, after: string, inBracket: bool)
    requires ps != [] && Fits(ps, after, inBracket)
    ensures |Render(ps)| > 0 && Render(ps)[0] != '>'
  {
    match ps[0]
    case Gap(c) =>
    case Name(w) =>
    case Group(o, inner) =>
  }

  /** A name is what the identifier scanner takes in front of the text after it. */
  lemma NameLen(w: string, after: string)
    requires IdentifierText(w) && NameEnds(w, after)
    ensures IdentifierLen(w + after) == |w|
  {
    var s := w + after;
    assert s[0] == w[0];
    if w[0] == '`' && |w| > 1 && w[|w| - 1] == '`' && AllIdentifierBody(w[1..|w| - 1]) {
      assert IdentifierWord(w, after);
      IdentifierLenOf(w, after);
    } else if w[0] == '`' {
      assert AllIdentifierBody(w[1..]);
      assert s[1..] == w[1..] + after;
      IdentifierBodyRunOf(w[1..], after);
      if after != [] {
        assert IdentifierBodyRun(after) == 0;
        assert s[|w|] == after[0];
      }
    } else {
      assert IdentifierWord(w, after);
      IdentifierLenOf(w, after);
    }
  }

  /** The identifier scanner takes a name that ends there. */
  lemma NameOf(s: string)
    requires |s| > 0 && (IsIdentifierHead(s[0]) || s[0] == '`')
    ensures IdentifierText(s[..IdentifierLen(s)]) && NameEnds(s[..IdentifierLen(s)], s[IdentifierLen(s)..])
  {
    IdentifierShape(s);
    var n := IdentifierLen(s);
    var w := s[..n];
    if s[0] == '`' {
      var b := IdentifierBodyRun(s[1..]);
      IdentifierBodyRunShape(s[1..]);
      assert s[1..][..b] == s[1..1 + b];
      if n == 1 + b {
        assert w[1..] == s[1..1 + b];
        if n < |s| {
          assert s[n..][0] == s[n];
        }
      } else {
        assert w[1..|w| - 1] == s[1..1 + b];
      }
    } else if n < |s| {
      assert s[n..][0] == s[n];
    }
  }

  /** The lookahead steps over a separator. */
  lemma ProbeGap(c: char, t: string, opens: seq<char>, outer: nat)
    requires IsProbeSkip(c) || (c == ':' && |opens| > 0 && opens[|opens| - 1] == '[')
    ensures Probe([c] + t, opens, outer) == Probe(t, opens, outer)
  {
    var s := [c] + t;
    assert s[0] == c && s[1..] == t;
  }

  /** The lookahead steps over a whole name. */
  lemma ProbeName(w: string, t: string, opens: seq<char>, outer: nat)
    requires IdentifierText(w) && NameEnds(w, t)
    ensures Probe(w + t, opens, outer) == Probe(t, opens, outer)
  {
    var s := w + t;
    assert s[0] == w[0];
    NameLen(w, t);
    assert s[|w|..] == t;
  }

  /** The lookahead pushes an opening bracket. */
  lemma ProbeGroupOpen(o: char, x: string, opens: seq<char>, outer: nat)
    requires o == '<' || o == '(' || o == '['
    ensures Probe([o] + x, opens, outer) == Probe(x, opens + [o], outer)
  {
    var s := [o] + x;
    assert s[0] == o && s[1..] == x;
  }

  /** The lookahead pops a bracket at its closer, and goes on when brackets remain. */
  lemma ProbeGroupClose(o: char, t: string, opens: seq<char>, outer: nat)
    requires |opens| > 0 && (o == '<' || o == '(' || o == '[')
    requires o == '<' ==> !(|t| > 0 && StartsWord(t[0])) && ChevronRun(t) <= CountChar('<', opens) + outer
    ensures Probe([Closer(o)] + t, opens + [o], outer) == Probe(t, opens, outer)
  {
    var s := [Closer(o)] + t;
    var opens' := opens + [o];
    assert s[0] == Closer(o) && s[1..] == t;
    assert opens'[..|opens'| - 1] == opens;
    if o == '<' {
      assert CountChar('<', opens') == CountChar('<', opens) + 1;
      if |t| > 0 {
        assert s[1] == t[0];
      }
    }
  }

  // ---------------------------------------------------------------------------
  // The lookahead reads every list

  /**
   * Reading a list leaves the lookahead's stack as it was: what it decides
   * after the list is what it decides on the text that follows.
   */
  lemma {:induction false} ProbeReads(ps: seq<Piece>, more: string, opens: seq<char>, outer: nat)
    requires |opens| > 0 && Fits(ps, more, opens[|opens| - 1] == '[')
    requires ChevronRun(more) <= CountChar('<', opens) + outer
    ensures Probe(Render(ps) + more, opens, outer) == Probe(more, opens, outer)
    decreases ps, 0
  {
    if ps != [] {
      var p := ps[0];
      var tail := ps[1..];
      var t := Render(tail) + more;
      assert ps == [p] + tail;
      RenderFront(ps, more);
      FitsCons(p, tail, more, opens[|opens| - 1] == '[');
      ProbeReads(tail, more, opens, outer);
      var s := Render(ps) + more;
      assert [p][0] == p && [p][1..] == [] && Render([p][1..]) + t == t;
      match p
      case Gap(c) =>
        RenderSingle(p, t);
        ProbeGap(c, t, opens, outer);
        assert Probe(s, opens, outer) == Probe(t, opens, outer);
      case Name(w) =>
        RenderSingle(p, t);
        ProbeName(w, t, opens, outer);
        assert Probe(s, opens, outer) == Probe(t, opens, outer);
      case Group(o, inner) =>
        assert ChevronRun(t) <= ChevronRun(more) by {
          if tail != [] {
            FirstNotChevron(tail, more, opens[|opens| - 1] == '[');
            assert t[0] == Render(tail)[0];
          } else {
            assert t == more;
          }
        }
        ProbeReadsGroup(o, inner, t, opens, outer);
    } else {
      assert Render(ps) + more == more;
    }
  }

  /** Reading a bracketed group pushes its bracket, reads the list inside and pops it again. */
  lemma {:induction false} ProbeReadsGroup(o: char, inner: seq<Piece>, t: string, opens: seq<char>, outer: nat)
    requires |opens| > 0 && (o == '<' || o == '(' || o == '[')
    requires Fits(inner, [Closer(o)] + t, o == '[')
    requires o == '<' ==> !(|t| > 0 && StartsWord(t[0]))
    requires ChevronRun(t) <= CountChar('<', opens) + outer
    ensures Probe(Render([Group(o, inner)]) + t, opens, outer) == Probe(t, opens, outer)
    decreases inner, 1
  {
    var opens' := opens + [o];
    assert opens'[|opens'| - 1] == o;
    var inside := [Closer(o)] + t;
    assert inside[1..] == t && inside[0] == Closer(o);
    assert CountChar('<', opens') == CountChar('<', opens) + (if o == '<' then 1 else 0) by {
      assert opens'[..|opens'| - 1] == opens;
    }
    assert ChevronRun(inside) <= CountChar('<', opens') + outer by {
      if o == '<' {
        assert ChevronRun(inside) == 1 + ChevronRun(t);
      } else {
        assert ChevronRun(inside) == 0;
      }
    }
    ProbeReads(inner, inside, opens', outer);
    RenderGroup(o, inner, t);
    ProbeGroupOpen(o, Render(inner) + inside, opens, outer);
    ProbeGroupClose(o, t, opens, outer);
  }

  /** The lookahead succeeds on every type-argument list closed by `>`. */
  lemma ProbeAccepts(ps: seq<Piece>, rest: string, outer: nat)
    requires ArgumentList(ps, rest, outer)
    ensures Probe(Render(ps) + ">" + rest, ['<'], outer)
  {
    var more := ">" + rest;
    assert CountChar('<', ['<']) == 1 by {
      assert ['<'][..0] == [];
    }
    ProbeReads(ps, more, ['<'], outer);
    assert more[0] == '>' && more[1..] == rest;
    if |rest| > 0 {
      assert more[1] == rest[0];
    }
    assert Render(ps) + ">" + rest == Render(ps) + more;
  }

  // ---------------------------------------------------------------------------
  // Every success of the lookahead is a list

  /**
   * A successful lookahead reads a list up to the closer of its innermost
   * bracket; the text after that closer is what the rest of the lookahead
   * reads with that bracket popped.
   */
  lemma {:induction false} ProbeParses(s: string, opens: seq<char>, outer: nat) returns (ps: seq<Piece>, rest: string)
    requires |opens| > 0 && Probe(s, opens, outer)
    ensures s == Render(ps) + ([Closer(opens[|opens| - 1])] + rest)
    ensures Fits(ps, [Closer(opens[|opens| - 1])] + rest, opens[|opens| - 1] == '[')
    ensures opens[|opens| - 1] == '<' ==>
              !(|rest| > 0 && StartsWord(rest[0])) && 1 + ChevronRun(rest) <= CountChar('<', opens) + outer
    ensures |opens| > 1 ==> Probe(rest, opens[..|opens| - 1], outer)
    decreases |s|, 2
  {
    var top := opens[|opens| - 1];
    var c := s[0];
    if IsProbeSkip(c) || (c == ':' && top == '[') {
      assert s == [c] + s[1..];
      ProbeGap(c, s[1..], opens, outer);
      RenderSingle(Gap(c), s[1..]);
      FitsSingle(Gap(c), s[1..], top == '[');
      ps, rest := ProbeParsesPiece(Gap(c), s, 1, opens, outer);
    } else if IsIdentifierHead(c) || c == '`' {
      ps, rest := ProbeParsesName(s, opens, outer);
    } else if c == '<' || c == '(' || c == '[' {
      ps, rest := ProbeParsesGroup(s, opens, outer);
    } else {
      ps, rest := ProbeParsesEnd(s, opens, outer);
    }
  }

  /** A name at the front, and the list after it. */
  lemma {:induction false} ProbeParsesName(s: string, opens: seq<char>, outer: nat)
    returns (ps: seq<Piece>, rest: string)
    requires |opens| > 0 && |s| > 0 && (IsIdentifierHead(s[0]) || s[0] == '`') && Probe(s, opens, outer)
    ensures s == Render(ps) + ([Closer(opens[|opens| - 1])] + rest)
    ensures Fits(ps, [Closer(opens[|opens| - 1])] + rest, opens[|opens| - 1] == '[')
    ensures opens[|opens| - 1] == '<' ==>
              !(|rest| > 0 && StartsWord(rest[0])) && 1 + ChevronRun(rest) <= CountChar('<', opens) + outer
    ensures |opens| > 1 ==> Probe(rest, opens[..|opens| - 1], outer)
    decreases |s|, 1
  {
    var n := IdentifierLen(s);
    NameOf(s);
    assert s == s[..n] + s[n..];
    ProbeName(s[..n], s[n..], opens, outer);
    RenderSingle(Name(s[..n]), s[n..]);
    FitsSingle(Name(s[..n]), s[n..], opens[|opens| - 1] == '[');
    ps, rest := ProbeParsesPiece(Name(s[..n]), s, n, opens, outer);
  }

  /** The closer of the innermost bracket at the front: the list is empty. */
  lemma ProbeParsesEnd(s: string, opens: seq<char>, outer: nat) returns (ps: seq<Piece>, rest: string)
    requires |opens| > 0 && |s| > 0 && Probe(s, opens, outer)
    requires !IsProbeSkip(s[0]) && !(s[0] == ':' && opens[|opens| - 1] == '[')
    requires !IsIdentifierHead(s[0]) && s[0] != '`' && s[0] != '<' && s[0] != '(' && s[0] != '['
    ensures s == Render(ps) + ([Closer(opens[|opens| - 1])] + rest)
    ensures Fits(ps, [Closer(opens[|opens| - 1])] + rest, opens[|opens| - 1] == '[')
    ensures opens[|opens| - 1] == '<' ==>
              !(|rest| > 0 && StartsWord(rest[0])) && 1 + ChevronRun(rest) <= CountChar('<', opens) + outer
    ensures |opens| > 1 ==> Probe(rest, opens[..|opens| - 1], outer)
  {
    var c := s[0];
    ps, rest := [], s[1..];
    assert Render(ps) + ([Closer(opens[|opens| - 1])] + rest) == [c] + s[1..];
    if c == '>' {
      assert ChevronRun(s) == 1 + ChevronRun(rest);
      if |rest| > 0 {
        assert s[1] == rest[0];
      }
    }
  }

  /** A separator or a name at the front, and the list after it. */
  lemma {:induction false} ProbeParsesPiece(p: Piece, s: string, n: nat, opens: seq<char>, outer: nat)
    returns (ps: seq<Piece>, rest: string)
    requires |opens| > 0 && !p.Group? && 0 < n <= |s| && s == Render([p]) + s[n..]
    requires Fits([p], s[n..], opens[|opens| - 1] == '[') && Probe(s[n..], opens, outer)
    ensures s == Render(ps) + ([Closer(opens[|opens| - 1])] + rest)
    ensures Fits(ps, [Closer(opens[|opens| - 1])] + rest, opens[|opens| - 1] == '[')
    ensures opens[|opens| - 1] == '<' ==>
              !(|rest| > 0 && StartsWord(rest[0])) && 1 + ChevronRun(rest) <= CountChar('<', opens) + outer
    ensures |opens| > 1 ==> Probe(rest, opens[..|opens| - 1], outer)
    decreases |s|, 0
  {
    var top := opens[|opens| - 1];
    var ps', rest' := ProbeParses(s[n..], opens, outer);
    ps, rest := [p] + ps', rest';
    var k := [Closer(top)] + rest;
    RenderPrepend(p, ps', k);
    FitsCons(p, ps', k, top == '[');
    FitsSingle(p, s[n..], top == '[');
    FitsSingle(p, Render(ps') + k, top == '[');
  }

  /** A bracketed group at the front, and the list after it. */
  lemma {:induction false} ProbeParsesGroup(s: string, opens: seq<char>, outer: nat)
    returns (ps: seq<Piece>, rest: string)
    requires |opens| > 0 && |s| > 0 && (s[0] == '<' || s[0] == '(' || s[0] == '[') && Probe(s, opens, outer)
    ensures s == Render(ps) + ([Closer(opens[|opens| - 1])] + rest)
    ensures Fits(ps, [Closer(opens[|opens| - 1])] + rest, opens[|opens| - 1] == '[')
    ensures opens[|opens| - 1] == '<' ==>
              !(|rest| > 0 && StartsWord(rest[0])) && 1 + ChevronRun(rest) <= CountChar('<', opens) + outer
    ensures |opens| > 1 ==> Probe(rest, opens[..|opens| - 1], outer)
    decreases |s|, 1
  {
    var top := opens[|opens| - 1];
    var c := s[0];
    assert s == [c] + s[1..];
    ProbeGroupOpen(c, s[1..], opens, outer);
    var opens' := opens + [c];
    assert opens'[|opens'| - 1] == c && opens'[..|opens'| - 1] == opens;
    var inner, rest1 := ProbeParses(s[1..], opens', outer);
    assert |rest1| < |s|;
    var ps', rest' := ProbeParses(rest1, opens, outer);
    var g := Group(c, inner);
    ps, rest := [g] + ps', rest';
    var k := [Closer(top)] + rest;
    RenderGroup(c, inner, rest1);
    RenderPrepend(g, ps', k);
    FitsCons(g, ps', k, top == '[');
    FitsSingle(g, rest1, top == '[');
  }

  /** Every success of the lookahead from a `<` reads a type-argument list closed by `>`. */
  lemma ProbeFinds(s: string, outer: nat) returns (ps: seq<Piece>, rest: string)
    requires Probe(s, ['<'], outer)
    ensures s == Render(ps) + ">" + rest && ArgumentList(ps, rest, outer)
  {
    assert CountChar('<', ['<']) == 1 by {
      assert ['<'][..0] == [];
    }
    ps, rest := ProbeParses(s, ['<'], outer);
    assert Render(ps) + ">" + rest == Render(ps) + (">" + rest);
  }

  /**
   * A `<` opens a generic scope exactly when it follows an identifier and
   * the text after it starts with a type-argument list closed by `>`.
   */
  lemma GenericOpensList(s: string, lx: Lexer)
    ensures GenericOpens(s, lx) <==>
              |s| > 0 && s[0] == '<' && lx.last == Some(Identifier) &&
              exists ps: seq<Piece>, rest: string ::
                s[1..] == Render(ps) + ">" + rest && ArgumentList(ps, rest, CountGeneric(lx.scopes))
  {
    if GenericOpens(s, lx) {
      var ps, rest := ProbeFinds(s[1..], CountGeneric(lx.scopes));
    } else if |s| > 0 && s[0] == '<' && lx.last == Some(Identifier) {
      if exists ps: seq<Piece>, rest: string ::
           s[1..] == Render(ps) + ">" + rest && ArgumentList(ps, rest, CountGeneric(lx.scopes)) {
        var ps: seq<Piece>, rest: string :|
          s[1..] == Render(ps) + ">" + rest && ArgumentList(ps, rest, CountGeneric(lx.scopes));
        ProbeAccepts(ps, rest, CountGeneric(lx.scopes));
        assert false;
      }
    }
  }

  /**
   * A `:` continues the lookahead only directly inside `[ ]`, so the `:` of
   * a ternary such as `a<b ? c : d > e` ends it in failure.
   */
  lemma ColonOnlyInBrackets(rest: string, opens: seq<char>, outer: nat)
    requires |opens| > 0
    ensures Probe(":" + rest, opens, outer) <==> opens[|opens| - 1] == '[' && Probe(rest, opens, outer)
  {
    var s := ":" + rest;
    assert s[0] == ':' && s[1..] == rest;
  }
}
