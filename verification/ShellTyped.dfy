/** Command lines of user/sh.c as they are typed, with any blanks between the tokens. */
module ShellTyped {
  import opened ShellModel
  import opened ShellRoundTrip
  import opened ShellGrammar

  // ----- Text from tokens -----

  predicate TokOk(tok: Token) {
    match tok
    case End => false
    case Sym(c) => IsSymbol(c)
    case AppendSym => true
    case Word(w) => IsWord(w)
  }

  function TokText(tok: Token): string {
    match tok
    case End => ""
    case Sym(c) => [c]
    case AppendSym => ">>"
    case Word(w) => w
  }

  /** The tokens with a gap before each and one at the end. */
  function Typed(toks: seq<Token>, gaps: seq<string>): string
    requires |gaps| == |toks| + 1
  {
    gaps[0] + if toks == [] then "" else TokText(toks[0]) + Typed(toks[1..], gaps[1..])
  }

  predicate Blank(gap: string) { forall i :: 0 <= i < |gap| ==> IsSpace(gap[i]) }

  /** Without a gap, the text of the two would be read differently. */
  predicate MustPart(a: Token, b: Token) { (a.Word? && b.Word?) || (a == Sym('>') && (b == Sym('>') || b.AppendSym?)) }

  /** The gaps are blank, and there is one where it is needed. */
  ghost predicate Spaced(toks: seq<Token>, gaps: seq<string>) {
    && |gaps| == |toks| + 1 && (forall i :: 0 <= i < |gaps| ==> Blank(gaps[i]))
    && (forall i :: 0 <= i < |toks| ==> TokOk(toks[i]))
    && forall i :: 0 < i < |toks| && MustPart(toks[i - 1], toks[i]) ==> gaps[i] != ""
  }

  lemma {:induction false} SkipBlank(gap: string, t: string)
    requires Blank(gap)
    ensures Skip(gap + t) == Skip(t)
  {
    if gap == "" {
      assert gap + t == t;
    } else {
      assert (gap + t)[0] == gap[0] && (gap + t)[1..] == gap[1..] + t;
      SkipBlank(gap[1..], t);
    }
  }

  /** A text starts with its first gap or, without one, with its first token. */
  lemma TypedStarts(toks: seq<Token>, gaps: seq<string>)
    requires Spaced(toks, gaps)
    ensures var t := Typed(toks, gaps);
            if gaps[0] != "" then t != "" && IsSpace(t[0])
            else if toks != [] then t != "" && TokText(toks[0]) != "" && t[0] == TokText(toks[0])[0]
            else t == ""
  {
    hide IsSpace, IsSymbol, IsPlain;
    if gaps[0] != "" {
      assert Blank(gaps[0]);
    } else if toks != [] {
      assert TokOk(toks[0]);
    }
  }

  lemma TokenFirst(tok: Token, rest: string)
    requires TokOk(tok) && (tok.Word? && rest != "" ==> !IsPlain(rest[0]))
    requires (tok == Sym('>') && rest != "" ==> rest[0] != '>')
    ensures GetToken(TokText(tok) + rest) == Scan(tok, Skip(rest))
  {
    hide Skip, WordLen;
    match tok
    case Word(w) => WordAt(w, rest);
    case AppendSym =>
      var t := TokText(tok) + rest;
      assert t[0] == '>' && t[1] == '>' && t[2..] == rest;
      SkipStays(t);
    case Sym(c) =>
      var t := TokText(tok) + rest;
      assert t[0] == c && t[1..] == rest && (|t| > 1 ==> t[1] == rest[0]);
      SkipStays(t);
  }

  /** The tokens of the text are the tokens it was made from, whatever the gaps. */
  lemma {:induction false} TypedToks(toks: seq<Token>, gaps: seq<string>)
    requires Spaced(toks, gaps)
    ensures Toks(Typed(toks, gaps)) == toks
    decreases |toks|
  {
    hide Skip, GetToken, IsSpace, IsPlain, IsWord, IsSymbol, TokOk, MustPart, TokText;
    var t := Typed(toks, gaps);
    assert Blank(gaps[0]);
    if toks == [] {
      assert t == gaps[0] + "";
      SkipBlank(gaps[0], "");
      NothingLeft();
      SkipSame(t);
    } else {
      var rest := Typed(toks[1..], gaps[1..]);
      SpacedRest(toks, gaps);
      RestStarts(toks, gaps);
      TokenFirst(toks[0], rest);
      SkipBlank(gaps[0], TokText(toks[0]) + rest);
      SkipSame(t);
      SkipSame(TokText(toks[0]) + rest);
      SkipSame(rest);
      TypedToks(toks[1..], gaps[1..]);
      NotEnd(toks[0]);
      assert [toks[0]] + toks[1..] == toks;
    }
  }

  lemma NothingLeft()
    ensures Skip("") == "" && GetToken("").tok.End?
  {
  }

  lemma NotEnd(tok: Token)
    requires TokOk(tok)
    ensures !tok.End?
  {
  }

  lemma SpacedRest(toks: seq<Token>, gaps: seq<string>)
    requires Spaced(toks, gaps) && toks != []
    ensures Spaced(toks[1..], gaps[1..]) && TokOk(toks[0])
  {
    forall i | 0 < i < |toks[1..]| && MustPart(toks[1..][i - 1], toks[1..][i]) ensures gaps[1..][i] != "" {
      assert MustPart(toks[i], toks[i + 1]);
    }
  }

  /** What follows the first token does not run into it. */
  lemma RestStarts(toks: seq<Token>, gaps: seq<string>)
    requires Spaced(toks, gaps) && toks != []
    ensures var rest := Typed(toks[1..], gaps[1..]);
            && (toks[0].Word? && rest != "" ==> !IsPlain(rest[0]))
            && (toks[0] == Sym('>') && rest != "" ==> rest[0] != '>')
  {
    SpacedRest(toks, gaps);
    TypedStarts(toks[1..], gaps[1..]);
    if |toks| > 1 {
      assert TokOk(toks[1]);
      assert MustPart(toks[0], toks[1]) ==> gaps[1] != "";
    }
  }

  // ----- Typed lines -----

  /** A line of the grammar is parsed to its tree however it is spaced. */
  lemma TypedLine(line: Line, gaps: seq<string>)
    requires LineOk(line) && Spaced(LineToks(line), gaps)
    ensures ParseCmd(Typed(LineToks(line), gaps)) == Ok(LineTree(line), "")
  {
    hide ParseCmd, Toks, LineToks, LineTree, LineOk, Typed;
    TypedToks(LineToks(line), gaps);
    GrammarIsParsed(line, Typed(LineToks(line), gaps));
  }

  /** Words and redirections in any order: the redirections, the last one outermost, around the
      words. */
  lemma TypedSimple(items: seq<Item>, gaps: seq<string>)
    requires |ArgsOf(items)| < MAXARGS && Spaced(ItemsToks(items), gaps)
    ensures ParseCmd(Typed(ItemsToks(items), gaps)) == Ok(Around(Exec(ArgsOf(items)), IntosOf(items)), "")
  {
    hide ParseCmd, Toks, Typed, Spaced, ItemsToks, Around, LineToks, LineTree, LineOk;
    Alone(One(Simple(items)));
    TypedLine(Last(One(Simple(items)), 0), gaps);
  }

  /** A pipeline that is a whole line. */
  lemma Alone(p: Pipes)
    ensures var line := Last(p, 0);
            && LineToks(line) == PipesToks(p) && LineTree(line) == PipesTree(p) && (LineOk(line) <==> PipesOk(p))
            && (p.One? ==>
                PipesToks(p) == UnitToks(p.u) && PipesTree(p) == UnitTree(p.u) && (PipesOk(p) <==> UnitOk(p.u)))
  {
    assert Amps(0) == [];
  }

  /** a | b | c */
  lemma PipesNest(a: Unit, b: Unit, c: Unit, t: string)
    requires UnitOk(a) && UnitOk(b) && UnitOk(c)
    requires Toks(t) == UnitToks(a) + [Sym('|')] + UnitToks(b) + [Sym('|')] + UnitToks(c)
    ensures ParseCmd(t) == Ok(Pipe(UnitTree(a), Pipe(UnitTree(b), UnitTree(c))), "")
  {
    hide ParseCmd, Toks, UnitToks, UnitTree, UnitOk;
    var p := Bar(b, One(c));
    var line := Last(Bar(a, p), 0);
    Alone(One(c));
    Alone(Bar(a, p));
    assert PipesToks(p) == UnitToks(b) + ([Sym('|')] + UnitToks(c));
    assert PipesToks(Bar(a, p)) == UnitToks(a) + [Sym('|')] + UnitToks(b) + [Sym('|')] + UnitToks(c);
    GrammarIsParsed(line, t);
  }

  /** a ; b ; c */
  lemma ListsNest(a: Unit, b: Unit, c: Unit, t: string)
    requires UnitOk(a) && UnitOk(b) && UnitOk(c)
    requires Toks(t) == UnitToks(a) + [Sym(';')] + UnitToks(b) + [Sym(';')] + UnitToks(c)
    ensures ParseCmd(t) == Ok(List(UnitTree(a), List(UnitTree(b), UnitTree(c))), "")
  {
    hide ParseCmd, Toks, UnitToks, UnitTree, UnitOk;
    var rest := Semi(One(b), 0, Last(One(c), 0));
    var line := Semi(One(a), 0, rest);
    Alone(One(a));
    Alone(One(b));
    Alone(One(c));
    assert Amps(0) == [];
    assert LineToks(rest) == UnitToks(b) + ([Sym(';')] + UnitToks(c));
    assert LineToks(line) == UnitToks(a) + [Sym(';')] + UnitToks(b) + [Sym(';')] + UnitToks(c);
    GrammarIsParsed(line, t);
  }

  /** a & ; b */
  lemma BackThenNext(a: Unit, b: Unit, t: string)
    requires UnitOk(a) && UnitOk(b) && Toks(t) == UnitToks(a) + [Sym('&'), Sym(';')] + UnitToks(b)
    ensures ParseCmd(t) == Ok(List(Back(UnitTree(a)), UnitTree(b)), "")
  {
    hide ParseCmd, Toks, UnitToks, UnitTree, UnitOk;
    var line := Semi(One(a), 1, Last(One(b), 0));
    Alone(One(a));
    Alone(One(b));
    assert Backs(UnitTree(a), 0) == UnitTree(a);
    assert Amps(1) == [Sym('&')];
    assert LineToks(line) == UnitToks(a) + [Sym('&'), Sym(';')] + UnitToks(b);
    GrammarIsParsed(line, t);
  }

  /** After the & signs of a pipeline, only ; or the end of the line is accepted: a & b is not. */
  lemma NothingAfterBack(p: Pipes, n: nat, more: seq<Token>, t: string)
    requires PipesOk(p) && n > 0 && Toks(t) == PipesToks(p) + (Amps(n) + more) && more != []
    requires more[0] != Sym('&') && more[0] != Sym(';')
    ensures ParseCmd(t).Panic?
  {
    hide GetToken, Skip, Toks, ParsePipe, ParseBacks, PipesTree, PipesToks, PipesOk, Backs;
    assert (Amps(n) + more)[0] == Sym('&');
    PipesParse(p, t, Amps(n) + more);
    var a := ParsePipe(t);
    BacksParse(a.cmd, n, a.rest, more);
    Next(ParseBacks(a.cmd, a.rest).rest, ";");
  }
}
