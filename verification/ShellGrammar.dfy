/** The grammar of the command language of user/sh.c, on tokens. The parser accepts exactly the
    lines of the grammar, however they are spaced, and builds the tree that the grammar gives. */
module ShellGrammar {
  import opened ShellModel
  import opened ShellRoundTrip

  // ----- Lines as they are typed -----

  /** A word or a redirection of a simple command. */
  datatype Item = Arg(w: string) | Into(r: Redirection)

  datatype Unit = Simple(items: seq<Item>) | Block(line: Line, redirs: seq<Redirection>)

  datatype Pipes = One(u: Unit) | Bar(u: Unit, rest: Pipes)

  /** A pipeline with some & signs, and the rest of the line after a ; sign. */
  datatype Line = Last(p: Pipes, amps: nat) | Semi(p: Pipes, amps: nat, rest: Line)

  function ArgsOf(items: seq<Item>): seq<string> {
    if items == [] then [] else (if items[0].Arg? then [items[0].w] else []) + ArgsOf(items[1..])
  }

  function IntosOf(items: seq<Item>): seq<Redirection> {
    if items == [] then [] else (if items[0].Into? then [items[0].r] else []) + IntosOf(items[1..])
  }

  /** Every simple command has fewer than MAXARGS words. */
  predicate UnitOk(u: Unit) {
    match u
    case Simple(items) => |ArgsOf(items)| < MAXARGS
    case Block(line, _) => LineOk(line)
  }

  predicate PipesOk(p: Pipes) {
    match p
    case One(u) => UnitOk(u)
    case Bar(u, rest) => UnitOk(u) && PipesOk(rest)
  }

  predicate LineOk(line: Line) {
    match line
    case Last(p, _) => PipesOk(p)
    case Semi(p, _, rest) => PipesOk(p) && LineOk(rest)
  }

  // ----- Their tokens -----

  function SignTok(mode: Mode): Token {
    match mode
    case In => Sym('<')
    case Out => Sym('>')
    case Append => AppendSym
  }

  function RedirToks(list: seq<Redirection>): seq<Token> {
    if list == [] then [] else [SignTok(list[0].mode), Word(list[0].file)] + RedirToks(list[1..])
  }

  function ItemToks(item: Item): seq<Token> {
    match item
    case Arg(w) => [Word(w)]
    case Into(r) => [SignTok(r.mode), Word(r.file)]
  }

  function ItemsToks(items: seq<Item>): seq<Token> {
    if items == [] then [] else ItemToks(items[0]) + ItemsToks(items[1..])
  }

  function Amps(n: nat): seq<Token> { seq(n, _ => Sym('&')) }

  function UnitToks(u: Unit): seq<Token> {
    match u
    case Simple(items) => ItemsToks(items)
    case Block(line, redirs) => [Sym('(')] + LineToks(line) + [Sym(')')] + RedirToks(redirs)
  }

  function PipesToks(p: Pipes): seq<Token> {
    match p
    case One(u) => UnitToks(u)
    case Bar(u, rest) => UnitToks(u) + ([Sym('|')] + PipesToks(rest))
  }

  function LineToks(line: Line): seq<Token> {
    match line
    case Last(p, amps) => PipesToks(p) + Amps(amps)
    case Semi(p, amps, rest) => PipesToks(p) + Amps(amps) + ([Sym(';')] + LineToks(rest))
  }

  // ----- Their trees -----

  /** The last redirection is the outermost. */
  function Around(c: Cmd, list: seq<Redirection>): Cmd {
    if list == [] then c
    else
      var last := list[|list| - 1];
      Redir(Around(c, list[..|list| - 1]), last.file, last.mode)
  }

  function Backs(c: Cmd, n: nat): Cmd { if n == 0 then c else Back(Backs(c, n - 1)) }

  function UnitTree(u: Unit): Cmd {
    match u
    case Simple(items) => Around(Exec(ArgsOf(items)), IntosOf(items))
    case Block(line, redirs) => Around(LineTree(line), redirs)
  }

  function PipesTree(p: Pipes): Cmd {
    match p
    case One(u) => UnitTree(u)
    case Bar(u, rest) => Pipe(UnitTree(u), PipesTree(rest))
  }

  function LineTree(line: Line): Cmd {
    match line
    case Last(p, amps) => Backs(PipesTree(p), amps)
    case Semi(p, amps, rest) => List(Backs(PipesTree(p), amps), LineTree(rest))
  }

  lemma {:induction false} WrapIsAround(c: Cmd, list: seq<Redirection>)
    ensures Wrap(c, list) == Around(c, list)
    decreases |list|
  {
    if list != [] {
      WrapIsAround(Redir(c, list[0].file, list[0].mode), list[1..]);
      AroundFirst(c, list);
    }
  }

  lemma {:induction false} AroundFirst(c: Cmd, list: seq<Redirection>)
    requires list != []
    ensures Around(c, list) == Around(Redir(c, list[0].file, list[0].mode), list[1..])
    decreases |list|
  {
    var n := |list| - 1;
    if n > 0 {
      AroundFirst(c, list[..n]);
      assert list[..n][1..] == list[1..][..n - 1];
      assert list[1..][n - 1] == list[n];
    } else {
      assert list[1..] == [] && list[..0] == [];
    }
  }

  // ----- The tokens of a text -----

  function Toks(t: string): seq<Token>
    decreases |t|
  {
    var a := GetToken(t);
    if a.tok.End? then [] else [a.tok] + Toks(a.rest)
  }

  /** The character that peek compares, or 'a' for a word. */
  function Lead(tok: Token): char {
    match tok
    case Sym(c) => c
    case AppendSym => '>'
    case Word(_) => 'a'
    case End => 'a'
  }

  lemma SkipSame(t: string)
    ensures Skip(Skip(t)) == Skip(t) && GetToken(Skip(t)) == GetToken(t) && Toks(Skip(t)) == Toks(t)
  {
    SkipStays(Skip(t));
  }

  /** What peek and gettoken see. */
  lemma Next(t: string, toks: string)
    requires forall i :: 0 <= i < |toks| ==> IsSymbol(toks[i])
    ensures Toks(t) == [] <==> GetToken(t).tok.End?
    ensures Toks(t) != [] ==> Toks(t)[0] == GetToken(t).tok && Toks(t)[1..] == Toks(GetToken(t).rest)
    ensures Peek(t, toks) <==> Toks(t) != [] && Lead(Toks(t)[0]) in toks
    ensures Toks(Skip(t)) == Toks(t) && (Toks(t) == [] <==> Skip(t) == "")
  {
    hide WordLen;
    SkipSame(t);
    if Toks(t) != [] && Toks(t)[0].Word? {
      assert Skip(t)[0] !in toks;
    }
  }

  ghost predicate Starts(toks: seq<Token>, chars: string) {
    toks != [] && Lead(toks[0]) in chars
  }

  // ----- Lines of the grammar are parsed -----

  lemma {:induction false} RedirsParse(list: seq<Redirection>, t: string, more: seq<Token>)
    requires Toks(t) == RedirToks(list) + more && !Starts(more, "<>")
    ensures var r := ParseRedirs(t);
            r.Redirs? && r.list == list && Toks(r.rest) == more
    decreases |list|
  {
    hide GetToken, Skip, Toks, RedirToks;
    Next(t, "<>");
    if list == [] {
      NoToks();
      assert RedirToks(list) + more == more;
    } else {
      var sign, word, rest := SignTok(list[0].mode), Word(list[0].file), RedirToks(list[1..]) + more;
      FirstRedir(list);
      assert RedirToks(list) + more == [sign, word] + rest;
      var a := GetToken(t);
      Next(a.rest, "");
      assert Toks(a.rest) == [word] + rest;
      RedirsParse(list[1..], GetToken(a.rest).rest, more);
      assert [list[0]] + list[1..] == list;
    }
  }

  /** The redirections with which the items start, and the items after them. */
  function Leading(items: seq<Item>): seq<Redirection> {
    if items == [] || items[0].Arg? then [] else [items[0].r] + Leading(items[1..])
  }

  function Others(items: seq<Item>): (rest: seq<Item>)
    ensures |rest| <= |items| && (rest == [] || rest[0].Arg?)
  {
    if items == [] || items[0].Arg? then items else Others(items[1..])
  }

  lemma {:induction false} Split(items: seq<Item>)
    ensures ItemsToks(items) == RedirToks(Leading(items)) + ItemsToks(Others(items))
    ensures ArgsOf(items) == ArgsOf(Others(items)) && IntosOf(items) == Leading(items) + IntosOf(Others(items))
  {
    if items != [] && items[0].Into? {
      Split(items[1..]);
      var l := Leading(items);
      assert l[0] == items[0].r && l[1..] == Leading(items[1..]);
    }
  }

  /** One word and the redirections after it. */
  lemma ArgsOne(w: string, list: seq<Redirection>, t: string, argv: seq<string>, redirs: seq<Redirection>,
                more: seq<Token>) returns (u: string)
    requires Toks(t) == [Word(w)] + (RedirToks(list) + more) && !Starts(more, "<>") && |argv| + 1 < MAXARGS
    ensures Toks(u) == more && ParseArgs(t, argv, redirs) == ParseArgs(u, argv + [w], redirs + list)
  {
    hide GetToken, Skip, Toks, ParseRedirs, Wrap, RedirToks;
    Next(t, "|)&;");
    var a := GetToken(t);
    RedirsParse(list, a.rest, more);
    u := ParseRedirs(a.rest).rest;
  }

  lemma ArgsNone(t: string, argv: seq<string>, redirs: seq<Redirection>)
    requires Toks(t) == [] || Starts(Toks(t), "|)&;")
    ensures var r := ParseArgs(t, argv, redirs);
            r.Ok? && r.cmd == Wrap(Exec(argv), redirs) && Toks(r.rest) == Toks(t)
  {
    hide GetToken, Skip, Toks, ParseRedirs, Wrap;
    Next(t, "|)&;");
    TokenSkipped(t);
  }

  lemma FirstItem(items: seq<Item>)
    ensures items == [] ==> ItemsToks(items) == [] && ArgsOf(items) == [] && IntosOf(items) == []
    ensures items != [] && items[0].Arg? ==>
              && ItemsToks(items) == [Word(items[0].w)] + ItemsToks(items[1..])
              && ArgsOf(items) == [items[0].w] + ArgsOf(items[1..]) && IntosOf(items) == IntosOf(items[1..])
    ensures items != [] && items[0].Into? ==>
              && ItemsToks(items) == [SignTok(items[0].r.mode), Word(items[0].r.file)] + ItemsToks(items[1..])
              && ArgsOf(items) == ArgsOf(items[1..]) && IntosOf(items) == [items[0].r] + IntosOf(items[1..])
  {
  }

  lemma FirstRedir(list: seq<Redirection>)
    requires list != []
    ensures RedirToks(list) == [SignTok(list[0].mode), Word(list[0].file)] + RedirToks(list[1..])
  {
  }

  /** The text starts with words, redirections between them, and the end of the command. */
  ghost predicate ArgsLeft(t: string, items: seq<Item>, more: seq<Token>) {
    && Toks(t) == ItemsToks(items) + more && (more == [] || Starts(more, "|)&;"))
    && (items == [] || items[0].Arg?) && |ArgsOf(items)| < MAXARGS
  }

  lemma ArgsTree(t: string, first: seq<Redirection>, items: seq<Item>, more: seq<Token>)
    requires ArgsLeft(t, items, more)
    ensures var r := ParseArgs(t, [], first);
            r.Ok? && r.cmd == Around(Exec(ArgsOf(items)), first + IntosOf(items)) && Toks(r.rest) == more
  {
    hide Toks, ParseArgs, Wrap, Around, Starts, ItemsToks, ArgsOf, IntosOf;
    ArgsParse(items, t, [], first, more);
    assert [] + ArgsOf(items) == ArgsOf(items);
    WrapIsAround(Exec(ArgsOf(items)), first + IntosOf(items));
  }

  lemma {:induction false} ArgsParse(items: seq<Item>, t: string, argv: seq<string>, redirs: seq<Redirection>,
                                     more: seq<Token>)
    requires Toks(t) == ItemsToks(items) + more && (more == [] || Starts(more, "|)&;"))
    requires (items == [] || items[0].Arg?) && |argv| + |ArgsOf(items)| < MAXARGS
    ensures var r := ParseArgs(t, argv, redirs);
            r.Ok? && r.cmd == Wrap(Exec(argv + ArgsOf(items)), redirs + IntosOf(items)) && Toks(r.rest) == more
    decreases |items|
  {
    hide Toks, ParseArgs, Wrap, RedirToks, Starts, ItemsToks, ArgsOf, IntosOf, Leading, Others;
    FirstItem(items);
    if items == [] {
      assert ItemsToks(items) + more == more;
      assert argv + ArgsOf(items) == argv && redirs + IntosOf(items) == redirs;
      ArgsNone(t, argv, redirs);
    } else {
      var w, tail := items[0].w, items[1..];
      var list, rest := Leading(tail), Others(tail);
      Split(tail);
      FollowItems(rest, more);
      assert ItemsToks(items) + more == [Word(w)] + (RedirToks(list) + (ItemsToks(rest) + more));
      var u := ArgsOne(w, list, t, argv, redirs, ItemsToks(rest) + more);
      ArgsParse(rest, u, argv + [w], redirs + list, more);
      assert argv + [w] + ArgsOf(rest) == argv + ArgsOf(items);
      assert redirs + list + IntosOf(rest) == redirs + IntosOf(items);
    }
  }

  lemma TokenSkipped(t: string)
    ensures GetToken(t).tok.End? ==> Toks(GetToken(t).rest) == []
  {
  }

  /** After redirections comes a word or the end of the command. */
  lemma FollowItems(items: seq<Item>, more: seq<Token>)
    requires (items == [] || items[0].Arg?) && (more == [] || Starts(more, "|)&;"))
    ensures !Starts(ItemsToks(items) + more, "<>")
  {
    if items == [] {
      assert ItemsToks(items) + more == more;
    }
  }

  lemma {:induction false} BacksParse(c: Cmd, n: nat, t: string, more: seq<Token>)
    requires Toks(t) == Amps(n) + more && !Starts(more, "&")
    ensures var r := ParseBacks(c, t);
            r.cmd == Backs(c, n) && Toks(r.rest) == more
    decreases n
  {
    hide GetToken, Skip, Toks, Amps;
    Next(t, "&");
    if n == 0 {
      NoAmps(more);
    } else {
      AmpsMore(n - 1, more);
      BacksParse(Back(c), n - 1, GetToken(t).rest, more);
      BacksInside(c, n - 1);
    }
  }

  lemma AmpsMore(n: nat, more: seq<Token>)
    ensures Amps(n + 1) + more == [Sym('&')] + (Amps(n) + more)
  {
    assert Amps(n + 1) == [Sym('&')] + Amps(n);
  }

  lemma NoAmps(more: seq<Token>)
    ensures Amps(0) + more == more
  {
  }

  lemma {:induction false} BacksInside(c: Cmd, n: nat)
    ensures Backs(Back(c), n) == Back(Backs(c, n))
  {
    if n > 0 {
      BacksInside(c, n - 1);
    }
  }

  lemma UnitParses(u: Unit, t: string, more: seq<Token>)
    requires UnitOk(u) && Toks(t) == UnitToks(u) + more && (more == [] || Starts(more, "|)&;"))
    ensures var r := ParseExec(t);
            r.Ok? && r.cmd == UnitTree(u) && Toks(r.rest) == more
    decreases u, 0
  {
    match u
    case Simple(items) => SimpleParses(items, t, more);
    case Block(line, redirs) => BlockParsesTree(line, redirs, t, more);
  }

  lemma SimpleParses(items: seq<Item>, t: string, more: seq<Token>)
    requires |ArgsOf(items)| < MAXARGS && Toks(t) == ItemsToks(items) + more && (more == [] || Starts(more, "|)&;"))
    ensures var r := ParseExec(t);
            r.Ok? && r.cmd == UnitTree(Simple(items)) && Toks(r.rest) == more
  {
    hide GetToken, Skip, Toks, ParseRedirs, ParseArgs, Wrap, RedirToks, Around, ItemsToks, ArgsOf, IntosOf, Leading;
    hide Others;
    Next(t, "(");
    Split(items);
    FollowItems(Others(items), more);
    assert ItemsToks(items) + more == RedirToks(Leading(items)) + (ItemsToks(Others(items)) + more);
    NoBlock(items, more);
    RedirsParse(Leading(items), t, ItemsToks(Others(items)) + more);
    var r := ParseRedirs(t);
    ArgsParse(Others(items), r.rest, [], r.list, more);
    assert [] + ArgsOf(Others(items)) == ArgsOf(items);
    WrapIsAround(Exec(ArgsOf(items)), IntosOf(items));
  }

  lemma NoBlock(items: seq<Item>, more: seq<Token>)
    requires more == [] || Starts(more, "|)&;")
    ensures !Starts(ItemsToks(items) + more, "(")
  {
    if items == [] {
      assert ItemsToks(items) + more == more;
    }
  }

  lemma BlockParsesTree(line: Line, redirs: seq<Redirection>, t: string, more: seq<Token>)
    requires LineOk(line) && (more == [] || Starts(more, "|)&;"))
    requires Toks(t) == UnitToks(Block(line, redirs)) + more
    ensures var r := ParseExec(t);
            r.Ok? && r.cmd == UnitTree(Block(line, redirs)) && Toks(r.rest) == more
    decreases line, 4
  {
    hide GetToken, Skip, Toks, ParseRedirs, ParseLine, Wrap, RedirToks, Around, LineTree, LineToks;
    var tail := [Sym(')')] + (RedirToks(redirs) + more);
    assert UnitToks(Block(line, redirs)) + more == [Sym('(')] + (LineToks(line) + tail);
    Next(t, "(");
    SkipSame(t);
    var u := GetToken(t).rest;
    LineParses(line, u, tail);
    var a := ParseLine(u);
    Next(a.rest, ")");
    RedirsParse(redirs, GetToken(a.rest).rest, more);
    WrapIsAround(LineTree(line), redirs);
  }

  lemma PipesParse(p: Pipes, t: string, more: seq<Token>)
    requires PipesOk(p) && Toks(t) == PipesToks(p) + more && (more == [] || Starts(more, ")&;"))
    ensures var r := ParsePipe(t);
            r.Ok? && r.cmd == PipesTree(p) && Toks(r.rest) == more
    decreases p, 1
  {
    hide GetToken, Skip, Toks, ParseExec, UnitTree, UnitToks;
    match p
    case One(u) =>
      UnitParses(u, t, more);
      Next(ParseExec(t).rest, "|");
    case Bar(u, rest) =>
      var tail := [Sym('|')] + (PipesToks(rest) + more);
      assert PipesToks(p) + more == UnitToks(u) + tail;
      UnitParses(u, t, tail);
      var a := ParseExec(t);
      Next(a.rest, "|");
      PipesParse(rest, GetToken(a.rest).rest, more);
  }

  lemma LineParses(line: Line, t: string, more: seq<Token>)
    requires LineOk(line) && Toks(t) == LineToks(line) + more && (more == [] || Starts(more, ")"))
    ensures var r := ParseLine(t);
            r.Ok? && r.cmd == LineTree(line) && Toks(r.rest) == more
    decreases line, 2
  {
    hide GetToken, Skip, Toks, ParsePipe, ParseBacks, PipesTree, PipesToks, Backs;
    var p, n := line.p, line.amps;
    var tail := if line.Last? then more else [Sym(';')] + (LineToks(line.rest) + more);
    assert LineToks(line) + more == PipesToks(p) + (Amps(n) + tail);
    AmpsFollow(n, tail);
    PipesParse(p, t, Amps(n) + tail);
    var a := ParsePipe(t);
    BacksParse(a.cmd, n, a.rest, tail);
    var b := ParseBacks(a.cmd, a.rest);
    Next(b.rest, ";");
    if line.Semi? {
      LineParses(line.rest, GetToken(b.rest).rest, more);
    }
  }

  lemma AmpsFollow(n: nat, tail: seq<Token>)
    requires tail == [] || Starts(tail, ");")
    ensures Amps(n) + tail == [] || Starts(Amps(n) + tail, ")&;")
  {
    if n == 0 {
      assert Amps(n) + tail == tail;
    }
  }

  /** A line of the grammar is parsed to its tree. */
  lemma GrammarIsParsed(line: Line, t: string)
    requires LineOk(line) && Toks(t) == LineToks(line)
    ensures ParseCmd(t) == Ok(LineTree(line), "")
  {
    hide GetToken, Skip, Toks, ParseLine, LineToks;
    assert LineToks(line) + [] == LineToks(line);
    LineParses(line, t, []);
    Next(ParseLine(t).rest, "");
  }

  // ----- What is parsed is a line of the grammar -----

  lemma {:induction false} RedirsDerive(t: string)
    requires ParseRedirs(t).Redirs?
    ensures var r := ParseRedirs(t);
            Toks(t) == RedirToks(r.list) + Toks(r.rest) && !Starts(Toks(r.rest), "<>")
    decreases |t|
  {
    hide GetToken, Skip, Toks;
    Next(t, "<>");
    var r := ParseRedirs(t);
    if !Peek(t, "<>") {
      assert RedirToks([]) + Toks(t) == Toks(t);
    } else {
      MovesOn(t, "<>");
      var a := GetToken(t);
      var b := GetToken(a.rest);
      Next(a.rest, "");
      RedirsDerive(b.rest);
      var more := ParseRedirs(b.rest).list;
      assert r.list[0] == Redirection(b.tok.w, ModeOf(a.tok)) && r.list[1..] == more;
      SignIs(t);
      assert Toks(t) == [a.tok, b.tok] + Toks(b.rest);
      assert [a.tok, b.tok] + (RedirToks(more) + Toks(r.rest)) == RedirToks(r.list) + Toks(r.rest);
    }
  }

  lemma SignIs(t: string)
    requires Peek(t, "<>")
    ensures SignTok(ModeOf(GetToken(t).tok)) == GetToken(t).tok
  {
  }

  function Intos(list: seq<Redirection>): (items: seq<Item>)
    ensures |items| == |list|
  {
    if list == [] then [] else [Into(list[0])] + Intos(list[1..])
  }

  lemma NoToks()
    ensures RedirToks([]) == []
  {
  }

  lemma {:induction false} IntosThen(list: seq<Redirection>, items: seq<Item>)
    ensures ItemsToks(Intos(list) + items) == RedirToks(list) + ItemsToks(items)
    ensures ArgsOf(Intos(list) + items) == ArgsOf(items) && IntosOf(Intos(list) + items) == list + IntosOf(items)
    decreases |list|
  {
    hide ItemsToks, ArgsOf, IntosOf, RedirToks;
    var all := Intos(list) + items;
    if list == [] {
      assert all == items;
      assert RedirToks(list) == [] by { NoToks(); }
    } else {
      IntosThen(list[1..], items);
      assert all[0] == Into(list[0]) && all[1..] == Intos(list[1..]) + items;
      FirstItem(all);
      FirstRedir(list);
      assert list == [list[0]] + list[1..];
    }
  }

  lemma {:induction false} ArgsDerive(t: string, argv: seq<string>, redirs: seq<Redirection>) returns (items: seq<Item>)
    requires ParseArgs(t, argv, redirs).Ok? && |argv| < MAXARGS
    ensures var r := ParseArgs(t, argv, redirs);
            && Toks(t) == ItemsToks(items) + Toks(r.rest) && |argv| + |ArgsOf(items)| < MAXARGS
            && r.cmd == Wrap(Exec(argv + ArgsOf(items)), redirs + IntosOf(items))
    decreases |t|
  {
    hide GetToken, Skip, Toks, ParseRedirs, Wrap, RedirToks, Intos, ItemsToks, ArgsOf, IntosOf;
    Next(t, "|)&;");
    var a := GetToken(t);
    if Peek(t, "|)&;") || a.tok.End? {
      items := [];
      FirstItem(items);
      TokenSkipped(t);
      assert ItemsToks(items) + Toks(t) == Toks(t);
      assert argv + ArgsOf(items) == argv && redirs + IntosOf(items) == redirs;
    } else {
      var r, w := ParseRedirs(a.rest), a.tok.w;
      RedirsDerive(a.rest);
      var rest := ArgsDerive(r.rest, argv + [w], redirs + r.list);
      items := [Arg(w)] + (Intos(r.list) + rest);
      IntosThen(r.list, rest);
      FirstItem(items);
      assert items[1..] == Intos(r.list) + rest;
      ArgsJoin(t, w, r, argv, redirs, rest, ParseArgs(t, argv, redirs).rest);
    }
  }

  lemma ArgsJoin(t: string, w: string, r: Redirs, argv: seq<string>, redirs: seq<Redirection>, rest: seq<Item>,
                 u: string)
    requires r.Redirs? && Toks(t) != [] && Toks(t)[0] == Word(w)
    requires Toks(t)[1..] == RedirToks(r.list) + Toks(r.rest) && Toks(r.rest) == ItemsToks(rest) + Toks(u)
    ensures Toks(t) == [Word(w)] + (RedirToks(r.list) + ItemsToks(rest)) + Toks(u)
    ensures argv + [w] + ArgsOf(rest) == argv + ([w] + ArgsOf(rest))
    ensures redirs + r.list + IntosOf(rest) == redirs + (r.list + IntosOf(rest))
  {
    hide Toks, RedirToks, ItemsToks, ArgsOf, IntosOf;
    assert Toks(t) == [Toks(t)[0]] + Toks(t)[1..];
  }

  lemma {:induction false} UnitDerives(t: string) returns (u: Unit)
    requires ParseExec(t).Ok?
    ensures var r := ParseExec(t);
            UnitOk(u) && Toks(t) == UnitToks(u) + Toks(r.rest) && r.cmd == UnitTree(u)
    decreases |t|, 1
  {
    hide GetToken, Skip, Toks, ParseRedirs, ParseArgs, ParseLine, ParseBlock, Wrap, RedirToks, Around, Intos, ItemsToks;
    hide ArgsOf, IntosOf, LineToks, LineTree;
    Next(t, "(");
    if Peek(t, "(") {
      SkipSame(t);
      u := BlockDerives(Skip(t));
    } else {
      RedirsDerive(t);
      var r := ParseRedirs(t);
      var rest := ArgsDerive(r.rest, [], r.list);
      IntosThen(r.list, rest);
      u := Simple(Intos(r.list) + rest);
      assert [] + ArgsOf(rest) == ArgsOf(rest);
      var end := Toks(ParseExec(t).rest);
      assert RedirToks(r.list) + (ItemsToks(rest) + end) == UnitToks(u) + end;
      WrapIsAround(Exec(ArgsOf(rest)), r.list + IntosOf(rest));
    }
  }

  lemma {:induction false} BlockDerives(t: string) returns (u: Unit)
    requires ParseBlock(t).Ok?
    ensures var r := ParseBlock(t);
            u.Block? && UnitOk(u) && Toks(t) == UnitToks(u) + Toks(r.rest) && r.cmd == UnitTree(u)
    decreases |t|, 0
  {
    hide GetToken, Skip, Toks, ParseRedirs, ParseLine, Wrap, RedirToks, Around, LineToks, LineTree;
    Next(t, "(");
    MovesOn(t, "(");
    var line := LineDerives(GetToken(t).rest);
    var a := ParseLine(GetToken(t).rest);
    Next(a.rest, ")");
    RedirsDerive(GetToken(a.rest).rest);
    var r := ParseRedirs(GetToken(a.rest).rest);
    u := Block(line, r.list);
    WrapIsAround(a.cmd, r.list);
    SymIs(t, '(');
    SymIs(a.rest, ')');
    assert Toks(t) == [Sym('(')] + Toks(t)[1..] && Toks(a.rest) == [Sym(')')] + Toks(a.rest)[1..];
    assert [Sym('(')] + (LineToks(line) + ([Sym(')')] + (RedirToks(r.list) + Toks(r.rest))))
        == UnitToks(u) + Toks(r.rest);
  }

  lemma SymIs(t: string, c: char)
    requires Peek(t, [c]) && IsSymbol(c) && c != '>'
    ensures GetToken(t).tok == Sym(c)
  {
  }

  lemma {:induction false} PipesDerive(t: string) returns (p: Pipes)
    requires ParsePipe(t).Ok?
    ensures var r := ParsePipe(t);
            PipesOk(p) && Toks(t) == PipesToks(p) + Toks(r.rest) && r.cmd == PipesTree(p)
    decreases |t|, 2
  {
    hide GetToken, Skip, Toks, ParseExec, UnitToks, UnitTree;
    var u := UnitDerives(t);
    var a := ParseExec(t);
    Next(a.rest, "|");
    if Peek(a.rest, "|") {
      MovesOn(a.rest, "|");
      SymIs(a.rest, '|');
      var rest := PipesDerive(GetToken(a.rest).rest);
      p := Bar(u, rest);
      var end := Toks(ParsePipe(t).rest);
      assert Toks(a.rest) == [Sym('|')] + Toks(a.rest)[1..];
      assert UnitToks(u) + ([Sym('|')] + (PipesToks(rest) + end)) == PipesToks(p) + end;
    } else {
      p := One(u);
    }
  }

  lemma {:induction false} BacksDerive(c: Cmd, t: string) returns (n: nat)
    ensures var r := ParseBacks(c, t);
            Toks(t) == Amps(n) + Toks(r.rest) && r.cmd == Backs(c, n)
    decreases |t|
  {
    hide GetToken, Skip, Toks, Amps;
    Next(t, "&");
    if Peek(t, "&") {
      MovesOn(t, "&");
      SymIs(t, '&');
      n := BacksDerive(Back(c), GetToken(t).rest);
      BacksInside(c, n);
      n := n + 1;
      assert Toks(t) == [Sym('&')] + Toks(t)[1..];
      var end := Toks(ParseBacks(c, t).rest);
      AmpsMore(n - 1, end);
    } else {
      n := 0;
      NoAmps(Toks(t));
    }
  }

  lemma {:induction false} LineDerives(t: string) returns (line: Line)
    requires ParseLine(t).Ok?
    ensures var r := ParseLine(t);
            LineOk(line) && Toks(t) == LineToks(line) + Toks(r.rest) && r.cmd == LineTree(line)
    decreases |t|, 3
  {
    hide GetToken, Skip, Toks, ParsePipe, ParseBacks, PipesToks, PipesTree, Backs;
    var p := PipesDerive(t);
    var a := ParsePipe(t);
    var n := BacksDerive(a.cmd, a.rest);
    var b := ParseBacks(a.cmd, a.rest);
    Next(b.rest, ";");
    if Peek(b.rest, ";") {
      MovesOn(b.rest, ";");
      SymIs(b.rest, ';');
      var rest := LineDerives(GetToken(b.rest).rest);
      line := Semi(p, n, rest);
      var end := Toks(ParseLine(t).rest);
      assert Toks(b.rest) == [Sym(';')] + Toks(b.rest)[1..];
      assert PipesToks(p) + (Amps(n) + ([Sym(';')] + (LineToks(rest) + end))) == LineToks(line) + end;
    } else {
      line := Last(p, n);
      assert PipesToks(p) + (Amps(n) + Toks(b.rest)) == LineToks(line) + Toks(b.rest);
    }
  }

  ghost predicate Derives(line: Line, t: string) {
    LineOk(line) && Toks(t) == LineToks(line)
  }

  /** The parser accepts exactly the texts whose tokens are a line of the grammar, and the result
      is the tree of that line. */
  lemma AcceptsGrammar(t: string)
    ensures ParseCmd(t).Ok? <==> exists line :: Derives(line, t)
    ensures forall line :: Derives(line, t) ==> ParseCmd(t) == Ok(LineTree(line), "")
  {
    hide ParseLine, Toks, LineToks, LineTree, LineOk, Skip;
    forall line | Derives(line, t) ensures ParseCmd(t) == Ok(LineTree(line), "") {
      GrammarIsParsed(line, t);
    }
    if ParseCmd(t).Ok? {
      var line := LineDerives(t);
      Next(ParseLine(t).rest, "");
      assert LineToks(line) + [] == LineToks(line);
      assert Derives(line, t);
    }
  }
}
