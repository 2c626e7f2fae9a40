/** Parsing undoes printing, and what was parsed can be printed. */
module ShellRoundTrip {
  import opened ShellModel

  /** The text that follows a whole line in its context: nothing, or the end of a block. */
  predicate Closes(post: string) { post == "" || post[0] == ')' }

  lemma {:induction false} WordLenIs(w: string, rest: string)
    requires (forall i :: 0 <= i < |w| ==> IsPlain(w[i])) && (rest == "" || !IsPlain(rest[0]))
    ensures WordLen(w + rest) == |w|
  {
    if w == "" {
      assert w + rest == rest;
    } else {
      assert (w + rest)[0] == w[0] && (w + rest)[1..] == w[1..] + rest;
      WordLenIs(w[1..], rest);
    }
  }

  lemma WordAt(w: string, rest: string)
    requires IsWord(w) && (rest == "" || !IsPlain(rest[0]))
    ensures Skip(w + rest) == w + rest && GetToken(w + rest) == Scan(Word(w), Skip(rest))
  {
    hide WordLen;
    WordLenIs(w, rest);
    var t := w + rest;
    assert t[0] == w[0] && t[..|w|] == w && t[|w|..] == rest;
  }

  lemma SymbolAt(c: char, rest: string)
    requires IsSymbol(c) && c != '>'
    ensures Skip([c] + rest) == [c] + rest && GetToken([c] + rest) == Scan(Sym(c), Skip(rest))
  {
    var t := [c] + rest;
    assert t[0] == c && t[1..] == rest;
  }

  lemma SignAt(mode: Mode, w: string, rest: string)
    requires IsWord(w)
    ensures var t := Sign(mode) + w + rest;
            Skip(t) == t && Peek(t, "<>") && GetToken(t).rest == w + rest && ModeOf(GetToken(t).tok) == mode
  {
    var t, n := Sign(mode) + w + rest, |Sign(mode)|;
    assert t[n..] == w + rest && t[n] == w[0] && IsPlain(w[0]);
    assert t[0] == Sign(mode)[0];
    if mode.Append? {
      assert t[1] == '>' && t[2..] == w + rest;
    } else {
      assert t[1] == w[0] && t[1..] == w + rest;
    }
  }

  lemma NoRedirs(t: string)
    requires (t == "" || (!IsSpace(t[0]) && t[0] != '<' && t[0] != '>'))
    ensures ParseRedirs(t) == Redirs([], t)
  {
  }

  lemma OneRedir(mode: Mode, w: string, post: string)
    requires IsWord(w) && Closes(post)
    ensures ParseRedirs(Sign(mode) + w + post) == Redirs([Redirection(w, mode)], post)
  {
    hide GetToken;
    SignAt(mode, w, post);
    WordAt(w, post);
    NoRedirs(post);
  }

  // ----- Simple commands -----

  /** One word of a simple command, with no redirection after it. */
  lemma ArgsStep(w: string, rest: string, done: seq<string>)
    requires IsWord(w) && (rest == "" || !IsPlain(rest[0])) && |done| + 1 < MAXARGS
    requires var t := Skip(rest); t == "" || (t[0] != '<' && t[0] != '>')
    ensures ParseArgs(w + rest, done, []) == ParseArgs(Skip(rest), done + [w], [])
  {
    hide GetToken, ParseRedirs, Skip;
    WordAt(w, rest);
    NoRedirs(Skip(rest));
    assert (w + rest)[0] == w[0] && IsPlain(w[0]);
    var none: seq<Redirection> := [];
    assert none + [] == none;
  }

  lemma ArgsEnd(done: seq<string>, post: string)
    requires Closes(post)
    ensures ParseArgs(post, done, []) == Ok(Exec(done), post)
  {
  }

  /** The text of the words after the first. */
  function After(more: seq<string>, post: string): string {
    if more == [] then post else " " + (Words(more) + post)
  }

  lemma WordsFrom(argv: seq<string>, post: string)
    requires argv != []
    ensures Words(argv) + post == argv[0] + After(argv[1..], post)
  {
    if |argv| > 1 {
      assert argv[0] + " " + Words(argv[1..]) + post == argv[0] + (" " + (Words(argv[1..]) + post));
    } else {
      assert argv[1..] == [];
    }
  }

  lemma WordsStart(more: seq<string>, post: string)
    requires Closes(post) && forall i :: 0 <= i < |more| ==> IsWord(more[i])
    ensures var t := Words(more) + post;
            t == "" || (!IsSpace(t[0]) && t[0] != '<' && t[0] != '>' && t[0] != '(')
  {
    hide Words, IsSpace, IsSymbol;
    if more != [] {
      WordsFrom(more, post);
      assert IsPlain(more[0][0]);
      PlainIs(more[0][0]);
    } else {
      NoWords(post);
      PlainIs('a');
    }
  }

  lemma NoWords(post: string)
    ensures Words([]) + post == post
  {
  }

  lemma PlainIs(c: char)
    ensures IsPlain(c) ==> !IsSpace(c) && c != '<' && c != '>' && c != '('
    ensures !IsSpace(')')
  {
  }

  lemma SkipOne(t: string)
    requires t == "" || !IsSpace(t[0])
    ensures Skip(t) == t && Skip(" " + t) == t
  {
    assert (" " + t)[1..] == t;
  }

  lemma AfterSkips(more: seq<string>, post: string)
    requires Closes(post) && forall i :: 0 <= i < |more| ==> IsWord(more[i])
    ensures Skip(After(more, post)) == Words(more) + post && (After(more, post) == "" || !IsPlain(After(more, post)[0]))
  {
    hide Words, Skip;
    WordsStart(more, post);
    SkipOne(Words(more) + post);
    if more == [] {
      NoWords(post);
    }
  }

  lemma {:induction false} ArgsRoundTrip(argv: seq<string>, done: seq<string>, post: string)
    requires Closes(post) && |done| + |argv| < MAXARGS && forall i :: 0 <= i < |argv| ==> IsWord(argv[i])
    ensures ParseArgs(Words(argv) + post, done, []) == Ok(Exec(done + argv), post)
    decreases |argv|
  {
    hide ParseArgs, Skip, Words, After, IsWord, Closes;
    if argv == [] {
      NoWords(post);
      ArgsEnd(done, post);
      assert done + argv == done;
    } else {
      var w, more := argv[0], argv[1..];
      WordsFrom(argv, post);
      WordsStart(more, post);
      AfterSkips(more, post);
      ArgsStep(w, After(more, post), done);
      ArgsRoundTrip(more, done + [w], post);
      assert done + [w] + more == done + argv;
    }
  }

  lemma ExecRoundTrip(argv: seq<string>, post: string)
    requires Closes(post) && Printable(Exec(argv))
    ensures ParseExec(Words(argv) + post) == Ok(Exec(argv), post)
  {
    hide GetToken, Words, ParseArgs;
    WordsStart(argv, post);
    NoRedirs(Words(argv) + post);
    ArgsRoundTrip(argv, [], post);
    assert [] + argv == argv;
  }

  // ----- Blocks and lines -----

  /** Between parentheses, a line is followed by its redirections. */
  lemma BlockParses(c: Cmd, post: string)
    requires Printable(c) && (post == "" || !IsSpace(post[0]))
             && ParseLine(Print(c) + (")" + post)) == Ok(c, ")" + post)
    ensures var r := ParseRedirs(post);
            ParseExec("(" + Print(c) + ")" + post) == if r.Missing? then Panic else Ok(Wrap(c, r.list), r.rest)
  {
    hide ParseLine, ParseRedirs, Print, GetToken, Skip;
    var t := "(" + Print(c) + ")" + post;
    assert t == ['('] + (Print(c) + (")" + post));
    SymbolAt('(', Print(c) + (")" + post));
    SymbolAt(')', post);
    StartsPlain(c, ")" + post);
    SkipOne(post);
    assert ")" + post == [')'] + post;
  }

  lemma StartsPlain(c: Cmd, post: string)
    requires Printable(c) && Closes(post)
    ensures Skip(Print(c) + post) == Print(c) + post
  {
    hide Words, IsSpace;
    PlainIs('a');
    var t := Print(c) + post;
    match c {
      case Exec(argv) => WordsStart(argv, post); SkipStays(t);
      case _ => assert t[0] == '('; NotSpace(); SkipStays(t);
    }
  }

  lemma NotSpace()
    ensures !IsSpace('(')
  {
  }

  lemma SkipStays(t: string)
    requires t == "" || !IsSpace(t[0])
    ensures Skip(t) == t
  {
  }

  /** A block that ends a line. */
  lemma LineEnds(t: string, c: Cmd, post: string)
    requires ParseExec(t) == Ok(c, post) && Closes(post)
    ensures ParsePipe(t) == Ok(c, post) && ParseLine(t) == Ok(c, post)
  {
    hide ParseExec;
  }

  lemma PipeParses(t: string, l: Cmd, u: string, r: Cmd, post: string)
    requires ParseExec(t) == Ok(l, "|" + u) && Skip(u) == u && ParseExec(u) == Ok(r, post) && Closes(post)
    ensures ParseLine(t) == Ok(Pipe(l, r), post)
  {
    hide ParseExec, GetToken;
    SymbolAt('|', u);
    LineEnds(u, r, post);
    assert "|" + u == ['|'] + u;
  }

  lemma ListParses(t: string, l: Cmd, u: string, r: Cmd, post: string)
    requires ParseExec(t) == Ok(l, ";" + u) && Skip(u) == u && ParseExec(u) == Ok(r, post) && Closes(post)
    ensures ParseLine(t) == Ok(List(l, r), post)
  {
    hide ParseExec, GetToken;
    SymbolAt(';', u);
    LineEnds(u, r, post);
    assert ";" + u == [';'] + u;
  }

  lemma BackParses(t: string, c: Cmd, post: string)
    requires ParseExec(t) == Ok(c, "&" + post) && Closes(post)
    ensures ParseLine(t) == Ok(Back(c), post)
  {
    hide ParseExec, GetToken;
    SymbolAt('&', post);
    assert "&" + post == ['&'] + post;
    assert ParseBacks(Back(c), post) == Ok(Back(c), post);
  }

  // ----- Parsing undoes printing -----

  function Size(c: Cmd): (n: nat)
    ensures n > 0
  {
    match c
    case Exec(_) => 1
    case Redir(d, _, _) => Size(d) + 1
    case Pipe(l, r) => Size(l) + Size(r) + 1
    case List(l, r) => Size(l) + Size(r) + 1
    case Back(d) => Size(d) + 1
  }

  lemma {:induction false} LineRoundTrip(c: Cmd, post: string)
    requires Printable(c) && Closes(post)
    ensures ParseLine(Print(c) + post) == Ok(c, post)
    decreases Size(c), 0
  {
    hide ParseLine, ParseExec, Words, Closes;
    match c
    case Exec(argv) =>
      ExecRoundTrip(argv, post);
      LineEnds(Words(argv) + post, c, post);
    case Redir(d, file, mode) => RedirRoundTrip(d, file, mode, post);
    case Pipe(l, r) =>
      PairRoundTrip(l, r, '|', post);
      assert Print(c) + post == "(" + Print(l) + ")" + ['|'] + "(" + Print(r) + ")" + post;
    case List(l, r) =>
      PairRoundTrip(l, r, ';', post);
      assert Print(c) + post == "(" + Print(l) + ")" + [';'] + "(" + Print(r) + ")" + post;
    case Back(d) =>
      Grouped(d, "&" + post);
      assert Print(c) + post == "(" + Print(d) + ")" + ("&" + post);
      BackParses(Print(c) + post, d, post);
  }

  lemma RedirRoundTrip(d: Cmd, file: string, mode: Mode, post: string)
    requires Printable(d) && IsWord(file) && Closes(post)
    ensures ParseLine("(" + Print(d) + ")" + Sign(mode) + file + post) == Ok(Redir(d, file, mode), post)
    decreases Size(d), 2
  {
    hide ParseLine, ParseExec, ParseRedirs, Print;
    var tail := Sign(mode) + file + post;
    SignStarts(mode);
    LineRoundTrip(d, ")" + tail);
    BlockParses(d, tail);
    OneRedir(mode, file, post);
    WrapOne(d, file, mode);
    assert "(" + Print(d) + ")" + Sign(mode) + file + post == "(" + Print(d) + ")" + tail;
    LineEnds("(" + Print(d) + ")" + tail, Redir(d, file, mode), post);
  }

  lemma PairRoundTrip(l: Cmd, r: Cmd, sign: char, post: string)
    requires Printable(l) && Printable(r) && Closes(post) && (sign == '|' || sign == ';')
    ensures ParseLine("(" + Print(l) + ")" + [sign] + "(" + Print(r) + ")" + post) ==
            Ok(if sign == '|' then Pipe(l, r) else List(l, r), post)
    decreases Size(l) + Size(r), 3
  {
    hide ParseLine, ParseExec, Print;
    var u := "(" + Print(r) + ")" + post;
    Grouped(l, [sign] + u);
    Grouped(r, post);
    var t := "(" + Print(l) + ")" + ([sign] + u);
    assert "(" + Print(l) + ")" + [sign] + "(" + Print(r) + ")" + post == t;
    NotSpace();
    SkipStays(u);
    if sign == '|' { PipeParses(t, l, u, r, post); } else { ListParses(t, l, u, r, post); }
  }

  /** A printed command in parentheses, with no redirection after it. */
  lemma Grouped(c: Cmd, post: string)
    requires Printable(c) && (post == "" || post[0] == '|' || post[0] == ';' || post[0] == '&' || post[0] == ')')
    ensures ParseExec("(" + Print(c) + ")" + post) == Ok(c, post)
    decreases Size(c), 1
  {
    LineRoundTrip(c, ")" + post);
    BlockParses(c, post);
    NoRedirs(post);
  }

  lemma SignStarts(mode: Mode)
    ensures !IsSpace(Sign(mode)[0])
  {
  }

  lemma WrapOne(c: Cmd, file: string, mode: Mode)
    ensures Wrap(c, [Redirection(file, mode)]) == Redir(c, file, mode)
  {
    assert Wrap(Redir(c, file, mode), []) == Redir(c, file, mode);
  }

  /** The parser rebuilds every printable command from its text, and uses the text up. */
  lemma ParseUndoesPrint(c: Cmd)
    requires Printable(c)
    ensures ParseCmd(Print(c)) == Ok(c, "")
  {
    hide ParseLine, Print;
    LineRoundTrip(c, "");
    assert Print(c) + "" == Print(c);
  }

  // ----- What was parsed can be printed -----

  ghost predicate GoodRedirs(list: seq<Redirection>) {
    forall i :: 0 <= i < |list| ==> IsWord(list[i].file)
  }

  lemma TokenIsWord(t: string)
    ensures GetToken(t).tok.Word? ==> IsWord(GetToken(t).tok.w)
  {
  }

  lemma {:induction false} RedirsPrintable(t: string)
    ensures ParseRedirs(t).Redirs? ==> GoodRedirs(ParseRedirs(t).list)
    decreases |t|
  {
    hide GetToken, Skip;
    if Peek(t, "<>") {
      var a := GetToken(t);
      MovesOn(t, "<>");
      TokenIsWord(a.rest);
      RedirsPrintable(GetToken(a.rest).rest);
    }
  }

  lemma {:induction false} WrapPrintable(c: Cmd, list: seq<Redirection>)
    requires Printable(c) && GoodRedirs(list)
    ensures Printable(Wrap(c, list))
    decreases |list|
  {
    if list != [] {
      WrapPrintable(Redir(c, list[0].file, list[0].mode), list[1..]);
    }
  }

  lemma {:induction false} ArgsPrintable(t: string, argv: seq<string>, redirs: seq<Redirection>)
    requires |argv| < MAXARGS && (forall i :: 0 <= i < |argv| ==> IsWord(argv[i])) && GoodRedirs(redirs)
    ensures ParseArgs(t, argv, redirs).Ok? ==> Printable(ParseArgs(t, argv, redirs).cmd)
    decreases |t|
  {
    hide GetToken, Skip, ParseRedirs, Wrap;
    WrapPrintable(Exec(argv), redirs);
    var a := GetToken(t);
    TokenIsWord(t);
    RedirsPrintable(a.rest);
    var r := ParseRedirs(a.rest);
    if !Peek(t, "|)&;") && a.tok.Word? && |argv| + 1 < MAXARGS && r.Redirs? {
      ArgsPrintable(r.rest, argv + [a.tok.w], redirs + r.list);
    }
  }

  lemma {:induction false} ExecPrintable(t: string)
    ensures ParseExec(t).Ok? ==> Printable(ParseExec(t).cmd)
    decreases |t|, 1
  {
    hide Skip, GetToken, ParseArgs, ParseRedirs, ParseBlock;
    if Peek(t, "(") {
      BlockPrintable(Skip(t));
    } else {
      RedirsPrintable(t);
      if ParseRedirs(t).Redirs? { ArgsPrintable(ParseRedirs(t).rest, [], ParseRedirs(t).list); }
    }
  }

  lemma {:induction false} BlockPrintable(t: string)
    ensures ParseBlock(t).Ok? ==> Printable(ParseBlock(t).cmd)
    decreases |t|, 0
  {
    hide Skip, GetToken, ParseRedirs, ParseLine, Wrap;
    if Peek(t, "(") {
      MovesOn(t, "(");
      LinePrintable(GetToken(t).rest);
      var a := ParseLine(GetToken(t).rest);
      if a.Ok? {
        RedirsPrintable(GetToken(a.rest).rest);
        var r := ParseRedirs(GetToken(a.rest).rest);
        if r.Redirs? { WrapPrintable(a.cmd, r.list); }
      }
    }
  }

  lemma {:induction false} PipePrintable(t: string)
    ensures ParsePipe(t).Ok? ==> Printable(ParsePipe(t).cmd)
    decreases |t|, 2
  {
    hide Skip, GetToken, ParseExec;
    ExecPrintable(t);
    var a := ParseExec(t);
    if a.Ok? && Peek(a.rest, "|") {
      MovesOn(a.rest, "|");
      PipePrintable(GetToken(a.rest).rest);
    }
  }

  lemma {:induction false} BacksPrintable(c: Cmd, t: string)
    requires Printable(c)
    ensures Printable(ParseBacks(c, t).cmd)
    decreases |t|
  {
    hide Skip, GetToken;
    if Peek(t, "&") {
      MovesOn(t, "&");
      BacksPrintable(Back(c), GetToken(t).rest);
    }
  }

  lemma {:induction false} LinePrintable(t: string)
    ensures ParseLine(t).Ok? ==> Printable(ParseLine(t).cmd)
    decreases |t|, 3
  {
    hide Skip, GetToken, ParsePipe, ParseBacks;
    PipePrintable(t);
    var a := ParsePipe(t);
    if a.Ok? {
      BacksPrintable(a.cmd, a.rest);
      var b := ParseBacks(a.cmd, a.rest);
      if Peek(b.rest, ";") {
        MovesOn(b.rest, ";");
        LinePrintable(GetToken(b.rest).rest);
      }
    }
  }

  /** Whatever the parser accepts, it accepts again from the canonical text of the result, with
      the same result. */
  lemma ReparseSame(t: string)
    requires ParseCmd(t).Ok?
    ensures Printable(ParseCmd(t).cmd) && ParseCmd(Print(ParseCmd(t).cmd)) == Ok(ParseCmd(t).cmd, "")
  {
    hide ParseLine;
    LinePrintable(t);
    ParseUndoesPrint(ParseCmd(t).cmd);
  }
}
