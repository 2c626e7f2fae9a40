/** The parser of user/sh.c with its cursor. */
module Shell {
  import opened ShellModel
  import opened ShellGrammar

  lemma SkipStep(text: string, s: nat)
    requires s < |text| && IsSpace(text[s])
    ensures Skip(text[s..]) == Skip(text[s + 1..])
  {
    assert text[s..][1..] == text[s + 1..];
  }

  lemma WordStep(text: string, s: nat)
    requires s < |text| && IsPlain(text[s])
    ensures WordLen(text[s..]) == 1 + WordLen(text[s + 1..])
  {
    assert text[s..][1..] == text[s + 1..];
  }

  /** The token at position q of the text, after the blanks before it. */
  lemma TokenAt(t: string, text: string, q: nat)
    requires q <= |text| && Skip(t) == text[q..]
    ensures var n := WordLen(text[q..]);
            GetToken(t) ==
            if q == |text| then Scan(End, Skip(""))
            else if text[q] == '>' && q + 1 < |text| && text[q + 1] == '>' then Scan(AppendSym, Skip(text[q + 2..]))
            else if IsSymbol(text[q]) then Scan(Sym(text[q]), Skip(text[q + 1..]))
            else Scan(Word(text[q..q + n]), Skip(text[q + n..]))
  {
    hide Skip, WordLen, IsSymbol;
    var t1, n := text[q..], WordLen(text[q..]);
    NothingToSkip();
    if q < |text| {
      if text[q] == '>' && q + 1 < |text| && text[q + 1] == '>' {
        Rest(text, q, 2);
      } else if IsSymbol(text[q]) {
        Rest(text, q, 1);
      } else {
        Rest(text, q, n);
      }
    }
  }

  lemma Rest(text: string, q: nat, n: nat)
    requires q + n <= |text|
    ensures text[q..][n..] == text[q + n..] && text[q..][..n] == text[q..q + n]
  {
  }

  lemma NothingToSkip()
    ensures Skip("") == ""
  {
  }

  class Parser {
    const text: string
    var s: nat

    ghost function Left(): string
      reads this
    {
      if s <= |text| then text[s..] else ""
    }

    constructor (text: string)
      ensures this.text == text && s == 0
    {
      this.text, s := text, 0;
    }

    method SkipSpaces()
      requires s <= |text|
      modifies this`s
      ensures old(s) <= s <= |text| && Left() == Skip(old(Left()))
    {
      while s < |text| && IsSpace(text[s])
        invariant old(s) <= s <= |text| && Skip(Left()) == Skip(old(Left()))
      {
        SkipStep(text, s);
        s := s + 1;
      }
    }

    /** The loop over the characters of a word. */
    method SkipWord()
      requires s <= |text|
      modifies this`s
      ensures s <= |text| && s == old(s) + WordLen(old(Left()))
    {
      while s < |text| && !IsSpace(text[s]) && !IsSymbol(text[s])
        invariant old(s) <= s <= |text| && WordLen(old(Left())) == s - old(s) + WordLen(Left())
      {
        WordStep(text, s);
        s := s + 1;
      }
    }

    method Gettoken() returns (tok: Token)
      requires s <= |text|
      modifies this`s
      ensures s <= |text| && Scan(tok, Left()) == GetToken(old(Left()))
    {
      hide Skip, WordLen, GetToken, IsSpace, IsSymbol, IsPlain;
      SkipSpaces();
      var q := s;
      TokenAt(old(Left()), text, q);
      if s == |text| {
        tok := End;
      } else if text[s] == '>' && s + 1 < |text| && text[s + 1] == '>' {
        s := s + 2;
        tok := AppendSym;
      } else if IsSymbol(text[s]) {
        tok := Sym(text[s]);
        s := s + 1;
      } else {
        SkipWord();
        tok := Word(text[q..s]);
      }
      SkipSpaces();
    }

    method PeekFor(toks: string) returns (found: bool)
      requires s <= |text|
      modifies this`s
      ensures old(s) <= s <= |text| && Left() == Skip(old(Left())) && found == Peek(old(Left()), toks)
    {
      SkipSpaces();
      found := s < |text| && text[s] in toks;
    }

    /** The redirections that come next; none of them when a file name is missing. */
    method Parseredirs() returns (list: seq<Redirection>, ok: bool)
      requires s <= |text|
      modifies this`s
      ensures s <= |text| && (ok <==> ParseRedirs(old(Left())).Redirs?)
      ensures ok ==> ParseRedirs(old(Left())) == Redirs(list, Left())
    {
      hide Skip, GetToken, ModeOf;
      list := [];
      ghost var t0 := Left();
      var more := PeekFor("<>");
      PeekSame(t0, "<>");
      while more
        invariant s <= |text| && more == Peek(Left(), "<>") && Left() == Skip(Left())
        invariant ParseRedirs(t0) == After(list, ParseRedirs(Left()))
        decreases |text| - s
      {
        ghost var t := Left();
        MovesOn(t, "<>");
        var tok := Gettoken();
        var word := Gettoken();
        AfterOne(list, t);
        if !word.Word? {
          return [], false;
        }
        list := list + [Redirection(word.w, ModeOf(tok))];
        ghost var t2 := Left();
        more := PeekFor("<>");
        PeekSame(t2, "<>");
      }
      ok := true;
      AfterAll(list, Left());
    }

    /** The words of a simple command, with the redirections between them. */
    method Parseargs(first: seq<Redirection>) returns (r: Result)
      requires s <= |text|
      modifies this`s
      ensures s <= |text| && r == ParseArgs(old(Left()), [], first) && (r.Ok? ==> r.rest == Left())
      ensures forall items, more :: ArgsLeft(old(Left()), items, more) ==>
                r.Ok? && r.cmd == Around(Exec(ArgsOf(items)), first + IntosOf(items)) && Toks(Left()) == more
    {
      r := ScanArgs(first);
      forall items, more | ArgsLeft(old(Left()), items, more)
        ensures r.Ok? && r.cmd == Around(Exec(ArgsOf(items)), first + IntosOf(items)) && Toks(Left()) == more
      {
        ArgsTree(old(Left()), first, items, more);
      }
    }

    /** The loop over the words. */
    method ScanArgs(first: seq<Redirection>) returns (r: Result)
      requires s <= |text|
      modifies this`s
      ensures s <= |text| && r == ParseArgs(old(Left()), [], first) && (r.Ok? ==> r.rest == Left())
    {
      hide Skip, GetToken, ParseRedirs, Wrap;
      var argv: seq<string>, redirs := [], first;
      ghost var t0 := Left();
      var stop := PeekFor("|)&;");
      ArgsSkip(t0, argv, redirs);
      while !stop
        invariant s <= |text| && stop == Peek(Left(), "|)&;") && Left() == Skip(Left())
        invariant ParseArgs(t0, [], first) == ParseArgs(Left(), argv, redirs)
        decreases |text| - s
      {
        ghost var t := Left();
        var tok := Gettoken();
        if tok.End? {
          break;
        }
        if !tok.Word? {
          return Panic;
        }
        argv := argv + [tok.w];
        if |argv| >= MAXARGS {
          return Panic;
        }
        var list, ok := Parseredirs();
        if !ok {
          return Panic;
        }
        redirs := redirs + list;
        ghost var t2 := Left();
        stop := PeekFor("|)&;");
        ArgsSkip(t2, argv, redirs);
      }
      return Ok(Wrap(Exec(argv), redirs), text[s..]);
    }

    method Parseexec() returns (r: Result)
      requires s <= |text|
      modifies this`s
      ensures s <= |text| && r == ParseExec(old(Left())) && (r.Ok? ==> r.rest == Left())
      decreases |text| - s, 1
    {
      hide Skip, GetToken, ParseRedirs, ParseArgs, ParseBlock;
      ghost var t := Left();
      var block := PeekFor("(");
      if block {
        r := Parseblock();
        return;
      }
      PeekSame(t, "(");
      var list, ok := Parseredirs();
      if !ok {
        return Panic;
      }
      r := Parseargs(list);
    }

    method Parseblock() returns (r: Result)
      requires s <= |text|
      modifies this`s
      ensures s <= |text| && r == ParseBlock(old(Left())) && (r.Ok? ==> r.rest == Left())
      decreases |text| - s, 0
    {
      hide Skip, GetToken, ParseRedirs, ParseLine, Wrap;
      ghost var t := Left();
      var open := PeekFor("(");
      PeekSame(t, "(");
      TokenSkips(t);
      if !open {
        return Panic;
      }
      MovesOn(t, "(");
      var _ := Gettoken();
      r := Parseline();
      if r.Panic? {
        return;
      }
      ghost var u := Left();
      var close := PeekFor(")");
      TokenSkips(u);
      if !close {
        return Panic;
      }
      var _ := Gettoken();
      var list, ok := Parseredirs();
      if !ok {
        return Panic;
      }
      return Ok(Wrap(r.cmd, list), text[s..]);
    }

    method Parsepipe() returns (r: Result)
      requires s <= |text|
      modifies this`s
      ensures s <= |text| && r == ParsePipe(old(Left())) && (r.Ok? ==> r.rest == Left())
      decreases |text| - s, 2
    {
      hide Skip, GetToken, ParseExec;
      r := Parseexec();
      if r.Panic? {
        return;
      }
      ghost var t := Left();
      var more := PeekFor("|");
      TokenSkips(t);
      if more {
        MovesOn(t, "|");
        var _ := Gettoken();
        var right := Parsepipe();
        return if right.Panic? then Panic else Ok(Pipe(r.cmd, right.cmd), right.rest);
      }
      return Ok(r.cmd, text[s..]);
    }

    method Parseline() returns (r: Result)
      requires s <= |text|
      modifies this`s
      ensures s <= |text| && r == ParseLine(old(Left())) && (r.Ok? ==> r.rest == Left())
      decreases |text| - s, 3
    {
      hide Skip, GetToken, ParsePipe;
      ghost var t0 := Left();
      r := Parsepipe();
      if r.Panic? {
        return;
      }
      var cmd := r.cmd;
      ghost var t := Left();
      var back := PeekFor("&");
      BacksSkip(cmd, t);
      while back
        invariant s <= |text| && back == Peek(Left(), "&") && Left() == Skip(Left()) && |Left()| <= |t|
        invariant ParseBacks(r.cmd, t) == ParseBacks(cmd, Left())
        decreases |text| - s
      {
        MovesOn(Left(), "&");
        var _ := Gettoken();
        cmd := Back(cmd);
        ghost var u := Left();
        back := PeekFor("&");
        BacksSkip(cmd, u);
      }
      ghost var u := Left();
      var more := PeekFor(";");
      if more {
        MovesOn(u, ";");
        var _ := Gettoken();
        var right := Parseline();
        return if right.Panic? then Panic else Ok(List(cmd, right.cmd), right.rest);
      }
      return Ok(cmd, text[s..]);
    }

    method Parsecmd() returns (r: Result)
      requires s == 0
      modifies this`s
      ensures r == ParseCmd(text)
      ensures r.Ok? <==> exists line :: Derives(line, text)
      ensures forall line :: Derives(line, text) ==> r == Ok(LineTree(line), "")
    {
      hide Skip, ParseLine, Derives;
      AcceptsGrammar(text);
      assert text[0..] == text;
      r := Parseline();
      if r.Panic? {
        return;
      }
      var _ := PeekFor("");
      if s != |text| {
        return Panic;
      }
      return Ok(r.cmd, "");
    }
  }

  lemma BacksSkip(c: Cmd, t: string)
    ensures Skip(Skip(t)) == Skip(t) && Peek(Skip(t), "&") == Peek(t, "&") && ParseBacks(c, Skip(t)) == ParseBacks(c, t)
  {
    hide GetToken;
    SkipTwice(t);
    TokenSkips(t);
  }

  /** The redirections of a text of which some are parsed. */
  ghost function After(list: seq<Redirection>, r: Redirs): Redirs {
    if r.Missing? then Missing else Redirs(list + r.list, r.rest)
  }

  lemma PeekSame(t: string, toks: string)
    ensures Skip(Skip(t)) == Skip(t) && Peek(Skip(t), toks) == Peek(t, toks) && ParseRedirs(Skip(t)) == ParseRedirs(t)
    ensures After([], ParseRedirs(t)) == ParseRedirs(t)
  {
    SkipTwice(t);
    TokenSkips(t);
  }

  lemma SkipTwice(t: string)
    ensures Skip(Skip(t)) == Skip(t)
  {
  }

  lemma TokenSkips(t: string)
    ensures GetToken(Skip(t)) == GetToken(t)
  {
    hide Skip, WordLen;
    SkipTwice(t);
  }

  lemma AfterOne(list: seq<Redirection>, t: string)
    requires Peek(t, "<>")
    ensures var a := GetToken(t);
            var b := GetToken(a.rest);
            After(list, ParseRedirs(t)) == if !b.tok.Word? then Missing
                                           else After(list + [Redirection(b.tok.w, ModeOf(a.tok))], ParseRedirs(b.rest))
  {
    hide Skip, GetToken, ModeOf;
    var b := GetToken(GetToken(t).rest);
    if b.tok.Word? && ParseRedirs(b.rest).Redirs? {
      var x, r := Redirection(b.tok.w, ModeOf(GetToken(t).tok)), ParseRedirs(b.rest);
      assert list + ([x] + r.list) == list + [x] + r.list;
    }
  }

  lemma AfterAll(list: seq<Redirection>, t: string)
    requires !Peek(t, "<>") && Skip(t) == t
    ensures After(list, ParseRedirs(t)) == Redirs(list, t)
  {
  }

  lemma ArgsSkip(t: string, argv: seq<string>, redirs: seq<Redirection>)
    ensures Skip(Skip(t)) == Skip(t) && Peek(Skip(t), "|)&;") == Peek(t, "|)&;")
            && ParseArgs(Skip(t), argv, redirs) == ParseArgs(t, argv, redirs)
  {
    hide ParseRedirs, Wrap, GetToken;
    SkipTwice(t);
    TokenSkips(t);
  }
}
