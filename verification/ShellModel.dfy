/** The command parser of user/sh.c. The cursor *ps is the text that is left, up to es. */
module ShellModel {
  const MAXARGS: nat := 10

  datatype Mode = In | Out | Append

  datatype Cmd =
    | Exec(argv: seq<string>)
    | Redir(cmd: Cmd, file: string, mode: Mode)
    | Pipe(left: Cmd, right: Cmd)
    | List(left: Cmd, right: Cmd)
    | Back(cmd: Cmd)

  /** panic ends the shell's parser. */
  datatype Result = Ok(cmd: Cmd, rest: string) | Panic

  predicate IsSpace(c: char) { c == ' ' || c == '\t' || c == '\r' || c == '\n' || c == 11 as char }

  predicate IsSymbol(c: char) { c == '<' || c == '|' || c == '>' || c == '&' || c == ';' || c == '(' || c == ')' }

  predicate IsPlain(c: char) { !IsSpace(c) && !IsSymbol(c) }

  // ----- gettoken and peek -----

  function Skip(t: string): (r: string)
    ensures |r| <= |t| && (r != "" ==> !IsSpace(r[0]))
  {
    if t != "" && IsSpace(t[0]) then Skip(t[1..]) else t
  }

  function WordLen(t: string): (n: nat)
    ensures n <= |t| && (forall i :: 0 <= i < n ==> IsPlain(t[i])) && (n < |t| ==> !IsPlain(t[n]))
  {
    if t != "" && IsPlain(t[0]) then 1 + WordLen(t[1..]) else 0
  }

  datatype Token = End | Sym(c: char) | AppendSym | Word(w: string)

  datatype Scan = Scan(tok: Token, rest: string)

  function GetToken(t: string): (r: Scan)
    ensures |r.rest| <= |t| && (!r.tok.End? ==> |r.rest| < |t|) && (r.rest != "" ==> !IsSpace(r.rest[0]))
  {
    var t1 := Skip(t);
    if t1 == "" then Scan(End, "")
    else if t1[0] == '>' && |t1| > 1 && t1[1] == '>' then Scan(AppendSym, Skip(t1[2..]))
    else if IsSymbol(t1[0]) then Scan(Sym(t1[0]), Skip(t1[1..]))
    else Scan(Word(t1[..WordLen(t1)]), Skip(t1[WordLen(t1)..]))
  }

  /** peek also moves the cursor to Skip(t). */
  predicate Peek(t: string, toks: string) { Skip(t) != "" && Skip(t)[0] in toks }

  // ----- Redirections -----

  datatype Redirection = Redirection(file: string, mode: Mode)

  datatype Redirs = Redirs(list: seq<Redirection>, rest: string) | Missing

  function ModeOf(tok: Token): Mode
  {
    if tok == Sym('<') then In else if tok == Sym('>') then Out else Append
  }

  /** The redirections that come next in the text. */
  function ParseRedirs(t: string): (r: Redirs)
    ensures r.Redirs? ==> |r.rest| <= |t|
    decreases |t|
  {
    if !Peek(t, "<>") then Redirs([], Skip(t))
    else
      var a := GetToken(t);
      var b := GetToken(a.rest);
      if !b.tok.Word? then Missing
      else
        var r := ParseRedirs(b.rest);
        if r.Missing? then Missing else Redirs([Redirection(b.tok.w, ModeOf(a.tok))] + r.list, r.rest)
  }

  /** Each redirection is wrapped around what was there before. */
  function Wrap(c: Cmd, list: seq<Redirection>): Cmd
    decreases |list|
  {
    if list == [] then c else Wrap(Redir(c, list[0].file, list[0].mode), list[1..])
  }

  // ----- Commands -----

  /** The words and redirections of a simple command: those so far, and what is left. */
  function ParseArgs(t: string, argv: seq<string>, redirs: seq<Redirection>): (r: Result)
    ensures r.Ok? ==> |r.rest| <= |t|
    decreases |t|
  {
    if Peek(t, "|)&;") then Ok(Wrap(Exec(argv), redirs), Skip(t))
    else
      var a := GetToken(t);
      if a.tok.End? then Ok(Wrap(Exec(argv), redirs), a.rest)
      else if !a.tok.Word? then Panic
      else if |argv| + 1 >= MAXARGS then Panic
      else
        var r := ParseRedirs(a.rest);
        if r.Missing? then Panic else ParseArgs(r.rest, argv + [a.tok.w], redirs + r.list)
  }

  function ParseExec(t: string): (r: Result)
    ensures r.Ok? ==> |r.rest| <= |t|
    decreases |t|, 1
  {
    if Peek(t, "(") then ParseBlock(Skip(t))
    else
      var r := ParseRedirs(t);
      if r.Missing? then Panic else ParseArgs(r.rest, [], r.list)
  }

  function ParseBlock(t: string): (r: Result)
    ensures r.Ok? ==> |r.rest| <= |t|
    decreases |t|, 0
  {
    if !Peek(t, "(") then Panic
    else
      var a := ParseLine(GetToken(t).rest);
      if a.Panic? || !Peek(a.rest, ")") then Panic
      else
        var r := ParseRedirs(GetToken(a.rest).rest);
        if r.Missing? then Panic else Ok(Wrap(a.cmd, r.list), r.rest)
  }

  function ParsePipe(t: string): (r: Result)
    ensures r.Ok? ==> |r.rest| <= |t|
    decreases |t|, 2
  {
    var a := ParseExec(t);
    if a.Panic? then Panic
    else if Peek(a.rest, "|") then
      var b := ParsePipe(GetToken(a.rest).rest);
      if b.Panic? then Panic else Ok(Pipe(a.cmd, b.cmd), b.rest)
    else Ok(a.cmd, Skip(a.rest))
  }

  /** The & signs after a pipeline. */
  function ParseBacks(c: Cmd, t: string): (r: Result)
    ensures r.Ok? && |r.rest| <= |t|
    decreases |t|
  {
    if Peek(t, "&") then ParseBacks(Back(c), GetToken(t).rest) else Ok(c, Skip(t))
  }

  function ParseLine(t: string): (r: Result)
    ensures r.Ok? ==> |r.rest| <= |t|
    decreases |t|, 3
  {
    var a := ParsePipe(t);
    if a.Panic? then Panic
    else
      var b := ParseBacks(a.cmd, a.rest);
      if Peek(b.rest, ";") then
        var d := ParseLine(GetToken(b.rest).rest);
        if d.Panic? then Panic else Ok(List(b.cmd, d.cmd), d.rest)
      else b
  }

  /** The whole text must be used up. */
  function ParseCmd(t: string): Result {
    var a := ParseLine(t);
    if a.Ok? && Skip(a.rest) == "" then Ok(a.cmd, "") else Panic
  }

  // ----- Printing -----

  predicate IsWord(w: string) { w != "" && forall i :: 0 <= i < |w| ==> IsPlain(w[i]) }

  /** What can be typed: words are plain, and a command has fewer than MAXARGS of them. */
  predicate Printable(c: Cmd) {
    match c
    case Exec(argv) => |argv| < MAXARGS && forall i :: 0 <= i < |argv| ==> IsWord(argv[i])
    case Redir(d, file, _) => Printable(d) && IsWord(file)
    case Pipe(l, r) => Printable(l) && Printable(r)
    case List(l, r) => Printable(l) && Printable(r)
    case Back(d) => Printable(d)
  }

  function Words(argv: seq<string>): string {
    if argv == [] then "" else if |argv| == 1 then argv[0] else argv[0] + " " + Words(argv[1..])
  }

  function Sign(mode: Mode): string {
    match mode
    case In => "<"
    case Out => ">"
    case Append => ">>"
  }

  function Print(c: Cmd): string {
    match c
    case Exec(argv) => Words(argv)
    case Redir(d, file, mode) => "(" + Print(d) + ")" + Sign(mode) + file
    case Pipe(l, r) => "(" + Print(l) + ")|(" + Print(r) + ")"
    case List(l, r) => "(" + Print(l) + ");(" + Print(r) + ")"
    case Back(d) => "(" + Print(d) + ")&"
  }

  lemma MovesOn(t: string, toks: string)
    requires Peek(t, toks)
    ensures |GetToken(t).rest| < |t|
  {
  }
}
