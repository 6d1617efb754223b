// The grammar of the shell (user/sh.c): what gettoken, peek and the parse
// functions compute from a line, as functions of the line and a position.
module ShellGrammar {
  // A command tree over words; the parser's words are stretches of the line.
  datatype Cmd<W> =
    | Exec(args: seq<W>)
    | Redir(cmd: Cmd<W>, redir: Redirection<W>)
    | Pipe(left: Cmd<W>, right: Cmd<W>)
    | List(left: Cmd<W>, right: Cmd<W>)
    | Back(cmd: Cmd<W>)

  datatype Redirection<W> = Redirection(file: W, mode: int, fd: int)

  datatype Span = Span(lo: nat, hi: nat)

  // Panic stands for every call of panic(): the shell reports and stops.
  datatype Parsed = Panic | Ok(cmd: Cmd<Span>, at: nat)

  const MAXARGS: nat := 10

  const READ := 0        // O_RDONLY
  const WRITE := 0x601   // O_WRONLY|O_CREATE|O_TRUNC
  const APPEND := 0x201  // O_WRONLY|O_CREATE

  // ---- tokens ----

  predicate IsSpace(c: char) {
    c in " \t\r\n\U{0B}"
  }

  predicate IsSymbol(c: char) {
    c in "<|>&;()"
  }

  predicate IsWordChar(c: char) {
    !IsSpace(c) && !IsSymbol(c)
  }

  function SkipSpace(s: string, i: nat): (j: nat)
    requires i <= |s|
    ensures i <= j <= |s| && (j < |s| ==> !IsSpace(s[j]))
    ensures forall k :: i <= k < j ==> IsSpace(s[k])
    decreases |s| - i
  {
    if i < |s| && IsSpace(s[i]) then SkipSpace(s, i + 1) else i
  }

  function WordEnd(s: string, i: nat): (j: nat)
    requires i <= |s|
    ensures i <= j <= |s| && (j < |s| ==> !IsWordChar(s[j]))
    ensures forall k :: i <= k < j ==> IsWordChar(s[k])
    decreases |s| - i
  {
    if i < |s| && IsWordChar(s[i]) then WordEnd(s, i + 1) else i
  }

  const WORD := 'a'
  const MORE := '+'
  const END := '\0'

  // kind is gettoken's result; the token is s[lo..hi], and parsing goes on at next.
  datatype Token = Token(kind: char, lo: nat, hi: nat, next: nat)

  // The kind and the end of the token at a.
  function Extent(s: string, a: nat): (r: (char, nat))
    requires a < |s|
    ensures a <= r.1 <= |s| && (!IsSpace(s[a]) ==> a < r.1)
  {
    if s[a] == '>' then if a + 1 < |s| && s[a + 1] == '>' then (MORE, a + 2) else ('>', a + 1)
    else if IsSymbol(s[a]) then (s[a], a + 1)
    else (WORD, WordEnd(s, a))
  }

  function GetToken(s: string, i: nat): (t: Token)
    requires i <= |s|
    ensures i <= t.lo <= t.hi <= t.next <= |s|
    ensures t.kind != END ==> t.lo < t.hi
    ensures t.kind == WORD ==> IsWord(s, Span(t.lo, t.hi))
  {
    var a := SkipSpace(s, i);
    if a == |s| then Token(END, a, a, a)
    else
      var (kind, e) := Extent(s, a);
      Token(kind, a, e, SkipSpace(s, e))
  }

  // Word characters up to the first delimiter or the end of the line.
  predicate IsWord(s: string, w: Span) {
    && w.lo < w.hi <= |s|
    && (forall k :: w.lo <= k < w.hi ==> IsWordChar(s[k]))
    && (w.hi < |s| ==> !IsWordChar(s[w.hi]))
  }

  predicate Peek(s: string, i: nat, toks: string)
    requires i <= |s|
  {
    var j := SkipSpace(s, i);
    j < |s| && s[j] in toks
  }

  // ---- the grammar ----

  datatype Redirs = NoFile | Redirs(list: seq<Redirection<Span>>, at: nat)

  // All the redirections that follow.
  function ParseRedirs(s: string, i: nat): (r: Redirs)
    requires i <= |s|
    ensures r.Redirs? ==> i <= r.at <= |s| && forall k :: 0 <= k < |r.list| ==> IsWord(s, r.list[k].file)
    decreases |s| - i
  {
    if Peek(s, i, "<>") then
      var tok := GetToken(s, SkipSpace(s, i));
      var file := GetToken(s, tok.next);
      if file.kind != WORD then NoFile
      else
        match ParseRedirs(s, file.next)
        case NoFile => NoFile
        case Redirs(list, at) => Redirs([Redirect(tok.kind, Span(file.lo, file.hi))] + list, at)
    else Redirs([], SkipSpace(s, i))
  }

  function Redirect<W>(kind: char, file: W): Redirection<W> {
    if kind == '<' then Redirection(file, READ, 0)
    else if kind == '>' then Redirection(file, WRITE, 1)
    else Redirection(file, APPEND, 1)
  }

  // The command inside its redirections, the first one innermost.
  function Wrap<W>(cmd: Cmd<W>, list: seq<Redirection<W>>): Cmd<W>
    decreases |list|
  {
    if list == [] then cmd else Wrap(Redir(cmd, list[0]), list[1..])
  }

  // parseexec's loop: the arguments and redirections collected so far.
  function ParseArgs(s: string, i: nat, args: seq<Span>, list: seq<Redirection<Span>>): (r: Parsed)
    requires i <= |s|
    ensures r.Ok? ==> i <= r.at <= |s|
    decreases |s| - i
  {
    var j := SkipSpace(s, i);
    if Peek(s, i, "|)&;") then Ok(Wrap(Exec(args), list), j)
    else
      var tok := GetToken(s, j);
      if tok.kind == END then Ok(Wrap(Exec(args), list), tok.next)
      else if tok.kind != WORD || |args| + 1 >= MAXARGS then Panic
      else
        match ParseRedirs(s, tok.next)
        case NoFile => Panic
        case Redirs(more, at) => ParseArgs(s, at, args + [Span(tok.lo, tok.hi)], list + more)
  }

  function ParseExec(s: string, i: nat): (r: Parsed)
    requires i <= |s|
    ensures r.Ok? ==> i <= r.at <= |s|
    decreases |s| - i, 2
  {
    if Peek(s, i, "(") then ParseBlock(s, SkipSpace(s, i))
    else
      match ParseRedirs(s, i)
      case NoFile => Panic
      case Redirs(list, at) => ParseArgs(s, at, [], list)
  }

  function ParseBlock(s: string, i: nat): (r: Parsed)
    requires i <= |s|
    ensures r.Ok? ==> i <= r.at <= |s|
    decreases |s| - i, 1
  {
    if !Peek(s, i, "(") then Panic
    else
      match ParseLine(s, GetToken(s, i).next)
      case Panic => Panic
      case Ok(cmd, at) =>
        if !Peek(s, at, ")") then Panic
        else
          match ParseRedirs(s, GetToken(s, at).next)
          case NoFile => Panic
          case Redirs(list, end) => Ok(Wrap(cmd, list), end)
  }

  function ParsePipe(s: string, i: nat): (r: Parsed)
    requires i <= |s|
    ensures r.Ok? ==> i <= r.at <= |s|
    decreases |s| - i, 3
  {
    match ParseExec(s, i)
    case Panic => Panic
    case Ok(left, at) =>
      if !Peek(s, at, "|") then Ok(left, SkipSpace(s, at))
      else
        match ParsePipe(s, GetToken(s, at).next)
        case Panic => Panic
        case Ok(right, end) => Ok(Pipe(left, right), end)
  }

  // parseline's loop over '&'.
  function ParseAmps(s: string, i: nat, cmd: Cmd<Span>): (r: Parsed)
    requires i <= |s|
    ensures r.Ok? && i <= r.at <= |s|
    decreases |s| - i
  {
    if Peek(s, i, "&") then ParseAmps(s, GetToken(s, i).next, Back(cmd)) else Ok(cmd, SkipSpace(s, i))
  }

  function ParseLine(s: string, i: nat): (r: Parsed)
    requires i <= |s|
    ensures r.Ok? ==> i <= r.at <= |s|
    decreases |s| - i, 4
  {
    match ParsePipe(s, i)
    case Panic => Panic
    case Ok(cmd, at) =>
      var left := ParseAmps(s, at, cmd);
      if !Peek(s, left.at, ";") then Ok(left.cmd, SkipSpace(s, left.at))
      else
        match ParseLine(s, GetToken(s, left.at).next)
        case Panic => Panic
        case Ok(right, end) => Ok(List(left.cmd, right), end)
  }

  // parsecmd, up to nulterminate.
  function ParseCmd(s: string): Parsed {
    match ParseLine(s, 0)
    case Panic => Panic
    case Ok(cmd, at) => if SkipSpace(s, at) != |s| then Panic else Ok(cmd, |s|)
  }

  // ---- every word of the tree is a word of the line ----

  predicate Marked(s: string, c: Cmd<Span>) {
    match c
    case Exec(args) => forall k :: 0 <= k < |args| ==> IsWord(s, args[k])
    case Redir(cmd, redir) => Marked(s, cmd) && IsWord(s, redir.file)
    case Pipe(left, right) => Marked(s, left) && Marked(s, right)
    case List(left, right) => Marked(s, left) && Marked(s, right)
    case Back(cmd) => Marked(s, cmd)
  }

  predicate FilesMarked(s: string, list: seq<Redirection<Span>>) {
    forall k :: 0 <= k < |list| ==> IsWord(s, list[k].file)
  }

  lemma {:induction false} WrapMarked(s: string, cmd: Cmd<Span>, list: seq<Redirection<Span>>)
    requires Marked(s, cmd) && FilesMarked(s, list)
    ensures Marked(s, Wrap(cmd, list))
    decreases |list|
  {
    if list != [] {
      WrapMarked(s, Redir(cmd, list[0]), list[1..]);
    }
  }

  lemma {:induction false} ArgsMarked(s: string, i: nat, args: seq<Span>, list: seq<Redirection<Span>>)
    requires i <= |s| && Marked(s, Exec(args)) && FilesMarked(s, list)
    ensures var r := ParseArgs(s, i, args, list); r.Ok? ==> Marked(s, r.cmd)
    decreases |s| - i
  {
    hide IsWord;
    WrapMarked(s, Exec(args), list);
    var j := SkipSpace(s, i);
    var tok := GetToken(s, j);
    if !Peek(s, i, "|)&;") && tok.kind == WORD && |args| + 1 < MAXARGS {
      var more := ParseRedirs(s, tok.next);
      if more.Redirs? {
        ArgsMarked(s, more.at, args + [Span(tok.lo, tok.hi)], list + more.list);
      }
    }
  }

  lemma {:induction false} ExecMarked(s: string, i: nat)
    requires i <= |s|
    ensures var r := ParseExec(s, i); r.Ok? ==> Marked(s, r.cmd)
    decreases |s| - i, 2
  {
    hide IsWord;
    if Peek(s, i, "(") {
      BlockMarked(s, SkipSpace(s, i));
    } else {
      var more := ParseRedirs(s, i);
      if more.Redirs? {
        ArgsMarked(s, more.at, [], more.list);
      }
    }
  }

  lemma {:induction false} BlockMarked(s: string, i: nat)
    requires i <= |s|
    ensures var r := ParseBlock(s, i); r.Ok? ==> Marked(s, r.cmd)
    decreases |s| - i, 1
  {
    hide IsWord;
    if Peek(s, i, "(") {
      var r := ParseLine(s, GetToken(s, i).next);
      LineMarked(s, GetToken(s, i).next);
      if r.Ok? && Peek(s, r.at, ")") {
        var more := ParseRedirs(s, GetToken(s, r.at).next);
        if more.Redirs? {
          WrapMarked(s, r.cmd, more.list);
        }
      }
    }
  }

  lemma {:induction false} PipeMarked(s: string, i: nat)
    requires i <= |s|
    ensures var r := ParsePipe(s, i); r.Ok? ==> Marked(s, r.cmd)
    decreases |s| - i, 3
  {
    hide IsWord;
    var left := ParseExec(s, i);
    ExecMarked(s, i);
    if left.Ok? && Peek(s, left.at, "|") {
      PipeMarked(s, GetToken(s, left.at).next);
    }
  }

  lemma {:induction false} AmpsMarked(s: string, i: nat, cmd: Cmd<Span>)
    requires i <= |s| && Marked(s, cmd)
    ensures Marked(s, ParseAmps(s, i, cmd).cmd)
    decreases |s| - i
  {
    if Peek(s, i, "&") {
      AmpsMarked(s, GetToken(s, i).next, Back(cmd));
    }
  }

  lemma {:induction false} LineMarked(s: string, i: nat)
    requires i <= |s|
    ensures var r := ParseLine(s, i); r.Ok? ==> Marked(s, r.cmd)
    decreases |s| - i, 4
  {
    hide IsWord;
    var r := ParsePipe(s, i);
    PipeMarked(s, i);
    if r.Ok? {
      var left := ParseAmps(s, r.at, r.cmd);
      AmpsMarked(s, r.at, r.cmd);
      if Peek(s, left.at, ";") {
        LineMarked(s, GetToken(s, left.at).next);
      }
    }
  }
}
