// The parser of user/sh.c as it runs: a position that peek, gettoken and the
// parse functions advance, and nulterminate writing into the line.
module Shell {
  import opened ShellGrammar
  import opened ShellRoundTrip
  import opened Prelude

  function AllOf(done: seq<Redirection<Span>>, rest: Redirs): Redirs {
    match rest
    case NoFile => NoFile
    case Redirs(list, at) => Redirs(done + list, at)
  }

  // Result of a parse function: None after panic().
  predicate Result(r: Option<Cmd<Span>>, at: nat, p: Parsed) {
    match p
    case Panic => r == None
    case Ok(cmd, end) => r == Some(cmd) && at == end
  }

  class Parser {
    const s: string
    var at: nat

    predicate Valid()
      reads this
    {
      at <= |s|
    }

    constructor (line: string)
      ensures Valid() && s == line && at == 0
    {
      s := line;
      at := 0;
    }

    method Skip(i: nat) returns (j: nat)
      requires i <= |s|
      ensures j == SkipSpace(s, i)
    {
      j := i;
      while j < |s| && IsSpace(s[j])
        invariant i <= j <= |s| && SkipSpace(s, j) == SkipSpace(s, i)
      {
        j := j + 1;
      }
    }

    method PeekToken(toks: string) returns (found: bool)
      requires Valid()
      modifies this
      ensures Valid() && found == Peek(s, old(at), toks) && at == SkipSpace(s, old(at))
    {
      at := Skip(at);
      found := at < |s| && s[at] in toks;
    }

    // The switch in the middle of gettoken.
    method Measure(q: nat) returns (kind: char, e: nat)
      requires q < |s|
      ensures (kind, e) == Extent(s, q)
    {
      kind, e := s[q], q;
      match kind {
        case '|' | '(' | ')' | ';' | '&' | '<' =>
          e := e + 1;
        case '>' =>
          e := e + 1;
          if e < |s| && s[e] == '>' {
            kind, e := MORE, e + 1;
          }
        case _ =>
          kind := WORD;
          while e < |s| && !IsSpace(s[e]) && !IsSymbol(s[e])
            invariant q <= e <= |s| && WordEnd(s, e) == WordEnd(s, q)
          {
            e := e + 1;
          }
      }
    }

    method NextToken() returns (t: Token)
      requires Valid()
      modifies this
      ensures Valid() && t == GetToken(s, old(at)) && at == t.next
    {
      hide Extent;
      var q := Skip(at);
      if q == |s| {
        t := Token(END, q, q, q);
        at := q;
        assert SkipSpace(s, q) == q;
      } else {
        var kind, e := Measure(q);
        at := Skip(e);
        t := Token(kind, q, e, at);
      }
    }

    method Redirections() returns (r: Option<seq<Redirection<Span>>>)
      requires Valid()
      modifies this
      ensures Valid()
      ensures match ParseRedirs(s, old(at))
              case NoFile => r == None
              case Redirs(list, end) => r == Some(list) && at == end
    {
      hide ParseRedirs, Peek, GetToken, SkipSpace;
      var list := [];
      SkipFirst(s, at);
      var more := PeekToken("<>");
      while more
        invariant Valid() && more == Peek(s, at, "<>") && at == SkipSpace(s, at)
        invariant ParseRedirs(s, old(at)) == AllOf(list, ParseRedirs(s, at))
        decreases |s| - at
      {
        RedirsTurn(s, at, list);
        var tok := NextToken();
        var file := NextToken();
        if file.kind != WORD {
          return None;
        }
        list := list + [Redirect(tok.kind, Span(file.lo, file.hi))];
        SkipFirst(s, at);
        more := PeekToken("<>");
      }
      NoTurn(s, at);
      assert list + [] == list;
      r := Some(list);
    }

    // parseexec's loop: cmd->argv grows, the redirections wrap around it.
    method Arguments(first: seq<Redirection<Span>>) returns (r: Option<Cmd<Span>>)
      requires Valid()
      modifies this
      ensures Valid() && Result(r, at, ParseArgs(s, old(at), [], first))
    {
      hide ParseRedirs, Peek, GetToken, SkipSpace, ParseArgs;
      var args, list := [], first;
      ArgsFrom(s, at, args, list);
      SkipFirst(s, at);
      var stop := PeekToken("|)&;");
      while !stop
        invariant Valid() && stop == Peek(s, at, "|)&;") && at == SkipSpace(s, at)
        invariant ParseArgs(s, at, args, list) == ParseArgs(s, old(at), [], first)
        decreases |s| - at
      {
        ArgsFrom(s, at, args, list);
        var tok := NextToken();
        if tok.kind == END {
          return Some(Wrap(Exec(args), list));
        }
        if tok.kind != WORD {
          return None;
        }
        args := args + [Span(tok.lo, tok.hi)];
        if |args| >= MAXARGS {
          return None;
        }
        var more := Redirections();
        if more == None {
          return None;
        }
        list := list + more.value;
        ArgsFrom(s, at, args, list);
        SkipFirst(s, at);
        stop := PeekToken("|)&;");
      }
      ArgsFrom(s, at, args, list);
      r := Some(Wrap(Exec(args), list));
    }

    method ExecCommand() returns (r: Option<Cmd<Span>>)
      requires Valid()
      modifies this
      ensures Valid() && Result(r, at, ParseExec(s, old(at)))
      decreases |s| - at, 2
    {
      hide ParseRedirs, Peek, GetToken, SkipSpace, ParseArgs, ParseBlock;
      SkipFirst(s, at);
      var paren := PeekToken("(");
      if paren {
        r := Block();
        return;
      }
      var first := Redirections();
      if first == None {
        return None;
      }
      r := Arguments(first.value);
    }

    method Block() returns (r: Option<Cmd<Span>>)
      requires Valid()
      modifies this
      ensures Valid() && Result(r, at, ParseBlock(s, old(at)))
      decreases |s| - at, 1
    {
      hide ParseRedirs, GetToken, SkipSpace, ParseLine;
      SkipFirst(s, at);
      SameToken(s, at);
      var open := PeekToken("(");
      if !open {
        return None;
      }
      ghost var i := at;
      var tok := NextToken();
      assert i < at by { Advances(s, i, "("); }
      r := Line();
      if r == None {
        return;
      }
      SkipFirst(s, at);
      SameToken(s, at);
      var close := PeekToken(")");
      if !close {
        return None;
      }
      tok := NextToken();
      var list := Redirections();
      if list == None {
        return None;
      }
      r := Some(Wrap(r.value, list.value));
    }

    method PipeCommand() returns (r: Option<Cmd<Span>>)
      requires Valid()
      modifies this
      ensures Valid() && Result(r, at, ParsePipe(s, old(at)))
      decreases |s| - at, 3
    {
      hide GetToken, SkipSpace, ParseExec;
      r := ExecCommand();
      if r == None {
        return;
      }
      SkipFirst(s, at);
      SameToken(s, at);
      var more := PeekToken("|");
      if more {
        ghost var i := at;
        var tok := NextToken();
        assert i < at by { Advances(s, i, "|"); }
        var right := PipeCommand();
        if right == None {
          return None;
        }
        r := Some(Pipe(r.value, right.value));
      }
    }

    method Line() returns (r: Option<Cmd<Span>>)
      requires Valid()
      modifies this
      ensures Valid() && Result(r, at, ParseLine(s, old(at)))
      decreases |s| - at, 4
    {
      hide GetToken, SkipSpace, ParsePipe, Peek, ParseAmps;
      r := PipeCommand();
      if r == None {
        return;
      }
      ghost var p := ParsePipe(s, old(at));
      var cmd := r.value;
      SkipFirst(s, at);
      var amp := PeekToken("&");
      AmpsFrom(s, p.at, cmd);
      while amp
        invariant Valid() && amp == Peek(s, at, "&") && at == SkipSpace(s, at) && p.at <= at
        invariant ParseAmps(s, at, cmd) == ParseAmps(s, p.at, p.cmd)
        decreases |s| - at
      {
        AmpsFrom(s, at, cmd);
        Advances(s, at, "&");
        var tok := NextToken();
        cmd := Back(cmd);
        SkipFirst(s, at);
        AmpsFrom(s, at, cmd);
        amp := PeekToken("&");
      }
      AmpsFrom(s, at, cmd);
      var more := PeekToken(";");
      if more {
        Advances(s, at, ";");
        var tok := NextToken();
        var right := Line();
        if right == None {
          return None;
        }
        return Some(List(cmd, right.value));
      }
      r := Some(cmd);
    }
  }

  lemma {:induction false} Advances(s: string, i: nat, toks: string)
    requires i <= |s| && Peek(s, i, toks) && SkipSpace(s, i) == i
    ensures i < GetToken(s, i).next
  {
  }

  // One turn of parseline's loop over '&'.
  lemma {:induction false} AmpsFrom(s: string, i: nat, cmd: Cmd<Span>)
    requires i <= |s|
    ensures var j := SkipSpace(s, i);
            && j <= |s| && ParseAmps(s, i, cmd) == ParseAmps(s, j, cmd)
            && (i == j && !Peek(s, i, "&") ==> ParseAmps(s, i, cmd) == Ok(cmd, i))
            && (Peek(s, i, "&") ==> ParseAmps(s, i, cmd) == ParseAmps(s, GetToken(s, i).next, Back(cmd)))
  {
    SkipFirst(s, i);
    SameToken(s, i);
    hide GetToken, SkipSpace, Peek;
  }

  lemma {:induction false} SameToken(s: string, i: nat)
    requires i <= |s|
    ensures GetToken(s, i) == GetToken(s, SkipSpace(s, i))
  {
  }

  // One turn of parseexec's loop.
  lemma {:induction false} ArgsFrom(s: string, i: nat, args: seq<Span>, list: seq<Redirection<Span>>)
    requires i <= |s|
    ensures var j := SkipSpace(s, i);
            && j <= |s| && ParseArgs(s, i, args, list) == ParseArgs(s, j, args, list)
            && (i == j && Peek(s, i, "|)&;") ==> ParseArgs(s, i, args, list) == Ok(Wrap(Exec(args), list), i))
            && (i == j && !Peek(s, i, "|)&;") ==>
                  var tok := GetToken(s, i);
                  && (tok.kind != END ==> i < tok.next)
                  && ParseArgs(s, i, args, list) ==
                     if tok.kind == END then Ok(Wrap(Exec(args), list), tok.next)
                     else if tok.kind != WORD || |args| + 1 >= MAXARGS then Panic
                     else
                       match ParseRedirs(s, tok.next)
                       case NoFile => Panic
                       case Redirs(more, at) => ParseArgs(s, at, args + [Span(tok.lo, tok.hi)], list + more))
  {
    SkipFirst(s, i);
    hide GetToken, SkipSpace, Peek, ParseRedirs;
  }

  // One turn of parseredirs' loop.
  lemma {:induction false} RedirsTurn(s: string, i: nat, done: seq<Redirection<Span>>)
    requires i <= |s| && Peek(s, i, "<>") && SkipSpace(s, i) == i
    ensures var tok := GetToken(s, i);
            var file := GetToken(s, tok.next);
            && i < file.next
            && (file.kind != WORD ==> ParseRedirs(s, i) == NoFile)
            && (file.kind == WORD ==>
                  AllOf(done, ParseRedirs(s, i)) ==
                    AllOf(done + [Redirect(tok.kind, Span(file.lo, file.hi))], ParseRedirs(s, file.next)))
  {
    var tok := GetToken(s, i);
    var file := GetToken(s, tok.next);
    assert tok.kind != END;
    hide GetToken, SkipSpace, Peek;
    if file.kind == WORD {
      var r := ParseRedirs(s, file.next);
      if r.Redirs? {
        var red := Redirect(tok.kind, Span(file.lo, file.hi));
        assert done + ([red] + r.list) == (done + [red]) + r.list;
      }
    }
  }

  lemma {:induction false} NoTurn(s: string, i: nat)
    requires i <= |s| && !Peek(s, i, "<>") && SkipSpace(s, i) == i
    ensures ParseRedirs(s, i) == Redirs([], i)
  {
  }

  // Blanks in front do not matter.
  lemma {:induction false} SkipFirst(s: string, i: nat)
    requires i <= |s|
    ensures var j := SkipSpace(s, i);
            SkipSpace(s, j) == j && ParseRedirs(s, i) == ParseRedirs(s, j)
    ensures forall toks :: Peek(s, i, toks) == Peek(s, SkipSpace(s, i), toks)
  {
  }

  // ---- nulterminate ----

  // The buffer holds the line; some of its delimiters have become NULs.
  predicate Cut(s: string, b: seq<char>) {
    && |b| == |s| + 1 && b[|s|] == '\0'
    && forall k :: 0 <= k < |s| ==> b[k] == s[k] || (b[k] == '\0' && !IsWordChar(s[k]))
  }

  predicate EndAt(b: seq<char>, i: nat) {
    i < |b| && b[i] == '\0'
  }

  // Every word of the command is followed by a NUL.
  predicate Ended(b: seq<char>, c: Cmd<Span>) {
    match c
    case Exec(args) => forall k :: 0 <= k < |args| ==> EndAt(b, args[k].hi)
    case Redir(cmd, redir) => Ended(b, cmd) && EndAt(b, redir.file.hi)
    case Pipe(left, right) => Ended(b, left) && Ended(b, right)
    case List(left, right) => Ended(b, left) && Ended(b, right)
    case Back(cmd) => Ended(b, cmd)
  }

  predicate MoreEnds(b: seq<char>, b': seq<char>) {
    |b'| == |b| && forall k :: 0 <= k < |b| && b[k] == '\0' ==> b'[k] == '\0'
  }

  lemma {:induction false} EndedStays(b: seq<char>, b': seq<char>, c: Cmd<Span>)
    requires Ended(b, c) && MoreEnds(b, b')
    ensures Ended(b', c)
  {
    match c
    case Exec(args) =>
      forall k | 0 <= k < |args| ensures EndAt(b', args[k].hi) { assert EndAt(b, args[k].hi); }
    case Redir(cmd, redir) => EndedStays(b, b', cmd);
    case Pipe(left, right) => EndedStays(b, b', left); EndedStays(b, b', right);
    case List(left, right) => EndedStays(b, b', left); EndedStays(b, b', right);
    case Back(cmd) => EndedStays(b, b', cmd);
  }

  method Terminate(b: array<char>, ghost s: string, w: Span)
    requires Cut(s, b[..]) && IsWord(s, w)
    modifies b
    ensures Cut(s, b[..]) && EndAt(b[..], w.hi) && MoreEnds(old(b[..]), b[..])
  {
    b[w.hi] := '\0';
  }

  // nulterminate: walks the tree and writes a NUL behind every word.
  method NulTerminate(b: array<char>, ghost s: string, c: Cmd<Span>)
    requires Cut(s, b[..]) && Marked(s, c)
    modifies b
    ensures Cut(s, b[..]) && Ended(b[..], c) && MoreEnds(old(b[..]), b[..])
    decreases c
  {
    hide Cut, IsWord, EndAt;
    match c {
      case Exec(args) =>
        for i := 0 to |args|
          invariant Cut(s, b[..]) && MoreEnds(old(b[..]), b[..])
          invariant Ended(b[..], Exec(args[..i]))
        {
          ghost var before := b[..];
          Terminate(b, s, args[i]);
          EndedStays(before, b[..], Exec(args[..i]));
          assert forall k :: 0 <= k < i ==> args[..i + 1][k] == args[..i][k];
        }
        assert args[..|args|] == args;
      case Redir(cmd, redir) =>
        NulTerminate(b, s, cmd);
        ghost var before := b[..];
        Terminate(b, s, redir.file);
        EndedStays(before, b[..], cmd);
      case Pipe(left, right) =>
        NulTerminate(b, s, left);
        ghost var before := b[..];
        NulTerminate(b, s, right);
        EndedStays(before, b[..], left);
      case List(left, right) =>
        NulTerminate(b, s, left);
        ghost var before := b[..];
        NulTerminate(b, s, right);
        EndedStays(before, b[..], left);
      case Back(cmd) =>
        NulTerminate(b, s, cmd);
    }
  }

  // The C string that starts at i.
  function CString(b: seq<char>, i: nat): string
    decreases |b| - i
  {
    if i < |b| && b[i] != '\0' then [b[i]] + CString(b, i + 1) else ""
  }

  lemma {:induction false} ReadsAs(s: string, b: seq<char>, i: nat, hi: nat)
    requires Cut(s, b) && i <= hi <= |s| && EndAt(b, hi) && '\0' !in s
    requires forall k :: i <= k < hi ==> IsWordChar(s[k])
    ensures CString(b, i) == s[i..hi]
    decreases hi - i
  {
    if i < hi {
      ReadsAs(s, b, i + 1, hi);
      assert s[i..hi] == [s[i]] + s[i + 1..hi];
    }
  }

  // The command as exec and open see it: each word is the C string at its start.
  function CWords(b: seq<char>, c: Cmd<Span>): Cmd<string> {
    match c
    case Exec(args) => Exec(seq(|args|, k requires 0 <= k < |args| => CString(b, args[k].lo)))
    case Redir(cmd, redir) => Redir(CWords(b, cmd), Redirection(CString(b, redir.file.lo), redir.mode, redir.fd))
    case Pipe(left, right) => Pipe(CWords(b, left), CWords(b, right))
    case List(left, right) => List(CWords(b, left), CWords(b, right))
    case Back(cmd) => Back(CWords(b, cmd))
  }

  // After nulterminate every argument and file name is exactly its token's text.
  lemma {:induction false} WordsAreTexts(s: string, b: seq<char>, c: Cmd<Span>)
    requires Cut(s, b) && Marked(s, c) && Ended(b, c) && '\0' !in s
    ensures CWords(b, c) == Texts(s, c)
  {
    match c
    case Exec(args) =>
      forall k | 0 <= k < |args| ensures CString(b, args[k].lo) == TextOf(s, args[k]) {
        assert IsWord(s, args[k]) && EndAt(b, args[k].hi);
        ReadsAs(s, b, args[k].lo, args[k].hi);
      }
    case Redir(cmd, redir) =>
      WordsAreTexts(s, b, cmd);
      ReadsAs(s, b, redir.file.lo, redir.file.hi);
    case Pipe(left, right) => WordsAreTexts(s, b, left); WordsAreTexts(s, b, right);
    case List(left, right) => WordsAreTexts(s, b, left); WordsAreTexts(s, b, right);
    case Back(cmd) => WordsAreTexts(s, b, cmd);
  }

  // parsecmd on a NUL-terminated line: None after a syntax error.
  method ParseCommand(b: array<char>, line: string) returns (r: Option<Cmd<Span>>)
    requires b[..] == line + ['\0'] && '\0' !in line
    modifies b
    ensures r == None <==> ParseCmd(line) == Panic
    ensures r != None ==> ParseCmd(line).Ok? && r.value == ParseCmd(line).cmd
    ensures r != None ==> CWords(b[..], r.value) == Texts(line, r.value)
  {
    var p := new Parser(line);
    r := p.Line();
    if r == None {
      return;
    }
    SkipFirst(line, p.at);
    var rest := p.PeekToken("");
    if p.at != |line| {
      return None;
    }
    assert Cut(line, b[..]);
    LineMarked(line, 0);
    NulTerminate(b, line, r.value);
    WordsAreTexts(line, b[..], r.value);
  }

  // Writing a legal tree as a line and running parsecmd on it gives commands
  // whose words read as written.
  lemma {:induction false} CommandRoundTrip(t: Cmd<string>, b: seq<char>)
    requires LegalTree(t) && '\0' !in Unparse(t) && Cut(Unparse(t), b)
    requires ParseCmd(Unparse(t)).Ok? ==> Ended(b, ParseCmd(Unparse(t)).cmd)
    ensures ParseCmd(Unparse(t)).Ok? && CWords(b, ParseCmd(Unparse(t)).cmd) == t
  {
    RoundTrip(t);
    LineMarked(Unparse(t), 0);
    WordsAreTexts(Unparse(t), b, ParseCmd(Unparse(t)).cmd);
  }
}
