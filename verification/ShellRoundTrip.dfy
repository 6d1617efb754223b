// Writing a command tree as a line and parsing it back (user/sh.c).
module ShellRoundTrip {
  import opened ShellGrammar

  // ---- lines made of tokens ----

  datatype Tok = W(w: string) | S(c: char) | Append

  predicate LegalWord(w: string) {
    w != "" && forall k :: 0 <= k < |w| ==> IsWordChar(w[k])
  }

  predicate LegalTok(t: Tok) {
    match t
    case W(w) => LegalWord(w)
    case S(c) => IsSymbol(c)
    case Append => true
  }

  predicate LegalToks(toks: seq<Tok>) {
    forall k :: 0 <= k < |toks| ==> LegalTok(toks[k])
  }

  function Chars(t: Tok): (s: string)
    ensures LegalTok(t) ==> s != "" && !IsSpace(s[0])
  {
    match t
    case W(w) => w
    case S(c) => [c]
    case Append => ">>"
  }

  function Kind(t: Tok): char {
    match t
    case W(w) => WORD
    case S(c) => c
    case Append => MORE
  }

  // Every token is followed by one space.
  function Render(toks: seq<Tok>): string {
    if toks == [] then "" else Chars(toks[0]) + " " + Render(toks[1..])
  }

  // The rest of the line from i on spells these tokens.
  predicate At(s: string, i: nat, toks: seq<Tok>) {
    i <= |s| && LegalToks(toks) && s[i..] == Render(toks)
  }

  lemma {:induction false} StartsAt(s: string, i: nat, toks: seq<Tok>)
    requires At(s, i, toks)
    ensures SkipSpace(s, i) == i && (toks == [] <==> i == |s|)
    ensures toks != [] ==> s[i] == Chars(toks[0])[0]
  {
    if toks != [] {
      assert s[i..][0] == Chars(toks[0])[0];
    }
  }

  lemma {:induction false} PeekAt(s: string, i: nat, toks: seq<Tok>, set_: string)
    requires At(s, i, toks)
    ensures Peek(s, i, set_) <==> toks != [] && Chars(toks[0])[0] in set_
  {
    StartsAt(s, i, toks);
  }

  lemma {:induction false} WordEndAt(s: string, i: nat, e: nat)
    requires i <= e < |s| && !IsWordChar(s[e]) && forall k :: i <= k < e ==> IsWordChar(s[k])
    ensures WordEnd(s, i) == e
  {
  }

  // The characters of the first token, the space behind it, and the rest.
  lemma {:induction false} FirstChars(s: string, i: nat, toks: seq<Tok>)
    requires At(s, i, toks) && toks != []
    ensures var n := i + |Chars(toks[0])|;
            n < |s| && s[n] == ' ' && s[i..n] == Chars(toks[0]) && At(s, n + 1, toks[1..]) && SkipSpace(s, n) == n + 1
  {
    hide LegalToks, Chars, SkipSpace;
    var n := i + |Chars(toks[0])|;
    Suffix(s, i, Chars(toks[0]), Render(toks[1..]));
    LegalTail(toks);
    assert At(s, n + 1, toks[1..]);
    hide At, Render;
    StartsAt(s, n + 1, toks[1..]);
    SkipOne(s, n);
  }

  lemma {:induction false} LegalTail(toks: seq<Tok>)
    requires toks != [] && LegalToks(toks)
    ensures LegalToks(toks[1..])
  {
  }

  lemma {:induction false} SkipOne(s: string, n: nat)
    requires n < |s| && s[n] == ' '
    ensures SkipSpace(s, n) == SkipSpace(s, n + 1)
  {
  }

  lemma {:induction false} Suffix(s: string, i: nat, c: string, r: string)
    requires i <= |s| && s[i..] == c + " " + r
    ensures var n := i + |c|; n < |s| && s[n] == ' ' && s[i..n] == c && s[n + 1..] == r
  {
    var t := s[i..];
    var n := i + |c|;
    assert |t| == |c| + 1 + |r|;
    assert t[|c|] == ' ';
    assert s[i..n] == t[..|c|];
    assert s[n + 1..] == t[|c| + 1..];
  }

  // gettoken returns the first token and moves on to the second.
  lemma {:induction false} TokenAt(s: string, i: nat, toks: seq<Tok>)
    requires At(s, i, toks) && toks != []
    ensures var t, n := GetToken(s, i), i + |Chars(toks[0])|;
            t == Token(Kind(toks[0]), i, n, n + 1) && n < |s| && s[i..n] == Chars(toks[0]) && At(s, n + 1, toks[1..])
  {
    var c := Chars(toks[0]);
    var n := i + |c|;
    StartsAt(s, i, toks);
    FirstChars(s, i, toks);
    assert LegalTok(toks[0]);
    hide At, Render, LegalToks;
    match toks[0]
    case W(w) =>
      assert forall k :: i <= k < n ==> s[k] == s[i..n][k - i];
      WordEndAt(s, i, n);
      assert IsWordChar(s[i]);
    case S(x) =>
      assert s[i..n][0] == x;
    case Append =>
      assert s[i..n][0] == '>' && s[i..n][1] == '>';
  }

  // ---- trees and their texts ----

  function TextOf(s: string, w: Span): string {
    if w.lo <= w.hi <= |s| then s[w.lo..w.hi] else ""
  }

  function RedirText(s: string, r: Redirection<Span>): Redirection<string> {
    Redirection(TextOf(s, r.file), r.mode, r.fd)
  }

  function Texts(s: string, c: Cmd<Span>): Cmd<string> {
    match c
    case Exec(args) => Exec(seq(|args|, k requires 0 <= k < |args| => TextOf(s, args[k])))
    case Redir(cmd, redir) => Redir(Texts(s, cmd), RedirText(s, redir))
    case Pipe(left, right) => Pipe(Texts(s, left), Texts(s, right))
    case List(left, right) => List(Texts(s, left), Texts(s, right))
    case Back(cmd) => Back(Texts(s, cmd))
  }

  function RedirTexts(s: string, list: seq<Redirection<Span>>): seq<Redirection<string>> {
    seq(|list|, k requires 0 <= k < |list| => RedirText(s, list[k]))
  }

  lemma {:induction false} WrapTexts(s: string, c: Cmd<Span>, list: seq<Redirection<Span>>)
    ensures Texts(s, Wrap(c, list)) == Wrap(Texts(s, c), RedirTexts(s, list))
    decreases |list|
  {
    if list != [] {
      WrapTexts(s, Redir(c, list[0]), list[1..]);
      assert RedirTexts(s, list)[1..] == RedirTexts(s, list[1..]);
    }
  }

  lemma {:induction false} WrapLast<W>(c: Cmd<W>, list: seq<Redirection<W>>, r: Redirection<W>)
    ensures Wrap(c, list + [r]) == Redir(Wrap(c, list), r)
    decreases |list|
  {
    if list == [] {
      assert Wrap(c, [r]) == Wrap(Redir(c, r), []);
    } else {
      assert (list + [r])[1..] == list[1..] + [r];
      WrapLast(Redir(c, list[0]), list[1..], r);
    }
  }

  // The first token by itself.
  lemma {:induction false} HeadAt(s: string, i: nat, t: Tok, rest: seq<Tok>) returns (n: nat)
    requires At(s, i, [t] + rest)
    ensures i <= n < |s| && GetToken(s, i) == Token(Kind(t), i, n, n + 1) && TextOf(s, Span(i, n)) == Chars(t)
    ensures At(s, n + 1, rest) && SkipSpace(s, i) == i
  {
    var toks := [t] + rest;
    StartsAt(s, i, toks);
    TokenAt(s, i, toks);
    assert toks[1..] == rest;
    n := i + |Chars(t)|;
  }

  // ---- writing a tree ----

  predicate LegalRedir(r: Redirection<string>) {
    && LegalWord(r.file)
    && ((r.mode == READ && r.fd == 0) || (r.mode == WRITE && r.fd == 1) || (r.mode == APPEND && r.fd == 1))
  }

  // Legal words, at most nine arguments, and redirections the shell can write.
  predicate LegalTree(t: Cmd<string>) {
    match t
    case Exec(args) => |args| < MAXARGS && forall k :: 0 <= k < |args| ==> LegalWord(args[k])
    case Redir(cmd, redir) => LegalTree(cmd) && LegalRedir(redir)
    case Pipe(left, right) => LegalTree(left) && LegalTree(right)
    case List(left, right) => LegalTree(left) && LegalTree(right)
    case Back(cmd) => LegalTree(cmd)
  }

  function WordToks(args: seq<string>): seq<Tok> {
    if args == [] then [] else [W(args[0])] + WordToks(args[1..])
  }

  function Operator(r: Redirection<string>): Tok {
    if r.mode == READ then S('<') else if r.mode == WRITE then S('>') else Append
  }

  function RedirToks(list: seq<Redirection<string>>): seq<Tok> {
    if list == [] then [] else [Operator(list[0]), W(list[0].file)] + RedirToks(list[1..])
  }

  // A tree is a core inside redirections, or inside '&'s.
  function Core(t: Cmd<string>): Cmd<string> {
    if t.Redir? then Core(t.cmd) else t
  }

  function Outer(t: Cmd<string>): seq<Redirection<string>> {
    if t.Redir? then Outer(t.cmd) + [t.redir] else []
  }

  function Front(t: Cmd<string>): Cmd<string> {
    if t.Back? then Front(t.cmd) else t
  }

  function Backs(t: Cmd<string>): nat {
    if t.Back? then Backs(t.cmd) + 1 else 0
  }

  function Amps(n: nat): seq<Tok> {
    if n == 0 then [] else [S('&')] + Amps(n - 1)
  }

  function Size(t: Cmd<string>): nat {
    match t
    case Exec(args) => 1
    case Redir(cmd, _) => Size(cmd) + 1
    case Pipe(left, right) => Size(left) + Size(right) + 1
    case List(left, right) => Size(left) + Size(right) + 1
    case Back(cmd) => Size(cmd) + 1
  }

  // Which level writes a tree without parentheses decides the order in which the
  // four functions below may call each other on the same tree.
  datatype Level = AtLine | AtBack | AtPipe | AtSimple

  function Rank(t: Cmd<string>, level: Level): nat {
    var first := if t.List? then 1 else if t.Back? then 2 else if t.Pipe? then 3 else 0;
    var own := match level case AtLine => 1 case AtBack => 2 case AtPipe => 3 case AtSimple => 0;
    // distance, in the order Line, Back, Pipe, Simple, Line, ..., to the tree's own level
    (first + 4 - own) % 4
  }

  lemma {:induction false} CoreSize(t: Cmd<string>)
    ensures Size(Core(t)) <= Size(t) && !Core(t).Redir? && (Core(t) == t || Size(Core(t)) < Size(t))
    ensures Wrap(Core(t), Outer(t)) == t
    ensures LegalTree(t) ==> LegalTree(Core(t)) && forall k :: 0 <= k < |Outer(t)| ==> LegalRedir(Outer(t)[k])
  {
    if t.Redir? {
      CoreSize(t.cmd);
      WrapLast(Core(t.cmd), Outer(t.cmd), t.redir);
    }
  }

  lemma {:induction false} FrontSize(t: Cmd<string>)
    ensures Size(Front(t)) <= Size(t) && (t.Back? ==> Size(Front(t)) < Size(t))
    ensures LegalTree(t) ==> LegalTree(Front(t))
  {
    if t.Back? {
      FrontSize(t.cmd);
    }
  }

  function LineToks(t: Cmd<string>): seq<Tok>
    decreases Size(t), Rank(t, AtLine)
  {
    if t.List? then BackToks(t.left) + [S(';')] + LineToks(t.right) else BackToks(t)
  }

  function BackToks(t: Cmd<string>): seq<Tok>
    decreases Size(t), Rank(t, AtBack)
  {
    FrontSize(t);
    PipeToks(Front(t)) + Amps(Backs(t))
  }

  function PipeToks(t: Cmd<string>): seq<Tok>
    decreases Size(t), Rank(t, AtPipe)
  {
    if t.Pipe? then SimpleToks(t.left) + [S('|')] + PipeToks(t.right) else SimpleToks(t)
  }

  function SimpleToks(t: Cmd<string>): seq<Tok>
    decreases Size(t), Rank(t, AtSimple)
  {
    CoreSize(t);
    (if Core(t).Exec? then WordToks(Core(t).args) else [S('(')] + LineToks(Core(t)) + [S(')')]) + RedirToks(Outer(t))
  }

  function Unparse(t: Cmd<string>): string {
    Render(LineToks(t))
  }

  lemma {:induction false} WordsLegal(args: seq<string>)
    requires forall k :: 0 <= k < |args| ==> LegalWord(args[k])
    ensures LegalToks(WordToks(args))
  {
    hide LegalWord;
    if args != [] { WordsLegal(args[1..]); }
  }

  lemma {:induction false} RedirsLegal(list: seq<Redirection<string>>)
    requires forall k :: 0 <= k < |list| ==> LegalRedir(list[k])
    ensures LegalToks(RedirToks(list))
  {
    if list != [] { RedirsLegal(list[1..]); }
  }

  lemma {:induction false} AmpsLegal(n: nat)
    ensures LegalToks(Amps(n))
  {
    if n > 0 { AmpsLegal(n - 1); }
  }

  lemma {:induction false} LineLegal(t: Cmd<string>)
    requires LegalTree(t)
    ensures LegalToks(LineToks(t))
    decreases Size(t), Rank(t, AtLine)
  {
    if t.List? {
      BackLegal(t.left);
      LineLegal(t.right);
    } else {
      BackLegal(t);
    }
  }

  lemma {:induction false} BackLegal(t: Cmd<string>)
    requires LegalTree(t)
    ensures LegalToks(BackToks(t))
    decreases Size(t), Rank(t, AtBack)
  {
    FrontSize(t);
    PipeLegal(Front(t));
    AmpsLegal(Backs(t));
  }

  lemma {:induction false} PipeLegal(t: Cmd<string>)
    requires LegalTree(t)
    ensures LegalToks(PipeToks(t))
    decreases Size(t), Rank(t, AtPipe)
  {
    if t.Pipe? {
      SimpleLegal(t.left);
      PipeLegal(t.right);
    } else {
      SimpleLegal(t);
    }
  }

  lemma {:induction false} SimpleLegal(t: Cmd<string>)
    requires LegalTree(t)
    ensures LegalToks(SimpleToks(t))
    decreases Size(t), Rank(t, AtSimple)
  {
    CoreSize(t);
    RedirsLegal(Outer(t));
    if Core(t).Exec? {
      WordsLegal(Core(t).args);
    } else {
      LineLegal(Core(t));
    }
  }

  // ---- parsing it back ----

  // Parsing yields the tree and stops before the remaining tokens.
  ghost predicate Gives(s: string, r: Parsed, t: Cmd<string>, more: seq<Tok>) {
    r.Ok? && Texts(s, r.cmd) == t && At(s, r.at, more)
  }

  predicate Next(more: seq<Tok>, set_: string) {
    more == [] || (more[0].S? && more[0].c in set_)
  }

  // What follows is no operator of these.
  lemma {:induction false} NotNext(s: string, i: nat, more: seq<Tok>, follow: string, set_: string)
    requires At(s, i, more) && Next(more, follow) && forall c :: c in follow ==> c !in set_
    ensures !Peek(s, i, set_) && SkipSpace(s, i) == i
  {
    PeekAt(s, i, more, set_);
    StartsAt(s, i, more);
  }

  predicate NoRedir(more: seq<Tok>) {
    more == [] || more[0].W? || (more[0].S? && more[0].c !in "<>")
  }

  lemma {:induction false} NoRedirs(s: string, i: nat, more: seq<Tok>)
    requires At(s, i, more) && NoRedir(more)
    ensures ParseRedirs(s, i) == Redirs([], i)
  {
    StartsAt(s, i, more);
    PeekAt(s, i, more, "<>");
    if more != [] && more[0].W? {
      assert LegalTok(more[0]) && IsWordChar(more[0].w[0]);
    }
  }

  function Prepend(r: Redirection<Span>, rest: Redirs): Redirs {
    match rest
    case NoFile => NoFile
    case Redirs(list, at) => Redirs([r] + list, at)
  }

  lemma {:induction false} RedirTokens(s: string, i: nat, op: Tok, w: string, rest: seq<Tok>) returns (k: nat, e: nat)
    requires At(s, i, [op] + ([W(w)] + rest)) && LegalTok(op) && Chars(op)[0] in "<>"
    ensures i <= k < |s| && GetToken(s, i) == Token(Kind(op), i, k, k + 1) && Peek(s, i, "<>") && SkipSpace(s, i) == i
    ensures k + 1 <= e < |s| && GetToken(s, k + 1) == Token(WORD, k + 1, e, e + 1) && TextOf(s, Span(k + 1, e)) == w
    ensures At(s, e + 1, rest)
  {
    hide At, GetToken, SkipSpace, Peek, TextOf;
    PeekAt(s, i, [op] + ([W(w)] + rest), "<>");
    k := HeadAt(s, i, op, [W(w)] + rest);
    e := HeadAt(s, k + 1, W(w), rest);
  }

  lemma {:induction false} OneRedir(s: string, i: nat, r: Redirection<string>, rest: seq<Tok>)
    returns (red: Redirection<Span>, n: nat)
    requires At(s, i, [Operator(r), W(r.file)] + rest) && LegalRedir(r)
    ensures n <= |s| && At(s, n, rest) && RedirText(s, red) == r
    ensures ParseRedirs(s, i) == Prepend(red, ParseRedirs(s, n))
  {
    OperatorKind(r);
    var op := Operator(r);
    assert [op, W(r.file)] + rest == [op] + ([W(r.file)] + rest);
    hide At, GetToken, SkipSpace, LegalRedir, Operator, Redirect, Peek, ParseRedirs, TextOf, Chars, Kind, RedirText,
         Prepend;
    var k, e := RedirTokens(s, i, op, r.file, rest);
    red, n := Redirect(Kind(op), Span(k + 1, e)), e + 1;
    RedirectText(s, Kind(op), Span(k + 1, e));
    RedirStep(s, i);
  }

  lemma {:induction false} RedirStep(s: string, i: nat)
    requires i <= |s| && Peek(s, i, "<>") && SkipSpace(s, i) == i
    ensures var tok := GetToken(s, i);
            var file := GetToken(s, tok.next);
            file.kind == WORD ==>
              ParseRedirs(s, i) == Prepend(Redirect(tok.kind, Span(file.lo, file.hi)), ParseRedirs(s, file.next))
  {
    hide GetToken, SkipSpace, Peek, Redirect;
  }

  lemma {:induction false} OperatorKind(r: Redirection<string>)
    requires LegalRedir(r)
    ensures LegalTok(Operator(r)) && Chars(Operator(r))[0] in "<>" && Redirect(Kind(Operator(r)), r.file) == r
  {
  }

  lemma {:induction false} RedirectText(s: string, kind: char, w: Span)
    ensures RedirText(s, Redirect(kind, w)) == Redirect(kind, TextOf(s, w))
  {
  }

  lemma {:induction false} RedirsBack(s: string, i: nat, list: seq<Redirection<string>>, more: seq<Tok>)
    requires At(s, i, RedirToks(list) + more) && NoRedir(more)
    requires forall k :: 0 <= k < |list| ==> LegalRedir(list[k])
    ensures var r := ParseRedirs(s, i); r.Redirs? && RedirTexts(s, r.list) == list && At(s, r.at, more)
    decreases |list|
  {
    hide At, ParseRedirs, LegalRedir, RedirText, Operator;
    if list == [] {
      assert RedirToks(list) + more == more;
      NoRedirs(s, i, more);
    } else {
      assert RedirToks(list) + more == [Operator(list[0]), W(list[0].file)] + (RedirToks(list[1..]) + more);
      var red, n := OneRedir(s, i, list[0], RedirToks(list[1..]) + more);
      RedirsBack(s, n, list[1..], more);
      var r := ParseRedirs(s, i);
      assert RedirTexts(s, r.list) == [RedirText(s, red)] + RedirTexts(s, ParseRedirs(s, n).list);
    }
  }

  lemma {:induction false} AmpsBack(s: string, i: nat, c: Cmd<Span>, n: nat, t: Cmd<string>, more: seq<Tok>)
    requires At(s, i, Amps(n) + more) && Next(more, ";)") && Texts(s, c) == t
    ensures Gives(s, ParseAmps(s, i, c), Repeat(t, n), more)
    decreases n
  {
    hide At, GetToken, SkipSpace, Peek;
    if n == 0 {
      assert Amps(n) + more == more;
      NotNext(s, i, more, ";)", "&");
    } else {
      assert Amps(n) + more == [S('&')] + (Amps(n - 1) + more);
      var k := SymbolAt(s, i, '&', Amps(n - 1) + more, "&");
      AmpsBack(s, k, Back(c), n - 1, Back(t), more);
    }
  }

  function Repeat(t: Cmd<string>, n: nat): Cmd<string>
    decreases n
  {
    if n == 0 then t else Repeat(Back(t), n - 1)
  }

  lemma {:induction false} RepeatLast(t: Cmd<string>, n: nat)
    ensures Repeat(t, n + 1) == Back(Repeat(t, n))
    decreases n
  {
    if n > 0 {
      RepeatLast(Back(t), n - 1);
    }
  }

  lemma {:induction false} FrontBacks(t: Cmd<string>)
    ensures Repeat(Front(t), Backs(t)) == t
  {
    if t.Back? {
      FrontBacks(t.cmd);
      RepeatLast(Front(t), Backs(t.cmd));
    }
  }

  // One turn of parseexec's loop.
  lemma {:induction false} ArgTurn(s: string, i: nat, args: seq<Span>, list: seq<Redirection<Span>>)
    requires i <= |s| && |args| + 1 < MAXARGS && !Peek(s, i, "|)&;") && SkipSpace(s, i) == i
             && GetToken(s, i).kind == WORD
    ensures var tok := GetToken(s, i);
            ParseArgs(s, i, args, list) ==
            (match ParseRedirs(s, tok.next)
             case NoFile => Panic
             case Redirs(more, at) => ParseArgs(s, at, args + [Span(tok.lo, tok.hi)], list + more))
  {
    hide Peek, GetToken, SkipSpace, ParseRedirs;
  }

  lemma {:induction false} WordAt(s: string, i: nat, w: string, rest: seq<Tok>) returns (e: nat)
    requires LegalWord(w) && At(s, i, [W(w)] + rest)
    ensures i <= e < |s| && GetToken(s, i) == Token(WORD, i, e, e + 1) && !Peek(s, i, "|)&;") && SkipSpace(s, i) == i
    ensures TextOf(s, Span(i, e)) == w && At(s, e + 1, rest)
  {
    assert IsWordChar(w[0]);
    PeekAt(s, i, [W(w)] + rest, "|)&;");
    hide At, GetToken, SkipSpace, Peek, TextOf, LegalWord;
    e := HeadAt(s, i, W(w), rest);
  }

  // One more word.
  lemma {:induction false} OneArg(s: string, i: nat, args: seq<Span>, w: string, rest: seq<Tok>)
    returns (word: Span, n: nat)
    requires LegalWord(w) && |args| + 1 < MAXARGS && At(s, i, [W(w)] + rest)
    ensures n <= |s| && At(s, n, rest) && TextOf(s, word) == w
    ensures ParseArgs(s, i, args, []) ==
            (match ParseRedirs(s, n)
             case NoFile => Panic
             case Redirs(more, at) => ParseArgs(s, at, args + [word], more))
  {
    hide At, GetToken, SkipSpace, Peek, ParseRedirs, ParseArgs, TextOf, LegalWord;
    var e := WordAt(s, i, w, rest);
    word, n := Span(i, e), e + 1;
    ArgTurn(s, i, args, []);
    var r := ParseRedirs(s, n);
    if r.Redirs? {
      assert [] + r.list == r.list;
    }
  }

  // parseexec's loop over the remaining words, the redirections behind the last.
  lemma {:induction false} ArgsBack(s: string, i: nat, args: seq<Span>, words: seq<string>,
                                    list: seq<Redirection<string>>, more: seq<Tok>)
    requires words != [] && |args| + |words| < MAXARGS
    requires forall k :: 0 <= k < |words| ==> LegalWord(words[k])
    requires forall k :: 0 <= k < |list| ==> LegalRedir(list[k])
    requires At(s, i, WordToks(words) + RedirToks(list) + more) && Next(more, "|&;)")
    ensures Gives(s, ParseArgs(s, i, args, []), Wrap(Exec(ArgTexts(s, args) + words), list), more)
    decreases |words|
  {
    hide At, ParseArgs, ParseRedirs, LegalWord, LegalRedir, Gives, RedirToks, ArgTexts, TextOf;
    var rest := WordToks(words[1..]) + RedirToks(list) + more;
    assert WordToks(words) + RedirToks(list) + more == [W(words[0])] + rest;
    var word, n := OneArg(s, i, args, words[0], rest);
    ArgTextsMove(s, args, word, words);
    if |words| > 1 {
      assert rest[0] == W(words[1]);
      hide WordToks;
      NoRedirs(s, n, rest);
      ArgsBack(s, n, args + [word], words[1..], list, more);
    } else {
      assert rest == RedirToks(list) + more;
      hide WordToks;
      assert words[1..] == [] && ArgTexts(s, args + [word]) + [] == ArgTexts(s, args + [word]);
      RedirsBack(s, n, list, more);
      var r := ParseRedirs(s, n);
      NoMoreArgs(s, r.at, args + [word], r.list, more);
    }
  }

  lemma {:induction false} ArgTextsMove(s: string, args: seq<Span>, word: Span, words: seq<string>)
    requires words != [] && TextOf(s, word) == words[0]
    ensures ArgTexts(s, args) + words == ArgTexts(s, args + [word]) + words[1..]
  {
    assert ArgTexts(s, args + [word]) == ArgTexts(s, args) + [words[0]];
    assert words == [words[0]] + words[1..];
  }

  function ArgTexts(s: string, args: seq<Span>): seq<string> {
    seq(|args|, k requires 0 <= k < |args| => TextOf(s, args[k]))
  }

  lemma {:induction false} NoMoreArgs(s: string, i: nat, args: seq<Span>, list: seq<Redirection<Span>>, more: seq<Tok>)
    requires At(s, i, more) && Next(more, "|&;)")
    ensures Gives(s, ParseArgs(s, i, args, list), Wrap(Exec(ArgTexts(s, args)), RedirTexts(s, list)), more)
  {
    PeekAt(s, i, more, "|)&;");
    StartsAt(s, i, more);
    WrapTexts(s, Exec(args), list);
    assert Texts(s, Exec(args)) == Exec(ArgTexts(s, args));
  }

  // ---- the grammar, level by level ----

  lemma {:induction false} SymbolAt(s: string, i: nat, c: char, rest: seq<Tok>, set_: string) returns (n: nat)
    requires At(s, i, [S(c)] + rest)
    ensures n <= |s| && GetToken(s, i).next == n && At(s, n, rest) && SkipSpace(s, i) == i
    ensures Peek(s, i, set_) <==> c in set_
  {
    PeekAt(s, i, [S(c)] + rest, set_);
    hide At, Peek, GetToken;
    var k := HeadAt(s, i, S(c), rest);
    n := k + 1;
  }

  lemma {:induction false} ExecBack(s: string, i: nat, args: seq<string>, list: seq<Redirection<string>>,
                                    more: seq<Tok>)
    requires At(s, i, WordToks(args) + RedirToks(list) + more) && Next(more, "|&;)")
    requires LegalTree(Exec(args)) && forall k :: 0 <= k < |list| ==> LegalRedir(list[k])
    ensures Gives(s, ParseExec(s, i), Wrap(Exec(args), list), more)
  {
    var toks := WordToks(args) + RedirToks(list) + more;
    hide At, ParseRedirs, ParseArgs, LegalRedir, Gives, LegalWord;
    NotParen(s, i, args, list, more);
    if args == [] {
      assert toks == RedirToks(list) + more;
      RedirsBack(s, i, list, more);
      var r := ParseRedirs(s, i);
      NoMoreArgs(s, r.at, [], r.list, more);
      assert ArgTexts(s, []) == args;
    } else {
      NoRedirs(s, i, toks);
      ArgsBack(s, i, [], args, list, more);
      assert ArgTexts(s, []) + args == args;
    }
  }

  lemma {:induction false} NotParen(s: string, i: nat, args: seq<string>, list: seq<Redirection<string>>,
                                    more: seq<Tok>)
    requires At(s, i, WordToks(args) + RedirToks(list) + more) && Next(more, "|&;)")
    ensures !Peek(s, i, "(")
  {
    var toks := WordToks(args) + RedirToks(list) + more;
    PeekAt(s, i, toks, "(");
    if args != [] {
      assert toks[0] == W(args[0]);
      assert LegalTok(toks[0]) && IsWordChar(args[0][0]);
    } else if list != [] {
      assert toks[0] == Operator(list[0]);
    } else {
      assert toks == more;
    }
  }

  lemma {:induction false} SimpleShape(t: Cmd<string>, more: seq<Tok>)
    ensures Core(t).Exec? ==> SimpleToks(t) + more == WordToks(Core(t).args) + RedirToks(Outer(t)) + more
    ensures !Core(t).Exec? ==>
              SimpleToks(t) + more == [S('(')] + (LineToks(Core(t)) + ([S(')')] + (RedirToks(Outer(t)) + more)))
  {
    hide LineToks, RedirToks, WordToks;
  }

  lemma {:induction false} SimpleBack(s: string, i: nat, t: Cmd<string>, more: seq<Tok>)
    requires LegalTree(t) && At(s, i, SimpleToks(t) + more) && Next(more, "|&;)")
    ensures Gives(s, ParseExec(s, i), t, more)
    decreases Size(t), Rank(t, AtSimple)
  {
    hide At, LineToks, SimpleToks, WordToks, RedirToks, ParseLine, ParseExec, Gives, Core, Outer, Wrap, LegalRedir,
         Next;
    CoreSize(t);
    SimpleShape(t, more);
    var core, list := Core(t), Outer(t);
    if core.Exec? {
      ExecBack(s, i, core.args, list, more);
    } else {
      var tail := [S(')')] + (RedirToks(list) + more);
      var n := SymbolAt(s, i, '(', LineToks(core) + tail, "(");
      assert Next(tail, ")") by { CloseNext(RedirToks(list) + more); }
      LineBack(s, n, core, tail);
      BlockBack(s, i, n, core, list, more);
    }
  }

  lemma {:induction false} CloseNext(rest: seq<Tok>)
    ensures Next([S(')')] + rest, ")")
  {
  }

  lemma {:induction false} BlockBack(s: string, i: nat, n: nat, core: Cmd<string>, list: seq<Redirection<string>>,
                                     more: seq<Tok>)
    requires i <= n <= |s| && Peek(s, i, "(") && SkipSpace(s, i) == i && GetToken(s, i).next == n
    requires Gives(s, ParseLine(s, n), core, [S(')')] + (RedirToks(list) + more)) && Next(more, "|&;)")
    requires forall k :: 0 <= k < |list| ==> LegalRedir(list[k])
    ensures Gives(s, ParseExec(s, i), Wrap(core, list), more)
  {
    hide At, ParseLine, ParseRedirs, LegalRedir, Wrap, Texts, Peek, GetToken, SkipSpace;
    var r := ParseLine(s, n);
    var m := SymbolAt(s, r.at, ')', RedirToks(list) + more, ")");
    RedirsBack(s, m, list, more);
    WrapTexts(s, r.cmd, ParseRedirs(s, m).list);
  }

  lemma {:induction false} PipeBack(s: string, i: nat, t: Cmd<string>, more: seq<Tok>)
    requires LegalTree(t) && At(s, i, PipeToks(t) + more) && Next(more, "&;)")
    ensures Gives(s, ParsePipe(s, i), t, more)
    decreases Size(t), Rank(t, AtPipe)
  {
    hide At, ParseExec, SimpleToks;
    if t.Pipe? {
      var tail := PipeToks(t.right) + more;
      assert PipeToks(t) + more == SimpleToks(t.left) + ([S('|')] + tail);
      SimpleBack(s, i, t.left, [S('|')] + tail);
      var left := ParseExec(s, i);
      var n := SymbolAt(s, left.at, '|', tail, "|");
      PipeBack(s, n, t.right, more);
    } else {
      SimpleBack(s, i, t, more);
      var left := ParseExec(s, i);
      NotNext(s, left.at, more, "&;)", "|");
    }
  }

  lemma {:induction false} BackBack(s: string, i: nat, t: Cmd<string>, more: seq<Tok>)
    requires LegalTree(t) && At(s, i, BackToks(t) + more) && Next(more, ";)")
    ensures var p := ParsePipe(s, i); p.Ok? && Gives(s, ParseAmps(s, p.at, p.cmd), t, more)
    decreases Size(t), Rank(t, AtBack)
  {
    hide At, ParsePipe, PipeToks;
    FrontSize(t);
    FrontBacks(t);
    var tail := Amps(Backs(t)) + more;
    assert BackToks(t) + more == PipeToks(Front(t)) + tail;
    PipeBack(s, i, Front(t), tail);
    var p := ParsePipe(s, i);
    AmpsBack(s, p.at, p.cmd, Backs(t), Front(t), more);
  }

  lemma {:induction false} LineBack(s: string, i: nat, t: Cmd<string>, more: seq<Tok>)
    requires LegalTree(t) && At(s, i, LineToks(t) + more) && Next(more, ")")
    ensures Gives(s, ParseLine(s, i), t, more)
    decreases Size(t), Rank(t, AtLine)
  {
    hide At, ParsePipe, ParseAmps, BackToks;
    if t.List? {
      var tail := LineToks(t.right) + more;
      assert LineToks(t) + more == BackToks(t.left) + ([S(';')] + tail);
      BackBack(s, i, t.left, [S(';')] + tail);
      var p := ParsePipe(s, i);
      var left := ParseAmps(s, p.at, p.cmd);
      var n := SymbolAt(s, left.at, ';', tail, ";");
      LineBack(s, n, t.right, more);
    } else {
      BackBack(s, i, t, more);
      var p := ParsePipe(s, i);
      var left := ParseAmps(s, p.at, p.cmd);
      NotNext(s, left.at, more, ")", ";");
    }
  }

  // Parsing what Unparse writes gives the tree back.
  lemma {:induction false} RoundTrip(t: Cmd<string>)
    requires LegalTree(t)
    ensures var s := Unparse(t); var r := ParseCmd(s); r.Ok? && Texts(s, r.cmd) == t
  {
    var s := Unparse(t);
    LineLegal(t);
    assert LineToks(t) + [] == LineToks(t);
    assert s[0..] == s;
    LineBack(s, 0, t, []);
    StartsAt(s, ParseLine(s, 0).at, []);
  }
}
