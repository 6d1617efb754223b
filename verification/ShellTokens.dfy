// The shell's parser sees tokens only (user/sh.c): lines with the same tokens
// parse alike, whatever their blanks, and what is accepted can be written back.
module ShellTokens {
  import opened ShellGrammar
  import opened ShellRoundTrip

  function TokOf(s: string, t: Token): Tok
    requires t.lo <= t.hi <= |s|
  {
    if t.kind == WORD then W(s[t.lo..t.hi]) else if t.kind == MORE then Append else S(t.kind)
  }

  // The tokens of the line from i on.
  function Lexemes(s: string, i: nat): seq<Tok>
    requires i <= |s|
    decreases |s| - i
  {
    var t := GetToken(s, i);
    if t.kind == END then [] else [TokOf(s, t)] + Lexemes(s, t.next)
  }

  lemma {:induction false} SkipTwice(s: string, i: nat)
    requires i <= |s|
    ensures SkipSpace(s, SkipSpace(s, i)) == SkipSpace(s, i)
  {
  }

  lemma {:induction false} SkipKeeps(s: string, i: nat)
    requires i <= |s|
    ensures Lexemes(s, SkipSpace(s, i)) == Lexemes(s, i) && GetToken(s, SkipSpace(s, i)) == GetToken(s, i)
  {
    SkipTwice(s, i);
  }

  predicate Symbols(set_: string) {
    forall c :: c in set_ ==> IsSymbol(c)
  }

  predicate Begins(toks: seq<Tok>, set_: string) {
    toks != [] && match toks[0]
                  case W(_) => false
                  case S(c) => c in set_
                  case Append => '>' in set_
  }

  lemma {:induction false} PeekLex(s: string, i: nat, set_: string)
    requires i <= |s| && Symbols(set_)
    ensures Peek(s, i, set_) <==> Begins(Lexemes(s, i), set_)
  {
    var a := SkipSpace(s, i);
    var t := GetToken(s, i);
    if a < |s| {
      assert t.lo == a && (t.kind == WORD || t.kind == MORE || t.kind == s[a]);
      assert t.kind == WORD ==> !IsSymbol(s[a]);
      assert t.kind == MORE ==> s[a] == '>';
      assert t.kind != END;
    }
  }

  // ---- two lines with the same tokens ----

  predicate Same(s: string, i: nat, s': string, j: nat) {
    i <= |s| && j <= |s'| && Lexemes(s, i) == Lexemes(s', j)
  }

  lemma {:induction false} SkipSame(s: string, i: nat, s': string, j: nat)
    requires Same(s, i, s', j)
    ensures Same(s, SkipSpace(s, i), s', SkipSpace(s', j))
  {
    SkipKeeps(s, i);
    SkipKeeps(s', j);
  }

  lemma {:induction false} PeekSame(s: string, i: nat, s': string, j: nat, set_: string)
    requires Same(s, i, s', j) && Symbols(set_)
    ensures Peek(s, i, set_) == Peek(s', j, set_)
  {
    PeekLex(s, i, set_);
    PeekLex(s', j, set_);
  }

  predicate KindOk(k: char) {
    k == END || k == WORD || k == MORE || (IsSymbol(k) && k != END && k != WORD && k != MORE)
  }

  lemma {:induction false} KindIs(s: string, i: nat)
    requires i <= |s|
    ensures KindOk(GetToken(s, i).kind)
  {
  }

  lemma {:induction false} TokenSame(s: string, i: nat, s': string, j: nat)
    requires Same(s, i, s', j)
    ensures var t, u := GetToken(s, i), GetToken(s', j);
            && t.kind == u.kind && Same(s, t.next, s', u.next)
            && (t.kind == WORD ==> TextOf(s, Span(t.lo, t.hi)) == TextOf(s', Span(u.lo, u.hi)))
  {
    KindIs(s, i);
    KindIs(s', j);
    var t, u := GetToken(s, i), GetToken(s', j);
    hide GetToken, IsSymbol;
    if t.kind != END && u.kind != END {
      assert Lexemes(s, i)[0] == TokOf(s, t) && Lexemes(s', j)[0] == TokOf(s', u);
      assert Lexemes(s, i)[1..] == Lexemes(s, t.next) && Lexemes(s', j)[1..] == Lexemes(s', u.next);
    } else {
      EndStays(s, i);
      EndStays(s', j);
    }
  }

  lemma {:induction false} EndStays(s: string, i: nat)
    requires i <= |s|
    ensures GetToken(s, i).kind == END ==> Lexemes(s, i) == [] && Lexemes(s, GetToken(s, i).next) == []
    ensures Lexemes(s, i) == [] ==> GetToken(s, i).kind == END
  {
    SkipTwice(s, i);
  }

  ghost predicate AlikeRedirs(s: string, r: Redirs, s': string, r': Redirs) {
    r.NoFile? == r'.NoFile? &&
    (r.Redirs? ==> RedirTexts(s, r.list) == RedirTexts(s', r'.list) && Same(s, r.at, s', r'.at))
  }

  ghost predicate Alike(s: string, r: Parsed, s': string, r': Parsed) {
    r.Ok? == r'.Ok? && (r.Ok? ==> Texts(s, r.cmd) == Texts(s', r'.cmd) && Same(s, r.at, s', r'.at))
  }

  lemma {:induction false} RedirTextsCons(s: string, r: Redirection<Span>, list: seq<Redirection<Span>>)
    ensures RedirTexts(s, [r] + list) == [RedirText(s, r)] + RedirTexts(s, list)
  {
  }

  lemma {:induction false} ConsSame(s: string, kind: char, w: Span, r: Redirs, s': string, w': Span, r': Redirs)
    requires AlikeRedirs(s, r, s', r') && TextOf(s, w) == TextOf(s', w')
    ensures AlikeRedirs(s, Prepend(Redirect(kind, w), r), s', Prepend(Redirect(kind, w'), r'))
  {
    hide Same, Lexemes, RedirTexts, Redirect, TextOf;
    RedirectText(s, kind, w);
    RedirectText(s', kind, w');
    if r.Redirs? {
      RedirTextsCons(s, Redirect(kind, w), r.list);
      RedirTextsCons(s', Redirect(kind, w'), r'.list);
    }
  }

  lemma {:induction false} RedirsSame(s: string, i: nat, s': string, j: nat)
    requires Same(s, i, s', j)
    ensures AlikeRedirs(s, ParseRedirs(s, i), s', ParseRedirs(s', j))
    decreases |s| - i
  {
    hide Same, Peek, GetToken, Lexemes;
    SameBounds(s, i, s', j);
    PeekSame(s, i, s', j, "<>");
    SkipSame(s, i, s', j);
    var a, b := SkipSpace(s, i), SkipSpace(s', j);
    if Peek(s, i, "<>") {
      PeekToken(s, i, "<>");
      var t, u := GetToken(s, a), GetToken(s', b);
      TokenSame(s, a, s', b);
      var f, g := GetToken(s, t.next), GetToken(s', u.next);
      TokenSame(s, t.next, s', u.next);
      if f.kind == WORD {
        RedirsSame(s, f.next, s', g.next);
        ConsSame(s, t.kind, Span(f.lo, f.hi), ParseRedirs(s, f.next),
                 s', Span(g.lo, g.hi), ParseRedirs(s', g.next));
        hide Redirect, RedirTexts, AlikeRedirs;
      }
    } else {
      assert RedirTexts(s, []) == [] && RedirTexts(s', []) == [];
    }
  }

  lemma {:induction false} SameBounds(s: string, i: nat, s': string, j: nat)
    requires Same(s, i, s', j)
    ensures i <= |s| && j <= |s'|
  {
  }

  // A token that peek() sees moves the parser on.
  lemma {:induction false} PeekToken(s: string, i: nat, set_: string)
    requires i <= |s| && Peek(s, i, set_)
    ensures i < GetToken(s, SkipSpace(s, i)).next && i < GetToken(s, i).next
  {
    SkipTwice(s, i);
  }

  lemma {:induction false} WrapSame(s: string, c: Cmd<Span>, list: seq<Redirection<Span>>,
                                    s': string, c': Cmd<Span>, list': seq<Redirection<Span>>)
    requires Texts(s, c) == Texts(s', c') && RedirTexts(s, list) == RedirTexts(s', list')
    ensures Texts(s, Wrap(c, list)) == Texts(s', Wrap(c', list'))
  {
    WrapTexts(s, c, list);
    WrapTexts(s', c', list');
  }

  lemma {:induction false} MoreArgs(s: string, args: seq<Span>, w: Span, s': string, args': seq<Span>, w': Span)
    requires Texts(s, Exec(args)) == Texts(s', Exec(args')) && TextOf(s, w) == TextOf(s', w')
    ensures Texts(s, Exec(args + [w])) == Texts(s', Exec(args' + [w'])) && |args| == |args'|
  {
    var a, b := Texts(s, Exec(args)).args, Texts(s', Exec(args')).args;
    assert a == b;
    assert Texts(s, Exec(args + [w])).args == a + [TextOf(s, w)];
    assert Texts(s', Exec(args' + [w'])).args == b + [TextOf(s', w')];
  }

  lemma {:induction false} MoreRedirs(s: string, list: seq<Redirection<Span>>, more: seq<Redirection<Span>>)
    ensures RedirTexts(s, list + more) == RedirTexts(s, list) + RedirTexts(s, more)
  {
  }

  lemma {:induction false} SameCount(s: string, args: seq<Span>, s': string, args': seq<Span>)
    requires Texts(s, Exec(args)) == Texts(s', Exec(args'))
    ensures |args| == |args'|
  {
    assert |Texts(s, Exec(args)).args| == |args| && |Texts(s', Exec(args')).args| == |args'|;
  }

  lemma {:induction false} ArgsSame(s: string, i: nat, args: seq<Span>, list: seq<Redirection<Span>>,
                                    s': string, j: nat, args': seq<Span>, list': seq<Redirection<Span>>)
    requires Same(s, i, s', j)
    requires Texts(s, Exec(args)) == Texts(s', Exec(args')) && RedirTexts(s, list) == RedirTexts(s', list')
    ensures Alike(s, ParseArgs(s, i, args, list), s', ParseArgs(s', j, args', list'))
    decreases |s| - i
  {
    hide Same, Peek, GetToken, Lexemes, Texts, RedirTexts, ParseRedirs;
    SameBounds(s, i, s', j);
    WrapSame(s, Exec(args), list, s', Exec(args'), list');
    SameCount(s, args, s', args');
    PeekSame(s, i, s', j, "|)&;");
    SkipSame(s, i, s', j);
    var a, b := SkipSpace(s, i), SkipSpace(s', j);
    TokenSame(s, a, s', b);
    var t, u := GetToken(s, a), GetToken(s', b);
    if !Peek(s, i, "|)&;") && t.kind == WORD && |args| + 1 < MAXARGS {
      RedirsSame(s, t.next, s', u.next);
      var r, r' := ParseRedirs(s, t.next), ParseRedirs(s', u.next);
      if r.Redirs? {
        MoreArgs(s, args, Span(t.lo, t.hi), s', args', Span(u.lo, u.hi));
        MoreRedirs(s, list, r.list);
        MoreRedirs(s', list', r'.list);
        ArgsSame(s, r.at, args + [Span(t.lo, t.hi)], list + r.list,
                 s', r'.at, args' + [Span(u.lo, u.hi)], list' + r'.list);
      }
    }
  }

  lemma {:induction false} ExecSame(s: string, i: nat, s': string, j: nat)
    requires Same(s, i, s', j)
    ensures Alike(s, ParseExec(s, i), s', ParseExec(s', j))
    decreases |s| - i, 2
  {
    hide Same, Peek, GetToken, Lexemes, RedirTexts, ParseRedirs, ParseArgs, ParseBlock;
    SameBounds(s, i, s', j);
    PeekSame(s, i, s', j, "(");
    if Peek(s, i, "(") {
      SkipSame(s, i, s', j);
      BlockSame(s, SkipSpace(s, i), s', SkipSpace(s', j));
    } else {
      RedirsSame(s, i, s', j);
      var r, r' := ParseRedirs(s, i), ParseRedirs(s', j);
      if r.Redirs? {
        assert Texts(s, Exec([])).args == [] && Texts(s', Exec([])).args == [];
        ArgsSame(s, r.at, [], r.list, s', r'.at, [], r'.list);
      }
    }
  }

  lemma {:induction false} BlockSame(s: string, i: nat, s': string, j: nat)
    requires Same(s, i, s', j)
    ensures Alike(s, ParseBlock(s, i), s', ParseBlock(s', j))
    decreases |s| - i, 1
  {
    hide Same, Peek, GetToken, Lexemes, Texts, RedirTexts, ParseRedirs, ParseLine;
    SameBounds(s, i, s', j);
    PeekSame(s, i, s', j, "(");
    if Peek(s, i, "(") {
      PeekToken(s, i, "(");
      TokenSame(s, i, s', j);
      var a, b := GetToken(s, i).next, GetToken(s', j).next;
      LineSame(s, a, s', b);
      var r, r' := ParseLine(s, a), ParseLine(s', b);
      if r.Ok? {
        PeekSame(s, r.at, s', r'.at, ")");
        TokenSame(s, r.at, s', r'.at);
        var c, d := GetToken(s, r.at).next, GetToken(s', r'.at).next;
        RedirsSame(s, c, s', d);
        var l, l' := ParseRedirs(s, c), ParseRedirs(s', d);
        if l.Redirs? {
          WrapSame(s, r.cmd, l.list, s', r'.cmd, l'.list);
        }
      }
    }
  }

  lemma {:induction false} PipeSame(s: string, i: nat, s': string, j: nat)
    requires Same(s, i, s', j)
    ensures Alike(s, ParsePipe(s, i), s', ParsePipe(s', j))
    decreases |s| - i, 3
  {
    hide Same, Peek, GetToken, Lexemes, ParseExec;
    SameBounds(s, i, s', j);
    ExecSame(s, i, s', j);
    var r, r' := ParseExec(s, i), ParseExec(s', j);
    if r.Ok? {
      PeekSame(s, r.at, s', r'.at, "|");
      SkipSame(s, r.at, s', r'.at);
      if Peek(s, r.at, "|") {
        PeekToken(s, r.at, "|");
        TokenSame(s, r.at, s', r'.at);
        PipeSame(s, GetToken(s, r.at).next, s', GetToken(s', r'.at).next);
      }
    }
  }

  lemma {:induction false} AmpsSame(s: string, i: nat, c: Cmd<Span>, s': string, j: nat, c': Cmd<Span>)
    requires Same(s, i, s', j) && Texts(s, c) == Texts(s', c')
    ensures Alike(s, ParseAmps(s, i, c), s', ParseAmps(s', j, c'))
    decreases |s| - i
  {
    hide Same, Peek, GetToken, Lexemes;
    SameBounds(s, i, s', j);
    PeekSame(s, i, s', j, "&");
    SkipSame(s, i, s', j);
    if Peek(s, i, "&") {
      PeekToken(s, i, "&");
      TokenSame(s, i, s', j);
      AmpsSame(s, GetToken(s, i).next, Back(c), s', GetToken(s', j).next, Back(c'));
    }
  }

  lemma {:induction false} LineSame(s: string, i: nat, s': string, j: nat)
    requires Same(s, i, s', j)
    ensures Alike(s, ParseLine(s, i), s', ParseLine(s', j))
    decreases |s| - i, 4
  {
    hide Same, Peek, GetToken, Lexemes, ParsePipe, ParseAmps;
    SameBounds(s, i, s', j);
    PipeSame(s, i, s', j);
    var r, r' := ParsePipe(s, i), ParsePipe(s', j);
    if r.Ok? {
      AmpsSame(s, r.at, r.cmd, s', r'.at, r'.cmd);
      var l, l' := ParseAmps(s, r.at, r.cmd), ParseAmps(s', r'.at, r'.cmd);
      PeekSame(s, l.at, s', l'.at, ";");
      SkipSame(s, l.at, s', l'.at);
      if Peek(s, l.at, ";") {
        PeekToken(s, l.at, ";");
        TokenSame(s, l.at, s', l'.at);
        LineSame(s, GetToken(s, l.at).next, s', GetToken(s', l'.at).next);
      }
    }
  }

  // Lines with the same tokens parse alike: both to the same tree, or neither.
  lemma {:induction false} TokensDecide(s: string, s': string)
    requires Lexemes(s, 0) == Lexemes(s', 0)
    ensures ParseCmd(s).Ok? == ParseCmd(s').Ok?
    ensures ParseCmd(s).Ok? ==> Texts(s, ParseCmd(s).cmd) == Texts(s', ParseCmd(s').cmd)
  {
    assert Same(s, 0, s', 0);
    LineSame(s, 0, s', 0);
    var r, r' := ParseLine(s, 0), ParseLine(s', 0);
    hide ParseLine;
    if r.Ok? {
      AtEnd(s, r.at);
      AtEnd(s', r'.at);
    }
  }

  lemma {:induction false} AtEnd(s: string, i: nat)
    requires i <= |s|
    ensures SkipSpace(s, i) == |s| <==> Lexemes(s, i) == []
  {
    EndStays(s, i);
    var a := SkipSpace(s, i);
    assert a < |s| ==> GetToken(s, i).kind != END;
  }

  // ---- every line that is accepted ----

  predicate ModeOk(r: Redirection<Span>) {
    (r.mode == READ && r.fd == 0) || (r.mode == WRITE && r.fd == 1) || (r.mode == APPEND && r.fd == 1)
  }

  predicate ModesOk(list: seq<Redirection<Span>>) {
    forall k :: 0 <= k < |list| ==> ModeOk(list[k])
  }

  // At most nine arguments per command, and redirections the shell knows.
  predicate Shaped(c: Cmd<Span>) {
    match c
    case Exec(args) => |args| < MAXARGS
    case Redir(cmd, redir) => Shaped(cmd) && ModeOk(redir)
    case Pipe(left, right) => Shaped(left) && Shaped(right)
    case List(left, right) => Shaped(left) && Shaped(right)
    case Back(cmd) => Shaped(cmd)
  }

  lemma {:induction false} RedirsShaped(s: string, i: nat)
    requires i <= |s|
    ensures var r := ParseRedirs(s, i); r.Redirs? ==> ModesOk(r.list)
    decreases |s| - i
  {
    hide Peek, GetToken;
    if Peek(s, i, "<>") {
      PeekToken(s, i, "<>");
      var tok := GetToken(s, SkipSpace(s, i));
      var file := GetToken(s, tok.next);
      if file.kind == WORD {
        RedirsShaped(s, file.next);
        assert ModeOk(Redirect(tok.kind, Span(file.lo, file.hi)));
      }
    }
  }

  lemma {:induction false} WrapShaped(c: Cmd<Span>, list: seq<Redirection<Span>>)
    requires Shaped(c) && ModesOk(list)
    ensures Shaped(Wrap(c, list))
    decreases |list|
  {
    if list != [] {
      WrapShaped(Redir(c, list[0]), list[1..]);
    }
  }

  lemma {:induction false} ArgsShaped(s: string, i: nat, args: seq<Span>, list: seq<Redirection<Span>>)
    requires i <= |s| && |args| < MAXARGS && ModesOk(list)
    ensures var r := ParseArgs(s, i, args, list); r.Ok? ==> Shaped(r.cmd)
    decreases |s| - i
  {
    WrapShaped(Exec(args), list);
    hide Peek, GetToken, ParseRedirs, Wrap;
    var tok := GetToken(s, SkipSpace(s, i));
    if !Peek(s, i, "|)&;") && tok.kind == WORD && |args| + 1 < MAXARGS {
      RedirsShaped(s, tok.next);
      var r := ParseRedirs(s, tok.next);
      if r.Redirs? {
        ArgsShaped(s, r.at, args + [Span(tok.lo, tok.hi)], list + r.list);
      }
    }
  }

  lemma {:induction false} ExecShaped(s: string, i: nat)
    requires i <= |s|
    ensures var r := ParseExec(s, i); r.Ok? ==> Shaped(r.cmd)
    decreases |s| - i, 2
  {
    hide Peek, GetToken, ParseRedirs, ParseArgs, ParseBlock;
    if Peek(s, i, "(") {
      BlockShaped(s, SkipSpace(s, i));
    } else {
      RedirsShaped(s, i);
      var r := ParseRedirs(s, i);
      if r.Redirs? {
        ArgsShaped(s, r.at, [], r.list);
      }
    }
  }

  lemma {:induction false} BlockShaped(s: string, i: nat)
    requires i <= |s|
    ensures var r := ParseBlock(s, i); r.Ok? ==> Shaped(r.cmd)
    decreases |s| - i, 1
  {
    hide Peek, GetToken, ParseRedirs, ParseLine;
    if Peek(s, i, "(") {
      PeekToken(s, i, "(");
      var r := ParseLine(s, GetToken(s, i).next);
      LineShaped(s, GetToken(s, i).next);
      if r.Ok? {
        var l := ParseRedirs(s, GetToken(s, r.at).next);
        RedirsShaped(s, GetToken(s, r.at).next);
        if l.Redirs? {
          WrapShaped(r.cmd, l.list);
        }
      }
    }
  }

  lemma {:induction false} PipeShaped(s: string, i: nat)
    requires i <= |s|
    ensures var r := ParsePipe(s, i); r.Ok? ==> Shaped(r.cmd)
    decreases |s| - i, 3
  {
    hide Peek, GetToken, ParseExec;
    ExecShaped(s, i);
    var r := ParseExec(s, i);
    if r.Ok? && Peek(s, r.at, "|") {
      PeekToken(s, r.at, "|");
      PipeShaped(s, GetToken(s, r.at).next);
    }
  }

  lemma {:induction false} AmpsShaped(s: string, i: nat, c: Cmd<Span>)
    requires i <= |s| && Shaped(c)
    ensures Shaped(ParseAmps(s, i, c).cmd)
    decreases |s| - i
  {
    hide Peek, GetToken;
    if Peek(s, i, "&") {
      PeekToken(s, i, "&");
      AmpsShaped(s, GetToken(s, i).next, Back(c));
    }
  }

  lemma {:induction false} LineShaped(s: string, i: nat)
    requires i <= |s|
    ensures var r := ParseLine(s, i); r.Ok? ==> Shaped(r.cmd)
    decreases |s| - i, 4
  {
    hide Peek, GetToken, ParsePipe, ParseAmps;
    PipeShaped(s, i);
    var r := ParsePipe(s, i);
    if r.Ok? {
      AmpsShaped(s, r.at, r.cmd);
      var l := ParseAmps(s, r.at, r.cmd);
      if Peek(s, l.at, ";") {
        PeekToken(s, l.at, ";");
        LineShaped(s, GetToken(s, l.at).next);
      }
    }
  }

  lemma {:induction false} WordLegal(s: string, w: Span)
    requires IsWord(s, w)
    ensures LegalWord(TextOf(s, w))
  {
  }

  lemma {:induction false} TreeLegal(s: string, c: Cmd<Span>)
    requires Marked(s, c) && Shaped(c)
    ensures LegalTree(Texts(s, c))
  {
    hide IsWord, LegalWord;
    match c
    case Exec(args) =>
      forall k | 0 <= k < |args| ensures LegalWord(TextOf(s, args[k])) { WordLegal(s, args[k]); }
    case Redir(cmd, redir) => TreeLegal(s, cmd); WordLegal(s, redir.file);
    case Pipe(left, right) => TreeLegal(s, left); TreeLegal(s, right);
    case List(left, right) => TreeLegal(s, left); TreeLegal(s, right);
    case Back(cmd) => TreeLegal(s, cmd);
  }

  // The tree of every accepted line is one that can be written, and writing it
  // gives a line with the same tree.
  lemma {:induction false} AcceptedIsLegal(s: string)
    requires ParseCmd(s).Ok?
    ensures var t := Texts(s, ParseCmd(s).cmd);
            && LegalTree(t)
            && ParseCmd(Unparse(t)).Ok? && Texts(Unparse(t), ParseCmd(Unparse(t)).cmd) == t
  {
    hide Texts, Unparse, LegalTree;
    LineMarked(s, 0);
    LineShaped(s, 0);
    TreeLegal(s, ParseLine(s, 0).cmd);
    RoundTrip(Texts(s, ParseCmd(s).cmd));
  }

  // ---- written lines, with any blanks ----

  lemma {:induction false} LexRender(s: string, i: nat, toks: seq<Tok>)
    requires At(s, i, toks)
    ensures i <= |s| && Lexemes(s, i) == toks
    decreases |toks|
  {
    hide Render, GetToken, LegalTok, Chars, Kind;
    StartsAt(s, i, toks);
    if toks == [] {
      AtEnd(s, i);
    } else {
      TokenAt(s, i, toks);
      LexRender(s, i + |Chars(toks[0])| + 1, toks[1..]);
      TokOfKind(s, toks[0], i);
      assert toks == [toks[0]] + toks[1..];
    }
  }

  // A token that was written is read back.
  lemma {:induction false} TokOfKind(s: string, t: Tok, i: nat)
    requires LegalTok(t) && i + |Chars(t)| <= |s| && s[i..i + |Chars(t)|] == Chars(t)
    ensures Kind(t) != END && TokOf(s, Token(Kind(t), i, i + |Chars(t)|, 0)) == t
  {
    SymbolKind(t);
  }

  lemma {:induction false} SymbolKind(t: Tok)
    requires LegalTok(t)
    ensures Kind(t) != END && (t.S? ==> Kind(t) != WORD && Kind(t) != MORE)
  {
  }

  // Every line with the tokens of a legal tree parses to it, whatever its blanks.
  lemma {:induction false} AnyBlanks(t: Cmd<string>, s: string)
    requires LegalTree(t) && Lexemes(s, 0) == LineToks(t)
    ensures ParseCmd(s).Ok? && Texts(s, ParseCmd(s).cmd) == t
  {
    var u := Unparse(t);
    LineLegal(t);
    assert u[0..] == u;
    LexRender(u, 0, LineToks(t));
    RoundTrip(t);
    TokensDecide(s, u);
  }
}
