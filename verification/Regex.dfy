// The matcher of user/grep.c against the language its patterns denote.
module Regex {
  // ---- what a pattern means ----

  // One(c) stands for one character, Star(c) for any number of them.
  datatype Item = One(c: char) | Star(c: char)

  // '.' allows every character, any other only itself.
  predicate Allows(c: char, x: char) {
    c == '.' || c == x
  }

  function Items(re: string): seq<Item> {
    if re == "" then []
    else if |re| >= 2 && re[1] == '*' then [Star(re[0])] + Items(re[2..])
    else if re == "$" then []
    else [One(re[0])] + Items(re[1..])
  }

  // The pattern ends with a '$' of its own.
  predicate Anchored(re: string) {
    if re == "" then false
    else if |re| >= 2 && re[1] == '*' then Anchored(re[2..])
    else if re == "$" then true
    else Anchored(re[1..])
  }

  predicate InItem(item: Item, w: string) {
    match item
    case One(c) => |w| == 1 && Allows(c, w[0])
    case Star(c) => forall i :: 0 <= i < |w| ==> Allows(c, w[i])
  }

  // The words of the items, one for each.
  predicate Spells(items: seq<Item>, words: seq<string>) {
    |words| == |items| && forall i :: 0 <= i < |items| ==> InItem(items[i], words[i])
  }

  function Joined(words: seq<string>): string {
    if words == [] then "" else words[0] + Joined(words[1..])
  }

  ghost predicate Witness(re: string, text: string, words: seq<string>) {
    && Spells(Items(re), words) && Joined(words) <= text
    && (Anchored(re) ==> Joined(words) == text)
  }

  // Some word of the pattern's language is a prefix of the text (all of it, for
  // an anchored pattern).
  ghost predicate Here(re: string, text: string) {
    exists words :: Witness(re, text, words)
  }

  // Some word of the language occurs in the text, at its beginning after '^'.
  ghost predicate Occurs(re: string, text: string) {
    if |re| > 0 && re[0] == '^' then Here(re[1..], text)
    else exists i :: 0 <= i <= |text| && Here(re, text[i..])
  }

  // ---- how the language unfolds ----

  lemma {:induction false} HereEmpty(text: string)
    ensures Here("", text)
  {
    assert Witness("", text, []);
  }

  lemma {:induction false} HereEnd(text: string)
    ensures Here("$", text) <==> text == ""
  {
    assert Items("$") == [] && Anchored("$");
    if text == "" { assert Witness("$", text, []); }
    if words :| Witness("$", text, words) { assert words == []; }
  }

  // The pattern re is the item followed by the pattern tail.
  predicate Starts(re: string, item: Item, tail: string) {
    Items(re) == [item] + Items(tail) && (Anchored(re) <==> Anchored(tail))
  }

  lemma {:induction false} FirstWord(re: string, item: Item, tail: string, text: string, words: seq<string>)
    requires Starts(re, item, tail) && Witness(re, text, words)
    ensures words != [] && |words[0]| <= |text| && text[..|words[0]|] == words[0] && InItem(item, words[0])
    ensures Witness(tail, text[|words[0]|..], words[1..])
  {
    hide Items, Anchored, InItem;
    var w, rest := words[0], words[1..];
    assert InItem(Items(re)[0], w);
    assert forall i :: 0 <= i < |rest| ==> rest[i] == words[i + 1] && Items(tail)[i] == Items(re)[i + 1];
    assert Joined(words) == w + Joined(rest);
    assert text[..|w|] == text[..|Joined(words)|][..|w|];
    assert text[|w|..][..|Joined(rest)|] == text[..|Joined(words)|][|w|..];
  }

  lemma {:induction false} AddWord(re: string, item: Item, tail: string, text: string, k: nat, rest: seq<string>)
    requires Starts(re, item, tail) && k <= |text| && InItem(item, text[..k]) && Witness(tail, text[k..], rest)
    ensures Witness(re, text, [text[..k]] + rest)
  {
    hide Items, Anchored, InItem;
    var all := [text[..k]] + rest;
    assert all[1..] == rest && Joined(all) == text[..k] + Joined(rest);
    assert text == text[..k] + text[k..];
  }

  lemma {:induction false} HereOne(re: string, text: string)
    requires re != "" && re != "$" && (|re| >= 2 ==> re[1] != '*')
    ensures Here(re, text) <==> text != "" && Allows(re[0], text[0]) && Here(re[1..], text[1..])
  {
    assert Starts(re, One(re[0]), re[1..]);
    hide Starts, Witness;
    if words :| Witness(re, text, words) {
      FirstWord(re, One(re[0]), re[1..], text, words);
    }
    if text != "" && Allows(re[0], text[0]) && Here(re[1..], text[1..]) {
      var words :| Witness(re[1..], text[1..], words);
      AddWord(re, One(re[0]), re[1..], text, 1, words);
    }
  }

  // c* takes the first k characters.
  ghost predicate StarTakes(c: char, re: string, text: string, k: nat) {
    k <= |text| && (forall i :: 0 <= i < k ==> Allows(c, text[i])) && Here(re, text[k..])
  }

  ghost predicate StarHere(c: char, re: string, text: string) {
    exists k: nat :: StarTakes(c, re, text, k)
  }

  lemma {:induction false} HereStar(re: string, text: string)
    requires |re| >= 2 && re[1] == '*'
    ensures Here(re, text) <==> StarHere(re[0], re[2..], text)
  {
    assert Starts(re, Star(re[0]), re[2..]);
    hide Starts, Witness;
    if words :| Witness(re, text, words) {
      FirstWord(re, Star(re[0]), re[2..], text, words);
      assert StarTakes(re[0], re[2..], text, |words[0]|);
    }
    if k: nat :| StarTakes(re[0], re[2..], text, k) {
      var rest :| Witness(re[2..], text[k..], rest);
      AddWord(re, Star(re[0]), re[2..], text, k, rest);
    }
  }

  // ---- the code ----

  // matchhere: sound and complete, and it terminates on every pattern and text.
  method MatchHere(re: string, text: string) returns (found: bool)
    ensures found <==> Here(re, text)
    decreases |re|, 0, |text|
  {
    if re == "" {
      HereEmpty(text);
      return true;
    }
    if |re| >= 2 && re[1] == '*' {
      HereStar(re, text);
      found := MatchStar(re[0], re[2..], text);
      return;
    }
    if re == "$" {
      HereEnd(text);
      return text == "";
    }
    HereOne(re, text);
    if text != "" && (re[0] == '.' || re[0] == text[0]) {
      found := MatchHere(re[1..], text[1..]);
      return;
    }
    return false;
  }

  method MatchStar(c: char, re: string, text: string) returns (found: bool)
    ensures found <==> StarHere(c, re, text)
    decreases |re|, 1, |text|
  {
    var k := 0;
    while true
      invariant 0 <= k <= |text| && forall i :: 0 <= i < k ==> Allows(c, text[i])
      invariant forall j: nat :: j < k ==> !StarTakes(c, re, text, j)
      decreases |text| - k
    {
      found := MatchHere(re, text[k..]);
      if found {
        assert StarTakes(c, re, text, k);
        return;
      }
      if k == |text| || !(text[k] == c || c == '.') {
        break;
      }
      k := k + 1;
    }
    forall j: nat ensures !StarTakes(c, re, text, j) {
      if j > k && j <= |text| { assert !Allows(c, text[k]); }
    }
  }

  // match
  method Match(re: string, text: string) returns (found: bool)
    ensures found <==> Occurs(re, text)
  {
    if |re| > 0 && re[0] == '^' {
      found := MatchHere(re[1..], text);
      return;
    }
    var k := 0;
    while true
      invariant 0 <= k <= |text| && forall j :: 0 <= j < k ==> !Here(re, text[j..])
      decreases |text| - k
    {
      found := MatchHere(re, text[k..]);
      if found || k == |text| {
        return;
      }
      k := k + 1;
    }
  }
}
