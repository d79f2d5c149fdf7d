/** The regular expression matcher of grep.c, and the language that it decides. */
module Grep {

  // ---- the language of a pattern ---------------------------------------------------------------

  /** A pattern is a sequence of items, each standing for one character or for any number of them,
      and may insist on the end of the text. Strings here are the characters before the final NUL. */
  datatype Item = One(c: char) | Many(c: char)

  datatype Pattern = Pattern(items: seq<Item>, atEnd: bool)

  function Parse(re: string): Pattern
    decreases |re|
  {
    if re == "" then Pattern([], false)
    else if |re| >= 2 && re[1] == '*' then
      var rest := Parse(re[2..]);
      Pattern([Many(re[0])] + rest.items, rest.atEnd)
    else if re == "$" then Pattern([], true)
    else
      var rest := Parse(re[1..]);
      Pattern([One(re[0])] + rest.items, rest.atEnd)
  }

  predicate Accepts(c: char, x: char) {
    c == '.' || c == x
  }

  predicate AllAccepted(c: char, w: string) {
    forall j :: 0 <= j < |w| ==> Accepts(c, w[j])
  }

  /** The words that a sequence of items stands for. */
  ghost predicate InLanguage(items: seq<Item>, w: string)
    decreases |items|
  {
    if items == [] then w == ""
    else match items[0]
      case One(c) => w != "" && Accepts(c, w[0]) && InLanguage(items[1..], w[1..])
      case Many(c) => exists k :: 0 <= k <= |w| && AllAccepted(c, w[..k]) && InLanguage(items[1..], w[k..])
  }

  /** Some piece of the text is in the language: at its start if the pattern begins with a caret,
      at its end if the pattern ends in a dollar sign. */
  ghost predicate Matches(re: string, text: string) {
    var atStart := re != "" && re[0] == '^';
    var p := Parse(if atStart then re[1..] else re);
    exists i, j :: 0 <= i <= j <= |text| && InLanguage(p.items, text[i..j])
      && (atStart ==> i == 0) && (p.atEnd ==> j == |text|)
  }

  /** Some prefix of text is in the language of re, read as matchhere reads it. */
  ghost predicate HasPrefix(re: string, text: string)
    decreases |re|
  {
    if re == "" then true
    else if |re| >= 2 && re[1] == '*' then
      exists k :: 0 <= k <= |text| && AllAccepted(re[0], text[..k]) && HasPrefix(re[2..], text[k..])
    else if re == "$" then text == ""
    else text != "" && Accepts(re[0], text[0]) && HasPrefix(re[1..], text[1..])
  }

  /** The prefix text[..j] is in the language, and ends where the pattern wants it to. */
  ghost predicate Piece(p: Pattern, text: string, j: nat) {
    j <= |text| && InLanguage(p.items, text[..j]) && (p.atEnd ==> j == |text|)
  }

  lemma ManyWord(items: seq<Item>, c: char, u: string, v: string)
    requires AllAccepted(c, u) && InLanguage(items, v)
    ensures InLanguage([Many(c)] + items, u + v)
  {
    var all, w := [Many(c)] + items, u + v;
    assert all[1..] == items && w[..|u|] == u && w[|u|..] == v;
  }

  lemma OneWord(items: seq<Item>, c: char, x: char, v: string)
    requires Accepts(c, x) && InLanguage(items, v)
    ensures InLanguage([One(c)] + items, [x] + v)
  {
    var all, w := [One(c)] + items, [x] + v;
    assert all[1..] == items && w[1..] == v;
  }

  lemma {:induction false} PrefixToPiece(re: string, text: string) returns (j: nat)
    requires HasPrefix(re, text)
    ensures Piece(Parse(re), text, j)
    decreases |re|
  {
    hide InLanguage, AllAccepted;
    if re == "" {
      j := 0;
      EmptyWord();
    } else if |re| >= 2 && re[1] == '*' {
      var k :| 0 <= k <= |text| && AllAccepted(re[0], text[..k]) && HasPrefix(re[2..], text[k..]);
      var m := PrefixToPiece(re[2..], text[k..]);
      j := k + m;
      assert text[..j] == text[..k] + text[k..][..m];
      ManyWord(Parse(re[2..]).items, re[0], text[..k], text[k..][..m]);
    } else if re == "$" {
      j := 0;
      EmptyWord();
    } else {
      var m := PrefixToPiece(re[1..], text[1..]);
      j := 1 + m;
      assert text[..j] == [text[0]] + text[1..][..m];
      OneWord(Parse(re[1..]).items, re[0], text[0], text[1..][..m]);
    }
  }

  lemma EmptyWord()
    ensures InLanguage([], "")
  {
  }

  lemma {:induction false} PieceToPrefix(re: string, text: string, j: nat)
    requires Piece(Parse(re), text, j)
    ensures HasPrefix(re, text)
    decreases |re|
  {
    var p := Parse(re);
    if re == "" || re == "$" {
    } else if |re| >= 2 && re[1] == '*' {
      assert p.items[1..] == Parse(re[2..]).items;
      var w := text[..j];
      var k :| 0 <= k <= |w| && AllAccepted(re[0], w[..k]) && InLanguage(p.items[1..], w[k..]);
      assert w[..k] == text[..k] && w[k..] == text[k..][..j - k];
      PieceToPrefix(re[2..], text[k..], j - k);
    } else {
      assert p.items[1..] == Parse(re[1..]).items;
      assert text[..j][1..] == text[1..][..j - 1];
      PieceToPrefix(re[1..], text[1..], j - 1);
    }
  }

  /** What matchhere decides, said with words of the language. */
  lemma PrefixIffPiece(re: string, text: string)
    ensures HasPrefix(re, text) <==> exists j: nat :: Piece(Parse(re), text, j)
  {
    if HasPrefix(re, text) {
      var j := PrefixToPiece(re, text);
    }
    if j: nat :| Piece(Parse(re), text, j) {
      PieceToPrefix(re, text, j);
    }
  }

  /** match's two cases together are the language. */
  lemma MatchesIff(re: string, text: string)
    ensures Matches(re, text) <==>
              if re != "" && re[0] == '^' then HasPrefix(re[1..], text)
              else exists i :: 0 <= i <= |text| && HasPrefix(re, text[i..])
  {
    var atStart := re != "" && re[0] == '^';
    var e := if atStart then re[1..] else re;
    if Matches(re, text) {
      var i, j :| 0 <= i <= j <= |text| && InLanguage(Parse(e).items, text[i..j])
                  && (atStart ==> i == 0) && (Parse(e).atEnd ==> j == |text|);
      assert text[i..][..j - i] == text[i..j];
      PieceToPrefix(e, text[i..], j - i);
      assert atStart ==> text[0..] == text;
    }
    if i :| 0 <= i <= |text| && (atStart ==> i == 0) && HasPrefix(e, text[i..]) {
      var m := PrefixToPiece(e, text[i..]);
      assert text[i..][..m] == text[i..i + m];
    }
    assert text[0..] == text;
  }

  // ---- the program ---------------------------------------------------------------------------------

  method Match(re: string, text: string) returns (r: bool)
    ensures r <==> Matches(re, text)
  {
    MatchesIff(re, text);
    if re != "" && re[0] == '^' {
      r := MatchHere(re[1..], text);
      return;
    }
    var i := 0;
    while true
      invariant 0 <= i <= |text|
      invariant forall j :: 0 <= j < i ==> !HasPrefix(re, text[j..])
      decreases |text| - i
    {
      var here := MatchHere(re, text[i..]);
      if here {
        return true;
      }
      if i == |text| {
        return false;
      }
      i := i + 1;
    }
  }

  method MatchHere(re: string, text: string) returns (r: bool)
    ensures r <==> HasPrefix(re, text)
    decreases |re|, |text|, 1
  {
    if re == "" {
      return true;
    }
    if |re| >= 2 && re[1] == '*' {
      r := MatchStar(re[0], re[2..], text);
      return;
    }
    if re[0] == '$' && |re| == 1 {
      return text == "";
    }
    if text != "" && (re[0] == '.' || re[0] == text[0]) {
      r := MatchHere(re[1..], text[1..]);
      return;
    }
    return false;
  }

  method MatchStar(c: char, re: string, text: string) returns (r: bool)
    ensures r <==> exists k :: 0 <= k <= |text| && AllAccepted(c, text[..k]) && HasPrefix(re, text[k..])
    decreases |re| + 1, |text|, 0
  {
    var i := 0;
    while true
      invariant 0 <= i <= |text|
      invariant AllAccepted(c, text[..i])
      invariant forall k :: 0 <= k < i ==> !HasPrefix(re, text[k..])
      decreases |text| - i
    {
      var here := MatchHere(re, text[i..]);
      if here {
        return true;
      }
      if !(i < |text| && (text[i] == c || c == '.')) {
        return false;
      }
      i := i + 1;
    }
  }
}
