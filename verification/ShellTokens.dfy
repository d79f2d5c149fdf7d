/** Lexing in the shell (sh.c): blanks, symbols and words. */
module ShellTokens {

  datatype Tok = Sym(c: char) | Append | Word(text: string)

  const NUL: char := '\0'

  predicate Space(c: char) { c == ' ' || c == '\t' || c == '\r' || c == '\n' || c == '\U{0B}' }

  predicate Symbol(c: char) { c == '<' || c == '|' || c == '>' || c == '&' || c == ';' || c == '(' || c == ')' }

  predicate Plain(c: char) { !Space(c) && !Symbol(c) && c != NUL }

  /** A line holds no NUL: it ends at the first one. */
  predicate Line(s: string) { forall i :: 0 <= i < |s| ==> s[i] != NUL }

  function SkipSpace(s: string, p: nat): (r: nat)
    requires p <= |s|
    ensures p <= r <= |s| && (r < |s| ==> !Space(s[r])) && forall k :: p <= k < r ==> Space(s[k])
    decreases |s| - p
  {
    if p < |s| && Space(s[p]) then SkipSpace(s, p + 1) else p
  }

  function WordEnd(s: string, p: nat): (r: nat)
    requires p <= |s|
    ensures p <= r <= |s| && (r < |s| ==> Space(s[r]) || Symbol(s[r]))
    ensures forall k :: p <= k < r ==> !Space(s[k]) && !Symbol(s[k])
    decreases |s| - p
  {
    if p < |s| && !Space(s[p]) && !Symbol(s[p]) then WordEnd(s, p + 1) else p
  }

  /** Where the token that starts at p ends. */
  function TokEnd(s: string, p: nat): (r: nat)
    requires p < |s| && !Space(s[p])
    ensures p < r <= |s|
  {
    if !Symbol(s[p]) then WordEnd(s, p)
    else if s[p] == '>' && p + 1 < |s| && s[p + 1] == '>' then p + 2
    else p + 1
  }

  function TokAt(s: string, p: nat): Tok
    requires p < |s| && !Space(s[p])
  {
    if !Symbol(s[p]) then Word(s[p..WordEnd(s, p)])
    else if TokEnd(s, p) == p + 2 then Append
    else Sym(s[p])
  }

  /** The tokens of s from position p on. */
  function Toks(s: string, p: nat): seq<Tok>
    requires p <= |s|
    decreases |s| - p
  {
    var q := SkipSpace(s, p);
    if q == |s| then [] else [TokAt(s, q)] + Toks(s, TokEnd(s, q))
  }

  /** Blanks between tokens do not matter. */
  lemma ToksSkip(s: string, p: nat)
    requires p <= |s|
    ensures Toks(s, SkipSpace(s, p)) == Toks(s, p)
  {
    assert SkipSpace(s, SkipSpace(s, p)) == SkipSpace(s, p);
  }

  lemma ToksFrom(s: string, p: nat)
    requires p <= |s|
    ensures var q := SkipSpace(s, p);
      Toks(s, p) == if q == |s| then [] else [TokAt(s, q)] + Toks(s, TokEnd(s, q))
  {
  }

  /** What gettoken answers for a token. */
  function Code(t: Tok): char {
    match t
    case Sym(c) => c
    case Append => '+'
    case Word(_) => 'a'
  }

  /** q..eq is a maximal word. */
  predicate IsWord(s: string, q: nat, eq: nat) {
    && q < eq <= |s|
    && (forall k :: q <= k < eq ==> !Space(s[k]) && !Symbol(s[k]))
    && (eq < |s| ==> Space(s[eq]) || Symbol(s[eq]))
  }

  /** The loop that skips blanks. */
  method SkipBlanks(s: string, p: nat) returns (r: nat)
    requires p <= |s|
    ensures r == SkipSpace(s, p)
  {
    r := p;
    while r < |s| && Space(s[r])
      invariant p <= r <= |s| && SkipSpace(s, r) == SkipSpace(s, p)
    {
      r := r + 1;
    }
  }

  /** The loop that runs over a word. */
  method SkipWord(s: string, p: nat) returns (r: nat)
    requires p <= |s|
    ensures r == WordEnd(s, p)
  {
    r := p;
    while r < |s| && !Space(s[r]) && !Symbol(s[r])
      invariant p <= r <= |s| && WordEnd(s, r) == WordEnd(s, p)
    {
      r := r + 1;
    }
  }

  /** gettoken: the code of the next token, its place q..eq, and the cursor after it. */
  method GetToken(s: string, p: nat) returns (ret: char, q: nat, eq: nat, next: nat)
    requires Line(s) && p <= |s|
    ensures p <= next <= |s|
    ensures Toks(s, p) == [] ==> ret == NUL && next == |s|
    ensures Toks(s, p) != [] ==> ret == Code(Toks(s, p)[0]) && Toks(s, next) == Toks(s, p)[1..] && p < next
    ensures ret == NUL <==> Toks(s, p) == []
    ensures ret == 'a' <==> Toks(s, p) != [] && Toks(s, p)[0].Word?
    ensures ret == 'a' ==> IsWord(s, q, eq) && Toks(s, p)[0] == Word(s[q..eq])
  {
    hide SkipSpace, WordEnd, Toks;
    q := SkipBlanks(s, p);
    ghost var start := q;
    ret, eq := NUL, q;
    if eq < |s| {
      ret := s[eq];
      if s[eq] == '|' || s[eq] == '(' || s[eq] == ')' || s[eq] == ';' || s[eq] == '&' || s[eq] == '<' {
        eq := eq + 1;
      } else if s[eq] == '>' {
        eq := eq + 1;
        if eq < |s| && s[eq] == '>' {
          ret := '+';
          eq := eq + 1;
        }
      } else {
        ret := 'a';
        eq := SkipWord(s, q);
      }
    }
    next := SkipBlanks(s, eq);
    ToksFrom(s, p);
    ToksSkip(s, eq);
    assert start < |s| ==> eq == TokEnd(s, start);
  }

  /** peek: does the next token start with one of these symbols? The cursor moves over blanks. */
  method Peek(s: string, p: nat, toks: string) returns (found: bool, next: nat)
    requires Line(s) && p <= |s| && forall k :: 0 <= k < |toks| ==> Symbol(toks[k])
    ensures p <= next <= |s| && Toks(s, next) == Toks(s, p)
    ensures found <==> Toks(s, p) != [] && StartsIn(Toks(s, p)[0], toks)
    ensures Toks(s, p) == [] <==> next == |s|
  {
    next := SkipBlanks(s, p);
    ToksSkip(s, p);
    found := next < |s| && s[next] in toks;
  }

  predicate StartsIn(t: Tok, toks: string) {
    match t
    case Sym(c) => c in toks
    case Append => '>' in toks
    case Word(_) => false
  }

  // ---- writing tokens out -----------------------------------------------------------------------------

  predicate ValidTok(t: Tok) {
    match t
    case Sym(c) => Symbol(c)
    case Append => true
    case Word(w) => ValidWord(w)
  }

  predicate ValidWord(w: string) { w != "" && forall i :: 0 <= i < |w| ==> Plain(w[i]) }

  function Spelling(t: Tok): string {
    match t
    case Sym(c) => [c]
    case Append => ">>"
    case Word(w) => w
  }

  function Render(ts: seq<Tok>): string {
    if ts == [] then "" else Spelling(ts[0]) + " " + Render(ts[1..])
  }

  /** The words of a line are valid words. */
  lemma {:induction false} ToksValid(s: string, p: nat)
    requires Line(s) && p <= |s|
    ensures forall k :: 0 <= k < |Toks(s, p)| ==> ValidTok(Toks(s, p)[k])
    decreases |s| - p
  {
    var q := SkipSpace(s, p);
    if q < |s| {
      ToksValid(s, TokEnd(s, q));
    }
  }

  /** Tokens with blanks between them are read back. */
  lemma {:induction false} RenderedToks(s: string, p: nat, ts: seq<Tok>)
    requires p <= |s| && s[p..] == Render(ts) && forall k :: 0 <= k < |ts| ==> ValidTok(ts[k])
    ensures Toks(s, p) == ts
    decreases |ts|
  {
    hide TokAt, TokEnd, ValidTok, Toks, Render;
    if ts == [] {
      NoToks(s, p);
    } else {
      var q := p + |Spelling(ts[0])|;
      RenderedFront(s, p, ts, q);
      OneTok(s, p, ts[0]);
      ToksAt(s, p);
      RenderedToks(s, q + 1, ts[1..]);
      SpaceStep(s, q);
    }
  }

  lemma NoToks(s: string, p: nat)
    requires p <= |s| && s[p..] == Render([])
    ensures Toks(s, p) == []
  {
    assert p == |s|;
  }

  lemma ToksAt(s: string, p: nat)
    requires p < |s| && SkipSpace(s, p) == p
    ensures !Space(s[p]) && Toks(s, p) == [TokAt(s, p)] + Toks(s, TokEnd(s, p))
  {
  }

  lemma RenderedFront(s: string, p: nat, ts: seq<Tok>, q: nat)
    requires p <= |s| && ts != [] && s[p..] == Render(ts) && q == p + |Spelling(ts[0])|
    ensures q < |s| && s[p..q] == Spelling(ts[0]) && s[q] == ' ' && s[q + 1..] == Render(ts[1..])
  {
    hide Spelling;
    var w, r := Spelling(ts[0]), Render(ts[1..]);
    var t := s[p..];
    assert t == w + " " + r && |t| == |w| + 1 + |r|;
    assert t[..|w|] == w && t[|w|] == ' ' && t[|w| + 1..] == r;
    assert s[p..q] == t[..|w|] && s[q] == t[|w|] && s[q + 1..] == t[|w| + 1..];
  }

  lemma SpaceStep(s: string, p: nat)
    requires p < |s| && Space(s[p])
    ensures Toks(s, p) == Toks(s, p + 1)
  {
    assert SkipSpace(s, p) == SkipSpace(s, p + 1);
  }

  lemma OneTok(s: string, p: nat, t: Tok)
    requires ValidTok(t) && p + |Spelling(t)| < |s| && s[p..p + |Spelling(t)|] == Spelling(t) && s[p + |Spelling(t)|] == ' '
    ensures SkipSpace(s, p) == p && !Space(s[p]) && TokAt(s, p) == t && TokEnd(s, p) == p + |Spelling(t)|
  {
    var w := Spelling(t);
    assert forall k :: 0 <= k < |w| ==> s[p + k] == w[k] by {
      assert forall k :: 0 <= k < |w| ==> s[p..p + |w|][k] == w[k];
    }
    if t.Word? {
      var e := WordEnd(s, p);
      assert w[0] == s[p];
      assert e < p + |w| ==> Plain(w[e - p]);
      assert e <= p + |w|;
    } else {
      assert s[p] == w[0];
      assert t.Append? ==> s[p + 1] == w[1];
      assert t.Sym? ==> s[p + 1] == ' ';
    }
  }

  lemma {:induction false} RenderedLine(ts: seq<Tok>)
    requires forall k :: 0 <= k < |ts| ==> ValidTok(ts[k])
    ensures Line(Render(ts))
  {
    if ts != [] {
      assert ValidTok(ts[0]);
      RenderedLine(ts[1..]);
    }
  }
}
