/** The shell's recursive descent itself (sh.c): cursors into a buffer, loops, and the NULs written
    into the buffer at the end. */
module ShellParser {
  import opened Wrappers
  import opened ShellTokens
  import opened ShellGrammar

  /** A counted string in the buffer: argv and eargv, file and efile. */
  datatype Span = Span(q: nat, eq: nat)

  predicate SpanOk(s: string, w: Span) { IsWord(s, w.q, w.eq) }

  predicate SpansOk(s: string, argv: seq<Span>) { forall i :: 0 <= i < |argv| ==> SpanOk(s, argv[i]) }

  predicate FilesOk(s: string, around: seq<Around<Span>>) { forall i :: 0 <= i < |around| ==> SpanOk(s, around[i].file) }

  /** Every word of the command is a word of the line. */
  predicate TreeOk(s: string, c: Cmd<Span>) {
    match c
    case Exec(argv) => SpansOk(s, argv)
    case Redir(d, file, _, _) => TreeOk(s, d) && SpanOk(s, file)
    case Pipe(l, r) => TreeOk(s, l) && TreeOk(s, r)
    case List(l, r) => TreeOk(s, l) && TreeOk(s, r)
    case Back(d) => TreeOk(s, d)
  }

  function TextOf(s: string, w: Span): string { if w.q <= w.eq <= |s| then s[w.q..w.eq] else "" }

  function Texts(s: string, argv: seq<Span>): (r: seq<string>) {
    seq(|argv|, i requires 0 <= i < |argv| => TextOf(s, argv[i]))
  }

  function AroundText(s: string, a: Around<Span>): Around<string> { Around(TextOf(s, a.file), a.mode, a.fd) }

  function AroundTexts(s: string, list: seq<Around<Span>>): seq<Around<string>> {
    seq(|list|, i requires 0 <= i < |list| => AroundText(s, list[i]))
  }

  /** The command with its words read out of the line. */
  function Read(s: string, c: Cmd<Span>): Cmd<string> {
    match c
    case Exec(argv) => Exec(Texts(s, argv))
    case Redir(d, file, mode, fd) => Redir(Read(s, d), TextOf(s, file), mode, fd)
    case Pipe(l, r) => Pipe(Read(s, l), Read(s, r))
    case List(l, r) => List(Read(s, l), Read(s, r))
    case Back(d) => Back(Read(s, d))
  }

  /** r is the parse of the tokens from p on, and next is where it ends. */
  ghost predicate Agrees(s: string, spec: Parse, r: Option<Cmd<Span>>, next: nat) {
    && next <= |s|
    && (spec.Fail? <==> r.None?)
    && (spec.Got? ==> r.Some? && TreeOk(s, r.value) && Read(s, r.value) == spec.cmd && Toks(s, next) == spec.rest)
  }

  function BeforeAround(list: seq<Around<string>>, r: ParseAround): (b: ParseAround)
    ensures b.NoFile? <==> r.NoFile?
  {
    if r.NoFile? then r else Arounds(list + r.list, r.rest)
  }

  /** parseredirs: redirections are collected, to be put around the command in this order. */
  method ParseRedirs(s: string, p: nat) returns (around: Option<seq<Around<Span>>>, next: nat)
    requires Line(s) && p <= |s|
    ensures p <= next <= |s| && (around.None? <==> Redirs(Toks(s, p)).NoFile?)
    ensures around.Some? ==> FilesOk(s, around.value)
    ensures around.Some? ==> Redirs(Toks(s, p)) == Arounds(AroundTexts(s, around.value), Toks(s, next))
  {
    hide Toks, Redirs, FilesOk, AroundTexts, BeforeAround, AroundOf;
    var list: seq<Around<Span>> := [];
    var found;
    found, next := Peek(s, p, "<>");
    RedirsStart(s, Redirs(Toks(s, p)));
    while found
      invariant p <= next <= |s| && FilesOk(s, list) && (found <==> Starts(Toks(s, next), "<>"))
      invariant Redirs(Toks(s, p)) == BeforeAround(AroundTexts(s, list), Redirs(Toks(s, next)))
      decreases |s| - next
    {
      ghost var ts := Toks(s, next);
      var tok, word, q, eq;
      tok, q, eq, next := GetToken(s, next);
      word, q, eq, next := GetToken(s, next);
      RedirsUnfold(ts);
      if word != 'a' {
        return None, next;
      }
      var a := if tok == '<' then Around(Span(q, eq), O_RDONLY, 0) else Around(Span(q, eq), O_WRONLY_CREATE, 1);
      RedirOp(ts[0], a, s);
      RedirsMore(s, list, a, Redirs(Toks(s, next)));
      list := list + [a];
      found, next := Peek(s, next, "<>");
    }
    RedirsEnd(AroundTexts(s, list), Toks(s, next));
    return Some(list), next;
  }

  lemma RedirsStart(s: string, r: ParseAround)
    ensures FilesOk(s, []) && BeforeAround(AroundTexts(s, []), r) == r
  {
    assert r.Arounds? ==> AroundTexts(s, []) + r.list == r.list;
  }

  lemma RedirsUnfold(ts: seq<Tok>)
    requires Starts(ts, "<>")
    ensures |ts| < 2 || !ts[1].Word? ==> Redirs(ts).NoFile?
    ensures |ts| >= 2 && ts[1].Word? ==> Redirs(ts) == BeforeAround([AroundOf(ts[0], ts[1].text)], Redirs(ts[1..][1..]))
  {
    assert |ts| >= 2 ==> ts[1..][1..] == ts[2..];
  }

  lemma RedirOp(op: Tok, a: Around<Span>, s: string)
    requires StartsIn(op, "<>") && SpanOk(s, a.file)
    requires a == if Code(op) == '<' then Around(a.file, O_RDONLY, 0) else Around(a.file, O_WRONLY_CREATE, 1)
    ensures AroundText(s, a) == AroundOf(op, s[a.file.q..a.file.eq])
  {
  }

  lemma RedirsMore(s: string, list: seq<Around<Span>>, a: Around<Span>, r: ParseAround)
    requires FilesOk(s, list) && SpanOk(s, a.file)
    ensures FilesOk(s, list + [a])
    ensures BeforeAround(AroundTexts(s, list), BeforeAround([AroundText(s, a)], r)) == BeforeAround(AroundTexts(s, list + [a]), r)
  {
    hide AroundText, SpanOk;
    var l := AroundTexts(s, list);
    assert AroundTexts(s, list + [a]) == l + [AroundText(s, a)];
    assert r.Arounds? ==> l + ([AroundText(s, a)] + r.list) == l + [AroundText(s, a)] + r.list;
  }

  lemma RedirsEnd(list: seq<Around<string>>, ts: seq<Tok>)
    requires !Starts(ts, "<>")
    ensures BeforeAround(list, Redirs(ts)) == Arounds(list, ts)
  {
    assert list + [] == list;
  }

  // ---- arguments --------------------------------------------------------------------------------------------

  function BeforeArgs(argv: seq<string>, around: seq<Around<string>>, r: ParseArgs): (b: ParseArgs)
    ensures b.BadArgs? <==> r.BadArgs?
  {
    if r.BadArgs? then r else Args(argv + r.argv, around + r.around, r.rest)
  }

  /** parseexec's loop: argv fills up, with redirections in between. */
  method ParseArgs(s: string, p: nat) returns (argv: Option<seq<Span>>, around: seq<Around<Span>>, next: nat)
    requires Line(s) && p <= |s|
    ensures p <= next <= |s| && (argv.None? <==> Arguments(Toks(s, p), 0).BadArgs?)
    ensures argv.Some? ==> SpansOk(s, argv.value) && FilesOk(s, around)
    ensures argv.Some? ==>
      Arguments(Toks(s, p), 0) == Args(Texts(s, argv.value), AroundTexts(s, around), Toks(s, next))
  {
    hide Toks, Arguments, Redirs, SpansOk, FilesOk, Texts, AroundTexts, BeforeArgs;
    var args: seq<Span> := [];
    around := [];
    var found;
    found, next := Peek(s, p, "|)&;");
    ArgsStart(s, Arguments(Toks(s, p), 0));
    while !found
      invariant p <= next <= |s| && SpansOk(s, args) && FilesOk(s, around) && (found <==> Starts(Toks(s, next), "|)&;"))
      invariant Arguments(Toks(s, p), 0) ==
                BeforeArgs(Texts(s, args), AroundTexts(s, around), Arguments(Toks(s, next), |args|))
      decreases |s| - next
    {
      ghost var ts := Toks(s, next);
      ArgsUnfold(ts, |args|);
      var tok, q, eq, after;
      tok, q, eq, after := GetToken(s, next);
      if tok == NUL {
        break;
      }
      if tok != 'a' || |args| + 1 >= MAXARGS {
        return None, around, after;
      }
      var more;
      more, next := ParseRedirs(s, after);
      if more.None? {
        return None, around, next;
      }
      ArgsMore(s, args, around, Span(q, eq), more.value, Arguments(Toks(s, next), |args| + 1));
      args, around := args + [Span(q, eq)], around + more.value;
      found, next := Peek(s, next, "|)&;");
    }
    ArgsEnd(Texts(s, args), AroundTexts(s, around), Toks(s, next), |args|);
    return Some(args), around, next;
  }

  lemma ArgsStart(s: string, r: ParseArgs)
    ensures SpansOk(s, []) && FilesOk(s, []) && BeforeArgs(Texts(s, []), AroundTexts(s, []), r) == r
  {
    assert r.Args? ==> Texts(s, []) + r.argv == r.argv && AroundTexts(s, []) + r.around == r.around;
  }

  lemma ArgsUnfold(ts: seq<Tok>, have: nat)
    requires !Starts(ts, "|)&;")
    ensures ts != [] && (!ts[0].Word? || have + 1 >= MAXARGS) ==> Arguments(ts, have).BadArgs?
    ensures ts != [] && ts[0].Word? && have + 1 < MAXARGS ==>
      Arguments(ts, have) ==
        (if Redirs(ts[1..]).NoFile? then BadArgs
         else BeforeArgs([ts[0].text], Redirs(ts[1..]).list, Arguments(Redirs(ts[1..]).rest, have + 1)))
  {
    hide Redirs;
  }

  lemma ArgsMore(s: string, args: seq<Span>, around: seq<Around<Span>>, w: Span, more: seq<Around<Span>>, r: ParseArgs)
    requires SpansOk(s, args) && FilesOk(s, around) && SpanOk(s, w) && FilesOk(s, more)
    ensures SpansOk(s, args + [w]) && FilesOk(s, around + more)
    ensures BeforeArgs(Texts(s, args), AroundTexts(s, around), BeforeArgs([TextOf(s, w)], AroundTexts(s, more), r)) ==
      BeforeArgs(Texts(s, args + [w]), AroundTexts(s, around + more), r)
  {
    hide AroundText, SpanOk, TextOf;
    var t, l, m := Texts(s, args), AroundTexts(s, around), AroundTexts(s, more);
    assert Texts(s, args + [w]) == t + [TextOf(s, w)];
    assert AroundTexts(s, around + more) == l + m;
    assert r.Args? ==> t + ([TextOf(s, w)] + r.argv) == t + [TextOf(s, w)] + r.argv;
    assert r.Args? ==> l + (m + r.around) == l + m + r.around;
  }

  lemma ArgsEnd(argv: seq<string>, around: seq<Around<string>>, ts: seq<Tok>, have: nat)
    requires ts == [] || Starts(ts, "|)&;")
    ensures BeforeArgs(argv, around, Arguments(ts, have)) == Args(argv, around, ts)
  {
    assert argv + [] == argv && around + [] == around;
  }

  // ---- commands ---------------------------------------------------------------------------------------------

  lemma {:induction false} ReadWrap(s: string, c: Cmd<Span>, list: seq<Around<Span>>)
    requires TreeOk(s, c) && FilesOk(s, list)
    ensures TreeOk(s, Wrap(c, list)) && Read(s, Wrap(c, list)) == Wrap(Read(s, c), AroundTexts(s, list))
    decreases |list|
  {
    if list != [] {
      var a := list[0];
      ReadWrap(s, Redir(c, a.file, a.mode, a.fd), list[1..]);
      assert AroundTexts(s, list)[0] == AroundText(s, a) && AroundTexts(s, list)[1..] == AroundTexts(s, list[1..]);
    }
  }

  lemma ReadExec(s: string, argv: seq<Span>, list: seq<Around<Span>>, more: seq<Around<Span>>)
    requires SpansOk(s, argv) && FilesOk(s, list) && FilesOk(s, more)
    ensures TreeOk(s, Wrap(Exec(argv), list + more))
    ensures Read(s, Wrap(Exec(argv), list + more)) == Wrap(Exec(Texts(s, argv)), AroundTexts(s, list) + AroundTexts(s, more))
  {
    ReadWrap(s, Exec(argv), list + more);
    assert AroundTexts(s, list + more) == AroundTexts(s, list) + AroundTexts(s, more);
  }

  method ParseExec(s: string, p: nat) returns (r: Option<Cmd<Span>>, next: nat)
    requires Line(s) && p <= |s|
    ensures p <= next && Agrees(s, Command(Toks(s, p)), r, next)
    decreases |s| - p, 1
  {
    hide Toks, Redirs, Arguments, Wrap, Read, TreeOk, Block;
    var found;
    found, next := Peek(s, p, "(");
    if found {
      r, next := ParseBlock(s, next);
      return;
    }
    var list, argv, more;
    list, next := ParseRedirs(s, next);
    if list.None? {
      return None, next;
    }
    argv, more, next := ParseArgs(s, next);
    if argv.None? {
      return None, next;
    }
    ReadExec(s, argv.value, list.value, more);
    return Some(Wrap(Exec(argv.value), list.value + more)), next;
  }

  /** The first panic of parseblock is unreachable. */
  method ParseBlock(s: string, p: nat) returns (r: Option<Cmd<Span>>, next: nat)
    requires Line(s) && p <= |s| && Starts(Toks(s, p), "(")
    ensures p <= next && Agrees(s, Block(Toks(s, p)), r, next)
    decreases |s| - p, 0
  {
    hide Toks, Redirs, Sequence, Wrap, Read, TreeOk;
    var found, tok, q, eq;
    found, next := Peek(s, p, "(");
    if !found {
      assert false;
    }
    tok, q, eq, next := GetToken(s, next);
    r, next := ParseLine(s, next);
    if r.None? {
      return None, next;
    }
    found, next := Peek(s, next, ")");
    if !found {
      return None, next;
    }
    tok, q, eq, next := GetToken(s, next);
    var list;
    list, next := ParseRedirs(s, next);
    if list.None? {
      return None, next;
    }
    ReadWrap(s, r.value, list.value);
    return Some(Wrap(r.value, list.value)), next;
  }

  method ParsePipe(s: string, p: nat) returns (r: Option<Cmd<Span>>, next: nat)
    requires Line(s) && p <= |s|
    ensures p <= next && Agrees(s, Pipeline(Toks(s, p)), r, next)
    decreases |s| - p, 2
  {
    hide Toks, Command;
    r, next := ParseExec(s, p);
    if r.None? {
      return None, next;
    }
    var found;
    found, next := Peek(s, next, "|");
    if found {
      var tok, q, eq, right;
      tok, q, eq, next := GetToken(s, next);
      right, next := ParsePipe(s, next);
      if right.None? {
        return None, next;
      }
      r := Some(Pipe(r.value, right.value));
    }
  }

  method ParseLine(s: string, p: nat) returns (r: Option<Cmd<Span>>, next: nat)
    requires Line(s) && p <= |s|
    ensures p <= next && Agrees(s, Sequence(Toks(s, p)), r, next)
    decreases |s| - p, 3
  {
    hide Toks, Pipeline, Backs;
    r, next := ParsePipe(s, p);
    if r.None? {
      return None, next;
    }
    var cmd;
    cmd, next := ParseBacks(s, next, r.value);
    r := Some(cmd);
    var found;
    found, next := Peek(s, next, ";");
    if found {
      var tok, q, eq, right;
      tok, q, eq, next := GetToken(s, next);
      right, next := ParseLine(s, next);
      if right.None? {
        return None, next;
      }
      r := Some(List(cmd, right.value));
    }
  }

  /** parseline's loop over &. */
  method ParseBacks(s: string, p: nat, c: Cmd<Span>) returns (r: Cmd<Span>, next: nat)
    requires Line(s) && p <= |s| && TreeOk(s, c)
    ensures p <= next && Agrees(s, Backs(Read(s, c), Toks(s, p)), Some(r), next)
  {
    hide Toks;
    r := c;
    var found;
    found, next := Peek(s, p, "&");
    while found
      invariant p <= next <= |s| && TreeOk(s, r) && (found <==> Starts(Toks(s, next), "&"))
      invariant Backs(Read(s, c), Toks(s, p)) == Backs(Read(s, r), Toks(s, next))
      decreases |s| - next
    {
      var tok, q, eq;
      tok, q, eq, next := GetToken(s, next);
      r := Back(r);
      found, next := Peek(s, next, "&");
    }
  }

  // ---- NUL termination ----------------------------------------------------------------------------------------

  /** Where nulterminate writes. */
  function Ends(c: Cmd<Span>): set<nat> {
    match c
    case Exec(argv) => set w | w in argv :: w.eq
    case Redir(d, file, _, _) => Ends(d) + {file.eq}
    case Pipe(l, r) => Ends(l) + Ends(r)
    case List(l, r) => Ends(l) + Ends(r)
    case Back(d) => Ends(d)
  }

  function WordsOf(c: Cmd<Span>): set<Span> {
    match c
    case Exec(argv) => set w | w in argv
    case Redir(d, file, _, _) => WordsOf(d) + {file}
    case Pipe(l, r) => WordsOf(l) + WordsOf(r)
    case List(l, r) => WordsOf(l) + WordsOf(r)
    case Back(d) => WordsOf(d)
  }

  function Cut(b: seq<char>, ends: set<nat>): (r: seq<char>)
    ensures |r| == |b| && forall k :: 0 <= k < |b| ==> r[k] == if k in ends then NUL else b[k]
  {
    seq(|b|, k requires 0 <= k < |b| => if k in ends then NUL else b[k])
  }

  method NulTerminate(c: Cmd<Span>, buf: array<char>, ghost s: string)
    requires TreeOk(s, c) && |s| < buf.Length
    modifies buf
    ensures buf[..] == Cut(old(buf[..]), Ends(c))
    decreases c
  {
    match c
    case Exec(argv) =>
      var i := 0;
      while i < |argv|
        invariant 0 <= i <= |argv|
        invariant forall k :: 0 <= k < buf.Length ==> buf[k] == if (exists j :: 0 <= j < i && argv[j].eq == k) then NUL else old(buf[k])
      {
        assert SpanOk(s, argv[i]);
        buf[argv[i].eq] := NUL;
        i := i + 1;
      }
      assert forall k :: k in Ends(c) <==> exists j :: 0 <= j < |argv| && argv[j].eq == k;
    case Redir(d, file, _, _) =>
      NulTerminate(d, buf, s);
      buf[file.eq] := NUL;
    case Pipe(l, r) =>
      NulTerminate(l, buf, s);
      NulTerminate(r, buf, s);
    case List(l, r) =>
      NulTerminate(l, buf, s);
      NulTerminate(r, buf, s);
    case Back(d) =>
      NulTerminate(d, buf, s);
  }

  /** The C string that starts at q. */
  function CString(b: seq<char>, q: nat): string
    decreases |b| - q
  {
    if q >= |b| || b[q] == NUL then "" else [b[q]] + CString(b, q + 1)
  }

  predicate Break(s: string, e: nat) { e <= |s| && (e < |s| ==> Space(s[e]) || Symbol(s[e])) }

  /** NULs go only where a word ends, hence never inside another word. */
  lemma {:induction false} EndsBreak(s: string, c: Cmd<Span>)
    requires TreeOk(s, c)
    ensures forall e :: e in Ends(c) ==> Break(s, e)
    ensures forall w :: w in WordsOf(c) ==> SpanOk(s, w) && w.eq in Ends(c)
  {
    match c
    case Exec(_) =>
    case Redir(d, _, _, _) => EndsBreak(s, d);
    case Pipe(l, r) => EndsBreak(s, l); EndsBreak(s, r);
    case List(l, r) => EndsBreak(s, l); EndsBreak(s, r);
    case Back(d) => EndsBreak(s, d);
  }

  lemma {:induction false} CutWord(s: string, b: seq<char>, ends: set<nat>, w: Span, q: nat)
    requires Line(s) && |s| < |b| && b[..|s|] == s && forall e :: e in ends ==> Break(s, e)
    requires SpanOk(s, w) && w.eq in ends && w.q <= q <= w.eq
    ensures CString(Cut(b, ends), q) == s[q..w.eq]
    decreases w.eq - q
  {
    if q < w.eq {
      assert b[q] == b[..|s|][q] && s[q] != NUL;
      assert q !in ends;
      CutWord(s, b, ends, w, q + 1);
      assert s[q..w.eq] == [s[q]] + s[q + 1..w.eq];
    }
  }

  /** After nulterminate every word of the command reads as its token did. */
  lemma WordsRead(s: string, b: seq<char>, c: Cmd<Span>)
    requires Line(s) && |s| < |b| && b[..|s|] == s && TreeOk(s, c)
    ensures forall w :: w in WordsOf(c) ==> CString(Cut(b, Ends(c)), w.q) == TextOf(s, w)
  {
    EndsBreak(s, c);
    forall w | w in WordsOf(c) ensures CString(Cut(b, Ends(c)), w.q) == TextOf(s, w) {
      CutWord(s, b, Ends(c), w, w.q);
    }
  }

  /** parsecmd: the command that the line in buf spells, if it is one, with its words terminated. */
  method ParseCmd(buf: array<char>) returns (r: Option<Cmd<Span>>, ghost s: string)
    requires exists k :: 0 <= k < buf.Length && buf[k] == NUL
    modifies buf
    ensures |s| < buf.Length && Line(s) && old(buf[..])[..|s|] == s && old(buf[..])[|s|] == NUL
    ensures r.None? <==> Parsed(Toks(s, 0)).Fail?
    ensures r.None? ==> buf[..] == old(buf[..])
    ensures r.Some? ==> Parsed(Toks(s, 0)) == Got(Read(s, r.value), [])
    ensures r.Some? ==> buf[..] == Cut(old(buf[..]), Ends(r.value))
    ensures r.Some? ==> forall w :: w in WordsOf(r.value) ==> CString(buf[..], w.q) == TextOf(s, w)
  {
    hide Toks, Sequence, TreeOk, Read, WordsOf, Ends, CString, TextOf;
    var es := StrLen(buf);
    var line := buf[..es];
    s := line;
    var next, found;
    r, next := ParseLine(line, 0);
    if r.None? {
      return;
    }
    found, next := Peek(line, next, "");
    if next != es {
      r := None;
      return;
    }
    WordsRead(line, buf[..], r.value);
    NulTerminate(r.value, buf, line);
  }

  method StrLen(buf: array<char>) returns (es: nat)
    requires exists k :: 0 <= k < buf.Length && buf[k] == NUL
    ensures es < buf.Length && buf[es] == NUL && Line(buf[..es])
  {
    es := 0;
    while buf[es] != NUL
      invariant es < buf.Length && Line(buf[..es])
      decreases buf.Length - es
    {
      es := es + 1;
    }
  }
}
