/** The grammar that the shell's recursive descent follows (sh.c), on tokens, and its inverse. */
module ShellGrammar {
  import opened ShellTokens

  const MAXARGS: nat := 10
  const O_RDONLY: nat := 0
  const O_WRONLY_CREATE: nat := 0x201

  datatype Cmd<W> =
    | Exec(argv: seq<W>)
    | Redir(cmd: Cmd<W>, file: W, mode: nat, fd: nat)
    | Pipe(left: Cmd<W>, right: Cmd<W>)
    | List(left: Cmd<W>, right: Cmd<W>)
    | Back(cmd: Cmd<W>)

  /** A redirection before it is put around a command. */
  datatype Around<W> = Around(file: W, mode: nat, fd: nat)

  datatype Parse = Fail | Got(cmd: Cmd<string>, rest: seq<Tok>)
  datatype ParseAround = NoFile | Arounds(list: seq<Around<string>>, rest: seq<Tok>)
  datatype ParseArgs = BadArgs | Args(argv: seq<string>, around: seq<Around<string>>, rest: seq<Tok>)

  function Wrap<W>(c: Cmd<W>, around: seq<Around<W>>): Cmd<W>
    decreases |around|
  {
    if around == [] then c
    else Wrap(Redir(c, around[0].file, around[0].mode, around[0].fd), around[1..])
  }

  predicate Starts(ts: seq<Tok>, toks: string) { ts != [] && StartsIn(ts[0], toks) }

  /** The redirection that an operator stands for; > and >> mean the same. */
  function AroundOf<W>(op: Tok, file: W): Around<W> {
    if op == Sym('<') then Around(file, O_RDONLY, 0) else Around(file, O_WRONLY_CREATE, 1)
  }

  function Redirs(ts: seq<Tok>): (r: ParseAround)
    ensures r.Arounds? ==> |r.rest| <= |ts|
    decreases |ts|
  {
    if !Starts(ts, "<>") then Arounds([], ts)
    else if |ts| < 2 || !ts[1].Word? then NoFile
    else
      match Redirs(ts[2..])
      case NoFile => NoFile
      case Arounds(list, rest) => Arounds([AroundOf(ts[0], ts[1].text)] + list, rest)
  }

  /** A command with the redirections that follow it. */
  function Redirected(c: Cmd<string>, ts: seq<Tok>): (r: Parse)
    ensures r.Got? ==> |r.rest| <= |ts|
  {
    match Redirs(ts)
    case NoFile => Fail
    case Arounds(list, rest) => Got(Wrap(c, list), rest)
  }

  /** Arguments mixed with redirections; have counts the arguments already taken. */
  function Arguments(ts: seq<Tok>, have: nat): (r: ParseArgs)
    ensures r.Args? ==> |r.rest| <= |ts|
    decreases |ts|
  {
    if ts == [] || Starts(ts, "|)&;") then Args([], [], ts)
    else if !ts[0].Word? || have + 1 >= MAXARGS then BadArgs
    else
      match Redirs(ts[1..])
      case NoFile => BadArgs
      case Arounds(list, rest) =>
        match Arguments(rest, have + 1)
        case BadArgs => BadArgs
        case Args(argv, around, rest') => Args([ts[0].text] + argv, list + around, rest')
  }

  function Command(ts: seq<Tok>): (r: Parse)
    ensures r.Got? ==> |r.rest| <= |ts|
    decreases |ts|, 1
  {
    if Starts(ts, "(") then Block(ts)
    else
      match Redirs(ts)
      case NoFile => Fail
      case Arounds(list, rest) =>
        match Arguments(rest, 0)
        case BadArgs => Fail
        case Args(argv, around, rest') => Got(Wrap(Exec(argv), list + around), rest')
  }

  function Block(ts: seq<Tok>): (r: Parse)
    requires Starts(ts, "(")
    ensures r.Got? ==> |r.rest| <= |ts|
    decreases |ts|, 0
  {
    match Sequence(ts[1..])
    case Fail => Fail
    case Got(c, rest) =>
      if !Starts(rest, ")") then Fail else Redirected(c, rest[1..])
  }

  function Pipeline(ts: seq<Tok>): (r: Parse)
    ensures r.Got? ==> |r.rest| <= |ts|
    decreases |ts|, 2
  {
    match Command(ts)
    case Fail => Fail
    case Got(c, rest) =>
      if !Starts(rest, "|") then Got(c, rest)
      else
        match Pipeline(rest[1..])
        case Fail => Fail
        case Got(d, rest') => Got(Pipe(c, d), rest')
  }

  function Backs(c: Cmd<string>, ts: seq<Tok>): (r: Parse)
    ensures r.Got? && |r.rest| <= |ts|
    decreases |ts|
  {
    if Starts(ts, "&") then Backs(Back(c), ts[1..]) else Got(c, ts)
  }

  function Sequence(ts: seq<Tok>): (r: Parse)
    ensures r.Got? ==> |r.rest| <= |ts|
    decreases |ts|, 3
  {
    match Pipeline(ts)
    case Fail => Fail
    case Got(c, rest) =>
      var b := Backs(c, rest);
      if !Starts(b.rest, ";") then b
      else
        match Sequence(b.rest[1..])
        case Fail => Fail
        case Got(d, rest') => Got(List(b.cmd, d), rest')
  }

  /** The command that a line stands for, if any. */
  function Parsed(ts: seq<Tok>): Parse {
    match Sequence(ts)
    case Fail => Fail
    case Got(c, rest) => if rest == [] then Got(c, []) else Fail
  }

  // ---- printing -----------------------------------------------------------------------------------------

  function Words(argv: seq<string>): seq<Tok> { seq(|argv|, i requires 0 <= i < |argv| => Word(argv[i])) }

  /** A command with every part of it in parentheses. */
  function Print(c: Cmd<string>): seq<Tok> {
    match c
    case Exec(argv) => Words(argv)
    case Redir(d, file, mode, _) => Parens(Print(d)) + [if mode == O_RDONLY then Sym('<') else Sym('>'), Word(file)]
    case Pipe(l, r) => Parens(Print(l)) + [Sym('|')] + Parens(Print(r))
    case List(l, r) => Parens(Print(l)) + [Sym(';')] + Parens(Print(r))
    case Back(d) => Parens(Print(d)) + [Sym('&')]
  }

  function Parens(ts: seq<Tok>): seq<Tok> { [Sym('(')] + ts + [Sym(')')] }

  /** Commands that can be written down: words are words, and redirections are of the two kinds. */
  predicate Writable(c: Cmd<string>) {
    match c
    case Exec(argv) => forall i :: 0 <= i < |argv| ==> ValidWord(argv[i])
    case Redir(d, file, mode, fd) =>
      Writable(d) && ValidWord(file) && ((mode == O_RDONLY && fd == 0) || (mode == O_WRONLY_CREATE && fd == 1))
    case Pipe(l, r) => Writable(l) && Writable(r)
    case List(l, r) => Writable(l) && Writable(r)
    case Back(d) => Writable(d)
  }

  /** No command has more arguments than the shell takes. */
  predicate Short(c: Cmd<string>) {
    match c
    case Exec(argv) => |argv| < MAXARGS
    case Redir(d, _, _, _) => Short(d)
    case Pipe(l, r) => Short(l) && Short(r)
    case List(l, r) => Short(l) && Short(r)
    case Back(d) => Short(d)
  }

  /** What may follow a command inside parentheses or at the end of the line. */
  predicate Closed(rest: seq<Tok>) { rest == [] || rest[0] == Sym(')') }

  /** Arguments without redirections are taken one by one. */
  lemma {:induction false} WordsParse(argv: seq<string>, have: nat, rest: seq<Tok>)
    requires have + |argv| < MAXARGS && (rest == [] || Starts(rest, "|)&;"))
    ensures Arguments(Words(argv) + rest, have) == Args(argv, [], rest)
    decreases |argv|
  {
    hide Redirs;
    var ts := Words(argv) + rest;
    if argv == [] {
      assert ts == rest;
    } else {
      assert ts[0] == Word(argv[0]) && ts[1..] == Words(argv[1..]) + rest;
      WordsParse(argv[1..], have + 1, rest);
      NoRedirs(argv[1..], rest);
      assert [argv[0]] + argv[1..] == argv;
    }
  }

  lemma NoRedirs(argv: seq<string>, rest: seq<Tok>)
    requires rest == [] || Starts(rest, "|)&;")
    ensures Redirs(Words(argv) + rest) == Arounds([], Words(argv) + rest)
  {
    var ts := Words(argv) + rest;
    assert argv == [] ==> ts == rest;
    assert argv != [] ==> ts[0] == Word(argv[0]);
  }

  lemma ExecParse(argv: seq<string>, rest: seq<Tok>)
    requires |argv| < MAXARGS && Closed(rest)
    ensures Sequence(Words(argv) + rest) == Got(Exec(argv), rest)
  {
    var ts := Words(argv) + rest;
    NoRedirs(argv, rest);
    WordsParse(argv, 0, rest);
    assert argv == [] ==> ts == rest;
    assert argv != [] ==> ts[0] == Word(argv[0]);
    assert Command(ts) == Got(Exec(argv), rest);
    assert Pipeline(ts) == Got(Exec(argv), rest);
  }

  /** A command in parentheses, and what follows it. */
  lemma ParensParse(c: Cmd<string>, rest: seq<Tok>)
    requires Sequence(Print(c) + ([Sym(')')] + rest)) == Got(c, [Sym(')')] + rest)
    ensures Command(Parens(Print(c)) + rest) == Redirected(c, rest)
  {
    hide Sequence, Redirs;
    var ts := Parens(Print(c)) + rest;
    assert ts[0] == Sym('(') && ts[1..] == Print(c) + ([Sym(')')] + rest);
    assert ([Sym(')')] + rest)[1..] == rest;
  }

  lemma {:induction false} PrintParse(c: Cmd<string>, rest: seq<Tok>)
    requires Writable(c) && Short(c) && Closed(rest)
    ensures Sequence(Print(c) + rest) == Got(c, rest)
    decreases c
  {
    match c
    case Exec(argv) => ExecParse(argv, rest);
    case Redir(d, file, mode, fd) =>
      var tail := [if mode == O_RDONLY then Sym('<') else Sym('>'), Word(file)] + rest;
      PrintParse(d, [Sym(')')] + tail);
      ParensParse(d, tail);
      RedirParse(c, tail, rest);
    case Pipe(l, r) =>
      var tail := [Sym('|')] + Parens(Print(r)) + rest;
      PrintParse(l, [Sym(')')] + tail);
      ParensParse(l, tail);
      PrintParse(r, [Sym(')')] + rest);
      ParensParse(r, rest);
      PipeParse(c, tail, rest);
    case List(l, r) =>
      var tail := [Sym(';')] + Parens(Print(r)) + rest;
      PrintParse(l, [Sym(')')] + tail);
      ParensParse(l, tail);
      PrintParse(r, [Sym(')')] + rest);
      ParensParse(r, rest);
      ListParse(c, tail, rest);
    case Back(d) =>
      var tail := [Sym('&')] + rest;
      PrintParse(d, [Sym(')')] + tail);
      ParensParse(d, tail);
      BackParse(c, tail, rest);
  }

  lemma RedirParse(c: Cmd<string>, tail: seq<Tok>, rest: seq<Tok>)
    requires c.Redir? && Writable(c) && Closed(rest)
    requires tail == [if c.mode == O_RDONLY then Sym('<') else Sym('>'), Word(c.file)] + rest
    requires Command(Parens(Print(c.cmd)) + tail) == Redirected(c.cmd, tail)
    ensures Sequence(Print(c) + rest) == Got(c, rest)
  {
    hide Command;
    assert Print(c) + rest == Parens(Print(c.cmd)) + tail;
    assert tail[2..] == rest;
    assert Redirs(rest) == Arounds([], rest);
    var a := AroundOf(tail[0], c.file);
    assert Redirs(tail) == Arounds([a], rest);
    assert Wrap(c.cmd, [a]) == c;
    CommandAlone(Parens(Print(c.cmd)) + tail, c, rest);
  }

  /** A command with nothing behind it is a whole sequence. */
  lemma CommandAlone(ts: seq<Tok>, c: Cmd<string>, rest: seq<Tok>)
    requires Command(ts) == Got(c, rest) && Closed(rest)
    ensures Pipeline(ts) == Sequence(ts) == Got(c, rest)
  {
    hide Command;
  }

  lemma PlainTail(rest: seq<Tok>)
    requires rest == [] || (rest[0].Sym? && rest[0].c != '<' && rest[0].c != '>')
    ensures Redirs(rest) == Arounds([], rest)
  {
  }

  lemma PipeParse(c: Cmd<string>, tail: seq<Tok>, rest: seq<Tok>)
    requires c.Pipe? && Closed(rest) && tail == [Sym('|')] + Parens(Print(c.right)) + rest
    requires Command(Parens(Print(c.left)) + tail) == Redirected(c.left, tail)
    requires Command(Parens(Print(c.right)) + rest) == Redirected(c.right, rest)
    ensures Sequence(Print(c) + rest) == Got(c, rest)
  {
    hide Command, Redirs;
    var ts, ts' := Parens(Print(c.left)) + tail, Parens(Print(c.right)) + rest;
    assert Print(c) + rest == ts && tail[1..] == ts';
    PlainTail(tail);
    PlainTail(rest);
    CommandAlone(ts', c.right, rest);
    assert Pipeline(ts) == Got(c, rest);
  }

  lemma ListParse(c: Cmd<string>, tail: seq<Tok>, rest: seq<Tok>)
    requires c.List? && Closed(rest) && tail == [Sym(';')] + Parens(Print(c.right)) + rest
    requires Command(Parens(Print(c.left)) + tail) == Redirected(c.left, tail)
    requires Command(Parens(Print(c.right)) + rest) == Redirected(c.right, rest)
    ensures Sequence(Print(c) + rest) == Got(c, rest)
  {
    hide Command, Redirs;
    var ts, ts' := Parens(Print(c.left)) + tail, Parens(Print(c.right)) + rest;
    assert Print(c) + rest == ts && tail[1..] == ts';
    PlainTail(tail);
    PlainTail(rest);
    CommandAlone(ts', c.right, rest);
    assert Pipeline(ts) == Got(c.left, tail);
  }

  lemma BackParse(c: Cmd<string>, tail: seq<Tok>, rest: seq<Tok>)
    requires c.Back? && Closed(rest) && tail == [Sym('&')] + rest
    requires Command(Parens(Print(c.cmd)) + tail) == Redirected(c.cmd, tail)
    ensures Sequence(Print(c) + rest) == Got(c, rest)
  {
    hide Command;
    var ts := Parens(Print(c.cmd)) + tail;
    assert Print(c) + rest == ts && tail[1..] == rest;
    PlainTail(tail);
    assert Pipeline(ts) == Got(c.cmd, tail);
    assert Backs(c.cmd, tail) == Got(c, rest);
  }

  // ---- what comes out of the parser ---------------------------------------------------------------------

  predicate AllValid(ts: seq<Tok>) { forall k :: 0 <= k < |ts| ==> ValidTok(ts[k]) }

  predicate AroundOk(a: Around<string>) {
    ValidWord(a.file) && ((a.mode == O_RDONLY && a.fd == 0) || (a.mode == O_WRONLY_CREATE && a.fd == 1))
  }

  predicate AroundsOk(list: seq<Around<string>>) { forall k :: 0 <= k < |list| ==> AroundOk(list[k]) }

  predicate Good(c: Cmd<string>) { Writable(c) && Short(c) }

  predicate GoodParse(r: Parse) { r.Got? ==> Good(r.cmd) && AllValid(r.rest) }

  lemma {:induction false} WrapGood(c: Cmd<string>, list: seq<Around<string>>)
    requires Good(c) && AroundsOk(list)
    ensures Good(Wrap(c, list))
    decreases |list|
  {
    if list != [] {
      assert AroundOk(list[0]);
      WrapGood(Redir(c, list[0].file, list[0].mode, list[0].fd), list[1..]);
    }
  }

  lemma {:induction false} RedirsGood(ts: seq<Tok>)
    requires AllValid(ts)
    ensures Redirs(ts).Arounds? ==> AroundsOk(Redirs(ts).list) && AllValid(Redirs(ts).rest)
    decreases |ts|
  {
    if Starts(ts, "<>") && |ts| >= 2 && ts[1].Word? {
      assert ValidTok(ts[1]);
      RedirsGood(ts[2..]);
    }
  }

  lemma {:induction false} ArgumentsGood(ts: seq<Tok>, have: nat)
    requires AllValid(ts) && have < MAXARGS
    ensures var r := Arguments(ts, have);
      r.Args? ==> Writable(Exec(r.argv)) && have + |r.argv| < MAXARGS && AroundsOk(r.around) && AllValid(r.rest)
    decreases |ts|
  {
    hide Redirs;
    if ts != [] && !Starts(ts, "|)&;") && ts[0].Word? && have + 1 < MAXARGS {
      assert ValidTok(ts[0]);
      RedirsGood(ts[1..]);
      if Redirs(ts[1..]).Arounds? {
        ArgumentsGood(Redirs(ts[1..]).rest, have + 1);
      }
    }
  }

  lemma RedirectedGood(c: Cmd<string>, ts: seq<Tok>)
    requires Good(c) && AllValid(ts)
    ensures GoodParse(Redirected(c, ts))
  {
    RedirsGood(ts);
    if Redirs(ts).Arounds? {
      WrapGood(c, Redirs(ts).list);
    }
  }

  lemma {:induction false} CommandGood(ts: seq<Tok>)
    requires AllValid(ts)
    ensures GoodParse(Command(ts))
    decreases |ts|, 1
  {
    hide Redirs, Arguments, Sequence, Wrap, AllValid;
    if Starts(ts, "(") {
      RestValid(ts, 1);
      SequenceGood(ts[1..]);
      var r := Sequence(ts[1..]);
      if r.Got? && Starts(r.rest, ")") {
        RestValid(r.rest, 1);
        RedirectedGood(r.cmd, r.rest[1..]);
      }
    } else {
      RedirsGood(ts);
      if Redirs(ts).Arounds? {
        ArgumentsGood(Redirs(ts).rest, 0);
        var r := Arguments(Redirs(ts).rest, 0);
        if r.Args? {
          WrapGood(Exec(r.argv), Redirs(ts).list + r.around);
        }
      }
    }
  }

  lemma RestValid(ts: seq<Tok>, k: nat)
    requires AllValid(ts) && k <= |ts|
    ensures AllValid(ts[k..])
  {
  }

  lemma {:induction false} PipelineGood(ts: seq<Tok>)
    requires AllValid(ts)
    ensures GoodParse(Pipeline(ts))
    decreases |ts|, 2
  {
    hide Command, AllValid;
    CommandGood(ts);
    var r := Command(ts);
    if r.Got? && Starts(r.rest, "|") {
      RestValid(r.rest, 1);
      PipelineGood(r.rest[1..]);
    }
  }

  lemma {:induction false} BacksGood(c: Cmd<string>, ts: seq<Tok>)
    requires Good(c) && AllValid(ts)
    ensures GoodParse(Backs(c, ts))
    decreases |ts|
  {
    if Starts(ts, "&") {
      BacksGood(Back(c), ts[1..]);
    }
  }

  /** Whatever the parser accepts can be written down, and has few enough arguments. */
  lemma {:induction false} SequenceGood(ts: seq<Tok>)
    requires AllValid(ts)
    ensures GoodParse(Sequence(ts))
    decreases |ts|, 3
  {
    hide Pipeline, Backs, AllValid;
    PipelineGood(ts);
    var r := Pipeline(ts);
    if r.Got? {
      BacksGood(r.cmd, r.rest);
      var b := Backs(r.cmd, r.rest);
      if Starts(b.rest, ";") {
        RestValid(b.rest, 1);
        SequenceGood(b.rest[1..]);
      }
    }
  }

  // ---- the theorems --------------------------------------------------------------------------------------

  lemma {:induction false} PrintValid(c: Cmd<string>)
    requires Writable(c)
    ensures AllValid(Print(c))
  {
    match c
    case Exec(_) =>
    case Redir(d, _, _, _) => PrintValid(d);
    case Pipe(l, r) => PrintValid(l); PrintValid(r);
    case List(l, r) => PrintValid(l); PrintValid(r);
    case Back(d) => PrintValid(d);
  }

  /** A line that spells a command in full parentheses, with any blanks between the tokens, is parsed
      to that command exactly when no part of it has too many arguments. */
  lemma RoundTrip(c: Cmd<string>, s: string)
    requires Writable(c) && Line(s) && Toks(s, 0) == Print(c)
    ensures Parsed(Toks(s, 0)) == Got(c, []) <==> Short(c)
  {
    hide Sequence, Toks, Print;
    PrintValid(c);
    SequenceGood(Print(c));
    if Short(c) {
      PrintParse(c, []);
      assert Print(c) + [] == Print(c);
    }
  }

  /** Every command has such a line. */
  lemma Spelled(c: Cmd<string>)
    requires Writable(c)
    ensures Line(Render(Print(c))) && Toks(Render(Print(c)), 0) == Print(c)
  {
    PrintValid(c);
    RenderedLine(Print(c));
    RenderedToks(Render(Print(c)), 0, Print(c));
  }

  /** Any line that is accepted, however written, means a command that printing and parsing keep. */
  lemma Reparsed(s: string)
    requires Line(s) && Parsed(Toks(s, 0)).Got?
    ensures var c := Parsed(Toks(s, 0)).cmd; Writable(c) && Parsed(Toks(Render(Print(c)), 0)) == Got(c, [])
  {
    hide Sequence, Toks, Print, Render;
    ToksValid(s, 0);
    SequenceGood(Toks(s, 0));
    var c := Parsed(Toks(s, 0)).cmd;
    Spelled(c);
    RoundTrip(c, Render(Print(c)));
  }
}
