/** The lines that the shell takes, as trees: how a tree is written down, and what it means. The parser
    accepts exactly the lines that some tree spells, and gives the meaning of that tree. */
module ShellSyntax {
  import opened ShellTokens
  import opened ShellGrammar

  datatype Redirection = Redirection(op: Tok, file: string)

  datatype Item = Arg(word: string) | To(red: Redirection)

  /** A simple command is words and redirections in any order; a block is a line in parentheses with
      redirections behind it. */
  datatype Part = Simple(items: seq<Item>) | Paren(line: Script, reds: seq<Redirection>)

  datatype Pipes = Last(part: Part) | Into(part: Part, next: Pipes)

  /** Pipelines with ampersands behind each of them, and semicolons in between. */
  datatype Script = End(pipes: Pipes, amps: nat) | Then(pipes: Pipes, amps: nat, next: Script)

  // ---- how it is written --------------------------------------------------------------------------------

  function SpellRed(r: Redirection): seq<Tok> { [r.op, Word(r.file)] }

  function SpellReds(reds: seq<Redirection>): seq<Tok> {
    if reds == [] then [] else SpellRed(reds[0]) + SpellReds(reds[1..])
  }

  function SpellItems(items: seq<Item>): seq<Tok> {
    if items == [] then []
    else (if items[0].Arg? then [Word(items[0].word)] else SpellRed(items[0].red)) + SpellItems(items[1..])
  }

  function SpellPart(p: Part): seq<Tok> {
    match p
    case Simple(items) => SpellItems(items)
    case Paren(line, reds) => [Sym('(')] + SpellLine(line) + [Sym(')')] + SpellReds(reds)
  }

  function SpellPipes(p: Pipes): seq<Tok> {
    match p
    case Last(part) => SpellPart(part)
    case Into(part, next) => SpellPart(part) + [Sym('|')] + SpellPipes(next)
  }

  function Ampersands(n: nat): seq<Tok> { seq(n, _ => Sym('&')) }

  function SpellLine(l: Script): seq<Tok> {
    match l
    case End(pipes, amps) => SpellPipes(pipes) + Ampersands(amps)
    case Then(pipes, amps, next) => SpellPipes(pipes) + Ampersands(amps) + [Sym(';')] + SpellLine(next)
  }

  // ---- what it means --------------------------------------------------------------------------------------

  function WordsOf(items: seq<Item>): seq<string> {
    if items == [] then [] else (if items[0].Arg? then [items[0].word] else []) + WordsOf(items[1..])
  }

  function RedsOf(items: seq<Item>): seq<Redirection> {
    if items == [] then [] else (if items[0].To? then [items[0].red] else []) + RedsOf(items[1..])
  }

  /** < opens for reading as descriptor 0; > and >> for writing, with creation, as descriptor 1. */
  function Opened(c: Cmd<string>, r: Redirection): Cmd<string> {
    if r.op == Sym('<') then Redir(c, r.file, O_RDONLY, 0) else Redir(c, r.file, O_WRONLY_CREATE, 1)
  }

  /** The first redirection is the innermost. */
  function Redirect(c: Cmd<string>, reds: seq<Redirection>): Cmd<string> {
    if reds == [] then c else Opened(Redirect(c, reds[..|reds| - 1]), reds[|reds| - 1])
  }

  function InBack(c: Cmd<string>, n: nat): Cmd<string> { if n == 0 then c else Back(InBack(c, n - 1)) }

  function MeanPart(p: Part): Cmd<string> {
    match p
    case Simple(items) => Redirect(Exec(WordsOf(items)), RedsOf(items))
    case Paren(line, reds) => Redirect(MeanLine(line), reds)
  }

  function MeanPipes(p: Pipes): Cmd<string> {
    match p
    case Last(part) => MeanPart(part)
    case Into(part, next) => Pipe(MeanPart(part), MeanPipes(next))
  }

  function MeanLine(l: Script): Cmd<string> {
    match l
    case End(pipes, amps) => InBack(MeanPipes(pipes), amps)
    case Then(pipes, amps, next) => List(InBack(MeanPipes(pipes), amps), MeanLine(next))
  }

  // ---- which trees ------------------------------------------------------------------------------------------

  predicate IsOp(t: Tok) { t == Sym('<') || t == Sym('>') || t == Append }

  predicate OpsIn(reds: seq<Redirection>) { forall i :: 0 <= i < |reds| ==> IsOp(reds[i].op) }

  /** Redirections are written with redirection signs. */
  predicate PartOk(p: Part) {
    match p
    case Simple(items) => OpsIn(RedsOf(items))
    case Paren(line, reds) => LineOk(line) && OpsIn(reds)
  }

  predicate PipesOk(p: Pipes) {
    match p
    case Last(part) => PartOk(part)
    case Into(part, next) => PartOk(part) && PipesOk(next)
  }

  predicate LineOk(l: Script) {
    match l
    case End(pipes, _) => PipesOk(pipes)
    case Then(pipes, _, next) => PipesOk(pipes) && LineOk(next)
  }

  /** No simple command has ten words or more. */
  predicate PartShort(p: Part) {
    match p
    case Simple(items) => |WordsOf(items)| < MAXARGS
    case Paren(line, _) => LineShort(line)
  }

  predicate PipesShort(p: Pipes) {
    match p
    case Last(part) => PartShort(part)
    case Into(part, next) => PartShort(part) && PipesShort(next)
  }

  predicate LineShort(l: Script) {
    match l
    case End(pipes, _) => PipesShort(pipes)
    case Then(pipes, _, next) => PipesShort(pipes) && LineShort(next)
  }

  // ---- redirections ------------------------------------------------------------------------------------------

  function AroundsOf(reds: seq<Redirection>): (r: seq<Around<string>>)
    ensures |r| == |reds| && forall i :: 0 <= i < |reds| ==> r[i] == AroundOf(reds[i].op, reds[i].file)
  {
    seq(|reds|, i requires 0 <= i < |reds| => AroundOf(reds[i].op, reds[i].file))
  }

  lemma {:induction false} RedirectFront(c: Cmd<string>, r: Redirection, reds: seq<Redirection>)
    ensures Redirect(c, [r] + reds) == Redirect(Opened(c, r), reds)
    decreases |reds|
  {
    var all := [r] + reds;
    if reds == [] {
      assert all[..0] == [];
      assert Redirect(c, all[..0]) == c;
    } else {
      var less := reds[..|reds| - 1];
      assert all[..|all| - 1] == [r] + less && all[|all| - 1] == reds[|reds| - 1];
      RedirectFront(c, r, less);
    }
  }

  lemma {:induction false} WrapIsRedirect(c: Cmd<string>, reds: seq<Redirection>)
    ensures Wrap(c, AroundsOf(reds)) == Redirect(c, reds)
    decreases |reds|
  {
    if reds != [] {
      var list := AroundsOf(reds);
      assert list[1..] == AroundsOf(reds[1..]) && reds == [reds[0]] + reds[1..];
      WrapIsRedirect(Opened(c, reds[0]), reds[1..]);
      RedirectFront(c, reds[0], reds[1..]);
    }
  }

  lemma {:induction false} RedsParse(reds: seq<Redirection>, rest: seq<Tok>)
    requires OpsIn(reds) && !Starts(rest, "<>")
    ensures Redirs(SpellReds(reds) + rest) == Arounds(AroundsOf(reds), rest)
    decreases |reds|
  {
    var ts := SpellReds(reds) + rest;
    if reds == [] {
      assert ts == rest;
    } else {
      assert IsOp(reds[0].op);
      assert ts[0] == reds[0].op && ts[1] == Word(reds[0].file) && ts[2..] == SpellReds(reds[1..]) + rest;
      RedsParse(reds[1..], rest);
      assert AroundsOf(reds) == [AroundOf(ts[0], ts[1].text)] + AroundsOf(reds[1..]);
    }
  }

  lemma RedFirst(r: Redirection, reds: seq<Redirection>)
    ensures SpellReds([r] + reds) == SpellRed(r) + SpellReds(reds)
    ensures AroundsOf([r] + reds) == [AroundOf(r.op, r.file)] + AroundsOf(reds)
  {
    assert ([r] + reds)[1..] == reds;
  }

  lemma {:induction false} RedsTree(ts: seq<Tok>) returns (reds: seq<Redirection>)
    requires Redirs(ts).Arounds?
    ensures OpsIn(reds) && ts == SpellReds(reds) + Redirs(ts).rest && Redirs(ts).list == AroundsOf(reds)
    ensures !Starts(Redirs(ts).rest, "<>")
    decreases |ts|
  {
    hide AroundsOf, AroundOf;
    if !Starts(ts, "<>") {
      return [];
    }
    var more := RedsTree(ts[2..]);
    var r := Redirection(ts[0], ts[1].text);
    reds := [r] + more;
    RedFirst(r, more);
    assert ts == SpellRed(r) + ts[2..];
    assert Redirs(ts).list == [AroundOf(ts[0], ts[1].text)] + AroundsOf(more);
  }

  // ---- words and redirections --------------------------------------------------------------------------------

  function Tos(reds: seq<Redirection>): (r: seq<Item>)
    ensures |r| == |reds| && forall i :: 0 <= i < |reds| ==> r[i] == To(reds[i])
  {
    seq(|reds|, i requires 0 <= i < |reds| => To(reds[i]))
  }

  lemma ToFirst(r: Redirection, items: seq<Item>)
    ensures SpellItems([To(r)] + items) == SpellRed(r) + SpellItems(items)
    ensures WordsOf([To(r)] + items) == WordsOf(items) && RedsOf([To(r)] + items) == [r] + RedsOf(items)
  {
    assert ([To(r)] + items)[1..] == items;
  }

  /** Redirections in front of other items. */
  lemma {:induction false} TosFirst(reds: seq<Redirection>, items: seq<Item>)
    ensures SpellItems(Tos(reds) + items) == SpellReds(reds) + SpellItems(items)
    ensures WordsOf(Tos(reds) + items) == WordsOf(items) && RedsOf(Tos(reds) + items) == reds + RedsOf(items)
    decreases |reds|
  {
    hide Tos, SpellItems, WordsOf, RedsOf;
    if reds == [] {
      assert Tos(reds) + items == items;
    } else {
      var less := Tos(reds[1..]) + items;
      assert Tos(reds) + items == [To(reds[0])] + less;
      ToFirst(reds[0], less);
      TosFirst(reds[1..], items);
      assert reds == [reds[0]] + reds[1..];
    }
  }

  lemma ArgFirst(w: string, items: seq<Item>)
    ensures SpellItems([Arg(w)] + items) == [Word(w)] + SpellItems(items)
    ensures WordsOf([Arg(w)] + items) == [w] + WordsOf(items) && RedsOf([Arg(w)] + items) == RedsOf(items)
  {
    assert ([Arg(w)] + items)[1..] == items;
  }

  /** Items begin with redirections; then comes a word, or nothing. */
  lemma {:induction false} SplitItems(items: seq<Item>) returns (reds: seq<Redirection>, more: seq<Item>)
    ensures items == Tos(reds) + more && (more == [] || more[0].Arg?)
    decreases |items|
  {
    if items == [] || items[0].Arg? {
      return [], items;
    }
    reds, more := SplitItems(items[1..]);
    reds := [items[0].red] + reds;
    assert Tos(reds) == [items[0]] + Tos(reds[1..]);
    assert items == [items[0]] + items[1..];
  }

  /** What may follow a part. */
  predicate Ends(rest: seq<Tok>) { rest == [] || Starts(rest, "|)&;") }

  lemma AroundsMore(a: seq<Redirection>, b: seq<Redirection>)
    ensures AroundsOf(a + b) == AroundsOf(a) + AroundsOf(b)
  {
  }

  lemma OpsMore(a: seq<Redirection>, b: seq<Redirection>)
    ensures OpsIn(a + b) <==> OpsIn(a) && OpsIn(b)
  {
    if OpsIn(a + b) {
      forall i | 0 <= i < |a| ensures IsOp(a[i].op) {
        assert (a + b)[i] == a[i];
      }
      forall i | 0 <= i < |b| ensures IsOp(b[i].op) {
        assert (a + b)[|a| + i] == b[i];
      }
    }
  }

  /** What the items begin with, seen from behind a word. */
  lemma ItemsStart(items: seq<Item>, rest: seq<Tok>)
    requires Ends(rest) && (items == [] || items[0].Arg?)
    ensures !Starts(SpellItems(items) + rest, "<>")
    ensures items != [] ==> SpellItems(items) != [] && SpellItems(items)[0] == Word(items[0].word)
  {
    var ts := SpellItems(items) + rest;
    if items == [] {
      assert ts == rest;
    }
  }

  lemma Assoc(a: seq<Tok>, b: seq<Tok>, c: seq<Tok>)
    ensures a + b + c == a + (b + c)
  {
  }

  lemma Headed(x: Tok, ts: seq<Tok>)
    ensures ([x] + ts)[0] == x && ([x] + ts)[1..] == ts
  {
  }

  lemma Split(ts: seq<Tok>)
    requires ts != []
    ensures ts == [ts[0]] + ts[1..]
  {
  }

  /** One more argument, with the redirections behind it. */
  lemma OneArgument(ts: seq<Tok>, have: nat)
    requires ts != [] && ts[0].Word?
    ensures have + 1 >= MAXARGS || Redirs(ts[1..]).NoFile? ==> Arguments(ts, have) == BadArgs
    ensures have + 1 < MAXARGS && Redirs(ts[1..]).Arounds? ==>
      var r := Arguments(Redirs(ts[1..]).rest, have + 1);
      Arguments(ts, have) == if r.BadArgs? then BadArgs else Args([ts[0].text] + r.argv, Redirs(ts[1..]).list + r.around, r.rest)
  {
    hide Redirs;
  }

  lemma NoArgument(ts: seq<Tok>, have: nat)
    ensures Ends(ts) ==> Arguments(ts, have) == Args([], [], ts)
    ensures !Ends(ts) ==> ts != [] && (!ts[0].Word? ==> Arguments(ts, have) == BadArgs)
  {
    hide Redirs;
  }

  /** A word, redirections, and the rest of the items. */
  lemma Unfolded(w: string, reds: seq<Redirection>, more: seq<Item>)
    ensures var items := [Arg(w)] + (Tos(reds) + more);
      && SpellItems(items) == [Word(w)] + (SpellReds(reds) + SpellItems(more))
      && WordsOf(items) == [w] + WordsOf(more) && RedsOf(items) == reds + RedsOf(more)
      && AroundsOf(RedsOf(items)) == AroundsOf(reds) + AroundsOf(RedsOf(more))
      && (OpsIn(RedsOf(items)) <==> OpsIn(reds) && OpsIn(RedsOf(more)))
  {
    hide SpellItems, WordsOf, RedsOf, Tos, AroundsOf, OpsIn, SpellReds;
    ArgFirst(w, Tos(reds) + more);
    TosFirst(reds, more);
    OpsMore(reds, RedsOf(more));
    AroundsMore(reds, RedsOf(more));
  }

  lemma {:induction false} ItemsParse(items: seq<Item>, have: nat, rest: seq<Tok>)
    requires Ends(rest) && OpsIn(RedsOf(items)) && (items == [] || items[0].Arg?) && have < MAXARGS
    ensures Arguments(SpellItems(items) + rest, have) ==
      if have + |WordsOf(items)| < MAXARGS then Args(WordsOf(items), AroundsOf(RedsOf(items)), rest) else BadArgs
    decreases |items|
  {
    hide Redirs, Arguments, AroundsOf, OpsIn, SpellReds, Tos, Ends;
    if items == [] {
      assert SpellItems(items) + rest == rest && AroundsOf([]) == [];
      NoArgument(rest, have);
    } else {
      hide SpellItems, WordsOf, RedsOf;
      var w := items[0].word;
      var reds, more := SplitItems(items[1..]);
      assert items == [Arg(w)] + (Tos(reds) + more);
      Unfolded(w, reds, more);
      var ts := SpellItems(items) + rest;
      ItemsStart(more, rest);
      Assoc([Word(w)], SpellReds(reds) + SpellItems(more), rest);
      Assoc(SpellReds(reds), SpellItems(more), rest);
      Headed(Word(w), SpellReds(reds) + (SpellItems(more) + rest));
      RedsParse(reds, SpellItems(more) + rest);
      OneArgument(ts, have);
      if have + 1 < MAXARGS {
        ItemsParse(more, have + 1, rest);
      }
    }
  }

  lemma {:induction false} ItemsTree(ts: seq<Tok>, have: nat) returns (items: seq<Item>)
    requires Arguments(ts, have).Args? && have < MAXARGS
    ensures var r := Arguments(ts, have);
      && ts == SpellItems(items) + r.rest && r.argv == WordsOf(items) && r.around == AroundsOf(RedsOf(items))
      && OpsIn(RedsOf(items)) && have + |r.argv| < MAXARGS && Ends(r.rest)
    decreases |ts|
  {
    hide Redirs, Arguments, AroundsOf, OpsIn, SpellReds, Tos, Ends, SpellItems, WordsOf, RedsOf;
    NoArgument(ts, have);
    if Ends(ts) {
      NoItems();
      return [];
    }
    OneArgument(ts, have);
    var reds := RedsTree(ts[1..]);
    var more := ItemsTree(Redirs(ts[1..]).rest, have + 1);
    items := [Arg(ts[0].text)] + (Tos(reds) + more);
    Unfolded(ts[0].text, reds, more);
    var rest := Arguments(ts, have).rest;
    Split(ts);
    Assoc(SpellReds(reds), SpellItems(more), rest);
    Assoc([ts[0]], SpellReds(reds) + SpellItems(more), rest);
  }

  lemma NoItems()
    ensures SpellItems([]) == [] && WordsOf([]) == [] && AroundsOf(RedsOf([])) == [] && OpsIn(RedsOf([]))
  {
  }

  // ---- every tree is parsed ------------------------------------------------------------------------------------

  lemma SimpleParse(items: seq<Item>, rest: seq<Tok>)
    requires Ends(rest) && OpsIn(RedsOf(items))
    ensures Command(SpellItems(items) + rest) ==
      if |WordsOf(items)| < MAXARGS then Got(Redirect(Exec(WordsOf(items)), RedsOf(items)), rest) else Fail
  {
    hide Redirs, Arguments, Wrap, Redirect;
    var ts := SpellItems(items) + rest;
    var reds, more := SplitItems(items);
    TosFirst(reds, more);
    OpsMore(reds, RedsOf(more));
    AroundsMore(reds, RedsOf(more));
    ItemsStart(more, rest);
    assert ts == SpellReds(reds) + (SpellItems(more) + rest);
    RedsParse(reds, SpellItems(more) + rest);
    ItemsParse(more, 0, rest);
    WrapIsRedirect(Exec(WordsOf(items)), RedsOf(items));
    NoParen(reds, more, rest);
  }

  lemma NoParen(reds: seq<Redirection>, more: seq<Item>, rest: seq<Tok>)
    requires Ends(rest) && OpsIn(reds) && (more == [] || more[0].Arg?)
    ensures !Starts(SpellReds(reds) + (SpellItems(more) + rest), "(")
  {
    var ts := SpellReds(reds) + (SpellItems(more) + rest);
    if reds != [] {
      assert IsOp(reds[0].op) && ts[0] == reds[0].op;
    } else {
      assert ts == SpellItems(more) + rest;
      if more == [] {
        assert ts == rest;
      }
    }
  }

  /** The command, or none if it is too long. */
  function Answer(short: bool, c: Cmd<string>, rest: seq<Tok>): Parse { if short then Got(c, rest) else Fail }

  lemma ParenSpelled(p: Part, rest: seq<Tok>)
    requires p.Paren?
    ensures SpellPart(p) + rest == [Sym('(')] + (SpellLine(p.line) + ([Sym(')')] + (SpellReds(p.reds) + rest)))
  {
    hide SpellLine, SpellReds;
    Assoc([Sym('(')] + SpellLine(p.line) + [Sym(')')], SpellReds(p.reds), rest);
    Assoc([Sym('(')] + SpellLine(p.line), [Sym(')')], SpellReds(p.reds) + rest);
    Assoc([Sym('(')], SpellLine(p.line), [Sym(')')] + (SpellReds(p.reds) + rest));
  }

  lemma {:induction false} PartParse(p: Part, rest: seq<Tok>)
    requires PartOk(p) && Ends(rest)
    ensures Command(SpellPart(p) + rest) == Answer(PartShort(p), MeanPart(p), rest)
    decreases p, 0
  {
    hide Sequence, Redirs;
    match p
    case Simple(items) => SimpleParse(items, rest);
    case Paren(line, reds) =>
      var tail := [Sym(')')] + (SpellReds(reds) + rest);
      ParenSpelled(p, rest);
      Headed(Sym('('), SpellLine(line) + tail);
      LineParse(line, tail);
      Headed(Sym(')'), SpellReds(reds) + rest);
      RedsParse(reds, rest);
      WrapIsRedirect(MeanLine(line), reds);
  }

  lemma {:induction false} PipesParse(p: Pipes, rest: seq<Tok>)
    requires PipesOk(p) && (rest == [] || Starts(rest, ")&;"))
    ensures Pipeline(SpellPipes(p) + rest) == Answer(PipesShort(p), MeanPipes(p), rest)
    decreases p
  {
    hide Command;
    match p
    case Last(part) => PartParse(part, rest);
    case Into(part, next) =>
      var tail := [Sym('|')] + (SpellPipes(next) + rest);
      assert SpellPipes(p) + rest == SpellPart(part) + tail && tail[1..] == SpellPipes(next) + rest;
      PartParse(part, tail);
      PipesParse(next, rest);
  }

  lemma {:induction false} BacksParse(c: Cmd<string>, n: nat, rest: seq<Tok>)
    requires !Starts(rest, "&")
    ensures Backs(c, Ampersands(n) + rest) == Got(InBack(c, n), rest)
    decreases n
  {
    var ts := Ampersands(n) + rest;
    if n == 0 {
      assert ts == rest;
    } else {
      assert ts[0] == Sym('&') && ts[1..] == Ampersands(n - 1) + rest;
      BacksParse(Back(c), n - 1, rest);
      BackInside(c, n - 1);
    }
  }

  lemma {:induction false} BackInside(c: Cmd<string>, n: nat)
    ensures InBack(Back(c), n) == Back(InBack(c, n))
    decreases n
  {
    if n > 0 {
      BackInside(c, n - 1);
    }
  }

  lemma {:induction false} LineParse(l: Script, rest: seq<Tok>)
    requires LineOk(l) && Closed(rest)
    ensures Sequence(SpellLine(l) + rest) == Answer(LineShort(l), MeanLine(l), rest)
    decreases l
  {
    hide Pipeline, Backs;
    match l
    case End(pipes, amps) =>
      Assoc(SpellPipes(pipes), Ampersands(amps), rest);
      AmpsStart(amps, rest);
      PipesParse(pipes, Ampersands(amps) + rest);
      BacksParse(MeanPipes(pipes), amps, rest);
    case Then(pipes, amps, next) =>
      var tail := [Sym(';')] + (SpellLine(next) + rest);
      ThenSpelled(l, rest);
      Headed(Sym(';'), SpellLine(next) + rest);
      AmpsStart(amps, tail);
      PipesParse(pipes, Ampersands(amps) + tail);
      BacksParse(MeanPipes(pipes), amps, tail);
      LineParse(next, rest);
  }

  lemma AmpsStart(n: nat, rest: seq<Tok>)
    requires rest == [] || Starts(rest, ");")
    ensures Ampersands(n) + rest == [] || Starts(Ampersands(n) + rest, ")&;")
  {
    if n == 0 {
      assert Ampersands(n) + rest == rest;
    }
  }

  // ---- whatever is parsed is a tree -----------------------------------------------------------------------------

  lemma {:induction false} PartTree(ts: seq<Tok>) returns (p: Part)
    requires Command(ts).Got?
    ensures PartOk(p) && PartShort(p) && ts == SpellPart(p) + Command(ts).rest && Command(ts).cmd == MeanPart(p)
    decreases |ts|, 1
  {
    hide Redirs, Arguments, Sequence, Wrap, Redirect, SpellItems, WordsOf, RedsOf, AroundsOf, OpsIn, SpellReds, Tos;
    if Starts(ts, "(") {
      var line := LineTree(ts[1..]);
      var rest := Sequence(ts[1..]).rest;
      var reds := RedsTree(rest[1..]);
      p := Paren(line, reds);
      WrapIsRedirect(MeanLine(line), reds);
      SymOf(ts, '(');
      SymOf(rest, ')');
      Split(ts);
      Split(rest);
      ParenSpelled(p, Command(ts).rest);
    } else {
      var reds := RedsTree(ts);
      var items := ItemsTree(Redirs(ts).rest, 0);
      p := Simple(Tos(reds) + items);
      TosFirst(reds, items);
      OpsMore(reds, RedsOf(items));
      AroundsMore(reds, RedsOf(items));
      WrapIsRedirect(Exec(WordsOf(items)), reds + RedsOf(items));
      Assoc(SpellReds(reds), SpellItems(items), Command(ts).rest);
    }
  }

  predicate IsSym(ts: seq<Tok>, c: char) { ts != [] && ts[0] == Sym(c) }

  lemma SymOf(ts: seq<Tok>, c: char)
    requires Starts(ts, [c]) && c != '>'
    ensures IsSym(ts, c)
  {
  }

  lemma {:induction false} PipesTree(ts: seq<Tok>) returns (p: Pipes)
    requires Pipeline(ts).Got?
    ensures PipesOk(p) && PipesShort(p) && ts == SpellPipes(p) + Pipeline(ts).rest && Pipeline(ts).cmd == MeanPipes(p)
    decreases |ts|, 2
  {
    hide Command;
    var part := PartTree(ts);
    var rest := Command(ts).rest;
    if !Starts(rest, "|") {
      return Last(part);
    }
    SymOf(rest, '|');
    var next := PipesTree(rest[1..]);
    assert rest == [Sym('|')] + rest[1..];
    return Into(part, next);
  }

  lemma {:induction false} BacksTree(c: Cmd<string>, ts: seq<Tok>) returns (n: nat)
    ensures ts == Ampersands(n) + Backs(c, ts).rest && Backs(c, ts).cmd == InBack(c, n)
    decreases |ts|
  {
    if !Starts(ts, "&") {
      return 0;
    }
    SymOf(ts, '&');
    n := BacksTree(Back(c), ts[1..]);
    BackInside(c, n);
    assert ts == [Sym('&')] + ts[1..] && Ampersands(n + 1) == [Sym('&')] + Ampersands(n);
    n := n + 1;
  }

  /** A line of several pipelines, and what follows it. */
  lemma ThenSpelled(l: Script, rest: seq<Tok>)
    requires l.Then?
    ensures SpellLine(l) + rest == SpellPipes(l.pipes) + (Ampersands(l.amps) + ([Sym(';')] + (SpellLine(l.next) + rest)))
  {
    hide SpellPipes, Ampersands;
    Assoc(SpellPipes(l.pipes) + Ampersands(l.amps) + [Sym(';')], SpellLine(l.next), rest);
    Assoc(SpellPipes(l.pipes) + Ampersands(l.amps), [Sym(';')], SpellLine(l.next) + rest);
    Assoc(SpellPipes(l.pipes), Ampersands(l.amps), [Sym(';')] + (SpellLine(l.next) + rest));
  }

  lemma {:induction false} LineTree(ts: seq<Tok>) returns (l: Script)
    requires Sequence(ts).Got?
    ensures LineOk(l) && LineShort(l) && ts == SpellLine(l) + Sequence(ts).rest && Sequence(ts).cmd == MeanLine(l)
    decreases |ts|, 3
  {
    hide Pipeline, Backs;
    var pipes := PipesTree(ts);
    var r := Pipeline(ts);
    var amps := BacksTree(r.cmd, r.rest);
    var b := Backs(r.cmd, r.rest);
    if !Starts(b.rest, ";") {
      Assoc(SpellPipes(pipes), Ampersands(amps), b.rest);
      return End(pipes, amps);
    }
    SymOf(b.rest, ';');
    var next := LineTree(b.rest[1..]);
    Split(b.rest);
    var rest := Sequence(ts).rest;
    l := Then(pipes, amps, next);
    ThenSpelled(l, rest);
  }

  // ---- the theorems -----------------------------------------------------------------------------------------------

  /** Every tree is parsed to its meaning, or refused exactly if a simple command has ten words or more. */
  lemma TreeParses(l: Script)
    requires LineOk(l)
    ensures Parsed(SpellLine(l)) == Answer(LineShort(l), MeanLine(l), [])
  {
    hide Sequence;
    LineParse(l, []);
    assert SpellLine(l) + [] == SpellLine(l);
  }

  /** The tree is one for the tokens, and means c. */
  ghost predicate TreeOf(l: Script, ts: seq<Tok>, c: Cmd<string>) {
    LineOk(l) && LineShort(l) && SpellLine(l) == ts && MeanLine(l) == c
  }

  /** The shell takes a line for a command exactly if a tree spells the line and means the command. */
  lemma ParsedIff(ts: seq<Tok>, c: Cmd<string>)
    ensures Parsed(ts) == Got(c, []) <==> exists l :: TreeOf(l, ts, c)
  {
    hide Sequence, LineOk, LineShort;
    if Parsed(ts) == Got(c, []) {
      var l := LineTree(ts);
      assert ts == SpellLine(l) + [] == SpellLine(l);
      assert TreeOf(l, ts, c);
    }
    if l :| TreeOf(l, ts, c) {
      TreeParses(l);
    }
  }

  /** One simple command: the words in order, with the redirections around it in order, the first one
      innermost. */
  lemma SimpleLine(items: seq<Item>)
    requires OpsIn(RedsOf(items)) && |WordsOf(items)| < MAXARGS
    ensures Parsed(SpellItems(items)) == Got(Redirect(Exec(WordsOf(items)), RedsOf(items)), [])
  {
    var part := Simple(items);
    var pipes := Last(part);
    var l := End(pipes, 0);
    assert PartOk(part) && PartShort(part) && SpellPart(part) == SpellItems(items);
    assert PipesOk(pipes) && PipesShort(pipes) && SpellPipes(pipes) == SpellItems(items) && MeanPipes(pipes) == MeanPart(part);
    assert LineOk(l) && LineShort(l) && SpellLine(l) == SpellItems(items) && MeanLine(l) == MeanPipes(pipes);
    TreeParses(l);
  }
}
