/** Commands written with parentheses only where precedence asks for them, and read back. */
module ShellPrint {
  import ShellTokens
  import opened ShellGrammar
  import opened ShellSyntax

  function Size(c: Cmd<string>): nat {
    match c
    case Exec(_) => 0
    case Redir(d, _, _, _) => Size(d) + 1
    case Pipe(l, r) => Size(l) + Size(r) + 1
    case List(l, r) => Size(l) + Size(r) + 1
    case Back(d) => Size(d) + 1
  }

  /** The ampersands at the end, and what stands before them. */
  function Amps(c: Cmd<string>): nat { if c.Back? then 1 + Amps(c.cmd) else 0 }

  function Core(c: Cmd<string>): (d: Cmd<string>)
    ensures !d.Back? && Size(d) <= Size(c) && (c.Back? ==> Size(d) < Size(c)) && (!c.Back? ==> d == c)
  {
    if c.Back? then Core(c.cmd) else c
  }

  /** The redirections around a command, the innermost first, and the command itself. */
  function Reds(c: Cmd<string>): seq<Redirection> {
    if c.Redir?
    then Reds(c.cmd) + [Redirection(if c.mode == O_RDONLY then ShellTokens.Sym('<') else ShellTokens.Sym('>'), c.file)]
    else []
  }

  function Base(c: Cmd<string>): (d: Cmd<string>)
    ensures !d.Redir? && Size(d) <= Size(c) && (c.Redir? ==> Size(d) < Size(c)) && (!c.Redir? ==> d == c)
  {
    if c.Redir? then Base(c.cmd) else c
  }

  function Args(argv: seq<string>): (r: seq<Item>)
    ensures |r| == |argv| && forall i :: 0 <= i < |argv| ==> r[i] == Arg(argv[i])
  {
    seq(|argv|, i requires 0 <= i < |argv| => Arg(argv[i]))
  }

  // ---- trees for commands ------------------------------------------------------------------------------

  /** Which of the three functions below asks which about the same command. */
  function Rank(c: Cmd<string>, part: nat, pipes: nat, script: nat): nat {
    if c.Pipe? then part else if c.List? || c.Back? then pipes else script
  }

  function PartOf(c: Cmd<string>): Part
    decreases Size(c), Rank(c, 2, 1, 0)
  {
    if Base(c).Exec? then Simple(Args(Base(c).argv) + Tos(Reds(c))) else Paren(ScriptOf(Base(c)), Reds(c))
  }

  function PipesOf(c: Cmd<string>): Pipes
    decreases Size(c), Rank(c, 0, 2, 1)
  {
    if c.Pipe? then Into(PartOf(c.left), PipesOf(c.right)) else Last(PartOf(c))
  }

  /** The command as a line: parentheses stand around a sequence or background command that is part of
      a pipeline, a pipeline on the left of another, a sequence on the left of a sequence or in the
      background, and around what is redirected unless it is a simple command. */
  function ScriptOf(c: Cmd<string>): Script
    decreases Size(c), Rank(c, 1, 0, 2)
  {
    if c.List? then Then(PipesOf(Core(c.left)), Amps(c.left), ScriptOf(c.right)) else End(PipesOf(Core(c)), Amps(c))
  }

  // ---- they mean the command ------------------------------------------------------------------------------

  lemma {:induction false} CoreBack(c: Cmd<string>)
    ensures InBack(Core(c), Amps(c)) == c && (Writable(c) ==> Writable(Core(c))) && (Short(c) <==> Short(Core(c)))
    decreases c
  {
    if c.Back? {
      CoreBack(c.cmd);
    }
  }

  lemma {:induction false} BaseRedirected(c: Cmd<string>)
    requires Writable(c)
    ensures Redirect(Base(c), Reds(c)) == c && OpsIn(Reds(c)) && Writable(Base(c)) && (Short(c) <==> Short(Base(c)))
    decreases c
  {
    if c.Redir? {
      BaseRedirected(c.cmd);
      var reds := Reds(c);
      assert reds[..|reds| - 1] == Reds(c.cmd);
    }
  }

  lemma {:induction false} ArgsAndReds(argv: seq<string>, reds: seq<Redirection>)
    ensures WordsOf(Args(argv) + Tos(reds)) == argv && RedsOf(Args(argv) + Tos(reds)) == reds
    decreases |argv|
  {
    if argv == [] {
      assert Args(argv) + Tos(reds) == Tos(reds) + [];
      TosFirst(reds, []);
      assert reds + [] == reds;
    } else {
      var more := Args(argv[1..]) + Tos(reds);
      assert Args(argv) + Tos(reds) == [Arg(argv[0])] + more;
      ArgFirst(argv[0], more);
      ArgsAndReds(argv[1..], reds);
      assert argv == [argv[0]] + argv[1..];
    }
  }

  lemma {:induction false} PartMeans(c: Cmd<string>)
    requires Writable(c)
    ensures PartOk(PartOf(c)) && MeanPart(PartOf(c)) == c && (PartShort(PartOf(c)) <==> Short(c))
    decreases Size(c), Rank(c, 2, 1, 0)
  {
    BaseRedirected(c);
    if Base(c).Exec? {
      ArgsAndReds(Base(c).argv, Reds(c));
    } else {
      ScriptMeans(Base(c));
    }
  }

  lemma {:induction false} PipesMean(c: Cmd<string>)
    requires Writable(c)
    ensures PipesOk(PipesOf(c)) && MeanPipes(PipesOf(c)) == c && (PipesShort(PipesOf(c)) <==> Short(c))
    decreases Size(c), Rank(c, 0, 2, 1)
  {
    if c.Pipe? {
      PartMeans(c.left);
      PipesMean(c.right);
    } else {
      PartMeans(c);
    }
  }

  lemma {:induction false} ScriptMeans(c: Cmd<string>)
    requires Writable(c)
    ensures LineOk(ScriptOf(c)) && MeanLine(ScriptOf(c)) == c && (LineShort(ScriptOf(c)) <==> Short(c))
    decreases Size(c), Rank(c, 1, 0, 2)
  {
    if c.List? {
      CoreBack(c.left);
      PipesMean(Core(c.left));
      ScriptMeans(c.right);
    } else {
      CoreBack(c);
      PipesMean(Core(c));
    }
  }

  /** Written so, a command is read back exactly if no part of it has ten arguments or more. */
  lemma BriefRoundTrip(c: Cmd<string>)
    requires Writable(c)
    ensures Parsed(SpellLine(ScriptOf(c))) == Got(c, []) <==> Short(c)
    ensures !Short(c) ==> Parsed(SpellLine(ScriptOf(c))) == Fail
  {
    hide Parsed, SpellLine, ScriptOf;
    ScriptMeans(c);
    TreeParses(ScriptOf(c));
  }
}
