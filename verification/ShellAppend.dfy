/** In this shell >> overwrites: a line means what it means with > in its place. */
module ShellAppend {
  import opened ShellTokens
  import opened ShellGrammar

  /** Every >> replaced by >. */
  function Plain(ts: seq<Tok>): (r: seq<Tok>)
    ensures |r| == |ts| && forall i :: 0 <= i < |ts| ==> r[i] == if ts[i].Append? then Sym('>') else ts[i]
  {
    seq(|ts|, i requires 0 <= i < |ts| => if ts[i].Append? then Sym('>') else ts[i])
  }

  function PlainRest(r: Parse): Parse { if r.Fail? then Fail else Got(r.cmd, Plain(r.rest)) }

  function PlainAround(r: ParseAround): ParseAround { if r.NoFile? then NoFile else Arounds(r.list, Plain(r.rest)) }

  function PlainArgs(r: ParseArgs): ParseArgs { if r.BadArgs? then BadArgs else Args(r.argv, r.around, Plain(r.rest)) }

  lemma PlainTail(ts: seq<Tok>, k: nat)
    requires k <= |ts|
    ensures Plain(ts)[k..] == Plain(ts[k..])
  {
  }

  lemma PlainStarts(ts: seq<Tok>, toks: string)
    ensures Starts(Plain(ts), toks) == Starts(ts, toks)
  {
  }

  lemma {:induction false} PlainRedirs(ts: seq<Tok>)
    ensures Redirs(Plain(ts)) == PlainAround(Redirs(ts))
    decreases |ts|
  {
    hide Plain;
    PlainStarts(ts, "<>");
    if Starts(ts, "<>") && |ts| >= 2 {
      PlainTail(ts, 2);
      PlainRedirs(ts[2..]);
    }
  }

  lemma {:induction false} PlainArguments(ts: seq<Tok>, have: nat)
    ensures Arguments(Plain(ts), have) == PlainArgs(Arguments(ts, have))
    decreases |ts|
  {
    hide Plain, Redirs;
    PlainStarts(ts, "|)&;");
    if ts != [] && !Starts(ts, "|)&;") && ts[0].Word? {
      PlainTail(ts, 1);
      PlainRedirs(ts[1..]);
      match Redirs(ts[1..])
      case NoFile =>
      case Arounds(_, rest) => PlainArguments(rest, have + 1);
    }
  }

  lemma {:induction false} PlainCommand(ts: seq<Tok>)
    ensures Command(Plain(ts)) == PlainRest(Command(ts))
    decreases |ts|, 1
  {
    hide Plain, Redirs, Arguments, Block;
    PlainStarts(ts, "(");
    if Starts(ts, "(") {
      PlainBlock(ts);
    } else {
      PlainRedirs(ts);
      match Redirs(ts)
      case NoFile =>
      case Arounds(_, rest) => PlainArguments(rest, 0);
    }
  }

  lemma {:induction false} PlainBlock(ts: seq<Tok>)
    requires Starts(ts, "(")
    ensures Starts(Plain(ts), "(") && Block(Plain(ts)) == PlainRest(Block(ts))
    decreases |ts|, 0
  {
    hide Plain, Redirs, Sequence;
    PlainStarts(ts, "(");
    PlainTail(ts, 1);
    PlainSequence(ts[1..]);
    match Sequence(ts[1..])
    case Fail =>
    case Got(_, rest) =>
      PlainStarts(rest, ")");
      if Starts(rest, ")") {
        PlainTail(rest, 1);
        PlainRedirs(rest[1..]);
      }
  }

  lemma {:induction false} PlainPipeline(ts: seq<Tok>)
    ensures Pipeline(Plain(ts)) == PlainRest(Pipeline(ts))
    decreases |ts|, 2
  {
    hide Plain, Command;
    PlainCommand(ts);
    match Command(ts)
    case Fail =>
    case Got(_, rest) =>
      PlainStarts(rest, "|");
      if Starts(rest, "|") {
        PlainTail(rest, 1);
        PlainPipeline(rest[1..]);
      }
  }

  lemma {:induction false} PlainBacks(c: Cmd<string>, ts: seq<Tok>)
    ensures Backs(c, Plain(ts)) == PlainRest(Backs(c, ts))
    decreases |ts|
  {
    hide Plain;
    PlainStarts(ts, "&");
    if Starts(ts, "&") {
      PlainTail(ts, 1);
      PlainBacks(Back(c), ts[1..]);
    }
  }

  lemma {:induction false} PlainSequence(ts: seq<Tok>)
    ensures Sequence(Plain(ts)) == PlainRest(Sequence(ts))
    decreases |ts|, 3
  {
    hide Plain, Pipeline, Backs;
    PlainPipeline(ts);
    match Pipeline(ts)
    case Fail =>
    case Got(c, rest) =>
      PlainBacks(c, rest);
      var b := Backs(c, rest);
      PlainStarts(b.rest, ";");
      if Starts(b.rest, ";") {
        PlainTail(b.rest, 1);
        PlainSequence(b.rest[1..]);
      }
  }

  /** For all lines: the command is the same, and so is whether there is one. */
  lemma AppendIsOverwrite(ts: seq<Tok>)
    ensures Parsed(Plain(ts)) == Parsed(ts)
  {
    hide Sequence;
    PlainSequence(ts);
  }
}
