/** The results about the log: crash atomicity, durability, recovery, and when log_write panics. */
module LogTheorems {
  import opened Wrappers
  import opened Blocks
  import opened LogMachine
  import opened LogInvariant
  import opened LogProof
  import opened LogJam

  /** Every action keeps the invariant, on any layout, unless a log_write outgrows the region. */
  lemma KeepStep(L: Layout, base: seq<Block>, s: State, a: Action)
    requires Inv(L, base, s) && Enabled(L, s, a) && !Overflows(L, s, a)
    ensures Inv(L, base, Do(L, s, a))
  {
    hide OpsOk, HistoryOk, CacheOk, CurrentOk, LogOk, DurableOk, Header;
    match a
    case BeginOp(pid) => KeepBegin(L, base, s, pid);
    case EndOp(pid) => KeepEnd(L, base, s, pid);
    case Change(pid, b, data) => KeepChange(L, base, s, pid, b, data);
    case LogCheck(pid) => KeepCheck(L, base, s, pid);
    case LogWrite(pid, b) => KeepLogWrite(L, base, s, pid, b);
    case Get(pid, b) => SetHolderKeeps(L, base, s, b, Some(pid));
    case Recycle(pid, victim, b) => KeepRecycle(L, base, s, pid, victim, b);
    case Fill(pid, b) => KeepFill(L, base, s, pid, b);
    case Release(pid, b) => SetHolderKeeps(L, base, s, b, None);
    case CopyToLog => KeepCopy(L, base, s);
    case CommitHead => KeepHead(L, base, s);
    case InstallBlock => KeepInstall(L, base, s);
    case EraseHead => KeepErase(L, base, s);
    case FinishCommit => KeepFinish(L, base, s);
    case ReadHead => KeepReadHead(L, base, s);
    case Crash => KeepCrash(L, base, s);
  }

  // ---- runs ----------------------------------------------------------------------------

  /** The actions in acts, one after the other, lead from s to t. */
  ghost predicate Run(L: Layout, s: State, acts: seq<Action>, t: State)
    requires ValidLayout(L)
    decreases |acts|
  {
    if acts == [] then s == t
    else |s.disk| == L.nblocks && Enabled(L, s, acts[0]) && Run(L, Do(L, s, acts[0]), acts[1..], t)
  }

  /** No log_write of the run outgrows the region. */
  ghost predicate Within(L: Layout, s: State, acts: seq<Action>)
    requires ValidLayout(L)
    decreases |acts|
  {
    acts == []
    || (|s.disk| == L.nblocks && Enabled(L, s, acts[0]) && !Overflows(L, s, acts[0]) && Within(L, Do(L, s, acts[0]), acts[1..]))
  }

  lemma {:induction false} WithinAppend(L: Layout, s: State, acts: seq<Action>, t: State, more: seq<Action>)
    requires ValidLayout(L) && Run(L, s, acts, t) && Within(L, s, acts) && Within(L, t, more)
    ensures Within(L, s, acts + more)
    decreases |acts|
  {
    hide Do, Enabled, Overflows;
    if acts == [] {
      assert acts + more == more;
    } else {
      WithinAppend(L, Do(L, s, acts[0]), acts[1..], t, more);
      assert (acts + more)[1..] == acts[1..] + more;
    }
  }

  /** On a fitting layout no run does. */
  lemma {:induction false} FittingIsWithin(L: Layout, base: seq<Block>, s: State, acts: seq<Action>, t: State)
    requires Fitting(L) && Inv(L, base, s) && Run(L, s, acts, t)
    ensures Within(L, s, acts)
    decreases |acts|
  {
    hide Inv, Do, Enabled, Overflows;
    if acts != [] {
      NoOverflow(L, base, s, acts[0]);
      KeepStep(L, base, s, acts[0]);
      FittingIsWithin(L, base, Do(L, s, acts[0]), acts[1..], t);
    }
  }

  lemma {:induction false} RunAppend(L: Layout, s: State, acts: seq<Action>, t: State, more: seq<Action>, u: State)
    requires ValidLayout(L) && Run(L, s, acts, t) && Run(L, t, more, u)
    ensures Run(L, s, acts + more, u)
    decreases |acts|
  {
    hide Do, Enabled;
    if acts == [] {
      assert acts + more == more;
    } else {
      RunAppend(L, Do(L, s, acts[0]), acts[1..], t, more, u);
      assert (acts + more)[1..] == acts[1..] + more;
    }
  }

  /** Power-on with a disk whose log region is readable; mkfs leaves an empty header. */
  function Initial(disk: seq<Block>): State {
    State(disk, map[], [], 0, false, map[], 0, Boot, 0, [], 0)
  }

  ghost predicate Bootable(L: Layout, disk: seq<Block>) {
    ValidLayout(L) && |disk| == L.nblocks && GoodHeader(L, Header(disk[L.start]))
  }

  /** The block store that a disk stands for: what recovery makes of it. */
  function Image(L: Layout, disk: seq<Block>): (r: seq<Block>)
    requires ValidLayout(L) && |disk| == L.nblocks && GoodHeader(L, Header(disk[L.start]))
    ensures |r| == L.nblocks
    ensures forall b :: 0 <= b < L.nblocks ==> r[b] == Recovered(L, disk, b)
  {
    seq(L.nblocks, b requires 0 <= b < L.nblocks => Recovered(L, disk, b))
  }

  lemma InitialInv(L: Layout, disk: seq<Block>)
    requires Bootable(L, disk)
    ensures Inv(L, Image(L, disk), Initial(disk))
  {
    hide Header;
    var base := Image(L, disk);
    var s := Initial(disk);
    assert s.trace[..s.committed] == [];
    assert OpsOk(L, s.ops, s.outstanding, s.committing, s.phase, s.lh);
    assert CacheOk(L, s.cache, s.disk, s.ops, s.lh, s.phase);
    assert DurableOk(L, disk, Header(disk[L.start]), base) by {
      ImageDurable(L, disk);
    }
  }

  lemma ImageDurable(L: Layout, disk: seq<Block>)
    requires Bootable(L, disk)
    ensures DurableOk(L, disk, Header(disk[L.start]), Image(L, disk))
  {
    hide Header;
    var h := Header(disk[L.start]);
    forall i | 0 <= i < |h| ensures disk[L.start + 1 + i] == Recovered(L, disk, h[i]) {
      assert IndexOf(h, h[i]) == i;
    }
  }

  lemma {:induction false} RunInv(L: Layout, base: seq<Block>, s: State, acts: seq<Action>, t: State)
    requires Inv(L, base, s) && Run(L, s, acts, t) && Within(L, s, acts)
    ensures Inv(L, base, t)
    decreases |acts|
  {
    hide OpsOk, HistoryOk, CacheOk, CurrentOk, LogOk, DurableOk, HoldsOk, Header, Do, Enabled, Overflows;
    if acts != [] {
      KeepStep(L, base, s, acts[0]);
      RunInv(L, base, Do(L, s, acts[0]), acts[1..], t);
    }
  }

  /** On an ample layout a log_write that outgrows the region leads into the jam, and no step but a
      crash leads out of it. */
  lemma SafeStep(L: Layout, base: seq<Block>, s: State, a: Action)
    requires Safe(L, base, s) && ValidLayout(L) && |s.disk| == L.nblocks && Enabled(L, s, a)
    requires Ample(L) || !Overflows(L, s, a)
    ensures Safe(L, base, Do(L, s, a))
  {
    hide Inv, Jammed, Enabled, Do, Overflows, Ample, Sound;
    BuffersFit(L, s, a);
    if Inv(L, base, s) {
      InvStep(L, base, s, a);
    } else if a.Crash? {
      SafeSound(L, base, s);
      SoundCrash(L, base, s);
      CrashIs(L, s);
    } else {
      JamStep(L, base, s, a);
    }
  }

  lemma CrashIs(L: Layout, s: State)
    requires ValidLayout(L) && |s.disk| == L.nblocks && Enabled(L, s, Crash)
    ensures Do(L, s, Crash) == Crashed(s)
  {
  }

  lemma InvStep(L: Layout, base: seq<Block>, s: State, a: Action)
    requires Inv(L, base, s) && |s.cache| <= NBUF && Enabled(L, s, a) && (Ample(L) || !Overflows(L, s, a))
    ensures Inv(L, base, Do(L, s, a)) || Jammed(L, base, Do(L, s, a))
  {
    hide Inv, Jammed;
    if !Overflows(L, s, a) {
      KeepStep(L, base, s, a);
    } else if L.size == 1 {
      NoOverflow(L, base, s, a);
      assert false;
    } else {
      JamBegins(L, base, s, a.pid, a.block);
    }
  }

  lemma {:induction false} RunSafe(L: Layout, base: seq<Block>, s: State, acts: seq<Action>, t: State)
    requires ValidLayout(L) && Safe(L, base, s) && Run(L, s, acts, t) && (Ample(L) || Within(L, s, acts))
    ensures Safe(L, base, t)
    decreases |acts|
  {
    hide Safe, Do, Enabled, Overflows, Ample;
    if acts != [] {
      SafeStep(L, base, s, acts[0]);
      RunSafe(L, base, Do(L, s, acts[0]), acts[1..], t);
    }
  }

  // ---- crash atomicity ---------------------------------------------------------------------

  /** What recovery would bring back is the initial store with the committed updates applied. */
  ghost predicate CrashSafe(L: Layout, disk: seq<Block>, t: State)
    requires Bootable(L, disk)
  {
    && Bootable(L, t.disk) && t.committed <= |t.trace| && TraceOk(L, t.trace)
    && forall b: nat :: Home(L, b) ==> Recovered(L, t.disk, b) == Replay(Image(L, disk), t.trace[..t.committed])[b]
  }

  /** In every state of every run on an ample layout, and on every layout in runs in which no
      transaction outgrows the region, also half way through a commit or a recovery, recovery would
      bring back the initial store with a prefix of the updates applied. The prefix takes every
      operation whole or not at all, and none that is still active. */
  lemma CrashAtomicity(L: Layout, disk: seq<Block>, acts: seq<Action>, t: State)
    requires Bootable(L, disk) && Run(L, Initial(disk), acts, t) && (Ample(L) || Within(L, Initial(disk), acts))
    ensures CrashSafe(L, disk, t)
    ensures WholeOperations(t.trace, t.committed)
    ensures forall i, p :: 0 <= i < t.committed && p in t.ops ==> t.trace[i].op != t.ops[p].id
  {
    hide Header, DurableOk, Recovered, Run, Within, Safe, Ample;
    var base := Image(L, disk);
    SafeInitial(L, disk);
    RunSafe(L, base, Initial(disk), acts, t);
    SafeSound(L, base, t);
    forall b: nat | Home(L, b) ensures Recovered(L, t.disk, b) == Replay(base, t.trace[..t.committed])[b] {
      DurableIsRecovered(L, t.disk, Replay(base, t.trace[..t.committed]), b);
    }
  }

  lemma SafeInitial(L: Layout, disk: seq<Block>)
    requires Bootable(L, disk)
    ensures Safe(L, Image(L, disk), Initial(disk))
  {
    hide Inv, Bootable;
    InitialInv(L, disk);
  }

  /** All or nothing, said of one operation in any such run: its updates are all among those that
      recovery would bring back, or all are lost; an active operation has none among them. */
  lemma OperationWholeOrAbsent(L: Layout, disk: seq<Block>, acts: seq<Action>, t: State, op: nat)
    requires Bootable(L, disk) && Run(L, Initial(disk), acts, t) && (Ample(L) || Within(L, Initial(disk), acts))
    ensures t.committed <= |t.trace|
    ensures (forall i :: 0 <= i < |t.trace| && t.trace[i].op == op ==> i < t.committed)
         || (forall i :: 0 <= i < |t.trace| && t.trace[i].op == op ==> t.committed <= i)
    ensures (exists p :: p in t.ops && t.ops[p].id == op) ==>
      forall i :: 0 <= i < |t.trace| && t.trace[i].op == op ==> t.committed <= i
  {
    hide Run, Within, Ample, Recovered, Bootable;
    CrashAtomicity(L, disk, acts, t);
    if i :| 0 <= i < |t.trace| && t.trace[i].op == op && t.committed <= i {
      forall j | 0 <= j < |t.trace| && t.trace[j].op == op ensures t.committed <= j {
      }
    }
  }

  /** No step takes back a committed update, crashes included. */
  lemma CommittedStays(L: Layout, s: State, a: Action)
    requires ValidLayout(L) && |s.disk| == L.nblocks && s.committed <= |s.trace| && Enabled(L, s, a)
    ensures var t := Do(L, s, a);
      s.committed <= t.committed <= |t.trace| && t.trace[..s.committed] == s.trace[..s.committed]
  {
    hide Header, WithHeader;
  }

  lemma {:induction false} Durability(L: Layout, base: seq<Block>, s: State, acts: seq<Action>, t: State)
    requires ValidLayout(L) && Safe(L, base, s) && Run(L, s, acts, t) && (Ample(L) || Within(L, s, acts))
    ensures s.committed <= t.committed <= |t.trace| && s.committed <= |s.trace|
    ensures t.trace[..s.committed] == s.trace[..s.committed]
    decreases |acts|
  {
    hide Safe, Do, Enabled, Overflows, Ample, HistoryOk, DurableOk, Header;
    SafeSound(L, base, s);
    if acts != [] {
      var m := Do(L, s, acts[0]);
      SafeStep(L, base, s, acts[0]);
      CommittedStays(L, s, acts[0]);
      Durability(L, base, m, acts[1..], t);
      assert t.trace[..s.committed] == t.trace[..m.committed][..s.committed];
      assert m.trace[..s.committed] == m.trace[..m.committed][..s.committed];
    }
  }

  /** When commit() returns, everything that was logged is durable and the disk shows it. */
  lemma CommitMakesDurable(L: Layout, base: seq<Block>, s: State)
    requires Inv(L, base, s) && s.phase.Done?
    ensures s.committed == |s.trace| && s.ops == map[]
    ensures TraceOk(L, s.trace) && forall b: nat :: Home(L, b) ==> s.disk[b] == Replay(base, s.trace)[b]
  {
    hide Header, DurableOk, HoldsOk;
    forall b: nat | Home(L, b) ensures s.disk[b] == Replay(base, s.trace)[b] {
    }
  }

  // ---- recovery -----------------------------------------------------------------------------

  /** What happens between power-on and the first operation: the steps of recover_from_log,
      buffer traffic, and more crashes. */
  predicate RecoveryAction(a: Action) {
    a.ReadHead? || a.InstallBlock? || a.EraseHead? || a.Crash? || a.Get? || a.Recycle? || a.Fill? || a.Release?
  }

  /** Idle here means that recovery has finished and nothing was done since. */
  ghost predicate Rebooting(s: State) {
    (s.ops == map[] && s.lh == [] && s.committed == |s.trace| && s.phase.Idle?) || Recovering(s.phase)
  }

  lemma RecoveryStep(L: Layout, base: seq<Block>, s: State, a: Action)
    requires Inv(L, base, s) && Enabled(L, s, a) && RecoveryAction(a) && Rebooting(s)
    ensures Rebooting(Do(L, s, a)) && Do(L, s, a).trace == s.trace
  {
    hide OpsOk, HistoryOk, CacheOk, CurrentOk, LogOk, DurableOk, HoldsOk, Header, WithHeader, Home, GoodHeader, HeldValid;
    RebootingIsCommitted(L, base, s);
    assert s.trace[..s.committed] == s.trace;
  }

  lemma RebootingIsCommitted(L: Layout, base: seq<Block>, s: State)
    requires Inv(L, base, s) && Rebooting(s)
    ensures s.ops == map[] && s.committed == |s.trace|
  {
    hide CacheOk, CurrentOk, LogOk, DurableOk, HoldsOk, Header;
  }

  lemma {:induction false} RecoveryRun(L: Layout, base: seq<Block>, s: State, acts: seq<Action>, t: State)
    requires Inv(L, base, s) && Rebooting(s) && Run(L, s, acts, t)
    requires forall i :: 0 <= i < |acts| ==> RecoveryAction(acts[i])
    ensures Inv(L, base, t) && Rebooting(t) && t.trace == s.trace
    decreases |acts|
  {
    hide OpsOk, HistoryOk, CacheOk, CurrentOk, LogOk, DurableOk, HoldsOk, Header;
    if acts != [] {
      KeepStep(L, base, s, acts[0]);
      RecoveryStep(L, base, s, acts[0]);
      RecoveryRun(L, base, Do(L, s, acts[0]), acts[1..], t);
    }
  }

  /** A crash at any point s of any run, then recovery interrupted by any number of further
      crashes: once recovery is through, every home block holds what Recovered promised at s,
      and the log is empty. */
  lemma RecoveryRestores(L: Layout, disk: seq<Block>, acts: seq<Action>, s: State, again: seq<Action>, t: State)
    requires Bootable(L, disk) && Run(L, Initial(disk), acts, s) && (Ample(L) || Within(L, Initial(disk), acts))
    requires Run(L, Crashed(s), again, t) && forall i :: 0 <= i < |again| ==> RecoveryAction(again[i])
    requires t.phase.Idle?
    ensures Bootable(L, s.disk) && Bootable(L, t.disk)
    ensures Header(t.disk[L.start]) == []
    ensures forall b: nat :: Home(L, b) ==> t.disk[b] == Recovered(L, s.disk, b)
  {
    hide Inv, Header, Recovered, Run, Within, Safe, Sound, Ample;
    var base := Image(L, disk);
    SafeInitial(L, disk);
    RunSafe(L, base, Initial(disk), acts, s);
    SafeSound(L, base, s);
    SoundCrash(L, base, s);
    RecoveryRun(L, base, Crashed(s), again, t);
    RecoveredDisk(L, base, s, t);
  }

  lemma RecoveredDisk(L: Layout, base: seq<Block>, s: State, t: State)
    requires Sound(L, base, s) && Inv(L, base, t) && t.trace == Crashed(s).trace && Rebooting(t) && t.phase.Idle?
    ensures Bootable(L, s.disk) && Bootable(L, t.disk) && Header(t.disk[L.start]) == []
    ensures forall b: nat :: Home(L, b) ==> t.disk[b] == Recovered(L, s.disk, b)
  {
    hide CacheOk, CurrentOk, HoldsOk, OpsOk, HistoryOk, Header, Recovered;
    var kept := Replay(base, s.trace[..s.committed]);
    assert t.trace[..t.committed] == t.trace == s.trace[..s.committed];
    forall b: nat | Home(L, b) ensures t.disk[b] == Recovered(L, s.disk, b) {
      DurableIsRecovered(L, s.disk, kept, b);
    }
  }

  // ---- when log_write panics -----------------------------------------------------------------

  /** With room for LOGSIZE blocks behind the header, no operation that stays within
      MAXOPBLOCKS calls ever meets a panic in log_write, and end_op never meets committing. */
  lemma NoPanic(L: Layout, disk: seq<Block>, acts: seq<Action>, t: State, pid: Pid)
    requires Roomy(L) && Bootable(L, disk) && Run(L, Initial(disk), acts, t)
    requires pid in t.ops
    ensures t.ops[pid].used < MAXOPBLOCKS ==> !LogWritePanics(L, t)
    ensures !t.committing
  {
    hide HistoryOk, CacheOk, CurrentOk, LogOk, DurableOk, HoldsOk, Header, Run, Within;
    InitialInv(L, disk);
    FittingIsWithin(L, Image(L, disk), Initial(disk), acts, t);
    RunInv(L, Image(L, disk), Initial(disk), acts, t);
    CreditRemove(t.ops, pid);
    CreditBounds(t.ops - {pid});
    SizeRemove(t.ops, pid);
  }

  // ---- when bget panics ---------------------------------------------------------------------------

  /** write_log, at any of its rounds, while nobody else has a buffer: bget has none for the log block
      exactly if the transaction lists as many blocks as there are buffers. */
  lemma CommitStarvesIff(L: Layout, disk: seq<Block>, acts: seq<Action>, t: State)
    requires Bootable(L, disk) && Run(L, Initial(disk), acts, t) && (Ample(L) || Within(L, Initial(disk), acts))
    requires t.phase.WriteLog? && t.phase.tail < |t.lh| && forall b :: b in t.cache ==> t.cache[b].holder.None?
    ensures NoBuffer(t, L.start + 1 + t.phase.tail) <==> |t.lh| == NBUF
  {
    hide Header, Recovered, Run, Within, Ample, HistoryOk, CacheOk, CurrentOk, LogOk, DurableOk, HoldsOk, Sound;
    var base := Image(L, disk);
    SafeInitial(L, disk);
    RunSafe(L, base, Initial(disk), acts, t);
    StarvedIff(L, base, t, L.start + 1 + t.phase.tail);
  }
}
