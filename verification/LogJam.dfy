/** What a transaction that outgrows the log region does when all buffers are pinned by it: the commit
    waits for a buffer that bget does not have, and the disk stays as it is. */
module LogJam {
  import opened Wrappers
  import opened Blocks
  import opened LogMachine
  import opened LogInvariant
  import opened LogProof

  /** The part of the invariant that crashes need: the disk and the history. */
  ghost predicate Sound(L: Layout, base: seq<Block>, s: State) {
    && ValidLayout(L) && |base| == |s.disk| == L.nblocks && s.committed <= |s.trace| && TraceOk(L, s.trace)
    && HistoryOk(s.trace, s.committed, s.nextOp, s.ops, s.lh, s.phase)
    && GoodHeader(L, Header(s.disk[L.start]))
    && DurableOk(L, s.disk, Header(s.disk[L.start]), Replay(base, s.trace[..s.committed]))
  }

  /** Every buffer belongs to a block of the transaction, and commit has copied none of them. */
  ghost predicate Jammed(L: Layout, base: seq<Block>, s: State) {
    && Sound(L, base, s) && 2 <= L.size
    && |s.lh| == NBUF && Distinct(s.lh) && s.cache.Keys == (set b | b in s.lh)
    && (forall b :: b in s.cache ==> Home(L, b) && s.cache[b].dirty)
    && (s.phase.Idle? || (s.phase == WriteLog(0) && s.ops == map[]))
    && s.outstanding == |s.ops| && (s.committing <==> !s.phase.Idle?)
  }

  lemma InvSound(L: Layout, base: seq<Block>, s: State)
    requires Inv(L, base, s)
    ensures Sound(L, base, s)
  {
    hide CacheOk, CurrentOk, OpsOk, HoldsOk, HistoryOk, DurableOk, Header;
  }

  /** After a crash in a sound state all is in order again. */
  lemma SoundCrash(L: Layout, base: seq<Block>, s: State)
    requires Sound(L, base, s)
    ensures Inv(L, base, Crashed(s))
  {
    hide Header, DurableOk, HistoryOk;
    var t := Crashed(s);
    CrashHistory(s);
    assert t.trace[..t.committed] == s.trace[..s.committed];
    assert OpsOk(L, t.ops, t.outstanding, t.committing, t.phase, t.lh);
    assert CacheOk(L, t.cache, t.disk, t.ops, t.lh, t.phase);
  }

  // ---- the number of buffers -------------------------------------------------------------------------

  lemma BuffersFit(L: Layout, s: State, a: Action)
    requires ValidLayout(L) && |s.disk| == L.nblocks && Enabled(L, s, a) && |s.cache| <= NBUF
    ensures |Do(L, s, a).cache| <= NBUF
  {
    hide Header, WithHeader, Do, Enabled;
    if a.Recycle? || a.Crash? {
      OtherBuffers(L, s, a);
    } else {
      SameBuffers(L, s, a);
      var t := Do(L, s, a);
      assert |t.cache| == |t.cache.Keys| && |s.cache| == |s.cache.Keys|;
    }
  }

  lemma OtherBuffers(L: Layout, s: State, a: Action)
    requires ValidLayout(L) && |s.disk| == L.nblocks && Enabled(L, s, a) && |s.cache| <= NBUF && (a.Recycle? || a.Crash?)
    ensures |Do(L, s, a).cache| <= NBUF
  {
    if a.Recycle? && a.victim.Some? {
      SizeRemove(s.cache, a.victim.value);
    }
  }

  lemma SameBuffers(L: Layout, s: State, a: Action)
    requires ValidLayout(L) && |s.disk| == L.nblocks && Enabled(L, s, a) && !a.Recycle? && !a.Crash?
    ensures Do(L, s, a).cache.Keys == s.cache.Keys
  {
    hide Header, WithHeader;
  }

  // ---- the way into the jam ----------------------------------------------------------------------------

  /** The transaction fills the region and the cache at once. */
  lemma JamBegins(L: Layout, base: seq<Block>, s: State, pid: Pid, b: nat)
    requires Inv(L, base, s) && Enabled(L, s, LogWrite(pid, b)) && Overflows(L, s, LogWrite(pid, b))
    requires NBUF <= L.size && |s.cache| <= NBUF
    ensures Jammed(L, base, Logged(s, pid, b))
  {
    hide Header, CurrentOk, DurableOk, HistoryOk, LogOk, HoldsOk, Credit, CacheOk, OpsOk, GoodHeader;
    var t := Logged(s, pid, b);
    InvSound(L, base, s);
    LastSlot(L, s, pid, b);
    LogWriteHistory(s, pid, b);
    SameOps(L, s, LogWrite(pid, b));
    ListPinned(L, s, pid, b);
    AllPinned(t);
  }

  lemma LastSlot(L: Layout, s: State, pid: Pid, b: nat)
    requires OpsOk(L, s.ops, s.outstanding, s.committing, s.phase, s.lh) && pid in s.ops && s.ops[pid].checked
    requires b !in s.lh && |s.lh| + 1 >= L.size >= NBUF && Home(L, b)
    ensures s.phase.Idle? && !s.committing && s.outstanding == |s.ops| && |s.lh| + 1 == NBUF
    ensures Distinct(s.lh + [b]) && forall c :: c in s.lh ==> Home(L, c)
  {
    hide Credit;
    CreditRemove(s.ops, pid);
    CreditBounds(s.ops - {pid});
  }

  /** With the new block, all listed blocks are cached and dirty. */
  lemma ListPinned(L: Layout, s: State, pid: Pid, b: nat)
    requires |s.disk| == L.nblocks && CacheOk(L, s.cache, s.disk, s.ops, s.lh, s.phase) && s.phase.Idle?
    requires pid in s.ops && b in s.cache && b !in s.lh
    ensures var t := Logged(s, pid, b); t.lh == s.lh + [b] && forall c :: c in t.lh ==> c in t.cache && t.cache[c].dirty
  {
  }

  /** NBUF blocks in the list, each with a buffer: these are all the buffers there are. */
  lemma AllPinned(s: State)
    requires |s.lh| >= NBUF && Distinct(s.lh) && |s.cache| <= NBUF
    requires forall b :: b in s.lh ==> b in s.cache
    ensures s.cache.Keys == (set b | b in s.lh) && |s.lh| == NBUF == |s.cache|
  {
    var listed := set b | b in s.lh;
    DistinctCount(s.lh, listed);
    assert listed <= s.cache.Keys && |s.cache| == |s.cache.Keys|;
    AllOfIt(listed, s.cache.Keys);
  }

  lemma PinnedFit(s: State)
    requires |s.lh| == NBUF && Distinct(s.lh) && s.cache.Keys == (set b | b in s.lh)
    ensures |s.cache| == NBUF
  {
    DistinctCount(s.lh, s.cache.Keys);
    assert |s.cache| == |s.cache.Keys|;
  }

  // ---- no way out but a crash -----------------------------------------------------------------------------

  /** Operations go on with the blocks they have, and end. */
  lemma JamAllows(L: Layout, base: seq<Block>, s: State, a: Action)
    requires Jammed(L, base, s) && Enabled(L, s, a)
    ensures a.EndOp? || a.Change? || a.LogWrite? || a.Get? || a.Fill? || a.Release? || a.Crash?
  {
    hide Sound, Header, Distinct;
    forall b | b in s.lh ensures b in s.cache {
      assert b in s.cache.Keys;
    }
    PinnedFit(s);
    AllPinned(s);
    assert L.start + 1 !in s.cache;
  }

  lemma JamStep(L: Layout, base: seq<Block>, s: State, a: Action)
    requires Jammed(L, base, s) && Enabled(L, s, a) && !a.Crash?
    ensures Jammed(L, base, Do(L, s, a))
  {
    hide Header, DurableOk, HistoryOk, GoodHeader, Jammed, Sound, Enabled, Do;
    JamAllows(L, base, s, a);
    match a
    case EndOp(pid) => JamEnd(L, base, s, pid);
    case Change(pid, b, data) => JamChange(L, base, s, pid, b, data);
    case LogWrite(pid, b) => JamLogWrite(L, base, s, pid, b);
    case _ => JamBuffer(L, base, s, a);
  }

  lemma JamEnd(L: Layout, base: seq<Block>, s: State, pid: Pid)
    requires Jammed(L, base, s) && Enabled(L, s, EndOp(pid))
    ensures Jammed(L, base, Do(L, s, EndOp(pid)))
  {
    hide Header, DurableOk, HistoryOk, GoodHeader, Distinct;
    EndHistory(s, pid);
    SizeRemove(s.ops, pid);
  }

  lemma JamChange(L: Layout, base: seq<Block>, s: State, pid: Pid, b: nat, data: Block)
    requires Jammed(L, base, s) && Enabled(L, s, Change(pid, b, data))
    ensures Jammed(L, base, Do(L, s, Change(pid, b, data)))
  {
    hide Header, DurableOk, HistoryOk, GoodHeader, Distinct;
    ChangeHistory(s, pid, b, data);
    ReplayAppend(L, base, s.trace, s.committed, Update(s.ops[pid].id, b, data));
    SameOps(L, s, Change(pid, b, data));
  }

  lemma JamLogWrite(L: Layout, base: seq<Block>, s: State, pid: Pid, b: nat)
    requires Jammed(L, base, s) && Enabled(L, s, LogWrite(pid, b))
    ensures Jammed(L, base, Do(L, s, LogWrite(pid, b)))
  {
    hide Header, DurableOk, HistoryOk, GoodHeader, Distinct;
    LogWriteHistory(s, pid, b);
    SameOps(L, s, LogWrite(pid, b));
    assert b in s.cache.Keys && b in s.lh;
  }

  lemma JamBuffer(L: Layout, base: seq<Block>, s: State, a: Action)
    requires Jammed(L, base, s) && Enabled(L, s, a) && (a.Get? || a.Fill? || a.Release?)
    ensures Jammed(L, base, Do(L, s, a))
  {
    hide Header, DurableOk, HistoryOk, GoodHeader, Distinct;
    assert Do(L, s, a).cache.Keys == s.cache.Keys;
  }

  lemma SameOps(L: Layout, s: State, a: Action)
    requires ValidLayout(L) && |s.disk| == L.nblocks && Enabled(L, s, a) && (a.Change? || a.LogWrite?)
    ensures |Do(L, s, a).ops| == |s.ops| && Do(L, s, a).cache.Keys == s.cache.Keys
  {
    var t := Do(L, s, a);
    assert t.ops.Keys == s.ops.Keys;
    assert |t.ops| == |t.ops.Keys| && |s.ops| == |s.ops.Keys|;
  }

  // ---- both together --------------------------------------------------------------------------------------

  /** What every run keeps, on ample layouts whatever the operations do. */
  ghost predicate Safe(L: Layout, base: seq<Block>, s: State) {
    |s.cache| <= NBUF && (Inv(L, base, s) || Jammed(L, base, s))
  }

  lemma SafeSound(L: Layout, base: seq<Block>, s: State)
    requires Safe(L, base, s)
    ensures Sound(L, base, s)
  {
    hide Inv, Sound;
    if Inv(L, base, s) {
      InvSound(L, base, s);
    }
  }

  // ---- when commit finds no buffer ------------------------------------------------------------------------

  /** Block b of the log region, wanted by write_log while nobody has a buffer: bget panics exactly if
      the transaction has as many blocks as there are buffers. */
  lemma StarvedIff(L: Layout, base: seq<Block>, s: State, b: nat)
    requires Safe(L, base, s) && s.phase.WriteLog? && L.start <= b < L.start + L.size
    requires forall c :: c in s.cache ==> s.cache[c].holder.None?
    ensures NoBuffer(s, b) <==> |s.lh| == NBUF
  {
    hide Header, CurrentOk, DurableOk, HistoryOk, LogOk, HoldsOk, Credit;
    PinnedAre(L, base, s);
    var listed := set c | c in s.lh;
    DistinctCount(s.lh, listed);
    assert |s.cache| == |s.cache.Keys|;
    if |s.lh| == NBUF {
      AllPinned(s);
      assert b !in s.cache.Keys;
      assert forall c :: c in s.cache ==> c in s.cache.Keys && !Reusable(s, c);
    }
    if NoBuffer(s, b) {
      forall c | c in s.cache ensures c in listed {
        assert !Reusable(s, c);
      }
      assert listed == s.cache.Keys;
    }
  }

  /** While write_log is at work the dirty buffers are those of the list. */
  lemma PinnedAre(L: Layout, base: seq<Block>, s: State)
    requires Safe(L, base, s) && s.phase.WriteLog?
    ensures Distinct(s.lh) && |s.lh| <= NBUF && (forall i :: 0 <= i < |s.lh| ==> Home(L, s.lh[i]))
    ensures forall c :: c in s.lh ==> c in s.cache && s.cache[c].dirty
    ensures forall c :: c in s.cache && s.cache[c].dirty ==> c in s.lh
  {
    hide Header, CurrentOk, DurableOk, HistoryOk, LogOk, HoldsOk, Credit;
    if Inv(L, base, s) {
      CreditBounds(s.ops);
    }
  }
}
