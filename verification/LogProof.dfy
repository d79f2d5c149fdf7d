/** Every action keeps the invariant; hence crash atomicity over all runs. */
module LogProof {
  import opened Wrappers
  import opened Blocks
  import opened LogMachine
  import opened LogInvariant

  // ---- actions on buffers only ---------------------------------------------------------

  /** A step that changes nothing but the cache keeps the rest of the invariant. */
  lemma KeepCacheStep(L: Layout, base: seq<Block>, s: State, t: State)
    requires Inv(L, base, s)
    requires t == s.(cache := t.cache)
    requires HoldsOk(L, t.cache, s.ops)
    requires CacheOk(L, t.cache, s.disk, s.ops, s.lh, s.phase)
    requires !Recovering(s.phase) ==> CurrentOk(L, t.cache, s.disk, s.ops, Replay(base, s.trace))
    ensures Inv(L, base, t)
  {
  }

  /** A buffer whose contents and flags stay may change hands, unless it is held unlogged. */
  lemma HolderStep(L: Layout, cache: map<nat, Buf>, disk: seq<Block>, ops: map<Pid, Op>, lh: seq<nat>, phase: Phase,
                   b: nat, holder: Option<Pid>)
    requires |disk| == L.nblocks && b in cache
    requires HoldsOk(L, cache, ops) && CacheOk(L, cache, disk, ops, lh, phase)
    requires forall p :: p in ops && b in ops[p].unlogged ==> holder == Some(p)
    ensures HoldsOk(L, cache[b := cache[b].(holder := holder)], ops)
    ensures CacheOk(L, cache[b := cache[b].(holder := holder)], disk, ops, lh, phase)
    ensures forall now: seq<Block> :: |now| == L.nblocks && CurrentOk(L, cache, disk, ops, now) ==>
              CurrentOk(L, cache[b := cache[b].(holder := holder)], disk, ops, now)
  {
  }

  lemma SetHolderKeeps(L: Layout, base: seq<Block>, s: State, b: nat, holder: Option<Pid>)
    requires Inv(L, base, s) && b in s.cache
    requires forall p :: p in s.ops && b in s.ops[p].unlogged ==> holder == Some(p)
    ensures Inv(L, base, SetHolder(s, b, holder))
  {
    HolderStep(L, s.cache, s.disk, s.ops, s.lh, s.phase, b, holder);
    KeepCacheStep(L, base, s, SetHolder(s, b, holder));
  }

  lemma FillStep(L: Layout, cache: map<nat, Buf>, disk: seq<Block>, ops: map<Pid, Op>, lh: seq<nat>, phase: Phase, b: nat)
    requires |disk| == L.nblocks && b in cache && b < L.nblocks && !cache[b].valid
    requires HoldsOk(L, cache, ops) && CacheOk(L, cache, disk, ops, lh, phase)
    ensures var c := cache[b := cache[b].(valid := true, data := disk[b])];
      && HoldsOk(L, c, ops) && CacheOk(L, c, disk, ops, lh, phase)
      && forall now: seq<Block> :: |now| == L.nblocks && CurrentOk(L, cache, disk, ops, now) ==> CurrentOk(L, c, disk, ops, now)
  {
  }

  lemma KeepFill(L: Layout, base: seq<Block>, s: State, pid: Pid, b: nat)
    requires Inv(L, base, s) && Enabled(L, s, Fill(pid, b))
    ensures Inv(L, base, Do(L, s, Fill(pid, b)))
  {
    FillStep(L, s.cache, s.disk, s.ops, s.lh, s.phase, b);
    KeepCacheStep(L, base, s, Do(L, s, Fill(pid, b)));
  }
  lemma DropStep(L: Layout, cache: map<nat, Buf>, disk: seq<Block>, ops: map<Pid, Op>, lh: seq<nat>, phase: Phase, b: nat)
    requires |disk| == L.nblocks && b in cache && !cache[b].dirty && cache[b].holder.None?
    requires HoldsOk(L, cache, ops) && CacheOk(L, cache, disk, ops, lh, phase)
    ensures HoldsOk(L, cache - {b}, ops) && CacheOk(L, cache - {b}, disk, ops, lh, phase)
    ensures forall now: seq<Block> :: |now| == L.nblocks && CurrentOk(L, cache, disk, ops, now) ==>
              CurrentOk(L, cache - {b}, disk, ops, now)
  {
  }

  lemma AddStep(L: Layout, cache: map<nat, Buf>, disk: seq<Block>, ops: map<Pid, Op>, lh: seq<nat>, phase: Phase, b: nat, buf: Buf)
    requires |disk| == L.nblocks && b !in cache && b < L.nblocks && !buf.valid && !buf.dirty
    requires HoldsOk(L, cache, ops) && CacheOk(L, cache, disk, ops, lh, phase)
    ensures HoldsOk(L, cache[b := buf], ops) && CacheOk(L, cache[b := buf], disk, ops, lh, phase)
    ensures forall now: seq<Block> :: |now| == L.nblocks && CurrentOk(L, cache, disk, ops, now) ==>
              CurrentOk(L, cache[b := buf], disk, ops, now)
  {
  }

  lemma KeepRecycle(L: Layout, base: seq<Block>, s: State, pid: Pid, victim: Option<nat>, b: nat)
    requires Inv(L, base, s) && Enabled(L, s, Recycle(pid, victim, b))
    ensures Inv(L, base, Recycled(s, pid, victim, b))
  {
    var t := Recycled(s, pid, victim, b);
    var rest := s.cache;
    if victim.Some? {
      DropStep(L, s.cache, s.disk, s.ops, s.lh, s.phase, victim.value);
      rest := s.cache - {victim.value};
    }
    AddStep(L, rest, s.disk, s.ops, s.lh, s.phase, b, t.cache[b]);
    KeepCacheStep(L, base, s, t);
  }

  // ---- begin_op, log_write, end_op -------------------------------------------------------

  ghost predicate SameUnlogged(ops: map<Pid, Op>, ops': map<Pid, Op>) {
    forall b :: Unlogged(ops, b) <==> Unlogged(ops', b)
  }

  lemma UnloggedPut(ops: map<Pid, Op>, p: Pid, op: Op)
    requires p in ops ==> op.unlogged == ops[p].unlogged
    requires p !in ops ==> op.unlogged == {}
    ensures SameUnlogged(ops, ops[p := op])
  {
    var ops' := ops[p := op];
    forall b ensures Unlogged(ops, b) <==> Unlogged(ops', b) {
      if Unlogged(ops, b) {
        var q :| q in ops && b in ops[q].unlogged;
        assert q in ops' && b in ops'[q].unlogged;
      }
      if Unlogged(ops', b) {
        var q :| q in ops' && b in ops'[q].unlogged;
        assert q in ops && b in ops[q].unlogged;
      }
    }
  }

  /** The buffers do not notice a step that leaves the unlogged blocks as they are. */
  lemma OpsStep(L: Layout, cache: map<nat, Buf>, disk: seq<Block>, ops: map<Pid, Op>, ops': map<Pid, Op>, lh: seq<nat>, phase: Phase)
    requires |disk| == L.nblocks && SameUnlogged(ops, ops')
    requires CacheOk(L, cache, disk, ops, lh, phase)
    ensures CacheOk(L, cache, disk, ops', lh, phase)
    ensures forall now: seq<Block> :: |now| == L.nblocks && CurrentOk(L, cache, disk, ops, now) ==> CurrentOk(L, cache, disk, ops', now)
  {
  }

  lemma KeepBegin(L: Layout, base: seq<Block>, s: State, pid: Pid)
    requires Inv(L, base, s) && Enabled(L, s, BeginOp(pid))
    ensures Inv(L, base, Begun(s, pid))
  {
    var t := Begun(s, pid);
    BeginOps(L, s, pid);
    BeginHistory(L, s, pid);
    UnloggedPut(s.ops, pid, t.ops[pid]);
    OpsStep(L, s.cache, s.disk, s.ops, t.ops, s.lh, s.phase);
  }

  lemma BeginOps(L: Layout, s: State, pid: Pid)
    requires OpsOk(L, s.ops, s.outstanding, s.committing, s.phase, s.lh)
    requires s.phase.Idle? && pid !in s.ops && |s.lh| + (s.outstanding + 1) * MAXOPBLOCKS <= LOGSIZE
    ensures var t := Begun(s, pid); OpsOk(L, t.ops, t.outstanding, t.committing, t.phase, t.lh)
  {
    hide GoodHeader, Credit;
    var t := Begun(s, pid);
    CreditPut(s.ops, pid, t.ops[pid]);
    assert s.ops - {pid} == s.ops;
    CreditBounds(s.ops);
    assert Credit(t.ops) == MAXOPBLOCKS + Credit(s.ops) <= (s.outstanding + 1) * MAXOPBLOCKS;
  }

  lemma BeginHistory(L: Layout, s: State, pid: Pid)
    requires HistoryOk(s.trace, s.committed, s.nextOp, s.ops, s.lh, s.phase) && HoldsOk(L, s.cache, s.ops)
    requires s.phase.Idle? && pid !in s.ops
    ensures var t := Begun(s, pid);
      HistoryOk(t.trace, t.committed, t.nextOp, t.ops, t.lh, t.phase) && HoldsOk(L, t.cache, t.ops)
  {
    UnloggedPut(s.ops, pid, Begun(s, pid).ops[pid]);
  }

  lemma CheckOps(L: Layout, s: State, pid: Pid, op: Op)
    requires OpsOk(L, s.ops, s.outstanding, s.committing, s.phase, s.lh)
    requires pid in s.ops && op == s.ops[pid].(checked := true) && op.used < MAXOPBLOCKS && 2 <= L.size
    ensures OpsOk(L, s.ops[pid := op], s.outstanding, s.committing, s.phase, s.lh)
  {
    CreditPut(s.ops, pid, op);
    CreditRemove(s.ops, pid);
    assert s.ops[pid := op].Keys == s.ops.Keys;
    assert |s.ops[pid := op]| == |s.ops[pid := op].Keys|;
  }

  lemma CheckHistory(L: Layout, s: State, pid: Pid, op: Op)
    requires HistoryOk(s.trace, s.committed, s.nextOp, s.ops, s.lh, s.phase)
    requires pid in s.ops && op == s.ops[pid].(checked := true) && s.phase.Idle?
    ensures HistoryOk(s.trace, s.committed, s.nextOp, s.ops[pid := op], s.lh, s.phase)
  {
    UnloggedPut(s.ops, pid, op);
  }

  lemma CheckHolds(L: Layout, cache: map<nat, Buf>, ops: map<Pid, Op>, pid: Pid, op: Op)
    requires HoldsOk(L, cache, ops)
    requires pid in ops && op == ops[pid].(checked := true)
    ensures HoldsOk(L, cache, ops[pid := op])
  {
  }

  lemma KeepCheck(L: Layout, base: seq<Block>, s: State, pid: Pid)
    requires Inv(L, base, s) && Enabled(L, s, LogCheck(pid))
    ensures Inv(L, base, Do(L, s, LogCheck(pid)))
  {
    var t := Do(L, s, LogCheck(pid));
    CheckOps(L, s, pid, t.ops[pid]);
    CheckHistory(L, s, pid, t.ops[pid]);
    CheckHolds(L, s.cache, s.ops, pid, t.ops[pid]);
    UnloggedPut(s.ops, pid, t.ops[pid]);
    OpsStep(L, s.cache, s.disk, s.ops, t.ops, s.lh, s.phase);
  }

  lemma UnloggedDrop(ops: map<Pid, Op>, p: Pid)
    requires p in ops && ops[p].unlogged == {}
    ensures SameUnlogged(ops, ops - {p})
  {
    var ops' := ops - {p};
    forall b ensures Unlogged(ops, b) <==> Unlogged(ops', b) {
      if Unlogged(ops, b) {
        var q :| q in ops && b in ops[q].unlogged;
        assert q in ops' && b in ops'[q].unlogged;
      }
      if Unlogged(ops', b) {
        var q :| q in ops' && b in ops'[q].unlogged;
        assert q in ops && b in ops[q].unlogged;
      }
    }
  }

  lemma DropHolds(L: Layout, cache: map<nat, Buf>, ops: map<Pid, Op>, p: Pid)
    requires HoldsOk(L, cache, ops)
    ensures HoldsOk(L, cache, ops - {p})
  {
  }

  lemma EndOps(L: Layout, s: State, pid: Pid)
    requires OpsOk(L, s.ops, s.outstanding, s.committing, s.phase, s.lh) && pid in s.ops
    ensures var t := Leave(s, pid); OpsOk(L, t.ops, t.outstanding, t.committing, t.phase, t.lh)
  {
    CreditRemove(s.ops, pid);
    SizeRemove(s.ops, pid);
  }

  lemma EndHistory(s: State, pid: Pid)
    requires HistoryOk(s.trace, s.committed, s.nextOp, s.ops, s.lh, s.phase)
    requires pid in s.ops && s.ops[pid].unlogged == {} && s.phase.Idle? && s.outstanding == |s.ops|
    ensures var t := Leave(s, pid); HistoryOk(t.trace, t.committed, t.nextOp, t.ops, t.lh, t.phase)
  {
    var t := Leave(s, pid);
    UnloggedDrop(s.ops, pid);
    SizeRemove(s.ops, pid);
    assert t.committed < |t.trace| ==> t.trace[t.committed].block in t.lh || Unlogged(t.ops, t.trace[t.committed].block);
    assert t.outstanding == 0 ==> forall b :: !Unlogged(t.ops, b);
  }

  /** Entering commit() changes no block: the tail starts at 0. */
  lemma EndCache(L: Layout, cache: map<nat, Buf>, disk: seq<Block>, ops: map<Pid, Op>, lh: seq<nat>, phase: Phase, now: seq<Block>)
    requires ValidLayout(L) && |disk| == |now| == L.nblocks && GoodHeader(L, lh)
    requires CacheOk(L, cache, disk, ops, lh, Idle) && LogOk(L, disk, [], lh, Idle, now)
    requires phase == Idle || phase == WriteLog(0) || (phase == Done && lh == [])
    ensures CacheOk(L, cache, disk, ops, lh, phase) && LogOk(L, disk, [], lh, phase, now)
  {
  }

  lemma KeepEnd(L: Layout, base: seq<Block>, s: State, pid: Pid)
    requires Inv(L, base, s) && Enabled(L, s, EndOp(pid))
    ensures Inv(L, base, Leave(s, pid))
  {
    hide CurrentOk, DurableOk, GoodHeader, Header;
    var t := Leave(s, pid);
    EndOps(L, s, pid);
    EndHistory(s, pid);
    UnloggedDrop(s.ops, pid);
    DropHolds(L, s.cache, s.ops, pid);
    OpsStep(L, s.cache, s.disk, s.ops, t.ops, s.lh, Idle);
    EndCache(L, s.cache, s.disk, t.ops, s.lh, t.phase, Replay(base, s.trace));
  }

  // ---- changing and logging a block --------------------------------------------------------

  lemma UnloggedGrow(ops: map<Pid, Op>, p: Pid, op: Op, b: nat)
    requires p in ops && op.unlogged == ops[p].unlogged + {b}
    ensures forall c :: Unlogged(ops[p := op], c) <==> Unlogged(ops, c) || c == b
  {
    var ops' := ops[p := op];
    forall c ensures Unlogged(ops', c) <==> Unlogged(ops, c) || c == b {
      if Unlogged(ops, c) {
        var q :| q in ops && c in ops[q].unlogged;
        assert q in ops' && c in ops'[q].unlogged;
      }
      assert b in ops'[p].unlogged;
      if Unlogged(ops', c) && c != b {
        var q :| q in ops' && c in ops'[q].unlogged;
        assert q in ops && c in ops[q].unlogged;
      }
    }
  }

  lemma ChangeOps(L: Layout, s: State, pid: Pid, op: Op)
    requires OpsOk(L, s.ops, s.outstanding, s.committing, s.phase, s.lh)
    requires pid in s.ops && op == s.ops[pid].(unlogged := op.unlogged)
    ensures OpsOk(L, s.ops[pid := op], s.outstanding, s.committing, s.phase, s.lh)
  {
    CreditPut(s.ops, pid, op);
    CreditRemove(s.ops, pid);
    assert s.ops[pid := op].Keys == s.ops.Keys;
    assert |s.ops[pid := op]| == |s.ops[pid := op].Keys|;
  }

  lemma ChangeHistory(s: State, pid: Pid, b: nat, data: Block)
    requires HistoryOk(s.trace, s.committed, s.nextOp, s.ops, s.lh, s.phase)
    requires pid in s.ops && b in s.cache && s.phase.Idle?
    ensures var t := Changed(s, pid, b, data); HistoryOk(t.trace, t.committed, t.nextOp, t.ops, t.lh, t.phase)
  {
    var t := Changed(s, pid, b, data);
    UnloggedGrow(s.ops, pid, t.ops[pid], b);
  }

  lemma ChangeHolds(L: Layout, cache: map<nat, Buf>, ops: map<Pid, Op>, pid: Pid, op: Op, b: nat, data: Block)
    requires HoldsOk(L, cache, ops)
    requires pid in ops && op == ops[pid].(unlogged := ops[pid].unlogged + {b})
    requires Home(L, b) && b in cache && cache[b].valid && cache[b].holder == Some(pid)
    ensures HoldsOk(L, cache[b := cache[b].(data := data)], ops[pid := op])
  {
  }

  lemma ChangeCache(L: Layout, cache: map<nat, Buf>, disk: seq<Block>, ops: map<Pid, Op>, ops': map<Pid, Op>, lh: seq<nat>,
                    now: seq<Block>, b: nat, data: Block)
    requires |disk| == |now| == L.nblocks && b in cache && cache[b].valid && Home(L, b)
    requires CacheOk(L, cache, disk, ops, lh, Idle) && CurrentOk(L, cache, disk, ops, now)
    requires forall c :: Unlogged(ops', c) <==> Unlogged(ops, c) || c == b
    ensures CacheOk(L, cache[b := cache[b].(data := data)], disk, ops', lh, Idle)
    ensures CurrentOk(L, cache[b := cache[b].(data := data)], disk, ops', now[b := data])
  {
  }

  lemma ReplayAppend(L: Layout, base: seq<Block>, trace: seq<Update>, committed: nat, u: Update)
    requires TraceOk(L, trace) && Home(L, u.block) && |base| == L.nblocks && committed <= |trace|
    ensures TraceOk(L, trace + [u]) && (trace + [u])[..committed] == trace[..committed]
    ensures Replay(base, trace + [u]) == Replay(base, trace)[u.block := u.data]
  {
    assert (trace + [u])[..|trace|] == trace;
  }

  lemma KeepChange(L: Layout, base: seq<Block>, s: State, pid: Pid, b: nat, data: Block)
    requires Inv(L, base, s) && Enabled(L, s, Change(pid, b, data))
    ensures Inv(L, base, Changed(s, pid, b, data))
  {
    hide Header, GoodHeader, CacheOk, DurableOk, HistoryOk;
    var t := Changed(s, pid, b, data);
    var now := Replay(base, s.trace);
    ChangeOps(L, s, pid, t.ops[pid]);
    ChangeHistory(s, pid, b, data);
    ChangeHolds(L, s.cache, s.ops, pid, t.ops[pid], b, data);
    UnloggedGrow(s.ops, pid, t.ops[pid], b);
    ChangeCache(L, s.cache, s.disk, s.ops, t.ops, s.lh, now, b, data);
    ReplayAppend(L, base, s.trace, s.committed, Update(s.ops[pid].id, b, data));
    LogOkIdle(L, s.disk, s.lh, now, now[b := data]);
  }

  lemma LogOkIdle(L: Layout, disk: seq<Block>, lh: seq<nat>, now: seq<Block>, now': seq<Block>)
    requires ValidLayout(L) && |disk| == |now| == |now'| == L.nblocks && GoodHeader(L, lh)
    requires LogOk(L, disk, Header(disk[L.start]), lh, Idle, now)
    ensures LogOk(L, disk, Header(disk[L.start]), lh, Idle, now')
  {
  }

  lemma UnloggedShrink(ops: map<Pid, Op>, p: Pid, op: Op, b: nat)
    requires p in ops && op.unlogged == ops[p].unlogged - {b}
    ensures forall c :: Unlogged(ops, c) ==> Unlogged(ops[p := op], c) || c == b
    ensures forall c :: Unlogged(ops[p := op], c) ==> Unlogged(ops, c)
  {
    var ops' := ops[p := op];
    forall c | Unlogged(ops, c) && c != b ensures Unlogged(ops', c) {
      var q :| q in ops && c in ops[q].unlogged;
      assert q in ops' && c in ops'[q].unlogged;
    }
    forall c | Unlogged(ops', c) ensures Unlogged(ops, c) {
      var q :| q in ops' && c in ops'[q].unlogged;
      assert q in ops && c in ops[q].unlogged;
    }
  }

  /** The array write log.lh.block[i] = b->blockno stays in bounds: an operation with a log_write
      left has a free slot, whatever happened since its unlocked test. */
  lemma LogWriteOps(L: Layout, s: State, pid: Pid, b: nat)
    requires OpsOk(L, s.ops, s.outstanding, s.committing, s.phase, s.lh) && !Overflows(L, s, LogWrite(pid, b))
    requires pid in s.ops && s.ops[pid].checked && b in s.cache && Home(L, b)
    ensures var t := Logged(s, pid, b);
      |s.lh| < LOGSIZE && OpsOk(L, t.ops, t.outstanding, t.committing, t.phase, t.lh)
  {
    var t := Logged(s, pid, b);
    var op := t.ops[pid];
    CreditPut(s.ops, pid, op);
    CreditRemove(s.ops, pid);
    CreditBounds(s.ops - {pid});
    assert t.ops.Keys == s.ops.Keys;
    assert |t.ops| == |t.ops.Keys|;
  }

  /** On a fitting layout the region has the room as well. */
  lemma NoOverflow(L: Layout, base: seq<Block>, s: State, a: Action)
    requires Fitting(L) && Inv(L, base, s) && Enabled(L, s, a)
    ensures !Overflows(L, s, a)
  {
    hide HistoryOk, CacheOk, CurrentOk, LogOk, DurableOk, HoldsOk, Header;
    if a.LogWrite? {
      CreditRemove(s.ops, a.pid);
      CreditBounds(s.ops - {a.pid});
    }
  }

  lemma LogWriteHistory(s: State, pid: Pid, b: nat)
    requires HistoryOk(s.trace, s.committed, s.nextOp, s.ops, s.lh, s.phase)
    requires pid in s.ops && b in s.cache && s.phase.Idle?
    ensures var t := Logged(s, pid, b); HistoryOk(t.trace, t.committed, t.nextOp, t.ops, t.lh, t.phase)
  {
    var t := Logged(s, pid, b);
    UnloggedShrink(s.ops, pid, t.ops[pid], b);
    forall i | t.committed <= i < |t.trace| ensures t.trace[i].block in t.lh || Unlogged(t.ops, t.trace[i].block) {
      assert s.trace[i].block in s.lh || Unlogged(s.ops, s.trace[i].block);
    }
  }

  lemma LogWriteHolds(L: Layout, cache: map<nat, Buf>, ops: map<Pid, Op>, pid: Pid, op: Op, b: nat)
    requires HoldsOk(L, cache, ops)
    requires pid in ops && op.id == ops[pid].id && op.unlogged == ops[pid].unlogged - {b} && b in cache
    ensures HoldsOk(L, cache[b := cache[b].(dirty := true)], ops[pid := op])
  {
  }

  lemma LogWriteCache(L: Layout, cache: map<nat, Buf>, disk: seq<Block>, ops: map<Pid, Op>, ops': map<Pid, Op>, lh: seq<nat>,
                      now: seq<Block>, b: nat)
    requires |disk| == |now| == L.nblocks && b in cache && cache[b].valid
    requires CacheOk(L, cache, disk, ops, lh, Idle) && CurrentOk(L, cache, disk, ops, now)
    requires forall c :: Unlogged(ops, c) ==> Unlogged(ops', c) || c == b
    ensures CacheOk(L, cache[b := cache[b].(dirty := true)], disk, ops', if b in lh then lh else lh + [b], Idle)
    ensures CurrentOk(L, cache[b := cache[b].(dirty := true)], disk, ops', now)
  {
  }

  lemma KeepLogWrite(L: Layout, base: seq<Block>, s: State, pid: Pid, b: nat)
    requires Inv(L, base, s) && Enabled(L, s, LogWrite(pid, b)) && !Overflows(L, s, LogWrite(pid, b))
    ensures Inv(L, base, Logged(s, pid, b))
  {
    hide Header, CacheOk, CurrentOk, DurableOk, HistoryOk;
    var t := Logged(s, pid, b);
    LogWriteOps(L, s, pid, b);
    LogWriteHistory(s, pid, b);
    LogWriteHolds(L, s.cache, s.ops, pid, t.ops[pid], b);
    UnloggedShrink(s.ops, pid, t.ops[pid], b);
    LogWriteCache(L, s.cache, s.disk, s.ops, t.ops, s.lh, Replay(base, s.trace), b);
  }

  // ---- commit and recovery -------------------------------------------------------------

  function Synced(cache: map<nat, Buf>, b: nat, data: Block): map<nat, Buf>
    requires b in cache
  {
    cache[b := cache[b].(data := data, dirty := false, valid := true)]
  }

  /** Writing a block of the log region through the cache does not touch home blocks. */
  lemma LogRegionWrite(L: Layout, cache: map<nat, Buf>, disk: seq<Block>, lh: seq<nat>, phase: Phase, now: seq<Block>, c: nat, data: Block)
    requires |disk| == |now| == L.nblocks && c in cache && c < L.nblocks && !Home(L, c)
    requires forall i :: 0 <= i < |lh| ==> Home(L, lh[i])
    requires CacheOk(L, cache, disk, map[], lh, phase)
    ensures CacheOk(L, Synced(cache, c, data), disk[c := data], map[], lh, phase)
    ensures CurrentOk(L, cache, disk, map[], now) ==> CurrentOk(L, Synced(cache, c, data), disk[c := data], map[], now)
  {
    assert c !in lh;
  }

  lemma CopyLog(L: Layout, disk: seq<Block>, lh: seq<nat>, tail: nat, now: seq<Block>, kept: seq<Block>, data: Block)
    requires ValidLayout(L) && |disk| == |now| == |kept| == L.nblocks && GoodHeader(L, lh) && tail < |lh|
    requires LogOk(L, disk, Header(disk[L.start]), lh, WriteLog(tail), now)
    requires DurableOk(L, disk, Header(disk[L.start]), kept)
    requires data == now[lh[tail]]
    ensures var disk' := disk[L.start + 1 + tail := data];
      && LogOk(L, disk', Header(disk'[L.start]), lh, WriteLog(tail + 1), now)
      && DurableOk(L, disk', Header(disk'[L.start]), kept)
  {
  }

  /** The next phase of write_log, or the first of install_trans, asks no more of the cache. */
  lemma CachePhase(L: Layout, cache: map<nat, Buf>, disk: seq<Block>, lh: seq<nat>, tail: nat, phase: Phase)
    requires |disk| == L.nblocks && CacheOk(L, cache, disk, map[], lh, WriteLog(tail))
    requires phase == WriteLog(tail + 1) || phase == Install(0, false)
    ensures CacheOk(L, cache, disk, map[], lh, phase)
  {
  }

  /** The parts of the invariant that commit() and recovery work on, once no operation is active. */
  ghost predicate Parts(L: Layout, s: State, now: seq<Block>, kept: seq<Block>) {
    && ValidLayout(L) && |s.disk| == |now| == |kept| == L.nblocks
    && GoodHeader(L, s.lh)
    && CacheOk(L, s.cache, s.disk, map[], s.lh, s.phase)
    && (!Recovering(s.phase) ==> CurrentOk(L, s.cache, s.disk, map[], now))
    && LogOk(L, s.disk, Header(s.disk[L.start]), s.lh, s.phase, now)
    && DurableOk(L, s.disk, Header(s.disk[L.start]), kept)
  }

  /** With no operation active, a step of commit() or of recovery has these parts to keep. */
  lemma CommitStep(L: Layout, base: seq<Block>, s: State, t: State)
    requires Inv(L, base, s) && s.ops == map[] && !s.phase.Idle?
    requires t == s.(disk := t.disk, cache := t.cache, lh := t.lh, phase := t.phase, committed := t.committed)
    requires |t.disk| == L.nblocks && t.committed <= |t.trace|
    requires t.phase.WriteLog? || t.committed == |t.trace|
    requires t.phase.WriteLog? ==> t.committed == s.committed && t.lh == s.lh
    requires s.committing <==> !t.phase.Idle? && !Recovering(t.phase)
    requires t.phase.WriteLog? || t.phase.Install? ==> t.lh == s.lh && t.phase.tail <= |t.lh|
    requires t.phase.Idle? || t.phase.Done? ==> t.lh == []
    requires !t.phase.Boot?
    requires Parts(L, t, Replay(base, s.trace), Replay(base, s.trace[..t.committed]))
    ensures Inv(L, base, t)
  {
    hide CacheOk, CurrentOk, LogOk, DurableOk, Header, GoodHeader;
    assert OpsOk(L, t.ops, t.outstanding, t.committing, t.phase, t.lh);
    assert HistoryOk(t.trace, t.committed, t.nextOp, t.ops, t.lh, t.phase);
  }

  lemma CopyData(L: Layout, s: State, now: seq<Block>, kept: seq<Block>)
    requires s.phase.WriteLog? && s.phase.tail < |s.lh| && s.lh[s.phase.tail] in s.cache && s.cache[s.lh[s.phase.tail]].valid
    requires Parts(L, s, now, kept)
    ensures s.cache[s.lh[s.phase.tail]].data == now[s.lh[s.phase.tail]] && !Home(L, L.start + 1 + s.phase.tail)
  {
    hide Header, LogOk, DurableOk, CacheOk;
  }

  lemma CopyParts(L: Layout, s: State, now: seq<Block>, kept: seq<Block>)
    requires s.phase.WriteLog? && s.phase.tail < |s.lh| && L.start + 1 + s.phase.tail < |s.disk|
    requires s.lh[s.phase.tail] in s.cache && s.cache[s.lh[s.phase.tail]].valid && L.start + 1 + s.phase.tail in s.cache
    requires Parts(L, s, now, kept)
    ensures Parts(L, CopiedToLog(L, s), now, kept)
  {
    hide Header, CacheOk, CurrentOk, LogOk, DurableOk, Distinct;
    CopyData(L, s, now, kept);
    var t := CopiedToLog(L, s);
    var c := L.start + 1 + s.phase.tail;
    var data := s.cache[s.lh[s.phase.tail]].data;
    LogRegionWrite(L, s.cache, s.disk, s.lh, s.phase, now, c, data);
    CopyLog(L, s.disk, s.lh, s.phase.tail, now, kept, data);
    CachePhase(L, t.cache, t.disk, t.lh, s.phase.tail, t.phase);
  }

  lemma KeepCopy(L: Layout, base: seq<Block>, s: State)
    requires Inv(L, base, s) && Enabled(L, s, CopyToLog)
    ensures Inv(L, base, Do(L, s, CopyToLog))
  {
    hide CacheOk, CurrentOk, LogOk, DurableOk, HoldsOk, Header, WithHeader;
    CopyParts(L, s, Replay(base, s.trace), Replay(base, s.trace[..s.committed]));
    CommitStep(L, base, s, CopiedToLog(L, s));
  }

  /** The commit point: the header write switches what recovery brings back from the committed
      prefix to the whole history, in one disk write. */
  lemma HeadLog(L: Layout, cache: map<nat, Buf>, disk: seq<Block>, lh: seq<nat>, now: seq<Block>, head: Block)
    requires ValidLayout(L) && |disk| == |now| == L.nblocks && GoodHeader(L, lh) && Header(head) == lh
    requires CacheOk(L, cache, disk, map[], lh, WriteLog(|lh|)) && CurrentOk(L, cache, disk, map[], now)
    requires LogOk(L, disk, Header(disk[L.start]), lh, WriteLog(|lh|), now)
    ensures var disk' := disk[L.start := head];
      && LogOk(L, disk', Header(disk'[L.start]), lh, Install(0, false), now)
      && DurableOk(L, disk', Header(disk'[L.start]), now)
  {
    forall b: nat | Home(L, b) && b !in lh ensures disk[b] == now[b] {
    }
  }

  lemma HeadParts(L: Layout, s: State, now: seq<Block>, kept: seq<Block>)
    requires ValidLayout(L) && |s.disk| == L.nblocks && Enabled(L, s, CommitHead)
    requires Parts(L, s, now, kept)
    ensures Parts(L, HeadWritten(L, s), now, now)
  {
    var t := HeadWritten(L, s);
    var head := WithHeader(s.cache[L.start].data, s.lh);
    HeadLog(L, s.cache, s.disk, s.lh, now, head);
    LogRegionWrite(L, s.cache, s.disk, s.lh, s.phase, now, L.start, head);
    CachePhase(L, t.cache, t.disk, t.lh, s.phase.tail, t.phase);
  }

  lemma KeepHead(L: Layout, base: seq<Block>, s: State)
    requires Inv(L, base, s) && Enabled(L, s, CommitHead)
    ensures Inv(L, base, Do(L, s, CommitHead))
  {
    hide CacheOk, CurrentOk, LogOk, DurableOk, HoldsOk, Header, WithHeader;
    HeadParts(L, s, Replay(base, s.trace), Replay(base, s.trace[..s.committed]));
    assert s.trace[..|s.trace|] == s.trace;
    CommitStep(L, base, s, HeadWritten(L, s));
  }

  lemma InstallLog(L: Layout, disk: seq<Block>, lh: seq<nat>, tail: nat, booting: bool, now: seq<Block>, kept: seq<Block>)
    requires ValidLayout(L) && |disk| == |now| == |kept| == L.nblocks && GoodHeader(L, lh) && tail < |lh|
    requires LogOk(L, disk, Header(disk[L.start]), lh, Install(tail, booting), now)
    requires DurableOk(L, disk, Header(disk[L.start]), kept)
    ensures var disk' := disk[lh[tail] := disk[L.start + 1 + tail]];
      && LogOk(L, disk', Header(disk'[L.start]), lh, Install(tail + 1, booting), now)
      && DurableOk(L, disk', Header(disk'[L.start]), kept)
  {
    hide Header;
  }

  lemma InstallCache(L: Layout, cache: map<nat, Buf>, disk: seq<Block>, lh: seq<nat>, tail: nat, booting: bool, data: Block)
    requires |disk| == L.nblocks && GoodHeader(L, lh) && tail < |lh| && lh[tail] in cache
    requires CacheOk(L, cache, disk, map[], lh, Install(tail, booting))
    ensures var c := lh[tail];
      && CacheOk(L, Synced(cache, c, data), disk[c := data], map[], lh, Install(tail + 1, booting))
      && forall now: seq<Block> :: |now| == L.nblocks && now[c] == data && CurrentOk(L, cache, disk, map[], now) ==>
              CurrentOk(L, Synced(cache, c, data), disk[c := data], map[], now)
  {
  }

  /** The log block that install_trans copies is what the disk holds, and what is to be kept. */
  lemma InstallData(L: Layout, s: State, now: seq<Block>)
    requires ValidLayout(L) && s.phase.Install? && s.phase.tail < |s.lh|
    requires Parts(L, s, now, now)
    requires L.start + 1 + s.phase.tail in s.cache && s.cache[L.start + 1 + s.phase.tail].valid
    ensures s.cache[L.start + 1 + s.phase.tail].data == s.disk[L.start + 1 + s.phase.tail] == now[s.lh[s.phase.tail]]
  {
    hide Header, CurrentOk;
    CleanOutside(L, s.cache, s.disk, s.lh, s.phase, L.start + 1 + s.phase.tail);
  }

  lemma InstallParts(L: Layout, s: State, now: seq<Block>)
    requires s.phase.Install? && s.phase.tail < |s.lh| && s.lh[s.phase.tail] < |s.disk|
    requires s.lh[s.phase.tail] in s.cache
    requires L.start + 1 + s.phase.tail in s.cache && s.cache[L.start + 1 + s.phase.tail].valid
    requires Parts(L, s, now, now)
    ensures Parts(L, Installed(L, s), now, now)
  {
    hide Header, CacheOk, CurrentOk, LogOk, DurableOk, Distinct;
    InstallData(L, s, now);
    InstallLog(L, s.disk, s.lh, s.phase.tail, s.phase.booting, now, now);
    InstallCache(L, s.cache, s.disk, s.lh, s.phase.tail, s.phase.booting, now[s.lh[s.phase.tail]]);
  }

  /** Past the commit point everything in the history is committed, and no operation is active. */
  lemma PastCommit(L: Layout, base: seq<Block>, s: State)
    requires Inv(L, base, s) && s.phase.Install?
    ensures s.ops == map[] && s.committed == |s.trace| && s.trace[..s.committed] == s.trace
  {
    hide CacheOk, CurrentOk, LogOk, DurableOk, HoldsOk, Header, WithHeader;
  }

  lemma KeepInstall(L: Layout, base: seq<Block>, s: State)
    requires Inv(L, base, s) && Enabled(L, s, InstallBlock)
    ensures Inv(L, base, Do(L, s, InstallBlock))
  {
    hide CacheOk, CurrentOk, LogOk, DurableOk, HoldsOk, HistoryOk, Distinct, Header, WithHeader;
    PastCommit(L, base, s);
    InstallParts(L, s, Replay(base, s.trace));
    CommitStep(L, base, s, Installed(L, s));
  }

  /** With no operation active, a valid buffer outside the log header's blocks repeats the disk. */
  lemma CleanOutside(L: Layout, cache: map<nat, Buf>, disk: seq<Block>, lh: seq<nat>, phase: Phase, c: nat)
    requires |disk| == L.nblocks && CacheOk(L, cache, disk, map[], lh, phase)
    requires c in cache && cache[c].valid && c !in lh
    ensures cache[c].data == disk[c]
  {
    assert !Unlogged(map[], c);
  }

  lemma EraseLog(L: Layout, disk: seq<Block>, lh: seq<nat>, booting: bool, now: seq<Block>, kept: seq<Block>, head: Block)
    requires ValidLayout(L) && |disk| == |now| == |kept| == L.nblocks && GoodHeader(L, lh) && Header(head) == []
    requires LogOk(L, disk, Header(disk[L.start]), lh, Install(|lh|, booting), now)
    requires DurableOk(L, disk, Header(disk[L.start]), kept)
    ensures var disk' := disk[L.start := head];
      && LogOk(L, disk', Header(disk'[L.start]), [], if booting then Idle else Done, now)
      && DurableOk(L, disk', Header(disk'[L.start]), kept)
      && forall b: nat :: Home(L, b) ==> disk[b] == kept[b]
  {
    hide Header;
    forall b: nat | Home(L, b) ensures disk[b] == kept[b] {
      if b in lh {
        var i := IndexOf(lh, b);
        assert disk[L.start + 1 + i] == disk[lh[i]];
      }
    }
  }

  lemma EraseCache(L: Layout, cache: map<nat, Buf>, disk: seq<Block>, lh: seq<nat>, booting: bool, phase: Phase, now: seq<Block>)
    requires |disk| == |now| == L.nblocks
    requires CacheOk(L, cache, disk, map[], lh, Install(|lh|, booting))
    requires forall b: nat :: Home(L, b) ==> disk[b] == now[b]
    requires phase == Idle || phase == Done
    ensures CacheOk(L, cache, disk, map[], [], phase)
    ensures CurrentOk(L, cache, disk, map[], now)
  {
    forall b | b in cache ensures !cache[b].dirty {
      if b in lh {
        var i := IndexOf(lh, b);
        assert lh[i] == b;
      }
    }
  }

  lemma EraseParts(L: Layout, s: State, now: seq<Block>)
    requires ValidLayout(L) && |s.disk| == L.nblocks && Enabled(L, s, EraseHead)
    requires Parts(L, s, now, now)
    ensures Parts(L, Erased(L, s), now, now)
  {
    hide Header, WithHeader, CacheOk, CurrentOk, LogOk, DurableOk;
    var head := WithHeader(s.cache[L.start].data, []);
    EraseLog(L, s.disk, s.lh, s.phase.booting, now, now, head);
    EraseCache(L, s.cache, s.disk, s.lh, s.phase.booting, Erased(L, s).phase, now);
    LogRegionWrite(L, s.cache, s.disk, [], Erased(L, s).phase, now, L.start, head);
  }

  lemma KeepErase(L: Layout, base: seq<Block>, s: State)
    requires Inv(L, base, s) && Enabled(L, s, EraseHead)
    ensures Inv(L, base, Do(L, s, EraseHead))
  {
    hide CacheOk, CurrentOk, LogOk, DurableOk, HoldsOk, HistoryOk, Distinct, Header, WithHeader;
    PastCommit(L, base, s);
    EraseParts(L, s, Replay(base, s.trace));
    CommitStep(L, base, s, Erased(L, s));
  }

  lemma KeepFinish(L: Layout, base: seq<Block>, s: State)
    requires Inv(L, base, s) && Enabled(L, s, FinishCommit)
    ensures Inv(L, base, Do(L, s, FinishCommit))
  {
  }

  lemma KeepReadHead(L: Layout, base: seq<Block>, s: State)
    requires Inv(L, base, s) && Enabled(L, s, ReadHead)
    ensures Inv(L, base, Do(L, s, ReadHead))
  {
    CleanOutside(L, s.cache, s.disk, s.lh, s.phase, L.start);
  }

  lemma CrashHistory(s: State)
    requires HistoryOk(s.trace, s.committed, s.nextOp, s.ops, s.lh, s.phase)
    ensures var t := Crashed(s); HistoryOk(t.trace, t.committed, t.nextOp, t.ops, t.lh, t.phase)
  {
  }

  lemma KeepCrash(L: Layout, base: seq<Block>, s: State)
    requires Inv(L, base, s)
    ensures Inv(L, base, Crashed(s))
  {
    hide Header, CurrentOk, DurableOk, HistoryOk;
    var t := Crashed(s);
    CrashHistory(s);
    assert t.trace[..t.committed] == s.trace[..s.committed];
  }
}
