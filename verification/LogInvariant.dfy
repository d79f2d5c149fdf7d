/** What every action of the log machine keeps. */
module LogInvariant {
  import opened Wrappers
  import opened Blocks
  import opened LogMachine

  /** The log region can hold LOGSIZE data blocks behind its header. */
  ghost predicate Roomy(L: Layout) {
    ValidLayout(L) && LOGSIZE < L.size
  }

  /** Layouts on which no transaction outgrows the region: there is room for all of it, or, with a
      header and no data blocks, log_write always panics. */
  ghost predicate Fitting(L: Layout) {
    Roomy(L) || (ValidLayout(L) && L.size == 1)
  }

  /** Layouts on which a transaction that outgrows the region is never written: it pins all buffers. */
  ghost predicate Ample(L: Layout) {
    ValidLayout(L) && (L.size == 1 || NBUF <= L.size)
  }

  /** A log_write, let through by its unlocked test, lists more blocks than the region holds. */
  predicate Overflows(L: Layout, s: State, a: Action) {
    a.LogWrite? && a.block !in s.lh && |s.lh| + 1 >= L.size
  }

  /** Sum over the active operations of the log_write calls they may still make. */
  ghost function Credit(ops: map<Pid, Op>): int {
    if ops == map[] then 0
    else
      var p :| p in ops;
      MAXOPBLOCKS - ops[p].used + Credit(ops - {p})
  }

  /** Some active operation has changed b and not yet called log_write for it. */
  ghost predicate Unlogged(ops: map<Pid, Op>, b: nat) {
    exists p :: p in ops && b in ops[p].unlogged
  }

  predicate Recovering(phase: Phase) {
    phase.Boot? || (phase.Install? && phase.booting)
  }

  /** The processes inside operations, and the in-memory header. */
  ghost predicate OpsOk(L: Layout, ops: map<Pid, Op>, outstanding: int, committing: bool, phase: Phase, lh: seq<nat>) {
    && outstanding == |ops|
    && (committing <==> !phase.Idle? && !Recovering(phase))
    && (!phase.Idle? ==> ops == map[])
    && (forall p :: p in ops ==> 0 <= ops[p].used <= MAXOPBLOCKS)
    && (forall p :: p in ops && ops[p].checked ==> ops[p].used < MAXOPBLOCKS && 2 <= L.size)
    && |lh| + Credit(ops) <= LOGSIZE
    && (phase.WriteLog? || phase.Install? ==> phase.tail <= |lh|)
    && (phase.Boot? || phase.Done? ==> lh == [])
    && GoodHeader(L, lh)
  }

  ghost predicate TraceOk(L: Layout, trace: seq<Update>) {
    forall i :: 0 <= i < |trace| ==> Home(L, trace[i].block)
  }

  /** The history: operations are numbered, and none straddles the committed prefix. */
  ghost predicate HistoryOk(trace: seq<Update>, committed: nat, nextOp: nat, ops: map<Pid, Op>, lh: seq<nat>, phase: Phase) {
    && committed <= |trace|
    && (forall i :: 0 <= i < |trace| ==> trace[i].op < nextOp)
    && (forall p :: p in ops ==> ops[p].id < nextOp)
    && (forall i, p :: 0 <= i < committed && p in ops ==> trace[i].op != ops[p].id)
    && WholeOperations(trace, committed)
    && (!phase.Idle? && !phase.WriteLog? ==> committed == |trace|)
    && (forall i :: committed <= i < |trace| ==> trace[i].block in lh || Unlogged(ops, trace[i].block))
  }

  /** An operation keeps the buffers that it has changed and not logged. */
  ghost predicate HoldsOk(L: Layout, cache: map<nat, Buf>, ops: map<Pid, Op>) {
    && (forall p, b :: p in ops && b in ops[p].unlogged ==>
          Home(L, b) && b in cache && cache[b].valid && cache[b].holder == Some(p))
    && (forall p, q :: p in ops && q in ops && p != q ==> ops[p].id != ops[q].id)
  }

  /** The buffers: clean ones repeat the disk, dirty ones are pinned by the log. */
  ghost predicate CacheOk(L: Layout, cache: map<nat, Buf>, disk: seq<Block>, ops: map<Pid, Op>, lh: seq<nat>, phase: Phase)
    requires |disk| == L.nblocks
  {
    && (forall b :: b in cache ==> b < L.nblocks)
    && (forall b :: b in cache && cache[b].dirty ==> b in lh && cache[b].valid)
    && (forall b :: b in cache && cache[b].valid && !cache[b].dirty ==> cache[b].data == disk[b] || Unlogged(ops, b))
    && (phase.Idle? || phase.WriteLog? ==> forall b :: b in lh ==> b in cache && cache[b].dirty)
    && (phase.Install? ==> forall i :: 0 <= i < phase.tail && i < |lh| && lh[i] in cache ==> !cache[lh[i]].dirty)
    && (phase.Install? && !phase.booting ==> forall i :: phase.tail <= i < |lh| ==> lh[i] in cache && cache[lh[i]].dirty)
  }

  /** Outside recovery the cache shows every update, and only pinned blocks differ from the disk. */
  ghost predicate CurrentOk(L: Layout, cache: map<nat, Buf>, disk: seq<Block>, ops: map<Pid, Op>, now: seq<Block>)
    requires |disk| == |now| == L.nblocks
  {
    && (forall b :: b in cache && cache[b].valid && Home(L, b) ==> cache[b].data == now[b])
    && (forall b: nat :: Home(L, b) && disk[b] != now[b] ==>
          b in cache && cache[b].valid && (cache[b].dirty || Unlogged(ops, b)))
  }

  /** The on-disk log, phase by phase. */
  ghost predicate LogOk(L: Layout, disk: seq<Block>, header: seq<nat>, lh: seq<nat>, phase: Phase, now: seq<Block>)
    requires ValidLayout(L) && |disk| == |now| == L.nblocks && GoodHeader(L, lh)
  {
    && GoodHeader(L, header)
    && (phase.Idle? || phase.WriteLog? || phase.Done? ==> header == [])
    && (phase.Install? ==> header == lh)
    && (phase.WriteLog? ==> forall i :: 0 <= i < phase.tail && i < |lh| ==> disk[L.start + 1 + i] == now[lh[i]])
    && (phase.Install? ==> forall i :: 0 <= i < phase.tail && i < |lh| ==> disk[L.start + 1 + i] == disk[lh[i]])
  }

  /** What recovery would bring back is kept. */
  ghost predicate DurableOk(L: Layout, disk: seq<Block>, header: seq<nat>, kept: seq<Block>)
    requires ValidLayout(L) && |disk| == |kept| == L.nblocks && GoodHeader(L, header)
  {
    && (forall i :: 0 <= i < |header| ==> disk[L.start + 1 + i] == kept[header[i]])
    && (forall b: nat :: Home(L, b) && b !in header ==> disk[b] == kept[b])
  }

  ghost predicate Inv(L: Layout, base: seq<Block>, s: State) {
    && ValidLayout(L)
    && |base| == |s.disk| == L.nblocks
    && s.committed <= |s.trace|
    && TraceOk(L, s.trace)
    && OpsOk(L, s.ops, s.outstanding, s.committing, s.phase, s.lh)
    && HistoryOk(s.trace, s.committed, s.nextOp, s.ops, s.lh, s.phase)
    && HoldsOk(L, s.cache, s.ops)
    && CacheOk(L, s.cache, s.disk, s.ops, s.lh, s.phase)
    && (!Recovering(s.phase) ==> CurrentOk(L, s.cache, s.disk, s.ops, Replay(base, s.trace)))
    && LogOk(L, s.disk, Header(s.disk[L.start]), s.lh, s.phase, Replay(base, s.trace))
    && DurableOk(L, s.disk, Header(s.disk[L.start]), Replay(base, s.trace[..s.committed]))
  }

  // ---- small facts -----------------------------------------------------------------------

  lemma {:induction false} CreditRemove(ops: map<Pid, Op>, p: Pid)
    requires p in ops
    ensures Credit(ops) == MAXOPBLOCKS - ops[p].used + Credit(ops - {p})
    decreases |ops|
  {
    var q :| q in ops && Credit(ops) == MAXOPBLOCKS - ops[q].used + Credit(ops - {q});
    if q != p {
      CreditRemove(ops - {q}, p);
      CreditRemove(ops - {p}, q);
      assert ops - {q} - {p} == ops - {p} - {q};
    }
  }

  lemma CreditPut(ops: map<Pid, Op>, p: Pid, op: Op)
    ensures Credit(ops[p := op]) == MAXOPBLOCKS - op.used + Credit(ops - {p})
  {
    CreditRemove(ops[p := op], p);
    assert ops[p := op] - {p} == ops - {p};
  }

  lemma {:induction false} CreditBounds(ops: map<Pid, Op>)
    requires forall p :: p in ops ==> 0 <= ops[p].used <= MAXOPBLOCKS
    ensures 0 <= Credit(ops) <= |ops| * MAXOPBLOCKS
    decreases |ops|
  {
    if ops != map[] {
      var p :| p in ops;
      CreditRemove(ops, p);
      CreditBounds(ops - {p});
    }
  }

  lemma SizeRemove<K, V>(m: map<K, V>, k: K)
    requires k in m
    ensures |m - {k}| == |m| - 1
  {
    assert m == (m - {k})[k := m[k]];
  }

  /** DurableOk says what Recovered computes. */
  lemma DurableIsRecovered(L: Layout, disk: seq<Block>, kept: seq<Block>, b: nat)
    requires ValidLayout(L) && |disk| == |kept| == L.nblocks && GoodHeader(L, Header(disk[L.start]))
    requires DurableOk(L, disk, Header(disk[L.start]), kept)
    requires Home(L, b)
    ensures Recovered(L, disk, b) == kept[b]
  {
    hide Header, Distinct;
    var h := Header(disk[L.start]);
    if b in h {
      var i := IndexOf(h, b);
    }
  }
}
