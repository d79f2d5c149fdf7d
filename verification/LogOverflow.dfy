/** What a log region that is too small does to crash atomicity: log_write tests log.lh.n before it
    takes log.lock, so that two operations pass the test for the last block, and the transaction
    outgrows the region. If it leaves a buffer free, write_log writes its last block over the block
    behind the region. If it has pinned all NBUF buffers, bget panics before anything is written. */
module LogOverflow {
  import opened Wrappers
  import opened Blocks
  import opened LogMachine
  import opened LogInvariant
  import opened LogJam
  import opened LogTheorems
  import opened LogRuns

  /** In every state of every run, recovery would bring back exactly the committed updates. */
  ghost predicate AlwaysCrashSafe(L: Layout, disk: seq<Block>)
    requires Bootable(L, disk)
  {
    forall t :: Reach(L, Initial(disk), t) ==> CrashSafe(L, disk, t)
  }

  /** Operation 2 has changed block b to data; it and operation 1 hold a buffer each and may log. The
      buffer of the header block is used for b. */
  function Ready(L: Layout, s: State, a: nat, b: nat, data: Block): State
    requires 1 in s.ops && 2 in s.ops && a < |s.disk|
  {
    s.(cache := (s.cache[a := Buf(Some(1), true, false, s.disk[a])] - {L.start})[b := Buf(Some(2), true, false, data)],
       ops := s.ops[1 := s.ops[1].(checked := true)][2 := s.ops[2].(checked := true, unlogged := {b})],
       trace := s.trace + [Update(s.ops[2].id, b, data)])
  }

  lemma GetReady(L: Layout, s: State, k: nat, data: Block) returns (t: State)
    requires ValidLayout(L) && Behind(L, LOGSIZE) <= L.nblocks && Filling(L, s, k) && k <= SHARED && k + 2 <= L.size
    ensures Reach(L, s, t) && t == Ready(L, s, Behind(L, k), Behind(L, k + 1), data)
  {
    hide Reach, Run, Header;
    var a, b := Behind(L, k), Behind(L, k + 1);
    var s1 := ReadOne(L, s, 1, a);
    var s2 := ReadOver(L, s1, 2, L.start, b);
    Then(L, s, s1, s2);
    var s3 := Do(L, s2, Change(2, b, data));
    One(L, s2, Change(2, b, data));
    Then(L, s, s2, s3);
    t := Checks(L, s3);
    Then(L, s, s3, t);
    assert {} + {b} == {b};
    assert t.ops == Ready(L, s, a, b, data).ops;
    assert t.cache == Ready(L, s, a, b, data).cache;
  }

  /** Both pass the unlocked test. */
  lemma Checks(L: Layout, s: State) returns (t: State)
    requires ValidLayout(L) && |s.disk| == L.nblocks && 1 in s.ops && 2 in s.ops && !LogWritePanics(L, s)
    requires !s.ops[1].checked && !s.ops[2].checked && s.ops[1].used < MAXOPBLOCKS && s.ops[2].used < MAXOPBLOCKS
    ensures Reach(L, s, t)
    ensures t == s.(ops := s.ops[1 := s.ops[1].(checked := true)][2 := s.ops[2].(checked := true)])
  {
    hide Reach, Run;
    var m := Do(L, s, LogCheck(1));
    t := Do(L, m, LogCheck(2));
    One(L, s, LogCheck(1));
    One(L, m, LogCheck(2));
    Then(L, s, m, t);
  }

  /** Buffers are those of the first n blocks behind the region, all dirty and none busy. */
  ghost predicate Pinned(L: Layout, s: State, n: nat) {
    && |s.cache| == n && (forall b :: b in s.cache ==> Behind(L, 0) <= b < Behind(L, n))
    && (forall b :: Behind(L, 0) <= b < Behind(L, n) ==> Parked(s, b) && s.cache[b].dirty)
  }

  /** The transaction has n blocks, and the operations are ready to end. */
  ghost predicate Full(L: Layout, s: State, n: nat, data: Block) {
    && |s.disk| == L.nblocks && L.start < |s.disk| && Header(s.disk[L.start]) == []
    && s.phase.Idle? && s.outstanding == 3 && s.committed == 0 && |s.trace| == 1 && Home(L, s.trace[0].block)
    && s.ops.Keys == {0, 1, 2} && (forall p :: p in s.ops ==> FreshOp(s.ops[p], s.ops[p].used))
    && s.lh == Listed(L, n) && Pinned(L, s, n) && 2 <= n
    && Behind(L, n - 1) in s.cache && s.cache[Behind(L, n - 1)].data == data
  }

  /** Both append: if two slots were left, the header lists one block more than the region holds. */
  lemma BothLog(L: Layout, s: State, k: nat, data: Block) returns (t: State)
    requires ValidLayout(L) && Behind(L, LOGSIZE) <= L.nblocks && Filling(L, s, k) && k <= SHARED && k + 2 <= L.size
    ensures Reach(L, Ready(L, s, Behind(L, k), Behind(L, k + 1), data), t) && Full(L, t, k + 2, data)
  {
    hide Reach, Run, Header, Full;
    var a, b := Behind(L, k), Behind(L, k + 1);
    var r := Ready(L, s, a, b, data);
    var r1 := Do(L, r, LogWrite(1, a));
    var r2 := Do(L, r1, LogWrite(2, b));
    One(L, r, LogWrite(1, a));
    One(L, r1, LogWrite(2, b));
    Then(L, r, r1, r2);
    assert r2.ops[2].unlogged == {} && r2.ops[1].unlogged == {};
    t := BothRelease(L, r2, a, b);
    Then(L, r, r2, t);
    FullNow(L, s, k, data, t);
  }

  lemma BothRelease(L: Layout, s: State, a: nat, b: nat) returns (t: State)
    requires ValidLayout(L) && |s.disk| == L.nblocks && a != b && Held(s, 1, a) && Held(s, 2, b)
    requires 1 in s.ops && 2 in s.ops && s.ops[1].unlogged == {} && s.ops[2].unlogged == {}
    ensures Reach(L, s, t) && t == SetHolder(SetHolder(s, a, None), b, None)
  {
    hide Reach, Run;
    var m := Do(L, s, Release(1, a));
    t := Do(L, m, Release(2, b));
    One(L, s, Release(1, a));
    One(L, m, Release(2, b));
    Then(L, s, m, t);
  }

  /** The two log_writes and releases, said at once. */
  function Raced(L: Layout, s: State, a: nat, b: nat, data: Block): State
    requires 1 in s.ops && 2 in s.ops && a < |s.disk|
  {
    s.(lh := s.lh + [a] + [b],
       cache := (s.cache[a := Buf(None, true, true, s.disk[a])] - {L.start})[b := Buf(None, true, true, data)],
       ops := s.ops[1 := s.ops[1].(used := s.ops[1].used + 1)][2 := s.ops[2].(used := s.ops[2].used + 1)],
       trace := s.trace + [Update(s.ops[2].id, b, data)])
  }

  lemma FullNow(L: Layout, s: State, k: nat, data: Block, t: State)
    requires ValidLayout(L) && Filling(L, s, k) && Behind(L, k + 1) < L.nblocks
    requires var a, b := Behind(L, k), Behind(L, k + 1);
      t == SetHolder(SetHolder(Logged(Logged(Ready(L, s, a, b, data), 1, a), 2, b), a, None), b, None)
    ensures Full(L, t, k + 2, data)
  {
    hide Header, Full, Raced;
    var a, b := Behind(L, k), Behind(L, k + 1);
    assert FreshOp(s.ops[1], Share(1, k)) && FreshOp(s.ops[2], Share(2, k));
    assert a !in s.lh && b !in s.lh;
    RacedIs(L, s, a, b, data);
    RacedIsFull(L, s, k, data);
  }

  lemma RacedIs(L: Layout, s: State, a: nat, b: nat, data: Block)
    requires 1 in s.ops && 2 in s.ops && a < |s.disk| && a != b && a !in s.lh && b !in s.lh && a != L.start
    requires !s.ops[1].checked && !s.ops[2].checked && s.ops[1].unlogged == {} && s.ops[2].unlogged == {}
    ensures SetHolder(SetHolder(Logged(Logged(Ready(L, s, a, b, data), 1, a), 2, b), a, None), b, None) == Raced(L, s, a, b, data)
  {
    var m := Logged(Ready(L, s, a, b, data), 1, a);
    assert {} - {a} == {};
    assert m.ops == s.ops[1 := s.ops[1].(used := s.ops[1].used + 1)][2 := s.ops[2].(checked := true, unlogged := {b})];
    assert m.lh == s.lh + [a] && b !in m.lh;
    var n := Logged(m, 2, b);
    assert {b} - {b} == {};
    assert n.ops == Raced(L, s, a, b, data).ops;
    assert SetHolder(SetHolder(n, a, None), b, None).cache == Raced(L, s, a, b, data).cache;
  }

  lemma RacedIsFull(L: Layout, s: State, k: nat, data: Block)
    requires ValidLayout(L) && Filling(L, s, k) && Behind(L, k + 1) < L.nblocks
    ensures Full(L, Raced(L, s, Behind(L, k), Behind(L, k + 1), data), k + 2, data)
  {
    hide Header, Pinned;
    var t := Raced(L, s, Behind(L, k), Behind(L, k + 1), data);
    assert t.lh == Listed(L, k + 2);
    assert t.ops.Keys == {0, 1, 2};
    forall p | p in t.ops ensures FreshOp(t.ops[p], t.ops[p].used) {
      assert FreshOp(s.ops[p], Share(p, k));
    }
    RacedPins(L, s, k, data);
  }

  lemma RacedPins(L: Layout, s: State, k: nat, data: Block)
    requires ValidLayout(L) && Filling(L, s, k) && Behind(L, k + 1) < L.nblocks
    ensures Pinned(L, Raced(L, s, Behind(L, k), Behind(L, k + 1), data), k + 2)
  {
    hide Header;
    var a, b := Behind(L, k), Behind(L, k + 1);
    var t := Raced(L, s, a, b, data);
    var with := s.cache[a := Buf(None, true, true, s.disk[a])];
    assert |with| == k + 2;
    SizeRemove(with, L.start);
    forall c | Behind(L, 0) <= c < Behind(L, k + 2) ensures Parked(t, c) && t.cache[c].dirty {
      assert c < Behind(L, k) ==> Parked(s, c);
    }
  }

  /** write_log, run by process 2, has copied tail of the n blocks. Besides the blocks of the
      transaction the cache holds at most the log block written last. */
  ghost predicate Copying(L: Layout, s: State, n: nat, tail: nat, data: Block) {
    && |s.disk| == L.nblocks && L.start < |s.disk| && Header(s.disk[L.start]) == []
    && s.phase == WriteLog(tail) && s.worker == 2 && s.ops == map[]
    && s.committed == 0 && |s.trace| == 1 && Home(L, s.trace[0].block)
    && s.lh == Listed(L, n) && (tail == 0 ==> Pinned(L, s, n)) && (tail > 0 ==> Reusable(s, L.start + tail))
    && (forall b :: b in s.cache ==> Behind(L, 0) <= b < Behind(L, n) || (tail > 0 && b == L.start + tail))
    && (forall b :: Behind(L, 0) <= b < Behind(L, n) ==> Parked(s, b))
    && 2 <= n && Behind(L, n - 1) in s.cache && s.cache[Behind(L, n - 1)].data == data
  }

  /** All three operations end, and the last one commits. */
  lemma AllEnd(L: Layout, s: State, n: nat, data: Block) returns (t: State)
    requires ValidLayout(L) && Full(L, s, n, data)
    ensures Reach(L, s, t) && Copying(L, t, n, 0, data)
  {
    hide Reach, Run, Header;
    var s1 := Do(L, s, EndOp(0));
    var s2 := Do(L, s1, EndOp(1));
    t := Do(L, s2, EndOp(2));
    One(L, s, EndOp(0));
    One(L, s1, EndOp(1));
    One(L, s2, EndOp(2));
    Then(L, s, s1, s2);
    Then(L, s, s2, t);
    assert t.ops.Keys == {};
    assert t.cache == s.cache;
    forall b | Behind(L, 0) <= b < Behind(L, n) ensures Parked(t, b) && t.cache[b].dirty {
      assert Parked(s, b);
    }
  }

  /** As long as write_log stays within the region it does no harm. */
  lemma {:induction false} CopyOn(L: Layout, s: State, tail: nat, data: Block) returns (t: State)
    requires ValidLayout(L) && Copying(L, s, L.size, tail, data) && tail <= L.size - 1 && Behind(L, L.size) <= L.nblocks && L.size < NBUF
    ensures Reach(L, s, t) && Copying(L, t, L.size, L.size - 1, data)
    decreases L.size - tail
  {
    hide Reach, Run, Header, Copying;
    if tail == L.size - 1 {
      Stay(L, s);
      return s;
    }
    var m := CopyOne(L, s, tail, data);
    t := CopyOn(L, m, tail + 1, data);
    Then(L, s, m, t);
  }

  /** The two breads of a round. */
  lemma ReadBoth(L: Layout, s: State, tail: nat, data: Block) returns (t: State)
    requires ValidLayout(L) && Copying(L, s, L.size, tail, data) && tail < L.size - 1 && Behind(L, L.size) <= L.nblocks && L.size < NBUF
    ensures Reach(L, s, t) && L.start + 1 + tail < |s.disk| && Behind(L, tail) in s.cache
    ensures var to, from := L.start + 1 + tail, Behind(L, tail);
      var rest := if tail == 0 then s.cache else s.cache - {L.start + tail};
      t == s.(cache := rest[to := Buf(Some(2), true, false, s.disk[to])][from := s.cache[from].(holder := Some(2))])
  {
    hide Reach, Run, Header;
    var to, from := L.start + 1 + tail, Behind(L, tail);
    assert Parked(s, from);
    var m;
    if tail == 0 {
      m := ReadOne(L, s, 2, to);
    } else {
      m := ReadOver(L, s, 2, L.start + tail, to);
    }
    t := Do(L, m, Get(2, from));
    One(L, m, Get(2, from));
    Then(L, s, m, t);
  }

  /** The rest of it: memmove, bwrite and the two brelses. */
  lemma CopyBoth(L: Layout, s: State, tail: nat, to: nat, from: nat) returns (t: State)
    requires ValidLayout(L) && |s.disk| == L.nblocks && s.phase == WriteLog(tail) && tail < |s.lh| && s.worker == 2 && 2 !in s.ops
    requires to == L.start + 1 + tail < L.nblocks && from == s.lh[tail] && to != from
    requires HeldValid(s, 2, to) && HeldValid(s, 2, from)
    ensures Reach(L, s, t)
    ensures t == s.(disk := s.disk[to := s.cache[from].data], phase := WriteLog(tail + 1),
                    cache := s.cache[to := Buf(None, true, false, s.cache[from].data)][from := s.cache[from].(holder := None)])
  {
    hide Reach, Run;
    var m := Do(L, s, CopyToLog);
    var n := Do(L, m, Release(2, from));
    t := Do(L, n, Release(2, to));
    One(L, s, CopyToLog);
    One(L, m, Release(2, from));
    One(L, n, Release(2, to));
    Then(L, s, m, n);
    Then(L, s, n, t);
  }

  lemma CopyOne(L: Layout, s: State, tail: nat, data: Block) returns (t: State)
    requires ValidLayout(L) && Copying(L, s, L.size, tail, data) && tail < L.size - 1 && Behind(L, L.size) <= L.nblocks && L.size < NBUF
    ensures Reach(L, s, t) && Copying(L, t, L.size, tail + 1, data)
  {
    hide Reach, Run, Header, Do, Enabled;
    var to, from := L.start + 1 + tail, Behind(L, tail);
    var m := ReadBoth(L, s, tail, data);
    assert m.lh[tail] == from && Parked(s, from);
    t := CopyBoth(L, m, tail, to, from);
    Then(L, s, m, t);
    CopiedOne(L, s, tail, data, t);
  }

  lemma CopiedOne(L: Layout, s: State, tail: nat, data: Block, t: State)
    requires ValidLayout(L) && Copying(L, s, L.size, tail, data) && tail < L.size - 1 && Behind(L, L.size) <= L.nblocks
    requires var to, from := L.start + 1 + tail, Behind(L, tail);
      var rest := if tail == 0 then s.cache else s.cache - {L.start + tail};
      from in s.cache && to < |s.disk| &&
      t == s.(disk := s.disk[to := s.cache[from].data], phase := WriteLog(tail + 1),
              cache := rest[to := Buf(None, true, false, s.cache[from].data)][from := s.cache[from].(holder := None)])
    ensures Copying(L, t, L.size, tail + 1, data)
  {
    hide Header;
    forall b | Behind(L, 0) <= b < Behind(L, L.size) ensures Parked(t, b) {
      assert Parked(s, b);
    }
  }

  /** The last block goes over the block behind the region, before the commit point. */
  lemma Overwrite(L: Layout, s: State, data: Block) returns (t: State)
    requires ValidLayout(L) && Copying(L, s, L.size, L.size - 1, data) && Behind(L, L.size) <= L.nblocks
    ensures Reach(L, s, t) && |t.disk| == L.nblocks && t.disk[Behind(L, 0)] == data
    ensures Header(t.disk[L.start]) == [] && t.committed == 0 && |t.trace| == 1 && Home(L, t.trace[0].block)
  {
    hide Reach, Run, Header;
    var to, from := Behind(L, 0), Behind(L, L.size - 1);
    assert Parked(s, to) && Parked(s, from);
    var s1 := Do(L, s, Get(2, to));
    var s2 := Do(L, s1, Get(2, from));
    One(L, s, Get(2, to));
    One(L, s1, Get(2, from));
    Then(L, s, s1, s2);
    assert s2.lh[L.size - 1] == from && L.start + 1 + (L.size - 1) == to;
    t := Do(L, s2, CopyToLog);
    One(L, s2, CopyToLog);
    Then(L, s, s2, t);
  }

  /** From power-on to the commit of n blocks, the last two of them raced for. */
  lemma Committing(L: Layout, disk: seq<Block>, n: nat, data: Block) returns (t: State)
    requires ValidLayout(L) && |disk| == L.nblocks && Header(disk[L.start]) == []
    requires Behind(L, LOGSIZE) <= L.nblocks && 2 <= n <= LOGSIZE && n <= L.size
    ensures Reach(L, Initial(disk), t) && Copying(L, t, n, 0, data)
  {
    hide Reach, Header, Filling, Full, Copying;
    var s := Filled(L, disk, n - 2);
    var s1 := GetReady(L, s, n - 2, data);
    var s2 := BothLog(L, s, n - 2, data);
    t := AllEnd(L, s2, n, data);
    Then(L, Initial(disk), s, s1);
    Then(L, Initial(disk), s1, s2);
    Then(L, Initial(disk), s2, t);
  }

  /** From power-on to that write. */
  lemma Overwritten(L: Layout, disk: seq<Block>, data: Block) returns (t: State)
    requires ValidLayout(L) && |disk| == L.nblocks && Header(disk[L.start]) == []
    requires Behind(L, LOGSIZE) <= L.nblocks && 2 <= L.size < NBUF
    ensures Reach(L, Initial(disk), t) && |t.disk| == L.nblocks && t.disk[Behind(L, 0)] == data
    ensures Header(t.disk[L.start]) == [] && t.committed == 0 && |t.trace| == 1 && Home(L, t.trace[0].block)
  {
    hide Reach, Header, Copying;
    var s := Committing(L, disk, L.size, data);
    var s1 := CopyOn(L, s, 0, data);
    t := Overwrite(L, s1, data);
    Then(L, Initial(disk), s, s1);
    Then(L, Initial(disk), s1, t);
  }

  function Other(b: Block): (r: Block)
    ensures r != b
  {
    var x: Byte := if b[0] == 0 then 1 else 0;
    var r := b[0 := x];
    assert r[0] != b[0];
    r
  }

  /** A home block is lost: it holds data of an operation that never committed. */
  lemma CrashUnsafeReachable(L: Layout, disk: seq<Block>)
    requires ValidLayout(L) && |disk| == L.nblocks && Header(disk[L.start]) == []
    requires Behind(L, LOGSIZE) <= L.nblocks && 2 <= L.size < NBUF
    ensures Bootable(L, disk) && !AlwaysCrashSafe(L, disk)
  {
    hide Reach, Header;
    var b := Behind(L, 0);
    var t := Overwritten(L, disk, Other(disk[b]));
    assert t.trace[..t.committed] == [];
    assert Recovered(L, disk, b) == disk[b] && Recovered(L, t.disk, b) == t.disk[b];
    assert Image(L, disk)[b] == disk[b];
  }

  /** Crash atomicity holds over all runs exactly on ample layouts. */
  lemma CrashSafeIff(L: Layout, disk: seq<Block>)
    requires ValidLayout(L) && |disk| == L.nblocks && Header(disk[L.start]) == []
    requires Behind(L, LOGSIZE) <= L.nblocks
    ensures Bootable(L, disk)
    ensures AlwaysCrashSafe(L, disk) <==> L.size == 1 || NBUF <= L.size
  {
    hide Header, Run, CrashSafe, Within;
    if L.size == 1 || NBUF <= L.size {
      forall t | Reach(L, Initial(disk), t) ensures CrashSafe(L, disk, t) {
        var acts :| Run(L, Initial(disk), acts, t);
        CrashAtomicity(L, disk, acts, t);
      }
    } else {
      CrashUnsafeReachable(L, disk);
    }
  }

  /** write_log wants its first log block, nobody has a buffer, and bget panics all the same. */
  ghost predicate Starved(L: Layout, s: State) {
    && s.phase == WriteLog(0) && |s.lh| == NBUF && (forall b :: b in s.cache ==> s.cache[b].holder.None?)
    && NoBuffer(s, L.start + 1)
  }

  /** Wherever the list can have NBUF blocks, three operations within their ten calls each reach a
      state in which commit cannot get a buffer. */
  lemma StarvedReachable(L: Layout, disk: seq<Block>)
    requires ValidLayout(L) && |disk| == L.nblocks && Header(disk[L.start]) == []
    requires Behind(L, LOGSIZE) <= L.nblocks && NBUF <= L.size
    ensures exists t :: Reach(L, Initial(disk), t) && Starved(L, t)
  {
    hide Reach, Header;
    var t := Committing(L, disk, NBUF, disk[0]);
    assert forall b :: b in t.cache ==> Parked(t, b) && t.cache[b].dirty && b != L.start + 1;
    assert Starved(L, t);
  }

  /** The disk that mkfs writes: it is safe in every run, and two operations that race for the last
      block stop the machine at commit. */
  lemma MkfsLayoutStarves(disk: seq<Block>)
    requires |disk| == 1000 && Header(disk[2]) == []
    ensures Bootable(Layout(2, LOGSIZE, 1000), disk) && AlwaysCrashSafe(Layout(2, LOGSIZE, 1000), disk)
    ensures exists t :: Reach(Layout(2, LOGSIZE, 1000), Initial(disk), t) && Starved(Layout(2, LOGSIZE, 1000), t)
  {
    hide Header, Reach, AlwaysCrashSafe, Starved;
    CrashSafeIff(Layout(2, LOGSIZE, 1000), disk);
    StarvedReachable(Layout(2, LOGSIZE, 1000), disk);
  }
}
