/** Runs of the log machine that fill the log, as far as three operations can. */
module LogRuns {
  import opened Wrappers
  import opened Blocks
  import opened LogMachine
  import opened LogInvariant
  import opened LogTheorems

  ghost predicate Reach(L: Layout, s: State, t: State)
    requires ValidLayout(L)
  {
    exists acts :: Run(L, s, acts, t)
  }

  lemma Then(L: Layout, s: State, t: State, u: State)
    requires ValidLayout(L) && Reach(L, s, t) && Reach(L, t, u)
    ensures Reach(L, s, u)
  {
    hide Run;
    var a :| Run(L, s, a, t);
    var b :| Run(L, t, b, u);
    RunAppend(L, s, a, t, b, u);
  }

  lemma One(L: Layout, s: State, a: Action)
    requires ValidLayout(L) && |s.disk| == L.nblocks && Enabled(L, s, a)
    ensures Reach(L, s, Do(L, s, a))
  {
    hide Do, Enabled;
    var t := Do(L, s, a);
    assert [a][1..] == [];
    assert Run(L, t, [], t);
    assert Run(L, s, [a], t);
  }

  lemma Stay(L: Layout, s: State)
    requires ValidLayout(L)
    ensures Reach(L, s, s)
  {
    assert Run(L, s, [], s);
  }

  /** The i-th block behind the log region. */
  function Behind(L: Layout, i: nat): nat { L.start + L.size + i }

  /** The first k blocks behind the log region. */
  function Listed(L: Layout, k: nat): seq<nat> { seq(k, i requires 0 <= i => Behind(L, i)) }

  /** log_write calls made by operation p when k were made in all: ten by operation 0, then nine each
      by 1 and 2, which leaves these two with one more each. */
  function Share(p: nat, k: nat): nat {
    if p == 0 then Clamp(k, 0, 10) else if p == 1 then Clamp(k, 10, 9) else Clamp(k, 19, 9)
  }

  function Clamp(k: nat, from: nat, most: nat): nat {
    if k <= from then 0 else if k - from >= most then most else k - from
  }

  function Turn(k: nat): nat { if k < 10 then 0 else if k < 19 then 1 else 2 }

  const SHARED: nat := 28

  /** Block b is cached, valid and not busy. */
  predicate Parked(s: State, b: nat) { b in s.cache && s.cache[b].holder.None? && s.cache[b].valid }

  predicate FreshOp(op: Op, used: nat) { op.used == used && !op.checked && op.unlogged == {} }

  /** Three operations are open and have logged the first k blocks behind the log. */
  ghost predicate Filling(L: Layout, s: State, k: nat) {
    && |s.disk| == L.nblocks && L.start < |s.disk| && Header(s.disk[L.start]) == []
    && s.phase.Idle? && !s.committing && s.outstanding == 3 && s.committed == 0 && s.trace == []
    && s.ops.Keys == {0, 1, 2} && (forall p :: p in s.ops ==> FreshOp(s.ops[p], Share(p, k)))
    && s.lh == Listed(L, k)
    && |s.cache| == k + 1 && Parked(s, L.start) && !s.cache[L.start].dirty
    && (forall b :: b in s.cache ==> b == L.start || Behind(L, 0) <= b < Behind(L, k))
    && (forall b :: Behind(L, 0) <= b < Behind(L, k) ==> Parked(s, b) && s.cache[b].dirty)
  }

  /** bread of a block that is not cached, into a buffer not yet used. */
  lemma ReadOne(L: Layout, s: State, p: Pid, b: nat) returns (t: State)
    requires ValidLayout(L) && |s.disk| == L.nblocks && b < L.nblocks && b !in s.cache && |s.cache| < NBUF
    ensures Reach(L, s, t)
    ensures t == s.(cache := s.cache[b := Buf(Some(p), true, false, s.disk[b])])
  {
    hide Reach, Run;
    var m := Do(L, s, Recycle(p, None, b));
    t := Do(L, m, Fill(p, b));
    One(L, s, Recycle(p, None, b));
    One(L, m, Fill(p, b));
    Then(L, s, m, t);
    assert t.cache == s.cache[b := Buf(Some(p), true, false, s.disk[b])];
  }

  /** The same into the buffer of block v. */
  lemma ReadOver(L: Layout, s: State, p: Pid, v: nat, b: nat) returns (t: State)
    requires ValidLayout(L) && |s.disk| == L.nblocks && b < L.nblocks && b !in s.cache && Reusable(s, v)
    ensures Reach(L, s, t)
    ensures t == s.(cache := (s.cache - {v})[b := Buf(Some(p), true, false, s.disk[b])])
  {
    hide Reach, Run;
    var m := Do(L, s, Recycle(p, Some(v), b));
    t := Do(L, m, Fill(p, b));
    One(L, s, Recycle(p, Some(v), b));
    One(L, m, Fill(p, b));
    Then(L, s, m, t);
    assert t.cache == (s.cache - {v})[b := Buf(Some(p), true, false, s.disk[b])];
  }

  /** log_write of a buffer, and brelse. */
  lemma LogOne(L: Layout, s: State, p: Pid, b: nat) returns (t: State)
    requires ValidLayout(L) && |s.disk| == L.nblocks && Home(L, b) && HeldValid(s, p, b)
    requires p in s.ops && FreshOp(s.ops[p], s.ops[p].used) && s.ops[p].used < MAXOPBLOCKS && !LogWritePanics(L, s)
    ensures Reach(L, s, t)
    ensures t == SetHolder(Logged(s, p, b), b, None)
  {
    hide Reach, Run;
    var m := Do(L, s, LogCheck(p));
    var n := Do(L, m, LogWrite(p, b));
    t := Do(L, n, Release(p, b));
    One(L, s, LogCheck(p));
    One(L, m, LogWrite(p, b));
    One(L, n, Release(p, b));
    Then(L, s, m, n);
    Then(L, s, n, t);
    assert n.ops == Logged(s, p, b).ops;
  }

  lemma OneMore(L: Layout, s: State, k: nat) returns (t: State)
    requires ValidLayout(L) && Behind(L, LOGSIZE) <= L.nblocks && Filling(L, s, k) && k < SHARED && k < L.size - 1
    ensures Reach(L, s, t) && Filling(L, t, k + 1)
  {
    hide Reach, Run, Enabled, Do, Header;
    var p, b := Turn(k), Behind(L, k);
    assert p in s.ops && Share(p, k) < MAXOPBLOCKS;
    var m := ReadOne(L, s, p, b);
    t := LogOne(L, m, p, b);
    Then(L, s, m, t);
    FillingNext(L, s, k, p, t, s.disk[b]);
  }

  lemma FillingNext(L: Layout, s: State, k: nat, p: Pid, t: State, data: Block)
    requires Filling(L, s, k) && k < SHARED && p == Turn(k) && p in s.ops && 1 <= L.size
    requires var b := Behind(L, k); t == SetHolder(Logged(s.(cache := s.cache[b := Buf(Some(p), true, false, data)]), p, b), b, None)
    ensures Filling(L, t, k + 1)
  {
    hide Header;
    var b := Behind(L, k);
    assert b !in s.lh;
    assert t.lh == Listed(L, k + 1);
    assert t.ops.Keys == {0, 1, 2};
    forall q | q in t.ops ensures FreshOp(t.ops[q], Share(q, k + 1)) {
      assert FreshOp(s.ops[q], Share(q, k));
      assert s.ops[q].unlogged - {b} == {};
    }
    assert |t.cache| == k + 2;
    forall c | Behind(L, 0) <= c < Behind(L, k + 1) ensures Parked(t, c) && t.cache[c].dirty {
      assert c < Behind(L, k) ==> Parked(s, c);
    }
  }

  lemma {:induction false} FillUp(L: Layout, s: State, k: nat, n: nat) returns (t: State)
    requires ValidLayout(L) && Behind(L, LOGSIZE) <= L.nblocks
    requires Filling(L, s, k) && k <= n <= SHARED && n <= L.size - 1
    ensures Reach(L, s, t) && Filling(L, t, n)
    decreases n - k
  {
    hide Filling, Reach;
    if k == n {
      Stay(L, s);
      return s;
    }
    var m := OneMore(L, s, k);
    t := FillUp(L, m, k + 1, n);
    Then(L, s, m, t);
  }

  /** Power-on with an empty log. */
  lemma BootUp(L: Layout, disk: seq<Block>) returns (t: State)
    requires ValidLayout(L) && |disk| == L.nblocks && Header(disk[L.start]) == []
    ensures Reach(L, Initial(disk), t)
    ensures t.phase.Idle? && !t.committing && t.outstanding == 0 && t.ops == map[] && t.lh == []
    ensures t.trace == [] && t.committed == 0
    ensures |t.disk| == L.nblocks && OneBuffer(L, t) && Header(t.disk[L.start]) == []
  {
    hide Reach, Run, Header, WithHeader;
    var s := Initial(disk);
    var m := ReadOne(L, s, 0, L.start);
    var n := Do(L, m, ReadHead);
    var o := Do(L, n, EraseHead);
    t := Do(L, o, Release(0, L.start));
    One(L, m, ReadHead);
    One(L, n, EraseHead);
    One(L, o, Release(0, L.start));
    Then(L, s, m, n);
    Then(L, s, n, o);
    Then(L, s, o, t);
    assert t.cache.Keys == {L.start};
    assert |t.cache| == |t.cache.Keys|;
  }

  /** Only the header block is cached. */
  ghost predicate OneBuffer(L: Layout, s: State) {
    |s.cache| == 1 && s.cache.Keys == {L.start} && Parked(s, L.start) && !s.cache[L.start].dirty
  }

  lemma OpenThree(L: Layout, s: State) returns (t: State)
    requires ValidLayout(L) && |s.disk| == L.nblocks && OneBuffer(L, s) && Header(s.disk[L.start]) == []
    requires s.phase.Idle? && !s.committing && s.outstanding == 0 && s.ops == map[] && s.lh == []
    requires s.trace == [] && s.committed == 0
    ensures Reach(L, s, t) && Filling(L, t, 0)
  {
    hide Reach, Run, Header;
    var m := Do(L, s, BeginOp(0));
    var n := Do(L, m, BeginOp(1));
    t := Do(L, n, BeginOp(2));
    One(L, s, BeginOp(0));
    One(L, m, BeginOp(1));
    One(L, n, BeginOp(2));
    Then(L, s, m, n);
    Then(L, s, n, t);
    assert t.ops.Keys == {0, 1, 2};
  }

  /** From power-on, three operations log n blocks. */
  lemma Filled(L: Layout, disk: seq<Block>, n: nat) returns (t: State)
    requires ValidLayout(L) && |disk| == L.nblocks && Header(disk[L.start]) == []
    requires Behind(L, LOGSIZE) <= L.nblocks && n <= SHARED && n <= L.size - 1
    ensures Reach(L, Initial(disk), t) && Filling(L, t, n)
  {
    hide Reach, Filling;
    var s := BootUp(L, disk);
    var m := OpenThree(L, s);
    t := FillUp(L, m, 0, n);
    Then(L, Initial(disk), s, m);
    Then(L, Initial(disk), m, t);
  }
}
