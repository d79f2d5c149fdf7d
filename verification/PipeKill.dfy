/** What kill does to a pipe: a writer that was killed leaves a full pipe without a wakeup, and a reader
    sleeps on although there are bytes to read. */
module PipeKill {
  import opened Wrappers
  import opened Pipe
  import opened PipeProof

  ghost predicate Reach(s: State, t: State) { exists acts :: Run(s, acts, t) }

  lemma {:induction false} RunAppend(s: State, first: seq<Action>, m: State, second: seq<Action>, t: State)
    requires Run(s, first, m) && Run(m, second, t)
    ensures Run(s, first + second, t)
    decreases |first|
  {
    hide Do, Enabled;
    if first == [] {
      assert first + second == second;
    } else {
      assert (first + second)[1..] == first[1..] + second;
      RunAppend(Do(s, first[0]), first[1..], m, second, t);
    }
  }

  lemma Then(s: State, t: State, u: State)
    requires Reach(s, t) && Reach(t, u)
    ensures Reach(s, u)
  {
    hide Run;
    var a :| Run(s, a, t);
    var b :| Run(t, b, u);
    RunAppend(s, a, t, b, u);
  }

  lemma One(s: State, a: Action)
    requires |s.data| == PIPESIZE && Enabled(s, a)
    ensures Reach(s, Do(s, a))
  {
    hide Do, Enabled;
    var t := Do(s, a);
    assert [a][1..] == [];
    assert Run(t, [], t);
    assert Run(s, [a], t);
  }

  lemma Stay(s: State)
    ensures Reach(s, s)
  {
    assert Run(s, [], s);
  }

  /** A reader finds the pipe empty. */
  lemma Asks(s: State, q: Pid) returns (t: State)
    requires Initial(s) && q in s.procs
    ensures Reach(s, t) && t == s.(procs := s.procs[q := RSleep1(1)], lk := Some(q))
  {
    hide Reach, Run, WriterStep, CloserStep, WokenReaders, WokenWriters, Stored, Taken;
    var s1 := Do(s, Read(q, 1));
    var s2 := Do(s1, Next(q));
    t := Do(s2, Next(q));
    One(s, Read(q, 1));
    One(s1, Next(q));
    One(s2, Next(q));
    Then(s, s1, s2);
    Then(s, s2, t);
  }

  /** It goes to sleep; the rest is as it was. */
  lemma Sleeps(s: State, q: Pid) returns (t: State)
    requires |s.data| == PIPESIZE && q in s.procs && s.procs[q] == RSleep1(1) && s.lk == Some(q) && s.pt.None?
    ensures Reach(s, t) && t == s.(procs := s.procs[q := RAsleep(1)], lk := None)
  {
    hide Reach, Run, WriterStep, CloserStep, WokenReaders, WokenWriters, Stored, Taken;
    var s1 := Do(s, Next(q));
    var s2 := Do(s1, Next(q));
    t := Do(s2, Next(q));
    One(s, Next(q));
    One(s1, Next(q));
    One(s2, Next(q));
    Then(s, s1, s2);
    Then(s, s2, t);
  }

  /** The killed writer p has stored n bytes; reader q sleeps. */
  ghost predicate Doomed(s: State, p: Pid, q: Pid, buf: seq<int>, n: nat) {
    && p != q && p in s.procs && q in s.procs && s.procs[p] == WTest(buf, n) && s.procs[q].RAsleep?
    && RingOk(s) && |s.got| == 0 && |s.written| == n && s.lk == Some(p) && s.pt.None? && s.readopen && p in s.killed
  }

  /** A write begins, and the writer is killed. */
  lemma Begins(s: State, p: Pid, q: Pid, buf: seq<int>) returns (t: State)
    requires Initial(s.(procs := s.procs[q := Out])) && p in s.procs && q in s.procs && p != q && s.procs[q].RAsleep?
    ensures Reach(s, t) && Doomed(t, p, q, buf, 0)
  {
    hide Reach, Run, ReaderStep, CloserStep, WokenReaders, WokenWriters, Stored, Taken;
    assert s.procs[q := Out][p] == Out;
    forall r | r in s.procs ensures !Closes(s.procs[r], true) {
      assert s.procs[q := Out][r] == Out;
    }
    var s1 := Do(s, Write(p, buf));
    var s2 := Do(s1, Next(p));
    t := Do(s2, Kill(p));
    One(s, Write(p, buf));
    One(s1, Next(p));
    One(s2, Kill(p));
    Then(s, s1, s2);
    Then(s, s2, t);
  }

  lemma {:induction false} Fills(s: State, p: Pid, q: Pid, buf: seq<int>, n: nat) returns (t: State)
    requires Doomed(s, p, q, buf, n) && n <= PIPESIZE < |buf|
    ensures Reach(s, t) && Doomed(t, p, q, buf, PIPESIZE)
    decreases PIPESIZE - n
  {
    hide Reach, Run, RingOk;
    RingSize(s);
    RingTests(s);
    if n == PIPESIZE {
      Stay(s);
      return s;
    }
    One(s, Next(p));
    NextRing(s, p);
    t := Fills(Do(s, Next(p)), p, q, buf, n + 1);
    Then(s, Do(s, Next(p)), t);
  }

  /** The full pipe sends the killed writer away. */
  lemma Leaves(s: State, p: Pid, q: Pid, buf: seq<int>) returns (t: State)
    requires Doomed(s, p, q, buf, PIPESIZE) && PIPESIZE < |buf|
    ensures Reach(s, t) && q in t.procs && t.procs[q].RAsleep? && t.lk.None? && t.gaveUp
    ensures |t.written| == PIPESIZE && |t.got| == 0
  {
    hide Reach, Run;
    RingTests(s);
    var s1 := Do(s, Next(p));
    t := Do(s1, Next(p));
    One(s, Next(p));
    One(s1, Next(p));
    Then(s, s1, t);
  }

  /** With a reader and a writer there, kill leads to a state in which the pipe is full, its lock is
      free, and the reader is asleep. */
  lemma LostByKill(s: State, p: Pid, q: Pid)
    requires Initial(s) && p in s.procs && q in s.procs && p != q
    ensures exists t :: Reach(s, t) && q in t.procs && t.procs[q].RAsleep? && t.lk.None? && |t.written| == |t.got| + PIPESIZE
  {
    hide Reach, Run, Doomed;
    var buf := seq(PIPESIZE + 1, i => 0);
    var s0 := Asks(s, q);
    var s1 := Sleeps(s0, q);
    Then(s, s0, s1);
    assert s1.procs[q := Out] == s.procs;
    var s2 := Begins(s1, p, q, buf);
    var s3 := Fills(s2, p, q, buf, 0);
    var t := Leaves(s3, p, q, buf);
    Then(s, s1, s2);
    Then(s, s2, s3);
    Then(s, s3, t);
  }
}
