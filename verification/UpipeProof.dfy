/** Mutual exclusion, and first in, first out, in every run of the user-level pipe. */
module UpipeProof {
  import opened Wrappers
  import opened Upipe

  // ---- arithmetic -----------------------------------------------------------------------------------

  lemma ModApart(i: nat, j: nat, n: nat)
    requires i < j < i + n
    ensures i % n != j % n
  {
    var a, b := i / n, j / n;
    assert i == n * a + i % n && j == n * b + j % n;
    if i % n == j % n {
      assert j - i == n * (b - a);
      MultipleBig(n, b - a);
      assert false;
    }
  }

  lemma MultipleBig(n: nat, k: int)
    requires n > 0 && n * k > 0
    ensures n * k >= n
  {
  }

  lemma DividesBoth(r: nat, x: int, y: int)
    requires r > 0 && Divides(r, x) && Divides(r, y)
    ensures Divides(r, x + y) && Divides(r, x - y)
  {
    var a, b := x / r, y / r;
    assert x == r * a && y == r * b;
    assert x + y == r * (a + b) && x - y == r * (a - b);
    MultipleDivides(r, a + b);
    MultipleDivides(r, a - b);
  }

  lemma MultipleDivides(r: nat, k: int)
    requires r > 0
    ensures Divides(r, r * k)
  {
    var x := r * k;
    assert x == r * (x / r) + x % r;
    assert r * (k - x / r) == x % r;
    if x % r != 0 {
      MultipleBig(r, k - x / r);
    }
  }

  lemma DividesBig(r: nat, x: int)
    requires r > 0 && Divides(r, x) && x > 0
    ensures x >= r
  {
    assert x == r * (x / r);
    MultipleBig(r, x / r);
  }

  // ---- one process moves -----------------------------------------------------------------------------

  /** What a step of another process may do to a process: wake it. */
  predicate Moved(pc: PC, pc': PC) {
    pc' == pc || ((pc.MutexAsleep? || pc.CondAsleep?) && pc' == Acquire(pc.call))
  }

  ghost predicate Others(s: State, t: State, p: Pid) {
    && p in s.procs && t.procs.Keys == s.procs.Keys
    && forall q :: q in s.procs && q != p ==> Moved(s.procs[q], t.procs[q])
  }

  lemma OthersGo(s: State, t: State, p: Pid)
    requires p in s.procs && p in t.procs && t.procs == s.procs[p := t.procs[p]]
    ensures Others(s, t, p)
  {
  }

  lemma OthersWoken(s: State, t: State, p: Pid)
    requires p in s.procs && p in t.procs && t.procs == Woken(s.procs)[p := t.procs[p]]
    ensures Others(s, t, p)
  {
    assert t.procs.Keys == s.procs.Keys;
  }

  lemma OthersSignal(s: State, t: State, p: Pid, q: Pid)
    requires p in s.procs && p in t.procs && t.procs == WokenOne(s.procs, q)[p := t.procs[p]]
    ensures Others(s, t, p)
  {
    assert t.procs.Keys == s.procs.Keys;
  }

  lemma SignalOthers(s: State, t: State, p: Pid, writer: bool)
    requires p in s.procs && p in t.procs && t.procs == Signalled(s, writer).procs[p := t.procs[p]]
    ensures Others(s, t, p)
  {
    hide WokenOne, Others;
    var list := if writer then s.empty else s.full;
    if list == [] {
      OthersGo(s, t, p);
    } else {
      OthersSignal(s, t, p, list[0]);
    }
  }

  lemma StepOthers(s: State, a: Action)
    requires Enabled(s, a) && 0 < |s.data|
    ensures Others(s, Do(s, a), a.pid)
  {
    hide Others, Woken, WokenOne, Signalled;
    var t, p := Do(s, a), a.pid;
    if a.Next? && (s.procs[p].CondWait? || s.procs[p].Release?) {
      OthersWoken(s, t, p);
    } else if a.Next? && s.procs[p].SignalOther? {
      SignalOthers(s, t, p, s.procs[p].call.WriteCall?);
    } else if a.Next? && s.procs[p].EndSignal? {
      SignalOthers(s, t, p, s.procs[p].writer);
    } else {
      OthersGo(s, t, p);
    }
  }

  // ---- the mutex ----------------------------------------------------------------------------------------

  /** How a step of p treats the mutex. */
  ghost predicate LockStep(s: State, t: State, p: Pid) {
    && p in s.procs && p in t.procs
    && (|| (&& t.holder == s.holder && t.value == s.value && (Holding(t.procs[p]) <==> Holding(s.procs[p]))
            && (t.procs[p].MutexAsleep? ==> s.holder.Some?))
        || (s.holder.None? && t.holder == Some(p) && t.value == 1 && Holding(t.procs[p]))
        || (&& s.holder == Some(p) && t.holder.None? && t.value == 0 && !Holding(t.procs[p])
            && forall q :: q in t.procs ==> !t.procs[q].MutexAsleep?))
  }

  lemma StepLocks(s: State, a: Action)
    requires MutexOk(s) && Enabled(s, a) && 0 < |s.data|
    ensures LockStep(s, Do(s, a), a.pid)
  {
    hide WokenOne;
    assert PlaceOk(s, a.pid);
  }

  lemma LockKeeps(s: State, t: State, p: Pid)
    requires MutexOk(s) && Others(s, t, p) && p in t.procs && LockStep(s, t, p)
    ensures MutexOk(t)
  {
    forall q | q in t.procs ensures PlaceOk(t, q) {
      assert PlaceOk(s, q) && PlaceOk(s, p);
    }
  }

  // ---- sizes -----------------------------------------------------------------------------------------------

  /** Only the process inside the mutex touches count; others need only know that they are outside. */
  lemma OtherSize(r: nat, s: State, t: State, p: Pid, q: Pid)
    requires r > 0 && q in s.procs && q in t.procs && SizeOk(r, s, q) && Moved(s.procs[q], t.procs[q])
    requires t.count == s.count || !Holding(s.procs[q])
    ensures SizeOk(r, t, q)
  {
    hide Divides, CallOk;
  }

  lemma MySize(r: nat, s: State, a: Action)
    requires SizesOk(r, s) && MutexOk(s) && RingOk(s) && Enabled(s, a) && Fits(r, a)
    ensures a.pid in Do(s, a).procs && SizeOk(r, Do(s, a), a.pid)
    ensures Do(s, a).holder.None? ==> Divides(r, Do(s, a).count)
  {
    hide Divides, Woken, WokenOne;
    var p := a.pid;
    assert PlaceOk(s, p) && SizeOk(r, s, p);
    DividesZero(r);
    if a.Next? && s.procs[p].Test? {
      TestSize(r, s, p);
    } else if a.Next? && s.procs[p].Acquire? && s.holder.None? {
      AcquireSize(r, s, p);
    } else if a.Next? && s.procs[p].Copy? {
      assert s.count - 1 - (s.procs[p].left - 1) == s.count - s.procs[p].left;
      assert s.count - 0 == s.count;
    }
  }

  lemma DividesZero(r: nat)
    requires r > 0
    ensures Divides(r, 0)
  {
  }

  lemma AcquireSize(r: nat, s: State, p: Pid)
    requires r > 0 && p in s.procs && s.procs[p].Acquire? && 0 < |s.data| && SizeOk(r, s, p) && Divides(r, s.count)
    ensures p in Stepped(s, p).procs && SizeOk(r, Stepped(s, p), p)
  {
    hide Divides;
    var call := s.procs[p].call;
    if call.WriteCall? {
      DividesBoth(r, s.count, call.i);
    }
  }

  lemma TestSize(r: nat, s: State, p: Pid)
    requires r > 0 && p in s.procs && s.procs[p].Test? && RingOk(s) && SizeOk(r, s, p) && Divides(r, |s.data|)
    ensures p in Stepped(s, p).procs && SizeOk(r, Stepped(s, p), p)
  {
    hide Divides;
    match s.procs[p].call
    case WriteCall(buf, i) =>
      if i >= |buf| {
        DividesBoth(r, s.count - i, |buf|);
        assert s.count - i + |buf| == s.count;
      } else if s.count == |s.data| {
        DividesBoth(r, s.count, s.count - i);
        assert s.count - (s.count - i) == i;
      } else {
        assert s.count + 1 - (i + 1) == s.count - i;
      }
    case ReadCall(n) =>
      if s.readIndex != s.writeIndex {
        DividesSelf(r);
        DividesBoth(r, s.count, r);
        DividesBig(r, s.count);
      }
  }

  lemma DividesSelf(r: nat)
    requires r > 0
    ensures Divides(r, r)
  {
  }

  lemma StepCounts(s: State, a: Action)
    requires MutexOk(s) && Enabled(s, a) && 0 < |s.data|
    ensures |Do(s, a).data| == |s.data|
    ensures Do(s, a).count == s.count || s.holder == Some(a.pid)
  {
    hide Woken, WokenOne;
    assert PlaceOk(s, a.pid);
  }

  lemma KeepSizes(r: nat, s: State, a: Action)
    requires SizesOk(r, s) && MutexOk(s) && RingOk(s) && Enabled(s, a) && Fits(r, a)
    ensures SizesOk(r, Do(s, a))
  {
    hide Do, Divides, SizeOk;
    var t, p := Do(s, a), a.pid;
    StepOthers(s, a);
    StepCounts(s, a);
    MySize(r, s, a);
    forall q | q in t.procs ensures SizeOk(r, t, q) {
      if q != p {
        assert PlaceOk(s, q) && SizeOk(r, s, q);
        OtherSize(r, s, t, p, q);
      }
    }
  }

  // ---- the ring -----------------------------------------------------------------------------------------------

  lemma StoredRing(s: State, p: Pid, buf: seq<int>, i: nat)
    requires RingOk(s) && i < |buf| && s.count != |s.data|
    ensures RingOk(Stored(s, p, buf, i))
  {
    var t := Stored(s, p, buf, i);
    assert s.got <= t.written;
    forall j | |t.got| <= j < |t.written| ensures t.data[j % |t.data|] == t.written[j] {
      if j < |s.written| {
        ModApart(j, |s.written|, |s.data|);
      }
    }
  }

  lemma TakenRing(s: State, p: Pid, left: nat)
    requires RingOk(s) && 0 < left <= s.count
    ensures RingOk(Taken(s, p, left))
  {
    var t := Taken(s, p, left);
    assert s.data[|s.got| % |s.data|] == s.written[|s.got|];
    assert t.got == s.written[..|s.got| + 1];
  }

  predicate SameRing(s: State, t: State) {
    && t.data == s.data && t.written == s.written && t.got == s.got
    && t.readIndex == s.readIndex && t.writeIndex == s.writeIndex && t.count == s.count
  }

  lemma RingSame(s: State, t: State)
    requires RingOk(s) && SameRing(s, t)
    ensures RingOk(t)
  {
  }

  predicate Moves(s: State, a: Action)
    requires Enabled(s, a)
  {
    var pc := s.procs[a.pid];
    a.Next? && ((pc.Test? && pc.call.WriteCall? && pc.call.i < |pc.call.buf| && s.count != |s.data|) || (pc.Copy? && pc.left > 0))
  }

  lemma StepSame(s: State, a: Action)
    requires Enabled(s, a) && 0 < |s.data| && !Moves(s, a)
    ensures SameRing(s, Do(s, a))
  {
    hide Woken, WokenOne, Stored, Taken;
  }

  lemma KeepRing(r: nat, s: State, a: Action)
    requires SizesOk(r, s) && RingOk(s) && Enabled(s, a)
    ensures RingOk(Do(s, a))
  {
    hide Divides, Stored, Taken, Woken, WokenOne, SameRing;
    var pc := s.procs[a.pid];
    assert SizeOk(r, s, a.pid);
    if !Moves(s, a) {
      StepSame(s, a);
      RingSame(s, Do(s, a));
    } else if pc.Test? {
      StoredRing(s, a.pid, pc.call.buf, pc.call.i);
    } else {
      TakenRing(s, a.pid, pc.left);
    }
  }

  // ---- over whole runs -------------------------------------------------------------------------------------------

  ghost predicate Run(s: State, acts: seq<Action>, t: State)
    decreases |acts|
  {
    if acts == [] then s == t
    else 0 < |s.data| && Enabled(s, acts[0]) && Run(Do(s, acts[0]), acts[1..], t)
  }

  lemma KeepMutex(s: State, a: Action)
    requires MutexOk(s) && Enabled(s, a) && 0 < |s.data|
    ensures MutexOk(Do(s, a)) && 0 < |Do(s, a).data|
  {
    hide Do, MutexOk, Others;
    StepOthers(s, a);
    StepLocks(s, a);
    StepCounts(s, a);
    LockKeeps(s, Do(s, a), a.pid);
  }

  lemma {:induction false} RunMutex(s: State, acts: seq<Action>, t: State)
    requires MutexOk(s) && Run(s, acts, t)
    ensures MutexOk(t)
    decreases |acts|
  {
    hide MutexOk, Do, Enabled;
    if acts != [] {
      KeepMutex(s, acts[0]);
      RunMutex(Do(s, acts[0]), acts[1..], t);
    }
  }

  /** Whatever the calls are: at most one process is between lock_acquire and lock_release, also
      across cond_wait, and nobody sleeps on a free mutex. */
  lemma MutexExclusion(s: State, acts: seq<Action>, t: State, p: Pid, q: Pid)
    requires Initial(s) && Run(s, acts, t) && p in t.procs && q in t.procs
    ensures Holding(t.procs[p]) && Holding(t.procs[q]) ==> p == q
    ensures t.procs[p].MutexAsleep? ==> t.value == 1
    ensures t.value == 1 <==> exists h :: h in t.procs && Holding(t.procs[h])
  {
    hide Run;
    assert MutexOk(s) by {
      assert forall h :: h in s.procs ==> PlaceOk(s, h);
    }
    RunMutex(s, acts, t);
    assert PlaceOk(t, p) && PlaceOk(t, q);
    if t.holder.Some? {
      assert PlaceOk(t, t.holder.value);
    }
  }

  ghost predicate Inv(r: nat, s: State) { MutexOk(s) && RingOk(s) && SizesOk(r, s) }

  lemma {:induction false} RunInv(r: nat, s: State, acts: seq<Action>, t: State)
    requires Inv(r, s) && Run(s, acts, t) && forall i :: 0 <= i < |acts| ==> Fits(r, acts[i])
    ensures Inv(r, t)
    decreases |acts|
  {
    hide MutexOk, RingOk, SizesOk, Do, Enabled, Fits;
    if acts != [] {
      Positive(r, s);
      KeepMutex(s, acts[0]);
      KeepSizes(r, s, acts[0]);
      KeepRing(r, s, acts[0]);
      RunInv(r, Do(s, acts[0]), acts[1..], t);
    }
  }

  lemma Positive(r: nat, s: State)
    requires Inv(r, s)
    ensures r > 0 && 0 < |s.data|
  {
  }

  /** If every read asks for r bytes, and r divides the size of the pipe and of every write, no read
      runs past what was written, and bytes come out in the order in which they went in. Whenever
      the mutex is free, whole reads are available. */
  lemma UpipeFifo(r: nat, s: State, acts: seq<Action>, t: State)
    requires r > 0 && Initial(s) && Divides(r, |s.data|) && Run(s, acts, t)
    requires forall i :: 0 <= i < |acts| ==> Fits(r, acts[i])
    ensures t.got <= t.written && t.count == |t.written| - |t.got| && 0 <= t.count <= |t.data|
    ensures t.value == 0 ==> Divides(r, t.count)
  {
    hide Run, Fits;
    DividesZero(r);
    assert MutexOk(s) by {
      assert forall h :: h in s.procs ==> PlaceOk(s, h);
    }
    assert SizesOk(r, s) by {
      assert forall h :: h in s.procs ==> SizeOk(r, s, h);
    }
    RunInv(r, s, acts, t);
  }

  lemma {:induction false} RunAppend(s: State, first: seq<Action>, m: State, second: seq<Action>, t: State)
    requires Run(s, first, m) && Run(m, second, t)
    ensures Run(s, first + second, t)
    decreases |first|
  {
    hide Do, Enabled;
    if first == [] {
      assert first + second == second;
    } else {
      assert (first + second)[1..] == first[1..] + second;
      RunAppend(Do(s, first[0]), first[1..], m, second, t);
    }
  }
}
