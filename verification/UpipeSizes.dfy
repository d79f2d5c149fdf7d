/** For which sizes the user-level pipe is safe: if writers always write w bytes and readers always
    ask for r, reads stay within what was written exactly when r divides w and the size of the pipe. */
module UpipeSizes {
  import opened Wrappers
  import opened Upipe
  import opened UpipeProof

  /** Calls of one size for writers and one for readers. */
  predicate Uniform(w: nat, r: nat, a: Action) {
    match a
    case Write(_, buf) => |buf| == w
    case Read(_, n) => n == r
    case Next(_) => true
  }

  ghost predicate AllUniform(w: nat, r: nat, acts: seq<Action>) { forall i :: 0 <= i < |acts| ==> Uniform(w, r, acts[i]) }

  ghost predicate Reach(w: nat, r: nat, s: State, t: State) {
    exists acts :: Run(s, acts, t) && AllUniform(w, r, acts)
  }

  lemma Stay(w: nat, r: nat, s: State)
    ensures Reach(w, r, s, s)
  {
    assert Run(s, [], s) && AllUniform(w, r, []);
  }

  lemma Then(w: nat, r: nat, s: State, t: State, u: State)
    requires Reach(w, r, s, t) && Reach(w, r, t, u)
    ensures Reach(w, r, s, u)
  {
    hide Run;
    var a :| Run(s, a, t) && AllUniform(w, r, a);
    var b :| Run(t, b, u) && AllUniform(w, r, b);
    RunAppend(s, a, t, b, u);
    assert Run(s, a + b, u) && AllUniform(w, r, a + b);
  }

  lemma One(w: nat, r: nat, s: State, a: Action)
    requires 0 < |s.data| && Enabled(s, a) && Uniform(w, r, a)
    ensures Reach(w, r, s, Do(s, a))
  {
    hide Do, Enabled;
    var t := Do(s, a);
    assert [a][1..] == [];
    assert Run(t, [], t);
    assert Run(s, [a], t) && AllUniform(w, r, [a]);
  }

  /** The writer p stands at a, the reader q at b; c bytes are counted and h holds the mutex. The
      writer is on the list of cvFull just while it sleeps there. */
  ghost predicate View(s: State, size: nat, p: Pid, q: Pid, a: PC, b: PC, c: int, h: Option<Pid>) {
    && p != q && p in s.procs && q in s.procs && s.procs[p] == a && s.procs[q] == b
    && |s.data| == size > 0 && s.count == c == s.writeIndex - s.readIndex
    && s.holder == h && s.value == (if h.Some? then 1 else 0)
    && s.empty == [] && s.full == if a.CondAsleep? then [p] else []
  }

  // ---- the reader -------------------------------------------------------------------------------------

  /** The writer is out of the way: it does not hold the mutex. */
  predicate Aside(a: PC) { a.Out? || a.Acquire? || a.CondAsleep? }

  /** Where the writer stands after a read, whose signal wakes it. */
  function After(a: PC): PC { if a.CondAsleep? then Acquire(a.call) else a }

  lemma Asks(w: nat, r: nat, s: State, size: nat, p: Pid, q: Pid, a: PC, c: int) returns (t: State)
    requires View(s, size, p, q, a, Out, c, None) && Aside(a) && c > 0
    ensures Reach(w, r, s, t) && View(t, size, p, q, a, Copy(r), c, Some(q))
  {
    hide Reach, Run;
    var s1 := Do(s, Read(q, r));
    var s2 := Do(s1, Next(q));
    t := Do(s2, Next(q));
    One(w, r, s, Read(q, r));
    One(w, r, s1, Next(q));
    One(w, r, s2, Next(q));
    Then(w, r, s, s1, s2);
    Then(w, r, s, s2, t);
  }

  lemma {:induction false} Copies(w: nat, r: nat, s: State, size: nat, p: Pid, q: Pid, a: PC, c: int, left: nat) returns (t: State)
    requires View(s, size, p, q, a, Copy(left), c, Some(q)) && Aside(a)
    ensures Reach(w, r, s, t) && View(t, size, p, q, a, Copy(0), c - left, Some(q))
    decreases left
  {
    hide Reach, Run;
    if left == 0 {
      Stay(w, r, s);
      return s;
    }
    One(w, r, s, Next(q));
    t := Copies(w, r, Do(s, Next(q)), size, p, q, a, c - 1, left - 1);
    Then(w, r, s, Do(s, Next(q)), t);
  }

  lemma Leaves(w: nat, r: nat, s: State, size: nat, p: Pid, q: Pid, a: PC, c: int) returns (t: State)
    requires View(s, size, p, q, a, Copy(0), c, Some(q)) && Aside(a)
    ensures Reach(w, r, s, t) && View(t, size, p, q, After(a), Out, c, None)
  {
    hide Reach, Run;
    var s1 := Do(s, Next(q));
    var s2 := Do(s1, Next(q));
    t := Do(s2, Next(q));
    One(w, r, s, Next(q));
    One(w, r, s1, Next(q));
    One(w, r, s2, Next(q));
    Then(w, r, s, s1, s2);
    Then(w, r, s, s2, t);
  }

  /** One read of r bytes, whether they are there or not. */
  lemma Reads(w: nat, r: nat, s: State, size: nat, p: Pid, q: Pid, a: PC, c: int) returns (t: State)
    requires View(s, size, p, q, a, Out, c, None) && Aside(a) && c > 0
    ensures Reach(w, r, s, t) && View(t, size, p, q, After(a), Out, c - r, None)
  {
    hide Reach, Run, View;
    var s1 := Asks(w, r, s, size, p, q, a, c);
    var s2 := Copies(w, r, s1, size, p, q, a, c, r);
    t := Leaves(w, r, s2, size, p, q, a, c - r);
    Then(w, r, s, s1, s2);
    Then(w, r, s, s2, t);
  }

  /** From a count that r does not divide, reading on takes bytes that nobody wrote. */
  lemma {:induction false} RunsDry(w: nat, r: nat, s: State, size: nat, p: Pid, q: Pid, a: PC, c: int) returns (t: State)
    requires View(s, size, p, q, a, Out, c, None) && Aside(a) && c > 0 && r > 0 && !Divides(r, c)
    ensures Reach(w, r, s, t) && t.count < 0
    decreases c
  {
    hide Reach, Run, Divides;
    var u := Reads(w, r, s, size, p, q, a, c);
    if c < r {
      return u;
    }
    LessDivides(r, c);
    DividesZero(r);
    t := RunsDry(w, r, u, size, p, q, After(a), c - r);
    Then(w, r, s, u, t);
  }

  lemma LessDivides(r: nat, c: int)
    requires r > 0
    ensures Divides(r, c - r) <==> Divides(r, c)
  {
    DividesSelf(r);
    if Divides(r, c - r) {
      DividesBoth(r, c - r, r);
    }
    if Divides(r, c) {
      DividesBoth(r, c, r);
    }
  }

  /** From a count that r divides, reading on empties the pipe. */
  lemma {:induction false} Drains(w: nat, r: nat, s: State, size: nat, p: Pid, q: Pid, a: PC, c: int) returns (t: State)
    requires View(s, size, p, q, a, Out, c, None) && Aside(a) && c >= 0 && r > 0 && Divides(r, c)
    ensures Reach(w, r, s, t) && View(t, size, p, q, if c == 0 then a else After(a), Out, 0, None)
    decreases c
  {
    hide Reach, Run, Divides, View;
    if c == 0 {
      Stay(w, r, s);
      return s;
    }
    DividesBig(r, c);
    LessDivides(r, c);
    var u := Reads(w, r, s, size, p, q, a, c);
    t := Drains(w, r, u, size, p, q, After(a), c - r);
    Then(w, r, s, u, t);
  }

  // ---- the writer -----------------------------------------------------------------------------------------

  lemma {:induction false} Stores(w: nat, r: nat, s: State, size: nat, p: Pid, q: Pid, buf: seq<int>, i: nat, c: int, n: nat) returns (t: State)
    requires View(s, size, p, q, Test(WriteCall(buf, i)), Out, c, Some(p)) && i + n <= |buf| && c + n <= size
    ensures Reach(w, r, s, t) && View(t, size, p, q, Test(WriteCall(buf, i + n)), Out, c + n, Some(p))
    decreases n
  {
    hide Reach, Run;
    if n == 0 {
      Stay(w, r, s);
      return s;
    }
    One(w, r, s, Next(p));
    t := Stores(w, r, Do(s, Next(p)), size, p, q, buf, i + 1, c + 1, n - 1);
    Then(w, r, s, Do(s, Next(p)), t);
  }

  lemma Starts(w: nat, r: nat, s: State, size: nat, p: Pid, q: Pid, buf: seq<int>, c: int) returns (t: State)
    requires View(s, size, p, q, Out, Out, c, None) && |buf| == w
    ensures Reach(w, r, s, t) && View(t, size, p, q, Test(WriteCall(buf, 0)), Out, c, Some(p))
  {
    hide Reach, Run;
    var s1 := Do(s, Write(p, buf));
    t := Do(s1, Next(p));
    One(w, r, s, Write(p, buf));
    One(w, r, s1, Next(p));
    Then(w, r, s, s1, t);
  }

  lemma Ends(w: nat, r: nat, s: State, size: nat, p: Pid, q: Pid, buf: seq<int>, c: int) returns (t: State)
    requires View(s, size, p, q, Test(WriteCall(buf, |buf|)), Out, c, Some(p))
    ensures Reach(w, r, s, t) && View(t, size, p, q, Out, Out, c, None)
  {
    hide Reach, Run;
    var s1 := Do(s, Next(p));
    var s2 := Do(s1, Next(p));
    t := Do(s2, Next(p));
    One(w, r, s, Next(p));
    One(w, r, s1, Next(p));
    One(w, r, s2, Next(p));
    Then(w, r, s, s1, s2);
    Then(w, r, s, s2, t);
  }

  /** A full pipe sends the writer into cond_wait. */
  lemma Blocks(w: nat, r: nat, s: State, size: nat, p: Pid, q: Pid, buf: seq<int>, i: nat) returns (t: State)
    requires View(s, size, p, q, Test(WriteCall(buf, i)), Out, size, Some(p)) && i < |buf|
    ensures Reach(w, r, s, t) && View(t, size, p, q, CondAsleep(WriteCall(buf, i)), Out, size, None)
  {
    hide Reach, Run;
    var s1 := Do(s, Next(p));
    var s2 := Do(s1, Next(p));
    var s3 := Do(s2, Next(p));
    t := Do(s3, Next(p));
    One(w, r, s, Next(p));
    One(w, r, s1, Next(p));
    One(w, r, s2, Next(p));
    One(w, r, s3, Next(p));
    Then(w, r, s, s1, s2);
    Then(w, r, s, s2, s3);
    Then(w, r, s, s3, t);
  }

  /** A reader's signal has woken it, and it takes the mutex again. */
  lemma Resumes(w: nat, r: nat, s: State, size: nat, p: Pid, q: Pid, call: Call, c: int) returns (t: State)
    requires View(s, size, p, q, Acquire(call), Out, c, None)
    ensures Reach(w, r, s, t) && View(t, size, p, q, Test(call), Out, c, Some(p))
  {
    hide Reach, Run;
    t := Do(s, Next(p));
    One(w, r, s, Next(p));
  }

  /** Writing on fills the pipe. */
  lemma {:induction false} Fills(w: nat, r: nat, s: State, size: nat, p: Pid, q: Pid, buf: seq<int>, c: nat) returns (t: State, a: PC)
    requires View(s, size, p, q, Out, Out, c, None) && c <= size && |buf| == w > 0
    ensures Reach(w, r, s, t) && Aside(a) && View(t, size, p, q, a, Out, size, None)
    decreases size - c
  {
    hide Reach, Run, View;
    if c == size {
      Stay(w, r, s);
      return s, Out;
    }
    ViewSize(s, size, p, q, Out, Out, c, None);
    var u := Starts(w, r, s, size, p, q, buf, c);
    if c + w <= size {
      var v := WritesAll(w, r, u, size, p, q, buf, 0, c);
      Then(w, r, s, u, v);
      t, a := Fills(w, r, v, size, p, q, buf, c + w);
      Then(w, r, s, v, t);
    } else {
      t := WritesUntilFull(w, r, u, size, p, q, buf, 0, c);
      Then(w, r, s, u, t);
      a := CondAsleep(WriteCall(buf, size - c));
    }
  }

  lemma ViewSize(s: State, size: nat, p: Pid, q: Pid, a: PC, b: PC, c: int, h: Option<Pid>)
    requires View(s, size, p, q, a, b, c, h)
    ensures 0 < size
  {
  }

  /** The rest of the write fits. */
  lemma WritesAll(w: nat, r: nat, s: State, size: nat, p: Pid, q: Pid, buf: seq<int>, i: nat, c: int) returns (t: State)
    requires View(s, size, p, q, Test(WriteCall(buf, i)), Out, c, Some(p)) && i <= |buf| && c + (|buf| - i) <= size
    ensures Reach(w, r, s, t) && View(t, size, p, q, Out, Out, c + (|buf| - i), None)
  {
    hide Reach, Run, View;
    var u := Stores(w, r, s, size, p, q, buf, i, c, |buf| - i);
    t := Ends(w, r, u, size, p, q, buf, c + (|buf| - i));
    Then(w, r, s, u, t);
  }

  /** It does not. */
  lemma WritesUntilFull(w: nat, r: nat, s: State, size: nat, p: Pid, q: Pid, buf: seq<int>, i: nat, c: nat) returns (t: State)
    requires View(s, size, p, q, Test(WriteCall(buf, i)), Out, c, Some(p)) && c <= size && size - c < |buf| - i
    ensures Reach(w, r, s, t) && View(t, size, p, q, CondAsleep(WriteCall(buf, i + (size - c))), Out, size, None)
  {
    hide Reach, Run, View;
    var u := Stores(w, r, s, size, p, q, buf, i, c, size - c);
    t := Blocks(w, r, u, size, p, q, buf, i + (size - c));
    Then(w, r, s, u, t);
  }

  /** A blocked write whose rest r does not divide ends in a count that r does not divide. */
  lemma {:induction false} BadRest(w: nat, r: nat, s: State, size: nat, p: Pid, q: Pid, buf: seq<int>, i: nat) returns (t: State)
    requires View(s, size, p, q, CondAsleep(WriteCall(buf, i)), Out, size, None) && r > 0 && Divides(r, size)
    requires i < |buf| && !Divides(r, |buf| - i)
    ensures Reach(w, r, s, t) && t.count < 0
    decreases |buf| - i
  {
    hide Reach, Run, View, Divides;
    ViewSize(s, size, p, q, CondAsleep(WriteCall(buf, i)), Out, size, None);
    var s1 := Drains(w, r, s, size, p, q, CondAsleep(WriteCall(buf, i)), size);
    var s2 := Resumes(w, r, s1, size, p, q, WriteCall(buf, i), 0);
    Then(w, r, s, s1, s2);
    if |buf| - i <= size {
      var s3 := WritesAll(w, r, s2, size, p, q, buf, i, 0);
      Then(w, r, s, s2, s3);
      t := RunsDry(w, r, s3, size, p, q, Out, 0 + (|buf| - i));
      Then(w, r, s, s3, t);
    } else {
      var s3 := WritesUntilFull(w, r, s2, size, p, q, buf, i, 0);
      Then(w, r, s, s2, s3);
      RestDivides(r, |buf| - i, size);
      t := BadRest(w, r, s3, size, p, q, buf, i + (size - 0));
      Then(w, r, s, s3, t);
    }
  }

  lemma RestDivides(r: nat, x: int, size: nat)
    requires r > 0 && Divides(r, size) && !Divides(r, x)
    ensures !Divides(r, x - size)
  {
    hide Divides;
    assert x - size + size == x;
    if Divides(r, x - size) {
      DividesBoth(r, x - size, size);
    }
  }

  lemma BadWrite(w: nat, r: nat, s: State, size: nat, p: Pid, q: Pid, buf: seq<int>) returns (t: State)
    requires View(s, size, p, q, Out, Out, 0, None) && |buf| == w > 0 && r > 0 && Divides(r, size) && !Divides(r, w)
    ensures Reach(w, r, s, t) && t.count < 0
  {
    hide Reach, Run, View, Divides;
    var u := Starts(w, r, s, size, p, q, buf, 0);
    if w <= size {
      var v := WritesAll(w, r, u, size, p, q, buf, 0, 0);
      Then(w, r, s, u, v);
      t := RunsDry(w, r, v, size, p, q, Out, 0 + (|buf| - 0));
      Then(w, r, s, v, t);
    } else {
      var v := WritesUntilFull(w, r, u, size, p, q, buf, 0, 0);
      Then(w, r, s, u, v);
      RestDivides(r, w, size);
      t := BadRest(w, r, v, size, p, q, buf, 0 + (size - 0));
      Then(w, r, s, v, t);
    }
  }

  lemma BadSize(w: nat, r: nat, s: State, size: nat, p: Pid, q: Pid, buf: seq<int>) returns (t: State)
    requires View(s, size, p, q, Out, Out, 0, None) && |buf| == w > 0 && r > 0 && !Divides(r, size)
    ensures Reach(w, r, s, t) && t.count < 0
  {
    hide Reach, Run, View, Divides;
    ViewSize(s, size, p, q, Out, Out, 0, None);
    var u, a := Fills(w, r, s, size, p, q, buf, 0);
    t := RunsDry(w, r, u, size, p, q, a, size);
    Then(w, r, s, u, t);
  }

  /** No run of such calls counts below zero. */
  ghost predicate NeverPast(w: nat, r: nat, s: State) { forall t :: Reach(w, r, s, t) ==> t.count >= 0 }

  /** With a reader and a writer there, the pipe is safe exactly when r divides w and its size. */
  lemma SafeSizesIff(w: nat, r: nat, s: State, p: Pid, q: Pid)
    requires Initial(s) && w > 0 && r > 0 && p in s.procs && q in s.procs && p != q
    ensures NeverPast(w, r, s) <==> Divides(r, w) && Divides(r, |s.data|)
  {
    hide Divides;
    if Divides(r, w) && Divides(r, |s.data|) {
      forall t | Reach(w, r, s, t) ensures t.count >= 0 {
        GoodSizes(w, r, s, t);
      }
    } else {
      var buf := seq(w, i => 0);
      assert View(s, |s.data|, p, q, Out, Out, 0, None);
      hide Reach, Run;
      var t;
      if Divides(r, |s.data|) {
        t := BadWrite(w, r, s, |s.data|, p, q, buf);
      } else {
        t := BadSize(w, r, s, |s.data|, p, q, buf);
      }
    }
  }

  lemma GoodSizes(w: nat, r: nat, s: State, t: State)
    requires Initial(s) && r > 0 && Divides(r, w) && Divides(r, |s.data|) && Reach(w, r, s, t)
    ensures t.count >= 0
  {
    hide Run, Divides, Initial;
    var acts :| Run(s, acts, t) && AllUniform(w, r, acts);
    forall i | 0 <= i < |acts| ensures Fits(r, acts[i]) {
      assert Uniform(w, r, acts[i]);
    }
    UpipeFifo(r, s, acts, t);
  }

  /** In a pipe of one byte, one byte written and two asked for: a run takes a byte that nobody wrote. */
  lemma ReadRunsPast(s: State)
    requires Initial(s) && |s.data| == 1 && 0 in s.procs && 1 in s.procs
    ensures !NeverPast(1, 2, s)
  {
    hide NeverPast;
    SafeSizesIff(1, 2, s, 0, 1);
  }
}
