/** What the callers of the user-level pipe see: whose byte stands where, what a call has done when it
    returns, and that signals go to whoever has waited longest. */
module UpipeCalls {
  import opened Wrappers
  import opened ByteOwners
  import opened Upipe
  import opened UpipeProof

  datatype Asked = WriteOf(buf: seq<int>) | ReadOf(n: nat)

  /** An observer: the last call of each process and how many bytes had been written, or read, when it
      began; the process behind each byte; and a number for each cond_wait, in the order of time. */
  datatype Watch = Watch(call: map<Pid, Asked>, since: map<Pid, nat>, writer: seq<Pid>, reader: seq<Pid>, ticket: map<Pid, nat>, next: nat)

  /** A process on its way to sleep, or asleep, on a condition variable. */
  predicate Waits(s: State, p: Pid) { p in s.procs && (s.procs[p].Gap? || s.procs[p].CondAsleep?) }

  function Noted(w: Watch, s: State, a: Action, t: State): Watch {
    var v := w.(writer := w.writer + Repeat(a.pid, |t.written| - |s.written|), reader := w.reader + Repeat(a.pid, |t.got| - |s.got|));
    match a
    case Write(p, buf) => v.(call := v.call[p := WriteOf(buf)], since := v.since[p := |t.written|])
    case Read(p, n) => v.(call := v.call[p := ReadOf(n)], since := v.since[p := |t.got|])
    case Next(p) => if !Waits(s, p) && Waits(t, p) then v.(ticket := v.ticket[p := v.next], next := v.next + 1) else v
  }

  ghost predicate WatchRun(s: State, w: Watch, acts: seq<Action>, t: State, v: Watch)
    decreases |acts|
  {
    if acts == [] then s == t && w == v
    else 0 < |s.data| && Enabled(s, acts[0]) && WatchRun(Do(s, acts[0]), Noted(w, s, acts[0], Do(s, acts[0])), acts[1..], t, v)
  }

  // ---- bytes ------------------------------------------------------------------------------------------

  predicate Counts(s: State, w: Watch) { |w.writer| == |s.written| && |w.reader| == |s.got| }

  function Sent(s: State, w: Watch, p: Pid): seq<int>
    requires Counts(s, w) && p in w.since
  {
    Mine(s.written, w.writer, p, w.since[p])
  }

  function Received(s: State, w: Watch, p: Pid): seq<int>
    requires Counts(s, w) && p in w.since
  {
    Mine(s.got, w.reader, p, w.since[p])
  }

  ghost predicate Called(w: Watch, p: Pid) { p in w.call && p in w.since }

  ghost predicate Writing(s: State, w: Watch, p: Pid, buf: seq<int>, i: nat)
    requires Counts(s, w)
  {
    Called(w, p) && w.call[p] == WriteOf(buf) && w.since[p] <= |s.written| && i <= |buf| && Sent(s, w, p) == buf[..i]
  }

  ghost predicate Reading(s: State, w: Watch, p: Pid, n: nat, left: nat)
    requires Counts(s, w)
  {
    && Called(w, p) && w.call[p] == ReadOf(n) && w.since[p] <= |s.got|
    && |Received(s, w, p)| + left == n && Tail(Received(s, w, p), s.got)
  }

  ghost predicate Underway(s: State, w: Watch, p: Pid, call: Call)
    requires Counts(s, w)
  {
    match call
    case WriteCall(buf, i) => Writing(s, w, p, buf, i)
    case ReadCall(n) => Called(w, p) && w.call[p] == ReadOf(n) && w.since[p] <= |s.got| && Received(s, w, p) == []
  }

  /** The call has done all it was asked for. */
  ghost predicate Finished(s: State, w: Watch, p: Pid)
    requires Counts(s, w)
  {
    && Called(w, p)
    && match w.call[p]
       case WriteOf(buf) => Writing(s, w, p, buf, |buf|)
       case ReadOf(n) => Reading(s, w, p, n, 0)
  }

  ghost predicate CallOk(s: State, w: Watch, p: Pid)
    requires Counts(s, w) && p in s.procs
  {
    match s.procs[p]
    case Out => true
    case Acquire(call) => Underway(s, w, p, call)
    case MutexAsleep(call) => Underway(s, w, p, call)
    case Test(call) => Underway(s, w, p, call)
    case SignalOther(call) => Underway(s, w, p, call)
    case CondWait(call) => Underway(s, w, p, call)
    case Gap(call) => Underway(s, w, p, call)
    case CondAsleep(call) => Underway(s, w, p, call)
    case Copy(left) => Called(w, p) && w.call[p].ReadOf? && Reading(s, w, p, w.call[p].n, left)
    case EndSignal(_) => Finished(s, w, p)
    case Release => Finished(s, w, p)
  }

  ghost predicate CallsOk(s: State, w: Watch) { Counts(s, w) && forall p :: p in s.procs ==> CallOk(s, w, p) }

  ghost predicate SameCall(w: Watch, v: Watch, q: Pid) {
    && (q in w.call ==> q in v.call && v.call[q] == w.call[q])
    && (q in w.since ==> q in v.since && v.since[q] == w.since[q])
  }

  /** A step of another process that moves no byte. */
  lemma OtherStill(s: State, w: Watch, t: State, v: Watch, q: Pid)
    requires Counts(s, w) && Counts(t, v) && q in s.procs && CallOk(s, w, q) && q in t.procs
    requires t.written == s.written && t.got == s.got && v.writer == w.writer && v.reader == w.reader
    requires SameCall(w, v, q) && Moved(s.procs[q], t.procs[q])
    ensures CallOk(t, v, q)
  {
    hide Mine;
  }

  /** A byte written, or read, by another process p, which is inside the mutex. */
  lemma OtherByte(s: State, w: Watch, t: State, v: Watch, q: Pid, p: Pid, b: int)
    requires Counts(s, w) && Counts(t, v) && q in s.procs && CallOk(s, w, q) && q in t.procs && q != p
    requires t.procs[q] == s.procs[q] && !Holding(s.procs[q]) && SameCall(w, v, q)
    requires (t.written == s.written + [b] && t.got == s.got && v.writer == w.writer + [p] && v.reader == w.reader)
          || (t.got == s.got + [b] && t.written == s.written && v.reader == w.reader + [p] && v.writer == w.writer)
    ensures CallOk(t, v, q)
  {
    hide Mine;
    if q in w.since && w.since[q] <= |s.written| {
      MineNext(s.written, w.writer, q, w.since[q], b, p);
    }
    if q in w.since && w.since[q] <= |s.got| {
      MineNext(s.got, w.reader, q, w.since[q], b, p);
    }
  }

  lemma OwnStore(s: State, w: Watch, p: Pid, buf: seq<int>, i: nat, v: Watch)
    requires Counts(s, w) && Writing(s, w, p, buf, i) && i < |buf| && 0 < |s.data|
    requires v == w.(writer := w.writer + [p])
    ensures Counts(Stored(s, p, buf, i), v) && Writing(Stored(s, p, buf, i), v, p, buf, i + 1)
  {
    MineNext(s.written, w.writer, p, w.since[p], buf[i], p);
    assert buf[..i + 1] == buf[..i] + [buf[i]];
  }

  lemma OwnTake(s: State, w: Watch, p: Pid, n: nat, left: nat, v: Watch)
    requires Counts(s, w) && Reading(s, w, p, n, left) && 0 < left && 0 < |s.data|
    requires v == w.(reader := w.reader + [p])
    ensures Counts(Taken(s, p, left), v) && Reading(Taken(s, p, left), v, p, n, left - 1)
  {
    hide Mine;
    MineNext(s.got, w.reader, p, w.since[p], s.data[s.readIndex % |s.data|], p);
  }

  lemma SameSeen(s: State, t: State, w: Watch, v: Watch, p: Pid)
    requires Counts(s, w) && Counts(t, v) && t.written == s.written && t.got == s.got
    requires v.writer == w.writer && v.reader == w.reader && v.call == w.call && v.since == w.since
    ensures forall call :: Underway(s, w, p, call) <==> Underway(t, v, p, call)
    ensures forall n: nat, left: nat :: Reading(s, w, p, n, left) <==> Reading(t, v, p, n, left)
    ensures Finished(s, w, p) <==> Finished(t, v, p)
  {
    hide Mine;
  }

  /** From one stage of a call to the next. */
  lemma Stages(s: State, w: Watch, p: Pid)
    requires Counts(s, w)
    ensures forall n: nat :: Underway(s, w, p, ReadCall(n)) ==> Called(w, p) && w.call[p] == ReadOf(n) && Reading(s, w, p, n, n)
    ensures forall buf, i: nat :: Underway(s, w, p, WriteCall(buf, i)) && i >= |buf| ==> Finished(s, w, p)
    ensures Called(w, p) && w.call[p].ReadOf? && Reading(s, w, p, w.call[p].n, 0) ==> Finished(s, w, p)
  {
    hide Mine;
  }

  /** The process itself, in a step that moves no byte. */
  lemma OwnStill(s: State, w: Watch, v: Watch, p: Pid)
    requires Counts(s, w) && p in s.procs && CallOk(s, w, p) && 0 < |s.data| && Enabled(s, Next(p)) && !Moves(s, Next(p))
    requires SameRing(s, Stepped(s, p)) && Counts(Stepped(s, p), v)
    requires v.writer == w.writer && v.reader == w.reader && v.call == w.call && v.since == w.since
    ensures p in Stepped(s, p).procs && CallOk(Stepped(s, p), v, p)
  {
    hide Woken, WokenOne, Stored, Taken, Underway, Reading, Finished;
    var t := Stepped(s, p);
    assert p in t.procs;
    SameSeen(s, t, w, v, p);
    Stages(s, w, p);
  }

  lemma KeepStill(s: State, w: Watch, a: Action)
    requires CallsOk(s, w) && 0 < |s.data| && Enabled(s, a) && !Moves(s, a)
    ensures CallsOk(Do(s, a), Noted(w, s, a, Do(s, a)))
  {
    hide CallOk, Moves, Stepped;
    var t, p := Do(s, a), a.pid;
    var v := Noted(w, s, a, t);
    RepeatOne(p);
    StepSame(s, a);
    StepOthers(s, a);
    assert v.writer == w.writer + [] == w.writer && v.reader == w.reader + [] == w.reader && Counts(t, v);
    forall q | q in t.procs ensures CallOk(t, v, q) {
      if q != p {
        OtherStill(s, w, t, v, q);
      } else if a.Next? {
        OwnStill(s, w, v, p);
      } else {
        Begins(s, w, a, t, v);
      }
    }
  }

  lemma Begins(s: State, w: Watch, a: Action, t: State, v: Watch)
    requires Counts(s, w) && 0 < |s.data| && Enabled(s, a) && !a.Next? && t == Do(s, a) && v == Noted(w, s, a, t) && Counts(t, v)
    ensures a.pid in t.procs && CallOk(t, v, a.pid)
  {
  }

  lemma StageOf(s: State, w: Watch, p: Pid)
    requires CallsOk(s, w) && p in s.procs
    ensures s.procs[p].Test? && s.procs[p].call.WriteCall? ==> Writing(s, w, p, s.procs[p].call.buf, s.procs[p].call.i)
    ensures s.procs[p].Copy? ==> Called(w, p) && w.call[p].ReadOf? && Reading(s, w, p, w.call[p].n, s.procs[p].left)
  {
    assert CallOk(s, w, p);
  }

  lemma KeepStore(s: State, w: Watch, p: Pid)
    requires CallsOk(s, w) && MutexOk(s) && 0 < |s.data| && Enabled(s, Next(p)) && Moves(s, Next(p)) && s.procs[p].Test?
    ensures CallsOk(Stepped(s, p), Noted(w, s, Next(p), Stepped(s, p)))
  {
    hide CallOk;
    var buf, i := s.procs[p].call.buf, s.procs[p].call.i;
    var t := Stored(s, p, buf, i);
    RepeatOne(p);
    var v := w.(writer := w.writer + [p]);
    assert Noted(w, s, Next(p), t) == v;
    StageOf(s, w, p);
    OwnStore(s, w, p, buf, i, v);
    forall q | q in t.procs ensures CallOk(t, v, q) {
      assert PlaceOk(s, p) && PlaceOk(s, q);
      if q != p {
        OtherByte(s, w, t, v, q, p, buf[i]);
      } else {
        AtTest(t, v, p, buf, i + 1);
      }
    }
  }

  lemma AtTest(t: State, v: Watch, p: Pid, buf: seq<int>, i: nat)
    requires Counts(t, v) && p in t.procs && t.procs[p] == Test(WriteCall(buf, i)) && Writing(t, v, p, buf, i)
    ensures CallOk(t, v, p)
  {
  }

  lemma KeepTake(s: State, w: Watch, p: Pid)
    requires CallsOk(s, w) && MutexOk(s) && 0 < |s.data| && Enabled(s, Next(p)) && Moves(s, Next(p)) && s.procs[p].Copy?
    ensures CallsOk(Stepped(s, p), Noted(w, s, Next(p), Stepped(s, p)))
  {
    hide CallOk;
    var left := s.procs[p].left;
    var t := Taken(s, p, left);
    RepeatOne(p);
    var v := w.(reader := w.reader + [p]);
    assert Noted(w, s, Next(p), t) == v;
    StageOf(s, w, p);
    OwnTake(s, w, p, w.call[p].n, left, v);
    forall q | q in t.procs ensures CallOk(t, v, q) {
      assert PlaceOk(s, p) && PlaceOk(s, q);
      if q != p {
        OtherByte(s, w, t, v, q, p, s.data[s.readIndex % |s.data|]);
      } else {
        AtCopy(t, v, p, left - 1);
      }
    }
  }

  lemma AtCopy(t: State, v: Watch, p: Pid, left: nat)
    requires Counts(t, v) && p in t.procs && t.procs[p] == Copy(left) && Called(v, p) && v.call[p].ReadOf? && Reading(t, v, p, v.call[p].n, left)
    ensures CallOk(t, v, p)
  {
  }

  lemma KeepCalls(s: State, w: Watch, a: Action)
    requires CallsOk(s, w) && MutexOk(s) && 0 < |s.data| && Enabled(s, a)
    ensures CallsOk(Do(s, a), Noted(w, s, a, Do(s, a)))
  {
    hide CallsOk, Noted, Stepped, MutexOk;
    if !Moves(s, a) {
      KeepStill(s, w, a);
    } else if s.procs[a.pid].Test? {
      KeepStore(s, w, a.pid);
    } else {
      KeepTake(s, w, a.pid);
    }
  }

  // ---- who waits, in which order --------------------------------------------------------------------------

  /** The list of a condition variable is in the order of its cond_waits, and all on it are waiting. */
  ghost predicate InOrder(s: State, w: Watch, list: seq<Pid>) {
    && (forall i :: 0 <= i < |list| ==> list[i] in w.ticket && w.ticket[list[i]] < w.next && Waits(s, list[i]))
    && (forall i, j :: 0 <= i < j < |list| && list[i] in w.ticket && list[j] in w.ticket ==> w.ticket[list[i]] < w.ticket[list[j]])
  }

  ghost predicate QueuesOk(s: State, w: Watch) {
    && InOrder(s, w, s.full) && InOrder(s, w, s.empty)
    && forall i, j :: 0 <= i < |s.full| && 0 <= j < |s.empty| ==> s.full[i] != s.empty[j]
  }

  /** Nobody stops waiting, and no number is given. */
  lemma SameQueue(s: State, w: Watch, t: State, v: Watch, list: seq<Pid>)
    requires InOrder(s, w, list) && v.ticket == w.ticket && v.next == w.next
    requires forall q :: q in list && Waits(s, q) ==> Waits(t, q)
    ensures InOrder(t, v, list)
  {
  }

  /** p, which was not waiting, comes last. */
  lemma LongerQueue(s: State, w: Watch, t: State, v: Watch, list: seq<Pid>, p: Pid, joins: bool)
    requires InOrder(s, w, list) && v.ticket == w.ticket[p := w.next] && v.next == w.next + 1 && !Waits(s, p) && Waits(t, p)
    requires forall q :: q in list && Waits(s, q) ==> Waits(t, q)
    ensures InOrder(t, v, if joins then list + [p] else list)
  {
    forall i | 0 <= i < |list| ensures list[i] != p && list[i] in w.ticket {
      assert Waits(s, list[i]);
    }
  }

  /** The first one leaves, and is woken if it was asleep; the others wait on. */
  lemma ShorterQueue(s: State, w: Watch, t: State, v: Watch, list: seq<Pid>, p: Pid)
    requires list != [] && InOrder(s, w, list) && v.ticket == w.ticket && v.next == w.next && !Waits(s, p)
    requires forall q :: Waits(s, q) && q != list[0] && q != p ==> Waits(t, q)
    ensures InOrder(t, v, list[1..])
  {
    forall i | 0 <= i < |list[1..]| ensures Waits(t, list[1..][i]) && list[1..][i] in w.ticket && w.ticket[list[1..][i]] < w.next {
      assert list[1..][i] == list[i + 1] && list[0] in w.ticket && list[i + 1] in w.ticket && Waits(s, list[i + 1]);
      assert w.ticket[list[0]] < w.ticket[list[i + 1]];
    }
  }

  /** Whether the step is a cond_signal, and whether a writer makes it, which signals cvEmpty. */
  function Signals(s: State, a: Action): Option<bool>
    requires Enabled(s, a)
  {
    var pc := s.procs[a.pid];
    if !a.Next? then None else if pc.SignalOther? then Some(pc.call.WriteCall?) else if pc.EndSignal? then Some(pc.writer) else None
  }

  predicate Joins(s: State, a: Action)
    requires Enabled(s, a)
  {
    a.Next? && s.procs[a.pid].CondWait?
  }

  function Fewer(list: seq<Pid>): seq<Pid> { if list == [] then [] else list[1..] }

  /** How a step treats the lists. */
  lemma StepQueues(s: State, a: Action)
    requires 0 < |s.data| && Enabled(s, a)
    ensures var t, p, sig := Do(s, a), a.pid, Signals(s, a);
      && t.full == (if Joins(s, a) && s.procs[p].call.WriteCall? then s.full + [p] else if sig == Some(false) then Fewer(s.full) else s.full)
      && t.empty == (if Joins(s, a) && s.procs[p].call.ReadCall? then s.empty + [p] else if sig == Some(true) then Fewer(s.empty) else s.empty)
      && (Joins(s, a) ==> !Waits(s, p) && Waits(t, p)) && (!Joins(s, a) ==> (Waits(t, p) <==> Waits(s, p)))
      && (sig.Some? ==> !Waits(s, p))
  {
    hide WokenOne, Woken;
  }

  /** Who waits goes on waiting, unless a signal takes it from the front of a list. */
  lemma StepWaits(s: State, a: Action, q: Pid)
    requires 0 < |s.data| && Enabled(s, a) && Waits(s, q) && q != a.pid
    ensures var sig := Signals(s, a);
      var list := if sig == Some(true) then s.empty else s.full;
      sig.None? || list == [] || q != list[0] ==> Waits(Do(s, a), q)
  {
  }

  lemma NotOn(s: State, w: Watch, list: seq<Pid>, p: Pid)
    requires InOrder(s, w, list)
    ensures !Waits(s, p) ==> p !in list
    ensures forall q :: q in list ==> Waits(s, q)
  {
  }

  lemma KeepQueues(s: State, w: Watch, a: Action)
    requires QueuesOk(s, w) && 0 < |s.data| && Enabled(s, a)
    ensures QueuesOk(Do(s, a), Noted(w, s, a, Do(s, a)))
  {
    hide InOrder, Do, Waits;
    var t, p, sig := Do(s, a), a.pid, Signals(s, a);
    var v := Noted(w, s, a, t);
    var list := if sig == Some(true) then s.empty else s.full;
    StepQueues(s, a);
    NotOn(s, w, s.full, p);
    NotOn(s, w, s.empty, p);
    forall q | Waits(s, q) && (q != p || !Joins(s, a)) && (sig.None? || list == [] || q != list[0]) ensures Waits(t, q) {
      if q != p {
        StepWaits(s, a, q);
      }
    }
    if Joins(s, a) {
      LongerQueue(s, w, t, v, s.full, p, s.procs[p].call.WriteCall?);
      LongerQueue(s, w, t, v, s.empty, p, s.procs[p].call.ReadCall?);
    } else if sig.Some? && list != [] {
      SignalQueues(s, w, t, v, sig.value, p);
    } else {
      SameQueue(s, w, t, v, s.full);
      SameQueue(s, w, t, v, s.empty);
    }
  }

  lemma SignalQueues(s: State, w: Watch, t: State, v: Watch, writer: bool, p: Pid)
    requires QueuesOk(s, w) && v.ticket == w.ticket && v.next == w.next && !Waits(s, p)
    requires var list := if writer then s.empty else s.full;
      list != [] && forall q :: Waits(s, q) && q != list[0] ==> Waits(t, q)
    requires t.full == (if writer then s.full else s.full[1..]) && t.empty == (if writer then s.empty[1..] else s.empty)
    ensures QueuesOk(t, v)
  {
    hide InOrder, Waits;
    if writer {
      ShorterQueue(s, w, t, v, s.empty, p);
      SameQueue(s, w, t, v, s.full);
    } else {
      ShorterQueue(s, w, t, v, s.full, p);
      SameQueue(s, w, t, v, s.empty);
    }
  }

  // ---- over whole runs --------------------------------------------------------------------------------------

  ghost predicate WatchOk(s: State, w: Watch) { CallsOk(s, w) && QueuesOk(s, w) && MutexOk(s) && 0 < |s.data| }

  lemma {:induction false} RunWatch(s: State, w: Watch, acts: seq<Action>, t: State, v: Watch)
    requires WatchOk(s, w) && WatchRun(s, w, acts, t, v)
    ensures WatchOk(t, v) && Run(s, acts, t)
    decreases |acts|
  {
    hide CallsOk, QueuesOk, MutexOk, Do, Enabled, Noted;
    if acts != [] {
      KeepCalls(s, w, acts[0]);
      KeepQueues(s, w, acts[0]);
      KeepMutex(s, acts[0]);
      RunWatch(Do(s, acts[0]), Noted(w, s, acts[0], Do(s, acts[0])), acts[1..], t, v);
    }
  }

  /** Every run can be observed. */
  lemma {:induction false} Observed(s: State, w: Watch, acts: seq<Action>, t: State) returns (v: Watch)
    requires Run(s, acts, t)
    ensures WatchRun(s, w, acts, t, v)
    decreases |acts|
  {
    hide Do, Enabled, Noted;
    if acts == [] {
      return w;
    }
    v := Observed(Do(s, acts[0]), Noted(w, s, acts[0], Do(s, acts[0])), acts[1..], t);
  }

  const Nobody: Watch := Watch(map[], map[], [], [], map[], 0)

  lemma Watched(s: State, acts: seq<Action>, t: State, v: Watch)
    requires Initial(s) && WatchRun(s, Nobody, acts, t, v)
    ensures WatchOk(t, v)
  {
    hide WatchRun, Run;
    assert MutexOk(s) by {
      assert forall h :: h in s.procs ==> PlaceOk(s, h);
    }
    assert WatchOk(s, Nobody);
    RunWatch(s, Nobody, acts, t, v);
  }

  /** A call that returns has done what it was asked for, in every run and for all sizes: a upipe_write
      has written its whole buffer in order; a upipe_read has got n bytes, the last n that were read. */
  lemma CallReturns(s: State, acts: seq<Action>, t: State, v: Watch, p: Pid)
    requires Initial(s) && WatchRun(s, Nobody, acts, t, v) && 0 < |t.data| && Enabled(t, Next(p))
    requires p in Stepped(t, p).procs && Stepped(t, p).procs[p].Out?
    ensures Counts(t, v) && Called(v, p)
    ensures v.call[p].WriteOf? ==> Sent(t, v, p) == v.call[p].buf
    ensures v.call[p].ReadOf? ==> |Received(t, v, p)| == v.call[p].n && Tail(Received(t, v, p), t.got)
  {
    hide WatchRun, QueuesOk, MutexOk, Mine;
    Watched(s, acts, t, v);
    OutFrom(t, p);
    assert CallOk(t, v, p);
  }

  lemma OutFrom(s: State, p: Pid)
    requires 0 < |s.data| && Enabled(s, Next(p)) && p in Stepped(s, p).procs && Stepped(s, p).procs[p].Out?
    ensures s.procs[p].Release?
  {
    hide Woken, WokenOne;
  }

  /** cond_signal takes the process from the list that has waited longest. */
  lemma SignalOldest(s: State, acts: seq<Action>, t: State, v: Watch, a: Action, q: Pid, r: Pid)
    requires Initial(s) && WatchRun(s, Nobody, acts, t, v) && 0 < |t.data| && Enabled(t, a)
    ensures q in t.full && q !in Do(t, a).full && r in Do(t, a).full ==> q in v.ticket && r in v.ticket && v.ticket[q] < v.ticket[r]
    ensures q in t.empty && q !in Do(t, a).empty && r in Do(t, a).empty ==> q in v.ticket && r in v.ticket && v.ticket[q] < v.ticket[r]
  {
    hide WatchRun, CallsOk, MutexOk, Do, Enabled;
    Watched(s, acts, t, v);
    StepQueues(t, a);
    FrontFirst(t, v, t.full, q, r);
    FrontFirst(t, v, t.empty, q, r);
    FrontLeaves(t.full, q);
    FrontLeaves(t.empty, q);
  }

  /** And wakes it, if it is asleep already. */
  lemma SignalWakes(s: State, a: Action)
    requires 0 < |s.data| && Enabled(s, a) && Signals(s, a).Some?
    ensures var t, list := Do(s, a), if Signals(s, a).value then s.empty else s.full;
      list != [] ==>
        && (if Signals(s, a).value then t.empty else t.full) == list[1..]
        && (list[0] in s.procs && list[0] != a.pid && s.procs[list[0]].CondAsleep? ==>
              list[0] in t.procs && t.procs[list[0]] == Acquire(s.procs[list[0]].call))
  {
  }

  lemma FrontLeaves(list: seq<Pid>, q: Pid)
    ensures q in list && q !in Fewer(list) ==> q == list[0]
  {
    if q in list {
      var i :| 0 <= i < |list| && list[i] == q;
      if i > 0 {
        assert list[1..][i - 1] == q;
      }
    }
  }

  lemma FrontFirst(s: State, w: Watch, list: seq<Pid>, q: Pid, r: Pid)
    requires InOrder(s, w, list)
    ensures list != [] && q == list[0] && r in Fewer(list) ==> q in w.ticket && r in w.ticket && w.ticket[q] < w.ticket[r]
  {
    if list != [] && q == list[0] && r in Fewer(list) {
      var i :| 0 <= i < |list[1..]| && list[1..][i] == r;
      assert list[i + 1] == r;
    }
  }
}
