/** What the callers of the pipe see: whose byte stands where, and what a call has done when it returns. */
module PipeCalls {
  import opened Wrappers
  import opened ByteOwners
  import opened Pipe
  import opened PipeProof

  datatype Call = WriteOf(buf: seq<int>) | ReadOf(n: nat) | Closing

  /** An observer of the pipe. For each process its last call, and how many bytes had been written, or
      read, when the call began; for each byte written the process that did, for each byte read too. */
  datatype Watch = Watch(call: map<Pid, Call>, since: map<Pid, nat>, writer: seq<Pid>, reader: seq<Pid>)

  /** What the observer notes when a leads from s to t: the call, and all bytes that are new. */
  function Noted(w: Watch, s: State, a: Action, t: State): Watch {
    var v := w.(writer := w.writer + Repeat(a.pid, |t.written| - |s.written|), reader := w.reader + Repeat(a.pid, |t.got| - |s.got|));
    match a
    case Write(p, buf) => v.(call := v.call[p := WriteOf(buf)], since := v.since[p := |t.written|])
    case Read(p, n) => v.(call := v.call[p := ReadOf(n)], since := v.since[p := |t.got|])
    case Close(p, _) => v.(call := v.call[p := Closing])
    case Next(_) => v
    case Kill(_) => v
  }

  ghost predicate WatchRun(s: State, w: Watch, acts: seq<Action>, t: State, v: Watch)
    decreases |acts|
  {
    if acts == [] then s == t && w == v
    else |s.data| == PIPESIZE && Enabled(s, acts[0]) && WatchRun(Do(s, acts[0]), Noted(w, s, acts[0], Do(s, acts[0])), acts[1..], t, v)
  }

  // ---- how far a call is ------------------------------------------------------------------------------

  predicate Counts(s: State, w: Watch) { |w.writer| == |s.written| && |w.reader| == |s.got| }

  /** What process p has written, and read, in its present call. */
  function Sent(s: State, w: Watch, p: Pid): seq<int>
    requires Counts(s, w) && p in w.since
  {
    Mine(s.written, w.writer, p, w.since[p])
  }

  function Received(s: State, w: Watch, p: Pid): seq<int>
    requires Counts(s, w) && p in w.since
  {
    Mine(s.got, w.reader, p, w.since[p])
  }

  ghost predicate Called(w: Watch, p: Pid) { p in w.call && p in w.since }

  /** A write that stops early does so because the pipe is full, and nobody reads or it is to die. */
  predicate Stopped(s: State, p: Pid) { Full(s) && (!s.readopen || p in s.killed) }

  ghost predicate Writing(s: State, w: Watch, p: Pid, buf: seq<int>, i: nat)
    requires Counts(s, w)
  {
    && Called(w, p) && w.call[p] == WriteOf(buf) && w.since[p] <= |s.written| && i <= |buf| && Sent(s, w, p) == buf[..i]
  }

  ghost predicate Waiting(s: State, w: Watch, p: Pid, n: nat)
    requires Counts(s, w)
  {
    Called(w, p) && w.call[p] == ReadOf(n) && w.since[p] <= |s.got| && Received(s, w, p) == []
  }

  ghost predicate Wrote(s: State, w: Watch, p: Pid)
    requires Counts(s, w)
  {
    && Called(w, p) && w.call[p].WriteOf? && w.since[p] <= |s.written|
    && (Sent(s, w, p) == w.call[p].buf || (Sent(s, w, p) <= w.call[p].buf && Stopped(s, p)))
  }

  ghost predicate Copying(s: State, w: Watch, p: Pid, left: nat)
    requires Counts(s, w)
  {
    && Called(w, p) && w.call[p].ReadOf? && w.since[p] <= |s.got|
    && |Received(s, w, p)| + left == w.call[p].n && Tail(Received(s, w, p), s.got)
  }

  ghost predicate HasRead(s: State, w: Watch, p: Pid)
    requires Counts(s, w)
  {
    && Called(w, p) && w.call[p].ReadOf? && w.since[p] <= |s.got|
    && |Received(s, w, p)| <= w.call[p].n && Tail(Received(s, w, p), s.got)
    && (|Received(s, w, p)| == w.call[p].n || Empty(s))
  }

  ghost predicate CallOk(s: State, w: Watch, p: Pid)
    requires Counts(s, w) && p in s.procs
  {
    match s.procs[p]
    case Out => true
    case WAcquire(buf, i) => Writing(s, w, p, buf, i)
    case WTest(buf, i) => Writing(s, w, p, buf, i)
    case WWake(buf, i) => Writing(s, w, p, buf, i)
    case WSleep1(buf, i) => Writing(s, w, p, buf, i)
    case WSleep2(buf, i) => Writing(s, w, p, buf, i)
    case WSleep3(buf, i) => Writing(s, w, p, buf, i)
    case WAsleep(buf, i) => Writing(s, w, p, buf, i)
    case WEndWake => Called(w, p) && w.call[p].WriteOf? && Writing(s, w, p, w.call[p].buf, |w.call[p].buf|)
    case WRelease => Wrote(s, w, p)
    case RAcquire(n) => Waiting(s, w, p, n)
    case RTest(n) => Waiting(s, w, p, n)
    case RSleep1(n) => Waiting(s, w, p, n)
    case RSleep2(n) => Waiting(s, w, p, n)
    case RSleep3(n) => Waiting(s, w, p, n)
    case RAsleep(n) => Waiting(s, w, p, n)
    case RCopy(left) => Copying(s, w, p, left)
    case REndWake => HasRead(s, w, p)
    case RRelease => HasRead(s, w, p)
    case CAcquire(_) => p in w.call && w.call[p].Closing?
    case CSet(_) => p in w.call && w.call[p].Closing?
    case CWake(_) => p in w.call && w.call[p].Closing?
    case CRelease(_) => p in w.call && w.call[p].Closing?
  }

  ghost predicate WatchOk(s: State, w: Watch) { Counts(s, w) && forall p :: p in s.procs ==> CallOk(s, w, p) }

  // ---- bytes that move --------------------------------------------------------------------------------------

  /** One byte is written, or one is read. */
  predicate Stores(s: State, t: State, b: int) { t.written == s.written + [b] && t.got == s.got }

  predicate Takes(s: State, t: State, b: int) { t.got == s.got + [b] && t.written == s.written }

  /** No byte moves. */
  predicate Still(s: State, t: State) {
    t.written == s.written && t.got == s.got && (Full(t) <==> Full(s)) && (Empty(t) <==> Empty(s))
  }

  /** The observer knows as much of q's call as before. */
  ghost predicate SameCall(w: Watch, v: Watch, q: Pid) {
    && (q in w.call ==> q in v.call && v.call[q] == w.call[q])
    && (q in w.since ==> q in v.since && v.since[q] == w.since[q])
  }

  /** A step of another process that moves no byte. */
  lemma OtherStill(s: State, w: Watch, t: State, v: Watch, q: Pid)
    requires Counts(s, w) && Counts(t, v) && q in s.procs && CallOk(s, w, q) && q in t.procs && Still(s, t)
    requires v.writer == w.writer && v.reader == w.reader && SameCall(w, v, q)
    requires t.procs[q] == s.procs[q] || t.procs[q] == Roused(s.procs[q])
    requires (t.readopen ==> s.readopen) && s.killed <= t.killed
    ensures CallOk(t, v, q)
  {
    hide Mine, Full, Empty;
  }

  /** A byte written, or read, by another process p, while q is outside the lock. */
  lemma OtherByte(s: State, w: Watch, t: State, v: Watch, q: Pid, p: Pid, b: int)
    requires Counts(s, w) && Counts(t, v) && q in s.procs && CallOk(s, w, q) && q in t.procs && q != p
    requires t.procs[q] == s.procs[q] && !HoldsLk(s.procs[q]) && SameCall(w, v, q)
    requires Stores(s, t, b) ==> v.writer == w.writer + [p] && v.reader == w.reader
    requires Takes(s, t, b) ==> v.reader == w.reader + [p] && v.writer == w.writer
    requires Stores(s, t, b) || Takes(s, t, b)
    ensures CallOk(t, v, q)
  {
    hide Mine, Full, Empty;
    if q in w.since && w.since[q] <= |s.written| {
      MineNext(s.written, w.writer, q, w.since[q], b, p);
    }
    if q in w.since && w.since[q] <= |s.got| {
      MineNext(s.got, w.reader, q, w.since[q], b, p);
    }
  }

  // ---- the process itself -------------------------------------------------------------------------------------

  /** Nothing that is said of p's call changes in a step that moves no byte and closes no end. */
  lemma SameSeen(s: State, t: State, w: Watch, p: Pid)
    requires Counts(s, w) && Counts(t, w) && Still(s, t)
    ensures forall buf, i: nat :: Writing(s, w, p, buf, i) <==> Writing(t, w, p, buf, i)
    ensures forall n: nat :: Waiting(s, w, p, n) <==> Waiting(t, w, p, n)
    ensures forall n: nat :: Copying(s, w, p, n) <==> Copying(t, w, p, n)
    ensures HasRead(s, w, p) <==> HasRead(t, w, p)
    ensures t.readopen == s.readopen && t.killed == s.killed ==> (Wrote(s, w, p) <==> Wrote(t, w, p))
  {
    hide Mine, Full, Empty;
  }

  /** From one stage of a call to the next. */
  lemma Stages(s: State, w: Watch, p: Pid)
    requires Counts(s, w)
    ensures forall n: nat :: Waiting(s, w, p, n) ==> Copying(s, w, p, n) && (Empty(s) ==> HasRead(s, w, p))
    ensures forall n: nat :: Copying(s, w, p, n) && (n == 0 || Empty(s)) ==> HasRead(s, w, p)
    ensures forall buf, i: nat :: Writing(s, w, p, buf, i) ==> Called(w, p) && w.call[p] == WriteOf(buf) && i <= |buf|
    ensures forall buf, i: nat :: Writing(s, w, p, buf, i) && (i == |buf| || Stopped(s, p)) ==> Wrote(s, w, p)
  {
    hide Mine, Full, Empty;
  }

  lemma WriterStill(s: State, w: Watch, p: Pid)
    requires Counts(s, w) && p in s.procs && CallOk(s, w, p) && |s.data| == PIPESIZE && IsWriter(s.procs[p])
    requires !Moves(s, s.procs[p]) && Counts(WriterStep(s, p), w) && Still(s, WriterStep(s, p))
    ensures p in WriterStep(s, p).procs && CallOk(WriterStep(s, p), w, p)
  {
    hide Full, Empty, WokenReaders, WokenWriters, Stored, Taken, Writing, Waiting, Copying, HasRead, Wrote, Still;
    var t := WriterStep(s, p);
    assert p in t.procs;
    SameSeen(s, t, w, p);
    Stages(s, w, p);
  }

  lemma ReaderStill(s: State, w: Watch, p: Pid)
    requires Counts(s, w) && p in s.procs && CallOk(s, w, p) && |s.data| == PIPESIZE && IsReader(s.procs[p])
    requires !Moves(s, s.procs[p]) && Counts(ReaderStep(s, p), w) && Still(s, ReaderStep(s, p))
    ensures p in ReaderStep(s, p).procs && CallOk(ReaderStep(s, p), w, p)
  {
    hide Full, Empty, WokenReaders, WokenWriters, Stored, Taken, Writing, Waiting, Copying, HasRead, Wrote, Still;
    var t := ReaderStep(s, p);
    assert p in t.procs;
    SameSeen(s, t, w, p);
    Stages(s, w, p);
  }

  lemma CloserStill(s: State, w: Watch, p: Pid)
    requires Counts(s, w) && p in s.procs && CallOk(s, w, p) && |s.data| == PIPESIZE && !IsReader(s.procs[p]) && !IsWriter(s.procs[p])
    requires Counts(CloserStep(s, p), w)
    ensures p in CloserStep(s, p).procs && CallOk(CloserStep(s, p), w, p)
  {
    hide Full, Empty, WokenReaders, WokenWriters, Writing, Waiting, Copying, HasRead, Wrote;
    var t := CloserStep(s, p);
    assert p in t.procs;
  }

  /** pipewrite stores the next byte of its buffer. */
  lemma OwnStore(s: State, w: Watch, p: Pid, buf: seq<int>, i: nat, v: Watch)
    requires Counts(s, w) && Writing(s, w, p, buf, i) && i < |buf| && |s.data| == PIPESIZE
    requires v == w.(writer := w.writer + [p])
    ensures Counts(Stored(s, p, buf, i), v) && Writing(Stored(s, p, buf, i), v, p, buf, i + 1)
  {
    MineNext(s.written, w.writer, p, w.since[p], buf[i], p);
    assert buf[..i + 1] == buf[..i] + [buf[i]];
  }

  /** piperead takes the next byte of the pipe. */
  lemma OwnTake(s: State, w: Watch, p: Pid, left: nat, v: Watch)
    requires Counts(s, w) && Copying(s, w, p, left) && 0 < left && |s.data| == PIPESIZE
    requires v == w.(reader := w.reader + [p])
    ensures Counts(Taken(s, p, left), v) && Copying(Taken(s, p, left), v, p, left - 1)
  {
    hide Mine;
    MineNext(s.got, w.reader, p, w.since[p], s.data[s.nread % PIPESIZE], p);
  }

  // ---- every step ---------------------------------------------------------------------------------------------

  /** What a step of p that moves no byte may do to another process: wake it. */
  ghost predicate Apart(s: State, t: State, p: Pid) {
    && t.procs.Keys == s.procs.Keys && (t.readopen ==> s.readopen) && s.killed <= t.killed
    && forall q :: q in s.procs && q != p ==> t.procs[q] == s.procs[q] || t.procs[q] == Roused(s.procs[q])
  }

  /** Only p moves, or p wakes the readers, or the writers. */
  ghost predicate Form(s: State, t: State, p: Pid) {
    && p in s.procs && p in t.procs && (t.readopen ==> s.readopen) && t.killed == s.killed
    && (|| t.procs == s.procs[p := t.procs[p]]
        || t.procs == WokenReaders(s.procs)[p := t.procs[p]]
        || t.procs == WokenWriters(s.procs)[p := t.procs[p]])
  }

  lemma FormApart(s: State, t: State, p: Pid)
    requires Form(s, t, p)
    ensures Apart(s, t, p)
  {
    assert t.procs.Keys == s.procs.Keys;
  }

  lemma GoAlone(s: State, t: State, p: Pid, pc: PC)
    requires p in s.procs && t.procs == s.procs[p := pc] && t.readopen == s.readopen && t.killed == s.killed
    ensures Form(s, t, p)
  {
  }

  lemma WriterAlone(s: State, p: Pid)
    requires p in s.procs && |s.data| == PIPESIZE && !s.procs[p].WWake? && !s.procs[p].WEndWake?
    ensures Form(s, WriterStep(s, p), p)
  {
    hide Form, WokenReaders, WokenWriters, Full, Empty;
    var t := WriterStep(s, p);
    var pc := s.procs[p];
    if pc.WAcquire? {
      GoAlone(s, t, p, WTest(pc.buf, pc.i));
    } else if pc.WTest? {
      GoAlone(s, t, p, if pc.i >= |pc.buf| then WEndWake else if !Full(s) then WTest(pc.buf, pc.i + 1) else if !s.readopen || p in s.killed then WRelease else WWake(pc.buf, pc.i));
    } else if pc.WSleep1? {
      GoAlone(s, t, p, WSleep2(pc.buf, pc.i));
    } else if pc.WSleep2? {
      GoAlone(s, t, p, WSleep3(pc.buf, pc.i));
    } else if pc.WSleep3? {
      GoAlone(s, t, p, WAsleep(pc.buf, pc.i));
    } else if pc.WRelease? {
      GoAlone(s, t, p, Out);
    } else {
      assert s.procs == s.procs[p := pc];
      GoAlone(s, s, p, pc);
    }
  }

  lemma ReaderAlone(s: State, p: Pid)
    requires p in s.procs && |s.data| == PIPESIZE && !s.procs[p].REndWake?
    ensures Form(s, ReaderStep(s, p), p)
  {
    hide Form, WokenReaders, WokenWriters, Full, Empty;
    var t := ReaderStep(s, p);
    var pc := s.procs[p];
    if pc.RAcquire? {
      GoAlone(s, t, p, RTest(pc.n));
    } else if pc.RTest? {
      GoAlone(s, t, p, if !Empty(s) || !s.writeopen then RCopy(pc.n) else if p in s.killed then RRelease else RSleep1(pc.n));
    } else if pc.RSleep1? {
      GoAlone(s, t, p, RSleep2(pc.n));
    } else if pc.RSleep2? {
      GoAlone(s, t, p, RSleep3(pc.n));
    } else if pc.RSleep3? {
      GoAlone(s, t, p, RAsleep(pc.n));
    } else if pc.RCopy? {
      GoAlone(s, t, p, if pc.n == 0 || Empty(s) then REndWake else RCopy(pc.n - 1));
    } else if pc.RRelease? {
      GoAlone(s, t, p, Out);
    } else {
      assert s.procs == s.procs[p := pc];
      GoAlone(s, s, p, pc);
    }
  }

  lemma WakeForm(s: State, p: Pid)
    requires p in s.procs && |s.data| == PIPESIZE
    ensures s.procs[p].WWake? || s.procs[p].WEndWake? ==> Form(s, WriterStep(s, p), p)
    ensures s.procs[p].REndWake? ==> Form(s, ReaderStep(s, p), p)
  {
    hide WokenReaders, WokenWriters;
  }

  lemma WriterForm(s: State, p: Pid)
    requires p in s.procs && |s.data| == PIPESIZE
    ensures Form(s, WriterStep(s, p), p)
  {
    hide Form, WriterStep, WokenReaders, WokenWriters;
    if s.procs[p].WWake? || s.procs[p].WEndWake? {
      WakeForm(s, p);
    } else {
      WriterAlone(s, p);
    }
  }

  lemma ReaderForm(s: State, p: Pid)
    requires p in s.procs && |s.data| == PIPESIZE
    ensures Form(s, ReaderStep(s, p), p)
  {
    hide Form, ReaderStep, WokenReaders, WokenWriters;
    if s.procs[p].REndWake? {
      WakeForm(s, p);
    } else {
      ReaderAlone(s, p);
    }
  }

  lemma CloserForm(s: State, p: Pid)
    requires p in s.procs && |s.data| == PIPESIZE
    ensures Form(s, CloserStep(s, p), p)
  {
    hide WokenReaders, WokenWriters;
  }

  lemma NextApart(s: State, p: Pid)
    requires p in s.procs && |s.data| == PIPESIZE
    ensures Apart(s, Stepped(s, p), p)
  {
    hide Apart, Form, WriterStep, ReaderStep, CloserStep, IsWriter, IsReader;
    WriterForm(s, p);
    ReaderForm(s, p);
    CloserForm(s, p);
    FormApart(s, Stepped(s, p), p);
  }

  lemma KeepStill(s: State, w: Watch, p: Pid)
    requires WatchOk(s, w) && RingOk(s) && p in s.procs && !Moves(s, s.procs[p]) && |s.data| == PIPESIZE
    ensures WatchOk(Stepped(s, p), Noted(w, s, Next(p), Stepped(s, p)))
  {
    hide RingOk, WriterStep, ReaderStep, CloserStep, Moves, CallOk, IsReader, IsWriter;
    RingSize(s);
    var t := Stepped(s, p);
    NextSame(s, p);
    NextApart(s, p);
    RepeatOne(p);
    assert Noted(w, s, Next(p), t) == w && Counts(t, w) && Still(s, t);
    if IsWriter(s.procs[p]) {
      WriterStill(s, w, p);
    } else if IsReader(s.procs[p]) {
      ReaderStill(s, w, p);
    } else {
      CloserStill(s, w, p);
    }
    forall q | q in t.procs ensures CallOk(t, w, q) {
      if q != p {
        OtherStill(s, w, t, w, q);
      }
    }
  }

  /** While p has the lock nobody else does. */
  lemma LockAlone(s: State, p: Pid, q: Pid)
    requires ProcsOk(s) && p in s.procs && q in s.procs && q != p && HoldsLk(s.procs[p])
    ensures !HoldsLk(s.procs[q])
  {
    assert ProcOk(s, p) && ProcOk(s, q);
  }

  lemma KeepStore(s: State, w: Watch, p: Pid)
    requires WatchOk(s, w) && Inv(s) && p in s.procs && s.procs[p].WTest? && Moves(s, s.procs[p])
    ensures WatchOk(Stepped(s, p), Noted(w, s, Next(p), Stepped(s, p)))
  {
    hide RingOk, ProcsOk, CallOk, Full, Empty;
    var buf, i := s.procs[p].buf, s.procs[p].i;
    RingSize(s);
    var t := Stored(s, p, buf, i);
    assert Stepped(s, p) == t;
    RepeatOne(p);
    var v := w.(writer := w.writer + [p]);
    assert Noted(w, s, Next(p), t) == v;
    StageOf(s, w, p);
    OwnStore(s, w, p, buf, i, v);
    forall q | q in t.procs ensures CallOk(t, v, q) {
      if q != p {
        LockAlone(s, p, q);
        OtherByte(s, w, t, v, q, p, buf[i]);
      } else {
        WritesOn(t, v, p, buf, i + 1);
      }
    }
  }

  lemma KeepTake(s: State, w: Watch, p: Pid)
    requires WatchOk(s, w) && Inv(s) && p in s.procs && s.procs[p].RCopy? && Moves(s, s.procs[p])
    ensures WatchOk(Stepped(s, p), Noted(w, s, Next(p), Stepped(s, p)))
  {
    hide RingOk, ProcsOk, CallOk, Full, Empty;
    var left := s.procs[p].n;
    RingSize(s);
    var t := Taken(s, p, left);
    assert Stepped(s, p) == t;
    RepeatOne(p);
    var v := w.(reader := w.reader + [p]);
    assert Noted(w, s, Next(p), t) == v;
    StageOf(s, w, p);
    OwnTake(s, w, p, left, v);
    forall q | q in t.procs ensures CallOk(t, v, q) {
      if q != p {
        LockAlone(s, p, q);
        OtherByte(s, w, t, v, q, p, s.data[s.nread % PIPESIZE]);
      } else {
        CopiesOn(t, v, p, left - 1);
      }
    }
  }

  lemma StageOf(s: State, w: Watch, p: Pid)
    requires WatchOk(s, w) && p in s.procs
    ensures s.procs[p].WTest? ==> Writing(s, w, p, s.procs[p].buf, s.procs[p].i)
    ensures s.procs[p].RCopy? ==> Copying(s, w, p, s.procs[p].n)
  {
    assert CallOk(s, w, p);
  }

  lemma WritesOn(t: State, v: Watch, p: Pid, buf: seq<int>, i: nat)
    requires Counts(t, v) && p in t.procs && t.procs[p] == WTest(buf, i) && Writing(t, v, p, buf, i)
    ensures CallOk(t, v, p)
  {
  }

  lemma CopiesOn(t: State, v: Watch, p: Pid, left: nat)
    requires Counts(t, v) && p in t.procs && t.procs[p] == RCopy(left) && Copying(t, v, p, left)
    ensures CallOk(t, v, p)
  {
  }

  /** A call begins, or a process is killed. */
  lemma KeepBegin(s: State, w: Watch, a: Action)
    requires WatchOk(s, w) && |s.data| == PIPESIZE && Enabled(s, a) && !a.Next?
    ensures WatchOk(Do(s, a), Noted(w, s, a, Do(s, a)))
  {
    hide CallOk;
    var t, p := Do(s, a), a.pid;
    var v := Noted(w, s, a, t);
    RepeatOne(p);
    assert Counts(t, v) && v.writer == w.writer && v.reader == w.reader;
    assert t.procs.Keys == s.procs.Keys;
    forall q | q in t.procs ensures CallOk(t, v, q) {
      if q != p || a.Kill? {
        OtherStill(s, w, t, v, q);
      } else {
        BeginsEmpty(s, w, a, t);
      }
    }
  }

  lemma BeginsEmpty(s: State, w: Watch, a: Action, t: State)
    requires Counts(s, w) && |s.data| == PIPESIZE && Enabled(s, a) && !a.Next? && !a.Kill? && t == Do(s, a)
    ensures a.pid in t.procs && Counts(t, Noted(w, s, a, t)) && CallOk(t, Noted(w, s, a, t), a.pid)
  {
    hide Full, Empty;
    RepeatOne(a.pid);
  }

  lemma KeepWatch(s: State, w: Watch, a: Action)
    requires WatchOk(s, w) && Inv(s) && Enabled(s, a)
    ensures WatchOk(Do(s, a), Noted(w, s, a, Do(s, a)))
  {
    hide WatchOk, Noted, Stepped, ProcsOk;
    if !a.Next? {
      KeepBegin(s, w, a);
    } else if !Moves(s, s.procs[a.pid]) {
      KeepStill(s, w, a.pid);
    } else if s.procs[a.pid].WTest? {
      KeepStore(s, w, a.pid);
    } else {
      KeepTake(s, w, a.pid);
    }
  }

  lemma {:induction false} RunWatch(s: State, w: Watch, acts: seq<Action>, t: State, v: Watch)
    requires WatchOk(s, w) && Inv(s) && WatchRun(s, w, acts, t, v)
    ensures WatchOk(t, v) && Inv(t) && Run(s, acts, t)
    decreases |acts|
  {
    hide WatchOk, Inv, Do, Enabled, Noted;
    if acts != [] {
      KeepWatch(s, w, acts[0]);
      KeepStep(s, acts[0]);
      RunWatch(Do(s, acts[0]), Noted(w, s, acts[0], Do(s, acts[0])), acts[1..], t, v);
    }
  }

  /** A process that was killed does not go to sleep in the pipe any more: it tests before. */
  lemma KilledLeaves(s: State, p: Pid)
    requires |s.data| == PIPESIZE && Enabled(s, Next(p)) && p in s.killed && (s.procs[p].RTest? || s.procs[p].WTest?)
    ensures var t := Stepped(s, p); p in t.procs && !t.procs[p].RSleep1? && !t.procs[p].WWake? && !t.procs[p].WSleep1?
  {
    hide Full, Empty, WokenReaders, WokenWriters;
  }

  /** kill marks its target and leaves it awake, and everybody else as they were. */
  lemma KillWakes(s: State, p: Pid)
    requires |s.data| == PIPESIZE && Enabled(s, Kill(p))
    ensures var t := Do(s, Kill(p));
      && p in t.killed && p in t.procs && !t.procs[p].RAsleep? && !t.procs[p].WAsleep?
      && t.procs == s.procs[p := t.procs[p]] && SameRing(s, t)
  {
  }

  /** Every run can be observed. */
  lemma {:induction false} Observed(s: State, w: Watch, acts: seq<Action>, t: State) returns (v: Watch)
    requires Run(s, acts, t)
    ensures WatchRun(s, w, acts, t, v)
    decreases |acts|
  {
    hide Do, Enabled, Noted;
    if acts == [] {
      return w;
    }
    v := Observed(Do(s, acts[0]), Noted(w, s, acts[0], Do(s, acts[0])), acts[1..], t);
  }

  const Nobody: Watch := Watch(map[], map[], [], [])

  lemma Watched(s: State, acts: seq<Action>, t: State, v: Watch, p: Pid)
    requires Initial(s) && WatchRun(s, Nobody, acts, t, v) && p in t.procs
    ensures Counts(t, v) && CallOk(t, v, p) && RingOk(t)
  {
    hide Inv, WatchRun, Run;
    InitialInv(s);
    assert WatchOk(s, Nobody);
    RunWatch(s, Nobody, acts, t, v);
    RingOf(t);
  }

  lemma RingOf(s: State)
    requires Inv(s)
    ensures RingOk(s)
  {
  }

  /** In every state of every run, the bytes that a pipewrite under way has put into the pipe are the
      first i of its buffer, in order. */
  lemma WriteProgress(s: State, acts: seq<Action>, t: State, v: Watch, p: Pid)
    requires Initial(s) && WatchRun(s, Nobody, acts, t, v) && p in t.procs && t.procs[p].WTest?
    ensures Counts(t, v) && Called(v, p) && v.call[p] == WriteOf(t.procs[p].buf)
    ensures t.procs[p].i <= |t.procs[p].buf| && Sent(t, v, p) == t.procs[p].buf[..t.procs[p].i]
  {
    hide WatchRun, Mine;
    Watched(s, acts, t, v, p);
  }

  /** A pipewrite that returns has written its whole buffer, in order; or a first part of it, and then
      the pipe is full and the readers are gone or the process was killed. */
  lemma WriteReturns(s: State, acts: seq<Action>, t: State, v: Watch, p: Pid)
    requires Initial(s) && WatchRun(s, Nobody, acts, t, v) && Enabled(t, Next(p)) && |t.data| == PIPESIZE
    requires p in v.call && v.call[p].WriteOf? && p in Stepped(t, p).procs && Stepped(t, p).procs[p].Out?
    ensures Counts(t, v) && Called(v, p)
    ensures Sent(t, v, p) == v.call[p].buf || (Sent(t, v, p) <= v.call[p].buf && Stopped(t, p))
  {
    hide WatchRun, Mine, Full, Empty;
    Watched(s, acts, t, v, p);
    OutFrom(t, p);
  }

  /** A piperead that returns has got bytes that follow each other in the pipe, the last ones taken; no
      more than it asked for, and fewer only if the pipe is empty. */
  lemma ReadReturns(s: State, acts: seq<Action>, t: State, v: Watch, p: Pid)
    requires Initial(s) && WatchRun(s, Nobody, acts, t, v) && Enabled(t, Next(p)) && |t.data| == PIPESIZE
    requires p in v.call && v.call[p].ReadOf? && p in Stepped(t, p).procs && Stepped(t, p).procs[p].Out?
    ensures Counts(t, v) && Called(v, p) && Tail(Received(t, v, p), t.got) && t.got <= t.written
    ensures |Received(t, v, p)| <= v.call[p].n && (|Received(t, v, p)| < v.call[p].n ==> |t.written| == |t.got|)
  {
    hide WatchRun, Mine, Full, Empty;
    Watched(s, acts, t, v, p);
    OutFrom(t, p);
    RingTests(t);
  }

  /** Where calls return. */
  lemma OutFrom(s: State, p: Pid)
    requires Enabled(s, Next(p)) && |s.data| == PIPESIZE && p in Stepped(s, p).procs && Stepped(s, p).procs[p].Out?
    ensures s.procs[p].WRelease? || s.procs[p].RRelease? || s.procs[p].CRelease?
  {
    hide WriterStep, ReaderStep, CloserStep;
    if IsWriter(s.procs[p]) {
      WriterOut(s, p);
    } else if IsReader(s.procs[p]) {
      ReaderOut(s, p);
    } else {
      CloserOut(s, p);
    }
  }

  lemma WriterOut(s: State, p: Pid)
    requires p in s.procs && |s.data| == PIPESIZE && IsWriter(s.procs[p]) && p in WriterStep(s, p).procs && WriterStep(s, p).procs[p].Out?
    ensures s.procs[p].WRelease?
  {
    hide Full, Empty, WokenReaders;
  }

  lemma ReaderOut(s: State, p: Pid)
    requires p in s.procs && |s.data| == PIPESIZE && IsReader(s.procs[p]) && p in ReaderStep(s, p).procs && ReaderStep(s, p).procs[p].Out?
    ensures s.procs[p].RRelease?
  {
    hide Full, Empty, WokenWriters;
  }

  lemma CloserOut(s: State, p: Pid)
    requires Enabled(s, Next(p)) && |s.data| == PIPESIZE && !IsReader(s.procs[p]) && !IsWriter(s.procs[p])
    requires p in CloserStep(s, p).procs && CloserStep(s, p).procs[p].Out?
    ensures s.procs[p].CRelease?
  {
    hide Full, Empty, WokenReaders, WokenWriters;
  }
}
