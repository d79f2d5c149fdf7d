/** First in, first out across counter overflow, and no lost wakeup, in every run of the pipe. */
module PipeProof {
  import opened Wrappers
  import opened Pipe

  // ---- modular arithmetic ---------------------------------------------------------------------

  lemma ModTwice(x: nat)
    ensures x % UINT % PIPESIZE == x % PIPESIZE
  {
    var q := x / UINT;
    assert x == q * UINT + x % UINT;
    assert UINT == 8388608 * PIPESIZE;
    assert x == (q * 8388608) * PIPESIZE + x % UINT;
    ModUnique(x, q * 8388608, x % UINT);
  }

  lemma ModUnique(x: nat, k: nat, r: nat)
    requires x == k * PIPESIZE + r
    ensures x % PIPESIZE == r % PIPESIZE
  {
    var a, b := x / PIPESIZE, r / PIPESIZE;
    assert x == a * PIPESIZE + x % PIPESIZE && r == b * PIPESIZE + r % PIPESIZE;
    assert (a - k - b) * PIPESIZE == r % PIPESIZE - x % PIPESIZE;
  }

  lemma ModShift(x: nat, d: nat)
    ensures (x % UINT + d) % UINT == (x + d) % UINT
  {
  }

  /** Counters at most PIPESIZE apart compare as the true totals do. */
  lemma CountersTell(r: nat, w: nat)
    requires r <= w <= r + PIPESIZE
    ensures w % UINT == r % UINT <==> w == r
    ensures w % UINT == (r % UINT + PIPESIZE) % UINT <==> w == r + PIPESIZE
    ensures (w % UINT - r % UINT) % UINT == w - r
  {
    ModShift(r, PIPESIZE);
    var a, b := w / UINT, r / UINT;
    assert w == a * UINT + w % UINT && r == b * UINT + r % UINT;
    assert w - r == (a - b) * UINT + (w % UINT - r % UINT);
  }

  /** Within one window of PIPESIZE positions the ring index tells positions apart. */
  lemma SlotTells(i: nat, j: nat)
    requires i < j < i + PIPESIZE
    ensures i % PIPESIZE != j % PIPESIZE
  {
    var a, b := i / PIPESIZE, j / PIPESIZE;
    assert i == a * PIPESIZE + i % PIPESIZE && j == b * PIPESIZE + j % PIPESIZE;
  }

  // ---- the ring --------------------------------------------------------------------------------

  lemma RingTests(s: State)
    requires RingOk(s)
    ensures Full(s) <==> |s.written| == |s.got| + PIPESIZE
    ensures Empty(s) <==> |s.written| == |s.got|
    ensures Count(s) == |s.written| - |s.got|
  {
    CountersTell(|s.got|, |s.written|);
  }

  lemma StoredRing(s: State, p: Pid, buf: seq<int>, i: nat)
    requires RingOk(s) && !Full(s) && i < |buf|
    ensures RingOk(Stored(s, p, buf, i))
  {
    var t := Stored(s, p, buf, i);
    RingTests(s);
    ModTwice(|s.written|);
    ModShift(|s.written|, 1);
    assert s.got <= t.written;
    forall j | |t.got| <= j < |t.written| ensures t.data[j % PIPESIZE] == t.written[j] {
      if j < |s.written| {
        SlotTells(j, |s.written|);
      }
    }
  }

  lemma TakenRing(s: State, p: Pid, n: nat)
    requires RingOk(s) && !Empty(s) && 0 < n
    ensures RingOk(Taken(s, p, n))
  {
    var t := Taken(s, p, n);
    RingTests(s);
    ModTwice(|s.got|);
    ModShift(|s.got|, 1);
    assert s.data[|s.got| % PIPESIZE] == s.written[|s.got|];
    assert t.got == s.written[..|s.got| + 1];
  }

  predicate Moves(s: State, pc: PC) {
    (pc.WTest? && pc.i < |pc.buf| && !Full(s)) || (pc.RCopy? && pc.n != 0 && !Empty(s))
  }

  lemma RingSame(s: State, t: State)
    requires RingOk(s) && SameRing(s, t)
    ensures RingOk(t)
  {
  }

  predicate SameRing(s: State, t: State) {
    t.data == s.data && t.written == s.written && t.got == s.got && t.nread == s.nread && t.nwrite == s.nwrite
  }

  lemma WriterSame(s: State, p: Pid)
    requires p in s.procs && |s.data| == PIPESIZE && !Moves(s, s.procs[p]) && IsWriter(s.procs[p])
    ensures SameRing(s, Stepped(s, p))
  {
    hide Full, Empty, WokenReaders, WokenWriters, Stored, Taken, ReaderStep, CloserStep;
  }

  lemma OtherSame(s: State, p: Pid)
    requires p in s.procs && |s.data| == PIPESIZE && !Moves(s, s.procs[p]) && !IsWriter(s.procs[p])
    ensures SameRing(s, Stepped(s, p))
  {
    hide Full, Empty, WokenReaders, WokenWriters, Stored, Taken, WriterStep;
  }

  /** All other steps leave the ring alone. */
  lemma NextSame(s: State, p: Pid)
    requires p in s.procs && |s.data| == PIPESIZE && !Moves(s, s.procs[p])
    ensures SameRing(s, Stepped(s, p))
  {
    hide Stepped, SameRing, Moves;
    if IsWriter(s.procs[p]) {
      WriterSame(s, p);
    } else {
      OtherSame(s, p);
    }
  }

  lemma NextRing(s: State, p: Pid)
    requires RingOk(s) && p in s.procs
    ensures RingOk(Stepped(s, p))
  {
    hide RingOk, Full, Empty, WokenReaders, WokenWriters, Stored, Taken;
    var pc := s.procs[p];
    RingSize(s);
    if !Moves(s, pc) {
      NextSame(s, p);
      RingSame(s, Stepped(s, p));
    } else if pc.WTest? {
      StoredRing(s, p, pc.buf, pc.i);
    } else {
      TakenRing(s, p, pc.n);
    }
  }

  lemma RingSize(s: State)
    requires RingOk(s)
    ensures |s.data| == PIPESIZE
  {
  }

  lemma StepRing(s: State, a: Action)
    requires RingOk(s) && Enabled(s, a)
    ensures RingOk(Do(s, a))
  {
    hide Stepped;
    if a.Next? {
      NextRing(s, a.pid);
    }
  }

  // ---- sleeping ---------------------------------------------------------------------------------------

  /** p stays at its end of the pipe. */
  predicate SameEnd(pc: PC, pc': PC) {
    && (IsReader(pc') ==> IsReader(pc)) && (IsWriter(pc') ==> IsWriter(pc))
    && (Closes(pc', true) ==> Closes(pc, true)) && (Closes(pc', false) ==> Closes(pc, false))
    && (pc'.CAcquire? || pc'.CSet? ==> (pc.CAcquire? || pc.CSet?) && pc'.writable == pc.writable)
  }

  /** p takes or gives back locks only in its own name, and keeps the lock while it owes a wakeup. */
  predicate QuietMove(pc: PC, pc': PC, lk: Option<Pid>, lk': Option<Pid>, pt: Option<Pid>, pt': Option<Pid>, p: Pid) {
    SameEnd(pc, pc') && LocksMove(pc, pc', lk, lk', pt, pt', p)
  }

  predicate LocksMove(pc: PC, pc': PC, lk: Option<Pid>, lk': Option<Pid>, pt: Option<Pid>, pt': Option<Pid>, p: Pid) {
    && LockMove(lk, lk', p) && LockMove(pt, pt', p)
    && (lk == Some(p) && OwesReaders(pc) ==> lk' == Some(p) && OwesReaders(pc'))
    && (lk == Some(p) && OwesWriters(pc) ==> lk' == Some(p) && OwesWriters(pc'))
  }

  /** A step of p that neither moves bytes, nor wakes anybody, nor closes an end. */
  ghost predicate Quiet(s: State, t: State, p: Pid) {
    && p in s.procs && p in t.procs
    && t == s.(procs := s.procs[p := t.procs[p]], lk := t.lk, pt := t.pt)
    && QuietMove(s.procs[p], t.procs[p], s.lk, t.lk, s.pt, t.pt, p)
  }

  lemma QuietOthers(s: State, t: State, p: Pid, q: Pid)
    requires ProcsOk(s) && Quiet(s, t, p) && q in s.procs && q != p
    ensures ProcOk(t, q)
  {
    assert ProcOk(s, q) && ProcOk(s, p);
    EndsKept(s, t, q);
    QuietPlace(s, t, p, q);
  }

  lemma QuietPlace(s: State, t: State, p: Pid, q: Pid)
    requires Quiet(s, t, p) && q in s.procs && q != p && PlaceOk(s, q) && PlaceOk(s, p)
    ensures PlaceOk(t, q)
  {
  }

  lemma QuietKeeps(s: State, t: State, p: Pid)
    requires ProcsOk(s) && Quiet(s, t, p) && ProcOk(t, p)
    ensures ProcsOk(t)
  {
    hide ProcOk;
    forall q | q in t.procs ensures ProcOk(t, q) {
      if q != p {
        QuietOthers(s, t, p, q);
      }
    }
  }

  /** Steps inside the writer's or reader's code that neither move bytes nor wake. */
  predicate QuietStep(s: State, p: Pid)
    requires p in s.procs
  {
    var pc := s.procs[p];
    || pc.WAcquire? || pc.WSleep1? || pc.WSleep2? || pc.WSleep3? || pc.WRelease?
    || pc.RAcquire? || pc.RTest? || pc.RSleep1? || pc.RSleep2? || pc.RSleep3? || pc.RRelease?
    || pc.CAcquire? || pc.CRelease?
    || (pc.WTest? && (pc.i >= |pc.buf| || (Full(s) && s.readopen && p !in s.killed)))
    || (pc.RCopy? && (pc.n == 0 || Empty(s)))
  }

  lemma QuietStepKeeps(s: State, p: Pid)
    requires ProcsOk(s) && |s.data| == PIPESIZE && Enabled(s, Next(p)) && QuietStep(s, p)
    ensures ProcsOk(Stepped(s, p))
  {
    var t := Stepped(s, p);
    assert ProcOk(s, p);
    QuietStepIsQuiet(s, p);
    QuietStepPlace(s, p);
    EndsKept(s, t, p);
    QuietKeeps(s, t, p);
  }

  lemma QuietStepIsQuiet(s: State, p: Pid)
    requires p in s.procs && PlaceOk(s, p) && |s.data| == PIPESIZE && Enabled(s, Next(p)) && QuietStep(s, p)
    ensures Quiet(s, Stepped(s, p), p)
  {
    hide Full, Empty, Stepped, QuietMove;
    QuietStepForm(s, p);
    IsReady(s, p);
    if IsWriter(s.procs[p]) {
      QuietWriter(s, p);
    } else if IsReader(s.procs[p]) {
      QuietReader(s, p);
    } else {
      QuietCloser(s, p);
    }
  }

  /** Only the process and the locks change. */
  ghost predicate LocksOnly(s: State, t: State, p: Pid) {
    p in t.procs && t == s.(procs := s.procs[p := t.procs[p]], lk := t.lk, pt := t.pt)
  }

  lemma QuietStepForm(s: State, p: Pid)
    requires p in s.procs && |s.data| == PIPESIZE && QuietStep(s, p)
    ensures LocksOnly(s, Stepped(s, p), p)
  {
    hide LocksOnly, Full, Empty, WriterStep, ReaderStep, CloserStep, QuietStep;
    if IsWriter(s.procs[p]) {
      WriterForm(s, p);
    } else {
      OtherForm(s, p);
    }
  }

  lemma WriterForm(s: State, p: Pid)
    requires p in s.procs && |s.data| == PIPESIZE && QuietStep(s, p) && IsWriter(s.procs[p])
    ensures LocksOnly(s, WriterStep(s, p), p)
  {
    hide Full, Empty, Stored, WokenReaders;
  }

  lemma OtherForm(s: State, p: Pid)
    requires p in s.procs && |s.data| == PIPESIZE && QuietStep(s, p) && !IsWriter(s.procs[p])
    ensures LocksOnly(s, if IsReader(s.procs[p]) then ReaderStep(s, p) else CloserStep(s, p), p)
  {
    hide Full, Empty, Taken, WokenReaders, WokenWriters;
  }

  /** p has the locks that its place calls for, and gets those that its next step wants. */
  predicate Ready(s: State, p: Pid)
    requires p in s.procs
  {
    var pc := s.procs[p];
    && (HoldsLk(pc) <==> s.lk == Some(p)) && (HoldsPt(pc) <==> s.pt == Some(p))
    && (WantsLk(pc) ==> s.lk.None?) && (WantsPt(pc) ==> s.pt.None?)
  }

  lemma IsReady(s: State, p: Pid)
    requires p in s.procs && PlaceOk(s, p) && Enabled(s, Next(p))
    ensures Ready(s, p)
  {
    hide HoldsLk, HoldsPt, WantsLk, WantsPt, Full, Empty, SleepOk;
  }

  lemma StaysInside(pc: PC, pc': PC)
    requires (IsWriter(pc) && (IsWriter(pc') || pc'.Out?)) || (IsReader(pc) && (IsReader(pc') || pc'.Out?))
    ensures SameEnd(pc, pc')
  {
  }

  lemma OneEnd(pc: PC)
    ensures IsReader(pc) ==> !IsWriter(pc)
  {
  }

  lemma WriterEnd(s: State, p: Pid)
    requires p in s.procs && |s.data| == PIPESIZE && QuietStep(s, p) && IsWriter(s.procs[p])
    ensures p in WriterStep(s, p).procs && (WriterStep(s, p).procs[p].Out? || IsWriter(WriterStep(s, p).procs[p]))
  {
    hide Full, Empty, Stored, Taken, WokenReaders, WokenWriters, Owed;
  }

  lemma WriterLocks(s: State, p: Pid)
    requires p in s.procs && Ready(s, p) && |s.data| == PIPESIZE && QuietStep(s, p) && IsWriter(s.procs[p])
    ensures p in WriterStep(s, p).procs && LocksMove(s.procs[p], WriterStep(s, p).procs[p], s.lk, WriterStep(s, p).lk, s.pt, WriterStep(s, p).pt, p)
  {
    hide Full, Empty, Stored, Taken, WokenReaders, WokenWriters, Owed;
  }

  lemma QuietWriter(s: State, p: Pid)
    requires p in s.procs && Ready(s, p) && |s.data| == PIPESIZE && QuietStep(s, p) && IsWriter(s.procs[p])
    ensures var t := Stepped(s, p);
      p in t.procs && QuietMove(s.procs[p], t.procs[p], s.lk, t.lk, s.pt, t.pt, p)
  {
    hide WriterStep, SameEnd, LocksMove, QuietStep, Ready, IsReader, IsWriter;
    WriterEnd(s, p);
    StaysInside(s.procs[p], WriterStep(s, p).procs[p]);
    WriterLocks(s, p);
  }

  lemma ReaderEnd(s: State, p: Pid)
    requires p in s.procs && |s.data| == PIPESIZE && QuietStep(s, p) && IsReader(s.procs[p])
    ensures p in ReaderStep(s, p).procs && (ReaderStep(s, p).procs[p].Out? || IsReader(ReaderStep(s, p).procs[p]))
  {
    hide Full, Empty, Stored, Taken, WokenReaders, WokenWriters, Owed;
  }

  lemma ReaderLocks(s: State, p: Pid)
    requires p in s.procs && Ready(s, p) && |s.data| == PIPESIZE && QuietStep(s, p) && IsReader(s.procs[p])
    ensures p in ReaderStep(s, p).procs && LocksMove(s.procs[p], ReaderStep(s, p).procs[p], s.lk, ReaderStep(s, p).lk, s.pt, ReaderStep(s, p).pt, p)
  {
    hide Full, Empty, Stored, Taken, WokenReaders, WokenWriters, Owed;
  }

  lemma QuietReader(s: State, p: Pid)
    requires p in s.procs && Ready(s, p) && |s.data| == PIPESIZE && QuietStep(s, p) && IsReader(s.procs[p])
    ensures var t := Stepped(s, p);
      p in t.procs && QuietMove(s.procs[p], t.procs[p], s.lk, t.lk, s.pt, t.pt, p)
  {
    hide ReaderStep, SameEnd, LocksMove, QuietStep, Ready, IsReader, IsWriter;
    ReaderEnd(s, p);
    StaysInside(s.procs[p], ReaderStep(s, p).procs[p]);
    OneEnd(s.procs[p]);
    ReaderLocks(s, p);
  }

  lemma QuietCloser(s: State, p: Pid)
    requires p in s.procs && Ready(s, p) && |s.data| == PIPESIZE && QuietStep(s, p)
    requires !IsWriter(s.procs[p]) && !IsReader(s.procs[p])
    ensures var t := Stepped(s, p);
      p in t.procs && QuietMove(s.procs[p], t.procs[p], s.lk, t.lk, s.pt, t.pt, p)
  {
    hide Full, Empty, WriterStep, ReaderStep;
  }

  lemma WriterHolds(s: State, p: Pid)
    requires p in s.procs && Ready(s, p) && |s.data| == PIPESIZE && QuietStep(s, p) && IsWriter(s.procs[p])
    ensures p in WriterStep(s, p).procs && LocksOk(WriterStep(s, p), p)
  {
    hide Full, Empty, Stored, Taken, WokenReaders, WokenWriters, Owed;
  }

  lemma WriterSleeps(s: State, p: Pid)
    requires p in s.procs && SleepOk(s, p) && |s.data| == PIPESIZE && QuietStep(s, p) && IsWriter(s.procs[p]) && Ready(s, p)
    ensures p in WriterStep(s, p).procs && SleepOk(WriterStep(s, p), p)
  {
    hide WokenReaders, WokenWriters, Stored, Taken;
  }

  lemma WriterPlace(s: State, p: Pid)
    requires p in s.procs && PlaceOk(s, p) && |s.data| == PIPESIZE && Enabled(s, Next(p)) && QuietStep(s, p)
    requires IsWriter(s.procs[p])
    ensures PlaceOk(WriterStep(s, p), p)
  {
    hide WriterStep, QuietStep, SleepOk, Ready, Enabled, LocksOk;
    IsReady(s, p);
    WriterHolds(s, p);
    WriterSleeps(s, p);
  }

  lemma ReaderHolds(s: State, p: Pid)
    requires p in s.procs && Ready(s, p) && |s.data| == PIPESIZE && QuietStep(s, p) && IsReader(s.procs[p])
    ensures p in ReaderStep(s, p).procs && LocksOk(ReaderStep(s, p), p)
  {
    hide Full, Empty, Stored, Taken, WokenReaders, WokenWriters, Owed;
  }

  lemma ReaderSleeps(s: State, p: Pid)
    requires p in s.procs && SleepOk(s, p) && |s.data| == PIPESIZE && QuietStep(s, p) && IsReader(s.procs[p]) && Ready(s, p)
    ensures p in ReaderStep(s, p).procs && SleepOk(ReaderStep(s, p), p)
  {
    hide WokenReaders, WokenWriters, Stored, Taken;
  }

  lemma ReaderPlace(s: State, p: Pid)
    requires p in s.procs && PlaceOk(s, p) && |s.data| == PIPESIZE && Enabled(s, Next(p)) && QuietStep(s, p)
    requires IsReader(s.procs[p])
    ensures PlaceOk(ReaderStep(s, p), p)
  {
    hide ReaderStep, QuietStep, SleepOk, Ready, Enabled, LocksOk;
    IsReady(s, p);
    ReaderHolds(s, p);
    ReaderSleeps(s, p);
  }

  lemma CloserPlace(s: State, p: Pid)
    requires p in s.procs && PlaceOk(s, p) && |s.data| == PIPESIZE && Enabled(s, Next(p)) && QuietStep(s, p)
    requires !IsWriter(s.procs[p]) && !IsReader(s.procs[p])
    ensures PlaceOk(Stepped(s, p), p)
  {
    hide WokenReaders, WokenWriters, Stored, Taken, WriterStep, ReaderStep;
  }

  lemma QuietStepPlace(s: State, p: Pid)
    requires p in s.procs && PlaceOk(s, p) && |s.data| == PIPESIZE && Enabled(s, Next(p)) && QuietStep(s, p)
    ensures PlaceOk(Stepped(s, p), p)
  {
    hide PlaceOk, WriterStep, ReaderStep, CloserStep, QuietStep, Enabled, IsReader, IsWriter;
    if IsWriter(s.procs[p]) {
      WriterPlace(s, p);
    } else if IsReader(s.procs[p]) {
      ReaderPlace(s, p);
    } else {
      CloserPlace(s, p);
    }
  }

  /** A process that stays at its end of the pipe keeps what it relies on there. */
  lemma EndsKept(s: State, t: State, p: Pid)
    requires p in s.procs && p in t.procs && EndsOk(s, p)
    requires forall q :: q in t.procs && q != p ==> q in s.procs && forall w :: Closes(t.procs[q], w) ==> Closes(s.procs[q], w)
    requires SameEnd(s.procs[p], t.procs[p]) && t.readopen == s.readopen && t.writeopen == s.writeopen
    ensures EndsOk(t, p)
  {
    forall w | NoneCloses(s, p, w) ensures NoneCloses(t, p, w) {
    }
  }

  /** A step that moves bytes, wakes or closes: each kind has its own argument. */
  lemma StoreKeeps(s: State, p: Pid, buf: seq<int>, i: nat)
    requires ProcsOk(s) && |s.data| == PIPESIZE && p in s.procs && s.procs[p] == WTest(buf, i) && i < |buf| && !Full(s)
    ensures ProcsOk(Stored(s, p, buf, i))
  {
    var t := Stored(s, p, buf, i);
    assert ProcOk(s, p);
    forall q | q in t.procs ensures ProcOk(t, q) {
      assert ProcOk(s, q);
      EndsKept(s, t, q);
      StorePlace(s, t, p, q);
    }
  }

  lemma StorePlace(s: State, t: State, p: Pid, q: Pid)
    requires p in s.procs && q in s.procs && PlaceOk(s, p) && PlaceOk(s, q) && s.procs[p].WTest? && !Full(s)
    requires p in t.procs && t.procs == s.procs[p := t.procs[p]] && t.procs[p].WTest?
    requires t.lk == s.lk && t.pt == s.pt && t.readopen == s.readopen && t.writeopen == s.writeopen && t.gaveUp == s.gaveUp
    ensures PlaceOk(t, q)
  {
  }

  lemma TakeKeeps(s: State, p: Pid, n: nat)
    requires ProcsOk(s) && |s.data| == PIPESIZE && p in s.procs && s.procs[p] == RCopy(n) && 0 < n && !Empty(s)
    ensures ProcsOk(Taken(s, p, n))
  {
    var t := Taken(s, p, n);
    assert ProcOk(s, p);
    forall q | q in t.procs ensures ProcOk(t, q) {
      assert ProcOk(s, q);
      EndsKept(s, t, q);
      TakePlace(s, t, p, q);
    }
  }

  lemma TakePlace(s: State, t: State, p: Pid, q: Pid)
    requires p in s.procs && q in s.procs && PlaceOk(s, p) && PlaceOk(s, q) && s.procs[p].RCopy? && !Empty(s)
    requires p in t.procs && t.procs == s.procs[p := t.procs[p]] && t.procs[p].RCopy?
    requires t.lk == s.lk && t.pt == s.pt && t.readopen == s.readopen && t.writeopen == s.writeopen && t.gaveUp == s.gaveUp
    ensures PlaceOk(t, q)
  {
  }

  /** p wakes the readers, or the writers, and with that pays what it owed. */
  ghost predicate Wakes(s: State, t: State, p: Pid, readers: bool) {
    && p in s.procs && p in t.procs
    && t == s.(procs := (if readers then WokenReaders(s.procs) else WokenWriters(s.procs))[p := t.procs[p]])
    && s.lk == Some(p) && s.pt.None? && HoldsLk(t.procs[p]) && !HoldsPt(t.procs[p])
    && SameEnd(s.procs[p], t.procs[p])
    && (if readers then !OwesWriters(s.procs[p]) else !OwesReaders(s.procs[p]))
    && (t.procs[p].WSleep1? ==> Full(s) && s.readopen) && !t.procs[p].WSleep2? && !t.procs[p].WWake?
    && !t.procs[p].RSleep1? && !t.procs[p].RSleep2?
  }

  lemma WakePlace(s: State, t: State, p: Pid, readers: bool, q: Pid)
    requires Wakes(s, t, p, readers) && q in s.procs && PlaceOk(s, q) && PlaceOk(s, p)
    ensures q in t.procs && PlaceOk(t, q)
    ensures SameEnd(s.procs[q], t.procs[q])
  {
  }

  lemma WakeKeeps(s: State, t: State, p: Pid, readers: bool)
    requires ProcsOk(s) && Wakes(s, t, p, readers)
    ensures ProcsOk(t)
  {
    assert ProcOk(s, p);
    forall q | q in s.procs ensures q in t.procs && PlaceOk(t, q) && SameEnd(s.procs[q], t.procs[q]) {
      assert ProcOk(s, q);
      WakePlace(s, t, p, readers, q);
    }
    assert t.procs.Keys == s.procs.Keys;
    forall q | q in t.procs ensures ProcOk(t, q) {
      assert ProcOk(s, q);
      EndsKept(s, t, q);
    }
  }

  /** pipewrite gives up because nobody will read any more, and then no reader is there to be woken; or
      because the process was killed. */
  lemma GiveUpKeeps(s: State, p: Pid, killed: bool)
    requires ProcsOk(s) && p in s.procs && s.procs[p].WTest? && (!s.readopen || killed)
    ensures ProcsOk(Go(s, p, WRelease).(gaveUp := s.gaveUp || killed))
  {
    var t := Go(s, p, WRelease).(gaveUp := s.gaveUp || killed);
    assert ProcOk(s, p);
    forall q | q in t.procs ensures ProcOk(t, q) {
      assert ProcOk(s, q);
      EndsKept(s, t, q);
    }
  }

  /** An end is marked closed: whoever sleeps on it is owed a wakeup by the closing process. */
  lemma CloseKeeps(s: State, p: Pid, w: bool)
    requires ProcsOk(s) && |s.data| == PIPESIZE && p in s.procs && s.procs[p] == CSet(w)
    ensures ProcsOk(Stepped(s, p))
  {
    var t := Stepped(s, p);
    assert ProcOk(s, p);
    forall q | q in t.procs ensures ProcOk(t, q) {
      assert ProcOk(s, q);
      ClosePlace(s, t, p, q, w);
      CloseEnds(s, t, p, q, w);
    }
  }

  lemma ClosePlace(s: State, t: State, p: Pid, q: Pid, w: bool)
    requires p in s.procs && q in s.procs && s.procs[p] == CSet(w) && ProcOk(s, q) && PlaceOk(s, p)
    requires NoneCloses(s, p, w)
    requires t == (if w then s.(procs := s.procs[p := CWake(w)], writeopen := false)
                   else s.(procs := s.procs[p := CWake(w)], readopen := false))
    ensures PlaceOk(t, q)
  {
    assert q != p && IsReader(s.procs[q]) && !w ==> Closes(s.procs[p], false);
    assert q != p && IsWriter(s.procs[q]) && w ==> Closes(s.procs[p], true);
  }

  lemma CloseEnds(s: State, t: State, p: Pid, q: Pid, w: bool)
    requires p in s.procs && q in s.procs && s.procs[p] == CSet(w) && EndsOk(s, q) && EndsOk(s, p)
    requires t == (if w then s.(procs := s.procs[p := CWake(w)], writeopen := false)
                   else s.(procs := s.procs[p := CWake(w)], readopen := false))
    ensures EndsOk(t, q)
  {
    assert Closes(s.procs[p], w);
    forall v | NoneCloses(s, q, v) ensures NoneCloses(t, q, v) {
    }
  }

  lemma KeepNext(s: State, p: Pid)
    requires ProcsOk(s) && |s.data| == PIPESIZE && Enabled(s, Next(p))
    ensures ProcsOk(Stepped(s, p))
  {
    hide ProcOk, Full, Empty, WokenReaders, WokenWriters;
    var pc, t := s.procs[p], Stepped(s, p);
    if QuietStep(s, p) {
      QuietStepKeeps(s, p);
    } else if pc.WTest? {
      if !Full(s) {
        StoreKeeps(s, p, pc.buf, pc.i);
      } else {
        GiveUpKeeps(s, p, s.readopen);
      }
    } else if pc.RCopy? {
      TakeKeeps(s, p, pc.n);
    } else if pc.CSet? {
      CloseKeeps(s, p, pc.writable);
    } else {
      StepWakes(s, p);
      WakeKeeps(s, t, p, pc.WWake? || pc.WEndWake? || pc == CWake(true));
    }
  }

  lemma StepWakes(s: State, p: Pid)
    requires ProcsOk(s) && |s.data| == PIPESIZE && Enabled(s, Next(p))
    requires s.procs[p].WWake? || s.procs[p].WEndWake? || s.procs[p].REndWake? || s.procs[p].CWake?
    ensures Wakes(s, Stepped(s, p), p, s.procs[p].WWake? || s.procs[p].WEndWake? || s.procs[p] == CWake(true))
  {
    hide WokenReaders, WokenWriters, Stored, Taken, Full, Empty, EndsOk, ProcsOk;
    ProcIsOk(s, p);
  }

  lemma ProcIsOk(s: State, p: Pid)
    requires ProcsOk(s) && p in s.procs
    ensures ProcOk(s, p)
  {
  }

  /** kill changes nothing but the sleep of one process. */
  lemma KeepKill(s: State, p: Pid)
    requires ProcsOk(s) && |s.data| == PIPESIZE && Enabled(s, Kill(p))
    ensures ProcsOk(Do(s, Kill(p)))
  {
    var t := Do(s, Kill(p));
    assert ProcOk(s, p);
    forall q | q in t.procs ensures ProcOk(t, q) {
      assert ProcOk(s, q);
      KillPlace(s, t, p, q);
      EndsKept(s, t, q);
    }
  }

  lemma KillPlace(s: State, t: State, p: Pid, q: Pid)
    requires p in s.procs && q in s.procs && PlaceOk(s, q) && PlaceOk(s, p) && p in t.procs
    requires t == s.(killed := t.killed, procs := s.procs[p := Roused(s.procs[p])])
    ensures PlaceOk(t, q) && SameEnd(s.procs[q], t.procs[q])
  {
  }

  /** A process enters the pipe at an end that is open. */
  lemma KeepStart(s: State, a: Action)
    requires ProcsOk(s) && |s.data| == PIPESIZE && Enabled(s, a) && !a.Next? && !a.Kill?
    ensures ProcsOk(Do(s, a))
  {
    var t, p := Do(s, a), a.pid;
    assert ProcOk(s, p);
    forall q | q in t.procs ensures ProcOk(t, q) {
      assert ProcOk(s, q);
      StartPlace(s, t, p, q);
      StartEnds(s, a, q);
    }
  }

  lemma StartPlace(s: State, t: State, p: Pid, q: Pid)
    requires p in s.procs && q in s.procs && PlaceOk(s, q) && PlaceOk(s, p) && s.procs[p].Out?
    requires p in t.procs && t == s.(procs := s.procs[p := t.procs[p]])
    requires t.procs[p].WAcquire? || t.procs[p].RAcquire? || t.procs[p].CAcquire?
    ensures PlaceOk(t, q)
  {
  }

  lemma StartEnds(s: State, a: Action, q: Pid)
    requires ProcsOk(s) && |s.data| == PIPESIZE && Enabled(s, a) && !a.Next? && !a.Kill? && q in s.procs
    ensures q in Do(s, a).procs && EndsOk(Do(s, a), q)
  {
    hide PlaceOk;
    var t := Do(s, a);
    assert ProcOk(s, q);
    if q != a.pid {
      assert a.Close? && a.writable ==> !IsWriter(s.procs[q]) && !Closes(s.procs[q], true);
      assert a.Close? && !a.writable ==> !IsReader(s.procs[q]) && !Closes(s.procs[q], false);
    }
    forall v | NoneCloses(s, q, v) && (q == a.pid || !a.Close? || a.writable != v) ensures NoneCloses(t, q, v) {
    }
  }

  ghost predicate Inv(s: State) { RingOk(s) && ProcsOk(s) }

  lemma KeepStep(s: State, a: Action)
    requires Inv(s) && Enabled(s, a)
    ensures Inv(Do(s, a))
  {
    hide ProcsOk;
    StepRing(s, a);
    if a.Next? {
      KeepNext(s, a.pid);
    } else if a.Kill? {
      KeepKill(s, a.pid);
    } else {
      KeepStart(s, a);
    }
  }

  // ---- over whole runs --------------------------------------------------------------------------------

  ghost predicate Run(s: State, acts: seq<Action>, t: State)
    decreases |acts|
  {
    if acts == [] then s == t
    else |s.data| == PIPESIZE && Enabled(s, acts[0]) && Run(Do(s, acts[0]), acts[1..], t)
  }

  lemma {:induction false} RunInv(s: State, acts: seq<Action>, t: State)
    requires Inv(s) && Run(s, acts, t)
    ensures Inv(t)
    decreases |acts|
  {
    hide Inv;
    if acts != [] {
      KeepStep(s, acts[0]);
      RunInv(Do(s, acts[0]), acts[1..], t);
    }
  }

  lemma InitialInv(s: State)
    requires Initial(s)
    ensures Inv(s)
  {
    forall p | p in s.procs ensures ProcOk(s, p) {
    }
  }

  /** Bytes come out in the order in which they went in, none lost, none invented, for ever: also
      after the counters have wrapped. pipecount is the number of bytes in between. */
  lemma PipeFifo(s: State, acts: seq<Action>, t: State)
    requires Initial(s) && Run(s, acts, t)
    ensures t.got <= t.written && |t.written| - |t.got| <= PIPESIZE
    ensures Count(t) == |t.written| - |t.got|
  {
    hide ProcsOk, Run;
    InitialInv(s);
    RunInv(s, acts, t);
    RingTests(t);
  }

  /** With the pipe's lock free, a sleeping writer means a full pipe whose readers are still there, and
      a sleeping reader an empty pipe whose writers are, unless a killed writer has left a full pipe. */
  lemma NoLostWakeup(s: State, acts: seq<Action>, t: State, p: Pid)
    requires Initial(s) && Run(s, acts, t) && t.lk.None? && p in t.procs
    ensures t.procs[p].RAsleep? && !t.gaveUp ==> |t.written| == |t.got| && t.writeopen
    ensures t.procs[p].WAsleep? ==> |t.written| == |t.got| + PIPESIZE && t.readopen
  {
    hide Run, Count;
    InitialInv(s);
    RunInv(s, acts, t);
    RingTests(t);
    assert ProcOk(t, p);
  }

  /** pipeclose frees the pipe only when nobody else is inside. */
  lemma FreedPipeIsUnused(s: State, acts: seq<Action>, t: State, p: Pid, q: Pid)
    requires Initial(s) && Run(s, acts, t) && p in t.procs && q in t.procs && q != p
    requires t.procs[p].CRelease? && !t.readopen && !t.writeopen
    ensures !IsReader(t.procs[q]) && !IsWriter(t.procs[q]) && !HoldsLk(t.procs[q])
  {
    hide Run, RingOk;
    InitialInv(s);
    RunInv(s, acts, t);
    assert ProcOk(t, p) && ProcOk(t, q);
  }
}
