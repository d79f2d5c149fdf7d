/** pipe.c for any number of readers and writers: a ring of PIPESIZE bytes with 32-bit counters,
    and processes that sleep when it is full or empty. */
module Pipe {
  import opened Wrappers

  type Pid = nat

  const PIPESIZE: nat := 512
  const UINT: nat := 0x1_0000_0000

  /** Where a process stands: W in pipewrite, R in piperead, C in pipeclose. Sleep1 to Sleep3 are
      the steps of sleep: ptable.lock is taken, the pipe's lock is released, the state is set. */
  datatype PC =
    | Out
    | WAcquire(buf: seq<int>, i: nat) | WTest(buf: seq<int>, i: nat) | WWake(buf: seq<int>, i: nat)
    | WSleep1(buf: seq<int>, i: nat) | WSleep2(buf: seq<int>, i: nat) | WSleep3(buf: seq<int>, i: nat)
    | WAsleep(buf: seq<int>, i: nat) | WEndWake | WRelease
    | RAcquire(n: nat) | RTest(n: nat) | RSleep1(n: nat) | RSleep2(n: nat) | RSleep3(n: nat) | RAsleep(n: nat)
    | RCopy(n: nat) | REndWake | RRelease
    | CAcquire(writable: bool) | CSet(writable: bool) | CWake(writable: bool) | CRelease(writable: bool)

  /** written and got are all bytes stored and taken since the pipe was made; gaveUp says that a killed
      writer has left a full pipe, which it does without a wakeup. These three are history. */
  datatype State = State(
    data: seq<int>, nread: nat, nwrite: nat, readopen: bool, writeopen: bool,
    lk: Option<Pid>, pt: Option<Pid>,
    procs: map<Pid, PC>, killed: set<Pid>,
    written: seq<int>, got: seq<int>, gaveUp: bool)

  datatype Action =
    | Write(pid: Pid, buf: seq<int>)
    | Read(pid: Pid, n: nat)
    | Close(pid: Pid, writable: bool)
    | Next(pid: Pid)
    | Kill(pid: Pid)            // pid is the process to be killed

  predicate Full(s: State) { s.nwrite == (s.nread + PIPESIZE) % UINT }

  predicate Empty(s: State) { s.nread == s.nwrite }

  /** pipecount. */
  function Count(s: State): int { (s.nwrite - s.nread) % UINT }

  predicate IsReader(pc: PC) {
    pc.RAcquire? || pc.RTest? || pc.RSleep1? || pc.RSleep2? || pc.RSleep3? || pc.RAsleep? || pc.RCopy? || pc.REndWake? || pc.RRelease?
  }

  predicate IsWriter(pc: PC) {
    pc.WAcquire? || pc.WTest? || pc.WWake? || pc.WSleep1? || pc.WSleep2? || pc.WSleep3? || pc.WAsleep? || pc.WEndWake? || pc.WRelease?
  }

  predicate Closes(pc: PC, writable: bool) {
    (pc.CAcquire? || pc.CSet? || pc.CWake? || pc.CRelease?) && pc.writable == writable
  }

  predicate HoldsLk(pc: PC) {
    && !pc.Out? && !WantsLk(pc)
    && !pc.WSleep3? && !pc.WAsleep? && !pc.RSleep3? && !pc.RAsleep?
  }

  predicate HoldsPt(pc: PC) { pc.WSleep2? || pc.WSleep3? || pc.RSleep2? || pc.RSleep3? }

  predicate WantsLk(pc: PC) { pc.WAcquire? || pc.RAcquire? || pc.CAcquire? }

  /** These steps need ptable.lock: to go to sleep, or to wake others. */
  predicate WantsPt(pc: PC) { pc.WSleep1? || pc.RSleep1? || pc.WWake? || pc.WEndWake? || pc.REndWake? || pc.CWake? }

  predicate Enabled(s: State, a: Action) {
    a.pid in s.procs && var pc := s.procs[a.pid];
    match a
    case Write(p, _) => pc.Out? && p !in s.killed && s.writeopen && forall q :: q in s.procs ==> !Closes(s.procs[q], true)
    case Read(p, _) => pc.Out? && p !in s.killed && s.readopen && forall q :: q in s.procs ==> !Closes(s.procs[q], false)
    case Close(_, w) =>
      && pc.Out? && (if w then s.writeopen else s.readopen)
      && (forall q :: q in s.procs ==> !Closes(s.procs[q], w))
      && (forall q :: q in s.procs ==> if w then !IsWriter(s.procs[q]) else !IsReader(s.procs[q]))
    case Next(_) =>
      && !pc.Out? && !pc.WAsleep? && !pc.RAsleep?
      && (WantsLk(pc) ==> s.lk.None?)
      && (WantsPt(pc) ==> s.pt.None?)
    case Kill(_) => s.pt.None?
  }

  // ---- steps -------------------------------------------------------------------------------------

  function Go(s: State, p: Pid, pc: PC): State { s.(procs := s.procs[p := pc]) }

  /** wakeup(&p->nread), wakeup(&p->nwrite). */
  function WokenReaders(procs: map<Pid, PC>): map<Pid, PC> {
    map p | p in procs :: if procs[p].RAsleep? then RAcquire(procs[p].n) else procs[p]
  }

  function WokenWriters(procs: map<Pid, PC>): map<Pid, PC> {
    map p | p in procs :: if procs[p].WAsleep? then WAcquire(procs[p].buf, procs[p].i) else procs[p]
  }

  /** kill makes a sleeping process runnable; it goes on inside sleep. */
  function Roused(pc: PC): PC {
    if pc.RAsleep? then RAcquire(pc.n) else if pc.WAsleep? then WAcquire(pc.buf, pc.i) else pc
  }

  function Stored(s: State, p: Pid, buf: seq<int>, i: nat): State
    requires i < |buf| && |s.data| == PIPESIZE
  {
    s.(data := s.data[s.nwrite % PIPESIZE := buf[i]], nwrite := (s.nwrite + 1) % UINT,
       written := s.written + [buf[i]], procs := s.procs[p := WTest(buf, i + 1)])
  }

  function Taken(s: State, p: Pid, n: nat): State
    requires 0 < n && |s.data| == PIPESIZE
  {
    s.(nread := (s.nread + 1) % UINT, got := s.got + [s.data[s.nread % PIPESIZE]], procs := s.procs[p := RCopy(n - 1)])
  }

  /** pipewrite. */
  function WriterStep(s: State, p: Pid): State
    requires p in s.procs && |s.data| == PIPESIZE
  {
    match s.procs[p]
    case WAcquire(buf, i) => Go(s, p, WTest(buf, i)).(lk := Some(p))
    case WTest(buf, i) =>
      if i >= |buf| then Go(s, p, WEndWake)
      else if !Full(s) then Stored(s, p, buf, i)
      else if !s.readopen then Go(s, p, WRelease)
      else if p in s.killed then Go(s, p, WRelease).(gaveUp := true)
      else Go(s, p, WWake(buf, i))
    case WWake(buf, i) => s.(procs := WokenReaders(s.procs)[p := WSleep1(buf, i)])
    case WSleep1(buf, i) => Go(s, p, WSleep2(buf, i)).(pt := Some(p))
    case WSleep2(buf, i) => Go(s, p, WSleep3(buf, i)).(lk := None)
    case WSleep3(buf, i) => Go(s, p, WAsleep(buf, i)).(pt := None)
    case WEndWake => s.(procs := WokenReaders(s.procs)[p := WRelease])
    case WRelease => Go(s, p, Out).(lk := None)
    case _ => s
  }

  /** piperead. */
  function ReaderStep(s: State, p: Pid): State
    requires p in s.procs && |s.data| == PIPESIZE
  {
    match s.procs[p]
    case RAcquire(n) => Go(s, p, RTest(n)).(lk := Some(p))
    case RTest(n) => Go(s, p, if !Empty(s) || !s.writeopen then RCopy(n) else if p in s.killed then RRelease else RSleep1(n))
    case RSleep1(n) => Go(s, p, RSleep2(n)).(pt := Some(p))
    case RSleep2(n) => Go(s, p, RSleep3(n)).(lk := None)
    case RSleep3(n) => Go(s, p, RAsleep(n)).(pt := None)
    case RCopy(n) => if n == 0 || Empty(s) then Go(s, p, REndWake) else Taken(s, p, n)
    case REndWake => s.(procs := WokenWriters(s.procs)[p := RRelease])
    case RRelease => Go(s, p, Out).(lk := None)
    case _ => s
  }

  /** pipeclose. */
  function CloserStep(s: State, p: Pid): State
    requires p in s.procs && |s.data| == PIPESIZE
  {
    match s.procs[p]
    case CAcquire(w) => Go(s, p, CSet(w)).(lk := Some(p))
    case CSet(w) => if w then Go(s, p, CWake(w)).(writeopen := false) else Go(s, p, CWake(w)).(readopen := false)
    case CWake(w) => s.(procs := (if w then WokenReaders(s.procs) else WokenWriters(s.procs))[p := CRelease(w)])
    case CRelease(w) => Go(s, p, Out).(lk := None)
    case _ => s
  }

  function Stepped(s: State, p: Pid): State
    requires p in s.procs && |s.data| == PIPESIZE
  {
    if IsWriter(s.procs[p]) then WriterStep(s, p) else if IsReader(s.procs[p]) then ReaderStep(s, p) else CloserStep(s, p)
  }

  function Do(s: State, a: Action): State
    requires Enabled(s, a) && |s.data| == PIPESIZE
  {
    match a
    case Write(p, buf) => Go(s, p, WAcquire(buf, 0))
    case Read(p, n) => Go(s, p, RAcquire(n))
    case Close(p, w) => Go(s, p, CAcquire(w))
    case Next(p) => Stepped(s, p)
    case Kill(p) => s.(killed := s.killed + {p}, procs := s.procs[p := Roused(s.procs[p])])
  }

  /** pipealloc. */
  ghost predicate Initial(s: State) {
    && |s.data| == PIPESIZE && s.nread == 0 && s.nwrite == 0 && s.readopen && s.writeopen
    && s.lk.None? && s.pt.None? && s.written == [] && s.got == [] && s.killed == {} && !s.gaveUp
    && forall p :: p in s.procs ==> s.procs[p].Out?
  }

  // ---- the ring ------------------------------------------------------------------------------------

  /** The counters count modulo 2^32, and the ring holds exactly the bytes written and not yet read.
      Indexing survives the wrap of the counters because PIPESIZE divides 2^32. */
  ghost predicate RingOk(s: State) {
    && |s.data| == PIPESIZE
    && s.got <= s.written && |s.written| <= |s.got| + PIPESIZE
    && s.nwrite == |s.written| % UINT && s.nread == |s.got| % UINT
    && forall j :: |s.got| <= j < |s.written| ==> s.data[j % PIPESIZE] == s.written[j]
  }

  // ---- sleeping --------------------------------------------------------------------------------------

  /** The holder of the pipe's lock will wake sleeping readers, or writers, before it releases it. */
  predicate OwesReaders(pc: PC) { pc.WTest? || pc.WWake? || pc.WEndWake? || pc == CWake(true) }

  predicate OwesWriters(pc: PC) { pc.RCopy? || pc.REndWake? || pc == CWake(false) }

  predicate Owed(s: State, readers: bool) {
    s.lk.Some? && s.lk.value in s.procs
    && if readers then OwesReaders(s.procs[s.lk.value]) else OwesWriters(s.procs[s.lk.value])
  }

  predicate LocksOk(s: State, p: Pid)
    requires p in s.procs
  {
    (HoldsLk(s.procs[p]) <==> s.lk == Some(p)) && (HoldsPt(s.procs[p]) <==> s.pt == Some(p))
  }

  /** When a process may be asleep or about to be. */
  ghost predicate SleepOk(s: State, p: Pid)
    requires p in s.procs
  {
    var pc := s.procs[p];
    && (pc.RSleep1? || pc.RSleep2? ==> Empty(s) && s.writeopen)
    && (pc.WWake? || pc.WSleep1? || pc.WSleep2? ==> Full(s) && s.readopen)
    && (pc.RSleep3? || pc.RAsleep? ==> (Empty(s) && s.writeopen) || Owed(s, true) || s.gaveUp)
    && (pc.WSleep3? || pc.WAsleep? ==> (Full(s) && s.readopen) || Owed(s, false))
  }

  ghost predicate PlaceOk(s: State, p: Pid)
    requires p in s.procs
  {
    LocksOk(s, p) && SleepOk(s, p)
  }

  ghost predicate NoneCloses(s: State, p: Pid, writable: bool) {
    forall q :: q in s.procs && q != p ==> !Closes(s.procs[q], writable)
  }

  /** Nobody is inside an end that is closed or being closed, and each end is closed once. */
  ghost predicate EndsOk(s: State, p: Pid)
    requires p in s.procs
  {
    var pc := s.procs[p];
    && (IsReader(pc) ==> s.readopen && NoneCloses(s, p, false))
    && (IsWriter(pc) ==> s.writeopen && NoneCloses(s, p, true))
    && (pc.CAcquire? || pc.CSet? ==> if pc.writable then s.writeopen else s.readopen)
    && (forall w :: Closes(pc, w) ==> NoneCloses(s, p, w))
  }

  ghost predicate ProcOk(s: State, p: Pid)
    requires p in s.procs
  {
    PlaceOk(s, p) && EndsOk(s, p)
  }

  ghost predicate ProcsOk(s: State) {
    && (s.lk.Some? ==> s.lk.value in s.procs) && (s.pt.Some? ==> s.pt.value in s.procs)
    && forall p :: p in s.procs ==> ProcOk(s, p)
  }
}
