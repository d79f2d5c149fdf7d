/** The redo log (log.c) above the buffer cache (bio.c) and the disk (memide.c), as a
    transition system. Every interleaving of operations is a sequence of actions, every
    disk write is an action of its own, and a crash may come between any two actions,
    including those of recovery. */
module LogMachine {
  import opened Wrappers
  import opened Blocks

  const MAXOPBLOCKS: nat := 10
  const LOGSIZE: nat := 30
  const NBUF: nat := 30          // buffers in the cache

  type Pid = nat

  /** Where the log lies on a disk of nblocks blocks: header at start, data blocks behind it. */
  datatype Layout = Layout(start: nat, size: nat, nblocks: nat)

  ghost predicate ValidLayout(L: Layout) {
    1 <= L.size && L.start + L.size <= L.nblocks < WORD_LIMIT
  }

  predicate Home(L: Layout, b: nat) {
    b < L.nblocks && !(L.start <= b < L.start + L.size)
  }

  /** One cached block; holder is the process that has set B_BUSY. */
  datatype Buf = Buf(holder: Option<Pid>, valid: bool, dirty: bool, data: Block)

  /** One operation between begin_op and end_op. used counts its log_write calls, unlogged
      holds the blocks it changed since, and checked says that it passed the panic tests
      of log_write and is about to take log.lock. */
  datatype Op = Op(id: nat, used: nat, unlogged: set<nat>, checked: bool)

  datatype Update = Update(op: nat, block: nat, data: Block)

  datatype Phase =
    | Boot                             // memory is fresh, read_head comes next
    | Idle                             // nobody is in commit()
    | WriteLog(tail: nat)              // write_log() has copied tail blocks
    | Install(tail: nat, booting: bool) // install_trans() has copied tail blocks
    | Done                             // commit() returned, log.lock not yet retaken

  /** trace lists every change of block contents made by operations, in order, and committed
      says how many of them recovery would bring back: both are history, not kernel state. */
  datatype State = State(
    disk: seq<Block>,
    cache: map<nat, Buf>,
    lh: seq<nat>,
    outstanding: int,
    committing: bool,
    ops: map<Pid, Op>,
    worker: Pid,
    phase: Phase,
    nextOp: nat,
    trace: seq<Update>,
    committed: nat)

  // ---- the header block --------------------------------------------------------------

  /** What read_head finds in the header block. Of a count above LOGSIZE, which would send read_head
      past the end of its list, no more is told than that it is too large. */
  function Header(b: Block): (h: seq<nat>)
    ensures forall i :: 0 <= i < |h| ==> h[i] < WORD_LIMIT
    ensures |h| <= LOGSIZE <==> Word(b, 0) <= LOGSIZE
  {
    var n := if Word(b, 0) <= LOGSIZE then Word(b, 0) else LOGSIZE + 1;
    seq(n, i requires 0 <= i <= LOGSIZE => Word(b, 1 + i))
  }

  /** What write_head stores: n, then the first n block numbers; the rest stays. */
  function WithHeader(b: Block, h: seq<nat>): (r: Block)
    requires |h| <= LOGSIZE
    requires forall i :: 0 <= i < |h| ==> h[i] < WORD_LIMIT
    ensures Header(r) == h
    ensures Word(r, 0) <= LOGSIZE
  {
    SetWords(b, 0, [|h|] + h)
  }

  function IndexOf(h: seq<nat>, b: nat): (i: nat)
    requires b in h
    ensures i < |h| && h[i] == b
  {
    if h[0] == b then 0 else 1 + IndexOf(h[1..], b)
  }

  /** The log region holds a transaction list that recovery can follow. */
  predicate GoodHeader(L: Layout, h: seq<nat>) {
    && |h| <= LOGSIZE
    && |h| < L.size
    && Distinct(h)
    && forall i :: 0 <= i < |h| ==> Home(L, h[i])
  }

  /** What block b would hold after recovery from this disk. */
  function Recovered(L: Layout, disk: seq<Block>, b: nat): Block
    requires ValidLayout(L) && |disk| == L.nblocks && b < L.nblocks
    requires GoodHeader(L, Header(disk[L.start]))
  {
    var h := Header(disk[L.start]);
    if b in h then disk[L.start + 1 + IndexOf(h, b)] else disk[b]
  }

  // ---- the reference: a block store that applies updates in order -----------------------

  function Replay(base: seq<Block>, trace: seq<Update>): (r: seq<Block>)
    requires forall i :: 0 <= i < |trace| ==> trace[i].block < |base|
    ensures |r| == |base|
  {
    if trace == [] then base
    else
      var u := trace[|trace| - 1];
      Replay(base, trace[..|trace| - 1])[u.block := u.data]
  }

  /** No operation has updates on both sides of position k. */
  predicate WholeOperations(trace: seq<Update>, k: nat) {
    forall i, j :: 0 <= i < k <= j < |trace| ==> trace[i].op != trace[j].op
  }

  // ---- actions -------------------------------------------------------------------------

  datatype Action =
    | BeginOp(pid: Pid)
    | EndOp(pid: Pid)
    | Change(pid: Pid, block: nat, data: Block)     // b->data is modified
    | LogCheck(pid: Pid)                            // the unlocked tests of log_write
    | LogWrite(pid: Pid, block: nat)                // log_write under log.lock
    | Get(pid: Pid, block: nat)                     // bget finds the block, not busy
    | Recycle(pid: Pid, victim: Option<nat>, block: nat) // bget reuses a clean buffer, or an unused one
    | Fill(pid: Pid, block: nat)                    // bread calls iderw
    | Release(pid: Pid, block: nat)                 // brelse
    | CopyToLog                                     // one iteration of write_log
    | CommitHead                                    // write_head with n > 0
    | InstallBlock                                  // one iteration of install_trans
    | EraseHead                                     // n = 0 and write_head
    | FinishCommit
    | ReadHead
    | Crash

  predicate Held(s: State, pid: Pid, b: nat) {
    b in s.cache && s.cache[b].holder == Some(pid)
  }

  predicate HeldValid(s: State, pid: Pid, b: nat) {
    Held(s, pid, b) && s.cache[b].valid
  }

  /** The two panics at the head of log_write. */
  predicate LogWritePanics(L: Layout, s: State) {
    |s.lh| >= LOGSIZE || |s.lh| >= L.size - 1 || s.outstanding < 1
  }

  predicate Reusable(s: State, b: nat) { b in s.cache && s.cache[b].holder.None? && !s.cache[b].dirty }

  /** bget can find a buffer for a block that is not cached. */
  predicate Spare(s: State) { |s.cache| < NBUF || exists b :: b in s.cache && Reusable(s, b) }

  /** bget's panic that there are no buffers. */
  predicate NoBuffer(s: State, b: nat) { b !in s.cache && !Spare(s) }

  predicate Enabled(L: Layout, s: State, a: Action)
    requires ValidLayout(L) && |s.disk| == L.nblocks
  {
    match a
    case BeginOp(pid) =>
      s.phase.Idle? && !s.committing && pid !in s.ops && |s.lh| + (s.outstanding + 1) * MAXOPBLOCKS <= LOGSIZE
    case EndOp(pid) =>
      pid in s.ops && s.ops[pid].unlogged == {} && !s.ops[pid].checked
    case Change(pid, b, _) =>
      pid in s.ops && Home(L, b) && HeldValid(s, pid, b)
    case LogCheck(pid) =>
      pid in s.ops && !s.ops[pid].checked && s.ops[pid].used < MAXOPBLOCKS && !LogWritePanics(L, s)
    case LogWrite(pid, b) =>
      pid in s.ops && s.ops[pid].checked && Home(L, b) && HeldValid(s, pid, b)
    case Get(pid, b) =>
      b in s.cache && s.cache[b].holder.None?
    case Recycle(pid, victim, b) =>
      b < L.nblocks && b !in s.cache
      && (if victim.Some? then Reusable(s, victim.value) else |s.cache| < NBUF)
    case Fill(pid, b) =>
      Held(s, pid, b) && b < L.nblocks && !s.cache[b].valid
    case Release(pid, b) =>
      Held(s, pid, b) && (pid in s.ops ==> b !in s.ops[pid].unlogged)
    case CopyToLog =>
      s.phase.WriteLog? && s.phase.tail < |s.lh| && L.start + 1 + s.phase.tail < L.nblocks
      && HeldValid(s, s.worker, L.start + 1 + s.phase.tail) && HeldValid(s, s.worker, s.lh[s.phase.tail])
    case CommitHead =>
      s.phase.WriteLog? && s.phase.tail == |s.lh| <= LOGSIZE && (forall i :: 0 <= i < |s.lh| ==> s.lh[i] < WORD_LIMIT)
      && HeldValid(s, s.worker, L.start)
    case InstallBlock =>
      s.phase.Install? && s.phase.tail < |s.lh| && s.lh[s.phase.tail] < L.nblocks
      && HeldValid(s, s.worker, L.start + 1 + s.phase.tail) && HeldValid(s, s.worker, s.lh[s.phase.tail])
    case EraseHead =>
      s.phase.Install? && s.phase.tail == |s.lh| && HeldValid(s, s.worker, L.start)
    case FinishCommit =>
      s.phase.Done?
    case ReadHead =>
      s.phase.Boot? && HeldValid(s, s.worker, L.start)
    case Crash =>
      true
  }

  /** bwrite of a held buffer whose contents become data: the disk and the buffer change together
      and the buffer comes back clean. */
  function WriteThrough(s: State, b: nat, data: Block): State
    requires b in s.cache && b < |s.disk|
  {
    s.(disk := s.disk[b := data],
       cache := s.cache[b := s.cache[b].(data := data, dirty := false, valid := true)])
  }

  function SetHolder(s: State, b: nat, holder: Option<Pid>): State
    requires b in s.cache
  {
    s.(cache := s.cache[b := s.cache[b].(holder := holder)])
  }

  /** The head of end_op. */
  function Leave(s: State, pid: Pid): State
    requires pid in s.ops
  {
    var t := s.(ops := s.ops - {pid}, outstanding := s.outstanding - 1);
    if t.outstanding == 0 then
      t.(committing := true, worker := pid, phase := if t.lh == [] then Done else WriteLog(0))
    else t
  }

  /** log_write under log.lock: absorb or append, then pin the buffer with B_DIRTY. */
  function Logged(s: State, pid: Pid, b: nat): State
    requires pid in s.ops && b in s.cache
  {
    var op := s.ops[pid];
    s.(lh := if b in s.lh then s.lh else s.lh + [b],
       cache := s.cache[b := s.cache[b].(dirty := true)],
       ops := s.ops[pid := op.(used := op.used + 1, unlogged := op.unlogged - {b}, checked := false)])
  }

  function Changed(s: State, pid: Pid, b: nat, data: Block): State
    requires pid in s.ops && b in s.cache
  {
    var op := s.ops[pid];
    s.(cache := s.cache[b := s.cache[b].(data := data)],
       ops := s.ops[pid := op.(unlogged := op.unlogged + {b})],
       trace := s.trace + [Update(op.id, b, data)])
  }

  /** Memory is lost, the disk stays. Updates that were not committed never happened. */
  function Crashed(s: State): State {
    State(s.disk, map[], [], 0, false, map[], 0, Boot, s.nextOp,
          if s.committed <= |s.trace| then s.trace[..s.committed] else s.trace, s.committed)
  }

  function Begun(s: State, pid: Pid): State {
    s.(ops := s.ops[pid := Op(s.nextOp, 0, {}, false)], nextOp := s.nextOp + 1, outstanding := s.outstanding + 1)
  }

  function Recycled(s: State, pid: Pid, victim: Option<nat>, b: nat): State
    requires b < |s.disk| && (victim.Some? ==> victim.value in s.cache)
  {
    var data := if victim.Some? then s.cache[victim.value].data else s.disk[b];
    var rest := if victim.Some? then s.cache - {victim.value} else s.cache;
    s.(cache := rest[b := Buf(Some(pid), false, false, data)])
  }

  /** One iteration of write_log. */
  function CopiedToLog(L: Layout, s: State): State
    requires s.phase.WriteLog? && s.phase.tail < |s.lh|
    requires s.lh[s.phase.tail] in s.cache && L.start + 1 + s.phase.tail in s.cache && L.start + 1 + s.phase.tail < |s.disk|
  {
    var t := WriteThrough(s, L.start + 1 + s.phase.tail, s.cache[s.lh[s.phase.tail]].data);
    t.(phase := WriteLog(s.phase.tail + 1))
  }

  /** write_head with n > 0: the commit point. */
  function HeadWritten(L: Layout, s: State): State
    requires L.start in s.cache && L.start < |s.disk| && |s.lh| <= LOGSIZE
    requires forall i :: 0 <= i < |s.lh| ==> s.lh[i] < WORD_LIMIT
  {
    var t := WriteThrough(s, L.start, WithHeader(s.cache[L.start].data, s.lh));
    t.(phase := Install(0, false), committed := |s.trace|)
  }

  /** One iteration of install_trans. */
  function Installed(L: Layout, s: State): State
    requires s.phase.Install? && s.phase.tail < |s.lh| && s.lh[s.phase.tail] < |s.disk|
    requires s.lh[s.phase.tail] in s.cache && L.start + 1 + s.phase.tail in s.cache
  {
    var t := WriteThrough(s, s.lh[s.phase.tail], s.cache[L.start + 1 + s.phase.tail].data);
    t.(phase := Install(s.phase.tail + 1, s.phase.booting))
  }

  /** log.lh.n = 0 and write_head. */
  function Erased(L: Layout, s: State): State
    requires s.phase.Install? && L.start in s.cache && L.start < |s.disk|
  {
    var t := WriteThrough(s, L.start, WithHeader(s.cache[L.start].data, []));
    t.(lh := [], phase := if s.phase.booting then Idle else Done)
  }

  function Do(L: Layout, s: State, a: Action): State
    requires ValidLayout(L) && |s.disk| == L.nblocks
    requires Enabled(L, s, a)
  {
    match a
    case BeginOp(pid) => Begun(s, pid)
    case EndOp(pid) => Leave(s, pid)
    case Change(pid, b, data) => Changed(s, pid, b, data)
    case LogCheck(pid) => s.(ops := s.ops[pid := s.ops[pid].(checked := true)])
    case LogWrite(pid, b) => Logged(s, pid, b)
    case Get(pid, b) => SetHolder(s, b, Some(pid))
    case Recycle(pid, victim, b) => Recycled(s, pid, victim, b)
    case Fill(pid, b) => s.(cache := s.cache[b := s.cache[b].(valid := true, data := s.disk[b])])
    case Release(pid, b) => SetHolder(s, b, None)
    case CopyToLog => CopiedToLog(L, s)
    case CommitHead => HeadWritten(L, s)
    case InstallBlock => Installed(L, s)
    case EraseHead => Erased(L, s)
    case FinishCommit => s.(committing := false, phase := Idle)
    case ReadHead => s.(lh := Header(s.cache[L.start].data), phase := Install(0, true))
    case Crash => Crashed(s)
  }
}
