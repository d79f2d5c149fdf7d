/** The mutex and the condition variables of sysfile.c, and the user-level pipe of upipe.c built on
    them, for any number of readers and writers. A step is one section under a spinlock, or one
    access to the shared struct by the process inside the mutex. Nobody is killed. */
module Upipe {
  import opened Wrappers

  type Pid = nat

  /** A call of upipe_write or upipe_read, and how far its loop is. */
  datatype Call = WriteCall(buf: seq<int>, i: nat) | ReadCall(n: nat)

  datatype PC =
    | Out
    | Acquire(call: Call)       // about to enter lock_acquire
    | MutexAsleep(call: Call)
    | Test(call: Call)          // at the head of the loop, the mutex held
    | SignalOther(call: Call)   // full, or empty: cond_signal, then cond_wait
    | CondWait(call: Call)
    | Gap(call: Call)           // cond_wait has released the mutex and is not yet asleep
    | CondAsleep(call: Call)
    | Copy(left: nat)           // upipe_read's second loop
    | EndSignal(writer: bool)
    | Release

  /** written and got are all bytes stored and taken; holder is the process inside the mutex. */
  datatype State = State(
    value: int, holder: Option<Pid>, procs: map<Pid, PC>, full: seq<Pid>, empty: seq<Pid>,
    data: seq<int>, readIndex: nat, writeIndex: nat, count: int,
    written: seq<int>, got: seq<int>)

  datatype Action =
    | Write(pid: Pid, buf: seq<int>)
    | Read(pid: Pid, n: nat)
    | Next(pid: Pid)

  predicate Holding(pc: PC) {
    pc.Test? || pc.SignalOther? || pc.CondWait? || pc.Copy? || pc.EndSignal? || pc.Release?
  }

  predicate Enabled(s: State, a: Action) {
    a.pid in s.procs && var pc := s.procs[a.pid];
    match a
    case Write(_, _) => pc.Out?
    case Read(_, _) => pc.Out?
    case Next(_) => !pc.Out? && !pc.MutexAsleep? && !pc.CondAsleep?
  }

  function Go(s: State, p: Pid, pc: PC): State { s.(procs := s.procs[p := pc]) }

  /** wakeup(&mlk->value). */
  function Woken(procs: map<Pid, PC>): map<Pid, PC> {
    map p | p in procs :: if procs[p].MutexAsleep? then Acquire(procs[p].call) else procs[p]
  }

  /** lock_release by p, which goes on to pc. */
  function Unlocked(s: State, p: Pid, pc: PC): State {
    s.(value := 0, holder := None, procs := Woken(s.procs)[p := pc])
  }

  /** wakeup on one condition node: it finds nobody if that process is not asleep yet. */
  function WokenOne(procs: map<Pid, PC>, q: Pid): map<Pid, PC> {
    if q in procs && procs[q].CondAsleep? then procs[q := Acquire(procs[q].call)] else procs
  }

  /** cond_signal: the first node leaves the list. */
  function SignalFull(s: State): State {
    if s.full == [] then s else s.(full := s.full[1..], procs := WokenOne(s.procs, s.full[0]))
  }

  function SignalEmpty(s: State): State {
    if s.empty == [] then s else s.(empty := s.empty[1..], procs := WokenOne(s.procs, s.empty[0]))
  }

  /** A writer waits on cvFull and signals cvEmpty; a reader the other way round. */
  function Signalled(s: State, writer: bool): State { if writer then SignalEmpty(s) else SignalFull(s) }

  function Stored(s: State, p: Pid, buf: seq<int>, i: nat): State
    requires i < |buf| && 0 < |s.data|
  {
    s.(data := s.data[s.writeIndex % |s.data| := buf[i]], writeIndex := s.writeIndex + 1, count := s.count + 1,
       written := s.written + [buf[i]], procs := s.procs[p := Test(WriteCall(buf, i + 1))])
  }

  function Taken(s: State, p: Pid, left: nat): State
    requires 0 < left && 0 < |s.data|
  {
    s.(readIndex := s.readIndex + 1, count := s.count - 1, got := s.got + [s.data[s.readIndex % |s.data|]],
       procs := s.procs[p := Copy(left - 1)])
  }

  function Tested(s: State, p: Pid, call: Call): State
    requires 0 < |s.data|
  {
    match call
    case WriteCall(buf, i) =>
      if i >= |buf| then Go(s, p, EndSignal(true))
      else if s.count == |s.data| then Go(s, p, SignalOther(call))
      else Stored(s, p, buf, i)
    case ReadCall(n) =>
      if s.readIndex == s.writeIndex then Go(s, p, SignalOther(call)) else Go(s, p, Copy(n))
  }

  function Waiting(s: State, p: Pid, call: Call): State {
    var t := if call.WriteCall? then s.(full := s.full + [p]) else s.(empty := s.empty + [p]);
    Unlocked(t, p, Gap(call))
  }

  function Stepped(s: State, p: Pid): State
    requires p in s.procs && 0 < |s.data|
  {
    match s.procs[p]
    case Out => s
    case Acquire(call) =>
      if s.value == 1 then Go(s, p, MutexAsleep(call))
      else Go(s, p, Test(call)).(value := 1, holder := Some(p))
    case MutexAsleep(_) => s
    case Test(call) => Tested(s, p, call)
    case SignalOther(call) => Go(Signalled(s, call.WriteCall?), p, CondWait(call))
    case CondWait(call) => Waiting(s, p, call)
    case Gap(call) => Go(s, p, CondAsleep(call))
    case CondAsleep(_) => s
    case Copy(left) => if left == 0 then Go(s, p, EndSignal(false)) else Taken(s, p, left)
    case EndSignal(writer) => Go(Signalled(s, writer), p, Release)
    case Release => Unlocked(s, p, Out)
  }

  function Do(s: State, a: Action): State
    requires Enabled(s, a) && 0 < |s.data|
  {
    match a
    case Write(p, buf) => Go(s, p, Acquire(WriteCall(buf, 0)))
    case Read(p, n) => Go(s, p, Acquire(ReadCall(n)))
    case Next(p) => Stepped(s, p)
  }

  /** upipe_create. */
  ghost predicate Initial(s: State) {
    && s.value == 0 && s.holder.None? && s.full == [] && s.empty == [] && 0 < |s.data|
    && s.readIndex == 0 && s.writeIndex == 0 && s.count == 0 && s.written == [] && s.got == []
    && forall p :: p in s.procs ==> s.procs[p].Out?
  }

  // ---- what every step keeps -----------------------------------------------------------------------

  /** One process inside the mutex, and none asleep on it while it is free. */
  ghost predicate PlaceOk(s: State, p: Pid)
    requires p in s.procs
  {
    && (Holding(s.procs[p]) <==> s.holder == Some(p))
    && (s.procs[p].MutexAsleep? ==> s.holder.Some?)
  }

  ghost predicate MutexOk(s: State) {
    && s.value == (if s.holder.Some? then 1 else 0)
    && (s.holder.Some? ==> s.holder.value in s.procs)
    && forall p :: p in s.procs ==> PlaceOk(s, p)
  }

  /** The ring holds what is written and not read. */
  ghost predicate RingOk(s: State) {
    && 0 < |s.data|
    && s.got <= s.written && s.writeIndex == |s.written| && s.readIndex == |s.got|
    && s.count == |s.written| - |s.got| <= |s.data|
    && forall j :: |s.got| <= j < |s.written| ==> s.data[j % |s.data|] == s.written[j]
  }

  predicate Divides(r: nat, x: int)
    requires r > 0
  {
    x % r == 0
  }

  /** All reads ask for r bytes, which divides every write; how far a call is fits that. */
  predicate CallOk(r: nat, call: Call)
    requires r > 0
  {
    match call
    case WriteCall(buf, i) => Divides(r, |buf|) && i <= |buf|
    case ReadCall(n) => n == r
  }

  ghost predicate SizeOk(r: nat, s: State, p: Pid)
    requires r > 0 && p in s.procs
  {
    match s.procs[p]
    case Out => true
    case Acquire(call) => CallOk(r, call) && (call.WriteCall? ==> Divides(r, call.i))
    case MutexAsleep(call) => CallOk(r, call) && (call.WriteCall? ==> Divides(r, call.i))
    case Test(call) => CallOk(r, call) && if call.WriteCall? then Divides(r, s.count - call.i) else Divides(r, s.count)
    case SignalOther(call) => CallOk(r, call) && Divides(r, s.count) && (call.WriteCall? ==> Divides(r, call.i))
    case CondWait(call) => CallOk(r, call) && Divides(r, s.count) && (call.WriteCall? ==> Divides(r, call.i))
    case Gap(call) => CallOk(r, call) && (call.WriteCall? ==> Divides(r, call.i))
    case CondAsleep(call) => CallOk(r, call) && (call.WriteCall? ==> Divides(r, call.i))
    case Copy(left) => left <= s.count && Divides(r, s.count - left)
    case EndSignal(_) => Divides(r, s.count)
    case Release => Divides(r, s.count)
  }

  ghost predicate SizesOk(r: nat, s: State) {
    && r > 0 && Divides(r, |s.data|)
    && (s.holder.None? ==> Divides(r, s.count))
    && forall p :: p in s.procs ==> SizeOk(r, s, p)
  }

  /** A call that starts keeps to the sizes. */
  predicate Fits(r: nat, a: Action)
    requires r > 0
  {
    match a
    case Write(_, buf) => Divides(r, |buf|)
    case Read(_, n) => n == r
    case Next(_) => true
  }
}
