/** sleep, wakeup, the scheduler and the semaphore system calls, as a transition system over any
    number of processes and CPUs. A step is one access to shared state by one CPU. */
module Semaphore {
  import opened Wrappers

  type Pid = nat
  type Cpu = nat
  type Chan = nat

  const SEM: Chan := 0    // &sp->value; all other channels belong to other code

  datatype RunState = Runnable | Running | Sleeping

  /** Where a process stands. Names follow the functions: D for sema_down, S for sleep, U for
      sema_up and the wakeup it calls, Y for yield and forkret, K for kill. */
  datatype PC =
    | User
    | DAcquire | DTest | DDecrement | DRelease
    | SAcquirePt | SReleaseLk | SMark(chan: Chan) | SSwitch(chan: Chan) | SWoken(chan: Chan) | SReleasePt(chan: Chan)
    | UAcquire | UAcquirePt | UScan(todo: set<Pid>) | UReleasePt | UIncrement | URelease
    | YAcquire | YMark | YSwitch | YRelease
    | KAcquire | KHold | KRelease

  /** cpu says which CPU executes on this process's kernel stack, if any. */
  datatype Proc = Proc(state: RunState, chan: Option<Chan>, pc: PC, cpu: Option<Cpu>)

  datatype CpuState = Elsewhere | Scanning | Exec(pid: Pid)

  /** ups and downs count the completed changes of value; init is what sema_init stored. */
  datatype State = State(
    procs: map<Pid, Proc>,
    cpus: map<Cpu, CpuState>,
    pt: Option<Cpu>,
    lk: Option<Cpu>,
    value: int,
    init: int,
    ups: nat,
    downs: nat)

  datatype Choice = Down | Up | Yield | Kill | SleepOn(chan: Chan)

  datatype Action =
    | Start(cpu: Cpu, choice: Choice)      // a process in user code makes a system call, or is interrupted
    | Next(cpu: Cpu)                       // the process on cpu takes its next step
    | ScanOne(cpu: Cpu, pid: Pid)          // one iteration of wakeup1
    | KillOne(cpu: Cpu, pid: Pid)          // kill finds its target; with Next it finds itself, or nobody
    | Enter(cpu: Cpu)                      // scheduler acquires ptable.lock
    | Pick(cpu: Cpu, pid: Pid)             // scheduler switches to a process
    | Leave(cpu: Cpu)                      // scheduler releases ptable.lock

  predicate HoldsPt(pc: PC) {
    pc.SReleaseLk? || pc.SMark? || pc.SSwitch? || pc.SWoken? || pc.SReleasePt?
    || pc.UScan? || pc.UReleasePt? || pc.YMark? || pc.YSwitch? || pc.YRelease? || pc.KHold? || pc.KRelease?
  }

  predicate HoldsLk(pc: PC) {
    pc.DTest? || pc.DDecrement? || pc.DRelease? || pc.SAcquirePt? || pc.SReleaseLk?
    || pc.UAcquirePt? || pc.UScan? || pc.UReleasePt? || pc.UIncrement? || pc.URelease?
  }

  predicate WantsPt(pc: PC) { pc.SAcquirePt? || pc.UAcquirePt? || pc.YAcquire? || pc.KAcquire? }

  predicate WantsLk(pc: PC) { pc.DAcquire? || pc.UAcquire? }

  predicate OnCpu(s: State, c: Cpu) {
    c in s.cpus && s.cpus[c].Exec? && s.cpus[c].pid in s.procs
  }

  function Current(s: State, c: Cpu): Proc
    requires OnCpu(s, c)
  {
    s.procs[s.cpus[c].pid]
  }

  predicate Enabled(s: State, a: Action) {
    match a
    case Start(c, choice) =>
      OnCpu(s, c) && Current(s, c).pc.User?
      && (choice.SleepOn? ==> choice.chan != SEM && s.pt.None?)
    case Next(c) =>
      OnCpu(s, c) && var pc := Current(s, c).pc;
      && !pc.User?
      && (pc.UScan? ==> pc.todo == {})
      && (WantsPt(pc) ==> s.pt.None?)
      && (WantsLk(pc) ==> s.lk.None?)
    case ScanOne(c, q) =>
      OnCpu(s, c) && Current(s, c).pc.UScan? && q in Current(s, c).pc.todo && q in s.procs
    case KillOne(c, q) =>
      OnCpu(s, c) && Current(s, c).pc.KHold? && q in s.procs && q != s.cpus[c].pid
    case Enter(c) => c in s.cpus && s.cpus[c].Elsewhere? && s.pt.None?
    case Pick(c, q) => c in s.cpus && s.cpus[c].Scanning? && q in s.procs && s.procs[q].state.Runnable?
    case Leave(c) => c in s.cpus && s.cpus[c].Scanning?
  }

  function SetPc(s: State, p: Pid, pc: PC): State
    requires p in s.procs
  {
    s.(procs := s.procs[p := s.procs[p].(pc := pc)])
  }

  /** What wakeup1 does to one process. */
  function Woken(p: Proc, chan: Chan): Proc {
    if p.state.Sleeping? && p.chan == Some(chan) then p.(state := Runnable) else p
  }

  /** swtch from the process to the scheduler of its CPU; ptable.lock stays held. */
  function SwitchOut(s: State, c: Cpu, pc: PC): State
    requires OnCpu(s, c)
  {
    var p := s.cpus[c].pid;
    s.(procs := s.procs[p := s.procs[p].(pc := pc, cpu := None)], cpus := s.cpus[c := Scanning])
  }

  function Started(s: State, c: Cpu, choice: Choice): State
    requires OnCpu(s, c)
  {
    var p := s.cpus[c].pid;
    match choice
    case Down => SetPc(s, p, DAcquire)
    case Up => SetPc(s, p, UAcquire)
    case Yield => SetPc(s, p, YAcquire)
    case Kill => SetPc(s, p, KAcquire)
    case SleepOn(chan) => SetPc(s.(pt := Some(c)), p, SMark(chan))
  }

  function Stepped(s: State, c: Cpu): State
    requires OnCpu(s, c)
  {
    var p := s.cpus[c].pid;
    match s.procs[p].pc
    case User => s
    case DAcquire => SetPc(s.(lk := Some(c)), p, DTest)
    case DTest => SetPc(s, p, if s.value == 0 then SAcquirePt else DDecrement)
    case DDecrement => SetPc(s.(value := s.value - 1, downs := s.downs + 1), p, DRelease)
    case DRelease => SetPc(s.(lk := None), p, User)
    case SAcquirePt => SetPc(s.(pt := Some(c)), p, SReleaseLk)
    case SReleaseLk => SetPc(s.(lk := None), p, SMark(SEM))
    case SMark(ch) => s.(procs := s.procs[p := s.procs[p].(state := Sleeping, chan := Some(ch), pc := SSwitch(ch))])
    case SSwitch(ch) => SwitchOut(s, c, SWoken(ch))
    case SWoken(ch) => s.(procs := s.procs[p := s.procs[p].(chan := None, pc := SReleasePt(ch))])
    case SReleasePt(ch) => SetPc(s.(pt := None), p, if ch == SEM then DAcquire else User)
    case UAcquire => SetPc(s.(lk := Some(c)), p, UAcquirePt)
    case UAcquirePt => SetPc(s.(pt := Some(c)), p, UScan(s.procs.Keys))
    case UScan(_) => SetPc(s, p, UReleasePt)
    case UReleasePt => SetPc(s.(pt := None), p, UIncrement)
    case UIncrement => SetPc(s.(value := s.value + 1, ups := s.ups + 1), p, URelease)
    case URelease => SetPc(s.(lk := None), p, User)
    case YAcquire => SetPc(s.(pt := Some(c)), p, YMark)
    case YMark => s.(procs := s.procs[p := s.procs[p].(state := Runnable, pc := YSwitch)])
    case YSwitch => SwitchOut(s, c, YRelease)
    case YRelease => SetPc(s.(pt := None), p, User)
    case KAcquire => SetPc(s.(pt := Some(c)), p, KHold)
    case KHold => SetPc(s, p, KRelease)
    case KRelease => SetPc(s.(pt := None), p, User)
  }

  function Scanned(s: State, c: Cpu, q: Pid): State
    requires OnCpu(s, c) && Current(s, c).pc.UScan? && q in s.procs
  {
    var p := s.cpus[c].pid;
    var woken := s.procs[q := Woken(s.procs[q], SEM)];
    s.(procs := woken[p := woken[p].(pc := UScan(s.procs[p].pc.todo - {q}))])
  }

  function Killed(s: State, c: Cpu, q: Pid): State
    requires OnCpu(s, c) && q in s.procs
  {
    var p := s.cpus[c].pid;
    var woken := s.procs[q := if s.procs[q].state.Sleeping? then s.procs[q].(state := Runnable) else s.procs[q]];
    s.(procs := woken[p := woken[p].(pc := KRelease)])
  }

  function Do(s: State, a: Action): State
    requires Enabled(s, a)
  {
    match a
    case Start(c, choice) => Started(s, c, choice)
    case Next(c) => Stepped(s, c)
    case ScanOne(c, q) => Scanned(s, c, q)
    case KillOne(c, q) => Killed(s, c, q)
    case Enter(c) => s.(pt := Some(c), cpus := s.cpus[c := Scanning])
    case Pick(c, q) =>
      s.(procs := s.procs[q := s.procs[q].(state := Running, cpu := Some(c))], cpus := s.cpus[c := Exec(q)])
    case Leave(c) => s.(pt := None, cpus := s.cpus[c := Elsewhere])
  }

  /** Boot: every process is ready to run for the first time, no lock is held. */
  ghost predicate Initial(s: State) {
    && (forall p :: p in s.procs ==> s.procs[p] == Proc(Runnable, None, YRelease, None))
    && (forall c :: c in s.cpus ==> s.cpus[c].Elsewhere?)
    && s.pt.None? && s.lk.None? && s.value == s.init && s.ups == 0 && s.downs == 0
  }

  // ---- the invariant -----------------------------------------------------------------------

  /** p has found value == 0 and is on its way to sleep, or asleep, on the semaphore. */
  predicate Committed(p: Proc) {
    p.pc.SAcquirePt? || p.pc.SReleaseLk? || p.pc == SMark(SEM) || Asleep(p)
  }

  predicate Asleep(p: Proc) {
    p.state.Sleeping? && p.chan == Some(SEM)
  }

  /** A process and its CPU agree; off its CPU it waits inside swtch. */
  predicate PlaceOk(p: Proc) {
    && (p.cpu.None? ==> (p.pc.SWoken? || p.pc.YRelease?) && !p.state.Running?)
    && (p.cpu.Some? ==> (p.state.Sleeping? <==> p.pc.SSwitch?) && (p.state.Runnable? <==> p.pc.YSwitch?))
    && (p.state.Sleeping? ==> (p.pc.SSwitch? || p.pc.SWoken?) && p.chan == Some(p.pc.chan))
  }

  /** A process that holds a lock runs on the CPU that the lock names. */
  predicate LocksOk(p: Proc, pt: Option<Cpu>, lk: Option<Cpu>) {
    && (HoldsPt(p.pc) && p.cpu.Some? ==> pt == p.cpu)
    && (HoldsLk(p.pc) ==> p.cpu.Some? && lk == p.cpu)
    && (p.cpu.Some? && pt == p.cpu ==> HoldsPt(p.pc))
    && (p.cpu.Some? && lk == p.cpu ==> HoldsLk(p.pc))
  }

  ghost predicate CpusOk(s: State) {
    && (forall p :: p in s.procs && s.procs[p].cpu.Some? ==>
          s.procs[p].cpu.value in s.cpus && s.cpus[s.procs[p].cpu.value] == Exec(p))
    && (forall c :: c in s.cpus && s.cpus[c].Exec? ==> s.cpus[c].pid in s.procs && s.procs[s.cpus[c].pid].cpu == Some(c))
    && (forall c :: c in s.cpus ==> (s.cpus[c].Scanning? ==> s.pt == Some(c)))
    && (forall c :: c in s.cpus && (s.pt == Some(c) || s.lk == Some(c)) ==> !s.cpus[c].Elsewhere?)
    && (forall c :: c in s.cpus && s.lk == Some(c) ==> !s.cpus[c].Scanning?)
    && (s.pt.Some? ==> s.pt.value in s.cpus) && (s.lk.Some? ==> s.lk.value in s.cpus)
  }

  ghost predicate ProcsOk(s: State) {
    forall p :: p in s.procs ==> PlaceOk(s.procs[p]) && LocksOk(s.procs[p], s.pt, s.lk)
  }

  /** No wakeup is lost: with value positive nobody sleeps on the semaphore or is about to. */
  ghost predicate NoLostWakeup(s: State) {
    && (s.value > 0 ==> forall q :: q in s.procs ==> !Committed(s.procs[q]))
    && (forall p, q :: p in s.procs && q in s.procs && s.procs[p].pc.UScan? && Committed(s.procs[q]) ==> q in s.procs[p].pc.todo)
    && (forall p, q :: p in s.procs && q in s.procs && (s.procs[p].pc.UReleasePt? || s.procs[p].pc.UIncrement?) ==>
          !Committed(s.procs[q]))
    && (forall p :: p in s.procs && s.procs[p].pc.DDecrement? ==> s.value != 0)
    && (forall p :: p in s.procs && s.procs[p].pc.SAcquirePt? ==> s.value <= 0)
  }

  ghost predicate CountOk(s: State) {
    s.value == s.init + s.ups - s.downs && (0 <= s.init ==> 0 <= s.value)
  }

  ghost predicate Inv(s: State) {
    CpusOk(s) && ProcsOk(s) && NoLostWakeup(s) && CountOk(s)
  }
}
