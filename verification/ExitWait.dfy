/** fork, exit, wait, kill, yield and the scheduler (proc.c) as a transition system over any number
    of process slots and CPUs. What runs under ptable.lock without switching is one step; fork's
    writes outside the lock are steps of their own. */
module ExitWait {
  import opened Wrappers

  type Slot = nat
  type Cpu = nat

  const INIT: Slot := 0

  datatype ProcState = Unused | Embryo | Asleep | Runnable | Running | Zombie

  /** What a process sleeps on: wait() uses the address of the process, other code other addresses. */
  datatype Chan = NoChan | WaitOf(slot: Slot) | Elsewhere(id: nat)

  /** How far a process is with fork; it may be preempted in between. */
  datatype Work =
    | NoWork
    | ForkStack(np: Slot)      // allocproc took the slot, kalloc comes next
    | ForkCopy(np: Slot)       // copyuvm comes next
    | ForkReady(np: Slot)      // np->parent is set, the state write comes last

  datatype PC =
    | User
    | ExitSwitch | Dead
    | WaitSwitch | WaitWoken
    | OtherSwitch | OtherWoken
    | YieldSwitch | YieldWoken

  /** cpu: which CPU executes on this kernel stack. maker: which process is forking this one. */
  datatype Proc = Proc(state: ProcState, pid: nat, parent: Option<Slot>, chan: Chan, killed: bool, kstack: bool,
                       pc: PC, work: Work, cpu: Option<Cpu>, maker: Option<Slot>)

  datatype CpuState = Idle | Scanning | Exec(slot: Slot)

  datatype State = State(procs: seq<Proc>, cpus: map<Cpu, CpuState>, pt: Option<Cpu>, nextpid: nat)

  datatype Action =
    | Alloc(cpu: Cpu, np: Slot)
    | Stack(cpu: Cpu, ok: bool)
    | Copy(cpu: Cpu, ok: bool)
    | Ready(cpu: Cpu)
    | Exit(cpu: Cpu)
    | Wait(cpu: Cpu)
    | SleepOn(cpu: Cpu, id: nat)
    | Yield(cpu: Cpu)
    | Resume(cpu: Cpu)           // a process switched to by the scheduler goes on
    | Switch(cpu: Cpu)           // swtch to the scheduler
    | Wakeup(cpu: Cpu, id: nat)
    | Kill(cpu: Cpu, q: Slot)
    | Enter(cpu: Cpu)
    | Pick(cpu: Cpu, q: Slot)
    | Leave(cpu: Cpu)

  predicate Alive(p: Proc) { p.state.Asleep? || p.state.Runnable? || p.state.Running? }

  predicate Switching(pc: PC) { pc.ExitSwitch? || pc.WaitSwitch? || pc.OtherSwitch? || pc.YieldSwitch? }

  predicate Resuming(pc: PC) { pc.WaitWoken? || pc.OtherWoken? || pc.YieldWoken? }

  // ---- table scans ---------------------------------------------------------------------------

  function WokenOne(p: Proc, chan: Chan): Proc {
    if p.state.Asleep? && p.chan == chan then p.(state := Runnable) else p
  }

  /** wakeup1. */
  function WakeAll(ps: seq<Proc>, chan: Chan): (r: seq<Proc>)
    ensures |r| == |ps| && forall i :: 0 <= i < |ps| ==> r[i] == WokenOne(ps[i], chan)
  {
    seq(|ps|, i requires 0 <= i < |ps| => WokenOne(ps[i], chan))
  }

  function AdoptedOne(p: Proc, from: Slot): Proc {
    if p.parent == Some(from) then p.(parent := Some(INIT)) else p
  }

  predicate HasZombie(ps: seq<Proc>, p: Slot) {
    exists i :: 0 <= i < |ps| && ps[i].parent == Some(p) && ps[i].state.Zombie?
  }

  predicate HasChild(ps: seq<Proc>, p: Slot) {
    exists i :: 0 <= i < |ps| && ps[i].parent == Some(p)
  }

  /** exit's loop: children of p pass to init, which is woken if one of them is a zombie. */
  function Adopted(ps: seq<Proc>, from: Slot): (r: seq<Proc>)
    ensures |r| == |ps|
    ensures forall i :: 0 <= i < |ps| ==>
              r[i] == if HasZombie(ps, from) then WokenOne(AdoptedOne(ps[i], from), WaitOf(INIT)) else AdoptedOne(ps[i], from)
  {
    var r := seq(|ps|, i requires 0 <= i < |ps| => AdoptedOne(ps[i], from));
    if HasZombie(ps, from) then WakeAll(r, WaitOf(INIT)) else r
  }

  function Reaped(p: Proc): Proc {
    p.(state := Unused, pid := 0, parent := None, killed := false, kstack := false, pc := User, work := NoWork)
  }

  // ---- steps ----------------------------------------------------------------------------------

  predicate OnCpu(s: State, c: Cpu) {
    c in s.cpus && s.cpus[c].Exec? && s.cpus[c].slot < |s.procs|
  }

  function Me(s: State, c: Cpu): Slot
    requires OnCpu(s, c)
    ensures Me(s, c) < |s.procs|
  {
    s.cpus[c].slot
  }

  predicate InUser(s: State, c: Cpu) {
    OnCpu(s, c) && s.procs[Me(s, c)].pc.User?
  }

  /** The process on c may make a system call. */
  predicate Free(s: State, c: Cpu) {
    InUser(s, c) && s.procs[Me(s, c)].work.NoWork?
  }

  predicate Enabled(s: State, a: Action) {
    match a
    case Alloc(c, np) => Free(s, c) && s.pt.None? && np < |s.procs| && s.procs[np].state.Unused?
    case Stack(c, _) => InUser(s, c) && s.procs[Me(s, c)].work.ForkStack? && s.procs[Me(s, c)].work.np < |s.procs|
    case Copy(c, _) => InUser(s, c) && s.procs[Me(s, c)].work.ForkCopy? && s.procs[Me(s, c)].work.np < |s.procs|
    case Ready(c) =>
      InUser(s, c) && s.procs[Me(s, c)].work.ForkReady? && s.procs[Me(s, c)].work.np < |s.procs| && s.pt.None?
    case Exit(c) => Free(s, c) && s.pt.None? && Me(s, c) != INIT && s.procs[Me(s, c)].parent.Some?
    case Wait(c) => Free(s, c) && s.pt.None?
    case SleepOn(c, _) => Free(s, c) && s.pt.None?
    case Yield(c) => InUser(s, c) && s.pt.None?
    case Wakeup(c, _) => Free(s, c) && s.pt.None?
    case Kill(c, q) => Free(s, c) && s.pt.None? && q < |s.procs|
    case Resume(c) => OnCpu(s, c) && Resuming(s.procs[Me(s, c)].pc)
    case Switch(c) => OnCpu(s, c) && Switching(s.procs[Me(s, c)].pc)
    case Enter(c) => c in s.cpus && s.cpus[c].Idle? && s.pt.None?
    case Pick(c, q) => c in s.cpus && s.cpus[c].Scanning? && q < |s.procs| && s.procs[q].state.Runnable?
    case Leave(c) => c in s.cpus && s.cpus[c].Scanning?
  }

  function Put(s: State, p: Slot, proc: Proc): State
    requires p < |s.procs|
  {
    s.(procs := s.procs[p := proc])
  }

  /** wait's scan for a zombie child of p, from slot i on. */
  function FindZombie(ps: seq<Proc>, p: Slot, i: nat): (r: Option<Slot>)
    requires i <= |ps|
    ensures r.Some? ==> i <= r.value < |ps| && ps[r.value].parent == Some(p) && ps[r.value].state.Zombie?
    ensures r.Some? ==> forall j :: i <= j < r.value ==> !(ps[j].parent == Some(p) && ps[j].state.Zombie?)
    ensures r.None? ==> forall j :: i <= j < |ps| ==> !(ps[j].parent == Some(p) && ps[j].state.Zombie?)
    decreases |ps| - i
  {
    if i == |ps| then None
    else if ps[i].parent == Some(p) && ps[i].state.Zombie? then Some(i)
    else FindZombie(ps, p, i + 1)
  }

  /** One round of wait's loop with ptable.lock held: reap a zombie child, give up, or sleep. */
  function WaitRound(s: State, c: Cpu): State
    requires OnCpu(s, c)
  {
    var p := Me(s, c);
    var me := s.procs[p].(chan := NoChan, pc := User);
    match FindZombie(s.procs, p, 0)
    case Some(z) => s.(procs := s.procs[z := Reaped(s.procs[z])][p := me], pt := None)
    case None =>
      if !HasChild(s.procs, p) || s.procs[p].killed then s.(procs := s.procs[p := me], pt := None)
      else s.(procs := s.procs[p := me.(state := Asleep, chan := WaitOf(p), pc := WaitSwitch)], pt := Some(c))
  }

  /** exit, from acquiring ptable.lock to the call of sched. */
  function Exited(s: State, c: Cpu): State
    requires OnCpu(s, c) && s.procs[Me(s, c)].parent.Some?
  {
    var p := Me(s, c);
    var ps := Adopted(WakeAll(s.procs, WaitOf(s.procs[p].parent.value)), p);
    s.(procs := ps[p := ps[p].(state := Zombie, pc := ExitSwitch)], pt := Some(c))
  }

  function Allocated(s: State, c: Cpu, np: Slot): State
    requires OnCpu(s, c) && np < |s.procs|
  {
    var p := Me(s, c);
    var ps := s.procs[np := s.procs[np].(state := Embryo, pid := s.nextpid, maker := Some(p))];
    s.(procs := ps[p := ps[p].(work := ForkStack(np))], nextpid := s.nextpid + 1)
  }

  /** fork gives up: the slot is free again. */
  function ForkFailed(s: State, c: Cpu, np: Slot): State
    requires OnCpu(s, c) && np < |s.procs|
  {
    var p := Me(s, c);
    var ps := s.procs[np := s.procs[np].(state := Unused, kstack := false, maker := None)];
    s.(procs := ps[p := ps[p].(work := NoWork)])
  }

  function Stacked(s: State, c: Cpu, np: Slot): State
    requires OnCpu(s, c) && np < |s.procs|
  {
    var p := Me(s, c);
    var ps := s.procs[np := s.procs[np].(kstack := true)];
    s.(procs := ps[p := ps[p].(work := ForkCopy(np))])
  }

  function Copied(s: State, c: Cpu, np: Slot): State
    requires OnCpu(s, c) && np < |s.procs|
  {
    var p := Me(s, c);
    var ps := s.procs[np := s.procs[np].(parent := Some(p))];
    s.(procs := ps[p := ps[p].(work := ForkReady(np))])
  }

  function MadeReady(s: State, c: Cpu, np: Slot): State
    requires OnCpu(s, c) && np < |s.procs|
  {
    var p := Me(s, c);
    var ps := s.procs[np := s.procs[np].(state := Runnable, pc := YieldWoken, chan := NoChan, maker := None)];
    s.(procs := ps[p := ps[p].(work := NoWork)])
  }

  function SwitchedOut(s: State, c: Cpu): State
    requires OnCpu(s, c)
  {
    var p := Me(s, c);
    var pc := match s.procs[p].pc
      case ExitSwitch => Dead
      case WaitSwitch => WaitWoken
      case OtherSwitch => OtherWoken
      case _ => YieldWoken;
    s.(procs := s.procs[p := s.procs[p].(pc := pc, cpu := None)], cpus := s.cpus[c := Scanning])
  }

  function Resumed(s: State, c: Cpu): State
    requires OnCpu(s, c)
  {
    var p := Me(s, c);
    if s.procs[p].pc.WaitWoken? then WaitRound(s, c)
    else s.(procs := s.procs[p := s.procs[p].(chan := NoChan, pc := User)], pt := None)
  }

  function KilledOne(p: Proc): Proc {
    if p.state.Asleep? then p.(killed := true, state := Runnable) else p.(killed := true)
  }

  function Do(s: State, a: Action): State
    requires Enabled(s, a)
  {
    match a
    case Alloc(c, np) => Allocated(s, c, np)
    case Stack(c, ok) => var np := s.procs[Me(s, c)].work.np; if ok then Stacked(s, c, np) else ForkFailed(s, c, np)
    case Copy(c, ok) => var np := s.procs[Me(s, c)].work.np; if ok then Copied(s, c, np) else ForkFailed(s, c, np)
    case Ready(c) => MadeReady(s, c, s.procs[Me(s, c)].work.np)
    case Exit(c) => Exited(s, c)
    case Wait(c) => WaitRound(s, c)
    case SleepOn(c, id) =>
      Put(s, Me(s, c), s.procs[Me(s, c)].(state := Asleep, chan := Elsewhere(id), pc := OtherSwitch)).(pt := Some(c))
    case Yield(c) => Put(s, Me(s, c), s.procs[Me(s, c)].(state := Runnable, pc := YieldSwitch)).(pt := Some(c))
    case Resume(c) => Resumed(s, c)
    case Switch(c) => SwitchedOut(s, c)
    case Wakeup(c, id) => s.(procs := WakeAll(s.procs, Elsewhere(id)))
    case Kill(c, q) => Put(s, q, KilledOne(s.procs[q]))
    case Enter(c) => s.(pt := Some(c), cpus := s.cpus[c := Scanning])
    case Pick(c, q) =>
      s.(procs := s.procs[q := s.procs[q].(state := Running, cpu := Some(c))], cpus := s.cpus[c := Exec(q)])
    case Leave(c) => s.(pt := None, cpus := s.cpus[c := Idle])
  }

  /** After userinit: init is ready, every other slot is free. */
  ghost predicate Initial(s: State) {
    && 0 < |s.procs| && s.pt.None? && s.nextpid == 2
    && s.procs[INIT] == Proc(Runnable, 1, None, NoChan, false, true, YieldWoken, NoWork, None, None)
    && (forall i :: 0 < i < |s.procs| ==> s.procs[i] == Proc(Unused, 0, None, NoChan, false, false, User, NoWork, None, None))
    && (forall c :: c in s.cpus ==> s.cpus[c].Idle?)
  }

  // ---- the invariant ------------------------------------------------------------------------------

  /** Process and CPU agree: off its CPU a process waits inside swtch, has died, or never ran. */
  predicate PlaceOk(p: Proc) {
    && (p.state.Unused? || p.state.Embryo? ==> p.cpu.None?)
    && (p.state.Zombie? ==> if p.cpu.Some? then p.pc.ExitSwitch? else p.pc.Dead?)
    && (p.state.Asleep? ==>
          if p.cpu.Some? then p.pc.WaitSwitch? || p.pc.OtherSwitch? else p.pc.WaitWoken? || p.pc.OtherWoken?)
    && (p.state.Runnable? ==> if p.cpu.Some? then p.pc.YieldSwitch? else Resuming(p.pc))
    && (p.state.Running? ==> p.cpu.Some? && !Switching(p.pc) && !p.pc.Dead?)
  }

  predicate LockOk(p: Proc, pt: Option<Cpu>) {
    p.cpu.Some? ==> (pt == p.cpu <==> Switching(p.pc) || Resuming(p.pc))
  }

  ghost predicate CpusOk(procs: seq<Proc>, cpus: map<Cpu, CpuState>, pt: Option<Cpu>) {
    && (forall i :: 0 <= i < |procs| && procs[i].cpu.Some? ==> procs[i].cpu.value in cpus && cpus[procs[i].cpu.value] == Exec(i))
    && (forall c :: c in cpus && cpus[c].Exec? ==> cpus[c].slot < |procs| && procs[cpus[c].slot].cpu == Some(c))
    && (forall c :: c in cpus && cpus[c].Scanning? ==> pt == Some(c))
    && (forall c :: c in cpus && cpus[c].Idle? ==> pt != Some(c))
    && (pt.Some? ==> pt.value in cpus)
  }

  ghost predicate ProcsOk(procs: seq<Proc>, pt: Option<Cpu>) {
    forall i :: 0 <= i < |procs| ==> PlaceOk(procs[i]) && LockOk(procs[i], pt)
  }

  /** The parent of a process is alive, and every process has one but init. */
  ghost predicate ParentOk(procs: seq<Proc>, i: Slot)
    requires i < |procs|
  {
    && (procs[i].parent.Some? ==>
          && procs[i].parent.value < |procs| && procs[i].parent.value != i
          && Alive(procs[procs[i].parent.value]) && !procs[i].state.Unused?)
    && (i != INIT && !procs[i].state.Unused? && !procs[i].state.Embryo? ==> procs[i].parent.Some?)
    && (i == INIT ==> Alive(procs[i]) && procs[i].parent.None?)
  }

  /** Whoever sleeps in wait has a child and no zombie child. */
  ghost predicate WaiterOk(procs: seq<Proc>, i: Slot)
    requires i < |procs|
  {
    procs[i].state.Asleep? ==>
      && (procs[i].chan.WaitOf? ==> procs[i].chan == WaitOf(i) && HasChild(procs, i) && !HasZombie(procs, i))
      && (procs[i].pc.WaitSwitch? || procs[i].pc.WaitWoken? ==> procs[i].chan.WaitOf?)
  }

  ghost predicate FamilyOk(procs: seq<Proc>) {
    0 < |procs| && forall i :: 0 <= i < |procs| ==> ParentOk(procs, i) && WaiterOk(procs, i)
  }

  predicate Forking(w: Work) { w.ForkStack? || w.ForkCopy? || w.ForkReady? }

  /** A slot in state EMBRYO belongs to the process that is forking it, until that makes it runnable. */
  ghost predicate MakerOk(procs: seq<Proc>, i: Slot)
    requires i < |procs|
  {
    && (Forking(procs[i].work) ==>
          && (procs[i].state.Running? || procs[i].state.Runnable?) && !procs[i].pc.WaitWoken?
          && procs[i].work.np < |procs| && procs[i].work.np != i && procs[procs[i].work.np].maker == Some(i))
    && (procs[i].maker.Some? ==>
          && procs[i].maker.value < |procs| && Forking(procs[procs[i].maker.value].work)
          && procs[procs[i].maker.value].work.np == i
          && (procs[procs[i].maker.value].work.ForkReady? <==> procs[i].parent.Some?)
          && (procs[procs[i].maker.value].work.ForkStack? <==> !procs[i].kstack))
    && SlotOk(procs[i])
  }

  ghost predicate MakersOk(procs: seq<Proc>) {
    forall i :: 0 <= i < |procs| ==> MakerOk(procs, i)
  }

  predicate SlotOk(p: Proc) {
    && (p.maker.Some? <==> p.state.Embryo?)
    && (p.state.Embryo? && p.parent.Some? ==> p.parent == p.maker)
    && (!p.state.Embryo? ==> (p.kstack <==> !p.state.Unused?))
  }

  ghost predicate PidsOk(procs: seq<Proc>, nextpid: nat) {
    && (forall i :: 0 <= i < |procs| && !procs[i].state.Unused? ==> 0 < procs[i].pid < nextpid)
    && (forall i, j :: 0 <= i < j < |procs| && !procs[i].state.Unused? && !procs[j].state.Unused? ==> procs[i].pid != procs[j].pid)
  }

  ghost predicate Inv(s: State) {
    && CpusOk(s.procs, s.cpus, s.pt)
    && ProcsOk(s.procs, s.pt)
    && FamilyOk(s.procs)
    && MakersOk(s.procs)
    && PidsOk(s.procs, s.nextpid)
  }
}
