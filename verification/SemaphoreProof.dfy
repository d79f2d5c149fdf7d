/** No wakeup is lost, for any number of processes and CPUs. */
module SemaphoreProof {
  import opened Wrappers
  import opened Semaphore

  /** A step that changes one process, which runs on c, and locks that c may take or give back. */
  ghost predicate Local(s: State, t: State, c: Cpu) {
    && OnCpu(s, c) && t.cpus == s.cpus
    && s.cpus[c].pid in t.procs
    && t.procs == s.procs[s.cpus[c].pid := Current(t, c)]
    && Current(t, c).cpu == Current(s, c).cpu
    && LockMove(s.pt, t.pt, c) && LockMove(s.lk, t.lk, c)
    && PlaceOk(Current(t, c)) && LocksOk(Current(t, c), t.pt, t.lk)
  }

  lemma LocalCpus(s: State, t: State, c: Cpu)
    requires CpusOk(s) && ProcsOk(s) && Local(s, t, c)
    ensures CpusOk(t)
  {
  }

  lemma LocalProcs(s: State, t: State, c: Cpu)
    requires CpusOk(s) && ProcsOk(s) && Local(s, t, c)
    ensures ProcsOk(t)
  {
    var p := s.cpus[c].pid;
    forall q | q in t.procs ensures PlaceOk(t.procs[q]) && LocksOk(t.procs[q], t.pt, t.lk) {
      if q != p {
        OtherLocks(s.procs[q], s.pt, s.lk, t.pt, t.lk, c);
      }
    }
  }

  lemma OtherLocks(q: Proc, pt: Option<Cpu>, lk: Option<Cpu>, pt': Option<Cpu>, lk': Option<Cpu>, c: Cpu)
    requires LocksOk(q, pt, lk) && q.cpu != Some(c) && LockMove(pt, pt', c) && LockMove(lk, lk', c)
    ensures LocksOk(q, pt', lk')
  {
  }

  /** Every step of a process other than swtch is of that kind. */
  lemma StepIsLocal(s: State, c: Cpu)
    requires CpusOk(s) && ProcsOk(s) && Enabled(s, Next(c))
    requires !Current(s, c).pc.SSwitch? && !Current(s, c).pc.YSwitch?
    ensures Local(s, Stepped(s, c), c)
  {
    hide Local, Stepped, CpusOk, ProcsOk;
    ProcFacts(s, c);
    if HoldsLk(Current(s, c).pc) {
      LockedStepIsLocal(s, c);
    } else {
      UnlockedStepIsLocal(s, c);
    }
  }

  lemma LockedStepIsLocal(s: State, c: Cpu)
    requires Enabled(s, Next(c)) && Current(s, c).cpu == Some(c) && PlaceOk(Current(s, c)) && LocksOk(Current(s, c), s.pt, s.lk)
    requires HoldsLk(Current(s, c).pc)
    ensures Local(s, Stepped(s, c), c)
  {
    hide Woken, SwitchOut;
  }

  lemma UnlockedStepIsLocal(s: State, c: Cpu)
    requires Enabled(s, Next(c)) && Current(s, c).cpu == Some(c) && PlaceOk(Current(s, c)) && LocksOk(Current(s, c), s.pt, s.lk)
    requires !HoldsLk(Current(s, c).pc) && !Current(s, c).pc.SSwitch? && !Current(s, c).pc.YSwitch?
    ensures Local(s, Stepped(s, c), c)
  {
  }

  lemma ProcFacts(s: State, c: Cpu)
    requires CpusOk(s) && ProcsOk(s) && OnCpu(s, c)
    ensures Current(s, c).cpu == Some(c) && PlaceOk(Current(s, c)) && LocksOk(Current(s, c), s.pt, s.lk)
  {
  }

  lemma StartIsLocal(s: State, c: Cpu, choice: Choice)
    requires CpusOk(s) && ProcsOk(s) && Enabled(s, Start(c, choice))
    ensures Local(s, Started(s, c, choice), c)
  {
    hide CpusOk, ProcsOk;
    ProcFacts(s, c);
  }

  lemma SwitchCpus(s: State, c: Cpu, pc: PC)
    requires CpusOk(s) && ProcsOk(s) && OnCpu(s, c)
    requires (Current(s, c).pc.SSwitch? && pc == SWoken(Current(s, c).pc.chan)) || (Current(s, c).pc.YSwitch? && pc == YRelease)
    ensures CpusOk(SwitchOut(s, c, pc))
  {
    hide ProcsOk;
    ProcFacts(s, c);
  }

  lemma SwitchProcs(s: State, c: Cpu, pc: PC)
    requires CpusOk(s) && ProcsOk(s) && OnCpu(s, c)
    requires (Current(s, c).pc.SSwitch? && pc == SWoken(Current(s, c).pc.chan)) || (Current(s, c).pc.YSwitch? && pc == YRelease)
    ensures ProcsOk(SwitchOut(s, c, pc))
  {
    ProcFacts(s, c);
  }

  // ---- no lost wakeup ------------------------------------------------------------------------

  /** At most one process holds each lock. */
  lemma Exclusive(s: State, p: Pid, q: Pid)
    requires CpusOk(s) && ProcsOk(s) && p in s.procs && q in s.procs && p != q
    ensures HoldsLk(s.procs[p].pc) ==> !HoldsLk(s.procs[q].pc)
    ensures HoldsPt(s.procs[p].pc) && s.procs[p].cpu.Some? ==> !HoldsPt(s.procs[q].pc) || s.procs[q].cpu.None?
  {
  }

  /** Positions at which a process relies on who is asleep, or on value. */
  predicate Sensitive(pc: PC) {
    pc.UScan? || pc.UReleasePt? || pc.UIncrement? || pc.DDecrement? || pc.SAcquirePt?
  }

  /** Nobody is newly committed to sleep, and the process that moved relies on nothing. */
  lemma PlainKeeps(s: State, t: State, p: Pid)
    requires NoLostWakeup(s) && p in s.procs && p in t.procs && t.procs == s.procs[p := t.procs[p]]
    requires t.value == s.value
    requires Committed(t.procs[p]) ==> Committed(s.procs[p])
    requires Sensitive(t.procs[p].pc) ==> t.procs[p].pc == s.procs[p].pc
    ensures NoLostWakeup(t)
  {
  }

  lemma StepPlain(s: State, c: Cpu, t: State)
    requires CpusOk(s) && ProcsOk(s) && NoLostWakeup(s) && Enabled(s, Next(c)) && t == Stepped(s, c)
    requires s.cpus[c].pid in t.procs && !Sensitive(t.procs[s.cpus[c].pid].pc) && !Sensitive(Current(s, c).pc)
    ensures NoLostWakeup(t)
  {
    hide CpusOk, ProcsOk, NoLostWakeup;
    ProcFacts(s, c);
    PlainKeeps(s, t, s.cpus[c].pid);
  }

  /** sema_down tests value while it holds the semaphore's lock. */
  lemma StepTest(s: State, c: Cpu)
    requires CpusOk(s) && ProcsOk(s) && NoLostWakeup(s) && Enabled(s, Next(c)) && Current(s, c).pc.DTest?
    ensures NoLostWakeup(Stepped(s, c))
  {
    hide CpusOk, ProcsOk;
    var p := s.cpus[c].pid;
    forall q | q in s.procs && q != p ensures !HoldsLk(s.procs[q].pc) {
      Exclusive(s, p, q);
    }
  }

  lemma StepDecrement(s: State, c: Cpu)
    requires CpusOk(s) && ProcsOk(s) && NoLostWakeup(s) && Enabled(s, Next(c)) && Current(s, c).pc.DDecrement?
    ensures NoLostWakeup(Stepped(s, c))
  {
    hide CpusOk, ProcsOk;
    var p := s.cpus[c].pid;
    forall q | q in s.procs && q != p ensures !HoldsLk(s.procs[q].pc) {
      Exclusive(s, p, q);
    }
  }

  lemma StepToSleep(s: State, c: Cpu)
    requires CpusOk(s) && ProcsOk(s) && NoLostWakeup(s) && Enabled(s, Next(c)) && Current(s, c).pc.SAcquirePt?
    ensures NoLostWakeup(Stepped(s, c))
  {
    hide CpusOk, ProcsOk, NoLostWakeup;
    PlainKeeps(s, Stepped(s, c), s.cpus[c].pid);
  }

  lemma StepToScan(s: State, c: Cpu)
    requires CpusOk(s) && ProcsOk(s) && NoLostWakeup(s) && Enabled(s, Next(c)) && Current(s, c).pc.UAcquirePt?
    ensures NoLostWakeup(Stepped(s, c))
  {
    hide CpusOk, ProcsOk;
  }

  /** When the scan is over nobody is asleep on the semaphore, nor can get there: that takes a lock
      which sema_up holds. */
  lemma StepScanned(s: State, c: Cpu)
    requires CpusOk(s) && ProcsOk(s) && NoLostWakeup(s) && Enabled(s, Next(c))
    requires Current(s, c).pc.UScan? || Current(s, c).pc.UReleasePt?
    ensures NoLostWakeup(Stepped(s, c))
  {
    hide CpusOk, ProcsOk;
  }

  lemma StepIncrement(s: State, c: Cpu)
    requires CpusOk(s) && ProcsOk(s) && NoLostWakeup(s) && Enabled(s, Next(c)) && Current(s, c).pc.UIncrement?
    ensures NoLostWakeup(Stepped(s, c))
  {
    hide CpusOk, ProcsOk;
    var p := s.cpus[c].pid;
    forall q | q in s.procs && q != p ensures !HoldsLk(s.procs[q].pc) {
      Exclusive(s, p, q);
    }
  }

  lemma StepNoLost(s: State, c: Cpu)
    requires CpusOk(s) && ProcsOk(s) && NoLostWakeup(s) && Enabled(s, Next(c))
    ensures NoLostWakeup(Stepped(s, c))
  {
    hide CpusOk, ProcsOk, NoLostWakeup;
    var t := Stepped(s, c);
    match Current(s, c).pc
    case DTest => StepTest(s, c);
    case DDecrement => StepDecrement(s, c);
    case SAcquirePt => StepToSleep(s, c);
    case UAcquirePt => StepToScan(s, c);
    case UScan(_) => StepScanned(s, c);
    case UReleasePt => StepScanned(s, c);
    case UIncrement => StepIncrement(s, c);
    case _ => StepPlain(s, c, t);
  }

  lemma StepCount(s: State, c: Cpu)
    requires NoLostWakeup(s) && CountOk(s) && Enabled(s, Next(c))
    ensures CountOk(Stepped(s, c))
  {
    assert Current(s, c).pc.DDecrement? ==> s.value != 0;
    hide NoLostWakeup, SetPc, SwitchOut, HoldsPt, HoldsLk, Committed;
    StepValue(s, c);
  }

  /** Only two steps change value. */
  lemma StepValue(s: State, c: Cpu)
    requires OnCpu(s, c)
    ensures var t, pc := Stepped(s, c), Current(s, c).pc;
      && t.init == s.init
      && (pc.DDecrement? ==> t.value == s.value - 1 && t.downs == s.downs + 1 && t.ups == s.ups)
      && (pc.UIncrement? ==> t.value == s.value + 1 && t.ups == s.ups + 1 && t.downs == s.downs)
      && (!pc.DDecrement? && !pc.UIncrement? ==> t.value == s.value && t.ups == s.ups && t.downs == s.downs)
  {
  }

  lemma KeepNext(s: State, c: Cpu)
    requires Inv(s) && Enabled(s, Next(c))
    ensures Inv(Stepped(s, c))
  {
    hide CpusOk, ProcsOk, NoLostWakeup, CountOk, Local;
    var t := Stepped(s, c);
    match Current(s, c).pc {
      case SSwitch(ch) =>
        SwitchCpus(s, c, SWoken(ch));
        SwitchProcs(s, c, SWoken(ch));
      case YSwitch =>
        SwitchCpus(s, c, YRelease);
        SwitchProcs(s, c, YRelease);
      case _ =>
        StepIsLocal(s, c);
        LocalCpus(s, t, c);
        LocalProcs(s, t, c);
    }
    StepNoLost(s, c);
    StepCount(s, c);
  }

  lemma KeepStart(s: State, c: Cpu, choice: Choice)
    requires Inv(s) && Enabled(s, Start(c, choice))
    ensures Inv(Started(s, c, choice))
  {
    hide CpusOk, ProcsOk, NoLostWakeup, Local;
    var t := Started(s, c, choice);
    StartIsLocal(s, c, choice);
    LocalCpus(s, t, c);
    LocalProcs(s, t, c);
    PlainKeeps(s, t, s.cpus[c].pid);
  }

  // ---- wakeup1, kill and the scheduler --------------------------------------------------------

  /** Waking one process: it sleeps off its CPU, since the waker holds ptable.lock. */
  ghost predicate Wakes(s: State, t: State, c: Cpu, q: Pid, pc: PC) {
    && OnCpu(s, c) && q in s.procs && q in t.procs && s.cpus[c].pid in t.procs
    && t == s.(procs := t.procs)
    && t.procs == s.procs[q := t.procs[q]][s.cpus[c].pid := t.procs[s.cpus[c].pid]]
    && t.procs[s.cpus[c].pid] == Current(s, c).(pc := pc)
    && (q != s.cpus[c].pid ==>
          t.procs[q] == s.procs[q] || (s.procs[q].state.Sleeping? && t.procs[q] == s.procs[q].(state := Runnable)))
  }

  lemma WakesPlace(s: State, t: State, c: Cpu, q: Pid, pc: PC)
    requires CpusOk(s) && ProcsOk(s) && Wakes(s, t, c, q, pc)
    requires (Current(s, c).pc.UScan? && pc.UScan?) || (Current(s, c).pc.KHold? && pc.KRelease?)
    ensures CpusOk(t) && ProcsOk(t)
  {
    WakesCpus(s, t, c, q, pc);
    hide CpusOk;
    var p := s.cpus[c].pid;
    ProcFacts(s, c);
    if q != p {
      Exclusive(s, p, q);
    }
    forall r | r in t.procs ensures PlaceOk(t.procs[r]) && LocksOk(t.procs[r], t.pt, t.lk) {
      assert PlaceOk(s.procs[r]) && LocksOk(s.procs[r], s.pt, s.lk);
    }
  }

  lemma WakesCpus(s: State, t: State, c: Cpu, q: Pid, pc: PC)
    requires CpusOk(s) && Wakes(s, t, c, q, pc)
    ensures CpusOk(t)
  {
    assert forall r :: r in t.procs ==> r in s.procs && t.procs[r].cpu == s.procs[r].cpu;
  }

  lemma ScanCommitted(s: State, c: Cpu, q: Pid)
    requires CpusOk(s) && ProcsOk(s) && Enabled(s, ScanOne(c, q))
    ensures !Committed(Scanned(s, c, q).procs[q])
  {
    var p := s.cpus[c].pid;
    ProcFacts(s, c);
    if q != p {
      Exclusive(s, p, q);
    }
  }

  lemma ScanNoLost(s: State, t: State, p: Pid, q: Pid)
    requires NoLostWakeup(s) && p in s.procs && q in s.procs && p in t.procs && q in t.procs
    requires t.value == s.value && t.procs == s.procs[q := t.procs[q]][p := t.procs[p]]
    requires s.procs[p].pc.UScan? && t.procs[p] == s.procs[p].(pc := UScan(s.procs[p].pc.todo - {q}))
    requires !Committed(t.procs[q]) && !Committed(t.procs[p]) && (q != p ==> t.procs[q].pc == s.procs[q].pc)
    requires forall r :: r in s.procs && r != p ==> !s.procs[r].pc.UScan?
    ensures NoLostWakeup(t)
  {
  }

  lemma KeepScan(s: State, c: Cpu, q: Pid)
    requires Inv(s) && Enabled(s, ScanOne(c, q))
    ensures Inv(Scanned(s, c, q))
  {
    hide CpusOk, ProcsOk, NoLostWakeup, Wakes;
    var p, t := s.cpus[c].pid, Scanned(s, c, q);
    ScannerAwake(s, c);
    ScanWakes(s, c, q);
    WakesPlace(s, t, c, q, t.procs[p].pc);
    ScanCommitted(s, c, q);
    forall r | r in s.procs && r != p ensures !s.procs[r].pc.UScan? {
      Exclusive(s, p, r);
    }
    ScanNoLost(s, t, p, q);
  }

  lemma ScanWakes(s: State, c: Cpu, q: Pid)
    requires Enabled(s, ScanOne(c, q)) && Current(s, c).state.Running?
    ensures Wakes(s, Scanned(s, c, q), c, q, Scanned(s, c, q).procs[s.cpus[c].pid].pc)
  {
  }

  lemma ScannerAwake(s: State, c: Cpu)
    requires CpusOk(s) && ProcsOk(s) && OnCpu(s, c) && Current(s, c).pc.UScan?
    ensures Current(s, c).state.Running?
  {
    ProcFacts(s, c);
  }

  lemma KillNoLost(s: State, t: State, p: Pid, q: Pid)
    requires NoLostWakeup(s) && p in s.procs && q in s.procs && p in t.procs && q in t.procs && p != q
    requires t.value == s.value && t.procs == s.procs[q := t.procs[q]][p := t.procs[p]]
    requires !Committed(t.procs[p]) && !Sensitive(t.procs[p].pc)
    requires t.procs[q].pc == s.procs[q].pc && (Committed(t.procs[q]) ==> Committed(s.procs[q]))
    ensures NoLostWakeup(t)
  {
  }

  lemma KeepKill(s: State, c: Cpu, q: Pid)
    requires Inv(s) && Enabled(s, KillOne(c, q))
    ensures Inv(Killed(s, c, q))
  {
    hide CpusOk, ProcsOk, NoLostWakeup;
    var p, t := s.cpus[c].pid, Killed(s, c, q);
    ProcFacts(s, c);
    WakesPlace(s, t, c, q, KRelease);
    KillNoLost(s, t, p, q);
  }

  lemma PickPlace(s: State, c: Cpu, q: Pid)
    requires CpusOk(s) && ProcsOk(s) && Enabled(s, Pick(c, q))
    ensures CpusOk(Do(s, Pick(c, q))) && ProcsOk(Do(s, Pick(c, q)))
  {
    var t := Do(s, Pick(c, q));
    RunnableIsOff(s, c, q);
    assert PlaceOk(t.procs[q]) && LocksOk(t.procs[q], t.pt, t.lk);
  }

  /** With ptable.lock held by the scheduler, a runnable process is on no CPU. */
  lemma RunnableIsOff(s: State, c: Cpu, q: Pid)
    requires CpusOk(s) && ProcsOk(s) && Enabled(s, Pick(c, q))
    ensures s.procs[q].cpu.None? && PlaceOk(s.procs[q]) && s.pt == Some(c) && s.lk != Some(c)
  {
  }

  lemma KeepPick(s: State, c: Cpu, q: Pid)
    requires Inv(s) && Enabled(s, Pick(c, q))
    ensures Inv(Do(s, Pick(c, q)))
  {
    hide CpusOk, ProcsOk, NoLostWakeup;
    PickPlace(s, c, q);
    PlainKeeps(s, Do(s, Pick(c, q)), q);
  }

  lemma EnterPlace(s: State, c: Cpu)
    requires CpusOk(s) && ProcsOk(s) && Enabled(s, Enter(c))
    ensures CpusOk(Do(s, Enter(c))) && ProcsOk(Do(s, Enter(c)))
  {
  }

  lemma LeavePlace(s: State, c: Cpu)
    requires CpusOk(s) && ProcsOk(s) && Enabled(s, Leave(c))
    ensures CpusOk(Do(s, Leave(c))) && ProcsOk(Do(s, Leave(c)))
  {
  }

  lemma SameProcs(s: State, t: State)
    requires NoLostWakeup(s) && t.procs == s.procs && t.value == s.value
    ensures NoLostWakeup(t)
  {
  }

  lemma KeepStep(s: State, a: Action)
    requires Inv(s) && Enabled(s, a)
    ensures Inv(Do(s, a))
  {
    hide CpusOk, ProcsOk, NoLostWakeup;
    match a {
      case Start(c, choice) => KeepStart(s, c, choice);
      case Next(c) => KeepNext(s, c);
      case ScanOne(c, q) => KeepScan(s, c, q);
      case KillOne(c, q) => KeepKill(s, c, q);
      case Pick(c, q) => KeepPick(s, c, q);
      case Enter(c) =>
        EnterPlace(s, c);
        SameProcs(s, Do(s, a));
      case Leave(c) =>
        LeavePlace(s, c);
        SameProcs(s, Do(s, a));
    }
  }

  // ---- over whole runs -----------------------------------------------------------------------------

  ghost predicate Run(s: State, acts: seq<Action>, t: State)
    decreases |acts|
  {
    if acts == [] then s == t else Enabled(s, acts[0]) && Run(Do(s, acts[0]), acts[1..], t)
  }

  lemma {:induction false} RunInv(s: State, acts: seq<Action>, t: State)
    requires Inv(s) && Run(s, acts, t)
    ensures Inv(t) && t.init == s.init
    decreases |acts|
  {
    hide Inv;
    if acts != [] {
      KeepStep(s, acts[0]);
      RunInv(Do(s, acts[0]), acts[1..], t);
    }
  }

  lemma InitialInv(s: State)
    requires Initial(s)
    ensures Inv(s)
  {
  }

  /** In every state of every run: a positive value and a process asleep on the semaphore exclude
      each other, and value is what sema_init stored, plus the ups, minus the downs. */
  lemma SemaphoreSafety(s: State, acts: seq<Action>, t: State)
    requires Initial(s) && Run(s, acts, t)
    ensures t.value > 0 ==> forall p :: p in t.procs ==> !(t.procs[p].state.Sleeping? && t.procs[p].chan == Some(SEM))
    ensures t.value == s.init + t.ups - t.downs
    ensures 0 <= s.init ==> 0 <= t.value
  {
    hide CpusOk, ProcsOk, Run;
    InitialInv(s);
    RunInv(s, acts, t);
  }

  /** How many locks cpu c holds: what pushcli and popcli count in ncli. */
  function Ncli(s: State, c: Cpu): nat { (if s.pt == Some(c) then 1 else 0) + if s.lk == Some(c) then 1 else 0 }

  /** The panic of acquire is unreachable, and so are those of sched about ptable.lock, ncli and the
      state of the process; each lock has one owner. */
  lemma LockSafety(s: State, acts: seq<Action>, t: State, c: Cpu)
    requires Initial(s) && Run(s, acts, t) && OnCpu(t, c)
    ensures WantsPt(Current(t, c).pc) ==> t.pt != Some(c)
    ensures WantsLk(Current(t, c).pc) ==> t.lk != Some(c)
    ensures Current(t, c).pc.SSwitch? || Current(t, c).pc.YSwitch? ==>
              t.pt == Some(c) && Ncli(t, c) == 1 && !Current(t, c).state.Running?
    ensures forall d :: OnCpu(t, d) && d != c ==>
              t.cpus[d] != t.cpus[c] && !(HoldsPt(Current(t, c).pc) && HoldsPt(Current(t, d).pc))
              && !(HoldsLk(Current(t, c).pc) && HoldsLk(Current(t, d).pc))
  {
    hide Run, NoLostWakeup, CpusOk, ProcsOk;
    InitialInv(s);
    RunInv(s, acts, t);
    ProcFacts(t, c);
    forall d | OnCpu(t, d) && d != c
      ensures t.cpus[d] != t.cpus[c] && !(HoldsPt(Current(t, c).pc) && HoldsPt(Current(t, d).pc))
              && !(HoldsLk(Current(t, c).pc) && HoldsLk(Current(t, d).pc))
    {
      ProcFacts(t, d);
    }
  }
}
