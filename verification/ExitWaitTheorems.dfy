/** What the exit/wait protocol guarantees in every reachable state. */
module ExitWaitTheorems {
  import opened Wrappers
  import opened ExitWait
  import opened ExitWaitProof

  lemma RunningHere(s: State, c: Cpu)
    requires Inv(s) && OnCpu(s, c) && (InUser(s, c) || Resuming(s.procs[Me(s, c)].pc))
    ensures s.procs[Me(s, c)].state.Running?
  {
    hide CpusOk, ProcsOk, FamilyOk, MakersOk, PidsOk;
    MyFacts(s, c);
  }

  lemma KeepFork(s: State, a: Action)
    requires Inv(s) && Enabled(s, a) && (a.Alloc? || a.Stack? || a.Copy? || a.Ready?)
    ensures Inv(Do(s, a))
  {
    hide CpusOk, ProcsOk, FamilyOk, MakersOk, PidsOk, SamePlaces;
    var t := Do(s, a);
    RunningHere(s, a.cpu);
    ForkPlaces(s, a);
    PlacesKept(s, t, a.cpu);
    if a.Copy? && a.ok {
      CopyFamily(s, a.cpu);
    } else {
      ForkFamily(s, a);
    }
    if a.Alloc? {
      ParentsHold(s.procs, a.np);
      AllocMakers(s, a.cpu, a.np);
    } else {
      ForkMakers(s, a);
    }
    ForkPids(s, a);
  }

  lemma ForkPids(s: State, a: Action)
    requires Inv(s) && Enabled(s, a) && (a.Alloc? || a.Stack? || a.Copy? || a.Ready?)
    ensures PidsOk(Do(s, a).procs, Do(s, a).nextpid)
  {
    hide CpusOk, ProcsOk, FamilyOk, MakersOk;
    RunningHere(s, a.cpu);
    if !a.Alloc? {
      MyEmbryo(s, a.cpu);
    }
  }

  lemma KeepExit(s: State, c: Cpu)
    requires Inv(s) && Enabled(s, Exit(c))
    ensures Inv(Exited(s, c))
  {
    hide CpusOk, ProcsOk, FamilyOk, MakersOk, PidsOk, SamePlaces, Exited, HasZombie;
    var t, p := Exited(s, c), Me(s, c);
    RunningHere(s, c);
    ExitPlaces(s, c);
    PlacesKept(s, t, c);
    ExitFamily(s, c);
    ExitMakers(s, c);
    ParentsHold(s.procs, p);
    ExitedSelf(s, c);
    forall i | 0 <= i < |s.procs| && !t.procs[i].state.Unused?
      ensures !s.procs[i].state.Unused? && t.procs[i].pid == s.procs[i].pid
    {
      if i != p {
        ExitedOne(s, c, i);
      }
    }
    ExitKeepsPid(s, c);
    PidsKept(s.procs, t.procs, s.nextpid);
  }

  lemma ExitKeepsPid(s: State, c: Cpu)
    requires OnCpu(s, c) && s.procs[Me(s, c)].parent.Some?
    ensures Exited(s, c).nextpid == s.nextpid
  {
    hide HasZombie;
  }

  lemma KeepWait(s: State, c: Cpu)
    requires Inv(s) && (Enabled(s, Wait(c)) || (Enabled(s, Resume(c)) && s.procs[Me(s, c)].pc.WaitWoken?))
    ensures Inv(WaitRound(s, c))
  {
    hide CpusOk, ProcsOk, FamilyOk, MakersOk, PidsOk, SamePlaces, FindZombie, HasChild;
    var t := WaitRound(s, c);
    RunningHere(s, c);
    WaitPlaces(s, c);
    PlacesKept(s, t, c);
    WaitFamily(s, c);
    WaitMakers(s, c);
    PidsKept(s.procs, t.procs, s.nextpid);
  }

  lemma KeepCall(s: State, a: Action)
    requires Inv(s) && Enabled(s, a)
    requires a.SleepOn? || a.Yield? || a.Wakeup? || a.Kill?
    ensures Inv(Do(s, a))
  {
    hide CpusOk, ProcsOk, FamilyOk, MakersOk, PidsOk, SamePlaces;
    var t := Do(s, a);
    RunningHere(s, a.cpu);
    CallPlaces(s, a);
    PlacesKept(s, t, a.cpu);
    CallFamily(s, a);
    CallMakers(s, a);
    PidsKept(s.procs, t.procs, s.nextpid);
  }

  lemma KeepSchedule(s: State, a: Action)
    requires Inv(s) && Enabled(s, a) && (a.Switch? || a.Pick? || a.Enter? || a.Leave?)
    ensures Inv(Do(s, a))
  {
    hide CpusOk, ProcsOk, FamilyOk, MakersOk, PidsOk;
    var t := Do(s, a);
    match a {
      case Switch(c) => SwitchPlaces(s, c);
      case Pick(c, q) => PickPlaces(s, c, q);
      case _ => EnterLeavePlaces(s, a);
    }
    CallFamily(s, a);
    CallMakers(s, a);
    PidsKept(s.procs, t.procs, s.nextpid);
  }

  lemma KeepResume(s: State, c: Cpu)
    requires Inv(s) && Enabled(s, Resume(c)) && !s.procs[Me(s, c)].pc.WaitWoken?
    ensures Inv(Do(s, Resume(c)))
  {
    hide CpusOk, ProcsOk, FamilyOk, MakersOk, PidsOk;
    var t := Do(s, Resume(c));
    RunningHere(s, c);
    MyFacts(s, c);
    OthersPlaced(s, c);
    PlacesKept(s, t, c);
    CallFamily(s, Resume(c));
    CallMakers(s, Resume(c));
    PidsKept(s.procs, t.procs, s.nextpid);
  }

  lemma KeepStep(s: State, a: Action)
    requires Inv(s) && Enabled(s, a)
    ensures Inv(Do(s, a))
  {
    hide Inv;
    match a
    case Alloc(_, _) => KeepFork(s, a);
    case Stack(_, _) => KeepFork(s, a);
    case Copy(_, _) => KeepFork(s, a);
    case Ready(_) => KeepFork(s, a);
    case Exit(c) => KeepExit(s, c);
    case Wait(c) => KeepWait(s, c);
    case Resume(c) => if s.procs[Me(s, c)].pc.WaitWoken? { KeepWait(s, c); } else { KeepResume(s, c); }
    case SleepOn(_, _) => KeepCall(s, a);
    case Yield(_) => KeepCall(s, a);
    case Wakeup(_, _) => KeepCall(s, a);
    case Kill(_, _) => KeepCall(s, a);
    case _ => KeepSchedule(s, a);
  }

  ghost predicate Run(s: State, acts: seq<Action>, t: State)
    decreases |acts|
  {
    if acts == [] then s == t else Enabled(s, acts[0]) && Run(Do(s, acts[0]), acts[1..], t)
  }

  lemma {:induction false} RunInv(s: State, acts: seq<Action>, t: State)
    requires Inv(s) && Run(s, acts, t)
    ensures Inv(t)
    decreases |acts|
  {
    hide Inv;
    if acts != [] {
      KeepStep(s, acts[0]);
      RunInv(Do(s, acts[0]), acts[1..], t);
    }
  }

  lemma InitialInv(s: State)
    requires Initial(s)
    ensures Inv(s)
  {
    forall i | 0 <= i < |s.procs| ensures ParentOk(s.procs, i) && WaiterOk(s.procs, i) && MakerOk(s.procs, i) {
    }
  }

  /** In every state of every run: nobody sleeps in wait without a child, or over a zombie child;
      every process past EMBRYO but init has a live parent; pids are unique. */
  lemma FamilySafety(s: State, acts: seq<Action>, t: State, i: Slot)
    requires Initial(s) && Run(s, acts, t) && i < |t.procs|
    ensures t.procs[i].state.Asleep? && (t.procs[i].pc.WaitSwitch? || t.procs[i].pc.WaitWoken?) ==>
              HasChild(t.procs, i) && !HasZombie(t.procs, i)
    ensures i != INIT && !t.procs[i].state.Unused? && !t.procs[i].state.Embryo? ==>
              t.procs[i].parent.Some? && t.procs[i].parent.value < |t.procs| && Alive(t.procs[t.procs[i].parent.value])
    ensures forall j :: 0 <= j < |t.procs| && j != i && !t.procs[i].state.Unused? && !t.procs[j].state.Unused? ==>
              t.procs[i].pid != t.procs[j].pid
  {
    hide CpusOk, ProcsOk, MakersOk, HasChild, HasZombie, Run;
    InitialInv(s);
    RunInv(s, acts, t);
    assert ParentOk(t.procs, i) && WaiterOk(t.procs, i);
  }

  /** RUNNING processes and busy CPUs match one to one whenever ptable.lock is free. */
  lemma RunningMatchesCpus(s: State, acts: seq<Action>, t: State)
    requires Initial(s) && Run(s, acts, t) && t.pt.None?
    ensures forall i :: 0 <= i < |t.procs| && t.procs[i].state.Running? ==>
              t.procs[i].cpu.Some? && t.procs[i].cpu.value in t.cpus && t.cpus[t.procs[i].cpu.value] == Exec(i)
    ensures forall c :: c in t.cpus && t.cpus[c].Exec? ==>
              t.cpus[c].slot < |t.procs| && t.procs[t.cpus[c].slot].state.Running?
    ensures forall c, d :: c in t.cpus && d in t.cpus && c != d && t.cpus[c].Exec? ==> t.cpus[c] != t.cpus[d]
  {
    hide FamilyOk, MakersOk, PidsOk, Run;
    InitialInv(s);
    RunInv(s, acts, t);
    forall c | c in t.cpus && t.cpus[c].Exec?
      ensures t.cpus[c].slot < |t.procs| && t.procs[t.cpus[c].slot].state.Running?
    {
      var p := t.procs[t.cpus[c].slot];
      assert PlaceOk(p) && LockOk(p, t.pt);
    }
  }

  /** A step never frees a kernel stack on which a CPU is executing. */
  lemma FreedStackIsIdle(s: State, acts: seq<Action>, t: State, a: Action, z: Slot)
    requires Initial(s) && Run(s, acts, t) && Enabled(t, a) && z < |t.procs| && |Do(t, a).procs| == |t.procs|
    requires t.procs[z].kstack && !Do(t, a).procs[z].kstack
    ensures forall c :: c in t.cpus ==> t.cpus[c] != Exec(z)
  {
    hide FamilyOk, PidsOk, Run, FindZombie;
    InitialInv(s);
    RunInv(s, acts, t);
    FreedStack(t, a, z);
  }

  lemma FreedStack(t: State, a: Action, z: Slot)
    requires Inv(t) && Enabled(t, a) && z < |t.procs| && |Do(t, a).procs| == |t.procs|
    requires t.procs[z].kstack && !Do(t, a).procs[z].kstack
    ensures t.procs[z].cpu.None?
  {
    hide CpusOk, ProcsOk, FamilyOk, MakersOk, PidsOk, FindZombie, HasChild, HasZombie, Exited;
    match a {
      case Stack(c, _) => RunningHere(t, c); MyEmbryo(t, c);
      case Copy(c, _) => RunningHere(t, c); MyEmbryo(t, c);
      case Exit(c) => ExitKeepsStack(t, c, z);
      case Wait(c) => ReapedIsIdle(t, c, z);
      case Resume(c) => ReapedIsIdle(t, c, z);
      case _ =>
    }
  }

  lemma ExitKeepsStack(t: State, c: Cpu, z: Slot)
    requires OnCpu(t, c) && t.procs[Me(t, c)].parent.Some? && z < |t.procs|
    ensures |Exited(t, c).procs| == |t.procs| && Exited(t, c).procs[z].kstack == t.procs[z].kstack
  {
    hide HasZombie;
  }

  /** wait holds ptable.lock, which a dying process gives back only after leaving its stack. */
  lemma ReapedIsIdle(t: State, c: Cpu, z: Slot)
    requires Inv(t) && OnCpu(t, c) && (Enabled(t, Wait(c)) || Enabled(t, Resume(c)))
    requires z < |t.procs| && z != Me(t, c) && t.procs[z].state.Zombie?
    ensures t.procs[z].cpu.None?
  {
    hide FamilyOk, MakersOk, PidsOk;
    MyFacts(t, c);
    OthersPlaced(t, c);
  }
}
