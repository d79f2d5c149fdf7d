/** Every exit is waited for once: how many processes have exited, been collected, and are zombies. */
module ExitWaitCounts {
  import opened Wrappers
  import opened ExitWait
  import opened ExitWaitProof
  import opened ExitWaitTheorems

  ghost function Zombies(s: State): set<Slot> { set i | 0 <= i < |s.procs| && s.procs[i].state.Zombie? }

  /** A round of wait's loop. */
  predicate WaitStep(s: State, a: Action)
    requires Enabled(s, a)
  {
    a.Wait? || (a.Resume? && s.procs[Me(s, a.cpu)].pc.WaitWoken?)
  }

  /** wait returns while its caller has a zombie child: that is when it returns a pid. */
  predicate Collects(s: State, a: Action, t: State)
    requires Enabled(s, a)
  {
    WaitStep(s, a) && |t.procs| == |s.procs| && t.procs[Me(s, a.cpu)].pc.User? && HasZombie(s.procs, Me(s, a.cpu))
  }

  /** An observer counts the calls of exit, and the waits that return a pid. */
  datatype Tally = Tally(exits: nat, collected: nat)

  function Noted(k: Tally, s: State, a: Action, t: State): Tally
    requires Enabled(s, a)
  {
    if a.Exit? then k.(exits := k.exits + 1) else if Collects(s, a, t) then k.(collected := k.collected + 1) else k
  }

  ghost predicate TallyRun(s: State, k: Tally, acts: seq<Action>, t: State, l: Tally)
    decreases |acts|
  {
    if acts == [] then s == t && k == l
    else Enabled(s, acts[0]) && TallyRun(Do(s, acts[0]), Noted(k, s, acts[0], Do(s, acts[0])), acts[1..], t, l)
  }

  /** The caller becomes a zombie, and nobody else does. */
  lemma ExitZombies(s: State, c: Cpu)
    requires Inv(s) && Enabled(s, Exit(c))
    ensures |Zombies(Exited(s, c))| == |Zombies(s)| + 1
  {
    hide HasZombie, CpusOk, ProcsOk, FamilyOk, MakersOk, PidsOk, Inv;
    RunningHere(s, c);
    var t, p := Exited(s, c), Me(s, c);
    assert t.procs[p].state.Zombie? && p !in Zombies(s);
    assert Zombies(t) == Zombies(s) + {p};
  }

  /** A child that was found is a zombie no more; otherwise nothing changes. */
  lemma WaitZombies(s: State, c: Cpu)
    requires Inv(s) && OnCpu(s, c) && s.procs[Me(s, c)].state.Running?
    ensures var t, z := WaitRound(s, c), FindZombie(s.procs, Me(s, c), 0);
      |t.procs| == |s.procs| && Zombies(t) == if z.Some? then Zombies(s) - {z.value} else Zombies(s)
  {
    hide FindZombie, HasChild, Inv;
  }

  lemma FoundIff(s: State, p: Slot)
    ensures FindZombie(s.procs, p, 0).Some? <==> HasZombie(s.procs, p)
  {
    hide FindZombie;
  }

  /** What wait has done when it returns: one zombie child is gone and everybody else is as before; or
      the caller has no child, or was killed. It sleeps only over children that are all alive, and not
      when killed. */
  lemma WaitOutcome(s: State, c: Cpu)
    requires Inv(s) && OnCpu(s, c) && s.procs[Me(s, c)].state.Running?
    ensures var t, p := WaitRound(s, c), Me(s, c);
      && |t.procs| == |s.procs|
      && (t.procs[p].pc.User? ==> CollectedOne(s, t, p) || ((!HasChild(s.procs, p) || s.procs[p].killed) && OthersSame(s, t, p)))
      && (!t.procs[p].pc.User? ==> t.procs[p].state.Asleep? && HasChild(s.procs, p) && !HasZombie(s.procs, p) && !s.procs[p].killed && OthersSame(s, t, p))
      && (HasZombie(s.procs, p) ==> CollectedOne(s, t, p))
  {
    hide FindZombie, HasChild, Inv;
    FoundIff(s, Me(s, c));
  }

  ghost predicate OthersSame(s: State, t: State, p: Slot) {
    |t.procs| == |s.procs| && forall i :: 0 <= i < |s.procs| && i != p ==> t.procs[i] == s.procs[i]
  }

  ghost predicate CollectedOne(s: State, t: State, p: Slot) {
    && |t.procs| == |s.procs|
    && exists z :: 0 <= z < |s.procs| && z != p && s.procs[z].state.Zombie? && s.procs[z].parent == Some(p)
         && t.procs[z].state.Unused? && !t.procs[z].kstack && OthersBut(s, t, p, z)
  }

  ghost predicate OthersBut(s: State, t: State, p: Slot, z: Slot) {
    |t.procs| == |s.procs| && forall i :: 0 <= i < |s.procs| && i != p && i != z ==> t.procs[i] == s.procs[i]
  }

  /** All other steps. */
  lemma OtherZombies(s: State, a: Action)
    requires Inv(s) && Enabled(s, a) && !a.Exit? && !WaitStep(s, a)
    ensures Zombies(Do(s, a)) == Zombies(s)
  {
    hide CpusOk, ProcsOk, FamilyOk, MakersOk, PidsOk, HasZombie, HasChild, FindZombie;
    if a.Stack? || a.Copy? || a.Ready? {
      RunningHere(s, a.cpu);
      MyEmbryo(s, a.cpu);
    } else if a.Resume? || a.SleepOn? || a.Yield? || a.Alloc? {
      RunningHere(s, a.cpu);
    } else if a.Switch? {
      MyFacts(s, a.cpu);
    }
  }

  /** wakeup leaves nobody asleep on its channel, and touches nobody else; kill leaves its target marked
      and awake, and touches nobody else. */
  lemma CallsWake(s: State, a: Action)
    requires Enabled(s, a) && (a.Wakeup? || a.Kill?)
    ensures var t := Do(s, a);
      && |t.procs| == |s.procs|
      && (a.Wakeup? ==> forall i :: 0 <= i < |s.procs| ==>
            && !(t.procs[i].state.Asleep? && t.procs[i].chan == Elsewhere(a.id))
            && t.procs[i] == s.procs[i].(state := if s.procs[i].state.Asleep? && s.procs[i].chan == Elsewhere(a.id) then Runnable else s.procs[i].state))
      && (a.Kill? ==> t.procs[a.q].killed && !t.procs[a.q].state.Asleep? && OthersSame(s, t, a.q))
  {
  }

  ghost predicate TallyOk(s: State, k: Tally) { k.exits == k.collected + |Zombies(s)| }

  lemma KeepTally(s: State, k: Tally, a: Action)
    requires Inv(s) && Enabled(s, a) && TallyOk(s, k)
    ensures TallyOk(Do(s, a), Noted(k, s, a, Do(s, a)))
  {
    hide Inv, HasZombie, HasChild, FindZombie;
    if a.Exit? {
      ExitZombies(s, a.cpu);
    } else if WaitStep(s, a) {
      RunningHere(s, a.cpu);
      WaitZombies(s, a.cpu);
      FoundIff(s, Me(s, a.cpu));
    } else {
      OtherZombies(s, a);
    }
  }

  lemma {:induction false} RunTally(s: State, k: Tally, acts: seq<Action>, t: State, l: Tally)
    requires Inv(s) && TallyOk(s, k) && TallyRun(s, k, acts, t, l)
    ensures Inv(t) && TallyOk(t, l) && Run(s, acts, t)
    decreases |acts|
  {
    hide Inv, TallyOk, Do, Enabled, Noted;
    if acts != [] {
      KeepTally(s, k, acts[0]);
      KeepStep(s, acts[0]);
      RunTally(Do(s, acts[0]), Noted(k, s, acts[0], Do(s, acts[0])), acts[1..], t, l);
    }
  }

  /** Every run can be observed. */
  lemma {:induction false} Observed(s: State, k: Tally, acts: seq<Action>, t: State) returns (l: Tally)
    requires Run(s, acts, t)
    ensures TallyRun(s, k, acts, t, l)
    decreases |acts|
  {
    hide Do, Enabled, Noted;
    if acts == [] {
      return k;
    }
    l := Observed(Do(s, acts[0]), Noted(k, s, acts[0], Do(s, acts[0])), acts[1..], t);
  }

  /** In every state of every run: as many processes have exited as waits have returned a pid, plus
      those that are zombies. So no exit is collected twice, and none gets lost. */
  lemma ExitsCollected(s: State, acts: seq<Action>, t: State, l: Tally)
    requires Initial(s) && TallyRun(s, Tally(0, 0), acts, t, l)
    ensures l.exits == l.collected + |Zombies(t)|
  {
    hide Inv, TallyRun;
    InitialInv(s);
    assert Zombies(s) == {};
    RunTally(s, Tally(0, 0), acts, t, l);
  }
}
