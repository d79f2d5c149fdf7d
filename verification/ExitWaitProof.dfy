/** Every step keeps the exit/wait invariant. */
module ExitWaitProof {
  import opened Wrappers
  import opened ExitWait

  // ---- placement ------------------------------------------------------------------------------

  lemma MyFacts(s: State, c: Cpu)
    requires CpusOk(s.procs, s.cpus, s.pt) && ProcsOk(s.procs, s.pt) && OnCpu(s, c)
    ensures var me := s.procs[Me(s, c)]; me.cpu == Some(c) && PlaceOk(me) && LockOk(me, s.pt)
  {
  }

  /** Slots keep their CPUs, except that nothing else changes; c may take or give back the lock. */
  ghost predicate SamePlaces(s: State, t: State, c: Cpu) {
    && t.cpus == s.cpus && |t.procs| == |s.procs| && OnCpu(s, c)
    && (forall i :: 0 <= i < |s.procs| ==> t.procs[i].cpu == s.procs[i].cpu)
    && LockMove(s.pt, t.pt, c)
    && (forall i :: 0 <= i < |s.procs| && i != Me(s, c) ==>
          PlaceOk(t.procs[i]) && (s.procs[i].cpu.Some? ==> t.procs[i].pc == s.procs[i].pc))
    && PlaceOk(t.procs[Me(s, c)]) && LockOk(t.procs[Me(s, c)], t.pt)
  }

  lemma PlacesKept(s: State, t: State, c: Cpu)
    requires CpusOk(s.procs, s.cpus, s.pt) && ProcsOk(s.procs, s.pt) && SamePlaces(s, t, c)
    ensures CpusOk(t.procs, t.cpus, t.pt) && ProcsOk(t.procs, t.pt)
  {
    var p := Me(s, c);
    MyFacts(s, c);
    forall i | 0 <= i < |t.procs| ensures PlaceOk(t.procs[i]) && LockOk(t.procs[i], t.pt) {
      if i != p && s.procs[i].cpu.Some? {
        assert s.cpus[s.procs[i].cpu.value] == Exec(i);
        assert s.procs[i].cpu != Some(c);
        assert LockOk(s.procs[i], s.pt);
      }
    }
  }

  lemma SwitchPlaces(s: State, c: Cpu)
    requires CpusOk(s.procs, s.cpus, s.pt) && ProcsOk(s.procs, s.pt) && Enabled(s, Switch(c))
    ensures var t := SwitchedOut(s, c); CpusOk(t.procs, t.cpus, t.pt) && ProcsOk(t.procs, t.pt)
  {
    MyFacts(s, c);
  }

  lemma PickPlaces(s: State, c: Cpu, q: Slot)
    requires CpusOk(s.procs, s.cpus, s.pt) && ProcsOk(s.procs, s.pt) && Enabled(s, Pick(c, q))
    ensures var t := Do(s, Pick(c, q)); CpusOk(t.procs, t.cpus, t.pt) && ProcsOk(t.procs, t.pt)
  {
    PickedIsOff(s, c, q);
    var t := Do(s, Pick(c, q));
    forall i | 0 <= i < |t.procs| ensures PlaceOk(t.procs[i]) && LockOk(t.procs[i], t.pt) {
      assert PlaceOk(s.procs[i]) && LockOk(s.procs[i], s.pt);
    }
  }

  lemma PickedIsOff(s: State, c: Cpu, q: Slot)
    requires CpusOk(s.procs, s.cpus, s.pt) && ProcsOk(s.procs, s.pt) && Enabled(s, Pick(c, q))
    ensures s.pt == Some(c) && s.procs[q].cpu.None? && Resuming(s.procs[q].pc)
  {
    assert s.pt == Some(c) && LockOk(s.procs[q], s.pt) && PlaceOk(s.procs[q]);
  }

  lemma EnterLeavePlaces(s: State, a: Action)
    requires CpusOk(s.procs, s.cpus, s.pt) && ProcsOk(s.procs, s.pt) && Enabled(s, a) && (a.Enter? || a.Leave?)
    ensures var t := Do(s, a); CpusOk(t.procs, t.cpus, t.pt) && ProcsOk(t.procs, t.pt)
  {
  }

  /** Others keep their place in a step of the process on c. */
  lemma OthersPlaced(s: State, c: Cpu)
    requires CpusOk(s.procs, s.cpus, s.pt) && ProcsOk(s.procs, s.pt) && OnCpu(s, c)
    ensures forall i :: 0 <= i < |s.procs| && i != Me(s, c) ==> s.procs[i].cpu != Some(c) && PlaceOk(s.procs[i]) && LockOk(s.procs[i], s.pt)
  {
  }

  /** A process that is forking owns an embryo which runs nowhere. */
  lemma MyEmbryo(s: State, c: Cpu)
    requires CpusOk(s.procs, s.cpus, s.pt) && ProcsOk(s.procs, s.pt) && MakersOk(s.procs)
    requires OnCpu(s, c) && Forking(s.procs[Me(s, c)].work)
    ensures var p := Me(s, c); var np := s.procs[p].work.np;
      && np < |s.procs| && np != p && s.procs[np].state.Embryo? && s.procs[np].cpu.None? && s.procs[np].maker == Some(p)
      && (s.procs[p].work.ForkReady? <==> s.procs[np].parent == Some(p))
      && (s.procs[np].parent.Some? ==> s.procs[np].parent == Some(p))
      && (s.procs[p].work.ForkStack? <==> !s.procs[np].kstack)
  {
    hide CpusOk;
    assert MakerOk(s.procs, Me(s, c)) && MakerOk(s.procs, s.procs[Me(s, c)].work.np);
  }

  /** A step of fork by p changes how far p is, and the slot np, which runs nowhere. */
  ghost predicate ForkShape(s: State, t: State, p: Slot, np: Slot) {
    && p < |s.procs| && np < |s.procs| && np != p && |t.procs| == |s.procs|
    && t == s.(procs := s.procs[np := t.procs[np]][p := t.procs[p]], nextpid := t.nextpid)
    && t.procs[p] == s.procs[p].(work := t.procs[p].work)
    && s.procs[np].cpu.None? && t.procs[np].cpu.None? && PlaceOk(t.procs[np])
  }

  lemma AllocShape(s: State, c: Cpu, np: Slot)
    requires CpusOk(s.procs, s.cpus, s.pt) && ProcsOk(s.procs, s.pt) && Enabled(s, Alloc(c, np))
    ensures ForkShape(s, Allocated(s, c, np), Me(s, c), np)
  {
    hide CpusOk, ProcsOk;
    MyFacts(s, c);
    OthersPlaced(s, c);
  }

  lemma LaterShape(s: State, a: Action)
    requires CpusOk(s.procs, s.cpus, s.pt) && ProcsOk(s.procs, s.pt) && MakersOk(s.procs)
    requires Enabled(s, a) && (a.Stack? || a.Copy? || a.Ready?)
    ensures ForkShape(s, Do(s, a), Me(s, a.cpu), s.procs[Me(s, a.cpu)].work.np)
  {
    hide CpusOk, ProcsOk, MakersOk;
    MyEmbryo(s, a.cpu);
  }

  lemma ShapePlaces(s: State, t: State, c: Cpu, np: Slot)
    requires CpusOk(s.procs, s.cpus, s.pt) && ProcsOk(s.procs, s.pt) && OnCpu(s, c) && ForkShape(s, t, Me(s, c), np)
    ensures SamePlaces(s, t, c)
  {
    hide CpusOk, ProcsOk;
    MyFacts(s, c);
    OthersPlaced(s, c);
  }

  lemma ForkPlaces(s: State, a: Action)
    requires CpusOk(s.procs, s.cpus, s.pt) && ProcsOk(s.procs, s.pt) && MakersOk(s.procs)
    requires Enabled(s, a) && (a.Alloc? || a.Stack? || a.Copy? || a.Ready?)
    ensures SamePlaces(s, Do(s, a), a.cpu)
  {
    hide CpusOk, ProcsOk, MakersOk, ForkShape, SamePlaces;
    if a.Alloc? {
      AllocShape(s, a.cpu, a.np);
      ShapePlaces(s, Do(s, a), a.cpu, a.np);
    } else {
      LaterShape(s, a);
      ShapePlaces(s, Do(s, a), a.cpu, s.procs[Me(s, a.cpu)].work.np);
    }
  }

  lemma CallPlaces(s: State, a: Action)
    requires CpusOk(s.procs, s.cpus, s.pt) && ProcsOk(s.procs, s.pt) && Enabled(s, a)
    requires a.SleepOn? || a.Yield? || a.Wakeup? || a.Kill?
    ensures SamePlaces(s, Do(s, a), a.cpu)
  {
    hide CpusOk, ProcsOk;
    MyFacts(s, a.cpu);
    OthersPlaced(s, a.cpu);
  }

  lemma ExitPlaces(s: State, c: Cpu)
    requires CpusOk(s.procs, s.cpus, s.pt) && ProcsOk(s.procs, s.pt) && Enabled(s, Exit(c))
    ensures SamePlaces(s, Exited(s, c), c)
  {
    hide CpusOk, ProcsOk, HasZombie;
    MyFacts(s, c);
    OthersPlaced(s, c);
  }

  lemma WaitPlaces(s: State, c: Cpu)
    requires CpusOk(s.procs, s.cpus, s.pt) && ProcsOk(s.procs, s.pt) && OnCpu(s, c)
    requires (InUser(s, c) && s.pt.None?) || (Resuming(s.procs[Me(s, c)].pc) && s.procs[Me(s, c)].state.Running?)
    ensures SamePlaces(s, WaitRound(s, c), c)
  {
    hide CpusOk, ProcsOk, HasChild, FindZombie;
    MyFacts(s, c);
    OthersPlaced(s, c);
  }

  // ---- parents and children -------------------------------------------------------------------------

  /** Nobody changes parents, dies or newly sleeps in wait. */
  ghost predicate KinKept(ps: seq<Proc>, qs: seq<Proc>) {
    && |qs| == |ps|
    && forall i :: 0 <= i < |ps| ==> KinKeptOne(ps[i], qs[i], i)
  }

  predicate KinKeptOne(p: Proc, q: Proc, i: Slot) {
    && q.parent == p.parent
    && (q.state.Zombie? <==> p.state.Zombie?)
    && (Alive(p) ==> Alive(q))
    && (q.state.Asleep? && q.chan.WaitOf? ==> p.state.Asleep? && p.chan == q.chan)
    && (q.state.Asleep? && (q.pc.WaitSwitch? || q.pc.WaitWoken?) ==> q.chan.WaitOf? || (p.state.Asleep? && (p.pc.WaitSwitch? || p.pc.WaitWoken?) && p.chan == q.chan))
    && (q.parent.Some? ==> !q.state.Unused?)
    && (0 < i && !q.state.Unused? && !q.state.Embryo? ==> q.parent.Some?)
  }

  lemma ChildrenKept(ps: seq<Proc>, qs: seq<Proc>, p: Slot)
    requires KinKept(ps, qs)
    ensures HasChild(ps, p) ==> HasChild(qs, p)
    ensures HasZombie(qs, p) ==> HasZombie(ps, p)
  {
    if HasChild(ps, p) {
      var i :| 0 <= i < |ps| && ps[i].parent == Some(p);
      assert KinKeptOne(ps[i], qs[i], i);
      assert qs[i].parent == Some(p);
    }
    if HasZombie(qs, p) {
      var i :| 0 <= i < |qs| && qs[i].parent == Some(p) && qs[i].state.Zombie?;
      assert KinKeptOne(ps[i], qs[i], i);
      assert ps[i].parent == Some(p) && ps[i].state.Zombie?;
    }
  }

  lemma FamilyKept(ps: seq<Proc>, qs: seq<Proc>)
    requires FamilyOk(ps) && KinKept(ps, qs)
    ensures FamilyOk(qs)
  {
    hide HasChild, HasZombie;
    forall i | 0 <= i < |qs| ensures ParentOk(qs, i) && WaiterOk(qs, i) {
      assert ParentOk(ps, i) && WaiterOk(ps, i) && KinKeptOne(ps[i], qs[i], i);
      if ps[i].parent.Some? {
        var p := ps[i].parent.value;
        assert KinKeptOne(ps[p], qs[p], p);
      }
      ChildrenKept(ps, qs, i);
    }
  }

  /** Everything but fork's parent write, exit, wait. */
  lemma CallFamily(s: State, a: Action)
    requires Inv(s) && Enabled(s, a)
    requires a.SleepOn? || a.Yield? || a.Wakeup? || a.Kill? || a.Switch? || a.Pick? || a.Enter? || a.Leave?
             || (a.Resume? && !s.procs[Me(s, a.cpu)].pc.WaitWoken?)
    ensures FamilyOk(Do(s, a).procs)
  {
    hide CpusOk, ProcsOk, MakersOk, PidsOk, HasChild, HasZombie, WaiterOk;
    if !a.Pick? && !a.Enter? && !a.Leave? {
      MyFacts(s, a.cpu);
    }
    var qs := Do(s, a).procs;
    forall i | 0 <= i < |qs| ensures KinKeptOne(s.procs[i], qs[i], i) {
      assert ParentOk(s.procs, i);
    }
    FamilyKept(s.procs, qs);
  }

  lemma ForkFamily(s: State, a: Action)
    requires Inv(s) && Enabled(s, a) && (a.Alloc? || a.Stack? || (a.Copy? && !a.ok) || a.Ready?)
    ensures FamilyOk(Do(s, a).procs)
  {
    hide CpusOk, ProcsOk, MakersOk, PidsOk, HasChild, HasZombie, WaiterOk;
    MyFacts(s, a.cpu);
    if !a.Alloc? {
      MyEmbryo(s, a.cpu);
    }
    var qs := Do(s, a).procs;
    forall i | 0 <= i < |qs| ensures KinKeptOne(s.procs[i], qs[i], i) {
      assert ParentOk(s.procs, i);
    }
    FamilyKept(s.procs, qs);
  }

  lemma ParentFamily(ps: seq<Proc>, qs: seq<Proc>, p: Slot, np: Slot)
    requires FamilyOk(ps) && p < |ps| && np < |ps| && p != np && ps[np].state.Embryo? && Alive(ps[p]) && !ps[p].state.Asleep?
    requires ps[np].parent.None?
    requires |qs| == |ps| && qs == ps[np := ps[np].(parent := Some(p))][p := qs[p]]
    requires qs[p] == ps[p].(work := qs[p].work)
    ensures FamilyOk(qs)
  {
    hide HasChild, HasZombie;
    forall i | 0 <= i < |qs| ensures ParentOk(qs, i) && WaiterOk(qs, i) {
      assert ParentOk(ps, i) && WaiterOk(ps, i);
      assert ParentOk(ps, INIT);
      KinGrows(ps, qs, p, np, i);
    }
  }

  /** A new child that is no zombie adds to the children, not to the zombies. */
  lemma KinGrows(ps: seq<Proc>, qs: seq<Proc>, p: Slot, np: Slot, i: Slot)
    requires |ps| == |qs| && np < |ps| && p < |ps| && !ps[np].state.Zombie? && ps[np].parent.None?
    requires forall j :: 0 <= j < |ps| && j != np ==> qs[j].parent == ps[j].parent && qs[j].state == ps[j].state
    requires qs[np].state == ps[np].state
    ensures HasChild(ps, i) ==> HasChild(qs, i)
    ensures HasZombie(qs, i) ==> HasZombie(ps, i)
  {
    if HasChild(ps, i) {
      var w :| 0 <= w < |ps| && ps[w].parent == Some(i);
      assert qs[w].parent == Some(i);
    }
    if HasZombie(qs, i) {
      var z :| 0 <= z < |qs| && qs[z].parent == Some(i) && qs[z].state.Zombie?;
      assert ps[z].parent == Some(i) && ps[z].state.Zombie?;
    }
  }

  lemma CopyFamily(s: State, c: Cpu)
    requires Inv(s) && Enabled(s, Copy(c, true))
    ensures FamilyOk(Do(s, Copy(c, true)).procs)
  {
    hide CpusOk, ProcsOk, MakersOk, PidsOk, HasChild, HasZombie;
    MyFacts(s, c);
    MyEmbryo(s, c);
    ParentFamily(s.procs, Do(s, Copy(c, true)).procs, Me(s, c), s.procs[Me(s, c)].work.np);
  }

  /** What exit of p makes of another slot. */
  ghost predicate ExitedSlot(ps: seq<Proc>, qs: seq<Proc>, p: Slot, i: Slot)
    requires i < |ps| == |qs| && p < |ps| && ps[p].parent.Some?
  {
    var o, q := ps[i], qs[i];
    && q.parent == (if o.parent == Some(p) then Some(INIT) else o.parent)
    && (q == o.(parent := q.parent) || (o.state.Asleep? && q == o.(parent := q.parent, state := Runnable)))
    && (o.state.Asleep? && o.chan == WaitOf(ps[p].parent.value) ==> q.state.Runnable?)
    && (o.state.Asleep? && o.chan == WaitOf(INIT) && HasZombie(ps, p) ==> q.state.Runnable?)
  }

  lemma ExitedOne(s: State, c: Cpu, i: Slot)
    requires OnCpu(s, c) && s.procs[Me(s, c)].parent.Some? && i < |s.procs| && i != Me(s, c)
    ensures |Exited(s, c).procs| == |s.procs| && ExitedSlot(s.procs, Exited(s, c).procs, Me(s, c), i)
  {
    var p := Me(s, c);
    var w := WakeAll(s.procs, WaitOf(s.procs[p].parent.value));
    if HasZombie(s.procs, p) {
      var z :| 0 <= z < |s.procs| && s.procs[z].parent == Some(p) && s.procs[z].state.Zombie?;
      assert w[z].parent == Some(p) && w[z].state.Zombie?;
    }
  }

  lemma ExitedSelf(s: State, c: Cpu)
    requires OnCpu(s, c) && s.procs[Me(s, c)].parent.Some? && s.procs[Me(s, c)].parent != Some(Me(s, c))
    requires !s.procs[Me(s, c)].state.Asleep?
    ensures |Exited(s, c).procs| == |s.procs|
    ensures var p := Me(s, c); Exited(s, c).procs[p] == s.procs[p].(state := Zombie, pc := ExitSwitch)
  {
    hide HasZombie;
  }

  /** exit wakes whoever waits for the new zombie: its parent, and init if it inherits one. */
  lemma ExitedSleepers(ps: seq<Proc>, qs: seq<Proc>, p: Slot, i: Slot)
    requires FamilyOk(ps) && 0 < p < |ps| == |qs| && ps[p].parent.Some?
    requires qs[p] == ps[p].(state := Zombie, pc := ExitSwitch)
    requires forall j :: 0 <= j < |qs| && j != p ==> ExitedSlot(ps, qs, p, j)
    requires i < |qs| && qs[i].state.Asleep? && qs[i].chan.WaitOf?
    ensures qs[i].chan == WaitOf(i) && HasChild(qs, i) && !HasZombie(qs, i)
  {
    assert WaiterOk(ps, i) && ParentOk(ps, p);
    assert i != p && ExitedSlot(ps, qs, p, i);
    var w :| 0 <= w < |ps| && ps[w].parent == Some(i);
    assert qs[w].parent == Some(i) by {
      if w != p {
        assert ExitedSlot(ps, qs, p, w);
      }
    }
    forall z | 0 <= z < |qs| && qs[z].parent == Some(i) ensures !qs[z].state.Zombie? {
      if z != p {
        assert ExitedSlot(ps, qs, p, z);
      }
    }
  }

  lemma ExitedFamily(ps: seq<Proc>, qs: seq<Proc>, p: Slot)
    requires FamilyOk(ps) && 0 < p < |ps| == |qs| && ps[p].parent.Some?
    requires qs[p] == ps[p].(state := Zombie, pc := ExitSwitch)
    requires forall i :: 0 <= i < |qs| && i != p ==> ExitedSlot(ps, qs, p, i)
    ensures FamilyOk(qs)
  {
    hide HasChild, HasZombie;
    assert ParentOk(ps, INIT) && ExitedSlot(ps, qs, p, INIT);
    forall i | 0 <= i < |qs| ensures ParentOk(qs, i) && WaiterOk(qs, i) {
      assert ParentOk(ps, i) && WaiterOk(ps, i);
      if i != p {
        assert ExitedSlot(ps, qs, p, i);
      }
      if qs[i].parent.Some? {
        var q := qs[i].parent.value;
        if q != p {
          assert ExitedSlot(ps, qs, p, q);
        }
      }
      if qs[i].state.Asleep? && qs[i].chan.WaitOf? {
        ExitedSleepers(ps, qs, p, i);
      }
    }
  }

  lemma ExitFamily(s: State, c: Cpu)
    requires FamilyOk(s.procs) && Enabled(s, Exit(c)) && s.procs[Me(s, c)].state.Running?
    ensures FamilyOk(Exited(s, c).procs)
  {
    hide HasChild, HasZombie, Exited, ExitedSlot;
    assert ParentOk(s.procs, Me(s, c));
    var p, qs := Me(s, c), Exited(s, c).procs;
    ExitedSelf(s, c);
    forall i | 0 <= i < |qs| && i != p ensures ExitedSlot(s.procs, qs, p, i) {
      ExitedOne(s, c, i);
    }
    ExitedFamily(s.procs, qs, p);
  }

  /** Reaping a zombie: nobody's parent is a zombie, so only its own parent can notice. */
  lemma ReapFamily(ps: seq<Proc>, qs: seq<Proc>, p: Slot, z: Slot)
    requires FamilyOk(ps) && p < |ps| == |qs| && z < |ps| && z != p && ps[z].state.Zombie? && ps[z].parent == Some(p)
    requires ps[p].state.Running?
    requires qs == ps[z := Reaped(ps[z])][p := ps[p].(chan := NoChan, pc := User)]
    ensures FamilyOk(qs)
  {
    hide HasChild, HasZombie;
    forall i | 0 <= i < |qs| ensures ParentOk(qs, i) && WaiterOk(qs, i) {
      assert ParentOk(ps, i) && WaiterOk(ps, i);
      if i != p {
        ReapKin(ps, qs, p, z, i);
      }
    }
  }

  lemma ReapKin(ps: seq<Proc>, qs: seq<Proc>, p: Slot, z: Slot, i: Slot)
    requires |ps| == |qs| && z < |ps| && ps[z].parent == Some(p) && qs[z].parent.None? && i != p
    requires forall j :: 0 <= j < |ps| && j != z ==> qs[j].parent == ps[j].parent && qs[j].state == ps[j].state
    ensures HasChild(ps, i) ==> HasChild(qs, i)
    ensures HasZombie(qs, i) ==> HasZombie(ps, i)
  {
    if HasChild(ps, i) {
      var w :| 0 <= w < |ps| && ps[w].parent == Some(i);
      assert qs[w].parent == Some(i);
    }
    if HasZombie(qs, i) {
      var y :| 0 <= y < |qs| && qs[y].parent == Some(i) && qs[y].state.Zombie?;
      assert ps[y].parent == Some(i) && ps[y].state.Zombie?;
    }
  }

  lemma WaitFamily(s: State, c: Cpu)
    requires FamilyOk(s.procs) && OnCpu(s, c) && s.procs[Me(s, c)].state.Running?
    ensures FamilyOk(WaitRound(s, c).procs)
  {
    hide FindZombie;
    var p, qs := Me(s, c), WaitRound(s, c).procs;
    match FindZombie(s.procs, p, 0) {
      case Some(z) => ReapFamily(s.procs, qs, p, z);
      case None => WaitNoneFamily(s.procs, qs, p);
    }
  }

  lemma WaitNoneFamily(ps: seq<Proc>, qs: seq<Proc>, p: Slot)
    requires FamilyOk(ps) && p < |ps| == |qs| && ps[p].state.Running? && qs == ps[p := qs[p]]
    requires qs[p] == ps[p].(chan := NoChan, pc := User)
      || (qs[p] == ps[p].(state := Asleep, chan := WaitOf(p), pc := WaitSwitch) && HasChild(ps, p) && !HasZombie(ps, p))
    ensures FamilyOk(qs)
  {
    hide HasChild, HasZombie;
    forall i | 0 <= i < |qs| ensures ParentOk(qs, i) && WaiterOk(qs, i) {
      assert ParentOk(ps, i) && WaiterOk(ps, i);
      SameKin(ps, qs, i);
    }
  }

  lemma SameKin(ps: seq<Proc>, qs: seq<Proc>, i: Slot)
    requires |ps| == |qs|
    requires forall j :: 0 <= j < |ps| ==> qs[j].parent == ps[j].parent && (qs[j].state.Zombie? <==> ps[j].state.Zombie?)
    ensures HasChild(ps, i) ==> HasChild(qs, i)
    ensures HasZombie(qs, i) ==> HasZombie(ps, i)
  {
    if HasChild(ps, i) {
      var w :| 0 <= w < |ps| && ps[w].parent == Some(i);
      assert qs[w].parent == Some(i);
    }
    if HasZombie(qs, i) {
      var y :| 0 <= y < |qs| && qs[y].parent == Some(i) && qs[y].state.Zombie?;
      assert ps[y].parent == Some(i) && ps[y].state.Zombie?;
    }
  }

  // ---- forks in progress, kernel stacks, pids ------------------------------------------------------

  /** A step that takes no part in a fork. */
  predicate MakingKept(p: Proc, q: Proc) {
    && q.work == p.work && q.maker == p.maker && q.kstack == p.kstack
    && (q.state.Embryo? <==> p.state.Embryo?) && (q.state.Unused? <==> p.state.Unused?)
    && (p.state.Embryo? ==> q.parent == p.parent)
    && (Forking(q.work) ==> (q.state.Running? || q.state.Runnable?) && !q.pc.WaitWoken?)
  }

  lemma MakersKept(ps: seq<Proc>, qs: seq<Proc>)
    requires MakersOk(ps) && |qs| == |ps| && forall i :: 0 <= i < |ps| ==> MakingKept(ps[i], qs[i])
    ensures MakersOk(qs)
  {
    forall i | 0 <= i < |qs| ensures MakerOk(qs, i) {
      assert MakerOk(ps, i) && MakingKept(ps[i], qs[i]);
      if Forking(ps[i].work) {
        assert MakingKept(ps[ps[i].work.np], qs[ps[i].work.np]);
      }
      if ps[i].maker.Some? {
        assert MakingKept(ps[ps[i].maker.value], qs[ps[i].maker.value]);
      }
    }
  }

  lemma CallMakers(s: State, a: Action)
    requires Inv(s) && Enabled(s, a)
    requires a.SleepOn? || a.Yield? || a.Wakeup? || a.Kill? || a.Switch? || a.Pick? || a.Enter? || a.Leave?
             || (a.Resume? && !s.procs[Me(s, a.cpu)].pc.WaitWoken?)
    ensures MakersOk(Do(s, a).procs)
  {
    hide CpusOk, ProcsOk, FamilyOk, PidsOk;
    if !a.Pick? && !a.Enter? && !a.Leave? {
      MyFacts(s, a.cpu);
    }
    var qs := Do(s, a).procs;
    forall i | 0 <= i < |qs| ensures MakingKept(s.procs[i], qs[i]) {
      assert MakerOk(s.procs, i);
    }
    MakersKept(s.procs, qs);
  }

  lemma ExitMakers(s: State, c: Cpu)
    requires Inv(s) && Enabled(s, Exit(c)) && s.procs[Me(s, c)].state.Running?
    ensures MakersOk(Exited(s, c).procs)
  {
    hide CpusOk, ProcsOk, FamilyOk, PidsOk, Exited, HasZombie;
    var p, qs := Me(s, c), Exited(s, c).procs;
    assert ParentOk(s.procs, p) by {
      assert FamilyOk(s.procs);
      ParentsHold(s.procs, p);
    }
    ExitedSelf(s, c);
    forall i | 0 <= i < |qs| ensures MakingKept(s.procs[i], qs[i]) {
      assert MakerOk(s.procs, i) && MakerOk(s.procs, p);
      if i != p {
        ExitedOne(s, c, i);
      }
    }
    MakersKept(s.procs, qs);
  }

  lemma ParentsHold(procs: seq<Proc>, i: Slot)
    requires FamilyOk(procs) && i < |procs|
    ensures ParentOk(procs, i)
  {
  }

  /** A reaped slot was neither forking nor being forked. */
  lemma ReapMakers(ps: seq<Proc>, qs: seq<Proc>, p: Slot, z: Slot)
    requires MakersOk(ps) && p < |ps| == |qs| && z < |ps| && z != p && ps[z].state.Zombie? && ps[p].state.Running?
    requires qs == ps[z := Reaped(ps[z])][p := ps[p].(chan := NoChan, pc := User)]
    ensures MakersOk(qs)
  {
    assert MakerOk(ps, z);
    forall i | 0 <= i < |qs| ensures MakerOk(qs, i) {
      assert MakerOk(ps, i);
      if ps[i].maker.Some? {
        assert MakerOk(ps, ps[i].maker.value);
      }
      if Forking(ps[i].work) {
        assert MakerOk(ps, ps[i].work.np);
      }
    }
  }

  lemma WaitMakers(s: State, c: Cpu)
    requires MakersOk(s.procs) && OnCpu(s, c) && s.procs[Me(s, c)].state.Running?
    requires s.procs[Me(s, c)].work.NoWork? || s.procs[Me(s, c)].pc.WaitWoken?
    ensures MakersOk(WaitRound(s, c).procs)
  {
    hide FindZombie, HasChild;
    var p, qs := Me(s, c), WaitRound(s, c).procs;
    match FindZombie(s.procs, p, 0) {
      case Some(z) => ReapMakers(s.procs, qs, p, z);
      case None =>
        forall i | 0 <= i < |qs| ensures MakingKept(s.procs[i], qs[i]) {
          assert MakerOk(s.procs, i) && MakerOk(s.procs, p);
        }
        MakersKept(s.procs, qs);
    }
  }

  lemma AllocMakers(s: State, c: Cpu, np: Slot)
    requires MakersOk(s.procs) && Enabled(s, Alloc(c, np)) && s.procs[Me(s, c)].state.Running?
    requires s.procs[np].parent.None?
    ensures MakersOk(Allocated(s, c, np).procs)
  {
    var ps, qs := s.procs, Allocated(s, c, np).procs;
    forall i | 0 <= i < |qs| ensures MakerOk(qs, i) {
      assert MakerOk(ps, i) && MakerOk(ps, np) && MakerOk(ps, Me(s, c));
    }
  }

  lemma StackMakers(s: State, a: Action)
    requires Inv(s) && Enabled(s, a) && a.Stack?
    ensures MakersOk(Do(s, a).procs)
  {
    hide CpusOk, ProcsOk, FamilyOk, PidsOk, PlaceOk, LockOk;
    MyFacts(s, a.cpu);
    MyEmbryo(s, a.cpu);
    var p, qs := Me(s, a.cpu), Do(s, a).procs;
    var np := s.procs[p].work.np;
    forall i | 0 <= i < |qs| ensures MakerOk(qs, i) {
      assert MakerOk(s.procs, i) && MakerOk(s.procs, np) && MakerOk(s.procs, p);
    }
  }

  lemma CopyMakers(s: State, a: Action)
    requires Inv(s) && Enabled(s, a) && a.Copy?
    ensures MakersOk(Do(s, a).procs)
  {
    hide CpusOk, ProcsOk, FamilyOk, PidsOk, PlaceOk, LockOk;
    MyFacts(s, a.cpu);
    MyEmbryo(s, a.cpu);
    var p, qs := Me(s, a.cpu), Do(s, a).procs;
    var np := s.procs[p].work.np;
    forall i | 0 <= i < |qs| ensures MakerOk(qs, i) {
      assert MakerOk(s.procs, i) && MakerOk(s.procs, np) && MakerOk(s.procs, p);
    }
  }

  lemma ReadyMakers(s: State, a: Action)
    requires Inv(s) && Enabled(s, a) && a.Ready?
    ensures MakersOk(Do(s, a).procs)
  {
    hide CpusOk, ProcsOk, FamilyOk, PidsOk, PlaceOk, LockOk;
    MyFacts(s, a.cpu);
    MyEmbryo(s, a.cpu);
    var p, qs := Me(s, a.cpu), Do(s, a).procs;
    var np := s.procs[p].work.np;
    forall i | 0 <= i < |qs| ensures MakerOk(qs, i) {
      assert MakerOk(s.procs, i) && MakerOk(s.procs, np) && MakerOk(s.procs, p);
    }
  }

  lemma ForkMakers(s: State, a: Action)
    requires Inv(s) && Enabled(s, a) && (a.Stack? || a.Copy? || a.Ready?)
    ensures MakersOk(Do(s, a).procs)
  {
    hide Inv, MakersOk, Enabled, Do;
    if a.Stack? {
      StackMakers(s, a);
    } else if a.Copy? {
      CopyMakers(s, a);
    } else {
      ReadyMakers(s, a);
    }
  }

  lemma PidsKept(ps: seq<Proc>, qs: seq<Proc>, nextpid: nat)
    requires PidsOk(ps, nextpid) && |qs| == |ps|
    requires forall i :: 0 <= i < |ps| && !qs[i].state.Unused? ==> !ps[i].state.Unused? && qs[i].pid == ps[i].pid
    ensures PidsOk(qs, nextpid)
  {
  }
}
