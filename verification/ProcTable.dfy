/** The table scans of proc.c as loops over ptable.proc, proved against the functions that the
    exit/wait transition system uses. */
module ProcTable {
  import opened Wrappers
  import opened ExitWait

  /** wakeup1. */
  method Wakeup1(procs: array<Proc>, chan: Chan)
    modifies procs
    ensures procs[..] == WakeAll(old(procs[..]), chan)
    ensures forall i :: 0 <= i < procs.Length ==> !(procs[i].state.Asleep? && procs[i].chan == chan)
    ensures forall i :: 0 <= i < procs.Length && !(old(procs[i]).state.Asleep? && old(procs[i]).chan == chan) ==> procs[i] == old(procs[i])
    ensures forall i :: 0 <= i < procs.Length ==> procs[i] == old(procs[i]) || (procs[i].state.Runnable? && procs[i] == old(procs[i]).(state := Runnable))
  {
    var i := 0;
    while i < procs.Length
      invariant 0 <= i <= procs.Length
      invariant forall j :: 0 <= j < i ==> procs[j] == WokenOne(old(procs[j]), chan)
      invariant forall j :: i <= j < procs.Length ==> procs[j] == old(procs[j])
    {
      if procs[i].state.Asleep? && procs[i].chan == chan {
        procs[i] := procs[i].(state := Runnable);
      }
      i := i + 1;
    }
  }

  /** The loop in exit that passes children to init, waking init once for every zombie among them. */
  method PassChildren(procs: array<Proc>, p: Slot)
    requires p != INIT
    modifies procs
    ensures procs[..] == Adopted(old(procs[..]), p)
  {
    ghost var was := procs[..];
    ghost var woke := false;
    var i := 0;
    while i < procs.Length
      invariant 0 <= i <= procs.Length
      invariant woke <==> exists j :: 0 <= j < i && was[j].parent == Some(p) && was[j].state.Zombie?
      invariant forall j :: 0 <= j < i ==> procs[j] == MaybeWoken(AdoptedOne(was[j], p), woke)
      invariant forall j :: i <= j < procs.Length ==> procs[j] == MaybeWoken(was[j], woke)
    {
      if procs[i].parent == Some(p) {
        procs[i] := procs[i].(parent := Some(INIT));
        if procs[i].state.Zombie? {
          Wakeup1(procs, WaitOf(INIT));
          woke := true;
        }
      }
      i := i + 1;
    }
    assert woke <==> HasZombie(was, p);
  }

  ghost function MaybeWoken(p: Proc, woke: bool): Proc {
    if woke then WokenOne(p, WaitOf(INIT)) else p
  }

  /** wait's scan: the first zombie child, and whether there are children at all. */
  method ScanChildren(procs: array<Proc>, p: Slot) returns (zombie: Option<Slot>, havekids: bool)
    ensures zombie == FindZombie(procs[..], p, 0)
    ensures zombie.None? ==> (havekids <==> HasChild(procs[..], p))
  {
    havekids := false;
    var i := 0;
    while i < procs.Length
      invariant 0 <= i <= procs.Length
      invariant FindZombie(procs[..], p, 0) == FindZombie(procs[..], p, i)
      invariant havekids <==> exists j :: 0 <= j < i && procs[..][j].parent == Some(p)
    {
      if procs[i].parent == Some(p) {
        assert procs[..][i].parent == Some(p);
        havekids := true;
        if procs[i].state.Zombie? {
          return Some(i), true;
        }
      }
      i := i + 1;
    }
    return None, havekids;
  }
}
