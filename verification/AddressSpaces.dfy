/** Taking an address space apart (vm.c): freevm. */
module AddressSpaces {
  import opened Wrappers
  import opened PageTable
  import opened PageSteps
  import opened VirtualMemory

  /** All spaces but the one with directory d are as they were, page by page. */
  ghost predicate OthersKept(s: Space, u: Space, d: nat) {
    && (forall e, v: nat :: IsDir(s, e) && e != d && v < PAGES ==> SameAt(s, u, e, v))
    && (forall f :: f in s.own && s.own[f].User? && s.own[f].d != d ==> SamePageOf(s, u, f))
  }

  ghost predicate SameAt(s: Space, u: Space, e: nat, v: nat)
    requires IsDir(s, e) && v < PAGES
  {
    IsDir(u, e) && Lookup(u, e, v) == Lookup(s, e, v) && (TableOf(s, e, v).Some? ==> TableOf(u, e, v) == TableOf(s, e, v))
  }

  ghost predicate SamePageOf(s: Space, u: Space, f: nat)
    requires f in s.own
  {
    f in s.mem && f in u.mem && f in u.own && u.own[f] == s.own[f] && u.mem[f] == s.mem[f]
  }

  lemma SteadyOthers(s: Space, u: Space, d: nat, lo: nat, hi: nat)
    requires Steady(s, u, d, lo, hi)
    ensures OthersKept(s, u, d)
  {
    hide Lookup, TableOf;
    forall e, v: nat | IsDir(s, e) && e != d && v < PAGES ensures SameAt(s, u, e, v) {
      assert Agrees(s, u, d, lo, hi, e, v);
    }
    forall f | f in s.own && s.own[f].User? && s.own[f].d != d ensures SamePageOf(s, u, f) {
      assert PageKept(s, u, d, lo, hi, f);
    }
  }

  lemma OthersTrans(s: Space, t: Space, u: Space, d: nat)
    requires OthersKept(s, t, d) && OthersKept(t, u, d)
    ensures OthersKept(s, u, d)
  {
    hide Lookup, TableOf;
    forall e, v: nat | IsDir(s, e) && e != d && v < PAGES ensures SameAt(s, u, e, v) {
      assert SameAt(s, t, e, v);
      assert SameAt(t, u, e, v);
    }
    forall f | f in s.own && s.own[f].User? && s.own[f].d != d ensures SamePageOf(s, u, f) {
      assert SamePageOf(s, t, f);
      assert SamePageOf(t, u, f);
    }
  }

  // ---- freevm ------------------------------------------------------------------------------------------

  predicate Belongs(f: nat, r: Role, d: nat) { f == d || ((r.Table? || r.User?) && r.d == d) }

  /** u is s without the space of d: its directory, tables and pages have no role any more. */
  ghost predicate SpaceGone(s: Space, u: Space, d: nat) {
    && (forall f :: f in u.own ==> f in s.own && u.own[f] == s.own[f])
    && (forall f :: f in s.own ==> (f in u.own <==> !Belongs(f, s.own[f], d)))
  }

  /** The directory and the tables of d are about to be freed. */
  function Unmounted(own: map<nat, Role>, d: nat): map<nat, Role> {
    map f | f in own :: if f == d || (own[f].Table? && own[f].d == d) then Held else own[f]
  }

  lemma UnmountDirs(s: Space, u: Space, d: nat, e: nat)
    requires u == Space(s.mem, Unmounted(s.own, d)) && IsDir(u, e)
    ensures e != d && IsDir(s, e)
  {
  }

  lemma UnmountKeeps(s: Space, d: nat)
    requires SpaceOk(s) && IsDir(s, d) && forall f :: f in s.own && s.own[f].User? ==> s.own[f].d != d
    ensures SpaceOk(Space(s.mem, Unmounted(s.own, d)))
  {
    var u := Space(s.mem, Unmounted(s.own, d));
    hide Lookup, TableOf;
    forall e, x: nat | IsDir(u, e) && x < ENTRIES ensures DirOk(u, e, x) {
      UnmountDirs(s, u, d, e);
      assert DirOk(s, e, x);
    }
    forall e, v: nat | IsDir(u, e) && v < USER ensures UserOk(u, e, v) {
      UnmountDirs(s, u, d, e);
      assert UserOk(s, e, v);
      UnmountLookup(s, d, e, v);
    }
    forall f | f in u.own ensures RoleOk(u, f) {
      assert RoleOk(s, f);
      if s.own[f].User? {
        UnmountLookup(s, d, s.own[f].d, s.own[f].v);
      }
    }
  }

  lemma UnmountLookup(s: Space, d: nat, e: nat, v: nat)
    requires IsDir(s, e) && v < PAGES
    ensures var u := Space(s.mem, Unmounted(s.own, d)); e in u.mem && Lookup(u, e, v) == Lookup(s, e, v) && TableOf(u, e, v) == TableOf(s, e, v)
  {
  }

  lemma UnmountOthers(s: Space, d: nat)
    requires SpaceOk(s) && IsDir(s, d)
    ensures OthersKept(s, Space(s.mem, Unmounted(s.own, d)), d)
  {
    var u := Space(s.mem, Unmounted(s.own, d));
    hide Lookup, TableOf;
    forall e, v: nat | IsDir(s, e) && e != d && v < PAGES ensures SameAt(s, u, e, v) {
      UnmountLookup(s, d, e, v);
    }
    forall f | f in s.own && s.own[f].User? && s.own[f].d != d ensures SamePageOf(s, u, f) {
      assert RoleOk(s, f);
    }
  }

  /** freevm has freed the tables before entry i; s is the space before the first of them. */
  ghost predicate Dismantled(s: Space, u: Space, d: nat, i: nat) {
    && d in s.mem && d in u.mem && u.mem[d] == s.mem[d] && u.mem.Keys == s.mem.Keys && OthersKept(s, u, d)
    && (forall f :: f in u.own ==> f in s.own)
    && (forall f :: f in s.own ==> (f in u.own <==> !FreedTable(s.own[f], d, i)))
    && (forall f :: f in u.own ==> u.own[f] == Unmounted(s.own, d)[f])
  }

  predicate FreedTable(r: Role, d: nat, i: nat) { r.Table? && r.d == d && r.x < i }

  lemma DismantleStarts(s: Space, d: nat)
    requires SpaceOk(s) && IsDir(s, d)
    ensures Dismantled(s, Space(s.mem, Unmounted(s.own, d)), d, 0)
  {
    UnmountOthers(s, d);
  }

  /** Entry i of the directory, if present, names a table that is still held. */
  lemma NextTable(s: Space, u: Space, d: nat, i: nat)
    requires SpaceOk(s) && IsDir(s, d) && SpaceOk(u) && Dismantled(s, u, d, i) && i < ENTRIES && Present(u.mem[d][i])
    ensures var t := AddrOf(u.mem[d][i]); t in u.own && u.own[t].Held? && t in u.mem && t != d && t in s.own && s.own[t] == Table(d, i)
  {
    hide Lookup, TableOf, OthersKept;
    assert DirOk(s, d, i);
    assert RoleOk(u, AddrOf(u.mem[d][i]));
  }

  lemma DismantleTable(s: Space, u: Space, t: Space, d: nat, i: nat)
    requires SpaceOk(s) && IsDir(s, d) && SpaceOk(u) && Dismantled(s, u, d, i) && i < ENTRIES && Present(u.mem[d][i])
    requires SpareStep(u, t, AddrOf(u.mem[d][i])) && t.own == u.own - {AddrOf(u.mem[d][i])}
    ensures Dismantled(s, t, d, i + 1)
  {
    hide Lookup, TableOf, OthersKept, Steady, SpaceOk;
    var f := AddrOf(u.mem[d][i]);
    NextTable(s, u, d, i);
    SpareSteady(u, t, f, d, 0, 0);
    SteadyOthers(u, t, d, 0, 0);
    OthersTrans(s, u, t, d);
    forall g | g in s.own && s.own[g] == Table(d, i) ensures g == f {
      TableAt(s, d, i, g);
    }
  }

  lemma TableAt(s: Space, d: nat, x: nat, f: nat)
    requires SpaceOk(s) && f in s.own && s.own[f] == Table(d, x) && d in s.mem && x < ENTRIES
    ensures Present(Pde(s, d, x)) && AddrOf(Pde(s, d, x)) == f
  {
    assert RoleOk(s, f);
  }

  lemma DismantleSkip(s: Space, u: Space, d: nat, i: nat)
    requires SpaceOk(s) && IsDir(s, d) && Dismantled(s, u, d, i) && i < ENTRIES && !Present(u.mem[d][i])
    ensures Dismantled(s, u, d, i + 1)
  {
    hide Lookup, TableOf, OthersKept, SpaceOk;
    forall g | g in s.own && s.own[g] == Table(d, i) ensures false {
      TableAt(s, d, i, g);
    }
  }

  /** freevm: everything that belongs to the space goes back to the free list, once, and nothing else. */
  method FreeVm(vm: Vm, d: nat)
    requires vm.Valid() && IsDir(vm.Now(), d)
    modifies vm
    ensures vm.Valid() && SpaceGone(old(vm.Now()), vm.Now(), d) && OthersKept(old(vm.Now()), vm.Now(), d)
    ensures vm.mem.Keys == old(vm.mem.Keys)
    ensures forall f :: f in old(vm.own) && Belongs(f, old(vm.own)[f], d) ==> f in vm.free
  {
    hide SpaceOk, PoolOk, Steady, UserLess, Lookup, TableOf, SpaceGone, OthersKept, Dismantled, Unmounted;
    ghost var s := vm.Now();
    assert Up(0) == 0 && Up(USER * PGSIZE) == USER;
    var sz := vm.DeallocUvm(d, USER * PGSIZE, 0);
    ghost var u := vm.Now();
    SteadyOthers(s, u, d, 0, USER);
    NoUserLeft(s, u, d);
    FreeTables(vm, d);
    ghost var w := vm.Now();
    OthersTrans(s, u, w, d);
    DismantledDir(u, w, d);
    vm.Kfree(d);
    SpareSteady(w, vm.Now(), d, d, 0, 0);
    SteadyOthers(w, vm.Now(), d, 0, 0);
    OthersTrans(s, w, vm.Now(), d);
    AllGone(s, u, w, vm.Now(), d);
    GoneListed(s, vm.Now(), vm.free, d);
  }

  /** Distinct is part of PoolOk: each page is on the list once. */
  lemma GoneListed(s: Space, u: Space, free: seq<nat>, d: nat)
    requires SpaceOk(s) && PoolOk(u.mem, u.own, free) && SpaceGone(s, u, d) && u.mem.Keys == s.mem.Keys
    ensures forall f :: f in s.own && Belongs(f, s.own[f], d) ==> f in free
  {
    hide Lookup, TableOf;
    forall f | f in s.own && Belongs(f, s.own[f], d) ensures f in free {
      assert RoleOk(s, f);
    }
  }

  /** freevm's loop over the page directory. */
  method FreeTables(vm: Vm, d: nat)
    requires vm.Valid() && IsDir(vm.Now(), d) && forall f :: f in vm.own && vm.own[f].User? ==> vm.own[f].d != d
    modifies vm
    ensures vm.Valid() && Dismantled(old(vm.Now()), vm.Now(), d, ENTRIES) && OthersKept(old(vm.Now()), vm.Now(), d)
    ensures vm.mem.Keys == old(vm.mem.Keys)
  {
    hide SpaceOk, PoolOk, OthersKept, Dismantled;
    ghost var s := vm.Now();
    UnmountKeeps(s, d);
    DismantleStarts(s, d);
    PoolSame(vm.mem, vm.own, vm.free, vm.mem, Unmounted(vm.own, d));
    vm.own := Unmounted(vm.own, d);
    var i := 0;
    while i < ENTRIES
      invariant 0 <= i <= ENTRIES && vm.Valid() && Dismantled(s, vm.Now(), d, i)
    {
      ghost var u := vm.Now();
      DismantledHas(s, u, d, i);
      if Present(vm.mem[d][i]) {
        NextTable(s, u, d, i);
        vm.Kfree(AddrOf(vm.mem[d][i]));
        DismantleTable(s, u, vm.Now(), d, i);
      } else {
        DismantleSkip(s, u, d, i);
      }
      i := i + 1;
    }
    DismantledHas(s, vm.Now(), d, i);
  }

  lemma DismantledHas(s: Space, u: Space, d: nat, i: nat)
    requires Dismantled(s, u, d, i)
    ensures d in u.mem && OthersKept(s, u, d) && u.mem.Keys == s.mem.Keys
  {
  }

  lemma DismantledDir(s: Space, u: Space, d: nat)
    requires IsDir(s, d) && Dismantled(s, u, d, ENTRIES)
    ensures d in u.own && u.own[d].Held? && d in u.mem
  {
  }

  lemma NoUserLeft(s: Space, u: Space, d: nat)
    requires SpaceOk(u) && UserLess(s, u, d, 0, USER)
    ensures forall f :: f in u.own && u.own[f].User? ==> u.own[f].d != d
  {
    hide Lookup, TableOf;
    forall f | f in u.own && u.own[f].User? ensures u.own[f].d != d {
      assert RoleOk(u, f);
    }
  }

  lemma AllGone(s: Space, u: Space, w: Space, t: Space, d: nat)
    requires SpaceOk(s) && IsDir(s, d) && SpaceOk(u) && IsDir(u, d)
    requires UserLess(s, u, d, 0, USER) && Dismantled(u, w, d, ENTRIES) && t.own == w.own - {d}
    ensures SpaceGone(s, t, d)
  {
    hide Lookup, TableOf, OthersKept;
    forall f | f in s.own ensures f in t.own <==> !Belongs(f, s.own[f], d) {
      assert RoleOk(s, f);
    }
  }
}
