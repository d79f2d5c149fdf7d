/** copyuvm (vm.c), and inputs at which the calls that make address spaces lose memory. */
module CopySpaces {
  import opened Wrappers
  import opened PageTable
  import opened PageSteps
  import opened PageCounts
  import opened VirtualMemory
  import opened KernelMaps
  import opened AddressSpaces

  /** Page v of the space of c in u holds what page v of the space of d holds in s, with the same
      permissions, in a physical page that had no role in s. */
  ghost predicate CopyOf(s: Space, u: Space, d: nat, c: nat, v: nat) {
    && v < USER && IsDir(s, d) && IsDir(u, c) && Lookup(s, d, v).Some? && Lookup(u, c, v).Some?
    && FlagsOf(Lookup(u, c, v).value) == FlagsOf(Lookup(s, d, v).value)
    && var f, g := AddrOf(Lookup(s, d, v).value), AddrOf(Lookup(u, c, v).value);
       g !in s.own && f in s.mem && g in u.mem && u.mem[g] == s.mem[f]
  }

  /** Pages below a have been copied from the space of d in s to the new space of c. */
  ghost predicate Copied(s: Space, u: Space, d: nat, c: nat, a: nat, lost: Option<nat>) {
    && c !in s.own && IsDir(s, d) && Steady(s, u, 0, 0, 0) && OwnersGrow(s.own, u.own) && UserEmpty(u, c, a)
    && (forall v: nat :: v < a && v < USER ==> CopyOf(s, u, d, c, v)) && u.mem.Keys == s.mem.Keys
    && (forall f :: f in u.own && f !in s.own ==> Belongs(f, u.own[f], c) || lost == Some(f)) && Leaked(s.own, u.own, lost)
  }

  lemma CopyStarts(s: Space, u: Space, d: nat, c: nat)
    requires IsDir(s, d) && NewSpace(s, u, c) && u.mem.Keys == s.mem.Keys
    ensures Copied(s, u, d, c, 0, None)
  {
  }

  lemma CopiedFacts(s: Space, u: Space, d: nat, c: nat, a: nat, lost: Option<nat>)
    requires SpaceOk(s) && Copied(s, u, d, c, a, lost) && a < USER
    ensures IsDir(u, d) && IsDir(u, c) && Lookup(u, d, a) == Lookup(s, d, a) && Lookup(u, c, a).None?
    ensures Lookup(s, d, a).Some? ==>
      var f := AddrOf(Lookup(s, d, a).value); f in s.mem && f in u.mem && u.mem[f] == s.mem[f]
  {
    hide Lookup, TableOf;
    SteadyAt(s, u, 0, 0, 0, d, a);
    assert UserOk(s, d, a);
    if Lookup(s, d, a).Some? {
      assert PageKept(s, u, 0, 0, 0, AddrOf(Lookup(s, d, a).value));
    }
  }

  lemma CopyNext(s: Space, u: Space, t: Space, d: nat, c: nat, a: nat, m: nat, w: nat, mapped: bool)
    requires SpaceOk(s) && SpaceOk(u) && Copied(s, u, d, c, a, None) && a < USER && Steady(u, t, c, a, a + 1)
    requires Lookup(s, d, a) == Some(w) && m !in u.own && IsDir(t, c) && OwnersGrow(u.own, t.own) && t.mem.Keys == u.mem.Keys
    requires Lookup(t, c, a) == if mapped then Some(Entry(m, FlagsOf(w))) else None
    requires m in t.mem && AddrOf(w) in s.mem && t.mem[m] == s.mem[AddrOf(w)]
    requires m in t.own && t.own[m] == if mapped then User(c, a) else Held
    requires forall g :: g in t.own && g !in u.own && g != m ==> t.own[g].Table? && t.own[g].d == c
    ensures Copied(s, t, d, c, if mapped then a + 1 else a, if mapped then None else Some(m))
  {
    hide Lookup, TableOf, Steady, Entry, CopyOf, SpaceOk, UserEmpty;
    SteadyForeign(s, u, t, c, a, a + 1);
    forall v: nat | v < a && v < USER ensures CopyOf(s, t, d, c, v) {
      CopyKept(s, u, t, d, c, a, v);
    }
    EmptyNext(u, t, c, a, mapped);
    if mapped {
      CopyMade(s, t, d, c, a, m, w);
    }
  }

  lemma EmptyNext(u: Space, t: Space, c: nat, a: nat, mapped: bool)
    requires UserEmpty(u, c, a) && a < USER && Steady(u, t, c, a, a + 1) && IsDir(t, c) && (!mapped ==> Lookup(t, c, a).None?)
    ensures UserEmpty(t, c, if mapped then a + 1 else a)
  {
    hide Lookup, TableOf, Steady;
    forall v: nat | a + 1 <= v < USER ensures Lookup(t, c, v).None? {
      SteadyAt(u, t, c, a, a + 1, c, v);
    }
  }

  lemma CopyKept(s: Space, u: Space, t: Space, d: nat, c: nat, a: nat, v: nat)
    requires SpaceOk(u) && Steady(u, t, c, a, a + 1) && v < a && CopyOf(s, u, d, c, v)
    ensures CopyOf(s, t, d, c, v)
  {
    hide Lookup, TableOf;
    SteadyAt(u, t, c, a, a + 1, c, v);
    assert UserOk(u, c, v);
    assert PageKept(u, t, c, a, a + 1, AddrOf(Lookup(u, c, v).value));
  }

  lemma CopyMade(s: Space, t: Space, d: nat, c: nat, a: nat, m: nat, w: nat)
    requires a < USER && IsDir(s, d) && IsDir(t, c) && Lookup(s, d, a) == Some(w)
    requires Lookup(t, c, a) == Some(Entry(m, FlagsOf(w))) && m !in s.own && m in t.mem && AddrOf(w) in s.mem && t.mem[m] == s.mem[AddrOf(w)]
    ensures CopyOf(s, t, d, c, a)
  {
    assert FlagsOf(w) % 2 == w % 2;
  }

  lemma CopiedDir(s: Space, u: Space, d: nat, c: nat, a: nat, lost: Option<nat>)
    requires Copied(s, u, d, c, a, lost)
    ensures IsDir(u, c)
  {
    hide Lookup, Steady;
  }

  /** Roles as they were, but for the lost page. */
  function Less(own: map<nat, Role>, lost: Option<nat>): map<nat, Role> {
    if lost.None? then own else own[lost.value := Held]
  }

  /** After a failed copy has been freed, s is as it was, but for a page that got lost. */
  lemma CopyUndone(s: Space, u: Space, t: Space, d: nat, c: nat, a: nat, lost: Option<nat>)
    requires SpaceOk(s) && Copied(s, u, d, c, a, lost) && SpaceGone(u, t, c) && OthersKept(u, t, c)
    ensures Steady(s, t, 0, 0, 0) && OwnersGrow(s.own, t.own)
    ensures t.own == Less(s.own, lost) && (lost.Some? ==> lost.value !in s.own)
  {
    hide Lookup, TableOf, CopyOf;
    forall f | f in s.own ensures f in t.own && t.own[f] == s.own[f] && PageKept(s, t, 0, 0, 0, f) {
      assert RoleOk(s, f) && PageKept(s, u, 0, 0, 0, f);
      assert !Belongs(f, s.own[f], c);
      assert u.own[f].User? ==> SamePageOf(u, t, f);
    }
    forall e | IsDir(s, e) ensures IsDir(t, e) {
      assert IsDir(u, e) && SameAt(u, t, e, 0);
    }
    forall e, v: nat | IsDir(s, e) && v < PAGES ensures Agrees(s, t, 0, 0, 0, e, v) {
      assert Agrees(s, u, 0, 0, 0, e, v) && SameAt(u, t, e, v);
    }
  }

  // ---- how many pages a copy takes ----------------------------------------------------------------------

  /** A directory, the tables of the kernel's lines, and p user pages with a table for every 1024. */
  ghost function CopyNeed(kmap: seq<KernelMap>, p: nat): nat {
    1 + |LineTables(kmap)| + p + (p + ENTRIES - 1) / ENTRIES
  }

  ghost predicate AllThere(s: Space, d: nat, p: nat) {
    IsDir(s, d) && forall v: nat :: v < p && v < USER ==> Lookup(s, d, v).Some?
  }

  /** Memory ends between a page and its table: v is the first page of a new table. */
  ghost predicate CopyLost(s: Space, d: nat, kmap: seq<KernelMap>, n: nat, p: nat) {
    Apart(kmap) && exists v: nat :: v < p && v % ENTRIES == 0 && n == CopyNeed(kmap, v) + 1 && AllThere(s, d, v + 1)
  }

  lemma FirstOfTable(v: nat)
    ensures v / ENTRIES !in TablesFor(0, v) <==> v % ENTRIES == 0
  {
    if v % ENTRIES != 0 {
      assert (v - 1) / ENTRIES == v / ENTRIES && (v - 1) / ENTRIES in TablesFor(0, v);
    } else {
      forall u: nat | u < v ensures u / ENTRIES != v / ENTRIES {
      }
    }
  }

  lemma ExtraIsFirst(w: Space, c: nat, kmap: seq<KernelMap>, v: nat)
    requires TablesAre(w, c, LineTables(kmap)) && v < USER
    ensures Extra(w, c, 0, v) <==> v % ENTRIES == 0
  {
    hide LineTables;
    FirstOfTable(v);
    if v / ENTRIES in LineTables(kmap) {
      LineTablesHigh(kmap, v / ENTRIES);
    }
  }

  lemma {:induction false} FreshNeed(w: Space, c: nat, kmap: seq<KernelMap>, a: nat)
    requires TablesAre(w, c, LineTables(kmap)) && a <= USER
    ensures Need(w, c, 0, a) == a + (a + ENTRIES - 1) / ENTRIES
  {
    hide LineTables, Need, Extra;
    if a == 0 {
      NeedNone(w, c, 0);
    } else {
      FreshNeed(w, c, kmap, a - 1);
      NeedNext(w, c, 0, a - 1);
      ExtraIsFirst(w, c, kmap, a - 1);
    }
  }

  /** setupkvm left m of n pages. */
  ghost predicate Left(w: Space, c: nat, kmap: seq<KernelMap>, n: nat, m: nat) {
    TablesAre(w, c, LineTables(kmap)) && n == m + 1 + |LineTables(kmap)| && Apart(kmap)
  }

  lemma LostIsSome(s: Space, d: nat, kmap: seq<KernelMap>, n: nat, w: Space, m: nat, c: nat, p: nat)
    requires Left(w, c, kmap, n, m) && p <= USER && CopyLost(s, d, kmap, n, p)
    ensures SomeLost(w, m, c, 0, p)
  {
    hide LineTables, TablesAre, Need, Extra, AllThere;
    var v: nat :| v < p && v % ENTRIES == 0 && n == CopyNeed(kmap, v) + 1 && AllThere(s, d, v + 1);
    FreshNeed(w, c, kmap, v);
    ExtraIsFirst(w, c, kmap, v);
  }

  lemma SomeIsLost(s: Space, d: nat, kmap: seq<KernelMap>, n: nat, w: Space, m: nat, c: nat, a: nat, p: nat)
    requires Left(w, c, kmap, n, m) && a <= p <= USER && AllThere(s, d, a) && SomeLost(w, m, c, 0, a)
    ensures CopyLost(s, d, kmap, n, p)
  {
    hide LineTables, Need, Extra, Lookup;
    var v: nat :| v < a && Extra(w, c, 0, v) && m == Need(w, c, 0, v) + 1;
    FreshNeed(w, c, kmap, v);
    ExtraIsFirst(w, c, kmap, v);
    assert n == CopyNeed(kmap, v) + 1 && AllThere(s, d, v + 1);
  }

  lemma NoKernelNoCopy(s: Space, d: nat, kmap: seq<KernelMap>, n: nat, p: nat)
    requires !(Apart(kmap) && n >= 1 + |LineTables(kmap)|)
    ensures !CopyLost(s, d, kmap, n, p) && !(Apart(kmap) && n >= CopyNeed(kmap, p))
    ensures n < 1 + |LineTables(kmap)| ==> n < CopyNeed(kmap, p)
  {
    hide Apart, LineTables, AllThere;
  }

  /** The whole account, when page a was not there, could not be taken, or was lost, or all are copied. */
  lemma CopyAccount(s: Space, d: nat, kmap: seq<KernelMap>, n: nat, w: Space, m: nat, u: Space, l: nat, c: nat, a: nat, p: nat, lost: Option<nat>)
    requires Left(w, c, kmap, n, m) && Counted(w, m, u, l, c, 0, a, lost) && a <= p <= USER && IsDir(s, d) && AllThere(s, d, a)
    requires lost.None? && a < p ==> l == 0 || Lookup(s, d, a).None?
    ensures lost.Some? <==> CopyLost(s, d, kmap, n, p)
    ensures lost.None? && a == p ==> n >= CopyNeed(kmap, p)
    ensures lost.Some? || (a < p && l == 0) ==> n < CopyNeed(kmap, p)
  {
    hide LineTables, TablesAre, Need, Extra, Lookup, SomeLost, AllThere, CopyLost;
    FreshNeed(w, c, kmap, a);
    FreshNeed(w, c, kmap, p);
    CountEnds(w, m, u, l, c, 0, a, lost);
    if lost.Some? {
      SomeIsLost(s, d, kmap, n, w, m, c, a, p);
    } else if CopyLost(s, d, kmap, n, p) {
      if a < p && l > 0 {
        LostBelow(s, d, kmap, n, a, p);
        LostIsSome(s, d, kmap, n, w, m, c, a);
      } else {
        LostIsSome(s, d, kmap, n, w, m, c, p);
        if a < p {
          CountStops(w, m, u, c, 0, p, a, lost);
        }
      }
    }
  }

  lemma LostBelow(s: Space, d: nat, kmap: seq<KernelMap>, n: nat, a: nat, p: nat)
    requires CopyLost(s, d, kmap, n, p) && a < p <= USER && IsDir(s, d) && Lookup(s, d, a).None?
    ensures CopyLost(s, d, kmap, n, a)
  {
    hide LineTables, Lookup, Apart, CopyNeed;
  }

  // ---- copyuvm ----------------------------------------------------------------------------------------------

  /** copyuvm: a copy of all pages below sz in fresh pages, or nothing. lost is the page that was meant
      for a user page when mappages failed, and was not given back. The numbers of pages tell which
      of the cases it is. */
  method CopyUvm(vm: Vm, d: nat, sz: nat, kmap: seq<KernelMap>) returns (r: KvmResult, ghost lost: Option<nat>)
    requires vm.Valid() && IsDir(vm.Now(), d) && sz <= USER * PGSIZE && LinesOk(kmap)
    modifies vm
    ensures vm.Valid() && Steady(old(vm.Now()), vm.Now(), 0, 0, 0) && OwnersGrow(old(vm.own), vm.own) && vm.mem.Keys == old(vm.mem.Keys)
    ensures r.Made? <==> Apart(kmap) && AllThere(old(vm.Now()), d, Up(sz)) && old(|vm.free|) >= CopyNeed(kmap, Up(sz))
    ensures r.Made? ==> Copied(old(vm.Now()), vm.Now(), d, r.d, Up(sz), None) && LinesMapped(vm.Now(), r.d, kmap)
    ensures r.Failed? ==> old(|vm.free|) < CopyNeed(kmap, Up(sz))
    ensures lost.Some? <==> CopyLost(old(vm.Now()), d, kmap, old(|vm.free|), Up(sz))
    ensures r.Failed? && old(|vm.free|) >= 1 + |LineTables(kmap)| ==> vm.own == Less(old(vm.own), lost)
    ensures r.Failed? && old(|vm.free|) >= 1 + |LineTables(kmap)| ==> |vm.free| == old(|vm.free|) - (if lost.Some? then 1 else 0)
    ensures r.Failed? && 0 < old(|vm.free|) < 1 + |LineTables(kmap)| ==> AllLost(old(vm.Now()), old(vm.free), vm.Now(), old(vm.free)[0])
    ensures r.Panicked? ==> !Apart(kmap) || !AllThere(old(vm.Now()), d, Up(sz))
  {
    hide SpaceOk, PoolOk, Steady, Lookup, TableOf, OwnersGrow, Copied, Counted, KernelSpace, Apart, LineTables, AllThere, CopyLost, CopyNeed, AllLost, LinesMapped, LinesOk, Left;
    ghost var s, n, p, was := vm.Now(), |vm.free|, Up(sz), vm.free;
    r := SetupKvm(vm, kmap);
    if !r.Made? {
      NoKernelNoCopy(s, d, kmap, n, p);
      return r, None;
    }
    var c := r.d;
    ghost var w, m := vm.Now(), |vm.free|;
    CopySetUp(s, n, w, m, d, c, kmap);
    var a := 0;
    while a < Up(sz)
      invariant 0 <= a <= p <= USER && vm.Valid() && Copied(s, vm.Now(), d, c, a, None)
      invariant Counted(w, m, vm.Now(), |vm.free|, c, 0, a, None) && LinesMapped(vm.Now(), c, kmap)
    {
      var one;
      one, lost := CopyOne(vm, d, c, a, kmap, s, w, m);
      if one.Gone? {
        CopyStuck(s, vm.Now(), d, c, a, p);
        CopyAccount(s, d, kmap, n, w, m, vm.Now(), |vm.free|, c, a, p, None);
        return Panicked, None;
      }
      if one.NoPage? {
        CopyStopped(s, d, kmap, n, w, m, vm.Now(), |vm.free|, c, a, p, lost);
        ghost var u := vm.Now();
        CopiedDir(s, u, d, c, a, lost);
        FreeVm(vm, c);
        CopyUndone(s, u, vm.Now(), d, c, a, lost);
        FreedCount(s, was, vm.Now(), vm.free, lost);
        return Failed, lost;
      }
      a := a + 1;
    }
    CopyDone(s, vm.Now(), d, c, a);
    CopyAccount(s, d, kmap, n, w, m, vm.Now(), |vm.free|, c, a, p, None);
    return Made(c), None;
  }

  lemma CopySetUp(s: Space, n: nat, w: Space, m: nat, d: nat, c: nat, kmap: seq<KernelMap>)
    requires IsDir(s, d) && KernelSpace(s, n, w, m, c, kmap)
    ensures Left(w, c, kmap, n, m) && Copied(s, w, d, c, 0, None) && Counted(w, m, w, m, c, 0, 0, None) && LinesMapped(w, c, kmap)
  {
    hide KernelSpace, NewSpace, Copied, Counted, LinesMapped, TablesAre, Apart, LineTables;
    KernelFacts(s, n, w, m, c, kmap);
    CopyStarts(s, w, d, c);
    CountStarts(w, m, c, 0);
  }

  lemma CopyDone(s: Space, u: Space, d: nat, c: nat, a: nat)
    requires Copied(s, u, d, c, a, None)
    ensures Steady(s, u, 0, 0, 0) && OwnersGrow(s.own, u.own) && u.mem.Keys == s.mem.Keys && AllThere(s, d, a)
  {
    hide Lookup, Steady, UserEmpty;
    forall v: nat | v < a && v < USER ensures Lookup(s, d, v).Some? {
      assert CopyOf(s, u, d, c, v);
    }
  }

  /** copyuvm's panics: page a of the parent has no table, or is not present. */
  lemma CopyStuck(s: Space, u: Space, d: nat, c: nat, a: nat, p: nat)
    requires Copied(s, u, d, c, a, None) && a < p && a < USER && Lookup(s, d, a).None?
    ensures Steady(s, u, 0, 0, 0) && OwnersGrow(s.own, u.own) && u.mem.Keys == s.mem.Keys
    ensures AllThere(s, d, a) && !AllThere(s, d, p)
  {
    hide Copied, Lookup;
    CopyDone(s, u, d, c, a);
  }

  lemma CopyStopped(s: Space, d: nat, kmap: seq<KernelMap>, n: nat, w: Space, m: nat, u: Space, l: nat, c: nat, a: nat, p: nat, lost: Option<nat>)
    requires Left(w, c, kmap, n, m) && a < p <= USER && Copied(s, u, d, c, a, lost) && Lookup(s, d, a).Some? && l == 0
    requires Counted(w, m, u, l, c, 0, if lost.Some? then a + 1 else a, lost)
    ensures (lost.Some? <==> CopyLost(s, d, kmap, n, p)) && n < CopyNeed(kmap, p) && u.mem.Keys == s.mem.Keys
  {
    hide Left, Counted, Lookup, CopyLost, CopyNeed;
    forall v: nat | v < a && v < USER ensures Lookup(s, d, v).Some? {
      assert CopyOf(s, u, d, c, v);
    }
    CopyAccount(s, d, kmap, n, w, m, u, l, c, if lost.Some? then a + 1 else a, p, lost);
  }

  lemma FreedCount(s: Space, was: seq<nat>, u: Space, free: seq<nat>, lost: Option<nat>)
    requires SpaceOk(s) && PoolOk(s.mem, s.own, was) && SpaceOk(u) && PoolOk(u.mem, u.own, free) && u.mem.Keys == s.mem.Keys
    requires u.own == Less(s.own, lost) && (lost.Some? ==> lost.value !in s.own)
    ensures |free| == |was| - if lost.Some? then 1 else 0
  {
    hide SpaceOk, PoolOk;
    FreeCount(s, was);
    FreeCount(u, free);
    assert |u.mem| == |u.mem.Keys| && |s.mem| == |s.mem.Keys|;
    if lost.Some? {
      assert u.own.Keys == s.own.Keys + {lost.value};
    }
    assert |u.own| == |u.own.Keys| && |s.own| == |s.own.Keys|;
  }

  /** How a round of copyuvm ends: Gone is a panic. */
  datatype Round = Done | Gone | NoPage

  /** One round of copyuvm's loop. */
  method CopyOne(vm: Vm, d: nat, c: nat, a: nat, ghost kmap: seq<KernelMap>, ghost s: Space, ghost w: Space, ghost m: nat)
    returns (r: Round, ghost lost: Option<nat>)
    requires vm.Valid() && SpaceOk(s) && IsDir(s, d) && a < USER && Copied(s, vm.Now(), d, c, a, None)
    requires Counted(w, m, vm.Now(), |vm.free|, c, 0, a, None) && LinesMapped(vm.Now(), c, kmap)
    modifies vm
    ensures vm.Valid() && (r.Gone? <==> Lookup(s, d, a).None?)
    ensures Copied(s, vm.Now(), d, c, if r.Done? then a + 1 else a, lost) && (!r.NoPage? ==> lost.None?)
    ensures Counted(w, m, vm.Now(), |vm.free|, c, 0, if r.Done? || lost.Some? then a + 1 else a, lost)
    ensures (r.NoPage? ==> |vm.free| == 0) && LinesMapped(vm.Now(), c, kmap)
  {
    hide SpaceOk, PoolOk, Steady, Lookup, TableOf, Copied, Counted, LinesMapped;
    ghost var u := vm.Now();
    CopiedFacts(s, u, d, c, a, None);
    TableForLookup(u, d, a);
    var t := vm.Walk(d, a, false);
    if t.None? {
      return Gone, None;
    }
    TableEntry(u, d, a, t.value);
    var e := vm.mem[t.value][a % ENTRIES];
    if !Present(e) {
      return Gone, None;
    }
    var page := vm.Kalloc();
    if page.None? {
      return NoPage, None;
    }
    SpareSteady(u, vm.Now(), page.value, c, a, a + 1);
    SpareLookup(u, vm.Now(), page.value, c, a);
    var ok := CopyInto(vm, c, a, page.value, e, s, u, d, w, m);
    LinesAbove(u, vm.Now(), c, kmap, a);
    if ok {
      return Done, None;
    }
    return NoPage, page;
  }

  lemma LinesAbove(u: Space, t: Space, c: nat, kmap: seq<KernelMap>, a: nat)
    requires LinesMapped(u, c, kmap) && IsDir(u, c) && Steady(u, t, c, a, a + 1) && a < USER
    ensures LinesMapped(t, c, kmap)
  {
    hide Lookup, Steady, LinesMapped;
    LinesKept(u, t, c, kmap, a, a + 1);
  }

  /** memmove into the page f, which kalloc took from state u, and mappages. */
  method CopyInto(vm: Vm, c: nat, a: nat, f: nat, e: nat, ghost s: Space, ghost u: Space, ghost d: nat, ghost w: Space, ghost m: nat) returns (ok: bool)
    requires vm.Valid() && SpaceOk(s) && SpaceOk(u) && Copied(s, u, d, c, a, None) && a < USER && IsDir(s, d) && Lookup(s, d, a) == Some(e)
    requires Counted(w, m, u, |vm.free| + 1, c, 0, a, None) && IsDir(u, c)
    requires f in vm.mem && f !in u.own && vm.own == u.own[f := Held] && SpareStep(u, vm.Now(), f)
    requires Steady(u, vm.Now(), c, a, a + 1) && IsDir(vm.Now(), c) && Lookup(vm.Now(), c, a).None?
    requires AddrOf(e) in vm.mem && AddrOf(e) in s.mem && vm.mem[AddrOf(e)] == s.mem[AddrOf(e)]
    modifies vm
    ensures vm.Valid() && Copied(s, vm.Now(), d, c, if ok then a + 1 else a, if ok then None else Some(f))
    ensures Counted(w, m, vm.Now(), |vm.free|, c, 0, a + 1, if ok then None else Some(f))
    ensures (!ok ==> |vm.free| == 0) && Steady(u, vm.Now(), c, a, a + 1)
  {
    hide SpaceOk, PoolOk, Steady, Lookup, TableOf, Copied, Counted, HeldFrom, Mapping, Extra, Missing;
    ghost var x, l := vm.Now(), |vm.free|;
    vm.Fill(f, vm.mem[AddrOf(e)]);
    ghost var y := vm.Now();
    SpareSteady(x, y, f, c, a, a + 1);
    SpareLookup(x, y, f, c, a);
    HeldAlone(vm.own, a, f);
    SamePage(a);
    var r;
    ghost var k;
    r, k := vm.MapPages(c, a * PGSIZE, PGSIZE, f, FlagsOf(e));
    ok := r.Mapped?;
    ghost var t := vm.Now();
    OnePage(y, l, t, |vm.free|, c, a, k, f, FlagsOf(e), r);
    SteadyTrans(u, x, y, c, a, a + 1);
    SteadyTrans(u, y, t, c, a, a + 1);
    CopyNext(s, u, t, d, c, a, f, e, ok);
    CountNext(w, m, u, y, l, t, |vm.free|, c, 0, a, f, ok);
  }

  // ---- failing inputs ----------------------------------------------------------------------------------------

  /** A new space: m pages are left, and the first user page will need a table. */
  lemma NewSpaceNeeds(s: Space, n: nat, w: Space, m: nat, d: nat, kmap: seq<KernelMap>)
    requires KernelSpace(s, n, w, m, d, kmap)
    ensures IsDir(w, d) && n == m + 1 + |LineTables(kmap)| && UserEmpty(w, d, 0)
    ensures Need(w, d, 0, 1) == 2 && Extra(w, d, 0, 0)
  {
    hide KernelSpace, NewSpace, LinesMapped, TablesAre, Need, Extra, Lookup, Steady, LineTables, UserEmpty, Apart;
    KernelFacts(s, n, w, m, d, kmap);
    NewSpaceFacts(s, w, d);
    FreshNeed(w, d, kmap, 1);
    ExtraIsFirst(w, d, kmap, 0);
  }

  lemma OnePageUp()
    ensures Up(0) == 0 && Up(PGSIZE) == 1
  {
  }

  /** Under any kernel map: allocuvm says that it made one page, and there is none, when one page is left
      after setupkvm. */
  method AllocUvmLosesPage(kmap: seq<KernelMap>) returns (vm: Vm, d: nat, sz: nat, ghost lost: Option<nat>)
    requires LinesOk(kmap) && Apart(kmap)
    ensures vm.Valid() && LinesMapped(vm.Now(), d, kmap) && sz == PGSIZE && IsDir(vm.Now(), d) && Lookup(vm.Now(), d, 0).None?
    ensures lost.Some? && lost.value in vm.own && vm.own[lost.value].Held?
  {
    hide SpaceOk, PoolOk, Steady, Lookup, TableOf, Apart, LineTables, LinesMapped, KernelSpace, Need, Extra, LinesOk;
    var pages := 1 + |LineTables(kmap)| + 1;
    vm := new Vm(1, 1 + pages);
    ghost var s := vm.Now();
    var r := SetupKvm(vm, kmap);
    d := r.d;
    ghost var w := vm.Now();
    NewSpaceNeeds(s, pages, w, |vm.free|, d, kmap);
    KernelFacts(s, pages, w, |vm.free|, d, kmap);
    OnePageUp();
    sz, lost := vm.AllocUvm(d, 0, PGSIZE);
    GrownLines(w, vm.Now(), d, kmap, lost);
  }

  lemma GrownLines(w: Space, u: Space, d: nat, kmap: seq<KernelMap>, lost: Option<nat>)
    requires Grown(w, u, d, 0, 1, 1, lost) && LinesMapped(w, d, kmap)
    ensures LinesMapped(u, d, kmap)
  {
    hide Lookup, Steady, LinesMapped, FreshPage;
    LinesAbove(w, u, d, kmap, 0);
  }

  /** Under any kernel map: copyuvm of one page fails, and a page is gone for good, when there are pages
      for the child's directory, its kernel tables and the page, and none for the page's table. */
  method CopyUvmLosesPage(kmap: seq<KernelMap>) returns (vm: Vm, before: nat, r: KvmResult)
    requires LinesOk(kmap) && Apart(kmap)
    ensures vm.Valid() && r.Failed? && before == |LineTables(kmap)| + 2 && |vm.free| == before - 1
  {
    hide SpaceOk, PoolOk, Steady, Lookup, TableOf, Apart, LineTables, LinesMapped, KernelSpace, Need, Extra, LinesOk, CopyLost, Copied, AllThere, CopyNeed;
    var pages := 1 + |LineTables(kmap)| + 2 + |LineTables(kmap)| + 2;
    vm := new Vm(1, 1 + pages);
    ghost var s := vm.Now();
    r := SetupKvm(vm, kmap);
    var d := r.d;
    ghost var w := vm.Now();
    NewSpaceNeeds(s, pages, w, |vm.free|, d, kmap);
    OnePageUp();
    var sz;
    ghost var lost;
    sz, lost := vm.AllocUvm(d, 0, PGSIZE);
    OnePageLost(w, vm.Now(), d, kmap);
    before := |vm.free|;
    r, lost := CopyUvm(vm, d, PGSIZE, kmap);
  }

  lemma OnePageLost(w: Space, u: Space, d: nat, kmap: seq<KernelMap>)
    requires Grown(w, u, d, 0, 1, 1, None) && Apart(kmap)
    ensures IsDir(u, d) && AllThere(u, d, 1) && CopyLost(u, d, kmap, |LineTables(kmap)| + 2, 1)
    ensures |LineTables(kmap)| + 2 < CopyNeed(kmap, 1)
  {
    hide Steady, Lookup, Apart, LineTables;
    assert FreshPage(w, u, d, 0);
    assert |LineTables(kmap)| + 2 == CopyNeed(kmap, 0) + 1 && AllThere(u, d, 0 + 1);
  }

  /** Under any kernel map: with fewer pages than it takes setupkvm fails and keeps them all. */
  method SetupKvmLosesPages(kmap: seq<KernelMap>, pages: nat) returns (vm: Vm, r: KvmResult)
    requires LinesOk(kmap) && Apart(kmap) && 0 < pages < 1 + |LineTables(kmap)|
    ensures vm.Valid() && r.Failed? && vm.free == []
    ensures exists d :: d in vm.own && vm.own[d].Dir? && forall f :: 1 <= f <= pages ==> f in vm.own && Belongs(f, vm.own[f], d)
  {
    hide SpaceOk, PoolOk, Steady, Lookup, TableOf, Apart, LineTables, LinesMapped, KernelSpace, LinesOk;
    vm := new Vm(1, 1 + pages);
    ghost var was := vm.free;
    r := SetupKvm(vm, kmap);
    ghost var d := was[0];
    assert forall f :: 1 <= f <= pages ==> f in was;
  }

  lemma FarSize()
    ensures Up(PGSIZE) == 1 && Up((ENTRIES + 1) * PGSIZE) == ENTRIES + 1
  {
  }

  /** A new space has no tables for user pages, also when kalloc has taken another page. */
  lemma LowTables(w: Space, x: Space, d: nat, kmap: seq<KernelMap>, f: nat)
    requires SpaceOk(w) && TablesAre(w, d, LineTables(kmap)) && IsDir(w, d) && SpareStep(w, x, f)
    ensures IsDir(x, d) && !Present(Pde(x, d, 0)) && !Present(Pde(x, d, 1))
  {
    hide LineTables, Pde;
    SpareLookup(w, x, f, d, 0);
    if y: nat :| y < 2 && y in LineTables(kmap) {
      LineTablesHigh(kmap, y);
    }
  }

  lemma OneMissing(x: Space, d: nat)
    requires IsDir(x, d) && !Present(Pde(x, d, 1))
    ensures Unmapped(x, d, ENTRIES, ENTRIES + 1) && |Missing(x, d, ENTRIES, ENTRIES + 1)| <= 1
  {
    NeedNone(x, d, ENTRIES);
    MissingNext(x, d, ENTRIES, ENTRIES);
  }

  /** Page 1024 is mapped, and its page table is the first one. */
  lemma FarPage(x: Space, c: nat, t: Space, l: nat, d: nat, f: nat)
    requires SpaceOk(t) && Mapping(x, c, t, l, d, ENTRIES, ENTRIES + 1, f, PTE_WU) && !Present(Pde(x, d, 0))
    ensures IsDir(t, d) && Lookup(t, d, ENTRIES).Some? && Missed(t, d, 1, ENTRIES)
  {
    hide Lookup, TableOf, Steady, SpaceOk, Entry;
    RangeAt(t, d, ENTRIES, ENTRIES + 1, f, PTE_WU);
    TablesNext(ENTRIES, ENTRIES);
    NeedNone(x, d, ENTRIES);
    forall w: nat | 1 <= w < ENTRIES ensures TableOf(t, d, w).None? {
      TableFacts(t, d, w);
    }
  }

  /** Under any kernel map: with page 1024 alone mapped, deallocuvm down to one page leaves it mapped. */
  method DeallocUvmMissesPage(kmap: seq<KernelMap>) returns (vm: Vm, d: nat, sz: nat)
    requires LinesOk(kmap) && Apart(kmap)
    ensures vm.Valid() && sz == PGSIZE && IsDir(vm.Now(), d) && Lookup(vm.Now(), d, ENTRIES).Some?
  {
    hide SpaceOk, PoolOk, Steady, Lookup, TableOf, Apart, LineTables, LinesMapped, KernelSpace, LinesOk, Mapping, Missing, Extra, Unmapped, HeldFrom, Missed;
    var pages := 1 + |LineTables(kmap)| + 2;
    vm := new Vm(1, 1 + pages);
    ghost var s := vm.Now();
    var r := SetupKvm(vm, kmap);
    d := r.d;
    ghost var w, n := vm.Now(), |vm.free|;
    KernelFacts(s, pages, w, n, d, kmap);
    var m := vm.Kalloc();
    ghost var x := vm.Now();
    HeldAlone(vm.own, ENTRIES, m.value);
    SamePage(ENTRIES);
    LowTables(w, x, d, kmap, m.value);
    OneMissing(x, d);
    var one;
    ghost var k;
    one, k := vm.MapPages(d, ENTRIES * PGSIZE, PGSIZE, m.value, PTE_WU);
    FarPage(x, n - 1, vm.Now(), |vm.free|, d, m.value);
    FarSize();
    sz := vm.DeallocUvm(d, (ENTRIES + 1) * PGSIZE, PGSIZE);
  }
}
