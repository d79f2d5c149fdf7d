/** setupkvm (vm.c): a new directory with the kernel's mappings. */
module KernelMaps {
  import opened Wrappers
  import opened PageTable
  import opened PageSteps
  import opened PageCounts
  import opened VirtualMemory

  /** One line of kmap: size bytes from va on, all above KERNBASE, at the physical pages from f on. */
  datatype KernelMap = KernelMap(va: nat, size: nat, f: nat, perm: nat)

  /** Panicked is the remap panic of mappages, or one of the two panics of copyuvm. */
  datatype KvmResult = Made(d: nat) | Failed | Panicked

  predicate LineOk(k: KernelMap) {
    USER * PGSIZE <= k.va && 0 < k.size && k.va + k.size <= PAGES * PGSIZE && k.perm < FLAGS
  }

  predicate LinesOk(kmap: seq<KernelMap>) { forall i :: 0 <= i < |kmap| ==> LineOk(kmap[i]) }

  function First(k: KernelMap): nat { k.va / PGSIZE }

  /** Behind the last page of the line. */
  function End(k: KernelMap): nat
    requires LineOk(k)
  {
    (k.va + k.size - 1) / PGSIZE + 1
  }

  predicate Covers(k: KernelMap, v: nat) { LineOk(k) && First(k) <= v < End(k) }

  ghost predicate Covered(kmap: seq<KernelMap>, v: nat) { exists i :: 0 <= i < |kmap| && Covers(kmap[i], v) }

  /** No two lines cover the same page. */
  ghost predicate Apart(kmap: seq<KernelMap>) {
    forall i, j, v: nat :: 0 <= i < j < |kmap| && Covers(kmap[i], v) ==> !Covers(kmap[j], v)
  }

  /** The directory entries that the lines go through. */
  function LineTables(kmap: seq<KernelMap>): set<nat> {
    if kmap == [] then {}
    else
      var k := kmap[|kmap| - 1];
      LineTables(kmap[..|kmap| - 1]) + if LineOk(k) then TablesFor(First(k), End(k)) else {}
  }

  /** Every line is mapped, page by page. */
  ghost predicate LinesMapped(s: Space, d: nat, kmap: seq<KernelMap>) {
    forall i :: 0 <= i < |kmap| && LineOk(kmap[i]) ==> RangeMapped(s, d, First(kmap[i]), End(kmap[i]), kmap[i].f, kmap[i].perm)
  }

  lemma LineAt(s: Space, d: nat, kmap: seq<KernelMap>, i: nat, v: nat)
    requires LinesMapped(s, d, kmap) && i < |kmap| && Covers(kmap[i], v)
    ensures IsDir(s, d) && USER <= v < PAGES && Lookup(s, d, v).Some?
  {
    hide Lookup, Entry;
    LineFacts(kmap[i]);
  }

  lemma LineFacts(k: KernelMap)
    requires LineOk(k)
    ensures USER <= First(k) < End(k) <= PAGES
  {
  }

  /** Changes below KERNBASE leave the lines mapped. */
  lemma LinesKept(u: Space, t: Space, d: nat, kmap: seq<KernelMap>, lo: nat, hi: nat)
    requires LinesMapped(u, d, kmap) && IsDir(u, d) && Steady(u, t, d, lo, hi)
    requires forall v: nat :: lo <= v < hi ==> !Covered(kmap, v)
    ensures LinesMapped(t, d, kmap)
  {
    hide Lookup, Entry, Steady, First, End;
    SteadyAt(u, t, d, lo, hi, d, 0);
    forall i | 0 <= i < |kmap| && LineOk(kmap[i])
      ensures RangeMapped(t, d, First(kmap[i]), End(kmap[i]), kmap[i].f, kmap[i].perm)
    {
      var k := kmap[i];
      forall v: nat | First(k) <= v < End(k) && v < PAGES ensures Lookup(t, d, v) == Some(Entry(k.f + (v - First(k)), k.perm)) {
        assert Covers(kmap[i], v) && Covered(kmap, v);
        SteadyAt(u, t, d, lo, hi, d, v);
        assert RangeMapped(u, d, First(k), End(k), k.f, k.perm);
      }
    }
  }

  /** Kernel tables lie above those for user pages. */
  lemma {:induction false} LineTablesHigh(kmap: seq<KernelMap>, x: nat)
    requires x in LineTables(kmap)
    ensures USER / ENTRIES <= x < ENTRIES
  {
    var k := kmap[|kmap| - 1];
    if LineOk(k) && x in TablesFor(First(k), End(k)) {
      LineFacts(k);
    } else {
      LineTablesHigh(kmap[..|kmap| - 1], x);
    }
  }

  lemma {:induction false} LineTablesMono(kmap: seq<KernelMap>, i: nat)
    requires i <= |kmap|
    ensures |LineTables(kmap[..i])| <= |LineTables(kmap)|
  {
    if i < |kmap| {
      var less := kmap[..|kmap| - 1];
      assert less[..i] == kmap[..i];
      LineTablesMono(less, i);
      var more := LineTables(kmap) - LineTables(less);
      assert LineTables(kmap) == LineTables(less) + more;
    } else {
      assert kmap[..i] == kmap;
    }
  }

  // ---- an empty directory ------------------------------------------------------------------------------

  lemma DirMadeLookup(s: Space, d: nat, e: nat, v: nat)
    requires SpaceOk(s) && d in s.mem && d in s.own && s.own[d].Held? && IsDir(s, e) && v < PAGES
    ensures var u := Space(s.mem, s.own[d := Dir]); IsDir(u, e) && Lookup(u, e, v) == Lookup(s, e, v) && TableOf(u, e, v) == TableOf(s, e, v)
  {
  }

  /** A page of zeroes is an empty directory. */
  lemma DirMade(s: Space, d: nat)
    requires SpaceOk(s) && d in s.mem && d in s.own && s.own[d].Held? && s.mem[d] == Zero()
    ensures var u := Space(s.mem, s.own[d := Dir]);
      SpaceOk(u) && IsDir(u, d) && Steady(s, u, 0, 0, 0) && forall v: nat :: v < USER ==> Lookup(u, d, v).None?
  {
    var u := Space(s.mem, s.own[d := Dir]);
    forall v: nat | v < USER ensures Lookup(u, d, v).None? {
      assert !Present(Pde(u, d, v / ENTRIES));
    }
    hide Lookup, TableOf;
    forall e, x: nat | IsDir(u, e) && x < ENTRIES ensures DirOk(u, e, x) {
      assert e != d ==> DirOk(s, e, x);
    }
    forall e, v: nat | IsDir(u, e) && v < USER ensures UserOk(u, e, v) {
      if e != d {
        DirMadeLookup(s, d, e, v);
        assert UserOk(s, e, v);
      }
    }
    forall f | f in u.own ensures RoleOk(u, f) {
      assert RoleOk(s, f);
      if s.own[f].User? {
        DirMadeLookup(s, d, s.own[f].d, s.own[f].v);
      }
    }
    forall e, v: nat | IsDir(s, e) && v < PAGES ensures Agrees(s, u, 0, 0, 0, e, v) {
      DirMadeLookup(s, d, e, v);
    }
    forall f | f in s.own ensures PageKept(s, u, 0, 0, 0, f) {
      assert RoleOk(s, f);
    }
  }

  ghost predicate UserEmpty(s: Space, d: nat, from: nat) {
    IsDir(s, d) && forall v: nat :: from <= v < USER ==> Lookup(s, d, v).None?
  }

  /** Changes to a space that s does not have leave everything that s has alone. */
  lemma SteadyForeign(s: Space, u: Space, t: Space, d: nat, lo: nat, hi: nat)
    requires SpaceOk(s) && d !in s.own && Steady(s, u, 0, 0, 0) && Steady(u, t, d, lo, hi)
    ensures Steady(s, t, 0, 0, 0)
  {
    hide Lookup, TableOf;
    forall e | IsDir(s, e) ensures IsDir(t, e) {
      assert IsDir(u, e);
    }
    forall e, v: nat | IsDir(s, e) && v < PAGES ensures Agrees(s, t, 0, 0, 0, e, v) {
      assert Agrees(s, u, 0, 0, 0, e, v) && Agrees(u, t, d, lo, hi, e, v);
    }
    forall f | f in s.own ensures PageKept(s, t, 0, 0, 0, f) {
      assert RoleOk(s, f) && PageKept(s, u, 0, 0, 0, f);
      assert f in u.own ==> PageKept(u, t, d, lo, hi, f);
    }
  }

  lemma EmptyKept(u: Space, t: Space, d: nat, from: nat, lo: nat, hi: nat, from': nat)
    requires UserEmpty(u, d, from) && Steady(u, t, d, lo, hi) && from <= from' && (hi <= from' || USER <= lo)
    ensures UserEmpty(t, d, from')
  {
    hide Lookup, TableOf, Steady;
    SteadyAt(u, t, d, lo, hi, d, 0);
    forall v: nat | from' <= v < USER ensures Lookup(t, d, v).None? {
      SteadyAt(u, t, d, lo, hi, d, v);
    }
  }

  /** The space of d is new since s: only its directory and tables have got roles, and page from on
      is not mapped. */
  ghost predicate NewSpace(s: Space, u: Space, d: nat) {
    && d !in s.own && Steady(s, u, 0, 0, 0) && OwnersGrow(s.own, u.own) && UserEmpty(u, d, 0)
    && forall f :: f in u.own && f !in s.own ==> f == d || (u.own[f].Table? && u.own[f].d == d)
  }

  lemma NewSpaceGrows(s: Space, u: Space, t: Space, d: nat, lo: nat, hi: nat)
    requires SpaceOk(s) && NewSpace(s, u, d) && Steady(u, t, d, lo, hi) && USER <= lo
    requires OwnersGrow(u.own, t.own) && NewTables(u.own, t.own, d)
    ensures NewSpace(s, t, d)
  {
    hide Lookup, TableOf, Steady, UserEmpty;
    SteadyForeign(s, u, t, d, lo, hi);
    EmptyKept(u, t, d, 0, lo, hi, 0);
  }

  lemma NewSpaceFacts(s: Space, u: Space, d: nat)
    requires NewSpace(s, u, d)
    ensures Steady(s, u, 0, 0, 0) && OwnersGrow(s.own, u.own) && IsDir(u, d) && d !in s.own && UserEmpty(u, d, 0)
  {
  }

  // ---- the lines one by one ----------------------------------------------------------------------------

  /** The space of d is new since s, and holds exactly the lines; n pages were free then, m are now. */
  ghost predicate KernelSpace(s: Space, n: nat, u: Space, m: nat, d: nat, lines: seq<KernelMap>) {
    && NewSpace(s, u, d) && u.mem.Keys == s.mem.Keys && Apart(lines) && LinesMapped(u, d, lines)
    && OnlyLines(u, d, lines) && TablesAre(u, d, LineTables(lines)) && n == m + 1 + |LineTables(lines)|
  }

  ghost predicate OnlyLines(u: Space, d: nat, lines: seq<KernelMap>) {
    d in u.mem && forall v: nat :: v < PAGES && Lookup(u, d, v).Some? ==> Covered(lines, v)
  }

  ghost predicate TablesAre(u: Space, d: nat, xs: set<nat>) {
    d in u.mem && forall x: nat :: x < ENTRIES ==> (Present(Pde(u, d, x)) <==> x in xs)
  }

  lemma KernelStarts(s: Space, n: nat, u: Space, m: nat, d: nat)
    requires NewSpace(s, u, d) && u.mem.Keys == s.mem.Keys && n == m + 1 && u.mem[d] == Zero()
    ensures KernelSpace(s, n, u, m, d, [])
  {
    hide Steady;
    assert IsDir(u, d);
    forall v: nat | v < PAGES ensures Lookup(u, d, v).None? {
      assert !Present(Pde(u, d, v / ENTRIES));
    }
  }

  /** Missing tables are those that no earlier line needed. */
  lemma MissingIsNew(u: Space, d: nat, xs: set<nat>, a: nat, b: nat)
    requires TablesAre(u, d, xs) && b <= PAGES
    ensures |xs + TablesFor(a, b)| == |xs| + |Missing(u, d, a, b)|
  {
    var missing := Missing(u, d, a, b);
    assert forall x :: x in TablesFor(a, b) ==> x < ENTRIES;
    assert xs + TablesFor(a, b) == xs + missing && xs !! missing;
  }

  lemma TablesGrow(u: Space, t: Space, d: nat, xs: set<nat>, ys: set<nat>)
    requires TablesAre(u, d, xs) && DirGrows(u, t, d, ys)
    ensures TablesAre(t, d, xs + ys)
  {
    hide Pde;
  }

  lemma LineTablesNext(lines: seq<KernelMap>, k: KernelMap)
    requires LineOk(k)
    ensures LineTables(lines + [k]) == LineTables(lines) + TablesFor(First(k), End(k))
  {
    assert (lines + [k])[..|lines|] == lines;
  }

  /** A line that could be mapped shares no page with those before it. */
  lemma ApartNext(u: Space, d: nat, lines: seq<KernelMap>, k: KernelMap)
    requires LineOk(k) && LinesMapped(u, d, lines) && Apart(lines) && IsDir(u, d) && Unmapped(u, d, First(k), End(k))
    ensures Apart(lines + [k]) && forall v: nat :: Covers(k, v) ==> !Covered(lines, v)
  {
    hide Lookup, LinesMapped, LineOk, First, End;
    forall v: nat, i | Covers(k, v) && 0 <= i < |lines| ensures !Covers(lines[i], v) {
      if Covers(lines[i], v) {
        LineAt(u, d, lines, i, v);
        assert false;
      }
    }
  }

  lemma OnlyNext(u: Space, t: Space, d: nat, lines: seq<KernelMap>, k: KernelMap)
    requires LineOk(k) && OnlyLines(u, d, lines) && IsDir(u, d) && Steady(u, t, d, First(k), End(k))
    ensures OnlyLines(t, d, lines + [k])
  {
    hide Lookup, Steady, LineOk, First, End;
    var more := lines + [k];
    SteadyAt(u, t, d, First(k), End(k), d, 0);
    forall v: nat | v < PAGES && Lookup(t, d, v).Some? ensures Covered(more, v) {
      SteadyAt(u, t, d, First(k), End(k), d, v);
      if First(k) <= v < End(k) {
        assert Covers(more[|lines|], v);
      } else {
        var i :| 0 <= i < |lines| && Covers(lines[i], v);
        assert Covers(more[i], v);
      }
    }
  }

  lemma KernelNext(s: Space, n: nat, u: Space, m: nat, t: Space, l: nat, d: nat, lines: seq<KernelMap>, k: KernelMap)
    requires SpaceOk(s) && LineOk(k) && KernelSpace(s, n, u, m, d, lines) && IsDir(u, d)
    requires Mapping(u, m, t, l, d, First(k), End(k), k.f, k.perm)
    ensures KernelSpace(s, n, t, l, d, lines + [k])
  {
    hide Lookup, TableOf, Steady, Entry, SpaceOk, NewSpace, LinesMapped, OnlyLines, TablesAre, TablesFor, Missing, Apart, Covered, HeldOrMapped, HeldKept, RangeMapped;
    LineFacts(k);
    NewSpaceFacts(s, u, d);
    assert OwnersGrow(u.own, t.own);
    NewSpaceGrows(s, u, t, d, First(k), End(k));
    ApartNext(u, d, lines, k);
    OnlyNext(u, t, d, lines, k);
    MissingIsNew(u, d, LineTables(lines), First(k), End(k));
    TablesGrow(u, t, d, LineTables(lines), TablesFor(First(k), End(k)));
    LineTablesNext(lines, k);
    LinesNext(u, t, d, lines, k);
  }

  lemma LinesNext(u: Space, t: Space, d: nat, lines: seq<KernelMap>, k: KernelMap)
    requires LineOk(k) && LinesMapped(u, d, lines) && IsDir(u, d) && Steady(u, t, d, First(k), End(k))
    requires RangeMapped(t, d, First(k), End(k), k.f, k.perm) && forall v: nat :: Covers(k, v) ==> !Covered(lines, v)
    ensures LinesMapped(t, d, lines + [k])
  {
    hide Lookup, Steady, Entry, RangeMapped, Covered;
    LinesKept(u, t, d, lines, First(k), End(k));
  }

  /** When memory ends in a line there were too few pages for all of them; a remap means that two
      lines meet. */
  lemma KernelStops(s: Space, n: nat, u: Space, m: nat, d: nat, kmap: seq<KernelMap>, i: nat, v: nat, r: MapResult)
    requires i < |kmap| && LineOk(kmap[i]) && KernelSpace(s, n, u, m, d, kmap[..i]) && !r.Mapped? && IsDir(u, d)
    requires r.NoMemory? ==> m < |Missing(u, d, First(kmap[i]), End(kmap[i]))|
    requires r.Remap? ==> Covers(kmap[i], v) && v < PAGES && Lookup(u, d, v).Some?
    ensures r.NoMemory? ==> n < 1 + |LineTables(kmap)|
    ensures r.Remap? ==> !Apart(kmap)
  {
    hide Lookup, Missing, LinesMapped, NewSpace, LineTables;
    var k := kmap[i];
    LineFacts(k);
    if r.NoMemory? {
      MissingIsNew(u, d, LineTables(kmap[..i]), First(k), End(k));
      LineTablesNext(kmap[..i], k);
      assert kmap[..i] + [k] == kmap[..i + 1];
      LineTablesMono(kmap, i + 1);
    } else {
      var j :| 0 <= j < |kmap[..i]| && Covers(kmap[..i][j], v);
      assert Covers(kmap[j], v);
    }
  }

  // ---- setupkvm ------------------------------------------------------------------------------------------

  /** Every page that was free now belongs to a directory that nobody knows. */
  ghost predicate AllLost(s: Space, free: seq<nat>, u: Space, d: nat) {
    d in u.own && u.own[d].Dir? && forall f :: f in free ==> f in u.own && (f == d || (u.own[f].Table? && u.own[f].d == d))
  }

  lemma LostAll(s: Space, free: seq<nat>, u: Space, d: nat)
    requires PoolOk(s.mem, s.own, free) && PoolOk(u.mem, u.own, []) && NewSpace(s, u, d) && u.mem.Keys == s.mem.Keys
    ensures AllLost(s, free, u, d)
  {
    hide Steady, Lookup;
    assert IsDir(u, d);
    forall f | f in free ensures f in u.own && f !in s.own {
      assert f in u.mem;
    }
  }

  /** setupkvm: a directory that maps the lines and nothing else, if they are apart and there are pages
      for the directory and the tables. When memory ends everything that was free is lost. */
  method SetupKvm(vm: Vm, kmap: seq<KernelMap>) returns (r: KvmResult)
    requires vm.Valid() && LinesOk(kmap)
    modifies vm
    ensures vm.Valid() && Steady(old(vm.Now()), vm.Now(), 0, 0, 0) && OwnersGrow(old(vm.own), vm.own) && vm.mem.Keys == old(vm.mem.Keys)
    ensures r.Made? <==> Apart(kmap) && old(|vm.free|) >= 1 + |LineTables(kmap)|
    ensures r.Made? ==> KernelSpace(old(vm.Now()), old(|vm.free|), vm.Now(), |vm.free|, r.d, kmap)
    ensures r.Failed? ==> old(|vm.free|) < 1 + |LineTables(kmap)| && vm.free == []
    ensures r.Failed? && old(vm.free) != [] ==> AllLost(old(vm.Now()), old(vm.free), vm.Now(), old(vm.free)[0])
    ensures r.Panicked? ==> !Apart(kmap)
  {
    hide SpaceOk, PoolOk, Steady, Lookup, TableOf, NewSpace, OwnersGrow, KernelSpace, Apart, LineTables, AllLost, LinesOk;
    ghost var s, n, was := vm.Now(), |vm.free|, vm.free;
    SteadyRefl(s, 0, 0, 0);
    OwnersRefl(s.own);
    var page := vm.Kalloc();
    if page.None? {
      return Failed;
    }
    var d := page.value;
    MakeDir(vm, d, s);
    KernelStarts(s, n, vm.Now(), |vm.free|, d);
    var i := 0;
    assert kmap[..0] == [];
    while i < |kmap|
      invariant 0 <= i <= |kmap| && vm.Valid() && KernelSpace(s, n, vm.Now(), |vm.free|, d, kmap[..i])
    {
      LineIsOk(kmap, i);
      var m := MapLine(vm, d, kmap, i, s, n);
      if !m.Mapped? {
        NewSpaceFacts(s, vm.Now(), d);
        if m.NoMemory? {
          LostAll(s, was, vm.Now(), d);
          NotEnough(kmap, n);
          return Failed;
        }
        return Panicked;
      }
      i := i + 1;
    }
    assert kmap[..i] == kmap;
    KernelFacts(s, n, vm.Now(), |vm.free|, d, kmap);
    return Made(d);
  }

  lemma NotEnough(kmap: seq<KernelMap>, n: nat)
    requires n < 1 + |LineTables(kmap)|
    ensures !(Apart(kmap) && n >= 1 + |LineTables(kmap)|)
  {
  }

  lemma LineIsOk(kmap: seq<KernelMap>, i: nat)
    requires LinesOk(kmap) && i < |kmap|
    ensures LineOk(kmap[i])
  {
  }

  lemma KernelFacts(s: Space, n: nat, u: Space, m: nat, d: nat, lines: seq<KernelMap>)
    requires KernelSpace(s, n, u, m, d, lines)
    ensures NewSpace(s, u, d) && Steady(s, u, 0, 0, 0) && OwnersGrow(s.own, u.own) && IsDir(u, d) && u.mem.Keys == s.mem.Keys
    ensures Apart(lines) && LinesMapped(u, d, lines) && TablesAre(u, d, LineTables(lines)) && n == m + 1 + |LineTables(lines)|
  {
    hide Lookup, Steady, LineTables, LinesMapped, Apart;
  }

  /** memset of the page that kalloc took from state s: an empty directory. */
  method MakeDir(vm: Vm, d: nat, ghost s: Space)
    requires vm.Valid() && SpaceOk(s) && d !in s.own && d in vm.mem && vm.own == s.own[d := Held] && SpareStep(s, vm.Now(), d)
    modifies vm
    ensures vm.Valid() && NewSpace(s, vm.Now(), d) && vm.free == old(vm.free) && vm.mem == old(vm.mem)[d := Zero()]
  {
    hide SpaceOk, PoolOk, Steady, Lookup, TableOf;
    ghost var u := vm.Now();
    SpareSteady(s, u, d, 0, 0, 0);
    vm.Fill(d, Zero());
    ghost var w := vm.Now();
    SpareSteady(u, w, d, 0, 0, 0);
    SteadyTrans(s, u, w, 0, 0, 0);
    DirMade(w, d);
    PoolSame(vm.mem, vm.own, vm.free, vm.mem, vm.own[d := Dir]);
    vm.own := vm.own[d := Dir];
    SteadyTrans(s, w, vm.Now(), 0, 0, 0);
  }

  lemma LineHeld(own: map<nat, Role>, k: KernelMap)
    requires LineOk(k)
    ensures HeldFrom(own, k.va / PGSIZE, (k.va + k.size - 1) / PGSIZE, k.f)
  {
  }

  /** One round of setupkvm's loop. */
  method MapLine(vm: Vm, d: nat, kmap: seq<KernelMap>, i: nat, ghost s: Space, ghost n: nat) returns (m: MapResult)
    requires vm.Valid() && SpaceOk(s) && i < |kmap| && LineOk(kmap[i])
    requires KernelSpace(s, n, vm.Now(), |vm.free|, d, kmap[..i])
    modifies vm
    ensures vm.Valid() && NewSpace(s, vm.Now(), d) && vm.mem.Keys == old(vm.mem.Keys) && vm.mem.Keys == s.mem.Keys
    ensures m.Mapped? ==> KernelSpace(s, n, vm.Now(), |vm.free|, d, kmap[..i + 1])
    ensures m.NoMemory? ==> vm.free == [] && n < 1 + |LineTables(kmap)|
    ensures m.Remap? ==> !Apart(kmap)
  {
    hide SpaceOk, PoolOk, Steady, Lookup, TableOf, NewSpace, HeldFrom, KernelSpace, Mapping, Missing, Extra, Unmapped, Apart, LineTables, LinesMapped, TablesAre, LineOk;
    ghost var u, c := vm.Now(), |vm.free|;
    var k := kmap[i];
    KernelFacts(s, n, u, c, d, kmap[..i]);
    LineHeld(vm.own, k);
    LineFacts(k);
    LineEnds(k);
    ghost var upto;
    m, upto := vm.MapPages(d, k.va, k.size, k.f, k.perm);
    MappedNew(s, u, c, vm.Now(), |vm.free|, d, k, upto);
    if m.Mapped? {
      KernelNext(s, n, u, c, vm.Now(), |vm.free|, d, kmap[..i], k);
      assert kmap[..i] + [k] == kmap[..i + 1];
    } else {
      KernelStops(s, n, u, c, d, kmap, i, upto, m);
    }
  }

  lemma LineEnds(k: KernelMap)
    requires LineOk(k)
    ensures 0 < k.size && k.va + k.size <= PAGES * PGSIZE && k.perm < FLAGS
    ensures forall v: nat :: Covers(k, v) <==> First(k) <= v < End(k)
  {
  }

  lemma MappedNew(s: Space, u: Space, c: nat, t: Space, l: nat, d: nat, k: KernelMap, upto: nat)
    requires SpaceOk(s) && NewSpace(s, u, d) && LineOk(k) && Mapping(u, c, t, l, d, First(k), upto, k.f, k.perm)
    ensures NewSpace(s, t, d) && t.mem.Keys == u.mem.Keys
  {
    hide Lookup, TableOf, Steady, Entry, SpaceOk, NewSpace, RangeMapped, Missing, DirGrows, HeldKept, HeldOrMapped;
    LineFacts(k);
    assert OwnersGrow(u.own, t.own);
    NewSpaceGrows(s, u, t, d, First(k), upto);
  }
}
