/** kalloc.c and vm.c: the free list of pages, and the loops over page tables. */
module VirtualMemory {
  import opened Wrappers
  import opened PageTable
  import opened PageSteps
  import opened PageCounts

  const PGSIZE: nat := 4096

  datatype MapResult = Mapped | NoMemory | Remap

  /** Every page is either on the free list, once, or has a role. Page 0 belongs to the kernel. */
  ghost predicate PoolOk(mem: map<nat, Page>, own: map<nat, Role>, free: seq<nat>) {
    && 0 !in mem && Distinct(free)
    && (forall f :: f in free ==> f in mem && f !in own)
    && (forall f :: f in mem ==> f in own || f in free)
  }

  lemma AllListed(list: seq<nat>, start: nat, end: nat)
    requires start <= end && |list| == end - start && forall i :: 0 <= i < |list| ==> list[i] == end - 1 - i
    ensures forall f :: f in list <==> start <= f < end
  {
    forall f | start <= f < end ensures f in list {
      assert list[end - 1 - f] == f;
    }
  }

  lemma PoolTake(mem: map<nat, Page>, own: map<nat, Role>, free: seq<nat>)
    requires PoolOk(mem, own, free) && free != []
    ensures free[0] in mem && free[0] !in own && PoolOk(mem, own[free[0] := Held], free[1..])
  {
  }

  lemma PoolGive(mem: map<nat, Page>, own: map<nat, Role>, free: seq<nat>, f: nat, page: Page)
    requires PoolOk(mem, own, free) && f in own && f in mem
    ensures PoolOk(mem[f := page], own - {f}, [f] + free)
  {
  }

  lemma PageZero(mem: map<nat, Page>, own: map<nat, Role>, free: seq<nat>)
    requires PoolOk(mem, own, free)
    ensures 0 !in mem
  {
  }

  /** Roles may change among themselves. */
  lemma PoolSame(mem: map<nat, Page>, own: map<nat, Role>, free: seq<nat>, mem': map<nat, Page>, own': map<nat, Role>)
    requires PoolOk(mem, own, free) && mem'.Keys == mem.Keys && own'.Keys == own.Keys
    ensures PoolOk(mem', own', free)
  {
  }

  /** Conservation: a page is free or has a role, whatever was done to it. */
  lemma FreeCount(s: Space, free: seq<nat>)
    requires SpaceOk(s) && PoolOk(s.mem, s.own, free)
    ensures |free| + |s.own| == |s.mem|
  {
    var listed := set f | f in free;
    DistinctCount(free, listed);
    assert forall f :: f in s.own ==> RoleOk(s, f);
    assert s.mem.Keys == listed + s.own.Keys && listed !! s.own.Keys;
  }

  class Vm {
    var mem: map<nat, Page>
    var free: seq<nat>
    ghost var own: map<nat, Role>

    ghost function Now(): Space
      reads this
    {
      Space(mem, own)
    }

    ghost predicate Valid()
      reads this
    {
      SpaceOk(Now()) && PoolOk(mem, own, free)
    }

    /** kinit and freerange: every page from start to end goes to the free list. */
    constructor (start: nat, end: nat)
      requires 0 < start <= end
      ensures Valid() && own == map[] && |free| == end - start && forall f :: f in free <==> start <= f < end
    {
      var pages: map<nat, Page>, list: seq<nat> := map[], [];
      var p := start;
      while p + 1 <= end
        invariant start <= p <= end && |list| == p - start
        invariant forall f :: f in pages <==> start <= f < p
        invariant forall i :: 0 <= i < |list| ==> list[i] == p - 1 - i
      {
        pages := pages[p := Junk()];
        list := [p] + list;
        p := p + 1;
      }
      mem, free, own := pages, list, map[];
      AllListed(list, start, end);
    }

    method Kalloc() returns (r: Option<nat>)
      requires Valid()
      modifies this`free, this`own
      ensures Valid() && (r.None? <==> old(free) == [])
      ensures r.None? ==> Now() == old(Now()) && free == old(free)
      ensures r.Some? ==> r.value == old(free)[0] && r.value !in old(own) && r.value in mem
      ensures r.Some? ==> free == old(free)[1..] && own == old(own)[r.value := Held] && SpareStep(old(Now()), Now(), r.value)
    {
      hide SpaceOk, PoolOk;
      if free == [] {
        return None;
      }
      ghost var s := Now();
      PoolTake(mem, own, free);
      r := Some(free[0]);
      free := free[1..];
      own := own[r.value := Held];
      assert SpareStep(s, Now(), r.value);
      SpareKeeps(s, Now(), r.value);
    }

    method Kfree(f: nat)
      requires Valid() && f in own && own[f].Held? && f in mem
      modifies this`mem, this`free, this`own
      ensures Valid() && mem == old(mem)[f := Junk()] && free == [f] + old(free) && own == old(own) - {f}
      ensures SpareStep(old(Now()), Now(), f)
    {
      hide SpaceOk, PoolOk;
      ghost var s := Now();
      PoolGive(mem, own, free, f, Junk());
      mem := mem[f := Junk()];
      free := [f] + free;
      own := own - {f};
      SpareKeeps(s, Now(), f);
    }

    /** memset or memmove into a page that kalloc gave. */
    method Fill(f: nat, page: Page)
      requires Valid() && f in own && own[f].Held? && f in mem
      modifies this`mem
      ensures Valid() && mem == old(mem)[f := page] && SpareStep(old(Now()), Now(), f)
    {
      hide SpaceOk, PoolOk;
      ghost var s := Now();
      PoolSame(mem, own, free, mem[f := page], own);
      mem := mem[f := page];
      SpareKeeps(s, Now(), f);
    }

    /** walkpgdir: the page table for v, made if alloc asks for it and memory allows. */
    method Walk(d: nat, v: nat, alloc: bool) returns (r: Option<nat>)
      requires Valid() && IsDir(Now(), d) && v < PAGES
      modifies this
      ensures Valid() && Steady(old(Now()), Now(), 0, 0, 0) && OwnersGrow(old(own), own) && NewTables(old(own), own, d)
      ensures HeldKept(old(Now()), Now()) && mem.Keys == old(mem.Keys)
      ensures r.Some? ==> d in mem && TableOf(Now(), d, v) == r && DirGrows(old(Now()), Now(), d, {v / ENTRIES})
      ensures r.None? <==> !Present(old(Pde(Now(), d, v / ENTRIES))) && (!alloc || old(free) == [])
      ensures r.None? ==> Now() == old(Now()) && free == old(free) && TableOf(Now(), d, v).None?
      ensures !alloc || Present(old(Pde(Now(), d, v / ENTRIES))) ==> Now() == old(Now()) && free == old(free)
      ensures r.Some? && !Present(old(Pde(Now(), d, v / ENTRIES))) ==> free == old(free)[1..]
    {
      hide SpaceOk, PoolOk, Steady, Lookup;
      ghost var s := Now();
      SteadyRefl(s, 0, 0, 0);
      TableFacts(s, d, v);
      var pde := mem[d][v / ENTRIES];
      if Present(pde) {
        return Some(AddrOf(pde));
      }
      if !alloc {
        return None;
      }
      r := Kalloc();
      if r.Some? {
        ghost var u := Now();
        SpareSteady(s, u, r.value, 0, 0, 0);
        AddTable(d, v / ENTRIES, r.value);
        SteadyTrans(s, u, Now(), 0, 0, 0);
        TableAddedLookup(u, d, v / ENTRIES, r.value, d, v);
      }
    }

    /** The second half of walkpgdir, with the new page. */
    method AddTable(d: nat, x: nat, t: nat)
      requires Valid() && CanAddTable(Now(), d, x, t)
      modifies this`mem, this`own
      ensures Valid() && Now() == TableAdded(old(Now()), d, x, t)
      ensures Steady(old(Now()), Now(), 0, 0, 0)
    {
      hide SpaceOk, PoolOk, Steady;
      ghost var s := Now();
      TableAddedKeeps(s, d, x, t);
      TableAddedSteady(s, d, x, t, 0, 0, 0);
      PoolSame(mem, own, free, TableAdded(s, d, x, t).mem, TableAdded(s, d, x, t).own);
      mem := mem[t := Zero()];
      mem := mem[d := mem[d][x := Entry(t, PTE_WU)]];
      own := own[t := Table(d, x)];
      assert Now() == TableAdded(s, d, x, t);
    }

    /** One round of mappages. */
    method MapOne(d: nat, v: nat, f: nat, perm: nat) returns (r: MapResult)
      requires Valid() && IsDir(Now(), d) && v < PAGES && perm < FLAGS && (v < USER ==> f in own && own[f].Held?)
      modifies this
      ensures Valid()
      ensures r.Mapped? ==> OneMapped(old(Now()), old(|free|), Now(), |free|, d, v, f, perm)
      ensures !r.Mapped? ==> Now() == old(Now()) && free == old(free)
      ensures r.NoMemory? ==> free == [] && !Present(Pde(Now(), d, v / ENTRIES))
      ensures r.Remap? ==> Lookup(Now(), d, v).Some?
    {
      hide SpaceOk, PoolOk, Steady, TableOf, Lookup;
      ghost var s := Now();
      TableForLookup(s, d, v);
      TableFacts(s, d, v);
      var t := Walk(d, v, true);
      ghost var u := Now();
      SteadyAt(s, u, 0, 0, 0, d, v);
      if t.None? {
        return NoMemory;
      }
      TableEntry(u, d, v, t.value);
      HeldIsPage(u, f);
      if Present(mem[t.value][v % ENTRIES]) {
        return Remap;
      }
      SteadyWiden(s, u, 0, 0, 0, d, v, v + 1);
      SetEntry(d, v, t.value, f, perm);
      SteadyTrans(s, u, Now(), d, v, v + 1);
      return Mapped;
    }

    /** *pte = pa | perm | PTE_P. */
    method SetEntry(d: nat, v: nat, t: nat, f: nat, perm: nat)
      requires Valid() && CanMap(Now(), d, v, f) && perm < FLAGS && TableOf(Now(), d, v) == Some(t)
      modifies this`mem, this`own
      ensures Valid() && Now() == PageMapped(old(Now()), d, v, f, perm) && IsDir(Now(), d)
      ensures Lookup(Now(), d, v) == Some(Entry(f, perm)) && TableOf(Now(), d, v) == Some(t)
      ensures Steady(old(Now()), Now(), d, v, v + 1) && HeldKept(old(Now()), Now())
      ensures mem.Keys == old(mem.Keys) && mem[d] == old(mem[d])
    {
      hide SpaceOk, PoolOk, Steady, Lookup;
      ghost var s := Now();
      TableFacts(s, d, v);
      PageMappedKeeps(s, d, v, f, perm);
      PageMappedSteady(s, d, v, f, perm, v, v + 1);
      PageMappedLookup(s, d, v, f, perm, d, v);
      PoolSame(mem, own, free, PageMapped(s, d, v, f, perm).mem, PageMapped(s, d, v, f, perm).own);
      mem := mem[t := mem[t][v % ENTRIES := Entry(f, perm)]];
      own := if v < USER then own[f := User(d, v)] else own;
      assert Now() == PageMapped(s, d, v, f, perm);
    }

    /** mappages: exactly the pages that cover va to va + size become mapped, or only those before k
        when memory ends. Remap is the panic. */
    method MapPages(d: nat, va: nat, size: nat, f: nat, perm: nat) returns (r: MapResult, ghost k: nat)
      requires Valid() && IsDir(Now(), d) && 0 < size && va + size <= PAGES * PGSIZE && perm < FLAGS
      requires HeldFrom(own, va / PGSIZE, (va + size - 1) / PGSIZE, f)
      modifies this
      ensures Valid() && va / PGSIZE <= k <= (va + size - 1) / PGSIZE + 1 && IsDir(old(Now()), d)
      ensures if r.Mapped? then k == (va + size - 1) / PGSIZE + 1 else k <= (va + size - 1) / PGSIZE
      ensures Mapping(old(Now()), old(|free|), Now(), |free|, d, va / PGSIZE, k, f, perm)
      ensures r.NoMemory? ==> free == [] && Extra(old(Now()), d, va / PGSIZE, k)
      ensures r.NoMemory? ==> old(|free|) < |Missing(old(Now()), d, va / PGSIZE, (va + size - 1) / PGSIZE + 1)|
      ensures r.Remap? ==> k < PAGES && old(Lookup(Now(), d, k)).Some?
      ensures Unmapped(old(Now()), d, va / PGSIZE, (va + size - 1) / PGSIZE + 1) ==>
        (r.Mapped? <==> old(|free|) >= |Missing(old(Now()), d, va / PGSIZE, (va + size - 1) / PGSIZE + 1)|)
    {
      hide SpaceOk, PoolOk, Steady, Lookup, TableOf, HeldFrom, Mapping, OneMapped, Unmapped, Missing, Extra;
      ghost var s, n := Now(), |free|;
      var first, last := va / PGSIZE, (va + size - 1) / PGSIZE;
      var a, pa := first, f;
      MappingStarts(s, n, d, first, f, perm);
      while true
        invariant first <= a <= last < PAGES && pa == f + (a - first) && Valid() && IsDir(Now(), d)
        invariant Mapping(s, n, Now(), |free|, d, first, a, f, perm) && HeldFrom(own, a, last, pa)
        decreases last - a
      {
        ghost var u, m := Now(), |free|;
        HeldNow(own, a, last, pa);
        var one := MapOne(d, a, pa, perm);
        if !one.Mapped? {
          MappingStops(s, n, u, m, d, first, a, f, perm, last, one);
          return one, a;
        }
        MappingNext(s, n, u, m, Now(), |free|, d, first, a, f, perm);
        if a == last {
          MappingDone(s, n, Now(), |free|, d, first, last, f, perm);
          return Mapped, a + 1;
        }
        HeldAfter(u, m, Now(), |free|, d, a, last, pa, perm);
        a, pa := a + 1, pa + 1;
      }
    }

    /** kfree of user page v, and *pte = 0. The panic on page 0 is unreachable. */
    method FreeOne(d: nat, v: nat, t: nat)
      requires Valid() && CanFree(Now(), d, v) && TableOf(Now(), d, v) == Some(t)
      modifies this
      ensures Valid() && Now() == PageFreed(old(Now()), d, v)
      ensures free == [AddrOf(old(Lookup(Now(), d, v)).value)] + old(free)
    {
      hide SpaceOk, PoolOk, TableOf, Lookup;
      ghost var s := Now();
      TableEntry(s, d, v, t);
      FreedFacts(s, d, v);
      PageFreedKeeps(s, d, v);
      PageZero(mem, own, free);
      var f := AddrOf(mem[t][v % ENTRIES]);
      if f == 0 {
        assert false;
      }
      PoolGive(mem, own, free, f, Junk());
      PoolSame(mem[f := Junk()], own - {f}, [f] + free, PageFreed(s, d, v).mem, own - {f});
      mem := mem[f := Junk()];
      free := [f] + free;
      mem := mem[t := mem[t][v % ENTRIES := 0]];
      own := own - {f};
    }

    /** deallocuvm from oldsz down to newsz: exactly the mapped pages between the two sizes are freed that
        it does not miss. */
    method DeallocUvm(d: nat, oldsz: nat, newsz: nat) returns (sz: nat)
      requires Valid() && IsDir(Now(), d) && oldsz <= USER * PGSIZE
      modifies this
      ensures Valid() && IsDir(Now(), d) && sz == if newsz >= oldsz then oldsz else newsz
      ensures Steady(old(Now()), Now(), d, Up(newsz), Up(oldsz)) && UserLess(old(Now()), Now(), d, Up(newsz), Up(oldsz))
      ensures forall v: nat :: Up(newsz) <= v < Up(oldsz) ==>
        Lookup(Now(), d, v) == if Missed(old(Now()), d, Up(newsz), v) then old(Lookup(Now(), d, v)) else None
      ensures (forall v: nat :: Up(newsz) <= v < Up(oldsz) ==> Lookup(Now(), d, v).None?) <==>
        NoneMissed(old(Now()), d, Up(newsz), Up(oldsz))
      ensures forall v: nat :: v < PAGES ==> TableOf(Now(), d, v) == old(TableOf(Now(), d, v))
      ensures mem.Keys == old(mem.Keys)
      ensures forall f :: f in old(own) && Freed(old(Now()), old(own)[f], d, Up(newsz), Up(oldsz)) ==> f in free
    {
      hide SpaceOk, PoolOk, Scanned, Lookup, TableOf, Steady, UserLess, Missed;
      ghost var s, lo, hi := Now(), Up(newsz), Up(oldsz);
      ScanStarts(s, d, lo, hi);
      if newsz >= oldsz {
        ScanOver(s, s, d, lo, hi, lo);
        FreedListed(s, Now(), free, d, lo, hi);
        return oldsz;
      }
      var a := Up(newsz);
      while a < Up(oldsz)
        invariant lo <= a && Valid() && Scanned(s, Now(), d, lo, hi, a)
        decreases hi - a
      {
        a := DeallocRound(d, a, s, lo, hi);
      }
      ScanOver(s, Now(), d, lo, hi, a);
      FreedListed(s, Now(), free, d, lo, hi);
      return newsz;
    }

    /** One round of deallocuvm: it frees page a, or goes on 1024 pages further at a missing page table. */
    method DeallocRound(d: nat, a: nat, ghost s: Space, ghost lo: nat, ghost hi: nat) returns (b: nat)
      requires Valid() && lo <= a < hi <= USER && Scanned(s, Now(), d, lo, hi, a)
      modifies this
      ensures a < b && Valid() && Scanned(s, Now(), d, lo, hi, b)
    {
      hide SpaceOk, PoolOk, Scanned, Lookup, TableOf, Steady, Missed, Coming;
      ghost var u := Now();
      ScanFacts(s, u, d, lo, hi, a);
      var t := Walk(d, a, false);
      if t.None? {
        ComingNext(s, d, lo, a);
        SkipIsEmpty(s, u, d, lo, hi, a);
        ScanSkip(s, u, d, lo, hi, a, a + ENTRIES);
        return a + ENTRIES;
      }
      ComingInside(s, d, lo, a);
      TableEntry(u, d, a, t.value);
      if Present(mem[t.value][a % ENTRIES]) {
        ScanFree(s, u, d, lo, hi, a);
        FreeOne(d, a, t.value);
      } else {
        ScanSkip(s, u, d, lo, hi, a, a + 1);
      }
      return a + 1;
    }

    /** allocuvm. It does not look at what mappages answers: lost is a page that was taken, then not
        mapped for lack of a page table, and not given back. How many pages were free tells exactly
        when the call succeeds, and when it says so although the last page is not there. */
    method AllocUvm(d: nat, oldsz: nat, newsz: nat) returns (sz: nat, ghost lost: Option<nat>)
      requires Valid() && IsDir(Now(), d)
      requires forall v: nat :: Up(oldsz) <= v < Up(newsz) && v < USER ==> Lookup(Now(), d, v).None?
      modifies this
      ensures Valid() && IsDir(Now(), d) && OwnersGrow(old(own), own) && mem.Keys == old(mem.Keys)
      ensures newsz >= USER * PGSIZE ==> sz == 0 && Now() == old(Now()) && free == old(free)
      ensures newsz < oldsz && newsz < USER * PGSIZE ==> sz == oldsz && Now() == old(Now()) && free == old(free)
      ensures oldsz <= newsz < USER * PGSIZE ==> sz == newsz || sz == 0
      ensures oldsz <= newsz < USER * PGSIZE ==>
        (sz == newsz && lost.None? <==> old(|free|) >= Need(old(Now()), d, Up(oldsz), Up(newsz)))
      ensures oldsz <= newsz < USER * PGSIZE && sz == newsz && lost.None? ==>
        |free| == old(|free|) - Need(old(Now()), d, Up(oldsz), Up(newsz))
      ensures oldsz <= newsz < USER * PGSIZE ==>
        (sz == newsz && lost.Some? <==> LastLost(old(Now()), old(|free|), d, Up(oldsz), Up(newsz)))
      ensures oldsz <= newsz < USER * PGSIZE ==> (lost.Some? <==> SomeLost(old(Now()), old(|free|), d, Up(oldsz), Up(newsz)))
      ensures oldsz <= newsz < USER * PGSIZE && sz == newsz ==> Grown(old(Now()), Now(), d, Up(oldsz), Up(newsz), Up(newsz), lost)
      ensures oldsz <= newsz < USER * PGSIZE && sz != newsz ==> Steady(old(Now()), Now(), 0, 0, 0) && OnlyTables(old(own), own, d, lost)
    {
      hide SpaceOk, PoolOk, Steady, Lookup, TableOf, Grown, OwnersGrow, OnlyTables, Counted, Need, LastLost, SomeLost;
      lost := None;
      ghost var s, n, lo, hi := Now(), |free|, Up(oldsz), Up(newsz);
      OwnersRefl(own);
      if newsz >= USER * PGSIZE {
        return 0, None;
      }
      if newsz < oldsz {
        return oldsz, None;
      }
      var a := Up(oldsz);
      GrownStarts(s, d, lo, hi);
      CountStarts(s, n, d, lo);
      while a < Up(newsz)
        invariant lo <= a <= hi <= USER && Valid() && Grown(s, Now(), d, lo, hi, a, lost)
        invariant Counted(s, n, Now(), |free|, d, lo, a, lost)
        decreases hi - a
      {
        ghost var u := Now();
        var m := Kalloc();
        if m.None? {
          CountStops(s, n, u, d, lo, hi, a, lost);
          GrownFacts(s, u, d, lo, hi, a, lost);
          GiveBack(d, oldsz, newsz, a, lost, s);
          return 0, lost;
        }
        NotLostYet(s, n, u, |free| + 1, d, lo, a, lost);
        lost := AllocOne(d, a, m.value, s, n, u, lo, hi);
        a := a + 1;
      }
      CountEnds(s, n, Now(), |free|, d, lo, a, lost);
      GrownFacts(s, Now(), d, lo, hi, a, lost);
      return newsz, lost;
    }

    /** One page of allocuvm: memset and mappages of the page m, which kalloc took from state u. */
    method AllocOne(d: nat, a: nat, m: nat, ghost s: Space, ghost n: nat, ghost u: Space, ghost lo: nat, ghost hi: nat) returns (ghost lost: Option<nat>)
      requires Valid() && lo <= a < hi <= USER && SpaceOk(u) && Grown(s, u, d, lo, hi, a, None)
      requires Counted(s, n, u, |free| + 1, d, lo, a, None)
      requires m in mem && m !in u.own && own == u.own[m := Held] && SpareStep(u, Now(), m)
      modifies this
      ensures Valid() && Grown(s, Now(), d, lo, hi, a + 1, lost) && Counted(s, n, Now(), |free|, d, lo, a + 1, lost)
    {
      hide SpaceOk, PoolOk, Steady, Lookup, TableOf, Grown, Counted, HeldFrom, Mapping, Extra, Missing;
      ghost var c := |free|;
      GrownFacts(s, u, d, lo, hi, a, None);
      SpareSteady(u, Now(), m, d, a, a + 1);
      SpareLookup(u, Now(), m, d, a);
      ghost var w := Now();
      Fill(m, Zero());
      ghost var x := Now();
      SpareSteady(w, x, m, d, a, a + 1);
      SpareLookup(w, x, m, d, a);
      HeldAlone(own, a, m);
      SamePage(a);
      var r;
      ghost var k;
      r, k := MapPages(d, a * PGSIZE, PGSIZE, m, PTE_WU);
      lost := if r.Mapped? then None else Some(m);
      ghost var t := Now();
      OnePage(x, c, t, |free|, d, a, k, m, PTE_WU, r);
      SteadyTrans(u, w, x, d, a, a + 1);
      SteadyTrans(u, x, t, d, a, a + 1);
      GrownNext(s, u, t, d, lo, hi, a, m, r.Mapped?);
      CountNext(s, n, u, x, c, t, |free|, d, lo, a, m, r.Mapped?);
    }

    /** allocuvm runs out of memory: the translations are as before. */
    method GiveBack(d: nat, oldsz: nat, newsz: nat, a: nat, ghost lost: Option<nat>, ghost s: Space)
      requires Valid() && SpaceOk(s) && Up(oldsz) <= a <= Up(newsz) && newsz <= USER * PGSIZE
      requires Grown(s, Now(), d, Up(oldsz), Up(newsz), a, lost)
      requires forall v: nat :: Up(oldsz) <= v < Up(newsz) && v < USER ==> IsDir(s, d) && Lookup(s, d, v).None?
      modifies this
      ensures Valid() && IsDir(Now(), d) && Steady(s, Now(), 0, 0, 0) && mem.Keys == old(mem.Keys)
      ensures OwnersGrow(s.own, own) && OnlyTables(s.own, own, d, lost)
    {
      hide SpaceOk, PoolOk, Steady, Lookup, TableOf, Grown, UserLess, Missed;
      ghost var u, lo, hi := Now(), Up(oldsz), Up(newsz);
      GrownFacts(s, u, d, lo, hi, a, lost);
      GrownUnmissed(s, u, d, lo, hi, a, lost);
      var sz := DeallocUvm(d, newsz, oldsz);
      SteadyTrans(s, u, Now(), d, lo, hi);
      Restored(s, Now(), d, lo, hi);
      LessIsTables(s, u, Now(), d, lo, hi, a, lost);
    }
  }

  /** The call says that it succeeded, and the last page was lost: one page was missing, for the table
      that only the last page needs. */
  ghost predicate LastLost(s: Space, n: nat, d: nat, lo: nat, hi: nat)
    requires d in s.mem
  {
    lo < hi && n + 1 == Need(s, d, lo, hi) && Extra(s, d, lo, hi - 1)
  }

  /** Memory ends between a page and the table that it needs first. */
  ghost predicate SomeLost(s: Space, n: nat, d: nat, lo: nat, hi: nat)
    requires d in s.mem
  {
    exists v: nat :: lo <= v < hi && Extra(s, d, lo, v) && n == Need(s, d, lo, v) + 1
  }

  /** Of n free pages m are left when allocuvm comes to page a. */
  ghost predicate Counted(s: Space, n: nat, u: Space, m: nat, d: nat, lo: nat, a: nat, lost: Option<nat>) {
    && d in s.mem && lo <= a
    && (lost.None? ==> DirGrows(s, u, d, TablesFor(lo, a)) && n == m + Need(s, d, lo, a))
    && (lost.Some? ==> m == 0 && lo < a && Extra(s, d, lo, a - 1) && n == Need(s, d, lo, a - 1) + 1)
  }

  lemma CountStarts(s: Space, n: nat, d: nat, lo: nat)
    requires IsDir(s, d)
    ensures Counted(s, n, s, n, d, lo, lo, None)
  {
    NeedNone(s, d, lo);
  }

  lemma NotLostYet(s: Space, n: nat, u: Space, m: nat, d: nat, lo: nat, a: nat, lost: Option<nat>)
    requires Counted(s, n, u, m, d, lo, a, lost) && m > 0
    ensures lost.None?
  {
  }

  lemma CountNext(s: Space, n: nat, u: Space, x: Space, c: nat, t: Space, m: nat, d: nat, lo: nat, a: nat, p: nat, mapped: bool)
    requires Counted(s, n, u, c + 1, d, lo, a, None) && a < PAGES && d in x.mem && x.mem[d] == u.mem[d]
    requires mapped ==> DirGrows(x, t, d, {a / ENTRIES}) && c == m + if Present(Pde(x, d, a / ENTRIES)) then 0 else 1
    requires !mapped ==> m == 0 && c == 0 && !Present(Pde(x, d, a / ENTRIES))
    ensures Counted(s, n, t, m, d, lo, a + 1, if mapped then None else Some(p))
  {
    hide Need, TablesFor;
    NeedNext(s, d, lo, a);
    assert Pde(x, d, a / ENTRIES) == Pde(u, d, a / ENTRIES);
    if mapped {
      assert DirGrows(u, t, d, {a / ENTRIES});
      GrowsNext(s, u, t, d, lo, a);
    }
  }

  /** Memory ends: there were too few pages, and none was lost unless the condition for it holds. */
  lemma CountStops(s: Space, n: nat, u: Space, d: nat, lo: nat, hi: nat, a: nat, lost: Option<nat>)
    requires Counted(s, n, u, 0, d, lo, a, lost) && a < hi <= PAGES
    ensures n < Need(s, d, lo, hi) && !LastLost(s, n, d, lo, hi)
    ensures lost.Some? <==> SomeLost(s, n, d, lo, hi)
  {
    hide Need, Extra, DirGrows;
    NeedMono(s, d, lo, a, hi);
    NeedMono(s, d, lo, hi - 1, hi);
    if lost.Some? {
      NeedNext(s, d, lo, a - 1);
    } else {
      forall v: nat | lo <= v < hi && Extra(s, d, lo, v) ensures n != Need(s, d, lo, v) + 1 {
        NeedNext(s, d, lo, v);
        if v < a {
          NeedMono(s, d, lo, v + 1, a);
        } else {
          NeedMono(s, d, lo, a, v);
        }
      }
    }
    NeedNext(s, d, lo, hi - 1);
    if lo < hi && Extra(s, d, lo, hi - 1) && a <= hi - 1 {
      NeedMono(s, d, lo, a, hi - 1);
    }
  }

  lemma CountEnds(s: Space, n: nat, u: Space, m: nat, d: nat, lo: nat, hi: nat, lost: Option<nat>)
    requires Counted(s, n, u, m, d, lo, hi, lost) && hi <= PAGES
    ensures lost.None? <==> n >= Need(s, d, lo, hi)
    ensures lost.None? ==> m == n - Need(s, d, lo, hi)
    ensures lost.Some? <==> LastLost(s, n, d, lo, hi)
    ensures lost.Some? <==> SomeLost(s, n, d, lo, hi)
  {
    hide Need, Extra, DirGrows;
    if lost.Some? {
      NeedNext(s, d, lo, hi - 1);
    } else {
      forall v: nat | lo <= v < hi && Extra(s, d, lo, v) ensures n != Need(s, d, lo, v) + 1 {
        NeedNext(s, d, lo, v);
        NeedMono(s, d, lo, v + 1, hi);
      }
    }
  }

  /** What mappages of one page did. */
  lemma OnePage(x: Space, c: nat, t: Space, m: nat, d: nat, a: nat, k: nat, f: nat, perm: nat, r: MapResult)
    requires perm < FLAGS && a < USER && SpaceOk(t) && Mapping(x, c, t, m, d, a, k, f, perm) && a <= k <= a + 1
    requires f in x.own && x.own[f].Held? && f in x.mem && Lookup(x, d, a).None?
    requires (if r.Mapped? then k == a + 1 else k == a) && (r.Remap? ==> Lookup(x, d, k).Some?)
    requires r.NoMemory? ==> m == 0 && Extra(x, d, a, k)
    ensures IsDir(t, d) && Steady(x, t, d, a, a + 1) && t.mem.Keys == x.mem.Keys && f in t.mem && t.mem[f] == x.mem[f]
    ensures Lookup(t, d, a) == if r.Mapped? then Some(Entry(f, perm)) else None
    ensures f in t.own && t.own[f] == if r.Mapped? then User(d, a) else Held
    ensures forall g :: g in x.own && g != f ==> g in t.own && t.own[g] == x.own[g]
    ensures NewTables(x.own, t.own, d)
    ensures r.Mapped? ==> DirGrows(x, t, d, {a / ENTRIES}) && c == m + if Present(Pde(x, d, a / ENTRIES)) then 0 else 1
    ensures !r.Mapped? ==> m == 0 && c == 0 && !Present(Pde(x, d, a / ENTRIES))
  {
    hide Lookup, TableOf, Steady, Entry, SpaceOk;
    RangeAt(t, d, a, k, f, perm);
    SteadyAt(x, t, d, a, k, d, a);
    SteadyWiden(x, t, d, a, k, d, a, a + 1);
    NeedNone(x, d, a);
    TablesNext(a, a);
    MissingNext(x, d, a, a);
    if r.Mapped? {
      RoleOfMapped(t, d, a, f, perm);
    }
  }

  /** User page v of the space is mapped to a page of zeroes which had no role in s. */
  ghost predicate FreshPage(s: Space, u: Space, d: nat, v: nat) {
    && v < PAGES && IsDir(u, d) && Lookup(u, d, v).Some?
    && var f := AddrOf(Lookup(u, d, v).value);
       f in u.mem && u.mem[f] == Zero() && f !in s.own && FlagsOf(Lookup(u, d, v).value) == PTE_WU + PTE_P
  }

  /** New roles: page tables, the user pages lo to a, and possibly one page that got lost. */
  ghost predicate NewRoles(own: map<nat, Role>, own': map<nat, Role>, d: nat, lo: nat, a: nat, lost: Option<nat>) {
    forall f :: f in own' && f !in own ==>
      (own'[f].Table? && own'[f].d == d) || Lies(own'[f], d, lo, a) || (lost == Some(f) && own'[f].Held?)
  }

  ghost predicate OnlyTables(own: map<nat, Role>, own': map<nat, Role>, d: nat, lost: Option<nat>) {
    && Leaked(own, own', lost)
    && forall f :: f in own' && f !in own ==> (own'[f].Table? && own'[f].d == d) || lost == Some(f)
  }

  /** The lost page was free; now the kernel holds it, and no entry names it. */
  ghost predicate Leaked(own: map<nat, Role>, own': map<nat, Role>, lost: Option<nat>) {
    lost.Some? ==> lost.value in own' && own'[lost.value].Held? && lost.value !in own
  }

  /** allocuvm has come to page a on its way from lo to hi; s is how it found the space. */
  ghost predicate Grown(s: Space, u: Space, d: nat, lo: nat, hi: nat, a: nat, lost: Option<nat>) {
    && lo <= a && hi <= USER && IsDir(s, d) && IsDir(u, d) && Steady(s, u, d, lo, hi)
    && OwnersGrow(s.own, u.own) && NewRoles(s.own, u.own, d, lo, a, lost)
    && (forall v: nat :: lo <= v < a && (lost.None? || v + 1 < a) ==> FreshPage(s, u, d, v))
    && (lost.Some? ==> lo < a <= USER && Lookup(u, d, a - 1).None?) && Leaked(s.own, u.own, lost)
    && u.mem.Keys == s.mem.Keys
    && (forall v: nat :: a <= v < hi ==> Lookup(u, d, v).None?)
  }

  lemma OwnersRefl(own: map<nat, Role>)
    ensures OwnersGrow(own, own)
  {
  }

  lemma GrownStarts(s: Space, d: nat, lo: nat, hi: nat)
    requires SpaceOk(s) && IsDir(s, d) && hi <= USER && forall v: nat :: lo <= v < hi ==> Lookup(s, d, v).None?
    ensures Grown(s, s, d, lo, hi, lo, None)
  {
    hide Lookup, TableOf;
    SteadyRefl(s, d, lo, hi);
  }

  lemma GrownFacts(s: Space, u: Space, d: nat, lo: nat, hi: nat, a: nat, lost: Option<nat>)
    requires Grown(s, u, d, lo, hi, a, lost)
    ensures IsDir(s, d) && IsDir(u, d) && OwnersGrow(s.own, u.own) && Steady(s, u, d, lo, hi)
    ensures a < hi ==> Lookup(u, d, a).None?
    ensures lost.Some? ==> lo < a
    ensures u.mem.Keys == s.mem.Keys
  {
    hide Lookup, TableOf, Steady, FreshPage;
  }

  lemma HeldAlone(own: map<nat, Role>, a: nat, m: nat)
    requires m in own && own[m].Held?
    ensures HeldFrom(own, a, a, m)
  {
  }

  lemma SamePage(a: nat)
    ensures a * PGSIZE / PGSIZE == a && (a * PGSIZE + PGSIZE - 1) / PGSIZE == a
  {
  }

  lemma RangeAt(s: Space, d: nat, a: nat, k: nat, f: nat, perm: nat)
    requires perm < FLAGS && RangeMapped(s, d, a, k, f, perm) && a < PAGES
    ensures IsDir(s, d) && (a < k ==> Lookup(s, d, a) == Some(Entry(f, perm)))
  {
    assert f + (a - a) == f;
  }

  lemma RoleOfMapped(s: Space, d: nat, v: nat, f: nat, perm: nat)
    requires SpaceOk(s) && IsDir(s, d) && v < USER && perm < FLAGS
    ensures Lookup(s, d, v) == Some(Entry(f, perm)) ==> f in s.own && s.own[f] == User(d, v)
  {
    hide Lookup, TableOf;
    assert UserOk(s, d, v);
  }

  lemma GrownNext(s: Space, u: Space, t: Space, d: nat, lo: nat, hi: nat, a: nat, m: nat, mapped: bool)
    requires SpaceOk(u) && Grown(s, u, d, lo, hi, a, None) && a < hi && Steady(u, t, d, a, a + 1)
    requires m !in u.own && IsDir(t, d) && OwnersGrow(u.own, t.own) && t.mem.Keys == u.mem.Keys
    requires Lookup(t, d, a) == if mapped then Some(Entry(m, PTE_WU)) else None
    requires m in t.mem && t.mem[m] == Zero() && m in t.own && t.own[m] == if mapped then User(d, a) else Held
    requires forall g :: g in t.own && g !in u.own && g != m ==> t.own[g].Table? && t.own[g].d == d
    ensures Grown(s, t, d, lo, hi, a + 1, if mapped then None else Some(m))
  {
    hide Lookup, TableOf, Steady, Entry, FreshPage, SpaceOk;
    SteadyWiden(u, t, d, a, a + 1, d, lo, hi);
    SteadyTrans(s, u, t, d, lo, hi);
    forall v: nat | lo <= v < a ensures FreshPage(s, t, d, v) {
      FreshKept(s, u, t, d, a, v);
    }
    if mapped {
      FreshMade(s, t, d, a, m);
    }
    forall v: nat | a + 1 <= v < hi ensures Lookup(t, d, v).None? {
      SteadyAt(u, t, d, a, a + 1, d, v);
    }
  }

  lemma FreshMade(s: Space, t: Space, d: nat, a: nat, m: nat)
    requires a < PAGES && IsDir(t, d) && Lookup(t, d, a) == Some(Entry(m, PTE_WU)) && m in t.mem && t.mem[m] == Zero() && m !in s.own
    ensures FreshPage(s, t, d, a)
  {
  }

  lemma FreshKept(s: Space, u: Space, t: Space, d: nat, a: nat, v: nat)
    requires SpaceOk(u) && IsDir(u, d) && Steady(u, t, d, a, a + 1) && v < a <= USER && FreshPage(s, u, d, v)
    ensures FreshPage(s, t, d, v)
  {
    hide Lookup, TableOf;
    SteadyAt(u, t, d, a, a + 1, d, v);
    assert UserOk(u, d, v);
    assert PageKept(u, t, d, a, a + 1, AddrOf(Lookup(u, d, v).value));
  }

  /** Pages that allocuvm has made start at lo, so that the page table for lo is there. */
  lemma GrownUnmissed(s: Space, u: Space, d: nat, lo: nat, hi: nat, a: nat, lost: Option<nat>)
    requires Grown(s, u, d, lo, hi, a, lost) && a <= hi
    ensures forall v: nat :: lo <= v < hi && Lookup(u, d, v).Some? ==> !Missed(u, d, lo, v)
  {
    hide Lookup, TableOf, Steady;
    forall v: nat | lo <= v < hi && Lookup(u, d, v).Some? ensures !Missed(u, d, lo, v) {
      assert v < a && (lost.Some? ==> v != a - 1);
      assert FreshPage(s, u, d, lo);
      TableForLookup(u, d, lo);
    }
  }

  /** A range that was empty and is empty again: nothing has changed. */
  lemma Restored(s: Space, u: Space, d: nat, lo: nat, hi: nat)
    requires SpaceOk(s) && Steady(s, u, d, lo, hi) && IsDir(s, d) && IsDir(u, d) && hi <= USER
    requires forall v: nat :: lo <= v < hi ==> Lookup(s, d, v).None? && Lookup(u, d, v).None?
    ensures Steady(s, u, 0, 0, 0)
  {
    hide Lookup, TableOf;
    forall e, v: nat | IsDir(s, e) && v < PAGES ensures Agrees(s, u, 0, 0, 0, e, v) {
      assert Agrees(s, u, d, lo, hi, e, v);
    }
    forall f | f in s.own ensures PageKept(s, u, 0, 0, 0, f) {
      assert RoleOk(s, f) && PageKept(s, u, d, lo, hi, f);
    }
  }

  lemma LessIsTables(s: Space, u: Space, t: Space, d: nat, lo: nat, hi: nat, a: nat, lost: Option<nat>)
    requires SpaceOk(s) && SpaceOk(u) && Grown(s, u, d, lo, hi, a, lost) && UserLess(u, t, d, lo, hi) && a <= hi && IsDir(s, d)
    requires forall v: nat :: lo <= v < hi ==> Lookup(s, d, v).None?
    ensures OwnersGrow(s.own, t.own) && OnlyTables(s.own, t.own, d, lost)
  {
    hide Lookup, TableOf, Steady, FreshPage, Missed;
    GrownUnmissed(s, u, d, lo, hi, a, lost);
    forall f | f in u.own && Lies(u.own[f], d, lo, hi) ensures Freed(u, u.own[f], d, lo, hi) {
      assert RoleOk(u, f);
    }
    forall f | f in s.own ensures !Lies(s.own[f], d, lo, hi) {
      assert RoleOk(s, f);
    }
  }

  function Min(a: nat, b: nat): nat { if a <= b then a else b }

  /** No page of the range is mapped and missed. */
  ghost predicate NoneMissed(s: Space, d: nat, lo: nat, hi: nat)
    requires d in s.mem
  {
    forall v: nat :: lo <= v < hi && v < PAGES && Lookup(s, d, v).Some? ==> !Missed(s, d, lo, v)
  }

  /** How deallocuvm comes to page a: no page table was there so far, and a stands in its table as lo
      did; or there was one, and from now on nothing is missed. */
  ghost predicate Coming(s: Space, d: nat, lo: nat, a: nat)
    requires d in s.mem
  {
    || (a % ENTRIES == lo % ENTRIES && forall w: nat :: lo <= w < a && w < PAGES && w / ENTRIES < a / ENTRIES ==> TableOf(s, d, w).None?)
    || ((a % ENTRIES == 0 || (a < PAGES && TableOf(s, d, a).Some?)) && forall v: nat :: a <= v ==> !Missed(s, d, lo, v))
  }

  lemma SameTable(s: Space, d: nat, v: nat, w: nat)
    requires d in s.mem && v < PAGES && w < PAGES && v / ENTRIES == w / ENTRIES
    ensures TableOf(s, d, v) == TableOf(s, d, w)
  {
  }

  /** Past a missing table. */
  lemma ComingNext(s: Space, d: nat, lo: nat, a: nat)
    requires d in s.mem && lo <= a < PAGES && Coming(s, d, lo, a) && TableOf(s, d, a).None?
    ensures Coming(s, d, lo, a + ENTRIES)
    ensures forall v: nat :: a <= v < a + ENTRIES && v < PAGES ==> TableOf(s, d, v).None? || Missed(s, d, lo, v)
  {
    hide TableOf;
    assert (a + ENTRIES) % ENTRIES == a % ENTRIES && (a + ENTRIES) / ENTRIES == a / ENTRIES + 1;
    forall w: nat | lo <= w < PAGES && w / ENTRIES == a / ENTRIES ensures TableOf(s, d, w).None? {
      SameTable(s, d, w, a);
    }
    forall v: nat | a <= v < a + ENTRIES && v < PAGES ensures TableOf(s, d, v).None? || Missed(s, d, lo, v) {
      if v / ENTRIES != a / ENTRIES {
        assert v / ENTRIES == a / ENTRIES + 1 && v % ENTRIES < a % ENTRIES;
      }
    }
  }

  /** At a page table. */
  lemma ComingInside(s: Space, d: nat, lo: nat, a: nat)
    requires d in s.mem && lo <= a < a + 1 < PAGES && Coming(s, d, lo, a) && TableOf(s, d, a).Some?
    ensures Coming(s, d, lo, a + 1) && forall v: nat :: a <= v ==> !Missed(s, d, lo, v)
  {
    hide TableOf;
    forall v: nat | a <= v ensures !Missed(s, d, lo, v) {
      if v / ENTRIES == a / ENTRIES {
        assert v % ENTRIES >= a % ENTRIES;
      }
    }
    if (a + 1) / ENTRIES == a / ENTRIES {
      SameTable(s, d, a + 1, a);
    } else {
      assert (a + 1) % ENTRIES == 0;
    }
  }

  /** deallocuvm has come to page a on its way from lo to hi; s is how it found the space. */
  ghost predicate Scanned(s: Space, u: Space, d: nat, lo: nat, hi: nat, a: nat) {
    && hi <= USER && IsDir(s, d) && IsDir(u, d) && Steady(s, u, d, lo, hi) && UserLess(s, u, d, lo, Min(a, hi))
    && u.mem.Keys == s.mem.Keys && Coming(s, d, lo, a)
    && (forall v: nat :: lo <= v < a && v < hi ==> Lookup(u, d, v) == if Missed(s, d, lo, v) then Lookup(s, d, v) else None)
    && (forall v: nat :: a <= v < PAGES ==> Lookup(u, d, v) == Lookup(s, d, v))
    && (forall v: nat :: v < PAGES ==> TableOf(u, d, v) == TableOf(s, d, v))
  }

  lemma ScanStarts(s: Space, d: nat, lo: nat, hi: nat)
    requires SpaceOk(s) && IsDir(s, d) && hi <= USER
    ensures Scanned(s, s, d, lo, hi, lo)
  {
    hide Lookup, TableOf, Missed;
    SteadyRefl(s, d, lo, hi);
  }

  lemma ScanOver(s: Space, u: Space, d: nat, lo: nat, hi: nat, a: nat)
    requires Scanned(s, u, d, lo, hi, a) && (hi <= a || hi <= lo)
    ensures IsDir(u, d) && Steady(s, u, d, lo, hi) && UserLess(s, u, d, lo, hi) && u.mem.Keys == s.mem.Keys
    ensures forall v: nat :: lo <= v < hi ==> Lookup(u, d, v) == if Missed(s, d, lo, v) then Lookup(s, d, v) else None
    ensures (forall v: nat :: lo <= v < hi ==> Lookup(u, d, v).None?) <==> NoneMissed(s, d, lo, hi)
    ensures forall v: nat :: v < PAGES ==> TableOf(u, d, v) == TableOf(s, d, v)
  {
    hide Lookup, TableOf, Steady, Missed, Coming;
  }

  lemma ScanFacts(s: Space, u: Space, d: nat, lo: nat, hi: nat, a: nat)
    requires Scanned(s, u, d, lo, hi, a) && a < hi
    ensures IsDir(u, d) && d in s.mem && Coming(s, d, lo, a) && TableOf(u, d, a) == TableOf(s, d, a)
  {
    hide Lookup, TableOf, Steady, UserLess, Missed, Coming;
  }

  /** The pages from a missing table on are not mapped, or missed. */
  lemma SkipIsEmpty(s: Space, u: Space, d: nat, lo: nat, hi: nat, a: nat)
    requires Scanned(s, u, d, lo, hi, a) && lo <= a < hi
    requires forall v: nat :: a <= v < a + ENTRIES && v < PAGES ==> TableOf(s, d, v).None? || Missed(s, d, lo, v)
    ensures forall v: nat :: a <= v < a + ENTRIES && v < hi ==> Lookup(u, d, v).None? || Missed(s, d, lo, v)
  {
    hide Lookup, TableOf, Steady, UserLess, Missed, Coming;
    forall v: nat | a <= v < a + ENTRIES && v < hi ensures Lookup(u, d, v).None? || Missed(s, d, lo, v) {
      TableForLookup(u, d, v);
    }
  }

  lemma ScanSkip(s: Space, u: Space, d: nat, lo: nat, hi: nat, a: nat, b: nat)
    requires SpaceOk(u) && Scanned(s, u, d, lo, hi, a) && lo <= a < b && a < hi && Coming(s, d, lo, b)
    requires forall v: nat :: a <= v < b && v < hi ==> Lookup(u, d, v).None? || Missed(s, d, lo, v)
    ensures Scanned(s, u, d, lo, hi, b)
  {
    hide Lookup, TableOf, Steady, UserLess, SpaceOk, Missed, Coming;
    UserLessSkipped(s, u, d, lo, a, Min(b, hi));
  }

  lemma ScanFree(s: Space, u: Space, d: nat, lo: nat, hi: nat, a: nat)
    requires CanFree(u, d, a) && Scanned(s, u, d, lo, hi, a) && lo <= a < hi && Coming(s, d, lo, a + 1) && !Missed(s, d, lo, a)
    ensures Scanned(s, PageFreed(u, d, a), d, lo, hi, a + 1)
  {
    hide Lookup, TableOf, Steady, UserLess, SpaceOk, PageFreed, Missed, Coming;
    var t := PageFreed(u, d, a);
    FreedKeys(u, d, a);
    PageFreedSteady(u, d, a, lo, hi);
    SteadyTrans(s, u, t, d, lo, hi);
    UserLessFreed(s, u, d, lo, a);
    forall v: nat | v < PAGES
      ensures IsDir(t, d) && TableOf(t, d, v) == TableOf(s, d, v) && Lookup(t, d, v) == if v == a then None else Lookup(u, d, v)
    {
      PageFreedLookup(u, d, a, d, v);
    }
  }

  lemma FreedKeys(u: Space, d: nat, a: nat)
    requires CanFree(u, d, a)
    ensures PageFreed(u, d, a).mem.Keys == u.mem.Keys
  {
    hide SpaceOk;
    FreedFacts(u, d, a);
  }

  /** Pages that lose their role are on the free list. */
  lemma FreedListed(s: Space, u: Space, free: seq<nat>, d: nat, lo: nat, hi: nat)
    requires SpaceOk(s) && PoolOk(u.mem, u.own, free) && UserLess(s, u, d, lo, hi) && u.mem.Keys == s.mem.Keys
    ensures forall f :: f in s.own && Freed(s, s.own[f], d, lo, hi) ==> f in free
  {
    hide Lookup, TableOf, Missed;
    forall f | f in s.own && Freed(s, s.own[f], d, lo, hi) ensures f in free {
      assert RoleOk(s, f);
    }
  }

  /** PGROUNDUP, in pages. */
  function Up(sz: nat): nat { (sz + PGSIZE - 1) / PGSIZE }

  lemma TableForLookup(s: Space, d: nat, v: nat)
    requires IsDir(s, d) && v < PAGES
    ensures Lookup(s, d, v).Some? ==> TableOf(s, d, v).Some?
  {
  }

  lemma TableEntry(s: Space, d: nat, v: nat, t: nat)
    requires IsDir(s, d) && v < PAGES && TableOf(s, d, v) == Some(t)
    ensures t in s.mem
    ensures Lookup(s, d, v) == if Present(s.mem[t][v % ENTRIES]) then Some(s.mem[t][v % ENTRIES]) else None
  {
  }

  lemma HeldIsPage(s: Space, f: nat)
    requires SpaceOk(s)
    ensures f in s.own ==> f in s.mem
  {
    assert f in s.own ==> RoleOk(s, f);
  }

  lemma HeldNow(own: map<nat, Role>, v: nat, last: nat, f: nat)
    requires HeldFrom(own, v, last, f) && v <= last
    ensures v < USER ==> f in own && own[f].Held?
  {
  }

  lemma RangeEmpty(s: Space, d: nat, a: nat, f: nat, perm: nat)
    requires perm < FLAGS && IsDir(s, d)
    ensures RangeMapped(s, d, a, a, f, perm)
  {
  }

  /** mappages has mapped page v to f, starting from s with n free pages. */
  ghost predicate OneMapped(s: Space, n: nat, t: Space, m: nat, d: nat, v: nat, f: nat, perm: nat)
    requires perm < FLAGS && v < PAGES
  {
    && IsDir(s, d) && IsDir(t, d) && t.mem.Keys == s.mem.Keys
    && Lookup(s, d, v).None? && Lookup(t, d, v) == Some(Entry(f, perm)) && Steady(s, t, d, v, v + 1)
    && (v < USER ==> f in s.own && s.own[f].Held? && f in t.own && t.own[f] == User(d, v))
    && (forall g :: g in s.own && (g != f || v >= USER) ==> g in t.own && t.own[g] == s.own[g])
    && NewTables(s.own, t.own, d) && HeldKept(s, t)
    && DirGrows(s, t, d, {v / ENTRIES}) && n == m + if Present(Pde(s, d, v / ENTRIES)) then 0 else 1
  }

  ghost predicate Unmapped(s: Space, d: nat, a: nat, b: nat) {
    IsDir(s, d) && forall v: nat :: a <= v < b && v < PAGES ==> Lookup(s, d, v).None?
  }

  /** Roles stay, but for the pages from f on that pages first to a, below KERNBASE, are mapped to. */
  ghost predicate OthersOwned(own: map<nat, Role>, own': map<nat, Role>, f: nat, first: nat, a: nat) {
    forall g :: g in own && !(f <= g < f + (a - first) && first + (g - f) < USER) ==> g in own' && own'[g] == own[g]
  }

  /** mappages has come from page first to page a; it started in s with n free pages, m are left. */
  ghost predicate Mapping(s: Space, n: nat, u: Space, m: nat, d: nat, first: nat, a: nat, f: nat, perm: nat)
    requires perm < FLAGS
  {
    && first <= a <= PAGES && IsDir(s, d) && IsDir(u, d) && u.mem.Keys == s.mem.Keys
    && RangeMapped(u, d, first, a, f, perm) && Steady(s, u, d, first, a) && Unmapped(s, d, first, a)
    && OthersOwned(s.own, u.own, f, first, a) && NewTables(s.own, u.own, d)
    && HeldKept(s, u) && HeldOrMapped(s, u, d, first, a)
    && DirGrows(s, u, d, TablesFor(first, a)) && n == m + |Missing(s, d, first, a)|
  }

  lemma MappingStarts(s: Space, n: nat, d: nat, first: nat, f: nat, perm: nat)
    requires SpaceOk(s) && IsDir(s, d) && perm < FLAGS && first < PAGES
    ensures Mapping(s, n, s, n, d, first, first, f, perm)
  {
    hide Lookup, TableOf, Steady;
    RangeEmpty(s, d, first, f, perm);
    SteadyRefl(s, d, first, first);
    NeedNone(s, d, first);
    assert HeldOrMapped(s, s, d, first, first);
  }

  lemma MappingNext(s: Space, n: nat, u: Space, m: nat, t: Space, l: nat, d: nat, first: nat, a: nat, f: nat, perm: nat)
    requires perm < FLAGS && a < PAGES && Mapping(s, n, u, m, d, first, a, f, perm)
    requires OneMapped(u, m, t, l, d, a, f + (a - first), perm)
    ensures Mapping(s, n, t, l, d, first, a + 1, f, perm)
  {
    hide Lookup, TableOf, Steady, Missing, Extra, Entry, RangeMapped, DirGrows, TablesFor;
    RangeGrows(u, t, d, first, a, f, perm);
    HeldChain(s, u, t, d, first, a, f + (a - first));
    SteadyWiden(u, t, d, a, a + 1, d, first, a + 1);
    SteadyWiden(s, u, d, first, a, d, first, a + 1);
    SteadyTrans(s, u, t, d, first, a + 1);
    SteadyAt(s, u, d, first, a, d, a);
    GrowsNext(s, u, t, d, first, a);
    MissingNext(s, d, first, a);
    assert Unmapped(s, d, first, a + 1) && OthersOwned(s.own, t.own, f, first, a + 1);
  }

  lemma MappingStops(s: Space, n: nat, u: Space, m: nat, d: nat, first: nat, a: nat, f: nat, perm: nat, last: nat, r: MapResult)
    requires perm < FLAGS && Mapping(s, n, u, m, d, first, a, f, perm) && a <= last < PAGES && !r.Mapped?
    requires r.NoMemory? ==> m == 0 && !Present(Pde(u, d, a / ENTRIES))
    requires r.Remap? ==> Lookup(u, d, a).Some?
    ensures r.NoMemory? ==> Extra(s, d, first, a) && n < |Missing(s, d, first, last + 1)|
    ensures r.Remap? ==> Lookup(s, d, a).Some? && !Unmapped(s, d, first, last + 1)
  {
    hide Lookup, TableOf, Steady, Missing;
    SteadyAt(s, u, d, first, a, d, a);
    MissingNext(s, d, first, a);
    MissingMono(s, d, first, a + 1, last + 1);
  }

  lemma MappingDone(s: Space, n: nat, u: Space, m: nat, d: nat, first: nat, last: nat, f: nat, perm: nat)
    requires perm < FLAGS && Mapping(s, n, u, m, d, first, last + 1, f, perm)
    ensures n >= |Missing(s, d, first, last + 1)|
  {
    hide Missing, Steady, RangeMapped;
  }

  lemma HeldAfter(u: Space, m: nat, t: Space, l: nat, d: nat, a: nat, last: nat, f: nat, perm: nat)
    requires perm < FLAGS && a < last && a < PAGES && OneMapped(u, m, t, l, d, a, f, perm) && HeldFrom(u.own, a, last, f)
    ensures HeldFrom(t.own, a + 1, last, f + 1) && IsDir(t, d)
  {
    hide Lookup, Steady, Entry, DirGrows;
    HeldNext(u.own, t.own, a, last, f);
  }

  /** The only new roles are those of page tables of the space. */
  ghost predicate NewTables(own: map<nat, Role>, own': map<nat, Role>, d: nat) {
    forall f :: f in own' && f !in own ==> own'[f].Table? && own'[f].d == d
  }

  /** Held pages are not written to. */
  ghost predicate HeldKept(s: Space, u: Space) {
    forall f :: f in s.own && s.own[f].Held? && f in s.mem ==> f in u.mem && u.mem[f] == s.mem[f]
  }

  /** Held pages stay held, or become pages first to a of the space. */
  ghost predicate HeldOrMapped(s: Space, u: Space, d: nat, first: nat, a: nat) {
    forall f :: f in s.own && s.own[f].Held? && f in s.mem ==>
      f in u.mem && f in u.own && (u.own[f].Held? || Lies(u.own[f], d, first, a))
  }

  lemma HeldChain(s: Space, u: Space, t: Space, d: nat, first: nat, a: nat, f: nat)
    requires HeldKept(s, u) && HeldOrMapped(s, u, d, first, a) && HeldKept(u, t) && Steady(u, t, d, a, a + 1) && first <= a
    requires forall g :: g in u.own && (g != f || a >= USER) ==> g in t.own && t.own[g] == u.own[g]
    requires a < USER ==> f in t.own && t.own[f] == User(d, a)
    ensures HeldKept(s, t) && HeldOrMapped(s, t, d, first, a + 1)
  {
    hide Lookup, TableOf;
    forall g | g in s.own && s.own[g].Held? && g in s.mem
      ensures g in t.mem && t.mem[g] == s.mem[g] && g in t.own && (t.own[g].Held? || Lies(t.own[g], d, first, a + 1))
    {
      assert PageKept(u, t, d, a, a + 1, g);
    }
  }

  /** Roles stay; pages may get one. */
  ghost predicate OwnersGrow(own: map<nat, Role>, own': map<nat, Role>) {
    forall f :: f in own ==> f in own' && own'[f] == own[f]
  }
}
