/** Two-level page tables in physical pages (vm.c), and who owns each page (kalloc.c). */
module PageTable {
  import opened Wrappers

  const ENTRIES: nat := 1024
  const USER: nat := 0x80000          // virtual pages below KERNBASE
  const PAGES: nat := 0x100000        // virtual pages in all
  const PTE_P: nat := 1
  const PTE_WU: nat := 6              // PTE_W | PTE_U
  const FLAGS: nat := 4096

  type Page = s: seq<nat> | |s| == ENTRIES witness seq(ENTRIES, _ => 0)

  predicate Present(w: nat) { w % 2 == 1 }

  function AddrOf(w: nat): nat { w / FLAGS }

  function FlagsOf(w: nat): nat { w % FLAGS }

  /** pa | perm | PTE_P, for the page numbered f. */
  function Entry(f: nat, perm: nat): (w: nat)
    requires perm < FLAGS
    ensures Present(w) && AddrOf(w) == f && FlagsOf(w) == if perm % 2 == 1 then perm else perm + 1
  {
    var low := if perm % 2 == 1 then perm else perm + 1;
    assert low < FLAGS && (f * FLAGS + low) / FLAGS == f && (f * FLAGS + low) % FLAGS == low;
    f * FLAGS + low
  }

  /** What a physical page is used for: held by the kernel since kalloc, a page directory, the page
      table in entry x of directory d, or user page v of the space with directory d. */
  datatype Role = Held | Dir | Table(d: nat, x: nat) | User(d: nat, v: nat)

  datatype Space = Space(mem: map<nat, Page>, own: map<nat, Role>)

  predicate IsDir(s: Space, d: nat) { d in s.mem && d in s.own && s.own[d].Dir? }

  function Zero(): (p: Page)
    ensures forall i :: 0 <= i < ENTRIES ==> p[i] == 0
  {
    seq(ENTRIES, i => 0)
  }

  function Pde(s: Space, d: nat, x: nat): nat
    requires d in s.mem && x < ENTRIES
  {
    s.mem[d][x]
  }

  /** The page table for virtual page v, if there is one. */
  function TableOf(s: Space, d: nat, v: nat): Option<nat>
    requires d in s.mem && v < PAGES
  {
    var pde := Pde(s, d, v / ENTRIES);
    if Present(pde) && AddrOf(pde) in s.mem then Some(AddrOf(pde)) else None
  }

  /** The page-table entry for v, if it is present: the address translation. */
  function Lookup(s: Space, d: nat, v: nat): Option<nat>
    requires d in s.mem && v < PAGES
  {
    match TableOf(s, d, v)
    case None => None
    case Some(t) => if Present(s.mem[t][v % ENTRIES]) then Some(s.mem[t][v % ENTRIES]) else None
  }

  // ---- ownership ---------------------------------------------------------------------------------------

  ghost predicate DirOk(s: Space, d: nat, x: nat)
    requires IsDir(s, d) && x < ENTRIES
  {
    Present(Pde(s, d, x)) ==>
      && FlagsOf(Pde(s, d, x)) == PTE_WU + PTE_P
      && var t := AddrOf(Pde(s, d, x)); t in s.mem && t in s.own && s.own[t] == Table(d, x)
  }

  ghost predicate UserOk(s: Space, d: nat, v: nat)
    requires IsDir(s, d) && v < USER
  {
    Lookup(s, d, v).Some? ==>
      var f := AddrOf(Lookup(s, d, v).value); f in s.own && s.own[f] == User(d, v)
  }

  /** A page with a role is where its role says. */
  ghost predicate RoleOk(s: Space, f: nat)
    requires f in s.own
  {
    && f in s.mem
    && match s.own[f]
       case Held => true
       case Dir => true
       case Table(d, x) => x < ENTRIES && IsDir(s, d) && Present(Pde(s, d, x)) && AddrOf(Pde(s, d, x)) == f
       case User(d, v) => v < USER && IsDir(s, d) && Lookup(s, d, v).Some? && AddrOf(Lookup(s, d, v).value) == f
  }

  /** Tables and user pages are named by exactly one entry. */
  ghost predicate SpaceOk(s: Space) {
    && (forall d, x: nat :: IsDir(s, d) && x < ENTRIES ==> DirOk(s, d, x))
    && (forall d, v: nat :: IsDir(s, d) && v < USER ==> UserOk(s, d, v))
    && (forall f :: f in s.own ==> RoleOk(s, f))
  }

  /** The directory entry of a mapped page allows what the page-table entry does: the rights of a page
      are those of its own entry. */
  lemma DirectoryAllows(s: Space, d: nat, v: nat)
    requires SpaceOk(s) && IsDir(s, d) && v < PAGES && Lookup(s, d, v).Some?
    ensures FlagsOf(Pde(s, d, v / ENTRIES)) == PTE_WU + PTE_P
  {
    assert DirOk(s, d, v / ENTRIES);
  }

  /** No page is mapped twice for user code, in one space or two. */
  lemma UserPagesDistinct(s: Space, d: nat, v: nat, e: nat, u: nat)
    requires SpaceOk(s) && IsDir(s, d) && IsDir(s, e) && v < USER && u < USER
    requires Lookup(s, d, v).Some? && Lookup(s, e, u).Some? && AddrOf(Lookup(s, d, v).value) == AddrOf(Lookup(s, e, u).value)
    ensures d == e && v == u
  {
    assert UserOk(s, d, v) && UserOk(s, e, u);
  }

  /** Page-table pages of a space are found in its directory. */
  lemma TableFacts(s: Space, d: nat, v: nat)
    requires SpaceOk(s) && IsDir(s, d) && v < PAGES
    ensures var pde := Pde(s, d, v / ENTRIES);
      if Present(pde) then TableOf(s, d, v) == Some(AddrOf(pde)) && AddrOf(pde) in s.own && s.own[AddrOf(pde)] == Table(d, v / ENTRIES)
      else TableOf(s, d, v) == None
  {
    assert DirOk(s, d, v / ENTRIES);
  }

  // ---- a new page table ------------------------------------------------------------------------------------

  /** walkpgdir puts the page t, held so far, into the directory. */
  function TableAdded(s: Space, d: nat, x: nat, t: nat): Space
    requires d in s.mem && x < ENTRIES
  {
    Space(s.mem[t := Zero()][d := s.mem[d][x := Entry(t, PTE_WU)]], s.own[t := Table(d, x)])
  }

  ghost predicate CanAddTable(s: Space, d: nat, x: nat, t: nat) {
    && SpaceOk(s) && IsDir(s, d) && x < ENTRIES && !Present(Pde(s, d, x))
    && t in s.mem && t in s.own && s.own[t].Held?
  }

  /** An empty table translates nothing. */
  lemma TableAddedLookup(s: Space, d: nat, x: nat, t: nat, e: nat, v: nat)
    requires CanAddTable(s, d, x, t) && IsDir(s, e) && v < PAGES
    ensures var u := TableAdded(s, d, x, t); IsDir(u, e) && Lookup(u, e, v) == Lookup(s, e, v)
    ensures d == e && x == v / ENTRIES ==> TableOf(TableAdded(s, d, x, t), d, v) == Some(t)
  {
    TableFacts(s, e, v);
  }

  lemma TableAddedKeeps(s: Space, d: nat, x: nat, t: nat)
    requires CanAddTable(s, d, x, t)
    ensures SpaceOk(TableAdded(s, d, x, t))
  {
    var u := TableAdded(s, d, x, t);
    forall e, y: nat | IsDir(u, e) && y < ENTRIES ensures DirOk(u, e, y) {
      assert DirOk(s, e, y);
    }
    forall e, v: nat | IsDir(u, e) && v < USER ensures UserOk(u, e, v) {
      assert UserOk(s, e, v);
      TableAddedLookup(s, d, x, t, e, v);
    }
    forall f | f in u.own ensures RoleOk(u, f) {
      assert RoleOk(s, f);
      if s.own[f].User? {
        TableAddedLookup(s, d, x, t, s.own[f].d, s.own[f].v);
      }
    }
  }

  // ---- a new translation --------------------------------------------------------------------------------------

  /** *pte = pa | perm | PTE_P; below KERNBASE the page was held and now belongs to the space. */
  function PageMapped(s: Space, d: nat, v: nat, f: nat, perm: nat): Space
    requires d in s.mem && v < PAGES && TableOf(s, d, v).Some? && perm < FLAGS
  {
    var t := TableOf(s, d, v).value;
    Space(s.mem[t := s.mem[t][v % ENTRIES := Entry(f, perm)]], if v < USER then s.own[f := User(d, v)] else s.own)
  }

  ghost predicate CanMap(s: Space, d: nat, v: nat, f: nat) {
    && SpaceOk(s) && IsDir(s, d) && v < PAGES && TableOf(s, d, v).Some? && Lookup(s, d, v).None?
    && (v < USER ==> f in s.mem && f in s.own && s.own[f].Held?)
  }

  /** Virtual pages are told apart by table and entry. */
  lemma SplitPage(v: nat, u: nat)
    requires v / ENTRIES == u / ENTRIES && v % ENTRIES == u % ENTRIES
    ensures v == u
  {
  }

  /** Exactly one translation is added. */
  lemma PageMappedLookup(s: Space, d: nat, v: nat, f: nat, perm: nat, e: nat, u: nat)
    requires CanMap(s, d, v, f) && perm < FLAGS && IsDir(s, e) && u < PAGES
    ensures var t := PageMapped(s, d, v, f, perm);
      IsDir(t, e) && Lookup(t, e, u) == if e == d && u == v then Some(Entry(f, perm)) else Lookup(s, e, u)
    ensures TableOf(PageMapped(s, d, v, f, perm), e, u) == TableOf(s, e, u)
  {
    TableFacts(s, d, v);
    TableFacts(s, e, u);
    if v / ENTRIES == u / ENTRIES && v % ENTRIES == u % ENTRIES {
      SplitPage(v, u);
    }
  }

  lemma PageMappedKeeps(s: Space, d: nat, v: nat, f: nat, perm: nat)
    requires CanMap(s, d, v, f) && perm < FLAGS
    ensures SpaceOk(PageMapped(s, d, v, f, perm))
  {
    hide Lookup, TableOf;
    var t := PageMapped(s, d, v, f, perm);
    TableFacts(s, d, v);
    forall e, y: nat | IsDir(t, e) && y < ENTRIES ensures DirOk(t, e, y) {
      assert DirOk(s, e, y);
    }
    forall e, u: nat | IsDir(t, e) && u < USER ensures UserOk(t, e, u) {
      assert UserOk(s, e, u);
      PageMappedLookup(s, d, v, f, perm, e, u);
    }
    forall g | g in t.own ensures RoleOk(t, g) {
      if g in s.own {
        assert RoleOk(s, g);
        if s.own[g].User? {
          PageMappedLookup(s, d, v, f, perm, s.own[g].d, s.own[g].v);
        }
      }
      PageMappedLookup(s, d, v, f, perm, d, v);
    }
  }

  // ---- a translation removed ---------------------------------------------------------------------------------------

  /** What kfree leaves in a page. */
  function Junk(): Page { seq(ENTRIES, i => 0x01010101) }

  /** deallocuvm: kfree of the page, and *pte = 0. */
  function PageFreed(s: Space, d: nat, v: nat): Space
    requires d in s.mem && v < PAGES && Lookup(s, d, v).Some?
  {
    var t := TableOf(s, d, v).value;
    var f := AddrOf(Lookup(s, d, v).value);
    var mem := s.mem[f := Junk()];
    Space(if t in mem then mem[t := mem[t][v % ENTRIES := 0]] else mem, s.own - {f})
  }

  ghost predicate CanFree(s: Space, d: nat, v: nat) {
    SpaceOk(s) && IsDir(s, d) && v < USER && Lookup(s, d, v).Some?
  }

  lemma FreedFacts(s: Space, d: nat, v: nat)
    requires CanFree(s, d, v)
    ensures var f := AddrOf(Lookup(s, d, v).value); f in s.own && f in s.mem && s.own[f] == User(d, v)
    ensures TableOf(s, d, v).Some? && TableOf(s, d, v).value in s.mem
    ensures TableOf(s, d, v).value in s.own && s.own[TableOf(s, d, v).value] == Table(d, v / ENTRIES)
  {
    TableFacts(s, d, v);
    assert UserOk(s, d, v);
    assert RoleOk(s, AddrOf(Lookup(s, d, v).value));
  }

  lemma PageFreedLookup(s: Space, d: nat, v: nat, e: nat, u: nat)
    requires CanFree(s, d, v) && IsDir(s, e) && u < PAGES
    ensures var t := PageFreed(s, d, v);
      IsDir(t, e) && Lookup(t, e, u) == if e == d && u == v then None else Lookup(s, e, u)
    ensures TableOf(PageFreed(s, d, v), e, u) == TableOf(s, e, u)
  {
    FreedFacts(s, d, v);
    TableFacts(s, d, v);
    TableFacts(s, e, u);
    if v / ENTRIES == u / ENTRIES && v % ENTRIES == u % ENTRIES {
      SplitPage(v, u);
    }
  }

  lemma PageFreedKeeps(s: Space, d: nat, v: nat)
    requires CanFree(s, d, v)
    ensures SpaceOk(PageFreed(s, d, v))
  {
    hide Lookup, TableOf;
    var t := PageFreed(s, d, v);
    FreedFacts(s, d, v);
    TableFacts(s, d, v);
    forall e, y: nat | IsDir(t, e) && y < ENTRIES ensures DirOk(t, e, y) {
      assert DirOk(s, e, y);
    }
    forall e, u: nat | IsDir(t, e) && u < USER ensures UserOk(t, e, u) {
      assert UserOk(s, e, u);
      PageFreedLookup(s, d, v, e, u);
    }
    forall g | g in t.own ensures RoleOk(t, g) {
      assert RoleOk(s, g);
      if s.own[g].User? {
        PageFreedLookup(s, d, v, s.own[g].d, s.own[g].v);
      }
    }
  }
}
