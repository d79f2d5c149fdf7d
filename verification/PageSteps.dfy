/** What single steps on page tables leave as it was. */
module PageSteps {
  import opened Wrappers
  import opened PageTable

  /** u follows s, and only pages lo to hi of the space with directory d may have changed. */
  ghost predicate Steady(s: Space, u: Space, d: nat, lo: nat, hi: nat) {
    && (forall e :: IsDir(s, e) ==> IsDir(u, e))
    && (forall e, v: nat :: IsDir(s, e) && v < PAGES ==> Agrees(s, u, d, lo, hi, e, v))
    && (forall f :: f in s.own ==> PageKept(s, u, d, lo, hi, f))
  }

  predicate Spared(d: nat, lo: nat, hi: nat, e: nat, v: nat) { e != d || v < lo || hi <= v }

  ghost predicate Agrees(s: Space, u: Space, d: nat, lo: nat, hi: nat, e: nat, v: nat)
    requires IsDir(s, e) && v < PAGES
  {
    && IsDir(u, e)
    && (Spared(d, lo, hi, e, v) ==> Lookup(u, e, v) == Lookup(s, e, v))
    && (TableOf(s, e, v).Some? ==> TableOf(u, e, v) == TableOf(s, e, v))
  }

  /** The contents of user pages. */
  ghost predicate PageKept(s: Space, u: Space, d: nat, lo: nat, hi: nat, f: nat)
    requires f in s.own
  {
    s.own[f].User? && Spared(d, lo, hi, s.own[f].d, s.own[f].v) ==>
      f in s.mem && f in u.mem && f in u.own && u.own[f] == s.own[f] && u.mem[f] == s.mem[f]
  }

  lemma SteadyRefl(s: Space, d: nat, lo: nat, hi: nat)
    requires SpaceOk(s)
    ensures Steady(s, s, d, lo, hi)
  {
    hide Lookup, TableOf;
    forall f | f in s.own ensures PageKept(s, s, d, lo, hi, f) {
      assert RoleOk(s, f);
    }
  }

  lemma SteadyTrans(s: Space, t: Space, u: Space, d: nat, lo: nat, hi: nat)
    requires Steady(s, t, d, lo, hi) && Steady(t, u, d, lo, hi)
    ensures Steady(s, u, d, lo, hi)
  {
    hide Lookup, TableOf;
    forall e | IsDir(s, e) ensures IsDir(u, e) {
      assert IsDir(t, e);
    }
    forall e, v: nat | IsDir(s, e) && v < PAGES ensures Agrees(s, u, d, lo, hi, e, v) {
      assert Agrees(s, t, d, lo, hi, e, v) && Agrees(t, u, d, lo, hi, e, v);
    }
    forall f | f in s.own ensures PageKept(s, u, d, lo, hi, f) {
      assert PageKept(s, t, d, lo, hi, f);
      assert f in t.own ==> PageKept(t, u, d, lo, hi, f);
    }
  }

  // ---- pages that no space uses ---------------------------------------------------------------------------

  predicate Spare(s: Space, f: nat) { f in s.own ==> s.own[f].Held? }

  /** Only page f differs, and it is held or free. */
  ghost predicate SpareStep(s: Space, u: Space, f: nat) {
    && f in s.mem && f in u.mem && u.mem == s.mem[f := u.mem[f]] && Spare(s, f) && Spare(u, f)
    && (forall g :: g != f ==> (g in s.own <==> g in u.own))
    && (forall g :: g != f && g in s.own ==> u.own[g] == s.own[g])
  }

  lemma SpareLookup(s: Space, u: Space, f: nat, e: nat, v: nat)
    requires SpaceOk(s) && SpareStep(s, u, f) && IsDir(s, e) && v < PAGES
    ensures IsDir(u, e) && Lookup(u, e, v) == Lookup(s, e, v) && TableOf(u, e, v) == TableOf(s, e, v)
    ensures forall x :: 0 <= x < ENTRIES ==> Pde(u, e, x) == Pde(s, e, x)
  {
    TableFacts(s, e, v);
  }

  lemma SpareKeeps(s: Space, u: Space, f: nat)
    requires SpaceOk(s) && SpareStep(s, u, f)
    ensures SpaceOk(u)
  {
    hide Lookup, TableOf, Pde;
    forall e, x: nat | IsDir(u, e) && x < ENTRIES ensures DirOk(u, e, x) {
      SpareLookup(s, u, f, e, 0);
      assert DirOk(s, e, x);
    }
    forall e, v: nat | IsDir(u, e) && v < USER ensures UserOk(u, e, v) {
      SpareLookup(s, u, f, e, v);
      assert UserOk(s, e, v);
    }
    forall g | g in u.own ensures RoleOk(u, g) {
      assert g in s.own ==> RoleOk(s, g);
      if g in s.own && s.own[g].User? {
        SpareLookup(s, u, f, s.own[g].d, s.own[g].v);
      } else if g in s.own && s.own[g].Table? {
        SpareLookup(s, u, f, s.own[g].d, 0);
      }
    }
  }

  lemma SpareSteady(s: Space, u: Space, f: nat, d: nat, lo: nat, hi: nat)
    requires SpaceOk(s) && SpareStep(s, u, f)
    ensures Steady(s, u, d, lo, hi)
  {
    hide Lookup, TableOf, Pde;
    forall e, v: nat | IsDir(s, e) && v < PAGES ensures Agrees(s, u, d, lo, hi, e, v) {
      SpareLookup(s, u, f, e, v);
    }
    forall g | g in s.own ensures PageKept(s, u, d, lo, hi, g) {
      assert RoleOk(s, g);
    }
  }

  // ---- tables and translations ------------------------------------------------------------------------------

  lemma TableAddedTables(s: Space, d: nat, x: nat, t: nat, e: nat, v: nat)
    requires CanAddTable(s, d, x, t) && IsDir(s, e) && v < PAGES && TableOf(s, e, v).Some?
    ensures TableOf(TableAdded(s, d, x, t), e, v) == TableOf(s, e, v)
  {
    TableFacts(s, e, v);
  }

  lemma TableAddedSteady(s: Space, d: nat, x: nat, t: nat, e: nat, lo: nat, hi: nat)
    requires CanAddTable(s, d, x, t)
    ensures Steady(s, TableAdded(s, d, x, t), e, lo, hi)
  {
    var u := TableAdded(s, d, x, t);
    hide Lookup, TableOf;
    forall g, v: nat | IsDir(s, g) && v < PAGES ensures Agrees(s, u, e, lo, hi, g, v) {
      TableAddedLookup(s, d, x, t, g, v);
      if TableOf(s, g, v).Some? {
        TableAddedTables(s, d, x, t, g, v);
      }
    }
    forall g | g in s.own ensures PageKept(s, u, e, lo, hi, g) {
      assert RoleOk(s, g);
    }
  }

  lemma PageMappedSteady(s: Space, d: nat, v: nat, f: nat, perm: nat, lo: nat, hi: nat)
    requires CanMap(s, d, v, f) && perm < FLAGS && lo <= v < hi
    ensures Steady(s, PageMapped(s, d, v, f, perm), d, lo, hi)
  {
    hide Lookup, TableOf;
    var u := PageMapped(s, d, v, f, perm);
    TableFacts(s, d, v);
    forall e, w: nat | IsDir(s, e) && w < PAGES ensures Agrees(s, u, d, lo, hi, e, w) {
      PageMappedLookup(s, d, v, f, perm, e, w);
    }
    forall g | g in s.own ensures PageKept(s, u, d, lo, hi, g) {
      assert RoleOk(s, g);
    }
  }

  lemma PageFreedSteady(s: Space, d: nat, v: nat, lo: nat, hi: nat)
    requires CanFree(s, d, v) && lo <= v < hi
    ensures Steady(s, PageFreed(s, d, v), d, lo, hi)
  {
    hide Lookup, TableOf;
    var u := PageFreed(s, d, v);
    FreedFacts(s, d, v);
    forall e, w: nat | IsDir(s, e) && w < PAGES ensures Agrees(s, u, d, lo, hi, e, w) {
      PageFreedLookup(s, d, v, e, w);
    }
    forall g | g in s.own ensures PageKept(s, u, d, lo, hi, g) {
      assert RoleOk(s, g);
    }
  }

  lemma SteadyWiden(s: Space, u: Space, d: nat, lo: nat, hi: nat, e: nat, lo': nat, hi': nat)
    requires Steady(s, u, d, lo, hi) && (hi <= lo || (e == d && lo' <= lo && hi <= hi'))
    ensures Steady(s, u, e, lo', hi')
  {
    hide Lookup, TableOf;
    forall g, v: nat | IsDir(s, g) && v < PAGES ensures Agrees(s, u, e, lo', hi', g, v) {
      assert Agrees(s, u, d, lo, hi, g, v);
    }
    forall f | f in s.own ensures PageKept(s, u, e, lo', hi', f) {
      assert PageKept(s, u, d, lo, hi, f);
    }
  }

  lemma SteadyAt(s: Space, u: Space, d: nat, lo: nat, hi: nat, e: nat, v: nat)
    requires Steady(s, u, d, lo, hi) && IsDir(s, e) && v < PAGES
    ensures IsDir(u, e)
    ensures Spared(d, lo, hi, e, v) ==> Lookup(u, e, v) == Lookup(s, e, v)
    ensures TableOf(s, e, v).Some? ==> TableOf(u, e, v) == TableOf(s, e, v)
  {
    assert Agrees(s, u, d, lo, hi, e, v);
  }

  // ---- ranges ------------------------------------------------------------------------------------------------

  /** Virtual pages a to b are mapped to the physical pages from f on. */
  ghost predicate RangeMapped(s: Space, d: nat, a: nat, b: nat, f: nat, perm: nat)
    requires perm < FLAGS
  {
    IsDir(s, d) && forall v: nat :: a <= v < b && v < PAGES ==> Lookup(s, d, v) == Some(Entry(f + (v - a), perm))
  }

  lemma RangeGrows(s: Space, u: Space, d: nat, a: nat, b: nat, f: nat, perm: nat)
    requires perm < FLAGS && RangeMapped(s, d, a, b, f, perm) && Steady(s, u, d, b, b + 1) && a <= b < PAGES
    requires IsDir(u, d) && Lookup(u, d, b) == Some(Entry(f + (b - a), perm))
    ensures RangeMapped(u, d, a, b + 1, f, perm)
  {
    hide Lookup, Entry, Steady;
    forall v: nat | a <= v < b + 1 && v < PAGES ensures Lookup(u, d, v) == Some(Entry(f + (v - a), perm)) {
      if v < b {
        SteadyAt(s, u, d, b, b + 1, d, v);
      }
    }
  }

  /** Below KERNBASE the pages to be mapped are held. */
  ghost predicate HeldFrom(own: map<nat, Role>, v: nat, last: nat, f: nat) {
    forall g: nat :: f <= g <= f + (last - v) && v + (g - f) < USER ==> g in own && own[g].Held?
  }

  lemma HeldNext(own: map<nat, Role>, own': map<nat, Role>, v: nat, last: nat, f: nat)
    requires HeldFrom(own, v, last, f) && v < last && forall g :: g in own && g != f ==> g in own' && own'[g] == own[g]
    ensures HeldFrom(own', v + 1, last, f + 1)
  {
    forall g: nat | f + 1 <= g <= f + 1 + (last - (v + 1)) && v + 1 + (g - (f + 1)) < USER ensures g in own' && own'[g].Held? {
      assert g in own && own[g].Held?;
    }
  }

  // ---- user pages freed ----------------------------------------------------------------------------------------

  /** What deallocuvm misses on its way up from lo. At a missing page table it goes on 1024 pages
      further; from a page in the middle of a table that leads into the middle of the next one. So if
      the first page table there is belongs to a later page, its entries below that middle are
      passed over. */
  ghost predicate Missed(s: Space, d: nat, lo: nat, v: nat) {
    && d in s.mem && v < PAGES && lo / ENTRIES < v / ENTRIES && v % ENTRIES < lo % ENTRIES
    && forall w: nat :: lo <= w < v && w / ENTRIES < v / ENTRIES ==> TableOf(s, d, w).None?
  }

  /** A page with this role is one of those from lo to hi, and not missed. */
  ghost predicate Freed(s: Space, r: Role, d: nat, lo: nat, hi: nat) { Lies(r, d, lo, hi) && !Missed(s, d, lo, r.v) }

  /** u has lost the pages lo to hi of the space with directory d, but for those missed, and no others. */
  ghost predicate UserLess(s: Space, u: Space, d: nat, lo: nat, hi: nat) {
    && (forall f :: f in u.own ==> f in s.own && u.own[f] == s.own[f])
    && (forall f :: f in s.own ==> (f in u.own <==> !Freed(s, s.own[f], d, lo, hi)))
  }

  predicate Lies(r: Role, d: nat, lo: nat, hi: nat) { r.User? && r.d == d && lo <= r.v < hi }

  /** A page with the role of user page v is the one that v is mapped to. */
  lemma UserAt(s: Space, d: nat, v: nat, f: nat)
    requires SpaceOk(s) && IsDir(s, d) && v < USER && f in s.own && s.own[f] == User(d, v)
    ensures Lookup(s, d, v).Some? && AddrOf(Lookup(s, d, v).value) == f
  {
    assert RoleOk(s, f);
  }

  lemma UserLessFreed(s: Space, u: Space, d: nat, lo: nat, a: nat)
    requires UserLess(s, u, d, lo, a) && CanFree(u, d, a) && lo <= a && !Missed(s, d, lo, a)
    ensures UserLess(s, PageFreed(u, d, a), d, lo, a + 1)
  {
    hide Lookup, TableOf, SpaceOk, Missed;
    FreedFacts(u, d, a);
    forall f | f in u.own && u.own[f] == User(d, a) ensures f == AddrOf(Lookup(u, d, a).value) {
      UserAt(u, d, a, f);
    }
  }

  lemma UserLessSkipped(s: Space, u: Space, d: nat, lo: nat, a: nat, b: nat)
    requires SpaceOk(u) && IsDir(u, d) && UserLess(s, u, d, lo, a) && lo <= a <= b
    requires forall v: nat :: a <= v < b && v < USER ==> Lookup(u, d, v).None? || Missed(s, d, lo, v)
    ensures UserLess(s, u, d, lo, b)
  {
    hide Lookup, TableOf, Missed;
    forall f | f in u.own && Lies(u.own[f], d, a, b) && !Missed(s, d, lo, u.own[f].v) ensures false {
      assert RoleOk(u, f);
      UserAt(u, d, u.own[f].v, f);
    }
  }
}
