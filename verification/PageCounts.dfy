/** How many pages mapping a range takes: one for every page table that is missing. */
module PageCounts {
  import opened Wrappers
  import opened PageTable
  import opened PageSteps

  /** The directory entries that virtual pages a to b go through. */
  function TablesFor(a: nat, b: nat): set<nat> { set v: nat | a <= v < b :: v / ENTRIES }

  /** Those of them without a page table. */
  ghost function Missing(s: Space, d: nat, a: nat, b: nat): set<nat>
    requires d in s.mem
  {
    set x | x in TablesFor(a, b) && x < ENTRIES && !Present(Pde(s, d, x))
  }

  /** Page v is the first of the range from a on that goes through a missing table. */
  ghost predicate Extra(s: Space, d: nat, a: nat, v: nat)
    requires d in s.mem
  {
    v / ENTRIES < ENTRIES && v / ENTRIES !in TablesFor(a, v) && !Present(Pde(s, d, v / ENTRIES))
  }

  lemma TablesNext(a: nat, v: nat)
    requires a <= v
    ensures TablesFor(a, v + 1) == TablesFor(a, v) + {v / ENTRIES}
  {
    assert v / ENTRIES in TablesFor(a, v + 1);
  }

  lemma MissingNext(s: Space, d: nat, a: nat, v: nat)
    requires d in s.mem && a <= v < PAGES
    ensures |Missing(s, d, a, v + 1)| == |Missing(s, d, a, v)| + if Extra(s, d, a, v) then 1 else 0
  {
    TablesNext(a, v);
    var x := v / ENTRIES;
    if Extra(s, d, a, v) {
      assert Missing(s, d, a, v + 1) == Missing(s, d, a, v) + {x} && x !in Missing(s, d, a, v);
    } else {
      assert Missing(s, d, a, v + 1) == Missing(s, d, a, v);
    }
  }

  lemma {:induction false} MissingMono(s: Space, d: nat, a: nat, v: nat, w: nat)
    requires d in s.mem && a <= v <= w <= PAGES
    ensures |Missing(s, d, a, v)| <= |Missing(s, d, a, w)|
    decreases w - v
  {
    if v < w {
      MissingNext(s, d, a, v);
      MissingMono(s, d, a, v + 1, w);
    }
  }

  /** u is s with page tables at xs. */
  ghost predicate DirGrows(s: Space, u: Space, d: nat, xs: set<nat>) {
    && d in s.mem && d in u.mem
    && forall x: nat :: x < ENTRIES ==> (Present(Pde(u, d, x)) <==> Present(Pde(s, d, x)) || x in xs)
  }

  lemma GrowsNext(s: Space, u: Space, t: Space, d: nat, a: nat, v: nat)
    requires DirGrows(s, u, d, TablesFor(a, v)) && DirGrows(u, t, d, {v / ENTRIES}) && a <= v < PAGES
    ensures DirGrows(s, t, d, TablesFor(a, v + 1))
    ensures Present(Pde(u, d, v / ENTRIES)) <==> !Extra(s, d, a, v)
  {
    hide Pde;
    TablesNext(a, v);
  }

  // ---- one page at a time ---------------------------------------------------------------------------

  /** Pages that it takes to give pages lo to a memory of their own: one each, and the missing tables. */
  ghost function Need(s: Space, d: nat, lo: nat, a: nat): nat
    requires d in s.mem && lo <= a
  {
    a - lo + |Missing(s, d, lo, a)|
  }

  lemma NeedNext(s: Space, d: nat, lo: nat, a: nat)
    requires d in s.mem && lo <= a < PAGES
    ensures Need(s, d, lo, a + 1) == Need(s, d, lo, a) + if Extra(s, d, lo, a) then 2 else 1
  {
    MissingNext(s, d, lo, a);
  }

  lemma NeedMono(s: Space, d: nat, lo: nat, a: nat, b: nat)
    requires d in s.mem && lo <= a <= b <= PAGES
    ensures Need(s, d, lo, a) + (b - a) <= Need(s, d, lo, b)
  {
    MissingMono(s, d, lo, a, b);
  }

  lemma NeedNone(s: Space, d: nat, lo: nat)
    requires d in s.mem
    ensures Need(s, d, lo, lo) == 0 && TablesFor(lo, lo) == {} && Missing(s, d, lo, lo) == {}
  {
    assert TablesFor(lo, lo) == {};
    assert Missing(s, d, lo, lo) == {};
  }
}
