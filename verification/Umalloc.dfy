/** malloc and free of umalloc.c, with the loops that walk the circular free list. */
module Umalloc {
  import opened Wrappers
  import opened FreeList

  const HEADER: nat := 8           // sizeof(Header)
  const UINT: nat := 0x1_0000_0000

  /** nunits as malloc computes it in unsigned arithmetic. */
  function Units(nbytes: nat): (n: nat)
    requires nbytes < UINT
    ensures 1 <= n <= UINT / HEADER
  {
    (nbytes + HEADER - 1) % UINT / HEADER + 1
  }

  /** The block that malloc picks is large enough exactly when its rounding does not overflow. */
  lemma UnitsSufficeIff(nbytes: nat)
    requires nbytes < UINT
    ensures (Units(nbytes) - 1) * HEADER >= nbytes <==> nbytes + HEADER - 1 < UINT
  {
    if nbytes + HEADER - 1 < UINT {
      assert (nbytes + HEADER - 1) % UINT == nbytes + HEADER - 1;
    } else {
      assert (nbytes + HEADER - 1) % UINT == nbytes + HEADER - 1 - UINT;
    }
  }

  /** What sbrk receives: the product is unsigned, the parameter is a signed int. */
  function SbrkArgument(nu: nat): int {
    var bytes := nu * HEADER % UINT;
    if bytes < UINT / 2 then bytes else bytes - UINT
  }

  /** morecore asks for the memory that it then writes headers into exactly up to this size. */
  lemma SbrkArgumentIff(nu: nat)
    requires nu <= UINT / HEADER
    ensures SbrkArgument(nu) == nu * HEADER <==> nu * HEADER < UINT / 2
  {
  }

  /** How far index i is from the one after f, going round a list of n. */
  function Steps(f: nat, i: nat, n: nat): (d: nat)
    requires f < n && i < n
    ensures d < n
  {
    if i > f then i - f - 1 else n - f + i - 1
  }

  class Allocator {
    var mem: Memory
    var freep: nat               // 0 is the null pointer
    var brk: nat                 // end of the process, in units
    var limit: nat               // how far the kernel lets the process grow at present
    ghost var fl: seq<nat>       // the free list, by address, from base on
    ghost var alloc: map<nat, nat> // allocated blocks: header address and size
    ghost var heap: set<nat>     // all units obtained from sbrk

    ghost predicate Valid()
      reads this
    {
      && BASE < brk && (forall u :: u in heap ==> u < brk)
      && if freep == 0 then alloc == map[] && heap == {}
         else ListOk(mem, fl) && freep in fl && AllocOk(mem, alloc) && Tiled(heap, mem, fl, alloc)
    }

    constructor (end: nat, limit: nat)
      requires BASE < end
      ensures Valid() && freep == 0 && alloc == map[] && heap == {} && brk == end && this.limit == limit
    {
      mem, freep, brk, this.limit := map[], 0, end, limit;
      fl, alloc, heap := [], map[], {};
    }

    /** The search loop of free: it stops at the list element after which bp belongs. */
    method FindPlace(bp: nat, ghost i0: nat) returns (p: nat, ghost k: nat)
      requires ListOk(mem, fl) && i0 < |fl| && fl[i0] == freep && BASE < bp && bp !in fl
      ensures k < |fl| && fl[k] == p && BASE <= p < bp && (k + 1 < |fl| ==> bp < fl[k + 1])
    {
      assert NodeOk(mem, fl, 0);
      k := Place(fl, bp);
      ghost var i: nat := i0;
      p := freep;
      SearchStep(mem, fl, bp, i, k);
      while !(bp > p && bp < mem[p].ptr)
        invariant i < |fl| && fl[i] == p && p in mem
        invariant (bp > p && bp < mem[p].ptr) || (p >= mem[p].ptr && (bp > p || bp < mem[p].ptr)) <==> i == k
        decreases if i <= k then k - i else |fl| - i + k
      {
        if p >= mem[p].ptr && (bp > p || bp < mem[p].ptr) {
          break;
        }
        assert NodeOk(mem, fl, i);
        p, i := mem[p].ptr, Succ(fl, i);
        SearchStep(mem, fl, bp, i, k);
      }
      DistinctNodes(mem, fl);
    }

    /** The two if statements of free. */
    method Relink(p: nat, bp: nat, ghost k: nat)
      requires k < |fl| && fl[k] == p && p in mem && mem[p].ptr in mem && bp in mem && p != bp && mem[p].ptr != bp
      modifies this`mem
      ensures FreedMemory(old(mem), fl, k, bp, old(mem)[bp].size, mem)
    {
      var next := mem[p].ptr;
      if bp + mem[bp].size == next {
        mem := mem[bp := Header(mem[next].ptr, mem[bp].size + mem[next].size)];
      } else {
        mem := mem[bp := Header(next, mem[bp].size)];
      }
      if p + mem[p].size == bp {
        mem := mem[p := Header(mem[bp].ptr, mem[p].size + mem[bp].size)];
      } else {
        mem := mem[p := Header(bp, mem[p].size)];
      }
    }

    /** free of the block whose header is at bp. */
    method Free(bp: nat)
      requires Valid() && freep != 0 && bp in alloc
      modifies this
      ensures Valid() && freep != 0 && brk == old(brk) && limit == old(limit) && heap == old(heap)
      ensures alloc == old(alloc) - {bp}
      ensures freep in old(fl) && freep < bp && forall a :: a in old(fl) && a < bp ==> a <= freep
      ensures exists j :: 0 < j < |fl| && fl[j] in mem && fl[j] <= bp && bp + old(alloc)[bp] <= fl[j] + mem[fl[j]].size
    {
      hide ListOk, AllocOk, Tiled, Gains;
      ghost var m0, f0, n, i0 := mem, fl, alloc[bp], IndexIn(fl, freep);
      AllocFacts(heap, mem, fl, alloc, bp);
      var p, k := FindPlace(bp, i0);
      GapHolds(heap, mem, fl, alloc, bp, k);
      NodeFacts(mem, fl, k);
      NodeFacts(mem, fl, 0);
      NodeFacts(mem, fl, Succ(fl, k));
      Relink(p, bp, k);
      BeforeIt(m0, f0, bp, k);
      freep := p;
      fl := FreedList(m0, f0, k, bp, n);
      FreedOk(m0, f0, k, bp, n, mem);
      OthersKept(heap, m0, f0, alloc, bp, k, mem);
      FreeTiles(heap, m0, f0, alloc, bp, mem, fl);
      alloc := alloc - {bp};
    }

    /** What happens between two calls: other code of the process calls sbrk, which only moves the break,
        and the memory that the kernel has left changes. */
    method Elsewhere(more: nat, left: nat)
      requires Valid()
      modifies this`brk, this`limit
      ensures Valid() && brk == old(brk) + more && limit == left
    {
      brk, limit := brk + more, left;
    }

    /** sbrk: the process grows by nu units, if the kernel has them. */
    method Sbrk(nu: nat) returns (p: Option<nat>)
      requires Valid()
      modifies this`brk
      ensures Valid() && (p.Some? <==> old(brk) + nu <= limit)
      ensures if p.Some? then p.value == old(brk) && brk == old(brk) + nu else brk == old(brk)
    {
      if brk + nu > limit {
        return None;
      }
      p := Some(brk);
      brk := brk + nu;
    }

    /** morecore: at least 4096 units from sbrk, handed to free; 0 exactly if sbrk refuses. */
    method Morecore(nunits: nat) returns (p: nat)
      requires Valid() && freep != 0 && 1 <= nunits
      modifies this
      ensures Valid() && freep != 0 && alloc == old(alloc) && limit == old(limit)
      ensures p == 0 <==> Refused(old(brk), limit, nunits)
      ensures p == 0 ==> mem == old(mem) && fl == old(fl) && freep == old(freep) && heap == old(heap) && brk == old(brk)
      ensures p != 0 ==> p == freep && heap == old(heap) + CellSet(old(brk), Core(nunits)) && brk == old(brk) + Core(nunits)
      ensures p != 0 ==> exists j :: 0 < j < |fl| && fl[j] in mem && nunits <= mem[fl[j]].size
    {
      hide ListOk, AllocOk, Tiled;
      var nu := if nunits < 4096 then 4096 else nunits;
      var r := Sbrk(nu);
      if r.None? {
        return 0;
      }
      var hp := r.value;
      ghost var m0, h0, a0 := mem, heap, alloc;
      mem := mem[hp := Header(0, nu)];
      heap := heap + CellSet(hp, nu);
      alloc := alloc[hp := nu];
      NewBlock(h0, m0, fl, a0, hp, nu);
      Free(hp);
      assert alloc == a0;
      return freep;
    }

    /** malloc takes nunits from the block at p = fl[i], whose predecessor in the list is prevp. */
    method Carve(p: nat, prevp: nat, nunits: nat, ghost i: nat) returns (q: nat)
      requires Valid() && freep != 0 && 1 <= nunits && 0 < i < |fl| && fl[i] == p && fl[i - 1] == prevp
      requires p in mem && nunits <= mem[p].size
      modifies this
      ensures Valid() && freep == prevp != 0 && heap == old(heap) && brk == old(brk) && limit == old(limit)
      ensures q !in old(alloc) && alloc == old(alloc)[q := nunits] && q == p + old(mem)[p].size - nunits
    {
      hide ListOk, NodeOk, AllocOk, Tiled, Loses;
      ghost var m0, f0 := mem, fl;
      NeighbourFacts(mem, fl, i);
      if mem[p].size == nunits {
        mem := mem[prevp := Header(mem[p].ptr, mem[prevp].size)];
        q := p;
        fl := fl[..i] + fl[i + 1..];
        TakeWhole(m0, f0, i, mem, fl);
        assert fl[i - 1] == prevp;
      } else {
        var rest := mem[p].size - nunits;
        mem := mem[p := Header(mem[p].ptr, rest)];
        q := p + rest;
        mem := mem[q := Header(if q in mem then mem[q].ptr else 0, nunits)];
        TakeTail(m0, f0, i, nunits, mem);
      }
      freep := prevp;
      Taken(heap, m0, f0, alloc, q, nunits, mem, fl);
      alloc := alloc[q := nunits];
    }

    /** malloc's loop: first fit on a lap round the list, and one call of morecore if nothing fits. */
    method FirstFit(nunits: nat) returns (q: Option<nat>)
      requires Valid() && freep != 0 && 1 <= nunits
      modifies this
      ensures Valid() && freep != 0 && limit == old(limit)
      ensures q.None? <==> NoneFits(old(mem), old(fl), nunits) && Refused(old(brk), limit, nunits)
      ensures q.None? ==> alloc == old(alloc) && heap == old(heap) && brk == old(brk)
      ensures q.Some? ==> q.value !in old(alloc) && alloc == old(alloc)[q.value := nunits]
      ensures !NoneFits(old(mem), old(fl), nunits) ==> heap == old(heap) && brk == old(brk)
      ensures !NoneFits(old(mem), old(fl), nunits) ==> FirstBlock(old(mem), old(fl), old(freep), nunits, q.value, freep)
      ensures q.Some? && NoneFits(old(mem), old(fl), nunits) ==>
        heap == old(heap) + CellSet(old(brk), Core(nunits)) && brk == old(brk) + Core(nunits)
    {
      hide ListOk, AllocOk, Tiled, NoneFits, LapSoFar, FirstBlock, Refused;
      var grown := false;
      ghost var f: nat := IndexIn(fl, freep);
      ghost var i: nat := Succ(fl, f);
      NodeFacts(mem, fl, f);
      NodeFacts(mem, fl, i);
      LapStart(mem, fl, f, nunits);
      var prevp := freep;
      var p := mem[prevp].ptr;
      while mem[p].size < nunits
        invariant Valid() && freep != 0 && alloc == old(alloc) && limit == old(limit)
        invariant f < |fl| && fl[f] == freep && i < |fl| && fl[i] == p && NodeOk(mem, fl, i)
        invariant i > 0 ==> prevp == fl[i - 1]
        invariant LapSoFar(mem, fl, f, i, nunits)
        invariant !grown ==> heap == old(heap) && mem == old(mem) && fl == old(fl) && brk == old(brk) && freep == old(freep)
        invariant grown ==> NoneFits(old(mem), old(fl), nunits) && !NoneFits(mem, fl, nunits) && !Refused(old(brk), limit, nunits)
        invariant grown ==> heap == old(heap) + CellSet(old(brk), Core(nunits)) && brk == old(brk) + Core(nunits)
        decreases if grown then 0 else 1, |fl| - Steps(f, i, |fl|)
      {
        if p == freep {
          FullLap(mem, fl, f, i, nunits);
          p := Morecore(nunits);
          if p == 0 {
            return None;
          }
          grown := true;
          f := IndexIn(fl, freep);
          i := f;
          NodeFacts(mem, fl, f);
          LapStart(mem, fl, f, nunits);
          OneFits(mem, fl, nunits);
        } else {
          LapStep(mem, fl, f, i, nunits);
        }
        prevp := p;
        p, i := mem[p].ptr, Succ(fl, i);
        NodeFacts(mem, fl, i);
      }
      NodeFacts(mem, fl, 0);
      OneFits(mem, fl, nunits);
      BlockIsFirst(mem, fl, f, i, nunits);
      var r := Carve(p, prevp, nunits, i);
      q := Some(r);
    }

    /** malloc: 0 exactly if no block of the list fits, or there is no list yet, and sbrk refuses. */
    method Malloc(nbytes: nat) returns (q: Option<nat>)
      requires Valid() && nbytes < UINT && Units(nbytes) * HEADER < UINT / 2
      modifies this
      ensures Valid() && freep != 0 && limit == old(limit)
      ensures q.None? <==>
        (old(freep) == 0 || NoneFits(old(mem), old(fl), Units(nbytes))) && Refused(old(brk), limit, Units(nbytes))
      ensures q.None? ==> alloc == old(alloc) && heap == old(heap) && brk == old(brk)
      ensures q.Some? ==> q.value !in old(alloc) && alloc == old(alloc)[q.value := Units(nbytes)]
      ensures q.Some? ==> (nbytes <= (alloc[q.value] - 1) * HEADER <==> nbytes + HEADER - 1 < UINT)
      ensures old(freep) != 0 && !NoneFits(old(mem), old(fl), Units(nbytes)) ==>
        heap == old(heap) && brk == old(brk) && FirstBlock(old(mem), old(fl), old(freep), Units(nbytes), q.value, freep)
      ensures q.Some? && (old(freep) == 0 || NoneFits(old(mem), old(fl), Units(nbytes))) ==>
        heap == old(heap) + CellSet(old(brk), Core(Units(nbytes))) && brk == old(brk) + Core(Units(nbytes))
    {
      hide ListOk, AllocOk, Tiled, NoneFits, FirstBlock, Refused;
      UnitsSufficeIff(nbytes);
      if freep == 0 {
        mem := mem[BASE := Header(BASE, 0)];
        freep := BASE;
        fl := [BASE];
        EmptyList(mem);
        EmptyFits(mem, Units(nbytes));
      }
      q := FirstFit(Units(nbytes));
    }
  }

  /** What morecore asks for. */
  function Core(nunits: nat): nat { if nunits < 4096 then 4096 else nunits }

  /** sbrk has less than that. */
  predicate Refused(brk: nat, limit: nat, nunits: nat) { brk + Core(nunits) > limit }

  /** q is the tail of the first block behind freep, going round, that holds n units, and freep' the
      block before that one. */
  ghost predicate FirstBlock(mem: Memory, fl: seq<nat>, freep: nat, n: nat, q: nat, freep': nat) {
    exists f, i :: 0 <= f < |fl| && fl[f] == freep && 0 < i < |fl| && IsFirst(mem, fl, f, i, n)
      && q == fl[i] + mem[fl[i]].size - n && freep' == fl[i - 1]
  }

  ghost predicate IsFirst(mem: Memory, fl: seq<nat>, f: nat, i: nat, n: nat) {
    f < |fl| && i < |fl| && LapSoFar(mem, fl, f, i, n) && fl[i] in mem && n <= mem[fl[i]].size
  }

  lemma BlockIsFirst(mem: Memory, fl: seq<nat>, f: nat, i: nat, n: nat)
    requires f < |fl| && 0 < i < |fl| && LapSoFar(mem, fl, f, i, n) && fl[i] in mem && n <= mem[fl[i]].size
    ensures FirstBlock(mem, fl, fl[f], n, fl[i] + mem[fl[i]].size - n, fl[i - 1])
  {
    assert IsFirst(mem, fl, f, i, n);
  }

  /** The block at k is the last one below bp. */
  lemma BeforeIt(mem: Memory, fl: seq<nat>, bp: nat, k: nat)
    requires ListOk(mem, fl) && k < |fl| && (k + 1 < |fl| ==> bp < fl[k + 1])
    ensures forall a :: a in fl && a < bp ==> a <= fl[k]
  {
    DistinctNodes(mem, fl);
  }

  /** The list that malloc starts with has nothing to give. */
  lemma EmptyFits(mem: Memory, n: nat)
    requires BASE in mem && mem[BASE].size == 0 && n >= 1
    ensures NoneFits(mem, [BASE], n)
  {
  }

  ghost function IndexIn(fl: seq<nat>, a: nat): (i: nat)
    requires a in fl
    ensures i < |fl| && fl[i] == a
  {
    var i :| 0 <= i < |fl| && fl[i] == a; i
  }

  lemma NodeFacts(mem: Memory, fl: seq<nat>, k: nat)
    requires ListOk(mem, fl) && k < |fl|
    ensures NodeOk(mem, fl, k)
  {
  }

  /** A free block on the list and the one before it. */
  lemma NeighbourFacts(mem: Memory, fl: seq<nat>, i: nat)
    requires ListOk(mem, fl) && 0 < i < |fl|
    ensures fl[i - 1] in mem && fl[i] in mem && BASE <= fl[i - 1] < fl[i]
  {
    assert NodeOk(mem, fl, i) && NodeOk(mem, fl, i - 1) && NodeOk(mem, fl, 0);
    DistinctNodes(mem, fl);
  }

  lemma AllocFacts(heap: set<nat>, mem: Memory, fl: seq<nat>, alloc: map<nat, nat>, bp: nat)
    requires ListOk(mem, fl) && AllocOk(mem, alloc) && Tiled(heap, mem, fl, alloc) && bp in alloc
    ensures BASE < bp && 1 <= alloc[bp] && bp in mem && mem[bp].size == alloc[bp] && bp !in fl
  {
    AllocOff(heap, mem, fl, alloc, bp);
  }

  /** Fresh memory counts as allocated until free is called on it. */
  lemma NewBlock(heap: set<nat>, mem: Memory, fl: seq<nat>, alloc: map<nat, nat>, hp: nat, nu: nat)
    requires ListOk(mem, fl) && AllocOk(mem, alloc) && Tiled(heap, mem, fl, alloc)
    requires BASE < hp && 1 <= nu && forall u :: u in heap ==> u < hp
    ensures var mem', alloc', heap' := mem[hp := Header(0, nu)], alloc[hp := nu], heap + CellSet(hp, nu);
      && ListOk(mem', fl) && AllocOk(mem', alloc') && Tiled(heap', mem', fl, alloc')
      && hp !in alloc && alloc' - {hp} == alloc
  {
    var mem', alloc', heap' := mem[hp := Header(0, nu)], alloc[hp := nu], heap + CellSet(hp, nu);
    NewIsOutside(heap, mem, fl, alloc, hp);
    forall i | 0 <= i < |fl| ensures NodeOk(mem', fl, i) {
      NodeFacts(mem, fl, i);
    }
    forall u ensures InFree(mem', fl, u) <==> InFree(mem, fl, u) {
      if InFree(mem', fl, u) {
        var i :| 0 < i < |fl| && fl[i] in mem' && Cell(fl[i], mem'[fl[i]].size, u);
        NodeFacts(mem, fl, i);
      }
      if InFree(mem, fl, u) {
        var i :| 0 < i < |fl| && fl[i] in mem && Cell(fl[i], mem[fl[i]].size, u);
        assert Cell(fl[i], mem'[fl[i]].size, u);
      }
    }
    forall u ensures InAlloc(alloc', u) <==> InAlloc(alloc, u) || Cell(hp, nu, u) {
      if InAlloc(alloc', u) {
        var a :| a in alloc' && Cell(a, alloc'[a], u);
        assert a == hp || (a in alloc && Cell(a, alloc[a], u));
      }
      if InAlloc(alloc, u) {
        var a :| a in alloc && Cell(a, alloc[a], u);
        assert a in alloc' && Cell(a, alloc'[a], u);
      }
      assert Cell(hp, nu, u) ==> Cell(hp, alloc'[hp], u);
    }
  }

  /** Every block lies below the break. */
  lemma NewIsOutside(heap: set<nat>, mem: Memory, fl: seq<nat>, alloc: map<nat, nat>, hp: nat)
    requires ListOk(mem, fl) && AllocOk(mem, alloc) && Tiled(heap, mem, fl, alloc)
    requires BASE < hp && forall u :: u in heap ==> u < hp
    ensures hp !in fl && hp !in alloc
    ensures forall a :: a in alloc ==> a + alloc[a] <= hp
  {
    forall i | 0 <= i < |fl| ensures fl[i] < hp {
      NodeFacts(mem, fl, i);
      if i > 0 {
        assert Cell(fl[i], mem[fl[i]].size, fl[i]);
        assert InFree(mem, fl, fl[i]);
      }
    }
    forall a | a in alloc ensures a + alloc[a] <= hp {
      var last := a + alloc[a] - 1;
      assert Cell(a, alloc[a], last);
      assert InAlloc(alloc, last);
    }
  }

  /** No block of the list holds n units. */
  ghost predicate NoneFits(mem: Memory, fl: seq<nat>, n: nat) {
    forall j :: 0 < j < |fl| && fl[j] in mem ==> mem[fl[j]].size < n
  }

  /** All blocks after f and before i, going round, are too small. */
  ghost predicate LapSoFar(mem: Memory, fl: seq<nat>, f: nat, i: nat, n: nat)
    requires f < |fl| && i < |fl|
  {
    forall j :: 0 <= j < |fl| && Steps(f, j, |fl|) < Steps(f, i, |fl|) && fl[j] in mem ==> mem[fl[j]].size < n
  }

  lemma LapStart(mem: Memory, fl: seq<nat>, f: nat, n: nat)
    requires f < |fl|
    ensures LapSoFar(mem, fl, f, Succ(fl, f), n)
  {
  }

  lemma LapStep(mem: Memory, fl: seq<nat>, f: nat, i: nat, n: nat)
    requires f < |fl| && i < |fl| && fl[i] != fl[f] && fl[i] in mem
    requires LapSoFar(mem, fl, f, i, n) && mem[fl[i]].size < n
    ensures LapSoFar(mem, fl, f, Succ(fl, i), n)
    ensures Steps(f, Succ(fl, i), |fl|) == Steps(f, i, |fl|) + 1
  {
    forall j | 0 <= j < |fl| && Steps(f, j, |fl|) < Steps(f, i, |fl|) + 1 && fl[j] in mem ensures mem[fl[j]].size < n {
      if Steps(f, j, |fl|) == Steps(f, i, |fl|) {
        assert j == i;
      }
    }
  }

  /** A lap that ends where it began has seen every block. */
  lemma FullLap(mem: Memory, fl: seq<nat>, f: nat, i: nat, n: nat)
    requires ListOk(mem, fl) && f < |fl| && i < |fl| && fl[i] == fl[f] && fl[i] in mem
    requires LapSoFar(mem, fl, f, i, n) && mem[fl[i]].size < n
    ensures NoneFits(mem, fl, n)
  {
    DistinctNodes(mem, fl);
    forall j | 0 < j < |fl| && fl[j] in mem ensures mem[fl[j]].size < n {
      assert j == f || Steps(f, j, |fl|) < Steps(f, f, |fl|);
    }
  }

  lemma OneFits(mem: Memory, fl: seq<nat>, n: nat)
    requires exists j :: 0 < j < |fl| && fl[j] in mem && n <= mem[fl[j]].size
    ensures !NoneFits(mem, fl, n)
  {
  }

  lemma EmptyList(mem: Memory)
    requires BASE in mem && mem[BASE] == Header(BASE, 0)
    ensures ListOk(mem, [BASE]) && AllocOk(mem, map[]) && Tiled({}, mem, [BASE], map[])
  {
    assert NodeOk(mem, [BASE], 0);
  }

  /** Allocated headers survive the writes that malloc makes to free ones. */
  lemma TakenKept(heap: set<nat>, mem: Memory, fl: seq<nat>, alloc: map<nat, nat>, mem': Memory, q: nat, n: nat, fl': seq<nat>)
    requires ListOk(mem, fl) && AllocOk(mem, alloc) && Tiled(heap, mem, fl, alloc) && 1 <= n
    requires Loses(mem, fl, mem', fl', q, n)
    requires mem.Keys <= mem'.Keys && forall a :: a in mem && a !in fl && a != q ==> mem'[a] == mem[a]
    ensures forall a :: a in alloc ==> a in mem && a in mem' && mem'[a].size == mem[a].size
  {
    assert Cell(q, n, q);
    FreeIsNotAllocated(heap, mem, fl, alloc, q);
    forall a | a in alloc ensures a in mem && a in mem' && mem'[a].size == mem[a].size {
      AllocFacts(heap, mem, fl, alloc, a);
    }
  }

  /** What the free list lost is allocated now. */
  lemma Taken(heap: set<nat>, mem: Memory, fl: seq<nat>, alloc: map<nat, nat>, q: nat, n: nat, mem': Memory, fl': seq<nat>)
    requires ListOk(mem, fl) && AllocOk(mem, alloc) && Tiled(heap, mem, fl, alloc) && 1 <= n && BASE < q
    requires Loses(mem, fl, mem', fl', q, n) && q in mem' && mem'[q].size == n
    requires mem.Keys <= mem'.Keys && forall a :: a in mem && a !in fl && a != q ==> mem'[a] == mem[a]
    ensures q !in alloc && AllocOk(mem', alloc[q := n]) && Tiled(heap, mem', fl', alloc[q := n])
  {
    hide ListOk, AllocOk, Tiled, Loses;
    TakenKept(heap, mem, fl, alloc, mem', q, n, fl');
    TakeTiles(heap, mem, fl, alloc, q, n, mem', fl');
  }

  /** The loop test of free says whether the search has arrived. */
  lemma SearchStep(mem: Memory, fl: seq<nat>, bp: nat, i: nat, k: nat)
    requires ListOk(mem, fl) && i < |fl| && k < |fl| && bp !in fl && BASE < bp
    requires fl[k] < bp && (k + 1 < |fl| ==> bp <= fl[k + 1])
    ensures fl[i] in mem && var p, q := fl[i], mem[fl[i]].ptr;
      (bp > p && bp < q) || (p >= q && (bp > p || bp < q)) <==> i == k
  {
    DistinctNodes(mem, fl);
    NodeFacts(mem, fl, i);
    NodeFacts(mem, fl, 0);
  }

  /** The list after free: bp is added, or takes the place of the next block, or vanishes into p. */
  ghost function FreedList(mem: Memory, fl: seq<nat>, k: nat, bp: nat, n: nat): seq<nat>
    requires k < |fl| && fl[k] in mem
  {
    var up := k + 1 < |fl| && bp + n == fl[k + 1];
    var down := fl[k] + mem[fl[k]].size == bp;
    if up && down then fl[..k + 1] + fl[k + 2..]
    else if up then fl[k + 1 := bp]
    else if down then fl
    else fl[..k + 1] + [bp] + fl[k + 1..]
  }

  /** What the two if statements of free leave in memory. */
  ghost predicate FreedMemory(mem: Memory, fl: seq<nat>, k: nat, bp: nat, n: nat, mem': Memory)
    requires k < |fl| && fl[k] in mem && mem[fl[k]].ptr in mem
  {
    var p, next := fl[k], mem[fl[k]].ptr;
    var b := if bp + n == next then Header(mem[next].ptr, n + mem[next].size) else Header(next, n);
    mem' == mem[bp := b][p := if p + mem[p].size == bp then Header(b.ptr, mem[p].size + b.size) else Header(bp, mem[p].size)]
  }

  lemma FreedOk(mem: Memory, fl: seq<nat>, k: nat, bp: nat, n: nat, mem': Memory)
    requires ListOk(mem, fl) && k < |fl| && NodeOk(mem, fl, k) && 1 <= n && bp !in fl && BASE < bp
    requires fl[k] + mem[fl[k]].size <= bp && (k + 1 < |fl| ==> bp + n <= fl[k + 1]) && fl[k] < bp
    requires mem[fl[k]].ptr in mem && FreedMemory(mem, fl, k, bp, n, mem')
    ensures var fl' := FreedList(mem, fl, k, bp, n);
      && ListOk(mem', fl') && Gains(mem, fl, mem', fl', bp, n) && fl[k] in fl'
      && exists j :: 0 < j < |fl'| && fl'[j] in mem' && fl'[j] <= bp && bp + n <= fl'[j] + mem'[fl'[j]].size
  {
    hide ListOk, Gains;
    NodeFacts(mem, fl, Succ(fl, k));
    NodeFacts(mem, fl, 0);
    var fl' := FreedList(mem, fl, k, bp, n);
    var up := k + 1 < |fl| && bp + n == fl[k + 1];
    var down := fl[k] + mem[fl[k]].size == bp;
    if up && down {
      FreeBoth(mem, fl, k, bp, n, mem', fl');
      assert fl'[k] == fl[k];
    } else if up {
      FreeUp(mem, fl, k, bp, n, mem', fl');
      assert fl'[k] == fl[k] && fl'[k + 1] == bp;
    } else if down {
      FreeDown(mem, fl, k, bp, n, mem');
    } else {
      FreeAlone(mem, fl, k, bp, n, mem', fl');
      assert fl'[k] == fl[k] && fl'[k + 1] == bp;
    }
  }

  lemma OthersKept(heap: set<nat>, mem: Memory, fl: seq<nat>, alloc: map<nat, nat>, bp: nat, k: nat, mem': Memory)
    requires ListOk(mem, fl) && AllocOk(mem, alloc) && Tiled(heap, mem, fl, alloc) && k < |fl|
    requires bp in mem' && fl[k] in mem' && mem' == mem[bp := mem'[bp]][fl[k] := mem'[fl[k]]]
    ensures forall a :: a in alloc && a != bp ==> a in mem && a in mem' && mem'[a].size == mem[a].size
  {
    forall a | a in alloc && a != bp ensures a in mem && a in mem' && mem'[a].size == mem[a].size {
      AllocFacts(heap, mem, fl, alloc, a);
    }
  }
}
