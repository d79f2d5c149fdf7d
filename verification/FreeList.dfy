/** The heap of the Kernighan and Ritchie allocator (umalloc.c): headers in memory, the circular
    free list through them, and the partition of the heap into free and allocated blocks.
    Addresses and sizes are counted in headers of eight bytes. */
module FreeList {

  const BASE: nat := 1    // &base; the data segment lies below the heap

  datatype Header = Header(ptr: nat, size: nat)

  type Memory = map<nat, Header>

  /** The list through ptr visits fl in order and returns to its start: one address wrap. */
  function Succ(fl: seq<nat>, i: nat): (j: nat)
    requires i < |fl|
    ensures j < |fl|
  {
    if i + 1 == |fl| then 0 else i + 1
  }

  ghost predicate NodeOk(mem: Memory, fl: seq<nat>, i: nat)
    requires i < |fl|
  {
    && fl[i] in mem
    && mem[fl[i]].ptr == fl[Succ(fl, i)]
    && (i == 0 ==> fl[i] == BASE && mem[fl[i]].size == 0)
    && (i > 0 ==> 1 <= mem[fl[i]].size)
    && (i + 1 < |fl| ==> fl[i] + mem[fl[i]].size < fl[i + 1])   // ascending, and never adjacent
  }

  ghost predicate ListOk(mem: Memory, fl: seq<nat>) {
    1 <= |fl| && forall i :: 0 <= i < |fl| ==> NodeOk(mem, fl, i)
  }

  predicate Cell(a: nat, n: nat, u: nat) { a <= u < a + n }

  ghost function CellSet(a: nat, n: nat): (r: set<nat>)
    ensures forall u :: u in r <==> Cell(a, n, u)
  {
    set u: nat {:trigger Cell(a, n, u)} | a <= u < a + n && Cell(a, n, u)
  }

  /** Unit u belongs to a free block. */
  ghost predicate InFree(mem: Memory, fl: seq<nat>, u: nat) {
    exists i :: 0 < i < |fl| && fl[i] in mem && Cell(fl[i], mem[fl[i]].size, u)
  }

  /** Unit u belongs to an allocated block. */
  ghost predicate InAlloc(alloc: map<nat, nat>, u: nat) {
    exists a :: a in alloc && Cell(a, alloc[a], u)
  }

  /** Allocated blocks keep their header, and do not overlap. */
  ghost predicate AllocOk(mem: Memory, alloc: map<nat, nat>) {
    && (forall a :: a in alloc ==> BASE < a && 1 <= alloc[a] && a in mem && mem[a].size == alloc[a])
    && (forall a, b :: a in alloc && b in alloc && a < b ==> a + alloc[a] <= b)
  }

  /** Every unit obtained from sbrk is in exactly one block, and blocks hold no other units. */
  ghost predicate Tiled(heap: set<nat>, mem: Memory, fl: seq<nat>, alloc: map<nat, nat>) {
    && (forall u :: u in heap <==> InFree(mem, fl, u) || InAlloc(alloc, u))
    && (forall u :: InFree(mem, fl, u) ==> !InAlloc(alloc, u))
  }

  // ---- order -----------------------------------------------------------------------------------

  lemma {:induction false} Ascending(mem: Memory, fl: seq<nat>, i: nat, j: nat)
    requires ListOk(mem, fl) && i < j < |fl|
    ensures fl[i] in mem && fl[i] + mem[fl[i]].size < fl[j]
    decreases j
  {
    assert NodeOk(mem, fl, i) && NodeOk(mem, fl, j - 1);
    if i < j - 1 {
      Ascending(mem, fl, i, j - 1);
    }
  }

  lemma DistinctNodes(mem: Memory, fl: seq<nat>)
    requires ListOk(mem, fl)
    ensures forall i, j :: 0 <= i < j < |fl| ==> fl[i] < fl[j]
  {
    forall i, j | 0 <= i < j < |fl| ensures fl[i] < fl[j] {
      Ascending(mem, fl, i, j);
    }
  }

  /** The list position after which an address belongs. */
  ghost function Place(fl: seq<nat>, bp: nat): (k: nat)
    requires |fl| > 0 && fl[0] < bp
    ensures k < |fl| && fl[k] < bp
    ensures k + 1 < |fl| ==> bp <= fl[k + 1]
  {
    PlaceFrom(fl, bp, 0)
  }

  ghost function PlaceFrom(fl: seq<nat>, bp: nat, i: nat): (k: nat)
    requires i < |fl| && fl[i] < bp
    ensures i <= k < |fl| && fl[k] < bp
    ensures k + 1 < |fl| ==> bp <= fl[k + 1]
    decreases |fl| - i
  {
    if i + 1 < |fl| && fl[i + 1] < bp then PlaceFrom(fl, bp, i + 1) else i
  }

  /** An allocated block lies in the gap after its place, and its end does not reach into the next. */
  lemma GapHolds(heap: set<nat>, mem: Memory, fl: seq<nat>, alloc: map<nat, nat>, bp: nat, k: nat)
    requires ListOk(mem, fl) && AllocOk(mem, alloc) && Tiled(heap, mem, fl, alloc) && bp in alloc
    requires k < |fl| && fl[k] < bp && (k + 1 < |fl| ==> bp <= fl[k + 1])
    ensures fl[k] in mem && fl[k] + mem[fl[k]].size <= bp
    ensures k + 1 < |fl| ==> bp + alloc[bp] <= fl[k + 1]
    ensures bp !in fl
  {
    assert NodeOk(mem, fl, k);
    assert InAlloc(alloc, bp) by { assert Cell(bp, alloc[bp], bp); }
    if k > 0 {
      assert Cell(fl[k], mem[fl[k]].size, bp) ==> InFree(mem, fl, bp);
    }
    if k + 1 < |fl| {
      assert NodeOk(mem, fl, k + 1);
      assert Cell(fl[k + 1], mem[fl[k + 1]].size, fl[k + 1]);
      assert InFree(mem, fl, fl[k + 1]);
      assert Cell(bp, alloc[bp], fl[k + 1]) ==> InAlloc(alloc, fl[k + 1]);
    }
    forall i | 0 <= i < |fl| ensures fl[i] != bp {
      assert NodeOk(mem, fl, i);
      assert i > 0 && fl[i] == bp ==> Cell(fl[i], mem[fl[i]].size, bp);
    }
  }

  // ---- giving a block back -----------------------------------------------------------------------

  /** The free blocks gain exactly the units of the block at bp. */
  ghost predicate Gains(mem: Memory, fl: seq<nat>, mem': Memory, fl': seq<nat>, bp: nat, n: nat) {
    forall u :: InFree(mem', fl', u) <==> InFree(mem, fl, u) || Cell(bp, n, u)
  }

  lemma GainsFrom(mem: Memory, fl: seq<nat>, mem': Memory, fl': seq<nat>, bp: nat, n: nat)
    requires forall i, u :: 0 < i < |fl| && fl[i] in mem && Cell(fl[i], mem[fl[i]].size, u) ==> InFree(mem', fl', u)
    requires forall u :: Cell(bp, n, u) ==> InFree(mem', fl', u)
    requires forall i, u :: 0 < i < |fl'| && fl'[i] in mem' && Cell(fl'[i], mem'[fl'[i]].size, u) ==>
               InFree(mem, fl, u) || Cell(bp, n, u)
    ensures Gains(mem, fl, mem', fl', bp, n)
  {
  }

  lemma FreeAloneList(mem: Memory, fl: seq<nat>, k: nat, bp: nat, n: nat, mem': Memory, fl': seq<nat>)
    requires ListOk(mem, fl) && k < |fl| && fl[k] in mem && 1 <= n && bp !in fl
    requires fl[k] + mem[fl[k]].size < bp && (k + 1 < |fl| ==> bp + n < fl[k + 1])
    requires mem' == mem[bp := Header(fl[Succ(fl, k)], n)][fl[k] := Header(bp, mem[fl[k]].size)]
    requires fl' == fl[..k + 1] + [bp] + fl[k + 1..]
    ensures ListOk(mem', fl')
  {
    DistinctNodes(mem, fl);
    forall i | 0 <= i < |fl'| ensures NodeOk(mem', fl', i) {
      assert NodeOk(mem, fl, if i <= k then i else if i == k + 1 then k else i - 1);
    }
  }

  /** bp stands alone between its neighbours. */
  lemma FreeAlone(mem: Memory, fl: seq<nat>, k: nat, bp: nat, n: nat, mem': Memory, fl': seq<nat>)
    requires ListOk(mem, fl) && k < |fl| && fl[k] in mem && 1 <= n && bp !in fl
    requires fl[k] + mem[fl[k]].size < bp && (k + 1 < |fl| ==> bp + n < fl[k + 1])
    requires mem' == mem[bp := Header(fl[Succ(fl, k)], n)][fl[k] := Header(bp, mem[fl[k]].size)]
    requires fl' == fl[..k + 1] + [bp] + fl[k + 1..]
    ensures ListOk(mem', fl') && Gains(mem, fl, mem', fl', bp, n)
  {
    FreeAloneList(mem, fl, k, bp, n, mem', fl');
    DistinctNodes(mem, fl);
    hide ListOk, Gains, Cell;
    forall i, u | 0 < i < |fl| && fl[i] in mem && Cell(fl[i], mem[fl[i]].size, u) ensures InFree(mem', fl', u) {
      var j := if i <= k then i else i + 1;
      assert fl'[j] == fl[i] && Cell(fl'[j], mem'[fl'[j]].size, u);
    }
    forall u | Cell(bp, n, u) ensures InFree(mem', fl', u) {
      assert fl'[k + 1] == bp && Cell(fl'[k + 1], mem'[fl'[k + 1]].size, u);
    }
    forall i, u | 0 < i < |fl'| && fl'[i] in mem' && Cell(fl'[i], mem'[fl'[i]].size, u)
      ensures InFree(mem, fl, u) || Cell(bp, n, u)
    {
      if i != k + 1 {
        var j := if i <= k then i else i - 1;
        assert fl[j] == fl'[i] && fl[j] in mem && Cell(fl[j], mem[fl[j]].size, u);
      }
    }
    GainsFrom(mem, fl, mem', fl', bp, n);
  }

  /** bp ends where the next free block starts, and takes it in. */
  lemma FreeUp(mem: Memory, fl: seq<nat>, k: nat, bp: nat, n: nat, mem': Memory, fl': seq<nat>)
    requires ListOk(mem, fl) && k + 1 < |fl| && fl[k] in mem && fl[k + 1] in mem && 1 <= n && bp !in fl
    requires fl[k] + mem[fl[k]].size < bp && bp + n == fl[k + 1]
    requires mem' == mem[bp := Header(mem[fl[k + 1]].ptr, n + mem[fl[k + 1]].size)][fl[k] := Header(bp, mem[fl[k]].size)]
    requires fl' == fl[k + 1 := bp]
    ensures ListOk(mem', fl') && Gains(mem, fl, mem', fl', bp, n)
  {
    DistinctNodes(mem, fl);
    forall i | 0 <= i < |fl'| ensures NodeOk(mem', fl', i) {
      assert NodeOk(mem, fl, i) && NodeOk(mem, fl, k + 1);
    }
    forall i, u | 0 < i < |fl| && fl[i] in mem && Cell(fl[i], mem[fl[i]].size, u) ensures InFree(mem', fl', u) {
      assert fl'[i] in mem' && Cell(fl'[i], mem'[fl'[i]].size, u);
    }
    forall u | Cell(bp, n, u) ensures InFree(mem', fl', u) {
      assert fl'[k + 1] == bp && Cell(fl'[k + 1], mem'[fl'[k + 1]].size, u);
    }
    forall i, u | 0 < i < |fl'| && fl'[i] in mem' && Cell(fl'[i], mem'[fl'[i]].size, u)
      ensures InFree(mem, fl, u) || Cell(bp, n, u)
    {
      assert NodeOk(mem, fl, i);
      assert Cell(fl[i], mem[fl[i]].size, u) || Cell(bp, n, u);
    }
    GainsFrom(mem, fl, mem', fl', bp, n);
  }

  /** The block before ends where bp starts, and takes it in. */
  lemma FreeDown(mem: Memory, fl: seq<nat>, k: nat, bp: nat, n: nat, mem': Memory)
    requires ListOk(mem, fl) && 0 < k < |fl| && fl[k] in mem && 1 <= n && bp !in fl
    requires fl[k] + mem[fl[k]].size == bp && (k + 1 < |fl| ==> bp + n < fl[k + 1])
    requires bp in mem' && mem' == mem[bp := mem'[bp]][fl[k] := Header(fl[Succ(fl, k)], mem[fl[k]].size + n)]
    ensures ListOk(mem', fl) && Gains(mem, fl, mem', fl, bp, n)
  {
    DistinctNodes(mem, fl);
    forall i | 0 <= i < |fl| ensures NodeOk(mem', fl, i) {
      assert NodeOk(mem, fl, i);
    }
    forall i, u | 0 < i < |fl| && fl[i] in mem && Cell(fl[i], mem[fl[i]].size, u) ensures InFree(mem', fl, u) {
      assert fl[i] in mem' && Cell(fl[i], mem'[fl[i]].size, u);
    }
    forall u | Cell(bp, n, u) ensures InFree(mem', fl, u) {
      assert Cell(fl[k], mem'[fl[k]].size, u);
    }
    forall i, u | 0 < i < |fl| && fl[i] in mem' && Cell(fl[i], mem'[fl[i]].size, u)
      ensures InFree(mem, fl, u) || Cell(bp, n, u)
    {
      assert NodeOk(mem, fl, i);
      assert Cell(fl[i], mem[fl[i]].size, u) || Cell(bp, n, u);
    }
    GainsFrom(mem, fl, mem', fl, bp, n);
  }

  /** bp closes the gap between two free blocks, and the three become one. */
  lemma FreeBothList(mem: Memory, fl: seq<nat>, k: nat, bp: nat, n: nat, mem': Memory, fl': seq<nat>)
    requires ListOk(mem, fl) && 0 < k && k + 1 < |fl| && fl[k] in mem && fl[k + 1] in mem && 1 <= n && bp !in fl
    requires fl[k] + mem[fl[k]].size == bp && bp + n == fl[k + 1]
    requires bp in mem'
    requires mem' == mem[bp := mem'[bp]][fl[k] := Header(mem[fl[k + 1]].ptr, mem[fl[k]].size + n + mem[fl[k + 1]].size)]
    requires fl' == fl[..k + 1] + fl[k + 2..]
    ensures ListOk(mem', fl')
  {
    DistinctNodes(mem, fl);
    forall i | 0 <= i < |fl'| ensures NodeOk(mem', fl', i) {
      assert NodeOk(mem, fl, if i <= k then i else i + 1) && NodeOk(mem, fl, k + 1);
    }
  }

  lemma FreeBoth(mem: Memory, fl: seq<nat>, k: nat, bp: nat, n: nat, mem': Memory, fl': seq<nat>)
    requires ListOk(mem, fl) && 0 < k && k + 1 < |fl| && fl[k] in mem && fl[k + 1] in mem && 1 <= n && bp !in fl
    requires fl[k] + mem[fl[k]].size == bp && bp + n == fl[k + 1]
    requires bp in mem'
    requires mem' == mem[bp := mem'[bp]][fl[k] := Header(mem[fl[k + 1]].ptr, mem[fl[k]].size + n + mem[fl[k + 1]].size)]
    requires fl' == fl[..k + 1] + fl[k + 2..]
    ensures ListOk(mem', fl') && Gains(mem, fl, mem', fl', bp, n)
  {
    FreeBothList(mem, fl, k, bp, n, mem', fl');
    DistinctNodes(mem, fl);
    hide ListOk, NodeOk;
    forall i, u | 0 < i < |fl| && fl[i] in mem && Cell(fl[i], mem[fl[i]].size, u) ensures InFree(mem', fl', u) {
      var j := if i <= k then i else i - 1;
      assert fl'[j] in mem' && Cell(fl'[j], mem'[fl'[j]].size, u);
    }
    forall u | Cell(bp, n, u) ensures InFree(mem', fl', u) {
      assert fl'[k] == fl[k] && Cell(fl'[k], mem'[fl'[k]].size, u);
    }
    forall i, u | 0 < i < |fl'| && fl'[i] in mem' && Cell(fl'[i], mem'[fl'[i]].size, u)
      ensures InFree(mem, fl, u) || Cell(bp, n, u)
    {
      var j := if i <= k then i else i + 1;
      assert fl'[i] == fl[j] && fl[j] in mem;
      assert Cell(fl[j], mem[fl[j]].size, u) || Cell(bp, n, u) || Cell(fl[k + 1], mem[fl[k + 1]].size, u);
    }
    GainsFrom(mem, fl, mem', fl', bp, n);
  }

  lemma AllocOff(heap: set<nat>, mem: Memory, fl: seq<nat>, alloc: map<nat, nat>, a: nat)
    requires ListOk(mem, fl) && AllocOk(mem, alloc) && Tiled(heap, mem, fl, alloc) && a in alloc
    ensures a !in fl
  {
    assert Cell(a, alloc[a], a);
    assert InAlloc(alloc, a);
    forall i | 0 <= i < |fl| ensures fl[i] != a {
      assert NodeOk(mem, fl, i);
      assert i > 0 ==> Cell(fl[i], mem[fl[i]].size, fl[i]);
    }
  }

  /** A freed block passes from the allocated to the free units; nothing else moves. */
  lemma FreeTiles(heap: set<nat>, mem: Memory, fl: seq<nat>, alloc: map<nat, nat>, bp: nat, mem': Memory, fl': seq<nat>)
    requires AllocOk(mem, alloc) && Tiled(heap, mem, fl, alloc) && bp in alloc
    requires Gains(mem, fl, mem', fl', bp, alloc[bp])
    requires forall a :: a in alloc && a != bp ==> a in mem' && mem'[a].size == mem[a].size
    ensures AllocOk(mem', alloc - {bp}) && Tiled(heap, mem', fl', alloc - {bp})
  {
    var rest := alloc - {bp};
    forall u ensures InAlloc(alloc, u) <==> InAlloc(rest, u) || Cell(bp, alloc[bp], u) {
      if InAlloc(alloc, u) {
        var a :| a in alloc && Cell(a, alloc[a], u);
        assert a == bp || (a in rest && Cell(a, rest[a], u));
      }
      if InAlloc(rest, u) {
        var a :| a in rest && Cell(a, rest[a], u);
        assert Cell(a, alloc[a], u);
      }
    }
    forall u ensures !(InAlloc(rest, u) && Cell(bp, alloc[bp], u)) {
      if InAlloc(rest, u) {
        var a :| a in rest && Cell(a, rest[a], u);
        assert a < bp || bp < a;
      }
    }
  }

  // ---- taking a block ------------------------------------------------------------------------------

  /** The free blocks lose exactly the units of a block of n units at a. */
  ghost predicate Loses(mem: Memory, fl: seq<nat>, mem': Memory, fl': seq<nat>, a: nat, n: nat) {
    && (forall u :: InFree(mem', fl', u) <==> InFree(mem, fl, u) && !Cell(a, n, u))
    && (forall u :: Cell(a, n, u) ==> InFree(mem, fl, u))
  }

  lemma TakeWholeList(mem: Memory, fl: seq<nat>, k: nat, mem': Memory, fl': seq<nat>)
    requires ListOk(mem, fl) && 0 < k < |fl| && fl[k] in mem && fl[k - 1] in mem
    requires mem' == mem[fl[k - 1] := Header(mem[fl[k]].ptr, mem[fl[k - 1]].size)]
    requires fl' == fl[..k] + fl[k + 1..]
    ensures ListOk(mem', fl')
  {
    DistinctNodes(mem, fl);
    forall i | 0 <= i < |fl'| ensures NodeOk(mem', fl', i) {
      assert NodeOk(mem, fl, if i < k then i else i + 1) && NodeOk(mem, fl, k) && NodeOk(mem, fl, k - 1);
    }
  }

  /** Blocks at different list positions share no unit. */
  lemma OneBlock(mem: Memory, fl: seq<nat>, i: nat, j: nat, u: nat)
    requires ListOk(mem, fl) && i < |fl| && j < |fl| && fl[i] in mem && fl[j] in mem
    requires Cell(fl[i], mem[fl[i]].size, u) && Cell(fl[j], mem[fl[j]].size, u)
    ensures i == j
  {
    if i < j { Ascending(mem, fl, i, j); }
    if j < i { Ascending(mem, fl, j, i); }
  }

  /** A block that fits exactly leaves the list. */
  lemma TakeWhole(mem: Memory, fl: seq<nat>, k: nat, mem': Memory, fl': seq<nat>)
    requires ListOk(mem, fl) && 0 < k < |fl| && fl[k] in mem && fl[k - 1] in mem
    requires mem' == mem[fl[k - 1] := Header(mem[fl[k]].ptr, mem[fl[k - 1]].size)]
    requires fl' == fl[..k] + fl[k + 1..]
    ensures ListOk(mem', fl') && Loses(mem, fl, mem', fl', fl[k], mem[fl[k]].size)
  {
    TakeWholeList(mem, fl, k, mem', fl');
    hide ListOk, NodeOk;
    forall u ensures InFree(mem', fl', u) <==> InFree(mem, fl, u) && !Cell(fl[k], mem[fl[k]].size, u) {
      if InFree(mem', fl', u) {
        var i :| 0 < i < |fl'| && fl'[i] in mem' && Cell(fl'[i], mem'[fl'[i]].size, u);
        var j := if i < k then i else i + 1;
        assert fl'[i] == fl[j] && fl[j] in mem && Cell(fl[j], mem[fl[j]].size, u);
        if Cell(fl[k], mem[fl[k]].size, u) { OneBlock(mem, fl, j, k, u); }
      }
      if InFree(mem, fl, u) && !Cell(fl[k], mem[fl[k]].size, u) {
        var i :| 0 < i < |fl| && fl[i] in mem && Cell(fl[i], mem[fl[i]].size, u);
        var j := if i < k then i else i - 1;
        assert fl'[j] == fl[i] && Cell(fl'[j], mem'[fl'[j]].size, u);
      }
    }
  }

  lemma TakeTailList(mem: Memory, fl: seq<nat>, k: nat, n: nat, mem': Memory)
    requires ListOk(mem, fl) && 0 < k < |fl| && fl[k] in mem && 1 <= n < mem[fl[k]].size
    requires var rest := mem[fl[k]].size - n;
      fl[k] + rest in mem' && mem' == mem[fl[k] := Header(mem[fl[k]].ptr, rest)][fl[k] + rest := mem'[fl[k] + rest]]
    ensures ListOk(mem', fl) && fl[k] + (mem[fl[k]].size - n) !in fl
  {
    var a := fl[k] + (mem[fl[k]].size - n);
    forall i | 0 <= i < |fl| ensures fl[i] != a && (i != k ==> fl[i] != fl[k]) {
      if i < k { Ascending(mem, fl, i, k); } else if i > k { Ascending(mem, fl, k, i); }
    }
    forall i | 0 <= i < |fl| ensures NodeOk(mem', fl, i) {
      assert NodeOk(mem, fl, i);
    }
  }

  /** A larger block gives up its tail, where a new header is written. */
  lemma TakeTail(mem: Memory, fl: seq<nat>, k: nat, n: nat, mem': Memory)
    requires ListOk(mem, fl) && 0 < k < |fl| && fl[k] in mem && 1 <= n < mem[fl[k]].size
    requires var rest := mem[fl[k]].size - n;
      fl[k] + rest in mem' && mem' == mem[fl[k] := Header(mem[fl[k]].ptr, rest)][fl[k] + rest := mem'[fl[k] + rest]]
    ensures ListOk(mem', fl) && Loses(mem, fl, mem', fl, fl[k] + (mem[fl[k]].size - n), n)
  {
    var a := fl[k] + (mem[fl[k]].size - n);
    TakeTailList(mem, fl, k, n, mem');
    DistinctNodes(mem, fl);
    hide ListOk, NodeOk;
    forall u ensures InFree(mem', fl, u) <==> InFree(mem, fl, u) && !Cell(a, n, u) {
      if InFree(mem', fl, u) {
        var i :| 0 < i < |fl| && fl[i] in mem' && Cell(fl[i], mem'[fl[i]].size, u);
        assert fl[i] != a && fl[i] in mem && Cell(fl[i], mem[fl[i]].size, u);
        if Cell(fl[k], mem[fl[k]].size, u) { OneBlock(mem, fl, i, k, u); }
      }
      if InFree(mem, fl, u) && !Cell(a, n, u) {
        var i :| 0 < i < |fl| && fl[i] in mem && Cell(fl[i], mem[fl[i]].size, u);
        assert fl[i] in mem' && Cell(fl[i], mem'[fl[i]].size, u);
      }
    }
    forall u | Cell(a, n, u) ensures InFree(mem, fl, u) {
      assert Cell(fl[k], mem[fl[k]].size, u);
    }
  }

  lemma FreeIsNotAllocated(heap: set<nat>, mem: Memory, fl: seq<nat>, alloc: map<nat, nat>, a: nat)
    requires AllocOk(mem, alloc) && Tiled(heap, mem, fl, alloc) && InFree(mem, fl, a)
    ensures a !in alloc
  {
    assert forall b :: b in alloc ==> Cell(b, alloc[b], b);
  }

  /** A block taken passes from the free to the allocated units. */
  lemma TakeTiles(heap: set<nat>, mem: Memory, fl: seq<nat>, alloc: map<nat, nat>, a: nat, n: nat, mem': Memory, fl': seq<nat>)
    requires AllocOk(mem, alloc) && Tiled(heap, mem, fl, alloc) && Loses(mem, fl, mem', fl', a, n)
    requires 1 <= n && BASE < a && a in mem' && mem'[a].size == n
    requires forall b :: b in alloc ==> b in mem' && mem'[b].size == mem[b].size
    ensures a !in alloc && AllocOk(mem', alloc[a := n]) && Tiled(heap, mem', fl', alloc[a := n])
  {
    assert Cell(a, n, a) && InFree(mem, fl, a);
    FreeIsNotAllocated(heap, mem, fl, alloc, a);
    forall b | b in alloc ensures b + alloc[b] <= a || a + n <= b {
      assert Cell(b, alloc[b], b);
      assert InAlloc(alloc, b);
      assert !InFree(mem, fl, b);
      assert Cell(b, alloc[b], a) ==> InAlloc(alloc, a);
    }
    var more := alloc[a := n];
    forall u ensures InAlloc(more, u) <==> InAlloc(alloc, u) || Cell(a, n, u) {
      if InAlloc(more, u) {
        var b :| b in more && Cell(b, more[b], u);
        assert b == a || (b in alloc && Cell(b, alloc[b], u));
      }
      if InAlloc(alloc, u) {
        var b :| b in alloc && Cell(b, alloc[b], u);
        assert b in more && Cell(b, more[b], u);
      }
      assert Cell(a, n, u) ==> Cell(a, more[a], u);
    }
  }
}
