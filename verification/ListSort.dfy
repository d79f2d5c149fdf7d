/** list.c's operations on whole lists: sort, reverse, insert in order, remove duplicates. */
module ListSort {
  import opened Wrappers
  import opened ListOrder
  import opened LinkedList

  // ---- find_end_of_run, is_sorted ------------------------------------------------------------

  /** a is n[i], b is n[m]; the result is the end of the run that starts at a. */
  method FindEndOfRun(a: Elem, b: Elem, less: (Elem, Elem) -> bool, ghost n: seq<Elem>, ghost i: nat, ghost m: nat)
    returns (e: Elem, ghost j: nat)
    requires Linked(n) && 1 <= i < m < |n| && n[i] == a && n[m] == b
    ensures i < j <= m && n[j] == e
    ensures RunAt(less, n, i, j)
    ensures j < m ==> less(n[j], n[j - 1])
  {
    e, j := a.next, i + 1;
    while e != b && !less(e, e.prev)
      invariant i < j <= m && n[j] == e
      invariant RunAt(less, n, i, j)
      decreases m - j
    {
      e, j := e.next, j + 1;
    }
  }

  /** is_sorted on the range from a = n[i] to b = n[m], exclusive. */
  method IsSorted(a: Elem, b: Elem, less: (Elem, Elem) -> bool, ghost n: seq<Elem>, ghost i: nat, ghost m: nat)
    returns (r: bool)
    requires Linked(n) && 1 <= i <= m < |n| && n[i] == a && n[m] == b
    ensures r <==> RunAt(less, n, i, m)
  {
    if a != b {
      var e := a.next;
      ghost var j := i + 1;
      while e != b
        invariant i < j <= m && n[j] == e
        invariant RunAt(less, n, i, j)
        decreases m - j
      {
        if less(e, e.prev) {
          return false;
        }
        e, j := e.next, j + 1;
      }
    }
    return true;
  }

  // ---- inplace_merge ---------------------------------------------------------------------------

  /** The chain with its part between i and k replaced by the merge of its two halves. */
  function MergedAt(less: (Elem, Elem) -> bool, n: seq<Elem>, i: nat, j: nat, k: nat): seq<Elem>
    requires i <= j <= k <= |n|
  {
    n[..i] + Merge(less, n[i..j], n[j..k]) + n[k..]
  }

  lemma MergeTakesLeft(less: (Elem, Elem) -> bool, n: seq<Elem>, i: nat, j: nat, k: nat)
    requires i < j < k <= |n| && !less(n[j], n[i])
    ensures MergedAt(less, n, i, j, k) == MergedAt(less, n, i + 1, j, k)
  {
    assert n[i..j][1..] == n[i + 1..j];
    assert n[..i + 1] == n[..i] + [n[i]];
  }

  lemma MergeTakesRight(less: (Elem, Elem) -> bool, n: seq<Elem>, i: nat, j: nat, k: nat, r: seq<Elem>)
    requires i < j < k <= |n| && less(n[j], n[i])
    requires r == Pasted(Removed(n, j, j + 1), i, n[j..j + 1])
    ensures |r| == |n| && MergedAt(less, n, i, j, k) == MergedAt(less, r, i + 1, j + 1, k)
    ensures r[i + 1] == n[i] && r[j + 1..] == n[j + 1..]
  {
    assert n[j..k][1..] == n[j + 1..k];
    assert r == n[..i] + [n[j]] + n[i..j] + n[j + 1..];
    assert r[..i + 1] == n[..i] + [n[j]];
    assert r[i + 1..j + 1] == n[i..j];
    assert r[j + 1..k] == n[j + 1..k];
    assert r[k..] == n[k..];
  }

  lemma MergeDone(less: (Elem, Elem) -> bool, n: seq<Elem>, i: nat, j: nat, k: nat)
    requires i <= j <= k <= |n| && (i == j || j == k)
    ensures MergedAt(less, n, i, j, k) == n
  {
  }

  /** list_splice as inplace_merge calls it: n[j] moves before n[i]. */
  method MoveBefore(a: Elem, b: Elem, ghost n: seq<Elem>, ghost i: nat, ghost j: nat) returns (ghost r: seq<Elem>)
    requires Linked(n) && 1 <= i < j < |n| - 1 && n[i] == a && n[j + 1] == b
    modifies n[i - 1], a, n[j - 1], n[j], b
    ensures r == Pasted(Removed(n, j, j + 1), i, n[j..j + 1]) && Linked(r)
    ensures n[0].prev == old(n[0].prev) && n[|n| - 1].next == old(n[|n| - 1].next)
    ensures |r| == |n| && r[0] == n[0] && r[|n| - 1] == n[|n| - 1]
    ensures forall x :: 0 <= x < |r| ==> r[x] in n
  {
    ghost var d := Removed(n, j, j + 1);
    r := Pasted(d, i, n[j..j + 1]);
    Splice(a, b.prev, b, n, j, j + 1, d, i);
  }

  /** inplace_merge of n[i0..j0] and n[j0..k]: the chain stays linked and its ends stay as they are. */
  method InplaceMerge(a0: Elem, a1b0: Elem, b1: Elem, less: (Elem, Elem) -> bool,
                      ghost n: seq<Elem>, ghost i0: nat, ghost j0: nat, ghost k: nat)
    returns (ghost r: seq<Elem>)
    requires Linked(n) && 1 <= i0 < j0 < k < |n| && n[i0] == a0 && n[j0] == a1b0 && n[k] == b1
    requires RunAt(less, n, i0, j0) && RunAt(less, n, j0, k)
    modifies n
    ensures Linked(r) && r == MergedAt(less, n, i0, j0, k) && |r| == |n|
    ensures r[0] == n[0] && r[|n| - 1] == n[|n| - 1] && r[k] == n[k]
    ensures n[0].prev == old(n[0].prev) && n[|n| - 1].next == old(n[|n| - 1].next)
  {
    hide MergedAt, Merge, Pasted, Removed, RunAt;
    var ok := IsSorted(a0, a1b0, less, n, i0, j0);
    assert ok;
    ok := IsSorted(a1b0, b1, less, n, j0, k);
    assert ok;
    var a, b := a0, a1b0;
    ghost var i, j := i0, j0;
    r := n;
    while a != b && b != b1
      invariant Linked(r) && |r| == |n| && 1 <= i <= j <= k < |r|
      invariant r[i] == a && r[j] == b && r[k] == b1
      invariant MergedAt(less, r, i, j, k) == MergedAt(less, n, i0, j0, k)
      invariant forall x :: 0 <= x < |r| ==> r[x] in n
      invariant r[0] == n[0] && r[|n| - 1] == n[|n| - 1]
      invariant n[0].prev == old(n[0].prev) && n[|n| - 1].next == old(n[|n| - 1].next)
      decreases k - i, k - j
    {
      if !less(b, a) {
        MergeTakesLeft(less, r, i, j, k);
        a, i := a.next, i + 1;
      } else {
        b := b.next;
        ghost var s := MoveBefore(a, b, r, i, j);
        MergeTakesRight(less, r, i, j, k, s);
        r, i, j := s, i + 1, j + 1;
      }
    }
    MergeDone(less, r, i, j, k);
  }

  /** The body of list_sort's inner loop: merges the two runs that start at a0 = n[i], or finds
      that only one is left. */
  method MergeNext(a0: Elem, tail: Elem, less: (Elem, Elem) -> bool, ghost n: seq<Elem>, ghost i: nat,
                   ghost was: seq<Elem>, ghost count: nat)
    returns (more: bool, b1: Elem, ghost k: nat, ghost r: seq<Elem>)
    requires Linked(n) && 1 <= i < |n| - 1 && n[i] == a0 && n[|n| - 1] == tail
    requires Progress(less, n, i, was, count)
    modifies n
    ensures Linked(r) && |r| == |n| && r[0] == n[0] && r[|n| - 1] == tail
    ensures n[0].prev == old(n[0].prev) && tail.next == old(tail.next)
    ensures forall x :: 0 <= x < |r| ==> r[x] in n
    ensures i < k < |r| && r[k] == b1 && (!more ==> b1 == tail)
    ensures Progress(less, r, k, was, count + 1)
  {
    hide Progress, RunEnd, RunAt, Merge, MergedAt, Linked;
    ghost var m := |n| - 1;
    var a1b0, j := FindEndOfRun(a0, tail, less, n, i, m);
    RunEndIs(less, n, i, j, m);
    if a1b0 == tail {
      LastOnly(n, j);
      OneRunLeft(less, n, i, was, count);
      return false, a1b0, j, n;
    }
    b1, k := FindEndOfRun(a1b0, tail, less, n, j, m);
    RunEndIs(less, n, j, k, m);
    PassStep(less, n, i, j, k, was, count);
    r := InplaceMerge(a0, a1b0, b1, less, n, i, j, k);
    MergedFrom(less, n, i, j, k, r);
    more := true;
  }

  lemma LastOnly(n: seq<Elem>, j: nat)
    requires Linked(n) && j < |n| && n[j] == n[|n| - 1]
    ensures j == |n| - 1
  {
  }

  // ---- list_reverse ----------------------------------------------------------------------------

  /** The loop of list_reverse: prev and next change places in every element between the headers. */
  method FlipLinks(first: Elem, tail: Elem, ghost n: seq<Elem>)
    requires Linked(n) && 2 < |n| && n[1] == first && n[|n| - 1] == tail
    modifies n[1..|n| - 1]
    ensures forall x {:trigger n[x].next} :: 1 <= x < |n| - 1 ==> n[x].next == n[x - 1]
    ensures forall x {:trigger n[x].prev} :: 1 <= x < |n| - 1 ==> n[x].prev == n[x + 1]
  {
    var e := first;
    ghost var m, k := |n| - 1, 1;
    while e != tail
      invariant 1 <= k <= m && n[k] == e
      invariant forall x {:trigger n[x].next} :: 1 <= x < k ==> n[x].next == n[x - 1]
      invariant forall x {:trigger n[x].prev} :: 1 <= x < k ==> n[x].prev == n[x + 1]
      invariant forall x {:trigger n[x].next} :: k <= x < m ==> n[x].next == n[x + 1]
      invariant forall x {:trigger n[x].prev} :: k <= x < m ==> n[x].prev == n[x - 1]
      decreases m - k
    {
      assert e in n[1..m];
      e.prev, e.next := e.next, e.prev;
      e, k := e.prev, k + 1;
    }
  }

  /** Links turned round are the links of the reversed chain. */
  lemma TurnedLinked(n: seq<Elem>, r: seq<Elem>)
    requires Distinct(n) && 2 < |n| && r == [n[0]] + Reversed(n[1..|n| - 1]) + [n[|n| - 1]]
    requires forall x {:trigger n[x].next} :: 2 <= x < |n| - 1 ==> n[x].next == n[x - 1]
    requires forall x {:trigger n[x].prev} :: 1 <= x < |n| - 2 ==> n[x].prev == n[x + 1]
    requires n[0].next == n[|n| - 2] && n[|n| - 2].prev == n[0] && n[1].next == n[|n| - 1] && n[|n| - 1].prev == n[1]
    ensures Linked(r)
  {
    var m := |n| - 1;
    assert forall x :: 1 <= x < m ==> r[x] == n[m - x];
    forall x | 0 <= x < m ensures r[x].next == r[x + 1] {
      if 1 <= x < m - 1 {
        assert r[x] == n[m - x] && r[x + 1] == n[m - x - 1];
      }
    }
    forall x | 1 <= x <= m ensures r[x].prev == r[x - 1] {
      if 2 <= x < m {
        assert r[x] == n[m - x] && r[x - 1] == n[m - x + 1];
      }
    }
  }

  // ---- whole lists -------------------------------------------------------------------------------

  /** struct list: two header elements, and between them the elements proper. */
  class List {
    const head: Elem
    const tail: Elem
    ghost var nodes: seq<Elem>   // head, the elements, tail

    ghost predicate Valid()
      reads this, nodes
    {
      && 2 <= |nodes| && nodes[0] == head && nodes[|nodes| - 1] == tail
      && Linked(nodes) && head.prev == null && tail.next == null
    }

    ghost function Elems(): seq<Elem>
      reads this
      requires 2 <= |nodes|
    {
      nodes[1..|nodes| - 1]
    }

    /** list_init. */
    constructor ()
      ensures Valid() && fresh(head) && fresh(tail) && Elems() == []
    {
      head := new Elem();
      tail := new Elem();
      new;
      head.next, tail.prev := tail, head;
      nodes := [head, tail];
    }

    /** One pass of list_sort: neighbouring runs are merged two by two. */
    method MergePass(less: (Elem, Elem) -> bool) returns (count: nat)
      requires Valid()
      modifies this, nodes
      ensures Valid() && |nodes| == |old(nodes)| && forall x :: 0 <= x < |nodes| ==> nodes[x] in old(nodes)
      ensures Elems() == Pass(less, old(Elems())) && count == PassCount(less, old(Elems()))
    {
      hide Linked, Pass, PassCount, Progress;
      count := 0;
      var a0 := First();
      ghost var i := 1;
      ghost var was := Elems();
      PassStarts(less, nodes, was);
      while a0 != tail
        invariant Valid() && |nodes| == |old(nodes)| && 1 <= i < |nodes| && nodes[i] == a0
        invariant forall x :: 0 <= x < |nodes| ==> nodes[x] in old(nodes)
        invariant Progress(less, nodes, i, was, count)
        decreases |nodes| - i
      {
        ghost var before := nodes;
        var more, b1, k, r := MergeNext(a0, tail, less, nodes, i, was, count);
        nodes := r;
        count := count + 1;
        forall x | 0 <= x < |nodes| ensures nodes[x] in old(nodes) {
          assert nodes[x] in before;
        }
        a0, i := b1, k;
        if !more {
          break;
        }
      }
      LastOnly(nodes, i);
      PassEnds(less, nodes, was, count);
    }

    /** list_sort: sorted, stable, and in at most k passes when there were at most 2^k runs. */
    method Sort(less: (Elem, Elem) -> bool) returns (ghost passes: nat)
      requires Valid() && StrictWeakOrder(less, set x | x in Elems())
      modifies this, nodes
      ensures Valid() && Sorted(less, Elems()) && StableRearrangement(less, old(Elems()), Elems())
      ensures forall k: nat :: 1 <= k && Runs(less, old(Elems())) <= Pow2(k) ==> passes <= k
    {
      hide StrictWeakOrder, Pass, PassCount, Linked, Sorted, StableRearrangement, Runs, Pow2;
      ghost var was, dom := Elems(), set x | x in Elems();
      FirstPass(less, dom, was);
      var count := MergePass(less);
      passes := 1;
      while count > 1
        invariant Valid() && |nodes| == |old(nodes)| && forall x :: 0 <= x < |nodes| ==> nodes[x] in old(nodes)
        invariant Within(Elems(), dom) && AfterPass(less, was, Elems(), passes, count)
        decreases count
      {
        ghost var before := nodes;
        NextPass(less, dom, was, Elems(), passes, count);
        count := MergePass(less);
        forall x | 0 <= x < |nodes| ensures nodes[x] in old(nodes) {
          assert nodes[x] in before;
        }
        passes := passes + 1;
      }
      CheckSorted(less);
    }

    /** The assertion that list_sort ends with. */
    method CheckSorted(less: (Elem, Elem) -> bool)
      requires Valid() && Sorted(less, Elems())
    {
      var first := First();
      assert RunAt(less, nodes, 1, |nodes| - 1) by {
        forall k | 1 < k < |nodes| - 1 ensures !less(nodes[k], nodes[k - 1]) {
          assert nodes[k] == Elems()[k - 1] && nodes[k - 1] == Elems()[k - 2];
        }
      }
      var ok := IsSorted(first, tail, less, nodes, 1, |nodes| - 1);
      assert ok;
    }

    /** list_reverse. */
    method Reverse()
      requires Valid()
      modifies this, nodes
      ensures Valid() && Elems() == Reversed(old(Elems()))
    {
      if head.next != tail {
        ghost var n, m := nodes, |nodes| - 1;
        FlipLinks(head.next, tail, n);
        head.next, tail.prev := tail.prev, head.next;
        head.next.prev, tail.prev.next := tail.prev.next, head.next.prev;
        nodes := [head] + Reversed(n[1..m]) + [tail];
        TurnedLinked(n, nodes);
      } else {
        assert Reversed(Elems()) == Elems();
      }
    }

    /** list_push_back. */
    method PushBack(elem: Elem)
      requires Valid() && elem !in nodes
      modifies this, nodes[|nodes| - 2], tail, elem
      ensures Valid() && nodes == Inserted(old(nodes), |old(nodes)| - 1, elem)
      ensures Elems() == old(Elems()) + [elem]
    {
      Insert(tail, elem, nodes, |nodes| - 1);
      nodes := Inserted(nodes, |nodes| - 1, elem);
    }

    /** list_insert_ordered: elem goes after everything that is not above it. */
    method InsertOrdered(elem: Elem, less: (Elem, Elem) -> bool) returns (ghost p: nat)
      requires Valid() && elem !in nodes
      modifies this, nodes, elem
      ensures Valid() && p <= |old(Elems())| && Elems() == Inserted(old(Elems()), p, elem)
      ensures forall i :: 0 <= i < p ==> !less(elem, old(Elems())[i])
      ensures p < |old(Elems())| ==> less(elem, old(Elems())[p])
      ensures OrderedAt(less, old(Elems()), p, elem)
    {
      hide Sorted, StrictWeakOrder, OrderedAt, Inserted;
      var e;
      e, p := FindAbove(elem, less);
      ghost var s, n := Elems(), nodes;
      InsertedInOrder(less, s, p, elem);
      Insert(e, elem, n, p + 1);
      InsertedElems(n, p + 1, elem);
      nodes := Inserted(n, p + 1, elem);
      assert Elems() == nodes[1..|n|] && n[1..|n| - 1] == s;
    }

    /** The search loop of list_insert_ordered. */
    method FindAbove(elem: Elem, less: (Elem, Elem) -> bool) returns (e: Elem, ghost p: nat)
      requires Valid()
      ensures p + 1 < |nodes| && nodes[p + 1] == e
      ensures forall i :: 0 <= i < p ==> !less(elem, Elems()[i])
      ensures p < |Elems()| ==> less(elem, Elems()[p])
    {
      e := head.next;
      p := 0;
      while e != tail && !less(elem, e)
        invariant p + 1 < |nodes| && nodes[p + 1] == e
        invariant forall i :: 1 <= i <= p ==> !less(elem, nodes[i])
        decreases |nodes| - p
      {
        e, p := e.next, p + 1;
      }
      assert forall i :: 0 <= i < |Elems()| ==> Elems()[i] == nodes[i + 1];
    }

    /** list_unique: keeps the first of each group of neighbours that compare alike; the others move
        to duplicates, if there is such a list. */
    method Unique(duplicates: List?, less: (Elem, Elem) -> bool)
      requires Valid()
      requires duplicates != null ==> duplicates.Valid() && duplicates != this && Apart(nodes, duplicates.nodes)
      modifies this, nodes, duplicates, if duplicates != null then duplicates.nodes else []
      ensures Valid() && Elems() == Uniques(less, old(Elems()))
      ensures duplicates != null ==> duplicates.Valid()
      ensures duplicates != null ==> duplicates.Elems() == old(duplicates.Elems()) + Repeats(less, old(Elems()))
    {
      hide Uniques, Repeats, UniqueProgress, Apart, Linked, Sifting;
      ghost var was := Elems();
      ghost var all: set<Elem> := (set x | x in nodes) + if duplicates != null then (set x | x in duplicates.nodes) else {};
      ghost var before: seq<Elem> := if duplicates != null then duplicates.Elems() else [];
      var elem := First();
      if elem == tail {
        LastOnly(nodes, 1);
        UniqueEmpty(less, was);
        return;
      }
      SiftingStarts(less, duplicates, all, before);
      SiftAll(less, elem, duplicates, was, all, before);
    }

    /** The loop of list_unique. */
    method SiftAll(less: (Elem, Elem) -> bool, first: Elem, duplicates: List?, ghost was: seq<Elem>,
                   ghost all: set<Elem>, ghost before: seq<Elem>)
      requires Sifting(less, duplicates, 1, was, [], all, before) && 2 < |nodes| && nodes[1] == first
      modifies this, duplicates, all
      ensures Valid() && Elems() == Uniques(less, was)
      ensures duplicates != null ==> duplicates.Valid() && duplicates.Elems() == before + Repeats(less, was)
    {
      hide Uniques, Repeats, Sifting, Valid;
      var elem := first;
      ghost var i: nat, gone: seq<Elem> := 1, [];
      var next := Following(less, elem, duplicates, i, was, gone, all, before);
      while next != tail
        invariant Sifting(less, duplicates, i, was, gone, all, before)
        invariant i + 1 < |nodes| && nodes[i] == elem && nodes[i + 1] == next
        decreases |nodes| - i
      {
        elem, i, gone := Sift(less, elem, next, duplicates, i, was, gone, all, before);
        next := Following(less, elem, duplicates, i, was, gone, all, before);
      }
      SiftingEnds(less, duplicates, i, was, gone, all, before);
    }

    /** The loop invariant of list_unique; before is what duplicates held at the start. */
    ghost predicate Sifting(less: (Elem, Elem) -> bool, duplicates: List?, i: nat, was: seq<Elem>, gone: seq<Elem>,
                            all: set<Elem>, before: seq<Elem>)
      reads this, nodes, duplicates, if duplicates != null then duplicates.nodes else []
    {
      && Valid() && OwnNodes(this, all)
      && UniqueProgress(less, nodes, i, was, gone)
      && (duplicates != null ==>
            && duplicates.Valid() && duplicates != this && Apart(nodes, duplicates.nodes)
            && OwnNodes(duplicates, all) && duplicates.Elems() == before + gone)
    }

    lemma SiftingStarts(less: (Elem, Elem) -> bool, duplicates: List?, all: set<Elem>, before: seq<Elem>)
      requires Valid() && 2 < |nodes|
      requires OwnNodes(this, all)
      requires duplicates != null ==> duplicates.Valid() && duplicates != this && Apart(nodes, duplicates.nodes)
      requires duplicates != null ==> OwnNodes(duplicates, all) && duplicates.Elems() == before
      ensures Sifting(less, duplicates, 1, Elems(), [], all, before)
    {
      UniqueStarts(less, nodes, Elems());
    }

    lemma SiftingEnds(less: (Elem, Elem) -> bool, duplicates: List?, i: nat, was: seq<Elem>, gone: seq<Elem>,
                      all: set<Elem>, before: seq<Elem>)
      requires Sifting(less, duplicates, i, was, gone, all, before) && nodes[i + 1] == tail
      ensures Valid() && Elems() == Uniques(less, was)
      ensures duplicates != null ==> duplicates.Valid() && duplicates.Elems() == before + Repeats(less, was)
    {
      LastOnly(nodes, i + 1);
      UniqueEnds(less, nodes, was, gone);
    }

    /** One iteration of list_unique's loop. */
    method Sift(less: (Elem, Elem) -> bool, elem: Elem, next: Elem, duplicates: List?, ghost i: nat,
                ghost was: seq<Elem>, ghost gone: seq<Elem>, ghost all: set<Elem>, ghost before: seq<Elem>)
      returns (e: Elem, ghost i': nat, ghost gone': seq<Elem>)
      requires Sifting(less, duplicates, i, was, gone, all, before)
      requires i + 1 < |nodes| && nodes[i] == elem && nodes[i + 1] == next && next != tail
      modifies this, duplicates, all
      ensures Sifting(less, duplicates, i', was, gone', all, before)
      ensures i' + 1 < |nodes| && nodes[i'] == e && |nodes| - i' < old(|nodes|) - i
    {
      hide Uniques, Repeats, UniqueProgress, Apart, Linked;
      if !less(elem, next) && !less(next, elem) {
        UniqueDrops(less, nodes, i, was, gone);
        DropTo(next, i + 1, duplicates, all);
        e, i', gone' := elem, i, gone + [next];
      } else {
        UniqueKeeps(less, nodes, i, was, gone);
        e, i', gone' := next, i + 1, gone;
      }
    }

    /** list_next, where the loop of list_unique calls it. */
    method Following(less: (Elem, Elem) -> bool, elem: Elem, duplicates: List?, ghost i: nat, ghost was: seq<Elem>,
                     ghost gone: seq<Elem>, ghost all: set<Elem>, ghost before: seq<Elem>) returns (e: Elem)
      requires Sifting(less, duplicates, i, was, gone, all, before) && i + 1 < |nodes| && nodes[i] == elem
      ensures e == nodes[i + 1]
    {
      e := elem.next;
    }

    /** list_remove of the element at index k, and list_push_back to duplicates. */
    method DropTo(elem: Elem, ghost k: nat, duplicates: List?, ghost all: set<Elem>)
      requires Valid() && OwnNodes(this, all) && 1 <= k < |nodes| - 1 && nodes[k] == elem
      requires duplicates != null ==> duplicates.Valid() && duplicates != this && Apart(nodes, duplicates.nodes)
      requires duplicates != null ==> OwnNodes(duplicates, all)
      modifies this, duplicates, all
      ensures Valid() && OwnNodes(this, all) && nodes == Removed(old(nodes), k, k + 1)
      ensures duplicates != null ==> duplicates.Valid() && Apart(nodes, duplicates.nodes) && OwnNodes(duplicates, all)
      ensures duplicates != null ==> duplicates.Elems() == old(duplicates.Elems()) + [elem]
    {
      assert nodes[k - 1] in all && nodes[k] in all && nodes[k + 1] in all;
      Drop(elem, k);
      if duplicates != null {
        assert duplicates.nodes[|duplicates.nodes| - 1] in all && duplicates.nodes[|duplicates.nodes| - 2] in all;
        duplicates.PushBack(elem);
      }
    }

    /** list_remove of the element at index k. */
    method Drop(elem: Elem, ghost k: nat)
      requires Valid() && 1 <= k < |nodes| - 1 && nodes[k] == elem
      modifies this, nodes[k - 1], nodes[k + 1]
      ensures Valid() && nodes == Removed(old(nodes), k, k + 1)
      ensures forall x :: 0 <= x < |nodes| ==> nodes[x] in old(nodes) && nodes[x] != elem
    {
      ghost var n := nodes;
      var after := Remove(elem, nodes, k);
      nodes := Removed(nodes, k, k + 1);
    }

    /** list_begin. */
    method First() returns (e: Elem)
      requires Valid()
      ensures e == nodes[1]
    {
      e := head.next;
    }
  }

  /** Between two iterations of the inner loop: what lies before index i is done, and a pass over
      the rest would complete the pass over the list as it was, and its count of runs. */
  ghost predicate Progress(less: (Elem, Elem) -> bool, n: seq<Elem>, i: nat, was: seq<Elem>, count: nat) {
    && 1 <= i < |n|
    && n[1..i] + Pass(less, n[i..|n| - 1]) == Pass(less, was)
    && count + PassCount(less, n[i..|n| - 1]) == PassCount(less, was)
  }

  lemma PassStarts(less: (Elem, Elem) -> bool, n: seq<Elem>, was: seq<Elem>)
    requires 2 <= |n| && was == n[1..|n| - 1]
    ensures Progress(less, n, 1, was, 0)
  {
  }

  lemma PassEnds(less: (Elem, Elem) -> bool, n: seq<Elem>, was: seq<Elem>, count: nat)
    requires 2 <= |n| && Progress(less, n, |n| - 1, was, count)
    ensures n[1..|n| - 1] == Pass(less, was) && count == PassCount(less, was)
  {
    assert n[|n| - 1..|n| - 1] == [];
    assert n[1..|n| - 1] + [] == n[1..|n| - 1];
  }

  ghost predicate OwnNodes(list: List, all: set<Elem>)
    reads list
  {
    forall x :: 0 <= x < |list.nodes| ==> list.nodes[x] in all
  }

  /** If the list was sorted, it stays so, and elem went before everything above it. */
  ghost predicate OrderedAt(less: (Elem, Elem) -> bool, s: seq<Elem>, p: nat, elem: Elem)
    requires p <= |s|
  {
    StrictWeakOrder(less, set x | x in s + [elem]) && Sorted(less, s) ==>
      Sorted(less, Inserted(s, p, elem)) && forall i :: p <= i < |s| ==> less(elem, s[i])
  }

  lemma InsertedInOrder(less: (Elem, Elem) -> bool, s: seq<Elem>, p: nat, elem: Elem)
    requires p <= |s| && (forall i :: 0 <= i < p ==> !less(elem, s[i])) && (p < |s| ==> less(elem, s[p]))
    ensures OrderedAt(less, s, p, elem)
  {
    hide Sorted, StrictWeakOrder;
    var dom := set x | x in s + [elem];
    assert elem in dom by { assert elem == (s + [elem])[|s|]; }
    if StrictWeakOrder(less, dom) && Sorted(less, s) {
      InsertSorted(less, dom, s, p, elem);
    }
  }

  lemma InsertedElems(n: seq<Elem>, k: nat, x: Elem)
    requires 1 <= k < |n|
    ensures |Inserted(n, k, x)| == |n| + 1 && Inserted(n, k, x)[0] == n[0] && Inserted(n, k, x)[|n|] == n[|n| - 1]
    ensures Inserted(n, k, x)[1..|n|] == Inserted(n[1..|n| - 1], k - 1, x)
  {
  }

  /** Between two iterations of list_unique: elements before index i are kept, gone were removed. */
  ghost predicate UniqueProgress(less: (Elem, Elem) -> bool, n: seq<Elem>, i: nat, was: seq<Elem>, gone: seq<Elem>) {
    && 1 <= i < |n| - 1
    && n[1..i] + Uniques(less, n[i..|n| - 1]) == Uniques(less, was)
    && gone + Repeats(less, n[i..|n| - 1]) == Repeats(less, was)
  }

  lemma UniqueEmpty(less: (Elem, Elem) -> bool, was: seq<Elem>)
    requires was == []
    ensures Uniques(less, was) == [] && Repeats(less, was) == []
  {
  }

  lemma UniqueStarts(less: (Elem, Elem) -> bool, n: seq<Elem>, was: seq<Elem>)
    requires 2 < |n| && was == n[1..|n| - 1]
    ensures UniqueProgress(less, n, 1, was, [])
  {
    assert n[1..1] + Uniques(less, was) == Uniques(less, was);
    assert [] + Repeats(less, was) == Repeats(less, was);
  }

  lemma UniqueKeeps(less: (Elem, Elem) -> bool, n: seq<Elem>, i: nat, was: seq<Elem>, gone: seq<Elem>)
    requires UniqueProgress(less, n, i, was, gone) && i + 1 < |n| - 1 && !Alike(less, n[i], n[i + 1])
    ensures UniqueProgress(less, n, i + 1, was, gone)
  {
    var s := n[i..|n| - 1];
    assert s[1..] == n[i + 1..|n| - 1];
    assert n[1..i + 1] == n[1..i] + [n[i]];
  }

  lemma UniqueDrops(less: (Elem, Elem) -> bool, n: seq<Elem>, i: nat, was: seq<Elem>, gone: seq<Elem>)
    requires UniqueProgress(less, n, i, was, gone) && i + 1 < |n| - 1 && Alike(less, n[i], n[i + 1])
    ensures UniqueProgress(less, Removed(n, i + 1, i + 2), i, was, gone + [n[i + 1]])
  {
    hide Alike, Removed;
    var s := n[i..|n| - 1];
    RemovedSlice(n, i, s);
    Reassociate(gone, [s[1]], Repeats(less, [s[0]] + s[2..]));
  }

  lemma RemovedSlice<T>(n: seq<T>, i: nat, s: seq<T>)
    requires 1 <= i && i + 1 < |n| - 1 && s == n[i..|n| - 1]
    ensures var r := Removed(n, i + 1, i + 2); |r| == |n| - 1 && r[i..|r| - 1] == [s[0]] + s[2..] && r[1..i] == n[1..i]
  {
    var r := Removed(n, i + 1, i + 2);
    assert forall x :: 0 <= x <= i ==> r[x] == n[x];
    assert forall x :: i < x < |r| ==> r[x] == n[x + 1];
  }

  lemma UniqueEnds(less: (Elem, Elem) -> bool, n: seq<Elem>, was: seq<Elem>, gone: seq<Elem>)
    requires 3 <= |n| && UniqueProgress(less, n, |n| - 2, was, gone)
    ensures n[1..|n| - 1] == Uniques(less, was) && gone == Repeats(less, was)
  {
    var i := |n| - 2;
    assert n[i..|n| - 1] == [n[i]];
    assert n[1..|n| - 1] == n[1..i] + [n[i]];
  }

  lemma OneRunLeft(less: (Elem, Elem) -> bool, n: seq<Elem>, i: nat, was: seq<Elem>, count: nat)
    requires Progress(less, n, i, was, count)
    requires i < |n| - 1 && RunEnd(less, n[i..|n| - 1], 0) == |n| - 1 - i
    ensures Progress(less, n, |n| - 1, was, count + 1)
  {
    hide RunEnd;
    var m := |n| - 1;
    assert n[1..m] == n[1..i] + n[i..m];
    assert n[m..m] == [];
  }

  /** What merging moves stays within the merged part. */
  lemma MergedFrom(less: (Elem, Elem) -> bool, n: seq<Elem>, i: nat, j: nat, k: nat, r: seq<Elem>)
    requires i <= j <= k <= |n| && r == MergedAt(less, n, i, j, k)
    ensures forall x :: 0 <= x < |r| ==> r[x] in n
  {
    hide Merge;
    var m := Merge(less, n[i..j], n[j..k]);
    MergeContents(less, n[i..j], n[j..k]);
    forall x | 0 <= x < |r| ensures r[x] in n {
      if i <= x < k {
        assert r[x] == m[x - i];
        assert m[x - i] in multiset(m);
        assert r[x] in n[i..j] || r[x] in n[j..k];
      }
    }
  }

  /** find_end_of_run computes RunEnd of what is left of the list. */
  lemma RunEndIs(less: (Elem, Elem) -> bool, n: seq<Elem>, i: nat, j: nat, m: nat)
    requires 1 <= i < j <= m <= |n|
    requires RunAt(less, n, i, j)
    requires j < m ==> less(n[j], n[j - 1])
    ensures RunEnd(less, n[i..m], 0) == j - i
  {
    var s := n[i..m];
    var e := RunEnd(less, s, 0);
    assert s[e - 1] == n[i + e - 1] && s[j - i - 1] == n[j - 1];
    assert e < |s| ==> s[e] == n[i + e];
    assert j < m ==> s[j - i] == n[j];
  }

  lemma Slices<T>(n: seq<T>, i: nat, j: nat, k: nat, m: nat, s: seq<T>)
    requires i <= j <= k <= m <= |n| && s == n[i..m]
    ensures s[..j - i] == n[i..j] && s[j - i..] == n[j..m] && s[j - i..k - i] == n[j..k] && s[k - i..] == n[k..m]
  {
    assert s[..j - i] == n[i..j];
    assert s[j - i..] == n[j..m];
    var t, u := s[j - i..k - i], n[j..k];
    forall x | 0 <= x < k - j ensures t[x] == u[x] {
      assert t[x] == s[j - i + x] && u[x] == n[j + x];
    }
    assert s[k - i..] == n[k..m];
  }

  /** Merging the first two runs of the rest is one step of the pass. */
  lemma PassStep(less: (Elem, Elem) -> bool, n: seq<Elem>, i: nat, j: nat, k: nat, was: seq<Elem>, count: nat)
    requires Progress(less, n, i, was, count) && i < j < k < |n|
    requires RunEnd(less, n[i..|n| - 1], 0) == j - i && RunEnd(less, n[j..|n| - 1], 0) == k - j
    ensures Progress(less, MergedAt(less, n, i, j, k), k, was, count + 1)
  {
    hide RunEnd, RunAt, Merge, Pass, PassCount, MergedAt;
    var m := |n| - 1;
    PassAtFront(less, n, i, j, k, m);
    MergedSlices(less, n, i, j, k, m);
    Reassociate(n[1..i], Merge(less, n[i..j], n[j..k]), Pass(less, n[k..m]));
  }

  lemma PassAtFront(less: (Elem, Elem) -> bool, n: seq<Elem>, i: nat, j: nat, k: nat, m: nat)
    requires i < j < k <= m <= |n| && RunEnd(less, n[i..m], 0) == j - i && RunEnd(less, n[j..m], 0) == k - j
    ensures Pass(less, n[i..m]) == Merge(less, n[i..j], n[j..k]) + Pass(less, n[k..m])
    ensures PassCount(less, n[i..m]) == 1 + PassCount(less, n[k..m])
  {
    hide RunEnd, RunAt, Merge, Pass, PassCount;
    var s := n[i..m];
    Slices(n, i, j, k, m, s);
    PassUnfold(less, s, j - i, k - i);
  }

  lemma Reassociate<T>(a: seq<T>, b: seq<T>, c: seq<T>)
    ensures a + (b + c) == a + b + c
  {
  }

  lemma MergedSlices(less: (Elem, Elem) -> bool, n: seq<Elem>, i: nat, j: nat, k: nat, m: nat)
    requires 1 <= i <= j <= k <= m <= |n|
    ensures var r := MergedAt(less, n, i, j, k);
      |r| == |n| && r[1..k] == n[1..i] + Merge(less, n[i..j], n[j..k]) && r[k..m] == n[k..m]
  {
    hide Merge;
  }
}
