/** The buffers of bio.c on their doubly linked ring, rewired in place. */
module BufferRing {
  import opened Wrappers
  import opened Blocks

  class Buf {
    var dev: int
    var blockno: nat
    var busy: bool
    var valid: bool
    var dirty: bool
    var data: Block
    var prev: Buf?
    var next: Buf?

    constructor ()
      ensures dev == 0 && !busy && !valid && !dirty && fresh(this)
    {
      dev, blockno, busy, valid, dirty, data := 0, 0, false, false, false, seq(BSIZE, i => 0);
      prev, next := null, null;
    }
  }

  function Succ(n: nat, i: nat): nat { if i + 1 < n then i + 1 else 0 }

  function Pred(n: nat, i: nat): int { if i > 0 then i - 1 else n - 1 }

  ghost predicate LinkOk(n: seq<Buf>, i: nat)
    requires i < |n|
    reads n`prev, n`next
  {
    n[i].next == n[Succ(|n|, i)] && n[i].prev == n[Pred(|n|, i)]
  }

  /** Both link directions go round n. */
  ghost predicate Ring(n: seq<Buf>)
    reads n`prev, n`next
  {
    n != [] && Distinct(n) && forall i :: 0 <= i < |n| ==> LinkOk(n, i)
  }

  function Without<T>(n: seq<T>, k: nat): (r: seq<T>)
    requires k < |n|
    ensures |r| == |n| - 1
  {
    n[..k] + n[k + 1..]
  }

  function Fronted<T>(n: seq<T>, x: T): (r: seq<T>)
    requires n != []
    ensures |r| == |n| + 1
  {
    [n[0], x] + n[1..]
  }

  /** b leaves the ring. */
  method Unlink(b: Buf, ghost n: seq<Buf>, ghost k: nat)
    requires Ring(n) && 1 <= k < |n| && n[k] == b
    modifies n`prev, n`next
    ensures Ring(Without(n, k))
  {
    assert LinkOk(n, k);
    b.next.prev := b.prev;
    b.prev.next := b.next;
    ghost var r := Without(n, k);
    forall i | 0 <= i < |r| ensures LinkOk(r, i) {
      assert old(LinkOk(n, if i < k then i else i + 1));
    }
  }

  /** b goes in right behind the head. */
  method LinkFirst(head: Buf, b: Buf, ghost n: seq<Buf>)
    requires Ring(n) && n[0] == head && b !in n
    modifies n`prev, n`next, b`prev, b`next
    ensures Ring(Fronted(n, b))
  {
    assert LinkOk(n, 0);
    b.next := head.next;
    b.prev := head;
    head.next.prev := b;
    head.next := b;
    ghost var r := Fronted(n, b);
    forall i | 0 <= i < |r| ensures LinkOk(r, i) {
      assert old(LinkOk(n, if i < 2 then 0 else i - 1));
    }
  }
}
