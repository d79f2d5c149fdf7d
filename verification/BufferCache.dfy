/** bio.c: the buffer cache as a store of blocks, and the order in which it recycles buffers. */
module BufferCache {
  import opened Wrappers
  import opened Blocks
  import opened BufferRing

  /** What a buffer holds, apart from its links. */
  datatype Slot = Slot(dev: int, blockno: nat, busy: bool, valid: bool, dirty: bool, data: Block)

  const NODEV: int := -1
  const DISK: int := 1

  datatype GetResult = Sleep | NoBuffers | Got(b: Buf)

  ghost function SlotOf(b: Buf): Slot
    reads b`dev, b`blockno, b`busy, b`valid, b`dirty, b`data
  {
    Slot(b.dev, b.blockno, b.busy, b.valid, b.dirty, b.data)
  }

  /** The buffers round the ring; index 0 is the head and holds nothing. */
  ghost function Slots(n: seq<Buf>): (r: seq<Slot>)
    reads n`dev, n`blockno, n`busy, n`valid, n`dirty, n`data
    ensures |r| == |n|
  {
    if n == [] then [] else Slots(n[..|n| - 1]) + [SlotOf(n[|n| - 1])]
  }

  lemma {:induction false} SlotsAt(n: seq<Buf>, k: nat)
    requires k < |n|
    ensures Slots(n)[k] == SlotOf(n[k])
    decreases |n|
  {
    if k < |n| - 1 {
      SlotsAt(n[..|n| - 1], k);
    }
  }

  lemma AllSlots(n: seq<Buf>)
    ensures forall i :: 0 <= i < |n| ==> Slots(n)[i] == SlotOf(n[i])
  {
    forall i | 0 <= i < |n| ensures Slots(n)[i] == SlotOf(n[i]) {
      SlotsAt(n, i);
    }
  }

  /** Changing one buffer changes one slot; c is what the slots were. */
  lemma OneSlot(n: seq<Buf>, k: nat, c: seq<Slot>)
    requires k < |n| == |c| && forall i :: 0 <= i < |n| && i != k ==> SlotOf(n[i]) == c[i]
    ensures Slots(n) == c[k := SlotOf(n[k])]
  {
    hide Slots;
    AllSlots(n);
  }

  // ---- the store ------------------------------------------------------------------------------------

  predicate Names(s: Slot, dev: int, blockno: nat) { s.dev == dev && s.blockno == blockno }

  predicate SlotOk(s: Slot, disk: seq<Block>) {
    && (s.dirty ==> s.valid)
    && (s.valid ==> s.dev == DISK && s.blockno < |disk|)
    && (s.valid && !s.dirty && !s.busy ==> s.data == disk[s.blockno])
  }

  /** No block is cached twice, and an idle clean buffer repeats the disk. */
  ghost predicate CacheOk(c: seq<Slot>, disk: seq<Block>) {
    && (forall i, j :: 1 <= i < j < |c| && c[i].dev != NODEV ==> !Names(c[j], c[i].dev, c[i].blockno))
    && (forall i :: 1 <= i < |c| ==> SlotOk(c[i], disk))
  }

  /** Block b as seen through the cache: the buffered copy if there is a valid one. */
  ghost predicate Shows(c: seq<Slot>, disk: seq<Block>, b: nat, data: Block) {
    && b < |disk|
    && (forall i :: 1 <= i < |c| && Names(c[i], DISK, b) && c[i].valid ==> c[i].data == data)
    && ((forall i :: 1 <= i < |c| && Names(c[i], DISK, b) ==> !c[i].valid) ==> disk[b] == data)
  }

  ghost predicate SameShow(c: seq<Slot>, disk: seq<Block>, d: seq<Slot>, disk': seq<Block>) {
    forall b: nat, data: Block :: Shows(c, disk, b, data) <==> Shows(d, disk', b, data)
  }

  /** A block shows one thing only. */
  lemma ShowsOne(c: seq<Slot>, disk: seq<Block>, b: nat)
    requires CacheOk(c, disk) && b < |disk|
    ensures exists data :: Shows(c, disk, b, data) && forall other :: Shows(c, disk, b, other) ==> other == data
  {
    if i :| 1 <= i < |c| && Names(c[i], DISK, b) && c[i].valid {
      assert Shows(c, disk, b, c[i].data);
    } else {
      assert Shows(c, disk, b, disk[b]);
    }
  }

  /** What bget makes of buffer k. */
  function Gotten(s: Slot, dev: int, blockno: nat): Slot {
    if Names(s, dev, blockno) then s.(busy := true) else Slot(dev, blockno, true, false, false, s.data)
  }

  /** What bread makes of it. */
  function Filled(s: Slot, disk: seq<Block>): Slot {
    if s.valid || s.blockno >= |disk| then s else s.(valid := true, data := disk[s.blockno])
  }

  ghost predicate CanGet(c: seq<Slot>, k: nat, dev: int, blockno: nat) {
    && 1 <= k < |c| && !c[k].busy && dev != NODEV
    && (Names(c[k], dev, blockno) || (!c[k].dirty && forall i :: 1 <= i < |c| ==> !Names(c[i], dev, blockno)))
  }

  /** Taking or recycling a buffer changes nothing that the cache shows. */
  lemma GetKeeps(c: seq<Slot>, disk: seq<Block>, k: nat, dev: int, blockno: nat)
    requires CacheOk(c, disk) && CanGet(c, k, dev, blockno)
    ensures CacheOk(c[k := Gotten(c[k], dev, blockno)], disk)
    ensures SameShow(c, disk, c[k := Gotten(c[k], dev, blockno)], disk)
  {
    var d := c[k := Gotten(c[k], dev, blockno)];
    assert SlotOk(c[k], disk);
    forall i | 1 <= i < |d| ensures SlotOk(d[i], disk) {
      assert SlotOk(c[i], disk);
    }
    forall b: nat, data: Block ensures Shows(c, disk, b, data) <==> Shows(d, disk, b, data) {
      GetShows(c, disk, k, dev, blockno, b, data);
    }
  }

  lemma GetShows(c: seq<Slot>, disk: seq<Block>, k: nat, dev: int, blockno: nat, b: nat, data: Block)
    requires CacheOk(c, disk) && CanGet(c, k, dev, blockno)
    ensures Shows(c, disk, b, data) <==> Shows(c[k := Gotten(c[k], dev, blockno)], disk, b, data)
  {
    var d := c[k := Gotten(c[k], dev, blockno)];
    assert SlotOk(c[k], disk);
    if Names(c[k], dev, blockno) {
      assert forall i :: 0 <= i < |c| ==> d[i].dev == c[i].dev && d[i].blockno == c[i].blockno && d[i].valid == c[i].valid && d[i].data == c[i].data;
    } else {
      assert !d[k].valid && forall i :: 1 <= i < |c| && i != k ==> d[i] == c[i];
      assert c[k].valid && c[k].blockno == b ==> c[k].data == disk[b];
      assert c[k].valid ==> forall i :: 1 <= i < |c| && i != k ==> !Names(c[i], c[k].dev, c[k].blockno);
    }
  }

  /** iderw fills a buffer that is not valid. */
  lemma FillKeeps(c: seq<Slot>, disk: seq<Block>, k: nat)
    requires CacheOk(c, disk) && 1 <= k < |c| && !c[k].valid && c[k].busy && c[k].dev == DISK && c[k].blockno < |disk|
    ensures CacheOk(c[k := c[k].(valid := true, data := disk[c[k].blockno])], disk)
    ensures SameShow(c, disk, c[k := c[k].(valid := true, data := disk[c[k].blockno])], disk)
    ensures Shows(c, disk, c[k].blockno, disk[c[k].blockno])
  {
    var d := c[k := c[k].(valid := true, data := disk[c[k].blockno])];
    forall i | 1 <= i < |d| ensures SlotOk(d[i], disk) {
      assert SlotOk(c[i], disk);
    }
    forall b: nat, data: Block ensures Shows(c, disk, b, data) <==> Shows(d, disk, b, data) {
      FillShows(c, disk, k, b, data);
    }
    FillShows(c, disk, k, c[k].blockno, disk[c[k].blockno]);
  }

  lemma FillShows(c: seq<Slot>, disk: seq<Block>, k: nat, b: nat, data: Block)
    requires CacheOk(c, disk) && 1 <= k < |c| && !c[k].valid && c[k].busy && c[k].dev == DISK && c[k].blockno < |disk|
    ensures Shows(c, disk, b, data) <==> Shows(c[k := c[k].(valid := true, data := disk[c[k].blockno])], disk, b, data)
    ensures b == c[k].blockno ==> Shows(c, disk, b, disk[b])
  {
    var d := c[k := c[k].(valid := true, data := disk[c[k].blockno])];
    assert forall i :: 1 <= i < |c| && i != k ==> d[i] == c[i] && !Names(c[i], DISK, c[k].blockno);
    if b == c[k].blockno {
      assert Names(c[k], DISK, b) && Names(d[k], DISK, b);
    }
  }

  /** bwrite: the disk takes over what the buffer holds. */
  lemma WriteKeeps(c: seq<Slot>, disk: seq<Block>, k: nat)
    requires CacheOk(c, disk) && 1 <= k < |c| && c[k].busy && c[k].dev == DISK && c[k].blockno < |disk|
    ensures var d := c[k := c[k].(valid := true, dirty := false)];
      CacheOk(d, disk[c[k].blockno := c[k].data]) && Shows(d, disk[c[k].blockno := c[k].data], c[k].blockno, c[k].data)
    ensures var d := c[k := c[k].(valid := true, dirty := false)];
      forall b: nat, data: Block :: b != c[k].blockno ==> (Shows(c, disk, b, data) <==> Shows(d, disk[c[k].blockno := c[k].data], b, data))
  {
    var d, disk' := c[k := c[k].(valid := true, dirty := false)], disk[c[k].blockno := c[k].data];
    assert forall i :: 1 <= i < |c| && i != k ==> d[i] == c[i] && !Names(c[i], DISK, c[k].blockno);
    forall i | 1 <= i < |d| ensures SlotOk(d[i], disk') {
      assert SlotOk(c[i], disk);
    }
  }

  // ---- the ring as a history of releases --------------------------------------------------------------------

  /** The ring after brelse of the buffer at k. */
  function Released(c: seq<Slot>, k: nat): seq<Slot>
    requires 1 <= k < |c|
  {
    Fronted(Without(c, k), c[k].(busy := false))
  }

  lemma ReleasedAt(c: seq<Slot>, k: nat)
    requires 1 <= k < |c|
    ensures var d := Released(c, k);
      |d| == |c| && d[1] == c[k].(busy := false) && (forall i :: 2 <= i <= k ==> d[i] == c[i - 1]) && (forall i :: k < i < |c| ==> d[i] == c[i])
  {
  }

  /** Where the buffer at place i of the new ring was before. */
  function Before(k: nat, i: nat): int { if i == 1 then k else if i <= k then i - 1 else i }

  /** A changed buffer that is neither written nor marked dirty is the only thing that brelse breaks. */
  lemma ReleaseKeeps(c: seq<Slot>, disk: seq<Block>, k: nat)
    requires CacheOk(c, disk) && 1 <= k < |c|
    ensures SameShow(c, disk, Released(c, k), disk)
    ensures CacheOk(Released(c, k), disk) <==> SlotOk(c[k].(busy := false), disk)
  {
    hide Released;
    var d := Released(c, k);
    ReleasedAt(c, k);
    assert forall i :: 1 <= i < |d| ==> 1 <= Before(k, i) < |c| && d[i].(busy := false) == c[Before(k, i)].(busy := false);
    forall i | 2 <= i < |d| ensures SlotOk(d[i], disk) {
      assert SlotOk(c[Before(k, i)], disk);
    }
    forall b: nat, data: Block ensures Shows(c, disk, b, data) <==> Shows(d, disk, b, data) {
      ReleaseShows(c, d, disk, k, b, data);
    }
  }

  function After(k: nat, j: nat): nat { if j == k then 1 else if j < k then j + 1 else j }

  predicate Alike(s: Slot, t: Slot) { s.(busy := false) == t.(busy := false) }

  lemma ReleaseShows(c: seq<Slot>, d: seq<Slot>, disk: seq<Block>, k: nat, b: nat, data: Block)
    requires 1 <= k < |c| && d == Released(c, k)
    ensures Shows(c, disk, b, data) <==> Shows(d, disk, b, data)
  {
    hide Released;
    ReleasedAt(c, k);
    if Shows(c, disk, b, data) {
      forall i | 1 <= i < |d| && Names(d[i], DISK, b) && d[i].valid ensures d[i].data == data {
        assert Alike(d[i], c[Before(k, i)]);
      }
      if forall i :: 1 <= i < |d| && Names(d[i], DISK, b) ==> !d[i].valid {
        forall j | 1 <= j < |c| && Names(c[j], DISK, b) ensures !c[j].valid {
          assert Alike(c[j], d[After(k, j)]);
        }
      }
    }
    if Shows(d, disk, b, data) {
      forall j | 1 <= j < |c| && Names(c[j], DISK, b) && c[j].valid ensures c[j].data == data {
        assert Alike(c[j], d[After(k, j)]);
      }
      if forall j :: 1 <= j < |c| && Names(c[j], DISK, b) ==> !c[j].valid {
        forall i | 1 <= i < |d| && Names(d[i], DISK, b) ensures !d[i].valid {
          assert Alike(d[i], c[Before(k, i)]);
        }
      }
    }
  }

  /** The last release of x, or -1. */
  function Last<T(==)>(log: seq<T>, x: T): (r: int)
    ensures -1 <= r < |log| && (r >= 0 ==> log[r] == x) && forall k :: r < k < |log| ==> log[k] != x
  {
    if log == [] then -1 else if log[|log| - 1] == x then |log| - 1 else Last(log[..|log| - 1], x)
  }

  ghost predicate Later<T>(log: seq<T>, x: T, y: T) {
    Last(log, x) > Last(log, y) || Last(log, x) == Last(log, y) == -1
  }

  /** Buffers stand on the ring in the order of their last releases, the latest first. */
  ghost predicate Ordered<T>(n: seq<T>, log: seq<T>) {
    forall i, j :: 1 <= i < j < |n| ==> Later(log, n[i], n[j])
  }

  lemma LastAfter<T>(log: seq<T>, b: T, x: T)
    ensures Last(log + [b], x) == if x == b then |log| else Last(log, x)
  {
    assert (log + [b])[..|log|] == log;
  }

  lemma ReleaseOrders<T>(n: seq<T>, log: seq<T>, k: nat)
    requires Distinct(n) && Ordered(n, log) && 1 <= k < |n|
    ensures Ordered(Fronted(Without(n, k), n[k]), log + [n[k]])
  {
    var m, b := Fronted(Without(n, k), n[k]), n[k];
    forall i, j | 1 <= i < j < |m| ensures Later(log + [b], m[i], m[j]) {
      assert m[i] == n[Before(k, i)] && m[j] == n[Before(k, j)];
      LastAfter(log, b, m[i]);
      LastAfter(log, b, m[j]);
    }
  }

  // ---- the cache ------------------------------------------------------------------------------------------

  class Cache {
    const head: Buf
    var disk: seq<Block>
    ghost var ring: seq<Buf>     // the head, then the buffers from the most recently used on
    ghost var log: seq<Buf>      // all releases so far

    ghost predicate Valid()
      reads this, ring
    {
      Ring(ring) && ring[0] == head && CacheOk(Slots(ring), disk) && Ordered(ring, log)
    }

    /** binit. */
    constructor (nbuf: nat, disk: seq<Block>)
      ensures Valid() && |ring| == nbuf + 1 && this.disk == disk && fresh(ring)
      ensures forall i :: 1 <= i < |ring| ==> ring[i].dev == NODEV && !ring[i].valid
    {
      var h := new Buf();
      h.prev, h.next := h, h;
      ghost var n := [h];
      assert LinkOk(n, 0);
      var i := 0;
      while i < nbuf
        invariant 0 <= i <= nbuf && |n| == i + 1 && n[0] == h && Ring(n) && fresh(n)
        invariant forall j :: 1 <= j < |n| ==> n[j].dev == NODEV && !n[j].valid && !n[j].dirty
      {
        var b := new Buf();
        b.dev := NODEV;
        LinkFirst(h, b, n);
        n := Fronted(n, b);
        i := i + 1;
      }
      head, this.disk, ring, log := h, disk, n, [];
      new;
      AllSlots(ring);
    }

    /** bget's first loop: the buffer of the block, if there is one. */
    method FindBlock(dev: int, blockno: nat) returns (b: Buf?, ghost k: nat)
      requires Ring(ring) && ring[0] == head
      ensures b != null ==> 1 <= k < |ring| && ring[k] == b && Names(Slots(ring)[k], dev, blockno)
      ensures b == null ==> Uncached(Slots(ring), dev, blockno)
    {
      hide Slots;
      AllSlots(ring);
      assert LinkOk(ring, 0);
      var p := head.next;
      k := 1;
      while p != head
        invariant 1 <= k <= |ring| && p == ring[if k < |ring| then k else 0]
        invariant forall i :: 1 <= i < k ==> !Names(SlotOf(ring[i]), dev, blockno)
        decreases |ring| - k
      {
        if p.dev == dev && p.blockno == blockno {
          return p, k;
        }
        assert LinkOk(ring, k);
        p, k := p.next, k + 1;
      }
      return null, 0;
    }

    /** bget's second loop: from the other end, a buffer that is neither busy nor dirty. */
    method FindClean() returns (b: Buf?, ghost k: nat)
      requires Ring(ring) && ring[0] == head
      ensures b != null ==> 1 <= k < |ring| && ring[k] == b && Reusable(Slots(ring)[k]) && NoneReusable(Slots(ring), k)
      ensures b == null ==> NoneReusable(Slots(ring), 0)
    {
      hide Slots;
      AllSlots(ring);
      assert LinkOk(ring, 0);
      var p := head.prev;
      k := |ring| - 1;
      while p != head
        invariant 0 <= k < |ring| && p == ring[k]
        invariant forall i :: k < i < |ring| ==> !Reusable(SlotOf(ring[i]))
        decreases k
      {
        if !p.busy && !p.dirty {
          return p, k;
        }
        assert LinkOk(ring, k);
        p, k := p.prev, k - 1;
      }
      return null, 0;
    }

    /** bget. Sleep is the wait for a busy buffer, NoBuffers the panic. */
    method Bget(dev: int, blockno: nat) returns (r: GetResult, ghost k: nat)
      requires Valid() && dev != NODEV
      modifies ring`dev, ring`blockno, ring`busy, ring`valid, ring`dirty
      ensures Valid() && SameShow(old(Slots(ring)), disk, Slots(ring), disk)
      ensures r.Got? ==> CanGet(old(Slots(ring)), k, dev, blockno) && ring[k] == r.b
      ensures r.Got? ==> Slots(ring) == old(Slots(ring))[k := Gotten(old(Slots(ring))[k], dev, blockno)]
      ensures !r.Got? ==> Slots(ring) == old(Slots(ring))
      ensures r.Sleep? ==> 1 <= k < |ring| && Names(Slots(ring)[k], dev, blockno) && Slots(ring)[k].busy
      ensures r.NoBuffers? ==> NoneReusable(Slots(ring), 0) && Uncached(Slots(ring), dev, blockno)
      ensures r.Got? ==> Names(old(Slots(ring))[k], dev, blockno) || Oldest(old(Slots(ring)), ring, log, k)
    {
      hide CacheOk, SameShow, Slots, Ordered, Uncached, NoneReusable, Oldest, CanGet;
      ghost var c := Slots(ring);
      SameShowRefl(c, disk);
      var b;
      b, k := FindBlock(dev, blockno);
      if b != null {
        SlotsAt(ring, k);
        if b.busy {
          return Sleep, k;
        }
        FoundCanGet(c, k, dev, blockno);
        GetKeeps(c, disk, k, dev, blockno);
        Hold(b, ring, k);
        return Got(b), k;
      }
      b, k := FindClean();
      if b == null {
        return NoBuffers, k;
      }
      CleanCanGet(c, k, dev, blockno);
      GetKeeps(c, disk, k, dev, blockno);
      CleanIsOldest(c, ring, log, k);
      Recycle(b, ring, k, dev, blockno);
      return Got(b), k;
    }

    /** bread: a busy buffer with what the cache shows of the block. */
    method Bread(blockno: nat) returns (r: GetResult, ghost k: nat)
      requires Valid() && blockno < |disk|
      modifies ring`dev, ring`blockno, ring`busy, ring`valid, ring`dirty, ring`data
      ensures Valid() && SameShow(old(Slots(ring)), disk, Slots(ring), disk)
      ensures r.Got? ==> 1 <= k < |ring| && ring[k] == r.b && Names(Slots(ring)[k], DISK, blockno)
      ensures r.Got? ==> Slots(ring)[k].busy && Slots(ring)[k].valid && Shows(Slots(ring), disk, blockno, r.b.data)
      ensures r.Got? ==> CanGet(old(Slots(ring)), k, DISK, blockno)
      ensures r.Got? ==> Slots(ring) == old(Slots(ring))[k := Filled(Gotten(old(Slots(ring))[k], DISK, blockno), disk)]
      ensures r.Got? ==> Names(old(Slots(ring))[k], DISK, blockno) || Oldest(old(Slots(ring)), ring, log, k)
      ensures !r.Got? ==> Slots(ring) == old(Slots(ring))
      ensures r.Sleep? ==> 1 <= k < |ring| && Names(Slots(ring)[k], DISK, blockno) && Slots(ring)[k].busy
      ensures r.NoBuffers? ==> NoneReusable(Slots(ring), 0) && Uncached(Slots(ring), DISK, blockno)
    {
      hide CacheOk, SameShow, Ordered, Shows, Slots, Oldest, Uncached, NoneReusable;
      ghost var c := Slots(ring);
      r, k := Bget(DISK, blockno);
      if r.Got? {
        ghost var d := Slots(ring);
        SlotsAt(ring, k);
        GottenOk(c, disk, k, DISK, blockno);
        if !r.b.valid {
          FillKeeps(d, disk, k);
          Iderw(r.b, ring, k);
          SameShowTrans(c, disk, d, disk, Slots(ring), disk);
        }
        SlotsAt(ring, k);
        ValidShows(Slots(ring), disk, k);
      }
    }

    /** iderw for a read. */
    method Iderw(b: Buf, ghost n: seq<Buf>, ghost k: nat)
      requires k < |n| && Distinct(n) && n[k] == b && b.busy && !b.valid && !b.dirty && b.dev == DISK && b.blockno < |disk|
      modifies b`valid, b`data
      ensures Slots(n) == old(Slots(n))[k := old(Slots(n))[k].(valid := true, data := disk[b.blockno])]
    {
      hide Slots;
      AllSlots(n);
      ghost var c := Slots(n);
      b.data := disk[b.blockno];
      b.valid := true;
      OneSlot(n, k, c);
    }

    /** bwrite: from now on the block shows what the buffer holds, on the disk too. */
    method Bwrite(b: Buf, ghost k: nat)
      requires Valid() && 1 <= k < |ring| && ring[k] == b && b.busy && b.dev == DISK && b.blockno < |disk|
      modifies this`disk, b`valid, b`dirty
      ensures Valid() && disk == old(disk)[b.blockno := b.data]
      ensures Shows(Slots(ring), disk, b.blockno, b.data)
      ensures forall c: nat, data: Block :: c != b.blockno ==> (Shows(old(Slots(ring)), old(disk), c, data) <==> Shows(Slots(ring), disk, c, data))
    {
      hide CacheOk, Shows, Ordered, Slots;
      ghost var c := Slots(ring);
      SlotsAt(ring, k);
      WriteKeeps(c, disk, k);
      disk := disk[b.blockno := b.data];
      Written(b, ring, k);
    }

    /** brelse. The cache stays consistent exactly if the holder has written its changes, or marked
        them dirty for the log. */
    method Brelse(b: Buf, ghost k: nat)
      requires Valid() && 1 <= k < |ring| && ring[k] == b && b.busy
      modifies this`ring, this`log, ring`prev, ring`next, b`busy
      ensures Ring(ring) && ring[0] == head && Ordered(ring, log) && !b.busy && log == old(log) + [b]
      ensures b.valid ==> b.blockno < |disk|
      ensures Valid() <==> (b.valid ==> b.dirty || b.data == disk[b.blockno])
      ensures ring == Fronted(Without(old(ring), k), b) && Slots(ring) == Released(old(Slots(ring)), k)
      ensures SameShow(old(Slots(ring)), disk, Slots(ring), disk)
    {
      hide CacheOk, SameShow, Ordered, Slots, Released, Without, Fronted, Ring, Distinct;
      ghost var c, n := Slots(ring), ring;
      RingDistinct(n);
      SlotsAt(ring, k);
      IdleOk(c, disk, k);
      ReleaseKeeps(c, disk, k);
      ReleaseOrders(n, log, k);
      MoveFirst(head, b, n, k);
      ghost var m := Fronted(Without(n, k), b);
      assert Slots(n) == c && Ring(m);
      Unhold(b, n, k);
      assert Ring(m);
      ring, log := m, log + [b];
      MovedSlots(n, k, c);
    }
  }

  lemma RingDistinct(n: seq<Buf>)
    requires Ring(n)
    ensures Distinct(n)
  {
  }

  /** The links of brelse. */
  method MoveFirst(head: Buf, b: Buf, ghost n: seq<Buf>, ghost k: nat)
    requires Ring(n) && 1 <= k < |n| && n[k] == b && n[0] == head
    modifies n`prev, n`next
    ensures Ring(Fronted(Without(n, k), b)) && Fronted(Without(n, k), b)[0] == head
  {
    Unlink(b, n, k);
    assert b !in Without(n, k);
    LinkFirst(head, b, Without(n, k));
  }

  method Hold(b: Buf, ghost n: seq<Buf>, ghost k: nat)
    requires k < |n| && Distinct(n) && n[k] == b
    modifies b`busy
    ensures Slots(n) == old(Slots(n))[k := old(Slots(n))[k].(busy := true)]
  {
    hide Slots;
    AllSlots(n);
    ghost var c := Slots(n);
    b.busy := true;
    OneSlot(n, k, c);
  }

  method Unhold(b: Buf, ghost n: seq<Buf>, ghost k: nat)
    requires k < |n| && Distinct(n) && n[k] == b
    modifies b`busy
    ensures !b.busy && Slots(n) == old(Slots(n))[k := old(Slots(n))[k].(busy := false)]
  {
    hide Slots;
    AllSlots(n);
    ghost var c := Slots(n);
    b.busy := false;
    OneSlot(n, k, c);
  }

  method Recycle(b: Buf, ghost n: seq<Buf>, ghost k: nat, dev: int, blockno: nat)
    requires k < |n| && Distinct(n) && n[k] == b
    modifies b`dev, b`blockno, b`busy, b`valid, b`dirty
    ensures Slots(n) == old(Slots(n))[k := Slot(dev, blockno, true, false, false, old(Slots(n))[k].data)]
  {
    hide Slots;
    AllSlots(n);
    ghost var c := Slots(n);
    b.dev, b.blockno := dev, blockno;
    b.busy, b.valid, b.dirty := true, false, false;
    OneSlot(n, k, c);
  }

  /** The flags after bwrite: iderw clears B_DIRTY and sets B_VALID. */
  method Written(b: Buf, ghost n: seq<Buf>, ghost k: nat)
    requires k < |n| && Distinct(n) && n[k] == b
    modifies b`valid, b`dirty
    ensures Slots(n) == old(Slots(n))[k := old(Slots(n))[k].(valid := true, dirty := false)]
  {
    hide Slots;
    AllSlots(n);
    ghost var c := Slots(n);
    b.dirty := true;
    b.dirty := false;
    b.valid := true;
    OneSlot(n, k, c);
  }

  /** The slots follow the buffers round. */
  lemma MovedSlots(n: seq<Buf>, k: nat, c: seq<Slot>)
    requires 1 <= k < |n| == |c| && Slots(n) == c[k := c[k].(busy := false)]
    ensures Slots(Fronted(Without(n, k), n[k])) == Released(c, k)
  {
    hide Slots, Released, Fronted, Without;
    var m, d := Fronted(Without(n, k), n[k]), Released(c, k);
    ReleasedAt(c, k);
    forall i | 0 <= i < |m| ensures Slots(m)[i] == d[i] {
      MovedSlot(n, k, c, i);
    }
  }

  lemma MovedSlot(n: seq<Buf>, k: nat, c: seq<Slot>, i: nat)
    requires 1 <= k < |n| == |c| && Slots(n) == c[k := c[k].(busy := false)] && i < |n|
    ensures var m := Fronted(Without(n, k), n[k]); Slots(m)[i] == Released(c, k)[i]
  {
    hide Slots;
    var m, j := Fronted(Without(n, k), n[k]), if i == 0 then 0 else Before(k, i);
    SlotsAt(m, i);
    SlotsAt(n, j);
    assert m[i] == n[j];
  }

  predicate Reusable(s: Slot) { !s.busy && !s.dirty }

  ghost predicate NoneReusable(c: seq<Slot>, k: nat) { forall i :: k < i < |c| ==> !Reusable(c[i]) }

  ghost predicate Uncached(c: seq<Slot>, dev: int, blockno: nat) { forall i :: 1 <= i < |c| ==> !Names(c[i], dev, blockno) }

  lemma FoundCanGet(c: seq<Slot>, k: nat, dev: int, blockno: nat)
    requires 1 <= k < |c| && !c[k].busy && dev != NODEV && Names(c[k], dev, blockno)
    ensures CanGet(c, k, dev, blockno)
  {
  }

  lemma CleanCanGet(c: seq<Slot>, k: nat, dev: int, blockno: nat)
    requires 1 <= k < |c| && Reusable(c[k]) && dev != NODEV && Uncached(c, dev, blockno)
    ensures CanGet(c, k, dev, blockno) && !Names(c[k], dev, blockno)
  {
  }

  lemma CleanIsOldest(c: seq<Slot>, n: seq<Buf>, log: seq<Buf>, k: nat)
    requires |c| == |n| && 1 <= k < |n| && Reusable(c[k]) && NoneReusable(c, k) && Ordered(n, log)
    ensures Oldest(c, n, log, k)
  {
  }

  /** A buffer from bget is busy with the block, and clean or filled. */
  lemma GottenOk(c: seq<Slot>, disk: seq<Block>, k: nat, dev: int, blockno: nat)
    requires CacheOk(c, disk) && CanGet(c, k, dev, blockno)
    ensures var s := Gotten(c[k], dev, blockno); s.busy && Names(s, dev, blockno) && (s.dirty ==> s.valid)
  {
    assert SlotOk(c[k], disk);
  }

  /** Among the buffers that bget may recycle, k is the one released the longest time ago. */
  ghost predicate Oldest(c: seq<Slot>, n: seq<Buf>, log: seq<Buf>, k: nat) {
    && |c| == |n| && 1 <= k < |n| && !c[k].busy && !c[k].dirty
    && forall j :: 1 <= j < |n| && j != k && !c[j].busy && !c[j].dirty ==> Later(log, n[j], n[k])
  }

  lemma SameShowRefl(c: seq<Slot>, disk: seq<Block>)
    ensures SameShow(c, disk, c, disk)
  {
  }

  lemma SameShowTrans(c: seq<Slot>, disk: seq<Block>, d: seq<Slot>, disk': seq<Block>, e: seq<Slot>, disk'': seq<Block>)
    requires SameShow(c, disk, d, disk') && SameShow(d, disk', e, disk'')
    ensures SameShow(c, disk, e, disk'')
  {
    hide Shows;
  }

  /** A valid buffer is what its block shows. */
  lemma ValidShows(c: seq<Slot>, disk: seq<Block>, k: nat)
    requires CacheOk(c, disk) && 1 <= k < |c| && c[k].valid
    ensures Shows(c, disk, c[k].blockno, c[k].data)
  {
    assert SlotOk(c[k], disk);
    forall i | 1 <= i < |c| && Names(c[i], DISK, c[k].blockno) ensures i == k {
      CachedOnce(c, disk, i, k);
    }
  }

  /** At most one buffer holds a block. */
  lemma CachedOnce(c: seq<Slot>, disk: seq<Block>, i: nat, k: nat)
    requires CacheOk(c, disk) && 1 <= i < |c| && 1 <= k < |c| && c[k].dev != NODEV && Names(c[i], c[k].dev, c[k].blockno)
    ensures i == k
  {
  }

  lemma IdleOk(c: seq<Slot>, disk: seq<Block>, k: nat)
    requires CacheOk(c, disk) && 1 <= k < |c|
    ensures c[k].valid ==> c[k].blockno < |disk|
    ensures SlotOk(c[k].(busy := false), disk) <==> (c[k].valid ==> c[k].dirty || c[k].data == disk[c[k].blockno])
  {
    assert SlotOk(c[k], disk);
  }
}
