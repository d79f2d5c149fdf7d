/** What a file holds: the bytes that its block addresses lead to (fs.c). */
module FileContent {
  import opened Blocks
  import opened FileBlocks

  const MAXFILE: nat := 140       // NDIRECT + NINDIRECT

  /** Slot that holds the address of block bn of a file. */
  function SlotOf(bn: nat): (k: nat)
    requires bn < MAXFILE
    ensures k < SLOTS && k != NDIRECT
  {
    if bn < NDIRECT then bn else bn + 1
  }

  predicate Has(f: Files, i: nat) { i in f.inodes && ValidInode(f.inodes[i]) }

  function DataAddr(f: Files, i: nat, bn: nat): nat
    requires Has(f, i) && bn < MAXFILE
  {
    Addr(f.store, f.inodes[i], SlotOf(bn))
  }

  /** Block bn of file i; a hole reads as zeroes. */
  function Data(f: Files, i: nat, bn: nat): Block
    requires Has(f, i) && bn < MAXFILE
  {
    var a := DataAddr(f, i, bn);
    if a == 0 || a >= |f.store| then Zeroes() else f.store[a]
  }

  /** Byte p of file i. */
  function ByteAt(f: Files, i: nat, p: nat): Byte
    requires Has(f, i) && p < MAXFILE * BSIZE
  {
    Data(f, i, p / BSIZE)[p % BSIZE]
  }

  /** Every block below the size is mapped. */
  ghost predicate HoleFree(f: Files, i: nat)
    requires Has(f, i)
  {
    && f.inodes[i].size <= MAXFILE * BSIZE
    && forall bn: nat :: bn < MAXFILE && bn * BSIZE < f.inodes[i].size ==> DataAddr(f, i, bn) != 0
  }

  function Contents(f: Files, i: nat): (r: seq<Byte>)
    requires Has(f, i) && f.inodes[i].size <= MAXFILE * BSIZE
    ensures |r| == f.inodes[i].size
  {
    seq(f.inodes[i].size, p requires 0 <= p < f.inodes[i].size => ByteAt(f, i, p))
  }

  /** Inode j is as it was, except that its block map may have grown. */
  ghost predicate InodeKept(f: Files, g: Files, j: nat) {
    && Has(f, j) && Has(g, j)
    && g.inodes[j] == f.inodes[j].(addrs := g.inodes[j].addrs)
  }

  /** Block c of file j is as it was; it may have become mapped. */
  ghost predicate BlockKept(f: Files, g: Files, j: nat, c: nat) {
    && Has(f, j) && Has(g, j) && c < MAXFILE
    && Data(g, j, c) == Data(f, j, c)
    && (DataAddr(f, j, c) != 0 ==> DataAddr(g, j, c) == DataAddr(f, j, c))
  }

  /** bmap(i, bn) turned f into g: only the map of inode i grew, by block bn at most, and no file
      reads differently. */
  ghost predicate Extended(f: Files, g: Files, i: nat, bn: nat) {
    && g.inodes.Keys == f.inodes.Keys
    && (forall j :: j in f.inodes ==> InodeKept(f, g, j))
    && (forall j :: j in f.inodes && j != i ==> g.inodes[j] == f.inodes[j])
    && (forall j, c: nat :: j in f.inodes && c < MAXFILE ==> BlockKept(f, g, j, c))
    && (forall j, c: nat :: j in f.inodes && c < MAXFILE && (j != i || c != bn) ==> DataAddr(g, j, c) == DataAddr(f, j, c))
  }

  /** Attaching a fresh block changes no file as read. */
  lemma AttachedData(sb: Super, f: Files, i: nat, k: nat, b: nat, j: nat, c: nat)
    requires CanAttach(sb, f, i, k, b) && j in f.inodes && c < MAXFILE
    requires k > NDIRECT ==> f.inodes[i].addrs[NDIRECT] < sb.size
    ensures BlockKept(f, Attached(sb, f, i, k, b), j, c)
    ensures (j != i || k != SlotOf(c)) ==>
      DataAddr(Attached(sb, f, i, k, b), j, c) == DataAddr(f, j, c)
    ensures j == i && k == SlotOf(c) ==> DataAddr(Attached(sb, f, i, k, b), j, c) == b
  {
    hide Marked;
    AttachedAddr(sb, f, i, k, b, j, SlotOf(c));
    IndirectFacts(sb, f, NoMask, i);
    FreeIsUnowned(sb, f, NoMask, b);
    assert SlotOk(sb, f, NoMask, j, SlotOf(c));
    var a := DataAddr(f, j, c);
    if a != 0 {
      AttachedBlock(sb, f, i, k, b, a);
    } else {
      AttachedBlock(sb, f, i, k, b, b);
    }
  }

  /** Attaching zeroes the new block and touches no other data block but the indirect one. */
  lemma AttachedBlock(sb: Super, f: Files, i: nat, k: nat, b: nat, a: nat)
    requires CanAttach(sb, f, i, k, b) && sb.nmeta <= a < sb.size
    requires k > NDIRECT ==> f.inodes[i].addrs[NDIRECT] < sb.size
    requires k > NDIRECT ==> a != f.inodes[i].addrs[NDIRECT]
    ensures var g := Attached(sb, f, i, k, b);
      |g.store| == sb.size && g.store[a] == if a == b then Zeroes() else f.store[a]
  {
  }

  lemma AttachExtends(sb: Super, f: Files, i: nat, k: nat, b: nat, bn: nat)
    requires CanAttach(sb, f, i, k, b) && bn < MAXFILE && (k == SlotOf(bn) || k == NDIRECT)
    requires k > NDIRECT ==> f.inodes[i].addrs[NDIRECT] < sb.size
    ensures Extended(f, Attached(sb, f, i, k, b), i, bn)
    ensures k == SlotOf(bn) ==> DataAddr(Attached(sb, f, i, k, b), i, bn) == b
  {
    hide Data, DataAddr, BlockKept;
    var g := Attached(sb, f, i, k, b);
    forall j, c: nat | j in f.inodes && c < MAXFILE
      ensures BlockKept(f, g, j, c) && Has(f, j) && Has(g, j)
      ensures j != i || c != bn ==> DataAddr(g, j, c) == DataAddr(f, j, c)
    {
      AttachedData(sb, f, i, k, b, j, c);
      AttachedHas(sb, f, i, k, b, j);
    }
    forall j | j in f.inodes ensures InodeKept(f, g, j) {
      AttachedHas(sb, f, i, k, b, j);
    }
    AttachedData(sb, f, i, k, b, i, bn);
  }

  lemma AttachedHas(sb: Super, f: Files, i: nat, k: nat, b: nat, j: nat)
    requires CanAttach(sb, f, i, k, b) && j in f.inodes
    requires k > NDIRECT ==> f.inodes[i].addrs[NDIRECT] < sb.size
    ensures Has(f, j) && Has(Attached(sb, f, i, k, b), j)
  {
    AttachedAddr(sb, f, i, k, b, j, 0);
  }

  lemma ExtendedRefl(sb: Super, f: Files, i: nat, bn: nat)
    requires OwnOk(sb, f, NoMask)
    ensures Extended(f, f, i, bn)
  {
    hide Data, DataAddr;
    forall j | j in f.inodes ensures InodeKept(f, f, j) {
      IndirectFacts(sb, f, NoMask, j);
    }
    forall j, c: nat | j in f.inodes && c < MAXFILE ensures BlockKept(f, f, j, c) {
      IndirectFacts(sb, f, NoMask, j);
    }
  }

  lemma ExtendedTrans(f: Files, g: Files, h: Files, i: nat, bn: nat)
    requires Extended(f, g, i, bn) && Extended(g, h, i, bn)
    ensures Extended(f, h, i, bn)
  {
    hide Data, DataAddr;
    forall j | j in f.inodes ensures InodeKept(f, h, j) {
      assert InodeKept(f, g, j) && InodeKept(g, h, j);
    }
    forall j, c: nat | j in f.inodes && c < MAXFILE ensures BlockKept(f, h, j, c) {
      assert BlockKept(f, g, j, c) && BlockKept(g, h, j, c);
    }
  }

  // ---- truncation ------------------------------------------------------------------------------------

  /** Only free-map blocks differ. */
  ghost predicate SameData(sb: Super, s: seq<Block>, t: seq<Block>) {
    |s| == |t| == sb.size && forall c: nat :: sb.nmeta <= c < sb.size ==> t[c] == s[c]
  }

  lemma UnmarkedSameData(sb: Super, s: seq<Block>, t: seq<Block>, b: nat)
    requires ValidSuper(sb) && b < sb.size && SameData(sb, s, t)
    ensures SameData(sb, s, Unmarked(sb, t, b))
  {
  }

  /** g keeps the owners of f, except for the slots below k of inode i. */
  ghost predicate OwnersLeft(f: Files, g: Files, i: nat, k: nat) {
    && (forall b :: b in g.own ==> b in f.own && g.own[b] == f.own[b])
    && (forall b :: b in f.own ==> (b in g.own <==> f.own[b].ino != i || f.own[b].slot >= k))
  }

  /** g keeps the owners of f, except for the direct slots and the first j indirect entries of inode i. */
  ghost predicate EntriesLeft(f: Files, g: Files, i: nat, j: nat) {
    && (forall b :: b in g.own ==> b in f.own && g.own[b] == f.own[b])
    && (forall b :: b in f.own ==>
          (b in g.own <==> f.own[b].ino != i || f.own[b].slot == NDIRECT || f.own[b].slot > NDIRECT + j))
  }

  /** A file whose inode is untouched reads the same after data-preserving changes. */
  lemma SameDataReads(sb: Super, f: Files, g: Files, j: nat, c: nat)
    requires OwnOk(sb, f, NoMask) && SameData(sb, f.store, g.store) && c < MAXFILE
    requires j in f.inodes && j in g.inodes && g.inodes[j] == f.inodes[j]
    ensures Has(f, j) && BlockKept(f, g, j, c) && DataAddr(g, j, c) == DataAddr(f, j, c)
  {
    IndirectFacts(sb, f, NoMask, j);
    assert SlotOk(sb, f, NoMask, j, SlotOf(c));
  }

  /** Only the block in slot k of inode i has that slot for its owner. */
  lemma SlotOwner(sb: Super, f: Files, m: Mask, i: nat, k: nat)
    requires OwnOk(sb, f, m) && i in f.inodes && k < SLOTS
    ensures ValidInode(f.inodes[i])
    ensures var a := Live(f.store, f.inodes[i], m, i, k);
      forall c :: c in f.own ==> (f.own[c] == Place(i, k) <==> c == a)
  {
    assert SlotOk(sb, f, m, i, k);
    forall c | c in f.own ensures f.own[c] == Place(i, k) <==> c == Live(f.store, f.inodes[i], m, i, k) {
      assert BlockOk(sb, f, m, c);
    }
  }

  /** One round of itrunc's loop over the direct blocks. */
  lemma DirectRound(sb: Super, e: Files, f: Files, i: nat, k: nat)
    requires OwnOk(sb, f, NoMask) && i in f.inodes && k < NDIRECT && SameData(sb, e.store, f.store) && OwnersLeft(e, f, i, k)
    ensures ValidInode(f.inodes[i]) && f.inodes[i].addrs[k] < sb.size
    ensures f.inodes[i].addrs[k] == 0 ==> OwnersLeft(e, f, i, k + 1)
    ensures f.inodes[i].addrs[k] != 0 ==> f.inodes[i].addrs[k] >= sb.nmeta && BitOf(sb, f.store, f.inodes[i].addrs[k])
    ensures f.inodes[i].addrs[k] != 0 ==> OwnOk(sb, DirectFreed(sb, f, i, k), NoMask)
    ensures f.inodes[i].addrs[k] != 0 ==> SameData(sb, e.store, DirectFreed(sb, f, i, k).store)
    ensures f.inodes[i].addrs[k] != 0 ==> OwnersLeft(e, DirectFreed(sb, f, i, k), i, k + 1)
  {
    SlotOwner(sb, f, NoMask, i, k);
    assert SlotOk(sb, f, NoMask, i, k);
    NoBlockZero(sb, f, NoMask);
    var a := f.inodes[i].addrs[k];
    DirectRoundOwners(e, f, i, k, a);
    if a != 0 {
      DirectFreedKeeps(sb, f, i, k);
      UnmarkedSameData(sb, e.store, f.store, a);
    }
  }

  lemma DirectRoundOwners(e: Files, f: Files, i: nat, k: nat, a: nat)
    requires OwnersLeft(e, f, i, k) && (forall c :: c in f.own ==> (f.own[c] == Place(i, k) <==> c == a))
    ensures OwnersLeft(e, f.(own := f.own - {a}), i, k + 1)
    ensures a !in f.own ==> OwnersLeft(e, f, i, k + 1)
  {
  }

  /** One round of itrunc's loop over the indirect block. */
  lemma EntryRound(sb: Super, e: Files, f: Files, i: nat, j: nat)
    requires OwnOk(sb, f, Mask(i, j)) && i in f.inodes && j < NINDIRECT && SameData(sb, e.store, f.store) && EntriesLeft(e, f, i, j)
    requires ValidInode(f.inodes[i]) && f.inodes[i].addrs[NDIRECT] != 0
    ensures f.inodes[i].addrs[NDIRECT] < sb.size
    ensures var b := Word(f.store[f.inodes[i].addrs[NDIRECT]], j);
      && b < sb.size
      && (b == 0 ==> OwnOk(sb, f, Mask(i, j + 1)) && EntriesLeft(e, f, i, j + 1))
      && (b != 0 ==> b >= sb.nmeta && BitOf(sb, f.store, b))
      && (b != 0 ==> OwnOk(sb, EntryFreed(sb, f, b), Mask(i, j + 1)))
      && (b != 0 ==> SameData(sb, e.store, EntryFreed(sb, f, b).store))
      && (b != 0 ==> EntriesLeft(e, EntryFreed(sb, f, b), i, j + 1))
  {
    var m, k := Mask(i, j), NDIRECT + 1 + j;
    IndirectFacts(sb, f, m, i);
    SlotOwner(sb, f, m, i, k);
    assert SlotOk(sb, f, m, i, k);
    var b := Word(f.store[f.inodes[i].addrs[NDIRECT]], j);
    assert b == Live(f.store, f.inodes[i], m, i, k) == Addr(f.store, f.inodes[i], k);
    NoBlockZero(sb, f, m);
    EntryRoundOwners(e, f, i, j, b);
    if b != 0 {
      EntryFreedKeeps(sb, f, i, j, b);
      UnmarkedSameData(sb, e.store, f.store, b);
    } else {
      EntrySkippedKeeps(sb, f, i, j);
    }
  }

  lemma NoBlockZero(sb: Super, f: Files, m: Mask)
    requires OwnOk(sb, f, m)
    ensures 0 !in f.own
  {
    assert 0 in f.own ==> BlockOk(sb, f, m, 0);
  }

  lemma EntryRoundOwners(e: Files, f: Files, i: nat, j: nat, a: nat)
    requires EntriesLeft(e, f, i, j) && (forall c :: c in f.own ==> (f.own[c] == Place(i, NDIRECT + 1 + j) <==> c == a))
    ensures EntriesLeft(e, f.(own := f.own - {a}), i, j + 1)
    ensures a !in f.own ==> EntriesLeft(e, f, i, j + 1)
  {
  }

  /** itrunc's last bfree, of the indirect block itself. */
  lemma IndirectRound(sb: Super, e: Files, f: Files, i: nat)
    requires OwnOk(sb, f, Mask(i, NINDIRECT)) && i in f.inodes && SameData(sb, e.store, f.store) && EntriesLeft(e, f, i, NINDIRECT)
    requires ValidInode(f.inodes[i]) && f.inodes[i].addrs[NDIRECT] != 0
    ensures sb.nmeta <= f.inodes[i].addrs[NDIRECT] < sb.size && BitOf(sb, f.store, f.inodes[i].addrs[NDIRECT])
    ensures OwnOk(sb, IndirectFreed(sb, f, i), NoMask)
    ensures SameData(sb, e.store, IndirectFreed(sb, f, i).store)
    ensures OwnersLeft(e, IndirectFreed(sb, f, i), i, SLOTS)
  {
    var m := Mask(i, NINDIRECT);
    IndirectFacts(sb, f, m, i);
    SlotOwner(sb, f, m, i, NDIRECT);
    IndirectFreedKeeps(sb, f, i);
    UnmarkedSameData(sb, e.store, f.store, f.inodes[i].addrs[NDIRECT]);
  }

  /** Without an indirect block, freeing the direct blocks frees all. */
  lemma NoIndirectLeft(sb: Super, e: Files, f: Files, i: nat)
    requires OwnOk(sb, f, NoMask) && OwnersLeft(e, f, i, NDIRECT) && i in f.inodes
    requires ValidInode(f.inodes[i]) && f.inodes[i].addrs[NDIRECT] == 0
    ensures OwnersLeft(e, f, i, SLOTS)
  {
    NoBlockZero(sb, f, NoMask);
    forall b | b in f.own ensures f.own[b].ino != i || f.own[b].slot >= SLOTS {
      assert BlockOk(sb, f, NoMask, b);
    }
  }

  /** Only the block addresses of an inode play a part in ownership. */
  lemma AddrsKeepOwners(sb: Super, f: Files, i: nat, ip: Inode)
    requires OwnOk(sb, f, NoMask) && i in f.inodes && ip.addrs == f.inodes[i].addrs
    ensures OwnOk(sb, f.(inodes := f.inodes[i := ip]), NoMask)
  {
    var g := f.(inodes := f.inodes[i := ip]);
    forall j, l | j in g.inodes && 0 <= l < SLOTS ensures SlotOk(sb, g, NoMask, j, l) {
      assert SlotOk(sb, f, NoMask, j, l);
    }
    forall c: nat | c < sb.size ensures BlockOk(sb, g, NoMask, c) {
      assert BlockOk(sb, f, NoMask, c);
    }
  }

  /** After itrunc(i) the free map has lost exactly the blocks that inode i named. */
  lemma TruncatedBits(sb: Super, f: Files, g: Files, i: nat, b: nat)
    requires OwnOk(sb, f, NoMask) && OwnOk(sb, g, NoMask) && i in f.inodes && OwnersLeft(f, g, i, SLOTS)
    requires sb.nmeta <= b < sb.size
    ensures Has(f, i)
    ensures BitOf(sb, g.store, b) <==>
      BitOf(sb, f.store, b) && forall k :: 0 <= k < SLOTS ==> Addr(f.store, f.inodes[i], k) != b
  {
    IndirectFacts(sb, f, NoMask, i);
    assert BlockOk(sb, f, NoMask, b) && BlockOk(sb, g, NoMask, b);
    forall k | 0 <= k < SLOTS && Addr(f.store, f.inodes[i], k) == b ensures !BitOf(sb, g.store, b) {
      assert SlotOk(sb, f, NoMask, i, k);
    }
  }

  /** A file reads the same if its inode and blocks are kept. */
  lemma ContentsKept(f: Files, g: Files, j: nat)
    requires Has(f, j) && Has(g, j) && HoleFree(f, j) && g.inodes[j].size == f.inodes[j].size
    requires forall c: nat :: c < MAXFILE ==> BlockKept(f, g, j, c)
    ensures HoleFree(g, j) && Contents(g, j) == Contents(f, j)
  {
    hide DataAddr, Data;
    forall bn: nat | bn < MAXFILE && bn * BSIZE < g.inodes[j].size ensures DataAddr(g, j, bn) != 0 {
      assert BlockKept(f, g, j, bn);
    }
    forall p | 0 <= p < f.inodes[j].size ensures ByteAt(g, j, p) == ByteAt(f, j, p) {
      assert BlockKept(f, g, j, p / BSIZE);
    }
  }

  // ---- all files together ----------------------------------------------------------------------------

  function NoAddrs(): (r: seq<nat>) { seq(NDIRECT + 1, l => 0) }

  /** A file has no holes, and a free inode has no blocks. */
  ghost predicate FileOk(f: Files, j: nat) {
    Has(f, j) && HoleFree(f, j) && (f.inodes[j].kind == 0 ==> f.inodes[j].addrs == NoAddrs())
  }

  ghost predicate FilesOk(f: Files) { forall j :: j in f.inodes ==> FileOk(f, j) }

  /** mkfs rounds the size of the root directory up to the next block border, even from a border.
      That leaves the directory without holes exactly when its size was not at a border. */
  lemma RoundedSizeHasNoHole(f: Files, g: Files, i: nat)
    requires Has(f, i) && HoleFree(f, i) && f.inodes[i].size < MAXFILE * BSIZE
    requires forall bn: nat :: bn < MAXFILE && bn * BSIZE >= f.inodes[i].size ==> DataAddr(f, i, bn) == 0
    requires g == f.(inodes := f.inodes[i := f.inodes[i].(size := (f.inodes[i].size / BSIZE + 1) * BSIZE)])
    ensures Has(g, i) && (HoleFree(g, i) <==> f.inodes[i].size % BSIZE != 0)
  {
    assert forall k: nat :: k < SLOTS ==> Addr(g.store, g.inodes[i], k) == Addr(f.store, f.inodes[i], k);
    hide Addr;
    assert forall bn: nat :: bn < MAXFILE ==> DataAddr(g, i, bn) == DataAddr(f, i, bn);
    var last := f.inodes[i].size / BSIZE;
    assert DataAddr(f, i, last) == 0 <==> last * BSIZE >= f.inodes[i].size;
    assert last * BSIZE < g.inodes[i].size;
    if f.inodes[i].size % BSIZE != 0 {
      forall bn: nat | bn < MAXFILE && bn * BSIZE < g.inodes[i].size ensures DataAddr(g, i, bn) != 0 {
        assert bn <= last;
      }
    }
  }
}
