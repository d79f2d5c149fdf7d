/** Which disk blocks belong to which inode (fs.c): the free map and the block addresses of all
    inodes describe the same partition. */
module FileBlocks {
  import opened Blocks
  import opened Bitmap

  const NDIRECT: nat := 12
  const NINDIRECT: nat := 128
  const SLOTS: nat := 141       // 12 direct blocks, the indirect block, the blocks that it lists

  /** size blocks in all; the free map starts at bmapstart; data blocks start at nmeta. */
  datatype Super = Super(size: nat, bmapstart: nat, nmeta: nat)

  ghost predicate ValidSuper(sb: Super) {
    && 1 <= sb.nmeta <= sb.size < WORD_LIMIT
    && sb.bmapstart + sb.size / BPB < sb.nmeta
  }

  datatype Inode = Inode(kind: nat, nlink: int, size: nat, addrs: seq<nat>)

  /** Slot of an inode: its index in addrs, or NDIRECT + 1 + j for entry j of the indirect block. */
  datatype Place = Place(ino: nat, slot: nat)

  /** What bzero leaves. */
  function Zeroes(): (r: Block)
    ensures forall i :: 0 <= i < BSIZE ==> r[i] == 0
  {
    seq(BSIZE, i => 0)
  }

  /** The free-map block that holds the bit of block b. */
  function BmapBlock(sb: Super, b: nat): (r: nat)
    requires ValidSuper(sb) && b < sb.size
    ensures r < sb.nmeta
  {
    sb.bmapstart + b / BPB
  }

  predicate BitOf(sb: Super, store: seq<Block>, b: nat)
    requires ValidSuper(sb) && |store| == sb.size && b < sb.size
  {
    Bit(store[BmapBlock(sb, b)], b % BPB)
  }

  predicate ValidInode(ip: Inode) { |ip.addrs| == NDIRECT + 1 }

  /** The block address in slot k; 0 means none. */
  function Addr(store: seq<Block>, ip: Inode, k: nat): nat
    requires ValidInode(ip) && k < SLOTS
  {
    if k <= NDIRECT then ip.addrs[k]
    else if ip.addrs[NDIRECT] == 0 || ip.addrs[NDIRECT] >= |store| then 0
    else Word(store[ip.addrs[NDIRECT]], k - NDIRECT - 1)
  }

  /** own is the inverse of the block addresses: it sends a block to the one slot that names it. */
  datatype Files = Files(store: seq<Block>, inodes: map<nat, Inode>, own: map<nat, Place>)

  /** While itrunc frees the blocks of inode ino, the first cut entries of its indirect block no
      longer count. */
  datatype Mask = Mask(ino: nat, cut: nat)

  const NoMask: Mask := Mask(0, 0)

  function Live(store: seq<Block>, ip: Inode, m: Mask, i: nat, k: nat): nat
    requires ValidInode(ip) && k < SLOTS
  {
    if i == m.ino && NDIRECT < k <= NDIRECT + m.cut then 0 else Addr(store, ip, k)
  }

  ghost predicate SlotOk(sb: Super, f: Files, m: Mask, i: nat, k: nat)
    requires i in f.inodes && k < SLOTS
  {
    && ValidInode(f.inodes[i])
    && var a := Live(f.store, f.inodes[i], m, i, k);
       a != 0 ==> sb.nmeta <= a < sb.size && a in f.own && f.own[a] == Place(i, k)
  }

  ghost predicate BlockOk(sb: Super, f: Files, m: Mask, b: nat)
    requires ValidSuper(sb) && |f.store| == sb.size && b < sb.size
  {
    && (sb.nmeta <= b ==> (BitOf(sb, f.store, b) <==> b in f.own))
    && (b in f.own ==>
          && sb.nmeta <= b && f.own[b].ino in f.inodes && f.own[b].slot < SLOTS && ValidInode(f.inodes[f.own[b].ino])
          && Live(f.store, f.inodes[f.own[b].ino], m, f.own[b].ino, f.own[b].slot) == b)
  }

  /** The set bits of the data part of the free map are exactly the blocks that inodes name, and
      each is named once. */
  ghost predicate OwnOk(sb: Super, f: Files, m: Mask) {
    && ValidSuper(sb) && |f.store| == sb.size
    && (forall b :: b in f.own ==> b < sb.size)
    && (forall i, k :: i in f.inodes && 0 <= k < SLOTS ==> SlotOk(sb, f, m, i, k))
    && (forall b: nat :: b < sb.size ==> BlockOk(sb, f, m, b))
  }

  /** No block is named twice. */
  lemma OwnersDistinct(sb: Super, f: Files, i: nat, k: nat, j: nat, l: nat)
    requires OwnOk(sb, f, NoMask) && i in f.inodes && j in f.inodes && k < SLOTS && l < SLOTS
    requires ValidInode(f.inodes[i]) && ValidInode(f.inodes[j])
    requires Addr(f.store, f.inodes[i], k) == Addr(f.store, f.inodes[j], l) != 0
    ensures i == j && k == l
  {
    assert SlotOk(sb, f, NoMask, i, k) && SlotOk(sb, f, NoMask, j, l);
  }

  /** A block is in use, as far as the free map says, exactly when some inode names it. */
  lemma BitIffNamed(sb: Super, f: Files, b: nat)
    requires OwnOk(sb, f, NoMask) && sb.nmeta <= b < sb.size
    ensures BitOf(sb, f.store, b) <==>
              exists i, k :: i in f.inodes && 0 <= k < SLOTS && ValidInode(f.inodes[i]) && Addr(f.store, f.inodes[i], k) == b
  {
    assert BlockOk(sb, f, NoMask, b);
    if i, k :| i in f.inodes && 0 <= k < SLOTS && ValidInode(f.inodes[i]) && Addr(f.store, f.inodes[i], k) == b {
      assert SlotOk(sb, f, NoMask, i, k);
    }
  }

  // ---- marking and unmarking ----------------------------------------------------------------------

  function Marked(sb: Super, store: seq<Block>, b: nat): (r: seq<Block>)
    requires ValidSuper(sb) && |store| == sb.size && b < sb.size
    ensures |r| == sb.size
  {
    store[BmapBlock(sb, b) := SetBit(store[BmapBlock(sb, b)], b % BPB)]
  }

  function Unmarked(sb: Super, store: seq<Block>, b: nat): (r: seq<Block>)
    requires ValidSuper(sb) && |store| == sb.size && b < sb.size
    ensures |r| == sb.size
  {
    store[BmapBlock(sb, b) := ClearBit(store[BmapBlock(sb, b)], b % BPB)]
  }

  lemma BitsApart(sb: Super, b: nat, c: nat)
    requires ValidSuper(sb) && b < sb.size && c < sb.size && b != c
    ensures BmapBlock(sb, b) != BmapBlock(sb, c) || b % BPB != c % BPB
  {
  }

  lemma MarkedBits(sb: Super, store: seq<Block>, b: nat, c: nat)
    requires ValidSuper(sb) && |store| == sb.size && b < sb.size && c < sb.size
    ensures BitOf(sb, Marked(sb, store, b), c) <==> c == b || BitOf(sb, store, c)
    ensures BitOf(sb, Unmarked(sb, store, b), c) <==> c != b && BitOf(sb, store, c)
  {
    if b != c {
      BitsApart(sb, b, c);
    }
  }

  /** Data blocks hold no free-map bits. */
  lemma DataWriteBits(sb: Super, store: seq<Block>, d: nat, data: Block, c: nat)
    requires ValidSuper(sb) && |store| == sb.size && sb.nmeta <= d < sb.size && c < sb.size
    ensures BitOf(sb, store[d := data], c) <==> BitOf(sb, store, c)
  {
  }

  // ---- attaching a fresh block ----------------------------------------------------------------------

  /** balloc takes block b and slot k of inode i is set to it. */
  function Attached(sb: Super, f: Files, i: nat, k: nat, b: nat): Files
    requires ValidSuper(sb) && |f.store| == sb.size && b < sb.size && i in f.inodes && ValidInode(f.inodes[i]) && k < SLOTS
    requires k > NDIRECT ==> f.inodes[i].addrs[NDIRECT] < sb.size
  {
    var ip := f.inodes[i];
    var store := Marked(sb, f.store, b)[b := Zeroes()];
    if k <= NDIRECT then
      Files(store, f.inodes[i := ip.(addrs := ip.addrs[k := b])], f.own[b := Place(i, k)])
    else
      var ind := ip.addrs[NDIRECT];
      Files(store[ind := SetWord(store[ind], k - NDIRECT - 1, b)], f.inodes, f.own[b := Place(i, k)])
  }

  ghost predicate CanAttach(sb: Super, f: Files, i: nat, k: nat, b: nat) {
    && OwnOk(sb, f, NoMask) && i in f.inodes && k < SLOTS && sb.nmeta <= b < sb.size && !BitOf(sb, f.store, b)
    && ValidInode(f.inodes[i]) && Addr(f.store, f.inodes[i], k) == 0
    && (k > NDIRECT ==> f.inodes[i].addrs[NDIRECT] != 0)
  }

  /** The indirect block of an inode is a data block of its own. */
  lemma IndirectFacts(sb: Super, f: Files, m: Mask, i: nat)
    requires OwnOk(sb, f, m) && i in f.inodes
    ensures ValidInode(f.inodes[i])
    ensures var a := f.inodes[i].addrs[NDIRECT];
      a != 0 ==> sb.nmeta <= a < sb.size && a in f.own && f.own[a] == Place(i, NDIRECT)
  {
    assert SlotOk(sb, f, m, i, NDIRECT);
  }

  /** Attaching changes the address in one slot, and in no other. */
  lemma AttachedAddr(sb: Super, f: Files, i: nat, k: nat, b: nat, j: nat, l: nat)
    requires CanAttach(sb, f, i, k, b) && j in f.inodes && l < SLOTS
    requires k > NDIRECT ==> f.inodes[i].addrs[NDIRECT] < sb.size
    ensures ValidInode(f.inodes[j])
    ensures var g := Attached(sb, f, i, k, b);
      && j in g.inodes && ValidInode(g.inodes[j]) && |g.store| == sb.size
      && Addr(g.store, g.inodes[j], l) == if j == i && l == k then b else Addr(f.store, f.inodes[j], l)
  {
    hide Bit;
    IndirectFacts(sb, f, NoMask, i);
    IndirectFacts(sb, f, NoMask, j);
    FreeIsUnowned(sb, f, NoMask, b);
    ZeroWords();
    assert b >= sb.nmeta > BmapBlock(sb, b);
  }

  lemma ZeroWords()
    ensures forall j: nat :: j < WORDS ==> Word(Zeroes(), j) == 0
  {
  }

  lemma FreeIsUnowned(sb: Super, f: Files, m: Mask, b: nat)
    requires OwnOk(sb, f, m) && sb.nmeta <= b < sb.size
    ensures BitOf(sb, f.store, b) <==> b in f.own
  {
    assert BlockOk(sb, f, m, b);
  }

  lemma AttachKeeps(sb: Super, f: Files, i: nat, k: nat, b: nat)
    requires CanAttach(sb, f, i, k, b)
    ensures k > NDIRECT ==> f.inodes[i].addrs[NDIRECT] < sb.size
    ensures OwnOk(sb, Attached(sb, f, i, k, b), NoMask)
  {
    IndirectFacts(sb, f, NoMask, i);
    FreeIsUnowned(sb, f, NoMask, b);
    var g := Attached(sb, f, i, k, b);
    forall j, l | j in g.inodes && 0 <= l < SLOTS ensures SlotOk(sb, g, NoMask, j, l) {
      AttachedAddr(sb, f, i, k, b, j, l);
      assert SlotOk(sb, f, NoMask, j, l);
    }
    forall c: nat | c < sb.size ensures BlockOk(sb, g, NoMask, c) {
      assert BlockOk(sb, f, NoMask, c);
      AttachedBits(sb, f, i, k, b, c);
      if c in g.own {
        AttachedAddr(sb, f, i, k, b, g.own[c].ino, g.own[c].slot);
      }
    }
  }

  lemma AttachedBits(sb: Super, f: Files, i: nat, k: nat, b: nat, c: nat)
    requires CanAttach(sb, f, i, k, b) && c < sb.size
    requires k > NDIRECT ==> sb.nmeta <= f.inodes[i].addrs[NDIRECT] < sb.size
    ensures var g := Attached(sb, f, i, k, b);
      |g.store| == sb.size && (BitOf(sb, g.store, c) <==> c == b || BitOf(sb, f.store, c))
  {
    hide Bit;
    MarkedBits(sb, f.store, b, c);
    DataWriteBits(sb, Marked(sb, f.store, b), b, Zeroes(), c);
  }

  // ---- releasing blocks ------------------------------------------------------------------------------

  /** itrunc frees direct block k of inode i. */
  function DirectFreed(sb: Super, f: Files, i: nat, k: nat): Files
    requires ValidSuper(sb) && |f.store| == sb.size && i in f.inodes && ValidInode(f.inodes[i]) && k < NDIRECT
    requires f.inodes[i].addrs[k] < sb.size
  {
    var ip := f.inodes[i];
    var b := ip.addrs[k];
    Files(Unmarked(sb, f.store, b), f.inodes[i := ip.(addrs := ip.addrs[k := 0])], f.own - {b})
  }

  /** itrunc frees the block in entry j of the indirect block; the entry itself stays. */
  function EntryFreed(sb: Super, f: Files, b: nat): Files
    requires ValidSuper(sb) && |f.store| == sb.size && b < sb.size
  {
    Files(Unmarked(sb, f.store, b), f.inodes, f.own - {b})
  }

  /** itrunc frees the indirect block itself. */
  function IndirectFreed(sb: Super, f: Files, i: nat): Files
    requires ValidSuper(sb) && |f.store| == sb.size && i in f.inodes && ValidInode(f.inodes[i])
    requires f.inodes[i].addrs[NDIRECT] < sb.size
  {
    var ip := f.inodes[i];
    var b := ip.addrs[NDIRECT];
    Files(Unmarked(sb, f.store, b), f.inodes[i := ip.(addrs := ip.addrs[NDIRECT := 0])], f.own - {b})
  }

  /** Clearing a bit of the free map leaves all addresses alone. */
  lemma UnmarkedAddr(sb: Super, f: Files, m: Mask, b: nat, j: nat, l: nat)
    requires OwnOk(sb, f, m) && b < sb.size && j in f.inodes && l < SLOTS
    ensures ValidInode(f.inodes[j]) && Addr(Unmarked(sb, f.store, b), f.inodes[j], l) == Addr(f.store, f.inodes[j], l)
  {
    hide Bit;
    IndirectFacts(sb, f, m, j);
  }

  /** Slot l of inode j names what it named before, or nothing if it named the released block b. */
  ghost predicate SlotKept(f: Files, m: Mask, g: Files, m': Mask, b: nat, j: nat, l: nat)
    requires b in f.own
  {
    && j in f.inodes && j in g.inodes && l < SLOTS && ValidInode(f.inodes[j]) && ValidInode(g.inodes[j])
    && Live(g.store, g.inodes[j], m', j, l) == if Place(j, l) == f.own[b] then 0 else Live(f.store, f.inodes[j], m, j, l)
  }

  /** A released block leaves own and the free map together. */
  lemma ReleaseKeeps(sb: Super, f: Files, m: Mask, g: Files, m': Mask, b: nat)
    requires OwnOk(sb, f, m) && b in f.own && b < sb.size
    requires g.store == Unmarked(sb, f.store, b) && g.own == f.own - {b}
    requires forall j, l :: j in g.inodes && 0 <= l < SLOTS ==> SlotKept(f, m, g, m', b, j, l)
    requires forall j :: j in f.inodes ==> j in g.inodes
    ensures OwnOk(sb, g, m')
  {
    forall j, l | j in g.inodes && 0 <= l < SLOTS ensures SlotOk(sb, g, m', j, l) {
      assert SlotKept(f, m, g, m', b, j, l) && SlotOk(sb, f, m, j, l);
    }
    forall c: nat | c < sb.size ensures BlockOk(sb, g, m', c) {
      assert BlockOk(sb, f, m, c) && BlockOk(sb, f, m, b);
      MarkedBits(sb, f.store, b, c);
      if c in g.own {
        assert SlotKept(f, m, g, m', b, f.own[c].ino, f.own[c].slot);
      }
    }
  }

  lemma DirectFreedKeeps(sb: Super, f: Files, i: nat, k: nat)
    requires OwnOk(sb, f, NoMask) && i in f.inodes && k < NDIRECT && ValidInode(f.inodes[i]) && f.inodes[i].addrs[k] != 0
    ensures f.inodes[i].addrs[k] < sb.size && BitOf(sb, f.store, f.inodes[i].addrs[k])
    ensures OwnOk(sb, DirectFreed(sb, f, i, k), NoMask)
  {
    assert SlotOk(sb, f, NoMask, i, k);
    var b := f.inodes[i].addrs[k];
    var g := DirectFreed(sb, f, i, k);
    assert BlockOk(sb, f, NoMask, b);
    forall j, l | j in g.inodes && 0 <= l < SLOTS ensures SlotKept(f, NoMask, g, NoMask, b, j, l) {
      UnmarkedAddr(sb, f, NoMask, b, j, l);
    }
    ReleaseKeeps(sb, f, NoMask, g, NoMask, b);
  }

  lemma EntryFreedKeeps(sb: Super, f: Files, i: nat, j: nat, b: nat)
    requires OwnOk(sb, f, Mask(i, j)) && i in f.inodes && j < NINDIRECT && ValidInode(f.inodes[i])
    requires b == Addr(f.store, f.inodes[i], NDIRECT + 1 + j) != 0
    ensures b < sb.size && BitOf(sb, f.store, b)
    ensures OwnOk(sb, EntryFreed(sb, f, b), Mask(i, j + 1))
  {
    var m, m' := Mask(i, j), Mask(i, j + 1);
    assert SlotOk(sb, f, m, i, NDIRECT + 1 + j);
    var g := EntryFreed(sb, f, b);
    assert BlockOk(sb, f, m, b);
    forall q, l | q in g.inodes && 0 <= l < SLOTS ensures SlotKept(f, m, g, m', b, q, l) {
      UnmarkedAddr(sb, f, m, b, q, l);
    }
    ReleaseKeeps(sb, f, m, g, m', b);
  }

  /** An empty entry may be counted as freed. */
  lemma EntrySkippedKeeps(sb: Super, f: Files, i: nat, j: nat)
    requires OwnOk(sb, f, Mask(i, j)) && i in f.inodes && j < NINDIRECT && ValidInode(f.inodes[i])
    requires Addr(f.store, f.inodes[i], NDIRECT + 1 + j) == 0
    ensures OwnOk(sb, f, Mask(i, j + 1))
  {
    var m, m' := Mask(i, j), Mask(i, j + 1);
    forall q, l | q in f.inodes && 0 <= l < SLOTS ensures SlotOk(sb, f, m', q, l) {
      assert SlotOk(sb, f, m, q, l);
    }
    forall c: nat | c < sb.size ensures BlockOk(sb, f, m', c) {
      assert BlockOk(sb, f, m, c);
    }
  }

  lemma IndirectFreedKeeps(sb: Super, f: Files, i: nat)
    requires OwnOk(sb, f, Mask(i, NINDIRECT)) && i in f.inodes && ValidInode(f.inodes[i]) && f.inodes[i].addrs[NDIRECT] != 0
    ensures f.inodes[i].addrs[NDIRECT] < sb.size && BitOf(sb, f.store, f.inodes[i].addrs[NDIRECT])
    ensures OwnOk(sb, IndirectFreed(sb, f, i), NoMask)
  {
    assert SlotOk(sb, f, Mask(i, NINDIRECT), i, NDIRECT);
    var b := f.inodes[i].addrs[NDIRECT];
    var g := IndirectFreed(sb, f, i);
    assert BlockOk(sb, f, Mask(i, NINDIRECT), b);
    forall j, l | j in g.inodes && 0 <= l < SLOTS ensures SlotKept(f, Mask(i, NINDIRECT), g, NoMask, b, j, l) {
      UnmarkedAddr(sb, f, Mask(i, NINDIRECT), b, j, l);
    }
    ReleaseKeeps(sb, f, Mask(i, NINDIRECT), g, NoMask, b);
  }

  /** A mask that hides nothing changes nothing. */
  lemma MaskFree(sb: Super, f: Files, m: Mask, m': Mask)
    requires OwnOk(sb, f, m) && m.cut == 0 && m'.cut == 0
    ensures OwnOk(sb, f, m')
  {
    forall j, l | j in f.inodes && 0 <= l < SLOTS ensures SlotOk(sb, f, m', j, l) {
      assert SlotOk(sb, f, m, j, l);
    }
    forall c: nat | c < sb.size ensures BlockOk(sb, f, m', c) {
      assert BlockOk(sb, f, m, c);
    }
  }

  // ---- writing data ---------------------------------------------------------------------------------

  /** Writing a data block of an inode changes no address and no free-map bit. */
  lemma DataWriteAddr(sb: Super, f: Files, b: nat, data: Block, j: nat, l: nat)
    requires OwnOk(sb, f, NoMask) && b in f.own && f.own[b].slot != NDIRECT && j in f.inodes && l < SLOTS
    ensures b < sb.size && ValidInode(f.inodes[j])
    ensures Addr(f.store[b := data], f.inodes[j], l) == Addr(f.store, f.inodes[j], l)
  {
    IndirectFacts(sb, f, NoMask, j);
  }

  lemma DataWriteKeeps(sb: Super, f: Files, b: nat, data: Block)
    requires OwnOk(sb, f, NoMask) && b in f.own && f.own[b].slot != NDIRECT
    ensures sb.nmeta <= b < sb.size && OwnOk(sb, f.(store := f.store[b := data]), NoMask)
  {
    assert BlockOk(sb, f, NoMask, b);
    var g := f.(store := f.store[b := data]);
    forall j, l | j in f.inodes && 0 <= l < SLOTS ensures SlotOk(sb, g, NoMask, j, l) {
      DataWriteAddr(sb, f, b, data, j, l);
      assert SlotOk(sb, f, NoMask, j, l);
    }
    forall c: nat | c < sb.size ensures BlockOk(sb, g, NoMask, c) {
      assert BlockOk(sb, f, NoMask, c);
      DataWriteBits(sb, f.store, b, data, c);
      if c in f.own {
        DataWriteAddr(sb, f, b, data, f.own[c].ino, f.own[c].slot);
      }
    }
  }
}
