/** balloc, bfree, bmap, itrunc, readi and writei of fs.c, with their loops. */
module FileSystem {
  import opened Wrappers
  import opened Blocks
  import opened Bitmap
  import opened FileBlocks
  import opened FileContent
  import opened FileBytes
  import opened FileCounts

  /** What readi answers: -1, or the bytes it copied; NoBlocks is balloc's panic, at a hole.
      FromDevice is the answer of a driver, -1 without one. */
  datatype ReadResult = ReadFailed | NoBlocks | Bytes(data: seq<Byte>) | FromDevice(answer: int)

  /** What writei answers: -1, or the count; OutOfBlocks is balloc's panic. */
  datatype WriteResult = WriteFailed | OutOfBlocks | Count(n: nat) | ToDevice(answer: int)

  /** T_DEV of stat.h. */
  const T_DEV: nat := 3

  /** The blocks before nmeta are in use for ever. */
  ghost predicate MetaOk(sb: Super, store: seq<Block>) {
    ValidSuper(sb) && |store| == sb.size && forall b: nat :: b < sb.nmeta ==> BitOf(sb, store, b)
  }

  class Fs {
    const sb: Super
    var store: seq<Block>             // the disk as the log presents it
    var inodes: map<nat, Inode>       // the in-memory inodes
    var dinodes: map<nat, Inode>      // their copies on disk
    ghost var own: map<nat, Place>

    /** A disk as mkfs leaves it before the first file: only the metadata blocks are in use, and no
        inode has blocks. */
    constructor (sb: Super, store: seq<Block>, inodes: map<nat, Inode>)
      requires ValidSuper(sb) && |store| == sb.size && forall b: nat :: b < sb.size ==> (BitOf(sb, store, b) <==> b < sb.nmeta)
      requires forall i :: i in inodes ==> inodes[i].size == 0 && inodes[i].addrs == NoAddrs()
      ensures this.sb == sb && this.store == store && this.inodes == inodes
      ensures Valid() && Consistent() && KindsAgree()
    {
      this.sb, this.store, this.inodes, dinodes, own := sb, store, inodes, inodes, map[];
      new;
      NoFiles(sb, Now());
    }

    ghost function Now(): Files
      reads this
    {
      Files(store, inodes, own)
    }

    ghost predicate Valid()
      reads this
    {
      OwnOk(sb, Now(), NoMask) && MetaOk(sb, store)
    }

    /** No file has holes, free inodes have no blocks, and the disk knows all inodes as they are. */
    ghost predicate Consistent()
      reads this
    {
      FilesOk(Now()) && dinodes == inodes
    }

    /** The disk knows which inodes are free, and those have no blocks. */
    ghost predicate KindsAgree()
      reads this
    {
      SameKinds(inodes, dinodes)
    }

    /** How many blocks the free map shows as free. */
    ghost function Clear(): nat
      requires ValidSuper(sb) && |store| == sb.size
      reads this
    {
      |ClearBits(sb, store)|
    }

    /** No block is free. */
    ghost predicate Full()
      reads this
    {
      ValidSuper(sb) && |store| == sb.size && forall b: nat :: b < sb.size ==> BitOf(sb, store, b)
    }

    /** balloc: the first block whose bit is clear, marked and zeroed. None is the panic that there
        are no free blocks. */
    method Balloc() returns (r: Option<nat>)
      requires ValidSuper(sb) && |store| == sb.size && MetaOk(sb, store)
      modifies this`store
      ensures r.None? ==> store == old(store) && Full()
      ensures r.Some? ==> sb.nmeta <= r.value < sb.size && !BitOf(sb, old(store), r.value)
      ensures r.Some? ==> forall c: nat :: c < r.value ==> BitOf(sb, old(store), c)
      ensures r.Some? ==> store == Marked(sb, old(store), r.value)[r.value := Zeroes()]
      ensures r.Some? ==> MetaOk(sb, store)
    {
      hide BitOf, MetaOk, Marked;
      var b := 0;
      while b < sb.size
        invariant b % BPB == 0 && store == old(store) && |store| == sb.size
        invariant forall c: nat :: c < b && c < sb.size ==> BitOf(sb, store, c)
        decreases sb.size - b
      {
        var bi := 0;
        while bi < BPB && b + bi < sb.size
          invariant 0 <= bi <= BPB && store == old(store) && |store| == sb.size
          invariant forall c: nat :: c < b + bi && c < sb.size ==> BitOf(sb, store, c)
        {
          if !BitOf(sb, store, b + bi) {
            MetaBit(sb, store, b + bi);
            MetaMarked(sb, store, b + bi);
            store := Marked(sb, store, b + bi);
            store := store[b + bi := Zeroes()];
            return Some(b + bi);
          }
          bi := bi + 1;
        }
        b := b + BPB;
      }
      return None;
    }

    /** The free blocks. */
    ghost function Room(): int
      reads this
    {
      sb.size - sb.nmeta - |own|
    }

    /** bmap: the address of block bn of file i, allocated if it was missing and there is room. */
    method Bmap(i: nat, bn: nat) returns (r: Option<nat>)
      requires Valid() && i in inodes && bn < MAXFILE
      modifies this`store, this`inodes, this`own
      ensures r.None? ==> Full()
      ensures Has(old(Now()), i) && (r.None? <==> old(Room()) < Cost(old(Now()), i, bn))
      ensures r.Some? ==> |own| == |old(own)| + Cost(old(Now()), i, bn)
      ensures r.Some? ==> Has(Now(), i) && (NoIndirect(Now(), i) <==> NoIndirect(old(Now()), i) && bn < NDIRECT)
      ensures r.Some? ==> Valid() && Extended(old(Now()), Now(), i, bn)
      ensures r.Some? ==> Has(Now(), i) && r.value == DataAddr(Now(), i, bn) != 0
      ensures Has(old(Now()), i) && DataAddr(old(Now()), i, bn) != 0 ==> r.Some? && Now() == old(Now())
    {
      hide OwnOk, MetaOk, Extended, Attached;
      ghost var f := Now();
      IndirectFacts(sb, f, NoMask, i);
      ExtendedRefl(sb, f, i, bn);
      RoomIff(sb, f);
      MappedFar(f, i, bn);
      if bn < NDIRECT {
        if inodes[i].addrs[bn] == 0 {
          r := AttachDirect(i, bn, bn);
          if r.Some? {
            ExtendedHas(f, Now(), i, bn);
          }
          return;
        }
        return Some(inodes[i].addrs[bn]);
      }
      if inodes[i].addrs[NDIRECT] == 0 {
        r := AttachDirect(i, NDIRECT, bn);
        if r.None? {
          return;
        }
        RoomIff(sb, Now());
      }
      ghost var g := Now();
      r := AttachEntry(i, bn);
      if r.Some? {
        ExtendedTrans(f, g, Now(), i, bn);
        ExtendedHas(f, Now(), i, bn);
      }
    }

    /** bmap's missing direct block, or missing indirect block. */
    method AttachDirect(i: nat, k: nat, ghost bn: nat) returns (r: Option<nat>)
      requires Valid() && i in inodes && bn < MAXFILE && k <= NDIRECT && (k == SlotOf(bn) || k == NDIRECT)
      requires ValidInode(inodes[i]) && inodes[i].addrs[k] == 0
      modifies this`store, this`inodes, this`own
      ensures r.None? ==> Full()
      ensures r.None? <==> old(Room()) == 0
      ensures r.Some? ==> Valid() && Extended(old(Now()), Now(), i, bn) && |own| == |old(own)| + 1
      ensures r.Some? ==> i in inodes && ValidInode(inodes[i]) && r.value != 0
      ensures r.Some? ==> inodes[i].addrs == old(inodes)[i].addrs[k := r.value]
      ensures r.Some? && k == NDIRECT ==> DataAddr(Now(), i, bn) == DataAddr(old(Now()), i, bn)
    {
      hide OwnOk, MetaOk, Extended, BitOf, Marked;
      ghost var f := Now();
      OwnSuper(sb, f);
      RoomIff(sb, f);
      r := Balloc();
      if r.Some? {
        FreeIsUnowned(sb, f, NoMask, r.value);
        AttachStep(sb, f, i, k, r.value, bn);
        inodes := inodes[i := inodes[i].(addrs := inodes[i].addrs[k := r.value])];
        own := own[r.value := Place(i, k)];
        assert Now() == Attached(sb, f, i, k, r.value);
      }
    }

    /** bmap's look into the indirect block, with a missing entry filled in. */
    method AttachEntry(i: nat, bn: nat) returns (r: Option<nat>)
      requires Valid() && i in inodes && NDIRECT <= bn < MAXFILE && ValidInode(inodes[i]) && inodes[i].addrs[NDIRECT] != 0
      modifies this`store, this`own
      ensures r.None? ==> Full()
      ensures r.None? <==> DataAddr(old(Now()), i, bn) == 0 && old(Room()) == 0
      ensures r.Some? ==> Valid() && Extended(old(Now()), Now(), i, bn)
      ensures r.Some? ==> Has(Now(), i) && r.value == DataAddr(Now(), i, bn) != 0
      ensures DataAddr(old(Now()), i, bn) != 0 ==> r.Some? && Now() == old(Now())
      ensures DataAddr(old(Now()), i, bn) == 0 && r.Some? ==> |own| == |old(own)| + 1
    {
      hide OwnOk, MetaOk, Extended, BitOf, Marked, SetWord, Word, DataAddr, CanAttach;
      ghost var f := Now();
      OwnSuper(sb, f);
      RoomIff(sb, f);
      EntryFacts(sb, f, i, bn);
      ExtendedRefl(sb, f, i, bn);
      var ind := inodes[i].addrs[NDIRECT];
      var entry := Word(store[ind], bn - NDIRECT);
      if entry != 0 {
        return Some(entry);
      }
      r := Balloc();
      if r.Some? {
        FreeIsUnowned(sb, f, NoMask, r.value);
        EntryFree(sb, f, i, bn, r.value);
        AttachStep(sb, f, i, bn + 1, r.value, bn);
        store := store[ind := SetWord(store[ind], bn - NDIRECT, r.value)];
        own := own[r.value := Place(i, bn + 1)];
        assert Now() == Attached(sb, f, i, bn + 1, r.value);
      }
    }

    /** bfree: the panic on a clear bit is unreachable for a block that an inode names. */
    method Bfree(b: nat)
      requires ValidSuper(sb) && |store| == sb.size && sb.nmeta <= b < sb.size && BitOf(sb, store, b)
      modifies this`store
      ensures store == Unmarked(sb, old(store), b)
    {
      if !BitOf(sb, store, b) {
        assert false;
      }
      store := Unmarked(sb, store, b);
    }

    /** itrunc: all blocks of file i are freed, each once, and nothing else is. */
    method Itrunc(i: nat)
      requires Valid() && i in inodes
      modifies this`store, this`inodes, this`dinodes, this`own
      ensures Valid()
      ensures i in old(inodes) && inodes == old(inodes)[i := old(inodes)[i].(size := 0, addrs := NoAddrs())]
      ensures dinodes == old(dinodes)[i := inodes[i]] && (old(KindsAgree()) ==> KindsAgree())
      ensures OwnersLeft(old(Now()), Now(), i, SLOTS)
      ensures SameData(sb, old(store), store)
      ensures old(Consistent()) ==> Consistent()
    {
      hide OwnOk, MetaOk, OwnersLeft, EntriesLeft, SameData, FilesOk, SameKinds;
      ghost var f := Now();
      TruncKinds(inodes, dinodes, i);
      FreeDirect(i);
      ghost var g := Now();
      var ind := inodes[i].addrs[NDIRECT];
      if ind != 0 {
        FreeEntries(i, f);
        FreeIndirect(i, f);
      } else {
        NoIndirectLeft(sb, f, g, i);
      }
      assert inodes[i].addrs == NoAddrs();
      ghost var h := Now();
      inodes := inodes[i := inodes[i].(size := 0)];
      AddrsKeepOwners(sb, h, i, inodes[i]);
      dinodes := dinodes[i := inodes[i]];
      OwnersSame(f, h, Now(), i);
      if FilesOk(f) {
        TruncKeepsFiles(sb, f, Now(), i);
      }
    }

    method FreeDirect(i: nat)
      requires Valid() && i in inodes
      modifies this`store, this`inodes, this`own
      ensures Valid() && ValidInode(old(inodes)[i])
      ensures inodes == old(inodes)[i := old(inodes)[i].(addrs := CutAddrs(old(inodes)[i].addrs, NDIRECT))]
      ensures OwnersLeft(old(Now()), Now(), i, NDIRECT)
      ensures SameData(sb, old(store), store)
    {
      hide OwnOk, MetaOk, OwnersLeft, SameData, BitOf, Unmarked, CutAddrs;
      ghost var f := Now();
      OwnSuper(sb, f);
      IndirectFacts(sb, f, NoMask, i);
      NothingLeft(sb, f, i);
      var k := 0;
      CutNone(inodes[i].addrs);
      while k < NDIRECT
        invariant 0 <= k <= NDIRECT && Valid() && ValidInode(f.inodes[i])
        invariant inodes == f.inodes[i := f.inodes[i].(addrs := CutAddrs(f.inodes[i].addrs, k))]
        invariant OwnersLeft(f, Now(), i, k) && SameData(sb, f.store, store)
      {
        ghost var g := Now();
        OwnSuper(sb, g);
        DirectRound(sb, f, g, i, k);
        CutNext(f.inodes[i].addrs, k);
        var b := inodes[i].addrs[k];
        if b != 0 {
          MetaUnmarked(sb, store, b);
          Bfree(b);
          inodes := inodes[i := inodes[i].(addrs := inodes[i].addrs[k := 0])];
          own := own - {b};
          assert Now() == DirectFreed(sb, g, i, k);
        }
        k := k + 1;
      }
    }

    method FreeEntries(i: nat, ghost e: Files)
      requires Valid() && i in inodes && ValidInode(inodes[i]) && inodes[i].addrs[NDIRECT] != 0
      requires OwnersLeft(e, Now(), i, NDIRECT) && SameData(sb, e.store, store)
      modifies this`store, this`own
      ensures OwnOk(sb, Now(), Mask(i, NINDIRECT)) && MetaOk(sb, store)
      ensures EntriesLeft(e, Now(), i, NINDIRECT) && SameData(sb, e.store, store)
    {
      hide OwnOk, MetaOk, OwnersLeft, EntriesLeft, SameData, BitOf, Unmarked;
      DirectToEntries(sb, e, Now(), i);
      OwnSuper(sb, Now());
      var j := 0;
      while j < NINDIRECT
        invariant 0 <= j <= NINDIRECT && OwnOk(sb, Now(), Mask(i, j)) && MetaOk(sb, store)
        invariant ValidSuper(sb) && |store| == sb.size
        invariant EntriesLeft(e, Now(), i, j) && SameData(sb, e.store, store)
      {
        ghost var g := Now();
        EntryRound(sb, e, g, i, j);
        var b := Word(store[inodes[i].addrs[NDIRECT]], j);
        if b != 0 {
          MetaUnmarked(sb, store, b);
          Bfree(b);
          own := own - {b};
          assert Now() == EntryFreed(sb, g, b);
        }
        j := j + 1;
      }
    }

    method FreeIndirect(i: nat, ghost e: Files)
      requires OwnOk(sb, Now(), Mask(i, NINDIRECT)) && MetaOk(sb, store)
      requires i in inodes && ValidInode(inodes[i]) && inodes[i].addrs[NDIRECT] != 0
      requires EntriesLeft(e, Now(), i, NINDIRECT) && SameData(sb, e.store, store)
      modifies this`store, this`inodes, this`own
      ensures Valid() && i in old(inodes) && ValidInode(old(inodes)[i])
      ensures inodes == old(inodes)[i := old(inodes)[i].(addrs := old(inodes)[i].addrs[NDIRECT := 0])]
      ensures OwnersLeft(e, Now(), i, SLOTS) && SameData(sb, e.store, store)
    {
      hide EntriesLeft, SameData, OwnersLeft;
      ghost var g := Now();
      IndirectRound(sb, e, g, i);
      var b := inodes[i].addrs[NDIRECT];
      MetaUnmarked(sb, store, b);
      Bfree(b);
      inodes := inodes[i := inodes[i].(addrs := inodes[i].addrs[NDIRECT := 0])];
      own := own - {b};
      assert Now() == IndirectFreed(sb, g, i);
    }

    /** readi: a slice of the contents. It allocates blocks exactly if one of the blocks read is a
        hole; no file reads differently then. For a device inode, device is what its driver answers. */
    method Readi(i: nat, off: nat, n: nat, device: int) returns (r: ReadResult)
      requires Valid() && Has(Now(), i) && inodes[i].size <= MAXFILE * BSIZE
      requires off < WORD_LIMIT && n < WORD_LIMIT
      modifies this`store, this`inodes, this`own
      ensures r.FromDevice? <==> old(inodes)[i].kind == T_DEV
      ensures r.FromDevice? ==> r.answer == device && Now() == old(Now())
      ensures r.ReadFailed? <==> old(inodes)[i].kind != T_DEV && (off > old(inodes)[i].size || off + n >= WORD_LIMIT)
      ensures r.ReadFailed? ==> Now() == old(Now())
      ensures r.Bytes? ==> Valid() && r.data == Contents(old(Now()), i)[off..ReadEnd(old(inodes)[i].size, off, n)]
      ensures r.Bytes? ==> ReadGrown(old(Now()), Now(), i, off, ReadEnd(old(inodes)[i].size, off, n))
      ensures r.Bytes? ==> (Now() == old(Now()) <==> NoHoles(old(Now()), i, off, ReadEnd(old(inodes)[i].size, off, n)))
      ensures r.NoBlocks? ==> Full()
      ensures r.NoBlocks? || r.Bytes? ==>
        (r.NoBlocks? <==> old(Clear()) < Wanted(old(Now()), i, off, ReadEnd(old(inodes)[i].size, off, n)))
      ensures !r.NoBlocks? && old(KindsAgree()) && old(inodes)[i].kind != 0 ==> KindsAgree()
    {
      hide OwnOk, MetaOk, Extended, Contents, DataAddr, Data, ReadGrown, NoHoles, SameKinds, ClearBits, Wanted, Dealt;
      ghost var f := Now();
      if inodes[i].kind == T_DEV {
        return FromDevice(device);
      }
      if off > inodes[i].size || (off + n) % WORD_LIMIT < off {
        return ReadFailed;
      }
      var n' := if (off + n) % WORD_LIMIT > inodes[i].size then inodes[i].size - off else n;
      ReadStarts(sb, f, i, off);
      HolesOf(f, f, i, off, off);
      RoomIff(sb, f);
      DealtNone(f, i, off);
      var tot, data := 0, [];
      while tot < n'
        invariant 0 <= tot <= n' && Valid() && ReadGrown(f, Now(), i, off, off + tot) && Has(Now(), i)
        invariant Account(f, Now(), i, off, off + tot)
        invariant inodes[i].size == f.inodes[i].size && data == Contents(f, i)[off..off + tot]
      {
        var piece := ReadChunk(i, off, tot, n', f);
        if piece.None? {
          return NoBlocks;
        }
        data := data + piece.value;
        tot := tot + Chunk(n' - tot, off + tot);
      }
      HolesOf(f, Now(), i, off, off + tot);
      RoomIff(sb, Now());
      ReadKinds(f, Now(), i, off, off + tot, dinodes);
      return Bytes(data);
    }

    /** One round of readi's loop. */
    method ReadChunk(i: nat, off: nat, tot: nat, n: nat, ghost f: Files) returns (r: Option<seq<Byte>>)
      requires Valid() && tot < n && Has(f, i) && off + n <= f.inodes[i].size <= MAXFILE * BSIZE && ReadGrown(f, Now(), i, off, off + tot) && Has(Now(), i)
      requires Account(f, Now(), i, off, off + tot)
      modifies this`store, this`inodes, this`own
      ensures r.None? ==> Full() && sb.size - sb.nmeta - |f.own| < Wanted(f, i, off, off + n)
      ensures r.Some? ==> Account(f, Now(), i, off, off + tot + Chunk(n - tot, off + tot))
      ensures r.Some? ==> Valid() && Has(Now(), i) && inodes[i].size == f.inodes[i].size
      ensures r.Some? ==> ReadGrown(f, Now(), i, off, off + tot + Chunk(n - tot, off + tot))
      ensures r.Some? ==> r.value == Contents(f, i)[off + tot..off + tot + Chunk(n - tot, off + tot)]
    {
      hide OwnOk, MetaOk, Extended, Contents, DataAddr, Data, ReadGrown, NoHoles, Wanted, Dealt, Cost, Account, NoIndirect;
      ghost var g := Now();
      var at := off + tot;
      var m := Chunk(n - tot, at);
      ChunkRead(f, i, at, m);
      var b := Bmap(i, at / BSIZE);
      if b.None? {
        AccountShort(f, g, i, off, at, m, off + n, sb.size - sb.nmeta);
        return None;
      }
      AccountNext(f, g, Now(), i, off, at, m);
      ReadRound(f, g, Now(), i, off, at, m);
      ReadKeeps(f, Now(), i, off, at + m);
      OwnSuper(sb, Now());
      DataIsBlock(sb, Now(), i, at / BSIZE);
      return Some(store[b.value][at % BSIZE..at % BSIZE + m]);
    }

    /** writei: the contents are overwritten from off on, and grow if need be; all that changed in
        the inode reaches the disk, if it agreed with the disk before. */
    method Writei(i: nat, off: nat, src: seq<Byte>, device: int) returns (r: WriteResult)
      requires Valid() && Has(Now(), i) && inodes[i].size <= MAXFILE * BSIZE
      requires off < WORD_LIMIT && |src| < WORD_LIMIT
      modifies this`store, this`inodes, this`dinodes, this`own
      ensures r.ToDevice? <==> old(inodes)[i].kind == T_DEV
      ensures r.ToDevice? ==> r.answer == device && Now() == old(Now()) && dinodes == old(dinodes)
      ensures r.WriteFailed? <==> old(inodes)[i].kind != T_DEV && (off > old(inodes)[i].size || off + |src| > MAXFILE * BSIZE)
      ensures r.WriteFailed? ==> Now() == old(Now()) && dinodes == old(dinodes)
      ensures r.OutOfBlocks? ==> Full()
      ensures r.OutOfBlocks? || r.Count? ==> (r.OutOfBlocks? <==> old(Clear()) < Wanted(old(Now()), i, off, off + |src|))
      ensures r.Count? ==> r.n == |src| && Valid() && Has(Now(), i) && inodes[i].size <= MAXFILE * BSIZE
      ensures r.Count? && HoleFree(old(Now()), i) ==> HoleFree(Now(), i)
      ensures r.Count? ==> Contents(Now(), i) == Overwritten(Contents(old(Now()), i), off, src)
      ensures r.Count? ==> OthersKept(old(Now()), Now(), i)
      ensures r.Count? ==> inodes[i] == old(inodes)[i].(addrs := inodes[i].addrs, size := inodes[i].size)
      ensures r.Count? ==> dinodes == if off + |src| > old(inodes)[i].size && src != [] then old(dinodes)[i := inodes[i]] else old(dinodes)
      ensures r.Count? && HoleFree(old(Now()), i) && i in old(dinodes) && old(dinodes)[i] == old(inodes)[i] ==> dinodes == old(dinodes)[i := inodes[i]]
      ensures r.Count? && old(Consistent()) && inodes[i].kind != 0 ==> Consistent()
      ensures r.Count? && old(KindsAgree()) && inodes[i].kind != 0 ==> KindsAgree()
    {
      hide SameKinds, FilesOk, OthersKept, OwnOk, MetaOk, Extended, Contents, DataAddr, HoleFree, Data, Progress, Overwritten, ClearBits, Wanted, Dealt;
      ghost var f := Now();
      if inodes[i].kind == T_DEV {
        return ToDevice(device);
      }
      if off > inodes[i].size || (off + |src|) % WORD_LIMIT < off || off + |src| > MAXFILE * BSIZE {
        return WriteFailed;
      }
      NoProgress(sb, f, i, off);
      NoHoleIn(f, i);
      RoomIff(sb, f);
      DealtNone(f, i, off);
      var tot := 0;
      while tot < |src|
        invariant 0 <= tot <= |src| && Valid() && Progress(f, Now(), i, off, src[..tot]) && dinodes == old(dinodes)
        invariant Account(f, Now(), i, off, off + tot)
      {
        var ok := WriteChunk(i, off, src, tot, f);
        if !ok {
          return OutOfBlocks;
        }
        tot := tot + Chunk(|src| - tot, off + tot);
      }
      assert src[..tot] == src;
      ghost var g := Now();
      RoomIff(sb, g);
      ProgressInode(f, g, i, off, src);
      if |src| > 0 && off + tot > inodes[i].size {
        inodes := inodes[i := inodes[i].(size := off + tot)];
        AddrsKeepOwners(sb, g, i, inodes[i]);
        dinodes := dinodes[i := inodes[i]];
      }
      WriteDone(f, g, Now(), i, off, src, inodes[i].size);
      if FilesOk(f) && inodes[i].kind != 0 {
        WriteKeepsFiles(f, Now(), i);
      }
      OthersInodes(f, Now(), i);
      WriteKinds(f.inodes, inodes, old(dinodes), dinodes, i);
      return Count(|src|);
    }

    /** ialloc: the first free inode, cleared. None is the panic that there are none. */
    method Ialloc(ninodes: nat, kind: nat) returns (r: Option<nat>)
      requires Valid() && KindsAgree() && forall j :: 1 <= j < ninodes ==> j in dinodes
      modifies this`inodes, this`dinodes
      ensures r.None? ==> Now() == old(Now()) && forall j :: 1 <= j < ninodes ==> j in inodes && inodes[j].kind != 0
      ensures r.Some? ==> 1 <= r.value < ninodes && old(dinodes)[r.value].kind == 0
      ensures r.Some? ==> forall j :: 1 <= j < r.value ==> j in old(dinodes) && old(dinodes)[j].kind != 0
      ensures r.Some? ==> inodes == old(inodes)[r.value := Inode(kind, 0, 0, NoAddrs())]
      ensures r.Some? ==> dinodes == old(dinodes)[r.value := Inode(kind, 0, 0, NoAddrs())]
      ensures Valid() && KindsAgree() && (old(Consistent()) ==> Consistent())
    {
      hide OwnOk, MetaOk, FilesOk, SameKinds, NoAddrs;
      KindsOf(inodes, dinodes);
      var inum := 1;
      while inum < ninodes
        invariant 1 <= inum && inodes == old(inodes) && dinodes == old(dinodes)
        invariant forall j :: 1 <= j < inum && j < ninodes ==> dinodes[j].kind != 0
      {
        if dinodes[inum].kind == 0 {
          SetInode(inum, Inode(kind, 0, 0, NoAddrs()));
          return Some(inum);
        }
        inum := inum + 1;
      }
      return None;
    }

    /** iput on the last reference to an inode without links: its blocks and the inode are freed. */
    method FreeInode(i: nat)
      requires Valid() && i in inodes && inodes[i].nlink == 0
      modifies this`store, this`inodes, this`dinodes, this`own
      ensures Valid() && (old(Consistent()) ==> Consistent()) && (old(KindsAgree()) ==> KindsAgree())
      ensures inodes == old(inodes)[i := Inode(0, 0, 0, NoAddrs())]
      ensures dinodes == old(dinodes)[i := Inode(0, 0, 0, NoAddrs())]
      ensures OwnersLeft(old(Now()), Now(), i, SLOTS) && SameData(sb, old(store), store)
    {
      hide OwnOk, MetaOk, FilesOk, OwnersLeft, SameData, SameKinds, NoAddrs;
      ghost var f := Now();
      Itrunc(i);
      ghost var g := Now();
      SetInode(i, inodes[i].(kind := 0));
      OwnersSame(f, g, Now(), i);
    }

    /** The type of an inode without blocks changes, on disk too. */
    method SetInode(i: nat, ip: Inode)
      requires Valid() && i in inodes && inodes[i].addrs == NoAddrs() == ip.addrs && ip.size == 0
      modifies this`inodes, this`dinodes
      ensures Valid() && inodes == old(inodes)[i := ip] && dinodes == old(dinodes)[i := ip]
      ensures (old(Consistent()) ==> Consistent()) && (old(KindsAgree()) ==> KindsAgree())
    {
      hide OwnOk, MetaOk, FilesOk, SameKinds, NoAddrs;
      ghost var f := Now();
      RenewKinds(inodes, dinodes, i, ip);
      if FilesOk(f) {
        RenewKeepsFiles(f, i, ip);
      }
      AddrsKeepOwners(sb, f, i, ip);
      inodes := inodes[i := ip];
      dinodes := dinodes[i := ip];
    }

    /** One round of writei's loop. */
    method WriteChunk(i: nat, off: nat, src: seq<Byte>, tot: nat, ghost f: Files) returns (ok: bool)
      requires Valid() && tot < |src| && off + |src| <= MAXFILE * BSIZE && Progress(f, Now(), i, off, src[..tot])
      requires Has(f, i) && Account(f, Now(), i, off, off + tot)
      modifies this`store, this`inodes, this`own
      ensures !ok ==> Full() && sb.size - sb.nmeta - |f.own| < Wanted(f, i, off, off + |src|)
      ensures ok ==> Account(f, Now(), i, off, off + tot + Chunk(|src| - tot, off + tot))
      ensures ok ==> Valid() && Progress(f, Now(), i, off, src[..tot + Chunk(|src| - tot, off + tot)])
    {
      hide OwnOk, MetaOk, Extended, DataAddr, HoleFree, Data, Progress, Wanted, Dealt, Cost, Account, NoIndirect;
      ghost var g := Now();
      ProgressInode(f, g, i, off, src[..tot]);
      var at := off + tot;
      var m := Chunk(|src| - tot, at);
      var b := Bmap(i, at / BSIZE);
      if b.None? {
        AccountShort(f, g, i, off, at, m, off + |src|, sb.size - sb.nmeta);
        return false;
      }
      ghost var e := Now();
      AccountNext(f, g, e, i, off, at, m);
      var chunk := src[tot..tot + m];
      OwnSuper(sb, e);
      DataIsBlock(sb, e, i, at / BSIZE);
      WriteRound(sb, f, g, e, i, off, src[..tot], chunk);
      var block := Patched(store[b.value], at % BSIZE, chunk);
      MetaDataWrite(sb, store, b.value, block);
      DataWriteOk(sb, e, i, at / BSIZE, block);
      AccountWritten(sb, f, e, i, off, at + m, at / BSIZE, block);
      store := store[b.value := block];
      assert Now() == RoundDone(e, i, at, chunk);
      assert src[..tot] + chunk == src[..tot + m];
      return true;
    }
  }

  ghost predicate SameKinds(inodes: map<nat, Inode>, dinodes: map<nat, Inode>) {
    && inodes.Keys == dinodes.Keys
    && forall i :: i in inodes ==> i in dinodes && inodes[i].kind == dinodes[i].kind && (inodes[i].kind == 0 ==> inodes[i].addrs == NoAddrs())
  }

  /** A consistent disk is one of those. */
  lemma ConsistentKinds(f: Files)
    requires FilesOk(f)
    ensures SameKinds(f.inodes, f.inodes)
  {
    forall i | i in f.inodes && f.inodes[i].kind == 0 ensures f.inodes[i].addrs == NoAddrs() {
      assert FileOk(f, i);
    }
  }

  lemma ReadKinds(f: Files, g: Files, i: nat, lo: nat, hi: nat, dinodes: map<nat, Inode>)
    requires ReadGrown(f, g, i, lo, hi) && i in f.inodes
    ensures SameKinds(f.inodes, dinodes) && f.inodes[i].kind != 0 ==> SameKinds(g.inodes, dinodes)
  {
    hide NoHoles, DataAddr, Data;
  }

  lemma WriteKinds(inodes: map<nat, Inode>, inodes': map<nat, Inode>, dinodes: map<nat, Inode>, dinodes': map<nat, Inode>, i: nat)
    requires i in inodes && i in inodes' && inodes' == inodes[i := inodes'[i]] && inodes'[i].kind == inodes[i].kind
    requires dinodes' == dinodes || dinodes' == dinodes[i := inodes'[i]]
    ensures SameKinds(inodes, dinodes) && inodes[i].kind != 0 ==> SameKinds(inodes', dinodes')
  {
  }

  lemma RenewKinds(inodes: map<nat, Inode>, dinodes: map<nat, Inode>, i: nat, ip: Inode)
    requires i in inodes && ip.addrs == NoAddrs()
    ensures SameKinds(inodes, dinodes) ==> SameKinds(inodes[i := ip], dinodes[i := ip])
  {
  }

  lemma TruncKinds(inodes: map<nat, Inode>, dinodes: map<nat, Inode>, i: nat)
    requires i in inodes
    ensures var ip := inodes[i].(size := 0, addrs := NoAddrs());
      SameKinds(inodes, dinodes) ==> SameKinds(inodes[i := ip], dinodes[i := ip])
  {
    hide NoAddrs;
  }

  lemma KindsOf(inodes: map<nat, Inode>, dinodes: map<nat, Inode>)
    requires SameKinds(inodes, dinodes)
    ensures forall j :: j in dinodes ==> j in inodes && inodes[j].kind == dinodes[j].kind
    ensures forall j :: j in dinodes && dinodes[j].kind == 0 ==> inodes[j].addrs == NoAddrs()
  {
    hide NoAddrs;
  }

  /** The owners tell whether the disk is full. */
  lemma RoomIff(sb: Super, f: Files)
    requires OwnOk(sb, f, NoMask) && MetaOk(sb, f.store)
    ensures |f.own| <= sb.size - sb.nmeta && |ClearBits(sb, f.store)| == sb.size - sb.nmeta - |f.own|
    ensures |f.own| == sb.size - sb.nmeta <==> forall b: nat :: b < sb.size ==> BitOf(sb, f.store, b)
  {
    hide BitOf, OwnOk;
    ClearCount(sb, f);
    if b: nat :| b < sb.size && !BitOf(sb, f.store, b) {
      assert b in ClearBits(sb, f.store);
    } else {
      assert ClearBits(sb, f.store) == {};
    }
  }

  lemma NoFiles(sb: Super, f: Files)
    requires ValidSuper(sb) && |f.store| == sb.size && f.own == map[]
    requires forall b: nat :: b < sb.size ==> (BitOf(sb, f.store, b) <==> b < sb.nmeta)
    requires forall i :: i in f.inodes ==> f.inodes[i].size == 0 && f.inodes[i].addrs == NoAddrs()
    ensures OwnOk(sb, f, NoMask) && FilesOk(f)
  {
    forall i, k | i in f.inodes && 0 <= k < SLOTS ensures SlotOk(sb, f, NoMask, i, k) {
    }
    forall i | i in f.inodes ensures FileOk(f, i) {
    }
  }

  lemma ExtendedHas(f: Files, g: Files, i: nat, bn: nat)
    requires Extended(f, g, i, bn) && i in f.inodes
    ensures Has(g, i)
  {
    assert InodeKept(f, g, i);
  }

  lemma OthersInodes(f: Files, g: Files, i: nat)
    requires OthersKept(f, g, i) && i in f.inodes
    ensures i in g.inodes && g.inodes == f.inodes[i := g.inodes[i]]
  {
  }

  lemma NoHoleIn(f: Files, i: nat)
    requires Has(f, i)
    ensures FilesOk(f) ==> HoleFree(f, i)
  {
    if FilesOk(f) {
      assert FileOk(f, i);
    }
  }

  /** Where a read ends: at the end of the file at the latest. */
  function ReadEnd(size: nat, off: nat, n: nat): nat {
    if off + n > size then (if size < off then off else size) else off + n
  }

  lemma HolesOf(f: Files, g: Files, i: nat, lo: nat, hi: nat)
    requires ReadGrown(f, g, i, lo, hi) && Has(f, i)
    ensures g == f <==> NoHoles(f, i, lo, hi)
    ensures Has(g, i) && g.inodes[i].size == f.inodes[i].size
  {
  }

  /** A mapped block of a file is a data block. */
  lemma DataIsBlock(sb: Super, f: Files, i: nat, bn: nat)
    requires OwnOk(sb, f, NoMask) && Has(f, i) && bn < MAXFILE && DataAddr(f, i, bn) != 0
    ensures sb.nmeta <= DataAddr(f, i, bn) < sb.size == |f.store|
    ensures Data(f, i, bn) == f.store[DataAddr(f, i, bn)]
  {
    assert SlotOk(sb, f, NoMask, i, SlotOf(bn));
  }

  lemma DataWriteOk(sb: Super, f: Files, i: nat, bn: nat, data: Block)
    requires OwnOk(sb, f, NoMask) && Has(f, i) && bn < MAXFILE && 0 != DataAddr(f, i, bn) < |f.store|
    ensures OwnOk(sb, f.(store := f.store[DataAddr(f, i, bn) := data]), NoMask)
  {
    assert SlotOk(sb, f, NoMask, i, SlotOf(bn));
    DataWriteKeeps(sb, f, DataAddr(f, i, bn), data);
  }

  lemma ProgressInode(f: Files, g: Files, i: nat, off: nat, data: seq<Byte>)
    requires Progress(f, g, i, off, data)
    ensures Has(f, i) && Has(g, i) && g.inodes[i] == f.inodes[i].(addrs := g.inodes[i].addrs)
    ensures HoleFree(f, i) ==> g.inodes[i] == f.inodes[i] || off + |data| > f.inodes[i].size
  {
  }

  lemma EntryFacts(sb: Super, f: Files, i: nat, bn: nat)
    requires OwnOk(sb, f, NoMask) && i in f.inodes && NDIRECT <= bn < MAXFILE && ValidInode(f.inodes[i]) && f.inodes[i].addrs[NDIRECT] != 0
    ensures sb.nmeta <= f.inodes[i].addrs[NDIRECT] < sb.size == |f.store|
    ensures Word(f.store[f.inodes[i].addrs[NDIRECT]], bn - NDIRECT) == DataAddr(f, i, bn)
  {
    IndirectFacts(sb, f, NoMask, i);
  }

  lemma EntryFree(sb: Super, f: Files, i: nat, bn: nat, b: nat)
    requires OwnOk(sb, f, NoMask) && i in f.inodes && NDIRECT <= bn < MAXFILE && ValidInode(f.inodes[i]) && f.inodes[i].addrs[NDIRECT] != 0
    requires DataAddr(f, i, bn) == 0 && sb.nmeta <= b < sb.size && !BitOf(sb, f.store, b)
    ensures CanAttach(sb, f, i, bn + 1, b)
  {
  }

  lemma DirectToEntries(sb: Super, e: Files, f: Files, i: nat)
    requires OwnOk(sb, f, NoMask) && OwnersLeft(e, f, i, NDIRECT)
    ensures OwnOk(sb, f, Mask(i, 0)) && EntriesLeft(e, f, i, 0)
  {
    MaskFree(sb, f, NoMask, Mask(i, 0));
  }

  lemma OwnersSame(e: Files, f: Files, g: Files, i: nat)
    requires OwnersLeft(e, f, i, SLOTS) && g.own == f.own
    ensures OwnersLeft(e, g, i, SLOTS)
  {
  }

  function CutAddrs(a: seq<nat>, k: nat): (r: seq<nat>)
    requires k <= |a|
    ensures |r| == |a|
  {
    seq(k, l => 0) + a[k..]
  }

  lemma CutNone(a: seq<nat>)
    ensures CutAddrs(a, 0) == a
  {
  }

  lemma CutNext(a: seq<nat>, k: nat)
    requires k < |a|
    ensures CutAddrs(a, k)[k] == a[k] && CutAddrs(a, k + 1) == CutAddrs(a, k)[k := 0]
    ensures a[k] == 0 ==> CutAddrs(a, k + 1) == CutAddrs(a, k)
  {
  }

  lemma NothingLeft(sb: Super, f: Files, i: nat)
    ensures OwnersLeft(f, f, i, 0)
    ensures OwnOk(sb, f, NoMask) ==> SameData(sb, f.store, f.store)
  {
  }

  lemma OwnSuper(sb: Super, f: Files)
    requires OwnOk(sb, f, NoMask)
    ensures ValidSuper(sb) && |f.store| == sb.size
  {
  }

  /** balloc's block may be attached, and nothing but the block map of inode i changes. */
  lemma AttachStep(sb: Super, f: Files, i: nat, k: nat, b: nat, bn: nat)
    requires CanAttach(sb, f, i, k, b) && MetaOk(sb, f.store) && bn < MAXFILE && (k == SlotOf(bn) || k == NDIRECT)
    ensures k > NDIRECT ==> f.inodes[i].addrs[NDIRECT] < sb.size
    ensures OwnOk(sb, Attached(sb, f, i, k, b), NoMask) && MetaOk(sb, Attached(sb, f, i, k, b).store)
    ensures Extended(f, Attached(sb, f, i, k, b), i, bn)
    ensures k == SlotOf(bn) ==> DataAddr(Attached(sb, f, i, k, b), i, bn) == b
    ensures k != SlotOf(bn) ==> DataAddr(Attached(sb, f, i, k, b), i, bn) == DataAddr(f, i, bn)
  {
    IndirectFacts(sb, f, NoMask, i);
    AttachedData(sb, f, i, k, b, i, bn);
    AttachKeeps(sb, f, i, k, b);
    AttachExtends(sb, f, i, k, b, bn);
    MetaMarked(sb, f.store, b);
    if k > NDIRECT {
      var s := Marked(sb, f.store, b)[b := Zeroes()];
      var ind := f.inodes[i].addrs[NDIRECT];
      MetaDataWrite(sb, s, ind, SetWord(s[ind], k - NDIRECT - 1, b));
    }
  }

  lemma MetaBit(sb: Super, store: seq<Block>, b: nat)
    requires MetaOk(sb, store) && b < sb.size && !BitOf(sb, store, b)
    ensures sb.nmeta <= b
  {
  }

  lemma MetaMarked(sb: Super, store: seq<Block>, b: nat)
    requires MetaOk(sb, store) && sb.nmeta <= b < sb.size
    ensures MetaOk(sb, Marked(sb, store, b)[b := Zeroes()])
  {
    var after := Marked(sb, store, b)[b := Zeroes()];
    forall c: nat | c < sb.nmeta ensures BitOf(sb, after, c) {
      MarkedBits(sb, store, b, c);
      DataWriteBits(sb, Marked(sb, store, b), b, Zeroes(), c);
    }
  }

  lemma MetaDataWrite(sb: Super, store: seq<Block>, b: nat, data: Block)
    requires MetaOk(sb, store) && sb.nmeta <= b < sb.size
    ensures MetaOk(sb, store[b := data])
  {
    var after := store[b := data];
    forall c: nat | c < sb.nmeta ensures BitOf(sb, after, c) {
      DataWriteBits(sb, store, b, data, c);
    }
  }

  lemma MetaUnmarked(sb: Super, store: seq<Block>, b: nat)
    requires MetaOk(sb, store) && sb.nmeta <= b < sb.size
    ensures MetaOk(sb, Unmarked(sb, store, b))
  {
    var after := Unmarked(sb, store, b);
    forall c: nat | c < sb.nmeta ensures BitOf(sb, after, c) {
      MarkedBits(sb, store, b, c);
    }
  }
}
