/** Reading and writing a file as a sequence of bytes (readi and writei of fs.c). */
module FileBytes {
  import opened Blocks
  import opened FileBlocks
  import opened FileContent

  /** data written over c from position off on. */
  function Overwritten(c: seq<Byte>, off: nat, data: seq<Byte>): seq<Byte>
    requires off <= |c|
  {
    c[..off] + data + if off + |data| < |c| then c[off + |data|..] else []
  }

  /** memmove of data into a block. */
  function Patched(b: Block, at: nat, data: seq<Byte>): (r: Block)
    requires at + |data| <= BSIZE
    ensures forall q :: 0 <= q < BSIZE ==> r[q] == if at <= q < at + |data| then data[q - at] else b[q]
  {
    b[..at] + data + b[at + |data|..]
  }

  /** Size of the next chunk: to the end of the request or of the block. */
  function Chunk(left: nat, off: nat): (m: nat)
    requires left > 0
    ensures 0 < m <= left && off % BSIZE + m <= BSIZE
  {
    if left <= BSIZE - off % BSIZE then left else BSIZE - off % BSIZE
  }

  /** One round of readi's loop reads a piece of the contents. */
  lemma ChunkRead(f: Files, i: nat, off: nat, m: nat)
    requires Has(f, i) && off % BSIZE + m <= BSIZE && off + m <= f.inodes[i].size <= MAXFILE * BSIZE && m > 0
    ensures off / BSIZE < MAXFILE
    ensures Data(f, i, off / BSIZE)[off % BSIZE..off % BSIZE + m] == Contents(f, i)[off..off + m]
  {
    hide Data, DataAddr;
    var bn := off / BSIZE;
    assert bn * BSIZE <= off;
    var piece, part := Data(f, i, bn)[off % BSIZE..off % BSIZE + m], Contents(f, i)[off..off + m];
    forall q | 0 <= q < m ensures piece[q] == part[q] {
      var p := off + q;
      assert p / BSIZE == bn && p % BSIZE == off % BSIZE + q;
      assert part[q] == ByteAt(f, i, p);
    }
  }

  /** f became g by writing block bn of file i. */
  lemma DataWriteData(sb: Super, f: Files, i: nat, bn: nat, data: Block, j: nat, c: nat)
    requires OwnOk(sb, f, NoMask) && Has(f, i) && bn < MAXFILE && j in f.inodes && c < MAXFILE && DataAddr(f, i, bn) != 0
    ensures DataAddr(f, i, bn) < |f.store|
    ensures var g := f.(store := f.store[DataAddr(f, i, bn) := data]);
      && Has(f, j) && Has(g, j) && DataAddr(g, j, c) == DataAddr(f, j, c)
      && Data(g, j, c) == if j == i && c == bn then data else Data(f, j, c)
  {
    var b := DataAddr(f, i, bn);
    assert SlotOk(sb, f, NoMask, i, SlotOf(bn));
    DataWriteAddr(sb, f, b, data, j, SlotOf(c));
    assert SlotOk(sb, f, NoMask, j, SlotOf(c));
  }

  /** The bytes of file i from off on have become data; the rest of it is as it was. */
  ghost predicate BytesWritten(f: Files, g: Files, i: nat, off: nat, data: seq<Byte>) {
    && Has(f, i) && Has(g, i)
    && forall p: nat :: p < MAXFILE * BSIZE ==>
         ByteAt(g, i, p) == if off <= p < off + |data| then data[p - off] else ByteAt(f, i, p)
  }

  /** Every other file is as it was, blocks and all. */
  ghost predicate OthersKept(f: Files, g: Files, i: nat) {
    && g.inodes.Keys == f.inodes.Keys
    && (forall j :: j in f.inodes && j != i ==> g.inodes[j] == f.inodes[j])
    && (forall j, c: nat :: j in f.inodes && j != i && c < MAXFILE ==> BlockKept(f, g, j, c))
  }

  /** Block c has bytes from position lo to hi. */
  predicate Touched(c: nat, lo: nat, hi: nat) { lo < hi && lo / BSIZE <= c && c * BSIZE < hi }

  /** Blocks of file i that were mapped stay, and all blocks with bytes from lo to hi are mapped. */
  ghost predicate MapGrown(f: Files, g: Files, i: nat, lo: nat, hi: nat) {
    && InodeKept(f, g, i)
    && (forall c: nat :: c < MAXFILE && (DataAddr(f, i, c) != 0 || Touched(c, lo, hi)) ==> DataAddr(g, i, c) != 0)
  }

  /** What the rounds of writei's loop have done so far. */
  ghost predicate Progress(f: Files, g: Files, i: nat, off: nat, data: seq<Byte>) {
    && BytesWritten(f, g, i, off, data) && OthersKept(f, g, i) && MapGrown(f, g, i, off, off + |data|)
    && (HoleFree(f, i) ==> g.inodes[i] == f.inodes[i] || off + |data| > f.inodes[i].size)
  }

  lemma NoProgress(sb: Super, f: Files, i: nat, off: nat)
    requires OwnOk(sb, f, NoMask) && Has(f, i)
    ensures Progress(f, f, i, off, [])
  {
    hide Data, DataAddr;
    ExtendedRefl(sb, f, i, 0);
  }

  /** The state after a round: bmap led from g to e, then the block was patched. */
  function RoundDone(e: Files, i: nat, off: nat, chunk: seq<Byte>): Files
    requires Has(e, i) && off / BSIZE < MAXFILE && DataAddr(e, i, off / BSIZE) < |e.store| && off % BSIZE + |chunk| <= BSIZE
  {
    var b := DataAddr(e, i, off / BSIZE);
    e.(store := e.store[b := Patched(e.store[b], off % BSIZE, chunk)])
  }

  ghost predicate RoundOk(sb: Super, g: Files, e: Files, i: nat, off: nat, chunk: seq<Byte>) {
    && OwnOk(sb, e, NoMask) && Has(g, i) && Has(e, i) && off / BSIZE < MAXFILE && off % BSIZE + |chunk| <= BSIZE && chunk != []
    && Extended(g, e, i, off / BSIZE) && 0 != DataAddr(e, i, off / BSIZE) < |e.store|
    && (DataAddr(g, i, off / BSIZE) != 0 ==> e == g)
  }

  lemma RoundData(sb: Super, g: Files, e: Files, i: nat, off: nat, chunk: seq<Byte>, j: nat, c: nat)
    requires RoundOk(sb, g, e, i, off, chunk) && j in g.inodes && c < MAXFILE
    ensures var h := RoundDone(e, i, off, chunk);
      && Has(g, j) && Has(h, j) && h.inodes[j] == e.inodes[j]
      && DataAddr(h, j, c) == (if j == i && c == off / BSIZE then DataAddr(e, i, off / BSIZE) else DataAddr(g, j, c))
      && Data(h, j, c) == if j == i && c == off / BSIZE then Patched(Data(g, j, c), off % BSIZE, chunk) else Data(g, j, c)
  {
    hide OwnOk, Addr, ValidInode;
    var b := DataAddr(e, i, off / BSIZE);
    DataWriteData(sb, e, i, off / BSIZE, Patched(e.store[b], off % BSIZE, chunk), j, c);
    assert BlockKept(g, e, j, c);
  }

  lemma RoundByte(sb: Super, g: Files, e: Files, i: nat, off: nat, chunk: seq<Byte>, p: nat)
    requires RoundOk(sb, g, e, i, off, chunk) && p < MAXFILE * BSIZE
    ensures var h := RoundDone(e, i, off, chunk);
      Has(h, i) && ByteAt(h, i, p) == if off <= p < off + |chunk| then chunk[p - off] else ByteAt(g, i, p)
  {
    hide Data, DataAddr, OwnOk, Extended, Patched, RoundDone;
    RoundData(sb, g, e, i, off, chunk, i, p / BSIZE);
    assert p / BSIZE == off / BSIZE ==> p - off == p % BSIZE - off % BSIZE;
    assert off <= p < off + |chunk| ==> p / BSIZE == off / BSIZE;
  }

  lemma RoundBytes(sb: Super, f: Files, g: Files, e: Files, i: nat, off: nat, data: seq<Byte>, chunk: seq<Byte>)
    requires RoundOk(sb, g, e, i, off + |data|, chunk) && BytesWritten(f, g, i, off, data)
    ensures BytesWritten(f, RoundDone(e, i, off + |data|, chunk), i, off, data + chunk)
  {
    hide RoundDone, ByteAt, OwnOk, Extended, DataAddr;
    var h := RoundDone(e, i, off + |data|, chunk);
    RoundData(sb, g, e, i, off + |data|, chunk, i, 0);
    forall p: nat | p < MAXFILE * BSIZE
      ensures ByteAt(h, i, p) == if off <= p < off + |data + chunk| then (data + chunk)[p - off] else ByteAt(f, i, p)
    {
      RoundByte(sb, g, e, i, off + |data|, chunk, p);
    }
  }

  lemma RoundOthers(sb: Super, f: Files, g: Files, e: Files, i: nat, off: nat, chunk: seq<Byte>)
    requires RoundOk(sb, g, e, i, off, chunk) && OthersKept(f, g, i)
    ensures OthersKept(f, RoundDone(e, i, off, chunk), i)
  {
    hide Data, DataAddr, OwnOk;
    var h := RoundDone(e, i, off, chunk);
    forall j, c: nat | j in f.inodes && j != i && c < MAXFILE ensures BlockKept(f, h, j, c) {
      assert BlockKept(f, g, j, c);
      RoundData(sb, g, e, i, off, chunk, j, c);
    }
  }

  lemma RoundMap(sb: Super, f: Files, g: Files, e: Files, i: nat, lo: nat, off: nat, chunk: seq<Byte>)
    requires RoundOk(sb, g, e, i, off, chunk) && MapGrown(f, g, i, lo, off) && lo <= off
    ensures MapGrown(f, RoundDone(e, i, off, chunk), i, lo, off + |chunk|)
  {
    hide Data, DataAddr, OwnOk;
    var h := RoundDone(e, i, off, chunk);
    assert InodeKept(g, e, i);
    forall c: nat | c < MAXFILE && (DataAddr(f, i, c) != 0 || Touched(c, lo, off + |chunk|)) ensures DataAddr(h, i, c) != 0 {
      RoundData(sb, g, e, i, off, chunk, i, c);
      assert Touched(c, lo, off + |chunk|) ==> Touched(c, lo, off) || c == off / BSIZE;
    }
  }

  /** One round of writei's loop. */
  lemma WriteRound(sb: Super, f: Files, g: Files, e: Files, i: nat, off: nat, data: seq<Byte>, chunk: seq<Byte>)
    requires RoundOk(sb, g, e, i, off + |data|, chunk) && Progress(f, g, i, off, data)
    ensures Progress(f, RoundDone(e, i, off + |data|, chunk), i, off, data + chunk)
  {
    hide Data, DataAddr, OwnOk, Extended, OthersKept, BytesWritten;
    RoundBytes(sb, f, g, e, i, off, data, chunk);
    RoundOthers(sb, f, g, e, i, off + |data|, chunk);
    RoundMap(sb, f, g, e, i, off, off + |data|, chunk);
    assert f.inodes[i].size > off + |data| ==> (off + |data|) / BSIZE * BSIZE < f.inodes[i].size;
  }

  /** The size of a file plays no part in where its bytes are. */
  lemma SizeReads(g: Files, h: Files, i: nat, size: nat)
    requires Has(g, i) && h == g.(inodes := g.inodes[i := g.inodes[i].(size := size)])
    ensures Has(h, i)
    ensures forall c: nat :: c < MAXFILE ==> DataAddr(h, i, c) == DataAddr(g, i, c)
    ensures forall p: nat :: p < MAXFILE * BSIZE ==> ByteAt(h, i, p) == ByteAt(g, i, p)
  {
  }

  lemma SizeOthers(f: Files, g: Files, h: Files, i: nat, size: nat)
    requires OthersKept(f, g, i) && Has(g, i) && h == g.(inodes := g.inodes[i := g.inodes[i].(size := size)])
    ensures OthersKept(f, h, i)
  {
    forall j, c: nat | j in f.inodes && j != i && c < MAXFILE ensures BlockKept(f, h, j, c) {
      assert BlockKept(f, g, j, c);
    }
  }

  lemma WriteContents(f: Files, h: Files, i: nat, off: nat, data: seq<Byte>)
    requires Has(f, i) && Has(h, i) && off <= f.inodes[i].size <= MAXFILE * BSIZE && h.inodes[i].size <= MAXFILE * BSIZE
    requires h.inodes[i].size == if off + |data| > f.inodes[i].size then off + |data| else f.inodes[i].size
    requires BytesWritten(f, h, i, off, data)
    ensures Contents(h, i) == Overwritten(Contents(f, i), off, data)
  {
    hide ByteAt;
    var c, d := Contents(h, i), Overwritten(Contents(f, i), off, data);
    assert |c| == |d|;
    forall p: nat | p < |c| ensures c[p] == d[p] {
      assert c[p] == ByteAt(h, i, p);
      assert p < f.inodes[i].size ==> Contents(f, i)[p] == ByteAt(f, i, p);
    }
  }

  /** After the rounds and the size update, file i reads as if overwritten. */
  lemma WriteDone(f: Files, g: Files, h: Files, i: nat, off: nat, data: seq<Byte>, size: nat)
    requires Has(f, i) && off <= f.inodes[i].size <= MAXFILE * BSIZE && off + |data| <= MAXFILE * BSIZE
    requires Progress(f, g, i, off, data)
    requires size == if off + |data| > f.inodes[i].size then off + |data| else f.inodes[i].size
    requires h == g.(inodes := g.inodes[i := g.inodes[i].(size := size)])
    ensures Has(h, i) && h.inodes[i].size <= MAXFILE * BSIZE && (HoleFree(f, i) ==> HoleFree(h, i))
    ensures Contents(h, i) == Overwritten(Contents(f, i), off, data)
    ensures OthersKept(f, h, i)
  {
    hide OthersKept, DataAddr, ByteAt;
    SizeReads(g, h, i, size);
    WriteContents(f, h, i, off, data);
    SizeOthers(f, g, h, i, size);
    assert forall c: nat :: f.inodes[i].size <= c * BSIZE < size ==> Touched(c, off, off + |data|);
  }

  // ---- reading ---------------------------------------------------------------------------------------

  /** No block with bytes from lo to hi is a hole. */
  ghost predicate NoHoles(f: Files, i: nat, lo: nat, hi: nat)
    requires Has(f, i)
  {
    forall c: nat :: c < MAXFILE && Touched(c, lo, hi) ==> DataAddr(f, i, c) != 0
  }

  /** Reading from lo to hi turned f into g: no file reads differently, and just the holes among the
      blocks read have been filled. */
  ghost predicate ReadGrown(f: Files, g: Files, i: nat, lo: nat, hi: nat) {
    && Has(f, i) && MapGrown(f, g, i, lo, hi) && g.inodes.Keys == f.inodes.Keys
    && (forall j :: j in f.inodes && j != i ==> g.inodes[j] == f.inodes[j])
    && (forall j, c: nat :: j in f.inodes && c < MAXFILE ==> BlockKept(f, g, j, c))
    && (forall c: nat :: c < MAXFILE && !Touched(c, lo, hi) ==> DataAddr(g, i, c) == DataAddr(f, i, c))
    && (NoHoles(f, i, lo, hi) <==> g == f)
  }

  lemma ReadStarts(sb: Super, f: Files, i: nat, off: nat)
    requires OwnOk(sb, f, NoMask) && Has(f, i)
    ensures ReadGrown(f, f, i, off, off)
  {
    hide Data, DataAddr;
    ExtendedRefl(sb, f, i, 0);
  }

  /** One round of readi's loop: bmap led from g to e. */
  lemma ReadRound(f: Files, g: Files, e: Files, i: nat, lo: nat, off: nat, m: nat)
    requires ReadGrown(f, g, i, lo, off) && lo <= off && off % BSIZE + m <= BSIZE && m > 0 && off / BSIZE < MAXFILE
    requires Extended(g, e, i, off / BSIZE) && Has(g, i) && Has(e, i) && DataAddr(e, i, off / BSIZE) != 0
    requires DataAddr(g, i, off / BSIZE) != 0 ==> e == g
    ensures ReadGrown(f, e, i, lo, off + m) && Data(e, i, off / BSIZE) == Data(f, i, off / BSIZE)
  {
    hide Data, DataAddr;
    forall c: nat ensures Touched(c, lo, off + m) <==> Touched(c, lo, off) || c == off / BSIZE {
    }
    assert InodeKept(g, e, i);
    forall j, c: nat | j in f.inodes && c < MAXFILE ensures BlockKept(f, e, j, c) {
      assert BlockKept(f, g, j, c) && BlockKept(g, e, j, c);
    }
    assert BlockKept(f, e, i, off / BSIZE);
    HolesRound(f, g, e, i, lo, off, m);
  }

  lemma HolesRound(f: Files, g: Files, e: Files, i: nat, lo: nat, off: nat, m: nat)
    requires ReadGrown(f, g, i, lo, off) && lo <= off && off % BSIZE + m <= BSIZE && m > 0 && off / BSIZE < MAXFILE
    requires Has(g, i) && Has(e, i) && DataAddr(e, i, off / BSIZE) != 0 && (DataAddr(g, i, off / BSIZE) != 0 ==> e == g)
    requires forall c: nat :: Touched(c, lo, off + m) <==> Touched(c, lo, off) || c == off / BSIZE
    requires forall c: nat :: c < MAXFILE ==> BlockKept(f, e, i, c)
    requires forall c: nat :: c < MAXFILE && Touched(c, lo, off) ==> DataAddr(e, i, c) != 0
    ensures NoHoles(f, i, lo, off + m) <==> e == f
  {
    hide Data, DataAddr;
    var bn := off / BSIZE;
    if NoHoles(f, i, lo, off + m) {
      assert NoHoles(f, i, lo, off);
      assert Touched(bn, lo, off + m);
    }
  }

  /** A file reads the same after a read. */
  lemma ReadKeeps(f: Files, g: Files, i: nat, lo: nat, hi: nat)
    requires ReadGrown(f, g, i, lo, hi) && f.inodes[i].size <= MAXFILE * BSIZE
    ensures Has(g, i) && g.inodes[i].size == f.inodes[i].size && Contents(g, i) == Contents(f, i)
  {
    hide Data, DataAddr;
    forall p | 0 <= p < f.inodes[i].size ensures ByteAt(g, i, p) == ByteAt(f, i, p) {
      assert BlockKept(f, g, i, p / BSIZE);
    }
  }

  /** Writing one file keeps all files in order, and the others read as before. */
  lemma WriteKeepsFiles(f: Files, g: Files, i: nat)
    requires FilesOk(f) && OthersKept(f, g, i) && i in f.inodes && Has(g, i) && HoleFree(g, i)
    requires g.inodes[i].kind != 0
    ensures FilesOk(g)
    ensures forall j :: j in f.inodes && j != i ==> SameFile(f, g, j)
  {
    hide HoleFree, Contents;
    forall j | j in f.inodes && j != i ensures FileOk(g, j) && SameFile(f, g, j) {
      assert FileOk(f, j);
      assert BlockKept(f, g, j, 0);
      ContentsKept(f, g, j);
      ContentsBound(f, j);
      ContentsBound(g, j);
    }
  }

  ghost predicate SameFile(f: Files, g: Files, j: nat) {
    && Has(f, j) && Has(g, j) && g.inodes[j] == f.inodes[j]
    && f.inodes[j].size <= MAXFILE * BSIZE && Contents(g, j) == Contents(f, j)
  }

  lemma ContentsBound(f: Files, j: nat)
    requires Has(f, j) && HoleFree(f, j)
    ensures f.inodes[j].size <= MAXFILE * BSIZE
  {
  }

  /** So does truncating one. */
  lemma TruncKeepsFiles(sb: Super, f: Files, g: Files, i: nat)
    requires OwnOk(sb, f, NoMask) && FilesOk(f) && SameData(sb, f.store, g.store) && i in f.inodes
    requires g.inodes == f.inodes[i := f.inodes[i].(size := 0, addrs := NoAddrs())]
    ensures FilesOk(g)
    ensures forall j :: j in f.inodes && j != i ==> SameFile(f, g, j)
  {
    hide HoleFree, Contents, OwnOk, SameData, DataAddr, Data;
    forall j | j in f.inodes && j != i ensures FileOk(g, j) && SameFile(f, g, j) {
      assert FileOk(f, j);
      forall c: nat | c < MAXFILE ensures BlockKept(f, g, j, c) {
        SameDataReads(sb, f, g, j, c);
      }
      ContentsKept(f, g, j);
      ContentsBound(f, j);
    }
    EmptyFileOk(g, i);
  }

  lemma EmptyFileOk(g: Files, i: nat)
    requires i in g.inodes && g.inodes[i].size == 0 && g.inodes[i].addrs == NoAddrs()
    ensures FileOk(g, i)
  {
  }

  /** Renewing an inode without blocks leaves the other files alone. */
  lemma RenewKeepsFiles(f: Files, i: nat, ip: Inode)
    requires FilesOk(f) && i in f.inodes && ip.size == 0 && ip.addrs == NoAddrs()
    ensures FilesOk(f.(inodes := f.inodes[i := ip]))
    ensures forall j :: j in f.inodes && j != i ==> SameFile(f, f.(inodes := f.inodes[i := ip]), j)
  {
    hide HoleFree, Contents, DataAddr, Data;
    var g := f.(inodes := f.inodes[i := ip]);
    forall j | j in f.inodes && j != i ensures FileOk(g, j) && SameFile(f, g, j) {
      assert FileOk(f, j);
      forall c: nat | c < MAXFILE ensures BlockKept(f, g, j, c) {
        SameInodeReads(f, g, j, c);
      }
      ContentsKept(f, g, j);
      ContentsBound(f, j);
    }
    EmptyFileOk(g, i);
  }

  lemma SameInodeReads(f: Files, g: Files, j: nat, c: nat)
    requires Has(f, j) && Has(g, j) && f.inodes[j] == g.inodes[j] && f.store == g.store && c < MAXFILE
    ensures BlockKept(f, g, j, c)
  {
  }
}
