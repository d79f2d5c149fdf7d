/** How many free blocks a read or a write takes (fs.c): one for every block of the range that is not
    mapped, and one for the indirect block where it is needed and missing. */
module FileCounts {
  import opened Wrappers
  import opened Blocks
  import opened FileBlocks
  import opened FileContent
  import opened FileBytes

  /** The blocks that are free by the free map. */
  ghost function ClearBits(sb: Super, store: seq<Block>): set<nat>
    requires ValidSuper(sb) && |store| == sb.size
  {
    set b: nat | b < sb.size && !BitOf(sb, store, b)
  }

  /** All blocks from lo to hi. */
  function Range(lo: nat, hi: nat): (r: set<nat>)
    requires lo <= hi
    ensures |r| == hi - lo && forall b :: b in r <==> lo <= b < hi
    decreases hi
  {
    if lo == hi then {} else Range(lo, hi - 1) + {hi - 1}
  }

  /** A data block is free or has an owner. */
  lemma ClearCount(sb: Super, f: Files)
    requires OwnOk(sb, f, NoMask) && forall b: nat :: b < sb.nmeta ==> BitOf(sb, f.store, b)
    ensures |ClearBits(sb, f.store)| + |f.own| == sb.size - sb.nmeta
  {
    hide BitOf;
    var clear := ClearBits(sb, f.store);
    forall b: nat | sb.nmeta <= b < sb.size ensures b in clear <==> b !in f.own {
      FreeIsUnowned(sb, f, NoMask, b);
    }
    forall b | b in f.own ensures sb.nmeta <= b < sb.size {
      assert BlockOk(sb, f, NoMask, b);
    }
    assert Range(sb.nmeta, sb.size) == clear + f.own.Keys && clear !! f.own.Keys;
    assert |f.own| == |f.own.Keys|;
  }

  // ---- what bmap takes ---------------------------------------------------------------------------

  predicate NoIndirect(f: Files, i: nat)
    requires Has(f, i)
  {
    f.inodes[i].addrs[NDIRECT] == 0
  }

  /** Blocks that bmap allocates for block bn. */
  function Cost(f: Files, i: nat, bn: nat): nat
    requires Has(f, i) && bn < MAXFILE
  {
    if DataAddr(f, i, bn) != 0 then 0 else if bn >= NDIRECT && NoIndirect(f, i) then 2 else 1
  }

  /** The holes among the blocks with bytes from lo to hi. */
  ghost function Holes(f: Files, i: nat, lo: nat, hi: nat): set<nat>
    requires Has(f, i)
  {
    set c: nat | c < MAXFILE && Touched(c, lo, hi) && DataAddr(f, i, c) == 0
  }

  /** The range reaches into the blocks that the indirect block lists. */
  ghost predicate Far(lo: nat, hi: nat) { exists c: nat :: NDIRECT <= c < MAXFILE && Touched(c, lo, hi) }

  /** All blocks that it takes. */
  ghost function Wanted(f: Files, i: nat, lo: nat, hi: nat): nat
    requires Has(f, i)
  {
    |Holes(f, i, lo, hi)| + if NoIndirect(f, i) && Far(lo, hi) then 1 else 0
  }

  /** The bytes from lo to hi have been dealt with: their blocks are mapped, and no others have become so. */
  ghost predicate Dealt(f: Files, g: Files, i: nat, lo: nat, hi: nat) {
    && Has(f, i) && Has(g, i)
    && (forall c: nat :: c < MAXFILE && Touched(c, lo, hi) ==> DataAddr(g, i, c) != 0)
    && (forall c: nat :: c < MAXFILE && !Touched(c, lo, hi) ==> DataAddr(g, i, c) == DataAddr(f, i, c))
    && (NoIndirect(g, i) <==> NoIndirect(f, i) && !Far(lo, hi))
  }

  lemma DealtNone(f: Files, i: nat, lo: nat)
    requires Has(f, i)
    ensures Dealt(f, f, i, lo, lo) && Wanted(f, i, lo, lo) == 0
  {
    hide DataAddr;
    assert Holes(f, i, lo, lo) == {};
  }

  /** One more chunk touches one block. */
  lemma TouchedNext(lo: nat, at: nat, m: nat, c: nat)
    requires lo <= at && at % BSIZE + m <= BSIZE && m > 0
    ensures Touched(c, lo, at + m) <==> Touched(c, lo, at) || c == at / BSIZE
  {
  }

  lemma FarNext(lo: nat, at: nat, m: nat)
    requires lo <= at && at % BSIZE + m <= BSIZE && m > 0 && at / BSIZE < MAXFILE
    ensures Far(lo, at + m) <==> Far(lo, at) || at / BSIZE >= NDIRECT
  {
    hide Touched;
    TouchedNext(lo, at, m, at / BSIZE);
    if Far(lo, at) {
      var c: nat :| NDIRECT <= c < MAXFILE && Touched(c, lo, at);
      TouchedNext(lo, at, m, c);
    }
    if Far(lo, at + m) {
      var c: nat :| NDIRECT <= c < MAXFILE && Touched(c, lo, at + m);
      TouchedNext(lo, at, m, c);
    }
  }

  /** The next chunk takes what bmap takes for its block. */
  lemma WantedNext(f: Files, g: Files, i: nat, lo: nat, at: nat, m: nat)
    requires Dealt(f, g, i, lo, at) && lo <= at && at % BSIZE + m <= BSIZE && m > 0 && at / BSIZE < MAXFILE
    ensures Wanted(f, i, lo, at + m) == Wanted(f, i, lo, at) + Cost(g, i, at / BSIZE)
  {
    hide DataAddr, Touched, Far;
    var bn := at / BSIZE;
    FarNext(lo, at, m);
    forall c: nat ensures Touched(c, lo, at + m) <==> Touched(c, lo, at) || c == bn {
      TouchedNext(lo, at, m, c);
    }
    if Touched(bn, lo, at) || DataAddr(f, i, bn) != 0 {
      assert Holes(f, i, lo, at + m) == Holes(f, i, lo, at);
      MappedFar(f, i, bn);
      MappedFar(g, i, bn);
    } else {
      assert Holes(f, i, lo, at + m) == Holes(f, i, lo, at) + {bn} && bn !in Holes(f, i, lo, at);
    }
  }

  /** A block that is mapped through the indirect block has one. */
  lemma MappedFar(f: Files, i: nat, bn: nat)
    requires Has(f, i) && bn < MAXFILE
    ensures DataAddr(f, i, bn) != 0 && bn >= NDIRECT ==> !NoIndirect(f, i)
  {
  }

  /** bmap led from g to e. */
  lemma DealtNext(f: Files, g: Files, e: Files, i: nat, lo: nat, at: nat, m: nat)
    requires Dealt(f, g, i, lo, at) && lo <= at && at % BSIZE + m <= BSIZE && m > 0 && at / BSIZE < MAXFILE
    requires Has(e, i) && DataAddr(e, i, at / BSIZE) != 0
    requires forall c: nat :: c < MAXFILE && c != at / BSIZE ==> DataAddr(e, i, c) == DataAddr(g, i, c)
    requires NoIndirect(e, i) <==> NoIndirect(g, i) && at / BSIZE < NDIRECT
    ensures Dealt(f, e, i, lo, at + m)
  {
    hide DataAddr, Touched, Far;
    FarNext(lo, at, m);
    forall c: nat ensures Touched(c, lo, at + m) <==> Touched(c, lo, at) || c == at / BSIZE {
      TouchedNext(lo, at, m, c);
    }
  }

  lemma WantedMono(f: Files, i: nat, lo: nat, hi: nat, more: nat)
    requires Has(f, i) && hi <= more
    ensures Wanted(f, i, lo, hi) <= Wanted(f, i, lo, more)
  {
    hide DataAddr;
    assert forall c: nat :: Touched(c, lo, hi) ==> Touched(c, lo, more);
    var holes, all := Holes(f, i, lo, hi), Holes(f, i, lo, more);
    assert all == holes + (all - holes);
  }

  /** A range without holes takes nothing. */
  lemma WantedNothing(f: Files, i: nat, lo: nat, hi: nat)
    requires Has(f, i)
    ensures NoHoles(f, i, lo, hi) <==> Wanted(f, i, lo, hi) == 0
  {
    hide DataAddr, Touched;
    if NoHoles(f, i, lo, hi) {
      assert Holes(f, i, lo, hi) == {};
      if Far(lo, hi) {
        var c: nat :| NDIRECT <= c < MAXFILE && Touched(c, lo, hi);
        MappedFar(f, i, c);
      }
    } else {
      var c: nat :| c < MAXFILE && Touched(c, lo, hi) && DataAddr(f, i, c) == 0;
      assert c in Holes(f, i, lo, hi);
    }
  }

  // ---- the account of a read or write -----------------------------------------------------------------

  /** g follows f after the bytes from lo to hi. */
  ghost predicate Account(f: Files, g: Files, i: nat, lo: nat, hi: nat) {
    Dealt(f, g, i, lo, hi) && |g.own| == |f.own| + Wanted(f, i, lo, hi)
  }

  lemma AccountNext(f: Files, g: Files, e: Files, i: nat, lo: nat, at: nat, m: nat)
    requires Account(f, g, i, lo, at) && lo <= at && at % BSIZE + m <= BSIZE && m > 0 && at / BSIZE < MAXFILE
    requires Has(e, i) && DataAddr(e, i, at / BSIZE) != 0 && Extended(g, e, i, at / BSIZE)
    requires NoIndirect(e, i) <==> NoIndirect(g, i) && at / BSIZE < NDIRECT
    requires |e.own| == |g.own| + Cost(g, i, at / BSIZE)
    ensures Account(f, e, i, lo, at + m)
  {
    hide DataAddr, Dealt, Wanted, Cost, Data;
    assert Has(f, i) && Has(g, i) by { AccountHas(f, g, i, lo, at); }
    WantedNext(f, g, i, lo, at, m);
    DealtNext(f, g, e, i, lo, at, m);
  }

  lemma AccountHas(f: Files, g: Files, i: nat, lo: nat, hi: nat)
    requires Account(f, g, i, lo, hi)
    ensures Has(f, i) && Has(g, i)
  {
  }

  /** Bytes written into a mapped block change no address. */
  lemma AccountWritten(sb: Super, f: Files, e: Files, i: nat, lo: nat, hi: nat, bn: nat, data: Block)
    requires OwnOk(sb, e, NoMask) && Account(f, e, i, lo, hi) && Has(e, i) && bn < MAXFILE && 0 != DataAddr(e, i, bn) < |e.store|
    ensures Account(f, e.(store := e.store[DataAddr(e, i, bn) := data]), i, lo, hi)
  {
    hide DataAddr, OwnOk, Touched, Wanted, Data;
    var h := e.(store := e.store[DataAddr(e, i, bn) := data]);
    forall c: nat | c < MAXFILE ensures Has(h, i) && DataAddr(h, i, c) == DataAddr(e, i, c) {
      DataWriteData(sb, e, i, bn, data, i, c);
    }
    assert Has(h, i);
  }

  /** bmap has failed: there were too few free blocks. */
  lemma AccountShort(f: Files, g: Files, i: nat, lo: nat, at: nat, m: nat, hi: nat, room: int)
    requires Account(f, g, i, lo, at) && lo <= at && at % BSIZE + m <= BSIZE && m > 0 && at / BSIZE < MAXFILE && at + m <= hi
    requires Has(g, i) && room - |g.own| < Cost(g, i, at / BSIZE)
    ensures Has(f, i) && room - |f.own| < Wanted(f, i, lo, hi)
  {
    hide DataAddr, Dealt, Wanted, Cost;
    AccountHas(f, g, i, lo, at);
    WantedNext(f, g, i, lo, at, m);
    WantedMono(f, i, lo, at + m, hi);
  }
}
