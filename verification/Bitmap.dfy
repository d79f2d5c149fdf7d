/** Bits inside bytes inside blocks: the free map of fs.c. */
module Bitmap {
  import opened Blocks

  const BPB: nat := 4096    // BSIZE * 8

  /** Bit k of a number: x & (1 << k). */
  predicate NumBit(x: nat, k: nat)
    decreases k
  {
    if k == 0 then x % 2 == 1 else NumBit(x / 2, k - 1)
  }

  /** x | (1 << k). */
  function Or(x: nat, k: nat): (r: nat)
    ensures forall j: nat :: NumBit(r, j) <==> j == k || NumBit(x, j)
    decreases k
  {
    if k == 0 then
      var r := x / 2 * 2 + 1;
      assert r / 2 == x / 2;
      assert forall j: nat :: j > 0 ==> (NumBit(r, j) <==> NumBit(r / 2, j - 1));
      r
    else
      var h := Or(x / 2, k - 1);
      var r := h * 2 + x % 2;
      assert r / 2 == h && r % 2 == x % 2;
      assert forall j: nat :: j > 0 ==> (NumBit(r, j) <==> NumBit(h, j - 1));
      r
  }

  /** x & ~(1 << k). */
  function AndNot(x: nat, k: nat): (r: nat)
    ensures forall j: nat :: NumBit(r, j) <==> j != k && NumBit(x, j)
    decreases k
  {
    if k == 0 then
      var r := x / 2 * 2;
      assert r / 2 == x / 2;
      assert forall j: nat :: j > 0 ==> (NumBit(r, j) <==> NumBit(r / 2, j - 1));
      r
    else
      var h := AndNot(x / 2, k - 1);
      var r := h * 2 + x % 2;
      assert r / 2 == h && r % 2 == x % 2;
      assert forall j: nat :: j > 0 ==> (NumBit(r, j) <==> NumBit(h, j - 1));
      r
  }

  /** Both stay within a number of bits that already holds bit k. */
  lemma {:induction false} OrBound(x: nat, k: nat, n: nat, limit: nat)
    requires k < n && limit == Exp2(n) && x < limit
    ensures Or(x, k) < limit && AndNot(x, k) < limit
    decreases k
  {
    hide NumBit;
    var half := Exp2(n - 1);
    assert limit == 2 * half;
    if k == 0 {
      assert Or(x, 0) == x / 2 * 2 + 1 && AndNot(x, 0) == x / 2 * 2;
    } else {
      OrBound(x / 2, k - 1, n - 1, half);
      assert Or(x, k) == Or(x / 2, k - 1) * 2 + x % 2;
      assert AndNot(x, k) == AndNot(x / 2, k - 1) * 2 + x % 2;
    }
  }

  function Exp2(n: nat): nat { if n == 0 then 1 else 2 * Exp2(n - 1) }

  lemma ByteBound(x: Byte, k: nat)
    requires k < 8
    ensures Or(x, k) < 256 && AndNot(x, k) < 256
  {
    assert Exp2(8) == 2 * Exp2(7) == 4 * Exp2(6) == 8 * Exp2(5) == 16 * Exp2(4) == 32 * Exp2(3) == 64 * Exp2(2) == 256;
    OrBound(x, k, 8, 256);
  }

  predicate Bit(b: Block, bi: nat)
    requires bi < BPB
  {
    NumBit(b[bi / 8], bi % 8)
  }

  function SetBit(b: Block, bi: nat): (r: Block)
    requires bi < BPB
    ensures forall j: nat :: j < BPB ==> (Bit(r, j) <==> j == bi || Bit(b, j))
  {
    ByteBound(b[bi / 8], bi % 8);
    b[bi / 8 := Or(b[bi / 8], bi % 8)]
  }

  function ClearBit(b: Block, bi: nat): (r: Block)
    requires bi < BPB
    ensures forall j: nat :: j < BPB ==> (Bit(r, j) <==> j != bi && Bit(b, j))
  {
    ByteBound(b[bi / 8], bi % 8);
    b[bi / 8 := AndNot(b[bi / 8], bi % 8)]
  }
}
