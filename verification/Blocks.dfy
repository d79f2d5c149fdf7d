/** Disk blocks as byte sequences, and the 32-bit little-endian words stored in them. */
module Blocks {

  const BSIZE: nat := 512
  const WORDS: nat := 128
  const WORD_LIMIT: nat := 0x1_0000_0000

  type Byte = x: int | 0 <= x < 256
  type Block = b: seq<Byte> | |b| == BSIZE witness seq(BSIZE, _ => 0)

  function Compose(b0: int, b1: int, b2: int, b3: int): int {
    b0 + 256 * b1 + 65536 * b2 + 16777216 * b3
  }

  lemma ComposeDigits(v: nat)
    requires v < WORD_LIMIT
    ensures 0 <= v / 16777216 < 256
    ensures Compose(v % 256, v / 256 % 256, v / 65536 % 256, v / 16777216) == v
  {
    var q := v / 256;
    var t := q / 256;
    assert v / 65536 == t && v / 16777216 == t / 256;
  }

  /** The unsigned int at word index i of a block. */
  function Word(b: Block, i: nat): (w: nat)
    requires i < WORDS
    ensures w < WORD_LIMIT
  {
    Compose(b[4 * i], b[4 * i + 1], b[4 * i + 2], b[4 * i + 3])
  }

  /** Storing an unsigned int changes exactly one word. */
  function SetWord(b: Block, i: nat, v: nat): (r: Block)
    requires i < WORDS && v < WORD_LIMIT
    ensures Word(r, i) == v
    ensures forall j: nat :: j < WORDS && j != i ==> Word(r, j) == Word(b, j)
  {
    ComposeDigits(v);
    b[..4 * i] + [v % 256, v / 256 % 256, v / 65536 % 256, v / 16777216] + b[4 * i + 4..]
  }

  /** Storing consecutive words from index i on. */
  function SetWords(b: Block, i: nat, vs: seq<nat>): (r: Block)
    requires i + |vs| <= WORDS
    requires forall k :: 0 <= k < |vs| ==> vs[k] < WORD_LIMIT
    ensures forall j: nat :: j < WORDS ==> Word(r, j) == if i <= j < i + |vs| then vs[j - i] else Word(b, j)
    decreases |vs|
  {
    if vs == [] then b else SetWords(SetWord(b, i, vs[0]), i + 1, vs[1..])
  }
}
