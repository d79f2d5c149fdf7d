/** Whose bytes stand where in a stream that several processes write, or read. */
module ByteOwners {

  function Repeat(p: nat, n: int): seq<nat> { if n <= 0 then [] else seq(n, _ => p) }

  /** The bytes from position since on that are p's, in order. */
  function Mine(bytes: seq<int>, who: seq<nat>, p: nat, since: nat): (r: seq<int>)
    requires |who| == |bytes|
    decreases |bytes|
  {
    if |bytes| <= since then []
    else
      var n := |bytes| - 1;
      Mine(bytes[..n], who[..n], p, since) + if who[n] == p then [bytes[n]] else []
  }

  lemma MineNext(bytes: seq<int>, who: seq<nat>, p: nat, since: nat, b: int, q: nat)
    requires |who| == |bytes| && since <= |bytes|
    ensures Mine(bytes + [b], who + [q], p, since) == Mine(bytes, who, p, since) + if q == p then [b] else []
  {
    assert (bytes + [b])[..|bytes|] == bytes && (who + [q])[..|who|] == who;
  }

  /** q is the last bytes of all. */
  predicate Tail(q: seq<int>, all: seq<int>) { |q| <= |all| && q == all[|all| - |q|..] }

  lemma RepeatOne(p: nat)
    ensures Repeat(p, 0) == [] && Repeat(p, 1) == [p]
  {
  }
}
