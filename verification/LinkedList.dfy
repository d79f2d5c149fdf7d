/** The intrusive doubly linked list of list.c: elements with prev and next fields, rewired in place. */
module LinkedList {
  import opened Wrappers
  import opened ListOrder

  class Elem {
    var prev: Elem?
    var next: Elem?

    constructor ()
      ensures prev == null && next == null
    {
      prev, next := null, null;
    }
  }

  /** n is a chain: both link directions agree with the sequence. */
  ghost predicate Linked(n: seq<Elem>)
    reads n
  {
    && Distinct(n)
    && (forall i {:trigger n[i].next} :: 0 <= i < |n| - 1 ==> n[i].next == n[i + 1])
    && (forall i {:trigger n[i].prev} :: 1 <= i < |n| ==> n[i].prev == n[i - 1])
  }

  function Inserted<T>(n: seq<T>, k: nat, x: T): seq<T>
    requires k <= |n|
  {
    n[..k] + [x] + n[k..]
  }

  function Removed<T>(n: seq<T>, j: nat, k: nat): seq<T>
    requires j <= k <= |n|
  {
    n[..j] + n[k..]
  }

  function Pasted<T>(n: seq<T>, i: nat, s: seq<T>): seq<T>
    requires i <= |n|
  {
    n[..i] + s + n[i..]
  }

  /** list_insert: elem goes just before the element at index k. */
  method Insert(before: Elem, elem: Elem, ghost n: seq<Elem>, ghost k: nat)
    requires Linked(n) && 1 <= k < |n| && n[k] == before && elem !in n
    modifies n[k - 1], before, elem
    ensures Linked(Inserted(n, k, elem))
    ensures n[k - 1].prev == old(n[k - 1].prev) && before.next == old(before.next)
  {
    elem.prev := before.prev;
    elem.next := before;
    before.prev.next := elem;
    before.prev := elem;
  }

  /** list_remove: returns the element that followed. */
  method Remove(elem: Elem, ghost n: seq<Elem>, ghost k: nat) returns (after: Elem)
    requires Linked(n) && 1 <= k < |n| - 1 && n[k] == elem
    modifies n[k - 1], n[k + 1]
    ensures Linked(Removed(n, k, k + 1)) && after == n[k + 1]
    ensures n[k - 1].prev == old(n[k - 1].prev) && after.next == old(after.next)
  {
    elem.prev.next := elem.next;
    elem.next.prev := elem.prev;
    return elem.next;
  }

  ghost predicate Apart<T>(s: seq<T>, t: seq<T>) {
    forall i, j :: 0 <= i < |s| && 0 <= j < |t| ==> s[i] != t[j]
  }

  /** The first half of list_splice: n[j..k] leaves its list and stays linked itself. */
  method Cut(first: Elem, end: Elem, ghost n: seq<Elem>, ghost j: nat, ghost k: nat)
    requires Linked(n) && 1 <= j < k < |n| && n[j] == first && n[k - 1] == end
    modifies n[j - 1], n[k]
    ensures Linked(Removed(n, j, k)) && Linked(n[j..k])
    ensures n[j - 1].prev == old(n[j - 1].prev) && n[k].next == old(n[k].next)
  {
    first.prev.next := end.next;
    end.next.prev := first.prev;
  }

  /** The second half: the chain s goes in before the element at index i of d. */
  method Paste(before: Elem, first: Elem, end: Elem, ghost d: seq<Elem>, ghost i: nat, ghost s: seq<Elem>)
    requires Linked(d) && 1 <= i < |d| && d[i] == before
    requires Linked(s) && s != [] && s[0] == first && s[|s| - 1] == end && Apart(d, s)
    modifies d[i - 1], before, first, end
    ensures Linked(Pasted(d, i, s))
    ensures d[i - 1].prev == old(d[i - 1].prev) && before.next == old(before.next)
  {
    PastedDistinct(d, i, s);
    assert 0 <= i - 1 < |d| && d[i - 1] == before.prev;
    first.prev := before.prev;
    end.next := before;
    before.prev.next := first;
    before.prev := end;
    PastedLinked(d, i, s);
  }

  lemma PastedDistinct<T>(d: seq<T>, i: nat, s: seq<T>)
    requires Distinct(d) && Distinct(s) && Apart(d, s) && i <= |d|
    ensures Distinct(Pasted(d, i, s))
  {
  }

  /** Two chains joined at both seams are one chain. */
  lemma PastedLinked(d: seq<Elem>, i: nat, s: seq<Elem>)
    requires 1 <= i < |d| && s != [] && Distinct(Pasted(d, i, s))
    requires forall x {:trigger d[x].next} :: 0 <= x < |d| - 1 && x != i - 1 ==> d[x].next == d[x + 1]
    requires forall x {:trigger d[x].prev} :: 1 <= x < |d| && x != i ==> d[x].prev == d[x - 1]
    requires forall x {:trigger s[x].next} :: 0 <= x < |s| - 1 ==> s[x].next == s[x + 1]
    requires forall x {:trigger s[x].prev} :: 1 <= x < |s| ==> s[x].prev == s[x - 1]
    requires d[i - 1].next == s[0] && s[0].prev == d[i - 1] && s[|s| - 1].next == d[i] && d[i].prev == s[|s| - 1]
    ensures Linked(Pasted(d, i, s))
  {
    hide Distinct;
    ghost var r, m := Pasted(d, i, s), |s|;
    assert forall x :: 0 <= x < i ==> r[x] == d[x];
    assert forall x :: i <= x < i + m ==> r[x] == s[x - i];
    assert forall x :: i + m <= x < |r| ==> r[x] == d[x - m];
  }

  /** list_splice: the range first .. last, which is n[j..k], goes before d[i], where d is what is
      left of the same list, or another list. An empty range changes nothing. */
  method Splice(before: Elem, first: Elem, last: Elem, ghost n: seq<Elem>, ghost j: nat, ghost k: nat,
                ghost d: seq<Elem>, ghost i: nat)
    requires Linked(n) && 1 <= j <= k < |n| && n[j] == first && n[k] == last
    requires 1 <= i < |d| && d[i] == before
    requires d == Removed(n, j, k) || (Linked(d) && Apart(n, d))
    modifies n[j - 1], first, n[k - 1], last, d[i - 1], before
    ensures d == Removed(n, j, k) || Linked(Removed(n, j, k))
    ensures Linked(Pasted(d, i, n[j..k]))
    ensures n[0].prev == old(n[0].prev) && n[|n| - 1].next == old(n[|n| - 1].next)
    ensures d[0].prev == old(d[0].prev) && d[|d| - 1].next == old(d[|d| - 1].next)
  {
    if first == last {
      assert j == k && Removed(n, j, k) == n;
      assert Pasted(d, i, []) == d;
      return;
    }
    var end := last.prev;
    Cut(first, end, n, j, k);
    Paste(before, first, end, d, i, n[j..k]);
  }
}
