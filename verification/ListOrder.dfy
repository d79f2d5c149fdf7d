/** The natural merge sort of list.c on sequences: runs, merging, one pass, and why it ends. */
module ListOrder {

  /** The order that a list_less_func has to describe, on the elements in dom. */
  ghost predicate StrictWeakOrder<T>(less: (T, T) -> bool, dom: set<T>) {
    && (forall a, b :: a in dom && b in dom && less(a, b) ==> !less(b, a))
    && (forall a, b, c :: a in dom && b in dom && c in dom && less(a, c) ==> less(a, b) || less(b, c))
  }

  predicate Within<T(==)>(s: seq<T>, dom: set<T>) {
    forall i :: 0 <= i < |s| ==> s[i] in dom
  }

  /** No element is smaller than its predecessor. */
  predicate Ascending<T>(less: (T, T) -> bool, s: seq<T>) {
    forall i :: 0 < i < |s| ==> !less(s[i], s[i - 1])
  }

  /** No element is smaller than any earlier one. */
  predicate Sorted<T>(less: (T, T) -> bool, s: seq<T>) {
    forall i, j :: 0 <= i < j < |s| ==> !less(s[j], s[i])
  }

  predicate Alike<T>(less: (T, T) -> bool, a: T, b: T) {
    !less(a, b) && !less(b, a)
  }

  /** The elements of s that the order does not tell from x, in order. */
  function Class<T>(less: (T, T) -> bool, x: T, s: seq<T>): seq<T> {
    if s == [] then []
    else if Alike(less, x, s[0]) then [s[0]] + Class(less, x, s[1..])
    else Class(less, x, s[1..])
  }

  /** t rearranges s and keeps elements that compare alike in their order. */
  ghost predicate StableRearrangement<T>(less: (T, T) -> bool, s: seq<T>, t: seq<T>) {
    && multiset(s) == multiset(t)
    && forall x :: x in s ==> Class(less, x, s) == Class(less, x, t)
  }

  // ---- the order ---------------------------------------------------------------------------

  lemma {:induction false} AscendingBelow<T>(less: (T, T) -> bool, dom: set<T>, s: seq<T>, i: nat, j: nat)
    requires StrictWeakOrder(less, dom) && Within(s, dom) && Ascending(less, s)
    requires i < j < |s|
    ensures !less(s[j], s[i])
    decreases j
  {
    if i < j - 1 {
      AscendingBelow(less, dom, s, i, j - 1);
    }
  }

  /** Comparing neighbours is enough. */
  lemma AscendingIsSorted<T>(less: (T, T) -> bool, dom: set<T>, s: seq<T>)
    requires StrictWeakOrder(less, dom) && Within(s, dom)
    ensures Ascending(less, s) <==> Sorted(less, s)
  {
    if Ascending(less, s) {
      forall i, j | 0 <= i < j < |s| ensures !less(s[j], s[i]) {
        AscendingBelow(less, dom, s, i, j);
      }
    }
  }

  lemma {:induction false} ClassConcat<T>(less: (T, T) -> bool, x: T, s: seq<T>, t: seq<T>)
    ensures Class(less, x, s + t) == Class(less, x, s) + Class(less, x, t)
  {
    if s == [] {
      assert s + t == t;
    } else {
      assert (s + t)[1..] == s[1..] + t;
      ClassConcat(less, x, s[1..], t);
    }
  }

  lemma {:induction false} ClassNone<T>(less: (T, T) -> bool, x: T, s: seq<T>)
    requires forall i :: 0 <= i < |s| ==> !Alike(less, x, s[i])
    ensures Class(less, x, s) == []
  {
    if s != [] {
      ClassNone(less, x, s[1..]);
    }
  }

  // ---- merging ------------------------------------------------------------------------------

  /** What inplace_merge leaves of two adjacent runs; it stops when either is used up. */
  function Merge<T>(less: (T, T) -> bool, a: seq<T>, b: seq<T>): (r: seq<T>)
    ensures |r| == |a| + |b|
    decreases |a| + |b|
  {
    if a == [] || b == [] then a + b
    else if !less(b[0], a[0]) then [a[0]] + Merge(less, a[1..], b)
    else [b[0]] + Merge(less, a, b[1..])
  }

  lemma FrontContents<T>(s: seq<T>)
    requires s != []
    ensures multiset(s) == multiset{s[0]} + multiset(s[1..])
  {
    assert s == [s[0]] + s[1..];
  }

  lemma {:induction false} MergeContents<T>(less: (T, T) -> bool, a: seq<T>, b: seq<T>)
    ensures multiset(Merge(less, a, b)) == multiset(a) + multiset(b)
    decreases |a| + |b|
  {
    if a == [] || b == [] {
    } else if !less(b[0], a[0]) {
      MergeContents(less, a[1..], b);
      FrontContents(a);
      assert multiset(Merge(less, a, b)) == multiset{a[0]} + multiset(Merge(less, a[1..], b));
    } else {
      MergeContents(less, a, b[1..]);
      FrontContents(b);
      assert multiset(Merge(less, a, b)) == multiset{b[0]} + multiset(Merge(less, a, b[1..]));
    }
  }

  lemma MergeWithin<T>(less: (T, T) -> bool, a: seq<T>, b: seq<T>, dom: set<T>)
    requires Within(a, dom) && Within(b, dom)
    ensures Within(Merge(less, a, b), dom)
  {
    MergeContents(less, a, b);
    var r := Merge(less, a, b);
    forall i | 0 <= i < |r| ensures r[i] in dom {
      assert r[i] in multiset(r);
    }
  }

  /** An element below the first of a sorted sequence differs from all of it. */
  lemma BelowAll<T>(less: (T, T) -> bool, dom: set<T>, x: T, a: seq<T>, y: T)
    requires StrictWeakOrder(less, dom) && Within(a, dom) && x in dom && y in dom
    requires Sorted(less, a) && a != [] && less(x, a[0]) && Alike(less, y, x)
    ensures forall i :: 0 <= i < |a| ==> !Alike(less, y, a[i])
  {
    forall i | 0 <= i < |a| ensures !Alike(less, y, a[i]) {
      assert !less(a[i], a[0]);
    }
  }

  /** Merging takes elements of a before elements of b that compare alike. */
  lemma {:induction false} MergeStable<T>(less: (T, T) -> bool, dom: set<T>, a: seq<T>, b: seq<T>, x: T)
    requires StrictWeakOrder(less, dom) && Within(a, dom) && Within(b, dom) && x in dom
    requires Sorted(less, a)
    ensures Class(less, x, Merge(less, a, b)) == Class(less, x, a) + Class(less, x, b)
    decreases |a| + |b|
  {
    if a == [] || b == [] {
      ClassConcat(less, x, a, b);
    } else if !less(b[0], a[0]) {
      MergeStable(less, dom, a[1..], b, x);
      ClassHead(less, x, a[0], Merge(less, a[1..], b));
    } else {
      MergeStable(less, dom, a, b[1..], x);
      ClassHead(less, x, b[0], Merge(less, a, b[1..]));
      if Alike(less, x, b[0]) {
        BelowAll(less, dom, b[0], a, x);
        ClassNone(less, x, a);
      }
    }
  }

  lemma ClassHead<T>(less: (T, T) -> bool, x: T, y: T, s: seq<T>)
    ensures Class(less, x, [y] + s) == if Alike(less, x, y) then [y] + Class(less, x, s) else Class(less, x, s)
  {
    assert ([y] + s)[1..] == s;
  }

  /** y is not above anything in s. */
  predicate AtMost<T>(less: (T, T) -> bool, y: T, s: seq<T>) {
    forall i :: 0 <= i < |s| ==> !less(s[i], y)
  }

  lemma SortedCons<T>(less: (T, T) -> bool, y: T, s: seq<T>)
    requires Sorted(less, s) && AtMost(less, y, s)
    ensures Sorted(less, [y] + s)
  {
  }

  lemma AtMostMerge<T>(less: (T, T) -> bool, y: T, a: seq<T>, b: seq<T>)
    requires AtMost(less, y, a) && AtMost(less, y, b)
    ensures AtMost(less, y, Merge(less, a, b))
  {
    MergeContents(less, a, b);
    var r := Merge(less, a, b);
    forall i | 0 <= i < |r| ensures !less(r[i], y) {
      assert r[i] in multiset(r);
      assert r[i] in a || r[i] in b;
    }
  }

  /** y is below the first of a sorted sequence or alike to it, hence not above any of it. */
  lemma AtMostSorted<T>(less: (T, T) -> bool, dom: set<T>, y: T, s: seq<T>)
    requires StrictWeakOrder(less, dom) && Within(s, dom) && y in dom && Sorted(less, s)
    requires s != [] ==> !less(s[0], y)
    ensures AtMost(less, y, s)
  {
    forall i | 0 <= i < |s| ensures !less(s[i], y) {
      if i > 0 {
        assert !less(s[i], s[0]);
      }
    }
  }

  lemma {:induction false} MergeSorted<T>(less: (T, T) -> bool, dom: set<T>, a: seq<T>, b: seq<T>)
    requires StrictWeakOrder(less, dom) && Within(a, dom) && Within(b, dom)
    requires Sorted(less, a) && Sorted(less, b)
    ensures Sorted(less, Merge(less, a, b))
    decreases |a| + |b|
  {
    if a == [] || b == [] {
    } else if !less(b[0], a[0]) {
      MergeSorted(less, dom, a[1..], b);
      AtMostSorted(less, dom, a[0], a[1..]);
      AtMostSorted(less, dom, a[0], b);
      AtMostMerge(less, a[0], a[1..], b);
      SortedCons(less, a[0], Merge(less, a[1..], b));
    } else {
      MergeSorted(less, dom, a, b[1..]);
      AtMostSorted(less, dom, b[0], a);
      AtMostSorted(less, dom, b[0], b[1..]);
      AtMostMerge(less, b[0], a, b[1..]);
      SortedCons(less, b[0], Merge(less, a, b[1..]));
    }
  }

  // ---- runs -----------------------------------------------------------------------------------

  /** s[i..j] ascends. */
  predicate RunAt<T>(less: (T, T) -> bool, s: seq<T>, i: nat, j: nat)
    requires j <= |s|
  {
    forall k :: i < k < j ==> !less(s[k], s[k - 1])
  }

  /** The exclusive end of the run that starts at i: it cannot be made longer. */
  function RunEnd<T>(less: (T, T) -> bool, s: seq<T>, i: nat): (j: nat)
    requires i < |s|
    ensures i < j <= |s| && RunAt(less, s, i, j)
    ensures j < |s| ==> less(s[j], s[j - 1])
    decreases |s| - i
  {
    if i + 1 == |s| || less(s[i + 1], s[i]) then i + 1 else RunEnd(less, s, i + 1)
  }

  /** The number of maximal runs. */
  function Runs<T>(less: (T, T) -> bool, s: seq<T>): (r: nat)
    ensures s != [] ==> 1 <= r
  {
    if s == [] then 0
    else if |s| == 1 then 1
    else Runs(less, s[1..]) + if less(s[1], s[0]) then 1 else 0
  }

  lemma {:induction false} RunsSplit<T>(less: (T, T) -> bool, s: seq<T>, t: seq<T>)
    requires s != [] && t != []
    ensures Runs(less, s + t) == Runs(less, s) + Runs(less, t) - if less(t[0], s[|s| - 1]) then 0 else 1
    decreases |s|
  {
    assert (s + t)[1..] == s[1..] + t;
    if |s| > 1 {
      RunsSplit(less, s[1..], t);
    } else {
      assert s[1..] + t == t;
    }
  }

  lemma {:induction false} OneRun<T>(less: (T, T) -> bool, s: seq<T>)
    ensures s != [] ==> (Runs(less, s) == 1 <==> Ascending(less, s))
  {
    if |s| > 1 {
      OneRun(less, s[1..]);
      assert Ascending(less, s) ==> Ascending(less, s[1..]);
      assert Ascending(less, s[1..]) && !less(s[1], s[0]) ==> Ascending(less, s) by {
        forall i | 1 < i < |s| && Ascending(less, s[1..]) ensures !less(s[i], s[i - 1]) {
          assert s[i] == s[1..][i - 1] && s[i - 1] == s[1..][i - 2];
        }
      }
    }
  }

  // ---- one pass ---------------------------------------------------------------------------------

  /** What one pass of list_sort leaves: neighbouring runs merged two by two. */
  function Pass<T>(less: (T, T) -> bool, s: seq<T>): (r: seq<T>)
    ensures |r| == |s|
    decreases |s|
  {
    if s == [] then []
    else
      var i := RunEnd(less, s, 0);
      if i == |s| then s
      else
        var j := RunEnd(less, s, i);
        Merge(less, s[..i], s[i..j]) + Pass(less, s[j..])
  }

  /** output_run_cnt after the pass. */
  function PassCount<T>(less: (T, T) -> bool, s: seq<T>): nat
    decreases |s|
  {
    if s == [] then 0
    else
      var i := RunEnd(less, s, 0);
      if i == |s| then 1 else 1 + PassCount(less, s[RunEnd(less, s, i)..])
  }

  /** Pass, said with the two run ends it meets first. */
  lemma PassUnfold<T>(less: (T, T) -> bool, s: seq<T>, p: nat, q: nat)
    requires p < q <= |s| && RunEnd(less, s, 0) == p && RunEnd(less, s[p..], 0) == q - p
    ensures Pass(less, s) == Merge(less, s[..p], s[p..q]) + Pass(less, s[q..])
    ensures PassCount(less, s) == 1 + PassCount(less, s[q..])
  {
    hide RunEnd, RunAt, Merge;
    RunEndShift(less, s, p);
  }

  lemma RunIsSorted<T>(less: (T, T) -> bool, dom: set<T>, s: seq<T>, i: nat)
    requires StrictWeakOrder(less, dom) && Within(s, dom) && i < |s|
    ensures Sorted(less, s[i..RunEnd(less, s, i)]) && Within(s[i..RunEnd(less, s, i)], dom)
  {
    var j := RunEnd(less, s, i);
    forall k | 0 < k < |s[i..j]| ensures !less(s[i..j][k], s[i..j][k - 1]) {
      assert s[i..j][k] == s[i + k] && s[i..j][k - 1] == s[i + k - 1];
    }
    AscendingIsSorted(less, dom, s[i..j]);
  }

  /** A run taken off the front takes exactly one from the run count. */
  lemma RunsAfterRun<T>(less: (T, T) -> bool, s: seq<T>)
    requires s != []
    ensures Runs(less, s) == 1 + Runs(less, s[RunEnd(less, s, 0)..])
  {
    var i := RunEnd(less, s, 0);
    var a, b := s[..i], s[i..];
    assert s == a + b;
    assert Ascending(less, a);
    OneRun(less, a);
    if b != [] {
      RunsSplit(less, a, b);
    } else {
      assert a == s;
    }
  }

  lemma NoRuns<T>(less: (T, T) -> bool)
    ensures Runs(less, []) == 0 && PassCount(less, []) == 0
  {
  }

  lemma PassCountUnfold<T>(less: (T, T) -> bool, s: seq<T>, i: nat)
    requires s != [] && i == RunEnd(less, s, 0)
    ensures i == |s| ==> PassCount(less, s) == 1
    ensures i < |s| ==> PassCount(less, s) == 1 + PassCount(less, s[RunEnd(less, s, i)..])
  {
    hide RunEnd, RunAt;
  }

  /** The runs are halved, rounding up. */
  lemma {:induction false} PassCountHalves<T>(less: (T, T) -> bool, s: seq<T>)
    ensures PassCount(less, s) == (Runs(less, s) + 1) / 2
    decreases |s|
  {
    hide RunEnd, RunAt, Runs, PassCount;
    NoRuns(less);
    if s != [] {
      var i := RunEnd(less, s, 0);
      RunsAfterRun(less, s);
      PassCountUnfold(less, s, i);
      if i < |s| {
        var j := RunEnd(less, s, i);
        RunEndShift(less, s, i);
        RunsAfterRun(less, s[i..]);
        assert s[i..][j - i..] == s[j..];
        PassCountHalves(less, s[j..]);
      } else {
        assert s[i..] == [];
      }
    }
  }

  lemma {:induction false} RunEndShift<T>(less: (T, T) -> bool, s: seq<T>, i: nat)
    requires i < |s|
    ensures RunEnd(less, s[i..], 0) == RunEnd(less, s, i) - i
  {
    RunEndShiftFrom(less, s, i, 0);
  }

  lemma {:induction false} RunEndShiftFrom<T>(less: (T, T) -> bool, s: seq<T>, i: nat, k: nat)
    requires i + k < |s|
    ensures RunEnd(less, s[i..], k) == RunEnd(less, s, i + k) - i
    decreases |s| - k
  {
    assert s[i..][k] == s[i + k];
    if i + k + 1 < |s| {
      assert s[i..][k + 1] == s[i + k + 1];
      if !less(s[i + k + 1], s[i + k]) {
        RunEndShiftFrom(less, s, i, k + 1);
      }
    }
  }

  lemma {:induction false} PassContents<T>(less: (T, T) -> bool, s: seq<T>)
    ensures multiset(Pass(less, s)) == multiset(s)
    decreases |s|
  {
    hide RunEnd, Merge;
    if s != [] {
      var i := RunEnd(less, s, 0);
      if i < |s| {
        var j := RunEnd(less, s, i);
        var a, b, c := s[..i], s[i..j], s[j..];
        assert s == a + b + c;
        MergeContents(less, a, b);
        PassContents(less, c);
        assert Pass(less, s) == Merge(less, a, b) + Pass(less, c);
      }
    }
  }

  lemma {:induction false} PassClass<T>(less: (T, T) -> bool, dom: set<T>, s: seq<T>, x: T)
    requires StrictWeakOrder(less, dom) && Within(s, dom) && x in dom
    ensures Class(less, x, Pass(less, s)) == Class(less, x, s)
    decreases |s|
  {
    hide RunEnd, Merge, Class, StrictWeakOrder, Sorted;
    if s != [] {
      var i := RunEnd(less, s, 0);
      if i < |s| {
        var j := RunEnd(less, s, i);
        var a, b, c := s[..i], s[i..j], s[j..];
        RunIsSorted(less, dom, s, 0);
        assert s[0..i] == a && s == a + b + c;
        assert Pass(less, s) == Merge(less, a, b) + Pass(less, c);
        MergeStable(less, dom, a, b, x);
        PassClass(less, dom, c, x);
        ClassConcat(less, x, Merge(less, a, b), Pass(less, c));
        ClassConcat(less, x, a, b);
        ClassConcat(less, x, a + b, c);
      }
    }
  }

  /** One pass keeps the elements, and the order of those that compare alike. */
  lemma PassStable<T>(less: (T, T) -> bool, s: seq<T>, dom: set<T>)
    requires StrictWeakOrder(less, dom) && Within(s, dom)
    ensures StableRearrangement(less, s, Pass(less, s)) && Within(Pass(less, s), dom)
  {
    PassContents(less, s);
    forall x | x in s ensures Class(less, x, s) == Class(less, x, Pass(less, s)) {
      PassClass(less, dom, s, x);
    }
    forall i | 0 <= i < |s| ensures Pass(less, s)[i] in dom {
      assert Pass(less, s)[i] in multiset(Pass(less, s));
    }
  }

  lemma StableTrans<T>(less: (T, T) -> bool, s: seq<T>, t: seq<T>, u: seq<T>)
    requires StableRearrangement(less, s, t) && StableRearrangement(less, t, u)
    ensures StableRearrangement(less, s, u)
  {
    forall x | x in s ensures x in t {
      assert x in multiset(s);
    }
  }

  /** A pass leaves no more runs than it counted. */
  lemma {:induction false} PassRuns<T>(less: (T, T) -> bool, dom: set<T>, s: seq<T>)
    requires StrictWeakOrder(less, dom) && Within(s, dom)
    ensures Runs(less, Pass(less, s)) <= PassCount(less, s)
    decreases |s|
  {
    if s != [] {
      var i := RunEnd(less, s, 0);
      if i == |s| {
        RunsAfterRun(less, s);
      } else {
        var j := RunEnd(less, s, i);
        var a, b := s[..i], s[i..j];
        RunIsSorted(less, dom, s, 0);
        RunIsSorted(less, dom, s, i);
        assert s[0..i] == a;
        MergeSorted(less, dom, a, b);
        var m, rest := Merge(less, a, b), Pass(less, s[j..]);
        MergeWithin(less, a, b, dom);
        AscendingIsSorted(less, dom, m);
        OneRun(less, m);
        PassRuns(less, dom, s[j..]);
        if rest == [] {
          assert m + rest == m;
        } else {
          RunsSplit(less, m, rest);
        }
      }
    }
  }

  /** A pass that counted at most one run has sorted the list. */
  lemma LastPassSorts<T>(less: (T, T) -> bool, dom: set<T>, s: seq<T>)
    requires StrictWeakOrder(less, dom) && Within(s, dom) && PassCount(less, s) <= 1
    ensures Sorted(less, Pass(less, s))
  {
    PassRuns(less, dom, s);
    PassStable(less, s, dom);
    OneRun(less, Pass(less, s));
    AscendingIsSorted(less, dom, Pass(less, s));
  }

  // ---- how many passes ---------------------------------------------------------------------------

  function Pow2(k: nat): nat {
    if k == 0 then 1 else 2 * Pow2(k - 1)
  }

  /** With at most 2^k runs, what one pass leaves has at most 2^(k-1), and a pass over at most two
      runs is the last. */
  lemma PassHalvesBound<T>(less: (T, T) -> bool, dom: set<T>, s: seq<T>, k: nat)
    requires StrictWeakOrder(less, dom) && Within(s, dom)
    requires 1 <= k && Runs(less, s) <= Pow2(k)
    ensures PassCount(less, s) <= Pow2(k - 1) && Runs(less, Pass(less, s)) <= Pow2(k - 1)
  {
    PassCountHalves(less, s);
    PassRuns(less, dom, s);
  }

  /** What holds after every pass of list_sort over the list that was was, with its run count. */
  ghost predicate AfterPass<T>(less: (T, T) -> bool, was: seq<T>, now: seq<T>, passes: nat, count: nat) {
    && StableRearrangement(less, was, now)
    && Runs(less, now) <= count
    && (count <= 1 ==> Sorted(less, now))
    && forall k: nat :: 1 <= k && Runs(less, was) <= Pow2(k) ==> passes <= k && count <= Pow2(k - passes)
  }

  lemma FirstPass<T>(less: (T, T) -> bool, dom: set<T>, was: seq<T>)
    requires StrictWeakOrder(less, dom) && Within(was, dom)
    ensures AfterPass(less, was, Pass(less, was), 1, PassCount(less, was)) && Within(Pass(less, was), dom)
  {
    hide Class, Runs, Sorted, Ascending, Pow2, PassCount, Pass;
    PassStable(less, was, dom);
    PassRuns(less, dom, was);
    if PassCount(less, was) <= 1 {
      LastPassSorts(less, dom, was);
    }
    forall k: nat | 1 <= k && Runs(less, was) <= Pow2(k) ensures PassCount(less, was) <= Pow2(k - 1) {
      PassHalvesBound(less, dom, was, k);
    }
  }

  lemma NextPass<T>(less: (T, T) -> bool, dom: set<T>, was: seq<T>, now: seq<T>, passes: nat, count: nat)
    requires StrictWeakOrder(less, dom) && Within(now, dom)
    requires AfterPass(less, was, now, passes, count) && count > 1
    ensures AfterPass(less, was, Pass(less, now), passes + 1, PassCount(less, now)) && Within(Pass(less, now), dom)
    ensures PassCount(less, now) < count
  {
    hide Class, Sorted, Ascending, PassCount, Pass, Runs;
    PassStable(less, now, dom);
    StableTrans(less, was, now, Pass(less, now));
    PassRuns(less, dom, now);
    PassCountHalves(less, now);
    if PassCount(less, now) <= 1 {
      LastPassSorts(less, dom, now);
    }
    forall k: nat | 1 <= k && Runs(less, was) <= Pow2(k)
      ensures passes + 1 <= k && PassCount(less, now) <= Pow2(k - passes - 1)
    {
      assert count <= Pow2(k - passes);
      PassHalvesBound(less, dom, now, k - passes);
    }
  }

  // ---- reversing, inserting, removing duplicates ---------------------------------------------------

  function Reversed<T>(s: seq<T>): seq<T> {
    seq(|s|, i requires 0 <= i < |s| => s[|s| - 1 - i])
  }

  /** What list_unique leaves: each element is compared with the last one kept. */
  function Uniques<T>(less: (T, T) -> bool, s: seq<T>): seq<T>
    decreases |s|
  {
    if |s| <= 1 then s
    else if Alike(less, s[0], s[1]) then Uniques(less, [s[0]] + s[2..])
    else [s[0]] + Uniques(less, s[1..])
  }

  /** What list_unique removes, in order. */
  function Repeats<T>(less: (T, T) -> bool, s: seq<T>): seq<T>
    decreases |s|
  {
    if |s| <= 1 then []
    else if Alike(less, s[0], s[1]) then [s[1]] + Repeats(less, [s[0]] + s[2..])
    else Repeats(less, s[1..])
  }

  predicate StrictlyIncreasing<T>(less: (T, T) -> bool, s: seq<T>) {
    forall i, j :: 0 <= i < j < |s| ==> less(s[i], s[j])
  }

  lemma DropOne<T>(s: seq<T>, u: seq<T>, r: seq<T>)
    requires |s| > 1 && multiset(u) + multiset(r) == multiset([s[0]] + s[2..])
    ensures multiset(u) + multiset([s[1]] + r) == multiset(s)
  {
    FrontContents(s);
    FrontContents(s[1..]);
    assert s[1..][1..] == s[2..];
    assert multiset([s[1]] + r) == multiset{s[1]} + multiset(r);
    assert multiset([s[0]] + s[2..]) == multiset{s[0]} + multiset(s[2..]);
    Exchange(multiset(u), multiset(r), multiset{s[0]}, multiset{s[1]}, multiset(s[2..]));
  }

  lemma Exchange<T>(u: multiset<T>, r: multiset<T>, a: multiset<T>, b: multiset<T>, c: multiset<T>)
    requires u + r == a + c
    ensures u + (b + r) == a + (b + c)
  {
    var left, right := u + (b + r), a + (b + c);
    forall x ensures left[x] == right[x] {
      assert (u + r)[x] == (a + c)[x];
    }
  }

  lemma KeepOne<T>(s: seq<T>, u: seq<T>, r: seq<T>)
    requires s != [] && multiset(u) + multiset(r) == multiset(s[1..])
    ensures multiset([s[0]] + u) + multiset(r) == multiset(s)
  {
    FrontContents(s);
  }

  lemma {:induction false} UniquesConserve<T>(less: (T, T) -> bool, s: seq<T>)
    ensures multiset(Uniques(less, s)) + multiset(Repeats(less, s)) == multiset(s)
    ensures s != [] ==> Uniques(less, s) != [] && Uniques(less, s)[0] == s[0]
    decreases |s|
  {
    hide Alike;
    if |s| > 1 {
      if Alike(less, s[0], s[1]) {
        var t := [s[0]] + s[2..];
        UniquesConserve(less, t);
        assert Uniques(less, s) == Uniques(less, t) && Repeats(less, s) == [s[1]] + Repeats(less, t);
        DropOne(s, Uniques(less, t), Repeats(less, t));
      } else {
        UniquesConserve(less, s[1..]);
        assert Uniques(less, s) == [s[0]] + Uniques(less, s[1..]) && Repeats(less, s) == Repeats(less, s[1..]);
        KeepOne(s, Uniques(less, s[1..]), Repeats(less, s[1..]));
      }
    } else {
      assert Uniques(less, s) == s && Repeats(less, s) == [];
      assert multiset(s) + multiset(Repeats(less, s)) == multiset(s);
    }
  }

  lemma SortedDrop<T>(less: (T, T) -> bool, s: seq<T>)
    requires Sorted(less, s) && |s| > 1
    ensures Sorted(less, s[1..]) && Sorted(less, [s[0]] + s[2..])
  {
    var t := [s[0]] + s[2..];
    assert forall i :: 0 < i < |t| ==> t[i] == s[i + 1];
  }

  /** On a sorted list, what is left is strictly increasing. */
  lemma {:induction false} UniquesIncrease<T>(less: (T, T) -> bool, dom: set<T>, s: seq<T>)
    requires StrictWeakOrder(less, dom) && Within(s, dom) && Sorted(less, s)
    ensures StrictlyIncreasing(less, Uniques(less, s)) && Within(Uniques(less, s), dom)
    ensures forall i :: 0 <= i < |Uniques(less, s)| ==> !less(Uniques(less, s)[i], s[0])
    decreases |s|
  {
    if |s| > 1 {
      SortedDrop(less, s);
      if Alike(less, s[0], s[1]) {
        UniquesIncrease(less, dom, [s[0]] + s[2..]);
      } else {
        UniquesIncrease(less, dom, s[1..]);
        var u := Uniques(less, s[1..]);
        assert less(s[0], s[1]);
        forall i | 0 <= i < |u| ensures less(s[0], u[i]) {
          assert u[i] in dom && !less(u[i], s[1]);
        }
      }
    }
  }

  /** Every element of the list has one left that compares alike: the first of its class. */
  lemma {:induction false} UniquesCover<T>(less: (T, T) -> bool, dom: set<T>, s: seq<T>, x: T)
    requires StrictWeakOrder(less, dom) && Within(s, dom) && Sorted(less, s) && x in s
    ensures Class(less, x, s) != [] && Class(less, x, s)[0] in Uniques(less, s)
    decreases |s|
  {
    hide Sorted, StrictWeakOrder;
    AlikeSelf(less, dom, x);
    if |s| > 1 {
      SortedDrop(less, s);
      assert s == [s[0]] + s[1..] && s[1..] == [s[1]] + s[2..];
      ClassHead(less, x, s[0], s[1..]);
      ClassHead(less, x, s[1], s[2..]);
      if Alike(less, s[0], s[1]) {
        var t := [s[0]] + s[2..];
        ClassHead(less, x, s[0], s[2..]);
        if Alike(less, x, s[0]) {
          UniquesConserve(less, t);
        } else {
          AlikeTrans(less, dom, x, s[1], s[0]);
          assert x != s[0] && x != s[1];
          UniquesCover(less, dom, t, x);
        }
      } else if !Alike(less, x, s[0]) {
        UniquesCover(less, dom, s[1..], x);
      }
    }
  }

  lemma AlikeSelf<T>(less: (T, T) -> bool, dom: set<T>, x: T)
    requires StrictWeakOrder(less, dom) && x in dom
    ensures Alike(less, x, x)
  {
  }

  lemma AlikeTrans<T>(less: (T, T) -> bool, dom: set<T>, x: T, y: T, z: T)
    requires StrictWeakOrder(less, dom) && x in dom && y in dom && z in dom
    requires Alike(less, z, y)
    ensures Alike(less, x, y) <==> Alike(less, x, z)
  {
  }

  /** Inserting after everything that is not above x keeps a list sorted. */
  lemma InsertSorted<T>(less: (T, T) -> bool, dom: set<T>, s: seq<T>, p: nat, x: T)
    requires StrictWeakOrder(less, dom) && Within(s, dom) && x in dom && Sorted(less, s)
    requires p <= |s| && (forall i :: 0 <= i < p ==> !less(x, s[i])) && (p < |s| ==> less(x, s[p]))
    ensures Sorted(less, s[..p] + [x] + s[p..])
    ensures forall i :: p <= i < |s| ==> less(x, s[i])
  {
    forall i | p <= i < |s| ensures less(x, s[i]) {
      assert i == p || !less(s[i], s[p]);
    }
    var t := s[..p] + [x] + s[p..];
    forall i, j | 0 <= i < j < |t| ensures !less(t[j], t[i]) {
      if j < p {
        assert t[j] == s[j] && t[i] == s[i];
      } else if j == p {
        assert t[i] == s[i];
      } else {
        assert t[j] == s[j - 1];
        if i > p {
          assert t[i] == s[i - 1];
        } else if i == p {
          assert t[i] == x;
        } else {
          assert t[i] == s[i];
        }
      }
    }
  }
}
