/** Path names (fs.c): skipelem takes a path apart, namex walks along it. */
module Paths {
  import opened Wrappers
  import opened DirEntries
  import opened DirTree

  function SkipSlashes(path: string, p: nat): (q: nat)
    requires p <= |path|
    ensures p <= q <= |path| && (q < |path| ==> path[q] != '/') && forall i :: p <= i < q ==> path[i] == '/'
    decreases |path| - p
  {
    if p < |path| && path[p] == '/' then SkipSlashes(path, p + 1) else p
  }

  function ElemEnd(path: string, p: nat): (q: nat)
    requires p <= |path|
    ensures p <= q <= |path| && (q < |path| ==> path[q] == '/') && forall i :: p <= i < q ==> path[i] != '/'
    decreases |path| - p
  {
    if p < |path| && path[p] != '/' then ElemEnd(path, p + 1) else p
  }

  /** The maximal runs without slashes, from p on. */
  function Elements(path: string, p: nat): seq<string>
    requires p <= |path|
    decreases |path| - p
  {
    var q := SkipSlashes(path, p);
    if q == |path| then [] else [path[q..ElemEnd(path, q)]] + Elements(path, ElemEnd(path, q))
  }

  /** skipelem: the next element, cut to DIRSIZ bytes, and the rest of the path without its leading
      slashes. None when there is no element left. */
  method SkipElem(path: string, p: nat) returns (name: Option<string>, next: nat)
    requires p <= |path|
    ensures p <= next <= |path|
    ensures name.None? <==> Elements(path, p) == []
    ensures name.Some? ==> p < next && Elements(path, next) == Elements(path, p)[1..]
    ensures name.Some? ==> Key(name.value) == Key(Elements(path, p)[0])
    ensures name.Some? ==> (next == |path| <==> Elements(path, next) == [])
  {
    var s := p;
    while s < |path| && path[s] == '/'
      invariant p <= s <= |path| && SkipSlashes(path, s) == SkipSlashes(path, p)
    {
      s := s + 1;
    }
    if s == |path| {
      return None, s;
    }
    var e := s;
    while e < |path| && path[e] != '/'
      invariant s <= e <= |path| && ElemEnd(path, e) == ElemEnd(path, s)
    {
      e := e + 1;
    }
    var elem := path[s..e];
    next := e;
    while next < |path| && path[next] == '/'
      invariant e <= next <= |path| && SkipSlashes(path, next) == SkipSlashes(path, e)
    {
      next := next + 1;
    }
    name := Some(if |elem| >= DIRSIZ then elem[..DIRSIZ] else elem);
    KeyOfFirst(elem, DIRSIZ);
    assert Elements(path, p) == [elem] + Elements(path, e);
  }

  /** Only the first bytes of a name count. */
  lemma {:induction false} KeyOfFirst(s: string, n: nat)
    ensures |s| >= n ==> Cut(s[..n], n) == Cut(s, n)
    decreases n
  {
    if n > 0 && |s| >= n {
      KeyOfFirst(s[1..], n - 1);
      assert s[..n][1..] == s[1..][..n - 1];
    }
  }

  // ---- writing paths ----------------------------------------------------------------------------------------

  function Slashes(n: nat): string { seq(n, i => '/') }

  predicate ValidElem(e: string) { e != "" && forall i :: 0 <= i < |e| ==> e[i] != '/' }

  /** The elements with gaps[i] slashes before the i-th, and gaps[|es|] at the end. */
  function Spelled(es: seq<string>, gaps: seq<nat>): string
    requires |gaps| == |es| + 1
  {
    if es == [] then Slashes(gaps[0]) else Slashes(gaps[0]) + es[0] + Spelled(es[1..], gaps[1..])
  }

  lemma SkipOver(path: string, p: nat, q: nat)
    requires p <= q <= |path| && (forall i :: p <= i < q ==> path[i] == '/') && (q < |path| ==> path[q] != '/')
    ensures SkipSlashes(path, p) == q
  {
  }

  lemma EndOver(path: string, p: nat, q: nat)
    requires p <= q <= |path| && (forall i :: p <= i < q ==> path[i] != '/') && (q < |path| ==> path[q] == '/')
    ensures ElemEnd(path, p) == q
  {
  }

  /** However many slashes there are, the elements are read back. */
  lemma {:induction false} ElementsOfSpelled(path: string, p: nat, es: seq<string>, gaps: seq<nat>)
    requires |gaps| == |es| + 1 && p <= |path| && path[p..] == Spelled(es, gaps)
    requires (forall i :: 0 <= i < |es| ==> ValidElem(es[i])) && forall i :: 0 < i < |es| ==> gaps[i] > 0
    ensures Elements(path, p) == es
    decreases |es|
  {
    hide Spelled, Elements, SkipSlashes, ElemEnd;
    var q := p + gaps[0];
    SpelledFront(path, p, es, gaps);
    if es == [] {
      SkipOver(path, p, q);
      NoElements(path, p);
    } else {
      var e := q + |es[0]|;
      assert ValidElem(es[0]);
      forall i | q <= i < e ensures path[i] != '/' {
        assert path[i] == path[q..e][i - q];
      }
      SkipOver(path, p, q);
      NextIsSlash(path, e, es[1..], gaps[1..]);
      EndOver(path, q, e);
      ElementsAt(path, p);
      ElementsOfSpelled(path, e, es[1..], gaps[1..]);
    }
  }

  lemma NoElements(path: string, p: nat)
    requires p <= |path| && SkipSlashes(path, p) == |path|
    ensures Elements(path, p) == []
  {
  }

  lemma ElementsAt(path: string, p: nat)
    requires p <= |path| && SkipSlashes(path, p) < |path|
    ensures var q := SkipSlashes(path, p); Elements(path, p) == [path[q..ElemEnd(path, q)]] + Elements(path, ElemEnd(path, q))
  {
  }

  lemma SpelledFront(path: string, p: nat, es: seq<string>, gaps: seq<nat>)
    requires |gaps| == |es| + 1 && p <= |path| && path[p..] == Spelled(es, gaps)
    ensures var q := p + gaps[0]; q <= |path| && forall i :: p <= i < q ==> path[i] == '/'
    ensures es == [] ==> p + gaps[0] == |path|
    ensures es != [] ==> var q := p + gaps[0];
      q + |es[0]| <= |path| && path[q..q + |es[0]|] == es[0] && path[q + |es[0]|..] == Spelled(es[1..], gaps[1..])
  {
    var t, g := path[p..], gaps[0];
    assert t[..g] == Slashes(g);
    assert forall i :: p <= i < p + g ==> path[i] == t[i - p];
    if es != [] {
      var w, r := es[0], Spelled(es[1..], gaps[1..]);
      assert t == Slashes(g) + w + r;
      assert t[g..g + |w|] == w && t[g + |w|..] == r;
      assert path[p + g..p + g + |w|] == t[g..g + |w|] && path[p + g + |w|..] == t[g + |w|..];
    }
  }

  lemma NextIsSlash(path: string, e: nat, es: seq<string>, gaps: seq<nat>)
    requires |gaps| == |es| + 1 && e <= |path| && path[e..] == Spelled(es, gaps) && (es != [] ==> gaps[0] > 0)
    ensures e < |path| ==> path[e] == '/'
  {
    SpelledFront(path, e, es, gaps);
    assert gaps[0] == 0 && es == [] ==> e == |path|;
  }

  // ---- walking ---------------------------------------------------------------------------------------------

  function Keys(es: seq<string>): seq<string> { seq(|es|, i requires 0 <= i < |es| => Key(es[i])) }

  predicate DirNode(ns: Nodes, i: nat) { i in ns && ns[i].kind == T_DIR }

  /** Lookup of one name after the other. */
  function Resolve(ns: Nodes, i: nat, keys: seq<string>): Option<nat>
    decreases |keys|
  {
    if keys == [] then Some(i)
    else if !DirNode(ns, i) then None
    else
      match Find(ns[i].entries, keys[0], 0)
      case None => None
      case Some(k) => Resolve(ns, ns[i].entries[k].inum, keys[1..])
  }

  /** The directory that the last name is to be looked up in, and that name. */
  function Parent(ns: Nodes, i: nat, keys: seq<string>): Option<(nat, string)> {
    if keys == [] then None
    else
      match Resolve(ns, i, keys[..|keys| - 1])
      case None => None
      case Some(p) => if DirNode(ns, p) then Some((p, keys[|keys| - 1])) else None
  }

  /** A path of two parts leads where the second leads from where the first does. */
  lemma {:induction false} ResolveJoined(ns: Nodes, i: nat, first: seq<string>, second: seq<string>)
    ensures Resolve(ns, i, first + second) ==
      match Resolve(ns, i, first) case None => None case Some(j) => Resolve(ns, j, second)
    decreases |first|
  {
    if first == [] {
      assert first + second == second;
    } else if DirNode(ns, i) && Find(ns[i].entries, first[0], 0).Some? {
      assert (first + second)[1..] == first[1..] + second;
      ResolveJoined(ns, ns[i].entries[Find(ns[i].entries, first[0], 0).value].inum, first[1..], second);
    }
  }

  /** namei is nameiparent followed by one more lookup. */
  lemma {:induction false} ResolveByParent(ns: Nodes, i: nat, keys: seq<string>)
    requires keys != []
    ensures Resolve(ns, i, keys) ==
      if Parent(ns, i, keys).None? then None
      else
        var p, name := Parent(ns, i, keys).value.0, Parent(ns, i, keys).value.1;
        if p in ns && Find(ns[p].entries, name, 0).Some? then Some(ns[p].entries[Find(ns[p].entries, name, 0).value].inum) else None
    decreases |keys|
  {
    if |keys| > 1 && DirNode(ns, i) && Find(ns[i].entries, keys[0], 0).Some? {
      var next := ns[i].entries[Find(ns[i].entries, keys[0], 0).value].inum;
      ResolveByParent(ns, next, keys[1..]);
      assert keys[..|keys| - 1][1..] == keys[1..][..|keys| - 2];
    }
  }

  lemma ParentStep(ns: Nodes, i: nat, keys: seq<string>)
    requires keys != []
    ensures !DirNode(ns, i) ==> Parent(ns, i, keys).None?
    ensures DirNode(ns, i) && |keys| == 1 ==> Parent(ns, i, keys) == Some((i, keys[0]))
    ensures DirNode(ns, i) && |keys| > 1 ==>
      Parent(ns, i, keys) ==
        (match Find(ns[i].entries, keys[0], 0)
         case None => None
         case Some(k) => Parent(ns, ns[i].entries[k].inum, keys[1..]))
  {
    var init := keys[..|keys| - 1];
    if |keys| > 1 {
      assert init[0] == keys[0] && init[1..] == keys[1..][..|keys| - 2];
    }
  }

  /** Where a path starts: at the root if it is absolute. */
  function StartOf(cwd: nat, path: string): nat { if path != "" && path[0] == '/' then ROOT else cwd }

  /** namex for a process in directory cwd. */
  method Namex(ns: Nodes, cwd: nat, path: string, parent: bool) returns (r: Option<(nat, string)>)
    ensures parent ==> r == Parent(ns, StartOf(cwd, path), Keys(Elements(path, 0)))
    ensures !parent ==> (r.None? <==> Resolve(ns, StartOf(cwd, path), Keys(Elements(path, 0))).None?)
    ensures !parent && r.Some? ==> Some(r.value.0) == Resolve(ns, StartOf(cwd, path), Keys(Elements(path, 0)))
  {
    hide Elements, Parent, Find;
    ghost var start := StartOf(cwd, path);
    var ip, p := cwd, 0;
    if |path| > 0 && path[0] == '/' {
      ip := ROOT;
    }
    var name, next := SkipElem(path, 0);
    while name.Some?
      invariant p <= next <= |path| && p <= |path|
      invariant name.None? <==> Elements(path, p) == []
      invariant name.Some? ==> p < next && Elements(path, next) == Elements(path, p)[1..] && Key(name.value) == Key(Elements(path, p)[0])
      invariant name.Some? ==> (next == |path| <==> Elements(path, next) == [])
      invariant Resolve(ns, start, Keys(Elements(path, 0))) == Resolve(ns, ip, Keys(Elements(path, p)))
      invariant parent ==> Parent(ns, start, Keys(Elements(path, 0))) == Parent(ns, ip, Keys(Elements(path, p)))
      decreases |path| - p
    {
      ghost var keys := Keys(Elements(path, p));
      ParentStep(ns, ip, keys);
      KeysTail(Elements(path, p));
      if !(ip in ns && ns[ip].kind == T_DIR) {
        return None;
      }
      if parent && next == |path| {
        return Some((ip, Key(name.value)));
      }
      var k := DirLookup(ns[ip].entries, name.value);
      if k.None? {
        return None;
      }
      FoundIn(ns[ip].entries, Key(name.value));
      ip, p := ns[ip].entries[k.value].inum, next;
      name, next := SkipElem(path, p);
    }
    if parent {
      NoParent(ns, ip);
      return None;
    }
    return Some((ip, ""));
  }

  lemma KeysTail(es: seq<string>)
    requires es != []
    ensures Keys(es)[0] == Key(es[0]) && Keys(es)[1..] == Keys(es[1..])
  {
  }

  lemma FoundIn(es: seq<Dirent>, key: string)
    ensures Find(es, key, 0).Some? ==> Find(es, key, 0).value < |es|
  {
  }

  lemma NoParent(ns: Nodes, i: nat)
    ensures Parent(ns, i, []) == None
  {
  }

  // ---- paths put together ---------------------------------------------------------------------------------

  /** Where a path leads. */
  function Walk(ns: Nodes, cwd: nat, path: string): Option<nat> { Resolve(ns, StartOf(cwd, path), Keys(Elements(path, 0))) }

  lemma {:induction false} SkipShifted(x: string, b: string, p: nat)
    requires p <= |b|
    ensures SkipSlashes(x + b, |x| + p) == |x| + SkipSlashes(b, p)
    decreases |b| - p
  {
    if p < |b| && b[p] == '/' {
      SkipShifted(x, b, p + 1);
    }
  }

  lemma {:induction false} EndShifted(x: string, b: string, p: nat)
    requires p <= |b|
    ensures ElemEnd(x + b, |x| + p) == |x| + ElemEnd(b, p)
    decreases |b| - p
  {
    if p < |b| && b[p] != '/' {
      EndShifted(x, b, p + 1);
    }
  }

  lemma {:induction false} ElementsShifted(x: string, b: string, p: nat)
    requires p <= |b|
    ensures Elements(x + b, |x| + p) == Elements(b, p)
    decreases |b| - p
  {
    SkipShifted(x, b, p);
    var q := SkipSlashes(b, p);
    if q < |b| {
      EndShifted(x, b, q);
      var e := ElemEnd(b, q);
      assert (x + b)[|x| + q..|x| + e] == b[q..e];
      ElementsShifted(x, b, e);
    }
  }

  /** The slash behind a ends its last element. */
  lemma {:induction false} ElementsJoined(a: string, b: string, p: nat)
    requires p <= |a|
    ensures Elements(a + "/" + b, p) == Elements(a, p) + Elements(b, 0)
    decreases |a| - p
  {
    var path := a + "/" + b;
    var q := SkipSlashes(a, p);
    if q == |a| {
      assert forall i :: p <= i < |a| + 1 ==> path[i] == '/';
      SkipTo(path, p, |a| + 1);
      ElementsShifted(a + "/", b, 0);
      assert a + "/" + b == path;
    } else {
      SkipTo(path, p, q);
      var e := ElemEnd(a, q);
      assert forall i :: q <= i < e ==> path[i] == a[i];
      EndAt(path, q, e);
      assert path[q..e] == a[q..e];
      ElementsJoined(a, b, e);
    }
  }

  lemma {:induction false} SkipTo(path: string, p: nat, q: nat)
    requires p <= q <= |path| && forall i :: p <= i < q ==> path[i] == '/'
    ensures SkipSlashes(path, p) == SkipSlashes(path, q)
    decreases q - p
  {
    if p < q {
      SkipTo(path, p + 1, q);
    }
  }

  lemma {:induction false} EndAt(path: string, p: nat, e: nat)
    requires p <= e < |path| && path[e] == '/' && forall i :: p <= i < e ==> path[i] != '/'
    ensures ElemEnd(path, p) == e
    decreases e - p
  {
    if p < e {
      EndAt(path, p + 1, e);
    }
  }

  /** A relative path means, from the directory that dir leads to, what dir and it mean together. */
  lemma WalkJoined(ns: Nodes, cwd: nat, dir: string, rel: string)
    requires dir != "" && (rel == "" || rel[0] != '/')
    ensures Walk(ns, cwd, dir + "/" + rel) ==
      match Walk(ns, cwd, dir) case None => None case Some(j) => Walk(ns, j, rel)
  {
    hide Elements, Resolve;
    ElementsJoined(dir, rel, 0);
    assert Keys(Elements(dir, 0) + Elements(rel, 0)) == Keys(Elements(dir, 0)) + Keys(Elements(rel, 0));
    ResolveJoined(ns, StartOf(cwd, dir), Keys(Elements(dir, 0)), Keys(Elements(rel, 0)));
  }

  /** An absolute path means the same everywhere, and the shortest one means the root. */
  lemma WalkAbsolute(ns: Nodes, cwd: nat, other: nat, path: string)
    requires path != "" && path[0] == '/'
    ensures Walk(ns, cwd, path) == Walk(ns, other, path) && Walk(ns, cwd, "/") == Some(ROOT)
  {
    assert SkipSlashes("/", 0) == SkipSlashes("/", 1) == 1;
    assert Elements("/", 0) == [];
  }
}
