/** Names of at most DIRSIZ bytes, and directories as arrays of entries (fs.c, string.c). */
module DirEntries {
  import opened Wrappers

  const DIRSIZ: nat := 14
  const NUL: char := '\0'

  /** struct dirent; inum 0 means that the entry is free. */
  datatype Dirent = Dirent(inum: nat, name: string)

  /** The part of s that counts: up to a NUL, and no more than n bytes. */
  function Cut(s: string, n: nat): string
    decreases n
  {
    if n == 0 || s == "" || s[0] == NUL then "" else [s[0]] + Cut(s[1..], n - 1)
  }

  function Key(s: string): string { Cut(s, DIRSIZ) }

  function At(s: string, i: nat): char { if i < |s| then s[i] else NUL }

  /** namecmp, which is strncmp of DIRSIZ bytes: do the names count as the same? */
  method SameName(s: string, t: string) returns (same: bool)
    ensures same <==> Key(s) == Key(t)
  {
    hide Cut;
    var n: nat, p: nat := DIRSIZ, 0;
    assert s[0..] == s && t[0..] == t;
    while n > 0 && At(s, p) != NUL && At(s, p) == At(t, p)
      invariant n + p == DIRSIZ && p <= |s| && p <= |t|
      invariant Key(s) == Key(t) <==> Cut(s[p..], n) == Cut(t[p..], n)
    {
      CutStep(s, p, n);
      CutStep(t, p, n);
      SameTail(At(s, p), Cut(s[p + 1..], n - 1), Cut(t[p + 1..], n - 1));
      n, p := n - 1, p + 1;
    }
    if n == 0 {
      CutNone(s[p..]);
      CutNone(t[p..]);
      return true;
    }
    CutStep(s, p, n);
    CutStep(t, p, n);
    assert At(s, p) != NUL ==> Cut(s[p..], n)[0] == At(s, p);
    assert At(t, p) != NUL ==> Cut(t[p..], n)[0] == At(t, p);
    return At(s, p) == At(t, p);
  }

  lemma SameTail(c: char, x: string, y: string)
    ensures [c] + x == [c] + y <==> x == y
  {
    assert ([c] + x)[1..] == x && ([c] + y)[1..] == y;
  }

  lemma CutNone(s: string)
    ensures Cut(s, 0) == ""
  {
  }

  lemma CutStep(s: string, p: nat, n: nat)
    requires p <= |s| && n > 0
    ensures Cut(s[p..], n) == if At(s, p) == NUL then "" else [At(s, p)] + Cut(s[p + 1..], n - 1)
  {
    assert p < |s| ==> s[p..][0] == s[p] && s[p..][1..] == s[p + 1..];
  }

  /** c is the beginning of s, without NULs, as long as it can be within n bytes. */
  ghost predicate CutOf(s: string, n: nat, c: string) {
    && |c| <= n && |c| <= |s| && (|c| == n || At(s, |c|) == NUL)
    && forall i :: 0 <= i < |c| ==> c[i] != NUL && c[i] == s[i]
  }

  lemma {:induction false} CutShort(s: string, n: nat)
    ensures CutOf(s, n, Cut(s, n))
    decreases n
  {
    if n > 0 && s != "" && s[0] != NUL {
      CutShort(s[1..], n - 1);
      CutLonger(s, n, Cut(s[1..], n - 1));
    }
  }

  lemma CutLonger(s: string, n: nat, c: string)
    requires n > 0 && s != "" && s[0] != NUL && CutOf(s[1..], n - 1, c)
    ensures CutOf(s, n, [s[0]] + c)
  {
    var d := [s[0]] + c;
    forall i | 0 <= i < |d| ensures d[i] != NUL && d[i] == s[i] {
      assert i > 0 ==> d[i] == c[i - 1] && s[i] == s[1..][i - 1];
    }
    assert At(s, |d|) == At(s[1..], |c|);
  }

  /** strncpy: cut, and padded with NULs. */
  function Padded(s: string): (r: string)
    ensures |r| == DIRSIZ
  {
    CutShort(s, DIRSIZ);
    var k := Key(s);
    k + seq(DIRSIZ - |k|, i => NUL)
  }

  lemma {:induction false} CutAgain(k: string, pad: string, n: nat)
    requires |k| <= n && (forall i :: 0 <= i < |k| ==> k[i] != NUL) && (|k| == n || (pad != "" && pad[0] == NUL))
    ensures Cut(k + pad, n) == k
    decreases n
  {
    if k != "" {
      assert (k + pad)[1..] == k[1..] + pad;
      CutAgain(k[1..], pad, n - 1);
    } else {
      assert k + pad == pad;
    }
  }

  /** A name is stored as what counts of it. */
  lemma KeyOfPadded(s: string)
    ensures Key(Padded(s)) == Key(s)
  {
    hide Cut;
    CutShort(s, DIRSIZ);
    var k := Key(s);
    var pad := seq(DIRSIZ - |k|, i => NUL);
    assert Padded(s) == k + pad;
    CutAgain(k, pad, DIRSIZ);
  }

  // ---- directories as finite maps -----------------------------------------------------------------------

  predicate Live(e: Dirent) { e.inum != 0 }

  predicate Named(e: Dirent, key: string) { Live(e) && Key(e.name) == key }

  /** The directory sends key to inum. */
  ghost predicate Binds(es: seq<Dirent>, key: string, inum: nat) {
    exists i :: 0 <= i < |es| && Named(es[i], key) && es[i].inum == inum
  }

  /** No two live entries have the same name. */
  ghost predicate NoDups(es: seq<Dirent>) {
    forall i, j :: 0 <= i < j < |es| && Live(es[i]) && Live(es[j]) ==> Key(es[i].name) != Key(es[j].name)
  }

  /** The first live entry called key, from slot i on. */
  function Find(es: seq<Dirent>, key: string, i: nat): (r: Option<nat>)
    requires i <= |es|
    ensures r.Some? ==> i <= r.value < |es| && Named(es[r.value], key)
    ensures r.None? <==> forall j :: i <= j < |es| ==> !Named(es[j], key)
    decreases |es| - i
  {
    if i == |es| then None else if Named(es[i], key) then Some(i) else Find(es, key, i + 1)
  }

  /** dirlookup: the slot of the entry. */
  method DirLookup(es: seq<Dirent>, name: string) returns (r: Option<nat>)
    ensures r == Find(es, Key(name), 0)
  {
    var off := 0;
    while off < |es|
      invariant 0 <= off <= |es| && Find(es, Key(name), off) == Find(es, Key(name), 0)
    {
      if es[off].inum != 0 {
        var same := SameName(name, es[off].name);
        if same {
          return Some(off);
        }
      }
      off := off + 1;
    }
    return None;
  }

  /** The first free entry, or the end. */
  function FreeSlot(es: seq<Dirent>, i: nat): (k: nat)
    requires i <= |es|
    ensures i <= k <= |es| && (k < |es| ==> !Live(es[k])) && forall j :: i <= j < k ==> Live(es[j])
    decreases |es| - i
  {
    if i == |es| || !Live(es[i]) then i else FreeSlot(es, i + 1)
  }

  /** writei of one entry at slot k. */
  function Put(es: seq<Dirent>, k: nat, e: Dirent): (r: seq<Dirent>)
    requires k <= |es|
    ensures r == es[..k] + [e] + if k < |es| then es[k + 1..] else []
  {
    if k < |es| then es[k := e] else es + [e]
  }

  function Linked(es: seq<Dirent>, name: string, inum: nat): seq<Dirent> {
    Put(es, FreeSlot(es, 0), Dirent(inum, Padded(name)))
  }

  /** dirlink refuses a name that is there, and otherwise adds exactly one binding. */
  method DirLink(es: seq<Dirent>, name: string, inum: nat) returns (r: Option<seq<Dirent>>)
    ensures r.None? <==> exists i :: 0 <= i < |es| && Named(es[i], Key(name))
    ensures r.Some? ==> r.value == Linked(es, name, inum)
  {
    var found := DirLookup(es, name);
    if found.Some? {
      return None;
    }
    var off := 0;
    while off < |es| && es[off].inum != 0
      invariant 0 <= off <= |es| && FreeSlot(es, off) == FreeSlot(es, 0)
    {
      off := off + 1;
    }
    return Some(Put(es, off, Dirent(inum, Padded(name))));
  }

  lemma LinkedBinds(es: seq<Dirent>, name: string, inum: nat)
    requires NoDups(es) && inum != 0 && forall i :: 0 <= i < |es| ==> !Named(es[i], Key(name))
    ensures NoDups(Linked(es, name, inum))
    ensures forall key, a :: Binds(Linked(es, name, inum), key, a) <==> (key == Key(name) && a == inum) || Binds(es, key, a)
  {
    KeyOfPadded(name);
    var k := FreeSlot(es, 0);
    var r := Linked(es, name, inum);
    assert forall i :: 0 <= i < |r| && i != k ==> i < |es| && r[i] == es[i];
    assert r[k] == Dirent(inum, Padded(name));
    forall key, a ensures Binds(r, key, a) <==> (key == Key(name) && a == inum) || Binds(es, key, a) {
      if Binds(es, key, a) {
        var i :| 0 <= i < |es| && Named(es[i], key) && es[i].inum == a;
        assert r[i] == es[i];
      }
      assert key == Key(name) && a == inum ==> Named(r[k], key);
    }
  }

  /** unlink clears entry k: exactly its binding goes. */
  lemma ClearedBinds(es: seq<Dirent>, k: nat)
    requires NoDups(es) && k < |es| && Live(es[k])
    ensures NoDups(Put(es, k, Dirent(0, Padded(""))))
    ensures forall key, a :: Binds(Put(es, k, Dirent(0, Padded(""))), key, a) <==> Binds(es, key, a) && key != Key(es[k].name)
  {
    var r := Put(es, k, Dirent(0, Padded("")));
    forall key, a ensures Binds(r, key, a) <==> Binds(es, key, a) && key != Key(es[k].name) {
      if Binds(es, key, a) && key != Key(es[k].name) {
        var i :| 0 <= i < |es| && Named(es[i], key) && es[i].inum == a;
        assert r[i] == es[i];
      }
      if Binds(r, key, a) {
        var i :| 0 <= i < |r| && Named(r[i], key) && r[i].inum == a;
        assert i != k && r[i] == es[i];
      }
    }
  }
}
