/** create, link and unlink keep every link count equal to the number of links. */
module DirTreeProof {
  import opened DirEntries
  import opened DirTree

  lemma DotKeys()
    ensures Key(".") == "." && Key("..") == ".." && Key(Padded(".")) == "." && Key(Padded("..")) == ".."
  {
    assert "."[1..] == "" && ".."[1..] == ".";
    assert Cut("", 13) == "" && Cut("", 12) == "";
    assert Cut(".", 13) == ['.'] + Cut(""  , 12);
    KeyOfPadded(".");
    KeyOfPadded("..");
  }

  /** The new entry and the old ones. */
  ghost predicate AddedAt(es: seq<Dirent>, fs: seq<Dirent>, k: nat, e: Dirent) {
    && k <= |es| && k < |fs| && (|fs| == |es| || (k == |es| && |fs| == |es| + 1))
    && fs[k] == e && (k < |es| ==> !Live(es[k]))
    && forall j :: 0 <= j < |es| && j != k ==> fs[j] == es[j]
  }

  lemma LinkedAt(es: seq<Dirent>, name: string, inum: nat)
    ensures AddedAt(es, Linked(es, name, inum), FreeSlot(es, 0), Dirent(inum, Padded(name)))
  {
  }

  /** The name that dirlink takes is neither "." nor "..", and its entry comes after those. */
  lemma NewEntry(ns: Nodes, dp: nat, name: string, inum: nat)
    requires TreeOk(ns) && IsDir(ns, dp) && Absent(ns[dp].entries, name) && inum != 0
    ensures var k := FreeSlot(ns[dp].entries, 0);
      && k >= 2 && AddedAt(ns[dp].entries, Linked(ns[dp].entries, name, inum), k, Dirent(inum, Padded(name)))
      && Key(Padded(name)) == Key(name) && Key(name) != "." && Key(name) != ".."
    ensures NoDups(Linked(ns[dp].entries, name, inum))
  {
    hide Refs, ParentOk, EntryOk, CountOk;
    var es := ns[dp].entries;
    assert ShapeOk(ns, dp);
    assert !Named(es[0], Key(name)) && !Named(es[1], Key(name));
    LinkedAt(es, name, inum);
    KeyOfPadded(name);
    LinkedBinds(es, name, inum);
  }

  // ---- an entry for an inode that is no directory ---------------------------------------------------------

  /** ns with inode t, no directory, given content n and an entry in dp. */
  function LeafLinked(ns: Nodes, dp: nat, name: string, t: nat, n: Node): Nodes
    requires dp in ns
  {
    ns[t := n][dp := WithEntry(ns[dp], name, t)]
  }

  ghost predicate CanLeaf(ns: Nodes, dp: nat, name: string, t: nat, n: Node) {
    && TreeOk(ns) && IsDir(ns, dp) && Absent(ns[dp].entries, name) && t != 0 && t != dp
    && (t in ns ==> ns[t].kind != T_DIR) && n.kind != 0 && n.kind != T_DIR && n.nlink == |Refs(ns, t)| + 1
  }

  lemma LeafRefs(ns: Nodes, dp: nat, name: string, t: nat, n: Node, i: nat, d: nat, k: nat)
    requires CanLeaf(ns, dp, name, t, n)
    ensures IsDir(LeafLinked(ns, dp, name, t, n), d) <==> IsDir(ns, d)
    ensures IsRef(LeafLinked(ns, dp, name, t, n), i, d, k) <==>
      IsRef(ns, i, d, k) || (i == t && d == dp && k == FreeSlot(ns[dp].entries, 0))
  {
    hide TreeOk, Refs, Linked, Padded, Key;
    NewEntry(ns, dp, name, t);
  }

  lemma LeafCounts(ns: Nodes, dp: nat, name: string, t: nat, n: Node, i: nat)
    requires CanLeaf(ns, dp, name, t, n) && i in LeafLinked(ns, dp, name, t, n)
    ensures CountOk(LeafLinked(ns, dp, name, t, n), i)
  {
    hide Refs, IsRef, TreeOk;
    var ms, slot := LeafLinked(ns, dp, name, t, n), FreeSlot(ns[dp].entries, 0);
    forall d: nat, k: nat ensures IsRef(ms, i, d, k) <==> IsRef(ns, i, d, k) || (i == t && d == dp && k == slot) {
      LeafRefs(ns, dp, name, t, n, i, d, k);
    }
    if i == t {
      SlotWasFree(ns, dp, t);
      RefsMore(ns, ms, t, dp, slot);
    } else {
      RefsSame(ns, ms, i);
      CountHolds(ns, i);
    }
  }

  lemma SlotWasFree(ns: Nodes, dp: nat, t: nat)
    requires dp in ns
    ensures !IsRef(ns, t, dp, FreeSlot(ns[dp].entries, 0))
  {
  }

  lemma CountHolds(ns: Nodes, i: nat)
    requires TreeOk(ns)
    ensures i in ns ==> CountOk(ns, i)
  {
  }

  lemma LeafKeeps(ns: Nodes, dp: nat, name: string, t: nat, n: Node)
    requires CanLeaf(ns, dp, name, t, n)
    ensures TreeOk(LeafLinked(ns, dp, name, t, n))
  {
    hide Refs, CountOk, Linked, Padded, Key;
    var ms, slot := LeafLinked(ns, dp, name, t, n), FreeSlot(ns[dp].entries, 0);
    NewEntry(ns, dp, name, t);
    forall i | i in ms ensures CountOk(ms, i) {
      LeafCounts(ns, dp, name, t, n, i);
    }
    forall d | IsDir(ms, d) ensures ShapeOk(ms, d) && ParentOk(ms, d) {
      LeafRefs(ns, dp, name, t, n, 0, d, 0);
      assert ShapeOk(ns, d) && ParentOk(ns, d);
      LeafParent(ns, dp, name, t, n, d);
    }
    forall d, k: nat | IsDir(ms, d) && k < |ms[d].entries| ensures EntryOk(ms, d, k) {
      LeafRefs(ns, dp, name, t, n, 0, d, 0);
      LeafEntry(ns, dp, name, t, n, d, k);
    }
  }

  lemma LeafParent(ns: Nodes, dp: nat, name: string, t: nat, n: Node, c: nat)
    requires CanLeaf(ns, dp, name, t, n) && IsDir(ns, c) && ShapeOk(ns, c) && ParentOk(ns, c)
    ensures IsDir(LeafLinked(ns, dp, name, t, n), c) && ParentOk(LeafLinked(ns, dp, name, t, n), c)
  {
    hide TreeOk, Refs, Linked, Padded, Key;
    var ms := LeafLinked(ns, dp, name, t, n);
    NewEntry(ns, dp, name, t);
    LeafRefs(ns, dp, name, t, n, 0, c, 0);
    var p := ns[c].entries[1].inum;
    assert ms[c].entries[1] == ns[c].entries[1];
    LeafRefs(ns, dp, name, t, n, 0, p, 0);
    if c != ROOT {
      var k :| 2 <= k < |ns[p].entries| && Live(ns[p].entries[k]) && ns[p].entries[k].inum == c;
      assert ms[p].entries[k] == ns[p].entries[k];
    }
  }

  lemma LeafEntry(ns: Nodes, dp: nat, name: string, t: nat, n: Node, d: nat, k: nat)
    requires CanLeaf(ns, dp, name, t, n) && IsDir(ns, d)
    requires var ms := LeafLinked(ns, dp, name, t, n); IsDir(ms, d) && k < |ms[d].entries|
    ensures EntryOk(LeafLinked(ns, dp, name, t, n), d, k)
  {
    hide Refs, CountOk, Linked, Padded, Key, ShapeOk, ParentOk;
    var ms, slot := LeafLinked(ns, dp, name, t, n), FreeSlot(ns[dp].entries, 0);
    NewEntry(ns, dp, name, t);
    if !(d == dp && k == slot) {
      assert EntryOk(ns, d, k);
      var c := ns[d].entries[k].inum;
      LeafRefs(ns, dp, name, t, n, 0, c, 0);
      assert IsDir(ns, c) ==> ShapeOk(ns, c);
      if IsDir(ns, c) {
        SecondKept(ns, dp, name, t, n, c);
      }
    }
  }

  lemma SecondKept(ns: Nodes, dp: nat, name: string, t: nat, n: Node, c: nat)
    requires CanLeaf(ns, dp, name, t, n) && IsDir(ns, c)
    ensures var ms := LeafLinked(ns, dp, name, t, n);
      c in ms && 2 <= |ns[c].entries| <= |ms[c].entries| && ms[c].entries[1] == ns[c].entries[1]
  {
    hide Refs, CountOk, Linked, Padded, Key, ParentOk, EntryOk;
    assert ShapeOk(ns, c);
    NewEntry(ns, dp, name, t);
  }

  lemma FreshRefs(ns: Nodes, i: nat)
    requires TreeOk(ns) && !InUse(ns, i)
    ensures Refs(ns, i) == {}
  {
    hide TreeOk, IsRef, Refs;
    if Refs(ns, i) != {} {
      var x :| x in Refs(ns, i);
      SomeRef(ns, i, x);
      RefInUse(ns, i, x.0, x.1);
    }
  }

  lemma SomeRef(ns: Nodes, i: nat, x: (nat, nat))
    requires x in Refs(ns, i)
    ensures IsRef(ns, i, x.0, x.1)
  {
    assert (x.0, x.1) in Refs(ns, i);
  }

  lemma RefInUse(ns: Nodes, i: nat, d: nat, k: nat)
    requires TreeOk(ns) && IsRef(ns, i, d, k)
    ensures InUse(ns, i)
  {
    assert EntryOk(ns, d, k);
  }

  /** create of a file. */
  lemma FileMadeKeeps(ns: Nodes, dp: nat, name: string, kind: nat, i: nat)
    requires TreeOk(ns) && IsDir(ns, dp) && Absent(ns[dp].entries, name) && i != 0 && !InUse(ns, i) && kind != 0 && kind != T_DIR
    ensures TreeOk(FileMade(ns, dp, name, kind, i))
  {
    hide TreeOk, Refs;
    FreshRefs(ns, i);
    LeafKeeps(ns, dp, name, i, Node(kind, 1, []));
  }

  /** link. */
  lemma LinkMadeKeeps(ns: Nodes, ip: nat, dp: nat, name: string)
    requires TreeOk(ns) && IsDir(ns, dp) && Absent(ns[dp].entries, name) && InUse(ns, ip) && ip != 0 && ns[ip].kind != T_DIR
    ensures TreeOk(LinkMade(ns, ip, dp, name))
  {
    hide TreeOk, Refs;
    CountHolds(ns, ip);
    LeafKeeps(ns, dp, name, ip, ns[ip].(nlink := ns[ip].nlink + 1));
  }

  // ---- a new directory -------------------------------------------------------------------------------------

  ghost predicate CanMakeDir(ns: Nodes, dp: nat, name: string, i: nat) {
    TreeOk(ns) && IsDir(ns, dp) && Absent(ns[dp].entries, name) && i != 0 && !InUse(ns, i)
  }

  lemma DirRefs(ns: Nodes, dp: nat, name: string, i: nat, j: nat, d: nat, k: nat)
    requires CanMakeDir(ns, dp, name, i)
    ensures IsDir(DirMade(ns, dp, name, i), d) <==> IsDir(ns, d) || d == i
    ensures IsRef(DirMade(ns, dp, name, i), j, d, k) <==>
      || IsRef(ns, j, d, k)
      || (j == i && d == dp && k == FreeSlot(ns[dp].entries, 0))
      || (j == dp && d == i && k == 1)
  {
    hide TreeOk, Refs, Linked, Padded, Key;
    NewEntry(ns, dp, name, i);
    DotKeys();
    RootNotZero(ns, dp);
  }

  /** Inode 0 is not used: entries with number 0 are free. */
  lemma RootNotZero(ns: Nodes, d: nat)
    requires TreeOk(ns) && IsDir(ns, d)
    ensures d != 0
  {
    assert ShapeOk(ns, d);
  }

  lemma DirCounts(ns: Nodes, dp: nat, name: string, i: nat, j: nat)
    requires CanMakeDir(ns, dp, name, i) && j in DirMade(ns, dp, name, i)
    ensures CountOk(DirMade(ns, dp, name, i), j)
  {
    hide Refs, IsRef, TreeOk;
    var ms, slot := DirMade(ns, dp, name, i), FreeSlot(ns[dp].entries, 0);
    forall d: nat, k: nat
      ensures IsRef(ms, j, d, k) <==> IsRef(ns, j, d, k) || (j == i && d == dp && k == slot) || (j == dp && d == i && k == 1)
    {
      DirRefs(ns, dp, name, i, j, d, k);
    }
    if j == i {
      FreshRefs(ns, i);
      SlotWasFree(ns, dp, i);
      RefsMore(ns, ms, i, dp, slot);
    } else if j == dp {
      FreshIsNoDir(ns, i, dp);
      RefsMore(ns, ms, dp, i, 1);
      CountHolds(ns, dp);
    } else {
      RefsSame(ns, ms, j);
      CountHolds(ns, j);
    }
  }

  lemma FreshIsNoDir(ns: Nodes, i: nat, j: nat)
    requires !InUse(ns, i)
    ensures !IsRef(ns, j, i, 1)
  {
  }

  lemma DirMadeKeeps(ns: Nodes, dp: nat, name: string, i: nat)
    requires CanMakeDir(ns, dp, name, i)
    ensures TreeOk(DirMade(ns, dp, name, i))
  {
    hide Refs, CountOk, Linked, Padded, Key, ShapeOk, ParentOk, EntryOk;
    var ms := DirMade(ns, dp, name, i);
    DirRefs(ns, dp, name, i, 0, ROOT, 0);
    forall j | j in ms ensures CountOk(ms, j) {
      DirCounts(ns, dp, name, i, j);
    }
    forall d | IsDir(ms, d) ensures ShapeOk(ms, d) && ParentOk(ms, d) {
      DirRefs(ns, dp, name, i, 0, d, 0);
      DirShape(ns, dp, name, i, d);
      DirParent(ns, dp, name, i, d);
    }
    forall d, k: nat | IsDir(ms, d) && k < |ms[d].entries| ensures EntryOk(ms, d, k) {
      DirRefs(ns, dp, name, i, 0, d, 0);
      DirEntry(ns, dp, name, i, d, k);
    }
  }

  lemma DirShape(ns: Nodes, dp: nat, name: string, i: nat, d: nat)
    requires CanMakeDir(ns, dp, name, i) && IsDir(DirMade(ns, dp, name, i), d)
    ensures ShapeOk(DirMade(ns, dp, name, i), d)
  {
    hide Refs, CountOk, ParentOk, EntryOk, Linked, Padded, Key;
    DotKeys();
    RootNotZero(ns, dp);
    NewEntry(ns, dp, name, i);
    assert d != i ==> ShapeOk(ns, d);
  }

  lemma DirParent(ns: Nodes, dp: nat, name: string, i: nat, c: nat)
    requires CanMakeDir(ns, dp, name, i) && IsDir(DirMade(ns, dp, name, i), c)
    ensures ParentOk(DirMade(ns, dp, name, i), c)
  {
    hide Refs, CountOk, EntryOk, Linked, Padded, Key;
    var ms, slot := DirMade(ns, dp, name, i), FreeSlot(ns[dp].entries, 0);
    NewEntry(ns, dp, name, i);
    if c == i {
      assert ms[i].entries[1].inum == dp && ms[dp].entries[slot].inum == i && Live(ms[dp].entries[slot]);
    } else {
      assert ShapeOk(ns, c) && ParentOk(ns, c);
      var p := ns[c].entries[1].inum;
      assert ms[c].entries[1] == ns[c].entries[1];
      if c != ROOT {
        var k :| 2 <= k < |ns[p].entries| && Live(ns[p].entries[k]) && ns[p].entries[k].inum == c;
        assert p != i && ms[p].entries[k] == ns[p].entries[k];
      }
    }
  }

  lemma DirEntry(ns: Nodes, dp: nat, name: string, i: nat, d: nat, k: nat)
    requires CanMakeDir(ns, dp, name, i) && IsDir(DirMade(ns, dp, name, i), d) && k < |DirMade(ns, dp, name, i)[d].entries|
    ensures EntryOk(DirMade(ns, dp, name, i), d, k)
  {
    hide Refs, CountOk, ParentOk, ShapeOk, Linked, Padded, Key;
    var ms, slot := DirMade(ns, dp, name, i), FreeSlot(ns[dp].entries, 0);
    NewEntry(ns, dp, name, i);
    if d == i {
    } else if d == dp && k == slot {
      forall j | 2 <= j < |ms[dp].entries| && Live(ms[dp].entries[j]) && ms[dp].entries[j].inum == i ensures j == k {
        assert j != slot ==> EntryOk(ns, dp, j);
      }
    } else {
      assert EntryOk(ns, d, k);
      var c := ns[d].entries[k].inum;
      if IsDir(ns, c) {
        DirSecond(ns, dp, name, i, c);
      }
    }
  }

  lemma DirSecond(ns: Nodes, dp: nat, name: string, i: nat, c: nat)
    requires CanMakeDir(ns, dp, name, i) && IsDir(ns, c)
    ensures var ms := DirMade(ns, dp, name, i);
      IsDir(ms, c) && c != i && 2 <= |ns[c].entries| <= |ms[c].entries| && ms[c].entries[1] == ns[c].entries[1]
  {
    hide Refs, CountOk, Linked, Padded, Key, ParentOk, EntryOk;
    assert ShapeOk(ns, c);
    NewEntry(ns, dp, name, i);
  }

  // ---- unlink ------------------------------------------------------------------------------------------------

  /** What sys_unlink checks before it removes entry k of dp. */
  ghost predicate CanUnlink(ns: Nodes, dp: nat, k: nat) {
    && TreeOk(ns) && IsDir(ns, dp) && 2 <= k < |ns[dp].entries| && Live(ns[dp].entries[k])
    && ns[dp].entries[k].inum in ns
    && (ns[ns[dp].entries[k].inum].kind == T_DIR ==> Hollow(ns[ns[dp].entries[k].inum].entries))
  }

  /** isdirempty. */
  ghost predicate Hollow(es: seq<Dirent>) { forall i :: 2 <= i < |es| ==> !Live(es[i]) }

  function Target(ns: Nodes, dp: nat, k: nat): nat
    requires dp in ns && k < |ns[dp].entries|
  {
    ns[dp].entries[k].inum
  }

  /** Entries from the third on are not called ".". */
  lemma NameIsNotDot(ns: Nodes, d: nat, k: nat)
    requires TreeOk(ns) && IsDir(ns, d) && 1 <= k < |ns[d].entries| && Live(ns[d].entries[k])
    ensures Key(ns[d].entries[k].name) != "." && Live(ns[d].entries[0]) && Key(ns[d].entries[0].name) == "." && ns[d].entries[0].inum == d
  {
    hide Refs, CountOk, Key, ParentOk, EntryOk;
    assert ShapeOk(ns, d);
  }

  lemma RefCounts(ns: Nodes, i: nat, d: nat, k: nat)
    requires TreeOk(ns) && IsRef(ns, i, d, k)
    ensures InUse(ns, i) && ns[i].nlink >= 1
  {
    hide IsRef, TreeOk;
    RefInUse(ns, i, d, k);
    CountHolds(ns, i);
    assert (d, k) in Refs(ns, i);
    assert Refs(ns, i) != {};
  }

  /** An empty directory is named by its entry in its parent, and by nothing else. */
  lemma OnlyRef(ns: Nodes, dp: nat, k: nat, d: nat, j: nat)
    requires CanUnlink(ns, dp, k) && ns[Target(ns, dp, k)].kind == T_DIR && IsRef(ns, Target(ns, dp, k), d, j)
    ensures d == dp && j == k
  {
    hide Refs, CountOk, Key;
    var t := Target(ns, dp, k);
    assert EntryOk(ns, dp, k) && EntryOk(ns, d, j) && ShapeOk(ns, d) && ParentOk(ns, d);
  }

  lemma UnlinkFacts(ns: Nodes, dp: nat, k: nat)
    requires CanUnlink(ns, dp, k)
    ensures var t := Target(ns, dp, k); InUse(ns, t) && IsRef(ns, t, dp, k) && t != dp && t != ROOT && ns[t].nlink >= 1
    ensures var t := Target(ns, dp, k);
      ns[t].kind == T_DIR ==> IsDir(ns, t) && ns[t].nlink == 1 && 2 <= |ns[t].entries| && ns[t].entries[1].inum == dp
  {
    hide Refs, CountOk, Key, ParentOk;
    var t := Target(ns, dp, k);
    assert EntryOk(ns, dp, k);
    NameIsNotDot(ns, dp, k);
    RefCounts(ns, t, dp, k);
    if ns[t].kind == T_DIR {
      OneRef(ns, dp, k);
    }
  }

  lemma OneRef(ns: Nodes, dp: nat, k: nat)
    requires CanUnlink(ns, dp, k) && ns[Target(ns, dp, k)].kind == T_DIR && IsRef(ns, Target(ns, dp, k), dp, k)
    ensures ns[Target(ns, dp, k)].nlink == 1
  {
    hide IsRef, TreeOk, Hollow;
    var t := Target(ns, dp, k);
    UnlinkTree(ns, dp, k);
    CountHolds(ns, t);
    forall x | x in Refs(ns, t) ensures x == (dp, k) {
      SomeRef(ns, t, x);
      OnlyRef(ns, dp, k, x.0, x.1);
    }
    assert (dp, k) in Refs(ns, t);
    assert Refs(ns, t) == {(dp, k)};
  }

  lemma UnlinkTree(ns: Nodes, dp: nat, k: nat)
    requires CanUnlink(ns, dp, k)
    ensures TreeOk(ns) && Target(ns, dp, k) in ns
  {
  }

  /** A directory with a subdirectory has two links at least. */
  lemma TwoRefs(ns: Nodes, dp: nat, k: nat)
    requires CanUnlink(ns, dp, k) && ns[Target(ns, dp, k)].kind == T_DIR
    ensures ns[dp].nlink >= 2 && IsRef(ns, dp, Target(ns, dp, k), 1)
  {
    hide Refs, CountOk, Key, EntryOk;
    var t := Target(ns, dp, k);
    UnlinkFacts(ns, dp, k);
    assert ShapeOk(ns, t) && ParentOk(ns, dp);
    NameIsNotDot(ns, t, 1);
    var p := ns[dp].entries[1].inum;
    if dp == ROOT {
      NameIsNotDot(ns, ROOT, 1);
      TwoInSet(ns, dp, t, 1, ROOT, 1);
    } else {
      var j :| 2 <= j < |ns[p].entries| && Live(ns[p].entries[j]) && ns[p].entries[j].inum == dp;
      NameIsNotDot(ns, p, j);
      TwoInSet(ns, dp, t, 1, p, j);
    }
  }

  lemma TwoInSet(ns: Nodes, i: nat, d: nat, k: nat, e: nat, j: nat)
    requires TreeOk(ns) && IsRef(ns, i, d, k) && IsRef(ns, i, e, j) && (d != e || k != j)
    ensures i in ns && ns[i].nlink >= 2
  {
    hide TreeOk, IsRef;
    RefInUse(ns, i, d, k);
    CountHolds(ns, i);
    var both := {(d, k), (e, j)};
    assert both <= Refs(ns, i) && |both| == 2;
    SubsetSmaller(both, Refs(ns, i));
  }

  lemma SubsetSmaller<T>(a: set<T>, b: set<T>)
    requires a <= b
    ensures |a| <= |b|
  {
    assert b == a + (b - a);
  }

  /** The links after unlink: the entry is gone, and so are those of a directory that it named. */
  lemma UnlinkRefs(ns: Nodes, dp: nat, k: nat, i: nat, d: nat, j: nat)
    requires CanUnlink(ns, dp, k)
    ensures var t := Target(ns, dp, k);
      IsDir(Unlinked(ns, dp, k), d) <==> IsDir(ns, d) && !(d == t && ns[t].kind == T_DIR)
    ensures var t := Target(ns, dp, k);
      IsRef(Unlinked(ns, dp, k), i, d, j) <==> IsRef(ns, i, d, j) && !(d == dp && j == k) && !(d == t && ns[t].kind == T_DIR)
  {
    hide TreeOk, Key, Padded, Hollow;
    var t := Target(ns, dp, k);
    UnlinkFacts(ns, dp, k);
    if ns[t].kind == T_DIR {
      TwoRefs(ns, dp, k);
    }
  }

  /** An empty directory links to its parent only. */
  lemma HollowRefs(ns: Nodes, dp: nat, k: nat, i: nat, j: nat)
    requires CanUnlink(ns, dp, k) && ns[Target(ns, dp, k)].kind == T_DIR && IsRef(ns, i, Target(ns, dp, k), j)
    ensures i == dp && j == 1
  {
    hide Refs, CountOk, Key, EntryOk, ParentOk;
    UnlinkFacts(ns, dp, k);
    assert ShapeOk(ns, Target(ns, dp, k));
  }

  lemma UnlinkCounts(ns: Nodes, dp: nat, k: nat, i: nat)
    requires CanUnlink(ns, dp, k) && i in Unlinked(ns, dp, k)
    ensures CountOk(Unlinked(ns, dp, k), i)
  {
    hide IsRef, TreeOk, Hollow;
    var ms, t := Unlinked(ns, dp, k), Target(ns, dp, k);
    UnlinkTree(ns, dp, k);
    UnlinkFacts(ns, dp, k);
    CountHolds(ns, i);
    forall d: nat, j: nat
      ensures IsRef(ms, i, d, j) <==> IsRef(ns, i, d, j) && !(d == dp && j == k) && !(d == t && ns[t].kind == T_DIR)
      ensures ns[t].kind == T_DIR && IsRef(ns, i, t, j) ==> i == dp && j == 1
    {
      UnlinkRefs(ns, dp, k, i, d, j);
      if ns[t].kind == T_DIR && IsRef(ns, i, t, j) {
        HollowRefs(ns, dp, k, i, j);
      }
    }
    if i == t {
      RefsFewer(ns, ms, t, dp, k);
    } else {
      NotItsTarget(ns, i, dp, k);
      if i == dp && ns[t].kind == T_DIR {
        TwoRefs(ns, dp, k);
        RefsFewer(ns, ms, dp, t, 1);
      } else {
        RefsSame(ns, ms, i);
      }
    }
  }

  lemma NotItsTarget(ns: Nodes, i: nat, dp: nat, k: nat)
    requires dp in ns && k < |ns[dp].entries| && i != Target(ns, dp, k)
    ensures !IsRef(ns, i, dp, k)
  {
  }

  lemma UnlinkShape(ns: Nodes, dp: nat, k: nat, d: nat)
    requires CanUnlink(ns, dp, k) && IsDir(Unlinked(ns, dp, k), d)
    ensures ShapeOk(Unlinked(ns, dp, k), d)
  {
    hide Refs, CountOk, Key, EntryOk, ParentOk, Padded, IsRef;
    UnlinkRefs(ns, dp, k, 0, d, 0);
    UnlinkFacts(ns, dp, k);
    assert ShapeOk(ns, d);
  }

  lemma UnlinkParent(ns: Nodes, dp: nat, k: nat, c: nat)
    requires CanUnlink(ns, dp, k) && IsDir(Unlinked(ns, dp, k), c)
    ensures ParentOk(Unlinked(ns, dp, k), c)
  {
    hide Refs, CountOk, Key, EntryOk, Padded, IsRef;
    var ms, t := Unlinked(ns, dp, k), Target(ns, dp, k);
    UnlinkRefs(ns, dp, k, 0, c, 0);
    UnlinkFacts(ns, dp, k);
    assert ShapeOk(ns, c) && ParentOk(ns, c);
    var p := ns[c].entries[1].inum;
    assert ms[c].entries[1] == ns[c].entries[1];
    if c != ROOT {
      UnlinkRefs(ns, dp, k, 0, p, 0);
      var j :| 2 <= j < |ns[p].entries| && Live(ns[p].entries[j]) && ns[p].entries[j].inum == c;
      assert ms[p].entries[j] == ns[p].entries[j];
    }
  }

  lemma UnlinkEntry(ns: Nodes, dp: nat, k: nat, d: nat, j: nat)
    requires CanUnlink(ns, dp, k) && IsDir(Unlinked(ns, dp, k), d) && j < |Unlinked(ns, dp, k)[d].entries|
    ensures EntryOk(Unlinked(ns, dp, k), d, j)
  {
    hide Refs, CountOk, Key, ParentOk, Padded;
    var ms, t := Unlinked(ns, dp, k), Target(ns, dp, k);
    UnlinkRefs(ns, dp, k, 0, d, 0);
    UnlinkFacts(ns, dp, k);
    if !(d == dp && j == k) && Live(ns[d].entries[j]) {
      assert EntryOk(ns, d, j);
      var c := ns[d].entries[j].inum;
      if j >= 2 && ns[c].kind == T_DIR {
        NameIsNotDot(ns, d, j);
        UnlinkRefs(ns, dp, k, c, c, 0);
        OtherTarget(ns, dp, k, d, j);
      }
    }
  }

  lemma OtherTarget(ns: Nodes, dp: nat, k: nat, d: nat, j: nat)
    requires CanUnlink(ns, dp, k) && IsDir(ns, d) && j < |ns[d].entries| && !(d == dp && j == k)
    requires IsRef(ns, Target(ns, d, j), d, j)
    ensures ns[Target(ns, dp, k)].kind == T_DIR ==> Target(ns, d, j) != Target(ns, dp, k)
  {
    hide TreeOk, IsRef, Hollow;
    UnlinkTree(ns, dp, k);
    if ns[Target(ns, dp, k)].kind == T_DIR && Target(ns, d, j) == Target(ns, dp, k) {
      OnlyRef(ns, dp, k, d, j);
    }
  }

  lemma UnlinkKeeps(ns: Nodes, dp: nat, k: nat)
    requires CanUnlink(ns, dp, k)
    ensures TreeOk(Unlinked(ns, dp, k))
  {
    hide Refs, CountOk, ShapeOk, ParentOk, EntryOk, Unlinked, IsRef, Hollow;
    var ms := Unlinked(ns, dp, k);
    UnlinkRefs(ns, dp, k, 0, ROOT, 0);
    UnlinkFacts(ns, dp, k);
    forall i | i in ms ensures CountOk(ms, i) {
      UnlinkCounts(ns, dp, k, i);
    }
    forall d | IsDir(ms, d) ensures ShapeOk(ms, d) && ParentOk(ms, d) {
      UnlinkShape(ns, dp, k, d);
      UnlinkParent(ns, dp, k, d);
    }
    forall d, j: nat | IsDir(ms, d) && j < |ms[d].entries| ensures EntryOk(ms, d, j) {
      UnlinkEntry(ns, dp, k, d, j);
    }
  }

  // ---- freeing an inode ------------------------------------------------------------------------------------------

  lemma ReapedKeeps(ns: Nodes, i: nat)
    requires TreeOk(ns) && i in ns && ns[i].nlink == 0
    ensures TreeOk(Reaped(ns, i))
  {
    hide Refs, CountOk, Key;
    var ms := Reaped(ns, i);
    forall d: nat, k: nat, j: nat ensures IsRef(ms, j, d, k) <==> IsRef(ns, j, d, k) {
    }
    forall j | j in ms ensures CountOk(ms, j) {
      ReapedCount(ns, i, j);
    }
    forall d | IsDir(ms, d) ensures ShapeOk(ms, d) && ParentOk(ms, d) {
      assert ShapeOk(ns, d) && ParentOk(ns, d);
    }
    forall d, k: nat | IsDir(ms, d) && k < |ms[d].entries| ensures EntryOk(ms, d, k) {
      assert EntryOk(ns, d, k) && ShapeOk(ns, d);
      if Live(ns[d].entries[k]) {
        TargetLinked(ns, d, k);
      }
    }
  }

  lemma TargetLinked(ns: Nodes, d: nat, k: nat)
    requires TreeOk(ns) && IsDir(ns, d) && k < |ns[d].entries| && Live(ns[d].entries[k])
    ensures ns[d].entries[k].inum in ns && ns[ns[d].entries[k].inum].nlink > 0
  {
    hide Refs, CountOk, Key, EntryOk, ParentOk;
    assert ShapeOk(ns, d);
    if k > 0 {
      NameIsNotDot(ns, d, k);
      RefCounts(ns, ns[d].entries[k].inum, d, k);
    }
  }

  lemma ReapedCount(ns: Nodes, i: nat, j: nat)
    requires TreeOk(ns) && i in ns && ns[i].nlink == 0 && j in Reaped(ns, i)
    ensures CountOk(Reaped(ns, i), j)
  {
    hide TreeOk;
    CountHolds(ns, j);
    RefsSame(ns, Reaped(ns, i), j);
  }
}
