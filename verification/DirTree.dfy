/** Link counts (fs.c, sysfile.c): create, link and unlink on a tree of directories. */
module DirTree {
  import opened DirEntries

  const T_DIR: nat := 1
  const T_FILE: nat := 2
  const ROOT: nat := 1

  /** An inode with its type, link count and, for a directory, its entries. Type 0 means free. */
  datatype Node = Node(kind: nat, nlink: int, entries: seq<Dirent>)

  type Nodes = map<nat, Node>

  predicate InUse(ns: Nodes, i: nat) { i in ns && ns[i].kind != 0 }

  /** A directory that is still linked. */
  predicate IsDir(ns: Nodes, d: nat) { d in ns && ns[d].kind == T_DIR && ns[d].nlink > 0 }

  /** Entry k of linked directory d is one of the links to i; "." does not count. */
  predicate IsRef(ns: Nodes, i: nat, d: nat, k: nat) {
    IsDir(ns, d) && k < |ns[d].entries| && Live(ns[d].entries[k]) && ns[d].entries[k].inum == i && Key(ns[d].entries[k].name) != "."
  }

  ghost function Refs(ns: Nodes, i: nat): (r: set<(nat, nat)>)
    ensures forall d: nat, k: nat :: (d, k) in r <==> IsRef(ns, i, d, k)
  {
    set d: nat, k: nat | d in ns && k < |ns[d].entries| && IsRef(ns, i, d, k) :: (d, k)
  }

  // ---- the invariant -----------------------------------------------------------------------------------

  ghost predicate CountOk(ns: Nodes, i: nat)
    requires i in ns
  {
    ns[i].kind != 0 ==> ns[i].nlink == |Refs(ns, i)|
  }

  /** A linked directory starts with "." and "..", and its names are distinct. */
  ghost predicate ShapeOk(ns: Nodes, d: nat)
    requires IsDir(ns, d)
  {
    var es := ns[d].entries;
    && 2 <= |es| && Named(es[0], ".") && es[0].inum == d && Named(es[1], "..") && NoDups(es)
  }

  /** An entry names an inode in use; if that is a directory, its ".." leads back, and it has no
      other entry. */
  ghost predicate EntryOk(ns: Nodes, d: nat, k: nat)
    requires IsDir(ns, d) && k < |ns[d].entries|
  {
    var es := ns[d].entries;
    Live(es[k]) ==>
      && InUse(ns, es[k].inum)
      && (k >= 2 && ns[es[k].inum].kind == T_DIR ==>
            && es[k].inum != ROOT && IsDir(ns, es[k].inum) && 2 <= |ns[es[k].inum].entries|
            && ns[es[k].inum].entries[1].inum == d
            && forall j :: 2 <= j < |es| && Live(es[j]) && es[j].inum == es[k].inum ==> j == k)
  }

  /** A linked directory other than the root has an entry in the directory that its ".." names. */
  ghost predicate ParentOk(ns: Nodes, c: nat)
    requires IsDir(ns, c)
  {
    2 <= |ns[c].entries| && var p := ns[c].entries[1].inum;
    if c == ROOT then p == ROOT
    else IsDir(ns, p) && exists k :: 2 <= k < |ns[p].entries| && Live(ns[p].entries[k]) && ns[p].entries[k].inum == c
  }

  ghost predicate TreeOk(ns: Nodes) {
    && IsDir(ns, ROOT)
    && (forall i :: i in ns ==> CountOk(ns, i))
    && (forall d :: IsDir(ns, d) ==> ShapeOk(ns, d) && ParentOk(ns, d))
    && (forall d, k: nat :: IsDir(ns, d) && k < |ns[d].entries| ==> EntryOk(ns, d, k))
  }

  // ---- operations ------------------------------------------------------------------------------------------

  function WithEntry(n: Node, name: string, inum: nat): Node { n.(entries := Linked(n.entries, name, inum)) }

  ghost predicate Absent(es: seq<Dirent>, name: string) { forall i :: 0 <= i < |es| ==> !Named(es[i], Key(name)) }

  /** create of a file or device inode i in directory dp. */
  function FileMade(ns: Nodes, dp: nat, name: string, kind: nat, i: nat): Nodes
    requires dp in ns
  {
    ns[i := Node(kind, 1, [])][dp := WithEntry(ns[dp], name, i)]
  }

  /** create of a directory, with its two entries. */
  function DirMade(ns: Nodes, dp: nat, name: string, i: nat): Nodes
    requires dp in ns
  {
    var n := Node(T_DIR, 1, [Dirent(i, Padded(".")), Dirent(dp, Padded(".."))]);
    ns[i := n][dp := WithEntry(ns[dp], name, i).(nlink := ns[dp].nlink + 1)]
  }

  /** link of inode ip, not a directory, into dp. */
  function LinkMade(ns: Nodes, ip: nat, dp: nat, name: string): Nodes
    requires dp in ns && ip in ns
  {
    ns[ip := ns[ip].(nlink := ns[ip].nlink + 1)][dp := WithEntry(ns[dp], name, ip)]
  }

  function Cleared(): Dirent { Dirent(0, Padded("")) }

  /** unlink of entry k of dp, which names t. */
  function Unlinked(ns: Nodes, dp: nat, k: nat): Nodes
    requires dp in ns && k < |ns[dp].entries| && ns[dp].entries[k].inum in ns
  {
    var t := ns[dp].entries[k].inum;
    var lost := if ns[t].kind == T_DIR then 1 else 0;
    var ms := ns[dp := Node(ns[dp].kind, ns[dp].nlink - lost, ns[dp].entries[k := Cleared()])];
    ms[t := ms[t].(nlink := ms[t].nlink - 1)]
  }

  /** iput of the last reference to an inode without links. */
  function Reaped(ns: Nodes, i: nat): Nodes { ns[i := Node(0, 0, [])] }

  // ---- counting ---------------------------------------------------------------------------------------------

  lemma RefsSame(ns: Nodes, ms: Nodes, i: nat)
    requires forall d: nat, k: nat :: IsRef(ms, i, d, k) <==> IsRef(ns, i, d, k)
    ensures Refs(ms, i) == Refs(ns, i)
  {
    assert forall x :: x in Refs(ms, i) <==> x in Refs(ns, i);
  }

  lemma RefsMore(ns: Nodes, ms: Nodes, i: nat, d: nat, k: nat)
    requires !IsRef(ns, i, d, k) && forall e: nat, j: nat :: IsRef(ms, i, e, j) <==> IsRef(ns, i, e, j) || (e == d && j == k)
    ensures |Refs(ms, i)| == |Refs(ns, i)| + 1
  {
    assert Refs(ms, i) == Refs(ns, i) + {(d, k)} by {
      assert forall x :: x in Refs(ms, i) <==> x in Refs(ns, i) + {(d, k)};
    }
  }

  lemma RefsFewer(ns: Nodes, ms: Nodes, i: nat, d: nat, k: nat)
    requires IsRef(ns, i, d, k) && forall e: nat, j: nat :: IsRef(ms, i, e, j) <==> IsRef(ns, i, e, j) && !(e == d && j == k)
    ensures |Refs(ms, i)| == |Refs(ns, i)| - 1
  {
    RefsMore(ms, ns, i, d, k);
  }
}
