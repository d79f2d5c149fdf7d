/** sys_link, sys_unlink and create (sysfile.c), and link counts over whole runs of them. */
module DirCalls {
  import opened Wrappers
  import opened DirEntries
  import opened DirTree
  import opened DirTreeProof

  /** What create answers: the inode that was there or is new, or 0. */
  datatype Created = Existing(i: nat) | Fresh(i: nat) | Refused

  class Tree {
    var nodes: Nodes

    /** mkfs: a root directory and nothing else. */
    constructor ()
      ensures nodes == Empty()
    {
      nodes := Empty();
    }

    /** sys_link of inode ip into directory dp. */
    method Link(ip: nat, dp: nat, name: string) returns (ok: bool)
      requires TreeOk(nodes) && IsDir(nodes, dp) && InUse(nodes, ip) && ip != 0
      modifies this
      ensures TreeOk(nodes)
      ensures ok <==> old(nodes)[ip].kind != T_DIR && Absent(old(nodes)[dp].entries, name)
      ensures nodes == if ok then LinkMade(old(nodes), ip, dp, name) else old(nodes)
    {
      hide TreeOk, Linked;
      if nodes[ip].kind == T_DIR {
        return false;
      }
      ghost var ns := nodes;
      nodes := nodes[ip := nodes[ip].(nlink := nodes[ip].nlink + 1)];
      var es := DirLink(nodes[dp].entries, name, ip);
      if es.None? {
        nodes := nodes[ip := nodes[ip].(nlink := nodes[ip].nlink - 1)];
        assert nodes == ns;
        return false;
      }
      LinkMadeKeeps(ns, ip, dp, name);
      nodes := nodes[dp := nodes[dp].(entries := es.value)];
      return true;
    }

    /** isdirempty: entries from the third on are all free. */
    method IsDirEmpty(es: seq<Dirent>) returns (empty: bool)
      ensures empty <==> Hollow(es)
    {
      var off := 2;
      while off < |es|
        invariant 2 <= off && forall i :: 2 <= i < off && i < |es| ==> !Live(es[i])
      {
        if es[off].inum != 0 {
          return false;
        }
        off := off + 1;
      }
      return true;
    }

    /** sys_unlink of name in directory dp. Its panic on a link count below 1 is unreachable. */
    method Unlink(dp: nat, name: string) returns (ok: bool)
      requires TreeOk(nodes) && IsDir(nodes, dp)
      modifies this
      ensures TreeOk(nodes)
      ensures ok <==> Removable(old(nodes), dp, name)
      ensures if ok then RemovedFrom(old(nodes), dp, name, nodes) else nodes == old(nodes)
    {
      hide TreeOk, Hollow;
      DotKeys();
      var dot := SameName(name, ".");
      var dots := SameName(name, "..");
      if dot || dots {
        return false;
      }
      var k := DirLookup(nodes[dp].entries, name);
      if k.None? {
        return false;
      }
      FoundEntry(nodes, dp, name, k.value);
      var ip := nodes[dp].entries[k.value].inum;
      if nodes[ip].nlink < 1 {
        assert false;
      }
      if nodes[ip].kind == T_DIR {
        var empty := IsDirEmpty(nodes[ip].entries);
        if !empty {
          return false;
        }
      }
      OnlyOne(nodes, dp, name, k.value);
      Remove(dp, k.value);
      return true;
    }

    /** The writes of sys_unlink. */
    method Remove(dp: nat, k: nat)
      requires CanUnlink(nodes, dp, k)
      modifies this
      ensures TreeOk(nodes) && nodes == Unlinked(old(nodes), dp, k)
    {
      hide TreeOk, Hollow, Padded;
      ghost var ns := nodes;
      UnlinkKeeps(ns, dp, k);
      UnlinkFacts(ns, dp, k);
      var ip := nodes[dp].entries[k].inum;
      nodes := nodes[dp := nodes[dp].(entries := nodes[dp].entries[k := Cleared()])];
      if nodes[ip].kind == T_DIR {
        nodes := nodes[dp := nodes[dp].(nlink := nodes[dp].nlink - 1)];
      }
      nodes := nodes[ip := nodes[ip].(nlink := nodes[ip].nlink - 1)];
      assert nodes == Unlinked(ns, dp, k);
    }

    /** create in directory dp; i is the inode that ialloc would give. */
    method Create(dp: nat, name: string, kind: nat, i: nat) returns (r: Created)
      requires TreeOk(nodes) && IsDir(nodes, dp) && kind != 0 && i != 0 && !InUse(nodes, i)
      modifies this
      ensures TreeOk(nodes)
      ensures r.Fresh? <==> Absent(old(nodes)[dp].entries, name)
      ensures r.Fresh? ==> r.i == i && nodes == if kind == T_DIR then DirMade(old(nodes), dp, name, i) else FileMade(old(nodes), dp, name, kind, i)
      ensures r.Fresh? ==> i in nodes && nodes[i].kind == kind && nodes[i].nlink == 1 && Binds(nodes[dp].entries, Key(name), i)
      ensures !r.Fresh? ==> nodes == old(nodes)
      ensures r.Existing? <==> kind == T_FILE && exists f :: NamesFile(old(nodes), dp, name, f)
      ensures r.Existing? ==> NamesFile(old(nodes), dp, name, r.i)
    {
      hide TreeOk, Linked;
      ghost var ns := nodes;
      var k := DirLookup(nodes[dp].entries, name);
      if k.Some? {
        var ip := nodes[dp].entries[k.value].inum;
        EntryInUse(nodes, dp, k.value);
        OneBound(nodes, dp, name, k.value);
        if kind == T_FILE && nodes[ip].kind == T_FILE {
          assert NamesFile(ns, dp, name, ip);
          return Existing(ip);
        }
        return Refused;
      }
      var es := DirLink(nodes[dp].entries, name, i);
      NewBinding(nodes, dp, name, i);
      if kind == T_DIR {
        DirMadeKeeps(ns, dp, name, i);
        nodes := nodes[i := Node(T_DIR, 1, [Dirent(i, Padded(".")), Dirent(dp, Padded(".."))])];
        nodes := nodes[dp := nodes[dp].(nlink := nodes[dp].nlink + 1)];
        nodes := nodes[dp := nodes[dp].(entries := es.value)];
        assert nodes == DirMade(ns, dp, name, i);
      } else {
        FileMadeKeeps(ns, dp, name, kind, i);
        nodes := nodes[i := Node(kind, 1, [])];
        nodes := nodes[dp := nodes[dp].(entries := es.value)];
      }
      return Fresh(i);
    }
  }

  /** A directory that is not empty. */
  ghost predicate FullDir(ns: Nodes, i: nat) { i in ns && ns[i].kind == T_DIR && !Hollow(ns[i].entries) }

  /** name stands for the plain file i. */
  ghost predicate NamesFile(ns: Nodes, dp: nat, name: string, i: nat) {
    dp in ns && Binds(ns[dp].entries, Key(name), i) && InUse(ns, i) && ns[i].kind == T_FILE
  }

  /** name is there, is neither "." nor "..", and does not name a directory with entries. */
  ghost predicate Removable(ns: Nodes, dp: nat, name: string)
    requires dp in ns
  {
    && Key(name) != "." && Key(name) != ".." && !Absent(ns[dp].entries, name)
    && forall k :: 0 <= k < |ns[dp].entries| && Named(ns[dp].entries[k], Key(name)) ==> !FullDir(ns, ns[dp].entries[k].inum)
  }

  /** ms is ns with the entry called name taken out of dp. */
  ghost predicate RemovedFrom(ns: Nodes, dp: nat, name: string, ms: Nodes)
    requires dp in ns
  {
    exists k: nat :: k < |ns[dp].entries| && Named(ns[dp].entries[k], Key(name)) && ns[dp].entries[k].inum in ns && ms == Unlinked(ns, dp, k)
  }

  function Empty(): Nodes { map[ROOT := Node(T_DIR, 1, [Dirent(ROOT, Padded(".")), Dirent(ROOT, Padded(".."))])] }

  lemma EntryInUse(ns: Nodes, dp: nat, k: nat)
    requires TreeOk(ns) && IsDir(ns, dp) && k < |ns[dp].entries| && Live(ns[dp].entries[k])
    ensures InUse(ns, ns[dp].entries[k].inum)
  {
    assert EntryOk(ns, dp, k);
  }

  /** A name other than "." and ".." is found behind those two, and its inode is linked. */
  lemma FoundEntry(ns: Nodes, dp: nat, name: string, k: nat)
    requires TreeOk(ns) && IsDir(ns, dp) && k < |ns[dp].entries| && Named(ns[dp].entries[k], Key(name)) && Key(name) != "." && Key(name) != ".."
    ensures k >= 2 && ns[dp].entries[k].inum in ns && ns[ns[dp].entries[k].inum].nlink >= 1
  {
    hide Refs, CountOk, Key, EntryOk, ParentOk;
    assert ShapeOk(ns, dp);
    RefCounts(ns, ns[dp].entries[k].inum, dp, k);
  }

  lemma OnlyOne(ns: Nodes, dp: nat, name: string, k: nat)
    requires TreeOk(ns) && IsDir(ns, dp) && k < |ns[dp].entries| && Named(ns[dp].entries[k], Key(name))
    ensures forall j :: 0 <= j < |ns[dp].entries| && Named(ns[dp].entries[j], Key(name)) ==> j == k
  {
    hide Refs, CountOk, Key, EntryOk, ParentOk;
    assert ShapeOk(ns, dp);
  }

  /** The name stands for the inode of the entry found. */
  lemma OneBound(ns: Nodes, dp: nat, name: string, k: nat)
    requires TreeOk(ns) && IsDir(ns, dp) && k < |ns[dp].entries| && Named(ns[dp].entries[k], Key(name))
    ensures forall f: nat :: NamesFile(ns, dp, name, f) ==> f == ns[dp].entries[k].inum
    ensures Binds(ns[dp].entries, Key(name), ns[dp].entries[k].inum)
  {
    hide TreeOk, Key;
    OnlyOne(ns, dp, name, k);
  }

  lemma NewBinding(ns: Nodes, dp: nat, name: string, i: nat)
    requires TreeOk(ns) && IsDir(ns, dp) && Absent(ns[dp].entries, name) && i != 0
    ensures Binds(Linked(ns[dp].entries, name, i), Key(name), i)
  {
    hide Refs, CountOk, Key, EntryOk, ParentOk, Linked, Binds;
    assert ShapeOk(ns, dp);
    LinkedBinds(ns[dp].entries, name, i);
  }

  lemma EmptyOk()
    ensures TreeOk(Empty())
  {
    hide Refs, Padded;
    DotKeys();
    var ns := Empty();
    forall d: nat, k: nat ensures IsRef(ns, ROOT, d, k) <==> d == ROOT && k == 1 {
    }
    OneLink(ns);
    assert ShapeOk(ns, ROOT) && ParentOk(ns, ROOT);
    forall d, k: nat | IsDir(ns, d) && k < |ns[d].entries| ensures EntryOk(ns, d, k) {
    }
  }

  lemma OneLink(ns: Nodes)
    requires forall d: nat, k: nat :: IsRef(ns, ROOT, d, k) <==> d == ROOT && k == 1
    ensures |Refs(ns, ROOT)| == 1
  {
    hide IsRef;
    forall x | x in Refs(ns, ROOT) ensures x == (ROOT, 1) {
      SomeRef(ns, ROOT, x);
    }
    assert (ROOT, 1) in Refs(ns, ROOT);
    assert Refs(ns, ROOT) == {(ROOT, 1)};
  }

  // ---- whole runs --------------------------------------------------------------------------------------------

  datatype Call =
    | MakeFile(dp: nat, name: string, kind: nat, i: nat)
    | MakeDir(dp: nat, name: string, i: nat)
    | AddLink(ip: nat, dp: nat, name: string)
    | DropLink(dp: nat, k: nat)
    | Free(i: nat)

  /** The calls that get past their checks, with directories that are linked. */
  ghost predicate Enabled(ns: Nodes, c: Call) {
    match c
    case MakeFile(dp, name, kind, i) =>
      IsDir(ns, dp) && Absent(ns[dp].entries, name) && i != 0 && !InUse(ns, i) && kind != 0 && kind != T_DIR
    case MakeDir(dp, name, i) => IsDir(ns, dp) && Absent(ns[dp].entries, name) && i != 0 && !InUse(ns, i)
    case AddLink(ip, dp, name) =>
      IsDir(ns, dp) && Absent(ns[dp].entries, name) && ip != 0 && InUse(ns, ip) && ns[ip].kind != T_DIR
    case DropLink(dp, k) =>
      && IsDir(ns, dp) && 2 <= k < |ns[dp].entries| && Live(ns[dp].entries[k]) && ns[dp].entries[k].inum in ns
      && (ns[ns[dp].entries[k].inum].kind == T_DIR ==> Hollow(ns[ns[dp].entries[k].inum].entries))
    case Free(i) => i in ns && ns[i].nlink == 0
  }

  ghost function Do(ns: Nodes, c: Call): Nodes
    requires Enabled(ns, c)
  {
    match c
    case MakeFile(dp, name, kind, i) => FileMade(ns, dp, name, kind, i)
    case MakeDir(dp, name, i) => DirMade(ns, dp, name, i)
    case AddLink(ip, dp, name) => LinkMade(ns, ip, dp, name)
    case DropLink(dp, k) => Unlinked(ns, dp, k)
    case Free(i) => Reaped(ns, i)
  }

  lemma KeepCall(ns: Nodes, c: Call)
    requires TreeOk(ns) && Enabled(ns, c)
    ensures TreeOk(Do(ns, c))
  {
    hide TreeOk, Hollow, FileMade, DirMade, LinkMade, Unlinked, Reaped;
    match c
    case MakeFile(dp, name, kind, i) => FileMadeKeeps(ns, dp, name, kind, i);
    case MakeDir(dp, name, i) => DirMadeKeeps(ns, dp, name, i);
    case AddLink(ip, dp, name) => LinkMadeKeeps(ns, ip, dp, name);
    case DropLink(dp, k) => UnlinkKeeps(ns, dp, k);
    case Free(i) => ReapedKeeps(ns, i);
  }

  ghost predicate Run(ns: Nodes, calls: seq<Call>, ms: Nodes)
    decreases |calls|
  {
    if calls == [] then ns == ms else Enabled(ns, calls[0]) && Run(Do(ns, calls[0]), calls[1..], ms)
  }

  lemma {:induction false} RunTree(ns: Nodes, calls: seq<Call>, ms: Nodes)
    requires TreeOk(ns) && Run(ns, calls, ms)
    ensures TreeOk(ms)
    decreases |calls|
  {
    hide TreeOk, Do, Enabled;
    if calls != [] {
      KeepCall(ns, calls[0]);
      RunTree(Do(ns, calls[0]), calls[1..], ms);
    }
  }

  /** After any calls on a fresh file system, the link count of every inode in use is the number of
      entries that name it in linked directories, "." left out, and these directories have no
      name twice. */
  lemma LinkCounts(calls: seq<Call>, ns: Nodes, i: nat)
    requires Run(Empty(), calls, ns) && InUse(ns, i)
    ensures ns[i].nlink == |Refs(ns, i)|
    ensures IsDir(ns, i) ==> NoDups(ns[i].entries)
  {
    hide Run, Refs;
    EmptyOk();
    RunTree(Empty(), calls, ns);
    assert CountOk(ns, i);
    assert IsDir(ns, i) ==> ShapeOk(ns, i);
  }
}
