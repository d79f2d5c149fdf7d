/** log_write can panic exactly when the log region has no room for LOGSIZE blocks behind its header. */
module LogPanic {
  import opened Wrappers
  import opened Blocks
  import opened LogMachine
  import opened LogInvariant
  import opened LogTheorems
  import opened LogRuns

  /** No run leads an operation that stays within MAXOPBLOCKS calls into a panic of log_write. */
  ghost predicate NeverPanics(L: Layout, disk: seq<Block>)
    requires ValidLayout(L)
  {
    forall t, pid :: Reach(L, Initial(disk), t) && pid in t.ops && t.ops[pid].used < MAXOPBLOCKS ==> !LogWritePanics(L, t)
  }

  /** Three operations reach the panic when the region is too small. */
  lemma PanicReachable(L: Layout, disk: seq<Block>)
    requires ValidLayout(L) && |disk| == L.nblocks && Header(disk[L.start]) == []
    requires Behind(L, LOGSIZE) <= L.nblocks
    requires L.size <= LOGSIZE
    ensures !NeverPanics(L, disk)
  {
    hide Reach, Run, Header;
    var n := if L.size == 1 then 0 else L.size - 2;
    var s := Filled(L, disk, n);
    if L.size == 1 {
      assert LogWritePanics(L, s) && 2 in s.ops && s.ops[2].used < MAXOPBLOCKS;
    } else {
      var m := ReadOne(L, s, 1, Behind(L, n));
      var t := LogOne(L, m, 1, Behind(L, n));
      Then(L, Initial(disk), s, m);
      Then(L, Initial(disk), m, t);
      assert LogWritePanics(L, t) && 2 in t.ops && t.ops[2].used < MAXOPBLOCKS;
    }
  }

  /** The condition under which log_write is safe is exact. */
  lemma NeverPanicsIff(L: Layout, disk: seq<Block>)
    requires ValidLayout(L) && |disk| == L.nblocks && Header(disk[L.start]) == []
    requires Behind(L, LOGSIZE) <= L.nblocks
    ensures NeverPanics(L, disk) <==> LOGSIZE < L.size
  {
    hide Header, Run;
    if LOGSIZE < L.size {
      forall t, pid | Reach(L, Initial(disk), t) && pid in t.ops && t.ops[pid].used < MAXOPBLOCKS
        ensures !LogWritePanics(L, t)
      {
        var acts :| Run(L, Initial(disk), acts, t);
        NoPanic(L, disk, acts, t, pid);
      }
    } else {
      PanicReachable(L, disk);
    }
  }

  /** mkfs gives the log LOGSIZE blocks in all, header included, which is one too few. */
  lemma MkfsLayoutPanics(disk: seq<Block>)
    requires |disk| == 1000 && Header(disk[2]) == []
    ensures !NeverPanics(Layout(2, LOGSIZE, 1000), disk)
  {
    PanicReachable(Layout(2, LOGSIZE, 1000), disk);
  }
}
