/** log.c as a program: the global log struct and the cache are fields, write_log and
    install_trans are loops. Each method appends the actions that it performs to acts, so
    everything proved of runs of the log machine holds at every point of its execution. */
module LogDevice {
  import opened Wrappers
  import opened Blocks
  import opened LogMachine
  import opened LogInvariant
  import opened LogProof
  import opened LogJam
  import opened LogTheorems

  class Log {
    const L: Layout
    var disk: seq<Block>
    var cache: map<nat, Buf>
    var lh: seq<nat>
    var outstanding: int
    var committing: bool

    ghost const boot: seq<Block>   // the disk at power-on
    ghost var acts: seq<Action>    // everything done since
    ghost var st: State            // where that leads

    ghost predicate Traced()
      reads this
    {
      && Bootable(L, boot) && Run(L, Initial(boot), acts, st) && Within(L, Initial(boot), acts)
      && Inv(L, Image(L, boot), st)
    }

    ghost predicate Valid()
      reads this
    {
      && Traced()
      && disk == st.disk && cache == st.cache && lh == st.lh
      && outstanding == st.outstanding && committing == st.committing
      && |disk| == L.nblocks
    }

    /** The buffers that commit and recovery need are not busy: the source waits until they are not. */
    ghost predicate Available()
      reads this
    {
      forall b :: b in cache && (b in lh || !Home(L, b)) ==> cache[b].holder.None?
    }

    /** Power-on: the disk is all there is. */
    constructor (L: Layout, disk: seq<Block>)
      requires Bootable(L, disk)
      ensures Valid() && this.L == L && boot == disk && acts == [] && st == Initial(disk)
    {
      this.L := L;
      this.disk, cache, lh, outstanding, committing := disk, map[], [], 0, false;
      boot, acts, st := disk, [], Initial(disk);
      InitialInv(L, disk);
    }

    ghost method Record(a: Action)
      requires Traced() && Enabled(L, st, a) && !Overflows(L, st, a)
      modifies this`acts, this`st
      ensures Traced() && st == Do(L, old(st), a) && acts == old(acts) + [a]
    {
      hide OpsOk, HistoryOk, CacheOk, CurrentOk, LogOk, DurableOk, HoldsOk, Header, Enabled, Do, GoodHeader, Overflows;
      RunOne(L, st, a);
      RunAppend(L, Initial(boot), acts, st, [a], Do(L, st, a));
      WithinAppend(L, Initial(boot), acts, st, [a]);
      KeepStep(L, Image(L, boot), st, a);
      acts, st := acts + [a], Do(L, st, a);
    }

    /** bget. Among the clean idle buffers any one may be recycled; false is the panic that there are
        none. */
    method Bget(pid: Pid, b: nat) returns (ok: bool)
      requires Valid() && b < L.nblocks && (b in cache ==> cache[b].holder.None?)
      modifies this
      ensures Valid() && st == old(st).(cache := cache) && old(acts) <= acts
      ensures ok <==> !NoBuffer(old(st), b)
      ensures if ok then Fetched(old(cache), cache, b) else cache == old(cache)
      ensures ok ==> cache[b] == if b in old(cache) then old(cache)[b].(holder := Some(pid)) else Buf(Some(pid), false, false, cache[b].data)
    {
      hide Run, Within, Inv, Header, GoodHeader, Bootable;
      if b in cache {
        cache := cache[b := cache[b].(holder := Some(pid))];
        Record(Get(pid, b));
        return true;
      }
      ok := Renew(pid, b);
    }

    /** bget's second loop. */
    method Renew(pid: Pid, b: nat) returns (ok: bool)
      requires Valid() && b < L.nblocks && b !in cache
      modifies this
      ensures Valid() && st == old(st).(cache := cache) && old(acts) <= acts
      ensures ok <==> Spare(old(st))
      ensures if ok then Fetched(old(cache), cache, b) else cache == old(cache)
      ensures ok ==> cache[b] == Buf(Some(pid), false, false, cache[b].data)
    {
      hide Run, Within, Inv, Header, GoodHeader, Bootable;
      if |cache| < NBUF {
        cache := cache[b := Buf(Some(pid), false, false, disk[b])];
        Record(Recycle(pid, None, b));
        return true;
      }
      if v :| v in cache && cache[v].holder.None? && !cache[v].dirty {
        SpareNow(st, v);
        cache := (cache - {v})[b := Buf(Some(pid), false, false, cache[v].data)];
        Record(Recycle(pid, Some(v), b));
        return true;
      }
      return false;
    }

    /** bread: bget, and iderw where the buffer is not valid. */
    method Bread(pid: Pid, b: nat) returns (ok: bool)
      requires Valid() && b < L.nblocks && (b in cache ==> cache[b].holder.None?)
      modifies this
      ensures Valid() && st == old(st).(cache := cache) && old(acts) <= acts
      ensures ok <==> !NoBuffer(old(st), b)
      ensures if ok then Fetched(old(cache), cache, b) else cache == old(cache)
      ensures ok ==> cache[b] == Buf(Some(pid), true, b in old(cache) && old(cache)[b].dirty,
                                     if b in old(cache) && old(cache)[b].valid then old(cache)[b].data else disk[b])
    {
      hide Run, Within, Inv, Header, GoodHeader, Spare;
      DirtyIsValid(L, Image(L, boot), st);
      ok := Bget(pid, b);
      if ok && !cache[b].valid {
        cache := cache[b := cache[b].(valid := true, data := disk[b])];
        Record(Fill(pid, b));
      }
    }

    method Brelse(pid: Pid, b: nat)
      requires Valid() && Held(st, pid, b) && (pid in st.ops ==> b !in st.ops[pid].unlogged)
      modifies this
      ensures Valid() && st == old(st).(cache := cache) && old(acts) <= acts
      ensures cache == old(cache)[b := old(cache)[b].(holder := None)]
    {
      hide Run, Within, Bootable, Inv;
      cache := cache[b := cache[b].(holder := None)];
      Record(Release(pid, b));
    }

    /** A file system call changes the contents of a buffer that it holds. */
    method Modify(pid: Pid, b: nat, data: Block)
      requires Valid() && pid in st.ops && Home(L, b) && HeldValid(st, pid, b)
      modifies this
      ensures Valid() && st == Changed(old(st), pid, b, data) && old(acts) <= acts
      ensures cache == old(cache)[b := old(cache)[b].(data := data)] && disk == old(disk) && lh == old(lh)
    {
      hide Run, Within, Bootable, Inv;
      cache := cache[b := cache[b].(data := data)];
      Record(Change(pid, b, data));
    }

    /** The two breads of one iteration of write_log or install_trans. */
    method BreadBoth(pid: Pid, a: nat, b: nat) returns (ok: bool)
      requires Valid() && a < L.nblocks && b < L.nblocks && a != b
      requires (a in cache ==> cache[a].holder.None?) && (b in cache ==> cache[b].holder.None?)
      modifies this
      ensures Valid() && st == old(st).(cache := cache) && old(acts) <= acts
      ensures NoBuffer(old(st), a) ==> !ok
      ensures !NoBuffer(old(st), a) && b in old(cache) && old(cache)[b].dirty ==> ok
      ensures |Taken(old(st))| + 2 <= NBUF ==> ok
      ensures ok ==> HeldValid(st, pid, a) && HeldValid(st, pid, b)
      ensures ok ==> forall c :: c in cache && c != a && c != b ==> c in old(cache) && cache[c] == old(cache)[c]
    {
      hide Run, Within, Inv, Header, GoodHeader, Traced, Spare;
      SpareIf(st);
      ok := Bread(pid, a);
      if ok {
        TakenMore(old(st), st, a);
        SpareIf(st);
        ok := Bread(pid, b);
      }
    }

    /** The two brelses. */
    method BrelseBoth(pid: Pid, a: nat, b: nat)
      requires Valid() && Held(st, pid, a) && Held(st, pid, b) && a != b && st.ops == map[]
      modifies this
      ensures Valid() && st == old(st).(cache := cache) && old(acts) <= acts
      ensures cache == old(cache)[a := old(cache)[a].(holder := None)][b := old(cache)[b].(holder := None)]
    {
      hide Run, Within, Inv, Header, GoodHeader, Traced;
      Brelse(pid, a);
      Brelse(pid, b);
    }

    /** memmove to the log block's buffer, and bwrite. */
    method CopyOut(pid: Pid, tail: nat, to: nat, from: nat)
      requires Valid() && pid == st.worker && st.phase == WriteLog(tail) && tail < |lh|
      requires to == L.start + 1 + tail < L.nblocks && from == lh[tail]
      requires HeldValid(st, pid, to) && HeldValid(st, pid, from)
      modifies this
      ensures Valid() && old(acts) <= acts
      ensures st == old(st).(disk := disk, cache := cache, phase := WriteLog(tail + 1))
      ensures cache == old(cache)[to := old(cache)[to].(data := old(cache)[from].data, dirty := false)]
      ensures Held(st, pid, to) && Held(st, pid, from)
    {
      hide Run, Within, Inv, Bootable, GoodHeader, Header;
      disk := disk[to := cache[from].data];
      cache := cache[to := cache[to].(data := cache[from].data, dirty := false, valid := true)];
      Record(CopyToLog);
    }

    /** One iteration of write_log. The first bread may find no buffer; the second finds its block. */
    method CopyBlock(pid: Pid, tail: nat) returns (ok: bool)
      requires Valid() && Available() && pid == st.worker && st.phase == WriteLog(tail) && tail < |lh|
      modifies this
      ensures Valid() && old(acts) <= acts && (ok <==> Spare(old(st)))
      ensures ok ==> Available() && Spare(st) && st == old(st).(disk := disk, cache := cache, phase := WriteLog(tail + 1))
    {
      hide Run, Within, Inv, Header, GoodHeader, Enabled, Spare;
      var to, from := L.start + 1 + tail, lh[tail];
      ListedHome(L, Image(L, boot), st, tail);
      ListedPinned(L, Image(L, boot), st, tail);
      RegionSpare(L, Image(L, boot), st, to);
      ok := BreadBoth(pid, to, from);
      if ok {
        CopyOut(pid, tail, to, from);
        BrelseBoth(pid, from, to);
        SpareNow(st, to);
      }
    }

    /** Copy modified blocks from cache to log. */
    method WriteLogBlocks(pid: Pid) returns (ok: bool)
      requires Valid() && Available() && pid == st.worker && st.phase == WriteLog(0)
      modifies this
      ensures Valid() && old(acts) <= acts && (ok <==> old(lh) == [] || Spare(old(st)))
      ensures ok ==> Available() && st == old(st).(disk := disk, cache := cache, phase := WriteLog(|lh|))
      ensures ok && Spare(old(st)) ==> Spare(st)
    {
      hide Run, Within, Bootable, Inv, Spare;
      var tail := 0;
      while tail < |lh|
        invariant tail <= |lh| && Valid() && Available() && old(acts) <= acts
        invariant st == old(st).(disk := disk, cache := cache, phase := WriteLog(tail))
        invariant if tail == 0 then st == old(st) else Spare(st) && Spare(old(st))
      {
        ok := CopyBlock(pid, tail);
        if !ok {
          return;
        }
        tail := tail + 1;
      }
      return true;
    }

    /** write_head with the transaction listed: the commit point. */
    method WriteHead(pid: Pid) returns (ok: bool)
      requires Valid() && Available() && pid == st.worker && st.phase == WriteLog(|lh|)
      modifies this
      ensures Valid() && old(acts) <= acts && (ok <==> Spare(old(st)))
      ensures ok ==> st == old(st).(disk := disk, cache := cache, phase := Install(0, false), committed := |st.trace|)
      ensures ok ==> Available() && Spare(st) && Header(disk[L.start]) == lh
    {
      hide Run, Within, Inv, Header, WithHeader, Spare, GoodHeader;
      NoOps(L, Image(L, boot), st);
      RegionSpare(L, Image(L, boot), st, L.start);
      ok := Bread(pid, L.start);
      if ok {
        Seal(pid);
        Brelse(pid, L.start);
        SpareNow(st, L.start);
      }
    }

    /** The write of the header itself. */
    method Seal(pid: Pid)
      requires Valid() && pid == st.worker && st.phase == WriteLog(|lh|) && HeldValid(st, pid, L.start)
      modifies this
      ensures Valid() && old(acts) <= acts && Held(st, pid, L.start) && !cache[L.start].dirty
      ensures st == old(st).(disk := disk, cache := cache, phase := Install(0, false), committed := |st.trace|)
      ensures L.start in old(cache) && cache == old(cache)[L.start := cache[L.start]] && Header(disk[L.start]) == lh
    {
      hide Run, Within, Inv, Header, WithHeader, GoodHeader;
      HeadFits(L, Image(L, boot), st);
      var head := WithHeader(cache[L.start].data, lh);
      disk := disk[L.start := head];
      cache := cache[L.start := cache[L.start].(data := head, dirty := false, valid := true)];
      Record(CommitHead);
    }

    /** memmove to the home block's buffer, and bwrite. */
    method CopyHome(pid: Pid, tail: nat, lbuf: nat, dbuf: nat)
      requires Valid() && pid == st.worker && st.phase.Install? && st.phase.tail == tail < |lh|
      requires lbuf == L.start + 1 + tail && dbuf == lh[tail] < L.nblocks
      requires HeldValid(st, pid, lbuf) && HeldValid(st, pid, dbuf)
      modifies this
      ensures Valid() && old(acts) <= acts
      ensures st == old(st).(disk := disk, cache := cache, phase := Install(tail + 1, old(st).phase.booting))
      ensures cache == old(cache)[dbuf := old(cache)[dbuf].(data := old(cache)[lbuf].data, dirty := false)]
      ensures Held(st, pid, lbuf) && Held(st, pid, dbuf)
    {
      hide Run, Within, Inv, Bootable, GoodHeader, Header;
      disk := disk[dbuf := cache[lbuf].data];
      cache := cache[dbuf := cache[dbuf].(data := cache[lbuf].data, dirty := false, valid := true)];
      Record(InstallBlock);
    }

    /** One iteration of install_trans. */
    method InstallOne(pid: Pid, tail: nat) returns (ok: bool)
      requires Valid() && Available() && pid == st.worker && st.phase.Install? && st.phase.tail == tail < |lh|
      modifies this
      ensures Valid() && old(acts) <= acts
      ensures !old(st).phase.booting ==> (ok <==> Spare(old(st)))
      ensures |Taken(old(st))| + 2 <= NBUF ==> ok
      ensures ok ==> st == old(st).(disk := disk, cache := cache, phase := Install(tail + 1, old(st).phase.booting))
      ensures ok ==> Available() && Spare(st) && Taken(st) <= Taken(old(st))
    {
      hide Run, Within, Inv, Header, GoodHeader, Enabled, Spare;
      var lbuf, dbuf := L.start + 1 + tail, lh[tail];
      ListedHome(L, Image(L, boot), st, tail);
      if !st.phase.booting {
        ListedPinned(L, Image(L, boot), st, tail);
      }
      RegionSpare(L, Image(L, boot), st, lbuf);
      ok := BreadBoth(pid, lbuf, dbuf);
      if ok {
        RegionClean(L, Image(L, boot), st, lbuf);
        PutHome(pid, tail, lbuf, dbuf);
        SpareNow(st, lbuf);
      }
    }

    /** With both buffers at hand: memmove, bwrite and the two brelses. */
    method PutHome(pid: Pid, tail: nat, lbuf: nat, dbuf: nat)
      requires Valid() && pid == st.worker && st.phase.Install? && st.phase.tail == tail < |lh| && st.ops == map[]
      requires lbuf == L.start + 1 + tail && dbuf == lh[tail] < L.nblocks && lbuf != dbuf
      requires HeldValid(st, pid, lbuf) && HeldValid(st, pid, dbuf) && !cache[lbuf].dirty
      modifies this
      ensures Valid() && old(acts) <= acts
      ensures st == old(st).(disk := disk, cache := cache, phase := Install(tail + 1, old(st).phase.booting))
      ensures Reusable(st, lbuf) && Reusable(st, dbuf)
      ensures forall c :: c in cache && c != lbuf && c != dbuf ==> c in old(cache) && cache[c] == old(cache)[c]
    {
      hide Run, Within, Inv, Header, GoodHeader, Traced;
      CopyHome(pid, tail, lbuf, dbuf);
      BrelseBoth(pid, lbuf, dbuf);
    }

    /** Copy committed blocks from log to their home location. */
    method InstallTrans(pid: Pid) returns (ok: bool)
      requires Valid() && Available() && pid == st.worker && st.phase.Install? && st.phase.tail == 0
      modifies this
      ensures Valid() && old(acts) <= acts
      ensures !old(st).phase.booting ==> (ok <==> old(lh) == [] || Spare(old(st)))
      ensures |Taken(old(st))| + 2 <= NBUF ==> ok
      ensures ok ==> st == old(st).(disk := disk, cache := cache, phase := Install(|lh|, old(st).phase.booting))
      ensures ok ==> Available() && (Spare(old(st)) ==> Spare(st)) && Taken(st) <= Taken(old(st))
    {
      hide Run, Within, Bootable, Inv, Spare, Taken;
      var tail := 0;
      while tail < |lh|
        invariant tail <= |lh| && Valid() && Available() && old(acts) <= acts
        invariant st == old(st).(disk := disk, cache := cache, phase := Install(tail, old(st).phase.booting))
        invariant Taken(st) <= Taken(old(st))
        invariant if tail == 0 then st == old(st) else Spare(st) && (!old(st).phase.booting ==> Spare(old(st)))
      {
        SmallerSet(Taken(st), Taken(old(st)));
        ok := InstallOne(pid, tail);
        if !ok {
          return;
        }
        tail := tail + 1;
      }
      return true;
    }

    /** n = 0 and write_head: the log is empty again. */
    method ClearHead(pid: Pid) returns (ok: bool)
      requires Valid() && Available() && pid == st.worker && st.phase.Install? && st.phase.tail == |lh|
      modifies this
      ensures Valid() && old(acts) <= acts && (ok <==> Spare(old(st)))
      ensures ok ==> st == old(st).(disk := disk, cache := cache, lh := [], phase := if old(st).phase.booting then Idle else Done)
      ensures ok ==> Available()
    {
      hide Run, Within, Inv, Header, WithHeader, GoodHeader, Spare;
      NoOps(L, Image(L, boot), st);
      RegionSpare(L, Image(L, boot), st, L.start);
      ok := Bread(pid, L.start);
      if ok {
        Erase(pid);
        Brelse(pid, L.start);
      }
    }

    /** The write of the empty header. */
    method Erase(pid: Pid)
      requires Valid() && pid == st.worker && st.phase.Install? && st.phase.tail == |lh| && HeldValid(st, pid, L.start)
      modifies this
      ensures Valid() && old(acts) <= acts && lh == [] && Held(st, pid, L.start)
      ensures st == old(st).(disk := disk, cache := cache, lh := [], phase := if old(st).phase.booting then Idle else Done)
      ensures L.start in old(cache) && L.start in cache && cache == old(cache)[L.start := cache[L.start]]
    {
      hide Run, Within, Inv, Header, WithHeader, GoodHeader, Spare;
      lh := [];
      var head := WithHeader(cache[L.start].data, lh);
      disk := disk[L.start := head];
      cache := cache[L.start := cache[L.start].(data := head, dirty := false, valid := true)];
      Record(EraseHead);
    }

    /** commit(): every update made so far becomes durable, and reaches its home block. It panics exactly
        if every buffer is busy or dirty at its start. */
    method Commit(pid: Pid) returns (ok: bool)
      requires Valid() && Available() && pid == st.worker
      requires st.phase == if lh == [] then Done else WriteLog(0)
      modifies this
      ensures Valid() && old(acts) <= acts && (ok <==> old(lh) == [] || Spare(old(st)))
      ensures ok ==> st == old(st).(disk := disk, cache := cache, lh := [], phase := Done, committed := |st.trace|)
      ensures ok ==> Available() && TraceOk(L, st.trace) && |disk| == L.nblocks
      ensures ok ==> forall b: nat :: Home(L, b) ==> disk[b] == Replay(Image(L, boot), st.trace)[b]
    {
      hide Run, Within, OpsOk, HistoryOk, CacheOk, CurrentOk, LogOk, DurableOk, HoldsOk, Header, Spare, Taken;
      if |lh| > 0 {
        ok := WriteLogBlocks(pid);
        if !ok {
          return;
        }
        ok := WriteHead(pid);
        ok := InstallTrans(pid);
        ok := ClearHead(pid);
      }
      CommitMakesDurable(L, Image(L, boot), st);
      return true;
    }

    /** One round of begin_op's loop: admitted, or sent to sleep. */
    method BeginOperation(pid: Pid) returns (admitted: bool)
      requires Valid() && !Recovering(st.phase) && pid !in st.ops
      modifies this
      ensures Valid() && old(acts) <= acts
      ensures admitted <==> !old(committing) && |lh| + (old(outstanding) + 1) * MAXOPBLOCKS <= LOGSIZE
      ensures st == if admitted then Begun(old(st), pid) else old(st)
    {
      hide Run, Within, Inv, Header, GoodHeader;
      IdleUnlessCommitting(L, Image(L, boot), st);
      if committing {
        return false;
      } else if |lh| + (outstanding + 1) * MAXOPBLOCKS > LOGSIZE {
        return false;
      }
      outstanding := outstanding + 1;
      Record(BeginOp(pid));
      return true;
    }

    /** log_write without interference between its test and its lock: ok is false for the panics.
        The search finds the block or the free slot. */
    method WriteLogged(pid: Pid, b: nat) returns (ok: bool)
      requires Valid() && pid in st.ops && !st.ops[pid].checked && st.ops[pid].used < MAXOPBLOCKS
      requires Home(L, b) && HeldValid(st, pid, b)
      modifies this
      ensures Valid() && old(acts) <= acts && st == if ok then Logged(old(st), pid, b) else old(st)
      ensures ok <==> !LogWritePanics(L, old(st))
      ensures LOGSIZE < L.size ==> ok
      ensures ok ==> b in lh && cache[b].dirty
    {
      hide Run, Within, Inv, Header, GoodHeader;
      RoomLeft(L, Image(L, boot), st, pid);
      if |lh| >= LOGSIZE || |lh| >= L.size - 1 {
        return false;
      }
      if outstanding < 1 {
        return false;
      }
      Record(LogCheck(pid));
      var i := 0;
      while i < |lh| && lh[i] != b
        invariant i <= |lh| && b !in lh[..i]
      {
        i := i + 1;
      }
      assert i < |lh| <==> b in lh;
      if i == |lh| {
        lh := lh + [b];
      }
      cache := cache[b := cache[b].(dirty := true)];
      Record(LogWrite(pid, b));
      assert st.ops == Logged(old(st), pid, b).ops;
      return true;
    }

    /** end_op: the last operation out commits for all of them. */
    method EndOperation(pid: Pid) returns (ok: bool)
      requires Valid() && Available() && pid in st.ops && st.ops[pid].unlogged == {} && !st.ops[pid].checked
      modifies this
      ensures Valid() && old(acts) <= acts && (ok <==> old(outstanding) != 1 || old(lh) == [] || Spare(old(st)))
      ensures ok ==> Available() && st.trace == old(st).trace && TraceOk(L, st.trace)
      ensures old(outstanding) != 1 ==> st == Leave(old(st), pid)
      ensures ok && old(outstanding) == 1 ==> st.phase.Idle? && lh == [] && st.committed == |st.trace|
      ensures ok && old(outstanding) == 1 ==> forall b: nat :: Home(L, b) ==> disk[b] == Replay(Image(L, boot), st.trace)[b]
    {
      hide Run, Within, Inv, Header, GoodHeader, TraceOk, Spare;
      SameSpare(old(st), pid);
      ok := true;
      TraceIsHome(L, Image(L, boot), st);
      LastOneOut(L, Image(L, boot), st, pid);
      outstanding := outstanding - 1;
      if committing {
        assert false;
      }
      if outstanding == 0 {
        committing := true;
        Record(EndOp(pid));
        ok := CommitAll(pid);
      } else {
        Record(EndOp(pid));
      }
    }

    /** end_op with do_commit set. */
    method CommitAll(pid: Pid) returns (ok: bool)
      requires Valid() && Available() && pid == st.worker
      requires st.phase == if lh == [] then Done else WriteLog(0)
      modifies this
      ensures Valid() && old(acts) <= acts && (ok <==> old(lh) == [] || Spare(old(st)))
      ensures ok ==> Available() && st.phase.Idle? && lh == [] && st.trace == old(st).trace && st.committed == |st.trace|
      ensures ok ==> TraceOk(L, st.trace) && forall b: nat :: Home(L, b) ==> disk[b] == Replay(Image(L, boot), st.trace)[b]
    {
      hide Run, Within, Inv, Header, GoodHeader, TraceOk, Spare;
      ok := Commit(pid);
      if ok {
        committing := false;
        Record(FinishCommit);
      }
    }

    /** read_head: the header on disk becomes the header in memory. */
    method ReadHeader(pid: Pid) returns (ok: bool)
      requires Valid() && pid == st.worker && st.phase.Boot? && (L.start in cache ==> cache[L.start].holder.None?)
      modifies this
      ensures Valid() && old(acts) <= acts && (ok <==> Spare(old(st)))
      ensures ok ==> lh == Header(disk[L.start]) && st == old(st).(cache := cache, lh := lh, phase := Install(0, true))
      ensures ok ==> Spare(st) && Taken(st) <= Taken(old(st))
      ensures ok ==> L.start in cache && cache[L.start].holder.None?
      ensures ok ==> forall c :: c in cache && c != L.start ==> c in old(cache) && cache[c] == old(cache)[c]
    {
      hide Run, Within, Inv, Header, GoodHeader, Spare;
      NoOps(L, Image(L, boot), st);
      RegionSpare(L, Image(L, boot), st, L.start);
      ok := Bread(pid, L.start);
      if !ok {
        return;
      }
      RegionClean(L, Image(L, boot), st, L.start);
      TakeHeader(pid);
      Brelse(pid, L.start);
      SpareNow(st, L.start);
    }

    /** The copy of the header, its buffer being held. */
    method TakeHeader(pid: Pid)
      requires Valid() && pid == st.worker && st.phase.Boot? && HeldValid(st, pid, L.start)
      modifies this
      ensures Valid() && old(acts) <= acts && cache == old(cache)
      ensures lh == Header(disk[L.start]) && st == old(st).(lh := lh, phase := Install(0, true))
    {
      hide Run, Within, Inv, Header, GoodHeader;
      CleanAtBoot(L, Image(L, boot), st, L.start);
      lh := Header(cache[L.start].data);
      Record(ReadHead);
    }

    /** recover_from_log(), run once after power-on, on any layout. Two buffers suffice. */
    method RecoverFromLog(pid: Pid) returns (ok: bool)
      requires Valid() && pid == st.worker && st.phase.Boot?
      requires forall b :: b in cache && (b in Header(disk[L.start]) || !Home(L, b)) ==> cache[b].holder.None?
      modifies this
      ensures Valid() && old(acts) <= acts && (|Taken(old(st))| + 2 <= NBUF ==> ok)
      ensures ok ==> Available() && st.phase.Idle? && lh == []
      ensures ok ==> Bootable(L, old(disk)) && |disk| == L.nblocks
      ensures ok ==> forall b: nat :: Home(L, b) ==> disk[b] == Recovered(L, old(disk), b)
    {
      hide Run, Within, Inv, Header, Recovered, GoodHeader, Spare, Taken;
      ghost var s := st;
      BootFacts(L, boot);
      SpareIf(st);
      ok := ReadHeader(pid);
      if !ok {
        return;
      }
      SmallerSet(Taken(st), Taken(s));
      ok := InstallTrans(pid);
      if !ok {
        return;
      }
      ok := ClearHead(pid);
      AfterRecovery(L, Image(L, boot), s, st);
    }

    /** Inside an operation: bread, a change, log_write and brelse of one block. */
    method ChangeBlock(pid: Pid, b: nat, data: Block) returns (ok: bool)
      requires Valid() && Available() && pid in st.ops && FreshOperation(st.ops[pid]) && Home(L, b)
      requires b in cache ==> cache[b].holder.None?
      modifies this
      ensures Valid() && old(acts) <= acts && outstanding == old(outstanding)
      ensures ok <==> !NoBuffer(old(st), b) && !LogWritePanics(L, old(st))
      ensures ok ==> Available() && pid in st.ops && st.ops[pid].unlogged == {} && !st.ops[pid].checked
      ensures ok ==> st.trace == old(st).trace + [Update(old(st).ops[pid].id, b, data)] && b in lh
      ensures ok ==> Taken(st) <= Taken(old(st)) + {b}
    {
      hide Run, Within, Inv, Header, GoodHeader, Traced, Spare;
      ok := Bread(pid, b);
      if !ok {
        return;
      }
      Modify(pid, b, data);
      ok := WriteLogged(pid, b);
      if ok {
        assert st.ops[pid].unlogged == {};
        Brelse(pid, b);
      }
    }

    /** A client: one operation that changes one block. If it was alone, it is durable at the end. With a
        large enough log and two buffers left it does not panic. */
    method UpdateBlock(pid: Pid, b: nat, data: Block) returns (r: Outcome)
      requires Valid() && Available() && !Recovering(st.phase) && pid !in st.ops && Home(L, b)
      requires b in cache ==> cache[b].holder.None?
      modifies this
      ensures Valid() && old(acts) <= acts && (!r.Panicked? ==> Available())
      ensures r.Slept? <==> old(committing) || |old(lh)| + (old(outstanding) + 1) * MAXOPBLOCKS > LOGSIZE
      ensures r.Slept? ==> st == old(st)
      ensures LOGSIZE < L.size && |Taken(old(st))| + 2 <= NBUF ==> !r.Panicked?
      ensures r.Finished? ==> st.trace == old(st).trace + [Update(old(st).nextOp, b, data)]
      ensures r.Finished? && old(outstanding) == 0 ==> st.committed == |st.trace| && disk[b] == data
    {
      hide Run, Within, Inv, Header, GoodHeader, TraceOk, Spare, Taken;
      TraceIsHome(L, Image(L, boot), st);
      ghost var before, u := st.trace, Update(st.nextOp, b, data);
      SpareIf(st);
      var admitted := BeginOperation(pid);
      if !admitted {
        return Slept;
      }
      TakenBegun(old(st), pid);
      SpareIf(st);
      RoomLeft(L, Image(L, boot), st, pid);
      var ok := ChangeBlock(pid, b, data);
      if !ok {
        return Panicked;
      }
      OneMore(Taken(st), Taken(old(st)), b);
      SpareIf(st);
      ok := EndOperation(pid);
      if !ok {
        return Panicked;
      }
      LastUpdate(L, Image(L, boot), before, u);
      return Finished;
    }
  }

  /** d is c with a buffer for block b, for which a clean idle one may have been given up. */
  ghost predicate Fetched(c: map<nat, Buf>, d: map<nat, Buf>, b: nat) {
    && b in d && (forall x :: x in d && x != b ==> x in c && d[x] == c[x])
    && (forall x :: x in c && x !in d ==> c[x].holder.None? && !c[x].dirty)
  }

  /** Buffers that bget cannot recycle. */
  ghost function Taken(s: State): set<nat> { set b | b in s.cache && (s.cache[b].holder.Some? || s.cache[b].dirty) }

  /** The header block has room for the list. */
  lemma HeadFits(L: Layout, base: seq<Block>, s: State)
    requires Inv(L, base, s)
    ensures |s.lh| <= LOGSIZE && forall i :: 0 <= i < |s.lh| ==> s.lh[i] < WORD_LIMIT
  {
    hide HistoryOk, CacheOk, CurrentOk, LogOk, DurableOk, HoldsOk, Header;
  }

  lemma SpareIf(s: State)
    ensures |Taken(s)| < NBUF ==> Spare(s)
  {
    assert |s.cache| == |s.cache.Keys|;
    if b :| b in s.cache && b !in Taken(s) {
      assert Reusable(s, b);
    } else {
      assert Taken(s) == s.cache.Keys;
    }
  }

  lemma SameSpare(s: State, pid: Pid)
    requires pid in s.ops
    ensures Spare(Leave(s, pid)) <==> Spare(s)
  {
    var t := Leave(s, pid);
    assert forall b :: Reusable(t, b) <==> Reusable(s, b);
  }

  lemma TakenBegun(s: State, pid: Pid)
    ensures Taken(Begun(s, pid)) == Taken(s)
  {
  }

  lemma SpareNow(s: State, b: nat)
    requires Reusable(s, b)
    ensures Spare(s)
  {
  }

  lemma SmallerSet<T>(xs: set<T>, ys: set<T>)
    requires xs <= ys
    ensures |xs| <= |ys|
  {
    assert ys == xs + (ys - xs);
  }

  lemma OneMore<T>(xs: set<T>, ys: set<T>, y: T)
    requires xs <= ys + {y}
    ensures |xs| <= |ys| + 1
  {
    SmallerSet(xs, ys + {y});
  }

  lemma TakenMore(s: State, t: State, b: nat)
    requires Fetched(s.cache, t.cache, b)
    ensures Taken(t) <= Taken(s) + {b} && |Taken(t)| <= |Taken(s)| + 1
  {
    OneMore(Taken(t), Taken(s), b);
  }

  /** A block of the log region is never dirty: if it is cached and idle, its buffer is a spare one. */
  lemma RegionClean(L: Layout, base: seq<Block>, s: State, b: nat)
    requires Inv(L, base, s) && !Home(L, b) && b in s.cache
    ensures !s.cache[b].dirty
  {
    hide HistoryOk, CurrentOk, LogOk, DurableOk, HoldsOk, Header;
  }

  lemma RegionSpare(L: Layout, base: seq<Block>, s: State, b: nat)
    requires Inv(L, base, s) && !Home(L, b) && (b in s.cache ==> s.cache[b].holder.None?)
    ensures NoBuffer(s, b) <==> !Spare(s)
  {
    hide Inv;
    if b in s.cache {
      RegionClean(L, base, s, b);
      SpareNow(s, b);
    }
  }

  /** Until it is installed, a block of the transaction keeps its buffer. */
  lemma ListedPinned(L: Layout, base: seq<Block>, s: State, i: nat)
    requires Inv(L, base, s) && i < |s.lh| && (s.phase.WriteLog? || (s.phase.Install? && !s.phase.booting && s.phase.tail <= i))
    ensures s.lh[i] in s.cache && s.cache[s.lh[i]].dirty
  {
    hide OpsOk, HistoryOk, CurrentOk, LogOk, DurableOk, HoldsOk, Header;
  }

  predicate FreshOperation(op: Op) { op.used < MAXOPBLOCKS && !op.checked && op.unlogged == {} }

  /** What begin_op or log_write may do to an operation. */
  datatype Outcome = Slept | Panicked | Finished

  lemma LastUpdate(L: Layout, base: seq<Block>, trace: seq<Update>, u: Update)
    requires TraceOk(L, trace) && Home(L, u.block) && |base| == L.nblocks
    ensures TraceOk(L, trace + [u]) && Replay(base, trace + [u])[u.block] == u.data
  {
    assert (trace + [u])[..|trace|] == trace;
  }

  lemma BootFacts(L: Layout, disk: seq<Block>)
    requires Bootable(L, disk)
    ensures ValidLayout(L) && !Home(L, L.start) && L.start < L.nblocks
  {
  }

  /** After power-on a valid buffer repeats the disk. */
  lemma CleanAtBoot(L: Layout, base: seq<Block>, s: State, b: nat)
    requires Inv(L, base, s) && s.phase.Boot? && b in s.cache && s.cache[b].valid
    ensures b < |s.disk| && s.cache[b].data == s.disk[b]
  {
    hide HistoryOk, CurrentOk, LogOk, DurableOk, HoldsOk, Header;
    CleanOutside(L, s.cache, s.disk, s.lh, s.phase, b);
  }

  /** The blocks of the in-memory header lie outside the log region, and no operation is active
      while they are being copied. */
  lemma ListedHome(L: Layout, base: seq<Block>, s: State, i: nat)
    requires Inv(L, base, s) && i < |s.lh| && !s.phase.Idle?
    ensures Home(L, s.lh[i]) && L.start + 1 + i < L.start + L.size && s.ops == map[]
  {
    hide HistoryOk, CacheOk, CurrentOk, LogOk, DurableOk, HoldsOk, Header;
  }

  lemma TraceIsHome(L: Layout, base: seq<Block>, s: State)
    requires Inv(L, base, s)
    ensures TraceOk(L, s.trace)
  {
  }

  lemma DirtyIsValid(L: Layout, base: seq<Block>, s: State)
    requires Inv(L, base, s)
    ensures forall b :: b in s.cache && s.cache[b].dirty ==> s.cache[b].valid
  {
    hide OpsOk, HistoryOk, CurrentOk, LogOk, DurableOk, HoldsOk, Header;
  }

  /** An operation with log_write calls left finds log_write ready to serve it. */
  lemma RoomLeft(L: Layout, base: seq<Block>, s: State, pid: Pid)
    requires Inv(L, base, s) && pid in s.ops && s.ops[pid].used < MAXOPBLOCKS
    ensures LOGSIZE < L.size ==> !LogWritePanics(L, s)
  {
    hide HistoryOk, CacheOk, CurrentOk, LogOk, DurableOk, HoldsOk, Header;
    CreditRemove(s.ops, pid);
    CreditBounds(s.ops - {pid});
    SizeRemove(s.ops, pid);
  }

  lemma IdleUnlessCommitting(L: Layout, base: seq<Block>, s: State)
    requires Inv(L, base, s) && !Recovering(s.phase)
    ensures !s.committing <==> s.phase.Idle?
  {
    hide HistoryOk, CacheOk, CurrentOk, LogOk, DurableOk, HoldsOk, Header;
  }

  lemma LastOneOut(L: Layout, base: seq<Block>, s: State, pid: Pid)
    requires Inv(L, base, s) && pid in s.ops
    ensures s.phase.Idle? && !s.committing && s.outstanding == |s.ops|
  {
    hide HistoryOk, CacheOk, CurrentOk, LogOk, DurableOk, HoldsOk, Header;
  }

  lemma NoOps(L: Layout, base: seq<Block>, s: State)
    requires Inv(L, base, s) && !s.phase.Idle?
    ensures s.ops == map[]
  {
    hide HistoryOk, CacheOk, CurrentOk, LogOk, DurableOk, HoldsOk, Header;
  }

  lemma AfterRecovery(L: Layout, base: seq<Block>, s: State, t: State)
    requires Inv(L, base, s) && Inv(L, base, t) && s.phase.Boot? && t.phase.Idle? && t.lh == []
    requires t.trace == s.trace && t.committed == s.committed && t.ops == s.ops
    ensures Bootable(L, s.disk) && forall b: nat :: Home(L, b) ==> t.disk[b] == Recovered(L, s.disk, b)
  {
    hide CacheOk, CurrentOk, LogOk, DurableOk, HoldsOk, Header, Recovered;
    assert s.trace[..s.committed] == s.trace;
    InvSound(L, base, s);
    RecoveredDisk(L, base, s, t);
  }

  lemma RunOne(L: Layout, s: State, a: Action)
    requires ValidLayout(L) && |s.disk| == L.nblocks && Enabled(L, s, a)
    ensures Run(L, s, [a], Do(L, s, a))
  {
    hide Do, Enabled;
    assert [a][1..] == [];
    assert Run(L, Do(L, s, a), [], Do(L, s, a));
  }
}
