/** What the callers of the semaphore see. An observer notes which call each process is in, and counts
    the calls that return; it looks at nothing but who is in user code before and after a step. */
module SemaphoreCalls {
  import opened Wrappers
  import opened Semaphore
  import opened SemaphoreProof

  /** calls is the last call that each process made; the other two count returns from sema_down and sema_up. */
  datatype Seen = Seen(calls: map<Pid, Choice>, downReturns: nat, upReturns: nat)

  /** The process on cpu c comes back to user code. */
  predicate Returns(s: State, t: State, c: Cpu) {
    OnCpu(s, c) && !Current(s, c).pc.User? && s.cpus[c].pid in t.procs && t.procs[s.cpus[c].pid].pc.User?
  }

  function Returned(h: Seen, p: Pid): Seen {
    if p !in h.calls then h
    else if h.calls[p].Down? then h.(downReturns := h.downReturns + 1)
    else if h.calls[p].Up? then h.(upReturns := h.upReturns + 1)
    else h
  }

  /** What the observer notes when a leads from s to t. */
  function Noted(h: Seen, s: State, a: Action, t: State): Seen {
    if a.Start? && OnCpu(s, a.cpu) then h.(calls := h.calls[s.cpus[a.cpu].pid := a.choice])
    else if Returns(s, t, a.cpu) then Returned(h, s.cpus[a.cpu].pid)
    else h
  }

  ghost predicate SeenRun(s: State, h: Seen, acts: seq<Action>, t: State, k: Seen)
    decreases |acts|
  {
    if acts == [] then s == t && h == k
    else Enabled(s, acts[0]) && SeenRun(Do(s, acts[0]), Noted(h, s, acts[0], Do(s, acts[0])), acts[1..], t, k)
  }

  // ---- where a process stands in its call -----------------------------------------------------------

  datatype Kind = InDown | InUp | InOther

  function KindOf(pc: PC): Kind {
    match pc
    case DAcquire => InDown
    case DTest => InDown
    case DDecrement => InDown
    case DRelease => InDown
    case SAcquirePt => InDown
    case SReleaseLk => InDown
    case SMark(ch) => if ch == SEM then InDown else InOther
    case SSwitch(ch) => if ch == SEM then InDown else InOther
    case SWoken(ch) => if ch == SEM then InDown else InOther
    case SReleasePt(ch) => if ch == SEM then InDown else InOther
    case UAcquire => InUp
    case UAcquirePt => InUp
    case UScan(_) => InUp
    case UReleasePt => InUp
    case UIncrement => InUp
    case URelease => InUp
    case _ => InOther
  }

  function CallKind(h: Seen, p: Pid): Kind {
    if p !in h.calls then InOther else if h.calls[p].Down? then InDown else if h.calls[p].Up? then InUp else InOther
  }

  ghost predicate CallsOk(s: State, h: Seen) {
    forall p :: p in s.procs && !s.procs[p].pc.User? ==> KindOf(s.procs[p].pc) == CallKind(h, p)
  }

  /** The processes that have changed value and are about to return. */
  ghost function Leaving(s: State, down: bool): set<Pid> {
    set p | p in s.procs && (if down then s.procs[p].pc.DRelease? else s.procs[p].pc.URelease?)
  }

  ghost predicate SeenOk(s: State, h: Seen) {
    && CallsOk(s, h)
    && h.downReturns + |Leaving(s, true)| == s.downs
    && h.upReturns + |Leaving(s, false)| == s.ups
  }

  // ---- what every step keeps ----------------------------------------------------------------------------

  /** Only process p moves. */
  ghost predicate OneMoves(s: State, t: State, p: Pid) {
    && p in s.procs && p in t.procs && t.procs.Keys == s.procs.Keys
    && forall q :: q in s.procs && q != p ==> t.procs[q].pc == s.procs[q].pc
  }

  lemma SetMoves<T>(a: set<T>, b: set<T>, p: T)
    requires forall q :: q != p ==> (q in a <==> q in b)
    ensures |b| == |a| + (if p in b then 1 else 0) - (if p in a then 1 else 0)
  {
    var rest := a - {p};
    assert rest == b - {p};
    assert a == if p in a then rest + {p} else rest;
    assert b == if p in b then rest + {p} else rest;
  }

  lemma LeavingMoves(s: State, t: State, p: Pid, down: bool)
    requires OneMoves(s, t, p)
    ensures var was, now := p in Leaving(s, down), p in Leaving(t, down);
      |Leaving(t, down)| == |Leaving(s, down)| + (if now then 1 else 0) - (if was then 1 else 0)
  {
    forall q | q != p ensures q in Leaving(s, down) <==> q in Leaving(t, down) {
      assert q in s.procs.Keys <==> q in t.procs.Keys;
    }
    SetMoves(Leaving(s, down), Leaving(t, down), p);
  }

  lemma DownMoves(s: State, c: Cpu)
    requires OnCpu(s, c) && KindOf(Current(s, c).pc).InDown?
    ensures OneMoves(s, Stepped(s, c), s.cpus[c].pid)
    ensures var pc := Stepped(s, c).procs[s.cpus[c].pid].pc; pc.User? || KindOf(pc).InDown?
  {
    var t, p := Stepped(s, c), s.cpus[c].pid;
    assert p in t.procs && t.procs == s.procs[p := t.procs[p]];
  }

  lemma UpMoves(s: State, c: Cpu)
    requires OnCpu(s, c) && KindOf(Current(s, c).pc).InUp?
    ensures OneMoves(s, Stepped(s, c), s.cpus[c].pid)
    ensures var pc := Stepped(s, c).procs[s.cpus[c].pid].pc; pc.User? || KindOf(pc).InUp?
  {
    var t, p := Stepped(s, c), s.cpus[c].pid;
    assert p in t.procs && t.procs == s.procs[p := t.procs[p]];
  }

  lemma OtherMoves(s: State, c: Cpu)
    requires OnCpu(s, c) && KindOf(Current(s, c).pc).InOther?
    ensures OneMoves(s, Stepped(s, c), s.cpus[c].pid)
    ensures var pc := Stepped(s, c).procs[s.cpus[c].pid].pc; pc.User? || KindOf(pc).InOther?
  {
    var t, p := Stepped(s, c), s.cpus[c].pid;
    assert p in t.procs && t.procs == s.procs[p := t.procs[p]];
  }

  /** A step of a process changes that process, and no other; a call goes on until it returns. */
  lemma NextMoves(s: State, c: Cpu)
    requires OnCpu(s, c)
    ensures OneMoves(s, Stepped(s, c), s.cpus[c].pid)
    ensures var pc := Stepped(s, c).procs[s.cpus[c].pid].pc; pc.User? || KindOf(pc) == KindOf(Current(s, c).pc)
  {
    hide Stepped, KindOf, OneMoves;
    match KindOf(Current(s, c).pc)
    case InDown => DownMoves(s, c);
    case InUp => UpMoves(s, c);
    case InOther => OtherMoves(s, c);
  }

  lemma NextCounts(s: State, c: Cpu)
    requires Enabled(s, Next(c)) && s.cpus[c].pid in Stepped(s, c).procs
    ensures var t, pc := Stepped(s, c), Stepped(s, c).procs[s.cpus[c].pid].pc;
      && t.downs == s.downs + (if pc.DRelease? then 1 else 0) && t.ups == s.ups + (if pc.URelease? then 1 else 0)
      && (Current(s, c).pc.DRelease? || Current(s, c).pc.URelease? ==> pc.User?)
  {
    hide HoldsPt, HoldsLk, WantsPt, WantsLk;
  }

  lemma {:induction false} NextReturns(s: State, c: Cpu)
    requires Enabled(s, Next(c)) && Stepped(s, c).procs.Keys == s.procs.Keys && Stepped(s, c).procs[s.cpus[c].pid].pc.User?
    ensures KindOf(Current(s, c).pc).InDown? <==> Current(s, c).pc.DRelease?
    ensures KindOf(Current(s, c).pc).InUp? <==> Current(s, c).pc.URelease?
  {
  }

  lemma KeepNextSeen(s: State, h: Seen, c: Cpu)
    requires SeenOk(s, h) && Enabled(s, Next(c))
    ensures SeenOk(Stepped(s, c), Noted(h, s, Next(c), Stepped(s, c)))
  {
    hide Stepped, KindOf;
    var t, p := Stepped(s, c), s.cpus[c].pid;
    NextMoves(s, c);
    NextCounts(s, c);
    LeavingMoves(s, t, p, true);
    LeavingMoves(s, t, p, false);
    if t.procs[p].pc.User? {
      NextReturns(s, c);
    }
  }

  /** A move of p that begins a call, or goes on with it. */
  lemma MoveSeen(s: State, h: Seen, t: State, k: Seen, p: Pid)
    requires SeenOk(s, h) && OneMoves(s, t, p) && !t.procs[p].pc.User? && KindOf(t.procs[p].pc) == CallKind(k, p)
    requires k == h || k == h.(calls := h.calls[p := if p in k.calls then k.calls[p] else Yield])
    requires t.downs == s.downs && t.ups == s.ups
    requires !s.procs[p].pc.DRelease? && !s.procs[p].pc.URelease? && !t.procs[p].pc.DRelease? && !t.procs[p].pc.URelease?
    ensures SeenOk(t, k)
  {
    hide KindOf;
    LeavingMoves(s, t, p, true);
    LeavingMoves(s, t, p, false);
  }

  /** A call begins. */
  lemma KeepStartSeen(s: State, h: Seen, c: Cpu, choice: Choice)
    requires SeenOk(s, h) && Enabled(s, Start(c, choice))
    ensures SeenOk(Started(s, c, choice), Noted(h, s, Start(c, choice), Started(s, c, choice)))
  {
    hide SeenOk, HoldsPt, HoldsLk, WantsPt, WantsLk;
    var t, p := Started(s, c, choice), s.cpus[c].pid;
    assert p in t.procs && t.procs == s.procs[p := t.procs[p]];
    assert OneMoves(s, t, p);
    MoveSeen(s, h, t, h.(calls := h.calls[p := choice]), p);
  }

  /** One iteration of wakeup1 or of kill: p stays in its call, and others keep their places. */
  lemma KeepWakeSeen(s: State, h: Seen, a: Action)
    requires SeenOk(s, h) && Enabled(s, a) && (a.ScanOne? || a.KillOne?)
    ensures SeenOk(Do(s, a), Noted(h, s, a, Do(s, a)))
  {
    hide SeenOk, HoldsPt, HoldsLk, WantsPt, WantsLk, CallKind;
    var t, p := Do(s, a), s.cpus[a.cpu].pid;
    WakeMoves(s, a);
    KindNow(s, h, p);
    MoveSeen(s, h, t, h, p);
  }

  lemma KindNow(s: State, h: Seen, p: Pid)
    requires SeenOk(s, h) && p in s.procs && !s.procs[p].pc.User?
    ensures KindOf(s.procs[p].pc) == CallKind(h, p)
  {
  }

  lemma WakeMoves(s: State, a: Action)
    requires Enabled(s, a) && (a.ScanOne? || a.KillOne?)
    ensures var t, p := Do(s, a), s.cpus[a.cpu].pid;
      && OneMoves(s, t, p) && t.downs == s.downs && t.ups == s.ups
      && (t.procs[p].pc.UScan? || t.procs[p].pc.KRelease?) && KindOf(t.procs[p].pc) == KindOf(s.procs[p].pc)
  {
    hide HoldsPt, HoldsLk, WantsPt, WantsLk;
    assert Do(s, a).procs.Keys == s.procs.Keys;
  }

  /** The scheduler moves nobody. */
  lemma KeepScheduleSeen(s: State, h: Seen, a: Action)
    requires SeenOk(s, h) && Enabled(s, a) && (a.Enter? || a.Pick? || a.Leave?)
    ensures SeenOk(Do(s, a), Noted(h, s, a, Do(s, a)))
  {
    hide KindOf;
    var t := Do(s, a);
    assert t.procs.Keys == s.procs.Keys;
    forall q | q in s.procs ensures t.procs[q].pc == s.procs[q].pc {
    }
    assert Leaving(t, true) == Leaving(s, true) && Leaving(t, false) == Leaving(s, false);
  }

  lemma KeepSeen(s: State, h: Seen, a: Action)
    requires SeenOk(s, h) && Enabled(s, a)
    ensures SeenOk(Do(s, a), Noted(h, s, a, Do(s, a)))
  {
    hide SeenOk, Noted;
    match a
    case Next(c) => KeepNextSeen(s, h, c);
    case Start(c, choice) => KeepStartSeen(s, h, c, choice);
    case ScanOne(_, _) => KeepWakeSeen(s, h, a);
    case KillOne(_, _) => KeepWakeSeen(s, h, a);
    case _ => KeepScheduleSeen(s, h, a);
  }

  lemma {:induction false} RunSeen(s: State, h: Seen, acts: seq<Action>, t: State, k: Seen)
    requires SeenOk(s, h) && SeenRun(s, h, acts, t, k)
    ensures SeenOk(t, k) && Run(s, acts, t)
    decreases |acts|
  {
    hide SeenOk, Do, Enabled, Noted;
    if acts != [] {
      KeepSeen(s, h, acts[0]);
      RunSeen(Do(s, acts[0]), Noted(h, s, acts[0], Do(s, acts[0])), acts[1..], t, k);
    }
  }

  /** kill leaves its target awake, and everybody else as they were, but for the step of the caller. */
  lemma KillWakes(s: State, c: Cpu, q: Pid)
    requires Enabled(s, KillOne(c, q))
    ensures var t := Killed(s, c, q);
      && t.procs.Keys == s.procs.Keys && !t.procs[q].state.Sleeping? && t.procs[q].pc == s.procs[q].pc && t.procs[q].chan == s.procs[q].chan
      && forall r :: r in s.procs && r != q && r != s.cpus[c].pid ==> t.procs[r] == s.procs[r]
  {
    assert Killed(s, c, q).procs.Keys == s.procs.Keys;
  }

  /** Every run can be observed. */
  lemma {:induction false} Observed(s: State, h: Seen, acts: seq<Action>, t: State) returns (k: Seen)
    requires Run(s, acts, t)
    ensures SeenRun(s, h, acts, t, k)
    decreases |acts|
  {
    hide Do, Enabled, Noted;
    if acts == [] {
      return h;
    }
    k := Observed(Do(s, acts[0]), Noted(h, s, acts[0], Do(s, acts[0])), acts[1..], t);
  }

  /** In every state of every run: each sema_down that has returned has taken a unit, each sema_up that
      has returned has given one, and nobody else has. So no more sema_downs have returned than there
      were units. */
  lemma CallsCount(s: State, acts: seq<Action>, t: State, k: Seen)
    requires Initial(s) && SeenRun(s, Seen(map[], 0, 0), acts, t, k)
    ensures k.downReturns + |Leaving(t, true)| == t.downs && k.upReturns + |Leaving(t, false)| == t.ups
    ensures t.value == s.init + (k.upReturns + |Leaving(t, false)|) - (k.downReturns + |Leaving(t, true)|)
    ensures 0 <= s.init ==> k.downReturns <= s.init + t.ups
  {
    hide Run, SeenRun;
    assert Leaving(s, true) == {} && Leaving(s, false) == {};
    RunSeen(s, Seen(map[], 0, 0), acts, t, k);
    SemaphoreSafety(s, acts, t);
  }
}
