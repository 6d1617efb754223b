// begin_op, log_write and end_op (kernel/log.c) as a client of sleep() and
// wakeup(): any number of processes inside file-system calls.
module LogAdmission {
  import opened Monitor
  import opened Prelude

  // log.size, LOGSIZE and MAXOPBLOCKS, and the number of log slots a
  // file-system call takes at most, which the source keeps to MAXOPBLOCKS.
  datatype Config = Config(size: int, logsize: nat, opblocks: nat, cap: nat) {
    predicate Sane() {
      1 <= cap <= opblocks
    }

    // log_write panics from this many logged blocks on.
    function Limit(): int {
      if logsize <= size - 1 then logsize else size - 1
    }

    // The most blocks that calls of n processes can have logged while one of
    // them is still running.
    function Top(n: nat): int {
      if n >= 2 && logsize >= 2 * opblocks then logsize - 2 * (opblocks - cap) else cap
    }
  }

  // kernel/param.h and mkfs: the log of size LOGSIZE holds its header, too.
  const SHIPPED: Config := Config(30, 30, 10, 10)

  // Where a process is; used counts the log slots its operation has taken.
  // TooBig is log_write's panic about the size, Broken stands for the other
  // panics of log_write and end_op.
  datatype Place =
    | Away
    | Beginning
    | InOp(used: nat)
    | Writing(used: nat)
    | Ending(used: nat)
    | MustWake
    | Committing
    | Installed
    | TooBig(used: nat)
    | Broken

  // log.lh.n, log.outstanding and log.committing.
  datatype Log = Log(n: nat, outstanding: int, committing: bool, at: seq<Place>)

  // &log
  const CHAN: Chan := 1

  predicate Op(w: Place) {
    w.InOp? || w.Writing? || w.Ending? || w.TooBig?
  }

  // Operations begun and not ended.
  function Ops(at: seq<Place>): nat {
    if at == [] then 0 else Ops(at[..|at| - 1]) + (if Op(at[|at| - 1]) then 1 else 0)
  }

  // Slots those operations may still take if each takes at most b.
  function Left(at: seq<Place>, b: nat): int {
    if at == [] then 0
    else Left(at[..|at| - 1], b) + (if Op(at[|at| - 1]) then b - at[|at| - 1].used else 0)
  }

  function Move(s: Log, p: Pid, w: Place): Log
    requires p < |s.at|
  {
    s.(at := s.at[p := w])
  }

  predicate Outside(p: Pid, s: Log, s': Log) {
    && p < |s.at|
    && match s.at[p]
       case Away => s' == Move(s, p, Beginning)
       case InOp(used) => s' == Move(s, p, Writing(used)) || s' == Move(s, p, Ending(used))
       case Committing => s' == Move(s, p, Installed).(n := 0)  // commit(), without the lock
       case _ => false
  }

  predicate MayEnter(p: Pid, s: Log) {
    p < |s.at| && var w := s.at[p]; w.Beginning? || w.Writing? || w.Ending? || w.Installed?
  }

  // The test of begin_op's loop.
  predicate Full(g: Config, s: Log) {
    s.committing || s.n + (s.outstanding + 1) * g.opblocks > g.logsize
  }

  predicate Inside(g: Config, p: Pid, s: Log, s': Log) {
    && p < |s.at|
    && match s.at[p]
       case Beginning => !Full(g, s) && s' == Move(s, p, InOp(0)).(outstanding := s.outstanding + 1)
       case Writing(used) => LogWrite(g, p, used, s, s')
       case Ending(used) =>
         s' == if s.committing then Move(s, p, Broken).(outstanding := s.outstanding - 1)
               else if s.outstanding - 1 == 0 then Move(s, p, Committing).(outstanding := 0, committing := true)
               else Move(s, p, MustWake).(outstanding := s.outstanding - 1)
       case Installed => s' == Move(s, p, MustWake).(committing := false)
       case _ => false
  }

  // The guards come before the search for a slot to share, which finds one only
  // in a log that is not empty.
  predicate LogWrite(g: Config, p: Pid, used: nat, s: Log, s': Log)
    requires p < |s.at|
  {
    if s.n >= g.logsize || s.n >= g.size - 1 then s' == Move(s, p, TooBig(used))
    else if s.outstanding < 1 then s' == Move(s, p, Broken)
    else
      || (s.n > 0 && s' == Move(s, p, InOp(used)))
      || (used < g.cap && s' == Move(s, p, InOp(used + 1)).(n := s.n + 1))
  }

  predicate MaySleep(g: Config, p: Pid, s: Log, ch: Chan) {
    p < |s.at| && s.at[p] == Beginning && Full(g, s) && ch == CHAN
  }

  predicate MayWake(p: Pid, s: Log, ch: Chan) {
    p < |s.at| && s.at[p] == MustWake && ch == CHAN
  }

  function AfterWake(p: Pid, s: Log, ch: Chan): Log {
    if p < |s.at| then Move(s, p, Away) else s
  }

  predicate MayLeave(p: Pid, s: Log) {
    p < |s.at| && var w := s.at[p]; w.InOp? || w.Committing? || w.Away?
  }

  predicate Blocked(g: Config, s: Log, ch: Chan) {
    ch == CHAN ==> Full(g, s)
  }

  // ---- the invariant ----

  predicate Commits(w: Place) {
    w.Committing? || w.Installed?
  }

  // A place only the holder of the lock can be at.
  predicate Held(w: Place) {
    w.MustWake? || w.TooBig?
  }

  // Everything admitted fits into the log, and what the calls may still take
  // stays below the top.
  predicate Fits(g: Config, s: Log) {
    && s.outstanding == Ops(s.at)
    && s.n + Left(s.at, g.opblocks) <= g.logsize
    && s.n + Left(s.at, g.cap) <= g.Top(|s.at|)
    && Capped(s.at, g.cap)
  }

  predicate Capped(at: seq<Place>, b: nat) {
    forall p :: 0 <= p < |at| && Op(at[p]) ==> at[p].used <= b
  }

  // Only a commit with no operation outstanding runs.
  predicate OneCommit(s: Log) {
    && (s.committing <==> exists p :: 0 <= p < |s.at| && Commits(s.at[p]))
    && (forall p, q :: 0 <= p < |s.at| && 0 <= q < |s.at| && Commits(s.at[p]) && Commits(s.at[q]) ==> p == q)
    && (s.committing ==> s.outstanding == 0)
    && (forall p :: 0 <= p < |s.at| && s.at[p].Installed? ==> s.n == 0)
    && (s.outstanding == 0 && !s.committing ==> s.n == 0)
  }

  // Who panicked had met the limit, and an operation was let in before.
  predicate Panics(g: Config, s: Log) {
    forall p :: 0 <= p < |s.at| ==>
      !s.at[p].Broken? && (s.at[p].TooBig? ==> s.n >= g.Limit()) && (Op(s.at[p]) ==> g.logsize >= g.opblocks)
  }

  predicate Rest(g: Config, s: Log) {
    Fits(g, s) && OneCommit(s) && Panics(g, s) && forall p :: 0 <= p < |s.at| ==> !Held(s.at[p])
  }

  predicate Outline(g: Config, p: Pid, e: Log, s: Log, w: set<Chan>) {
    && Fits(g, s) && OneCommit(s) && Panics(g, s)
    && (forall q :: 0 <= q < |s.at| && Held(s.at[q]) ==> q == p)
    && (Full(g, e) ==> Full(g, s) || CHAN in w || (p < |s.at| && s.at[p] == MustWake))
  }

  // ---- counting ----

  lemma {:induction false} MoveOps(at: seq<Place>, p: nat, w: Place, b: nat)
    requires p < |at|
    ensures Ops(at[p := w]) == Ops(at) - (if Op(at[p]) then 1 else 0) + (if Op(w) then 1 else 0)
    ensures Left(at[p := w], b) == Left(at, b) - (if Op(at[p]) then b - at[p].used else 0) +
            (if Op(w) then b - w.used else 0)
  {
    var k := |at| - 1;
    var t := at[p := w];
    if p == k {
      assert t[..k] == at[..k];
    } else {
      MoveOps(at[..k], p, w, b);
      assert t[..k] == at[..k][p := w];
    }
  }

  lemma {:induction false} LeftBound(at: seq<Place>, b: nat)
    requires Capped(at, b)
    ensures 0 <= Left(at, b) <= Ops(at) * b && Ops(at) <= |at|
  {
    if at != [] {
      LeftBound(at[..|at| - 1], b);
      Successor(Ops(at[..|at| - 1]), b);
    }
  }

  lemma {:induction false} OneOp(at: seq<Place>, p: nat, b: nat)
    requires p < |at| && Op(at[p]) && Capped(at, b)
    ensures Ops(at) >= 1 && b - at[p].used <= Left(at, b)
  {
    var k := |at| - 1;
    LeftBound(at[..k], b);
    if p < k {
      OneOp(at[..k], p, b);
    }
  }

  lemma {:induction false} NotAllOps(at: seq<Place>, p: nat)
    requires p < |at| && !Op(at[p])
    ensures Ops(at) <= |at| - 1
  {
    var k := |at| - 1;
    if p < k {
      NotAllOps(at[..k], p);
    } else {
      OpsBound(at[..k]);
    }
  }

  lemma {:induction false} OpsBound(at: seq<Place>)
    ensures Ops(at) <= |at|
  {
    if at != [] {
      OpsBound(at[..|at| - 1]);
    }
  }

  // ---- the obligations ----

  lemma {:induction false} OutsideFits(g: Config, q: Pid, s: Log, s': Log)
    requires Fits(g, s) && Outside(q, s, s')
    ensures Fits(g, s')
  {
    MoveOps(s.at, q, s'.at[q], g.opblocks);
    MoveOps(s.at, q, s'.at[q], g.cap);
  }

  lemma {:induction false} OutsideOneCommit(g: Config, q: Pid, s: Log, s': Log)
    requires OneCommit(s) && Outside(q, s, s')
    ensures OneCommit(s') && (Full(g, s) ==> Full(g, s'))
  {
    assert Commits(s.at[q]) <==> Commits(s'.at[q]);
    if s.committing {
      var p :| 0 <= p < |s.at| && Commits(s.at[p]);
      assert Commits(s'.at[p]);
    }
  }

  lemma {:induction false} OutsidePanics(g: Config, q: Pid, s: Log, s': Log)
    requires Fits(g, s) && OneCommit(s) && Panics(g, s) && Outside(q, s, s')
    ensures Panics(g, s')
  {
    forall p | 0 <= p < |s.at| && s.at[p].TooBig? ensures !Commits(s.at[q]) {
      OneOp(s.at, p, g.cap);
    }
  }

  // Admission: with another operation running, two reservations fit beside what
  // is logged; with none, the log is empty.
  lemma {:induction false} BeginFits(g: Config, p: Pid, s: Log, s': Log)
    requires g.Sane() && Fits(g, s) && OneCommit(s) && Inside(g, p, s, s') && s.at[p].Beginning?
    ensures Fits(g, s') && g.logsize >= g.opblocks
  {
    hide Ops, Left, OneCommit, Full;
    MoveOps(s.at, p, InOp(0), g.opblocks);
    MoveOps(s.at, p, InOp(0), g.cap);
    Admitted(g, p, s);
  }

  lemma {:induction false} Admitted(g: Config, p: Pid, s: Log)
    requires g.Sane() && Fits(g, s) && OneCommit(s) && p < |s.at| && !Op(s.at[p]) && !Full(g, s)
    ensures s.n + Left(s.at, g.opblocks) + g.opblocks <= g.logsize
    ensures s.n + Left(s.at, g.cap) + g.cap <= g.Top(|s.at|)
    ensures g.opblocks <= g.logsize
  {
    LeftBound(s.at, g.cap);
    Widen(s.at, g.cap, g.opblocks);
    LeftBound(s.at, g.opblocks);
    NotAllOps(s.at, p);
    var n, k, left := s.n, s.outstanding, Left(s.at, g.cap);
    hide Fits, Left, Ops, OneCommit;
    Successor(k, g.opblocks);
    if k >= 1 {
      Reserve(g, n, k, left);
    }
  }

  lemma {:induction false} Reserve(g: Config, n: nat, k: int, left: int)
    requires g.Sane() && k >= 1 && n + (k + 1) * g.opblocks <= g.logsize && left <= k * g.cap
    ensures g.logsize >= 2 * g.opblocks && n + left + g.cap <= g.logsize - 2 * (g.opblocks - g.cap)
  {
    Product(k + 1, g.cap, g.opblocks - g.cap);
    AtLeast(2, k + 1, g.opblocks - g.cap);
    AtLeast(2, k + 1, g.opblocks);
    Successor(k, g.cap);
  }

  lemma {:induction false} Product(k: int, x: int, y: int)
    ensures k * (x + y) == k * x + k * y
  {
  }

  lemma {:induction false} AtLeast(k: int, l: int, x: nat)
    requires k <= l
    ensures k * x <= l * x
  {
  }

  lemma {:induction false} Successor(k: int, x: int)
    ensures (k + 1) * x == k * x + x
  {
  }

  lemma {:induction false} Widen(at: seq<Place>, b: nat, c: nat)
    requires Capped(at, b) && b <= c
    ensures Capped(at, c)
  {
  }

  lemma {:induction false} InsideFits(g: Config, p: Pid, s: Log, s': Log)
    requires g.Sane() && Fits(g, s) && OneCommit(s) && Inside(g, p, s, s')
    ensures Fits(g, s')
  {
    if s.at[p].Beginning? {
      BeginFits(g, p, s, s');
    } else {
      if Op(s.at[p]) {
        OneOp(s.at, p, g.cap);
      }
      MoveOps(s.at, p, s'.at[p], g.opblocks);
      MoveOps(s.at, p, s'.at[p], g.cap);
    }
  }

  lemma {:induction false} InsideOneCommit(g: Config, p: Pid, s: Log, s': Log)
    requires Fits(g, s) && OneCommit(s) && Inside(g, p, s, s')
    ensures OneCommit(s')
  {
    if Op(s.at[p]) {
      OneOp(s.at, p, g.cap);
    }
    if s.at[p].Installed? {
      assert Commits(s.at[p]);
    }
    forall q | 0 <= q < |s.at| && q != p ensures s'.at[q] == s.at[q] {}
    assert s'.committing ==> Commits(s'.at[p]);
  }

  lemma {:induction false} InsidePanics(g: Config, p: Pid, e: Log, s: Log, w: set<Chan>, s': Log)
    requires g.Sane() && Outline(g, p, e, s, w) && Inside(g, p, s, s')
    ensures Panics(g, s')
  {
    if Op(s.at[p]) {
      OneOp(s.at, p, g.cap);
    }
    if s.at[p].Beginning? {
      BeginFits(g, p, s, s');
    }
    forall q | 0 <= q < |s.at| && q != p ensures s'.at[q] == s.at[q] && !s.at[q].TooBig? {
      assert Held(s.at[q]) ==> q == p;
    }
  }

  lemma {:induction false} InsideWakes(g: Config, p: Pid, e: Log, s: Log, w: set<Chan>, s': Log)
    requires g.Sane() && Outline(g, p, e, s, w) && Inside(g, p, s, s')
    ensures Outline(g, p, e, s', w)
  {
    InsideFits(g, p, s, s');
    InsideOneCommit(g, p, s, s');
    InsidePanics(g, p, e, s, w, s');
  }

  function ClientFor(g: Config): Client<Log> {
    Client((s: Log, ch: Chan) => Blocked(g, s, ch), (p: Pid, s: Log, s': Log) => Inside(g, p, s, s'), Outside, MayEnter,
           (p: Pid, s: Log, ch: Chan) => MaySleep(g, p, s, ch), (p: Pid, s: Log, ch: Chan) => s, MayWake, AfterWake,
           MayLeave,
           (s: Log) => Rest(g, s), (p: Pid, e: Log, s: Log, w: set<Chan>) => Outline(g, p, e, s, w))
  }

  lemma {:induction false} OutsideDisturbsNothing(g: Config)
    ensures Interferes(ClientFor(g))
  {
    hide Fits, OneCommit, Full, Ops, Left, Panics;
    forall p, s, s' | Rest(g, s) && Outside(p, s, s') ensures Rest(g, s') && (Full(g, s) ==> Full(g, s')) {
      OutsideFits(g, p, s, s');
      OutsideOneCommit(g, p, s, s');
      OutsidePanics(g, p, s, s');
    }
    forall p, q, e, s, s', w | p != q && Outline(g, p, e, s, w) && Outside(q, s, s') ensures Outline(g, p, e, s', w) {
      OutsideFits(g, q, s, s');
      OutsideOneCommit(g, q, s, s');
      OutsidePanics(g, q, s, s');
    }
    forall p, q, e, s, s', w, ch | p != q && Outline(g, p, e, s, w) && MaySleep(g, p, s, ch) && Outside(q, s, s')
      ensures MaySleep(g, p, s', ch)
    {
      OutsideOneCommit(g, q, s, s');
    }
  }

  lemma {:induction false} WakeKeeps(g: Config, p: Pid, e: Log, s: Log, w: set<Chan>, ch: Chan)
    requires Outline(g, p, e, s, w) && MayWake(p, s, ch)
    ensures Outline(g, p, e, AfterWake(p, s, ch), w + {ch})
  {
    var s' := AfterWake(p, s, ch);
    MoveOps(s.at, p, Away, g.opblocks);
    MoveOps(s.at, p, Away, g.cap);
    if s.committing {
      var q :| 0 <= q < |s.at| && Commits(s.at[q]);
      assert Commits(s'.at[q]);
    }
  }

  // What sleep() and wakeup() ask of their callers, met by the log.
  lemma {:induction false} Behaves(g: Config)
    requires g.Sane()
    ensures WellBehaved(ClientFor(g))
  {
    hide Fits, OneCommit, Full, Ops, Left, Panics;
    var c := ClientFor(g);
    assert Enters(c);
    assert Leaves(c);
    assert Sleeps(c);
    hide Outline, Rest, Inside, Outside, AfterWake;
    OutsideDisturbsNothing(g);
    forall p, e, s, s', w | Outline(g, p, e, s, w) && Inside(g, p, s, s') ensures Outline(g, p, e, s', w) {
      InsideWakes(g, p, e, s, w, s');
    }
    forall p, e, s, w, ch | Outline(g, p, e, s, w) && MayWake(p, s, ch)
      ensures Outline(g, p, e, AfterWake(p, s, ch), w + {ch})
    {
      WakeKeeps(g, p, e, s, w, ch);
    }
  }

  predicate HasPanicked(s: Log) {
    exists p :: 0 <= p < |s.at| && (s.at[p].TooBig? || s.at[p].Broken?)
  }

  lemma {:induction false} RunInvariant(g: Config, m: Machine<Log>, run: seq<Step<Log>>)
    requires g.Sane() && Start(ClientFor(g), m) && Runs(ClientFor(g), m, run)
    ensures var s := After(ClientFor(g), m, run).data; Fits(g, s) && OneCommit(s) && Panics(g, s)
  {
    Behaves(g);
    var c := ClientFor(g);
    assert Inv(c, m);
    RunKeeps(c, m, run);
    var n := After(c, m, run);
    hide WellBehaved, Runs, After, Start;
    hide Fits, OneCommit, Panics;
    assert DataOk(c, n);
  }

  // In every interleaving of any number of file-system calls:
  // - the blocks in the log and the slots still promised to running calls fit;
  // - no operation is outstanding while a commit runs, and at most one runs;
  // - end_op's panic and log_write's about a missing transaction are out of
  //   reach, and the one about the size is met only at the limit;
  // - while the lock is free, whoever sleeps in begin_op can count on an
  //   operation still running or a commit under way, or no call could ever begin.
  lemma {:induction false} Admission(g: Config, m: Machine<Log>, run: seq<Step<Log>>)
    requires g.Sane() && Start(ClientFor(g), m) && Runs(ClientFor(g), m, run)
    ensures var s := After(ClientFor(g), m, run).data;
            && s.n + Left(s.at, g.opblocks) <= g.logsize && s.outstanding == Ops(s.at)
            && s.n + Left(s.at, g.cap) <= g.Top(|s.at|)
            && (forall p :: 0 <= p < |s.at| && Commits(s.at[p]) ==> s.outstanding == 0 && s.committing)
            && (forall p, q :: 0 <= p < |s.at| && 0 <= q < |s.at| && Commits(s.at[p]) && Commits(s.at[q]) ==> p == q)
            && (forall p :: 0 <= p < |s.at| && Op(s.at[p]) ==> s.outstanding >= 1 && !s.committing)
            && (forall p :: 0 <= p < |s.at| ==> !s.at[p].Broken? && (s.at[p].TooBig? ==> s.n >= g.Limit()))
    ensures var n := After(ClientFor(g), m, run);
            n.lk == None && (exists p :: 0 <= p < |n.procs| && Committed(n.procs[p], CHAN)) ==>
              Full(g, n.data) && (n.data.outstanding > 0 || n.data.committing || g.opblocks > g.logsize)
  {
    hide Runs, After, Start, Fits, OneCommit, Panics;
    RunInvariant(g, m, run);
    SleepersWait(g, m, run);
    Orderly(g, After(ClientFor(g), m, run).data);
  }

  lemma {:induction false} Orderly(g: Config, s: Log)
    requires Fits(g, s) && OneCommit(s) && Panics(g, s)
    ensures s.n + Left(s.at, g.opblocks) <= g.logsize && s.outstanding == Ops(s.at)
    ensures s.n + Left(s.at, g.cap) <= g.Top(|s.at|)
    ensures forall p :: 0 <= p < |s.at| && Commits(s.at[p]) ==> s.outstanding == 0 && s.committing
    ensures forall p, q :: 0 <= p < |s.at| && 0 <= q < |s.at| && Commits(s.at[p]) && Commits(s.at[q]) ==> p == q
    ensures forall p :: 0 <= p < |s.at| && Op(s.at[p]) ==> s.outstanding >= 1 && !s.committing
    ensures forall p :: 0 <= p < |s.at| ==> !s.at[p].Broken? && (s.at[p].TooBig? ==> s.n >= g.Limit())
    ensures Full(g, s) ==> s.outstanding > 0 || s.committing || g.opblocks > g.logsize
  {
    forall p | 0 <= p < |s.at| && Op(s.at[p]) ensures s.outstanding >= 1 {
      OneOp(s.at, p, g.cap);
    }
    if s.outstanding <= 0 && !s.committing {
      assert s.outstanding == 0;
    }
  }

  lemma {:induction false} SleepersWait(g: Config, m: Machine<Log>, run: seq<Step<Log>>)
    requires g.Sane() && Start(ClientFor(g), m) && Runs(ClientFor(g), m, run)
    ensures var n := After(ClientFor(g), m, run);
            n.lk == None && (exists p :: 0 <= p < |n.procs| && Committed(n.procs[p], CHAN)) ==> Full(g, n.data)
  {
    hide Runs, After, Start, Full;
    Behaves(g);
    var c := ClientFor(g);
    NoLostWakeup(c, m, run);
    var n := After(c, m, run);
    hide WellBehaved;
    if p :| 0 <= p < |n.procs| && n.lk == None && Committed(n.procs[p], CHAN) {
      assert c.blocked(n.data, CHAN);
    }
  }

  // ---- when log_write panics ----

  // n processes, none in a call, and an empty log.
  function Boot(n: nat): Machine<Log> {
    var s := Log(0, 0, false, seq(n, i => Away));
    Machine(seq(n, i => Idle()), None, s, s, {})
  }

  // Fewer blocks than the limit fill the log, whatever the calls do.
  predicate Roomy(g: Config, n: nat) {
    n == 0 || g.logsize < g.opblocks || g.Top(n) < g.Limit()
  }

  lemma {:induction false} NoOps(at: seq<Place>, b: nat)
    requires forall p :: 0 <= p < |at| ==> at[p] == Away
    ensures Ops(at) == 0 && Left(at, b) == 0
  {
    if at != [] {
      NoOps(at[..|at| - 1], b);
    }
  }

  lemma {:induction false} BootStarts(g: Config, n: nat)
    requires g.Sane()
    ensures Start(ClientFor(g), Boot(n))
  {
    var s := Boot(n).data;
    NoOps(s.at, g.opblocks);
    NoOps(s.at, g.cap);
    assert Rest(g, s);
  }

  lemma {:induction false} RoomySafe(g: Config, n: nat, run: seq<Step<Log>>)
    requires g.Sane() && Roomy(g, n) && Runs(ClientFor(g), Boot(n), run)
    ensures !HasPanicked(After(ClientFor(g), Boot(n), run).data)
  {
    BootStarts(g, n);
    RunInvariant(g, Boot(n), run);
    SameCrowd(g, Boot(n), run);
    var s := After(ClientFor(g), Boot(n), run).data;
    hide Runs, After;
    forall p | 0 <= p < |s.at| ensures !s.at[p].TooBig? {
      if s.at[p].TooBig? {
        OneOp(s.at, p, g.cap);
        LeftBound(s.at, g.cap);
        assert false;
      }
    }
  }

  lemma {:induction false} SameCrowd(g: Config, m: Machine<Log>, run: seq<Step<Log>>)
    requires Runs(ClientFor(g), m, run)
    ensures |After(ClientFor(g), m, run).data.at| == |m.data.at|
    decreases |run|
  {
    if run != [] {
      SameCrowd(g, Next(ClientFor(g), m, run[0]), run[1..]);
    }
  }

  // The places of n processes of which the first two are at u and v.
  function Pair(n: nat, u: Place, v: Place): seq<Place> {
    seq(n, i => if i == 0 then u else if i == 1 then v else Away)
  }

  // With k blocks logged, a run leads to the first two processes at u and v.
  ghost predicate Pairs(g: Config, n: nat, k: nat, u: Place, v: Place) {
    Visits(ClientFor(g), Boot(n), n, Log(k, (if Op(u) then 1 else 0) + (if Op(v) then 1 else 0), false, Pair(n, u, v)))
  }

  // At the limit every call of log_write panics, also one that would share a slot.
  lemma {:induction false} PanicsAtLimit(g: Config, n: nat, s: Log, p: Pid) returns (run: seq<Step<Log>>)
    requires p < n && |s.at| == n && s.at[p].InOp? && s.n >= g.Limit()
    requires Visits(ClientFor(g), Boot(n), n, s)
    ensures Runs(ClientFor(g), Boot(n), run) && HasPanicked(After(ClientFor(g), Boot(n), run).data)
  {
    var c := ClientFor(g);
    var w := Move(s, p, Writing(s.at[p].used));
    VisitOutside(c, Boot(n), n, s, p, w);
    var t := Move(w, p, TooBig(s.at[p].used));
    var m := EnterAndAct(c, Boot(n), n, w, p, t);
    run :| Runs(c, Boot(n), run) && After(c, Boot(n), run) == m;
    assert t.at[p].TooBig?;
  }

  lemma {:induction false} Begins(g: Config, n: nat, k: nat, p: Pid, u: Place, v: Place)
    requires g.Sane() && p < 2 && p < n && (n >= 2 || v == Away) && Pairs(g, n, k, u, v)
    requires (if p == 0 then u else v) == Away
    requires k + (if Op(u) || Op(v) then 2 else 1) * g.opblocks <= g.logsize
    ensures if p == 0 then Pairs(g, n, k, InOp(0), v) else Pairs(g, n, k, u, InOp(0))
  {
    hide Visits, Boot;
    var c := ClientFor(g);
    var s := Log(k, (if Op(u) then 1 else 0) + (if Op(v) then 1 else 0), false, Pair(n, u, v));
    var s1 := Move(s, p, Beginning);
    VisitOutside(c, Boot(n), n, s, p, s1);
    var s2 := Move(s1, p, InOp(0)).(outstanding := s.outstanding + 1);
    VisitInside(c, Boot(n), n, s1, p, s2);
    assert s2.at == if p == 0 then Pair(n, InOp(0), v) else Pair(n, u, InOp(0));
  }

  lemma {:induction false} Takes(g: Config, n: nat, k: nat, p: Pid, u: Place, v: Place)
    requires g.Sane() && p < 2 && p < n && (n >= 2 || v == Away) && Pairs(g, n, k, u, v) && k < g.Limit()
    requires var w := if p == 0 then u else v; w.InOp? && w.used < g.cap
    ensures if p == 0 then Pairs(g, n, k + 1, InOp(u.used + 1), v) else Pairs(g, n, k + 1, u, InOp(v.used + 1))
  {
    hide Visits, Full, Boot;
    var c := ClientFor(g);
    var used := if p == 0 then u.used else v.used;
    var s := Log(k, (if Op(u) then 1 else 0) + (if Op(v) then 1 else 0), false, Pair(n, u, v));
    var s1 := Move(s, p, Writing(used));
    VisitOutside(c, Boot(n), n, s, p, s1);
    var s2 := Move(s1, p, InOp(used + 1)).(n := k + 1);
    VisitInside(c, Boot(n), n, s1, p, s2);
    assert s2.at == if p == 0 then Pair(n, InOp(used + 1), v) else Pair(n, u, InOp(used + 1));
  }

  lemma {:induction false} SecondEnds(g: Config, n: nat, k: nat, used: nat)
    requires g.Sane() && n >= 2 && Pairs(g, n, k, InOp(0), InOp(used))
    ensures Pairs(g, n, k, InOp(0), Away)
  {
    hide Visits, Full, Boot;
    var c := ClientFor(g);
    var s := Log(k, 2, false, Pair(n, InOp(0), InOp(used)));
    var s1 := Move(s, 1, Ending(used));
    VisitOutside(c, Boot(n), n, s, 1, s1);
    var s2 := Move(s1, 1, MustWake).(outstanding := 1);
    VisitWaking(c, Boot(n), n, s1, 1, s2, CHAN);
    assert AfterWake(1, s2, CHAN).at == Pair(n, InOp(0), Away);
  }

  lemma {:induction false} FirstBegins(g: Config, n: nat)
    requires g.Sane() && n >= 1 && g.logsize >= g.opblocks
    ensures Pairs(g, n, 0, InOp(0), Away)
  {
    var c := ClientFor(g);
    var m := Boot(n);
    assert Reaches(c, m, m) by { assert Runs(c, m, []); }
    assert Pair(n, Away, Away) == m.data.at;
    assert Quiet(m);
    assert Pairs(g, n, 0, Away, Away);
    Begins(g, n, 0, 0, Away, Away);
  }

  // While the first process stays in its call, the second fills the log with
  // one call after the other.
  lemma {:induction false} Raises(g: Config, n: nat, k: nat)
    requires g.Sane() && n >= 2 && g.logsize >= 2 * g.opblocks
    requires k <= g.logsize - 2 * g.opblocks && (k == 0 || k <= g.Limit())
    ensures Pairs(g, n, k, InOp(0), Away)
  {
    hide Pairs;
    if k == 0 {
      FirstBegins(g, n);
    } else {
      Raises(g, n, k - 1);
      Begins(g, n, k - 1, 1, InOp(0), Away);
      Takes(g, n, k - 1, 1, InOp(0), InOp(0));
      SecondEnds(g, n, k, 1);
    }
  }

  // Then both take what they may.
  lemma {:induction false} SecondTakes(g: Config, n: nat, k: nat, j: nat)
    requires g.Sane() && n >= 2 && j <= g.cap && Pairs(g, n, k, InOp(0), InOp(0)) && (j == 0 || k + j <= g.Limit())
    ensures Pairs(g, n, k + j, InOp(0), InOp(j))
  {
    hide Pairs;
    if j > 0 {
      SecondTakes(g, n, k, j - 1);
      Takes(g, n, k + j - 1, 1, InOp(0), InOp(j - 1));
    }
  }

  lemma {:induction false} FirstTakes(g: Config, n: nat, k: nat, v: Place, j: nat)
    requires g.Sane() && n >= 1 && (n >= 2 || v == Away) && j <= g.cap && Pairs(g, n, k, InOp(0), v)
             && (j == 0 || k + j <= g.Limit())
    ensures Pairs(g, n, k + j, InOp(j), v)
  {
    hide Pairs;
    if j > 0 {
      FirstTakes(g, n, k, v, j - 1);
      Takes(g, n, k + j - 1, 0, InOp(j - 1), v);
    }
  }

  // Without that room the limit is met while the first process is in its call.
  lemma {:induction false} MeetsLimit(g: Config, n: nat) returns (k: nat, j: nat, v: Place)
    requires g.Sane() && !Roomy(g, n)
    ensures k >= g.Limit() && Pairs(g, n, k, InOp(j), v)
  {
    hide Pairs;
    var b := if g.Limit() < 0 then 0 else g.Limit();
    if n >= 2 && g.logsize >= 2 * g.opblocks {
      var k0 := Least(g.logsize - 2 * g.opblocks, b);
      Raises(g, n, k0);
      Begins(g, n, k0, 1, InOp(0), Away);
      var j1 := Least(g.cap, b - k0);
      SecondTakes(g, n, k0, j1);
      v := InOp(j1);
      k := b;
      j := b - k0 - j1;
      FirstTakes(g, n, k0 + j1, v, j);
    } else {
      FirstBegins(g, n);
      k, j, v := b, b, Away;
      FirstTakes(g, n, 0, v, j);
    }
  }

  lemma {:induction false} PanicRun(g: Config, n: nat) returns (run: seq<Step<Log>>)
    requires g.Sane() && !Roomy(g, n)
    ensures Runs(ClientFor(g), Boot(n), run) && HasPanicked(After(ClientFor(g), Boot(n), run).data)
  {
    var k, j, v := MeetsLimit(g, n);
    run := PanicsAtLimit(g, n, Log(k, 1 + (if Op(v) then 1 else 0), false, Pair(n, InOp(j), v)), 0);
  }

  ghost predicate NeverPanics(g: Config, n: nat) {
    forall run :: Runs(ClientFor(g), Boot(n), run) ==> !HasPanicked(After(ClientFor(g), Boot(n), run).data)
  }

  // No run of n processes whose calls take at most cap slots each panics, if and
  // only if the log is roomy: two calls that have taken all they may, on top of
  // as much as lets a second one in, stay below log_write's limit.
  lemma {:induction false} NoPanicIff(g: Config, n: nat)
    requires g.Sane()
    ensures NeverPanics(g, n) <==> n == 0 || g.logsize < g.opblocks || g.Top(n) < g.Limit()
  {
    if Roomy(g, n) {
      forall run | Runs(ClientFor(g), Boot(n), run) ensures !HasPanicked(After(ClientFor(g), Boot(n), run).data) {
        RoomySafe(g, n, run);
      }
    } else {
      var run := PanicRun(g, n);
      assert !NeverPanics(g, n);
    }
  }

  // The shipped constants: with two processes or more the panic is out of reach
  // exactly if no call takes all of its MAXOPBLOCKS slots.
  lemma {:induction false} ShippedLog(cap: nat, n: nat)
    requires 1 <= cap <= SHIPPED.opblocks && n >= 2
    ensures NeverPanics(SHIPPED.(cap := cap), n) <==> cap < SHIPPED.opblocks
  {
    NoPanicIff(SHIPPED.(cap := cap), n);
  }
}
