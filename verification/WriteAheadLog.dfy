// The on-disk redo log of kernel/log.c seen from the disk: which block writes
// commit() and recover_from_log() issue, in which order, and what a reboot
// makes of the disk when it interrupts them between any two writes.
//
// A block is the sequence of its 32-bit words; the log header stores the
// number of logged blocks in word 0 and their home addresses from word 1 on.
module WriteAheadLog {
  type Block = seq<int>
  type Disk = seq<Block>
  type Transaction = seq<(nat, Block)>

  // log.start, log.size and LOGSIZE.
  datatype Layout = Layout(start: nat, size: nat, logSize: nat) {
    predicate InLog(b: int) {
      start <= b < start + size
    }
  }

  // ---- the header block ----

  predicate HeaderShape(l: Layout, hb: Block) {
    && l.logSize < |hb|
    && 0 <= hb[0] <= l.logSize
    && hb[0] < l.size
  }

  function Entries(l: Layout, hb: Block): seq<int>
    requires HeaderShape(l, hb)
  {
    hb[1..1 + hb[0]]
  }

  // write_head() overwrites word 0 and the first |h| entries, nothing else.
  function WithEntries(hb: Block, h: seq<int>): (r: Block)
    requires |h| < |hb|
    ensures |r| == |hb|
  {
    [|h|] + h + hb[1 + |h|..]
  }

  // A disk that recovery can start from.
  predicate Recoverable(l: Layout, d: Disk) {
    && l.start + l.size <= |d|
    && 0 < l.size
    && HeaderShape(l, d[l.start])
    && Installable(l, |d|, Entries(l, d[l.start]))
  }

  predicate Installable(l: Layout, n: nat, h: seq<int>) {
    && |h| < l.size
    && forall i :: 0 <= i < |h| ==> 0 <= h[i] < n && !l.InLog(h[i])
  }

  predicate Clean(l: Layout, d: Disk) {
    Recoverable(l, d) && d[l.start][0] == 0
  }

  function Header(l: Layout, d: Disk): seq<int>
    requires Recoverable(l, d)
  {
    Entries(l, d[l.start])
  }

  predicate SameHome(l: Layout, d: Disk, e: Disk) {
    |d| == |e| && forall b :: 0 <= b < |d| && !l.InLog(b) ==> d[b] == e[b]
  }

  // ---- the individual writes ----

  function SetHead(l: Layout, d: Disk, h: seq<int>): (r: Disk)
    requires l.start < |d| && |h| < |d[l.start]|
    ensures |r| == |d|
  {
    d[l.start := WithEntries(d[l.start], h)]
  }

  // The disk after install_trans() has copied the first k logged blocks home.
  function Install(l: Layout, d: Disk, h: seq<int>, k: nat): (r: Disk)
    requires l.start + l.size <= |d| && Installable(l, |d|, h) && k <= |h|
    ensures |r| == |d|
    ensures forall b :: 0 <= b < |d| && l.InLog(b) ==> r[b] == d[b]
  {
    if k == 0 then d
    else
      var e := Install(l, d, h, k - 1);
      e[h[k - 1] := e[l.start + k]]
  }

  predicate ValidTransaction(l: Layout, d: Disk, tx: Transaction) {
    && l.start + l.size <= |d|
    && |tx| < l.size && |tx| <= l.logSize
    && (forall i :: 0 <= i < |tx| ==> tx[i].0 < |d| && !l.InLog(tx[i].0))
    && (forall i, j :: 0 <= i < j < |tx| ==> tx[i].0 != tx[j].0)
  }

  function Homes(tx: Transaction): (h: seq<int>)
    ensures |h| == |tx|
    ensures forall i :: 0 <= i < |tx| ==> h[i] == tx[i].0
  {
    seq(|tx|, i requires 0 <= i < |tx| => tx[i].0)
  }

  // The disk after write_log() has appended the first k blocks.
  function Append(l: Layout, d: Disk, tx: Transaction, k: nat): (r: Disk)
    requires ValidTransaction(l, d, tx) && k <= |tx|
    ensures |r| == |d|
    ensures forall i :: 0 <= i < k ==> r[l.start + 1 + i] == tx[i].1
    ensures forall b :: 0 <= b < |d| && !(l.start < b <= l.start + k) ==> r[b] == d[b]
  {
    if k == 0 then d else Append(l, d, tx, k - 1)[l.start + k := tx[k - 1].1]
  }

  // The transaction as one indivisible update.
  function Apply(d: Disk, tx: Transaction): (r: Disk)
    requires forall i :: 0 <= i < |tx| ==> tx[i].0 < |d|
    ensures |r| == |d|
  {
    if tx == [] then d
    else Apply(d, tx[..|tx| - 1])[tx[|tx| - 1].0 := tx[|tx| - 1].1]
  }

  // ---- commit() and recover_from_log() as sequences of block writes ----

  function CommitLength(tx: Transaction): nat {
    if tx == [] then 0 else 2 * |tx| + 2
  }

  // The disk after the first k block writes of commit().
  function CommitState(l: Layout, d: Disk, tx: Transaction, k: nat): (r: Disk)
    requires Clean(l, d) && ValidTransaction(l, d, tx) && k <= CommitLength(tx)
    ensures |r| == |d|
  {
    var n := |tx|;
    if k <= n then Append(l, d, tx, k)
    else
      var committed := SetHead(l, Append(l, d, tx, n), Homes(tx));
      if k <= 2 * n + 1 then Install(l, committed, Homes(tx), k - n - 1)
      else SetHead(l, Install(l, committed, Homes(tx), n), [])
  }

  // The disk after the first k block writes of recover_from_log().
  function RecoverState(l: Layout, d: Disk, k: nat): (r: Disk)
    requires Recoverable(l, d) && k <= |Header(l, d)| + 1
    ensures |r| == |d|
  {
    var h := Header(l, d);
    if k <= |h| then Install(l, d, h, k) else SetHead(l, Install(l, d, h, |h|), [])
  }

  function Recovered(l: Layout, d: Disk): Disk
    requires Recoverable(l, d)
  {
    RecoverState(l, d, |Header(l, d)| + 1)
  }

  // ---- what Install and Apply do to one block ----

  // The last of the first k entries that names block b, or -1.
  function Last(h: seq<int>, k: nat, b: int): (i: int)
    requires k <= |h|
    ensures -1 <= i < k
    ensures 0 <= i ==> h[i] == b
    ensures forall j :: i < j < k ==> h[j] != b
  {
    if k == 0 then -1 else if h[k - 1] == b then k - 1 else Last(h, k - 1, b)
  }

  lemma {:induction false} InstallAt(l: Layout, d: Disk, h: seq<int>, k: nat, b: nat)
    requires l.start + l.size <= |d| && Installable(l, |d|, h) && k <= |h|
    requires b < |d| && !l.InLog(b)
    ensures Install(l, d, h, k)[b]
         == if Last(h, k, b) < 0 then d[b] else d[l.start + 1 + Last(h, k, b)]
  {
    if k > 0 {
      InstallAt(l, d, h, k - 1, b);
      assert l.InLog(l.start + k);
    }
  }

  lemma {:induction false} ApplyAt(d: Disk, tx: Transaction, b: nat)
    requires forall i :: 0 <= i < |tx| ==> tx[i].0 < |d|
    requires b < |d|
    ensures Apply(d, tx)[b]
         == if Last(Homes(tx), |tx|, b) < 0 then d[b] else tx[Last(Homes(tx), |tx|, b)].1
  {
    if tx != [] {
      var init := tx[..|tx| - 1];
      ApplyAt(d, init, b);
      LastExtends(Homes(init), Homes(tx), |init|, b);
    }
  }

  lemma {:induction false} LastExtends(g: seq<int>, h: seq<int>, k: nat, b: int)
    requires k <= |g| <= |h|
    requires forall i :: 0 <= i < k ==> g[i] == h[i]
    ensures Last(g, k, b) == Last(h, k, b)
  {
    if k > 0 { LastExtends(g, h, k - 1, b); }
  }

  lemma {:induction false} LastMonotone(h: seq<int>, j: nat, k: nat, b: int)
    requires j <= k <= |h|
    ensures Last(h, k, b) < 0 ==> Last(h, j, b) < 0
  {
  }

  // Installing again after an interrupted installation gives the same home blocks.
  lemma {:induction false} Reinstall(l: Layout, d: Disk, h: seq<int>, j: nat)
    requires l.start + l.size <= |d| && Installable(l, |d|, h) && j <= |h|
    ensures SameHome(l, Install(l, Install(l, d, h, j), h, |h|), Install(l, d, h, |h|))
  {
    var e := Install(l, d, h, j);
    forall b | 0 <= b < |d| && !l.InLog(b)
      ensures Install(l, e, h, |h|)[b] == Install(l, d, h, |h|)[b]
    {
      InstallAt(l, e, h, |h|, b);
      InstallAt(l, d, h, |h|, b);
      InstallAt(l, d, h, j, b);
      LastMonotone(h, j, |h|, b);
      assert Last(h, |h|, b) >= 0 ==> l.InLog(l.start + 1 + Last(h, |h|, b));
    }
  }

  lemma {:induction false} SetHeadShape(l: Layout, d: Disk, h: seq<int>)
    requires 0 < l.size && l.start + l.size <= |d|
    requires l.logSize < |d[l.start]| && |h| <= l.logSize && Installable(l, |d|, h)
    ensures var e := SetHead(l, d, h); Recoverable(l, e) && Header(l, e) == h && SameHome(l, d, e)
    ensures h == [] ==> Clean(l, SetHead(l, d, h))
  {
    var hb := WithEntries(d[l.start], h);
    assert hb[1..1 + |h|] == h;
  }

  // ---- recovery ----

  // Wherever a reboot interrupts recovery, starting over reaches the same home
  // blocks; and recovery that runs to its end leaves a clean log.
  lemma {:induction false} RecoveryIsIdempotent(l: Layout, d: Disk, k: nat)
    requires Recoverable(l, d) && k <= |Header(l, d)| + 1
    ensures Recoverable(l, RecoverState(l, d, k))
    ensures SameHome(l, Recovered(l, RecoverState(l, d, k)), Recovered(l, d))
    ensures Clean(l, Recovered(l, d))
  {
    var h := Header(l, d);
    var e := RecoverState(l, d, k);
    assert l.InLog(l.start);
    SetHeadShape(l, Install(l, d, h, |h|), []);
    if k <= |h| {
      assert Header(l, e) == h;
      Reinstall(l, d, h, k);
      SetHeadShape(l, Install(l, e, h, |h|), []);
    } else {
      CleanRecovery(l, e);
    }
  }

  lemma {:induction false} CleanRecovery(l: Layout, d: Disk)
    requires Clean(l, d)
    ensures SameHome(l, Recovered(l, d), d)
  {
    assert Header(l, d) == [];
    SetHeadShape(l, d, []);
  }

  // ---- commit ----

  // The disk right after the header write of commit().
  function Committed(l: Layout, d: Disk, tx: Transaction): (c: Disk)
    requires Clean(l, d) && ValidTransaction(l, d, tx)
    ensures |c| == |d|
  {
    SetHead(l, Append(l, d, tx, |tx|), Homes(tx))
  }

  lemma {:induction false} CommittedHeader(l: Layout, d: Disk, tx: Transaction)
    requires Clean(l, d) && ValidTransaction(l, d, tx)
    ensures Recoverable(l, Committed(l, d, tx)) && Header(l, Committed(l, d, tx)) == Homes(tx)
  {
    var a := Append(l, d, tx, |tx|);
    assert a[l.start] == d[l.start];
    SetHeadShape(l, a, Homes(tx));
  }

  // A disk whose log holds the blocks of tx installs to what Apply computes.
  lemma {:induction false} LoggedAt(l: Layout, d: Disk, c: Disk, tx: Transaction, b: nat)
    requires ValidTransaction(l, d, tx) && |c| == |d| && Installable(l, |c|, Homes(tx))
    requires forall i :: 0 <= i < |tx| ==> c[l.start + 1 + i] == tx[i].1
    requires b < |d| && !l.InLog(b) && c[b] == d[b]
    ensures Install(l, c, Homes(tx), |tx|)[b] == Apply(d, tx)[b]
  {
    var i := Last(Homes(tx), |tx|, b);
    assert i >= 0 ==> c[l.start + 1 + i] == tx[i].1;
    InstallAt(l, c, Homes(tx), |tx|, b);
    ApplyAt(d, tx, b);
  }

  lemma {:induction false} CommittedBlocks(l: Layout, d: Disk, tx: Transaction)
    requires Clean(l, d) && ValidTransaction(l, d, tx)
    ensures forall i :: 0 <= i < |tx| ==> Committed(l, d, tx)[l.start + 1 + i] == tx[i].1
    ensures SameHome(l, Committed(l, d, tx), d)
  {
  }

  lemma {:induction false} CommittedInstalls(l: Layout, d: Disk, tx: Transaction)
    requires Clean(l, d) && ValidTransaction(l, d, tx)
    ensures Recoverable(l, Committed(l, d, tx)) && Header(l, Committed(l, d, tx)) == Homes(tx)
    ensures SameHome(l, Recovered(l, Committed(l, d, tx)), Apply(d, tx))
  {
    CommittedHeader(l, d, tx);
    CommittedBlocks(l, d, tx);
    var c := Committed(l, d, tx);
    forall b | 0 <= b < |d| && !l.InLog(b)
      ensures Recovered(l, c)[b] == Apply(d, tx)[b]
    {
      LoggedAt(l, d, c, tx, b);
    }
  }

  // From the header write on, commit() issues the writes that recovery would.
  lemma {:induction false} CommitTailIsRecovery(l: Layout, d: Disk, tx: Transaction, k: nat)
    requires Clean(l, d) && ValidTransaction(l, d, tx)
    requires |tx| < k <= CommitLength(tx)
    ensures Recoverable(l, Committed(l, d, tx)) && Header(l, Committed(l, d, tx)) == Homes(tx)
    ensures CommitState(l, d, tx, k) == RecoverState(l, Committed(l, d, tx), k - |tx| - 1)
  {
    CommittedHeader(l, d, tx);
  }

  // The header write is the only point at which the outcome of a reboot
  // switches from the state before the transaction to the state after it.
  lemma {:induction false} CommitIsAtomic(l: Layout, d: Disk, tx: Transaction, k: nat)
    requires Clean(l, d) && ValidTransaction(l, d, tx) && k <= CommitLength(tx)
    ensures Recoverable(l, CommitState(l, d, tx, k))
    ensures SameHome(l, Recovered(l, CommitState(l, d, tx, k)),
                     if k <= |tx| then d else Apply(d, tx))
    ensures k == CommitLength(tx) ==>
              Clean(l, CommitState(l, d, tx, k)) && SameHome(l, CommitState(l, d, tx, k), Apply(d, tx))
  {
    hide CommitState, Recovered, Recoverable, SameHome, Clean, ValidTransaction, Apply;
    if k <= |tx| {
      BeforeHeader(l, d, tx, k);
    } else {
      AfterHeader(l, d, tx, k);
    }
  }

  lemma {:induction false} BeforeHeader(l: Layout, d: Disk, tx: Transaction, k: nat)
    requires Clean(l, d) && ValidTransaction(l, d, tx) && k <= CommitLength(tx) && k <= |tx|
    ensures var s := CommitState(l, d, tx, k);
            && Recoverable(l, s) && SameHome(l, Recovered(l, s), d)
            && (k == CommitLength(tx) ==> Clean(l, s) && SameHome(l, s, Apply(d, tx)))
  {
    var s := CommitState(l, d, tx, k);
    assert s[l.start] == d[l.start];
    CleanRecovery(l, s);
  }

  lemma {:induction false} AfterHeader(l: Layout, d: Disk, tx: Transaction, k: nat)
    requires Clean(l, d) && ValidTransaction(l, d, tx) && |tx| < k <= CommitLength(tx)
    ensures var s := CommitState(l, d, tx, k);
            && Recoverable(l, s) && SameHome(l, Recovered(l, s), Apply(d, tx))
            && (k == CommitLength(tx) ==> Clean(l, s) && SameHome(l, s, Apply(d, tx)))
  {
    var e := Apply(d, tx);
    hide CommitState, RecoverState, Committed, Recoverable, SameHome, Clean, ValidTransaction, Apply, Header;
    CommitTailIsRecovery(l, d, tx, k);
    CommittedInstalls(l, d, tx);
    var c := Committed(l, d, tx);
    RecoveryIsIdempotent(l, c, k - |tx| - 1);
    SameHomeTrans(l, Recovered(l, RecoverState(l, c, k - |tx| - 1)), Recovered(l, c), e);
  }

  lemma {:induction false} SameHomeTrans(l: Layout, a: Disk, b: Disk, c: Disk)
    requires SameHome(l, a, b) && SameHome(l, b, c)
    ensures SameHome(l, a, c)
  {
  }

  // ---- whole runs ----

  // A machine history: transactions that commit undisturbed, transactions cut
  // short by a reboot after some number of block writes, and boots whose
  // recovery either finishes or is itself cut short.
  datatype Event =
    | Commit(tx: Transaction)
    | CommitThenCrash(tx: Transaction, writes: nat)
    | RecoverThenCrash(writes: nat)
    | Recover

  datatype Machine = Machine(disk: Disk, running: bool)

  predicate Enabled(l: Layout, m: Machine, ev: Event) {
    match ev
    case Commit(tx) => m.running && Clean(l, m.disk) && ValidTransaction(l, m.disk, tx)
    case CommitThenCrash(tx, k) =>
      m.running && Clean(l, m.disk) && ValidTransaction(l, m.disk, tx) && k <= CommitLength(tx)
    case RecoverThenCrash(k) => !m.running && Recoverable(l, m.disk) && k <= |Header(l, m.disk)| + 1
    case Recover => !m.running && Recoverable(l, m.disk)
  }

  function Step(l: Layout, m: Machine, ev: Event): Machine
    requires Enabled(l, m, ev)
  {
    match ev
    case Commit(tx) => Machine(CommitState(l, m.disk, tx, CommitLength(tx)), true)
    case CommitThenCrash(tx, k) => Machine(CommitState(l, m.disk, tx, k), false)
    case RecoverThenCrash(k) => Machine(RecoverState(l, m.disk, k), false)
    case Recover => Machine(Recovered(l, m.disk), true)
  }

  // The reference: a disk on which every transaction happens at once or not at
  // all, and on which recovery does nothing.
  function AtomicStep(d: Disk, ev: Event): (r: Disk)
    requires ev.Commit? || ev.CommitThenCrash? ==> forall i :: 0 <= i < |ev.tx| ==> ev.tx[i].0 < |d|
    ensures |r| == |d|
  {
    match ev
    case Commit(tx) => Apply(d, tx)
    case CommitThenCrash(tx, k) => if k <= |tx| then d else Apply(d, tx)
    case RecoverThenCrash(_) => d
    case Recover => d
  }

  predicate Legal(l: Layout, m: Machine, run: seq<Event>)
    decreases |run|
  {
    run == [] || (Enabled(l, m, run[0]) && Legal(l, Step(l, m, run[0]), run[1..]))
  }

  function Final(l: Layout, m: Machine, run: seq<Event>): Machine
    requires Legal(l, m, run)
    decreases |run|
  {
    if run == [] then m else Final(l, Step(l, m, run[0]), run[1..])
  }

  predicate InRange(n: nat, run: seq<Event>) {
    forall e :: 0 <= e < |run| && (run[e].Commit? || run[e].CommitThenCrash?) ==>
      forall i :: 0 <= i < |run[e].tx| ==> run[e].tx[i].0 < n
  }

  function AtomicFinal(d: Disk, run: seq<Event>): (r: Disk)
    requires InRange(|d|, run)
    ensures |r| == |d|
    decreases |run|
  {
    if run == [] then d
    else
      assert InRange(|d|, run[1..]);
      AtomicFinal(AtomicStep(d, run[0]), run[1..])
  }

  // The machine's disk stands for the reference disk r.
  predicate Represents(l: Layout, m: Machine, r: Disk) {
    && Recoverable(l, m.disk)
    && SameHome(l, Recovered(l, m.disk), r)
    && (m.running ==> Clean(l, m.disk) && SameHome(l, m.disk, r))
  }

  lemma {:induction false} ApplyRespectsHome(l: Layout, d: Disk, e: Disk, tx: Transaction)
    requires SameHome(l, d, e)
    requires forall i :: 0 <= i < |tx| ==> tx[i].0 < |d|
    ensures SameHome(l, Apply(d, tx), Apply(e, tx))
  {
    forall b | 0 <= b < |d| && !l.InLog(b) ensures Apply(d, tx)[b] == Apply(e, tx)[b] {
      ApplyAt(d, tx, b);
      ApplyAt(e, tx, b);
    }
  }

  lemma {:induction false} StepRefines(l: Layout, m: Machine, r: Disk, ev: Event)
    requires Represents(l, m, r) && Enabled(l, m, ev)
    ensures Represents(l, Step(l, m, ev), AtomicStep(r, ev))
  {
    var m' := Step(l, m, ev);
    match ev
    case Commit(tx) =>
      CommitIsAtomic(l, m.disk, tx, CommitLength(tx));
      ApplyRespectsHome(l, m.disk, r, tx);
      CleanRecovery(l, m'.disk);
    case CommitThenCrash(tx, k) =>
      CommitIsAtomic(l, m.disk, tx, k);
      ApplyRespectsHome(l, m.disk, r, tx);
    case RecoverThenCrash(k) =>
      RecoveryIsIdempotent(l, m.disk, k);
    case Recover =>
      RecoveryIsIdempotent(l, m.disk, 0);
      CleanRecovery(l, m'.disk);
  }

  // Crash atomicity: after any run, with reboots between any two block writes
  // and any number of reboots during recovery, recovering the disk yields the
  // home blocks of the reference disk; a running machine shows them at once.
  lemma {:induction false} CrashAtomicity(l: Layout, m: Machine, r: Disk, run: seq<Event>)
    requires Represents(l, m, r) && Legal(l, m, run)
    ensures InRange(|r|, run)
    ensures Represents(l, Final(l, m, run), AtomicFinal(r, run))
    decreases |run|
  {
    if run != [] {
      StepRefines(l, m, r, run[0]);
      CrashAtomicity(l, Step(l, m, run[0]), AtomicStep(r, run[0]), run[1..]);
      assert forall e :: 0 < e < |run| ==> run[e] == run[1..][e - 1];
    }
  }
}
