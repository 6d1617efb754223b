// commit() of kernel/log.c while other processes use the buffer cache: readers
// outside transactions take, lock, unlock and give up buffers between any two of
// its steps, and may make it wait for a buffer.
module CommitRun {
  import opened WriteAheadLog
  import opened BufferCache
  import L = Log

  // commit() copies and then writes one block at a time. h is log.lh.block.
  // The block of its k-th write:
  function Target(l: Layout, h: seq<nat>, k: nat): nat
    requires k < 2 * |h| + 2
  {
    if k < |h| then l.start + 1 + k
    else if k == |h| || k == 2 * |h| + 1 then l.start
    else h[k - |h| - 1]
  }

  predicate Fits(l: Layout, n: nat, h: seq<nat>) {
    && 0 < l.size && l.start + l.size <= n && |h| < l.size && |h| <= l.logSize
    && (forall i :: 0 <= i < |h| ==> h[i] < n && !l.InLog(h[i]))
    && (forall i, j :: 0 <= i < j < |h| ==> h[i] != h[j])
  }

  // What it copies there, out of what the cache shows at that moment.
  function Copied(l: Layout, h: seq<nat>, p: seq<Block>, k: nat): Block
    requires Fits(l, |p|, h) && k < 2 * |h| + 2 && |h| < |p[l.start]|
  {
    if k < |h| then p[h[k]]
    else if k == |h| then WithEntries(p[l.start], h)
    else if k == 2 * |h| + 1 then WithEntries(p[l.start], [])
    else p[l.start + k - |h|]
  }

  predicate Visible(a: Action) {
    a.DoModify? || a.DoWrite?
  }

  // Its j-th copy or write.
  predicate CommitStep(l: Layout, h: seq<nat>, p: seq<Block>, a: Action, j: nat) {
    && Fits(l, |p|, h) && |h| < |p[l.start]| && j < 2 * (2 * |h| + 2)
    && var n := Target(l, h, j / 2);
       a == if j % 2 == 0 then DoModify(n, Copied(l, h, p, j / 2)) else DoWrite(n)
  }

  // A run in which nobody but the committing process changes or writes
  // buffers; p is what the cache shows, j counts the steps of commit() so far.
  predicate Commits(l: Layout, h: seq<nat>, c: Cache, p: seq<Block>, run: seq<Action>, j: nat)
    decreases |run|
  {
    run == [] ||
    (var a := run[0];
     && BufferCache.Enabled(c, a) && a.n < |p| && (Visible(a) ==> h != [] && CommitStep(l, h, p, a, j))
     && Commits(l, h, Next(c, a), PlainStep(p, a), run[1..], if Visible(a) then j + 1 else j))
  }

  function Steps(run: seq<Action>): nat {
    if run == [] then 0 else (if Visible(run[0]) then 1 else 0) + Steps(run[1..])
  }

  // The transaction: the blocks of the header as the cache shows them.
  function Shown(h: seq<nat>, p: seq<Block>): (tx: Transaction)
    requires forall i :: 0 <= i < |h| ==> h[i] < |p|
    ensures |tx| == |h| && forall i :: 0 <= i < |h| ==> tx[i] == (h[i], p[h[i]])
  {
    seq(|h|, i requires 0 <= i < |h| => (h[i], p[h[i]]))
  }

  // ---- one step ----

  lemma {:induction false} StepShows(c: Cache, p: seq<Block>, a: Action)
    requires Shows(c, p) && BufferCache.Enabled(c, a)
    ensures Shows(Next(c, a), PlainStep(p, a))
    ensures Next(c, a).disk == if a.DoWrite? then c.disk[a.n := p[a.n]] else c.disk
  {
    NextRefines(c, p, a);
    if a.DoWrite? {
      assert Logical(c, a.n) == p[a.n];
    }
  }

  // What the k-th write of commit() puts there as WriteAheadLog has it; hb is the
  // header block before it.
  function Payload(h: seq<nat>, p: seq<Block>, hb: Block, k: nat): Block
    requires k < 2 * |h| + 2 && (forall i :: 0 <= i < |h| ==> h[i] < |p|) && |h| < |hb|
  {
    if k < |h| then p[h[k]]
    else if k == |h| then WithEntries(hb, h)
    else if k == 2 * |h| + 1 then WithEntries(hb, [])
    else p[h[k - |h| - 1]]
  }

  ghost predicate Committing(l: Layout, d: Disk, h: seq<nat>, p: seq<Block>) {
    && Fits(l, |d|, h) && |p| == |d| && h != []
    && Clean(l, d) && ValidTransaction(l, d, Shown(h, p)) && Homes(Shown(h, p)) == h
    && CommitLength(Shown(h, p)) == 2 * |h| + 2 && l.InLog(l.start)
  }

  lemma {:induction false} StateStep(l: Layout, d: Disk, h: seq<nat>, p: seq<Block>, k: nat)
    requires Committing(l, d, h, p) && k < 2 * |h| + 2
    ensures var e := CommitState(l, d, Shown(h, p), k);
      && |h| < |e[l.start]|
      && CommitState(l, d, Shown(h, p), k + 1) == e[Target(l, h, k) := Payload(h, p, e[l.start], k)]
  {
    hide CommitState, Clean, ValidTransaction;
    HeaderRoom(l, d, h, p, k);
    if k < |h| {
      StateAppend(l, d, h, p, k);
    } else if k == |h| {
      StateHeader(l, d, h, p);
    } else if k <= 2 * |h| {
      StateInstall(l, d, h, p, k);
    } else {
      StateErase(l, d, h, p);
    }
  }

  lemma {:induction false} HeaderRoom(l: Layout, d: Disk, h: seq<nat>, p: seq<Block>, k: nat)
    requires Committing(l, d, h, p) && k < 2 * |h| + 2
    ensures |h| < |CommitState(l, d, Shown(h, p), k)[l.start]|
  {
    L.InstallStarts(l, d, Shown(h, p));
  }

  lemma {:induction false} StateAppend(l: Layout, d: Disk, h: seq<nat>, p: seq<Block>, k: nat)
    requires Committing(l, d, h, p) && k < |h|
    ensures CommitState(l, d, Shown(h, p), k + 1) == CommitState(l, d, Shown(h, p), k)[l.start + 1 + k := p[h[k]]]
  {
    L.AppendStep(l, d, Shown(h, p), k);
  }

  lemma {:induction false} StateHeader(l: Layout, d: Disk, h: seq<nat>, p: seq<Block>)
    requires Committing(l, d, h, p)
    ensures var e := CommitState(l, d, Shown(h, p), |h|);
      |h| < |e[l.start]| && CommitState(l, d, Shown(h, p), |h| + 1) == e[l.start := WithEntries(e[l.start], h)]
  {
    L.HeaderStep(l, d, Shown(h, p));
  }

  lemma {:induction false} StateInstall(l: Layout, d: Disk, h: seq<nat>, p: seq<Block>, k: nat)
    requires Committing(l, d, h, p) && |h| < k <= 2 * |h|
    ensures var i := k - |h| - 1;
            CommitState(l, d, Shown(h, p), k + 1) == CommitState(l, d, Shown(h, p), k)[h[i] := p[h[i]]]
  {
    L.InstallStarts(l, d, Shown(h, p));
    L.InstallStep(l, d, Shown(h, p), k - |h| - 1);
  }

  lemma {:induction false} StateErase(l: Layout, d: Disk, h: seq<nat>, p: seq<Block>)
    requires Committing(l, d, h, p)
    ensures var e := CommitState(l, d, Shown(h, p), 2 * |h| + 1);
      0 < |e[l.start]| && CommitState(l, d, Shown(h, p), 2 * |h| + 2) == e[l.start := WithEntries(e[l.start], [])]
  {
    L.InstallStarts(l, d, Shown(h, p));
    L.EraseStep(l, d, Shown(h, p));
  }

  // The log blocks written so far.
  lemma {:induction false} LogBlocks(l: Layout, d: Disk, h: seq<nat>, p: seq<Block>, k: nat, i: nat)
    requires Committing(l, d, h, p) && |h| < k <= 2 * |h| + 1 && i < |h|
    ensures CommitState(l, d, Shown(h, p), k)[l.start + 1 + i] == p[h[i]]
  {
    L.InstallStarts(l, d, Shown(h, p));
    assert l.InLog(l.start + 1 + i);
  }

  // What holds after j steps: the disk is the one after j / 2 writes, the cache
  // shows every home block as before, and every log block as on disk, with the
  // copy under way.
  ghost predicate Along(l: Layout, d: Disk, h: seq<nat>, p0: seq<Block>, c: Cache, p: seq<Block>, j: nat) {
    && Shows(c, p) && |p| == |d| && Committing(l, d, h, p0) && j <= 2 * (2 * |h| + 2)
    && c.disk == CommitState(l, d, Shown(h, p0), j / 2)
    && Same(l, p, p0, CommitState(l, d, Shown(h, p0), (j + 1) / 2))
  }

  // Home blocks as in p0, log blocks as in e.
  ghost predicate Same(l: Layout, p: seq<Block>, p0: seq<Block>, e: Disk) {
    && |p| == |p0| == |e|
    && (forall b :: 0 <= b < |p| && !l.InLog(b) ==> p[b] == p0[b])
    && (forall b :: 0 <= b < |p| && l.InLog(b) ==> p[b] == e[b])
  }

  // The copy that commit() makes is the one WriteAheadLog has.
  lemma {:induction false} CopiedIs(l: Layout, d: Disk, h: seq<nat>, p0: seq<Block>, p: seq<Block>, k: nat)
    requires Committing(l, d, h, p0) && k < 2 * |h| + 2 && Same(l, p, p0, CommitState(l, d, Shown(h, p0), k))
    requires |h| < |p[l.start]|
    ensures Copied(l, h, p, k) == Payload(h, p0, CommitState(l, d, Shown(h, p0), k)[l.start], k)
    ensures |h| < k <= 2 * |h| ==> Copied(l, h, p, k) == p0[h[k - |h| - 1]]
  {
    hide CommitState, Clean, ValidTransaction;
    if |h| < k <= 2 * |h| {
      LogBlocks(l, d, h, p0, k, k - |h| - 1);
      assert l.InLog(l.start + k - |h|);
    }
  }

  lemma {:induction false} SameAfterCopy(l: Layout, h: seq<nat>, p: seq<Block>, p0: seq<Block>, e: Disk, k: nat,
                                         data: Block)
    requires Same(l, p, p0, e) && Fits(l, |p|, h) && k < 2 * |h| + 2
    requires |h| < k <= 2 * |h| ==> data == p0[h[k - |h| - 1]]
    ensures var n := Target(l, h, k); n < |p| && Same(l, p[n := data], p0, e[n := data])
  {
  }

  lemma {:induction false} CopyAlong(l: Layout, d: Disk, h: seq<nat>, p0: seq<Block>, c: Cache, p: seq<Block>,
                                     a: Action, j: nat)
    requires Along(l, d, h, p0, c, p, j) && BufferCache.Enabled(c, a) && a.DoModify? && CommitStep(l, h, p, a, j)
    ensures Along(l, d, h, p0, Next(c, a), PlainStep(p, a), j + 1)
  {
    hide CommitState, Clean, ValidTransaction, Shows, Next, BufferCache.Enabled, Same, Copied, Payload;
    var k := j / 2;
    StepShows(c, p, a);
    assert (j + 1) / 2 == k && (j + 2) / 2 == k + 1;
    StateStep(l, d, h, p0, k);
    CopiedIs(l, d, h, p0, p, k);
    SameAfterCopy(l, h, p, p0, CommitState(l, d, Shown(h, p0), k), k, a.data);
  }

  lemma {:induction false} TargetShows(l: Layout, d: Disk, h: seq<nat>, p0: seq<Block>, p: seq<Block>, k: nat)
    requires Committing(l, d, h, p0) && k < 2 * |h| + 2 && Same(l, p, p0, CommitState(l, d, Shown(h, p0), k + 1))
    ensures var n, e := Target(l, h, k), CommitState(l, d, Shown(h, p0), k);
      n < |p| && CommitState(l, d, Shown(h, p0), k + 1) == e[n := p[n]]
  {
    hide CommitState, Clean, ValidTransaction;
    StateStep(l, d, h, p0, k);
    assert k < |h| ==> l.InLog(l.start + 1 + k);
  }

  lemma {:induction false} WriteAlong(l: Layout, d: Disk, h: seq<nat>, p0: seq<Block>, c: Cache, p: seq<Block>,
                                      a: Action, j: nat)
    requires Along(l, d, h, p0, c, p, j) && BufferCache.Enabled(c, a) && a.DoWrite? && CommitStep(l, h, p, a, j)
    ensures Along(l, d, h, p0, Next(c, a), PlainStep(p, a), j + 1)
  {
    hide CommitState, Clean, ValidTransaction, Shows, Next, BufferCache.Enabled, Same, Copied, Payload;
    var k := j / 2;
    StepShows(c, p, a);
    assert (j + 1) / 2 == k + 1 && (j + 2) / 2 == k + 1;
    TargetShows(l, d, h, p0, p, k);
  }

  lemma {:induction false} StepAlong(l: Layout, d: Disk, h: seq<nat>, p0: seq<Block>, c: Cache, p: seq<Block>,
                                     a: Action, j: nat)
    requires Along(l, d, h, p0, c, p, j) && BufferCache.Enabled(c, a) && (Visible(a) ==> CommitStep(l, h, p, a, j))
    ensures Along(l, d, h, p0, Next(c, a), PlainStep(p, a), if Visible(a) then j + 1 else j) && a.n < |p|
  {
    hide CommitState, Clean, ValidTransaction, Next, BufferCache.Enabled, Same, Committing, CommitStep;
    if a.DoModify? {
      CopyAlong(l, d, h, p0, c, p, a, j);
    } else if a.DoWrite? {
      WriteAlong(l, d, h, p0, c, p, a, j);
    }
    StepShows(c, p, a);
    InRange(c, p, a);
  }

  lemma {:induction false} InRange(c: Cache, p: seq<Block>, a: Action)
    requires Shows(c, p) && BufferCache.Enabled(c, a)
    ensures a.n < |p|
  {
  }

  lemma {:induction false} RunAlong(l: Layout, d: Disk, h: seq<nat>, p0: seq<Block>, c: Cache, p: seq<Block>,
                                    run: seq<Action>, j: nat)
    requires Along(l, d, h, p0, c, p, j) && Commits(l, h, c, p, run, j)
    ensures LegalRun(c, run) && forall i :: 0 <= i < |run| ==> run[i].n < |p|
    ensures Along(l, d, h, p0, After(c, run), PlainAfter(p, run), j + Steps(run))
    decreases |run|
  {
    hide Along, BufferCache.Enabled, Next, CommitStep, PlainStep;
    if run != [] {
      var a := run[0];
      StepAlong(l, d, h, p0, c, p, a, j);
      RunAlong(l, d, h, p0, Next(c, a), PlainStep(p, a), run[1..], if Visible(a) then j + 1 else j);
      assert forall i :: 0 < i < |run| ==> run[i] == run[1..][i - 1];
    }
  }

  lemma {:induction false} Begins(l: Layout, h: seq<nat>, c: Cache, p: seq<Block>)
    requires Shows(c, p) && Fits(l, |p|, h) && Clean(l, c.disk) && h != []
    requires forall b :: 0 <= b < |p| && l.InLog(b) ==> p[b] == c.disk[b]
    ensures Along(l, c.disk, h, p, c, p, 0)
  {
    hide Inv;
    assert ValidTransaction(l, c.disk, Shown(h, p)) && Homes(Shown(h, p)) == h;
    assert l.InLog(l.start);
    assert CommitState(l, c.disk, Shown(h, p), 0) == c.disk;
  }

  // Whatever the readers do in between, the disk goes through the states that
  // WriteAheadLog proves atomic, and every home block goes on reading as it did;
  // so a crash at any moment recovers the old blocks before the header write and
  // the transaction's after it.
  lemma {:induction false} CommitAmongReaders(l: Layout, h: seq<nat>, c: Cache, p: seq<Block>, run: seq<Action>)
    requires Shows(c, p) && Fits(l, |p|, h) && Clean(l, c.disk) && h != [] && Commits(l, h, c, p, run, 0)
    requires forall b :: 0 <= b < |p| && l.InLog(b) ==> p[b] == c.disk[b]
    ensures LegalRun(c, run)
    ensures var tx, e := Shown(h, p), After(c, run);
      && ValidTransaction(l, c.disk, tx) && Steps(run) / 2 <= CommitLength(tx)
      && e.disk == CommitState(l, c.disk, tx, Steps(run) / 2)
      && |e.disk| == |p| && (forall b :: 0 <= b < |p| && !l.InLog(b) ==> Logical(e, b) == p[b])
      && Recoverable(l, e.disk)
      && SameHome(l, Recovered(l, e.disk), if Steps(run) / 2 <= |tx| then c.disk else Apply(c.disk, tx))
  {
    hide Clean, CommitState, Recovered, Recoverable, SameHome, Inv, Commits, LegalRun, After, PlainAfter, Fits;
    Begins(l, h, c, p);
    RunAlong(l, c.disk, h, p, c, p, run, 0);
    CommitIsAtomic(l, c.disk, Shown(h, p), Steps(run) / 2);
  }
}
