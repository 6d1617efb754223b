// kernel/log.c over the buffer cache: the in-memory log header, and the loops
// of log_write(), write_log(), write_head(), install_trans(), commit() and
// recover_from_log(). A result of false is a panic: the machine stops there,
// and the disk writes issued so far are the ones the trace records.
module Log {
  import opened WriteAheadLog
  import opened CacheUsage
  import C = BufferCache
  import Bio

  ghost function Elems(s: seq<Bio.Buf>): set<Bio.Buf> {
    set b | b in s
  }

  class Log {
    const cache: Bio.Bcache
    const layout: Layout
    var lh: seq<nat>
    var outstanding: nat

    // The assignments of initlog().
    constructor (cache: Bio.Bcache, layout: Layout)
      ensures this.cache == cache && this.layout == layout && lh == [] && outstanding == 0
    {
      this.cache, this.layout, lh, outstanding := cache, layout, [], 0;
    }

    // ---- the cache as the log uses it ----

    // The cache is sound, and pins and held say how it is used.
    ghost predicate Sound(pins: seq<nat>, held: set<nat>)
      reads cache, cache.head, cache.lru
    {
      cache.Valid() && Usage(cache.model, pins, held)
    }

    ghost predicate SameBuffers(s: seq<Bio.Buf>)
      reads cache
    {
      Elems(cache.lru) == Elems(s)
    }

    lemma BuffersOf(s: seq<Bio.Buf>)
      requires SameBuffers(s)
      ensures forall i :: 0 <= i < |cache.lru| ==> cache.lru[i] in s
    {
      forall i | 0 <= i < |cache.lru| ensures cache.lru[i] in s {
        assert cache.lru[i] in Elems(cache.lru);
      }
    }

    // b is the locked buffer of block n.
    ghost predicate InHand(b: Bio.Buf, n: nat)
      reads b, cache
    {
      b in cache.lru && b.dev == cache.dev && b.blockno == n && b.refcnt > 0
    }

    lemma InHandIs(b: Bio.Buf, n: nat, pins: seq<nat>, held: set<nat>)
      requires Sound(pins, held) && n in held && InHand(b, n)
      ensures n < |cache.disk| && cache.Is(b, n) && b.View() == C.SlotOf(cache.model, n)
      ensures b.locked && b.valid && b.users == 1 && b.pinned == (n in pins)
    {
      var i :| 0 <= i < |cache.lru| && cache.lru[i] == b;
      assert C.Holds(cache.model, cache.model.slots[i], n);
      C.FindIs(cache.model, n, i);
      UseOf(cache.model, pins, held, n);
    }

    // bread(), with null for the panic of bget().
    method Hold(n: nat, ghost pins: seq<nat>, ghost held: set<nat>) returns (b: Bio.Buf?)
      requires Sound(pins, held) && n < |cache.disk| && n !in held
      modifies cache`model, cache.lru
      ensures b == null ==> Sound(pins, held)
      ensures b != null ==> Sound(pins, held + {n}) && InHand(b, n)
      ensures b != null ==> b.data == C.Logical(old(cache.model), n)
      ensures C.SameLogical(old(cache.model), cache.model)
      ensures |cache.model.slots| == |old(cache.model).slots|
      ensures forall x :: x in cache.lru && old(x.refcnt) > 0 ==>
                x.refcnt > 0 && x.dev == old(x.dev) && x.blockno == old(x.blockno)
      ensures forall x :: x in cache.lru && x != b ==> x.data == old(x.data)
      ensures n in pins || |pins| + |held| < |cache.model.slots| ==> b != null
    {
      ghost var c := cache.model;
      if |pins| + |held| < |c.slots| { EnoughBuffers(c, pins, held, n); }
      if C.Cached(c, n) { UseOf(c, pins, held, n); }
      b := cache.Bread(n);
      if b != null {
        TakeUsage(c, pins, held, n);
      }
    }

    // memmove() into a locked buffer.
    method Change(b: Bio.Buf, data: Block, ghost n: nat, ghost pins: seq<nat>, ghost held: set<nat>)
      requires Sound(pins, held) && n in held && InHand(b, n)
      modifies cache`model, b`data
      ensures Sound(pins, held) && b.data == data
      ensures n < |cache.disk| == |old(cache.model).disk| && C.Logical(cache.model, n) == data
      ensures forall m :: 0 <= m < |cache.disk| && m != n ==>
                C.Logical(cache.model, m) == C.Logical(old(cache.model), m)
      ensures |cache.model.slots| == |old(cache.model).slots|
    {
      InHandIs(b, n, pins, held);
      ModifyUsage(cache.model, pins, held, n, data);
      cache.Fill(b, data, n);
    }

    // bwrite()
    method Store(b: Bio.Buf, ghost n: nat, ghost pins: seq<nat>, ghost held: set<nat>)
      requires Sound(pins, held) && n in held && InHand(b, n)
      modifies cache`model, cache`disk, cache`trace
      ensures Sound(pins, held) && !C.Dirty(cache.model, b.View())
      ensures C.SameLogical(old(cache.model), cache.model)
      ensures n < |cache.disk| && cache.disk == old(cache.disk)[n := C.Logical(old(cache.model), n)]
      ensures cache.trace == old(cache.trace) + [cache.disk]
      ensures |cache.model.slots| == |old(cache.model).slots|
    {
      InHandIs(b, n, pins, held);
      WriteUsage(cache.model, pins, held, n);
      cache.Bwrite(b, n);
      InHandIs(b, n, pins, held);
    }

    // brelse()
    method LetGo(b: Bio.Buf, ghost n: nat, ghost pins: seq<nat>, ghost held: set<nat>)
      requires Sound(pins, held) && n in held && InHand(b, n)
      requires n in pins || !C.Dirty(cache.model, b.View())
      modifies cache`model, cache`lru, b`locked, b`refcnt, b`users,
               cache.head`prev, cache.head`next, cache.lru`prev, cache.lru`next
      ensures Sound(pins, held - {n}) && SameBuffers(old(cache.lru))
      ensures C.SameLogical(old(cache.model), cache.model)
      ensures |cache.model.slots| == |old(cache.model).slots|
    {
      InHandIs(b, n, pins, held);
      ReleaseUsage(cache.model, pins, held, n);
      cache.Brelse(b, n);
    }

    // Two brelse() in a row.
    method LetGoBoth(x: Bio.Buf, ghost a: nat, y: Bio.Buf, ghost b: nat, ghost pins: seq<nat>, ghost held: set<nat>)
      requires Sound(pins, held + {a, b}) && a != b && a !in held && b !in held && InHand(x, a) && InHand(y, b)
      requires a in pins || !C.Dirty(cache.model, x.View())
      requires b in pins || !C.Dirty(cache.model, y.View())
      modifies cache`model, cache`lru, cache.head, cache.lru
      ensures Sound(pins, held) && SameBuffers(old(cache.lru))
      ensures C.SameLogical(old(cache.model), cache.model)
      ensures |cache.model.slots| == |old(cache.model).slots|
    {
      hide Sound, C.Logical;
      ghost var both := held + {a, b};
      SoundFacts(pins, both);
      ghost var v := y.View();
      LetGo(x, a, pins, both);
      assert both - {a} == held + {b};
      SoundFacts(pins, held + {b});
      assert SameBuffers(old(cache.lru));
      BuffersOf(old(cache.lru));
      assert y in cache.lru by { assert y in Elems(old(cache.lru)); }
      assert y.View() == v && cache.model.disk == old(cache.model.disk);
      assert C.Dirty(cache.model, v) == old(C.Dirty(cache.model, y.View()));
      LetGo(y, b, pins, held + {b});
      assert held + {b} - {b} == held;
    }

    // bunpin() of the block pinned first.
    method Unpin(b: Bio.Buf, ghost n: nat, ghost pins: seq<nat>, ghost held: set<nat>)
      requires Sound(pins, held) && n in held && InHand(b, n)
      requires pins != [] && pins[0] == n && n !in pins[1..]
      modifies cache`model, b`refcnt, b`pinned
      ensures Sound(pins[1..], held) && InHand(b, n)
      ensures C.SameLogical(old(cache.model), cache.model)
      ensures !old(C.Dirty(cache.model, b.View())) ==> !C.Dirty(cache.model, b.View())
      ensures |cache.model.slots| == |old(cache.model).slots|
    {
      InHandIs(b, n, pins, held);
      UnpinUsage(cache.model, pins, held, n);
      cache.Bunpin(b, n);
      InHandIs(b, n, pins[1..], held);
    }

    lemma SoundFacts(pins: seq<nat>, held: set<nat>)
      requires Sound(pins, held)
      ensures cache.model.disk == cache.disk && cache.model.dev == cache.dev && cache.trace != []
      ensures cache.trace[|cache.trace| - 1] == cache.disk
      ensures forall n :: n in pins || n in held ==> n < |cache.disk|
    {
    }

    lemma ReadsAsDisk(n: nat, pins: seq<nat>, held: set<nat>)
      requires Sound(pins, held) && n < |cache.disk| && n !in pins && n !in held
      ensures cache.model.disk == cache.disk && C.Logical(cache.model, n) == cache.disk[n]
    {
      UnusedIsClean(cache.model, pins, held, n);
    }

    // ---- the loops of log.c ----

    // bread(a), bread(b), memmove, bwrite and two brelse: block a gets the
    // contents of block b. Used by write_log() with a in the log. held are the
    // blocks whose buffers others hold, here and below.
    method AppendOne(a: nat, b: nat, ghost held: set<nat>) returns (ok: bool)
      requires Sound(lh, held) && a !in held && b !in held && a != b && a < |cache.disk| && a !in lh && b in lh
               && b < |cache.model.disk|
      modifies cache, cache.head, cache.lru
      ensures !ok ==> cache.trace == old(cache.trace)
      ensures ok ==> Sound(lh, held) && SameBuffers(old(cache.lru))
      ensures ok ==> cache.disk == old(cache.disk)[a := C.Logical(old(cache.model), b)]
      ensures ok ==> cache.trace == old(cache.trace) + [cache.disk]
      ensures ok ==> |cache.model.slots| == |old(cache.model).slots| && |cache.model.disk| == |old(cache.model).disk|
      ensures ok ==> forall m :: 0 <= m < |cache.model.disk| && m != a ==>
                C.Logical(cache.model, m) == C.Logical(old(cache.model), m)
      ensures |lh| + |held| < |old(cache.model).slots| ==> ok
    {
      hide Sound, C.Logical;
      SoundFacts(lh, held);
      var to := Hold(a, lh, held);
      if to == null { return false; }
      SoundFacts(lh, held + {a});
      var from := Hold(b, lh, held + {a});
      SoundFacts(lh, held + {a} + {b});
      Change(to, from.data, a, lh, held + {a} + {b});
      SoundFacts(lh, held + {a} + {b});
      Store(to, a, lh, held + {a} + {b});
      assert held + {a} + {b} == held + {b, a};
      LetGoBoth(from, b, to, a, lh, held);
      SoundFacts(lh, held);
      return true;
    }

    // One round of install_trans(): copy log block a to its home b.
    method InstallOne(a: nat, b: nat, recovering: bool, ghost pins: seq<nat>, ghost held: set<nat>) returns (ok: bool)
      requires Sound(pins, held) && a !in held && b !in held && a != b && a < |cache.model.disk| == |cache.disk|
               && b < |cache.disk| && a !in pins
      requires if recovering then pins == [] else pins != [] && pins[0] == b && b !in pins[1..]
      modifies cache, cache.head, cache.lru
      ensures !ok ==> cache.trace == old(cache.trace)
      ensures ok ==> Sound(if recovering then [] else pins[1..], held) && SameBuffers(old(cache.lru))
      ensures ok ==> cache.disk == old(cache.disk)[b := C.Logical(old(cache.model), a)]
      ensures ok ==> cache.trace == old(cache.trace) + [cache.disk]
      ensures ok ==> |cache.model.slots| == |old(cache.model).slots| && |cache.model.disk| == |old(cache.model).disk|
      ensures ok ==> C.Logical(cache.model, b) == C.Logical(old(cache.model), a)
      ensures ok ==> forall m :: 0 <= m < |cache.model.disk| && m != b ==>
                C.Logical(cache.model, m) == C.Logical(old(cache.model), m)
      ensures |pins| + |held| + (if recovering then 1 else 0) < |old(cache.model).slots| ==> ok
    {
      hide Sound, C.Logical;
      ghost var h1 := held + {a};
      ghost var h2 := h1 + {b};
      ReadsAsDisk(a, pins, held);
      var lbuf := Hold(a, pins, held);
      if lbuf == null { return false; }
      SoundFacts(pins, h1);
      var dbuf := Hold(b, pins, h1);
      if dbuf == null { return false; }
      SoundFacts(pins, h2);
      Change(dbuf, lbuf.data, b, pins, h2);
      SoundFacts(pins, h2);
      Store(dbuf, b, pins, h2);
      ghost var rest := pins;
      if !recovering {
        Unpin(dbuf, b, pins, h2);
        rest := pins[1..];
      }
      SoundFacts(rest, h2);
      CleanInHand(lbuf, a, rest, h2);
      assert h2 == held + {a, b};
      LetGoBoth(lbuf, a, dbuf, b, rest, held);
      SoundFacts(rest, held);
      return true;
    }

    // write_head(): store the in-memory header in the header block.
    method WriteHead(ghost pins: seq<nat>, ghost held: set<nat>) returns (ok: bool)
      requires Sound(pins, held) && layout.start !in held && layout.start < |cache.model.disk| == |cache.disk|
               && layout.start !in pins
      requires |lh| < |cache.disk[layout.start]|
      modifies cache, cache.head, cache.lru
      ensures !ok ==> cache.trace == old(cache.trace)
      ensures ok ==> Sound(pins, held) && SameBuffers(old(cache.lru))
      ensures ok ==> cache.disk == SetHead(layout, old(cache.disk), lh)
      ensures ok ==> cache.trace == old(cache.trace) + [cache.disk]
      ensures ok ==> |cache.model.slots| == |old(cache.model).slots| && |cache.model.disk| == |old(cache.model).disk|
      ensures ok ==> forall m :: 0 <= m < |cache.model.disk| && m != layout.start ==>
                C.Logical(cache.model, m) == C.Logical(old(cache.model), m)
      ensures |pins| + |held| < |old(cache.model).slots| ==> ok
    {
      hide Sound, C.Logical;
      ghost var n := layout.start;
      ReadsAsDisk(n, pins, held);
      var buf := Hold(layout.start, pins, held);
      if buf == null { return false; }
      ghost var h1 := held + {n};
      SoundFacts(pins, h1);
      var hb := buf.data;
      hb := hb[0 := |lh|];
      for i := 0 to |lh|
        invariant |hb| == |buf.data| && hb[0] == |lh|
        invariant forall j :: 0 <= j < i ==> hb[1 + j] == lh[j]
        invariant forall j :: 1 + i <= j < |hb| ==> hb[j] == buf.data[j]
      {
        hb := hb[1 + i := lh[i]];
      }
      assert hb == WithEntries(buf.data, lh);
      Change(buf, hb, n, pins, h1);
      SoundFacts(pins, h1);
      Store(buf, n, pins, h1);
      SoundFacts(pins, h1);
      LetGo(buf, n, pins, h1);
      assert h1 - {n} == held;
      SoundFacts(pins, held);
      return true;
    }

    // read_head(): load the header block into the in-memory header.
    method ReadHead() returns (ok: bool)
      requires Sound([], {}) && layout.start < |cache.model.disk| == |cache.disk|
      requires HeaderShape(layout, cache.disk[layout.start])
      requires forall i :: 1 <= i <= cache.disk[layout.start][0] ==> cache.disk[layout.start][i] >= 0
      modifies this`lh, cache, cache.head, cache.lru
      ensures cache.trace == old(cache.trace)
      ensures ok ==> Sound([], {}) && SameBuffers(old(cache.lru)) && cache.disk == old(cache.disk)
      ensures ok ==> lh == Entries(layout, cache.disk[layout.start])
      ensures ok ==> |cache.model.slots| == |old(cache.model).slots| && |cache.model.disk| == |old(cache.model).disk|
      ensures ok ==> C.SameLogical(old(cache.model), cache.model)
      ensures 0 < |old(cache.model).slots| ==> ok
    {
      hide Sound, C.Logical;
      ghost var n := layout.start;
      ReadsAsDisk(n, [], {});
      var buf := Hold(layout.start, [], {});
      if buf == null { return false; }
      assert {} + {n} == {n};
      SoundFacts([], {n});
      var count := buf.data[0];
      var entries: seq<nat> := [];
      for i := 0 to count
        invariant entries == buf.data[1..1 + i]
      {
        entries := entries + [buf.data[1 + i]];
      }
      lh := entries;
      CleanInHand(buf, n, [], {n});
      LetGo(buf, n, [], {n});
      assert {n} - {n} == {};
      SoundFacts([], {});
      return true;
    }

    lemma CleanInHand(b: Bio.Buf, n: nat, pins: seq<nat>, held: set<nat>)
      requires Sound(pins, held) && n in held && InHand(b, n) && n < |cache.disk|
      requires b.data == cache.disk[n]
      ensures !C.Dirty(cache.model, b.View())
    {
    }

    // The in-memory header lists distinct home blocks that fit in the log.
    ghost predicate Loggable()
      reads this, cache
    {
      && 0 < layout.size && layout.start + layout.size <= |cache.disk|
      && |lh| < layout.size && |lh| <= layout.logSize
      && (forall i :: 0 <= i < |lh| ==> lh[i] < |cache.model.disk| && lh[i] < |cache.disk| && !layout.InLog(lh[i]))
      && (forall i, j :: 0 <= i < j < |lh| ==> lh[i] != lh[j])
    }

    // The held blocks are none that commit() uses.
    ghost predicate Aside(held: set<nat>)
      reads this
    {
      forall n :: n in held ==> !layout.InLog(n) && n !in lh
    }

    // The held blocks have their contents on disk.
    ghost predicate Unchanged(held: set<nat>)
      reads cache
    {
      forall n :: n in held ==> n < |cache.model.disk| && n < |cache.disk| && C.Logical(cache.model, n) == cache.disk[n]
    }

    // What commit() is about to make permanent: the logged blocks as the
    // running system sees them.
    ghost function Pending(): (tx: Transaction)
      requires Loggable()
      reads this, cache
      ensures |tx| == |lh|
      ensures forall i :: 0 <= i < |lh| ==> tx[i] == (lh[i], C.Logical(cache.model, lh[i]))
    {
      var h, c := lh, cache.model;
      seq(|h|, i requires 0 <= i < |h| && h[i] < |c.disk| => (h[i], C.Logical(c, h[i])))
    }

    // Home blocks read as they did in cache state c.
    ghost predicate HomesReadAs(c: C.Cache)
      reads cache
    {
      && |cache.model.disk| == |c.disk|
      && forall m :: 0 <= m < |c.disk| && !layout.InLog(m) ==> C.Logical(cache.model, m) == C.Logical(c, m)
    }

    // write_log()
    method WriteLog(ghost d: Disk, ghost tx: Transaction, ghost c: C.Cache, ghost before: seq<Disk>,
                    ghost held: set<nat>) returns (ok: bool)
      requires Sound(lh, held) && Aside(held) && Loggable() && tx == Pending() && c == cache.model && d == cache.disk
      requires Clean(layout, d) && ValidTransaction(layout, d, tx) && tx != []
      requires before != [] && before == cache.trace
      modifies cache, cache.head, cache.lru
      ensures CommitTrace(layout, d, tx, before, cache.trace)
      ensures ok ==> Sound(lh, held) && SameBuffers(old(cache.lru)) && HomesReadAs(c)
      ensures ok ==> cache.disk == Append(layout, d, tx, |tx|) && |cache.trace| == |before| + |tx|
      ensures ok ==> |cache.model.slots| == |c.slots| && |cache.model.disk| == |cache.disk|
      ensures |lh| + |held| < |c.slots| ==> ok
    {
      hide Sound, C.Logical, CommitTrace, Append;
      SoundFacts(lh, held);
      CommitStarts(layout, d, tx, before);
      for tail := 0 to |lh|
        invariant Sound(lh, held) && SameBuffers(old(cache.lru)) && HomesReadAs(c)
        invariant cache.disk == Append(layout, d, tx, tail) && |cache.trace| == |before| + tail
        invariant |cache.model.slots| == |c.slots| && |cache.model.disk| == |cache.disk|
        invariant CommitTrace(layout, d, tx, before, cache.trace)
      {
        label L:
        BuffersOf(old(cache.lru));
        ok := AppendOne(layout.start + tail + 1, lh[tail], held);
        if !ok { return; }
        AppendStep(layout, d, tx, tail);
        TraceGrows(layout, d, tx, before, old@L(cache.trace), cache.disk);
        SoundFacts(lh, held);
      }
      ok := true;
    }

    // install_trans(0), after the header write that committed tx.
    method InstallCommitted(ghost d: Disk, ghost tx: Transaction, ghost c: C.Cache, ghost before: seq<Disk>,
                            ghost held: set<nat>)
      returns (ok: bool)
      requires Clean(layout, d) && ValidTransaction(layout, d, tx) && tx != []
      requires Sound(lh, held) && Aside(held) && Loggable() && tx == Pending() && HomesReadAs(c)
      requires cache.disk == Committed(layout, d, tx) && |cache.trace| == |before| + |tx| + 1
      requires CommitTrace(layout, d, tx, before, cache.trace) && |cache.model.slots| == |c.slots|
      modifies cache, cache.head, cache.lru
      ensures CommitTrace(layout, d, tx, before, cache.trace)
      ensures ok ==> Sound([], held) && SameBuffers(old(cache.lru)) && HomesReadAs(c)
      ensures ok ==> Installable(layout, |d|, Homes(tx))
      ensures ok ==> cache.disk == Install(layout, Committed(layout, d, tx), Homes(tx), |tx|)
      ensures ok ==> |cache.trace| == |before| + 2 * |tx| + 1
      ensures ok ==> |cache.model.slots| == |c.slots| && |cache.model.disk| == |cache.disk|
      ensures |lh| + |held| < |c.slots| ==> ok
    {
      BeginInstalling(d, tx, c, before, held);
      hide Sound, C.Logical, CommitTrace, Install, Committed, SetHead, CommitState, ValidTransaction, HomesReadAs,
           Loggable;
      ok := InstallAll(d, tx, c, before, held);
      assert lh[|lh|..] == [];
    }

    lemma BeginInstalling(d: Disk, tx: Transaction, c: C.Cache, before: seq<Disk>, held: set<nat>)
      requires Clean(layout, d) && ValidTransaction(layout, d, tx) && tx != []
      requires Sound(lh, held) && Aside(held) && Loggable() && tx == Pending() && HomesReadAs(c)
      requires cache.disk == Committed(layout, d, tx) && |cache.trace| == |before| + |tx| + 1
      requires CommitTrace(layout, d, tx, before, cache.trace) && |cache.model.slots| == |c.slots|
      ensures Installing(d, tx, c, before, held, 0)
    {
      assert lh[0..] == lh && Homes(tx) == lh;
      CommittedBlocks(layout, d, tx);
      InstallStarts(layout, d, tx);
      SoundFacts(lh, held);
      assert forall k :: 0 <= k < |tx| ==> tx[k].0 < |c.disk| && tx[k].1 == C.Logical(c, tx[k].0);
      hide Sound, C.Logical, CommitTrace, Install, Committed, ValidTransaction, HomesReadAs;
    }

    // The loop of install_trans().
    method InstallAll(ghost d: Disk, ghost tx: Transaction, ghost c: C.Cache, ghost before: seq<Disk>,
                      ghost held: set<nat>) returns (ok: bool)
      requires Installing(d, tx, c, before, held, 0)
      modifies cache, cache.head, cache.lru
      ensures Clean(layout, d) && ValidTransaction(layout, d, tx) && CommitTrace(layout, d, tx, before, cache.trace)
      ensures ok ==> Installing(d, tx, c, before, held, |lh|) && SameBuffers(old(cache.lru))
      ensures |lh| + |held| < |c.slots| ==> ok
    {
      assert Clean(layout, d) && ValidTransaction(layout, d, tx) && CommitTrace(layout, d, tx, before, cache.trace);
      hide Installing, Clean, ValidTransaction, CommitTrace;
      for tail := 0 to |lh|
        invariant Installing(d, tx, c, before, held, tail) && SameBuffers(old(cache.lru))
                  && CommitTrace(layout, d, tx, before, cache.trace)
      {
        BuffersOf(old(cache.lru));
        ok := InstallRound(d, tx, c, before, held, tail);
        if !ok { return; }
      }
      ok := true;
    }

    // tail blocks of the committed transaction have been installed.
    ghost predicate Installing(d: Disk, tx: Transaction, c: C.Cache, before: seq<Disk>, held: set<nat>, tail: nat)
      reads this, cache, cache.head, cache.lru
    {
      && Loggable() && Clean(layout, d) && ValidTransaction(layout, d, tx) && Installable(layout, |d|, Homes(tx))
      && Homes(tx) == lh
      && (forall k :: 0 <= k < |tx| ==> tx[k].0 < |c.disk| && tx[k].1 == C.Logical(c, tx[k].0))
      && tail <= |lh| && Sound(lh[tail..], held) && Aside(held) && HomesReadAs(c)
      && cache.disk == Install(layout, Committed(layout, d, tx), Homes(tx), tail)
      && |cache.trace| == |before| + |tx| + 1 + tail
      && |cache.model.slots| == |c.slots| && |cache.model.disk| == |cache.disk|
      && CommitTrace(layout, d, tx, before, cache.trace)
    }

    method InstallRound(ghost d: Disk, ghost tx: Transaction, ghost c: C.Cache, ghost before: seq<Disk>,
                        ghost held: set<nat>, tail: nat)
      returns (ok: bool)
      requires tail < |lh| && Installing(d, tx, c, before, held, tail)
      modifies cache, cache.head, cache.lru
      ensures Clean(layout, d) && ValidTransaction(layout, d, tx) && CommitTrace(layout, d, tx, before, cache.trace)
      ensures ok ==> Installing(d, tx, c, before, held, tail + 1) && SameBuffers(old(cache.lru))
      ensures |lh| + |held| < |c.slots| ==> ok
    {
      hide Sound, C.Logical, CommitTrace, Install, Committed, SetHead, CommitState;
      CommittedBlocks(layout, d, tx);
      ghost var pins := lh[tail..];
      SoundFacts(pins, held);
      ReadsAsDisk(layout.start + tail + 1, pins, held);
      InstallStep(layout, d, tx, tail);
      ok := InstallOne(layout.start + tail + 1, lh[tail], false, pins, held);
      if ok {
        TraceGrows(layout, d, tx, before, old(cache.trace), cache.disk);
        assert pins[1..] == lh[tail + 1..];
        SoundFacts(lh[tail + 1..], held);
      }
    }

    // commit(). Whatever happens, the writes issued are a prefix of the ones
    // that WriteAheadLog proves atomic; with a buffer to spare none is missing.
    // Others may hold buffers of blocks that commit() does not use, if they do
    // not change them.
    method Commit(ghost held: set<nat>) returns (ok: bool)
      requires Sound(lh, held) && Aside(held) && Unchanged(held) && Loggable() && Clean(layout, cache.disk)
      modifies this`lh, cache, cache.head, cache.lru
      ensures ValidTransaction(layout, old(cache.disk), old(Pending()))
      ensures CommitTrace(layout, old(cache.disk), old(Pending()), old(cache.trace), cache.trace)
      ensures ok ==> |cache.trace| == |old(cache.trace)| + CommitLength(old(Pending()))
      ensures ok ==> lh == [] && Sound([], held) && SameBuffers(old(cache.lru))
      ensures ok ==> HomesReadAs(old(cache.model)) && |cache.model.slots| == |old(cache.model).slots|
      ensures ok ==> Clean(layout, cache.disk) && |cache.disk| == |old(cache.model).disk|
      ensures ok ==> forall m :: 0 <= m < |cache.disk| && !layout.InLog(m) ==>
                cache.disk[m] == C.Logical(old(cache.model), m)
      ensures |old(lh)| + |held| < |old(cache.model).slots| ==> ok
    {
      hide Sound, C.Logical, CommitTrace, Install, Append, Committed, SetHead, CommitState;
      SoundFacts(lh, held);
      ghost var d, tx, c, before := cache.disk, Pending(), cache.model, cache.trace;
      assert lh[..] == lh;
      CommitStarts(layout, d, tx, before);
      if |lh| > 0 {
        ok := WriteLog(d, tx, c, before, held);
        if !ok { return; }
        BuffersOf(old(cache.lru));
        ok := CommitHeader(d, tx, c, before, held);
        if !ok { return; }
        BuffersOf(old(cache.lru));
        ok := InstallCommitted(d, tx, c, before, held);
        if !ok { return; }
        lh := [];
        BuffersOf(old(cache.lru));
        ok := EraseHeader(d, tx, c, before, held);
        if !ok { return; }
      }
      ok := true;
      CommitTraceEnds(layout, d, tx, before, cache.trace);
      SoundFacts([], held);
      forall m | m in held ensures m < |cache.disk| == |d| && cache.disk[m] == d[m] {
        CommitLeaves(layout, d, tx, before, cache.trace, m);
      }
      Durable(c, d, held);
    }

    // commit() leaves the held blocks alone on disk.
    lemma Durable(c: C.Cache, d: Disk, held: set<nat>)
      requires Sound([], held) && HomesReadAs(c) && |d| == |c.disk| == |cache.disk|
      requires forall m :: m in held ==> m < |d| && C.Logical(c, m) == d[m] && cache.disk[m] == d[m]
      ensures cache.trace != [] && cache.disk == cache.trace[|cache.trace| - 1]
      ensures forall m :: 0 <= m < |cache.disk| && !layout.InLog(m) ==> cache.disk[m] == C.Logical(c, m)
    {
      forall m | 0 <= m < |cache.disk| && !layout.InLog(m) ensures cache.disk[m] == C.Logical(c, m) {
        if m !in held {
          ReadsAsDisk(m, [], held);
        }
      }
    }

    // The header write that commits tx.
    method CommitHeader(ghost d: Disk, ghost tx: Transaction, ghost c: C.Cache, ghost before: seq<Disk>,
                        ghost held: set<nat>)
      returns (ok: bool)
      requires Clean(layout, d) && ValidTransaction(layout, d, tx) && tx != [] && |c.disk| == |d|
      requires Sound(lh, held) && Aside(held) && Loggable() && HomesReadAs(c) && |tx| == |lh|
      requires forall i :: 0 <= i < |lh| ==> tx[i] == (lh[i], C.Logical(c, lh[i]))
      requires cache.disk == Append(layout, d, tx, |tx|) && |cache.trace| == |before| + |tx|
      requires CommitTrace(layout, d, tx, before, cache.trace) && |cache.model.slots| == |c.slots|
      modifies cache, cache.head, cache.lru
      ensures CommitTrace(layout, d, tx, before, cache.trace)
      ensures ok ==> Sound(lh, held) && SameBuffers(old(cache.lru)) && HomesReadAs(c)
      ensures ok ==> Loggable() && tx == Pending()
      ensures ok ==> cache.disk == Committed(layout, d, tx) && |cache.trace| == |before| + |tx| + 1
      ensures ok ==> |cache.model.slots| == |c.slots|
      ensures |lh| + |held| < |c.slots| ==> ok
    {
      hide Sound, C.Logical, CommitTrace, Append;
      SoundFacts(lh, held);
      HeaderStep(layout, d, tx);
      label L:
      assert Homes(tx) == lh;
      ok := WriteHead(lh, held);
      if ok {
        SoundFacts(lh, held);
        TraceGrows(layout, d, tx, before, old@L(cache.trace), cache.disk);
      }
    }

    // The header write that erases tx from the log.
    method EraseHeader(ghost d: Disk, ghost tx: Transaction, ghost c: C.Cache, ghost before: seq<Disk>,
                       ghost held: set<nat>)
      returns (ok: bool)
      requires Clean(layout, d) && ValidTransaction(layout, d, tx) && tx != []
      requires Installable(layout, |d|, Homes(tx)) && lh == []
      requires Sound([], held) && layout.start !in held && HomesReadAs(c) && |c.disk| == |d|
      requires cache.disk == Install(layout, Committed(layout, d, tx), Homes(tx), |tx|)
      requires |cache.trace| == |before| + 2 * |tx| + 1
      requires CommitTrace(layout, d, tx, before, cache.trace) && |cache.model.slots| == |c.slots|
      modifies cache, cache.head, cache.lru
      ensures CommitTrace(layout, d, tx, before, cache.trace)
      ensures ok ==> Sound([], held) && SameBuffers(old(cache.lru)) && HomesReadAs(c)
      ensures ok ==> |cache.trace| == |before| + CommitLength(tx)
      ensures ok ==> |cache.model.slots| == |c.slots|
      ensures |held| < |c.slots| ==> ok
    {
      hide Sound, C.Logical, CommitTrace, Append, Install;
      SoundFacts([], held);
      EraseStep(layout, d, tx);
      label L:
      ok := WriteHead([], held);
      if ok {
        SoundFacts([], held);
        TraceGrows(layout, d, tx, before, old@L(cache.trace), cache.disk);
      }
    }

    // install_trans(1) and the header write after it.
    method InstallRecovered(ghost d: Disk, ghost before: seq<Disk>) returns (ok: bool)
      requires Recoverable(layout, d) && d == cache.disk && lh == Header(layout, d)
      requires Sound([], {}) && before == cache.trace
      modifies cache, cache.head, cache.lru
      ensures RecoverTrace(layout, d, before, cache.trace)
      ensures ok ==> Sound([], {}) && SameBuffers(old(cache.lru))
      ensures ok ==> |cache.trace| == |before| + |lh|
      ensures ok ==> cache.disk == Install(layout, d, lh, |lh|)
      ensures ok ==> |cache.model.slots| == |old(cache.model).slots|
      ensures 1 < |old(cache.model).slots| ==> ok
    {
      hide Sound, C.Logical, Install, RecoverTrace, RecoverState;
      SoundFacts([], {});
      RecoverStarts(layout, d, before);
      for tail := 0 to |lh|
        invariant Sound([], {}) && SameBuffers(old(cache.lru))
        invariant cache.disk == Install(layout, d, lh, tail) && |cache.trace| == |before| + tail
        invariant RecoverTrace(layout, d, before, cache.trace)
        invariant |cache.model.slots| == |old(cache.model).slots| && |cache.model.disk| == |cache.disk|
      {
        ReadsAsDisk(layout.start + tail + 1, [], {});
        label L:
        BuffersOf(old(cache.lru));
        ok := InstallOne(layout.start + tail + 1, lh[tail], true, [], {});
        if !ok { return; }
        RecoverStep(layout, d, before, old@L(cache.trace), tail);
        SoundFacts([], {});
      }
      ok := true;
    }

    // recover_from_log(), on the empty cache of a machine that has just booted.
    method RecoverFromLog() returns (ok: bool)
      requires Sound([], {}) && Recoverable(layout, cache.disk)
      modifies this`lh, cache, cache.head, cache.lru
      ensures RecoverTrace(layout, old(cache.disk), old(cache.trace), cache.trace)
      ensures ok ==> lh == [] && Sound([], {}) && SameBuffers(old(cache.lru))
      ensures ok ==> cache.disk == Recovered(layout, old(cache.disk)) && |cache.model.slots| == |old(cache.model).slots|
      ensures ok ==> |cache.trace| == |old(cache.trace)| + |Header(layout, old(cache.disk))| + 1
      ensures 1 < |old(cache.model).slots| ==> ok
    {
      hide Sound, C.Logical, Install, RecoverTrace, RecoverState;
      ghost var d, before := cache.disk, cache.trace;
      SoundFacts([], {});
      RecoverStarts(layout, d, before);
      ok := ReadHead();
      if !ok { return; }
      SoundFacts([], {});
      BuffersOf(old(cache.lru));
      ok := InstallRecovered(d, before);
      if !ok { return; }
      RecoverEnds(layout, d, before, cache.trace);
      SoundFacts([], {});
      lh := [];
      BuffersOf(old(cache.lru));
      ok := WriteHead([], {});
      if ok { SoundFacts([], {}); }
    }

    // log_write(): record a block that the caller has changed and still holds,
    // and pin it unless it is in the log already.
    method LogWrite(b: Bio.Buf, ghost held: set<nat>) returns (ok: bool)
      requires Sound(lh, held) && b.blockno in held && InHand(b, b.blockno)
      requires |lh| <= layout.logSize && |lh| <= layout.size - 1 && !layout.InLog(b.blockno)
      requires forall i, j :: 0 <= i < j < |lh| ==> lh[i] != lh[j]
      modifies this`lh, cache`model, b`refcnt, b`pinned
      ensures ok <==> |old(lh)| < layout.logSize && |old(lh)| < layout.size - 1 && outstanding >= 1
      ensures !ok ==> lh == old(lh) && Sound(lh, held)
      ensures ok ==> lh == if b.blockno in old(lh) then old(lh) else old(lh) + [b.blockno]
      ensures ok ==> Sound(lh, held) && InHand(b, b.blockno)
      ensures ok ==> |lh| <= layout.logSize && |lh| <= layout.size - 1
      ensures ok ==> forall i, j :: 0 <= i < j < |lh| ==> lh[i] != lh[j]
      ensures C.SameLogical(old(cache.model), cache.model)
    {
      hide C.Inv, C.SlotOk, SlotUse, C.Find;
      if |lh| >= layout.logSize || |lh| >= layout.size - 1 { return false; }
      if outstanding < 1 { return false; }
      var i := 0;
      while i < |lh| && lh[i] != b.blockno
        invariant 0 <= i <= |lh| && b.blockno !in lh[..i]
      {
        i := i + 1;
      }
      ghost var n := b.blockno;
      InHandIs(b, n, lh, held);
      if i == |lh| {
        assert lh[..i] == lh;
        PinUsage(cache.model, lh, held, n);
        cache.Bpin(b, n);
        lh := lh + [b.blockno];
      } else {
        lh := lh[i := b.blockno];
      }
      return true;
    }
  }

  // Booting from a disk: binit() with n buffers, then initlog().
  method Boot(dev: nat, disk: Disk, n: nat, layout: Layout) returns (log: Log, ok: bool)
    requires dev != C.NO_DEVICE && Recoverable(layout, disk)
    ensures fresh(log) && log.layout == layout
    ensures RecoverTrace(layout, disk, [disk], log.cache.trace)
    ensures ok ==> log.lh == [] && log.Sound([], {}) && log.outstanding == 0 && |log.cache.model.slots| == n
    ensures ok ==> log.cache.disk == Recovered(layout, disk) && Clean(layout, log.cache.disk)
    ensures n > 1 ==> ok
  {
    hide C.Inv, Recovered, Recoverable, Clean, RecoverTrace, Usage, Bio.Linked, Bio.Shows;
    var cache := new Bio.Bcache(dev, disk, n);
    FreshUsage(dev, n, disk);
    log := new Log(cache, layout);
    RecoveredIsClean(layout, disk);
    ok := log.RecoverFromLog();
  }

  lemma RecoveredIsClean(l: Layout, d: Disk)
    requires Recoverable(l, d)
    ensures Clean(l, Recovered(l, d))
  {
    hide Recovered, Recoverable, Clean;
    RecoveryIsIdempotent(l, d, |Header(l, d)| + 1);
  }

  // The trace continues with the first writes of commit(), none missing and
  // none out of order.
  ghost predicate CommitTrace(l: Layout, d: Disk, tx: Transaction, before: seq<Disk>, trace: seq<Disk>)
    requires Clean(l, d) && ValidTransaction(l, d, tx)
  {
    && 0 < |before| <= |trace| <= |before| + CommitLength(tx)
    && trace[..|before|] == before
    && before[|before| - 1] == d
    && forall k :: 0 < k <= |trace| - |before| ==> trace[|before| - 1 + k] == CommitState(l, d, tx, k)
  }

  lemma CommitStarts(l: Layout, d: Disk, tx: Transaction, before: seq<Disk>)
    requires Clean(l, d) && ValidTransaction(l, d, tx) && before != [] && before[|before| - 1] == d
    ensures CommitTrace(l, d, tx, before, before) && Append(l, d, tx, 0) == d
  {
  }

  lemma TraceGrows(l: Layout, d: Disk, tx: Transaction, before: seq<Disk>, trace: seq<Disk>, next: Disk)
    requires Clean(l, d) && ValidTransaction(l, d, tx) && CommitTrace(l, d, tx, before, trace)
    requires |trace| - |before| < CommitLength(tx)
    requires next == CommitState(l, d, tx, |trace| - |before| + 1)
    ensures CommitTrace(l, d, tx, before, trace + [next])
  {
    hide CommitState;
  }

  lemma AppendStep(l: Layout, d: Disk, tx: Transaction, k: nat)
    requires Clean(l, d) && ValidTransaction(l, d, tx) && k < |tx|
    ensures Append(l, d, tx, k + 1) == Append(l, d, tx, k)[l.start + 1 + k := tx[k].1]
    ensures CommitState(l, d, tx, k + 1) == Append(l, d, tx, k + 1)
  {
  }

  lemma InstallStarts(l: Layout, d: Disk, tx: Transaction)
    requires Clean(l, d) && ValidTransaction(l, d, tx)
    ensures Installable(l, |d|, Homes(tx))
    ensures Install(l, Committed(l, d, tx), Homes(tx), 0) == Committed(l, d, tx)
  {
  }

  lemma InstallStep(l: Layout, d: Disk, tx: Transaction, k: nat)
    requires Clean(l, d) && ValidTransaction(l, d, tx) && k < |tx| && Installable(l, |d|, Homes(tx))
    ensures var e := Install(l, Committed(l, d, tx), Homes(tx), k);
            Install(l, Committed(l, d, tx), Homes(tx), k + 1) == e[tx[k].0 := tx[k].1]
    ensures CommitState(l, d, tx, |tx| + 1 + k + 1) == Install(l, Committed(l, d, tx), Homes(tx), k + 1)
  {
    CommittedBlocks(l, d, tx);
    assert l.InLog(l.start + k + 1);
  }

  lemma HeaderStep(l: Layout, d: Disk, tx: Transaction)
    requires Clean(l, d) && ValidTransaction(l, d, tx) && tx != []
    ensures |tx| < |Append(l, d, tx, |tx|)[l.start]|
    ensures Committed(l, d, tx) == SetHead(l, Append(l, d, tx, |tx|), Homes(tx))
    ensures CommitState(l, d, tx, |tx| + 1) == Committed(l, d, tx)
  {
    InstallStarts(l, d, tx);
  }

  lemma EraseStep(l: Layout, d: Disk, tx: Transaction)
    requires Clean(l, d) && ValidTransaction(l, d, tx) && tx != [] && Installable(l, |d|, Homes(tx))
    ensures var e := Install(l, Committed(l, d, tx), Homes(tx), |tx|);
            0 < |e[l.start]| && CommitState(l, d, tx, CommitLength(tx)) == SetHead(l, e, [])
  {
    assert l.InLog(l.start);
  }

  // A reboot at any point of the trace of a commit finds the home blocks all
  // old or all new.
  lemma {:induction false} CommitTraceIsAtomic(l: Layout, d: Disk, tx: Transaction, before: seq<Disk>,
                                               trace: seq<Disk>, k: nat)
    requires Clean(l, d) && ValidTransaction(l, d, tx) && CommitTrace(l, d, tx, before, trace)
    requires |before| - 1 <= k < |trace|
    ensures Recoverable(l, trace[k])
    ensures SameHome(l, Recovered(l, trace[k]), if k < |before| + |tx| then d else Apply(d, tx))
  {
    var w := k - |before| + 1;
    TraceState(l, d, tx, before, trace, k);
    hide CommitState, Recovered, Recoverable, SameHome, Clean, ValidTransaction, CommitTrace;
    CommitIsAtomic(l, d, tx, w);
  }

  lemma {:induction false} TraceState(l: Layout, d: Disk, tx: Transaction, before: seq<Disk>, trace: seq<Disk>, k: nat)
    requires Clean(l, d) && ValidTransaction(l, d, tx) && CommitTrace(l, d, tx, before, trace)
    requires |before| - 1 <= k < |trace|
    ensures k - |before| + 1 <= CommitLength(tx) && trace[k] == CommitState(l, d, tx, k - |before| + 1)
  {
    if k - |before| + 1 == 0 {
      assert trace[..|before|][k] == d;
    }
  }

  lemma CommitTraceEnds(l: Layout, d: Disk, tx: Transaction, before: seq<Disk>, trace: seq<Disk>)
    requires Clean(l, d) && ValidTransaction(l, d, tx) && CommitTrace(l, d, tx, before, trace)
    requires |trace| == |before| + CommitLength(tx)
    ensures trace != [] && Clean(l, trace[|trace| - 1])
  {
    if tx == [] {
      assert trace[..|before|] == trace;
    } else {
      CommitIsAtomic(l, d, tx, CommitLength(tx));
    }
  }

  // A finished commit leaves the blocks that it does not log alone.
  lemma CommitLeaves(l: Layout, d: Disk, tx: Transaction, before: seq<Disk>, trace: seq<Disk>, m: nat)
    requires Clean(l, d) && ValidTransaction(l, d, tx) && CommitTrace(l, d, tx, before, trace)
    requires |trace| == |before| + CommitLength(tx) && m < |d| && !l.InLog(m)
    requires forall i :: 0 <= i < |tx| ==> tx[i].0 != m
    ensures trace != [] && |trace[|trace| - 1]| == |d| && trace[|trace| - 1][m] == d[m]
  {
    if tx == [] {
      assert trace[..|before|] == trace;
    } else {
      CommitIsAtomic(l, d, tx, CommitLength(tx));
      ApplyAt(d, tx, m);
    }
  }

  // The trace continues with the first writes of recover_from_log().
  ghost predicate RecoverTrace(l: Layout, d: Disk, before: seq<Disk>, trace: seq<Disk>)
    requires Recoverable(l, d)
  {
    && 0 < |before| <= |trace| <= |before| + |Header(l, d)| + 1
    && trace[..|before|] == before
    && before[|before| - 1] == d
    && forall k :: 0 < k <= |trace| - |before| ==> trace[|before| - 1 + k] == RecoverState(l, d, k)
  }

  lemma RecoverStarts(l: Layout, d: Disk, before: seq<Disk>)
    requires Recoverable(l, d) && before != [] && before[|before| - 1] == d
    ensures RecoverTrace(l, d, before, before) && Install(l, d, Header(l, d), 0) == d
    ensures forall i :: 1 <= i <= d[l.start][0] ==> d[l.start][i] >= 0
  {
    forall i | 1 <= i <= d[l.start][0] ensures d[l.start][i] >= 0 {
      assert d[l.start][i] == Header(l, d)[i - 1];
    }
  }

  lemma RecoverStep(l: Layout, d: Disk, before: seq<Disk>, trace: seq<Disk>, k: nat)
    requires Recoverable(l, d) && RecoverTrace(l, d, before, trace) && |trace| == |before| + k
    requires k < |Header(l, d)|
    ensures var h := Header(l, d); var e := Install(l, d, h, k + 1);
      && e == Install(l, d, h, k)[h[k] := Install(l, d, h, k)[l.start + k + 1]]
      && RecoverTrace(l, d, before, trace + [e])
  {
  }

  lemma RecoverEnds(l: Layout, d: Disk, before: seq<Disk>, trace: seq<Disk>)
    requires Recoverable(l, d) && RecoverTrace(l, d, before, trace) && |trace| == |before| + |Header(l, d)|
    ensures var e := Install(l, d, Header(l, d), |Header(l, d)|);
      && 0 < |e[l.start]| && Recovered(l, d) == SetHead(l, e, [])
      && RecoverTrace(l, d, before, trace + [SetHead(l, e, [])])
  {
    assert l.InLog(l.start);
  }

  // A reboot at any point of the trace of a recovery finds a disk from which
  // recovery reaches the same home blocks.
  lemma {:induction false} RecoverTraceIsStable(l: Layout, d: Disk, before: seq<Disk>, trace: seq<Disk>, k: nat)
    requires Recoverable(l, d) && RecoverTrace(l, d, before, trace) && |before| <= k < |trace|
    ensures Recoverable(l, trace[k]) && SameHome(l, Recovered(l, trace[k]), Recovered(l, d))
  {
    RecoveryIsIdempotent(l, d, k - |before| + 1);
  }
}
