// The virtio disk driver (kernel/virtio_disk.c) on the queue of VirtioQueue.
module Virtio {
  import opened VirtioQueue
  import opened Prelude

  // A descriptor taken, or given back.
  function Taken(d: Disk, i: nat): Disk
    requires i < |d.free|
  {
    d.(free := d.free[i := false])
  }

  function Cleared(d: Disk, i: nat): Disk
    requires i < |d.free| && i < |d.desc|
  {
    d.(desc := d.desc[i := CLEAR], free := d.free[i := true])
  }

  // The free descriptors.
  function FreeSet(free: seq<bool>): set<nat> {
    set i: nat | i < |free| && free[i]
  }

  predicate FreeIsClear(d: Disk) {
    |d.free| == NUM && |d.desc| == NUM && forall i :: 0 <= i < NUM && d.free[i] ==> d.desc[i] == CLEAR
  }

  class Driver {
    var d: Disk
    ghost var g: Trace

    // virtio_disk_init(): all descriptors free, rings and counters zero.
    constructor (ops: seq<Op>, info: seq<Info>)
      requires |ops| == |info| == NUM
      ensures State() == NewQueue(ops, info) && Valid()
    {
      d, g := NewQueue(ops, info).d, NewQueue(ops, info).g;
      NewQueueInv(ops, info);
    }

    ghost function State(): Queue
      reads this
    {
      Queue(d, g)
    }

    ghost predicate Valid()
      reads this
    {
      Inv(State())
    }

    // The first free descriptor, no longer free; -1 if there is none.
    method AllocDesc() returns (i: int)
      requires |d.free| == NUM
      modifies `d
      ensures i < 0 ==> d == old(d) && forall k :: 0 <= k < NUM ==> !d.free[k]
      ensures i >= 0 ==> i < NUM && old(d).free[i] && d == Taken(old(d), i)
    {
      i := 0;
      while i < NUM
        invariant 0 <= i <= NUM && d == old(d) && forall k :: 0 <= k < i ==> !d.free[k]
      {
        if d.free[i] {
          d := d.(free := d.free[i := false]);
          return;
        }
        i := i + 1;
      }
      i := -1;
    }

    method FreeDesc(i: nat)
      requires |d.free| == NUM && |d.desc| == NUM && i < NUM && !d.free[i]
      modifies `d
      ensures d == Cleared(old(d), i)
    {
      d := d.(desc := d.desc[i := Desc(Nothing, 0, 0, 0)]);
      d := d.(free := d.free[i := true]);
    }

    // Three descriptors, or none at all.
    method Alloc3() returns (ok: bool, idx: seq<nat>)
      requires FreeIsClear(d)
      modifies `d
      ensures ok <==> |FreeSet(old(d).free)| >= 3
      ensures !ok ==> d == old(d) && idx == []
      ensures ok ==> |idx| == 3 && idx[0] != idx[1] && idx[0] != idx[2] && idx[1] != idx[2]
      ensures ok ==> Reserved(old(d), idx)
      ensures ok ==> d == old(d).(free := Put3(old(d).free, idx[0], idx[1], idx[2], false, false, false))
    {
      idx := [];
      for n := 0 to 3
        invariant |idx| == n && Reserved(old(d), idx) && d == old(d).(free := d.free)
                  && Without(old(d).free, d.free, idx)
      {
        var i := AllocDesc();
        if i < 0 {
          TooFew(old(d).free, d.free, idx);
          Rollback(old(d), idx);
          return false, [];
        }
        assert i !in idx;
        idx := idx + [i];
      }
      ok := true;
      Enough(old(d), idx);
      assert d.free == Put3(old(d).free, idx[0], idx[1], idx[2], false, false, false);
    }

    // alloc3_desc's error exit: what was reserved is free again.
    method Rollback(ghost d0: Disk, idx: seq<nat>)
      requires FreeIsClear(d0) && Reserved(d0, idx) && d == d0.(free := d.free) && Without(d0.free, d.free, idx)
      modifies `d
      ensures d == d0
    {
      for j := 0 to |idx|
        invariant d == d0.(free := d.free) && Without(d0.free, d.free, idx[j..])
      {
        assert idx[j..][0] == idx[j] && idx[j] in idx[j..];
        FreeDesc(idx[j]);
        assert d.desc == d0.desc;
        assert forall x :: x in idx[j + 1..] ==> x in idx[j..];
      }
      assert d.free == d0.free;
    }

    // virtio_disk_rw as far as the notification: false if it has to wait for
    // descriptors.
    method Submit(b: nat, write: bool, blockno: nat) returns (ok: bool, h: nat)
      requires Valid() && forall x :: x in g.chains ==> g.chains[x].buf != b
      modifies this
      ensures Valid() && (ok <==> |FreeSet(old(d).free)| >= 3)
      ensures !ok ==> State() == old(State())
      ensures ok ==>
              exists j, k ::
                && Ready(old(State()), h, j, k, b)
                && State() == Post(old(State()), h, j, k, b, write, blockno * 2)
    {
      ghost var q := State();
      assert FreeIsClear(d) by { FreeClear(q); }
      SizesOf(q);
      hide Inv;
      var idx;
      ok, idx := Alloc3();
      if !ok {
        return false, 0;
      }
      var i, j, k := idx[0], idx[1], idx[2];
      assert Ready(q, i, j, k, b) by { IsReady(q, i, j, k, b); }
      PostKeeps(q, i, j, k, b, write, blockno * 2);
      Format(i, j, k, b, write, blockno * 2);
      d := d.(avail := d.avail[d.availIdx % NUM := i]);
      d := d.(availIdx := (d.availIdx + 1) % WRAP);
      g := Post(q, i, j, k, b, write, blockno * 2).g;
      h := i;
      assert State() == Post(q, h, j, k, b, write, blockno * 2);
    }

    // The three descriptors, the command, and the driver's note of the buffer.
    method Format(i: nat, j: nat, k: nat, b: nat, write: bool, sector: nat)
      requires |d.desc| == NUM && |d.ops| == NUM && |d.info| == NUM && i < NUM && j < NUM && k < NUM
      modifies `d
      ensures d == old(d).(
                ops := old(d).ops[i := Op(write, sector)],
                desc := Put3(old(d).desc, i, j, k, Desc(OpOf(i), 16, F_NEXT, j),
                             Desc(DataOf(b), BSIZE, (if write then 0 else F_WRITE) + F_NEXT, k),
                             Desc(StatusOf(i), 1, F_WRITE, 0)),
                info := old(d).info[i := Info(b, 0xff)], busy := old(d).busy[b := true])
    {
      d := d.(ops := d.ops[i := Op(write, sector)]);
      d := d.(desc := d.desc[i := Desc(OpOf(i), 16, F_NEXT, j)]);
      var flags := if write then 0 else F_WRITE;
      d := d.(desc := d.desc[j := Desc(DataOf(b), BSIZE, flags + F_NEXT, k)]);
      d := d.(desc := d.desc[k := Desc(StatusOf(i), 1, F_WRITE, 0)]);
      d := d.(info := d.info[i := Info(b, 0xff)]);
      d := d.(busy := d.busy[b := true]);
    }

    // virtio_disk_intr: every completion in the used ring is reported, once, to
    // the buffer of its request. halt is the panic at a completion that reports
    // an error.
    method Intr() returns (halt: bool)
      requires Valid()
      modifies this
      ensures Valid() && g.completed == old(g).completed && g.posted == old(g).posted && g.bufs == old(g).bufs
      ensures halt <==> exists j :: old(g).consumed <= j < |old(g).completed| && Failed(old(State()), j)
      ensures halt ==> g.consumed < |g.completed| && Failed(State(), g.consumed)
      ensures !halt ==> g.consumed == |g.completed|
      ensures old(g).delivered.Keys <= g.delivered.Keys
      ensures forall j :: old(g).consumed <= j < g.consumed ==>
                old(g).completed[j] in old(g).chains && old(g).chains[old(g).completed[j]].id in g.delivered
                && old(g).chains[old(g).completed[j]].id !in old(g).delivered
    {
      hide Inv, Consume;
      ghost var q0 := State();
      Beginning(q0);
      while d.seen != d.usedIdx
        invariant Valid() && g.consumed <= |g.completed| && Progress(q0, State())
        decreases |g.completed| - g.consumed
      {
        ConsumeKeeps(State());
        SizesOf(State());
        ghost var q := State();
        var id := d.used[d.seen % NUM];
        SameStatus(q0, q);
        if d.info[id].status != 0 {
          return true;
        }
        Onward(q0, q);
        ConsumeDisk(q);
        var b := d.info[id].buf;
        d := d.(busy := d.busy[b := false]);
        d := d.(seen := (d.seen + 1) % WRAP);
        g := Consume(q).g;
        assert State() == Consume(q);
      }
      ConsumeKeeps(State());
      return false;
    }

    // free_chain: the descriptors the chain links together.
    method FreeChain(h: nat, ghost c: Chain)
      requires Linked3(d, h, c)
      modifies `d
      ensures d == Cleared(Cleared(Cleared(old(d), h), c.data), c.status)
    {
      ghost var d0 := d;
      var i := h;
      ghost var n := 0;
      while true
        invariant 0 <= n < 3 && i == (if n == 0 then h else if n == 1 then c.data else c.status) && Linked3(d0, h, c)
        invariant d == (if n == 0 then d0 else if n == 1 then Cleared(d0, h) else Cleared(Cleared(d0, h), c.data))
        decreases 3 - n
      {
        var flag, next := d.desc[i].flags, d.desc[i].next;
        FreeDesc(i);
        if flag % 2 == 0 {
          break;
        }
        i := next;
        n := n + 1;
      }
    }

    // The end of virtio_disk_rw: the interrupt handler has cleared b->disk.
    method Finish(h: nat, b: nat)
      requires Valid() && h in g.chains && g.chains[h].buf == b && b in d.busy && !d.busy[b]
      modifies this
      ensures Valid() && CanFree(old(State()), h) && State() == Freed(old(State()), h)
    {
      ghost var q := State();
      assert ChainOk(q, h);
      FreeKeeps(q, h);
      ChainLinks(q, h);
      ghost var c := g.chains[h];
      hide Inv;
      d := d.(info := d.info[h := d.info[h].(buf := 0)]);
      FreeChain(h, c);
      g := Freed(q, h).g;
      assert d.desc == Put3(q.d.desc, h, c.data, c.status, CLEAR, CLEAR, CLEAR);
      assert d.free == Put3(q.d.free, h, c.data, c.status, true, true, true);
    }
  }

  // The chain as free_chain walks it.
  predicate Linked3(d: Disk, h: nat, c: Chain) {
    && |d.free| == NUM && |d.desc| == NUM && h < NUM && c.data < NUM && c.status < NUM
    && h != c.data && h != c.status && c.data != c.status
    && !d.free[h] && !d.free[c.data] && !d.free[c.status]
    && d.desc[h].flags % 2 == 1 && d.desc[h].next == c.data
    && d.desc[c.data].flags % 2 == 1 && d.desc[c.data].next == c.status
    && d.desc[c.status].flags % 2 == 0
  }

  lemma {:induction false} ChainLinks(q: Queue, h: nat)
    requires Inv(q) && h in q.g.chains
    ensures Linked3(q.d, h, q.g.chains[h])
  {
    assert ChainOk(q, h);
    var c := q.g.chains[h];
    assert DescOk(q, h) && DescOk(q, c.data) && DescOk(q, c.status);
  }

  // Distinct descriptors that were free.
  predicate Reserved(d: Disk, idx: seq<nat>) {
    && |d.free| == NUM
    && (forall a :: 0 <= a < |idx| ==> idx[a] < NUM && d.free[idx[a]])
    && (forall a, b :: 0 <= a < b < |idx| ==> idx[a] != idx[b])
  }

  predicate Without(free: seq<bool>, free': seq<bool>, idx: seq<nat>) {
    |free'| == |free| && forall x :: 0 <= x < |free| ==> (free'[x] <==> free[x] && x !in idx)
  }

  function Taken3(idx: seq<nat>): set<nat> {
    set x | x in idx
  }

  // Everything free has been taken.
  lemma {:induction false} TooFew(free: seq<bool>, free': seq<bool>, idx: seq<nat>)
    requires Without(free, free', idx) && |idx| < 3 && forall x :: 0 <= x < |free'| ==> !free'[x]
    ensures |FreeSet(free)| < 3
  {
    assert FreeSet(free) <= Taken3(idx);
    SubsetSize(FreeSet(free), Taken3(idx));
    FewTaken(idx);
  }

  lemma {:induction false} FewTaken(idx: seq<nat>)
    ensures |Taken3(idx)| <= |idx|
  {
    if idx != [] {
      var t, x := idx[..|idx| - 1], idx[|idx| - 1];
      FewTaken(t);
      assert idx == t + [x];
      assert Taken3(idx) == Taken3(t) + {x};
    }
  }

  lemma {:induction false} Enough(d: Disk, idx: seq<nat>)
    requires Reserved(d, idx) && |idx| == 3
    ensures |FreeSet(d.free)| >= 3
  {
    var s := {idx[0], idx[1], idx[2]};
    assert s <= FreeSet(d.free);
    SubsetSize(s, FreeSet(d.free));
  }

  lemma {:induction false} FreeClear(q: Queue)
    requires Inv(q)
    ensures FreeIsClear(q.d)
  {
    forall i | 0 <= i < NUM && q.d.free[i] ensures q.d.desc[i] == CLEAR { assert DescOk(q, i); }
  }

  lemma {:induction false} SizesOf(q: Queue)
    requires Inv(q)
    ensures Sizes(q)
  {
  }

  lemma {:induction false} IsReady(q: Queue, i: nat, j: nat, k: nat, b: nat)
    requires Inv(q) && i < NUM && j < NUM && k < NUM && i != j && i != k && j != k
    requires q.d.free[i] && q.d.free[j] && q.d.free[k]
    requires forall h :: h in q.g.chains ==> q.g.chains[h].buf != b
    ensures Ready(q, i, j, k, b)
  {
  }

  // The j-th completion belongs to a request of q0 that q0 had not reported.
  predicate Fresh(q0: Queue, j: nat)
    requires j < |q0.g.completed|
  {
    var h := q0.g.completed[j];
    h in q0.g.chains && q0.g.chains[h].id !in q0.g.delivered
  }

  // From q0 to q the handler has reported completions in order.
  predicate Progress(q0: Queue, q: Queue) {
    && q.g.completed == q0.g.completed && q.g.posted == q0.g.posted && q.g.bufs == q0.g.bufs
    && q0.g.consumed <= q.g.consumed <= |q.g.completed|
    && q0.g.delivered.Keys <= q.g.delivered.Keys
    && (forall h :: h in q0.g.chains ==> h in q.g.chains && q.g.chains[h].id == q0.g.chains[h].id)
    && (forall h :: h in q0.g.chains ==> q.g.chains[h].phase == q0.g.chains[h].phase || q.g.chains[h].phase == Finished)
    && (forall j :: q0.g.consumed <= j < q.g.consumed ==> !Failed(q0, j))
    && (forall j :: q0.g.consumed <= j < |q0.g.completed| ==> Fresh(q0, j))
    && (forall j :: q0.g.consumed <= j < q.g.consumed ==>
        Fresh(q0, j) && q0.g.chains[q0.g.completed[j]].id in q.g.delivered)
  }

  lemma {:induction false} Beginning(q: Queue)
    requires Inv(q)
    ensures Progress(q, q)
  {
    forall j | q.g.consumed <= j < |q.g.completed| ensures Fresh(q, j) {
      assert UsedOk(q, j);
      assert ChainOk(q, q.g.completed[j]);
    }
  }

  // The next completion is the one q0 had there.
  lemma {:induction false} SameStatus(q0: Queue, q: Queue)
    requires Inv(q) && Progress(q0, q) && q.g.consumed < |q.g.completed|
    ensures Failed(q0, q.g.consumed) <==> Failed(q, q.g.consumed)
  {
    var n := q.g.consumed;
    assert UsedOk(q, n) && Fresh(q0, n);
  }

  lemma {:induction false} Onward(q0: Queue, q: Queue)
    requires Progress(q0, q) && q.g.consumed < |q.g.completed| && q.g.completed[q.g.consumed] in q.g.chains
    requires !Failed(q0, q.g.consumed)
    ensures Progress(q0, Consume(q))
  {
    var q' := Consume(q);
    var n := q.g.consumed;
    assert Fresh(q0, n);
    forall j | q0.g.consumed <= j < q'.g.consumed
      ensures Fresh(q0, j) && q0.g.chains[q0.g.completed[j]].id in q'.g.delivered
    {
      assert Fresh(q0, j);
    }
  }

  lemma {:induction false} ConsumeDisk(q: Queue)
    requires Inv(q) && q.g.consumed < |q.g.completed| && q.g.completed[q.g.consumed] in q.g.chains
    requires q.g.completed[q.g.consumed] < NUM
             && q.d.info[q.g.completed[q.g.consumed]].buf == q.g.chains[q.g.completed[q.g.consumed]].buf
    ensures Consume(q).d ==
            q.d.(busy := q.d.busy[q.d.info[q.g.completed[q.g.consumed]].buf := false], seen := (q.d.seen + 1) % WRAP)
    ensures Consume(q).g.completed == q.g.completed && Consume(q).g.consumed == q.g.consumed + 1
  {
  }
}
