// The virtio disk driver's queue (kernel/virtio_disk.c) and any device that
// keeps to sections 2.6.5, 2.6.6 and 2.6.8 of Virtio 1.1, as values.
module VirtioQueue {
  const NUM: nat := 8
  const WRAP: nat := 0x1_0000

  const F_NEXT: nat := 1
  const F_WRITE: nat := 2
  const BSIZE: nat := 1024

  // What a descriptor points at.
  datatype Addr = Nothing | OpOf(head: nat) | DataOf(buf: nat) | StatusOf(head: nat)

  datatype Desc = Desc(addr: Addr, len: nat, flags: nat, next: nat)

  datatype Op = Op(write: bool, sector: nat)

  datatype Info = Info(buf: nat, status: nat)

  // The shared memory and the driver's own records. availIdx, usedIdx and seen
  // are 16-bit counters.
  datatype Disk = Disk(
    free: seq<bool>, desc: seq<Desc>, ops: seq<Op>, info: seq<Info>,
    avail: seq<nat>, availIdx: nat, used: seq<nat>, usedIdx: nat, seen: nat,
    busy: map<nat, bool>)  // b->disk

  // Where a request is: made available, taken by the device, in the used ring as
  // its j-th entry with the status the device gave it, or delivered and waiting
  // for its descriptors to be freed.
  datatype Phase = Posted | Working | Done(j: nat, status: nat) | Finished

  datatype Chain = Chain(id: nat, data: nat, status: nat, buf: nat, write: bool, sector: nat, phase: Phase)

  // chains: the requests in flight, by head descriptor; owner: the head of the
  // chain each descriptor is in (NUM for none); posted, completed: all heads made
  // available and all heads returned so far; taken, consumed: how many of them the
  // device and the driver have looked at; bufs: the buffer of each request;
  // delivered: the requests whose completion has been reported, with the buffer
  // it was reported to.
  datatype Trace = Trace(
    chains: map<nat, Chain>, owner: seq<nat>,
    posted: seq<nat>, taken: nat, completed: seq<nat>, consumed: nat,
    bufs: seq<nat>, delivered: map<nat, nat>)

  datatype Queue = Queue(d: Disk, g: Trace)

  // ---- invariant ----

  predicate Sizes(q: Queue) {
    && |q.d.free| == NUM && |q.d.desc| == NUM && |q.d.ops| == NUM && |q.d.info| == NUM && |q.d.avail| == NUM
    && |q.d.used| == NUM
    && |q.g.owner| == NUM && |q.g.bufs| == |q.g.posted|
    && q.g.taken <= |q.g.posted| && q.g.consumed <= |q.g.completed|
    && q.d.availIdx == |q.g.posted| % WRAP && q.d.usedIdx == |q.g.completed| % WRAP && q.d.seen == q.g.consumed % WRAP
  }

  predicate Member(c: Chain, h: nat, i: nat) {
    i == h || i == c.data || i == c.status
  }

  // Descriptor i is free or in exactly one chain.
  predicate DescOk(q: Queue, i: nat)
    requires Sizes(q) && i < NUM
  {
    && (q.d.free[i] <==> q.g.owner[i] == NUM) && (q.d.free[i] ==> q.d.desc[i] == CLEAR)
    && (q.g.owner[i] != NUM ==> q.g.owner[i] in q.g.chains && Member(q.g.chains[q.g.owner[i]], q.g.owner[i], i))
  }

  // The three descriptors of a chain, as the device reads them.
  predicate Formatted(q: Queue, h: nat)
    requires Sizes(q) && h in q.g.chains && h < NUM && q.g.chains[h].data < NUM && q.g.chains[h].status < NUM
  {
    var c := q.g.chains[h];
    && q.d.desc[h] == Desc(OpOf(h), 16, F_NEXT, c.data)
    && q.d.desc[c.data] == Desc(DataOf(c.buf), BSIZE, (if c.write then 0 else F_WRITE) + F_NEXT, c.status)
    && q.d.desc[c.status] == Desc(StatusOf(h), 1, F_WRITE, 0)
    && q.d.ops[h] == Op(c.write, c.sector)
  }

  predicate InFlight(p: Phase) {
    p != Finished
  }

  predicate ChainOk(q: Queue, h: nat)
    requires Sizes(q) && h in q.g.chains
  {
    var c := q.g.chains[h];
    && h < NUM && c.data < NUM && c.status < NUM && h != c.data && h != c.status && c.data != c.status
    && q.g.owner[h] == h && q.g.owner[c.data] == h && q.g.owner[c.status] == h
    && Formatted(q, h)
    && c.id < |q.g.posted| && q.g.posted[c.id] == h && q.g.bufs[c.id] == c.buf
    && (c.phase == Posted <==> c.id >= q.g.taken)
    && (c.phase.Done? ==>
        q.g.consumed <= c.phase.j < |q.g.completed| && q.g.completed[c.phase.j] == h
          && q.d.info[h].status == c.phase.status)
    && q.d.info[h].buf == c.buf
    && c.buf in q.d.busy && (q.d.busy[c.buf] <==> InFlight(c.phase))
    && (c.id in q.g.delivered <==> !InFlight(c.phase))
  }

  // The k-th request has not been taken yet: the avail ring still holds it.
  predicate AvailOk(q: Queue, k: nat)
    requires Sizes(q) && k < |q.g.posted|
  {
    && q.g.posted[k] in q.g.chains && q.g.chains[q.g.posted[k]].id == k && q.d.avail[k % NUM] == q.g.posted[k]
  }

  predicate DoneAs(p: Phase, j: nat) {
    p.Done? && p.j == j
  }

  predicate UsedOk(q: Queue, j: nat)
    requires Sizes(q) && j < |q.g.completed|
  {
    && q.g.completed[j] in q.g.chains && DoneAs(q.g.chains[q.g.completed[j]].phase, j)
    && q.d.used[j % NUM] == q.g.completed[j]
  }

  // A request is reported once, to its own buffer, and then its chain is gone.
  predicate DeliveredOk(q: Queue, k: nat)
    requires Sizes(q) && k < |q.g.posted|
  {
    && (k in q.g.delivered ==> q.g.delivered[k] == q.g.bufs[k])
    && (k !in q.g.delivered ==> q.g.posted[k] in q.g.chains && q.g.chains[q.g.posted[k]].id == k)
  }

  predicate Distinct(q: Queue) {
    forall h, h' :: h in q.g.chains && h' in q.g.chains && h != h' ==> q.g.chains[h].buf != q.g.chains[h'].buf
  }

  predicate DescsOk(q: Queue)
    requires Sizes(q)
  {
    forall i :: 0 <= i < NUM ==> DescOk(q, i)
  }

  predicate ChainsOk(q: Queue)
    requires Sizes(q)
  {
    forall h :: h in q.g.chains ==> ChainOk(q, h)
  }

  predicate AvailsOk(q: Queue)
    requires Sizes(q)
  {
    forall k :: q.g.taken <= k < |q.g.posted| ==> AvailOk(q, k)
  }

  predicate UsedsOk(q: Queue)
    requires Sizes(q)
  {
    forall j :: q.g.consumed <= j < |q.g.completed| ==> UsedOk(q, j)
  }

  predicate DeliveriesOk(q: Queue)
    requires Sizes(q)
  {
    && (forall k :: 0 <= k < |q.g.posted| ==> DeliveredOk(q, k))
    && (forall k :: k in q.g.delivered ==> k < |q.g.posted|)
  }

  predicate Inv(q: Queue) {
    Sizes(q) && DescsOk(q) && ChainsOk(q) && AvailsOk(q) && UsedsOk(q) && DeliveriesOk(q) && Distinct(q)
  }

  // ---- rings and their 16-bit indices ----

  lemma {:induction false} Pigeons(s: seq<nat>, n: nat)
    requires forall i :: 0 <= i < |s| ==> s[i] < n
    requires forall i, j :: 0 <= i < j < |s| ==> s[i] != s[j]
    ensures |s| <= n
    decreases n
  {
    if |s| > 0 {
      assert s[0] < n;
      if i :| 0 <= i < |s| && s[i] == n - 1 {
        var r := s[..i] + s[i + 1..];
        forall j | 0 <= j < |r| ensures r[j] < n - 1 { assert r[j] == s[if j < i then j else j + 1]; }
        Pigeons(r, n - 1);
      } else {
        Pigeons(s, n - 1);
      }
    }
  }

  // At most NUM requests wait in the avail ring, one less if head h is not among them.
  lemma {:induction false} AvailRoom(q: Queue)
    requires Sizes(q) && ChainsOk(q) && AvailsOk(q)
    ensures |q.g.posted| - q.g.taken <= NUM
  {
    var s: seq<nat> := q.g.posted[q.g.taken..];
    forall i | 0 <= i < |s| ensures s[i] < NUM && s[i] in q.g.chains && q.g.chains[s[i]].id == q.g.taken + i {
      assert AvailOk(q, q.g.taken + i);
      assert ChainOk(q, s[i]);
    }
    Pigeons(s, NUM);
  }

  lemma {:induction false} UsedRoom(q: Queue)
    requires Sizes(q) && ChainsOk(q) && UsedsOk(q)
    ensures |q.g.completed| - q.g.consumed <= NUM
  {
    var s: seq<nat> := q.g.completed[q.g.consumed..];
    forall i | 0 <= i < |s|
      ensures s[i] < NUM && s[i] in q.g.chains && DoneAs(q.g.chains[s[i]].phase, q.g.consumed + i)
    {
      assert UsedOk(q, q.g.consumed + i);
      assert ChainOk(q, s[i]);
    }
    Pigeons(s, NUM);
  }

  // The 16-bit index and the count point at the same slot.
  lemma {:induction false} SlotOf(k: nat)
    ensures (k % WRAP) % NUM == k % NUM
  {
    assert k == NUM * (8192 * (k / WRAP) + k % WRAP / NUM) + k % WRAP % NUM;
  }

  // Within one ring of each other, the indices are equal when the counts are.
  lemma {:induction false} SameIndex(a: nat, b: nat)
    requires a <= b <= a + NUM
    ensures a % WRAP == b % WRAP <==> a == b
    ensures (b % WRAP + 1) % WRAP == (b + 1) % WRAP
  {
  }

  lemma {:induction false} OtherSlot(j: nat, k: nat)
    requires j < k < j + NUM
    ensures j % NUM != k % NUM
  {
  }

  // ---- the device ----

  // It takes the next available head.
  function Take(q: Queue): Queue
    requires q.g.taken < |q.g.posted| && q.g.posted[q.g.taken] in q.g.chains
  {
    var h := q.g.posted[q.g.taken];
    q.(g := q.g.(chains := q.g.chains[h := q.g.chains[h].(phase := Working)], taken := q.g.taken + 1))
  }

  // It is done with request h, successfully if the status is 0, and puts it into
  // the used ring.
  function Complete(q: Queue, h: nat, status: nat): Queue
    requires Sizes(q) && h < NUM && h in q.g.chains
  {
    var n := |q.g.completed|;
    Queue(q.d.(used := q.d.used[q.d.usedIdx % NUM := h], usedIdx := (q.d.usedIdx + 1) % WRAP,
               info := q.d.info[h := q.d.info[h].(status := status)]),
          q.g.(chains := q.g.chains[h := q.g.chains[h].(phase := Done(n, status))], completed := q.g.completed + [h]))
  }

  // Only the phase of chain h differs.
  predicate PhaseOnly(q: Queue, q': Queue, h: nat) {
    && Sizes(q) && Sizes(q') && h in q.g.chains && q'.g.chains.Keys == q.g.chains.Keys
    && (forall h' :: h' in q.g.chains && h' != h ==> q'.g.chains[h'] == q.g.chains[h'])
    && q'.g.chains[h] == q.g.chains[h].(phase := q'.g.chains[h].phase)
    && q'.d.free == q.d.free && q'.d.desc == q.d.desc && q'.d.ops == q.d.ops && q'.d.avail == q.d.avail
    && q'.g.owner == q.g.owner && q'.g.posted == q.g.posted && q'.g.bufs == q.g.bufs
  }

  lemma {:induction false} PhaseDescs(q: Queue, q': Queue, h: nat)
    requires PhaseOnly(q, q', h) && DescsOk(q) && Distinct(q)
    ensures DescsOk(q') && Distinct(q')
  {
    forall i | 0 <= i < NUM ensures DescOk(q', i) { assert DescOk(q, i); }
  }

  lemma {:induction false} TakeSizes(q: Queue)
    requires Inv(q) && q.g.taken < |q.g.posted|
    ensures q.g.posted[q.g.taken] in q.g.chains && PhaseOnly(q, Take(q), q.g.posted[q.g.taken])
    ensures q.g.chains[q.g.posted[q.g.taken]].phase == Posted
  {
    assert AvailOk(q, q.g.taken);
    assert ChainOk(q, q.g.posted[q.g.taken]);
  }

  lemma {:induction false} TakeChains(q: Queue)
    requires Inv(q) && q.g.taken < |q.g.posted| && q.g.posted[q.g.taken] in q.g.chains && Sizes(Take(q))
    ensures ChainsOk(Take(q))
  {
    var q' := Take(q);
    assert AvailOk(q, q.g.taken);
    forall h | h in q'.g.chains ensures ChainOk(q', h) {
      assert ChainOk(q, h);
      assert h != q.g.posted[q.g.taken] ==> q.g.chains[h].id != q.g.taken;
    }
  }

  lemma {:induction false} TakeRings(q: Queue)
    requires Inv(q) && q.g.taken < |q.g.posted| && q.g.posted[q.g.taken] in q.g.chains && Sizes(Take(q))
    ensures AvailsOk(Take(q)) && UsedsOk(Take(q)) && DeliveriesOk(Take(q))
  {
    var q' := Take(q);
    assert AvailOk(q, q.g.taken) && ChainOk(q, q.g.posted[q.g.taken]);
    forall k | q'.g.taken <= k < |q'.g.posted| ensures AvailOk(q', k) { assert AvailOk(q, k); }
    forall j | q'.g.consumed <= j < |q'.g.completed| ensures UsedOk(q', j) { assert UsedOk(q, j); }
    forall k | 0 <= k < |q'.g.posted| ensures DeliveredOk(q', k) { assert DeliveredOk(q, k); }
  }

  // A device that goes by its own 16-bit counter finds the next request in the
  // ring, formatted as it was submitted.
  lemma {:induction false} TakeKeeps(q: Queue, last: nat)
    requires Inv(q) && last == q.g.taken % WRAP
    ensures last != q.d.availIdx <==> q.g.taken < |q.g.posted|
    ensures q.g.taken < |q.g.posted| ==>
              var h := q.d.avail[last % NUM];
              && h == q.g.posted[q.g.taken] && h in q.g.chains && h < NUM
              && q.g.chains[h].data < NUM && q.g.chains[h].status < NUM && Formatted(q, h)
              && q.g.chains[h].phase == Posted && q.g.chains[h].buf == q.g.bufs[q.g.taken]
              && Inv(Take(q))
  {
    AvailRoom(q);
    SameIndex(q.g.taken, |q.g.posted|);
    if q.g.taken < |q.g.posted| {
      SlotOf(q.g.taken);
      assert AvailOk(q, q.g.taken);
      assert ChainOk(q, q.g.posted[q.g.taken]);
      TakeSizes(q);
      PhaseDescs(q, Take(q), q.g.posted[q.g.taken]);
      TakeChains(q);
      TakeRings(q);
    }
  }

  lemma {:induction false} CompleteSizes(q: Queue, h: nat, status: nat)
    requires Inv(q) && h in q.g.chains && q.g.chains[h].phase == Working
    ensures h < NUM && PhaseOnly(q, Complete(q, h, status), h)
  {
    assert ChainOk(q, h);
    SameIndex(|q.g.completed|, |q.g.completed|);
  }

  lemma {:induction false} CompleteChains(q: Queue, h: nat, status: nat)
    requires Inv(q) && h in q.g.chains && q.g.chains[h].phase == Working && h < NUM && Sizes(Complete(q, h, status))
    ensures ChainsOk(Complete(q, h, status))
  {
    var q' := Complete(q, h, status);
    forall h' | h' in q'.g.chains ensures ChainOk(q', h') {
      assert ChainOk(q, h');
    }
  }

  // The used ring has a slot left: the completed heads are distinct, and h is
  // none of them.
  lemma {:induction false} UsedSlot(q: Queue, h: nat)
    requires Inv(q) && h in q.g.chains && q.g.chains[h].phase == Working
    ensures |q.g.completed| - q.g.consumed < NUM
  {
    var s: seq<nat> := q.g.completed[q.g.consumed..];
    assert ChainOk(q, h);
    forall i | 0 <= i < |s|
      ensures s[i] < NUM && s[i] in q.g.chains && DoneAs(q.g.chains[s[i]].phase, q.g.consumed + i)
    {
      assert UsedOk(q, q.g.consumed + i);
      assert ChainOk(q, s[i]);
    }
    Pigeons(s + [h], NUM);
  }

  lemma {:induction false} CompleteRings(q: Queue, h: nat, status: nat)
    requires Inv(q) && h in q.g.chains && q.g.chains[h].phase == Working && h < NUM && Sizes(Complete(q, h, status))
    ensures AvailsOk(Complete(q, h, status)) && UsedsOk(Complete(q, h, status)) && DeliveriesOk(Complete(q, h, status))
  {
    var q' := Complete(q, h, status);
    var n := |q.g.completed|;
    UsedSlot(q, h);
    SlotOf(n);
    forall k | q'.g.taken <= k < |q'.g.posted| ensures AvailOk(q', k) { assert AvailOk(q, k); }
    forall j | q'.g.consumed <= j < |q'.g.completed| ensures UsedOk(q', j) {
      if j < n {
        assert UsedOk(q, j);
        OtherSlot(j, n);
      }
    }
    forall k | 0 <= k < |q'.g.posted| ensures DeliveredOk(q', k) { assert DeliveredOk(q, k); }
  }

  // The device may complete the requests it has taken in any order.
  lemma {:induction false} CompleteKeeps(q: Queue, h: nat, status: nat)
    requires Inv(q) && h in q.g.chains && q.g.chains[h].phase == Working
    ensures h < NUM && Inv(Complete(q, h, status))
  {
    CompleteSizes(q, h, status);
    PhaseDescs(q, Complete(q, h, status), h);
    CompleteChains(q, h, status);
    CompleteRings(q, h, status);
    hide DescsOk, ChainsOk, AvailsOk, UsedsOk, DeliveriesOk, Distinct;
  }

  // ---- the interrupt handler ----

  // The driver reports the oldest completion it has not seen.
  function Consume(q: Queue): Queue
    requires q.g.consumed < |q.g.completed| && q.g.completed[q.g.consumed] in q.g.chains
  {
    var h := q.g.completed[q.g.consumed];
    var c := q.g.chains[h];
    Queue(q.d.(seen := (q.d.seen + 1) % WRAP, busy := q.d.busy[c.buf := false]),
          q.g.(chains := q.g.chains[h := c.(phase := Finished)], consumed := q.g.consumed + 1,
               delivered := q.g.delivered[c.id := c.buf]))
  }

  lemma {:induction false} ConsumeSizes(q: Queue)
    requires Inv(q) && q.g.consumed < |q.g.completed|
    ensures var h := q.g.completed[q.g.consumed];
            h in q.g.chains && DoneAs(q.g.chains[h].phase, q.g.consumed) && PhaseOnly(q, Consume(q), h)
  {
    assert UsedOk(q, q.g.consumed);
    SameIndex(q.g.consumed, q.g.consumed);
  }

  lemma {:induction false} ConsumeChains(q: Queue)
    requires Inv(q) && q.g.consumed < |q.g.completed| && q.g.completed[q.g.consumed] in q.g.chains && Sizes(Consume(q))
    ensures ChainsOk(Consume(q))
  {
    var q' := Consume(q);
    var h := q.g.completed[q.g.consumed];
    assert UsedOk(q, q.g.consumed) && ChainOk(q, h);
    forall h' | h' in q'.g.chains ensures ChainOk(q', h') {
      assert ChainOk(q, h');
      assert h' != h ==> q.g.chains[h'].buf != q.g.chains[h].buf && q.g.chains[h'].id != q.g.chains[h].id;
    }
  }

  lemma {:induction false} ConsumeRings(q: Queue)
    requires Inv(q) && q.g.consumed < |q.g.completed| && q.g.completed[q.g.consumed] in q.g.chains && Sizes(Consume(q))
    ensures AvailsOk(Consume(q)) && UsedsOk(Consume(q)) && DeliveriesOk(Consume(q))
  {
    var q' := Consume(q);
    var h := q.g.completed[q.g.consumed];
    assert UsedOk(q, q.g.consumed) && ChainOk(q, h);
    forall k | q'.g.taken <= k < |q'.g.posted| ensures AvailOk(q', k) { assert AvailOk(q, k); }
    forall j | q'.g.consumed <= j < |q'.g.completed| ensures UsedOk(q', j) { assert UsedOk(q, j); }
    forall k | 0 <= k < |q'.g.posted| ensures DeliveredOk(q', k) { assert DeliveredOk(q, k); }
  }

  // What the handler finds behind its own 16-bit counter: a completed request,
  // not reported before, with the status the device gave it and its own buffer.
  lemma {:induction false} ConsumeKeeps(q: Queue)
    requires Inv(q)
    ensures q.d.seen != q.d.usedIdx <==> q.g.consumed < |q.g.completed|
    ensures q.g.consumed < |q.g.completed| ==>
              var h := q.d.used[q.d.seen % NUM];
              && h == q.g.completed[q.g.consumed] && h in q.g.chains && h < NUM
              && DoneAs(q.g.chains[h].phase, q.g.consumed) && q.d.info[h].status == q.g.chains[h].phase.status
              && q.d.info[h].buf == q.g.chains[h].buf
              && q.g.chains[h].id < |q.g.bufs| && q.g.bufs[q.g.chains[h].id] == q.g.chains[h].buf
              && q.g.chains[h].id !in q.g.delivered && q.g.chains[h].buf in q.d.busy && q.d.busy[q.g.chains[h].buf]
              && Inv(Consume(q))
  {
    UsedRoom(q);
    SameIndex(q.g.consumed, |q.g.completed|);
    if q.g.consumed < |q.g.completed| {
      var h := q.g.completed[q.g.consumed];
      SlotOf(q.g.consumed);
      assert UsedOk(q, q.g.consumed);
      assert ChainOk(q, h);
      ConsumeSizes(q);
      PhaseDescs(q, Consume(q), h);
      ConsumeChains(q);
      ConsumeRings(q);
      hide DescsOk, ChainsOk, AvailsOk, UsedsOk, DeliveriesOk, Distinct;
    }
  }

  // ---- submitting and freeing ----

  const CLEAR: Desc := Desc(Nothing, 0, 0, 0)

  function Put3<T>(s: seq<T>, i: nat, j: nat, k: nat, x: T, y: T, z: T): seq<T>
    requires i < |s| && j < |s| && k < |s|
  {
    s[i := x][j := y][k := z]
  }

  // virtio_disk_rw up to the notification, with descriptors i, j and k.
  function Post(q: Queue, i: nat, j: nat, k: nat, b: nat, write: bool, sector: nat): Queue
    requires Sizes(q) && i < NUM && j < NUM && k < NUM
  {
    var flags := (if write then 0 else F_WRITE) + F_NEXT;
    Queue(q.d.(free := Put3(q.d.free, i, j, k, false, false, false),
               desc := Put3(q.d.desc, i, j, k, Desc(OpOf(i), 16, F_NEXT, j), Desc(DataOf(b), BSIZE, flags, k),
                            Desc(StatusOf(i), 1, F_WRITE, 0)),
               ops := q.d.ops[i := Op(write, sector)], info := q.d.info[i := Info(b, 0xff)],
               avail := q.d.avail[q.d.availIdx % NUM := i], availIdx := (q.d.availIdx + 1) % WRAP,
               busy := q.d.busy[b := true]),
          q.g.(chains := q.g.chains[i := Chain(|q.g.posted|, j, k, b, write, sector, Posted)],
               owner := Put3(q.g.owner, i, j, k, i, i, i),
               posted := q.g.posted + [i], bufs := q.g.bufs + [b]))
  }

  predicate Ready(q: Queue, i: nat, j: nat, k: nat, b: nat) {
    && Sizes(q) && i < NUM && j < NUM && k < NUM && i != j && i != k && j != k
    && q.d.free[i] && q.d.free[j] && q.d.free[k]
    && forall h :: h in q.g.chains ==> q.g.chains[h].buf != b
  }

  lemma {:induction false} FreeNotOwned(q: Queue, i: nat)
    requires Inv(q) && i < NUM && q.d.free[i]
    ensures i !in q.g.chains && forall h :: h in q.g.chains ==> !Member(q.g.chains[h], h, i)
  {
    assert DescOk(q, i);
    forall h | h in q.g.chains ensures !Member(q.g.chains[h], h, i) { assert ChainOk(q, h); }
  }

  lemma {:induction false} PostSizes(q: Queue, i: nat, j: nat, k: nat, b: nat, write: bool, sector: nat)
    requires Sizes(q) && Ready(q, i, j, k, b)
    ensures Sizes(Post(q, i, j, k, b, write, sector))
  {
    SameIndex(|q.g.posted|, |q.g.posted|);
  }

  lemma {:induction false} PostDescs(q: Queue, i: nat, j: nat, k: nat, b: nat, write: bool, sector: nat)
    requires Inv(q) && Ready(q, i, j, k, b) && Sizes(Post(q, i, j, k, b, write, sector))
    ensures DescsOk(Post(q, i, j, k, b, write, sector)) && Distinct(Post(q, i, j, k, b, write, sector))
  {
    var q' := Post(q, i, j, k, b, write, sector);
    FreeNotOwned(q, i);
    forall x | 0 <= x < NUM ensures DescOk(q', x) { assert DescOk(q, x); }
  }

  lemma {:induction false} PostOther(q: Queue, i: nat, j: nat, k: nat, b: nat, write: bool, sector: nat, h: nat)
    requires Ready(q, i, j, k, b) && Sizes(Post(q, i, j, k, b, write, sector)) && h in q.g.chains && ChainOk(q, h)
    requires !Member(q.g.chains[h], h, i) && !Member(q.g.chains[h], h, j) && !Member(q.g.chains[h], h, k)
    requires q.g.chains[h].buf != b
    ensures ChainOk(Post(q, i, j, k, b, write, sector), h)
  {
  }

  lemma {:induction false} PostOld(q: Queue, i: nat, j: nat, k: nat, b: nat, write: bool, sector: nat, h: nat)
    requires Inv(q) && Ready(q, i, j, k, b) && Sizes(Post(q, i, j, k, b, write, sector)) && h in q.g.chains && h != i
    ensures ChainOk(Post(q, i, j, k, b, write, sector), h)
  {
    FreeNotOwned(q, i);
    FreeNotOwned(q, j);
    FreeNotOwned(q, k);
    assert ChainOk(q, h);
    hide Inv, ChainOk, Member, Post;
    PostOther(q, i, j, k, b, write, sector, h);
  }

  lemma {:induction false} PostNew(q: Queue, i: nat, j: nat, k: nat, b: nat, write: bool, sector: nat)
    requires Inv(q) && Ready(q, i, j, k, b) && Sizes(Post(q, i, j, k, b, write, sector))
    ensures ChainOk(Post(q, i, j, k, b, write, sector), i)
  {
    hide DescsOk, ChainsOk, AvailsOk, UsedsOk, Distinct;
  }

  lemma {:induction false} PostChains(q: Queue, i: nat, j: nat, k: nat, b: nat, write: bool, sector: nat)
    requires Inv(q) && Ready(q, i, j, k, b) && Sizes(Post(q, i, j, k, b, write, sector))
    ensures ChainsOk(Post(q, i, j, k, b, write, sector))
  {
    hide Inv, ChainOk, Sizes;
    forall h | h in Post(q, i, j, k, b, write, sector).g.chains ensures ChainOk(Post(q, i, j, k, b, write, sector), h) {
      if h == i {
        PostNew(q, i, j, k, b, write, sector);
      } else {
        PostOld(q, i, j, k, b, write, sector, h);
      }
    }
  }

  // The avail ring has a slot left: the waiting heads are distinct, and i is none of them.
  lemma {:induction false} AvailSlot(q: Queue, i: nat)
    requires Inv(q) && i < NUM && q.d.free[i]
    ensures |q.g.posted| - q.g.taken < NUM
  {
    FreeNotOwned(q, i);
    var s: seq<nat> := q.g.posted[q.g.taken..];
    forall x | 0 <= x < |s| ensures s[x] < NUM && s[x] in q.g.chains && q.g.chains[s[x]].id == q.g.taken + x {
      assert AvailOk(q, q.g.taken + x);
      assert ChainOk(q, s[x]);
    }
    Pigeons(s + [i], NUM);
  }

  lemma {:induction false} PostRings(q: Queue, i: nat, j: nat, k: nat, b: nat, write: bool, sector: nat)
    requires Inv(q) && Ready(q, i, j, k, b) && Sizes(Post(q, i, j, k, b, write, sector))
    ensures var q' := Post(q, i, j, k, b, write, sector); AvailsOk(q') && UsedsOk(q') && DeliveriesOk(q')
  {
    var q' := Post(q, i, j, k, b, write, sector);
    var n := |q.g.posted|;
    FreeNotOwned(q, i);
    AvailSlot(q, i);
    SlotOf(n);
    forall x | q'.g.taken <= x < |q'.g.posted| ensures AvailOk(q', x) {
      if x < n {
        assert AvailOk(q, x);
        OtherSlot(x, n);
      }
    }
    forall x | q'.g.consumed <= x < |q'.g.completed| ensures UsedOk(q', x) { assert UsedOk(q, x); }
    forall x | 0 <= x < |q'.g.posted| ensures DeliveredOk(q', x) {
      if x < n { assert DeliveredOk(q, x); }
    }
  }

  lemma {:induction false} PostKeeps(q: Queue, i: nat, j: nat, k: nat, b: nat, write: bool, sector: nat)
    requires Inv(q) && Ready(q, i, j, k, b)
    ensures Inv(Post(q, i, j, k, b, write, sector))
  {
    PostSizes(q, i, j, k, b, write, sector);
    PostDescs(q, i, j, k, b, write, sector);
    PostChains(q, i, j, k, b, write, sector);
    PostRings(q, i, j, k, b, write, sector);
    hide DescsOk, ChainsOk, AvailsOk, UsedsOk, DeliveriesOk, Distinct, Sizes;
  }

  // The end of virtio_disk_rw: the three descriptors are free again.
  function Freed(q: Queue, h: nat): Queue
    requires Sizes(q) && h in q.g.chains && h < NUM && q.g.chains[h].data < NUM && q.g.chains[h].status < NUM
  {
    var c := q.g.chains[h];
    Queue(q.d.(free := Put3(q.d.free, h, c.data, c.status, true, true, true),
               desc := Put3(q.d.desc, h, c.data, c.status, CLEAR, CLEAR, CLEAR),
               info := q.d.info[h := q.d.info[h].(buf := 0)]),
          q.g.(chains := q.g.chains - {h}, owner := Put3(q.g.owner, h, c.data, c.status, NUM, NUM, NUM)))
  }

  predicate CanFree(q: Queue, h: nat) {
    Sizes(q) && h in q.g.chains && q.g.chains[h].phase == Finished && h < NUM && q.g.chains[h].data < NUM
      && q.g.chains[h].status < NUM
  }

  lemma {:induction false} FreeOther(q: Queue, h: nat, x: nat)
    requires CanFree(q, h) && ChainOk(q, h) && x in q.g.chains && x != h && ChainOk(q, x) && Sizes(Freed(q, h))
    ensures ChainOk(Freed(q, h), x)
  {
  }

  lemma {:induction false} FreeChains(q: Queue, h: nat)
    requires Inv(q) && CanFree(q, h)
    ensures Sizes(Freed(q, h)) && ChainsOk(Freed(q, h)) && Distinct(Freed(q, h))
  {
    assert Sizes(Freed(q, h)) && Distinct(Freed(q, h));
    hide ChainOk, Distinct;
    forall x | x in Freed(q, h).g.chains ensures ChainOk(Freed(q, h), x) {
      FreeOther(q, h, x);
    }
  }

  lemma {:induction false} FreeDescs(q: Queue, h: nat)
    requires Inv(q) && CanFree(q, h) && Sizes(Freed(q, h))
    ensures DescsOk(Freed(q, h))
  {
    var q' := Freed(q, h);
    assert ChainOk(q, h);
    forall x | 0 <= x < NUM ensures DescOk(q', x) { assert DescOk(q, x); }
  }

  lemma {:induction false} FreeRings(q: Queue, h: nat)
    requires Inv(q) && CanFree(q, h) && Sizes(Freed(q, h))
    ensures AvailsOk(Freed(q, h)) && UsedsOk(Freed(q, h)) && DeliveriesOk(Freed(q, h))
  {
    var q' := Freed(q, h);
    assert ChainOk(q, h);
    forall x | q'.g.taken <= x < |q'.g.posted| ensures AvailOk(q', x) {
      assert AvailOk(q, x);
      assert ChainOk(q, q.g.posted[x]);
    }
    forall x | q'.g.consumed <= x < |q'.g.completed| ensures UsedOk(q', x) { assert UsedOk(q, x); }
    forall x | 0 <= x < |q'.g.posted| ensures DeliveredOk(q', x) { assert DeliveredOk(q, x); }
  }

  lemma {:induction false} FreeKeeps(q: Queue, h: nat)
    requires Inv(q) && CanFree(q, h)
    ensures Inv(Freed(q, h))
  {
    FreeChains(q, h);
    FreeDescs(q, h);
    FreeRings(q, h);
    hide DescsOk, ChainsOk, AvailsOk, UsedsOk, DeliveriesOk, Distinct, Sizes;
  }

  // ---- whole runs of the driver and the device ----

  datatype Event =
    | Submitted(i: nat, j: nat, k: nat, b: nat, write: bool, sector: nat)
    | TakenUp
    | Completed(h: nat, status: nat)
    | Reported
    | GivenBack(h: nat)

  // The j-th completion reports an error, on which the handler panics.
  predicate Failed(q: Queue, j: nat)
    requires j < |q.g.completed|
  {
    && q.g.completed[j] in q.g.chains && DoneAs(q.g.chains[q.g.completed[j]].phase, j)
    && q.g.chains[q.g.completed[j]].phase.status != 0
  }

  predicate Possible(q: Queue, e: Event) {
    match e
    case Submitted(i, j, k, b, write, sector) => Ready(q, i, j, k, b)
    case TakenUp => q.g.taken < |q.g.posted| && q.g.posted[q.g.taken] in q.g.chains
    case Completed(h, _) => Sizes(q) && h < NUM && h in q.g.chains && q.g.chains[h].phase == Working
    case Reported => q.g.consumed < |q.g.completed| && q.g.completed[q.g.consumed] in q.g.chains
      && !Failed(q, q.g.consumed)
    case GivenBack(h) => CanFree(q, h)
  }

  function Happens(q: Queue, e: Event): Queue
    requires Possible(q, e)
  {
    match e
    case Submitted(i, j, k, b, write, sector) => Post(q, i, j, k, b, write, sector)
    case TakenUp => Take(q)
    case Completed(h, status) => Complete(q, h, status)
    case Reported => Consume(q)
    case GivenBack(h) => Freed(q, h)
  }

  predicate Runs(q: Queue, run: seq<Event>)
    decreases |run|
  {
    run == [] || (Possible(q, run[0]) && Runs(Happens(q, run[0]), run[1..]))
  }

  function After(q: Queue, run: seq<Event>): Queue
    requires Runs(q, run)
    decreases |run|
  {
    if run == [] then q else After(Happens(q, run[0]), run[1..])
  }

  // What has been reported stays reported, to the same buffer.
  predicate Extends(q: Queue, q': Queue) {
    && q.g.posted <= q'.g.posted && q.g.bufs <= q'.g.bufs
    && forall k :: k in q.g.delivered ==> k in q'.g.delivered && q'.g.delivered[k] == q.g.delivered[k]
  }

  lemma {:induction false} EventKeeps(q: Queue, e: Event)
    requires Inv(q) && Possible(q, e)
    ensures Inv(Happens(q, e)) && Extends(q, Happens(q, e))
  {
    hide Inv, Formatted;
    match e
    case Submitted(i, j, k, b, write, sector) => PostKeeps(q, i, j, k, b, write, sector);
    case TakenUp => TakeKeeps(q, q.g.taken % WRAP);
    case Completed(h, status) => CompleteKeeps(q, h, status);
    case Reported => ConsumeKeeps(q);
    case GivenBack(h) => FreeKeeps(q, h);
  }

  // The queue as virtio_disk_init() leaves it. ops and info are what memory holds.
  function NewQueue(ops: seq<Op>, info: seq<Info>): Queue {
    var zeros := seq(NUM, _ => 0);
    Queue(Disk(seq(NUM, _ => true), seq(NUM, _ => CLEAR), ops, info, zeros, 0, zeros, 0, 0, map[]),
          Trace(map[], seq(NUM, _ => NUM), [], 0, [], 0, [], map[]))
  }

  lemma {:induction false} NewQueueInv(ops: seq<Op>, info: seq<Info>)
    requires |ops| == |info| == NUM
    ensures Inv(NewQueue(ops, info))
  {
    var q := NewQueue(ops, info);
    forall i | 0 <= i < NUM ensures DescOk(q, i) {}
  }

  // In every interleaving, from the start, of requests, interrupts and a device
  // that completes what it has taken in any order, with success or an error: each
  // descriptor is free or in exactly one chain of three, a request is reported at
  // most once and to its own buffer, and until then its chain is still there,
  // formatted as submitted.
  lemma {:induction false} DriverSafety(ops: seq<Op>, info: seq<Info>, run: seq<Event>)
    requires |ops| == |info| == NUM && Runs(NewQueue(ops, info), run)
    ensures Inv(After(NewQueue(ops, info), run))
  {
    NewQueueInv(ops, info);
    RunKeeps(NewQueue(ops, info), run);
  }

  // And what has been reported stays reported, to the same buffer.
  lemma {:induction false} RunKeeps(q: Queue, run: seq<Event>)
    requires Inv(q) && Runs(q, run)
    ensures Inv(After(q, run)) && Extends(q, After(q, run))
    decreases |run|
  {
    if run != [] {
      EventKeeps(q, run[0]);
      RunKeeps(Happens(q, run[0]), run[1..]);
    }
  }
}
