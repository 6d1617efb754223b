// The block cache of kernel/bio.c: buffers in order of use, shared by
// reference counting, in front of one disk. This module is the cache as a
// value; Bio is the linked list that implements it.
module BufferCache {
  import opened WriteAheadLog

  // Buffers start out zeroed, so device number 0 marks a buffer never used.
  const NO_DEVICE: nat := 0

  // One struct buf. The last two components account for refcnt: the processes
  // that hold or wait for the buffer, and the log's pin.
  datatype Slot = Slot(valid: bool, dev: nat, blockno: nat, locked: bool, refcnt: int, data: Block,
                       users: nat, pinned: bool)

  // slots[0] is the most recently used buffer.
  datatype Cache = Cache(dev: nat, slots: seq<Slot>, disk: Disk)

  const UNUSED := Slot(false, NO_DEVICE, 0, false, 0, [], 0, false)

  predicate Holds(c: Cache, s: Slot, n: nat) {
    s.dev == c.dev && s.blockno == n
  }

  predicate Dirty(c: Cache, s: Slot) {
    s.dev == c.dev && s.valid && s.blockno < |c.disk| && s.data != c.disk[s.blockno]
  }

  predicate SlotOk(c: Cache, s: Slot) {
    && s.refcnt == s.users + (if s.pinned then 1 else 0)
    && (s.locked ==> s.users > 0)
    && (s.dev == NO_DEVICE || (s.dev == c.dev && s.blockno < |c.disk|))
    && (s.dev == NO_DEVICE ==> !s.valid && s.refcnt == 0)
    && (s.pinned ==> s.valid)
    && (Dirty(c, s) ==> s.refcnt > 0)
  }

  // At most one buffer per block.
  predicate Unique(c: Cache) {
    && c.dev != NO_DEVICE
    && (forall i, j :: 0 <= i < j < |c.slots| && c.slots[i].dev == c.dev && c.slots[j].dev == c.dev ==>
          c.slots[i].blockno != c.slots[j].blockno)
  }

  // And every reference accounted for, and nothing that the disk lacks in an
  // unreferenced buffer.
  predicate Inv(c: Cache) {
    Unique(c) && forall i :: 0 <= i < |c.slots| ==> SlotOk(c, c.slots[i])
  }

  // What the disk lacks is in a buffer that is pinned, or locked by whoever
  // changed it.
  predicate Tidy(c: Cache) {
    forall i :: 0 <= i < |c.slots| && Dirty(c, c.slots[i]) ==> c.slots[i].pinned || c.slots[i].locked
  }

  lemma {:induction false} FreshInv(dev: nat, n: nat, disk: Disk)
    requires dev != NO_DEVICE
    ensures Inv(Cache(dev, seq(n, i => UNUSED), disk))
  {
  }

  // First buffer of the list, from the front, that holds block n.
  function Find(c: Cache, n: nat): (i: int)
    ensures -1 <= i < |c.slots|
    ensures 0 <= i ==> Holds(c, c.slots[i], n)
    ensures forall j :: 0 <= j < (if i < 0 then |c.slots| else i) ==> !Holds(c, c.slots[j], n)
  {
    FindFrom(c, n, 0)
  }

  function FindFrom(c: Cache, n: nat, k: nat): (i: int)
    requires k <= |c.slots|
    ensures i == -1 || k <= i < |c.slots|
    ensures 0 <= i ==> Holds(c, c.slots[i], n)
    ensures forall j :: k <= j < (if i < 0 then |c.slots| else i) ==> !Holds(c, c.slots[j], n)
    decreases |c.slots| - k
  {
    if k == |c.slots| then -1
    else if Holds(c, c.slots[k], n) then k
    else FindFrom(c, n, k + 1)
  }

  // Last unreferenced buffer of the list: the least recently used one.
  function Victim(slots: seq<Slot>): (i: int)
    ensures -1 <= i < |slots|
    ensures 0 <= i ==> slots[i].refcnt == 0
    ensures forall j :: i < j < |slots| ==> slots[j].refcnt != 0
  {
    if slots == [] then -1
    else if slots[|slots| - 1].refcnt == 0 then |slots| - 1
    else Victim(slots[..|slots| - 1])
  }

  // What a reader of block n gets to see.
  function Logical(c: Cache, n: nat): Block
    requires n < |c.disk|
  {
    var i := Find(c, n);
    if 0 <= i && c.slots[i].valid then c.slots[i].data else c.disk[n]
  }

  predicate SameLogical(c: Cache, d: Cache) {
    |c.disk| == |d.disk| && forall n :: 0 <= n < |c.disk| ==> Logical(c, n) == Logical(d, n)
  }

  predicate Cached(c: Cache, n: nat) {
    Find(c, n) >= 0
  }

  function SlotOf(c: Cache, n: nat): Slot
    requires Cached(c, n)
  {
    c.slots[Find(c, n)]
  }

  // ---- the operations ----

  function Put(c: Cache, n: nat, s: Slot): (r: Cache)
    requires Cached(c, n)
  {
    c.(slots := c.slots[Find(c, n) := s])
  }

  // bget() up to the release of bcache.lock.
  predicate CanGet(c: Cache, n: nat) {
    Cached(c, n) || Victim(c.slots) >= 0
  }

  function Get(c: Cache, n: nat): Cache
    requires CanGet(c, n)
  {
    if Cached(c, n) then
      var s := SlotOf(c, n);
      Put(c, n, s.(refcnt := s.refcnt + 1, users := s.users + 1))
    else
      var v := Victim(c.slots);
      c.(slots := c.slots[v := c.slots[v].(dev := c.dev, blockno := n, valid := false,
                                           refcnt := 1, users := 1)])
  }

  // The rest of bread(): lock the buffer and read the block if need be.
  function LockAndFill(c: Cache, n: nat): Cache
    requires Cached(c, n) && n < |c.disk| && !SlotOf(c, n).locked
  {
    var s := SlotOf(c, n);
    Put(c, n, s.(locked := true, valid := true, data := if s.valid then s.data else c.disk[n]))
  }

  predicate Readable(c: Cache, n: nat) {
    n < |c.disk| && CanGet(c, n) && Cached(Get(c, n), n) && !SlotOf(Get(c, n), n).locked
  }

  // bread() without interference.
  function Read(c: Cache, n: nat): Cache
    requires Readable(c, n)
  {
    LockAndFill(Get(c, n), n)
  }

  function Modify(c: Cache, n: nat, data: Block): Cache
    requires Cached(c, n)
  {
    Put(c, n, SlotOf(c, n).(data := data))
  }

  function Write(c: Cache, n: nat): Cache
    requires Cached(c, n) && n < |c.disk|
  {
    c.(disk := c.disk[n := SlotOf(c, n).data])
  }

  function Dropped(s: Slot): Slot
    requires s.users > 0
  {
    s.(locked := false, refcnt := s.refcnt - 1, users := s.users - 1)
  }

  function Release(c: Cache, n: nat): Cache
    requires Cached(c, n) && SlotOf(c, n).users > 0 && SlotOf(c, n).locked
  {
    var i := Find(c, n);
    var s := Dropped(c.slots[i]);
    if s.refcnt == 0 then Moved(c, i, s) else Put(c, n, s)
  }

  // brelse() in the two steps that others can come between: releasesleep(), and
  // the decrement under bcache.lock.
  function Unlock(c: Cache, n: nat): Cache
    requires Cached(c, n)
  {
    Put(c, n, SlotOf(c, n).(locked := false))
  }

  function Drop(c: Cache, n: nat): Cache
    requires Cached(c, n) && SlotOf(c, n).users > 0
  {
    var i := Find(c, n);
    var s := Unheld(c.slots[i]);
    if s.refcnt == 0 then Moved(c, i, s) else Put(c, n, s)
  }

  function Pin(c: Cache, n: nat): Cache
    requires Cached(c, n)
  {
    var s := SlotOf(c, n);
    Put(c, n, s.(refcnt := s.refcnt + 1, pinned := true))
  }

  function Unpin(c: Cache, n: nat): Cache
    requires Cached(c, n)
  {
    var s := SlotOf(c, n);
    Put(c, n, s.(refcnt := s.refcnt - 1, pinned := false))
  }

  // ---- what they preserve ----

  // With at most one buffer per block, Find is membership.
  lemma {:induction false} FindIs(c: Cache, n: nat, i: nat)
    requires Unique(c) && i < |c.slots| && Holds(c, c.slots[i], n)
    ensures Find(c, n) == i
  {
    assert forall j :: 0 <= j < |c.slots| && j != i ==> !Holds(c, c.slots[j], n);
  }

  lemma {:induction false} OnlyOne(c: Cache, n: nat)
    requires Unique(c) && Cached(c, n)
    ensures forall i :: 0 <= i < |c.slots| && i != Find(c, n) ==> !Holds(c, c.slots[i], n)
  {
    forall i | 0 <= i < |c.slots| && Holds(c, c.slots[i], n) ensures i == Find(c, n) {
      FindIs(c, n, i);
    }
  }

  // Replacing the buffer of block n by one for the same block moves no other block.
  lemma {:induction false} PutFrame(c: Cache, n: nat, s: Slot)
    requires Unique(c) && Cached(c, n) && Holds(c, s, n)
    ensures Unique(Put(c, n, s)) && Cached(Put(c, n, s), n) && SlotOf(Put(c, n, s), n) == s
    ensures Inv(c) ==> (Inv(Put(c, n, s)) <==> SlotOk(c, s))
    ensures forall m: nat :: Find(Put(c, n, s), m) == Find(c, m)
  {
    var i := Find(c, n);
    var d := Put(c, n, s);
    FindIs(d, n, i);
    assert SlotOk(c, s) <==> SlotOk(d, d.slots[i]);
    forall m: nat ensures Find(d, m) == Find(c, m) {
      assert forall j :: 0 <= j < |c.slots| ==> Holds(d, d.slots[j], m) == Holds(c, c.slots[j], m);
      if Find(d, m) >= 0 { FindIs(c, m, Find(d, m)); }
    }
  }

  lemma {:induction false} PutLogical(c: Cache, n: nat, s: Slot)
    requires Unique(c) && Cached(c, n) && Holds(c, s, n) && n < |c.disk|
    ensures forall m :: 0 <= m < |c.disk| && m != n ==> Logical(Put(c, n, s), m) == Logical(c, m)
    ensures (if s.valid then s.data else c.disk[n]) == Logical(Put(c, n, s), n)
  {
    PutFrame(c, n, s);
    forall m | 0 <= m < |c.disk| && m != n ensures Logical(Put(c, n, s), m) == Logical(c, m) {
      assert Find(Put(c, n, s), m) == Find(c, m);
    }
  }

  lemma {:induction false} GetKeeps(c: Cache, n: nat)
    requires Inv(c) && n < |c.disk| && CanGet(c, n)
    ensures Inv(Get(c, n)) && Cached(Get(c, n), n) && SameLogical(c, Get(c, n))
    ensures forall m: nat :: m != n && Cached(c, m) && SlotOf(c, m).refcnt > 0 ==>
              Cached(Get(c, n), m) && SlotOf(Get(c, n), m) == SlotOf(c, m)
  {
    hide Inv, SameLogical, Get, CanGet, Cached;
    if Cached(c, n) {
      Reuse(c, n);
    } else {
      MustRecycle(c, n);
      Recycle(c, n);
    }
  }

  lemma {:induction false} MustRecycle(c: Cache, n: nat)
    requires CanGet(c, n) && !Cached(c, n)
    ensures Victim(c.slots) >= 0
  {
  }

  lemma {:induction false} Reuse(c: Cache, n: nat)
    requires Inv(c) && n < |c.disk| && Cached(c, n)
    ensures CanGet(c, n) && Inv(Get(c, n)) && Cached(Get(c, n), n) && SameLogical(c, Get(c, n))
    ensures forall m: nat :: m != n && Cached(c, m) && SlotOf(c, m).refcnt > 0 ==>
              Cached(Get(c, n), m) && SlotOf(Get(c, n), m) == SlotOf(c, m)
  {
    var s := SlotOf(c, n).(refcnt := SlotOf(c, n).refcnt + 1, users := SlotOf(c, n).users + 1);
    SlotSound(c, n);
    assert Get(c, n) == Put(c, n, s) && CanGet(c, n);
    hide Inv, Get, SlotOk, Find;
    PutLogical(c, n, s);
    PutFrame(c, n, s);
    assert SameLogical(c, Get(c, n)) by { hide SlotOf; }
    hide Logical, SameLogical;
    forall m: nat | m != n && Cached(c, m) ensures Cached(Get(c, n), m) && SlotOf(Get(c, n), m) == SlotOf(c, m) {
      PutOther(c, n, s, m);
    }
  }

  lemma {:induction false} SlotSound(c: Cache, n: nat)
    requires Inv(c) && Cached(c, n)
    ensures var s := SlotOf(c, n).(refcnt := SlotOf(c, n).refcnt + 1, users := SlotOf(c, n).users + 1);
            Holds(c, s, n) && SlotOk(c, s) && s.valid == SlotOf(c, n).valid && s.data == SlotOf(c, n).data
  {
    assert SlotOk(c, c.slots[Find(c, n)]);
  }

  lemma {:induction false} PutOther(c: Cache, n: nat, s: Slot, m: nat)
    requires Inv(c) && Cached(c, n) && Holds(c, s, n) && SlotOk(c, s) && m != n && Cached(c, m)
    ensures Cached(Put(c, n, s), m) && SlotOf(Put(c, n, s), m) == SlotOf(c, m)
  {
    PutFrame(c, n, s);
    assert Find(Put(c, n, s), m) == Find(c, m);
    assert Holds(c, c.slots[Find(c, m)], m) && Holds(c, c.slots[Find(c, n)], n);
  }

  // Where bget() finds or puts the block.
  lemma {:induction false} GetFinds(c: Cache, n: nat, i: nat)
    requires Inv(c) && n < |c.disk| && CanGet(c, n) && i == (if Cached(c, n) then Find(c, n) else Victim(c.slots))
    ensures Cached(Get(c, n), n) && Find(Get(c, n), n) == i
    ensures Get(c, n).dev == c.dev && Get(c, n).disk == c.disk
  {
    GetKeeps(c, n);
    assert Holds(Get(c, n), Get(c, n).slots[i], n);
    hide Inv;
    FindIs(Get(c, n), n, i);
  }

  lemma {:induction false} GetTakes(c: Cache, n: nat)
    requires Inv(c) && n < |c.disk| && CanGet(c, n)
    ensures Cached(Get(c, n), n) && SlotOf(Get(c, n), n).users > 0
    ensures SlotOf(Get(c, n), n).locked == (Cached(c, n) && SlotOf(c, n).locked)
  {
    var d := Get(c, n);
    GetKeeps(c, n);
    FindIs(d, n, if Cached(c, n) then Find(c, n) else Victim(c.slots));
  }

  lemma {:induction false} Recycle(c: Cache, n: nat)
    requires Inv(c) && n < |c.disk| && !Cached(c, n) && Victim(c.slots) >= 0
    ensures Inv(Get(c, n)) && Cached(Get(c, n), n) && SameLogical(c, Get(c, n))
    ensures forall m: nat :: m != n && Cached(c, m) && SlotOf(c, m).refcnt > 0 ==>
              Cached(Get(c, n), m) && SlotOf(Get(c, n), m) == SlotOf(c, m)
  {
    var v := Victim(c.slots);
    var d := Get(c, n);
    FindIs(d, n, v);
    forall m: nat | m < |c.disk| ensures Logical(d, m) == Logical(c, m) {
      var k := Find(c, m);
      if m == n {
      } else if k == v {
        assert !Dirty(c, c.slots[v]);
        assert forall j :: 0 <= j < |d.slots| ==> !Holds(d, d.slots[j], m);
      } else if k >= 0 {
        FindIs(d, m, k);
      } else {
        assert forall j :: 0 <= j < |d.slots| ==> !Holds(d, d.slots[j], m);
      }
    }
    forall m: nat | m != n && Cached(c, m) && SlotOf(c, m).refcnt > 0
      ensures Cached(d, m) && SlotOf(d, m) == SlotOf(c, m)
    {
      FindIs(d, m, Find(c, m));
    }
  }

  lemma {:induction false} LockAndFillKeeps(c: Cache, n: nat)
    requires Inv(c) && n < |c.disk| && Cached(c, n) && SlotOf(c, n).users > 0 && !SlotOf(c, n).locked
    ensures var d := LockAndFill(c, n);
      Inv(d) && Cached(d, n) && SameLogical(c, d) && SlotOf(d, n).data == Logical(c, n)
    ensures forall m: nat :: Find(LockAndFill(c, n), m) == Find(c, m)
  {
    var s := SlotOf(c, n);
    var t := s.(locked := true, valid := true, data := if s.valid then s.data else c.disk[n]);
    PutFrame(c, n, t);
    PutLogical(c, n, t);
  }

  // Only the block in hand changes.
  lemma {:induction false} ModifyKeeps(c: Cache, n: nat, data: Block)
    requires Inv(c) && n < |c.disk| && Cached(c, n) && SlotOf(c, n).locked && SlotOf(c, n).valid
    ensures var d := Modify(c, n, data);
      && Inv(d) && Cached(d, n) && Logical(d, n) == data
      && forall m :: 0 <= m < |c.disk| && m != n ==> Logical(d, m) == Logical(c, m)
    ensures forall m: nat :: Find(Modify(c, n, data), m) == Find(c, m)
  {
    PutFrame(c, n, SlotOf(c, n).(data := data));
    PutLogical(c, n, SlotOf(c, n).(data := data));
  }

  lemma {:induction false} WriteKeeps(c: Cache, n: nat)
    requires Inv(c) && n < |c.disk| && Cached(c, n) && SlotOf(c, n).valid
    ensures var d := Write(c, n);
      && Inv(d) && SameLogical(c, d) && d.disk[n] == Logical(c, n) && !Dirty(d, SlotOf(d, n))
    ensures forall m: nat :: Find(Write(c, n), m) == Find(c, m)
  {
    var d := Write(c, n);
    forall m: nat ensures Find(d, m) == Find(c, m) {
      assert forall j :: 0 <= j < |c.slots| ==> Holds(d, d.slots[j], m) == Holds(c, c.slots[j], m);
      if Find(d, m) >= 0 { FindIs(c, m, Find(d, m)); }
    }
    forall j | 0 <= j < |d.slots| ensures SlotOk(d, d.slots[j]) {
      assert SlotOk(c, c.slots[j]);
      if d.slots[j].dev == d.dev && d.slots[j].blockno == n { FindIs(c, n, j); }
    }
  }

  // brelse() changes what no block reads as. Afterwards everything is in order
  // exactly if the disk has the buffer's contents or someone else still refers
  // to it.
  lemma {:induction false} ReleaseKeeps(c: Cache, n: nat)
    requires Inv(c) && n < |c.disk| && Cached(c, n) && SlotOf(c, n).locked && SlotOf(c, n).users > 0
    ensures Unique(Release(c, n)) && SameLogical(c, Release(c, n))
    ensures Inv(Release(c, n)) <==> (SlotOf(c, n).refcnt == 1 ==> !Dirty(c, SlotOf(c, n)))
    ensures forall m: nat :: m != n && Cached(c, m) ==>
              Cached(Release(c, n), m) && SlotOf(Release(c, n), m) == SlotOf(c, m)
  {
    var i := Find(c, n);
    var s := Dropped(c.slots[i]);
    assert SlotOk(c, c.slots[i]);
    assert SlotOk(c, s) <==> (c.slots[i].refcnt == 1 ==> !Dirty(c, c.slots[i])) by { DroppedOk(c, c.slots[i]); }
    if s.refcnt == 0 {
      MoveKeeps(c, n, s);
    } else {
      PutFrame(c, n, s);
      PutLogical(c, n, s);
    }
  }

  lemma {:induction false} DroppedOk(c: Cache, s: Slot)
    requires SlotOk(c, s) && s.users > 0 && s.locked
    ensures SlotOk(c, Dropped(s)) <==> (s.refcnt == 1 ==> !Dirty(c, s))
  {
  }

  lemma {:induction false} UnlockKeeps(c: Cache, n: nat)
    requires Inv(c) && n < |c.disk| && Cached(c, n)
    ensures Inv(Unlock(c, n)) && SameLogical(c, Unlock(c, n)) && Cached(Unlock(c, n), n)
  {
    var s := SlotOf(c, n).(locked := false);
    PutFrame(c, n, s);
    PutLogical(c, n, s);
  }

  function Unheld(s: Slot): Slot
    requires s.users > 0
  {
    s.(refcnt := s.refcnt - 1, users := s.users - 1)
  }

  // The same for giving up a reference alone, by somebody who does not hold the
  // lock.
  lemma {:induction false} DropKeeps(c: Cache, n: nat)
    requires Inv(c) && n < |c.disk| && Cached(c, n) && CanDrop(SlotOf(c, n))
    ensures Unique(Drop(c, n)) && SameLogical(c, Drop(c, n))
    ensures Inv(Drop(c, n)) <==> (SlotOf(c, n).refcnt == 1 ==> !Dirty(c, SlotOf(c, n)))
  {
    var i := Find(c, n);
    var s := Unheld(c.slots[i]);
    assert SlotOk(c, c.slots[i]);
    assert SlotOk(c, s) <==> (c.slots[i].refcnt == 1 ==> !Dirty(c, c.slots[i])) by { UnheldOk(c, c.slots[i]); }
    if s.refcnt == 0 {
      MoveKeeps(c, n, s);
    } else {
      PutFrame(c, n, s);
      PutLogical(c, n, s);
    }
  }

  lemma {:induction false} UnheldOk(c: Cache, s: Slot)
    requires SlotOk(c, s) && CanDrop(s)
    ensures SlotOk(c, Unheld(s)) <==> (s.refcnt == 1 ==> !Dirty(c, s))
  {
  }

  predicate CanDrop(s: Slot) {
    s.users > (if s.locked then 1 else 0)
  }

  // Without interference the two steps are brelse().
  lemma {:induction false} ReleaseSplits(c: Cache, n: nat)
    requires Inv(c) && n < |c.disk| && Cached(c, n) && SlotOf(c, n).locked && SlotOf(c, n).users > 0
    ensures Cached(Unlock(c, n), n) && SlotOf(Unlock(c, n), n).users > 0 && Release(c, n) == Drop(Unlock(c, n), n)
  {
    var s := SlotOf(c, n).(locked := false);
    PutFrame(c, n, s);
    var u, i := Unlock(c, n), Find(c, n);
    assert Find(u, n) == i;
    assert u.slots[..i] == c.slots[..i] && u.slots[i + 1..] == c.slots[i + 1..];
  }

  // Where the buffer at position k stood before position i moved to the front.
  function Origin(i: nat, k: nat): nat {
    if k == 0 then i else if k <= i then k - 1 else k
  }

  // The list after the buffer at position i, now s, moved to the front.
  function Moved(c: Cache, i: nat, s: Slot): (d: Cache)
    requires i < |c.slots|
    ensures |d.slots| == |c.slots| && d.slots[0] == s
    ensures forall k :: 0 < k < |d.slots| ==> d.slots[k] == c.slots[Origin(i, k)]
  {
    c.(slots := [s] + c.slots[..i] + c.slots[i + 1..])
  }

  lemma {:induction false} MovedUnique(c: Cache, n: nat, s: Slot)
    requires Unique(c) && Cached(c, n) && Holds(c, s, n)
    ensures Unique(Moved(c, Find(c, n), s))
  {
    var i := Find(c, n);
    var d := Moved(c, i, s);
    forall j, k | 0 <= j < k < |d.slots| && d.slots[j].dev == d.dev && d.slots[k].dev == d.dev
      ensures d.slots[j].blockno != d.slots[k].blockno
    {
      assert Origin(i, j) != Origin(i, k);
      assert c.slots[i].blockno == n;
    }
  }

  lemma {:induction false} MovedInv(c: Cache, n: nat, s: Slot)
    requires Inv(c) && Cached(c, n) && Holds(c, s, n)
    ensures Inv(Moved(c, Find(c, n), s)) <==> SlotOk(c, s)
  {
    var i := Find(c, n);
    var d := Moved(c, i, s);
    MovedUnique(c, n, s);
    assert SlotOk(d, d.slots[0]) <==> SlotOk(c, s);
    forall k | 0 < k < |d.slots| ensures SlotOk(d, d.slots[k]) { assert SlotOk(c, c.slots[Origin(i, k)]); }
  }

  lemma {:induction false} MoveKeeps(c: Cache, n: nat, s: Slot)
    requires Inv(c) && n < |c.disk| && Cached(c, n) && Holds(c, s, n)
    requires s.valid == SlotOf(c, n).valid && s.data == SlotOf(c, n).data
    ensures var d := Moved(c, Find(c, n), s);
      && Unique(d) && (Inv(d) <==> SlotOk(c, s)) && SameLogical(c, d)
      && forall m: nat :: m != n && Cached(c, m) ==> Cached(d, m) && SlotOf(d, m) == SlotOf(c, m)
  {
    var i := Find(c, n);
    var d := Moved(c, i, s);
    MovedUnique(c, n, s);
    MovedInv(c, n, s);
    hide Inv;
    forall m: nat | m < |c.disk| ensures Logical(d, m) == Logical(c, m) {
      MovedTo(c, d, n, i, m);
    }
    forall m: nat | m != n && Cached(c, m) ensures Cached(d, m) && SlotOf(d, m) == SlotOf(c, m) {
      MovedTo(c, d, n, i, m);
    }
  }

  lemma {:induction false} MovedTo(c: Cache, d: Cache, n: nat, i: nat, m: nat)
    requires Unique(c) && Unique(d) && c.dev == d.dev && c.disk == d.disk && |d.slots| == |c.slots|
    requires i < |c.slots| && i == Find(c, n) && Holds(d, d.slots[0], n)
    requires forall k :: 0 < k < |d.slots| ==> d.slots[k] == c.slots[Origin(i, k)]
    ensures Cached(c, m) == Cached(d, m)
    ensures m != n && Cached(c, m) ==> SlotOf(d, m) == SlotOf(c, m)
    ensures m == n ==> Find(d, m) == 0
  {
    var k := Find(c, m);
    if m == n {
    } else if k >= 0 {
      assert k != i;
      FindIs(d, m, if k < i then k + 1 else k);
    } else {
      assert forall j :: 0 < j < |d.slots| ==> !Holds(c, c.slots[Origin(i, j)], m);
    }
  }

  lemma {:induction false} PinKeeps(c: Cache, n: nat)
    requires Inv(c) && n < |c.disk| && Cached(c, n) && SlotOf(c, n).valid && !SlotOf(c, n).pinned
    ensures Inv(Pin(c, n)) && SameLogical(c, Pin(c, n)) && Cached(Pin(c, n), n)
    ensures forall m: nat :: Find(Pin(c, n), m) == Find(c, m)
  {
    var s := SlotOf(c, n);
    PutFrame(c, n, s.(refcnt := s.refcnt + 1, pinned := true));
    PutLogical(c, n, s.(refcnt := s.refcnt + 1, pinned := true));
  }

  // bunpin() changes what no block reads as. Afterwards everything is in order
  // exactly if the disk has the buffer's contents or a process holds it.
  lemma {:induction false} UnpinKeeps(c: Cache, n: nat)
    requires Inv(c) && n < |c.disk| && Cached(c, n) && SlotOf(c, n).pinned
    ensures Unique(Unpin(c, n)) && SameLogical(c, Unpin(c, n)) && Cached(Unpin(c, n), n)
    ensures Inv(Unpin(c, n)) <==> (SlotOf(c, n).users == 0 ==> !Dirty(c, SlotOf(c, n)))
    ensures forall m: nat :: Find(Unpin(c, n), m) == Find(c, m)
  {
    var s := SlotOf(c, n);
    var t := s.(refcnt := s.refcnt - 1, pinned := false);
    assert SlotOk(c, s);
    assert SlotOk(c, t) <==> (s.users == 0 ==> !Dirty(c, s)) by { UnpinnedOk(c, s); }
    PutFrame(c, n, t);
    PutLogical(c, n, t);
  }

  lemma {:induction false} UnpinnedOk(c: Cache, s: Slot)
    requires SlotOk(c, s) && s.pinned
    ensures SlotOk(c, s.(refcnt := s.refcnt - 1, pinned := false)) <==> (s.users == 0 ==> !Dirty(c, s))
  {
  }

  // What goes wrong otherwise: a changed block without references is forgotten
  // when its buffer is given to another block.
  lemma {:induction false} ForgottenChange(c: Cache, n: nat, m: nat)
    requires Unique(c) && n < |c.disk| && m < |c.disk| && !Cached(c, m) && Victim(c.slots) >= 0
    requires Cached(c, n) && Find(c, n) == Victim(c.slots) && Dirty(c, SlotOf(c, n))
    ensures CanGet(c, m) && Logical(c, n) != c.disk[n] && Logical(Get(c, m), n) == c.disk[n]
  {
    var v := Victim(c.slots);
    OnlyOne(c, n);
    var d := Get(c, m);
    assert forall j :: 0 <= j < |d.slots| ==> !Holds(d, d.slots[j], n);
  }

  // ---- whole runs ----

  // One step of some process, in any interleaving: taking a reference, locking
  // and reading, changing a locked buffer, writing it, unlocking it, giving the
  // reference up; and the log's pins.
  datatype Action =
    | DoGet(n: nat) | DoLock(n: nat) | DoModify(n: nat, data: Block)
    | DoWrite(n: nat) | DoUnlock(n: nat) | DoDrop(n: nat) | DoPin(n: nat) | DoUnpin(n: nat)

  // What the callers keep to: a changed buffer is logged or written before it is
  // unlocked, and install_trans() has written or still holds the buffer that it
  // unpins. Giving up a reference needs no such care.
  predicate Enabled(c: Cache, a: Action) {
    && a.n < |c.disk|
    && (if a.DoGet? then CanGet(c, a.n) else Cached(c, a.n))
    && match a
       case DoGet(n) => true
       case DoLock(n) => SlotOf(c, n).users > 0 && !SlotOf(c, n).locked
       case DoModify(n, _) => SlotOf(c, n).locked && SlotOf(c, n).valid
       case DoWrite(n) => SlotOf(c, n).locked && SlotOf(c, n).valid
       case DoUnlock(n) => SlotOf(c, n).locked && (Dirty(c, SlotOf(c, n)) ==> SlotOf(c, n).pinned)
       case DoDrop(n) => CanDrop(SlotOf(c, n))
       case DoPin(n) => SlotOf(c, n).locked && SlotOf(c, n).valid && !SlotOf(c, n).pinned
       case DoUnpin(n) => SlotOf(c, n).pinned && (Dirty(c, SlotOf(c, n)) ==> SlotOf(c, n).locked)
  }

  function Next(c: Cache, a: Action): Cache
    requires Enabled(c, a)
  {
    match a
    case DoGet(n) => Get(c, n)
    case DoLock(n) => LockAndFill(c, n)
    case DoModify(n, data) => Modify(c, n, data)
    case DoWrite(n) => Write(c, n)
    case DoUnlock(n) => Unlock(c, n)
    case DoDrop(n) => Drop(c, n)
    case DoPin(n) => Pin(c, n)
    case DoUnpin(n) => Unpin(c, n)
  }

  // The reference: a plain array of blocks that only modifications change.
  function PlainStep(p: seq<Block>, a: Action): (q: seq<Block>)
    requires a.n < |p|
    ensures |q| == |p|
  {
    if a.DoModify? then p[a.n := a.data] else p
  }

  predicate Shows(c: Cache, p: seq<Block>) {
    Inv(c) && Tidy(c) && |p| == |c.disk| && forall n :: 0 <= n < |p| ==> Logical(c, n) == p[n]
  }

  // A fresh cache shows the disk.
  lemma {:induction false} FreshShows(dev: nat, n: nat, disk: Disk)
    requires dev != NO_DEVICE
    ensures Shows(Cache(dev, seq(n, i => UNUSED), disk), disk)
  {
    FreshInv(dev, n, disk);
  }

  // In a tidy cache no reference given up and no pin taken away is the last one
  // of a changed buffer.
  lemma {:induction false} TidyIsSafe(c: Cache, n: nat)
    requires Inv(c) && Tidy(c) && Cached(c, n)
    ensures CanDrop(SlotOf(c, n)) && SlotOf(c, n).refcnt == 1 ==> !Dirty(c, SlotOf(c, n))
    ensures SlotOf(c, n).users == 0 && (Dirty(c, SlotOf(c, n)) ==> SlotOf(c, n).locked) ==> !Dirty(c, SlotOf(c, n))
  {
    assert SlotOk(c, c.slots[Find(c, n)]);
  }

  // One buffer changes to s, and the cache stays tidy.
  lemma {:induction false} TidyPut(c: Cache, n: nat, s: Slot)
    requires Tidy(c) && Cached(c, n) && (Dirty(c, s) ==> s.pinned || s.locked)
    ensures Tidy(Put(c, n, s))
  {
    var d := Put(c, n, s);
    forall i | 0 <= i < |d.slots| && Dirty(d, d.slots[i]) ensures d.slots[i].pinned || d.slots[i].locked {
      assert i != Find(c, n) ==> Dirty(c, c.slots[i]);
    }
  }

  lemma {:induction false} TidyGet(c: Cache, n: nat)
    requires Tidy(c) && CanGet(c, n)
    ensures Tidy(Get(c, n))
  {
    if Cached(c, n) {
      var s := SlotOf(c, n);
      TidyPut(c, n, s.(refcnt := s.refcnt + 1, users := s.users + 1));
    } else {
      var d := Get(c, n);
      forall i | 0 <= i < |d.slots| && Dirty(d, d.slots[i]) ensures d.slots[i].pinned || d.slots[i].locked {
        assert i != Victim(c.slots) ==> Dirty(c, c.slots[i]);
      }
    }
  }

  lemma {:induction false} TidyWrite(c: Cache, n: nat)
    requires Unique(c) && Tidy(c) && Cached(c, n) && n < |c.disk|
    ensures Tidy(Write(c, n))
  {
    var d := Write(c, n);
    OnlyOne(c, n);
    forall i | 0 <= i < |d.slots| && Dirty(d, d.slots[i]) ensures d.slots[i].pinned || d.slots[i].locked {
      assert i != Find(c, n) && Dirty(c, c.slots[i]);
    }
  }

  lemma {:induction false} TidyDrop(c: Cache, n: nat)
    requires Tidy(c) && Cached(c, n) && SlotOf(c, n).users > 0
    ensures Tidy(Drop(c, n))
  {
    var i := Find(c, n);
    var s := Unheld(c.slots[i]);
    assert Dirty(c, s) == Dirty(c, c.slots[i]);
    if s.refcnt == 0 {
      var d := Drop(c, n);
      forall k | 0 <= k < |d.slots| && Dirty(d, d.slots[k]) ensures d.slots[k].pinned || d.slots[k].locked {
        assert k > 0 ==> Dirty(c, c.slots[Origin(i, k)]);
      }
    } else {
      TidyPut(c, n, s);
    }
  }

  lemma {:induction false} NextTidy(c: Cache, a: Action)
    requires Inv(c) && Tidy(c) && Enabled(c, a)
    ensures Tidy(Next(c, a))
  {
    hide Inv, Tidy;
    var n := a.n;
    match a
    case DoGet(_) => TidyGet(c, n);
    case DoLock(_) =>
      var s := SlotOf(c, n);
      TidyPut(c, n, s.(locked := true, valid := true, data := if s.valid then s.data else c.disk[n]));
    case DoModify(_, data) => TidyPut(c, n, SlotOf(c, n).(data := data));
    case DoWrite(_) => assert Unique(c) by { UniqueOf(c); } TidyWrite(c, n);
    case DoUnlock(_) => TidyPut(c, n, SlotOf(c, n).(locked := false));
    case DoDrop(_) => TidyDrop(c, n);
    case DoPin(_) =>
      var s := SlotOf(c, n);
      TidyPut(c, n, s.(refcnt := s.refcnt + 1, pinned := true));
    case DoUnpin(_) =>
      var s := SlotOf(c, n);
      TidyPut(c, n, s.(refcnt := s.refcnt - 1, pinned := false));
  }

  lemma {:induction false} UniqueOf(c: Cache)
    requires Inv(c)
    ensures Unique(c)
  {
  }

  lemma {:induction false} NextRefines(c: Cache, p: seq<Block>, a: Action)
    requires Shows(c, p) && Enabled(c, a)
    ensures Shows(Next(c, a), PlainStep(p, a))
  {
    NextTidy(c, a);
    hide Tidy;
    match a
    case DoGet(n) => GetKeeps(c, n);
    case DoLock(n) => LockAndFillKeeps(c, n);
    case DoModify(n, data) => ModifyKeeps(c, n, data);
    case DoWrite(n) => WriteKeeps(c, n);
    case DoUnlock(n) => UnlockKeeps(c, n);
    case DoDrop(n) => TidyIsSafe(c, n); DropKeeps(c, n);
    case DoPin(n) => PinKeeps(c, n);
    case DoUnpin(n) => TidyIsSafe(c, n); UnpinKeeps(c, n);
  }

  predicate LegalRun(c: Cache, run: seq<Action>)
    decreases |run|
  {
    run == [] || (Enabled(c, run[0]) && LegalRun(Next(c, run[0]), run[1..]))
  }

  function After(c: Cache, run: seq<Action>): Cache
    requires LegalRun(c, run)
    decreases |run|
  {
    if run == [] then c else After(Next(c, run[0]), run[1..])
  }

  function PlainAfter(p: seq<Block>, run: seq<Action>): (q: seq<Block>)
    requires forall i :: 0 <= i < |run| ==> run[i].n < |p|
    ensures |q| == |p|
    decreases |run|
  {
    if run == [] then p else PlainAfter(PlainStep(p, run[0]), run[1..])
  }

  // The cache refines a plain disk: whatever is evicted, reloaded, written back
  // or pinned on the way, every block reads as the last modification left it.
  lemma {:induction false} CacheRefinesDisk(c: Cache, p: seq<Block>, run: seq<Action>)
    requires Shows(c, p) && LegalRun(c, run)
    ensures forall i :: 0 <= i < |run| ==> run[i].n < |p|
    ensures Shows(After(c, run), PlainAfter(p, run))
    decreases |run|
  {
    if run != [] {
      NextRefines(c, p, run[0]);
      CacheRefinesDisk(Next(c, run[0]), PlainStep(p, run[0]), run[1..]);
      assert forall i :: 0 < i < |run| ==> run[i] == run[1..][i - 1];
    }
  }
}
