// kernel/bio.c as it is written: buffers linked in place into a circular list
// around bcache.head, one field update at a time. Every method is one section
// that runs without interference and computes its counterpart in BufferCache.
module Bio {
  import opened WriteAheadLog
  import C = BufferCache

  class Buf {
    var valid: bool
    var dev: nat
    var blockno: nat
    var locked: bool
    var refcnt: int
    var prev: Buf
    var next: Buf
    var data: Block
    ghost var users: nat
    ghost var pinned: bool

    ghost function View(): C.Slot
      reads this
    {
      C.Slot(valid, dev, blockno, locked, refcnt, data, users, pinned)
    }

    constructor ()
      ensures View() == C.UNUSED && prev == this && next == this
    {
      valid, dev, blockno, locked, refcnt := false, C.NO_DEVICE, 0, false, 0;
      users, pinned, data := 0, false, [];
      prev, next := this, this;
    }
  }

  // The i-th buffer of the list s, or the list head beyond either end.
  ghost function At(h: Buf, s: seq<Buf>, i: int): Buf {
    if 0 <= i < |s| then s[i] else h
  }

  ghost predicate Distinct(h: Buf, s: seq<Buf>) {
    h !in s && forall i, j :: 0 <= i < j < |s| ==> s[i] != s[j]
  }

  // s is the circular list through h, most recently used first.
  ghost predicate Linked(h: Buf, s: seq<Buf>)
    reads h, s
  {
    && Distinct(h, s)
    && (forall i {:trigger s[i].next} :: 0 <= i < |s| ==> s[i].next == At(h, s, i + 1))
    && (forall i {:trigger s[i].prev} :: 0 <= i < |s| ==> s[i].prev == At(h, s, i - 1))
    && h.next == At(h, s, 0)
    && h.prev == At(h, s, |s| - 1)
  }

  ghost function Without(s: seq<Buf>, i: nat): (t: seq<Buf>)
    requires i < |s|
    ensures |t| == |s| - 1
    ensures forall k :: 0 <= k < |t| ==> t[k] == if k < i then s[k] else s[k + 1]
  {
    s[..i] + s[i + 1..]
  }

  lemma StillDistinct(h: Buf, s: seq<Buf>, i: nat)
    requires Distinct(h, s) && i < |s|
    ensures Distinct(h, Without(s, i))
  {
  }

  // b->next->prev = b->prev; b->prev->next = b->next;
  method Unlink(h: Buf, ghost s: seq<Buf>, b: Buf, ghost i: nat)
    requires Linked(h, s) && i < |s| && b == s[i]
    modifies h`prev, h`next, s`prev, s`next
    ensures Linked(h, Without(s, i))
  {
    StillDistinct(h, s, i);
    b.next.prev := b.prev;
    b.prev.next := b.next;
  }

  // Insert b right behind the list head.
  method PushFront(h: Buf, ghost s: seq<Buf>, b: Buf)
    requires Linked(h, s) && b != h && b !in s
    modifies h`prev, h`next, s`prev, s`next, b`prev, b`next
    ensures Linked(h, [b] + s)
  {
    b.next := h.next;
    b.prev := h;
    h.next.prev := b;
    h.next := b;
  }

  // The buffers of list s have the contents of the given slots.
  ghost predicate Shows(s: seq<Buf>, slots: seq<C.Slot>)
    reads s
  {
    |s| == |slots| && forall i :: 0 <= i < |s| ==> s[i].View() == slots[i]
  }

  class Bcache {
    const dev: nat
    const head: Buf
    var disk: Disk
    // The list, the cache it stands for, and every content the disk has had.
    ghost var lru: seq<Buf>
    ghost var model: C.Cache
    ghost var trace: seq<Disk>

    ghost predicate Valid()
      reads this, head, lru
    {
      Standing() && C.Inv(model)
    }

    // The list is linked and stands for the model.
    ghost predicate Standing()
      reads this, head, lru
    {
      && Linked(head, lru) && Shows(lru, model.slots)
      && model.dev == dev && model.disk == disk
      && trace != [] && trace[|trace| - 1] == disk
    }

    // b is the buffer that holds a cached block.
    ghost predicate Is(b: Buf, blockno: nat)
      reads this, b
    {
      && C.Cached(model, blockno) && C.Find(model, blockno) < |lru| && b == lru[C.Find(model, blockno)]
      && b.View() == C.SlotOf(model, blockno)
    }

    // binit(): n unused buffers linked behind the head.
    constructor (dev: nat, disk: Disk, n: nat)
      requires dev != C.NO_DEVICE
      ensures Valid() && trace == [disk]
      ensures model == C.Cache(dev, seq(n, i => C.UNUSED), disk)
      ensures fresh(head) && forall i :: 0 <= i < |lru| ==> fresh(lru[i])
    {
      var h := new Buf();
      this.dev, this.disk, this.head := dev, disk, h;
      lru, trace := [], [disk];
      new;
      for i := 0 to n
        invariant Linked(head, lru) && |lru| == i
        invariant this.disk == disk && trace == [disk]
        invariant fresh(head) && forall j :: 0 <= j < |lru| ==> fresh(lru[j])
        invariant forall j :: 0 <= j < |lru| ==> lru[j].View() == C.UNUSED
      {
        AddBuffer();
      }
      C.FreshInv(dev, n, disk);
      hide C.Inv, Linked;
      model := C.Cache(dev, seq(n, i => C.UNUSED), disk);
    }

    method AddBuffer()
      requires Linked(head, lru)
      modifies this`lru, head`prev, head`next, lru`prev, lru`next
      ensures Linked(head, lru) && |lru| == |old(lru)| + 1 && lru[1..] == old(lru)
      ensures fresh(lru[0]) && lru[0].View() == C.UNUSED
    {
      var b := new Buf();
      PushFront(head, lru, b);
      lru := [b] + lru;
    }

    // The first loop of bget().
    method FindCached(blockno: nat) returns (b: Buf?)
      requires Valid()
      ensures b == null <==> !C.Cached(model, blockno)
      ensures b != null ==> b in lru && b == lru[C.Find(model, blockno)] && b.View() == C.SlotOf(model, blockno)
    {
      var p := head.next;
      ghost var i := 0;
      while p != head
        invariant 0 <= i <= |lru| && p == At(head, lru, i)
        invariant forall j :: 0 <= j < i ==> !C.Holds(model, model.slots[j], blockno)
        decreases |lru| - i
      {
        if p.dev == dev && p.blockno == blockno {
          assert C.Holds(model, model.slots[i], blockno);
          return p;
        }
        p := p.next;
        i := i + 1;
      }
      return null;
    }

    // The second loop of bget().
    method FindVictim() returns (b: Buf?)
      requires Valid()
      ensures b == null <==> C.Victim(model.slots) < 0
      ensures b != null ==> b in lru && b == lru[C.Victim(model.slots)]
    {
      var p := head.prev;
      ghost var i := |lru| - 1;
      while p != head
        invariant -1 <= i < |lru| && p == At(head, lru, i)
        invariant forall j :: i < j < |lru| ==> model.slots[j].refcnt != 0
        decreases i
      {
        if p.refcnt == 0 {
          assert model.slots[i].refcnt == 0;
          return p;
        }
        p := p.prev;
        i := i - 1;
      }
      return null;
    }

    // The block is cached: b->refcnt++.
    method Share(b: Buf, blockno: nat)
      requires Valid() && blockno < |disk| && C.Cached(model, blockno) && b == lru[C.Find(model, blockno)]
      modifies this`model, b`refcnt, b`users
      ensures Valid() && model == C.Get(old(model), blockno)
      ensures Is(b, blockno) && b.refcnt == old(b.refcnt) + 1
    {
      ghost var i := C.Find(model, blockno);
      b.refcnt := b.refcnt + 1;
      b.users := b.users + 1;
      Got(blockno, i);
    }

    // It is not: give the least recently used unreferenced buffer to it.
    method Recycle(b: Buf, blockno: nat)
      requires Valid() && blockno < |disk| && !C.Cached(model, blockno)
      requires C.Victim(model.slots) >= 0 && b == lru[C.Victim(model.slots)]
      modifies this`model, b`dev, b`blockno, b`valid, b`refcnt, b`users
      ensures Valid() && model == C.Get(old(model), blockno)
      ensures Is(b, blockno) && old(b.refcnt) == 0
    {
      ghost var i := C.Victim(model.slots);
      Reassign(b, blockno, i);
      Got(blockno, i);
    }

    method Reassign(b: Buf, blockno: nat, ghost i: nat)
      requires Linked(head, lru) && Shows(lru, model.slots) && i < |lru| && b == lru[i]
      modifies b`dev, b`blockno, b`valid, b`refcnt, b`users
      ensures Linked(head, lru)
      ensures Shows(lru, model.slots[i := model.slots[i].(dev := dev, blockno := blockno, valid := false,
                                                          refcnt := 1, users := 1)])
    {
      b.dev := dev;
      b.blockno := blockno;
      b.valid := false;
      b.refcnt := 1;
      b.users := 1;
    }

    ghost method Become(next: C.Cache)
      requires Linked(head, lru) && Shows(lru, next.slots) && C.Inv(next)
      requires next.dev == dev && next.disk == disk
      requires trace != [] && trace[|trace| - 1] == disk
      modifies this`model
      ensures model == next && Valid()
    {
      model := next;
    }

    ghost method Got(blockno: nat, i: nat)
      requires C.Inv(model) && blockno < |disk| && C.CanGet(model, blockno)
      requires i == if C.Cached(model, blockno) then C.Find(model, blockno) else C.Victim(model.slots)
      requires Linked(head, lru) && Shows(lru, C.Get(model, blockno).slots)
      requires model.dev == dev && model.disk == disk
      requires trace != [] && trace[|trace| - 1] == disk
      modifies this`model
      ensures Valid() && model == C.Get(old(model), blockno)
      ensures C.Cached(model, blockno) && i == C.Find(model, blockno)
    {
      C.GetKeeps(model, blockno);
      C.GetFinds(model, blockno, i);
      hide C.Inv, C.Get, Linked, Shows;
      model := C.Get(model, blockno);
    }

    // The part of bget() under bcache.lock. A null result is the panic
    // "bget: no buffers".
    method Get(blockno: nat) returns (b: Buf?)
      requires Valid() && blockno < |disk|
      modifies this`model, lru`dev, lru`blockno, lru`valid, lru`refcnt, lru`users
      ensures Valid()
      ensures b == null <==> !old(C.CanGet(model, blockno))
      ensures b == null ==> model == old(model)
      ensures b != null ==> model == C.Get(old(model), blockno)
      ensures b != null ==> b in lru && Is(b, blockno)
      ensures forall x :: x in lru && old(x.refcnt) > 0 ==>
                x.refcnt > 0 && x.dev == old(x.dev) && x.blockno == old(x.blockno)
    {
      hide C.Inv, Linked, Shows;
      b := FindCached(blockno);
      if b != null {
        Share(b, blockno);
      } else {
        b := FindVictim();
        if b != null {
          Recycle(b, blockno);
        }
      }
    }

    // acquiresleep(&b->lock) and the disk read of bread().
    method LockAndFill(b: Buf, blockno: nat)
      requires Valid() && blockno < |disk| && Is(b, blockno)
      requires C.SlotOf(model, blockno).users > 0 && !b.locked
      modifies this`model, b`locked, b`valid, b`data
      ensures Valid() && model == C.LockAndFill(old(model), blockno) && Is(b, blockno)
      ensures b.data == C.Logical(old(model), blockno)
    {
      hide C.Inv;
      C.LockAndFillKeeps(model, blockno);
      b.locked := true;
      if !b.valid {
        b.data := disk[b.blockno];
        b.valid := true;
      }
      Become(C.LockAndFill(model, blockno));
    }

    // A null result is the panic of bget().
    method Bread(blockno: nat) returns (b: Buf?)
      requires Valid() && blockno < |disk|
      requires C.Cached(model, blockno) ==> !C.SlotOf(model, blockno).locked
      modifies this`model, lru`dev, lru`blockno, lru`valid, lru`refcnt, lru`users, lru`locked, lru`data
      ensures Valid()
      ensures b == null <==> !old(C.CanGet(model, blockno))
      ensures b == null ==> model == old(model)
      ensures b != null ==> C.Readable(old(model), blockno) && model == C.Read(old(model), blockno)
      ensures b != null ==> b in lru && Is(b, blockno) && b.data == C.Logical(old(model), blockno)
      ensures forall x :: x in lru && x != b ==> x.data == old(x.data)
      ensures forall x :: x in lru && old(x.refcnt) > 0 ==>
                x.refcnt > 0 && x.dev == old(x.dev) && x.blockno == old(x.blockno)
    {
      hide C.Inv, Linked, Shows;
      ghost var c := model;
      b := Get(blockno);
      if b != null {
        C.GetKeeps(c, blockno);
        C.GetTakes(c, blockno);
        LockAndFill(b, blockno);
      }
    }

    // memmove() into the data of a locked buffer.
    method Fill(b: Buf, data: Block, ghost blockno: nat)
      requires Valid() && blockno < |disk| && Is(b, blockno) && b.locked && b.valid
      modifies this`model, b`data
      ensures Valid() && model == C.Modify(old(model), blockno, data) && Is(b, blockno)
    {
      C.ModifyKeeps(model, blockno, data);
      b.data := data;
      Become(C.Modify(model, blockno, data));
    }

    method Bwrite(b: Buf, ghost blockno: nat)
      requires Valid() && blockno < |disk| && Is(b, blockno) && b.locked && b.valid
      modifies this`model, this`disk, this`trace
      ensures Valid() && model == C.Write(old(model), blockno) && Is(b, blockno)
      ensures trace == old(trace) + [disk] && disk == old(disk)[blockno := b.data]
    {
      C.WriteKeeps(model, blockno);
      disk := disk[b.blockno := b.data];
      trace := trace + [disk];
      Become(C.Write(model, blockno));
    }

    method Bpin(b: Buf, ghost blockno: nat)
      requires Valid() && blockno < |disk| && Is(b, blockno) && b.valid && !b.pinned
      modifies this`model, b`refcnt, b`pinned
      ensures Valid() && model == C.Pin(old(model), blockno) && Is(b, blockno)
    {
      hide C.Inv;
      C.PinKeeps(model, blockno);
      b.refcnt := b.refcnt + 1;
      b.pinned := true;
      Become(C.Pin(model, blockno));
    }

    method Bunpin(b: Buf, ghost blockno: nat)
      requires Valid() && blockno < |disk| && Is(b, blockno) && b.pinned
      modifies this`model, b`refcnt, b`pinned
      ensures Standing() && model == C.Unpin(old(model), blockno) && Is(b, blockno)
      ensures Valid() <==> (b.users == 0 ==> !old(C.Dirty(model, b.View())))
    {
      hide C.Inv;
      C.UnpinKeeps(model, blockno);
      b.refcnt := b.refcnt - 1;
      b.pinned := false;
      model := C.Unpin(model, blockno);
    }

    // Release the lock and the reference; an unreferenced buffer becomes the
    // most recently used one.
    method Brelse(b: Buf, ghost blockno: nat)
      requires Valid() && blockno < |disk| && Is(b, blockno) && b.locked
      modifies this`model, this`lru, b`locked, b`refcnt, b`users,
               head`prev, head`next, lru`prev, lru`next
      ensures Standing() && model == C.Release(old(model), blockno)
      ensures Valid() <==> (old(b.refcnt) == 1 ==> !old(C.Dirty(model, b.View())))
      ensures forall x :: x in lru <==> x in old(lru)
    {
      hide Linked;
      ghost var i := C.Find(model, blockno);
      ghost var s := C.Dropped(model.slots[i]);
      DropReference(b, i);
      if b.refcnt == 0 {
        Requeue(b, i, s);
      }
      Released(blockno, s);
    }

    method Requeue(b: Buf, ghost i: nat, ghost s: C.Slot)
      requires Linked(head, lru) && i < |lru| == |model.slots| && b == lru[i]
      requires Shows(lru, model.slots[i := s])
      modifies this`lru, head`prev, head`next, lru`prev, lru`next
      ensures Linked(head, lru) && Shows(lru, C.Moved(model, i, s).slots)
      ensures forall x :: x in lru <==> x in old(lru)
    {
      hide Linked;
      ghost var was := lru;
      MoveToFront(b, i);
      assert Shows(was, model.slots[i := s]);
      ShowsMoved(was, model, i, s);
    }

    ghost method Released(blockno: nat, s: C.Slot)
      requires C.Inv(model) && blockno < |disk| && C.Cached(model, blockno)
      requires C.SlotOf(model, blockno).locked && C.SlotOf(model, blockno).users > 0
      requires s == C.Dropped(C.SlotOf(model, blockno))
      requires Linked(head, lru)
      requires Shows(lru, if s.refcnt == 0 then C.Moved(model, C.Find(model, blockno), s).slots
                          else model.slots[C.Find(model, blockno) := s])
      requires model.dev == dev && model.disk == disk
      requires trace != [] && trace[|trace| - 1] == disk
      modifies this`model
      ensures Standing() && model == C.Release(old(model), blockno)
      ensures Valid() <==> old(C.SlotOf(model, blockno).refcnt == 1 ==> !C.Dirty(model, C.SlotOf(model, blockno)))
    {
      C.ReleaseKeeps(model, blockno);
      hide C.Inv;
      model := C.Release(model, blockno);
    }

    method DropReference(b: Buf, ghost i: nat)
      requires Linked(head, lru) && Shows(lru, model.slots) && i < |lru| && b == lru[i] && b.users > 0
      modifies b`locked, b`refcnt, b`users
      ensures Linked(head, lru)
      ensures b.refcnt == old(b.refcnt) - 1
      ensures Shows(lru, model.slots[i := C.Dropped(model.slots[i])])
    {
      b.locked := false;
      b.refcnt := b.refcnt - 1;
      b.users := b.users - 1;
    }

    method MoveToFront(b: Buf, ghost i: nat)
      requires Linked(head, lru) && i < |lru| && b == lru[i]
      modifies this`lru, head`prev, head`next, lru`prev, lru`next
      ensures Linked(head, lru) && lru == [b] + Without(old(lru), i)
    {
      ghost var rest := Without(lru, i);
      Unlink(head, lru, b, i);
      PushFront(head, rest, b);
      lru := [b] + rest;
    }
  }

  lemma ShowsMoved(s: seq<Buf>, c: C.Cache, i: nat, slot: C.Slot)
    requires i < |s| && |s| == |c.slots| && Shows(s, c.slots[i := slot])
    ensures Shows([s[i]] + Without(s, i), C.Moved(c, i, slot).slots)
  {
    var t, d := [s[i]] + Without(s, i), C.Moved(c, i, slot).slots;
    forall k | 0 <= k < |t| ensures t[k].View() == d[k] {
      assert t[k] == s[C.Origin(i, k)];
    }
  }
}
