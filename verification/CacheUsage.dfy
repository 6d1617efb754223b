// How the log occupies the buffer cache: which blocks it has pinned, which
// buffers the running process holds, and that the rest is clean and free.
module CacheUsage {
  import opened WriteAheadLog
  import opened BufferCache
  import opened Prelude

  // Exactly the blocks in held are locked, by one process each, and exactly
  // the blocks in pins are pinned.
  predicate SlotUse(c: Cache, s: Slot, pins: seq<nat>, held: set<nat>) {
    var here := s.dev == c.dev;
    && s.users == (if here && s.blockno in held then 1 else 0)
    && s.locked == (here && s.blockno in held)
    && s.pinned == (here && s.blockno in pins)
    && (s.locked ==> s.valid)
  }

  predicate Usage(c: Cache, pins: seq<nat>, held: set<nat>) {
    && Inv(c)
    && (forall i :: 0 <= i < |c.slots| ==> SlotUse(c, c.slots[i], pins, held))
    && (forall n :: n in pins ==> Cached(c, n) && n < |c.disk|)
    && (forall n :: n in held ==> Cached(c, n) && n < |c.disk|)
  }

  // A cache that has just been set up.
  lemma {:induction false} FreshUsage(dev: nat, n: nat, disk: Disk)
    requires dev != NO_DEVICE
    ensures Usage(Cache(dev, seq(n, i => UNUSED), disk), [], {})
  {
    FreshInv(dev, n, disk);
  }

  // A block nobody pinned or holds reads as it is on disk.
  lemma {:induction false} UnusedIsClean(c: Cache, pins: seq<nat>, held: set<nat>, n: nat)
    requires Usage(c, pins, held) && n < |c.disk| && n !in pins && n !in held
    ensures Logical(c, n) == c.disk[n]
  {
    var i := Find(c, n);
    if i >= 0 {
      assert SlotUse(c, c.slots[i], pins, held);
      assert SlotOk(c, c.slots[i]);
    }
  }

  lemma {:induction false} UseOf(c: Cache, pins: seq<nat>, held: set<nat>, n: nat)
    requires Usage(c, pins, held) && Cached(c, n)
    ensures SlotUse(c, SlotOf(c, n), pins, held) && SlotOk(c, SlotOf(c, n))
    ensures SlotOf(c, n).dev == c.dev && SlotOf(c, n).blockno == n
  {
  }

  // Replacing the slot of block n by one that is used as pins and held say.
  lemma {:induction false} PutUsage(c: Cache, pins: seq<nat>, held: set<nat>, n: nat, s: Slot,
                                    pins': seq<nat>, held': set<nat>)
    requires Usage(c, pins, held) && n < |c.disk| && Cached(c, n) && Holds(c, s, n) && SlotOk(c, s)
    requires forall m :: m != n ==> (m in pins <==> m in pins') && (m in held <==> m in held')
    requires SlotUse(c, s, pins', held')
    ensures Usage(Put(c, n, s), pins', held')
  {
    var d := Put(c, n, s);
    PutFrame(c, n, s);
    OnlyOne(c, n);
    forall i | 0 <= i < |d.slots| ensures SlotUse(d, d.slots[i], pins', held') {
      assert SlotUse(c, c.slots[i], pins, held);
    }
    forall m | m in pins' || m in held' ensures Cached(d, m) && m < |d.disk| {
      assert m == n || m in pins || m in held;
      assert Find(d, m) == Find(c, m);
    }
  }

  lemma {:induction false} TakeUsage(c: Cache, pins: seq<nat>, held: set<nat>, n: nat)
    requires Usage(c, pins, held) && n < |c.disk| && n !in held && CanGet(c, n)
    ensures Readable(c, n)
    ensures Usage(Read(c, n), pins, held + {n}) && SameLogical(c, Read(c, n))
    ensures Read(c, n).disk == c.disk && |Read(c, n).slots| == |c.slots|
  {
    var d := Get(c, n);
    GetKeeps(c, n);
    GetTakes(c, n);
    LockAndFillKeeps(d, n);
    if Cached(c, n) {
      UseOf(c, pins, held, n);
    }
    assert !SlotOf(d, n).locked;
    TakeSlots(c, pins, held, n);
  }

  lemma {:induction false} TakeSlots(c: Cache, pins: seq<nat>, held: set<nat>, n: nat)
    requires Usage(c, pins, held) && n < |c.disk| && n !in held && CanGet(c, n)
    requires Inv(Get(c, n)) && Readable(c, n)
    requires Inv(Read(c, n)) && forall m: nat :: Find(Read(c, n), m) == Find(Get(c, n), m)
    ensures Usage(Read(c, n), pins, held + {n})
  {
    var d := Get(c, n);
    var e := Read(c, n);
    var k := Find(d, n);
    var v := if Cached(c, n) then Find(c, n) else Victim(c.slots);
    FindIs(d, n, v);
    OnlyOne(d, n);
    if Cached(c, n) { UseOf(c, pins, held, n); }
    forall i | 0 <= i < |e.slots| ensures SlotUse(e, e.slots[i], pins, held + {n}) {
      if i == v {
        assert SlotUse(c, c.slots[i], pins, held) && SlotOk(c, c.slots[i]);
        assert n in pins ==> Cached(c, n);
      } else {
        assert e.slots[i] == c.slots[i];
        assert SlotUse(c, c.slots[i], pins, held);
        assert !Holds(d, d.slots[i], n);
      }
    }
    forall m | m in pins || m in held + {n} ensures Cached(e, m) && m < |e.disk| {
      if m != n {
        UseOf(c, pins, held, m);
        GetKeeps(c, n);
      }
    }
  }

  // Changing a held block touches no other block and not the disk.
  lemma {:induction false} ModifyUsage(c: Cache, pins: seq<nat>, held: set<nat>, n: nat, data: Block)
    requires Usage(c, pins, held) && n in held
    ensures Cached(c, n) && Usage(Modify(c, n, data), pins, held)
    ensures Logical(Modify(c, n, data), n) == data == SlotOf(Modify(c, n, data), n).data
    ensures forall m :: 0 <= m < |c.disk| && m != n ==> Logical(Modify(c, n, data), m) == Logical(c, m)
  {
    UseOf(c, pins, held, n);
    PutUsage(c, pins, held, n, SlotOf(c, n).(data := data), pins, held);
    ModifyKeeps(c, n, data);
    PutFrame(c, n, SlotOf(c, n).(data := data));
  }

  lemma {:induction false} WriteUsage(c: Cache, pins: seq<nat>, held: set<nat>, n: nat)
    requires Usage(c, pins, held) && n in held
    ensures Cached(c, n) && n < |c.disk| && Usage(Write(c, n), pins, held) && SameLogical(c, Write(c, n))
    ensures Write(c, n).disk == c.disk[n := Logical(c, n)]
    ensures Cached(Write(c, n), n) && !Dirty(Write(c, n), SlotOf(Write(c, n), n))
  {
    UseOf(c, pins, held, n);
    WriteKeeps(c, n);
    var d := Write(c, n);
    forall i | 0 <= i < |d.slots| ensures SlotUse(d, d.slots[i], pins, held) {
      assert SlotUse(c, c.slots[i], pins, held);
    }
  }

  lemma {:induction false} PinUsage(c: Cache, pins: seq<nat>, held: set<nat>, n: nat)
    requires Usage(c, pins, held) && n in held && n !in pins
    ensures Cached(c, n) && Usage(Pin(c, n), pins + [n], held) && SameLogical(c, Pin(c, n))
  {
    UseOf(c, pins, held, n);
    var s := SlotOf(c, n);
    PutUsage(c, pins, held, n, s.(refcnt := s.refcnt + 1, pinned := true), pins + [n], held);
    PinKeeps(c, n);
  }

  lemma {:induction false} UnpinUsage(c: Cache, pins: seq<nat>, held: set<nat>, n: nat)
    requires Usage(c, pins, held) && n in held && pins != [] && n == pins[0] && n !in pins[1..]
    ensures Cached(c, n) && Usage(Unpin(c, n), pins[1..], held) && SameLogical(c, Unpin(c, n))
    ensures Cached(Unpin(c, n), n) && Dirty(Unpin(c, n), SlotOf(Unpin(c, n), n)) == Dirty(c, SlotOf(c, n))
  {
    UseOf(c, pins, held, n);
    var s := SlotOf(c, n);
    var t := s.(refcnt := s.refcnt - 1, pinned := false);
    assert forall m :: m in pins <==> m == n || m in pins[1..];
    PutUsage(c, pins, held, n, t, pins[1..], held);
    PutFrame(c, n, t);
    UnpinKeeps(c, n);
  }

  // A held block may be let go once it is pinned or on disk.
  lemma {:induction false} ReleaseUsage(c: Cache, pins: seq<nat>, held: set<nat>, n: nat)
    requires Usage(c, pins, held) && n in held && (n in pins || !Dirty(c, SlotOf(c, n)))
    ensures Cached(c, n) && SlotOf(c, n).users == 1 && SlotOf(c, n).locked
    ensures Usage(Release(c, n), pins, held - {n}) && SameLogical(c, Release(c, n))
    ensures Release(c, n).disk == c.disk && |Release(c, n).slots| == |c.slots|
    ensures forall m :: m != n && m in held ==> Cached(Release(c, n), m) && SlotOf(Release(c, n), m) == SlotOf(c, m)
  {
    UseOf(c, pins, held, n);
    ReleaseKeeps(c, n);
    var s := Dropped(SlotOf(c, n));
    if s.refcnt == 0 {
      MovedUsage(c, pins, held, n, s);
    } else {
      PutUsage(c, pins, held, n, s, pins, held - {n});
    }
  }

  lemma {:induction false} MovedUsage(c: Cache, pins: seq<nat>, held: set<nat>, n: nat, s: Slot)
    requires Usage(c, pins, held) && n in held && s == Dropped(SlotOf(c, n)) && s.refcnt == 0
    requires Inv(Release(c, n))
    requires forall m: nat :: m != n && Cached(c, m) ==> Cached(Release(c, n), m)
    ensures Usage(Release(c, n), pins, held - {n})
  {
    var i := Find(c, n);
    var d := Moved(c, i, s);
    UseOf(c, pins, held, n);
    OnlyOne(c, n);
    forall k | 0 <= k < |d.slots| ensures SlotUse(d, d.slots[k], pins, held - {n}) {
      assert SlotUse(c, c.slots[Origin(i, k)], pins, held);
      assert k > 0 ==> Origin(i, k) != i && d.slots[k] == c.slots[Origin(i, k)];
    }
  }

  // ---- buffers do not run out ----

  function Elements(s: seq<nat>): (r: set<nat>)
    ensures |r| <= |s|
    ensures forall n :: n in r <==> n in s
  {
    if s == [] then {} else
      assert s == [s[0]] + s[1..];
      {s[0]} + Elements(s[1..])
  }

  function Blocks(c: Cache, k: nat): (r: set<nat>)
    requires Inv(c) && k <= |c.slots| && forall i :: 0 <= i < k ==> c.slots[i].dev == c.dev
    ensures |r| == k
    ensures forall n :: n in r ==> exists i :: 0 <= i < k && c.slots[i].blockno == n
  {
    if k == 0 then {}
    else
      var r := Blocks(c, k - 1);
      assert c.slots[k - 1].blockno !in r;
      r + {c.slots[k - 1].blockno}
  }

  // With more buffers than pinned and held blocks, bget() finds one.
  lemma {:induction false} EnoughBuffers(c: Cache, pins: seq<nat>, held: set<nat>, n: nat)
    requires Usage(c, pins, held) && |pins| + |held| < |c.slots|
    ensures CanGet(c, n)
  {
    if Victim(c.slots) < 0 {
      forall i | 0 <= i < |c.slots| ensures c.slots[i].dev == c.dev && c.slots[i].blockno in Elements(pins) + held {
        assert SlotUse(c, c.slots[i], pins, held) && SlotOk(c, c.slots[i]);
      }
      var r := Blocks(c, |c.slots|);
      SubsetSize(r, Elements(pins) + held);
    }
  }
}
