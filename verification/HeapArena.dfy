// The heap behind malloc and free (user/umalloc.c), as values. Addresses count
// units of one Header (16 bytes).
module HeapArena {
  const BASE: nat := 1

  datatype Header = Header(ptr: nat, size: nat)

  // ---- blocks: a partition of the units obtained from sbrk ----

  // blocks: start to size; cover: unit to the start of its block.
  datatype Parts = Parts(blocks: map<nat, nat>, cover: map<nat, nat>)

  predicate Within(s: Parts, a: nat, u: nat) {
    a in s.blocks && a <= u < a + s.blocks[a]
  }

  // Every unit belongs to exactly one block, and blocks hold no other units.
  ghost predicate Partition(s: Parts) {
    && (forall a, u :: Within(s, a, u) ==> u in s.cover && s.cover[u] == a)
    && (forall u :: u in s.cover ==> u > BASE && Within(s, s.cover[u], u))
    && (forall a :: a in s.blocks ==> s.blocks[a] >= 1)
  }

  lemma {:induction false} Apart(s: Parts, a: nat, b: nat)
    requires Partition(s) && a in s.blocks && b in s.blocks && a < b
    ensures a + s.blocks[a] <= b
  {
    assert Within(s, b, b);
    assert !Within(s, a, b);
  }

  lemma {:induction false} AboveBase(s: Parts, a: nat)
    requires Partition(s) && a in s.blocks
    ensures a > BASE
  {
    assert Within(s, a, a);
  }

  function Recover(cover: map<nat, nat>, lo: nat, hi: nat, a: nat): (r: map<nat, nat>)
    ensures r.Keys == cover.Keys
    ensures forall u :: u in cover ==> r[u] == if lo <= u < hi then a else cover[u]
  {
    map u | u in cover :: if lo <= u < hi then a else cover[u]
  }

  // Block p keeps rest units; the others become a block of their own.
  function Split(s: Parts, p: nat, rest: nat): Parts
    requires p in s.blocks && rest < s.blocks[p]
  {
    var n := s.blocks[p] - rest;
    Parts(s.blocks[p := rest][p + rest := n], Recover(s.cover, p + rest, p + rest + n, p + rest))
  }

  lemma {:induction false} SplitKeeps(s: Parts, p: nat, rest: nat)
    requires Partition(s) && p in s.blocks && 1 <= rest < s.blocks[p]
    ensures Partition(Split(s, p, rest)) && p + rest !in s.blocks
    ensures Split(s, p, rest).cover.Keys == s.cover.Keys
  {
    var s' := Split(s, p, rest);
    var b := p + rest;
    assert Within(s, p, b);
    if b in s.blocks { assert Within(s, b, b); }
    forall a: nat, u: nat | Within(s', a, u) ensures u in s'.cover && s'.cover[u] == a {
      if a == b {
        assert Within(s, p, u);
      } else {
        assert Within(s, a, u);
        assert Within(s, p, u) <==> p <= u < p + s.blocks[p];
      }
    }
    forall u | u in s'.cover ensures Within(s', s'.cover[u], u) {
      assert Within(s, s.cover[u], u);
    }
  }

  // Block p swallows the block right behind it.
  function Merge(s: Parts, p: nat): Parts
    requires p in s.blocks && p + s.blocks[p] in s.blocks && s.blocks[p] >= 1
  {
    var q := p + s.blocks[p];
    Parts((s.blocks - {q})[p := s.blocks[p] + s.blocks[q]], Recover(s.cover, q, q + s.blocks[q], p))
  }

  lemma {:induction false} MergeKeeps(s: Parts, p: nat)
    requires Partition(s) && p in s.blocks && p + s.blocks[p] in s.blocks
    ensures Partition(Merge(s, p)) && Merge(s, p).cover.Keys == s.cover.Keys
  {
    var s' := Merge(s, p);
    var q := p + s.blocks[p];
    forall a: nat, u: nat | Within(s', a, u) ensures u in s'.cover && s'.cover[u] == a {
      if a == p {
        assert Within(s, p, u) || Within(s, q, u);
      } else {
        assert Within(s, a, u);
        assert Within(s, q, u) <==> q <= u < q + s.blocks[q];
      }
    }
    forall u | u in s'.cover ensures Within(s', s'.cover[u], u) {
      assert Within(s, s.cover[u], u);
      assert Within(s, q, u) <==> q <= u < q + s.blocks[q];
    }
  }

  // n units from lo on, all of block a.
  function Span(lo: nat, n: nat, a: nat): (r: map<nat, nat>)
    ensures forall u :: u in r <==> lo <= u < lo + n
    ensures forall u :: u in r ==> r[u] == a
  {
    if n == 0 then map[] else Span(lo, n - 1, a)[lo + n - 1 := a]
  }

  // A new block of units never obtained before.
  function Grow(s: Parts, p: nat, n: nat): Parts {
    Parts(s.blocks[p := n], s.cover + Span(p, n, p))
  }

  lemma {:induction false} GrowKeeps(s: Parts, p: nat, n: nat)
    requires Partition(s) && p > BASE && n >= 1 && forall u :: u in s.cover ==> u < p
    ensures Partition(Grow(s, p, n)) && p !in s.blocks
    ensures forall u :: u in Grow(s, p, n).cover <==> u in s.cover || p <= u < p + n
  {
    var s' := Grow(s, p, n);
    if p in s.blocks { assert Within(s, p, p); }
    forall a: nat, u: nat | Within(s', a, u) ensures u in s'.cover && s'.cover[u] == a {
      if a != p { assert Within(s, a, u); }
    }
    forall u | u in s'.cover ensures Within(s', s'.cover[u], u) {
      if !(p <= u < p + n) { assert Within(s, s.cover[u], u); }
    }
  }

  // ---- the free list ----

  // mem: the headers; ring: the free list from &base on; live: the blocks handed
  // out.
  datatype Arena = Arena(mem: map<nat, Header>, ring: seq<nat>, live: set<nat>, parts: Parts)

  // From &base on, the ptr fields visit the ring by ascending address and return.
  predicate RingOk(mem: map<nat, Header>, ring: seq<nat>) {
    && |ring| >= 1 && ring[0] == BASE && BASE in mem
    && (forall i, j :: 0 <= i < j < |ring| ==> ring[i] < ring[j])
    && (forall i :: 0 <= i < |ring| ==> LinkAt(mem, ring, i))
    && mem[BASE].size == 0
  }

  predicate LinkAt(mem: map<nat, Header>, ring: seq<nat>, i: nat)
    requires i < |ring|
    ensures LinkAt(mem, ring, i) ==> ring[i] in mem
  {
    ring[i] in mem && mem[ring[i]].ptr == (if i + 1 < |ring| then ring[i + 1] else BASE)
  }

  function Frees(ring: seq<nat>): set<nat> {
    set a | a in ring && a != BASE
  }

  // The blocks are the live ones and the ring's, and their headers give the sizes.
  predicate Linked(s: Arena) {
    && s.parts.blocks.Keys == s.live + Frees(s.ring)
    && s.live !! Frees(s.ring)
    && forall a :: a in s.parts.blocks ==> a in s.mem && s.mem[a].size == s.parts.blocks[a]
  }

  predicate Touches(s: Arena, i: nat)
    requires RingOk(s.mem, s.ring)
  {
    1 <= i < |s.ring| - 1 && s.ring[i] in s.mem && s.ring[i] + s.mem[s.ring[i]].size == s.ring[i + 1]
  }

  // No two free blocks touch, leaving out ring positions from lo to hi.
  predicate Coalesced(s: Arena, lo: nat, hi: nat)
    requires RingOk(s.mem, s.ring)
  {
    forall i :: 1 <= i < |s.ring| - 1 && !(lo <= i < hi) ==> !Touches(s, i)
  }

  ghost predicate Shape(s: Arena) {
    RingOk(s.mem, s.ring) && Linked(s) && Partition(s.parts)
  }

  ghost predicate Inv(s: Arena) {
    Shape(s) && Coalesced(s, 0, 0)
  }

  // ---- ring positions ----

  function Without(ring: seq<nat>, i: nat): seq<nat>
    requires i < |ring|
  {
    ring[..i] + ring[i + 1..]
  }

  lemma {:induction false} WithoutFrees(ring: seq<nat>, i: nat)
    requires i < |ring| && forall j, k :: 0 <= j < k < |ring| ==> ring[j] < ring[k]
    ensures Frees(Without(ring, i)) == Frees(ring) - {ring[i]}
  {
    var r := Without(ring, i);
    forall a ensures a in Frees(r) <==> a in Frees(ring) && a != ring[i] {
      if a in ring && a != ring[i] {
        var j :| 0 <= j < |ring| && ring[j] == a;
        assert r[if j < i then j else j - 1] == a;
      }
    }
  }

  lemma {:induction false} WithoutRing(mem: map<nat, Header>, ring: seq<nat>, i: nat, size: nat)
    requires RingOk(mem, ring) && 1 <= i < |ring| && (i == 1 ==> size == 0)
    requires ring[i] in mem
    ensures RingOk(mem[ring[i - 1] := Header(mem[ring[i]].ptr, size)], Without(ring, i))
    ensures Frees(Without(ring, i)) == Frees(ring) - {ring[i]}
  {
    WithoutFrees(ring, i);
    var r := Without(ring, i);
    var mem' := mem[ring[i - 1] := Header(mem[ring[i]].ptr, size)];
    assert LinkAt(mem, ring, i);
    forall j | 0 <= j < |r| ensures r[j] == if j < i then ring[j] else ring[j + 1] {}
    forall j | 0 <= j < |r| ensures LinkAt(mem', r, j) {
      assert LinkAt(mem, ring, if j < i then j else j + 1);
    }
  }

  function With(ring: seq<nat>, i: nat, b: nat): (r: seq<nat>)
    requires i <= |ring|
    ensures |r| == |ring| + 1
  {
    ring[..i] + [b] + ring[i..]
  }

  lemma {:induction false} WithAt(ring: seq<nat>, t: nat, b: nat, j: nat)
    requires t < |ring| && j <= |ring|
    ensures With(ring, t + 1, b)[j] == if j <= t then ring[j] else if j == t + 1 then b else ring[j - 1]
  {
  }

  lemma {:induction false} WithFrees(ring: seq<nat>, t: nat, b: nat)
    requires t < |ring| && b != BASE
    ensures Frees(With(ring, t + 1, b)) == Frees(ring) + {b}
  {
  }

  lemma {:induction false} WithSorted(ring: seq<nat>, t: nat, b: nat)
    requires t < |ring| && ring[t] < b && (t + 1 < |ring| ==> b < ring[t + 1])
    requires forall i, j :: 0 <= i < j < |ring| ==> ring[i] < ring[j]
    ensures var r := With(ring, t + 1, b); forall i, j :: 0 <= i < j < |r| ==> r[i] < r[j]
    ensures b !in ring
  {
    var r := With(ring, t + 1, b);
    forall i, j | 0 <= i < j < |r| ensures r[i] < r[j] {
      WithAt(ring, t, b, i);
      WithAt(ring, t, b, j);
    }
    forall j | 0 <= j < |ring| ensures ring[j] != b {}
  }

  lemma {:induction false} WithLink(mem: map<nat, Header>, ring: seq<nat>, t: nat, b: nat, size: nat, j: nat)
    requires t < |ring| && ring[t] in mem && LinkAt(mem, ring, t) && b !in ring && j <= |ring|
    requires j != t + 1 ==> LinkAt(mem, ring, if j <= t then j else j - 1)
    requires forall i :: 0 <= i < |ring| && i != t ==> ring[i] != ring[t]
    ensures var p := ring[t];
            LinkAt(mem[b := Header(mem[p].ptr, size)][p := mem[p].(ptr := b)], With(ring, t + 1, b), j)
  {
    WithAt(ring, t, b, j);
    if j < |ring| { WithAt(ring, t, b, j + 1); }
  }

  lemma {:induction false} WithRing(mem: map<nat, Header>, ring: seq<nat>, t: nat, b: nat, size: nat)
    requires RingOk(mem, ring) && t < |ring| && ring[t] in mem && ring[t] < b && (t + 1 < |ring| ==> b < ring[t + 1])
    ensures var p := ring[t];
            RingOk(mem[b := Header(mem[p].ptr, size)][p := mem[p].(ptr := b)], With(ring, t + 1, b))
    ensures Frees(With(ring, t + 1, b)) == Frees(ring) + {b} && b !in ring
  {
    WithSorted(ring, t, b);
    assert b > BASE by { assert t > 0 ==> ring[0] < ring[t]; }
    WithFrees(ring, t, b);
    WithAt(ring, t, b, 0);
    var p := ring[t];
    var mem' := mem[b := Header(mem[p].ptr, size)][p := mem[p].(ptr := b)];
    var r := With(ring, t + 1, b);
    hide With, Frees, LinkAt;
    forall j | 0 <= j < |r| ensures LinkAt(mem', r, j) {
      assert LinkAt(mem, ring, t);
      assert j != t + 1 ==> LinkAt(mem, ring, if j <= t then j else j - 1);
      WithLink(mem, ring, t, b, size, j);
    }
  }

  // ---- the steps of malloc and free ----

  lemma {:induction false} NodeIsBlock(s: Arena, i: nat)
    requires Shape(s) && 1 <= i < |s.ring|
    ensures s.ring[i] in s.mem && s.ring[i] in s.parts.blocks && s.ring[i] > BASE && s.ring[i] !in s.live
    ensures s.mem[s.ring[i]].size == s.parts.blocks[s.ring[i]] >= 1
  {
    assert s.ring[0] < s.ring[i];
    assert s.ring[i] in Frees(s.ring);
  }

  lemma {:induction false} NodeInMem(s: Arena, i: nat)
    requires RingOk(s.mem, s.ring) && i < |s.ring|
    ensures s.ring[i] in s.mem
  {
    assert LinkAt(s.mem, s.ring, i);
  }

  // Block ring[i] is handed out whole.
  function TakeWhole(s: Arena, i: nat): Arena
    requires 1 <= i < |s.ring| && s.ring[i] in s.mem && s.ring[i - 1] in s.mem
  {
    var p, prev := s.ring[i], s.ring[i - 1];
    Arena(s.mem[prev := Header(s.mem[p].ptr, s.mem[prev].size)], Without(s.ring, i), s.live + {p}, s.parts)
  }

  lemma {:induction false} TakeWholeKeeps(s: Arena, i: nat)
    requires Inv(s) && 1 <= i < |s.ring|
    ensures s.ring[i] in s.mem && s.ring[i - 1] in s.mem && Inv(TakeWhole(s, i))
  {
    NodeIsBlock(s, i);
    NodeInMem(s, i - 1);
    var s' := TakeWhole(s, i);
    WithoutRing(s.mem, s.ring, i, s.mem[s.ring[i - 1]].size);
    assert Linked(s');
    hide Linked, Partition;
    forall j | 1 <= j < |s'.ring| - 1 ensures !Touches(s', j) {
      assert !Touches(s, if j < i then j else j + 1);
      if j == i - 1 {
        NodeIsBlock(s, i);
        GapBehind(s, j);
      }
    }
  }

  // What lies behind a free block lies behind its end.
  lemma {:induction false} GapBehind(s: Arena, i: nat)
    requires Shape(s) && 1 <= i < |s.ring| - 1
    ensures s.ring[i] in s.mem && s.ring[i] + s.mem[s.ring[i]].size <= s.ring[i + 1]
  {
    NodeIsBlock(s, i);
    NodeIsBlock(s, i + 1);
    Apart(s.parts, s.ring[i], s.ring[i + 1]);
  }

  function Stale(mem: map<nat, Header>, b: nat): nat {
    if b in mem then mem[b].ptr else 0
  }

  // The last n units of block ring[i] are handed out.
  function TakeTail(s: Arena, i: nat, n: nat): Arena
    requires i < |s.ring| && s.ring[i] in s.mem && s.ring[i] in s.parts.blocks
    requires 1 <= n < s.mem[s.ring[i]].size == s.parts.blocks[s.ring[i]]
  {
    var p := s.ring[i];
    var rest := s.mem[p].size - n;
    Arena(TailMem(s.mem, p, n), s.ring, s.live + {p + rest}, Split(s.parts, p, rest))
  }

  function TailMem(mem: map<nat, Header>, p: nat, n: nat): map<nat, Header>
    requires p in mem && n < mem[p].size
  {
    var b := p + mem[p].size - n;
    mem[p := mem[p].(size := mem[p].size - n)][b := Header(Stale(mem, b), n)]
  }

  lemma {:induction false} TakeTailKeeps(s: Arena, i: nat, n: nat)
    requires Inv(s) && 1 <= i < |s.ring|
    requires s.ring[i] in s.mem && 1 <= n < s.mem[s.ring[i]].size
    ensures s.ring[i] in s.parts.blocks && s.mem[s.ring[i]].size == s.parts.blocks[s.ring[i]]
    ensures var s' := TakeTail(s, i, n);
            && Inv(s') && s'.parts.cover.Keys == s.parts.cover.Keys
            && s.ring[i] + s.mem[s.ring[i]].size - n !in s.live
  {
    NodeIsBlock(s, i);
    var s' := TakeTail(s, i, n);
    var p := s.ring[i];
    var b := p + s.mem[p].size - n;
    SplitKeeps(s.parts, p, b - p);
    assert b !in s.ring;
    forall j | 0 <= j < |s.ring| ensures LinkAt(s'.mem, s'.ring, j) {
      assert LinkAt(s.mem, s.ring, j);
    }
    assert RingOk(s'.mem, s'.ring);
    assert Linked(s');
    forall j | 1 <= j < |s'.ring| - 1 ensures !Touches(s', j) {
      assert !Touches(s, j);
      GapBehind(s, j);
    }
  }

  // Live block b is linked in behind ring[t].
  function Insert(s: Arena, t: nat, b: nat): Arena
    requires t < |s.ring| && s.ring[t] in s.mem && b in s.mem
  {
    var p := s.ring[t];
    Arena(s.mem[b := Header(s.mem[p].ptr, s.mem[b].size)][p := s.mem[p].(ptr := b)], With(s.ring, t + 1, b),
          s.live - {b}, s.parts)
  }

  lemma {:induction false} InsertKeeps(s: Arena, t: nat, b: nat)
    requires Inv(s) && t < |s.ring| && b in s.live && s.ring[t] < b && (t + 1 < |s.ring| ==> b < s.ring[t + 1])
    ensures s.ring[t] in s.mem && b in s.mem
    ensures Shape(Insert(s, t, b)) && Coalesced(Insert(s, t, b), t, t + 2)
  {
    NodeInMem(s, t);
    var s' := Insert(s, t, b);
    WithRing(s.mem, s.ring, t, b, s.mem[b].size);
    assert Linked(s');
    forall j | 1 <= j < |s'.ring| - 1 && !(t <= j < t + 2) ensures !Touches(s', j) {
      assert !Touches(s, if j < t then j else j - 1);
      assert s'.ring[j] == s.ring[if j < t then j else j - 1] && s'.ring[j + 1] == s.ring[if j < t then j + 1 else j];
      assert s'.ring[j] != b;
    }
  }

  // ring[i] swallows ring[i + 1], which touches it.
  function MergeNext(s: Arena, i: nat): Arena
    requires Mergeable(s, i)
  {
    var a, b := s.ring[i], s.ring[i + 1];
    Arena(s.mem[a := Header(s.mem[b].ptr, s.mem[a].size + s.mem[b].size)], Without(s.ring, i + 1), s.live,
          Merge(s.parts, a))
  }

  predicate Mergeable(s: Arena, i: nat) {
    && i + 1 < |s.ring| && s.ring[i] in s.mem && s.ring[i + 1] in s.mem
    && s.ring[i] in s.parts.blocks && s.ring[i + 1] in s.parts.blocks
    && s.ring[i + 1] == s.ring[i] + s.parts.blocks[s.ring[i]] && s.parts.blocks[s.ring[i]] >= 1
  }

  lemma {:induction false} MergeLinked(s: Arena, i: nat)
    requires Linked(s) && Mergeable(s, i) && s.ring[i] != BASE && s.ring[i + 1] != BASE
    requires forall j, k :: 0 <= j < k < |s.ring| ==> s.ring[j] < s.ring[k]
    ensures Linked(MergeNext(s, i))
  {
    WithoutFrees(s.ring, i + 1);
    assert s.ring[i] in Frees(s.ring) && s.ring[i + 1] in Frees(s.ring);
    hide Frees;
  }

  lemma {:induction false} MergeRing(s: Arena, i: nat)
    requires RingOk(s.mem, s.ring) && Mergeable(s, i) && s.ring[i] != BASE
    ensures RingOk(MergeNext(s, i).mem, MergeNext(s, i).ring)
  {
    WithoutRing(s.mem, s.ring, i + 1, s.mem[s.ring[i]].size + s.mem[s.ring[i + 1]].size);
  }

  lemma {:induction false} MergeParts(s: Arena, i: nat)
    requires Partition(s.parts) && Mergeable(s, i)
    ensures Partition(MergeNext(s, i).parts) && MergeNext(s, i).parts.cover.Keys == s.parts.cover.Keys
  {
    MergeKeeps(s.parts, s.ring[i]);
  }

  lemma {:induction false} MergeNextShape(s: Arena, i: nat)
    requires Shape(s) && Touches(s, i)
    ensures Mergeable(s, i) && Shape(MergeNext(s, i)) && MergeNext(s, i).parts.cover.Keys == s.parts.cover.Keys
  {
    NodeIsBlock(s, i);
    NodeIsBlock(s, i + 1);
    assert Mergeable(s, i);
    hide Frees, Linked, Partition, RingOk, Touches, Mergeable, MergeNext;
    RingSorted(s);
    MergeLinked(s, i);
    MergeRing(s, i);
    MergeParts(s, i);
  }

  lemma {:induction false} RingSorted(s: Arena)
    requires RingOk(s.mem, s.ring)
    ensures forall j, k :: 0 <= j < k < |s.ring| ==> s.ring[j] < s.ring[k]
  {
  }

  // After the merge, position j touches what position k touched before.
  lemma {:induction false} MergeApart(s: Arena, i: nat, j: nat, k: nat)
    requires RingOk(s.mem, s.ring) && Mergeable(s, i) && RingOk(MergeNext(s, i).mem, MergeNext(s, i).ring)
    requires 1 <= j < |s.ring| - 2 && k == (if j < i then j else j + 1) && !Touches(s, k)
    requires s.mem[s.ring[i]].size == s.parts.blocks[s.ring[i]]
    ensures !Touches(MergeNext(s, i), j)
  {
    var s' := MergeNext(s, i);
    assert s'.ring[j] == s.ring[if j <= i then j else j + 1] && s'.ring[j + 1] == s.ring[k + 1];
    NodeInMem(s, k);
    NodeInMem(s, j);
    RingSorted(s);
    hide RingOk, Merge;
  }

  lemma {:induction false} MergeNextKeeps(s: Arena, i: nat, lo: nat)
    requires Shape(s) && Touches(s, i) && lo <= i && Coalesced(s, lo, i + 1)
    ensures Mergeable(s, i)
    ensures var s' := MergeNext(s, i);
            && Shape(s') && Coalesced(s', lo, i) && s'.parts.cover.Keys == s.parts.cover.Keys
  {
    MergeNextShape(s, i);
    NodeIsBlock(s, i);
    hide Linked, Partition, RingOk, Coalesced, Frees, Merge, Touches, Mergeable;
    forall j | 1 <= j < |s.ring| - 2 && !(lo <= j < i) ensures !Touches(MergeNext(s, i), j) {
      var k := if j < i then j else j + 1;
      NoTouch(s, lo, i + 1, k);
      MergeApart(s, i, j, k);
    }
    AllApart(MergeNext(s, i), lo, i);
  }

  lemma {:induction false} NoTouch(s: Arena, lo: nat, hi: nat, k: nat)
    requires RingOk(s.mem, s.ring) && Coalesced(s, lo, hi) && 1 <= k < |s.ring| - 1 && !(lo <= k < hi)
    ensures !Touches(s, k)
  {
  }

  lemma {:induction false} AllApart(s: Arena, lo: nat, hi: nat)
    requires RingOk(s.mem, s.ring)
    requires forall j :: 1 <= j < |s.ring| - 1 && !(lo <= j < hi) ==> !Touches(s, j)
    ensures Coalesced(s, lo, hi)
  {
  }
}
