// malloc, free and morecore (user/umalloc.c) on the heap of HeapArena.
module Malloc {
  import opened HeapArena

  // ---- what free does, in one piece ----

  function Upper(mem: map<nat, Header>, p: nat, bp: nat): Header
    requires p in mem && bp in mem && mem[p].ptr in mem
  {
    var next := mem[p].ptr;
    if bp + mem[bp].size == next then Header(mem[next].ptr, mem[bp].size + mem[next].size)
      else Header(next, mem[bp].size)
  }

  function Lower(p: nat, size: nat, bp: nat, upper: Header): Header {
    if p + size == bp then Header(upper.ptr, size + upper.size) else Header(bp, size)
  }

  // bp belongs right behind ring[t].
  predicate Place(ring: seq<nat>, t: nat, bp: nat) {
    t < |ring| && ring[t] < bp && (t + 1 < |ring| ==> bp < ring[t + 1])
  }

  lemma {:induction false} NextInMem(s: Arena, t: nat)
    requires RingOk(s.mem, s.ring) && t < |s.ring|
    ensures s.ring[t] in s.mem && s.mem[s.ring[t]].ptr == (if t + 1 < |s.ring| then s.ring[t + 1] else BASE)
    ensures s.mem[s.ring[t]].ptr in s.mem
  {
    assert LinkAt(s.mem, s.ring, t);
    if t + 1 < |s.ring| { assert LinkAt(s.mem, s.ring, t + 1); }
  }

  // The block at ring[i] after swallowing its neighbour if they touch.
  lemma {:induction false} MergeIf(s: Arena, i: nat, lo: nat) returns (r: Arena)
    requires Shape(s) && i < |s.ring| && lo <= i && Coalesced(s, lo, i + 1)
    ensures Shape(r) && Coalesced(r, lo, i) && r.live == s.live && r.parts.cover.Keys == s.parts.cover.Keys
    ensures i < |r.ring| && r.ring[..i + 1] == s.ring[..i + 1] && s.ring[i] in s.mem
    ensures Touches(s, i) ==>
              && s.ring[i + 1] in s.mem
              && r.mem == s.mem[s.ring[i] := Header(s.mem[s.ring[i + 1]].ptr,
                                                    s.mem[s.ring[i]].size + s.mem[s.ring[i + 1]].size)]
    ensures !Touches(s, i) ==> r.mem == s.mem && r.ring == s.ring
  {
    hide Linked, Partition, Coalesced, RingOk, Frees, Merge;
    NextInMem(s, i);
    if Touches(s, i) {
      NextInMem(s, i + 1);
      MergeNextKeeps(s, i, lo);
      r := MergeNext(s, i);
    } else {
      r := s;
      NotTouching(s, i, lo);
    }
  }

  lemma {:induction false} NotTouching(s: Arena, i: nat, lo: nat)
    requires RingOk(s.mem, s.ring) && lo <= i && Coalesced(s, lo, i + 1) && !Touches(s, i)
    ensures Coalesced(s, lo, i)
  {
  }

  lemma {:induction false} InsertTouches(s: Arena, t: nat, bp: nat)
    requires Inv(s) && Place(s.ring, t, bp) && bp in s.live
    ensures s.ring[t] in s.mem && bp in s.mem && s.mem[s.ring[t]].ptr in s.mem && bp != s.ring[t]
    ensures var s1, next := Insert(s, t, bp), s.mem[s.ring[t]].ptr;
            && Shape(s1) && Coalesced(s1, t, t + 2)
            && t + 1 < |s1.ring| && s1.ring[t] == s.ring[t] && s1.ring[t + 1] == bp
            && s1.mem == s.mem[bp := Header(next, s.mem[bp].size)][s.ring[t] := Header(bp, s.mem[s.ring[t]].size)]
            && (Touches(s1, t + 1) <==> bp + s.mem[bp].size == next)
            && (Touches(s1, t + 1) ==> s1.ring[t + 2] == next && next != bp && next != s.ring[t])
  {
    NextInMem(s, t);
    InsertKeeps(s, t, bp);
    hide Partition, Coalesced, Linked;
  }

  lemma {:induction false} Edits(mem: map<nat, Header>, p: nat, bp: nat, h: Header, h1: Header, h2: Header)
    requires p != bp
    ensures mem[bp := h][p := h1][bp := h2] == mem[bp := h2][p := h1]
    ensures mem[bp := h][p := h1][p := h2] == mem[bp := h][p := h2]
  {
  }

  lemma {:induction false} UpperEdit(mem: map<nat, Header>, mem1: map<nat, Header>, p: nat, bp: nat)
    requires p in mem && bp in mem && mem[p].ptr in mem && p != bp
    requires mem1 == mem[bp := Header(mem[p].ptr, mem[bp].size)][p := Header(bp, mem[p].size)]
    ensures bp + mem[bp].size != mem[p].ptr ==> mem1 == mem[bp := Upper(mem, p, bp)][p := Header(bp, mem[p].size)]
    ensures var next := mem[p].ptr;
            bp + mem[bp].size == next && next != p && next != bp ==>
              && next in mem1 && mem1[bp].size == mem[bp].size
              && mem1[bp := Header(mem1[next].ptr, mem1[bp].size + mem1[next].size)] ==
                 mem[bp := Upper(mem, p, bp)][p := Header(bp, mem[p].size)]
  {
    Edits(mem, p, bp, Header(mem[p].ptr, mem[bp].size), Header(bp, mem[p].size), Upper(mem, p, bp));
  }

  // Linking bp in and merging it with the block above it.
  lemma {:induction false} JoinUpper(s: Arena, t: nat, bp: nat) returns (r: Arena)
    requires Inv(s) && Place(s.ring, t, bp) && bp in s.live
    ensures s.ring[t] in s.mem && bp in s.mem && s.mem[s.ring[t]].ptr in s.mem && bp != s.ring[t]
    ensures Shape(r) && Coalesced(r, t, t + 1) && r.live == s.live - {bp} && r.parts.cover.Keys == s.parts.cover.Keys
    ensures r.mem == s.mem[bp := Upper(s.mem, s.ring[t], bp)][s.ring[t] := Header(bp, s.mem[s.ring[t]].size)]
    ensures t + 1 < |r.ring| && r.ring[t] == s.ring[t] && r.ring[t + 1] == bp
  {
    InsertTouches(s, t, bp);
    var s1 := Insert(s, t, bp);
    assert s1.live == s.live - {bp} && s1.parts == s.parts;
    hide Inv, Shape, Coalesced, Touches, RingOk, Linked, Partition, With, Upper, Insert;
    UpperEdit(s.mem, s1.mem, s.ring[t], bp);
    r := MergeIf(s1, t + 1, t);
    SamePrefix(r.ring, s1.ring, t);
  }

  lemma {:induction false} SamePrefix(r: seq<nat>, s: seq<nat>, t: nat)
    requires t + 2 <= |r| && t + 2 <= |s| && r[..t + 2] == s[..t + 2]
    ensures r[t] == s[t] && r[t + 1] == s[t + 1]
  {
    assert r[..t + 2][t] == r[t] && r[..t + 2][t + 1] == r[t + 1];
    assert s[..t + 2][t] == s[t] && s[..t + 2][t + 1] == s[t + 1];
  }

  lemma {:induction false} LowerTouches(s: Arena, t: nat, bp: nat)
    requires Shape(s) && t + 1 < |s.ring| && s.ring[t + 1] == bp && s.ring[t] in s.mem
    ensures Touches(s, t) <==> s.ring[t] + s.mem[s.ring[t]].size == bp
  {
  }

  // Merging with the block below.
  lemma {:induction false} JoinLower(s: Arena, t: nat, bp: nat, mem: map<nat, Header>, u: Header, size: nat)
    returns (r: Arena)
    requires Shape(s) && Coalesced(s, t, t + 1) && t + 1 < |s.ring| && s.ring[t + 1] == bp != s.ring[t]
    requires s.mem == mem[bp := u][s.ring[t] := Header(bp, size)]
    ensures Shape(r) && Coalesced(r, t, t) && r.live == s.live && r.parts.cover.Keys == s.parts.cover.Keys
    ensures r.mem == mem[bp := u][s.ring[t] := Lower(s.ring[t], size, bp, u)]
    ensures t < |r.ring| && r.ring[t] == s.ring[t]
    ensures s.ring[t] + size != bp ==> t + 1 < |r.ring| && r.ring[t + 1] == bp
  {
    var p := s.ring[t];
    LowerTouches(s, t, bp);
    hide Shape, Coalesced, Touches, RingOk;
    r := MergeIf(s, t, t);
    assert r.ring[..t + 1][t] == s.ring[..t + 1][t];
    Edits(mem, p, bp, u, Header(bp, size), Header(u.ptr, size + u.size));
  }

  // The edits free makes to the headers are those of linking the block in and
  // merging it with its neighbours; a free block at least as large remains.
  lemma {:induction false} FreeKeeps(s: Arena, t: nat, bp: nat) returns (r: Arena)
    requires Inv(s) && Place(s.ring, t, bp) && bp in s.live
    ensures s.ring[t] in s.mem && bp in s.mem && s.mem[s.ring[t]].ptr in s.mem && bp != s.ring[t]
    ensures Inv(r) && r.live == s.live - {bp} && r.parts.cover.Keys == s.parts.cover.Keys
    ensures var p := s.ring[t]; var u := Upper(s.mem, p, bp);
            r.mem == s.mem[bp := u][p := Lower(p, s.mem[p].size, bp, u)]
    ensures s.ring[t] in r.ring
    ensures exists i :: 0 <= i < |r.ring| && r.ring[i] in r.mem && r.mem[r.ring[i]].size >= s.mem[bp].size
  {
    var s2 := JoinUpper(s, t, bp);
    var p, u := s.ring[t], Upper(s.mem, s.ring[t], bp);
    r := JoinLower(s2, t, bp, s.mem, u, s.mem[p].size);
    assert Coalesced(r, 0, 0);
    hide Inv, Coalesced, RingOk, Linked, Partition;
    if p + s.mem[p].size == bp {
      assert r.mem[r.ring[t]].size >= s.mem[bp].size;
    } else {
      assert r.mem[r.ring[t + 1]].size >= s.mem[bp].size;
    }
  }

  // ---- scanning the ring ----

  // How many nodes a scan starting behind position f meets before position i.
  function Ahead(n: nat, f: nat, i: nat): (r: nat)
    requires f < n && i < n
    ensures r < n
  {
    if i > f then i - f - 1 else i + n - f - 1
  }

  function Following(n: nat, i: nat): (r: nat)
    requires i < n
    ensures r < n
  {
    if i + 1 < n then i + 1 else 0
  }

  // The position free looks for.
  function Below(ring: seq<nat>, bp: nat): (t: nat)
    requires |ring| >= 1 && ring[0] < bp && bp !in ring
    requires forall i, j :: 0 <= i < j < |ring| ==> ring[i] < ring[j]
    ensures Place(ring, t, bp)
  {
    var k := |ring| - 1;
    if ring[k] < bp then k else Below(ring[..k], bp)
  }

  const HEADER: nat := 16
  const MORECORE: nat := 4096

  function Units(nbytes: nat): (n: nat)
    ensures n >= 1 && (n - 1) * HEADER >= nbytes
    ensures n >= 2 ==> (n - 2) * HEADER < nbytes
  {
    (nbytes + HEADER - 1) / HEADER + 1
  }

  // What sbrk answers, if it is asked: nothing, or the old end of the heap.
  datatype Grant = Refused | Granted(at: nat)

  class Allocator {
    var mem: map<nat, Header>
    var freep: nat

    ghost var ring: seq<nat>
    ghost var live: set<nat>
    ghost var parts: Parts

    ghost function State(): Arena
      reads this
    {
      Arena(mem, ring, live, parts)
    }

    ghost predicate Valid()
      reads this
    {
      if freep == 0 then live == {} && parts == Parts(map[], map[])
      else Inv(State()) && freep in ring
    }

    ghost predicate Ready()
      reads this
    {
      Valid() && freep != 0
    }

    constructor ()
      ensures Valid() && live == {} && parts.cover == map[]
    {
      mem, freep := map[], 0;
      ring, live, parts := [], {}, Parts(map[], map[]);
    }

    ghost method Become(s: Arena)
      modifies `ring, `live, `parts
      ensures ring == s.ring && live == s.live && parts == s.parts
    {
      ring, live, parts := s.ring, s.live, s.parts;
    }

    // The scan of free: from wherever freep is, to the node bp belongs behind.
    method FindPlace(bp: nat) returns (p: nat, ghost t: nat)
      requires Ready() && bp in live
      ensures Place(ring, t, bp) && p == ring[t]
    {
      ghost var n := |ring|;
      assert bp !in ring && ring[0] < bp by { LiveOffRing(State(), bp); }
      t := Below(ring, bp);
      ghost var k :| 0 <= k < n && ring[k] == freep;
      p := freep;
      NextInMem(State(), k);
      while !(bp > p && bp < mem[p].ptr)
        invariant 0 <= k < n && p == ring[k] && p in mem && mem[p].ptr == (if k + 1 < n then ring[k + 1] else BASE)
        decreases if k <= t then t - k else t - k + n
      {
        if p >= mem[p].ptr && (bp > p || bp < mem[p].ptr) {
          break;
        }
        assert k != t by { NotThere(ring, t, bp, k); }
        p := mem[p].ptr;
        k := Following(n, k);
        NextInMem(State(), k);
      }
      Arrived(State(), t, bp, k);
    }

    // The two joins at the end of free.
    method Join(p: nat, bp: nat)
      requires p in mem && bp in mem && mem[p].ptr in mem && p != bp
      modifies `mem
      ensures var u := Upper(old(mem), p, bp); mem == old(mem)[bp := u][p := Lower(p, old(mem)[p].size, bp, u)]
    {
      if bp + mem[bp].size == mem[p].ptr {
        mem := mem[bp := Header(mem[mem[p].ptr].ptr, mem[bp].size + mem[mem[p].ptr].size)];
      } else {
        mem := mem[bp := mem[bp].(ptr := mem[p].ptr)];
      }
      if p + mem[p].size == bp {
        mem := mem[p := Header(mem[bp].ptr, mem[p].size + mem[bp].size)];
      } else {
        mem := mem[p := mem[p].(ptr := bp)];
      }
    }

    // free: the block goes back, merged with what it touches.
    method Free(ap: nat)
      requires Ready() && ap > 0 && ap - 1 in live
      modifies this
      ensures Ready() && live == old(live) - {ap - 1} && parts.cover.Keys == old(parts.cover.Keys)
      ensures forall a :: a in live ==> a in mem && a in old(mem) && mem[a] == old(mem)[a]
      ensures ap - 1 in old(mem) && Fits(State(), old(mem)[ap - 1].size)
    {
      var bp := ap - 1;
      ghost var s := State();
      var p, t := FindPlace(bp);
      ghost var r := FreeKeeps(s, t, bp);
      LiveElsewhere(s, t);
      assert forall a :: a in s.live && a != bp ==> a != p;
      hide Inv, Upper, Lower, Place;
      Join(p, bp);
      freep := p;
      Become(r);
    }

    // morecore: at least 4096 units from sbrk, freed into the list. wrong says
    // that the int sbrk gets is not the number of bytes wanted; what such an sbrk
    // does is not followed.
    method Morecore(nu: nat, grant: Grant) returns (p: nat, wrong: bool)
      requires Ready() && 1 <= nu <= MAXUNITS && Above(parts, grant)
      modifies this
      ensures Ready() && live == old(live) && (wrong <==> nu >= SBRK_UNITS)
      ensures forall a :: a in live ==> a in mem && a in old(mem) && mem[a] == old(mem)[a]
      ensures wrong || grant == Refused ==> p == 0 && State() == old(State()) && freep == old(freep)
      ensures !wrong && grant != Refused ==> p == freep && Fits(State(), nu)
      ensures forall u :: u in parts.cover <==> u in old(parts.cover) || (!wrong && Obtained(grant, nu, u))
    {
      LiveElsewhere(State(), 0);
      hide Inv, Fits, Int32;
      var n := if nu < MORECORE then MORECORE else nu;
      SbrkArgument(n);
      if Int32(n * HEADER) != n * HEADER {
        return 0, true;
      }
      if grant == Refused {
        return 0, false;
      }
      var hp := grant.at;
      ghost var s := State();
      GrantKeeps(s, hp, n);
      mem := mem[hp := Header(Stale(mem, hp), n)];
      Become(Given(s, hp, n));
      assert forall a :: a in s.live ==> a in s.mem && a != hp;
      assert mem[hp].size == n;
      Free(hp + 1);
      FitsLess(State(), n, nu);
      return freep, false;
    }

    // The block at ring[k] leaves the list whole.
    method CutWhole(prevp: nat, p: nat, ghost k: nat)
      requires Ready() && 1 <= k < |ring| && p == ring[k] && prevp == ring[k - 1] && prevp in mem && p in mem
      modifies this
      ensures Ready() && p !in old(live) && live == old(live) + {p} && parts.cover.Keys == old(parts.cover.Keys)
      ensures p in mem && mem[p].size == old(mem)[p].size
      ensures forall a :: a in old(live) ==> a in mem && a in old(mem) && mem[a] == old(mem)[a]
    {
      ghost var s := State();
      LiveElsewhere(s, k);
      LiveElsewhere(s, k - 1);
      TakeWholeKeeps(s, k);
      hide Inv;
      mem := mem[prevp := mem[prevp].(ptr := mem[p].ptr)];
      Become(TakeWhole(s, k));
      assert ring[k - 1] == prevp;
      freep := prevp;
    }

    method Shrink(p: nat, n: nat) returns (q: nat)
      requires p in mem && n < mem[p].size
      modifies `mem
      ensures mem == TailMem(old(mem), p, n) && q == p + old(mem)[p].size - n
    {
      mem := mem[p := mem[p].(size := mem[p].size - n)];
      q := p + mem[p].size;
      mem := mem[q := Header(Stale(mem, q), n)];
    }

    // Its last n units are cut off.
    method CutTail(prevp: nat, p: nat, n: nat, ghost k: nat) returns (q: nat)
      requires Ready() && 1 <= k < |ring| && p == ring[k] && prevp == ring[k - 1] && prevp in mem && p in mem
      requires 1 <= n < mem[p].size
      modifies this
      ensures Ready() && q !in old(live) && live == old(live) + {q} && parts.cover.Keys == old(parts.cover.Keys)
      ensures q in mem && mem[q].size == n
      ensures forall a :: a in old(live) ==> a in mem && a in old(mem) && mem[a] == old(mem)[a]
    {
      ghost var s := State();
      ghost var r := CutState(s, k, n);
      hide Inv, TailMem;
      q := Shrink(p, n);
      Become(r);
      freep := prevp;
    }

    // Hands out nunits from the block at ring[k], whose predecessor is prevp.
    method Take(prevp: nat, p: nat, nunits: nat, ghost k: nat) returns (ap: nat)
      requires Ready() && 1 <= k < |ring| && p == ring[k] && prevp == ring[k - 1] && prevp in mem && p in mem
      requires 1 <= nunits <= mem[p].size
      modifies this
      ensures Ready() && ap > 0 && ap - 1 !in old(live) && live == old(live) + {ap - 1}
      ensures ap - 1 in mem && mem[ap - 1].size == nunits
      ensures parts.cover.Keys == old(parts.cover.Keys)
      ensures forall a :: a in old(live) ==> a in mem && a in old(mem) && mem[a] == old(mem)[a]
    {
      if mem[p].size == nunits {
        CutWhole(prevp, p, k);
        ap := p + 1;
      } else {
        var q := CutTail(prevp, p, nunits, k);
        ap := q + 1;
      }
    }

    // base becomes a list of its own.
    method Initialise()
      requires Valid() && freep == 0
      modifies this
      ensures Ready() && live == {} && parts == old(parts) && ring == [BASE] && BASE in mem && mem[BASE].size == 0
    {
      mem := mem[BASE := Header(BASE, 0)];
      freep := BASE;
      ring := [BASE];
      EmptyHeap(State());
    }

    // The test at the start of malloc.
    method Prepare(ghost n: nat)
      requires Valid() && n >= 1
      modifies this
      ensures Ready() && live == old(live) && parts == old(parts)
      ensures forall a :: a in live ==> a in mem && a in old(mem) && mem[a] == old(mem)[a]
      ensures Fits(State(), n) <==> old(freep) != 0 && old(Fits(State(), n))
    {
      if freep == 0 {
        Initialise();
      } else {
        LiveElsewhere(State(), 0);
      }
    }

    // One turn of malloc's loop around the list, from behind freep: the first
    // node with enough units, or none after all have been looked at.
    method Scan(nunits: nat) returns (found: bool, prevp: nat, p: nat, ghost k: nat)
      requires Ready() && nunits >= 1
      ensures found <==> Fits(State(), nunits)
      ensures found ==>
              1 <= k < |ring| && p == ring[k] && prevp == ring[k - 1] && prevp in mem && p in mem
              && mem[p].size >= nunits
    {
      ghost var s := State();
      ghost var f: nat;
      f, k := StartScan(s, freep, nunits);
      hide Inv, Passed, Fits, Ahead, Following, At;
      prevp := freep;
      p := mem[prevp].ptr;
      AtIn(s, k, p, prevp);
      while mem[p].size < nunits
        invariant At(s, k, p, prevp) && Passed(s, f, k, nunits) && p in mem
        invariant f < |s.ring| && k < |s.ring|
        decreases |s.ring| - Ahead(|s.ring|, f, k)
      {
        AtIn(s, k, p, prevp);
        if p == freep {
          NoneFits(s, f, k, nunits);
          return false, prevp, p, k;
        }
        Onward(s, f, k, nunits);
        prevp := p;
        k := Following(|s.ring|, k);
        p := mem[p].ptr;
        AtIn(s, k, p, prevp);
      }
      AtIn(s, k, p, prevp);
      HasFit(s, k, nunits);
      found := true;
    }

    // malloc: first fit from behind freep, asking sbrk at most once and only when
    // nothing fits. wrong is as in Morecore.
    method Malloc(nbytes: nat, grant: Grant) returns (ap: nat, asked: bool, wrong: bool)
      requires Valid() && nbytes < 0x1_0000_0000 && Above(parts, grant)
      modifies this
      ensures Ready() && (wrong <==> asked && Units(nbytes) >= SBRK_UNITS)
      ensures wrong ==> ap == 0 && live == old(live) && parts == old(parts)
      ensures ap == 0 ==> asked && (wrong || grant == Refused) && live == old(live)
      ensures ap != 0 ==> ap - 1 !in old(live) && live == old(live) + {ap - 1}
      ensures ap != 0 ==> ap - 1 in mem && mem[ap - 1].size == Units(nbytes)
      ensures forall a :: a in old(live) ==> a in mem && a in old(mem) && mem[a] == old(mem)[a]
      ensures forall u :: u in parts.cover <==>
              u in old(parts.cover) || (asked && !wrong && Obtained(grant, Units(nbytes), u))
      ensures asked <==> old(freep) == 0 || !old(Fits(State(), Units(nbytes)))
    {
      var nunits := Units(nbytes);
      assert 1 <= nunits <= MAXUNITS;
      hide Inv, Units, Obtained, Fits, Above;
      Prepare(nunits);
      var prevp, p;
      ghost var k;
      asked, wrong, prevp, p, k := Obtain(nunits, grant);
      if asked && (wrong || grant == Refused) {
        return 0, asked, wrong;
      }
      ap := Take(prevp, p, nunits, k);
    }

    // The loop of malloc: a node with enough units, after asking sbrk if need be.
    method Obtain(nunits: nat, grant: Grant) returns (asked: bool, wrong: bool, prevp: nat, p: nat, ghost k: nat)
      requires Ready() && 1 <= nunits <= MAXUNITS && Above(parts, grant)
      modifies this
      ensures Ready() && live == old(live)
      ensures asked <==> !old(Fits(State(), nunits))
      ensures wrong <==> asked && nunits >= SBRK_UNITS
      ensures !asked || wrong ==> parts == old(parts)
      ensures forall a :: a in live ==> a in mem && a in old(mem) && mem[a] == old(mem)[a]
      ensures forall u :: u in parts.cover <==> u in old(parts.cover) || (asked && !wrong && Obtained(grant, nunits, u))
      ensures !(asked && (wrong || grant == Refused)) ==>
                1 <= k < |ring| && p == ring[k] && prevp == ring[k - 1] && prevp in mem && p in mem
                  && mem[p].size >= nunits
    {
      LiveElsewhere(State(), 0);
      hide Inv, Obtained, Fits, Above;
      var found;
      found, prevp, p, k := Scan(nunits);
      asked, wrong := !found, false;
      if !found {
        found, wrong, prevp, p, k := ScanMore(nunits, grant);
      }
    }

    // The turn around the list after morecore.
    method ScanMore(nunits: nat, grant: Grant) returns (found: bool, wrong: bool, prevp: nat, p: nat, ghost k: nat)
      requires Ready() && 1 <= nunits <= MAXUNITS && Above(parts, grant)
      modifies this
      ensures Ready() && live == old(live) && (wrong <==> nunits >= SBRK_UNITS) && (wrong ==> parts == old(parts))
      ensures forall a :: a in live ==> a in mem && a in old(mem) && mem[a] == old(mem)[a]
      ensures forall u :: u in parts.cover <==> u in old(parts.cover) || (!wrong && Obtained(grant, nunits, u))
      ensures found <==> !wrong && grant != Refused
      ensures found ==>
              1 <= k < |ring| && p == ring[k] && prevp == ring[k - 1] && prevp in mem && p in mem
              && mem[p].size >= nunits
    {
      hide Inv, Obtained, Fits, Above, Valid;
      p, wrong := Morecore(nunits, grant);
      if p == 0 {
        return false, wrong, 0, 0, 0;
      }
      found, prevp, p, k := Scan(nunits);
    }
  }

  // The headers a cut changes.
  lemma {:induction false} TailLeaves(mem: map<nat, Header>, p: nat, n: nat)
    requires p in mem && 1 <= n < mem[p].size
    ensures var q := p + mem[p].size - n;
            && q in TailMem(mem, p, n) && TailMem(mem, p, n)[q].size == n
            && forall a :: a in mem && a != p && a != q ==> a in TailMem(mem, p, n) && TailMem(mem, p, n)[a] == mem[a]
  {
  }

  lemma {:induction false} CutState(s: Arena, k: nat, n: nat) returns (r: Arena)
    requires Inv(s) && 1 <= k < |s.ring| && s.ring[k] in s.mem && 1 <= n < s.mem[s.ring[k]].size
    ensures Inv(r) && r.ring == s.ring && r.parts.cover.Keys == s.parts.cover.Keys
    ensures r.mem == TailMem(s.mem, s.ring[k], n)
    ensures var q := s.ring[k] + s.mem[s.ring[k]].size - n;
            && q !in s.live && r.live == s.live + {q} && q in r.mem && r.mem[q].size == n
            && forall a :: a in s.live ==> a in s.mem && a in r.mem && r.mem[a] == s.mem[a]
  {
    TakeTailKeeps(s, k, n);
    LiveElsewhere(s, k);
    TailLeaves(s.mem, s.ring[k], n);
    hide Inv, TailMem, Split;
    r := TakeTail(s, k, n);
  }

  lemma {:induction false} EmptyHeap(s: Arena)
    requires BASE in s.mem && s.mem[BASE] == Header(BASE, 0)
    requires s.ring == [BASE] && s.live == {} && s.parts == Parts(map[], map[])
    ensures Inv(s)
  {
    assert LinkAt(s.mem, s.ring, 0);
  }

  // p is ring[k] and prevp the node before it.
  ghost predicate At(s: Arena, k: nat, p: nat, prevp: nat) {
    && k < |s.ring| && p == s.ring[k] && p in s.mem && prevp in s.mem
    && prevp == s.ring[if k == 0 then |s.ring| - 1 else k - 1]
  }

  // The nodes met so far are too small.
  ghost predicate Passed(s: Arena, f: nat, k: nat, nunits: nat) {
    && f < |s.ring| && k < |s.ring|
    && forall i :: 0 <= i < |s.ring| && Ahead(|s.ring|, f, i) < Ahead(|s.ring|, f, k) ==>
         s.ring[i] in s.mem && s.mem[s.ring[i]].size < nunits
  }

  lemma {:induction false} AtIn(s: Arena, k: nat, p: nat, prevp: nat)
    requires At(s, k, p, prevp)
    ensures k < |s.ring| && p == s.ring[k] && p in s.mem && prevp in s.mem
    ensures k >= 1 ==> prevp == s.ring[k - 1]
  {
  }

  lemma {:induction false} StartScan(s: Arena, freep: nat, n: nat) returns (f: nat, k: nat)
    requires Inv(s) && freep in s.ring
    ensures f < |s.ring| && s.ring[f] == freep && freep in s.mem && k < |s.ring|
    ensures At(s, k, s.mem[freep].ptr, freep) && Passed(s, f, k, n)
  {
    f :| 0 <= f < |s.ring| && s.ring[f] == freep;
    NodeInMem(s, f);
    Onward(s, f, f, n);
    k := Following(|s.ring|, f);
  }

  lemma {:induction false} HasFit(s: Arena, k: nat, n: nat)
    requires Inv(s) && k < |s.ring| && s.ring[k] in s.mem && s.mem[s.ring[k]].size >= n >= 1
    ensures k >= 1 && Fits(s, n)
  {
  }

  // Back at freep, every node has been looked at.
  lemma {:induction false} NoneFits(s: Arena, f: nat, k: nat, n: nat)
    requires Inv(s) && Passed(s, f, k, n) && s.ring[k] == s.ring[f] && s.ring[k] in s.mem && s.mem[s.ring[k]].size < n
    ensures k == f && !Fits(s, n)
  {
    RingSorted(s);
    hide RingOk, Linked, Partition, Coalesced;
    assert k == f;
    forall i | 0 <= i < |s.ring| && s.ring[i] in s.mem ensures s.mem[s.ring[i]].size < n {
      assert i != f ==> Ahead(|s.ring|, f, i) < Ahead(|s.ring|, f, k);
    }
  }

  lemma {:induction false} Onward(s: Arena, f: nat, k: nat, n: nat)
    requires Inv(s) && f < |s.ring| && k < |s.ring| && s.ring[k] in s.mem
    requires k == f || (Passed(s, f, k, n) && s.mem[s.ring[k]].size < n)
    ensures At(s, Following(|s.ring|, k), s.mem[s.ring[k]].ptr, s.ring[k])
    ensures Passed(s, f, Following(|s.ring|, k), n)
    ensures k != f ==> Ahead(|s.ring|, f, Following(|s.ring|, k)) == Ahead(|s.ring|, f, k) + 1
  {
    NextInMem(s, k);
    hide RingOk, Linked, Partition, Coalesced;
  }

  // Blocks handed out do not overlap each other or a free block, and every unit
  // obtained from sbrk is in exactly one block.
  lemma {:induction false} BlocksPartition(s: Arena, a: nat, b: nat)
    requires Inv(s) && a in s.live + Frees(s.ring) && b in s.live + Frees(s.ring) && a < b
    ensures a in s.mem && a + s.mem[a].size <= b
    ensures forall u :: u in s.parts.cover <==>
              exists c :: c in s.live + Frees(s.ring) && c in s.mem && c <= u < c + s.mem[c].size
  {
    Apart(s.parts, a, b);
    forall u
      ensures u in s.parts.cover <==>
              exists c :: c in s.live + Frees(s.ring) && c in s.mem && c <= u < c + s.mem[c].size
    {
      if u in s.parts.cover {
        assert Within(s.parts, s.parts.cover[u], u);
      }
      if c :| c in s.live + Frees(s.ring) && c in s.mem && c <= u < c + s.mem[c].size {
        assert Within(s.parts, c, u);
      }
    }
  }

  const SBRK_UNITS: nat := 0x800_0000

  function Int32(x: nat): int {
    var y := x % 0x1_0000_0000;
    if y < 0x8000_0000 then y else y - 0x1_0000_0000
  }

  // The most units that a uint of bytes needs.
  const MAXUNITS: nat := 0x1000_0001

  // sbrk takes an int: it is asked for the bytes morecore wants exactly when
  // there are fewer than 2^27 units, and otherwise for a non-positive or much
  // smaller amount.
  lemma {:induction false} SbrkArgument(nu: nat)
    requires nu <= MAXUNITS
    ensures Int32(nu * HEADER) == nu * HEADER <==> nu < SBRK_UNITS
    ensures nu >= SBRK_UNITS ==> Int32(nu * HEADER) <= 16
  {
  }

  predicate Above(s: Parts, grant: Grant) {
    grant.Granted? ==> grant.at > BASE && forall u :: u in s.cover ==> u < grant.at
  }

  predicate Obtained(grant: Grant, nu: nat, u: nat) {
    grant.Granted? && grant.at <= u < grant.at + (if nu < MORECORE then MORECORE else nu)
  }

  function Given(s: Arena, hp: nat, n: nat): Arena {
    Arena(s.mem[hp := Header(Stale(s.mem, hp), n)], s.ring, s.live + {hp}, Grow(s.parts, hp, n))
  }

  lemma {:induction false} GrantKeeps(s: Arena, hp: nat, n: nat)
    requires Inv(s) && hp > BASE && n >= 1 && forall u :: u in s.parts.cover ==> u < hp
    ensures Inv(Given(s, hp, n)) && hp !in s.live && forall a :: a in s.live ==> a in s.mem
    ensures forall u :: u in Given(s, hp, n).parts.cover <==> u in s.parts.cover || hp <= u < hp + n
  {
    var s' := Given(s, hp, n);
    GrowKeeps(s.parts, hp, n);
    assert hp !in s.ring;
    forall j | 0 <= j < |s.ring| ensures LinkAt(s'.mem, s'.ring, j) {
      assert LinkAt(s.mem, s.ring, j);
    }
    forall j | 1 <= j < |s'.ring| - 1 ensures !Touches(s', j) {
      assert !Touches(s, j);
    }
  }

  lemma {:induction false} FitsLess(s: Arena, n: nat, m: nat)
    requires Fits(s, n) && m <= n
    ensures Fits(s, m)
  {
  }

  // Some free block has at least n units.
  ghost predicate Fits(s: Arena, n: nat) {
    exists i :: 0 <= i < |s.ring| && s.ring[i] in s.mem && s.mem[s.ring[i]].size >= n
  }

  lemma {:induction false} LiveElsewhere(s: Arena, t: nat)
    requires Inv(s) && t < |s.ring|
    ensures forall a :: a in s.live ==> a in s.mem && a != s.ring[t]
  {
    forall a | a in s.live ensures a in s.mem && a != s.ring[t] {
      LiveOffRing(s, a);
    }
  }

  // Where the scan stops, and that it does not stop elsewhere.
  lemma {:induction false} NotThere(ring: seq<nat>, t: nat, bp: nat, k: nat)
    requires Place(ring, t, bp) && k < |ring| && ring[0] == BASE
    requires var next := if k + 1 < |ring| then ring[k + 1] else BASE;
             !(bp > ring[k] && bp < next) && !(ring[k] >= next && (bp > ring[k] || bp < next))
    requires forall i, j :: 0 <= i < j < |ring| ==> ring[i] < ring[j]
    ensures k != t
  {
    assert k == 0 || ring[0] < ring[k];
  }

  lemma {:induction false} Arrived(s: Arena, t: nat, bp: nat, k: nat)
    requires RingOk(s.mem, s.ring) && Place(s.ring, t, bp) && k < |s.ring| && BASE < bp
    requires var next := if k + 1 < |s.ring| then s.ring[k + 1] else BASE;
             (bp > s.ring[k] && bp < next) || (s.ring[k] >= next && (bp > s.ring[k] || bp < next))
    ensures k == t
  {
  }

  lemma {:induction false} LiveOffRing(s: Arena, bp: nat)
    requires Inv(s) && bp in s.live
    ensures bp !in s.ring && s.ring[0] < bp && bp in s.mem
  {
    AboveBase(s.parts, bp);
    assert bp !in Frees(s.ring);
  }
}
