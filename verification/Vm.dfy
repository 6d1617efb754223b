// kernel/vm.c and kernel/kalloc.c: page-table pages written in place on the
// page heap, against the flat maps from page number to entry that they stand for.
module Vm {
  import opened PageTable
  import opened Prelude

  // Some free pages became nodes of tree r; nothing else changed hands.
  predicate Grew(m: Mem, m': Mem, r: nat) {
    && Shape(m) && Shape(m') && m'.lo == m.lo && |m'.ram| == |m.ram|
    && (forall p :: 0 <= p < |m.role| ==>
        m'.role[p] == m.role[p] || (m.role[p].Free? && m'.role[p].Node? && m'.role[p].root == r))
    && (forall p :: 0 <= p < |m.role| && (m.role[p].Data? || m.role[p].Other?) ==> m'.ram[p] == m.ram[p])
  }

  // The prefix of the node of the given level on the path to vpn.
  function Above(level: nat, vpn: nat): nat
    requires level <= 2
  {
    if level == 2 then 0 else Prefix(level + 1, vpn)
  }

  lemma AboveStep(level: nat, vpn: nat)
    requires 0 < level <= 2 && vpn < VPNS
    ensures Above(level - 1, vpn) == Above(level, vpn) * ENTRIES + Index(level, vpn)
  {
  }

  // A number for the node with the given level, 0 or 1, and prefix.
  const TOPS: nat := 0x4_0000

  function Spot(level: nat, prefix: nat): nat {
    if level == 0 then prefix else TOPS + prefix
  }

  predicate IsBelow(m: Mem, r: nat, p: nat) {
    p < |m.role| && m.role[p].Node? && m.role[p].root == r && m.role[p].level < 2
  }

  // The nodes of a tree below its root.
  function Nodes(m: Mem, r: nat): set<nat> {
    set p | 0 <= p < |m.role| && IsBelow(m, r, p) :: Spot(m.role[p].level, m.role[p].prefix)
  }

  // The nodes on the path to vpn.
  function Path(vpn: nat): set<nat> {
    {Spot(1, Above(1, vpn)), Spot(0, Above(0, vpn))}
  }

  // And on the paths to n pages from vpn on.
  function Paths(vpn: nat, n: nat): set<nat> {
    if n == 0 then {} else Paths(vpn, n - 1) + Path(vpn + n - 1)
  }

  // The table pages that mapping n pages from vpn on takes.
  function Tables(m: Mem, r: nat, vpn: nat, n: nat): nat {
    |Paths(vpn, n) - Nodes(m, r)|
  }

  lemma {:induction false} PathsMonotone(vpn: nat, k: nat, n: nat)
    requires k <= n
    ensures Paths(vpn, k) <= Paths(vpn, n)
  {
    if k < n { PathsMonotone(vpn, k, n - 1); }
  }

  // Tables for a longer range.
  lemma TablesNext(m0: Mem, m: Mem, r: nat, vpn: nat, k: nat, n: nat)
    requires k < n && Nodes(m, r) == Nodes(m0, r) + Paths(vpn, k)
    ensures Tables(m0, r, vpn, k + 1) == Tables(m0, r, vpn, k) + |Path(vpn + k) - Nodes(m, r)|
    ensures Tables(m0, r, vpn, k + 1) <= Tables(m0, r, vpn, n)
  {
    UnionSize(Paths(vpn, k), Path(vpn + k), Nodes(m0, r));
    PathsMonotone(vpn, k + 1, n);
    SubsetSize(Paths(vpn, k + 1) - Nodes(m0, r), Paths(vpn, n) - Nodes(m0, r));
  }

  // A missing entry on the path means a missing node.
  lemma NoNode(m: Mem, r: nat, vpn: nat, p: nat, level: nat)
    requires Inv(m) && IsRoot(m, r) && vpn < VPNS && p < |m.ram| && 0 < level <= 2
    requires m.role[p].Node? && m.role[p].root == r && m.role[p].level == level
    requires m.role[p].prefix == Above(level, vpn) && !Present(m.ram[p][Index(level, vpn)])
    ensures Spot(level - 1, Above(level - 1, vpn)) !in Nodes(m, r)
  {
    hide FreeOk, DataOk, EntryOk, NodeOk, TreesOk, Above;
    SpotBound(vpn);
    forall q | 0 <= q < |m.role| && IsBelow(m, r, q)
      ensures Spot(m.role[q].level, m.role[q].prefix) != Spot(level - 1, Above(level - 1, vpn))
    {
      PrefixBound(m, q);
      if m.role[q].level == level - 1 {
        NotThatNode(m, r, vpn, p, level, q);
      }
    }
  }

  lemma SpotBound(vpn: nat)
    requires vpn < VPNS
    ensures Above(0, vpn) < TOPS && Above(1, vpn) < ENTRIES
  {
  }

  lemma NotThatNode(m: Mem, r: nat, vpn: nat, p: nat, level: nat, q: nat)
    requires Inv(m) && IsRoot(m, r) && vpn < VPNS && p < |m.ram| && q < |m.ram| && 0 < level <= 2
    requires m.role[p].Node? && m.role[p].root == r && m.role[p].level == level
    requires m.role[p].prefix == Above(level, vpn) && !Present(m.ram[p][Index(level, vpn)])
    requires m.role[q].Node? && m.role[q].root == r && m.role[q].level == level - 1
    ensures m.role[q].prefix != Above(level - 1, vpn)
  {
    hide FreeOk, DataOk, EntryOk;
    assert NodeOk(m, q) && NodeOk(m, p);
    if level == 1 {
      PathUp1(m, p);
      PathUp1(m, m.role[q].parent);
    }
  }

  lemma PrefixBound(m: Mem, p: nat)
    requires Shape(m) && TreesOk(m) && p < |m.ram| && m.role[p].Node?
    ensures m.role[p].level == 0 ==> m.role[p].prefix < TOPS
    ensures m.role[p].level == 1 ==> m.role[p].prefix < ENTRIES
  {
    hide EntryOk;
    assert NodeOk(m, p);
    if m.role[p].level == 1 {
      PathUp1(m, p);
    } else if m.role[p].level == 0 {
      PathUp1(m, m.role[p].parent);
    }
  }

  // A node that is there.
  lemma HasNode(m: Mem, r: nat, p: nat)
    requires p < |m.role| && m.role[p].Node? && m.role[p].root == r && m.role[p].level < 2
    ensures Spot(m.role[p].level, m.role[p].prefix) in Nodes(m, r)
  {
  }

  // A table that is there has its path.
  lemma PathThere(m: Mem, r: nat, vpn: nat)
    requires Inv(m) && IsRoot(m, r) && vpn < VPNS && Table(m, r, vpn) < |m.ram|
    ensures Path(vpn) <= Nodes(m, r)
  {
    hide FreeOk, DataOk, TreesOk, Nodes;
    PathDown(m, r, vpn);
    HasNode(m, r, Step(m, r, Index(2, vpn)));
    HasNode(m, r, Table(m, r, vpn));
  }

  // One page more becomes a node.
  lemma NodeAdded(m: Mem, m': Mem, r: nat, c: nat)
    requires c < |m.role| == |m'.role| && m.role[c] == Free && m'.role == m.role[c := m'.role[c]]
    requires m'.role[c].Node? && m'.role[c].root == r && m'.role[c].level < 2
    ensures Nodes(m', r) == Nodes(m, r) + {Spot(m'.role[c].level, m'.role[c].prefix)}
  {
    forall x | x in Nodes(m, r) ensures x in Nodes(m', r) {
      var p :| 0 <= p < |m.role| && IsBelow(m, r, p) && x == Spot(m.role[p].level, m.role[p].prefix);
      assert m'.role[p] == m.role[p];
    }
    HasNode(m', r, c);
  }

  lemma SameRoles(m: Mem, m': Mem, r: nat)
    requires m'.role == m.role
    ensures Nodes(m', r) == Nodes(m, r)
  {
  }

  // A page that is no node changes hands.
  lemma NodesOther(m: Mem, m': Mem, p: nat, r: nat)
    requires p < |m.role| == |m'.role| && !m.role[p].Node? && !m'.role[p].Node? && m'.role == m.role[p := m'.role[p]]
    ensures Nodes(m', r) == Nodes(m, r)
  {
    forall x | x in Nodes(m, r) ensures x in Nodes(m', r) {
      var q :| 0 <= q < |m.role| && IsBelow(m, r, q) && x == Spot(m.role[q].level, m.role[q].prefix);
      assert m'.role[q] == m.role[q];
    }
  }

  lemma OneTable(m: Mem, r: nat, vpn: nat)
    ensures Tables(m, r, vpn, 1) == |Path(vpn) - Nodes(m, r)| && Paths(vpn, 1) == Path(vpn)
  {
    assert Paths(vpn, 0) == {};
    assert Paths(vpn, 1) == {} + Path(vpn);
    assert {} + Path(vpn) == Path(vpn);
  }

  // Nodes of other trees do not change.
  lemma NodesGrew(m: Mem, m': Mem, q: nat, r: nat)
    requires Grew(m, m', q) && q != r
    ensures Nodes(m', r) == Nodes(m, r)
  {
    forall x | x in Nodes(m, r) ensures x in Nodes(m', r) {
      var p :| 0 <= p < |m.role| && IsBelow(m, r, p) && x == Spot(m.role[p].level, m.role[p].prefix);
      assert m'.role[p] == m.role[p];
    }
  }

  // The part of the path above a level, where walk() has been.
  function Upper(level: nat, vpn: nat): set<nat>
    requires level <= 2
  {
    if level == 2 then {} else if level == 1 then {Spot(1, Above(1, vpn))} else Path(vpn)
  }

  // walk() has come from the root of tree r in m0 down to node pt.
  ghost predicate WalkAt(m0: Mem, m: Mem, r: nat, vpn: nat, alloc: bool, pt: nat, level: nat)
  {
    && level <= 2 && vpn < MAXVPN && Inv(m0) && Inv(m) && IsRoot(m0, r) && IsRoot(m, r)
    && SameLookups(m0, m) && Grew(m0, m, r)
    && pt < |m.ram| && m.role[pt].Node? && m.role[pt].root == r && m.role[pt].level == level
    && m.role[pt].prefix == Above(level, vpn)
    && (m == m0 || (alloc && Table(m0, r, vpn) == |m0.ram|))
    && Nodes(m, r) == Nodes(m0, r) + Upper(level, vpn) && |m0.free| == |m.free| + |Upper(level, vpn) - Nodes(m0, r)|
  }

  lemma WalkStarts(m: Mem, r: nat, vpn: nat, alloc: bool)
    requires Inv(m) && IsRoot(m, r) && vpn < MAXVPN
    ensures WalkAt(m, m, r, vpn, alloc, r, 2)
  {
    hide FreeOk, DataOk, TreesOk, Lookup, Nodes;
    SameLookupsRefl(m);
    GrewRefl(m, r);
  }

  lemma WalkEnds(m0: Mem, m: Mem, r: nat, vpn: nat, alloc: bool, pt: nat)
    requires WalkAt(m0, m, r, vpn, alloc, pt, 0)
    ensures Inv(m) && SameLookups(m0, m) && Grew(m0, m, r) && pt == Table(m, r, vpn) < |m.ram|
    ensures m == m0 || (alloc && Table(m0, r, vpn) == |m0.ram|)
    ensures Nodes(m, r) == Nodes(m0, r) + Path(vpn) && |m0.free| == |m.free| + |Path(vpn) - Nodes(m0, r)|
  {
    hide FreeOk, DataOk, SameLookups, Lookup, Nodes, Path;
    PathUp(m, pt, vpn);
  }

  // It finds no node and cannot make one.
  ghost predicate WalkFails(m0: Mem, m: Mem, r: nat, vpn: nat, alloc: bool) {
    && Inv(m0) && Inv(m) && IsRoot(m0, r) && SameLookups(m0, m) && Grew(m0, m, r) && Table(m0, r, vpn) == |m0.ram|
    && if alloc then m.free == [] && |m0.free| < |Path(vpn) - Nodes(m0, r)| else m == m0
  }

  lemma AtNode(m0: Mem, m: Mem, r: nat, vpn: nat, alloc: bool, pt: nat, level: nat)
    requires WalkAt(m0, m, r, vpn, alloc, pt, level)
    ensures Inv(m) && pt < |m.ram| == |m.role| && m.role[pt].Node? && m.role[pt].root == r && m.role[pt].level == level
    ensures Shape(m0) && r < |m0.ram| && |m.ram[pt]| == ENTRIES
  {
  }

  lemma DownThere(m0: Mem, m: Mem, r: nat, vpn: nat, alloc: bool, pt: nat, level: nat)
    requires 0 < level <= 2 && WalkAt(m0, m, r, vpn, alloc, pt, level) && Present(m.ram[pt][Index(level, vpn)])
    ensures WalkAt(m0, m, r, vpn, alloc, Ppn(m.ram[pt][Index(level, vpn)]), level - 1)
  {
    hide FreeOk, DataOk, SameLookups, Lookup, NodeOk, Table, Index, Prefix, Nodes, Path, Grew;
    AboveStep(level, vpn);
    UpperNext(level, vpn, Nodes(m0, r));
    assert EntryOk(m, pt, Index(level, vpn));
    HasNode(m, r, Ppn(m.ram[pt][Index(level, vpn)]));
  }

  lemma NotThere(m0: Mem, m: Mem, r: nat, vpn: nat, alloc: bool, pt: nat, level: nat)
    requires 0 < level <= 2 && WalkAt(m0, m, r, vpn, alloc, pt, level) && !Present(m.ram[pt][Index(level, vpn)])
    ensures Table(m0, r, vpn) == |m0.ram| && (!alloc || m.free == [] ==> WalkFails(m0, m, r, vpn, alloc))
  {
    hide FreeOk, DataOk, SameLookups, Lookup, NodeOk, EntryOk, Table, Index, Prefix, Nodes, Path, Grew;
    NoTable(m, r, vpn, pt, level);
    NoNode(m, r, vpn, pt, level);
    UpperNext(level, vpn, Nodes(m0, r));
  }

  lemma DownAdded(m0: Mem, m1: Mem, m: Mem, r: nat, vpn: nat, pt: nat, level: nat, c: nat)
    requires 0 < level <= 2 && WalkAt(m0, m1, r, vpn, true, pt, level) && !Present(m1.ram[pt][Index(level, vpn)])
    requires Inv(m) && SameLookups(m1, m) && Grew(m1, m, r) && |m1.free| == |m.free| + 1
    requires c < |m.ram| && c < |m1.role| && m1.role[c] == Free && m.role == m1.role[c := m.role[c]]
    requires m.role[c] == Node(r, level - 1, m1.role[pt].prefix * ENTRIES + Index(level, vpn), pt)
    ensures WalkAt(m0, m, r, vpn, true, c, level - 1)
  {
    hide FreeOk, DataOk, TreesOk, Lookup, Table, Index, Prefix, Nodes, Path, Grew, SameLookups;
    AboveStep(level, vpn);
    NotThere(m0, m1, r, vpn, true, pt, level);
    NoNode(m1, r, vpn, pt, level);
    UpperNext(level, vpn, Nodes(m0, r));
    NodeAdded(m1, m, r, c);
    SameLookupsTrans(m0, m1, m);
    GrewTrans(m0, m1, m, r);
  }

  lemma UpperNext(level: nat, vpn: nat, nodes: set<nat>)
    requires 0 < level <= 2 && vpn < VPNS
    ensures var x := Spot(level - 1, Above(level - 1, vpn));
      && Upper(level - 1, vpn) == Upper(level, vpn) + {x}
      && x !in Upper(level, vpn)
      && |Upper(level - 1, vpn) - nodes| == |Upper(level, vpn) - nodes| + (if x in nodes then 0 else 1)
      && |Upper(level - 1, vpn) - nodes| <= |Path(vpn) - nodes|
  {
    hide Above, Spot;
    SpotsDiffer(vpn);
    var x := Spot(level - 1, Above(level - 1, vpn));
    assert Upper(level - 1, vpn) == Upper(level, vpn) + {x};
    OneMoreSpot(Upper(level, vpn), x, nodes);
    SubsetSize(Upper(level - 1, vpn) - nodes, Path(vpn) - nodes);
  }

  lemma SpotsDiffer(vpn: nat)
    requires vpn < VPNS
    ensures Spot(0, Above(0, vpn)) != Spot(1, Above(1, vpn))
  {
    SpotBound(vpn);
  }

  lemma OneMoreSpot(a: set<nat>, x: nat, nodes: set<nat>)
    requires x !in a
    ensures |a + {x} - nodes| == |a - nodes| + (if x in nodes then 0 else 1)
  {
    UnionSize(a, {x}, nodes);
    assert {x} - (nodes + a) == if x in nodes then {} else {x};
  }

  lemma SameTable(m: Mem, r: nat, v: nat, w: nat)
    requires Shape(m) && r < |m.ram| && v / ENTRIES == w / ENTRIES
    ensures Table(m, r, v) == Table(m, r, w)
  {
    assert Prefix(2, v) == v / ENTRIES / ENTRIES && Prefix(2, w) == w / ENTRIES / ENTRIES;
  }

  class Memory {
    var m: Mem

    // kinit(): freerange() hands every page from lo on to the allocator,
    // whatever it contains.
    constructor (lo: nat, ram: seq<Page>)
      requires 0 < lo <= |ram| && forall p :: 0 <= p < |ram| ==> |ram[p]| == ENTRIES
      ensures Inv(m) && m.lo == lo && |m.ram| == |ram| && |m.free| == |ram| - lo
      ensures forall p :: 0 <= p < |ram| ==> m.role[p] == if p < lo then Other else Free
    {
      m := Mem(lo, ram, 0, [], seq(|ram|, i => Other));
      new;
      var p := lo;
      while p < |ram|
        invariant lo <= p <= |ram| && Inv(m) && m.lo == lo && |m.ram| == |ram| && |m.free| == p - lo
        invariant forall q :: 0 <= q < |ram| ==> m.role[q] == if lo <= q < p then Free else Other
      {
        KfreeKeeps(m, p);
        Kfree(p);
        p := p + 1;
      }
    }

    // kalloc(); p is meaningless when ok is false.
    method Kalloc() returns (ok: bool, p: nat)
      requires Inv(m)
      modifies this
      ensures ok <==> old(m).free != []
      ensures !ok ==> m == old(m)
      ensures ok ==> p == old(m).free[0] && m == PageTable.Kalloc(old(m))
    {
      p := m.freelist / PGSIZE;
      if m.freelist == 0 {
        return false, p;
      }
      m := m.(freelist := m.ram[p][0], ram := m.ram[p := Filled(JUNK5)],
              free := m.free[1..], role := m.role[p := Other]);
      return true, p;
    }

    // kfree(); the precondition is the check that panics.
    method Kfree(p: nat)
      requires Shape(m) && m.lo <= p < |m.ram|
      modifies this
      ensures m == PageTable.Kfree(old(m), p)
    {
      m := m.(ram := m.ram[p := Put(Filled(JUNK1), 0, m.freelist)], freelist := p * PGSIZE,
              free := [p] + m.free, role := m.role[p := Free]);
    }

    // walk(): the page that holds the entry for vpn, in the tree with root r.
    method Walk(r: nat, vpn: nat, alloc: bool) returns (ok: bool, pt: nat)
      requires Inv(m) && IsRoot(m, r) && vpn < MAXVPN
      modifies this
      ensures Inv(m) && SameLookups(old(m), m) && Grew(old(m), m, r)
      ensures ok ==> pt == Table(m, r, vpn) < |m.ram|
      ensures !alloc ==> m == old(m) && (ok <==> Table(m, r, vpn) < |m.ram|)
      ensures alloc && !ok ==> m.free == []
      ensures Table(old(m), r, vpn) < |old(m).ram| ==> ok && m == old(m)
      ensures alloc ==> (ok <==> |old(m).free| >= |Path(vpn) - Nodes(old(m), r)|)
      ensures alloc && ok ==>
              |old(m).free| == |m.free| + |Path(vpn) - Nodes(old(m), r)| && Nodes(m, r) == Nodes(old(m), r) + Path(vpn)
    {
      hide FreeOk, DataOk, TreesOk, SameLookups, Lookup, Table, Nodes, WalkAt;
      ghost var m0 := m;
      WalkStarts(m, r, vpn, alloc);
      pt := r;
      var level := 2;
      while level > 0
        invariant 0 <= level <= 2 && WalkAt(m0, m, r, vpn, alloc, pt, level)
      {
        ok, pt := Descend(r, vpn, alloc, pt, level, m0);
        if !ok {
          return false, pt;
        }
        level := level - 1;
      }
      WalkEnds(m0, m, r, vpn, alloc, pt);
      return true, pt;
    }

    // One round of walk(): down from node pt of the given level.
    method Descend(r: nat, vpn: nat, alloc: bool, pt: nat, level: nat, ghost m0: Mem) returns (ok: bool, next: nat)
      requires 0 < level <= 2 && WalkAt(m0, m, r, vpn, alloc, pt, level)
      modifies this
      ensures if ok then WalkAt(m0, m, r, vpn, alloc, next, level - 1) else WalkFails(m0, m, r, vpn, alloc)
    {
      hide Inv, Shape, WalkAt, WalkFails, SameLookups, Grew, Index;
      AtNode(m0, m, r, vpn, alloc, pt, level);
      var i := Index(level, vpn);
      if Present(m.ram[pt][i]) {
        DownThere(m0, m, r, vpn, alloc, pt, level);
        return true, Ppn(m.ram[pt][i]);
      }
      NotThere(m0, m, r, vpn, alloc, pt, level);
      if !alloc {
        return false, pt;
      }
      ghost var m1 := m;
      ok, next := AddChild(pt, i);
      if ok {
        DownAdded(m0, m1, m, r, vpn, pt, level, next);
      }
    }

    // kalloc(), memset() and the entry that hangs the new node into the tree.
    method AddChild(p: nat, i: nat) returns (ok: bool, c: nat)
      requires Inv(m) && p < |m.ram| && i < ENTRIES && m.role[p].Node? && 0 < m.role[p].level <= 2
      requires !Present(m.ram[p][i])
      modifies this
      ensures Inv(m) && SameLookups(old(m), m) && Grew(old(m), m, old(m).role[p].root)
      ensures !ok ==> m.free == [] && m == old(m)
      ensures ok ==> |old(m).free| == |m.free| + 1 && c < |m.ram| == |m.role| == |old(m).role|
      ensures ok ==> old(m).role[c] == Free && m.role == old(m).role[c := m.role[c]]
      ensures ok ==>
              c < |m.ram|
              && m.role[c] == Node(m.role[p].root, m.role[p].level - 1, m.role[p].prefix * ENTRIES + i, p)
      ensures m.role[p] == old(m).role[p]
    {
      hide FreeOk, DataOk, TreesOk, SameLookups;
      ghost var m0 := m;
      SameLookupsRefl(m);
      GrewRefl(m, m.role[p].root);
      ok, c := Kalloc();
      if ok {
        KallocKeeps(m0);
        ghost var m1 := m;
        AddKeeps(m1, p, i, c);
        m := m.(ram := m.ram[c := Filled(0)],
                role := m.role[c := Node(m.role[p].root, m.role[p].level - 1, m.role[p].prefix * ENTRIES + i, p)]);
        m := m.(ram := m.ram[p := Put(m.ram[p], i, MakePte(c, 0))]);
        assert m == AddNode(m1, p, i, c);
        SameLookupsTrans(m0, m1, m);
        GrewByNode(m0, p, i);
      }
    }

    // mappages(): entries for n pages from vpn on. On failure the first k of
    // them have been written. The preconditions are the checks that panic.
    method Mappages(r: nat, vpn: nat, n: nat, ppn: nat, perm: nat) returns (ok: bool, ghost k: nat)
      requires Inv(m) && IsRoot(m, r) && 0 < n && vpn + n <= MAXVPN && perm < 1024 && Leafy(perm)
      requires forall v :: vpn <= v < vpn + n ==> !Present(Lookup(m, r, v))
      modifies this
      ensures Inv(m) && Grew(old(m), m, r) && k <= n && (ok <==> k == n)
      ensures Mapped(old(m), m, r, vpn, k, ppn, perm)
      ensures !ok ==> m.free == []
      ensures ok <==> |old(m).free| >= Tables(old(m), r, vpn, n)
      ensures ok ==>
              |old(m).free| == |m.free| + Tables(old(m), r, vpn, n)
              && Nodes(m, r) == Nodes(old(m), r) + Paths(vpn, n)
    {
      hide FreeOk, DataOk, TreesOk, SameLookups, Lookup, Table, Mapped, LookupsExcept, Grew, Nodes, Path;
      ghost var m0 := m;
      GrewRefl(m, r);
      MappedNothing(m, r, vpn, ppn, perm);
      k := 0;
      var a := vpn;
      while a < vpn + n
        invariant vpn <= a <= vpn + n && k == a - vpn
        invariant Inv(m) && Grew(m0, m, r) && IsRoot(m, r)
        invariant Mapped(m0, m, r, vpn, k, ppn, perm)
        invariant Nodes(m, r) == Nodes(m0, r) + Paths(vpn, k) && |m0.free| == |m.free| + Tables(m0, r, vpn, k)
      {
        ghost var m1 := m;
        TablesNext(m0, m, r, vpn, k, n);
        var got, pt := Walk(r, a, true);
        MappedSame(m0, m1, m, r, vpn, k, ppn, perm);
        GrewTrans(m0, m1, m, r);
        if !got {
          return false, k;
        }
        ghost var m2 := m;
        MappedNext(m0, m, r, vpn, k, ppn, perm);
        NoDataAt(m, r, a);
        var pte := MakePte(ppn + a - vpn, perm);
        LeafKeeps(m, r, a, pte);
        m := m.(ram := m.ram[pt := Put(m.ram[pt], Index(0, a), pte)]);
        assert m == SetLeaf(m2, r, a, pte);
        PathDown(m2, r, a);
        SameRoles(m2, m, r);
        GrewLeaf(m0, m2, pt, Index(0, a), pte, r);
        MappedMore(m0, m2, m, r, vpn, k, ppn, perm);
        a, k := a + 1, k + 1;
      }
      ok := true;
    }

    // uvmunmap(): remove n translations from vpn on, and free the memory if it
    // is the tree's. The preconditions are the checks that panic.
    method Uvmunmap(r: nat, vpn: nat, n: nat, doFree: bool)
      requires Inv(m) && IsRoot(m, r) && vpn + n <= MAXVPN
      requires forall v :: vpn <= v < vpn + n ==> Present(Lookup(m, r, v))
      requires forall v :: vpn <= v < vpn + n ==> if doFree then Owned(m, r, v) else !Owned(m, r, v)
      modifies this
      ensures Inv(m) && Unmapped(old(m), m, r, vpn, n) && Released(old(m), m, r, vpn, vpn + n)
    {
      hide FreeOk, DataOk, TreesOk, Lookup, Table, Unmapped, Released, Owned;
      ghost var m0 := m;
      UnmappedNothing(m, r, vpn);
      var a := vpn;
      while a < vpn + n
        invariant vpn <= a <= vpn + n && Inv(m) && IsRoot(m, r)
        invariant Unmapped(m0, m, r, vpn, a - vpn) && Released(m0, m, r, vpn, a)
      {
        UnmapNext(m0, m, r, vpn, a);
        ghost var m1 := m;
        RemoveLeaf(r, a, doFree);
        UnmappedMore(m0, m1, m, r, vpn, a);
        a := a + 1;
      }
    }

    // One round of uvmunmap().
    method RemoveLeaf(r: nat, v: nat, doFree: bool)
      requires Inv(m) && IsRoot(m, r) && v < MAXVPN && Present(Lookup(m, r, v))
      requires if doFree then Owned(m, r, v) else !Owned(m, r, v)
      modifies this
      ensures Inv(m) && LookupsExcept(old(m), m, r, v, 0) && Released(old(m), m, r, v, v + 1)
    {
      hide FreeOk, DataOk, TreesOk, Lookup, LookupsExcept;
      ghost var m0 := m;
      var got, pt := Walk(r, v, false);
      assert got by { PresentHasTable(m, r, v); }
      LookupIs(m, r, v);
      var pte := m.ram[pt][Index(0, v)];
      if doFree {
        var pa := Ppn(pte);
        OwnedPage(m0, r, v);
        m := m.(role := m.role[pa := Other]);
        DisownKeeps(m0, pa);
        ghost var m1 := m;
        Kfree(pa);
        KfreeKeeps(m1, pa);
        SameTables(m0, m1, r, v);
        SameTables(m1, m, r, v);
        SameLookupsTrans(m0, m1, m);
      } else {
        SameLookupsRefl(m);
      }
      ghost var m2 := m;
      NoOwner(m0, m2, r, v, doFree);
      LeafKeeps(m2, r, v, 0);
      m := m.(ram := m.ram[pt := Put(m.ram[pt], Index(0, v), 0)]);
      assert m == SetLeaf(m2, r, v, 0);
      ExceptAfterSame(m0, m2, m, r, v);
      PathDown(m0, r, v);
      ReleasedOne(m0, m, r, v, doFree, pt);
    }

    // One round of uvmalloc() or uvmcopy(): a new page at v with the given
    // contents, or nothing.
    method AllocPage(r: nat, v: nat, perm: nat, page: Page, ghost img: Image) returns (ok: bool)
      requires Inv(m) && IsRoot(m, r) && v < MAXVPN && img.Ok(v) && perm == img.Perm(v) && page == img.Fill(v)
      requires !Present(Lookup(m, r, v))
      modifies this
      ensures Inv(m)
      ensures if ok then Allocated(old(m), m, r, v, v + 1, img) else SameLookups(old(m), m) && Grew(old(m), m, r)
      ensures ok <==> |old(m).free| >= 1 + |Path(v) - Nodes(old(m), r)|
      ensures ok ==>
              |old(m).free| == |m.free| + 1 + |Path(v) - Nodes(old(m), r)|
              && Nodes(m, r) == Nodes(old(m), r) + Path(v)
    {
      hide FreeOk, DataOk, TreesOk, Lookup, Mapped, Allocated, SameLookups, Grew, Took, Nodes, Path;
      ghost var m0 := m;
      SameLookupsRefl(m);
      GrewRefl(m, r);
      var got, mem := Kalloc();
      if !got { return false; }
      KallocKeeps(m0);
      ghost var m1 := m;
      m := m.(ram := m.ram[mem := page]);
      ScratchKeeps(m1, mem, page);
      ghost var m2 := m;
      SameLookupsTrans(m0, m1, m2);
      SameLookupAt(m0, m2, r, v);
      KallocTook(m0, page);
      NodesOther(m0, m2, mem, r);
      OneTable(m2, r, v);
      ghost var k;
      ok, k := Mappages(r, v, 1, mem, perm);
      ghost var m3 := m;
      GrewScratch(m2, m3, mem, r);
      if !ok {
        Kfree(mem);
        KfreeKeeps(m3, mem);
        AllocUndone(m0, m2, m3, m, mem, r);
        MappedZero(m2, m3, r, v, mem, perm);
        SameLookupsTrans(m0, m2, m3);
        SameLookupsTrans(m0, m3, m);
      } else {
        m := m.(role := m.role[mem := Data(r, v)]);
        NodesOther(m3, m, mem, r);
        AdoptPage(m3, mem, r, v, perm, m2);
        AllocDone(m0, m2, m3, m, r, v, mem, img);
      }
    }

    // uvmdealloc(): shrink from oldsz to newsz bytes.
    method Uvmdealloc(r: nat, oldsz: nat, newsz: nat) returns (size: nat)
      requires Inv(m) && IsRoot(m, r) && Pages(oldsz) <= MAXVPN
      requires forall v :: Pages(newsz) <= v < Pages(oldsz) ==> Owned(m, r, v)
      modifies this
      ensures size == if newsz >= oldsz then oldsz else newsz
      ensures Inv(m) && (newsz >= oldsz ==> m == old(m))
      ensures newsz < oldsz ==> Released(old(m), m, r, Pages(newsz), Pages(oldsz))
      ensures newsz < oldsz ==> Unmapped(old(m), m, r, Pages(newsz), Pages(oldsz) - Pages(newsz))
    {
      hide FreeOk, DataOk, TreesOk, Lookup, Unmapped, Released, Owned;
      if newsz >= oldsz {
        return oldsz;
      }
      PagesMonotone(newsz, oldsz);
      UnmappedNothing(m, r, Pages(newsz));
      if Pages(newsz) < Pages(oldsz) {
        var npages := Pages(oldsz) - Pages(newsz);
        forall v | Pages(newsz) <= v < Pages(oldsz) ensures Present(Lookup(m, r, v)) {
          OwnedPage(m, r, v);
        }
        Uvmunmap(r, Pages(newsz), npages, true);
      }
      return newsz;
    }

    // uvmalloc(): grow from oldsz to newsz bytes. A failure leaves every
    // translation as it was and keeps no memory but table pages.
    method Uvmalloc(r: nat, oldsz: nat, newsz: nat, xperm: nat) returns (size: nat, ghost ok: bool)
      requires Inv(m) && IsRoot(m, r) && Pages(newsz) <= MAXVPN && xperm in {0, PTE_W, PTE_X, PTE_W + PTE_X}
      requires forall v :: Pages(oldsz) <= v < Pages(newsz) ==> !Present(Lookup(m, r, v))
      modifies this
      ensures size == if newsz < oldsz then oldsz else if ok then newsz else 0
      ensures Inv(m) && (newsz < oldsz ==> m == old(m))
      ensures newsz >= oldsz && ok ==>
              Allocated(old(m), m, r, Pages(oldsz), Pages(newsz), Zeroed(PTE_R + PTE_U + xperm))
      ensures newsz >= oldsz && !ok ==> SameLookups(old(m), m) && Grew(old(m), m, r)
      ensures newsz >= oldsz ==> 0 <= Pages(newsz) - Pages(oldsz)
      ensures newsz >= oldsz ==> var n := Pages(newsz) - Pages(oldsz);
        && (ok <==> |old(m).free| >= n + Tables(old(m), r, Pages(oldsz), n))
        && (ok ==> |old(m).free| == |m.free| + n + Tables(old(m), r, Pages(oldsz), n)
                   && Nodes(m, r) == Nodes(old(m), r) + Paths(Pages(oldsz), n))
    {
      hide FreeOk, DataOk, TreesOk, Lookup, Allocated, SameLookups, Grew, Unmapped, Released, Owned, Nodes, Path;
      if newsz < oldsz {
        return oldsz, true;
      }
      ghost var m0 := m;
      var perm := PTE_R + PTE_U + xperm;
      ghost var img := Zeroed(perm);
      var first := Pages(oldsz);
      PagesMonotone(oldsz, newsz);
      AllocatedNothing(m, r, first, img);
      var a := first;
      while a * PGSIZE < newsz
        invariant first <= a <= Pages(newsz) && Inv(m) && IsRoot(m, r)
        invariant Allocated(m0, m, r, first, a, img) && Nodes(m, r) == Nodes(m0, r) + Paths(first, a - first)
        invariant |m0.free| == |m.free| + (a - first) + Tables(m0, r, first, a - first)
      {
        AllocatedNext(m0, m, r, first, a, img);
        TablesNext(m0, m, r, first, a - first, Pages(newsz) - first);
        ghost var m1 := m;
        var got := AllocPage(r, a, perm, Filled(0), img);
        if !got {
          AllocatedSame(m0, m1, m, r, first, a, img);
          UndoAlloc(r, first, a, m0, img);
          return 0, false;
        }
        AllocatedMore(m0, m1, m, r, first, a, img);
        AllocatedRoot(m0, m, r, first, a + 1, img);
        a := a + 1;
      }
      return newsz, true;
    }

    // The error exit of uvmalloc(): the pages first .. a go again.
    method UndoAlloc(r: nat, first: nat, a: nat, ghost m0: Mem, ghost img: Image)
      requires Inv(m0) && Inv(m) && IsRoot(m0, r) && first <= a <= MAXVPN && Allocated(m0, m, r, first, a, img)
      requires forall v :: first <= v < a ==> !Present(Lookup(m0, r, v))
      modifies this
      ensures Inv(m) && SameLookups(m0, m) && Grew(m0, m, r)
    {
      hide FreeOk, DataOk, TreesOk, Lookup, Allocated, SameLookups, Grew, Unmapped, Released, Owned;
      AllocatedRoot(m0, m, r, first, a, img);
      ghost var m2 := m;
      forall v | first <= v < a ensures Owned(m2, r, v) { AllocatedOwned(m0, m2, r, first, a, img, v); }
      AlignedPages(a);
      AlignedPages(first);
      var _ := Uvmdealloc(r, a * PGSIZE, first * PGSIZE);
      forall v | first <= v < a ensures Lookup(m0, r, v) == 0 { AbsentIsZero(m0, r, v); }
      if first < a {
        RolledBack(m0, m2, m, r, first, a, img);
      } else {
        NothingAllocated(m0, m2, r, first, img);
      }
    }

    // uvmcreate()
    method Uvmcreate() returns (ok: bool, r: nat)
      requires Inv(m)
      modifies this
      ensures Inv(m) && (ok <==> old(m).free != []) && (!ok ==> m == old(m))
      ensures ok ==> r == old(m).free[0] && NewTree(old(m), m, r) && |old(m).free| == |m.free| + 1
    {
      hide FreeOk, DataOk, TreesOk, Lookup, NewTree;
      ghost var m0 := m;
      ok, r := Kalloc();
      if ok {
        KallocKeeps(m0);
        ghost var m1 := m;
        NewRootKeeps(m1, r);
        m := m.(ram := m.ram[r := Filled(0)], role := m.role[r := Node(r, 2, 0, r)]);
        assert m == NewRoot(m1, r);
        Created(m0, m1, m, r);
      }
    }

    // freewalk() and proc_free_kpagetable() below the root: free node c and all
    // nodes under it. The parent's entry that leads to c is left dangling, for
    // the caller to clear. With clear set, leaves are dropped; without, the
    // original panics on one, and there is none.
    method FreeSubtree(c: nat, clear: bool, ghost level: nat)
      requires Inv(m) && c < |m.ram| && m.role[c].Node? && m.role[c].level == level < 2
      requires OwnsNothing(m, m.role[c].root) && (clear || NoLeaves(m, m.role[c].root))
      modifies this
      ensures Shape(m) && |m.ram| == |old(m).ram| && old(m).role[c].parent < |m.ram|
      ensures Trimmed(old(m), m, old(m).role[c].root, level, level) && m.role[c] == Free
      ensures var root := old(m).role[c].root;
              Settled(old(m), SetEntry(m, old(m).role[c].parent, old(m).role[c].prefix % ENTRIES, 0), root, clear)
      decreases level
    {
      hide FreeOk, DataOk, TreesOk, Lookup, NoLeaves, OwnsNothing, Empty, Settled, Trimmed, NodeOk, EntryOk;
      ghost var m0, root := m, m.role[c].root;
      SettledRefl(m, root, clear, level);
      var i := 0;
      while i < ENTRIES
        invariant 0 <= i <= ENTRIES && Shape(m) && |m.ram| == |m0.ram| && m.role[c] == m0.role[c]
        invariant Settled(m0, m, root, clear) && Trimmed(m0, m, root, level - 1, level)
        invariant forall j :: 0 <= j < i ==> m.ram[c][j] == 0
      {
        FreeEntry(c, i, clear, level, m0);
        i := i + 1;
      }
      ghost var m2 := m;
      SubtreeDone(m0, m2, root, c, clear, level);
      Kfree(c);
    }

    // One round of the loop of freewalk(): clear entry i of node c.
    method FreeEntry(c: nat, i: nat, clear: bool, ghost level: nat, ghost m0: Mem)
      requires Shape(m0) && Shape(m) && |m.ram| == |m0.ram|
      requires c < |m0.ram| && m0.role[c].Node? && m0.role[c].level == level <= 2 && i < ENTRIES
      requires Settled(m0, m, m0.role[c].root, clear) && Trimmed(m0, m, m0.role[c].root, level - 1, level)
      requires m.role[c] == m0.role[c]
      modifies this
      ensures Settled(m0, m, m0.role[c].root, clear) && Trimmed(m0, m, m0.role[c].root, level - 1, level)
      ensures Shape(m) && |m.ram| == |m0.ram| && m.role[c] == m0.role[c] && m.ram[c] == Put(old(m).ram[c], i, 0)
      decreases level, 0
    {
      hide FreeOk, DataOk, TreesOk, Lookup, NoLeaves, OwnsNothing, Settled, Trimmed, NodeOk, EntryOk;
      ghost var root, m1 := m.role[c].root, m;
      EntryFacts(m0, m, c, i, level, clear);
      var pte := m.ram[c][i];
      if Present(pte) {
        if !Leafy(pte) {
          FreeSubtree(Ppn(pte), clear, level - 1);
          TrimmedEntry(m1, m, root, level - 1, c);
          m := m.(ram := m.ram[c := Put(m.ram[c], i, 0)]);
          EntryCleared(m0, m1, m, root, c, clear, level);
        } else {
          m := m.(ram := m.ram[c := Put(m.ram[c], i, 0)]);
          LeafCleared(m0, m1, m, root, c, i, clear);
        }
      } else {
        assert Put(m.ram[c], i, 0) == m.ram[c];
      }
    }

    // freewalk() and proc_free_kpagetable() of a whole tree: every node of it is
    // free afterwards, and nothing else has changed.
    method Freewalk(r: nat, clear: bool)
      requires Inv(m) && IsRoot(m, r) && OwnsNothing(m, r) && (clear || NoLeaves(m, r))
      modifies this
      ensures Inv(m) && TreeGone(old(m), m, r)
    {
      hide FreeOk, DataOk, TreesOk, Lookup, NoLeaves, OwnsNothing, Settled, Trimmed, NodeOk, EntryOk, TreeGone;
      ghost var m0 := m;
      SettledRefl(m, r, clear, 2);
      var i := 0;
      while i < ENTRIES
        invariant 0 <= i <= ENTRIES && Shape(m) && |m.ram| == |m0.ram| && m.role[r] == m0.role[r]
        invariant Settled(m0, m, r, clear) && Trimmed(m0, m, r, 1, 2)
        invariant forall j :: 0 <= j < i ==> m.ram[r][j] == 0
      {
        FreeEntry(r, i, clear, 2, m0);
        i := i + 1;
      }
      TreeDone(m0, m, r, clear);
      Kfree(r);
    }

    // uvmfree(): free the memory of the tree, then its nodes.
    method Uvmfree(r: nat, sz: nat)
      requires Inv(m) && IsRoot(m, r) && Pages(sz) <= MAXVPN
      requires forall v :: 0 <= v < VPNS ==> (Present(Lookup(m, r, v)) <==> v < Pages(sz))
      requires forall v :: 0 <= v < Pages(sz) ==> Owned(m, r, v)
      modifies this
      ensures Inv(m) && MemoryReturned(old(m), m, r)
    {
      hide FreeOk, DataOk, TreesOk, Lookup, NoLeaves, OwnsNothing, Released, Unmapped, TreeGone, MemoryReturned;
      ghost var m0 := m;
      UnmappedNothing(m, r, 0);
      if sz > 0 {
        Uvmunmap(r, 0, Pages(sz), true);
      }
      ghost var m1 := m;
      NothingLeft(m0, m1, r, Pages(sz));
      Freewalk(r, false);
      Returned(m0, m1, m, r, Pages(sz));
    }
  }

  // Tree r is gone and its nodes are free; nothing else has changed.
  ghost predicate TreeGone(m: Mem, m': Mem, r: nat) {
    && Shape(m) && Shape(m') && m'.lo == m.lo && |m'.ram| == |m.ram|
    && (forall p :: 0 <= p < |m.role| ==> m'.role[p] == if m.role[p].Node? && m.role[p].root == r then Free
        else m.role[p])
    && (forall p :: 0 <= p < |m.role| && !m'.role[p].Free? ==> m'.ram[p] == m.ram[p])
    && (forall q :: IsRoot(m', q) <==> IsRoot(m, q) && q != r)
    && forall q, v :: IsRoot(m', q) && IsRoot(m, q) && 0 <= v < VPNS ==> Lookup(m', q, v) == Lookup(m, q, v)
  }

  // Tree r is gone, and its nodes and the memory it owned are free.
  ghost predicate MemoryReturned(m: Mem, m': Mem, r: nat) {
    && Shape(m) && Shape(m') && m'.lo == m.lo && |m'.ram| == |m.ram|
    && (forall p :: 0 <= p < |m.role| ==>
          m'.role[p] == if (m.role[p].Node? && m.role[p].root == r) || (m.role[p].Data? && m.role[p].owner == r)
                        then Free else m.role[p])
    && (forall p :: 0 <= p < |m.role| && (m'.role[p].Data? || m'.role[p].Other?) ==> m'.ram[p] == m.ram[p])
    && (forall q :: IsRoot(m', q) <==> IsRoot(m, q) && q != r)
    && forall q, v :: IsRoot(m', q) && IsRoot(m, q) && 0 <= v < VPNS ==> Lookup(m', q, v) == Lookup(m, q, v)
  }

  lemma DropRoot(m: Mem, r: nat)
    requires Inv(m) && IsRoot(m, r) && OwnsNothing(m, r) && forall j :: 0 <= j < ENTRIES ==> m.ram[r][j] == 0
    ensures forall p :: 0 <= p < |m.role| && m.role[p].Node? && m.role[p].root == r ==> p == r
    ensures var m' := m.(role := m.role[r := Other]);
      && Inv(m') && m.lo <= r && (forall q :: IsRoot(m', q) <==> IsRoot(m, q) && q != r)
      && forall q, v :: IsRoot(m', q) && IsRoot(m, q) && 0 <= v < VPNS ==> Lookup(m', q, v) == Lookup(m, q, v)
  {
    hide Lookup, Table, FreeOk;
    var m' := m.(role := m.role[r := Other]);
    assert NodeOk(m, r);
    forall p | 0 <= p < |m.role| && m.role[p].Node? && m.role[p].root == r ensures p == r {
      OnlyRoot(m, r, p);
    }
    DropTrees(m, r);
    forall q, v | IsRoot(m', q) && 0 <= v < VPNS ensures Lookup(m', q, v) == Lookup(m, q, v) {
      DropLookup(m, r, q, v);
    }
    RoleFree(m, r, Other);
  }

  lemma OnlyRoot(m: Mem, r: nat, p: nat)
    requires Inv(m) && IsRoot(m, r) && forall j :: 0 <= j < ENTRIES ==> m.ram[r][j] == 0
    requires p < |m.role| && m.role[p].Node? && m.role[p].root == r
    ensures p == r
  {
    hide FreeOk, DataOk, EntryOk;
    assert NodeOk(m, p);
    if m.role[p].level == 1 {
      PathUp1(m, p);
    } else if m.role[p].level == 0 {
      PathUp1(m, m.role[p].parent);
    }
  }

  lemma DropTrees(m: Mem, r: nat)
    requires Inv(m) && IsRoot(m, r)
    requires forall p :: 0 <= p < |m.role| && m.role[p].Node? && m.role[p].root == r ==> p == r
    ensures TreesOk(m.(role := m.role[r := Other]))
  {
    hide FreeOk, DataOk;
    var m' := m.(role := m.role[r := Other]);
    forall p | 0 <= p < |m.role| && m'.role[p].Node? ensures NodeOk(m', p) {
      assert NodeOk(m, p);
    }
    forall p, i | 0 <= p < |m.role| && m'.role[p].Node? && 0 <= i < ENTRIES ensures EntryOk(m', p, i) {
      assert EntryOk(m, p, i);
    }
  }

  lemma DropLookup(m: Mem, r: nat, q: nat, v: nat)
    requires Inv(m) && IsRoot(m, r) && IsRoot(m, q) && q != r && v < VPNS
    ensures Lookup(m.(role := m.role[r := Other]), q, v) == Lookup(m, q, v)
  {
  }

  lemma TreeDone(m0: Mem, m2: Mem, r: nat, clear: bool)
    requires Settled(m0, m2, r, clear) && Trimmed(m0, m2, r, 1, 2) && IsRoot(m0, r)
    requires m2.role[r] == m0.role[r] && forall j :: 0 <= j < ENTRIES ==> m2.ram[r][j] == 0
    ensures m2.lo <= r && Inv(PageTable.Kfree(m2, r)) && TreeGone(m0, PageTable.Kfree(m2, r), r)
  {
    hide Lookup, FreeOk, DataOk, TreesOk, OwnsNothing;
    DropRoot(m2, r);
    var m3 := m2.(role := m2.role[r := Other]);
    KfreeKeeps(m3, r);
    var m := PageTable.Kfree(m2, r);
    assert m == PageTable.Kfree(m3, r);
  }

  lemma NothingLeft(m0: Mem, m1: Mem, r: nat, n: nat)
    requires Inv(m0) && IsRoot(m0, r) && Released(m0, m1, r, 0, n) && Unmapped(m0, m1, r, 0, n)
    requires forall v :: 0 <= v < VPNS ==> (Present(Lookup(m0, r, v)) <==> v < n)
    ensures IsRoot(m1, r) && NoLeaves(m1, r) && OwnsNothing(m1, r)
  {
    hide Lookup, FreeOk, TreesOk;
  }

  lemma Returned(m0: Mem, m1: Mem, m: Mem, r: nat, n: nat)
    requires Inv(m0) && IsRoot(m0, r) && Released(m0, m1, r, 0, n) && Unmapped(m0, m1, r, 0, n) && TreeGone(m1, m, r)
    requires forall v :: 0 <= v < VPNS ==> (Present(Lookup(m0, r, v)) <==> v < n)
    ensures MemoryReturned(m0, m, r)
  {
    hide Lookup, FreeOk, TreesOk;
  }

  // No translation of tree r is present.
  ghost predicate NoLeaves(m: Mem, r: nat) {
    Shape(m) && IsRoot(m, r) && forall v :: 0 <= v < VPNS ==> !Present(Lookup(m, r, v))
  }

  predicate OwnsNothing(m: Mem, r: nat) {
    forall p :: 0 <= p < |m.role| && m.role[p].Data? ==> m.role[p].owner != r
  }

  // m is in order again, and the other trees translate as in m0.
  ghost predicate Settled(m0: Mem, m: Mem, root: nat, clear: bool) {
    && Shape(m0) && Inv(m) && IsRoot(m, root) && OwnsNothing(m, root) && (clear || NoLeaves(m, root))
    && (forall q :: IsRoot(m0, q) <==> IsRoot(m, q))
    && forall q, v :: IsRoot(m0, q) && IsRoot(m, q) && q != root && 0 <= v < VPNS ==>
      Lookup(m, q, v) == Lookup(m0, q, v)
  }

  // Only nodes of the tree up to level gone were freed, and only nodes of the
  // tree up to level changed were written.
  predicate Trimmed(m0: Mem, m: Mem, root: nat, gone: int, changed: int) {
    && Shape(m0) && Shape(m) && m.lo == m0.lo && |m.ram| == |m0.ram|
    && (forall p :: 0 <= p < |m.role| ==>
          || m.role[p] == m0.role[p]
          || (m0.role[p].Node? && m0.role[p].root == root && m0.role[p].level <= gone && m.role[p] == Free))
    && (forall p :: 0 <= p < |m.role| ==>
          || m0.role[p].Free?
          || (m0.role[p].Node? && m0.role[p].root == root && m0.role[p].level <= changed)
          || m.ram[p] == m0.ram[p])
  }

  lemma SettledRefl(m: Mem, root: nat, clear: bool, level: nat)
    requires Inv(m) && OwnsNothing(m, root) && (clear || NoLeaves(m, root))
    requires exists c :: 0 <= c < |m.role| && m.role[c].Node? && m.role[c].root == root
    ensures Settled(m, m, root, clear) && Trimmed(m, m, root, level - 1, level)
  {
    hide Lookup, EntryOk, FreeOk, DataOk;
    var c :| 0 <= c < |m.role| && m.role[c].Node? && m.role[c].root == root;
    assert NodeOk(m, c);
  }

  // What an entry of a node can be.
  lemma EntryFacts(m0: Mem, m: Mem, c: nat, i: nat, level: nat, clear: bool)
    requires c < |m0.role| && m0.role[c].Node? && Settled(m0, m, m0.role[c].root, clear) && c < |m.role|
    requires m.role[c] == m0.role[c] && m.role[c].level == level && i < ENTRIES
    ensures Shape(m) && Inv(m) && |m.ram[c]| == ENTRIES && OwnsNothing(m, m.role[c].root)
    ensures clear || NoLeaves(m, m.role[c].root)
    ensures var pte := m.ram[c][i];
      && (!Present(pte) ==> pte == 0)
      && (Present(pte) && !Leafy(pte) ==>
            && 0 < level && Ppn(pte) < |m.ram|
            && m.role[Ppn(pte)] == Node(m.role[c].root, level - 1, m.role[c].prefix * ENTRIES + i, c))
      && (Present(pte) && Leafy(pte) ==> level == 0 && clear)
  {
    hide Lookup, FreeOk, DataOk;
    assert EntryOk(m, c, i);
    if level == 0 && Present(m.ram[c][i]) && !clear {
      LeafSeen(m, c, i);
      assert false;
    }
  }

  // A present entry of a level-0 node is a translation.
  lemma LeafSeen(m: Mem, c: nat, i: nat)
    requires Inv(m) && c < |m.role| && m.role[c].Node? && m.role[c].level == 0 && i < ENTRIES
    ensures var v := m.role[c].prefix * ENTRIES + i;
      v < VPNS && IsRoot(m, m.role[c].root) && Table(m, m.role[c].root, v) == c
      && Index(0, v) == i && Lookup(m, m.role[c].root, v) == m.ram[c][i]
  {
    hide EntryOk, FreeOk, DataOk;
    var v := m.role[c].prefix * ENTRIES + i;
    assert NodeOk(m, c);
    PathUp1(m, m.role[c].parent);
    assert m.role[c].prefix < ENTRIES * ENTRIES;
    assert Prefix(1, v) == m.role[c].prefix && Index(0, v) == i;
    PathUp(m, c, v);
  }

  lemma TrimmedEntry(m1: Mem, m: Mem, root: nat, gone: int, c: nat)
    requires Trimmed(m1, m, root, gone, gone) && c < |m1.role| && m1.role[c].Node? && m1.role[c].level == gone + 1
    ensures c < |m.ram| && |m.ram[c]| == ENTRIES && m.ram[c] == m1.ram[c] && m.role[c] == m1.role[c]
  {
  }

  lemma EntryCleared(m0: Mem, m1: Mem, m: Mem, root: nat, c: nat, clear: bool, level: nat)
    requires Settled(m0, m1, root, clear) && Trimmed(m0, m1, root, level - 1, level)
    requires Settled(m1, m, root, clear) && 0 < level && c < |m1.role| && m1.role[c].Node?
    requires m1.role[c].root == root && m1.role[c].level == level && m1.role[c] == m0.role[c]
    requires exists w: Mem ::
      && Trimmed(m1, w, root, level - 1, level - 1) && m.role == w.role && m.lo == w.lo && |m.ram| == |w.ram|
      && forall p :: 0 <= p < |w.ram| && p != c ==> m.ram[p] == w.ram[p]
    ensures Settled(m0, m, root, clear) && Trimmed(m0, m, root, level - 1, level) && m.role[c] == m0.role[c]
  {
    hide Lookup, FreeOk, DataOk, TreesOk, OwnsNothing, NoLeaves;
  }

  lemma LeafCleared(m0: Mem, m1: Mem, m: Mem, root: nat, c: nat, i: nat, clear: bool)
    requires Settled(m0, m1, root, clear) && Trimmed(m0, m1, root, -1, 0) && clear
    requires c < |m1.role| && m1.role[c].Node? && m1.role[c].root == root && m1.role[c].level == 0
    requires i < ENTRIES && m1.role[c] == m0.role[c] && |m1.ram[c]| == ENTRIES
    requires m == m1.(ram := m1.ram[c := Put(m1.ram[c], i, 0)])
    ensures Settled(m0, m, root, clear) && Trimmed(m0, m, root, -1, 0)
  {
    hide Lookup, Table, FreeOk, DataOk, TreesOk;
    LeafSeen(m1, c, i);
    var v := m1.role[c].prefix * ENTRIES + i;
    LeafKeeps(m1, root, v, 0);
    assert m == SetLeaf(m1, root, v, 0);
  }

  // The loop has emptied node c: cut it off and free it.
  lemma SubtreeDone(m0: Mem, m2: Mem, root: nat, c: nat, clear: bool, level: nat)
    requires Settled(m0, m2, root, clear) && Trimmed(m0, m2, root, level - 1, level)
    requires c < |m0.role| && m0.role[c].Node? && m0.role[c].root == root && m0.role[c].level == level < 2
    requires m2.role[c] == m0.role[c] && forall j :: 0 <= j < ENTRIES ==> m2.ram[c][j] == 0
    ensures m2.lo <= c && m0.role[c].parent < |m2.ram|
    ensures var m := PageTable.Kfree(m2, c);
      && Trimmed(m0, m, root, level, level)
      && Settled(m0, SetEntry(m, m0.role[c].parent, m0.role[c].prefix % ENTRIES, 0), root, clear)
  {
    hide Lookup, FreeOk, DataOk, EntryOk;
    var m := PageTable.Kfree(m2, c);
    assert NodeOk(m2, c);
    assert Empty(m2, c);
    CutKeeps(m2, c);
    var m3 := CutOff(m2, c);
    KfreeKeeps(m3, c);
    assert SetEntry(m, m0.role[c].parent, m0.role[c].prefix % ENTRIES, 0) == PageTable.Kfree(m3, c);
    SettledAfter(m0, m2, m3, PageTable.Kfree(m3, c), root, clear, c);
  }

  lemma SettledAfter(m0: Mem, m2: Mem, m3: Mem, m: Mem, root: nat, clear: bool, c: nat)
    requires Settled(m0, m2, root, clear) && Shape(m3) && Inv(m) && SameLookups(m3, m)
    requires forall q :: IsRoot(m3, q) <==> IsRoot(m2, q)
    requires forall q, v :: IsRoot(m2, q) && IsRoot(m3, q) && q != root && 0 <= v < VPNS ==>
             Lookup(m3, q, v) == Lookup(m2, q, v)
    requires forall v :: 0 <= v < VPNS && IsRoot(m3, root) && !Present(Lookup(m2, root, v)) ==>
             !Present(Lookup(m3, root, v))
    requires c < |m2.role| == |m.role| && !m2.role[c].Data? && m.role == m2.role[c := Free]
    ensures Settled(m0, m, root, clear)
  {
    hide Lookup, FreeOk, DataOk, TreesOk;
  }

  // r is the root of a new tree without translations.
  ghost predicate NewTree(m: Mem, m': Mem, r: nat) {
    && Shape(m) && Shape(m') && r < |m.ram| == |m'.ram| && m'.lo == m.lo
    && m.role[r] == Free && m'.role == m.role[r := Node(r, 2, 0, r)]
    && (forall p :: 0 <= p < |m.ram| && p != r ==> m'.ram[p] == m.ram[p])
    && NoLeaves(m', r)
    && forall q, v :: IsRoot(m, q) && 0 <= v < VPNS ==> Lookup(m', q, v) == Lookup(m, q, v)
  }

  lemma Created(m0: Mem, m1: Mem, m: Mem, r: nat)
    requires Inv(m0) && m0.free != [] && r == m0.free[0] && m1 == PageTable.Kalloc(m0) && SameLookups(m0, m1)
    requires r < |m1.ram| && m == NewRoot(m1, r) && IsRoot(m, r)
    requires forall v :: 0 <= v < VPNS ==> Lookup(m, r, v) == 0
    requires forall q, v :: IsRoot(m1, q) && 0 <= v < VPNS ==> Lookup(m, q, v) == Lookup(m1, q, v)
    ensures NewTree(m0, m, r)
  {
    hide Lookup, DataOk, TreesOk;
  }

  // PGROUNDUP(sz) / PGSIZE
  function Pages(sz: nat): nat {
    (sz + PGSIZE - 1) / PGSIZE
  }

  lemma PagesMonotone(a: nat, b: nat)
    requires a <= b
    ensures Pages(a) <= Pages(b)
  {
  }

  lemma AlignedPages(a: nat)
    ensures Pages(a * PGSIZE) == a
  {
  }

  lemma AllocatedNothing(m: Mem, r: nat, lo: nat, img: Image)
    requires Shape(m)
    ensures Allocated(m, m, r, lo, lo, img)
  {
  }

  lemma NothingAllocated(m: Mem, m': Mem, r: nat, lo: nat, img: Image)
    requires Allocated(m, m', r, lo, lo, img)
    ensures SameLookups(m, m') && Grew(m, m', r)
  {
    hide Lookup;
  }

  lemma AllocatedNext(m: Mem, m': Mem, r: nat, lo: nat, v: nat, img: Image)
    requires Allocated(m, m', r, lo, v, img) && IsRoot(m, r) && v < VPNS
    ensures IsRoot(m', r) && Lookup(m', r, v) == Lookup(m, r, v)
  {
    hide Lookup, FreshAt;
  }

  lemma AllocatedRoot(m: Mem, m': Mem, r: nat, lo: nat, hi: nat, img: Image)
    requires Allocated(m, m', r, lo, hi, img) && IsRoot(m, r)
    ensures IsRoot(m', r)
  {
    hide Lookup, FreshAt;
  }

  lemma AllocatedOwned(m: Mem, m': Mem, r: nat, lo: nat, hi: nat, img: Image, v: nat)
    requires Allocated(m, m', r, lo, hi, img) && IsRoot(m, r) && lo <= v < hi && v < VPNS
    ensures Owned(m', r, v)
  {
    hide Lookup;
    assert FreshAt(m, m', r, v, img);
  }

  lemma AllocatedSame(a: Mem, b: Mem, c: Mem, r: nat, lo: nat, hi: nat, img: Image)
    requires Allocated(a, b, r, lo, hi, img) && Grew(b, c, r) && SameLookups(b, c)
    ensures Allocated(a, c, r, lo, hi, img)
  {
    hide Lookup, MakePte;
    forall v | lo <= v < hi && v < VPNS && IsRoot(c, r) ensures FreshAt(a, c, r, v, img) {
      assert FreshAt(a, b, r, v, img);
    }
  }

  lemma AllocatedMore(a: Mem, b: Mem, c: Mem, r: nat, lo: nat, v: nat, img: Image)
    requires Allocated(a, b, r, lo, v, img) && Allocated(b, c, r, v, v + 1, img) && lo <= v
    ensures Allocated(a, c, r, lo, v + 1, img)
  {
    hide Lookup, MakePte;
    forall w | lo <= w < v + 1 && w < VPNS && IsRoot(c, r) ensures FreshAt(a, c, r, w, img) {
      if w < v {
        assert FreshAt(a, b, r, w, img);
        assert Lookup(c, r, w) == Lookup(b, r, w);
      } else {
        assert FreshAt(b, c, r, w, img);
      }
    }
  }

  lemma RolledBack(m0: Mem, m: Mem, m': Mem, r: nat, lo: nat, hi: nat, img: Image)
    requires Allocated(m0, m, r, lo, hi, img) && IsRoot(m0, r) && lo < hi <= VPNS
    requires Unmapped(m, m', r, lo, hi - lo) && Released(m, m', r, lo, hi)
    requires forall v :: lo <= v < hi ==> Lookup(m0, r, v) == 0
    requires Inv(m0)
    ensures SameLookups(m0, m') && Grew(m0, m', r)
  {
    hide Lookup, FreshAt, FreeOk, TreesOk;
  }

  // Writing to a page that is no node and not free.
  lemma ScratchKeeps(m: Mem, p: nat, page: Page)
    requires Inv(m) && p < |m.ram| && (m.role[p].Other? || m.role[p].Data?) && |page| == ENTRIES
    ensures var m' := m.(ram := m.ram[p := page]); Inv(m') && SameNodes(m, m') && SameLookups(m, m')
  {
    hide Lookup, Table, NodeOk, EntryOk;
    var m' := m.(ram := m.ram[p := page]);
    NodesFrame(m, m');
    DataFrame(m, m');
  }

  lemma SameLookupAt(m: Mem, m': Mem, r: nat, v: nat)
    requires Shape(m) && Shape(m') && SameLookups(m, m') && IsRoot(m, r) && v < VPNS
    ensures IsRoot(m', r) && Lookup(m', r, v) == Lookup(m, r, v)
  {
    hide Lookup;
  }

  lemma GrewScratch(m: Mem, m': Mem, p: nat, r: nat)
    requires Grew(m, m', r) && p < |m.ram| && m.role[p] == Other
    ensures m'.role[p] == Other && m'.ram[p] == m.ram[p] && m'.lo == m.lo && |m'.ram| == |m.ram|
  {
  }

  // What new memory is filled with and how it is mapped: the same page with the
  // same permissions everywhere, or a copy of the memory that tree r maps in m.
  datatype Image = Same(perm: nat, page: Page) | CopyOf(m: Mem, r: nat) {
    predicate Ok(v: nat) {
      match this
      case Same(perm, page) => perm < 1024 && Leafy(perm) && |page| == ENTRIES
      case CopyOf(m, r) => Shape(m) && r < |m.ram| && Ppn(Lookup(m, r, v)) < |m.ram| && Leafy(Lookup(m, r, v))
    }

    function Perm(v: nat): (perm: nat)
      requires Ok(v)
      ensures perm < 1024 && Leafy(perm)
    {
      if Same? then perm else Flags(Lookup(m, r, v))
    }

    function Fill(v: nat): (p: Page)
      requires Ok(v)
      ensures |p| == ENTRIES
    {
      if Same? then page else m.ram[Ppn(Lookup(m, r, v))]
    }
  }

  function Zeroed(perm: nat): Image {
    Same(perm, Filled(0))
  }

  // Tree r got fresh memory at lo .. hi, filled and mapped as img says; all
  // other translations and all other uses of pages are as before.
  ghost predicate Allocated(m: Mem, m': Mem, r: nat, lo: nat, hi: nat, img: Image) {
    && Shape(m) && Shape(m') && m'.lo == m.lo && |m'.ram| == |m.ram|
    && (forall q :: IsRoot(m, q) <==> IsRoot(m', q))
    && (forall q, v :: IsRoot(m, q) && IsRoot(m', q) && 0 <= v < VPNS && !(q == r && lo <= v < hi) ==>
          Lookup(m', q, v) == Lookup(m, q, v))
    && (forall v :: lo <= v < hi && v < VPNS && IsRoot(m', r) ==> FreshAt(m, m', r, v, img))
    && (forall p :: 0 <= p < |m.role| ==>
          || m'.role[p] == m.role[p]
          || (m.role[p] == Free
              && ((m'.role[p].Node? && m'.role[p].root == r)
                  || (m'.role[p].Data? && m'.role[p].owner == r && lo <= m'.role[p].vpn < hi))))
    && (forall p :: 0 <= p < |m.role| && (m.role[p].Data? || m.role[p].Other?) ==> m'.ram[p] == m.ram[p])
  }

  predicate FreshAt(m: Mem, m': Mem, r: nat, v: nat, img: Image)
    requires Shape(m) && Shape(m') && |m'.ram| == |m.ram| && r < |m'.ram|
  {
    var pte := Lookup(m', r, v);
    && img.Ok(v) && Present(pte) && Ppn(pte) < |m.ram| && pte == MakePte(Ppn(pte), img.Perm(v))
    && m.role[Ppn(pte)] == Free && m'.role[Ppn(pte)] == Data(r, v) && m'.ram[Ppn(pte)] == img.Fill(v)
  }

  lemma AdoptPage(m: Mem, p: nat, r: nat, v: nat, perm: nat, before: Mem)
    requires Inv(m) && m.lo <= p < |m.ram| && m.role[p] == Other && perm < 1024 && v < VPNS
    requires IsRoot(before, r) && Mapped(before, m, r, v, 1, p, perm)
    ensures var m' := m.(role := m.role[p := Data(r, v)]); Inv(m') && SameLookups(m, m')
  {
    hide Lookup, Table, NodeOk, EntryOk, FreeOk;
    var m' := m.(role := m.role[p := Data(r, v)]);
    NodesFrame(m, m');
    RoleFree(m, p, Data(r, v));
  }

  lemma RoleFree(m: Mem, p: nat, role: Role)
    requires Shape(m) && FreeOk(m) && p < |m.ram| && !m.role[p].Free? && !role.Free?
    ensures FreeOk(m.(role := m.role[p := role]))
  {
  }

  lemma MappedZero(m: Mem, m': Mem, r: nat, v: nat, p: nat, perm: nat)
    requires perm < 1024 && Mapped(m, m', r, v, 0, p, perm)
    ensures SameLookups(m, m')
  {
    hide Lookup, MakePte;
  }

  // m2 is m0 after kalloc() of page p and memset().
  predicate Took(m0: Mem, m2: Mem, p: nat) {
    && Shape(m0) && Shape(m2) && p < |m0.ram| == |m2.ram| && m2.lo == m0.lo
    && m0.role[p] == Free && m2.role == m0.role[p := Other]
    && forall q :: 0 <= q < |m0.ram| && q != p ==> m2.ram[q] == m0.ram[q]
  }

  lemma KallocTook(m0: Mem, page: Page)
    requires Inv(m0) && m0.free != [] && |page| == ENTRIES
    ensures var p := m0.free[0]; var m1 := PageTable.Kalloc(m0);
      p < |m1.ram| && Took(m0, m1.(ram := m1.ram[p := page]), p)
  {
    hide TreesOk, DataOk;
  }

  lemma AllocUndone(m0: Mem, m2: Mem, m3: Mem, m: Mem, p: nat, r: nat)
    requires Took(m0, m2, p) && Grew(m2, m3, r) && p < |m3.ram| && m == PageTable.Kfree(m3, p)
    ensures Grew(m0, m, r)
  {
  }

  lemma AllocLookups(m0: Mem, m2: Mem, m3: Mem, m: Mem, r: nat, v: nat, p: nat, perm: nat)
    requires Shape(m0) && Shape(m2) && Shape(m3) && Shape(m) && perm < 1024
    requires SameLookups(m0, m2) && Mapped(m2, m3, r, v, 1, p, perm) && SameLookups(m3, m)
    ensures forall q :: IsRoot(m0, q) <==> IsRoot(m, q)
    ensures forall q, w :: IsRoot(m0, q) && IsRoot(m, q) && 0 <= w < VPNS ==>
              Lookup(m, q, w) == if q == r && w == v then MakePte(p, perm) else Lookup(m0, q, w)
  {
    hide Lookup, MakePte;
  }

  lemma AllocDone(m0: Mem, m2: Mem, m3: Mem, m: Mem, r: nat, v: nat, p: nat, img: Image)
    requires Shape(m3) && img.Ok(v) && IsRoot(m0, r) && v < VPNS
    requires Took(m0, m2, p) && m2.ram[p] == img.Fill(v) && SameLookups(m0, m2)
    requires Grew(m2, m3, r) && Mapped(m2, m3, r, v, 1, p, img.Perm(v))
    requires m == m3.(role := m3.role[p := Data(r, v)]) && SameLookups(m3, m)
    ensures Allocated(m0, m, r, v, v + 1, img)
  {
    hide Lookup, MakePte, SameLookups, Mapped;
    AllocLookups(m0, m2, m3, m, r, v, p, img.Perm(v));
    assert FreshAt(m0, m, r, v, img);
  }

  // ---- flat maps ----

  // k translations of tree r from vpn on lead to consecutive pages; all other
  // translations of all trees are as before.
  ghost predicate Mapped(m: Mem, m': Mem, r: nat, vpn: nat, k: nat, ppn: nat, perm: nat)
    requires perm < 1024
  {
    && Shape(m) && Shape(m')
    && (forall q :: IsRoot(m, q) <==> IsRoot(m', q))
    && forall q, v :: IsRoot(m, q) && IsRoot(m', q) && 0 <= v < VPNS ==>
         Lookup(m', q, v) == if q == r && vpn <= v < vpn + k then MakePte(ppn + v - vpn, perm) else Lookup(m, q, v)
  }

  // k translations of tree r from vpn on are gone; all others are as before.
  ghost predicate Unmapped(m: Mem, m': Mem, r: nat, vpn: nat, k: nat) {
    && Shape(m) && Shape(m')
    && (forall q :: IsRoot(m, q) <==> IsRoot(m', q))
    && forall q, v :: IsRoot(m, q) && IsRoot(m', q) && 0 <= v < VPNS ==>
         Lookup(m', q, v) == if q == r && vpn <= v < vpn + k then 0 else Lookup(m, q, v)
  }

  // Tree r owns memory at page number v.
  predicate Owned(m: Mem, r: nat, v: nat) {
    exists p :: 0 <= p < |m.role| && m.role[p] == Data(r, v)
  }

  // The memory that r owned in lo .. hi is free; all else is used as before.
  predicate Released(m: Mem, m': Mem, r: nat, lo: nat, hi: nat) {
    && Shape(m) && Shape(m') && m'.lo == m.lo && |m'.ram| == |m.ram|
    && (forall p :: 0 <= p < |m.role| ==>
          m'.role[p] == if m.role[p].Data? && m.role[p].owner == r && lo <= m.role[p].vpn < hi then Free else m.role[p])
    && (forall p :: 0 <= p < |m.role| && (m'.role[p].Data? || m'.role[p].Other?) ==> m'.ram[p] == m.ram[p])
  }

  lemma MappedNothing(m: Mem, r: nat, vpn: nat, ppn: nat, perm: nat)
    requires Shape(m) && perm < 1024
    ensures Mapped(m, m, r, vpn, 0, ppn, perm)
  {
  }

  lemma MappedSame(a: Mem, b: Mem, c: Mem, r: nat, vpn: nat, k: nat, ppn: nat, perm: nat)
    requires perm < 1024 && Mapped(a, b, r, vpn, k, ppn, perm) && Shape(c) && SameLookups(b, c)
    ensures Mapped(a, c, r, vpn, k, ppn, perm)
  {
    hide Lookup, MakePte;
  }

  // Past the pages mapped so far, translations are the original ones.
  lemma MappedNext(a: Mem, b: Mem, r: nat, vpn: nat, k: nat, ppn: nat, perm: nat)
    requires perm < 1024 && Mapped(a, b, r, vpn, k, ppn, perm) && IsRoot(a, r) && vpn + k < VPNS
    ensures IsRoot(b, r) && Lookup(b, r, vpn + k) == Lookup(a, r, vpn + k)
  {
    hide Lookup, MakePte;
  }

  lemma MappedMore(a: Mem, b: Mem, c: Mem, r: nat, vpn: nat, k: nat, ppn: nat, perm: nat)
    requires perm < 1024 && Mapped(a, b, r, vpn, k, ppn, perm) && Shape(c)
    requires LookupsExcept(b, c, r, vpn + k, MakePte(ppn + k, perm))
    ensures Mapped(a, c, r, vpn, k + 1, ppn, perm)
  {
    hide Lookup, MakePte;
  }

  lemma NoDataAt(m: Mem, r: nat, v: nat)
    requires Inv(m) && IsRoot(m, r) && v < VPNS && !Present(Lookup(m, r, v))
    ensures forall p :: 0 <= p < |m.role| ==> m.role[p] != Data(r, v)
  {
    hide Lookup;
  }

  lemma UnmappedNothing(m: Mem, r: nat, vpn: nat)
    requires Shape(m)
    ensures Unmapped(m, m, r, vpn, 0) && Released(m, m, r, vpn, vpn)
  {
  }

  lemma UnmapNext(a: Mem, b: Mem, r: nat, vpn: nat, v: nat)
    requires vpn <= v < VPNS && Unmapped(a, b, r, vpn, v - vpn) && Released(a, b, r, vpn, v) && IsRoot(a, r)
    ensures IsRoot(b, r) && Lookup(b, r, v) == Lookup(a, r, v) && Owned(b, r, v) == Owned(a, r, v)
  {
    hide Lookup;
    if Owned(a, r, v) {
      var p :| 0 <= p < |a.role| && a.role[p] == Data(r, v);
      assert b.role[p] == Data(r, v);
    }
  }

  lemma UnmappedMore(a: Mem, b: Mem, c: Mem, r: nat, vpn: nat, v: nat)
    requires vpn <= v && Unmapped(a, b, r, vpn, v - vpn) && Released(a, b, r, vpn, v)
    requires Shape(c) && LookupsExcept(b, c, r, v, 0) && Released(b, c, r, v, v + 1)
    ensures Unmapped(a, c, r, vpn, v + 1 - vpn) && Released(a, c, r, vpn, v + 1)
  {
    hide Lookup;
  }

  lemma PresentHasTable(m: Mem, r: nat, v: nat)
    requires Shape(m) && r < |m.ram| && Present(Lookup(m, r, v))
    ensures Table(m, r, v) < |m.ram|
  {
  }

  lemma LookupIs(m: Mem, r: nat, v: nat)
    requires Shape(m) && r < |m.ram| && Table(m, r, v) < |m.ram|
    ensures Lookup(m, r, v) == m.ram[Table(m, r, v)][Index(0, v)]
  {
  }

  lemma OwnedPage(m: Mem, r: nat, v: nat)
    requires Inv(m) && Owned(m, r, v)
    ensures IsRoot(m, r) && v < VPNS && Present(Lookup(m, r, v))
    ensures var p := Ppn(Lookup(m, r, v)); m.lo <= p < |m.ram| && m.role[p] == Data(r, v)
  {
    hide Lookup;
    var p :| 0 <= p < |m.role| && m.role[p] == Data(r, v);
  }

  // Memory may leave a tree's ownership while it is still mapped.
  lemma DisownKeeps(m: Mem, p: nat)
    requires Inv(m) && p < |m.ram| && m.role[p].Data?
    ensures var m' := m.(role := m.role[p := Other]); Inv(m') && SameNodes(m, m') && SameLookups(m, m')
  {
    hide Lookup, Table, NodeOk, EntryOk;
    var m' := m.(role := m.role[p := Other]);
    NodesFrame(m, m');
    DataFrame(m, m');
  }

  lemma SameTables(m: Mem, m': Mem, r: nat, v: nat)
    requires Shape(m) && Shape(m') && TreesOk(m) && SameNodes(m, m') && IsRoot(m, r) && v < VPNS
    ensures Table(m', r, v) == Table(m, r, v) && IsRoot(m', r)
  {
    hide Table;
    NodesFrame(m, m');
  }

  lemma NoOwner(m: Mem, m2: Mem, r: nat, v: nat, doFree: bool)
    requires Inv(m) && Shape(m2) && IsRoot(m, r) && |m2.role| == |m.role|
    requires if doFree then Owned(m, r, v) else !Owned(m, r, v) && m2 == m
    requires doFree ==> Ppn(Lookup(m, r, v)) < |m.role| && m2.role == m.role[Ppn(Lookup(m, r, v)) := Free]
    ensures forall p :: 0 <= p < |m2.role| ==> m2.role[p] != Data(r, v)
  {
    hide Lookup;
  }

  lemma ExceptAfterSame(a: Mem, b: Mem, c: Mem, r: nat, v: nat)
    requires Shape(a) && Shape(b) && Shape(c) && SameLookups(a, b) && LookupsExcept(b, c, r, v, 0)
    ensures LookupsExcept(a, c, r, v, 0)
  {
    hide Lookup;
  }

  lemma ReleasedOne(m: Mem, m': Mem, r: nat, v: nat, doFree: bool, pt: nat)
    requires Inv(m) && IsRoot(m, r) && v < VPNS && pt < |m.ram| && m.role[pt].Node?
    requires Shape(m') && m'.lo == m.lo && |m'.ram| == |m.ram|
    requires if doFree then Owned(m, r, v) && m'.role == m.role[Ppn(Lookup(m, r, v)) := Free]
             else !Owned(m, r, v) && m'.role == m.role
    requires doFree ==> Ppn(Lookup(m, r, v)) < |m.role|
    requires forall p :: 0 <= p < |m.ram| && p != pt && !(doFree && p == Ppn(Lookup(m, r, v))) ==> m'.ram[p] == m.ram[p]
    ensures Released(m, m', r, v, v + 1)
  {
    hide Lookup;
    if doFree { OwnedPage(m, r, v); }
  }

  lemma SameLookupsRefl(m: Mem)
    requires Shape(m)
    ensures SameLookups(m, m)
  {
  }

  lemma SameLookupsTrans(a: Mem, b: Mem, c: Mem)
    requires Shape(a) && Shape(b) && Shape(c) && SameLookups(a, b) && SameLookups(b, c)
    ensures SameLookups(a, c)
  {
    hide Lookup;
  }

  lemma GrewRefl(m: Mem, r: nat)
    requires Shape(m)
    ensures Grew(m, m, r)
  {
  }

  lemma GrewByNode(m: Mem, p: nat, i: nat)
    requires Inv(m) && m.free != [] && p < |m.ram| && i < ENTRIES && m.role[p].Node? && 0 < m.role[p].level
    ensures var m1 := PageTable.Kalloc(m);
            m1.role[p] == m.role[p] && m.free[0] < |m.ram|
            && Grew(m, AddNode(m1, p, i, m.free[0]), m.role[p].root)
  {
    hide TreesOk, DataOk;
  }

  lemma GrewLeaf(a: Mem, b: Mem, p: nat, i: nat, pte: nat, r: nat)
    requires Grew(a, b, r) && p < |b.ram| && i < ENTRIES && b.role[p].Node?
    ensures Grew(a, SetEntry(b, p, i, pte), r)
  {
  }

  lemma GrewTrans(a: Mem, b: Mem, c: Mem, r: nat)
    requires Grew(a, b, r) && Grew(b, c, r)
    ensures Grew(a, c, r)
  {
  }

  // A missing entry on the path means no translation.
  lemma NoTable(m: Mem, r: nat, vpn: nat, p: nat, level: nat)
    requires Inv(m) && IsRoot(m, r) && vpn < VPNS && p < |m.ram| && 0 < level <= 2
    requires m.role[p].Node? && m.role[p].root == r && m.role[p].level == level
    requires m.role[p].prefix == Above(level, vpn) && !Present(m.ram[p][Index(level, vpn)])
    ensures Table(m, r, vpn) == |m.ram|
  {
    if level == 2 {
      assert NodeOk(m, p);
    } else {
      PathUp1(m, p);
      assert Index(2, vpn) == Prefix(2, vpn);
    }
  }
}
