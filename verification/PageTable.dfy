// Sv39 page tables on a heap of physical pages, as a value: the words of every
// page, the allocator's free list threaded through them, and what each page is
// used for. The format is section 4.4 of the RISC-V Privileged Architecture.
module PageTable {
  const PGSIZE: nat := 4096
  const ENTRIES: nat := 512
  // What the 27 bits of an Sv39 page number can name, and MAXVA / PGSIZE: xv6
  // leaves the upper half alone.
  const VPNS: nat := 0x800_0000
  const MAXVPN: nat := 0x400_0000

  type Page = seq<nat>

  // ---- page table entries ----

  const PTE_V: nat := 1
  const PTE_R: nat := 2
  const PTE_W: nat := 4
  const PTE_X: nat := 8
  const PTE_U: nat := 16

  // pte & PTE_V
  predicate Present(pte: nat) {
    pte % 2 == 1
  }

  // pte & (PTE_R|PTE_W|PTE_X)
  predicate Leafy(pte: nat) {
    pte / 2 % 8 != 0
  }

  // PTE2PA(pte) / PGSIZE
  function Ppn(pte: nat): nat {
    pte / 1024
  }

  // PTE_FLAGS(pte)
  function Flags(pte: nat): nat {
    pte % 1024
  }

  // PA2PTE(pa) | perm | PTE_V
  function MakePte(ppn: nat, perm: nat): (pte: nat)
    requires perm < 1024
    ensures Present(pte) && Ppn(pte) == ppn && Flags(pte) == (if perm % 2 == 1 then perm else perm + 1)
    ensures Leafy(pte) == Leafy(perm)
  {
    ppn * 1024 + (if perm % 2 == 1 then perm else perm + 1)
  }

  // PX(level, va) of the page number vpn = va / PGSIZE.
  function Index(level: nat, vpn: nat): (i: nat)
    requires level <= 2
    ensures i < ENTRIES
  {
    Prefix(level, vpn) % ENTRIES
  }

  // The part of the page number above the given level.
  function Prefix(level: nat, vpn: nat): nat
    requires level <= 2
  {
    if level == 0 then vpn else if level == 1 then vpn / ENTRIES else vpn / (ENTRIES * ENTRIES)
  }

  // PX as riscv.h defines it, on addresses.
  lemma IndexIsPX(level: nat, va: nat)
    requires level <= 2
    ensures level == 0 ==> Index(level, va / PGSIZE) == va / 0x1000 % 0x200
    ensures level == 1 ==> Index(level, va / PGSIZE) == va / 0x20_0000 % 0x200
    ensures level == 2 ==> Index(level, va / PGSIZE) == va / 0x4000_0000 % 0x200
  {
  }

  // ---- the heap ----

  // What a page is used for: free, a node of the tree with the given root that
  // covers page numbers with the given prefix and hangs off parent, memory
  // that the tree owns at page number vpn, or something else.
  datatype Role =
    | Free
    | Node(root: nat, level: nat, prefix: nat, parent: nat)
    | Data(owner: nat, vpn: nat)
    | Other

  // Pages lo .. |ram| belong to the allocator; freelist is kmem.freelist, and
  // free and role are bookkeeping that the original does not store.
  datatype Mem = Mem(lo: nat, ram: seq<Page>, freelist: nat, free: seq<nat>, role: seq<Role>)

  predicate Shape(m: Mem) {
    && 0 < m.lo <= |m.ram| == |m.role|
    && forall p :: 0 <= p < |m.ram| ==> |m.ram[p]| == ENTRIES
  }

  // The free pages, each once, linked through their first words.
  predicate FreeOk(m: Mem)
    requires Shape(m)
  {
    && (forall i :: 0 <= i < |m.free| ==> m.lo <= m.free[i] < |m.ram| && m.role[m.free[i]] == Free)
    && (forall i, j :: 0 <= i < j < |m.free| ==> m.free[i] != m.free[j])
    && (forall p :: 0 <= p < |m.role| && m.role[p] == Free ==> p in m.free)
    && m.freelist == Link(m.free, 0)
    && (forall i {:trigger m.ram[m.free[i]]} :: 0 <= i < |m.free| ==> m.ram[m.free[i]][0] == Link(m.free, i + 1))
  }

  // The address of the i-th free page, or 0.
  function Link(free: seq<nat>, i: nat): nat {
    if i < |free| then free[i] * PGSIZE else 0
  }

  predicate IsRoot(m: Mem, r: nat) {
    r < |m.role| && m.role[r] == Node(r, 2, 0, r)
  }

  // A node hangs off the entry of its parent that covers its prefix.
  predicate NodeOk(m: Mem, p: nat)
    requires Shape(m) && p < |m.ram| && m.role[p].Node?
  {
    var n := m.role[p];
    && n.level <= 2 && IsRoot(m, n.root) && m.lo <= p
    && (n.level == 2 ==> p == n.root && n.prefix == 0)
    && (n.level < 2 ==>
          && n.parent < |m.ram| && m.role[n.parent].Node?
          && m.role[n.parent].root == n.root && m.role[n.parent].level == n.level + 1
          && m.role[n.parent].prefix == n.prefix / ENTRIES
          && Present(m.ram[n.parent][n.prefix % ENTRIES]) && Ppn(m.ram[n.parent][n.prefix % ENTRIES]) == p)
  }

  // The present entries of a node lead to nodes one level down, or to memory;
  // the others are zero.
  predicate EntryOk(m: Mem, p: nat, i: nat)
    requires Shape(m) && p < |m.ram| && m.role[p].Node? && i < ENTRIES
  {
    var n, pte := m.role[p], m.ram[p][i];
    if !Present(pte) then pte == 0
    else if n.level == 0 then Leafy(pte)
      else
        && !Leafy(pte) && Ppn(pte) < |m.ram|
        && m.role[Ppn(pte)] == Node(n.root, n.level - 1, n.prefix * ENTRIES + i, p)
  }

  predicate TreesOk(m: Mem)
    requires Shape(m)
  {
    && (forall p :: 0 <= p < |m.role| && m.role[p].Node? ==> NodeOk(m, p))
    && (forall p, i :: 0 <= p < |m.role| && m.role[p].Node? && 0 <= i < ENTRIES ==> EntryOk(m, p, i))
  }

  // ---- translation ----

  // The node of the given level on the path to vpn, if it is there.
  function Step(m: Mem, p: nat, i: nat): (c: nat)
    requires Shape(m) && p < |m.ram| && i < ENTRIES
    ensures c <= |m.ram|
  {
    if Present(m.ram[p][i]) && Ppn(m.ram[p][i]) < |m.ram| then Ppn(m.ram[p][i]) else |m.ram|
  }

  // The page that holds the level-0 entry for vpn, or |m.ram| when there is none.
  function Table(m: Mem, r: nat, vpn: nat): (c: nat)
    requires Shape(m) && r < |m.ram|
    ensures c <= |m.ram|
  {
    var p1 := Step(m, r, Index(2, vpn));
    if p1 == |m.ram| then |m.ram| else Step(m, p1, Index(1, vpn))
  }

  // The entry that translates vpn, or 0.
  function Lookup(m: Mem, r: nat, vpn: nat): nat
    requires Shape(m) && r < |m.ram|
  {
    var p := Table(m, r, vpn);
    if p == |m.ram| then 0 else m.ram[p][Index(0, vpn)]
  }

  // Memory owned by a tree is mapped by it where the role says.
  predicate DataOk(m: Mem)
    requires Shape(m)
  {
    forall p :: 0 <= p < |m.role| && m.role[p].Data? ==>
      && m.lo <= p && IsRoot(m, m.role[p].owner) && m.role[p].vpn < VPNS
      && Present(Lookup(m, m.role[p].owner, m.role[p].vpn))
      && Ppn(Lookup(m, m.role[p].owner, m.role[p].vpn)) == p
  }

  predicate Inv(m: Mem) {
    Shape(m) && FreeOk(m) && TreesOk(m) && DataOk(m)
  }

  ghost predicate SameLookups(m: Mem, m': Mem)
    requires Shape(m) && Shape(m')
  {
    && (forall r :: IsRoot(m, r) <==> IsRoot(m', r))
    && forall r, v :: IsRoot(m, r) && IsRoot(m', r) && 0 <= v < VPNS ==> Lookup(m', r, v) == Lookup(m, r, v)
  }

  // ---- paths ----

  lemma {:induction false} PathDown(m: Mem, r: nat, vpn: nat)
    requires Shape(m) && TreesOk(m) && IsRoot(m, r) && vpn < VPNS
    ensures var p := Step(m, r, Index(2, vpn));
      p < |m.ram| ==> m.role[p] == Node(r, 1, Prefix(2, vpn), r)
    ensures var p := Table(m, r, vpn);
      p < |m.ram| ==>
        m.role[p].Node? && m.role[p].root == r && m.role[p].level == 0
        && m.role[p].prefix == Prefix(1, vpn)
  {
    assert EntryOk(m, r, Index(2, vpn));
    var p := Step(m, r, Index(2, vpn));
    if p < |m.ram| {
      assert EntryOk(m, p, Index(1, vpn));
      assert Prefix(1, vpn) == Prefix(2, vpn) * ENTRIES + Index(1, vpn);
    }
  }

  lemma {:induction false} AbsentIsZero(m: Mem, r: nat, vpn: nat)
    requires Shape(m) && TreesOk(m) && IsRoot(m, r) && vpn < VPNS && !Present(Lookup(m, r, vpn))
    ensures Lookup(m, r, vpn) == 0
  {
    PathDown(m, r, vpn);
    var p := Table(m, r, vpn);
    if p < |m.ram| { assert EntryOk(m, p, Index(0, vpn)); }
  }

  lemma {:induction false} PresentIsLeafy(m: Mem, r: nat, vpn: nat)
    requires Shape(m) && TreesOk(m) && IsRoot(m, r) && vpn < VPNS && Present(Lookup(m, r, vpn))
    ensures Leafy(Lookup(m, r, vpn))
  {
    PathDown(m, r, vpn);
    assert EntryOk(m, Table(m, r, vpn), Index(0, vpn));
  }

  lemma {:induction false} PathUp1(m: Mem, p: nat)
    requires Shape(m) && TreesOk(m) && p < |m.ram| && m.role[p].Node? && m.role[p].level == 1
    ensures IsRoot(m, m.role[p].root) && m.role[p].prefix < ENTRIES
    ensures Step(m, m.role[p].root, m.role[p].prefix) == p
  {
    var n := m.role[p];
    assert NodeOk(m, p);
    assert NodeOk(m, n.parent);
    assert n.prefix / ENTRIES == 0;
  }

  lemma {:induction false} PathUp(m: Mem, p: nat, vpn: nat)
    requires Shape(m) && TreesOk(m) && p < |m.ram| && m.role[p].Node? && m.role[p].level == 0
    requires vpn < VPNS && m.role[p].prefix == Prefix(1, vpn)
    ensures IsRoot(m, m.role[p].root) && Table(m, m.role[p].root, vpn) == p
  {
    var n := m.role[p];
    assert NodeOk(m, p);
    PathUp1(m, n.parent);
    assert Prefix(1, vpn) / ENTRIES == Prefix(2, vpn) && Index(1, vpn) == Prefix(1, vpn) % ENTRIES;
    assert Index(2, vpn) == Prefix(2, vpn);
  }

  // Trees and translations depend on the nodes only.
  predicate SameNodes(m: Mem, m': Mem)
    requires Shape(m) && Shape(m')
  {
    && |m'.ram| == |m.ram| && m'.lo == m.lo
    && (forall p :: 0 <= p < |m.role| ==> m'.role[p].Node? == m.role[p].Node?)
    && (forall p :: 0 <= p < |m.role| && m.role[p].Node? ==> m'.role[p] == m.role[p] && m'.ram[p] == m.ram[p])
  }

  lemma {:induction false} NodesFrame(m: Mem, m': Mem)
    requires Shape(m) && Shape(m') && TreesOk(m) && SameNodes(m, m')
    ensures TreesOk(m') && SameLookups(m, m')
    ensures forall r, v :: IsRoot(m, r) && 0 <= v < VPNS ==> Table(m', r, v) == Table(m, r, v)
  {
    forall p | 0 <= p < |m.role| && m'.role[p].Node? ensures NodeOk(m', p) {
      assert NodeOk(m, p);
    }
    forall p, i | 0 <= p < |m.role| && m'.role[p].Node? && 0 <= i < ENTRIES ensures EntryOk(m', p, i) {
      assert EntryOk(m, p, i);
    }
    forall r, v | IsRoot(m, r) && 0 <= v < VPNS
      ensures Table(m', r, v) == Table(m, r, v) && Lookup(m', r, v) == Lookup(m, r, v)
    {
      PathDown(m, r, v);
    }
  }

  // ---- kalloc() and kfree() ----

  const JUNK5: nat := 0x0505_0505_0505_0505
  const JUNK1: nat := 0x0101_0101_0101_0101

  function Filled(w: nat): (p: Page)
    ensures |p| == ENTRIES && forall i :: 0 <= i < ENTRIES ==> p[i] == w
  {
    seq(ENTRIES, _ => w)
  }

  function Put(p: Page, i: nat, w: nat): (q: Page)
    requires i < |p|
    ensures |q| == |p| && q[i] == w && forall j :: 0 <= j < |p| && j != i ==> q[j] == p[j]
  {
    p[..i] + [w] + p[i + 1..]
  }

  // kalloc() of the first free page.
  function Kalloc(m: Mem): (m': Mem)
    requires Shape(m) && FreeOk(m) && m.free != []
    ensures Shape(m')
  {
    var p := m.free[0];
    m.(freelist := m.ram[p][0], ram := m.ram[p := Filled(JUNK5)], free := m.free[1..], role := m.role[p := Other])
  }

  // kfree() of page p: junk, then link it in front.
  function Kfree(m: Mem, p: nat): (m': Mem)
    requires Shape(m) && p < |m.ram|
    ensures Shape(m')
  {
    m.(ram := m.ram[p := Put(Filled(JUNK1), 0, m.freelist)], freelist := p * PGSIZE,
       free := [p] + m.free, role := m.role[p := Free])
  }

  lemma {:induction false} DataFrame(m: Mem, m': Mem)
    requires Shape(m) && Shape(m') && DataOk(m) && SameLookups(m, m') && m'.lo == m.lo && |m'.role| == |m.role|
    requires forall p :: 0 <= p < |m.role| && m'.role[p].Data? ==> m.role[p] == m'.role[p]
    ensures DataOk(m')
  {
    hide Lookup;
  }

  lemma {:induction false} KallocKeeps(m: Mem)
    requires Inv(m) && m.free != []
    ensures var m' := Kalloc(m);
      && Inv(m') && SameNodes(m, m') && SameLookups(m, m')
      && m.lo <= m.free[0] < |m.ram| && m'.role[m.free[0]] == Other && m'.ram[m.free[0]] == Filled(JUNK5)
  {
    hide Lookup, Table;
    var m' := Kalloc(m);
    NodesFrame(m, m');
    DataFrame(m, m');
    KallocFree(m);
  }

  lemma {:induction false} KallocFree(m: Mem)
    requires Inv(m) && m.free != []
    ensures FreeOk(Kalloc(m))
  {
    hide TreesOk, DataOk, Link;
    var m' := Kalloc(m);
    KallocMembers(m);
    KallocDistinct(m);
    forall i | 0 <= i < |m'.free| ensures m'.ram[m'.free[i]][0] == Link(m'.free, i + 1) {
      KallocLink(m, i);
    }
    assert m'.freelist == Link(m'.free, 0) by { FirstLink(m); }
  }

  lemma {:induction false} FirstLink(m: Mem)
    requires Shape(m) && FreeOk(m) && m.free != []
    ensures m.ram[m.free[0]][0] == Link(m.free[1..], 0)
  {
    assert m.ram[m.free[0]][0] == Link(m.free, 1);
  }

  lemma {:induction false} KallocLink(m: Mem, i: nat)
    requires Shape(m) && FreeOk(m) && i + 1 < |m.free|
    ensures var m' := Kalloc(m);
            m'.free[i] < |m'.ram| && m'.ram[m'.free[i]][0] == Link(m'.free, i + 1)
  {
    assert m.ram[m.free[i + 1]][0] == Link(m.free, i + 2);
    assert m.free[0] != m.free[i + 1];
  }

  lemma {:induction false} KallocDistinct(m: Mem)
    requires Shape(m) && FreeOk(m) && m.free != []
    ensures var m' := Kalloc(m);
            && (forall i :: 0 <= i < |m'.free| ==> m'.lo <= m'.free[i] < |m'.ram| && m'.role[m'.free[i]] == Free)
            && (forall i, j :: 0 <= i < j < |m'.free| ==> m'.free[i] != m'.free[j])
  {
    var m' := Kalloc(m);
    forall i | 0 <= i < |m'.free|
      ensures m'.free[i] == m.free[i + 1] && m'.lo <= m'.free[i] < |m'.ram| && m'.role[m'.free[i]] == Free
    {
      assert m.free[0] != m.free[i + 1];
    }
  }

  lemma {:induction false} KallocMembers(m: Mem)
    requires Shape(m) && FreeOk(m) && m.free != []
    ensures var m' := Kalloc(m); forall p :: 0 <= p < |m'.role| && m'.role[p] == Free ==> p in m'.free
  {
    var m' := Kalloc(m);
    forall p | 0 <= p < |m.role| && m'.role[p] == Free ensures p in m'.free {
      assert p in m.free && p != m.free[0];
      var i :| 0 <= i < |m.free| && m.free[i] == p;
      assert m'.free[i - 1] == p;
    }
  }

  lemma {:induction false} KfreeKeeps(m: Mem, p: nat)
    requires Inv(m) && m.lo <= p < |m.ram| && m.role[p] == Other
    ensures Inv(Kfree(m, p)) && SameNodes(m, Kfree(m, p)) && SameLookups(m, Kfree(m, p))
  {
    hide Lookup, Table;
    var m' := Kfree(m, p);
    NodesFrame(m, m');
    DataFrame(m, m');
    KfreeFree(m, p);
  }

  lemma {:induction false} KfreeFree(m: Mem, p: nat)
    requires Inv(m) && m.lo <= p < |m.ram| && m.role[p] == Other
    ensures FreeOk(Kfree(m, p))
  {
    hide TreesOk, DataOk;
    var m' := Kfree(m, p);
    assert p !in m.free;
    forall q | 0 <= q < |m.role| && m'.role[q] == Free ensures q in m'.free {
      assert q == p || q in m.free;
    }
    forall i | 0 <= i < |m'.free| ensures m'.ram[m'.free[i]][0] == Link(m'.free, i + 1) {
      if i > 0 { assert m'.free[i] == m.free[i - 1]; }
    }
  }

  // ---- writing an entry ----

  function SetEntry(m: Mem, p: nat, i: nat, pte: nat): (m': Mem)
    requires Shape(m) && p < |m.ram| && i < ENTRIES
    ensures Shape(m')
  {
    m.(ram := m.ram[p := Put(m.ram[p], i, pte)])
  }

  function SetLeaf(m: Mem, r: nat, vpn: nat, pte: nat): (m': Mem)
    requires Shape(m) && r < |m.ram| && Table(m, r, vpn) < |m.ram|
    ensures Shape(m')
  {
    SetEntry(m, Table(m, r, vpn), Index(0, vpn), pte)
  }

  lemma {:induction false} LeafTables(m: Mem, r: nat, vpn: nat, pte: nat, r': nat, v: nat)
    requires Shape(m) && TreesOk(m) && IsRoot(m, r) && vpn < VPNS && Table(m, r, vpn) < |m.ram|
    requires IsRoot(m, r') && v < VPNS
    ensures Table(SetLeaf(m, r, vpn, pte), r', v) == Table(m, r', v)
  {
    PathDown(m, r, vpn);
    PathDown(m, r', v);
  }

  // Exactly one translation of one tree changes.
  lemma {:induction false} LeafAt(m: Mem, r: nat, vpn: nat, pte: nat, r': nat, v: nat)
    requires Shape(m) && TreesOk(m) && IsRoot(m, r) && vpn < VPNS && Table(m, r, vpn) < |m.ram|
    requires IsRoot(m, r') && v < VPNS
    ensures Lookup(SetLeaf(m, r, vpn, pte), r', v) == if r' == r && v == vpn then pte else Lookup(m, r', v)
  {
    LeafTables(m, r, vpn, pte, r', v);
    PathDown(m, r, vpn);
    PathDown(m, r', v);
    if Table(m, r', v) == Table(m, r, vpn) {
      assert v / ENTRIES == vpn / ENTRIES;
      assert v == vpn <==> Index(0, v) == Index(0, vpn);
    }
  }

  lemma {:induction false} LeafTrees(m: Mem, r: nat, vpn: nat, pte: nat)
    requires Shape(m) && TreesOk(m) && IsRoot(m, r) && vpn < VPNS && Table(m, r, vpn) < |m.ram|
    requires if Present(pte) then Leafy(pte) else pte == 0
    ensures TreesOk(SetLeaf(m, r, vpn, pte))
  {
    hide Table;
    PathDown(m, r, vpn);
    var m' := SetLeaf(m, r, vpn, pte);
    forall p | 0 <= p < |m.role| && m'.role[p].Node? ensures NodeOk(m', p) {
      assert NodeOk(m, p);
    }
    forall p, i | 0 <= p < |m.role| && m'.role[p].Node? && 0 <= i < ENTRIES ensures EntryOk(m', p, i) {
      assert EntryOk(m, p, i);
    }
  }

  // The flat map after one translation changed.
  ghost predicate LookupsExcept(m: Mem, m': Mem, r: nat, vpn: nat, pte: nat)
    requires Shape(m) && Shape(m')
  {
    && (forall q :: IsRoot(m, q) <==> IsRoot(m', q))
    && forall q, v :: IsRoot(m, q) && IsRoot(m', q) && 0 <= v < VPNS ==>
         Lookup(m', q, v) == if q == r && v == vpn then pte else Lookup(m, q, v)
  }

  // Writing a leaf, with p passing into or out of the tree's ownership.
  lemma {:induction false} LeafKeeps(m: Mem, r: nat, vpn: nat, pte: nat)
    requires Inv(m) && IsRoot(m, r) && vpn < VPNS && Table(m, r, vpn) < |m.ram|
    requires if Present(pte) then Leafy(pte) else pte == 0
    requires forall p :: 0 <= p < |m.role| && m.role[p] == Data(r, vpn) ==> Present(pte) && Ppn(pte) == p
    ensures Inv(SetLeaf(m, r, vpn, pte)) && LookupsExcept(m, SetLeaf(m, r, vpn, pte), r, vpn, pte)
  {
    hide Lookup, Table, FreeOk;
    var m' := SetLeaf(m, r, vpn, pte);
    LeafTrees(m, r, vpn, pte);
    forall q, v | IsRoot(m, q) && 0 <= v < VPNS
      ensures Lookup(m', q, v) == if q == r && v == vpn then pte else Lookup(m, q, v)
    {
      LeafAt(m, r, vpn, pte, q, v);
    }
    PathDown(m, r, vpn);
    WriteFree(m, Table(m, r, vpn), Index(0, vpn), pte);
  }

  lemma {:induction false} WriteFree(m: Mem, p: nat, i: nat, pte: nat)
    requires Shape(m) && FreeOk(m) && p < |m.ram| && i < ENTRIES && m.role[p] != Free
    ensures FreeOk(SetEntry(m, p, i, pte))
  {
  }

  // ---- walk() adds a node ----

  // Entry i of node p gets the fresh page c, zeroed, as its child.
  function AddNode(m: Mem, p: nat, i: nat, c: nat): (m': Mem)
    requires Shape(m) && p < |m.ram| && c < |m.ram| && i < ENTRIES && m.role[p].Node? && 0 < m.role[p].level
    ensures Shape(m')
  {
    var n := m.role[p];
    m.(ram := m.ram[c := Filled(0)][p := Put(m.ram[p], i, MakePte(c, 0))],
       role := m.role[c := Node(n.root, n.level - 1, n.prefix * ENTRIES + i, p)])
  }

  predicate CanAdd(m: Mem, p: nat, i: nat, c: nat)
    requires Shape(m)
  {
    && p < |m.ram| && m.lo <= c < |m.ram| && i < ENTRIES
    && m.role[p].Node? && 0 < m.role[p].level <= 2 && !Present(m.ram[p][i]) && m.role[c] == Other
  }

  lemma {:induction false} AddNodeOk(m: Mem, p: nat, i: nat, c: nat, q: nat)
    requires Shape(m) && TreesOk(m) && CanAdd(m, p, i, c) && q < |m.ram| && (m.role[q].Node? || q == c)
    ensures NodeOk(AddNode(m, p, i, c), q)
  {
    hide EntryOk;
    if q != c { assert NodeOk(m, q); } else { assert NodeOk(m, p); }
  }

  lemma {:induction false} AddTrees(m: Mem, p: nat, i: nat, c: nat)
    requires Shape(m) && TreesOk(m) && CanAdd(m, p, i, c)
    ensures TreesOk(AddNode(m, p, i, c))
  {
    hide NodeOk;
    var m' := AddNode(m, p, i, c);
    forall q | 0 <= q < |m.role| && m'.role[q].Node? ensures NodeOk(m', q) {
      AddNodeOk(m, p, i, c, q);
    }
    forall q, j | 0 <= q < |m.role| && m'.role[q].Node? && 0 <= j < ENTRIES ensures EntryOk(m', q, j) {
      if q != c { assert EntryOk(m, q, j); }
    }
  }

  lemma {:induction false} AddLookup(m: Mem, p: nat, i: nat, c: nat, r: nat, v: nat)
    requires Shape(m) && TreesOk(m) && CanAdd(m, p, i, c) && IsRoot(m, r) && v < VPNS
    ensures Lookup(AddNode(m, p, i, c), r, v) == Lookup(m, r, v)
  {
    PathDown(m, r, v);
    var m' := AddNode(m, p, i, c);
    var a := Step(m', r, Index(2, v));
    if a < |m.ram| && a != c {
      assert a == Step(m, r, Index(2, v));
    }
  }

  lemma {:induction false} AddKeeps(m: Mem, p: nat, i: nat, c: nat)
    requires Inv(m) && CanAdd(m, p, i, c)
    ensures Inv(AddNode(m, p, i, c)) && SameLookups(m, AddNode(m, p, i, c))
  {
    hide Lookup, Table, FreeOk, NodeOk, EntryOk;
    var m' := AddNode(m, p, i, c);
    AddTrees(m, p, i, c);
    forall r, v | IsRoot(m, r) && 0 <= v < VPNS ensures Lookup(m', r, v) == Lookup(m, r, v) {
      AddLookup(m, p, i, c, r, v);
    }
    DataFrame(m, m');
    AddFree(m, p, i, c);
  }

  lemma {:induction false} AddFree(m: Mem, p: nat, i: nat, c: nat)
    requires Shape(m) && FreeOk(m) && CanAdd(m, p, i, c)
    ensures FreeOk(AddNode(m, p, i, c))
  {
  }

  // ---- uvmcreate(): a new root ----

  function NewRoot(m: Mem, c: nat): (m': Mem)
    requires Shape(m) && c < |m.ram|
    ensures Shape(m')
  {
    m.(ram := m.ram[c := Filled(0)], role := m.role[c := Node(c, 2, 0, c)])
  }

  lemma {:induction false} NewRootKeeps(m: Mem, c: nat)
    requires Inv(m) && m.lo <= c < |m.ram| && m.role[c] == Other
    ensures var m' := NewRoot(m, c);
      && Inv(m') && IsRoot(m', c)
      && (forall v :: 0 <= v < VPNS ==> Lookup(m', c, v) == 0)
      && (forall r :: r != c ==> (IsRoot(m', r) <==> IsRoot(m, r)))
      && forall r, v :: IsRoot(m, r) && 0 <= v < VPNS ==> Lookup(m', r, v) == Lookup(m, r, v)
  {
    hide Lookup, Table, FreeOk;
    var m' := NewRoot(m, c);
    NewRootTrees(m, c);
    forall r, v | IsRoot(m, r) && 0 <= v < VPNS ensures Lookup(m', r, v) == Lookup(m, r, v) {
      NewRootLookup(m, c, r, v);
    }
    forall v | 0 <= v < VPNS ensures Lookup(m', c, v) == 0 { EmptyRoot(m', c, v); }
    NewRootFree(m, c);
  }

  lemma {:induction false} NewRootTrees(m: Mem, c: nat)
    requires Shape(m) && TreesOk(m) && m.lo <= c < |m.ram| && m.role[c] == Other
    ensures TreesOk(NewRoot(m, c))
  {
    var m' := NewRoot(m, c);
    forall p | 0 <= p < |m.role| && m'.role[p].Node? ensures NodeOk(m', p) {
      if p != c { assert NodeOk(m, p); }
    }
    forall p, i | 0 <= p < |m.role| && m'.role[p].Node? && 0 <= i < ENTRIES ensures EntryOk(m', p, i) {
      if p != c { assert EntryOk(m, p, i); }
    }
  }

  lemma {:induction false} NewRootLookup(m: Mem, c: nat, r: nat, v: nat)
    requires Shape(m) && TreesOk(m) && c < |m.ram| && m.role[c] == Other && IsRoot(m, r) && v < VPNS
    ensures Lookup(NewRoot(m, c), r, v) == Lookup(m, r, v)
  {
    PathDown(m, r, v);
  }

  lemma {:induction false} NewRootFree(m: Mem, c: nat)
    requires Shape(m) && FreeOk(m) && c < |m.ram| && m.role[c] == Other
    ensures FreeOk(NewRoot(m, c))
  {
  }

  lemma {:induction false} EmptyRoot(m: Mem, r: nat, v: nat)
    requires Shape(m) && r < |m.ram| && m.ram[r] == Filled(0)
    ensures Lookup(m, r, v) == 0
  {
  }

  // ---- freewalk() removes a node ----

  predicate Empty(m: Mem, p: nat)
    requires Shape(m) && p < |m.ram|
  {
    forall i :: 0 <= i < ENTRIES ==> !Present(m.ram[p][i])
  }

  // Node c without entries, cut from entry i of its parent p.
  function Cut(m: Mem, p: nat, i: nat, c: nat): (m': Mem)
    requires Shape(m) && p < |m.ram| && c < |m.ram| && i < ENTRIES
    ensures Shape(m')
  {
    m.(ram := m.ram[p := Put(m.ram[p], i, 0)], role := m.role[c := Other])
  }

  predicate CanCut(m: Mem, c: nat)
    requires Shape(m)
  {
    && c < |m.ram| && m.role[c].Node? && m.role[c].level < 2 && Empty(m, c)
    && m.role[c].parent < |m.ram| && m.role[c].parent != c
  }

  function CutOff(m: Mem, c: nat): (m': Mem)
    requires Shape(m) && CanCut(m, c)
    ensures Shape(m')
  {
    Cut(m, m.role[c].parent, m.role[c].prefix % ENTRIES, c)
  }

  lemma {:induction false} CutNodeOk(m: Mem, c: nat, q: nat)
    requires Shape(m) && TreesOk(m) && CanCut(m, c) && q < |m.ram| && m.role[q].Node? && q != c
    ensures NodeOk(CutOff(m, c), q)
  {
    hide EntryOk;
    assert NodeOk(m, c);
    assert NodeOk(m, q);
  }

  lemma {:induction false} CutEntryOk(m: Mem, c: nat, q: nat, j: nat)
    requires Shape(m) && TreesOk(m) && CanCut(m, c) && q < |m.ram| && m.role[q].Node? && q != c && j < ENTRIES
    ensures EntryOk(CutOff(m, c), q, j)
  {
    hide NodeOk;
    assert EntryOk(m, q, j);
    if Present(m.ram[q][j]) && m.role[q].level > 0 && Ppn(m.ram[q][j]) == c {
      CutEntry(m, c, q, j);
    }
  }

  lemma {:induction false} CutTrees(m: Mem, c: nat)
    requires Shape(m) && TreesOk(m) && CanCut(m, c)
    ensures TreesOk(CutOff(m, c))
  {
    hide NodeOk, EntryOk;
    var m' := CutOff(m, c);
    forall q | 0 <= q < |m.role| && m'.role[q].Node? ensures NodeOk(m', q) {
      CutNodeOk(m, c, q);
    }
    forall q, j | 0 <= q < |m.role| && m'.role[q].Node? && 0 <= j < ENTRIES ensures EntryOk(m', q, j) {
      CutEntryOk(m, c, q, j);
    }
  }

  // Only the parent's entry leads to c.
  lemma {:induction false} CutEntry(m: Mem, c: nat, q: nat, j: nat)
    requires Shape(m) && TreesOk(m) && CanCut(m, c) && q < |m.ram| && m.role[q].Node? && j < ENTRIES
    requires Present(m.ram[q][j]) && m.role[q].level > 0 && Ppn(m.ram[q][j]) == c
    ensures q == m.role[c].parent && j == m.role[c].prefix % ENTRIES
  {
    assert EntryOk(m, q, j);
  }

  // Cutting an empty node changes no present translation.
  lemma {:induction false} CutLookup(m: Mem, c: nat, r: nat, v: nat)
    requires Shape(m) && TreesOk(m) && CanCut(m, c) && IsRoot(m, r) && v < VPNS
    ensures r != m.role[c].root ==> Lookup(CutOff(m, c), r, v) == Lookup(m, r, v)
    ensures r == m.role[c].root && !Present(Lookup(m, r, v)) ==> !Present(Lookup(CutOff(m, c), r, v))
    ensures Present(Lookup(m, r, v)) ==> Lookup(CutOff(m, c), r, v) == Lookup(m, r, v)
  {
    hide NodeOk, EntryOk;
    PathDown(m, r, v);
    assert NodeParent(m, c) by { CutParent(m, c); }
    var m' := CutOff(m, c);
    var p, i := m.role[c].parent, m.role[c].prefix % ENTRIES;
    var a := Step(m, r, Index(2, v));
    if a < |m.ram| {
      if p == r && Index(2, v) == i {
        assert a == c;
      } else {
        assert Step(m', r, Index(2, v)) == a;
      }
    }
  }

  predicate NodeParent(m: Mem, c: nat)
    requires Shape(m) && c < |m.ram| && m.role[c].Node? && m.role[c].parent < |m.ram|
  {
    var p, i := m.role[c].parent, m.role[c].prefix % ENTRIES;
    && m.role[p].Node? && m.role[p].root == m.role[c].root && m.role[p].level == m.role[c].level + 1
    && Present(m.ram[p][i]) && Ppn(m.ram[p][i]) == c
    && (m.role[p].level == 2 ==> p == m.role[c].root)
  }

  lemma {:induction false} CutParent(m: Mem, c: nat)
    requires Shape(m) && TreesOk(m) && CanCut(m, c)
    ensures NodeParent(m, c)
  {
    hide EntryOk;
    assert NodeOk(m, c);
    assert NodeOk(m, m.role[c].parent);
  }

  lemma {:induction false} CutKeeps(m: Mem, c: nat)
    requires Inv(m) && CanCut(m, c)
    ensures var m' := CutOff(m, c);
      && Inv(m') && m.lo <= c && m'.role[c] == Other && SameLookups(m, m')
  {
    hide Lookup, Table, FreeOk, EntryOk, Empty;
    var m' := CutOff(m, c);
    CutTrees(m, c);
    assert NodeOk(m, c);
    forall r, v | IsRoot(m, r) && 0 <= v < VPNS ensures Lookup(m', r, v) == Lookup(m, r, v) {
      CutLookup(m, c, r, v);
      if !Present(Lookup(m, r, v)) {
        AbsentIsZero(m, r, v);
        AbsentIsZero(m', r, v);
      }
    }
    CutFree(m, c);
  }

  lemma {:induction false} CutFree(m: Mem, c: nat)
    requires Shape(m) && FreeOk(m) && TreesOk(m) && CanCut(m, c)
    ensures FreeOk(CutOff(m, c))
  {
    hide NodeOk, EntryOk;
    CutParent(m, c);
  }
}
