// The pages behind one process: allocproc(), freeproc() and
// proc_free_kpagetable() of kernel/proc.c, proc_kpagetable_init() of
// kernel/vm.c, and what they take from and give back to the allocator.
module ProcMemory {
  import opened PageTable
  import opened Vm
  import opened AddressSpace
  import opened Prelude

  const UART0: nat := 0x1_0000
  const VIRTIO0: nat := 0x1_0001
  const CLINT: nat := 0x2000
  const PLIC: nat := 0xC000
  const KERNBASE: nat := 0x8_0000
  const PHYSTOP: nat := 0x8_8000
  const NPROC: nat := 64

  // KSTACK(i) / PGSIZE
  function Kstack(i: nat): nat
    requires i < NPROC
  {
    TRAMPOLINE - 2 * i - 3
  }

  // ---- what a tree maps ----

  // Tree r translates as t says, and nothing else.
  ghost predicate Maps(m: Mem, r: nat, t: map<nat, nat>) {
    Shape(m) && IsRoot(m, r) && forall v :: 0 <= v < VPNS ==> Lookup(m, r, v) == if v in t then t[v] else 0
  }

  // n consecutive pages.
  function Range(vpn: nat, n: nat, ppn: nat, perm: nat): (t: map<nat, nat>)
    requires perm < 1024
    ensures forall v :: v in t <==> vpn <= v < vpn + n
    ensures forall v :: v in t ==> t[v] == MakePte(ppn + v - vpn, perm)
  {
    if n == 0 then map[] else Range(vpn, n - 1, ppn, perm)[vpn + n - 1 := MakePte(ppn + n - 1, perm)]
  }

  function Devices(): map<nat, nat> {
    map[] + Range(UART0, 1, UART0, PTE_R + PTE_W) + Range(VIRTIO0, 1, VIRTIO0, PTE_R + PTE_W)
    + Range(CLINT, 0x10, CLINT, PTE_R + PTE_W) + Range(PLIC, 0x400, PLIC, PTE_R + PTE_W)
  }

  // What the kernel sees of itself: the devices, its text, its data and all of
  // memory, each at its own address, and the trampoline.
  function KernelMap(etext: nat, trampoline: nat): map<nat, nat>
    requires KERNBASE < etext < PHYSTOP
  {
    Devices() + Range(KERNBASE, etext - KERNBASE, KERNBASE, PTE_R + PTE_X)
    + Range(etext, PHYSTOP - etext, etext, PTE_R + PTE_W) + Range(TRAMPOLINE, 1, trampoline, PTE_R + PTE_X)
  }

  function UserMap(trampoline: nat, trapframe: nat): map<nat, nat> {
    map[TRAMPOLINE := MakePte(trampoline, PTE_R + PTE_X), TRAPFRAME := MakePte(trapframe, PTE_R + PTE_W)]
  }

  // kvmmap(); halt is its panic.
  method Kvmmap(vm: Memory, r: nat, vpn: nat, n: nat, ppn: nat, perm: nat, ghost m0: Mem, ghost t: map<nat, nat>)
    returns (halt: bool)
    requires Inv(m0) && Inv(vm.m) && Building(m0, vm.m, r, t) && 0 < n && vpn + n <= MAXVPN && perm < 1024
             && Leafy(perm)
    requires forall v :: vpn <= v < vpn + n ==> v !in t
    modifies vm
    ensures Inv(vm.m) && (!halt ==> Building(m0, vm.m, r, t + Range(vpn, n, ppn, perm)))
    ensures halt <==> |old(vm.m).free| < |Paths(vpn, n) - Nodes(old(vm.m), r)|
    ensures !halt ==> |old(vm.m).free| == |vm.m.free| + |Paths(vpn, n) - Nodes(old(vm.m), r)|
    ensures !halt ==> Nodes(vm.m, r) == Nodes(old(vm.m), r) + Paths(vpn, n)
  {
    hide FreeOk, DataOk, TreesOk, Lookup, Mapped, Grew, MakePte, Nodes, Paths;
    ghost var m1 := vm.m;
    var ok;
    ghost var k;
    ok, k := vm.Mappages(r, vpn, n, ppn, perm);
    if ok {
      BuildingRange(m0, m1, vm.m, r, t, vpn, n, ppn, perm);
    }
    halt := !ok;
  }

  lemma BuildingRange(m0: Mem, m1: Mem, m: Mem, r: nat, t: map<nat, nat>, vpn: nat, n: nat, ppn: nat, perm: nat)
    requires Building(m0, m1, r, t) && Inv(m) && Grew(m1, m, r) && perm < 1024
    requires Mapped(m1, m, r, vpn, n, ppn, perm)
    ensures Building(m0, m, r, t + Range(vpn, n, ppn, perm))
  {
    hide Lookup, FreeOk, DataOk, TreesOk, MakePte;
  }

  // ---- the nodes of the kernel table ----

  // The last-level nodes with prefixes a .. b.
  function Mids(a: nat, b: nat): set<nat> {
    set x | a <= x < b && Between(a, b, x)
  }

  predicate Between(a: nat, b: nat, x: int) {
    a <= x < b
  }

  lemma {:induction false} MidsSize(a: nat, b: nat)
    requires a <= b
    ensures |Mids(a, b)| == b - a
  {
    if a < b {
      MidsSize(a, b - 1);
      assert Mids(a, b) == Mids(a, b - 1) + {b - 1};
    }
  }

  lemma MidsJoin(a: nat, b: nat, c: nat)
    requires a <= b && a <= c && b - 1 <= c <= b
    ensures Mids(a, b) + {c} == Mids(a, c + 1)
  {
  }

  lemma PathIs(vpn: nat)
    ensures Path(vpn) == {TOPS + vpn / TOPS, vpn / ENTRIES}
  {
  }

  // Pages under one first-level node.
  lemma {:induction false} PathsAre(vpn: nat, n: nat)
    requires 0 < n && vpn / TOPS == (vpn + n - 1) / TOPS
    ensures Paths(vpn, n) == {TOPS + vpn / TOPS} + Mids(vpn / ENTRIES, (vpn + n - 1) / ENTRIES + 1)
  {
    hide Path;
    var v := vpn + n - 1;
    PathIs(v);
    if n == 1 {
      assert Paths(vpn, 0) == {};
      MidsJoin(v / ENTRIES, v / ENTRIES, v / ENTRIES);
    } else {
      assert vpn / TOPS == (v - 1) / TOPS;
      PathsAre(vpn, n - 1);
      MidsJoin(vpn / ENTRIES, (v - 1) / ENTRIES + 1, v / ENTRIES);
    }
  }

  const DEVICE_NODES: set<nat> := {TOPS, 128, 16, 96, 97}

  function KernelNodes(): set<nat> {
    DEVICE_NODES + ({TOPS + 2} + Mids(1024, 1088)) + {TOPS + 255, 0x1_FFFF}
  }

  lemma DevicePaths()
    ensures Paths(UART0, 1) == {TOPS, 128} && Paths(VIRTIO0, 1) == {TOPS, 128}
    ensures Paths(CLINT, 0x10) == {TOPS, 16} && Paths(PLIC, 0x400) == {TOPS, 96, 97}
    ensures Paths(TRAMPOLINE, 1) == {TOPS + 255, 0x1_FFFF} == Path(TRAMPOLINE)
  {
    hide Paths, Path;
    PathsAre(UART0, 1);
    PathsAre(VIRTIO0, 1);
    PathsAre(CLINT, 0x10);
    PathsAre(PLIC, 0x400);
    PathsAre(TRAMPOLINE, 1);
    PathIs(TRAMPOLINE);
    assert Mids(128, 129) == {128} && Mids(16, 17) == {16} && Mids(96, 98) == {96, 97};
    assert Mids(0x1_FFFF, 0x2_0000) == {0x1_FFFF};
  }

  // What the four device ranges take, one after the other.
  lemma DeviceNeeds()
    ensures |Paths(UART0, 1) - {}| == 2 && |Paths(VIRTIO0, 1) - ({} + Paths(UART0, 1))| == 0
    ensures |Paths(CLINT, 0x10) - ({} + Paths(UART0, 1) + Paths(VIRTIO0, 1))| == 1
    ensures |Paths(PLIC, 0x400) - ({} + Paths(UART0, 1) + Paths(VIRTIO0, 1) + Paths(CLINT, 0x10))| == 2
    ensures {} + Paths(UART0, 1) + Paths(VIRTIO0, 1) + Paths(CLINT, 0x10) + Paths(PLIC, 0x400) == DEVICE_NODES
  {
    hide Paths;
    DevicePaths();
    assert Paths(UART0, 1) - {} == {TOPS, 128};
    assert Paths(VIRTIO0, 1) - ({} + Paths(UART0, 1)) == {};
    assert Paths(CLINT, 0x10) - ({} + Paths(UART0, 1) + Paths(VIRTIO0, 1)) == {16};
    assert Paths(PLIC, 0x400) - ({} + Paths(UART0, 1) + Paths(VIRTIO0, 1) + Paths(CLINT, 0x10)) == {96, 97};
  }

  // What the kernel's text and data take, wherever the text ends.
  lemma MemoryNeeds(etext: nat)
    requires KERNBASE < etext < PHYSTOP
    ensures var text, data := Paths(KERNBASE, etext - KERNBASE), Paths(etext, PHYSTOP - etext);
      && |text - DEVICE_NODES| + |data - (DEVICE_NODES + text)| == 65
      && DEVICE_NODES + text + data == DEVICE_NODES + ({TOPS + 2} + Mids(1024, 1088))
  {
    hide Paths, Mids;
    var e := (etext - 1) / ENTRIES + 1;
    TextPaths(etext);
    DataPaths(etext);
    MemorySpots(DEVICE_NODES, Paths(KERNBASE, etext - KERNBASE), Paths(etext, PHYSTOP - etext), e, etext / ENTRIES);
  }

  lemma TextPaths(etext: nat)
    requires KERNBASE < etext < PHYSTOP
    ensures Paths(KERNBASE, etext - KERNBASE) == {TOPS + 2} + Mids(1024, (etext - 1) / ENTRIES + 1)
    ensures 1024 <= (etext - 1) / ENTRIES + 1 <= 1088
  {
    hide Paths, Mids;
    PathsAre(KERNBASE, etext - KERNBASE);
  }

  lemma DataPaths(etext: nat)
    requires KERNBASE < etext < PHYSTOP
    ensures Paths(etext, PHYSTOP - etext) == {TOPS + 2} + Mids(etext / ENTRIES, 1088)
    ensures 1024 <= etext / ENTRIES && (etext - 1) / ENTRIES <= etext / ENTRIES <= (etext - 1) / ENTRIES + 1
  {
    hide Paths, Mids;
    PathsAre(etext, PHYSTOP - etext);
  }

  lemma MemorySpots(devices: set<nat>, text: set<nat>, data: set<nat>, e: nat, f: nat)
    requires 1024 <= e <= 1088 && e - 1 <= f <= e && 1024 <= f && forall x :: x in devices ==> x < 1024 || x == TOPS
    requires text == {TOPS + 2} + Mids(1024, e) && data == {TOPS + 2} + Mids(f, 1088)
    ensures |text - devices| + |data - (devices + text)| == 65
    ensures devices + text + data == devices + ({TOPS + 2} + Mids(1024, 1088))
  {
    hide Mids;
    MidsSize(1024, e);
    MidsSize(e, 1088);
    TextSpots(devices, text, e);
    DataSpots(devices, text, data, e, f);
    AllSpots(text, data, e, f);
    assert devices + text + data == devices + (text + data);
  }

  lemma TextSpots(devices: set<nat>, text: set<nat>, e: nat)
    requires 1024 <= e <= 1088 && (forall x :: x in devices ==> x < 1024 || x == TOPS)
             && text == {TOPS + 2} + Mids(1024, e)
    ensures |text - devices| == 1 + |Mids(1024, e)|
  {
    assert text - devices == {TOPS + 2} + Mids(1024, e);
    assert TOPS + 2 !in Mids(1024, e);
  }

  lemma DataSpots(devices: set<nat>, text: set<nat>, data: set<nat>, e: nat, f: nat)
    requires 1024 <= e <= 1088 && e - 1 <= f <= e && 1024 <= f && forall x :: x in devices ==> x < 1024 || x == TOPS
    requires text == {TOPS + 2} + Mids(1024, e) && data == {TOPS + 2} + Mids(f, 1088)
    ensures data - (devices + text) == Mids(e, 1088)
  {
  }

  lemma AllSpots(text: set<nat>, data: set<nat>, e: nat, f: nat)
    requires 1024 <= e <= 1088 && e - 1 <= f <= e && 1024 <= f
    requires text == {TOPS + 2} + Mids(1024, e) && data == {TOPS + 2} + Mids(f, 1088)
    ensures text + data == {TOPS + 2} + Mids(1024, 1088)
  {
  }

  lemma TrampolineNeeds()
    ensures |Paths(TRAMPOLINE, 1) - (DEVICE_NODES + ({TOPS + 2} + Mids(1024, 1088)))| == 2
    ensures DEVICE_NODES + ({TOPS + 2} + Mids(1024, 1088)) + Paths(TRAMPOLINE, 1) == KernelNodes()
  {
    hide Paths;
    DevicePaths();
    assert Paths(TRAMPOLINE, 1) - (DEVICE_NODES + ({TOPS + 2} + Mids(1024, 1088))) == {TOPS + 255, 0x1_FFFF};
  }

  // Table pages that proc_kpagetable_init() takes.
  const KPAGES: nat := 73

  // proc_kpagetable_init(); halt is the panic of kvmmap().
  method ProcKpagetableInit(vm: Memory, etext: nat, trampoline: nat) returns (ok: bool, halt: bool, r: nat)
    requires Inv(vm.m) && KERNBASE < etext < PHYSTOP
    modifies vm
    ensures Inv(vm.m)
    ensures !halt && ok ==>
            Building(old(vm.m), vm.m, r, KernelMap(etext, trampoline)) && Nodes(vm.m, r) == KernelNodes()
    ensures !halt && !ok ==> vm.m == old(vm.m)
    ensures halt <==> 1 <= |old(vm.m).free| < KPAGES
    ensures !halt ==> (ok <==> |old(vm.m).free| >= KPAGES)
    ensures !halt && ok ==> |old(vm.m).free| == |vm.m.free| + KPAGES
  {
    hide FreeOk, DataOk, TreesOk, Lookup, Building, NewTree, NoLeaves, MakePte, KernelMap, Nodes, KernelNodes;
    ghost var m0 := vm.m;
    ok, r := vm.Uvmcreate();
    if !ok {
      return false, false, r;
    }
    BuildingStarts(m0, vm.m, r);
    halt := KvmmapDevices(vm, r, m0);
    if halt { return; }
    halt := KvmmapMemory(vm, r, etext, trampoline, m0);
  }

  method KvmmapDevices(vm: Memory, r: nat, ghost m0: Mem) returns (halt: bool)
    requires Inv(m0) && Inv(vm.m) && Building(m0, vm.m, r, map[]) && Nodes(vm.m, r) == {}
    modifies vm
    ensures Inv(vm.m) && (halt <==> |old(vm.m).free| < 5)
    ensures !halt ==>
            Building(m0, vm.m, r, Devices()) && Nodes(vm.m, r) == DEVICE_NODES
            && |old(vm.m).free| == |vm.m.free| + 5
  {
    hide FreeOk, DataOk, TreesOk, Lookup, Building, MakePte, Range, Nodes, Paths;
    DeviceNeeds();
    halt := Kvmmap(vm, r, UART0, 1, UART0, PTE_R + PTE_W, m0, map[]);
    if halt { return; }
    ghost var t := map[] + Range(UART0, 1, UART0, PTE_R + PTE_W);
    halt := Kvmmap(vm, r, VIRTIO0, 1, VIRTIO0, PTE_R + PTE_W, m0, t);
    assert !halt;  // in the same table as UART0
    t := t + Range(VIRTIO0, 1, VIRTIO0, PTE_R + PTE_W);
    halt := Kvmmap(vm, r, CLINT, 0x10, CLINT, PTE_R + PTE_W, m0, t);
    if halt { return; }
    t := t + Range(CLINT, 0x10, CLINT, PTE_R + PTE_W);
    halt := Kvmmap(vm, r, PLIC, 0x400, PLIC, PTE_R + PTE_W, m0, t);
  }

  // The text, the data, and the trampoline.
  method KvmmapMemory(vm: Memory, r: nat, etext: nat, trampoline: nat, ghost m0: Mem) returns (halt: bool)
    requires Inv(m0) && Inv(vm.m) && KERNBASE < etext < PHYSTOP && Building(m0, vm.m, r, Devices())
             && Nodes(vm.m, r) == DEVICE_NODES
    modifies vm
    ensures Inv(vm.m) && (halt <==> |old(vm.m).free| < 67)
    ensures !halt ==> Building(m0, vm.m, r, KernelMap(etext, trampoline)) && Nodes(vm.m, r) == KernelNodes()
    ensures !halt ==> |old(vm.m).free| == |vm.m.free| + 67
  {
    hide FreeOk, DataOk, TreesOk, Lookup, Building, MakePte, Range, Nodes, Paths, Mids, Path, KernelNodes;
    MemoryNeeds(etext);
    TrampolineNeeds();
    ghost var t := Devices();
    halt := Kvmmap(vm, r, KERNBASE, etext - KERNBASE, KERNBASE, PTE_R + PTE_X, m0, t);
    if halt { return; }
    t := t + Range(KERNBASE, etext - KERNBASE, KERNBASE, PTE_R + PTE_X);
    halt := Kvmmap(vm, r, etext, PHYSTOP - etext, etext, PTE_R + PTE_W, m0, t);
    if halt { return; }
    t := t + Range(etext, PHYSTOP - etext, etext, PTE_R + PTE_W);
    halt := Kvmmap(vm, r, TRAMPOLINE, 1, trampoline, PTE_R + PTE_X, m0, t);
  }

  // ---- pages taken ----

  // The trees with the given roots are new, and so are the given pages of the
  // kernel's; nothing else has changed.
  ghost predicate Extended(m: Mem, m': Mem, roots: set<nat>, pages: set<nat>) {
    && Shape(m) && Shape(m') && m'.lo == m.lo && |m'.ram| == |m.ram|
    && (forall p :: 0 <= p < |m.role| ==>
          || m'.role[p] == m.role[p]
          || (m.role[p].Free? && m'.role[p].Node? && m'.role[p].root in roots)
          || (m.role[p].Free? && m'.role[p].Other? && p in pages))
    && (forall p :: p in pages ==> p < |m.role| && m.role[p].Free? && m'.role[p].Other?)
    && (forall p :: 0 <= p < |m.role| && (m.role[p].Data? || m.role[p].Other?) ==> m'.ram[p] == m.ram[p])
    && (forall r :: r in roots ==> IsRoot(m', r) && !IsRoot(m, r))
    && (forall q :: q !in roots ==> (IsRoot(m', q) <==> IsRoot(m, q)))
    && forall q, v :: q !in roots && IsRoot(m', q) && IsRoot(m, q) && 0 <= v < VPNS ==>
      Lookup(m', q, v) == Lookup(m, q, v)
  }

  lemma ExtendedRefl(m: Mem)
    requires Shape(m)
    ensures Extended(m, m, {}, {})
  {
  }

  lemma ExtendedPage(m0: Mem, m: Mem, roots: set<nat>, pages: set<nat>)
    requires Inv(m0) && Extended(m0, m, roots, pages) && Inv(m) && m.free != []
    ensures var m' := PageTable.Kalloc(m);
      && Inv(m') && Extended(m0, m', roots, pages + {m.free[0]}) && SameLookups(m, m')
      && m.free[0] !in pages && m.lo <= m.free[0] < |m.ram| && |m'.free| == |m.free| - 1
  {
    hide Lookup, TreesOk, DataOk, SameNodes, Extended, Took;
    KallocKeeps(m);
    KallocTook(m, Filled(JUNK5));
    var m' := PageTable.Kalloc(m);
    assert m'.ram[m.free[0] := Filled(JUNK5)] == m'.ram;
    ExtendedTook(m0, m, m', roots, pages, m.free[0]);
  }

  lemma ExtendedTook(m0: Mem, m: Mem, m': Mem, roots: set<nat>, pages: set<nat>, p: nat)
    requires Extended(m0, m, roots, pages) && Took(m, m', p) && SameLookups(m, m')
    ensures Extended(m0, m', roots, pages + {p}) && p !in pages
  {
    hide Lookup;
    assert p < |m0.role| && m0.role[p].Free?;
  }

  lemma ExtendedUser(m0: Mem, m: Mem, m': Mem, roots: set<nat>, pages: set<nat>, r: nat, trampoline: nat,
                     trapframe: nat)
    requires Inv(m0) && Extended(m0, m, roots, pages) && NewUserTable(m, m', r, trampoline, trapframe)
    ensures Extended(m0, m', roots + {r}, pages) && Maps(m', r, UserMap(trampoline, trapframe)) && r !in roots
  {
    hide Lookup, FreeOk, TreesOk, DataOk, MakePte;
    FreshRoot(m0, m, m', roots, pages, r);
  }

  lemma FreshRoot(m0: Mem, m: Mem, m': Mem, roots: set<nat>, pages: set<nat>, r: nat)
    requires Inv(m0) && Extended(m0, m, roots, pages) && !IsRoot(m, r)
    ensures r !in roots && !IsRoot(m0, r)
  {
    hide Lookup, FreeOk, TreesOk, DataOk;
  }

  lemma ExtendedKernel(m0: Mem, m: Mem, m': Mem, roots: set<nat>, pages: set<nat>, r: nat, t: map<nat, nat>)
    requires Inv(m0) && Extended(m0, m, roots, pages) && Building(m, m', r, t)
    ensures Extended(m0, m', roots + {r}, pages) && Maps(m', r, t) && r !in roots
  {
    hide Lookup, FreeOk, TreesOk, DataOk;
    FreshRoot(m0, m, m', roots, pages, r);
  }

  lemma ExtendedMapped(m0: Mem, m: Mem, m': Mem, roots: set<nat>, pages: set<nat>, r: nat, v: nat, ppn: nat, perm: nat)
    requires Extended(m0, m, roots, pages) && r in roots && Grew(m, m', r) && perm < 1024
             && Mapped(m, m', r, v, 1, ppn, perm)
    ensures Extended(m0, m', roots, pages)
  {
    hide Lookup, MakePte;
  }

  lemma MapsMore(m: Mem, m': Mem, r: nat, t: map<nat, nat>, v: nat, ppn: nat, perm: nat)
    requires Maps(m, r, t) && perm < 1024 && Mapped(m, m', r, v, 1, ppn, perm)
    ensures Maps(m', r, t[v := MakePte(ppn, perm)])
  {
    hide Lookup, MakePte;
  }

  // A new tree or a new translation elsewhere does not show in tree r.
  lemma MapsKept(m: Mem, m': Mem, roots: set<nat>, pages: set<nat>, r: nat, t: map<nat, nat>)
    requires Maps(m, r, t) && Extended(m, m', roots, pages) && r !in roots
    ensures Maps(m', r, t)
  {
    hide Lookup;
  }

  lemma MapsSame(m: Mem, m': Mem, r: nat, t: map<nat, nat>)
    requires Maps(m, r, t) && Shape(m') && SameLookups(m, m')
    ensures Maps(m', r, t)
  {
    hide Lookup;
  }

  lemma MapsElsewhere(m: Mem, m': Mem, r: nat, t: map<nat, nat>, q: nat, v: nat, ppn: nat, perm: nat)
    requires Maps(m, r, t) && perm < 1024 && Mapped(m, m', q, v, 1, ppn, perm) && q != r
    ensures Maps(m', r, t)
  {
    hide Lookup, MakePte;
  }

  // A new tree owns no memory.
  lemma NewOwnsNothing(m0: Mem, m: Mem, roots: set<nat>, pages: set<nat>, r: nat)
    requires Inv(m0) && Extended(m0, m, roots, pages) && r in roots
    ensures OwnsNothing(m, r)
  {
    hide Lookup, FreeOk, TreesOk;
    forall p | 0 <= p < |m.role| && m.role[p].Data? ensures m.role[p].owner != r {
      assert m.role[p] == m0.role[p];
    }
  }

  lemma BareTable(m: Mem, u: nat, t: map<nat, nat>)
    requires Maps(m, u, t) && OwnsNothing(m, u) && (forall v :: v in t ==> Present(t[v]))
             && (forall v :: v in t ==> v < VPNS)
    ensures UserTable(m, u, Pages(0), t.Keys)
  {
    hide Lookup;
    assert Pages(0) == 0;
  }

  // ---- pages given back ----

  // The trees with the given roots are gone; their nodes, the memory they owned
  // and the given pages are free. Nothing else has changed.
  ghost predicate Gone(m: Mem, m': Mem, roots: set<nat>, pages: set<nat>) {
    && Shape(m) && Shape(m') && m'.lo == m.lo && |m'.ram| == |m.ram|
    && (forall p :: 0 <= p < |m.role| ==>
          m'.role[p] ==
          if || (m.role[p].Node? && m.role[p].root in roots)
             || (m.role[p].Data? && m.role[p].owner in roots)
             || p in pages
                        then Free else m.role[p])
    && (forall p :: 0 <= p < |m.role| && (m'.role[p].Data? || m'.role[p].Other?) ==> m'.ram[p] == m.ram[p])
    && (forall q :: IsRoot(m', q) <==> IsRoot(m, q) && q !in roots)
    && forall q, v :: IsRoot(m', q) && IsRoot(m, q) && 0 <= v < VPNS ==> Lookup(m', q, v) == Lookup(m, q, v)
  }

  lemma GoneRefl(m: Mem)
    requires Shape(m)
    ensures Gone(m, m, {}, {})
  {
  }

  // A page of the kernel's own.
  predicate Private(m: Mem, p: nat) {
    m.lo <= p < |m.role| && m.role[p].Other?
  }

  lemma GonePage(m0: Mem, m: Mem, roots: set<nat>, pages: set<nat>, p: nat)
    requires Gone(m0, m, roots, pages) && Inv(m) && Private(m, p)
    ensures Inv(PageTable.Kfree(m, p)) && Gone(m0, PageTable.Kfree(m, p), roots, pages + {p})
  {
    KfreeKeeps(m, p);
    hide Lookup, TreesOk, DataOk, FreeOk;
  }

  lemma GoneMemory(m0: Mem, m: Mem, m': Mem, roots: set<nat>, pages: set<nat>, r: nat)
    requires Gone(m0, m, roots, pages) && MemoryReturned(m, m', r)
    ensures Gone(m0, m', roots + {r}, pages)
  {
    hide Lookup;
  }

  lemma GoneTree(m0: Mem, m: Mem, m': Mem, roots: set<nat>, pages: set<nat>, r: nat)
    requires Gone(m0, m, roots, pages) && TreeGone(m, m', r) && OwnsNothing(m, r)
    ensures Gone(m0, m', roots + {r}, pages)
  {
    hide Lookup;
  }

  lemma GoneOwned(m: Mem, m': Mem, roots: set<nat>, pages: set<nat>, r: nat, v: nat)
    requires Gone(m, m', roots, pages) && r !in roots && forall p :: p in pages ==> Private(m, p)
    ensures Owned(m', r, v) == Owned(m, r, v)
  {
    hide Lookup;
    if Owned(m, r, v) {
      var p :| 0 <= p < |m.role| && m.role[p] == Data(r, v);
      assert m'.role[p] == Data(r, v);
    }
  }

  lemma TableStands(m: Mem, m': Mem, roots: set<nat>, pages: set<nat>, r: nat, n: nat, others: set<nat>)
    requires Gone(m, m', roots, pages) && r !in roots && UserTable(m, r, n, others)
    requires forall p :: p in pages ==> Private(m, p)
    ensures UserTable(m', r, n, others)
  {
    hide Lookup, Owned;
    forall v: nat ensures Owned(m', r, v) == Owned(m, r, v) { GoneOwned(m, m', roots, pages, r, v); }
  }

  lemma TreeStands(m: Mem, m': Mem, roots: set<nat>, pages: set<nat>, r: nat)
    requires Gone(m, m', roots, pages) && r !in roots && IsRoot(m, r) && OwnsNothing(m, r)
    ensures IsRoot(m', r) && OwnsNothing(m', r)
  {
    hide Lookup;
  }

  lemma PageStands(m: Mem, m': Mem, roots: set<nat>, pages: set<nat>, p: nat)
    requires Gone(m, m', roots, pages) && p !in pages && Private(m, p)
    ensures Private(m', p)
  {
    hide Lookup;
  }

  // What was taken is given back.
  lemma TakenAndGone(m0: Mem, m: Mem, m': Mem, roots: set<nat>, pages: set<nat>)
    requires Inv(m0) && Extended(m0, m, roots, pages) && Gone(m, m', roots, pages)
    ensures Undone(m0, m')
  {
    hide Lookup, FreeOk;
    forall p | 0 <= p < |m0.role| ensures m'.role[p] == m0.role[p] {
      if m0.role[p].Node? {
        assert NodeOk(m0, p);
      }
    }
  }

  // ---- freeproc() ----

  // The pages a process refers to; 0 stands for none.
  datatype Proc = Proc(trapframe: nat, u: nat, usyscall: nat, kstack: nat, k: nat) {
    function Roots(): set<nat> {
      {u, k} - {0}
    }

    function Pages(): set<nat> {
      {trapframe, usyscall, kstack} - {0}
    }
  }

  // p->kstack is a page of this process's, or none, or still the address that
  // procinit() stored there, which no page has.
  ghost predicate Freeable(m: Mem, p: Proc, sz: nat) {
    && (p.trapframe != 0 ==> Private(m, p.trapframe) && p.trapframe != p.usyscall && p.trapframe != p.kstack)
    && (p.usyscall != 0 ==> Private(m, p.usyscall) && p.usyscall != p.kstack)
    && (p.kstack != 0 && p.kstack < |m.role| ==> Private(m, p.kstack))
    && (p.u != 0 ==> UserTable(m, p.u, Pages(sz), if p.usyscall != 0 then FIXED else {TRAMPOLINE, TRAPFRAME}))
    && (p.k != 0 ==> IsRoot(m, p.k) && OwnsNothing(m, p.k) && p.k != p.u)
  }

  // freeproc(); halt is the panic of kfree() on a kernel stack that is none.
  method Freeproc(vm: Memory, p: Proc, sz: nat) returns (halt: bool)
    requires Inv(vm.m) && Freeable(vm.m, p, sz)
    modifies vm
    ensures halt <==> p.kstack >= |old(vm.m).role|
    ensures !halt ==> Inv(vm.m) && Gone(old(vm.m), vm.m, p.Roots(), p.Pages())
  {
    hide FreeOk, DataOk, TreesOk, Lookup, Gone, MemoryReturned, UserTable, OwnsNothing, TreeGone;
    ghost var m0 := vm.m;
    assert 0 < vm.m.lo;
    GoneRefl(m0);
    ghost var pages: set<nat>, roots: set<nat> := {}, {};
    if p.trapframe != 0 {
      GonePage(m0, vm.m, {}, {}, p.trapframe);
      vm.Kfree(p.trapframe);
      pages := {} + {p.trapframe};
    }
    assert pages == {p.trapframe} - {0};
    FreeUser(vm, p, sz, m0, pages);
    roots := {p.u} - {0};
    if p.usyscall != 0 {
      PageStands(m0, vm.m, roots, pages, p.usyscall);
      GonePage(m0, vm.m, roots, pages, p.usyscall);
      vm.Kfree(p.usyscall);
      pages := pages + {p.usyscall};
    }
    if p.kstack != 0 {
      SameSize(m0, vm.m, roots, pages);
      if p.kstack < vm.m.lo || p.kstack >= |vm.m.ram| {
        return true;
      }
      PageStands(m0, vm.m, roots, pages, p.kstack);
      GonePage(m0, vm.m, roots, pages, p.kstack);
      vm.Kfree(p.kstack);
      pages := pages + {p.kstack};
    }
    if p.k != 0 {
      TreeStands(m0, vm.m, roots, pages, p.k);
      ghost var m1 := vm.m;
      vm.Freewalk(p.k, true);
      GoneTree(m0, m1, vm.m, roots, pages, p.k);
      roots := roots + {p.k};
    }
    assert roots == p.Roots() && pages == p.Pages();
    return false;
  }

  lemma SameSize(m: Mem, m': Mem, roots: set<nat>, pages: set<nat>)
    requires Gone(m, m', roots, pages)
    ensures Shape(m') && m'.lo == m.lo && |m'.ram| == |m.ram| && |m.role| == |m.ram|
  {
  }

  // The user table: first the USYSCALL entry, then the rest.
  method FreeUser(vm: Memory, p: Proc, sz: nat, ghost m0: Mem, ghost pages: set<nat>)
    requires Inv(m0) && Freeable(m0, p, sz) && Inv(vm.m) && Gone(m0, vm.m, {}, pages)
    requires pages == {p.trapframe} - {0}
    modifies vm
    ensures Inv(vm.m) && Gone(m0, vm.m, {p.u} - {0}, pages)
  {
    hide FreeOk, DataOk, TreesOk, Lookup, Gone, MemoryReturned, OwnsNothing, Unmapped, Released, Owned, UserTable;
    if p.u == 0 {
      assert {p.u} - {0} == {};
    } else {
      ghost var m1 := vm.m;
      ghost var others := if p.usyscall != 0 then FIXED else {TRAMPOLINE, TRAPFRAME};
      TableStands(m0, m1, {}, pages, p.u, Pages(sz), others);
      if p.usyscall != 0 {
        TableHas(m1, p.u, Pages(sz), others, USYSCALL);
        vm.Uvmunmap(p.u, USYSCALL, 1, false);
        ghost var m2 := vm.m;
        OneLess(m1, m2, p.u, Pages(sz), FIXED, USYSCALL);
        assert FIXED - {USYSCALL} == {TRAMPOLINE, TRAPFRAME};
        ProcFreepagetable(vm, p.u, sz);
        ReturnedLess(m1, m2, vm.m, p.u, USYSCALL);
      } else {
        ProcFreepagetable(vm, p.u, sz);
      }
      GoneMemory(m0, m1, vm.m, {}, pages, p.u);
      assert {} + {p.u} == {p.u} - {0};
    }
  }

  lemma TableHas(m: Mem, u: nat, n: nat, others: set<nat>, v: nat)
    requires UserTable(m, u, n, others) && v in others
    ensures IsRoot(m, u) && Present(Lookup(m, u, v)) && !Owned(m, u, v)
  {
    hide Lookup, Owned;
  }

  // ---- allocproc() ----

  // Pages that allocproc() takes.
  const APAGES: nat := 79

  function UserTableOf(p: Proc, trampoline: nat): map<nat, nat> {
    if p.usyscall == 0 then UserMap(trampoline, p.trapframe)
    else UserMap(trampoline, p.trapframe)[USYSCALL := MakePte(p.usyscall, PTE_R + PTE_U)]
  }

  function KernelTableOf(p: Proc, slot: nat, etext: nat, trampoline: nat): map<nat, nat>
    requires slot < NPROC && KERNBASE < etext < PHYSTOP
  {
    if p.kstack == 0 then KernelMap(etext, trampoline)
    else KernelMap(etext, trampoline)[Kstack(slot) := MakePte(p.kstack, PTE_R + PTE_W)]
  }

  // The process has got its pages one by one, in the order of the fields, and
  // its tables translate accordingly.
  ghost predicate Begun(m0: Mem, m: Mem, p: Proc, slot: nat, etext: nat, trampoline: nat)
    requires slot < NPROC && KERNBASE < etext < PHYSTOP
  {
    && Inv(m0) && Inv(m) && Extended(m0, m, p.Roots(), p.Pages())
    && (p.trapframe == 0 ==> p.u == 0) && (p.u == 0 ==> p.usyscall == 0) && (p.usyscall == 0 ==> p.k == 0)
    && (p.k == 0 ==> p.kstack == 0)
    && (p.usyscall != 0 ==> p.trapframe != p.usyscall)
    && (p.kstack != 0 ==> p.trapframe != p.kstack && p.usyscall != p.kstack)
    && (p.u != 0 ==> Maps(m, p.u, UserTableOf(p, trampoline)))
    && (p.k != 0 ==> p.k != p.u && Maps(m, p.k, KernelTableOf(p, slot, etext, trampoline)))
  }

  // Its tables have no more nodes than they need.
  ghost predicate Lean(m: Mem, p: Proc) {
    (p.u != 0 ==> Nodes(m, p.u) == Path(TRAMPOLINE)) && (p.k != 0 ==> Nodes(m, p.k) == KernelNodes())
  }

  lemma BegunFreeable(m0: Mem, m: Mem, p: Proc, slot: nat, etext: nat, trampoline: nat)
    requires slot < NPROC && KERNBASE < etext < PHYSTOP && Begun(m0, m, p, slot, etext, trampoline)
    ensures Freeable(m, p, 0)
  {
    hide Lookup, MakePte, UserTable, Extended, FreeOk, TreesOk, DataOk;
    forall q | q in p.Pages() ensures Private(m, q) { NewPrivate(m0, m, p.Roots(), p.Pages(), q); }
    assert p.trapframe != 0 ==> p.trapframe in p.Pages();
    assert p.usyscall != 0 ==> p.usyscall in p.Pages();
    assert p.kstack != 0 ==> p.kstack in p.Pages();
    if p.u != 0 {
      NewOwnsNothing(m0, m, p.Roots(), p.Pages(), p.u);
      var t := UserTableOf(p, trampoline);
      UserKeys(p, trampoline);
      BareTable(m, p.u, t);
    }
    if p.k != 0 {
      NewOwnsNothing(m0, m, p.Roots(), p.Pages(), p.k);
    }
  }

  lemma UserKeys(p: Proc, trampoline: nat)
    ensures var t := UserTableOf(p, trampoline);
      && (forall v :: v in t ==> v < VPNS && Present(t[v]))
      && t.Keys == if p.usyscall != 0 then FIXED else {TRAMPOLINE, TRAPFRAME}
  {
    hide MakePte;
  }

  lemma NewPrivate(m0: Mem, m: Mem, roots: set<nat>, pages: set<nat>, q: nat)
    requires Inv(m0) && Extended(m0, m, roots, pages) && q in pages
    ensures Private(m, q)
  {
    hide Lookup, TreesOk, DataOk;
    assert q in m0.free;
  }

  // freeproc() of a process that could not be completed.
  method Abandon(vm: Memory, p: Proc, stale: nat, slot: nat, etext: nat, trampoline: nat, ghost m0: Mem)
    returns (halt: bool)
    requires slot < NPROC && KERNBASE < etext < PHYSTOP && Begun(m0, vm.m, p, slot, etext, trampoline) && p.kstack == 0
    requires stale == 0 || stale >= |m0.ram|
    modifies vm
    ensures halt <==> stale != 0
    ensures !halt ==> Inv(vm.m) && Undone(m0, vm.m)
  {
    hide Lookup, MakePte, UserTable, Extended, FreeOk, TreesOk, DataOk, Gone, Undone, Maps;
    BegunFreeable(m0, vm.m, p, slot, etext, trampoline);
    ghost var m1 := vm.m;
    ExtendedSize(m0, m1, p.Roots(), p.Pages());
    var q := p.(kstack := stale);
    halt := Freeproc(vm, q, 0);
    if !halt {
      TakenAndGone(m0, m1, vm.m, p.Roots(), p.Pages());
    }
  }

  lemma ExtendedSize(m: Mem, m': Mem, roots: set<nat>, pages: set<nat>)
    requires Extended(m, m', roots, pages)
    ensures |m'.ram| == |m.ram| == |m'.role| == |m.role| && 0 < m.lo == m'.lo
  {
  }

  // A trapframe and a user table.
  method TakeUser(vm: Memory, slot: nat, etext: nat, trampoline: nat) returns (ok: bool, p: Proc)
    requires Inv(vm.m) && slot < NPROC && KERNBASE < etext < PHYSTOP
    modifies vm
    ensures Begun(old(vm.m), vm.m, p, slot, etext, trampoline) && Lean(vm.m, p)
    ensures p.kstack == p.usyscall == p.k == 0 && (ok ==> p.u != 0)
    ensures (ok <==> |old(vm.m).free| >= 4) && (ok ==> |old(vm.m).free| == |vm.m.free| + 4)
  {
    hide Lookup, MakePte, UserTable, Extended, FreeOk, TreesOk, DataOk, Maps, NewUserTable, Undone;
    ghost var m0 := vm.m;
    ExtendedRefl(m0);
    p := Proc(0, 0, 0, 0, 0);
    assert p.Roots() == {} && p.Pages() == {};
    var trapframe, u;
    ok, trapframe := vm.Kalloc();
    if !ok {
      return;
    }
    ExtendedPage(m0, m0, {}, {});
    p := p.(trapframe := trapframe);
    assert p.Roots() == {} && p.Pages() == {} + {trapframe};
    ghost var m1 := vm.m;
    ok, u := ProcPagetable(vm, trampoline, trapframe);
    if !ok {
      ExtendedUndone(m0, m1, vm.m, p.Roots(), p.Pages());
      return;
    }
    ExtendedUser(m0, m1, vm.m, p.Roots(), p.Pages(), u, trampoline, trapframe);
    RootIsPage(vm.m, u, UserMap(trampoline, trapframe));
    p := p.(u := u);
    assert p.Roots() == {} + {u} && p.Pages() == {} + {trapframe};
  }

  lemma ExtendedUndone(m0: Mem, m: Mem, m': Mem, roots: set<nat>, pages: set<nat>)
    requires Extended(m0, m, roots, pages) && Undone(m, m')
    ensures Extended(m0, m', roots, pages)
  {
    hide Lookup;
  }

  lemma RootIsPage(m: Mem, r: nat, t: map<nat, nat>)
    requires Inv(m) && Maps(m, r, t)
    ensures r != 0
  {
    hide Lookup, FreeOk, DataOk;
    assert NodeOk(m, r);
  }

  // The page that USYSCALL shows, mapped beside the trampoline: walk() finds
  // the table that is there, so this mappages() cannot fail.
  method TakeUsyscall(vm: Memory, p: Proc, slot: nat, etext: nat, trampoline: nat, ghost m0: Mem)
    returns (ok: bool, q: Proc)
    requires slot < NPROC && KERNBASE < etext < PHYSTOP && Begun(m0, vm.m, p, slot, etext, trampoline)
    requires Lean(vm.m, p) && p.u != 0 && p.usyscall == 0 && p.k == 0
    modifies vm
    ensures Begun(m0, vm.m, q, slot, etext, trampoline) && Lean(vm.m, q)
    ensures q == p.(usyscall := q.usyscall) && (ok ==> q.usyscall != 0)
    ensures (ok <==> |old(vm.m).free| >= 1) && (ok ==> |old(vm.m).free| == |vm.m.free| + 1)
  {
    hide Lookup, MakePte, UserTable, Extended, FreeOk, TreesOk, DataOk, Maps, Mapped, Grew, SameLookups, Nodes, Path;
    ghost var m1 := vm.m;
    var usyscall;
    q := p;
    ok, usyscall := vm.Kalloc();
    if !ok {
      return;
    }
    ExtendedPage(m0, m1, p.Roots(), p.Pages());
    ghost var m2 := vm.m;
    ghost var t := UserTableOf(p, trampoline);
    MapsSame(m1, m2, p.u, t);
    KallocNodes(m1, p.u);
    TopPath();
    NothingMissing(m2, p.u, USYSCALL);
    RoomFor(m2, p.u, t);
    ghost var k;
    ok, k := vm.Mappages(p.u, USYSCALL, 1, usyscall, PTE_R + PTE_U);
    q := p.(usyscall := usyscall);
    assert q.Roots() == p.Roots() && q.Pages() == p.Pages() + {usyscall};
    ExtendedMapped(m0, m2, vm.m, q.Roots(), q.Pages(), p.u, USYSCALL, usyscall, PTE_R + PTE_U);
    MapsMore(m2, vm.m, p.u, t, USYSCALL, usyscall, PTE_R + PTE_U);
    assert q.trapframe in p.Pages();
  }

  lemma KallocNodes(m: Mem, r: nat)
    requires Inv(m) && m.free != []
    ensures Nodes(PageTable.Kalloc(m), r) == Nodes(m, r)
  {
    hide TreesOk, DataOk, Nodes;
    NodesOther(m, PageTable.Kalloc(m), m.free[0], r);
  }

  // The tables for these addresses are there.
  lemma NothingMissing(m: Mem, r: nat, vpn: nat)
    requires Path(vpn) <= Nodes(m, r)
    ensures Tables(m, r, vpn, 1) == 0 && Nodes(m, r) + Paths(vpn, 1) == Nodes(m, r)
  {
    OneTable(m, r, vpn);
    assert Path(vpn) - Nodes(m, r) == {};
  }

  lemma RoomFor(m: Mem, u: nat, t: map<nat, nat>)
    requires Inv(m) && Maps(m, u, t) && TRAMPOLINE in t && Present(t[TRAMPOLINE]) && USYSCALL !in t
    ensures IsRoot(m, u) && Table(m, u, USYSCALL) < |m.ram| && !Present(Lookup(m, u, USYSCALL))
  {
    hide FreeOk, DataOk, TreesOk;
    assert Present(Lookup(m, u, TRAMPOLINE));
    SameTable(m, u, USYSCALL, TRAMPOLINE);
    PresentHasTable(m, u, TRAMPOLINE);
  }

  // The kernel table.
  method TakeKernel(vm: Memory, p: Proc, slot: nat, etext: nat, trampoline: nat, ghost m0: Mem)
    returns (ok: bool, halt: bool, q: Proc)
    requires slot < NPROC && KERNBASE < etext < PHYSTOP && Begun(m0, vm.m, p, slot, etext, trampoline)
    requires Lean(vm.m, p) && p.usyscall != 0 && p.k == 0
    modifies vm
    ensures !halt ==>
            Begun(m0, vm.m, q, slot, etext, trampoline) && Lean(vm.m, q) && q == p.(k := q.k)
            && (ok ==> q.k != 0)
    ensures halt <==> 1 <= |old(vm.m).free| < KPAGES
    ensures !halt ==> (ok <==> |old(vm.m).free| >= KPAGES) && (ok ==> |old(vm.m).free| == |vm.m.free| + KPAGES)
  {
    hide Lookup, MakePte, UserTable, Extended, FreeOk, TreesOk, DataOk, Maps, Building, Nodes, Path, KernelNodes;
    ghost var m1 := vm.m;
    var k;
    q := p;
    ok, halt, k := ProcKpagetableInit(vm, etext, trampoline);
    if halt || !ok {
      return;
    }
    ghost var t := KernelMap(etext, trampoline);
    ExtendedKernel(m0, m1, vm.m, p.Roots(), p.Pages(), k, t);
    RootIsPage(vm.m, k, t);
    UserBeside(m0, m1, vm.m, p, k, t, trampoline);
    NodesBuilding(m1, vm.m, k, t, p.u);
    q := p.(k := k);
    assert q.Roots() == p.Roots() + {k} && q.Pages() == p.Pages();
  }

  lemma NodesBuilding(m: Mem, m': Mem, k: nat, t: map<nat, nat>, u: nat)
    requires Building(m, m', k, t) && u != k
    ensures Nodes(m', u) == Nodes(m, u)
  {
    hide Lookup;
    forall x | x in Nodes(m, u) ensures x in Nodes(m', u) {
      var p :| 0 <= p < |m.role| && IsBelow(m, u, p) && x == Spot(m.role[p].level, m.role[p].prefix);
      assert m'.role[p] == m.role[p];
    }
  }

  lemma UserBeside(m0: Mem, m1: Mem, m: Mem, p: Proc, k: nat, t: map<nat, nat>, trampoline: nat)
    requires p.u != 0 && Maps(m1, p.u, UserTableOf(p, trampoline)) && Building(m1, m, k, t)
             && Extended(m0, m1, p.Roots(), p.Pages())
    ensures k != p.u && Maps(m, p.u, UserTableOf(p, trampoline))
  {
    hide Lookup, MakePte;
  }

  // The kernel stack, mapped in the table that holds the trampoline, so kvmmap()
  // cannot panic.
  method TakeStack(vm: Memory, p: Proc, slot: nat, etext: nat, trampoline: nat, ghost m0: Mem)
    returns (ok: bool, q: Proc)
    requires slot < NPROC && KERNBASE < etext < PHYSTOP && Begun(m0, vm.m, p, slot, etext, trampoline)
    requires Lean(vm.m, p) && p.k != 0 && p.kstack == 0
    modifies vm
    ensures Begun(m0, vm.m, q, slot, etext, trampoline) && Lean(vm.m, q) && q == p.(kstack := q.kstack)
            && (ok <==> q.kstack != 0)
    ensures (ok <==> |old(vm.m).free| >= 1) && (ok ==> |old(vm.m).free| == |vm.m.free| + 1)
  {
    hide Lookup, MakePte, UserTable, Extended, FreeOk, TreesOk, DataOk, Maps, Mapped, Grew, SameLookups, Nodes, Path,
         KernelNodes, Mids;
    ghost var m1 := vm.m;
    var pa;
    q := p;
    ok, pa := vm.Kalloc();
    if !ok {
      return ok, q;
    }
    ExtendedPage(m0, m1, p.Roots(), p.Pages());
    ghost var m2 := vm.m;
    ghost var t, tu := KernelMap(etext, trampoline), UserTableOf(p, trampoline);
    MapsSame(m1, m2, p.k, t);
    MapsSame(m1, m2, p.u, tu);
    KallocNodes(m1, p.k);
    KallocNodes(m1, p.u);
    StackPath(slot);
    NothingMissing(m2, p.k, Kstack(slot));
    StackFree(m2, p.k, slot, etext, trampoline);
    ghost var k;
    ok, k := vm.Mappages(p.k, Kstack(slot), 1, pa, PTE_R + PTE_W);
    q := p.(kstack := pa);
    assert q.Roots() == p.Roots() && q.Pages() == p.Pages() + {pa};
    NodesGrew(m2, vm.m, p.k, p.u);
    ExtendedMapped(m0, m2, vm.m, q.Roots(), q.Pages(), p.k, Kstack(slot), pa, PTE_R + PTE_W);
    MapsMore(m2, vm.m, p.k, t, Kstack(slot), pa, PTE_R + PTE_W);
    MapsElsewhere(m2, vm.m, p.u, tu, p.k, Kstack(slot), pa, PTE_R + PTE_W);
    assert p.trapframe in p.Pages() && p.usyscall in p.Pages();
  }

  lemma StackPath(slot: nat)
    requires slot < NPROC
    ensures Path(Kstack(slot)) <= KernelNodes()
  {
    hide Path;
    PathIs(Kstack(slot));
  }

  lemma StackFree(m: Mem, k: nat, slot: nat, etext: nat, trampoline: nat)
    requires slot < NPROC && KERNBASE < etext < PHYSTOP && Maps(m, k, KernelMap(etext, trampoline))
    ensures IsRoot(m, k) && !Present(Lookup(m, k, Kstack(slot))) && USER_TOP_VPN <= Kstack(slot)
  {
    hide Lookup, MakePte;
    assert Kstack(slot) !in KernelMap(etext, trampoline);
  }

  // allocproc() for the given slot of the process table, whose p->kstack is
  // stale / PGSIZE: 0 if a process was freed there before, and otherwise the
  // address procinit() stored, which is above all memory. In such a slot every
  // failure ends in the panic of kfree(). In the other ones a failure undoes
  // everything, unless memory runs out inside proc_kpagetable_init(), where
  // kvmmap() panics. locked says that p->lock is held on return, as it should be
  // after a success; the exit for lack of a kernel stack forgets to release it.
  method Allocproc(vm: Memory, slot: nat, stale: nat, etext: nat, trampoline: nat)
    returns (ok: bool, halt: bool, p: Proc, locked: bool)
    requires Inv(vm.m) && slot < NPROC && KERNBASE < etext < PHYSTOP && (stale == 0 || stale >= |vm.m.ram|)
    modifies vm
    ensures halt <==> if stale == 0 then 6 <= |old(vm.m).free| < APAGES - 1 else |old(vm.m).free| < APAGES
    ensures !halt ==> (ok <==> |old(vm.m).free| >= APAGES)
    ensures !halt && ok ==> Begun(old(vm.m), vm.m, p, slot, etext, trampoline) && Lean(vm.m, p) && p.kstack != 0
    ensures !halt && ok ==> |old(vm.m).free| == |vm.m.free| + APAGES
    ensures !halt && !ok ==> Inv(vm.m) && Undone(old(vm.m), vm.m)
    ensures !halt ==> (locked <==> |old(vm.m).free| >= APAGES - 1)
  {
    hide Begun, Lean, Undone, FreeOk, TreesOk, DataOk;
    ghost var m0 := vm.m;
    ok, p := TakeUser(vm, slot, etext, trampoline);
    if ok {
      ok, p := TakeUsyscall(vm, p, slot, etext, trampoline, m0);
    }
    if ok {
      ok, halt, p := TakeKernel(vm, p, slot, etext, trampoline, m0);
      if halt {
        return false, true, p, true;
      }
    }
    locked := ok;
    if ok {
      ok, p := TakeStack(vm, p, slot, etext, trampoline, m0);
    }
    if !ok {
      halt := Abandon(vm, p, stale, slot, etext, trampoline, m0);
      return;
    }
    halt := false;
  }
}
