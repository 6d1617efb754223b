// Processes and their address spaces: userinit(), growproc(), fork() and
// freeproc() of kernel/proc.c, the commit of exec() in kernel/exec.c, and
// copyin_new() of kernel/vmcopyin.c, on a system with any number of processes.
module Shadow {
  import opened PageTable
  import opened Vm
  import opened AddressSpace
  import opened ProcMemory
  import opened Prelude

  // p->pagetable, p->kpagetable and p->sz
  datatype Space = Space(u: nat, k: nat, sz: nat)

  // The user table maps the process's own memory and the fixed pages, the
  // kernel table owns nothing, and the two agree on the process's memory.
  ghost predicate SpaceOk(m: Mem, a: Space) {
    && Shape(m) && a.u != a.k && IsRoot(m, a.k) && OwnsNothing(m, a.k) && Pages(a.sz) < USER_TOP_VPN
    && UserTable(m, a.u, Pages(a.sz), FIXED)
    && Agrees(m, a.u, a.k, Pages(a.sz))
  }

  predicate Apart(a: Space, b: Space) {
    a.u != b.u && a.u != b.k && a.k != b.u && a.k != b.k
  }

  ghost predicate SystemOk(m: Mem, procs: seq<Space>) {
    && Inv(m)
    && (forall i :: 0 <= i < |procs| ==> SpaceOk(m, procs[i]))
    && (forall i, j :: 0 <= i < j < |procs| ==> Apart(procs[i], procs[j]))
  }

  // The pages behind a process: p->trapframe, p->usyscall and p->kstack are the
  // kernel's, and different.
  predicate Backs(m: Mem, p: Proc, a: Space) {
    && p.u == a.u && p.k == a.k
    && Private(m, p.trapframe) && Private(m, p.usyscall) && Private(m, p.kstack)
    && p.trapframe != p.usyscall && p.trapframe != p.kstack && p.usyscall != p.kstack
  }

  ghost predicate HeldOk(m: Mem, procs: seq<Space>, held: seq<Proc>) {
    && |held| == |procs|
    && (forall i :: 0 <= i < |procs| ==> Backs(m, held[i], procs[i]))
    && (forall i, j :: 0 <= i < j < |held| ==> held[i].Pages() !! held[j].Pages())
  }

  // The kernel's own pages stay its own, with their contents.
  predicate PrivateKept(m: Mem, m': Mem) {
    && Shape(m) && Shape(m') && |m'.role| == |m.role| && m'.lo == m.lo
    && forall p :: m.lo <= p < |m.role| && m.role[p].Other? ==> m'.role[p].Other? && m'.ram[p] == m.ram[p]
  }

  lemma PrivateTrans(m: Mem, m1: Mem, m2: Mem)
    requires PrivateKept(m, m1) && PrivateKept(m1, m2)
    ensures PrivateKept(m, m2)
  {
  }

  lemma PrivateGrew(m: Mem, m': Mem, r: nat)
    requires Grew(m, m', r)
    ensures PrivateKept(m, m')
  {
  }

  lemma PrivateAllocated(m: Mem, m': Mem, r: nat, lo: nat, hi: nat, img: Image)
    requires Allocated(m, m', r, lo, hi, img)
    ensures PrivateKept(m, m')
  {
    hide Lookup, FreshAt;
  }

  lemma PrivateReleased(m: Mem, m': Mem, r: nat, lo: nat, hi: nat)
    requires Released(m, m', r, lo, hi)
    ensures PrivateKept(m, m')
  {
  }

  lemma PrivateReturned(m: Mem, m': Mem, r: nat)
    requires MemoryReturned(m, m', r)
    ensures PrivateKept(m, m')
  {
    hide Lookup;
  }

  lemma PrivateExtended(m: Mem, m': Mem, roots: set<nat>, pages: set<nat>)
    requires Extended(m, m', roots, pages)
    ensures PrivateKept(m, m')
  {
    hide Lookup;
  }

  lemma PrivateUndone(m: Mem, m': Mem)
    requires Undone(m, m')
    ensures PrivateKept(m, m')
  {
    hide Lookup, SameLookups;
  }

  lemma HeldKept(m: Mem, m': Mem, procs: seq<Space>, held: seq<Proc>)
    requires HeldOk(m, procs, held) && PrivateKept(m, m')
    ensures HeldOk(m', procs, held)
  {
  }

  lemma HeldSized(m: Mem, procs: seq<Space>, held: seq<Proc>, i: nat, a: Space)
    requires HeldOk(m, procs, held) && i < |procs| && a.u == procs[i].u && a.k == procs[i].k
    ensures HeldOk(m, procs[i := a], held)
  {
  }

  // The trees of a translate as before, and the memory they own is theirs and
  // has its contents as before.
  ghost predicate Untouched(m: Mem, m': Mem, a: Space) {
    && Shape(m) && Shape(m') && |m'.role| == |m.role|
    && (IsRoot(m, a.u) ==> IsRoot(m', a.u) && forall v :: 0 <= v < VPNS ==> Lookup(m', a.u, v) == Lookup(m, a.u, v))
    && (IsRoot(m, a.k) ==> IsRoot(m', a.k) && forall v :: 0 <= v < VPNS ==> Lookup(m', a.k, v) == Lookup(m, a.k, v))
    && (forall p :: 0 <= p < |m.role| && m.role[p].Data? && m.role[p].owner == a.u ==>
          m'.role[p] == m.role[p] && m'.ram[p] == m.ram[p])
    && (forall p :: 0 <= p < |m.role| && m'.role[p].Data? && m'.role[p].owner in {a.u, a.k} ==> m'.role[p] == m.role[p])
    && (forall p :: 0 <= p < |m.role| && m.role[p].Node? && m.role[p].root in {a.u, a.k} ==> m'.role[p] == m.role[p])
  }

  // So the trees have the nodes they had.
  lemma NodesUntouched(m: Mem, m': Mem, a: Space)
    requires Untouched(m, m', a)
    ensures Nodes(m, a.u) <= Nodes(m', a.u) && Nodes(m, a.k) <= Nodes(m', a.k)
  {
    hide Lookup;
    forall r, x | r in {a.u, a.k} && x in Nodes(m, r) ensures x in Nodes(m', r) {
      var p :| 0 <= p < |m.role| && IsBelow(m, r, p) && x == Spot(m.role[p].level, m.role[p].prefix);
      assert m'.role[p] == m.role[p];
    }
  }

  lemma OwnedKept(m: Mem, m': Mem, a: Space, v: nat)
    requires Untouched(m, m', a)
    ensures Owned(m', a.u, v) == Owned(m, a.u, v)
  {
    hide Lookup;
    if Owned(m, a.u, v) {
      var p :| 0 <= p < |m.role| && m.role[p] == Data(a.u, v);
      assert m'.role[p] == Data(a.u, v);
    }
    if Owned(m', a.u, v) {
      var p :| 0 <= p < |m'.role| && m'.role[p] == Data(a.u, v);
      assert m.role[p] == Data(a.u, v);
    }
  }

  lemma SpaceKept(m: Mem, m': Mem, a: Space)
    requires SpaceOk(m, a) && Untouched(m, m', a)
    ensures SpaceOk(m', a)
  {
    hide Lookup, WithoutU, Owned;
    forall v: nat ensures Owned(m', a.u, v) == Owned(m, a.u, v) { OwnedKept(m, m', a, v); }
  }

  // ---- growproc() ----

  const UINT64: nat := 0x1_0000_0000_0000_0000

  // What growing the memory of a leaves alone.
  lemma AllocatedApart(m: Mem, m': Mem, r: nat, lo: nat, hi: nat, img: Image, b: Space)
    requires Allocated(m, m', r, lo, hi, img) && r != b.u && r != b.k
    ensures Untouched(m, m', b)
  {
    hide Lookup, FreshAt;
  }

  lemma ReleasedApart(m: Mem, m': Mem, r: nat, lo: nat, hi: nat, b: Space)
    requires lo <= hi && Unmapped(m, m', r, lo, hi - lo) && Released(m, m', r, lo, hi) && r != b.u && r != b.k
    ensures Untouched(m, m', b)
  {
    hide Lookup;
  }

  lemma ShadowedApart(m: Mem, m': Mem, u: nat, k: nat, lo: nat, hi: nat, b: Space)
    requires Shadowed(m, m', u, k, lo, hi) && Grew(m, m', k) && IsRoot(m, u) && k != b.u && k != b.k
    ensures Untouched(m, m', b)
  {
    hide Lookup, WithoutU;
  }

  lemma SameApart(m: Mem, m': Mem, r: nat, b: Space)
    requires Grew(m, m', r) && SameLookups(m, m')
    ensures Untouched(m, m', b)
  {
    hide Lookup;
  }

  lemma UntouchedTrans(m: Mem, m1: Mem, m2: Mem, b: Space)
    requires Untouched(m, m1, b) && Untouched(m1, m2, b)
    requires IsRoot(m, b.u) && IsRoot(m, b.k)
    ensures Untouched(m, m2, b)
  {
    hide Lookup;
  }

  // Growing the user table, then the shadow.
  lemma GrownSpace(m: Mem, m1: Mem, m2: Mem, a: Space, newsz: nat, img: Image)
    requires Inv(m) && SpaceOk(m, a) && a.sz <= newsz && Pages(newsz) < USER_TOP_VPN
    requires Allocated(m, m1, a.u, Pages(a.sz), Pages(newsz), img)
    requires Shadowed(m1, m2, a.u, a.k, Pages(a.sz), Pages(newsz)) && Grew(m1, m2, a.k)
    ensures SpaceOk(m2, a.(sz := newsz))
  {
    hide Lookup, WithoutU, Owned, MakePte;
    PagesMonotone(a.sz, newsz);
    var n, n' := Pages(a.sz), Pages(newsz);
    forall v | 0 <= v < VPNS
      ensures Lookup(m2, a.u, v) == Lookup(m1, a.u, v)
      ensures Lookup(m2, a.k, v) == if n <= v < n' then WithoutU(Lookup(m1, a.u, v)) else Lookup(m, a.k, v)
      ensures !(n <= v < n') ==> Lookup(m1, a.u, v) == Lookup(m, a.u, v)
    {
    }
    forall v | n <= v < n' ensures Present(Lookup(m2, a.u, v)) && Owned(m2, a.u, v) {
      assert FreshAt(m, m1, a.u, v, img);
      OwnedGrew(m1, m2, a.k, a.u, v, Ppn(Lookup(m1, a.u, v)));
    }
    forall v: nat | !(n <= v < n') ensures Owned(m2, a.u, v) == Owned(m, a.u, v) {
      OwnedOutside(m, m1, m2, a, n, n', img, v);
    }
  }

  lemma OwnedGrew(m: Mem, m': Mem, k: nat, u: nat, v: nat, p: nat)
    requires Grew(m, m', k) && p < |m.role| && m.role[p] == Data(u, v)
    ensures Owned(m', u, v)
  {
    assert m'.role[p] == Data(u, v);
  }

  lemma OwnedOutside(m: Mem, m1: Mem, m2: Mem, a: Space, n: nat, n': nat, img: Image, v: nat)
    requires Allocated(m, m1, a.u, n, n', img) && Grew(m1, m2, a.k) && !(n <= v < n')
    ensures Owned(m2, a.u, v) == Owned(m, a.u, v)
  {
    hide Lookup, FreshAt;
    if Owned(m, a.u, v) {
      var p :| 0 <= p < |m.role| && m.role[p] == Data(a.u, v);
      assert m2.role[p] == Data(a.u, v);
    }
    if Owned(m2, a.u, v) {
      var p :| 0 <= p < |m2.role| && m2.role[p] == Data(a.u, v);
      assert m.role[p] == Data(a.u, v);
    }
  }

  lemma ShrunkSpace(m: Mem, m': Mem, a: Space, newsz: nat)
    requires SpaceOk(m, a) && newsz <= a.sz
    requires var n := Pages(newsz);
             n <= Pages(a.sz) && Unmapped(m, m', a.u, n, Pages(a.sz) - n)
             && Released(m, m', a.u, n, Pages(a.sz))
    ensures SpaceOk(m', a.(sz := newsz))
  {
    hide Lookup, WithoutU, Owned;
    var n, n' := Pages(newsz), Pages(a.sz);
    forall v | 0 <= v < VPNS
      ensures Lookup(m', a.u, v) == (if n <= v < n' then 0 else Lookup(m, a.u, v))
              && Lookup(m', a.k, v) == Lookup(m, a.k, v)
    {
    }
    forall v: nat | !(n <= v < n') ensures Owned(m', a.u, v) == Owned(m, a.u, v) {
      OwnedBelow(m, m', a.u, n, n', v);
    }
  }

  lemma OwnedBelow(m: Mem, m': Mem, u: nat, n: nat, n': nat, v: nat)
    requires Released(m, m', u, n, n') && !(n <= v < n')
    ensures Owned(m', u, v) == Owned(m, u, v)
  {
    if Owned(m, u, v) {
      var p :| 0 <= p < |m.role| && m.role[p] == Data(u, v);
      assert m'.role[p] == Data(u, v);
    }
  }

  // The kernel half of every kernel table translates as before.
  ghost predicate KernelHalfKept(m: Mem, m': Mem, procs: seq<Space>) {
    && Shape(m) && Shape(m')
    && forall i :: 0 <= i < |procs| ==> HalfKept(m, m', procs[i].k)
  }

  ghost predicate HalfKept(m: Mem, m': Mem, k: nat)
    requires Shape(m) && Shape(m')
  {
    IsRoot(m, k) && IsRoot(m', k) && forall v :: USER_TOP_VPN <= v < VPNS ==> Lookup(m', k, v) == Lookup(m, k, v)
  }

  // All processes but the i-th are untouched.
  ghost predicate OthersUntouched(m: Mem, m': Mem, procs: seq<Space>, i: nat) {
    forall j :: 0 <= j < |procs| && j != i ==> Untouched(m, m', procs[j])
  }

  lemma SystemKept(m: Mem, m': Mem, procs: seq<Space>, i: nat, a: Space)
    requires SystemOk(m, procs) && i < |procs| && a.u == procs[i].u && a.k == procs[i].k
    requires Inv(m') && SpaceOk(m', a) && OthersUntouched(m, m', procs, i) && HalfKept(m, m', a.k)
    ensures SystemOk(m', procs[i := a]) && KernelHalfKept(m, m', procs)
  {
    hide Lookup, SpaceOk, FreeOk, DataOk, TreesOk;
    forall j | 0 <= j < |procs| && j != i ensures SpaceOk(m', procs[j]) && HalfKept(m, m', procs[j].k) {
      SpaceKept(m, m', procs[j]);
      HalfUntouched(m, m', procs[j]);
    }
  }

  lemma HalfUntouched(m: Mem, m': Mem, a: Space)
    requires SpaceOk(m, a) && Untouched(m, m', a)
    ensures HalfKept(m, m', a.k)
  {
    hide Lookup, WithoutU, Owned;
  }

  // Below page number n, the process finds its memory where and as it was.
  ghost predicate MemoryKept(m: Mem, m': Mem, u: nat, n: nat) {
    && Shape(m) && Shape(m') && IsRoot(m, u) && IsRoot(m', u) && n <= VPNS
    && forall v :: 0 <= v < n ==>
         && Lookup(m', u, v) == Lookup(m, u, v)
         && Ppn(Lookup(m, u, v)) < |m.ram| && Ppn(Lookup(m, u, v)) < |m'.ram|
         && m'.ram[Ppn(Lookup(m, u, v))] == m.ram[Ppn(Lookup(m, u, v))]
  }

  lemma GrownKept(m: Mem, m1: Mem, m2: Mem, a: Space, hi: nat, img: Image)
    requires Inv(m) && SpaceOk(m, a) && Allocated(m, m1, a.u, Pages(a.sz), hi, img)
    requires Shadowed(m1, m2, a.u, a.k, Pages(a.sz), hi) && Grew(m1, m2, a.k) && IsRoot(m1, a.u)
    ensures MemoryKept(m, m2, a.u, Pages(a.sz))
  {
    hide Lookup, FreshAt, WithoutU, Agrees, FreeOk, TreesOk;
    forall v | 0 <= v < Pages(a.sz)
      ensures Lookup(m2, a.u, v) == Lookup(m, a.u, v) && Ppn(Lookup(m, a.u, v)) < |m.ram|
      ensures m2.ram[Ppn(Lookup(m, a.u, v))] == m.ram[Ppn(Lookup(m, a.u, v))]
    {
      OwnedPage(m, a.u, v);
    }
  }

  lemma ShrunkKept(m: Mem, m': Mem, a: Space, n: nat)
    requires Inv(m) && SpaceOk(m, a) && n <= Pages(a.sz)
    requires Unmapped(m, m', a.u, n, Pages(a.sz) - n) && Released(m, m', a.u, n, Pages(a.sz))
    ensures MemoryKept(m, m', a.u, n)
  {
    hide Lookup, Agrees, FreeOk, TreesOk;
    forall v | 0 <= v < n
      ensures Lookup(m', a.u, v) == Lookup(m, a.u, v) && Ppn(Lookup(m, a.u, v)) < |m.ram|
      ensures m'.ram[Ppn(Lookup(m, a.u, v))] == m.ram[Ppn(Lookup(m, a.u, v))]
    {
      OwnedPage(m, a.u, v);
    }
  }

  lemma SameKept(m: Mem, m': Mem, procs: seq<Space>, i: nat, r: nat)
    requires SystemOk(m, procs) && i < |procs| && Grew(m, m', r) && SameLookups(m, m')
    ensures OthersUntouched(m, m', procs, i) && MemoryKept(m, m', procs[i].u, Pages(procs[i].sz))
  {
    hide Lookup, Agrees, FreeOk, TreesOk, Grew, SameLookups;
    forall j | 0 <= j < |procs| ensures Untouched(m, m', procs[j]) { SameApart(m, m', r, procs[j]); }
    forall v | 0 <= v < Pages(procs[i].sz) ensures Ppn(Lookup(m, procs[i].u, v)) < |m.ram|
      ensures m'.ram[Ppn(Lookup(m, procs[i].u, v))] == m.ram[Ppn(Lookup(m, procs[i].u, v))]
    {
      OwnedPage(m, procs[i].u, v);
    }
  }

  class System {
    const vm: Memory
    var procs: seq<Space>
    var held: seq<Proc>

    // No process yet.
    constructor (vm: Memory)
      requires Inv(vm.m)
      ensures this.vm == vm && procs == [] && held == [] && Valid()
    {
      this.vm, procs, held := vm, [], [];
    }

    ghost predicate Valid()
      reads this, vm
    {
      SystemOk(vm.m, procs) && |held| == |procs| && HeldOk(vm.m, procs, held)
    }

    // userinit() with the given first page; halt is one of its panics, all for
    // lack of memory.
    method Userinit(slot: nat, stale: nat, etext: nat, trampoline: nat, code: Page) returns (halt: bool)
      requires Valid() && procs == [] && |code| == ENTRIES
      requires slot < NPROC && KERNBASE < etext < PHYSTOP && stale >= |vm.m.ram|
      modifies this, vm
      ensures !halt ==> Valid() && |procs| == 1 && procs[0].sz == PGSIZE
      ensures !halt ==> FirstPage(vm.m, procs[0].u, code) && KernelSees(vm.m, held[0], slot, etext, trampoline)
      ensures !halt && KERNBASE <= old(vm.m).lo ==> Tight(vm.m, procs[0])
      ensures !halt <==> |old(vm.m).free| >= APAGES + 4
      ensures !halt ==>
              |old(vm.m).free| == |vm.m.free| + APAGES + 4 && vm.m.lo == old(vm.m).lo
              && |vm.m.ram| == |old(vm.m).ram|
      ensures !halt ==> Path(0) <= Nodes(vm.m, procs[0].u) && Path(0) <= Nodes(vm.m, procs[0].k)
    {
      hide Lookup, SpaceOk, HeldOk, FreeOk, DataOk, TreesOk, Begun, Undone, Allocated, Grew, Shadowed, KernelSees,
           FirstPage,
           Agrees, PrivateKept, Tight, Nodes, Path, Paths, Tables, Lean, KernelNodes;
      ghost var m0 := vm.m;
      var ok, p, locked;
      ok, halt, p, locked := Allocproc(vm, slot, stale, etext, trampoline);
      if halt { return; }
      ghost var m1 := vm.m;
      AddProc(m0, m1, procs, held, p, slot, etext, trampoline);
      procs, held := procs + [Space(p.u, p.k, 0)], held + [p];
      // uvmfirst(): if mappages() fails there, u2kvmcopy() panics.
      ghost var img := Same(PTE_R + PTE_W + PTE_X + PTE_U, code);
      NothingAbove(m1, procs[0], PGSIZE);
      FirstNeeds(m1, p);
      ok := vm.AllocPage(p.u, 0, PTE_R + PTE_W + PTE_X + PTE_U, code, img);
      if !ok {
        return true;
      }
      ghost var m2 := vm.m;
      GrownTables(m1, m2, procs[0], PGSIZE, img);
      DifferentTables(m1, procs[0]);
      NodesAllocated(m1, m2, p.u, 0, 1, img, p.k);
      OneTable(m2, p.k, 0);
      halt := U2kvmcopyAll(p.u, p.k, PGSIZE);
      if halt { return; }
      NodesGrew(m2, vm.m, p.k, p.u);
      SameRam(m0, m1, m2, vm.m, p, img);
      GrownSystem(m1, m2, vm.m, procs, 0, PGSIZE, img);
      GrownHeld(m1, m2, vm.m, procs, held, 0, img, PGSIZE);
      FirstProcess(m0, m1, m2, vm.m, p, slot, etext, trampoline, img);
      TightGrown(m1, m2, vm.m, procs[0], PGSIZE, img);
      procs := procs[0 := procs[0].(sz := PGSIZE)];
    }

    // growproc(n) by process i. halt is the panic of u2kvmcopy().
    method Growproc(i: nat, n: int) returns (r: int, halt: bool)
      requires Valid() && i < |procs| && -0x8000_0000 <= n < 0x8000_0000
      modifies this, vm
      ensures !halt ==> Valid() && KernelHalfKept(old(vm.m), vm.m, old(procs)) && (r == 0 || r == -1)
      ensures !halt ==> |procs| == |old(procs)| && held == old(held)
      ensures !halt ==> OthersUntouched(old(vm.m), vm.m, old(procs), i) && PrivateKept(old(vm.m), vm.m)
      ensures !halt ==> MemoryKept(old(vm.m), vm.m, old(procs)[i].u, Least(Pages(old(procs)[i].sz), Pages(procs[i].sz)))
      ensures !halt && Tight(old(vm.m), old(procs)[i]) ==>
                (Tight(vm.m, procs[i]) <==> Pages(procs[i].sz) >= Pages(old(procs)[i].sz))
      ensures !halt && r == -1 ==> procs == old(procs) && SameLookups(old(vm.m), vm.m)
      ensures !halt && r == 0 ==>
        procs == old(procs)[i := old(procs)[i].(sz := if old(procs)[i].sz + n < 0 then old(procs)[i].sz
                                                else old(procs)[i].sz + n)]
      ensures n <= 0 ==> !halt && r == 0
      ensures n > 0 && Pages(old(procs)[i].sz + n) * PGSIZE >= USER_TOP ==> !halt && r == -1
      ensures n > 0 && Pages(old(procs)[i].sz + n) * PGSIZE < USER_TOP ==>
                GrowsExactly(old(vm.m), vm.m, old(procs)[i], old(procs)[i].sz + n, r, halt)
    {
      hide Lookup, SpaceOk, Allocated, Shadowed, Grew, SameLookups, Released, Unmapped, Untouched, HalfKept, FreeOk,
           DataOk, TreesOk,
           KernelHalfKept, MemoryKept, OthersUntouched, HeldOk, PrivateKept, Tight, GrowsExactly, Nodes, Path, Paths,
           Tables, Lean, KernelNodes;
      ghost var m0 := vm.m;
      var a := procs[i];
      if n > 0 {
        if Pages(a.sz + n) * PGSIZE >= USER_TOP {
          Unchanged(m0, procs, i);
          return -1, false;
        }
        r, halt := Grow(i, n);
      } else if n < 0 {
        r := Shrink(i, n);
        halt := false;
      } else {
        Unchanged(m0, procs, i);
        assert procs[i := a] == procs;
        return 0, false;
      }
    }

    method Grow(i: nat, n: nat) returns (r: int, halt: bool)
      requires Valid() && i < |procs| && n > 0 && Pages(procs[i].sz + n) * PGSIZE < USER_TOP
      modifies this, vm
      ensures !halt ==> Valid() && KernelHalfKept(old(vm.m), vm.m, old(procs)) && (r == 0 || r == -1)
      ensures !halt ==> |procs| == |old(procs)| && held == old(held)
      ensures !halt ==> OthersUntouched(old(vm.m), vm.m, old(procs), i) && PrivateKept(old(vm.m), vm.m)
      ensures !halt ==> MemoryKept(old(vm.m), vm.m, old(procs)[i].u, Least(Pages(old(procs)[i].sz), Pages(procs[i].sz)))
      ensures !halt && Tight(old(vm.m), old(procs)[i]) ==>
                (Tight(vm.m, procs[i]) <==> Pages(procs[i].sz) >= Pages(old(procs)[i].sz))
      ensures !halt && r == -1 ==> procs == old(procs) && SameLookups(old(vm.m), vm.m)
      ensures !halt && r == 0 ==> procs == old(procs)[i := old(procs)[i].(sz := old(procs)[i].sz + n)]
      ensures GrowsExactly(old(vm.m), vm.m, old(procs)[i], old(procs)[i].sz + n, r, halt)
    {
      hide Lookup, Allocated, Shadowed, Grew, SameLookups, Released, Unmapped, Untouched, HalfKept, FreeOk, DataOk,
           TreesOk, KernelHalfKept,
           UserTable, Agrees, OwnsNothing, MemoryKept, OthersUntouched, HeldOk, PrivateKept, Tight, Nodes, Path,
           Paths, Tables, Lean, KernelNodes;
      ghost var m0 := vm.m;
      var a := procs[i];
      var newsz := a.sz + n;
      PagesMonotone(a.sz, newsz);
      NothingAbove(m0, a, newsz);
      var sz;
      ghost var ok;
      sz, ok := vm.Uvmalloc(a.u, a.sz, newsz, PTE_W);
      ghost var img := Zeroed(PTE_R + PTE_U + PTE_W);
      ghost var m1 := vm.m;
      if sz == 0 {
        FailedGrow(m0, m1, procs, i);
        SameKept(m0, m1, procs, i, a.u);
        PrivateGrew(m0, m1, a.u);
        HeldKept(m0, m1, procs, held);
        SameSizes(m0, m1, a.u);
        TightSame(m0, m1, a);
        return -1, false;
      }
      GrownTables(m0, m1, a, newsz, img);
      DifferentTables(m0, a);
      NodesAllocated(m0, m1, a.u, Pages(a.sz), Pages(newsz), img, a.k);
      TablesKept(m0, m1, a.k, Pages(a.sz), Pages(newsz) - Pages(a.sz));
      var done := U2kvmcopy(vm, a.u, a.k, a.sz, sz);
      if !done {
        return 0, true;
      }
      GrownSystem(m0, m1, vm.m, procs, i, newsz, img);
      GrownKept(m0, m1, vm.m, a, Pages(newsz), img);
      GrownHeld(m0, m1, vm.m, procs, held, i, img, newsz);
      TightGrown(m0, m1, vm.m, a, newsz, img);
      procs := procs[i := a.(sz := sz)];
      return 0, false;
    }

    method Shrink(i: nat, n: int) returns (r: int)
      requires Valid() && i < |procs| && -0x8000_0000 <= n < 0
      modifies this, vm
      ensures Valid() && KernelHalfKept(old(vm.m), vm.m, old(procs)) && r == 0 && |procs| == |old(procs)|
              && held == old(held)
      ensures OthersUntouched(old(vm.m), vm.m, old(procs), i) && PrivateKept(old(vm.m), vm.m)
      ensures MemoryKept(old(vm.m), vm.m, old(procs)[i].u, Least(Pages(old(procs)[i].sz), Pages(procs[i].sz)))
      ensures Tight(old(vm.m), old(procs)[i]) ==>
              (Tight(vm.m, procs[i]) <==> Pages(procs[i].sz) >= Pages(old(procs)[i].sz))
      ensures procs == old(procs)[i := old(procs)[i].(sz := if old(procs)[i].sz + n < 0 then old(procs)[i].sz
                                                      else old(procs)[i].sz + n)]
    {
      hide Lookup, Released, Unmapped, Untouched, HalfKept, FreeOk, DataOk, TreesOk, KernelHalfKept, UserTable, Agrees,
           OwnsNothing, MemoryKept, OthersUntouched, HeldOk, PrivateKept, Tight, Dangles, Nodes, Path, Paths, Tables,
           Lean, KernelNodes;
      ghost var m0 := vm.m;
      var a := procs[i];
      SmallSize(m0, a);
      var newsz := if a.sz + n < 0 then a.sz + n + UINT64 else a.sz + n;
      OwnedRange(m0, a, newsz);
      var sz := vm.Uvmdealloc(a.u, a.sz, newsz);
      if newsz < a.sz {
        PagesMonotone(newsz, a.sz);
        ShrunkSystem(m0, vm.m, procs, i, newsz);
        ShrunkKept(m0, vm.m, a, Pages(newsz));
        PrivateReleased(m0, vm.m, a.u, Pages(newsz), Pages(a.sz));
        TightShrunk(m0, vm.m, a, newsz);
        HeldKept(m0, vm.m, procs, held);
      } else {
        Unchanged(m0, procs, i);
        assert procs[i := a] == procs;
      }
      HeldSized(vm.m, procs, held, i, a.(sz := sz));
      procs := procs[i := a.(sz := sz)];
      return 0;
    }

    // The memory part of fork() by process i, with a free slot of the process
    // table as for allocproc(). ok is false when memory runs out; halt is a
    // panic of allocproc() or u2kvmcopy().
    method Fork(i: nat, slot: nat, stale: nat, etext: nat, trampoline: nat) returns (ok: bool, halt: bool)
      requires Valid() && i < |procs|
      requires slot < NPROC && KERNBASE < etext < PHYSTOP && (stale == 0 || stale >= |vm.m.ram|)
      modifies this, vm
      ensures !halt ==> Valid() && PrivateKept(old(vm.m), vm.m)
      ensures !halt ==> forall j :: 0 <= j < |old(procs)| ==> Untouched(old(vm.m), vm.m, old(procs)[j])
      ensures !halt && ok ==>
        && |procs| == |old(procs)| + 1 && procs[..|old(procs)|] == old(procs) && held[..|old(procs)|] == old(held)
        && procs[|old(procs)|].sz == old(procs)[i].sz
        && IsCopy(old(vm.m), old(procs)[i].u, vm.m, procs[|old(procs)|].u, Pages(old(procs)[i].sz))
        && KernelSees(vm.m, held[|old(procs)|], slot, etext, trampoline)
        && (KERNBASE <= old(vm.m).lo ==> Tight(vm.m, procs[|old(procs)|]))
      ensures !halt && !ok ==> procs == old(procs) && held == old(held) && Undone(old(vm.m), vm.m)
      ensures ForksExactly(old(vm.m), vm.m, Pages(old(procs)[i].sz), stale, ok, halt)
    {
      hide Lookup, Allocated, Shadowed, Grew, SameLookups, Untouched, HalfKept, FreeOk, DataOk, TreesOk, KernelHalfKept,
           UserTable, Agrees, OwnsNothing, OthersUntouched, Owned, IsCopy, SpaceOk, HeldOk, PrivateKept, Begun,
           Undone, KernelSees, Tight, Nodes, Path, Paths, Tables, Lean, KernelNodes;
      ghost var m0, procs0, held0 := vm.m, procs, held;
      var p, locked;
      ok, halt, p, locked := Allocproc(vm, slot, stale, etext, trampoline);
      if halt { return; }
      ghost var m1 := vm.m;
      if !ok {
        BackAgain(m0, m1, procs, held);
        return;
      }
      AddProc(m0, m1, procs, held, p, slot, etext, trampoline);
      var a, c := procs[i], |procs|;
      procs, held := procs + [Space(p.u, p.k, 0)], held + [p];
      ForkSource(m1, procs, i, c);
      LeanTables(m1, p, Pages(a.sz));
      ok := Uvmcopy(vm, a.u, p.u, a.sz);
      ghost var m2 := vm.m;
      if !ok {
        ChildFreeable(m0, m1, m2, p, slot, etext, trampoline);
        halt := Freeproc(vm, p, 0);
        TakenAndGone(m0, m2, vm.m, p.Roots(), p.Pages());
        BackAgain(m0, vm.m, procs0, held0);
        procs, held := procs[..c], held[..c];
        assert procs == procs0 && held == held0;
        return;
      }
      ghost var img := CopyOf(m1, a.u);
      GrownTables(m1, m2, procs[c], a.sz, img);
      DifferentTables(m1, procs[c]);
      NodesAllocated(m1, m2, p.u, 0, Pages(a.sz), img, p.k);
      TablesKept(m1, m2, p.k, 0, Pages(a.sz));
      halt := U2kvmcopyAll(p.u, p.k, a.sz);
      if halt { return; }
      GrownSystem(m1, m2, vm.m, procs, c, a.sz, img);
      GrownHeld(m1, m2, vm.m, procs, held, c, img, a.sz);
      TightGrown(m1, m2, vm.m, procs[c], a.sz, img);
      ChildDone(m0, m1, m2, vm.m, procs0, held0, i, p, a.sz, slot, etext, trampoline);
      procs := procs[c := Space(p.u, p.k, a.sz)];
    }

    // u2kvmcopy(u2, k2, 0, sz)
    method U2kvmcopyAll(u: nat, k: nat, sz: nat) returns (halt: bool)
      requires Inv(vm.m) && IsRoot(vm.m, u) && IsRoot(vm.m, k) && u != k && OwnsNothing(vm.m, k) && Pages(sz) <= MAXVPN
      requires forall v :: Pages(0) <= v < Pages(sz) ==> Present(Lookup(vm.m, u, v))
      modifies vm
      ensures Inv(vm.m)
      ensures !halt ==> Shadowed(old(vm.m), vm.m, u, k, Pages(0), Pages(sz)) && Grew(old(vm.m), vm.m, k)
      ensures halt <==> |old(vm.m).free| < Tables(old(vm.m), k, 0, Pages(sz))
      ensures !halt ==> |old(vm.m).free| == |vm.m.free| + Tables(old(vm.m), k, 0, Pages(sz))
      ensures !halt ==> Nodes(vm.m, k) == Nodes(old(vm.m), k) + Paths(0, Pages(sz))
    {
      hide Lookup, FreeOk, DataOk, TreesOk, Shadowed, Grew, OwnsNothing, Nodes, Paths, Tables;
      assert Pages(0) == 0;
      var ok := U2kvmcopy(vm, u, k, 0, sz);
      halt := !ok;
    }

    // freeproc() of process i, as wait() calls it: all its pages return.
    method Free(i: nat)
      requires Valid() && i < |procs|
      modifies this, vm
      ensures Valid() && procs == old(procs)[..i] + old(procs)[i + 1..] && held == old(held)[..i] + old(held)[i + 1..]
      ensures Gone(old(vm.m), vm.m, old(held)[i].Roots(), old(held)[i].Pages())
      ensures OthersUntouched(old(vm.m), vm.m, old(procs), i)
    {
      hide Lookup, Untouched, FreeOk, DataOk, TreesOk, SpaceOk, HeldOk, Gone, OthersUntouched, Nodes, Path, Paths,
           Tables, Lean, KernelNodes;
      ghost var m0 := vm.m;
      ProcFreeable(m0, procs, held, i);
      var _ := Freeproc(vm, held[i], procs[i].sz);
      ProcGone(m0, vm.m, procs, held, i);
      procs, held := procs[..i] + procs[i + 1..], held[..i] + held[i + 1..];
    }

    // exec() of process i from the size check on, for a new image in table u'
    // of sz' bytes. fits says whether the arguments go onto the new stack. late
    // says that the shadow was rewritten.
    method Exec(i: nat, u': nat, sz': nat, fits: bool) returns (ok: bool, late: bool, halt: bool)
      requires Valid() && i < |procs| && 0 < sz'
      requires forall j :: 0 <= j < |procs| ==> procs[j].u != u' && procs[j].k != u'
      requires UserTable(vm.m, u', Pages(sz'), {TRAMPOLINE, TRAPFRAME})
      modifies this, vm
      ensures !halt ==> (late <==> Pages(sz') * PGSIZE < USER_TOP) && (ok <==> late && fits)
      ensures !halt ==> Inv(vm.m) && OthersUntouched(old(vm.m), vm.m, old(procs), i) && PrivateKept(old(vm.m), vm.m)
      ensures !halt && ok ==>
              Valid() && procs == old(procs)[i := Space(u', old(procs)[i].k, sz')]
                && held == old(held)[i := old(held)[i].(u := u')]
      ensures !halt && ok ==> KernelHalfKept(old(vm.m), vm.m, old(procs)) && MemoryKept(old(vm.m), vm.m, u', Pages(sz'))
      ensures !halt && !ok ==>
              procs == old(procs) && held == old(held) && MemoryKept(old(vm.m), vm.m, procs[i].u, Pages(procs[i].sz))
      ensures !halt && !ok ==> (Valid() <==> Pages(sz') * PGSIZE >= USER_TOP || Pages(procs[i].sz) == 0)
      ensures !halt && !ok ==> (Agrees(vm.m, procs[i].u, procs[i].k, Pages(procs[i].sz)) <==> Valid())
      ensures !halt ==> TableFree(old(vm.m), vm.m, if ok then old(procs)[i].u else u')
      ensures !halt && ok && Tight(old(vm.m), old(procs)[i]) ==>
              (Tight(vm.m, procs[i]) <==> Pages(sz') >= Pages(old(procs)[i].sz))
      ensures halt <==>
              Pages(sz') * PGSIZE < USER_TOP
              && |old(vm.m).free| < Tables(old(vm.m), old(procs)[i].k, 0, Pages(sz'))
    {
      hide Lookup, Shadowed, Grew, SameLookups, Untouched, FreeOk, DataOk, TreesOk, Agrees, OwnsNothing, Owned,
           Unmapped, Released,
           MemoryReturned, UserTable, NoLeaves, Mapped, KernelHalfKept, SpaceOk, HeldOk, PrivateKept, MemoryKept,
           TableFree, Tight, Nodes, Path, Paths, Tables, Lean, KernelNodes;
      ghost var m0, held0 := vm.m, held;
      var a := procs[i];
      if Pages(sz') * PGSIZE >= USER_TOP {
        ProcFreepagetable(vm, u', sz');
        EarlyFailure(m0, vm.m, procs, held, i, u');
        return false, false, false;
      }
      ImageReadable(m0, a, u', sz');
      halt := U2kvmcopyAll(u', a.k, sz');
      if halt {
        return false, true, true;
      }
      ghost var m1 := vm.m;
      ShadowMoved(m0, m1, a, u', Pages(sz'));
      var usyscall := held[i].usyscall;
      var mapped;
      ghost var n;
      mapped, n := vm.Mappages(u', USYSCALL, 1, usyscall, PTE_R + PTE_U);
      assert mapped;  // beside the trampoline, in a table that is there
      ghost var m2 := vm.m;
      ImageSpace(m0, m1, m2, a, u', sz', usyscall);
      if !fits {
        SpaceUsyscall(m2, Space(u', a.k, sz'));
        vm.Uvmunmap(u', USYSCALL, 1, false);
        ghost var m3 := vm.m;
        MapUndone(m1, m2, m3, u', usyscall);
        MapFailed(m1, m3, u', Pages(sz'), usyscall);
        ProcFreepagetable(vm, u', sz');
        LateFailure(m0, m1, m3, vm.m, procs, i, u', sz', usyscall);
        LateKept(m0, m1, m3, vm.m, procs, held, i, u', sz', usyscall);
        return false, true, false;
      }
      procs, held := procs[i := Space(u', a.k, sz')], held[i := held[i].(u := u')];
      OldImage(m0, m1, m2, old(procs), i, u', Pages(sz'), usyscall);
      vm.Uvmunmap(a.u, USYSCALL, 1, false);
      ghost var m3 := vm.m;
      OneLess(m2, m3, a.u, Pages(a.sz), FIXED, USYSCALL);
      assert FIXED - {USYSCALL} == {TRAMPOLINE, TRAPFRAME};
      ProcFreepagetable(vm, a.u, a.sz);
      ReturnedLess(m2, m3, vm.m, a.u, USYSCALL);
      ExecDone(m0, m2, vm.m, old(procs), i, u', sz');
      ExecKept(m0, m1, m2, vm.m, old(procs), held0, i, u', sz', usyscall);
      TightExec(m0, m1, m2, vm.m, a, u', sz', usyscall);
      return true, true, false;
    }

    // The new table that exec() starts with, and uvmalloc() of sz' bytes in it.
    method LoadImage(i: nat, trampoline: nat, sz': nat) returns (ok: bool, u': nat)
      requires Valid() && i < |procs| && 0 < sz' && Pages(sz') < USER_TOP_VPN
      modifies vm
      ensures Valid()
      ensures ok ==> UserTable(vm.m, u', Pages(sz'), {TRAMPOLINE, TRAPFRAME})
      ensures ok ==> forall j :: 0 <= j < |procs| ==> procs[j].u != u' && procs[j].k != u'
      ensures ok ==> forall j :: 0 <= j < |procs| ==> Untouched(old(vm.m), vm.m, procs[j])
      ensures ok <==> |old(vm.m).free| >= 3 + Pages(sz') + |Paths(0, Pages(sz')) - Path(TRAMPOLINE)|
    {
      hide Lookup, FreeOk, DataOk, TreesOk, SpaceOk, HeldOk, NewUserTable, Undone, UserTable, Allocated, SameLookups,
           Grew, Extended,
           PrivateKept, Untouched, Maps, OwnsNothing, MemoryReturned, Nodes, Path, Paths, Tables, Lean, KernelNodes;
      ghost var m0 := vm.m;
      ok, u' := ProcPagetable(vm, trampoline, held[i].trapframe);
      ghost var m1 := vm.m;
      if !ok {
        BackAgain(m0, m1, procs, held);
        return;
      }
      ExtendedRefl(m0);
      ExtendedUser(m0, m0, m1, {}, {}, u', trampoline, held[i].trapframe);
      EmptyImage(m0, m1, procs, held, u', trampoline, held[i].trapframe);
      assert Pages(0) == 0;
      TablesAre(m1, u', 0, Pages(sz'));
      var sz;
      ghost var done;
      sz, done := vm.Uvmalloc(u', 0, sz', PTE_W);
      ghost var m2 := vm.m;
      if sz == 0 {
        GrewBeside(m1, m2, procs, held, u');
        ghost var t := UserMap(trampoline, held[i].trapframe);
        StillEmpty(m1, m2, u', t);
        ProcFreepagetable(vm, u', 0);
        EarlyFailure(m2, vm.m, procs, held, i, u');
        return false, u';
      }
      ImageLoaded(m0, m1, m2, procs, held, u', sz');
    }

    // copyin_new(): copy len bytes at srcva of process i through its kernel
    // table, byte by byte as memmove() does.
    method CopyinNew(i: nat, srcva: nat, len: nat) returns (r: int, dst: seq<nat>)
      requires Valid() && i < |procs| && srcva < UINT64 && len < UINT64
      ensures r == -1 <==> srcva >= procs[i].sz || srcva + len > procs[i].sz
      ensures r == -1 || r == 0
      ensures r == 0 ==> Readable(vm.m, procs[i].u, srcva, len) && dst == BytesAt(vm.m, procs[i].u, srcva, len)
    {
      hide Lookup, FreeOk, DataOk, TreesOk, SpaceOk, Reaches, ByteAt, Nodes, Path, Paths, Tables, Lean, KernelNodes;
      var a := procs[i];
      SmallSize(vm.m, a);
      if srcva >= a.sz || (srcva + len) % UINT64 > a.sz || (srcva + len) % UINT64 < srcva {
        return -1, [];
      }
      ShadowReads(vm.m, a, srcva, len);
      RootsOf(vm.m, a);
      dst := [];
      for n := 0 to len
        invariant Readable(vm.m, a.k, srcva, n) && dst == BytesAt(vm.m, a.k, srcva, n)
      {
        ShadowReads(vm.m, a, srcva, n + 1);
        assert Reaches(vm.m, a.k, srcva + n);
        dst := dst + [ByteAt(vm.m, a.k, srcva + n)];
      }
      return 0, dst;
    }
  }

  // ---- reading user memory ----

  function Pow256(n: nat): (r: nat)
    ensures 0 < r
  {
    if n == 0 then 1 else 256 * Pow256(n - 1)
  }

  // Byte o of a page of little-endian 64-bit words.
  function Byte(page: Page, o: nat): nat
    requires |page| == ENTRIES && o < PGSIZE
  {
    page[o / 8] / Pow256(o % 8) % 256
  }

  // Address x is mapped to memory by tree r.
  predicate Reaches(m: Mem, r: nat, x: nat)
    requires Shape(m) && r < |m.ram|
  {
    Present(Lookup(m, r, x / PGSIZE)) && Ppn(Lookup(m, r, x / PGSIZE)) < |m.ram|
  }

  // The byte that tree r finds at address x.
  function ByteAt(m: Mem, r: nat, x: nat): nat
    requires Shape(m) && r < |m.ram| && Reaches(m, r, x)
  {
    Byte(m.ram[Ppn(Lookup(m, r, x / PGSIZE))], x % PGSIZE)
  }

  // Every byte of the range is mapped to memory by tree r.
  predicate Readable(m: Mem, r: nat, va: nat, len: nat) {
    && Shape(m) && r < |m.ram|
    && forall x :: va <= x < va + len ==> Reaches(m, r, x)
  }

  // The bytes of the range as tree r translates it.
  function BytesAt(m: Mem, r: nat, va: nat, len: nat): (s: seq<nat>)
    requires Readable(m, r, va, len)
    ensures |s| == len && forall j :: 0 <= j < len ==> s[j] == ByteAt(m, r, va + j)
  {
    if len == 0 then [] else BytesAt(m, r, va, len - 1) + [ByteAt(m, r, va + len - 1)]
  }

  // The two tables of a process give the same bytes below its size.
  lemma {:induction false} ShadowReads(m: Mem, a: Space, va: nat, len: nat)
    requires Inv(m) && SpaceOk(m, a) && va + len <= a.sz
    ensures Readable(m, a.u, va, len) && Readable(m, a.k, va, len)
    ensures BytesAt(m, a.k, va, len) == BytesAt(m, a.u, va, len)
  {
    hide Lookup, FreeOk, DataOk, TreesOk, SpaceOk, ByteAt, Reaches;
    RootsOf(m, a);
    forall x | va <= x < va + len
      ensures Reaches(m, a.u, x) && Reaches(m, a.k, x) && ByteAt(m, a.k, x) == ByteAt(m, a.u, x)
    {
      SamePage(m, a, x);
    }
  }

  lemma SamePage(m: Mem, a: Space, x: nat)
    requires Inv(m) && SpaceOk(m, a) && x < a.sz
    ensures Reaches(m, a.u, x) && Reaches(m, a.k, x) && ByteAt(m, a.k, x) == ByteAt(m, a.u, x)
  {
    hide Lookup, FreeOk, DataOk, TreesOk, WithoutU, Owned, Byte, Ppn;
    var v := x / PGSIZE;
    assert v < Pages(a.sz);
    OwnedPage(m, a.u, v);
    WithoutUKeeps(Lookup(m, a.u, v));
  }

  // The copy that the direct one replaced: page by page, looking every page up
  // in the user table and insisting on PTE_V and PTE_U.
  predicate OpenToUser(m: Mem, r: nat, x: nat)
    requires Shape(m) && r < |m.ram|
  {
    Reaches(m, r, x) && Lookup(m, r, x / PGSIZE) / 16 % 2 == 1
  }

  function PageBytes(page: Page, o: nat, n: nat): (s: seq<nat>)
    requires |page| == ENTRIES && o + n <= PGSIZE
    ensures |s| == n && forall j :: 0 <= j < n ==> s[j] == Byte(page, o + j)
  {
    if n == 0 then [] else PageBytes(page, o, n - 1) + [Byte(page, o + n - 1)]
  }

  function WalkCopy(m: Mem, r: nat, va: nat, len: nat): Option<seq<nat>>
    requires Shape(m) && r < |m.ram|
    decreases len
  {
    if len == 0 then Some([])
    else if !OpenToUser(m, r, va) then None
    else
      var n := Least(PGSIZE - va % PGSIZE, len);
      var rest := WalkCopy(m, r, va + n, len - n);
      if rest.None? then None
      else Some(PageBytes(m.ram[Ppn(Lookup(m, r, va / PGSIZE))], va % PGSIZE, n) + rest.value)
  }

  // On any range of mapped pages, the walk gives those bytes exactly when every
  // page in it is open to the user.
  lemma {:induction false} WalkCopyIs(m: Mem, r: nat, va: nat, len: nat)
    requires Readable(m, r, va, len)
    ensures WalkCopy(m, r, va, len).Some? <==> forall x :: va <= x < va + len ==> OpenToUser(m, r, x)
    ensures WalkCopy(m, r, va, len).Some? ==> WalkCopy(m, r, va, len).value == BytesAt(m, r, va, len)
    decreases len
  {
    hide Lookup, Byte, Reaches, ByteAt, OpenToUser, PageBytes;
    if len > 0 {
      var n := Least(PGSIZE - va % PGSIZE, len);
      WalkCopyIs(m, r, va + n, len - n);
      forall x | va <= x < va + n ensures OpenToUser(m, r, x) == OpenToUser(m, r, va) { SamePageOpen(m, r, va, x); }
      if OpenToUser(m, r, va) {
        Joined(m, r, va, len, n);
      }
    }
  }

  // So reading through the shadow gives what walking the user table gives, on
  // exactly the ranges that the walk accepts.
  lemma {:induction false} DirectCopyIsWalk(m: Mem, a: Space, va: nat, len: nat)
    requires Inv(m) && SpaceOk(m, a) && va + len <= a.sz
    ensures IsRoot(m, a.u) && Readable(m, a.k, va, len)
    ensures WalkCopy(m, a.u, va, len) == Some(BytesAt(m, a.k, va, len))
       <==> forall x :: va <= x < va + len ==> OpenToUser(m, a.u, x)
  {
    hide Lookup, FreeOk, DataOk, TreesOk, SpaceOk, ByteAt, Reaches, OpenToUser, WalkCopy, BytesAt;
    RootsOf(m, a);
    ShadowReads(m, a, va, len);
    WalkCopyIs(m, a.u, va, len);
  }

  lemma SamePageOpen(m: Mem, r: nat, va: nat, x: nat)
    requires Shape(m) && r < |m.ram| && va <= x < va + (PGSIZE - va % PGSIZE)
    ensures OpenToUser(m, r, x) == OpenToUser(m, r, va) && x / PGSIZE == va / PGSIZE
            && x % PGSIZE == va % PGSIZE + (x - va)
  {
    hide Lookup;
    assert x / PGSIZE == va / PGSIZE;
  }

  lemma Joined(m: Mem, r: nat, va: nat, len: nat, n: nat)
    requires 0 < n <= len && va % PGSIZE + n <= PGSIZE && Shape(m) && r < |m.ram| && OpenToUser(m, r, va)
    requires Readable(m, r, va, len) && Readable(m, r, va + n, len - n)
    ensures PageBytes(m.ram[Ppn(Lookup(m, r, va / PGSIZE))], va % PGSIZE, n) + BytesAt(m, r, va + n, len - n) ==
            BytesAt(m, r, va, len)
  {
    hide Lookup, Byte;
    var s := PageBytes(m.ram[Ppn(Lookup(m, r, va / PGSIZE))], va % PGSIZE, n) + BytesAt(m, r, va + n, len - n);
    forall j | 0 <= j < len ensures s[j] == BytesAt(m, r, va, len)[j] {
      if j < n {
        SamePageOpen(m, r, va, va + j);
      } else {
        assert va + n + (j - n) == va + j;
      }
    }
  }

  lemma Unchanged(m: Mem, procs: seq<Space>, i: nat)
    requires SystemOk(m, procs) && i < |procs|
    ensures KernelHalfKept(m, m, procs) && SameLookups(m, m) && OthersUntouched(m, m, procs, i) && PrivateKept(m, m)
    ensures MemoryKept(m, m, procs[i].u, Pages(procs[i].sz))
  {
    hide Lookup, FreeOk, DataOk, TreesOk, UserTable, Agrees;
    SameLookupsRefl(m);
    GrewRefl(m, 0);
    SameKept(m, m, procs, i, 0);
  }

  lemma SmallSize(m: Mem, a: Space)
    requires SpaceOk(m, a)
    ensures a.sz < USER_TOP
  {
    hide UserTable, Agrees;
  }

  lemma NothingAbove(m: Mem, a: Space, newsz: nat)
    requires SpaceOk(m, a) && Pages(newsz) * PGSIZE < USER_TOP
    ensures IsRoot(m, a.u) && Pages(newsz) < USER_TOP_VPN
    ensures forall v :: Pages(a.sz) <= v < Pages(newsz) ==> !Present(Lookup(m, a.u, v))
  {
    hide Lookup, Agrees;
  }

  lemma OwnedRange(m: Mem, a: Space, newsz: nat)
    requires SpaceOk(m, a)
    ensures IsRoot(m, a.u) && Pages(a.sz) <= MAXVPN
    ensures forall v :: Pages(newsz) <= v < Pages(a.sz) ==> Owned(m, a.u, v)
  {
    hide Lookup, Agrees;
  }

  lemma FailedGrow(m: Mem, m': Mem, procs: seq<Space>, i: nat)
    requires SystemOk(m, procs) && i < |procs| && Inv(m') && Grew(m, m', procs[i].u) && SameLookups(m, m')
    ensures SystemOk(m', procs) && KernelHalfKept(m, m', procs)
  {
    hide Lookup, SpaceOk, FreeOk, DataOk, TreesOk, Grew, SameLookups, Untouched, HalfKept;
    forall j | 0 <= j < |procs| ensures SpaceOk(m', procs[j]) && HalfKept(m, m', procs[j].k) {
      SameApart(m, m', procs[i].u, procs[j]);
      SpaceKept(m, m', procs[j]);
      HalfUntouched(m, m', procs[j]);
    }
  }

  // After the user table grew, the shadow copy can read it.
  lemma GrownTables(m: Mem, m1: Mem, a: Space, newsz: nat, img: Image)
    requires Inv(m1) && SpaceOk(m, a) && a.sz <= newsz && Pages(newsz) < USER_TOP_VPN
    requires Allocated(m, m1, a.u, Pages(a.sz), Pages(newsz), img)
    ensures IsRoot(m1, a.u) && IsRoot(m1, a.k) && OwnsNothing(m1, a.k)
    ensures forall v :: Pages(a.sz) <= v < Pages(newsz) ==> Present(Lookup(m1, a.u, v))
  {
    hide Lookup, Agrees, Owned, FreeOk, DataOk, TreesOk;
    forall v | Pages(a.sz) <= v < Pages(newsz) ensures Present(Lookup(m1, a.u, v)) {
      assert FreshAt(m, m1, a.u, v, img);
    }
  }

  lemma GrownSystem(m: Mem, m1: Mem, m2: Mem, procs: seq<Space>, i: nat, newsz: nat, img: Image)
    requires SystemOk(m, procs) && i < |procs| && Inv(m1) && Inv(m2)
    requires var a := procs[i];
      && a.sz <= newsz && Pages(newsz) < USER_TOP_VPN
      && Allocated(m, m1, a.u, Pages(a.sz), Pages(newsz), img)
      && Shadowed(m1, m2, a.u, a.k, Pages(a.sz), Pages(newsz)) && Grew(m1, m2, a.k) && IsRoot(m1, a.u)
    ensures SystemOk(m2, procs[i := procs[i].(sz := newsz)]) && KernelHalfKept(m, m2, procs)
            && OthersUntouched(m, m2, procs, i)
  {
    hide Lookup, FreeOk, DataOk, TreesOk, Grew, Untouched, Allocated, Shadowed, UserTable, Agrees, OwnsNothing,
         HalfKept;
    var a := procs[i];
    GrownSpace(m, m1, m2, a, newsz, img);
    forall j | 0 <= j < |procs| && j != i ensures Untouched(m, m2, procs[j]) {
      PairApart(procs, i, j);
      AllocatedApart(m, m1, a.u, Pages(a.sz), Pages(newsz), img, procs[j]);
      ShadowedApart(m1, m2, a.u, a.k, Pages(a.sz), Pages(newsz), procs[j]);
      RootsOf(m, procs[j]);
      UntouchedTrans(m, m1, m2, procs[j]);
    }
    HalfGrown(m, m1, m2, a, newsz, img);
    SystemKept(m, m2, procs, i, a.(sz := newsz));
  }

  lemma PairApart(procs: seq<Space>, i: nat, j: nat)
    requires forall i, j :: 0 <= i < j < |procs| ==> Apart(procs[i], procs[j])
    requires i < |procs| && j < |procs| && i != j
    ensures Apart(procs[i], procs[j])
  {
    if i < j { assert Apart(procs[i], procs[j]); } else { assert Apart(procs[j], procs[i]); }
  }

  lemma RootsOf(m: Mem, a: Space)
    requires SpaceOk(m, a)
    ensures IsRoot(m, a.u) && IsRoot(m, a.k) && OwnsNothing(m, a.k)
  {
  }

  lemma HalfGrown(m: Mem, m1: Mem, m2: Mem, a: Space, newsz: nat, img: Image)
    requires SpaceOk(m, a) && Pages(newsz) < USER_TOP_VPN && IsRoot(m1, a.u)
    requires Allocated(m, m1, a.u, Pages(a.sz), Pages(newsz), img)
    requires Shadowed(m1, m2, a.u, a.k, Pages(a.sz), Pages(newsz))
    ensures HalfKept(m, m2, a.k)
  {
    hide Lookup, UserTable, Agrees, OwnsNothing, FreshAt, WithoutU;
  }

  lemma ShrunkSystem(m: Mem, m': Mem, procs: seq<Space>, i: nat, newsz: nat)
    requires SystemOk(m, procs) && i < |procs| && Inv(m') && newsz < procs[i].sz
    requires var a := procs[i]; var n := Pages(newsz);
      n <= Pages(a.sz) && Unmapped(m, m', a.u, n, Pages(a.sz) - n) && Released(m, m', a.u, n, Pages(a.sz))
    ensures SystemOk(m', procs[i := procs[i].(sz := newsz)]) && KernelHalfKept(m, m', procs)
            && OthersUntouched(m, m', procs, i)
  {
    hide Lookup, FreeOk, DataOk, TreesOk, Untouched, Unmapped, Released, UserTable, Agrees, OwnsNothing, HalfKept;
    var a := procs[i];
    ShrunkSpace(m, m', a, newsz);
    forall j | 0 <= j < |procs| && j != i ensures Untouched(m, m', procs[j]) {
      PairApart(procs, i, j);
      ReleasedApart(m, m', a.u, Pages(newsz), Pages(a.sz), procs[j]);
    }
    HalfShrunk(m, m', a, newsz);
    SystemKept(m, m', procs, i, a.(sz := newsz));
  }

  lemma HalfShrunk(m: Mem, m': Mem, a: Space, newsz: nat)
    requires SpaceOk(m, a) && Pages(newsz) <= Pages(a.sz)
             && Unmapped(m, m', a.u, Pages(newsz), Pages(a.sz) - Pages(newsz))
    ensures HalfKept(m, m', a.k)
  {
    hide Lookup, UserTable, Agrees, OwnsNothing;
  }

  lemma GrownHeld(m: Mem, m1: Mem, m2: Mem, procs: seq<Space>, held: seq<Proc>, i: nat, img: Image, newsz: nat)
    requires HeldOk(m, procs, held) && i < |procs|
    requires Allocated(m, m1, procs[i].u, Pages(procs[i].sz), Pages(newsz), img) && Grew(m1, m2, procs[i].k)
    ensures PrivateKept(m, m2) && HeldOk(m2, procs[i := procs[i].(sz := newsz)], held)
  {
    hide Allocated, Grew, PrivateKept, HeldOk;
    PrivateAllocated(m, m1, procs[i].u, Pages(procs[i].sz), Pages(newsz), img);
    PrivateGrew(m1, m2, procs[i].k);
    PrivateTrans(m, m1, m2);
    HeldKept(m, m2, procs, held);
    HeldSized(m2, procs, held, i, procs[i].(sz := newsz));
  }

  // ---- what kvmdealloc() leaves behind ----

  // Between the end of the process's memory and USER_TOP, its kernel table maps
  // nothing that the allocator hands out.
  ghost predicate Tight(m: Mem, a: Space) {
    && Shape(m) && IsRoot(m, a.k)
    && forall v :: Pages(a.sz) <= v < USER_TOP_VPN && Present(Lookup(m, a.k, v)) ==>
      !(m.lo <= Ppn(Lookup(m, a.k, v)) < |m.ram|)
  }

  // The kernel table maps a free page at page number v.
  predicate Dangles(m: Mem, k: nat, v: nat) {
    && Shape(m) && k < |m.ram| && Present(Lookup(m, k, v))
    && Ppn(Lookup(m, k, v)) < |m.ram| && m.role[Ppn(Lookup(m, k, v))].Free?
  }

  // Then it maps no free page below USER_TOP.
  lemma {:induction false} TightIsSafe(m: Mem, a: Space)
    requires Inv(m) && SpaceOk(m, a) && Tight(m, a)
    ensures forall v :: 0 <= v < USER_TOP_VPN ==> !Dangles(m, a.k, v)
  {
    forall v | 0 <= v < USER_TOP_VPN ensures !Dangles(m, a.k, v) {
      TightAt(m, a, v);
    }
  }

  lemma TightAt(m: Mem, a: Space, v: nat)
    requires Inv(m) && SpaceOk(m, a) && Tight(m, a) && v < USER_TOP_VPN
    ensures !Dangles(m, a.k, v)
  {
    hide Lookup, DataOk, TreesOk, WithoutU, Ppn, Owned, Present;
    if v < Pages(a.sz) {
      OwnedPage(m, a.u, v);
      WithoutUKeeps(Lookup(m, a.u, v));
    }
  }

  // kvmdealloc() does nothing, so every page given up leaves a stale entry.
  lemma TightShrunk(m: Mem, m': Mem, a: Space, newsz: nat)
    requires Inv(m) && SpaceOk(m, a) && newsz <= a.sz
    requires var n := Pages(newsz);
             n <= Pages(a.sz) && Unmapped(m, m', a.u, n, Pages(a.sz) - n)
             && Released(m, m', a.u, n, Pages(a.sz))
    ensures forall v :: Pages(newsz) <= v < Pages(a.sz) ==> Dangles(m', a.k, v)
    ensures Tight(m, a) ==> (Tight(m', a.(sz := newsz)) <==> Pages(newsz) >= Pages(a.sz))
  {
    hide Lookup, FreeOk, TreesOk, WithoutU, Ppn, Owned, Present, Pages;
    var n, n' := Pages(newsz), Pages(a.sz);
    assert IsRoot(m', a.k);
    forall v | 0 <= v < VPNS ensures Lookup(m', a.k, v) == Lookup(m, a.k, v) { }
    forall v | n <= v < n'
      ensures Dangles(m', a.k, v) && m.lo <= Ppn(Lookup(m, a.k, v)) < |m.ram|
    {
      OwnedPage(m, a.u, v);
      WithoutUKeeps(Lookup(m, a.u, v));
    }
    if n < n' {
      assert Dangles(m', a.k, n);
    }
  }

  lemma TightGrown(m: Mem, m1: Mem, m2: Mem, a: Space, newsz: nat, img: Image)
    requires SpaceOk(m, a) && a.sz <= newsz && Pages(newsz) < USER_TOP_VPN
    requires Allocated(m, m1, a.u, Pages(a.sz), Pages(newsz), img)
    requires Shadowed(m1, m2, a.u, a.k, Pages(a.sz), Pages(newsz)) && Grew(m1, m2, a.k) && IsRoot(m1, a.u)
    ensures Tight(m, a) ==> Tight(m2, a.(sz := newsz))
  {
    hide Lookup, WithoutU, FreshAt, Ppn, Present, UserTable, Agrees, OwnsNothing;
    PagesMonotone(a.sz, newsz);
    hide Pages;
    assert IsRoot(m1, a.k) && IsRoot(m2, a.k);
    forall v | Pages(newsz) <= v < USER_TOP_VPN ensures Lookup(m2, a.k, v) == Lookup(m, a.k, v) { }
  }

  lemma SameSizes(m: Mem, m': Mem, r: nat)
    requires Grew(m, m', r)
    ensures m'.lo == m.lo && |m'.ram| == |m.ram|
  {
  }

  lemma TightSame(m: Mem, m': Mem, a: Space)
    requires Shape(m) && Shape(m') && SameLookups(m, m') && m'.lo == m.lo && |m'.ram| == |m.ram|
    ensures Tight(m, a) ==> Tight(m', a)
  {
    hide Lookup;
  }

  // The shadow of a smaller image ends below that of the one before.
  lemma TightExec(m0: Mem, m1: Mem, m2: Mem, m: Mem, a: Space, u: nat, sz: nat, ppn: nat)
    requires Inv(m0) && SpaceOk(m0, a) && u != a.k && IsRoot(m0, u) && Pages(sz) < USER_TOP_VPN
    requires Shadowed(m0, m1, u, a.k, 0, Pages(sz)) && Grew(m0, m1, a.k)
    requires Mapped(m1, m2, u, USYSCALL, 1, ppn, PTE_R + PTE_U) && Grew(m1, m2, u) && MemoryReturned(m2, m, a.u)
    ensures Tight(m0, a) ==> (Tight(m, Space(u, a.k, sz)) <==> Pages(sz) >= Pages(a.sz))
  {
    hide Lookup, FreeOk, TreesOk, WithoutU, MakePte, Ppn, Owned, Present, Pages;
    var n, n' := Pages(sz), Pages(a.sz);
    assert IsRoot(m1, a.k) && IsRoot(m2, a.k) && IsRoot(m, a.k);
    forall v | n <= v < USER_TOP_VPN ensures Lookup(m, a.k, v) == Lookup(m0, a.k, v) {
      assert Lookup(m1, a.k, v) == Lookup(m0, a.k, v);
    }
    if n < n' {
      OwnedPage(m0, a.u, n);
      WithoutUKeeps(Lookup(m0, a.u, n));
      assert Present(Lookup(m, a.k, n)) && m.lo <= Ppn(Lookup(m, a.k, n)) < |m.ram|;
    }
  }

  // A new kernel table maps the devices there, which lie below the kernel.
  lemma TightStarts(m: Mem, p: Proc, slot: nat, etext: nat, trampoline: nat)
    requires slot < NPROC && KERNBASE < etext < PHYSTOP && Maps(m, p.k, KernelTableOf(p, slot, etext, trampoline))
             && KERNBASE <= m.lo
    ensures Tight(m, Space(p.u, p.k, 0))
  {
    hide Lookup, Present;
    var t := KernelTableOf(p, slot, etext, trampoline);
    forall v | 0 <= v < USER_TOP_VPN && v in t ensures Ppn(t[v]) == v {
      DeviceAt(p, slot, etext, trampoline, v);
    }
  }

  lemma DeviceAt(p: Proc, slot: nat, etext: nat, trampoline: nat, v: nat)
    requires slot < NPROC && KERNBASE < etext < PHYSTOP && v < USER_TOP_VPN
             && v in KernelTableOf(p, slot, etext, trampoline)
    ensures Ppn(KernelTableOf(p, slot, etext, trampoline)[v]) == v
  {
    hide MakePte, Ppn;
  }

  // ---- page counts ----

  // Growing to newsz bytes takes the new pages and the missing nodes of both
  // tables. It fails without the pages and the user table's nodes, and panics
  // if only the kernel table's are missing.
  ghost predicate GrowsExactly(m0: Mem, m: Mem, a: Space, newsz: nat, r: int, halt: bool) {
    && Pages(a.sz) <= Pages(newsz)
    && var lo, n := Pages(a.sz), Pages(newsz) - Pages(a.sz);
       var user, kernel := n + Tables(m0, a.u, lo, n), Tables(m0, a.k, lo, n);
       && (halt <==> user <= |m0.free| < user + kernel)
       && (!halt ==> (r == 0 <==> |m0.free| >= user + kernel))
       && (!halt && r == 0 ==> |m0.free| == |m.free| + user + kernel)
  }

  // fork() of a process with n pages. allocproc() comes first; then uvmcopy()
  // fails without the pages and the nodes of the user table, and u2kvmcopy()
  // panics if only the nodes of the kernel table are missing.
  ghost predicate ForksExactly(m0: Mem, m: Mem, n: nat, stale: nat, ok: bool, halt: bool) {
    var user, kernel := n + |Paths(0, n) - Path(TRAMPOLINE)|, |Paths(0, n) - KernelNodes()|;
    && (halt <==> if |m0.free| < APAGES then (if stale == 0 then 6 <= |m0.free| < APAGES - 1 else true)
                  else APAGES + user <= |m0.free| < APAGES + user + kernel)
    && (!halt ==> (ok <==> |m0.free| >= APAGES + user + kernel))
    && (!halt && ok ==> |m0.free| == |m.free| + APAGES + user + kernel)
  }

  lemma LeanTables(m: Mem, p: Proc, n: nat)
    requires Lean(m, p) && p.u != 0 && p.k != 0
    ensures Tables(m, p.u, 0, n) == |Paths(0, n) - Path(TRAMPOLINE)|
            && Tables(m, p.k, 0, n) == |Paths(0, n) - KernelNodes()|
  {
  }

  lemma TablesKept(m: Mem, m': Mem, r: nat, vpn: nat, n: nat)
    requires Nodes(m', r) == Nodes(m, r)
    ensures Tables(m', r, vpn, n) == Tables(m, r, vpn, n)
  {
  }

  // Nodes of other trees do not change when one gets memory.
  lemma NodesAllocated(m: Mem, m': Mem, u: nat, lo: nat, hi: nat, img: Image, k: nat)
    requires Allocated(m, m', u, lo, hi, img) && u != k
    ensures Nodes(m', k) == Nodes(m, k)
  {
    hide Lookup, FreshAt;
    forall x | x in Nodes(m, k) ensures x in Nodes(m', k) {
      var p :| 0 <= p < |m.role| && IsBelow(m, k, p) && x == Spot(m.role[p].level, m.role[p].prefix);
      assert m'.role[p] == m.role[p];
    }
  }

  lemma TablesAre(m: Mem, r: nat, vpn: nat, n: nat)
    ensures Tables(m, r, vpn, n) == |Paths(vpn, n) - Nodes(m, r)|
  {
  }

  // The tables that the first page of a new process takes.
  lemma FirstNeeds(m: Mem, p: Proc)
    requires Lean(m, p) && p.u != 0 && p.k != 0
    ensures |Path(0) - Nodes(m, p.u)| == 2 && |Path(0) - Nodes(m, p.k)| == 1
  {
    hide Nodes;
    PathIs(0);
    PathIs(TRAMPOLINE);
    assert Path(0) - Nodes(m, p.u) == {TOPS, 0};
    assert Path(0) - Nodes(m, p.k) == {0};
  }

  lemma SameRam(m0: Mem, m1: Mem, m2: Mem, m: Mem, p: Proc, img: Image)
    requires PrivateKept(m0, m1) && Allocated(m1, m2, p.u, 0, 1, img) && Grew(m2, m, p.k)
    ensures m.lo == m0.lo && |m.ram| == |m0.ram|
  {
    hide Lookup;
  }

  // ---- new processes ----

  // Above USER_TOP the kernel table of the process shows the kernel: its text,
  // data and memory, the trampoline and the process's kernel stack.
  ghost predicate KernelSees(m: Mem, p: Proc, slot: nat, etext: nat, trampoline: nat)
    requires slot < NPROC && KERNBASE < etext < PHYSTOP
  {
    && Shape(m) && IsRoot(m, p.k)
    && var t := KernelTableOf(p, slot, etext, trampoline);
       forall v :: USER_TOP_VPN <= v < VPNS ==> Lookup(m, p.k, v) == if v in t then t[v] else 0
  }

  // Tree u maps its page 0, with the given contents.
  predicate FirstPage(m: Mem, u: nat, code: Page) {
    && Shape(m) && IsRoot(m, u) && Present(Lookup(m, u, 0))
    && Ppn(Lookup(m, u, 0)) < |m.ram| && m.ram[Ppn(Lookup(m, u, 0))] == code
  }

  lemma ExtendedApart(m: Mem, m': Mem, roots: set<nat>, pages: set<nat>, b: Space)
    requires Inv(m) && Extended(m, m', roots, pages) && IsRoot(m, b.u) && IsRoot(m, b.k)
    ensures Untouched(m, m', b)
  {
    hide Lookup, FreeOk, TreesOk, DataOk;
  }

  // allocproc() adds a process without memory.
  lemma AddProc(m0: Mem, m: Mem, procs: seq<Space>, held: seq<Proc>, p: Proc, slot: nat, etext: nat, trampoline: nat)
    requires slot < NPROC && KERNBASE < etext < PHYSTOP
    requires SystemOk(m0, procs) && HeldOk(m0, procs, held) && Begun(m0, m, p, slot, etext, trampoline) && p.kstack != 0
    ensures SystemOk(m, procs + [Space(p.u, p.k, 0)]) && HeldOk(m, procs + [Space(p.u, p.k, 0)], held + [p])
    ensures PrivateKept(m0, m) && KernelSees(m, p, slot, etext, trampoline) && p.u != 0 && p.k != 0
    ensures KERNBASE <= m0.lo ==> Tight(m, Space(p.u, p.k, 0))
    ensures forall j :: 0 <= j < |procs| ==> Untouched(m0, m, procs[j])
  {
    hide Lookup, Extended, FreeOk, DataOk, TreesOk, SpaceOk, Untouched, HeldOk, Maps, PrivateKept, Tight;
    ExtendedSize(m0, m, p.Roots(), p.Pages());
    if KERNBASE <= m.lo {
      TightStarts(m, p, slot, etext, trampoline);
    }
    var c := Space(p.u, p.k, 0);
    PrivateExtended(m0, m, p.Roots(), p.Pages());
    forall j | 0 <= j < |procs| ensures Untouched(m0, m, procs[j]) && SpaceOk(m, procs[j]) && Apart(procs[j], c) {
      RootsOf(m0, procs[j]);
      ExtendedApart(m0, m, p.Roots(), p.Pages(), procs[j]);
      SpaceKept(m0, m, procs[j]);
      NewRoots(m0, m, p.Roots(), p.Pages(), procs[j]);
    }
    BegunFreeable(m0, m, p, slot, etext, trampoline);
    NewSpace(m, p);
    AddApart(procs, c);
    AddHeld(m0, m, procs, held, p, slot, etext, trampoline);
    KernelStarts(m, p, slot, etext, trampoline);
  }

  lemma NewRoots(m0: Mem, m: Mem, roots: set<nat>, pages: set<nat>, b: Space)
    requires Extended(m0, m, roots, pages) && IsRoot(m0, b.u) && IsRoot(m0, b.k)
    ensures b.u !in roots && b.k !in roots
  {
  }

  lemma NewSpace(m: Mem, p: Proc)
    requires Shape(m) && Freeable(m, p, 0) && p.u != 0 && p.k != 0 && p.usyscall != 0
    ensures SpaceOk(m, Space(p.u, p.k, 0))
  {
    hide Lookup, Owned;
    assert Pages(0) == 0;
  }

  lemma AddApart(procs: seq<Space>, c: Space)
    requires forall i, j :: 0 <= i < j < |procs| ==> Apart(procs[i], procs[j])
    requires forall j :: 0 <= j < |procs| ==> Apart(procs[j], c)
    ensures var all := procs + [c]; forall i, j :: 0 <= i < j < |all| ==> Apart(all[i], all[j])
  {
    var all := procs + [c];
    forall i, j | 0 <= i < j < |all| ensures Apart(all[i], all[j]) {
      if j < |procs| { assert Apart(procs[i], procs[j]); } else { assert Apart(procs[i], c); }
    }
  }

  lemma AddHeld(m0: Mem, m: Mem, procs: seq<Space>, held: seq<Proc>, p: Proc, slot: nat, etext: nat, trampoline: nat)
    requires slot < NPROC && KERNBASE < etext < PHYSTOP && PrivateKept(m0, m)
    requires HeldOk(m0, procs, held) && Begun(m0, m, p, slot, etext, trampoline) && p.kstack != 0
    ensures HeldOk(m, procs + [Space(p.u, p.k, 0)], held + [p])
  {
    hide Lookup, FreeOk, DataOk, TreesOk, Maps, Extended;
    BegunFreeable(m0, m, p, slot, etext, trampoline);
    HeldKept(m0, m, procs, held);
    forall j | 0 <= j < |held| ensures held[j].Pages() !! p.Pages() {
      assert Backs(m0, held[j], procs[j]);
      forall q | q in p.Pages() ensures q !in held[j].Pages() {
        WasFree(m0, m, p.Roots(), p.Pages(), q);
      }
    }
    assert p.kstack in p.Pages();
    NewPrivate(m0, m, p.Roots(), p.Pages(), p.kstack);
    MoreHeld(m, procs, held, Space(p.u, p.k, 0), p);
  }

  lemma MoreHeld(m: Mem, procs: seq<Space>, held: seq<Proc>, c: Space, p: Proc)
    requires HeldOk(m, procs, held) && Backs(m, p, c) && forall j :: 0 <= j < |held| ==> held[j].Pages() !! p.Pages()
    ensures HeldOk(m, procs + [c], held + [p])
  {
    hide Backs;
    var ps, hs := procs + [c], held + [p];
    forall j | 0 <= j < |ps| ensures Backs(m, hs[j], ps[j]) {
      if j < |procs| { assert Backs(m, held[j], procs[j]); }
    }
    forall j, k | 0 <= j < k < |hs| ensures hs[j].Pages() !! hs[k].Pages() {
      if k < |held| { assert held[j].Pages() !! held[k].Pages(); }
    }
  }

  lemma WasFree(m0: Mem, m: Mem, roots: set<nat>, pages: set<nat>, q: nat)
    requires Extended(m0, m, roots, pages) && q in pages
    ensures !Private(m0, q)
  {
  }

  lemma KernelStarts(m: Mem, p: Proc, slot: nat, etext: nat, trampoline: nat)
    requires slot < NPROC && KERNBASE < etext < PHYSTOP && Maps(m, p.k, KernelTableOf(p, slot, etext, trampoline))
    ensures KernelSees(m, p, slot, etext, trampoline)
  {
    hide Lookup, KernelTableOf;
  }

  lemma KernelStays(m: Mem, m': Mem, p: Proc, slot: nat, etext: nat, trampoline: nat)
    requires slot < NPROC && KERNBASE < etext < PHYSTOP && KernelSees(m, p, slot, etext, trampoline) && Shape(m')
             && HalfKept(m, m', p.k)
    ensures KernelSees(m', p, slot, etext, trampoline)
  {
    hide Lookup, KernelTableOf;
  }

  lemma FirstProcess(m0: Mem, m1: Mem, m2: Mem, m: Mem, p: Proc, slot: nat, etext: nat, trampoline: nat, img: Image)
    requires slot < NPROC && KERNBASE < etext < PHYSTOP && KernelSees(m1, p, slot, etext, trampoline) && img.Same?
    requires var a := Space(p.u, p.k, 0); SystemOk(m1, [a]) && KernelHalfKept(m1, m, [a])
    requires Allocated(m1, m2, p.u, 0, 1, img) && Shadowed(m2, m, p.u, p.k, Pages(0), Pages(PGSIZE)) && Grew(m2, m, p.k)
    ensures KernelSees(m, p, slot, etext, trampoline) && FirstPage(m, p.u, img.page)
  {
    var a := Space(p.u, p.k, 0);
    assert [a][0] == a;
    assert HalfKept(m1, m, [a][0].k);
    KernelStays(m1, m, p, slot, etext, trampoline);
    hide KernelSees, SystemOk, KernelHalfKept, Inv;
    assert SpaceOk(m1, a) by { OneSpace(m1, a); }
    RootsOf(m1, a);
    DifferentTables(m1, a);
    PageShown(m1, m2, m, p.u, p.k, img);
  }

  lemma OneSpace(m: Mem, a: Space)
    requires SystemOk(m, [a])
    ensures SpaceOk(m, a)
  {
    hide SpaceOk, Inv;
    assert [a][0] == a;
  }

  lemma PageShown(m1: Mem, m2: Mem, m: Mem, u: nat, k: nat, img: Image)
    requires img.Same? && IsRoot(m1, u) && u != k && Allocated(m1, m2, u, 0, 1, img)
    requires Shadowed(m2, m, u, k, Pages(0), Pages(PGSIZE)) && Grew(m2, m, k)
    ensures FirstPage(m, u, img.page)
  {
    hide Lookup, WithoutU;
    assert IsRoot(m2, u) && IsRoot(m, u);
    assert FreshAt(m1, m2, u, 0, img);
    assert Lookup(m, u, 0) == Lookup(m2, u, 0);
  }

  // A failed allocproc() has changed nothing for anybody.
  lemma BackAgain(m0: Mem, m: Mem, procs: seq<Space>, held: seq<Proc>)
    requires SystemOk(m0, procs) && HeldOk(m0, procs, held) && Inv(m) && Undone(m0, m)
    ensures SystemOk(m, procs) && HeldOk(m, procs, held) && PrivateKept(m0, m)
    ensures forall j :: 0 <= j < |procs| ==> Untouched(m0, m, procs[j])
  {
    hide Lookup, FreeOk, DataOk, TreesOk, SpaceOk, Untouched, HeldOk, Undone, PrivateKept;
    PrivateUndone(m0, m);
    HeldKept(m0, m, procs, held);
    forall j | 0 <= j < |procs| ensures Untouched(m0, m, procs[j]) && SpaceOk(m, procs[j]) {
      UndoneApart(m0, m, procs[j]);
      SpaceKept(m0, m, procs[j]);
    }
  }

  lemma UndoneApart(m: Mem, m': Mem, b: Space)
    requires Undone(m, m')
    ensures Untouched(m, m', b)
  {
    hide Lookup;
  }

  // ---- fork() ----

  // Tree u2 maps a copy of the memory that tree u mapped in m0, with the same
  // permissions, in pages of its own.
  ghost predicate IsCopy(m0: Mem, u: nat, m: Mem, u2: nat, n: nat) {
    && Shape(m0) && Shape(m) && u < |m0.ram| && u2 < |m.ram|
    && forall v :: 0 <= v < n ==> CopiedAt(m0, u, m, u2, v)
  }

  predicate CopiedAt(m0: Mem, u: nat, m: Mem, u2: nat, v: nat)
    requires Shape(m0) && Shape(m) && u < |m0.ram| && u2 < |m.ram|
  {
    var from, to := Lookup(m0, u, v), Lookup(m, u2, v);
    && Present(to) && Flags(to) == Flags(from) && Ppn(to) < |m.ram| && Ppn(from) < |m0.ram|
    && m.role[Ppn(to)] == Data(u2, v) && m.ram[Ppn(to)] == m0.ram[Ppn(from)]
  }

  lemma ForkSource(m: Mem, all: seq<Space>, i: nat, c: nat)
    requires SystemOk(m, all) && i < c < |all| && all[c].sz == 0
    ensures var a, b := all[i], all[c];
      && IsRoot(m, a.u) && IsRoot(m, b.u) && IsRoot(m, b.k) && b.u != b.k && a.u != b.u && Pages(a.sz) < USER_TOP_VPN
      && forall v :: 0 <= v < Pages(a.sz) ==> Owned(m, a.u, v) && !Present(Lookup(m, b.u, v))
  {
    hide Lookup, Owned, FreeOk, DataOk, TreesOk, Agrees;
    assert SpaceOk(m, all[i]) && SpaceOk(m, all[c]) && Apart(all[i], all[c]);
    assert Pages(0) == 0;
  }

  lemma Copied(m0: Mem, m1: Mem, m2: Mem, u: nat, u2: nat, k2: nat, sz: nat)
    requires Inv(m0) && Allocated(m0, m1, u2, Pages(0), Pages(sz), CopyOf(m0, u)) && IsRoot(m0, u) && IsRoot(m0, u2)
    requires Shadowed(m1, m2, u2, k2, Pages(0), Pages(sz)) && Grew(m1, m2, k2) && u2 != k2 && Pages(sz) <= MAXVPN
    requires forall v :: 0 <= v < Pages(sz) ==> Owned(m0, u, v)
    ensures IsCopy(m0, u, m2, u2, Pages(sz))
  {
    hide Lookup, Owned, FreeOk, DataOk, TreesOk, WithoutU;
    assert IsRoot(m1, u2) && IsRoot(m2, u2);
    forall v | 0 <= v < Pages(sz) ensures CopiedAt(m0, u, m2, u2, v) {
      OwnedPage(m0, u, v);
      assert FreshAt(m0, m1, u2, v, CopyOf(m0, u));
      assert Lookup(m2, u2, v) == Lookup(m1, u2, v);
      FlagsPresent(Lookup(m0, u, v));
    }
  }

  lemma FlagsPresent(pte: nat)
    ensures Flags(pte) % 2 == pte % 2
  {
  }

  lemma ChildFreeable(m0: Mem, m1: Mem, m2: Mem, p: Proc, slot: nat, etext: nat, trampoline: nat)
    requires slot < NPROC && KERNBASE < etext < PHYSTOP && Begun(m0, m1, p, slot, etext, trampoline) && p.kstack != 0
    requires Inv(m2) && Grew(m1, m2, p.u) && SameLookups(m1, m2)
    ensures Inv(m0) && Extended(m0, m2, p.Roots(), p.Pages()) && Freeable(m2, p, 0) && p.kstack < |m2.role|
  {
    hide Lookup, FreeOk, DataOk, TreesOk, Maps, Extended, UserTable, Grew, SameLookups;
    assert p.u in p.Roots();
    ExtendedGrew(m0, m1, m2, p.Roots(), p.Pages(), p.u);
    MapsSame(m1, m2, p.u, UserTableOf(p, trampoline));
    MapsSame(m1, m2, p.k, KernelTableOf(p, slot, etext, trampoline));
    BegunFreeable(m0, m2, p, slot, etext, trampoline);
    assert p.kstack in p.Pages();
    NewPrivate(m0, m2, p.Roots(), p.Pages(), p.kstack);
  }

  lemma ExtendedGrew(m0: Mem, m: Mem, m': Mem, roots: set<nat>, pages: set<nat>, r: nat)
    requires Extended(m0, m, roots, pages) && Grew(m, m', r) && SameLookups(m, m') && r in roots
    ensures Extended(m0, m', roots, pages)
  {
    hide Lookup;
  }

  // The child has its copy, and everybody else what they had.
  lemma ChildDone(m0: Mem, m1: Mem, m2: Mem, m: Mem, procs: seq<Space>, held: seq<Proc>, i: nat, p: Proc, sz: nat,
                  slot: nat, etext: nat, trampoline: nat)
    requires slot < NPROC && KERNBASE < etext < PHYSTOP && i < |procs| && sz == procs[i].sz
    requires SystemOk(m0, procs) && SystemOk(m1, procs + [Space(p.u, p.k, 0)])
    requires PrivateKept(m0, m1) && PrivateKept(m1, m) && KernelSees(m1, p, slot, etext, trampoline)
    requires forall j :: 0 <= j < |procs| ==> Untouched(m0, m1, procs[j])
    requires var all := procs + [Space(p.u, p.k, 0)]; KernelHalfKept(m1, m, all) && OthersUntouched(m1, m, all, |procs|)
    requires Allocated(m1, m2, p.u, Pages(0), Pages(sz), CopyOf(m1, procs[i].u))
    requires Shadowed(m2, m, p.u, p.k, Pages(0), Pages(sz)) && Grew(m2, m, p.k)
    ensures PrivateKept(m0, m) && KernelSees(m, p, slot, etext, trampoline)
    ensures IsCopy(m0, procs[i].u, m, p.u, Pages(sz))
    ensures forall j :: 0 <= j < |procs| ==> Untouched(m0, m, procs[j])
  {
    hide Lookup, SpaceOk, FreeOk, DataOk, TreesOk, Untouched, PrivateKept, KernelSees, Allocated, Shadowed, Grew,
         IsCopy, HalfKept;
    PrivateTrans(m0, m1, m);
    var c := Space(p.u, p.k, 0);
    var all := procs + [c];
    assert all[|procs|] == c && SpaceOk(m1, c) && HalfKept(m1, m, c.k);
    KernelStays(m1, m, p, slot, etext, trampoline);
    forall j | 0 <= j < |procs| ensures Untouched(m0, m, procs[j]) {
      assert all[j] == procs[j];
      RootsOf(m0, procs[j]);
      UntouchedTrans(m0, m1, m, procs[j]);
    }
    assert all[i] == procs[i];
    CopySpace(m1, procs[i], c);
    Copied(m1, m2, m, procs[i].u, p.u, p.k, sz);
    RootsOf(m0, procs[i]);
    SameSource(m0, m1, m, procs[i], p.u);
  }

  lemma CopySpace(m: Mem, a: Space, c: Space)
    requires SpaceOk(m, a) && SpaceOk(m, c)
    ensures IsRoot(m, a.u) && IsRoot(m, c.u) && c.u != c.k && Pages(a.sz) <= MAXVPN
    ensures forall v :: 0 <= v < Pages(a.sz) ==> Owned(m, a.u, v)
  {
    hide Lookup, Owned;
  }

  lemma SameSource(m0: Mem, m1: Mem, m: Mem, a: Space, u2: nat)
    requires Inv(m0) && SpaceOk(m0, a) && Untouched(m0, m1, a) && IsCopy(m1, a.u, m, u2, Pages(a.sz))
    ensures IsCopy(m0, a.u, m, u2, Pages(a.sz))
  {
    hide Lookup, FreeOk, DataOk, TreesOk, Agrees;
    forall v | 0 <= v < Pages(a.sz) ensures CopiedAt(m0, a.u, m, u2, v) {
      assert CopiedAt(m1, a.u, m, u2, v);
      OwnedPage(m0, a.u, v);
    }
  }

  // ---- freeproc() ----

  lemma ProcFreeable(m: Mem, procs: seq<Space>, held: seq<Proc>, i: nat)
    requires SystemOk(m, procs) && HeldOk(m, procs, held) && i < |procs|
    ensures Inv(m) && Freeable(m, held[i], procs[i].sz) && held[i].kstack < |m.role|
  {
    hide Lookup, Owned, FreeOk, DataOk, TreesOk;
    assert SpaceOk(m, procs[i]) && Backs(m, held[i], procs[i]);
  }

  lemma GoneApart(m: Mem, m': Mem, roots: set<nat>, pages: set<nat>, b: Space)
    requires Gone(m, m', roots, pages) && b.u !in roots && b.k !in roots && forall p :: p in pages ==> Private(m, p)
    ensures Untouched(m, m', b)
  {
    hide Lookup;
  }

  lemma ProcGone(m: Mem, m': Mem, procs: seq<Space>, held: seq<Proc>, i: nat)
    requires SystemOk(m, procs) && HeldOk(m, procs, held) && i < |procs| && Inv(m')
    requires Gone(m, m', held[i].Roots(), held[i].Pages())
    ensures SystemOk(m', procs[..i] + procs[i + 1..])
            && HeldOk(m', procs[..i] + procs[i + 1..], held[..i] + held[i + 1..])
    ensures OthersUntouched(m, m', procs, i)
  {
    hide Lookup, SpaceOk, FreeOk, DataOk, TreesOk, Untouched, Gone;
    var p := held[i];
    assert Backs(m, p, procs[i]);
    forall j | 0 <= j < |procs| && j != i
      ensures Untouched(m, m', procs[j]) && SpaceOk(m', procs[j]) && Backs(m', held[j], procs[j])
    {
      PairApart(procs, i, j);
      GoneApart(m, m', p.Roots(), p.Pages(), procs[j]);
      SpaceKept(m, m', procs[j]);
      OtherBacked(m, m', procs, held, i, j);
    }
    WithoutOne(m', procs, held, i);
  }

  lemma OtherBacked(m: Mem, m': Mem, procs: seq<Space>, held: seq<Proc>, i: nat, j: nat)
    requires HeldOk(m, procs, held) && i < |procs| && j < |procs| && i != j
    requires Gone(m, m', held[i].Roots(), held[i].Pages())
    ensures Backs(m', held[j], procs[j])
  {
    hide Lookup;
    assert Backs(m, held[j], procs[j]);
    assert held[i].Pages() !! held[j].Pages();
    assert held[j].trapframe in held[j].Pages() && held[j].usyscall in held[j].Pages()
      && held[j].kstack in held[j].Pages();
  }

  lemma WithoutOne(m: Mem, procs: seq<Space>, held: seq<Proc>, i: nat)
    requires Inv(m) && i < |procs| == |held|
    requires forall j :: 0 <= j < |procs| && j != i ==> SpaceOk(m, procs[j]) && Backs(m, held[j], procs[j])
    requires forall i, j :: 0 <= i < j < |procs| ==> Apart(procs[i], procs[j])
    requires forall i, j :: 0 <= i < j < |held| ==> held[i].Pages() !! held[j].Pages()
    ensures SystemOk(m, procs[..i] + procs[i + 1..])
            && HeldOk(m, procs[..i] + procs[i + 1..], held[..i] + held[i + 1..])
  {
    hide SpaceOk, Inv, Backs;
    var ps, hs := procs[..i] + procs[i + 1..], held[..i] + held[i + 1..];
    forall j | 0 <= j < |ps| ensures SpaceOk(m, ps[j]) && Backs(m, hs[j], ps[j]) {
      var o := if j < i then j else j + 1;
      assert ps[j] == procs[o] && hs[j] == held[o];
    }
    forall j, k | 0 <= j < k < |ps| ensures Apart(ps[j], ps[k]) && hs[j].Pages() !! hs[k].Pages() {
      var o, q := if j < i then j else j + 1, if k < i then k else k + 1;
      assert Apart(procs[o], procs[q]) && held[o].Pages() !! held[q].Pages();
    }
  }

  lemma ReturnedApart(m: Mem, m': Mem, r: nat, b: Space)
    requires MemoryReturned(m, m', r) && r != b.u && r != b.k
    ensures Untouched(m, m', b)
  {
    hide Lookup;
  }

  // ---- exec() ----

  lemma MappedApart(m: Mem, m': Mem, r: nat, v: nat, k: nat, ppn: nat, perm: nat, b: Space)
    requires perm < 1024 && Mapped(m, m', r, v, k, ppn, perm) && Grew(m, m', r) && r != b.u && r != b.k
    ensures Untouched(m, m', b)
  {
    hide Lookup, MakePte;
  }

  lemma EmptyImage(m0: Mem, m: Mem, procs: seq<Space>, held: seq<Proc>, u: nat, trampoline: nat, trapframe: nat)
    requires SystemOk(m0, procs) && HeldOk(m0, procs, held) && Inv(m)
    requires Extended(m0, m, {} + {u}, {}) && Maps(m, u, UserMap(trampoline, trapframe))
    ensures SystemOk(m, procs) && HeldOk(m, procs, held) && UserTable(m, u, Pages(0), {TRAMPOLINE, TRAPFRAME})
            && OwnsNothing(m, u)
    ensures forall j :: 0 <= j < |procs| ==> procs[j].u != u && procs[j].k != u && Untouched(m0, m, procs[j])
    ensures IsRoot(m, u) && forall v :: 0 <= v < USYSCALL ==> !Present(Lookup(m, u, v))
  {
    hide Lookup, Extended, FreeOk, DataOk, TreesOk, SpaceOk, Untouched, HeldOk, PrivateKept, MakePte, OwnsNothing,
         UserTable;
    PrivateExtended(m0, m, {} + {u}, {});
    HeldKept(m0, m, procs, held);
    forall j | 0 <= j < |procs|
      ensures SpaceOk(m, procs[j]) && procs[j].u != u && procs[j].k != u && Untouched(m0, m, procs[j])
    {
      RootsOf(m0, procs[j]);
      ExtendedApart(m0, m, {} + {u}, {}, procs[j]);
      SpaceKept(m0, m, procs[j]);
      NewRoots(m0, m, {} + {u}, {}, procs[j]);
    }
    NewOwnsNothing(m0, m, {} + {u}, {}, u);
    var t := UserMap(trampoline, trapframe);
    assert t.Keys == {TRAMPOLINE, TRAPFRAME};
    BareTable(m, u, t);
  }

  lemma GrewBeside(m: Mem, m': Mem, procs: seq<Space>, held: seq<Proc>, u: nat)
    requires SystemOk(m, procs) && HeldOk(m, procs, held) && Inv(m') && Grew(m, m', u) && SameLookups(m, m')
    ensures SystemOk(m', procs) && HeldOk(m', procs, held)
  {
    hide Lookup, FreeOk, DataOk, TreesOk, SpaceOk, Untouched, HeldOk, PrivateKept, Grew, SameLookups;
    PrivateGrew(m, m', u);
    HeldKept(m, m', procs, held);
    forall j | 0 <= j < |procs| ensures SpaceOk(m', procs[j]) {
      SameApart(m, m', u, procs[j]);
      SpaceKept(m, m', procs[j]);
    }
  }

  lemma StillEmpty(m: Mem, m': Mem, u: nat, t: map<nat, nat>)
    requires UserTable(m, u, Pages(0), {TRAMPOLINE, TRAPFRAME}) && Grew(m, m', u) && SameLookups(m, m')
    ensures UserTable(m', u, Pages(0), {TRAMPOLINE, TRAPFRAME})
  {
    hide Lookup, Owned;
    forall v: nat ensures Owned(m', u, v) == Owned(m, u, v) { OwnedSame(m, m', u, u, v); }
  }

  lemma ImageLoaded(m0: Mem, m: Mem, m': Mem, procs: seq<Space>, held: seq<Proc>, u: nat, sz: nat)
    requires SystemOk(m, procs) && HeldOk(m, procs, held) && Inv(m')
    requires UserTable(m, u, Pages(0), {TRAMPOLINE, TRAPFRAME}) && Pages(sz) < USER_TOP_VPN
    requires forall j :: 0 <= j < |procs| ==> procs[j].u != u && procs[j].k != u
    requires Allocated(m, m', u, Pages(0), Pages(sz), Zeroed(PTE_R + PTE_U + PTE_W))
    requires SystemOk(m0, procs) && forall j :: 0 <= j < |procs| ==> Untouched(m0, m, procs[j])
    ensures SystemOk(m', procs) && HeldOk(m', procs, held) && UserTable(m', u, Pages(sz), {TRAMPOLINE, TRAPFRAME})
    ensures forall j :: 0 <= j < |procs| ==> Untouched(m0, m', procs[j])
  {
    hide Lookup, FreeOk, DataOk, TreesOk, SpaceOk, Untouched, HeldOk, PrivateKept, UserTable, Allocated;
    var img := Zeroed(PTE_R + PTE_U + PTE_W);
    PrivateAllocated(m, m', u, Pages(0), Pages(sz), img);
    HeldKept(m, m', procs, held);
    forall j | 0 <= j < |procs| ensures SpaceOk(m', procs[j]) && Untouched(m0, m', procs[j]) {
      AllocatedApart(m, m', u, Pages(0), Pages(sz), img, procs[j]);
      SpaceKept(m, m', procs[j]);
      RootsOf(m0, procs[j]);
      UntouchedTrans(m0, m, m', procs[j]);
    }
    TableLoaded(m, m', u, Pages(sz), img);
  }

  lemma TableLoaded(m: Mem, m': Mem, u: nat, n: nat, img: Image)
    requires UserTable(m, u, Pages(0), {TRAMPOLINE, TRAPFRAME}) && Allocated(m, m', u, Pages(0), n, img)
             && n < USER_TOP_VPN
    ensures UserTable(m', u, n, {TRAMPOLINE, TRAPFRAME})
  {
    hide Lookup, Owned, MakePte;
    assert Pages(0) == 0 && IsRoot(m', u);
    forall v | 0 <= v < n ensures Present(Lookup(m', u, v)) && Owned(m', u, v) {
      assert FreshAt(m, m', u, v, img);
      AllocatedOwned(m, m', u, Pages(0), n, img, v);
    }
    forall v: nat | v in {TRAMPOLINE, TRAPFRAME} ensures !Owned(m', u, v) {
      OwnedOutsideOne(m, m', u, n, img, v);
    }
  }

  lemma OwnedOutsideOne(m: Mem, m': Mem, u: nat, n: nat, img: Image, v: nat)
    requires Allocated(m, m', u, 0, n, img) && v >= n && !Owned(m, u, v)
    ensures !Owned(m', u, v)
  {
    hide Lookup, FreshAt;
  }

  // What tree r had before is free now.
  predicate TableFree(m: Mem, m': Mem, r: nat) {
    && |m'.role| == |m.role|
    && forall p :: 0 <= p < |m.role| && ((m.role[p].Node? && m.role[p].root == r)
                                         || (m.role[p].Data? && m.role[p].owner == r)) ==>
         m'.role[p].Free?
  }

  lemma ReturnedFree(m0: Mem, m: Mem, m': Mem, r: nat)
    requires |m.role| == |m0.role| && (forall p :: 0 <= p < |m.role| && !m0.role[p].Free? ==> m.role[p] == m0.role[p])
    requires MemoryReturned(m, m', r)
    ensures TableFree(m0, m', r)
  {
    hide Lookup;
  }

  // Dropping a table that no process uses.
  lemma EarlyFailure(m0: Mem, m: Mem, procs: seq<Space>, held: seq<Proc>, i: nat, r: nat)
    requires SystemOk(m0, procs) && HeldOk(m0, procs, held) && i < |procs| && Inv(m) && MemoryReturned(m0, m, r)
    requires forall j :: 0 <= j < |procs| ==> procs[j].u != r && procs[j].k != r
    ensures SystemOk(m, procs) && HeldOk(m, procs, held) && TableFree(m0, m, r)
    ensures Agrees(m, procs[i].u, procs[i].k, Pages(procs[i].sz))
    ensures OthersUntouched(m0, m, procs, i) && PrivateKept(m0, m) && MemoryKept(m0, m, procs[i].u, Pages(procs[i].sz))
  {
    hide Lookup, SpaceOk, FreeOk, DataOk, TreesOk, MemoryReturned, Untouched, MemoryKept, HeldOk, PrivateKept,
         TableFree;
    PrivateReturned(m0, m, r);
    HeldKept(m0, m, procs, held);
    ReturnedFree(m0, m0, m, r);
    forall j | 0 <= j < |procs| ensures SpaceOk(m, procs[j]) && Untouched(m0, m, procs[j]) {
      ReturnedApart(m0, m, r, procs[j]);
      SpaceKept(m0, m, procs[j]);
    }
    AgreesThere(m, procs[i]);
    UserUntouched(m0, m, procs[i]);
    UntouchedMemory(m0, m, procs[i]);
  }

  lemma AgreesThere(m: Mem, a: Space)
    requires SpaceOk(m, a)
    ensures Agrees(m, a.u, a.k, Pages(a.sz))
  {
    hide Agrees;
  }

  lemma UserUntouched(m: Mem, m': Mem, a: Space)
    requires Untouched(m, m', a)
    ensures Untouched(m, m', a.(k := a.u))
  {
    hide Lookup;
  }

  lemma UntouchedMemory(m: Mem, m': Mem, a: Space)
    requires Inv(m) && SpaceOk(m, a) && Untouched(m, m', a.(k := a.u))
    ensures MemoryKept(m, m', a.u, Pages(a.sz))
  {
    hide Lookup, FreeOk, DataOk, TreesOk, Agrees;
    forall v | 0 <= v < Pages(a.sz)
      ensures Lookup(m', a.u, v) == Lookup(m, a.u, v) && Ppn(Lookup(m, a.u, v)) < |m.ram|
      ensures m'.ram[Ppn(Lookup(m, a.u, v))] == m.ram[Ppn(Lookup(m, a.u, v))]
    {
      OwnedPage(m, a.u, v);
    }
  }

  lemma ImageReadable(m: Mem, a: Space, u: nat, sz: nat)
    requires SpaceOk(m, a) && UserTable(m, u, Pages(sz), {TRAMPOLINE, TRAPFRAME})
    ensures IsRoot(m, u) && IsRoot(m, a.k) && OwnsNothing(m, a.k) && Pages(sz) <= MAXVPN
    ensures forall v :: Pages(0) <= v < Pages(sz) ==> Present(Lookup(m, u, v))
  {
    hide Lookup, Owned, Agrees;
  }

  // u2kvmcopy() has pointed the shadow of process i at the new image.
  lemma ShadowMoved(m0: Mem, m1: Mem, a: Space, u: nat, n: nat)
    requires UserTable(m0, u, n, {TRAMPOLINE, TRAPFRAME}) && IsRoot(m0, a.k) && u != a.k && Inv(m1)
    requires Shadowed(m0, m1, u, a.k, 0, n) && Grew(m0, m1, a.k)
    ensures UserTable(m1, u, n, {TRAMPOLINE, TRAPFRAME}) && !Present(Lookup(m1, u, USYSCALL)) && IsRoot(m1, u)
    ensures Tables(m1, u, USYSCALL, 1) == 0
  {
    hide Lookup, Owned, WithoutU, Table, FreeOk, DataOk, TreesOk, Nodes, Path, Paths, Tables;
    SameTable(m1, u, USYSCALL, TRAMPOLINE);
    PresentHasTable(m1, u, TRAMPOLINE);
    PathThere(m1, u, USYSCALL);
    NothingMissing(m1, u, USYSCALL);
    forall v | 0 <= v < VPNS ensures Lookup(m1, u, v) == Lookup(m0, u, v) { }
    forall v: nat ensures Owned(m1, u, v) == Owned(m0, u, v) { OwnedSame(m0, m1, a.k, u, v); }
  }

  lemma OwnedSame(m: Mem, m': Mem, k: nat, u: nat, v: nat)
    requires Grew(m, m', k)
    ensures Owned(m', u, v) == Owned(m, u, v)
  {
    if Owned(m, u, v) {
      var p :| 0 <= p < |m.role| && m.role[p] == Data(u, v);
      assert m'.role[p] == Data(u, v);
    }
  }

  // Taking the USYSCALL page out again leaves the new image as it was.
  lemma MapUndone(m1: Mem, m2: Mem, m3: Mem, u: nat, ppn: nat)
    requires Inv(m1) && IsRoot(m1, u) && !Present(Lookup(m1, u, USYSCALL)) && !Owned(m2, u, USYSCALL)
    requires Mapped(m1, m2, u, USYSCALL, 1, ppn, PTE_R + PTE_U) && Grew(m1, m2, u)
    requires Unmapped(m2, m3, u, USYSCALL, 1) && Released(m2, m3, u, USYSCALL, USYSCALL + 1)
    ensures Mapped(m1, m3, u, USYSCALL, 0, ppn, PTE_R + PTE_U) && Grew(m1, m3, u)
  {
    AbsentIsZero(m1, u, USYSCALL);
    hide Lookup;
    assert m3.role == m2.role;
  }

  lemma MapFailed(m1: Mem, m2: Mem, u: nat, n: nat, ppn: nat)
    requires UserTable(m1, u, n, {TRAMPOLINE, TRAPFRAME}) && Grew(m1, m2, u)
    requires Mapped(m1, m2, u, USYSCALL, 0, ppn, PTE_R + PTE_U)
    ensures UserTable(m2, u, n, {TRAMPOLINE, TRAPFRAME})
  {
    hide Lookup, Owned;
    forall v | 0 <= v < VPNS ensures Lookup(m2, u, v) == Lookup(m1, u, v) { }
    forall v: nat ensures Owned(m2, u, v) == Owned(m1, u, v) { OwnedSame(m1, m2, u, u, v); }
  }

  // The new image with its USYSCALL page is a proper address space.
  lemma ImageSpace(m0: Mem, m1: Mem, m2: Mem, a: Space, u: nat, sz: nat, ppn: nat)
    requires Inv(m1) && SpaceOk(m0, a) && UserTable(m0, u, Pages(sz), {TRAMPOLINE, TRAPFRAME})
    requires u != a.k && Pages(sz) < USER_TOP_VPN && IsRoot(m1, u) && !Present(Lookup(m1, u, USYSCALL))
    requires Shadowed(m0, m1, u, a.k, 0, Pages(sz)) && Grew(m0, m1, a.k)
    requires Mapped(m1, m2, u, USYSCALL, 1, ppn, PTE_R + PTE_U) && Grew(m1, m2, u)
    ensures SpaceOk(m2, Space(u, a.k, sz)) && HalfKept(m0, m2, a.k)
  {
    hide Lookup, Owned, WithoutU, Agrees, FreeOk, DataOk, TreesOk;
    var n := Pages(sz);
    forall v | 0 <= v < VPNS
      ensures Lookup(m1, u, v) == Lookup(m0, u, v)
      ensures Lookup(m2, u, v) == if v == USYSCALL then MakePte(ppn, PTE_R + PTE_U) else Lookup(m0, u, v)
      ensures Lookup(m2, a.k, v) == if v < n then WithoutU(Lookup(m0, u, v)) else Lookup(m0, a.k, v)
    {
    }
    forall v: nat ensures Owned(m2, u, v) == Owned(m0, u, v) {
      OwnedSame(m0, m1, a.k, u, v);
      OwnedSame(m1, m2, u, u, v);
    }
    NotOwnedUnmapped(m1, u, USYSCALL);
    OwnedSame(m0, m1, a.k, u, USYSCALL);
    AgreesNow(m0, m2, u, a.k, n);
  }

  lemma NotOwnedUnmapped(m: Mem, u: nat, v: nat)
    requires Inv(m) && IsRoot(m, u) && v < VPNS && !Present(Lookup(m, u, v))
    ensures !Owned(m, u, v)
  {
    NoDataAt(m, u, v);
  }

  lemma AgreesNow(m0: Mem, m2: Mem, u: nat, k: nat, n: nat)
    requires Shape(m0) && Shape(m2) && IsRoot(m2, u) && IsRoot(m2, k) && IsRoot(m0, u) && n <= USER_TOP_VPN
    requires forall v :: 0 <= v < n ==> Present(Lookup(m0, u, v)) && Lookup(m2, u, v) == Lookup(m0, u, v)
    requires forall v :: 0 <= v < n ==> Lookup(m2, k, v) == WithoutU(Lookup(m0, u, v))
    ensures Agrees(m2, u, k, n)
  {
    hide Lookup, WithoutU;
  }

  // Until the old table is freed, the other tables are as they were.
  lemma ExecApart(m0: Mem, m1: Mem, m2: Mem, a: Space, u: nat, n: nat, k: nat, ppn: nat, b: Space)
    requires IsRoot(m0, u) && Shadowed(m0, m1, u, a.k, 0, n) && Grew(m0, m1, a.k)
    requires Mapped(m1, m2, u, USYSCALL, k, ppn, PTE_R + PTE_U) && Grew(m1, m2, u)
    requires a.k != b.u && a.k != b.k && u != b.u && u != b.k && IsRoot(m0, b.u) && IsRoot(m0, b.k)
    ensures Untouched(m0, m2, b)
  {
    hide Untouched, Lookup, Shadowed, Grew, Mapped;
    ShadowedApart(m0, m1, u, a.k, 0, n, b);
    MappedApart(m1, m2, u, USYSCALL, k, ppn, PTE_R + PTE_U, b);
    UntouchedTrans(m0, m1, m2, b);
  }

  lemma UserTableKept(m0: Mem, m: Mem, a: Space)
    requires SpaceOk(m0, a) && Untouched(m0, m, Space(a.u, a.u, 0))
    ensures UserTable(m, a.u, Pages(a.sz), FIXED)
  {
    hide Lookup, Owned, Agrees;
    forall v: nat ensures Owned(m, a.u, v) == Owned(m0, a.u, v) { OwnedKept(m0, m, Space(a.u, a.u, 0), v); }
  }

  lemma SpaceUsyscall(m: Mem, a: Space)
    requires SpaceOk(m, a)
    ensures IsRoot(m, a.u) && Present(Lookup(m, a.u, USYSCALL)) && !Owned(m, a.u, USYSCALL)
  {
    hide Lookup, Owned, Agrees;
    OldTable(m, a);
  }

  lemma OldTable(m: Mem, a: Space)
    requires UserTable(m, a.u, Pages(a.sz), FIXED)
    ensures IsRoot(m, a.u) && Present(Lookup(m, a.u, USYSCALL)) && !Owned(m, a.u, USYSCALL)
  {
    hide Lookup, Owned;
  }

  // Before the old table is freed: it is as it was, and so are the others'.
  lemma OldImage(m0: Mem, m1: Mem, m2: Mem, procs: seq<Space>, i: nat, u: nat, n: nat, ppn: nat)
    requires SystemOk(m0, procs) && i < |procs| && IsRoot(m0, u)
    requires forall j :: 0 <= j < |procs| ==> procs[j].u != u && procs[j].k != u
    requires Shadowed(m0, m1, u, procs[i].k, 0, n) && Grew(m0, m1, procs[i].k)
    requires Mapped(m1, m2, u, USYSCALL, 1, ppn, PTE_R + PTE_U) && Grew(m1, m2, u)
    ensures forall j :: 0 <= j < |procs| && j != i ==> Untouched(m0, m2, procs[j])
    ensures var a := procs[i];
      && UserTable(m2, a.u, Pages(a.sz), FIXED)
      && IsRoot(m2, a.u) && Present(Lookup(m2, a.u, USYSCALL)) && !Owned(m2, a.u, USYSCALL)
  {
    hide Lookup, SpaceOk, FreeOk, DataOk, TreesOk, Untouched, Shadowed, Grew, Mapped, UserTable, Owned;
    var a := procs[i];
    forall j | 0 <= j < |procs| && j != i ensures Untouched(m0, m2, procs[j]) {
      PairApart(procs, i, j);
      RootsOf(m0, procs[j]);
      ExecApart(m0, m1, m2, a, u, n, 1, ppn, procs[j]);
    }
    RootsOf(m0, a);
    DifferentTables(m0, a);
    ExecApart(m0, m1, m2, a, u, n, 1, ppn, Space(a.u, a.u, 0));
    UserTableKept(m0, m2, a);
    OldTable(m2, a);
  }

  // The new image keeps its memory; the old one's is free.
  lemma ExecKept(m0: Mem, m1: Mem, m2: Mem, m: Mem, procs: seq<Space>, held: seq<Proc>, i: nat, u: nat, sz: nat,
                 ppn: nat)
    requires SystemOk(m0, procs) && HeldOk(m0, procs, held) && i < |procs| && Inv(m)
    requires UserTable(m0, u, Pages(sz), {TRAMPOLINE, TRAPFRAME})
    requires forall j :: 0 <= j < |procs| ==> procs[j].u != u && procs[j].k != u
    requires Shadowed(m0, m1, u, procs[i].k, 0, Pages(sz)) && Grew(m0, m1, procs[i].k)
    requires Mapped(m1, m2, u, USYSCALL, 1, ppn, PTE_R + PTE_U) && Grew(m1, m2, u) && MemoryReturned(m2, m, procs[i].u)
    ensures HeldOk(m, procs[i := Space(u, procs[i].k, sz)], held[i := held[i].(u := u)]) && TableFree(m0, m, procs[i].u)
    ensures PrivateKept(m0, m) && MemoryKept(m0, m, u, Pages(sz))
  {
    hide Lookup, SpaceOk, FreeOk, DataOk, TreesOk, Shadowed, Grew, Mapped, MemoryReturned, UserTable, PrivateKept,
         TableFree, MemoryKept;
    var a := procs[i];
    GrewTwice(m0, m1, m2, a.k, u);
    PrivateReturned(m2, m, a.u);
    PrivateTrans(m0, m2, m);
    HeldKept(m0, m, procs, held);
    HeldMoved(m, procs, held, i, u, sz);
    ReturnedFree(m0, m2, m, a.u);
    ImageKept(m0, m1, m2, m, a, u, Pages(sz), ppn);
  }

  lemma HeldMoved(m: Mem, procs: seq<Space>, held: seq<Proc>, i: nat, u: nat, sz: nat)
    requires HeldOk(m, procs, held) && i < |procs|
    ensures HeldOk(m, procs[i := Space(u, procs[i].k, sz)], held[i := held[i].(u := u)])
  {
    var ps, hs := procs[i := Space(u, procs[i].k, sz)], held[i := held[i].(u := u)];
    assert Backs(m, held[i], procs[i]);
    forall j, k | 0 <= j < k < |hs| ensures hs[j].Pages() !! hs[k].Pages() {
      assert held[j].Pages() !! held[k].Pages();
      assert hs[j].Pages() == held[j].Pages() && hs[k].Pages() == held[k].Pages();
    }
  }

  lemma ImageKept(m0: Mem, m1: Mem, m2: Mem, m: Mem, a: Space, u: nat, n: nat, ppn: nat)
    requires Inv(m0) && UserTable(m0, u, n, {TRAMPOLINE, TRAPFRAME}) && u != a.u && u != a.k
    requires Shadowed(m0, m1, u, a.k, 0, n) && Grew(m0, m1, a.k)
    requires Mapped(m1, m2, u, USYSCALL, 1, ppn, PTE_R + PTE_U) && Grew(m1, m2, u) && MemoryReturned(m2, m, a.u)
    ensures MemoryKept(m0, m, u, n)
  {
    hide Lookup, FreeOk, DataOk, TreesOk, WithoutU, MakePte;
    forall v | 0 <= v < n
      ensures Lookup(m, u, v) == Lookup(m0, u, v) && Ppn(Lookup(m0, u, v)) < |m0.ram|
      ensures m.ram[Ppn(Lookup(m0, u, v))] == m0.ram[Ppn(Lookup(m0, u, v))]
    {
      OwnedPage(m0, u, v);
      assert Lookup(m1, u, v) == Lookup(m0, u, v);
      assert Lookup(m2, u, v) == Lookup(m1, u, v);
    }
  }

  lemma ExecDone(m0: Mem, m2: Mem, m: Mem, procs: seq<Space>, i: nat, u: nat, sz: nat)
    requires SystemOk(m0, procs) && i < |procs| && Inv(m) && Shape(m2)
    requires forall j :: 0 <= j < |procs| ==> procs[j].u != u && procs[j].k != u
    requires forall j :: 0 <= j < |procs| && j != i ==> Untouched(m0, m2, procs[j])
    requires SpaceOk(m2, Space(u, procs[i].k, sz)) && HalfKept(m0, m2, procs[i].k) && MemoryReturned(m2, m, procs[i].u)
    ensures SystemOk(m, procs[i := Space(u, procs[i].k, sz)]) && KernelHalfKept(m0, m, procs)
            && OthersUntouched(m0, m, procs, i)
  {
    hide Lookup, SpaceOk, FreeOk, DataOk, TreesOk, Untouched, HalfKept, MemoryReturned;
    var a, b := procs[i], Space(u, procs[i].k, sz);
    assert SpaceOk(m0, a) && a.u != a.k by { DifferentTables(m0, a); }
    forall j | 0 <= j < |procs| && j != i
      ensures Untouched(m0, m, procs[j]) && SpaceOk(m, procs[j]) && HalfKept(m0, m, procs[j].k)
    {
      PairApart(procs, i, j);
      ReturnedApart(m2, m, a.u, procs[j]);
      RootsOf(m0, procs[j]);
      UntouchedTrans(m0, m2, m, procs[j]);
      SpaceKept(m0, m, procs[j]);
      HalfUntouched(m0, m, procs[j]);
    }
    RootsOf(m2, b);
    ReturnedApart(m2, m, a.u, b);
    SpaceKept(m2, m, b);
    HalfUntouched(m2, m, b);
    HalfTrans(m0, m2, m, a.k);
    ApartNow(procs, i, b);
  }

  lemma DifferentTables(m: Mem, a: Space)
    requires SpaceOk(m, a)
    ensures a.u != a.k
  {
  }

  lemma HalfTrans(m0: Mem, m1: Mem, m2: Mem, k: nat)
    requires Shape(m0) && Shape(m1) && Shape(m2) && HalfKept(m0, m1, k) && HalfKept(m1, m2, k)
    ensures HalfKept(m0, m2, k)
  {
    hide Lookup;
  }

  lemma ApartNow(procs: seq<Space>, i: nat, b: Space)
    requires i < |procs| && b.k == procs[i].k
    requires forall i, j :: 0 <= i < j < |procs| ==> Apart(procs[i], procs[j])
    requires forall j :: 0 <= j < |procs| ==> procs[j].u != b.u && procs[j].k != b.u
    ensures var now := procs[i := b]; forall i, j :: 0 <= i < j < |now| ==> Apart(now[i], now[j])
  {
    var now := procs[i := b];
    forall p, q | 0 <= p < q < |now| ensures Apart(now[p], now[q]) {
      assert Apart(procs[p], procs[q]);
    }
  }

  // A failure after the shadow was rewritten leaves it pointing at freed
  // memory: it agrees with the user table only if that maps no memory at all.
  lemma LateFailure(m0: Mem, m1: Mem, m2: Mem, m: Mem, procs: seq<Space>, i: nat, u: nat, sz: nat, ppn: nat)
    requires SystemOk(m0, procs) && i < |procs| && Inv(m) && 0 < Pages(sz)
    requires UserTable(m0, u, Pages(sz), {TRAMPOLINE, TRAPFRAME})
    requires forall j :: 0 <= j < |procs| ==> procs[j].u != u && procs[j].k != u
    requires Shadowed(m0, m1, u, procs[i].k, 0, Pages(sz)) && Grew(m0, m1, procs[i].k)
    requires Mapped(m1, m2, u, USYSCALL, 0, ppn, PTE_R + PTE_U) && Grew(m1, m2, u) && MemoryReturned(m2, m, u)
    ensures SystemOk(m, procs) <==> Pages(procs[i].sz) == 0
    ensures Agrees(m, procs[i].u, procs[i].k, Pages(procs[i].sz)) <==> Pages(procs[i].sz) == 0
  {
    hide Lookup, SpaceOk, FreeOk, DataOk, TreesOk, Untouched, Shadowed, Grew, Mapped, MemoryReturned, UserTable;
    var a := procs[i];
    RootsOf(m0, a);
    assert IsRoot(m0, u) by { RootOfTable(m0, u, Pages(sz)); }
    forall j | 0 <= j < |procs| && j != i ensures SpaceOk(m, procs[j]) {
      PairApart(procs, i, j);
      RootsOf(m0, procs[j]);
      ExecApart(m0, m1, m2, a, u, Pages(sz), 0, ppn, procs[j]);
      ReturnedApart(m2, m, u, procs[j]);
      UntouchedTrans(m0, m2, m, procs[j]);
      SpaceKept(m0, m, procs[j]);
    }
    LateShadow(m0, m1, m2, m, a, u, Pages(sz), ppn);
  }

  // The process itself still finds its memory, and the others are untouched.
  lemma LateKept(m0: Mem, m1: Mem, m2: Mem, m: Mem, procs: seq<Space>, held: seq<Proc>, i: nat, u: nat, sz: nat,
                 ppn: nat)
    requires SystemOk(m0, procs) && HeldOk(m0, procs, held) && i < |procs| && Inv(m)
    requires UserTable(m0, u, Pages(sz), {TRAMPOLINE, TRAPFRAME})
    requires forall j :: 0 <= j < |procs| ==> procs[j].u != u && procs[j].k != u
    requires Shadowed(m0, m1, u, procs[i].k, 0, Pages(sz)) && Grew(m0, m1, procs[i].k)
    requires Mapped(m1, m2, u, USYSCALL, 0, ppn, PTE_R + PTE_U) && Grew(m1, m2, u) && MemoryReturned(m2, m, u)
    ensures HeldOk(m, procs, held) && TableFree(m0, m, u)
    ensures OthersUntouched(m0, m, procs, i) && PrivateKept(m0, m) && MemoryKept(m0, m, procs[i].u, Pages(procs[i].sz))
  {
    hide Lookup, SpaceOk, FreeOk, DataOk, TreesOk, Untouched, Shadowed, Grew, Mapped, MemoryReturned, UserTable,
         HeldOk, PrivateKept,
         TableFree, MemoryKept;
    var a := procs[i];
    RootsOf(m0, a);
    DifferentTables(m0, a);
    assert IsRoot(m0, u) by { RootOfTable(m0, u, Pages(sz)); }
    GrewTwice(m0, m1, m2, a.k, u);
    PrivateReturned(m2, m, u);
    PrivateTrans(m0, m2, m);
    HeldKept(m0, m, procs, held);
    ReturnedFree(m0, m2, m, u);
    forall j | 0 <= j < |procs| && j != i ensures Untouched(m0, m, procs[j]) {
      PairApart(procs, i, j);
      RootsOf(m0, procs[j]);
      ExecApart(m0, m1, m2, a, u, Pages(sz), 0, ppn, procs[j]);
      ReturnedApart(m2, m, u, procs[j]);
      UntouchedTrans(m0, m2, m, procs[j]);
    }
    var b := a.(k := a.u);
    ExecApart(m0, m1, m2, a, u, Pages(sz), 0, ppn, b);
    ReturnedApart(m2, m, u, b);
    UntouchedTrans(m0, m2, m, b);
    UntouchedMemory(m0, m, a);
  }

  lemma GrewTwice(m0: Mem, m1: Mem, m2: Mem, k: nat, u: nat)
    requires Grew(m0, m1, k) && Grew(m1, m2, u)
    ensures PrivateKept(m0, m2) && |m2.role| == |m0.role|
    ensures forall p :: 0 <= p < |m2.role| && !m0.role[p].Free? ==> m2.role[p] == m0.role[p]
  {
    hide Lookup;
  }

  lemma RootOfTable(m: Mem, u: nat, n: nat)
    requires UserTable(m, u, n, {TRAMPOLINE, TRAPFRAME})
    ensures IsRoot(m, u)
  {
  }

  lemma LateShadow(m0: Mem, m1: Mem, m2: Mem, m: Mem, a: Space, u: nat, n: nat, ppn: nat)
    requires Inv(m0) && Inv(m) && SpaceOk(m0, a) && u != a.u && u != a.k && 0 < n && IsRoot(m0, u)
    requires UserTable(m0, u, n, {TRAMPOLINE, TRAPFRAME})
    requires Shadowed(m0, m1, u, a.k, 0, n) && Grew(m0, m1, a.k)
    requires Mapped(m1, m2, u, USYSCALL, 0, ppn, PTE_R + PTE_U) && Grew(m1, m2, u) && MemoryReturned(m2, m, u)
    ensures SpaceOk(m, a) <==> Pages(a.sz) == 0
    ensures Agrees(m, a.u, a.k, Pages(a.sz)) <==> Pages(a.sz) == 0
  {
    hide Lookup, FreeOk, DataOk, TreesOk, Owned, WithoutU;
    assert IsRoot(m, a.u) && IsRoot(m, a.k);
    forall v | 0 <= v < VPNS
      ensures Lookup(m, a.u, v) == Lookup(m0, a.u, v)
      ensures Lookup(m, a.k, v) == if v < n then WithoutU(Lookup(m0, u, v)) else Lookup(m0, a.k, v)
    {
    }
    forall v: nat ensures Owned(m, a.u, v) == Owned(m0, a.u, v) { LateOwned(m0, m1, m2, m, a, u, v); }
    if 0 < Pages(a.sz) {
      Dangling(m0, a.u, u);
    }
  }

  lemma LateOwned(m0: Mem, m1: Mem, m2: Mem, m: Mem, a: Space, u: nat, v: nat)
    requires Grew(m0, m1, a.k) && Grew(m1, m2, u) && MemoryReturned(m2, m, u) && u != a.u
    ensures Owned(m, a.u, v) == Owned(m0, a.u, v)
  {
    hide Lookup;
    OwnedSame(m0, m1, a.k, a.u, v);
    OwnedSame(m1, m2, u, a.u, v);
    if Owned(m2, a.u, v) {
      var p :| 0 <= p < |m2.role| && m2.role[p] == Data(a.u, v);
      assert m.role[p] == Data(a.u, v);
    }
  }

  // Two trees that own memory at page 0 map different pages there.
  lemma Dangling(m: Mem, u: nat, u': nat)
    requires Inv(m) && Owned(m, u, 0) && Owned(m, u', 0) && u != u'
    ensures IsRoot(m, u) && IsRoot(m, u') && WithoutU(Lookup(m, u', 0)) != WithoutU(Lookup(m, u, 0))
  {
    hide Lookup, WithoutU, Ppn;
    OwnedPage(m, u, 0);
    OwnedPage(m, u', 0);
    WithoutUKeeps(Lookup(m, u, 0));
    WithoutUKeeps(Lookup(m, u', 0));
  }

  // ---- runs from boot ----

  // A few pages from 0 on need the nodes on the path to 0 only.
  lemma LowPaths(n: nat)
    requires 0 < n <= ENTRIES
    ensures Paths(0, n) == Path(0) && |Path(0) - Path(TRAMPOLINE)| == 2
  {
    hide Paths, Path;
    PathsAre(0, n);
    PathIs(0);
    PathIs(TRAMPOLINE);
    assert (n - 1) / ENTRIES == 0;
    assert Mids(0, 1) == {0};
    assert Path(0) - Path(TRAMPOLINE) == {TOPS, 0};
  }

  lemma NoneMissing(m: Mem, r: nat, n: nat)
    requires 0 < n <= ENTRIES && Path(0) <= Nodes(m, r)
    ensures Tables(m, r, 0, n) == 0
  {
    hide Paths, Path, Nodes;
    LowPaths(n);
    assert Paths(0, n) - Nodes(m, r) == {};
  }

  // The late failure of exec() is reached: whatever memory contains at boot, if
  // the allocator gets enough of it, the first process can call exec() for an
  // image of one page and the two of its stack, with arguments that do not fit,
  // and its shadow no longer agrees.
  method LateFailureReached(lo: nat, ram: seq<Page>, etext: nat, trampoline: nat, code: Page) returns (s: System)
    requires 0 < lo && lo + APAGES + 12 <= |ram| && (forall p :: 0 <= p < |ram| ==> |ram[p]| == ENTRIES)
             && |code| == ENTRIES
    requires KERNBASE < etext < PHYSTOP
    ensures fresh(s) && |s.procs| == 1 && s.procs[0].sz == PGSIZE && Inv(s.vm.m)
    ensures !s.Valid() && !Agrees(s.vm.m, s.procs[0].u, s.procs[0].k, Pages(PGSIZE))
  {
    hide Lookup, SpaceOk, FreeOk, DataOk, TreesOk, HeldOk, UserTable, MemoryKept, Untouched, PrivateKept, KernelSees,
         FirstPage,
         KernelHalfKept, TableFree, Agrees, Nodes, Path, Paths, Tables, Tight;
    var vm := new Memory(lo, ram);
    s := new System(vm);
    var halt := s.Userinit(0, |ram|, etext, trampoline, code);
    LowPaths(3);
    assert Pages(3 * PGSIZE) == 3 && Pages(PGSIZE) == 1;
    ghost var m := vm.m;
    var ok, u := s.LoadImage(0, trampoline, 3 * PGSIZE);
    NodesUntouched(m, vm.m, s.procs[0]);
    NoneMissing(vm.m, s.procs[0].k, 3);
    var late;
    ok, late, halt := s.Exec(0, u, 3 * PGSIZE, false);
  }

  // Shrinking leaves a stale entry: the first process gives up its only page.
  method StaleReached(lo: nat, ram: seq<Page>, etext: nat, trampoline: nat, code: Page) returns (s: System)
    requires KERNBASE <= lo && lo + APAGES + 4 <= |ram| && (forall p :: 0 <= p < |ram| ==> |ram[p]| == ENTRIES)
             && |code| == ENTRIES
    requires KERNBASE < etext < PHYSTOP
    ensures fresh(s) && s.Valid() && |s.procs| == 1 && s.procs[0].sz == 0 && !Tight(s.vm.m, s.procs[0])
  {
    hide Lookup, SpaceOk, FreeOk, DataOk, TreesOk, HeldOk, MemoryKept, Untouched, PrivateKept, KernelSees, FirstPage,
         KernelHalfKept, Nodes, Path, Tight, GrowsExactly;
    var vm := new Memory(lo, ram);
    s := new System(vm);
    var halt := s.Userinit(0, |ram|, etext, trampoline, code);
    assert Pages(PGSIZE) == 1 && Pages(0) == 0;
    var r;
    r, halt := s.Growproc(0, 0 - 4096);
  }

  // ---- the number of free pages ----

  function Members(s: seq<nat>): set<nat> {
    set x | x in s
  }

  lemma {:induction false} SeqSize(s: seq<nat>)
    requires forall i, j :: 0 <= i < j < |s| ==> s[i] != s[j]
    ensures |Members(s)| == |s|
  {
    if s != [] {
      var t, x := s[..|s| - 1], s[|s| - 1];
      SeqSize(t);
      assert s == t + [x];
      assert Members(s) == Members(t) + {x};
    }
  }

  lemma FreePages(m: Mem)
    requires Inv(m)
    ensures |m.free| == |Members(m.free)| && |m.free| <= |m.ram| - m.lo
    ensures forall p :: p in m.free <==> 0 <= p < |m.role| && m.role[p].Free?
  {
    hide TreesOk, DataOk;
    SeqSize(m.free);
    MidsSize(m.lo, |m.ram|);
    assert Members(m.free) <= Mids(m.lo, |m.ram|);
    SubsetSize(Members(m.free), Mids(m.lo, |m.ram|));
  }

  // Freeing a process makes pages free and takes none.
  lemma FreeMore(m: Mem, m': Mem, roots: set<nat>, pages: set<nat>)
    requires Inv(m) && Inv(m') && Gone(m, m', roots, pages)
    ensures |m.free| <= |m'.free|
  {
    FreePages(m);
    FreePages(m');
    hide Inv, Lookup;
    assert Members(m.free) <= Members(m'.free);
    SubsetSize(Members(m.free), Members(m'.free));
  }

  // The pages behind the first take no tables, either.
  lemma NoneMissingAbove(m: Mem, r: nat, g: nat)
    requires 0 < g && g + 1 <= ENTRIES && Path(0) <= Nodes(m, r)
    ensures Tables(m, r, 1, g) == 0
  {
    hide Paths, Path, Nodes;
    PathsAre(1, g);
    PathIs(0);
    assert g / ENTRIES == 0;
    assert Mids(0, 1) == {0};
    assert Paths(1, g) - Nodes(m, r) == {};
  }

  // allocproc() panics in a slot that was in use: fork a child and free it, let
  // the first process take memory until 6 pages are left, and fork again.
  method UsedSlotPanics(lo: nat, ram: seq<Page>, etext: nat, trampoline: nat, code: Page) returns (panics: bool)
    requires 0 < lo && |ram| == lo + 2 * (APAGES + 4) + 6 && (forall p :: 0 <= p < |ram| ==> |ram[p]| == ENTRIES)
             && |code| == ENTRIES
    requires KERNBASE < etext < PHYSTOP
    ensures panics
  {
    hide Lookup, SpaceOk, FreeOk, DataOk, TreesOk, HeldOk, MemoryKept, Untouched, PrivateKept, KernelSees, FirstPage,
         KernelHalfKept, Nodes, Path, Paths, Tables, Tight, Gone, IsCopy, Undone, KernelNodes;
    var vm := new Memory(lo, ram);
    var s := new System(vm);
    var halt := s.Userinit(0, |ram|, etext, trampoline, code);
    ghost var m1, a := vm.m, s.procs[0];
    assert Pages(PGSIZE) == 1;
    ChildNeeds();
    var ok;
    ok, halt := s.Fork(0, 1, |ram|, etext, trampoline);
    ghost var m2, p := vm.m, s.held[1];
    NodesUntouched(m1, m2, a);
    SamePages(m1, m2);
    assert s.procs[0] == a;
    s.Free(1);
    ghost var m3 := vm.m;
    FreeMore(m2, m3, p.Roots(), p.Pages());
    NodesUntouched(m2, m3, a);
    SamePagesGone(m2, m3, p.Roots(), p.Pages());
    FreePages(m3);
    var g := |vm.m.free| - 6;
    if g > 0 {
      NoneMissingAbove(m3, a.u, g);
      NoneMissingAbove(m3, a.k, g);
      assert Pages(PGSIZE + g * PGSIZE) == 1 + g;
      var r;
      r, halt := s.Growproc(0, g * PGSIZE);
    }
    assert |vm.m.free| == 6;
    ok, panics := s.Fork(0, 1, 0, etext, trampoline);
  }

  lemma ChildNeeds()
    ensures |Paths(0, 1) - Path(TRAMPOLINE)| == 2 && |Paths(0, 1) - KernelNodes()| == 1
  {
    hide Paths, Path;
    LowPaths(1);
    PathIs(0);
    assert Path(0) - KernelNodes() == {0};
  }

  lemma SamePages(m: Mem, m': Mem)
    requires PrivateKept(m, m')
    ensures m'.lo == m.lo && |m'.ram| == |m.ram|
  {
  }

  lemma SamePagesGone(m: Mem, m': Mem, roots: set<nat>, pages: set<nat>)
    requires Gone(m, m', roots, pages)
    ensures m'.lo == m.lo && |m'.ram| == |m.ram|
  {
    hide Lookup;
  }
}
