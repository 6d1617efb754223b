// The address space of a process: its user page table, and the kernel page
// table that shadows the user part so that the kernel can read user memory
// directly (kernel/proc.c, kernel/exec.c, u2kvmcopy() of kernel/vm.c,
// kernel/vmcopyin.c).
module AddressSpace {
  import opened PageTable
  import opened Vm

  const TRAMPOLINE: nat := MAXVPN - 1
  const TRAPFRAME: nat := MAXVPN - 2
  const USYSCALL: nat := MAXVPN - 3
  const FIXED: set<nat> := {TRAMPOLINE, TRAPFRAME, USYSCALL}
  const USER_TOP: nat := 0x8000_0000
  const USER_TOP_VPN: nat := USER_TOP / PGSIZE

  // ---- proc_pagetable() and proc_freepagetable() ----

  // r is a new tree that maps the trampoline and the trapframe and nothing else.
  ghost predicate NewUserTable(m: Mem, m': Mem, r: nat, trampoline: nat, trapframe: nat) {
    && Shape(m) && Shape(m') && m'.lo == m.lo && |m'.ram| == |m.ram| && !IsRoot(m, r) && IsRoot(m', r)
    && (forall v :: 0 <= v < VPNS ==>
          Lookup(m', r, v) == if v == TRAMPOLINE then MakePte(trampoline, PTE_R + PTE_X)
                              else if v == TRAPFRAME then MakePte(trapframe, PTE_R + PTE_W) else 0)
    && KeptOthers(m, m', r)
    && (forall p :: 0 <= p < |m.role| ==>
          m'.role[p] == m.role[p] || (m.role[p] == Free && m'.role[p].Node? && m'.role[p].root == r))
  }

  // Trees other than r translate as before, and memory has its contents.
  ghost predicate KeptOthers(m: Mem, m': Mem, r: nat)
    requires Shape(m) && Shape(m') && |m'.ram| == |m.ram|
  {
    && (forall q :: q != r ==> (IsRoot(m', q) <==> IsRoot(m, q)))
    && (forall q, v :: q != r && IsRoot(m', q) && IsRoot(m, q) && 0 <= v < VPNS ==> Lookup(m', q, v) == Lookup(m, q, v))
    && (forall p :: 0 <= p < |m.role| && (m.role[p].Data? || m.role[p].Other?) && m'.role[p] == m.role[p] ==>
          m'.ram[p] == m.ram[p])
  }

  // Every page is used as before, and every tree translates as before.
  ghost predicate Undone(m: Mem, m': Mem) {
    && Shape(m) && Shape(m') && m'.lo == m.lo && |m'.ram| == |m.ram| && m'.role == m.role && SameLookups(m, m')
    && (forall p :: 0 <= p < |m.role| && (m.role[p].Data? || m.role[p].Other?) ==> m'.ram[p] == m.ram[p])
  }

  method ProcPagetable(vm: Memory, trampoline: nat, trapframe: nat) returns (ok: bool, r: nat)
    requires Inv(vm.m)
    modifies vm
    ensures Inv(vm.m)
    ensures if ok then NewUserTable(old(vm.m), vm.m, r, trampoline, trapframe) else Undone(old(vm.m), vm.m)
    ensures ok <==> |old(vm.m).free| >= 3
    ensures ok ==> |old(vm.m).free| == |vm.m.free| + 3 && Nodes(vm.m, r) == Path(TRAMPOLINE)
  {
    hide FreeOk, DataOk, TreesOk, Lookup, NewTree, Mapped, Grew, NoLeaves, Unmapped, Released, MemoryReturned,
         NewUserTable, Undone, Owned, Building, Nodes, Path;
    ghost var m0 := vm.m;
    ok, r := vm.Uvmcreate();
    if !ok {
      UndoneRefl(m0);
      return;
    }
    BuildingStarts(m0, vm.m, r);
    TopPath();
    ok := Install(vm, r, TRAMPOLINE, trampoline, PTE_R + PTE_X, m0, map[]);
    if !ok {
      BuildingEmpty(m0, vm.m, r);
      ghost var m1 := vm.m;
      vm.Uvmfree(r, 0);
      BuildingUndone(m0, m1, vm.m, r, map[]);
      return;
    }
    ghost var t := map[TRAMPOLINE := MakePte(trampoline, PTE_R + PTE_X)];
    assert map[][TRAMPOLINE := MakePte(trampoline, PTE_R + PTE_X)] == t;
    ok := Install(vm, r, TRAPFRAME, trapframe, PTE_R + PTE_W, m0, t);
    assert ok;  // beside the trampoline, in a table that is there
    BuildingDone(m0, vm.m, r, trampoline, trapframe);
  }

  // The trampoline, the trapframe and USYSCALL share their tables.
  lemma TopPath()
    ensures |Path(TRAMPOLINE) - {}| == 2 && Path(TRAPFRAME) == Path(TRAMPOLINE) == Path(USYSCALL)
    ensures |Path(TRAPFRAME) - ({} + Path(TRAMPOLINE))| == 0
            && {} + Path(TRAMPOLINE) + Path(TRAPFRAME) == Path(TRAMPOLINE)
  {
    var a, b := Spot(1, Above(1, TRAMPOLINE)), Spot(0, Above(0, TRAMPOLINE));
    assert Path(TRAMPOLINE) - {} == {a, b} && a != b;
    assert Path(TRAPFRAME) - ({} + Path(TRAMPOLINE)) == {};
  }

  // r is a new tree that translates as t says; so far only nodes were taken.
  ghost predicate Building(m: Mem, m': Mem, r: nat, t: map<nat, nat>) {
    && Shape(m) && Shape(m') && m'.lo == m.lo && |m'.ram| == |m.ram| && IsRoot(m', r) && !IsRoot(m, r)
    && (forall v :: 0 <= v < VPNS ==> Lookup(m', r, v) == if v in t then t[v] else 0)
    && KeptOthers(m, m', r)
    && (forall p :: 0 <= p < |m.role| ==>
          m'.role[p] == m.role[p] || (m.role[p] == Free && m'.role[p].Node? && m'.role[p].root == r))
    && (forall p :: 0 <= p < |m.role| && m.role[p].Node? ==> m.role[p].root != r)
  }

  // mappages() of one page that the tree does not own.
  method Install(vm: Memory, r: nat, v: nat, ppn: nat, perm: nat, ghost m0: Mem, ghost t: map<nat, nat>)
    returns (ok: bool)
    requires Inv(m0) && Inv(vm.m) && Building(m0, vm.m, r, t) && v < MAXVPN && v !in t && perm < 1024 && Leafy(perm)
    modifies vm
    ensures Inv(vm.m) && Building(m0, vm.m, r, if ok then t[v := MakePte(ppn, perm)] else t)
    ensures ok <==> |old(vm.m).free| >= |Path(v) - Nodes(old(vm.m), r)|
    ensures ok ==> |old(vm.m).free| == |vm.m.free| + |Path(v) - Nodes(old(vm.m), r)|
    ensures ok ==> Nodes(vm.m, r) == Nodes(old(vm.m), r) + Path(v)
  {
    hide FreeOk, DataOk, TreesOk, Lookup, Mapped, Grew, MakePte, Nodes, Path;
    ghost var m1 := vm.m;
    OneTable(m1, r, v);
    ghost var k;
    ok, k := vm.Mappages(r, v, 1, ppn, perm);
    BuildingMore(m0, m1, vm.m, r, t, v, k, ppn, perm);
  }

  lemma UndoneRefl(m: Mem)
    requires Shape(m)
    ensures Undone(m, m)
  {
    SameLookupsRefl(m);
  }

  lemma BuildingStarts(m0: Mem, m: Mem, r: nat)
    requires Inv(m0) && NewTree(m0, m, r) && Inv(m)
    ensures Building(m0, m, r, map[]) && Nodes(m, r) == {}
  {
    hide Lookup, FreeOk, DataOk, EntryOk;
    forall v | 0 <= v < VPNS ensures Lookup(m, r, v) == 0 { AbsentIsZero(m, r, v); }
    forall p | 0 <= p < |m0.role| && m0.role[p].Node? ensures m0.role[p].root != r { assert NodeOk(m0, p); }
  }

  lemma BuildingMore(m0: Mem, m1: Mem, m: Mem, r: nat, t: map<nat, nat>, v: nat, k: nat, ppn: nat, perm: nat)
    requires Building(m0, m1, r, t) && Inv(m) && Grew(m1, m, r) && perm < 1024 && k <= 1 && v !in t
    requires Mapped(m1, m, r, v, k, ppn, perm)
    ensures Building(m0, m, r, if k == 1 then t[v := MakePte(ppn, perm)] else t)
  {
    hide Lookup, FreeOk, DataOk, TreesOk, MakePte;
  }

  lemma BuildingEmpty(m0: Mem, m: Mem, r: nat)
    requires Building(m0, m, r, map[])
    ensures IsRoot(m, r) && forall v :: 0 <= v < VPNS ==> (Present(Lookup(m, r, v)) <==> v < Pages(0))
  {
    hide Lookup;
  }

  lemma BuildingUndone(m0: Mem, m1: Mem, m: Mem, r: nat, t: map<nat, nat>)
    requires Inv(m0) && Building(m0, m1, r, t) && MemoryReturned(m1, m, r)
    ensures Undone(m0, m)
  {
    hide Lookup, FreeOk, TreesOk;
  }

  lemma BuildingDone(m0: Mem, m: Mem, r: nat, trampoline: nat, trapframe: nat)
    requires Building(m0, m, r,
                      map[TRAMPOLINE := MakePte(trampoline, PTE_R + PTE_X)]
                      [TRAPFRAME := MakePte(trapframe, PTE_R + PTE_W)])
    ensures NewUserTable(m0, m, r, trampoline, trapframe)
  {
    hide Lookup, MakePte;
  }

  // The tree maps what it owns below page number n, and the given other pages.
  ghost predicate UserTable(m: Mem, r: nat, n: nat, others: set<nat>) {
    && Shape(m) && IsRoot(m, r) && n <= USYSCALL
    && (forall v :: 0 <= v < VPNS ==> (Present(Lookup(m, r, v)) <==> v < n || v in others))
    && (forall v :: 0 <= v < n ==> Owned(m, r, v))
    && (forall v :: v in others ==> n <= v < VPNS && !Owned(m, r, v))
  }

  // Freeing a user table returns every node and every page it owns; no leaf is
  // left for freewalk() to panic on.
  method ProcFreepagetable(vm: Memory, r: nat, sz: nat)
    requires Inv(vm.m) && UserTable(vm.m, r, Pages(sz), {TRAMPOLINE, TRAPFRAME})
    modifies vm
    ensures Inv(vm.m) && MemoryReturned(old(vm.m), vm.m, r)
  {
    hide FreeOk, DataOk, TreesOk, Lookup, Unmapped, Released, MemoryReturned, Owned;
    ghost var m0 := vm.m;
    vm.Uvmunmap(r, TRAMPOLINE, 1, false);
    ghost var m1 := vm.m;
    OneLess(m0, m1, r, Pages(sz), {TRAMPOLINE, TRAPFRAME}, TRAMPOLINE);
    assert {TRAMPOLINE, TRAPFRAME} - {TRAMPOLINE} == {TRAPFRAME};
    vm.Uvmunmap(r, TRAPFRAME, 1, false);
    ghost var m2 := vm.m;
    OneLess(m1, m2, r, Pages(sz), {TRAPFRAME}, TRAPFRAME);
    assert {TRAPFRAME} - {TRAPFRAME} == {};
    vm.Uvmfree(r, sz);
    ReturnedLess(m1, m2, vm.m, r, TRAPFRAME);
    ReturnedLess(m0, m1, vm.m, r, TRAMPOLINE);
  }

  lemma OneLess(m: Mem, m': Mem, r: nat, n: nat, others: set<nat>, v: nat)
    requires UserTable(m, r, n, others) && v in others
    requires Unmapped(m, m', r, v, 1) && Released(m, m', r, v, v + 1)
    ensures UserTable(m', r, n, others - {v}) && !Owned(m, r, v)
  {
    hide Lookup;
    assert m'.role == m.role;
    forall w: nat ensures Owned(m', r, w) == Owned(m, r, w) { }
    forall w | 0 <= w < VPNS ensures Lookup(m', r, w) == if w == v then 0 else Lookup(m, r, w) { }
  }

  lemma ReturnedLess(m: Mem, m': Mem, m'': Mem, r: nat, v: nat)
    requires Unmapped(m, m', r, v, 1) && Released(m, m', r, v, v + 1) && !Owned(m, r, v) && MemoryReturned(m', m'', r)
    ensures MemoryReturned(m, m'', r)
  {
    hide Lookup;
    assert m'.role == m.role;
  }

  // ---- uvmcopy() ----

  // Copy the memory of tree from into tree to, page by page. A failure leaves
  // every translation as it was and keeps no memory but table pages.
  method Uvmcopy(vm: Memory, from: nat, to: nat, sz: nat) returns (ok: bool)
    requires Inv(vm.m) && IsRoot(vm.m, from) && IsRoot(vm.m, to) && from != to && Pages(sz) <= MAXVPN
    requires forall v :: 0 <= v < Pages(sz) ==> Owned(vm.m, from, v) && !Present(Lookup(vm.m, to, v))
    modifies vm
    ensures Inv(vm.m)
    ensures if ok then Allocated(old(vm.m), vm.m, to, 0, Pages(sz), CopyOf(old(vm.m), from))
            else SameLookups(old(vm.m), vm.m) && Grew(old(vm.m), vm.m, to)
    ensures ok <==> |old(vm.m).free| >= Pages(sz) + Tables(old(vm.m), to, 0, Pages(sz))
    ensures ok ==> |old(vm.m).free| == |vm.m.free| + Pages(sz) + Tables(old(vm.m), to, 0, Pages(sz))
  {
    hide FreeOk, DataOk, TreesOk, Lookup, Allocated, SameLookups, Grew, Unmapped, Released, Owned, Nodes, Path;
    ghost var m0 := vm.m;
    ghost var img := CopyOf(m0, from);
    AllocatedNothing(m0, to, 0, img);
    var i := 0;
    while i * PGSIZE < sz
      invariant 0 <= i <= Pages(sz) && Inv(vm.m) && IsRoot(vm.m, to) && IsRoot(vm.m, from)
      invariant Allocated(m0, vm.m, to, 0, i, img)
      invariant Nodes(vm.m, to) == Nodes(m0, to) + Paths(0, i) && |m0.free| == |vm.m.free| + i + Tables(m0, to, 0, i)
    {
      AllocatedNext(m0, vm.m, to, 0, i, img);
      TablesNext(m0, vm.m, to, 0, i, Pages(sz));
      CopySource(m0, vm.m, from, to, i, img);
      var got, pt := vm.Walk(from, i, false);
      PresentHasTable(vm.m, from, i);
      LookupIs(vm.m, from, i);
      var pte := vm.m.ram[pt][Index(0, i)];
      ghost var m1 := vm.m;
      ok := vm.AllocPage(to, i, Flags(pte), vm.m.ram[Ppn(pte)], img);
      if !ok {
        AllocatedSame(m0, m1, vm.m, to, 0, i, img);
        UndoCopy(vm, to, i, m0, img);
        return;
      }
      AllocatedMore(m0, m1, vm.m, to, 0, i, img);
      AllocatedRoot(m0, vm.m, to, 0, i + 1, img);
      AllocatedOther(m0, vm.m, to, i + 1, img, from);
      i := i + 1;
    }
    ok := true;
  }

  // The error exit of uvmcopy().
  method UndoCopy(vm: Memory, to: nat, i: nat, ghost m0: Mem, ghost img: Image)
    requires Inv(m0) && Inv(vm.m) && IsRoot(m0, to) && i <= MAXVPN && Allocated(m0, vm.m, to, 0, i, img)
    requires forall v :: 0 <= v < i ==> !Present(Lookup(m0, to, v))
    modifies vm
    ensures Inv(vm.m) && SameLookups(m0, vm.m) && Grew(m0, vm.m, to)
  {
    hide FreeOk, DataOk, TreesOk, Lookup, Allocated, SameLookups, Grew, Unmapped, Released, Owned;
    AllocatedRoot(m0, vm.m, to, 0, i, img);
    ghost var m2 := vm.m;
    forall v | 0 <= v < i ensures Present(Lookup(m2, to, v)) && Owned(m2, to, v) {
      AllocatedOwned(m0, m2, to, 0, i, img, v);
      OwnedPage(m2, to, v);
    }
    vm.Uvmunmap(to, 0, i, true);
    forall v | 0 <= v < i ensures Lookup(m0, to, v) == 0 { AbsentIsZero(m0, to, v); }
    if 0 < i {
      RolledBack(m0, m2, vm.m, to, 0, i, img);
    } else {
      NothingUnmapped(m0, m2, vm.m, to, img);
    }
  }

  lemma AllocatedOther(m0: Mem, m: Mem, r: nat, n: nat, img: Image, q: nat)
    requires Allocated(m0, m, r, 0, n, img) && IsRoot(m0, q)
    ensures IsRoot(m, q)
  {
    hide Lookup, FreshAt;
  }

  lemma NothingUnmapped(m0: Mem, m2: Mem, m: Mem, r: nat, img: Image)
    requires Allocated(m0, m2, r, 0, 0, img) && Unmapped(m2, m, r, 0, 0) && Released(m2, m, r, 0, 0)
    ensures SameLookups(m0, m) && Grew(m0, m, r)
  {
    hide Lookup, FreshAt;
  }

  lemma CopySource(m0: Mem, m: Mem, from: nat, to: nat, v: nat, img: Image)
    requires Inv(m0) && Owned(m0, from, v) && img == CopyOf(m0, from) && from != to && Shape(m)
    requires Allocated(m0, m, to, 0, v, img) && IsRoot(m, from)
    ensures img.Ok(v) && v < VPNS && Present(Lookup(m, from, v)) && Ppn(Lookup(m, from, v)) < |m.ram|
    ensures img.Perm(v) == Flags(Lookup(m, from, v)) && img.Fill(v) == m.ram[Ppn(Lookup(m, from, v))]
  {
    hide Lookup, FreshAt, FreeOk, TreesOk;
    OwnedPage(m0, from, v);
    PresentIsLeafy(m0, from, v);
    assert Lookup(m, from, v) == Lookup(m0, from, v);
  }

  // ---- the shadow ----

  // flags & ~PTE_U
  function WithoutU(pte: nat): nat {
    if pte / 16 % 2 == 1 then pte - 16 else pte
  }

  lemma WithoutUKeeps(pte: nat)
    ensures var r := WithoutU(pte); Present(r) == Present(pte) && Leafy(r) == Leafy(pte) && Ppn(r) == Ppn(pte)
  {
    hide Present, Leafy, Ppn;
    if pte / 16 % 2 == 1 {
      assert pte / 16 == 2 * (pte / 16 / 2) + 1 && pte / 16 / 2 == pte / 32;
      assert pte == 16 * (pte / 16) + pte % 16;
      ClearU(pte / 32, pte % 16);
    }
  }

  lemma ClearU(q: nat, b: nat)
    requires b < 16
    ensures var with, r := 32 * q + 16 + b, 32 * q + b;
      Present(r) == Present(with) && Leafy(r) == Leafy(with) && Ppn(r) == Ppn(with)
  {
    var with, r := 32 * q + 16 + b, 32 * q + b;
    By2(16 * q + 8, b);
    By2(16 * q, b);
    By8(2 * q + 1, b / 2);
    By8(2 * q, b / 2);
    By32(q, 16 + b);
    By32(q, b);
  }

  lemma By2(q: nat, b: nat)
    ensures (2 * q + b) / 2 == q + b / 2 && (2 * q + b) % 2 == b % 2
  {
  }

  lemma By8(q: nat, b: nat)
    requires b < 8
    ensures (8 * q + b) % 8 == b
  {
  }

  lemma By32(q: nat, b: nat)
    requires b < 32
    ensures (32 * q + b) / 1024 == q / 32
  {
  }

  // Below page number n the kernel table translates as the user table does,
  // for the kernel.
  ghost predicate Agrees(m: Mem, u: nat, k: nat, n: nat) {
    && Shape(m) && IsRoot(m, u) && IsRoot(m, k) && n <= VPNS
    && forall v :: 0 <= v < n ==> Present(Lookup(m, u, v)) && Lookup(m, k, v) == WithoutU(Lookup(m, u, v))
  }

  // The entries lo .. hi of tree k are copied from tree u; all other
  // translations are as before.
  ghost predicate Shadowed(m: Mem, m': Mem, u: nat, k: nat, lo: nat, hi: nat) {
    && Shape(m) && Shape(m')
    && (forall q :: IsRoot(m, q) <==> IsRoot(m', q))
    && forall q, v :: IsRoot(m, q) && IsRoot(m', q) && IsRoot(m, u) && 0 <= v < VPNS ==>
         Lookup(m', q, v) == if q == k && lo <= v < hi then WithoutU(Lookup(m, u, v)) else Lookup(m, q, v)
  }

  // u2kvmcopy(); false is the panic for lack of a table page.
  method U2kvmcopy(vm: Memory, u: nat, k: nat, oldsz: nat, newsz: nat) returns (ok: bool)
    requires Inv(vm.m) && IsRoot(vm.m, u) && IsRoot(vm.m, k) && u != k && OwnsNothing(vm.m, k) && Pages(newsz) <= MAXVPN
    requires forall v :: Pages(oldsz) <= v < Pages(newsz) ==> Present(Lookup(vm.m, u, v))
    modifies vm
    ensures Inv(vm.m)
    ensures newsz < oldsz ==> ok && vm.m == old(vm.m)
    ensures newsz >= oldsz && ok ==>
            Shadowed(old(vm.m), vm.m, u, k, Pages(oldsz), Pages(newsz)) && Grew(old(vm.m), vm.m, k)
    ensures !ok ==> vm.m.free == []
    ensures newsz >= oldsz ==> 0 <= Pages(newsz) - Pages(oldsz)
    ensures newsz >= oldsz ==> var n := Pages(newsz) - Pages(oldsz);
      && (ok <==> |old(vm.m).free| >= Tables(old(vm.m), k, Pages(oldsz), n))
      && (ok ==> |old(vm.m).free| == |vm.m.free| + Tables(old(vm.m), k, Pages(oldsz), n))
      && (ok ==> Nodes(vm.m, k) == Nodes(old(vm.m), k) + Paths(Pages(oldsz), n))
  {
    hide FreeOk, DataOk, TreesOk, Lookup, Shadowed, SameLookups, Grew, OwnsNothing, WithoutU, LookupsExcept, Nodes,
         Path;
    if newsz < oldsz {
      return true;
    }
    ghost var m0 := vm.m;
    var first := Pages(oldsz);
    PagesMonotone(oldsz, newsz);
    GrewRefl(m0, k);
    ShadowedNothing(m0, u, k, first);
    var i := first;
    while i * PGSIZE < newsz
      invariant first <= i <= Pages(newsz) && Inv(vm.m) && IsRoot(vm.m, u) && IsRoot(vm.m, k)
      invariant Shadowed(m0, vm.m, u, k, first, i) && Grew(m0, vm.m, k) && OwnsNothing(vm.m, k)
      invariant Nodes(vm.m, k) == Nodes(m0, k) + Paths(first, i - first)
      invariant |m0.free| == |vm.m.free| + Tables(m0, k, first, i - first)
    {
      ShadowedNext(m0, vm.m, u, k, first, i);
      TablesNext(m0, vm.m, k, first, i - first, Pages(newsz) - first);
      ghost var m1 := vm.m;
      ok := CopyEntry(vm, u, k, i);
      if !ok {
        return false;
      }
      ShadowedMore(m0, m1, vm.m, u, k, first, i);
      GrewTrans(m0, m1, vm.m, k);
      i := i + 1;
    }
    ok := true;
  }

  // One round of u2kvmcopy().
  method CopyEntry(vm: Memory, u: nat, k: nat, i: nat) returns (ok: bool)
    requires Inv(vm.m) && IsRoot(vm.m, u) && IsRoot(vm.m, k) && u != k && OwnsNothing(vm.m, k) && i < MAXVPN
    requires Present(Lookup(vm.m, u, i))
    modifies vm
    ensures Inv(vm.m) && (!ok ==> vm.m.free == [])
    ensures ok ==> LookupsExcept(old(vm.m), vm.m, k, i, WithoutU(Lookup(old(vm.m), u, i))) && Grew(old(vm.m), vm.m, k)
    ensures ok ==> OwnsNothing(vm.m, k) && IsRoot(vm.m, u) && IsRoot(vm.m, k)
    ensures ok <==> |old(vm.m).free| >= |Path(i) - Nodes(old(vm.m), k)|
    ensures ok ==> |old(vm.m).free| == |vm.m.free| + |Path(i) - Nodes(old(vm.m), k)|
    ensures ok ==> Nodes(vm.m, k) == Nodes(old(vm.m), k) + Path(i)
  {
    hide FreeOk, DataOk, TreesOk, Lookup, SameLookups, Grew, OwnsNothing, WithoutU, LookupsExcept, Nodes, Path;
    ghost var m1 := vm.m;
    var found, from := vm.Walk(u, i, false);
    PresentHasTable(vm.m, u, i);
    LookupIs(vm.m, u, i);
    PresentIsLeafy(vm.m, u, i);
    var got, to := vm.Walk(k, i, true);
    if !got {
      return false;
    }
    ghost var m2 := vm.m;
    TableStays(m1, m2, u, k, i);
    var pte := WithoutU(vm.m.ram[from][Index(0, i)]);
    WithoutUKeeps(vm.m.ram[from][Index(0, i)]);
    SameLookupAt(m1, m2, u, i);
    SameLookupAt(m1, m2, k, i);
    LookupIs(m2, u, i);
    NoOwnerOf(m2, k, i);
    LeafKeeps(m2, k, i, pte);
    vm.m := vm.m.(ram := vm.m.ram[to := Put(vm.m.ram[to], Index(0, i), pte)]);
    assert vm.m == SetLeaf(m2, k, i, pte);
    PathDown(m2, k, i);
    ExceptOverSame(m1, m2, vm.m, k, i, pte);
    GrewLeaf(m1, m2, to, Index(0, i), pte, k);
    SameRoles(m2, vm.m, k);
    RootsStay(m1, m2, vm.m, u, k);
    return true;
  }

  lemma ExceptOverSame(a: Mem, b: Mem, c: Mem, r: nat, v: nat, pte: nat)
    requires Shape(a) && Shape(b) && Shape(c) && SameLookups(a, b) && LookupsExcept(b, c, r, v, pte)
    ensures LookupsExcept(a, c, r, v, pte)
  {
    hide Lookup;
  }

  lemma RootsStay(a: Mem, b: Mem, c: Mem, u: nat, k: nat)
    requires Grew(a, b, k) && c.role == b.role && IsRoot(a, u) && IsRoot(a, k) && OwnsNothing(b, k)
    ensures IsRoot(c, u) && IsRoot(c, k) && OwnsNothing(c, k)
  {
  }

  lemma ShadowedNothing(m: Mem, u: nat, k: nat, lo: nat)
    requires Shape(m)
    ensures Shadowed(m, m, u, k, lo, lo)
  {
  }

  lemma ShadowedNext(m: Mem, m': Mem, u: nat, k: nat, lo: nat, v: nat)
    requires Shadowed(m, m', u, k, lo, v) && IsRoot(m, u) && IsRoot(m, k) && u != k && v < VPNS
    ensures IsRoot(m', u) && IsRoot(m', k) && Lookup(m', u, v) == Lookup(m, u, v)
  {
    hide Lookup, WithoutU;
  }

  lemma ShadowedMore(a: Mem, b: Mem, c: Mem, u: nat, k: nat, lo: nat, v: nat)
    requires Shadowed(a, b, u, k, lo, v) && Shape(c) && lo <= v < VPNS && IsRoot(a, u) && u != k && IsRoot(b, u)
    requires LookupsExcept(b, c, k, v, WithoutU(Lookup(b, u, v)))
    ensures Shadowed(a, c, u, k, lo, v + 1)
  {
    hide Lookup, WithoutU;
  }

  lemma NoOwnerOf(m: Mem, k: nat, v: nat)
    requires OwnsNothing(m, k)
    ensures forall p :: 0 <= p < |m.role| ==> m.role[p] != Data(k, v)
  {
  }

  // walk() in one tree does not move the tables of another.
  lemma TableStays(m: Mem, m': Mem, u: nat, k: nat, v: nat)
    requires Inv(m) && Inv(m') && Grew(m, m', k) && IsRoot(m, u) && v < VPNS && Table(m, u, v) < |m.ram|
    requires OwnsNothing(m, k)
    ensures |m'.ram| == |m.ram| && IsRoot(m', u) && Table(m', u, v) == Table(m, u, v) && OwnsNothing(m', k)
  {
    hide FreeOk, DataOk;
    PathDown(m, u, v);
    PathUp(m', Table(m, u, v), v);
  }
}
