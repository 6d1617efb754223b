// dirlookup, dirlink, isdirempty, create, link and unlink (kernel/fs.c,
// kernel/sysfile.c) on inodes whose directory contents are lists of entries.
module Directories {
  import opened LinkCount

  // A directory that has been removed holds nothing but "." and "..".
  predicate Husk(i: Inode, n: nat) {
    i.kind == Dir && i.nlink <= 0 ==> Remains(i, n)
  }

  predicate Husks(t: seq<Inode>) {
    forall d :: 0 <= d < |t| ==> Husk(t[d], |t|)
  }

  lemma {:induction false} HuskPut(t: seq<Inode>, d: nat, i: Inode)
    requires Husks(t) && d < |t| && Husk(i, |t|)
    ensures Husks(t[d := i])
  {
  }

  class Directories {
    var inodes: seq<Inode>
    ghost var home: map<nat, Home>
    ghost var pending: map<nat, nat>

    // The image mkfs makes, before it adds files.
    constructor (n: nat)
      requires n >= 2
      ensures Valid() && State() == NewImage(n)
    {
      inodes, home, pending := NewImage(n).t, map[], map[];
      NewImageInv(n);
    }

    ghost function State(): Tree
      reads this
    {
      Tree(inodes, home, pending)
    }

    ghost predicate Valid()
      reads this
    {
      Inv(State()) && Husks(inodes)
    }

    ghost method Become(s: Tree)
      modifies `home, `pending
      ensures home == s.home && pending == s.pending
    {
      home, pending := s.home, s.pending;
    }

    method Store(d: nat, i: Inode)
      requires d < |inodes| && Husks(inodes) && Husk(i, |inodes|)
      modifies `inodes
      ensures inodes == old(inodes)[d := i] && Husks(inodes)
    {
      HuskPut(inodes, d, i);
      inodes := inodes[d := i];
    }

    predicate IsDir(d: nat)
      reads this
    {
      0 < d < |inodes| && inodes[d].kind == Dir
    }

    // The slot of the name, or -1.
    method Dirlookup(d: nat, name: string) returns (off: int)
      requires IsDir(d)
      ensures off < 0 <==> Absent(inodes[d].entries, name)
      ensures off >= 0 ==>
              off < |inodes[d].entries| && inodes[d].entries[off].inum != 0 && inodes[d].entries[off].name == name
    {
      var es := inodes[d].entries;
      off := 0;
      while off < |es|
        invariant 0 <= off <= |es| && Absent(es[..off], name)
      {
        if es[off].inum != 0 && es[off].name == name {
          return;
        }
        off := off + 1;
        assert forall k :: 0 <= k < off - 1 ==> es[..off][k] == es[..off - 1][k];
      }
      assert es[..off] == es;
      off := -1;
    }

    // Writes the entry into the first empty slot, or behind the last. space says
    // whether writei succeeds.
    method Dirlink(d: nat, name: string, x: nat, space: bool) returns (ok: bool, ghost k: nat)
      requires IsDir(d)
      modifies `inodes
      ensures ok <==> old(Absent(inodes[d].entries, name)) && space
      ensures !ok ==> inodes == old(inodes)
      ensures k <= |old(inodes)[d].entries|
              && (k < |old(inodes)[d].entries| ==> ok ==> old(inodes)[d].entries[k].inum == 0)
      ensures ok ==>
              inodes ==
              old(inodes)[d := old(inodes)[d].(entries := Filled(old(inodes)[d].entries, k, Entry(x, name)))]
      ensures (forall j :: 0 <= j < |old(inodes)[d].entries| ==> old(inodes)[d].entries[j].inum != 0) ==>
              k == |old(inodes)[d].entries| || !ok
    {
      var there := Dirlookup(d, name);
      if there >= 0 {
        return false, 0;
      }
      var es := inodes[d].entries;
      var off := 0;
      while off < |es| && es[off].inum != 0
        invariant 0 <= off <= |es|
      {
        off := off + 1;
      }
      if !space {
        return false, off;
      }
      inodes := inodes[d := inodes[d].(entries := Filled(es, off, Entry(x, name)))];
      return true, off;
    }

    // Nothing but "." and ".."?
    method IsDirEmpty(d: nat) returns (empty: bool)
      requires IsDir(d)
      ensures empty <==> EmptyDir(inodes[d])
    {
      var es := inodes[d].entries;
      var off := 2;
      while off < |es|
        invariant 2 <= off && forall j :: 2 <= j < off && j < |es| ==> es[j].inum == 0
      {
        if es[off].inum != 0 {
          return false;
        }
        off := off + 1;
      }
      return true;
    }

    // sys_link up to the point where it lets go of the inode.
    method LinkFirst(x: nat) returns (ok: bool)
      requires Valid() && 0 < x < |inodes| && inodes[x].kind != Free
      modifies this
      ensures Valid() && home == old(home)
      ensures ok <==> old(inodes)[x].kind != Dir
      ensures !ok ==> State() == old(State())
      ensures ok ==> State() == Promised(old(State()), x)
    {
      if inodes[x].kind == Dir {
        return false;
      }
      ghost var s := State();
      PromiseKeeps(s, x);
      hide Inv, Husks;
      Store(x, inodes[x].(nlink := inodes[x].nlink + 1));
      Become(Promised(s, x));
      return true;
    }

    // The rest of sys_link: write the entry, or take the count back. found says
    // whether nameiparent found the directory d, sameDev whether it is on the
    // same device. The directory may have been removed meanwhile.
    method LinkSecond(x: nat, found: bool, d: nat, sameDev: bool, name: string, space: bool) returns (ok: bool)
      requires Valid() && Pending(State(), x) > 0 && (found ==> IsDir(d))
      modifies this
      ensures ok <==> found && sameDev && old(Absent(inodes[d].entries, name)) && space
      ensures home == old(home) && (Valid() <==> ok ==> Linked(old(inodes)[d]))
      ensures !ok ==> State() == Withdrawn(old(State()), x)
      ensures ok ==> exists k :: Slot(old(State()), d, k, name) && State() == Entered(old(State()), d, k, name, x)
    {
      hide Inv, Husks;
      ok := false;
      if found && sameDev {
        ok := WriteEntry(x, d, name, space);
      }
      if !ok {
        TakeBack(x);
      }
    }

    // dirlink of a promised name.
    method WriteEntry(x: nat, d: nat, name: string, space: bool) returns (ok: bool)
      requires Valid() && Pending(State(), x) > 0 && IsDir(d)
      modifies this
      ensures home == old(home) && |inodes| == |old(inodes)| && (Valid() <==> !ok || Linked(old(inodes)[d]))
      ensures ok <==> old(Absent(inodes[d].entries, name)) && space
      ensures !ok ==> State() == old(State())
      ensures ok ==> exists k :: Slot(old(State()), d, k, name) && State() == Entered(old(State()), d, k, name, x)
    {
      ghost var s := State();
      ghost var k;
      ok, k := Dirlink(d, name, x, space);
      if ok {
        assert Slot(s, d, k, name);
        EnterIff(s, d, k, name, x);
        if Linked(s.t[d]) {
          EnterKeeps(s, d, k, name, x);
          HuskPut(s.t, d, inodes[d]);
        }
        hide Husks, Shape, Counted;
        Become(Entered(s, d, k, name, x));
        assert State() == Entered(s, d, k, name, x);
      }
    }

    // The error exit: nlink goes back.
    method TakeBack(x: nat)
      requires Valid() && Pending(State(), x) > 0
      modifies this
      ensures Valid() && home == old(home) && 0 < x < |old(inodes)| && State() == Withdrawn(old(State()), x)
    {
      ghost var s := State();
      PendingKind(s, x);
      WithdrawKeeps(s, x);
      hide Inv, Husks;
      Store(x, inodes[x].(nlink := inodes[x].nlink - 1));
      Become(Withdrawn(s, x));
    }

    // The checks of sys_unlink, dp being locked from the lookup on.
    method FindVictim(d: nat, name: string) returns (ok: bool, k: nat)
      requires Valid() && IsDir(d)
      ensures ok ==> MayUnlink(State(), d, k, name)
      ensures !ok ==> name == "." || name == ".." || Absent(inodes[d].entries, name) || HoldsDir(State(), d, k, name)
    {
      if name == "." || name == ".." {
        return false, 0;
      }
      var off := Dirlookup(d, name);
      if off < 0 {
        return false, 0;
      }
      k := off;
      assert Husk(inodes[d], |inodes|);
      LookupNames(State(), d, k, name);
      var x := inodes[d].entries[k].inum;
      ok := true;
      if inodes[x].kind == Dir {
        ok := IsDirEmpty(x);
      }
    }

    // sys_unlink
    method Unlink(d: nat, name: string) returns (ok: bool, k: nat)
      requires Valid() && IsDir(d)
      modifies this
      ensures Valid()
      ensures !ok ==> State() == old(State())
      ensures !ok ==>
              name == "." || name == ".." || old(Absent(inodes[d].entries, name))
              || HoldsDir(old(State()), d, k, name)
      ensures ok ==> MayUnlink(old(State()), d, k, name) && Unlinked(old(State()), d, k, State())
    {
      ok, k := FindVictim(d, name);
      if ok {
        var x := inodes[d].entries[k].inum;
        if inodes[x].kind == Dir {
          RemoveDir(d, k, x);
        } else {
          RemoveFile(d, k, x);
        }
      }
    }

    method RemoveFile(d: nat, off: nat, x: nat)
      requires Valid() && Names(State(), d, off, x) && x < |inodes| && inodes[x].kind != Dir
      modifies this
      ensures Valid() && Unlinked(old(State()), d, off, State())
    {
      ghost var s := State();
      ghost var s1 := Erased(s, d, off);
      assert s1.t == s.t[d := s.t[d].(entries := s.t[d].entries[off := EMPTY])];
      EraseKeeps(s, d, off, x);
      WithdrawKeeps(s1, x);
      ghost var r := Withdrawn(s1, x);
      assert r.t == s1.t[x := s1.t[x].(nlink := s1.t[x].nlink - 1)];
      assert Unlinked(s, d, off, r);
      hide Inv, Husks, Erased, Withdrawn, Unlinked;
      Store(d, inodes[d].(entries := inodes[d].entries[off := EMPTY]));
      Store(x, inodes[x].(nlink := inodes[x].nlink - 1));
      Become(r);
      assert State() == r;
    }

    method RemoveDir(d: nat, off: nat, x: nat)
      requires Valid() && Removable(State(), d, off, x)
      modifies this
      ensures Valid() && Unlinked(old(State()), d, off, State())
    {
      ghost var s := State();
      ghost var r := RemoveDirSteps(s, d, off, x);
      hide Inv, Husks, Unlinked, Removable;
      var dp := inodes[d].(entries := inodes[d].entries[off := EMPTY]);
      inodes := inodes[d := dp.(nlink := dp.nlink - 1)];
      inodes := inodes[x := inodes[x].(nlink := inodes[x].nlink - 1)];
      Become(r);
      assert State() == r;
    }

    // create: an existing file or device is returned for T_FILE. x is the inode
    // ialloc finds, 0 if it finds none.
    method Create(d: nat, name: string, kind: Kind, x: nat, dot: bool, dotdot: bool, space: bool) returns (r: nat)
      requires Valid() && IsDir(d) && kind != Free
      requires x != 0 ==> x < |inodes| && inodes[x].kind == Free
      modifies this
      ensures Valid() <==> !old(Absent(inodes[d].entries, name)) || r == 0 || Linked(old(inodes)[d])
      ensures !old(Absent(inodes[d].entries, name)) ==> State() == old(State())
      ensures !old(Absent(inodes[d].entries, name)) && r != 0 ==>
                kind == File && r < |inodes| && (inodes[r].kind == File || inodes[r].kind == Device)
                && exists k :: 0 <= k < |inodes[d].entries| && inodes[d].entries[k] == Entry(r, name)
      ensures old(Absent(inodes[d].entries, name)) ==>
                (r != 0 <==> x != 0 && space && (kind == Dir ==> dot && dotdot)) && (r != 0 ==> r == x)
      ensures old(Absent(inodes[d].entries, name)) && r != 0 ==>
              exists k :: Created(old(State()), d, k, name, kind, x, State())
      ensures old(Absent(inodes[d].entries, name)) && r == 0 ==>
                inodes == old(inodes) || (x != 0 && inodes == old(inodes)[x := Inode(Free, 0, [])])
    {
      var off := Dirlookup(d, name);
      if off >= 0 {
        var ip := inodes[d].entries[off].inum;
        assert Husk(inodes[d], |inodes|);
        FoundInode(State(), d, off);
        if kind == File && (inodes[ip].kind == File || inodes[ip].kind == Device) {
          assert inodes[d].entries[off] == Entry(ip, name);
          return ip;
        }
        return 0;
      }
      if x == 0 {
        return 0;
      }
      ghost var s := State();
      var ok;
      hide Inv, Husks;
      if kind == Dir {
        ok := CreateDir(d, name, x, dot, dotdot, space);
        if ok {
          ghost var k :| Slot(s, d, k, name) && State() == NewDir(s, d, k, name, x);
          assert Created(s, d, k, name, kind, x, State());
        }
      } else {
        ok := CreateFile(d, name, kind, x, space);
        if ok {
          ghost var s1 := Allocated(s, x, kind);
          ghost var k :| Slot(s1, d, k, name) && State() == Entered(s1, d, k, name, x);
          assert Created(s, d, k, name, kind, x, State());
        }
      }
      r := if ok then x else 0;
    }

    // create for a file or device: ialloc gave x, space says whether the entry
    // could be written.
    method CreateFile(d: nat, name: string, kind: Kind, x: nat, space: bool) returns (ok: bool)
      requires Valid() && IsDir(d) && Absent(inodes[d].entries, name)
      requires 0 < x < |inodes| && inodes[x].kind == Free && kind != Free && kind != Dir
      modifies this
      ensures ok == space && (Valid() <==> !ok || Linked(old(inodes)[d]))
      ensures ok ==>
              exists k :: var s1 := Allocated(old(State()), x, kind);
                          Slot(s1, d, k, name) && State() == Entered(s1, d, k, name, x)
      ensures !ok ==> inodes == old(inodes)[x := Inode(Free, 0, [])]
    {
      ghost var s := State();
      AllocKeeps(s, x, kind);
      hide Inv, Husks;
      Store(x, Inode(kind, 1, []));
      Become(Allocated(s, x, kind));
      ghost var s1 := State();
      ok := WriteEntry(x, d, name, space);
      if !ok {
        TakeBack(x);
        Release(x);
      }
    }

    // create for a directory: "." and "..", then the entry in d, then d's name by "..".
    method CreateDir(d: nat, name: string, x: nat, dot: bool, dotdot: bool, space: bool) returns (ok: bool)
      requires Valid() && IsDir(d) && Absent(inodes[d].entries, name)
      requires 0 < x < |inodes| && inodes[x].kind == Free
      modifies this
      ensures (ok <==> dot && dotdot && space) && (Valid() <==> !ok || Linked(old(inodes)[d]))
      ensures ok ==> exists k :: Slot(old(State()), d, k, name) && State() == NewDir(old(State()), d, k, name, x)
      ensures !ok ==> State() == Put(old(State()), x, Inode(Free, 0, []), old(pending))
    {
      ghost var s := State();
      assert s.t[x].nlink == 0 by { assert CountedAt(s, x); }
      ReleaseKeeps(s, x);
      HuskPut(s.t, x, Inode(Free, 0, []));
      ghost var k;
      ok, k := FillDir(d, name, x, dot, dotdot, space);
      if ok {
        assert Husk(s.t[d], |s.t|);
        NewDirIff(s, d, k, name, x);
        if Linked(s.t[d]) {
          NewDirKeeps(s, d, k, name, x);
          NewDirHusks(s, d, k, name, x);
        }
        hide Husks, Shape, Counted;
        Become(NewDir(s, d, k, name, x));
        assert Slot(s, d, k, name) && State() == NewDir(s, d, k, name, x);
      } else {
        hide Inv, Husks;
        inodes := inodes[x := Inode(Free, 0, [])];
      }
    }

    // The writes of create for a directory; on failure only inode x has changed.
    method FillDir(d: nat, name: string, x: nat, dot: bool, dotdot: bool, space: bool) returns (ok: bool, ghost k: nat)
      requires IsDir(d) && Absent(inodes[d].entries, name) && 0 < x < |inodes| && d != x
      modifies `inodes
      ensures ok <==> dot && dotdot && space
      ensures |inodes| == |old(inodes)|
      ensures !ok ==> inodes[x := Inode(Free, 0, [])] == old(inodes)[x := Inode(Free, 0, [])]
      ensures ok ==> Slot(old(State()), d, k, name) && inodes == NewDir(old(State()), d, k, name, x).t
    {
      ghost var t := inodes;
      inodes := inodes[x := Inode(Dir, 1, [])];
      k := 0;
      ok, k := Dirlink(x, ".", x, dot);
      if !ok {
        return;
      }
      assert inodes[x].entries == [Entry(x, ".")];
      ok, k := Dirlink(x, "..", d, dotdot);
      if !ok {
        return;
      }
      assert inodes[x].entries == [Entry(x, "."), Entry(d, "..")];
      assert inodes == t[x := Inode(Dir, 1, [Entry(x, "."), Entry(d, "..")])];
      ok, k := Dirlink(d, name, x, space);
      if !ok {
        return;
      }
      inodes := inodes[d := inodes[d].(nlink := inodes[d].nlink + 1)];
    }

    // iput of the last reference to an inode without names.
    method Release(x: nat)
      requires Valid() && 0 < x < |inodes| && inodes[x].nlink == 0
      modifies this
      ensures Valid() && State() == Put(old(State()), x, Inode(Free, 0, []), old(pending))
    {
      ReleaseKeeps(State(), x);
      hide Inv, Husks;
      Store(x, Inode(Free, 0, []));
    }
  }

  // Slot k of d has the name and leads to a file or an empty directory, whose
  // nlink is at least 1.
  ghost predicate MayUnlink(s: Tree, d: nat, k: nat, name: string) {
    && name != "." && name != ".."
    && 0 < d < |s.t| && Linked(s.t[d]) && 2 <= k < |s.t[d].entries| && s.t[d].entries[k].name == name
    && var x := s.t[d].entries[k].inum;
       0 < x < |s.t| && s.t[x].nlink >= 1 && (s.t[x].kind == Dir ==> EmptyDir(s.t[x]))
  }

  // Slot k of d has the name and leads to a directory that is not empty.
  ghost predicate HoldsDir(s: Tree, d: nat, k: nat, name: string) {
    && d < |s.t| && k < |s.t[d].entries| && s.t[d].entries[k].name == name
    && var x := s.t[d].entries[k].inum;
       0 < x < |s.t| && s.t[x].kind == Dir && !EmptyDir(s.t[x])
  }

  // The updates that remove a directory.
  lemma {:induction false} RemoveDirSteps(s: Tree, d: nat, off: nat, x: nat) returns (r: Tree)
    requires Inv(s) && Husks(s.t) && Removable(s, d, off, x)
    ensures Inv(r) && Husks(r.t) && Unlinked(s, d, off, r)
    ensures 0 < d < |s.t| && 0 < x < |s.t| && x != d && off < |s.t[d].entries|
    ensures var i := s.t[d].(entries := s.t[d].entries[off := EMPTY], nlink := s.t[d].nlink - 1);
            r.t == s.t[d := i][x := s.t[x].(nlink := s.t[x].nlink - 1)]
  {
    hide Inv, Husk, Husks, EmptyDir;
    RemoveHusks(s, d, off, x);
    DetachKeeps(s, d, off, x);
    r := Detached(s, d, off, x);
    var i := s.t[d].(entries := s.t[d].entries[off := EMPTY], nlink := s.t[d].nlink - 1);
    HuskPut(s.t, d, i);
    HuskPut(s.t[d := i], x, s.t[x].(nlink := s.t[x].nlink - 1));
  }

  lemma {:induction false} RemoveHusks(s: Tree, d: nat, off: nat, x: nat)
    requires Inv(s) && Removable(s, d, off, x)
    ensures 0 < d < |s.t| && 0 < x < |s.t| && x != d && off < |s.t[d].entries|
    ensures Husk(s.t[d].(entries := s.t[d].entries[off := EMPTY], nlink := s.t[d].nlink - 1), |s.t|)
    ensures Husk(s.t[x].(nlink := s.t[x].nlink - 1), |s.t|)
  {
    RemovableHome(s, d, off, x);
    ParentStaysLinked(s, d, off, x);
    hide Inv;
  }

  lemma {:induction false} NewDirHusks(s: Tree, d: nat, k: nat, name: string, x: nat)
    requires Husks(s.t) && Room(s, d, k, name) && x < |s.t| && d != x
    ensures Husks(NewDir(s, d, k, name, x).t)
  {
  }

  // The new inode x with its one name in slot k of d.
  ghost predicate Created(s: Tree, d: nat, k: nat, name: string, kind: Kind, x: nat, s': Tree) {
    && 0 < d < |s.t| && x < |s.t|
    && if kind == Dir then Slot(s, d, k, name) && s' == NewDir(s, d, k, name, x)
       else var s1 := Allocated(s, x, kind); Slot(s1, d, k, name) && s' == Entered(s1, d, k, name, x)
  }

  lemma {:induction false} FoundInode(s: Tree, d: nat, k: nat)
    requires Inv(s) && 0 < d < |s.t| && s.t[d].kind == Dir && Husk(s.t[d], |s.t|)
    requires k < |s.t[d].entries| && s.t[d].entries[k].inum != 0
    ensures s.t[d].entries[k].inum < |s.t|
  {
    if Linked(s.t[d]) {
      assert DirOk(s, d);
      if k >= 2 {
        assert EntryOk(s, d, k);
      } else if d in s.home {
        assert HomeOk(s, d);
      }
    }
  }

  // Between operations, when no link is on its way, every inode's nlink is the
  // number of entries other than "." that name it in linked directories.
  lemma {:induction false} LinkCounts(s: Tree)
    requires Inv(s) && forall x :: 0 < x < |s.t| ==> Pending(s, x) == 0
    ensures forall x :: 0 < x < |s.t| ==> s.t[x].nlink == Count(s.t, x)
  {
    forall x | 0 < x < |s.t| ensures s.t[x].nlink == Count(s.t, x) {
      assert CountedAt(s, x);
    }
  }

  // What dirlookup finds in a directory under another name than "." and "..".
  lemma {:induction false} LookupNames(s: Tree, d: nat, k: nat, name: string)
    requires Inv(s) && 0 < d < |s.t| && s.t[d].kind == Dir && Husk(s.t[d], |s.t|)
    requires k < |s.t[d].entries| && s.t[d].entries[k].inum != 0 && s.t[d].entries[k].name == name
    requires name != "." && name != ".."
    ensures Linked(s.t[d]) && 2 <= k
    ensures var x := s.t[d].entries[k].inum; 0 < x < |s.t| && s.t[x].nlink >= 1 && s.t[x].kind != Free
  {
    assert Linked(s.t[d]);
    assert DirOk(s, d);
    assert EntryOk(s, d, k);
    var x := s.t[d].entries[k].inum;
    assert CountedAt(s, x);
    EntriesHave(s.t[d].entries, k, x);
    CountHas(s.t, d, x);
  }

  // The slot is cleared and the inode it named has one name less; a directory
  // goes together with the name its ".." gave to d.
  ghost predicate Unlinked(s: Tree, d: nat, k: nat, s': Tree) {
    && d < |s.t| && k < |s.t[d].entries|
    && var x := s.t[d].entries[k].inum;
       && 0 < x < |s.t|
       && (s.t[x].kind != Dir ==> Pending(Erased(s, d, k), x) > 0 && s' == Withdrawn(Erased(s, d, k), x))
       && (s.t[x].kind == Dir ==> s' == Detached(s, d, k, x))
  }
}
