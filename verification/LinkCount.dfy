// Directories and link counts (kernel/sysfile.c, kernel/fs.c) as values.
module LinkCount {
  datatype Kind = Free | File | Device | Dir

  // An entry with inum 0 is an empty slot.
  datatype Entry = Entry(inum: nat, name: string)

  datatype Inode = Inode(kind: Kind, nlink: int, entries: seq<Entry>)

  const ROOT: nat := 1
  const EMPTY: Entry := Entry(0, "")

  // ---- counting names ----

  predicate Linked(i: Inode) {
    i.kind == Dir && i.nlink > 0
  }

  function One(e: Entry, x: nat): nat {
    if e.inum == x && x != 0 && e.name != "." then 1 else 0
  }

  function InEntries(es: seq<Entry>, x: nat): nat {
    if es == [] then 0 else InEntries(es[..|es| - 1], x) + One(es[|es| - 1], x)
  }

  function Part(i: Inode, x: nat): nat {
    if Linked(i) then InEntries(i.entries, x) else 0
  }

  // The entries other than "." that name x in linked directories.
  function Count(t: seq<Inode>, x: nat): nat {
    if t == [] then 0 else Count(t[..|t| - 1], x) + Part(t[|t| - 1], x)
  }

  lemma {:induction false} CountPut(t: seq<Inode>, d: nat, i: Inode, x: nat)
    requires d < |t|
    ensures Count(t[d := i], x) == Count(t, x) - Part(t[d], x) + Part(i, x)
  {
    var k := |t| - 1;
    if d == k {
      assert t[d := i][..k] == t[..k];
    } else {
      CountPut(t[..k], d, i, x);
      assert t[d := i][..k] == t[..k][d := i];
    }
  }

  lemma {:induction false} EntriesPut(es: seq<Entry>, k: nat, e: Entry, x: nat)
    requires k < |es|
    ensures InEntries(es[k := e], x) == InEntries(es, x) - One(es[k], x) + One(e, x)
  {
    var n := |es| - 1;
    if k == n {
      assert es[k := e][..n] == es[..n];
    } else {
      EntriesPut(es[..n], k, e, x);
      assert es[k := e][..n] == es[..n][k := e];
    }
  }

  lemma {:induction false} EntriesAppend(es: seq<Entry>, e: Entry, x: nat)
    ensures InEntries(es + [e], x) == InEntries(es, x) + One(e, x)
  {
    assert (es + [e])[..|es|] == es;
  }

  lemma {:induction false} EntriesHave(es: seq<Entry>, k: nat, x: nat)
    requires k < |es|
    ensures InEntries(es, x) >= One(es[k], x)
  {
    if k < |es| - 1 { EntriesHave(es[..|es| - 1], k, x); }
  }

  lemma {:induction false} EntriesNone(es: seq<Entry>, x: nat)
    requires forall k :: 0 <= k < |es| ==> One(es[k], x) == 0
    ensures InEntries(es, x) == 0
  {
    if es != [] { EntriesNone(es[..|es| - 1], x); }
  }

  lemma {:induction false} CountHas(t: seq<Inode>, d: nat, x: nat)
    requires d < |t|
    ensures Count(t, x) >= Part(t[d], x)
  {
    if d < |t| - 1 { CountHas(t[..|t| - 1], d, x); }
  }

  lemma {:induction false} CountNone(t: seq<Inode>, x: nat)
    requires forall d :: 0 <= d < |t| ==> Part(t[d], x) == 0
    ensures Count(t, x) == 0
  {
    if t != [] { CountNone(t[..|t| - 1], x); }
  }

  // x is named by entry k of directory d and by nothing else.
  lemma {:induction false} CountOnce(t: seq<Inode>, d: nat, k: nat, x: nat)
    requires d < |t| && Linked(t[d]) && k < |t[d].entries| && One(t[d].entries[k], x) == 1
    requires forall b, j :: 0 <= b < |t| && Linked(t[b]) && 0 <= j < |t[b].entries| && (b != d || j != k) ==>
               One(t[b].entries[j], x) == 0
    ensures Count(t, x) == 1
  {
    var es := t[d].entries[k := EMPTY];
    EntriesPut(t[d].entries, k, EMPTY, x);
    EntriesNone(es, x);
    var i := t[d].(entries := es);
    CountPut(t, d, i, x);
    var t' := t[d := i];
    forall b | 0 <= b < |t'| ensures Part(t'[b], x) == 0 {
      if b != d && Linked(t[b]) {
        EntriesNone(t[b].entries, x);
      }
    }
    CountNone(t', x);
  }

  // ---- the tree ----

  datatype Home = Home(dir: nat, slot: nat)

  // home: for each linked directory but the root, the directory and slot that
  // name it. pending: links counted by sys_link before their entry is written.
  datatype Tree = Tree(t: seq<Inode>, home: map<nat, Home>, pending: map<nat, nat>)

  function Pending(s: Tree, x: nat): nat {
    if x in s.pending then s.pending[x] else 0
  }

  // Entry k of directory d.
  predicate EntryOk(s: Tree, d: nat, k: nat)
    requires d < |s.t| && k < |s.t[d].entries|
  {
    var e := s.t[d].entries[k];
    e.inum != 0 ==>
      && e.name != "." && e.name != ".." && e.inum < |s.t| && s.t[e.inum].kind != Free
      && (s.t[e.inum].kind == Dir ==> e.inum in s.home && s.home[e.inum] == Home(d, k))
  }

  // A linked directory: ".", "..", then entries.
  predicate DirOk(s: Tree, d: nat)
    requires d < |s.t|
  {
    var es := s.t[d].entries;
    && |es| >= 2 && es[0] == Entry(d, ".") && es[1].name == ".."
    && es[1].inum == (if d in s.home then s.home[d].dir else ROOT)
    && (forall k :: 2 <= k < |es| ==> EntryOk(s, d, k))
    && Distinct(es)
  }

  // A directory is a map from names.
  predicate Distinct(es: seq<Entry>) {
    forall j, k :: 0 <= j < k < |es| && es[j].inum != 0 && es[k].inum != 0 ==> es[j].name != es[k].name
  }

  // Where a directory is named.
  predicate HomeOk(s: Tree, c: nat)
    requires c in s.home
  {
    var d, k := s.home[c].dir, s.home[c].slot;
    && 0 < c < |s.t| && c != ROOT && Linked(s.t[c])
    && 0 < d < |s.t| && d != c && Linked(s.t[d]) && 2 <= k < |s.t[d].entries| && s.t[d].entries[k].inum == c
  }

  ghost predicate Shape(s: Tree) {
    && ROOT < |s.t| && Linked(s.t[ROOT]) && s.t[0].kind == Free
    && DirsOk(s) && HomesOk(s)
  }

  predicate DirsOk(s: Tree) {
    forall d :: 0 < d < |s.t| && Linked(s.t[d]) ==> DirOk(s, d) && (d == ROOT || d in s.home)
  }

  predicate HomesOk(s: Tree) {
    forall c :: c in s.home ==> HomeOk(s, c)
  }

  // nlink is the number of names and promised names.
  predicate CountedAt(s: Tree, x: nat)
    requires x < |s.t|
  {
    && s.t[x].nlink == Count(s.t, x) + Pending(s, x)
    && (s.t[x].kind == Free ==> s.t[x].nlink == 0)
    && (Pending(s, x) > 0 ==> s.t[x].kind != Dir)
  }

  predicate Counted(s: Tree) {
    && (forall x :: 0 < x < |s.t| ==> CountedAt(s, x))
    && (forall x :: x in s.pending ==> 0 < x < |s.t|)
  }

  ghost predicate Inv(s: Tree) {
    Shape(s) && Counted(s)
  }

  // ---- the steps of link, create and unlink ----

  // A directory's entries with e in slot k, the next free one at the latest.
  function Filled(es: seq<Entry>, k: nat, e: Entry): seq<Entry>
    requires k <= |es|
  {
    if k < |es| then es[k := e] else es + [e]
  }

  lemma {:induction false} FilledCount(es: seq<Entry>, k: nat, e: Entry, x: nat)
    requires k <= |es| && (k < |es| ==> es[k].inum == 0)
    ensures InEntries(Filled(es, k, e), x) == InEntries(es, x) + One(e, x)
  {
    if k < |es| { EntriesPut(es, k, e, x); } else { EntriesAppend(es, e, x); }
  }

  predicate Absent(es: seq<Entry>, name: string) {
    forall k :: 0 <= k < |es| && es[k].inum != 0 ==> es[k].name != name
  }

  // Slot k of directory d, linked or not, can take a new entry with this name.
  predicate Slot(s: Tree, d: nat, k: nat, name: string) {
    && 0 < d < |s.t| && s.t[d].kind == Dir && k <= |s.t[d].entries|
    && (k < |s.t[d].entries| ==> s.t[d].entries[k].inum == 0) && Absent(s.t[d].entries, name)
  }

  predicate Room(s: Tree, d: nat, k: nat, name: string) {
    Slot(s, d, k, name) && Linked(s.t[d])
  }

  lemma {:induction false} RoomBehindDots(s: Tree, d: nat, k: nat, name: string)
    requires Shape(s) && Room(s, d, k, name)
    ensures 2 <= k && name != "." && name != ".."
  {
    assert DirOk(s, d);
    if d in s.home { assert HomeOk(s, d); }
  }

  // sys_link counts the link first.
  function Promised(s: Tree, x: nat): Tree
    requires x < |s.t|
  {
    s.(t := s.t[x := s.t[x].(nlink := s.t[x].nlink + 1)], pending := s.pending[x := Pending(s, x) + 1])
  }

  // Its error exit takes that back.
  function Withdrawn(s: Tree, x: nat): Tree
    requires x < |s.t| && Pending(s, x) > 0
  {
    s.(t := s.t[x := s.t[x].(nlink := s.t[x].nlink - 1)], pending := s.pending[x := Pending(s, x) - 1])
  }

  // Changing the nlink of something that is no directory changes no count.
  lemma {:induction false} NlinkOnly(t: seq<Inode>, x: nat, n: int, y: nat)
    requires x < |t| && t[x].kind != Dir
    ensures Count(t[x := t[x].(nlink := n)], y) == Count(t, y)
  {
    CountPut(t, x, t[x].(nlink := n), y);
  }

  // s' has the inodes of s, of the same kinds, and their directories where they were.
  predicate Grows(s: Tree, s': Tree) {
    && |s'.t| == |s.t|
    && (forall x :: 0 <= x < |s.t| && s.t[x].kind != Free ==> s'.t[x].kind == s.t[x].kind)
    && (forall c :: c in s.home ==> c in s'.home && s'.home[c] == s.home[c])
  }

  lemma {:induction false} EntryStays(s: Tree, s': Tree, d: nat, k: nat, j: nat)
    requires Grows(s, s') && d < |s.t| && k < |s.t[d].entries| && EntryOk(s, d, k)
    requires j == k < |s'.t[d].entries| && s'.t[d].entries[k] == s.t[d].entries[k]
    ensures EntryOk(s', d, j)
  {
  }

  lemma {:induction false} DirStays(s: Tree, s': Tree, d: nat)
    requires Grows(s, s') && d < |s.t| && DirOk(s, d) && s'.t[d].entries == s.t[d].entries
             && (d in s'.home ==> d in s.home)
    ensures DirOk(s', d)
  {
    hide EntryOk, Grows, Distinct;
    assert |s'.t| == |s.t| by { SameLength(s, s'); }
    assert d in s.home ==> d in s'.home && s'.home[d] == s.home[d] by { HomeSame(s, s', d); }
    forall k | 2 <= k < |s'.t[d].entries| ensures EntryOk(s', d, k) {
      assert EntryOk(s, d, k);
      EntryStays(s, s', d, k, k);
    }
  }

  lemma {:induction false} SameLength(s: Tree, s': Tree)
    requires Grows(s, s')
    ensures |s'.t| == |s.t|
  {
  }

  lemma {:induction false} HomeSame(s: Tree, s': Tree, d: nat)
    requires Grows(s, s')
    ensures d in s.home ==> d in s'.home && s'.home[d] == s.home[d]
  {
  }

  predicate Extends(es: seq<Entry>, es': seq<Entry>) {
    |es| <= |es'| && forall k :: 0 <= k < |es| && es[k].inum != 0 ==> es'[k] == es[k]
  }

  // Inode d becomes i: of the same kind if it was in use, no less linked, with the same entries
  // and maybe more.
  predicate Improves(s: Tree, d: nat, i: Inode) {
    && 0 < d < |s.t| && (s.t[d].kind != Free ==> i.kind == s.t[d].kind)
    && (Linked(s.t[d]) ==> Linked(i) && Extends(s.t[d].entries, i.entries))
  }

  function Put(s: Tree, d: nat, i: Inode, pending: map<nat, nat>): Tree
    requires d < |s.t|
  {
    s.(t := s.t[d := i], pending := pending)
  }

  lemma {:induction false} PutGrows(s: Tree, d: nat, i: Inode, pending: map<nat, nat>)
    requires Improves(s, d, i)
    ensures Grows(s, Put(s, d, i, pending))
  {
  }

  lemma {:induction false} PutHomes(s: Tree, d: nat, i: Inode, pending: map<nat, nat>)
    requires HomesOk(s) && Improves(s, d, i)
    ensures HomesOk(Put(s, d, i, pending))
  {
    var s' := Put(s, d, i, pending);
    forall c | c in s'.home ensures HomeOk(s', c) {
      assert HomeOk(s, c);
    }
  }

  lemma {:induction false} PutDirs(s: Tree, d: nat, i: Inode, pending: map<nat, nat>)
    requires DirsOk(s) && Improves(s, d, i) && (Linked(i) ==> Linked(s.t[d]) && DirOk(Put(s, d, i, pending), d))
    ensures DirsOk(Put(s, d, i, pending))
  {
    var s' := Put(s, d, i, pending);
    PutGrows(s, d, i, pending);
    hide DirOk, Grows, Improves;
    forall b | 0 < b < |s'.t| && Linked(s'.t[b]) ensures DirOk(s', b) && (b == ROOT || b in s'.home) {
      if b != d {
        assert DirOk(s, b);
        DirStays(s, s', b);
      }
    }
  }

  lemma {:induction false} PutShape(s: Tree, d: nat, i: Inode, pending: map<nat, nat>)
    requires Shape(s) && Improves(s, d, i) && (Linked(i) ==> Linked(s.t[d]) && DirOk(Put(s, d, i, pending), d))
    ensures Shape(Put(s, d, i, pending))
  {
    PutHomes(s, d, i, pending);
    PutDirs(s, d, i, pending);
    hide DirOk, HomesOk, DirsOk;
  }

  lemma {:induction false} PromiseKeeps(s: Tree, x: nat)
    requires Inv(s) && 0 < x < |s.t| && s.t[x].kind != Dir && s.t[x].kind != Free
    ensures Inv(Promised(s, x))
  {
    var i := s.t[x].(nlink := s.t[x].nlink + 1);
    var s' := Promised(s, x);
    assert Improves(s, x, i);
    assert Counted(s') by {
      hide Shape, Count;
      forall y | 0 < y < |s.t| ensures CountedAt(s', y) {
        assert CountedAt(s, y);
        NlinkOnly(s.t, x, i.nlink, y);
      }
    }
    hide Shape, Counted, Improves;
    PutShape(s, x, i, s'.pending);
  }

  lemma {:induction false} WithdrawKeeps(s: Tree, x: nat)
    requires Inv(s) && Pending(s, x) > 0
    ensures 0 < x < |s.t| && Inv(Withdrawn(s, x))
  {
    PendingKind(s, x);
    var i := s.t[x].(nlink := s.t[x].nlink - 1);
    var s' := Withdrawn(s, x);
    assert Improves(s, x, i) && s' == Put(s, x, i, s'.pending);
    hide Shape, Count, Improves;
    PutShape(s, x, i, s'.pending);
    forall y | 0 < y < |s.t| ensures CountedAt(s', y) {
      assert CountedAt(s, y);
      NlinkOnly(s.t, x, i.nlink, y);
    }
  }

  lemma {:induction false} PendingKind(s: Tree, x: nat)
    requires Counted(s) && Pending(s, x) > 0
    ensures 0 < x < |s.t| && s.t[x].kind != Dir && s.t[x].kind != Free
  {
    assert CountedAt(s, x);
  }

  // The entry is written and the promise kept.
  function Entered(s: Tree, d: nat, k: nat, name: string, x: nat): Tree
    requires d < |s.t| && k <= |s.t[d].entries| && Pending(s, x) > 0
  {
    s.(t := s.t[d := s.t[d].(entries := Filled(s.t[d].entries, k, Entry(x, name)))],
       pending := s.pending[x := Pending(s, x) - 1])
  }

  lemma {:induction false} EnterCountedAt(s: Tree, d: nat, k: nat, name: string, x: nat, y: nat)
    requires Room(s, d, k, name) && name != "." && Pending(s, x) > 0 && 0 < x && 0 < y < |s.t| && CountedAt(s, y)
    ensures CountedAt(Entered(s, d, k, name, x), y)
  {
    hide Count, InEntries, Absent;
    var i := s.t[d].(entries := Filled(s.t[d].entries, k, Entry(x, name)));
    CountPut(s.t, d, i, y);
    FilledCount(s.t[d].entries, k, Entry(x, name), y);
    hide Filled;
  }

  lemma {:induction false} EnterKeeps(s: Tree, d: nat, k: nat, name: string, x: nat)
    requires Inv(s) && Room(s, d, k, name) && Pending(s, x) > 0
    ensures Inv(Entered(s, d, k, name, x))
  {
    hide Shape, CountedAt, Filled, Room;
    PendingKind(s, x);
    RoomBehindDots(s, d, k, name);
    RoomThere(s, d, k, name);
    var s' := Entered(s, d, k, name, x);
    EnterShape(s, d, k, Entry(x, name), s'.pending);
    forall y | 0 < y < |s.t| ensures CountedAt(s', y) {
      EnterCountedAt(s, d, k, name, x, y);
    }
  }

  lemma {:induction false} RoomThere(s: Tree, d: nat, k: nat, name: string)
    requires Room(s, d, k, name)
    ensures 0 < d < |s.t| && k <= |s.t[d].entries|
  {
  }

  lemma {:induction false} EnterShape(s: Tree, d: nat, k: nat, e: Entry, pending: map<nat, nat>)
    requires Shape(s) && Room(s, d, k, e.name) && 2 <= k && e.name != "." && e.name != ".."
    requires 0 < e.inum < |s.t| && s.t[e.inum].kind != Dir && s.t[e.inum].kind != Free
    ensures Shape(Put(s, d, s.t[d].(entries := Filled(s.t[d].entries, k, e)), pending))
  {
    var i := s.t[d].(entries := Filled(s.t[d].entries, k, e));
    var s' := Put(s, d, i, pending);
    FilledHas(s, d, k, e);
    assert Improves(s, d, i);
    PutGrows(s, d, i, pending);
    assert EntryOk(s', d, k);
    assert DirOk(s, d);
    hide DirOk, Grows, Filled, EntryOk, Improves, HomesOk, DirsOk;
    FilledDir(s, s', d, k, e);
    PutShape(s, d, i, pending);
  }

  lemma {:induction false} FilledHas(s: Tree, d: nat, k: nat, e: Entry)
    requires d < |s.t| && k <= |s.t[d].entries| && (k < |s.t[d].entries| ==> s.t[d].entries[k].inum == 0)
    ensures var es := Filled(s.t[d].entries, k, e);
            && |es| >= |s.t[d].entries| && k < |es| && es[k] == e
            && (forall j :: 0 <= j < |s.t[d].entries| && s.t[d].entries[j].inum != 0 ==> es[j] == s.t[d].entries[j])
  {
  }

  lemma {:induction false} FilledDir(s: Tree, s': Tree, d: nat, k: nat, e: Entry)
    requires Grows(s, s') && d < |s.t| && DirOk(s, d) && 2 <= k <= |s.t[d].entries| && Absent(s.t[d].entries, e.name)
    requires s'.t[d].entries == Filled(s.t[d].entries, k, e) && (d in s'.home ==> d in s.home)
    requires EntryOk(s', d, k)
    ensures DirOk(s', d)
  {
    FilledDistinct(s.t[d].entries, k, e);
    hide EntryOk, Distinct, Absent;
    forall j | 2 <= j < |s'.t[d].entries| ensures EntryOk(s', d, j) {
      if j != k {
        assert EntryOk(s, d, j);
        EntryStays(s, s', d, j, j);
      }
    }
  }

  lemma {:induction false} FilledDistinct(es: seq<Entry>, k: nat, e: Entry)
    requires Distinct(es) && Absent(es, e.name) && k <= |es|
    ensures Distinct(Filled(es, k, e))
  {
  }

  // ---- create ----

  // ialloc and nlink = 1: an inode with one promised name.
  function Allocated(s: Tree, x: nat, kind: Kind): Tree
    requires x < |s.t|
  {
    Put(s, x, Inode(kind, 1, []), s.pending[x := 1])
  }

  lemma {:induction false} AllocKeeps(s: Tree, x: nat, kind: Kind)
    requires Inv(s) && 0 < x < |s.t| && s.t[x].kind == Free && kind != Free && kind != Dir
    ensures Inv(Allocated(s, x, kind))
  {
    var i := Inode(kind, 1, []);
    var s' := Allocated(s, x, kind);
    assert Improves(s, x, i) && CountedAt(s, x);
    hide Shape, Count, Improves;
    PutShape(s, x, i, s'.pending);
    forall y | 0 < y < |s.t| ensures CountedAt(s', y) {
      assert CountedAt(s, y);
      CountPut(s.t, x, i, y);
    }
  }

  // mkdir: x becomes a directory inside d, named by slot k.
  function NewDir(s: Tree, d: nat, k: nat, name: string, x: nat): Tree
    requires d < |s.t| && x < |s.t| && k <= |s.t[d].entries|
  {
    var parent := s.t[d].(entries := Filled(s.t[d].entries, k, Entry(x, name)), nlink := s.t[d].nlink + 1);
    Tree(s.t[x := Inode(Dir, 1, [Entry(x, "."), Entry(d, "..")])][d := parent], s.home[x := Home(d, k)], s.pending)
  }

  lemma {:induction false} NewDirCounted(s: Tree, d: nat, k: nat, name: string, x: nat)
    requires Counted(s) && Room(s, d, k, name) && name != "."
    requires 0 < x < |s.t| && s.t[x].kind == Free
    ensures Counted(NewDir(s, d, k, name, x))
  {
    var s' := NewDir(s, d, k, name, x);
    var t1 := s.t[x := s'.t[x]];
    assert CountedAt(s, x) && x != d;
    forall y | 0 < y < |s.t| ensures CountedAt(s', y) {
      assert CountedAt(s, y);
      CountPut(s.t, x, s'.t[x], y);
      CountPut(t1, d, s'.t[d], y);
      DotDotCount(x, d, y);
      hide Count, InEntries, Filled;
      FilledCount(s.t[d].entries, k, Entry(x, name), y);
    }
  }

  lemma {:induction false} DotDotCount(x: nat, d: nat, y: nat)
    ensures InEntries([Entry(x, "."), Entry(d, "..")], y) == One(Entry(d, ".."), y)
  {
    EntriesAppend([], Entry(x, "."), y);
    EntriesAppend([Entry(x, ".")], Entry(d, ".."), y);
    assert [] + [Entry(x, ".")] == [Entry(x, ".")];
    assert [Entry(x, ".")] + [Entry(d, "..")] == [Entry(x, "."), Entry(d, "..")];
  }

  // The directories other than d and x are as they were.
  predicate Untouched(s: Tree, s': Tree, d: nat, x: nat) {
    && |s'.t| == |s.t| && ROOT < |s'.t| && Linked(s'.t[ROOT]) && s'.t[0].kind == Free
    && forall b :: 0 < b < |s.t| && b != d && b != x ==> s'.t[b] == s.t[b] && (b in s'.home <==> b in s.home)
  }

  // A directory that is not linked, or is as it should be.
  predicate DirFine(s: Tree, b: nat)
    requires b < |s.t|
  {
    Linked(s.t[b]) ==> DirOk(s, b) && (b == ROOT || b in s.home)
  }

  lemma {:induction false} ShapeFrom(s: Tree, s': Tree, d: nat, x: nat)
    requires Shape(s) && Grows(s, s') && Untouched(s, s', d, x)
    requires d < |s'.t| && x < |s'.t| && DirFine(s', d) && DirFine(s', x) && HomesOk(s')
    ensures Shape(s')
  {
    hide DirOk, Grows, HomesOk;
    forall b | 0 < b < |s'.t| && Linked(s'.t[b]) ensures DirOk(s', b) && (b == ROOT || b in s'.home) {
      if b != d && b != x {
        assert DirOk(s, b);
        DirStays(s, s', b);
      }
    }
  }

  lemma {:induction false} NewDirHomes(s: Tree, d: nat, k: nat, name: string, x: nat)
    requires HomesOk(s) && Room(s, d, k, name) && 2 <= k && d != x
    requires 0 < x < |s.t| && x != ROOT && s.t[x].kind == Free
    ensures HomesOk(NewDir(s, d, k, name, x)) && x !in s.home
  {
    var s' := NewDir(s, d, k, name, x);
    FilledHas(s, d, k, Entry(x, name));
    hide Filled;
    forall c | c in s'.home ensures HomeOk(s', c) {
      if c != x { assert HomeOk(s, c); }
    }
    assert x in s.home ==> HomeOk(s, x);
  }

  lemma {:induction false} NewDirDirs(s: Tree, d: nat, k: nat, name: string, x: nat)
    requires Room(s, d, k, name) && DirOk(s, d) && 2 <= k && name != "." && name != ".." && d != x
    requires 0 < x < |s.t| && x !in s.home && s.t[x].kind == Free
    ensures var s' := NewDir(s, d, k, name, x); Grows(s, s') && DirOk(s', d) && DirOk(s', x)
  {
    var s' := NewDir(s, d, k, name, x);
    FilledHas(s, d, k, Entry(x, name));
    hide Filled;
    assert Grows(s, s');
    assert EntryOk(s', d, k);
    FilledDir(s, s', d, k, Entry(x, name));
  }

  lemma {:induction false} LinkedFine(s: Tree, d: nat)
    requires Shape(s) && 0 < d < |s.t| && Linked(s.t[d])
    ensures DirOk(s, d) && (d == ROOT || d in s.home) && HomesOk(s)
  {
  }

  lemma {:induction false} NewDirFrame(s: Tree, d: nat, k: nat, name: string, x: nat)
    requires Shape(s) && Room(s, d, k, name) && 0 < x < |s.t| && s.t[x].kind == Free
    ensures Untouched(s, NewDir(s, d, k, name, x), d, x) && x != ROOT && x != d
  {
    hide DirsOk, HomesOk, Filled;
  }

  lemma {:induction false} NewDirShape(s: Tree, d: nat, k: nat, name: string, x: nat)
    requires Shape(s) && Room(s, d, k, name) && 2 <= k && name != "." && name != ".."
    requires 0 < x < |s.t| && s.t[x].kind == Free
    ensures Shape(NewDir(s, d, k, name, x))
  {
    hide Shape, DirOk, HomesOk, DirsOk, Grows, Untouched;
    LinkedFine(s, d);
    NewDirFrame(s, d, k, name, x);
    NewDirHomes(s, d, k, name, x);
    NewDirDirs(s, d, k, name, x);
    ShapeFrom(s, NewDir(s, d, k, name, x), d, x);
  }

  lemma {:induction false} NewDirKeeps(s: Tree, d: nat, k: nat, name: string, x: nat)
    requires Inv(s) && Room(s, d, k, name) && 0 < x < |s.t| && s.t[x].kind == Free
    ensures Inv(NewDir(s, d, k, name, x))
  {
    RoomBehindDots(s, d, k, name);
    NewDirShape(s, d, k, name, x);
    NewDirCounted(s, d, k, name, x);
  }

  // ---- unlink ----

  predicate Names(s: Tree, d: nat, k: nat, x: nat) {
    0 < d < |s.t| && Linked(s.t[d]) && 2 <= k < |s.t[d].entries| && s.t[d].entries[k].inum == x != 0
  }

  // The entry goes; the name it gave is owed back to nlink.
  function Erased(s: Tree, d: nat, k: nat): Tree
    requires d < |s.t| && k < |s.t[d].entries|
  {
    var x := s.t[d].entries[k].inum;
    Put(s, d, s.t[d].(entries := s.t[d].entries[k := EMPTY]), s.pending[x := Pending(s, x) + 1])
  }

  lemma {:induction false} ErasedDir(s: Tree, s': Tree, d: nat, k: nat)
    requires d < |s.t| && DirOk(s, d) && 2 <= k < |s.t[d].entries| && |s'.t| == |s.t|
    requires s'.t[d].entries == s.t[d].entries[k := EMPTY]
    requires d in s'.home <==> d in s.home
    requires d in s.home ==> s'.home[d] == s.home[d]
    requires forall j :: 2 <= j < |s.t[d].entries| && j != k ==> EntryOk(s', d, j)
    ensures DirOk(s', d)
  {
    hide EntryOk;
    assert EntryOk(s', d, k) by { EmptyOk(s', d, k); }
  }

  lemma {:induction false} EmptyOk(s: Tree, d: nat, k: nat)
    requires d < |s.t| && k < |s.t[d].entries| && s.t[d].entries[k] == EMPTY
    ensures EntryOk(s, d, k)
  {
  }

  lemma {:induction false} EraseCountedAt(s: Tree, d: nat, k: nat, x: nat, y: nat)
    requires Names(s, d, k, x) && x < |s.t| && s.t[x].kind != Dir && s.t[d].entries[k].name != "."
    requires 0 < y < |s.t| && CountedAt(s, y)
    ensures CountedAt(Erased(s, d, k), y)
  {
    hide Count, InEntries;
    var i := s.t[d].(entries := s.t[d].entries[k := EMPTY]);
    CountPut(s.t, d, i, y);
    EntriesPut(s.t[d].entries, k, EMPTY, y);
  }

  lemma {:induction false} NamedThing(s: Tree, d: nat, k: nat, x: nat)
    requires Shape(s) && Names(s, d, k, x)
    ensures s.t[d].entries[k].name != "." && x < |s.t| && s.t[x].kind != Free
  {
    assert DirOk(s, d);
    assert EntryOk(s, d, k);
  }

  lemma {:induction false} EraseKeeps(s: Tree, d: nat, k: nat, x: nat)
    requires Inv(s) && Names(s, d, k, x) && 0 < x < |s.t| && s.t[x].kind != Dir
    ensures Inv(Erased(s, d, k)) && Pending(Erased(s, d, k), x) > 0
  {
    hide Shape, CountedAt;
    EraseShape(s, d, k, x);
    NamedThing(s, d, k, x);
    forall y | 0 < y < |s.t| ensures CountedAt(Erased(s, d, k), y) {
      EraseCountedAt(s, d, k, x, y);
    }
  }

  lemma {:induction false} EraseHomes(s: Tree, d: nat, k: nat, x: nat)
    requires HomesOk(s) && Names(s, d, k, x) && x < |s.t| && s.t[x].kind != Dir
    ensures HomesOk(Erased(s, d, k))
  {
    var s' := Erased(s, d, k);
    forall c | c in s'.home ensures HomeOk(s', c) { assert HomeOk(s, c); }
  }

  lemma {:induction false} EraseDir(s: Tree, s': Tree, d: nat, k: nat)
    requires d < |s.t| && DirOk(s, d) && 2 <= k < |s.t[d].entries| && Grows(s, s')
    requires s'.t[d].entries == s.t[d].entries[k := EMPTY] && (d in s'.home <==> d in s.home)
    ensures DirOk(s', d)
  {
    SameLength(s, s');
    HomeSame(s, s', d);
    forall j | 2 <= j < |s.t[d].entries| && j != k ensures EntryOk(s', d, j) {
      assert EntryOk(s, d, j);
      EntryStays(s, s', d, j, j);
    }
    ErasedDir(s, s', d, k);
  }

  lemma {:induction false} EraseFrame(s: Tree, d: nat, k: nat, x: nat)
    requires Shape(s) && Names(s, d, k, x)
    ensures Untouched(s, Erased(s, d, k), d, d) && Grows(s, Erased(s, d, k))
  {
    hide DirsOk, HomesOk;
  }

  lemma {:induction false} EraseShape(s: Tree, d: nat, k: nat, x: nat)
    requires Shape(s) && Names(s, d, k, x) && 0 < x < |s.t| && s.t[x].kind != Dir
    ensures Shape(Erased(s, d, k))
  {
    hide Shape, DirOk, HomesOk, DirsOk, Grows, Untouched;
    LinkedFine(s, d);
    EraseFrame(s, d, k, x);
    EraseHomes(s, d, k, x);
    EraseDir(s, Erased(s, d, k), d, k);
    ShapeFrom(s, Erased(s, d, k), d, d);
  }

  // ---- removing a directory ----

  predicate EmptyDir(i: Inode) {
    forall j :: 2 <= j < |i.entries| ==> i.entries[j].inum == 0
  }

  // The directory c named by slot k of d goes: its entry, its name for d, and its link.
  function Detached(s: Tree, d: nat, k: nat, c: nat): Tree
    requires d < |s.t| && c < |s.t| && k < |s.t[d].entries|
  {
    var parent := s.t[d].(entries := s.t[d].entries[k := EMPTY], nlink := s.t[d].nlink - 1);
    Tree(s.t[d := parent][c := s.t[c].(nlink := s.t[c].nlink - 1)], s.home - {c}, s.pending)
  }

  predicate Removable(s: Tree, d: nat, k: nat, c: nat) {
    Names(s, d, k, c) && c < |s.t| && s.t[c].kind == Dir && EmptyDir(s.t[c])
  }

  lemma {:induction false} RemovableHome(s: Tree, d: nat, k: nat, c: nat)
    requires Shape(s) && Removable(s, d, k, c)
    ensures c in s.home && s.home[c] == Home(d, k) && c != d && c != ROOT && Linked(s.t[c]) && DirOk(s, c)
            && DirOk(s, d)
    ensures s.t[d].entries[k].name != "." && s.t[c].entries[1] == Entry(d, "..")
  {
    assert DirOk(s, d) && EntryOk(s, d, k);
    assert HomeOk(s, c);
    assert DirOk(s, c);
  }

  // Nobody else names c.
  lemma {:induction false} NamedOnce(s: Tree, d: nat, k: nat, c: nat)
    requires Shape(s) && Removable(s, d, k, c)
    ensures Count(s.t, c) == 1
  {
    RemovableHome(s, d, k, c);
    forall b, j | 0 <= b < |s.t| && Linked(s.t[b]) && 0 <= j < |s.t[b].entries| && (b != d || j != k)
      ensures One(s.t[b].entries[j], c) == 0
    {
      OtherName(s, d, k, c, b, j);
    }
    CountOnce(s.t, d, k, c);
  }

  lemma {:induction false} OtherName(s: Tree, d: nat, k: nat, c: nat, b: nat, j: nat)
    requires Shape(s) && Removable(s, d, k, c) && c in s.home && s.home[c] == Home(d, k) && c != ROOT
    requires b < |s.t| && Linked(s.t[b]) && j < |s.t[b].entries| && (b != d || j != k)
    ensures One(s.t[b].entries[j], c) == 0
  {
    assert b != 0;
    assert DirOk(s, b);
    if j >= 2 {
      assert EntryOk(s, b, j);
    } else if j == 1 && b in s.home {
      assert HomeOk(s, b);
    }
  }

  // The parent has another name than the one c gives it.
  lemma {:induction false} OtherParentName(s: Tree, d: nat, k: nat, c: nat) returns (h: nat)
    requires Shape(s) && Removable(s, d, k, c) && c != d && c != ROOT
    ensures h < |s.t| && h != c && Part(s.t[h], d) >= 1
  {
    assert d == ROOT || d in s.home;
    if d == ROOT {
      assert d in s.home ==> HomeOk(s, d);
      assert DirOk(s, d);
      EntriesHave(s.t[d].entries, 1, d);
      h := d;
    } else {
      assert HomeOk(s, d);
      h := s.home[d].dir;
      assert DirOk(s, h);
      assert EntryOk(s, h, s.home[d].slot);
      EntriesHave(s.t[h].entries, s.home[d].slot, d);
    }
  }

  // The parent keeps another name.
  lemma {:induction false} ParentStaysLinked(s: Tree, d: nat, k: nat, c: nat)
    requires Inv(s) && Removable(s, d, k, c)
    ensures s.t[d].nlink >= 2 && s.t[c].nlink == 1
  {
    RemovableHome(s, d, k, c);
    NamedOnce(s, d, k, c);
    assert CountedAt(s, c) && CountedAt(s, d);
    hide Count, Shape, InEntries, DirOk, Removable, EmptyDir;
    EntriesHave(s.t[c].entries, 1, d);
    assert Part(s.t[c], d) >= 1;
    var h := OtherParentName(s, d, k, c);
    CountTwo(s.t, c, h, d);
  }

  lemma {:induction false} CountTwo(t: seq<Inode>, a: nat, b: nat, x: nat)
    requires a < |t| && b < |t| && a != b
    ensures Count(t, x) >= Part(t[a], x) + Part(t[b], x)
  {
    var i := t[a].(nlink := 0);
    CountPut(t, a, i, x);
    CountHas(t[a := i], b, x);
  }

  lemma {:induction false} EmptyDirCount(s: Tree, c: nat, d: nat, y: nat)
    requires c < |s.t| && DirOk(s, c) && EmptyDir(s.t[c]) && s.t[c].entries[1] == Entry(d, "..")
    ensures InEntries(s.t[c].entries, y) == One(Entry(d, ".."), y)
  {
    var es := s.t[c].entries[1 := EMPTY];
    EntriesPut(s.t[c].entries, 1, EMPTY, y);
    EntriesNone(es, y);
  }

  lemma {:induction false} DetachCount(s: Tree, d: nat, k: nat, c: nat, y: nat)
    requires d < |s.t| && c < |s.t| && c != d && k < |s.t[d].entries| && Linked(s.t[d]) && Linked(s.t[c])
    requires s.t[d].nlink >= 2 && s.t[c].nlink == 1 && s.t[d].entries[k].inum == c != 0 && s.t[d].entries[k].name != "."
    requires InEntries(s.t[c].entries, y) == One(Entry(d, ".."), y) && y != 0
    ensures Count(Detached(s, d, k, c).t, y) == Count(s.t, y) - (if y == d then 1 else 0) - (if y == c then 1 else 0)
  {
    var s' := Detached(s, d, k, c);
    hide Count, InEntries;
    CountPut(s.t, d, s'.t[d], y);
    CountPut(s.t[d := s'.t[d]], c, s'.t[c], y);
    EntriesPut(s.t[d].entries, k, EMPTY, y);
  }

  lemma {:induction false} DetachCountedAt(s: Tree, d: nat, k: nat, c: nat, y: nat)
    requires 0 < y < |s.t| && CountedAt(s, y) && Removable(s, d, k, c) && c != d && DirOk(s, c) && Linked(s.t[c])
    requires s.t[d].nlink >= 2 && s.t[c].nlink == 1 && s.t[d].entries[k].name != "."
             && s.t[c].entries[1] == Entry(d, "..")
    ensures CountedAt(Detached(s, d, k, c), y)
  {
    hide Count, InEntries;
    EmptyDirCount(s, c, d, y);
    hide DirOk, EmptyDir;
    DetachCount(s, d, k, c, y);
  }

  lemma {:induction false} DetachCounted(s: Tree, d: nat, k: nat, c: nat)
    requires Inv(s) && Removable(s, d, k, c)
    ensures Counted(Detached(s, d, k, c))
  {
    hide Shape, CountedAt, DirOk, EmptyDir;
    RemovableHome(s, d, k, c);
    ParentStaysLinked(s, d, k, c);
    forall y | 0 < y < |s.t| ensures CountedAt(Detached(s, d, k, c), y) {
      DetachCountedAt(s, d, k, c, y);
    }
  }

  lemma {:induction false} DetachHomes(s: Tree, d: nat, k: nat, c: nat)
    requires HomesOk(s) && Removable(s, d, k, c) && c != d && s.t[d].nlink >= 2
    ensures HomesOk(Detached(s, d, k, c))
  {
    var s' := Detached(s, d, k, c);
    forall b | b in s'.home ensures HomeOk(s', b) { assert HomeOk(s, b); }
  }

  lemma {:induction false} DetachEntry(s: Tree, d: nat, k: nat, c: nat, b: nat, j: nat)
    requires Removable(s, d, k, c) && c != d && c in s.home && s.home[c] == Home(d, k)
    requires b < |s.t| && b != c && j < |s.t[b].entries| && (b != d || j != k) && EntryOk(s, b, j)
    ensures EntryOk(Detached(s, d, k, c), b, j)
  {
  }

  lemma {:induction false} DetachDir(s: Tree, d: nat, k: nat, c: nat, b: nat)
    requires Removable(s, d, k, c) && c != d && c in s.home && s.home[c] == Home(d, k)
    requires b < |s.t| && b != c && DirOk(s, b)
    ensures DirOk(Detached(s, d, k, c), b)
  {
    var s' := Detached(s, d, k, c);
    hide EntryOk, Distinct;
    forall j | 2 <= j < |s.t[b].entries| && (b != d || j != k) ensures EntryOk(s', b, j) {
      assert EntryOk(s, b, j);
      DetachEntry(s, d, k, c, b, j);
    }
    if b == d {
      ErasedDir(s, s', d, k);
    }
  }

  lemma {:induction false} DetachDirs(s: Tree, d: nat, k: nat, c: nat)
    requires DirsOk(s) && Removable(s, d, k, c) && c != d && c in s.home && s.home[c] == Home(d, k) && s.t[c].nlink == 1
    ensures DirsOk(Detached(s, d, k, c))
  {
    var s' := Detached(s, d, k, c);
    hide DirOk, EmptyDir;
    forall b | 0 < b < |s'.t| && Linked(s'.t[b]) ensures DirOk(s', b) && (b == ROOT || b in s'.home) {
      assert b != c;
      assert Linked(s.t[b]);
      assert DirOk(s, b);
      DetachDir(s, d, k, c, b);
    }
  }

  lemma {:induction false} DetachShape(s: Tree, d: nat, k: nat, c: nat)
    requires Inv(s) && Removable(s, d, k, c)
    ensures Shape(Detached(s, d, k, c))
  {
    RemovableHome(s, d, k, c);
    ParentStaysLinked(s, d, k, c);
    hide Counted, DirOk, HomesOk, DirsOk, EmptyDir;
    DetachHomes(s, d, k, c);
    DetachDirs(s, d, k, c);
  }

  lemma {:induction false} DetachKeeps(s: Tree, d: nat, k: nat, c: nat)
    requires Inv(s) && Removable(s, d, k, c)
    ensures Inv(Detached(s, d, k, c))
  {
    hide Shape, Counted;
    DetachShape(s, d, k, c);
    DetachCounted(s, d, k, c);
  }

  // ---- freeing an inode without names ----

  lemma {:induction false} ReleaseEntry(s: Tree, x: nat, b: nat, j: nat)
    requires Inv(s) && 0 < x < |s.t| && s.t[x].nlink == 0
    requires 0 < b < |s.t| && Linked(s.t[b]) && 2 <= j < |s.t[b].entries| && EntryOk(s, b, j)
    ensures s.t[b].entries[j].inum != x
  {
    assert CountedAt(s, x);
    EntriesHave(s.t[b].entries, j, x);
    CountHas(s.t, b, x);
  }

  lemma {:induction false} ReleaseShape(s: Tree, x: nat)
    requires Inv(s) && 0 < x < |s.t| && s.t[x].nlink == 0
    ensures Shape(Put(s, x, Inode(Free, 0, []), s.pending))
  {
    var s' := Put(s, x, Inode(Free, 0, []), s.pending);
    assert HomesOk(s') by {
      forall c | c in s'.home ensures HomeOk(s', c) { assert HomeOk(s, c); }
    }
    hide HomesOk, Counted, Count;
    forall b | 0 < b < |s'.t| && Linked(s'.t[b]) ensures DirOk(s', b) && (b == ROOT || b in s'.home) {
      assert DirOk(s, b);
      forall j | 2 <= j < |s'.t[b].entries| ensures EntryOk(s', b, j) {
        assert EntryOk(s, b, j);
        ReleaseEntry(s, x, b, j);
      }
    }
  }

  lemma {:induction false} ReleaseKeeps(s: Tree, x: nat)
    requires Inv(s) && 0 < x < |s.t| && s.t[x].nlink == 0
    ensures Inv(Put(s, x, Inode(Free, 0, []), s.pending))
  {
    var s' := Put(s, x, Inode(Free, 0, []), s.pending);
    ReleaseShape(s, x);
    assert CountedAt(s, x);
    hide Shape, Count;
    forall y | 0 < y < |s.t| ensures CountedAt(s', y) {
      assert CountedAt(s, y);
      CountPut(s.t, x, s'.t[x], y);
    }
  }

  // ---- directories that are no longer linked ----

  // An entry written into a directory that has been removed meanwhile is not
  // counted, so there the link count comes out wrong: writing the entry keeps
  // the counts exactly when the directory is still linked.
  lemma {:induction false} EnterIff(s: Tree, d: nat, k: nat, name: string, x: nat)
    requires Inv(s) && Pending(s, x) > 0 && Slot(s, d, k, name)
    ensures Counted(Entered(s, d, k, name, x)) <==> Linked(s.t[d])
  {
    if Linked(s.t[d]) {
      EnterKeeps(s, d, k, name, x);
    } else {
      PendingKind(s, x);
      var s' := Entered(s, d, k, name, x);
      assert CountedAt(s, x);
      CountPut(s.t, d, s'.t[d], x);
      assert !CountedAt(s', x);
    }
  }

  // What is left of a removed directory: "." and "..".
  predicate Remains(i: Inode, n: nat) {
    && i.kind == Dir && |i.entries| >= 2 && i.entries[0].name == "." && i.entries[1].name == ".." && EmptyDir(i)
    && 0 < i.entries[0].inum < n && 0 < i.entries[1].inum < n
  }

  lemma {:induction false} RemainsCount(i: Inode, n: nat, y: nat)
    requires Remains(i, n)
    ensures InEntries(i.entries, y) == One(i.entries[1], y)
  {
    EntriesPut(i.entries, 1, EMPTY, y);
    EntriesNone(i.entries[1 := EMPTY], y);
  }

  // mkdir in a removed directory makes that count as linked again: the new
  // directory's ".." names it. Then its own ".." counts for the directory it was
  // in, whose nlink nobody raises. So mkdir keeps the counts exactly when the
  // parent is still linked.
  lemma {:induction false} NewDirIff(s: Tree, d: nat, k: nat, name: string, x: nat)
    requires Inv(s) && Slot(s, d, k, name) && 0 < x < |s.t| && s.t[x].kind == Free
    requires Linked(s.t[d]) || Remains(s.t[d], |s.t|)
    ensures Counted(NewDir(s, d, k, name, x)) <==> Linked(s.t[d])
  {
    if Linked(s.t[d]) {
      NewDirKeeps(s, d, k, name, x);
    } else {
      NewDirMiscounts(s, d, k, name, x);
    }
  }

  lemma {:induction false} NewDirMiscounts(s: Tree, d: nat, k: nat, name: string, x: nat)
    requires Counted(s) && Slot(s, d, k, name) && 0 < x < |s.t| && s.t[x].kind == Free && !Linked(s.t[d])
             && Remains(s.t[d], |s.t|)
    ensures var p := s.t[d].entries[1].inum; !CountedAt(NewDir(s, d, k, name, x), p)
  {
    var s' := NewDir(s, d, k, name, x);
    var p := s.t[d].entries[1].inum;
    assert CountedAt(s, p) && CountedAt(s, x) && CountedAt(s, d);
    assert name != "." && d != x;
    RemainsCount(s.t[d], |s.t|, p);
    FilledCount(s.t[d].entries, k, Entry(x, name), p);
    hide Count, InEntries, Filled, Remains, Slot, EmptyDir, Counted;
    NewDirCount(s, d, k, name, x, p);
  }

  lemma {:induction false} NewDirCount(s: Tree, d: nat, k: nat, name: string, x: nat, y: nat)
    requires d < |s.t| && x < |s.t| && d != x && k <= |s.t[d].entries| && s.t[x].kind == Free && s.t[d].kind == Dir
             && s.t[d].nlink == 0
    ensures var s' := NewDir(s, d, k, name, x);
            Count(s'.t, y) ==
            Count(s.t, y) + One(Entry(d, ".."), y) + InEntries(Filled(s.t[d].entries, k, Entry(x, name)), y)
  {
    var s' := NewDir(s, d, k, name, x);
    var t1 := s.t[x := s'.t[x]];
    hide Count, InEntries, Filled;
    CountPut(s.t, x, s'.t[x], y);
    CountPut(t1, d, s'.t[d], y);
    DotDotCount(x, d, y);
  }

  // ---- a new image ----

  // mkfs leaves n inodes, of which only the root directory is in use.
  function NewImage(n: nat): Tree
    requires n >= 2
  {
    Tree(seq(n, i => if i == ROOT then Inode(Dir, 1, [Entry(ROOT, "."), Entry(ROOT, "..")]) else Inode(Free, 0, [])),
         map[], map[])
  }

  lemma {:induction false} RootParts(t: seq<Inode>, x: nat)
    requires |t| >= 2 && t[ROOT] == Inode(Dir, 1, [Entry(ROOT, "."), Entry(ROOT, "..")])
    requires forall d :: 0 <= d < |t| && d != ROOT ==> !Linked(t[d])
    ensures Count(t, x) == if x == ROOT then 1 else 0
  {
    var t' := t[ROOT := Inode(Free, 0, [])];
    CountPut(t, ROOT, Inode(Free, 0, []), x);
    CountNone(t', x);
    DotDotCount(ROOT, ROOT, x);
  }

  lemma {:induction false} NewImageInv(n: nat)
    requires n >= 2
    ensures Inv(NewImage(n))
  {
    var s := NewImage(n);
    forall x | 0 < x < n ensures CountedAt(s, x) {
      RootParts(s.t, x);
    }
  }

  // The counts do come out wrong: a file whose link is on its way, and a
  // directory that was removed before the entry is written.
  lemma {:induction false} EnterMiscounts() returns (s: Tree)
    ensures Inv(s) && Pending(s, 2) == 1 && Slot(s, 3, 2, "a") && !Counted(Entered(s, 3, 2, "a", 2))
  {
    var dots := [Entry(3, "."), Entry(ROOT, "..")];
    var t := [Inode(Free, 0, []), Inode(Dir, 1, [Entry(ROOT, "."), Entry(ROOT, "..")]), Inode(File, 1, []),
              Inode(Dir, 0, dots)];
    s := Tree(t, map[], map[2 := 1]);
    forall x | 0 < x < 4 ensures CountedAt(s, x) {
      RootParts(t, x);
    }
    EnterIff(s, 3, 2, "a", 2);
  }

  // So does mkdir in a removed directory.
  lemma {:induction false} MkdirMiscounts() returns (s: Tree)
    ensures Inv(s) && |s.t| == 4 && s.t[2].kind == Free && Slot(s, 3, 2, "a") && !Counted(NewDir(s, 3, 2, "a", 2))
  {
    var dots := [Entry(3, "."), Entry(ROOT, "..")];
    var t := [Inode(Free, 0, []), Inode(Dir, 1, [Entry(ROOT, "."), Entry(ROOT, "..")]), Inode(Free, 0, []),
              Inode(Dir, 0, dots)];
    s := Tree(t, map[], map[]);
    forall x | 0 < x < 4 ensures CountedAt(s, x) {
      RootParts(t, x);
    }
    NewDirIff(s, 3, 2, "a", 2);
  }
}
