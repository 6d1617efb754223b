// fork's parent link, exit, reparent and wait (kernel/proc.c) as clients of
// sleep() and wakeup() under wait_lock.
module ExitWait {
  import opened Monitor
  import opened Prelude

  datatype Life = Unused | Live | Zombie

  // Where a process is. A child exists as Embryo from allocproc until fork makes
  // it runnable; a process that has exited is Dying until it has switched away
  // from its kernel stack, which is when its p->lock is free again.
  datatype Place =
    | Free
    | Embryo(from: Pid)
    | Normal
    | Forking(child: Pid)
    | Forked(child: Pid)
    | Exiting(status: int)
    | Reparenting(status: int, i: nat)
    | GaveChild(status: int, i: nat)
    | WakesParent(status: int)
    | Doomed(status: int)
    | Dying
    | Gone
    | Waiting
    | Scanning(i: nat, kids: bool)

  datatype Slot = Slot(state: Life, parent: Option<Pid>, pid: nat, xstate: int, at: Place)

  datatype Reap = Reap(pid: nat, status: int, reaper: nat)

  // The process table; exits and reaped record what exit() was called with and
  // what wait() returned to whom, and kin the last parent each process was given.
  datatype Table = Table(slots: seq<Slot>, nextpid: nat, exits: map<nat, int>, reaped: seq<Reap>, kin: map<nat, nat>)

  const INIT: Pid := 0
  const FREE: Slot := Slot(Unused, None, 0, 0, Free)

  // The channel of process p is the address of its slot.
  function Addr(p: Pid): Chan {
    p + 1
  }

  function Set(s: Table, p: Pid, r: Slot): Table
    requires p < |s.slots|
  {
    s.(slots := s.slots[p := r])
  }

  function Move(s: Table, p: Pid, w: Place): Table
    requires p < |s.slots|
  {
    Set(s, p, s.slots[p].(at := w))
  }

  // ---- steps without wait_lock ----

  predicate Allocates(p: Pid, s: Table, s': Table) {
    && p < |s.slots| && s.slots[p].at == Normal && p < |s'.slots| && s'.slots[p].at.Forking?
    && var c := s'.slots[p].at.child;
       && c < |s.slots| && s.slots[c].state == Unused
       && s' == Move(Set(s, c, Slot(Live, None, s.nextpid, 0, Embryo(p))), p, Forking(c)).(nextpid := s.nextpid + 1)
  }

  predicate OutsideStep(p: Pid, s: Table, s': Table) {
    && p < |s.slots|
    && match s.slots[p].at
       case Normal =>
         || s' == Move(s, p, Waiting)
         || (p != INIT && p < |s'.slots| && s'.slots[p].at.Exiting? && s' == Move(s, p, s'.slots[p].at))
         || Allocates(p, s, s')
       case Forking(c) => c < |s.slots| && s' == Move(Set(s, c, FREE), p, Normal)          // uvmcopy failed
       case Forked(c) => c < |s.slots| && s' == Move(Move(s, c, Normal), p, Normal)
       case Dying => s' == Move(s, p, Gone)
       case _ => false
  }

  predicate MayEnter(p: Pid, s: Table) {
    p < |s.slots| && var w := s.slots[p].at; w.Waiting? || w.Exiting? || w.Forking?
  }

  // ---- steps with wait_lock ----

  predicate InsideStep(p: Pid, s: Table, s': Table) {
    && p < |s.slots|
    && match s.slots[p].at
       case Forking(c) =>
         c < |s.slots| && s' == Linked(p, s, c)
       case Exiting(status) => s' == Move(s, p, Reparenting(status, 0))
       case Reparenting(status, i) => ReparentStep(p, s, status, i, s')
       case Doomed(status) =>
         s' == Set(s, p, s.slots[p].(state := Zombie, xstate := status, at := Dying))
               .(exits := s.exits[s.slots[p].pid := status])
       case Waiting => s' == Move(s, p, Scanning(0, false))
       case Scanning(i, kids) => ScanStep(p, s, i, kids, s')
       case _ => false
  }

  predicate ReparentStep(p: Pid, s: Table, status: int, i: nat, s': Table)
    requires p < |s.slots|
  {
    if i >= |s.slots| then s' == Move(s, p, WakesParent(status))
    else if s.slots[i].parent == Some(p) then
      INIT < |s.slots| && s' == Given(p, s, status, i)
    else s' == Move(s, p, Reparenting(status, i + 1))
  }

  // initproc becomes the parent of the process in slot i.
  function Adopted(s: Table, i: Pid): Table
    requires i < |s.slots| && INIT < |s.slots|
  {
    Set(s, i, s.slots[i].(parent := Some(INIT))).(kin := s.kin[s.slots[i].pid := s.slots[INIT].pid])
  }

  function Given(p: Pid, s: Table, status: int, i: Pid): Table
    requires p < |s.slots| && i < |s.slots| && INIT < |s.slots|
  {
    Move(Adopted(s, i), p, GaveChild(status, i))
  }

  predicate ScanStep(p: Pid, s: Table, i: nat, kids: bool, s': Table)
    requires p < |s.slots|
  {
    if i >= |s.slots| then s' == Move(s, p, Normal)                 // no children, or killed
    else if s.slots[i].parent == Some(p) then
      if s.slots[i].state == Zombie then
        && s.slots[i].at == Gone                                     // pp->lock is free
        && (s' == Move(s, p, Normal) || s' == Reaped(p, s, i))       // copyout failed, or not
      else s' == Move(s, p, Scanning(i + 1, true))
    else s' == Move(s, p, Scanning(i + 1, kids))
  }

  function Reaped(p: Pid, s: Table, i: Pid): Table
    requires p < |s.slots| && i < |s.slots|
  {
    var reaper := s.slots[p].pid;
    Move(Set(s, i, FREE), p, Normal).(reaped := s.reaped + [Reap(s.slots[i].pid, s.slots[i].xstate, reaper)])
  }

  predicate MaySleep(p: Pid, s: Table, ch: Chan) {
    p < |s.slots| && var w := s.slots[p].at; w.Scanning? && w.i >= |s.slots| && w.kids && ch == Addr(p)
  }

  function Asleep(p: Pid, s: Table, ch: Chan): Table {
    if p < |s.slots| then Move(s, p, Waiting) else s
  }

  predicate MayWake(p: Pid, s: Table, ch: Chan) {
    && p < |s.slots|
    && var w := s.slots[p].at;
       || (w.GaveChild? && ch == Addr(INIT))
       || (w.WakesParent? && s.slots[p].parent.Some? && ch == Addr(s.slots[p].parent.value))
  }

  function AfterWake(p: Pid, s: Table, ch: Chan): Table {
    if p >= |s.slots| then s
    else
      match s.slots[p].at
      case GaveChild(status, i) => Move(s, p, Reparenting(status, i + 1))
      case WakesParent(status) => Move(s, p, Doomed(status))
      case _ => s
  }

  predicate MayLeave(p: Pid, s: Table) {
    p < |s.slots| && var w := s.slots[p].at; w.Normal? || w.Forked? || w.Dying?
  }

  // A reason to sleep in wait(): no child has exited.
  predicate Blocked(s: Table, ch: Chan) {
    forall q :: 0 <= q < |s.slots| && s.slots[q].state == Zombie && s.slots[q].parent.Some? ==>
      ch != Addr(s.slots[q].parent.value)
  }

  // ---- the invariant ----

  predicate InLock(w: Place) {
    w.Reparenting? || w.GaveChild? || w.WakesParent? || w.Doomed? || w.Scanning?
  }

  predicate Leaving(w: Place) {
    w.Exiting? || w.Reparenting? || w.GaveChild? || w.WakesParent? || w.Doomed?
  }

  // One slot and its neighbours.
  predicate SlotOk(s: Table, q: Pid)
    requires q < |s.slots|
  {
    var r := s.slots[q];
    && (r.parent.Some? ==> r.parent.value < |s.slots| && IsParent(s.slots[r.parent.value]))
    && (r.state == Unused <==> r.at.Free?)
    && (r.state == Unused ==> r.parent == None)
    && (r.state == Zombie <==> r.at.Dying? || r.at.Gone?)
    && (r.at.Embryo? ==> r.at.from < |s.slots| && Builds(s.slots[r.at.from].at, q))
    && (r.at.Embryo? && r.parent.Some? ==> s.slots[r.at.from].at.Forked? && r.parent.value == r.at.from)
    && (r.at.Forking? || r.at.Forked? ==>
        r.at.child < |s.slots| && r.at.child != q && s.slots[r.at.child].at == Embryo(q))
    && (r.at.Forking? ==> s.slots[r.at.child].parent == None)
    && (r.at.Forked? ==> s.slots[r.at.child].parent == Some(q))
    && (q != INIT && r.state != Unused && !r.at.Embryo? ==> r.parent.Some?)
    && r.parent != Some(q)
  }

  predicate IsParent(r: Slot) {
    r.state == Live && !r.at.Embryo?
  }

  predicate Builds(w: Place, q: Pid) {
    (w.Forking? || w.Forked?) && w.child == q
  }

  predicate InitOk(s: Table) {
    && INIT < |s.slots|
    && var r := s.slots[INIT];
       r.state == Live && !r.at.Embryo? && r.parent == None && !Leaving(r.at)
  }

  predicate Family(s: Table) {
    InitOk(s) && forall q :: 0 <= q < |s.slots| ==> SlotOk(s, q)
  }

  // The places a process moves between by itself.
  predicate Plain(w: Place) {
    w.Normal? || Leaving(w) || w.Waiting? || w.Scanning?
  }

  lemma {:induction false} MoveSlot(p: Pid, s: Table, w: Place, q: Pid)
    requires p < |s.slots| && q < |s.slots| && SlotOk(s, p) && SlotOk(s, q) && Plain(s.slots[p].at) && Plain(w)
    ensures SlotOk(Move(s, p, w), q)
  {
  }

  lemma {:induction false} MoveFamily(p: Pid, s: Table, w: Place)
    requires Family(s) && p < |s.slots| && Plain(s.slots[p].at) && Plain(w)
    requires p == INIT ==> !Leaving(w)
    ensures Family(Move(s, p, w))
  {
    hide SlotOk;
    var s' := Move(s, p, w);
    forall q | 0 <= q < |s'.slots| ensures SlotOk(s', q) {
      assert SlotOk(s, q) && SlotOk(s, p);
      MoveSlot(p, s, w, q);
    }
  }

  predicate Childless(s: Table, p: Pid, n: nat) {
    forall q :: 0 <= q < |s.slots| && q < n ==> s.slots[q].parent != Some(p)
  }

  lemma {:induction false} AllocFamily(p: Pid, s: Table, s': Table)
    requires Family(s) && Allocates(p, s, s')
    ensures Family(s')
  {
    assert SlotOk(s, p) && SlotOk(s, s'.slots[p].at.child);
    forall q | 0 <= q < |s'.slots| ensures SlotOk(s', q) {
      assert SlotOk(s, q);
    }
  }

  lemma {:induction false} ForkFailsFamily(p: Pid, s: Table, c: Pid)
    requires Family(s) && p < |s.slots| && c < |s.slots| && s.slots[p].at == Forking(c)
    ensures Family(Move(Set(s, c, FREE), p, Normal))
  {
    var s' := Move(Set(s, c, FREE), p, Normal);
    assert SlotOk(s, p) && SlotOk(s, c);
    forall q | 0 <= q < |s'.slots| ensures SlotOk(s', q) {
      assert SlotOk(s, q);
    }
  }

  lemma {:induction false} ForkEndsFamily(p: Pid, s: Table, c: Pid)
    requires Family(s) && p < |s.slots| && c < |s.slots| && s.slots[p].at == Forked(c)
    ensures Family(Move(Move(s, c, Normal), p, Normal))
  {
    var s' := Move(Move(s, c, Normal), p, Normal);
    assert SlotOk(s, p) && SlotOk(s, c);
    forall q | 0 <= q < |s'.slots| ensures SlotOk(s', q) {
      assert SlotOk(s, q);
    }
  }

  lemma {:induction false} SwitchFamily(p: Pid, s: Table)
    requires Family(s) && p < |s.slots| && s.slots[p].at == Dying
    ensures Family(Move(s, p, Gone))
  {
    var s' := Move(s, p, Gone);
    assert SlotOk(s, p);
    forall q | 0 <= q < |s'.slots| ensures SlotOk(s', q) {
      assert SlotOk(s, q);
    }
  }

  lemma {:induction false} OutsideFamily(p: Pid, s: Table, s': Table)
    requires Family(s) && OutsideStep(p, s, s')
    ensures Family(s') && |s'.slots| == |s.slots|
  {
    hide Family;
    match s.slots[p].at
    case Normal =>
      if Allocates(p, s, s') {
        AllocFamily(p, s, s');
      } else {
        MoveFamily(p, s, s'.slots[p].at);
      }
    case Forking(c) => ForkFailsFamily(p, s, c);
    case Forked(c) => ForkEndsFamily(p, s, c);
    case Dying => SwitchFamily(p, s);
    case _ =>
  }

  function Linked(p: Pid, s: Table, c: Pid): Table
    requires p < |s.slots| && c < |s.slots|
  {
    Move(Set(s, c, s.slots[c].(parent := Some(p))), p, Forked(c)).(kin := s.kin[s.slots[c].pid := s.slots[p].pid])
  }

  lemma {:induction false} LinkSlot(p: Pid, s: Table, c: Pid, q: Pid)
    requires p < |s.slots| && c < |s.slots| && q < |s.slots| && s.slots[p].at == Forking(c)
    requires SlotOk(s, p) && SlotOk(s, c) && SlotOk(s, q)
    ensures SlotOk(Linked(p, s, c), q)
  {
  }

  lemma {:induction false} LinkFamily(p: Pid, s: Table, c: Pid)
    requires Family(s) && p < |s.slots| && c < |s.slots| && s.slots[p].at == Forking(c)
    ensures Family(Linked(p, s, c))
  {
    assert SlotOk(s, p);
    hide SlotOk;
    forall q | 0 <= q < |s.slots| ensures SlotOk(Linked(p, s, c), q) {
      assert SlotOk(s, p) && SlotOk(s, c) && SlotOk(s, q);
      LinkSlot(p, s, c, q);
    }
  }

  lemma {:induction false} GiveFamily(p: Pid, s: Table, i: Pid)
    requires Family(s) && p < |s.slots| && i < |s.slots| && s.slots[i].parent == Some(p) && Leaving(s.slots[p].at)
    ensures Family(Adopted(s, i))
  {
    var s' := Adopted(s, i);
    assert SlotOk(s, p) && SlotOk(s, i);
    forall q | 0 <= q < |s'.slots| ensures SlotOk(s', q) {
      assert SlotOk(s, q);
    }
  }

  lemma {:induction false} ZombieFamily(p: Pid, s: Table, r: Slot)
    requires Family(s) && p < |s.slots| && s.slots[p].at.Doomed? && Childless(s, p, |s.slots|)
    requires r.state == Zombie && r.at == Dying && r.parent == s.slots[p].parent
    ensures Family(Set(s, p, r))
  {
    var s' := Set(s, p, r);
    assert SlotOk(s, p);
    forall q | 0 <= q < |s'.slots| ensures SlotOk(s', q) {
      assert SlotOk(s, q);
    }
  }

  lemma {:induction false} FreeFamily(s: Table, i: Pid)
    requires Family(s) && i < |s.slots| && s.slots[i].state == Zombie
    ensures Family(Set(s, i, FREE))
  {
    var s' := Set(s, i, FREE);
    assert SlotOk(s, i);
    forall q | 0 <= q < |s'.slots| ensures SlotOk(s', q) {
      assert SlotOk(s, q);
    }
  }

  // ---- the ledger of exits and reaps ----

  predicate InUse(s: Table, q: Pid) {
    q < |s.slots| && s.slots[q].state != Unused
  }

  predicate PidsOk(s: Table) {
    && (forall q :: 0 <= q < |s.slots| && InUse(s, q) ==> s.slots[q].pid < s.nextpid)
    && (forall p, q :: 0 <= p < q < |s.slots| && InUse(s, p) && InUse(s, q) ==> s.slots[p].pid != s.slots[q].pid)
  }

  predicate ExitsOk(s: Table) {
    && (forall x :: x in s.exits ==> x < s.nextpid)
    && (forall q :: 0 <= q < |s.slots| && s.slots[q].state == Live ==> s.slots[q].pid !in s.exits)
    && (forall q :: 0 <= q < |s.slots| && s.slots[q].state == Zombie ==>
          s.slots[q].pid in s.exits && s.exits[s.slots[q].pid] == s.slots[q].xstate)
  }

  predicate ReapedOk(s: Table) {
    && (forall k :: 0 <= k < |s.reaped| ==>
          s.reaped[k].pid in s.exits && s.exits[s.reaped[k].pid] == s.reaped[k].status)
    && (forall j, k :: 0 <= j < k < |s.reaped| ==> s.reaped[j].pid != s.reaped[k].pid)
    && (forall k, q :: 0 <= k < |s.reaped| && 0 <= q < |s.slots| && InUse(s, q) ==> s.slots[q].pid != s.reaped[k].pid)
  }

  predicate Waits(s: Table, x: nat) {
    exists q :: 0 <= q < |s.slots| && s.slots[q].state == Zombie && s.slots[q].pid == x
  }

  predicate WasReaped(s: Table, x: nat) {
    exists k :: 0 <= k < |s.reaped| && s.reaped[k].pid == x
  }

  // Whoever exited is a zombie or has been reaped.
  predicate Accounted(s: Table) {
    forall x :: x in s.exits ==> Waits(s, x) || WasReaped(s, x)
  }

  predicate Ledger(s: Table) {
    PidsOk(s) && ExitsOk(s) && ReapedOk(s) && Accounted(s)
  }

  predicate SameRecords(s: Table, s': Table) {
    && |s'.slots| == |s.slots| && s'.nextpid == s.nextpid && s'.exits == s.exits && s'.reaped == s.reaped
    && forall q :: 0 <= q < |s.slots| ==>
         s'.slots[q].state == s.slots[q].state && s'.slots[q].pid == s.slots[q].pid
           && s'.slots[q].xstate == s.slots[q].xstate
  }

  lemma {:induction false} SameLedger(s: Table, s': Table)
    requires Ledger(s) && SameRecords(s, s')
    ensures Ledger(s')
  {
    forall x | x in s'.exits ensures Waits(s', x) || WasReaped(s', x) {
      if Waits(s, x) {
        var q :| 0 <= q < |s.slots| && s.slots[q].state == Zombie && s.slots[q].pid == x;
        assert s'.slots[q].state == Zombie && s'.slots[q].pid == x;
      }
    }
  }

  lemma {:induction false} AllocLedger(s: Table, c: Pid, r: Slot)
    requires Ledger(s) && c < |s.slots| && s.slots[c].state == Unused && r.state == Live && r.pid == s.nextpid
    ensures Ledger(Set(s, c, r).(nextpid := s.nextpid + 1))
  {
    var s' := Set(s, c, r).(nextpid := s.nextpid + 1);
    forall x | x in s'.exits ensures Waits(s', x) || WasReaped(s', x) {
      if Waits(s, x) {
        var q :| 0 <= q < |s.slots| && s.slots[q].state == Zombie && s.slots[q].pid == x;
        assert s'.slots[q] == s.slots[q];
      }
    }
  }

  lemma {:induction false} FreeLedger(s: Table, c: Pid)
    requires Ledger(s) && c < |s.slots| && s.slots[c].state == Live
    ensures Ledger(Set(s, c, FREE))
  {
    var s' := Set(s, c, FREE);
    forall x | x in s'.exits ensures Waits(s', x) || WasReaped(s', x) {
      if Waits(s, x) {
        var q :| 0 <= q < |s.slots| && s.slots[q].state == Zombie && s.slots[q].pid == x;
        assert s'.slots[q] == s.slots[q];
      }
    }
  }

  lemma {:induction false} ExitLedger(s: Table, p: Pid, status: int)
    requires Ledger(s) && p < |s.slots| && s.slots[p].state == Live
    ensures Ledger(Set(s, p, s.slots[p].(state := Zombie, xstate := status, at := Dying))
                   .(exits := s.exits[s.slots[p].pid := status]))
  {
    var s' := Set(s, p, s.slots[p].(state := Zombie, xstate := status, at := Dying))
              .(exits := s.exits[s.slots[p].pid := status]);
    assert InUse(s, p);
    forall x | x in s'.exits ensures Waits(s', x) || WasReaped(s', x) {
      if x == s.slots[p].pid {
        assert s'.slots[p].state == Zombie;
      } else if Waits(s, x) {
        var q :| 0 <= q < |s.slots| && s.slots[q].state == Zombie && s.slots[q].pid == x;
        assert s'.slots[q] == s.slots[q];
      }
    }
    forall p', q | 0 <= p' < q < |s'.slots| && InUse(s', p') && InUse(s', q)
      ensures s'.slots[p'].pid != s'.slots[q].pid
    {
      assert InUse(s, p') && InUse(s, q);
    }
    forall k, q | 0 <= k < |s'.reaped| && 0 <= q < |s'.slots| && InUse(s', q)
      ensures s'.slots[q].pid != s'.reaped[k].pid
    {
      assert InUse(s, q);
    }
  }

  lemma {:induction false} ReapAccounted(s: Table, i: Pid, reaper: nat)
    requires Accounted(s) && i < |s.slots|
    ensures Accounted(Set(s, i, FREE).(reaped := s.reaped + [Reap(s.slots[i].pid, s.slots[i].xstate, reaper)]))
  {
    var s' := Set(s, i, FREE).(reaped := s.reaped + [Reap(s.slots[i].pid, s.slots[i].xstate, reaper)]);
    var n := |s.reaped|;
    assert s'.reaped[n].pid == s.slots[i].pid;
    forall x | x in s'.exits ensures Waits(s', x) || WasReaped(s', x) {
      if WasReaped(s, x) {
        var k :| 0 <= k < |s.reaped| && s.reaped[k].pid == x;
        assert s'.reaped[k].pid == x;
      } else {
        var q :| 0 <= q < |s.slots| && s.slots[q].state == Zombie && s.slots[q].pid == x;
        assert q != i ==> s'.slots[q] == s.slots[q];
      }
    }
  }

  lemma {:induction false} ReapLedger(s: Table, i: Pid, reaper: nat)
    requires Ledger(s) && i < |s.slots| && s.slots[i].state == Zombie
    ensures Ledger(Set(s, i, FREE).(reaped := s.reaped + [Reap(s.slots[i].pid, s.slots[i].xstate, reaper)]))
  {
    var s' := Set(s, i, FREE).(reaped := s.reaped + [Reap(s.slots[i].pid, s.slots[i].xstate, reaper)]);
    assert InUse(s, i);
    assert Accounted(s') by { ReapAccounted(s, i, reaper); }
    hide Accounted;
    forall q | 0 <= q < |s'.slots| && InUse(s', q) ensures InUse(s, q) && q != i && s'.slots[q] == s.slots[q] {}
    forall j, k | 0 <= j < k < |s'.reaped| ensures s'.reaped[j].pid != s'.reaped[k].pid {
      assert s'.reaped[j] == s.reaped[j];
    }
  }

  // ---- the last parent ----

  // kin has the pid of the parent of the process in slot q.
  predicate KinAt(s: Table, q: Pid)
    requires q < |s.slots| && s.slots[q].parent.Some?
  {
    var v := s.slots[q].parent.value;
    v < |s.slots| && s.slots[q].pid in s.kin && s.kin[s.slots[q].pid] == s.slots[v].pid
  }

  predicate KinOk(s: Table) {
    && (forall q :: 0 <= q < |s.slots| && s.slots[q].parent.Some? ==> KinAt(s, q))
    && (forall k :: 0 <= k < |s.reaped| ==> s.reaped[k].pid in s.kin && s.kin[s.reaped[k].pid] == s.reaped[k].reaper)
  }

  // Links and pids of linked processes are as before.
  predicate SameKin(s: Table, s': Table) {
    && |s'.slots| == |s.slots| && s'.kin == s.kin && s'.reaped == s.reaped
    && forall q :: 0 <= q < |s.slots| && s'.slots[q].parent.Some? ==>
         && s.slots[q].parent == s'.slots[q].parent && s'.slots[q].pid == s.slots[q].pid
         && var v := s.slots[q].parent.value; (v < |s.slots| ==> s'.slots[v].pid == s.slots[v].pid)
  }

  lemma {:induction false} KinStays(s: Table, s': Table)
    requires KinOk(s) && SameKin(s, s')
    ensures KinOk(s')
  {
    forall q | 0 <= q < |s'.slots| && s'.slots[q].parent.Some? ensures KinAt(s', q) {
      assert KinAt(s, q);
    }
  }

  // A slot that was not linked to anybody changes hands.
  lemma {:induction false} SlotKin(s: Table, c: Pid, r: Slot, s': Table)
    requires Family(s) && KinOk(s) && c < |s.slots| && !IsParent(s.slots[c]) && r.parent == None
    requires s'.kin == s.kin && s'.reaped == s.reaped && |s'.slots| == |s.slots|
    requires forall q :: 0 <= q < |s.slots| ==>
               s'.slots[q].parent == Set(s, c, r).slots[q].parent && s'.slots[q].pid == Set(s, c, r).slots[q].pid
    ensures KinOk(s')
  {
    forall q | 0 <= q < |s.slots| && s'.slots[q].parent.Some? ensures s.slots[q].parent.value != c && q != c {
      assert SlotOk(s, q);
    }
    KinStays(s, s');
  }

  lemma {:induction false} OutsideKin(p: Pid, s: Table, s': Table)
    requires Family(s) && KinOk(s) && OutsideStep(p, s, s')
    ensures KinOk(s')
  {
    assert SlotOk(s, p);
    hide KinOk;
    if Allocates(p, s, s') {
      SlotKin(s, s'.slots[p].at.child, Slot(Live, None, s.nextpid, 0, Embryo(p)), s');
    } else if s.slots[p].at.Forking? {
      SlotKin(s, s.slots[p].at.child, FREE, s');
    } else {
      hide Family;
      KinStays(s, s');
    }
  }

  // The process in slot c gets the parent in slot v.
  lemma {:induction false} NewParent(s: Table, c: Pid, v: Pid, s': Table)
    requires Family(s) && Ledger(s) && KinOk(s) && c < |s.slots| && v < |s.slots| && s.slots[c].state != Unused
    requires |s'.slots| == |s.slots| && s'.reaped == s.reaped && s'.kin == s.kin[s.slots[c].pid := s.slots[v].pid]
    requires forall q :: 0 <= q < |s.slots| ==>
               s'.slots[q].pid == s.slots[q].pid && s'.slots[q].parent == if q == c then Some(v) else s.slots[q].parent
    ensures KinOk(s')
  {
    assert InUse(s, c);
    forall q | 0 <= q < |s'.slots| && s'.slots[q].parent.Some? ensures KinAt(s', q) {
      if q != c {
        assert KinAt(s, q) && SlotOk(s, q) && InUse(s, q);
      }
    }
  }

  lemma {:induction false} ReapKin(p: Pid, s: Table, i: Pid)
    requires Family(s) && KinOk(s) && p < |s.slots| && i < |s.slots| && s.slots[i].parent == Some(p)
             && s.slots[i].state == Zombie && p != i
    ensures KinOk(Reaped(p, s, i))
  {
    var s' := Reaped(p, s, i);
    assert KinAt(s, i);
    forall q | 0 <= q < |s'.slots| && s'.slots[q].parent.Some? ensures KinAt(s', q) {
      assert KinAt(s, q) && SlotOk(s, q);
    }
  }

  // ---- the critical sections ----

  ghost predicate Rest(s: Table) {
    Family(s) && Ledger(s) && KinOk(s) && forall q :: 0 <= q < |s.slots| ==> !InLock(s.slots[q].at)
  }

  // What the lock's holder has established so far.
  predicate HolderOk(s: Table, p: Pid, w: set<Chan>) {
    p < |s.slots| ==>
      match s.slots[p].at
      case Reparenting(_, i) => Childless(s, p, i)
      case GaveChild(_, i) => Childless(s, p, i + 1)
      case WakesParent(_) => Childless(s, p, |s.slots|)
      case Doomed(_) => Childless(s, p, |s.slots|) && s.slots[p].parent.Some? && Addr(s.slots[p].parent.value) in w
      case Scanning(i, _) => NoZombieChild(s, p, i)
      case _ => true
  }

  predicate NoZombieChild(s: Table, p: Pid, n: nat) {
    forall q :: 0 <= q < |s.slots| && q < n && s.slots[q].parent == Some(p) ==> s.slots[q].state != Zombie
  }

  predicate OwesInit(s: Table, p: Pid) {
    p < |s.slots| && s.slots[p].at.GaveChild?
  }

  ghost predicate Told(e: Table, s: Table, p: Pid, w: set<Chan>) {
    forall ch :: Blocked(e, ch) ==> Blocked(s, ch) || ch in w || (OwesInit(s, p) && ch == Addr(INIT))
  }

  predicate Alone(s: Table, p: Pid) {
    forall q :: 0 <= q < |s.slots| && q != p ==> !InLock(s.slots[q].at)
  }

  ghost predicate Outline(p: Pid, e: Table, s: Table, w: set<Chan>) {
    Family(s) && Ledger(s) && KinOk(s) && Alone(s, p) && HolderOk(s, p, w) && Told(e, s, p, w)
  }

  ghost const CLIENT: Client<Table> := Client(Blocked, InsideStep, OutsideStep, MayEnter, MaySleep, Asleep, MayWake,
                                              AfterWake,
                                              MayLeave, Rest, Outline)

  // Where only places and links of non-zombies change, the reasons to sleep stay.
  lemma {:induction false} SameReasons(s: Table, s': Table)
    requires |s'.slots| == |s.slots|
    requires forall q :: 0 <= q < |s.slots| && s'.slots[q].state == Zombie ==>
               s.slots[q].state == Zombie && s'.slots[q].parent == s.slots[q].parent
    ensures forall ch :: Blocked(s, ch) ==> Blocked(s', ch)
  {
  }

  // Moving a process changes neither the ledger nor anybody's reason to sleep.
  lemma {:induction false} MoveKeeps(p: Pid, s: Table, w: Place)
    requires p < |s.slots| && Ledger(s)
    ensures Ledger(Move(s, p, w))
    ensures forall ch :: Blocked(s, ch) ==> Blocked(Move(s, p, w), ch)
  {
    hide Ledger;
    SameLedger(s, Move(s, p, w));
    SameReasons(s, Move(s, p, w));
  }

  lemma {:induction false} ForkActs(p: Pid, e: Table, s: Table, w: set<Chan>, c: Pid)
    requires Outline(p, e, s, w) && p < |s.slots| && c < |s.slots| && s.slots[p].at == Forking(c)
    ensures Outline(p, e, Linked(p, s, c), w)
  {
    var s' := Linked(p, s, c);
    assert SlotOk(s, p) && SlotOk(s, c);
    LinkFamily(p, s, c);
    NewParent(s, c, p, s');
    SameLedger(s, s');
    SameReasons(s, s');
    hide Family, Ledger, Blocked, KinOk;
  }

  // A step that only moves p between plain places.
  lemma {:induction false} MoveActs(p: Pid, e: Table, s: Table, w: set<Chan>, to: Place)
    requires Outline(p, e, s, w) && p < |s.slots| && Plain(s.slots[p].at) && Plain(to)
    requires (p == INIT ==> !Leaving(to)) && !s.slots[p].at.GaveChild?
    requires HolderOk(Move(s, p, to), p, w)
    ensures Outline(p, e, Move(s, p, to), w)
  {
    hide Family, Ledger, Blocked, HolderOk, KinOk;
    MoveFamily(p, s, to);
    MoveKeeps(p, s, to);
    KinStays(s, Move(s, p, to));
  }

  lemma {:induction false} GiveActs(p: Pid, e: Table, s: Table, w: set<Chan>, status: int, i: Pid)
    requires Outline(p, e, s, w) && p < |s.slots| && i < |s.slots| && INIT < |s.slots|
    requires s.slots[p].at == Reparenting(status, i) && s.slots[i].parent == Some(p)
    ensures Outline(p, e, Given(p, s, status, i), w)
  {
    var t := Adopted(s, i);
    var s' := Given(p, s, status, i);
    assert p != i by { assert SlotOk(s, i); }
    NotInit(p, s);
    GiveHolder(p, s, w, status, i);
    GiveTold(p, e, s, w, status, i);
    InUseChild(s, i);
    hide Blocked, Told, Alone, HolderOk, KinOk;
    NewParent(s, i, INIT, s');
    GiveFamily(p, s, i);
    hide Family;
    MoveFamily(p, t, GaveChild(status, i));
    SameLedger(s, s');
    hide Ledger;
  }

  lemma {:induction false} InUseChild(s: Table, i: Pid)
    requires Family(s) && i < |s.slots| && s.slots[i].parent.Some?
    ensures s.slots[i].state != Unused
  {
    assert SlotOk(s, i);
  }

  lemma {:induction false} GiveHolder(p: Pid, s: Table, w: set<Chan>, status: int, i: Pid)
    requires p < |s.slots| && i < |s.slots| && INIT < |s.slots| && p != i && s.slots[p].at == Reparenting(status, i)
             && HolderOk(s, p, w) && Alone(s, p)
    requires p != INIT
    ensures var s' := Given(p, s, status, i);
            HolderOk(s', p, w) && Alone(s', p)
  {
  }

  lemma {:induction false} GiveTold(p: Pid, e: Table, s: Table, w: set<Chan>, status: int, i: Pid)
    requires p < |s.slots| && i < |s.slots| && INIT < |s.slots| && p != i && s.slots[p].at == Reparenting(status, i)
             && Told(e, s, p, w)
    ensures Told(e, Given(p, s, status, i), p, w)
  {
    var s' := Given(p, s, status, i);
    assert forall ch :: Blocked(s, ch) && ch != Addr(INIT) ==> Blocked(s', ch);
    hide Blocked;
  }

  lemma {:induction false} ExitActs(p: Pid, e: Table, s: Table, w: set<Chan>, s': Table)
    requires Outline(p, e, s, w) && p < |s.slots| && s.slots[p].at.Doomed? && InsideStep(p, s, s')
    ensures Outline(p, e, s', w)
  {
    assert SlotOk(s, p);
    var r := s.slots[p].(state := Zombie, xstate := s.slots[p].at.status, at := Dying);
    ZombieFamily(p, s, r);
    ExitLedger(s, p, s.slots[p].at.status);
    assert forall ch :: Blocked(s, ch) && ch != Addr(s.slots[p].parent.value) ==> Blocked(s', ch);
    KinStays(s, s');
    hide Family, Ledger, Blocked, KinOk;
    SlotsFamily(Set(s, p, r), s');
  }

  lemma {:induction false} ReapFamily(p: Pid, s: Table, i: Pid)
    requires Family(s) && p < |s.slots| && i < |s.slots| && p != i
    requires s.slots[p].at.Scanning? && s.slots[i].state == Zombie
    ensures Family(Reaped(p, s, i))
  {
    hide Family;
    var t := Set(s, i, FREE);
    FreeFamily(s, i);
    MoveFamily(p, t, Normal);
    SlotsFamily(Move(t, p, Normal), Reaped(p, s, i));
  }

  lemma {:induction false} ReapedLedger(p: Pid, s: Table, i: Pid)
    requires Ledger(s) && p < |s.slots| && i < |s.slots| && p != i && s.slots[i].state == Zombie
    ensures Ledger(Reaped(p, s, i))
  {
    hide Ledger;
    var s' := Reaped(p, s, i);
    ReapLedger(s, i, s.slots[p].pid);
    SameLedger(Set(s, i, FREE).(reaped := s'.reaped), s');
  }

  lemma {:induction false} ReapQuiet(p: Pid, s: Table, w: set<Chan>, i: Pid)
    requires Alone(s, p) && p < |s.slots| && i < |s.slots| && p != i
    ensures Alone(Reaped(p, s, i), p) && HolderOk(Reaped(p, s, i), p, w)
  {
  }

  lemma {:induction false} ReapActs(p: Pid, e: Table, s: Table, w: set<Chan>, i: Pid)
    requires Outline(p, e, s, w) && p < |s.slots| && i < |s.slots|
    requires s.slots[p].at.Scanning? && s.slots[i].parent == Some(p) && s.slots[i].state == Zombie
    ensures Outline(p, e, Reaped(p, s, i), w)
  {
    assert p != i by { assert SlotOk(s, i); }
    ReapQuiet(p, s, w, i);
    hide Family, Ledger, Blocked, Told, Alone, HolderOk, KinOk;
    ReapKin(p, s, i);
    ReapFamily(p, s, i);
    ReapedLedger(p, s, i);
    SameReasons(s, Reaped(p, s, i));
    ToldStays(e, s, p, w, Reaped(p, s, i));
  }

  lemma {:induction false} ToldStays(e: Table, s: Table, p: Pid, w: set<Chan>, s': Table)
    requires Told(e, s, p, w) && !OwesInit(s, p)
    requires forall ch :: Blocked(s, ch) ==> Blocked(s', ch)
    ensures Told(e, s', p, w)
  {
    hide Blocked;
  }

  lemma {:induction false} SlotsFamily(s: Table, s': Table)
    requires Family(s) && s'.slots == s.slots
    ensures Family(s')
  {
    forall q | 0 <= q < |s'.slots| ensures SlotOk(s', q) {
      assert SlotOk(s, q);
    }
  }

  lemma {:induction false} Steps(p: Pid, e: Table, s: Table, w: set<Chan>, s': Table)
    requires Outline(p, e, s, w) && InsideStep(p, s, s')
    ensures Outline(p, e, s', w)
  {
    hide Family, Ledger, Told, Alone, KinOk;
    match s.slots[p].at
    case Forking(c) => ForkActs(p, e, s, w, c);
    case Exiting(status) => NotInit(p, s); MoveActs(p, e, s, w, Reparenting(status, 0));
    case Reparenting(status, i) =>
      NotInit(p, s);
      if i < |s.slots| && s.slots[i].parent == Some(p) {
        GiveActs(p, e, s, w, status, i);
      } else if i < |s.slots| {
        MoveActs(p, e, s, w, Reparenting(status, i + 1));
      } else {
        MoveActs(p, e, s, w, WakesParent(status));
      }
    case Doomed(_) => ExitActs(p, e, s, w, s');
    case Waiting => MoveActs(p, e, s, w, Scanning(0, false));
    case Scanning(i, kids) =>
      if i < |s.slots| && s.slots[i].parent == Some(p) && s.slots[i].state == Zombie {
        if s' == Move(s, p, Normal) {
          MoveActs(p, e, s, w, Normal);
        } else {
          ReapActs(p, e, s, w, i);
        }
      } else {
        MoveActs(p, e, s, w, s'.slots[p].at);
      }
    case _ =>
  }

  lemma {:induction false} NotInit(p: Pid, s: Table)
    requires Family(s) && p < |s.slots| && Leaving(s.slots[p].at)
    ensures p != INIT && s.slots[p].parent.Some?
  {
    assert SlotOk(s, p);
  }

  // ---- the other obligations ----

  lemma {:induction false} WakeSteps(p: Pid, e: Table, s: Table, w: set<Chan>, ch: Chan)
    requires Outline(p, e, s, w) && MayWake(p, s, ch)
    ensures Outline(p, e, AfterWake(p, s, ch), w + {ch})
  {
    hide Family, Ledger, Blocked, KinOk;
    NotInit(p, s);
    var to := AfterWake(p, s, ch).slots[p].at;
    MoveFamily(p, s, to);
    MoveKeeps(p, s, to);
    KinStays(s, Move(s, p, to));
  }

  // Steps outside leave the holder's slot, everybody's links and the zombies alone.
  lemma {:induction false} OutsideFrame(q: Pid, s: Table, s': Table)
    requires Family(s) && OutsideStep(q, s, s')
    ensures |s'.slots| == |s.slots|
    ensures forall p :: 0 <= p < |s.slots| ==> s'.slots[p].parent == s.slots[p].parent
    ensures forall p :: 0 <= p < |s.slots| ==> (s'.slots[p].state == Zombie <==> s.slots[p].state == Zombie)
    ensures forall p :: 0 <= p < |s.slots| && p != q && InLock(s.slots[p].at) ==> s'.slots[p] == s.slots[p]
    ensures forall p :: 0 <= p < |s.slots| && InLock(s'.slots[p].at) ==> InLock(s.slots[p].at)
  {
    assert SlotOk(s, q);
    if Allocates(q, s, s') {
      assert SlotOk(s, s'.slots[q].at.child);
      hide Family, SlotOk;
    } else if s.slots[q].at.Forking? || s.slots[q].at.Forked? {
      assert SlotOk(s, s.slots[q].at.child);
      hide Family;
    }
  }

  lemma {:induction false} ForkFailsLedger(q: Pid, s: Table, c: Pid)
    requires Family(s) && Ledger(s) && q < |s.slots| && c < |s.slots| && s.slots[q].at == Forking(c)
    ensures Ledger(Move(Set(s, c, FREE), q, Normal))
  {
    assert SlotOk(s, q) && SlotOk(s, c);
    hide Ledger, Family;
    FreeLedger(s, c);
    MoveKeeps(q, Set(s, c, FREE), Normal);
  }

  lemma {:induction false} OutsideLedger(q: Pid, s: Table, s': Table)
    requires Family(s) && Ledger(s) && OutsideStep(q, s, s')
    ensures Ledger(s')
  {
    hide Ledger, Family;
    if Allocates(q, s, s') {
      var c := s'.slots[q].at.child;
      var r := Slot(Live, None, s.nextpid, 0, Embryo(q));
      AllocLedger(s, c, r);
      SameLedger(Set(s, c, r).(nextpid := s.nextpid + 1), s');
    } else if s.slots[q].at.Forking? {
      ForkFailsLedger(q, s, s.slots[q].at.child);
    } else {
      SameLedger(s, s');
    }
  }

  lemma {:induction false} OutsideRest(q: Pid, s: Table, s': Table)
    requires Rest(s) && OutsideStep(q, s, s')
    ensures Rest(s') && forall ch :: Blocked(s, ch) ==> Blocked(s', ch)
  {
    hide Family, Ledger, OutsideStep, KinOk;
    OutsideFamily(q, s, s');
    OutsideLedger(q, s, s');
    OutsideKin(q, s, s');
    OutsideFrame(q, s, s');
  }

  lemma {:induction false} OutsideOutline(p: Pid, q: Pid, e: Table, s: Table, w: set<Chan>, s': Table)
    requires p != q && Outline(p, e, s, w) && OutsideStep(q, s, s')
    ensures Outline(p, e, s', w)
    ensures forall ch :: MayWake(p, s, ch) ==> MayWake(p, s', ch)
    ensures forall ch :: MaySleep(p, s, ch) ==> MaySleep(p, s', ch)
  {
    hide Family, Ledger, OutsideStep, KinOk;
    OutsideFamily(q, s, s');
    OutsideLedger(q, s, s');
    OutsideKin(q, s, s');
    OutsideFrame(q, s, s');
    SameReasons(s, s');
    hide Blocked;
  }

  lemma {:induction false} OutsideDisturbsNothing()
    ensures Interferes(CLIENT)
  {
    hide Rest, Outline, OutsideStep, Blocked, MayWake, MaySleep;
    forall p, s, s' | Rest(s) && OutsideStep(p, s, s')
      ensures Rest(s') && forall ch :: Blocked(s, ch) ==> Blocked(s', ch)
    {
      OutsideRest(p, s, s');
    }
    forall p, q, e, s, s', w | p != q && Outline(p, e, s, w) && OutsideStep(q, s, s')
      ensures Outline(p, e, s', w)
      ensures forall ch :: MayWake(p, s, ch) ==> MayWake(p, s', ch)
      ensures forall ch :: MaySleep(p, s, ch) ==> MaySleep(p, s', ch)
    {
      OutsideOutline(p, q, e, s, w, s');
    }
  }

  lemma {:induction false} Settle(s: Table)
    requires Family(s) && Ledger(s) && KinOk(s) && forall q :: 0 <= q < |s.slots| ==> !InLock(s.slots[q].at)
    ensures Rest(s)
  {
  }

  lemma {:induction false} SleepSettles(p: Pid, e: Table, s: Table, w: set<Chan>, ch: Chan)
    requires Outline(p, e, s, w) && MaySleep(p, s, ch)
    ensures Settled(CLIENT, e, Asleep(p, s, ch), w) && Blocked(Asleep(p, s, ch), ch)
  {
    hide Family, Ledger, Rest, KinOk;
    var s' := Asleep(p, s, ch);
    MoveFamily(p, s, Waiting);
    MoveKeeps(p, s, Waiting);
    KinStays(s, s');
    assert Blocked(s', ch) by { hide Told, Alone; }
    hide Blocked;
    assert Rest(s') by { Settle(s'); }
  }

  // What sleep() and wakeup() ask of their callers, met by exit, wait and fork.
  lemma {:induction false} Behaves()
    ensures WellBehaved(CLIENT)
  {
    hide Family, Ledger, Blocked, KinOk;
    assert Enters(CLIENT);
    assert Leaves(CLIENT);
    hide Rest, Outline, InsideStep, OutsideStep, MayWake, AfterWake, MaySleep, Asleep;
    OutsideDisturbsNothing();
    forall p, e, s, s', w | Outline(p, e, s, w) && InsideStep(p, s, s') ensures Outline(p, e, s', w) {
      Steps(p, e, s, w, s');
    }
    forall p, e, s, w, ch | Outline(p, e, s, w) && MayWake(p, s, ch)
      ensures Outline(p, e, AfterWake(p, s, ch), w + {ch})
    {
      WakeSteps(p, e, s, w, ch);
    }
    forall p, e, s, w, ch | Outline(p, e, s, w) && MaySleep(p, s, ch)
      ensures Settled(CLIENT, e, Asleep(p, s, ch), w) && Blocked(Asleep(p, s, ch), ch)
    {
      SleepSettles(p, e, s, w, ch);
    }
  }

  // In every interleaving of any number of processes:
  // - while wait_lock is free, no parent has exited or been freed, every zombie
  //   has a parent to reap it, and nobody sleeps in wait() beside a zombie child;
  // - at any time, every reaped process had exited, was reaped once, with the
  //   status it exited with and by the last parent it was given, and every exited
  //   process that was not reaped is still there as a zombie.
  lemma {:induction false} ExitWaitProtocol(m: Machine<Table>, run: seq<Step<Table>>)
    requires Start(CLIENT, m) && Runs(CLIENT, m, run)
    ensures var n := After(CLIENT, m, run);
            n.lk == None ==>
              && (forall q :: 0 <= q < |n.data.slots| && n.data.slots[q].parent.Some? ==>
                    && n.data.slots[q].parent.value < |n.data.slots|
                    && n.data.slots[n.data.slots[q].parent.value].state == Live)
              && (forall q :: 0 <= q < |n.data.slots| && n.data.slots[q].state == Zombie ==>
                  n.data.slots[q].parent.Some?)
              && (forall p :: 0 <= p < |n.procs| && Committed(n.procs[p], Addr(p)) ==>
                  NoZombieChild(n.data, p, |n.data.slots|))
    ensures var s := After(CLIENT, m, run).data;
            && (forall k :: 0 <= k < |s.reaped| ==>
                  s.reaped[k].pid in s.exits && s.exits[s.reaped[k].pid] == s.reaped[k].status)
            && (forall k :: 0 <= k < |s.reaped| ==>
                s.reaped[k].pid in s.kin && s.kin[s.reaped[k].pid] == s.reaped[k].reaper)
            && (forall j, k :: 0 <= j < k < |s.reaped| ==> s.reaped[j].pid != s.reaped[k].pid)
            && (forall x :: x in s.exits ==> Waits(s, x) || WasReaped(s, x))
  {
    Behaves();
    assert Inv(CLIENT, m);
    RunKeeps(CLIENT, m, run);
    NoLostWakeup(CLIENT, m, run);
    var n := After(CLIENT, m, run);
    hide WellBehaved, Runs, After, Start;
    assert Ledger(n.data) && KinOk(n.data);
    if n.lk == None {
      Resting(n.data);
      forall p | 0 <= p < |n.procs| && Committed(n.procs[p], Addr(p)) ensures NoZombieChild(n.data, p, |n.data.slots|) {
        assert CLIENT.blocked(n.data, Addr(p));
      }
    }
  }

  lemma {:induction false} Resting(s: Table)
    requires Rest(s)
    ensures forall q :: 0 <= q < |s.slots| && s.slots[q].parent.Some? ==>
              s.slots[q].parent.value < |s.slots| && s.slots[s.slots[q].parent.value].state == Live
    ensures forall q :: 0 <= q < |s.slots| && s.slots[q].state == Zombie ==> s.slots[q].parent.Some?
  {
    forall q | 0 <= q < |s.slots|
      ensures s.slots[q].parent.Some? ==>
                s.slots[q].parent.value < |s.slots| && s.slots[s.slots[q].parent.value].state == Live
      ensures s.slots[q].state == Zombie ==> s.slots[q].parent.Some?
    {
      assert SlotOk(s, q);
    }
  }

  // n slots of the process table, with initproc in the first.
  function Boot(n: nat): Machine<Table>
    requires n >= 1
  {
    var s := Table(seq(n, i => if i == INIT then Slot(Live, None, 1, 0, Normal) else FREE), 2, map[], [], map[]);
    Machine(seq(n, i => Idle()), None, s, s, {})
  }

  lemma {:induction false} BootStarts(n: nat)
    requires n >= 1
    ensures Start(CLIENT, Boot(n))
  {
    var s := Boot(n).data;
    forall q | 0 <= q < n ensures SlotOk(s, q) {}
    assert Rest(s);
  }
}
