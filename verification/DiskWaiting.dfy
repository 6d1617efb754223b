// Who sleeps in the disk driver (kernel/virtio_disk.c): callers of
// virtio_disk_rw short of descriptors or waiting for the device, and the
// interrupt handler, as clients of sleep() and wakeup().
module DiskWaiting {
  import opened Monitor
  import opened Prelude
  import VirtioQueue

  // b is the buffer of the request; n counts descriptors still to be given
  // back, by alloc3_desc's error exit or by free_chain.
  datatype Place =
    | Away
    | Wanting(b: nat)
    | GivingBack(b: nat, n: nat)
    | GaveBack(b: nat, n: nat)
    | Waiting(b: nat)
    | Freeing(n: nat)
    | Freed(n: nat)
    | Handling
    | Reporting(b: nat)

  // The number of free descriptors, the buffers with b->disk set, the
  // completions the handler has not seen, and where each process is.
  datatype Disk = Disk(free: nat, busy: set<nat>, used: seq<nat>, at: seq<Place>)

  // &disk.free[0], and a buffer.
  const FREE: Chan := 1

  function BufChan(b: nat): Chan {
    b + 2
  }

  // Descriptors a process has in its hands.
  function Holds(w: Place): nat {
    match w
    case GivingBack(_, n) => n
    case GaveBack(_, n) => n
    case Waiting(_) => 3
    case Freeing(n) => n
    case Freed(n) => n
    case _ => 0
  }

  function Held(at: seq<Place>): nat {
    if at == [] then 0 else Held(at[..|at| - 1]) + Holds(at[|at| - 1])
  }

  function Move(s: Disk, p: Pid, w: Place): Disk
    requires p < |s.at|
  {
    s.(at := s.at[p := w])
  }

  predicate Uses(w: Place, b: nat) {
    (w.Wanting? || w.GivingBack? || w.GaveBack? || w.Waiting?) && w.b == b
  }

  // A process with a locked buffer calls virtio_disk_rw; an interrupt arrives;
  // the device completes a request.
  predicate Outside(p: Pid, s: Disk, s': Disk) {
    || (p < |s.at| && s.at[p] == Away && |s'.at| == |s.at| && s'.at[p].Wanting? && s' == Move(s, p, s'.at[p])
        && forall q :: 0 <= q < |s.at| ==> !Uses(s.at[q], s'.at[p].b))
    || (p < |s.at| && s.at[p] == Away && s' == Move(s, p, Handling))
    || (s'.used != [] && Last(s'.used) in s.busy && Last(s'.used) !in s.used
        && s' == s.(used := s.used + [Last(s'.used)]))
  }

  function Last(u: seq<nat>): nat
    requires u != []
  {
    u[|u| - 1]
  }

  predicate MayEnter(p: Pid, s: Disk) {
    p < |s.at| && (s.at[p].Wanting? || s.at[p].Handling?)
  }

  predicate Inside(p: Pid, s: Disk, s': Disk) {
    && p < |s.at|
    && match s.at[p]
       case Wanting(b) =>
         if s.free >= 3 then s' == Move(s, p, Waiting(b)).(free := s.free - 3, busy := s.busy + {b})
         else s' == Move(s, p, GivingBack(b, s.free)).(free := 0)
       case GivingBack(b, n) => n > 0 && s' == Move(s, p, GaveBack(b, n - 1)).(free := s.free + 1)
       case Waiting(b) => b !in s.busy && s' == Move(s, p, Freeing(3))
       case Freeing(n) => s' == if n == 0 then Move(s, p, Away) else Move(s, p, Freed(n - 1)).(free := s.free + 1)
       case Handling =>
         s' == if s.used == [] then Move(s, p, Away)
               else Move(s, p, Reporting(s.used[0])).(used := s.used[1..], busy := s.busy - {s.used[0]})
       case _ => false
  }

  predicate MaySleep(p: Pid, s: Disk, ch: Chan) {
    && p < |s.at|
    && match s.at[p]
       case GivingBack(_, n) => n == 0 && ch == FREE
       case Waiting(b) => b in s.busy && ch == BufChan(b)
       case _ => false
  }

  function Asleep(p: Pid, s: Disk, ch: Chan): Disk {
    if p < |s.at| && s.at[p].GivingBack? then Move(s, p, Wanting(s.at[p].b)) else s
  }

  predicate MayWake(p: Pid, s: Disk, ch: Chan) {
    && p < |s.at|
    && match s.at[p]
       case GaveBack(_, _) => ch == FREE
       case Freed(_) => ch == FREE
       case Reporting(b) => ch == BufChan(b)
       case _ => false
  }

  function AfterWake(p: Pid, s: Disk, ch: Chan): Disk {
    if p >= |s.at| then s else
    match s.at[p]
    case GaveBack(b, n) => Move(s, p, GivingBack(b, n))
    case Freed(n) => Move(s, p, Freeing(n))
    case Reporting(_) => Move(s, p, Handling)
    case _ => s
  }

  predicate MayLeave(p: Pid, s: Disk) {
    p < |s.at| && s.at[p] == Away
  }

  predicate Blocked(s: Disk, ch: Chan) {
    (ch == FREE ==> s.free < 3) && (ch >= 2 ==> ch - 2 in s.busy)
  }

  // Between critical sections a process is in one of these places.
  predicate Settles(w: Place) {
    w == Away || w.Wanting? || w.Waiting? || w == Handling
  }

  // Every descriptor is free or in somebody's hands.
  predicate Conserved(s: Disk) {
    s.free + Held(s.at) == VirtioQueue.NUM
  }

  predicate Rest(s: Disk) {
    Conserved(s) && forall q :: 0 <= q < |s.at| ==> Settles(s.at[q])
  }

  // Whoever no longer has reason to sleep was woken, or is about to be.
  ghost predicate Outline(p: Pid, e: Disk, s: Disk, w: set<Chan>) {
    && Conserved(s)
    && (forall q :: 0 <= q < |s.at| && q != p ==> Settles(s.at[q]))
    && (p < |s.at| && (s.at[p].GivingBack? || s.at[p].GaveBack?) ==> s.free + s.at[p].n < 3)
    && (forall ch :: Blocked(e, ch) ==> Blocked(s, ch) || ch in w || MayWake(p, s, ch))
  }

  ghost const CLIENT: Client<Disk> :=
    Client(Blocked, Inside, Outside, MayEnter, MaySleep, Asleep, MayWake, AfterWake, MayLeave, Rest, Outline)

  lemma {:induction false} HeldMoved(at: seq<Place>, p: nat, w: Place)
    requires p < |at|
    ensures Held(at[p := w]) + Holds(at[p]) == Held(at) + Holds(w)
    decreases |at|
  {
    var n := |at| - 1;
    if p == n {
      assert at[p := w][..n] == at[..n];
    } else {
      HeldMoved(at[..n], p, w);
      assert at[p := w][..n] == at[..n][p := w];
    }
  }

  lemma {:induction false} OutsideKeeps(q: Pid, s: Disk, s': Disk)
    requires Conserved(s) && Outside(q, s, s')
    ensures Conserved(s') && s'.free == s.free && s'.busy == s.busy && |s'.at| == |s.at|
    ensures forall p :: 0 <= p < |s.at| && p != q ==> s'.at[p] == s.at[p]
    ensures q < |s.at| ==> s'.at[q] == s.at[q] || Settles(s'.at[q])
  {
    if q < |s.at| {
      HeldMoved(s.at, q, s'.at[q]);
    }
  }

  lemma {:induction false} InsideConserves(p: Pid, s: Disk, s': Disk)
    requires Conserved(s) && Inside(p, s, s')
    ensures Conserved(s')
  {
    HeldMoved(s.at, p, s'.at[p]);
  }

  // What a step inside the critical section does to those who wait.
  lemma {:induction false} InsideOwes(p: Pid, e: Disk, s: Disk, w: set<Chan>, s': Disk)
    requires Outline(p, e, s, w) && Inside(p, s, s')
    ensures forall ch :: Blocked(e, ch) ==> Blocked(s', ch) || ch in w || MayWake(p, s', ch)
  {
    hide Held, Conserved;
    forall ch | Blocked(e, ch) ensures Blocked(s', ch) || ch in w || MayWake(p, s', ch) {
      assert Blocked(s, ch) || ch in w || MayWake(p, s, ch);
    }
  }

  lemma {:induction false} InsideKeeps(p: Pid, e: Disk, s: Disk, w: set<Chan>, s': Disk)
    requires Outline(p, e, s, w) && Inside(p, s, s')
    ensures Outline(p, e, s', w)
  {
    InsideConserves(p, s, s');
    InsideOwes(p, e, s, w, s');
    hide Held, Conserved, Blocked, MayWake;
  }

  lemma {:induction false} WakeKeeps(p: Pid, e: Disk, s: Disk, w: set<Chan>, ch: Chan)
    requires Outline(p, e, s, w) && MayWake(p, s, ch)
    ensures Outline(p, e, AfterWake(p, s, ch), w + {ch})
  {
    var s' := AfterWake(p, s, ch);
    HeldMoved(s.at, p, s'.at[p]);
    hide Held;
    forall c | Blocked(e, c) ensures Blocked(s', c) || c in w + {ch} || MayWake(p, s', c) {
      assert Blocked(s, c) || c in w || MayWake(p, s, c);
    }
  }

  lemma {:induction false} SleepKeeps(p: Pid, e: Disk, s: Disk, w: set<Chan>, ch: Chan)
    requires Outline(p, e, s, w) && MaySleep(p, s, ch)
    ensures Settled(CLIENT, e, Asleep(p, s, ch), w) && Blocked(Asleep(p, s, ch), ch)
  {
    var s' := Asleep(p, s, ch);
    HeldMoved(s.at, p, s'.at[p]);
    hide Held;
    assert s.at[p := s.at[p]] == s.at;
    forall c | Blocked(e, c) && c !in w ensures Blocked(s', c) {
      assert Blocked(s, c) || MayWake(p, s, c);
    }
  }

  lemma {:induction false} LeaveKeeps(p: Pid, e: Disk, s: Disk, w: set<Chan>)
    requires Outline(p, e, s, w) && MayLeave(p, s)
    ensures Settled(CLIENT, e, s, w)
  {
    hide Held, Conserved;
    forall c | Blocked(e, c) && c !in w ensures Blocked(s, c) {
      assert Blocked(s, c) || MayWake(p, s, c);
    }
  }

  lemma {:induction false} OutsideDisturbsNothing()
    ensures Interferes(CLIENT)
  {
    hide Conserved, Held, Outside;
    forall p, s, s' | Rest(s) && Outside(p, s, s')
      ensures Rest(s') && s'.free == s.free && s'.busy == s.busy
    {
      OutsideKeeps(p, s, s');
    }
    forall p: Pid, q: Pid, e, s, s', w | p != q && Outline(p, e, s, w) && Outside(q, s, s')
      ensures Outline(p, e, s', w) && s'.busy == s.busy && |s'.at| == |s.at| && (p < |s.at| ==> s'.at[p] == s.at[p])
    {
      OutsideKeeps(q, s, s');
      assert forall ch :: Blocked(s, ch) || MayWake(p, s, ch) ==> Blocked(s', ch) || MayWake(p, s', ch);
    }
  }

  // What sleep() and wakeup() ask of their callers, met by the driver.
  lemma {:induction false} Behaves()
    ensures WellBehaved(CLIENT)
  {
    assert Enters(CLIENT);
    OutsideDisturbsNothing();
    hide Outline, Rest, Blocked, Interferes, Settled;
    forall p, e, s, s', w | Outline(p, e, s, w) && Inside(p, s, s') ensures Outline(p, e, s', w) {
      InsideKeeps(p, e, s, w, s');
    }
    forall p, e, s, w, ch | Outline(p, e, s, w) && MayWake(p, s, ch)
      ensures Outline(p, e, AfterWake(p, s, ch), w + {ch})
    {
      WakeKeeps(p, e, s, w, ch);
    }
    forall p, e, s, w, ch | Outline(p, e, s, w) && MaySleep(p, s, ch)
      ensures Settled(CLIENT, e, Asleep(p, s, ch), w) && Blocked(Asleep(p, s, ch), ch)
    {
      SleepKeeps(p, e, s, w, ch);
    }
    forall p, e, s, w | Outline(p, e, s, w) && MayLeave(p, s) ensures Settled(CLIENT, e, s, w) {
      LeaveKeeps(p, e, s, w);
    }
  }

  // Descriptors that are not free are held by somebody waiting for the device.
  lemma {:induction false} SomebodyHolds(at: seq<Place>) returns (q: nat)
    requires Held(at) > 0 && forall q :: 0 <= q < |at| ==> Settles(at[q])
    ensures q < |at| && at[q].Waiting?
  {
    var n := |at| - 1;
    if at[n].Waiting? {
      q := n;
    } else {
      q := SomebodyHolds(at[..n]);
    }
  }

  // For every interleaving of any number of processes, interrupts and
  // completions: no descriptor is lost; while the spinlock is free, whoever
  // sleeps for descriptors is short of them because another process waits for
  // the device, and whoever sleeps for a buffer sleeps for one the device or
  // the handler still has.
  lemma {:induction false} NobodyForgotten(m: Machine<Disk>, run: seq<Step<Disk>>)
    requires Start(CLIENT, m) && Runs(CLIENT, m, run)
    ensures var n := After(CLIENT, m, run);
            && Conserved(n.data)
            && (n.lk == None ==> forall p :: 0 <= p < |n.procs| ==>
                  && (Committed(n.procs[p], FREE) ==>
                        n.data.free < 3 && exists q :: 0 <= q < |n.data.at| && n.data.at[q].Waiting?)
                  && forall b :: Committed(n.procs[p], BufChan(b)) ==> b in n.data.busy)
  {
    Behaves();
    assert Inv(CLIENT, m);
    RunKeeps(CLIENT, m, run);
    NoLostWakeup(CLIENT, m, run);
    var n := After(CLIENT, m, run);
    hide Runs, After, WellBehaved;
    forall p | n.lk == None && 0 <= p < |n.procs|
      ensures Committed(n.procs[p], FREE) ==>
                n.data.free < 3 && exists q :: 0 <= q < |n.data.at| && n.data.at[q].Waiting?
      ensures forall b :: Committed(n.procs[p], BufChan(b)) ==> b in n.data.busy
    {
      if Committed(n.procs[p], FREE) {
        assert CLIENT.blocked(n.data, FREE);
        var q := SomebodyHolds(n.data.at);
      }
      forall b | Committed(n.procs[p], BufChan(b)) ensures b in n.data.busy {
        assert CLIENT.blocked(n.data, BufChan(b));
      }
    }
  }
}
