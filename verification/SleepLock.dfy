// Sleep locks (kernel/sleeplock.c) as a client of sleep() and wakeup().
module SleepLock {
  import opened Monitor
  import opened Prelude

  datatype Place = Away | Acquiring | Holding | Releasing | Released

  // The lock's two fields and where each process is in acquiresleep and
  // releasesleep.
  datatype Lock = Lock(locked: bool, pid: Pid, at: seq<Place>)

  // &lk, the channel its waiters sleep on.
  const CHAN: Chan := 1

  predicate At(s: Lock, p: Pid, w: Place) {
    p < |s.at| && s.at[p] == w
  }

  predicate Has(s: Lock, p: Pid) {
    At(s, p, Holding) || At(s, p, Releasing)
  }

  predicate Outside(p: Pid, s: Lock, s': Lock) {
    || (At(s, p, Away) && s' == s.(at := s.at[p := Acquiring]))
    || (At(s, p, Holding) && s' == s.(at := s.at[p := Releasing]))
  }

  predicate MayEnter(p: Pid, s: Lock) {
    At(s, p, Acquiring) || At(s, p, Releasing)
  }

  predicate Inside(p: Pid, s: Lock, s': Lock) {
    || (At(s, p, Acquiring) && !s.locked && s' == Lock(true, p, s.at[p := Holding]))
    || (At(s, p, Releasing) && s' == Lock(false, 0, s.at[p := Released]))
  }

  predicate MaySleep(p: Pid, s: Lock, ch: Chan) {
    At(s, p, Acquiring) && s.locked && ch == CHAN
  }

  predicate MayWake(p: Pid, s: Lock, ch: Chan) {
    At(s, p, Released) && ch == CHAN
  }

  function AfterWake(p: Pid, s: Lock, ch: Chan): Lock {
    if p < |s.at| then s.(at := s.at[p := Away]) else s
  }

  predicate MayLeave(p: Pid, s: Lock) {
    At(s, p, Holding) || At(s, p, Away)
  }

  predicate Blocked(s: Lock, ch: Chan) {
    ch == CHAN ==> s.locked
  }

  // locked and pid say who has the lock.
  predicate Exclusive(s: Lock) {
    && (s.locked ==> Has(s, s.pid))
    && (forall p :: 0 <= p < |s.at| && Has(s, p) ==> s.locked && s.pid == p)
  }

  predicate Rest(s: Lock) {
    Exclusive(s) && forall p :: 0 <= p < |s.at| ==> s.at[p] != Released
  }

  predicate Outline(p: Pid, e: Lock, s: Lock, w: set<Chan>) {
    && Exclusive(s)
    && (forall q :: 0 <= q < |s.at| && s.at[q] == Released ==> q == p)
    && (e.locked ==> s.locked || CHAN in w || At(s, p, Released))
  }

  const CLIENT: Client<Lock> := Client(Blocked, Inside, Outside, MayEnter, MaySleep, (p: Pid, s: Lock, ch: Chan) => s,
                                       MayWake, AfterWake,
                                       MayLeave, Rest, Outline)

  lemma {:induction false} OutsideKeeps(q: Pid, s: Lock, s': Lock)
    requires Exclusive(s) && Outside(q, s, s')
    ensures Exclusive(s') && s'.locked == s.locked
    ensures forall p :: 0 <= p < |s.at| && p != q ==> s'.at[p] == s.at[p]
  {
    forall p | 0 <= p < |s'.at| && Has(s', p) ensures Has(s, p) {}
    assert s.locked ==> Has(s, s.pid);
  }

  lemma {:induction false} InsideKeeps(p: Pid, e: Lock, s: Lock, w: set<Chan>, s': Lock)
    requires Outline(p, e, s, w) && Inside(p, s, s')
    ensures Outline(p, e, s', w)
  {
    assert At(s, p, Releasing) ==> Has(s, p);
    forall q | 0 <= q < |s'.at| && Has(s', q) ensures s'.locked && s'.pid == q {
      assert q != p ==> Has(s, q);
    }
  }

  lemma {:induction false} WakeKeeps(p: Pid, e: Lock, s: Lock, w: set<Chan>, ch: Chan)
    requires Outline(p, e, s, w) && MayWake(p, s, ch)
    ensures Outline(p, e, AfterWake(p, s, ch), w + {ch})
  {
    var s' := AfterWake(p, s, ch);
    forall q | 0 <= q < |s'.at| && Has(s', q) ensures Has(s, q) {}
    assert s.locked ==> Has(s, s.pid);
  }

  lemma {:induction false} OutsideDisturbsNothing()
    ensures Interferes(CLIENT)
  {
    forall p, s, s' | Rest(s) && Outside(p, s, s') ensures Rest(s') && s'.locked == s.locked {
      OutsideKeeps(p, s, s');
    }
    forall p, q, e, s, s', w | p != q && Outline(p, e, s, w) && Outside(q, s, s') ensures Outline(p, e, s', w) {
      OutsideKeeps(q, s, s');
    }
  }

  // What sleep() and wakeup() ask of their callers, met by this lock.
  lemma {:induction false} Behaves()
    ensures WellBehaved(CLIENT)
  {
    assert Enters(CLIENT);
    assert Leaves(CLIENT);
    assert Sleeps(CLIENT);
    hide Exclusive, Outline, Rest;
    OutsideDisturbsNothing();
    forall p, e, s, s', w | Outline(p, e, s, w) && Inside(p, s, s') ensures Outline(p, e, s', w) {
      InsideKeeps(p, e, s, w, s');
    }
    forall p, e, s, w, ch | Outline(p, e, s, w) && MayWake(p, s, ch)
      ensures Outline(p, e, AfterWake(p, s, ch), w + {ch})
    {
      WakeKeeps(p, e, s, w, ch);
    }
  }

  // For every interleaving of any number of processes: at most one process has
  // the lock, and while the spinlock is free and the lock is not held, nobody
  // sleeps on it or is about to.
  lemma {:induction false} MutualExclusion(m: Machine<Lock>, run: seq<Step<Lock>>)
    requires Start(CLIENT, m) && Runs(CLIENT, m, run)
    ensures var n := After(CLIENT, m, run);
            && (forall p, q :: 0 <= p < |n.data.at| && 0 <= q < |n.data.at| && Has(n.data, p) && Has(n.data, q) ==>
                p == q)
            && (n.lk == None && !n.data.locked ==> forall p :: 0 <= p < |n.procs| ==> !Committed(n.procs[p], CHAN))
  {
    Behaves();
    assert Inv(CLIENT, m);
    RunKeeps(CLIENT, m, run);
    NoLostWakeup(CLIENT, m, run);
    var n := After(CLIENT, m, run);
    forall p | 0 <= p < |n.procs| && n.lk == None && !n.data.locked ensures !Committed(n.procs[p], CHAN) {
      assert Committed(n.procs[p], CHAN) ==> CLIENT.blocked(n.data, CHAN);
    }
  }
}
