// sleep() and wakeup() of kernel/proc.c, for any number of processes and any
// data protected by one spinlock: the interleaved steps on the lock and on the
// process locks, and the theorem that no wakeup is lost.
//
// The code that uses the lock is a parameter: what it may do inside and outside
// its critical sections, when it sleeps, wakes others and leaves. What it owes
// is local: never sleep when there is nothing to wait for, and before letting
// the lock go, wake every channel whose reason to wait has disappeared.
module Monitor {
  import opened Prelude

  type Pid = nat
  type Chan = nat

  // Code around one lock. S is the data it protects together with the places
  // the processes have reached in that code.
  datatype Client<!S(!new)> = Client(
    blocked: (S, Chan) -> bool,          // there is a reason to sleep on the channel
    inside: (Pid, S, S) -> bool,         // a step holding the lock
    outside: (Pid, S, S) -> bool,        // a step not holding the lock
    mayEnter: (Pid, S) -> bool,
    maySleep: (Pid, S, Chan) -> bool,
    asleep: (Pid, S, Chan) -> S,         // where a process that sleeps goes on
    mayWake: (Pid, S, Chan) -> bool,
    afterWake: (Pid, S, Chan) -> S,
    mayLeave: (Pid, S) -> bool,
    rest: S -> bool,                     // holds when the lock is free
    outline: (Pid, S, S, set<Chan>) -> bool)  // holder, data on entry, data now, channels woken since

  // What the client owes.
  ghost predicate WellBehaved<S(!new)>(c: Client<S>) {
    Enters(c) && Acts(c) && Wakes(c) && Interferes(c) && Leaves(c) && Sleeps(c)
  }

  ghost predicate Enters<S(!new)>(c: Client<S>) {
    forall p, s :: c.rest(s) ==> c.outline(p, s, s, {})
  }

  ghost predicate Acts<S(!new)>(c: Client<S>) {
    forall p, e, s, s', w :: c.outline(p, e, s, w) && c.inside(p, s, s') ==> c.outline(p, e, s', w)
  }

  ghost predicate Wakes<S(!new)>(c: Client<S>) {
    forall p, e, s, w, ch :: c.outline(p, e, s, w) && c.mayWake(p, s, ch) ==>
      c.outline(p, e, c.afterWake(p, s, ch), w + {ch})
  }

  // A step outside disturbs neither the data at rest nor a critical section.
  ghost predicate Interferes<S(!new)>(c: Client<S>) {
    && (forall p, s, s' :: c.rest(s) && c.outside(p, s, s') ==> c.rest(s'))
    && (forall p, s, s', ch :: c.rest(s) && c.outside(p, s, s') && c.blocked(s, ch) ==> c.blocked(s', ch))
    && (forall p, q, e, s, s', w :: p != q && c.outline(p, e, s, w) && c.outside(q, s, s') ==> c.outline(p, e, s', w))
    && (forall p, q, e, s, s', w, ch ::
          p != q && c.outline(p, e, s, w) && c.mayWake(p, s, ch) && c.outside(q, s, s') ==> c.mayWake(p, s', ch))
    && (forall p, q, e, s, s', w, ch ::
          p != q && c.outline(p, e, s, w) && c.maySleep(p, s, ch) && c.outside(q, s, s') ==> c.maySleep(p, s', ch))
  }

  ghost predicate Leaves<S(!new)>(c: Client<S>) {
    forall p, e, s, w :: c.outline(p, e, s, w) && c.mayLeave(p, s) ==> Settled(c, e, s, w)
  }

  ghost predicate Sleeps<S(!new)>(c: Client<S>) {
    forall p, e, s, w, ch :: c.outline(p, e, s, w) && c.maySleep(p, s, ch) ==>
      Settled(c, e, c.asleep(p, s, ch), w) && c.blocked(c.asleep(p, s, ch), ch)
  }

  // The lock may be let go: whoever slept with reason and was not woken still
  // has reason to sleep.
  ghost predicate Settled<S(!new)>(c: Client<S>, e: S, s: S, w: set<Chan>) {
    c.rest(s) && forall ch :: c.blocked(e, ch) && ch !in w ==> c.blocked(s, ch)
  }

  // ---- the machine ----

  datatype State = Running | Sleeping | Runnable

  // Where a process is. The stages of sleep() follow its statements: p->lock
  // held and lk held, lk released, p->chan set, p->state set, switched away,
  // picked by the scheduler, p->chan cleared, about to take lk again.
  datatype Pc =
    | Outside
    | Critical
    | Waking(ch: Chan, i: nat)
    | WakingLocked(ch: Chan, i: nat)
    | SleepLocked(ch: Chan)
    | SleepUnlocked(ch: Chan)
    | SleepChan(ch: Chan)
    | SleepState(ch: Chan)
    | Asleep(ch: Chan)
    | Scheduled(ch: Chan)
    | Reacquiring

  datatype Holder = Nobody | Self | Waker(who: Pid)

  datatype Proc = Proc(pc: Pc, state: State, chan: Chan, lock: Holder)

  // entry and woken describe the critical section of the process that holds lk.
  datatype Machine<S> = Machine(procs: seq<Proc>, lk: Option<Pid>, data: S, entry: S, woken: set<Chan>)

  function Set<S>(m: Machine<S>, p: Pid, r: Proc): Machine<S>
    requires p < |m.procs|
  {
    m.(procs := m.procs[p := r])
  }

  datatype Step<S> =
    | Act(p: Pid, next: S)
    | ActOutside(p: Pid, next: S)
    | Acquire(p: Pid)
    | Leave(p: Pid)
    | BeginWake(p: Pid, ch: Chan)
    | WakeSelf(p: Pid)
    | WakeLock(p: Pid)
    | WakeCheck(p: Pid)
    | EndWake(p: Pid)
    | LockSelf(p: Pid, ch: Chan)
    | ReleaseLk(p: Pid)
    | SetChan(p: Pid)
    | SetState(p: Pid)
    | Switch(p: Pid)
    | Schedule(p: Pid)
    | Return(p: Pid)
    | Kill(p: Pid)

  predicate Enabled<S(!new)>(c: Client<S>, m: Machine<S>, t: Step<S>) {
    && t.p < |m.procs|
    && var r := m.procs[t.p];
       match t
       case Act(p, next) => r.pc == Critical && c.inside(p, m.data, next)
       case ActOutside(p, next) => r.pc == Outside && c.outside(p, m.data, next)
       case Acquire(p) => ((r.pc == Outside && c.mayEnter(p, m.data)) || r.pc == Reacquiring) && m.lk == None
       case Leave(p) => r.pc == Critical && c.mayLeave(p, m.data)
       case BeginWake(p, ch) => r.pc == Critical && c.mayWake(p, m.data, ch)
       case WakeSelf(p) => r.pc.Waking? && r.pc.i == p
       case WakeLock(p) => r.pc.Waking? && r.pc.i != p && r.pc.i < |m.procs| && m.procs[r.pc.i].lock == Nobody
       case WakeCheck(p) => r.pc.WakingLocked? && r.pc.i < |m.procs|
       case EndWake(p) => r.pc.Waking? && r.pc.i == |m.procs|
       case LockSelf(p, ch) => r.pc == Critical && c.maySleep(p, m.data, ch) && r.lock == Nobody
       case ReleaseLk(p) => r.pc.SleepLocked?
       case SetChan(p) => r.pc.SleepUnlocked?
       case SetState(p) => r.pc.SleepChan?
       case Switch(p) => r.pc.SleepState?
       case Schedule(p) => r.pc.Asleep? && r.state == Runnable && r.lock == Nobody
       case Return(p) => r.pc.Scheduled?
       case Kill(p) => r.lock == Nobody && r.state == Sleeping
  }

  function Next<S(!new)>(c: Client<S>, m: Machine<S>, t: Step<S>): Machine<S>
    requires Enabled(c, m, t)
  {
    var r := m.procs[t.p];
    match t
    case Act(p, next) => m.(data := next)
    case ActOutside(p, next) => m.(data := next)
    case Acquire(p) => Set(m, p, r.(pc := Critical)).(lk := Some(p), entry := m.data, woken := {})
    case Leave(p) => Set(m, p, r.(pc := Outside)).(lk := None)
    case BeginWake(p, ch) => Set(m, p, r.(pc := Waking(ch, 0)))
    case WakeSelf(p) => Set(m, p, r.(pc := Waking(r.pc.ch, r.pc.i + 1)))
    case WakeLock(p) =>
      Set(Set(m, r.pc.i, m.procs[r.pc.i].(lock := Waker(p))), p, r.(pc := WakingLocked(r.pc.ch, r.pc.i)))
    case WakeCheck(p) =>
      var q := m.procs[r.pc.i];
      var q' := q.(lock := Nobody, state := if q.state == Sleeping && q.chan == r.pc.ch then Runnable else q.state);
      Set(Set(m, r.pc.i, q'), p, (if r.pc.i == p then q' else r).(pc := Waking(r.pc.ch, r.pc.i + 1)))
    case EndWake(p) =>
      Set(m, p, r.(pc := Critical)).(data := c.afterWake(p, m.data, r.pc.ch), woken := m.woken + {r.pc.ch})
    case LockSelf(p, ch) => Set(m, p, r.(pc := SleepLocked(ch), lock := Self))
    case ReleaseLk(p) => Set(m, p, r.(pc := SleepUnlocked(r.pc.ch))).(lk := None, data := c.asleep(p, m.data, r.pc.ch))
    case SetChan(p) => Set(m, p, r.(pc := SleepChan(r.pc.ch), chan := r.pc.ch))
    case SetState(p) => Set(m, p, r.(pc := SleepState(r.pc.ch), state := Sleeping))
    case Switch(p) => Set(m, p, r.(pc := Asleep(r.pc.ch), lock := Nobody))
    case Schedule(p) => Set(m, p, r.(pc := Scheduled(r.pc.ch), state := Running, lock := Self))
    case Return(p) => Set(m, p, r.(pc := Reacquiring, chan := 0, lock := Nobody))
    case Kill(p) => Set(m, p, r.(state := Runnable))
  }

  // ---- the invariant ----

  predicate HoldsLk(r: Proc) {
    r.pc == Critical || r.pc.Waking? || r.pc.WakingLocked? || r.pc.SleepLocked?
  }

  // The process has given up the lock in sleep() and has not been woken.
  predicate Committed(r: Proc, ch: Chan) {
    || r.pc == SleepUnlocked(ch) || r.pc == SleepChan(ch) || r.pc == SleepState(ch)
    || (r.pc == Asleep(ch) && r.state == Sleeping)
  }

  predicate OwnLock(r: Proc) {
    r.pc.SleepLocked? || r.pc.SleepUnlocked? || r.pc.SleepChan? || r.pc.SleepState? || r.pc.Scheduled?
  }

  predicate WakesAt(r: Proc, i: Pid) {
    r.pc.WakingLocked? && r.pc.i == i
  }

  // The fields of one process agree with its place.
  predicate ProcOk<S>(m: Machine<S>, p: Pid)
    requires p < |m.procs|
  {
    var r := m.procs[p];
    && (HoldsLk(r) <==> m.lk == Some(p))
    && (OwnLock(r) <==> r.lock == Self)
    && (r.lock.Waker? ==> r.lock.who < |m.procs| && r.lock.who != p && WakesAt(m.procs[r.lock.who], p))
    && (r.pc.WakingLocked? ==> r.pc.i < |m.procs| && r.pc.i != p && m.procs[r.pc.i].lock == Waker(p))
    && (r.pc.Waking? ==> r.pc.i <= |m.procs|)
    && (r.pc.SleepState? || (r.pc.Asleep? && r.state == Sleeping) ==> r.chan == r.pc.ch)
    && (r.pc.SleepChan? ==> r.chan == r.pc.ch)
    && (r.state == Sleeping ==> r.pc.SleepState? || r.pc.Asleep?)
    && (r.pc.SleepState? ==> r.state == Sleeping)
    && (r.pc.Asleep? ==> r.state != Running)
  }

  // Every process committed to sleep has a reason.
  ghost predicate SleepersOk<S(!new)>(c: Client<S>, m: Machine<S>) {
    forall p, ch :: 0 <= p < |m.procs| && Committed(m.procs[p], ch) ==> Reason(c, m, ch)
  }

  ghost predicate Reason<S(!new)>(c: Client<S>, m: Machine<S>, ch: Chan) {
    if m.lk.None? then c.blocked(m.data, ch) else c.blocked(m.entry, ch) && ch !in m.woken
  }

  // The wakeup loop leaves nobody behind.
  predicate LoopOk<S>(m: Machine<S>) {
    m.lk.Some? && m.lk.value < |m.procs| ==>
      var pc := m.procs[m.lk.value].pc;
      pc.Waking? || pc.WakingLocked? ==>
        forall j :: 0 <= j < pc.i && j < |m.procs| ==> !Committed(m.procs[j], pc.ch)
  }

  ghost predicate DataOk<S(!new)>(c: Client<S>, m: Machine<S>) {
    if m.lk.None? then c.rest(m.data)
    else
      && m.lk.value < |m.procs|
      && c.outline(m.lk.value, m.entry, m.data, m.woken)
      && var pc := m.procs[m.lk.value].pc;
         && (pc.Waking? || pc.WakingLocked? ==> c.mayWake(m.lk.value, m.data, pc.ch))
         && (pc.SleepLocked? ==> c.maySleep(m.lk.value, m.data, pc.ch))
  }

  ghost predicate Inv<S(!new)>(c: Client<S>, m: Machine<S>) {
    && ProcsOk(m)
    && SleepersOk(c, m) && LoopOk(m) && DataOk(c, m)
  }

  predicate ProcsOk<S>(m: Machine<S>) {
    forall p :: 0 <= p < |m.procs| ==> ProcOk(m, p)
  }

  // ---- every step keeps it ----

  // The process whose lock the step takes or gives back.
  function Target<S>(m: Machine<S>, t: Step<S>): Pid
    requires t.p < |m.procs|
  {
    var pc := m.procs[t.p].pc;
    if (t.WakeLock? || t.WakeCheck?) && (pc.Waking? || pc.WakingLocked?) then pc.i else t.p
  }

  lemma {:induction false} OwnProcKept<S(!new)>(c: Client<S>, m: Machine<S>, t: Step<S>)
    requires Enabled(c, m, t)
    requires !t.WakeLock? && !t.WakeCheck?
    requires ProcOk(m, t.p)
    requires m.procs[t.p].lock.Waker? ==> ProcOk(m, m.procs[t.p].lock.who)
    ensures ProcOk(Next(c, m, t), t.p)
  {
  }

  lemma {:induction false} OtherProcKept<S(!new)>(c: Client<S>, m: Machine<S>, t: Step<S>, p: Pid)
    requires Enabled(c, m, t) && p < |m.procs| && p != t.p
    requires !t.WakeLock? && !t.WakeCheck?
    requires ProcOk(m, p) && ProcOk(m, t.p)
    ensures ProcOk(Next(c, m, t), p)
  {
    assert Next(c, m, t).procs[p] == m.procs[p];
    LkFollows(c, m, t);
  }

  // Who holds lk after a step.
  lemma {:induction false} LkFollows<S(!new)>(c: Client<S>, m: Machine<S>, t: Step<S>)
    requires Enabled(c, m, t) && ProcOk(m, t.p)
    ensures forall p: Pid :: p != t.p ==> (Next(c, m, t).lk == Some(p) <==> m.lk == Some(p))
  {
  }

  lemma {:induction false} ProcKeptWaking<S(!new)>(c: Client<S>, m: Machine<S>, t: Step<S>, p: Pid)
    requires Enabled(c, m, t) && p < |m.procs|
    requires t.WakeLock? || t.WakeCheck?
    requires ProcOk(m, p) && ProcOk(m, t.p) && ProcOk(m, Target(m, t))
    requires m.procs[p].lock.Waker? ==> ProcOk(m, m.procs[p].lock.who)
    requires m.procs[p].pc.WakingLocked? ==> ProcOk(m, m.procs[p].pc.i)
    ensures ProcOk(Next(c, m, t), p)
  {
  }

  lemma {:induction false} ProcsKept<S(!new)>(c: Client<S>, m: Machine<S>, t: Step<S>)
    requires ProcsOk(m) && Enabled(c, m, t)
    ensures ProcsOk(Next(c, m, t))
  {
    hide Next, Enabled, ProcOk;
    assert t.p < |m.procs| && Target(m, t) < |m.procs| by { TargetInRange(c, m, t); }
    assert |Next(c, m, t).procs| == |m.procs| by { SameProcs(c, m, t); }
    forall p | 0 <= p < |m.procs| ensures ProcOk(Next(c, m, t), p) {
      assert ProcOk(m, p);
      Neighbours(m, p);
      if t.WakeLock? || t.WakeCheck? {
        ProcKeptWaking(c, m, t, p);
      } else if p == t.p {
        OwnProcKept(c, m, t);
      } else {
        OtherProcKept(c, m, t, p);
      }
    }
  }

  lemma {:induction false} TargetInRange<S(!new)>(c: Client<S>, m: Machine<S>, t: Step<S>)
    requires Enabled(c, m, t)
    ensures t.p < |m.procs| && Target(m, t) < |m.procs|
  {
  }

  lemma {:induction false} SameProcs<S(!new)>(c: Client<S>, m: Machine<S>, t: Step<S>)
    requires Enabled(c, m, t)
    ensures |Next(c, m, t).procs| == |m.procs|
  {
  }

  lemma {:induction false} Neighbours<S>(m: Machine<S>, p: Pid)
    requires p < |m.procs| && ProcsOk(m)
    ensures m.procs[p].lock.Waker? ==> m.procs[p].lock.who < |m.procs| && ProcOk(m, m.procs[p].lock.who)
    ensures m.procs[p].pc.WakingLocked? ==> m.procs[p].pc.i < |m.procs| && ProcOk(m, m.procs[p].pc.i)
  {
    assert ProcOk(m, p);
  }

  // What a step does to a process that is committed to sleep afterwards: it was
  // committed before, or it is the one that lets the lock go.
  lemma {:induction false} CommittedBefore<S(!new)>(c: Client<S>, m: Machine<S>, t: Step<S>, p: Pid, ch: Chan)
    requires Enabled(c, m, t) && p < |m.procs|
    requires ProcOk(m, p) && ProcOk(m, t.p) && ProcOk(m, Target(m, t))
    requires Committed(Next(c, m, t).procs[p], ch)
    ensures Committed(m.procs[p], ch) || (t.ReleaseLk? && p == t.p && m.procs[p].pc == SleepLocked(ch))
    ensures t.WakeCheck? && p == Target(m, t) ==> m.procs[t.p].pc.ch != ch
  {
  }

  lemma {:induction false} LoopKept<S(!new)>(c: Client<S>, m: Machine<S>, t: Step<S>)
    requires ProcsOk(m) && LoopOk(m) && Enabled(c, m, t)
    ensures LoopOk(Next(c, m, t))
  {
    assert ProcOk(m, t.p);
    var m' := Next(c, m, t);
    if m'.lk.Some? && m'.lk.value < |m'.procs| {
      var q := m'.lk.value;
      var pc := m'.procs[q].pc;
      if pc.Waking? || pc.WakingLocked? {
        assert ProcOk(m, q);
        forall j | 0 <= j < pc.i && j < |m'.procs| ensures !Committed(m'.procs[j], pc.ch) {
          assert ProcOk(m, j);
          assert ProcOk(m, Target(m, t));
          if Committed(m'.procs[j], pc.ch) {
            CommittedBefore(c, m, t, j, pc.ch);
          }
        }
      }
    }
  }

  // A reason to sleep survives every step, except for a sleeper the end of a
  // wakeup loop has passed over.
  lemma {:induction false} ReasonKept<S(!new)>(c: Client<S>, m: Machine<S>, t: Step<S>, ch: Chan)
    requires WellBehaved(c) && DataOk(c, m) && Enabled(c, m, t) && ProcOk(m, t.p)
    requires Reason(c, m, ch)
    requires t.EndWake? ==> m.procs[t.p].pc.ch != ch
    ensures Reason(c, Next(c, m, t), ch)
  {
  }

  lemma {:induction false} SleepersKept<S(!new)>(c: Client<S>, m: Machine<S>, t: Step<S>)
    requires WellBehaved(c)
    requires Inv(c, m) && Enabled(c, m, t)
    ensures SleepersOk(c, Next(c, m, t))
  {
    hide WellBehaved, DataOk;
    var m' := Next(c, m, t);
    assert ProcOk(m, t.p) && ProcOk(m, Target(m, t));
    forall p, ch | 0 <= p < |m'.procs| && Committed(m'.procs[p], ch) ensures Reason(c, m', ch) {
      assert ProcOk(m, p);
      CommittedBefore(c, m, t, p, ch);
      if Committed(m.procs[p], ch) {
        assert Reason(c, m, ch);
        ReasonKept(c, m, t, ch);
      } else {
        NewSleeper(c, m, t);
      }
    }
  }

  lemma {:induction false} NewSleeper<S(!new)>(c: Client<S>, m: Machine<S>, t: Step<S>)
    requires WellBehaved(c) && DataOk(c, m) && Enabled(c, m, t) && ProcOk(m, t.p)
    requires t.ReleaseLk?
    ensures Reason(c, Next(c, m, t), m.procs[t.p].pc.ch)
  {
  }

  lemma {:induction false} DataKept<S(!new)>(c: Client<S>, m: Machine<S>, t: Step<S>)
    requires WellBehaved(c)
    requires Inv(c, m) && Enabled(c, m, t)
    ensures DataOk(c, Next(c, m, t))
  {
    assert ProcOk(m, t.p);
  }

  // ---- whole runs ----

  ghost predicate Start<S(!new)>(c: Client<S>, m: Machine<S>) {
    && m.lk == None && c.rest(m.data)
    && forall p :: 0 <= p < |m.procs| ==> m.procs[p] == Idle()
  }

  predicate Runs<S(!new)>(c: Client<S>, m: Machine<S>, run: seq<Step<S>>)
    decreases |run|
  {
    run == [] || (Enabled(c, m, run[0]) && Runs(c, Next(c, m, run[0]), run[1..]))
  }

  function After<S(!new)>(c: Client<S>, m: Machine<S>, run: seq<Step<S>>): Machine<S>
    requires Runs(c, m, run)
    decreases |run|
  {
    if run == [] then m else After(c, Next(c, m, run[0]), run[1..])
  }

  lemma {:induction false} RunKeeps<S(!new)>(c: Client<S>, m: Machine<S>, run: seq<Step<S>>)
    requires WellBehaved(c) && Inv(c, m) && Runs(c, m, run)
    ensures Inv(c, After(c, m, run))
    decreases |run|
  {
    if run != [] {
      var t := run[0];
      assert Inv(c, Next(c, m, t)) by {
        hide WellBehaved, Next, Enabled, DataOk, LoopOk, SleepersOk, ProcsOk;
        ProcsKept(c, m, t);
        LoopKept(c, m, t);
        SleepersKept(c, m, t);
        DataKept(c, m, t);
      }
      hide WellBehaved, Next, Enabled, Inv;
      RunKeeps(c, Next(c, m, t), run[1..]);
    }
  }

  // No lost wakeup: in every interleaving of any number of processes, whenever
  // nobody is inside the critical section, the client's data is at rest and
  // every process that is going to sleep or asleep on a channel, without a
  // wakeup under way to it, still has a reason to be there. A process that
  // sleeps on is woken only by a step that finds it, so nobody waits for an
  // event that already happened.
  lemma {:induction false} NoLostWakeup<S(!new)>(c: Client<S>, m: Machine<S>, run: seq<Step<S>>)
    requires WellBehaved(c) && Start(c, m) && Runs(c, m, run)
    ensures var n := After(c, m, run);
            && (n.lk == None ==> c.rest(n.data))
            && (n.lk == None ==>
                  forall p, ch :: 0 <= p < |n.procs| && Committed(n.procs[p], ch) ==> c.blocked(n.data, ch))
            && (forall p, q ::
                  0 <= p < |n.procs| && 0 <= q < |n.procs| && HoldsLk(n.procs[p]) && HoldsLk(n.procs[q]) ==> p == q)
  {
    assert Inv(c, m);
    RunKeeps(c, m, run);
    var n := After(c, m, run);
    forall p, q | 0 <= p < |n.procs| && 0 <= q < |n.procs| && HoldsLk(n.procs[p]) && HoldsLk(n.procs[q])
      ensures p == q
    {
      assert ProcOk(n, p) && ProcOk(n, q);
    }
    forall p, ch | n.lk == None && 0 <= p < |n.procs| && Committed(n.procs[p], ch) ensures c.blocked(n.data, ch) {
      assert Reason(c, n, ch);
    }
  }

  // ---- runs put together ----

  function Idle(): Proc {
    Proc(Outside, Running, 0, Nobody)
  }

  lemma {:induction false} OneMore<S(!new)>(c: Client<S>, m: Machine<S>, run: seq<Step<S>>, t: Step<S>)
    requires Runs(c, m, run) && Enabled(c, After(c, m, run), t)
    ensures Runs(c, m, run + [t]) && After(c, m, run + [t]) == Next(c, After(c, m, run), t)
    decreases |run|
  {
    if run == [] {
      assert (run + [t])[1..] == [];
    } else {
      OneMore(c, Next(c, m, run[0]), run[1..], t);
      assert (run + [t])[1..] == run[1..] + [t];
    }
  }

  ghost predicate Reaches<S(!new)>(c: Client<S>, m: Machine<S>, m': Machine<S>) {
    exists run :: Runs(c, m, run) && After(c, m, run) == m'
  }

  lemma {:induction false} ReachesNext<S(!new)>(c: Client<S>, m: Machine<S>, m': Machine<S>, t: Step<S>)
    requires Reaches(c, m, m') && Enabled(c, m', t)
    ensures Reaches(c, m, Next(c, m', t))
  {
    var run :| Runs(c, m, run) && After(c, m, run) == m';
    OneMore(c, m, run, t);
    assert Runs(c, m, run + [t]);
  }

  // Nobody holds or waits for the lock.
  predicate Quiet<S>(m: Machine<S>) {
    m.lk == None && forall p :: 0 <= p < |m.procs| ==> m.procs[p] == Idle()
  }

  // A run of n processes leads to this data with everybody outside.
  ghost predicate Visits<S(!new)>(c: Client<S>, m: Machine<S>, n: nat, s: S) {
    exists m' :: Reaches(c, m, m') && Quiet(m') && |m'.procs| == n && m'.data == s
  }

  lemma {:induction false} VisitOutside<S(!new)>(c: Client<S>, m: Machine<S>, n: nat, s: S, p: Pid, s': S)
    requires Visits(c, m, n, s) && p < n && c.outside(p, s, s')
    ensures Visits(c, m, n, s')
  {
    var m' :| Reaches(c, m, m') && Quiet(m') && |m'.procs| == n && m'.data == s;
    ReachesNext(c, m, m', ActOutside(p, s'));
    assert Quiet(m'.(data := s'));
  }

  // The process enters and takes one step.
  lemma {:induction false} EnterAndAct<S(!new)>(c: Client<S>, m: Machine<S>, n: nat, s: S, p: Pid, s': S)
    returns (m': Machine<S>)
    requires Visits(c, m, n, s) && p < n && c.mayEnter(p, s) && c.inside(p, s, s')
    ensures Reaches(c, m, m') && |m'.procs| == n && m'.data == s' && m'.lk == Some(p)
    ensures Alone(m'.procs, p, Critical)
  {
    var m0 :| Reaches(c, m, m0) && Quiet(m0) && |m0.procs| == n && m0.data == s;
    ReachesNext(c, m, m0, Acquire(p));
    var m1 := Next(c, m0, Acquire(p));
    ReachesNext(c, m, m1, Act(p, s'));
    m' := m1.(data := s');
  }

  lemma {:induction false} VisitInside<S(!new)>(c: Client<S>, m: Machine<S>, n: nat, s: S, p: Pid, s': S)
    requires Visits(c, m, n, s) && p < n && c.mayEnter(p, s) && c.inside(p, s, s') && c.mayLeave(p, s')
    ensures Visits(c, m, n, s')
  {
    var m' := EnterAndAct(c, m, n, s, p, s');
    LeaveQuiet(c, m, n, m', p);
  }

  lemma {:induction false} LeaveQuiet<S(!new)>(c: Client<S>, m: Machine<S>, n: nat, m': Machine<S>, p: Pid)
    requires Reaches(c, m, m') && |m'.procs| == n && p < n && c.mayLeave(p, m'.data)
    requires Alone(m'.procs, p, Critical)
    ensures Visits(c, m, n, m'.data)
  {
    ReachesNext(c, m, m', Leave(p));
    var m'' := Next(c, m', Leave(p));
    assert m''.procs[p] == Idle();
    assert Quiet(m'') && m''.data == m'.data;
  }

  // p is at the given place, and everybody else outside.
  predicate Alone(procs: seq<Proc>, p: Pid, pc: Pc) {
    p < |procs| && forall q :: 0 <= q < |procs| ==> procs[q] == if q == p then Idle().(pc := pc) else Idle()
  }

  lemma {:induction false} PassIdle<S(!new)>(c: Client<S>, m: Machine<S>, m': Machine<S>, p: Pid, ch: Chan, i: nat)
    requires Reaches(c, m, m') && i < |m'.procs| && Alone(m'.procs, p, Waking(ch, i))
    ensures Reaches(c, m, Set(m', p, Idle().(pc := Waking(ch, i + 1))))
  {
    hide Reaches;
    var m'' := Set(m', p, Idle().(pc := Waking(ch, i + 1)));
    if i == p {
      ReachesNext(c, m, m', WakeSelf(p));
    } else {
      ReachesNext(c, m, m', WakeLock(p));
      var m1 := Next(c, m', WakeLock(p));
      ReachesNext(c, m, m1, WakeCheck(p));
      assert Next(c, m1, WakeCheck(p)).procs == m''.procs;
    }
  }

  // The loop of wakeup() over processes none of which sleeps.
  lemma {:induction false} WakeNobody<S(!new)>(c: Client<S>, m: Machine<S>, m': Machine<S>, p: Pid, ch: Chan, i: nat)
    requires Reaches(c, m, m') && i <= |m'.procs| && Alone(m'.procs, p, Waking(ch, i))
    ensures Reaches(c, m, Set(m', p, Idle().(pc := Waking(ch, |m'.procs|))))
    decreases |m'.procs| - i
  {
    hide Reaches;
    if i == |m'.procs| {
      assert Set(m', p, Idle().(pc := Waking(ch, i))) == m';
    } else {
      PassIdle(c, m, m', p, ch, i);
      var m'' := Set(m', p, Idle().(pc := Waking(ch, i + 1)));
      WakeNobody(c, m, m'', p, ch, i + 1);
      assert Set(m'', p, Idle().(pc := Waking(ch, |m'.procs|))) == Set(m', p, Idle().(pc := Waking(ch, |m'.procs|)));
    }
  }

  // The process enters, takes one step, wakes the channel and leaves.
  lemma {:induction false} VisitWaking<S(!new)>(c: Client<S>, m: Machine<S>, n: nat, s: S, p: Pid, s': S, ch: Chan)
    requires Visits(c, m, n, s) && p < n && c.mayEnter(p, s) && c.inside(p, s, s')
    requires c.mayWake(p, s', ch) && c.mayLeave(p, c.afterWake(p, s', ch))
    ensures Visits(c, m, n, c.afterWake(p, s', ch))
  {
    var m0 := EnterAndAct(c, m, n, s, p, s');
    ReachesNext(c, m, m0, BeginWake(p, ch));
    var m1 := Next(c, m0, BeginWake(p, ch));
    WakeNobody(c, m, m1, p, ch, 0);
    var m2 := Set(m1, p, Idle().(pc := Waking(ch, n)));
    ReachesNext(c, m, m2, EndWake(p));
    LeaveQuiet(c, m, n, Next(c, m2, EndWake(p)), p);
  }
}
