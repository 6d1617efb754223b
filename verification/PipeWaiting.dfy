// Who sleeps on a pipe (kernel/pipe.c): readers and writers as clients of
// sleep() and wakeup(). Only the number of pending bytes matters here.
module PipeWaiting {
  import opened Monitor
  import opened Prelude
  import Pipe

  // left counts the bytes still to transfer; unsaid: bytes were put in since the
  // last wakeup of the readers.
  datatype Place =
    | Away
    | Writing(left: nat, unsaid: bool)
    | FullWake(left: nat)
    | FullSleep(left: nat)
    | WriteWake
    | Reading(left: nat)
    | Copying(left: nat)
    | ReadWake
    | ClosingWrite
    | ClosingRead
    | CloseWakesReaders
    | CloseWakesWriters

  datatype Ends = Ends(pending: nat, readopen: bool, writeopen: bool, at: seq<Place>)

  // &pi->nread and &pi->nwrite
  const READERS: Chan := 1
  const WRITERS: Chan := 2

  function Move(s: Ends, p: Pid, w: Place): Ends
    requires p < |s.at|
  {
    s.(at := s.at[p := w])
  }

  predicate Outside(p: Pid, s: Ends, s': Ends) {
    && p < |s.at| && s.at[p] == Away && |s'.at| == |s.at|
    && var w := s'.at[p];
       && s' == Move(s, p, w)
       && ((w.Writing? && !w.unsaid) || w.Reading? || w.ClosingWrite? || w.ClosingRead?)
  }

  predicate MayEnter(p: Pid, s: Ends) {
    p < |s.at| && var w := s.at[p]; w.Writing? || w.Reading? || w.ClosingWrite? || w.ClosingRead?
  }

  predicate Full(s: Ends) {
    s.pending == Pipe.PIPESIZE
  }

  // Whether a writer may find itself killed after putting bytes in that it has
  // not told the readers about.
  predicate Inside(lateKill: bool, p: Pid, s: Ends, s': Ends) {
    && p < |s.at|
    && match s.at[p]
       case Writing(left, unsaid) =>
         if left == 0 then s' == Move(s, p, WriteWake)
         else if !s.readopen then s' == Move(s, p, Away)
         else
           || ((unsaid ==> lateKill) && s' == Move(s, p, Away))                   // killed
           || (Full(s) && s' == Move(s, p, FullWake(left)))
           || (!Full(s) && s' == Move(s, p, Writing(left - 1, true)).(pending := s.pending + 1))
           || (!Full(s) && s' == Move(s, p, WriteWake))                           // copyin fails
       case Reading(left) =>
         if s.pending == 0 && s.writeopen then s' == Move(s, p, Away)             // killed
         else s' == Move(s, p, Copying(left))
       case Copying(left) =>
         if left == 0 || s.pending == 0 then s' == Move(s, p, ReadWake)
         else
           || s' == Move(s, p, Copying(left - 1)).(pending := s.pending - 1)
           || s' == Move(s, p, ReadWake).(pending := s.pending - 1)               // copyout fails
       case ClosingWrite => s' == Move(s, p, CloseWakesReaders).(writeopen := false)
       case ClosingRead => s' == Move(s, p, CloseWakesWriters).(readopen := false)
       case _ => false
  }

  predicate MaySleep(p: Pid, s: Ends, ch: Chan) {
    && p < |s.at|
    && match s.at[p]
       case FullSleep(_) => ch == WRITERS
       case Reading(_) => s.pending == 0 && s.writeopen && ch == READERS
       case _ => false
  }

  // A writer goes back to the head of its loop.
  function Asleep(p: Pid, s: Ends, ch: Chan): Ends {
    if p < |s.at| && s.at[p].FullSleep? then Move(s, p, Writing(s.at[p].left, false)) else s
  }

  predicate MayWake(p: Pid, s: Ends, ch: Chan) {
    && p < |s.at|
    && match s.at[p]
       case FullWake(_) => ch == READERS
       case WriteWake => ch == READERS
       case CloseWakesReaders => ch == READERS
       case ReadWake => ch == WRITERS
       case CloseWakesWriters => ch == WRITERS
       case _ => false
  }

  function AfterWake(p: Pid, s: Ends, ch: Chan): Ends {
    if p < |s.at| then Move(s, p, if s.at[p].FullWake? then FullSleep(s.at[p].left) else Away) else s
  }

  predicate MayLeave(p: Pid, s: Ends) {
    p < |s.at| && s.at[p] == Away
  }

  predicate Blocked(lateKill: bool, s: Ends, ch: Chan) {
    && (ch == WRITERS ==> Full(s) && s.readopen)
    && (ch == READERS && !lateKill && s.readopen ==> s.pending == 0 && s.writeopen)
  }

  // ---- the invariant ----

  // The places a process reaches without the lock.
  predicate Free(w: Place) {
    w.Away? || (w.Writing? && !w.unsaid) || w.Reading? || w.ClosingWrite? || w.ClosingRead?
  }

  predicate Rest(s: Ends) {
    s.pending <= Pipe.PIPESIZE && forall q :: 0 <= q < |s.at| ==> Free(s.at[q])
  }

  // The process will wake the channel before it lets the lock go.
  predicate Owes(w: Place, ch: Chan) {
    if ch == WRITERS then w.Copying? || w.ReadWake? || w.CloseWakesWriters?
    else (w.Writing? && w.unsaid) || w.FullWake? || w.WriteWake? || w.CloseWakesReaders?
  }

  function PlaceOf(s: Ends, p: Pid): Place {
    if p < |s.at| then s.at[p] else Away
  }

  predicate Outline(lateKill: bool, p: Pid, e: Ends, s: Ends, w: set<Chan>) {
    && s.pending <= Pipe.PIPESIZE
    && (forall q :: 0 <= q < |s.at| && q != p ==> Free(s.at[q]))
    && (PlaceOf(s, p).FullSleep? || PlaceOf(s, p).FullWake? ==> Full(s) && s.readopen)
    && Told(lateKill, e, s, w, PlaceOf(s, p), READERS)
    && Told(lateKill, e, s, w, PlaceOf(s, p), WRITERS)
  }

  predicate Told(lateKill: bool, e: Ends, s: Ends, w: set<Chan>, place: Place, ch: Chan) {
    Blocked(lateKill, e, ch) ==> Blocked(lateKill, s, ch) || ch in w || Owes(place, ch)
  }

  function ClientFor(lateKill: bool): Client<Ends> {
    Client((s: Ends, ch: Chan) => Blocked(lateKill, s, ch), (p: Pid, s: Ends, s': Ends) => Inside(lateKill, p, s, s'),
           Outside, MayEnter, MaySleep, Asleep, MayWake, AfterWake, MayLeave, Rest,
           (p: Pid, e: Ends, s: Ends, w: set<Chan>) => Outline(lateKill, p, e, s, w))
  }

  // ---- the obligations ----

  lemma {:induction false} InsideKeeps(lateKill: bool, p: Pid, e: Ends, s: Ends, w: set<Chan>, s': Ends)
    requires Outline(lateKill, p, e, s, w) && Inside(lateKill, p, s, s')
    ensures Outline(lateKill, p, e, s', w)
  {
    if s.at[p].Writing? {
      WriterKeeps(lateKill, p, e, s, w, s');
    }
  }

  lemma {:induction false} WriterKeeps(lateKill: bool, p: Pid, e: Ends, s: Ends, w: set<Chan>, s': Ends)
    requires Outline(lateKill, p, e, s, w) && Inside(lateKill, p, s, s') && s.at[p].Writing?
    ensures Outline(lateKill, p, e, s', w)
  {
  }

  lemma {:induction false} WakeKeeps(lateKill: bool, p: Pid, e: Ends, s: Ends, w: set<Chan>, ch: Chan)
    requires Outline(lateKill, p, e, s, w) && MayWake(p, s, ch)
    ensures Outline(lateKill, p, e, AfterWake(p, s, ch), w + {ch})
  {
  }

  lemma {:induction false} OutsideKeeps(lateKill: bool, p: Pid, q: Pid, e: Ends, s: Ends, w: set<Chan>, s': Ends)
    requires p != q && Outline(lateKill, p, e, s, w) && Outside(q, s, s')
    ensures Outline(lateKill, p, e, s', w) && PlaceOf(s', p) == PlaceOf(s, p)
  {
  }

  lemma {:induction false} OutsideDisturbsNothing(lateKill: bool)
    ensures Interferes(ClientFor(lateKill))
  {
    forall p, q, e, s, s', w | p != q && Outline(lateKill, p, e, s, w) && Outside(q, s, s')
      ensures Outline(lateKill, p, e, s', w)
    {
      OutsideKeeps(lateKill, p, q, e, s, w, s');
    }
    hide Outline;
  }

  // What sleep() and wakeup() ask of their callers, met by the pipe.
  lemma {:induction false} Behaves(lateKill: bool)
    ensures WellBehaved(ClientFor(lateKill))
  {
    var c := ClientFor(lateKill);
    assert Enters(c);
    assert Leaves(c);
    assert Sleeps(c);
    hide Outline, Rest, Inside, Outside, AfterWake;
    OutsideDisturbsNothing(lateKill);
    forall p, e, s, s', w | Outline(lateKill, p, e, s, w) && Inside(lateKill, p, s, s')
      ensures Outline(lateKill, p, e, s', w)
    {
      InsideKeeps(lateKill, p, e, s, w, s');
    }
    forall p, e, s, w, ch | Outline(lateKill, p, e, s, w) && MayWake(p, s, ch)
      ensures Outline(lateKill, p, e, AfterWake(p, s, ch), w + {ch})
    {
      WakeKeeps(lateKill, p, e, s, w, ch);
    }
  }

  // In every interleaving, while the pipe lock is free: a writer sleeps only on
  // a full pipe whose read end is open; and as long as no writer is killed
  // between putting bytes in and telling the readers, a reader of an open pipe
  // sleeps only while it is empty and the write end is open.
  lemma {:induction false} SleepersHaveReason(lateKill: bool, m: Machine<Ends>, run: seq<Step<Ends>>)
    requires var c := ClientFor(lateKill); Start(c, m) && Runs(c, m, run)
    ensures var n := After(ClientFor(lateKill), m, run);
            n.lk == None ==>
              && (forall p :: 0 <= p < |n.procs| && Committed(n.procs[p], WRITERS) ==> Full(n.data) && n.data.readopen)
              && (forall p :: 0 <= p < |n.procs| && Committed(n.procs[p], READERS) && !lateKill && n.data.readopen ==>
                    n.data.pending == 0 && n.data.writeopen)
  {
    Behaves(lateKill);
    NoLostWakeup(ClientFor(lateKill), m, run);
    var n := After(ClientFor(lateKill), m, run);
    hide WellBehaved, Runs, After, Start;
    if n.lk == None {
      forall p | 0 <= p < |n.procs| && Committed(n.procs[p], WRITERS) ensures Blocked(lateKill, n.data, WRITERS) {
        assert ClientFor(lateKill).blocked(n.data, WRITERS);
      }
      forall p | 0 <= p < |n.procs| && Committed(n.procs[p], READERS) ensures Blocked(lateKill, n.data, READERS) {
        assert ClientFor(lateKill).blocked(n.data, READERS);
      }
    }
  }

  // ---- the reader that is not told ----

  function Begin(): Machine<Ends> {
    var s := Ends(0, true, true, [Away, Away]);
    Machine([Idle(), Idle()], None, s, s, {})
  }

  function States(): seq<Ends> {
    [Ends(0, true, true, [Reading(1), Away]),
     Ends(0, true, true, [Reading(1), Writing(2, false)]),
     Ends(1, true, true, [Reading(1), Writing(1, true)]),
     Ends(1, true, true, [Reading(1), Away])]
  }

  // A reader goes to sleep on the empty pipe; a writer puts one of its two bytes
  // in, is killed and leaves.
  function LostRun(): seq<Step<Ends>> {
    [ActOutside(0, States()[0]), Acquire(0), LockSelf(0, READERS), ReleaseLk(0),
     ActOutside(1, States()[1]), Acquire(1), Act(1, States()[2]), Act(1, States()[3]), Leave(1)]
  }

  predicate Leads(c: Client<Ends>, m: Machine<Ends>, t: Step<Ends>, m': Machine<Ends>) {
    Enabled(c, m, t) && Next(c, m, t) == m'
  }

  lemma {:induction false} Chain(c: Client<Ends>, ms: seq<Machine<Ends>>, run: seq<Step<Ends>>)
    requires |ms| == |run| + 1
    requires forall i :: 0 <= i < |run| ==> Leads(c, ms[i], run[i], ms[i + 1])
    ensures Runs(c, ms[0], run) && After(c, ms[0], run) == ms[|run|]
    decreases |run|
  {
    if run != [] {
      assert Leads(c, ms[0], run[0], ms[1]);
      forall i | 0 <= i < |run[1..]| ensures Leads(c, ms[1..][i], run[1..][i], ms[1..][i + 1]) {
        assert Leads(c, ms[i + 1], run[i + 1], ms[i + 2]);
      }
      Chain(c, ms[1..], run[1..]);
    }
  }

  // When a writer may be killed there, the readers' half of SleepersHaveReason
  // fails: the reader of an open pipe stays asleep beside a byte.
  lemma {:induction false} ReaderNotTold() returns (m: Machine<Ends>, run: seq<Step<Ends>>)
    ensures Start(ClientFor(true), m) && Runs(ClientFor(true), m, run)
    ensures var n := After(ClientFor(true), m, run);
            && n.lk == None && |n.procs| > 0 && Committed(n.procs[0], READERS)
            && n.data.pending > 0 && n.data.readopen
  {
    hide Runs, After;
    var c := ClientFor(true);
    var sleeper := Proc(SleepUnlocked(READERS), Running, 0, Self);
    var r, s := LostRun(), States();
    var m0 := Begin();
    var m1 := m0.(data := s[0]);
    var m2 := m1.(procs := [Idle().(pc := Critical), Idle()], lk := Some(0), entry := s[0]);
    var m3 := m2.(procs := [Idle().(pc := SleepLocked(READERS), lock := Self), Idle()]);
    var m4 := m3.(procs := [sleeper, Idle()], lk := None);
    var m5 := m4.(data := s[1]);
    var m6 := m5.(procs := [sleeper, Idle().(pc := Critical)], lk := Some(1), entry := s[1]);
    var m7 := m6.(data := s[2]);
    var m8 := m7.(data := s[3]);
    var m9 := m8.(procs := [sleeper, Idle()], lk := None);
    assert Leads(c, m0, r[0], m1);
    assert Leads(c, m1, r[1], m2);
    assert Leads(c, m2, r[2], m3);
    assert Leads(c, m3, r[3], m4);
    assert Leads(c, m4, r[4], m5);
    assert Leads(c, m5, r[5], m6);
    assert Leads(c, m6, r[6], m7);
    assert Leads(c, m7, r[7], m8);
    assert Leads(c, m8, r[8], m9);
    m, run := m0, r;
    hide Leads, Enabled, Next;
    Chain(c, [m0, m1, m2, m3, m4, m5, m6, m7, m8, m9], r);
  }
}
