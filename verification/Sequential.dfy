/**
 * A thread that runs a supervisor tick undisturbed performs exactly the sequential tick, whatever the
 * clock reads at each of its critical sections.
 */
module Sequential {
  import opened Types
  import opened Model
  import opened Supervision
  import opened Interleaving
  import opened Isolation

  datatype Place = Place(state: State, pc: Pc)

  function Hop(p: Place, now: Millis): Place {
    Place(Advance(p.state, p.pc, now), NextPc(p.state, p.pc, now))
  }

  /** Where a lone thread is after `n` of its sections, the k-th of which reads the clock as `at(k)`. */
  function Alone(p: Place, at: Readings, n: nat): Place {
    if n == 0 then p else Hop(Alone(p, at, n - 1), at(n - 1))
  }

  /** Three more sections: take something out, ask for supervision, handle it. */
  lemma ThreeHops(p: Place, at: Readings, n: nat)
    ensures Alone(p, at, n + 3) == Hop(Hop(Hop(Alone(p, at, n), at(n)), at(n + 1)), at(n + 2))
  {
    hide Hop;
    assert Alone(p, at, n + 1) == Hop(Alone(p, at, n), at(n));
    assert Alone(p, at, n + 2) == Hop(Alone(p, at, n + 1), at(n + 1));
  }

  /** In a history in which only one thread moves, that thread is alone. */
  lemma {:induction false} GosAreAlone(trace: seq<System>, moves: seq<Move>, thread: nat, at: Readings, n: nat)
    requires History(trace, moves) && n <= |moves| && thread in trace[0].pcs
    requires forall k | 0 <= k < n :: moves[k] == Go(thread, at(k))
    ensures thread in trace[n].pcs
    ensures Place(trace[n].state, trace[n].pcs[thread])
            == Alone(Place(trace[0].state, trace[0].pcs[thread]), at, n)
  {
    hide NextPc, Advance;
    if n > 0 {
      GosAreAlone(trace, moves, thread, at, n - 1);
      assert trace[n] == Moved(trace[n - 1], moves[n - 1]);
    }
  }

  // ---------------------------------------------------------------- the hops of a tick

  lemma Hops(s: State, now: Millis)
    requires s.supervised
    ensures Hop(Place(s, Ticking), now) == Place(s, Draining)
    ensures s.queue == [] ==> Hop(Place(s, Draining), now) == Place(s, EnteringScan)
    ensures s.queue != [] ==> Hop(Place(s, Draining), now) == Place(Get(s), Handling(s.queue[0], BackToDrain))
    ensures Hop(Place(s, EnteringScan), now) == Place(s, Sampled(now))
    ensures forall sampled :: Hop(Place(s, Sampled(sampled)), now) == Place(s, Scanning(sampled, 0))
    ensures forall r, next :: Hop(Place(s, Handling(r, next)), now) == Place(s, Admitted(r, next))
  {
    hide Handle, Get;
  }

  lemma HandleHop(s: State, r: Report, next: Next, now: Millis)
    ensures Hop(Place(s, Admitted(r, next)), now) == Place(Handle(s, r, now), After(next))
  {
    hide Handle;
  }

  lemma ScanHop(s: State, sampled: Millis, id: nat, now: Millis)
    ensures
      var n := NextOverdue(s, id, sampled);
      Hop(Place(s, Scanning(sampled, id)), now)
      == if n < |s.entities|
         then Place(s.(noticed := s.noticed + multiset{WatchdogReport(n, sampled)}),
                    Handling(WatchdogReport(n, sampled), BackToScan(sampled, n + 1)))
         else Place(s, Away)
  {
    hide Handle, Overdue;
  }

  // ---------------------------------------------------------------- the drain

  /** The drain's readings: each report is handled three sections after the one before. */
  function DrainReadings(at: Readings): Readings {
    (k: nat) => at(3 * k + 3)
  }

  lemma {:induction false} DrainAlone(s: State, k: nat, at: Readings)
    requires s.supervised && k <= |s.queue|
    ensures Alone(Place(s, Ticking), at, 3 * k + 1) == Place(Drained(s, k, DrainReadings(at)), Draining)
    ensures
      var d := Drained(s, k, DrainReadings(at));
      d.supervised && d.queue == s.queue[k..]
  {
    hide Hop, Handle, Drained;
    DrainShape(s, k, DrainReadings(at));
    if k == 0 {
      DrainEnds(s, DrainReadings(at));
      Hops(s, at(0));
      assert Alone(Place(s, Ticking), at, 0) == Place(s, Ticking);
    } else {
      hide Alone;
      var n := 3 * (k - 1) + 1;
      var d, r := Drained(s, k - 1, DrainReadings(at)), s.queue[k - 1];
      DrainAlone(s, k - 1, at);
      DrainStep(s, k - 1, DrainReadings(at));
      ThreeHops(Place(s, Ticking), at, n);
      Hops(d, at(n));
      Hops(Get(d), at(n + 1));
      HandleHop(Get(d), r, BackToDrain, at(n + 2));
    }
  }

  // ---------------------------------------------------------------- the scan

  /** Entities that are not overdue are passed over. */
  lemma {:induction false} ScanSkips(s: State, id: nat, n: nat, sampled: Millis, at: Readings)
    requires id <= n <= |s.entities| == |ScanTo(s, id, sampled, at).entities|
    requires forall i | id <= i < n :: !Overdue(ScanTo(s, id, sampled, at), i, sampled)
    ensures ScanTo(s, n, sampled, at) == ScanTo(s, id, sampled, at)
    decreases n - id
  {
    hide Overdue, HandleFailure;
    if id < n {
      ScanSkips(s, id, n - 1, sampled, at);
    }
  }

  lemma {:induction false} NextOverdueSkips(s: State, id: nat, sampled: Millis)
    ensures
      var n := NextOverdue(s, id, sampled);
      n <= |s.entities| && forall i | id <= i < n :: !Overdue(s, i, sampled)
    decreases |s.entities| - id
  {
    hide Overdue;
    if id < |s.entities| {
      NextOverdueSkips(s, id + 1, sampled);
    }
  }

  /** How many of the first `n` entities are overdue. */
  function Misses(s: State, n: nat, sampled: Millis): nat {
    if n <= MAX_ENTITIES then |OverdueReports(s, n, sampled)| else 0
  }

  lemma {:induction false} MissesSkip(s: State, id: nat, n: nat, sampled: Millis)
    requires id <= n <= |s.entities|
    requires forall i | id <= i < n :: !Overdue(s, i, sampled)
    ensures Misses(s, n, sampled) == Misses(s, id, sampled)
    decreases n - id
  {
    hide Overdue;
    if id < n {
      MissesSkip(s, id, n - 1, sampled);
    }
  }

  /** The scan's readings, from the section on at which it starts: three sections for each miss. */
  function ScanReadings(s: State, sampled: Millis, at: Readings, start: nat): Readings {
    (id: nat) => at(start + 3 * Misses(s, id, sampled) + 2)
  }

  /** Later entities are as overdue as they were when the scan started. */
  lemma ScanShape(s: State, id: nat, sampled: Millis, at: Readings)
    requires s.supervised && id <= |s.entities|
    ensures
      var t := ScanTo(s, id, sampled, at);
      && t.supervised && |t.entities| == |s.entities|
      && forall i | id <= i < |s.entities| :: Overdue(t, i, sampled) == Overdue(s, i, sampled)
  {
    hide ScanTo, Overdue;
    var t := ScanTo(s, id, sampled, at);
    ScanKeepsContract(s, id, sampled, at);
    forall i | id <= i < |s.entities| ensures Overdue(t, i, sampled) == Overdue(s, i, sampled) {
      OverdueIsLocal(s, t, i, sampled);
    }
  }

  lemma ScanOneIs(s: State, n: nat, sampled: Millis, at: Readings)
    requires n < MAX_ENTITIES && ScanTo(s, n, sampled, at).supervised
    requires Overdue(ScanTo(s, n, sampled, at), n, sampled)
    ensures
      var t, r := ScanTo(s, n, sampled, at), WatchdogReport(n, sampled);
      ScanTo(s, n + 1, sampled, at) == Handle(t.(noticed := t.noticed + multiset{r}), r, at(n))
  {
    hide Handle, Overdue;
  }

  /** A thread that scans from entity `id` on comes out at the end of the scan. */
  lemma {:induction false} ScanAlone(p: Place, at: Readings, start: nat, s: State, sampled: Millis, id: nat)
    requires s.supervised && id <= |s.entities|
    ensures
      var scan := ScanReadings(s, sampled, at, start);
      Alone(p, at, start + 3 * Misses(s, id, sampled)) == Place(ScanTo(s, id, sampled, scan), Scanning(sampled, id))
      ==> Alone(p, at, start + 3 * Misses(s, |s.entities|, sampled) + 1)
          == Place(ScanTo(s, |s.entities|, sampled, scan), Away)
    decreases |s.entities| - id
  {
    hide Hop, Handle, Overdue, ScanTo, Misses;
    var scan, n := ScanReadings(s, sampled, at, start), start + 3 * Misses(s, id, sampled);
    var t := ScanTo(s, id, sampled, scan);
    var m := NextOverdue(t, id, sampled);
    ScanShape(s, id, sampled, scan);
    NextOverdueSkips(t, id, sampled);
    ScanHop(t, sampled, id, at(n));
    ScanSkips(s, id, m, sampled, scan);
    MissesSkip(s, id, m, sampled);
    if m < |s.entities| {
      hide Alone;
      var r := WatchdogReport(m, sampled);
      var u := t.(noticed := t.noticed + multiset{r});
      ThreeHops(p, at, n);
      Hops(u, at(n + 1));
      HandleHop(u, r, BackToScan(sampled, m + 1), at(n + 2));
      ScanOneIs(s, m, sampled, scan);
      OneMoreMiss(s, m, sampled);
      ScanAlone(p, at, start, s, sampled, m + 1);
    }
  }

  lemma OneMoreMiss(s: State, m: nat, sampled: Millis)
    requires m < |s.entities| && Overdue(s, m, sampled)
    ensures Misses(s, m + 1, sampled) == Misses(s, m, sampled) + 1
  {
    hide Overdue;
  }

  // ---------------------------------------------------------------- the tick

  /** The readings of an undisturbed tick, taken from those of its sections. */
  function ClockOf(s: State, at: Readings): Clock {
    var q := |s.queue|;
    var drained := HandleAll(s.(queue := []), s.queue, DrainReadings(at));
    var sampled := at(3 * q + 2);
    Clock(DrainReadings(at), sampled, ScanReadings(drained, sampled, at, 3 * q + 4))
  }

  /** The sections of a tick: three for each queued report, three for each miss and five more. */
  function TickLength(s: State, at: Readings): nat {
    var clock := ClockOf(s, at);
    var drained := HandleAll(s.(queue := []), s.queue, clock.drain);
    3 * |s.queue| + 3 * Misses(drained, |s.entities|, clock.sampled) + 5
  }

  /** Main result: undisturbed, the sections of one supervisor tick compose to the sequential tick. */
  lemma TickAlone(s: State, at: Readings)
    requires s.supervised
    ensures Alone(Place(s, Ticking), at, TickLength(s, at)) == Place(Tick(s, ClockOf(s, at)), Away)
  {
    hide Alone, ScanTo, HandleAll, Misses, DrainReadings, ScanReadings, Tick;
    var q, clock := |s.queue|, ClockOf(s, at);
    var d := HandleAll(s.(queue := []), s.queue, clock.drain);
    TickEnds(s, clock);
    ScanStarts(s, at);
    assert clock.scan == ScanReadings(d, clock.sampled, at, 3 * q + 4);
    hide ClockOf;
    ScanNothing(d, clock.sampled, clock.scan);
    ScanAlone(Place(s, Ticking), at, 3 * q + 4, d, clock.sampled, 0);
  }

  lemma TickEnds(s: State, clock: Clock)
    requires s.supervised
    ensures
      var d := HandleAll(s.(queue := []), s.queue, clock.drain);
      && d.supervised && |d.entities| == |s.entities|
      && Tick(s, clock) == ScanTo(d, |d.entities|, clock.sampled, clock.scan)
  {
    hide HandleAll, ScanTo;
    BatchIsBounded(s.(queue := []), s.queue, clock.drain);
  }

  /** After the drain the thread sees the queue empty, samples the clock and asks for supervision. */
  lemma ScanStarts(s: State, at: Readings)
    requires s.supervised
    ensures
      var drained := HandleAll(s.(queue := []), s.queue, DrainReadings(at));
      Alone(Place(s, Ticking), at, 3 * |s.queue| + 4)
      == Place(drained, Scanning(at(3 * |s.queue| + 2), 0))
  {
    hide Hop, Alone, Handle, HandleAll, Drained, DrainReadings;
    var n, drain := 3 * |s.queue| + 1, DrainReadings(at);
    var d := Drained(s, |s.queue|, drain);
    DrainAlone(s, |s.queue|, at);
    DrainEnds(s, drain);
    ThreeHops(Place(s, Ticking), at, n);
    Hops(d, at(n));
    Hops(d, at(n + 1));
    Hops(d, at(n + 2));
  }

  /** A history in which only one thread moves, from the start of a tick on, performs the sequential tick. */
  lemma TickInHistories(trace: seq<System>, moves: seq<Move>, thread: nat, at: Readings)
    requires History(trace, moves) && thread in trace[0].pcs && trace[0].pcs[thread].Ticking?
    requires trace[0].state.supervised && forall k | 0 <= k < |moves| :: moves[k] == Go(thread, at(k))
    ensures thread in trace[|moves|].pcs
    ensures |moves| == TickLength(trace[0].state, at) ==>
              Place(trace[|moves|].state, trace[|moves|].pcs[thread])
              == Place(Tick(trace[0].state, ClockOf(trace[0].state, at)), Away)
  {
    hide Alone, Tick, ClockOf, TickLength, Moved, Enabled;
    GosAreAlone(trace, moves, thread, at, |moves|);
    TickAlone(trace[0].state, at);
  }

  lemma ScanNothing(s: State, sampled: Millis, at: Readings)
    ensures ScanTo(s, 0, sampled, at) == s && Misses(s, 0, sampled) == 0
  {
    hide ScanOne, Overdue;
  }

  // ---------------------------------------------------------------- ticks as runs

  /** Sections of a tick. */
  predicate InTick(section: Section) {
    section.Dequeue? || section.Process? || section.Notice?
  }

  ghost predicate IsTickRun(s: State, steps: seq<Step>, t: State) {
    Run(s, steps) == t && forall k | 0 <= k < |steps| :: InTick(steps[k].section)
  }

  lemma TickRunSnoc(s: State, steps: seq<Step>, t: State, step: Step)
    requires IsTickRun(s, steps, t) && InTick(step.section)
    ensures IsTickRun(s, steps + [step], Do(t, step))
  {
    hide Do, InTick, Run;
    RunSnoc(s, steps, step);
  }

  lemma {:induction false} DrainIsRun(s: State, k: nat, at: Readings) returns (steps: seq<Step>)
    requires k <= |s.queue|
    ensures IsTickRun(s, steps, Drained(s, k, at))
  {
    hide Do, Handle, Drained;
    if k == 0 {
      DrainEnds(s, at);
      steps := [];
    } else {
      hide IsTickRun;
      var d, r, now := Drained(s, k - 1, at), s.queue[k - 1], at(k - 1);
      var front := DrainIsRun(s, k - 1, at);
      DrainStep(s, k - 1, at);
      SectionIs(d, Dequeue, now);
      SectionIs(Get(d), Process(r), now);
      TickRunSnoc(s, front, d, Step(Dequeue, now));
      TickRunSnoc(s, front + [Step(Dequeue, now)], Get(d), Step(Process(r), now));
      steps := front + [Step(Dequeue, now)] + [Step(Process(r), now)];
    }
  }

  lemma {:induction false} ScanIsRun(s: State, first: seq<Step>, u: State, n: nat, sampled: Millis, at: Readings)
    returns (steps: seq<Step>)
    requires IsTickRun(s, first, u) && u.supervised && n <= |u.entities|
    ensures IsTickRun(s, steps, ScanTo(u, n, sampled, at))
  {
    hide Do, Handle, Overdue, IsTickRun;
    if n == 0 {
      steps := first;
    } else {
      var front := ScanIsRun(s, first, u, n - 1, sampled, at);
      var t, r, now := ScanTo(u, n - 1, sampled, at), WatchdogReport(n - 1, sampled), at(n - 1);
      ScanShape(u, n - 1, sampled, at);
      if Overdue(t, n - 1, sampled) {
        var noted := t.(noticed := t.noticed + multiset{r});
        SectionIs(t, Notice(r), now);
        SectionIs(noted, Process(r), now);
        TickRunSnoc(s, front, t, Step(Notice(r), now));
        TickRunSnoc(s, front + [Step(Notice(r), now)], noted, Step(Process(r), now));
        steps := front + [Step(Notice(r), now)] + [Step(Process(r), now)];
      } else {
        steps := front;
      }
    }
  }

  /** Every tick, at any clock, is a run of sections that dequeue, process and note misses. */
  lemma TickIsRun(s: State, clock: Clock) returns (steps: seq<Step>)
    ensures Run(s, steps) == Tick(s, clock)
    ensures forall k | 0 <= k < |steps| :: InTick(steps[k].section)
  {
    hide Do, HandleAll, ScanTo;
    if s.supervised {
      var d := Drained(s, |s.queue|, clock.drain);
      DrainEnds(s, clock.drain);
      DrainShape(s, |s.queue|, clock.drain);
      var first := DrainIsRun(s, |s.queue|, clock.drain);
      steps := ScanIsRun(s, first, d, |d.entities|, clock.sampled, clock.scan);
    } else {
      steps := [];
    }
  }

  /** So a failed entity leaves a whole tick failed, or the log tells of its restart. */
  lemma IsolationAcrossTick(s: State, clock: Clock, id: Byte)
    requires s.supervised && IsFailed(s, id)
    ensures
      var t := Tick(s, clock);
      && s.log <= t.log
      && (Restarted(t.log, |s.log|, id)
          || (t.supervised && IsFailed(t, id) && !EntityMayRun(t, id) && !WorkerMayRun(t, id)))
  {
    hide Run, Restarted, Tick;
    var steps := TickIsRun(s, clock);
    forall k | 0 <= k < |steps| ensures Spares(steps[k].section, id) {
      assert InTick(steps[k].section);
    }
    IsolationPersists(s, steps, id);
  }
}
