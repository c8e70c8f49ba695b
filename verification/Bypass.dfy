/**
 * The supervision bypass among interleaving threads: what still happens while supervision is off, and
 * which faults the switch-off leaves to nobody.
 */
module Bypass {
  import opened Types
  import opened Model
  import opened Frames
  import opened Partition
  import opened Interleaving
  import opened Limits

  // ---------------------------------------------------------------- what still happens

  /** The thread has found supervision on and goes on to queue or handle its report. */
  predicate Armed(pc: Pc) {
    pc.Admitted? || pc.Accepted?
  }

  predicate Unarmed(sys: System) {
    forall thread | thread in sys.pcs :: !Armed(sys.pcs[thread])
  }

  predicate Off(sys: System) {
    !sys.state.supervised && Unarmed(sys)
  }

  predicate StaysOff(move: Move) {
    move.Atomically? ==> move.step.section != Supervise(true)
  }

  /** Nothing was queued or handled, and no restart was called; the queue may have been drained. */
  ghost predicate Inhibited(s: State, t: State) {
    && t.handled == s.handled && t.accepted == s.accepted
    && |s.entities| <= |t.entities|
    && (forall i | 0 <= i < |s.entities| ::
          && t.entities[i].slot == s.entities[i].slot
          && t.entities[i].vitals.latch == s.entities[i].vitals.latch)
    && |t.queue| <= |s.queue| && t.queue == s.queue[|s.queue| - |t.queue|..]
  }

  lemma InhibitedOn(s: State, t: State, u: State)
    requires Inhibited(s, t) && Inhibited(t, u)
    ensures Inhibited(s, u)
  {
    var n, m := |s.queue| - |t.queue|, |t.queue| - |u.queue|;
    assert s.queue[n..][m..] == s.queue[n + m..];
  }

  lemma EntityCallInhibited(s: State, step: AtomicStep)
    requires !s.supervised && TouchesEntities(step.section)
    ensures Inhibited(s, Do(s, step)) && !Do(s, step).supervised
    ensures Do(s, step).queue == s.queue && Do(s, step).noticed == s.noticed
  {
    hide Handle;
  }

  lemma OtherCallInhibited(s: State, step: AtomicStep)
    requires !s.supervised && !TouchesEntities(step.section) && step.section != Supervise(true)
    ensures
      var t := Do(s, step);
      (t.handled, t.accepted, t.noticed, t.queue, t.supervised) == (s.handled, s.accepted, s.noticed, s.queue, false)
  {
    hide Handle, PlainEvent, SubsystemEvent, NotedEvent, CriticalDown, Marked, RegisterEntity, ReportFault,
         Heartbeat, SetHealth, ResetHealth, Put, Get;
  }

  /** No single call but the one that re-enables supervision has an effect on queue, latches or restarts. */
  lemma CallInhibited(s: State, step: AtomicStep)
    requires !s.supervised && step.section != Supervise(true)
    ensures Inhibited(s, Do(s, step)) && !Do(s, step).supervised
    ensures Do(s, step).queue == s.queue && Do(s, step).noticed == s.noticed
  {
    hide Do;
    if TouchesEntities(step.section) {
      EntityCallInhibited(s, step);
    } else {
      OtherCallInhibited(s, step);
      EntitiesUntouched(s, step);
    }
  }

  lemma GoInhibited(s: State, pc: Pc, now: Millis)
    requires !s.supervised && !Armed(pc)
    ensures Inhibited(s, Advance(s, pc, now)) && !Advance(s, pc, now).supervised
  {
    hide Handle, Put, Advance, NextOverdue;
    AdvanceIs(s, pc, now);
  }

  lemma GoStaysUnarmed(s: State, pc: Pc, now: Millis)
    requires !s.supervised
    ensures !Armed(NextPc(s, pc, now))
  {
    hide NextOverdue;
  }

  lemma MoveInhibited(sys: System, move: Move)
    requires Off(sys) && Enabled(sys, move) && StaysOff(move)
    ensures Off(Moved(sys, move)) && Inhibited(sys.state, Moved(sys, move).state)
  {
    hide Do, NextPc, Advance, Inhibited, Armed;
    match move
    case Go(thread, now) =>
      GoInhibited(sys.state, sys.pcs[thread], now);
      GoStaysUnarmed(sys.state, sys.pcs[thread], now);
    case Enter(_, pc) =>
      EntriesAreUnarmed(pc);
      NothingInhibited(sys.state);
    case Atomically(step) => CallInhibited(sys.state, step);
  }

  lemma EntriesAreUnarmed(pc: Pc)
    ensures IsEntry(pc) ==> !Armed(pc)
  {
  }

  lemma NothingInhibited(s: State)
    ensures Inhibited(s, s)
  {
  }

  /**
   * While supervision is off and no thread was caught between its look at the switch and its section,
   * no interleaving queues or handles anything, until supervision is switched on again.
   */
  lemma {:induction false} OffInHistories(trace: seq<System>, moves: seq<Move>, n: nat)
    requires History(trace, moves) && Off(trace[0]) && n <= |moves|
    requires forall k | 0 <= k < |moves| :: StaysOff(moves[k])
    ensures Off(trace[n]) && Inhibited(trace[0].state, trace[n].state)
  {
    hide Off, Moved, Enabled, StaysOff, Inhibited;
    if n == 0 {
      NothingInhibited(trace[0].state);
    } else {
      OffInHistories(trace, moves, n - 1);
      MoveInhibited(trace[n - 1], moves[n - 1]);
      assert trace[n] == Moved(trace[n - 1], moves[n - 1]);
      InhibitedOn(trace[0].state, trace[n - 1].state, trace[n].state);
    }
  }

  /** The move queues a submitted report or handles one. */
  predicate Acts(sys: System, move: Move)
    requires Enabled(sys, move)
  {
    var step := SectionOf(sys, move);
    step.Some? && (step.value.section.Enqueue? || step.value.section.Process?)
  }

  /** No history that leaves supervision off queues or handles anything. */
  ghost predicate Inert(sys: System) {
    forall trace, moves | History(trace, moves) && trace[0] == sys && (forall move | move in moves :: StaysOff(move)) ::
      forall k | 0 <= k < |moves| :: !Acts(trace[k], moves[k])
  }

  lemma ActsIsArmed(sys: System, move: Move)
    requires Enabled(sys, move)
    ensures Acts(sys, move) <==> move.Go? && Armed(sys.pcs[move.thread])
  {
    hide NextOverdue;
  }

  /** Main result: the bypass does what its documentation says if and only if no thread was armed. */
  lemma BypassIsExact(sys: System)
    requires !sys.state.supervised
    ensures Inert(sys) <==> Unarmed(sys)
  {
    hide Moved, Acts, Armed, StaysOff;
    if Unarmed(sys) {
      forall trace, moves | History(trace, moves) && trace[0] == sys && (forall move | move in moves :: StaysOff(move))
        ensures forall k | 0 <= k < |moves| :: !Acts(trace[k], moves[k])
      {
        forall k | 0 <= k < |moves| ensures !Acts(trace[k], moves[k]) {
          OffInHistories(trace, moves, k);
          ActsIsArmed(trace[k], moves[k]);
        }
      }
    } else {
      var thread :| thread in sys.pcs && Armed(sys.pcs[thread]);
      var move := Go(thread, 0);
      var trace, moves := [sys, Moved(sys, move)], [move];
      assert StaysOff(move) by { GoStaysOff(thread); }
      ActsIsArmed(sys, move);
      assert History(trace, moves) && trace[0] == sys && Acts(trace[0], moves[0]);
    }
  }

  lemma GoStaysOff(thread: nat)
    ensures StaysOff(Go(thread, 0))
  {
  }

  // ---------------------------------------------------------------- threads that find it off

  /** The thread looks at the switch before it does anything to the queue. */
  predicate Outside(pc: Pc) {
    || pc.Away? || pc.Ticking? || pc.EnteringScan? || pc.Sampled? || pc.Submitting?
    || (pc.Handling? && pc.next.Leave?)
  }

  ghost predicate Still(s: State, t: State) {
    (t.queue, t.noticed, t.accepted, t.handled) == (s.queue, s.noticed, s.accepted, s.handled)
  }

  ghost predicate AllOutside(sys: System) {
    !sys.state.supervised && forall thread | thread in sys.pcs :: Outside(sys.pcs[thread])
  }

  lemma GoIsStill(s: State, pc: Pc, now: Millis)
    requires !s.supervised && Outside(pc)
    ensures Advance(s, pc, now) == s && Outside(NextPc(s, pc, now))
  {
    hide Advance;
    AdvanceIs(s, pc, now);
  }

  lemma MoveIsStill(sys: System, move: Move)
    requires AllOutside(sys) && Enabled(sys, move) && StaysOff(move)
    ensures AllOutside(Moved(sys, move)) && Still(sys.state, Moved(sys, move).state)
  {
    hide Do, NextPc, Advance;
    match move
    case Go(thread, now) => GoIsStill(sys.state, sys.pcs[thread], now);
    case Enter(_, _) =>
    case Atomically(step) => CallInhibited(sys.state, step);
  }

  /** Ticks, scans, submissions and direct handling that find supervision off do nothing at all. */
  lemma {:induction false} OffIsStill(trace: seq<System>, moves: seq<Move>, n: nat)
    requires History(trace, moves) && AllOutside(trace[0]) && n <= |moves|
    requires forall k | 0 <= k < |moves| :: StaysOff(moves[k])
    ensures AllOutside(trace[n]) && Still(trace[0].state, trace[n].state)
  {
    hide AllOutside, Moved, Enabled, StaysOff;
    if n > 0 {
      OffIsStill(trace, moves, n - 1);
      MoveIsStill(trace[n - 1], moves[n - 1]);
      assert trace[n] == Moved(trace[n - 1], moves[n - 1]);
    }
  }

  // ---------------------------------------------------------------- armed threads

  const BYPASS: Section := Supervise(false)

  /**
   * A report admitted just before the switch-off is queued after it, and stays: switching off what is
   * off already does not empty the queue.
   */
  lemma LateSubmission(trace: seq<System>, moves: seq<Move>, thread: nat)
    requires History(trace, moves) && |moves| == 3
    requires trace[0].state.supervised && thread in trace[0].pcs && trace[0].pcs[thread].Accepted?
    requires moves[0].Atomically? && moves[0].step.section == BYPASS
    requires moves[1].Go? && moves[1].thread == thread
    requires moves[2].Atomically? && moves[2].step.section == BYPASS
    ensures
      var r, t := trace[0].pcs[thread].r, trace[3].state;
      !t.supervised && t.queue == [r] && t.accepted == trace[0].state.accepted + multiset{r}
  {
    hide Handle;
    assert trace[1] == Moved(trace[0], moves[0]);
    assert trace[1].state.queue == [] && trace[1].pcs[thread] == trace[0].pcs[thread];
    assert trace[2] == Moved(trace[1], moves[1]);
    assert trace[3] == Moved(trace[2], moves[2]);
  }

  /** A report found admissible just before the switch-off is handled after it. */
  lemma LateHandling(trace: seq<System>, moves: seq<Move>, thread: nat)
    requires History(trace, moves) && |moves| == 2
    requires trace[0].state.supervised && thread in trace[0].pcs && trace[0].pcs[thread].Admitted?
    requires moves[0].Atomically? && moves[0].step.section == BYPASS
    requires moves[1].Go? && moves[1].thread == thread
    ensures
      var s, r, t := trace[0].state, trace[0].pcs[thread].r, trace[2].state;
      && !t.supervised
      && (t.handled == s.handled + multiset{r} <==> !IsLatched(s, r.entity, r.reason))
  {
    hide Handle;
    var r := trace[0].pcs[thread].r;
    assert trace[1] == Moved(trace[0], moves[0]);
    assert trace[2] == Moved(trace[1], moves[1]);
    HandleIsBounded(trace[1].state, r, moves[1].now);
    assert multiset{r}[r] == 1;
  }

  /** Such a history exists for every configuration and report. */
  lemma SomeSubmissionIsLate(cfg: Config, r: Report) returns (trace: seq<System>, moves: seq<Move>)
    ensures History(trace, moves) && trace[0] == System(Initial(cfg), map[])
    ensures !trace[|moves|].state.supervised && trace[|moves|].state.queue == [r]
  {
    var sys := System(Initial(cfg), map[]);
    var first := [Enter(0, Submitting(r)), Go(0, 0)];
    var front := SubmitMoves(sys, r);
    assert front[2].state.supervised;
    var back, later := BypassMoves(front[2]);
    hide History;
    LateSubmission(back, later, 0);
    HistoriesJoin(front, first, back, later);
    trace, moves := front + back[1..], first + later;
  }

  lemma SubmitMoves(sys: System, r: Report) returns (trace: seq<System>)
    requires sys.state.supervised && sys.pcs == map[]
    ensures |trace| == 3 && History(trace, [Enter(0, Submitting(r)), Go(0, 0)])
    ensures trace[0] == sys && trace[2] == sys.(pcs := map[0 := Accepted(r)])
  {
    hide Advance;
    AdvanceIs(sys.state, Submitting(r), 0);
    trace := [sys, sys.(pcs := map[0 := Submitting(r)]), sys.(pcs := map[0 := Accepted(r)])];
  }

  lemma BypassMoves(sys: System) returns (trace: seq<System>, moves: seq<Move>)
    requires 0 in sys.pcs
    ensures moves == [Atomically(Step(BYPASS, 0)), Go(0, 0), Atomically(Step(BYPASS, 0))]
    ensures History(trace, moves) && trace[0] == sys
  {
    moves := [Atomically(Step(BYPASS, 0)), Go(0, 0), Atomically(Step(BYPASS, 0))];
    MovedKeepsThreads(sys, moves[0]);
    hide Moved;
    var b := Moved(sys, moves[0]);
    var c := Moved(b, moves[1]);
    trace := [sys, b, c, Moved(c, moves[2])];
  }

  lemma MovedKeepsThreads(sys: System, move: Move)
    requires Enabled(sys, move)
    ensures sys.pcs.Keys <= Moved(sys, move).pcs.Keys
  {
    hide Do, NextPc, Advance;
  }

  // ---------------------------------------------------------------- faults left to nobody

  predicate OnHand(pc: Pc, id: nat) {
    pc.Handling? && pc.r.entity == id
  }

  /** The thread will handle a report on the entity; one that has yet to look at the switch may not. */
  predicate WillHandle(s: State, pc: Pc, id: nat) {
    (pc.Admitted? && pc.r.entity == id) || (s.supervised && OnHand(pc, id))
  }

  /** Failed, and neither latched nor queued nor about to be handled. */
  predicate Abandoned(sys: System, id: nat)
    requires id < |sys.state.entities|
  {
    Stranded(sys.state, id) && forall thread | thread in sys.pcs :: !WillHandle(sys.state, sys.pcs[thread], id)
  }

  /** The switch-off abandons exactly the unlatched faults that no thread has admitted, queued or in hand. */
  lemma BypassAbandons(sys: System, id: Byte, now: Millis)
    requires sys.state.supervised && id < |sys.state.entities|
    ensures
      var s, t := sys.state, Moved(sys, Atomically(Step(BYPASS, now)));
      && |t.state.entities| == |s.entities|
      && (Abandoned(t, id) <==>
            && IsFailed(s, id) && s.entities[id].vitals.latch.None?
            && forall thread | thread in sys.pcs :: !(sys.pcs[thread].Admitted? && sys.pcs[thread].r.entity == id))
  {
    hide Handle, NotedEvent;
    var t := Moved(sys, Atomically(Step(BYPASS, now)));
    assert t.state.queue == [] && !t.state.supervised && t.pcs == sys.pcs;
  }

  /** What saves an abandoned fault. */
  predicate Saves(sys: System, move: Move, id: Byte) {
    match move
    case Go(thread, _) =>
      && thread in sys.pcs && sys.pcs[thread].Accepted? && sys.pcs[thread].r.entity == id
      && |sys.state.queue| < sys.state.cfg.queueCap
    case Enter(_, pc) => sys.state.supervised && OnHand(pc, id)
    case Atomically(step) =>
      || Frees(sys.state, Single(step), id)
      || (step.section == Supervise(true) && exists thread | thread in sys.pcs :: OnHand(sys.pcs[thread], id))
  }

  lemma SwitchIs(s: State, step: AtomicStep)
    ensures Do(s, step).supervised == if step.section.Supervise? then step.section.enabled else s.supervised
  {
    if step.section.Supervise? {
      hide Handle, NotedEvent;
    } else {
      hide Handle, PlainEvent, SubsystemEvent, NotedEvent, CriticalDown, Marked, FreshVitals, SetSupervision;
    }
  }

  lemma CallSaves(sys: System, step: AtomicStep, id: Byte)
    requires id < |sys.state.entities| && Abandoned(sys, id)
    ensures id < |Do(sys.state, step).entities|
    ensures Abandoned(Moved(sys, Atomically(step)), id) <==> !Saves(sys, Atomically(step), id)
  {
    hide Do, Stranded, Frees;
    SingleFrees(sys.state, step, id);
    SwitchIs(sys.state, step);
    var t := Moved(sys, Atomically(step));
    assert t.pcs == sys.pcs;
    if Saves(sys, Atomically(step), id) && !Frees(sys.state, Single(step), id) {
      var thread :| thread in sys.pcs && OnHand(sys.pcs[thread], id);
      assert WillHandle(t.state, t.pcs[thread], id);
    } else if !Saves(sys, Atomically(step), id) {
      forall thread | thread in sys.pcs ensures !WillHandle(t.state, sys.pcs[thread], id) {
        assert !WillHandle(sys.state, sys.pcs[thread], id);
      }
    }
  }

  /** A thread's own section leaves the entity stranded unless it queues an accepted report on it. */
  lemma GoKeepsStranded(s: State, pc: Pc, now: Millis, id: Byte)
    requires id < |s.entities| && Stranded(s, id) && !WillHandle(s, pc, id)
    ensures id < |Advance(s, pc, now).entities| && Advance(s, pc, now).supervised == s.supervised
    ensures Stranded(Advance(s, pc, now), id)
            <==> !(pc.Accepted? && pc.r.entity == id && |s.queue| < s.cfg.queueCap)
    ensures !WillHandle(s, NextPc(s, pc, now), id)
  {
    hide Handle, Advance;
    AdvanceIs(s, pc, now);
    if pc.Admitted? {
      HandleIsBounded(s, pc.r, now);
      assert Queued(Handle(s, pc.r, now), id) == Queued(s, id);
    } else if pc.Accepted? {
      var t := Put(s, pc.r);
      if |s.queue| < s.cfg.queueCap {
        assert t.queue[|s.queue|] == pc.r;
        if pc.r.entity != id {
          QueuedGrows(s, t, pc.r, id);
        }
      } else {
        assert Queued(t, id) == Queued(s, id);
      }
    } else if pc.Draining? {
      TakenIsAnother(s, id);
    } else {
      assert Queued(Advance(s, pc, now), id) == Queued(s, id);
    }
  }

  lemma TakenIsAnother(s: State, id: Byte)
    requires !Queued(s, id)
    ensures !Queued(Get(s), id) && (s.queue != [] ==> s.queue[0].entity != id)
  {
    if s.queue != [] {
      assert Get(s).queue == s.queue[1..];
    }
  }

  lemma MoveSaves(sys: System, move: Move, id: Byte)
    requires Enabled(sys, move) && id < |sys.state.entities| && Abandoned(sys, id)
    ensures id < |Moved(sys, move).state.entities|
    ensures Abandoned(Moved(sys, move), id) <==> !Saves(sys, move, id)
  {
    hide Do, Stranded, Frees, Advance, NextPc;
    var t := Moved(sys, move);
    match move
    case Atomically(step) => CallSaves(sys, step, id);
    case Enter(thread, pc) =>
      assert WillHandle(sys.state, pc, id) <==> Saves(sys, move, id);
      if !Saves(sys, move, id) {
        OthersWaitOn(sys, thread, pc, sys.state, id);
      } else {
        assert WillHandle(t.state, t.pcs[thread], id);
      }
    case Go(thread, now) =>
      GoKeepsStranded(sys.state, sys.pcs[thread], now, id);
      OthersWaitOn(sys, thread, NextPc(sys.state, sys.pcs[thread], now), t.state, id);
  }

  lemma OthersWaitOn(sys: System, thread: nat, pc: Pc, t: State, id: nat)
    requires forall other | other in sys.pcs :: !WillHandle(sys.state, sys.pcs[other], id)
    requires !WillHandle(sys.state, pc, id) && t.supervised == sys.state.supervised
    ensures
      var after := sys.pcs[thread := pc];
      forall other | other in after :: !WillHandle(t, after[other], id)
  {
  }

  ghost predicate StaysAbandoned(trace: seq<System>, id: Byte) {
    forall k | 0 <= k < |trace| :: id < |trace[k].state.entities| && Abandoned(trace[k], id)
  }

  lemma {:induction false} AbandonedSoFar(trace: seq<System>, moves: seq<Move>, n: nat, id: Byte)
    requires History(trace, moves) && n <= |moves| && id < |trace[0].state.entities| && Abandoned(trace[0], id)
    requires forall k | 0 <= k < n :: !Saves(trace[k], moves[k], id)
    ensures id < |trace[n].state.entities| && Abandoned(trace[n], id)
  {
    hide Abandoned, Saves, Moved, Enabled;
    if n > 0 {
      AbandonedSoFar(trace, moves, n - 1, id);
      MoveSaves(trace[n - 1], moves[n - 1], id);
      assert trace[n] == Moved(trace[n - 1], moves[n - 1]);
    }
  }

  /**
   * Main result: in every interleaving an abandoned fault stays abandoned if and only if no move saves
   * it. Ticks, scans, heartbeats and new faults never do.
   */
  lemma AbandonedForever(trace: seq<System>, moves: seq<Move>, id: Byte)
    requires History(trace, moves) && id < |trace[0].state.entities| && Abandoned(trace[0], id)
    ensures StaysAbandoned(trace, id) <==> forall k | 0 <= k < |moves| :: !Saves(trace[k], moves[k], id)
  {
    hide Abandoned, Saves, Moved, Enabled;
    if StaysAbandoned(trace, id) {
      forall k | 0 <= k < |moves| ensures !Saves(trace[k], moves[k], id) {
        MoveSaves(trace[k], moves[k], id);
        assert trace[k + 1] == Moved(trace[k], moves[k]);
      }
    }
    if forall k | 0 <= k < |moves| :: !Saves(trace[k], moves[k], id) {
      forall k | 0 <= k < |trace| ensures id < |trace[k].state.entities| && Abandoned(trace[k], id) {
        AbandonedSoFar(trace, moves, k, id);
      }
    }
  }
}
