/**
 * One supervisor thread among workers, ground and heartbeats: what the windows in which it does not
 * hold the lock can do, and that they can do nothing else.
 */
module Races {
  import opened Types
  import opened Model
  import opened Frames
  import opened Confluence
  import opened Supervision
  import opened Partition
  import opened Interleaving
  import opened NoLoss
  import opened Sequential
  import opened Watchdog

  // ---------------------------------------------------------------- the partition with a hand

  predicate HasReport(pc: Pc) {
    pc.Handling? || pc.Admitted?
  }

  /** The supervisor holds a watchdog fault that its scan has raised. */
  predicate FromScan(pc: Pc) {
    HasReport(pc) && pc.next.BackToScan?
  }

  function Hand(pc: Pc): multiset<Report> {
    if HasReport(pc) then multiset{pc.r} else multiset{}
  }

  /**
   * An entity is idle, pending or settled, or its report is in the supervisor's hand: out of the queue
   * and still failed, or raised by the scan and not failed yet.
   */
  predicate Seated(s: State, pc: Pc, id: nat)
    requires id < |s.entities|
  {
    if Holds(pc, id)
    then s.entities[id].vitals.latch.None? && !Queued(s, id) && (IsFailed(s, id) <==> !FromScan(pc))
    else Placed(s, id)
  }

  predicate Seating(s: State, pc: Pc) {
    && s.supervised && !pc.Submitting? && !pc.Accepted?
    && (HasReport(pc) ==> !pc.next.Leave? && pc.r.entity < |s.entities|)
    && (forall id | 0 <= id < |s.entities| :: Seated(s, pc, id))
    && Apart(s.queue)
    && (forall k | 0 <= k < |s.queue| :: s.queue[k].entity < |s.entities|)
    && s.handled + multiset(s.queue) + Hand(pc) == s.accepted + s.noticed
  }

  /** Only the supervisor is inside an entry point, and everything is in its place. */
  predicate Disciplined(sys: System, sup: nat) {
    && sup in sys.pcs && Seating(sys.state, sys.pcs[sup])
    && forall thread | thread in sys.pcs && thread != sup :: sys.pcs[thread].Away?
  }

  /** The supervisor ticks or scans; the calls of others are orderly. */
  predicate Regular(sys: System, move: Move, sup: nat) {
    match move
    case Go(_, _) => true
    case Enter(thread, pc) => thread == sup && (pc.Ticking? || pc.EnteringScan?)
    case Atomically(step) => Orderly(sys.state, Single(step))
  }

  /** A worker's fault, with room in the queue, on the entity whose watchdog fault is in hand. */
  predicate Races(s: State, pc: Pc, section: Section) {
    section.Fault? && FromScan(pc) && pc.r.entity == section.id && |s.queue| < s.cfg.queueCap
  }

  predicate Escapes(sys: System, move: Move, sup: nat)
    requires sup in sys.pcs
  {
    move.Atomically? && Races(sys.state, sys.pcs[sup], move.step.section)
  }

  // ---------------------------------------------------------------- calls

  /** What the seating is about; new entities start idle. */
  ghost predicate SameSeats(s: State, t: State) {
    && (t.queue, t.supervised, t.accepted, t.noticed, t.handled)
       == (s.queue, s.supervised, s.accepted, s.noticed, s.handled)
    && |s.entities| <= |t.entities|
    && (forall i | 0 <= i < |t.entities| ::
          var v := t.entities[i].vitals;
          if i < |s.entities|
          then v.health.HealthFailed? == s.entities[i].vitals.health.HealthFailed? && v.latch == s.entities[i].vitals.latch
          else !v.health.HealthFailed? && v.latch.None?)
  }

  lemma SeatKept(s: State, t: State, pc: Pc, i: nat)
    requires SameSeats(s, t) && i < |s.entities|
    ensures Seated(t, pc, i) == Seated(s, pc, i)
  {
    assert Queued(t, i) == Queued(s, i);
    hide Queued;
  }

  lemma SameSeatsKeep(s: State, t: State, pc: Pc)
    requires Seating(s, pc) && SameSeats(s, t)
    ensures Seating(t, pc)
  {
    forall i | 0 <= i < |t.entities| ensures Seated(t, pc, i) {
      if i < |s.entities| {
        SeatKept(s, t, pc, i);
      } else {
        assert !Queued(t, i);
        assert Idle(t, i);
      }
    }
  }

  lemma SamePartsSeat(s: State, t: State, pc: Pc)
    requires Seating(s, pc) && SameParts(s, t)
    ensures Seating(t, pc)
  {
    hide Seating;
    SameSeatsKeep(s, t, pc);
  }

  /** The reported entity is failed with its report queued; nobody else's seat changes. */
  lemma AcceptedSeat(s: State, t: State, pc: Pc, id: Byte, r: Report, i: nat)
    requires Apart(s.queue) && t.queue == s.queue + [r] && r.entity == id && id < |s.entities| == |t.entities|
    requires i < |s.entities| && Seated(s, pc, i) && !IsFailed(s, id)
    requires t.entities[id].vitals.latch == s.entities[id].vitals.latch && IsFailed(t, id)
    requires i != id ==> t.entities[i] == s.entities[i]
    ensures Seated(t, pc, i) <==> !(i == id && Holds(pc, id))
  {
    if i == id {
      assert t.queue[|s.queue|] == r;
      assert Queued(t, id);
    } else {
      QueuedGrows(s, t, r, i);
    }
    hide Queued;
  }

  /** The worker's report was queued and its entity marked failed. */
  ghost predicate Accepts(s: State, t: State, id: Byte, r: Report) {
    && id < |s.entities| == |t.entities| && !IsFailed(s, id) && r.entity == id
    && t.queue == s.queue + [r] && t.accepted == s.accepted + multiset{r}
    && (t.supervised, t.noticed, t.handled) == (s.supervised, s.noticed, s.handled)
    && IsFailed(t, id) && t.entities[id].vitals.latch == s.entities[id].vitals.latch
    && forall i | 0 <= i < |s.entities| && i != id :: t.entities[i] == s.entities[i]
  }

  lemma AcceptedSeats(s: State, t: State, pc: Pc, id: Byte, r: Report)
    requires Seating(s, pc) && Accepts(s, t, id, r)
    ensures Seating(t, pc) <==> !Holds(pc, id)
  {
    assert Seated(s, pc, id);
    if Holds(pc, id) {
      AcceptedSeat(s, t, pc, id, r, id);
      assert !Seated(t, pc, id);
    } else {
      assert !Queued(s, id);
      forall i | 0 <= i < |t.entities| ensures Seated(t, pc, i) {
        AcceptedSeat(s, t, pc, id, r, i);
      }
      hide Seated, Holds, IsFailed, Queued;
      NewOwnerIsApart(s, r);
      LedgerGrows(s, t, pc, r);
    }
  }

  lemma LedgerGrows(s: State, t: State, pc: Pc, r: Report)
    requires s.handled + multiset(s.queue) + Hand(pc) == s.accepted + s.noticed
    requires t.queue == s.queue + [r] && t.handled == s.handled
    requires t.noticed == s.noticed && t.accepted == s.accepted + multiset{r}
    ensures t.handled + multiset(t.queue) + Hand(pc) == t.accepted + t.noticed
  {
    hide Hand;
    assert multiset(t.queue) == multiset(s.queue) + multiset{r};
    assert t.handled + multiset(t.queue) + Hand(pc) == s.handled + multiset(s.queue) + Hand(pc) + multiset{r};
  }

  lemma NewOwnerIsApart(s: State, r: Report)
    requires Apart(s.queue) && !Queued(s, r.entity)
    ensures Apart(s.queue + [r])
  {
  }

  lemma FaultSeats(s: State, pc: Pc, f: Section, now: Millis)
    requires Seating(s, pc) && f.Fault? && f.id < |s.entities|
    ensures Seating(ReportFault(s, f.id, f.reason, f.errorCode, f.detail, f.flags, now), pc) <==> !Races(s, pc, f)
  {
    hide Seating;
    SeatingFacts(s, pc, f.id);
    var r := Report(f.id, f.reason, f.errorCode, f.detail, now, f.flags);
    if Admits(s, f.id, f.reason) {
      if |s.queue| < s.cfg.queueCap {
        AcceptedSeats(s, ReportFault(s, f.id, f.reason, f.errorCode, f.detail, f.flags, now), pc, f.id, r);
      } else {
        SamePartsSeat(s, Put(s, r), pc);
      }
    }
  }

  /** An entity that has not failed has no latch either. */
  lemma SeatingFacts(s: State, pc: Pc, id: nat)
    requires Seating(s, pc) && id < |s.entities|
    ensures s.supervised
    ensures !IsFailed(s, id) ==> s.entities[id].vitals.latch.None?
    ensures FromScan(pc) && pc.r.entity == id ==> !IsFailed(s, id)
    ensures Holds(pc, id) && !IsFailed(s, id) ==> FromScan(pc)
  {
    assert Seated(s, pc, id);
  }

  lemma RegisterSeats(s: State, pc: Pc, desc: EntityDesc, now: Millis)
    requires Seating(s, pc)
    ensures Seating(RegisterEntity(s, desc, now), pc)
  {
    hide Seating;
    SameSeatsKeep(s, RegisterEntity(s, desc, now), pc);
  }

  lemma BeatSeats(s: State, pc: Pc, id: Byte, now: Millis)
    requires Seating(s, pc)
    ensures Seating(Heartbeat(s, id, now), pc)
  {
    hide Seating;
    SameSeatsKeep(s, Heartbeat(s, id, now), pc);
  }

  /** An orderly call keeps everything in its place unless it races with the scan. */
  lemma CallSeats(s: State, pc: Pc, step: AtomicStep)
    requires Seating(s, pc) && Orderly(s, Single(step))
    ensures Seating(Do(s, step), pc) <==> !Races(s, pc, step.section)
  {
    hide Seating, Handle, RegisterEntity, ReportFault, Heartbeat, SetMode, EnterDegraded, EnterSafe, TryReboot,
         EvaluateDualPath, MarkByHand, SetSupervision, SameParts;
    SeatingBasics(s, pc);
    match step.section
    case AddEntity(desc) => RegisterSeats(s, pc, desc, step.now);
    case Fault(_, _, _, _, _) => FaultSeats(s, pc, step.section, step.now);
    case Beat(id) => BeatSeats(s, pc, id, step.now);
    case _ =>
      OthersKeepParts(s, step);
      SamePartsSeat(s, Do(s, step), pc);
  }

  // ---------------------------------------------------------------- the supervisor's own sections

  /** The oldest report moves from the queue into the hand. */
  lemma TakeSeats(s: State)
    requires Seating(s, Draining) && s.queue != []
    ensures Seating(Get(s), Handling(s.queue[0], BackToDrain))
  {
    var t, r := Get(s), s.queue[0];
    var pc := Handling(r, BackToDrain);
    forall i | 0 <= i < |t.entities| ensures Seated(t, pc, i) {
      assert Seated(s, Draining, i);
      QueuedShrinks(s, t, i);
      if r.entity == i {
        assert Queued(s, i);
      }
    }
    assert s.queue == [r] + t.queue;
    assert multiset(s.queue) == multiset{r} + multiset(t.queue);
    assert t.handled + multiset(t.queue) + Hand(pc) == s.handled + multiset(s.queue) + Hand(Draining);
  }

  /** A report in hand is never suppressed, and settles its entity or leaves it idle. */
  lemma HandSeats(s: State, pc: Pc, now: Millis)
    requires Seating(s, pc) && pc.Admitted?
    ensures Seating(Handle(s, pc.r, now), After(pc.next)) && !IsLatched(s, pc.r.entity, pc.r.reason)
  {
    hide Handle, FreshVitals;
    var r, t := pc.r, Handle(s, pc.r, now);
    assert Seated(s, pc, r.entity);
    HandleIsBounded(s, r, now);
    HandlingOutcome(s, r, now);
    FreshIsOk(now);
    forall i | 0 <= i < |t.entities| ensures Seated(t, After(pc.next), i) {
      assert Seated(s, pc, i);
      HandledSeat(s, t, pc, i);
    }
    hide Seated;
    assert t.handled + multiset(t.queue) + Hand(After(pc.next)) == s.handled + multiset(s.queue) + Hand(pc);
  }

  lemma HandledSeat(s: State, t: State, pc: Pc, i: nat)
    requires i < |s.entities| == |t.entities| && Seated(s, pc, i) && t.queue == s.queue && pc.Admitted?
    requires !Holds(pc, i) ==> t.entities[i] == s.entities[i]
    requires Holds(pc, i) ==> IsFailed(t, i) == t.entities[i].vitals.latch.Some?
    ensures Seated(t, After(pc.next), i)
  {
    assert Queued(t, i) == Queued(s, i);
    hide Queued;
  }

  /** The scan raises its fault on an idle entity only. */
  lemma MissSeats(s: State, pc: Pc, n: Byte)
    requires Seating(s, pc) && pc.Scanning? && n < |s.entities| && Overdue(s, n, pc.sampled)
    ensures
      var w := WatchdogReport(n, pc.sampled);
      Seating(s.(noticed := s.noticed + multiset{w}), Handling(w, BackToScan(pc.sampled, n + 1)))
  {
    var w := WatchdogReport(n, pc.sampled);
    var t, next := s.(noticed := s.noticed + multiset{w}), Handling(w, BackToScan(pc.sampled, n + 1));
    forall i | 0 <= i < |t.entities| ensures Seated(t, next, i) {
      assert Seated(s, pc, i);
      assert Queued(t, i) == Queued(s, i);
    }
    assert t.handled + multiset(t.queue) + Hand(next) == s.handled + multiset(s.queue) + Hand(pc) + multiset{w};
  }

  /** Moving on without a section, or from asking to handling, leaves the hand as it is. */
  lemma SameHandSeats(s: State, pc: Pc, next: Pc)
    requires Seating(s, pc) && !next.Submitting? && !next.Accepted?
    requires HasReport(pc) == HasReport(next) && (HasReport(pc) ==> pc.r == next.r && pc.next == next.next)
    ensures Seating(s, next)
  {
    forall i | 0 <= i < |s.entities| ensures Seated(s, next, i) {
      assert Seated(s, pc, i);
    }
  }

  lemma GoSeats(s: State, pc: Pc, now: Millis)
    requires Seating(s, pc)
    ensures Seating(Advance(s, pc, now), NextPc(s, pc, now))
  {
    hide Seating, Handle, Get, Advance, Overdue;
    SeatingBasics(s, pc);
    AdvanceIs(s, pc, now);
    if pc.Admitted? {
      HandSeats(s, pc, now);
    } else if pc.Draining? && s.queue != [] {
      SameHandSeats(s, pc, Draining);
      TakeSeats(s);
    } else if pc.Scanning? && NextOverdue(s, pc.id, pc.sampled) < |s.entities| {
      MissSeats(s, pc, NextOverdue(s, pc.id, pc.sampled));
    } else {
      assert Advance(s, pc, now) == s by { NothingTaken(s); }
      SameHandSeats(s, pc, NextPc(s, pc, now));
    }
  }

  lemma SeatingBasics(s: State, pc: Pc)
    requires Seating(s, pc)
    ensures s.supervised && !pc.Submitting? && !pc.Accepted?
  {
  }

  // ---------------------------------------------------------------- histories

  /** Each move keeps the discipline if and only if it is not the race. */
  lemma MoveEscapes(sys: System, move: Move, sup: nat)
    requires Disciplined(sys, sup) && Enabled(sys, move) && Regular(sys, move, sup)
    ensures Disciplined(Moved(sys, move), sup) <==> !Escapes(sys, move, sup)
  {
    hide Seating, Do, Advance, NextPc, Races, Orderly;
    match move
    case Go(thread, now) =>
      if thread == sup {
        GoSeats(sys.state, sys.pcs[sup], now);
      } else {
        AwayStays(sys.state, now);
      }
    case Enter(_, pc) => SameHandSeats(sys.state, sys.pcs[sup], pc);
    case Atomically(step) => CallSeats(sys.state, sys.pcs[sup], step);
  }

  lemma AwayStays(s: State, now: Millis)
    ensures Advance(s, Away, now) == s && NextPc(s, Away, now) == Away
  {
  }

  ghost predicate StaysDisciplined(trace: seq<System>, sup: nat) {
    forall k | 0 <= k < |trace| :: Disciplined(trace[k], sup)
  }

  /** No move of the history is the race. */
  ghost predicate RaceFree(trace: seq<System>, moves: seq<Move>, sup: nat)
    requires |trace| == |moves| + 1
  {
    forall k | 0 <= k < |moves| :: sup in trace[k].pcs && !Escapes(trace[k], moves[k], sup)
  }

  lemma {:induction false} DisciplinedSoFar(trace: seq<System>, moves: seq<Move>, sup: nat, n: nat)
    requires History(trace, moves) && n <= |moves| && Disciplined(trace[0], sup) && RaceFree(trace, moves, sup)
    requires forall k | 0 <= k < |moves| :: Regular(trace[k], moves[k], sup)
    ensures Disciplined(trace[n], sup)
  {
    hide Disciplined, Moved, Enabled, Regular, Escapes;
    if n > 0 {
      DisciplinedSoFar(trace, moves, sup, n - 1);
      MoveEscapes(trace[n - 1], moves[n - 1], sup);
      assert trace[n] == Moved(trace[n - 1], moves[n - 1]);
    }
  }

  /**
   * Main result: over every history of one supervisor and orderly calls, each entity is in its place in
   * every system, and every accepted or raised report is handled once, queued once or in hand, if and
   * only if no worker's fault was accepted on the entity whose watchdog fault the scan had in hand.
   */
  lemma RaceIsExact(trace: seq<System>, moves: seq<Move>, sup: nat)
    requires History(trace, moves) && Disciplined(trace[0], sup)
    requires forall k | 0 <= k < |moves| :: Regular(trace[k], moves[k], sup)
    ensures StaysDisciplined(trace, sup) <==> RaceFree(trace, moves, sup)
  {
    hide Seating, Moved, Enabled, Regular, Escapes;
    if StaysDisciplined(trace, sup) {
      forall k | 0 <= k < |moves| ensures sup in trace[k].pcs && !Escapes(trace[k], moves[k], sup) {
        assert Disciplined(trace[k], sup);
        assert Disciplined(trace[k + 1], sup) && trace[k + 1] == Moved(trace[k], moves[k]);
        MoveEscapes(trace[k], moves[k], sup);
      }
    }
    if RaceFree(trace, moves, sup) {
      forall k | 0 <= k < |trace| ensures Disciplined(trace[k], sup) {
        DisciplinedSoFar(trace, moves, sup, k);
      }
    }
  }

  /** Where the supervisor is away and the queue is empty, everything was handled exactly once. */
  lemma RestIsHandledOnce(sys: System, sup: nat)
    requires Disciplined(sys, sup) && sys.pcs[sup].Away? && sys.state.queue == []
    ensures sys.state.handled == sys.state.accepted + sys.state.noticed
    ensures forall id | 0 <= id < |sys.state.entities| :: Idle(sys.state, id) || Settled(sys.state, id)
  {
    var s := sys.state;
    assert s.handled == s.handled + multiset(s.queue) + Hand(Away);
    forall id | 0 <= id < |s.entities| ensures Idle(s, id) || Settled(s, id) {
      assert Seated(s, Away, id);
    }
  }

  // ---------------------------------------------------------------- a race that happens

  /** A thread in the scan of a single silent entity, with an empty queue. */
  lemma SilentEntity(cfg: Config, desc: EntityDesc) returns (s: State, sampled: Millis)
    requires cfg.entityCap >= 1 && !desc.onExhausted.Restart? && MaxAge(cfg) < MILLIS_RANGE - 1
    ensures s == Do(Initial(cfg), Step(AddEntity(desc), 0))
    ensures |s.entities| == 1 && s.queue == [] && s.supervised && s.cfg == cfg
    ensures Overdue(s, 0, sampled)
  {
    hide Handle;
    s := Do(Initial(cfg), Step(AddEntity(desc), 0));
    sampled := MaxAge(cfg) + 1;
  }

  /** The supervisor alone, up to where its scan has raised that entity's fault and dropped the lock. */
  lemma MissInHand(cfg: Config, desc: EntityDesc) returns (trace: seq<System>, moves: seq<Move>, sampled: Millis)
    requires cfg.entityCap >= 1 && !desc.onExhausted.Restart? && MaxAge(cfg) < MILLIS_RANGE - 1
    ensures |moves| == 5 && History(trace, moves) && trace[0] == System(Initial(cfg), map[0 := Away])
    ensures forall k | 0 <= k < |moves| :: Regular(trace[k], moves[k], 0)
    ensures forall k | 1 <= k < |moves| :: !moves[k].Atomically?
    ensures moves[0] == Atomically(Step(AddEntity(desc), 0))
    ensures forall k | 0 <= k < |trace| :: 0 in trace[k].pcs
    ensures
      var s := trace[5].state;
      && |s.entities| == 1 && s.queue == [] && s.cfg == cfg
      && trace[5].pcs[0] == Handling(WatchdogReport(0, sampled), BackToScan(sampled, 1))
  {
    var s: State;
    s, sampled := SilentEntity(cfg, desc);
    var w := WatchdogReport(0, sampled);
    moves := [Atomically(Step(AddEntity(desc), 0)), Enter(0, EnteringScan), Go(0, sampled), Go(0, 0), Go(0, 0)];
    var a := System(Initial(cfg), map[0 := Away]);
    var b, c, d := System(s, map[0 := Away]), System(s, map[0 := EnteringScan]), System(s, map[0 := Sampled(sampled)]);
    var e := System(s, map[0 := Scanning(sampled, 0)]);
    var f := System(s.(noticed := s.noticed + multiset{w}), map[0 := Handling(w, BackToScan(sampled, 1))]);
    hide Do, Overdue, Advance;
    assert Moved(a, moves[0]) == b && Moved(b, moves[1]) == c;
    ScanMoves(s, sampled);
    hide Moved;
    trace := [a, b, c, d, e, f];
  }

  /** The moves of a scan up to its first miss, at entity 0. */
  lemma ScanMoves(s: State, sampled: Millis)
    requires s.supervised && |s.entities| >= 1 && Overdue(s, 0, sampled)
    ensures
      var w := WatchdogReport(0, sampled);
      var c, d := System(s, map[0 := EnteringScan]), System(s, map[0 := Sampled(sampled)]);
      var e := System(s, map[0 := Scanning(sampled, 0)]);
      && Moved(c, Go(0, sampled)) == d && Moved(d, Go(0, 0)) == e
      && Moved(e, Go(0, 0)) == System(s.(noticed := s.noticed + multiset{w}),
                                      map[0 := Handling(w, BackToScan(sampled, 1))])
  {
    hide Overdue, Advance;
    AdvanceIs(s, EnteringScan, sampled);
    AdvanceIs(s, Sampled(sampled), 0);
    AdvanceIs(s, Scanning(sampled, 0), 0);
  }

  /** Some history of one supervisor and orderly calls does end in the race. */
  lemma SomeFaultEscapes(cfg: Config, desc: EntityDesc) returns (trace: seq<System>, moves: seq<Move>)
    requires cfg.entityCap >= 1 && !desc.onExhausted.Restart? && MaxAge(cfg) < MILLIS_RANGE - 1
    ensures History(trace, moves) && trace[0] == System(Initial(cfg), map[0 := Away])
    ensures forall k | 0 <= k < |moves| :: Regular(trace[k], moves[k], 0)
    ensures StaysDisciplined(trace[..|moves|], 0) && !Disciplined(trace[|moves|], 0)
  {
    hide Disciplined, Moved;
    var front, first, sampled := MissInHand(cfg, desc);
    var fault := Atomically(Step(Fault(0, IO_ERROR, 0, Text(""), CRITICAL), 0));
    var sys := front[5];
    assert Escapes(sys, fault, 0) && Regular(sys, fault, 0);
    assert RaceFree(front, first, 0);
    hide Enabled, Escapes, Regular, RaceFree, Initial;
    EmptyIsDisciplined(cfg);
    RaceIsExact(front, first, 0);
    assert Disciplined(sys, 0);
    MoveEscapes(sys, fault, 0);
    trace, moves := front + [Moved(sys, fault)], first + [fault];
    assert trace[..6] == front;
  }

  lemma EmptyIsDisciplined(cfg: Config)
    ensures Disciplined(System(Initial(cfg), map[0 := Away]), 0)
  {
  }

  // ---------------------------------------------------------------- a heartbeat during a scan

  /**
   * A thread has sampled the clock for its scan; an entity beats one millisecond later, before the
   * thread takes the lock; then the thread scans undisturbed to the end.
   */
  ghost predicate BeatInWindow(trace: seq<System>, moves: seq<Move>, thread: nat, id: Byte, now: nat, at: Readings) {
    && History(trace, moves) && moves != [] && trace[0].state.supervised
    && thread in trace[0].pcs && trace[0].pcs[thread] == Sampled(ReadingAt(now))
    && id < |trace[0].state.entities|
    && !IsFailed(trace[0].state, id) && !IsLatched(trace[0].state, id, WATCHDOG)
    && moves[0] == Atomically(Step(Beat(id), ReadingAt(now + 1)))
    && (forall k | 1 <= k < |moves| :: moves[k] == Go(thread, at(k - 1)))
    && |moves| == 3 * Misses(trace[1].state, |trace[1].state.entities|, ReadingAt(now)) + 3
  }

  /** The scan that a lone thread makes of a supervised state. */
  lemma ScanFromSample(s: State, sampled: Millis, at: Readings)
    requires s.supervised
    ensures
      Alone(Place(s, Sampled(sampled)), at, 3 * Misses(s, |s.entities|, sampled) + 2)
      == Place(ScanTo(s, |s.entities|, sampled, ScanReadings(s, sampled, at, 1)), Away)
  {
    hide Hop, ScanTo, Misses, ScanReadings;
    var p := Place(s, Sampled(sampled));
    Hops(s, at(0));
    assert Alone(p, at, 0) == p;
    assert Alone(p, at, 1) == Place(s, Scanning(sampled, 0));
    ScanNothing(s, sampled, ScanReadings(s, sampled, at, 1));
    ScanAlone(p, at, 1, s, sampled, 0);
  }

  lemma BeatIs(s: State, id: Byte, now: Millis)
    requires id < |s.entities|
    ensures
      var t := Do(s, Step(Beat(id), now));
      t == Heartbeat(s, id, now) && (t.cfg, t.handled, t.supervised) == (s.cfg, s.handled, s.supervised)
      && |t.entities| == |s.entities|
  {
    hide Handle;
  }

  /**
   * Main result: the scan handles a watchdog fault of the entity that has just beaten, once, if and only
   * if the limit is below the last value of the clock; otherwise it handles none.
   */
  lemma BeatInWindowIsRaised(trace: seq<System>, moves: seq<Move>, thread: nat, id: Byte, now: nat, at: Readings)
    requires BeatInWindow(trace, moves, thread, id, now, at)
    ensures
      var s, sys := trace[0].state, trace[|moves|];
      var w := WatchdogReport(id, ReadingAt(now));
      && thread in sys.pcs && sys.pcs[thread].Away?
      && sys.state.handled[w] == s.handled[w] + if MaxAge(s.cfg) < MILLIS_RANGE - 1 then 1 else 0
  {
    hide Alone, ScanTo, Misses, ScanReadings, Do, Overdue, OverdueReports, Heartbeat, MaxAge, ReadingAt, Enabled;
    var s, u, sampled := trace[0].state, trace[1].state, ReadingAt(now);
    assert trace[1] == Moved(trace[0], moves[0]);
    BeatIs(s, id, ReadingAt(now + 1));
    BeatDuringScanRaisesFault(s, id, now);
    var rest, later := trace[1..], moves[1..];
    hide Moved;
    assert History(rest, later);
    GosAreAlone(rest, later, thread, at, |later|);
    ScanFromSample(u, sampled, at);
    var n, scan := |u.entities|, ScanReadings(u, sampled, at, 1);
    ScanHandlesMisses(u, n, sampled, scan);
    RaisedOnce(u, n, sampled, id);
  }
}
