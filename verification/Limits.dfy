/** Where the guarantees end: what a race or a bypass can do, in general and not by example. */
module Limits {
  import opened Types
  import opened Model
  import opened Frames
  import opened Supervision
  import opened Partition
  import opened Interleaving
  import opened Isolation

  // ---------------------------------------------------------------- a fault during a scan

  /** The scan has found the entity overdue and dropped the lock. */
  function NotedMiss(s: State, id: Byte, sampled: Millis): State {
    s.(noticed := s.noticed + multiset{WatchdogReport(id, sampled)})
  }

  /** The worker's report found room in the queue: its entity is handled and still queued. */
  lemma AcceptedInWindow(s: State, id: Byte, sampled: Millis, f: Section, t1: Millis, t2: Millis)
    requires Partitioned(s) && Overdue(s, id, sampled) && f.Fault? && f.id == id
    requires |s.queue| < s.cfg.queueCap
    ensures
      var faulted := ReportFault(NotedMiss(s, id, sampled), id, f.reason, f.errorCode, f.detail, f.flags, t1);
      var t := Handle(faulted, WatchdogReport(id, sampled), t2);
      |t.entities| == |s.entities| && Queued(t, id) && !Placed(t, id)
  {
    hide Handle, FreshVitals;
    assert Placed(s, id);
    var r, w := Report(id, f.reason, f.errorCode, f.detail, t1, f.flags), WatchdogReport(id, sampled);
    var u := ReportFault(NotedMiss(s, id, sampled), id, f.reason, f.errorCode, f.detail, f.flags, t1);
    assert u.queue == s.queue + [r];
    assert u.queue[|s.queue|] == r;
    HandlingOutcome(u, w, t2);
    HandleIsBounded(u, w, t2);
    FreshIsOk(t2);
    var t := Handle(u, w, t2);
    assert t.queue[|s.queue|].entity == id;
  }

  /** The worker's report was refused: the scan goes on as if there had been none. */
  lemma RefusedInWindow(s: State, id: Byte, sampled: Millis, f: Section, t1: Millis, t2: Millis)
    requires Partitioned(s) && Overdue(s, id, sampled) && f.Fault? && f.id == id
    requires |s.queue| >= s.cfg.queueCap
    ensures
      var faulted := ReportFault(NotedMiss(s, id, sampled), id, f.reason, f.errorCode, f.detail, f.flags, t1);
      Partitioned(Handle(faulted, WatchdogReport(id, sampled), t2))
  {
    assert Placed(s, id);
    var full := s.(full := true);
    assert ReportFault(NotedMiss(s, id, sampled), id, f.reason, f.errorCode, f.detail, f.flags, t1)
           == NotedMiss(full, id, sampled);
    SamePartsKeep(s, full);
    ScanOneKeeps(full, id, sampled, t2);
    assert ScanOne(full, id, sampled, t2) == Handle(NotedMiss(full, id, sampled), WatchdogReport(id, sampled), t2) by {
      hide Handle;
    }
  }

  /** A thread in the scan notes a miss, a worker reports on the same entity, and the thread goes on. */
  ghost predicate FaultInWindow(trace: seq<System>, moves: seq<Move>, thread: nat, id: Byte) {
    && History(trace, moves) && |moves| == 4
    && thread in trace[0].pcs && trace[0].pcs[thread].Scanning?
    && id < |trace[0].state.entities|
    && NextOverdue(trace[0].state, trace[0].pcs[thread].id, trace[0].pcs[thread].sampled) == id
    && moves[0].Go? && moves[0].thread == thread
    && moves[1].Atomically? && moves[1].step.section.Fault? && moves[1].step.section.id == id
    && moves[2].Go? && moves[2].thread == thread
    && moves[3].Go? && moves[3].thread == thread
  }

  lemma WindowStates(trace: seq<System>, moves: seq<Move>, thread: nat, id: Byte)
    requires FaultInWindow(trace, moves, thread, id) && trace[0].state.supervised
    ensures
      var s, sampled, f, t1 := trace[0].state, trace[0].pcs[thread].sampled, moves[1].step.section, moves[1].step.now;
      var faulted := ReportFault(NotedMiss(s, id, sampled), id, f.reason, f.errorCode, f.detail, f.flags, t1);
      && Overdue(s, id, sampled)
      && trace[4].state == Handle(faulted, WatchdogReport(id, sampled), moves[3].now)
  {
    hide Handle, Overdue, ReportFault;
    var s, pc, f := trace[0].state, trace[0].pcs[thread], moves[1].step.section;
    var w, next := WatchdogReport(id, pc.sampled), BackToScan(pc.sampled, id + 1);
    var noted := NotedMiss(s, id, pc.sampled);
    var faulted := ReportFault(noted, id, f.reason, f.errorCode, f.detail, f.flags, moves[1].step.now);
    assert trace[1] == Moved(trace[0], moves[0]);
    assert trace[1].state == noted && trace[1].pcs[thread] == Handling(w, next);
    assert trace[2] == Moved(trace[1], moves[1]);
    assert trace[2].state == faulted && trace[2].pcs == trace[1].pcs;
    assert faulted.supervised by { FaultKeepsSwitch(noted, f, moves[1].step.now); }
    assert trace[3] == Moved(trace[2], moves[2]);
    assert trace[3].state == faulted && trace[3].pcs[thread] == Admitted(w, next);
    assert trace[4] == Moved(trace[3], moves[3]);
  }

  lemma FaultKeepsSwitch(s: State, f: Section, now: Millis)
    requires f.Fault?
    ensures ReportFault(s, f.id, f.reason, f.errorCode, f.detail, f.flags, now).supervised == s.supervised
  {
  }

  /**
   * Main result on the race: the scan drops the lock before it handles a watchdog fault. A worker's
   * fault on the same entity in that window breaks the partition if and only if the queue has room for
   * it; the entity is then handled for the watchdog while its own report is still queued.
   */
  lemma FaultDuringScanEscapesPartition(trace: seq<System>, moves: seq<Move>, thread: nat, id: Byte)
    requires FaultInWindow(trace, moves, thread, id) && Partitioned(trace[0].state)
    ensures
      var s, t := trace[0].state, trace[4].state;
      && (Partitioned(t) <==> |s.queue| >= s.cfg.queueCap)
      && |t.entities| == |s.entities|
      && (!Placed(t, id) <==> |s.queue| < s.cfg.queueCap)
      && (Queued(t, id) <==> |s.queue| < s.cfg.queueCap)
  {
    hide Handle, Overdue, ReportFault, Moved, Enabled, NextOverdue;
    var s, pc, step := trace[0].state, trace[0].pcs[thread], moves[1].step;
    WindowStates(trace, moves, thread, id);
    if |s.queue| < s.cfg.queueCap {
      AcceptedInWindow(s, id, pc.sampled, step.section, step.now, moves[3].now);
    } else {
      RefusedInWindow(s, id, pc.sampled, step.section, step.now, moves[3].now);
      RefusedQueue(s, id, pc.sampled, step.section, step.now, moves[3].now);
    }
  }

  lemma RefusedQueue(s: State, id: Byte, sampled: Millis, f: Section, t1: Millis, t2: Millis)
    requires Partitioned(s) && Overdue(s, id, sampled) && f.Fault? && f.id == id
    requires |s.queue| >= s.cfg.queueCap
    ensures
      var faulted := ReportFault(NotedMiss(s, id, sampled), id, f.reason, f.errorCode, f.detail, f.flags, t1);
      var t := Handle(faulted, WatchdogReport(id, sampled), t2);
      |t.entities| == |s.entities| && !Queued(t, id)
  {
    hide Handle;
    assert Placed(s, id);
    var u := ReportFault(NotedMiss(s, id, sampled), id, f.reason, f.errorCode, f.detail, f.flags, t1);
    HandleIsBounded(u, WatchdogReport(id, sampled), t2);
  }

  // ---------------------------------------------------------------- bypassing supervision

  /** Failed, but neither latched nor queued: nobody will ever deal with it. */
  predicate Stranded(s: State, id: nat)
    requires id < |s.entities|
  {
    IsFailed(s, id) && s.entities[id].vitals.latch.None? && !Queued(s, id)
  }

  /** Switching supervision off strands exactly the entities whose faults were pending. */
  lemma BypassStrands(s: State, id: Byte, now: Millis)
    requires Partitioned(s) && id < |s.entities|
    ensures
      var t := SetSupervision(s, false, now);
      Stranded(t, id) <==> Pending(s, id)
  {
    assert Placed(s, id);
  }

  /**
   * What frees a stranded entity: with supervision on, a report on it that is submitted while there is
   * room or handled directly; in any case its health set to anything but FAILED.
   */
  predicate Frees(s: State, call: Call, id: Byte) {
    match call
    case SubmitCall(r) => s.supervised && r.entity == id && |s.queue| < s.cfg.queueCap
    case HandleCall(r, _) => s.supervised && r.entity == id
    case Single(Step(HealthSet(other, health, _, _), _)) => other == id && !health.HealthFailed?
    case Single(Step(HealthReset(other), _)) => other == id
    case _ => false
  }

  lemma QueueKept(s: State, step: Step)
    requires !step.section.Enqueue? && !step.section.Dequeue? && !step.section.Process?
    requires !step.section.Fault? && !step.section.Supervise?
    ensures Do(s, step).queue == s.queue
  {
    hide Handle, PlainEvent, SubsystemEvent, NotedEvent, CriticalDown, Marked, FreshVitals, ReportFault, Put, Get;
  }

  /** A failed entity's fault is not queued by any call of a single section. */
  lemma FailedIsNotQueued(s: State, step: AtomicStep, id: Byte)
    requires IsFailed(s, id) && !Queued(s, id)
    ensures !Queued(Do(s, step), id)
  {
    if step.section.Fault? || step.section.Supervise? {
      hide Handle, PlainEvent, NotedEvent;
    } else {
      hide Do;
      QueueKept(s, step);
    }
  }

  /** The sections on other entities' health leave this one failed and unlatched. */
  lemma StrandedVitals(s: State, step: AtomicStep, id: Byte)
    requires id < |s.entities| && Stranded(s, id)
    requires !Frees(s, Single(step), id) && !(step.section.HealthSet? && step.section.id == id)
    ensures IsFailed(Do(s, step), id) && Do(s, step).entities[id].vitals.latch.None?
  {
    hide Do;
    if !TouchesEntities(step.section) {
      EntitiesUntouched(s, step);
    } else {
      EntitySectionSpares(s, step, id);
    }
  }

  lemma HealthByHand(s: State, step: Step, id: Byte)
    requires id < |s.entities|
    requires (step.section.HealthSet? && step.section.id == id) || (step.section.HealthReset? && step.section.id == id)
    ensures
      var t := Do(s, step);
      && |t.entities| == |s.entities| && t.queue == s.queue
      && t.entities[id].vitals.latch == s.entities[id].vitals.latch
      && IsFailed(t, id) == (step.section.HealthSet? && step.section.health.HealthFailed?)
  {
    hide Handle;
  }

  lemma SingleFrees(s: State, step: AtomicStep, id: Byte)
    requires id < |s.entities| && Stranded(s, id)
    ensures id < |Do(s, step).entities|
    ensures Stranded(Do(s, step), id) <==> !Frees(s, Single(step), id)
  {
    hide Do;
    StepExtends(s, step);
    FailedIsNotQueued(s, step, id);
    if (step.section.HealthSet? || step.section.HealthReset?) && step.section.id == id {
      HealthByHand(s, step, id);
    } else {
      StrandedVitals(s, step, id);
    }
  }

  lemma SubmitFrees(s: State, r: Report, id: Byte)
    requires id < |s.entities| && Stranded(s, id)
    ensures id < |SubmitFailure(s, r).entities|
    ensures Stranded(SubmitFailure(s, r), id) <==> !Frees(s, SubmitCall(r), id)
  {
    var t := SubmitFailure(s, r);
    if t.queue == s.queue + [r] {
      assert t.queue[|s.queue|] == r;
      if r.entity != id {
        QueuedGrows(s, t, r, id);
      }
    } else {
      assert Queued(t, id) == Queued(s, id);
    }
  }

  lemma HandleFrees(s: State, r: Report, now: Millis, id: Byte)
    requires id < |s.entities| && Stranded(s, id)
    ensures id < |HandleFailure(s, r, now).entities|
    ensures Stranded(HandleFailure(s, r, now), id) <==> !Frees(s, HandleCall(r, now), id)
  {
    hide Handle, FreshVitals;
    HandleIsBounded(s, r, now);
    assert Queued(Handle(s, r, now), id) == Queued(s, id);
    if r.entity == id {
      HandlingOutcome(s, r, now);
      FreshIsOk(now);
    }
  }

  lemma ScanKeepsStranded(s: State, sampled: Millis, at: Readings, id: Byte)
    requires id < |s.entities| && Stranded(s, id)
    ensures
      var t := CheckWatchdogs(s, sampled, at);
      id < |t.entities| && Stranded(t, id)
  {
    hide ScanTo;
    if s.supervised {
      ScanKeepsContract(s, |s.entities|, sampled, at);
      assert ScanContract(s, CheckWatchdogs(s, sampled, at), id, sampled, at);
      assert Queued(CheckWatchdogs(s, sampled, at), id) == Queued(s, id);
    }
  }

  /** A drain passes over the entities that have no report queued. */
  lemma DrainSpares(s: State, at: Readings, id: Byte)
    requires id < |s.entities| && !Queued(s, id)
    ensures
      var u := HandleAll(s.(queue := []), s.queue, at);
      && |u.entities| == |s.entities| && u.entities[id] == s.entities[id]
      && u.queue == [] && u.supervised == s.supervised
  {
    hide HandleAll;
    BatchIsBounded(s.(queue := []), s.queue, at);
    forall r | r in s.queue ensures r.entity != id {
      var k :| 0 <= k < |s.queue| && s.queue[k] == r;
    }
  }

  /** A call leaves a stranded entity stranded if and only if it does not free it. */
  lemma CallFrees(s: State, call: Call, id: Byte)
    requires id < |s.entities| && Stranded(s, id)
    ensures id < |Perform(s, call).entities|
    ensures Stranded(Perform(s, call), id) <==> !Frees(s, call, id)
  {
    hide Do, Handle, HandleAll, ScanTo, Put;
    match call
    case Single(step) => SingleFrees(s, step, id);
    case SubmitCall(r) => SubmitFrees(s, r, id);
    case HandleCall(r, now) => HandleFrees(s, r, now, id);
    case ScanCall(sampled, at) => ScanKeepsStranded(s, sampled, at, id);
    case GateCall(gate, now) => assert Queued(Perform(s, call), id) == Queued(s, id);
    case TickCall(clock) =>
      if s.supervised {
        DrainSpares(s, clock.drain, id);
        var u := HandleAll(s.(queue := []), s.queue, clock.drain);
        assert !Queued(u, id);
        ScanKeepsStranded(u, clock.sampled, clock.scan, id);
      }
  }

  lemma {:induction false} StrandedSoFar(s: State, calls: seq<Call>, n: nat, id: Byte)
    requires id < |s.entities| && Stranded(s, id) && n <= |calls|
    requires forall k | 0 <= k < n :: !Frees(PerformAll(s, calls[..k]), calls[k], id)
    ensures id < |PerformAll(s, calls[..n]).entities| && Stranded(PerformAll(s, calls[..n]), id)
  {
    hide Perform, Stranded, Frees;
    if n > 0 {
      StrandedSoFar(s, calls, n - 1, id);
      assert calls[..n][..n - 1] == calls[..n - 1];
      CallFrees(PerformAll(s, calls[..n - 1]), calls[n - 1], id);
    }
  }

  ghost predicate StaysStranded(s: State, calls: seq<Call>, id: Byte) {
    forall n | 0 <= n <= |calls| ::
      id < |PerformAll(s, calls[..n]).entities| && Stranded(PerformAll(s, calls[..n]), id)
  }

  /**
   * Main result on the bypass: over any public calls, in any order, with supervision on or off, a
   * stranded entity stays stranded if and only if no call frees it.
   */
  lemma StrandedForever(s: State, calls: seq<Call>, id: Byte)
    requires id < |s.entities| && Stranded(s, id)
    ensures StaysStranded(s, calls, id)
            <==> forall k | 0 <= k < |calls| :: !Frees(PerformAll(s, calls[..k]), calls[k], id)
  {
    hide Perform, Stranded, Frees;
    if StaysStranded(s, calls, id) {
      forall k | 0 <= k < |calls| ensures !Frees(PerformAll(s, calls[..k]), calls[k], id) {
        assert calls[..k + 1][..k] == calls[..k];
        CallFrees(PerformAll(s, calls[..k]), calls[k], id);
        assert Stranded(PerformAll(s, calls[..k + 1]), id);
      }
    }
    if forall k | 0 <= k < |calls| :: !Frees(PerformAll(s, calls[..k]), calls[k], id) {
      forall n | 0 <= n <= |calls|
        ensures id < |PerformAll(s, calls[..n]).entities| && Stranded(PerformAll(s, calls[..n]), id)
      {
        StrandedSoFar(s, calls, n, id);
      }
    }
  }

  /** The drain handles the submitted report: its entity is restarted, or failed and latched. */
  lemma SubmittedIsDrained(s: State, r: Report, at: Readings)
    requires s.supervised && r.entity < |s.entities| && Stranded(s, r.entity) && |s.queue| < s.cfg.queueCap
    ensures
      var p := Put(s, r);
      var v := HandleAll(p.(queue := []), p.queue, at);
      && p.supervised && v.supervised && |v.entities| == |s.entities| && v.queue == []
      && (IsFailed(v, r.entity) ==> v.entities[r.entity].vitals.latch.Some?)
  {
    hide Handle, HandleAll, FreshVitals;
    var k, p := |s.queue|, Put(s, r);
    var base := s.(queue := [], accepted := p.accepted);
    assert p.queue == s.queue + [r] && p.queue[..k] == s.queue && p.(queue := []) == base;
    DrainSpares(s.(accepted := p.accepted), at, r.entity);
    var u := HandleAll(base, s.queue, at);
    LastOfBatch(base, p.queue, at);
    HandleIsBounded(u, r, at(k));
    HandlingOutcome(u, r, at(k));
    FreshIsOk(at(k));
  }

  /** A report submitted on a stranded entity is dealt with by the next tick: restarted, or failed and latched. */
  lemma SubmittedReportFrees(s: State, r: Report, clock: Clock)
    requires s.supervised && r.entity < |s.entities| && Stranded(s, r.entity) && |s.queue| < s.cfg.queueCap
    ensures
      var t := Tick(SubmitFailure(s, r), clock);
      && |t.entities| == |s.entities| && t.queue == []
      && (IsFailed(t, r.entity) ==> t.entities[r.entity].vitals.latch.Some?)
      && !Stranded(t, r.entity)
  {
    hide HandleAll, ScanTo, FreshVitals, Overdue, Put;
    var id, p := r.entity, Put(s, r);
    var v := HandleAll(p.(queue := []), p.queue, clock.drain);
    SubmittedIsDrained(s, r, clock.drain);
    FreshIsOk(clock.scan(id));
    ScanKeepsContract(v, |v.entities|, clock.sampled, clock.scan);
    assert ScanContract(v, CheckWatchdogs(v, clock.sampled, clock.scan), id, clock.sampled, clock.scan);
  }

  lemma LastOfBatch(s: State, reports: seq<Report>, at: Readings)
    requires reports != []
    ensures
      var n := |reports| - 1;
      HandleAll(s, reports, at) == Handle(HandleAll(s, reports[..n], at), reports[n], at(n))
  {
    hide Handle;
  }
}
