/**
 * Sequential runs of the public calls: every entity is idle, pending or latched, and every accepted
 * report is handled exactly once.
 */
module Partition {
  import opened Types
  import opened Model
  import opened Frames
  import opened Supervision
  import opened Confluence

  // ---------------------------------------------------------------- sequential calls

  datatype Call =
    | Single(step: AtomicStep)
    | SubmitCall(r: Report)
    | HandleCall(r: Report, now: Millis)
    | TickCall(clock: Clock)
    | ScanCall(sampled: Millis, at: Readings)
    | GateCall(id: Byte, now: Millis)

  function Perform(s: State, call: Call): State {
    match call
    case Single(step) => Do(s, step)
    case SubmitCall(r) => SubmitFailure(s, r)
    case HandleCall(r, now) => HandleFailure(s, r, now)
    case TickCall(clock) => Tick(s, clock)
    case ScanCall(sampled, at) => CheckWatchdogs(s, sampled, at)
    case GateCall(id, now) => WorkerGate(s, id, now)
  }

  /**
   * Faults are reported for registered entities only; reports are not submitted or handled behind
   * the queue's back, health is not set by hand, and supervision stays on.
   */
  predicate Orderly(s: State, call: Call) {
    match call
    case SubmitCall(_) => false
    case HandleCall(_, _) => false
    case Single(step) =>
      && !step.section.HealthSet? && !step.section.HealthReset? && step.section != Supervise(false)
      && (step.section.Fault? ==> step.section.id < |s.entities|)
    case _ => true
  }

  function PerformAll(s: State, calls: seq<Call>): State {
    if calls == [] then s else Perform(PerformAll(s, calls[..|calls| - 1]), calls[|calls| - 1])
  }

  predicate OrderlyRun(s: State, calls: seq<Call>) {
    forall k | 0 <= k < |calls| :: Orderly(PerformAll(s, calls[..k]), calls[k])
  }

  // ---------------------------------------------------------------- the partition

  predicate Queued(s: State, id: nat) {
    exists k :: 0 <= k < |s.queue| && s.queue[k].entity == id
  }

  predicate Idle(s: State, id: nat)
    requires id < |s.entities|
  {
    !IsFailed(s, id) && s.entities[id].vitals.latch.None? && !Queued(s, id)
  }

  predicate Pending(s: State, id: nat)
    requires id < |s.entities|
  {
    IsFailed(s, id) && s.entities[id].vitals.latch.None? && Queued(s, id)
  }

  predicate Settled(s: State, id: nat)
    requires id < |s.entities|
  {
    IsFailed(s, id) && s.entities[id].vitals.latch.Some? && !Queued(s, id)
  }

  /** The three parts exclude each other by definition; here they are exhaustive. */
  predicate Placed(s: State, id: nat)
    requires id < |s.entities|
  {
    Idle(s, id) || Pending(s, id) || Settled(s, id)
  }

  predicate Partitioned(s: State) {
    && s.supervised
    && (forall id | 0 <= id < |s.entities| :: Placed(s, id))
    && Apart(s.queue)
    && (forall k | 0 <= k < |s.queue| :: s.queue[k].entity < |s.entities|)
    && s.handled + multiset(s.queue) == s.accepted + s.noticed
  }

  /** What the invariant is about; the rest of the state is free. */
  ghost predicate SameParts(s: State, t: State) {
    && (t.entities, t.queue, t.supervised) == (s.entities, s.queue, s.supervised)
    && (t.accepted, t.noticed, t.handled) == (s.accepted, s.noticed, s.handled)
  }

  lemma SamePartsKeep(s: State, t: State)
    requires Partitioned(s) && SameParts(s, t)
    ensures Partitioned(t)
  {
    forall id | 0 <= id < |t.entities| ensures Placed(t, id) {
      assert Placed(s, id);
    }
  }

  // ---------------------------------------------------------------- reports

  lemma FaultKeeps(s: State, id: Byte, reason: Reason, code: Word, detail: Detail, flags: Byte, now: Millis)
    requires Partitioned(s) && id < |s.entities|
    ensures Partitioned(ReportFault(s, id, reason, code, detail, flags, now))
  {
    var t := ReportFault(s, id, reason, code, detail, flags, now);
    var r := Report(id, reason, code, detail, now, flags);
    assert Placed(s, id);
    if !Admits(s, id, reason) {
    } else if PutStatus(s, r) != StatusOk {
      SamePartsKeep(s, t);
    } else {
      assert t.queue == s.queue + [r];
      assert t.queue[|s.queue|] == r;
      forall i | 0 <= i < |t.entities| ensures Placed(t, i) {
        assert Placed(s, i);
        if i == id {
          assert Pending(t, i);
        } else {
          QueuedGrows(s, t, r, i);
        }
      }
      assert multiset(t.queue) == multiset(s.queue) + multiset{r};
      assert t.handled + multiset(t.queue) == s.accepted + s.noticed + multiset{r};
    }
  }

  lemma QueuedGrows(s: State, t: State, r: Report, i: nat)
    requires t.queue == s.queue + [r] && r.entity != i
    ensures Queued(t, i) == Queued(s, i)
  {
    if Queued(s, i) {
      var k :| 0 <= k < |s.queue| && s.queue[k].entity == i;
      assert t.queue[k].entity == i;
    }
  }

  // ---------------------------------------------------------------- handling

  /** Taking out and handling the oldest report moves its entity from pending to idle or settled. */
  lemma DrainOneKeeps(s: State, now: Millis)
    requires Partitioned(s) && s.queue != []
    ensures Partitioned(Handle(Get(s), s.queue[0], now))
    ensures !IsLatched(Get(s), s.queue[0].entity, s.queue[0].reason)
  {
    hide Handle, FreshVitals;
    var r, u := s.queue[0], Get(s);
    var t := Handle(u, r, now);
    assert Queued(s, r.entity);
    assert Placed(s, r.entity);
    HandleIsBounded(u, r, now);
    HandlingOutcome(u, r, now);
    forall i | 0 <= i < |t.entities| ensures Placed(t, i) {
      assert Placed(s, i);
      QueuedShrinks(s, t, i);
      FreshIsOk(now);
    }
    assert s.queue == [r] + t.queue;
    assert multiset(s.queue) == multiset{r} + multiset(t.queue);
    assert t.handled + multiset(t.queue) == s.handled + multiset(s.queue);
  }

  lemma FreshIsOk(now: Millis)
    ensures FreshVitals(None, now).health.HealthOk? && FreshVitals(None, now).latch.None?
  {
  }

  lemma QueuedShrinks(s: State, t: State, i: nat)
    requires s.queue != [] && t.queue == s.queue[1..] && Apart(s.queue)
    ensures Queued(t, i) == (Queued(s, i) && s.queue[0].entity != i)
  {
    if Queued(s, i) && s.queue[0].entity != i {
      var k :| 0 <= k < |s.queue| && s.queue[k].entity == i;
      assert t.queue[k - 1].entity == i;
    }
    if Queued(t, i) {
      var k :| 0 <= k < |t.queue| && t.queue[k].entity == i;
      assert s.queue[k + 1].entity == i;
    }
  }

  lemma {:induction false} DrainKeeps(s: State, k: nat, at: Readings)
    requires Partitioned(s) && k <= |s.queue|
    ensures Partitioned(Drained(s, k, at))
  {
    hide Handle, Drained, Partitioned;
    if k == 0 {
      DrainEnds(s, at);
    } else {
      DrainKeeps(s, k - 1, at);
      DrainStep(s, k - 1, at);
      DrainOneKeeps(Drained(s, k - 1, at), at(k - 1));
    }
  }

  /** A watchdog fault moves an idle entity to idle or settled. */
  lemma ScanOneKeeps(s: State, id: Byte, sampled: Millis, now: Millis)
    requires Partitioned(s)
    ensures Partitioned(ScanOne(s, id, sampled, now))
    ensures |ScanOne(s, id, sampled, now).entities| == |s.entities|
  {
    hide Handle, FreshVitals;
    if Overdue(s, id, sampled) {
      var r := WatchdogReport(id, sampled);
      var u := s.(noticed := s.noticed + multiset{r});
      var t := Handle(u, r, now);
      assert Placed(s, id);
      HandleIsBounded(u, r, now);
      HandlingOutcome(u, r, now);
      FreshIsOk(now);
      forall i | 0 <= i < |t.entities| ensures Placed(t, i) {
        assert Placed(s, i);
      }
      assert t.handled + multiset(t.queue) == s.accepted + s.noticed + multiset{r};
    }
  }

  lemma {:induction false} ScanKeeps(s: State, n: nat, sampled: Millis, at: Readings)
    requires Partitioned(s) && n <= |s.entities|
    ensures Partitioned(ScanTo(s, n, sampled, at))
  {
    hide Partitioned, ScanOne;
    if n > 0 {
      ScanKeeps(s, n - 1, sampled, at);
      ScanOneKeeps(ScanTo(s, n - 1, sampled, at), n - 1, sampled, at(n - 1));
    }
  }

  // ---------------------------------------------------------------- everything else

  lemma RegisterKeeps(s: State, desc: EntityDesc, now: Millis)
    requires Partitioned(s)
    ensures Partitioned(RegisterEntity(s, desc, now))
  {
    var t := RegisterEntity(s, desc, now);
    forall i | 0 <= i < |t.entities| ensures Placed(t, i) {
      if i < |s.entities| {
        assert Placed(s, i);
        assert Queued(t, i) == Queued(s, i);
      } else {
        assert !Queued(t, i);
      }
    }
  }

  lemma BeatKeeps(s: State, id: Byte, now: Millis)
    requires Partitioned(s)
    ensures Partitioned(Heartbeat(s, id, now))
  {
    var t := Heartbeat(s, id, now);
    forall i | 0 <= i < |t.entities| ensures Placed(t, i) {
      assert Placed(s, i);
      assert Queued(t, i) == Queued(s, i);
    }
  }

  lemma OthersKeepParts(s: State, step: AtomicStep)
    requires s.supervised && Orderly(s, Single(step))
    requires !step.section.AddEntity? && !step.section.Fault? && !step.section.Beat?
    ensures SameParts(s, Do(s, step))
  {
    hide Handle, PlainEvent, SubsystemEvent, NotedEvent, CriticalDown, Marked, RegisterEntity, ReportFault,
         Heartbeat, SetHealth, ResetHealth, Put, Get;
  }

  lemma CallKeeps(s: State, call: Call)
    requires Partitioned(s) && Orderly(s, call)
    ensures Partitioned(Perform(s, call))
  {
    hide Partitioned, Do, HandleAll, ScanTo, Heartbeat, Drained;
    assert s.supervised by { PartitionedIsSupervised(s); }
    match call
    case TickCall(clock) =>
      DrainKeeps(s, |s.queue|, clock.drain);
      DrainEnds(s, clock.drain);
      ScanKeepsAll(Drained(s, |s.queue|, clock.drain), clock.sampled, clock.scan);
    case ScanCall(sampled, at) => ScanKeepsAll(s, sampled, at);
    case GateCall(id, now) => BeatKeeps(s, id, now);
    case Single(step) => StepKeeps(s, step);
  }

  lemma PartitionedIsSupervised(s: State)
    requires Partitioned(s)
    ensures s.supervised
  {
  }

  lemma ScanKeepsAll(s: State, sampled: Millis, at: Readings)
    requires Partitioned(s)
    ensures Partitioned(CheckWatchdogs(s, sampled, at))
  {
    hide Partitioned, ScanTo;
    ScanKeeps(s, |s.entities|, sampled, at);
  }

  lemma StepKeeps(s: State, step: AtomicStep)
    requires Partitioned(s) && Orderly(s, Single(step))
    ensures Partitioned(Do(s, step))
  {
    hide Partitioned, Handle, RegisterEntity, ReportFault, Heartbeat, SetMode, EnterDegraded, EnterSafe, TryReboot,
         EvaluateDualPath, MarkByHand, SetSupervision, SameParts;
    match step.section
    case AddEntity(desc) => RegisterKeeps(s, desc, step.now);
    case Fault(id, reason, code, detail, flags) => FaultKeeps(s, id, reason, code, detail, flags, step.now);
    case Beat(id) => BeatKeeps(s, id, step.now);
    case _ =>
      PartitionedIsSupervised(s);
      OthersKeepParts(s, step);
      SamePartsKeep(s, Do(s, step));
  }

  /** Main result: the partition and the exactly-once ledger hold after any orderly run. */
  lemma {:induction false} PartitionOverRuns(cfg: Config, calls: seq<Call>)
    requires OrderlyRun(Initial(cfg), calls)
    ensures Partitioned(PerformAll(Initial(cfg), calls))
  {
    hide Perform, Orderly;
    if calls != [] {
      var front, last := calls[..|calls| - 1], calls[|calls| - 1];
      var s := PerformAll(Initial(cfg), front);
      forall k | 0 <= k < |front| ensures Orderly(PerformAll(Initial(cfg), front[..k]), front[k]) {
        assert front[..k] == calls[..k];
      }
      PartitionOverRuns(cfg, front);
      hide Partitioned;
      assert calls[..|calls| - 1] == front;
      CallKeeps(s, last);
    } else {
      assert multiset(Initial(cfg).queue) == multiset{};
    }
  }

  /**
   * After an orderly run and one more tick nothing is pending, and what was handled is exactly what
   * was accepted from workers and raised by the scan: nothing lost, suppressed or handled twice.
   */
  lemma EverythingHandledOnce(cfg: Config, calls: seq<Call>, clock: Clock)
    requires OrderlyRun(Initial(cfg), calls)
    ensures
      var t := Tick(PerformAll(Initial(cfg), calls), clock);
      && t.queue == [] && t.handled == t.accepted + t.noticed
      && forall id | 0 <= id < |t.entities| :: Idle(t, id) || Settled(t, id)
  {
    hide Do, HandleAll, ScanTo, PerformAll, OrderlyRun;
    var s := PerformAll(Initial(cfg), calls);
    PartitionOverRuns(cfg, calls);
    CallKeeps(s, TickCall(clock));
    var u := HandleAll(s.(queue := []), s.queue, clock.drain);
    BatchIsBounded(s.(queue := []), s.queue, clock.drain);
    ScanKeepsContract(u, |u.entities|, clock.sampled, clock.scan);
    var t := Tick(s, clock);
    assert multiset(t.queue) == multiset{};
    assert t.handled == t.handled + multiset(t.queue);
    forall id | 0 <= id < |t.entities| ensures Idle(t, id) || Settled(t, id) {
      assert Placed(t, id);
    }
  }
}
