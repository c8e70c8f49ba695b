/** A queue with a slot per entity never refuses a fault, and a smaller one can be made to. */
module Capacity {
  import opened Types
  import opened Model
  import opened Frames
  import opened Supervision
  import opened Confluence
  import opened Partition

  // ---------------------------------------------------------------- pigeonhole

  function Owners(queue: seq<Report>): set<nat> {
    set k: nat | k < |queue| :: queue[k].entity as nat
  }

  lemma {:induction false} OwnersAreMany(queue: seq<Report>)
    requires Apart(queue)
    ensures |Owners(queue)| == |queue|
  {
    if queue == [] {
      assert Owners(queue) == {};
    } else {
      var front, last := queue[..|queue| - 1], queue[|queue| - 1];
      OwnersAreMany(front);
      assert Owners(queue) == Owners(front) + {last.entity as nat} by {
        forall o | o in Owners(front) + {last.entity as nat} ensures o in Owners(queue) {
          if o == last.entity {
            assert queue[|queue| - 1].entity == o;
          } else {
            var k: nat :| k < |front| && front[k].entity == o;
            assert queue[k].entity == o;
          }
        }
      }
      assert last.entity as nat !in Owners(front);
    }
  }

  function Below(n: nat): set<nat> {
    if n == 0 then {} else Below(n - 1) + {n - 1}
  }

  lemma {:induction false} BelowHasSize(n: nat)
    ensures |Below(n)| == n && forall i: nat :: i in Below(n) <==> i < n
  {
    if n > 0 {
      BelowHasSize(n - 1);
    }
  }

  /** As long as some entity has no report queued, fewer reports than entities are queued. */
  lemma QueueLeavesRoom(s: State, id: nat)
    requires Partitioned(s) && id < |s.entities| && !Queued(s, id)
    ensures |s.queue| < |s.entities|
  {
    OwnersAreMany(s.queue);
    BelowHasSize(|s.entities|);
    var owners, rest := Owners(s.queue), Below(|s.entities|) - {id};
    forall o | o in owners ensures o in rest {
      var k: nat :| k < |s.queue| && s.queue[k].entity == o;
      assert s.queue[k].entity < |s.entities|;
    }
    SubsetIsSmaller(owners, rest);
  }

  // ---------------------------------------------------------------- enough capacity

  /** With a slot per entity no report is refused. */
  lemma FaultIsAccepted(s: State, id: Byte, reason: Reason, code: Word, detail: Detail, flags: Byte, now: Millis)
    requires Partitioned(s) && |s.entities| <= s.cfg.queueCap && id < |s.entities|
    ensures ReportStatus(s, id, reason, code, detail, flags, now) == StatusOk
    ensures ReportFault(s, id, reason, code, detail, flags, now).full == s.full
  {
    assert Placed(s, id);
    if Admits(s, id, reason) {
      QueueLeavesRoom(s, id);
    }
  }

  lemma StepKeepsNotFull(s: State, step: AtomicStep)
    requires Partitioned(s) && Orderly(s, Single(step)) && !s.full
    requires |s.entities| <= s.cfg.queueCap
    ensures !Do(s, step).full
  {
    hide Handle, PlainEvent, SubsystemEvent, NotedEvent, CriticalDown, Marked, ReportFault, Partitioned;
    if step.section.Fault? {
      var f := step.section;
      FaultIsAccepted(s, f.id, f.reason, f.errorCode, f.detail, f.flags, step.now);
    }
  }

  lemma {:induction false} ScanKeepsQueue(s: State, n: nat, sampled: Millis, at: Readings)
    requires n <= MAX_ENTITIES
    ensures
      var t := ScanTo(s, n, sampled, at);
      Extends(s, t) && t.queue == s.queue && t.full == s.full && |t.entities| == |s.entities|
  {
    hide Handle, Overdue;
    if n > 0 {
      ScanKeepsQueue(s, n - 1, sampled, at);
      var t, r := ScanTo(s, n - 1, sampled, at), WatchdogReport(n - 1, sampled);
      HandleIsBounded(t.(noticed := t.noticed + multiset{r}), r, at(n - 1));
    }
  }

  lemma TickKeepsQueueBits(s: State, clock: Clock)
    ensures
      var t := Tick(s, clock);
      Extends(s, t) && t.full == s.full && |t.entities| == |s.entities|
  {
    hide HandleAll, ScanTo;
    BatchIsBounded(s.(queue := []), s.queue, clock.drain);
    var u := HandleAll(s.(queue := []), s.queue, clock.drain);
    ScanKeepsQueue(u, |u.entities|, clock.sampled, clock.scan);
  }

  lemma CallExtends(s: State, call: Call)
    ensures Extends(s, Perform(s, call))
  {
    hide Do, Tick, ScanTo, Handle;
    match call
    case Single(step) => StepExtends(s, step);
    case TickCall(clock) => TickKeepsQueueBits(s, clock);
    case ScanCall(sampled, at) => ScanKeepsQueue(s, |s.entities|, sampled, at);
    case HandleCall(r, now) => HandleIsBounded(s, r, now);
    case _ =>
  }

  lemma CallKeepsNotFull(s: State, call: Call)
    requires Partitioned(s) && Orderly(s, call) && !s.full
    requires |s.entities| <= s.cfg.queueCap
    ensures !Perform(s, call).full
  {
    hide Do, Tick, ScanTo, Partitioned;
    match call
    case Single(step) => StepKeepsNotFull(s, step);
    case TickCall(clock) => TickKeepsQueueBits(s, clock);
    case ScanCall(sampled, at) => ScanKeepsQueue(s, |s.entities|, sampled, at);
    case GateCall(_, _) =>
  }

  /** Main result: in orderly runs of no more entities than queue slots, the full latch is never set. */
  lemma {:induction false} QueueNeverFills(cfg: Config, calls: seq<Call>)
    requires OrderlyRun(Initial(cfg), calls)
    requires |PerformAll(Initial(cfg), calls).entities| <= cfg.queueCap
    ensures PerformAll(Initial(cfg), calls).cfg == cfg
    ensures !PerformAll(Initial(cfg), calls).full
  {
    hide Perform, Orderly;
    if calls != [] {
      hide Partitioned;
      var front, last := calls[..|calls| - 1], calls[|calls| - 1];
      var s := PerformAll(Initial(cfg), front);
      forall k | 0 <= k < |front| ensures Orderly(PerformAll(Initial(cfg), front[..k]), front[k]) {
        assert front[..k] == calls[..k];
      }
      assert calls[..|calls| - 1] == front;
      CallExtends(s, last);
      QueueNeverFills(cfg, front);
      PartitionOverRuns(cfg, front);
      CallKeepsNotFull(s, last);
    }
  }

  // ---------------------------------------------------------------- too little capacity

  /** Nothing has failed and nothing is queued. */
  predicate Healthy(s: State) {
    && s.supervised && s.queue == [] && !s.full
    && forall i | 0 <= i < |s.entities| :: !IsFailed(s, i) && s.entities[i].vitals.latch.None?
  }

  const PLAIN := EntityDesc("", 0, 0, NoAction, NO_SUBSYSTEM, None, None)

  lemma OrderlyExtends(s: State, calls: seq<Call>, call: Call)
    requires OrderlyRun(s, calls) && Orderly(PerformAll(s, calls), call)
    ensures OrderlyRun(s, calls + [call])
    ensures PerformAll(s, calls + [call]) == Perform(PerformAll(s, calls), call)
  {
    hide Orderly, Perform;
    var all := calls + [call];
    assert all[..|calls|] == calls;
    forall k | 0 <= k < |all| ensures Orderly(PerformAll(s, all[..k]), all[k]) {
      if k < |calls| {
        assert all[..k] == calls[..k];
      }
    }
  }

  lemma OneMoreEntity(s: State, now: Millis)
    requires Healthy(s) && |s.entities| < s.cfg.entityCap
    ensures
      var t := Do(s, Step(AddEntity(PLAIN), now));
      Healthy(t) && |t.entities| == |s.entities| + 1 && t.cfg == s.cfg
  {
    hide Handle;
    var t := Do(s, Step(AddEntity(PLAIN), now));
    forall i | 0 <= i < |t.entities| ensures !IsFailed(t, i) && t.entities[i].vitals.latch.None? {
      if i < |s.entities| {
        assert !IsFailed(s, i);
      }
    }
  }

  /** A run that registers any number of entities within the capacity. */
  lemma {:induction false} RegisterMany(cfg: Config, n: nat) returns (calls: seq<Call>)
    requires n <= cfg.entityCap
    ensures OrderlyRun(Initial(cfg), calls)
    ensures
      var s := PerformAll(Initial(cfg), calls);
      Healthy(s) && |s.entities| == n && s.cfg == cfg
  {
    hide Do;
    if n == 0 {
      calls := [];
    } else {
      var front := RegisterMany(cfg, n - 1);
      var call := Single(Step(AddEntity(PLAIN), 0));
      OrderlyExtends(Initial(cfg), front, call);
      OneMoreEntity(PerformAll(Initial(cfg), front), 0);
      calls := front + [call];
    }
  }

  function FaultCall(id: Byte): Call {
    Single(Step(Fault(id, IO_ERROR, 0, Text(""), CRITICAL), 0))
  }

  lemma FaultCallIs(s: State, id: Byte)
    ensures Perform(s, FaultCall(id)) == ReportFault(s, id, IO_ERROR, 0, Text(""), CRITICAL, 0)
  {
    hide Handle, ReportFault;
  }

  lemma OneMoreFault(s: State, id: Byte)
    requires s.supervised && |s.queue| < s.cfg.queueCap
    requires id < |s.entities| && !IsFailed(s, id) && s.entities[id].vitals.latch.None?
    ensures
      var t := ReportFault(s, id, IO_ERROR, 0, Text(""), CRITICAL, 0);
      && |t.queue| == |s.queue| + 1 && t.supervised && t.cfg == s.cfg && |t.entities| == |s.entities|
      && forall i | 0 <= i < |s.entities| && i != id :: t.entities[i] == s.entities[i]
  {
  }

  /** A run after which the first `k` of `n` entities have reported, and the others are untouched. */
  lemma {:induction false} FaultMany(cfg: Config, n: nat, k: nat) returns (calls: seq<Call>)
    requires k <= n <= cfg.entityCap && k <= cfg.queueCap
    ensures OrderlyRun(Initial(cfg), calls)
    ensures
      var s := PerformAll(Initial(cfg), calls);
      && s.supervised && s.cfg == cfg && |s.entities| == n && |s.queue| == k
      && forall i | k <= i < n :: !IsFailed(s, i) && s.entities[i].vitals.latch.None?
  {
    hide Perform, ReportFault;
    if k == 0 {
      calls := RegisterMany(cfg, n);
    } else {
      var front := FaultMany(cfg, n, k - 1);
      var s := PerformAll(Initial(cfg), front);
      assert !IsFailed(s, k - 1);
      OrderlyExtends(Initial(cfg), front, FaultCall(k - 1));
      FaultCallIs(s, k - 1);
      OneMoreFault(s, k - 1);
      calls := front + [FaultCall(k - 1)];
      forall i | k <= i < n
        ensures !IsFailed(PerformAll(Initial(cfg), calls), i)
        ensures PerformAll(Initial(cfg), calls).entities[i].vitals.latch.None?
      {
        assert !IsFailed(s, i);
      }
    }
  }

  /** With fewer slots than entities, some orderly run is answered BUSY and sets the full latch. */
  lemma SomeRunOverflows(cfg: Config) returns (calls: seq<Call>, last: Call)
    requires cfg.entityCap > cfg.queueCap
    ensures last.Single? && last.step.section.Fault? && OrderlyRun(Initial(cfg), calls + [last])
    ensures
      var s, f := PerformAll(Initial(cfg), calls), last.step.section;
      && ReportStatus(s, f.id, f.reason, f.errorCode, f.detail, f.flags, last.step.now) == ErrBusy
      && PerformAll(Initial(cfg), calls + [last]) == s.(full := true)
  {
    hide Perform;
    var cap := cfg.queueCap;
    calls := FaultMany(cfg, cap + 1, cap);
    last := FaultCall(cap);
    var s := PerformAll(Initial(cfg), calls);
    assert !IsFailed(s, cap);
    OrderlyExtends(Initial(cfg), calls, last);
    FaultCallIs(s, cap);
  }

  lemma {:induction false} EntitiesWithinCap(cfg: Config, calls: seq<Call>)
    ensures
      var s := PerformAll(Initial(cfg), calls);
      s.cfg == cfg && |s.entities| <= cfg.entityCap
  {
    hide Perform;
    if calls != [] {
      var front, last := calls[..|calls| - 1], calls[|calls| - 1];
      EntitiesWithinCap(cfg, front);
      CallExtends(PerformAll(Initial(cfg), front), last);
      CallWithinCap(PerformAll(Initial(cfg), front), last);
    }
  }

  lemma CallWithinCap(s: State, call: Call)
    requires |s.entities| <= s.cfg.entityCap
    ensures |Perform(s, call).entities| <= s.cfg.entityCap
  {
    hide Do, Tick, ScanTo, Handle;
    match call
    case Single(step) => StepWithinCap(s, step);
    case TickCall(clock) => TickKeepsQueueBits(s, clock);
    case ScanCall(sampled, at) => ScanKeepsQueue(s, |s.entities|, sampled, at);
    case HandleCall(r, now) => HandleIsBounded(s, r, now);
    case _ =>
  }

  lemma StepWithinCap(s: State, step: Step)
    requires |s.entities| <= s.cfg.entityCap
    ensures |Do(s, step).entities| <= s.cfg.entityCap
  {
    if step.section.Process? {
      hide Do, Handle;
      ProcessIs(s, step);
      HandleIsBounded(s, step.section.r, step.now);
    } else if !TouchesEntities(step.section) {
      hide Do;
      EntitiesUntouched(s, step);
    } else {
      hide Handle, FreshVitals, IsLatched, IsFailed;
    }
  }

  /** Main result: orderly runs never overflow exactly when the queue has a slot per possible entity. */
  lemma CapacityIsExact(cfg: Config)
    ensures (forall calls | OrderlyRun(Initial(cfg), calls) :: !PerformAll(Initial(cfg), calls).full)
            <==> cfg.entityCap <= cfg.queueCap
  {
    hide PerformAll, OrderlyRun;
    if cfg.entityCap <= cfg.queueCap {
      forall calls | OrderlyRun(Initial(cfg), calls) ensures !PerformAll(Initial(cfg), calls).full {
        EntitiesWithinCap(cfg, calls);
        QueueNeverFills(cfg, calls);
      }
    } else {
      var calls, last := SomeRunOverflows(cfg);
      assert PerformAll(Initial(cfg), calls + [last]).full;
    }
  }
}
