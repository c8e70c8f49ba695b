/** No fault is lost, however workers, ground and any number of supervisors interleave. */
module NoLoss {
  import opened Types
  import opened Model
  import opened Frames
  import opened Supervision
  import opened Partition
  import opened Interleaving

  predicate Holds(pc: Pc, id: nat) {
    (pc.Handling? || pc.Admitted?) && pc.r.entity == id
  }

  /** Some thread has taken a report on the entity out of the queue and not handled it yet. */
  predicate InHand(pcs: map<nat, Pc>, id: nat) {
    exists thread | thread in pcs :: Holds(pcs[thread], id)
  }

  predicate Accounted(s: State, pcs: map<nat, Pc>, id: nat)
    requires id < |s.entities|
  {
    IsFailed(s, id) ==> s.entities[id].vitals.latch.Some? || Queued(s, id) || InHand(pcs, id)
  }

  /** Supervision is on, and every failed entity's fault is latched, queued or in some thread's hand. */
  predicate NothingLost(sys: System) {
    && sys.state.supervised
    && forall id | 0 <= id < |sys.state.entities| :: Accounted(sys.state, sys.pcs, id)
  }

  /** Ground does not bypass supervision, and nobody declares a failure by setting health. */
  predicate Tame(move: Move) {
    move.Atomically? ==>
      && move.step.section != Supervise(false)
      && !(move.step.section.HealthSet? && move.step.section.health.HealthFailed?)
  }

  // ---------------------------------------------------------------- sections of a single call

  lemma FaultAccounts(s: State, pcs: map<nat, Pc>, step: Step)
    requires NothingLost(System(s, pcs)) && step.section.Fault?
    ensures NothingLost(System(Do(s, step), pcs))
  {
    hide Handle, PlainEvent, SubsystemEvent, NotedEvent, CriticalDown, Marked, FreshVitals, InHand;
    var f := step.section;
    var t := Do(s, step);
    var r := Report(f.id, f.reason, f.errorCode, f.detail, step.now, f.flags);
    forall id | 0 <= id < |t.entities| ensures Accounted(t, pcs, id) {
      assert Accounted(s, pcs, id);
      if t.queue == s.queue + [r] {
        assert t.queue[|s.queue|] == r;
        if Queued(s, id) {
          var k :| 0 <= k < |s.queue| && s.queue[k].entity == id;
          assert t.queue[k].entity == id;
        }
      } else {
        assert t.queue == s.queue;
      }
    }
  }

  lemma HealthAccounts(s: State, pcs: map<nat, Pc>, step: AtomicStep)
    requires NothingLost(System(s, pcs)) && Tame(Atomically(step))
    requires step.section.AddEntity? || step.section.Beat? || step.section.HealthSet? || step.section.HealthReset?
    ensures NothingLost(System(Do(s, step), pcs))
  {
    hide Handle, PlainEvent, SubsystemEvent, NotedEvent, CriticalDown, Marked, InHand;
    var t := Do(s, step);
    assert t.queue == s.queue;
    forall id | 0 <= id < |t.entities| ensures Accounted(t, pcs, id) {
      if id < |s.entities| {
        assert Accounted(s, pcs, id);
        assert Queued(t, id) == Queued(s, id);
      }
    }
  }

  lemma QueueUntouched(s: State, step: Step)
    requires s.supervised && step.section != Supervise(false)
    requires !step.section.Fault? && !step.section.Enqueue? && !step.section.Dequeue?
    ensures Do(s, step).queue == s.queue && Do(s, step).supervised
  {
    hide Handle, PlainEvent, SubsystemEvent, NotedEvent, CriticalDown, Marked, FreshVitals;
    if step.section.Process? {
      HandleIsBounded(s, step.section.r, step.now);
    }
  }

  lemma AtomicAccounts(s: State, pcs: map<nat, Pc>, step: AtomicStep)
    requires NothingLost(System(s, pcs)) && Tame(Atomically(step))
    ensures NothingLost(System(Do(s, step), pcs))
  {
    hide Do, InHand;
    if step.section.Fault? {
      FaultAccounts(s, pcs, step);
    } else if step.section.AddEntity? || step.section.Beat? || step.section.HealthSet? || step.section.HealthReset? {
      HealthAccounts(s, pcs, step);
    } else {
      EntitiesUntouched(s, step);
      QueueUntouched(s, step);
      forall id | 0 <= id < |s.entities| ensures Accounted(Do(s, step), pcs, id) {
        assert Accounted(s, pcs, id);
        assert Queued(Do(s, step), id) == Queued(s, id);
      }
    }
  }

  // ---------------------------------------------------------------- threads moving on

  /** Moving a thread that holds nothing on the entity leaves the other hands as they are. */
  lemma HandsKept(pcs: map<nat, Pc>, thread: nat, pc: Pc, id: nat)
    requires InHand(pcs, id)
    requires thread in pcs && Holds(pcs[thread], id) ==> Holds(pc, id)
    ensures InHand(pcs[thread := pc], id)
  {
    var holder :| holder in pcs && Holds(pcs[holder], id);
    var after := pcs[thread := pc];
    assert holder in after && Holds(after[holder], id);
  }

  lemma ProcessAccounts(s: State, pcs: map<nat, Pc>, thread: nat, now: Millis)
    requires NothingLost(System(s, pcs)) && thread in pcs && pcs[thread].Admitted?
    ensures NothingLost(System(Handle(s, pcs[thread].r, now), pcs[thread := After(pcs[thread].next)]))
  {
    hide Handle, InHand, FreshVitals;
    var r, after := pcs[thread].r, pcs[thread := After(pcs[thread].next)];
    var t := Handle(s, r, now);
    HandleIsBounded(s, r, now);
    if r.entity < |s.entities| && !IsLatched(s, r.entity, r.reason) {
      HandlingOutcome(s, r, now);
      FreshIsOk(now);
    }
    forall id | 0 <= id < |t.entities| ensures Accounted(t, after, id) {
      if id != r.entity {
        assert Accounted(s, pcs, id);
        assert Queued(t, id) == Queued(s, id);
        if InHand(pcs, id) {
          HandsKept(pcs, thread, After(pcs[thread].next), id);
        }
      }
    }
  }

  lemma DequeueAccounts(s: State, pcs: map<nat, Pc>, thread: nat)
    requires NothingLost(System(s, pcs)) && thread in pcs && pcs[thread].Draining? && s.queue != []
    ensures NothingLost(System(Get(s), pcs[thread := Handling(s.queue[0], BackToDrain)]))
  {
    hide InHand;
    var pc := Handling(s.queue[0], BackToDrain);
    var after, t := pcs[thread := pc], Get(s);
    forall id | 0 <= id < |t.entities| ensures Accounted(t, after, id) {
      assert Accounted(s, pcs, id);
      if s.queue[0].entity == id {
        assert InHand(after, id) by { HandTaken(pcs, thread, pc, id); }
      } else {
        if Queued(s, id) {
          var k :| 0 <= k < |s.queue| && s.queue[k].entity == id;
          assert t.queue[k - 1].entity == id;
        }
        if InHand(pcs, id) {
          HandsKept(pcs, thread, pc, id);
        }
      }
    }
  }

  lemma HandTaken(pcs: map<nat, Pc>, thread: nat, pc: Pc, id: nat)
    requires Holds(pc, id)
    ensures InHand(pcs[thread := pc], id)
  {
    var after := pcs[thread := pc];
    assert thread in after && Holds(after[thread], id);
  }

  lemma EnqueueAccounts(s: State, pcs: map<nat, Pc>, thread: nat, r: Report)
    requires NothingLost(System(s, pcs)) && thread in pcs && pcs[thread].Accepted?
    ensures NothingLost(System(Put(s, r), pcs[thread := Away]))
  {
    hide InHand;
    var t, after := Put(s, r), pcs[thread := Away];
    forall id | 0 <= id < |t.entities| ensures Accounted(t, after, id) {
      assert Accounted(s, pcs, id);
      if Queued(s, id) {
        var k :| 0 <= k < |s.queue| && s.queue[k].entity == id;
        assert t.queue[k].entity == id;
      }
      if InHand(pcs, id) {
        HandsKept(pcs, thread, Away, id);
      }
    }
  }

  /** A section that only reads, or only notes a watchdog miss, moves no fault. */
  lemma ReadAccounts(s: State, t: State, pcs: map<nat, Pc>, thread: nat, pc: Pc)
    requires NothingLost(System(s, pcs))
    requires t.entities == s.entities && t.queue == s.queue && t.supervised == s.supervised
    requires forall id :: thread in pcs && Holds(pcs[thread], id) ==> Holds(pc, id)
    ensures NothingLost(System(t, pcs[thread := pc]))
  {
    hide InHand;
    var after := pcs[thread := pc];
    forall id | 0 <= id < |t.entities| ensures Accounted(t, after, id) {
      assert Accounted(s, pcs, id);
      assert Queued(t, id) == Queued(s, id);
      if InHand(pcs, id) {
        HandsKept(pcs, thread, pc, id);
      }
    }
  }

  lemma GoAccounts(sys: System, thread: nat, now: Millis)
    requires NothingLost(sys) && thread in sys.pcs
    ensures NothingLost(Moved(sys, Go(thread, now)))
  {
    hide NothingLost, Handle, Holds, Put, Advance;
    var s, pcs := sys.state, sys.pcs;
    var pc := pcs[thread];
    assert s.supervised by { LossFreeIsSupervised(sys); }
    AdvanceIs(s, pc, now);
    if pc.Admitted? {
      ProcessAccounts(s, pcs, thread, now);
    } else if pc.Draining? && s.queue != [] {
      DequeueAccounts(s, pcs, thread);
    } else if pc.Accepted? {
      EnqueueAccounts(s, pcs, thread, pc.r);
    } else {
      HoldsIsKept(s, pc, now);
      ReadAccounts(s, Advance(s, pc, now), pcs, thread, NextPc(s, pc, now));
    }
  }

  lemma LossFreeIsSupervised(sys: System)
    requires NothingLost(sys)
    ensures sys.state.supervised
  {
  }

  lemma HoldsIsKept(s: State, pc: Pc, now: Millis)
    requires s.supervised && !pc.Admitted?
    ensures forall id :: Holds(pc, id) ==> Holds(NextPc(s, pc, now), id)
  {
  }

  lemma MoveAccounts(sys: System, move: Move)
    requires NothingLost(sys) && Enabled(sys, move) && Tame(move)
    ensures NothingLost(Moved(sys, move))
  {
    hide NothingLost, Do, NextSection, NextPc, Tame;
    match move
    case Go(thread, now) => GoAccounts(sys, thread, now);
    case Enter(thread, pc) =>
      ReadAccounts(sys.state, sys.state, sys.pcs, thread, pc);
    case Atomically(step) => AtomicAccounts(sys.state, sys.pcs, step);
  }

  /** Main result: in every system of every tame history, no fault is lost. */
  lemma {:induction false} NoFaultLost(trace: seq<System>, moves: seq<Move>)
    requires History(trace, moves) && NothingLost(trace[0])
    requires forall k | 0 <= k < |moves| :: Tame(moves[k])
    ensures forall k | 0 <= k < |trace| :: NothingLost(trace[k])
    decreases |moves|
  {
    hide NothingLost, Moved, Enabled, Tame;
    if moves != [] {
      var m := |moves| - 1;
      NoFaultLost(trace[..m + 1], moves[..m]);
      assert trace[m] == trace[..m + 1][m];
      MoveAccounts(trace[m], moves[m]);
      forall k | 0 <= k < |trace| ensures NothingLost(trace[k]) {
        if k <= m {
          assert trace[k] == trace[..m + 1][k];
        }
      }
    }
  }
}
