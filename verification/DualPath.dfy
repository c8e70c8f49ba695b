/** Which losses count for the dual-path rule: unavailable subsystems on the critical path, and no others. */
module DualPath {
  import opened Types
  import opened Model
  import opened Effects
  import opened Frames
  import opened Budget
  import opened Policies
  import opened Escalation

  function Down(subs: seq<Subsystem>): nat {
    |CriticalDown(subs)|
  }

  // ---------------------------------------------------------------- how the count moves

  /** Nothing is down in an empty table, and registration takes nothing down. */
  lemma FreshTableCountsNothing(s: State, desc: SubsystemDesc)
    ensures Down([]) == 0
    ensures Down(RegisterSubsystem(s, desc).subs) == Down(s.subs)
  {
    assert CriticalDown([]) == {};
    assert CriticalDown(RegisterSubsystem(s, desc).subs) == CriticalDown(s.subs);
  }

  /**
   * A mark moves the count by one, down or up, if it takes an available critical subsystem away or
   * brings an unavailable one back; every other mark leaves it alone.
   */
  lemma MarkMovesCount(subs: seq<Subsystem>, id: Byte, mark: Mark)
    requires id < |subs|
    ensures
      var sub := subs[id];
      Down(Marked(subs, id, mark))
      == if sub.desc.critical && sub.available && mark.MarkDown? then Down(subs) + 1
         else if sub.desc.critical && !sub.available && mark.MarkUp? then Down(subs) - 1
         else Down(subs)
  {
    var sub, i := subs[id], id as nat;
    var before, after := CriticalDown(subs), CriticalDown(Marked(subs, id, mark));
    OthersCountAsBefore(subs, id, mark);
    hide CriticalDown, Marked;
    if sub.desc.critical && sub.available && mark.MarkDown? {
      assert after == before + {i};
    } else if sub.desc.critical && !sub.available && mark.MarkUp? {
      assert before == after + {i};
    } else {
      assert after == before;
    }
  }

  lemma OthersCountAsBefore(subs: seq<Subsystem>, id: Byte, mark: Mark)
    requires id < |subs|
    ensures forall k: nat | k != id :: k in CriticalDown(Marked(subs, id, mark)) <==> k in CriticalDown(subs)
    ensures id in CriticalDown(subs) <==> subs[id].desc.critical && !subs[id].available
    ensures id in CriticalDown(Marked(subs, id, mark)) <==>
              subs[id].desc.critical && (mark.MarkDown? || (mark.MarkDegraded? && !subs[id].available))
  {
  }

  lemma UnknownMarkIsNothing(subs: seq<Subsystem>, id: Byte, mark: Mark)
    requires id >= |subs|
    ensures Marked(subs, id, mark) == subs
  {
  }

  // ---------------------------------------------------------------- losses off the critical path

  /** Every critical subsystem is available. */
  predicate PathsIntact(s: State) {
    forall j | 0 <= j < |s.subs| && s.subs[j].desc.critical :: s.subs[j].available
  }

  lemma IntactCountsNothing(s: State)
    ensures PathsIntact(s) <==> Down(s.subs) == 0
  {
    if PathsIntact(s) {
      assert CriticalDown(s.subs) == {};
    } else {
      var j :| 0 <= j < |s.subs| && s.subs[j].desc.critical && !s.subs[j].available;
      assert j in CriticalDown(s.subs);
    }
  }

  predicate Mild(action: Action) {
    !action.GoSafe? && !action.Reboot?
  }

  /** Neither the entity nor its subsystem asks for SAFE or a reboot. */
  ghost predicate AsksMildly(s: State, desc: EntityDesc) {
    && Mild(desc.onExhausted)
    && (desc.decide.Some? ==> forall e, r, n, w :: Mild(desc.decide.value(e, r, n, w)))
    && (desc.linked < |s.subs| && s.subs[desc.linked].desc.onExhausted.Some? ==>
          forall b, e, r :: Mild(s.subs[desc.linked].desc.onExhausted.value(b, e, r)))
  }

  /** The entity's faults take no critical subsystem away. */
  predicate OffPath(s: State, desc: EntityDesc) {
    desc.linked != NO_SUBSYSTEM && desc.linked < |s.subs| ==> !s.subs[desc.linked].desc.critical
  }

  lemma VerdictIsMild(s: State, slot: Slot, r: Report)
    requires AsksMildly(s, slot.desc)
    ensures Mild(Remaining(slot, Verdict(s.subs, slot, r)))
  {
  }

  /** A fault off the critical path never brings the system to SAFE. */
  lemma OffPathStaysBelowSafe(s: State, r: Report, now: Millis)
    requires r.entity < |s.entities| && SlotWell(s, s.entities[r.entity].slot)
    requires AsksMildly(s, s.entities[r.entity].slot.desc) && OffPath(s, s.entities[r.entity].slot.desc)
    requires PathsIntact(s) && s.cfg.threshold >= 1 && s.mode < SAFE
    ensures PathsIntact(Handle(s, r, now)) && Handle(s, r, now).mode < SAFE
  {
    hide Handle, SlotWell, AsksMildly, CallbackSucceeds, SubsystemAnswer, PolicyAction, CriticalDown, ClassCalls,
         Verdict, Remaining;
    HandleIsBounded(s, r, now);
    if s.entities[r.entity].vitals.latch != Some(r.reason) {
      VerdictIsCarriedOut(s, r, now);
      VerdictIsMild(s, s.entities[r.entity].slot, r);
      IntactCountsNothing(Handle(s, r, now));
    }
  }

  /** Sections that take no critical subsystem away and order nothing above DEGRADED. */
  ghost predicate Harmless(s: State, step: Step) {
    match step.section
    case Process(r) =>
      r.entity < |s.entities| ==>
        AsksMildly(s, s.entities[r.entity].slot.desc) && OffPath(s, s.entities[r.entity].slot.desc)
    case MarkSub(sub, mark) => mark.MarkDown? && sub < |s.subs| ==> !s.subs[sub].desc.critical
    case Ground(raw) => raw < SAFE || raw >= REBOOT_PENDING
    case ForceSafe => false
    case AskReboot(_) => false
    case _ => true
  }

  lemma UnknownStaysBelowSafe(s: State, r: Report, now: Millis)
    requires r.entity >= |s.entities| && s.mode < SAFE
    ensures Handle(s, r, now).subs == s.subs && Handle(s, r, now).mode < SAFE
  {
    hide Recover;
  }

  lemma OtherKeepsPaths(s: State, step: Step)
    requires !step.section.Process? && Harmless(s, step) && PathsIntact(s)
    ensures PathsIntact(Do(s, step))
  {
    if TouchesSubsystems(step.section) {
      hide Handle, SubsystemEvent, CriticalDown;
    } else {
      hide Do;
      SubsystemsUntouched(s, step);
    }
  }

  lemma OtherStaysBelowSafe(s: State, step: Step)
    requires !step.section.Process? && Harmless(s, step)
    requires PathsIntact(s) && s.cfg.threshold >= 1 && s.mode < SAFE
    ensures PathsIntact(Do(s, step)) && Do(s, step).mode < SAFE
  {
    hide Do, CriticalDown;
    OtherKeepsPaths(s, step);
    IntactCountsNothing(s);
    if IsGround(step.section) {
      GroundIsObeyed(s, step);
    } else {
      ModeIsJoin(s, step);
    }
  }

  lemma HarmlessStep(s: State, step: Step)
    requires BudgetsKept(s) && Harmless(s, step)
    requires PathsIntact(s) && s.cfg.threshold >= 1 && s.mode < SAFE
    ensures PathsIntact(Do(s, step)) && Do(s, step).mode < SAFE && Do(s, step).cfg == s.cfg
  {
    hide Do, Handle, SlotWell, AsksMildly, OffPath;
    StepExtends(s, step);
    if step.section.Process? {
      var r := step.section.r;
      ProcessIs(s, step);
      if r.entity < |s.entities| {
        OffPathStaysBelowSafe(s, r, step.now);
      } else {
        UnknownStaysBelowSafe(s, r, step.now);
      }
    } else {
      OtherStaysBelowSafe(s, step);
    }
  }

  /**
   * Main result: losses off the critical path, however many and in whatever order, never bring the
   * system to SAFE. With a threshold of at least 1 only critical losses, hooks and commands can.
   */
  lemma {:induction false} OnlyCriticalLossesEscalate(cfg: Config, steps: seq<Step>)
    requires cfg.threshold >= 1
    requires forall k | 0 <= k < |steps| :: Harmless(Run(Initial(cfg), steps[..k]), steps[k])
    ensures
      var s := Run(Initial(cfg), steps);
      s.cfg == cfg && PathsIntact(s) && s.mode < SAFE
  {
    hide Do, Harmless, BudgetsKept;
    if steps != [] {
      hide PathsIntact;
      var n := |steps| - 1;
      var front := steps[..n];
      forall k | 0 <= k < n ensures Harmless(Run(Initial(cfg), front[..k]), front[k]) {
        assert front[..k] == steps[..k] && front[k] == steps[k];
      }
      OnlyCriticalLossesEscalate(cfg, front);
      BudgetsOverRuns(cfg, front);
      HarmlessStep(Run(Initial(cfg), front), steps[n]);
    }
  }
}
