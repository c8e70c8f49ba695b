/** Restart budgets over whole runs. */
module Budget {
  import opened Types
  import opened Model
  import opened Effects
  import opened Frames

  function Saturated(n: nat): Byte {
    if n < 255 then n else 255
  }

  /** Each 8-bit counter is the number of restart calls of its class, saturated. */
  predicate CountersExact(slot: Slot) {
    slot.restarts == Saturated(slot.calls) && slot.watchdogRestarts == Saturated(slot.watchdogCalls)
  }

  predicate WithinBudget(slot: Slot) {
    && (slot.desc.maxRestarts != UNLIMITED ==> slot.calls <= slot.desc.maxRestarts)
    && (slot.desc.maxWatchdogRestarts != UNLIMITED ==> slot.watchdogCalls <= slot.desc.maxWatchdogRestarts)
  }

  ghost predicate DecideNeverRestarts(desc: EntityDesc) {
    desc.decide.Some? ==>
      forall e, r, n, w :: desc.decide.value(e, r, n, w) != Restart
  }

  ghost predicate ExhaustedNeverRestarts(desc: SubsystemDesc) {
    desc.onExhausted.Some? ==>
      forall b, e, r :: desc.onExhausted.value(b, e, r) != Restart
  }

  /** Neither the entity's hook nor the hook of its linked subsystem ever answers RESTART. */
  ghost predicate BudgetDecides(s: State, desc: EntityDesc) {
    && DecideNeverRestarts(desc)
    && (desc.linked < |s.subs| ==> ExhaustedNeverRestarts(s.subs[desc.linked].desc))
  }

  ghost predicate SlotWell(s: State, slot: Slot) {
    && CountersExact(slot)
    && slot.desc.onExhausted != Restart
    && (BudgetDecides(s, slot.desc) ==> WithinBudget(slot))
  }

  ghost predicate BudgetsKept(s: State) {
    forall i | 0 <= i < |s.entities| :: SlotWell(s, s.entities[i].slot)
  }

  /** One more call keeps the counters exact, and within budget where the default policy asked for it. */
  lemma BumpIsExact(slot: Slot, reason: Reason)
    requires CountersExact(slot)
    ensures CountersExact(BumpRestart(slot, reason))
    ensures DefaultDecide(slot, reason) == Restart && slot.desc.onExhausted != Restart && WithinBudget(slot)
            ==> WithinBudget(BumpRestart(slot, reason))
  {
  }

  /** Where the budget decides, a restart is asked for only by the default policy. */
  lemma RestartIsBudgeted(s: State, slot: Slot, r: Report)
    requires BudgetDecides(s, slot.desc)
    ensures
      var chosen := Decide(slot, r);
      var answer := ExhaustedAnswer(s.subs, slot.desc.linked, r.entity, r);
      var action := if Escalates(slot, chosen) && !answer.NoAction? then answer else chosen;
      action == Restart ==> DefaultDecide(slot, r.reason) == Restart
  {
    hide DefaultDecide;
  }

  /** The slot an effect leaves behind: untouched, or bumped once because the action was a restart. */
  lemma EffectSlot(e: Entity, answer: Action, r: Report, now: Millis)
    ensures
      var chosen := Decide(e.slot, r);
      var action := if Escalates(e.slot, chosen) && !answer.NoAction? then answer else chosen;
      var slot := EffectOf(e, answer, r, now).entity.slot;
      slot == e.slot || (action == Restart && slot == BumpRestart(e.slot, r.reason))
  {
    hide Decide, BumpRestart, RestartSucceeds;
  }

  lemma HandleKeepsBudgets(s: State, r: Report, now: Millis)
    requires BudgetsKept(s)
    ensures BudgetsKept(Handle(s, r, now))
  {
    hide Handle, EffectOf, CountersExact, WithinBudget, Decide, DefaultDecide, Escalates, ExhaustedAnswer,
         DecideNeverRestarts, ExhaustedNeverRestarts, DualPathFloor, MarkedBy, BumpRestart;
    var t := Handle(s, r, now);
    HandleIsBounded(s, r, now);
    HandleJoins(s, r, now);
    forall i | 0 <= i < |t.entities|
      ensures SlotWell(t, t.entities[i].slot)
    {
      assert SlotWell(s, s.entities[i].slot);
      if i == r.entity && !IsLatched(s, r.entity, r.reason) {
        var slot := s.entities[i].slot;
        EffectSlot(s.entities[i], ExhaustedAnswer(s.subs, slot.desc.linked, r.entity, r), r, now);
        BumpIsExact(slot, r.reason);
        BumpKeepsDesc(slot, r.reason);
        if BudgetDecides(s, slot.desc) {
          RestartIsBudgeted(s, slot, r);
        }
      }
    }
  }

  lemma StepKeepsBudgets(s: State, step: Step)
    requires BudgetsKept(s)
    ensures BudgetsKept(Do(s, step))
  {
    hide Handle, Do, WithinBudget, CountersExact, DecideNeverRestarts, ExhaustedNeverRestarts;
    if step.section.Process? {
      ProcessIs(s, step);
      HandleKeepsBudgets(s, step.section.r, step.now);
    } else {
      var t := Do(s, step);
      StepFrame(s, step);
      forall i | 0 <= i < |t.entities|
        ensures SlotWell(t, t.entities[i].slot)
      {
        if i < |s.entities| {
          assert SlotWell(s, s.entities[i].slot);
        } else {
          NewSlotIsWell(s, step, i);
        }
      }
    }
  }

  lemma NewSlotIsWell(s: State, step: Step, i: nat)
    requires !step.section.Process? && |s.entities| <= i < |Do(s, step).entities|
    ensures SlotWell(Do(s, step), Do(s, step).entities[i].slot)
  {
    hide DecideNeverRestarts, ExhaustedNeverRestarts, Handle;
    if !TouchesEntities(step.section) {
      EntitiesUntouched(s, step);
    }
  }

  /** Main result: budgets hold after any run of critical sections. */
  lemma {:induction false} BudgetsOverRuns(cfg: Config, steps: seq<Step>)
    ensures BudgetsKept(Run(Initial(cfg), steps))
  {
    hide Do, SlotWell;
    if steps != [] {
      var front := steps[..|steps| - 1];
      BudgetsOverRuns(cfg, front);
      StepKeepsBudgets(Run(Initial(cfg), front), steps[|steps| - 1]);
    }
  }

  // ---------------------------------------------------------------- exactly when a call is made

  /** Whether recovery will ask for a restart: the entity's policy does, or its subsystem overrides it so. */
  predicate AsksRestart(s: State, r: Report)
    requires r.entity < |s.entities|
  {
    var slot := s.entities[r.entity].slot;
    || Decide(slot, r) == Restart
    || (Escalates(slot, Decide(slot, r)) && ExhaustedAnswer(s.subs, slot.desc.linked, r.entity, r) == Restart)
  }

  /** Handling calls the restart callback once, and counts it in the report's class, exactly when asked. */
  lemma CallIsExact(s: State, r: Report, now: Millis)
    requires r.entity < |s.entities|
    ensures |Handle(s, r, now).entities| == |s.entities|
    ensures
      var slot := s.entities[r.entity].slot;
      Handle(s, r, now).entities[r.entity].slot
      == if !IsLatched(s, r.entity, r.reason) && slot.desc.restart.Some? && AsksRestart(s, r)
         then BumpRestart(slot, r.reason) else slot
  {
    hide Handle, EffectOf, DualPathFloor, MarkedBy, ExhaustedAnswer, BumpRestart, Decide;
    var e := s.entities[r.entity];
    HandleIsBounded(s, r, now);
    HandleJoins(s, r, now);
    EffectSlotExact(e, ExhaustedAnswer(s.subs, e.slot.desc.linked, r.entity, r), r, now);
  }

  lemma EffectSlotExact(e: Entity, answer: Action, r: Report, now: Millis)
    ensures
      var chosen := Decide(e.slot, r);
      EffectOf(e, answer, r, now).entity.slot
      == if e.slot.desc.restart.Some? && (chosen == Restart || (Escalates(e.slot, chosen) && answer == Restart))
         then BumpRestart(e.slot, r.reason) else e.slot
  {
    hide Decide, BumpRestart;
  }

  // ---------------------------------------------------------------- calls beyond the budget

  /** The two classes of restarts have a budget and a count each. */
  function ClassMax(desc: EntityDesc, watchdog: bool): Byte {
    if watchdog then desc.maxWatchdogRestarts else desc.maxRestarts
  }

  function ClassCalls(slot: Slot, watchdog: bool): nat {
    if watchdog then slot.watchdogCalls else slot.calls
  }

  predicate Spent(slot: Slot, watchdog: bool) {
    ClassMax(slot.desc, watchdog) != UNLIMITED && ClassCalls(slot, watchdog) >= ClassMax(slot.desc, watchdog)
  }

  function HookAnswer(slot: Slot, r: Report): Action {
    if slot.desc.decide.Some?
    then slot.desc.decide.value(r.entity, r, slot.restarts, slot.watchdogRestarts)
    else NoAction
  }

  /** What the hook of the linked subsystem says, given its own number, the entity's and the report. */
  function SubsystemAnswer(subs: seq<Subsystem>, slot: Slot, r: Report): Action {
    var linked := slot.desc.linked;
    if linked != NO_SUBSYSTEM && linked < |subs| && subs[linked].desc.onExhausted.Some?
    then subs[linked].desc.onExhausted.value(linked, r.entity, r)
    else NoAction
  }

  /** The entity's hook answers RESTART, or the action left to its subsystem is answered RESTART. */
  predicate HooksRestart(s: State, r: Report)
    requires r.entity < |s.entities|
  {
    var slot := s.entities[r.entity].slot;
    var own := if HookAnswer(slot, r).NoAction? then slot.desc.onExhausted else HookAnswer(slot, r);
    HookAnswer(slot, r) == Restart || (own != NoAction && SubsystemAnswer(s.subs, slot, r) == Restart)
  }

  /** With the budget of the report's class spent, a restart is asked for exactly when a hook answers so. */
  lemma SpentNeedsHook(s: State, r: Report)
    requires r.entity < |s.entities| && SlotWell(s, s.entities[r.entity].slot)
    requires Spent(s.entities[r.entity].slot, r.reason == WATCHDOG)
    ensures AsksRestart(s, r) <==> HooksRestart(s, r)
  {
    hide BudgetDecides, WithinBudget;
  }

  /** One more call counts in the class of its reason only. */
  lemma BumpSpends(slot: Slot, reason: Reason, watchdog: bool)
    ensures
      ClassCalls(BumpRestart(slot, reason), watchdog)
      == ClassCalls(slot, watchdog) + if (reason == WATCHDOG) == watchdog then 1 else 0
  {
  }

  predicate Exceeds(s: State, id: Byte, watchdog: bool) {
    && id < |s.entities|
    && ClassMax(s.entities[id].slot.desc, watchdog) != UNLIMITED
    && ClassCalls(s.entities[id].slot, watchdog) > ClassMax(s.entities[id].slot.desc, watchdog)
  }

  /**
   * The section handles a report that is not suppressed, on an entity with a callback and a spent
   * budget, and a hook answers RESTART.
   */
  predicate Overspends(s: State, step: Step, id: Byte, watchdog: bool) {
    && step.section.Process? && step.section.r.entity == id
    && (step.section.r.reason == WATCHDOG) == watchdog
    && id < |s.entities| && !IsLatched(s, id, step.section.r.reason)
    && s.entities[id].slot.desc.restart.Some?
    && Spent(s.entities[id].slot, watchdog)
    && HooksRestart(s, step.section.r)
  }

  lemma ProcessExceeds(s: State, step: Step, id: Byte, watchdog: bool)
    requires BudgetsKept(s) && step.section.Process?
    ensures Exceeds(Do(s, step), id, watchdog) <==> Exceeds(s, id, watchdog) || Overspends(s, step, id, watchdog)
  {
    hide Do, Handle, BumpRestart, HooksRestart, AsksRestart, SlotWell;
    var r := step.section.r;
    ProcessIs(s, step);
    HandleIsBounded(s, r, step.now);
    if r.entity < |s.entities| {
      var slot := s.entities[r.entity].slot;
      CallIsExact(s, r, step.now);
      BumpSpends(slot, r.reason, watchdog);
      BumpKeepsDesc(slot, r.reason);
      if Spent(slot, r.reason == WATCHDOG) {
        SpentNeedsHook(s, r);
      }
    }
  }

  lemma NewSlotIsUnused(s: State, step: Step, i: nat)
    requires !step.section.Process? && |s.entities| <= i < |Do(s, step).entities|
    ensures Do(s, step).entities[i].slot.calls == Do(s, step).entities[i].slot.watchdogCalls == 0
  {
    hide Handle;
    if !TouchesEntities(step.section) {
      EntitiesUntouched(s, step);
    }
  }

  lemma StepExceeds(s: State, step: Step, id: Byte, watchdog: bool)
    requires BudgetsKept(s)
    ensures Exceeds(Do(s, step), id, watchdog) <==> Exceeds(s, id, watchdog) || Overspends(s, step, id, watchdog)
  {
    hide Do, BudgetsKept, HooksRestart;
    if step.section.Process? {
      ProcessExceeds(s, step, id, watchdog);
    } else {
      StepFrame(s, step);
      if |s.entities| <= id < |Do(s, step).entities| {
        NewSlotIsUnused(s, step, id);
      }
    }
  }

  /**
   * Main result: after any run, an entity has had more restart calls than its budget if and only if
   * some section handled a report on it with the budget spent and a hook answering RESTART.
   */
  lemma {:induction false} BudgetExceededExactly(cfg: Config, steps: seq<Step>, id: Byte, watchdog: bool)
    ensures Exceeds(Run(Initial(cfg), steps), id, watchdog)
            <==> exists k :: 0 <= k < |steps|
                             && Overspends(Run(Initial(cfg), steps[..k]), steps[k], id, watchdog)
  {
    hide Do, BudgetsKept, Overspends;
    if steps != [] {
      var n := |steps| - 1;
      var front, s := steps[..n], Run(Initial(cfg), steps[..n]);
      BudgetExceededExactly(cfg, front, id, watchdog);
      BudgetsOverRuns(cfg, front);
      StepExceeds(s, steps[n], id, watchdog);
      if Exceeds(s, id, watchdog) {
        var k :| 0 <= k < |front| && Overspends(Run(Initial(cfg), front[..k]), front[k], id, watchdog);
        assert steps[..k] == front[..k] && steps[k] == front[k];
      }
      if k :| 0 <= k < n && Overspends(Run(Initial(cfg), steps[..k]), steps[k], id, watchdog) {
        assert steps[..k] == front[..k] && steps[k] == front[k];
      }
    }
  }

  /** Some run does exceed it, in either class: one entity, no budget, a hook that answers RESTART. */
  lemma SomeRunOverspends(cfg: Config, watchdog: bool) returns (steps: seq<Step>)
    requires cfg.entityCap >= 1
    ensures Exceeds(Run(Initial(cfg), steps), 0, watchdog)
  {
    hide Handle, ExhaustedAnswer, DefaultDecide, BudgetsKept;
    var hook: DecideHook := (_, _, _, _) => Restart;
    var desc := EntityDesc("", 0, 0, NoAction, NO_SUBSYSTEM, Some((_: nat) => true), Some(hook));
    var r := Report(0, if watchdog then WATCHDOG else IO_ERROR, 0, Text(""), 0, 0);
    var first, second := Step(AddEntity(desc), 0), Step(Process(r), 0);
    steps := [first, second];
    var s := Do(Initial(cfg), first);
    assert Run(Initial(cfg), [first]) == s by {
      hide Do;
      assert [first][..0] == [];
    }
    assert s.entities == [Entity(Slot(desc, 0, 0, 0, 0, 0), FreshVitals(None, 0))];
    assert Overspends(s, second, 0, watchdog);
    hide Do;
    assert steps[..1] == [first];
    BudgetsOverRuns(cfg, [first]);
    StepExceeds(s, second, 0, watchdog);
  }
}
