/** The restart budget as a ledger: what the log says was raised is what the callback was called for. */
module Ledger {
  import opened Types
  import opened Model
  import opened Effects
  import opened Frames
  import opened Replay
  import opened Isolation
  import opened Budget
  import opened Policies
  import opened Announcements

  /** The event raises a fault of the class on the entity. */
  predicate Raises(e: Event, id: nat, watchdog: bool) {
    && e.level.EntityLevel? && e.phase.Raised? && !e.kind.RestartEvent?
    && e.entity == id && (e.reason == WATCHDOG) == watchdog
  }

  /** How many faults of the class the events from position `from` on raise on the entity. */
  function Raisings(log: seq<Event>, from: nat, id: nat, watchdog: bool): nat {
    if |log| <= from then 0
    else
      var last := |log| - 1;
      Raisings(log[..last], from, id, watchdog) + if Raises(log[last], id, watchdog) then 1 else 0
  }

  lemma {:induction false} QuietEventsRaiseNothing(a: seq<Event>, b: seq<Event>, from: nat, id: nat, watchdog: bool)
    requires a <= b && from <= |a|
    requires forall k | |a| <= k < |b| :: !Raises(b[k], id, watchdog)
    ensures Raisings(b, from, id, watchdog) == Raisings(a, from, id, watchdog)
    decreases |b|
  {
    hide Raises;
    if |b| == |a| {
      assert a == b;
    } else {
      QuietEventsRaiseNothing(a, b[..|b| - 1], from, id, watchdog);
    }
  }

  lemma FollowersRaiseNothing(a: seq<Event>, b: seq<Event>, c: Context, from: nat, id: nat, watchdog: bool)
    requires Adds(a, b, c) && from <= |a|
    ensures Raisings(b, from, id, watchdog) == Raisings(a, from, id, watchdog)
  {
    hide Raisings;
    forall k | |a| <= k < |b| ensures !Raises(b[k], id, watchdog) {
      assert Follows(b[k], c);
    }
    QuietEventsRaiseNothing(a, b, from, id, watchdog);
  }

  lemma OneRaising(log: seq<Event>, e: Event, from: nat, id: nat, watchdog: bool)
    requires from <= |log|
    ensures Raisings(log + [e], from, id, watchdog)
            == Raisings(log, from, id, watchdog) + if Raises(e, id, watchdog) then 1 else 0
  {
    hide Raises;
    assert (log + [e])[..|log|] == log;
  }

  /** Handling raises its own report, once, and nothing else. */
  lemma HandlingRaisesOnce(s: State, r: Report, now: Millis, from: nat, id: nat, watchdog: bool)
    requires BudgetsKept(s) && from <= |s.log|
    ensures
      Raisings(Handle(s, r, now).log, from, id, watchdog)
      == Raisings(s.log, from, id, watchdog)
         + if !IsLatched(s, r.entity, r.reason) && r.entity == id && (r.reason == WATCHDOG) == watchdog then 1 else 0
  {
    hide Handle, Raisings, Adds, SlotWell, Overruled;
    var log, n := Handle(s, r, now).log, |s.log|;
    if IsLatched(s, r.entity, r.reason) {
      LatchedIsSuppressed(s, r, now);
    } else {
      var m := n + 1;
      if r.entity < |s.entities| {
        var e := s.entities[r.entity];
        HandlingTells(s, r, now);
        m := n + if Overruled(s.subs, e.slot, r) then 2 else 1;
        FollowersRaiseNothing(log[..m], log, Context(r, now, e.slot.desc.name, e.slot.desc.linked), from, id, watchdog);
      } else {
        UnknownTells(s, r, now);
        FollowersRaiseNothing(log[..m], log, Context(r, now, "", NO_SUBSYSTEM), from, id, watchdog);
      }
      assert log[..n] == s.log && log[..n + 1] == s.log + [log[n]];
      OneRaising(s.log, log[n], from, id, watchdog);
      if m == n + 2 {
        assert log[..m] == log[..n + 1] + [log[n + 1]];
        OneRaising(log[..n + 1], log[n + 1], from, id, watchdog);
      }
    }
  }

  lemma OthersRaiseNothing(s: State, step: Step, from: nat, id: nat, watchdog: bool)
    requires !step.section.Process? && from <= |s.log|
    ensures Raisings(Do(s, step).log, from, id, watchdog) == Raisings(s.log, from, id, watchdog)
  {
    hide Do, Raisings, Speaks;
    SectionTells(s, step);
    var log := Do(s, step).log;
    if Speaks(s, step.section) {
      assert log == s.log + [log[|s.log|]];
      OneRaising(s.log, log[|s.log|], from, id, watchdog);
    }
  }

  // ---------------------------------------------------------------- the ledger

  /** The budgets alone decide: the entity's hook says nothing, and its subsystem never answers RESTART. */
  ghost predicate BudgetAlone(s: State, desc: EntityDesc) {
    && desc.restart.Some?
    && (desc.decide.Some? ==> forall e, r, n, w :: desc.decide.value(e, r, n, w) == NoAction)
    && (desc.linked < |s.subs| ==> ExhaustedNeverRestarts(s.subs[desc.linked].desc))
  }

  /** As many calls as faults raised, up to the budget. */
  predicate Settles(calls: nat, raised: nat, max: Byte) {
    calls == if max != UNLIMITED && raised > max then max else raised
  }

  ghost predicate SlotSettles(s: State, id: nat)
    requires id < |s.entities|
  {
    var slot := s.entities[id].slot;
    && slot.since <= |s.log|
    && (BudgetAlone(s, slot.desc) ==>
          forall watchdog ::
            Settles(ClassCalls(slot, watchdog), Raisings(s.log, slot.since, id, watchdog), ClassMax(slot.desc, watchdog)))
  }

  ghost predicate Settled(s: State) {
    forall id | 0 <= id < |s.entities| :: SlotSettles(s, id)
  }

  lemma AloneEarlier(s: State, t: State, desc: EntityDesc)
    requires Extends(s, t) && BudgetAlone(t, desc)
    ensures BudgetAlone(s, desc)
  {
  }

  lemma SilentHook(s: State, slot: Slot, r: Report)
    requires BudgetAlone(s, slot.desc)
    ensures HookIsSilent(slot, r) && SubsystemAnswer(s.subs, slot, r) != Restart
  {
  }

  lemma HandledSettles(s: State, r: Report, now: Millis)
    requires BudgetsKept(s) && r.entity < |s.entities| && SlotSettles(s, r.entity)
    requires !IsLatched(s, r.entity, r.reason)
    ensures |Handle(s, r, now).entities| == |s.entities| && SlotSettles(Handle(s, r, now), r.entity)
  {
    hide Handle, Raisings, BudgetAlone, SubsystemAnswer, SlotWell, ClassCalls, ClassMax, HookIsSilent;
    var t, slot := Handle(s, r, now), s.entities[r.entity].slot;
    HandleIsBounded(s, r, now);
    HandleGrowsLog(s, r, now);
    if BudgetAlone(t, slot.desc) {
      AloneEarlier(s, t, slot.desc);
      SilentHook(s, slot, r);
      assert slot.desc.restart.Some? by { AloneHasCallback(s, slot.desc); }
      assert SlotWell(s, slot);
      BudgetIsUsed(s, r, now);
      forall watchdog
        ensures Settles(ClassCalls(t.entities[r.entity].slot, watchdog),
                        Raisings(t.log, slot.since, r.entity, watchdog), ClassMax(slot.desc, watchdog))
      {
        HandlingRaisesOnce(s, r, now, slot.since, r.entity, watchdog);
        assert Settles(ClassCalls(slot, watchdog), Raisings(s.log, slot.since, r.entity, watchdog),
                       ClassMax(slot.desc, watchdog));
      }
    }
  }

  lemma AloneHasCallback(s: State, desc: EntityDesc)
    requires BudgetAlone(s, desc)
    ensures desc.restart.Some?
  {
  }

  /** Nothing raised on the entity and nothing called for it. */
  lemma SettlesOn(s: State, t: State, id: nat)
    requires id < |s.entities| && SlotSettles(s, id) && Extends(s, t) && |s.log| <= |t.log|
    requires t.entities[id].slot == s.entities[id].slot
    requires forall watchdog ::
               Raisings(t.log, s.entities[id].slot.since, id, watchdog)
               == Raisings(s.log, s.entities[id].slot.since, id, watchdog)
    ensures SlotSettles(t, id)
  {
    hide Raisings, BudgetAlone, ClassCalls, ClassMax;
    var desc := s.entities[id].slot.desc;
    if BudgetAlone(t, desc) {
      AloneEarlier(s, t, desc);
    }
  }

  lemma ProcessSettles(s: State, r: Report, now: Millis)
    requires BudgetsKept(s) && Settled(s)
    ensures Settled(Handle(s, r, now))
  {
    hide Handle, Raisings, SlotSettles, BudgetsKept;
    var t := Handle(s, r, now);
    HandleIsBounded(s, r, now);
    HandleGrowsLog(s, r, now);
    forall id | 0 <= id < |t.entities| ensures SlotSettles(t, id) {
      if id == r.entity && !IsLatched(s, r.entity, r.reason) {
        HandledSettles(s, r, now);
      } else {
        var since := s.entities[id].slot.since;
        assert since <= |s.log| by { SinceIsPast(s, id); }
        forall watchdog ensures Raisings(t.log, since, id, watchdog) == Raisings(s.log, since, id, watchdog) {
          HandlingRaisesOnce(s, r, now, since, id, watchdog);
        }
        SettlesOn(s, t, id);
      }
    }
  }

  lemma SinceIsPast(s: State, id: nat)
    requires id < |s.entities| && SlotSettles(s, id)
    ensures s.entities[id].slot.since <= |s.log|
  {
  }

  lemma OtherSettles(s: State, step: Step)
    requires Settled(s) && !step.section.Process?
    ensures Settled(Do(s, step))
  {
    hide Do, Raisings, SlotSettles;
    var t := Do(s, step);
    StepFrame(s, step);
    StepGrowsLog(s, step);
    forall id | 0 <= id < |t.entities| ensures SlotSettles(t, id) {
      if id < |s.entities| {
        var since := s.entities[id].slot.since;
        assert since <= |s.log| by { SinceIsPast(s, id); }
        forall watchdog ensures Raisings(t.log, since, id, watchdog) == Raisings(s.log, since, id, watchdog) {
          OthersRaiseNothing(s, step, since, id, watchdog);
        }
        SettlesOn(s, t, id);
      } else {
        NewSlotIsUnused(s, step, id);
        NewSlotSettles(s, step, id);
      }
    }
  }

  lemma NewSlotSettles(s: State, step: Step, id: nat)
    requires !step.section.Process? && |s.entities| <= id < |Do(s, step).entities|
    requires Do(s, step).entities[id].slot.calls == Do(s, step).entities[id].slot.watchdogCalls == 0
    ensures SlotSettles(Do(s, step), id)
  {
    hide Handle, BudgetAlone;
    if !TouchesEntities(step.section) {
      EntitiesUntouched(s, step);
    }
  }

  /**
   * Main result: where the budgets alone decide, an entity has had, after any run, exactly as many
   * restart calls of each class as faults of that class were raised on it, up to the budget.
   */
  lemma {:induction false} RestartsAreAccounted(cfg: Config, steps: seq<Step>)
    ensures Settled(Run(Initial(cfg), steps))
  {
    hide Do, SlotSettles, BudgetsKept;
    if steps != [] {
      hide Settled;
      var front, last := steps[..|steps| - 1], steps[|steps| - 1];
      var s := Run(Initial(cfg), front);
      RestartsAreAccounted(cfg, front);
      BudgetsOverRuns(cfg, front);
      if last.section.Process? {
        ProcessIs(s, last);
        ProcessSettles(s, last.section.r, last.now);
      } else {
        OtherSettles(s, last);
      }
    }
  }
}
