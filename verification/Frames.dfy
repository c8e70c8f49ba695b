/** What a critical section may change, and what it never touches. */
module Frames {
  import opened Types
  import opened Model
  import opened Effects

  function Calls(slot: Slot): nat {
    slot.calls + slot.watchdogCalls
  }

  /** Registered things stay registered, with the descriptors they were registered with. */
  ghost predicate Extends(s: State, t: State) {
    && t.cfg == s.cfg
    && |s.entities| <= |t.entities|
    && (forall i | 0 <= i < |s.entities| ::
          t.entities[i].slot.desc == s.entities[i].slot.desc && t.entities[i].slot.since == s.entities[i].slot.since)
    && |s.subs| <= |t.subs|
    && (forall j | 0 <= j < |s.subs| ::
          t.subs[j].desc == s.subs[j].desc && t.subs[j].since == s.subs[j].since)
  }

  ghost predicate SlotsKept(s: State, t: State) {
    && |s.entities| <= |t.entities|
    && forall i | 0 <= i < |s.entities| :: t.entities[i].slot == s.entities[i].slot
  }

  lemma EffectBounds(e: Entity, answer: Action, r: Report, now: Millis)
    ensures
      var f := EffectOf(e, answer, r, now);
      && f.mark != Some(MarkUp)
      && |f.asks| <= 1
      && f.entity.slot.desc == e.slot.desc && f.entity.slot.since == e.slot.since
      && Calls(e.slot) <= Calls(f.entity.slot) <= Calls(e.slot) + 1
  {
    hide Decide, RestartSucceeds;
  }

  /**
   * One handled report makes at most one restart call and asks for at most one reboot; it touches its
   * own entity only and at most the subsystem linked to it; a report equal to the latch is a stutter.
   */
  lemma HandleIsBounded(s: State, r: Report, now: Millis)
    ensures
      var t := Handle(s, r, now);
      && Extends(s, t) && |t.entities| == |s.entities| && |t.subs| == |s.subs|
      && (t.queue, t.full, t.supervised, t.accepted, t.noticed)
         == (s.queue, s.full, s.supervised, s.accepted, s.noticed)
      && (forall i | 0 <= i < |s.entities| && i != r.entity :: t.entities[i] == s.entities[i])
      && (r.entity < |s.entities| ==>
            Calls(s.entities[r.entity].slot) <= Calls(t.entities[r.entity].slot)
            <= Calls(s.entities[r.entity].slot) + 1)
      && (forall j | 0 <= j < |s.subs| && !(r.entity < |s.entities| && s.entities[r.entity].slot.desc.linked == j) ::
            t.subs[j] == s.subs[j])
      && s.reboots <= t.reboots && |t.reboots| <= |s.reboots| + 1
      && s.mode <= t.mode
      && t.handled == (if IsLatched(s, r.entity, r.reason) then s.handled else s.handled + multiset{r})
      && (IsLatched(s, r.entity, r.reason) ==> t == s)
  {
    hide Handle, EffectOf, DualPathFloor, ExhaustedAnswer;
    HandleJoins(s, r, now);
    if r.entity < |s.entities| && !IsLatched(s, r.entity, r.reason) {
      var e := s.entities[r.entity];
      EffectBounds(e, ExhaustedAnswer(s.subs, e.slot.desc.linked, r.entity, r), r, now);
    }
    LatchedIsSuppressed(s, r, now);
  }

  lemma LatchedIsSuppressed(s: State, r: Report, now: Millis)
    ensures IsLatched(s, r.entity, r.reason) ==> Handle(s, r, now) == s
  {
    hide Recover, Announce, EnterDegraded;
  }

  predicate TouchesEntities(section: Section) {
    || section.Process? || section.AddEntity? || section.Fault?
    || section.Beat? || section.HealthSet? || section.HealthReset?
  }

  predicate TouchesSubsystems(section: Section) {
    section.Process? || section.AddSubsystem? || section.MarkSub?
  }

  lemma EntitiesUntouched(s: State, step: Step)
    requires !TouchesEntities(step.section)
    ensures Do(s, step).entities == s.entities
  {
    hide Handle, PlainEvent, SubsystemEvent, NotedEvent, CriticalDown, Marked;
  }

  lemma SubsystemsUntouched(s: State, step: Step)
    requires !TouchesSubsystems(step.section)
    ensures Do(s, step).subs == s.subs
  {
    hide Handle, PlainEvent, SubsystemEvent, NotedEvent, CriticalDown, FreshVitals;
  }

  lemma ConfigUntouched(s: State, step: Step)
    requires !step.section.Process?
    ensures Do(s, step).cfg == s.cfg
  {
    hide Handle, PlainEvent, SubsystemEvent, NotedEvent, CriticalDown, FreshVitals, Marked;
  }

  lemma EntitySectionFrame(s: State, step: Step)
    requires TouchesEntities(step.section) && !step.section.Process?
    ensures SlotsKept(s, Do(s, step))
  {
    hide Handle, PlainEvent, SubsystemEvent, NotedEvent, CriticalDown, FreshVitals;
  }

  /** No section but the processing of a report moves an entity's restart counters. */
  lemma StepFrame(s: State, step: Step)
    requires !step.section.Process?
    ensures Extends(s, Do(s, step)) && SlotsKept(s, Do(s, step))
  {
    hide Do;
    ConfigUntouched(s, step);
    if TouchesEntities(step.section) {
      EntitySectionFrame(s, step);
      SubsystemsUntouched(s, step);
    } else {
      EntitiesUntouched(s, step);
    }
    SubsystemSectionFrame(s, step);
  }

  lemma SubsystemSectionFrame(s: State, step: Step)
    requires !step.section.Process?
    ensures |s.subs| <= |Do(s, step).subs|
    ensures forall j | 0 <= j < |s.subs| ::
              Do(s, step).subs[j].desc == s.subs[j].desc && Do(s, step).subs[j].since == s.subs[j].since
  {
    if TouchesSubsystems(step.section) {
    } else {
      SubsystemsUntouched(s, step);
    }
  }

  lemma StepExtends(s: State, step: Step)
    ensures Extends(s, Do(s, step))
  {
    hide Handle, Do;
    if step.section.Process? {
      ProcessIs(s, step);
      HandleIsBounded(s, step.section.r, step.now);
    } else {
      StepFrame(s, step);
    }
  }

  lemma ProcessIs(s: State, step: Step)
    requires step.section.Process?
    ensures Do(s, step) == Handle(s, step.section.r, step.now)
  {
    hide Handle;
  }
}
