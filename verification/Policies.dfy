/**
 * What becomes of a report, in terms of what the integrator supplied: the entity's budgets and hook, its
 * restart callback, its exhausted action, and the hook of its subsystem.
 */
module Policies {
  import opened Types
  import opened Model
  import opened Effects
  import opened Frames
  import opened Budget

  /** The entity's own hook has the first word, then the restart budget of the report's class. */
  function PolicyAction(slot: Slot, r: Report): Action {
    if !HookAnswer(slot, r).NoAction? then HookAnswer(slot, r)
    else if !Spent(slot, r.reason == WATCHDOG) then Restart
    else slot.desc.onExhausted
  }

  /** The subsystem may replace any action but a restart or none. */
  function Verdict(subs: seq<Subsystem>, slot: Slot, r: Report): Action {
    var policy, answer := PolicyAction(slot, r), SubsystemAnswer(subs, slot, r);
    if policy.Restart? || policy.NoAction? || answer.NoAction? then policy else answer
  }

  /** The callback's answer to the next call, whichever the class of the call. */
  predicate CallbackSucceeds(slot: Slot) {
    slot.desc.restart.Some? && slot.desc.restart.value(slot.calls + slot.watchdogCalls)
  }

  /** A subsystem after the action, if it is the linked one. */
  function LeftSubsystem(sub: Subsystem, action: Action): Subsystem {
    match action
    case Degrade => sub.(degraded := true)
    case MakeUnavailable => sub.(available := false, degraded := true)
    case GoSafe => sub.(available := false, degraded := true)
    case Reboot => sub.(available := false, degraded := true)
    case _ => sub
  }

  function LeftRequests(action: Action, r: Report): multiset<Detail> {
    if action.Reboot? then multiset{if r.detail == Text("") then RebootTag else r.detail} else multiset{}
  }

  function LeftMode(mode: Mode, action: Action): Mode {
    match action
    case Degrade => if mode == NOMINAL then DEGRADED else mode
    case MakeUnavailable => if mode == NOMINAL then DEGRADED else mode
    case GoSafe => if mode == REBOOT_PENDING then mode else SAFE
    case Reboot => REBOOT_PENDING
    case _ => mode
  }

  /** The action's marks, requests and mode, and the dual-path rule on top. */
  ghost predicate Leaves(s: State, t: State, linked: Byte, action: Action, r: Report) {
    && |t.subs| == |s.subs|
    && (forall j | 0 <= j < |s.subs| ::
          t.subs[j] == if j == linked && linked != NO_SUBSYSTEM then LeftSubsystem(s.subs[j], action) else s.subs[j])
    && t.reboots == s.reboots + LeftRequests(action, r)
    && t.mode == (if |CriticalDown(t.subs)| >= s.cfg.threshold && LeftMode(s.mode, action) < SAFE
                  then SAFE else LeftMode(s.mode, action))
  }

  /** The entity as a fault leaves it, and as a restart does. */
  function Downed(v: Vitals, r: Report): Vitals {
    Vitals(HealthFailed, v.lastBeat, r.errorCode, r.detail, Some(r.reason))
  }

  function Renewed(now: Millis): Vitals {
    Vitals(HealthOk, now, 0, Text(""), None)
  }

  // ---------------------------------------------------------------- the effect of a verdict

  lemma PolicyIs(s: State, slot: Slot, r: Report)
    requires SlotWell(s, slot)
    ensures Decide(slot, r) == PolicyAction(slot, r)
  {
    hide BudgetDecides, WithinBudget;
  }

  lemma AnswerIs(subs: seq<Subsystem>, slot: Slot, r: Report)
    ensures slot.desc.linked != NO_SUBSYSTEM ==>
              ExhaustedAnswer(subs, slot.desc.linked, r.entity, r) == SubsystemAnswer(subs, slot, r)
    ensures slot.desc.linked == NO_SUBSYSTEM ==> SubsystemAnswer(subs, slot, r) == NoAction
  {
  }

  /** The action that remains after a restart was tried. */
  function Remaining(slot: Slot, verdict: Action): Action {
    if !verdict.Restart? then verdict
    else if CallbackSucceeds(slot) then NoAction
    else slot.desc.onExhausted
  }

  function MarkOf(action: Action): Option<Mark> {
    match action
    case Degrade => Some(MarkDegraded)
    case MakeUnavailable => Some(MarkDown)
    case GoSafe => Some(MarkDown)
    case Reboot => Some(MarkDown)
    case _ => None
  }

  lemma ActionFollows(e: Entity, verdict: Action, r: Report, now: Millis)
    requires e.slot.desc.onExhausted != Restart
    ensures
      var action, f := Remaining(e.slot, verdict), ActionEffect(e, verdict, r, now);
      && f.mark == MarkOf(action) && f.asks == LeftRequests(action, r)
      && (forall mode: Mode :: Max(mode, f.floor) == LeftMode(mode, action))
      && f.entity.vitals == (if verdict.Restart? && CallbackSucceeds(e.slot) then Renewed(now) else e.vitals)
      && f.entity.slot
         == if verdict.Restart? && e.slot.desc.restart.Some? then BumpRestart(e.slot, r.reason) else e.slot
  {
    hide BumpRestart;
  }

  lemma EffectFollows(s: State, e: Entity, r: Report, now: Millis)
    requires SlotWell(s, e.slot)
    ensures
      var verdict := Verdict(s.subs, e.slot, r);
      var action := Remaining(e.slot, verdict);
      var f := EffectOf(e, ExhaustedAnswer(s.subs, e.slot.desc.linked, r.entity, r), r, now);
      && f.mark == MarkOf(action) && f.asks == LeftRequests(action, r)
      && (forall mode: Mode :: Max(mode, f.floor) == LeftMode(mode, action))
      && f.entity.vitals
         == (if verdict.Restart? && CallbackSucceeds(e.slot) then Renewed(now) else Downed(e.vitals, r))
      && (if verdict.Restart? && e.slot.desc.restart.Some?
          then f.entity.slot == BumpRestart(e.slot, r.reason) else f.entity.slot == e.slot)
  {
    hide Decide, PolicyAction, BumpRestart, ExhaustedAnswer, SubsystemAnswer, CountersExact, BudgetDecides,
         ActionEffect, Remaining, MarkOf, LeftRequests, LeftMode, CallbackSucceeds, Max;
    PolicyIs(s, e.slot, r);
    AnswerIs(s.subs, e.slot, r);
    ActionFollows(e.(vitals := FailedVitals(e.vitals, r)), Verdict(s.subs, e.slot, r), r, now);
  }

  lemma MarkLeaves(subs: seq<Subsystem>, linked: Byte, action: Action)
    ensures
      var after := MarkedBy(subs, linked, MarkOf(action));
      && |after| == |subs|
      && forall j | 0 <= j < |subs| ::
           after[j] == if j == linked && linked != NO_SUBSYSTEM then LeftSubsystem(subs[j], action) else subs[j]
  {
  }

  /**
   * Main result: a report that is not suppressed restarts its entity if the verdict says so and the
   * callback succeeds. Otherwise it leaves the entity failed with the report latched, and carries out
   * the verdict, or the exhausted action where the verdict was a restart that could not be done.
   */
  lemma VerdictIsCarriedOut(s: State, r: Report, now: Millis)
    requires r.entity < |s.entities| && s.entities[r.entity].vitals.latch != Some(r.reason)
    requires SlotWell(s, s.entities[r.entity].slot)
    ensures
      var e, t := s.entities[r.entity], Handle(s, r, now);
      var verdict := Verdict(s.subs, e.slot, r);
      && |t.entities| == |s.entities|
      && Leaves(s, t, e.slot.desc.linked, Remaining(e.slot, verdict), r)
      && t.entities[r.entity].vitals
         == (if verdict.Restart? && CallbackSucceeds(e.slot) then Renewed(now) else Downed(e.vitals, r))
      && (forall watchdog ::
            ClassCalls(t.entities[r.entity].slot, watchdog)
            == ClassCalls(e.slot, watchdog)
               + if verdict.Restart? && e.slot.desc.restart.Some? && watchdog == (r.reason == WATCHDOG) then 1 else 0)
  {
    hide Handle, EffectOf, ExhaustedAnswer, MarkedBy, Verdict, Remaining, CriticalDown, BumpRestart, ClassCalls,
         CallbackSucceeds, MarkOf, LeftSubsystem, LeftRequests, SlotWell;
    var e := s.entities[r.entity];
    var action := Remaining(e.slot, Verdict(s.subs, e.slot, r));
    HandleJoins(s, r, now);
    EffectFollows(s, e, r, now);
    MarkLeaves(s.subs, e.slot.desc.linked, action);
    BumpSpends(e.slot, r.reason, true);
    BumpSpends(e.slot, r.reason, false);
    var f := EffectOf(e, ExhaustedAnswer(s.subs, e.slot.desc.linked, r.entity, r), r, now);
    assert Max(s.mode, f.floor) == LeftMode(s.mode, action);
  }

  // ---------------------------------------------------------------- what the integrator can rely on

  /** The entity's hook has nothing to say. */
  predicate HookIsSilent(slot: Slot, r: Report) {
    HookAnswer(slot, r).NoAction?
  }

  /** While the budget of its class lasts, a report makes exactly one restart call, counted in that class. */
  lemma BudgetIsUsed(s: State, r: Report, now: Millis)
    requires r.entity < |s.entities| && s.entities[r.entity].vitals.latch != Some(r.reason)
    requires SlotWell(s, s.entities[r.entity].slot)
    requires s.entities[r.entity].slot.desc.restart.Some? && HookIsSilent(s.entities[r.entity].slot, r)
    ensures |Handle(s, r, now).entities| == |s.entities|
    ensures
      var slot, after := s.entities[r.entity].slot, Handle(s, r, now).entities[r.entity].slot;
      var watchdog := r.reason == WATCHDOG;
      && ClassCalls(after, !watchdog) == ClassCalls(slot, !watchdog)
      && (ClassCalls(after, watchdog) == ClassCalls(slot, watchdog) + 1
          <==> !Spent(slot, watchdog)
               || (slot.desc.onExhausted != NoAction && SubsystemAnswer(s.subs, slot, r) == Restart))
      && (ClassCalls(after, watchdog) == ClassCalls(slot, watchdog) + 1
          || ClassCalls(after, watchdog) == ClassCalls(slot, watchdog))
  {
    hide Handle, Leaves, SubsystemAnswer, CountersExact, BudgetDecides, ClassCalls;
    VerdictIsCarriedOut(s, r, now);
  }

  /** A restart that is due but has no callback, or fails, is followed by the exhausted action. */
  lemma FailedRestartFallsBack(s: State, r: Report, now: Millis)
    requires r.entity < |s.entities| && s.entities[r.entity].vitals.latch != Some(r.reason)
    requires SlotWell(s, s.entities[r.entity].slot)
    requires
      var slot := s.entities[r.entity].slot;
      && (HookAnswer(slot, r).Restart? || (HookIsSilent(slot, r) && !Spent(slot, r.reason == WATCHDOG)))
      && !CallbackSucceeds(slot)
    ensures
      var e, t := s.entities[r.entity], Handle(s, r, now);
      && |t.entities| == |s.entities| && t.entities[r.entity].vitals == Downed(e.vitals, r)
      && Leaves(s, t, e.slot.desc.linked, e.slot.desc.onExhausted, r)
  {
    hide Handle, Leaves, SubsystemAnswer, CountersExact, BudgetDecides, ClassCalls, CallbackSucceeds;
    VerdictIsCarriedOut(s, r, now);
  }

  /** A restart that is due and succeeds leaves a healthy, unlatched entity and escalates nothing. */
  lemma SuccessfulRestartRevives(s: State, r: Report, now: Millis)
    requires r.entity < |s.entities| && s.entities[r.entity].vitals.latch != Some(r.reason)
    requires SlotWell(s, s.entities[r.entity].slot)
    requires
      var slot := s.entities[r.entity].slot;
      && (HookAnswer(slot, r).Restart? || (HookIsSilent(slot, r) && !Spent(slot, r.reason == WATCHDOG)))
      && CallbackSucceeds(slot)
    ensures
      var e, t := s.entities[r.entity], Handle(s, r, now);
      && |t.entities| == |s.entities| && t.entities[r.entity].vitals == Renewed(now)
      && t.subs == s.subs && t.reboots == s.reboots
      && (t.mode == s.mode || (t.mode == SAFE && |CriticalDown(s.subs)| >= s.cfg.threshold))
  {
    hide Handle, SubsystemAnswer, CountersExact, BudgetDecides, ClassCalls, CallbackSucceeds, CriticalDown;
    VerdictIsCarriedOut(s, r, now);
    assert s.reboots + multiset{} == s.reboots;
  }

  /** A spent budget leaves the exhausted action to the subsystem, which may replace it, unless it is none. */
  lemma ExhaustedActionFollows(s: State, r: Report, now: Millis)
    requires r.entity < |s.entities| && s.entities[r.entity].vitals.latch != Some(r.reason)
    requires SlotWell(s, s.entities[r.entity].slot)
    requires HookIsSilent(s.entities[r.entity].slot, r) && Spent(s.entities[r.entity].slot, r.reason == WATCHDOG)
    requires SubsystemAnswer(s.subs, s.entities[r.entity].slot, r) != Restart
    ensures
      var e, t := s.entities[r.entity], Handle(s, r, now);
      var answer := SubsystemAnswer(s.subs, e.slot, r);
      && |t.entities| == |s.entities| && t.entities[r.entity].vitals == Downed(e.vitals, r)
      && t.entities[r.entity].slot.calls == e.slot.calls
      && t.entities[r.entity].slot.watchdogCalls == e.slot.watchdogCalls
      && Leaves(s, t, e.slot.desc.linked,
                if e.slot.desc.onExhausted.NoAction? || answer.NoAction? then e.slot.desc.onExhausted else answer, r)
  {
    hide Handle, Leaves, SubsystemAnswer, CountersExact, BudgetDecides, CallbackSucceeds;
    VerdictIsCarriedOut(s, r, now);
    var t := Handle(s, r, now);
    assert ClassCalls(t.entities[r.entity].slot, true) == ClassCalls(s.entities[r.entity].slot, true);
    assert ClassCalls(t.entities[r.entity].slot, false) == ClassCalls(s.entities[r.entity].slot, false);
  }
}
