/** What the events say: every report that is handled is told with its own data, and so is what follows. */
module Announcements {
  import opened Types
  import opened Model
  import opened Effects
  import opened Frames
  import opened Isolation
  import opened Budget
  import opened Policies

  /** What an event may draw on: the report, the clock, the entity's name and its linked subsystem. */
  datatype Context = Context(r: Report, now: Millis, name: string, linked: Byte)

  /** An event that follows the raising of a report in its handling. */
  predicate Follows(e: Event, c: Context) {
    && e.timestamp == c.now
    && match e.level
       case EntityLevel =>
         && e.entity == c.r.entity && e.detail == Text(c.name)
         && (e.phase.Cleared? || (e.kind.RestartEvent? && e.reason == c.r.reason))
       case SubsystemLevel =>
         && e.subsystem == c.linked && c.linked != NO_SUBSYSTEM && e.phase.Raised?
         && e.entity == c.r.entity && e.reason == c.r.reason && e.errorCode == c.r.errorCode
         && (e.detail.DegradedTag? || e.detail.UnavailableTag?)
       case SystemLevel =>
         && e.kind.ModeChangeEvent?
         && ((e.mode == DEGRADED && e.detail.DegradedTag?) || (e.mode == SAFE && e.detail.SafeTag?)
             || (e.mode == REBOOT_PENDING && e.detail == if c.r.detail == Text("") then RebootTag else c.r.detail))
  }

  ghost predicate Adds(a: seq<Event>, b: seq<Event>, c: Context) {
    a <= b && forall k | |a| <= k < |b| :: Follows(b[k], c)
  }

  lemma AddsOn(x: seq<Event>, y: seq<Event>, z: seq<Event>, c: Context)
    requires Adds(x, y, c) && Adds(y, z, c)
    ensures Adds(x, z, c)
  {
    hide Follows;
    forall k | |x| <= k < |z| ensures Follows(z[k], c) {
      if k < |y| {
        assert z[k] == y[k];
      }
    }
  }

  // ---------------------------------------------------------------- what follows a raising event

  lemma ModesAdd(s: State, c: Context)
    ensures Adds(s.log, EnterDegraded(s, c.now).log, c)
    ensures Adds(s.log, EnterSafe(s, c.now).log, c)
    ensures Adds(s.log, TryReboot(s, RebootReason(c.r), c.now).log, c)
    ensures Adds(s.log, EvaluateDualPath(s, c.now).log, c)
  {
    hide CriticalDown, SeverityOf;
  }

  lemma MarkAdds(s: State, id: Byte, mark: Loss, c: Context)
    requires id < |s.entities| && id == c.r.entity && c.linked == s.entities[id].slot.desc.linked
    ensures Adds(s.log, MarkLinked(s, id, mark, c.r, c.now).log, c)
  {
    hide SubsystemKey;
  }

  lemma TerminalAdds(s: State, id: Byte, action: Action, c: Context)
    requires id < |s.entities| && id == c.r.entity && c.linked == s.entities[id].slot.desc.linked
    ensures Adds(s.log, ApplyTerminal(s, id, action, c.r, c.now).log, c)
  {
    hide Adds, EnterDegraded, EnterSafe, TryReboot, EvaluateDualPath, MarkLinked;
    NothingAdds(s.log, c);
    if action.Degrade? || action.MakeUnavailable? || action.GoSafe? || action.Reboot? {
      var mark := if action.Degrade? then MarkDegraded else MarkDown;
      var u := MarkLinked(s, id, mark, c.r, c.now);
      MarkAdds(s, id, mark, c);
      ModesAdd(u, c);
      AddsOn(s.log, u.log, ApplyTerminalStep(u, action, c).log, c);
      if action.MakeUnavailable? {
        var v := EnterDegraded(u, c.now);
        ModesAdd(v, c);
        AddsOn(s.log, v.log, EvaluateDualPath(v, c.now).log, c);
      }
    }
  }

  /** The first change of mode that an action makes after its mark. */
  function ApplyTerminalStep(u: State, action: Action, c: Context): State {
    match action
    case GoSafe => EnterSafe(u, c.now)
    case Reboot => TryReboot(u, RebootReason(c.r), c.now)
    case _ => EnterDegraded(u, c.now)
  }

  lemma NothingAdds(log: seq<Event>, c: Context)
    ensures Adds(log, log, c)
  {
  }

  lemma ReviveAdds(s: State, id: Byte, c: Context)
    requires id < |s.entities| && id == c.r.entity && c.name == s.entities[id].slot.desc.name
    ensures Adds(s.log, Revive(s, id, c.r.reason, c.now).log, c)
  {
    hide SeverityOf, FreshVitals, EntityKey;
  }

  lemma ActionAdds(s: State, id: Byte, action: Action, c: Context)
    requires id < |s.entities| && id == c.r.entity
    requires c.linked == s.entities[id].slot.desc.linked && c.name == s.entities[id].slot.desc.name
    ensures Adds(s.log, ApplyAction(s, id, action, c.r, c.now).log, c)
  {
    hide Adds, ApplyTerminal, Revive, BumpRestart, RestartSucceeds;
    var slot := s.entities[id].slot;
    if action.Restart? {
      BumpKeepsDesc(slot, c.r.reason);
      NothingAdds(s.log, c);
      var s1 := TryRestart(s, id, c.r.reason, c.now);
      if RestartSucceeds(slot) {
        SuccessNeedsCallback(slot);
        ReviveAdds(WithSlot(s, id, BumpRestart(slot, c.r.reason)), id, c);
      } else {
        TerminalAdds(s1, id, Fallback(slot), c);
      }
    } else {
      TerminalAdds(s, id, action, c);
    }
  }

  lemma SuccessNeedsCallback(slot: Slot)
    ensures RestartSucceeds(slot) ==> slot.desc.restart.Some?
  {
  }

  // ---------------------------------------------------------------- handling

  /** The event that raises a report carries the report's own data. */
  predicate TellsReport(e: Event, mode: Mode, r: Report, now: Millis) {
    && e.level.EntityLevel? && e.phase.Raised? && e.severity.Error?
    && (if r.reason == WATCHDOG then e.kind.WatchdogEvent? else e.kind.FailureEvent?)
    && e.mode == mode && e.timestamp == now
    && e.entity == r.entity && e.reason == r.reason && e.errorCode == r.errorCode && e.detail == r.detail
  }

  /** The event that tells of a subsystem's say. */
  predicate TellsOverride(e: Event, c: Context) {
    && e.level.SubsystemLevel? && e.phase.Raised? && e.severity.Error? && e.detail.OverrideTag?
    && e.subsystem == c.linked && e.timestamp == c.now
    && e.entity == c.r.entity && e.reason == c.r.reason && e.errorCode == c.r.errorCode
  }

  /** The subsystem replaces the action that the entity's own policy came to. */
  predicate Overruled(subs: seq<Subsystem>, slot: Slot, r: Report) {
    var policy := PolicyAction(slot, r);
    !policy.Restart? && !policy.NoAction? && !SubsystemAnswer(subs, slot, r).NoAction?
  }

  lemma StruckTells(s: State, r: Report, now: Millis)
    requires r.entity < |s.entities| && SlotWell(s, s.entities[r.entity].slot)
    ensures
      var e, log, n := s.entities[r.entity], Struck(s, r, now).log, |s.log|;
      && s.log < log && TellsReport(log[n], s.mode, r, now)
      && (if Overruled(s.subs, e.slot, r)
          then |log| == n + 2
               && TellsOverride(log[n + 1], Context(r, now, e.slot.desc.name, e.slot.desc.linked))
          else |log| == n + 1)
  {
    hide PolicyAction, SubsystemAnswer, Decide, ExhaustedAnswer, CountersExact, BudgetDecides, FailedVitals;
    PolicyIs(s, s.entities[r.entity].slot, r);
    AnswerIs(s.subs, s.entities[r.entity].slot, r);
  }

  /**
   * Main result: handling first tells the report with its own data, then the subsystem's say if and only
   * if it had one, and then only what follows from them.
   */
  lemma HandlingTells(s: State, r: Report, now: Millis)
    requires r.entity < |s.entities| && SlotWell(s, s.entities[r.entity].slot)
    requires s.entities[r.entity].vitals.latch != Some(r.reason)
    ensures
      var e, log, n := s.entities[r.entity], Handle(s, r, now).log, |s.log|;
      var c, m := Context(r, now, e.slot.desc.name, e.slot.desc.linked), n + if Overruled(s.subs, e.slot, r) then 2 else 1;
      && s.log <= log && m <= |log|
      && TellsReport(log[n], s.mode, r, now)
      && (Overruled(s.subs, e.slot, r) ==> TellsOverride(log[n + 1], c))
      && Adds(log[..m], log, c)
  {
    hide Handle, Adds, Struck, Chosen, ApplyAction, EvaluateDualPath, Overruled, SlotWell, TellsReport, TellsOverride;
    var e := s.entities[r.entity];
    var c := Context(r, now, e.slot.desc.name, e.slot.desc.linked);
    var u := Struck(s, r, now);
    StruckTells(s, r, now);
    HandleUnfolds(s, r, now);
    var v := ApplyAction(u, r.entity, Chosen(s, r), r, now);
    ActionAdds(u, r.entity, Chosen(s, r), c);
    ModesAdd(v, c);
    AddsOn(u.log, v.log, EvaluateDualPath(v, now).log, c);
    AddsPrefix(u.log, EvaluateDualPath(v, now).log, c);
  }

  lemma AddsPrefix(a: seq<Event>, b: seq<Event>, c: Context)
    requires Adds(a, b, c)
    ensures a <= b && b[..|a|] == a
  {
  }

  /** A report on an unknown entity is told, and the escalation to DEGRADED if there is one. */
  lemma UnknownTells(s: State, r: Report, now: Millis)
    requires r.entity >= |s.entities|
    ensures
      var log, n := Handle(s, r, now).log, |s.log|;
      && s.log < log && TellsReport(log[n], s.mode, r, now)
      && Adds(log[..n + 1], log, Context(r, now, "", NO_SUBSYSTEM))
  {
    hide Recover, EnterDegraded, Adds;
    var c, u := Context(r, now, "", NO_SUBSYSTEM), Announce(s, r, now);
    ModesAdd(u, c);
    AddsPrefix(u.log, EnterDegraded(u, now).log, c);
  }

  // ---------------------------------------------------------------- every other section

  predicate TellsNote(e: Event, s: State, detail: Detail) {
    e.level.SystemLevel? && e.kind.NoteEvent? && e.mode == s.mode && e.detail == detail
  }

  predicate TellsMode(e: Event, mode: Mode, detail: Detail) {
    e.level.SystemLevel? && e.kind.ModeChangeEvent? && e.mode == mode && e.detail == detail
  }

  predicate TellsMark(e: Event, s: State, sub: Byte, mark: Mark) {
    && e.level.SubsystemLevel? && e.subsystem == sub && e.entity == NO_ENTITY && e.reason == USER && e.errorCode == 0
    && e.mode == s.mode
    && match mark
       case MarkUp => e.phase.Cleared? && e.detail.AvailableTag?
       case MarkDegraded => e.phase.Raised? && e.detail.DegradedTag?
       case MarkDown => e.phase.Raised? && e.detail.UnavailableTag?
  }

  /** The event that a section other than the handling of a report emits. */
  predicate Tells(s: State, section: Section, e: Event) {
    match section
    case MarkSub(sub, mark) => TellsMark(e, s, sub, mark)
    case Supervise(enabled) => TellsNote(e, s, if enabled then SupervisionOnTag else SupervisionOffTag)
    case Ground(raw) => raw < REBOOT_PENDING && TellsMode(e, raw, GroundSetTag)
    case StepDown => s.mode > NOMINAL && TellsMode(e, s.mode - 1, StepDownTag)
    case ForceDegraded => TellsMode(e, DEGRADED, DegradedTag)
    case ForceSafe => TellsMode(e, SAFE, SafeTag)
    case Reassess => TellsMode(e, SAFE, SafeTag)
    case AskReboot(why) => TellsMode(e, REBOOT_PENDING, why)
    case LogNote(note) => TellsNote(e, s, note)
    case LogOverflow(queueId, text) =>
      && e.level.SystemLevel? && e.kind.OverflowEvent? && e.mode == s.mode
      && e.errorCode == queueId && e.detail == text
    case _ => false
  }

  /** Whether such a section emits its event. */
  predicate Speaks(s: State, section: Section) {
    match section
    case MarkSub(sub, _) => sub < |s.subs|
    case Supervise(enabled) => enabled != s.supervised
    case Ground(raw) => raw < REBOOT_PENDING && raw != s.mode
    case StepDown => s.mode == DEGRADED || s.mode == SAFE
    case ForceDegraded => s.mode == NOMINAL
    case ForceSafe => s.mode < SAFE
    case Reassess => s.mode < SAFE && |CriticalDown(s.subs)| >= s.cfg.threshold
    case AskReboot(_) => s.mode != REBOOT_PENDING
    case LogNote(_) => true
    case LogOverflow(_, _) => true
    case _ => false
  }

  /** Main result for the other sections: one event with that section's own data, or none. */
  lemma SectionTells(s: State, step: Step)
    requires !step.section.Process?
    ensures
      var log := Do(s, step).log;
      if Speaks(s, step.section)
      then |log| == |s.log| + 1 && s.log <= log
           && Tells(s, step.section, log[|s.log|]) && log[|s.log|].timestamp == step.now
      else log == s.log
  {
    hide Do;
    if SaysNothing(step.section) {
      LogUntouched(s, step);
    } else if step.section.MarkSub? || step.section.Supervise? || step.section.LogNote? || step.section.LogOverflow? {
      NotesTell(s, step);
    } else {
      ModesTell(s, step);
    }
  }

  lemma NotesTell(s: State, step: Step)
    requires step.section.MarkSub? || step.section.Supervise? || step.section.LogNote? || step.section.LogOverflow?
    ensures
      var log := Do(s, step).log;
      if Speaks(s, step.section)
      then |log| == |s.log| + 1 && s.log <= log
           && Tells(s, step.section, log[|s.log|]) && log[|s.log|].timestamp == step.now
      else log == s.log
  {
    hide Handle, CriticalDown, Marked, SeverityOf, SubsystemKey, EntityKey, EnterDegraded, EnterSafe, TryReboot,
         EvaluateDualPath, GroundMode, Deescalate;
  }

  predicate SetsMode(section: Section) {
    || section.Ground? || section.StepDown? || section.ForceDegraded? || section.ForceSafe?
    || section.Reassess? || section.AskReboot?
  }

  lemma ModesTell(s: State, step: Step)
    requires SetsMode(step.section)
    ensures
      var log := Do(s, step).log;
      if Speaks(s, step.section)
      then |log| == |s.log| + 1 && s.log <= log
           && Tells(s, step.section, log[|s.log|]) && log[|s.log|].timestamp == step.now
      else log == s.log
  {
    hide Handle, CriticalDown, PlainEvent, MarkByHand, SetSupervision, RegisterEntity, ReportFault, Heartbeat,
         SetHealth, ResetHealth;
    forall mode: Mode, detail: Detail
      ensures
        var e := PlainEvent(ModeChangeEvent, mode, NO_ENTITY, USER, 0, SystemLevel, Raised, detail, step.now);
        TellsMode(e, mode, detail) && e.timestamp == step.now
    {
      ModeEventTells(mode, detail, step.now);
    }
    hide TellsMode;
  }

  lemma ModeEventTells(mode: Mode, detail: Detail, now: Millis)
    ensures
      var e := PlainEvent(ModeChangeEvent, mode, NO_ENTITY, USER, 0, SystemLevel, Raised, detail, now);
      TellsMode(e, mode, detail) && e.timestamp == now
  {
  }
}
