/** A failed entity stays isolated until its own successful restart. */
module Isolation {
  import opened Types
  import opened Model
  import opened Effects
  import opened Frames

  // ---------------------------------------------------------------- the log only grows

  lemma ModesGrowLog(s: State, mode: Mode, why: Detail, now: Millis)
    ensures s.log <= SetMode(s, mode, why, now).log
    ensures s.log <= EnterDegraded(s, now).log
    ensures s.log <= EnterSafe(s, now).log
    ensures s.log <= TryReboot(s, why, now).log
    ensures s.log <= EvaluateDualPath(s, now).log
  {
    hide PlainEvent, CriticalDown;
  }

  lemma MarkGrowsLog(s: State, id: Byte, mark: Loss, r: Report, now: Millis)
    requires id < |s.entities|
    ensures s.log <= MarkLinked(s, id, mark, r, now).log
  {
    hide SubsystemEvent, Marked;
  }

  lemma TerminalGrowsLog(s: State, id: Byte, action: Action, r: Report, now: Millis)
    requires id < |s.entities|
    ensures s.log <= ApplyTerminal(s, id, action, r, now).log
  {
    hide EnterDegraded, EnterSafe, TryReboot, EvaluateDualPath, MarkLinked;
    var down := MarkLinked(s, id, MarkDown, r, now);
    MarkGrowsLog(s, id, MarkDegraded, r, now);
    MarkGrowsLog(s, id, MarkDown, r, now);
    ModesGrowLog(MarkLinked(s, id, MarkDegraded, r, now), NOMINAL, RebootReason(r), now);
    ModesGrowLog(down, NOMINAL, RebootReason(r), now);
    ModesGrowLog(EnterDegraded(down, now), NOMINAL, RebootReason(r), now);
  }

  lemma ActionGrowsLog(s: State, id: Byte, action: Action, r: Report, now: Millis)
    requires id < |s.entities|
    ensures s.log <= ApplyAction(s, id, action, r, now).log
  {
    hide ApplyTerminal, PlainEvent, BumpRestart, FreshVitals;
    TerminalGrowsLog(s, id, action, r, now);
    if action.Restart? {
      TerminalGrowsLog(TryRestart(s, id, r.reason, now), id, Fallback(s.entities[id].slot), r, now);
    }
  }

  /** The state in which recovery proper starts, and the action it applies. */
  function Struck(s: State, r: Report, now: Millis): State
    requires r.entity < |s.entities|
  {
    var slot := s.entities[r.entity].slot;
    Resolve(WithVitals(Announce(s, r, now), r.entity, FailedVitals(s.entities[r.entity].vitals, r)),
            slot, Decide(slot, r), r, now)
  }

  function Chosen(s: State, r: Report): Action
    requires r.entity < |s.entities|
  {
    var slot := s.entities[r.entity].slot;
    Resolved(s.subs, slot, Decide(slot, r), r)
  }

  lemma HandleUnfolds(s: State, r: Report, now: Millis)
    requires r.entity < |s.entities| && !IsLatched(s, r.entity, r.reason)
    ensures
      var t := Struck(s, r, now);
      && Handle(s, r, now) == EvaluateDualPath(ApplyAction(t, r.entity, Chosen(s, r), r, now), now)
      && s.log < t.log && |t.entities| == |s.entities|
      && t.entities[r.entity].slot == s.entities[r.entity].slot && IsFailed(t, r.entity)
  {
    hide Decide, PlainEvent, SubsystemEvent, ApplyAction, EvaluateDualPath, Escalates, ExhaustedAnswer;
  }

  lemma HandleGrowsLog(s: State, r: Report, now: Millis)
    ensures s.log <= Handle(s, r, now).log
    ensures s.log == Handle(s, r, now).log ==> IsLatched(s, r.entity, r.reason)
  {
    hide ApplyAction, EvaluateDualPath, EnterDegraded, Recover, PlainEvent, Struck, Chosen;
    if !IsLatched(s, r.entity, r.reason) {
      if r.entity < |s.entities| {
        var t := Struck(s, r, now);
        HandleUnfolds(s, r, now);
        ActionGrowsLog(t, r.entity, Chosen(s, r), r, now);
        ModesGrowLog(ApplyAction(t, r.entity, Chosen(s, r), r, now), NOMINAL, RebootTag, now);
      } else {
        ModesGrowLog(Announce(s, r, now), NOMINAL, RebootTag, now);
      }
    }
  }

  predicate SaysNothing(section: Section) {
    || section.AddEntity? || section.AddSubsystem? || section.Fault? || section.Enqueue? || section.Dequeue?
    || section.Notice? || section.Beat? || section.HealthSet? || section.HealthReset?
  }

  lemma LogUntouched(s: State, step: Step)
    requires SaysNothing(step.section)
    ensures Do(s, step).log == s.log
  {
    hide Handle, EnterDegraded, EnterSafe, TryReboot, EvaluateDualPath, SetMode, MarkByHand, SetSupervision;
  }

  lemma StepGrowsLog(s: State, step: Step)
    ensures s.log <= Do(s, step).log
  {
    hide Handle, PlainEvent, SubsystemEvent, NotedEvent, EnterDegraded, EnterSafe, TryReboot, EvaluateDualPath,
         SetMode, Marked, RegisterEntity, RegisterSubsystem, ReportFault, Put, Get, Heartbeat, SetHealth, ResetHealth;
    if SaysNothing(step.section) {
      LogUntouched(s, step);
    } else {
      match step.section
      case Process(r) => HandleGrowsLog(s, r, step.now);
      case MarkSub(_, _) =>
      case Supervise(_) =>
      case LogNote(_) =>
      case LogOverflow(_, _) =>
      case Ground(raw) => if raw < REBOOT_PENDING { ModesGrowLog(s, raw, GroundSetTag, step.now); }
      case StepDown =>
        ModesGrowLog(s, DEGRADED, StepDownTag, step.now);
        ModesGrowLog(s, NOMINAL, StepDownTag, step.now);
      case AskReboot(why) => ModesGrowLog(s, NOMINAL, why, step.now);
      case _ => ModesGrowLog(s, NOMINAL, RebootTag, step.now);
    }
  }

  // ---------------------------------------------------------------- health and restarts

  /** The log tells of a successful restart of the entity, at or after position `from`. */
  predicate Restarted(log: seq<Event>, from: nat, id: Byte) {
    exists k :: from <= k < |log| && log[k].kind.RestartEvent? && log[k].entity == id
  }

  lemma RestartedLater(log: seq<Event>, more: seq<Event>, from: nat, early: nat, id: Byte)
    requires Restarted(log, from, id) && log <= more && early <= from
    ensures Restarted(more, early, id)
  {
    var k :| from <= k < |log| && log[k].kind.RestartEvent? && log[k].entity == id;
    assert more[k] == log[k];
  }

  lemma EvaluateKeepsEntities(s: State, now: Millis)
    ensures EvaluateDualPath(s, now).entities == s.entities
  {
    DualPathJoins(s, now);
  }

  lemma ReviveTells(s: State, id: Byte, reason: Reason, now: Millis)
    requires id < |s.entities|
    ensures Restarted(Revive(s, id, reason, now).log, |s.log|, id)
  {
    var log := Revive(s, id, reason, now).log;
    var k := |log| - 1;
    assert log[k].kind.RestartEvent? && log[k].entity == id;
  }

  /** After handling, the entity is failed unless the log tells of its restart. */
  lemma ActionFailsOrTells(s: State, id: Byte, action: Action, r: Report, now: Millis)
    requires IsFailed(s, id)
    ensures
      var t := ApplyAction(s, id, action, r, now);
      IsFailed(t, id) || Restarted(t.log, |s.log|, id)
  {
    hide ApplyTerminal, Revive, BumpRestart, EvaluateDualPath;
    var slot := s.entities[id].slot;
    if action.Restart? {
      var s1 := TryRestart(s, id, r.reason, now);
      if RestartSucceeds(slot) {
        ReviveTells(WithSlot(s, id, BumpRestart(slot, r.reason)), id, r.reason, now);
      } else {
        TerminalKeepsEntities(s1, id, Fallback(slot), r, now);
      }
    } else {
      TerminalKeepsEntities(s, id, action, r, now);
    }
  }

  lemma TerminalKeepsEntities(s: State, id: Byte, action: Action, r: Report, now: Millis)
    requires id < |s.entities|
    ensures ApplyTerminal(s, id, action, r, now).entities == s.entities
  {
    hide ApplyTerminal, EvaluateDualPath;
    TerminalJoins(s, id, action, r, now);
    EvaluateKeepsEntities(ApplyTerminal(s, id, action, r, now), now);
  }

  lemma HandleFailsOrTells(s: State, r: Report, now: Millis)
    requires r.entity < |s.entities| && !IsLatched(s, r.entity, r.reason)
    ensures
      var t := Handle(s, r, now);
      IsFailed(t, r.entity) || Restarted(t.log, |s.log|, r.entity)
  {
    hide Handle, ApplyAction, EvaluateDualPath, Struck, Chosen, Restarted;
    HandleUnfolds(s, r, now);
    var u := Struck(s, r, now);
    var v := ApplyAction(u, r.entity, Chosen(s, r), r, now);
    ActionFailsOrTells(u, r.entity, Chosen(s, r), r, now);
    EvaluateKeepsEntities(v, now);
    ModesGrowLog(v, NOMINAL, RebootTag, now);
    if Restarted(v.log, |u.log|, r.entity) {
      RestartedLater(v.log, EvaluateDualPath(v, now).log, |u.log|, |s.log|, r.entity);
    }
  }

  /** Sections that leave the entity's isolation alone. */
  predicate Spares(section: Section, id: Byte) {
    && !(section.HealthSet? && section.id == id)
    && !(section.HealthReset? && section.id == id)
    && section != Supervise(false)
  }

  /** Reports, heartbeats and registrations neither heal a failed entity nor touch its latch. */
  lemma EntitySectionSpares(s: State, step: Step, id: Byte)
    requires TouchesEntities(step.section) && !step.section.Process?
    requires IsFailed(s, id) && Spares(step.section, id)
    ensures IsFailed(Do(s, step), id) && Do(s, step).entities[id].vitals.latch == s.entities[id].vitals.latch
  {
    hide FreshVitals, Handle, SetSupervision, MarkByHand, EnterDegraded, EnterSafe, EvaluateDualPath, TryReboot,
         SetMode, PlainEvent, NotedEvent, ReportFault;
    match step.section
    case Fault(other, reason, code, detail, flags) => FaultSpares(s, other, reason, code, detail, flags, step.now, id);
    case _ =>
  }

  /** A report touches nothing but health, error code and detail, and never those of a failed entity. */
  lemma FaultSpares(s: State, other: Byte, reason: Reason, code: Word, detail: Detail, flags: Byte, now: Millis,
                    id: Byte)
    requires id < |s.entities|
    ensures
      var t := ReportFault(s, other, reason, code, detail, flags, now);
      && |t.entities| == |s.entities|
      && t.entities[id].vitals.lastBeat == s.entities[id].vitals.lastBeat
      && (IsFailed(s, id) ==> t.entities[id] == s.entities[id])
  {
    hide IsLatched, PutStatus;
    PutKeepsEntities(s, Report(other, reason, code, detail, now, flags));
    hide Put;
  }

  lemma PutKeepsEntities(s: State, r: Report)
    ensures Put(s, r).entities == s.entities
  {
  }

  lemma StepKeepsFailed(s: State, step: Step, id: Byte)
    requires IsFailed(s, id) && Spares(step.section, id)
    ensures IsFailed(Do(s, step), id) || Restarted(Do(s, step).log, |s.log|, id)
  {
    hide Do, Handle, Restarted;
    if !TouchesEntities(step.section) {
      EntitiesUntouched(s, step);
    } else if step.section.Process? {
      var r := step.section.r;
      ProcessIs(s, step);
      HandleIsBounded(s, r, step.now);
      if r.entity == id && !IsLatched(s, id, r.reason) {
        HandleFailsOrTells(s, r, step.now);
      }
    } else {
      EntitySectionSpares(s, step, id);
    }
  }

  lemma StepKeepsSupervision(s: State, step: Step)
    requires s.supervised && step.section != Supervise(false)
    ensures Do(s, step).supervised
  {
    hide Handle, PlainEvent, SubsystemEvent, NotedEvent, CriticalDown, Marked, FreshVitals;
    if step.section.Process? {
      HandleIsBounded(s, step.section.r, step.now);
    }
  }

  /**
   * Main result: both gates stay shut over any run of sections, by any threads, that does not bypass
   * supervision or set the entity's health, until the log tells of the entity's own restart.
   */
  lemma {:induction false} IsolationPersists(s: State, steps: seq<Step>, id: Byte)
    requires s.supervised && IsFailed(s, id)
    requires forall k | 0 <= k < |steps| :: Spares(steps[k].section, id)
    ensures
      var t := Run(s, steps);
      && s.log <= t.log
      && (Restarted(t.log, |s.log|, id)
          || (t.supervised && IsFailed(t, id) && !EntityMayRun(t, id) && !WorkerMayRun(t, id)))
  {
    hide Do, Restarted;
    if steps != [] {
      var front, last := steps[..|steps| - 1], steps[|steps| - 1];
      var t := Run(s, front);
      IsolationPersists(s, front, id);
      StepGrowsLog(t, last);
      if Restarted(t.log, |s.log|, id) {
        RestartedLater(t.log, Do(t, last).log, |s.log|, |s.log|, id);
      } else {
        StepKeepsFailed(t, last, id);
        StepKeepsSupervision(t, last);
        if Restarted(Do(t, last).log, |t.log|, id) {
          RestartedLater(Do(t, last).log, Do(t, last).log, |t.log|, |s.log|, id);
        }
      }
    }
  }

  /** An accepted fault of a registered entity shuts both gates at once. */
  lemma AcceptedFaultIsolates(s: State, id: Byte, reason: Reason, code: Word, detail: Detail, flags: Byte, now: Millis)
    requires s.supervised && id < |s.entities| && Admits(s, id, reason)
    requires ReportStatus(s, id, reason, code, detail, flags, now).StatusOk?
    ensures
      var t := ReportFault(s, id, reason, code, detail, flags, now);
      t.supervised && IsFailed(t, id) && !EntityMayRun(t, id) && !WorkerMayRun(t, id)
  {
  }

  /** The two gates give the same answer exactly when supervision is on or the mode is below SAFE. */
  lemma GatesAgree(s: State, id: Byte)
    ensures EntityMayRun(s, id) == WorkerMayRun(s, id) <==> s.supervised || s.mode < SAFE
  {
  }
}
