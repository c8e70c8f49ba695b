/** The event stream alone determines latches, subsystem flags and the system mode. */
module Replay {
  import opened Types
  import opened Model
  import opened Effects

  // ---------------------------------------------------------------- what ground reconstructs

  /** What one event tells about the latch of entity `id`. */
  function LatchAfter(latch: Option<Reason>, e: Event, id: nat): Option<Reason> {
    if e.level != EntityLevel || e.entity != id || e.kind == RestartEvent then latch
    else if e.phase.Raised? then Some(e.reason)
    else None
  }

  /** The latch of entity `id` according to the events from position `from` on. */
  function ReplayedLatch(log: seq<Event>, from: nat, id: nat): Option<Reason> {
    if |log| <= from then None
    else LatchAfter(ReplayedLatch(log[..|log| - 1], from, id), log[|log| - 1], id)
  }

  datatype Flags = Flags(available: bool, degraded: bool)

  function FlagsAfter(flags: Flags, e: Event, sub: nat): Flags {
    if e.level != SubsystemLevel || e.subsystem != sub then flags
    else
      match e.detail
      case AvailableTag => Flags(true, false)
      case DegradedTag => flags.(degraded := true)
      case UnavailableTag => Flags(false, true)
      case _ => flags
  }

  function ReplayedFlags(log: seq<Event>, from: nat, sub: nat): Flags {
    if |log| <= from then Flags(true, false)
    else FlagsAfter(ReplayedFlags(log[..|log| - 1], from, sub), log[|log| - 1], sub)
  }

  function ModeAfter(mode: Mode, e: Event): Mode {
    if e.kind.ModeChangeEvent? then e.mode else mode
  }

  function ReplayedMode(log: seq<Event>): Mode {
    if |log| == 0 then NOMINAL else ModeAfter(ReplayedMode(log[..|log| - 1]), log[|log| - 1])
  }

  // ---------------------------------------------------------------- what the library promises

  predicate LatchKnown(s: State, i: nat)
    requires i < |s.entities|
  {
    && s.entities[i].slot.since <= |s.log|
    && ReplayedLatch(s.log, s.entities[i].slot.since, i) == s.entities[i].vitals.latch
  }

  predicate FlagsKnown(s: State, j: nat)
    requires j < |s.subs|
  {
    && s.subs[j].since <= |s.log|
    && ReplayedFlags(s.log, s.subs[j].since, j) == Flags(s.subs[j].available, s.subs[j].degraded)
  }

  /** The event carries the anomaly key of its owner and reason, or zero without an owner. */
  predicate WellKeyed(e: Event) {
    match e.level
    case EntityLevel => e.anomalyId == if e.entity != NO_ENTITY then EntityKey(e.entity, e.reason) else 0
    case SubsystemLevel => e.anomalyId == SubsystemKey(e.subsystem, e.reason)
    case SystemLevel => e.anomalyId == 0
  }

  /** The kinds of events at each level, with the fields and the severity that go with them. */
  predicate WellFormed(e: Event) {
    match e.level
    case EntityLevel =>
      && e.subsystem == NO_SUBSYSTEM
      && (match e.kind
          case RestartEvent => e.phase.Raised? && e.errorCode == 0 && e.severity.Info?
          case WatchdogEvent => e.phase.Raised? && e.reason == WATCHDOG && e.severity.Error?
          case FailureEvent => e.severity.Error? && if e.phase.Raised? then e.reason != WATCHDOG else e.errorCode == 0
          case _ => false)
    case SubsystemLevel =>
      && e.kind.FailureEvent?
      && (match e.detail
          case AvailableTag => e.phase.Cleared? && e.severity.Info?
          case DegradedTag => e.phase.Raised? && e.severity.Warning?
          case UnavailableTag => e.phase.Raised? && e.severity.Error?
          case OverrideTag => e.phase.Raised? && e.severity.Error?
          case _ => false)
    case SystemLevel =>
      && e.entity == NO_ENTITY && e.subsystem == NO_SUBSYSTEM && e.phase.Raised?
      && (match e.kind
          case ModeChangeEvent =>
            && e.reason == USER && e.errorCode == 0
            && (e.severity.Info? <==> e.mode == NOMINAL) && (e.severity.Warning? <==> e.mode == DEGRADED)
            && (e.severity.Critical? <==> e.mode >= SAFE)
          case NoteEvent => e.reason == USER && e.errorCode == 0 && e.severity.Info?
          case OverflowEvent => e.reason == QUEUE_OVERFLOW && e.severity.Warning?
          case _ => false)
  }

  /**
   * The event is well formed, carries its anomaly's key and tells the mode in force; a clearing event
   * names the reason that was last raised; a mode event names a new mode.
   */
  predicate EventJustified(s: State, k: nat)
    requires k < |s.log|
  {
    && WellKeyed(s.log[k]) && WellFormed(s.log[k])
    && s.log[k].mode == ReplayedMode(s.log[..k + 1])
    && (s.log[k].level.EntityLevel? && s.log[k].phase.Cleared? ==>
          && s.log[k].entity < |s.entities|
          && s.entities[s.log[k].entity].slot.since <= k
          && ReplayedLatch(s.log[..k], s.entities[s.log[k].entity].slot.since, s.log[k].entity)
             == Some(s.log[k].reason))
    && (s.log[k].kind.ModeChangeEvent? ==> s.log[k].mode != ReplayedMode(s.log[..k]))
  }

  predicate Faithful(s: State) {
    && (forall i | 0 <= i < |s.entities| :: LatchKnown(s, i))
    && (forall j | 0 <= j < |s.subs| :: FlagsKnown(s, j))
    && ReplayedMode(s.log) == s.mode
    && (forall k | 0 <= k < |s.log| :: EventJustified(s, k))
  }

  // ---------------------------------------------------------------- one event at a time

  lemma Snoc(log: seq<Event>, e: Event)
    ensures forall from: nat, i: nat | from <= |log| ::
              ReplayedLatch(log + [e], from, i) == LatchAfter(ReplayedLatch(log, from, i), e, i)
    ensures forall from: nat, j: nat | from <= |log| ::
              ReplayedFlags(log + [e], from, j) == FlagsAfter(ReplayedFlags(log, from, j), e, j)
    ensures ReplayedMode(log + [e]) == ModeAfter(ReplayedMode(log), e)
    ensures forall k | 0 <= k <= |log| :: (log + [e])[..k] == log[..k]
  {
    assert (log + [e])[..|log|] == log;
  }

  /**
   * Emitting an event together with the change it announces: the state `t` differs from `s` only in
   * the announced latch, flags and mode.
   */
  predicate Announces(s: State, t: State, e: Event) {
    && t.log == s.log + [e]
    && |t.entities| == |s.entities| && |t.subs| == |s.subs|
    && (forall i | 0 <= i < |s.entities| ::
          && t.entities[i].slot.since == s.entities[i].slot.since
          && t.entities[i].vitals.latch == LatchAfter(s.entities[i].vitals.latch, e, i))
    && (forall j | 0 <= j < |s.subs| ::
          && t.subs[j].since == s.subs[j].since
          && Flags(t.subs[j].available, t.subs[j].degraded)
             == FlagsAfter(Flags(s.subs[j].available, s.subs[j].degraded), e, j))
    && t.mode == ModeAfter(s.mode, e)
    && WellKeyed(e) && WellFormed(e) && e.mode == t.mode
    && (e.level.EntityLevel? && e.phase.Cleared? ==>
          e.entity < |s.entities| && s.entities[e.entity].vitals.latch == Some(e.reason))
    && (e.kind.ModeChangeEvent? ==> e.mode != s.mode)
  }

  lemma AnnouncedIsFaithful(s: State, t: State, e: Event)
    requires Faithful(s) && Announces(s, t, e)
    ensures Faithful(t)
  {
    hide LatchAfter, FlagsAfter, ModeAfter, WellKeyed, WellFormed;
    Snoc(s.log, e);
    forall i | 0 <= i < |t.entities| ensures LatchKnown(t, i) {
      assert LatchKnown(s, i);
    }
    forall j | 0 <= j < |t.subs| ensures FlagsKnown(t, j) {
      assert FlagsKnown(s, j);
    }
    forall k | 0 <= k < |t.log| ensures EventJustified(t, k) {
      if k < |s.log| {
        assert EventJustified(s, k);
        assert t.log[..k + 1] == s.log[..k + 1];
      } else {
        assert t.log[..k] == s.log && t.log[..k + 1] == t.log;
        if e.level.EntityLevel? && e.phase.Cleared? {
          assert LatchKnown(s, e.entity);
        }
      }
    }
  }

  /** A change ground need not hear about: same log, latches, flags and mode. */
  predicate SameView(s: State, t: State) {
    && t.log == s.log && t.mode == s.mode
    && |t.entities| == |s.entities| && |t.subs| == |s.subs|
    && (forall i | 0 <= i < |s.entities| ::
          && t.entities[i].slot.since == s.entities[i].slot.since
          && t.entities[i].vitals.latch == s.entities[i].vitals.latch)
    && (forall j | 0 <= j < |s.subs| ::
          && t.subs[j].since == s.subs[j].since
          && t.subs[j].available == s.subs[j].available && t.subs[j].degraded == s.subs[j].degraded)
  }

  lemma SameViewIsFaithful(s: State, t: State)
    requires Faithful(s) && SameView(s, t)
    ensures Faithful(t)
  {
    hide ReplayedLatch, ReplayedFlags, ReplayedMode, WellKeyed, WellFormed;
    forall i | 0 <= i < |t.entities| ensures LatchKnown(t, i) {
      assert LatchKnown(s, i);
    }
    forall j | 0 <= j < |t.subs| ensures FlagsKnown(t, j) {
      assert FlagsKnown(s, j);
    }
    forall k | 0 <= k < |t.log| ensures EventJustified(t, k) {
      assert EventJustified(s, k);
    }
  }

  // ---------------------------------------------------------------- the library's steps

  lemma SetModeFaithful(s: State, mode: Mode, detail: Detail, now: Millis)
    requires Faithful(s)
    ensures Faithful(SetMode(s, mode, detail, now))
  {
    hide Faithful;
    var e := PlainEvent(ModeChangeEvent, mode, NO_ENTITY, USER, 0, SystemLevel, Raised, detail, now);
    if s.mode != mode {
      AnnouncedIsFaithful(s, SetMode(s, mode, detail, now), e);
    }
  }

  lemma ModesFaithful(s: State, why: Detail, now: Millis)
    requires Faithful(s)
    ensures Faithful(EnterDegraded(s, now))
    ensures Faithful(EnterSafe(s, now))
    ensures Faithful(TryReboot(s, why, now))
    ensures Faithful(EvaluateDualPath(s, now))
  {
    hide Faithful, SetMode;
    SetModeFaithful(s, DEGRADED, DegradedTag, now);
    SetModeFaithful(s, SAFE, SafeTag, now);
    SetModeFaithful(s, REBOOT_PENDING, why, now);
    SameViewIsFaithful(SetMode(s, REBOOT_PENDING, why, now), TryReboot(s, why, now));
  }

  lemma MarkLinkedFaithful(s: State, id: Byte, mark: Loss, r: Report, now: Millis)
    requires Faithful(s) && id < |s.entities|
    ensures Faithful(MarkLinked(s, id, mark, r, now))
  {
    hide Faithful;
    var sub := s.entities[id].slot.desc.linked;
    var e := SubsystemEvent(sub, s.mode, id, r.reason, r.errorCode, Raised, TagOf(mark), now);
    if sub != NO_SUBSYSTEM {
      AnnouncedIsFaithful(s, MarkLinked(s, id, mark, r, now), e);
    }
  }

  lemma MarkByHandFaithful(s: State, id: Byte, mark: Mark, now: Millis)
    requires Faithful(s)
    ensures Faithful(MarkByHand(s, id, mark, now))
  {
    hide Faithful;
    var e := SubsystemEvent(id, s.mode, NO_ENTITY, USER, 0,
                            if mark.MarkUp? then Cleared else Raised, TagOf(mark), now);
    if id < |s.subs| {
      AnnouncedIsFaithful(s, MarkByHand(s, id, mark, now), e);
    }
  }

  lemma TerminalFaithful(s: State, id: Byte, action: Action, r: Report, now: Millis)
    requires Faithful(s) && id < |s.entities|
    ensures Faithful(ApplyTerminal(s, id, action, r, now))
  {
    hide Faithful, EnterDegraded, EnterSafe, TryReboot, EvaluateDualPath, MarkLinked;
    var why := RebootReason(r);
    MarkLinkedFaithful(s, id, MarkDegraded, r, now);
    MarkLinkedFaithful(s, id, MarkDown, r, now);
    ModesFaithful(MarkLinked(s, id, MarkDegraded, r, now), why, now);
    ModesFaithful(MarkLinked(s, id, MarkDown, r, now), why, now);
    ModesFaithful(EnterDegraded(MarkLinked(s, id, MarkDown, r, now), now), why, now);
  }

  lemma ReviveFaithful(s: State, id: Byte, reason: Reason, now: Millis)
    requires Faithful(s) && id < |s.entities|
    ensures Faithful(Revive(s, id, reason, now))
  {
    hide Faithful;
    var latch, name := s.entities[id].vitals.latch, Text(s.entities[id].slot.desc.name);
    var s1 := WithVitals(s, id, FreshVitals(None, now));
    var restarted := PlainEvent(RestartEvent, s.mode, id, reason, 0, EntityLevel, Raised, name, now);
    if latch.Some? {
      var cleared := PlainEvent(FailureEvent, s.mode, id, latch.value, 0, EntityLevel, Cleared, name, now);
      AnnouncedIsFaithful(s, Emit(s1, cleared), cleared);
      AnnouncedIsFaithful(Emit(s1, cleared), Emit(Emit(s1, cleared), restarted), restarted);
    } else {
      SameViewIsFaithful(s, s1);
      AnnouncedIsFaithful(s1, Emit(s1, restarted), restarted);
    }
  }

  lemma RestartFaithful(s: State, id: Byte, reason: Reason, now: Millis)
    requires Faithful(s) && id < |s.entities|
    ensures Faithful(TryRestart(s, id, reason, now))
  {
    hide Faithful, Revive, RestartSucceeds;
    var slot := s.entities[id].slot;
    var s1 := WithSlot(s, id, BumpRestart(slot, reason));
    SameViewIsFaithful(s, s1);
    ReviveFaithful(s1, id, reason, now);
  }

  lemma ActionFaithful(s: State, id: Byte, action: Action, r: Report, now: Millis)
    requires Faithful(s) && id < |s.entities|
    ensures Faithful(ApplyAction(s, id, action, r, now))
  {
    hide Faithful, TryRestart, ApplyTerminal, RestartSucceeds;
    if action.Restart? {
      RestartFaithful(s, id, r.reason, now);
      RestartJoins(s, id, r.reason, now);
      TerminalFaithful(TryRestart(s, id, r.reason, now), id, Fallback(s.entities[id].slot), r, now);
    } else {
      TerminalFaithful(s, id, action, r, now);
    }
  }

  lemma RecoverFaithful(s: State, r: Report, now: Millis)
    requires Faithful(s) && r.entity < |s.entities|
    ensures Faithful(Recover(s, r, now))
  {
    hide Faithful, ApplyAction, EvaluateDualPath, Decide, ExhaustedAnswer, Escalates;
    var slot := s.entities[r.entity].slot;
    var chosen := Decide(slot, r);
    var s1 := Resolve(s, slot, chosen, r, now);
    var action := Resolved(s.subs, slot, chosen, r);
    if s1 != s {
      AnnouncedIsFaithful(s, s1, SubsystemEvent(slot.desc.linked, s.mode, r.entity, r.reason, r.errorCode,
                                                Raised, OverrideTag, now));
    }
    ActionFaithful(s1, r.entity, action, r, now);
    ModesFaithful(ApplyAction(s1, r.entity, action, r, now), RebootTag, now);
  }

  lemma HandleFaithful(s: State, r: Report, now: Millis)
    requires Faithful(s)
    ensures Faithful(Handle(s, r, now))
  {
    hide Faithful, Recover, EnterDegraded;
    if !IsLatched(s, r.entity, r.reason) {
      var s1 := Announce(s, r, now);
      var e := PlainEvent(if r.reason == WATCHDOG then WatchdogEvent else FailureEvent,
                          s.mode, r.entity, r.reason, r.errorCode, EntityLevel, Raised, r.detail, now);
      if r.entity < |s.entities| {
        var s2 := WithVitals(s1, r.entity, FailedVitals(s.entities[r.entity].vitals, r));
        AnnouncedIsFaithful(s, s2, e);
        RecoverFaithful(s2, r, now);
      } else {
        AnnouncedIsFaithful(s, s1, e);
        ModesFaithful(s1, RebootTag, now);
      }
    }
  }

  lemma RegisterEntityFaithful(s: State, desc: EntityDesc, now: Millis)
    requires Faithful(s)
    ensures Faithful(RegisterEntity(s, desc, now))
  {
    var t := RegisterEntity(s, desc, now);
    forall i | 0 <= i < |t.entities| ensures LatchKnown(t, i) {
      if i < |s.entities| {
        assert LatchKnown(s, i);
      }
    }
    forall j | 0 <= j < |t.subs| ensures FlagsKnown(t, j) {
      assert FlagsKnown(s, j);
    }
    forall k | 0 <= k < |t.log| ensures EventJustified(t, k) {
      assert EventJustified(s, k);
    }
  }

  lemma RegisterSubsystemFaithful(s: State, desc: SubsystemDesc)
    requires Faithful(s)
    ensures Faithful(RegisterSubsystem(s, desc))
  {
    var t := RegisterSubsystem(s, desc);
    forall i | 0 <= i < |t.entities| ensures LatchKnown(t, i) {
      assert LatchKnown(s, i);
    }
    forall j | 0 <= j < |t.subs| ensures FlagsKnown(t, j) {
      if j < |s.subs| {
        assert FlagsKnown(s, j);
      }
    }
    forall k | 0 <= k < |t.log| ensures EventJustified(t, k) {
      assert EventJustified(s, k);
    }
  }

  lemma NoteFaithful(s: State, t: State, e: Event)
    requires Faithful(s)
    requires e.level.SystemLevel? && !e.kind.ModeChangeEvent? && WellKeyed(e) && WellFormed(e) && e.mode == s.mode
    requires t.log == s.log + [e] && t.entities == s.entities && t.subs == s.subs && t.mode == s.mode
    ensures Faithful(t)
  {
    hide Faithful;
    AnnouncedIsFaithful(s, t, e);
  }

  lemma StepFaithful(s: State, step: Step)
    requires Faithful(s)
    ensures Faithful(Do(s, step))
  {
    hide Faithful, Handle, RegisterEntity, RegisterSubsystem, MarkByHand, EnterDegraded, EnterSafe, TryReboot,
         EvaluateDualPath, SetMode, PlainEvent, NotedEvent, SameView;
    var t, now := Do(s, step), step.now;
    match step.section
    case AddEntity(desc) => RegisterEntityFaithful(s, desc, now);
    case AddSubsystem(desc) => RegisterSubsystemFaithful(s, desc);
    case Process(r) => HandleFaithful(s, r, now);
    case MarkSub(sub, mark) => MarkByHandFaithful(s, sub, mark, now);
    case Ground(raw) => if raw < REBOOT_PENDING { SetModeFaithful(s, raw, GroundSetTag, now); }
    case StepDown =>
      SetModeFaithful(s, DEGRADED, StepDownTag, now);
      SetModeFaithful(s, NOMINAL, StepDownTag, now);
    case AskReboot(why) => ModesFaithful(s, why, now);
    case Supervise(_) => QuietFaithful(s, step);
    case LogNote(_) => QuietFaithful(s, step);
    case LogOverflow(_, _) => QuietFaithful(s, step);
    case _ =>
      ModesFaithful(s, RebootTag, now);
      if !step.section.ForceDegraded? && !step.section.ForceSafe? && !step.section.Reassess? {
        ViewKept(s, step);
        SameViewIsFaithful(s, t);
      }
  }

  /** Sections that only add a note to the log. */
  lemma QuietFaithful(s: State, step: Step)
    requires Faithful(s) && (step.section.Supervise? || step.section.LogNote? || step.section.LogOverflow?)
    ensures Faithful(Do(s, step))
  {
    hide Faithful, Handle, CriticalDown;
    var t := Do(s, step);
    if t != s {
      NoteFaithful(s, t, t.log[|t.log| - 1]);
    }
  }

  /** Sections of queue and health leave ground's view as it is. */
  lemma ViewKept(s: State, step: Step)
    requires
      || step.section.Fault? || step.section.Enqueue? || step.section.Dequeue? || step.section.Notice?
      || step.section.Beat? || step.section.HealthSet? || step.section.HealthReset?
    ensures SameView(s, Do(s, step))
  {
    hide Handle, SameView, WithVitals, RegisterEntity, MarkByHand, EnterDegraded, EnterSafe, TryReboot,
         EvaluateDualPath, SetMode, PlainEvent, NotedEvent;
    VitalsKeepView(s);
  }

  /** Health may change freely; only the latch is in view. */
  lemma VitalsKeepView(s: State)
    ensures forall t: State | (t.entities, t.subs, t.log, t.mode) == (s.entities, s.subs, s.log, s.mode) ::
              SameView(s, t)
    ensures forall id: Byte, t: State, v: Vitals
              {:trigger WithVitals(t, id, v)}
              | id < |s.entities| && (t.entities, t.subs, t.log, t.mode) == (s.entities, s.subs, s.log, s.mode)
                && v.latch == s.entities[id].vitals.latch ::
              SameView(s, WithVitals(t, id, v))
  {
  }

  /** Main result: after any run, the log reconstructs every latch, every flag and the mode. */
  lemma {:induction false} LogDeterminesState(cfg: Config, steps: seq<Step>)
    ensures Faithful(Run(Initial(cfg), steps))
  {
    hide Do;
    if steps != [] {
      hide Faithful;
      var front := steps[..|steps| - 1];
      LogDeterminesState(cfg, front);
      StepFaithful(Run(Initial(cfg), front), steps[|steps| - 1]);
    }
  }
}
