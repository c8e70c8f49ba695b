/** The system mode over whole runs: escalation is a join, and dual-path safety is kept. */
module Escalation {
  import opened Types
  import opened Model
  import opened Effects
  import opened Frames
  import opened Isolation

  /** Ground commands, which alone may lower the mode. */
  predicate IsGround(section: Section) {
    section.Ground? || section.StepDown?
  }

  /** The level a section asks for. */
  function Target(s: State, step: Step): Mode {
    match step.section
    case Process(r) =>
      if IsLatched(s, r.entity, r.reason) then NOMINAL
      else if r.entity >= |s.entities| then DEGRADED
      else
        var eff := EffectIn(s, r, step.now);
        Max(eff.floor, DualPathFloor(s.cfg, MarkedBy(s.subs, s.entities[r.entity].slot.desc.linked, eff.mark)))
    case ForceDegraded => DEGRADED
    case ForceSafe => SAFE
    case Reassess => DualPathFloor(s.cfg, s.subs)
    case AskReboot(_) => REBOOT_PENDING
    case _ => NOMINAL
  }

  /** Every section but a ground command moves the mode to the maximum of itself and a target. */
  lemma ModeIsJoin(s: State, step: Step)
    requires !IsGround(step.section)
    ensures Do(s, step).mode == Max(s.mode, Target(s, step))
  {
    hide Do, Target;
    if step.section.Process? {
      ProcessIsJoin(s, step);
    } else if SaysNothing(step.section) {
      QuietKeepsMode(s, step);
    } else {
      LoudIsJoin(s, step);
    }
  }

  lemma ProcessIsJoin(s: State, step: Step)
    requires step.section.Process?
    ensures Do(s, step).mode == Max(s.mode, Target(s, step))
  {
    hide Handle, Do, EffectIn, MarkedBy, DualPathFloor;
    ProcessIs(s, step);
    HandleJoins(s, step.section.r, step.now);
  }

  lemma LoudIsJoin(s: State, step: Step)
    requires !IsGround(step.section) && !step.section.Process? && !SaysNothing(step.section)
    ensures Do(s, step).mode == Max(s.mode, Target(s, step))
  {
    hide Handle, PlainEvent, SubsystemEvent, NotedEvent, CriticalDown, Marked, RegisterEntity, RegisterSubsystem,
         ReportFault, Put, Get, Heartbeat, SetHealth, ResetHealth, EffectIn;
  }

  lemma QuietKeepsMode(s: State, step: Step)
    requires SaysNothing(step.section)
    ensures Do(s, step).mode == s.mode == Max(s.mode, Target(s, step))
  {
    hide Handle, EnterDegraded, EnterSafe, TryReboot, EvaluateDualPath, Model.SetMode, MarkByHand, SetSupervision;
  }

  /** Without ground commands the mode never decreases, so REBOOT_PENDING is absorbing. */
  lemma {:induction false} ModeNeverDecreases(s: State, steps: seq<Step>)
    requires forall k | 0 <= k < |steps| :: !IsGround(steps[k].section)
    ensures s.mode <= Run(s, steps).mode
    ensures s.mode == REBOOT_PENDING ==> Run(s, steps).mode == REBOOT_PENDING
  {
    hide Do;
    if steps != [] {
      var front := steps[..|steps| - 1];
      ModeNeverDecreases(s, front);
      ModeIsJoin(Run(s, front), steps[|steps| - 1]);
    }
  }

  // ---------------------------------------------------------------- reboots and ground commands

  /** A reboot is asked for exactly where REBOOT_PENDING is the effect's level. */
  lemma EffectAsksToReboot(e: Entity, answer: Action, r: Report, now: Millis)
    ensures
      var f := EffectOf(e, answer, r, now);
      |f.asks| == (if f.floor == REBOOT_PENDING then 1 else 0)
  {
    hide Decide, RestartSucceeds, BumpRestart;
  }

  /** A section requests a reboot, and then one, exactly when it aims at REBOOT_PENDING. */
  lemma RebootIsRequested(s: State, step: Step)
    ensures
      var t := Do(s, step);
      |t.reboots| == |s.reboots| + (if !IsGround(step.section) && Target(s, step) == REBOOT_PENDING then 1 else 0)
  {
    if step.section.Process? {
      hide Do, Handle, EffectOf, MarkedBy, ExhaustedAnswer;
      var r := step.section.r;
      ProcessIs(s, step);
      HandleJoins(s, r, step.now);
      if r.entity < |s.entities| {
        var e := s.entities[r.entity];
        EffectAsksToReboot(e, ExhaustedAnswer(s.subs, e.slot.desc.linked, r.entity, r), r, step.now);
      }
    } else {
      OthersAskNothing(s, step);
    }
  }

  lemma OthersAskNothing(s: State, step: Step)
    requires !step.section.Process?
    ensures |Do(s, step).reboots| == |s.reboots| + (if step.section.AskReboot? then 1 else 0)
  {
    if SaysNothing(step.section) {
      QuietAsksNothing(s, step);
    } else {
      hide Handle, PlainEvent, SubsystemEvent, NotedEvent, CriticalDown, Marked, RegisterEntity, RegisterSubsystem,
           ReportFault, Put, Get, Heartbeat, SetHealth, ResetHealth;
    }
  }

  lemma QuietAsksNothing(s: State, step: Step)
    requires SaysNothing(step.section)
    ensures Do(s, step).reboots == s.reboots
  {
    hide Handle, EnterDegraded, EnterSafe, TryReboot, EvaluateDualPath, Model.SetMode, MarkByHand, SetSupervision;
  }

  /** Ground moves the mode where it says, or one level down, and nowhere else; REBOOT_PENDING is not for ground. */
  lemma GroundIsObeyed(s: State, step: Step)
    requires IsGround(step.section)
    ensures
      var t := Do(s, step);
      && (step.section.Ground? ==> t.mode == if step.section.raw < REBOOT_PENDING then step.section.raw else s.mode)
      && (step.section.StepDown? ==>
            t.mode == if s.mode == NOMINAL || s.mode == REBOOT_PENDING then s.mode else s.mode - 1)
      && t == s.(mode := t.mode, log := t.log)
  {
    hide Handle, PlainEvent;
  }

  /** Main result: REBOOT_PENDING is never entered without a reboot request. */
  lemma {:induction false} RebootPendingWasRequested(cfg: Config, steps: seq<Step>)
    ensures Run(Initial(cfg), steps).mode == REBOOT_PENDING ==> |Run(Initial(cfg), steps).reboots| >= 1
  {
    hide Do, Target;
    if steps != [] {
      var front, last := steps[..|steps| - 1], steps[|steps| - 1];
      var s := Run(Initial(cfg), front);
      RebootPendingWasRequested(cfg, front);
      RebootIsRequested(s, last);
      if IsGround(last.section) {
        GroundIsObeyed(s, last);
      } else {
        ModeIsJoin(s, last);
      }
    }
  }

  // ---------------------------------------------------------------- dual-path safety

  /** Too many critical subsystems down means SAFE at least. */
  predicate DualPathSafe(s: State) {
    |CriticalDown(s.subs)| >= s.cfg.threshold ==> s.mode >= SAFE
  }

  /** A ground command below SAFE, or a manual unavailable mark. */
  predicate Disturbs(section: Section) {
    || section.StepDown?
    || (section.Ground? && section.raw < SAFE)
    || (section.MarkSub? && section.mark.MarkDown?)
  }

  /** Every disturbance has been followed by a reassessment. */
  predicate Reassessed(steps: seq<Step>) {
    forall k | 0 <= k < |steps| && Disturbs(steps[k].section) ::
      exists m :: k < m < |steps| && steps[m].section.Reassess?
  }

  lemma ReassessMakesSafe(s: State, step: Step)
    requires step.section.Reassess?
    ensures DualPathSafe(Do(s, step))
  {
  }

  lemma CriticalDownOfNew(subs: seq<Subsystem>, sub: Subsystem)
    requires sub.available
    ensures CriticalDown(subs + [sub]) == CriticalDown(subs)
  {
  }

  lemma MarkLowersCount(subs: seq<Subsystem>, id: Byte, mark: Mark)
    requires !mark.MarkDown?
    ensures |CriticalDown(Marked(subs, id, mark))| <= |CriticalDown(subs)|
  {
    var b := CriticalDown(subs);
    var a := CriticalDown(Marked(subs, id, mark));
    assert b == a + (b - a);
  }

  lemma HandleMakesSafe(s: State, r: Report, now: Millis)
    requires DualPathSafe(s)
    ensures DualPathSafe(Handle(s, r, now))
  {
    hide Handle, EffectOf, MarkedBy;
    HandleJoins(s, r, now);
  }

  lemma StepKeepsSafe(s: State, step: Step)
    requires DualPathSafe(s) && !Disturbs(step.section)
    ensures DualPathSafe(Do(s, step))
  {
    hide Handle, CriticalDown;
    match step.section
    case Process(r) => HandleMakesSafe(s, r, step.now);
    case AddSubsystem(desc) => CriticalDownOfNew(s.subs, Subsystem(desc, true, false, |s.log|));
    case MarkSub(sub, mark) => MarkLowersCount(s.subs, sub, mark);
    case _ =>
  }

  /** Main result: however the sections interleave, the system is safe once every disturbance was reassessed. */
  lemma {:induction false} DualPathSafety(cfg: Config, steps: seq<Step>)
    requires cfg.threshold >= 1 && Reassessed(steps)
    ensures DualPathSafe(Run(Initial(cfg), steps))
    decreases |steps|
  {
    hide Do;
    if steps != [] {
      var front, last := steps[..|steps| - 1], steps[|steps| - 1];
      if last.section.Reassess? {
        ReassessMakesSafe(Run(Initial(cfg), front), last);
      } else {
        forall k | 0 <= k < |front| && Disturbs(front[k].section)
          ensures exists m :: k < m < |front| && front[m].section.Reassess?
        {
          assert Disturbs(steps[k].section);
          var m :| k < m < |steps| && steps[m].section.Reassess?;
          assert front[m].section.Reassess?;
        }
        DualPathSafety(cfg, front);
        StepKeepsSafe(Run(Initial(cfg), front), last);
      }
    }
  }

  // ---------------------------------------------------------------- exactly when safety is broken

  /** Ground lowers the mode, or a manual mark takes a subsystem away, against the dual-path rule. */
  predicate Breaks(s: State, step: Step) {
    match step.section
    case Ground(raw) => raw < SAFE && |CriticalDown(s.subs)| >= s.cfg.threshold
    case StepDown => s.mode == SAFE && |CriticalDown(s.subs)| >= s.cfg.threshold
    case MarkSub(sub, mark) =>
      mark.MarkDown? && s.mode < SAFE && |CriticalDown(Marked(s.subs, sub, mark))| >= s.cfg.threshold
    case _ => false
  }

  lemma DisturbanceBreaks(s: State, step: Step)
    requires DualPathSafe(s) && Disturbs(step.section)
    ensures DualPathSafe(Do(s, step)) <==> !Breaks(s, step)
  {
    hide Handle, CriticalDown, PlainEvent, SubsystemEvent, MarkedOne;
  }

  lemma BreaksExactly(s: State, step: Step)
    requires DualPathSafe(s)
    ensures DualPathSafe(Do(s, step)) <==> !Breaks(s, step)
  {
    hide Do, CriticalDown;
    if Disturbs(step.section) {
      DisturbanceBreaks(s, step);
    } else {
      StepKeepsSafe(s, step);
    }
  }

  ghost predicate AlwaysSafe(s: State, steps: seq<Step>) {
    forall n | 0 <= n <= |steps| :: DualPathSafe(Run(s, steps[..n]))
  }

  lemma {:induction false} SafeSoFar(s: State, steps: seq<Step>, n: nat)
    requires DualPathSafe(s) && n <= |steps|
    requires forall k | 0 <= k < n :: !Breaks(Run(s, steps[..k]), steps[k])
    ensures DualPathSafe(Run(s, steps[..n]))
  {
    hide Do, Breaks, DualPathSafe;
    if n > 0 {
      SafeSoFar(s, steps, n - 1);
      assert steps[..n][..n - 1] == steps[..n - 1];
      BreaksExactly(Run(s, steps[..n - 1]), steps[n - 1]);
    }
  }

  /**
   * Main result: every state of a run is dual-path safe if and only if the threshold is not zero and no
   * section of the run breaks it.
   */
  lemma AlwaysSafeExactly(cfg: Config, steps: seq<Step>)
    ensures AlwaysSafe(Initial(cfg), steps)
            <==> cfg.threshold >= 1
                 && forall k | 0 <= k < |steps| :: !Breaks(Run(Initial(cfg), steps[..k]), steps[k])
  {
    hide Do, Breaks;
    var s := Initial(cfg);
    assert CriticalDown(s.subs) == {};
    assert steps[..0] == [] && Run(s, []) == s;
    assert DualPathSafe(s) <==> cfg.threshold >= 1;
    hide DualPathSafe;
    if AlwaysSafe(s, steps) {
      assert DualPathSafe(Run(s, steps[..0]));
      forall k | 0 <= k < |steps| ensures !Breaks(Run(s, steps[..k]), steps[k]) {
        assert steps[..k + 1][..k] == steps[..k];
        assert DualPathSafe(Run(s, steps[..k])) && DualPathSafe(Run(s, steps[..k + 1]));
        BreaksExactly(Run(s, steps[..k]), steps[k]);
      }
    }
    if cfg.threshold >= 1 && forall k | 0 <= k < |steps| :: !Breaks(Run(s, steps[..k]), steps[k]) {
      forall n | 0 <= n <= |steps| ensures DualPathSafe(Run(s, steps[..n])) {
        SafeSoFar(s, steps, n);
      }
    }
  }
}
