/** The 32-bit staleness test against time that never wraps. */
module Watchdog {
  import opened Types
  import opened Model
  import opened Frames
  import opened Supervision
  import opened Isolation

  /** The clock reading at an unbounded instant. */
  function ReadingAt(instant: nat): Millis {
    instant % MILLIS_RANGE
  }

  /** Wrapping subtraction of two readings is the true difference modulo the range. */
  lemma ElapsedWraps(beat: nat, now: nat)
    ensures Elapsed(ReadingAt(now), ReadingAt(beat)) == (now - beat) % MILLIS_RANGE
  {
    var n, b := now / MILLIS_RANGE, beat / MILLIS_RANGE;
    assert now == n * MILLIS_RANGE + ReadingAt(now) && beat == b * MILLIS_RANGE + ReadingAt(beat);
    assert now - beat == (n - b) * MILLIS_RANGE + (ReadingAt(now) - ReadingAt(beat));
  }

  /** The entity is watched, and last gave a sign of life at `beat`. */
  predicate Watched(s: State, id: Byte, beat: nat) {
    && id < |s.entities| && !IsFailed(s, id)
    && s.entities[id].vitals.lastBeat == ReadingAt(beat)
  }

  function TrueLimit(cfg: Config): nat {
    cfg.tolerance * cfg.period
  }

  /** Main result: up to one wrap of silence, stale means silent for longer than tolerance times period. */
  lemma StalenessIsExact(s: State, id: Byte, beat: nat, now: nat)
    requires Watched(s, id, beat) && beat <= now < beat + MILLIS_RANGE
    requires TrueLimit(s.cfg) < MILLIS_RANGE
    ensures IsStale(s, id, ReadingAt(now), MaxAge(s.cfg)) <==> now - beat > TrueLimit(s.cfg)
  {
    ElapsedWraps(beat, now);
  }

  /** For longer silences the test is right exactly when what remains after wrapping is still too long. */
  lemma LongSilence(s: State, id: Byte, beat: nat, now: nat)
    requires Watched(s, id, beat) && beat + MILLIS_RANGE <= now
    ensures now - beat > MaxAge(s.cfg)
    ensures IsStale(s, id, ReadingAt(now), MaxAge(s.cfg)) <==> (now - beat) % MILLIS_RANGE > MaxAge(s.cfg)
  {
    ElapsedWraps(beat, now);
  }

  /** A sign of life after the clock was sampled looks stale unless it is almost a whole wrap later. */
  lemma LateBeat(s: State, id: Byte, beat: nat, now: nat)
    requires Watched(s, id, beat) && now < beat < now + MILLIS_RANGE
    ensures IsStale(s, id, ReadingAt(now), MaxAge(s.cfg)) <==> beat - now < MILLIS_RANGE - MaxAge(s.cfg)
  {
    ElapsedWraps(beat, now);
  }

  /**
   * The scan samples its clock before it takes the lock, so an entity that beats in between is raised
   * as a watchdog fault, for every limit short of the whole range.
   */
  lemma BeatDuringScanRaisesFault(s: State, id: Byte, now: nat)
    requires id < |s.entities| && !IsFailed(s, id) && !IsLatched(s, id, WATCHDOG)
    ensures Overdue(Heartbeat(s, id, ReadingAt(now + 1)), id, ReadingAt(now))
            <==> MaxAge(s.cfg) < MILLIS_RANGE - 1
  {
    LateBeat(Heartbeat(s, id, ReadingAt(now + 1)), id, now + 1, now);
  }

  /** The 32-bit product is the true limit exactly when that fits. */
  lemma LimitIsExact(cfg: Config)
    ensures MaxAge(cfg) == TrueLimit(cfg) <==> TrueLimit(cfg) < MILLIS_RANGE
  {
  }

  const LARGEST_SAFE_PERIOD: nat := 16843009

  /** It fits for every 8-bit tolerance exactly up to this period. */
  lemma PeriodBoundIsTight(period: Millis)
    ensures (forall tolerance: Byte :: tolerance * period < MILLIS_RANGE) <==> period <= LARGEST_SAFE_PERIOD
  {
    if period <= LARGEST_SAFE_PERIOD {
      forall tolerance: Byte ensures tolerance * period < MILLIS_RANGE {
        assert tolerance * period <= 255 * LARGEST_SAFE_PERIOD by {
          MulMono(tolerance, 255, period);
        }
      }
    } else {
      var worst: Byte := 255;
      assert worst * period >= MILLIS_RANGE;
    }
  }

  lemma MulMono(a: nat, b: nat, c: nat)
    requires a <= b
    ensures a * c <= b * c
  {
    assert b * c - a * c == (b - a) * c;
  }

  // ---------------------------------------------------------------- silence over whole runs

  /** Sections that are no sign of life of the entity. */
  predicate IsSilent(section: Section, id: Byte) {
    !(section.Beat? && section.id == id) && !(section.HealthReset? && section.id == id)
  }

  lemma EntitySectionSilent(s: State, step: Step, id: Byte)
    requires TouchesEntities(step.section) && !step.section.Process?
    requires id < |s.entities| && IsSilent(step.section, id)
    ensures id < |Do(s, step).entities|
    ensures Do(s, step).entities[id].vitals.lastBeat == s.entities[id].vitals.lastBeat
  {
    hide FreshVitals, Handle, SetSupervision, MarkByHand, EnterDegraded, EnterSafe, EvaluateDualPath, TryReboot,
         Model.SetMode, PlainEvent, NotedEvent, ReportFault;
    match step.section
    case Fault(other, reason, code, detail, flags) => FaultSpares(s, other, reason, code, detail, flags, step.now, id);
    case _ =>
  }

  lemma HandleIsSilent(s: State, r: Report, now: Millis, id: Byte)
    requires id < |s.entities|
    ensures
      var t := Handle(s, r, now);
      && id < |t.entities|
      && (t.entities[id].vitals.lastBeat == s.entities[id].vitals.lastBeat || Restarted(t.log, |s.log|, id))
  {
    hide Handle, Restarted, FreshVitals;
    HandleIsBounded(s, r, now);
    if r.entity == id && !IsLatched(s, id, r.reason) {
      HandlingOutcome(s, r, now);
      HandleFailsOrTells(s, r, now);
      FreshIsNotFailed(now);
    }
  }

  lemma FreshIsNotFailed(now: Millis)
    ensures !FreshVitals(None, now).health.HealthFailed?
  {
  }

  lemma StepIsSilent(s: State, step: Step, id: Byte)
    requires id < |s.entities| && IsSilent(step.section, id)
    ensures id < |Do(s, step).entities|
    ensures Do(s, step).entities[id].vitals.lastBeat == s.entities[id].vitals.lastBeat
            || Restarted(Do(s, step).log, |s.log|, id)
  {
    hide Do, Restarted;
    if !TouchesEntities(step.section) {
      EntitiesUntouched(s, step);
    } else if step.section.Process? {
      ProcessIs(s, step);
      HandleIsSilent(s, step.section.r, step.now, id);
    } else {
      EntitySectionSilent(s, step, id);
    }
  }

  lemma {:induction false} RunIsSilent(s: State, steps: seq<Step>, id: Byte)
    requires id < |s.entities|
    requires forall k | 0 <= k < |steps| :: IsSilent(steps[k].section, id)
    ensures
      var t := Run(s, steps);
      && id < |t.entities| && s.log <= t.log && t.cfg == s.cfg
      && (Restarted(t.log, |s.log|, id) || t.entities[id].vitals.lastBeat == s.entities[id].vitals.lastBeat)
  {
    hide Do, Restarted;
    if steps != [] {
      var front, last := steps[..|steps| - 1], steps[|steps| - 1];
      var t := Run(s, front);
      RunIsSilent(s, front, id);
      StepGrowsLog(t, last);
      StepExtends(t, last);
      StepIsSilent(t, last, id);
      if Restarted(t.log, |s.log|, id) {
        RestartedLater(t.log, Do(t, last).log, |s.log|, |s.log|, id);
      } else if Restarted(Do(t, last).log, |t.log|, id) {
        RestartedLater(Do(t, last).log, Do(t, last).log, |t.log|, |s.log|, id);
      }
    }
  }

  /**
   * Main result over runs: whatever happens after a sign of life, as long as it is no heartbeat, reset
   * or restart, the entity looks stale exactly when its silence has lasted longer than the limit.
   */
  lemma SilenceIsMeasured(s: State, steps: seq<Step>, id: Byte, beat: nat, now: nat)
    requires id < |s.entities| && s.entities[id].vitals.lastBeat == ReadingAt(beat)
    requires forall k | 0 <= k < |steps| :: IsSilent(steps[k].section, id)
    requires beat <= now < beat + MILLIS_RANGE && TrueLimit(s.cfg) < MILLIS_RANGE
    ensures
      var t := Run(s, steps);
      || Restarted(t.log, |s.log|, id) || IsFailed(t, id)
      || (IsStale(t, id, ReadingAt(now), MaxAge(s.cfg)) <==> now - beat > TrueLimit(s.cfg))
  {
    hide Run, Restarted, IsStale, TrueLimit, MaxAge;
    RunIsSilent(s, steps, id);
    var t := Run(s, steps);
    if !Restarted(t.log, |s.log|, id) && !IsFailed(t, id) {
      StalenessIsExact(t, id, beat, now);
    }
  }
}
