/** What holds over all runs holds over all histories: however threads interleave between sections. */
module Histories {
  import opened Types
  import opened Model
  import opened Interleaving
  import opened Isolation
  import opened Escalation
  import opened Watchdog
  import opened Budget
  import opened Replay

  /** Budgets and the replayed view survive every interleaving. */
  lemma InterleavedInvariants(cfg: Config, trace: seq<System>, moves: seq<Move>)
    requires History(trace, moves) && trace[0].state == Initial(cfg)
    ensures BudgetsKept(trace[|moves|].state) && Faithful(trace[|moves|].state)
  {
    hide BudgetsKept, Faithful, Run, Moved, Enabled;
    HistoryIsRun(trace, moves);
    BudgetsOverRuns(cfg, Sections(trace, moves));
    LogDeterminesState(cfg, Sections(trace, moves));
  }

  /** A failed entity stays shut out, whatever the threads do between sections, until its own restart. */
  lemma IsolationInHistories(trace: seq<System>, moves: seq<Move>, id: Byte)
    requires History(trace, moves) && trace[0].state.supervised && IsFailed(trace[0].state, id)
    requires forall k | 0 <= k < |moves| && moves[k].Atomically? :: Spares(moves[k].step.section, id)
    ensures
      var s, t := trace[0].state, trace[|moves|].state;
      && s.log <= t.log
      && (Restarted(t.log, |s.log|, id)
          || (t.supervised && IsFailed(t, id) && !EntityMayRun(t, id) && !WorkerMayRun(t, id)))
  {
    hide Run, Restarted, Moved, Enabled;
    HistoryIsRun(trace, moves);
    SectionsSatisfy(trace, moves, section => Spares(section, id));
    IsolationPersists(trace[0].state, Sections(trace, moves), id);
  }

  /** Without ground commands no interleaving lowers the mode. */
  lemma ModeInHistories(trace: seq<System>, moves: seq<Move>)
    requires History(trace, moves)
    requires forall k | 0 <= k < |moves| && moves[k].Atomically? :: !IsGround(moves[k].step.section)
    ensures trace[0].state.mode <= trace[|moves|].state.mode
    ensures trace[0].state.mode == REBOOT_PENDING ==> trace[|moves|].state.mode == REBOOT_PENDING
  {
    hide Run, Moved, Enabled;
    HistoryIsRun(trace, moves);
    SectionsSatisfy(trace, moves, section => !IsGround(section));
    ModeNeverDecreases(trace[0].state, Sections(trace, moves));
  }

  /** REBOOT_PENDING is not reached in any interleaving without a reboot request. */
  lemma RebootInHistories(cfg: Config, trace: seq<System>, moves: seq<Move>)
    requires History(trace, moves) && trace[0].state == Initial(cfg)
    ensures trace[|moves|].state.mode == REBOOT_PENDING ==> |trace[|moves|].state.reboots| >= 1
  {
    hide Run, Moved, Enabled;
    HistoryIsRun(trace, moves);
    RebootPendingWasRequested(cfg, Sections(trace, moves));
  }

  /** However threads interleave, an entity looks stale exactly when its silence has lasted too long. */
  lemma SilenceInHistories(trace: seq<System>, moves: seq<Move>, id: Byte, beat: nat, now: nat)
    requires History(trace, moves) && id < |trace[0].state.entities|
    requires trace[0].state.entities[id].vitals.lastBeat == ReadingAt(beat)
    requires forall k | 0 <= k < |moves| && moves[k].Atomically? :: IsSilent(moves[k].step.section, id)
    requires beat <= now < beat + MILLIS_RANGE && TrueLimit(trace[0].state.cfg) < MILLIS_RANGE
    ensures
      var s, t := trace[0].state, trace[|moves|].state;
      || Restarted(t.log, |s.log|, id) || IsFailed(t, id)
      || (IsStale(t, id, ReadingAt(now), MaxAge(s.cfg)) <==> now - beat > TrueLimit(s.cfg))
  {
    hide Run, Restarted, IsStale, TrueLimit, MaxAge, Moved, Enabled;
    HistoryIsRun(trace, moves);
    SectionsSatisfy(trace, moves, section => IsSilent(section, id));
    SilenceIsMeasured(trace[0].state, Sections(trace, moves), id, beat, now);
  }

  // ---------------------------------------------------------------- dual-path safety

  /** Every disturbing call of the history was followed by a reassessment. */
  predicate AnsweredFor(moves: seq<Move>) {
    forall k | 0 <= k < |moves| && moves[k].Atomically? && Disturbs(moves[k].step.section) ::
      exists m :: k < m < |moves| && moves[m].Atomically? && moves[m].step.section.Reassess?
  }

  lemma ReassessedSnoc(steps: seq<Step>, step: Step)
    requires step.section.Reassess? || (Reassessed(steps) && !Disturbs(step.section))
    ensures Reassessed(steps + [step])
  {
    hide Disturbs;
    var all := steps + [step];
    assert !Disturbs(step.section) by { ReassessDoesNotDisturb(step.section); }
    forall k | 0 <= k < |all| && Disturbs(all[k].section)
      ensures exists m :: k < m < |all| && all[m].section.Reassess?
    {
      if step.section.Reassess? {
        assert all[|steps|].section.Reassess?;
      } else {
        var m :| k < m < |steps| && steps[m].section.Reassess?;
        assert all[m].section.Reassess?;
      }
    }
  }

  lemma ReassessDoesNotDisturb(section: Section)
    ensures section.Reassess? || InThread(section) ==> !Disturbs(section)
  {
  }

  lemma AnsweredFront(moves: seq<Move>)
    requires moves != [] && AnsweredFor(moves)
    ensures
      var last := moves[|moves| - 1];
      (last.Atomically? && last.step.section.Reassess?) || AnsweredFor(moves[..|moves| - 1])
    ensures
      var last := moves[|moves| - 1];
      last.Atomically? ==> !Disturbs(last.step.section)
  {
    hide Disturbs;
    var front, last := moves[..|moves| - 1], moves[|moves| - 1];
    if !(last.Atomically? && last.step.section.Reassess?) {
      forall k | 0 <= k < |front| && front[k].Atomically? && Disturbs(front[k].step.section)
        ensures exists m :: k < m < |front| && front[m].Atomically? && front[m].step.section.Reassess?
      {
        assert moves[k] == front[k];
        var m :| k < m < |moves| && moves[m].Atomically? && moves[m].step.section.Reassess?;
        assert front[m] == moves[m];
      }
    }
  }

  lemma {:induction false} AnsweredIsReassessed(trace: seq<System>, moves: seq<Move>)
    requires History(trace, moves) && AnsweredFor(moves)
    ensures Reassessed(Sections(trace, moves))
    decreases |moves|
  {
    hide AnsweredFor, Reassessed, Disturbs, Moved, Enabled, SectionOf;
    if moves == [] {
      assert Reassessed([]) by { NothingToReassess(); }
    } else {
      var m := |moves| - 1;
      var last := SectionOf(trace[m], moves[m]);
      AnsweredFront(moves);
      if AnsweredFor(moves[..m]) {
        AnsweredIsReassessed(trace[..m + 1], moves[..m]);
      }
      LastSection(trace[m], moves[m]);
      if last.Some? {
        ReassessedSnoc(Sections(trace[..m + 1], moves[..m]), last.value);
      } else {
        assert Sections(trace, moves) == Sections(trace[..m + 1], moves[..m]);
      }
    }
  }

  lemma NothingToReassess()
    ensures Reassessed([])
  {
  }

  lemma LastSection(sys: System, move: Move)
    requires Enabled(sys, move)
    ensures move.Atomically? ==> SectionOf(sys, move) == Some(move.step)
    ensures !move.Atomically? && SectionOf(sys, move).Some? ==> !Disturbs(SectionOf(sys, move).value.section)
  {
    hide NextOverdue;
  }

  /** Main result: in every interleaving the system is safe once every disturbance was reassessed. */
  lemma DualPathInHistories(cfg: Config, trace: seq<System>, moves: seq<Move>)
    requires History(trace, moves) && trace[0].state == Initial(cfg)
    requires cfg.threshold >= 1 && AnsweredFor(moves)
    ensures DualPathSafe(trace[|moves|].state)
  {
    hide Run, DualPathSafe, AnsweredFor, Reassessed, Moved, Enabled;
    HistoryIsRun(trace, moves);
    AnsweredIsReassessed(trace, moves);
    DualPathSafety(cfg, Sections(trace, moves));
  }
}
