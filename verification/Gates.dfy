/** When the gates let work through, and what registration, health and heartbeats have to do with it. */
module Gates {
  import opened Types
  import opened Model
  import opened Frames
  import opened Partition
  import opened Budget
  import opened Policies
  import opened Reporting

  /** Both gates say so, supervised or not. */
  predicate LetsThrough(s: State, id: Byte, fit: bool) {
    && (EntityMayRun(s, id) <==> !s.supervised || (s.mode < SAFE && fit))
    && (WorkerMayRun(s, id) <==> s.mode < SAFE && (!s.supervised || fit))
  }

  // ---------------------------------------------------------------- registration

  /**
   * Registration fails for a full table before it looks at the descriptor, and for RESTART as exhausted
   * action; otherwise the entity gets the next number and a clean record, and the gates let it through.
   */
  lemma NewEntityIsLetThrough(s: State, desc: EntityDesc, now: Millis)
    ensures
      var t, status, id := RegisterEntity(s, desc, now), RegisterStatus(s, desc), |s.entities|;
      if id >= s.cfg.entityCap then t == s && status == ErrFull
      else if desc.onExhausted.Restart? then t == s && status == ErrParam
      else
        && status == StatusOk && |t.entities| == id + 1 && t == s.(entities := t.entities)
        && (forall i | 0 <= i < id :: t.entities[i] == s.entities[i])
        && t.entities[id].slot == Slot(desc, 0, 0, 0, 0, |s.log|)
        && t.entities[id].vitals == Renewed(now)
        && LetsThrough(t, id, true)
  {
  }

  /** A subsystem gets the next number, available and not degraded, unless the table is full. */
  lemma NewSubsystemIsAvailable(s: State, desc: SubsystemDesc)
    ensures
      var t, n := RegisterSubsystem(s, desc), |s.subs|;
      if n >= s.cfg.subsystemCap then t == s
      else
        && |t.subs| == n + 1 && t == s.(subs := t.subs) && (forall j | 0 <= j < n :: t.subs[j] == s.subs[j])
        && t.subs[n] == Subsystem(desc, true, false, |s.log|)
  {
  }

  // ---------------------------------------------------------------- recovery

  /** A restart that is due and succeeds opens the gates again, below SAFE. */
  lemma RestartOpensGates(s: State, r: Report, now: Millis)
    requires r.entity < |s.entities| && s.entities[r.entity].vitals.latch != Some(r.reason)
    requires SlotWell(s, s.entities[r.entity].slot)
    requires
      var slot := s.entities[r.entity].slot;
      && (HookAnswer(slot, r).Restart? || (HookIsSilent(slot, r) && !Spent(slot, r.reason == WATCHDOG)))
      && CallbackSucceeds(slot)
    ensures Handle(s, r, now).supervised == s.supervised
    ensures LetsThrough(Handle(s, r, now), r.entity, true)
  {
    hide Handle, SlotWell, SubsystemAnswer, CallbackSucceeds, ClassCalls, CriticalDown;
    SuccessfulRestartRevives(s, r, now);
    HandleIsBounded(s, r, now);
  }

  /** Main result: after any orderly run the gates are open, below SAFE, exactly for the idle entities. */
  lemma GatesAreExact(cfg: Config, calls: seq<Call>, id: Byte)
    requires OrderlyRun(Initial(cfg), calls)
    ensures
      var s := PerformAll(Initial(cfg), calls);
      LetsThrough(s, id, id < |s.entities| && Idle(s, id))
  {
    hide PerformAll, OrderlyRun;
    var s := PerformAll(Initial(cfg), calls);
    PartitionOverRuns(cfg, calls);
    if id < |s.entities| {
      assert Placed(s, id);
    }
  }

  // ---------------------------------------------------------------- health by hand

  /**
   * A heartbeat never opens the gates of a failed entity and always those of any other one, below SAFE;
   * it makes the entity fresh.
   */
  lemma BeatOpensOthers(s: State, id: Byte, now: Millis)
    requires id < |s.entities|
    ensures
      var t, failed := Heartbeat(s, id, now), s.entities[id].vitals.health.HealthFailed?;
      var v, w := s.entities[id].vitals, t.entities[id].vitals;
      && w.lastBeat == now && w.latch == v.latch && w.errorCode == v.errorCode && w.detail == v.detail
      && w.health == (if failed then HealthFailed else HealthOk)
      && LetsThrough(t, id, !failed) && !Overdue(t, id, now)
      && t == s.(entities := s.entities[id := s.entities[id].(vitals := w)])
  {
  }

  /** A beat on an unknown entity, as on the worker gate below SAFE, changes nothing. */
  lemma UnknownBeatIsNothing(s: State, id: Byte, now: Millis)
    ensures id >= |s.entities| ==> Heartbeat(s, id, now) == s
  {
  }

  /**
   * Resetting an entity's health opens its gates below SAFE, but keeps its latch: the latched reason
   * goes on being deduplicated while any other one can be reported.
   */
  lemma ResetKeepsHistory(s: State, id: Byte, now: Millis, reason: Reason)
    requires id < |s.entities|
    ensures
      var t := ResetHealth(s, id, now);
      && t == s.(entities := t.entities) && |t.entities| == |s.entities|
      && (forall i | 0 <= i < |s.entities| && i != id :: t.entities[i] == s.entities[i])
      && t.entities[id].slot == s.entities[id].slot
      && t.entities[id].vitals == Renewed(now).(latch := s.entities[id].vitals.latch)
      && LetsThrough(t, id, true)
      && (Reportable(t, id, reason) <==> s.supervised && s.entities[id].vitals.latch != Some(reason))
  {
  }

  /** Health set by hand shuts the gates exactly if it is FAILED, and records code and text. */
  lemma HealthByHandDecides(s: State, id: Byte, health: Health, code: Word, detail: Detail)
    requires id < |s.entities|
    ensures
      var t := SetHealth(s, id, health, code, detail);
      && t == s.(entities := t.entities) && |t.entities| == |s.entities|
      && (forall i | 0 <= i < |s.entities| && i != id :: t.entities[i] == s.entities[i])
      && t.entities[id].slot == s.entities[id].slot
      && t.entities[id].vitals
         == Vitals(health, s.entities[id].vitals.lastBeat, code, detail, s.entities[id].vitals.latch)
      && LetsThrough(t, id, !health.HealthFailed?)
  {
  }

  /** In SAFE and above the worker's gate refuses, but stands for a heartbeat, so no miss is raised. */
  lemma WorkerGateKeepsAlive(s: State, id: Byte, now: Millis)
    ensures
      var t := WorkerGate(s, id, now);
      if s.mode < SAFE then t == s
      else !WorkerMayRun(s, id) && t == Heartbeat(s, id, now) && !Overdue(t, id, now)
           && (id < |s.entities| ==> id < |t.entities| && t.entities[id].vitals.lastBeat == now)
  {
  }

  // ---------------------------------------------------------------- the switch

  /** Switching supervision off forgets the queue, and switching it on again brings nothing back. */
  lemma SwitchForgets(s: State, enabled: bool, now: Millis)
    ensures
      var t := SetSupervision(s, enabled, now);
      && t.supervised == enabled
      && (if s.supervised && !enabled then t.queue == [] && !t.full else t.queue == s.queue && t.full == s.full)
      && t == s.(supervised := enabled, queue := t.queue, full := t.full, log := t.log)
      && (!enabled ==> forall id :: EntityMayRun(t, id) && (WorkerMayRun(t, id) <==> t.mode < SAFE))
  {
  }

  /** While supervision is off, faults, submissions, direct handling, scans and ticks change nothing. */
  lemma CallsWhileOffAreNothing(s: State, r: Report, now: Millis, sampled: Millis, at: Readings, clock: Clock)
    requires !s.supervised
    ensures ReportFault(s, r.entity, r.reason, r.errorCode, r.detail, r.flags, now) == s
    ensures ReportStatus(s, r.entity, r.reason, r.errorCode, r.detail, r.flags, now) == StatusOk
    ensures SubmitFailure(s, r) == s && HandleFailure(s, r, now) == s
    ensures CheckWatchdogs(s, sampled, at) == s && Tick(s, clock) == s
  {
    hide Handle, HandleAll, ScanTo;
  }
}
