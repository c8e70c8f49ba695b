/** A worker's report from the call to its outcome: nothing of it is lost or altered on the way. */
module Reporting {
  import opened Types
  import opened Model
  import opened Frames
  import opened Isolation
  import opened Supervision
  import opened Confluence
  import opened Partition
  import opened Limits
  import opened Budget
  import opened Policies
  import opened Announcements

  // ---------------------------------------------------------------- into the queue

  /** Supervision is on, and the entity, if it is known, has neither failed nor this very reason latched. */
  predicate Reportable(s: State, id: Byte, reason: Reason) {
    && s.supervised
    && (id < |s.entities| ==>
          !s.entities[id].vitals.health.HealthFailed? && s.entities[id].vitals.latch != Some(reason))
  }

  /** The queue's newest report says what the caller said. */
  predicate Queues(s: State, t: State, r: Report) {
    |t.queue| == |s.queue| + 1 && s.queue <= t.queue && t.queue[|s.queue|] == r
  }

  /**
   * A report that can be made, with room in the queue, is queued word for word and its entity marked
   * failed; without room the caller is told so by urgency; and otherwise nothing happens.
   */
  lemma FaultIsQueuedVerbatim(s: State, id: Byte, reason: Reason, code: Word, detail: Detail, flags: Byte, now: Millis)
    ensures
      var t, status := ReportFault(s, id, reason, code, detail, flags, now),
                       ReportStatus(s, id, reason, code, detail, flags, now);
      if !Reportable(s, id, reason) then t == s && status == StatusOk
      else if |s.queue| < s.cfg.queueCap then
        && status == StatusOk && Queues(s, t, Report(id, reason, code, detail, now, flags))
        && |t.entities| == |s.entities|
        && (id < |s.entities| ==>
              && t.entities[id].slot == s.entities[id].slot
              && t.entities[id].vitals
                 == Vitals(HealthFailed, s.entities[id].vitals.lastBeat, code, detail, s.entities[id].vitals.latch))
        && (forall i | 0 <= i < |s.entities| && i != id :: t.entities[i] == s.entities[i])
        && t == s.(queue := t.queue, entities := t.entities, accepted := t.accepted)
      else
        t == s.(full := true) && status == if flags % 2 == 1 then ErrBusy else ErrState
  {
  }

  /** A report submitted ready-made is queued as it is, or refused by urgency, or dropped. */
  lemma SubmissionIsQueuedVerbatim(s: State, r: Report)
    ensures
      var t := SubmitFailure(s, r);
      if !s.supervised then t == s
      else if |s.queue| < s.cfg.queueCap then
        && PutStatus(s, r) == StatusOk && Queues(s, t, r)
        && t == s.(queue := t.queue, accepted := t.accepted)
      else t == s.(full := true) && PutStatus(s, r) == if r.flags % 2 == 1 then ErrBusy else ErrState
  {
  }

  // ---------------------------------------------------------------- out of the queue

  /** The log tells of the report, with its own data, at or after position `from`. */
  ghost predicate Told(log: seq<Event>, from: nat, mode: Mode, r: Report, now: Millis) {
    from < |log| && TellsReport(log[from], mode, r, now)
  }

  /** The report's entity was restarted, or stays failed with this report as the one on record. */
  predicate SettledBy(before: Vitals, after: Vitals, r: Report, now: Millis) {
    after == Renewed(now) || after == Downed(before, r)
  }

  /** The last report of a batch that has the entity's only report is told and settles the entity. */
  lemma LastIsTold(s: State, reports: seq<Report>, at: Readings)
    requires reports != [] && BudgetsKept(s)
    requires
      var r, n := reports[|reports| - 1], |reports| - 1;
      && r.entity < |s.entities| && s.entities[r.entity].vitals.latch != Some(r.reason)
      && forall k | 0 <= k < n :: reports[k].entity != r.entity
    ensures
      var n, r := |reports| - 1, reports[|reports| - 1];
      var u, t := HandleAll(s, reports[..n], at), HandleAll(s, reports, at);
      && |t.entities| == |s.entities| && s.log <= u.log
      && Told(t.log, |u.log|, u.mode, r, at(n))
      && SettledBy(s.entities[r.entity].vitals, t.entities[r.entity].vitals, r, at(n))
  {
    hide Handle, HandleAll, SlotWell, Adds, TellsReport, Overruled, Leaves, Verdict;
    var n := |reports| - 1;
    var r, front := reports[n], reports[..n];
    var u := HandleAll(s, front, at);
    LastOfBatch(s, reports, at);
    BatchIsBounded(s, front, at);
    BatchKeepsBudgets(s, front, at);
    BatchGrowsLog(s, front, at);
    assert u.entities[r.entity] == s.entities[r.entity];
    assert SlotWell(u, u.entities[r.entity].slot);
    HandlingTells(u, r, at(n));
    VerdictIsCarriedOut(u, r, at(n));
  }

  lemma {:induction false} BatchKeepsBudgets(s: State, reports: seq<Report>, at: Readings)
    requires BudgetsKept(s)
    ensures BudgetsKept(HandleAll(s, reports, at))
  {
    hide Handle, BudgetsKept;
    if reports != [] {
      var n := |reports| - 1;
      BatchKeepsBudgets(s, reports[..n], at);
      HandleKeepsBudgets(HandleAll(s, reports[..n], at), reports[n], at(n));
    }
  }

  lemma {:induction false} BatchGrowsLog(s: State, reports: seq<Report>, at: Readings)
    ensures s.log <= HandleAll(s, reports, at).log
  {
    hide Handle;
    if reports != [] {
      var n := |reports| - 1;
      BatchGrowsLog(s, reports[..n], at);
      HandleGrowsLog(HandleAll(s, reports[..n], at), reports[n], at(n));
    }
  }

  /**
   * Main result, end to end: a worker's fault that is accepted while everything is in its place is told
   * to ground by the next drain with the worker's entity, reason, code and text, and leaves the entity
   * restarted or failed with that very reason latched.
   */
  lemma FaultReachesGround(s: State, id: Byte, reason: Reason, code: Word, detail: Detail, flags: Byte, now: Millis,
                           at: Readings)
    requires Partitioned(s) && BudgetsKept(s) && id < |s.entities| && Reportable(s, id, reason)
    requires |s.queue| < s.cfg.queueCap
    ensures
      var r := Report(id, reason, code, detail, now, flags);
      var t := ReportFault(s, id, reason, code, detail, flags, now);
      var u := HandleAll(t.(queue := []), s.queue, at);
      var d := HandleAll(t.(queue := []), t.queue, at);
      && s.log <= u.log && |d.entities| == |s.entities|
      && Told(d.log, |u.log|, u.mode, r, at(|s.queue|))
      && SettledBy(s.entities[id].vitals, d.entities[id].vitals, r, at(|s.queue|))
  {
    hide HandleAll, SlotWell, Told, HandleAll, ReportFault;
    var r := Report(id, reason, code, detail, now, flags);
    var t := ReportFault(s, id, reason, code, detail, flags, now);
    FaultIsQueuedVerbatim(s, id, reason, code, detail, flags, now);
    assert Placed(s, id);
    assert t.queue[..|s.queue|] == s.queue;
    forall k | 0 <= k < |s.queue| ensures t.queue[k].entity != id {
      assert t.queue[k] == s.queue[k];
    }
    ReportedKeepsBudgets(s, t, id);
    LastIsTold(t.(queue := []), t.queue, at);
  }

  lemma ReportedKeepsBudgets(s: State, t: State, id: nat)
    requires BudgetsKept(s) && |t.entities| == |s.entities| && t.subs == s.subs && id < |s.entities|
    requires t.entities[id].slot == s.entities[id].slot
    requires forall i | 0 <= i < |s.entities| && i != id :: t.entities[i] == s.entities[i]
    ensures BudgetsKept(t.(queue := []))
  {
    hide CountersExact, WithinBudget, DecideNeverRestarts, ExhaustedNeverRestarts;
    var u := t.(queue := []);
    forall i | 0 <= i < |u.entities| ensures SlotWell(u, u.entities[i].slot) {
      assert SlotWell(s, s.entities[i].slot);
    }
  }

  // ---------------------------------------------------------------- what the scan reports

  lemma WellWithSameSubsystems(s: State, t: State, slot: Slot)
    requires SlotWell(s, slot) && t.subs == s.subs
    ensures SlotWell(t, slot)
  {
    hide CountersExact, WithinBudget, DecideNeverRestarts, ExhaustedNeverRestarts;
  }

  /** An overdue entity's miss is told as a heartbeat timeout at the time the scan sampled. */
  lemma MissIsTold(s: State, id: Byte, sampled: Millis, now: Millis)
    requires s.supervised && BudgetsKept(s) && Overdue(s, id, sampled)
    ensures
      var t := ScanOne(s, id, sampled, now);
      var e := s.entities[id];
      && |t.log| > |s.log| && s.log <= t.log && |t.entities| == |s.entities|
      && t.log[|s.log|].kind.WatchdogEvent? && t.log[|s.log|].entity == id
      && t.log[|s.log|].errorCode == 0 && t.log[|s.log|].detail.HeartbeatTimeoutTag?
      && t.log[|s.log|].timestamp == now
      && (exists r: Report ::
            && t.noticed == s.noticed + multiset{r} && t.handled == s.handled + multiset{r}
            && r.entity == id && r.reason == WATCHDOG && r.errorCode == 0 && r.detail.HeartbeatTimeoutTag?
            && r.timestamp == sampled && r.flags % 2 == 1)
      && (t.entities[id].vitals == Renewed(now)
          || t.entities[id].vitals
             == Vitals(HealthFailed, e.vitals.lastBeat, 0, HeartbeatTimeoutTag, Some(WATCHDOG)))
  {
    hide Handle, SlotWell, Adds, Overruled, Leaves, Verdict;
    var r := WatchdogReport(id, sampled);
    var u := s.(noticed := s.noticed + multiset{r});
    assert SlotWell(s, s.entities[id].slot);
    assert SlotWell(u, u.entities[id].slot) by { WellWithSameSubsystems(s, u, s.entities[id].slot); }
    HandlingTells(u, r, now);
    VerdictIsCarriedOut(u, r, now);
    HandleIsBounded(u, r, now);
  }
}
