/** The supervisor tick: the drain and the watchdog scan as folds of failure handling. */
module Supervision {
  import opened Types
  import opened Model
  import opened Effects
  import opened Frames
  import opened Confluence

  // ---------------------------------------------------------------- handling ignores the queue

  /** The state with another queue and other queue history. */
  function Over(s: State, b: State): State {
    s.(queue := b.queue, full := b.full, accepted := b.accepted, noticed := b.noticed)
  }

  lemma SetModeIgnoresQueue(s: State, b: State, mode: Mode, why: Detail, now: Millis)
    ensures SetMode(Over(s, b), mode, why, now) == Over(SetMode(s, mode, why, now), b)
  {
    hide PlainEvent;
  }

  lemma ModesIgnoreQueue(s: State, b: State, why: Detail, now: Millis)
    ensures EnterDegraded(Over(s, b), now) == Over(EnterDegraded(s, now), b)
    ensures EnterSafe(Over(s, b), now) == Over(EnterSafe(s, now), b)
    ensures TryReboot(Over(s, b), why, now) == Over(TryReboot(s, why, now), b)
    ensures EvaluateDualPath(Over(s, b), now) == Over(EvaluateDualPath(s, now), b)
  {
    hide SetMode, CriticalDown;
    SetModeIgnoresQueue(s, b, DEGRADED, DegradedTag, now);
    SetModeIgnoresQueue(s, b, SAFE, SafeTag, now);
    SetModeIgnoresQueue(s, b, REBOOT_PENDING, why, now);
  }

  lemma OverKeepsEntities(s: State, b: State)
    ensures Over(s, b).entities == s.entities
  {
  }

  lemma MarkIgnoresQueue(s: State, b: State, id: Byte, mark: Loss, r: Report, now: Millis)
    requires id < |s.entities|
    ensures MarkLinked(Over(s, b), id, mark, r, now) == Over(MarkLinked(s, id, mark, r, now), b)
  {
    hide SubsystemEvent, Marked, TagOf;
  }

  lemma TerminalIgnoresQueue(s: State, b: State, id: Byte, action: Action, r: Report, now: Millis)
    requires id < |s.entities|
    ensures ApplyTerminal(Over(s, b), id, action, r, now) == Over(ApplyTerminal(s, id, action, r, now), b)
  {
    hide EnterDegraded, EnterSafe, TryReboot, EvaluateDualPath, MarkLinked, Over;
    var why := RebootReason(r);
    var degraded, down := MarkLinked(s, id, MarkDegraded, r, now), MarkLinked(s, id, MarkDown, r, now);
    OverKeepsEntities(s, b);
    MarkIgnoresQueue(s, b, id, MarkDegraded, r, now);
    MarkIgnoresQueue(s, b, id, MarkDown, r, now);
    ModesIgnoreQueue(degraded, b, why, now);
    ModesIgnoreQueue(down, b, why, now);
    ModesIgnoreQueue(EnterDegraded(down, now), b, why, now);
  }

  lemma EmitIgnoresQueue(s: State, b: State, e: Event)
    ensures Emit(Over(s, b), e) == Over(Emit(s, e), b)
  {
  }

  lemma ReviveIgnoresQueue(s: State, b: State, id: Byte, reason: Reason, now: Millis)
    requires id < |s.entities|
    ensures Revive(Over(s, b), id, reason, now) == Over(Revive(s, id, reason, now), b)
  {
    hide PlainEvent, FreshVitals, Emit;
    var latch, name := s.entities[id].vitals.latch, Text(s.entities[id].slot.desc.name);
    var s1 := WithVitals(s, id, FreshVitals(None, now));
    assert WithVitals(Over(s, b), id, FreshVitals(None, now)) == Over(s1, b);
    var restarted := PlainEvent(RestartEvent, s.mode, id, reason, 0, EntityLevel, Raised, name, now);
    hide WithVitals;
    if latch.Some? {
      var cleared := PlainEvent(FailureEvent, s.mode, id, latch.value, 0, EntityLevel, Cleared, name, now);
      EmitIgnoresQueue(s1, b, cleared);
      EmitIgnoresQueue(Emit(s1, cleared), b, restarted);
    } else {
      EmitIgnoresQueue(s1, b, restarted);
    }
  }

  lemma RestartIgnoresQueue(s: State, b: State, id: Byte, reason: Reason, now: Millis)
    requires id < |s.entities|
    ensures TryRestart(Over(s, b), id, reason, now) == Over(TryRestart(s, id, reason, now), b)
  {
    hide Revive, BumpRestart;
    var s1 := WithSlot(s, id, BumpRestart(s.entities[id].slot, reason));
    assert WithSlot(Over(s, b), id, BumpRestart(s.entities[id].slot, reason)) == Over(s1, b);
    ReviveIgnoresQueue(s1, b, id, reason, now);
  }

  lemma ActionIgnoresQueue(s: State, b: State, id: Byte, action: Action, r: Report, now: Millis)
    requires id < |s.entities|
    ensures ApplyAction(Over(s, b), id, action, r, now) == Over(ApplyAction(s, id, action, r, now), b)
  {
    hide TryRestart, ApplyTerminal;
    if action.Restart? {
      RestartIgnoresQueue(s, b, id, r.reason, now);
      RestartJoins(s, id, r.reason, now);
      TerminalIgnoresQueue(TryRestart(s, id, r.reason, now), b, id, Fallback(s.entities[id].slot), r, now);
    } else {
      TerminalIgnoresQueue(s, b, id, action, r, now);
    }
  }

  lemma RecoverIgnoresQueue(s: State, b: State, r: Report, now: Millis)
    requires r.entity < |s.entities|
    ensures Recover(Over(s, b), r, now) == Over(Recover(s, r, now), b)
  {
    hide ApplyAction, EvaluateDualPath, Decide, SubsystemEvent;
    var slot := s.entities[r.entity].slot;
    var chosen := Decide(slot, r);
    var s1 := Resolve(s, slot, chosen, r, now);
    var action := Resolved(s.subs, slot, chosen, r);
    ActionIgnoresQueue(s1, b, r.entity, action, r, now);
    ModesIgnoreQueue(ApplyAction(s1, r.entity, action, r, now), b, RebootTag, now);
  }

  /** Handling neither reads nor writes the queue. */
  lemma HandleIgnoresQueue(s: State, b: State, r: Report, now: Millis)
    ensures Handle(Over(s, b), r, now) == Over(Handle(s, r, now), b)
  {
    hide Recover, EnterDegraded, PlainEvent;
    var s1 := Announce(s, r, now);
    ModesIgnoreQueue(s1, b, RebootTag, now);
    if r.entity < |s.entities| {
      RecoverIgnoresQueue(WithVitals(s1, r.entity, FailedVitals(s.entities[r.entity].vitals, r)), b, r, now);
    }
  }

  // ---------------------------------------------------------------- the drain

  lemma {:induction false} BatchIsBounded(s: State, reports: seq<Report>, at: Readings)
    ensures
      var t := HandleAll(s, reports, at);
      && Extends(s, t) && |t.entities| == |s.entities|
      && (t.queue, t.full, t.supervised, t.accepted, t.noticed)
         == (s.queue, s.full, s.supervised, s.accepted, s.noticed)
      && (forall i | 0 <= i < |s.entities| && (forall r | r in reports :: r.entity != i) ::
            t.entities[i] == s.entities[i])
  {
    hide Handle;
    if reports != [] {
      var n := |reports| - 1;
      BatchIsBounded(s, reports[..n], at);
      HandleIsBounded(HandleAll(s, reports[..n], at), reports[n], at(n));
    }
  }

  /** The state after the first `k` queued reports were taken out and handled. */
  function Drained(s: State, k: nat, at: Readings): State
    requires k <= |s.queue|
  {
    HandleAll(s.(queue := []), s.queue[..k], at).(queue := s.queue[k..])
  }

  /** Taking out and handling the next report, at its own reading, leads from one such state to the next. */
  lemma DrainStep(s: State, k: nat, at: Readings)
    requires k < |s.queue|
    ensures Drained(s, k, at).queue == s.queue[k..]
    ensures Handle(Get(Drained(s, k, at)), s.queue[k], at(k)) == Drained(s, k + 1, at)
  {
    hide Handle;
    var base := s.(queue := []);
    var h := HandleAll(base, s.queue[..k], at);
    var b := h.(queue := s.queue[k + 1..]);
    assert s.queue[..k + 1][..k] == s.queue[..k];
    assert s.queue[k..][1..] == s.queue[k + 1..];
    assert Get(Drained(s, k, at)) == Over(h, b);
    HandleIgnoresQueue(h, b, s.queue[k], at(k));
    HandleIsBounded(h, s.queue[k], at(k));
  }

  lemma DrainEnds(s: State, at: Readings)
    ensures Drained(s, 0, at) == s
    ensures Drained(s, |s.queue|, at) == HandleAll(s.(queue := []), s.queue, at)
  {
    hide Handle;
    assert s.queue[..|s.queue|] == s.queue;
    assert s.queue[..0] == [];
    BatchIsBounded(s.(queue := []), s.queue, at);
  }

  lemma DrainShape(s: State, k: nat, at: Readings)
    requires k <= |s.queue|
    ensures Drained(s, k, at).supervised == s.supervised && Drained(s, k, at).queue == s.queue[k..]
  {
    hide HandleAll;
    BatchIsBounded(s.(queue := []), s.queue[..k], at);
  }

  // ---------------------------------------------------------------- the scan

  /** Reports for those of the first `n` entities that are overdue, in order. */
  function OverdueReports(s: State, n: nat, sampled: Millis): seq<Report>
    requires n <= MAX_ENTITIES
  {
    if n == 0 then []
    else
      OverdueReports(s, n - 1, sampled)
      + (if Overdue(s, n - 1, sampled) then [WatchdogReport(n - 1, sampled)] else [])
  }

  lemma {:induction false} OverdueAreEarlier(s: State, n: nat, sampled: Millis)
    requires n <= MAX_ENTITIES
    ensures forall r | r in OverdueReports(s, n, sampled) :: r.entity < n && Overdue(s, r.entity, sampled)
  {
    if n > 0 {
      OverdueAreEarlier(s, n - 1, sampled);
    }
  }

  function Noticed(s: State, n: nat, sampled: Millis): State
    requires n <= MAX_ENTITIES
  {
    s.(noticed := s.noticed + multiset(OverdueReports(s, n, sampled)))
  }

  lemma BatchSnoc(s: State, reports: seq<Report>, r: Report, at: Readings)
    ensures HandleEach(s, reports + [r], at) == Handle(HandleEach(s, reports, at), r, at(r.entity))
  {
    hide Handle;
    assert (reports + [r])[..|reports|] == reports;
  }

  /** Handling earlier overdue entities first does not change who is overdue later. */
  lemma ScanLeavesLater(s: State, m: nat, sampled: Millis, at: Readings)
    requires m < |s.entities|
    ensures
      var t := HandleEach(Noticed(s, m, sampled), OverdueReports(s, m, sampled), at);
      && t.supervised == s.supervised && t.noticed == Noticed(s, m, sampled).noticed
      && Overdue(t, m, sampled) == Overdue(s, m, sampled)
  {
    hide HandleAll, HandleEach;
    var earlier := OverdueReports(s, m, sampled);
    OverdueAreEarlier(s, m, sampled);
    EachIsAll(Noticed(s, m, sampled), earlier, at);
    BatchIsBounded(Noticed(s, m, sampled), earlier, Carried(earlier, at));
    OverdueIsLocal(s, HandleEach(Noticed(s, m, sampled), earlier, at), m, sampled);
  }

  /** The scan handles exactly the entities that were overdue when it started, once each, in order. */
  lemma {:induction false} ScanIsFold(s: State, n: nat, sampled: Millis, at: Readings)
    requires s.supervised && n <= |s.entities|
    ensures ScanTo(s, n, sampled, at)
            == HandleEach(Noticed(s, n, sampled), OverdueReports(s, n, sampled), at)
  {
    hide Handle, HandleEach, Overdue;
    if n == 0 {
      EmptyBatch(s, at);
      assert s.noticed + multiset{} == s.noticed;
    } else {
      var m := n - 1;
      var earlier, r := OverdueReports(s, m, sampled), WatchdogReport(m, sampled);
      var t := ScanTo(s, m, sampled, at);
      ScanIsFold(s, m, sampled, at);
      ScanLeavesLater(s, m, sampled, at);
      if Overdue(s, m, sampled) {
        assert Noticed(s, n, sampled).noticed == t.noticed + multiset{r};
        ScanIgnoresQueue(s, m, sampled, at, Noticed(s, n, sampled));
        BatchSnoc(Noticed(s, n, sampled), earlier, r, at);
      } else {
        assert OverdueReports(s, n, sampled) == earlier;
      }
    }
  }

  /** Noting a miss before or after the earlier recoveries is the same. */
  lemma ScanIgnoresQueue(s: State, m: nat, sampled: Millis, at: Readings, b: State)
    requires m <= MAX_ENTITIES && b == s.(noticed := b.noticed)
    ensures
      var earlier := OverdueReports(s, m, sampled);
      var t := HandleEach(Noticed(s, m, sampled), earlier, at);
      HandleEach(b, earlier, at) == t.(noticed := b.noticed)
  {
    hide HandleEach, HandleAll, OverdueReports;
    var earlier, base := OverdueReports(s, m, sampled), Noticed(s, m, sampled);
    BatchIgnoresQueue(base, b, earlier, at);
    EachIsAll(base, earlier, at);
    BatchIsBounded(base, earlier, Carried(earlier, at));
    assert Over(base, b) == b;
  }

  lemma {:induction false} BatchIgnoresQueue(s: State, b: State, reports: seq<Report>, at: Readings)
    ensures HandleEach(Over(s, b), reports, at) == Over(HandleEach(s, reports, at), b)
  {
    hide Handle, Over;
    if reports != [] {
      var front, last := reports[..|reports| - 1], reports[|reports| - 1];
      BatchIgnoresQueue(s, b, front, at);
      HandleIgnoresQueue(HandleEach(s, front, at), b, last, at(last.entity));
    }
  }

  lemma OverdueIsLocal(s: State, t: State, i: nat, sampled: Millis)
    requires i < |s.entities| == |t.entities| && t.cfg == s.cfg
    requires t.entities[i].vitals == s.entities[i].vitals
    ensures Overdue(t, i, sampled) == Overdue(s, i, sampled)
    ensures Overdue(s, i, sampled) ==> !IsLatched(t, i, WATCHDOG)
  {
  }

  /** Handling that is not suppressed leaves the entity fresh, or failed with the reason latched. */
  lemma HandlingOutcome(s: State, r: Report, now: Millis)
    requires r.entity < |s.entities| && !IsLatched(s, r.entity, r.reason)
    ensures |Handle(s, r, now).entities| == |s.entities|
    ensures Handle(s, r, now).entities[r.entity].vitals == FreshVitals(None, now)
            || Handle(s, r, now).entities[r.entity].vitals == FailedVitals(s.entities[r.entity].vitals, r)
  {
    hide Handle, EffectOf, DualPathFloor, MarkedBy, ExhaustedAnswer;
    HandleJoins(s, r, now);
    EffectVitals(s.entities[r.entity],
                 ExhaustedAnswer(s.subs, s.entities[r.entity].slot.desc.linked, r.entity, r), r, now);
  }

  lemma EffectVitals(e: Entity, answer: Action, r: Report, now: Millis)
    ensures
      var v := EffectOf(e, answer, r, now).entity.vitals;
      v == FreshVitals(None, now) || v == FailedVitals(e.vitals, r)
  {
    hide Decide, RestartSucceeds, BumpRestart;
  }

  /** What the scan owes one entity. */
  ghost predicate ScanContract(s: State, t: State, i: nat, sampled: Millis, at: Readings)
    requires i < |s.entities| && i < |t.entities|
  {
    if Overdue(s, i, sampled)
    then
      var v := t.entities[i].vitals;
      v == FreshVitals(None, at(i)) || (v.health.HealthFailed? && v.latch == Some(WATCHDOG))
    else t.entities[i] == s.entities[i]
  }

  lemma {:induction false} ScanKeepsContract(s: State, n: nat, sampled: Millis, at: Readings)
    requires s.supervised && n <= |s.entities|
    ensures
      var t := ScanTo(s, n, sampled, at);
      && |t.entities| == |s.entities| && t.cfg == s.cfg && t.supervised && t.queue == s.queue
      && (forall i | 0 <= i < n :: ScanContract(s, t, i, sampled, at))
      && (forall i | n <= i < |s.entities| :: t.entities[i] == s.entities[i])
  {
    hide Handle, Overdue, FreshVitals;
    if n > 0 {
      var m := n - 1;
      var t := ScanTo(s, m, sampled, at);
      ScanKeepsContract(s, m, sampled, at);
      OverdueIsLocal(s, t, m, sampled);
      if Overdue(s, m, sampled) {
        var r := WatchdogReport(m, sampled);
        var u := t.(noticed := t.noticed + multiset{r});
        HandleIsBounded(u, r, at(m));
        HandlingOutcome(u, r, at(m));
        forall i | 0 <= i < m ensures ScanContract(s, Handle(u, r, at(m)), i, sampled, at) {
          assert ScanContract(s, t, i, sampled, at);
        }
      }
    }
  }

  /** The scan suppresses nothing: what it raises is handled, once for each overdue entity. */
  lemma {:induction false} ScanHandlesMisses(s: State, n: nat, sampled: Millis, at: Readings)
    requires s.supervised && n <= |s.entities|
    ensures ScanTo(s, n, sampled, at).handled == s.handled + multiset(OverdueReports(s, n, sampled))
  {
    hide Handle, Overdue;
    if n > 0 {
      var m, t := n - 1, ScanTo(s, n - 1, sampled, at);
      ScanHandlesMisses(s, m, sampled, at);
      ScanKeepsContract(s, m, sampled, at);
      OverdueIsLocal(s, t, m, sampled);
      if Overdue(s, m, sampled) {
        var r := WatchdogReport(m, sampled);
        HandleIsBounded(t.(noticed := t.noticed + multiset{r}), r, at(m));
      }
    }
  }

  lemma ReportsDiffer(a: Byte, b: Byte, sampled: Millis)
    ensures WatchdogReport(a, sampled) == WatchdogReport(b, sampled) <==> a == b
  {
  }

  lemma {:induction false} RaisedOnce(s: State, n: nat, sampled: Millis, id: Byte)
    requires n <= MAX_ENTITIES
    ensures multiset(OverdueReports(s, n, sampled))[WatchdogReport(id, sampled)]
            == if id < n && Overdue(s, id, sampled) then 1 else 0
  {
    hide Overdue, WatchdogReport;
    if n > 0 {
      var m := n - 1;
      var earlier, r := OverdueReports(s, m, sampled), WatchdogReport(m, sampled);
      RaisedOnce(s, m, sampled, id);
      assert r == WatchdogReport(id, sampled) <==> m == id by { ReportsDiffer(m, id, sampled); }
      if Overdue(s, m, sampled) {
        assert multiset(earlier + [r]) == multiset(earlier) + multiset{r};
      } else {
        assert OverdueReports(s, n, sampled) == earlier;
      }
    }
  }

  /** Main result on the scan: each overdue entity is handled once, every other entity is left alone. */
  lemma WatchdogScan(s: State, sampled: Millis, at: Readings)
    requires s.supervised
    ensures
      var t := CheckWatchdogs(s, sampled, at);
      && t == HandleEach(Noticed(s, |s.entities|, sampled), OverdueReports(s, |s.entities|, sampled), at)
      && |t.entities| == |s.entities|
      && forall i | 0 <= i < |s.entities| :: ScanContract(s, t, i, sampled, at)
  {
    hide Handle, ScanTo, HandleEach;
    ScanIsFold(s, |s.entities|, sampled, at);
    ScanKeepsContract(s, |s.entities|, sampled, at);
  }

  /** A clock that stands still. */
  function Steady(now: Millis): Readings {
    (_: nat) => now
  }

  /** After a scan at a fixed clock nobody is overdue. */
  lemma NobodyOverdue(s: State, now: Millis, n: nat)
    requires s.supervised && n <= |s.entities|
    ensures OverdueReports(CheckWatchdogs(s, now, Steady(now)), n, now) == []
  {
    hide Handle, ScanTo;
    if n > 0 {
      var t, i := CheckWatchdogs(s, now, Steady(now)), n - 1;
      NobodyOverdue(s, now, i);
      ScanKeepsContract(s, |s.entities|, now, Steady(now));
      assert ScanContract(s, t, i, now, Steady(now));
      assert !Overdue(t, i, now);
    }
  }

  /**
   * Main result on the tick: it empties the queue, and if the clock stood still during its scan, a
   * second tick that samples the same reading is a complete stutter.
   */
  lemma TickIsIdempotent(s: State, now: Millis, drain: Readings, again: Readings, scan: Readings)
    requires s.supervised
    ensures
      var t := Tick(s, Clock(drain, now, Steady(now)));
      t.queue == [] && Tick(t, Clock(again, now, scan)) == t
  {
    hide Handle, ScanTo, HandleAll, HandleEach;
    var u := HandleAll(s.(queue := []), s.queue, drain);
    var t := CheckWatchdogs(u, now, Steady(now));
    BatchIsBounded(s.(queue := []), s.queue, drain);
    ScanKeepsContract(u, |u.entities|, now, Steady(now));
    assert t.queue == [] && t.(queue := []) == t;
    EmptyBatch(t, again);
    NobodyOverdue(u, now, |t.entities|);
    ScanIsFold(t, |t.entities|, now, scan);
    assert t.noticed + multiset{} == t.noticed;
    EmptyBatch(Noticed(t, |t.entities|, now), scan);
  }

  lemma EmptyBatch(s: State, at: Readings)
    ensures HandleAll(s, [], at) == s
    ensures HandleEach(s, [], at) == s
  {
    hide Handle;
  }

  // ---------------------------------------------------------------- arrival order

  lemma {:induction false} OverdueIgnoresLog(s: State, t: State, n: nat, sampled: Millis)
    requires Silent(s) == Silent(t) && n <= MAX_ENTITIES
    ensures OverdueReports(s, n, sampled) == OverdueReports(t, n, sampled)
  {
    if n > 0 {
      OverdueIgnoresLog(s, t, n - 1, sampled);
      assert s.entities == t.entities && s.cfg == t.cfg;
    }
  }

  lemma ScanIgnoresLog(s: State, t: State, sampled: Millis, at: Readings)
    requires Silent(s) == Silent(t)
    ensures Silent(CheckWatchdogs(s, sampled, at)) == Silent(CheckWatchdogs(t, sampled, at))
  {
    hide Handle, HandleEach, ScanTo, Overdue;
    var n := |s.entities|;
    assert s.entities == t.entities && s.supervised == t.supervised;
    if s.supervised {
      ScanIsFold(s, n, sampled, at);
      ScanIsFold(t, n, sampled, at);
      OverdueIgnoresLog(s, t, n, sampled);
      BatchIgnoresLog(Noticed(s, n, sampled), Noticed(t, n, sampled), OverdueReports(s, n, sampled), at);
    }
  }

  /**
   * Main result on order: a whole tick does not depend on the order in which reports arrived, where
   * each report is handled at the same clock reading either way.
   */
  lemma TickIgnoresArrivalOrder(s: State, arrivals: seq<Report>, at: Readings, sampled: Millis, scan: Readings)
    requires s.supervised && Apart(s.queue) && multiset(arrivals) == multiset(s.queue)
    ensures Silent(Tick(s.(queue := arrivals), Clock(Carried(arrivals, at), sampled, scan)))
            == Silent(Tick(s, Clock(Carried(s.queue, at), sampled, scan)))
  {
    hide Handle, HandleAll, HandleEach, ScanTo, CheckWatchdogs;
    var base := s.(queue := []);
    EachIsAll(base, s.queue, at);
    EachIsAll(base, arrivals, at);
    OrderIsIrrelevant(base, s.queue, arrivals, at);
    ScanIgnoresLog(HandleEach(base, s.queue, at), HandleEach(base, arrivals, at), sampled, scan);
  }
}
