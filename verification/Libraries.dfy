/**
 * The library as it runs: static tables, counters and flags updated in place under the port lock.
 * Every method is tied to the value model; the lock's state is part of every contract.
 */
module Libraries {
  import opened Types
  import opened Ports
  import opened Model
  import opened FailureQueues
  import opened HealthTables
  import opened SubsystemTables
  import opened Supervision

  // ---------------------------------------------------------------- slots and vitals side by side

  function Merge(slots: seq<Slot>, vitals: seq<Vitals>): (m: seq<Entity>)
    requires |slots| == |vitals|
    ensures |m| == |slots|
  {
    seq(|slots|, i requires 0 <= i < |slots| => Entity(slots[i], vitals[i]))
  }

  lemma MergeAt(slots: seq<Slot>, vitals: seq<Vitals>, id: nat)
    requires |slots| == |vitals| && id < |slots|
    ensures Merge(slots, vitals)[id] == Entity(slots[id], vitals[id])
  {
  }

  lemma MergeSlot(slots: seq<Slot>, vitals: seq<Vitals>, id: nat, slot: Slot)
    requires |slots| == |vitals| && id < |slots|
    ensures Merge(slots[id := slot], vitals) == Merge(slots, vitals)[id := Entity(slot, vitals[id])]
  {
  }

  lemma MergeVitals(slots: seq<Slot>, vitals: seq<Vitals>, id: nat, v: Vitals)
    requires |slots| == |vitals| && id < |slots|
    ensures Merge(slots, vitals[id := v]) == Merge(slots, vitals)[id := Entity(slots[id], v)]
  {
  }

  lemma MergeAppend(slots: seq<Slot>, vitals: seq<Vitals>, slot: Slot, v: Vitals)
    requires |slots| == |vitals|
    ensures Merge(slots + [slot], vitals + [v]) == Merge(slots, vitals) + [Entity(slot, v)]
  {
  }

  lemma AnnounceKeepsEntities(s: State, r: Report, now: Millis)
    ensures Model.Announce(s, r, now).entities == s.entities
  {
  }

  lemma GetIs(s: State)
    ensures Get(s).supervised == s.supervised && (s.queue == [] ==> Get(s) == s)
  {
  }

  class Library {
    const cfg: Config
    const port: Port
    const queue: FailureQueue
    const table: HealthTable
    const subs: SubsystemTable
    const slots: array<Slot>
    var count: nat
    var mode: Mode
    var supervised: bool
    ghost var accepted: multiset<Report>
    ghost var noticed: multiset<Report>
    ghost var handled: multiset<Report>

    ghost function Objects(): set<object> {
      {this, port, queue, queue.slots, table, table.records, table.reasons, table.latched, subs, subs.slots, slots}
    }

    ghost predicate Valid()
      reads this, queue, queue.slots, table, table.records, table.reasons, table.latched, subs, subs.slots, slots
    {
      && queue.port == port && table.port == port && subs.port == port
      && queue.Valid() && table.Valid() && subs.Valid()
      && queue.cap == cfg.queueCap
      && slots.Length == table.records.Length == cfg.entityCap
      && subs.slots.Length == cfg.subsystemCap
      && count == table.limit
    }

    /** The state this object stands for. */
    ghost function Abs(): State
      requires Valid()
      reads this, queue, queue.slots, table, table.records, table.reasons, table.latched, subs, subs.slots, slots
      reads port`log, port`reboots
    {
      State(cfg, Merge(slots[..count], table.Contents()), subs.Contents(), queue.Contents(), queue.full,
            mode, supervised, port.log, port.reboots, accepted, noticed, handled)
    }

    constructor (cfg: Config)
      ensures Valid() && !port.held && fresh(Objects()) && Abs() == Initial(cfg)
    {
      this.cfg := cfg;
      var p := new Port();
      port := p;
      queue := new FailureQueue(p, cfg.queueCap);
      table := new HealthTable(p, cfg.entityCap);
      subs := new SubsystemTable(p, cfg.subsystemCap);
      slots := new Slot[cfg.entityCap](
        _ => Slot(EntityDesc("", 0, 0, NoAction, 0, None, None), 0, 0, 0, 0, 0));
      count, mode, supervised := 0, NOMINAL, true;
      accepted, noticed, handled := multiset{}, multiset{}, multiset{};
    }

    // -------------------------------------------------------------- helpers under the lock

    method SetMode(to: Mode, detail: Detail, now: Millis)
      requires Valid() && port.held
      modifies this`mode, port`log
      ensures Valid() && port.held && Abs() == Model.SetMode(old(Abs()), to, detail, now)
    {
      hide Merge, PlainEvent;
      if mode == to {
        return;
      }
      mode := to;
      port.EmitEvent(PlainEvent(ModeChangeEvent, mode, NO_ENTITY, USER, 0, SystemLevel, Raised, detail, now));
    }

    method EnterDegraded(now: Millis)
      requires Valid() && port.held
      modifies this`mode, port`log
      ensures Valid() && port.held && Abs() == Model.EnterDegraded(old(Abs()), now)
    {
      hide Model.SetMode;
      if mode == NOMINAL {
        SetMode(DEGRADED, DegradedTag, now);
      }
    }

    method EnterSafe(now: Millis)
      requires Valid() && port.held
      modifies this`mode, port`log
      ensures Valid() && port.held && Abs() == Model.EnterSafe(old(Abs()), now)
    {
      hide Model.SetMode;
      if mode != REBOOT_PENDING {
        SetMode(SAFE, SafeTag, now);
      }
    }

    method TryReboot(why: Detail, now: Millis)
      requires Valid() && port.held
      modifies this`mode, port`log, port`reboots
      ensures Valid() && port.held && Abs() == Model.TryReboot(old(Abs()), why, now)
    {
      SetMode(REBOOT_PENDING, why, now);
      port.RequestReboot(why);
    }

    method EvaluateDualPath(now: Millis)
      requires Valid() && port.held
      modifies this`mode, port`log
      ensures Valid() && port.held && Abs() == Model.EvaluateDualPath(old(Abs()), now)
    {
      hide Model.EnterSafe;
      var down := subs.CountCriticalDown();
      if down >= cfg.threshold {
        EnterSafe(now);
      }
    }

    method MarkLinked(id: Byte, mark: Loss, r: Report, now: Millis)
      requires Valid() && port.held && id < count
      modifies subs.slots, port`log
      ensures Valid() && port.held && Abs() == Model.MarkLinked(old(Abs()), id, mark, r, now)
    {
      hide Merge, Marked, SubsystemEvent, TagOf;
      assert Abs().entities[id].slot == slots[id] by { MergeAt(slots[..count], table.Contents(), id); }
      var sub := slots[id].desc.linked;
      if sub != NO_SUBSYSTEM {
        subs.MarkUnsafe(sub, mark);
        port.EmitEvent(SubsystemEvent(sub, mode, id, r.reason, r.errorCode, Raised, TagOf(mark), now));
      }
    }

    /** Answers whether the restart callback was there and succeeded. */
    method TryRestart(id: Byte, reason: Reason, now: Millis) returns (ok: bool)
      requires Valid() && port.held && id < count
      modifies slots, table.records, table.reasons, table.latched, port`log
      ensures Valid() && port.held && Abs() == Model.TryRestart(old(Abs()), id, reason, now)
      ensures ok == RestartSucceeds(old(slots[id])) && slots[id].desc == old(slots[id].desc)
    {
      hide Merge, Model.Revive;
      var slot := slots[id];
      MergeAt(slots[..count], table.Contents(), id);
      if slot.desc.restart.None? {
        return false;
      }
      slots[id] := BumpRestart(slot, reason);
      ghost var s1 := WithSlot(old(Abs()), id, BumpRestart(slot, reason));
      assert Abs() == s1 by {
        MergeSlot(old(slots[..count]), table.Contents(), id, BumpRestart(slot, reason));
        assert slots[..count] == old(slots[..count])[id := BumpRestart(slot, reason)];
      }
      if !slot.desc.restart.value(slot.calls + slot.watchdogCalls) {
        return false;
      }
      Revive(id, reason, now);
      return true;
    }

    /** Clears the latch and resets the health; answers the reason that was latched. */
    method Refresh(id: Byte, now: Millis) returns (cleared: Option<Reason>)
      requires Valid() && port.held && id < count
      modifies table.records, table.reasons, table.latched
      ensures Valid() && port.held && Abs() == WithVitals(old(Abs()), id, FreshVitals(None, now))
      ensures cleared == old(Abs()).entities[id].vitals.latch
    {
      hide Merge, FreshVitals;
      ghost var v := table.Contents();
      MergeAt(slots[..count], v, id);
      cleared := table.ClearLatch(id);
      table.ResetUnsafe(id, now);
      MergeVitals(slots[..count], v, id, FreshVitals(None, now));
      assert table.Contents() == v[id := FreshVitals(None, now)];
    }

    method Revive(id: Byte, reason: Reason, now: Millis)
      requires Valid() && port.held && id < count
      modifies table.records, table.reasons, table.latched, port`log
      ensures Valid() && port.held && Abs() == Model.Revive(old(Abs()), id, reason, now)
    {
      hide Merge, PlainEvent, FreshVitals;
      MergeAt(slots[..count], table.Contents(), id);
      var name := Text(slots[id].desc.name);
      var cleared := Refresh(id, now);
      if cleared.Some? {
        port.EmitEvent(PlainEvent(FailureEvent, mode, id, cleared.value, 0, EntityLevel, Cleared, name, now));
      }
      port.EmitEvent(PlainEvent(RestartEvent, mode, id, reason, 0, EntityLevel, Raised, name, now));
    }

    method ResolveExhausted(slot: Slot, action: Action, r: Report, now: Millis) returns (resolved: Action)
      requires Valid() && port.held
      modifies port`log
      ensures Valid() && port.held && Abs() == Resolve(old(Abs()), slot, action, r, now)
      ensures resolved == Resolved(old(Abs()).subs, slot, action, r)
    {
      hide Merge, SubsystemEvent, ExhaustedAnswer;
      if action.Restart? || action.NoAction? {
        return action;
      }
      if slot.desc.linked == NO_SUBSYSTEM {
        return action;
      }
      var answer := subs.OnEntityExhausted(slot.desc.linked, r.entity, r);
      if !answer.NoAction? {
        port.EmitEvent(SubsystemEvent(slot.desc.linked, mode, r.entity, r.reason, r.errorCode,
                                      Raised, OverrideTag, now));
        return answer;
      }
      return action;
    }

    /** Recurs at most once: the fallback after a failed restart is never a restart. */
    method ApplyAction(id: Byte, action: Action, r: Report, now: Millis)
      requires Valid() && port.held && id < count
      modifies this`mode, slots, table.records, table.reasons, table.latched, subs.slots, port`log, port`reboots
      ensures Valid() && port.held && Abs() == Model.ApplyAction(old(Abs()), id, action, r, now)
      decreases if action.Restart? then 1 else 0
    {
      hide Model.TryRestart, Model.MarkLinked, Model.EnterDegraded, Model.EnterSafe, Model.TryReboot,
           Model.EvaluateDualPath, RestartSucceeds, Merge;
      assert Abs().entities[id].slot == slots[id] by { MergeAt(slots[..count], table.Contents(), id); }
      match action
      case NoAction =>
      case Unrecognised =>
      case Restart =>
        ghost var slot := slots[id];
        var ok := TryRestart(id, r.reason, now);
        if !ok {
          var fallback := slots[id].desc.onExhausted;
          if fallback.Restart? {
            fallback := NoAction;
          }
          ApplyAction(id, fallback, r, now);
        }
      case Degrade =>
        MarkLinked(id, MarkDegraded, r, now);
        EnterDegraded(now);
      case MakeUnavailable =>
        MarkLinked(id, MarkDown, r, now);
        EnterDegraded(now);
        EvaluateDualPath(now);
      case GoSafe =>
        MarkLinked(id, MarkDown, r, now);
        EnterSafe(now);
      case Reboot =>
        MarkLinked(id, MarkDown, r, now);
        TryReboot(RebootReason(r), now);
    }

    // -------------------------------------------------------------- queries

    method QueryLatched(id: Byte, reason: Reason) returns (yes: bool)
      requires Valid()
      ensures yes == IsLatched(Abs(), id, reason)
    {
      hide Merge;
      if id < count {
        MergeAt(slots[..count], table.Contents(), id);
      }
      yes := table.IsLatched(id, reason);
    }

    method QueryFailed(id: Byte) returns (yes: bool)
      requires Valid()
      ensures yes == IsFailed(Abs(), id)
    {
      hide Merge;
      if id < count {
        MergeAt(slots[..count], table.Contents(), id);
      }
      var runnable := table.IsRunnable(id);
      yes := id < count && !runnable;
    }

    /** Whether a worker's report goes on to the queue: supervised, not latched, not failed. */
    method QueryAdmitted(id: Byte, reason: Reason) returns (yes: bool)
      requires Valid()
      ensures yes == Admits(Abs(), id, reason)
    {
      if !supervised {
        return false;
      }
      var latched := QueryLatched(id, reason);
      if latched {
        return false;
      }
      var failed := QueryFailed(id);
      yes := !failed;
    }

    /** Whether the scan is to raise a watchdog fault: not latched already, not failed, and stale. */
    method QueryOverdue(id: Byte, maxAge: Millis, sampled: Millis) returns (yes: bool)
      requires Valid() && id < count && maxAge == MaxAge(cfg)
      ensures yes == Overdue(Abs(), id, sampled)
    {
      hide Merge, Elapsed;
      MergeAt(slots[..count], table.Contents(), id);
      var latched := QueryLatched(id, WATCHDOG);
      if latched {
        return false;
      }
      var failed := QueryFailed(id);
      if failed {
        return false;
      }
      yes := table.IsStale(id, sampled, maxAge);
    }

    // -------------------------------------------------------------- failure handling under the lock

    /** Latches the fault and marks the entity failed. */
    method Strike(r: Report)
      requires Valid() && port.held && r.entity < count
      modifies table.records, table.reasons, table.latched
      ensures Valid() && port.held
      ensures Abs() == WithVitals(old(Abs()), r.entity, FailedVitals(old(Abs()).entities[r.entity].vitals, r))
    {
      hide Merge;
      ghost var v := table.Contents();
      MergeAt(slots[..count], v, r.entity);
      var _ := table.Latch(r.entity, r.reason);
      table.SetUnsafe(r.entity, HealthFailed, r.errorCode, r.detail);
      MergeVitals(slots[..count], v, r.entity, FailedVitals(v[r.entity], r));
      assert table.Contents() == v[r.entity := FailedVitals(v[r.entity], r)];
    }

    /** Decision and action for a fault that has just been latched. */
    method Recover(r: Report, now: Millis)
      requires Valid() && port.held && r.entity < count
      modifies this`mode, slots, table.records, table.reasons, table.latched, subs.slots, port`log, port`reboots
      ensures Valid() && port.held && Abs() == Model.Recover(old(Abs()), r, now)
    {
      hide Merge, Resolve, Resolved, Model.ApplyAction, Model.EvaluateDualPath, DefaultDecide;
      MergeAt(slots[..count], table.Contents(), r.entity);
      var slot := slots[r.entity];
      var action := NoAction;
      if slot.desc.decide.Some? {
        action := slot.desc.decide.value(r.entity, r, slot.restarts, slot.watchdogRestarts);
      }
      if action.NoAction? {
        action := DefaultDecide(slot, r.reason);
      }
      assert action == Decide(slot, r);
      action := ResolveExhausted(slot, action, r, now);
      ApplyAction(r.entity, action, r, now);
      EvaluateDualPath(now);
    }

    method Announce(r: Report, now: Millis)
      requires Valid() && port.held
      modifies this`handled, port`log
      ensures Valid() && port.held && Abs() == Model.Announce(old(Abs()), r, now)
    {
      hide Merge, PlainEvent;
      handled := handled + multiset{r};
      port.EmitEvent(PlainEvent(if r.reason == WATCHDOG then WatchdogEvent else FailureEvent,
                                mode, r.entity, r.reason, r.errorCode, EntityLevel, Raised, r.detail, now));
    }

    method HandleLocked(r: Report, now: Millis)
      requires Valid() && port.held
      modifies this`mode, this`handled, slots, table.records, table.reasons, table.latched, subs.slots,
               port`log, port`reboots
      ensures Valid() && port.held && Abs() == Handle(old(Abs()), r, now)
    {
      hide Merge, Model.Recover, Model.Announce, Model.EnterDegraded, FailedVitals, IsLatched;
      var latched := QueryLatched(r.entity, r.reason);
      if latched {
        return;
      }
      AnnounceKeepsEntities(Abs(), r, now);
      Announce(r, now);
      if r.entity >= count {
        EnterDegraded(now);
        return;
      }
      Strike(r);
      Recover(r, now);
    }

    // -------------------------------------------------------------- supervision

    method SupervisionEnabled() returns (on: bool)
      requires Valid() && !port.held
      modifies port`held
      ensures Valid() && !port.held && Abs() == old(Abs()) && on == supervised == Abs().supervised
    {
      port.Enter();
      on := supervised;
      port.Exit();
    }

    method SystemMode() returns (m: Mode)
      requires Valid() && !port.held
      modifies port`held
      ensures Valid() && !port.held && Abs() == old(Abs()) && m == mode == Abs().mode
    {
      port.Enter();
      m := mode;
      port.Exit();
    }

    method HandleFailure(report: Option<Report>, now: Millis)
      requires Valid() && !port.held
      modifies Objects()
      ensures Valid() && !port.held
      ensures Abs() == if report.Some? then Model.HandleFailure(old(Abs()), report.value, now) else old(Abs())
    {
      hide Merge, Handle, Abs, Valid;
      if report.None? {
        return;
      }
      var on := SupervisionEnabled();
      if !on {
        return;
      }
      port.Enter();
      HandleLocked(report.value, now);
      port.Exit();
    }

    method QueueGet() returns (report: Option<Report>)
      requires Valid() && !port.held
      modifies queue, port`held
      ensures Valid() && !port.held && Abs() == Get(old(Abs()))
      ensures report == if old(Abs()).queue == [] then None else Some(old(Abs()).queue[0])
    {
      hide Merge;
      port.Enter();
      report := queue.GetUnsafe();
      port.Exit();
    }

    method EnqueueLocked(report: Report) returns (status: Status)
      requires Valid() && port.held
      modifies queue, queue.slots, this`accepted
      ensures Valid() && port.held && Abs() == Put(old(Abs()), report)
      ensures status == PutStatus(old(Abs()), report)
    {
      hide Merge;
      var ok := queue.PutUnsafe(Some(report));
      if !ok {
        return if report.IsCritical() then ErrBusy else ErrState;
      }
      accepted := accepted + multiset{report};
      return StatusOk;
    }

    /** Queues a report without touching the entity's health. */
    method SubmitFailure(report: Option<Report>) returns (status: Status)
      requires Valid() && !port.held
      modifies queue, queue.slots, port`held, this`accepted
      ensures Valid() && !port.held
      ensures
        var s := old(Abs());
        && Abs() == (if report.Some? then Model.SubmitFailure(s, report.value) else s)
        && status == (if report.None? then ErrParam
                      else if s.supervised then PutStatus(s, report.value)
                      else StatusOk)
    {
      hide Merge, Abs, Valid, Put, PutStatus;
      if report.None? {
        return ErrParam;
      }
      var on := SupervisionEnabled();
      if !on {
        return StatusOk;
      }
      port.Enter();
      status := EnqueueLocked(report.value);
      port.Exit();
    }

    /** A worker's report: checked, queued and marked failed in one critical section. */
    method ReportFault(id: Byte, reason: Reason, errorCode: Word, detail: Detail, flags: Byte, now: Millis)
      returns (status: Status)
      requires Valid() && !port.held
      modifies queue, queue.slots, table.records, port`held, this`accepted
      ensures Valid() && !port.held
      ensures Abs() == Model.ReportFault(old(Abs()), id, reason, errorCode, detail, flags, now)
      ensures status == ReportStatus(old(Abs()), id, reason, errorCode, detail, flags, now)
    {
      hide Abs, Valid, Admits, SetHealth, Put, PutStatus;
      port.Enter();
      var admitted := QueryAdmitted(id, reason);
      if !admitted {
        port.Exit();
        return StatusOk;
      }
      var report := Report(id, reason, errorCode, detail, now, flags);
      status := EnqueueLocked(report);
      if status != StatusOk {
        port.Exit();
        return;
      }
      SetHealthLocked(id, HealthFailed, errorCode, detail);
      port.Exit();
    }

    method SetHealthLocked(id: Byte, health: Health, errorCode: Word, detail: Detail)
      requires Valid() && port.held
      modifies table.records
      ensures Valid() && port.held && Abs() == SetHealth(old(Abs()), id, health, errorCode, detail)
    {
      hide Merge;
      ghost var v := table.Contents();
      table.SetUnsafe(id, health, errorCode, detail);
      if id < count {
        MergeAt(slots[..count], v, id);
        MergeVitals(slots[..count], v, id, v[id].(health := health, errorCode := errorCode, detail := detail));
      }
    }

    // -------------------------------------------------------------- health and gates

    method HealthSet(id: Byte, health: Health, errorCode: Word, detail: Detail)
      requires Valid() && !port.held
      modifies table.records, port`held
      ensures Valid() && !port.held && Abs() == SetHealth(old(Abs()), id, health, errorCode, detail)
    {
      hide Abs, Valid, SetHealth;
      port.Enter();
      SetHealthLocked(id, health, errorCode, detail);
      port.Exit();
    }

    method ResetLocked(id: Byte, now: Millis)
      requires Valid() && port.held
      modifies table.records
      ensures Valid() && port.held && Abs() == ResetHealth(old(Abs()), id, now)
    {
      hide Merge, FreshVitals;
      ghost var v := table.Contents();
      table.ResetUnsafe(id, now);
      if id < count {
        MergeAt(slots[..count], v, id);
        MergeVitals(slots[..count], v, id, FreshVitals(v[id].latch, now));
      }
    }

    method HealthReset(id: Byte, now: Millis)
      requires Valid() && !port.held
      modifies table.records, port`held
      ensures Valid() && !port.held && Abs() == ResetHealth(old(Abs()), id, now)
    {
      hide Abs, Valid, ResetHealth;
      port.Enter();
      ResetLocked(id, now);
      port.Exit();
    }

    method BeatLocked(id: Byte, now: Millis)
      requires Valid() && port.held
      modifies table.records
      ensures Valid() && port.held && Abs() == Heartbeat(old(Abs()), id, now)
    {
      hide Merge;
      ghost var v := table.Contents();
      table.BeatUnsafe(id, now);
      if id < count {
        MergeAt(slots[..count], v, id);
        MergeVitals(slots[..count], v, id, table.Contents()[id]);
      }
    }

    method HeartbeatNotify(id: Byte, now: Millis)
      requires Valid() && !port.held
      modifies table.records, port`held
      ensures Valid() && !port.held && Abs() == Heartbeat(old(Abs()), id, now)
    {
      hide Abs, Valid, Heartbeat;
      port.Enter();
      BeatLocked(id, now);
      port.Exit();
    }

    method EntityMayRun(id: Byte) returns (yes: bool)
      requires Valid() && !port.held
      modifies port`held
      ensures Valid() && !port.held && Abs() == old(Abs()) && yes == Model.EntityMayRun(Abs(), id)
    {
      hide Merge;
      port.Enter();
      if !supervised {
        port.Exit();
        return true;
      }
      if mode >= SAFE {
        port.Exit();
        return false;
      }
      var failed := QueryFailed(id);
      yes := id < count && !failed;
      port.Exit();
    }

    /** The worker gate: stands for a heartbeat while the mode forbids work. */
    method WorkerMayRun(id: Byte, now: Millis) returns (yes: bool)
      requires Valid() && !port.held
      modifies table.records, port`held
      ensures Valid() && !port.held
      ensures Abs() == WorkerGate(old(Abs()), id, now) && yes == Model.WorkerMayRun(old(Abs()), id)
    {
      hide Abs, Valid, Heartbeat, Model.EntityMayRun;
      var m := SystemMode();
      if m >= SAFE {
        HeartbeatNotify(id, now);
        return false;
      }
      yes := EntityMayRun(id);
    }

    // -------------------------------------------------------------- registration

    /** Adds a slot; the callers have made sure of the room. */
    method AddEntityLocked(desc: EntityDesc, now: Millis)
      requires Valid() && port.held && RegisterStatus(Abs(), desc).StatusOk?
      modifies this`count, slots, table`limit, table.records
      ensures Valid() && port.held && Abs() == Model.RegisterEntity(old(Abs()), desc, now)
    {
      hide Merge, FreshVitals;
      ghost var v := table.Contents();
      var slot := Slot(desc, 0, 0, 0, 0, |port.log|);
      MergeAppend(slots[..count], v, slot, FreshVitals(None, now));
      slots[count] := slot;
      count := count + 1;
      table.RaiseLimit(now);
      assert slots[..count] == old(slots[..count]) + [slot];
    }

    method QueryRegistration(desc: EntityDesc) returns (status: Status, id: Byte)
      requires Valid()
      ensures status == RegisterStatus(Abs(), desc) && id == |Abs().entities|
    {
      id := count;
      status := if count >= cfg.entityCap then ErrFull else if desc.onExhausted.Restart? then ErrParam else StatusOk;
    }

    method RegisterEntity(desc: Option<EntityDesc>, now: Millis) returns (status: Status, id: Byte)
      requires Valid() && !port.held
      modifies this`count, slots, table`limit, table.records, port`held
      ensures Valid() && !port.held
      ensures Abs() == if desc.Some? then Model.RegisterEntity(old(Abs()), desc.value, now) else old(Abs())
      ensures status == if desc.Some? then RegisterStatus(old(Abs()), desc.value) else ErrParam
      ensures status.StatusOk? ==> id == |old(Abs()).entities|
    {
      hide Abs, Valid, RegisterStatus;
      id := NO_ENTITY;
      port.Enter();
      if desc.None? {
        port.Exit();
        return ErrParam, id;
      }
      status, id := QueryRegistration(desc.value);
      if status != StatusOk {
        port.Exit();
        return;
      }
      AddEntityLocked(desc.value, now);
      port.Exit();
    }

    method AddSubsystemLocked(desc: SubsystemDesc) returns (id: Option<Byte>)
      requires Valid() && port.held
      modifies subs`count, subs.slots
      ensures Valid() && port.held && Abs() == Model.RegisterSubsystem(old(Abs()), desc)
      ensures id == if |old(Abs()).subs| < cfg.subsystemCap then Some(|old(Abs()).subs| as Byte) else None
    {
      hide Merge;
      id := subs.Register(desc, |port.log|);
    }

    method RegisterSubsystem(desc: Option<SubsystemDesc>) returns (status: Status, id: Byte)
      requires Valid() && !port.held
      modifies subs`count, subs.slots, port`held
      ensures Valid() && !port.held
      ensures Abs() == if desc.Some? then Model.RegisterSubsystem(old(Abs()), desc.value) else old(Abs())
      ensures status == if desc.None? then ErrParam
                        else if |old(Abs()).subs| < cfg.subsystemCap then StatusOk
                        else ErrFull
      ensures status.StatusOk? ==> id == |old(Abs()).subs|
    {
      hide Abs, Valid, Model.RegisterSubsystem;
      id := NO_SUBSYSTEM;
      port.Enter();
      if desc.None? {
        port.Exit();
        return ErrParam, id;
      }
      var added := AddSubsystemLocked(desc.value);
      port.Exit();
      if added.None? {
        return ErrFull, id;
      }
      return StatusOk, added.value;
    }

    method MarkLocked(id: Byte, mark: Mark, now: Millis)
      requires Valid() && port.held
      modifies subs.slots, port`log
      ensures Valid() && port.held && Abs() == MarkByHand(old(Abs()), id, mark, now)
    {
      hide Merge, Marked, SubsystemEvent, TagOf;
      if id < subs.count {
        subs.MarkUnsafe(id, mark);
        port.EmitEvent(SubsystemEvent(id, mode, NO_ENTITY, USER, 0,
                                      if mark.MarkUp? then Cleared else Raised, TagOf(mark), now));
      }
    }

    method MarkSubsystem(id: Byte, mark: Mark, now: Millis)
      requires Valid() && !port.held
      modifies subs.slots, port`log, port`held
      ensures Valid() && !port.held && Abs() == MarkByHand(old(Abs()), id, mark, now)
    {
      hide Abs, Valid, MarkByHand;
      port.Enter();
      MarkLocked(id, mark, now);
      port.Exit();
    }

    // -------------------------------------------------------------- ground

    method SuperviseLocked(enabled: bool, now: Millis) returns (prev: bool)
      requires Valid() && port.held
      modifies this`supervised, queue, queue.slots, port`log
      ensures Valid() && port.held && Abs() == SetSupervision(old(Abs()), enabled, now)
      ensures prev == old(Abs()).supervised
    {
      hide Merge, PlainEvent;
      prev := supervised;
      if prev == enabled {
        return;
      }
      supervised := enabled;
      if !enabled {
        queue.Init();
      }
      port.EmitEvent(PlainEvent(NoteEvent, mode, NO_ENTITY, USER, 0, SystemLevel, Raised,
                                if enabled then SupervisionOnTag else SupervisionOffTag, now));
    }

    /** Answers the previous setting; switching off discards the queue. */
    method SetSupervisionEnabled(enabled: bool, now: Millis) returns (prev: bool)
      requires Valid() && !port.held
      modifies this`supervised, queue, queue.slots, port`log, port`held
      ensures Valid() && !port.held && Abs() == SetSupervision(old(Abs()), enabled, now)
      ensures prev == old(Abs()).supervised
    {
      hide Abs, Valid, SetSupervision;
      port.Enter();
      prev := SuperviseLocked(enabled, now);
      port.Exit();
    }

    /** `raw` is whatever number the caller passed. */
    method SetSystemMode(raw: nat, now: Millis) returns (status: Status)
      requires Valid() && !port.held
      modifies this`mode, port`log, port`held
      ensures Valid() && !port.held && Abs() == GroundMode(old(Abs()), raw, now)
      ensures status == if raw > REBOOT_PENDING then ErrParam
                        else if raw == REBOOT_PENDING then ErrState
                        else StatusOk
    {
      hide Abs, Valid, Model.SetMode;
      port.Enter();
      if raw > REBOOT_PENDING {
        port.Exit();
        return ErrParam;
      }
      if raw == REBOOT_PENDING {
        port.Exit();
        return ErrState;
      }
      SetMode(raw, GroundSetTag, now);
      port.Exit();
      return StatusOk;
    }

    method DeescalateLocked(now: Millis) returns (status: Status)
      requires Valid() && port.held
      modifies this`mode, port`log
      ensures Valid() && port.held && Abs() == Deescalate(old(Abs()), now)
      ensures status == if old(Abs()).mode == SAFE || old(Abs()).mode == DEGRADED then StatusOk else ErrState
    {
      hide Merge, Model.SetMode;
      if mode == SAFE {
        SetMode(DEGRADED, StepDownTag, now);
        return StatusOk;
      }
      if mode == DEGRADED {
        SetMode(NOMINAL, StepDownTag, now);
        return StatusOk;
      }
      return ErrState;
    }

    method DeescalateSystemMode(now: Millis) returns (status: Status)
      requires Valid() && !port.held
      modifies this`mode, port`log, port`held
      ensures Valid() && !port.held && Abs() == Deescalate(old(Abs()), now)
      ensures status == if old(Abs()).mode == SAFE || old(Abs()).mode == DEGRADED then StatusOk else ErrState
    {
      hide Abs, Valid, Deescalate;
      port.Enter();
      status := DeescalateLocked(now);
      port.Exit();
    }

    method EnterDegradedMode(now: Millis)
      requires Valid() && !port.held
      modifies this`mode, port`log, port`held
      ensures Valid() && !port.held && Abs() == Model.EnterDegraded(old(Abs()), now)
    {
      hide Abs, Valid, Model.EnterDegraded;
      port.Enter();
      EnterDegraded(now);
      port.Exit();
    }

    method EnterSafeMode(now: Millis)
      requires Valid() && !port.held
      modifies this`mode, port`log, port`held
      ensures Valid() && !port.held && Abs() == Model.EnterSafe(old(Abs()), now)
    {
      hide Abs, Valid, Model.EnterSafe;
      port.Enter();
      EnterSafe(now);
      port.Exit();
    }

    method ReassessSystemMode(now: Millis)
      requires Valid() && !port.held
      modifies this`mode, port`log, port`held
      ensures Valid() && !port.held && Abs() == Model.EvaluateDualPath(old(Abs()), now)
    {
      hide Abs, Valid, Model.EvaluateDualPath;
      port.Enter();
      EvaluateDualPath(now);
      port.Exit();
    }

    method AskReboot(reason: Option<Detail>, now: Millis)
      requires Valid() && !port.held
      modifies this`mode, port`log, port`reboots, port`held
      ensures Valid() && !port.held
      ensures Abs() == Model.TryReboot(old(Abs()), if reason.Some? then reason.value else Text("reboot"), now)
    {
      hide Abs, Valid, Model.TryReboot;
      port.Enter();
      TryReboot(if reason.Some? then reason.value else Text("reboot"), now);
      port.Exit();
    }

    /**
     * Raises and handles a watchdog fault for every entity that has been silent for too long; each
     * recovery reads the clock anew.
     */
    method CheckWatchdogs(sampled: Millis, at: Readings)
      requires Valid() && !port.held
      modifies Objects()
      ensures Valid() && !port.held && Abs() == Model.CheckWatchdogs(old(Abs()), sampled, at)
    {
      hide Merge, Handle, Overdue;
      ghost var s := Abs();
      var maxAge := MaxAge(cfg);
      var on := SupervisionEnabled();
      if !on {
        return;
      }
      port.Enter();
      var id := 0;
      while id < count
        invariant Valid() && port.held && supervised
        invariant id <= count == |s.entities|
        invariant Abs() == ScanTo(s, id, sampled, at)
        decreases count - id
      {
        ghost var before := Abs();
        ScanKeepsContract(s, id + 1, sampled, at);
        CheckOne(id, maxAge, sampled, at(id));
        assert Abs() == ScanOne(before, id, sampled, at(id));
        id := id + 1;
      }
      port.Exit();
    }

    /** History only: the scan found an overdue entity. */
    method NoteMiss(r: Report)
      requires Valid() && port.held
      modifies this`noticed
      ensures Valid() && port.held
      ensures Abs() == old(Abs()).(noticed := old(Abs()).noticed + multiset{r})
    {
      hide Merge;
      noticed := noticed + multiset{r};
    }

    /** One turn of the scan: the lock is dropped and retaken around the recovery. */
    method CheckOne(id: Byte, maxAge: Millis, sampled: Millis, now: Millis)
      requires Valid() && port.held && supervised && id < count && maxAge == MaxAge(cfg)
      modifies Objects()
      ensures Valid() && port.held
      ensures Abs() == ScanOne(old(Abs()), id, sampled, now)
    {
      hide Merge, Handle, Overdue;
      assert Abs().supervised;
      hide Valid, Abs;
      var overdue := QueryOverdue(id, maxAge, sampled);
      if !overdue {
        return;
      }
      var report := WatchdogReport(id, sampled);
      NoteMiss(report);
      port.Exit();
      HandleFailure(Some(report), now);
      port.Enter();
    }

    /**
     * Drains the queue in order of arrival, then scans for watchdog misses. The counter only numbers the
     * clock readings, one for each report.
     */
    method SupervisorTick(clock: Clock)
      requires Valid() && !port.held
      modifies Objects()
      ensures Valid() && !port.held && Abs() == Tick(old(Abs()), clock)
    {
      hide Merge, Handle, Drained, HandleAll, ScanTo, Get;
      ghost var s := Abs();
      var on := SupervisionEnabled();
      if !on {
        return;
      }
      var k := 0;
      DrainEnds(s, clock.drain);
      DrainShape(s, 0, clock.drain);
      GetIs(s);
      var report := QueueGet();
      while report.Some?
        invariant Valid() && !port.held && 0 <= k <= |s.queue| && supervised
        invariant report == if k < |s.queue| then Some(s.queue[k]) else None
        invariant Abs() == if k < |s.queue| then Get(Drained(s, k, clock.drain)) else Drained(s, k, clock.drain)
        decreases |s.queue| - k
      {
        DrainStep(s, k, clock.drain);
        HandleFailure(report, clock.drain(k));
        k := k + 1;
        DrainShape(s, k, clock.drain);
        GetIs(Abs());
        report := QueueGet();
      }
      CheckWatchdogs(clock.sampled, clock.scan);
    }
  }
}
