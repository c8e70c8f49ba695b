/** The library's state as a value, and what each critical section does to it. */
module Model {
  import opened Types

  /**
   * One entity slot. `calls` and `watchdogCalls` count the calls made to the restart callback;
   * `since` is the length of the event log when the entity was registered. The last three
   * are history: no decision reads them, except that a call's number selects its outcome.
   */
  datatype Slot = Slot(
    desc: EntityDesc, restarts: Byte, watchdogRestarts: Byte, calls: nat, watchdogCalls: nat, since: nat)

  datatype Vitals = Vitals(
    health: Health, lastBeat: Millis, errorCode: Word, detail: Detail, latch: Option<Reason>)

  datatype Entity = Entity(slot: Slot, vitals: Vitals)

  type EntityTable = e: seq<Entity> | |e| <= MAX_ENTITIES

  /** One subsystem slot; `since` is the length of the event log at registration. */
  datatype Subsystem = Subsystem(desc: SubsystemDesc, available: bool, degraded: bool, since: nat)

  /**
   * The shared state. The last five fields are history: emitted events, reboot requests, reports
   * the queue accepted, watchdog reports raised by the scan, and reports handled (not suppressed).
   */
  datatype State = State(
    cfg: Config, entities: EntityTable, subs: seq<Subsystem>,
    queue: seq<Report>, full: bool, mode: Mode, supervised: bool,
    log: seq<Event>, reboots: multiset<Detail>,
    accepted: multiset<Report>, noticed: multiset<Report>, handled: multiset<Report>)

  function Initial(cfg: Config): State {
    State(cfg, [], [], [], false, NOMINAL, true, [], multiset{}, multiset{}, multiset{}, multiset{})
  }

  // ---------------------------------------------------------------- events and modes

  /** An event as the general emitter fills it in. */
  function PlainEvent(kind: EventKind, mode: Mode, entity: Byte, reason: Reason, errorCode: Word,
                      level: Level, phase: Phase, detail: Detail, now: Millis): Event {
    Event(kind, mode, entity, NO_SUBSYSTEM, reason, errorCode, now, level, phase,
          SeverityOf(kind, reason, mode),
          if entity != NO_ENTITY then EntityKey(entity, reason) else 0, detail)
  }

  function SubsystemEvent(sub: Byte, mode: Mode, entity: Byte, reason: Reason, errorCode: Word,
                          phase: Phase, detail: Detail, now: Millis): Event {
    Event(FailureEvent, mode, entity, sub, reason, errorCode, now, SubsystemLevel, phase,
          if phase.Cleared? then Info
          else if detail.UnavailableTag? || detail.OverrideTag? then Error else Warning,
          SubsystemKey(sub, reason), detail)
  }

  function Emit(s: State, e: Event): State {
    s.(log := s.log + [e])
  }

  function SetMode(s: State, mode: Mode, detail: Detail, now: Millis): State {
    if s.mode == mode then s
    else
      Emit(s.(mode := mode),
           PlainEvent(ModeChangeEvent, mode, NO_ENTITY, USER, 0, SystemLevel, Raised, detail, now))
  }

  function EnterDegraded(s: State, now: Millis): State {
    if s.mode == NOMINAL then SetMode(s, DEGRADED, DegradedTag, now) else s
  }

  function EnterSafe(s: State, now: Millis): State {
    if s.mode != REBOOT_PENDING then SetMode(s, SAFE, SafeTag, now) else s
  }

  function TryReboot(s: State, why: Detail, now: Millis): State {
    var s1 := SetMode(s, REBOOT_PENDING, why, now);
    s1.(reboots := s1.reboots + multiset{why})
  }

  // ---------------------------------------------------------------- subsystems

  datatype Mark = MarkUp | MarkDegraded | MarkDown

  /** Recovery only ever takes subsystems away. */
  type Loss = m: Mark | !m.MarkUp?
    witness MarkDown

  function MarkedOne(sub: Subsystem, mark: Mark): Subsystem {
    match mark
    case MarkUp => sub.(available := true, degraded := false)
    case MarkDegraded => sub.(degraded := true)
    case MarkDown => sub.(available := false, degraded := true)
  }

  function Marked(subs: seq<Subsystem>, id: Byte, mark: Mark): seq<Subsystem> {
    if id < |subs| then subs[id := MarkedOne(subs[id], mark)] else subs
  }

  function TagOf(mark: Mark): Detail {
    match mark
    case MarkUp => AvailableTag
    case MarkDegraded => DegradedTag
    case MarkDown => UnavailableTag
  }

  /** Indices of the critical-path subsystems that are unavailable. */
  function CriticalDown(subs: seq<Subsystem>): set<nat> {
    set i: nat | i < |subs| && subs[i].desc.critical && !subs[i].available
  }

  function EvaluateDualPath(s: State, now: Millis): State {
    if |CriticalDown(s.subs)| >= s.cfg.threshold then EnterSafe(s, now) else s
  }

  function ExhaustedAnswer(subs: seq<Subsystem>, sub: Byte, entity: Byte, r: Report): Action {
    if sub < |subs| && subs[sub].desc.onExhausted.Some?
    then subs[sub].desc.onExhausted.value(sub, entity, r)
    else NoAction
  }

  // ---------------------------------------------------------------- recovery of one entity

  predicate IsLatched(s: State, id: Byte, reason: Reason) {
    id < |s.entities| && s.entities[id].vitals.latch == Some(reason)
  }

  predicate IsFailed(s: State, id: Byte) {
    id < |s.entities| && s.entities[id].vitals.health.HealthFailed?
  }

  function WithSlot(s: State, id: Byte, slot: Slot): State
    requires id < |s.entities|
  {
    s.(entities := s.entities[id := s.entities[id].(slot := slot)])
  }

  function WithVitals(s: State, id: Byte, vitals: Vitals): State
    requires id < |s.entities|
  {
    s.(entities := s.entities[id := s.entities[id].(vitals := vitals)])
  }

  function DefaultDecide(slot: Slot, reason: Reason): Action {
    if reason == WATCHDOG then
      if slot.desc.maxWatchdogRestarts == UNLIMITED || slot.watchdogRestarts < slot.desc.maxWatchdogRestarts
      then Restart else slot.desc.onExhausted
    else
      if slot.desc.maxRestarts == UNLIMITED || slot.restarts < slot.desc.maxRestarts
      then Restart else slot.desc.onExhausted
  }

  /** The entity's own policy: its hook, falling back on the restart budget. */
  function Decide(slot: Slot, r: Report): Action {
    var answer :=
      if slot.desc.decide.Some?
      then slot.desc.decide.value(r.entity, r, slot.restarts, slot.watchdogRestarts)
      else NoAction;
    if answer.NoAction? then DefaultDecide(slot, r.reason) else answer
  }

  /** Whether the linked subsystem is asked about the action at all. */
  predicate Escalates(slot: Slot, action: Action) {
    !action.Restart? && !action.NoAction? && slot.desc.linked != NO_SUBSYSTEM
  }

  /** The action after the linked subsystem had its say. */
  function Resolved(subs: seq<Subsystem>, slot: Slot, action: Action, r: Report): Action {
    if Escalates(slot, action) && !ExhaustedAnswer(subs, slot.desc.linked, r.entity, r).NoAction?
    then ExhaustedAnswer(subs, slot.desc.linked, r.entity, r)
    else action
  }

  function Resolve(s: State, slot: Slot, action: Action, r: Report, now: Millis): State {
    if Escalates(slot, action) && !ExhaustedAnswer(s.subs, slot.desc.linked, r.entity, r).NoAction?
    then Emit(s, SubsystemEvent(slot.desc.linked, s.mode, r.entity, r.reason, r.errorCode,
                                Raised, OverrideTag, now))
    else s
  }

  function Bumped(count: Byte): Byte {
    if count < 255 then count + 1 else count
  }

  /** The slot after one more call of the restart callback. */
  function BumpRestart(slot: Slot, reason: Reason): Slot {
    if reason == WATCHDOG
    then slot.(watchdogRestarts := Bumped(slot.watchdogRestarts), watchdogCalls := slot.watchdogCalls + 1)
    else slot.(restarts := Bumped(slot.restarts), calls := slot.calls + 1)
  }

  /** Whether the next call of the restart callback succeeds. */
  predicate RestartSucceeds(slot: Slot) {
    slot.desc.restart.Some? && slot.desc.restart.value(slot.calls + slot.watchdogCalls)
  }

  function FreshVitals(latch: Option<Reason>, now: Millis): Vitals {
    Vitals(HealthOk, now, 0, Text(""), latch)
  }

  /** The bookkeeping after a successful restart callback: latch cleared, health reset, two events. */
  function Revive(s: State, id: Byte, reason: Reason, now: Millis): State
    requires id < |s.entities|
  {
    var latch := s.entities[id].vitals.latch;
    var name := s.entities[id].slot.desc.name;
    var s1 := WithVitals(s, id, FreshVitals(None, now));
    var s2 :=
      if latch.Some?
      then Emit(s1, PlainEvent(FailureEvent, s.mode, id, latch.value, 0, EntityLevel, Cleared, Text(name), now))
      else s1;
    Emit(s2, PlainEvent(RestartEvent, s.mode, id, reason, 0, EntityLevel, Raised, Text(name), now))
  }

  function TryRestart(s: State, id: Byte, reason: Reason, now: Millis): State
    requires id < |s.entities|
  {
    var slot := s.entities[id].slot;
    if slot.desc.restart.None? then s
    else
      var s1 := WithSlot(s, id, BumpRestart(slot, reason));
      if RestartSucceeds(slot) then Revive(s1, id, reason, now) else s1
  }

  /** Marks the linked subsystem, if any, and tells the ground. */
  function MarkLinked(s: State, id: Byte, mark: Loss, r: Report, now: Millis): State
    requires id < |s.entities|
  {
    var sub := s.entities[id].slot.desc.linked;
    if sub == NO_SUBSYSTEM then s
    else
      Emit(s.(subs := Marked(s.subs, sub, mark)),
           SubsystemEvent(sub, s.mode, id, r.reason, r.errorCode, Raised, TagOf(mark), now))
  }

  function RebootReason(r: Report): Detail {
    if r.detail.IsEmpty() then RebootTag else r.detail
  }

  /** Every action but a restart. */
  function ApplyTerminal(s: State, id: Byte, action: Action, r: Report, now: Millis): State
    requires id < |s.entities|
  {
    match action
    case Degrade => EnterDegraded(MarkLinked(s, id, MarkDegraded, r, now), now)
    case MakeUnavailable => EvaluateDualPath(EnterDegraded(MarkLinked(s, id, MarkDown, r, now), now), now)
    case GoSafe => EnterSafe(MarkLinked(s, id, MarkDown, r, now), now)
    case Reboot => TryReboot(MarkLinked(s, id, MarkDown, r, now), RebootReason(r), now)
    case _ => s
  }

  /** What follows a failed restart; a restart is never retried. */
  function Fallback(slot: Slot): Action {
    if slot.desc.onExhausted.Restart? then NoAction else slot.desc.onExhausted
  }

  function ApplyAction(s: State, id: Byte, action: Action, r: Report, now: Millis): State
    requires id < |s.entities|
  {
    if action.Restart? then
      var slot := s.entities[id].slot;
      var s1 := TryRestart(s, id, r.reason, now);
      if RestartSucceeds(slot) then s1 else ApplyTerminal(s1, id, Fallback(slot), r, now)
    else
      ApplyTerminal(s, id, action, r, now)
  }

  function Recover(s: State, r: Report, now: Millis): State
    requires r.entity < |s.entities|
  {
    var slot := s.entities[r.entity].slot;
    var chosen := Decide(slot, r);
    var s1 := Resolve(s, slot, chosen, r, now);
    EvaluateDualPath(ApplyAction(s1, r.entity, Resolved(s.subs, slot, chosen, r), r, now), now)
  }

  /** The announcement of a report that is not suppressed. */
  function Announce(s: State, r: Report, now: Millis): State {
    Emit(s.(handled := s.handled + multiset{r}),
         PlainEvent(if r.reason == WATCHDOG then WatchdogEvent else FailureEvent,
                    s.mode, r.entity, r.reason, r.errorCode, EntityLevel, Raised, r.detail, now))
  }

  function FailedVitals(v: Vitals, r: Report): Vitals {
    v.(health := HealthFailed, errorCode := r.errorCode, detail := r.detail, latch := Some(r.reason))
  }

  /** The locked part of failure handling. */
  function Handle(s: State, r: Report, now: Millis): State {
    if IsLatched(s, r.entity, r.reason) then s
    else
      var s1 := Announce(s, r, now);
      if r.entity >= |s.entities| then EnterDegraded(s1, now)
      else
        var s2 := WithVitals(s1, r.entity, FailedVitals(s.entities[r.entity].vitals, r));
        Recover(s2, r, now)
  }

  // ---------------------------------------------------------------- queue and reporting

  function Put(s: State, r: Report): State {
    if |s.queue| >= s.cfg.queueCap then s.(full := true)
    else s.(queue := s.queue + [r], accepted := s.accepted + multiset{r})
  }

  function PutStatus(s: State, r: Report): Status {
    if |s.queue| < s.cfg.queueCap then StatusOk
    else if r.IsCritical() then ErrBusy
    else ErrState
  }

  function Get(s: State): State {
    if |s.queue| == 0 then s else s.(queue := s.queue[1..])
  }

  /** Whether a worker's report goes on to the queue at all. */
  predicate Admits(s: State, id: Byte, reason: Reason) {
    s.supervised && !IsLatched(s, id, reason) && !IsFailed(s, id)
  }

  function ReportFault(s: State, id: Byte, reason: Reason, errorCode: Word, detail: Detail, flags: Byte,
                       now: Millis): State {
    var r := Report(id, reason, errorCode, detail, now, flags);
    if !Admits(s, id, reason) then s
    else
      var s1 := Put(s, r);
      if PutStatus(s, r) != StatusOk then s1
      else SetHealth(s1, id, HealthFailed, errorCode, detail)
  }

  function ReportStatus(s: State, id: Byte, reason: Reason, errorCode: Word, detail: Detail, flags: Byte,
                        now: Millis): Status {
    if !Admits(s, id, reason) then StatusOk
    else PutStatus(s, Report(id, reason, errorCode, detail, now, flags))
  }

  // ---------------------------------------------------------------- health, registration, ground

  function Heartbeat(s: State, id: Byte, now: Millis): State {
    if id >= |s.entities| then s
    else
      var v := s.entities[id].vitals;
      WithVitals(s, id, v.(lastBeat := now, health := if v.health.HealthFailed? then HealthFailed else HealthOk))
  }

  function SetHealth(s: State, id: Byte, health: Health, errorCode: Word, detail: Detail): State {
    if id >= |s.entities| then s
    else WithVitals(s, id, s.entities[id].vitals.(health := health, errorCode := errorCode, detail := detail))
  }

  function ResetHealth(s: State, id: Byte, now: Millis): State {
    if id >= |s.entities| then s
    else WithVitals(s, id, FreshVitals(s.entities[id].vitals.latch, now))
  }

  function RegisterStatus(s: State, desc: EntityDesc): Status {
    if |s.entities| >= s.cfg.entityCap then ErrFull
    else if desc.onExhausted.Restart? then ErrParam
    else StatusOk
  }

  function RegisterEntity(s: State, desc: EntityDesc, now: Millis): State {
    if RegisterStatus(s, desc) != StatusOk then s
    else
      s.(entities := s.entities + [Entity(Slot(desc, 0, 0, 0, 0, |s.log|), FreshVitals(None, now))])
  }

  function RegisterSubsystem(s: State, desc: SubsystemDesc): State {
    if |s.subs| >= s.cfg.subsystemCap then s
    else s.(subs := s.subs + [Subsystem(desc, true, false, |s.log|)])
  }

  /** A mark asked for by ground or application. */
  function MarkByHand(s: State, id: Byte, mark: Mark, now: Millis): State {
    if id >= |s.subs| then s
    else
      Emit(s.(subs := Marked(s.subs, id, mark)),
           SubsystemEvent(id, s.mode, NO_ENTITY, USER, 0,
                          if mark.MarkUp? then Cleared else Raised, TagOf(mark), now))
  }

  function NotedEvent(s: State, detail: Detail, now: Millis): Event {
    PlainEvent(NoteEvent, s.mode, NO_ENTITY, USER, 0, SystemLevel, Raised, detail, now)
  }

  function SetSupervision(s: State, enabled: bool, now: Millis): State {
    if s.supervised == enabled then s
    else
      var s1 := s.(supervised := enabled);
      var s2 := if enabled then s1 else s1.(queue := [], full := false);
      Emit(s2, NotedEvent(s, if enabled then SupervisionOnTag else SupervisionOffTag, now))
  }

  /** `raw` is the requested mode as the caller passed it, in range or not. */
  function GroundMode(s: State, raw: nat, now: Millis): State {
    if raw >= REBOOT_PENDING then s else SetMode(s, raw, GroundSetTag, now)
  }

  function Deescalate(s: State, now: Millis): State {
    if s.mode == SAFE then SetMode(s, DEGRADED, StepDownTag, now)
    else if s.mode == DEGRADED then SetMode(s, NOMINAL, StepDownTag, now)
    else s
  }

  // ---------------------------------------------------------------- critical sections and runs

  /** Every critical section that writes shared state. */
  datatype Section =
    | AddEntity(desc: EntityDesc)
    | AddSubsystem(sdesc: SubsystemDesc)
    | Fault(id: Byte, reason: Reason, errorCode: Word, detail: Detail, flags: Byte)
    | Enqueue(r: Report)
    | Dequeue
    | Process(r: Report)
    | Notice(r: Report)
    | Beat(id: Byte)
    | HealthSet(id: Byte, health: Health, errorCode: Word, detail: Detail)
    | HealthReset(id: Byte)
    | MarkSub(sub: Byte, mark: Mark)
    | Supervise(enabled: bool)
    | Ground(raw: nat)
    | StepDown
    | ForceDegraded
    | ForceSafe
    | Reassess
    | AskReboot(why: Detail)
    | LogNote(note: Detail)
    | LogOverflow(queueId: Word, text: Detail)

  datatype Step = Step(section: Section, now: Millis)

  /** The sections that belong to entry points of several sections, and are no call of their own. */
  predicate InThread(section: Section) {
    section.Enqueue? || section.Dequeue? || section.Process? || section.Notice?
  }

  /** A call that consists of a single section. */
  type AtomicStep = step: Step | !InThread(step.section)
    witness Step(Reassess, 0)

  function Do(s: State, step: Step): State {
    var now := step.now;
    match step.section
    case AddEntity(desc) => RegisterEntity(s, desc, now)
    case AddSubsystem(desc) => RegisterSubsystem(s, desc)
    case Fault(id, reason, code, detail, flags) => ReportFault(s, id, reason, code, detail, flags, now)
    case Enqueue(r) => Put(s, r)
    case Dequeue => Get(s)
    case Process(r) => Handle(s, r, now)
    case Notice(r) => s.(noticed := s.noticed + multiset{r})
    case Beat(id) => Heartbeat(s, id, now)
    case HealthSet(id, health, code, detail) => SetHealth(s, id, health, code, detail)
    case HealthReset(id) => ResetHealth(s, id, now)
    case MarkSub(sub, mark) => MarkByHand(s, sub, mark, now)
    case Supervise(enabled) => SetSupervision(s, enabled, now)
    case Ground(raw) => GroundMode(s, raw, now)
    case StepDown => Deescalate(s, now)
    case ForceDegraded => EnterDegraded(s, now)
    case ForceSafe => EnterSafe(s, now)
    case Reassess => EvaluateDualPath(s, now)
    case AskReboot(why) => TryReboot(s, why, now)
    case LogNote(note) => Emit(s, NotedEvent(s, note, now))
    case LogOverflow(queueId, text) =>
      Emit(s, PlainEvent(OverflowEvent, s.mode, NO_ENTITY, QUEUE_OVERFLOW, queueId, SystemLevel, Raised, text, now))
  }

  /** Any sequence of critical sections, by whichever threads. */
  function Run(s: State, steps: seq<Step>): State {
    if steps == [] then s else Do(Run(s, steps[..|steps| - 1]), steps[|steps| - 1])
  }

  // ---------------------------------------------------------------- sequential entry points

  function MaxAge(cfg: Config): Millis {
    (cfg.tolerance * cfg.period) % MILLIS_RANGE
  }

  /** Wrapping 32-bit subtraction. */
  function Elapsed(now: Millis, then_: Millis): Millis {
    (now - then_) % MILLIS_RANGE
  }

  predicate IsStale(s: State, id: Byte, now: Millis, maxAge: Millis) {
    id < |s.entities| && !IsFailed(s, id) && Elapsed(now, s.entities[id].vitals.lastBeat) > maxAge
  }

  /** Whether the scan raises a watchdog fault for the entity. */
  predicate Overdue(s: State, id: Byte, sampled: Millis) {
    !IsLatched(s, id, WATCHDOG) && IsStale(s, id, sampled, MaxAge(s.cfg))
  }

  function WatchdogReport(id: Byte, sampled: Millis): Report {
    Report(id, WATCHDOG, 0, HeartbeatTimeoutTag, sampled, CRITICAL)
  }

  /** A submitted report is dropped while supervision is off. */
  function SubmitFailure(s: State, r: Report): State {
    if s.supervised then Put(s, r) else s
  }

  function HandleFailure(s: State, r: Report, now: Millis): State {
    if s.supervised then Handle(s, r, now) else s
  }

  function ScanOne(s: State, id: Byte, sampled: Millis, now: Millis): State {
    if Overdue(s, id, sampled)
    then
      var r := WatchdogReport(id, sampled);
      HandleFailure(s.(noticed := s.noticed + multiset{r}), r, now)
    else s
  }

  /** One clock reading for each of several critical sections, in no particular order in time. */
  type Readings = nat -> Millis

  /** The scan of entities 0 .. n-1; the recovery of entity `id` reads the clock at `at(id)`. */
  function ScanTo(s: State, n: nat, sampled: Millis, at: Readings): State
    requires n <= MAX_ENTITIES
  {
    if n == 0 then s else ScanOne(ScanTo(s, n - 1, sampled, at), n - 1, sampled, at(n - 1))
  }

  function CheckWatchdogs(s: State, sampled: Millis, at: Readings): State {
    if !s.supervised then s else ScanTo(s, |s.entities|, sampled, at)
  }

  /** Left fold of failure handling over a batch of reports; the k-th one is handled at `at(k)`. */
  function HandleAll(s: State, reports: seq<Report>, at: Readings): State {
    if reports == [] then s
    else
      var last := |reports| - 1;
      Handle(HandleAll(s, reports[..last], at), reports[last], at(last))
  }

  /**
   * Clock readings of one supervisor tick: one for each report of the drain, the scan's sample, and one
   * for each entity that the scan may recover.
   */
  datatype Clock = Clock(drain: Readings, sampled: Millis, scan: Readings)

  function Tick(s: State, clock: Clock): State {
    if !s.supervised then s
    else
      CheckWatchdogs(HandleAll(s.(queue := []), s.queue, clock.drain), clock.sampled, clock.scan)
  }

  predicate EntityMayRun(s: State, id: Byte) {
    !s.supervised || (s.mode < SAFE && id < |s.entities| && !IsFailed(s, id))
  }

  predicate WorkerMayRun(s: State, id: Byte) {
    s.mode < SAFE && EntityMayRun(s, id)
  }

  /** The worker gate's side effect. */
  function WorkerGate(s: State, id: Byte, now: Millis): State {
    if s.mode >= SAFE then Heartbeat(s, id, now) else s
  }
}
