/** Values shared by the whole library: ids, enumerations, reports, events and descriptors. */
module Types {

  type Byte = n: nat | n < 0x100
  type Word = n: nat | n < 0x1_0000
  type Millis = n: nat | n < MILLIS_RANGE

  const MILLIS_RANGE: nat := 0x1_0000_0000

  const NO_ENTITY: Byte := 255
  const NO_SUBSYSTEM: Byte := 255

  /** Restart budget that is never exhausted; also the ceiling of the restart counters. */
  const UNLIMITED: Byte := 255

  /** System modes in escalation order, numbered as the enumerators are. */
  type Mode = m: nat | m <= 3

  const NOMINAL: Mode := 0
  const DEGRADED: Mode := 1
  const SAFE: Mode := 2
  const REBOOT_PENDING: Mode := 3

  function Max(a: Mode, b: Mode): Mode {
    if a >= b then a else b
  }

  /** Fault reasons, numbered as the enumerators are. */
  type Reason = r: nat | r <= 6

  const INIT_FAILED: Reason := 0
  const IO_ERROR: Reason := 1
  const WATCHDOG: Reason := 4
  const QUEUE_OVERFLOW: Reason := 5
  const USER: Reason := 6

  datatype Option<+T> = None | Some(value: T)

  datatype Status = StatusOk | ErrParam | ErrFull | ErrState | ErrPort | ErrBusy

  datatype Health = HealthOk | HealthDegraded | HealthFailed

  /** `Unrecognised` stands for a value outside the enumeration, which a hook may answer. */
  datatype Action = NoAction | Restart | Degrade | MakeUnavailable | GoSafe | Reboot | Unrecognised

  datatype Level = EntityLevel | SubsystemLevel | SystemLevel

  datatype Severity = Info | Warning | Error | Critical

  datatype Phase = Raised | Cleared

  datatype EventKind = FailureEvent | ModeChangeEvent | RestartEvent | WatchdogEvent | NoteEvent | OverflowEvent

  /** Texts carried by reports and events: the library's own fixed ones, or whatever a caller supplied. */
  datatype Detail =
    | Text(text: string)
    | DegradedTag | UnavailableTag | AvailableTag | OverrideTag | SafeTag
    | GroundSetTag | StepDownTag | SupervisionOnTag | SupervisionOffTag
    | HeartbeatTimeoutTag | RebootTag
  {
    predicate IsEmpty() {
      this == Text("")
    }
  }

  datatype Report = Report(
    entity: Byte, reason: Reason, errorCode: Word, detail: Detail, timestamp: Millis, flags: Byte)
  {
    /** Bit 0 of the flags: the queue must not drop the report silently. */
    predicate IsCritical() {
      flags % 2 == 1
    }
  }

  const CRITICAL: Byte := 1

  datatype Event = Event(
    kind: EventKind, mode: Mode, entity: Byte, subsystem: Byte, reason: Reason, errorCode: Word,
    timestamp: Millis, level: Level, phase: Phase, severity: Severity, anomalyId: nat, detail: Detail)

  /** Answers the action for (entity, report, restarts used, watchdog restarts used). */
  type DecideHook = (Byte, Report, Byte, Byte) -> Action

  /** Answers the action for (subsystem, entity, report). */
  type ExhaustedHook = (Byte, Byte, Report) -> Action

  /** `restart.value(k)` says whether the k-th call of the entity's restart callback succeeds. */
  datatype EntityDesc = EntityDesc(
    name: string, maxRestarts: Byte, maxWatchdogRestarts: Byte, onExhausted: Action, linked: Byte,
    restart: Option<nat -> bool>, decide: Option<DecideHook>)

  datatype SubsystemDesc = SubsystemDesc(name: string, critical: bool, onExhausted: Option<ExhaustedHook>)

  /** Build-time capacities together with the configuration copied at initialisation. */
  datatype Settings = Settings(
    entityCap: nat, subsystemCap: nat, queueCap: nat,
    period: Millis, tolerance: Byte, threshold: Byte)

  /** Entities are limited at build time; the other capacities must fit the 8-bit counters. */
  type Config = c: Settings | c.entityCap <= MAX_ENTITIES && c.subsystemCap <= 255 && 1 <= c.queueCap <= 255
    witness Settings(16, 8, 8, 500, 3, 2)

  const MAX_ENTITIES: nat := 128

  /** Ground-facing key of an entity anomaly: the entity in the high byte, the reason in the low one. */
  function EntityKey(entity: Byte, reason: Reason): nat {
    entity * 256 + reason
  }

  /** Key of a subsystem anomaly: as for entities, with bit 15 forced on. */
  function SubsystemKey(sub: Byte, reason: Reason): nat {
    0x8000 + (sub % 128) * 256 + reason
  }

  function SeverityOf(kind: EventKind, reason: Reason, mode: Mode): Severity {
    match kind
    case ModeChangeEvent => if mode >= SAFE then Critical else if mode == DEGRADED then Warning else Info
    case RestartEvent => Info
    case OverflowEvent => Warning
    case _ =>
      if reason == WATCHDOG || reason == INIT_FAILED || kind.FailureEvent? || kind.WatchdogEvent? then Error
      else Info
  }
}
