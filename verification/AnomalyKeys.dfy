/** Which events share a ground-facing anomaly key; between registered owners none do. */
module AnomalyKeys {
  import opened Types
  import opened Model
  import opened Replay

  /** The shifts and ors of the key macros are the sums the model uses, in 16-bit arithmetic. */
  lemma MacrosAreSums(owner: bv16, reason: bv16)
    requires owner < 256 && reason < 7
    ensures (owner << 8) | reason == owner * 256 + reason
    ensures 0x8000 | (owner << 8) | reason == 0x8000 + (owner & 127) * 256 + reason
  {
  }

  /** Below 128 owners, entity keys keep bit 15 clear, and each key determines its owner and reason. */
  lemma EntityKeysDiffer(e: Byte, r: Reason, f: Byte, q: Reason)
    ensures EntityKey(e, r) == EntityKey(f, q) <==> e == f && r == q
    ensures EntityKey(e, r) < 0x8000 <==> e < 128
  {
  }

  /** Subsystem keys have bit 15 set; they determine the owner up to multiples of 128. */
  lemma SubsystemKeysDiffer(a: Byte, r: Reason, b: Byte, q: Reason)
    ensures SubsystemKey(a, r) == SubsystemKey(b, q) <==> a % 128 == b % 128 && r == q
    ensures 0x8000 <= SubsystemKey(a, r) < 0x1_0000
  {
    var x, y := a % 128, b % 128;
    assert SubsystemKey(a, r) == 0x8000 + x * 256 + r && SubsystemKey(b, q) == 0x8000 + y * 256 + q;
  }

  /** An entity key meets a subsystem key exactly for entity 128 + b, modulo the folding of subsystems. */
  lemma CrossCollisions(e: Byte, r: Reason, b: Byte, q: Reason)
    ensures EntityKey(e, r) == SubsystemKey(b, q) <==> e == 128 + b % 128 && r == q
  {
    var y := b % 128;
    assert SubsystemKey(b, q) == 0x8000 + y * 256 + q;
  }

  /** The event is about an entity or subsystem that the library has registered. */
  predicate IsOwned(s: State, e: Event) {
    (e.level.EntityLevel? && e.entity < |s.entities|) || (e.level.SubsystemLevel? && e.subsystem < |s.subs|)
  }

  predicate SameAnomaly(e: Event, f: Event) {
    && e.level == f.level && e.reason == f.reason
    && (e.level.EntityLevel? ==> e.entity == f.entity)
    && (e.level.SubsystemLevel? ==> e.subsystem == f.subsystem)
  }

  /**
   * Main result: after any run, two logged events about registered owners carry the same key exactly
   * when they are about the same owner and reason, provided no more than 128 subsystems exist.
   */
  lemma KeysOverRuns(cfg: Config, steps: seq<Step>, j: nat, k: nat)
    requires
      var s := Run(Initial(cfg), steps);
      j < |s.log| && k < |s.log| && IsOwned(s, s.log[j]) && IsOwned(s, s.log[k]) && |s.subs| <= 128
    ensures
      var s := Run(Initial(cfg), steps);
      s.log[j].anomalyId == s.log[k].anomalyId <==> SameAnomaly(s.log[j], s.log[k])
  {
    hide Run, EntityKey, SubsystemKey;
    var s := Run(Initial(cfg), steps);
    var e, f := s.log[j], s.log[k];
    LogDeterminesState(cfg, steps);
    assert EventJustified(s, j) && EventJustified(s, k);
    match (e.level, f.level)
    case (EntityLevel, EntityLevel) => EntityKeysDiffer(e.entity, e.reason, f.entity, f.reason);
    case (EntityLevel, SubsystemLevel) => CrossCollisions(e.entity, e.reason, f.subsystem, f.reason);
    case (SubsystemLevel, EntityLevel) => CrossCollisions(f.entity, f.reason, e.subsystem, e.reason);
    case (SubsystemLevel, SubsystemLevel) =>
      SubsystemKeysDiffer(e.subsystem, e.reason, f.subsystem, f.reason);
  }

  // ---------------------------------------------------------------- all events

  /** Events with key zero: without an owner, or about a failed initialisation of entity 0. */
  predicate KeyedZero(e: Event) {
    || e.level.SystemLevel?
    || (e.level.EntityLevel? && (e.entity == NO_ENTITY || (e.entity == 0 && e.reason == INIT_FAILED)))
  }

  /** An entity number from 128 on, registered or not, and the subsystem it is folded onto. */
  predicate Folded(e: Event, f: Event) {
    && e.level.EntityLevel? && f.level.SubsystemLevel? && e.reason == f.reason
    && e.entity != NO_ENTITY && e.entity == 128 + f.subsystem % 128
  }

  predicate ShareKey(e: Event, f: Event) {
    || (KeyedZero(e) && KeyedZero(f))
    || (e.level.EntityLevel? && f.level.EntityLevel? && e.entity == f.entity && e.reason == f.reason)
    || (e.level.SubsystemLevel? && f.level.SubsystemLevel?
        && e.subsystem % 128 == f.subsystem % 128 && e.reason == f.reason)
    || Folded(e, f) || Folded(f, e)
  }

  lemma KeysAreExact(e: Event, f: Event)
    requires WellKeyed(e) && WellKeyed(f)
    ensures e.anomalyId == f.anomalyId <==> ShareKey(e, f)
  {
    hide EntityKey, SubsystemKey;
    ZeroKeys(e);
    ZeroKeys(f);
    match (e.level, f.level)
    case (EntityLevel, EntityLevel) => EntityKeysDiffer(e.entity, e.reason, f.entity, f.reason);
    case (EntityLevel, SubsystemLevel) => CrossCollisions(e.entity, e.reason, f.subsystem, f.reason);
    case (SubsystemLevel, EntityLevel) => CrossCollisions(f.entity, f.reason, e.subsystem, e.reason);
    case (SubsystemLevel, SubsystemLevel) =>
      SubsystemKeysDiffer(e.subsystem, e.reason, f.subsystem, f.reason);
    case (_, _) =>
  }

  lemma ZeroKeys(e: Event)
    requires WellKeyed(e)
    ensures e.anomalyId == 0 <==> KeyedZero(e)
  {
  }

  /** Main result for all events: after any run, two logged events share a key exactly in these cases. */
  lemma SharedKeysOverRuns(cfg: Config, steps: seq<Step>)
    ensures
      var log := Run(Initial(cfg), steps).log;
      forall j, k | 0 <= j < |log| && 0 <= k < |log| ::
        log[j].anomalyId == log[k].anomalyId <==> ShareKey(log[j], log[k])
  {
    hide Run, ShareKey, WellKeyed;
    var s := Run(Initial(cfg), steps);
    LogDeterminesState(cfg, steps);
    forall j, k | 0 <= j < |s.log| && 0 <= k < |s.log|
      ensures s.log[j].anomalyId == s.log[k].anomalyId <==> ShareKey(s.log[j], s.log[k])
    {
      assert EventJustified(s, j) && EventJustified(s, k);
      KeysAreExact(s.log[j], s.log[k]);
    }
  }
}
