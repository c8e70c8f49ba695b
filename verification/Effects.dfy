/**
 * Recovery of one report, seen from outside: the effect is computed from the entity's own data and
 * its linked subsystem's answer alone, and is then joined into the shared state.
 */
module Effects {
  import opened Types
  import opened Model

  /** The state without its event log. */
  function Silent(s: State): State {
    s.(log := [])
  }

  /** What handling one report does: new entity, mark on the linked subsystem, least mode, reboot requests. */
  datatype Effect = Effect(entity: Entity, mark: Option<Mark>, floor: Mode, asks: multiset<Detail>)

  function TerminalEffect(e: Entity, action: Action, r: Report): Effect {
    match action
    case Degrade => Effect(e, Some(MarkDegraded), DEGRADED, multiset{})
    case MakeUnavailable => Effect(e, Some(MarkDown), DEGRADED, multiset{})
    case GoSafe => Effect(e, Some(MarkDown), SAFE, multiset{})
    case Reboot => Effect(e, Some(MarkDown), REBOOT_PENDING, multiset{RebootReason(r)})
    case _ => Effect(e, None, NOMINAL, multiset{})
  }

  function ActionEffect(e: Entity, action: Action, r: Report, now: Millis): Effect {
    if action.Restart? then
      if RestartSucceeds(e.slot)
      then Effect(Entity(BumpRestart(e.slot, r.reason), FreshVitals(None, now)), None, NOMINAL, multiset{})
      else if e.slot.desc.restart.Some?
      then TerminalEffect(e.(slot := BumpRestart(e.slot, r.reason)), Fallback(e.slot), r)
      else TerminalEffect(e, Fallback(e.slot), r)
    else TerminalEffect(e, action, r)
  }

  /** `answer` is what the linked subsystem says if it is asked. */
  function EffectOf(e: Entity, answer: Action, r: Report, now: Millis): Effect {
    var chosen := Decide(e.slot, r);
    ActionEffect(e.(vitals := FailedVitals(e.vitals, r)),
                 if Escalates(e.slot, chosen) && !answer.NoAction? then answer else chosen, r, now)
  }

  function MarkedBy(subs: seq<Subsystem>, linked: Byte, mark: Option<Mark>): seq<Subsystem> {
    if linked == NO_SUBSYSTEM || mark.None? then subs else Marked(subs, linked, mark.value)
  }

  /** The mode the dual-path rule asks for. */
  function DualPathFloor(cfg: Config, subs: seq<Subsystem>): Mode {
    if |CriticalDown(subs)| >= cfg.threshold then SAFE else NOMINAL
  }

  function Absorb(s: State, id: Byte, eff: Effect, r: Report): State
    requires id < |s.entities|
  {
    var subs := MarkedBy(s.subs, s.entities[id].slot.desc.linked, eff.mark);
    s.(entities := s.entities[id := eff.entity],
       subs := subs,
       mode := Max(Max(s.mode, eff.floor), DualPathFloor(s.cfg, subs)),
       reboots := s.reboots + eff.asks,
       handled := s.handled + multiset{r})
  }

  function EffectIn(s: State, r: Report, now: Millis): Effect
    requires r.entity < |s.entities|
  {
    var e := s.entities[r.entity];
    EffectOf(e, ExhaustedAnswer(s.subs, e.slot.desc.linked, r.entity, r), r, now)
  }

  /** Handling, log aside: a stutter, a bare escalation, or the join of one effect. */
  function Joined(s: State, r: Report, now: Millis): State {
    if IsLatched(s, r.entity, r.reason) then s
    else if r.entity >= |s.entities|
    then s.(mode := Max(s.mode, DEGRADED), handled := s.handled + multiset{r})
    else Absorb(s, r.entity, EffectIn(s, r, now), r)
  }

  lemma ModeJoins(s: State, why: Detail, now: Millis)
    ensures Silent(EnterDegraded(s, now)) == Silent(s).(mode := Max(s.mode, DEGRADED))
    ensures Silent(EnterSafe(s, now)) == Silent(s).(mode := Max(s.mode, SAFE))
    ensures Silent(TryReboot(s, why, now))
            == Silent(s).(mode := REBOOT_PENDING, reboots := s.reboots + multiset{why})
  {
  }

  lemma DualPathJoins(s: State, now: Millis)
    ensures Silent(EvaluateDualPath(s, now)) == Silent(s).(mode := Max(s.mode, DualPathFloor(s.cfg, s.subs)))
  {
    ModeJoins(s, RebootTag, now);
  }

  lemma MarkJoins(s: State, id: Byte, mark: Loss, r: Report, now: Millis)
    requires id < |s.entities|
    ensures Silent(MarkLinked(s, id, mark, r, now))
            == Silent(s).(subs := MarkedBy(s.subs, s.entities[id].slot.desc.linked, Some(mark)))
  {
  }

  lemma MaxFacts(mode: Mode, floor: Mode)
    ensures Max(mode, NOMINAL) == mode && Max(mode, REBOOT_PENDING) == REBOOT_PENDING
    ensures Max(Max(Max(mode, DEGRADED), floor), floor) == Max(Max(mode, DEGRADED), floor)
  {
  }

  lemma TerminalJoins(s: State, id: Byte, action: Action, r: Report, now: Millis)
    requires id < |s.entities|
    ensures
      var eff := TerminalEffect(s.entities[id], action, r);
      var subs := MarkedBy(s.subs, s.entities[id].slot.desc.linked, eff.mark);
      Silent(EvaluateDualPath(ApplyTerminal(s, id, action, r, now), now))
      == Silent(s.(subs := subs, mode := Max(Max(s.mode, eff.floor), DualPathFloor(s.cfg, subs)),
                   reboots := s.reboots + eff.asks))
  {
    hide MarkLinked, MarkedBy, EnterDegraded, EnterSafe, EvaluateDualPath, TryReboot, DualPathFloor, Max;
    MaxFacts(s.mode, DualPathFloor(s.cfg, MarkedBy(s.subs, s.entities[id].slot.desc.linked, Some(MarkDown))));
    DualPathJoins(ApplyTerminal(s, id, action, r, now), now);
    match action
    case Degrade =>
      var s1 := MarkLinked(s, id, MarkDegraded, r, now);
      MarkJoins(s, id, MarkDegraded, r, now);
      ModeJoins(s1, RebootTag, now);
    case MakeUnavailable =>
      var s1 := MarkLinked(s, id, MarkDown, r, now);
      MarkJoins(s, id, MarkDown, r, now);
      ModeJoins(s1, RebootTag, now);
      DualPathJoins(EnterDegraded(s1, now), now);
    case GoSafe =>
      MarkJoins(s, id, MarkDown, r, now);
      ModeJoins(MarkLinked(s, id, MarkDown, r, now), RebootTag, now);
    case Reboot =>
      MarkJoins(s, id, MarkDown, r, now);
      ModeJoins(MarkLinked(s, id, MarkDown, r, now), RebootReason(r), now);
    case _ =>
      assert s.reboots + multiset{} == s.reboots;
      assert MarkedBy(s.subs, s.entities[id].slot.desc.linked, None) == s.subs by {
        MarkNothing(s.subs, s.entities[id].slot.desc.linked);
      }
  }

  lemma MarkNothing(subs: seq<Subsystem>, linked: Byte)
    ensures MarkedBy(subs, linked, None) == subs
  {
  }

  lemma RestartJoins(s: State, id: Byte, reason: Reason, now: Millis)
    requires id < |s.entities|
    ensures
      var e := s.entities[id];
      var bumped := if e.slot.desc.restart.Some? then BumpRestart(e.slot, reason) else e.slot;
      var vitals := if RestartSucceeds(e.slot) then FreshVitals(None, now) else e.vitals;
      Silent(TryRestart(s, id, reason, now))
      == Silent(s).(entities := s.entities[id := Entity(bumped, vitals)])
  {
    hide BumpRestart;
  }

  lemma ActionJoins(s: State, id: Byte, action: Action, r: Report, now: Millis)
    requires id < |s.entities|
    ensures
      var eff := ActionEffect(s.entities[id], action, r, now);
      var subs := MarkedBy(s.subs, s.entities[id].slot.desc.linked, eff.mark);
      Silent(EvaluateDualPath(ApplyAction(s, id, action, r, now), now))
      == Silent(s.(entities := s.entities[id := eff.entity],
                   subs := subs, mode := Max(Max(s.mode, eff.floor), DualPathFloor(s.cfg, subs)),
                   reboots := s.reboots + eff.asks))
  {
    hide MarkedBy, EvaluateDualPath, DualPathFloor, ApplyTerminal, TryRestart, BumpRestart;
    var e := s.entities[id];
    BumpKeepsDesc(e.slot, r.reason);
    if action.Restart? {
      var s1 := TryRestart(s, id, r.reason, now);
      RestartJoins(s, id, r.reason, now);
      if RestartSucceeds(e.slot) {
        assert s.reboots + multiset{} == s.reboots;
        DualPathJoins(s1, now);
        MarkNothing(s.subs, e.slot.desc.linked);
      } else {
        TerminalJoins(s1, id, Fallback(e.slot), r, now);
        TerminalKeepsEntity(s1.entities[id], Fallback(e.slot), r);
      }
    } else {
      TerminalJoins(s, id, action, r, now);
    }
  }

  lemma BumpKeepsDesc(slot: Slot, reason: Reason)
    ensures BumpRestart(slot, reason).desc == slot.desc
  {
  }

  lemma TerminalKeepsEntity(e: Entity, action: Action, r: Report)
    ensures TerminalEffect(e, action, r).entity == e
  {
  }

  /** Handling a report is exactly the join of its effect. */
  lemma HandleJoins(s: State, r: Report, now: Millis)
    ensures Silent(Handle(s, r, now)) == Silent(Joined(s, r, now))
  {
    hide ApplyAction, MarkedBy, EvaluateDualPath, DualPathFloor, ActionEffect, Decide, EnterDegraded;
    if !IsLatched(s, r.entity, r.reason) {
      var s1 := Announce(s, r, now);
      if r.entity < |s.entities| {
        var slot := s.entities[r.entity].slot;
        var s2 := WithVitals(s1, r.entity, FailedVitals(s.entities[r.entity].vitals, r));
        var chosen := Decide(slot, r);
        var s3 := Resolve(s2, slot, chosen, r, now);
        ActionJoins(s3, r.entity, Resolved(s2.subs, slot, chosen, r), r, now);
      } else {
        ModeJoins(s1, RebootTag, now);
      }
    }
  }
}
