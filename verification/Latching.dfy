/**
 * Which reports the fault latch suppresses. There is one latch per entity: it holds the reason of the
 * last report handled, unless that handling restarted the entity.
 */
module Latching {
  import opened Types
  import opened Model
  import opened Effects
  import opened Frames
  import opened Budget
  import opened Replay
  import opened Isolation

  /** Handling the report, if it is not suppressed, restarts its entity. */
  predicate Revives(s: State, r: Report)
    requires r.entity < |s.entities|
  {
    AsksRestart(s, r) && RestartSucceeds(s.entities[r.entity].slot)
  }

  lemma EffectLatch(e: Entity, answer: Action, r: Report, now: Millis)
    ensures
      var chosen := Decide(e.slot, r);
      EffectOf(e, answer, r, now).entity.vitals.latch
      == if (chosen == Restart || (Escalates(e.slot, chosen) && answer == Restart)) && RestartSucceeds(e.slot)
         then None else Some(r.reason)
  {
    hide Decide, BumpRestart, RestartSucceeds;
  }

  /** The latch after handling: the report's reason, unless the entity was restarted. */
  lemma LatchIsExact(s: State, r: Report, now: Millis)
    requires r.entity < |s.entities|
    ensures |Handle(s, r, now).entities| == |s.entities|
    ensures Handle(s, r, now).entities[r.entity].vitals.latch
            == if !IsLatched(s, r.entity, r.reason) && Revives(s, r) then None else Some(r.reason)
  {
    hide Handle, EffectOf, DualPathFloor, MarkedBy, ExhaustedAnswer, Decide, RestartSucceeds;
    var e := s.entities[r.entity];
    HandleIsBounded(s, r, now);
    HandleJoins(s, r, now);
    EffectLatch(e, ExhaustedAnswer(s.subs, e.slot.desc.linked, r.entity, r), r, now);
  }

  /** Suppressed means the state does not change at all, and then the reason is the latched one. */
  lemma StutterMeansLatched(s: State, r: Report, now: Millis)
    ensures Handle(s, r, now) == s <==> IsLatched(s, r.entity, r.reason)
  {
    hide Handle;
    LatchedIsSuppressed(s, r, now);
    HandleGrowsLog(s, r, now);
  }

  /**
   * Main result: after any run, a report is suppressed if and only if its entity is registered and the
   * events since then say that the last fault raised on it, and not cleared, has the same reason.
   */
  lemma SuppressedExactly(cfg: Config, steps: seq<Step>, r: Report, now: Millis)
    ensures
      var s := Run(Initial(cfg), steps);
      Handle(s, r, now) == s
      <==> r.entity < |s.entities|
           && ReplayedLatch(s.log, s.entities[r.entity].slot.since, r.entity) == Some(r.reason)
  {
    hide Handle, Run, ReplayedLatch;
    var s := Run(Initial(cfg), steps);
    LogDeterminesState(cfg, steps);
    StutterMeansLatched(s, r, now);
    if r.entity < |s.entities| {
      assert LatchKnown(s, r.entity);
    }
  }

  // ---------------------------------------------------------------- a latch per entity and reason

  /** The reasons one event leaves open for the entity, if each reason had a latch of its own. */
  function OpenAfter(open: set<Reason>, e: Event, id: nat): set<Reason> {
    if e.level != EntityLevel || e.entity != id || e.kind == RestartEvent then open
    else if e.phase.Raised? then open + {e.reason}
    else {}
  }

  /** The reasons raised on the entity from position `from` on, and not cleared since by a restart. */
  function OpenReasons(log: seq<Event>, from: nat, id: nat): set<Reason> {
    if |log| <= from then {}
    else OpenAfter(OpenReasons(log[..|log| - 1], from, id), log[|log| - 1], id)
  }

  lemma {:induction false} LatchIsOpen(log: seq<Event>, from: nat, id: nat)
    ensures ReplayedLatch(log, from, id).None? <==> OpenReasons(log, from, id) == {}
    ensures ReplayedLatch(log, from, id).Some? ==>
              ReplayedLatch(log, from, id).value in OpenReasons(log, from, id)
  {
    if |log| > from {
      LatchIsOpen(log[..|log| - 1], from, id);
    }
  }

  /**
   * Main result: the single latch suppresses what a latch per entity and reason would suppress if and
   * only if no two different reasons have been raised on the entity since its last restart.
   */
  lemma DeduplicatesByReasonExactly(cfg: Config, steps: seq<Step>, id: Byte, now: Millis)
    requires id < |Run(Initial(cfg), steps).entities|
    ensures
      var s := Run(Initial(cfg), steps);
      var open := OpenReasons(s.log, s.entities[id].slot.since, id);
      (forall r: Report | r.entity == id :: Handle(s, r, now) == s <==> r.reason in open)
      <==> (forall p, q | p in open && q in open :: p == q)
  {
    hide Handle, Run, ReplayedLatch, OpenReasons;
    var s := Run(Initial(cfg), steps);
    var since := s.entities[id].slot.since;
    var open, latch := OpenReasons(s.log, since, id), ReplayedLatch(s.log, since, id);
    LatchIsOpen(s.log, since, id);
    forall r: Report | r.entity == id ensures Handle(s, r, now) == s <==> latch == Some(r.reason) {
      SuppressedExactly(cfg, steps, r, now);
    }
    if forall r: Report | r.entity == id :: Handle(s, r, now) == s <==> r.reason in open {
      forall p | p in open ensures latch == Some(p) {
        var r := Report(id, p, 0, Text(""), 0, 0);
        assert Handle(s, r, now) == s;
      }
    }
  }

  /** A latched fault stays latched exactly until another reason of the same entity is handled. */
  lemma LatchSurvives(s: State, id: Byte, reason: Reason, b: Report, now: Millis)
    requires IsLatched(s, id, reason)
    ensures IsLatched(Handle(s, b, now), id, reason) <==> !(b.entity == id && b.reason != reason)
  {
    hide Handle, Revives;
    HandleIsBounded(s, b, now);
    if b.entity == id {
      LatchIsExact(s, b, now);
    }
  }

  /** A fault repeated after another reason of its entity is not deduplicated: A, B, A is handled thrice. */
  lemma RepeatIsHandledAgain(s: State, a: Report, b: Report, na: Millis, nb: Millis, nc: Millis)
    requires a.entity == b.entity < |s.entities| && a.reason != b.reason
    ensures
      var t := Handle(Handle(s, a, na), b, nb);
      var u := Handle(t, a, nc);
      && !IsLatched(t, a.entity, a.reason)
      && u != t && t.log < u.log && u.handled == t.handled + multiset{a}
  {
    hide Handle, Revives;
    var s1 := Handle(s, a, na);
    var t := Handle(s1, b, nb);
    LatchIsExact(s, a, na);
    LatchIsExact(s1, b, nb);
    HandleIsBounded(t, a, nc);
    HandleGrowsLog(t, a, nc);
    StutterMeansLatched(t, a, nc);
  }

  /**
   * Order matters between faults of one entity: each order leaves the later reason latched unless that
   * handling restarts the entity, and the two orders agree on the latch only if both do.
   */
  lemma LastFaultOfAnEntityWins(s: State, r1: Report, n1: Millis, r2: Report, n2: Millis)
    requires r1.entity == r2.entity < |s.entities| && r1.reason != r2.reason
    ensures
      var id, a, b := r1.entity, Handle(s, r1, n1), Handle(s, r2, n2);
      var ab, ba := Handle(a, r2, n2), Handle(b, r1, n1);
      && |a.entities| == |b.entities| == |ab.entities| == |ba.entities| == |s.entities|
      && ab.entities[id].vitals.latch == (if Revives(a, r2) then None else Some(r2.reason))
      && ba.entities[id].vitals.latch == (if Revives(b, r1) then None else Some(r1.reason))
      && (ab.entities[id].vitals.latch == ba.entities[id].vitals.latch <==> Revives(a, r2) && Revives(b, r1))
      && (!Revives(a, r2) || !Revives(b, r1) ==> Silent(ab) != Silent(ba))
  {
    hide Handle, Revives;
    LatchIsExact(s, r1, n1);
    LatchIsExact(s, r2, n2);
    LatchIsExact(Handle(s, r1, n1), r2, n2);
    LatchIsExact(Handle(s, r2, n2), r1, n1);
  }
}
