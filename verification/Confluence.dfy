/** The order in which a batch of reports is handled does not matter, the event log aside. */
module Confluence {
  import opened Types
  import opened Model
  import opened Effects
  import opened Frames

  predicate Apart(reports: seq<Report>) {
    forall i, j | 0 <= i < j < |reports| :: reports[i].entity != reports[j].entity
  }

  /** Handling never reads the event log. */
  lemma JoinedIgnoresLog(s: State, t: State, r: Report, now: Millis)
    requires Silent(s) == Silent(t)
    ensures Silent(Joined(s, r, now)) == Silent(Joined(t, r, now))
  {
    hide EffectOf, MarkedBy, DualPathFloor, ExhaustedAnswer, Max;
  }

  lemma HandleIgnoresLog(s: State, t: State, r: Report, now: Millis)
    requires Silent(s) == Silent(t)
    ensures Silent(Handle(s, r, now)) == Silent(Handle(t, r, now))
  {
    hide Handle, Joined;
    HandleJoins(s, r, now);
    HandleJoins(t, r, now);
    JoinedIgnoresLog(s, t, r, now);
  }

  // ---------------------------------------------------------------- two reports commute

  /** A recovery mark can only take subsystems away. */
  lemma MarksOnlyLower(subs: seq<Subsystem>, linked: Byte, mark: Option<Mark>)
    requires mark != Some(MarkUp)
    ensures CriticalDown(subs) <= CriticalDown(MarkedBy(subs, linked, mark))
  {
  }

  lemma FloorRises(cfg: Config, subs: seq<Subsystem>, linked: Byte, mark: Option<Mark>)
    requires mark != Some(MarkUp)
    ensures DualPathFloor(cfg, subs) <= DualPathFloor(cfg, MarkedBy(subs, linked, mark))
  {
    MarksOnlyLower(subs, linked, mark);
    SubsetIsSmaller(CriticalDown(subs), CriticalDown(MarkedBy(subs, linked, mark)));
  }

  lemma SubsetIsSmaller(a: set<nat>, b: set<nat>)
    requires a <= b
    ensures |a| <= |b|
  {
    assert b == a + (b - a);
  }

  lemma MarksCommute(subs: seq<Subsystem>, l1: Byte, m1: Option<Mark>, l2: Byte, m2: Option<Mark>)
    requires m1 != Some(MarkUp) && m2 != Some(MarkUp)
    ensures MarkedBy(MarkedBy(subs, l1, m1), l2, m2) == MarkedBy(MarkedBy(subs, l2, m2), l1, m1)
  {
  }

  /** Marks leave every hook in place. */
  lemma MarksKeepAnswers(subs: seq<Subsystem>, linked: Byte, mark: Option<Mark>, sub: Byte, r: Report)
    ensures ExhaustedAnswer(MarkedBy(subs, linked, mark), sub, r.entity, r) == ExhaustedAnswer(subs, sub, r.entity, r)
  {
  }

  /** Two effects on different entities join in either order. */
  lemma AbsorbsCommute(s: State, r1: Report, f1: Effect, r2: Report, f2: Effect)
    requires r1.entity < |s.entities| && r2.entity < |s.entities| && r1.entity != r2.entity
    requires f1.mark != Some(MarkUp) && f2.mark != Some(MarkUp)
    requires f1.entity.slot.desc == s.entities[r1.entity].slot.desc
    requires f2.entity.slot.desc == s.entities[r2.entity].slot.desc
    ensures Absorb(Absorb(s, r1.entity, f1, r1), r2.entity, f2, r2)
            == Absorb(Absorb(s, r2.entity, f2, r2), r1.entity, f1, r1)
  {
    hide MarkedBy, DualPathFloor;
    var l1, l2 := s.entities[r1.entity].slot.desc.linked, s.entities[r2.entity].slot.desc.linked;
    var a, b := Absorb(s, r1.entity, f1, r1), Absorb(s, r2.entity, f2, r2);
    var ab, ba := Absorb(a, r2.entity, f2, r2), Absorb(b, r1.entity, f1, r1);
    MarksCommute(s.subs, l1, f1.mark, l2, f2.mark);
    FloorRises(s.cfg, a.subs, l2, f2.mark);
    FloorRises(s.cfg, b.subs, l1, f1.mark);
    assert ab.entities == ba.entities;
    assert ab.reboots == ba.reboots;
    assert ab.handled == ba.handled;
    assert ab.mode == ba.mode;
  }

  /** The effect of a report is untouched by handling another entity's report first. */
  lemma EffectIsLocal(s: State, r1: Report, n1: Millis, r2: Report, n2: Millis)
    requires r1.entity != r2.entity
    ensures
      var t := Joined(s, r1, n1);
      && |t.entities| == |s.entities|
      && IsLatched(t, r2.entity, r2.reason) == IsLatched(s, r2.entity, r2.reason)
      && (r2.entity < |s.entities| ==>
            t.entities[r2.entity] == s.entities[r2.entity] && EffectIn(t, r2, n2) == EffectIn(s, r2, n2))
  {
    hide EffectOf, MarkedBy, DualPathFloor, ExhaustedAnswer, Max;
    if r1.entity < |s.entities| && !IsLatched(s, r1.entity, r1.reason) {
      var mark := EffectIn(s, r1, n1).mark;
      if r2.entity < |s.entities| {
        MarksKeepAnswers(s.subs, s.entities[r1.entity].slot.desc.linked, mark,
                         s.entities[r2.entity].slot.desc.linked, r2);
      }
    }
  }

  lemma JoinsCommute(s: State, r1: Report, n1: Millis, r2: Report, n2: Millis)
    requires r1.entity != r2.entity
    ensures Joined(Joined(s, r1, n1), r2, n2) == Joined(Joined(s, r2, n2), r1, n1)
  {
    hide EffectOf, MarkedBy, DualPathFloor, ExhaustedAnswer;
    EffectIsLocal(s, r1, n1, r2, n2);
    EffectIsLocal(s, r2, n2, r1, n1);
    if IsLatched(s, r1.entity, r1.reason) || IsLatched(s, r2.entity, r2.reason) {
    } else if r1.entity < |s.entities| && r2.entity < |s.entities| {
      var e1, e2 := s.entities[r1.entity], s.entities[r2.entity];
      EffectBounds(e1, ExhaustedAnswer(s.subs, e1.slot.desc.linked, r1.entity, r1), r1, n1);
      EffectBounds(e2, ExhaustedAnswer(s.subs, e2.slot.desc.linked, r2.entity, r2), r2, n2);
      AbsorbsCommute(s, r1, EffectIn(s, r1, n1), r2, EffectIn(s, r2, n2));
    } else {
      var h := s.handled;
      assert h + multiset{r1} + multiset{r2} == h + multiset{r2} + multiset{r1};
    }
  }

  lemma HandlesJoin(s: State, r1: Report, n1: Millis, r2: Report, n2: Millis)
    ensures Silent(Handle(Handle(s, r1, n1), r2, n2)) == Silent(Joined(Joined(s, r1, n1), r2, n2))
  {
    hide Handle, Joined;
    HandleJoins(s, r1, n1);
    HandleJoins(Handle(s, r1, n1), r2, n2);
    JoinedIgnoresLog(Handle(s, r1, n1), Joined(s, r1, n1), r2, n2);
  }

  /** Handling two reports of different entities commutes, each at its own clock reading. */
  lemma HandlesCommute(s: State, r1: Report, n1: Millis, r2: Report, n2: Millis)
    requires r1.entity != r2.entity
    ensures Silent(Handle(Handle(s, r1, n1), r2, n2)) == Silent(Handle(Handle(s, r2, n2), r1, n1))
  {
    hide Handle, Joined;
    HandlesJoin(s, r1, n1, r2, n2);
    HandlesJoin(s, r2, n2, r1, n1);
    JoinsCommute(s, r1, n1, r2, n2);
  }

  // ---------------------------------------------------------------- whole batches

  /** The fold in which a report's clock reading goes with its entity and not with its place. */
  function HandleEach(s: State, reports: seq<Report>, at: Readings): State {
    if reports == [] then s
    else
      var front, last := reports[..|reports| - 1], reports[|reports| - 1];
      Handle(HandleEach(s, front, at), last, at(last.entity))
  }

  /** The readings place by place when they go with the entities. */
  function Carried(reports: seq<Report>, at: Readings): Readings {
    (k: nat) => at(if k < |reports| then reports[k].entity else k)
  }

  /** Only the readings at the places of the batch matter. */
  lemma {:induction false} ReadingsThatMatter(s: State, reports: seq<Report>, at: Readings, bt: Readings)
    requires forall k: nat | k < |reports| :: at(k) == bt(k)
    ensures HandleAll(s, reports, at) == HandleAll(s, reports, bt)
  {
    hide Handle;
    if reports != [] {
      ReadingsThatMatter(s, reports[..|reports| - 1], at, bt);
    }
  }

  lemma {:induction false} EachIsAll(s: State, reports: seq<Report>, at: Readings)
    ensures HandleEach(s, reports, at) == HandleAll(s, reports, Carried(reports, at))
  {
    hide Handle;
    if reports != [] {
      var front := reports[..|reports| - 1];
      EachIsAll(s, front, at);
      ReadingsThatMatter(s, front, Carried(front, at), Carried(reports, at));
    }
  }

  lemma {:induction false} BatchIgnoresLog(s: State, t: State, reports: seq<Report>, at: Readings)
    requires Silent(s) == Silent(t)
    ensures Silent(HandleEach(s, reports, at)) == Silent(HandleEach(t, reports, at))
  {
    hide Handle;
    if reports != [] {
      var front, last := reports[..|reports| - 1], reports[|reports| - 1];
      BatchIgnoresLog(s, t, front, at);
      HandleIgnoresLog(HandleEach(s, front, at), HandleEach(t, front, at), last, at(last.entity));
    }
  }

  /** Handling the first report first: the fold taken from the other end. */
  lemma {:induction false} BatchFromFront(s: State, r: Report, rest: seq<Report>, at: Readings)
    ensures HandleEach(s, [r] + rest, at) == HandleEach(Handle(s, r, at(r.entity)), rest, at)
  {
    hide Handle;
    var all := [r] + rest;
    if rest == [] {
      assert all[..|all| - 1] == [];
      assert HandleEach(s, [], at) == s;
    } else {
      assert all[..|all| - 1] == [r] + rest[..|rest| - 1];
      BatchFromFront(s, r, rest[..|rest| - 1], at);
    }
  }

  /** Any report of the batch may be handled first. */
  lemma {:induction false} BubbleToFront(s: State, reports: seq<Report>, k: nat, at: Readings)
    requires k < |reports| && Apart(reports)
    ensures
      var r := reports[k];
      Silent(HandleEach(s, reports, at))
      == Silent(HandleEach(Handle(s, r, at(r.entity)), reports[..k] + reports[k + 1..], at))
    decreases k
  {
    hide Handle, HandleEach, Silent;
    var r, first, rest := reports[k], reports[0], reports[1..];
    assert reports == [first] + rest;
    BatchFromFront(s, first, rest, at);
    if k == 0 {
      assert reports[..k] + reports[k + 1..] == rest;
    } else {
      var others := rest[..k - 1] + rest[k..];
      var n1, n2 := at(first.entity), at(r.entity);
      BubbleToFront(Handle(s, first, n1), rest, k - 1, at);
      HandlesCommute(s, first, n1, r, n2);
      BatchIgnoresLog(Handle(Handle(s, first, n1), r, n2), Handle(Handle(s, r, n2), first, n1), others, at);
      BatchFromFront(Handle(s, r, n2), first, others, at);
      assert reports[..k] + reports[k + 1..] == [first] + others;
    }
  }

  /** Main result: every order of a batch of distinct entities ends in the same state. */
  lemma {:induction false} OrderIsIrrelevant(s: State, batch: seq<Report>, other: seq<Report>, at: Readings)
    requires Apart(batch) && multiset(batch) == multiset(other)
    ensures Silent(HandleEach(s, batch, at)) == Silent(HandleEach(s, other, at))
    decreases |batch|
  {
    hide Handle, HandleEach, Silent;
    if batch == [] {
      assert |multiset(other)| == |other| == 0;
    } else {
      ApartIsInvariant(batch, other);
      var r, rest := batch[0], batch[1..];
      assert batch == [r] + rest;
      var k := Locate(batch, other);
      BubbleToFront(s, other, k, at);
      BatchFromFront(s, r, rest, at);
      OrderIsIrrelevant(Handle(s, r, at(r.entity)), rest, other[..k] + other[k + 1..], at);
    }
  }

  /** Finds the first report of one arrangement in another. */
  lemma Locate(batch: seq<Report>, other: seq<Report>) returns (k: nat)
    requires batch != [] && multiset(batch) == multiset(other)
    ensures k < |other| && other[k] == batch[0]
    ensures multiset(batch[1..]) == multiset(other[..k] + other[k + 1..])
  {
    var r := batch[0];
    assert batch == [r] + batch[1..];
    assert r in multiset(other);
    k :| k < |other| && other[k] == r;
    assert other == other[..k] + [r] + other[k + 1..];
    assert multiset(other) == multiset(other[..k] + other[k + 1..]) + multiset{r};
    assert multiset(batch) == multiset(batch[1..]) + multiset{r};
    var a, b := multiset(batch[1..]), multiset(other[..k] + other[k + 1..]);
    assert a == a + multiset{r} - multiset{r} == b + multiset{r} - multiset{r} == b;
  }

  /** Distinctness is a property of the multiset of reports. */
  lemma ApartIsInvariant(batch: seq<Report>, other: seq<Report>)
    requires Apart(batch) && multiset(batch) == multiset(other)
    ensures Apart(other)
  {
    forall i, j | 0 <= i < j < |other|
      ensures other[i].entity != other[j].entity
    {
      var a, b := other[i], other[j];
      assert a in multiset(other) && b in multiset(other);
      assert a in batch && b in batch;
      if a == b {
        assert other == other[..i] + [a] + other[i + 1..j] + [a] + other[j + 1..];
        assert multiset(other)[a] >= 2;
        UniqueOccurrence(batch, a);
        assert false;
      }
    }
  }

  lemma {:induction false} UniqueOccurrence(batch: seq<Report>, r: Report)
    requires Apart(batch)
    ensures multiset(batch)[r] <= 1
  {
    if batch != [] {
      var rest := batch[1..];
      assert batch == [batch[0]] + rest;
      UniqueOccurrence(rest, r);
      if r == batch[0] {
        assert r !in rest;
      }
    }
  }
}
