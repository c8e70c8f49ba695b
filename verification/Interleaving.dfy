/**
 * Threads interleaving at lock granularity. A thread inside an entry point that takes the lock more
 * than once is somewhere between two critical sections; a report it has dequeued is in its hand.
 */
module Interleaving {
  import opened Types
  import opened Model

  /** Where control goes after a report was handled. */
  datatype Next = Leave | BackToDrain | BackToScan(sampled: Millis, id: nat)

  /** Between which critical sections a thread stands. */
  datatype Pc =
    | Away
    | Ticking
    | Draining
    | Handling(r: Report, next: Next)
    | Admitted(r: Report, next: Next)
    | EnteringScan
    | Sampled(sampled: Millis)
    | Scanning(sampled: Millis, id: nat)
    | Submitting(r: Report)
    | Accepted(r: Report)

  function After(next: Next): Pc {
    match next
    case Leave => Away
    case BackToDrain => Draining
    case BackToScan(sampled, id) => Scanning(sampled, id)
  }

  /** The first overdue entity from `id` on, or the number of entities. */
  function NextOverdue(s: State, id: nat, sampled: Millis): (n: nat)
    ensures n < |s.entities| ==> id <= n && Overdue(s, n, sampled)
    decreases |s.entities| - id
  {
    if id >= |s.entities| then |s.entities|
    else if Overdue(s, id, sampled) then id
    else NextOverdue(s, id + 1, sampled)
  }

  /** The section a thread executes next, if it writes anything. */
  function NextSection(s: State, pc: Pc): Option<Section> {
    match pc
    case Draining => if s.queue == [] then None else Some(Dequeue)
    case Admitted(r, _) => Some(Process(r))
    case Scanning(sampled, id) =>
      var n := NextOverdue(s, id, sampled);
      if n < |s.entities| then Some(Notice(WatchdogReport(n, sampled))) else None
    case Accepted(r) => Some(Enqueue(r))
    case _ => None
  }

  function NextPc(s: State, pc: Pc, now: Millis): Pc {
    match pc
    case Away => Away
    case Ticking => if s.supervised then Draining else Away
    case Draining => if s.queue == [] then EnteringScan else Handling(s.queue[0], BackToDrain)
    case Handling(r, next) => if s.supervised then Admitted(r, next) else After(next)
    case Admitted(_, next) => After(next)
    case EnteringScan => Sampled(now)
    case Sampled(sampled) => if s.supervised then Scanning(sampled, 0) else Away
    case Scanning(sampled, id) =>
      var n := NextOverdue(s, id, sampled);
      if n < |s.entities| then Handling(WatchdogReport(n, sampled), BackToScan(sampled, n + 1)) else Away
    case Submitting(r) => if s.supervised then Accepted(r) else Away
    case Accepted(_) => Away
  }

  /** The shared state after the thread's next section. */
  function Advance(s: State, pc: Pc, now: Millis): State {
    match NextSection(s, pc)
    case None => s
    case Some(section) => Do(s, Step(section, now))
  }

  /** What a thread does between two holdings of the lock, in terms of the model's functions. */
  lemma AdvanceIs(s: State, pc: Pc, now: Millis)
    ensures pc.Draining? ==> Advance(s, pc, now) == Get(s)
    ensures pc.Admitted? ==> Advance(s, pc, now) == Handle(s, pc.r, now)
    ensures pc.Accepted? ==> Advance(s, pc, now) == Put(s, pc.r)
    ensures pc.Scanning? ==>
              var n := NextOverdue(s, pc.id, pc.sampled);
              Advance(s, pc, now)
              == if n < |s.entities| then s.(noticed := s.noticed + multiset{WatchdogReport(n, pc.sampled)}) else s
    ensures !pc.Draining? && !pc.Admitted? && !pc.Accepted? && !pc.Scanning? ==> Advance(s, pc, now) == s
  {
    hide Do, Handle, Put, Get, NextOverdue, Advance, NextSection;
    NextSectionIs(s, pc);
    AdvanceDoes(s, pc, now);
    NothingTaken(s);
    if NextSection(s, pc).Some? {
      SectionIs(s, NextSection(s, pc).value, now);
    }
  }

  lemma NextSectionIs(s: State, pc: Pc)
    ensures pc.Draining? ==> NextSection(s, pc) == if s.queue == [] then None else Some(Dequeue)
    ensures pc.Admitted? ==> NextSection(s, pc) == Some(Process(pc.r))
    ensures pc.Accepted? ==> NextSection(s, pc) == Some(Enqueue(pc.r))
    ensures pc.Scanning? ==>
              var n := NextOverdue(s, pc.id, pc.sampled);
              NextSection(s, pc) == if n < |s.entities| then Some(Notice(WatchdogReport(n, pc.sampled))) else None
    ensures !pc.Draining? && !pc.Admitted? && !pc.Accepted? && !pc.Scanning? ==> NextSection(s, pc) == None
  {
    hide NextOverdue;
  }

  lemma AdvanceDoes(s: State, pc: Pc, now: Millis)
    ensures
      var section := NextSection(s, pc);
      Advance(s, pc, now) == if section.Some? then Do(s, Step(section.value, now)) else s
  {
    hide Do, NextSection;
  }

  lemma SectionIs(s: State, section: Section, now: Millis)
    ensures section.Dequeue? ==> Do(s, Step(section, now)) == Get(s)
    ensures section.Process? ==> Do(s, Step(section, now)) == Handle(s, section.r, now)
    ensures section.Enqueue? ==> Do(s, Step(section, now)) == Put(s, section.r)
    ensures section.Notice? ==> Do(s, Step(section, now)) == s.(noticed := s.noticed + multiset{section.r})
  {
    hide Handle, Put, Get, RegisterEntity, RegisterSubsystem, ReportFault, Heartbeat, SetHealth, ResetHealth,
         MarkByHand, SetSupervision, GroundMode, Deescalate, EnterDegraded, EnterSafe, EvaluateDualPath, TryReboot;
  }

  lemma NothingTaken(s: State)
    ensures s.queue == [] ==> Get(s) == s
  {
  }

  datatype System = System(state: State, pcs: map<nat, Pc>)

  /** A thread moves on, enters an entry point of several sections, or calls one of a single section. */
  datatype Move =
    | Go(thread: nat, now: Millis)
    | Enter(thread: nat, pc: Pc)
    | Atomically(step: AtomicStep)

  predicate IsEntry(pc: Pc) {
    pc.Ticking? || pc.EnteringScan? || pc.Submitting? || (pc.Handling? && pc.next.Leave?)
  }

  predicate Enabled(sys: System, move: Move) {
    match move
    case Go(thread, _) => thread in sys.pcs
    case Enter(thread, pc) => IsEntry(pc) && (thread in sys.pcs ==> sys.pcs[thread].Away?)
    case Atomically(_) => true
  }

  function Moved(sys: System, move: Move): System
    requires Enabled(sys, move)
  {
    match move
    case Go(thread, now) =>
      var pc := sys.pcs[thread];
      System(Advance(sys.state, pc, now), sys.pcs[thread := NextPc(sys.state, pc, now)])
    case Enter(thread, pc) => sys.(pcs := sys.pcs[thread := pc])
    case Atomically(step) => sys.(state := Do(sys.state, step))
  }

  /** A history: consecutive systems, each following from the one before by an enabled move. */
  ghost predicate History(trace: seq<System>, moves: seq<Move>) {
    && |trace| == |moves| + 1
    && forall k | 0 <= k < |moves| :: Enabled(trace[k], moves[k]) && trace[k + 1] == Moved(trace[k], moves[k])
  }

  /** A history may go on where another one ends. */
  lemma HistoriesJoin(trace: seq<System>, moves: seq<Move>, later: seq<System>, more: seq<Move>)
    requires History(trace, moves) && History(later, more) && later[0] == trace[|moves|]
    ensures History(trace + later[1..], moves + more)
    ensures (trace + later[1..])[|moves| + |more|] == later[|more|]
  {
    hide Moved, Enabled;
    var all, both := trace + later[1..], moves + more;
    forall k | 0 <= k < |both| ensures Enabled(all[k], both[k]) && all[k + 1] == Moved(all[k], both[k]) {
      if k < |moves| {
        assert all[k] == trace[k] && all[k + 1] == trace[k + 1] && both[k] == moves[k];
      } else {
        var j := k - |moves|;
        assert all[k] == later[j] && all[k + 1] == later[j + 1] && both[k] == more[j];
      }
    }
  }

  // ---------------------------------------------------------------- histories are runs of sections

  /** The critical section a move performs, if it writes anything. */
  function SectionOf(sys: System, move: Move): Option<Step>
    requires Enabled(sys, move)
  {
    match move
    case Go(thread, now) =>
      (match NextSection(sys.state, sys.pcs[thread])
       case None => None
       case Some(section) => Some(Step(section, now)))
    case Enter(_, _) => None
    case Atomically(step) => Some(step)
  }

  /** The critical sections of a history, in the order in which the lock was taken. */
  ghost function Sections(trace: seq<System>, moves: seq<Move>): seq<Step>
    requires History(trace, moves)
  {
    if moves == [] then []
    else
      var m := |moves| - 1;
      var last := SectionOf(trace[m], moves[m]);
      Sections(trace[..m + 1], moves[..m]) + if last.Some? then [last.value] else []
  }

  lemma MoveIsSection(sys: System, move: Move)
    requires Enabled(sys, move)
    ensures
      var step := SectionOf(sys, move);
      Moved(sys, move).state == if step.Some? then Do(sys.state, step.value) else sys.state
  {
    hide Do, NextSection, NextPc;
  }

  lemma RunSnoc(s: State, steps: seq<Step>, step: Step)
    ensures Run(s, steps + [step]) == Do(Run(s, steps), step)
  {
    hide Do;
    assert (steps + [step])[..|steps|] == steps;
  }

  /** However threads interleave, the shared state goes through the run of the moves' critical sections. */
  lemma {:induction false} HistoryIsRun(trace: seq<System>, moves: seq<Move>)
    requires History(trace, moves)
    ensures Run(trace[0].state, Sections(trace, moves)) == trace[|moves|].state
    decreases |moves|
  {
    hide Do, Moved, Enabled, SectionOf;
    if moves != [] {
      var m := |moves| - 1;
      HistoryIsRun(trace[..m + 1], moves[..m]);
      MoveIsSection(trace[m], moves[m]);
      var last := SectionOf(trace[m], moves[m]);
      if last.Some? {
        RunSnoc(trace[0].state, Sections(trace[..m + 1], moves[..m]), last.value);
      } else {
        assert Sections(trace, moves) == Sections(trace[..m + 1], moves[..m]);
      }
    }
  }

  /** A history consists of threads' own sections and of its atomic calls, in their order. */
  lemma {:induction false} SectionsSatisfy(trace: seq<System>, moves: seq<Move>, p: Section -> bool)
    requires History(trace, moves)
    requires forall section | InThread(section) :: p(section)
    requires forall k | 0 <= k < |moves| && moves[k].Atomically? :: p(moves[k].step.section)
    ensures forall j | 0 <= j < |Sections(trace, moves)| :: p(Sections(trace, moves)[j].section)
    decreases |moves|
  {
    hide Moved, Enabled, NextOverdue;
    if moves != [] {
      var m := |moves| - 1;
      SectionsSatisfy(trace[..m + 1], moves[..m], p);
      assert moves[m].Go? && SectionOf(trace[m], moves[m]).Some? ==>
          InThread(SectionOf(trace[m], moves[m]).value.section);
    }
  }
}
