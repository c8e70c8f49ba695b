/** The bounded ring of failure reports, against a plain sequence. */
module FailureQueues {
  import opened Types
  import opened Ports

  /** The ring position `i` places after `head`. */
  function Wrapped(head: nat, i: nat, cap: nat): (k: nat)
    requires head < cap && i <= cap
    ensures k < cap
  {
    (head + i) % cap
  }

  /** Below two capacities, the remainder is one conditional subtraction. */
  lemma WrapOnce(x: nat, cap: nat)
    requires 0 < cap && x < 2 * cap
    ensures x % cap == if x < cap then x else x - cap
  {
    if x >= cap {
      var y := x - cap;
      assert x == cap * 1 + y;
      assert x / cap == 1;
    }
  }

  lemma WrapZero(head: nat, cap: nat)
    requires head < cap
    ensures Wrapped(head, 0, cap) == head
  {
    WrapOnce(head, cap);
  }

  /** Different places of the ring are different slots. */
  lemma WrapInjective(head: nat, i: nat, j: nat, cap: nat)
    requires head < cap && i < j < cap
    ensures Wrapped(head, i, cap) != Wrapped(head, j, cap)
  {
    WrapOnce(head + i, cap);
    WrapOnce(head + j, cap);
  }

  /** Stepping the head forward shifts every place by one. */
  lemma WrapShift(head: nat, i: nat, cap: nat)
    requires head < cap && i < cap
    ensures (head + 1) % cap < cap
    ensures Wrapped((head + 1) % cap, i, cap) == Wrapped(head, i + 1, cap)
    ensures (Wrapped(head, i, cap) + 1) % cap == Wrapped(head, i + 1, cap)
  {
    WrapOnce(head + 1, cap);
    WrapOnce(head + i, cap);
    WrapOnce(head + i + 1, cap);
    WrapOnce((head + 1) % cap + i, cap);
    WrapOnce((head + i) % cap + 1, cap);
  }

  class FailureQueue {
    const port: Port
    const cap: nat
    const slots: array<Report>
    var head: nat
    var tail: nat
    var count: nat
    var full: bool

    /** Reports offered, accepted and taken out since initialisation. */
    ghost var offered: seq<Report>
    ghost var accepted: seq<Report>
    ghost var taken: seq<Report>

    ghost predicate Shape()
      reads this, slots
    {
      && 1 <= cap <= 255 && slots.Length == cap
      && head < cap && tail < cap && count <= cap
      && tail == Wrapped(head, count, cap)
    }

    ghost function Contents(): (c: seq<Report>)
      requires Shape()
      reads this, slots
      ensures |c| == count
    {
      seq(count, i requires 0 <= i < count && Shape() reads this, slots => slots[Wrapped(head, i, cap)])
    }

    /** Taken out reports are a prefix of accepted ones; the latch records every refusal. */
    ghost predicate Valid()
      reads this, slots
    {
      && Shape()
      && accepted == taken + Contents()
      && |accepted| <= |offered|
      && (full <==> |accepted| < |offered|)
    }

    constructor (port: Port, cap: nat)
      requires 1 <= cap <= 255
      ensures Valid() && fresh(slots) && this.port == port && this.cap == cap
      ensures Contents() == [] && !full && offered == []
    {
      this.port := port;
      this.cap := cap;
      slots := new Report[cap];
      head, tail, count, full := 0, 0, 0, false;
      offered, accepted, taken := [], [], [];
    }

    method Init()
      requires Valid() && port.held
      modifies this, slots
      ensures Valid() && Contents() == [] && !full && offered == []
    {
      forall i | 0 <= i < slots.Length {
        slots[i] := Report(0, INIT_FAILED, 0, Text(""), 0, 0);
      }
      head, tail, count, full := 0, 0, 0, false;
      offered, accepted, taken := [], [], [];
    }

    /** A missing report is refused without setting the latch. */
    method PutUnsafe(report: Option<Report>) returns (ok: bool)
      requires Valid() && port.held
      modifies this, slots
      ensures Valid()
      ensures ok <==> report.Some? && old(count) < cap
      ensures Contents() == if ok then old(Contents()) + [report.value] else old(Contents())
      ensures full == (old(full) || (report.Some? && !ok))
      ensures offered == if report.Some? then old(offered) + [report.value] else old(offered)
      ensures accepted == if ok then old(accepted) + [report.value] else old(accepted)
      ensures taken == old(taken)
    {
      if report.None? {
        return false;
      }
      offered := offered + [report.value];
      if count >= cap {
        full := true;
        return false;
      }
      forall i | 0 <= i < count ensures Wrapped(head, i, cap) != tail {
        WrapInjective(head, i, count, cap);
      }
      WrapShift(head, count, cap);
      slots[tail] := report.value;
      tail := (tail + 1) % cap;
      count := count + 1;
      accepted := accepted + [report.value];
      assert Contents() == old(Contents()) + [report.value];
      return true;
    }

    method GetUnsafe() returns (report: Option<Report>)
      requires Valid() && port.held
      modifies this
      ensures Valid() && full == old(full) && offered == old(offered) && accepted == old(accepted)
      ensures report.None? <==> old(Contents()) == []
      ensures report.None? ==> Contents() == old(Contents()) && taken == old(taken)
      ensures report.Some? ==>
                && old(Contents()) == [report.value] + Contents()
                && taken == old(taken) + [report.value]
    {
      if count == 0 {
        return None;
      }
      hide Wrapped;
      report := Some(slots[head]);
      WrapShift(head, count - 1, cap);
      var next := (head + 1) % cap;
      assert old(Contents())[0] == slots[head] by { WrapZero(head, cap); }
      forall i | 0 <= i < count ensures Wrapped(next, i, cap) == Wrapped(head, i + 1, cap) {
        WrapShift(head, i, cap);
      }
      head := next;
      count := count - 1;
      taken := taken + [report.value];
      assert old(Contents()) == [report.value] + Contents();
    }
  }
}
