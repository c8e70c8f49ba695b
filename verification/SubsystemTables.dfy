/** Availability and degradation of all subsystems. */
module SubsystemTables {
  import opened Types
  import opened Ports
  import opened Model

  class SubsystemTable {
    const port: Port
    const slots: array<Subsystem>
    var count: nat

    ghost predicate Valid()
      reads this, slots
    {
      count <= slots.Length <= 255
    }

    ghost function Contents(): (c: seq<Subsystem>)
      requires Valid()
      reads this, slots
      ensures |c| == count
    {
      slots[..count]
    }

    constructor (port: Port, cap: nat)
      requires cap <= 255
      ensures Valid() && fresh(slots) && this.port == port && slots.Length == cap && count == 0
    {
      this.port := port;
      slots := new Subsystem[cap](_ => Subsystem(SubsystemDesc("", false, None), false, false, 0));
      count := 0;
    }

    /** The counting loop finds the size of the set it stands for. */
    method CountCriticalDown() returns (n: nat)
      requires Valid()
      ensures n == |CriticalDown(Contents())| && n <= 255
    {
      n := 0;
      ghost var all := Contents();
      for i := 0 to count
        invariant n == |CriticalDown(all[..i])| && n <= i
      {
        ghost var before, after := CriticalDown(all[..i]), CriticalDown(all[..i + 1]);
        assert forall k: nat | k < i :: all[..i + 1][k] == all[..i][k];
        if slots[i].desc.critical && !slots[i].available {
          assert after == before + {i as nat};
          n := n + 1;
        } else {
          assert after == before;
        }
      }
      assert all[..count] == all;
    }

    /** The new subsystem's number, if there is room. */
    method Register(desc: SubsystemDesc, since: nat) returns (id: Option<Byte>)
      requires Valid() && port.held
      modifies this`count, slots
      ensures Valid()
      ensures id == if old(count) < slots.Length then Some(old(count) as Byte) else None
      ensures Contents() == if id.Some? then old(Contents()) + [Subsystem(desc, true, false, since)]
                            else old(Contents())
    {
      if count >= slots.Length {
        return None;
      }
      id := Some(count as Byte);
      slots[count] := Subsystem(desc, true, false, since);
      count := count + 1;
    }

    method MarkUnsafe(id: Byte, mark: Mark)
      requires Valid() && port.held
      modifies slots
      ensures Valid() && Contents() == Marked(old(Contents()), id, mark)
    {
      if id < count {
        match mark
        case MarkUp => slots[id] := slots[id].(available := true, degraded := false);
        case MarkDown => slots[id] := slots[id].(available := false, degraded := true);
        case MarkDegraded => slots[id] := slots[id].(degraded := true);
      }
      assert Contents() == Marked(old(Contents()), id, mark);
    }

    method OnEntityExhausted(sub: Byte, entity: Byte, r: Report) returns (answer: Action)
      requires Valid()
      ensures answer == ExhaustedAnswer(Contents(), sub, entity, r)
    {
      if sub >= count || slots[sub].desc.onExhausted.None? {
        return NoAction;
      }
      answer := slots[sub].desc.onExhausted.value(sub, entity, r);
    }
  }
}
