/** Health records and fault latches of all entities. */
module HealthTables {
  import opened Types
  import opened Ports
  import opened Model

  datatype Record = Record(health: Health, lastBeat: Millis, errorCode: Word, detail: Detail)

  class HealthTable {
    const port: Port
    const records: array<Record>
    const reasons: array<Reason>
    const latched: array<bool>
    var limit: nat

    /** Entries beyond the limit are as initialisation left them: not latched. */
    ghost predicate Valid()
      reads this, records, reasons, latched
    {
      && records.Length == reasons.Length == latched.Length
      && limit <= records.Length
      && forall i | limit <= i < latched.Length :: !latched[i]
    }

    ghost function VitalsAt(i: nat): Vitals
      requires Valid() && i < limit
      reads this, records, reasons, latched
    {
      var r := records[i];
      Vitals(r.health, r.lastBeat, r.errorCode, r.detail, if latched[i] then Some(reasons[i]) else None)
    }

    ghost function Contents(): (c: seq<Vitals>)
      requires Valid()
      reads this, records, reasons, latched
      ensures |c| == limit
    {
      seq(limit, i requires 0 <= i < limit && Valid() reads this, records, reasons, latched => VitalsAt(i))
    }

    constructor (port: Port, cap: nat)
      ensures Valid() && fresh(records) && fresh(reasons) && fresh(latched)
      ensures this.port == port && records.Length == cap && limit == 0
    {
      this.port := port;
      records := new Record[cap](_ => Record(HealthOk, 0, 0, Text("")));
      reasons := new Reason[cap](_ => INIT_FAILED);
      latched := new bool[cap](_ => false);
      limit := 0;
    }

    method IsLatched(id: Byte, reason: Reason) returns (yes: bool)
      requires Valid()
      ensures yes == (id < limit && Contents()[id].latch == Some(reason))
    {
      if id >= limit {
        return false;
      }
      return latched[id] && reasons[id] == reason;
    }

    /** Answers whether the very fault was latched already; any other fault is overwritten. */
    method Latch(id: Byte, reason: Reason) returns (already: bool)
      requires Valid() && port.held
      modifies reasons, latched
      ensures Valid()
      ensures already == (id < limit && old(Contents())[id].latch == Some(reason))
      ensures Contents() == if id < limit then old(Contents())[id := old(Contents())[id].(latch := Some(reason))]
                            else old(Contents())
    {
      if id >= limit {
        return false;
      }
      if latched[id] && reasons[id] == reason {
        assert Contents() == Contents()[id := Contents()[id].(latch := Some(reason))];
        return true;
      }
      latched[id] := true;
      reasons[id] := reason;
      assert Contents() == old(Contents())[id := old(Contents())[id].(latch := Some(reason))];
      return false;
    }

    /** Answers the reason that was latched, if any. */
    method ClearLatch(id: Byte) returns (prev: Option<Reason>)
      requires Valid() && port.held
      modifies reasons, latched
      ensures Valid()
      ensures prev == if id < limit then old(Contents())[id].latch else None
      ensures Contents() == if id < limit then old(Contents())[id := old(Contents())[id].(latch := None)]
                            else old(Contents())
    {
      prev := None;
      if id >= limit {
        return;
      }
      if latched[id] {
        prev := Some(reasons[id]);
      }
      latched[id] := false;
      reasons[id] := INIT_FAILED;
      assert Contents() == old(Contents())[id := old(Contents())[id].(latch := None)];
    }

    method SetUnsafe(id: Byte, health: Health, errorCode: Word, detail: Detail)
      requires Valid() && port.held
      modifies records
      ensures Valid()
      ensures Contents()
              == if id < limit
                 then old(Contents())[id := old(Contents())[id].(
                        health := health, errorCode := errorCode, detail := detail)]
                 else old(Contents())
    {
      if id >= limit {
        return;
      }
      records[id] := records[id].(health := health, errorCode := errorCode, detail := detail);
      assert Contents() == old(Contents())[id := old(Contents())[id].(
                             health := health, errorCode := errorCode, detail := detail)];
    }

    method ResetUnsafe(id: Byte, now: Millis)
      requires Valid() && port.held
      modifies records
      ensures Valid()
      ensures Contents()
              == if id < limit then old(Contents())[id := FreshVitals(old(Contents())[id].latch, now)]
                 else old(Contents())
    {
      if id >= limit {
        return;
      }
      records[id] := Record(HealthOk, now, 0, Text(""));
      assert Contents() == old(Contents())[id := FreshVitals(old(Contents())[id].latch, now)];
    }

    method BeatUnsafe(id: Byte, now: Millis)
      requires Valid() && port.held
      modifies records
      ensures Valid()
      ensures
        var v := old(Contents());
        Contents() == if id < limit
                      then v[id := v[id].(lastBeat := now,
                                          health := if v[id].health.HealthFailed? then HealthFailed else HealthOk)]
                      else v
    {
      if id >= limit {
        return;
      }
      records[id] := records[id].(lastBeat := now);
      if !records[id].health.HealthFailed? {
        records[id] := records[id].(health := HealthOk);
      }
      ghost var v := old(Contents());
      assert Contents() == v[id := v[id].(lastBeat := now,
                               health := if v[id].health.HealthFailed? then HealthFailed else HealthOk)];
    }

    /** Brings one more entity under supervision; its latch is clear. */
    method RaiseLimit(now: Millis)
      requires Valid() && port.held && limit < records.Length && limit < 255
      modifies this`limit, records
      ensures Valid() && Contents() == old(Contents()) + [FreshVitals(None, now)]
    {
      limit := limit + 1;
      ResetUnsafe(limit - 1, now);
      assert Contents() == old(Contents()) + [FreshVitals(None, now)];
    }

    method IsStale(id: Byte, now: Millis, maxAge: Millis) returns (yes: bool)
      requires Valid()
      ensures yes == (id < limit && !Contents()[id].health.HealthFailed?
                      && Elapsed(now, Contents()[id].lastBeat) > maxAge)
    {
      if id >= limit || records[id].health.HealthFailed? {
        return false;
      }
      return Elapsed(now, records[id].lastBeat) > maxAge;
    }

    /** Whether the entity is known and not failed. */
    method IsRunnable(id: Byte) returns (yes: bool)
      requires Valid()
      ensures yes == (id < limit && !Contents()[id].health.HealthFailed?)
    {
      return id < limit && !records[id].health.HealthFailed?;
    }
  }
}
