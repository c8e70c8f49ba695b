/** The platform port: event sink, reboot request and the optional, non-recursive lock. */
module Ports {
  import opened Types

  class Port {
    /** Whether the lock is held; it must not be taken twice. */
    ghost var held: bool
    var log: seq<Event>
    var reboots: multiset<Detail>

    constructor ()
      ensures !held && log == [] && reboots == multiset{}
    {
      held := false;
      log := [];
      reboots := multiset{};
    }

    method Enter()
      requires !held
      modifies this`held
      ensures held
    {
      held := true;
    }

    method Exit()
      requires held
      modifies this`held
      ensures !held
    {
      held := false;
    }

    method EmitEvent(e: Event)
      requires held
      modifies this`log
      ensures log == old(log) + [e]
    {
      log := log + [e];
    }

    method RequestReboot(why: Detail)
      requires held
      modifies this`reboots
      ensures reboots == old(reboots) + multiset{why}
    {
      reboots := reboots + multiset{why};
    }
  }
}
