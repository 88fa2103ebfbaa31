/** The rotation client of src/remoteinput/target.py. Each method carries out one action of RotationSystem: its
    ghost parameter is any system this client is part of, and the client then shows the system after the action. */
module TargetClient {
  import opened Sequences
  import opened Rotation
  import opened RotationSystem

  class Target {
    const vault: Vault
    var identity: Identity
    var rotating: bool
    var linked: bool
    var running: bool
    var outbox: seq<Pending>

    ghost predicate Shows(y: System)
      reads this, vault
    {
      && y.saved == vault.saved
      && y.process == if running then Some(Process(identity, rotating, linked)) else None
    }

    constructor (vault: Vault, identity: Identity)
      ensures this.vault == vault && this.identity == identity && rotating == identity.pending.Some?
      ensures running && !linked && outbox == []
    {
      this.vault, this.identity, rotating := vault, identity, identity.pending.Some?;
      linked, running, outbox := false, true, [];
    }

    static method Start(vault: Vault, owner: nat, password: nat, works: bool, ghost y: System)
      returns (t: Result<Target>)
      requires y.saved == vault.saved && y.process == None
      modifies vault
      ensures t.Ok? ==> fresh(t.value) && t.value.vault == vault
      ensures t.Ok? ==> t.value.Shows(Step(y, Launch(owner, password, works)))
      ensures t.Err? ==> vault.saved == Step(y, Launch(owner, password, works)).saved == y.saved
    {
      var identity := vault.TargetIdentity(owner, password, works);
      if identity.Err? {
        return Err;
      }
      var target := new Target(vault, identity.value);
      t := Ok(target);
    }

    method Disconnect(ghost y: System)
      requires Shows(y)
      modifies this
      ensures Shows(Step(y, Drop)) && outbox == []
    {
      linked, outbox := false, [];
    }

    /** What the outbox gained is what the relay will receive. */
    method Rotate(drawn: Pending, works: bool, ghost y: System)
      requires Shows(y) && running && linked
      modifies this, vault
      ensures Shows(Step(y, Command(drawn, works)))
      ensures linked ==> old(outbox) <= outbox
      ensures linked && y.attached ==>
                Changes(Step(y, Command(drawn, works)).requests) == Changes(y.requests) + outbox[|old(outbox)|..]
    {
      rotating := true;
      var begun := vault.BeginRotation(identity, drawn, works);
      if begun.Err? {
        linked, outbox := false, [];
        return;
      }
      identity := begun.value;
      outbox := outbox + [identity.pending.value];
    }

    method Registered(id: nat, drawn: Pending, works: bool, again: bool, ghost y: System)
      requires Shows(y) && running && !linked && y.row.Some? && y.requests == []
      modifies this, vault
      ensures Shows(Step(y, Welcome(id, drawn, works, again)))
      ensures linked && y.attached ==> outbox == Changes(Step(y, Welcome(id, drawn, works, again)).requests)
    {
      identity := identity.(id := Some(id));
      var raised := vault.Save(identity, works);
      if raised {
        return;
      }
      linked, outbox := true, [];
      if rotating {
        ghost var p := Process(identity, true, true);
        Rotate(drawn, again, y.(process := Some(p), saved := Some(identity)));
      }
    }

    /** A `rotated` message; outside a change, or when the change cannot be saved, it ends the connection. */
    method Confirmed(works: bool, ghost y: System)
      requires Shows(y) && running && linked && y.replies > 0
      modifies this, vault
      ensures Shows(Step(y, Confirm(works)))
    {
      if !rotating {
        linked, outbox := false, [];
        return;
      }
      var finished := vault.FinishRotation(identity, works);
      if finished.Err? {
        linked, outbox := false, [];
        return;
      }
      identity, rotating := finished.value, false;
    }

    /** The command between connections; a save that raises here ends the program. */
    method RotateOffline(drawn: Pending, works: bool, ghost y: System)
      requires Shows(y) && running && !linked
      modifies this, vault
      ensures Shows(Step(y, Offline(drawn, works)))
    {
      var begun := vault.BeginRotation(identity, drawn, works);
      if begun.Err? {
        running := false;
        return;
      }
      identity, rotating := begun.value, true;
    }
  }
}
