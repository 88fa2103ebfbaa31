/** Journaled password rotation: src/remoteinput/vault.py and the rotation client of target.py. */
module Rotation {
  import opened Sequences

  /** A password change that has been saved but not confirmed. */
  datatype Pending = Pending(password: nat, rotation: nat)

  /** The saved credentials; `id` is the target's name once registered. */
  datatype Identity = Identity(owner: nat, password: nat, id: Option<nat>, pending: Option<Pending>)

  /** begin_rotation: an unfinished change is kept, not replaced. */
  function Begun(i: Identity, drawn: Pending): Identity {
    if i.pending.Some? then i else i.(pending := Some(drawn))
  }

  /** finish_rotation: the pending password becomes the password. */
  function Finished(i: Identity): Identity
    requires i.pending.Some?
  {
    i.(password := i.pending.value.password, pending := None)
  }

  /** The user's credential store; a save either replaces the record whole or raises and changes nothing. */
  class Vault {
    var saved: Option<Identity>

    constructor ()
      ensures saved == None
    {
      saved := None;
    }

    method Save(i: Identity, works: bool) returns (raised: bool)
      modifies this
      ensures raised == !works
      ensures saved == if works then Some(i) else old(saved)
    {
      raised := !works;
      if works {
        saved := Some(i);
      }
    }

    method TargetIdentity(owner: nat, password: nat, works: bool) returns (r: Result<Identity>)
      modifies this
      ensures old(saved).Some? ==> r == Ok(old(saved).value) && saved == old(saved)
      ensures old(saved).None? && works ==> r == Ok(Identity(owner, password, None, None)) && saved == Some(r.value)
      ensures old(saved).None? && !works ==> r == Err && saved == None
    {
      if saved.Some? {
        return Ok(saved.value);
      }
      var i := Identity(owner, password, None, None);
      var raised := Save(i, works);
      r := if raised then Err else Ok(i);
    }

    method BeginRotation(i: Identity, drawn: Pending, works: bool) returns (r: Result<Identity>)
      modifies this
      ensures r.Ok? <==> works || i.pending.Some?
      ensures r.Ok? ==> r.value == Begun(i, drawn)
      ensures saved == if i.pending.None? && works then Some(Begun(i, drawn)) else old(saved)
    {
      r := Ok(i);
      if i.pending.None? {
        var next := i.(pending := Some(drawn));
        var raised := Save(next, works);
        r := if raised then Err else Ok(next);
      }
    }

    /** Without a pending change the source raises KeyError before it saves. */
    method FinishRotation(i: Identity, works: bool) returns (r: Result<Identity>)
      modifies this
      ensures r.Ok? <==> i.pending.Some? && works
      ensures r.Ok? ==> r.value == Finished(i) && saved == Some(r.value)
      ensures r.Err? ==> saved == old(saved)
    {
      if i.pending.None? {
        return Err;
      }
      var next := i.(password := i.pending.value.password, pending := None);
      var raised := Save(next, works);
      r := if raised then Err else Ok(next);
    }
  }
}
