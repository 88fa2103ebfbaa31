/** The relay's sessions, src/remoteinput/relay.py: what each uninterrupted piece of a handler does to the
    connected targets, the admitted controllers and the targets' outgoing queues. */
module Relay {
  import opened Sequences

  /** A connection, and with it the Peer object made for it. */
  type Id = nat

  /** A target's name, as the connection spelled it. */
  datatype TargetName = TargetName(text: string)

  /** Messages put into a target's queue. The connection ids are annotations; the wire carries none. */
  datatype Message =
    | Joined(controller: Id)
    | Gone(controller: Id)
    | Rotated(revoked: Option<Id>)
    | Frame(controller: Id, raw: seq<int>)

  /** Everything ever put, and how much of it the writer has taken out. */
  datatype Mailbox = Mailbox(log: seq<Message>, taken: nat)

  datatype Desk = Desk(targets: map<TargetName, Id>, controllers: map<TargetName, Id>, boxes: map<Id, Mailbox>)

  const CAPACITY: int := 256
  const NOBODY: Desk := Desk(map[], map[], map[])
  const NEW_BOX: Mailbox := Mailbox([], 0)

  function Box(d: Desk, t: Id): Mailbox { if t in d.boxes then d.boxes[t] else NEW_BOX }

  /** put_nowait refuses a message when 256 are waiting. */
  predicate Full(d: Desk, t: Id) { |Box(d, t).log| - Box(d, t).taken >= CAPACITY }

  function Put(d: Desk, t: Id, m: Message): (r: Desk)
    ensures r.targets == d.targets && r.controllers == d.controllers
  {
    if Full(d, t) then d
    else d.(boxes := d.boxes[t := Box(d, t).(log := Box(d, t).log + [m])])
  }

  function Install(d: Desk, name: TargetName, t: Id): Desk {
    if name in d.targets then d else d.(targets := d.targets[name := t], boxes := d.boxes[t := NEW_BOX])
  }

  /** Admission after the password check, with the generation read again under the lock. */
  predicate Admissible(d: Desk, name: TargetName, generation: nat, current: Option<nat>) {
    current == Some(generation) && name in d.targets && name !in d.controllers
  }

  /** The controller is recorded before its target is told; telling it fails when the queue is full. */
  function Admit(d: Desk, name: TargetName, c: Id): Desk
    requires name in d.targets
  {
    Put(d.(controllers := d.controllers[name := c]), d.targets[name], Joined(c))
  }

  predicate SessionLive(d: Desk, name: TargetName, c: Id) {
    name in d.targets && name in d.controllers && d.controllers[name] == c
  }

  function Forward(d: Desk, name: TargetName, c: Id, raw: seq<int>): Desk {
    if SessionLive(d, name, c) then Put(d, d.targets[name], Frame(c, raw)) else d
  }

  predicate Forwarded(d: Desk, name: TargetName, c: Id) {
    SessionLive(d, name, c) && !Full(d, d.targets[name])
  }

  /** After a rotation: admission of the controller is revoked and the target told. */
  function Revoke(d: Desk, name: TargetName, t: Id): Desk {
    var c := if name in d.controllers then Some(d.controllers[name]) else None;
    Put(d.(controllers := d.controllers - {name}), t, Rotated(c))
  }

  function DetachTarget(d: Desk, name: TargetName, t: Id): Desk {
    if name in d.targets && d.targets[name] == t then
      d.(targets := d.targets - {name}, controllers := d.controllers - {name})
    else d
  }

  function DetachController(d: Desk, name: TargetName, c: Id): Desk {
    if name in d.controllers && d.controllers[name] == c then
      var d1 := d.(controllers := d.controllers - {name});
      if name in d.targets then Put(d1, d.targets[name], Gone(c)) else d1
    else d
  }

  function Drain(d: Desk, t: Id): Desk {
    if Box(d, t).taken < |Box(d, t).log| then
      d.(boxes := d.boxes[t := Box(d, t).(taken := Box(d, t).taken + 1)])
    else d
  }

  /** The relay object; each method is one piece that runs without an await. */
  class RelayServer {
    var targets: map<TargetName, Id>
    var controllers: map<TargetName, Id>
    var boxes: map<Id, Mailbox>

    function Value(): Desk
      reads this
    {
      Desk(targets, controllers, boxes)
    }

    constructor ()
      ensures Value() == NOBODY
    {
      targets, controllers, boxes := map[], map[], map[];
    }

    method PutMessage(t: Id, m: Message) returns (ok: bool)
      modifies this`boxes
      ensures Value() == Put(old(Value()), t, m)
      ensures ok <==> !Full(old(Value()), t)
    {
      var box := if t in boxes then boxes[t] else NEW_BOX;
      ok := |box.log| - box.taken < CAPACITY;
      if ok {
        boxes := boxes[t := box.(log := box.log + [m])];
      }
    }

    method AddTarget(name: TargetName, t: Id) returns (ok: bool)
      modifies this
      ensures ok <==> name !in old(targets)
      ensures Value() == Install(old(Value()), name, t)
    {
      ok := name !in targets;
      if ok {
        targets := targets[name := t];
        boxes := boxes[t := NEW_BOX];
      }
    }

    method AddController(name: TargetName, c: Id, generation: nat, current: Option<nat>)
      returns (admitted: bool, told: bool)
      modifies this
      ensures admitted <==> Admissible(old(Value()), name, generation, current)
      ensures !admitted ==> Value() == old(Value())
      ensures admitted ==> Value() == Admit(old(Value()), name, c)
                           && (told <==> !Full(old(Value()), old(targets)[name]))
    {
      admitted, told := false, false;
      if Some(generation) != current || name !in targets || name in controllers {
        return;
      }
      admitted := true;
      controllers := controllers[name := c];
      told := PutMessage(targets[name], Joined(c));
    }

    method PassFrame(name: TargetName, c: Id, raw: seq<int>) returns (ok: bool)
      modifies this
      ensures ok <==> Forwarded(old(Value()), name, c)
      ensures Value() == Forward(old(Value()), name, c, raw)
    {
      if name !in targets || name !in controllers || controllers[name] != c {
        return false;
      }
      ok := PutMessage(targets[name], Frame(c, raw));
    }

    method FinishRotation(name: TargetName, t: Id) returns (ok: bool)
      modifies this
      ensures ok <==> !Full(old(Value()), t)
      ensures Value() == Revoke(old(Value()), name, t)
    {
      var c := if name in controllers then Some(controllers[name]) else None;
      controllers := controllers - {name};
      ok := PutMessage(t, Rotated(c));
    }

    method RemoveTarget(name: TargetName, t: Id)
      modifies this
      ensures Value() == DetachTarget(old(Value()), name, t)
    {
      if name in targets && targets[name] == t {
        targets := targets - {name};
        controllers := controllers - {name};
      }
    }

    method RemoveController(name: TargetName, c: Id)
      modifies this
      ensures Value() == DetachController(old(Value()), name, c)
    {
      if name in controllers && controllers[name] == c {
        controllers := controllers - {name};
        if name in targets {
          var _ := PutMessage(targets[name], Gone(c));
        }
      }
    }
  }
}
