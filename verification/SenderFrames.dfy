/** What the controller puts on the wire: which fields a frame carries, and that the writer sends all of them. */
module SenderFrames {
  import opened Sequences
  import opened Protocol
  import opened Queueing
  import opened Transport
  import opened WakeUp

  /** The lease set last. */
  function LeaseSet(actions: seq<Action>): nat {
    if actions == [] then 0 else if Last(actions).SetLease? then Last(actions).lease else LeaseSet(Front(actions))
  }

  /** The event an action makes a frame of: what the controller emits by itself, and captured input popped under the
      epoch in control. */
  function Source(y: System, a: Action): Option<Event> {
    match a
    case Emit(event, now, stamp) => if UserInput(event.op) then None else Some(event)
    case SenderStep(now, stamp) =>
      if y.sender.Draining? && PopResult(y.queue, now, LIMITS).Item?
         && PopResult(y.queue, now, LIMITS).event.epoch == y.epoch != 0
      then Some(PopResult(y.queue, now, LIMITS).event) else None
    case _ => None
  }

  function StampOf(a: Action): nat { if a.Emit? || a.SenderStep? then a.stamp else 0 }

  function FramesMade(number: nat, actions: seq<Action>): nat {
    if actions == [] then 0
    else
      FramesMade(number, Front(actions)) + (if Source(Run(number, Front(actions)), Last(actions)).Some? then 1 else 0)
  }

  lemma CountStep(y: System, a: Action)
    ensures Step(y, a).lease == if a.SetLease? then a.lease else y.lease
    ensures Step(y, a).number == y.number + (if Source(y, a).Some? then 1 else 0)
  {
  }

  lemma {:induction false} CountAlways(number: nat, actions: seq<Action>)
    ensures var y := Run(number, actions);
            y.number == number + FramesMade(number, actions) && y.lease == LeaseSet(actions)
  {
    if actions != [] {
      CountAlways(number, Front(actions));
      CountStep(Run(number, Front(actions)), Last(actions));
    }
  }

  /** In every run: an action sends exactly the frame of its event, if it has one and the outbox is neither failed nor
      holding 256. The frame keeps the event's operation, epoch and arguments, and carries the count of all frames made
      so far, the time it was stamped with, and the lease set last. */
  lemma {:induction false} FramesCarry(number: nat, actions: seq<Action>, a: Action)
    ensures var y, t := Run(number, actions), Run(number, actions + [a]);
            var e := Source(y, a);
            t.accepted == y.accepted +
              (if e.Some? && !y.box.failed && |y.box.items| < 256 then
                 [Event(e.value.op, e.value.epoch, number + FramesMade(number, actions) + 1, StampOf(a),
                        LeaseSet(actions), e.value.a, e.value.b)]
               else [])
  {
    CountAlways(number, actions);
    assert Front(actions + [a]) == actions;
    AcceptedStep(Run(number, actions), a);
    hide Step;
  }

  lemma AcceptedStep(y: System, a: Action)
    ensures var e := Source(y, a);
            Step(y, a).accepted == y.accepted +
              (if e.Some? && !y.box.failed && |y.box.items| < 256 then
                 [Event(e.value.op, e.value.epoch, y.number + 1, StampOf(a), y.lease, e.value.a, e.value.b)]
               else [])
  {
  }

  /** A frame put behind others in an outbox that takes it schedules no wake; every other put schedules one. */
  lemma BacklogIsQuiet(y: System, a: Action)
    requires Source(y, a).Some?
    ensures Step(y, a).boxBell
            == if y.box.items != [] && !y.box.failed && |y.box.items| < 256 then y.boxBell
               else y.boxBell.(owed := y.boxBell.owed + 1)
  {
  }

  // ---- The writer ----

  function Turns(n: nat, now: real): seq<Action> { seq(n, _ => WriterStep(now, true)) }

  lemma RunOn(number: nat, before: seq<Action>, a: Action)
    ensures Run(number, before + [a]) == Step(Run(number, before), a)
  {
    assert Front(before + [a]) == before;
  }

  /** Two turns of the writer: the oldest frame is taken and written. */
  lemma TwoTurns(y: System, now: real)
    requires y.writer.WDraining? && !y.box.failed && y.box.items != [] && now - y.box.items[0].entered <= 0.1
    ensures var t := WriterTurn(WriterTurn(y, now, true), now, true);
            t == y.(box := Box(y.box.items[1..], false), written := y.written + [y.box.items[0].frame])
  {
  }

  /** From every reachable state with a writer at work and an outbox that has not failed: if no frame waits longer than
      a tenth of a second and no write fails, everything accepted is written, in order. */
  lemma {:induction false} WriterSendsAll(number: nat, actions: seq<Action>, now: real)
    requires var y := Run(number, actions);
             && y.writer.WDraining? && !y.box.failed
             && forall i :: 0 <= i < |y.box.items| ==> now - y.box.items[i].entered <= 0.1
    ensures var y := Run(number, actions);
            Run(number, actions + Turns(2 * |y.box.items|, now)).written == y.accepted
    decreases |Run(number, actions).box.items|
  {
    hide WriterTurn, Step;
    var y := Run(number, actions);
    Always(number, actions);
    if y.box.items == [] {
      assert actions + Turns(0, now) == actions;
      assert y.written + [] + [] == y.written;
    } else {
      var one, two := actions + [WriterStep(now, true)], actions + [WriterStep(now, true)] + [WriterStep(now, true)];
      RunOn(number, actions, WriterStep(now, true));
      RunOn(number, one, WriterStep(now, true));
      TurnIsStep(y, now);
      TurnIsStep(Run(number, one), now);
      TwoTurns(y, now);
      var n := |y.box.items|;
      assert actions + Turns(2 * n, now) == two + Turns(2 * (n - 1), now);
      assert forall i :: 0 <= i < n - 1 ==> y.box.items[1..][i] == y.box.items[i + 1];
      WriterSendsAll(number, two, now);
    }
  }

  lemma TurnIsStep(y: System, now: real)
    ensures Step(y, WriterStep(now, true)) == WriterTurn(y, now, true)
  {
  }

  /** And a frame that has waited longer than that is never written: the writer gives up instead. */
  lemma StaleNeverWritten(y: System, now: real, completes: bool)
    requires y.writer.WDraining? && !y.box.failed && y.box.items != []
    ensures var t := Step(y, WriterStep(now, completes));
            if now - y.box.items[0].entered <= 0.1 then t.writer == Writing(y.box.items[0].frame)
            else t.writer.Dead? && t.written == y.written
  {
  }
}
