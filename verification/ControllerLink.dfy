/** The sending half of src/remoteinput/controller.py as the object it is. Its value is a system of WakeUp, and each
    method carries out steps of that system. */
module ControllerLink {
  import opened Sequences
  import opened Protocol
  import opened Queueing
  import opened Transport
  import opened WakeUp

  function Stopped(y: System): System { Step(Step(y, SetEpoch(0)), ClearQueue) }

  /** Controller.enqueue run without interruption. */
  function Enqueued(y: System, connected: bool, event: Event, now: real): System {
    if !connected || y.epoch == 0 || !UserInput(event.op) then y
    else
      var y1 := Step(y, Offer(event.(epoch := y.epoch), now));
      if y1.queue.failed then Stopped(y1) else y1
  }

  /** What the hook thread may do between two turns of the sender's loop: enqueue, or stop control. */
  datatype Intrusion = Input(connected: bool, event: Event, at: real) | Halt

  /** One turn: what came before it, and its clock and stamp readings. */
  datatype Turn = Turn(before: seq<Intrusion>, now: real, stamp: nat)

  function Intruded(y: System, es: seq<Intrusion>): System
    decreases |es|
  {
    if es == [] then y
    else
      match es[0]
      case Input(connected, event, at) => Intruded(Enqueued(y, connected, event, at), es[1..])
      case Halt => Intruded(Stopped(y), es[1..])
  }

  /** The sender from where it is to its next wait, or as far as the turns go. */
  function Pass(y: System, turns: seq<Turn>): System
    decreases |turns|
  {
    if y.sender.Waiting? || turns == [] then y
    else Pass(SenderTurn(Intruded(y, turns[0].before), turns[0].now, turns[0].stamp), turns[1..])
  }

  class Controller {
    const queue: InputQueue
    const outbox: Outbox
    var epoch: nat
    var number: nat
    var lease: nat
    var bell: Bell
    var boxBell: Bell
    var sender: Sender
    ghost var writer: Writer
    ghost var accepted: seq<Event>
    ghost var written: seq<Event>

    ghost function Value(): System
      reads this, queue, outbox
    {
      System(queue.Value(), bell, sender, epoch, number, lease, outbox.Value(), boxBell, writer, accepted, written)
    }

    ghost predicate Valid()
      reads this, queue, outbox
    {
      queue.Bounds() == LIMITS && outbox.capacity == CAPACITY
    }

    constructor (number: nat)
      ensures Valid() && Value() == WakeUp.Start(number)
      ensures fresh(queue) && fresh(outbox)
    {
      queue := new InputQueue(256, MAX_QUEUE_AGE);
      outbox := new Outbox(CAPACITY);
      epoch, this.number, lease, bell, boxBell := 0, number, 0, QUIET_BELL, QUIET_BELL;
      sender, writer, accepted, written := Clearing, WClearing, [], [];
    }

    /** The bookkeeping part of stop_control. */
    method StopControl()
      requires Valid()
      modifies this, queue
      ensures Valid() && Value() == Stopped(old(Value()))
    {
      epoch := 0;
      queue.Clear();
    }

    method Enqueue(connected: bool, event: Event, now: real)
      requires Valid()
      modifies this, queue
      ensures Valid() && Value() == Enqueued(old(Value()), connected, event, now)
    {
      if !connected || epoch == 0 || !UserInput(event.op) {
        return;
      }
      var ok, wake := queue.Offer(event.(epoch := epoch), now);
      bell := Owe(bell, wake);
      if !ok {
        StopControl();
      }
    }

    method SendFrame(event: Event, now: real, stamp: nat)
      requires Valid()
      modifies this, outbox
      ensures Valid() && Value() == Framed(old(Value()), event, now, stamp)
    {
      number := number + 1;
      var frame := Frame(event, number, stamp, lease);
      accepted := if BoxAccepts(outbox.Value(), CAPACITY) then accepted + [frame] else accepted;
      var wake := outbox.Post(frame, now);
      boxBell := Owe(boxBell, wake);
    }

    /** One turn of the sender: clearing its event, one pop, the stop after an overload, or the wait. */
    method TakeTurn(now: real, stamp: nat)
      requires Valid()
      modifies this, queue, outbox
      ensures Valid() && Value() == SenderTurn(old(Value()), now, stamp)
    {
      hide Framed;
      match sender {
        case Clearing => bell, sender := bell.(ringing := false), Draining;
        case Draining =>
          var taken := queue.Take(now);
          if taken.Nothing? {
            sender := Waiting;
          } else if taken.Overloaded? {
            sender := Overrun;
          } else if epoch != 0 && taken.event.epoch == epoch {
            SendFrame(taken.event, now, stamp);
          }
        case Overrun =>
          StopControl();
          sender := Waiting;
        case Waiting =>
          if bell.ringing {
            sender := Clearing;
          }
      }
    }

    method Intrude(es: seq<Intrusion>)
      requires Valid()
      modifies this, queue
      ensures Valid() && Value() == Intruded(old(Value()), es)
    {
      hide Enqueued, Stopped;
      var i := 0;
      while i < |es|
        invariant 0 <= i <= |es| && Valid()
        invariant Intruded(Value(), es[i..]) == Intruded(old(Value()), es)
      {
        assert es[i..][1..] == es[i + 1..];
        match es[i] {
          case Input(connected, event, at) => Enqueue(connected, event, at);
          case Halt => StopControl();
        }
        i := i + 1;
      }
    }

    /** The sender's loop up to its wait, with the hook thread acting before any of its turns. */
    method RunSender(turns: seq<Turn>)
      requires Valid()
      modifies this, queue, outbox
      ensures Valid() && Value() == Pass(old(Value()), turns)
    {
      hide SenderTurn, Intruded;
      var i := 0;
      while i < |turns| && !sender.Waiting?
        invariant 0 <= i <= |turns| && Valid()
        invariant Pass(Value(), turns[i..]) == Pass(old(Value()), turns)
      {
        assert turns[i..][0] == turns[i] && turns[i..][1..] == turns[i + 1..];
        Intrude(turns[i].before);
        TakeTurn(turns[i].now, turns[i].stamp);
        i := i + 1;
      }
    }
  }

  /** Without a connection or an epoch, and for what is no captured input, nothing is put. Otherwise the event waits
      under the epoch in control, or the queue refuses it and control ends with nothing waiting. */
  lemma EnqueueExactly(y: System, connected: bool, event: Event, now: real)
    ensures var t := Enqueued(y, connected, event, now);
            if !connected || y.epoch == 0 || !(event.op.Move? || event.op.Key? || event.op.Button? || event.op.Scroll?)
            then t == y
            else
              && t.accepted == y.accepted && t.sender == y.sender
              && ((t.epoch == 0 && t.queue == EMPTY)
                  || (t.epoch == y.epoch && t.queue.items != [] && !t.queue.failed
                      && Last(t.queue.items).event.epoch == y.epoch
                      && Last(t.queue.items).event.op == event.op))
              && (t.epoch == 0 <==> Put(y.queue, event.(epoch := y.epoch), now, LIMITS).failed)
  {
  }

  // ---- Rounds are runs ----

  function Continue(y: System, actions: seq<Action>): System
    decreases |actions|
  {
    if actions == [] then y else Continue(Step(y, actions[0]), actions[1..])
  }

  lemma {:induction false} ContinueRun(number: nat, before: seq<Action>, after: seq<Action>)
    ensures Run(number, before + after) == Continue(Run(number, before), after)
    decreases |after|
  {
    hide Step;
    if after == [] {
      assert before + after == before;
    } else {
      assert before + after == (before + [after[0]]) + after[1..];
      assert Front(before + [after[0]]) == before;
      ContinueRun(number, before + [after[0]], after[1..]);
    }
  }

  lemma {:induction false} ContinueTwice(y: System, xs: seq<Action>, ys: seq<Action>)
    ensures Continue(y, xs + ys) == Continue(Continue(y, xs), ys)
    decreases |xs|
  {
    hide Step;
    if xs == [] {
      assert xs + ys == ys;
    } else {
      assert (xs + ys)[0] == xs[0] && (xs + ys)[1..] == xs[1..] + ys;
      ContinueTwice(Step(y, xs[0]), xs[1..], ys);
    }
  }

  function EnqueueTrace(y: System, connected: bool, event: Event, now: real): seq<Action> {
    if !connected || y.epoch == 0 || !UserInput(event.op) then []
    else
      var put := Offer(event.(epoch := y.epoch), now);
      if Step(y, put).queue.failed then [put, SetEpoch(0), ClearQueue] else [put]
  }

  function IntrusionTrace(y: System, es: seq<Intrusion>): seq<Action>
    decreases |es|
  {
    if es == [] then []
    else
      match es[0]
      case Input(connected, event, at) =>
        EnqueueTrace(y, connected, event, at) + IntrusionTrace(Enqueued(y, connected, event, at), es[1..])
      case Halt => [SetEpoch(0), ClearQueue] + IntrusionTrace(Stopped(y), es[1..])
  }

  function Trace(y: System, turns: seq<Turn>): seq<Action>
    decreases |turns|
  {
    if y.sender.Waiting? || turns == [] then []
    else
      var t := turns[0];
      IntrusionTrace(y, t.before) + [SenderStep(t.now, t.stamp)]
      + Trace(SenderTurn(Intruded(y, t.before), t.now, t.stamp), turns[1..])
  }

  lemma StoppedTrace(y: System)
    ensures Continue(y, [SetEpoch(0), ClearQueue]) == Stopped(y)
  {
    assert [SetEpoch(0), ClearQueue][1..] == [ClearQueue];
    assert [ClearQueue][1..] == [];
    assert Continue(Step(y, SetEpoch(0)), [ClearQueue]) == Continue(Stopped(y), []);
  }

  lemma OneStep(y: System, a: Action)
    ensures Continue(y, [a]) == Step(y, a)
  {
    assert [a][1..] == [];
    assert Continue(Step(y, a), []) == Step(y, a);
  }

  lemma EnqueuedTrace(y: System, connected: bool, event: Event, now: real)
    ensures Continue(y, EnqueueTrace(y, connected, event, now)) == Enqueued(y, connected, event, now)
  {
    if connected && y.epoch != 0 && UserInput(event.op) {
      var put := Offer(event.(epoch := y.epoch), now);
      OneStep(y, put);
      StoppedTrace(Step(y, put));
      ContinueTwice(y, [put], [SetEpoch(0), ClearQueue]);
      assert [put] + [SetEpoch(0), ClearQueue] == [put, SetEpoch(0), ClearQueue];
      hide Step, Stopped, Continue;
    }
  }

  lemma {:induction false} IntrudedTrace(y: System, es: seq<Intrusion>)
    ensures Continue(y, IntrusionTrace(y, es)) == Intruded(y, es)
    decreases |es|
  {
    hide Step, Enqueued, EnqueueTrace, Stopped;
    if es != [] {
      match es[0]
      case Input(connected, event, at) =>
        var y1 := Enqueued(y, connected, event, at);
        EnqueuedTrace(y, connected, event, at);
        IntrudedTrace(y1, es[1..]);
        ContinueTwice(y, EnqueueTrace(y, connected, event, at), IntrusionTrace(y1, es[1..]));
      case Halt =>
        StoppedTrace(y);
        IntrudedTrace(Stopped(y), es[1..]);
        ContinueTwice(y, [SetEpoch(0), ClearQueue], IntrusionTrace(Stopped(y), es[1..]));
    }
  }

  /** A round of the sender with everything the hook thread does meanwhile is a run of the interleaved system, so
      every theorem about runs holds of the object. */
  lemma {:induction false} PassIsRun(y: System, turns: seq<Turn>)
    ensures Continue(y, Trace(y, turns)) == Pass(y, turns)
    decreases |turns|
  {
    hide SenderTurn, Intruded, IntrusionTrace;
    if !y.sender.Waiting? && turns != [] {
      var t := turns[0];
      var y1 := Intruded(y, t.before);
      var y2 := SenderTurn(y1, t.now, t.stamp);
      var before, turn, rest := IntrusionTrace(y, t.before), [SenderStep(t.now, t.stamp)], Trace(y2, turns[1..]);
      IntrudedTrace(y, t.before);
      OneStep(y1, SenderStep(t.now, t.stamp));
      PassIsRun(y2, turns[1..]);
      ContinueTwice(y, before, turn);
      ContinueTwice(y, before + turn, rest);
    }
  }

  // ---- What one undisturbed round achieves ----

  /** The frames made of an epoch's items by the turns that pop them. */
  function Numbered(items: seq<Entry>, epoch: nat, number: nat, lease: nat, turns: seq<Turn>): seq<Event>
    requires |items| <= |turns|
  {
    if items == [] then []
    else if items[0].event.epoch != epoch then Numbered(items[1..], epoch, number, lease, turns[1..])
    else
      [Frame(items[0].event, number + 1, turns[0].stamp, lease)]
      + Numbered(items[1..], epoch, number + 1, lease, turns[1..])
  }

  /** Nothing comes between the turns, and no item is older than the limit when its turn comes. */
  predicate Timely(items: seq<Entry>, turns: seq<Turn>) {
    && |items| < |turns|
    && (forall i :: 0 <= i < |turns| ==> turns[i].before == [])
    && (forall i :: 0 <= i < |items| ==> turns[i].now - items[i].entered <= MAX_QUEUE_AGE)
  }

  lemma {:induction false} DrainHandsOn(y: System, turns: seq<Turn>)
    requires y.sender.Draining? && y.epoch != 0 && !y.queue.failed && !y.box.failed
    requires |y.box.items| + |y.queue.items| <= CAPACITY && Timely(y.queue.items, turns)
    ensures var t := Pass(y, turns);
            && t.sender.Waiting? && t.queue == EMPTY && t.epoch == y.epoch && !t.box.failed
            && t.accepted == y.accepted + Numbered(y.queue.items, y.epoch, y.number, y.lease, turns)
    decreases |y.queue.items|
  {
    var t := SenderTurn(y, turns[0].now, turns[0].stamp);
    assert turns[0].before == [];
    if y.queue.items == [] {
      assert t.sender.Waiting?;
    } else {
      var items := y.queue.items;
      assert turns[0].now - items[0].entered <= MAX_QUEUE_AGE;
      assert t.queue.items == items[1..];
      forall i | 0 <= i < |items[1..]| ensures turns[1..][i].now - items[1..][i].entered <= MAX_QUEUE_AGE {
        assert turns[i + 1].now - items[i + 1].entered <= MAX_QUEUE_AGE;
      }
      DrainHandsOn(t, turns[1..]);
    }
  }

  /** One undisturbed round with nothing overdue and room in the outbox hands on exactly the current epoch's
      events: in order, consecutively numbered, under the present lease; events of other epochs are dropped. */
  lemma PassHandsOn(y: System, turns: seq<Turn>)
    requires y.sender.Clearing? && y.epoch != 0 && !y.queue.failed && !y.box.failed
    requires turns != [] && turns[0].before == [] && Timely(y.queue.items, turns[1..])
    requires |y.box.items| + |y.queue.items| <= CAPACITY
    ensures var t := Pass(y, turns);
            && t.sender.Waiting? && t.queue == EMPTY && !t.box.failed
            && t.accepted == y.accepted + Numbered(y.queue.items, y.epoch, y.number, y.lease, turns[1..])
  {
    DrainHandsOn(SenderTurn(y, turns[0].now, turns[0].stamp), turns[1..]);
  }

  /** A round that meets an overload stops control, whatever the hook thread did between finding it and stopping:
      no epoch, an empty queue, nothing sent, and the sender back to waiting. */
  lemma OverloadStops(y: System, turns: seq<Turn>)
    requires y.sender.Draining? && |turns| >= 2 && turns[0].before == []
    requires PopResult(y.queue, turns[0].now, LIMITS).Overloaded?
    ensures var t := Pass(y, turns);
            t.sender.Waiting? && t.queue == EMPTY && t.epoch == 0 && t.accepted == y.accepted
  {
    var t := SenderTurn(y, turns[0].now, turns[0].stamp);
    assert t.sender.Overrun? && t.accepted == y.accepted;
    IntrudedSender(t, turns[1].before);
    var u := SenderTurn(Intruded(t, turns[1].before), turns[1].now, turns[1].stamp);
    assert Pass(t, turns[1..]) == Pass(u, turns[1..][1..]) == u by {
      assert turns[1..][0] == turns[1];
    }
  }

  lemma {:induction false} IntrudedSender(y: System, es: seq<Intrusion>)
    ensures Intruded(y, es).sender == y.sender && Intruded(y, es).accepted == y.accepted
    decreases |es|
  {
    if es != [] {
      match es[0]
      case Input(connected, event, at) => IntrudedSender(Enqueued(y, connected, event, at), es[1..]);
      case Halt => IntrudedSender(Stopped(y), es[1..]);
    }
  }
}
