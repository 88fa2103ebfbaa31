/** The controller's two hand-over points, interleaved: hooks put events into the input queue, the sender numbers
    them and puts frames into the outbox, the writer sends them. A put only schedules its wake; the event loop
    delivers it later. Any thread may clear the queue and change the epoch at any time. */
module WakeUp {
  import opened Sequences
  import opened Protocol
  import opened Queueing
  import opened Transport
  import EngineGapFree

  /** An asyncio event together with the wakes scheduled for it and not yet delivered. */
  datatype Bell = Bell(ringing: bool, owed: nat)

  datatype Sender = Clearing | Draining | Overrun | Waiting

  datatype Writer = WClearing | WDraining | Writing(frame: Event) | WWaiting | Dead

  /** `accepted` and `written` are history: frames the outbox took, and frames whose write completed. */
  datatype System = System(
    queue: Queue, bell: Bell, sender: Sender, epoch: nat, number: nat, lease: nat,
    box: Box, boxBell: Bell, writer: Writer, accepted: seq<Event>, written: seq<Event>)

  datatype Action =
    | Offer(event: Event, now: real)             // Controller.enqueue, under whatever epoch it read
    | ClearQueue                                 // the clear of stop_control, activate or a disconnect
    | SetEpoch(epoch: nat)
    | SetLease(lease: nat)
    | Deliver                                    // a wake of the input queue arrives
    | SenderStep(now: real, stamp: nat)          // `stamp` is the send clock a frame is given
    | Emit(event: Event, now: real, stamp: nat)  // heartbeat, probe, activation and reset frames
    | ExtraWake                                  // a put that read `failed` after another put failed the outbox
    | DeliverBox
    | WriterStep(now: real, completes: bool)

  const CAPACITY: nat := 256

  const QUIET_BELL: Bell := Bell(false, 0)

  function Start(number: nat): System {
    System(EMPTY, QUIET_BELL, Clearing, 0, number, 0, NO_FRAMES, QUIET_BELL, WClearing, [], [])
  }

  function Owe(b: Bell, wakes: bool): Bell { if wakes then b.(owed := b.owed + 1) else b }

  function Ring(b: Bell): Bell { if b.owed > 0 then Bell(true, b.owed - 1) else b }

  /** What capture hands to enqueue; everything else the controller sends by itself. */
  predicate UserInput(op: Op) { op.Move? || op.Key? || op.Button? || op.Scroll? }

  /** Controller.frame. */
  function Frame(event: Event, number: nat, stamp: nat, lease: nat): Event {
    event.(number := number, stamp := stamp, lease := lease)
  }

  /** The next number and the current lease; then the outbox. */
  function Framed(y: System, event: Event, now: real, stamp: nat): (r: System)
    ensures r.queue == y.queue && r.bell == y.bell && r.sender == y.sender && r.writer == y.writer && r.epoch == y.epoch
  {
    var frame := Frame(event, y.number + 1, stamp, y.lease);
    y.(number := y.number + 1,
       box := BoxPut(y.box, frame, now, CAPACITY),
       boxBell := Owe(y.boxBell, BoxWakes(y.box, CAPACITY)),
       accepted := if BoxAccepts(y.box, CAPACITY) then y.accepted + [frame] else y.accepted)
  }

  function SenderTurn(y: System, now: real, stamp: nat): System {
    match y.sender
    case Clearing => y.(bell := y.bell.(ringing := false), sender := Draining)
    case Draining =>
      var y1 := y.(queue := AfterPop(y.queue, now, LIMITS));
      (match PopResult(y.queue, now, LIMITS)
       case Nothing => y1.(sender := Waiting)
       case Overloaded => y1.(sender := Overrun)
       case Item(event, _) => if y.epoch != 0 && event.epoch == y.epoch then Framed(y1, event, now, stamp) else y1)
    case Overrun => y.(epoch := 0, queue := EMPTY, sender := Waiting)
    case Waiting => if y.bell.ringing then y.(sender := Clearing) else y
  }

  function WriterTurn(y: System, now: real, completes: bool): System {
    match y.writer
    case WClearing => y.(boxBell := y.boxBell.(ringing := false), writer := WDraining)
    case WDraining =>
      var y1 := y.(box := BoxRest(y.box));
      (match BoxNext(y.box, now)
       case Broken => y1.(writer := Dead)
       case Empty => y1.(writer := WWaiting)
       case Expired => y1.(writer := Dead)
       case Ready(frame) => y1.(writer := Writing(frame)))
    case Writing(frame) =>
      if completes then y.(writer := WDraining, written := y.written + [frame]) else y.(writer := Dead)
    case WWaiting => if y.boxBell.ringing then y.(writer := WClearing) else y
    case Dead => y
  }

  function Step(y: System, a: Action): System {
    match a
    case Offer(event, now) =>
      if !UserInput(event.op) then y
      else
        y.(queue := Put(y.queue, event, now, LIMITS), bell := Owe(y.bell, Wakes(y.queue, event, now, LIMITS)))
    case ClearQueue => y.(queue := EMPTY)
    case SetEpoch(epoch) => y.(epoch := epoch)
    case SetLease(lease) => y.(lease := lease)
    case Deliver => y.(bell := Ring(y.bell))
    case SenderStep(now, stamp) => SenderTurn(y, now, stamp)
    case Emit(event, now, stamp) => if UserInput(event.op) then y else Framed(y, event, now, stamp)
    case ExtraWake => y.(boxBell := Owe(y.boxBell, true))
    case DeliverBox => y.(boxBell := Ring(y.boxBell))
    case WriterStep(now, completes) => WriterTurn(y, now, completes)
  }

  function Run(number: nat, actions: seq<Action>): System {
    if actions == [] then Start(number) else Step(Run(number, Front(actions)), Last(actions))
  }

  // ---- Wakes ----

  predicate QueueBusy(q: Queue) { q.items != [] || q.failed }

  predicate BoxBusy(b: Box) { b.items != [] || b.failed }

  predicate SenderInv(y: System) {
    y.sender.Waiting? && !y.bell.ringing && QueueBusy(y.queue) ==> y.bell.owed > 0
  }

  predicate WriterInv(y: System) {
    y.writer.WWaiting? && !y.boxBell.ringing && BoxBusy(y.box) ==> y.boxBell.owed > 0
  }

  // ---- Frames ----

  function Frames(ps: seq<Parcel>): (fs: seq<Event>)
    ensures |fs| == |ps|
    ensures forall i :: 0 <= i < |ps| ==> fs[i] == ps[i].frame
  {
    Map((p: Parcel) => p.frame, ps)
  }

  function InFlight(w: Writer): seq<Event> { if w.Writing? then [w.frame] else [] }

  /** Written and half-written frames are the oldest accepted; while nothing has gone wrong, the rest waits. */
  predicate FrameInv(y: System) {
    && (y.box.failed ==> y.box.items == [])
    && y.written + InFlight(y.writer) <= y.accepted
    && (!y.box.failed && !y.writer.Dead? ==> y.accepted == y.written + InFlight(y.writer) + Frames(y.box.items))
  }

  predicate Increasing(fs: seq<Event>, bound: nat) {
    && (forall i, j :: 0 <= i < j < |fs| ==> fs[i].number < fs[j].number)
    && (forall i :: 0 <= i < |fs| ==> fs[i].number <= bound)
  }

  predicate Inv(y: System) {
    SenderInv(y) && WriterInv(y) && FrameInv(y) && Increasing(y.accepted, y.number)
  }

  lemma FramedInv(y: System, event: Event, now: real, stamp: nat)
    requires WriterInv(y) && FrameInv(y) && Increasing(y.accepted, y.number)
    ensures var t := Framed(y, event, now, stamp); WriterInv(t) && FrameInv(t) && Increasing(t.accepted, t.number)
  {
    var t := Framed(y, event, now, stamp);
    if BoxAccepts(y.box, CAPACITY) {
      assert Frames(t.box.items) == Frames(y.box.items) + [Last(t.accepted)];
    }
  }

  lemma SenderStepInv(y: System, now: real, stamp: nat)
    requires Inv(y)
    ensures Inv(SenderTurn(y, now, stamp))
  {
    hide Framed;
    if y.sender.Draining? && PopResult(y.queue, now, LIMITS).Item? {
      FramedInv(y.(queue := AfterPop(y.queue, now, LIMITS)), PopResult(y.queue, now, LIMITS).event, now, stamp);
    }
  }

  lemma TakeSplit(written: seq<Event>, items: seq<Parcel>)
    requires items != []
    ensures written + [] + Frames(items) == written + [items[0].frame] + Frames(items[1..])
  {
    assert Frames(items) == [items[0].frame] + Frames(items[1..]);
  }

  lemma TakeFrames(y: System, now: real)
    requires FrameInv(y) && y.writer.WDraining? && BoxNext(y.box, now).Ready?
    ensures FrameInv(y.(box := BoxRest(y.box), writer := Writing(BoxNext(y.box, now).frame)))
  {
    hide Frames;
    TakeSplit(y.written, y.box.items);
    var f, rest := y.box.items[0].frame, y.box.items[1..];
    assert y.written + [f] <= y.written + [f] + Frames(rest);
  }

  lemma WriteFrames(y: System, completes: bool)
    requires FrameInv(y) && y.writer.Writing?
    ensures FrameInv(WriterTurn(y, 0.0, completes))
  {
    hide Frames;
    var f := y.writer.frame;
    assert y.written + [f] + [] == y.written + [f];
    assert y.written <= y.written + [f];
  }

  lemma WriterStepInv(y: System, now: real, completes: bool)
    requires Inv(y)
    ensures Inv(WriterTurn(y, now, completes))
  {
    hide Frames, Increasing;
    if y.writer.Writing? {
      WriteFrames(y, completes);
    } else if y.writer.WDraining? {
      if BoxNext(y.box, now).Ready? { TakeFrames(y, now); }
    }
  }

  lemma StepInv(y: System, a: Action)
    requires Inv(y)
    ensures Inv(Step(y, a))
  {
    hide Framed, SenderTurn, WriterTurn;
    match a
    case SenderStep(now, stamp) => SenderStepInv(y, now, stamp);
    case Emit(event, now, stamp) => FramedInv(y, event, now, stamp);
    case WriterStep(now, completes) => WriterStepInv(y, now, completes);
    case _ =>
  }

  lemma {:induction false} Always(number: nat, actions: seq<Action>)
    ensures Inv(Run(number, actions))
  {
    if actions != [] {
      Always(number, Front(actions));
      StepInv(Run(number, Front(actions)), Last(actions));
    }
  }

  /** No lost wake-up: in every interleaving, a consumer that sleeps unsignalled with something to do (items, or a
      failure to report) has a wake on its way. */
  lemma {:induction false} NoLostWakeUp(number: nat, actions: seq<Action>)
    ensures var y := Run(number, actions);
            && (y.sender.Waiting? && !y.bell.ringing && QueueBusy(y.queue) ==> y.bell.owed > 0)
            && (y.writer.WWaiting? && !y.boxBell.ringing && BoxBusy(y.box) ==> y.boxBell.owed > 0)
  {
    Always(number, actions);
  }

  /** So when both sleep and nothing is on its way, nothing was left behind: the queue is empty and every frame
      accepted has been written, in order. */
  lemma {:induction false} AsleepMeansDone(number: nat, actions: seq<Action>)
    requires var y := Run(number, actions);
             && y.sender.Waiting? && y.bell == QUIET_BELL
             && y.writer.WWaiting? && y.boxBell == QUIET_BELL
    ensures Run(number, actions).queue == EMPTY && Run(number, actions).written == Run(number, actions).accepted
  {
    Always(number, actions);
    var y := Run(number, actions);
    assert y.written + [] + [] == y.written;
  }

  /** What has been written is always a prefix of what was accepted, and both are numbered increasingly. */
  lemma {:induction false} WrittenInOrder(number: nat, actions: seq<Action>)
    ensures var y := Run(number, actions);
            y.written <= y.accepted && Increasing(y.accepted, y.number) && Increasing(y.written, y.number)
  {
    Always(number, actions);
    var y := Run(number, actions);
    assert y.written <= y.written + InFlight(y.writer);
  }

  /** The numbering the target's gap-free delivery relies on: of the frames written, those after any activation
      are numbered increasingly, above it. */
  lemma {:induction false} WrittenAreOrdered(
    number: nat, actions: seq<Action>, k: nat, m: nat, epoch: nat, arrivals: seq<Entry>)
    requires k < m && m + |arrivals| <= |Run(number, actions).written|
    requires Events(arrivals) == Run(number, actions).written[m..m + |arrivals|]
    ensures EngineGapFree.Ordered(arrivals, epoch, Run(number, actions).written[k].number)
  {
    WrittenInOrder(number, actions);
    var written := Run(number, actions).written;
    forall i | 0 <= i < |arrivals| ensures arrivals[i].event == written[m + i] {
      assert Events(arrivals)[i] == written[m..m + |arrivals|][i];
    }
    forall i, j | 0 <= i < j < |arrivals| ensures arrivals[i].event.number < arrivals[j].event.number {
      assert written[m + i].number < written[m + j].number;
    }
    forall i | 0 <= i < |arrivals| ensures written[k].number < arrivals[i].event.number {
      assert written[k].number < written[m + i].number;
    }
  }

  function Done(y: System): nat { |y.written| + |InFlight(y.writer)| }

  lemma FailedStep(y: System, a: Action)
    requires y.box.failed
    ensures var t := Step(y, a);
            && t.box.failed && t.accepted == y.accepted && y.written <= t.written && Done(t) <= Done(y)
  {
  }

  /** An outbox that has failed stays failed: nothing more is accepted, and at most the frame being written at
      that moment is still completed. */
  lemma {:induction false} FailureIsPermanent(number: nat, before: seq<Action>, after: seq<Action>)
    requires Run(number, before).box.failed
    ensures var y, t := Run(number, before), Run(number, before + after);
            && t.box.failed && t.accepted == y.accepted && y.written <= t.written
            && Done(t) <= Done(y) <= |y.written| + 1
    decreases |after|
  {
    hide Step;
    if after == [] {
      assert before + after == before;
    } else {
      FailureIsPermanent(number, before, Front(after));
      assert Front(before + after) == before + Front(after);
      FailedStep(Run(number, before + Front(after)), Last(after));
    }
  }
}
