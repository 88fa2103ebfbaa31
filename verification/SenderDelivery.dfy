/** What the controller does with the input of one epoch, over every interleaving of hooks, sender, writer, clears and
    epoch changes: which frames it becomes, and what is still on its way. */
module SenderDelivery {
  import opened Sequences
  import opened Protocol
  import opened Queueing
  import opened Transport
  import opened WakeUp
  import opened EngineGapFree

  /** History of one epoch beside the system: the arrivals behind each queued item (of every epoch), the arrivals of
      this epoch accepted into the queue, those popped and accepted as frames, run by run, and whether any other
      fate has met one: refused, cleared, failed with the queue, popped while another epoch was in control, or
      refused by the outbox. */
  datatype Record = Record(runs: seq<seq<Entry>>, offered: seq<Entry>, handed: seq<seq<Entry>>, lost: bool)

  const BLANK: Record := Record([], [], [], false)

  /** The queued arrivals of the epoch. */
  function Queued(r: Record, epoch: nat): seq<Entry> { InputsOf(Flatten(r.runs), epoch) }

  function Emptied(r: Record, epoch: nat): Record {
    r.(runs := [], lost := r.lost || Queued(r, epoch) != [])
  }

  function NoteOffer(r: Record, y: System, event: Event, now: real, epoch: nat): Record {
    if Put(y.queue, event, now, LIMITS).failed then
      Emptied(r, epoch).(lost := r.lost || Queued(r, epoch) != [] || event.epoch == epoch)
    else
      r.(runs := PutRuns(y.queue, r.runs, event, now, LIMITS),
         offered := r.offered + InputsOf([Entry(event, now)], epoch))
  }

  function NotePop(r: Record, y: System, now: real, epoch: nat): Record {
    match PopResult(y.queue, now, LIMITS)
    case Nothing => r
    case Overloaded => Emptied(r, epoch)
    case Item(event, _) =>
      var r1 := r.(runs := PopRuns(y.queue, r.runs, now, LIMITS));
      if event.epoch != epoch then r1
      else if y.epoch == epoch && epoch != 0 && BoxAccepts(y.box, CAPACITY) then
        r1.(handed := r.handed + [FirstRun(r.runs)])
      else r1.(lost := true)
  }

  function Next(r: Record, y: System, a: Action, epoch: nat): Record {
    match a
    case Offer(event, now) => if UserInput(event.op) then NoteOffer(r, y, event, now, epoch) else r
    case ClearQueue => Emptied(r, epoch)
    case SenderStep(now, _) =>
      if y.sender.Draining? then NotePop(r, y, now, epoch)
      else if y.sender.Overrun? then Emptied(r, epoch)
      else r
    case _ => r
  }

  function Observe(number: nat, actions: seq<Action>, epoch: nat): Record {
    if actions == [] then BLANK
    else Next(Observe(number, Front(actions), epoch), Run(number, Front(actions)), Last(actions), epoch)
  }

  /** Frames of captured input sent under an epoch. */
  function UserFrames(fs: seq<Event>, epoch: nat): seq<Event> {
    if fs == [] then []
    else UserFrames(Front(fs), epoch) + (if UserInput(Last(fs).op) && Last(fs).epoch == epoch then [Last(fs)] else [])
  }

  /** The frame made of a run: the merged event, numbered, stamped and leased. */
  predicate FrameOf(f: Event, run: seq<Entry>) {
    run != [] && f == Frame(Combine(run).event, f.number, f.stamp, f.lease)
  }

  predicate FramesOf(fs: seq<Event>, runs: seq<seq<Entry>>) {
    |fs| == |runs| && forall i :: 0 <= i < |fs| ==> FrameOf(fs[i], runs[i])
  }

  predicate UserRuns(runs: seq<seq<Entry>>) {
    forall i :: 0 <= i < |runs| ==> Uniform(runs[i]) && UserInput(runs[i][0].event.op)
  }

  predicate Account(r: Record, epoch: nat) {
    !r.lost ==> r.offered == Flatten(r.handed) + Queued(r, epoch)
  }

  predicate DeliveryInv(r: Record, y: System, epoch: nat) {
    && Tracks(y.queue, r.runs) && UserRuns(r.runs) && UserRuns(r.handed)
    && Account(r, epoch)
    && FramesOf(UserFrames(y.accepted, epoch), r.handed)
  }

  lemma UserSnoc(fs: seq<Event>, f: Event, epoch: nat)
    ensures UserFrames(fs + [f], epoch)
            == UserFrames(fs, epoch) + (if UserInput(f.op) && f.epoch == epoch then [f] else [])
  {
    assert Front(fs + [f]) == fs;
  }

  lemma {:induction false} UserConcat(xs: seq<Event>, ys: seq<Event>, epoch: nat)
    ensures UserFrames(xs + ys, epoch) == UserFrames(xs, epoch) + UserFrames(ys, epoch)
  {
    hide UserFrames;
    if ys == [] {
      NoUserFrames(epoch);
      assert xs + ys == xs && UserFrames(xs, epoch) + [] == UserFrames(xs, epoch);
    } else {
      var f := if UserInput(Last(ys).op) && Last(ys).epoch == epoch then [Last(ys)] else [];
      UserConcat(xs, Front(ys), epoch);
      UserSnoc(xs + Front(ys), Last(ys), epoch);
      UserSnoc(Front(ys), Last(ys), epoch);
      assert xs + Front(ys) + [Last(ys)] == xs + ys && Front(ys) + [Last(ys)] == ys;
      SnocShift(UserFrames(xs, epoch), UserFrames(Front(ys), epoch), f);
    }
  }

  lemma NoUserFrames(epoch: nat)
    ensures UserFrames([], epoch) == []
  {
  }

  lemma SnocShift(a: seq<Event>, b: seq<Event>, c: seq<Event>)
    ensures a + b + c == a + (b + c)
  {
  }

  lemma PutUser(q: Queue, runs: seq<seq<Entry>>, event: Event, now: real, c: Limits)
    requires Tracks(q, runs) && UserRuns(runs) && UserInput(event.op)
    ensures UserRuns(PutRuns(q, runs, event, now, c))
  {
    PutTracks(q, runs, event, now, c);
    var runs' := PutRuns(q, runs, event, now, c);
    forall i | 0 <= i < |runs'| ensures Uniform(runs'[i]) && UserInput(runs'[i][0].event.op) {
      if i < |runs| { assert UserInput(runs[i][0].event.op); }
    }
  }

  lemma OfferAccount(r: Record, y: System, event: Event, now: real, epoch: nat)
    requires DeliveryInv(r, y, epoch) && UserInput(event.op)
    ensures Account(NoteOffer(r, y, event, now, epoch), epoch)
  {
    var r' := NoteOffer(r, y, event, now, epoch);
    PutTracks(y.queue, r.runs, event, now, LIMITS);
    if !Put(y.queue, event, now, LIMITS).failed {
      InputsConcat(Flatten(r.runs), [Entry(event, now)], epoch);
      assert Queued(r', epoch) == Queued(r, epoch) + InputsOf([Entry(event, now)], epoch);
    }
  }

  lemma OfferInv(r: Record, y: System, event: Event, now: real, epoch: nat)
    requires DeliveryInv(r, y, epoch) && UserInput(event.op)
    ensures DeliveryInv(NoteOffer(r, y, event, now, epoch), Step(y, Offer(event, now)), epoch)
  {
    PutTracks(y.queue, r.runs, event, now, LIMITS);
    PutUser(y.queue, r.runs, event, now, LIMITS);
    OfferAccount(r, y, event, now, epoch);
    hide Account, UserFrames, Tracks, UserRuns;
    if Put(y.queue, event, now, LIMITS).failed { NothingTracked(y.queue); }
  }

  lemma NothingTracked(q: Queue)
    ensures Tracks(EMPTY, []) && Tracks(FAILED, []) && UserRuns([])
  {
  }

  /** The run behind a popped item. */
  lemma PoppedRun(q: Queue, runs: seq<seq<Entry>>, now: real, epoch: nat)
    requires Tracks(q, runs) && UserRuns(runs) && PopResult(q, now, LIMITS).Item?
    ensures runs != [] && runs[0] != [] && Uniform(runs[0]) && UserInput(runs[0][0].event.op)
    ensures var event := PopResult(q, now, LIMITS).event;
            && event == Combine(runs[0]).event && UserInput(event.op)
            && (event.epoch == epoch <==> Input(runs[0][0].event, epoch))
    ensures Flatten(runs) == runs[0] + Flatten(PopRuns(q, runs, now, LIMITS))
    ensures Tracks(AfterPop(q, now, LIMITS), PopRuns(q, runs, now, LIMITS)) && UserRuns(PopRuns(q, runs, now, LIMITS))
  {
    PopTracks(q, runs, now, LIMITS);
    CombineUniform(runs[0]);
    hide Combine, Flatten, InputsOf;
  }

  lemma AccountShift(done: seq<Entry>, run: seq<Entry>, rest: seq<Entry>)
    ensures done + (run + rest) == (done + run) + rest && [] + rest == rest
  {
  }

  /** The queued arrivals of the epoch after a pop. */
  lemma PopQueued(r: Record, q: Queue, now: real, epoch: nat)
    requires Tracks(q, r.runs) && UserRuns(r.runs) && PopResult(q, now, LIMITS).Item?
    ensures r.runs != []
    ensures var rest := InputsOf(Flatten(PopRuns(q, r.runs, now, LIMITS)), epoch);
            Queued(r, epoch) == if PopResult(q, now, LIMITS).event.epoch == epoch then r.runs[0] + rest else rest
  {
    PoppedRun(q, r.runs, now, epoch);
    var run, rest := r.runs[0], Flatten(PopRuns(q, r.runs, now, LIMITS));
    InputsConcat(run, rest, epoch);
    InputsOfRun(run, epoch);
    AccountShift([], run, InputsOf(rest, epoch));
    hide Combine, Flatten, InputsOf, Tracks, UserRuns, PopRuns, Uniform;
  }

  lemma PopAccount(r: Record, y: System, now: real, epoch: nat)
    requires Tracks(y.queue, r.runs) && UserRuns(r.runs) && Account(r, epoch) && PopResult(y.queue, now, LIMITS).Item?
    ensures Account(NotePop(r, y, now, epoch), epoch)
  {
    PopQueued(r, y.queue, now, epoch);
    FlattenSnoc(r.handed, r.runs[0]);
    var rest := InputsOf(Flatten(PopRuns(y.queue, r.runs, now, LIMITS)), epoch);
    AccountShift(Flatten(r.handed), r.runs[0], rest);
    hide Combine, Flatten, InputsOf, Tracks, UserRuns, PopRuns, Uniform;
  }

  lemma AcceptedTurn(y: System, now: real, stamp: nat)
    requires y.sender.Draining? && PopResult(y.queue, now, LIMITS).Item?
    ensures var event := PopResult(y.queue, now, LIMITS).event;
            SenderTurn(y, now, stamp).accepted
            == if y.epoch != 0 && event.epoch == y.epoch && BoxAccepts(y.box, CAPACITY)
               then y.accepted + [Frame(event, y.number + 1, stamp, y.lease)] else y.accepted
  {
    hide PopResult, AfterPop, BoxPut, BoxWakes;
  }

  lemma FramesSnoc(fs: seq<Event>, runs: seq<seq<Entry>>, f: Event, run: seq<Entry>)
    requires FramesOf(fs, runs) && UserRuns(runs) && FrameOf(f, run) && Uniform(run) && UserInput(run[0].event.op)
    ensures FramesOf(fs + [f], runs + [run]) && UserRuns(runs + [run])
  {
    hide FrameOf, Uniform, Combine;
  }

  /** What is recorded as handed over. */
  lemma NotedHand(r: Record, y: System, now: real, epoch: nat)
    requires PopResult(y.queue, now, LIMITS).Item? && r.runs != []
    ensures var event := PopResult(y.queue, now, LIMITS).event;
            NotePop(r, y, now, epoch).handed
            == if event.epoch == epoch && y.epoch == epoch && epoch != 0 && BoxAccepts(y.box, CAPACITY)
               then r.handed + [r.runs[0]] else r.handed
  {
    hide PopResult, PopRuns, BoxAccepts;
  }

  /** One frame more on both sides, or none. */
  lemma HandedBoth(fs: seq<Event>, runs: seq<seq<Entry>>, frame: Event, run: seq<Entry>, epoch: nat, taken: bool)
    requires FramesOf(UserFrames(fs, epoch), runs) && UserRuns(runs)
    requires FrameOf(frame, run) && Uniform(run) && UserInput(run[0].event.op) && UserInput(frame.op)
    ensures var fs' := if taken then fs + [frame] else fs;
            var runs' := if taken && frame.epoch == epoch then runs + [run] else runs;
            FramesOf(UserFrames(fs', epoch), runs') && UserRuns(runs')
  {
    hide FrameOf, Uniform, Combine, UserFrames, FramesOf, UserRuns;
    UserSnoc(fs, frame, epoch);
    FramesOrNone(fs, runs, frame, run, epoch);
    assert UserFrames(fs, epoch) + [] == UserFrames(fs, epoch);
  }

  lemma FramesOrNone(fs: seq<Event>, runs: seq<seq<Entry>>, frame: Event, run: seq<Entry>, epoch: nat)
    requires FramesOf(UserFrames(fs, epoch), runs) && UserRuns(runs)
    requires FrameOf(frame, run) && Uniform(run) && UserInput(run[0].event.op)
    ensures FramesOf(UserFrames(fs, epoch) + [frame], runs + [run]) && UserRuns(runs + [run])
  {
    hide UserFrames;
    FramesSnoc(UserFrames(fs, epoch), runs, frame, run);
  }

  lemma HandedFrame(r: Record, y: System, now: real, stamp: nat, epoch: nat)
    requires Tracks(y.queue, r.runs) && UserRuns(r.runs) && UserRuns(r.handed)
    requires FramesOf(UserFrames(y.accepted, epoch), r.handed)
    requires y.sender.Draining? && PopResult(y.queue, now, LIMITS).Item?
    ensures var y', r' := SenderTurn(y, now, stamp), NotePop(r, y, now, epoch);
            FramesOf(UserFrames(y'.accepted, epoch), r'.handed) && UserRuns(r'.handed)
  {
    hide Combine, Flatten, InputsOf, PopRuns, AfterPop, PopResult, SenderTurn, NotePop, Tracks, Uniform, UserFrames,
         FramesOf, UserRuns, BoxAccepts;
    PoppedRun(y.queue, r.runs, now, epoch);
    AcceptedTurn(y, now, stamp);
    NotedHand(r, y, now, epoch);
    var event := PopResult(y.queue, now, LIMITS).event;
    var frame := Frame(event, y.number + 1, stamp, y.lease);
    assert FrameOf(frame, r.runs[0]);
    HandedBoth(y.accepted, r.handed, frame, r.runs[0], epoch,
               y.epoch != 0 && event.epoch == y.epoch && BoxAccepts(y.box, CAPACITY));
  }

  lemma QueueTurn(y: System, now: real, stamp: nat)
    requires y.sender.Draining?
    ensures SenderTurn(y, now, stamp).queue == AfterPop(y.queue, now, LIMITS)
    ensures !PopResult(y.queue, now, LIMITS).Item? ==> SenderTurn(y, now, stamp).accepted == y.accepted
  {
    hide BoxPut, BoxWakes;
  }

  lemma PopInv(r: Record, y: System, now: real, stamp: nat, epoch: nat)
    requires DeliveryInv(r, y, epoch) && y.sender.Draining?
    ensures DeliveryInv(NotePop(r, y, now, epoch), SenderTurn(y, now, stamp), epoch)
  {
    QueueTurn(y, now, stamp);
    NothingTracked(y.queue);
    if PopResult(y.queue, now, LIMITS).Item? {
      PoppedRun(y.queue, r.runs, now, epoch);
      PopAccount(r, y, now, epoch);
      HandedFrame(r, y, now, stamp, epoch);
      hide Combine, Flatten, InputsOf, Tracks, UserRuns, FramesOf, Account, UserFrames, SenderTurn, PopRuns, AfterPop;
    } else {
      PopFails(y.queue, now);
      hide Combine, Flatten, InputsOf, UserRuns, FramesOf, UserFrames, SenderTurn, PopResult, AfterPop;
    }
  }

  /** A pop without an item leaves the queue alone or fails it. */
  lemma PopFails(q: Queue, now: real)
    requires !PopResult(q, now, LIMITS).Item?
    ensures AfterPop(q, now, LIMITS) == if PopResult(q, now, LIMITS).Overloaded? && !q.failed then FAILED else q
  {
  }

  lemma EmitInv(r: Record, y: System, event: Event, now: real, stamp: nat, epoch: nat)
    requires DeliveryInv(r, y, epoch) && !UserInput(event.op)
    ensures DeliveryInv(r, Framed(y, event, now, stamp), epoch)
  {
    UserSnoc(y.accepted, Frame(event, y.number + 1, stamp, y.lease), epoch);
    hide UserFrames, Account, Tracks;
  }

  lemma StepDelivers(r: Record, y: System, a: Action, epoch: nat)
    requires DeliveryInv(r, y, epoch)
    ensures DeliveryInv(Next(r, y, a, epoch), Step(y, a), epoch)
  {
    NothingTracked(y.queue);
    hide Framed, Tracks, FramesOf, UserRuns, NotePop, NoteOffer;
    match a
    case Offer(event, now) => if UserInput(event.op) { OfferInv(r, y, event, now, epoch); }
    case SenderStep(now, stamp) => if y.sender.Draining? { PopInv(r, y, now, stamp, epoch); }
    case Emit(event, now, stamp) => if !UserInput(event.op) { EmitInv(r, y, event, now, stamp, epoch); }
    case _ =>
  }

  lemma {:induction false} DeliveryAlways(number: nat, actions: seq<Action>, epoch: nat)
    ensures DeliveryInv(Observe(number, actions, epoch), Run(number, actions), epoch)
  {
    if actions != [] {
      DeliveryAlways(number, Front(actions), epoch);
      StepDelivers(Observe(number, Front(actions), epoch), Run(number, Front(actions)), Last(actions), epoch);
    }
  }

  /** In every interleaving, for every epoch: the frames accepted for the writer that the controller did not make by
      itself are, in order, exactly the items popped while the epoch was in control, each numbered, stamped and
      leased; and as long as nothing was lost, these and the queued arrivals are everything accepted into the queue
      under that epoch. */
  lemma {:induction false} HandedExactly(number: nat, actions: seq<Action>, epoch: nat)
    ensures var r, y := Observe(number, actions, epoch), Run(number, actions);
            && FramesOf(UserFrames(y.accepted, epoch), r.handed)
            && (!r.lost ==> r.offered == Flatten(r.handed) + Queued(r, epoch))
            && (!r.lost && y.queue.items == [] ==> r.offered == Flatten(r.handed))
  {
    DeliveryAlways(number, actions, epoch);
    var r := Observe(number, actions, epoch);
    assert Flatten(r.handed) + [] == Flatten(r.handed);
  }

  /** What it takes to lose an arrival of the epoch: an overload, a clear, or a pop that finds another epoch in
      control or an outbox that has failed. */
  lemma LostOnlyBy(r: Record, y: System, a: Action, epoch: nat)
    requires !r.lost && Next(r, y, a, epoch).lost
    ensures || a.ClearQueue?
            || (a.Offer? && Put(y.queue, a.event, a.now, LIMITS).failed)
            || (a.SenderStep? && y.sender.Overrun?)
            || (a.SenderStep? && y.sender.Draining?
                && (PopResult(y.queue, a.now, LIMITS).Overloaded? || y.epoch != epoch || epoch == 0
                    || !BoxAccepts(y.box, CAPACITY)))
  {
  }
}
