/** Acknowledgements: which events are acknowledged, and that every acknowledgement echoes a frame that arrived. */
module EngineAcks {
  import opened Sequences
  import opened Protocol
  import opened Queueing
  import opened Engine
  import opened EngineSystem

  function AcksOf(sent: seq<Message>): seq<Message> {
    if sent == [] then [] else AcksOf(Front(sent)) + (if Last(sent).Ack? then [Last(sent)] else [])
  }

  lemma {:induction false} AcksConcat(xs: seq<Message>, ys: seq<Message>)
    ensures AcksOf(xs + ys) == AcksOf(xs) + AcksOf(ys)
  {
    if ys == [] {
      assert xs + ys == xs;
    } else {
      assert Front(xs + ys) == xs + Front(ys);
      AcksConcat(xs, Front(ys));
    }
  }

  /** A paused probe, and of the events carried out without an exception the probes and every thirty-second. */
  predicate Acknowledges(s: State, event: Event, v: Verdict, w: World) {
    || (v.Calibrated? && event.op.Probe?)
    || ((v.Handled? || v.Stopped?) && !event.op.Heartbeat? && !(event.op.Key? && event.a in w.unsupported)
        && (event.op.Probe? || event.number % 32 == 0))
  }

  lemma SentOne(sent: seq<Message>, m: Message)
    ensures AcksOf(sent + [m]) == AcksOf(sent) + (if m.Ack? then [m] else [])
  {
    AcksConcat(sent, [m]);
    assert AcksOf([m]) == if m.Ack? then [m] else [];
  }

  lemma ResetSilent(s: State, f: Faults)
    ensures AcksOf(ResetState(s, f).sent) == AcksOf(s.sent)
  {
    SentOne(s.sent, Paused(s.epoch));
  }

  lemma InjectAcks(s: State, event: Event, w: World)
    ensures var o := Inject(s, event, w);
            AcksOf(o.state.sent)
            == AcksOf(s.sent)
               + (if o.verdict.Raised? || (event.op.Key? && event.a in w.unsupported) then []
                  else if event.op.Probe? || event.number % 32 == 0 then
                    [Ack(event.op, event.epoch, event.number, event.stamp)]
                  else [])
  {
    hide ResetState, Injected, AcksOf;
    ResetSilent(s, w.faults);
    var s1 := Injected(s, event, w);
    assert s1.sent == s.sent by { InjectedFrame(s, event, w); }
    ResetSilent(s1, w.faults);
    SentOne(s1.sent, Ack(event.op, event.epoch, event.number, event.stamp));
    SentOne(ResetState(s1, w.faults).sent, Ack(event.op, event.epoch, event.number, event.stamp));
  }

  /** One event is acknowledged at most once, with its own operation, epoch, sequence number and stamp. */
  lemma AckExactly(s: State, event: Event, now: real, w: World)
    requires SessionInv(s)
    ensures var o := Process(s, event, now, w);
            AcksOf(o.state.sent)
            == AcksOf(s.sent) + (if Acknowledges(s, event, o.verdict, w)
                                 then [Ack(event.op, event.epoch, event.number, event.stamp)] else [])
  {
    var s1 := s.(number := event.number);
    InjectAcks(s1, event, w);
    InjectVerdict(s1, event, w);
    ResetSilent(s, w.faults);
    ResetSilent(s1, w.faults);
    SentOne(s.sent, Paused(event.epoch));
    SentOne(ResetState(s, w.faults).sent, Paused(event.epoch));
    SentOne(ResetState(s, w.faults).sent, Engine.Activated(event.epoch));
    SentOne(s.sent, Ack(event.op, event.epoch, event.number, event.stamp));
    hide ResetState, AcksOf, Inject;
  }

  lemma InjectVerdict(s: State, event: Event, w: World)
    ensures var v := Inject(s, event, w).verdict; v.Raised? || v.Handled? || v.Stopped?
  {
  }

  /** The frames the network thread has put, in order. */
  function Offered(actions: seq<Action>): seq<Event> {
    if actions == [] then []
    else
      Offered(Front(actions))
      + (if Last(actions).Offer? && Enabled(Run(Front(actions)), Last(actions)) then [Last(actions).event] else [])
  }

  /** The fields of one frame, together. */
  predicate Echoes(op: Op, epoch: nat, number: nat, stamp: nat, offered: seq<Event>) {
    exists i :: 0 <= i < |offered| &&
      offered[i].op == op && offered[i].epoch == epoch && offered[i].number == number && offered[i].stamp == stamp
  }

  predicate Came(e: Event, offered: seq<Event>) { Echoes(e.op, e.epoch, e.number, e.stamp, offered) }

  predicate EchoInv(y: System, offered: seq<Event>) {
    && (forall i :: 0 <= i < |y.state.queue.items| ==> Came(y.state.queue.items[i].event, offered))
    && (y.worker.Holding? ==> Came(y.worker.event, offered))
    && AllEcho(AcksOf(y.state.sent), offered)
  }

  predicate AllEcho(acks: seq<Message>, offered: seq<Event>) {
    forall i :: 0 <= i < |acks| ==>
      acks[i].Ack? && Echoes(acks[i].op, acks[i].epoch, acks[i].number, acks[i].stamp, offered)
  }

  lemma EchoMore(y: System, offered: seq<Event>, e: Event)
    requires EchoInv(y, offered)
    ensures EchoInv(y, offered + [e])
  {
    forall op: Op, epoch: nat, number: nat, stamp: nat | Echoes(op, epoch, number, stamp, offered)
      ensures Echoes(op, epoch, number, stamp, offered + [e])
    {
      var i :| 0 <= i < |offered| && offered[i].op == op && offered[i].epoch == epoch
               && offered[i].number == number && offered[i].stamp == stamp;
      assert (offered + [e])[i] == offered[i];
    }
    hide AcksOf, Echoes;
  }

  lemma PutEchoes(q: Queue, event: Event, at: real, offered: seq<Event>)
    requires forall i :: 0 <= i < |q.items| ==> Came(q.items[i].event, offered)
    requires Came(event, offered)
    ensures var q' := Put(q, event, at, LIMITS);
            forall i :: 0 <= i < |q'.items| ==> Came(q'.items[i].event, offered)
  {
    hide Echoes;
  }

  lemma OfferEchoes(y: System, a: Action, offered: seq<Event>)
    requires EchoInv(y, offered) && a.Offer? && Enabled(y, a)
    ensures EchoInv(Step(y, a), offered + [a.event])
  {
    var more := offered + [a.event];
    EchoMore(y, offered, a.event);
    assert more[|offered|] == a.event && Came(a.event, more);
    PutEchoes(y.state.queue, a.event, a.at, more);
    hide Came, AcksOf, Put, AllEcho;
  }

  /** Resets and ticks acknowledge nothing. */
  lemma OtherSilent(y: System, a: Action)
    requires Enabled(y, a) && !a.ProcessNow?
    ensures AcksOf(Step(y, a).state.sent) == AcksOf(y.state.sent)
  {
    hide ResetState, AcksOf;
    var s := y.state;
    match a
    case NetReset(f) => ResetSilent(s, f);
    case Connect(value, f) =>
      ResetSilent(s.(connected := value, leases := map[], lastChallenge := NEVER, lastEcho := NEVER,
                     network := Timing.FRESH), f);
    case Peer(f) => ResetSilent(s, f);
    case WorkerReset(f) => ResetSilent(s, f);
    case TickNow(now, nonce, permitted, f, retry) =>
      var s1 := Challenged(s, now, nonce);
      SentOne(s.sent, Challenge(nonce));
      ResetSilent(s1, f);
      ResetSilent(s1, retry);
      ResetSilent(ResetState(s1, f), retry);
    case _ =>
  }

  /** Nothing but a put brings an event into the queue, and nothing but a pop into the worker's hand. */
  lemma ItemsKnown(y: System, a: Action)
    requires Enabled(y, a) && !a.Offer?
    ensures var y' := Step(y, a);
            && (forall e :: e in y'.state.queue.items ==> e in y.state.queue.items)
            && (y'.worker.Holding? ==>
                  y'.worker == y.worker || (exists i :: 0 <= i < |y.state.queue.items|
                                                        && y.state.queue.items[i].event == y'.worker.event))
  {
    if a.ProcessNow? {
      if Resets(y, a) { ResetEffect(y, a); } else { EpochSteady(y, a); }
    }
  }

  lemma EchoStep(y: System, a: Action, offered: seq<Event>)
    requires EchoInv(y, offered) && SessionInv(y.state) && Enabled(y, a) && !a.Offer?
    ensures EchoInv(Step(y, a), offered)
  {
    ItemsKnown(y, a);
    if a.ProcessNow? {
      AckExactly(y.state, y.worker.event, a.now, a.w);
    } else {
      OtherSilent(y, a);
    }
    var y' := Step(y, a);
    hide Step, AcksOf, Echoes, Acknowledges, Process;
    forall i | 0 <= i < |y'.state.queue.items| ensures Came(y'.state.queue.items[i].event, offered) {
      assert y'.state.queue.items[i] in y.state.queue.items;
    }
  }

  lemma {:induction false} EchoAlways(actions: seq<Action>)
    ensures EchoInv(Run(actions), Offered(actions))
  {
    if actions != [] {
      var before, a := Front(actions), Last(actions);
      EchoAlways(before);
      SessionAlways(before);
      if Enabled(Run(before), a) {
        if a.Offer? {
          OfferEchoes(Run(before), a, Offered(before));
        } else {
          EchoStep(Run(before), a, Offered(before));
          assert Offered(actions) == Offered(before);
        }
      } else {
        assert Offered(actions) == Offered(before);
      }
    }
  }

  /** In every run, each acknowledgement carries the operation, epoch, sequence number and stamp of one and the same
      frame that was put before. */
  lemma {:induction false} AcksEcho(actions: seq<Action>, i: nat)
    requires i < |AcksOf(Run(actions).state.sent)|
    ensures var m := AcksOf(Run(actions).state.sent)[i];
            m.Ack? && Echoes(m.op, m.epoch, m.number, m.stamp, Offered(actions))
  {
    EchoAlways(actions);
  }
}
