/** From the controller's keyboard to the target's held keys: the capture policy, the controller's queue, sender and
    outbox, the wire format, the target's queue and the engine, composed over the interleavings of each side. */
module EndToEnd {
  import opened Sequences
  import opened Protocol
  import opened Queueing
  import QC = QueueConservation
  import CaptureInvariant
  import Controller = WakeUp
  import Sender = SenderDelivery
  import Engine
  import Target = EngineSystem
  import Delivery = EngineDelivery
  import GapFree = EngineGapFree
  import Replay = EngineReplay
  import Emission = CaptureEmission

  /** enqueue() marks an emitted event with the epoch in control. */
  function Tagged(es: seq<Event>, epoch: nat): seq<Event> {
    if es == [] then [] else Tagged(Front(es), epoch) + [Last(es).(epoch := epoch)]
  }

  /** The frames reached the target through the wire format, in order. */
  predicate Carried(frames: seq<Event>, arrived: seq<Entry>) {
    && |frames| == |arrived|
    && forall i :: 0 <= i < |frames| ==>
         Pack(frames[i]).Ok? && Unpack(Pack(frames[i]).value) == Ok(arrived[i].event)
  }

  // ---- What events do does not depend on tagging, merging, framing or transport ----

  /** The keys and buttons events leave held, and how far they move and scroll. */
  datatype Effect = Effect(held: Held, travel: Travel)

  function EffectOf(es: seq<Event>): Effect { Effect(HeldAfter(es), TravelOf(es)) }

  function With(x: Effect, e: Event): Effect { Effect(Struck(x.held, e), Moved(x.travel, e)) }

  lemma EffectSnoc(es: seq<Event>, e: Event)
    ensures EffectOf(es + [e]) == With(EffectOf(es), e)
  {
    assert Front(es + [e]) == es;
  }

  lemma {:induction false} TaggedEffect(es: seq<Event>, epoch: nat)
    ensures EffectOf(Tagged(es, epoch)) == EffectOf(es)
  {
    if es != [] {
      TaggedEffect(Front(es), epoch);
      EffectSnoc(Tagged(Front(es), epoch), Last(es).(epoch := epoch));
    }
  }

  lemma {:induction false} MergingEffect(runs: seq<seq<Entry>>)
    requires QC.AllUniform(runs)
    ensures EffectOf(QC.Combined(runs)) == EffectOf(Events(Flatten(runs)))
  {
    if runs != [] {
      var front, last := Front(runs), Last(runs);
      var done, c := Events(Flatten(front)), Combine(last).event;
      MergingEffect(front);
      assert Events(Flatten(runs)) == done + Events(last) by {
        FlattenSnoc(front, last);
        assert runs == front + [last];
        EventsConcat(Flatten(front), last);
      }
      RunHeld(done, last);
      RunTravel(done, last);
      assert QC.Combined(runs) == QC.Combined(front) + [c];
      EffectSnoc(QC.Combined(front), c);
    }
  }

  lemma CombinedSnoc(runs: seq<seq<Entry>>)
    requires QC.AllUniform(runs) && runs != []
    ensures QC.AllUniform(Front(runs)) && Last(runs) != []
    ensures QC.Combined(runs) == QC.Combined(Front(runs)) + [Combine(Last(runs)).event]
  {
    hide Combine;
    assert Uniform(runs[|runs| - 1]);
  }

  lemma FramedLast(fs: seq<Event>, runs: seq<seq<Entry>>)
    requires Sender.FramesOf(fs, runs) && runs != []
    ensures fs != [] && Front(fs) + [Last(fs)] == fs && Sender.FramesOf(Front(fs), Front(runs))
    ensures Last(runs) != [] && forall x :: With(x, Last(fs)) == With(x, Combine(Last(runs)).event)
  {
    hide Combine;
    assert Sender.FrameOf(fs[|fs| - 1], runs[|runs| - 1]);
  }

  /** Frames hold the keys of the runs they were made of. */
  lemma {:induction false} FramedEffect(fs: seq<Event>, runs: seq<seq<Entry>>)
    requires QC.AllUniform(runs) && Sender.FramesOf(fs, runs)
    ensures EffectOf(fs) == EffectOf(QC.Combined(runs))
  {
    if runs == [] {
      assert fs == [];
    } else {
      CombinedSnoc(runs);
      FramedLast(fs, runs);
      FramedEffect(Front(fs), Front(runs));
      hide EffectOf, Combine, QC.Combined, QC.AllUniform, Sender.FramesOf, With;
      EffectSnoc(Front(fs), Last(fs));
      EffectSnoc(QC.Combined(Front(runs)), Combine(Last(runs)).event);
    }
  }

  lemma CarriedEvents(frames: seq<Event>, arrived: seq<Entry>)
    requires Carried(frames, arrived)
    ensures Events(arrived) == frames
  {
    forall i | 0 <= i < |frames| ensures arrived[i].event == frames[i] {
      PackFields(frames[i]);
    }
  }

  lemma EventsSnoc(es: seq<Entry>, e: Entry)
    ensures Events(es + [e]) == Events(es) + [e.event]
  {
    assert Front(es + [e]) == es;
  }

  lemma ArrivedStep(inputs: seq<Entry>, frames: seq<Event>, e: Entry, epoch: nat)
    requires EffectOf(Events(inputs)) == EffectOf(Sender.UserFrames(frames, epoch))
    ensures EffectOf(Events(if GapFree.Input(e.event, epoch) then inputs + [e] else inputs))
            == EffectOf(Sender.UserFrames(frames + [e.event], epoch))
  {
    hide EffectOf, Sender.UserFrames, Events;
    Sender.UserSnoc(frames, e.event, epoch);
    EventsSnoc(inputs, e);
    EffectSnoc(Events(inputs), e.event);
    EffectSnoc(Sender.UserFrames(frames, epoch), e.event);
    assert Sender.UserFrames(frames, epoch) + [] == Sender.UserFrames(frames, epoch);
  }

  lemma NothingArrived(epoch: nat)
    ensures EffectOf(Events(GapFree.InputsOf([], epoch))) == EffectOf(Sender.UserFrames(Events([]), epoch))
  {
  }

  lemma InputsSnoc(es: seq<Entry>, e: Entry, epoch: nat)
    ensures GapFree.InputsOf(es + [e], epoch)
            == if GapFree.Input(e.event, epoch) then GapFree.InputsOf(es, epoch) + [e] else GapFree.InputsOf(es, epoch)
  {
    assert Front(es + [e]) == es;
  }

  /** Of what arrives under an epoch, only the captured input touches keys and buttons; heartbeats and probes do not. */
  lemma {:induction false} ArrivedEffect(es: seq<Entry>, epoch: nat)
    ensures EffectOf(Events(GapFree.InputsOf(es, epoch))) == EffectOf(Sender.UserFrames(Events(es), epoch))
  {
    hide EffectOf, Events, GapFree.InputsOf, Sender.UserFrames;
    if es == [] {
      NothingArrived(epoch);
    } else {
      ArrivedEffect(Front(es), epoch);
      ArrivedStep(GapFree.InputsOf(Front(es), epoch), Events(Front(es)), Last(es), epoch);
      EventsSnoc(Front(es), Last(es));
      InputsSnoc(Front(es), Last(es), epoch);
      assert Front(es) + [Last(es)] == es;
    }
  }

  /** What the written frames of the epoch leave held is what its accepted arrivals leave held. */
  lemma {:induction false} WrittenEffect(number: nat, sends: seq<Controller.Action>, epoch: nat)
    requires var c := Controller.Run(number, sends); c.queue.items == [] && c.written == c.accepted
    requires !Sender.Observe(number, sends, epoch).lost
    ensures EffectOf(Sender.UserFrames(Controller.Run(number, sends).written, epoch))
            == EffectOf(Events(Sender.Observe(number, sends, epoch).offered))
  {
    var r := Sender.Observe(number, sends, epoch);
    Sender.HandedExactly(number, sends, epoch);
    Sender.DeliveryAlways(number, sends, epoch);
    assert QC.AllUniform(r.handed);
    FramedEffect(Sender.UserFrames(Controller.Run(number, sends).accepted, epoch), r.handed);
    MergingEffect(r.handed);
  }

  lemma ArrivalsEffect(written: seq<Event>, m: nat, received: seq<Entry>, epoch: nat)
    requires m <= |written| && Sender.UserFrames(written[..m], epoch) == [] && Events(received) == written[m..]
    ensures EffectOf(Events(GapFree.InputsOf(received, epoch))) == EffectOf(Sender.UserFrames(written, epoch))
  {
    assert written == written[..m] + written[m..];
    Sender.UserConcat(written[..m], written[m..], epoch);
    ArrivedEffect(received, epoch);
    assert [] + Sender.UserFrames(written[m..], epoch) == Sender.UserFrames(written[m..], epoch);
  }

  lemma {:induction false} ArrivalsOrdered(
    number: nat, sends: seq<Controller.Action>, k: nat, m: nat, received: seq<Entry>, epoch: nat)
    requires var written := Controller.Run(number, sends).written;
             k < m <= |written| && Events(received) == written[m..]
    ensures GapFree.Ordered(received, epoch, Controller.Run(number, sends).written[k].number)
  {
    var written := Controller.Run(number, sends).written;
    assert written[m..] == written[m..m + |received|];
    Controller.WrittenAreOrdered(number, sends, k, m, epoch, received);
  }

  lemma {:induction false} PolicyEffect(acts: seq<CaptureInvariant.Act>)
    requires CaptureInvariant.Run(acts).active
    ensures var p := CaptureInvariant.Run(acts);
            EffectOf(p.emitted)
            == Effect(Held(p.forwarded, p.buttons - p.ignoredButtons), TravelOf(Emission.Arrived(acts)))
  {
    CaptureInvariant.PolicyAlways(acts);
    Emission.TravelArrived(acts);
  }

  lemma {:induction false} TargetHolds(actions: seq<Target.Action>)
    requires var y := Target.Run(actions);
             y.worker.Idle? && y.state.queue == EMPTY && y.state.epoch != 0 && !y.state.blocked
    requires GapFree.Ordered(Delivery.Observe(actions).received, Target.Run(actions).state.epoch,
                             Delivery.Observe(actions).start)
    ensures var s, n := Target.Run(actions).state, Replay.Earlier(actions);
            && Engine.HeldBy(s) == Engine.DownBy(s) && n <= |s.calls|
            && Effect(Engine.HeldBy(s), TravelOf(s.calls[n..]))
               == EffectOf(Events(GapFree.InputsOf(Delivery.Observe(actions).received, s.epoch)))
  {
    GapFree.DrainedHolds(actions);
    Replay.DrainedTravel(actions);
  }

  /** For every run of the keyboard and mouse under one activation, every interleaving of the controller's hooks,
      sender and writer, with whatever frames the controller adds by itself and numbers in between, and every
      interleaving of the target's threads. Suppose the target is in control under an epoch, idle and drained with no
      failed release, having received in order everything written after the frame that activated it; and the
      controller has put everything the policy emitted under that epoch, lost nothing of it, and written all it
      accepted. Then the keys the target tracks, and those its system holds down, are exactly the keys the policy has
      forwarded, and the buttons those down that are not ignored; and its injector has moved and scrolled since the
      activation exactly as far as the input that arrived to be forwarded. */
  lemma {:induction false} TargetHoldsForwarded(
    acts: seq<CaptureInvariant.Act>, number: nat, sends: seq<Controller.Action>, k: nat, m: nat,
    actions: seq<Target.Action>)
    requires CaptureInvariant.Run(acts).active
    requires var y := Target.Run(actions);
             y.worker.Idle? && y.state.queue == EMPTY && y.state.epoch != 0 && !y.state.blocked
    requires var epoch, c := Target.Run(actions).state.epoch, Controller.Run(number, sends);
             var sent := Sender.Observe(number, sends, epoch);
             && c.queue.items == [] && c.written == c.accepted
             && !sent.lost && Events(sent.offered) == Tagged(CaptureInvariant.Run(acts).emitted, epoch)
             && k < m <= |c.written| && Delivery.Observe(actions).start == c.written[k].number
             && Sender.UserFrames(c.written[..m], epoch) == []
             && Carried(c.written[m..], Delivery.Observe(actions).received)
    ensures var p, s, n := CaptureInvariant.Run(acts), Target.Run(actions).state, Replay.Earlier(actions);
            && s.keys == s.osKeys == p.forwarded
            && s.buttons == s.osButtons == p.buttons - p.ignoredButtons
            && n <= |s.calls| && TravelOf(s.calls[n..]) == TravelOf(Emission.Arrived(acts))
  {
    hide Controller.Run, Target.Run, Delivery.Observe, Sender.Observe, CaptureInvariant.Run, EffectOf,
         Sender.UserFrames, GapFree.InputsOf, GapFree.Ordered, Carried, Events, Tagged;
    var p, c, r := CaptureInvariant.Run(acts), Controller.Run(number, sends), Delivery.Observe(actions);
    var epoch := Target.Run(actions).state.epoch;
    WrittenEffect(number, sends, epoch);
    CarriedEvents(c.written[m..], r.received);
    ArrivalsEffect(c.written, m, r.received, epoch);
    TaggedEffect(p.emitted, epoch);
    PolicyEffect(acts);
    ArrivalsOrdered(number, sends, k, m, r.received, epoch);
    TargetHolds(actions);
  }
}
