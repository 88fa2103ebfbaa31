/** What the injector is called with: under control, exactly the items handled that have an effect, in order. */
module EngineReplay {
  import opened Sequences
  import opened Protocol
  import opened Queueing
  import opened Engine
  import opened EngineSystem
  import opened EngineDelivery
  import opened EngineGapFree

  /** Every move, scroll and press is played; a release is when what it releases is held. */
  predicate Plays(held: Held, e: Event) {
    || e.op.Move? || e.op.Scroll?
    || (e.op.Key? && (e.b != 0 || e.a in held.keys))
    || (e.op.Button? && (e.b != 0 || e.a in held.buttons))
  }

  function Played(es: seq<Event>): seq<Event> {
    if es == [] then []
    else Played(Front(es)) + (if Plays(HeldAfter(Front(es)), Last(es)) then [Last(es)] else [])
  }

  /** The items handled, merged. */
  function Items(ts: seq<Taken>): seq<Event> {
    if ts == [] then []
    else
      Items(Front(ts))
      + (if Last(ts).verdict.Handled? && Last(ts).run != [] then [Combine(Last(ts).run).event] else [])
  }

  /** How often the injector had been called when control began. */
  function Earlier(actions: seq<Action>): nat {
    if actions == [] then 0
    else if Starts(Run(Front(actions)), Last(actions)) then |Run(Front(actions)).state.calls|
    else Earlier(Front(actions))
  }

  lemma HeldSnoc(es: seq<Event>, e: Event)
    ensures HeldAfter(es + [e]) == Struck(HeldAfter(es), e)
    ensures Played(es + [e]) == Played(es) + (if Plays(HeldAfter(es), e) then [e] else [])
  {
    assert Front(es + [e]) == es;
  }

  lemma ItemsSnoc(ts: seq<Taken>, t: Taken)
    ensures Items(ts + [t])
            == Items(ts) + (if t.verdict.Handled? && t.run != [] then [Combine(t.run).event] else [])
  {
    assert Front(ts + [t]) == ts;
  }

  /** Merging leaves what is held. */
  lemma {:induction false} ItemsHeld(ts: seq<Taken>, epoch: nat)
    requires AllHandled(ts, epoch)
    ensures HeldAfter(Items(ts)) == HeldAfter(Events(Applied(ts)))
  {
    if ts != [] {
      var front, t := Front(ts), Last(ts);
      ItemsHeld(front, epoch);
      if t.verdict.Handled? {
        RunHeld(Events(Applied(front)), t.run);
        EventsConcat(Applied(front), t.run);
        HeldSnoc(Items(front), Combine(t.run).event);
      } else {
        assert Items(front) + [] == Items(front) && Applied(front) + [] == Applied(front);
      }
    }
  }

  /** An event that leaves control running is played if it is handled and has an effect on what is tracked. */
  lemma ProcessPlays(s: State, event: Event, now: real, w: World)
    requires SessionInv(s) && s.epoch != 0
    ensures var o := Process(s, event, now, w);
            o.verdict.Handled? || o.verdict.Dropped? || o.verdict.Refused? ==>
              o.state.calls == if o.verdict.Handled? && Plays(HeldBy(s), event) then s.calls + [event] else s.calls
  {
    InjectedFrame(s.(number := event.number), event, w);
  }

  lemma ProcessCalls(s: State, event: Event, now: real, w: World)
    ensures s.calls <= Process(s, event, now, w).state.calls
  {
    var s1 := s.(number := event.number);
    InjectedFrame(s1, event, w);
    assert s1.calls <= Injected(s1, event, w).calls;
    hide Injected;
  }

  lemma CallsGrow(y: System, a: Action)
    ensures y.state.calls <= Step(y, a).state.calls
  {
    if Enabled(y, a) && a.ProcessNow? {
      ProcessCalls(y.state, y.worker.event, a.now, a.w);
    } else if Enabled(y, a) {
      CallsSteady(y, a);
    }
    hide Process, Tick;
  }

  predicate PlayedInv(start: nat, r: Record, y: System) {
    && start <= |y.state.calls|
    && (Controlling(r, y) && Settled(r, y) ==> y.state.calls[start..] == Played(Items(r.taken)))
  }

  lemma PlaysOne(calls: seq<Event>, calls': seq<Event>, start: nat, ts: seq<Taken>, t: Taken)
    requires start <= |calls| && calls[start..] == Played(Items(ts)) && t.run != []
    requires calls' == if t.verdict.Handled? && Plays(HeldAfter(Items(ts)), Combine(t.run).event)
                       then calls + [Combine(t.run).event] else calls
    ensures calls'[start..] == Played(Items(ts + [t]))
  {
    hide Played, Items, HeldAfter, Plays, Combine;
    var e := Combine(t.run).event;
    ItemsSnoc(ts, t);
    assert Items(ts) + [] == Items(ts) && Played(Items(ts)) + [] == Played(Items(ts));
    HeldSnoc(Items(ts), e);
    assert (calls + [e])[start..] == calls[start..] + [e];
  }

  /** What an item does to the calls when control goes on. */
  lemma ItemPlays(r: Record, y: System, a: Action)
    requires Inv(r, y) && DeliveryInv(r, y) && Controlling(r, y)
    requires a.ProcessNow? && Enabled(y, a) && !Resets(y, a) && !VerdictOf(y, a).Raised?
    ensures var e := y.worker.event;
            && r.hand != [] && Combine(r.hand).event == e
            && HeldBy(y.state) == HeldAfter(Items(r.taken))
            && Step(y, a).state.calls
               == if VerdictOf(y, a).Handled? && Plays(HeldBy(y.state), e) then y.state.calls + [e] else y.state.calls
  {
    if Input(y.worker.event, y.state.epoch) { HandIsNewer(r, y); }
    DroppedEffect(y.state, y.worker.event, a.now, a.w);
    ProcessPlays(y.state, y.worker.event, a.now, a.w);
    ItemsHeld(r.taken, y.state.epoch);
    hide Process, Items, HeldAfter, Applied, Events, Plays, Combine, Ordered, Tracks, TakenAll, Input;
  }

  lemma HandledPlays(start: nat, r: Record, y: System, a: Action)
    requires Inv(r, y) && DeliveryInv(r, y) && PlayedInv(start, r, y) && Controlling(r, y)
    requires a.ProcessNow? && Enabled(y, a) && !Resets(y, a) && !VerdictOf(y, a).Raised?
    ensures start <= |Step(y, a).state.calls|
    ensures Step(y, a).state.calls[start..] == Played(Items(r.taken + [Taken(r.hand, VerdictOf(y, a))]))
  {
    CallsGrow(y, a);
    hide Process, Played, Items, HeldAfter, Plays, Combine, Inv, DeliveryInv, Controlling;
    ItemPlays(r, y, a);
    PlaysOne(y.state.calls, Step(y, a).state.calls, start, r.taken, Taken(r.hand, VerdictOf(y, a)));
  }

  lemma PlayedStep(start: nat, r: Record, y: System, a: Action)
    requires Inv(r, y) && DeliveryInv(r, y) && PlayedInv(start, r, y) && !Resets(y, a)
    ensures PlayedInv(start, Next(r, y, a), Step(y, a))
  {
    CallsGrow(y, a);
    var r', y' := Next(r, y, a), Step(y, a);
    if Enabled(y, a) && Controlling(r', y') && Settled(r', y') {
      EpochSteady(y, a);
      if a.ProcessNow? {
        assert r'.received == r.received && Controlling(r, y);
        assert r.born == r.resets;
        HandledPlays(start, r, y, a);
      } else {
        CallsSteady(y, a);
        QuietBefore(r, y, a);
      }
    }
  }

  /** An action that neither processes nor resets leaves what was taken. */
  lemma QuietBefore(r: Record, y: System, a: Action)
    requires Inv(r, y) && Enabled(y, a) && !a.ProcessNow? && !Resets(y, a)
    requires Controlling(Next(r, y, a), Step(y, a)) && Settled(Next(r, y, a), Step(y, a))
    ensures Next(r, y, a).taken == r.taken && Controlling(r, y) && Settled(r, y)
  {
    EpochSteady(y, a);
    if a.Offer? && Next(r, y, a).received != r.received {
      OrderedPrefix(r.received, Entry(a.event, a.at), y.state.epoch, r.start);
    }
  }

  lemma StartPlays(r: Record, y: System, a: Action)
    requires Inv(r, y) && Starts(y, a)
    ensures PlayedInv(|y.state.calls|, Next(r, y, a), Step(y, a))
  {
    CallsGrow(y, a);
    StartCalls(y.state, y.worker.event, a.now, a.w);
  }

  lemma StartCalls(s: State, event: Event, now: real, w: World)
    requires Process(s, event, now, w).verdict.Started?
    ensures Process(s, event, now, w).state.calls == s.calls
  {
  }

  lemma {:induction false} PlayedAlways(actions: seq<Action>)
    ensures PlayedInv(Earlier(actions), Observe(actions), Run(actions))
  {
    if actions != [] {
      var before, a := Front(actions), Last(actions);
      var r, y := Observe(before), Run(before);
      PlayedAlways(before);
      Always(before);
      DeliveryAlways(before);
      if Starts(y, a) {
        StartPlays(r, y, a);
      } else if Resets(y, a) {
        CallsGrow(y, a);
        ResetEffect(y, a);
      } else {
        PlayedStep(Earlier(before), r, y, a);
      }
    }
  }

  // ---- How far the mouse moves ----

  lemma TravelSnoc(es: seq<Event>, e: Event)
    ensures TravelOf(es + [e]) == Moved(TravelOf(es), e)
  {
    assert Front(es + [e]) == es;
  }

  lemma {:induction false} PlayedTravel(es: seq<Event>)
    ensures TravelOf(Played(es)) == TravelOf(es)
  {
    if es != [] {
      PlayedTravel(Front(es));
      TravelSnoc(Played(Front(es)), Last(es));
      assert Played(Front(es)) + [] == Played(Front(es));
    }
  }

  lemma {:induction false} ItemsTravel(ts: seq<Taken>, epoch: nat)
    requires AllHandled(ts, epoch)
    ensures TravelOf(Items(ts)) == TravelOf(Events(Applied(ts)))
  {
    if ts != [] {
      var front, t := Front(ts), Last(ts);
      ItemsTravel(front, epoch);
      if t.verdict.Handled? {
        RunTravel(Events(Applied(front)), t.run);
        EventsConcat(Applied(front), t.run);
        TravelSnoc(Items(front), Combine(t.run).event);
      } else {
        assert Items(front) + [] == Items(front) && Applied(front) + [] == Applied(front);
      }
    }
  }

  /** In every run and at every moment of control between two injections: since control began, the injector was
      called exactly with the items handled, in order: every move and scroll, every press, and every release of
      something held; and nothing of the motion was lost on the way. */
  lemma {:induction false} CallsAreHandled(actions: seq<Action>)
    requires Controlling(Observe(actions), Run(actions)) && Settled(Observe(actions), Run(actions))
    ensures var calls, n, r := Run(actions).state.calls, Earlier(actions), Observe(actions);
            && n <= |calls| && calls[n..] == Played(Items(r.taken))
            && TravelOf(calls[n..]) == TravelOf(Events(Applied(r.taken)))
  {
    var r := Observe(actions);
    PlayedAlways(actions);
    DeliveryAlways(actions);
    PlayedTravel(Items(r.taken));
    ItemsTravel(r.taken, Run(actions).state.epoch);
  }

  /** Once everything accepted has been processed, the target has moved and scrolled exactly as far as the accepted
      inputs say. */
  lemma {:induction false} DrainedTravel(actions: seq<Action>)
    requires Controlling(Observe(actions), Run(actions))
    requires var y := Run(actions); y.worker.Idle? && y.state.queue == EMPTY
    ensures var r, y := Observe(actions), Run(actions);
            && Earlier(actions) <= |y.state.calls|
            && TravelOf(y.state.calls[Earlier(actions)..])
               == TravelOf(Events(InputsOf(r.received, y.state.epoch)))
  {
    var r := Observe(actions);
    CallsAreHandled(actions);
    Always(actions);
    GapFree(actions);
    assert r.runs == [] && Current(r) == [];
    assert InputsOf(r.received, Run(actions).state.epoch) == Applied(r.taken);
  }
}
