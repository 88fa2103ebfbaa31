/** Gap-free control and the reset barrier: what the engine does with every input it accepts. */
module EngineDelivery {
  import opened Sequences
  import opened Protocol
  import opened Queueing
  import opened Engine
  import opened EngineSystem

  /** A processed item: the arrivals it stands for and what became of it. */
  datatype Taken = Taken(run: seq<Entry>, verdict: Verdict)

  /** An injector call: the arrivals behind it, the event, the epoch in control, everything accepted
      since the latest reset, where among that the arrivals begin, and the count of activations so far. */
  datatype Injection = Injection(
    run: seq<Entry>, event: Event, epoch: nat, since: seq<Entry>, at: nat, activation: nat)

  /** History beside the system. `received` and `taken` restart at every reset; `born` is the count of
      resets when the item in hand was popped. */
  datatype Record = Record(
    runs: seq<seq<Entry>>, hand: seq<Entry>, born: nat, resets: nat, activations: nat, start: nat,
    received: seq<Entry>, taken: seq<Taken>, injections: seq<Injection>)

  const BLANK: Record := Record([], [], 0, 0, 0, 0, [], [], [])

  /** Whether processing the event calls the injector for it; CallsRecorded says so of the code. */
  predicate Injecting(s: State, event: Event, now: real, w: World) {
    && !s.blocked && s.connected && !Stale(s, event)
    && ValidLease(s.leases, event.lease, now, LeaseLimit(s, event))
    && !event.op.Activate? && !event.op.Heartbeat? && s.epoch != 0
    && !HeartbeatExpired(s, now)
    && !(event.op.Key? && event.a in w.unsupported)
    && Injects(s, event)
  }

  lemma CallsRecorded(s: State, event: Event, now: real, w: World)
    requires SessionInv(s)
    ensures Process(s, event, now, w).state.calls
            == if Injecting(s, event, now, w) then s.calls + [event] else s.calls
  {
  }

  /** The record of the call an action makes. */
  function CallOf(r: Record, y: System): Injection
    requires y.worker.Holding?
  {
    Injection(r.hand, y.worker.event, y.state.epoch, r.received, |TakenAll(r.taken)|, r.activations)
  }

  function NoteProcess(r: Record, y: System, a: Action): Record
    requires a.ProcessNow? && Enabled(y, a)
  {
    var v := VerdictOf(y, a);
    r.(taken := if r.born == r.resets && !v.Raised? then r.taken + [Taken(r.hand, v)] else r.taken,
       hand := if v.Raised? then r.hand else [],
       injections :=
         if Injecting(y.state, y.worker.event, a.now, a.w) then
           r.injections + [CallOf(r, y)]
         else r.injections)
  }

  function Note(r: Record, y: System, a: Action): Record
    requires Enabled(y, a)
  {
    match a
    case Offer(event, at) =>
      r.(runs := PutRuns(y.state.queue, r.runs, event, at, LIMITS),
         received := if Put(y.state.queue, event, at, LIMITS).failed then r.received
                     else r.received + [Entry(event, at)])
    case PopNow(now) =>
      r.(runs := PopRuns(y.state.queue, r.runs, now, LIMITS), born := r.resets,
         hand := if PopResult(y.state.queue, now, LIMITS).Item? then FirstRun(r.runs) else [])
    case ProcessNow(now, w) => NoteProcess(r, y, a)
    case WorkerReset(f) => r.(hand := [])
    case _ => r
  }

  function Next(r: Record, y: System, a: Action): Record {
    if !Enabled(y, a) then r
    else
      var r1 := Note(r, y, a);
      if !Resets(y, a) then r1
      else
        r1.(runs := [], received := [], taken := [], resets := r1.resets + 1,
            activations := r1.activations + (if Starts(y, a) then 1 else 0),
            start := if Starts(y, a) then y.worker.event.number else r1.start)
  }

  function Observe(actions: seq<Action>): Record {
    if actions == [] then BLANK else Next(Observe(Front(actions)), Run(Front(actions)), Last(actions))
  }

  function TakenAll(ts: seq<Taken>): seq<Entry> {
    if ts == [] then [] else TakenAll(Front(ts)) + Last(ts).run
  }

  /** The arrivals of the events that were handled, in order. */
  function Applied(ts: seq<Taken>): seq<Entry> {
    if ts == [] then [] else Applied(Front(ts)) + (if Last(ts).verdict.Handled? then Last(ts).run else [])
  }

  /** The item in hand, unless a reset has overtaken it. */
  function Current(r: Record): seq<Entry> {
    if r.born == r.resets then r.hand else []
  }

  // ---- Accounting: no arrival is lost, whatever the threads do ----

  predicate HandInv(r: Record, y: System) {
    && r.born <= r.resets
    && (r.hand != [] && r.born < r.resets ==> y.state.epoch == 0)
    && match y.worker
       case Idle => r.hand == []
       case Holding(event) => Uniform(r.hand) && Combine(r.hand).event == event
       case Failing => r.hand == [] || Uniform(r.hand)
  }

  predicate AccountInv(r: Record, y: System) {
    && Tracks(y.state.queue, r.runs)
    && TakenAll(r.taken) + Current(r) <= r.received
    && (!y.state.queue.failed ==> TakenAll(r.taken) + Current(r) + Flatten(r.runs) == r.received)
  }

  predicate Inv(r: Record, y: System) {
    HandInv(r, y) && AccountInv(r, y) && SessionInv(y.state)
  }

  lemma OfferInv(r: Record, y: System, a: Action)
    requires Inv(r, y) && a.Offer? && Enabled(y, a)
    ensures Inv(Next(r, y, a), Step(y, a))
  {
    PutTracks(y.state.queue, r.runs, a.event, a.at, LIMITS);
    var done := TakenAll(r.taken) + Current(r);
    if !Put(y.state.queue, a.event, a.at, LIMITS).failed {
      assert done + (Flatten(r.runs) + [Entry(a.event, a.at)]) == r.received + [Entry(a.event, a.at)];
    }
  }

  lemma PopInv(r: Record, y: System, a: Action)
    requires Inv(r, y) && a.PopNow? && Enabled(y, a)
    ensures Inv(Next(r, y, a), Step(y, a))
  {
    PopTracks(y.state.queue, r.runs, a.now, LIMITS);
    var done := TakenAll(r.taken);
    assert done + Current(r) == done;
    if PopResult(y.state.queue, a.now, LIMITS).Item? {
      var rest := Flatten(PopRuns(y.state.queue, r.runs, a.now, LIMITS));
      assert done + (r.runs[0] + rest) == (done + r.runs[0]) + rest;
    }
  }

  lemma TakenSnoc(ts: seq<Taken>, t: Taken)
    ensures TakenAll(ts + [t]) == TakenAll(ts) + t.run
  {
    assert Front(ts + [t]) == ts;
  }

  lemma ProcessInv(r: Record, y: System, a: Action)
    requires Inv(r, y) && a.ProcessNow? && Enabled(y, a)
    ensures Inv(Next(r, y, a), Step(y, a))
  {
    SessionStep(y, a);
    if Resets(y, a) {
      ResetEffect(y, a);
    } else {
      EpochSteady(y, a);
      var v := VerdictOf(y, a);
      TakenSnoc(r.taken, Taken(r.hand, v));
      var r' := Next(r, y, a);
      assert r'.received == r.received && r'.runs == r.runs;
      assert TakenAll(r'.taken) + Current(r') == TakenAll(r.taken) + Current(r);
    }
  }

  lemma OtherInv(r: Record, y: System, a: Action)
    requires Inv(r, y) && Enabled(y, a) && !a.Offer? && !a.PopNow? && !a.ProcessNow?
    ensures Inv(Next(r, y, a), Step(y, a))
  {
    SessionStep(y, a);
    if Resets(y, a) {
      ResetEffect(y, a);
    } else {
      EpochSteady(y, a);
    }
  }

  lemma NextInv(r: Record, y: System, a: Action)
    requires Inv(r, y)
    ensures Inv(Next(r, y, a), Step(y, a))
  {
    if Enabled(y, a) {
      match a
      case Offer(_, _) => OfferInv(r, y, a);
      case PopNow(_) => PopInv(r, y, a);
      case ProcessNow(_, _) => ProcessInv(r, y, a);
      case _ => OtherInv(r, y, a);
    }
  }

  lemma {:induction false} Always(actions: seq<Action>)
    ensures Inv(Observe(actions), Run(actions))
  {
    if actions != [] {
      Always(Front(actions));
      NextInv(Observe(Front(actions)), Run(Front(actions)), Last(actions));
    }
  }

  // ---- The barrier: what is injected belongs to the session it arrived in ----

  /** The arrivals behind the call, by position: they were accepted after the latest reset. */
  predicate Located(j: Injection) {
    j.at + |j.run| <= |j.since| && j.since[j.at..j.at + |j.run|] == j.run
  }

  predicate CallKnown(j: Injection, r: Record, y: System) {
    && Uniform(j.run) && Located(j)
    && j.event == Combine(j.run).event && j.event.epoch == j.epoch != 0
    && j.activation <= r.activations
    && (j.activation == r.activations ==> j.event.number <= y.state.number)
    && ((j.activation == r.activations && y.state.epoch != 0 && !y.worker.Failing?)
          ==> j.at + |j.run| <= |TakenAll(r.taken)| && j.since <= r.received)
  }

  /** Two calls of one activation: the later one has a higher number, and arrivals that came after those of the
      earlier one. */
  predicate Follows(i: Injection, j: Injection) {
    i.activation == j.activation ==>
      i.event.number < j.event.number && i.since <= j.since && i.at + |i.run| <= j.at
  }

  /** The injector was called exactly with the events of the recorded injections. */
  predicate BarrierInv(r: Record, y: System) {
    && |y.state.calls| == |r.injections|
    && (forall i :: 0 <= i < |r.injections| ==> y.state.calls[i] == r.injections[i].event)
    && (forall i :: 0 <= i < |r.injections| ==> CallKnown(r.injections[i], r, y))
    && (forall i, j :: 0 <= i < j < |r.injections| ==> Follows(r.injections[i], r.injections[j]))
  }

  /** An event that reaches the injector is the newest of the epoch in control. */
  lemma InjectingNumbers(s: State, event: Event, now: real, w: World)
    requires Injecting(s, event, now, w)
    ensures event.epoch == s.epoch != 0 && s.number < event.number
    ensures !Process(s, event, now, w).verdict.Started?
    ensures Process(s, event, now, w).state.number == event.number
  {
    InjectedFrame(s.(number := event.number), event, w);
    hide Injected;
  }

  lemma InjectionStep(r: Record, y: System, a: Action)
    requires Inv(r, y) && Calls(y, a)
    ensures var s, at := y.state, |TakenAll(r.taken)|;
            && !Starts(y, a) && Uniform(r.hand) && y.worker.event == Combine(r.hand).event
            && y.worker.event.epoch == s.epoch != 0
            && s.number < y.worker.event.number == Step(y, a).state.number
            && at + |r.hand| <= |r.received| && r.received[at..at + |r.hand|] == r.hand
  {
    hide TakenAll, Combine, Tracks, Flatten, Injecting, Process, SessionInv;
    InjectingNumbers(y.state, y.worker.event, a.now, a.w);
    assert r.born == r.resets;
    SliceAfter(TakenAll(r.taken), r.hand, r.received);
  }

  lemma SliceAfter(done: seq<Entry>, hand: seq<Entry>, received: seq<Entry>)
    requires done + hand <= received
    ensures |done| + |hand| <= |received| && received[|done|..|done| + |hand|] == hand
  {
    assert received[..|done| + |hand|] == done + hand;
  }

  predicate Calls(y: System, a: Action) {
    a.ProcessNow? && Enabled(y, a) && Injecting(y.state, y.worker.event, a.now, a.w)
  }

  lemma CallsSteady(y: System, a: Action)
    requires !a.ProcessNow?
    ensures Step(y, a).state.calls == y.state.calls
  {
  }

  /** What an action does to the record that the barrier depends on. */
  lemma RecordStep(r: Record, y: System, a: Action)
    requires Inv(r, y)
    ensures var r', y' := Next(r, y, a), Step(y, a);
            && r.activations <= r'.activations
            && (r'.activations == r.activations ==> y.state.number <= y'.state.number)
            && (r'.activations == r.activations && y'.state.epoch != 0 && !y'.worker.Failing? ==>
                  && y.state.epoch != 0 && !y.worker.Failing?
                  && r.received <= r'.received && |TakenAll(r.taken)| <= |TakenAll(r'.taken)|)
  {
    if !Starts(y, a) { NumberGrows(y, a); }
    if Resets(y, a) {
      ResetEffect(y, a);
    } else if Enabled(y, a) {
      EpochSteady(y, a);
      if a.ProcessNow? { TakenSnoc(r.taken, Taken(r.hand, VerdictOf(y, a))); }
    }
  }

  lemma CallStays(j: Injection, r: Record, y: System, a: Action)
    requires Inv(r, y) && CallKnown(j, r, y)
    ensures CallKnown(j, Next(r, y, a), Step(y, a))
  {
    RecordStep(r, y, a);
    hide Inv, Next, Step, Uniform, Located;
  }

  lemma CallRecorded(r: Record, y: System, a: Action)
    requires Inv(r, y) && Calls(y, a)
    ensures Next(r, y, a).injections == r.injections + [CallOf(r, y)]
    ensures Step(y, a).state.calls == y.state.calls + [y.worker.event]
  {
    CallsRecorded(y.state, y.worker.event, a.now, a.w);
    hide Process, Injecting, Combine, Tracks, TakenAll, Flatten;
  }

  /** The moment after the call, as far as it is known to the record. */
  lemma CallSettles(r: Record, y: System, a: Action)
    requires Inv(r, y) && Calls(y, a)
    ensures CallKnown(CallOf(r, y), Next(r, y, a), Step(y, a))
  {
    InjectionStep(r, y, a);
    assert r.born == r.resets;
    if Resets(y, a) {
      ResetEffect(y, a);
    } else {
      TakenSnoc(r.taken, Taken(r.hand, VerdictOf(y, a)));
    }
    hide Process, Injecting, Combine, Tracks, SessionInv, TakenAll, Flatten;
  }

  lemma CallFollows(r: Record, y: System, a: Action)
    requires Inv(r, y) && Calls(y, a)
    ensures forall j :: CallKnown(j, r, y) ==> Follows(j, CallOf(r, y))
  {
    InjectionStep(r, y, a);
    hide Step, Injecting, Combine, Tracks, TakenAll, Flatten, Uniform, Located;
  }

  /** The call an action makes, if it makes one. */
  lemma CallMade(r: Record, y: System, a: Action)
    requires Inv(r, y) && Calls(y, a)
    ensures var r', y' := Next(r, y, a), Step(y, a);
            && r'.injections != [] && r'.injections == r.injections + [Last(r'.injections)]
            && y'.state.calls == y.state.calls + [Last(r'.injections).event]
            && CallKnown(Last(r'.injections), r', y')
    ensures forall j :: CallKnown(j, r, y) ==> Follows(j, Last(Next(r, y, a).injections))
  {
    CallRecorded(r, y, a);
    CallSettles(r, y, a);
    CallFollows(r, y, a);
    hide Next, Step, CallKnown, Follows, Inv;
  }

  lemma NoCallMade(r: Record, y: System, a: Action)
    requires Inv(r, y) && !Calls(y, a)
    ensures Next(r, y, a).injections == r.injections && Step(y, a).state.calls == y.state.calls
  {
    if a.ProcessNow? {
      if Enabled(y, a) { CallsRecorded(y.state, y.worker.event, a.now, a.w); }
    } else {
      CallsSteady(y, a);
    }
  }

  lemma BarrierStep(r: Record, y: System, a: Action)
    requires Inv(r, y) && BarrierInv(r, y)
    ensures BarrierInv(Next(r, y, a), Step(y, a))
  {
    hide Inv, Next, Step, CallKnown, Follows, Calls;
    forall i | 0 <= i < |r.injections| ensures CallKnown(r.injections[i], Next(r, y, a), Step(y, a)) {
      CallStays(r.injections[i], r, y, a);
    }
    if Calls(y, a) {
      CallMade(r, y, a);
    } else {
      NoCallMade(r, y, a);
    }
  }

  lemma {:induction false} BarrierAlways(actions: seq<Action>)
    ensures BarrierInv(Observe(actions), Run(actions))
  {
    if actions != [] {
      BarrierAlways(Front(actions));
      Always(Front(actions));
      BarrierStep(Observe(Front(actions)), Run(Front(actions)), Last(actions));
    }
  }

  /** In every run, of everything the injector was ever called with: the i-th call merges arrivals accepted since
      the latest reset before it (so no arrival from before a reset, even one already popped, is injected after
      it) and carries the epoch then in control. Within an activation numbers strictly increase, and a later
      call's arrivals came after an earlier one's, so no arrival is injected twice. */
  lemma {:induction false} ResetIsBarrier(actions: seq<Action>, i: nat, j: nat)
    requires i < |Run(actions).state.calls|
    ensures var r, calls := Observe(actions), Run(actions).state.calls;
            && |r.injections| == |calls| && Uniform(r.injections[i].run)
            && calls[i] == Combine(r.injections[i].run).event && Located(r.injections[i])
            && calls[i].epoch == r.injections[i].epoch != 0
    ensures var r, calls := Observe(actions), Run(actions).state.calls;
            i < j < |calls| && r.injections[i].activation == r.injections[j].activation ==>
              && calls[i].number < calls[j].number
              && r.injections[i].since <= r.injections[j].since
              && r.injections[i].at + |r.injections[i].run| <= r.injections[j].at
  {
    BarrierAlways(actions);
    var r := Observe(actions);
    assert CallKnown(r.injections[i], r, Run(actions));
    if i < j < |r.injections| { assert Follows(r.injections[i], r.injections[j]); }
  }
}
