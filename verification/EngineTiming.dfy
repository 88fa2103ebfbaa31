/** The deadline in use: it follows the round trips measured, ends control when it is overdue and not before, and
    accepts every token a prompt controller presents. */
module EngineTiming {
  import opened Sequences
  import opened Protocol
  import opened Timing
  import opened Engine
  import opened EngineSystem

  /** The ages of the challenges answered since the connection or the peer last changed, and when the newest of
      them was issued. */
  datatype Measured = Measured(samples: seq<real>, newest: real)

  const NONE: Measured := Measured([], NEVER)

  /** A heartbeat that counts: admitted, and answering a challenge newer than all answered before. */
  predicate Answers(s: State, event: Event, now: real, newest: real) {
    && event.op.Heartbeat? && !s.blocked && s.connected
    && (if event.epoch == 0 then s.epoch == 0 else event.epoch == s.epoch && event.number > s.number)
    && event.lease in s.leases && newest < s.leases[event.lease]
    && 0.0 <= now - s.leases[event.lease] < (if s.epoch == 0 then 3.0 else Timeout(s.network))
    && (s.epoch != 0 ==> now - s.lastHeartbeat < Timeout(s.network))
  }

  function Next(m: Measured, y: System, a: Action): Measured {
    if !Enabled(y, a) then m
    else
      match a
      case Connect(value, f) => NONE
      case Peer(f) => NONE
      case ProcessNow(now, w) =>
        var e := y.worker.event;
        if Answers(y.state, e, now, m.newest) then
          Measured(m.samples + [now - y.state.leases[e.lease]], y.state.leases[e.lease])
        else m
      case _ => m
  }

  function Observe(actions: seq<Action>): Measured {
    if actions == [] then NONE else Next(Observe(Front(actions)), Run(Front(actions)), Last(actions))
  }

  predicate MeasuredInv(m: Measured, s: State) {
    && s.network == ObservedAll(FRESH, m.samples) && s.lastEcho == m.newest
    && forall i :: 0 <= i < |m.samples| ==> Usable(m.samples[i])
  }

  lemma ObservedSnoc(samples: seq<real>, s: real)
    ensures ObservedAll(FRESH, samples + [s]) == Observed(ObservedAll(FRESH, samples), s)
  {
    assert Front(samples + [s]) == samples;
  }

  /** One event: the estimate takes the age of the challenge when the heartbeat counts, and nothing else. */
  lemma ProcessMeasures(s: State, event: Event, now: real, w: World)
    requires SessionInv(s)
    ensures var s' := Process(s, event, now, w).state;
            if Answers(s, event, now, s.lastEcho) then
              s'.network == Observed(s.network, now - s.leases[event.lease]) && s'.lastEcho == s.leases[event.lease]
            else s'.network == s.network && s'.lastEcho == s.lastEcho
  {
    InjectedFrame(s.(number := event.number), event, w);
    hide Injected, Observed;
  }

  lemma MeasuredStep(m: Measured, y: System, a: Action)
    requires MeasuredInv(m, y.state) && SessionInv(y.state)
    ensures MeasuredInv(Next(m, y, a), Step(y, a).state)
  {
    if Enabled(y, a) && a.ProcessNow? {
      ProcessMeasures(y.state, y.worker.event, a.now, a.w);
      if Answers(y.state, y.worker.event, a.now, m.newest) {
        ObservedSnoc(m.samples, a.now - y.state.leases[y.worker.event.lease]);
      }
      hide Process, Observed, ObservedAll;
    }
  }

  /** In every run the estimate is the smoothing of exactly the challenge ages measured since the connection or the
      peer changed. */
  lemma {:induction false} EstimateIsMeasured(actions: seq<Action>)
    ensures MeasuredInv(Observe(actions), Run(actions).state)
  {
    if actions != [] {
      EstimateIsMeasured(Front(actions));
      SessionAlways(Front(actions));
      MeasuredStep(Observe(Front(actions)), Run(Front(actions)), Last(actions));
    }
  }

  /** The shortest deadline consistent with the latest measurement. */
  function Allowance(m: Measured): (r: real)
    ensures 2.0 <= r <= 3.0
  {
    if m.samples == [] then 2.0 else Clamped(Last(m.samples) + 0.2)
  }

  /** In every run the deadline leaves room for the round trip measured last and one challenge interval. */
  lemma {:induction false} DeadlineFollows(actions: seq<Action>)
    ensures Allowance(Observe(actions)) <= Timeout(Run(actions).state.network)
  {
    EstimateIsMeasured(actions);
    var m := Observe(actions);
    if m.samples != [] {
      DeadlineCoversSample(Front(m.samples), Last(m.samples));
    }
  }

  /** A tick ends control exactly when the heartbeat is overdue or permission is gone; so never, with permission,
      while the latest renewal is younger than the latest round trip and one challenge interval. */
  lemma {:induction false} ControlLasts(actions: seq<Action>, tick: Action)
    requires tick.TickNow? && Enabled(Run(actions), tick) && Run(actions).state.epoch != 0
    ensures var s, s' := Run(actions).state, Step(Run(actions), tick).state;
            && s'.epoch == (if tick.permitted && tick.now - s.lastHeartbeat < Timeout(s.network) then s.epoch else 0)
            && (tick.permitted && tick.now - s.lastHeartbeat < Allowance(Observe(actions)) ==> s'.epoch == s.epoch)
  {
    DeadlineFollows(actions);
    hide Timeout, Allowance;
  }

  /** The oldest token an event may carry, in seconds. */
  function TokenLimit(s: State, event: Event): real {
    if !event.op.Heartbeat? then Timeout(s.network) + 0.3 else if s.epoch == 0 then 3.0 else Timeout(s.network)
  }

  /** An event that gets as far as the token test is rejected exactly when its token is unknown or too old. */
  lemma RejectedExactly(s: State, event: Event, now: real, w: World)
    ensures Process(s, event, now, w).verdict.Rejected? <==>
              && !s.blocked && s.connected && !Stale(s, event)
              && (event.lease in s.leases ==> !(0.0 <= now - s.leases[event.lease] < TokenLimit(s, event)))
  {
    hide ResetState, Injected;
  }

  /** Over every run: an input whose token is at most one challenge interval and one queue age older than the round
      trip measured last is never turned away for its token; nor is a heartbeat no older than that round trip. */
  lemma {:induction false} PromptTokensAccepted(actions: seq<Action>, event: Event, now: real, w: World)
    requires Observe(actions).samples != []
    requires var s := Run(actions).state;
             && event.lease in s.leases
             && 0.0 <= now - s.leases[event.lease]
                    <= Last(Observe(actions).samples) + (if event.op.Heartbeat? then 0.0 else 0.3)
    ensures !Process(Run(actions).state, event, now, w).verdict.Rejected?
  {
    EstimateIsMeasured(actions);
    DeadlineFollows(actions);
    RejectedExactly(Run(actions).state, event, now, w);
    var m := Observe(actions);
    assert Usable(m.samples[|m.samples| - 1]);
    hide Process, Timeout;
  }
}
