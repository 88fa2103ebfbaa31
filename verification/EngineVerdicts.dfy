/** What becomes of an event, said by conditions instead of by the order of the tests; and that a target offers
    challenges all the time. */
module EngineVerdicts {
  import opened Sequences
  import opened Protocol
  import opened Timing
  import opened Engine
  import opened EngineSystem
  import opened EngineTiming
  import Leases = EngineLeases

  /** Not blocked, connected, and of this session: an activation always, a calibration without control, and otherwise
      a new number of the epoch in control. */
  predicate Admitted(s: State, event: Event) {
    && !s.blocked && s.connected
    && (|| event.op.Activate?
        || ((event.op.Heartbeat? || event.op.Probe?) && event.epoch == 0 && s.epoch == 0)
        || (event.epoch == s.epoch != 0 && event.number > s.number))
  }

  predicate Presented(s: State, event: Event, now: real) {
    event.lease in s.leases && 0.0 <= now - s.leases[event.lease] < TokenLimit(s, event)
  }

  predicate Opens(s: State, event: Event, w: World) {
    event.epoch != 0 && event.epoch != s.lastEpoch && w.permitted
  }

  predicate Overdue(s: State, now: real) { now - s.lastHeartbeat >= Timeout(s.network) }

  /** The injector is called and raises. */
  predicate Fails(s: State, event: Event, w: World) {
    && w.raises
    && (|| event.op.Move? || event.op.Scroll?
        || (event.op.Key? && event.a !in w.unsupported && (event.b != 0 || event.a in s.keys))
        || (event.op.Button? && (event.b != 0 || event.a in s.buttons)))
  }

  predicate Unsupported(event: Event, w: World) { event.op.Key? && event.a in w.unsupported }

  /** Every verdict, exactly. */
  lemma VerdictsExactly(s: State, event: Event, now: real, w: World)
    requires SessionInv(s) && !event.op.Reset?
    ensures var v := Process(s, event, now, w).verdict;
            var admitted := Admitted(s, event) && Presented(s, event, now);
            var input := admitted && !event.op.Activate? && s.epoch != 0 && !Overdue(s, now);
            && (v.Dropped? <==> !Admitted(s, event))
            && (v.Rejected? <==> Admitted(s, event) && !Presented(s, event, now))
            && (v.Started? <==> admitted && event.op.Activate? && Opens(s, event, w))
            && (v.Refused? <==> admitted && event.op.Activate? && !Opens(s, event, w))
            && (v.Calibrated? <==> admitted && !event.op.Activate? && s.epoch == 0)
            && (v.Expired? <==> admitted && !event.op.Activate? && s.epoch != 0 && Overdue(s, now))
            && (v.Raised? <==> input && Fails(s, event, w))
            && (v.Stopped? <==> input && !event.op.Heartbeat?
                                && (Unsupported(event, w) || (w.stalled && !Fails(s, event, w))))
  {
    hide ResetState, Injected;
  }

  /** And what it leaves in control: a new epoch, none, or the one there was. */
  lemma EpochAfter(s: State, event: Event, now: real, w: World)
    requires SessionInv(s)
    ensures var o := Process(s, event, now, w);
            o.state.epoch == if o.verdict.Started? then event.epoch
                             else if ResetVerdict(o.verdict) then 0 else s.epoch
  {
    InjectedFrame(s.(number := event.number), event, w);
    hide Injected;
  }

  /** Every activation that is looked at is answered last of all: with its epoch activated, or with its epoch paused. */
  lemma ActivationsAnswered(s: State, event: Event, now: real, w: World)
    requires Admitted(s, event) && event.op.Activate?
    ensures var s' := Process(s, event, now, w).state;
            && s'.sent != []
            && Last(s'.sent) == if Presented(s, event, now) && Opens(s, event, w) then Engine.Activated(event.epoch)
                                else Engine.Paused(event.epoch)
  {
    hide ResetState;
  }

  // ---- Challenges ----

  lemma ProcessSends(s: State, event: Event, now: real, w: World)
    ensures s.sent <= Process(s, event, now, w).state.sent
  {
    InjectedFrame(s.(number := event.number), event, w);
    hide Injected;
  }

  lemma SentGrows(y: System, a: Action)
    ensures y.state.sent <= Step(y, a).state.sent
  {
    if Enabled(y, a) && a.ProcessNow? {
      ProcessSends(y.state, y.worker.event, a.now, a.w);
    }
    hide Process;
  }

  /** Every lease that can be presented has been sent as a challenge. */
  predicate AllSent(s: State) { forall n :: n in s.leases ==> Challenge(n) in s.sent }

  lemma AllSentStep(y: System, a: Action)
    requires AllSent(y.state)
    ensures AllSent(Step(y, a).state)
  {
    SentGrows(y, a);
    if Enabled(y, a) && a.TickNow? {
      Leases.TickLeases(y.state, a.now, a.nonce, a.permitted, a.f, a.retry);
      if ChallengeDue(y.state, a.now) {
        assert Last(Challenged(y.state, a.now, a.nonce).sent) == Challenge(a.nonce);
        TickSends(y.state, a.now, a.nonce, a.permitted, a.f, a.retry);
      }
    } else if Enabled(y, a) && !a.Connect? {
      Leases.LeasesSteady(y, a);
    }
    hide Tick;
  }

  lemma TickSends(s: State, now: real, nonce: nat, permitted: bool, f: Faults, retry: Faults)
    ensures Challenged(s, now, nonce).sent <= Tick(s, now, nonce, permitted, f, retry).sent
  {
  }

  lemma {:induction false} TokensWereSent(actions: seq<Action>)
    ensures AllSent(Run(actions).state)
  {
    if actions != [] {
      TokensWereSent(Front(actions));
      AllSentStep(Run(Front(actions)), Last(actions));
    }
  }

  /** The latest challenge is on record, unless none has been issued since the connection or the peer changed. */
  predicate LatestKept(s: State) {
    && (!s.connected ==> s.lastChallenge == NEVER)
    && (s.lastChallenge != NEVER ==> exists n :: n in s.leases && s.leases[n] == s.lastChallenge)
  }

  lemma LatestTick(s: State, now: real, nonce: nat)
    requires LatestKept(s)
    ensures LatestKept(Challenged(s, now, nonce))
    ensures s.connected ==> now - Challenged(s, now, nonce).lastChallenge < 0.2
  {
    if ChallengeDue(s, now) {
      assert Challenged(s, now, nonce).leases[nonce] == now;
    } else if s.lastChallenge != NEVER {
      var n :| n in s.leases && s.leases[n] == s.lastChallenge;
      assert n in Kept(s.leases, now);
    }
  }

  lemma CheckedSteady(s: State, now: real, permitted: bool, f: Faults, retry: Faults)
    ensures var s' := Checked(s, now, permitted, f, retry);
            s'.connected == s.connected && s'.lastChallenge == s.lastChallenge && s'.leases == s.leases
  {
  }

  lemma LatestStep(y: System, a: Action)
    requires LatestKept(y.state)
    ensures LatestKept(Step(y, a).state)
    ensures Enabled(y, a) && a.TickNow? && y.state.connected ==> a.now - Step(y, a).state.lastChallenge < 0.2
  {
    if Enabled(y, a) {
      match a
      case TickNow(now, nonce, permitted, f, retry) =>
        LatestTick(y.state, now, nonce);
        CheckedSteady(Challenged(y.state, now, nonce), now, permitted, f, retry);
        hide Challenged, Checked;
      case Connect(value, f) =>
      case Peer(f) =>
      case ProcessNow(now, w) => ProcessFrame(y.state, y.worker.event, now, w); hide Process;
      case _ =>
    }
  }

  lemma {:induction false} LatestAlways(actions: seq<Action>)
    ensures LatestKept(Run(actions).state)
  {
    if actions != [] {
      LatestAlways(Front(actions));
      LatestStep(Run(Front(actions)), Last(actions));
    }
  }

  /** In every run, each tick on a connection leaves a challenge that has been sent and is less than a fifth of a second
      old, so that a controller always has a fresh one to answer. */
  lemma {:induction false} TickOffersChallenge(actions: seq<Action>, tick: Action)
    requires tick.TickNow? && Enabled(Run(actions), tick) && Run(actions).state.connected
    ensures var s := Run(actions + [tick]).state;
            exists n :: n in s.leases && s.leases[n] > tick.now - 0.2 && Challenge(n) in s.sent
  {
    var all := actions + [tick];
    assert Front(all) == actions && Last(all) == tick;
    Leases.PruneAlways(actions);
    LatestAlways(actions);
    LatestStep(Run(actions), tick);
    TokensWereSent(all);
    var s := Run(all).state;
    assert s.lastChallenge != NEVER;
    var n :| n in s.leases && s.leases[n] == s.lastChallenge;
    assert Challenge(n) in s.sent;
    hide Step;
  }

  // ---- The connection ----

  /** What the network thread said last. */
  function LastSaid(actions: seq<Action>): bool {
    if actions == [] then false
    else if Last(actions).Connect? && Enabled(Run(Front(actions)), Last(actions)) then Last(actions).value
    else LastSaid(Front(actions))
  }

  lemma ConnectedStep(y: System, a: Action)
    ensures Step(y, a).state.connected == if a.Connect? && Enabled(y, a) then a.value else y.state.connected
  {
    if Enabled(y, a) && !a.Connect? {
      if a.ProcessNow? {
        ProcessFrame(y.state, y.worker.event, a.now, a.w);
      } else if a.TickNow? {
        TickFrame(y.state, a.now, a.nonce, a.permitted, a.f, a.retry);
      }
      hide Process, Tick;
    }
  }

  /** In every run the engine is connected exactly when the network thread said so last. */
  lemma {:induction false} ConnectedAsSaid(actions: seq<Action>)
    ensures Run(actions).state.connected == LastSaid(actions)
  {
    if actions != [] {
      ConnectedAsSaid(Front(actions));
      ConnectedStep(Run(Front(actions)), Last(actions));
    }
  }

  /** The first tick after the connection or the peer changed issues a challenge at once, however recent the last. */
  lemma {:induction false} ChangeGetsChallenge(actions: seq<Action>, change: Action, tick: Action)
    requires (change.Connect? && change.value) || (change.Peer? && Run(actions).state.connected)
    requires Enabled(Run(actions), change) && tick.TickNow? && Enabled(Step(Run(actions), change), tick)
    ensures var s := Step(Step(Run(actions), change), tick).state;
            && tick.nonce in s.leases && s.leases[tick.nonce] == tick.now && Challenge(tick.nonce) in s.sent
  {
    Leases.PruneAlways(actions);
    var y := Step(Run(actions), change);
    assert y.state.connected && y.state.lastChallenge == NEVER && y.workClock >= 0.0;
    var s1 := Challenged(y.state, tick.now, tick.nonce);
    assert Last(s1.sent) == Challenge(tick.nonce);
    TickSends(y.state, tick.now, tick.nonce, tick.permitted, tick.f, tick.retry);
    Leases.TickLeases(y.state, tick.now, tick.nonce, tick.permitted, tick.f, tick.retry);
    hide Tick;
  }
}
