/** Hold tracking: nothing the engine pressed is ever forgotten, however injection and release fail. */
module EngineHolds {
  import opened Sequences
  import opened Protocol
  import opened Timing
  import opened Engine
  import opened EngineSystem

  /** Whatever the system may hold down is tracked; and with no control and no failed release behind
      us, nothing is held at all. */
  predicate HoldInv(s: State) {
    && s.osKeys <= s.keys && s.osButtons <= s.buttons
    && (s.epoch == 0 && !s.blocked ==> s.keys == {} && s.buttons == {})
  }

  lemma ResetHolds(s: State, f: Faults)
    requires s.osKeys <= s.keys && s.osButtons <= s.buttons
    ensures HoldInv(ResetState(s, f))
    ensures ResetState(s, f).keys <= s.keys && ResetState(s, f).buttons <= s.buttons
    ensures ResetState(s, f).blocked || (ResetState(s, f).keys == {} && ResetState(s, f).buttons == {})
  {
  }

  lemma TransitionHolds(tracked: set<int>, held: set<int>, code: int, down: bool, w: World)
    requires held <= tracked
    ensures var t := Transition(tracked, held, code, down, w); t.1 <= t.0
  {
  }

  lemma InjectHolds(s: State, event: Event, w: World)
    requires HoldInv(s) && s.epoch != 0
    ensures HoldInv(Inject(s, event, w).state)
  {
    TransitionHolds(s.keys, s.osKeys, event.a, event.b != 0, w);
    TransitionHolds(s.buttons, s.osButtons, event.a, event.b != 0, w);
    ResetHolds(s, w.faults);
    ResetHolds(Injected(s, event, w), w.faults);
  }

  lemma ProcessHolds(s: State, event: Event, now: real, w: World)
    requires HoldInv(s)
    ensures HoldInv(Process(s, event, now, w).state)
  {
    ResetHolds(s, w.faults);
    if s.epoch != 0 {
      InjectHolds(s.(number := event.number), event, w);
      ResetHolds(s.(number := event.number), w.faults);
    }
  }

  lemma TickHolds(s: State, now: real, nonce: nat, permitted: bool, f: Faults, retry: Faults)
    requires HoldInv(s)
    ensures HoldInv(Tick(s, now, nonce, permitted, f, retry))
  {
    var s1 := Challenged(s, now, nonce);
    ResetHolds(s1, f);
    ResetHolds(s1, retry);
    ResetHolds(ResetState(s1, f), retry);
  }

  lemma HoldStep(y: System, a: Action)
    requires HoldInv(y.state)
    ensures HoldInv(Step(y, a).state)
  {
    var s := y.state;
    if Enabled(y, a) {
      match a
      case Offer(event, at) =>
      case NetReset(f) => ResetHolds(s, f);
      case Connect(value, f) =>
        ResetHolds(s.(connected := value, leases := map[], lastChallenge := NEVER, lastEcho := NEVER,
                      network := FRESH), f);
      case Peer(f) => ResetHolds(s, f);
      case TickNow(now, nonce, permitted, f, retry) => TickHolds(s, now, nonce, permitted, f, retry);
      case PopNow(now) =>
      case ProcessNow(now, w) => ProcessHolds(s, y.worker.event, now, w);
      case WorkerReset(f) => ResetHolds(s, f);
    }
  }

  /** In every reachable state, under every interleaving and every injection failure. */
  lemma {:induction false} HoldsTracked(actions: seq<Action>)
    ensures HoldInv(Run(actions).state)
  {
    if actions != [] {
      HoldsTracked(Front(actions));
      HoldStep(Run(Front(actions)), Last(actions));
    }
  }

  /** An activation begins with nothing held, unless a release has failed. */
  lemma {:induction false} ActivationStartsClean(actions: seq<Action>, a: Action)
    requires Starts(Run(actions), a)
    ensures var s := Step(Run(actions), a).state;
            s.blocked || (s.keys == s.buttons == s.osKeys == s.osButtons == {})
  {
    HoldsTracked(actions);
    ResetHolds(Run(actions).state, a.w.faults);
  }

  predicate OnlyReleased(s: State, s': State) {
    && s'.blocked && s'.keys <= s.keys && s'.buttons <= s.buttons
    && (s'.epoch == 0 || s'.epoch == s.epoch) && s'.number == s.number && s'.calls == s.calls
  }

  lemma BlockedStep(y: System, a: Action)
    requires y.state.blocked
    ensures OnlyReleased(y.state, Step(y, a).state)
  {
    if Enabled(y, a) && a.ProcessNow? {
      assert Process(y.state, y.worker.event, a.now, a.w) == Outcome(y.state, Dropped);
    }
  }

  lemma OnlyReleasedTwice(s: State, s1: State, s2: State)
    requires OnlyReleased(s, s1) && OnlyReleased(s1, s2)
    ensures OnlyReleased(s, s2)
  {
  }

  /** A failed release blocks input for good: whatever happens afterwards, no event reaches the injector, so
      that only the releases of resets remain; no new control is granted, and the tracked holds only shrink. */
  lemma {:induction false} BlockedOnlyReleases(before: seq<Action>, after: seq<Action>)
    requires Run(before).state.blocked
    ensures OnlyReleased(Run(before).state, Run(before + after).state)
  {
    if after == [] {
      assert before + after == before;
    } else {
      BlockedOnlyReleases(before, Front(after));
      var y := Run(before + Front(after));
      assert Run(before + after) == Step(y, Last(after)) by {
        assert Front(before + after) == before + Front(after);
      }
      BlockedStep(y, Last(after));
      OnlyReleasedTwice(Run(before).state, y.state, Step(y, Last(after)).state);
    }
  }
}
