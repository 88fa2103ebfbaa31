/** Releases: what a reset leaves behind is exactly what it was refused, and exactly a refusal blocks input. */
module EngineReleases {
  import opened Sequences
  import opened Protocol
  import Timing
  import opened Engine
  import opened EngineSystem
  import opened EngineHolds

  /** Of what is to be released, the part whose release raises, and the part of that which stays down. */
  function Refusing(held: Held, f: Faults): Held {
    Held(held.keys * f.badKeys, held.buttons * f.badButtons)
  }

  function Sticking(held: Held, f: Faults): Held {
    Held(held.keys * f.downKeys, held.buttons * f.downButtons)
  }

  /** The event is injected first and stalls; the reset comes after it. */
  predicate Stalls(y: System, a: Action) {
    && a.ProcessNow? && Enabled(y, a) && VerdictOf(y, a).Stopped?
    && !(y.worker.event.op.Key? && y.worker.event.a in a.w.unsupported)
  }

  /** What is tracked when an action's reset begins. */
  function AtReset(y: System, a: Action): Held {
    if Stalls(y, a) then Struck(HeldBy(y.state), y.worker.event) else HeldBy(y.state)
  }

  /** How releases behave at the first attempt of an action that resets. */
  function FirstFaults(y: System, a: Action): Faults {
    match a
    case NetReset(f) => f
    case Connect(value, f) => f
    case Peer(f) => f
    case WorkerReset(f) => f
    case TickNow(now, nonce, permitted, f, retry) => if y.state.epoch != 0 then f else retry
    case ProcessNow(now, w) => w.faults
    case _ => Faults({}, {}, {}, {})
  }

  /** A tick that ends control tries what was refused once more. */
  predicate Retries(y: System, a: Action) { a.TickNow? && y.state.epoch != 0 }

  /** The releases the first attempt is refused. */
  function Refused(y: System, a: Action): Held { Refusing(AtReset(y, a), FirstFaults(y, a)) }

  /** What stays tracked, and what of it stays down. */
  function Remaining(y: System, a: Action): Held {
    if Retries(y, a) then Refusing(Refused(y, a), a.retry) else Refused(y, a)
  }

  function RemainingDown(y: System, a: Action): Held {
    Sticking(Remaining(y, a), if Retries(y, a) then a.retry else FirstFaults(y, a))
  }

  /** Some release of a tracked key or button was refused. */
  predicate EverRefused(actions: seq<Action>) {
    actions != [] &&
    var y := Run(Front(actions));
    EverRefused(Front(actions)) || (Resets(y, Last(actions)) && Refused(y, Last(actions)) != NOTHING)
  }

  /** What the latest reset was refused. */
  function Left(actions: seq<Action>): Held {
    if actions == [] then NOTHING
    else if Resets(Run(Front(actions)), Last(actions)) then Remaining(Run(Front(actions)), Last(actions))
    else Left(Front(actions))
  }

  function LeftDown(actions: seq<Action>): Held {
    if actions == [] then NOTHING
    else if Resets(Run(Front(actions)), Last(actions)) then RemainingDown(Run(Front(actions)), Last(actions))
    else LeftDown(Front(actions))
  }

  // ---- One reset ----

  /** A reset, said of what is held: the tracked controls are released except those refused. */
  lemma OneReset(s: State, f: Faults)
    requires s.osKeys <= s.keys && s.osButtons <= s.buttons
    ensures var s' := ResetState(s, f);
            && HeldBy(s') == Refusing(HeldBy(s), f) && DownBy(s') == Sticking(Refusing(HeldBy(s), f), f)
            && (s'.blocked <==> s.blocked || Refusing(HeldBy(s), f) != NOTHING)
            && s'.osKeys <= s'.keys && s'.osButtons <= s'.buttons && s'.epoch == 0
  {
    assert s.osKeys - s.keys == {} && s.osButtons - s.buttons == {};
  }

  lemma TickLeaves(y: System, a: Action)
    requires HoldInv(y.state) && a.TickNow? && Resets(y, a)
    ensures var s := Step(y, a).state;
            && HeldBy(s) == Remaining(y, a) && DownBy(s) == RemainingDown(y, a)
            && (s.blocked <==> y.state.blocked || Refused(y, a) != NOTHING)
  {
    hide ResetState;
    var s := Challenged(y.state, a.now, a.nonce);
    if y.state.epoch != 0 {
      OneReset(s, a.f);
      OneReset(ResetState(s, a.f), a.retry);
      assert Refusing(NOTHING, a.retry) == NOTHING && Sticking(NOTHING, a.retry) == NOTHING == Sticking(NOTHING, a.f);
    } else {
      OneReset(s, a.retry);
    }
  }

  /** A stalled injection is tracked before it is released. */
  lemma InjectedHeld(s: State, event: Event, w: World)
    requires s.osKeys <= s.keys && s.osButtons <= s.buttons && !(Injects(s, event) && w.raises)
    ensures HeldBy(Injected(s, event, w)) == Struck(HeldBy(s), event)
    ensures var s' := Injected(s, event, w); s'.osKeys <= s'.keys && s'.osButtons <= s'.buttons
    ensures DownBy(s) == HeldBy(s) ==> DownBy(Injected(s, event, w)) == HeldBy(Injected(s, event, w))
    ensures Injected(s, event, w).blocked == s.blocked
  {
  }

  lemma ProcessLeaves(y: System, a: Action)
    requires HoldInv(y.state) && a.ProcessNow? && Resets(y, a)
    ensures var s := Step(y, a).state;
            && HeldBy(s) == Remaining(y, a) && DownBy(s) == RemainingDown(y, a)
            && (s.blocked <==> y.state.blocked || Refused(y, a) != NOTHING)
  {
    hide ResetState, Injected;
    var s, e := y.state, y.worker.event;
    OneReset(s, a.w.faults);
    OneReset(s.(number := e.number), a.w.faults);
    if Stalls(y, a) {
      InjectedHeld(s.(number := e.number), e, a.w);
      OneReset(Injected(s.(number := e.number), e, a.w), a.w.faults);
    }
  }

  /** Every reset of every action: what stays tracked, what stays down, and whether input is blocked. */
  lemma ResetLeaves(y: System, a: Action)
    requires HoldInv(y.state) && Resets(y, a)
    ensures var s := Step(y, a).state;
            && HeldBy(s) == Remaining(y, a) && DownBy(s) == RemainingDown(y, a)
            && (s.blocked <==> y.state.blocked || Refused(y, a) != NOTHING)
  {
    var s := y.state;
    match a
    case NetReset(f) => OneReset(s, f);
    case Connect(value, f) =>
      OneReset(s.(connected := value, leases := map[], lastChallenge := NEVER, lastEcho := NEVER,
                  network := Timing.FRESH), f);
    case Peer(f) => OneReset(s, f);
    case WorkerReset(f) => OneReset(s, f);
    case TickNow(now, nonce, permitted, f, retry) => TickLeaves(y, a);
    case ProcessNow(now, w) => ProcessLeaves(y, a);
    case _ =>
  }

  // ---- Every run ----

  predicate ReleaseInv(actions: seq<Action>, y: System) {
    && (y.state.blocked <==> EverRefused(actions))
    && (y.state.epoch == 0 ==> HeldBy(y.state) == Left(actions) && DownBy(y.state) == LeftDown(actions))
    && (!y.state.blocked && !y.worker.Failing? ==> DownBy(y.state) == HeldBy(y.state))
  }

  /** An action without a reset leaves the block; without control nothing changes what is held; and under control
      what is down stays what is tracked, unless the injector raises. */
  lemma QuietHeld(y: System, a: Action)
    requires HoldInv(y.state) && !Resets(y, a)
    ensures var s, s' := y.state, Step(y, a).state;
            && s'.blocked == s.blocked && s'.epoch == s.epoch
            && (s.epoch == 0 ==> HeldBy(s') == HeldBy(s) && DownBy(s') == DownBy(s))
            && (DownBy(s) == HeldBy(s) && !Step(y, a).worker.Failing? ==> DownBy(s') == HeldBy(s'))
            && (y.worker.Failing? ==> Step(y, a).worker.Failing?)
  {
    EpochSteady(y, a);
    if Enabled(y, a) && a.ProcessNow? {
      ProcessQuiet(y.state, y.worker.event, a.now, a.w);
    }
    hide Process, ResetState;
  }

  lemma ProcessQuiet(s: State, event: Event, now: real, w: World)
    requires HoldInv(s) && !ResetVerdict(Process(s, event, now, w).verdict)
    ensures var o := Process(s, event, now, w);
            && (s.epoch == 0 ==> HeldBy(o.state) == HeldBy(s) && DownBy(o.state) == DownBy(s))
            && (DownBy(s) == HeldBy(s) && !o.verdict.Raised? ==> DownBy(o.state) == HeldBy(o.state))
  {
    if !(Injects(s.(number := event.number), event) && w.raises) {
      InjectedHeld(s.(number := event.number), event, w);
    }
    hide Injected, ResetState;
  }

  lemma ReleaseStep(before: seq<Action>, a: Action)
    requires HoldInv(Run(before).state) && ReleaseInv(before, Run(before))
    ensures ReleaseInv(before + [a], Run(before + [a]))
  {
    var y := Run(before);
    assert Front(before + [a]) == before;
    if Resets(y, a) {
      ResetLeaves(y, a);
    } else {
      QuietHeld(y, a);
    }
  }

  /** Over every interleaving and every pattern of failures: input is blocked if and only if some release of a
      tracked control has been refused; without control, what is still tracked, and what of it is still down, is
      exactly what the latest reset was refused; and while input is not blocked and no exception is being handled,
      the system holds down exactly what is tracked. */
  lemma {:induction false} BlockedExactly(actions: seq<Action>)
    ensures ReleaseInv(actions, Run(actions))
  {
    if actions != [] {
      BlockedExactly(Front(actions));
      HoldsTracked(Front(actions));
      ReleaseStep(Front(actions), Last(actions));
      assert Front(actions) + [Last(actions)] == actions;
    }
  }

  /** With no release ever refused, input is not blocked, whatever the injector raised; and without control
      nothing is tracked and nothing is down. */
  lemma {:induction false} NothingLeftBehind(actions: seq<Action>)
    requires !EverRefused(actions)
    ensures var s := Run(actions).state;
            !s.blocked && (s.epoch == 0 ==> HeldBy(s) == DownBy(s) == NOTHING)
  {
    BlockedExactly(actions);
    HoldsTracked(actions);
  }

  /** However much was refused before, a tick that finds or leaves no control lets go of everything whose release
      now works. */
  lemma {:induction false} TickLetsGo(actions: seq<Action>, tick: Action)
    requires tick.TickNow? && Enabled(Run(actions), tick)
    requires Step(Run(actions), tick).state.epoch == 0
    requires Refusing(HeldBy(Run(actions).state), tick.retry) == NOTHING
    ensures var s := Step(Run(actions), tick).state; HeldBy(s) == DownBy(s) == NOTHING
  {
    var y := Run(actions);
    HoldsTracked(actions);
    if Resets(y, tick) {
      ResetLeaves(y, tick);
      assert Remaining(y, tick) == NOTHING;
    } else {
      QuietHeld(y, tick);
    }
  }
}
