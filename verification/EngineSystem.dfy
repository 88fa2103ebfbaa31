/** The engine under its two threads. Each action is one section that runs without interruption: the
    network thread puts into the queue or resets, the worker ticks, pops, processes what it holds, or
    resets after an exception. Between any two of them the other thread may act. */
module EngineSystem {
  import opened Sequences
  import opened Protocol
  import opened Queueing
  import opened Engine

  /** Where the worker is: between events, holding a popped event outside the lock, or owing the reset
      that follows an exception (from the pop, or from injecting the event it held). */
  datatype Worker = Idle | Holding(event: Event) | Failing

  /** `owes`: the network thread saw its put refused and still has to reset. The clocks are the last
      reading of each thread. */
  datatype System = System(state: State, worker: Worker, owes: bool, netClock: real, workClock: real)

  datatype Action =
    | Offer(event: Event, at: real)
    | NetReset(f: Faults)
    | Connect(value: bool, f: Faults)
    | Peer(f: Faults)
    | TickNow(now: real, nonce: nat, permitted: bool, f: Faults, retry: Faults)
    | PopNow(now: real)
    | ProcessNow(now: real, w: World)
    | WorkerReset(f: Faults)

  const START: System := System(INITIAL, Idle, false, 0.0, 0.0)

  predicate Enabled(y: System, a: Action) {
    match a
    case Offer(event, at) => !y.owes && !event.op.Reset? && at >= y.netClock
    case NetReset(f) => true
    case Connect(value, f) => !y.owes
    case Peer(f) => !y.owes
    case TickNow(now, nonce, permitted, f, retry) => y.worker.Idle? && now >= y.workClock
    case PopNow(now) => y.worker.Idle? && now >= y.workClock
    case ProcessNow(now, w) => y.worker.Holding? && now >= y.workClock
    case WorkerReset(f) => y.worker.Failing?
  }

  /** An action that is not possible changes nothing, so every sequence of actions is a run. */
  function Step(y: System, a: Action): System {
    if !Enabled(y, a) then y
    else
      match a
      case Offer(event, at) =>
        var q := Put(y.state.queue, event, at, LIMITS);
        y.(state := y.state.(queue := q), owes := q.failed, netClock := at)
      case NetReset(f) => y.(state := ResetState(y.state, f), owes := false)
      case Connect(value, f) => y.(state := SetConnected(y.state, value, f))
      case Peer(f) => y.(state := PeerChanged(y.state, f))
      case TickNow(now, nonce, permitted, f, retry) =>
        y.(state := Tick(y.state, now, nonce, permitted, f, retry), workClock := now)
      case PopNow(now) =>
        var r := PopResult(y.state.queue, now, LIMITS);
        y.(state := y.state.(queue := AfterPop(y.state.queue, now, LIMITS)), workClock := now,
           worker := match r case Nothing => Idle case Overloaded => Failing case Item(event, age) => Holding(event))
      case ProcessNow(now, w) =>
        var o := Process(y.state, y.worker.event, now, w);
        y.(state := o.state, workClock := now, worker := if o.verdict.Raised? then Failing else Idle)
      case WorkerReset(f) => y.(state := ResetState(y.state, f), worker := Idle)
  }

  function Run(actions: seq<Action>): System {
    if actions == [] then START else Step(Run(Front(actions)), Last(actions))
  }

  /** The verdict of a possible ProcessNow. */
  function VerdictOf(y: System, a: Action): Verdict
    requires a.ProcessNow? && Enabled(y, a)
  {
    Process(y.state, y.worker.event, a.now, a.w).verdict
  }

  /** Whether the action resets the engine. */
  predicate Resets(y: System, a: Action) {
    Enabled(y, a) &&
    match a
    case NetReset(f) => true
    case Connect(value, f) => true
    case Peer(f) => true
    case WorkerReset(f) => true
    case TickNow(now, nonce, permitted, f, retry) =>
      || HeartbeatExpired(y.state, now)
      || (y.state.epoch != 0 && !permitted)
      || (y.state.epoch == 0 && (y.state.keys != {} || y.state.buttons != {}))
    case ProcessNow(now, w) =>
      var v := VerdictOf(y, a);
      v.Rejected? || v.Started? || v.Expired? || v.Stopped?
    case _ => false
  }

  /** Whether the action starts a new activation. */
  predicate Starts(y: System, a: Action) {
    a.ProcessNow? && Enabled(y, a) && VerdictOf(y, a).Started?
  }

  /** What a reset leaves: no epoch and an empty queue, unless it is the reset that opens an activation. */
  lemma ResetEffect(y: System, a: Action)
    requires Resets(y, a)
    ensures Step(y, a).state.queue == EMPTY
    ensures Step(y, a).state.epoch != 0 <==> Starts(y, a)
  {
  }

  predicate ResetVerdict(v: Verdict) { v.Rejected? || v.Started? || v.Expired? || v.Stopped? }

  /** Fields that processing an event leaves alone; all of the session too, when it does not reset. */
  predicate Framed(s: State, o: Outcome) {
    && o.state.leases == s.leases && o.state.lastChallenge == s.lastChallenge
    && o.state.connected == s.connected
    && (o.verdict.Started? || s.number <= o.state.number)
    && (!ResetVerdict(o.verdict) ==>
          && o.state.epoch == s.epoch && o.state.lastEpoch == s.lastEpoch
          && o.state.blocked == s.blocked && o.state.queue == s.queue)
  }

  lemma InjectedFrame(s: State, event: Event, w: World)
    ensures var s1 := Injected(s, event, w);
            s1 == s.(keys := s1.keys, buttons := s1.buttons, osKeys := s1.osKeys, osButtons := s1.osButtons,
                     calls := s1.calls)
  {
  }

  lemma InjectFrame(s: State, event: Event, w: World)
    ensures Framed(s, Inject(s, event, w))
  {
    var s1 := Injected(s, event, w);
    InjectedFrame(s, event, w);
    assert s1.leases == s.leases && s1.lastChallenge == s.lastChallenge && s1.connected == s.connected
           && s1.number == s.number;
    var o := Inject(s, event, w);
    if o.verdict.Stopped? {
      assert o.state.leases == s.leases && o.state.lastChallenge == s.lastChallenge
             && o.state.connected == s.connected && o.state.number == s.number;
    } else {
      assert o.state == s1 || o.state == Acknowledged(s1, event);
    }
  }

  lemma ProcessFrame(s: State, event: Event, now: real, w: World)
    ensures Framed(s, Process(s, event, now, w))
  {
    InjectFrame(s.(number := event.number), event, w);
  }

  lemma TickFrame(s: State, now: real, nonce: nat, permitted: bool, f: Faults, retry: Faults)
    ensures var s' := Tick(s, now, nonce, permitted, f, retry);
            s'.number == s.number && s'.connected == s.connected && s'.lastEpoch == s.lastEpoch
  {
  }

  /** Only resets change the epoch. */
  lemma EpochSteady(y: System, a: Action)
    requires !Resets(y, a)
    ensures Step(y, a).state.epoch == y.state.epoch
    ensures Step(y, a).state.lastEpoch == y.state.lastEpoch
    ensures Step(y, a).state.connected == y.state.connected
    ensures Step(y, a).state.blocked == y.state.blocked
    ensures a.ProcessNow? ==> Step(y, a).state.queue == y.state.queue
  {
    if Enabled(y, a) && a.ProcessNow? {
      ProcessFrame(y.state, y.worker.event, a.now, a.w);
    }
  }

  /** Sequence numbers only fall when an activation sets a new start. */
  lemma NumberGrows(y: System, a: Action)
    requires !Starts(y, a)
    ensures y.state.number <= Step(y, a).state.number
  {
    if Enabled(y, a) {
      match a
      case ProcessNow(now, w) => ProcessFrame(y.state, y.worker.event, now, w);
      case TickNow(now, nonce, permitted, f, retry) => TickFrame(y.state, now, nonce, permitted, f, retry);
      case _ =>
    }
  }

  /** Control exists only on a live connection, and always under the newest epoch. */
  predicate SessionInv(s: State) {
    s.epoch != 0 ==> s.connected && s.lastEpoch == s.epoch
  }

  lemma SessionStep(y: System, a: Action)
    requires SessionInv(y.state)
    ensures SessionInv(Step(y, a).state)
  {
    if Resets(y, a) {
      ResetEffect(y, a);
    } else {
      EpochSteady(y, a);
    }
  }

  lemma {:induction false} SessionAlways(actions: seq<Action>)
    ensures SessionInv(Run(actions).state)
  {
    if actions != [] {
      SessionAlways(Front(actions));
      SessionStep(Run(Front(actions)), Last(actions));
    }
  }

  // ---- Uninterrupted turns are runs of steps ----

  function WorkerTurn(y: System, popAt: real, now: real, w: World, after: Faults): System {
    var y1 := Step(y, PopNow(popAt));
    var y2 := if y1.worker.Holding? then Step(y1, ProcessNow(now, w)) else y1;
    if y2.worker.Failing? then Step(y2, WorkerReset(after)) else y2
  }

  function NetworkTurn(y: System, event: Event, now: real, f: Faults): System {
    if event.op.Reset? then Step(y, NetReset(f))
    else
      var y1 := Step(y, Offer(event, now));
      if y1.owes then Step(y1, NetReset(f)) else y1
  }

  /** process_one and receive, run without interruption, are these steps in sequence: what holds of every run
      holds of the objects' methods. */
  lemma TurnsAreSteps(y: System, event: Event, popAt: real, now: real, w: World, f: Faults)
    ensures y.worker.Idle? && y.workClock <= popAt <= now ==>
              && WorkerTurn(y, popAt, now, w, f).state == ProcessOne(y.state, popAt, now, w, f)
              && WorkerTurn(y, popAt, now, w, f).worker.Idle?
    ensures !y.owes && y.netClock <= now ==>
              && NetworkTurn(y, event, now, f).state == Receive(y.state, event, now, f)
              && !NetworkTurn(y, event, now, f).owes
  {
    hide Process, ResetState, Put;
  }
}
