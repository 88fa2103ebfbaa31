/** The target's safety engine, src/remoteinput/safety.py: what one locked section does to the state. */
module Engine {
  import opened Protocol
  import opened Queueing
  import opened Timing

  /** Messages the engine emits towards the controller. */
  datatype Message =
    | Challenge(nonce: nat)
    | Activated(epoch: nat)
    | Paused(epoch: nat)
    | Ack(op: Op, epoch: nat, number: nat, stamp: nat)

  /** The engine's fields, what the operating system holds down on its behalf, the events it was asked to
      inject, and the messages emitted. */
  datatype State = State(
    queue: Queue,
    leases: map<nat, real>,
    lastChallenge: real,
    lastHeartbeat: real,
    lastEcho: real,
    network: Estimate,
    epoch: nat,
    lastEpoch: nat,
    number: nat,
    keys: set<int>,
    buttons: set<int>,
    blocked: bool,
    connected: bool,
    osKeys: set<int>,
    osButtons: set<int>,
    calls: seq<Event>,
    sent: seq<Message>)

  /** Which releases the operating system refuses, and which of those leave the key or button down. */
  datatype Faults = Faults(badKeys: set<int>, downKeys: set<int>, badButtons: set<int>, downButtons: set<int>)

  /** Everything the outside decides during one event: permission, unsupported keys, whether the
      injection raises (and then what it leaves down), whether it stalls, how releases behave. */
  datatype World = World(permitted: bool, unsupported: set<int>, raises: bool, leavesDown: bool,
                         stalled: bool, faults: Faults)

  const NEVER: real := -1_000_000_000.0
  const HISTORY: real := TIMEOUT_MAX + CHALLENGE_INTERVAL + MAX_QUEUE_AGE + 1.0

  const INITIAL: State := State(EMPTY, map[], NEVER, 0.0, NEVER, FRESH, 0, 0, 0, {}, {}, false, false, {}, {}, [], [])

  /** What the engine has pressed and not released, and what of it the system holds down. */
  function HeldBy(s: State): Held { Held(s.keys, s.buttons) }

  function DownBy(s: State): Held { Held(s.osKeys, s.osButtons) }

  function Send(s: State, m: Message): State { s.(sent := s.sent + [m]) }

  /** Every tracked key and button is released; those whose release raised stay tracked and block input. */
  function ResetState(s: State, f: Faults): State {
    s.(epoch := 0,
       queue := EMPTY,
       keys := s.keys * f.badKeys,
       buttons := s.buttons * f.badButtons,
       osKeys := (s.osKeys - s.keys) + s.keys * f.badKeys * f.downKeys,
       osButtons := (s.osButtons - s.buttons) + s.buttons * f.badButtons * f.downButtons,
       blocked := s.blocked || s.keys * f.badKeys != {} || s.buttons * f.badButtons != {},
       sent := if s.epoch != 0 then s.sent + [Paused(s.epoch)] else s.sent)
  }

  function SetConnected(s: State, value: bool, f: Faults): State {
    ResetState(s.(connected := value, leases := map[], lastChallenge := NEVER, lastEcho := NEVER, network := FRESH), f)
  }

  function PeerChanged(s: State, f: Faults): State {
    ResetState(s, f).(network := FRESH, lastEcho := NEVER, lastChallenge := NEVER)
  }

  predicate ValidLease(leases: map<nat, real>, nonce: nat, now: real, limit: real) {
    nonce in leases && 0.0 <= now - leases[nonce] < limit
  }

  predicate HeartbeatExpired(s: State, now: real) {
    s.epoch != 0 && now - s.lastHeartbeat >= Timeout(s.network)
  }

  function ObserveHeartbeat(s: State, event: Event, now: real): State
    requires event.lease in s.leases
  {
    var issued := s.leases[event.lease];
    if issued <= s.lastEcho then s
    else
      s.(lastEcho := issued, network := Observed(s.network, now - issued),
         lastHeartbeat := if s.epoch != 0 then now else s.lastHeartbeat)
  }

  function RejectStale(s: State, event: Event, f: Faults): State {
    var s' := ResetState(s, f);
    if event.op.Activate? then Send(s', Paused(event.epoch)) else s'
  }

  function Kept(leases: map<nat, real>, now: real): map<nat, real> {
    map n | n in leases && now - leases[n] < HISTORY :: leases[n]
  }

  predicate ChallengeDue(s: State, now: real) {
    s.connected && now - s.lastChallenge >= CHALLENGE_INTERVAL
  }

  /** tick, first part: prune old leases and issue a challenge when one is due. */
  function Challenged(s: State, now: real, nonce: nat): State {
    var s1 := s.(leases := Kept(s.leases, now));
    if ChallengeDue(s, now) then
      Send(s1.(leases := s1.leases[nonce := now], lastChallenge := now), Challenge(nonce))
    else s1
  }

  /** tick, second part: expiry, lost permission, and the retry of releases that failed. */
  function Checked(s: State, now: real, permitted: bool, f: Faults, retry: Faults): State {
    var s1 := if HeartbeatExpired(s, now) || (s.epoch != 0 && !permitted) then ResetState(s, f) else s;
    if s1.epoch == 0 && (s1.keys != {} || s1.buttons != {}) then ResetState(s1, retry) else s1
  }

  function Tick(s: State, now: real, nonce: nat, permitted: bool, f: Faults, retry: Faults): State {
    Checked(Challenged(s, now, nonce), now, permitted, f, retry)
  }

  /** What became of a popped event. */
  datatype Verdict = Dropped | Rejected | Refused | Started | Calibrated | Expired | Handled | Stopped | Raised

  datatype Outcome = Outcome(state: State, verdict: Verdict)

  /** An old, foreign or duplicate frame: ignored without touching the session. */
  predicate Stale(s: State, event: Event) {
    !event.op.Activate? &&
    if (event.op.Heartbeat? || event.op.Probe?) && event.epoch == 0 then s.epoch != 0
    else event.epoch != s.epoch || s.epoch == 0 || event.number <= s.number
  }

  function LeaseLimit(s: State, event: Event): real {
    if event.op.Heartbeat? then (if s.epoch == 0 then TIMEOUT_MAX else Timeout(s.network))
    else InputTimeout(s.network)
  }

  function Activation(s: State, event: Event, now: real, w: World): Outcome {
    if event.epoch == 0 || event.epoch == s.lastEpoch || !w.permitted then
      Outcome(Send(s, Paused(event.epoch)), Refused)
    else
      var s' := ResetState(s, w.faults).(epoch := event.epoch, lastEpoch := event.epoch, number := event.number,
                                    lastHeartbeat := now);
      Outcome(Send(s', Activated(event.epoch)), Started)
  }

  /** Press or release one tracked control: (tracked, held by the system). A release of a control
      that is not tracked does nothing. */
  function Transition(tracked: set<int>, held: set<int>, code: int, down: bool, w: World): (set<int>, set<int>) {
    if down then
      (tracked + {code}, if w.raises && !w.leavesDown then held - {code} else held + {code})
    else if code in tracked then
      if w.raises then (tracked, if w.leavesDown then held + {code} else held - {code})
      else (tracked - {code}, held - {code})
    else (tracked, held)
  }

  /** Whether handling the event calls the injector at all. */
  predicate Injects(s: State, event: Event) {
    match event.op
    case Key => event.b != 0 || event.a in s.keys
    case Button => event.b != 0 || event.a in s.buttons
    case Move => true
    case Scroll => true
    case _ => false
  }

  function Injected(s: State, event: Event, w: World): State {
    var s1 := if Injects(s, event) then s.(calls := s.calls + [event]) else s;
    match event.op
    case Key =>
      var t := Transition(s.keys, s.osKeys, event.a, event.b != 0, w);
      s1.(keys := t.0, osKeys := t.1)
    case Button =>
      var t := Transition(s.buttons, s.osButtons, event.a, event.b != 0, w);
      s1.(buttons := t.0, osButtons := t.1)
    case _ => s1
  }

  function Acknowledged(s: State, event: Event): State {
    if event.op.Probe? || event.number % 32 == 0 then
      Send(s, Ack(event.op, event.epoch, event.number, event.stamp))
    else s
  }

  function Inject(s: State, event: Event, w: World): Outcome {
    if event.op.Key? && event.a in w.unsupported then Outcome(ResetState(s, w.faults), Stopped)
    else
      var s1 := Injected(s, event, w);
      if Injects(s, event) && w.raises then Outcome(s1, Raised)
      else if w.stalled then Outcome(Acknowledged(ResetState(s1, w.faults), event), Stopped)
      else Outcome(Acknowledged(s1, event), Handled)
  }

  /** process_one after the pop: the same tests, in the same order, under the engine's lock. (The test
      the source repeats at lines 186-187 cannot fire: lines 154-159 and 180-185 leave nothing for it.) */
  function Process(s: State, event: Event, now: real, w: World): Outcome {
    if s.blocked || !s.connected || Stale(s, event) then Outcome(s, Dropped)
    else if !ValidLease(s.leases, event.lease, now, LeaseLimit(s, event)) then
      Outcome(RejectStale(s, event, w.faults), Rejected)
    else if event.op.Activate? then Activation(s, event, now, w)
    else if event.op.Probe? && s.epoch == 0 then
      Outcome(Send(s, Ack(event.op, event.epoch, event.number, event.stamp)), Calibrated)
    else if event.op.Heartbeat? && s.epoch == 0 then Outcome(ObserveHeartbeat(s, event, now), Calibrated)
    else
      var s1 := s.(number := event.number);
      if HeartbeatExpired(s1, now) then Outcome(ResetState(s1, w.faults), Expired)
      else if event.op.Heartbeat? then Outcome(ObserveHeartbeat(s1, event, now), Handled)
      else Inject(s1, event, w)
  }

  /** process_one as the worker runs it when nothing intervenes: pop, process, reset after an exception. */
  function ProcessOne(s: State, popAt: real, now: real, w: World, after: Faults): State {
    var r := PopResult(s.queue, popAt, LIMITS);
    var s1 := s.(queue := AfterPop(s.queue, popAt, LIMITS));
    match r
    case Nothing => s1
    case Overloaded => ResetState(s1, after)
    case Item(event, age) =>
      var o := Process(s1, event, now, w);
      if o.verdict.Raised? then ResetState(o.state, after) else o.state
  }

  /** receive as the network thread runs it when nothing intervenes. */
  function Receive(s: State, event: Event, now: real, f: Faults): State {
    if event.op.Reset? then ResetState(s, f)
    else
      var s1 := s.(queue := Put(s.queue, event, now, LIMITS));
      if s1.queue.failed then ResetState(s1, f) else s1
  }
}
