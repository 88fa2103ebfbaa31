/** What the controller can conclude from the engine's messages: activations are bracketed by pauses. */
module EngineMessages {
  import opened Sequences
  import opened Protocol
  import opened Timing
  import opened Engine
  import opened EngineSystem

  datatype Session = Never | Active(epoch: nat) | Closed(epoch: nat)

  /** The newest activation announced so far, and whether a pause for it has been announced since. */
  function Reading(ms: seq<Message>): Session {
    if ms == [] then Never
    else
      var before := Reading(Front(ms));
      match Last(ms)
      case Activated(epoch) => Active(epoch)
      case Paused(epoch) => if before == Active(epoch) then Closed(epoch) else before
      case _ => before
  }

  /** No activation is announced while an earlier one is open, nor with the epoch of the last one. */
  predicate Bracketed(ms: seq<Message>) {
    ms == [] ||
    (Bracketed(Front(ms)) &&
     (Last(ms).Activated? ==>
       var before := Reading(Front(ms)); before.Never? || (before.Closed? && before.epoch != Last(ms).epoch)))
  }

  predicate LogInv(sent: seq<Message>, epoch: nat, lastEpoch: nat) {
    && Bracketed(sent)
    && (epoch != 0 ==> lastEpoch == epoch)
    && match Reading(sent)
       case Never => lastEpoch == 0 && epoch == 0
       case Active(e) => e != 0 && epoch == e && lastEpoch == e
       case Closed(e) => lastEpoch == e
  }

  predicate MessageInv(s: State) {
    LogInv(s.sent, s.epoch, s.lastEpoch)
  }

  lemma SendKeeps(s: State, m: Message)
    requires MessageInv(s) && !m.Activated?
    ensures MessageInv(Send(s, m))
  {
    assert Front(s.sent + [m]) == s.sent;
  }

  lemma ResetKeeps(s: State, f: Faults)
    requires MessageInv(s)
    ensures MessageInv(ResetState(s, f)) && !Reading(ResetState(s, f).sent).Active?
    ensures ResetState(s, f).epoch == 0 && ResetState(s, f).lastEpoch == s.lastEpoch
  {
    assert Front(s.sent + [Paused(s.epoch)]) == s.sent;
  }

  lemma ActivationKeeps(s: State, event: Event, now: real, w: World)
    requires MessageInv(s)
    ensures MessageInv(Activation(s, event, now, w).state)
  {
    SendKeeps(s, Paused(event.epoch));
    ResetKeeps(s, w.faults);
    var r := ResetState(s, w.faults);
    assert Front(r.sent + [Activated(event.epoch)]) == r.sent;
  }

  lemma AckKeeps(s: State, event: Event)
    requires MessageInv(s)
    ensures MessageInv(Acknowledged(s, event))
  {
    SendKeeps(s, Ack(event.op, event.epoch, event.number, event.stamp));
  }

  lemma InjectKeeps(s: State, event: Event, w: World)
    requires MessageInv(s)
    ensures MessageInv(Inject(s, event, w).state)
  {
    var s1 := Injected(s, event, w);
    InjectedFrame(s, event, w);
    if event.op.Key? && event.a in w.unsupported {
      ResetKeeps(s, w.faults);
    } else if w.stalled {
      ResetKeeps(s1, w.faults);
      AckKeeps(ResetState(s1, w.faults), event);
    } else {
      AckKeeps(s1, event);
    }
  }

  lemma ProcessKeeps(s: State, event: Event, now: real, w: World)
    requires MessageInv(s)
    ensures MessageInv(Process(s, event, now, w).state)
  {
    var s1 := s.(number := event.number);
    ResetKeeps(s, w.faults);
    SendKeeps(ResetState(s, w.faults), Paused(event.epoch));
    ActivationKeeps(s, event, now, w);
    SendKeeps(s, Ack(event.op, event.epoch, event.number, event.stamp));
    ResetKeeps(s1, w.faults);
    InjectKeeps(s1, event, w);
    hide ResetState, Activation, Inject, Bracketed, Reading, ObserveHeartbeat;
    if event.lease in s.leases {
      HeartbeatFrame(s, event, now);
      HeartbeatFrame(s1, event, now);
    }
  }

  lemma HeartbeatFrame(s: State, event: Event, now: real)
    requires event.lease in s.leases
    ensures var t := ObserveHeartbeat(s, event, now);
            t.sent == s.sent && t.epoch == s.epoch && t.lastEpoch == s.lastEpoch
  {
  }

  lemma TickKeeps(s: State, now: real, nonce: nat, permitted: bool, f: Faults, retry: Faults)
    requires MessageInv(s)
    ensures MessageInv(Tick(s, now, nonce, permitted, f, retry))
  {
    SendKeeps(s.(leases := Kept(s.leases, now)[nonce := now], lastChallenge := now), Challenge(nonce));
    var s1 := Challenged(s, now, nonce);
    assert MessageInv(s1);
    ResetKeeps(s1, f);
    ResetKeeps(s1, retry);
    ResetKeeps(ResetState(s1, f), retry);
  }

  lemma MessageStep(y: System, a: Action)
    requires MessageInv(y.state)
    ensures MessageInv(Step(y, a).state)
  {
    var s := y.state;
    if Enabled(y, a) {
      match a
      case Offer(event, at) =>
      case NetReset(f) => ResetKeeps(s, f);
      case Connect(value, f) =>
        ResetKeeps(s.(connected := value, leases := map[], lastChallenge := NEVER, lastEcho := NEVER,
                      network := FRESH), f);
      case Peer(f) => ResetKeeps(s, f);
      case TickNow(now, nonce, permitted, f, retry) => TickKeeps(s, now, nonce, permitted, f, retry);
      case PopNow(now) =>
      case ProcessNow(now, w) => ProcessKeeps(s, y.worker.event, now, w);
      case WorkerReset(f) => ResetKeeps(s, f);
    }
  }

  lemma {:induction false} MessagesAlways(actions: seq<Action>)
    ensures MessageInv(Run(actions).state)
  {
    if actions != [] {
      MessagesAlways(Front(actions));
      MessageStep(Run(Front(actions)), Last(actions));
    }
  }

  // ---- The same, read off the log itself ----

  lemma {:induction false} BracketedPrefix(ms: seq<Message>, j: nat)
    requires Bracketed(ms) && j <= |ms|
    ensures Bracketed(ms[..j])
  {
    if j < |ms| {
      BracketedPrefix(Front(ms), j);
      assert Front(ms)[..j] == ms[..j];
    } else {
      assert ms[..j] == ms;
    }
  }

  lemma {:induction false} ReadingAfter(ms: seq<Message>, i: nat, j: nat)
    requires i < j <= |ms| && ms[i].Activated?
    requires forall k :: i < k < j ==> !ms[k].Activated?
    ensures var r := Reading(ms[..j]);
            || r == Active(ms[i].epoch)
            || (r == Closed(ms[i].epoch) && exists k :: i < k < j && ms[k] == Paused(ms[i].epoch))
  {
    assert Front(ms[..j]) == ms[..j - 1] && Last(ms[..j]) == ms[j - 1];
    if j > i + 1 {
      ReadingAfter(ms, i, j - 1);
      if ms[j - 1] == Paused(ms[i].epoch) && Reading(ms[..j - 1]) == Active(ms[i].epoch) {
        assert i < j - 1 < j;
      }
    }
  }

  predicate Consecutive(ms: seq<Message>, i: nat, j: nat) {
    && i < j < |ms| && ms[i].Activated? && ms[j].Activated?
    && forall k :: i < k < j ==> !ms[k].Activated?
  }

  predicate PausedBetween(ms: seq<Message>, i: nat, j: nat, epoch: nat)
    requires j <= |ms|
  {
    exists k :: i < k < j && ms[k] == Paused(epoch)
  }

  lemma BracketedPair(ms: seq<Message>, i: nat, j: nat)
    requires Bracketed(ms) && Consecutive(ms, i, j)
    ensures ms[i].epoch != ms[j].epoch && PausedBetween(ms, i, j, ms[i].epoch)
  {
    BracketedPrefix(ms, j + 1);
    var head := ms[..j + 1];
    assert Front(head) == ms[..j] && Last(head) == ms[j];
    ReadingAfter(ms, i, j);
  }

  /** In every run, two consecutive activations carry different epochs and the first one is closed by
      its own pause before the second is announced. */
  lemma {:induction false} ActivationsBracketed(actions: seq<Action>, i: nat, j: nat)
    requires Consecutive(Run(actions).state.sent, i, j)
    ensures var ms := Run(actions).state.sent;
            ms[i].epoch != ms[j].epoch && PausedBetween(ms, i, j, ms[i].epoch)
  {
    MessagesAlways(actions);
    BracketedPair(Run(actions).state.sent, i, j);
  }

  /** A pause for the epoch in control does not always end control: one popped event announces it and
      leaves control running exactly when it is an ACTIVATE repeating the current epoch, on a lease that
      is still valid, while input is neither blocked nor disconnected. */
  lemma PauseWithoutEnd(s: State, event: Event, now: real, w: World)
    requires MessageInv(s) && s.epoch != 0 && s.connected
    ensures var s' := Process(s, event, now, w).state;
            (s'.epoch == s.epoch && s'.sent == s.sent + [Paused(s.epoch)])
            <==> (event.op.Activate? && event.epoch == s.epoch && !s.blocked
                  && ValidLease(s.leases, event.lease, now, InputTimeout(s.network)))
  {
    var s' := Process(s, event, now, w).state;
    if s'.epoch == s.epoch && s'.sent == s.sent + [Paused(s.epoch)] {
      assert Last(s'.sent) == Paused(s.epoch);
    }
  }
}
