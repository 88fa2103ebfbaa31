/** The engine as the object the target runs: every method is proved to do what module Engine says. */
module TargetEngines {
  import opened Sequences
  import opened Protocol
  import opened Queueing
  import opened Timing
  import opened Engine

  /** The operating system's side of injection; a call that raises may leave either state behind. */
  class Injector {
    var keys: set<int>
    var buttons: set<int>

    constructor ()
      ensures keys == {} && buttons == {}
    {
      keys, buttons := {}, {};
    }

    method Key(code: int, down: bool, raises: bool, leavesDown: bool) returns (raised: bool)
      modifies this`keys
      ensures raised == raises
      ensures keys == if (if raises then leavesDown else down) then old(keys) + {code} else old(keys) - {code}
    {
      raised := raises;
      keys := if (if raises then leavesDown else down) then keys + {code} else keys - {code};
    }

    method Button(code: int, down: bool, raises: bool, leavesDown: bool) returns (raised: bool)
      modifies this`buttons
      ensures raised == raises
      ensures buttons == if (if raises then leavesDown else down) then old(buttons) + {code}
                         else old(buttons) - {code}
    {
      raised := raises;
      buttons := if (if raises then leavesDown else down) then buttons + {code} else buttons - {code};
    }
  }

  class TargetEngine {
    const injector: Injector
    const queue: InputQueue
    var leases: map<nat, real>
    var lastChallenge: real
    var lastHeartbeat: real
    var lastEcho: real
    var network: NetworkTiming
    var epoch: nat
    var lastEpoch: nat
    var number: nat
    var keys: set<int>
    var buttons: set<int>
    var blocked: bool
    var connected: bool
    var calls: seq<Event>
    var sent: seq<Message>

    function Value(): State
      reads this, queue, network, injector
    {
      State(queue.Value(), leases, lastChallenge, lastHeartbeat, lastEcho, network.Value(), epoch, lastEpoch,
            number, keys, buttons, blocked, connected, injector.keys, injector.buttons, calls, sent)
    }

    ghost predicate Valid()
      reads this
    {
      queue.Bounds() == LIMITS
    }

    constructor ()
      ensures Valid() && Value() == INITIAL
      ensures fresh(queue) && fresh(network) && fresh(injector)
    {
      injector := new Injector();
      queue := new InputQueue(256, MAX_QUEUE_AGE);
      network := new NetworkTiming();
      leases, lastChallenge, lastHeartbeat, lastEcho := map[], NEVER, 0.0, NEVER;
      epoch, lastEpoch, number, keys, buttons := 0, 0, 0, {}, {};
      blocked, connected, calls, sent := false, false, [], [];
    }

    method Emit(m: Message)
      modifies this`sent
      ensures sent == old(sent) + [m]
    {
      sent := sent + [m];
    }

    method ReleaseKeys(f: Faults)
      modifies this`keys, this`blocked, injector`keys
      ensures keys == old(keys) * f.badKeys
      ensures blocked == (old(blocked) || keys != {})
      ensures injector.keys == (old(injector.keys) - old(keys)) + old(keys) * f.badKeys * f.downKeys
    {
      var todo, tried := keys, {};
      while todo != {}
        invariant todo + tried == old(keys) && todo !! tried
        invariant keys == todo + tried * f.badKeys
        invariant blocked == (old(blocked) || tried * f.badKeys != {})
        invariant injector.keys == (old(injector.keys) - tried) + tried * f.badKeys * f.downKeys
        decreases todo
      {
        var key := Pick(todo);
        var raised := injector.Key(key, false, key in f.badKeys, key in f.downKeys);
        todo, tried := todo - {key}, tried + {key};
        if raised {
          assert key in tried * f.badKeys;
          blocked := true;
        } else {
          keys := keys - {key};
        }
      }
    }

    method ReleaseButtons(f: Faults)
      modifies this`buttons, this`blocked, injector`buttons
      ensures buttons == old(buttons) * f.badButtons
      ensures blocked == (old(blocked) || buttons != {})
      ensures injector.buttons == (old(injector.buttons) - old(buttons)) + old(buttons) * f.badButtons * f.downButtons
    {
      var todo, tried := buttons, {};
      while todo != {}
        invariant todo + tried == old(buttons) && todo !! tried
        invariant buttons == todo + tried * f.badButtons
        invariant blocked == (old(blocked) || tried * f.badButtons != {})
        invariant injector.buttons == (old(injector.buttons) - tried) + tried * f.badButtons * f.downButtons
        decreases todo
      {
        var button := Pick(todo);
        var raised := injector.Button(button, false, button in f.badButtons, button in f.downButtons);
        todo, tried := todo - {button}, tried + {button};
        if raised {
          assert button in tried * f.badButtons;
          blocked := true;
        } else {
          buttons := buttons - {button};
        }
      }
    }

    method ResetAll(f: Faults)
      requires Valid()
      modifies this, queue, injector
      ensures Valid() && network == old(network)
      ensures Value() == ResetState(old(Value()), f)
    {
      var was := epoch;
      epoch := 0;
      queue.Clear();
      ReleaseKeys(f);
      ReleaseButtons(f);
      if was != 0 {
        Emit(Paused(was));
      }
    }

    method ChangeConnection(value: bool, f: Faults)
      requires Valid()
      modifies this, queue, injector
      ensures Valid() && fresh(network)
      ensures Value() == SetConnected(old(Value()), value, f)
    {
      hide ResetState;
      connected := value;
      leases := map[];
      lastChallenge, lastEcho := NEVER, NEVER;
      network := new NetworkTiming();
      ResetAll(f);
    }

    method ChangePeer(f: Faults)
      requires Valid()
      modifies this, queue, injector
      ensures Valid() && fresh(network)
      ensures Value() == PeerChanged(old(Value()), f)
    {
      ResetAll(f);
      network := new NetworkTiming();
      lastEcho, lastChallenge := NEVER, NEVER;
    }

    method Accept(event: Event, now: real, f: Faults)
      requires Valid()
      modifies this, queue, injector
      ensures Valid() && network == old(network)
      ensures Value() == Receive(old(Value()), event, now, f)
    {
      if event.op.Reset? {
        ResetAll(f);
        return;
      }
      var ok, _ := queue.Offer(event, now);
      if !ok {
        ResetAll(f);
      }
    }

    method Renew(event: Event, now: real)
      requires Valid() && event.lease in leases
      modifies this, network
      ensures Valid() && network == old(network)
      ensures Value() == ObserveHeartbeat(old(Value()), event, now)
    {
      var issued := leases[event.lease];
      if issued <= lastEcho {
        return;
      }
      lastEcho := issued;
      var _ := network.Observe(now - issued);
      if epoch != 0 {
        lastHeartbeat := now;
      }
    }

    method Reject(event: Event, f: Faults)
      requires Valid()
      modifies this, queue, injector
      ensures Valid() && network == old(network)
      ensures Value() == RejectStale(old(Value()), event, f)
    {
      ResetAll(f);
      if event.op.Activate? {
        Emit(Paused(event.epoch));
      }
    }

    method Expire(now: real, f: Faults) returns (expired: bool)
      requires Valid()
      modifies this, queue, injector
      ensures Valid() && network == old(network)
      ensures expired <==> HeartbeatExpired(old(Value()), now)
      ensures Value() == if expired then ResetState(old(Value()), f) else old(Value())
    {
      expired := epoch != 0 && now - lastHeartbeat >= Timeout(network.Value());
      if expired {
        ResetAll(f);
      }
    }

    method IssueChallenge(now: real, nonce: nat)
      modifies this`leases, this`lastChallenge, this`sent
      ensures Value() == Challenged(old(Value()), now, nonce)
    {
      leases := Kept(leases, now);
      if connected && now - lastChallenge >= CHALLENGE_INTERVAL {
        leases := leases[nonce := now];
        lastChallenge := now;
        Emit(Challenge(nonce));
      }
    }

    method CheckHolds(now: real, permitted: bool, f: Faults, retry: Faults)
      requires Valid()
      modifies this, queue, injector
      ensures Valid() && network == old(network)
      ensures Value() == Checked(old(Value()), now, permitted, f, retry)
    {
      var expired := Expire(now, f);
      if epoch != 0 && !permitted {
        ResetAll(f);
      }
      if epoch == 0 && (keys != {} || buttons != {}) {
        ResetAll(retry);
      }
    }

    method RunTick(now: real, nonce: nat, permitted: bool, f: Faults, retry: Faults)
      requires Valid()
      modifies this, queue, injector
      ensures Valid() && network == old(network)
      ensures Value() == Tick(old(Value()), now, nonce, permitted, f, retry)
    {
      IssueChallenge(now, nonce);
      CheckHolds(now, permitted, f, retry);
    }

    method PressOrRelease(event: Event, w: World) returns (raised: bool)
      requires Valid()
      modifies this`keys, this`buttons, this`calls, injector
      ensures Value() == Injected(old(Value()), event, w)
      ensures raised <==> Injects(old(Value()), event) && w.raises
    {
      raised := false;
      if Injects(Value(), event) {
        calls := calls + [event];
      }
      if event.op.Key? {
        if event.b != 0 {
          keys := keys + {event.a};
          raised := injector.Key(event.a, true, w.raises, w.leavesDown);
        } else if event.a in keys {
          raised := injector.Key(event.a, false, w.raises, w.leavesDown);
          if !raised {
            keys := keys - {event.a};
          }
        }
      } else if event.op.Button? {
        if event.b != 0 {
          buttons := buttons + {event.a};
          raised := injector.Button(event.a, true, w.raises, w.leavesDown);
        } else if event.a in buttons {
          raised := injector.Button(event.a, false, w.raises, w.leavesDown);
          if !raised {
            buttons := buttons - {event.a};
          }
        }
      } else if event.op.Move? || event.op.Scroll? {
        raised := w.raises;
      }
    }

    method InjectEvent(event: Event, w: World) returns (v: Verdict)
      requires Valid()
      modifies this, queue, injector
      ensures Valid() && network == old(network)
      ensures Outcome(Value(), v) == Inject(old(Value()), event, w)
    {
      if event.op.Key? && event.a in w.unsupported {
        ResetAll(w.faults);
        return Stopped;
      }
      var raised := PressOrRelease(event, w);
      if raised {
        return Raised;
      }
      v := Handled;
      if w.stalled {
        ResetAll(w.faults);
        v := Stopped;
      }
      if event.op.Probe? || event.number % 32 == 0 {
        Emit(Ack(event.op, event.epoch, event.number, event.stamp));
      }
    }

    method Start(event: Event, now: real, w: World) returns (v: Verdict)
      requires Valid()
      modifies this, queue, injector
      ensures Valid() && network == old(network)
      ensures Outcome(Value(), v) == Activation(old(Value()), event, now, w)
    {
      hide ResetState;
      if event.epoch == 0 || event.epoch == lastEpoch || !w.permitted {
        Emit(Paused(event.epoch));
        return Refused;
      }
      ResetAll(w.faults);
      epoch, lastEpoch := event.epoch, event.epoch;
      number := event.number;
      lastHeartbeat := now;
      Emit(Activated(epoch));
      return Started;
    }

    /** The locked section of process_one. */
    method ProcessItem(event: Event, now: real, w: World) returns (v: Verdict)
      requires Valid()
      modifies this, queue, injector, network
      ensures Valid() && network == old(network)
      ensures Outcome(Value(), v) == Process(old(Value()), event, now, w)
    {
      if blocked || !connected {
        return Dropped;
      }
      if !event.op.Activate? {
        if (event.op.Heartbeat? || event.op.Probe?) && event.epoch == 0 {
          if epoch != 0 {
            return Dropped;
          }
        } else if event.epoch != epoch || epoch == 0 || event.number <= number {
          return Dropped;
        }
      }
      var limit := LeaseLimit(Value(), event);
      if !ValidLease(leases, event.lease, now, limit) {
        Reject(event, w.faults);
        return Rejected;
      }
      if event.op.Activate? {
        v := Start(event, now, w);
        return;
      }
      if event.op.Probe? && epoch == 0 {
        Emit(Ack(event.op, event.epoch, event.number, event.stamp));
        return Calibrated;
      }
      if event.op.Heartbeat? && epoch == 0 {
        Renew(event, now);
        return Calibrated;
      }
      number := event.number;
      var expired := Expire(now, w.faults);
      if expired {
        return Expired;
      }
      if event.op.Heartbeat? {
        Renew(event, now);
        return Handled;
      }
      v := InjectEvent(event, w);
    }

    /** process_one: pop outside the lock, then the locked section; any exception ends in a reset. */
    method ProcessNext(popAt: real, now: real, w: World, after: Faults)
      requires Valid()
      modifies this, queue, injector, network
      ensures Valid() && network == old(network)
      ensures Value() == ProcessOne(old(Value()), popAt, now, w, after)
    {
      var r := queue.Take(popAt);
      match r {
        case Nothing =>
        case Overloaded => ResetAll(after);
        case Item(event, age) =>
          var v := ProcessItem(event, now, w);
          if v.Raised? {
            ResetAll(after);
          }
      }
    }
  }
}
