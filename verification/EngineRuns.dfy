/** Runs of the engine from the start into the corners its theorems speak of. */
module EngineRuns {
  import opened Protocol
  import opened Queueing
  import opened Timing
  import opened Engine
  import opened EngineSystem
  import opened EngineGapFree

  const CALM: Faults := Faults({}, {}, {}, {})
  const WORKING: World := World(true, {}, false, false, false, CALM)

  function Motion(number: nat, a: int): Event { Event(Move, 5, number, 0, 7, a, 0) }

  /** The steps of one frame that arrives alone and is processed. */
  function Served(y: System, event: Event): System {
    Step(Step(Step(y, Offer(event, 1.0)), PopNow(1.0)), ProcessNow(1.0, WORKING))
  }

  function Connected(): System { Step(Step(START, Connect(true, CALM)), TickNow(1.0, 7, true, CALM, CALM)) }

  function Controlled(): System { Served(Connected(), Event(Activate, 5, 10, 0, 7, 0, 0)) }

  /** In control under epoch 5 with a valid challenge 7, nothing held, and the given number and calls. */
  predicate AtRest(y: System, number: nat, calls: seq<Event>) {
    && y.worker.Idle? && !y.owes && y.netClock == 1.0 && y.workClock == 1.0
    && y.state.epoch == 5 && y.state.number == number && y.state.connected && !y.state.blocked
    && y.state.queue == EMPTY && y.state.leases == map[7 := 1.0] && y.state.lastHeartbeat == 1.0
    && y.state.network == FRESH && y.state.calls == calls
  }

  lemma ConnectedStart()
    ensures var y := Connected();
            && y.worker.Idle? && !y.owes && y.netClock == 0.0 && y.workClock == 1.0
            && y.state == INITIAL.(connected := true, leases := map[7 := 1.0], lastChallenge := 1.0,
                                   sent := [Challenge(7)])
  {
  }

  lemma ControlledStart()
    ensures AtRest(Controlled(), 10, [])
  {
    ConnectedStart();
    hide Connected;
  }

  lemma ServedMotion(y: System, number: nat, calls: seq<Event>, a: int)
    requires AtRest(y, number, calls) && -MOVE_LIMIT <= a <= MOVE_LIMIT
    ensures AtRest(Served(y, Motion(number + 1, a)), number + 1, calls + [Motion(number + 1, a)])
  {
    var m := Motion(number + 1, a);
    var y1 := Step(Step(y, Offer(m, 1.0)), PopNow(1.0));
    assert y1 == y.(worker := Holding(m));
  }

  /** The moment of StaleMoveContributes is reached by a run: connect, challenge, activation number 10, move number
      11. Move number 11 again and then number 12 inject displacements 1 and 1 + 2. */
  lemma StaleMoveReached()
    ensures var y := Served(Controlled(), Motion(11, 1));
            && AtRest(y, 11, [Motion(11, 1)])
            && TwoOffers(y, Motion(11, 1), Motion(12, 2), 1.0, 1.0, WORKING).state.calls
               == [Motion(11, 1), Motion(12, 3)]
  {
    ControlledStart();
    ServedMotion(Controlled(), 10, [], 1);
    var y := Served(Controlled(), Motion(11, 1));
    hide Controlled, Served, TwoOffers;
    assert Process(y.state, Motion(12, 2), 1.0, WORKING).verdict.Handled?;
    StaleMoveContributes(y, Motion(11, 1), Motion(12, 2), 1.0, 1.0, WORKING);
  }

  /** The activation frame comes a second time, with a higher number: the controller is told that its epoch is
      paused, and control goes on. */
  lemma PauseReached()
    ensures var again := Event(Activate, 5, 11, 0, 7, 0, 0);
            var y, y' := Controlled(), Served(Controlled(), again);
            && y.state.epoch == 5 && y'.state.epoch == 5 && y'.state.sent == y.state.sent + [Paused(5)]
            && !y'.state.blocked && y'.state.connected
  {
    ControlledStart();
    hide Controlled;
    var again, y := Event(Activate, 5, 11, 0, 7, 0, 0), Controlled();
    assert y.state.lastEpoch == 5 by { SessionKept(); }
    var y1 := Step(Step(y, Offer(again, 1.0)), PopNow(1.0));
    assert y1 == y.(worker := Holding(again));
  }

  lemma SessionKept()
    ensures Controlled().state.lastEpoch == 5
  {
    ConnectedStart();
    hide Connected;
  }
}
