/** Gap-free control: while control lasts, the events applied are exactly the oldest inputs accepted. */
module EngineGapFree {
  import opened Sequences
  import opened Protocol
  import opened Queueing
  import opened Engine
  import opened EngineSystem
  import opened EngineDelivery
  import EngineReleases

  /** Inputs, heartbeats and probes sent under an epoch. */
  predicate Input(e: Event, epoch: nat) {
    e.epoch == epoch && !e.op.Activate?
  }

  function InputsOf(es: seq<Entry>, epoch: nat): seq<Entry> {
    if es == [] then []
    else InputsOf(Front(es), epoch) + (if Input(Last(es).event, epoch) then [Last(es)] else [])
  }

  /** The sender numbers the inputs of a session increasingly, starting above the activation's number. */
  predicate Ordered(es: seq<Entry>, epoch: nat, start: nat) {
    && (forall i :: 0 <= i < |es| && Input(es[i].event, epoch) ==> start < es[i].event.number)
    && (forall i, j :: 0 <= i < j < |es| && Input(es[i].event, epoch) && Input(es[j].event, epoch)
          ==> es[i].event.number < es[j].event.number)
  }

  function Reached(start: nat, ts: seq<Taken>): nat {
    if ts == [] then start
    else if Last(ts).verdict.Handled? && Last(ts).run != [] then Last(Last(ts).run).event.number
    else Reached(start, Front(ts))
  }

  /** Every processed item was handled exactly when it is an input of the session. */
  predicate AllHandled(ts: seq<Taken>, epoch: nat) {
    forall i :: 0 <= i < |ts| ==>
      Uniform(ts[i].run) && (ts[i].verdict.Handled? <==> Input(ts[i].run[0].event, epoch))
  }

  /** The worker is not between a failed injection and its reset. */
  predicate Settled(r: Record, y: System) { y.worker.Failing? ==> r.hand == [] }

  predicate Controlling(r: Record, y: System) {
    && y.state.epoch != 0 && !y.state.blocked
    && Ordered(r.received, y.state.epoch, r.start)
  }

  predicate DeliveryInv(r: Record, y: System) {
    Controlling(r, y) ==>
      && AllHandled(r.taken, y.state.epoch)
      && (Settled(r, y) ==> y.state.number == Reached(r.start, r.taken))
      && (Settled(r, y) ==> HeldBy(y.state) == HeldAfter(Events(Applied(r.taken))))
  }

  lemma {:induction false} InputsConcat(xs: seq<Entry>, ys: seq<Entry>, epoch: nat)
    ensures InputsOf(xs + ys, epoch) == InputsOf(xs, epoch) + InputsOf(ys, epoch)
  {
    if ys == [] {
      assert xs + ys == xs;
    } else {
      assert Front(xs + ys) == xs + Front(ys);
      InputsConcat(xs, Front(ys), epoch);
    }
  }

  /** The arrivals of a run are inputs of the epoch together. */
  lemma RunEnds(run: seq<Entry>, epoch: nat)
    requires Uniform(run)
    ensures run != [] && (Input(Last(run).event, epoch) <==> Input(run[0].event, epoch))
    ensures |run| > 1 ==> Uniform(Front(run)) && Front(run)[0] == run[0]
  {
    if |run| > 1 { assert Adjacent(run[0].event, run[|run| - 1].event); }
  }

  lemma {:induction false} InputsOfRun(run: seq<Entry>, epoch: nat)
    requires Uniform(run)
    ensures InputsOf(run, epoch) == if Input(run[0].event, epoch) then run else []
  {
    hide Uniform, Combine;
    RunEnds(run, epoch);
    if |run| == 1 {
      assert Front(run) == [];
      assert run == [run[0]];
    } else {
      InputsOfRun(Front(run), epoch);
      assert Front(run) + [Last(run)] == run;
    }
  }

  lemma {:induction false} InputsTaken(ts: seq<Taken>, epoch: nat)
    requires AllHandled(ts, epoch)
    ensures InputsOf(TakenAll(ts), epoch) == Applied(ts)
  {
    if ts != [] {
      InputsTaken(Front(ts), epoch);
      InputsConcat(TakenAll(Front(ts)), Last(ts).run, epoch);
      InputsOfRun(Last(ts).run, epoch);
    }
  }

  /** The number reached is the activation's or that of some processed input. */
  lemma {:induction false} ReachedWitness(start: nat, ts: seq<Taken>, epoch: nat)
    requires AllHandled(ts, epoch)
    ensures Reached(start, ts) == start ||
            exists i :: 0 <= i < |TakenAll(ts)| && Input(TakenAll(ts)[i].event, epoch)
                        && TakenAll(ts)[i].event.number == Reached(start, ts)
  {
    if ts != [] {
      var t := Last(ts);
      var before := TakenAll(Front(ts));
      if t.verdict.Handled? {
        var i := |before| + |t.run| - 1;
        CombineUniform(t.run);
        assert TakenAll(ts)[i] == Last(t.run);
      } else {
        ReachedWitness(start, Front(ts), epoch);
        if Reached(start, ts) != start {
          var i :| 0 <= i < |before| && Input(before[i].event, epoch)
                   && before[i].event.number == Reached(start, ts);
          assert TakenAll(ts)[i] == before[i];
        }
      }
    }
  }

  /** The next input in hand is newer than everything handled. */
  lemma HandIsNewer(r: Record, y: System)
    requires Inv(r, y) && DeliveryInv(r, y) && Controlling(r, y) && y.worker.Holding?
    requires Input(y.worker.event, y.state.epoch)
    ensures y.worker.event.number > y.state.number
  {
    var done, all := TakenAll(r.taken), r.received;
    CombineUniform(r.hand);
    var j := |done| + |r.hand| - 1;
    assert done + r.hand == all[..j + 1];
    assert all[j] == Last(r.hand);
    ReachedWitness(r.start, r.taken, y.state.epoch);
    if Reached(r.start, r.taken) != r.start {
      var i :| 0 <= i < |done| && Input(done[i].event, y.state.epoch)
               && done[i].event.number == Reached(r.start, r.taken);
      assert all[i] == done[i];
    }
  }

  lemma HandledEffect(s: State, event: Event, now: real, w: World)
    requires s.epoch != 0 && Process(s, event, now, w).verdict.Handled?
    ensures var s' := Process(s, event, now, w).state;
            && Input(event, s.epoch) && s'.number == event.number
            && HeldBy(s') == Struck(HeldBy(s), event) && s'.blocked == s.blocked
  {
  }

  lemma DroppedEffect(s: State, event: Event, now: real, w: World)
    requires SessionInv(s) && s.epoch != 0 && !s.blocked
    requires Input(event, s.epoch) ==> event.number > s.number
    ensures var o := Process(s, event, now, w);
            o.verdict.Dropped? || o.verdict.Refused?
            ==> !Input(event, s.epoch) && o.state.number == s.number && HeldBy(o.state) == HeldBy(s)
    ensures !Process(s, event, now, w).verdict.Calibrated?
  {
  }

  /** An item whose verdict leaves control running: handled if it is an input, and otherwise without effect. */
  lemma VerdictDelivers(r: Record, y: System, a: Action)
    requires Inv(r, y) && DeliveryInv(r, y) && Controlling(r, y)
    requires a.ProcessNow? && Enabled(y, a) && !Resets(y, a) && !VerdictOf(y, a).Raised?
    ensures var s, s', event := y.state, Step(y, a).state, y.worker.event;
            if VerdictOf(y, a).Handled? then
              Input(event, s.epoch) && s'.number == event.number && HeldBy(s') == Struck(HeldBy(s), event)
            else !Input(event, s.epoch) && s'.number == s.number && HeldBy(s') == HeldBy(s)
  {
    if Input(y.worker.event, y.state.epoch) {
      HandIsNewer(r, y);
    }
    DroppedEffect(y.state, y.worker.event, a.now, a.w);
    if VerdictOf(y, a).Handled? {
      HandledEffect(y.state, y.worker.event, a.now, a.w);
    }
  }

  /** Appending an item handled exactly when it is an input keeps the account of numbers and keys. */
  lemma AppendTaken(ts: seq<Taken>, t: Taken, epoch: nat, start: nat)
    requires AllHandled(ts, epoch) && Uniform(t.run)
    requires t.verdict.Handled? <==> Input(Combine(t.run).event, epoch)
    ensures AllHandled(ts + [t], epoch)
    ensures Reached(start, ts + [t])
            == if t.verdict.Handled? then Combine(t.run).event.number else Reached(start, ts)
    ensures HeldAfter(Events(Applied(ts + [t])))
            == if t.verdict.Handled? then Struck(HeldAfter(Events(Applied(ts))), Combine(t.run).event)
               else HeldAfter(Events(Applied(ts)))
  {
    CombineUniform(t.run);
    assert Front(ts + [t]) == ts;
    if t.verdict.Handled? {
      EventsConcat(Applied(ts), t.run);
      RunHeld(Events(Applied(ts)), t.run);
    } else {
      assert Applied(ts + [t]) == Applied(ts);
    }
  }

  lemma ProcessDelivers(r: Record, y: System, a: Action)
    requires Inv(r, y) && DeliveryInv(r, y) && a.ProcessNow? && Enabled(y, a) && !Resets(y, a)
    ensures DeliveryInv(Next(r, y, a), Step(y, a))
  {
    var r', y' := Next(r, y, a), Step(y, a);
    EpochSteady(y, a);
    if Controlling(r', y') {
      assert Controlling(r, y) && r.born == r.resets;
      var v := VerdictOf(y, a);
      if v.Raised? {
        assert r'.taken == r.taken && !Settled(r', y');
      } else {
        VerdictDelivers(r, y, a);
        AppendTaken(r.taken, Taken(r.hand, v), y.state.epoch, r.start);
        assert r'.taken == r.taken + [Taken(r.hand, v)];
      }
    }
  }

  lemma OrderedPrefix(es: seq<Entry>, e: Entry, epoch: nat, start: nat)
    requires Ordered(es + [e], epoch, start)
    ensures Ordered(es, epoch, start)
  {
    forall i | 0 <= i < |es| ensures es[i] == (es + [e])[i] {}
  }

  lemma QuietDelivers(r: Record, y: System, a: Action)
    requires Inv(r, y) && DeliveryInv(r, y) && !a.ProcessNow? && Enabled(y, a) && !Resets(y, a)
    ensures DeliveryInv(Next(r, y, a), Step(y, a))
  {
    var r', y' := Next(r, y, a), Step(y, a);
    EpochSteady(y, a);
    if Controlling(r', y') && a.Offer? && r'.received != r.received {
      OrderedPrefix(r.received, Entry(a.event, a.at), y.state.epoch, r.start);
    }
  }

  lemma ResetDelivers(r: Record, y: System, a: Action)
    requires Inv(r, y) && Resets(y, a)
    ensures DeliveryInv(Next(r, y, a), Step(y, a))
  {
    ResetEffect(y, a);
    if Starts(y, a) {
      assert Step(y, a).state.number == y.worker.event.number;
    }
  }

  lemma {:induction false} DeliveryAlways(actions: seq<Action>)
    ensures DeliveryInv(Observe(actions), Run(actions))
  {
    if actions != [] {
      var r, y, a := Observe(Front(actions)), Run(Front(actions)), Last(actions);
      DeliveryAlways(Front(actions));
      Always(Front(actions));
      if Resets(y, a) {
        ResetDelivers(r, y, a);
      } else if !Enabled(y, a) {
      } else if a.ProcessNow? {
        ProcessDelivers(r, y, a);
      } else {
        QuietDelivers(r, y, a);
      }
    }
  }

  /** In every run and at every moment of control: the arrivals behind the handled events are a prefix of
      the inputs accepted in this session, and, unless the queue has failed, what was handled, what is in
      hand and what is queued account for every one of them, in order. No input is dropped while control
      continues. */
  lemma {:induction false} GapFree(actions: seq<Action>)
    requires Controlling(Observe(actions), Run(actions))
    ensures var r, y := Observe(actions), Run(actions);
            var inputs := InputsOf(r.received, y.state.epoch);
            && Applied(r.taken) <= inputs
            && (!y.state.queue.failed ==>
                  Applied(r.taken) + InputsOf(Current(r), y.state.epoch)
                  + InputsOf(Flatten(r.runs), y.state.epoch) == inputs)
  {
    var r, y := Observe(actions), Run(actions);
    var epoch := y.state.epoch;
    Always(actions);
    DeliveryAlways(actions);
    InputsTaken(r.taken, epoch);
    var done := TakenAll(r.taken);
    var n := |done + Current(r)|;
    assert r.received == done + Current(r) + r.received[n..];
    InputsConcat(done + Current(r), r.received[n..], epoch);
    InputsConcat(done, Current(r), epoch);
    if !y.state.queue.failed {
      assert r.received[n..] == Flatten(r.runs);
    }
  }

  /** Once everything accepted has been processed, the keys and buttons the engine tracks, and those the system
      really holds down, are those the accepted inputs leave held. */
  lemma {:induction false} DrainedHolds(actions: seq<Action>)
    requires Controlling(Observe(actions), Run(actions))
    requires var y := Run(actions); y.worker.Idle? && y.state.queue == EMPTY
    ensures var r, y := Observe(actions), Run(actions);
            HeldBy(y.state) == DownBy(y.state) == HeldAfter(Events(InputsOf(r.received, y.state.epoch)))
  {
    var r, y := Observe(actions), Run(actions);
    Always(actions);
    DeliveryAlways(actions);
    GapFree(actions);
    EngineReleases.BlockedExactly(actions);
    assert r.runs == [] && Current(r) == [];
    assert InputsOf(r.received, y.state.epoch) == Applied(r.taken);
  }

  // ---- The increasing numbers are needed ----

  /** Two offers to an empty queue, one pop and its processing. */
  function TwoOffers(y: System, first: Event, second: Event, at: real, now: real, w: World): System {
    Step(Step(Step(Step(y, Offer(first, at)), Offer(second, at)), PopNow(now)), ProcessNow(now, w))
  }

  /** From any moment of control with an empty queue: a stale move would be dropped if it arrived alone, but when
      a newer one follows before the worker looks, its displacement is injected with the newer one's. */
  lemma StaleMoveContributes(y: System, stale: Event, newer: Event, at: real, now: real, w: World)
    requires y.worker.Idle? && !y.owes && y.state.queue == EMPTY
    requires y.netClock <= at <= now && y.workClock <= now && now - at <= MAX_QUEUE_AGE
    requires Adjacent(stale, newer) && stale.number <= y.state.number < newer.number
    requires Max(Abs(stale.a + newer.a), Abs(stale.b + newer.b)) <= MOVE_LIMIT
    requires Process(y.state, newer, now, w).verdict.Handled?
    ensures Process(y.state, stale, now, w).verdict.Dropped?
    ensures TwoOffers(y, stale, newer, at, now, w).state.calls
            == y.state.calls + [newer.(a := stale.a + newer.a, b := stale.b + newer.b)]
  {
    var m := Merged(stale, newer);
    TwoQueued(y, stale, newer, at);
    var y2 := y.(state := y.state.(queue := Queue([Entry(m, at)], false)), netClock := at);
    MovePopped(y2, m, at, now);
    MergedHandled(y.state, stale, newer, now, w);
    hide Process;
  }

  lemma TwoQueued(y: System, stale: Event, newer: Event, at: real)
    requires !y.owes && y.state.queue == EMPTY && y.netClock <= at && Adjacent(stale, newer)
    requires Max(Abs(stale.a + newer.a), Abs(stale.b + newer.b)) <= MOVE_LIMIT
    ensures Step(Step(y, Offer(stale, at)), Offer(newer, at))
            == y.(state := y.state.(queue := Queue([Entry(Merged(stale, newer), at)], false)), netClock := at)
  {
    hide Process, ResetState, Tick;
    var y1 := Step(y, Offer(stale, at));
    assert y1 == y.(state := y.state.(queue := Queue([Entry(stale, at)], false)), netClock := at);
  }

  lemma MovePopped(y: System, m: Event, at: real, now: real)
    requires y.worker.Idle? && y.workClock <= now && now - at <= MAX_QUEUE_AGE
    requires y.state.queue == Queue([Entry(m, at)], false)
    ensures Step(y, PopNow(now)) == y.(state := y.state.(queue := EMPTY), workClock := now, worker := Holding(m))
  {
    hide Process, ResetState, Tick;
  }

  /** Merging the stale move into the newer one leaves everything the tests look at. */
  lemma MergedHandled(s: State, stale: Event, newer: Event, now: real, w: World)
    requires Adjacent(stale, newer) && stale.number <= s.number < newer.number
    requires Process(s, newer, now, w).verdict.Handled?
    ensures Process(s, stale, now, w).verdict.Dropped?
    ensures Process(s, Merged(stale, newer), now, w).state.calls == s.calls + [Merged(stale, newer)]
  {
    InjectedMove(s, Merged(stale, newer), now, w);
  }

  lemma InjectedMove(s: State, event: Event, now: real, w: World)
    requires event.op.Move? && Process(s, event, now, w).verdict.Handled?
    ensures Process(s, event, now, w).state.calls == s.calls + [event]
  {
  }

  /** Under control, a merged item of the epoch's inputs passes the test on numbers exactly if its last arrival is
      newer than the number reached; any stale arrival in it is then handled with the rest. */
  lemma StaleExactly(s: State, run: seq<Entry>, now: real, w: World)
    requires SessionInv(s) && s.epoch != 0 && !s.blocked
    requires Uniform(run) && Input(run[0].event, s.epoch)
    ensures Process(s, Combine(run).event, now, w).verdict.Dropped? <==> Last(run).event.number <= s.number
  {
    CombineUniform(run);
    hide Combine, Inject, ResetState;
  }
}
