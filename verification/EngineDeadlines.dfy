/** Bounded hold lifetime: control needs ever newer challenges, and ends within fixed times without them. */
module EngineDeadlines {
  import opened Sequences
  import opened Protocol
  import opened Queueing
  import opened Timing
  import opened Engine
  import opened EngineSystem
  import opened EngineHolds
  import Leases = EngineLeases

  /** An activation or renewal of control: the challenge presented, when it was issued, and when. */
  datatype Grant = Grant(nonce: nat, issued: real, at: real)

  /** A heartbeat that extends control. */
  predicate Renews(s: State, event: Event, now: real) {
    && s.epoch != 0 && !s.blocked && s.connected
    && event.op.Heartbeat? && event.epoch == s.epoch && event.number > s.number
    && ValidLease(s.leases, event.lease, now, Timeout(s.network))
    && !HeartbeatExpired(s, now)
    && s.leases[event.lease] > s.lastEcho
  }

  /** The grants of the current activation, oldest first. */
  function Next(grants: seq<Grant>, y: System, a: Action): seq<Grant> {
    if !Enabled(y, a) then grants
    else if Starts(y, a) then
      var e := y.worker.event;
      if e.lease in y.state.leases then [Grant(e.lease, y.state.leases[e.lease], a.now)] else []
    else if Resets(y, a) then []
    else if a.ProcessNow? && Renews(y.state, y.worker.event, a.now) then
      var e := y.worker.event;
      grants + [Grant(e.lease, y.state.leases[e.lease], a.now)]
    else grants
  }

  function Observe(actions: seq<Action>): seq<Grant> {
    if actions == [] then [] else Next(Observe(Front(actions)), Run(Front(actions)), Last(actions))
  }

  /** The heartbeat clock moves only at an activation or at a renewal, that is, for a heartbeat of the
      current epoch with a new number and a valid challenge strictly newer than the last one echoed.
      Inputs, probes, paused calibration and replayed challenges never extend control. */
  lemma OnlyRenewalsExtend(s: State, event: Event, now: real, w: World)
    requires SessionInv(s) && now != s.lastHeartbeat
    ensures var o := Process(s, event, now, w);
            o.state.lastHeartbeat != s.lastHeartbeat <==> o.verdict.Started? || Renews(s, event, now)
  {
  }

  predicate GrantInv(grants: seq<Grant>, l: Leases.Record, y: System) {
    var s := y.state;
    s.epoch != 0 ==>
      && grants != []
      && Last(grants).at == s.lastHeartbeat <= y.workClock
      && (forall i :: 0 <= i < |grants| ==>
            && Leases.Issue(grants[i].nonce, grants[i].issued) in l.log
            && 0.0 <= grants[i].at - grants[i].issued < TIMEOUT_MAX + CHALLENGE_INTERVAL + MAX_QUEUE_AGE
            && (i > 0 ==> grants[i].at - grants[i].issued < TIMEOUT_MAX))
      && (forall i, j :: 0 < i < j < |grants| ==> grants[i].issued < grants[j].issued)
      && (|grants| > 1 ==> Last(grants).issued == s.lastEcho)
  }

  lemma StartGrant(y: System, a: Action)
    requires Starts(y, a)
    ensures var s, e := y.state, y.worker.event;
            && e.op.Activate? && ValidLease(s.leases, e.lease, a.now, InputTimeout(s.network))
            && Step(y, a).state.lastHeartbeat == a.now
  {
  }

  lemma ProcessSteady(s: State, event: Event, now: real, w: World)
    requires SessionInv(s) && s.epoch != 0
    ensures var o := Process(s, event, now, w);
            !o.verdict.Started? && o.state.epoch != 0 ==>
              if Renews(s, event, now) then
                o.state.lastEcho == s.leases[event.lease] && o.state.lastHeartbeat == now
              else o.state.lastEcho == s.lastEcho && o.state.lastHeartbeat == s.lastHeartbeat
  {
  }

  lemma OtherSteady(y: System, a: Action)
    requires !a.ProcessNow? && !Resets(y, a)
    ensures Step(y, a).state.lastEcho == y.state.lastEcho
    ensures Step(y, a).state.lastHeartbeat == y.state.lastHeartbeat
  {
  }

  lemma LogGrows(l: Leases.Record, y: System, a: Action, e: Leases.Issue)
    requires e in l.log && !a.Connect?
    ensures e in Leases.Next(l, y, a).log
  {
  }

  lemma GrantStep(grants: seq<Grant>, l: Leases.Record, y: System, a: Action)
    requires GrantInv(grants, l, y) && SessionInv(y.state) && Leases.Known(l, y.state) && Enabled(y, a)
    ensures GrantInv(Next(grants, y, a), Leases.Next(l, y, a), Step(y, a))
  {
    var s := y.state;
    if Starts(y, a) {
      StartGrant(y, a);
    } else if Resets(y, a) {
      ResetEffect(y, a);
    } else if s.epoch != 0 {
      EpochSteady(y, a);
      var l' := Leases.Next(l, y, a);
      forall i | 0 <= i < |grants| ensures Leases.Issue(grants[i].nonce, grants[i].issued) in l'.log {
        LogGrows(l, y, a, Leases.Issue(grants[i].nonce, grants[i].issued));
      }
      if a.ProcessNow? {
        ProcessSteady(s, y.worker.event, a.now, a.w);
      } else {
        OtherSteady(y, a);
      }
    } else {
      EpochSteady(y, a);
    }
  }

  lemma {:induction false} GrantsAlways(actions: seq<Action>)
    ensures GrantInv(Observe(actions), Leases.Observe(actions), Run(actions))
  {
    if actions != [] {
      var before := Front(actions);
      GrantsAlways(before);
      SessionAlways(before);
      Leases.CountAlways(before);
      if Enabled(Run(before), Last(actions)) {
        GrantStep(Observe(before), Leases.Observe(before), Run(before), Last(actions));
      }
    }
  }

  /** After a tick that leaves control active, the last grant is less than 3 seconds old, so the newest
      challenge behind it was issued by this target less than 6.3 seconds ago; and within the activation
      each renewal used a strictly newer challenge than the one before. */
  lemma {:induction false} ControlIsFresh(actions: seq<Action>, tick: Action)
    requires tick.TickNow? && Enabled(Run(actions), tick)
    requires Run(actions + [tick]).state.epoch != 0
    ensures var all := actions + [tick];
            var grants := Observe(all);
            && grants != []
            && tick.now - Last(grants).at < TIMEOUT_MAX
            && 0.0 <= tick.now - Last(grants).issued < 6.3
            && Leases.Issue(Last(grants).nonce, Last(grants).issued) in Leases.Observe(all).log
            && forall i, j :: 0 < i < j < |grants| ==> grants[i].issued < grants[j].issued
  {
    var all := actions + [tick];
    assert Front(all) == actions && Last(all) == tick;
    GrantsAlways(all);
  }

  /** What the system may hold down after a tick rests, unless some release has failed, on the latest grant of
      the activation in control: that grant set the heartbeat clock under 3 seconds ago, and the challenge it
      presented was issued by this target under 6.3 seconds ago. */
  lemma {:induction false} BoundedHold(actions: seq<Action>, tick: Action)
    requires tick.TickNow? && Enabled(Run(actions), tick)
    requires var s := Run(actions + [tick]).state; !s.blocked && (s.osKeys != {} || s.osButtons != {})
    ensures var all := actions + [tick];
            var s, grants := Run(all).state, Observe(all);
            && s.epoch != 0 && grants != []
            && var g := Last(grants);
               && g.at == s.lastHeartbeat && 0.0 <= tick.now - g.at < TIMEOUT_MAX
               && 0.0 <= tick.now - g.issued < 6.3
               && Leases.Issue(g.nonce, g.issued) in Leases.Observe(all).log
  {
    var all := actions + [tick];
    assert Front(all) == actions && Last(all) == tick;
    HoldsTracked(all);
    GrantsAlways(all);
    ControlIsFresh(actions, tick);
  }
}
