/** Challenge leases: the pruned map decides exactly like the full history of issued challenges, and
    stays small. */
module EngineLeases {
  import opened Sequences
  import opened Protocol
  import opened Timing
  import opened Engine
  import opened EngineSystem

  datatype Issue = Issue(nonce: nat, at: real)

  /** Everything issued since connecting: by nonce, and in order; the peer changes since connecting; and
      the time of the latest tick. */
  datatype Record = Record(issued: map<nat, real>, log: seq<Issue>, peers: nat, swept: real)

  const BLANK: Record := Record(map[], [], 0, 0.0)

  function Next(l: Record, y: System, a: Action): Record {
    if !Enabled(y, a) then l
    else
      match a
      case Connect(value, f) => BLANK.(swept := l.swept)
      case Peer(f) => l.(peers := l.peers + 1)
      case TickNow(now, nonce, permitted, f, retry) =>
        if ChallengeDue(y.state, now) then
          Record(l.issued[nonce := now], l.log + [Issue(nonce, now)], l.peers, now)
        else l.(swept := now)
      case _ => l
  }

  function Observe(actions: seq<Action>): Record {
    if actions == [] then BLANK else Next(Observe(Front(actions)), Run(Front(actions)), Last(actions))
  }

  // ---- Pruning never changes an answer ----

  /** A lease missing from the map is older than any limit that is ever applied. */
  predicate PruneInv(l: Record, y: System) {
    var s := y.state;
    && 0.0 <= l.swept <= y.workClock
    && (forall n :: n in s.leases ==> n in l.issued && s.leases[n] == l.issued[n] && l.swept - s.leases[n] < HISTORY)
    && (forall n :: n in l.issued ==> l.issued[n] <= l.swept)
    && (forall n :: n in l.issued && n !in s.leases ==> l.swept - l.issued[n] >= HISTORY)
  }

  /** Only connecting and ticking touch the leases and the challenge clock of a live connection. */
  lemma LeasesSteady(y: System, a: Action)
    requires !a.Connect? && !a.TickNow?
    ensures Step(y, a).state.leases == y.state.leases
    ensures !a.Peer? ==> Step(y, a).state.lastChallenge == y.state.lastChallenge
  {
    if Enabled(y, a) && a.ProcessNow? {
      ProcessFrame(y.state, y.worker.event, a.now, a.w);
    }
  }

  lemma TickLeases(s: State, now: real, nonce: nat, permitted: bool, f: Faults, retry: Faults)
    ensures var s' := Tick(s, now, nonce, permitted, f, retry);
            && s'.leases == (if ChallengeDue(s, now) then Kept(s.leases, now)[nonce := now] else Kept(s.leases, now))
            && s'.lastChallenge == if ChallengeDue(s, now) then now else s.lastChallenge
  {
  }

  lemma PruneStep(l: Record, y: System, a: Action)
    requires PruneInv(l, y)
    ensures PruneInv(Next(l, y, a), Step(y, a))
  {
    if Enabled(y, a) {
      if a.TickNow? {
        TickLeases(y.state, a.now, a.nonce, a.permitted, a.f, a.retry);
      } else if !a.Connect? {
        LeasesSteady(y, a);
      }
    }
  }

  lemma {:induction false} PruneAlways(actions: seq<Action>)
    ensures PruneInv(Observe(actions), Run(actions))
  {
    if actions != [] {
      PruneAlways(Front(actions));
      PruneStep(Observe(Front(actions)), Run(Front(actions)), Last(actions));
    }
  }

  /** For every event, at every later reading of the worker's clock, the lease test on the pruned map gives
      the answer of the complete history. */
  lemma {:induction false} PruningExact(actions: seq<Action>, event: Event, now: real)
    requires now >= Run(actions).workClock
    ensures var s := Run(actions).state;
            ValidLease(s.leases, event.lease, now, LeaseLimit(s, event))
            <==> ValidLease(Observe(actions).issued, event.lease, now, LeaseLimit(s, event))
  {
    PruneAlways(actions);
    assert LeaseLimit(Run(actions).state, event) <= HISTORY;
  }

  // ---- The map stays small ----

  predicate Known(l: Record, s: State) {
    forall n :: n in s.leases ==> Issue(n, s.leases[n]) in l.log
  }

  /** A peer change that the next challenge has not used up yet. */
  function Unused(l: Record, s: State): nat {
    if s.lastChallenge == NEVER && l.log != [] then 1 else 0
  }

  predicate Spaced(log: seq<Issue>, extra: int) {
    forall i, j :: 0 <= i < j < |log| ==>
      log[j].at - log[i].at >= CHALLENGE_INTERVAL * ((j - i - extra) as real) && log[i].at <= log[j].at
  }

  predicate Timed(l: Record, s: State) {
    && (forall i :: 0 <= i < |l.log| ==> 0.0 <= l.log[i].at <= l.swept)
    && (s.lastChallenge != NEVER ==> l.log != [] && s.lastChallenge == Last(l.log).at)
    && Unused(l, s) <= l.peers
    && Spaced(l.log, l.peers - Unused(l, s))
  }

  predicate CountInv(l: Record, y: System) {
    Known(l, y.state) && Timed(l, y.state)
  }

  lemma SpacedEmpty(extra: int)
    ensures Spaced([], extra)
  {
  }

  lemma SpacedMore(log: seq<Issue>, extra: int)
    requires Spaced(log, extra)
    ensures Spaced(log, extra + 1)
  {
    forall i, j | 0 <= i < j < |log|
      ensures log[j].at - log[i].at >= CHALLENGE_INTERVAL * ((j - i - (extra + 1)) as real)
    {
      assert log[j].at - log[i].at >= CHALLENGE_INTERVAL * ((j - i - extra) as real);
    }
  }

  /** A challenge issued at least one interval after the last keeps the spacing; one issued early, after a
      peer change, costs one. */
  lemma SpacedSnoc(log: seq<Issue>, e: Issue, extra: int, early: bool)
    requires Spaced(log, extra) && extra >= 0
    requires log != [] ==> if early then e.at >= Last(log).at else e.at - Last(log).at >= CHALLENGE_INTERVAL
    ensures Spaced(log + [e], if early then extra + 1 else extra)
  {
    var more := log + [e];
    var extra' := if early then extra + 1 else extra;
    forall i, j | 0 <= i < j < |more|
      ensures more[j].at - more[i].at >= CHALLENGE_INTERVAL * ((j - i - extra') as real)
      ensures more[i].at <= more[j].at
    {
      if j < |log| {
        assert more[j] == log[j] && more[i] == log[i];
        assert log[j].at - log[i].at >= CHALLENGE_INTERVAL * ((j - i - extra) as real);
      } else {
        var k := |log| - 1;
        assert more[i] == log[i];
        if i < k {
          assert log[k].at - log[i].at >= CHALLENGE_INTERVAL * ((k - i - extra) as real);
        }
      }
    }
  }

  lemma KnownTick(l: Record, y: System, a: Action)
    requires CountInv(l, y) && a.TickNow? && Enabled(y, a)
    ensures Known(Next(l, y, a), Step(y, a).state)
  {
    TickLeases(y.state, a.now, a.nonce, a.permitted, a.f, a.retry);
    var l', leases := Next(l, y, a), Step(y, a).state.leases;
    forall n | n in leases ensures Issue(n, leases[n]) in l'.log {
      if n in y.state.leases && leases[n] == y.state.leases[n] {
        assert Issue(n, leases[n]) in l.log;
      } else {
        assert Issue(n, leases[n]) == Last(l'.log);
      }
    }
  }

  lemma TimedIssue(l: Record, s: State, now: real, nonce: nat, s': State)
    requires Timed(l, s) && now >= l.swept && now >= 0.0 && ChallengeDue(s, now) && s'.lastChallenge == now
    ensures Timed(Record(l.issued[nonce := now], l.log + [Issue(nonce, now)], l.peers, now), s')
  {
    SpacedSnoc(l.log, Issue(nonce, now), l.peers - Unused(l, s), Unused(l, s) == 1);
  }

  lemma CountTick(l: Record, y: System, a: Action)
    requires PruneInv(l, y) && CountInv(l, y) && a.TickNow? && Enabled(y, a)
    ensures CountInv(Next(l, y, a), Step(y, a))
  {
    KnownTick(l, y, a);
    TickLeases(y.state, a.now, a.nonce, a.permitted, a.f, a.retry);
    if ChallengeDue(y.state, a.now) {
      TimedIssue(l, y.state, a.now, a.nonce, Step(y, a).state);
    }
  }

  lemma CountStep(l: Record, y: System, a: Action)
    requires PruneInv(l, y) && CountInv(l, y)
    ensures CountInv(Next(l, y, a), Step(y, a))
  {
    hide Spaced;
    SpacedEmpty(0);
    if Enabled(y, a) {
      if a.TickNow? {
        CountTick(l, y, a);
      } else if !a.Connect? {
        LeasesSteady(y, a);
        if a.Peer? {
          SpacedMore(l.log, l.peers - Unused(l, y.state));
        }
      }
    }
  }

  lemma {:induction false} CountAlways(actions: seq<Action>)
    ensures CountInv(Observe(actions), Run(actions))
  {
    if actions != [] {
      CountAlways(Front(actions));
      PruneAlways(Front(actions));
      CountStep(Observe(Front(actions)), Run(Front(actions)), Last(actions));
    }
  }

  /** The issues young enough to survive a sweep. */
  function Recent(log: seq<Issue>, swept: real): seq<Issue> {
    if log == [] then []
    else if swept - log[0].at >= HISTORY then Recent(log[1..], swept)
    else log
  }

  lemma {:induction false} RecentSuffix(log: seq<Issue>, swept: real)
    ensures |Recent(log, swept)| <= |log|
    ensures Recent(log, swept) == log[|log| - |Recent(log, swept)|..]
    ensures Recent(log, swept) != [] ==> swept - Recent(log, swept)[0].at < HISTORY
    ensures forall e :: e in log && swept - e.at < HISTORY ==> e in Recent(log, swept)
  {
    if log != [] && swept - log[0].at >= HISTORY {
      RecentSuffix(log[1..], swept);
    }
  }

  function Nonces(log: seq<Issue>): set<nat> {
    if log == [] then {} else Nonces(Front(log)) + {Last(log).nonce}
  }

  lemma {:induction false} NonceCount(log: seq<Issue>)
    ensures |Nonces(log)| <= |log|
    ensures forall e :: e in log ==> e.nonce in Nonces(log)
  {
    if log != [] {
      NonceCount(Front(log));
      assert forall e :: e in log ==> e in Front(log) || e == Last(log);
    }
  }

  lemma SubsetSize(a: set<nat>, b: set<nat>)
    requires a <= b
    ensures |a| <= |b|
  {
    assert b == a + (b - a);
  }

  lemma FarApart(log: seq<Issue>, extra: int, i: int, j: int)
    requires Spaced(log, extra) && 0 <= i < j < |log| && j - i - extra >= 22
    ensures log[j].at - log[i].at > HISTORY
  {
    var gap := j - i - extra;
    assert log[j].at - log[i].at >= CHALLENGE_INTERVAL * (gap as real);
    assert gap as real >= 22 as real;
  }

  lemma RecentStart(log: seq<Issue>, swept: real)
    requires Recent(log, swept) != []
    ensures |Recent(log, swept)| <= |log|
    ensures swept - log[|log| - |Recent(log, swept)|].at < HISTORY
  {
    RecentSuffix(log, swept);
  }

  /** How many issues fit in the window that survives a sweep. */
  lemma WindowSize(log: seq<Issue>, swept: real, extra: nat)
    requires Spaced(log, extra) && (log != [] ==> Last(log).at <= swept)
    ensures |Recent(log, swept)| <= 22 + extra
  {
    if |Recent(log, swept)| > 22 + extra {
      RecentStart(log, swept);
      FarApart(log, extra, |log| - |Recent(log, swept)|, |log| - 1);
      assert false;
    }
  }

  lemma LeasesAreRecent(l: Record, y: System)
    requires PruneInv(l, y) && CountInv(l, y)
    ensures y.state.leases.Keys <= Nonces(Recent(l.log, l.swept))
  {
    RecentSuffix(l.log, l.swept);
    NonceCount(Recent(l.log, l.swept));
    forall n | n in y.state.leases ensures n in Nonces(Recent(l.log, l.swept)) {
      assert Issue(n, y.state.leases[n]) in Recent(l.log, l.swept);
    }
  }

  lemma CountLeases(l: Record, y: System)
    requires PruneInv(l, y) && CountInv(l, y)
    ensures |y.state.leases| <= 22 + l.peers
  {
    var recent := Recent(l.log, l.swept);
    LeasesAreRecent(l, y);
    NonceCount(recent);
    SubsetSize(y.state.leases.Keys, Nonces(recent));
    WindowSize(l.log, l.swept, l.peers - Unused(l, y.state));
    assert |y.state.leases| == |y.state.leases.Keys|;
  }

  /** However long the connection lives, the map never holds more than 22 leases, plus one for each peer
      change since connecting. */
  lemma {:induction false} FewLeases(actions: seq<Action>)
    ensures |Run(actions).state.leases| <= 22 + Observe(actions).peers
  {
    PruneAlways(actions);
    CountAlways(actions);
    CountLeases(Observe(actions), Run(actions));
  }
}
