/** Adaptive network deadline of src/remoteinput/timing.py, over real numbers. */
module Timing {
  import opened Sequences
  import Queueing

  const CHALLENGE_INTERVAL: real := 0.2
  const TIMEOUT_MIN: real := 2.0
  const TIMEOUT_MAX: real := 3.0

  datatype Estimate = Estimate(rtt: Option<real>, variation: real)

  const FRESH: Estimate := Estimate(None, 0.0)

  predicate Usable(seconds: real) { 0.0 <= seconds < TIMEOUT_MAX }

  /** One sample of the smoothing in section 2 of RFC 6298; unusable samples change nothing. */
  function Observed(t: Estimate, seconds: real): Estimate {
    if !Usable(seconds) then t
    else if t.rtt.None? then Estimate(Some(seconds), seconds / 2.0)
    else Estimate(Some(0.875 * t.rtt.value + 0.125 * seconds),
                  0.75 * t.variation + 0.25 * AbsReal(t.rtt.value - seconds))
  }

  function Timeout(t: Estimate): (r: real)
    ensures TIMEOUT_MIN <= r <= TIMEOUT_MAX
  {
    if t.rtt.None? then TIMEOUT_MIN
    else
      var estimate := t.rtt.value + 4.0 * t.variation + CHALLENGE_INTERVAL;
      var low := if estimate > TIMEOUT_MIN then estimate else TIMEOUT_MIN;
      if low < TIMEOUT_MAX then low else TIMEOUT_MAX
  }

  function InputTimeout(t: Estimate): real {
    Timeout(t) + CHALLENGE_INTERVAL + Queueing.MAX_QUEUE_AGE
  }

  /** The object the engine and the controller own. */
  class NetworkTiming {
    var rtt: Option<real>
    var variation: real

    function Value(): Estimate
      reads this
    {
      Estimate(rtt, variation)
    }

    constructor ()
      ensures Value() == FRESH
    {
      rtt, variation := None, 0.0;
    }

    method Observe(seconds: real) returns (ok: bool)
      modifies this
      ensures ok <==> Usable(seconds)
      ensures Value() == Observed(old(Value()), seconds)
    {
      if !(0.0 <= seconds < TIMEOUT_MAX) {
        return false;
      }
      if rtt.None? {
        rtt, variation := Some(seconds), seconds / 2.0;
      } else {
        variation := 0.75 * variation + 0.25 * AbsReal(rtt.value - seconds);
        rtt := Some(0.875 * rtt.value + 0.125 * seconds);
      }
      return true;
    }
  }

  // ---- What the smoothing guarantees ----

  /** A sample moves the round trip an eighth of the way to it, and the variation a quarter of the way to its
      distance from the round trip as it was before. */
  lemma SampleMoves(t: Estimate, s: real)
    requires Usable(s)
    ensures var u := Observed(t, s);
            && u.rtt.Some?
            && (t.rtt.Some? ==>
                  && 8.0 * (u.rtt.value - t.rtt.value) == s - t.rtt.value
                  && 4.0 * (u.variation - t.variation) == AbsReal(s - t.rtt.value) - t.variation)
            && (t.rtt.None? ==> u.rtt.value == s && 2.0 * u.variation == s)
  {
  }

  function ObservedAll(t: Estimate, samples: seq<real>): Estimate {
    if samples == [] then t else Observed(ObservedAll(t, Front(samples)), Last(samples))
  }

  predicate InRange(t: Estimate) {
    0.0 <= t.variation < TIMEOUT_MAX && (t.rtt.Some? ==> 0.0 <= t.rtt.value < TIMEOUT_MAX)
  }

  /** Whatever is measured, the estimate stays inside the absolute bound. */
  lemma {:induction false} ReachableInRange(samples: seq<real>)
    ensures InRange(ObservedAll(FRESH, samples))
  {
    if samples != [] {
      ReachableInRange(Front(samples));
    }
  }

  /** Distance of the estimate from a route whose every sample is s. */
  function Spread(t: Estimate, s: real): real
    requires t.rtt.Some?
  {
    t.variation + 4.0 * AbsReal(t.rtt.value - s)
  }

  lemma SpreadContracts(t: Estimate, s: real)
    requires Usable(s) && t.rtt.Some? && t.variation >= 0.0
    ensures Observed(t, s).rtt.Some?
    ensures Spread(Observed(t, s), s) <= 0.9375 * Spread(t, s)
  {
    var r := t.rtt.value;
    assert 0.875 * r + 0.125 * s - s == 0.875 * (r - s);
    assert AbsReal(0.875 * (r - s)) == 0.875 * AbsReal(r - s);
  }

  function Decay(n: nat): (r: real)
    ensures 0.0 < r <= 1.0
  {
    if n == 0 then 1.0 else 0.9375 * Decay(n - 1)
  }

  function Repeated(t: Estimate, s: real, n: nat): Estimate {
    if n == 0 then t else Observed(Repeated(t, s, n - 1), s)
  }

  lemma {:induction false} RepeatedInRange(t: Estimate, s: real, n: nat)
    requires InRange(t)
    ensures InRange(Repeated(t, s, n))
  {
    if n != 0 {
      RepeatedInRange(t, s, n - 1);
    }
  }

  /** Fifteen is the largest spread any reachable estimate can have. */
  lemma {:induction false} SpreadDecays(t: Estimate, s: real, n: nat)
    requires InRange(t) && Usable(s) && (t.rtt.Some? || n > 0)
    ensures Repeated(t, s, n).rtt.Some?
    ensures Spread(Repeated(t, s, n), s) <= 15.0 * Decay(n)
    decreases n
  {
    if n == 0 {
    } else if n == 1 && t.rtt.None? {
      assert Repeated(t, s, 0) == t;
      assert Decay(0) == 1.0;
      assert Repeated(t, s, 1) == Estimate(Some(s), s / 2.0);
    } else {
      SpreadDecays(t, s, n - 1);
      RepeatedInRange(t, s, n - 1);
      SpreadContracts(Repeated(t, s, n - 1), s);
    }
  }

  /** A number of seconds brought into the range of deadlines. */
  function Clamped(seconds: real): (r: real)
    ensures 2.0 <= r <= 3.0
  {
    if seconds < 2.0 then 2.0 else if seconds > 3.0 then 3.0 else seconds
  }

  /** A longer round trip or a larger variation never shortens the deadline. */
  lemma DeadlineMonotone(t: Estimate, u: Estimate)
    requires t.rtt.Some? && u.rtt.Some? && t.rtt.value <= u.rtt.value && t.variation <= u.variation
    ensures Timeout(t) <= Timeout(u)
    ensures Timeout(t) == Clamped(t.rtt.value + 4.0 * t.variation + 0.2)
  {
  }

  /** After any usable sample on any reachable estimate the deadline leaves room for that sample and one more
      challenge interval; and when the route became slower, for an eighth of the difference besides. */
  lemma {:induction false} DeadlineCoversSample(samples: seq<real>, s: real)
    requires Usable(s)
    ensures var t := ObservedAll(FRESH, samples);
            && Clamped(s + 0.2) <= Timeout(Observed(t, s))
            && (t.rtt.Some? && t.rtt.value < s ==>
                  Clamped(s + (s - t.rtt.value) / 8.0 + 0.2) <= Timeout(Observed(t, s)))
  {
    ReachableInRange(samples);
    var t := ObservedAll(FRESH, samples);
    if t.rtt.Some? {
      var r := t.rtt.value;
      assert 0.875 * r + 0.125 * s + 4.0 * (0.25 * AbsReal(r - s)) >= s;
    }
  }

  /** On a route with constant round trip s, after n samples the deadline lies between the route's own and one as
      close to it as the decay says: the adaptive limit converges from every reachable estimate. */
  lemma DeadlineConverges(samples: seq<real>, s: real, n: nat)
    requires Usable(s)
    ensures var t := Timeout(Repeated(ObservedAll(FRESH, samples), s, n));
            && t <= Clamped(s + 0.2 + 60.0 * Decay(n))
            && (n > 0 ==> Clamped(s + 0.2) <= t)
  {
    var t := ObservedAll(FRESH, samples);
    ReachableInRange(samples);
    if t.rtt.Some? || n > 0 {
      SpreadDecays(t, s, n);
      RepeatedInRange(t, s, n);
    } else {
      assert Repeated(t, s, n) == t;
    }
    if n > 0 {
      RepeatedInRange(t, s, n - 1);
      var u := Repeated(t, s, n - 1);
      if u.rtt.Some? {
        assert 0.875 * u.rtt.value + 0.125 * s + 4.0 * (0.25 * AbsReal(u.rtt.value - s)) >= s;
      }
    }
  }
}
