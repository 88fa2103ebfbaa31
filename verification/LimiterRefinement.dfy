/** The limiter against the naive one that remembers every accepted attempt for ever. */
module LimiterRefinement {
  import opened Sequences
  import opened Limiter

  datatype Attempt = Attempt(key: Key, at: real)

  /** The limiter, the complete history of accepted attempts, and the latest reading of the clock. */
  datatype Run = Run(table: Table, history: seq<Attempt>, clock: real)

  /** The clock never runs backwards; an attempt that would is not made. */
  function Next(r: Run, a: Attempt, c: Config): Run {
    if a.at < r.clock then r
    else
      var answer := Allow(r.table, a.key, a.at, c);
      Run(answer.table, if answer.allowed then r.history + [a] else r.history, a.at)
  }

  function After(attempts: seq<Attempt>, c: Config): Run {
    if attempts == [] then Run(EMPTY, [], 0.0) else Next(After(Front(attempts), c), Last(attempts), c)
  }

  /** The accepted times of one key, in order. */
  function Times(history: seq<Attempt>, key: Key): seq<real> {
    if history == [] then []
    else Times(Front(history), key) + (if Last(history).key == key then [Last(history).at] else [])
  }

  /** The times after a cutoff. */
  function Window(times: seq<real>, cutoff: real): seq<real> {
    if times == [] then []
    else Window(Front(times), cutoff) + (if Last(times) > cutoff then [Last(times)] else [])
  }

  /** The naive limiter's answer. */
  predicate Naive(history: seq<Attempt>, key: Key, now: real, c: Config) {
    |Window(Times(history, key), now - c.seconds)| < c.attempts
  }

  predicate Same(t: Table, history: seq<Attempt>, k: Key, horizon: real) {
    Window(Bucket(t, k), horizon) == Window(Times(history, k), horizon)
  }

  /** Every window still open shows the same times in the table and in the history. */
  ghost predicate Agrees(t: Table, history: seq<Attempt>, horizon: real) {
    forall k :: Same(t, history, k, horizon)
  }

  predicate Past(t: Table, clock: real) {
    forall k :: k in t.buckets ==> t.buckets[k] != [] && Last(t.buckets[k]) <= clock
  }

  ghost predicate Good(r: Run, c: Config) {
    WellFormed(r.table, c) && Agrees(r.table, r.history, r.clock - c.seconds) && Past(r.table, r.clock)
  }

  lemma {:induction false} WindowConcat(xs: seq<real>, ys: seq<real>, cutoff: real)
    ensures Window(xs + ys, cutoff) == Window(xs, cutoff) + Window(ys, cutoff)
  {
    if ys == [] {
      assert xs + ys == xs;
    } else {
      var kept := if Last(ys) > cutoff then [Last(ys)] else [];
      WindowConcat(xs, Front(ys), cutoff);
      assert Window(xs + ys, cutoff) == Window(xs + Front(ys), cutoff) + kept by {
        assert Front(xs + ys) == xs + Front(ys) && Last(xs + ys) == Last(ys);
      }
    }
  }

  lemma {:induction false} WindowAll(times: seq<real>, cutoff: real)
    requires forall i :: 0 <= i < |times| ==> times[i] > cutoff
    ensures Window(times, cutoff) == times
  {
    if times != [] {
      WindowKeeps(times, cutoff);
      WindowAll(Front(times), cutoff);
      hide Window;
      assert Front(times) + [Last(times)] == times;
    } else {
      assert Window([], cutoff) == [];
    }
  }

  lemma WindowKeeps(times: seq<real>, cutoff: real)
    requires times != [] && times[|times| - 1] > cutoff
    ensures Window(times, cutoff) == Window(Front(times), cutoff) + [Last(times)]
  {
  }

  lemma {:induction false} WindowNone(times: seq<real>, cutoff: real)
    requires forall i :: 0 <= i < |times| ==> times[i] <= cutoff
    ensures Window(times, cutoff) == []
  {
    if times != [] {
      WindowNone(Front(times), cutoff);
    }
  }

  /** A later window can be read off an earlier one. */
  lemma {:induction false} WindowLater(times: seq<real>, cutoff: real, later: real)
    requires cutoff <= later
    ensures Window(Window(times, cutoff), later) == Window(times, later)
  {
    if times != [] {
      WindowLater(Front(times), cutoff, later);
      var kept := if Last(times) > cutoff then [Last(times)] else [];
      WindowConcat(Window(Front(times), cutoff), kept, later);
      if kept == [] {
        assert Window(kept, later) == [];
      } else {
        assert Front(kept) == [];
      }
    }
  }

  /** Pruning a bucket leaves exactly its window. */
  lemma {:induction false} PrunedIsWindow(times: seq<real>, cutoff: real)
    requires Ascending(times)
    ensures Ascending(Pruned(times, cutoff)) && Pruned(times, cutoff) == Window(times, cutoff)
    ensures Pruned(times, cutoff) != [] ==> times != [] && Last(Pruned(times, cutoff)) == Last(times)
  {
    if times != [] && times[0] <= cutoff {
      PrunedIsWindow(times[1..], cutoff);
      assert times == [times[0]] + times[1..];
      WindowConcat([times[0]], times[1..], cutoff);
      WindowNone([times[0]], cutoff);
    } else {
      WindowAll(times, cutoff);
    }
  }

  lemma AgreesLater(t: Table, history: seq<Attempt>, horizon: real, later: real)
    requires Agrees(t, history, horizon) && horizon <= later
    ensures Agrees(t, history, later)
  {
    forall k ensures Same(t, history, k, later) {
      assert Same(t, history, k, horizon);
      WindowLater(Bucket(t, k), horizon, later);
      WindowLater(Times(history, k), horizon, later);
    }
  }

  lemma EvictOneAgrees(t: Table, history: seq<Attempt>, cutoff: real, c: Config)
    requires WellFormed(t, c) && Agrees(t, history, cutoff) && HeadExpired(t, cutoff)
    ensures Agrees(Table(t.order[1..], t.buckets - {t.order[0]}), history, cutoff)
  {
    var t' := Table(t.order[1..], t.buckets - {t.order[0]});
    forall k ensures Same(t', history, k, cutoff) {
      assert Same(t, history, k, cutoff);
      if k == t.order[0] {
        WindowNone(t.buckets[k], cutoff);
      }
    }
  }

  lemma {:induction false} EvictKeeps(t: Table, history: seq<Attempt>, cutoff: real, c: Config)
    requires WellFormed(t, c) && Agrees(t, history, cutoff)
    ensures WellFormed(Evicted(t, cutoff), c) && Agrees(Evicted(t, cutoff), history, cutoff)
    ensures forall k :: k in Evicted(t, cutoff).buckets
              ==> k in t.buckets && Evicted(t, cutoff).buckets[k] == t.buckets[k]
    decreases |t.order|
  {
    if HeadExpired(t, cutoff) {
      EvictOneKeeps(t, c);
      EvictOneAgrees(t, history, cutoff, c);
      EvictKeeps(Table(t.order[1..], t.buckets - {t.order[0]}), history, cutoff, c);
    }
  }

  lemma {:induction false} RemovedKeeps(order: seq<Key>, key: Key)
    requires Distinct(order)
    ensures Distinct(Removed(order, key))
    ensures forall k :: k in Removed(order, key) <==> k in order && k != key
  {
    if order != [] {
      RemovedKeeps(order[1..], key);
      var rest := Removed(order[1..], key);
      assert order == [order[0]] + order[1..];
      assert order[0] !in order[1..];
      assert order[0] !in rest;
    }
  }

  lemma TimesSnoc(history: seq<Attempt>, a: Attempt, k: Key)
    ensures Times(history + [a], k) == Times(history, k) + (if a.key == k then [a.at] else [])
  {
    assert Front(history + [a]) == history;
  }

  lemma StoreListed(order: seq<Key>, buckets: map<Key, seq<real>>, key: Key, bucket: seq<real>)
    requires Distinct(order) && Listed(order, buckets)
    ensures Distinct(Removed(order, key) + [key])
    ensures Listed(Removed(order, key) + [key], buckets[key := bucket])
  {
    RemovedKeeps(order, key);
    var rest := Removed(order, key);
    forall i | 0 <= i < |rest| ensures rest[i] in buckets && rest[i] != key {
      assert rest[i] in rest;
    }
  }

  lemma StoreSize(t: Table, key: Key, bucket: seq<real>, c: Config)
    requires |t.buckets| <= c.capacity && !Refused(t, key, c)
    ensures |t.buckets[key := bucket]| <= c.capacity
  {
    var stored := t.buckets[key := bucket];
    assert stored.Keys == t.buckets.Keys + {key};
    if key in t.buckets {
      assert stored.Keys == t.buckets.Keys;
    }
  }

  /** The table after the answer, when the key was not refused. */
  lemma StoreWellFormed(t: Table, key: Key, bucket: seq<real>, c: Config)
    requires WellFormed(t, c) && !Refused(t, key, c) && bucket != [] && Ascending(bucket)
    ensures WellFormed(Table(Removed(t.order, key) + [key], t.buckets[key := bucket]), c)
  {
    StoreListed(t.order, t.buckets, key, bucket);
    StoreSize(t, key, bucket, c);
  }

  lemma StoreAgrees(t: Table, history: seq<Attempt>, key: Key, bucket: seq<real>, order: seq<Key>, cutoff: real)
    requires Agrees(t, history, cutoff) && Window(bucket, cutoff) == Window(Bucket(t, key), cutoff)
    ensures Agrees(Table(order, t.buckets[key := bucket]), history, cutoff)
  {
    var t' := Table(order, t.buckets[key := bucket]);
    forall k ensures Same(t', history, k, cutoff) {
      assert Same(t, history, k, cutoff);
    }
  }

  lemma RecordAgrees(t: Table, history: seq<Attempt>, a: Attempt, cutoff: real)
    requires Agrees(t, history, cutoff)
    ensures Agrees(t.(buckets := t.buckets[a.key := Bucket(t, a.key) + [a.at]]), history + [a], cutoff)
  {
    var t' := t.(buckets := t.buckets[a.key := Bucket(t, a.key) + [a.at]]);
    var longer := history + [a];
    forall k ensures Same(t', longer, k, cutoff) {
      assert Same(t, history, k, cutoff);
      TimesSnoc(history, a, k);
      if k == a.key {
        WindowConcat(Bucket(t, k), [a.at], cutoff);
        WindowConcat(Times(history, k), [a.at], cutoff);
      } else {
        assert Times(longer, k) == Times(history, k);
      }
    }
  }

  /** The table once everything that has left the window at the head is evicted. */
  lemma EvictedGood(r: Run, now: real, c: Config)
    requires Good(r, c) && now >= r.clock
    ensures var t := Evicted(r.table, now - c.seconds);
            && WellFormed(t, c) && Agrees(t, r.history, now - c.seconds)
            && Past(t, now)
  {
    hide Evicted, Window, Times, WellFormed, Agrees;
    AgreesLater(r.table, r.history, r.clock - c.seconds, now - c.seconds);
    EvictKeeps(r.table, r.history, now - c.seconds, c);
  }

  lemma BucketIsWindow(t: Table, history: seq<Attempt>, key: Key, cutoff: real, c: Config)
    requires WellFormed(t, c) && Agrees(t, history, cutoff)
    ensures Pruned(Bucket(t, key), cutoff) == Window(Times(history, key), cutoff)
  {
    PrunedIsWindow(Bucket(t, key), cutoff);
    assert Same(t, history, key, cutoff);
  }

  /** The answer, in terms of the complete history: the naive limiter's, except that a key not
      remembered is refused while the table is full. */
  lemma AnswerExact(r: Run, key: Key, now: real, c: Config)
    requires Good(r, c) && now >= r.clock
    ensures Allow(r.table, key, now, c).allowed
            <==> Naive(r.history, key, now, c) && !Refused(Evicted(r.table, now - c.seconds), key, c)
  {
    hide Evicted, Window, Times, Pruned, Removed, WellFormed, Agrees, Past;
    EvictedGood(r, now, c);
    BucketIsWindow(Evicted(r.table, now - c.seconds), r.history, key, now - c.seconds, c);
  }

  lemma StorePast(t: Table, key: Key, bucket: seq<real>, order: seq<Key>, clock: real)
    requires Past(t, clock) && bucket != [] && Last(bucket) <= clock
    ensures Past(Table(order, t.buckets[key := bucket]), clock)
  {
  }

  /** What pruning the key's bucket leaves. */
  lemma PrunedBucket(t: Table, history: seq<Attempt>, key: Key, clock: real, c: Config)
    requires WellFormed(t, c) && Agrees(t, history, clock - c.seconds) && Past(t, clock)
    ensures var bucket := Pruned(Bucket(t, key), clock - c.seconds);
            && Ascending(bucket) && (bucket != [] ==> Last(bucket) <= clock)
            && Agrees(Table(Removed(t.order, key) + [key], t.buckets[key := bucket]), history, clock - c.seconds)
  {
    hide Window, Pruned, Agrees, Ascending, Distinct, Listed;
    var cutoff := clock - c.seconds;
    var bucket := Pruned(Bucket(t, key), cutoff);
    PrunedIsWindow(Bucket(t, key), cutoff);
    WindowLater(Bucket(t, key), cutoff, cutoff);
    StoreAgrees(t, history, key, bucket, Removed(t.order, key) + [key], cutoff);
  }

  /** The bucket stored for the key: pruned, and extended when the attempt is accepted. */
  function NewBucket(t: Table, key: Key, now: real, c: Config): seq<real> {
    var bucket := Pruned(Bucket(t, key), now - c.seconds);
    if |bucket| < c.attempts then bucket + [now] else bucket
  }

  lemma LastIsMax(times: seq<real>, at: real)
    requires Ascending(times) && (times != [] ==> Last(times) <= at)
    ensures Ascending(times + [at])
  {
  }

  lemma NewBucketSound(t: Table, history: seq<Attempt>, key: Key, now: real, c: Config)
    requires WellFormed(t, c) && Agrees(t, history, now - c.seconds) && Past(t, now) && c.attempts >= 1
    ensures var bucket := NewBucket(t, key, now, c);
            bucket != [] && Ascending(bucket) && Last(bucket) <= now
  {
    PrunedBucket(t, history, key, now, c);
    var bucket := Pruned(Bucket(t, key), now - c.seconds);
    if |bucket| < c.attempts {
      LastIsMax(bucket, now);
    }
  }

  lemma StoredAgrees(t: Table, history: seq<Attempt>, a: Attempt, c: Config)
    requires WellFormed(t, c) && Agrees(t, history, a.at - c.seconds) && Past(t, a.at)
    ensures var answer := Stored(t, a.key, a.at, c);
            Agrees(answer.table, if answer.allowed then history + [a] else history, a.at - c.seconds)
  {
    hide Window, Pruned, Agrees, WellFormed, Past, Removed;
    var bucket := Pruned(Bucket(t, a.key), a.at - c.seconds);
    PrunedBucket(t, history, a.key, a.at, c);
    if |bucket| < c.attempts {
      var kept := Table(Removed(t.order, a.key) + [a.key], t.buckets[a.key := bucket]);
      RecordAgrees(kept, history, a, a.at - c.seconds);
      assert kept.buckets[a.key := bucket + [a.at]] == t.buckets[a.key := bucket + [a.at]];
    }
  }

  lemma StoredGood(t: Table, history: seq<Attempt>, a: Attempt, c: Config)
    requires WellFormed(t, c) && Agrees(t, history, a.at - c.seconds) && Past(t, a.at)
    requires !Refused(t, a.key, c) && c.attempts >= 1
    ensures var answer := Stored(t, a.key, a.at, c);
            && WellFormed(answer.table, c) && Past(answer.table, a.at)
            && Agrees(answer.table, if answer.allowed then history + [a] else history, a.at - c.seconds)
  {
    hide Window, Pruned, Agrees, WellFormed, Past, Removed, Ascending;
    var bucket, order := NewBucket(t, a.key, a.at, c), Removed(t.order, a.key) + [a.key];
    NewBucketSound(t, history, a.key, a.at, c);
    StoreWellFormed(t, a.key, bucket, c);
    StorePast(t, a.key, bucket, order, a.at);
    StoredAgrees(t, history, a, c);
    assert Stored(t, a.key, a.at, c).table == Table(order, t.buckets[a.key := bucket]);
  }

  /** The two ways an attempt can end. */
  lemma NextShape(r: Run, a: Attempt, c: Config)
    requires a.at >= r.clock
    ensures var t := Evicted(r.table, a.at - c.seconds);
            var answer := if Refused(t, a.key, c) then Answer(t, false) else Stored(t, a.key, a.at, c);
            Next(r, a, c) == Run(answer.table, if answer.allowed then r.history + [a] else r.history, a.at)
  {
    hide Evicted, Stored;
  }

  lemma NextGood(r: Run, a: Attempt, c: Config)
    requires Good(r, c) && c.attempts >= 1
    ensures Good(Next(r, a, c), c)
  {
    hide WellFormed, Agrees, Past, Evicted, Stored;
    if a.at >= r.clock {
      EvictedGood(r, a.at, c);
      NextShape(r, a, c);
      var t := Evicted(r.table, a.at - c.seconds);
      if Refused(t, a.key, c) {
        GoodFrom(t, r.history, a.at, c);
      } else {
        StoredGood(t, r.history, a, c);
        var answer := Stored(t, a.key, a.at, c);
        GoodFrom(answer.table, if answer.allowed then r.history + [a] else r.history, a.at, c);
      }
    }
  }

  lemma GoodFrom(t: Table, history: seq<Attempt>, clock: real, c: Config)
    requires WellFormed(t, c) && Agrees(t, history, clock - c.seconds) && Past(t, clock)
    ensures Good(Run(t, history, clock), c)
  {
  }

  /** In every run with a clock that does not run backwards and at least one attempt allowed: buckets are
      never empty, never more than the capacity, and eviction and pruning never change an answer. */
  lemma {:induction false} RefinesHistory(attempts: seq<Attempt>, c: Config)
    requires c.attempts >= 1
    ensures Good(After(attempts, c), c)
  {
    if attempts != [] {
      RefinesHistory(Front(attempts), c);
      NextGood(After(Front(attempts), c), Last(attempts), c);
    }
  }

  // ---- The bound the limiter exists for ----

  /** How many times fall in (low, high]. */
  function Span(times: seq<real>, low: real, high: real): nat {
    if times == [] then 0 else Span(Front(times), low, high) + (if low < Last(times) <= high then 1 else 0)
  }

  lemma {:induction false} SpanInWindow(times: seq<real>, low: real, high: real, cutoff: real)
    requires cutoff <= low
    ensures Span(times, low, high) <= |Window(times, cutoff)|
  {
    if times != [] {
      SpanInWindow(Front(times), low, high, cutoff);
    }
  }

  predicate WithinLimit(history: seq<Attempt>, k: Key, t: real, c: Config) {
    Span(Times(history, k), t - c.seconds, t) <= c.attempts
  }

  ghost predicate Bounded(history: seq<Attempt>, c: Config) {
    forall k, t: real :: WithinLimit(history, k, t, c)
  }

  lemma AcceptBounded(history: seq<Attempt>, a: Attempt, c: Config)
    requires Bounded(history, c) && Naive(history, a.key, a.at, c)
    ensures Bounded(history + [a], c)
  {
    forall k, t: real ensures WithinLimit(history + [a], k, t, c) {
      var times := Times(history, k);
      TimesSnoc(history, a, k);
      assert WithinLimit(history, k, t, c);
      if k == a.key {
        assert Front(times + [a.at]) == times;
        if a.at <= t {
          SpanInWindow(times, t - c.seconds, t, a.at - c.seconds);
        }
      } else {
        assert Times(history + [a], k) == times;
      }
    }
  }

  /** No window of the configured length, wherever it is placed, ever contains more accepted attempts of
      one key than allowed. */
  lemma {:induction false} NeverExceeded(attempts: seq<Attempt>, c: Config, key: Key, t: real)
    requires c.attempts >= 1
    ensures Span(Times(After(attempts, c).history, key), t - c.seconds, t) <= c.attempts
  {
    HistoryBounded(attempts, c);
    assert WithinLimit(After(attempts, c).history, key, t, c);
  }

  lemma {:induction false} HistoryBounded(attempts: seq<Attempt>, c: Config)
    requires c.attempts >= 1
    ensures Bounded(After(attempts, c).history, c)
  {
    if attempts != [] {
      var r, a := After(Front(attempts), c), Last(attempts);
      HistoryBounded(Front(attempts), c);
      RefinesHistory(Front(attempts), c);
      if a.at >= r.clock {
        AnswerExact(r, a.key, a.at, c);
        if Allow(r.table, a.key, a.at, c).allowed {
          AcceptBounded(r.history, a, c);
        }
      }
    }
  }

  // ---- The capacity corner ----

  /** A key with nothing in its window can still be refused, and exactly when it is not remembered and the
      table, after eviction from its head, is full. Eviction stops at the first live bucket, so expired
      buckets behind it can keep the table full. */
  lemma RefusedWhileIdle(r: Run, key: Key, now: real, c: Config)
    requires Good(r, c) && now >= r.clock && c.attempts >= 1
    requires Window(Times(r.history, key), now - c.seconds) == []
    ensures !Allow(r.table, key, now, c).allowed <==> Refused(Evicted(r.table, now - c.seconds), key, c)
  {
    AnswerExact(r, key, now, c);
  }

  /** From t to t' exactly the keys used longest ago were forgotten whose latest accepted time has left the window, up to
      the first that has not; the others keep their times. */
  ghost predicate Forgotten(t: Table, t': Table, cutoff: real) {
    && |t'.order| <= |t.order| && t'.order == t.order[|t.order| - |t'.order|..]
    && (forall i :: 0 <= i < |t.order| - |t'.order| ==>
          t.order[i] in t.buckets && t.buckets[t.order[i]] != [] && Last(t.buckets[t.order[i]]) <= cutoff)
    && (t'.order != [] ==>
          t'.order[0] in t.buckets && t.buckets[t'.order[0]] != [] && Last(t.buckets[t'.order[0]]) > cutoff)
    && (forall k :: k in t'.buckets <==> k in t'.order)
    && (forall k :: k in t'.buckets ==> k in t.buckets && t'.buckets[k] == t.buckets[k])
  }

  lemma ForgotMore(t: Table, t': Table, cutoff: real)
    requires HeadExpired(t, cutoff) && Distinct(t.order)
    requires Forgotten(Table(t.order[1..], t.buckets - {t.order[0]}), t', cutoff)
    ensures Forgotten(t, t', cutoff)
  {
    var t1 := Table(t.order[1..], t.buckets - {t.order[0]});
    assert forall i :: 0 < i < |t.order| ==> t.order[i] == t1.order[i - 1];
  }

  lemma {:induction false} EvictsExactly(t: Table, cutoff: real, c: Config)
    requires WellFormed(t, c)
    ensures Forgotten(t, Evicted(t, cutoff), cutoff)
    decreases |t.order|
  {
    hide Forgotten;
    if HeadExpired(t, cutoff) {
      EvictOneKeeps(t, c);
      EvictsExactly(Table(t.order[1..], t.buckets - {t.order[0]}), cutoff, c);
      ForgotMore(t, Evicted(t, cutoff), cutoff);
    } else {
      NothingForgotten(t, cutoff, c);
    }
  }

  lemma NothingForgotten(t: Table, cutoff: real, c: Config)
    requires WellFormed(t, c) && !HeadExpired(t, cutoff)
    ensures Forgotten(t, t, cutoff)
  {
    HeadReadable(t, c);
    ListedExactly(t, c);
  }

  lemma ListedExactly(t: Table, c: Config)
    requires WellFormed(t, c)
    ensures forall k :: k in t.buckets <==> k in t.order
  {
    forall k | k in t.order ensures k in t.buckets {
      var i :| 0 <= i < |t.order| && t.order[i] == k;
    }
  }

  const CORNER: Config := Config(1, 10.0, 2)

  lemma FirstAccepted()
    ensures Allow(EMPTY, 1, 0.0, CORNER) == Answer(Table([1], map[1 := [0.0]]), true)
  {
    assert Removed([], 1) + [1] == [1];
    assert [] + [0.0] == [0.0];
  }

  lemma SecondAccepted()
    ensures Allow(Table([1], map[1 := [0.0]]), 2, 8.0, CORNER)
            == Answer(Table([1, 2], map[1 := [0.0], 2 := [8.0]]), true)
  {
    assert [1][1..] == [] && Removed([], 2) == [];
    assert Removed([1], 2) + [2] == [1, 2];
    assert [] + [8.0] == [8.0];
  }

  lemma FirstDenied()
    ensures Allow(Table([1, 2], map[1 := [0.0], 2 := [8.0]]), 1, 9.0, CORNER)
            == Answer(Table([2, 1], map[1 := [0.0], 2 := [8.0]]), false)
  {
    assert [1, 2][1..] == [2] && [2][1..] == [] && Removed([], 1) == [];
    assert Removed([1, 2], 1) + [1] == [2, 1];
  }

  /** One such table, reached when key 1 is accepted at time 0, key 2 at 8, and key 1 is denied at 9: at
      time 11 the bucket of key 1 has expired behind the live bucket of key 2, and key 3 is refused. */
  lemma ExpiredBehindLive()
    ensures var t1 := Allow(EMPTY, 1, 0.0, CORNER).table;
            var t2 := Allow(t1, 2, 8.0, CORNER).table;
            var t3 := Allow(t2, 1, 9.0, CORNER).table;
            && t3 == Table([2, 1], map[1 := [0.0], 2 := [8.0]])
            && Last(t3.buckets[1]) <= 11.0 - CORNER.seconds
            && !Allow(t3, 3, 11.0, CORNER).allowed
  {
    FirstAccepted();
    SecondAccepted();
    FirstDenied();
    assert map[1 := [0.0], 2 := [8.0]].Keys == {1, 2};
  }
}
