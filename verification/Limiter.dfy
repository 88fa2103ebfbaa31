/** The sliding-window rate limiter of src/remoteinput/registry.py. */
module Limiter {
  import opened Sequences

  /** An address or a target id: only ever compared. */
  type Key = int

  /** Allowed attempts per window, window length, and the most keys remembered at once. */
  datatype Config = Config(attempts: nat, seconds: real, capacity: nat)

  /** The ordered dictionary: its keys from oldest to newest use, and each key's accepted times. */
  datatype Table = Table(order: seq<Key>, buckets: map<Key, seq<real>>)

  datatype Answer = Answer(table: Table, allowed: bool)

  const EMPTY: Table := Table([], map[])

  predicate HeadExpired(t: Table, cutoff: real) {
    t.order != [] && t.order[0] in t.buckets && |t.buckets[t.order[0]]| > 0
    && Last(t.buckets[t.order[0]]) <= cutoff
  }

  function Evicted(t: Table, cutoff: real): Table
    decreases |t.order|
  {
    if HeadExpired(t, cutoff) then Evicted(Table(t.order[1..], t.buckets - {t.order[0]}), cutoff) else t
  }

  function Pruned(times: seq<real>, cutoff: real): seq<real> {
    if times != [] && times[0] <= cutoff then Pruned(times[1..], cutoff) else times
  }

  function Bucket(t: Table, key: Key): seq<real> {
    if key in t.buckets then t.buckets[key] else []
  }

  function Removed(order: seq<Key>, key: Key): seq<Key> {
    if order == [] then []
    else (if order[0] == key then [] else [order[0]]) + Removed(order[1..], key)
  }

  predicate Refused(t: Table, key: Key, c: Config) {
    key !in t.buckets && |t.buckets| >= c.capacity
  }

  /** The answer for a key that is remembered or for which there is room. */
  function Stored(t: Table, key: Key, now: real, c: Config): Answer {
    var bucket := Pruned(Bucket(t, key), now - c.seconds);
    var allowed := |bucket| < c.attempts;
    Answer(Table(Removed(t.order, key) + [key], t.buckets[key := if allowed then bucket + [now] else bucket]),
           allowed)
  }

  function Allow(t: Table, key: Key, now: real, c: Config): Answer {
    var t1 := Evicted(t, now - c.seconds);
    if Refused(t1, key, c) then Answer(t1, false) else Stored(t1, key, now, c)
  }

  // ---- The object ----

  predicate Ascending(times: seq<real>) {
    forall i, j :: 0 <= i < j < |times| ==> times[i] <= times[j]
  }

  predicate Listed(order: seq<Key>, buckets: map<Key, seq<real>>) {
    && (forall i :: 0 <= i < |order| ==> order[i] in buckets)
    && (forall k :: k in buckets ==> k in order)
  }

  predicate Filled(buckets: map<Key, seq<real>>) {
    forall k :: k in buckets ==> |buckets[k]| > 0 && Ascending(buckets[k])
  }

  /** The order lists each key once, and no bucket is empty: reading the last time of the head is safe. */
  predicate WellFormed(t: Table, c: Config) {
    Distinct(t.order) && Listed(t.order, t.buckets) && Filled(t.buckets) && |t.buckets| <= c.capacity
  }

  class RateLimit {
    var order: seq<Key>
    var buckets: map<Key, seq<real>>
    const attempts: nat
    const seconds: real
    const capacity: nat

    function Value(): Table
      reads this
    {
      Table(order, buckets)
    }

    function Settings(): Config { Config(attempts, seconds, capacity) }

    constructor (attempts: nat, seconds: real, capacity: nat)
      ensures Value() == EMPTY && Settings() == Config(attempts, seconds, capacity)
    {
      this.attempts, this.seconds, this.capacity := attempts, seconds, capacity;
      order, buckets := [], map[];
    }

    method Evict(cutoff: real)
      requires WellFormed(Value(), Settings())
      modifies this
      ensures Value() == Evicted(old(Value()), cutoff)
    {
      HeadReadable(Value(), Settings());
      while order != [] && Last(buckets[order[0]]) <= cutoff
        invariant WellFormed(Value(), Settings())
        invariant order != [] ==> order[0] in buckets && |buckets[order[0]]| > 0
        invariant Evicted(Value(), cutoff) == Evicted(old(Value()), cutoff)
        decreases |order|
      {
        EvictOneKeeps(Value(), Settings());
        buckets := buckets - {order[0]};
        order := order[1..];
        HeadReadable(Value(), Settings());
      }
    }

    method Prune(bucket: seq<real>, cutoff: real) returns (kept: seq<real>)
      ensures kept == Pruned(bucket, cutoff)
    {
      kept := bucket;
      while kept != [] && kept[0] <= cutoff
        invariant Pruned(kept, cutoff) == Pruned(bucket, cutoff)
        decreases |kept|
      {
        kept := kept[1..];
      }
    }

    method TryAcquire(key: Key, now: real) returns (allowed: bool)
      requires WellFormed(Value(), Settings())
      modifies this
      ensures Answer(Value(), allowed) == Allow(old(Value()), key, now, Settings())
    {
      hide WellFormed, Evicted, Pruned, Removed;
      Evict(now - seconds);
      if key !in buckets && |buckets| >= capacity {
        return false;
      }
      var bucket := Prune(if key in buckets then buckets[key] else [], now - seconds);
      allowed := |bucket| < attempts;
      if allowed {
        bucket := bucket + [now];
      }
      buckets := buckets[key := bucket];
      order := Removed(order, key) + [key];
    }
  }

  lemma HeadReadable(t: Table, c: Config)
    requires WellFormed(t, c)
    ensures t.order != [] ==> t.order[0] in t.buckets && |t.buckets[t.order[0]]| > 0
  {
    if t.order != [] {
      var head := t.order[0];
      assert Filled(t.buckets) && head in t.buckets;
      assert |t.buckets[head]| > 0;
    }
  }

  lemma EvictOneKeeps(t: Table, c: Config)
    requires WellFormed(t, c) && t.order != []
    ensures WellFormed(Table(t.order[1..], t.buckets - {t.order[0]}), c)
  {
    var head, rest := t.order[0], t.buckets - {t.order[0]};
    assert t.order == [head] + t.order[1..];
    assert rest.Keys == t.buckets.Keys - {head};
    assert head in t.buckets.Keys;
    assert |rest.Keys| == |t.buckets.Keys| - 1;
    assert Listed(t.order[1..], rest);
  }
}
