/** The bounded, coalescing input queue of src/remoteinput/queueing.py. */
module Queueing {
  import opened Sequences
  import opened Protocol

  datatype Entry = Entry(event: Event, entered: real)

  datatype Queue = Queue(items: seq<Entry>, failed: bool)

  datatype Limits = Limits(limit: nat, maxAge: real)

  datatype Popped = Nothing | Overloaded | Item(event: Event, age: real)

  const MAX_QUEUE_AGE: real := 0.1
  const LIMITS: Limits := Limits(256, MAX_QUEUE_AGE)
  const EMPTY: Queue := Queue([], false)
  const FAILED: Queue := Queue([], true)

  predicate Adjacent(a: Event, b: Event) {
    a.op.Move? && b.op.Move? && a.epoch == b.epoch
  }

  /** Merging keeps the newer event's sequence, stamp and lease and adds the displacements. */
  function Merged(earlier: Event, later: Event): Event {
    later.(a := earlier.a + later.a, b := earlier.b + later.b)
  }

  function Put(q: Queue, event: Event, now: real, c: Limits): Queue {
    if q.failed then q
    else if q.items != [] && now - q.items[0].entered > c.maxAge then FAILED
    else if q.items != [] && Adjacent(Last(q.items).event, event) then
      var m := Merged(Last(q.items).event, event);
      if Max(Abs(m.a), Abs(m.b)) > MOVE_LIMIT then FAILED
      else Queue(Front(q.items) + [Entry(m, Last(q.items).entered)], false)
    else if |q.items| >= c.limit then FAILED
    else Queue(q.items + [Entry(event, now)], false)
  }

  /** Whether put() calls wake(): the first item of an empty queue, or the put that fails it. */
  predicate Wakes(q: Queue, event: Event, now: real, c: Limits) {
    !q.failed && (q.items == [] || Put(q, event, now, c).failed)
  }

  function AfterPop(q: Queue, now: real, c: Limits): Queue {
    if q.failed || q.items == [] then q
    else if now - q.items[0].entered > c.maxAge then FAILED
    else Queue(q.items[1..], false)
  }

  function PopResult(q: Queue, now: real, c: Limits): Popped {
    if q.failed then Overloaded
    else if q.items == [] then Nothing
    else if now - q.items[0].entered > c.maxAge then Overloaded
    else Item(q.items[0].event, now - q.items[0].entered)
  }

  class InputQueue {
    var items: seq<Entry>
    var failed: bool
    const limit: nat
    const maxAge: real

    function Value(): Queue
      reads this
    {
      Queue(items, failed)
    }

    function Bounds(): Limits { Limits(limit, maxAge) }

    constructor (limit: nat, maxAge: real)
      ensures Value() == EMPTY && Bounds() == Limits(limit, maxAge)
    {
      this.limit, this.maxAge := limit, maxAge;
      items, failed := [], false;
    }

    method Offer(event: Event, now: real) returns (ok: bool, wake: bool)
      modifies this
      ensures Value() == Put(old(Value()), event, now, Bounds())
      ensures ok <==> !failed
      ensures wake <==> Wakes(old(Value()), event, now, Bounds())
    {
      if failed {
        return false, false;
      }
      var empty := items == [];
      if items != [] && now - items[0].entered > maxAge {
        items, failed := [], true;
      } else if items != [] && event.op.Move? && Last(items).event.op.Move?
                && Last(items).event.epoch == event.epoch {
        var last := Last(items);
        var dx, dy := last.event.a + event.a, last.event.b + event.b;
        if Max(Abs(dx), Abs(dy)) > MOVE_LIMIT {
          items, failed := [], true;
        } else {
          items := Front(items) + [Entry(event.(a := dx, b := dy), last.entered)];
        }
      } else if |items| >= limit {
        items, failed := [], true;
      } else {
        items := items + [Entry(event, now)];
      }
      ok := !failed;
      wake := empty || !ok;
    }

    method Take(now: real) returns (r: Popped)
      modifies this
      ensures Value() == AfterPop(old(Value()), now, Bounds())
      ensures r == PopResult(old(Value()), now, Bounds())
    {
      if failed {
        return Overloaded;
      }
      if items == [] {
        return Nothing;
      }
      var head := items[0];
      items := items[1..];
      var age := now - head.entered;
      if age > maxAge {
        items, failed := [], true;
        return Overloaded;
      }
      return Item(head.event, age);
    }

    method Clear()
      modifies this
      ensures Value() == EMPTY
    {
      items, failed := [], false;
    }
  }

  // ---- Runs: the events each queued item stands for ----

  predicate Uniform(run: seq<Entry>) {
    && run != []
    && forall i :: 0 < i < |run| ==> Adjacent(run[0].event, run[i].event)
  }

  function Combine(run: seq<Entry>): Entry
    requires run != []
  {
    if |run| == 1 then run[0]
    else Entry(Merged(Combine(Front(run)).event, Last(run).event), Combine(Front(run)).entered)
  }

  lemma {:induction false} CombineUniform(run: seq<Entry>)
    requires Uniform(run)
    ensures Combine(run).entered == run[0].entered
    ensures Combine(run).event.op == run[0].event.op == Last(run).event.op
    ensures Combine(run).event.epoch == run[0].event.epoch == Last(run).event.epoch
    ensures Combine(run).event.number == Last(run).event.number
    ensures Combine(run).event.lease == Last(run).event.lease
    ensures Combine(run).event.stamp == Last(run).event.stamp
    ensures |run| > 1 ==> run[0].event.op.Move?
  {
    if |run| > 1 {
      CombineUniform(Front(run));
    }
  }

  function PutRuns(q: Queue, runs: seq<seq<Entry>>, event: Event, now: real, c: Limits): seq<seq<Entry>> {
    if Put(q, event, now, c).failed then []
    else if runs != [] && |Put(q, event, now, c).items| == |q.items| then
      Front(runs) + [Last(runs) + [Entry(event, now)]]
    else runs + [[Entry(event, now)]]
  }

  function PopRuns(q: Queue, runs: seq<seq<Entry>>, now: real, c: Limits): seq<seq<Entry>> {
    if AfterPop(q, now, c).failed || runs == [] then [] else runs[1..]
  }

  function FirstRun(runs: seq<seq<Entry>>): seq<Entry> {
    if runs == [] then [] else runs[0]
  }

  /** Each queued item is the merge of its run; a failed queue holds nothing. */
  predicate Tracks(q: Queue, runs: seq<seq<Entry>>) {
    && |runs| == |q.items|
    && (q.failed ==> q.items == [])
    && forall i :: 0 <= i < |runs| ==> Uniform(runs[i]) && q.items[i] == Combine(runs[i])
  }

  lemma PutTracks(q: Queue, runs: seq<seq<Entry>>, event: Event, now: real, c: Limits)
    requires Tracks(q, runs)
    ensures Tracks(Put(q, event, now, c), PutRuns(q, runs, event, now, c))
    ensures !Put(q, event, now, c).failed
            ==> Flatten(PutRuns(q, runs, event, now, c)) == Flatten(runs) + [Entry(event, now)]
  {
    var q' := Put(q, event, now, c);
    if !q'.failed {
      if |q'.items| == |q.items| && runs != [] {
        var grown := Last(runs) + [Entry(event, now)];
        CombineUniform(Last(runs));
        assert Front(grown) == Last(runs);
        assert Uniform(grown) && Combine(grown) == Last(q'.items);
        FlattenGrowLast(runs, [Entry(event, now)]);
      } else {
        FlattenSnoc(runs, [Entry(event, now)]);
      }
    }
  }

  lemma PopTracks(q: Queue, runs: seq<seq<Entry>>, now: real, c: Limits)
    requires Tracks(q, runs)
    ensures Tracks(AfterPop(q, now, c), PopRuns(q, runs, now, c))
    ensures PopResult(q, now, c).Item? ==>
              && runs != [] && Uniform(runs[0])
              && PopResult(q, now, c).event == Combine(runs[0]).event
              && Flatten(runs) == runs[0] + Flatten(PopRuns(q, runs, now, c))
  {
  }

  // ---- Events of entries, and the keys they leave held ----

  function Events(es: seq<Entry>): (r: seq<Event>)
    ensures |r| == |es|
    ensures forall i :: 0 <= i < |es| ==> r[i] == es[i].event
  {
    if es == [] then [] else Events(Front(es)) + [Last(es).event]
  }

  lemma EventsConcat(xs: seq<Entry>, ys: seq<Entry>)
    ensures Events(xs + ys) == Events(xs) + Events(ys)
  {
  }

  /** Merging a run never changes which keys it leaves held. */
  lemma {:induction false} RunHeld(es: seq<Event>, run: seq<Entry>)
    requires Uniform(run)
    ensures HeldAfter(es + Events(run))
            == Struck(HeldAfter(es), Combine(run).event)
  {
    var all := es + Events(run);
    assert Front(all) == es + Events(Front(run)) && Last(all) == Last(run).event;
    if |run| == 1 {
      assert Front(all) == es;
    } else {
      RunHeld(es, Front(run));
      CombineUniform(run);
      CombineUniform(Front(run));
    }
  }

  /** A merged run travels as far as its arrivals. */
  lemma {:induction false} RunTravel(es: seq<Event>, run: seq<Entry>)
    requires Uniform(run)
    ensures TravelOf(es + Events(run)) == Moved(TravelOf(es), Combine(run).event)
  {
    var all := es + Events(run);
    assert Front(all) == es + Events(Front(run)) && Last(all) == Last(run).event;
    if |run| == 1 {
      assert Front(all) == es;
    } else {
      RunTravel(es, Front(run));
      CombineUniform(run);
      CombineUniform(Front(run));
    }
  }
}
