/** When the queue refuses: said of the arrivals that wait, not of the items that stand for them. */
module QueueAcceptance {
  import opened Sequences
  import opened Protocol
  import opened Queueing
  import opened QueueConservation

  /** The arrivals accepted and not yet popped. */
  function Waiting(l: Ledger): seq<Entry>
    requires Flatten(Runs(l.popped)) <= l.accepted
  {
    l.accepted[|Flatten(Runs(l.popped))|..]
  }

  predicate Far(e: Event) { Abs(e.a) > 1_000_000 || Abs(e.b) > 1_000_000 }

  /** The oldest arrival has waited too long. */
  predicate Overdue(waiting: seq<Entry>, now: real, c: Limits) {
    waiting != [] && now - waiting[0].entered > c.maxAge
  }

  /** Neighbouring items are never moves of one epoch. */
  predicate Apart(items: seq<Entry>) {
    forall i :: 0 < i < |items| ==> !Adjacent(items[i - 1].event, items[i].event)
  }

  lemma PutApart(q: Queue, event: Event, now: real, c: Limits)
    requires Apart(q.items)
    ensures Apart(Put(q, event, now, c).items)
  {
  }

  lemma ApartStep(l: Ledger, s: Step, c: Limits)
    requires Apart(l.queue.items)
    ensures Apart(Next(l, s, c).queue.items)
  {
    if s.DoPut? { PutApart(l.queue, s.event, s.now, c); }
  }

  lemma {:induction false} ApartAlways(steps: seq<Step>, c: Limits)
    ensures Apart(Run(steps, c).queue.items)
  {
    if steps != [] {
      ApartAlways(Front(steps), c);
      ApartStep(Run(Front(steps), c), Last(steps), c);
    }
  }

  /** Items that are apart are merged already. */
  lemma {:induction false} ApartMerged(items: seq<Entry>)
    requires Apart(items)
    ensures Merge(Events(items)) == Events(items)
  {
    if items != [] {
      var front := Front(items);
      ApartMerged(front);
      assert Events(items) == Events(front) + [Last(items).event];
      MergeSnoc(Events(front), Last(items).event);
      if front != [] {
        assert !Adjacent(items[|items| - 2].event, items[|items| - 1].event);
        assert Last(Events(front)) == items[|items| - 2].event;
      }
    }
  }

  lemma ItemsCombine(q: Queue, runs: seq<seq<Entry>>)
    requires Tracks(q, runs)
    ensures AllUniform(runs) && Combined(runs) == Events(q.items)
  {
  }

  lemma FirstWaits(q: Queue, runs: seq<seq<Entry>>)
    requires Tracks(q, runs)
    ensures Flatten(runs) == [] <==> q.items == []
    ensures q.items != [] ==> q.items[0].entered == Flatten(runs)[0].entered
  {
    if runs != [] {
      FlattenHead(runs);
      assert Uniform(runs[0]);
      CombineUniform(runs[0]);
    }
  }

  /** The queue is the merge of the arrivals that wait, and its age is that of the first of them. */
  predicate Holds(q: Queue, waiting: seq<Entry>) {
    && Events(q.items) == Merge(Events(waiting))
    && (q.items == [] <==> waiting == [])
    && (waiting != [] ==> q.items[0].entered == waiting[0].entered)
  }

  /** In every run, while the queue has not failed. */
  lemma {:induction false} HoldsWaiting(steps: seq<Step>, c: Limits)
    requires !Run(steps, c).queue.failed
    ensures var l := Run(steps, c); Flatten(Runs(l.popped)) <= l.accepted && Holds(l.queue, Waiting(l))
  {
    var l := Run(steps, c);
    Conservation(steps, c);
    ApartAlways(steps, c);
    assert Waiting(l) == Flatten(l.runs);
    ItemsCombine(l.queue, l.runs);
    MergeRuns(l.runs);
    ApartMerged(l.queue.items);
    FirstWaits(l.queue, l.runs);
  }

  /** What a put to a queue that has not failed meets. */
  lemma PutFails(q: Queue, waiting: seq<Entry>, event: Event, now: real, c: Limits)
    requires !q.failed && Holds(q, waiting) && |q.items| <= c.limit
    ensures var merged := Merge(Events(waiting) + [event]);
            && merged != []
            && (Put(q, event, now, c).failed <==>
                  || Overdue(waiting, now, c)
                  || (waiting != [] && Adjacent(Last(Merge(Events(waiting))), event) && Far(Last(merged)))
                  || |merged| > c.limit)
  {
    MergeSnoc(Events(waiting), event);
    hide Merge;
    if q.items != [] {
      assert Last(Events(q.items)) == Last(q.items).event;
    }
  }

  /** In every run, a put is refused exactly when the queue has failed before, the oldest arrival that waits is over
      age, the move it merges into gets out of range, or the arrivals that wait would, merged, be more than the
      limit. */
  lemma {:induction false} PutFailsExactly(steps: seq<Step>, event: Event, now: real, c: Limits)
    requires !Run(steps, c).queue.failed && now >= Run(steps, c).latest
    ensures var l := Run(steps, c);
            && Flatten(Runs(l.popped)) <= l.accepted
            && var before, after := Merge(Events(Waiting(l))), Merge(Events(Waiting(l)) + [event]);
               && after != []
               && (Next(l, DoPut(event, now), c).queue.failed <==>
                     || Overdue(Waiting(l), now, c)
                     || (before != [] && Adjacent(Last(before), event) && Far(Last(after)))
                     || |after| > c.limit)
  {
    HoldsWaiting(steps, c);
    Conservation(steps, c);
    var l := Run(steps, c);
    PutFails(l.queue, Waiting(l), event, now, c);
    assert Events(l.queue.items) == [] <==> l.queue.items == [];
    hide Merge;
  }

  /** In every run, a pop from a queue that has not failed fails it exactly when the oldest arrival that waits is over
      age; otherwise it gives the first of the merged arrivals, if there is one. */
  lemma {:induction false} PopFailsExactly(steps: seq<Step>, at: real, c: Limits)
    requires !Run(steps, c).queue.failed
    ensures var l := Run(steps, c);
            && Flatten(Runs(l.popped)) <= l.accepted
            && var w, r := Waiting(l), PopResult(l.queue, at, c);
               && (Next(l, DoPop(at), c).queue.failed <==> Overdue(w, at, c))
               && (r.Overloaded? <==> Overdue(w, at, c))
               && (r.Nothing? <==> w == [])
               && (r.Item? ==> Merge(Events(w)) != [] && r.event == Merge(Events(w))[0]
                               && r.age == at - w[0].entered)
  {
    HoldsWaiting(steps, c);
    hide Merge;
  }

  /** A failure lasts until the queue is cleared. */
  lemma FailureLasts(l: Ledger, s: Step, c: Limits)
    requires l.queue.failed
    ensures Next(l, s, c).queue.failed <==> !s.DoClear?
  {
  }

  // ---- A burst ----

  function Puts(es: seq<Entry>): seq<Step> {
    Map((e: Entry) => DoPut(e.event, e.entered), es)
  }

  function Pops(n: nat, at: real): seq<Step> { seq(n, _ => DoPop(at)) }

  /** No partial sum of neighbouring moves gets out of range. */
  predicate InReach(es: seq<Entry>) {
    forall n :: 1 < n <= |es| && Adjacent(es[n - 2].event, es[n - 1].event) ==>
      Merge(Events(es[..n])) != [] && !Far(Last(Merge(Events(es[..n]))))
  }

  /** Within the age, in order, and at most `limit` once merged. */
  predicate Bearable(es: seq<Entry>, c: Limits) {
    && Sorted(es) && InReach(es)
    && (es != [] ==> 0.0 <= es[0].entered && Last(es).entered - es[0].entered <= c.maxAge)
    && |Merge(Events(es))| <= c.limit
  }

  lemma MergeEnds(es: seq<Entry>)
    requires es != []
    ensures var m := Merge(Events(es));
            && m != [] && Last(m).op == Last(es).event.op && Last(m).epoch == Last(es).event.epoch
            && |Merge(Events(Front(es)))| <= |m|
  {
    assert Events(es) == Events(Front(es)) + [Last(es).event];
    MergeSnoc(Events(Front(es)), Last(es).event);
    hide Merge;
  }

  lemma ReachPrefix(es: seq<Entry>)
    requires es != [] && InReach(es)
    ensures InReach(Front(es))
  {
    hide Merge, Adjacent, Far;
    var front := Front(es);
    forall n | 1 < n <= |front| && Adjacent(front[n - 2].event, front[n - 1].event)
      ensures Merge(Events(front[..n])) != [] && !Far(Last(Merge(Events(front[..n]))))
    {
      assert front[..n] == es[..n] && Adjacent(es[n - 2].event, es[n - 1].event);
    }
  }

  lemma BearablePrefix(es: seq<Entry>, c: Limits)
    requires es != [] && Bearable(es, c)
    ensures Bearable(Front(es), c)
  {
    hide Merge, InReach;
    MergeEnds(es);
    ReachPrefix(es);
  }

  lemma NoPuts(c: Limits)
    ensures Run(Puts([]), c) == START
  {
  }

  lemma RunPuts(es: seq<Entry>, c: Limits)
    requires es != []
    ensures Run(Puts(es), c) == Next(Run(Puts(Front(es)), c), DoPut(Last(es).event, Last(es).entered), c)
  {
    hide Next;
    assert Puts(es) == Puts(Front(es)) + [DoPut(Last(es).event, Last(es).entered)];
    assert Front(Puts(es)) == Puts(Front(es));
  }

  /** The move that a burst's last arrival merges into stays in range. */
  lemma LastInReach(es: seq<Entry>)
    requires InReach(es) && |es| > 1
    ensures var before, after := Merge(Events(Front(es))), Merge(Events(Front(es)) + [Last(es).event]);
            && before != [] && after != [] && after == Merge(Events(es))
            && (Adjacent(Last(before), Last(es).event) ==> !Far(Last(after)))
  {
    MergeEnds(Front(es));
    MergeEnds(es);
    assert Events(es) == Events(Front(es)) + [Last(es).event];
    hide Merge;
    assert es[..|es|] == es;
    if Adjacent(Last(Merge(Events(Front(es)))), Last(es).event) {
      assert Adjacent(es[|es| - 2].event, es[|es| - 1].event);
    }
  }

  /** Nothing refuses the last arrival of a burst. */
  lemma LastAccepted(es: seq<Entry>, l: Ledger, c: Limits)
    requires es != [] && Bearable(es, c)
    requires l == Run(Puts(Front(es)), c) && !l.queue.failed && l.accepted == Front(es) && l.popped == []
    requires l.latest <= Last(es).entered
    ensures !Next(l, DoPut(Last(es).event, Last(es).entered), c).queue.failed
  {
    hide Merge, Next, InReach, Bearable;
    PutFailsExactly(Puts(Front(es)), Last(es).event, Last(es).entered, c);
    NoneDelivered();
    assert Waiting(l) == Front(es);
    BearableLast(es, c);
  }

  lemma BearableLast(es: seq<Entry>, c: Limits)
    requires es != [] && Bearable(es, c)
    ensures var before, after := Merge(Events(Front(es))), Merge(Events(Front(es)) + [Last(es).event]);
            && !Overdue(Front(es), Last(es).entered, c) && |after| <= c.limit
            && (before != [] && Adjacent(Last(before), Last(es).event) ==> after != [] && !Far(Last(after)))
    ensures 0.0 <= Last(es).entered && (Front(es) != [] ==> Last(Front(es)).entered <= Last(es).entered)
  {
    assert Events(es) == Events(Front(es)) + [Last(es).event];
    if |es| > 1 {
      LastInReach(es);
      assert es[|es| - 2].entered <= es[|es| - 1].entered;
    } else {
      assert Front(es) == [];
    }
    hide InReach;
  }

  /** Everything of such a burst is accepted. */
  lemma {:induction false} BurstAccepted(es: seq<Entry>, c: Limits)
    requires Bearable(es, c)
    ensures var l := Run(Puts(es), c);
            && !l.queue.failed && l.accepted == es && l.popped == []
            && l.latest == if es == [] then 0.0 else Last(es).entered
  {
    hide Merge, Next, Bearable, Puts, Run;
    if es == [] {
      NoPuts(c);
    } else {
      BearablePrefix(es, c);
      BurstAccepted(Front(es), c);
      BearableLast(es, c);
      RunPuts(es, c);
      var l := Run(Puts(Front(es)), c);
      LastAccepted(es, l, c);
      TakenIn(l, Last(es), c);
      assert Front(es) + [Last(es)] == es;
    }
  }

  lemma NoneDelivered()
    ensures Flatten(Runs([])) == []
  {
  }

  lemma TakenIn(l: Ledger, e: Entry, c: Limits)
    requires e.entered >= l.latest && !Next(l, DoPut(e.event, e.entered), c).queue.failed
    ensures var l' := Next(l, DoPut(e.event, e.entered), c);
            l'.accepted == l.accepted + [e] && l'.popped == l.popped && l'.latest == e.entered
  {
  }

  lemma EventsHead(items: seq<Entry>)
    requires items != []
    ensures Events(items) == [items[0].event] + Events(items[1..])
  {
  }

  lemma PoppedOne(l: Ledger, at: real, c: Limits)
    requires PopResult(l.queue, at, c).Item?
    ensures var l' := Next(l, DoPop(at), c);
            && !l'.queue.failed && |l'.queue.items| == |l.queue.items| - 1 && l'.accepted == l.accepted
            && Out(l'.popped) + Events(l'.queue.items) == Out(l.popped) + Events(l.queue.items)
  {
    hide PopRuns, FirstRun, Events;
    var e := PopResult(l.queue, at, c).event;
    var l' := Next(l, DoPop(at), c);
    EventsHead(l.queue.items);
    assert Out(l'.popped) == Out(l.popped) + [e];
  }

  predicate Draining(l: Ledger, es: seq<Entry>, n: nat) {
    && !l.queue.failed && l.accepted == es && |l.queue.items| + n == |Merge(Events(es))|
    && Out(l.popped) + Events(l.queue.items) == Merge(Events(es))
  }

  lemma DrainStep(steps: seq<Step>, es: seq<Entry>, n: nat, at: real, c: Limits)
    requires Sorted(es) && (es != [] ==> at - es[0].entered <= c.maxAge)
    requires Draining(Run(steps, c), es, n) && n < |Merge(Events(es))|
    ensures Draining(Run(steps + [DoPop(at)], c), es, n + 1)
  {
    hide Merge, Next;
    var l := Run(steps, c);
    assert Front(steps + [DoPop(at)]) == steps;
    PopFailsExactly(steps, at, c);
    HoldsWaiting(steps, c);
    var w := Waiting(l);
    assert w != [] && w[0] == es[|Flatten(Runs(l.popped))|];
    PoppedOne(l, at, c);
  }

  /** The pops of a burst, one by one. */
  lemma {:induction false} BurstDrains(es: seq<Entry>, n: nat, at: real, c: Limits)
    requires Bearable(es, c) && n <= |Merge(Events(es))|
    requires es != [] ==> at - es[0].entered <= c.maxAge
    ensures Draining(Run(Puts(es) + Pops(n, at), c), es, n)
  {
    hide Merge, Next, InReach;
    if n == 0 {
      assert Puts(es) + Pops(0, at) == Puts(es);
      BurstAccepted(es, c);
      HoldsWaiting(Puts(es), c);
      NoneDelivered();
      assert Waiting(Run(Puts(es), c)) == es;
      assert Out([]) == [];
    } else {
      assert Puts(es) + Pops(n, at) == Puts(es) + Pops(n - 1, at) + [DoPop(at)];
      BurstDrains(es, n - 1, at, c);
      DrainStep(Puts(es) + Pops(n - 1, at), es, n - 1, at, c);
    }
  }

  /** From the arrivals alone: a burst that keeps its order, spans no more than the age limit, whose neighbouring moves
      stay in range and which is, merged, no longer than the limit, is accepted in full; and popped in time, all of it
      comes out, merged, and nothing remains. */
  lemma {:induction false} BurstDelivered(es: seq<Entry>, at: real, c: Limits)
    requires Bearable(es, c) && (es != [] ==> at - es[0].entered <= c.maxAge)
    ensures var l := Run(Puts(es) + Pops(|Merge(Events(es))|, at), c);
            && !l.queue.failed && l.queue.items == [] && l.accepted == es
            && Out(l.popped) == Merge(Events(es)) && Flatten(Runs(l.popped)) == es
  {
    var n := |Merge(Events(es))|;
    BurstDrains(es, n, at, c);
    var l := Run(Puts(es) + Pops(n, at), c);
    assert Events(l.queue.items) == [] && Out(l.popped) + [] == Out(l.popped);
    HoldsWaiting(Puts(es) + Pops(n, at), c);
    assert Waiting(l) == [];
    hide Merge;
  }

  lemma {:induction false} MergeShrinks(es: seq<Event>)
    ensures |Merge(es)| <= |es|
  {
    if es != [] {
      MergeShrinks(Front(es));
    }
  }

  /** With the limits in use: up to 256 arrivals within a tenth of a second are accepted and delivered whatever they
      are, as long as neighbouring moves stay in range. */
  lemma {:induction false} EverydayBurst(es: seq<Entry>, at: real)
    requires |es| <= 256 && Sorted(es) && InReach(es)
    requires es != [] ==> 0.0 <= es[0].entered && Last(es).entered <= at <= es[0].entered + 0.1
    ensures var l := Run(Puts(es) + Pops(|Merge(Events(es))|, at), LIMITS);
            && l.accepted == es && l.queue == EMPTY
            && Out(l.popped) == Merge(Events(es)) && Flatten(Runs(l.popped)) == es
  {
    MergeShrinks(Events(es));
    BurstDelivered(es, at, LIMITS);
    hide Merge;
  }

  // ---- Waking the consumer ----

  /** How often the puts of a run woke the consumer. */
  function Wakings(steps: seq<Step>, c: Limits): nat {
    if steps == [] then 0
    else
      var l, s := Run(Front(steps), c), Last(steps);
      Wakings(Front(steps), c) + (if s.DoPut? && s.now >= l.latest && Wakes(l.queue, s.event, s.now, c) then 1 else 0)
  }

  /** How often the queue was popped or cleared. */
  function Emptyings(steps: seq<Step>): nat {
    if steps == [] then 0 else Emptyings(Front(steps)) + (if Last(steps).DoPut? then 0 else 1)
  }

  /** In every run the puts wake the consumer at most twice between two pops or clears: for the first item of an empty
      queue, and when they fail it. */
  lemma {:induction false} WakesSeldom(steps: seq<Step>, c: Limits)
    ensures var q, n := Run(steps, c).queue, Wakings(steps, c);
            n + (if q.items == [] && !q.failed then 1 else 0) <= 2 * Emptyings(steps) + (if q.failed then 2 else 1)
  {
    if steps != [] {
      WakesSeldom(Front(steps), c);
      hide Merge;
    }
  }
}
