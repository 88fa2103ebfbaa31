/** What the queue guarantees over every interleaving of put, pop and clear. */
module QueueConservation {
  import opened Sequences
  import opened Protocol
  import opened Queueing

  datatype Step = DoPut(event: Event, now: real) | DoPop(at: real) | DoClear

  /** One popped item: the arrivals it stands for, what came out, and when. */
  datatype Delivery = Delivery(run: seq<Entry>, event: Event, at: real)

  /** A queue with the record of what went in and came out since it was last cleared. */
  datatype Ledger = Ledger(
    queue: Queue, runs: seq<seq<Entry>>, accepted: seq<Entry>, popped: seq<Delivery>, latest: real)

  const START: Ledger := Ledger(EMPTY, [], [], [], 0.0)

  /** The producer's clock never runs backwards; a step that would is not taken. */
  function Next(l: Ledger, s: Step, c: Limits): Ledger {
    match s
    case DoPut(event, now) =>
      if now < l.latest then l
      else
        var q := Put(l.queue, event, now, c);
        Ledger(q, PutRuns(l.queue, l.runs, event, now, c),
               if q.failed then l.accepted else l.accepted + [Entry(event, now)], l.popped, now)
    case DoPop(at) =>
      var r := PopResult(l.queue, at, c);
      l.(queue := AfterPop(l.queue, at, c), runs := PopRuns(l.queue, l.runs, at, c),
         popped := if r.Item? then l.popped + [Delivery(FirstRun(l.runs), r.event, at)] else l.popped)
    case DoClear => START.(latest := l.latest)
  }

  function Runs(ds: seq<Delivery>): seq<seq<Entry>> {
    Map((d: Delivery) => d.run, ds)
  }

  function Out(ds: seq<Delivery>): seq<Event> {
    Map((d: Delivery) => d.event, ds)
  }

  predicate Sorted(es: seq<Entry>) {
    forall i, j :: 0 <= i < j < |es| ==> es[i].entered <= es[j].entered
  }

  /** The delivered item is its run, merged, and nothing in it waited longer than allowed. */
  predicate Fresh(d: Delivery, c: Limits) {
    && Uniform(d.run) && d.event == Combine(d.run).event
    && forall e :: e in d.run ==> d.at - e.entered <= c.maxAge
  }

  predicate Good(l: Ledger, c: Limits) {
    && Tracks(l.queue, l.runs)
    && |l.queue.items| <= c.limit
    && Sorted(l.accepted) && (forall e :: e in l.accepted ==> e.entered <= l.latest)
    && (forall d :: d in l.popped ==> Fresh(d, c))
    && Flatten(Runs(l.popped)) <= l.accepted
    && (!l.queue.failed ==> Flatten(Runs(l.popped)) + Flatten(l.runs) == l.accepted)
  }

  lemma RunMembers(runs: seq<seq<Entry>>, prefix: seq<Entry>, all: seq<Entry>)
    requires runs != [] && runs[0] != []
    requires prefix + Flatten(runs) == all && Sorted(all)
    ensures forall e :: e in runs[0] ==> runs[0][0].entered <= e.entered
  {
    forall e | e in runs[0] ensures runs[0][0].entered <= e.entered {
      var i :| 0 <= i < |runs[0]| && runs[0][i] == e;
      assert all[|prefix|] == runs[0][0] && all[|prefix| + i] == e;
    }
  }

  lemma PutGood(l: Ledger, event: Event, now: real, c: Limits)
    requires Good(l, c) && now >= l.latest
    ensures Good(Next(l, DoPut(event, now), c), c)
  {
    PutTracks(l.queue, l.runs, event, now, c);
    var before, entry := Flatten(Runs(l.popped)), Entry(event, now);
    var l' := Next(l, DoPut(event, now), c);
    if !l'.queue.failed {
      assert before + (Flatten(l.runs) + [entry]) == l.accepted + [entry];
      assert Flatten(l'.runs) == Flatten(l.runs) + [entry];
    }
  }

  lemma PopFresh(l: Ledger, at: real, c: Limits)
    requires Good(l, c) && PopResult(l.queue, at, c).Item?
    ensures l.runs != []
    ensures Fresh(Delivery(l.runs[0], PopResult(l.queue, at, c).event, at), c)
  {
    PopTracks(l.queue, l.runs, at, c);
    RunMembers(l.runs, Flatten(Runs(l.popped)), l.accepted);
    CombineUniform(l.runs[0]);
  }

  lemma RunsSnoc(popped: seq<Delivery>, d: Delivery)
    ensures Runs(popped + [d]) == Runs(popped) + [d.run]
  {
  }

  lemma FlattenHead(runs: seq<seq<Entry>>)
    requires runs != []
    ensures Flatten(runs) == runs[0] + Flatten(runs[1..])
  {
  }

  lemma DeliverOne(popped: seq<Delivery>, d: Delivery, runs: seq<seq<Entry>>, accepted: seq<Entry>)
    requires runs != [] && d.run == runs[0]
    requires Flatten(Runs(popped)) + Flatten(runs) == accepted
    ensures Flatten(Runs(popped + [d])) + Flatten(runs[1..]) == accepted
  {
    RunsSnoc(popped, d);
    FlattenSnoc(Runs(popped), d.run);
    FlattenHead(runs);
    hide Flatten, Runs;
    assert Flatten(Runs(popped)) + (d.run + Flatten(runs[1..])) == Flatten(Runs(popped)) + d.run + Flatten(runs[1..]);
  }

  lemma PopGood(l: Ledger, at: real, c: Limits)
    requires Good(l, c)
    ensures Good(Next(l, DoPop(at), c), c)
  {
    PopTracks(l.queue, l.runs, at, c);
    var l' := Next(l, DoPop(at), c);
    if PopResult(l.queue, at, c).Item? {
      var d := Delivery(l.runs[0], PopResult(l.queue, at, c).event, at);
      PopFresh(l, at, c);
      DeliverOne(l.popped, d, l.runs, l.accepted);
      assert l'.popped == l.popped + [d] && l'.runs == l.runs[1..];
    }
  }

  lemma NextGood(l: Ledger, s: Step, c: Limits)
    requires Good(l, c)
    ensures Good(Next(l, s, c), c)
  {
    match s
    case DoPut(event, now) => if now >= l.latest { PutGood(l, event, now, c); }
    case DoPop(at) => PopGood(l, at, c);
    case DoClear =>
  }

  function Run(steps: seq<Step>, c: Limits): Ledger {
    if steps == [] then START else Next(Run(Front(steps), c), Last(steps), c)
  }

  /** Nothing is lost, duplicated or reordered; nothing popped is older than the age limit; the
      queue never exceeds its length limit; after a failure what was delivered is still a prefix. */
  lemma {:induction false} Conservation(steps: seq<Step>, c: Limits)
    ensures Good(Run(steps, c), c)
  {
    if steps != [] {
      Conservation(Front(steps), c);
      NextGood(Run(Front(steps), c), Last(steps), c);
    }
  }

  // ---- The same statement without runs: an independent merge of adjacent moves ----

  function Append(merged: seq<Event>, e: Event): seq<Event> {
    if merged != [] && Adjacent(Last(merged), e) then Front(merged) + [Merged(Last(merged), e)]
    else merged + [e]
  }

  function Merge(es: seq<Event>): seq<Event> {
    if es == [] then [] else Append(Merge(Front(es)), Last(es))
  }

  function MergeOnto(acc: seq<Event>, es: seq<Event>): seq<Event> {
    if es == [] then acc else Append(MergeOnto(acc, Front(es)), Last(es))
  }

  lemma {:induction false} MergeSplit(xs: seq<Event>, ys: seq<Event>)
    ensures Merge(xs + ys) == MergeOnto(Merge(xs), ys)
  {
    if ys == [] {
      assert xs + ys == xs;
    } else {
      assert Front(xs + ys) == xs + Front(ys);
      MergeSplit(xs, Front(ys));
    }
  }

  lemma AppendTwice(acc: seq<Event>, c: Event, e: Event)
    requires Adjacent(c, e)
    ensures Append(Append(acc, c), e) == Append(acc, Merged(c, e))
  {
  }

  /** Appending a run event by event is appending its merge. */
  lemma {:induction false} MergeRun(acc: seq<Event>, run: seq<Entry>)
    requires Uniform(run)
    ensures MergeOnto(acc, Events(run)) == Append(acc, Combine(run).event)
  {
    var es := Events(run);
    assert Front(es) == Events(Front(run)) && Last(es) == Last(run).event;
    if |run| == 1 {
      assert MergeOnto(acc, Front(es)) == acc;
    } else {
      MergeRun(acc, Front(run));
      CombineUniform(Front(run));
      AppendTwice(acc, Combine(Front(run)).event, Last(run).event);
    }
  }

  predicate AllUniform(runs: seq<seq<Entry>>) {
    forall i :: 0 <= i < |runs| ==> Uniform(runs[i])
  }

  function Combined(runs: seq<seq<Entry>>): (es: seq<Event>)
    requires AllUniform(runs)
    ensures |es| == |runs|
    ensures forall i :: 0 <= i < |runs| ==> es[i] == Combine(runs[i]).event
  {
    if runs == [] then [] else Combined(Front(runs)) + [Combine(Last(runs)).event]
  }

  lemma MergeSnoc(es: seq<Event>, e: Event)
    ensures Merge(es + [e]) == Append(Merge(es), e)
  {
    hide Append;
    assert Front(es + [e]) == es;
  }

  /** One run more, merged event by event or as one event. */
  lemma MergeOneRun(es: seq<Event>, done: seq<Entry>, run: seq<Entry>)
    requires run != [] && Uniform(run) && Merge(es) == Merge(Events(done))
    ensures Merge(es + [Combine(run).event]) == Merge(Events(done + run))
  {
    hide Combine, Uniform, Merge, MergeOnto, Append, Events;
    EventsConcat(done, run);
    MergeSplit(Events(done), Events(run));
    MergeRun(Merge(Events(done)), run);
    MergeSnoc(es, Combine(run).event);
  }

  lemma {:induction false} MergeRuns(runs: seq<seq<Entry>>)
    requires AllUniform(runs)
    ensures Merge(Combined(runs)) == Merge(Events(Flatten(runs)))
  {
    hide Merge, Combine;
    if runs != [] {
      var front, last := Front(runs), Last(runs);
      MergeRuns(front);
      assert Flatten(runs) == Flatten(front) + last by {
        FlattenSnoc(front, last);
        assert runs == front + [last];
      }
      MergeOneRun(Combined(front), Flatten(front), last);
    }
  }

  lemma CombinedOut(l: Ledger, c: Limits)
    requires Good(l, c)
    ensures AllUniform(Runs(l.popped) + l.runs)
    ensures Combined(Runs(l.popped) + l.runs) == Out(l.popped) + Events(l.queue.items)
  {
    var runs := Runs(l.popped) + l.runs;
    forall i | 0 <= i < |runs|
      ensures Uniform(runs[i])
      ensures Combine(runs[i]).event == (Out(l.popped) + Events(l.queue.items))[i]
    {
      if i < |l.popped| {
        assert l.popped[i] in l.popped && Fresh(l.popped[i], c);
      }
    }
  }

  /** Merging what came out and what is left gives what merging everything accepted gives. */
  lemma {:induction false} MergeConservation(steps: seq<Step>, c: Limits)
    requires !Run(steps, c).queue.failed
    ensures var l := Run(steps, c);
            Merge(Out(l.popped) + Events(l.queue.items)) == Merge(Events(l.accepted))
  {
    Conservation(steps, c);
    var l := Run(steps, c);
    FlattenConcat(Runs(l.popped), l.runs);
    CombinedOut(l, c);
    MergeRuns(Runs(l.popped) + l.runs);
  }

  predicate ValidItems(items: seq<Entry>) { forall i :: 0 <= i < |items| ==> WireValid(items[i].event) }

  lemma PutValid(q: Queue, event: Event, now: real, c: Limits)
    requires ValidItems(q.items) && WireValid(event)
    ensures ValidItems(Put(q, event, now, c).items)
  {
    if q.items != [] && Adjacent(Last(q.items).event, event) {
      assert WireValid(q.items[|q.items| - 1].event);
      var m := Merged(Last(q.items).event, event);
      assert Max(Abs(m.a), Abs(m.b)) <= MOVE_LIMIT ==> WireValid(m);
    }
  }

  predicate ValidLedger(l: Ledger) {
    ValidItems(l.queue.items) && forall i :: 0 <= i < |l.popped| ==> WireValid(l.popped[i].event)
  }

  lemma ValidStep(l: Ledger, s: Step, c: Limits)
    requires ValidLedger(l) && (s.DoPut? ==> WireValid(s.event))
    ensures ValidLedger(Next(l, s, c))
  {
    hide WireValid, Put, PutRuns, PopRuns;
    match s
    case DoPut(event, now) => PutValid(l.queue, event, now, c);
    case DoPop(at) =>
    case DoClear =>
  }

  lemma {:induction false} ValidAlways(steps: seq<Step>, c: Limits)
    requires forall i :: 0 <= i < |steps| && steps[i].DoPut? ==> WireValid(steps[i].event)
    ensures ValidLedger(Run(steps, c))
  {
    hide Next, WireValid;
    if steps != [] {
      ValidAlways(Front(steps), c);
      ValidStep(Run(Front(steps), c), Last(steps), c);
    } else {
      assert ValidLedger(START);
    }
  }

  /** A queue fed wire-valid events only ever holds and delivers wire-valid events. */
  lemma {:induction false} WireValidity(steps: seq<Step>, c: Limits)
    requires forall s :: s in steps && s.DoPut? ==> WireValid(s.event)
    ensures var l := Run(steps, c);
            && (forall e :: e in l.queue.items ==> WireValid(e.event))
            && (forall d :: d in l.popped ==> WireValid(d.event))
  {
    ValidAlways(steps, c);
  }
}
