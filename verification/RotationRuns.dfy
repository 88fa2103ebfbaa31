/** Runs in which the registry's password is lost: by a confirmation meant for an earlier change, and by a request cut
    off from its connection and carried out after a newer change. */
module RotationRuns {
  import opened Sequences
  import opened Rotation
  import opened RotationSystem

  const FIRST: Pending := Pending(51, 70)
  const SECOND: Pending := Pending(52, 71)
  const UNUSED: Pending := Pending(90, 91)

  /** The target registered under owner 1 and password 2, and its first connection up. */
  const REGISTERED: Identity := Identity(1, 2, Some(9), None)
  const CONNECTED: System := System(
    Some(REGISTERED), Some(Process(REGISTERED, false, true)), Some(Row(2, 1, None)), true, [], [], 0, 2, [], 0, [],
    {1, 2})

  const CONNECTING: seq<Action> := [Launch(1, 2, true), Hello, Welcome(9, UNUSED, true, true)]

  lemma Extend(before: seq<Action>, a: Action)
    ensures Run(before + [a]) == Step(Run(before), a)
    ensures AllFresh(before + [a]) <==> AllFresh(before) && Fresh(Run(before), a)
    ensures AllSettled(before + [a]) <==> AllSettled(before) && Settled(Run(before), a)
  {
    assert Front(before + [a]) == before;
  }

  ghost predicate Fine(actions: seq<Action>) { AllFresh(actions) && AllSettled(actions) }

  lemma ExtendTwo(before: seq<Action>, a: Action, b: Action)
    ensures Run(before + [a, b]) == Step(Step(Run(before), a), b)
    ensures AllFresh(before) && Fresh(Run(before), a) && Fresh(Step(Run(before), a), b) ==> AllFresh(before + [a, b])
    ensures AllSettled(before) && Settled(Run(before), a) && Settled(Step(Run(before), a), b)
            ==> AllSettled(before + [a, b])
  {
    Extend(before, a);
    Extend(before + [a], b);
    assert before + [a] + [b] == before + [a, b];
  }

  lemma ExtendThree(before: seq<Action>, a: Action, b: Action, c: Action)
    ensures Run(before + [a, b, c]) == Step(Step(Step(Run(before), a), b), c)
    ensures (&& AllFresh(before) && Fresh(Run(before), a) && Fresh(Step(Run(before), a), b)
             && Fresh(Step(Step(Run(before), a), b), c)) ==> AllFresh(before + [a, b, c])
    ensures (&& AllSettled(before) && Settled(Run(before), a) && Settled(Step(Run(before), a), b)
             && Settled(Step(Step(Run(before), a), b), c)) ==> AllSettled(before + [a, b, c])
  {
    ExtendTwo(before, a, b);
    Extend(before + [a, b], c);
    assert before + [a, b] + [c] == before + [a, b, c];
  }

  lemma Connected()
    ensures Run(CONNECTING) == CONNECTED && Fine(CONNECTING)
  {
    ExtendThree([], Launch(1, 2, true), Hello, Welcome(9, UNUSED, true, true));
    assert [] + CONNECTING == CONNECTING;
    var y1 := Step(START, Launch(1, 2, true));
    var i := Identity(1, 2, None, None);
    assert y1 == START.(saved := Some(i), process := Some(Process(i, false, false)), initial := 2, used := {} + {1, 2});
    var y2 := Step(y1, Hello);
    assert y2 == y1.(row := Some(Row(2, 1, None)), attached := true);
    assert {} + {1, 2} == {1, 2};
  }

  /** What the target shows while a change is pending. */
  function Changing(i: Identity, p: Pending): Identity { i.(pending := Some(p)) }

  /** A new change is begun on a live connection with nothing outstanding. */
  lemma Begun(y: System, i: Identity, drawn: Pending)
    requires y.attached && y.requests == [] && i.pending.None?
    requires y.process == Some(Process(i, false, true)) && y.saved == Some(i)
    ensures Step(y, Command(drawn, true))
            == y.(saved := Some(Changing(i, drawn)), process := Some(Process(Changing(i, drawn), true, true)),
                  begun := y.begun + [drawn], requests := [Request(drawn, |y.begun| + 1)],
                  used := y.used + {drawn.password, drawn.rotation})
  {
  }

  /** The relay carries the pending change out, and its confirmation arrives. */
  lemma CarriedOut(y: System, i: Identity, p: Pending, n: nat)
    requires y.process == Some(Process(Changing(i, p), true, true)) && y.saved == Some(Changing(i, p))
    requires y.requests == [Request(p, n)] && y.replies == 0 && y.row.Some? && y.row.value.rotation != Some(p.rotation)
    ensures var done := i.(password := p.password, pending := None);
            Step(Step(y, Execute), Confirm(true))
            == y.(saved := Some(done), process := Some(Process(done, false, true)), requests := [],
                  row := Some(Row(p.password, y.row.value.generation + 1, Some(p.rotation))), carried := n,
                  raised := y.raised + [n])
  {
    var y1 := Step(y, Execute);
    assert y1 == y.(row := Some(Row(p.password, y.row.value.generation + 1, Some(p.rotation))), carried := n,
                    raised := y.raised + [n], requests := [], replies := 1);
  }

  // ---- A request carried out late ----

  const CUT_OFF: seq<Action> := [Command(FIRST, true), CutOff, Drop]
  const RECONNECT: seq<Action> := [Hello, Welcome(9, UNUSED, true, true)]
  const CONFIRMED: seq<Action> := [Execute, Confirm(true)]
  const SECOND_CHANGE: seq<Action> := [Command(SECOND, true), Execute, Confirm(true)]

  const CUT: System := System(
    Some(REGISTERED.(pending := Some(FIRST))), Some(Process(REGISTERED.(pending := Some(FIRST)), true, false)),
    Some(Row(2, 1, None)), false, [], [Request(FIRST, 1)], 0, 2, [FIRST], 0, [], {1, 2, 51, 70})

  lemma CutShort(before: seq<Action>)
    requires Run(before) == CONNECTED && Fine(before)
    ensures Run(before + CUT_OFF) == CUT && Fine(before + CUT_OFF)
  {
    hide Run, AllFresh, AllSettled;
    ExtendThree(before, Command(FIRST, true), CutOff, Drop);
    Begun(CONNECTED, REGISTERED, FIRST);
    assert CONNECTED.begun + [FIRST] == [FIRST] && {1, 2} + {51, 70} == {1, 2, 51, 70};
    var y1 := Step(CONNECTED, Command(FIRST, true));
    var y2 := Step(y1, CutOff);
    assert y2 == y1.(attached := false, requests := [], late := [Request(FIRST, 1)]);
  }

  lemma Reconnected(before: seq<Action>)
    requires Run(before) == CUT && Fine(before)
    ensures Run(before + RECONNECT)
            == CUT.(process := Some(Process(Changing(REGISTERED, FIRST), true, true)), attached := true,
                    requests := [Request(FIRST, 1)])
    ensures Fine(before + RECONNECT)
  {
    hide Run, AllFresh, AllSettled;
    ExtendTwo(before, Hello, Welcome(9, UNUSED, true, true));
    var y1 := Step(CUT, Hello);
    assert y1 == CUT.(attached := true);
  }

  const FIRST_DONE: Identity := Identity(1, 51, Some(9), None)
  const SECOND_DONE: Identity := Identity(1, 52, Some(9), None)

  lemma FirstConfirmed(before: seq<Action>)
    requires Run(before) == CUT.(process := Some(Process(Changing(REGISTERED, FIRST), true, true)), attached := true,
                                 requests := [Request(FIRST, 1)])
    requires Fine(before)
    ensures Run(before + CONFIRMED)
            == System(Some(FIRST_DONE), Some(Process(FIRST_DONE, false, true)), Some(Row(51, 2, Some(70))), true, [],
                      [Request(FIRST, 1)], 0, 2, [FIRST], 1, [1], {1, 2, 51, 70})
    ensures Fine(before + CONFIRMED)
  {
    hide Run, AllFresh, AllSettled;
    ExtendTwo(before, Execute, Confirm(true));
    CarriedOut(Run(before), REGISTERED, FIRST, 1);
    assert [] + [1] == [1];
  }

  lemma SecondConfirmed(before: seq<Action>)
    requires Run(before)
             == System(Some(FIRST_DONE), Some(Process(FIRST_DONE, false, true)), Some(Row(51, 2, Some(70))), true, [],
                       [Request(FIRST, 1)], 0, 2, [FIRST], 1, [1], {1, 2, 51, 70})
    requires Fine(before)
    ensures var y := Run(before + SECOND_CHANGE);
            && y.saved == Some(SECOND_DONE) && y.process == Some(Process(SECOND_DONE, false, true))
            && y.row == Some(Row(52, 3, Some(71))) && y.late == [Request(FIRST, 1)] && y.raised == [1, 2]
    ensures Fine(before + SECOND_CHANGE)
  {
    hide Run, AllFresh, AllSettled;
    ExtendThree(before, Command(SECOND, true), Execute, Confirm(true));
    Begun(Run(before), FIRST_DONE, SECOND);
    var y1 := Step(Run(before), Command(SECOND, true));
    CarriedOut(y1, FIRST_DONE, SECOND, 2);
    assert [1] + [2] == [1, 2];
  }

  /** A change is cut off, sent again, carried out and confirmed; so is a second one; then the call of the cut-off
      request completes. Nothing was begun with anything outstanding, yet the registry is back on the first
      change's password, the target has saved the second's with nothing pending, and two ids have raised the
      generation three times. */
  lemma LateRun()
    ensures var actions := CONNECTING + CUT_OFF + RECONNECT + CONFIRMED + SECOND_CHANGE + [Late(0)];
            var y := Run(actions);
            && AllFresh(actions) && AllSettled(actions)
            && y.row == Some(Row(51, 4, Some(70))) && y.saved == Some(SECOND_DONE) && y.raised == [1, 2, 1]
            && !Consistent(y) && !Distinct(y.raised)
  {
    hide Run, AllFresh, AllSettled, Step;
    Connected();
    CutShort(CONNECTING);
    Reconnected(CONNECTING + CUT_OFF);
    FirstConfirmed(CONNECTING + CUT_OFF + RECONNECT);
    SecondConfirmed(CONNECTING + CUT_OFF + RECONNECT + CONFIRMED);
    var before := CONNECTING + CUT_OFF + RECONNECT + CONFIRMED + SECOND_CHANGE;
    Extend(before, Late(0));
    LateBack(Run(before));
  }

  lemma LateBack(y: System)
    requires y.saved == Some(SECOND_DONE) && y.row == Some(Row(52, 3, Some(71)))
    requires y.late == [Request(FIRST, 1)] && y.raised == [1, 2]
    ensures var t := Step(y, Late(0));
            && t.row == Some(Row(51, 4, Some(70))) && t.saved == y.saved && t.raised == [1, 2, 1]
            && !Consistent(t) && !Distinct(t.raised) && Fresh(y, Late(0)) && Settled(y, Late(0))
  {
    var t := Step(y, Late(0));
    assert t.raised == [1, 2] + [1] == [1, 2, 1];
    assert t.raised[0] == t.raised[2];
  }

  // ---- A confirmation meant for an earlier change ----

  const TWICE: seq<Action> := [Command(FIRST, true), Command(UNUSED, true), Execute]
  const ONE_CONFIRMED: seq<Action> := [Execute, Confirm(true)]
  const CONFUSED: seq<Action> := [Command(SECOND, true), Confirm(true)]

  lemma Doubled(before: seq<Action>)
    requires Run(before) == CONNECTED && AllFresh(before)
    ensures var y := Run(before + TWICE);
            && y.saved == Some(Changing(REGISTERED, FIRST))
            && y.process == Some(Process(Changing(REGISTERED, FIRST), true, true)) && y.attached
            && y.row == Some(Row(51, 2, Some(70))) && y.requests == [Request(FIRST, 1)] && y.replies == 1
            && y.used == {1, 2, 51, 70}
    ensures AllFresh(before + TWICE)
  {
    hide Run, AllFresh, AllSettled, Step;
    ExtendThree(before, Command(FIRST, true), Command(UNUSED, true), Execute);
    DoubledSteps();
  }

  lemma DoubledSteps()
    ensures var y1 := Step(CONNECTED, Command(FIRST, true));
            var y2 := Step(y1, Command(UNUSED, true));
            var y := Step(y2, Execute);
            && y.saved == Some(Changing(REGISTERED, FIRST))
            && y.process == Some(Process(Changing(REGISTERED, FIRST), true, true)) && y.attached
            && y.row == Some(Row(51, 2, Some(70))) && y.requests == [Request(FIRST, 1)] && y.replies == 1
            && y.used == {1, 2, 51, 70}
            && Fresh(CONNECTED, Command(FIRST, true)) && Fresh(y1, Command(UNUSED, true)) && Fresh(y2, Execute)
  {
    var y1 := Step(CONNECTED, Command(FIRST, true));
    FirstBegun();
    AgainSent(y1);
    SentOnce(Step(y1, Command(UNUSED, true)));
  }

  lemma FirstBegun()
    ensures var y := Step(CONNECTED, Command(FIRST, true));
            && y.saved == Some(Changing(REGISTERED, FIRST))
            && y.process == Some(Process(Changing(REGISTERED, FIRST), true, true)) && y.attached
            && y.row == CONNECTED.row && y.requests == [Request(FIRST, 1)] && y.replies == 0
            && y.begun == [FIRST] && y.used == {1, 2, 51, 70}
  {
    hide Step;
    Begun(CONNECTED, REGISTERED, FIRST);
    assert CONNECTED.begun + [FIRST] == [FIRST] && {1, 2} + {51, 70} == {1, 2, 51, 70};
  }

  lemma AgainSent(y: System)
    requires y.saved == Some(Changing(REGISTERED, FIRST)) && y.attached && |y.begun| == 1
    requires y.process == Some(Process(Changing(REGISTERED, FIRST), true, true)) && y.requests == [Request(FIRST, 1)]
    ensures Step(y, Command(UNUSED, true)) == y.(requests := [Request(FIRST, 1), Request(FIRST, 1)])
  {
    assert y.requests + [Request(FIRST, 1)] == [Request(FIRST, 1), Request(FIRST, 1)];
  }

  lemma SentOnce(y: System)
    requires y.requests == [Request(FIRST, 1), Request(FIRST, 1)] && y.row == Some(Row(2, 1, None)) && y.replies == 0
    requires y.process.Some? && y.process.value.linked
    ensures var t := Step(y, Execute);
            && t.saved == y.saved && t.process == y.process && t.attached == y.attached && t.used == y.used
            && t.row == Some(Row(51, 2, Some(70))) && t.requests == [Request(FIRST, 1)] && t.replies == 1
  {
    assert y.requests[1..] == [Request(FIRST, 1)];
  }

  lemma OneLeft(before: seq<Action>)
    requires var y := Run(before);
             && y.saved == Some(Changing(REGISTERED, FIRST))
             && y.process == Some(Process(Changing(REGISTERED, FIRST), true, true)) && y.attached
             && y.row == Some(Row(51, 2, Some(70))) && y.requests == [Request(FIRST, 1)] && y.replies == 1
             && y.used == {1, 2, 51, 70}
    requires AllFresh(before)
    ensures var y := Run(before + ONE_CONFIRMED);
            && y.saved == Some(FIRST_DONE) && y.process == Some(Process(FIRST_DONE, false, true)) && y.attached
            && y.row == Some(Row(51, 2, Some(70))) && y.requests == [] && y.replies == 1 && y.used == {1, 2, 51, 70}
    ensures AllFresh(before + ONE_CONFIRMED)
  {
    hide Run, AllFresh, AllSettled;
    ExtendTwo(before, Execute, Confirm(true));
    var y := Run(before);
    var y1 := Step(y, Execute);
    assert y1 == y.(requests := [], replies := 2);
  }

  lemma WrongConfirmed(y: System)
    requires y.saved == Some(FIRST_DONE) && y.process == Some(Process(FIRST_DONE, false, true)) && y.attached
    requires y.row == Some(Row(51, 2, Some(70))) && y.requests == [] && y.replies == 1
    ensures var t := Step(Step(y, Command(SECOND, true)), Confirm(true));
            t.saved == Some(SECOND_DONE) && t.row == y.row && !Consistent(t)
  {
    Begun(y, FIRST_DONE, SECOND);
  }

  /** A change is sent twice and confirmed once; a second change is begun, and the other confirmation of the first
      arrives. The target saves a password the registry has never seen. */
  lemma UnsettledRun()
    ensures var actions := CONNECTING + TWICE + ONE_CONFIRMED + CONFUSED;
            var y := Run(actions);
            && AllFresh(actions) && y.row == Some(Row(51, 2, Some(70))) && y.saved == Some(SECOND_DONE)
            && !Consistent(y)
  {
    hide Run, AllFresh, AllSettled, Step;
    Connected();
    Doubled(CONNECTING);
    OneLeft(CONNECTING + TWICE);
    var before := CONNECTING + TWICE + ONE_CONFIRMED;
    ExtendTwo(before, Command(SECOND, true), Confirm(true));
    WrongConfirmed(Run(before));
  }
}
