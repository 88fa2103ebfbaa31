/** Both conditions on orderly runs are needed: concrete runs in which a controller outlives the rotation. */
module RelayEscapes {
  import opened Sequences
  import opened Registry
  import opened Relay
  import opened RelaySystem
  import opened RelayRevocation

  lemma RotateRaises(t: Table, name: string, other: string, owner: nat, password: nat, rotation: nat)
    requires OwnerCheck(t, name, owner).Some? && Lookup(t, name).value.rotation != Some(rotation)
    requires Number(other) == Number(name)
    ensures var r := Rotate(t, name, owner, password, rotation);
            r.Ok? && Generation(r.value.0, other) != Generation(t, other)
  {
  }

  /** A served target's rotation request, up to the moment its registry call starts. */
  lemma AskedRotation(y: System, t: Id, password: nat, rotation: nat, c: Id)
    requires y.lock.None? && At(y, t).Serving? && c != t
    ensures var s, y' := At(y, t), Step(Step(y, Ask(t, password, rotation)), Acquire(t));
            && At(y', t) == Rotating(s.name, s.owner, password, rotation) && At(y', c) == At(y, c)
            && y'.table == y.table && y'.desk == y.desk && y'.orphans == y.orphans
  {
    var y1 := Step(y, Ask(t, password, rotation));
    assert At(y1, t) == Asking(At(y, t).name, At(y, t).owner, password, rotation) && At(y1, c) == At(y, c);
  }

  lemma CommittedRotation(y: System, t: Id, c: Id)
    requires At(y, t).Rotating? && c != t && !Full(y.desk, t)
    requires var s := At(y, t); Rotate(y.table, s.name.text, s.owner, s.password, s.rotation).Ok?
    ensures var s, y' := At(y, t), Step(Step(y, Commit(t)), Finish(t));
            && y'.lock.None? && At(y', c) == At(y, c)
            && y'.table == Rotate(y.table, s.name.text, s.owner, s.password, s.rotation).value.0
            && y'.desk.controllers == y.desk.controllers - {s.name}
  {
    hide Rotate, Number;
    var y1 := Step(y, Commit(t));
    assert At(y1, t) == Finishing(At(y, t).name, At(y, t).owner) && At(y1, c) == At(y, c) && y1.desk == y.desk;
  }

  lemma CancelledRotation(y: System, t: Id, c: Id)
    requires At(y, t).Rotating? && c != t && y.orphans == []
    requires var s := At(y, t); Rotate(y.table, s.name.text, s.owner, s.password, s.rotation).Ok?
    ensures var s, y' := At(y, t), Step(Step(y, Cancel(t)), Orphan(0));
            && y'.lock.None? && At(y', c) == At(y, c) && y'.desk == y.desk
            && y'.table == Rotate(y.table, s.name.text, s.owner, s.password, s.rotation).value.0
  {
    hide Rotate, Number;
    var s, y1 := At(y, t), Step(y, Cancel(t));
    assert y1.orphans == [Job(s.name, s.owner, s.password, s.rotation)] && At(y1, c) == At(y, c);
  }

  /** From any moment at which a target is being served and a controller is admitted under another spelling
      of the same number, the target's next rotation leaves that controller in place with a generation the
      registry no longer has, and the lock free. */
  lemma AliasEscapes(y: System, t: Id, n: TargetName, password: nat, rotation: nat)
    requires y.lock.None? && At(y, t).Serving? && At(y, t).name != n && !Full(y.desk, t)
    requires Number(n.text) == Number(At(y, t).name.text)
    requires OwnerCheck(y.table, n.text, At(y, t).owner).Some?
    requires Lookup(y.table, n.text).value.rotation != Some(rotation)
    requires n in y.desk.controllers && y.desk.controllers[n] != t
    requires ControllerStage(At(y, y.desk.controllers[n])) && Current(y, n)
    ensures var y1 := Step(Step(y, Ask(t, password, rotation)), Acquire(t));
            var y2 := Step(Step(y1, Commit(t)), Finish(t));
            && y2.lock.None? && n in y2.desk.controllers && y2.desk.controllers[n] == y.desk.controllers[n]
            && ControllerStage(At(y2, y2.desk.controllers[n])) && !Current(y2, n)
  {
    var s, c := At(y, t), y.desk.controllers[n];
    RotateRaises(y.table, s.name.text, n.text, s.owner, password, rotation);
    hide Number, Rotate, Generation, Step, Full;
    AskedRotation(y, t, password, rotation, c);
    CommittedRotation(Step(Step(y, Ask(t, password, rotation)), Acquire(t)), t, c);
  }

  /** From any moment at which a target is being served and has a controller, cancelling the coroutine that
      awaits the rotation frees the lock while the rotation still goes through later, leaving the controller
      in place with a generation the registry no longer has. */
  lemma CancelEscapes(y: System, t: Id, password: nat, rotation: nat)
    requires y.lock.None? && y.orphans == [] && At(y, t).Serving?
    requires var n := At(y, t).name;
             && OwnerCheck(y.table, n.text, At(y, t).owner).Some?
             && Lookup(y.table, n.text).value.rotation != Some(rotation)
             && n in y.desk.controllers && y.desk.controllers[n] != t
             && ControllerStage(At(y, y.desk.controllers[n])) && Current(y, n)
    ensures var n := At(y, t).name;
            var y1 := Step(Step(y, Ask(t, password, rotation)), Acquire(t));
            var y2 := Step(Step(y1, Cancel(t)), Orphan(0));
            && y2.lock.None? && n in y2.desk.controllers && y2.desk.controllers[n] == y.desk.controllers[n]
            && ControllerStage(At(y2, y2.desk.controllers[n])) && !Current(y2, n)
  {
    var s, c := At(y, t), y.desk.controllers[At(y, t).name];
    RotateRaises(y.table, s.name.text, s.name.text, s.owner, password, rotation);
    hide Number, Rotate, Generation, Step;
    AskedRotation(y, t, password, rotation, c);
    CancelledRotation(Step(Step(y, Ask(t, password, rotation)), Acquire(t)), t, c);
  }

  // ---- Runs from the start ----

  const CANONICAL: TargetName := TargetName("TARGET-001")
  const PADDED: TargetName := TargetName("TARGET-0001")

  /** One target, its owner 5, its first password 50. */
  const ONE_TARGET: Table := Table(map[1 := Row(5, 50, 1, None)], 2)

  /** A target connects: checked, then listed under the lock. */
  function Connecting(t: Id, known: Option<TargetName>): seq<Action> {
    [AuthTarget(t, known, 5, 50), Acquire(t), Enter(t)]
  }

  /** A controller logs in with the first password and is admitted. */
  function Admitting(c: Id, name: TargetName): seq<Action> { [Login(c, name, 50), Acquire(c), Read(c), Decide(c)] }

  /** The target connected as t changes its password to 51. */
  function Changing(t: Id): seq<Action> { [Ask(t, 51, 70), Acquire(t), Commit(t), Finish(t)] }

  /** The same, cut off while the registry call runs; the connection then ends. */
  function CutOff(t: Id): seq<Action> { [Ask(t, 51, 70), Acquire(t), Cancel(t), Detach(t)] }

  lemma RunSnoc(before: seq<Action>, a: Action)
    ensures Run(before + [a]) == Step(Run(before), a)
  {
    assert Front(before + [a]) == before;
  }

  lemma RunThree(before: seq<Action>, a: Action, b: Action, c: Action)
    ensures Run(before + [a, b, c]) == Step(Step(Step(Run(before), a), b), c)
  {
    RunSnoc(before, a);
    RunSnoc(before + [a], b);
    RunSnoc(before + [a] + [b], c);
    assert before + [a, b, c] == before + [a] + [b] + [c];
  }

  lemma RunFour(before: seq<Action>, a: Action, b: Action, c: Action, d: Action)
    ensures Run(before + [a, b, c, d]) == Step(Step(Step(Step(Run(before), a), b), c), d)
  {
    RunThree(before, a, b, c);
    RunSnoc(before + [a, b, c], d);
    assert before + [a, b, c, d] == before + [a, b, c] + [d];
  }

  lemma Spellings()
    ensures Number(CANONICAL.text) == 1 == Number(PADDED.text) && Name(1) == CANONICAL.text
    ensures CANONICAL != PADDED && Canonical(CANONICAL.text)
  {
    AliasExists();
    ShortTail();
  }

  /** The very first target. */
  lemma FirstTarget()
    ensures Run(Connecting(1, None))
            == System(Desk(map[CANONICAL := 1], map[], map[1 := NEW_BOX]), ONE_TARGET,
                      map[1 := Serving(CANONICAL, 5)], None, [])
  {
    Spellings();
    hide Name, Number;
    RunThree([], AuthTarget(1, None, 5, 50), Acquire(1), Enter(1));
    assert [] + Connecting(1, None) == Connecting(1, None);
    assert 1 < Pow10(MAX_DIGITS) && 2 <= Pow10(MAX_DIGITS) by { Twelve(); }
    var y1 := Step(START, AuthTarget(1, None, 5, 50));
    assert y1 == System(NOBODY, ONE_TARGET, map[1 := Verified(CANONICAL, 5)], None, []);
    var y2 := Step(y1, Acquire(1));
    assert y2 == System(NOBODY, ONE_TARGET, map[1 := Entering(CANONICAL, 5)], Some(1), []);
  }

  lemma Twelve()
    ensures Pow10(MAX_DIGITS) >= 10
  {
    Pow10Positive(MAX_DIGITS - 1);
  }

  lemma TargetSteps(y: System, t: Id, name: TargetName)
    requires y.table == ONE_TARGET && y.lock.None? && t !in y.stage && name !in y.desk.targets && Number(name.text) == 1
    ensures Step(Step(Step(y, AuthTarget(t, Some(name), 5, 50)), Acquire(t)), Enter(t))
            == y.(desk := Install(y.desk, name, t), stage := y.stage[t := Serving(name, 5)])
  {
    hide Number, Install;
    var y1 := Step(y, AuthTarget(t, Some(name), 5, 50));
    assert y1 == y.(stage := y.stage[t := Verified(name, 5)]);
    var y2 := StepAcquire(y1, t);
    assert y2 == y.(stage := y.stage[t := Entering(name, 5)], lock := Some(t));
    assert StepEnter(y2, t).stage == y.stage[t := Serving(name, 5)];
  }

  /** The same owner connects once more, under a name nobody is listed under. */
  lemma AnotherTarget(before: seq<Action>, t: Id, name: TargetName)
    requires var y := Run(before);
             && y.table == ONE_TARGET && y.lock.None?
             && t !in y.stage && name !in y.desk.targets && Number(name.text) == 1
    ensures var y, y' := Run(before), Run(before + Connecting(t, Some(name)));
            y' == y.(desk := Install(y.desk, name, t), stage := y.stage[t := Serving(name, 5)])
  {
    hide Number, Step, Run, Install;
    RunThree(before, AuthTarget(t, Some(name), 5, 50), Acquire(t), Enter(t));
    TargetSteps(Run(before), t, name);
  }

  lemma ComparedSteps(y: System, c: Id, name: TargetName)
    requires y.table == ONE_TARGET && y.lock.None? && c !in y.stage && Number(name.text) == 1
    ensures Step(Step(Step(y, Login(c, name, 50)), Acquire(c)), Read(c))
            == y.(stage := y.stage[c := Compared(name, 1, Some(1))], lock := Some(c))
  {
    hide Number;
    var y1 := StepLogin(y, c, name, 50);
    assert y1 == y.(stage := y.stage[c := Checked(name, 1)]);
    var y2 := StepAcquire(y1, c);
    assert y2 == y.(stage := y.stage[c := Locked(name, 1)], lock := Some(c));
    var y3 := Step(y2, Read(c));
    assert y3.stage == y.stage[c := Compared(name, 1, Some(1))];
  }

  lemma DecidedStep(y: System, c: Id, name: TargetName)
    requires At(y, c) == Compared(name, 1, Some(1))
    requires name in y.desk.targets && name !in y.desk.controllers && !Full(y.desk, y.desk.targets[name])
    ensures Step(y, Decide(c)) == y.(desk := Admit(y.desk, name, c), lock := None,
                                     stage := y.stage[c := Reading(name, 1, y.desk.targets[name])])
  {
    hide Full, Put, Admit;
  }

  /** A controller is admitted with the first password. */
  lemma Admission(before: seq<Action>, c: Id, name: TargetName)
    requires var y := Run(before);
             && y.table == ONE_TARGET && y.lock.None? && c !in y.stage && Number(name.text) == 1
             && name in y.desk.targets && name !in y.desk.controllers && !Full(y.desk, y.desk.targets[name])
    ensures var y, y' := Run(before), Run(before + Admitting(c, name));
            y' == y.(desk := Admit(y.desk, name, c), stage := y.stage[c := Reading(name, 1, y.desk.targets[name])])
  {
    hide Number, Full, Put, Admit, Step, Run;
    RunFour(before, Login(c, name, 50), Acquire(c), Read(c), Decide(c));
    var y := Run(before);
    ComparedSteps(y, c, name);
    var y3 := y.(stage := y.stage[c := Compared(name, 1, Some(1))], lock := Some(c));
    DecidedStep(y3, c, name);
    var reading := Reading(name, 1, y.desk.targets[name]);
    assert y3.stage[c := reading] == y.stage[c := reading];
  }

  /** Nothing cancelled, one padded name: the owner's target connects a second time under the padded name, a
      controller is admitted there, and the first connection changes the password. The controller stays. */
  lemma AliasRun()
    ensures var y := Run(Connecting(1, None) + Connecting(2, Some(PADDED)) + Admitting(3, PADDED) + Changing(1));
            && y.lock.None? && y.desk.targets == map[CANONICAL := 1, PADDED := 2]
            && y.desk.controllers == map[PADDED := 3] && At(y, 3) == Reading(PADDED, 1, 2)
            && At(y, 2).Serving? && Generation(y.table, PADDED.text) == Some(2) && !Current(y, PADDED)
  {
    hide Number, Name, Run, Step, Connecting, Admitting, Changing, CutOff;
    Spellings();
    FirstTarget();
    var a, b := Connecting(1, None), Connecting(1, None) + Connecting(2, Some(PADDED));
    AnotherTarget(a, 2, PADDED);
    assert Run(b).desk == Desk(map[CANONICAL := 1, PADDED := 2], map[], map[1 := NEW_BOX, 2 := NEW_BOX]);
    Admission(b, 3, PADDED);
    var c := b + Admitting(3, PADDED);
    AliasEnd(c);
  }

  /** A rotation request from the target listed as CANONICAL, up to its registry call. */
  lemma RotatingSteps(y: System)
    requires y.lock.None? && At(y, 1) == Serving(CANONICAL, 5)
    ensures Step(Step(y, Ask(1, 51, 70)), Acquire(1))
            == y.(stage := y.stage[1 := Rotating(CANONICAL, 5, 51, 70)], lock := Some(1))
  {
    var y1 := Step(y, Ask(1, 51, 70));
    assert y1 == y.(stage := y.stage[1 := Asking(CANONICAL, 5, 51, 70)]);
    assert StepAcquire(y1, 1).stage == y.stage[1 := Rotating(CANONICAL, 5, 51, 70)];
  }

  lemma ChangedTable()
    ensures Rotate(ONE_TARGET, CANONICAL.text, 5, 51, 70) == Ok((Table(map[1 := Row(5, 51, 2, Some(70))], 2), 2))
  {
    Spellings();
    hide Number;
    assert ONE_TARGET.rows[1 := Row(5, 51, 2, Some(70))] == map[1 := Row(5, 51, 2, Some(70))];
  }

  lemma FinishedSteps(y: System)
    requires y.table == ONE_TARGET && At(y, 1) == Rotating(CANONICAL, 5, 51, 70) && !Full(y.desk, 1)
    requires CANONICAL !in y.desk.controllers
    ensures var y' := Step(Step(y, Commit(1)), Finish(1));
            && y'.lock.None? && y'.desk.targets == y.desk.targets && y'.desk.controllers == y.desk.controllers
            && y'.table == Table(map[1 := Row(5, 51, 2, Some(70))], 2)
            && forall i: Id :: i != 1 ==> At(y', i) == At(y, i)
  {
    ChangedTable();
    hide Rotate, Put, Full;
    var y1 := StepCommit(y, 1);
    assert y1 == y.(table := Table(map[1 := Row(5, 51, 2, Some(70))], 2),
                    stage := y.stage[1 := Finishing(CANONICAL, 5)]);
    assert y.desk.controllers - {CANONICAL} == y.desk.controllers;
  }

  lemma AliasEnd(c: seq<Action>)
    requires var y := Run(c);
             && y.table == ONE_TARGET && y.lock.None? && !Full(y.desk, 1)
             && y.desk.targets == map[CANONICAL := 1, PADDED := 2] && y.desk.controllers == map[PADDED := 3]
             && At(y, 1) == Serving(CANONICAL, 5) && At(y, 2) == Serving(PADDED, 5) && At(y, 3) == Reading(PADDED, 1, 2)
    ensures var y := Run(c + Changing(1));
            && y.lock.None? && y.desk.targets == map[CANONICAL := 1, PADDED := 2]
            && y.desk.controllers == map[PADDED := 3] && At(y, 3) == Reading(PADDED, 1, 2)
            && At(y, 2).Serving? && Generation(y.table, PADDED.text) == Some(2) && !Current(y, PADDED)
  {
    Spellings();
    hide Name, Number, Put, Full, Run, Step;
    RunFour(c, Ask(1, 51, 70), Acquire(1), Commit(1), Finish(1));
    var y := Run(c);
    RotatingSteps(y);
    FinishedSteps(y.(stage := y.stage[1 := Rotating(CANONICAL, 5, 51, 70)], lock := Some(1)));
  }

  /** Canonical names only, one rotation cut off: the target's connection ends while the registry call still
      runs, the target connects again, a controller is admitted with the first password, and only then the call
      completes. The target keeps serving that controller, and no step of its own is left that would remove it. */
  lemma CancelRun()
    ensures var y := Run(Connecting(1, None) + CutOff(1) + Connecting(2, Some(CANONICAL)) + Admitting(3, CANONICAL)
                         + [Orphan(0)]);
            && y.lock.None? && y.orphans == [] && y.desk.targets == map[CANONICAL := 2]
            && y.desk.controllers == map[CANONICAL := 3] && At(y, 3) == Reading(CANONICAL, 1, 2)
            && At(y, 2) == Serving(CANONICAL, 5)
            && Generation(y.table, CANONICAL.text) == Some(2) && !Current(y, CANONICAL)
  {
    hide Number, Name, Run, Step, Connecting, Admitting, Changing, CutOff;
    Spellings();
    FirstTarget();
    var a := Connecting(1, None);
    CutOffEnd(a);
    var b := a + CutOff(1);
    AnotherTarget(b, 2, CANONICAL);
    var c := b + Connecting(2, Some(CANONICAL));
    assert Run(c).desk == Desk(map[CANONICAL := 2], map[], map[1 := NEW_BOX, 2 := NEW_BOX]);
    Admission(c, 3, CANONICAL);
    var d := c + Admitting(3, CANONICAL);
    RunSnoc(d, Orphan(0));
    OrphanEnd(Run(d));
  }

  lemma CutOffSteps(y: System)
    requires y.desk.targets == map[CANONICAL := 1] && y.desk.controllers == map[] && y.orphans == []
    requires y.stage == map[1 := Rotating(CANONICAL, 5, 51, 70)]
    ensures Step(Step(y, Cancel(1)), Detach(1))
            == System(Desk(map[], map[], y.desk.boxes), y.table, map[1 := Closed(None)], None,
                      [Job(CANONICAL, 5, 51, 70)])
  {
    var y1 := StepCancel(y, 1);
    assert y1 == y.(stage := map[1 := Retiring(CANONICAL)], orphans := [Job(CANONICAL, 5, 51, 70)], lock := None);
    assert map[CANONICAL := 1] - {CANONICAL} == map[];
    assert StepDetach(y1, 1).desk == Desk(map[], map[], y.desk.boxes);
  }

  lemma CutOffEnd(a: seq<Action>)
    requires Run(a) == System(Desk(map[CANONICAL := 1], map[], map[1 := NEW_BOX]), ONE_TARGET,
                              map[1 := Serving(CANONICAL, 5)], None, [])
    ensures Run(a + CutOff(1)) == System(Desk(map[], map[], map[1 := NEW_BOX]), ONE_TARGET,
                                         map[1 := Closed(None)], None, [Job(CANONICAL, 5, 51, 70)])
  {
    hide Run, Step;
    RunFour(a, Ask(1, 51, 70), Acquire(1), Cancel(1), Detach(1));
    var y := Run(a);
    RotatingSteps(y);
    var y2 := y.(stage := y.stage[1 := Rotating(CANONICAL, 5, 51, 70)], lock := Some(1));
    assert y2.stage == map[1 := Rotating(CANONICAL, 5, 51, 70)];
    CutOffSteps(y2);
  }

  lemma OrphanEnd(y: System)
    requires y.table == ONE_TARGET && y.orphans == [Job(CANONICAL, 5, 51, 70)]
    requires CANONICAL in y.desk.controllers && At(y, y.desk.controllers[CANONICAL]) == Reading(CANONICAL, 1, 2)
    ensures var y' := Step(y, Orphan(0));
            && y'.orphans == [] && y'.desk == y.desk && y'.stage == y.stage && y'.lock == y.lock
            && Generation(y'.table, CANONICAL.text) == Some(2) && !Current(y', CANONICAL)
  {
    Spellings();
    hide Number, Name;
    var y' := Step(y, Orphan(0));
    assert y'.table == Table(map[1 := Row(5, 51, 2, Some(70))], 2);
    assert At(y', y'.desk.controllers[CANONICAL]) == Reading(CANONICAL, 1, 2);
  }
}
