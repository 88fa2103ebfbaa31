/** A password change is never forgotten: it stays requested or about to be confirmed, and the next undisturbed
    connection completes it. */
module RotationProgress {
  import opened Sequences
  import opened Rotation
  import opened RotationSystem

  /** The newest change is among the requests the relay has received. */
  predicate Requested(y: System) {
    exists i :: 0 <= i < |y.requests| && y.requests[i].position == |y.begun|
  }

  /** A target with a change in its journal knows that it is under way, and on a live connection the other way round
      too; and while the relay serves that connection, the change is requested there or a confirmation is on its way. */
  predicate Progress(y: System) {
    y.process.Some? ==>
      var p := y.process.value;
      && (p.identity.pending.Some? ==> p.rotating)
      && (p.linked && p.rotating ==> p.identity.pending.Some?)
      && (p.linked && y.attached && p.identity.pending.Some? ==> Requested(y) || y.replies > 0)
  }

  lemma RotateProgress(y: System, p: Process, drawn: Pending, works: bool)
    ensures Progress(Rotate(y, p, drawn, works))
  {
    var t := Rotate(y, p, drawn, works);
    if p.identity.pending.Some? || works {
      if y.attached {
        assert t.requests[|y.requests|].position == |t.begun|;
      }
    }
  }

  lemma WelcomeProgress(y: System, id: nat, drawn: Pending, works: bool, again: bool)
    requires Progress(y)
    ensures Progress(StepWelcome(y, id, drawn, works, again))
  {
    hide Requested, Rotate;
    if y.process.Some? && !y.process.value.linked && y.row.Some? && y.requests == [] && works {
      var p := y.process.value.(identity := y.process.value.identity.(id := Some(id)));
      var y1 := y.(process := Some(p.(linked := true)), saved := Some(p.identity));
      RotateProgress(y1, p.(linked := true), drawn, again);
    }
  }

  /** What is carried out leaves the requests and is confirmed. */
  lemma ExecuteProgress(y: System)
    requires Progress(y)
    ensures Progress(StepExecute(y))
  {
    hide Requested;
  }

  lemma CutOffProgress(y: System)
    requires Progress(y)
    ensures Progress(StepCutOff(y))
  {
    hide Requested;
  }

  lemma ProgressStep(y: System, a: Action)
    requires Progress(y)
    ensures Progress(Step(y, a))
  {
    hide Rotate, StepWelcome, StepExecute, StepCutOff;
    match a
    case Command(drawn, works) =>
      if y.process.Some? && y.process.value.linked { RotateProgress(y, y.process.value, drawn, works); }
    case Welcome(id, drawn, works, again) => WelcomeProgress(y, id, drawn, works, again);
    case Execute => ExecuteProgress(y);
    case CutOff => CutOffProgress(y);
    case Late(k) => LateProgress(y, k);
    case _ => hide Requested;
  }

  lemma LateProgress(y: System, k: nat)
    requires Progress(y)
    ensures Progress(StepLate(y, k))
  {
    assert StepLate(y, k).requests == y.requests && StepLate(y, k).begun == y.begun;
  }

  lemma {:induction false} NeverForgotten(actions: seq<Action>)
    ensures Progress(Run(actions))
  {
    if actions != [] {
      NeverForgotten(Front(actions));
      ProgressStep(Run(Front(actions)), Last(actions));
    }
  }

  /** From every reachable moment without a connection, whatever failed before: if the running target has a change in its
      journal, then one connection on which nothing fails completes it. The vault and the registry then both have the
      new password, and nothing is pending. */
  lemma {:induction false} NextConnectionCompletes(actions: seq<Action>, id: nat, drawn: Pending, again: bool)
    requires AllFresh(actions)
    requires var y := Run(actions);
             y.process.Some? && !y.process.value.linked && y.process.value.identity.pending.Some?
    ensures var y := Run(actions);
            var t := Step(Step(Step(Step(y, Hello), Welcome(id, drawn, true, again)), Execute), Confirm(true));
            var i := y.process.value.identity;
            && t.saved == Some(Identity(i.owner, i.pending.value.password, Some(id), None))
            && t.process == Some(Process(t.saved.value, false, true))
            && t.row.Some? && t.row.value.password == i.pending.value.password
            && t.row.value.rotation == Some(i.pending.value.rotation)
  {
    var y := Run(actions);
    Always(actions);
    var i := y.process.value.identity;
    var y1 := Step(y, Hello);
    var y2 := Step(y1, Welcome(id, drawn, true, again));
    assert y2.requests == [Request(i.pending.value, |y.begun|)];
    var y3 := Step(y2, Execute);
    assert y3.replies == 1;
    assert y3.row.value.password == i.pending.value.password by {
      if y.row.Some? && y.row.value.rotation == Some(i.pending.value.rotation) {
        SameIdSamePassword(y, i.pending.value);
      }
    }
  }

  /** A row that shows the newest change's id has its password. */
  lemma SameIdSamePassword(y: System, change: Pending)
    requires Inv(y) && y.begun != [] && change == Last(y.begun) && y.row.Some?
    requires y.row.value.rotation == Some(change.rotation)
    ensures y.row.value.password == change.password
  {
  }
}
