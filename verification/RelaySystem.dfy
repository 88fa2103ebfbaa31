/** All interleavings of the relay's connection handlers, with pair_lock explicit. One action is one piece
    of a handler between two awaits; work sent to a thread is read or committed in an action of its own. */
module RelaySystem {
  import opened Sequences
  import opened Registry
  import opened Relay

  /** How far a connection has come. `home` is the target connection a controller was admitted to. */
  datatype Stage =
    | Fresh
    | Checked(name: TargetName, generation: nat)
    | Locked(name: TargetName, generation: nat)
    | Compared(name: TargetName, generation: nat, current: Option<nat>)
    | Reading(name: TargetName, generation: nat, home: Id)
    | Leaving(name: TargetName, generation: nat, home: Id)
    | Verified(name: TargetName, owner: nat)
    | Entering(name: TargetName, owner: nat)
    | Serving(name: TargetName, owner: nat)
    | Asking(name: TargetName, owner: nat, password: nat, rotation: nat)
    | Rotating(name: TargetName, owner: nat, password: nat, rotation: nat)
    | Finishing(name: TargetName, owner: nat)
    | Retiring(name: TargetName)
    | Refusing
    | Closed(last: Option<Id>)

  /** A rotation whose thread keeps running although the coroutine awaiting it was cancelled. */
  datatype Job = Job(name: TargetName, owner: nat, password: nat, rotation: nat)

  datatype System = System(desk: Desk, table: Table, stage: map<Id, Stage>, lock: Option<Id>, orphans: seq<Job>)

  datatype Action =
    | Login(c: Id, id: TargetName, password: nat)           // password check of a controller
    | AuthTarget(t: Id, known: Option<TargetName>, owner: nat, password: nat)
    | Acquire(i: Id)                                    // pair_lock
    | Read(c: Id)                                       // the generation, read again under the lock
    | Decide(c: Id)
    | Enter(t: Id)
    | Release(i: Id)                                    // the end of a rejection sent under the lock
    | Ask(t: Id, password: nat, rotation: nat)
    | Commit(t: Id)                                     // the registry's rotation
    | Finish(t: Id)
    | Pass(c: Id, raw: seq<int>)
    | Take(t: Id)
    | Fail(i: Id)                                       // any error or disconnect of a running session
    | Detach(i: Id)
    | Cancel(t: Id)                                     // the reader task is cancelled while hashing runs
    | Orphan(k: nat)

  const START: System := System(NOBODY, NO_TARGETS, map[], None, [])

  function At(y: System, i: Id): Stage { if i in y.stage then y.stage[i] else Fresh }

  /** Everything ever put into a target's queue. */
  function LogOf(y: System, t: Id): seq<Message> { Box(y.desk, t).log }

  function Move(y: System, i: Id, s: Stage): System { y.(stage := y.stage[i := s]) }

  predicate Holder(s: Stage) {
    s.Locked? || s.Compared? || s.Entering? || s.Rotating? || s.Finishing? || s.Refusing?
  }

  function StepLogin(y: System, c: Id, id: TargetName, password: nat): System {
    if !At(y, c).Fresh? then y
    else
      match Registry.Login(y.table, id.text, password)
      case Some(generation) => Move(y, c, Checked(id, generation))
      case None => Move(y, c, Closed(None))
  }

  /** A known target proves ownership; an unknown one is registered (a table of 10^12 rows is full). */
  function StepAuth(y: System, t: Id, known: Option<TargetName>, owner: nat, password: nat): System {
    if !At(y, t).Fresh? then y
    else
      match known
      case Some(id) =>
        if OwnerCheck(y.table, id.text, owner).Some? then Move(y, t, Verified(id, owner)) else Move(y, t, Closed(None))
      case None =>
        if !TableInv(y.table) || y.table.next >= Pow10(MAX_DIGITS) then y
        else
          var r := Register(y.table, owner, password);
          Move(y.(table := r.table), t, Verified(TargetName(Name(r.number)), owner))
  }

  function StepAcquire(y: System, i: Id): System {
    if y.lock.Some? then y
    else
      match At(y, i)
      case Checked(n, g) => Move(y, i, Locked(n, g)).(lock := Some(i))
      case Verified(n, o) => Move(y, i, Entering(n, o)).(lock := Some(i))
      case Asking(n, o, p, r) => Move(y, i, Rotating(n, o, p, r)).(lock := Some(i))
      case _ => y
  }

  function StepDecide(y: System, c: Id): System {
    match At(y, c)
    case Compared(n, g, current) =>
      if !Admissible(y.desk, n, g, current) then Move(y, c, Refusing)
      else
        var home := y.desk.targets[n];
        var y1 := y.(desk := Admit(y.desk, n, c), lock := None);
        Move(y1, c, if Full(y.desk, home) then Leaving(n, g, home) else Reading(n, g, home))
    case _ => y
  }

  function StepEnter(y: System, t: Id): System {
    match At(y, t)
    case Entering(n, o) =>
      if n in y.desk.targets then Move(y, t, Refusing)
      else Move(y.(desk := Install(y.desk, n, t), lock := None), t, Serving(n, o))
    case _ => y
  }

  function StepCommit(y: System, t: Id): System {
    match At(y, t)
    case Rotating(n, o, p, r) =>
      (match Rotate(y.table, n.text, o, p, r)
       case Ok(v) => Move(y.(table := v.0), t, Finishing(n, o))
       case Err => Move(y.(lock := None), t, Retiring(n)))
    case _ => y
  }

  function StepFinish(y: System, t: Id): System {
    match At(y, t)
    case Finishing(n, o) =>
      Move(y.(desk := Revoke(y.desk, n, t), lock := None), t, if Full(y.desk, t) then Retiring(n) else Serving(n, o))
    case _ => y
  }

  function StepPass(y: System, c: Id, raw: seq<int>): System {
    match At(y, c)
    case Reading(n, g, home) =>
      if Forwarded(y.desk, n, c) then y.(desk := Forward(y.desk, n, c, raw)) else Move(y, c, Leaving(n, g, home))
    case _ => y
  }

  function StepFail(y: System, i: Id): System {
    match At(y, i)
    case Reading(n, g, home) => Move(y, i, Leaving(n, g, home))
    case Serving(n, o) => Move(y, i, Retiring(n))
    case Asking(n, o, p, r) => Move(y, i, Retiring(n))
    case _ => y
  }

  function StepDetach(y: System, i: Id): System {
    match At(y, i)
    case Leaving(n, g, home) => Move(y.(desk := DetachController(y.desk, n, i)), i, Closed(Some(home)))
    case Retiring(n) => Move(y.(desk := DetachTarget(y.desk, n, i)), i, Closed(None))
    case _ => y
  }

  function StepCancel(y: System, t: Id): System {
    match At(y, t)
    case Rotating(n, o, p, r) =>
      Move(y.(lock := None, orphans := y.orphans + [Job(n, o, p, r)]), t, Retiring(n))
    case _ => y
  }

  function StepOrphan(y: System, k: nat): System {
    if k >= |y.orphans| then y
    else
      var j := y.orphans[k];
      var y1 := y.(orphans := y.orphans[..k] + y.orphans[k + 1..]);
      match Rotate(y.table, j.name.text, j.owner, j.password, j.rotation)
      case Ok(v) => y1.(table := v.0)
      case Err => y1
  }

  /** An action the stage does not allow changes nothing. */
  function Step(y: System, a: Action): System {
    match a
    case Login(c, id, password) => StepLogin(y, c, id, password)
    case AuthTarget(t, known, owner, password) => StepAuth(y, t, known, owner, password)
    case Acquire(i) => StepAcquire(y, i)
    case Read(c) =>
      (match At(y, c)
       case Locked(n, g) => Move(y, c, Compared(n, g, Generation(y.table, n.text)))
       case _ => y)
    case Decide(c) => StepDecide(y, c)
    case Enter(t) => StepEnter(y, t)
    case Release(i) => if At(y, i).Refusing? then Move(y.(lock := None), i, Closed(None)) else y
    case Ask(t, password, rotation) =>
      (match At(y, t)
       case Serving(n, o) => Move(y, t, Asking(n, o, password, rotation))
       case _ => y)
    case Commit(t) => StepCommit(y, t)
    case Finish(t) => StepFinish(y, t)
    case Pass(c, raw) => StepPass(y, c, raw)
    case Take(t) => y.(desk := Drain(y.desk, t))
    case Fail(i) => StepFail(y, i)
    case Detach(i) => StepDetach(y, i)
    case Cancel(t) => StepCancel(y, t)
    case Orphan(k) => StepOrphan(y, k)
  }

  function Run(actions: seq<Action>): System {
    if actions == [] then START else Step(Run(Front(actions)), Last(actions))
  }

  // ---- Who holds the lock, who is listed ----

  predicate TargetStage(s: Stage) { s.Serving? || s.Asking? || s.Rotating? || s.Finishing? || s.Retiring? }

  predicate ControllerStage(s: Stage) { s.Reading? || s.Leaving? }

  predicate LockKnown(y: System, i: Id) { Holder(At(y, i)) <==> y.lock == Some(i) }

  ghost predicate LockInv(y: System) { forall i: Id :: LockKnown(y, i) }

  /** A listed target is a running target connection, under its own name. */
  predicate TargetKnown(y: System, n: TargetName) {
    n in y.desk.targets ==> TargetStage(At(y, y.desk.targets[n])) && At(y, y.desk.targets[n]).name == n
  }

  /** A running target connection is listed. */
  predicate TargetListed(y: System, i: Id) {
    TargetStage(At(y, i)) ==> At(y, i).name in y.desk.targets && y.desk.targets[At(y, i).name] == i
  }

  /** An admitted controller belongs to a listed target, the very connection it was admitted to. */
  predicate ControllerKnown(y: System, n: TargetName) {
    n in y.desk.controllers ==>
      && n in y.desk.targets
      && ControllerStage(At(y, y.desk.controllers[n]))
      && At(y, y.desk.controllers[n]).name == n
      && At(y, y.desk.controllers[n]).home == y.desk.targets[n]
  }

  ghost predicate DeskInv(y: System) {
    && (forall n :: TargetKnown(y, n))
    && (forall i: Id :: TargetListed(y, i))
    && (forall n :: ControllerKnown(y, n))
  }

  /** The stage changes of actions that leave targets and controllers listed as they were. */
  predicate SameKind(s: Stage, s': Stage) {
    && (TargetStage(s) ==> TargetStage(s') && s'.name == s.name)
    && (TargetStage(s') ==> TargetStage(s))
    && (ControllerStage(s) ==> ControllerStage(s') && s'.name == s.name && s'.home == s.home)
  }

  predicate SameLists(d: Desk, d': Desk) { d'.targets == d.targets && d'.controllers == d.controllers }

  lemma QuietDesk(y: System, y': System, i: Id)
    requires DeskInv(y) && SameLists(y.desk, y'.desk)
    requires SameKind(At(y, i), At(y', i)) && forall j: Id :: j != i ==> At(y', j) == At(y, j)
    ensures DeskInv(y')
  {
    forall n ensures TargetKnown(y', n) { assert TargetKnown(y, n); }
    forall j: Id ensures TargetListed(y', j) { assert TargetListed(y, j); }
    forall n ensures ControllerKnown(y', n) { assert ControllerKnown(y, n); }
  }

  lemma DecideDesk(y: System, c: Id)
    requires DeskInv(y) && At(y, c).Compared?
    ensures DeskInv(StepDecide(y, c))
  {
    var s, y' := At(y, c), StepDecide(y, c);
    if Admissible(y.desk, s.name, s.generation, s.current) {
      forall n ensures TargetKnown(y', n) { assert TargetKnown(y, n); }
      forall j: Id ensures TargetListed(y', j) { assert TargetListed(y, j); }
      forall n ensures ControllerKnown(y', n) { assert ControllerKnown(y, n); }
    } else {
      QuietDesk(y, y', c);
    }
  }

  lemma EnterDesk(y: System, t: Id)
    requires DeskInv(y) && At(y, t).Entering?
    ensures DeskInv(StepEnter(y, t))
  {
    var s, y' := At(y, t), StepEnter(y, t);
    if s.name in y.desk.targets {
      QuietDesk(y, y', t);
    } else {
      forall n ensures TargetKnown(y', n) { assert TargetKnown(y, n); }
      forall j: Id ensures TargetListed(y', j) { assert TargetListed(y, j); }
      forall n ensures ControllerKnown(y', n) { assert ControllerKnown(y, n); }
    }
  }

  lemma FinishDesk(y: System, t: Id)
    requires DeskInv(y) && At(y, t).Finishing?
    ensures DeskInv(StepFinish(y, t))
  {
    var y' := StepFinish(y, t);
    forall n ensures TargetKnown(y', n) { assert TargetKnown(y, n); }
    forall j: Id ensures TargetListed(y', j) { assert TargetListed(y, j); }
    forall n ensures ControllerKnown(y', n) { assert ControllerKnown(y, n); }
  }

  lemma DetachDesk(y: System, i: Id)
    requires DeskInv(y) && (At(y, i).Leaving? || At(y, i).Retiring?)
    ensures DeskInv(StepDetach(y, i))
  {
    var y' := StepDetach(y, i);
    assert TargetListed(y, i);
    forall n ensures TargetKnown(y', n) { assert TargetKnown(y, n); }
    forall j: Id ensures TargetListed(y', j) { assert TargetListed(y, j); }
    forall n ensures ControllerKnown(y', n) { assert ControllerKnown(y, n); }
  }

  /** The connection an action is about. */
  function Subject(a: Action): Id {
    match a
    case Login(c, _, _) => c
    case AuthTarget(t, _, _, _) => t
    case Acquire(i) => i
    case Read(c) => c
    case Decide(c) => c
    case Enter(t) => t
    case Release(i) => i
    case Ask(t, _, _) => t
    case Commit(t) => t
    case Finish(t) => t
    case Pass(c, _) => c
    case Take(t) => t
    case Fail(i) => i
    case Detach(i) => i
    case Cancel(t) => t
    case Orphan(_) => 0
  }

  lemma OtherStages(y: System, a: Action, j: Id)
    requires j != Subject(a) || a.Orphan?
    ensures At(Step(y, a), j) == At(y, j)
  {
  }

  /** Only the connection acting takes or gives up the lock. */
  lemma LockSubject(y: System, a: Action)
    requires LockKnown(y, Subject(a))
    ensures var y', i := Step(y, a), Subject(a);
            && LockKnown(y', i)
            && (y'.lock == y.lock || (y.lock.None? && y'.lock == Some(i)) || (y.lock == Some(i) && y'.lock.None?))
  {
  }

  lemma LockStep(y: System, a: Action)
    requires LockInv(y)
    ensures LockInv(Step(y, a))
  {
    var y' := Step(y, a);
    assert LockKnown(y, Subject(a));
    LockSubject(y, a);
    forall j: Id ensures LockKnown(y', j) {
      assert LockKnown(y, j);
      if j != Subject(a) {
        OtherStages(y, a, j);
      }
    }
  }

  /** The actions that can change the two lists. */
  predicate Listing(y: System, a: Action) {
    match a
    case Decide(c) => At(y, c).Compared?
    case Enter(t) => At(y, t).Entering?
    case Finish(t) => At(y, t).Finishing?
    case Detach(i) => At(y, i).Leaving? || At(y, i).Retiring?
    case _ => false
  }

  lemma QuietLists(y: System, a: Action)
    requires !Listing(y, a)
    ensures SameLists(y.desk, Step(y, a).desk)
  {
  }

  lemma QuietStage(y: System, a: Action)
    requires !Listing(y, a)
    ensures SameKind(At(y, Subject(a)), At(Step(y, a), Subject(a)))
  {
  }

  lemma DeskStep(y: System, a: Action)
    requires DeskInv(y)
    ensures DeskInv(Step(y, a))
  {
    if Listing(y, a) {
      match a
      case Decide(c) => DecideDesk(y, c);
      case Enter(t) => EnterDesk(y, t);
      case Finish(t) => FinishDesk(y, t);
      case Detach(i) => DetachDesk(y, i);
    } else {
      QuietLists(y, a);
      QuietStage(y, a);
      forall j: Id | j != Subject(a) ensures At(Step(y, a), j) == At(y, j) {
        OtherStages(y, a, j);
      }
      QuietDesk(y, Step(y, a), Subject(a));
    }
  }

  lemma {:induction false} SessionsAlways(actions: seq<Action>)
    ensures LockInv(Run(actions)) && DeskInv(Run(actions))
  {
    if actions != [] {
      SessionsAlways(Front(actions));
      LockStep(Run(Front(actions)), Last(actions));
      DeskStep(Run(Front(actions)), Last(actions));
    }
  }

  /** In every interleaving, admitted controllers' names are connected targets' names, and each admitted
      controller is served by the target connection it was admitted to. */
  lemma {:induction false} ControllersHaveTargets(actions: seq<Action>, n: TargetName)
    requires n in Run(actions).desk.controllers
    ensures var y := Run(actions);
            var s := At(y, y.desk.controllers[n]);
            n in y.desk.targets && ControllerStage(s) && s.name == n && s.home == y.desk.targets[n]
  {
    SessionsAlways(actions);
    assert ControllerKnown(Run(actions), n);
  }
}
