/** Revocation in every run, whatever names clients present and whichever rotations are cancelled: which
    controllers outlive a rotation, exactly. */
module RelayExactness {
  import opened Sequences
  import opened Registry
  import opened Relay
  import opened RelaySystem
  import opened RelayRevocation
  import Isolation = RelayIsolation

  /** The rotation an action carries out in the registry. */
  function JobOf(y: System, a: Action): Option<Job> {
    match a
    case Commit(t) =>
      (match At(y, t)
       case Rotating(n, o, p, r) => Some(Job(n, o, p, r))
       case _ => None)
    case Orphan(k) => if k < |y.orphans| then Some(y.orphans[k]) else None
    case _ => None
  }

  /** A rotation by the owner, not carried out before, of the target that n spells. */
  predicate Raises(t: Table, j: Job, n: TargetName) {
    && OwnerCheck(t, j.name.text, j.owner).Some? && Lookup(t, j.name.text).value.rotation != Some(j.rotation)
    && Number(n.text) == Number(j.name.text)
  }

  /** The two ways past revocation: a rotation is carried out while a controller is listed under a name it raises,
      and not by the lock holder that will delist exactly that name; or while a controller has read the generation
      of such a name under the lock and not yet been admitted. */
  predicate Escapes(y: System, a: Action, c: Id) {
    JobOf(y, a).Some? &&
    match At(y, c)
    case Compared(n, _, _) => Raises(y.table, JobOf(y, a).value, n)
    case Reading(n, _, _) => Raises(y.table, JobOf(y, a).value, n) && !(a.Commit? && JobOf(y, a).value.name == n)
    case Leaving(n, _, _) => Raises(y.table, JobOf(y, a).value, n) && !(a.Commit? && JobOf(y, a).value.name == n)
    case _ => false
  }

  /** The controllers that have escaped so far. */
  function Marked(actions: seq<Action>): set<Id> {
    if actions == [] then {}
    else
      var y := Run(Front(actions));
      Marked(Front(actions)) + set c | c in y.stage.Keys && Escapes(y, Last(actions), c)
  }

  /** A session's generation was once the registry's. */
  predicate GenerationKnown(y: System, i: Id) {
    match At(y, i)
    case Checked(n, g) => Reached(y.table, n, g)
    case Locked(n, g) => Reached(y.table, n, g)
    case Compared(n, g, current) => Reached(y.table, n, g) && current.Some? && Reached(y.table, n, current.value)
    case Reading(n, g, _) => Reached(y.table, n, g)
    case Leaving(n, g, _) => Reached(y.table, n, g)
    case _ => true
  }

  predicate Reached(t: Table, n: TargetName, g: nat) {
    Generation(t, n.text).Some? && g <= Generation(t, n.text).value
  }

  predicate ExactAt(y: System, marked: set<Id>, n: TargetName) {
    n in y.desk.controllers ==>
      && ControllerStage(At(y, y.desk.controllers[n]))
      && (y.desk.controllers[n] in marked ==> !Current(y, n))
      && (y.desk.controllers[n] !in marked && !Current(y, n) ==> Pending(y, n))
  }

  /** Before the generation is read a connection is not marked; once it is, the mark says whether what was read is
      still the registry's. */
  predicate ReadExact(y: System, marked: set<Id>, c: Id) {
    match At(y, c)
    case Fresh => c !in marked
    case Checked(_, _) => c !in marked
    case Locked(_, _) => c !in marked
    case Compared(n, _, current) => current.Some? && (c in marked <==> current != Generation(y.table, n.text))
    case _ => true
  }

  ghost predicate ExactInv(y: System, marked: set<Id>) {
    && TableInv(y.table)
    && (forall i: Id :: GenerationKnown(y, i))
    && (forall i: Id :: ReadExact(y, marked, i))
    && (forall n :: ExactAt(y, marked, n))
  }

  lemma RotateGeneration(t: Table, j: Job, n: TargetName)
    requires TableInv(t) && Generation(t, n.text).Some?
    ensures var r := Rotate(t, j.name.text, j.owner, j.password, j.rotation);
            var t' := if r.Ok? then r.value.0 else t;
            && TableInv(t')
            && Generation(t', n.text) == Some(Generation(t, n.text).value + (if Raises(t, j, n) then 1 else 0))
  {
    hide Number;
  }

  lemma RotateTable(t: Table, j: Job)
    requires TableInv(t)
    ensures var r := Rotate(t, j.name.text, j.owner, j.password, j.rotation); r.Ok? ==> TableInv(r.value.0)
  {
    hide Number;
  }

  lemma NoRotation(y: System, a: Action)
    requires JobOf(y, a).None? && !a.AuthTarget?
    ensures Step(y, a).table == y.table
  {
    if !a.Commit? && !a.Orphan? { TableSteady(y, a); }
  }

  lemma TableStep(y: System, a: Action)
    requires TableInv(y.table)
    ensures TableInv(Step(y, a).table)
  {
    if JobOf(y, a).Some? {
      RotateTable(y.table, JobOf(y, a).value);
    } else if a.AuthTarget? {
      AuthTable(y, a, "");
    } else {
      NoRotation(y, a);
    }
  }

  /** The generation of a registered target rises by one at a rotation that raises it, and only then. */
  lemma GenerationStep(y: System, a: Action, n: TargetName)
    requires TableInv(y.table) && Generation(y.table, n.text).Some?
    ensures Generation(Step(y, a).table, n.text)
            == Some(Generation(y.table, n.text).value
                    + (if JobOf(y, a).Some? && Raises(y.table, JobOf(y, a).value, n) then 1 else 0))
  {
    if JobOf(y, a).Some? {
      RotateGeneration(y.table, JobOf(y, a).value, n);
    } else if a.AuthTarget? {
      AuthTable(y, a, n.text);
    } else {
      NoRotation(y, a);
    }
  }

  /** A generation held after an action was held before it, or has just been read. */
  lemma GenerationHeld(y: System, a: Action, i: Id)
    requires TableInv(y.table) && GenerationKnown(y, i)
    ensures GenerationKnown(Step(y, a), i)
  {
    if At(Step(y, a), i) == At(y, i) {
      HeldStays(y, a, i);
    } else {
      assert i == Subject(a) by { if i != Subject(a) || a.Orphan? { OtherStages(y, a, i); } }
      ActingGeneration(y, a, i);
    }
  }

  lemma ReachedStays(y: System, a: Action, n: TargetName, g: nat)
    requires TableInv(y.table) && Reached(y.table, n, g)
    ensures Reached(Step(y, a).table, n, g)
  {
    hide Step, JobOf, Raises;
    GenerationStep(y, a, n);
  }

  lemma HeldStays(y: System, a: Action, i: Id)
    requires TableInv(y.table) && GenerationKnown(y, i) && At(Step(y, a), i) == At(y, i)
    ensures GenerationKnown(Step(y, a), i)
  {
    hide Step, TableInv, Reached;
    match At(y, i)
    case Checked(n, g) => ReachedStays(y, a, n, g);
    case Locked(n, g) => ReachedStays(y, a, n, g);
    case Compared(n, g, current) => ReachedStays(y, a, n, g); ReachedStays(y, a, n, current.value);
    case Reading(n, g, _) => ReachedStays(y, a, n, g);
    case Leaving(n, g, _) => ReachedStays(y, a, n, g);
    case _ =>
  }

  lemma ActingGeneration(y: System, a: Action, i: Id)
    requires TableInv(y.table) && GenerationKnown(y, i)
    requires i == Subject(a) && !a.Orphan? && At(Step(y, a), i) != At(y, i)
    ensures GenerationKnown(Step(y, a), i)
  {
    hide Number, Put, Full;
    if !a.AuthTarget? && !a.Commit? { TableSteady(y, a); }
  }

  /** A listed controller keeps its generation. */
  lemma ListedGeneration(y: System, a: Action, n: TargetName)
    requires DeskInv(y) && n in y.desk.controllers && n in Step(y, a).desk.controllers
    requires Step(y, a).desk.controllers[n] == y.desk.controllers[n]
    requires ControllerStage(At(Step(y, a), y.desk.controllers[n])) && ControllerStage(At(y, y.desk.controllers[n]))
    ensures At(Step(y, a), y.desk.controllers[n]).generation == At(y, y.desk.controllers[n]).generation
  {
    hide Number, Put, Full, Register, Rotate, TableInv;
    assert ControllerKnown(y, n);
    var c := y.desk.controllers[n];
    if c != Subject(a) || a.Orphan? { OtherStages(y, a, c); }
  }

  /** The holder that will delist n holds the lock until it has. */
  lemma PendingStays(y: System, a: Action, n: TargetName)
    requires LockInv(y) && Pending(y, n) && n in Step(y, a).desk.controllers
    ensures Pending(Step(y, a), n)
  {
    hide Number, Put, Full, Register, Rotate, TableInv;
    var t := y.lock.value;
    assert LockKnown(y, t) && LockKnown(y, Subject(a));
    LockSubject(y, a);
    if t != Subject(a) || a.Orphan? { OtherStages(y, a, t); }
  }

  /** A rotation by the holder that will delist n makes n pending. */
  lemma CommitPends(y: System, t: Id, n: TargetName)
    requires LockInv(y) && At(y, t).Rotating? && At(y, t).name == n
    requires OwnerCheck(y.table, n.text, At(y, t).owner).Some?
    ensures Pending(Step(y, Commit(t)), n)
  {
    hide Number;
    assert LockKnown(y, t);
  }

  lemma ListedExact(y: System, a: Action, marked: set<Id>, n: TargetName)
    requires LockInv(y) && DeskInv(y) && DeskInv(Step(y, a)) && TableInv(y.table) && ExactAt(y, marked, n)
    requires n in y.desk.controllers && GenerationKnown(y, y.desk.controllers[n])
    requires n in Step(y, a).desk.controllers && Step(y, a).desk.controllers[n] == y.desk.controllers[n]
    ensures var y', c := Step(y, a), y.desk.controllers[n];
            && ControllerStage(At(y', c))
            && (c in marked || Escapes(y, a, c) ==> !Current(y', n))
            && (c !in marked && !Escapes(y, a, c) && !Current(y', n) ==> Pending(y', n))
  {
    hide Step, LockInv, TableInv, JobOf, Raises, Number, Generation, Admissible;
    var y' := Step(y, a);
    assert ControllerKnown(y', n) && ControllerKnown(y, n);
    ListedGeneration(y, a, n);
    GenerationStep(y, a, n);
    if JobOf(y, a).Some? && Raises(y.table, JobOf(y, a).value, n) {
      if a.Commit? && JobOf(y, a).value.name == n { RaisedByHolder(y, a.t, n); }
    } else if Pending(y, n) {
      PendingStays(y, a, n);
    }
  }

  lemma RaisedByHolder(y: System, t: Id, n: TargetName)
    requires LockInv(y) && JobOf(y, Commit(t)).Some? && JobOf(y, Commit(t)).value.name == n
    requires Raises(y.table, JobOf(y, Commit(t)).value, n)
    ensures Pending(Step(y, Commit(t)), n)
  {
    CommitPends(y, t, n);
  }

  /** An admitted controller holds the generation it read. */
  lemma AdmittedExact(y: System, c: Id, n: TargetName)
    requires At(y, c).Compared? && At(y, c).name == n && n !in y.desk.controllers
    requires n in Step(y, Decide(c)).desk.controllers
    ensures var y' := Step(y, Decide(c));
            && y'.desk.controllers[n] == c && ControllerStage(At(y', c))
            && (Current(y', n) <==> At(y, c).current == Generation(y.table, n.text))
            && !Escapes(y, Decide(c), c)
  {
    hide Number, Put, Full, Generation;
  }

  /** A connection whose stage an action leaves alone. */
  lemma ReadStays(y: System, a: Action, marked: set<Id>, c: Id)
    requires TableInv(y.table) && GenerationKnown(y, c) && ReadExact(y, marked, c) && At(Step(y, a), c) == At(y, c)
    ensures ReadExact(Step(y, a), if Escapes(y, a, c) then marked + {c} else marked, c)
  {
    hide Step, TableInv, JobOf, Raises, Generation;
    if At(y, c).Compared? { GenerationStep(y, a, At(y, c).name); }
  }

  /** The connection acting. */
  lemma ReadActs(y: System, a: Action, marked: set<Id>, c: Id)
    requires c == Subject(a) && !a.Orphan? && ReadExact(y, marked, c) && GenerationKnown(y, c)
    requires At(Step(y, a), c) != At(y, c)
    ensures ReadExact(Step(y, a), marked, c) && !Escapes(y, a, c)
  {
    hide Number, Put, Full, Register, Rotate, TableInv;
  }

  lemma ReadStep(y: System, a: Action, marked: set<Id>, marked': set<Id>, c: Id)
    requires TableInv(y.table) && GenerationKnown(y, c) && ReadExact(y, marked, c)
    requires c in marked' <==> c in marked || Escapes(y, a, c)
    ensures ReadExact(Step(y, a), marked', c)
  {
    hide Step, TableInv, Escapes;
    if At(Step(y, a), c) == At(y, c) {
      ReadStays(y, a, marked, c);
    } else {
      assert c == Subject(a) by { if c != Subject(a) || a.Orphan? { OtherStages(y, a, c); } }
      assert !a.Orphan? by { if a.Orphan? { OtherStages(y, a, c); } }
      ReadActs(y, a, marked, c);
    }
  }

  lemma ListStep(y: System, a: Action, marked: set<Id>, marked': set<Id>, n: TargetName)
    requires LockInv(y) && DeskInv(y) && DeskInv(Step(y, a)) && TableInv(y.table) && ExactAt(y, marked, n)
    requires forall i: Id :: GenerationKnown(y, i) && ReadExact(y, marked, i)
    requires forall c :: c in marked' <==> c in marked || Escapes(y, a, c)
    ensures ExactAt(Step(y, a), marked', n)
  {
    hide Step, LockInv, DeskInv, TableInv, GenerationKnown, Escapes;
    var y' := Step(y, a);
    if n in y'.desk.controllers {
      Isolation.ListedBefore(y, a, n);
      if n in y.desk.controllers && y.desk.controllers[n] == y'.desk.controllers[n] {
        ListedExact(y, a, marked, n);
      } else {
        AdmittedNow(y, a, n);
        AdmittedExact(y, a.c, n);
        assert ReadExact(y, marked, a.c);
      }
    }
  }

  lemma ExactStep(y: System, a: Action, marked: set<Id>, marked': set<Id>)
    requires LockInv(y) && DeskInv(y) && DeskInv(Step(y, a)) && ExactInv(y, marked)
    requires marked' == marked + set c | c in y.stage.Keys && Escapes(y, a, c)
    ensures ExactInv(Step(y, a), marked')
  {
    assert forall c :: Escapes(y, a, c) ==> c in y.stage.Keys;
    hide Step, LockInv, DeskInv, TableInv, GenerationKnown, Escapes, ReadExact, ExactAt;
    var y' := Step(y, a);
    TableStep(y, a);
    forall i: Id ensures GenerationKnown(y', i) { GenerationHeld(y, a, i); }
    forall i: Id ensures ReadExact(y', marked', i) { ReadStep(y, a, marked, marked', i); }
    forall n ensures ExactAt(y', marked', n) { ListStep(y, a, marked, marked', n); }
  }

  /** A controller new in the list has been admitted to a vacant name. */
  lemma AdmittedNow(y: System, a: Action, n: TargetName)
    requires n in Step(y, a).desk.controllers
    requires !(n in y.desk.controllers && y.desk.controllers[n] == Step(y, a).desk.controllers[n])
    ensures a.Decide? && At(y, a.c).Compared? && At(y, a.c).name == n && n !in y.desk.controllers
  {
    Isolation.ListedBefore(y, a, n);
  }

  lemma {:induction false} ExactAlways(actions: seq<Action>)
    ensures ExactInv(Run(actions), Marked(actions))
  {
    hide Step, Escapes;
    if actions != [] {
      ExactAlways(Front(actions));
      SessionsAlways(Front(actions));
      SessionsAlways(actions);
      ExactStep(Run(Front(actions)), Last(actions), Marked(Front(actions)), Marked(actions));
    }
  }

  /** In every run at all: whenever the lock is free, an admitted controller holds the registry's generation for
      its name exactly if it has not escaped. */
  lemma {:induction false} CurrentExactly(actions: seq<Action>, n: TargetName)
    requires Run(actions).lock.None? && n in Run(actions).desk.controllers
    ensures var y := Run(actions);
            && ControllerStage(At(y, y.desk.controllers[n]))
            && (Current(y, n) <==> y.desk.controllers[n] !in Marked(actions))
  {
    hide Step;
    ExactAlways(actions);
    assert ExactAt(Run(actions), Marked(actions), n);
  }
}
