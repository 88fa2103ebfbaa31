/** Revocation: once a rotation is through, no controller admitted with the old password remains. */
module RelayRevocation {
  import opened Sequences
  import opened Registry
  import opened Relay
  import opened RelaySystem

  /** Every session names its target the way the relay writes names. */
  predicate NameKnown(y: System, i: Id) {
    match At(y, i)
    case Fresh => true
    case Refusing => true
    case Closed(_) => true
    case s => Canonical(s.name.text)
  }

  /** A rotation that has been committed and has not yet removed the controller of n. */
  predicate Pending(y: System, n: TargetName) {
    y.lock.Some? && At(y, y.lock.value).Finishing? && At(y, y.lock.value).name == n
  }

  predicate Current(y: System, n: TargetName)
    requires n in y.desk.controllers && ControllerStage(At(y, y.desk.controllers[n]))
  {
    Generation(y.table, n.text) == Some(At(y, y.desk.controllers[n]).generation)
  }

  predicate RevocationKnown(y: System, n: TargetName) {
    n in y.desk.controllers ==> ControllerStage(At(y, y.desk.controllers[n])) && (Current(y, n) || Pending(y, n))
  }

  /** Under the lock, the generation read is still the registry's. */
  predicate ComparedKnown(y: System, i: Id) {
    At(y, i).Compared? && At(y, i).current.Some? ==> At(y, i).current == Generation(y.table, At(y, i).name.text)
  }

  ghost predicate RevocationInv(y: System) {
    && TableInv(y.table) && y.orphans == []
    && (forall i: Id :: NameKnown(y, i))
    && (forall i: Id :: ComparedKnown(y, i))
    && (forall n :: RevocationKnown(y, n))
  }

  /** Clients present canonical names, and no rotation is cancelled while its hash is being computed. */
  predicate Orderly(a: Action) {
    match a
    case Login(_, id, _) => Canonical(id.text)
    case AuthTarget(_, known, _, _) => known.Some? ==> Canonical(known.value.text)
    case Cancel(_) => false
    case _ => true
  }

  lemma CanonicalDistinct(m: TargetName, n: TargetName)
    requires Canonical(m.text) && Canonical(n.text) && m != n
    ensures Number(m.text) != Number(n.text)
  {
  }

  lemma RegisterKeeps(t: Table, owner: nat, password: nat, name: string)
    requires TableInv(t)
    ensures var t' := Register(t, owner, password).table;
            TableInv(t') && (Lookup(t, name).Some? ==> Lookup(t', name) == Lookup(t, name))
  {
    RegistrationStable(t, owner, password, owner, password);
  }

  lemma RotateKeeps(t: Table, name: string, owner: nat, password: nat, rotation: nat, other: string)
    requires TableInv(t) && Rotate(t, name, owner, password, rotation).Ok?
    ensures var t' := Rotate(t, name, owner, password, rotation).value.0;
            TableInv(t') && (Number(other) != Number(name) ==> Generation(t', other) == Generation(t, other))
  {
  }

  /** Actions other than registration and commit leave the table alone. */
  lemma TableSteady(y: System, a: Action)
    requires !a.AuthTarget? && !a.Commit? && !(a.Orphan? && y.orphans != [])
    ensures Step(y, a).table == y.table
    ensures !a.Cancel? && !a.Orphan? ==> Step(y, a).orphans == y.orphans
  {
  }

  lemma NameStep(y: System, a: Action)
    requires TableInv(y.table) && NameKnown(y, Subject(a)) && Orderly(a) && !a.Orphan?
    ensures NameKnown(Step(y, a), Subject(a))
  {
    hide Canonical;
    if a.AuthTarget? && a.known.None? && At(y, a.t).Fresh? && y.table.next < Pow10(MAX_DIGITS) {
      NumberOfName(Register(y.table, a.owner, a.password).number);
    }
  }

  lemma AuthTable(y: System, a: Action, name: string)
    requires TableInv(y.table) && a.AuthTarget?
    ensures var t := Step(y, a).table;
            TableInv(t) && (Lookup(y.table, name).Some? ==> Lookup(t, name) == Lookup(y.table, name))
    ensures Step(y, a).orphans == y.orphans && Step(y, a).lock == y.lock && Step(y, a).desk == y.desk
    ensures var s := At(Step(y, a), a.t); s == At(y, a.t) || s.Closed? || s.Verified?
    ensures At(Step(y, a), a.t) != At(y, a.t) ==> At(y, a.t).Fresh?
  {
    hide Canonical, Lookup;
    RegisterKeeps(y.table, a.owner, a.password, name);
  }

  lemma AuthRevocation(y: System, a: Action)
    requires RevocationInv(y) && a.AuthTarget? && Orderly(a)
    ensures RevocationInv(Step(y, a))
  {
    hide Canonical, Step, Lookup;
    var y' := Step(y, a);
    AuthTable(y, a, "");
    assert NameKnown(y, a.t);
    NameStep(y, a);
    forall j: Id | j != a.t ensures At(y', j) == At(y, j) { OtherStages(y, a, j); }
    forall j: Id ensures NameKnown(y', j) { assert NameKnown(y, j); }
    forall j: Id ensures ComparedKnown(y', j) {
      assert ComparedKnown(y, j);
      if At(y', j).Compared? { AuthTable(y, a, At(y, j).name.text); }
    }
    forall n ensures RevocationKnown(y', n) {
      assert RevocationKnown(y, n);
      AuthTable(y, a, n.text);
    }
  }

  lemma CommitRevocation(y: System, t: Id)
    requires RevocationInv(y) && LockInv(y) && DeskInv(y) && At(y, t).Rotating?
    ensures RevocationInv(StepCommit(y, t))
  {
    hide Canonical;
    var y', s := StepCommit(y, t), At(y, t);
    var r := Rotate(y.table, s.name.text, s.owner, s.password, s.rotation);
    assert LockKnown(y, t) && NameKnown(y, t);
    if r.Ok? { RotateKeeps(y.table, s.name.text, s.owner, s.password, s.rotation, s.name.text); }
    forall j: Id ensures NameKnown(y', j) { assert NameKnown(y, j); }
    forall j: Id ensures ComparedKnown(y', j) {
      assert ComparedKnown(y, j) && LockKnown(y, j);
    }
    forall n ensures RevocationKnown(y', n) {
      assert RevocationKnown(y, n) && ControllerKnown(y, n);
      if n in y.desk.controllers {
        assert NameKnown(y, y.desk.controllers[n]);
        if n != s.name && r.Ok? {
          CanonicalDistinct(n, s.name);
          RotateKeeps(y.table, s.name.text, s.owner, s.password, s.rotation, n.text);
        }
      }
    }
  }

  lemma FinishRevocation(y: System, t: Id)
    requires RevocationInv(y) && LockInv(y) && DeskInv(y) && At(y, t).Finishing?
    ensures RevocationInv(StepFinish(y, t))
  {
    hide Canonical;
    var y', s := StepFinish(y, t), At(y, t);
    assert LockKnown(y, t);
    forall j: Id ensures NameKnown(y', j) { assert NameKnown(y, j); }
    forall j: Id ensures ComparedKnown(y', j) { assert ComparedKnown(y, j); }
    forall n ensures RevocationKnown(y', n) { assert RevocationKnown(y, n) && ControllerKnown(y, n); }
  }

  lemma DecideRevocation(y: System, c: Id)
    requires RevocationInv(y) && LockInv(y) && DeskInv(y) && At(y, c).Compared?
    ensures RevocationInv(StepDecide(y, c))
  {
    hide Canonical;
    var y', s := StepDecide(y, c), At(y, c);
    assert LockKnown(y, c) && NameKnown(y, c) && ComparedKnown(y, c);
    forall j: Id ensures NameKnown(y', j) { assert NameKnown(y, j); }
    forall j: Id ensures ComparedKnown(y', j) { assert ComparedKnown(y, j); }
    forall n ensures RevocationKnown(y', n) { assert RevocationKnown(y, n) && ControllerKnown(y, n); }
  }

  /** The remaining actions: the table is untouched, and no controller is added. */
  predicate Minor(a: Action) { !a.AuthTarget? && !a.Commit? && !a.Finish? && !a.Decide? && !a.Cancel? }

  lemma MinorControllers(y: System, a: Action, n: TargetName)
    requires Minor(a) && n in Step(y, a).desk.controllers
    ensures n in y.desk.controllers && Step(y, a).desk.controllers[n] == y.desk.controllers[n]
  {
  }

  lemma MinorStage(y: System, a: Action)
    requires Minor(a)
    ensures var s, s' := At(y, Subject(a)), At(Step(y, a), Subject(a));
            && (s'.Compared? && s != s' ==> s'.current == Generation(y.table, s'.name.text))
            && (s.Finishing? ==> s' == s)
            && (ControllerStage(s) ==> s'.Closed? || (ControllerStage(s') && s'.generation == s.generation))
  {
  }

  lemma MinorRevocation(y: System, a: Action)
    requires RevocationInv(y) && LockInv(y) && DeskInv(y) && Minor(a) && Orderly(a)
    ensures RevocationInv(Step(y, a))
  {
    hide Canonical;
    var y' := Step(y, a);
    TableSteady(y, a);
    assert NameKnown(y, Subject(a)) && LockKnown(y, Subject(a));
    if !a.Orphan? { NameStep(y, a); }
    MinorStage(y, a);
    LockSubject(y, a);
    DeskStep(y, a);
    forall j: Id | j != Subject(a) || a.Orphan? ensures At(y', j) == At(y, j) { OtherStages(y, a, j); }
    forall j: Id ensures NameKnown(y', j) { assert NameKnown(y, j); }
    forall j: Id ensures ComparedKnown(y', j) { assert ComparedKnown(y, j); }
    forall n ensures RevocationKnown(y', n) {
      assert RevocationKnown(y, n) && ControllerKnown(y, n) && ControllerKnown(y', n);
      if n in y'.desk.controllers {
        MinorControllers(y, a, n);
        if y.lock.Some? { assert LockKnown(y, y.lock.value); }
      }
    }
  }

  lemma RevocationStep(y: System, a: Action)
    requires RevocationInv(y) && LockInv(y) && DeskInv(y) && Orderly(a)
    ensures RevocationInv(Step(y, a))
  {
    if a.AuthTarget? {
      AuthRevocation(y, a);
    } else if a.Commit? {
      if At(y, a.t).Rotating? { CommitRevocation(y, a.t); }
    } else if a.Finish? {
      if At(y, a.t).Finishing? { FinishRevocation(y, a.t); }
    } else if a.Decide? {
      if At(y, a.c).Compared? { DecideRevocation(y, a.c); }
    } else {
      MinorRevocation(y, a);
    }
  }

  lemma {:induction false} RevocationAlways(actions: seq<Action>)
    requires forall a :: a in actions ==> Orderly(a)
    ensures RevocationInv(Run(actions))
  {
    if actions != [] {
      RevocationAlways(Front(actions));
      SessionsAlways(Front(actions));
      RevocationStep(Run(Front(actions)), Last(actions));
    }
  }

  /** In every orderly interleaving of password checks, admissions, rotations and departures: whenever the
      lock is free, every admitted controller holds the generation the registry has for its target. */
  lemma {:induction false} FreeLockMeansCurrent(actions: seq<Action>, n: TargetName)
    requires forall a :: a in actions ==> Orderly(a)
    requires Run(actions).lock.None? && n in Run(actions).desk.controllers
    ensures var y := Run(actions);
            ControllerStage(At(y, y.desk.controllers[n])) && Current(y, n)
  {
    RevocationAlways(actions);
    assert RevocationKnown(Run(actions), n);
  }
}
