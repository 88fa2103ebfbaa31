/** The relay at work: who gets in, what reaches a target's queue, and that all of it is handed on. */
module RelayQueues {
  import opened Sequences
  import opened Registry
  import opened Relay
  import opened RelaySystem

  function TakenOf(y: System, t: Id): nat { Box(y.desk, t).taken }

  /** Never more than 256 messages wait. */
  predicate BoundedQueue(y: System, t: Id) {
    TakenOf(y, t) <= |LogOf(y, t)| <= TakenOf(y, t) + 256
  }

  lemma PutBounded(d: Desk, u: Id, m: Message, t: Id)
    requires Box(d, t).taken <= |Box(d, t).log| <= Box(d, t).taken + 256
    ensures var d' := Put(d, u, m); Box(d', t).taken <= |Box(d', t).log| <= Box(d', t).taken + 256
    ensures Box(Put(d, u, m), t).taken == Box(d, t).taken
  {
  }

  lemma BoundedStep(y: System, a: Action, t: Id)
    requires BoundedQueue(y, t)
    ensures BoundedQueue(Step(y, a), t)
  {
    hide Put;
    match a
    case Decide(c) =>
      if At(y, c).Compared? && Admissible(y.desk, At(y, c).name, At(y, c).generation, At(y, c).current) {
        var n := At(y, c).name;
        PutBounded(y.desk.(controllers := y.desk.controllers[n := c]), y.desk.targets[n], Joined(c), t);
      }
    case Finish(u) =>
      if At(y, u).Finishing? {
        var n := At(y, u).name;
        var c := if n in y.desk.controllers then Some(y.desk.controllers[n]) else None;
        PutBounded(y.desk.(controllers := y.desk.controllers - {n}), u, Rotated(c), t);
      }
    case Pass(c, raw) =>
      if At(y, c).Reading? && Forwarded(y.desk, At(y, c).name, c) {
        PutBounded(y.desk, y.desk.targets[At(y, c).name], Frame(c, raw), t);
      }
    case Detach(i) =>
      if At(y, i).Leaving? && SessionLive(y.desk, At(y, i).name, i) {
        var n := At(y, i).name;
        PutBounded(y.desk.(controllers := y.desk.controllers - {n}), y.desk.targets[n], Gone(i), t);
      }
    case Enter(u) => EnterBounded(y, u, t);
    case _ => OtherBoxes(y, a, t);
  }

  lemma EnterBounded(y: System, u: Id, t: Id)
    requires BoundedQueue(y, t)
    ensures BoundedQueue(StepEnter(y, u), t)
  {
  }

  lemma OtherBoxes(y: System, a: Action, t: Id)
    requires !a.Decide? && !a.Finish? && !a.Pass? && !a.Detach? && !a.Enter?
    ensures LogOf(Step(y, a), t) == LogOf(y, t)
    ensures TakenOf(Step(y, a), t)
            == if a == Take(t) && TakenOf(y, t) < |LogOf(y, t)| then TakenOf(y, t) + 1 else TakenOf(y, t)
  {
  }

  /** In every run and for every target: what the writer has taken is a beginning of what was put, and at most 256
      messages wait. */
  lemma {:induction false} QueuesBounded(actions: seq<Action>, t: Id)
    ensures BoundedQueue(Run(actions), t)
  {
    if actions != [] {
      QueuesBounded(Front(actions), t);
      BoundedStep(Run(Front(actions)), Last(actions), t);
    }
  }

  function Takes(t: Id, n: nat): seq<Action> { seq(n, _ => Take(t)) }

  /** In every run, as many turns of the writer as messages wait hand on every one of them, in the order in which they
      were put. */
  lemma {:induction false} AllHandedOn(actions: seq<Action>, t: Id, n: nat)
    requires n <= |LogOf(Run(actions), t)| - TakenOf(Run(actions), t)
    ensures var y := Run(actions + Takes(t, n));
            LogOf(y, t) == LogOf(Run(actions), t) && TakenOf(y, t) == TakenOf(Run(actions), t) + n
  {
    if n == 0 {
      assert actions + Takes(t, 0) == actions;
    } else {
      AllHandedOn(actions, t, n - 1);
      var before := actions + Takes(t, n - 1);
      assert actions + Takes(t, n) == before + [Take(t)];
      assert Front(before + [Take(t)]) == before;
      OtherBoxes(Run(before), Take(t), t);
      hide Step;
    }
  }

  /** In every run: a frame from an admitted controller is appended, unchanged, to the queue of the very connection the
      controller was admitted to, if it is still listed and fewer than 256 messages wait there; otherwise nothing is
      put anywhere and the session ends. */
  lemma {:induction false} FrameReachesHome(actions: seq<Action>, c: Id, raw: seq<int>)
    requires At(Run(actions), c).Reading?
    ensures var y, y' := Run(actions), Run(actions + [Pass(c, raw)]);
            var s := At(y, c);
            if s.name in y.desk.controllers && y.desk.controllers[s.name] == c
               && |LogOf(y, s.home)| < TakenOf(y, s.home) + 256 then
              LogOf(y', s.home) == LogOf(y, s.home) + [Frame(c, raw)] && At(y', c) == s
            else y'.desk == y.desk && At(y', c).Leaving?
  {
    var y := Run(actions);
    SessionsAlways(actions);
    assert Front(actions + [Pass(c, raw)]) == actions;
    assert ControllerKnown(y, At(y, c).name);
  }

  // ---- Credentials ----

  /** A login names a registered target and carries its password, nothing else. */
  lemma LoginExactly(t: Table, name: string, password: nat)
    ensures Registry.Login(t, name, password).Some?
            <==> Lookup(t, name).Some? && Lookup(t, name).value.password == password
    ensures Registry.Login(t, name, password).Some? ==> Registry.Login(t, name, password) == Generation(t, name)
    ensures forall owner :: OwnerCheck(t, name, owner).Some?
                            <==> Lookup(t, name).Some? && Lookup(t, name).value.owner == owner
  {
  }

  /** A new target's name logs in with its own password and with no other, and proves itself by its owner token and by
      no other; this takes twelve digits or less. */
  lemma RegisteredLogin(t: Table, owner: nat, password: nat, p: nat, o: nat)
    requires TableInv(t) && !Registered(t, owner) && t.next < 1_000_000_000_000
    ensures var r := Register(t, owner, password);
            && (Registry.Login(r.table, Name(r.number), p) == if p == password then Some(1) else None)
            && (OwnerCheck(r.table, Name(r.number), o) == if o == owner then Some(1) else None)
  {
    TwelveDigits();
    NumberOfName(t.next);
  }

  /** In every run with the lock free: a controller with a target's password gets in if the target is connected and
      nobody controls it, and with a wrong one it is turned away at once. */
  lemma {:induction false} PasswordAdmits(actions: seq<Action>, c: Id, n: TargetName, password: nat)
    requires At(Run(actions), c).Fresh? && Run(actions).lock.None?
    ensures var y := Run(actions);
            var y1 := Step(y, RelaySystem.Login(c, n, password));
            var y4 := Step(Step(Step(y1, Acquire(c)), Read(c)), Decide(c));
            if Lookup(y.table, n.text).None? || Lookup(y.table, n.text).value.password != password then
              At(y1, c).Closed? && y4.desk == y.desk
            else
              && (n in y4.desk.controllers && y4.desk.controllers[n] == c
                  <==> n in y.desk.targets && (n in y.desk.controllers ==> y.desk.controllers[n] == c))
              && (n !in y.desk.targets || n in y.desk.controllers ==> At(y4, c).Refusing? && y4.desk == y.desk)
  {
    var y := Run(actions);
    SessionsAlways(actions);
    assert ControllerKnown(y, n);
    LoginExactly(y.table, n.text, password);
  }
}
