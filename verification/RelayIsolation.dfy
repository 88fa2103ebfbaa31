/** Session isolation: what a target's queue tells it about whose frames it receives. */
module RelayIsolation {
  import opened Sequences
  import opened Registry
  import opened Relay
  import opened RelaySystem

  /** The controller announced last and not ended since. */
  function Announced(log: seq<Message>): Option<Id> {
    if log == [] then None
    else
      match Last(log)
      case Joined(c) => Some(c)
      case Gone(_) => None
      case Rotated(_) => None
      case Frame(_, _) => Announced(Front(log))
  }

  predicate Ends(m: Message, c: Id) { m == Gone(c) || m == Rotated(Some(c)) }

  predicate FrameOf(m: Message, c: Id) { m.Frame? && m.controller == c }

  /** Frames only come from the controller announced at that point. */
  predicate Grammatical(log: seq<Message>) {
    log == [] || (Grammatical(Front(log)) && (Last(log).Frame? ==> Announced(Front(log)) == Some(Last(log).controller)))
  }

  predicate EndedIn(log: seq<Message>, c: Id) { exists i :: 0 <= i < |log| && Ends(log[i], c) }

  predicate MentionedIn(log: seq<Message>, c: Id) {
    exists i :: 0 <= i < |log| && (log[i] == Joined(c) || FrameOf(log[i], c))
  }

  predicate NothingAfterEnd(log: seq<Message>) {
    forall i, j :: 0 <= i < j < |log| && log[j].Frame? ==> !Ends(log[i], log[j].controller)
  }

  /** The message an action puts into a target's queue, and whose. */
  function Appended(y: System, a: Action): Option<(Id, Message)> {
    match a
    case Decide(c) =>
      (match At(y, c)
       case Compared(n, g, current) =>
         if Admissible(y.desk, n, g, current) && !Full(y.desk, y.desk.targets[n])
         then Some((y.desk.targets[n], Joined(c))) else None
       case _ => None)
    case Pass(c, raw) =>
      (match At(y, c)
       case Reading(n, g, home) =>
         if Forwarded(y.desk, n, c) then Some((y.desk.targets[n], Frame(c, raw))) else None
       case _ => None)
    case Finish(t) =>
      (match At(y, t)
       case Finishing(n, o) =>
         if Full(y.desk, t) then None
         else Some((t, Rotated(if n in y.desk.controllers then Some(y.desk.controllers[n]) else None)))
       case _ => None)
    case Detach(i) =>
      (match At(y, i)
       case Leaving(n, g, home) =>
         if SessionLive(y.desk, n, i) && !Full(y.desk, y.desk.targets[n])
         then Some((y.desk.targets[n], Gone(i))) else None
       case _ => None)
    case _ => None
  }

  /** A connection that has not become a running target has no queue yet. */
  predicate Unqueued(y: System, t: Id) {
    At(y, t).Fresh? || At(y, t).Verified? || At(y, t).Entering? ==> LogOf(y, t) == []
  }

  /** Actions that put nothing into any queue. */
  predicate Silent(a: Action) { !a.Decide? && !a.Pass? && !a.Finish? && !a.Detach? && !a.Enter? && !a.Take? }

  lemma BoxesSteady(y: System, a: Action)
    requires Silent(a)
    ensures Step(y, a).desk == y.desk && Appended(y, a).None?
  {
  }

  lemma PutLog(d: Desk, t: Id, m: Message, u: Id)
    ensures Box(Put(d, t, m), u).log == if t == u && !Full(d, t) then Box(d, u).log + [m] else Box(d, u).log
  {
  }

  /** What an appended message does to the queue of t. */
  predicate LogGrows(y: System, y': System, m: Option<(Id, Message)>, t: Id) {
    LogOf(y', t)
    == match m
       case Some(p) => if p.0 == t then LogOf(y, t) + [p.1] else LogOf(y, t)
       case None => LogOf(y, t)
  }

  lemma DecideAppends(y: System, c: Id, t: Id)
    ensures LogGrows(y, StepDecide(y, c), Appended(y, Decide(c)), t)
  {
    hide Put;
    var s := At(y, c);
    if s.Compared? && Admissible(y.desk, s.name, s.generation, s.current) {
      PutLog(y.desk.(controllers := y.desk.controllers[s.name := c]), y.desk.targets[s.name], Joined(c), t);
    }
  }

  lemma FinishAppends(y: System, u: Id, t: Id)
    ensures LogGrows(y, StepFinish(y, u), Appended(y, Finish(u)), t)
  {
    hide Put;
    if At(y, u).Finishing? {
      var n := At(y, u).name;
      var gone := if n in y.desk.controllers then Some(y.desk.controllers[n]) else None;
      PutLog(y.desk.(controllers := y.desk.controllers - {n}), u, Rotated(gone), t);
    }
  }

  lemma PassAppends(y: System, c: Id, raw: seq<int>, t: Id)
    ensures LogGrows(y, StepPass(y, c, raw), Appended(y, Pass(c, raw)), t)
  {
    hide Put;
    if At(y, c).Reading? && Forwarded(y.desk, At(y, c).name, c) {
      PutLog(y.desk, y.desk.targets[At(y, c).name], Frame(c, raw), t);
    }
  }

  lemma DetachAppends(y: System, i: Id, t: Id)
    ensures LogGrows(y, Step(y, Detach(i)), Appended(y, Detach(i)), t)
  {
    hide Put;
    if At(y, i).Leaving? && SessionLive(y.desk, At(y, i).name, i) {
      var n := At(y, i).name;
      PutLog(y.desk.(controllers := y.desk.controllers - {n}), y.desk.targets[n], Gone(i), t);
    }
  }

  lemma AppendedExact(y: System, a: Action, t: Id)
    requires Unqueued(y, t)
    ensures LogGrows(y, Step(y, a), Appended(y, a), t)
  {
    if Silent(a) {
      BoxesSteady(y, a);
    } else if a.Enter? || a.Take? {
    } else {
      match a
      case Decide(c) => DecideAppends(y, c, t);
      case Finish(u) => FinishAppends(y, u, t);
      case Pass(c, raw) => PassAppends(y, c, raw, t);
      case Detach(i) => DetachAppends(y, i, t);
    }
  }

  /** An admitted controller whose reader still runs is the one announced to its target. */
  predicate AnnouncedKnown(y: System, n: TargetName) {
    n in y.desk.controllers && n in y.desk.targets && At(y, y.desk.controllers[n]).Reading?
    ==> Announced(LogOf(y, y.desk.targets[n])) == Some(y.desk.controllers[n])
  }

  predicate Admitted(s: Stage) { s.Reading? || s.Leaving? || (s.Closed? && s.last.Some?) }

  function HomeOf(s: Stage): Id
    requires Admitted(s)
  {
    match s
    case Reading(_, _, home) => home
    case Leaving(_, _, home) => home
    case Closed(last) => last.value
  }

  /** A controller mentioned in a queue was admitted to the connection owning it. */
  predicate HomeKnown(y: System, t: Id, c: Id) {
    MentionedIn(LogOf(y, t), c) ==> Admitted(At(y, c)) && HomeOf(At(y, c)) == t
  }

  /** A controller whose end is recorded is no longer the admitted one, and will not be again. */
  predicate EndKnown(y: System, t: Id, c: Id) {
    EndedIn(LogOf(y, t), c) ==>
      Admitted(At(y, c)) && (ControllerStage(At(y, c)) ==> !SessionLive(y.desk, At(y, c).name, c))
  }

  predicate LogKnown(y: System, t: Id) { Grammatical(LogOf(y, t)) && NothingAfterEnd(LogOf(y, t)) }

  ghost predicate IsolationInv(y: System) {
    && (forall t: Id :: Unqueued(y, t))
    && (forall t: Id :: LogKnown(y, t))
    && (forall n :: AnnouncedKnown(y, n))
    && (forall t: Id, c: Id :: HomeKnown(y, t, c))
    && (forall t: Id, c: Id :: EndKnown(y, t, c))
  }

  // ---- One message more ----

  lemma GrammarSnoc(log: seq<Message>, m: Message)
    requires Grammatical(log) && NothingAfterEnd(log)
    requires m.Frame? ==> Announced(log) == Some(m.controller) && !EndedIn(log, m.controller)
    ensures Grammatical(log + [m]) && NothingAfterEnd(log + [m])
  {
    assert Front(log + [m]) == log;
    forall i, j | 0 <= i < j < |log + [m]| && (log + [m])[j].Frame?
      ensures !Ends((log + [m])[i], (log + [m])[j].controller)
    {
      assert (log + [m])[i] == log[i];
      if j == |log| { assert !Ends(log[i], m.controller); }
    }
  }

  lemma MentionSnoc(log: seq<Message>, m: Message, c: Id)
    ensures MentionedIn(log + [m], c) <==> MentionedIn(log, c) || m == Joined(c) || FrameOf(m, c)
    ensures EndedIn(log + [m], c) <==> EndedIn(log, c) || Ends(m, c)
  {
    var more := log + [m];
    assert forall i :: 0 <= i < |log| ==> more[i] == log[i];
    assert more[|log|] == m;
    if MentionedIn(log, c) {
      var i :| 0 <= i < |log| && (log[i] == Joined(c) || FrameOf(log[i], c));
      assert more[i] == log[i];
    }
    if EndedIn(log, c) {
      var i :| 0 <= i < |log| && Ends(log[i], c);
      assert more[i] == log[i];
    }
  }

  lemma AnnounceSnoc(log: seq<Message>, m: Message)
    ensures Announced(log + [m])
            == match m case Joined(c) => Some(c) case Frame(_, _) => Announced(log) case _ => None
  {
    assert Front(log + [m]) == log;
  }

  // ---- One action more ----

  /** What justifies the message an action appends. */
  lemma AppendedJustified(y: System, a: Action)
    requires IsolationInv(y) && DeskInv(y) && Appended(y, a).Some?
    ensures var (t, m) := Appended(y, a).value;
            && (m.Frame? ==> Announced(LogOf(y, t)) == Some(m.controller) && !EndedIn(LogOf(y, t), m.controller))
            && TargetStage(At(y, t))
  {
    match a
    case Decide(c) => assert TargetKnown(y, At(y, c).name);
    case Pass(c, raw) =>
      var n, t := At(y, c).name, Appended(y, a).value.0;
      assert TargetKnown(y, n) && AnnouncedKnown(y, n) && EndKnown(y, t, c);
    case Finish(t) =>
    case Detach(i) => assert TargetKnown(y, At(y, i).name);
  }

  lemma LogStep(y: System, a: Action, t: Id)
    requires IsolationInv(y) && DeskInv(y)
    ensures LogKnown(Step(y, a), t) && Unqueued(Step(y, a), t)
  {
    hide Step, Appended, Grammatical, NothingAfterEnd;
    assert Unqueued(y, t) && LogKnown(y, t);
    AppendedExact(y, a, t);
    if Appended(y, a).Some? && Appended(y, a).value.0 == t {
      AppendedJustified(y, a);
      GrammarSnoc(LogOf(y, t), Appended(y, a).value.1);
      RunningStays(y, a, t);
    } else {
      QueueStays(y, a, t);
    }
  }

  /** A running target connection stays one, or closes. */
  lemma RunningStays(y: System, a: Action, t: Id)
    requires TargetStage(At(y, t))
    ensures var s := At(Step(y, a), t); TargetStage(s) || s.Closed?
  {
  }

  lemma QueueStays(y: System, a: Action, t: Id)
    requires Unqueued(y, t)
    ensures var s := At(Step(y, a), t);
            s.Fresh? || s.Verified? || s.Entering? ==> At(y, t).Fresh? || At(y, t).Verified? || At(y, t).Entering?
  {
  }

  lemma AnnouncedStep(y: System, a: Action, n: TargetName)
    requires IsolationInv(y) && DeskInv(y)
    ensures AnnouncedKnown(Step(y, a), n)
  {
    hide Step, Appended;
    var y' := Step(y, a);
    DeskStep(y, a);
    assert ControllerKnown(y, n) && ControllerKnown(y', n) && AnnouncedKnown(y, n) && TargetKnown(y', n);
    if n in y'.desk.controllers && At(y', y'.desk.controllers[n]).Reading? {
      var t, c := y'.desk.targets[n], y'.desk.controllers[n];
      assert Unqueued(y, t);
      AppendedExact(y, a, t);
      KeptOrJoined(y, a, n);
      if Appended(y, a).Some? && Appended(y, a).value.0 == t {
        AnnounceSnoc(LogOf(y, t), Appended(y, a).value.1);
      }
    }
  }

  /** The target a message is put to is the one listed for the acting session's name. */
  lemma AppendedTarget(y: System, a: Action, n: TargetName)
    requires DeskInv(y) && Appended(y, a).Some? && n in y.desk.targets && Appended(y, a).value.0 == y.desk.targets[n]
    ensures At(y, Subject(a)).Compared? || At(y, Subject(a)).Reading? || At(y, Subject(a)).Finishing?
            || At(y, Subject(a)).Leaving?
    ensures At(y, Subject(a)).name == n
  {
    assert TargetKnown(y, n) && TargetKnown(y, At(y, Subject(a)).name);
  }

  /** A listed controller of an action's result was listed before, unless it has just been admitted. */
  lemma ListedBefore(y: System, a: Action, n: TargetName)
    requires n in Step(y, a).desk.controllers
    ensures var c := Step(y, a).desk.controllers[n];
            || (n in y.desk.controllers && y.desk.controllers[n] == c)
            || (a == Decide(c) && At(y, c).Compared? && At(y, c).name == n && n in y.desk.targets
                && Admissible(y.desk, n, At(y, c).generation, At(y, c).current))
  {
    hide Put, Full, Register, Rotate, TableInv;
  }

  /** A reading controller of an action's result was reading before, or has just been admitted. */
  lemma ReadingBefore(y: System, a: Action, n: TargetName)
    requires DeskInv(y) && n in Step(y, a).desk.controllers
    requires At(Step(y, a), Step(y, a).desk.controllers[n]).Reading?
    ensures var c := Step(y, a).desk.controllers[n];
            || (n in y.desk.controllers && y.desk.controllers[n] == c && At(y, c).Reading?)
            || (a == Decide(c) && At(y, c).Compared? && At(y, c).name == n && n in y.desk.targets
                && Appended(y, a) == Some((y.desk.targets[n], Joined(c))))
  {
    assert ControllerKnown(y, n);
    var c := Step(y, a).desk.controllers[n];
    ListedBefore(y, a, n);
    hide Put, Full, Register, Rotate, TableInv;
    if c != Subject(a) || a.Orphan? {
      OtherStages(y, a, c);
    }
  }

  /** A controller reading after an action either was reading before, and nothing but its own frames came
      into its target's queue, or has just been announced there. */
  lemma KeptOrJoined(y: System, a: Action, n: TargetName)
    requires DeskInv(y) && DeskInv(Step(y, a)) && IsolationInv(y)
    requires var y' := Step(y, a); n in y'.desk.controllers && At(y', y'.desk.controllers[n]).Reading?
    ensures var y' := Step(y, a);
            n in y'.desk.targets &&
            var t, c := y'.desk.targets[n], y'.desk.controllers[n];
            || Appended(y, a) == Some((t, Joined(c)))
            || (&& n in y.desk.controllers && n in y.desk.targets
                && y.desk.controllers[n] == c && y.desk.targets[n] == t
                && At(y, c).Reading?
                && (Appended(y, a).Some? && Appended(y, a).value.0 == t ==> FrameOf(Appended(y, a).value.1, c)))
  {
    hide Put, Full, Register, Rotate, TableInv;
    var y' := Step(y, a);
    var c := y'.desk.controllers[n];
    assert ControllerKnown(y, n) && ControllerKnown(y', n);
    ReadingBefore(y, a, n);
    if n in y.desk.targets && Appended(y, a).Some? && Appended(y, a).value.0 == y.desk.targets[n] {
      AppendedTarget(y, a, n);
    }
  }

  lemma AdmittedStays(y: System, a: Action, c: Id)
    requires Admitted(At(y, c))
    ensures Admitted(At(Step(y, a), c)) && HomeOf(At(Step(y, a), c)) == HomeOf(At(y, c))
  {
    hide Put, Full, Register, Rotate, TableInv;
    if c != Subject(a) || a.Orphan? { OtherStages(y, a, c); }
  }

  lemma MessageHome(y: System, a: Action, c: Id)
    requires IsolationInv(y) && DeskInv(y) && Appended(y, a).Some?
    requires var m := Appended(y, a).value.1; m == Joined(c) || FrameOf(m, c) || Ends(m, c)
    ensures Admitted(At(Step(y, a), c)) && HomeOf(At(Step(y, a), c)) == Appended(y, a).value.0
  {
    match a
    case Decide(_) =>
    case Pass(_, _) =>
      assert ControllerKnown(y, At(y, c).name);
    case Finish(t) =>
      assert ControllerKnown(y, At(y, t).name) && TargetListed(y, t);
    case Detach(_) =>
      assert ControllerKnown(y, At(y, c).name);
  }

  lemma HomeStep(y: System, a: Action, t: Id, c: Id)
    requires IsolationInv(y) && DeskInv(y)
    ensures HomeKnown(Step(y, a), t, c)
  {
    hide Step, Appended;
    assert HomeKnown(y, t, c) && Unqueued(y, t);
    AppendedExact(y, a, t);
    if Admitted(At(y, c)) { AdmittedStays(y, a, c); }
    if Appended(y, a).Some? {
      var m := Appended(y, a).value.1;
      MentionSnoc(LogOf(y, t), m, c);
      if m == Joined(c) || FrameOf(m, c) { MessageHome(y, a, c); }
    }
  }

  /** Once a controller's end is recorded it is never the admitted one again. */
  lemma EndedStays(y: System, a: Action, c: Id)
    requires DeskInv(y) && Admitted(At(y, c)) && (ControllerStage(At(y, c)) ==> !SessionLive(y.desk, At(y, c).name, c))
    ensures var y' := Step(y, a);
            ControllerStage(At(y', c)) ==> !SessionLive(y'.desk, At(y', c).name, c)
  {
    hide Put, Full, Register, Rotate, TableInv;
    if ControllerStage(At(y, c)) {
      assert ControllerKnown(y, At(y, c).name);
    }
  }

  lemma EndMessage(y: System, a: Action, c: Id)
    requires DeskInv(y) && Appended(y, a).Some? && Ends(Appended(y, a).value.1, c)
    ensures var y' := Step(y, a);
            ControllerStage(At(y', c)) ==> !SessionLive(y'.desk, At(y', c).name, c)
  {
    match a
    case Finish(t) => assert ControllerKnown(y, At(y, t).name);
    case Detach(i) =>
  }

  lemma EndStep(y: System, a: Action, t: Id, c: Id)
    requires IsolationInv(y) && DeskInv(y)
    ensures EndKnown(Step(y, a), t, c)
  {
    hide Step, Appended;
    assert EndKnown(y, t, c) && Unqueued(y, t);
    AppendedExact(y, a, t);
    if EndedIn(LogOf(y, t), c) {
      AdmittedStays(y, a, c);
      EndedStays(y, a, c);
    } else if Appended(y, a).Some? {
      MentionSnoc(LogOf(y, t), Appended(y, a).value.1, c);
      if Ends(Appended(y, a).value.1, c) {
        MessageHome(y, a, c);
        EndMessage(y, a, c);
      }
    }
  }

  lemma IsolationStep(y: System, a: Action)
    requires IsolationInv(y) && DeskInv(y)
    ensures IsolationInv(Step(y, a))
  {
    hide Step;
    var y' := Step(y, a);
    forall t: Id ensures LogKnown(y', t) && Unqueued(y', t) { LogStep(y, a, t); }
    forall n ensures AnnouncedKnown(y', n) { AnnouncedStep(y, a, n); }
    forall t: Id, c: Id ensures HomeKnown(y', t, c) { HomeStep(y, a, t, c); }
    forall t: Id, c: Id ensures EndKnown(y', t, c) { EndStep(y, a, t, c); }
  }

  lemma {:induction false} IsolationAlways(actions: seq<Action>)
    ensures IsolationInv(Run(actions))
  {
    if actions != [] {
      IsolationAlways(Front(actions));
      SessionsAlways(Front(actions));
      IsolationStep(Run(Front(actions)), Last(actions));
    }
  }

  // ---- Read off one queue ----

  lemma {:induction false} GrammarPrefix(log: seq<Message>, j: nat)
    requires Grammatical(log) && j < |log| && log[j].Frame?
    ensures Announced(log[..j]) == Some(log[j].controller)
  {
    if j == |log| - 1 {
      assert Front(log) == log[..j];
    } else {
      GrammarPrefix(Front(log), j);
      assert Front(log)[..j] == log[..j];
    }
  }

  lemma {:induction false} AnnouncedWitness(log: seq<Message>, c: Id) returns (k: nat)
    requires Announced(log) == Some(c)
    ensures k < |log| && log[k] == Joined(c)
    ensures forall i :: k < i < |log| ==> log[i].Frame?
  {
    if Last(log).Joined? {
      k := |log| - 1;
    } else {
      k := AnnouncedWitness(Front(log), c);
    }
  }

  predicate AnnouncedBetween(log: seq<Message>, low: int, high: nat, c: Id)
    requires high <= |log|
  {
    exists k :: low < k < high && 0 <= k && log[k] == Joined(c)
  }

  lemma {:induction false} AnnouncedThrough(log: seq<Message>, k: nat, i: nat)
    requires k < i <= |log| && log[k].Joined? && forall m :: k < m < i ==> log[m].Frame?
    ensures Announced(log[..i]) == Some(log[k].controller)
  {
    assert Front(log[..i]) == log[..i - 1] && Last(log[..i]) == log[i - 1];
    if i > k + 1 {
      AnnouncedThrough(log, k, i - 1);
    }
  }

  lemma FrameSeparated(log: seq<Message>, i: nat, j: nat)
    requires Grammatical(log) && i < j < |log| && log[j].Frame?
    ensures var c := log[j].controller;
            && AnnouncedBetween(log, -1, j, c)
            && (log[i].Frame? && log[i].controller != c ==> AnnouncedBetween(log, i, j, c))
  {
    GrammarPrefix(log, j);
    var k := AnnouncedWitness(log[..j], log[j].controller);
    assert log[k] == Joined(log[j].controller);
    if log[i].Frame? && log[i].controller != log[j].controller && k < i {
      GrammarPrefix(log, i);
      AnnouncedThrough(log, k, i);
    }
  }

  /** In every interleaving, for every target connection's queue: a frame is preceded by the announcement of
      its controller, frames of two different controllers have the second one's announcement between them,
      and no frame follows the departure or revocation of its controller. */
  lemma {:induction false} QueueIsolation(actions: seq<Action>, t: Id, i: nat, j: nat)
    requires i < j < |LogOf(Run(actions), t)| && LogOf(Run(actions), t)[j].Frame?
    ensures var log := LogOf(Run(actions), t);
            var c := log[j].controller;
            && AnnouncedBetween(log, -1, j, c)
            && (log[i].Frame? && log[i].controller != c ==> AnnouncedBetween(log, i, j, c))
            && !Ends(log[i], c)
  {
    hide Step;
    IsolationAlways(actions);
    assert LogKnown(Run(actions), t);
    FrameSeparated(LogOf(Run(actions), t), i, j);
  }

  /** Every frame is preceded by the announcement of its controller, the queue's first message included. */
  lemma {:induction false} FramesAnnounced(actions: seq<Action>, t: Id, j: nat)
    requires j < |LogOf(Run(actions), t)| && LogOf(Run(actions), t)[j].Frame?
    ensures AnnouncedBetween(LogOf(Run(actions), t), -1, j, LogOf(Run(actions), t)[j].controller)
  {
    hide Step;
    var log := LogOf(Run(actions), t);
    IsolationAlways(actions);
    assert LogKnown(Run(actions), t);
    GrammarPrefix(log, j);
    var k := AnnouncedWitness(log[..j], log[j].controller);
    assert log[k] == Joined(log[j].controller);
  }

  /** No controller has frames in the queues of two target connections. */
  lemma {:induction false} OneHome(actions: seq<Action>, c: Id, t: Id, i: nat, u: Id, j: nat)
    requires i < |LogOf(Run(actions), t)| && FrameOf(LogOf(Run(actions), t)[i], c)
    requires j < |LogOf(Run(actions), u)| && FrameOf(LogOf(Run(actions), u)[j], c)
    ensures t == u
  {
    IsolationAlways(actions);
    assert HomeKnown(Run(actions), t, c) && HomeKnown(Run(actions), u, c);
  }
}
