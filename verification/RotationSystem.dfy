/** A target process, its vault, the connection to the relay and the registry's row, under disconnects, lost
    replies, failed saves and crashes at any point. */
module RotationSystem {
  import opened Sequences
  import opened Rotation

  /** The running program: what it has in memory, whether it believes a change is under way, and whether its
      connection is up. */
  datatype Process = Process(identity: Identity, rotating: bool, linked: bool)

  /** The registry's row for this owner. */
  datatype Row = Row(password: nat, generation: nat, rotation: Option<nat>)

  /** A rotate message; `position` is an annotation, the place of the change among all changes begun. */
  datatype Request = Request(change: Pending, position: nat)

  /** `attached`: the relay still serves the latest connection. `requests` are rotations it has received there and
      not yet carried out, `late` those whose connection ended while their registry call was running, `replies` the
      confirmations on their way back. The rest is history: the first password, every change begun, the place of
      the one the row shows (0 for none), the places of the changes that raised the generation, in order, and the
      secrets and ids used so far. */
  datatype System = System(
    saved: Option<Identity>, process: Option<Process>, row: Option<Row>, attached: bool, requests: seq<Request>,
    late: seq<Request>, replies: nat, initial: nat, begun: seq<Pending>, carried: nat, raised: seq<nat>,
    used: set<nat>)

  datatype Action =
    | Launch(owner: nat, password: nat, works: bool)
    | Crash
    | Hello                                         // the relay registers or recognises the target
    | Welcome(id: nat, drawn: Pending, works: bool, again: bool) // the reply arrives; `again`: the second save works
    | Command(drawn: Pending, works: bool)          // P on a live connection
    | Offline(drawn: Pending, works: bool)          // P while waiting to reconnect
    | Execute                                       // the relay carries out the oldest request and confirms it
    | CutOff                                        // the relay's side ends while that call is running
    | Late(k: nat)                                  // such a call completes
    | Confirm(works: bool)                          // a reply arrives
    | Drop                                          // the connection is lost

  const START: System := System(None, None, None, false, [], [], 0, 0, [], 0, [], {})

  function Changes(rs: seq<Request>): seq<Pending> { Map((r: Request) => r.change, rs) }

  function Unlink(y: System): System {
    y.(process := match y.process case Some(p) => Some(p.(linked := false)) case None => None, replies := 0)
  }

  /** A new change enters the history when it is journaled. */
  function Journaled(y: System, i: Identity, drawn: Pending): System {
    if i.pending.Some? then y
    else
      y.(saved := Some(Begun(i, drawn)), begun := y.begun + [drawn], used := y.used + {drawn.password, drawn.rotation})
  }

  /** Target.rotate: mark, journal, send. A save that raises ends the connection with the mark kept. */
  function Rotate(y: System, p: Process, drawn: Pending, works: bool): System {
    var p1 := p.(rotating := true);
    if p.identity.pending.None? && !works then Unlink(y.(process := Some(p1)))
    else
      var i, y1 := Begun(p.identity, drawn), Journaled(y, p.identity, drawn);
      y1.(process := Some(p1.(identity := i)),
          requests := if y.attached then y.requests + [Request(i.pending.value, |y1.begun|)] else y.requests)
  }

  function StepLaunch(y: System, owner: nat, password: nat, works: bool): System {
    if y.process.Some? then y
    else
      match y.saved
      case Some(i) => y.(process := Some(Process(i, i.pending.Some?, false)))
      case None =>
        if !works then y
        else
          var i := Identity(owner, password, None, None);
          y.(saved := Some(i), process := Some(Process(i, false, false)), initial := password,
             used := y.used + {owner, password})
  }

  /** A new connection replaces the old one at the relay, with whatever it had not carried out. */
  function StepHello(y: System): System {
    if y.process.None? || y.process.value.linked then y
    else
      y.(row := if y.row.None? then Some(Row(y.process.value.identity.password, 1, None)) else y.row,
         attached := true, requests := [], replies := 0)
  }

  /** The registration reply is saved; a change under way is sent again. */
  function StepWelcome(y: System, id: nat, drawn: Pending, works: bool, again: bool): System {
    if y.process.None? || y.process.value.linked || y.row.None? || y.requests != [] then y
    else
      var p := y.process.value.(identity := y.process.value.identity.(id := Some(id)));
      if !works then y.(process := Some(p))
      else
        var y1 := y.(process := Some(p.(linked := true)), saved := Some(p.identity));
        if p.rotating then Rotate(y1, p.(linked := true), drawn, again) else y1
  }

  function StepOffline(y: System, drawn: Pending, works: bool): System {
    if y.process.None? || y.process.value.linked then y
    else
      var p := y.process.value;
      if p.identity.pending.Some? then y.(process := Some(p.(rotating := true)))
      else if !works then y.(process := None)
      else Journaled(y, p.identity, drawn).(process := Some(Process(Begun(p.identity, drawn), true, false)))
  }

  /** The registry's rotation: it compares the id with the latest one only. */
  function Carried(y: System, r: Request): System
    requires y.row.Some?
  {
    if y.row.value.rotation == Some(r.change.rotation) then y
    else
      y.(row := Some(Row(r.change.password, y.row.value.generation + 1, Some(r.change.rotation))),
         carried := r.position, raised := y.raised + [r.position])
  }

  function StepExecute(y: System): System {
    if y.requests == [] || y.row.None? then y
    else
      Carried(y, y.requests[0]).(
        requests := y.requests[1..],
        replies := if y.process.Some? && y.process.value.linked then y.replies + 1 else 0)
  }

  /** The rest of the connection's requests is never looked at. */
  function StepCutOff(y: System): System {
    if y.requests == [] then y.(attached := false)
    else y.(attached := false, requests := [], late := y.late + [y.requests[0]])
  }

  function Without(rs: seq<Request>, k: nat): seq<Request>
    requires k < |rs|
  {
    rs[..k] + rs[k + 1..]
  }

  function StepLate(y: System, k: nat): System {
    if k >= |y.late| || y.row.None? then y else Carried(y, y.late[k]).(late := Without(y.late, k))
  }

  function StepConfirm(y: System, works: bool): System {
    if y.process.None? || !y.process.value.linked || y.replies == 0 then y
    else
      var p, y1 := y.process.value, y.(replies := y.replies - 1);
      if !p.rotating || p.identity.pending.None? || !works then Unlink(y1)
      else
        var i := Finished(p.identity);
        y1.(process := Some(p.(identity := i, rotating := false)), saved := Some(i))
  }

  function Step(y: System, a: Action): System {
    match a
    case Launch(owner, password, works) => StepLaunch(y, owner, password, works)
    case Crash => y.(process := None, replies := 0)
    case Hello => StepHello(y)
    case Welcome(id, drawn, works, again) => StepWelcome(y, id, drawn, works, again)
    case Command(drawn, works) =>
      if y.process.Some? && y.process.value.linked then Rotate(y, y.process.value, drawn, works) else y
    case Offline(drawn, works) => StepOffline(y, drawn, works)
    case Execute => StepExecute(y)
    case CutOff => StepCutOff(y)
    case Late(k) => StepLate(y, k)
    case Confirm(works) => StepConfirm(y, works)
    case Drop => Unlink(y)
  }

  function Run(actions: seq<Action>): System {
    if actions == [] then START else Step(Run(Front(actions)), Last(actions))
  }

  /** Drawn secrets and rotation ids never repeat. */
  predicate Fresh(y: System, a: Action) {
    match a
    case Welcome(_, drawn, _, _) => drawn.password !in y.used && drawn.rotation !in y.used
    case Command(drawn, _) => drawn.password !in y.used && drawn.rotation !in y.used
    case Offline(drawn, _) => drawn.password !in y.used && drawn.rotation !in y.used
    case _ => true
  }

  ghost predicate AllFresh(actions: seq<Action>) {
    actions == [] || (AllFresh(Front(actions)) && Fresh(Run(Front(actions)), Last(actions)))
  }

  // ---- The invariant, over every run ----

  /** The place of the change whose password is saved as confirmed. */
  function Confirmed(y: System): int {
    if y.saved.Some? && y.saved.value.pending.Some? then |y.begun| - 1 else |y.begun|
  }

  function PasswordAt(y: System, k: nat): nat
    requires k <= |y.begun|
  {
    if k == 0 then y.initial else y.begun[k - 1].password
  }

  /** Changes begun have passwords and ids of their own. */
  predicate Own(y: System) {
    && (forall i, j :: 0 <= i < j < |y.begun| ==>
          y.begun[i].rotation != y.begun[j].rotation && y.begun[i].password != y.begun[j].password)
    && (forall i :: 0 <= i < |y.begun| ==>
          && y.begun[i].password != y.initial
          && y.begun[i].password in y.used && y.begun[i].rotation in y.used)
  }

  predicate SavedInv(y: System) {
    && (y.saved.None? ==> y.begun == [] && y.row.None? && y.process.None?)
    && (y.saved.Some? ==>
          && y.initial in y.used && Confirmed(y) >= 0
          && (y.saved.value.pending.Some? ==> y.saved.value.pending.value == Last(y.begun))
          && y.saved.value.password == PasswordAt(y, Confirmed(y)))
  }

  predicate RowInv(y: System) {
    && (y.row.None? ==> Confirmed(y) == 0 && y.carried == 0 && y.requests == [] && y.late == [] && y.raised == [])
    && (y.row.Some? ==>
          && y.saved.Some? && y.carried <= |y.begun| && y.row.value.password == PasswordAt(y, y.carried)
          && y.row.value.rotation == if y.carried == 0 then None else Some(y.begun[y.carried - 1].rotation))
  }

  predicate Placed(y: System, r: Request) {
    1 <= r.position <= |y.begun| && r.change == y.begun[r.position - 1]
  }

  /** Requests of one connection come in the order in which their changes were begun, after everything that was
      cut off earlier and after what the row shows. */
  predicate RequestInv(y: System) {
    && (forall i :: 0 <= i < |y.requests| ==> Placed(y, y.requests[i]) && y.carried <= y.requests[i].position)
    && (forall i, j :: 0 <= i < j < |y.requests| ==> y.requests[i].position <= y.requests[j].position)
  }

  predicate LateInv(y: System) {
    && (forall k :: 0 <= k < |y.late| ==> Placed(y, y.late[k]))
    && (forall k, i :: 0 <= k < |y.late| && 0 <= i < |y.requests| ==> y.late[k].position <= y.requests[i].position)
  }

  predicate MemoryInv(y: System) {
    && (y.process.Some? ==>
          && y.saved.Some?
          && y.process.value.identity.(id := y.saved.value.id) == y.saved.value
          && (y.process.value.identity.pending.Some? ==> y.process.value.rotating)
          && (y.process.value.linked ==> y.row.Some?))
    && (y.replies > 0 ==> y.process.Some? && y.process.value.linked)
  }

  /** Every change of the row raised the generation by one, and the row shows the last. */
  predicate CountInv(y: System) {
    && (y.row.Some? ==> y.row.value.generation == 1 + |y.raised|)
    && y.carried == (if y.raised == [] then 0 else Last(y.raised))
    && (forall i :: 0 <= i < |y.raised| ==> 1 <= y.raised[i] <= |y.begun|)
  }

  predicate Inv(y: System) {
    Own(y) && SavedInv(y) && RowInv(y) && RequestInv(y) && LateInv(y) && MemoryInv(y) && CountInv(y)
  }

  lemma JournaledHistory(y: System, i: Identity, drawn: Pending)
    requires Inv(y) && y.process.Some? && i == y.process.value.identity
    requires drawn.password !in y.used && drawn.rotation !in y.used
    ensures var t := Journaled(y, i, drawn); Own(t) && SavedInv(t) && RowInv(t) && CountInv(t)
  {
    hide RequestInv, LateInv;
  }

  lemma JournaledRequests(y: System, i: Identity, drawn: Pending)
    requires RequestInv(y) && LateInv(y)
    ensures var t := Journaled(y, i, drawn); RequestInv(t) && LateInv(t)
  {
    var t := Journaled(y, i, drawn);
    assert forall r :: Placed(y, r) ==> Placed(t, r);
  }

  lemma JournaledInv(y: System, drawn: Pending)
    requires Inv(y) && y.process.Some? && drawn.password !in y.used && drawn.rotation !in y.used
    ensures var p := y.process.value;
            Inv(Journaled(y, p.identity, drawn).(process := Some(Process(Begun(p.identity, drawn), true, p.linked))))
  {
    var p := y.process.value;
    var t := Journaled(y, p.identity, drawn);
    var u := t.(process := Some(Process(Begun(p.identity, drawn), true, p.linked)));
    JournaledHistory(y, p.identity, drawn);
    JournaledRequests(y, p.identity, drawn);
    ProcessOnly(t, u);
    ProcessRequests(t, u);
    ProcessSaved(t, u);
    hide Own, RowInv, CountInv, RequestInv, LateInv, SavedInv;
    assert y.saved.Some?;
  }

  lemma RotateInv(y: System, drawn: Pending, works: bool)
    requires Inv(y) && y.process.Some? && y.process.value.linked
    requires drawn.password !in y.used && drawn.rotation !in y.used
    ensures Inv(Rotate(y, y.process.value, drawn, works))
  {
    var p := y.process.value;
    if p.identity.pending.Some? || works {
      JournaledInv(y, drawn);
      var y1 := Journaled(y, p.identity, drawn).(process := Some(Process(Begun(p.identity, drawn), true, true)));
      SentInv(y1);
    }
  }

  /** Sending the pending change, for the first time or again. */
  lemma SentInv(y: System)
    requires Inv(y) && y.row.Some? && y.saved.value.pending.Some?
    ensures Inv(y.(requests := y.requests + [Request(y.saved.value.pending.value, |y.begun|)]))
  {
    var q := Request(y.saved.value.pending.value, |y.begun|);
    var t := y.(requests := y.requests + [q]);
    assert Placed(y, q) && y.carried <= q.position;
    RequestsOnly(y, t);
    SentLast(y, q);
    hide Own, SavedInv, RowInv, RequestInv, LateInv, MemoryInv, CountInv;
  }

  lemma SentLast(y: System, q: Request)
    requires RequestInv(y) && LateInv(y) && Placed(y, q) && y.carried <= q.position == |y.begun|
    ensures var t := y.(requests := y.requests + [q]); RequestInv(t) && LateInv(t)
  {
    assert forall i :: 0 <= i < |y.requests| ==> Placed(y, y.requests[i]);
  }

  lemma RequestsOnly(y: System, t: System)
    requires Own(y) && SavedInv(y) && RowInv(y) && MemoryInv(y) && CountInv(y) && y.row.Some?
    requires t == y.(requests := t.requests)
    ensures Own(t) && SavedInv(t) && RowInv(t) && MemoryInv(t) && CountInv(t)
  {
  }

  /** The id differs from the row's exactly when the change is another one than the row shows. */
  lemma CarriedRow(y: System, r: Request)
    requires Own(y) && SavedInv(y) && RowInv(y) && CountInv(y) && y.row.Some? && Placed(y, r)
    ensures y.row.value.rotation == Some(r.change.rotation) <==> y.carried == r.position
    ensures var t := Carried(y, r); RowInv(t) && CountInv(t) && t.carried == r.position
  {
  }

  lemma ExecuteInv(y: System)
    requires Inv(y)
    ensures Inv(StepExecute(y))
  {
    if y.requests != [] && y.row.Some? {
      assert Placed(y, y.requests[0]);
      CarriedRow(y, y.requests[0]);
      hide RowInv, CountInv, Carried, Own;
      CarriedFrame(y, y.requests[0]);
      CarriedRest(y, y.requests[0], StepExecute(y));
      var t := StepExecute(y);
      forall i | 0 <= i < |t.requests| ensures Placed(t, t.requests[i]) && t.carried <= t.requests[i].position {
        assert Placed(y, y.requests[i + 1]) && y.requests[0].position <= y.requests[i + 1].position;
      }
    }
  }

  lemma CarriedFrame(y: System, r: Request)
    requires y.row.Some?
    ensures var t := Carried(y, r);
            t == y.(row := t.row, carried := t.carried, raised := t.raised) && t.row.Some?
  {
  }

  lemma CarriedRest(y: System, r: Request, t: System)
    requires y.row.Some? && Own(y)
    requires t == Carried(y, r).(requests := t.requests, late := t.late, replies := t.replies)
    ensures Own(t) && (RowInv(Carried(y, r)) ==> RowInv(t)) && (CountInv(Carried(y, r)) ==> CountInv(t))
  {
  }

  lemma LateStepInv(y: System, k: nat)
    requires Inv(y)
    ensures Inv(StepLate(y, k))
  {
    if k < |y.late| && y.row.Some? {
      assert Placed(y, y.late[k]);
      CarriedRow(y, y.late[k]);
      CarriedFrame(y, y.late[k]);
      CarriedRest(y, y.late[k], StepLate(y, k));
      LateRequests(y, k);
      hide RowInv, CountInv, Carried, Own, RequestInv, LateInv, Without;
    }
  }

  lemma LateRequests(y: System, k: nat)
    requires RequestInv(y) && LateInv(y) && k < |y.late|
    requires y.row.Some? && Carried(y, y.late[k]).carried == y.late[k].position
    ensures RequestInv(StepLate(y, k)) && LateInv(StepLate(y, k))
  {
    CarriedFrame(y, y.late[k]);
    hide Carried;
    var t := StepLate(y, k);
    forall i | 0 <= i < |t.late| ensures t.late[i] == y.late[if i < k then i else i + 1] {}
    forall i | 0 <= i < |t.late| ensures Placed(t, t.late[i]) { assert Placed(y, y.late[if i < k then i else i + 1]); }
    forall i | 0 <= i < |t.requests| ensures Placed(t, t.requests[i]) { assert Placed(y, y.requests[i]); }
  }

  lemma CutOffRequests(y: System)
    requires RequestInv(y) && LateInv(y)
    ensures RequestInv(StepCutOff(y)) && LateInv(StepCutOff(y))
  {
    if y.requests != [] {
      assert Placed(y, y.requests[0]);
      assert forall k :: 0 <= k < |y.late| ==> Placed(y, y.late[k]);
    }
  }

  lemma CutOffInv(y: System)
    requires Inv(y)
    ensures Inv(StepCutOff(y))
  {
    CutOffRequests(y);
    CutOffRest(y);
    hide Own, SavedInv, RowInv, RequestInv, LateInv, MemoryInv, CountInv;
  }

  lemma CutOffRest(y: System)
    requires Own(y) && SavedInv(y) && RowInv(y) && MemoryInv(y) && CountInv(y)
    ensures var t := StepCutOff(y); Own(t) && SavedInv(t) && RowInv(t) && MemoryInv(t) && CountInv(t)
  {
  }

  /** Predicates about the registry and the vault do not depend on the process. */
  lemma ProcessOnly(y: System, t: System)
    requires Own(y) && RowInv(y) && CountInv(y) && t == y.(process := t.process, replies := t.replies)
    ensures Own(t) && RowInv(t) && CountInv(t)
  {
  }

  lemma ProcessRequests(y: System, t: System)
    requires RequestInv(y) && LateInv(y) && t == y.(process := t.process, replies := t.replies)
    ensures RequestInv(t) && LateInv(t)
  {
    assert forall r :: Placed(t, r) == Placed(y, r);
  }

  lemma ProcessSaved(y: System, t: System)
    requires SavedInv(y) && t == y.(process := t.process, replies := t.replies)
    requires t.process.Some? ==> y.process.Some?
    ensures SavedInv(t)
  {
  }

  lemma DropInv(y: System)
    requires Inv(y)
    ensures Inv(Unlink(y)) && Inv(y.(process := None, replies := 0))
  {
    var t, u := Unlink(y), y.(process := None, replies := 0);
    ProcessOnly(y, t);
    ProcessOnly(y, u);
    ProcessRequests(y, t);
    ProcessRequests(y, u);
    ProcessSaved(y, t);
    ProcessSaved(y, u);
    hide Own, RowInv, CountInv, RequestInv, LateInv, SavedInv;
  }

  lemma LaunchInv(y: System, owner: nat, password: nat, works: bool)
    requires Inv(y)
    ensures Inv(StepLaunch(y, owner, password, works))
  {
  }

  /** The reply's id is saved and the connection is up. */
  function Welcomed(y: System, id: nat): System
    requires y.process.Some?
  {
    var p := y.process.value.(identity := y.process.value.identity.(id := Some(id)), linked := true);
    y.(process := Some(p), saved := Some(p.identity))
  }

  lemma WelcomedInv(y: System, id: nat)
    requires Inv(y) && y.process.Some? && y.row.Some?
    ensures Inv(Welcomed(y, id))
  {
    var t := Welcomed(y, id);
    WelcomedRequests(y, id);
    assert MemoryInv(t) && SavedInv(t);
    hide RequestInv, LateInv;
  }

  lemma WelcomedRequests(y: System, id: nat)
    requires y.process.Some? && RequestInv(y) && LateInv(y)
    ensures RequestInv(Welcomed(y, id)) && LateInv(Welcomed(y, id))
  {
    assert forall r :: Placed(y, r) == Placed(Welcomed(y, id), r);
  }

  lemma WelcomeInv(y: System, id: nat, drawn: Pending, works: bool, again: bool)
    requires Inv(y) && Fresh(y, Welcome(id, drawn, works, again))
    ensures Inv(StepWelcome(y, id, drawn, works, again))
  {
    if y.process.Some? && !y.process.value.linked && y.row.Some? && y.requests == [] {
      WelcomedInv(y, id);
      if works {
        if y.process.value.rotating { RotateInv(Welcomed(y, id), drawn, again); }
      } else {
        UnsavedInv(y, id);
      }
    }
    hide Own, SavedInv, RowInv, RequestInv, LateInv, MemoryInv, CountInv, Rotate;
  }

  lemma UnsavedInv(y: System, id: nat)
    requires Inv(y) && y.process.Some?
    ensures Inv(y.(process := Some(y.process.value.(identity := y.process.value.identity.(id := Some(id))))))
  {
    var t := y.(process := Some(y.process.value.(identity := y.process.value.identity.(id := Some(id)))));
    ProcessOnly(y, t);
    ProcessRequests(y, t);
    ProcessSaved(y, t);
    hide Own, RowInv, CountInv, RequestInv, LateInv, SavedInv;
  }

  lemma OfflineInv(y: System, drawn: Pending, works: bool)
    requires Inv(y) && Fresh(y, Offline(drawn, works))
    ensures Inv(StepOffline(y, drawn, works))
  {
    if y.process.Some? && works { JournaledInv(y, drawn); }
    if y.process.Some? { MarkedInv(y); }
    hide Own, SavedInv, RowInv, RequestInv, LateInv, CountInv;
  }

  /** Marking a change under way, or ending the program, changes nothing else. */
  lemma MarkedInv(y: System)
    requires Inv(y) && y.process.Some?
    ensures Inv(y.(process := Some(y.process.value.(rotating := true))))
    ensures !y.process.value.linked ==> Inv(y.(process := None))
  {
    var t := y.(process := Some(y.process.value.(rotating := true)));
    var u := y.(process := None);
    ProcessOnly(y, t);
    ProcessOnly(y, u);
    ProcessRequests(y, t);
    ProcessRequests(y, u);
    ProcessSaved(y, t);
    ProcessSaved(y, u);
    hide Own, SavedInv, RowInv, RequestInv, LateInv, CountInv;
  }

  lemma ConfirmInv(y: System, works: bool)
    requires Inv(y)
    ensures Inv(StepConfirm(y, works))
  {
  }

  lemma HelloInv(y: System)
    requires Inv(y)
    ensures Inv(StepHello(y))
  {
  }

  lemma StepInv(y: System, a: Action)
    requires Inv(y) && Fresh(y, a)
    ensures Inv(Step(y, a))
  {
    hide Inv, Rotate, StepLaunch, StepHello, StepWelcome, StepOffline, StepExecute, StepCutOff, StepLate, StepConfirm,
         Unlink;
    match a
    case Launch(owner, password, works) => LaunchInv(y, owner, password, works);
    case Crash => DropInv(y);
    case Hello => HelloInv(y);
    case Welcome(id, drawn, works, again) => WelcomeInv(y, id, drawn, works, again);
    case Command(drawn, works) => if y.process.Some? && y.process.value.linked { RotateInv(y, drawn, works); }
    case Offline(drawn, works) => OfflineInv(y, drawn, works);
    case Execute => ExecuteInv(y);
    case CutOff => CutOffInv(y);
    case Late(k) => LateStepInv(y, k);
    case Confirm(works) => ConfirmInv(y, works);
    case Drop => DropInv(y);
  }

  lemma {:induction false} Always(actions: seq<Action>)
    requires AllFresh(actions)
    ensures Inv(Run(actions))
  {
    if actions != [] {
      Always(Front(actions));
      StepInv(Run(Front(actions)), Last(actions));
    }
  }

  // ---- The password ----

  /** The registry's password is the saved one or the pending one, and the saved one when nothing is pending. */
  predicate Consistent(y: System) {
    y.row.Some? ==>
      && y.saved.Some?
      && (|| y.row.value.password == y.saved.value.password
          || (y.saved.value.pending.Some? && y.row.value.password == y.saved.value.pending.value.password))
  }

  /** A confirmation is taken for the pending change while the registry shows another id than that change's. */
  predicate Premature(y: System, a: Action) {
    && a == Confirm(true) && y.process.Some? && y.process.value.linked && y.replies > 0
    && y.process.value.rotating && y.process.value.identity.pending.Some?
    && y.row.Some? && y.row.value.rotation != Some(y.process.value.identity.pending.value.rotation)
  }

  /** A request cut off earlier is carried out although the registry shows another id and the target has by now
      saved another password and begun no such change. */
  predicate Superseded(y: System, a: Action) {
    && a.Late? && a.k < |y.late| && y.row.Some? && y.row.value.rotation != Some(y.late[a.k].change.rotation)
    && y.saved.Some? && y.saved.value.password != y.late[a.k].change.password
    && y.saved.value.pending != Some(y.late[a.k].change)
  }

  predicate Loses(y: System, a: Action) { Premature(y, a) || Superseded(y, a) }

  /** The registry is never ahead of the changes begun, and consistent exactly while it is not behind the one
      saved as confirmed. */
  lemma ConsistentExactly(y: System)
    requires Inv(y) && y.row.Some?
    ensures Consistent(y) <==> Confirmed(y) <= y.carried
  {
  }

  lemma CarriedStep(y: System, a: Action)
    requires Inv(y) && y.row.Some?
    ensures Step(y, a).row.Some? && (!a.Late? ==> y.carried <= Step(y, a).carried)
  {
    if a.Execute? && y.requests != [] {
      assert Placed(y, y.requests[0]);
      CarriedRow(y, y.requests[0]);
    }
    hide Own, RowInv, CountInv, SavedInv, LateInv, MemoryInv;
  }

  lemma ConfirmedStep(y: System, a: Action)
    requires Inv(y) && y.row.Some? && a != Confirm(true)
    ensures Confirmed(Step(y, a)) <= Confirmed(y)
  {
    hide Own, RowInv, CountInv, RequestInv, LateInv;
  }

  /** In a late request's terms: it is superseded exactly when it is older than the change saved as confirmed. */
  lemma SupersededExactly(y: System, k: nat)
    requires Inv(y) && Consistent(y) && k < |y.late| && y.row.Some?
    ensures Superseded(y, Late(k)) <==> y.late[k].position < Confirmed(y)
    ensures StepLate(y, k).carried == y.late[k].position && Confirmed(StepLate(y, k)) == Confirmed(y)
  {
    ConsistentExactly(y);
    assert Placed(y, y.late[k]);
    CarriedRow(y, y.late[k]);
  }

  lemma RegisteredConsistent(y: System, a: Action)
    requires Inv(y) && Fresh(y, a) && y.row.None?
    ensures Consistent(Step(y, a)) && !Loses(y, a)
  {
    hide Rotate;
  }

  /** Only these two steps lose the password, and they always do. */
  lemma ConsistentStep(y: System, a: Action)
    requires Inv(y) && Fresh(y, a) && Consistent(y)
    ensures Consistent(Step(y, a)) <==> !Loses(y, a)
  {
    hide Step, Consistent, Fresh, Own, SavedInv, RowInv, RequestInv, LateInv, MemoryInv, CountInv, Confirmed;
    if y.row.None? {
      RegisteredConsistent(y, a);
    } else {
      StepInv(y, a);
      ConsistentExactly(y);
      CarriedStep(y, a);
      ConsistentExactly(Step(y, a));
      if a != Confirm(true) { ConfirmedStep(y, a); }
      if a == Confirm(true) {
        ConfirmStep(y);
        assert Step(y, a) == StepConfirm(y, true) by { StepOfConfirm(y); }
      } else if a.Late? {
        StepOfLate(y, a.k);
        if a.k < |y.late| { SupersededExactly(y, a.k); }
      }
    }
  }

  lemma StepOfConfirm(y: System)
    ensures Step(y, Confirm(true)) == StepConfirm(y, true)
  {
  }

  lemma StepOfLate(y: System, k: nat)
    ensures Step(y, Late(k)) == StepLate(y, k) && (k >= |y.late| ==> StepLate(y, k) == y)
  {
  }

  lemma ConfirmStep(y: System)
    requires Inv(y) && y.row.Some? && Confirmed(y) <= y.carried
    ensures Confirmed(StepConfirm(y, true)) <= y.carried <==> !Premature(y, Confirm(true))
    ensures StepConfirm(y, true).carried == y.carried
  {
  }

  ghost predicate AlwaysConsistent(actions: seq<Action>) {
    actions == [] || (AlwaysConsistent(Front(actions)) && Consistent(Run(actions)))
  }

  ghost predicate NeverLoses(actions: seq<Action>) {
    actions == [] || (NeverLoses(Front(actions)) && !Loses(Run(Front(actions)), Last(actions)))
  }

  /** Over every run of disconnects, lost replies, requests cut off and carried out late, failed saves, crashes and
      commands at any time: the registry's password was at every moment the saved or the pending one, and the saved
      one whenever nothing was pending, if and only if no confirmation was taken while the registry showed another
      change, and no superseded request was carried out late. */
  lemma {:induction false} PasswordNeverLost(actions: seq<Action>)
    requires AllFresh(actions)
    ensures AlwaysConsistent(actions) <==> NeverLoses(actions)
    ensures AlwaysConsistent(actions) ==> Consistent(Run(actions))
  {
    if actions != [] {
      var before := Front(actions);
      PasswordNeverLost(before);
      Always(before);
      if AlwaysConsistent(before) { ConsistentStep(Run(before), Last(actions)); }
    }
  }

  // ---- When neither happens ----

  /** A new change is not begun on a connection that still has a request or a confirmation of an earlier one
      outstanding. (Repeating the command for a change under way is fine.) */
  predicate Settled(y: System, a: Action) {
    (a.Command? && y.process.Some? && y.process.value.linked && y.process.value.identity.pending.None?)
    ==> y.requests == [] && y.replies == 0
  }

  ghost predicate AllSettled(actions: seq<Action>) {
    actions == [] || (AllSettled(Front(actions)) && Settled(Run(Front(actions)), Last(actions)))
  }

  /** A late request takes the registry back to an older change than the one it shows. */
  predicate Reverts(y: System, a: Action) {
    a.Late? && a.k < |y.late| && y.row.Some? && y.late[a.k].position < y.carried
  }

  ghost predicate NeverReverts(actions: seq<Action>) {
    actions == [] || (NeverReverts(Front(actions)) && !Reverts(Run(Front(actions)), Last(actions)))
  }

  /** What is outstanding on a live connection belongs to the pending change, and the registry has the saved one. */
  predicate OutstandingInv(y: System) {
    && (y.row.Some? ==> Confirmed(y) <= y.carried)
    && (y.process.Some? && y.process.value.linked && y.saved.Some? && y.saved.value.pending.Some? ==>
          && (y.replies > 0 ==> y.carried == |y.begun|)
          && (forall i :: 0 <= i < |y.requests| ==> y.requests[i].position == |y.begun|))
  }

  lemma OutstandingRotate(y: System, drawn: Pending, works: bool)
    requires Inv(y) && OutstandingInv(y) && y.process.Some? && y.process.value.linked
    requires y.process.value.identity.pending.None? ==> y.requests == [] && y.replies == 0
    ensures OutstandingInv(Rotate(y, y.process.value, drawn, works))
  {
  }

  lemma OutstandingWelcome(y: System, id: nat, drawn: Pending, works: bool, again: bool)
    requires Inv(y) && OutstandingInv(y)
    ensures OutstandingInv(StepWelcome(y, id, drawn, works, again))
  {
    hide Rotate;
    if y.process.Some? && !y.process.value.linked && y.row.Some? && y.requests == [] && works {
      var p := y.process.value.(identity := y.process.value.identity.(id := Some(id)), linked := true);
      var y1 := y.(process := Some(p), saved := Some(p.identity));
      assert Inv(y1) && OutstandingInv(y1);
      OutstandingRotate(y1, drawn, again);
    }
  }

  lemma OutstandingCarried(y: System, r: Request)
    requires Inv(y) && OutstandingInv(y) && y.row.Some? && Placed(y, r) && y.carried <= r.position
    ensures OutstandingInv(Carried(y, r)) && Carried(y, r).carried == r.position
  {
    CarriedRow(y, r);
  }

  lemma OutstandingExecute(y: System)
    requires Inv(y) && OutstandingInv(y)
    ensures OutstandingInv(StepExecute(y))
  {
    if y.requests != [] && y.row.Some? {
      assert Placed(y, y.requests[0]);
      OutstandingCarried(y, y.requests[0]);
      CarriedFrame(y, y.requests[0]);
      hide Inv, Carried;
    }
  }

  lemma OutstandingLate(y: System, k: nat)
    requires Inv(y) && OutstandingInv(y) && !Reverts(y, Late(k))
    ensures OutstandingInv(StepLate(y, k))
  {
    if k < |y.late| && y.row.Some? {
      assert Placed(y, y.late[k]);
      OutstandingCarried(y, y.late[k]);
      CarriedFrame(y, y.late[k]);
      hide Inv, Carried;
    }
  }

  lemma LateKeeps(y: System, k: nat)
    requires Inv(y) && OutstandingInv(y) && !Reverts(y, Late(k))
    ensures OutstandingInv(StepLate(y, k)) && !Superseded(y, Late(k))
  {
    OutstandingLate(y, k);
    if k < |y.late| && y.row.Some? {
      ConsistentExactly(y);
      SupersededExactly(y, k);
    }
    hide Own, SavedInv, RowInv, RequestInv, LateInv, MemoryInv, CountInv, StepLate;
  }

  lemma OutstandingConfirm(y: System, works: bool)
    requires Inv(y) && OutstandingInv(y)
    ensures OutstandingInv(StepConfirm(y, works)) && !Premature(y, Confirm(works))
  {
  }

  lemma OutstandingOffline(y: System, drawn: Pending, works: bool)
    requires Inv(y) && OutstandingInv(y)
    ensures OutstandingInv(StepOffline(y, drawn, works))
  {
  }

  lemma OutstandingPlain(y: System, a: Action)
    requires Inv(y) && OutstandingInv(y)
    requires a.Launch? || a.Crash? || a.Hello? || a.CutOff? || a.Drop?
    ensures OutstandingInv(Step(y, a))
  {
  }

  lemma OutstandingStep(y: System, a: Action)
    requires Inv(y) && Fresh(y, a) && Settled(y, a) && !Reverts(y, a) && OutstandingInv(y)
    ensures OutstandingInv(Step(y, a)) && !Loses(y, a)
  {
    hide Inv, OutstandingInv, Rotate, StepLaunch, StepHello, StepWelcome, StepOffline, StepExecute, StepCutOff,
         StepLate, StepConfirm;
    match a
    case Command(drawn, works) =>
      if y.process.Some? && y.process.value.linked { OutstandingRotate(y, drawn, works); }
    case Welcome(id, drawn, works, again) => OutstandingWelcome(y, id, drawn, works, again);
    case Execute => OutstandingExecute(y);
    case Late(k) => LateKeeps(y, k);
    case Confirm(works) => OutstandingConfirm(y, works);
    case Offline(drawn, works) => OutstandingOffline(y, drawn, works);
    case _ => OutstandingPlain(y, a);
  }

  lemma {:induction false} OutstandingAlways(actions: seq<Action>)
    requires AllFresh(actions) && AllSettled(actions) && NeverReverts(actions)
    ensures OutstandingInv(Run(actions)) && NeverLoses(actions)
  {
    if actions != [] {
      OutstandingAlways(Front(actions));
      Always(Front(actions));
      OutstandingStep(Run(Front(actions)), Last(actions));
    }
  }

  /** Beginning changes only with nothing of an earlier one outstanding is enough, as long as no request carried
      out late takes the registry back. */
  lemma {:induction false} SettledKeepsPassword(actions: seq<Action>)
    requires AllFresh(actions) && AllSettled(actions) && NeverReverts(actions)
    ensures AlwaysConsistent(actions)
  {
    OutstandingAlways(actions);
    PasswordNeverLost(actions);
  }

  function NextConfirmation(y: System): System {
    Step(if y.replies == 0 then Step(y, Execute) else y, Confirm(true))
  }

  lemma SettledSuffices(y: System, drawn: Pending)
    requires Inv(y) && y.process.Some? && y.process.value.linked && y.process.value.identity.pending.None?
    requires Fresh(y, Command(drawn, true)) && y.requests == [] && y.replies == 0
    ensures y.attached ==> Consistent(NextConfirmation(Step(y, Command(drawn, true))))
  {
  }

  /** The first confirmation to arrive ends the new change, whatever it was sent for. */
  lemma ConfirmedNow(y: System, drawn: Pending)
    requires y.process.Some? && y.process.value.linked && y.replies > 0 && y.process.value.rotating
    requires y.process.value.identity.pending == Some(drawn) && y.row.Some? && y.row.value.password != drawn.password
    ensures !Consistent(Step(y, Confirm(true)))
  {
  }

  lemma CommandShape(y: System, drawn: Pending)
    requires y.process.Some? && y.process.value.linked && y.process.value.identity.pending.None?
    ensures var t := Step(y, Command(drawn, true));
            && t.process.Some? && t.process.value.linked && t.process.value.rotating
            && t.process.value.identity.pending == Some(drawn) && t.row == y.row && t.replies == y.replies
            && y.requests <= t.requests
  {
  }

  lemma ExecuteShape(y: System)
    requires y.process.Some? && y.process.value.linked && y.row.Some? && y.requests != []
    ensures var t := Step(y, Execute);
            && t.process == y.process && t.replies == y.replies + 1 && t.row.Some?
            && (t.row.value.password == y.row.value.password || t.row.value.password == y.requests[0].change.password)
  {
  }

  lemma UnsettledBreaks(y: System, drawn: Pending)
    requires Inv(y) && y.process.Some? && y.process.value.linked && y.process.value.identity.pending.None?
    requires Fresh(y, Command(drawn, true)) && (y.requests != [] || y.replies > 0)
    ensures !Consistent(NextConfirmation(Step(y, Command(drawn, true))))
  {
    UsedPasswords(y);
    hide Inv, Step, Consistent;
    CommandShape(y, drawn);
    var t := Step(y, Command(drawn, true));
    if y.replies == 0 {
      assert t.requests[0] == y.requests[0];
      ExecuteShape(t);
      ConfirmedNow(Step(t, Execute), drawn);
    } else {
      ConfirmedNow(t, drawn);
    }
  }

  lemma UsedPasswords(y: System)
    requires Inv(y) && y.process.Some? && y.process.value.linked
    ensures y.row.Some? && y.row.value.password in y.used
    ensures y.requests != [] ==> y.requests[0].change.password in y.used
  {
    if y.requests != [] { assert Placed(y, y.requests[0]); }
  }

  /** And in every run it is needed at each single command on a connection the relay still serves: begin a new
      change and let the next confirmation arrive (the relay sending one first if none is on its way). The
      credentials then agree exactly when nothing of an earlier change was outstanding. */
  lemma {:induction false} SettledIsExact(actions: seq<Action>, drawn: Pending)
    requires AllFresh(actions)
    requires var y := Run(actions);
             y.attached && y.process.Some? && y.process.value.linked && y.process.value.identity.pending.None?
    requires Fresh(Run(actions), Command(drawn, true))
    ensures var y := Run(actions);
            Consistent(NextConfirmation(Step(y, Command(drawn, true)))) <==> y.requests == [] && y.replies == 0
  {
    Always(actions);
    var y := Run(actions);
    if y.requests == [] && y.replies == 0 { SettledSuffices(y, drawn); } else { UnsettledBreaks(y, drawn); }
  }

  // ---- The generation ----

  /** The request an action carries out. */
  function Job(y: System, a: Action): Option<Request> {
    if a.Execute? && y.requests != [] && y.row.Some? then Some(y.requests[0])
    else if a.Late? && a.k < |y.late| && y.row.Some? then Some(y.late[a.k])
    else None
  }

  /** A request is carried out again after its change raised the generation, another one being the latest now. */
  predicate Again(y: System, a: Action) {
    && Job(y, a).Some? && y.row.value.rotation != Some(Job(y, a).value.change.rotation)
    && Job(y, a).value.position in y.raised
  }

  ghost predicate NeverAgain(actions: seq<Action>) {
    actions == [] || (NeverAgain(Front(actions)) && !Again(Run(Front(actions)), Last(actions)))
  }

  lemma JobPlaced(y: System, a: Action)
    requires Inv(y) && Job(y, a).Some?
    ensures Placed(y, Job(y, a).value)
  {
  }

  /** In every run: carrying out a request raises the generation exactly when the latest id carried out is another
      one; nothing else changes the generation once there is one. */
  lemma {:induction false} RaisesExactly(actions: seq<Action>, a: Action)
    requires AllFresh(actions) && Run(actions).row.Some?
    ensures var y, y' := Run(actions), Step(Run(actions), a);
            && y'.row.Some?
            && y'.raised == (if Job(y, a).Some? && (y.raised == [] || Last(y.raised) != Job(y, a).value.position)
                             then y.raised + [Job(y, a).value.position] else y.raised)
            && y'.row.value.generation == y.row.value.generation + |y'.raised| - |y.raised|
  {
    Always(actions);
    if Job(Run(actions), a).Some? {
      JobPlaced(Run(actions), a);
      CarriedRow(Run(actions), Job(Run(actions), a).value);
      hide Inv;
    } else {
      NoJob(Run(actions), a);
    }
  }

  lemma NoJob(y: System, a: Action)
    requires Job(y, a).None? && y.row.Some?
    ensures Step(y, a).row == y.row && Step(y, a).raised == y.raised && Step(y, a).carried == y.carried
  {
  }

  lemma DistinctSnoc(xs: seq<nat>, x: nat)
    ensures Distinct(xs + [x]) <==> Distinct(xs) && x !in xs
  {
    if x in xs {
      var i :| 0 <= i < |xs| && xs[i] == x;
      assert (xs + [x])[i] == (xs + [x])[|xs|];
    }
    if Distinct(xs + [x]) {
      forall i, j | 0 <= i < j < |xs| ensures xs[i] != xs[j] {
        assert (xs + [x])[i] == xs[i] && (xs + [x])[j] == xs[j];
      }
    }
  }

  lemma RaisedStep(y: System, a: Action)
    requires Inv(y) && y.row.Some?
    ensures Distinct(Step(y, a).raised) <==> Distinct(y.raised) && !Again(y, a)
  {
    if Job(y, a).Some? {
      var r := Job(y, a).value;
      JobPlaced(y, a);
      CarriedRow(y, r);
      DistinctSnoc(y.raised, r.position);
      hide Inv, Distinct;
    } else {
      NoJob(y, a);
    }
  }

  lemma Unregistered(y: System, a: Action)
    requires Inv(y) && y.row.None?
    ensures Step(y, a).raised == [] && Job(y, a).None?
  {
    hide Rotate;
  }

  /** In every run the generation counts the changes that raised it, and these are different ones (each rotation id
      raised it exactly once, however often it was resent) if and only if no request was carried out again when
      another change had been carried out in between. */
  lemma {:induction false} GenerationCountsRotations(actions: seq<Action>)
    requires AllFresh(actions)
    ensures var y := Run(actions);
            && (y.row.Some? ==> y.row.value.generation == 1 + |y.raised|)
            && (Distinct(y.raised) <==> NeverAgain(actions))
  {
    Always(actions);
    if actions != [] {
      var y, a := Run(Front(actions)), Last(actions);
      GenerationCountsRotations(Front(actions));
      Always(Front(actions));
      if y.row.Some? { RaisedStep(y, a); } else { Unregistered(y, a); }
    }
  }

  predicate Climbing(xs: seq<nat>) {
    forall i, j :: 0 <= i < j < |xs| ==> xs[i] < xs[j]
  }

  lemma ClimbingSnoc(xs: seq<nat>, x: nat)
    requires Climbing(xs) && (xs != [] ==> Last(xs) < x)
    ensures Climbing(xs + [x]) && x !in xs
  {
    assert forall i :: 0 <= i < |xs| ==> xs[i] <= Last(xs);
  }

  lemma JobForward(y: System, a: Action)
    requires Inv(y) && !Reverts(y, a) && Job(y, a).Some?
    ensures y.carried <= Job(y, a).value.position
    ensures y.row.value.rotation == Some(Job(y, a).value.change.rotation) <==> y.carried == Job(y, a).value.position
    ensures y.carried == (if y.raised == [] then 0 else Last(y.raised)) && 1 <= Job(y, a).value.position
    ensures Step(y, a).raised == Carried(y, Job(y, a).value).raised
  {
    JobPlaced(y, a);
    CarriedRow(y, Job(y, a).value);
  }

  lemma ClimbingStep(y: System, a: Action)
    requires Inv(y) && Climbing(y.raised) && !Reverts(y, a)
    ensures Climbing(Step(y, a).raised) && !Again(y, a)
  {
    if y.row.None? {
      Unregistered(y, a);
    } else if Job(y, a).None? {
      NoJob(y, a);
    } else {
      JobForward(y, a);
      hide Inv, Step, Climbing, Job;
      if y.carried != Job(y, a).value.position { ClimbingSnoc(y.raised, Job(y, a).value.position); }
    }
  }

  lemma {:induction false} ClimbingAlways(actions: seq<Action>)
    requires AllFresh(actions) && NeverReverts(actions)
    ensures Climbing(Run(actions).raised) && NeverAgain(actions)
  {
    if actions != [] {
      ClimbingAlways(Front(actions));
      Always(Front(actions));
      ClimbingStep(Run(Front(actions)), Last(actions));
    }
  }

  /** As long as no request carried out late takes the registry back, a request changes the row exactly when its
      change has never been carried out, so each rotation id raises the generation once. */
  lemma {:induction false} ExecuteOnce(actions: seq<Action>, a: Action)
    requires AllFresh(actions) && NeverReverts(actions) && !Reverts(Run(actions), a) && Job(Run(actions), a).Some?
    ensures var y := Run(actions);
            var r, y' := Job(y, a).value, Step(y, a);
            && y'.row.Some? && r.position in y'.raised && Distinct(y'.raised)
            && y'.row.value.generation == y.row.value.generation + (if r.position in y.raised then 0 else 1)
  {
    var y := Run(actions);
    Always(actions);
    ClimbingAlways(actions);
    GenerationCountsRotations(actions);
    RaisedStep(y, a);
    ClimbingStep(y, a);
    JobPlaced(y, a);
    CarriedRow(y, Job(y, a).value);
    hide Inv, Climbing, Distinct;
  }
}
