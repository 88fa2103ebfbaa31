/** Runs of the hand-off: any thread may ask, the hook thread applies, fails, recovers and finally leaves. */
module HandOffSystem {
  import opened Sequences
  import opened HandOff

  datatype Action =
    | Begin                                   // the hook thread starts
    | Request(active: bool, posts: bool)      // set_active, from any thread
    | Apply(outcome: Outcome)                 // the posted message is taken
    | CallbackFails                           // a hook callback catches an exception: pause, then stop
    | Recover(posts: bool)                    // the pause requested after a failure
    | Leave(works: bool)                      // one step of leaving the message loop
    | Wander(to: Position)                    // the user moves the mouse while it is not captured

  function LeaveStep(s: State, works: bool): State {
    if s.hook.Idle? then s.(hook := LeavingActive)
    else if s.hook.LeavingActive? then s.(active := false, hook := LeavingRequest)
    else if s.hook.LeavingRequest? then s.(requested := false, stranded := false, hook := LeavingCursor)
    else if s.hook.LeavingCursor? then Restored(s, works).(hook := Gone)
    else s
  }

  function Step(s: State, a: Action): State {
    match a
    case Begin => if s.hook.Off? then s.(hook := Idle) else s
    case Request(active, posts) => Asked(s, active, posts)
    case Apply(o) => if s.hook.Idle? && s.mail > 0 then Applied(s, o) else s
    case CallbackFails => if s.hook.Idle? then s.(active := false, hook := Owing) else s
    case Recover(posts) => if s.hook.Owing? then Asked(s, false, posts).(hook := Idle) else s
    case Leave(works) => LeaveStep(s, works)
    case Wander(to) => if s.active then s else s.(desk := Nudged(s.desk, to))
  }

  function Run(start: Position, actions: seq<Action>): State {
    if actions == [] then Initial(start) else Step(Run(start, Front(actions)), Last(actions))
  }

  /** Nothing left to do: no message waiting, the hook thread idle, the latest post delivered. */
  predicate Quiet(s: State) { s.hook.Idle? && !s.pending && !s.unsent }

  /** The note of a message on its way is right, and there is never more than one. */
  predicate MailInv(s: State) { s.mail == if s.pending then 1 else 0 }

  predicate RequestInv(s: State) {
    && (s.active ==> s.requested)
    && (s.active ==> Reachable(s.hook) && !s.hook.LeavingRequest? && !s.hook.LeavingCursor?)
    && (s.stranded ==> s.requested && !s.active && (Reachable(s.hook) ==> !s.pending))
    && (s.hook.Off? ==> !s.pending && !s.unsent && s.requested == s.stranded)
    && MailInv(s)
    && (Quiet(s) ==> (s.active == s.requested <==> !s.stranded))
  }

  /** A recorded position is where the user had the cursor exactly if the record is not tainted; with none
      recorded, the cursor stands where the program put it exactly if the latest restore went amiss and the user
      has not moved it since. */
  predicate Homed(d: Desktop) {
    && (d.origin.Some? <==> d.anchor.Some?)
    && (d.origin.Some? ==> (d.origin == Some(d.home) <==> !d.tainted))
    && (d.origin.None? ==> !d.tainted && (d.placed <==> d.amiss && !d.moved))
  }

  predicate CursorInv(s: State) {
    && Homed(s.desk)
    && (s.active ==> s.desk.origin.Some?)
    && (Quiet(s) && !s.active ==> s.desk.origin.None?)
    && (s.hook.Off? || s.hook.Gone? ==> s.desk.origin.None?)
  }

  predicate Inv(s: State) { RequestInv(s) && CursorInv(s) }

  /** What a native call leaves of an inactive policy's request: it is unchanged, or replaced by one that is on
      its way or that failed and left no request. */
  predicate Nested(s: State, t: State) {
    && t.hook == s.hook && !t.active
    && s.version <= t.version
    && (MailInv(s) ==> MailInv(t))
    && (t.version == s.version ==>
          t.requested == s.requested && t.pending == s.pending && t.unsent == s.unsent && t.stranded == s.stranded)
    && (s.version < t.version ==> (t.pending || (t.unsent && !t.requested)) && !t.stranded)
  }

  lemma NestedAsk(s: State, active: bool, posts: bool)
    requires Reachable(s.hook) && !s.active
    ensures Nested(s, Asked(s, active, posts))
  {
  }

  /** A request leaves the cursor and what is known of it alone. */
  lemma AskedDesk(s: State, active: bool, posts: bool)
    ensures Asked(s, active, posts).desk == s.desk && Asked(s, active, posts).hook == s.hook
  {
  }

  lemma NestedReentry(s: State, e: Reentry)
    requires Reachable(s.hook) && !s.active
    ensures Nested(s, Reentered(s, e))
  {
    hide Asked;
    if e.Ask? { NestedAsk(s, e.active, e.posts); }
  }

  /** Callbacks leave the record alone and the account of the cursor right. */
  predicate SameRecord(d: Desktop, d': Desktop) {
    && d'.origin == d.origin && d'.home == d.home && d'.tainted == d.tainted && d'.amiss == d.amiss
    && (Homed(d) ==> Homed(d'))
  }

  lemma HomedReentry(s: State, e: Reentry)
    ensures SameRecord(s.desk, Reentered(s, e).desk)
  {
    hide Asked;
    if e.Ask? { AskedDesk(s, e.active, e.posts); }
  }

  lemma {:induction false} NestedReentries(s: State, es: seq<Reentry>)
    requires Reachable(s.hook) && !s.active
    ensures Nested(s, AllReentered(s, es)) && SameRecord(s.desk, AllReentered(s, es).desk)
    decreases |es|
  {
    hide Reentered, Homed;
    if es != [] {
      NestedReentry(s, es[0]);
      HomedReentry(s, es[0]);
      NestedReentries(Reentered(s, es[0]), es[1..]);
    }
  }

  lemma PutBackHomed(d: Desktop, works: bool)
    requires Homed(d)
    ensures Homed(PutBack(d, works)) && PutBack(d, works).origin.None?
  {
  }

  lemma ClearedEffect(s: State, o: Outcome)
    requires Reachable(s.hook) && !s.active && Homed(s.desk)
    ensures var t := Cleared(s, o); Nested(s, t) && t.desk.origin.None? && Homed(t.desk)
  {
    hide AllReentered, Homed, PutBack;
    PutBackHomed(s.desk, o.restores);
    NestedReentries(Restored(s, o.restores), o.duringRestore);
  }

  lemma HeldHomed(d: Desktop, anchor: Position, works: bool)
    requires Homed(d) && d.origin.None?
    ensures Homed(Held(d, anchor, works)) && Held(d, anchor, works).origin.Some?
  {
  }

  lemma AnchoredEffect(s: State, o: Outcome)
    requires Reachable(s.hook) && !s.active && Homed(s.desk) && s.desk.origin.None?
    ensures var t := Anchored(s, o); Nested(s, t) && t.desk.origin.Some? && Homed(t.desk)
  {
    hide AllReentered, Homed, Held;
    HeldHomed(s.desk, o.anchor, o.anchors);
    NestedReentries(s.(desk := Held(s.desk, o.anchor, o.anchors)), o.duringAnchor);
  }

  lemma CompletedEffect(s0: State, s: State, o: Outcome)
    requires s0.hook.Idle? && s0.requested && !s0.stranded && MailInv(s0)
    requires Nested(s0, s) && Homed(s.desk) && s.desk.origin.Some?
    ensures Inv(Completed(s, s0.version, o))
  {
    hide AllReentered, Homed, PutBack;
    NestedReentries(s, o.duringRelease);
    var s1 := AllReentered(s, o.duringRelease);
    if o.releases && !(s1.requested && s1.version == s0.version) {
      PutBackHomed(s1.desk, o.restoresLast);
      NestedReentries(Restored(s1, o.restoresLast), o.duringLast);
    }
  }

  lemma AppliedInv(s: State, o: Outcome)
    requires Inv(s) && s.hook.Idle? && s.mail > 0
    ensures Inv(Applied(s, o))
  {
    hide AllReentered, Completed, Anchored, Cleared;
    var s0 := s.(pending := false, mail := Taken(s.mail));
    if !s.requested {
      ClearedEffect(s0.(active := false), o);
    } else if !s.active && o.permitted {
      ClearedEffect(s0, o);
      var s1 := Cleared(s0, o);
      if o.located {
        AnchoredEffect(s1, o);
        CompletedEffect(s0, Anchored(s1, o), o);
      }
    }
  }

  lemma AskedInv(s: State, active: bool, posts: bool)
    requires Inv(s)
    ensures Inv(Asked(s, active, posts))
  {
    hide Homed;
  }

  lemma LeaveInv(s: State, works: bool)
    requires Inv(s)
    ensures Inv(LeaveStep(s, works))
  {
    hide Inv, Restored;
    if s.hook.Idle? {
      LeavingInv(s);
    } else if s.hook.LeavingActive? {
      PausedInv(s);
    } else if s.hook.LeavingRequest? {
      UnrequestedInv(s);
    } else if s.hook.LeavingCursor? {
      LeftInv(s, works);
    }
  }

  lemma LeavingInv(s: State)
    requires Inv(s) && s.hook.Idle?
    ensures Inv(s.(hook := LeavingActive))
  {
  }

  lemma PausedInv(s: State)
    requires Inv(s) && s.hook.LeavingActive?
    ensures Inv(s.(active := false, hook := LeavingRequest))
  {
  }

  lemma UnrequestedInv(s: State)
    requires Inv(s) && s.hook.LeavingRequest?
    ensures Inv(s.(requested := false, stranded := false, hook := LeavingCursor))
  {
  }

  lemma LeftInv(s: State, works: bool)
    requires Inv(s) && s.hook.LeavingCursor?
    ensures Inv(Restored(s, works).(hook := Gone))
  {
  }

  lemma StepInv(s: State, a: Action)
    requires Inv(s)
    ensures Inv(Step(s, a))
  {
    hide Applied, Asked, LeaveStep;
    match a
    case Begin =>
    case Request(active, posts) => AskedInv(s, active, posts);
    case Apply(o) => if s.hook.Idle? && s.mail > 0 { AppliedInv(s, o); }
    case CallbackFails =>
    case Recover(posts) => if s.hook.Owing? { RecoverInv(s, posts); }
    case Leave(works) => LeaveInv(s, works);
    case Wander(_) =>
  }

  lemma RecoverInv(s: State, posts: bool)
    requires Inv(s) && s.hook.Owing?
    ensures Inv(Asked(s, false, posts).(hook := Idle))
  {
  }

  lemma {:induction false} Always(start: Position, actions: seq<Action>)
    ensures Inv(Run(start, actions))
  {
    if actions != [] {
      Always(start, Front(actions));
      StepInv(Run(start, Front(actions)), Last(actions));
    }
  }

  /** In every reachable state the policy captures only while activation is still requested, so a message
      posted earlier never undoes a later pause. */
  lemma {:induction false} ActiveIsRequested(start: Position, actions: seq<Action>)
    ensures Run(start, actions).active ==> Run(start, actions).requested
  {
    Always(start, actions);
  }

  /** In every run the capture's note is right, whatever posts failed: it is set exactly while one message is on its way,
      and there is never a second. */
  lemma {:induction false} OneMessage(start: Position, actions: seq<Action>)
    ensures var s := Run(start, actions); s.mail <= 1 && (s.pending <==> s.mail == 1)
  {
    Always(start, actions);
  }

  /** Once everything has settled, capture is exactly as requested unless the request itself raised for want of
      a thread. */
  lemma {:induction false} SettledAsRequested(start: Position, actions: seq<Action>)
    requires Quiet(Run(start, actions))
    ensures var s := Run(start, actions); s.active == s.requested <==> !s.stranded
  {
    Always(start, actions);
  }

  /** And if capture is off, no position is left to restore, and the cursor stands where the program put it exactly
      if the latest restore went amiss and the user has not moved it since. */
  lemma {:induction false} SettledCursor(start: Position, actions: seq<Action>)
    requires Quiet(Run(start, actions)) && !Run(start, actions).active
    ensures var s := Run(start, actions); s.desk.origin.None? && (s.desk.placed <==> s.desk.amiss && !s.desk.moved)
  {
    Always(start, actions);
  }

  /** In every run, whenever a position is recorded: it is where the user left the cursor, and restoring it puts the
      cursor there, if and only if the activation that recorded it did not begin with the cursor still placed away
      from there by an earlier capture. */
  lemma {:induction false} RestoresHome(start: Position, actions: seq<Action>)
    requires Run(start, actions).desk.origin.Some?
    ensures var s := Run(start, actions);
            && (s.desk.origin == Some(s.desk.home) <==> !s.desk.tainted)
            && (Restored(s, true).desk.cursor == s.desk.home <==> !s.desk.tainted)
  {
    Always(start, actions);
  }

  /** What an activation records from any reachable state: its position is tainted exactly if the cursor then stands
      away from home since a restore that went amiss, and the user has not moved it. */
  lemma {:induction false} RecordsExactly(start: Position, actions: seq<Action>, anchor: Position)
    requires Run(start, actions).desk.origin.None?
    ensures var d := Run(start, actions).desk;
            var r := Recorded(d, anchor);
            && (r.tainted <==> d.amiss && !d.moved && d.cursor != d.home)
            && (r.origin == Some(r.home) <==> !r.tainted)
  {
    Always(start, actions);
  }

  // ---- What activates ----

  predicate NoAsks(es: seq<Reentry>) { forall i :: 0 <= i < |es| ==> !es[i].Ask? }

  /** Callbacks count every request, and none of them activates. */
  lemma {:induction false} AsksCounted(s: State, es: seq<Reentry>)
    ensures var t := AllReentered(s, es);
            && s.version <= t.version && (t.version == s.version <==> NoAsks(es))
            && (NoAsks(es) ==> t.requested == s.requested && t.active == s.active)
            && (t.active ==> s.active)
    decreases |es|
  {
    if es != [] {
      AsksCounted(Reentered(s, es[0]), es[1..]);
      assert NoAsks(es) <==> !es[0].Ask? && NoAsks(es[1..]) by {
        assert forall i :: 0 < i < |es| ==> es[i] == es[1..][i - 1];
      }
    }
  }

  /** From every state, taking the posted message leaves the policy active exactly if activation is requested and it
      either was active or everything worked and nobody asked for anything while the activation was under way; a
      request that comes meanwhile is left to its own message. */
  lemma ActivatesExactly(s: State, o: Outcome)
    ensures Applied(s, o).active <==>
              && s.requested
              && (s.active || (o.permitted && o.located && o.anchors && o.releases && NoAsks(o.duringRestore)
                               && NoAsks(o.duringAnchor) && NoAsks(o.duringRelease)))
  {
    hide AllReentered, NoAsks, PutBack, Held;
    var s0 := s.(pending := false, mail := Taken(s.mail));
    var s1 := Cleared(s0, o);
    var s2 := Anchored(s1, o);
    var s3 := AllReentered(s2, o.duringRelease);
    AsksCounted(Restored(s0, o.restores), o.duringRestore);
    AsksCounted(Restored(s0.(active := false), o.restores), o.duringRestore);
    AsksCounted(s1.(desk := Held(s1.desk, o.anchor, o.anchors)), o.duringAnchor);
    AsksCounted(s2, o.duringRelease);
    AsksCounted(Restored(s3, o.restoresLast), o.duringLast);
  }

  // ---- Where the cursor ends up ----

  predicate NoSlips(es: seq<Reentry>) { forall i :: 0 <= i < |es| ==> !es[i].Slip? }

  /** The user does not move the mouse during the action. */
  predicate Still(a: Action) {
    && !a.Wander?
    && (a.Apply? ==>
          && NoSlips(a.outcome.duringRestore) && NoSlips(a.outcome.duringAnchor)
          && NoSlips(a.outcome.duringRelease) && NoSlips(a.outcome.duringLast))
  }

  lemma {:induction false} StillDesk(s: State, es: seq<Reentry>)
    requires NoSlips(es)
    ensures AllReentered(s, es).desk == s.desk
    decreases |es|
  {
    hide Asked;
    if es != [] {
      AskedDesk(s, es[0].active, es[0].posts);
      StillDesk(Reentered(s, es[0]), es[1..]);
    }
  }

  predicate AtHome(d: Desktop, home: Position) { d.home == home && (d.placed || d.cursor == home) }

  lemma PutBackAt(d: Desktop, works: bool)
    requires Homed(d) && d.placed
    ensures AtHome(PutBack(d, works), d.home)
  {
  }

  lemma ClearedAtHome(s: State, o: Outcome)
    requires Homed(s.desk) && s.desk.placed && NoSlips(o.duringRestore)
    ensures AtHome(Cleared(s, o).desk, s.desk.home)
  {
    hide AllReentered, PutBack, Homed;
    PutBackAt(s.desk, o.restores);
    StillDesk(Restored(s, o.restores), o.duringRestore);
  }

  lemma AnchoredAtHome(s: State, home: Position, o: Outcome)
    requires AtHome(s.desk, home) && NoSlips(o.duringAnchor)
    ensures AtHome(Anchored(s, o).desk, home) && (o.anchors ==> Anchored(s, o).desk.placed)
  {
    hide AllReentered;
    StillDesk(s.(desk := Held(s.desk, o.anchor, o.anchors)), o.duringAnchor);
  }

  lemma CompletedAtHome(s: State, seen: nat, o: Outcome)
    requires Homed(s.desk) && s.desk.placed && NoSlips(o.duringRelease) && NoSlips(o.duringLast)
    ensures AtHome(Completed(s, seen, o).desk, s.desk.home)
  {
    hide AllReentered, PutBack, Homed;
    StillDesk(s, o.duringRelease);
    var s1 := AllReentered(s, o.duringRelease);
    PutBackAt(s1.desk, o.restoresLast);
    StillDesk(Restored(s1, o.restoresLast), o.duringLast);
  }

  lemma AppliedAtHome(s: State, o: Outcome)
    requires Inv(s) && s.hook.Idle? && s.mail > 0 && s.desk.placed && Still(Apply(o))
    ensures var t := Applied(s, o); t.desk.placed || t.desk.cursor == s.desk.home
  {
    hide AllReentered, Completed, Anchored, Cleared, NoSlips;
    var s0 := s.(pending := false, mail := Taken(s.mail));
    if !s.requested {
      ClearedAtHome(s0.(active := false), o);
    } else if !s.active && o.permitted {
      ClearedAtHome(s0, o);
      ClearedEffect(s0, o);
      var s1 := Cleared(s0, o);
      if o.located {
        AnchoredAtHome(s1, s.desk.home, o);
        AnchoredEffect(s1, o);
        if o.anchors { CompletedAtHome(Anchored(s1, o), s.version, o); }
      }
    }
  }

  /** In every run, whatever step ends the cursor's standing where the program put it, without the user moving it,
      leaves it where the user had it. */
  lemma {:induction false} PutBackAtHome(start: Position, actions: seq<Action>, a: Action)
    requires Still(a) && Run(start, actions).desk.placed && !Step(Run(start, actions), a).desk.placed
    ensures Step(Run(start, actions), a).desk.cursor == Run(start, actions).desk.home
  {
    Always(start, actions);
    PutBackStep(Run(start, actions), a);
  }

  lemma PutBackStep(s: State, a: Action)
    requires Inv(s) && Still(a) && s.desk.placed && !Step(s, a).desk.placed
    ensures Step(s, a).desk.cursor == s.desk.home
  {
    hide Applied, Asked, LeaveStep;
    match a
    case Request(active, posts) => AskedDesk(s, active, posts);
    case Apply(o) => if s.hook.Idle? && s.mail > 0 { AppliedAtHome(s, o); }
    case Recover(posts) => AskedDesk(s, false, posts);
    case Leave(works) => LeaveAtHome(s, works);
    case _ =>
  }

  lemma LeaveAtHome(s: State, works: bool)
    requires Homed(s.desk) && s.desk.placed
    ensures LeaveStep(s, works).desk.placed || LeaveStep(s, works).desk.cursor == s.desk.home
  {
    hide PutBack;
    if s.hook.LeavingCursor? { PutBackAt(s.desk, works); }
  }

  predicate OnlyPauses(es: seq<Reentry>) {
    forall i :: 0 <= i < |es| ==> es[i].Ask? ==> !es[i].active
  }

  /** No request to activate, neither from another thread nor from a callback. */
  predicate OnlyPausesAction(a: Action) {
    && (a.Request? ==> !a.active)
    && (a.Apply? ==>
          && OnlyPauses(a.outcome.duringRestore) && OnlyPauses(a.outcome.duringAnchor)
          && OnlyPauses(a.outcome.duringRelease) && OnlyPauses(a.outcome.duringLast))
  }

  lemma {:induction false} UnrequestedStays(s: State, es: seq<Reentry>)
    requires !s.requested && !s.active && OnlyPauses(es)
    ensures !AllReentered(s, es).requested && !AllReentered(s, es).active
    decreases |es|
  {
    if es != [] {
      UnrequestedStays(Reentered(s, es[0]), es[1..]);
    }
  }

  /** A pause lasts until someone asks to activate again, whatever messages are still on their way. */
  lemma {:induction false} PauseHolds(start: Position, before: seq<Action>, after: seq<Action>)
    requires !Run(start, before).requested
    requires forall i :: 0 <= i < |after| ==> OnlyPausesAction(after[i])
    ensures !Run(start, before + after).active && !Run(start, before + after).requested
    decreases |after|
  {
    hide Step;
    if after == [] {
      assert before + after == before;
      Always(start, before);
    } else {
      PauseHolds(start, before, Front(after));
      assert Front(before + after) == before + Front(after);
      PauseHoldsStep(Run(start, before + Front(after)), Last(after));
    }
  }

  lemma RestoredRequest(s: State, works: bool)
    ensures Restored(s, works).requested == s.requested && Restored(s, works).active == s.active
  {
  }

  lemma PauseHoldsApply(s: State, o: Outcome)
    requires !s.requested && !s.active && OnlyPauses(o.duringRestore)
    ensures !Applied(s, o).requested && !Applied(s, o).active
  {
    hide AllReentered, Restored, Completed, Anchored;
    var s0 := s.(pending := false, mail := Taken(s.mail), active := false);
    RestoredRequest(s0, o.restores);
    UnrequestedStays(Restored(s0, o.restores), o.duringRestore);
  }

  lemma PauseHoldsStep(s: State, a: Action)
    requires !s.requested && !s.active && OnlyPausesAction(a)
    ensures !Step(s, a).requested && !Step(s, a).active
  {
    hide Applied, AllReentered, OnlyPauses, Asked, LeaveStep;
    match a
    case Request(active, posts) => PausedStays(s, posts);
    case Recover(posts) => PausedStays(s, posts);
    case Apply(o) => PauseHoldsApply(s, o);
    case Leave(works) => LeavePaused(s, works);
    case _ =>
  }

  lemma PausedStays(s: State, posts: bool)
    ensures !Asked(s, false, posts).requested && !Asked(s, false, posts).active
  {
  }

  lemma LeavePaused(s: State, works: bool)
    requires !s.requested && !s.active
    ensures !LeaveStep(s, works).requested && !LeaveStep(s, works).active
  {
    hide Restored;
    if s.hook.Idle? {
    } else if s.hook.LeavingActive? {
    } else if s.hook.LeavingRequest? {
    } else {
      RestoredRequest(s, works);
    }
  }

  function Smooth(anchor: Position, restores: bool): Outcome {
    Outcome(true, restores, true, anchor, true, true, true, [], [], [], [])
  }

  /** A refused restore, and the user not touching the mouse: the next activation takes the anchor for the user's
      position. */
  lemma StuckForgetsHome(user: Position, anchor: Position)
    requires user != anchor
    ensures var s1 := Step(Step(Step(Initial(user), Begin), Request(true, true)), Apply(Smooth(anchor, true)));
            var s2 := Step(Step(s1, Request(false, true)), Apply(Smooth(anchor, false)));
            var s3 := Step(Step(s2, Request(true, true)), Apply(Smooth(anchor, true)));
            && s1.active && s1.desk.origin == Some(user) && !s1.desk.tainted
            && s2.desk.amiss && s2.desk.placed
            && s3.active && s3.desk.origin == Some(anchor) && s3.desk.home == user && s3.desk.tainted
  {
    var s1 := Step(Step(Step(Initial(user), Begin), Request(true, true)), Apply(Smooth(anchor, true)));
    assert s1.active && s1.hook.Idle? && !s1.pending;
    assert s1.desk.origin == Some(user) && s1.desk.cursor == anchor && s1.desk.placed;
    var s2 := Step(Step(s1, Request(false, true)), Apply(Smooth(anchor, false)));
    assert s2.hook.Idle? && !s2.pending;
    assert s2.desk.amiss && s2.desk.cursor == anchor && s2.desk.placed && s2.desk.home == user;
  }

  /** The same, but the user moves the mouse in between: the next activation records where the user left it. */
  lemma WanderHeals(s: State, to: Position, anchor: Position)
    requires !s.active
    ensures var d := Recorded(Step(s, Wander(to)).desk, anchor); d.origin == Some(to) && d.home == to && !d.tainted
  {
  }
}
