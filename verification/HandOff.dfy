/** Handing activation to the hook thread: set_active, _restore_cursor, _apply_state and the end of _run in
    src/remoteinput/platforms/windows.py. Native calls are oracles; while one runs, callbacks on the same thread
    may call set_active again. */
module HandOff {
  import opened Sequences

  datatype Position = Position(x: int, y: int)

  /** Where the hook thread is between atomic pieces. `Owing`: a failure has been caught and the pause that
      follows it not yet requested. The three `Leaving` places are the steps of the final clean-up. */
  datatype Hook = Off | Idle | Owing | LeavingActive | LeavingRequest | LeavingCursor | Gone

  /** The desktop's cursor and what is recorded of it. `home` and what follows are history: `home`, where the user
      last left the cursor before the program moved it; `placed`, the cursor stands where the program put it and the
      user has not moved it since; `tainted`, the recorded position was read while the cursor was placed away from
      home; `amiss`, the latest restore was refused while the cursor was placed, or restored a tainted record;
      `moved`, the user has moved the cursor since that restore. */
  datatype Desktop = Desktop(
    origin: Option<Position>, anchor: Option<Position>, cursor: Position,
    home: Position, placed: bool, tainted: bool, amiss: bool, moved: bool)

  /** `active` is the policy's flag, `pending` the capture's own note of a message on its way, and `mail` what the system
      holds for the hook thread. `unsent` and `stranded` are history: the latest post failed; the latest request raised
      for want of a thread. */
  datatype State = State(
    active: bool, requested: bool, version: nat, pending: bool, mail: nat, unsent: bool, stranded: bool,
    hook: Hook, desk: Desktop)

  /** What can happen on the hook thread inside a native call. */
  datatype Reentry = Ask(active: bool, posts: bool) | Slip(to: Position)

  datatype Outcome = Outcome(
    permitted: bool, restores: bool, located: bool, anchor: Position, anchors: bool, releases: bool, restoresLast: bool,
    duringRestore: seq<Reentry>, duringAnchor: seq<Reentry>, duringRelease: seq<Reentry>, duringLast: seq<Reentry>)

  function Initial(cursor: Position): State {
    State(false, false, 0, false, 0, false, false, Off,
          Desktop(None, None, cursor, cursor, false, false, false, false))
  }

  predicate Reachable(h: Hook) { !h.Off? && !h.Gone? }

  function Notified(s: State, posts: bool): State {
    if posts then s.(pending := true, mail := s.mail + 1, unsent := false)
    else s.(pending := false, requested := false, active := false, unsent := true)
  }

  function Asked(s: State, active: bool, posts: bool): State {
    var s1 := s.(requested := active, version := s.version + 1, active := s.active && active);
    if !Reachable(s.hook) then s1.(stranded := active)
    else if s.pending then s1.(stranded := false)
    else Notified(s1.(stranded := false), posts)
  }

  /** set_active raises only for a request to activate. */
  predicate AskRaises(s: State, active: bool, posts: bool) {
    active && (!Reachable(s.hook) || (!s.pending && !posts))
  }

  function PutBack(d: Desktop, works: bool): Desktop {
    match d.origin
    case None => d.(anchor := None)
    case Some(p) =>
      var d1 := d.(origin := None, anchor := None, tainted := false, moved := false);
      if works then d1.(cursor := p, placed := d.tainted, amiss := d.tainted) else d1.(amiss := d.placed)
  }

  function Restored(s: State, works: bool): State { s.(desk := PutBack(s.desk, works)) }

  /** The user moves the cursor. */
  function Nudged(d: Desktop, to: Position): Desktop { d.(cursor := to, placed := false, moved := true) }

  function Reentered(s: State, e: Reentry): State {
    match e
    case Ask(active, posts) => Asked(s, active, posts)
    case Slip(to) => s.(desk := Nudged(s.desk, to))
  }

  function AllReentered(s: State, es: seq<Reentry>): State
    decreases |es|
  {
    if es == [] then s else AllReentered(Reentered(s, es[0]), es[1..])
  }

  /** The position is read and recorded. */
  function Recorded(d: Desktop, anchor: Position): Desktop {
    d.(origin := Some(d.cursor), anchor := Some(anchor), home := if d.placed then d.home else d.cursor,
       tainted := d.placed && d.cursor != d.home)
  }

  /** And the cursor anchored where it cannot reach an edge. */
  function Held(d: Desktop, anchor: Position, works: bool): Desktop {
    if works then Recorded(d, anchor).(cursor := anchor, placed := true) else Recorded(d, anchor)
  }

  function Anchored(s: State, o: Outcome): State {
    AllReentered(s.(desk := Held(s.desk, o.anchor, o.anchors)), o.duringAnchor)
  }

  /** After the keys are released: the request is honoured if it is still the one seen at the start. */
  function Completed(s: State, seen: nat, o: Outcome): State {
    var s1 := AllReentered(s, o.duringRelease);
    if !o.releases then s1.(hook := Owing)
    else if s1.requested && s1.version == seen then s1.(active := true)
    else AllReentered(Restored(s1, o.restoresLast), o.duringLast)
  }

  function Cleared(s: State, o: Outcome): State {
    AllReentered(Restored(s, o.restores), o.duringRestore)
  }

  function Taken(mail: nat): nat { if mail > 0 then mail - 1 else 0 }

  /** The hook thread takes the posted message. A piece that raises leaves the hook thread `Owing`. */
  function Applied(s: State, o: Outcome): State {
    var s0 := s.(pending := false, mail := Taken(s.mail));
    if !s.requested then Cleared(s0.(active := false), o)
    else if s.active then s0
    else if !o.permitted then s0.(hook := Owing)
    else
      var s1 := Cleared(s0, o);
      if !o.located then s1.(hook := Owing)
      else if !o.anchors then Anchored(s1, o).(hook := Owing)
      else Completed(Anchored(s1, o), s.version, o)
  }

  /** The capture object; `hook`, `cursor` and the history fields stand for the thread and the desktop. */
  class WindowsCapture {
    var active: bool
    var requested: bool
    var version: nat
    var pending: bool
    var mail: nat
    var origin: Option<Position>
    var anchor: Option<Position>
    var cursor: Position
    var hook: Hook
    ghost var home: Position
    ghost var placed: bool
    ghost var tainted: bool
    ghost var amiss: bool
    ghost var moved: bool
    ghost var unsent: bool
    ghost var stranded: bool

    ghost function Desk(): Desktop
      reads this`origin, this`anchor, this`cursor, this`home, this`placed, this`tainted, this`amiss, this`moved
    {
      Desktop(origin, anchor, cursor, home, placed, tainted, amiss, moved)
    }

    ghost function Value(): State
      reads this
    {
      State(active, requested, version, pending, mail, unsent, stranded, hook, Desk())
    }

    constructor (cursor: Position)
      ensures Value() == Initial(cursor)
    {
      active, requested, version, pending, mail := false, false, 0, false, 0;
      origin, anchor, this.cursor, hook := None, None, cursor, Off;
      home, placed, tainted, amiss, moved := cursor, false, false, false, false;
      unsent, stranded := false, false;
    }

    /** Posting the message; when that fails, nothing stays requested. */
    method Notify(posts: bool)
      modifies this`active, this`requested, this`pending, this`mail, this`unsent
      ensures Value() == Notified(old(Value()), posts)
    {
      pending, unsent := posts, !posts;
      if posts {
        mail := mail + 1;
      } else {
        requested, active := false, false;
      }
    }

    method SetActive(on: bool, posts: bool) returns (raised: bool)
      modifies this`active, this`requested, this`version, this`pending, this`mail, this`unsent,
               this`stranded
      ensures Value() == Asked(old(Value()), on, posts)
      ensures raised <==> AskRaises(old(Value()), on, posts)
    {
      requested, version, stranded := on, version + 1, false;
      if !on {
        active := false;
      }
      if hook.Off? || hook.Gone? {
        stranded := on;
        return on;
      }
      if pending {
        return false;
      }
      Notify(posts);
      return on && !posts;
    }

    /** The record is forgotten before the cursor is put back. */
    method RestoreDesk(works: bool)
      modifies this`origin, this`anchor, this`cursor, this`placed, this`tainted, this`amiss, this`moved
      ensures Desk() == PutBack(old(Desk()), works)
    {
      var was := origin;
      origin, anchor := None, None;
      if was.Some? {
        if works {
          cursor := was.value;
          placed, amiss := tainted, tainted;
        } else {
          amiss := placed;
        }
        tainted, moved := false, false;
      }
    }

    method RestoreCursor(works: bool)
      modifies this`origin, this`anchor, this`cursor, this`placed, this`tainted, this`amiss, this`moved
      ensures Value() == Restored(old(Value()), works)
    {
      hide PutBack;
      RestoreDesk(works);
    }

    /** The callbacks a native call dispatches. */
    method Dispatch(es: seq<Reentry>)
      modifies this
      ensures Value() == AllReentered(old(Value()), es)
    {
      var i := 0;
      while i < |es|
        invariant 0 <= i <= |es|
        invariant AllReentered(Value(), es[i..]) == AllReentered(old(Value()), es)
      {
        assert es[i..][1..] == es[i + 1..];
        match es[i] {
          case Ask(on, posts) => var _ := SetActive(on, posts);
          case Slip(to) =>
            cursor := to;
            placed, moved := false, true;
        }
        i := i + 1;
      }
    }

    method HoldCursor(at: Position, works: bool)
      modifies this`origin, this`anchor, this`cursor, this`home, this`placed, this`tainted
      ensures Desk() == Held(old(Desk()), at, works)
    {
      tainted := placed && cursor != home;
      home := if placed then home else cursor;
      origin, anchor := Some(cursor), Some(at);
      if works {
        cursor, placed := at, true;
      }
    }

    method AnchorCursor(o: Outcome)
      modifies this
      ensures Value() == Anchored(old(Value()), o)
    {
      hide Held, AllReentered;
      HoldCursor(o.anchor, o.anchors);
      Dispatch(o.duringAnchor);
    }

    method Complete(seen: nat, o: Outcome) returns (raised: bool)
      modifies this
      ensures (if raised then Value().(hook := Owing) else Value()) == Completed(old(Value()), seen, o)
    {
      Dispatch(o.duringRelease);
      if !o.releases {
        return true;
      }
      if requested && version == seen {
        active := true;
      } else {
        RestoreCursor(o.restoresLast);
        Dispatch(o.duringLast);
      }
      return false;
    }

    method ApplyState(o: Outcome) returns (raised: bool)
      modifies this
      ensures (if raised then Value().(hook := Owing) else Value()) == Applied(old(Value()), o)
    {
      hide AllReentered, Completed, Anchored, Restored, PutBack;
      pending, mail := false, Taken(mail);
      var seen := version;
      if requested {
        if active {
          return false;
        }
        if !o.permitted {
          return true;
        }
        RestoreCursor(o.restores);
        Dispatch(o.duringRestore);
        if !o.located {
          return true;
        }
        AnchorCursor(o);
        if !o.anchors {
          return true;
        }
        raised := Complete(seen, o);
      } else {
        active := false;
        RestoreCursor(o.restores);
        Dispatch(o.duringRestore);
        return false;
      }
    }
  }
}
