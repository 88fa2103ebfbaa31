/** The controller's suppression and forwarding policy, src/remoteinput/capture.py. */
module Capture {
  import opened Sequences
  import opened Protocol

  const CTRL: set<int> := {0x11, 0xA2, 0xA3}
  const ALT: set<int> := {0x12, 0xA4, 0xA5}
  const RESERVED: set<int> := CTRL + ALT
  const F9: int := 0x78
  const F10: int := 0x79
  const HOTKEYS: set<int> := {F9, F10}

  /** `emitted` is what was handed to the queue since the latest activation; `pending` keeps the order in
      which modifiers went down. */
  datatype Policy = Policy(
    active: bool, keys: set<int>, buttons: set<int>, ignored: set<int>, swallowed: set<int>,
    ignoredButtons: set<int>, pending: seq<int>, forwarded: set<int>, emitted: seq<Event>)

  /** What a hotkey calls. While control is active both callbacks end in pause(). */
  datatype Callback = NoCall | Toggle | Stop

  /** `raised`: the source ends in a KeyError. */
  datatype Response = Response(policy: Policy, suppress: bool, call: Callback, raised: bool)

  const IDLE: Policy := Policy(false, {}, {}, {}, {}, {}, [], {}, [])

  function Plain(op: Op, a: int, b: int): Event { Event(op, 0, 0, 0, 0, a, b) }

  function Elements(s: seq<int>): set<int> { set x | x in s }

  function Downs(keys: seq<int>): seq<Event> { Map((k: int) => Plain(Key, k, 1), keys) }

  function Without(s: seq<int>, x: int): seq<int> {
    if s == [] then [] else Without(Front(s), x) + (if Last(s) == x then [] else [Last(s)])
  }

  function Activated(p: Policy): Policy {
    p.(active := true, ignored := p.keys, ignoredButtons := p.buttons, pending := [], forwarded := {}, emitted := [])
  }

  function Paused(p: Policy): Policy {
    p.(active := false, swallowed := p.swallowed + p.forwarded, pending := [], forwarded := {})
  }

  /** Handing an event to the queue. When that overloads it, the controller stops control, which pauses the policy
      before emit returns; once control has stopped, nothing more is taken. */
  function Emitted(p: Policy, e: Event, stops: bool): Policy {
    if !p.active then p
    else if stops then Paused(p.(emitted := p.emitted + [e]))
    else p.(emitted := p.emitted + [e])
  }

  /** `stop` says which emission of one event overloads the queue, if any; `i` counts them. */
  function FlushedFrom(p: Policy, keys: seq<int>, i: nat, stop: Option<nat>): Policy
    decreases |keys|
  {
    if keys == [] then p
    else
      var q := Emitted(p, Plain(Key, keys[0], 1), stop == Some(i));
      FlushedFrom(q.(forwarded := q.forwarded + {keys[0]}), keys[1..], i + 1, stop)
  }

  function Flushed(p: Policy, stop: Option<nat>): Policy {
    FlushedFrom(p, p.pending, 0, stop).(pending := [])
  }

  predicate Chord(keys: set<int>) { keys * CTRL != {} && keys * ALT != {} }

  /** A reserved modifier: its down waits, its up flushes it. If the flush overloads the queue, the pause has already
      emptied `pending`, and removing the key from it raises. */
  function Modifier(p: Policy, key: int, down: bool, stop: Option<nat>): (Policy, bool) {
    if down then
      (if key in p.forwarded || key in p.pending then p else p.(pending := p.pending + [key]), false)
    else if key in p.pending then
      var q := Emitted(p, Plain(Key, key, 1), stop == Some(0));
      if key !in q.pending then (q, true)
      else
        var r := q.(pending := Without(q.pending, key), forwarded := q.forwarded + {key});
        var t := Emitted(r, Plain(Key, key, 0), stop == Some(1));
        (t.(forwarded := t.forwarded - {key}), false)
    else if key in p.forwarded then
      var q := Emitted(p, Plain(Key, key, 0), stop == Some(0));
      (q.(forwarded := q.forwarded - {key}), false)
    else (p, false)
  }

  /** Any other key: pending modifiers go first. */
  function Ordinary(p: Policy, key: int, down: bool, stop: Option<nat>): Policy {
    var p1 := Flushed(p, stop);
    var p2 := if down || key in p1.forwarded then
                Emitted(p1, Plain(Key, key, if down then 1 else 0), stop == Some(|p.pending|))
              else p1;
    p2.(forwarded := if down then p2.forwarded + {key} else p2.forwarded - {key})
  }

  function KeyEvent(p: Policy, key: int, down: bool, stop: Option<nat>): Response {
    var repeated := key in p.keys;
    var p1 := p.(keys := if down then p.keys + {key} else p.keys - {key});
    if down && key in HOTKEYS && Chord(p1.keys) then
      var p2 := p1.(swallowed := p1.swallowed + {key});
      if repeated then Response(p2, true, NoCall, false)
      else
        var p3 := p2.(pending := []);
        Response(if p3.active then Paused(p3) else p3, true, if key == F9 then Toggle else Stop, false)
    else if key in p1.swallowed then
      Response(if down then p1 else p1.(swallowed := p1.swallowed - {key}), true, NoCall, false)
    else if key in p1.ignored then
      Response(if down then p1 else p1.(ignored := p1.ignored - {key}), p1.active, NoCall, false)
    else if !p1.active then Response(p1, false, NoCall, false)
    else if key in RESERVED then
      var (q, raised) := Modifier(p1, key, down, stop);
      Response(q, !raised, NoCall, raised)
    else Response(Ordinary(p1, key, down, stop), true, NoCall, false)
  }

  function MouseEvent(p: Policy, op: Op, a: int, b: int, stop: Option<nat>): Response {
    var p1 := if op.Button? then p.(buttons := if b != 0 then p.buttons + {a} else p.buttons - {a}) else p;
    if op.Button? && a in p1.ignoredButtons then
      Response(if b != 0 then p1 else p1.(ignoredButtons := p1.ignoredButtons - {a}), p1.active, NoCall, false)
    else if !p1.active then Response(p1, false, NoCall, false)
    else
      Response(Emitted(Flushed(p1, stop), Plain(op, a, b), stop == Some(|p1.pending|)), true, NoCall, false)
  }

  class CapturePolicy {
    var active: bool
    var keys: set<int>
    var buttons: set<int>
    var ignored: set<int>
    var swallowed: set<int>
    var ignoredButtons: set<int>
    var pending: seq<int>
    var forwarded: set<int>
    var emitted: seq<Event>

    function Value(): Policy
      reads this
    {
      Policy(active, keys, buttons, ignored, swallowed, ignoredButtons, pending, forwarded, emitted)
    }

    constructor ()
      ensures Value() == IDLE
    {
      active, keys, buttons, ignored, swallowed := false, {}, {}, {}, {};
      ignoredButtons, pending, forwarded, emitted := {}, [], {}, [];
    }

    method Activate()
      modifies this
      ensures Value() == Activated(old(Value()))
    {
      active := true;
      ignored := keys;
      ignoredButtons := buttons;
      pending, forwarded, emitted := [], {}, [];
    }

    method Pause()
      modifies this
      ensures Value() == Paused(old(Value()))
    {
      active := false;
      swallowed := swallowed + forwarded;
      pending, forwarded := [], {};
    }

    /** The controller's enqueue, and the pause it makes when the queue overloads. */
    method Emit(e: Event, stops: bool)
      modifies this
      ensures Value() == Emitted(old(Value()), e, stops)
    {
      if active {
        emitted := emitted + [e];
        if stops {
          Pause();
        }
      }
    }

    method FlushModifiers(stop: Option<nat>)
      modifies this
      ensures Value() == Flushed(old(Value()), stop)
    {
      var keys, i := pending, 0;
      while i < |keys|
        invariant 0 <= i <= |keys|
        invariant FlushedFrom(Value(), keys[i..], i, stop) == FlushedFrom(old(Value()), keys, 0, stop)
      {
        hide Emitted;
        assert keys[i..][1..] == keys[i + 1..];
        Emit(Plain(Key, keys[i], 1), stop == Some(i));
        forwarded := forwarded + {keys[i]};
        i := i + 1;
      }
      pending := [];
    }

    method OnModifier(key: int, down: bool, stop: Option<nat>) returns (raised: bool)
      modifies this
      ensures (Value(), raised) == Modifier(old(Value()), key, down, stop)
    {
      hide Emitted;
      if down {
        if key !in forwarded && key !in pending {
          pending := pending + [key];
        }
        return false;
      }
      var n := 0;
      if key in pending {
        Emit(Plain(Key, key, 1), stop == Some(0));
        if key !in pending {
          return true;
        }
        n := 1;
        pending := Without(pending, key);
        forwarded := forwarded + {key};
      }
      if key in forwarded {
        Emit(Plain(Key, key, 0), stop == Some(n));
        forwarded := forwarded - {key};
      }
      return false;
    }

    method OnKey(key: int, down: bool, stop: Option<nat>) returns (suppress: bool, call: Callback, raised: bool)
      modifies this
      ensures Response(Value(), suppress, call, raised) == KeyEvent(old(Value()), key, down, stop)
    {
      hide Flushed, Emitted, Modifier;
      call, raised := NoCall, false;
      var repeated := key in keys;
      keys := if down then keys + {key} else keys - {key};
      if down && key in HOTKEYS && Chord(keys) {
        swallowed := swallowed + {key};
        if !repeated {
          pending := [];
          call := if key == F9 then Toggle else Stop;
          if active {
            Pause();
          }
        }
        return true, call, false;
      }
      if key in swallowed {
        if !down {
          swallowed := swallowed - {key};
        }
        return true, call, false;
      }
      if key in ignored {
        if !down {
          ignored := ignored - {key};
        }
        return active, call, false;
      }
      if !active {
        return false, call, false;
      }
      if key in RESERVED {
        raised := OnModifier(key, down, stop);
        return !raised, call, raised;
      }
      var n := |pending|;
      FlushModifiers(stop);
      if down || key in forwarded {
        Emit(Plain(Key, key, if down then 1 else 0), stop == Some(n));
      }
      forwarded := if down then forwarded + {key} else forwarded - {key};
      return true, call, false;
    }

    method OnMouse(op: Op, a: int, b: int, stop: Option<nat>) returns (suppress: bool)
      modifies this
      ensures Response(Value(), suppress, NoCall, false) == MouseEvent(old(Value()), op, a, b, stop)
    {
      hide Flushed, Emitted;
      if op.Button? {
        buttons := if b != 0 then buttons + {a} else buttons - {a};
        if a in ignoredButtons {
          if b == 0 {
            ignoredButtons := ignoredButtons - {a};
          }
          return active;
        }
      }
      if !active {
        return false;
      }
      var n := |pending|;
      FlushModifiers(stop);
      Emit(Plain(op, a, b), stop == Some(n));
      return true;
    }
  }
}
