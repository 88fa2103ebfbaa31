/** What the capture policy keeps over every sequence of keyboard, mouse and control events. */
module CaptureInvariant {
  import opened Sequences
  import opened Protocol
  import opened Capture

  /** `stop` is the emission of that event which overloads the queue, if any. */
  datatype Act =
    | DoActivate
    | DoPause
    | DoKey(key: int, down: bool, stop: Option<nat>)
    | DoMouse(op: Op, a: int, b: int, stop: Option<nat>)

  function Apply(p: Policy, act: Act): Policy {
    match act
    case DoActivate => Activated(p)
    case DoPause => Paused(p)
    case DoKey(key, down, stop) => KeyEvent(p, key, down, stop).policy
    case DoMouse(op, a, b, stop) =>
      if op.Move? || op.Button? || op.Scroll? then MouseEvent(p, op, a, b, stop).policy else p
  }

  function Run(acts: seq<Act>): Policy {
    if acts == [] then IDLE else Apply(Run(Front(acts)), Last(acts))
  }

  /** Every key-up releases a key the receiver holds at that moment. */
  predicate NoStrayUps(es: seq<Event>) {
    es == [] ||
    (&& NoStrayUps(Front(es))
     && (Last(es).op.Key? && Last(es).b == 0 ==> Last(es).a in HeldAfter(Front(es)).keys))
  }

  /** The key is forwarded or waiting exactly when it is physically down and neither ignored nor swallowed. */
  predicate Equation(p: Policy, k: int) {
    (k in p.forwarded || k in p.pending) <==> (k in p.keys && k !in p.ignored && k !in p.swallowed)
  }

  ghost predicate PolicyInv(p: Policy) {
    && Distinct(p.pending) && Elements(p.pending) <= RESERVED && Elements(p.pending) !! p.forwarded
    && (p.active ==> HeldAfter(p.emitted) == Held(p.forwarded, p.buttons - p.ignoredButtons))
    && (p.active ==> forall k :: k !in HOTKEYS ==> Equation(p, k))
    && (!p.active ==> p.pending == [])
    && NoStrayUps(p.emitted)
  }

  lemma EmitOne(es: seq<Event>, e: Event)
    ensures HeldAfter(es + [e]) == Struck(HeldAfter(es), e)
    ensures NoStrayUps(es + [e])
            <==> NoStrayUps(es) && (e.op.Key? && e.b == 0 ==> e.a in HeldAfter(es).keys)
  {
    assert Front(es + [e]) == es;
  }

  lemma {:induction false} EmitDowns(es: seq<Event>, keys: seq<int>)
    ensures HeldAfter(es + Downs(keys)) == HeldAfter(es).(keys := HeldAfter(es).keys + Elements(keys))
    ensures NoStrayUps(es + Downs(keys)) <==> NoStrayUps(es)
  {
    if keys == [] {
      assert es + Downs(keys) == es;
      assert Elements(keys) == {};
    } else {
      var e := Plain(Key, Last(keys), 1);
      EmitDowns(es, Front(keys));
      assert es + Downs(keys) == (es + Downs(Front(keys))) + [e];
      assert Elements(keys) == Elements(Front(keys)) + {Last(keys)};
      hide HeldAfter, NoStrayUps, Elements, Downs;
      EmitOne(es + Downs(Front(keys)), e);
    }
  }

  // ---- Flushing, with or without an overload on the way ----

  lemma ElementsHead(keys: seq<int>)
    requires keys != []
    ensures Elements(keys) == {keys[0]} + Elements(keys[1..])
  {
    assert forall k :: k in keys <==> k == keys[0] || k in keys[1..];
  }

  lemma DownsHead(keys: seq<int>)
    requires keys != []
    ensures Downs(keys) == [Plain(Key, keys[0], 1)] + Downs(keys[1..])
  {
  }

  lemma NoKeys()
    ensures Elements([]) == {} && Downs([]) == []
  {
  }

  /** Emitting and marking the head, then the rest. */
  lemma OneByOne(es: seq<Event>, forwarded: set<int>, keys: seq<int>)
    requires keys != []
    ensures es + [Plain(Key, keys[0], 1)] + Downs(keys[1..]) == es + Downs(keys)
    ensures forwarded + {keys[0]} + Elements(keys[1..]) == forwarded + Elements(keys)
  {
    ElementsHead(keys);
    DownsHead(keys);
    hide Elements, Downs;
  }

  lemma {:induction false} IdleFlush(p: Policy, keys: seq<int>, i: nat, stop: Option<nat>)
    requires !p.active
    ensures FlushedFrom(p, keys, i, stop) == p.(forwarded := p.forwarded + Elements(keys))
    decreases |keys|
  {
    hide Elements, Downs;
    NoKeys();
    if keys == [] {
      assert p.forwarded + {} == p.forwarded;
    } else {
      OneByOne(p.emitted, p.forwarded, keys);
      IdleFlush(p.(forwarded := p.forwarded + {keys[0]}), keys[1..], i + 1, stop);
    }
  }

  /** The emission that overloads is one of this flush. */
  predicate StopsWithin(i: nat, n: nat, stop: Option<nat>) { stop.Some? && i <= stop.value < i + n }

  lemma {:induction false} SmoothFlush(p: Policy, keys: seq<int>, i: nat, stop: Option<nat>)
    requires p.active && !StopsWithin(i, |keys|, stop)
    ensures FlushedFrom(p, keys, i, stop)
            == p.(emitted := p.emitted + Downs(keys), forwarded := p.forwarded + Elements(keys))
    decreases |keys|
  {
    hide Elements, Downs;
    NoKeys();
    if keys == [] {
      assert p.emitted + [] == p.emitted && p.forwarded + {} == p.forwarded;
    } else {
      OneByOne(p.emitted, p.forwarded, keys);
      SmoothFlush(p.(emitted := p.emitted + [Plain(Key, keys[0], 1)], forwarded := p.forwarded + {keys[0]}),
                  keys[1..], i + 1, stop);
    }
  }

  /** The flush goes on over what remains as if it had begun there. */
  lemma {:induction false} FlushSplit(p: Policy, done: seq<int>, rest: seq<int>, i: nat, stop: Option<nat>)
    ensures FlushedFrom(p, done + rest, i, stop) == FlushedFrom(FlushedFrom(p, done, i, stop), rest, i + |done|, stop)
    decreases |done|
  {
    hide Emitted;
    if done == [] {
      assert done + rest == rest;
    } else {
      var q := Emitted(p, Plain(Key, done[0], 1), stop == Some(i));
      assert (done + rest)[0] == done[0] && (done + rest)[1..] == done[1..] + rest;
      FlushSplit(q.(forwarded := q.forwarded + {done[0]}), done[1..], rest, i + 1, stop);
    }
  }

  /** At the overload the policy is paused; the modifiers from there on are still marked as forwarded. */
  lemma StoppedFlush(p: Policy, keys: seq<int>, i: nat, stop: Option<nat>)
    requires p.active && StopsWithin(i, |keys|, stop)
    ensures var n := stop.value - i;
            FlushedFrom(p, keys, i, stop)
            == Paused(p.(emitted := p.emitted + Downs(keys[..n]) + [Plain(Key, keys[n], 1)],
                         forwarded := p.forwarded + Elements(keys[..n])))
               .(forwarded := Elements(keys[n..]))
  {
    var n := stop.value - i;
    var q := p.(emitted := p.emitted + Downs(keys[..n]), forwarded := p.forwarded + Elements(keys[..n]));
    assert keys == keys[..n] + keys[n..];
    FlushSplit(p, keys[..n], keys[n..], i, stop);
    SmoothFlush(p, keys[..n], i, stop);
    StoppedNow(q, keys[n..], stop.value, stop);
    hide Elements, Downs, FlushedFrom;
  }

  lemma StoppedNow(q: Policy, keys: seq<int>, i: nat, stop: Option<nat>)
    requires q.active && keys != [] && stop == Some(i)
    ensures FlushedFrom(q, keys, i, stop)
            == Paused(q.(emitted := q.emitted + [Plain(Key, keys[0], 1)])).(forwarded := Elements(keys))
  {
    var r := Paused(q.(emitted := q.emitted + [Plain(Key, keys[0], 1)]));
    OneByOne(r.emitted, {}, keys);
    IdleFlush(r.(forwarded := r.forwarded + {keys[0]}), keys[1..], i + 1, stop);
    assert {} + Elements(keys) == Elements(keys);
  }

  lemma {:induction false} WithoutElements(s: seq<int>, x: int)
    ensures Elements(Without(s, x)) == Elements(s) - {x}
    ensures Distinct(s) ==> Distinct(Without(s, x))
  {
    if s != [] {
      WithoutElements(Front(s), x);
      assert Elements(s) == Elements(Front(s)) + {Last(s)};
      var w := Without(Front(s), x);
      assert Elements(w + [Last(s)]) == Elements(w) + {Last(s)};
      if Distinct(s) {
        forall i | 0 <= i < |w| ensures w[i] != Last(s) {
          assert w[i] in Elements(w);
          assert w[i] in Front(s);
        }
      }
    }
  }

  lemma FlushKeeps(p: Policy, stop: Option<nat>)
    requires PolicyInv(p) && p.active
    ensures PolicyInv(Flushed(p, stop))
    ensures var q := Flushed(p, stop);
            && (q.active <==> !StopsWithin(0, |p.pending|, stop))
            && q.pending == [] && q.keys == p.keys && q.buttons == p.buttons && q.ignored == p.ignored
            && q.ignoredButtons == p.ignoredButtons
            && (q.active ==> q.swallowed == p.swallowed && q.forwarded == p.forwarded + Elements(p.pending))
            && (!q.active ==> q.forwarded == Elements(p.pending[stop.value..]))
  {
    if StopsWithin(0, |p.pending|, stop) {
      StoppedFlush(p, p.pending, 0, stop);
      EmitDowns(p.emitted, p.pending[..stop.value]);
      EmitOne(p.emitted + Downs(p.pending[..stop.value]), Plain(Key, p.pending[stop.value], 1));
    } else {
      SmoothFlush(p, p.pending, 0, stop);
      EmitDowns(p.emitted, p.pending);
    }
  }

  /** What handing over one more event keeps, when the policy then shows what it leaves held. */
  lemma EmittedKeeps(p: Policy, e: Event, stops: bool)
    requires NoStrayUps(p.emitted) && p.pending == []
    requires p.active && e.op.Key? && e.b == 0 ==> e.a in HeldAfter(p.emitted).keys
    ensures var q := Emitted(p, e, stops);
            && NoStrayUps(q.emitted) && q.pending == [] && (q.active <==> p.active && !stops)
            && (p.active && stops ==> q.forwarded == {}) && (!(p.active && stops) ==> q.forwarded == p.forwarded)
            && (q.active ==>
                  q == p.(emitted := p.emitted + [e]) && HeldAfter(q.emitted) == Struck(HeldAfter(p.emitted), e))
            && (!p.active ==> q == p)
  {
    EmitOne(p.emitted, e);
  }

  lemma ModifierDownKeeps(p: Policy, key: int, stop: Option<nat>)
    requires PolicyInv(p) && p.active && key in RESERVED && key !in p.ignored && key !in p.swallowed
    ensures PolicyInv(Modifier(p.(keys := p.keys + {key}), key, true, stop).0)
  {
    assert key !in HOTKEYS;
    assert Elements(p.pending + [key]) == Elements(p.pending) + {key};
  }

  /** The release of a modifier that was still waiting. */
  lemma TapKeeps(p: Policy, key: int, stop: Option<nat>)
    requires PolicyInv(p) && p.active && key in RESERVED && key in p.pending && key !in p.ignored && key !in p.swallowed
    ensures PolicyInv(Modifier(p.(keys := p.keys - {key}), key, false, stop).0)
  {
    var press, release := Plain(Key, key, 1), Plain(Key, key, 0);
    var q := Modifier(p.(keys := p.keys - {key}), key, false, stop).0;
    WithoutElements(p.pending, key);
    EmitOne(p.emitted, press);
    EmitOne(p.emitted + [press], release);
    if q.active {
      assert q.forwarded == p.forwarded;
      forall k | k !in HOTKEYS ensures Equation(q, k) {
        assert k in q.pending <==> k in Elements(q.pending);
        assert k in p.pending <==> k in Elements(p.pending);
        assert Equation(p, k);
      }
      assert q.emitted == p.emitted + [press] + [release];
      assert HeldAfter(q.emitted).keys == p.forwarded + {key} - {key} == p.forwarded;
    }
  }

  lemma ModifierUpKeeps(p: Policy, key: int, stop: Option<nat>)
    requires PolicyInv(p) && p.active && key in RESERVED && key !in p.ignored && key !in p.swallowed
    ensures PolicyInv(Modifier(p.(keys := p.keys - {key}), key, false, stop).0)
  {
    if key in p.pending {
      TapKeeps(p, key, stop);
    } else if key in p.forwarded {
      EmitOne(p.emitted, Plain(Key, key, 0));
    }
  }

  lemma OrdinaryKeeps(p: Policy, key: int, down: bool, stop: Option<nat>)
    requires PolicyInv(p) && p.active && key !in RESERVED && key !in p.ignored && key !in p.swallowed
    ensures PolicyInv(Ordinary(p.(keys := if down then p.keys + {key} else p.keys - {key}), key, down, stop))
  {
    var p0 := p.(keys := if down then p.keys + {key} else p.keys - {key});
    FlushKeeps(p, stop);
    FlushIgnores(p, p0.keys, p.buttons, stop);
    var p1 := Flushed(p0, stop);
    hide FlushedFrom;
    EmittedKeeps(p1, Plain(Key, key, if down || key !in p1.forwarded then 1 else 0), stop == Some(|p.pending|));
  }

  /** A flush does not look at what is physically down. */
  lemma FlushIgnores(p: Policy, keys: set<int>, buttons: set<int>, stop: Option<nat>)
    requires p.active
    ensures Flushed(p.(keys := keys, buttons := buttons), stop) == Flushed(p, stop).(keys := keys, buttons := buttons)
  {
    if StopsWithin(0, |p.pending|, stop) {
      StoppedFlush(p, p.pending, 0, stop);
      StoppedFlush(p.(keys := keys, buttons := buttons), p.pending, 0, stop);
    } else {
      SmoothFlush(p, p.pending, 0, stop);
      SmoothFlush(p.(keys := keys, buttons := buttons), p.pending, 0, stop);
    }
  }

  lemma KeyKeeps(p: Policy, key: int, down: bool, stop: Option<nat>)
    requires PolicyInv(p)
    ensures PolicyInv(KeyEvent(p, key, down, stop).policy)
  {
    hide Flushed, Emitted, Modifier, Ordinary;
    var keys := if down then p.keys + {key} else p.keys - {key};
    if down && key in HOTKEYS && Chord(keys) {
    } else if key in p.swallowed || key in p.ignored || !p.active {
    } else if key in RESERVED {
      if down {
        ModifierDownKeeps(p, key, stop);
      } else {
        ModifierUpKeeps(p, key, stop);
      }
    } else {
      OrdinaryKeeps(p, key, down, stop);
    }
  }

  lemma MouseKeeps(p: Policy, op: Op, a: int, b: int, stop: Option<nat>)
    requires PolicyInv(p) && (op.Move? || op.Button? || op.Scroll?)
    ensures PolicyInv(MouseEvent(p, op, a, b, stop).policy)
  {
    hide Emitted;
    var p1 := if op.Button? then p.(buttons := if b != 0 then p.buttons + {a} else p.buttons - {a}) else p;
    if p.active && !(op.Button? && a in p.ignoredButtons) {
      FlushKeeps(p, stop);
      FlushIgnores(p, p.keys, p1.buttons, stop);
      hide Flushed;
      EmittedKeeps(Flushed(p1, stop), Plain(op, a, b), stop == Some(|p.pending|));
    }
  }

  lemma ApplyKeeps(p: Policy, act: Act)
    requires PolicyInv(p)
    ensures PolicyInv(Apply(p, act))
  {
    hide KeyEvent, MouseEvent;
    match act
    case DoActivate =>
    case DoPause =>
    case DoKey(key, down, stop) => KeyKeeps(p, key, down, stop);
    case DoMouse(op, a, b, stop) => if op.Move? || op.Button? || op.Scroll? { MouseKeeps(p, op, a, b, stop); }
  }

  /** In every run, overloads at any emission included: while active, for every key but F9 and F10, forwarded and
      pending partition keys - ignored - swallowed; the emitted events leave held, at a receiver that started with
      nothing, exactly the forwarded keys and the buttons down that are not ignored; and no release is ever emitted
      for a key the receiver does not hold. */
  lemma {:induction false} PolicyAlways(acts: seq<Act>)
    ensures PolicyInv(Run(acts))
  {
    if acts != [] {
      PolicyAlways(Front(acts));
      ApplyKeeps(Run(Front(acts)), Last(acts));
    }
  }

  /** While inactive nothing is emitted; while active nothing reaches the local applications, except the release of
      a waiting modifier whose emission overloads the queue: that one ends in an error. */
  lemma ExclusiveRouting(p: Policy, key: int, down: bool, op: Op, a: int, b: int, stop: Option<nat>)
    ensures !p.active ==> KeyEvent(p, key, down, stop).policy.emitted == p.emitted
                          && MouseEvent(p, op, a, b, stop).policy.emitted == p.emitted
    ensures p.active ==> MouseEvent(p, op, a, b, stop).suppress
    ensures p.active ==> (KeyEvent(p, key, down, stop).suppress <==> !KeyEvent(p, key, down, stop).raised)
    ensures KeyEvent(p, key, down, stop).raised <==>
              && p.active && !down && key in RESERVED && key in p.pending && key !in p.swallowed && key !in p.ignored
              && stop == Some(0)
  {
    WithoutPending(p, key);
  }

  lemma WithoutPending(p: Policy, key: int)
    ensures key in p.pending ==> key in p.(keys := p.keys - {key}).pending
  {
  }

  /** After a pause every key the target was holding stays suppressed until it is released: its
      remaining repeats and its release stay away from local applications, and the next press does not. */
  lemma ForwardedReleaseSwallowed(p: Policy, key: int, stop: Option<nat>)
    requires PolicyInv(p) && p.active && key in p.forwarded && key !in p.ignored
    ensures var q := Paused(p);
            && KeyEvent(q, key, true, stop).suppress && KeyEvent(q, key, false, stop).suppress
            && var r := KeyEvent(q, key, false, stop).policy;
               !(key in HOTKEYS && Chord(r.keys + {key})) ==> !KeyEvent(r, key, true, stop).suppress
  {
  }

  lemma ModifierLeaves(p: Policy, key: int, down: bool, stop: Option<nat>)
    requires p.active && !Modifier(p, key, down, stop).0.active
    ensures Modifier(p, key, down, stop).0.forwarded == {}
  {
  }

  lemma OrdinaryLeaves(p: Policy, key: int, down: bool, stop: Option<nat>)
    requires PolicyInv(p) && p.active && key !in RESERVED
    requires var p0 := p.(keys := if down then p.keys + {key} else p.keys - {key});
             !Ordinary(p0, key, down, stop).active
    ensures var p0 := p.(keys := if down then p.keys + {key} else p.keys - {key});
            Ordinary(p0, key, down, stop).forwarded != {}
            <==> stop.Some? && (stop.value < |p.pending| || (stop.value == |p.pending| && down))
  {
    var p0 := p.(keys := if down then p.keys + {key} else p.keys - {key});
    FlushKeeps(p, stop);
    FlushIgnores(p, p0.keys, p.buttons, stop);
    if StopsWithin(0, |p.pending|, stop) {
      assert p.pending[stop.value] in Elements(p.pending[stop.value..]);
      assert p.pending[stop.value] in Elements(p.pending);
    }
    hide FlushedFrom, Flushed, PolicyInv;
  }

  /** A pause made by an overload comes before the key that caused it is marked: exactly then a paused policy is
      left with forwarded keys. */
  lemma OverloadLeavesForwarded(p: Policy, key: int, down: bool, stop: Option<nat>)
    requires PolicyInv(p) && p.active && !KeyEvent(p, key, down, stop).policy.active
    ensures KeyEvent(p, key, down, stop).policy.forwarded != {} <==>
              && key !in RESERVED && !(down && key in HOTKEYS && Chord(p.keys + {key}))
              && stop.Some? && (stop.value < |p.pending| || (stop.value == |p.pending| && down))
  {
    hide Modifier, Ordinary, Flushed, PolicyInv, Chord;
    var p0 := p.(keys := if down then p.keys + {key} else p.keys - {key});
    if down && key in HOTKEYS && Chord(p0.keys) {
    } else if key in p.swallowed || key in p.ignored {
    } else if key in RESERVED {
      ModifierLeaves(p0, key, down, stop);
    } else {
      OrdinaryLeaves(p, key, down, stop);
    }
  }

  // ---- The hotkey corner ----

  ghost predicate FullEquation(p: Policy) {
    forall k :: Equation(p, k)
  }

  lemma ChordWithHotkey(keys: set<int>, key: int)
    requires key in HOTKEYS
    ensures Chord(keys + {key}) <==> Chord(keys)
  {
    assert (keys + {key}) * CTRL == keys * CTRL && (keys + {key}) * ALT == keys * ALT;
  }

  predicate CornerCase(p: Policy, key: int, down: bool) {
    down && key in HOTKEYS && Chord(p.keys) && key in p.keys && key in p.forwarded
  }

  /** What an ordinary key event that leaves control active does to the sets. */
  lemma OrdinaryShape(p: Policy, key: int, down: bool, stop: Option<nat>)
    requires PolicyInv(p) && p.active
    ensures var p0 := p.(keys := if down then p.keys + {key} else p.keys - {key});
            var q := Ordinary(p0, key, down, stop);
            q.active ==>
              && q.pending == [] && q.keys == p0.keys && q.ignored == p.ignored && q.swallowed == p.swallowed
              && q.forwarded == if down then p.forwarded + Elements(p.pending) + {key}
                                else p.forwarded + Elements(p.pending) - {key}
  {
    var p0 := p.(keys := if down then p.keys + {key} else p.keys - {key});
    FlushKeeps(p, stop);
    FlushIgnores(p, p0.keys, p.buttons, stop);
    hide FlushedFrom, Flushed;
  }

  /** Outside the corner the equation for a hotkey k survives every key event that leaves control active. */
  lemma HotkeyKept(p: Policy, key: int, down: bool, stop: Option<nat>, k: int)
    requires PolicyInv(p) && p.active && Equation(p, k) && Equation(p, key) && k in HOTKEYS
    requires !CornerCase(p, key, down) && KeyEvent(p, key, down, stop).policy.active
    ensures Equation(KeyEvent(p, key, down, stop).policy, k)
  {
    hide Modifier, Ordinary, Chord, KeyEvent, PolicyInv;
    assert k !in RESERVED && k !in Elements(p.pending) by { NoHotkeyPending(p, k); }
    KeyCases(p, key, down, stop);
    if key in HOTKEYS { ChordWithHotkey(p.keys, key); }
    if key in RESERVED {
      ModifierHotkey(p, key, down, stop, k);
    } else {
      OrdinaryShape(p, key, down, stop);
    }
  }

  lemma NoHotkeyPending(p: Policy, k: int)
    requires PolicyInv(p) && k in HOTKEYS
    ensures k !in RESERVED && k !in Elements(p.pending)
  {
  }

  /** The branches of a key event that leaves control active. */
  lemma KeyCases(p: Policy, key: int, down: bool, stop: Option<nat>)
    requires p.active && KeyEvent(p, key, down, stop).policy.active
    ensures var p1 := p.(keys := if down then p.keys + {key} else p.keys - {key});
            var q := KeyEvent(p, key, down, stop).policy;
            if down && key in HOTKEYS && Chord(p1.keys) then
              key in p.keys && q == p1.(swallowed := p1.swallowed + {key})
            else if key in p.swallowed then q == if down then p1 else p1.(swallowed := p1.swallowed - {key})
            else if key in p.ignored then q == if down then p1 else p1.(ignored := p1.ignored - {key})
            else if key in RESERVED then q == Modifier(p1, key, down, stop).0
            else q == Ordinary(p1, key, down, stop)
  {
    hide Modifier, Ordinary, Chord;
  }

  /** A modifier event does not touch the hotkeys. */
  lemma ModifierHotkey(p: Policy, key: int, down: bool, stop: Option<nat>, k: int)
    requires key in RESERVED && k in HOTKEYS && p.active
    ensures var q := Modifier(p.(keys := if down then p.keys + {key} else p.keys - {key}), key, down, stop).0;
            q.active ==>
              && (k in q.forwarded <==> k in p.forwarded) && (k in q.pending <==> k in p.pending)
              && (k in q.keys <==> k in p.keys) && q.ignored == p.ignored && q.swallowed == p.swallowed
  {
    WithoutElements(p.pending, key);
    assert k in Without(p.pending, key) <==> k in Elements(Without(p.pending, key));
    assert k in p.pending <==> k in Elements(p.pending);
  }

  /** Starting from the equation for all keys, one key event breaks it exactly when F9 or F10, already
      forwarded as an ordinary key, auto-repeats after Ctrl and Alt have joined it. */
  lemma HotkeyCorner(p: Policy, key: int, down: bool, stop: Option<nat>)
    requires PolicyInv(p) && p.active && FullEquation(p)
    ensures var q := KeyEvent(p, key, down, stop).policy;
            (q.active && !FullEquation(q)) <==> CornerCase(p, key, down)
  {
    var q := KeyEvent(p, key, down, stop).policy;
    KeyKeeps(p, key, down, stop);
    if CornerCase(p, key, down) {
      ChordWithHotkey(p.keys, key);
      assert !Equation(q, key);
    } else if q.active {
      forall k ensures Equation(q, k) {
        assert Equation(p, k) && Equation(p, key);
        if k in HOTKEYS {
          HotkeyKept(p, key, down, stop, k);
        }
      }
    }
  }

  /** The consequence: once the corner is met, letting go of the hotkey is swallowed, so the target keeps
      holding a key that is no longer down. */
  lemma CornerSticks(p: Policy, key: int, stop: Option<nat>)
    requires p.active && CornerCase(p, key, true)
    ensures var r := KeyEvent(KeyEvent(p, key, true, stop).policy, key, false, stop).policy;
            r.active && key in r.forwarded && key !in r.keys
  {
    ChordWithHotkey(p.keys, key);
  }

  lemma RunStep(acts: seq<Act>, act: Act)
    ensures Run(acts + [act]) == Apply(Run(acts), act)
  {
    assert Front(acts + [act]) == acts;
  }

  /** A run that reaches the corner: F9 goes down alone, then Ctrl and Alt join it. */
  lemma CornerReached()
    ensures var p := Run([DoActivate] + [DoKey(F9, true, None)] + [DoKey(0xA2, true, None)]
                         + [DoKey(0xA4, true, None)]);
            p.active && CornerCase(p, F9, true)
  {
    var p1 := Activated(IDLE);
    var p2 := p1.(keys := {F9}, forwarded := {F9}, emitted := [Plain(Key, F9, 1)]);
    var p3 := p2.(keys := {F9, 0xA2}, pending := [0xA2]);
    var p4 := p3.(keys := {F9, 0xA2, 0xA4}, pending := [0xA2, 0xA4]);
    RunStep([], DoActivate);
    assert [] + [DoActivate] == [DoActivate];
    RunStep([DoActivate], DoKey(F9, true, None));
    assert KeyEvent(p1, F9, true, None).policy == p2 by { ChordWithHotkey({}, F9); }
    RunStep([DoActivate] + [DoKey(F9, true, None)], DoKey(0xA2, true, None));
    assert KeyEvent(p2, 0xA2, true, None).policy == p3;
    RunStep([DoActivate] + [DoKey(F9, true, None)] + [DoKey(0xA2, true, None)], DoKey(0xA4, true, None));
    assert KeyEvent(p3, 0xA4, true, None).policy == p4;
    assert 0xA2 in p4.keys * CTRL && 0xA4 in p4.keys * ALT;
  }
}
