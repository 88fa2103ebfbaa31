/** What the capture policy hands over: everything that arrives while active, in order and unchanged, and behind the
    modifiers that are down. */
module CaptureEmission {
  import opened Sequences
  import opened Protocol
  import opened Capture
  import opened CaptureInvariant

  /** The keys down, by the key events alone. */
  function KeysDown(acts: seq<Act>): set<int> {
    if acts == [] then {}
    else
      match Last(acts)
      case DoKey(key, down, stop) => if down then KeysDown(Front(acts)) + {key} else KeysDown(Front(acts)) - {key}
      case _ => KeysDown(Front(acts))
  }

  function ButtonsDown(acts: seq<Act>): set<int> {
    if acts == [] then {}
    else
      match Last(acts)
      case DoMouse(op, a, b, stop) =>
        if !op.Button? then ButtonsDown(Front(acts))
        else if b != 0 then ButtonsDown(Front(acts)) + {a}
        else ButtonsDown(Front(acts)) - {a}
      case _ => ButtonsDown(Front(acts))
  }

  /** Ctrl and Alt: generic, left and right. */
  predicate IsModifier(key: int) { key in {0x11, 0xA2, 0xA3} || key in {0x12, 0xA4, 0xA5} }

  /** Ctrl and Alt are down and the key is F9 or F10. */
  predicate Chorded(keys: set<int>, key: int) {
    (key == 0x78 || key == 0x79) && keys * {0x11, 0xA2, 0xA3} != {} && keys * {0x12, 0xA4, 0xA5} != {}
  }

  /** Everything but the modifiers. */
  function Ordinaries(es: seq<Event>): seq<Event> {
    if es == [] then []
    else Ordinaries(Front(es)) + (if Last(es).op.Key? && IsModifier(Last(es).a) then [] else [Last(es)])
  }

  /** What one event asks to forward besides modifiers: every move and scroll; buttons that were not down at the
      activation; keys that are neither ignored nor swallowed nor a hotkey chord, and their releases as far as the
      receiver holds them. Only an overload while the waiting modifiers go out comes before it. */
  function Passes(p: Policy, act: Act): Option<Event> {
    if !p.active then None
    else
      match act
      case DoMouse(op, a, b, stop) =>
        if (op.Move? || op.Scroll? || (op.Button? && a !in p.ignoredButtons)) && !StopsWithin(0, |p.pending|, stop)
        then Some(Event(op, 0, 0, 0, 0, a, b)) else None
      case DoKey(key, down, stop) =>
        if !IsModifier(key) && key !in p.ignored && key !in p.swallowed && !(down && Chorded(p.keys, key))
           && (down || key in HeldAfter(p.emitted).keys) && !StopsWithin(0, |p.pending|, stop)
        then Some(Event(Key, 0, 0, 0, 0, key, if down then 1 else 0)) else None
      case _ => None
  }

  /** What arrived to be forwarded since the latest activation, in order. */
  function Arrived(acts: seq<Act>): seq<Event> {
    if acts == [] || Last(acts).DoActivate? then []
    else
      var e := Passes(Run(Front(acts)), Last(acts));
      Arrived(Front(acts)) + (if e.Some? then [e.value] else [])
  }

  // ---- The emissions of one event ----

  lemma ModifierCodes(key: int)
    ensures key in RESERVED <==> IsModifier(key)
  {
  }

  lemma ChordCodes(keys: set<int>, key: int)
    ensures (key in HOTKEYS && Chord(keys + {key})) <==> Chorded(keys, key)
  {
    if key in HOTKEYS { ChordWithHotkey(keys, key); }
  }

  lemma {:induction false} OrdinariesConcat(xs: seq<Event>, ys: seq<Event>)
    ensures Ordinaries(xs + ys) == Ordinaries(xs) + Ordinaries(ys)
  {
    if ys == [] {
      assert xs + ys == xs;
    } else {
      assert Front(xs + ys) == xs + Front(ys);
      OrdinariesConcat(xs, Front(ys));
    }
  }

  lemma OrdinariesOne(e: Event)
    ensures Ordinaries([e]) == if e.op.Key? && IsModifier(e.a) then [] else [e]
  {
  }

  lemma {:induction false} OrdinariesDowns(keys: seq<int>)
    requires Elements(keys) <= RESERVED
    ensures Ordinaries(Downs(keys)) == []
  {
    if keys != [] {
      var front := Front(keys);
      forall k | k in Elements(front) ensures k in RESERVED { assert k in Elements(keys); }
      OrdinariesDowns(front);
      assert Last(keys) in Elements(keys);
      ModifierCodes(Last(keys));
      assert Downs(keys) == Downs(front) + [Plain(Key, Last(keys), 1)];
      OrdinariesConcat(Downs(front), [Plain(Key, Last(keys), 1)]);
    }
  }

  lemma StoppedEmits(p: Policy, stop: Option<nat>)
    requires p.active && Elements(p.pending) <= RESERVED && StopsWithin(0, |p.pending|, stop)
    ensures Ordinaries(Flushed(p, stop).emitted) == Ordinaries(p.emitted)
  {
    hide Ordinaries;
    var n := stop.value;
    var keys := p.pending[..n + 1];
    StoppedFlush(p, p.pending, 0, stop);
    assert keys == p.pending[..n] + [p.pending[n]];
    assert Flushed(p, stop).emitted == p.emitted + Downs(keys);
    forall k | k in Elements(keys) ensures k in RESERVED { assert k in Elements(p.pending); }
    OrdinariesDowns(keys);
    OrdinariesConcat(p.emitted, Downs(keys));
  }

  /** Flushing hands over the waiting modifiers, all of them unless it overloads; what was handed over before stays. */
  lemma FlushEmits(p: Policy, stop: Option<nat>)
    requires PolicyInv(p) && p.active
    ensures var q := Flushed(p, stop);
            && Ordinaries(q.emitted) == Ordinaries(p.emitted)
            && (q.active <==> !StopsWithin(0, |p.pending|, stop))
            && (q.active ==> q.emitted == p.emitted + Downs(p.pending))
  {
    FlushKeeps(p, stop);
    hide HeldAfter, NoStrayUps, Ordinaries;
    if StopsWithin(0, |p.pending|, stop) {
      StoppedEmits(p, stop);
    } else {
      SmoothFlush(p, p.pending, 0, stop);
      OrdinariesDowns(p.pending);
      OrdinariesConcat(p.emitted, Downs(p.pending));
    }
  }

  lemma EmittedOne(p: Policy, e: Event, stops: bool)
    ensures Emitted(p, e, stops).emitted == if p.active then p.emitted + [e] else p.emitted
  {
  }

  /** A modifier event hands over modifiers only. */
  lemma ModifierEmits(p: Policy, key: int, down: bool, stop: Option<nat>)
    requires key in RESERVED
    ensures Ordinaries(Modifier(p, key, down, stop).0.emitted) == Ordinaries(p.emitted)
  {
    var press, release := Plain(Key, key, 1), Plain(Key, key, 0);
    ModifierCodes(key);
    OrdinariesConcat(p.emitted, [press]);
    OrdinariesConcat(p.emitted, [release]);
    OrdinariesConcat(p.emitted + [press], [release]);
    OrdinariesOne(press);
    OrdinariesOne(release);
    hide Ordinaries, IsModifier;
  }

  /** The waiting modifiers, then the event. */
  predicate Behind(p: Policy, es: seq<Event>, e: Option<Event>) {
    && Ordinaries(es) == Ordinaries(p.emitted) + (if e.Some? then [e.value] else [])
    && (e.Some? ==> es == p.emitted + Downs(p.pending) + [e.value])
  }

  /** One more event after a flush. */
  lemma EmitsBehind(p: Policy, q: Policy, e: Event, stops: bool)
    requires Ordinaries(q.emitted) == Ordinaries(p.emitted)
    requires q.active ==> q.emitted == p.emitted + Downs(p.pending)
    requires !(e.op.Key? && IsModifier(e.a))
    ensures Behind(p, Emitted(q, e, stops).emitted, if q.active then Some(e) else None)
  {
    OrdinariesConcat(q.emitted, [e]);
    OrdinariesOne(e);
    hide Ordinaries, Downs;
  }

  /** The flush an event begins with, whatever is noted of the keys and buttons down. */
  lemma FlushBefore(p: Policy, keys: set<int>, buttons: set<int>, stop: Option<nat>)
    requires PolicyInv(p) && p.active
    ensures var q := Flushed(p.(keys := keys, buttons := buttons), stop);
            && Ordinaries(q.emitted) == Ordinaries(p.emitted)
            && (q.active <==> !StopsWithin(0, |p.pending|, stop))
            && (q.active ==> q.emitted == p.emitted + Downs(p.pending))
            && (q.active ==> q.forwarded == p.forwarded + Elements(p.pending))
  {
    FlushKeeps(p, stop);
    FlushEmits(p, stop);
    FlushIgnores(p, keys, buttons, stop);
    hide Flushed, FlushedFrom, Ordinaries, PolicyInv;
  }

  lemma ForwardedIsHeld(p: Policy, key: int)
    requires PolicyInv(p) && p.active && key !in RESERVED
    ensures key in p.forwarded <==> key in HeldAfter(p.emitted).keys
    ensures key !in Elements(p.pending)
  {
  }

  /** A flush that nothing follows. */
  lemma NothingBehind(p: Policy, q: Policy)
    requires Ordinaries(q.emitted) == Ordinaries(p.emitted)
    ensures Behind(p, q.emitted, None)
  {
    hide Ordinaries;
  }

  lemma OrdinaryEmits(p: Policy, key: int, down: bool, stop: Option<nat>)
    requires PolicyInv(p) && p.active && key !in RESERVED && key !in p.ignored && key !in p.swallowed
    requires !(down && Chorded(p.keys, key))
    ensures var p0 := p.(keys := if down then p.keys + {key} else p.keys - {key});
            Behind(p, Ordinary(p0, key, down, stop).emitted, Passes(p, DoKey(key, down, stop)))
  {
    hide Flushed, Emitted, Ordinaries, IsModifier, Chorded, PolicyInv, HeldAfter, Downs, Elements, Behind;
    var p0 := p.(keys := if down then p.keys + {key} else p.keys - {key});
    var e := Plain(Key, key, if down then 1 else 0);
    ModifierCodes(key);
    ForwardedIsHeld(p, key);
    FlushBefore(p, p0.keys, p.buttons, stop);
    assert p0 == p.(keys := p0.keys, buttons := p.buttons);
    var p1 := Flushed(p0, stop);
    EmitsBehind(p, p1, e, stop == Some(|p.pending|));
    assert p1.active ==> (key in p1.forwarded <==> key in p.forwarded);
    NothingBehind(p, p1);
  }

  lemma KeyEmits(p: Policy, key: int, down: bool, stop: Option<nat>)
    requires PolicyInv(p)
    ensures Behind(p, KeyEvent(p, key, down, stop).policy.emitted, Passes(p, DoKey(key, down, stop)))
  {
    hide Flushed, Emitted, Modifier, Ordinary, Ordinaries, Chord, Chorded, IsModifier;
    ChordCodes(p.keys, key);
    ModifierCodes(key);
    var p0 := p.(keys := if down then p.keys + {key} else p.keys - {key});
    if down && key in HOTKEYS && Chord(p0.keys) {
    } else if key in p.swallowed || key in p.ignored || !p.active {
    } else if key in RESERVED {
      ModifierEmits(p0, key, down, stop);
    } else {
      OrdinaryEmits(p, key, down, stop);
    }
  }

  lemma MouseEmits(p: Policy, op: Op, a: int, b: int, stop: Option<nat>)
    requires PolicyInv(p) && (op.Move? || op.Button? || op.Scroll?)
    ensures Behind(p, MouseEvent(p, op, a, b, stop).policy.emitted, Passes(p, DoMouse(op, a, b, stop)))
  {
    hide Flushed, Emitted, Ordinaries, IsModifier, PolicyInv, Downs, Behind, Elements, HeldAfter;
    var p1 := if op.Button? then p.(buttons := if b != 0 then p.buttons + {a} else p.buttons - {a}) else p;
    if p.active && !(op.Button? && a in p.ignoredButtons) {
      FlushBefore(p, p.keys, p1.buttons, stop);
      assert p1 == p.(keys := p.keys, buttons := p1.buttons);
      EmitsBehind(p, Flushed(p1, stop), Plain(op, a, b), stop == Some(|p.pending|));
    } else {
      NothingBehind(p, p1);
    }
  }

  lemma ActEmits(p: Policy, act: Act)
    requires PolicyInv(p) && !act.DoActivate?
    ensures Behind(p, Apply(p, act).emitted, Passes(p, act))
  {
    hide KeyEvent, MouseEvent;
    match act
    case DoPause =>
    case DoKey(key, down, stop) => KeyEmits(p, key, down, stop);
    case DoMouse(op, a, b, stop) => if op.Move? || op.Button? || op.Scroll? { MouseEmits(p, op, a, b, stop); }
    case _ =>
  }

  // ---- Every run ----

  /** In every run, what was handed over since the latest activation is, modifiers apart, exactly what arrived to be
      forwarded: every move and scroll with its arguments, every button, key, repeat and release, in order. */
  lemma {:induction false} EmittedInOrder(acts: seq<Act>)
    ensures Ordinaries(Run(acts).emitted) == Arrived(acts)
  {
    if acts != [] {
      EmittedInOrder(Front(acts));
      PolicyAlways(Front(acts));
      if !Last(acts).DoActivate? {
        ActEmits(Run(Front(acts)), Last(acts));
      }
    }
  }

  lemma {:induction false} OrdinariesTravel(es: seq<Event>)
    ensures TravelOf(Ordinaries(es)) == TravelOf(es)
  {
    if es != [] {
      OrdinariesTravel(Front(es));
      var xs := Ordinaries(Front(es));
      assert Front(xs + [Last(es)]) == xs && xs + [] == xs;
    }
  }

  lemma {:induction false} TravelArrived(acts: seq<Act>)
    ensures TravelOf(Run(acts).emitted) == TravelOf(Arrived(acts))
  {
    EmittedInOrder(acts);
    OrdinariesTravel(Run(acts).emitted);
  }

  /** In every run, when a key, button, move or scroll is handed over, the receiver already holds every modifier that
      is down; apart from F9 and F10 it holds exactly the keys down before the event that are neither ignored nor
      swallowed. */
  lemma {:induction false} ModifiersComeFirst(acts: seq<Act>, act: Act)
    requires Passes(Run(acts), act).Some?
    ensures var p, es := Run(acts), Run(acts + [act]).emitted;
            && es != [] && Last(es) == Passes(p, act).value
            && forall k :: k != 0x78 && k != 0x79 ==>
                 (k in HeldAfter(Front(es)).keys <==> k in p.keys && k !in p.ignored && k !in p.swallowed)
  {
    var p := Run(acts);
    PolicyAlways(acts);
    RunStep(acts, act);
    ActEmits(p, act);
    EmitDowns(p.emitted, p.pending);
    var es := Run(acts + [act]).emitted;
    assert Front(es) == p.emitted + Downs(p.pending);
    forall k | k != 0x78 && k != 0x79
      ensures k in HeldAfter(Front(es)).keys <==> k in p.keys && k !in p.ignored && k !in p.swallowed
    {
      assert Equation(p, k);
      assert k in p.pending <==> k in Elements(p.pending);
    }
  }

  /** In every run the sets of keys and buttons are those physically down. */
  lemma {:induction false} SeesWhatIsDown(acts: seq<Act>)
    ensures Run(acts).keys == KeysDown(acts) && Run(acts).buttons == ButtonsDown(acts)
  {
    if acts != [] {
      SeesWhatIsDown(Front(acts));
      PolicyAlways(Front(acts));
      DownStep(Run(Front(acts)), Last(acts));
    }
  }

  lemma ModifierKeys(p: Policy, key: int, down: bool, stop: Option<nat>)
    ensures Modifier(p, key, down, stop).0.keys == p.keys && Modifier(p, key, down, stop).0.buttons == p.buttons
  {
  }

  lemma KeyDownStep(p: Policy, key: int, down: bool, stop: Option<nat>)
    requires PolicyInv(p)
    ensures var q := KeyEvent(p, key, down, stop).policy;
            q.keys == (if down then p.keys + {key} else p.keys - {key}) && q.buttons == p.buttons
  {
    hide Flushed, FlushedFrom, PolicyInv, Chord, Modifier, Elements, StopsWithin;
    var keys := if down then p.keys + {key} else p.keys - {key};
    ModifierKeys(p.(keys := keys), key, down, stop);
    if p.active {
      FlushKeeps(p, stop);
      FlushIgnores(p, keys, p.buttons, stop);
      assert p.(keys := keys) == p.(keys := keys, buttons := p.buttons);
    }
  }

  lemma ButtonDownStep(p: Policy, op: Op, a: int, b: int, stop: Option<nat>)
    requires PolicyInv(p)
    ensures var q := MouseEvent(p, op, a, b, stop).policy;
            && q.keys == p.keys
            && q.buttons == if !op.Button? then p.buttons else if b != 0 then p.buttons + {a} else p.buttons - {a}
  {
    var buttons := if !op.Button? then p.buttons else if b != 0 then p.buttons + {a} else p.buttons - {a};
    if p.active {
      FlushKeeps(p, stop);
      FlushIgnores(p, p.keys, buttons, stop);
      assert p.(buttons := buttons) == p.(keys := p.keys, buttons := buttons);
    }
    hide Flushed, FlushedFrom, PolicyInv;
  }

  lemma DownStep(p: Policy, act: Act)
    requires PolicyInv(p)
    ensures var q := Apply(p, act);
            && q.keys == (if !act.DoKey? then p.keys else if act.down then p.keys + {act.key} else p.keys - {act.key})
            && q.buttons == if !act.DoMouse? || !act.op.Button? then p.buttons
                            else if act.b != 0 then p.buttons + {act.a} else p.buttons - {act.a}
  {
    hide KeyEvent, MouseEvent, PolicyInv;
    match act
    case DoKey(key, down, stop) => KeyDownStep(p, key, down, stop);
    case DoMouse(op, a, b, stop) => ButtonDownStep(p, op, a, b, stop);
    case _ =>
  }

  /** In every run: pressing F9 with Ctrl and Alt down calls toggle and F10 calls stop, once per press; nothing else
      calls either. */
  lemma {:induction false} ChordFires(acts: seq<Act>, key: int, down: bool, stop: Option<nat>)
    ensures KeyEvent(Run(acts), key, down, stop).call
            == if down && key !in KeysDown(acts) && Chorded(KeysDown(acts), key) then
                 (if key == 0x78 then Toggle else Stop)
               else NoCall
  {
    SeesWhatIsDown(acts);
    ChordCodes(KeysDown(acts), key);
    hide Chord, Chorded, Modifier, Ordinary;
  }

  /** While inactive the mouse is left alone, and a key is kept from the local applications exactly when it is a
      chord or still swallowed. */
  lemma PausedRouting(p: Policy, key: int, down: bool, op: Op, a: int, b: int, stop: Option<nat>)
    requires !p.active
    ensures !MouseEvent(p, op, a, b, stop).suppress
    ensures KeyEvent(p, key, down, stop).suppress <==> (down && Chorded(p.keys, key)) || key in p.swallowed
  {
    ChordCodes(p.keys, key);
    hide Chord, Chorded;
  }

  /** In every run: a modifier that goes down and up with nothing in between still reaches the target, as a press and
      a release. */
  lemma {:induction false} TapReaches(acts: seq<Act>, key: int)
    requires Run(acts).active && key in Run(acts).pending && key !in Run(acts).ignored && key !in Run(acts).swallowed
    ensures Run(acts + [DoKey(key, false, None)]).emitted
            == Run(acts).emitted + [Event(Key, 0, 0, 0, 0, key, 1), Event(Key, 0, 0, 0, 0, key, 0)]
  {
    PolicyAlways(acts);
    RunStep(acts, DoKey(key, false, None));
    assert key in Elements(Run(acts).pending);
  }

  /** In every run, a key that was down at the activation, and so is held by a local application, gets its release there
      after a pause (F9 and F10 apart). */
  lemma {:induction false} LocalReleasePasses(acts: seq<Act>, key: int, stop: Option<nat>)
    requires Run(acts).active && key in Run(acts).ignored && key !in Run(acts).swallowed && key != 0x78 && key != 0x79
    ensures !KeyEvent(Run(acts + [DoPause]), key, false, stop).suppress
  {
    PolicyAlways(acts);
    RunStep(acts, DoPause);
    assert Equation(Run(acts), key);
  }

  // ---- A key held across a pause and a new activation ----

  /** Letting a key go ends both marks, unless it carries both: then it stays ignored. */
  lemma ReleaseForgets(p: Policy, key: int, stop: Option<nat>)
    requires PolicyInv(p)
    ensures var q := KeyEvent(p, key, false, stop).policy;
            && (key in q.ignored <==> key in p.ignored && key in p.swallowed)
            && (q.active ==> key !in q.swallowed)
  {
    if p.active {
      FlushKeeps(p, stop);
      FlushIgnores(p, p.keys - {key}, p.buttons, stop);
    }
    hide Flushed, FlushedFrom, PolicyInv;
  }

  /** A key forwarded, paused while down, and still down at the next activation is ignored even after it has been
      let go: its next press reaches neither side. */
  lemma HeldAcrossActivations()
    ensures var acts := [DoActivate] + [DoKey(65, true, None)] + [DoPause] + [DoActivate] + [DoKey(65, false, None)];
            && Run(acts).active && 65 !in KeysDown(acts) && Passes(Run(acts), DoKey(65, true, None)).None?
            && KeyEvent(Run(acts), 65, true, None).suppress
  {
    var a1, a2 := [DoActivate], [DoActivate] + [DoKey(65, true, None)];
    var a3, a4 := a2 + [DoPause], a2 + [DoPause] + [DoActivate];
    RunStep([], DoActivate);
    assert [] + [DoActivate] == a1;
    RunStep(a1, DoKey(65, true, None));
    RunStep(a2, DoPause);
    RunStep(a3, DoActivate);
    RunStep(a4, DoKey(65, false, None));
    var p1 := Activated(IDLE);
    var p2 := p1.(keys := {65}, forwarded := {65}, emitted := [Plain(Key, 65, 1)]);
    assert KeyEvent(p1, 65, true, None).policy == p2;
    var p4 := Activated(Paused(p2));
    assert p4.ignored == {65} && p4.swallowed == {65};
    SeesWhatIsDown(a4 + [DoKey(65, false, None)]);
  }
}
