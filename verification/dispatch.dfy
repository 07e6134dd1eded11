/** The firing rules of the trigger-table key handler, as predicates over the
    pressed set before an event and the event itself, and what they imply
    over single events and over whole traces of events. */
module Dispatch {
  import opened Keys

  /** When a binding fires. */
  datatype Trigger = OnPress | OnRelease | OnHold | OnRepeat

  /** A registered binding's value: a description and the callback to run. */
  datatype KeyAction = KeyAction(description: string, action: ActionId)

  /** What a binding is registered for: one key, or a combination of keys
      that is identified by its set of keys (so order and repeats do not matter). */
  datatype Target = Single(key: Key) | Combo(keys: set<Key>)

  /** One table entry: the trigger selects the table, the target the entry in it. */
  datatype Binding = Binding(trigger: Trigger, target: Target)

  /** Whether the listener scans the tables of trigger `t` on an event of kind `kind`:
      press and repeat tables on key-down, release tables on key-up, hold tables never. */
  predicate ScannedOn(t: Trigger, kind: EventType)
  {
    match t
    case OnPress => kind == KeyDown
    case OnRepeat => kind == KeyDown
    case OnRelease => kind == KeyUp
    case OnHold => false
  }

  /** The test applied to a combination `c` of the table of trigger `t`, given the
      pressed set before and after the event: press fires on entering "all keys
      held", release on leaving it, repeat and hold whenever all keys are held. */
  predicate ComboCondition(t: Trigger, c: set<Key>, before: set<Key>, after: set<Key>)
  {
    match t
    case OnPress => c <= after && !(c <= before)
    case OnRelease => c <= before && !(c <= after)
    case OnRepeat => c <= after
    case OnHold => c <= after
  }

  /** The firing rule of the event listener: whether binding `b` (if registered)
      fires when event `e` arrives while `before` is the pressed set. */
  predicate Fires(b: Binding, before: set<Key>, e: KeyEvent)
  {
    ScannedOn(b.trigger, e.kind) &&
    match b.target
    case Single(k) => k == e.key && (b.trigger == OnPress ==> k !in before)
    case Combo(c) => ComboCondition(b.trigger, c, before, PressedAfter(before, e))
  }

  /** The firing rule of one hold tick with pressed set `pressed`. */
  predicate HoldFires(b: Binding, pressed: set<Key>)
  {
    b.trigger == OnHold &&
    match b.target
    case Single(k) => k in pressed
    case Combo(c) => c <= pressed
  }

  /** The position of a binding's table in the order the handler scans its tables:
      single-key press/release first, then single-key repeat/hold, then the
      press/release combinations, then the repeat/hold combinations. */
  function Phase(b: Binding): nat
  {
    (if b.target.Combo? then 2 else 0) + (if b.trigger == OnRepeat || b.trigger == OnHold then 1 else 0)
  }

  /** Bindings appear in `s` in the order of their tables. */
  predicate InPhaseOrder(s: seq<Binding>)
  {
    forall i, j :: 0 <= i < j < |s| ==> Phase(s[i]) <= Phase(s[j])
  }

  // ---------------------------------------------------------------------------
  // Single events

  /** A single-key press binding fires on a key-down exactly when the key was not
      yet held, so a second key-down without a key-up does not re-fire it. */
  lemma SinglePressIsEdge(before: set<Key>, k: Key)
    ensures Fires(Binding(OnPress, Single(k)), before, KeyEvent(k, KeyDown)) <==> k !in before
    ensures !Fires(Binding(OnPress, Single(k)), PressedAfter(before, KeyEvent(k, KeyDown)), KeyEvent(k, KeyDown))
  {
  }

  /** A single-key repeat binding fires on every key-down of its key, held or not. */
  lemma SingleRepeatIsLevel(before: set<Key>, k: Key)
    ensures Fires(Binding(OnRepeat, Single(k)), before, KeyEvent(k, KeyDown))
  {
  }

  /** A single-key release binding fires on every key-up of its key, even one that was not held. */
  lemma SingleReleaseUnconditional(before: set<Key>, k: Key)
    ensures Fires(Binding(OnRelease, Single(k)), before, KeyEvent(k, KeyUp))
  {
  }

  /** A press combination fires on the key-down of `k` exactly when `k` belongs to
      it, was not held, and every other key of it was held. */
  lemma PressComboFiresOnCompletion(c: set<Key>, before: set<Key>, k: Key)
    ensures Fires(Binding(OnPress, Combo(c)), before, KeyEvent(k, KeyDown)) <==>
              k in c && k !in before && c - {k} <= before
  {
  }

  /** Once a press combination has fired, no further key-down re-fires it
      (a third, unrelated key pressed afterwards included). */
  lemma PressComboNoRefire(c: set<Key>, before: set<Key>, k1: Key, k2: Key)
    requires Fires(Binding(OnPress, Combo(c)), before, KeyEvent(k1, KeyDown))
    ensures !Fires(Binding(OnPress, Combo(c)), PressedAfter(before, KeyEvent(k1, KeyDown)), KeyEvent(k2, KeyDown))
  {
  }

  /** A release combination fires on the key-up of `k` exactly when it was fully
      held and `k` belongs to it. */
  lemma ReleaseComboFiresOnBreak(c: set<Key>, before: set<Key>, k: Key)
    ensures Fires(Binding(OnRelease, Combo(c)), before, KeyEvent(k, KeyUp)) <==> k in c && c <= before
  {
  }

  /** Once a release combination has fired, releasing another of its keys does not re-fire it. */
  lemma ReleaseComboNoRefire(c: set<Key>, before: set<Key>, k1: Key, k2: Key)
    requires Fires(Binding(OnRelease, Combo(c)), before, KeyEvent(k1, KeyUp))
    ensures !Fires(Binding(OnRelease, Combo(c)), PressedAfter(before, KeyEvent(k1, KeyUp)), KeyEvent(k2, KeyUp))
  {
  }

  /** A repeat combination fires on any key-down while all its keys are held,
      including the key-down of a key outside the combination. */
  lemma RepeatComboIsLevel(c: set<Key>, before: set<Key>, k: Key)
    ensures Fires(Binding(OnRepeat, Combo(c)), before, KeyEvent(k, KeyDown)) <==> c <= before + {k}
  {
  }

  /** The listener never fires a hold binding. */
  lemma ListenNeverFiresHold(target: Target, before: set<Key>, e: KeyEvent)
    ensures !Fires(Binding(OnHold, target), before, e)
  {
  }

  // ---------------------------------------------------------------------------
  // Traces

  /** How many events of `events` fire binding `b`, starting from pressed set `pressed`. */
  function Firings(b: Binding, pressed: set<Key>, events: seq<KeyEvent>): nat
    decreases |events|
  {
    if events == [] then 0
    else
      var init := events[..|events| - 1];
      Firings(b, pressed, init) + (if Fires(b, Run(pressed, init), events[|events| - 1]) then 1 else 0)
  }

  /** 1 when all keys of `c` are held in `s`, else 0. */
  function Held(c: set<Key>, s: set<Key>): int
  {
    if c <= s then 1 else 0
  }

  /** On one event, the press and release bindings of a combination account
      exactly for the change in whether it is fully held. */
  lemma ComboEdgeStep(c: set<Key>, before: set<Key>, e: KeyEvent)
    ensures (if Fires(Binding(OnPress, Combo(c)), before, e) then 1 else 0)
          - (if Fires(Binding(OnRelease, Combo(c)), before, e) then 1 else 0)
         == Held(c, PressedAfter(before, e)) - Held(c, before)
  {
  }

  /** Over any trace, the press and release bindings of the same combination
      alternate: the press firings exceed the release firings by the change in
      whether the combination is fully held, so they never differ by more than one. */
  lemma {:induction false} PressReleaseAlternate(c: set<Key>, pressed: set<Key>, events: seq<KeyEvent>)
    ensures Firings(Binding(OnPress, Combo(c)), pressed, events) - Firings(Binding(OnRelease, Combo(c)), pressed, events)
         == Held(c, Run(pressed, events)) - Held(c, pressed)
    ensures 0 <= Firings(Binding(OnPress, Combo(c)), pressed, events) - Firings(Binding(OnRelease, Combo(c)), pressed, events)
               + Held(c, pressed) <= 1
    decreases |events|
  {
    if events != [] {
      var init := events[..|events| - 1];
      PressReleaseAlternate(c, pressed, init);
      ComboEdgeStep(c, Run(pressed, init), events[|events| - 1]);
    }
  }

  /** The combination scenario: with {a, b} bound to press, pressing a then b fires
      it once, pressing a third key does not re-fire it, and releasing and
      re-pressing a (b still held) fires it once more. */
  lemma PressComboScenario(a: Key, b: Key, x: Key)
    requires a != b && a != x && b != x
    ensures var events := [KeyEvent(a, KeyDown), KeyEvent(b, KeyDown), KeyEvent(x, KeyDown),
                           KeyEvent(a, KeyUp), KeyEvent(a, KeyDown)];
            var combo := Binding(OnPress, Combo({a, b}));
            && Firings(combo, {}, events[..1]) == 0
            && Firings(combo, {}, events[..2]) == 1
            && Firings(combo, {}, events[..4]) == 1
            && Firings(combo, {}, events) == 2
  {
    var events := [KeyEvent(a, KeyDown), KeyEvent(b, KeyDown), KeyEvent(x, KeyDown),
                   KeyEvent(a, KeyUp), KeyEvent(a, KeyDown)];
    assert events[..5][..4] == events[..4];
    assert events[..4][..3] == events[..3];
    assert events[..3][..2] == events[..2];
    assert events[..2][..1] == events[..1];
    assert events[..1][..0] == [];
    assert Run({}, events[..1]) == {a};
    assert Run({}, events[..2]) == {a, b};
    assert Run({}, events[..3]) == {a, b, x};
    assert Run({}, events[..4]) == {b, x};
    assert events[..5] == events;
  }

  /** The release scenario: with {a, b} bound to release and both held, releasing a
      fires it once and releasing b afterwards does not fire it again. */
  lemma ReleaseComboScenario(a: Key, b: Key)
    requires a != b
    ensures var events := [KeyEvent(a, KeyUp), KeyEvent(b, KeyUp)];
            var combo := Binding(OnRelease, Combo({a, b}));
            && Firings(combo, {a, b}, events[..1]) == 1
            && Firings(combo, {a, b}, events) == 1
  {
  }
}
