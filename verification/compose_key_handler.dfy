/** The trigger-table key handler and its trigger-scoped registration builder.

    The handler owns the pressed set and eight binding tables, {press, release,
    hold, repeat} x {single key, combination}. `Listen` is the event entry point,
    `HoldTick` one iteration of the hold loop. A fired binding is reported as a
    `Binding` (its table and its entry); the callback it runs is that entry's
    `KeyAction`, which neither `Listen` nor `HoldTick` changes. */
module ComposeKeyHandler {
  import opened Keys
  import opened Dispatch

  /** The description a registration gets when the caller gives none. */
  const NoDescription: string := "No description"

  /** What the hold loop waits for between two ticks. */
  datatype Wait = Sleep(millis: nat) | NextFrame

  /** The pause between hold ticks: a fixed sleep of 1000 / frequency milliseconds
      (integer division) for a positive frequency, otherwise the next display frame. */
  function HoldWait(holdTriggerFrequency: int): (w: Wait)
    ensures w.NextFrame? <==> holdTriggerFrequency <= 0
    ensures w.Sleep? ==> w.millis * holdTriggerFrequency <= 1000 < (w.millis + 1) * holdTriggerFrequency
  {
    if holdTriggerFrequency > 0 then Sleep(1000 / holdTriggerFrequency) else NextFrame
  }

  /** The pause as the hold loop computes it: for a non-positive frequency the
      value handed to `delay` is the frame time `withFrameMillis` yields, which
      is a reading of the frame clock in milliseconds, not the length of a frame. */
  function HoldDelayAsWritten(holdTriggerFrequency: int, frameTimeMillis: int): (d: int)
    ensures holdTriggerFrequency > 0 ==> d * holdTriggerFrequency <= 1000 < (d + 1) * holdTriggerFrequency
    ensures holdTriggerFrequency <= 0 ==> d == frameTimeMillis
  {
    if holdTriggerFrequency > 0 then 1000 / holdTriggerFrequency else frameTimeMillis
  }

  /** With the frame-rate setting, a frame clock that reads one hour makes the
      loop sleep for an hour between hold ticks instead of waiting one frame. */
  lemma FrameDelayIsClockReading()
    ensures HoldDelayAsWritten(0, 3_600_000) == 3_600_000
    ensures HoldWait(0) == NextFrame
  {
  }

  /** The correction changes nothing for a positive frequency: there the intended
      wait is exactly the sleep the code as written computes, whatever the frame clock reads. */
  lemma DelaysAgreeForPositiveFrequency(holdTriggerFrequency: int, frameTimeMillis: int)
    requires holdTriggerFrequency > 0
    ensures HoldWait(holdTriggerFrequency) == Sleep(HoldDelayAsWritten(holdTriggerFrequency, frameTimeMillis))
  {
  }

  /** One pass over a combination table (a `forEach` in unspecified order): the
      combinations of `table` that pass the test of `trigger`, each reported once. */
  method ScanCombos(table: map<set<Key>, KeyAction>, trigger: Trigger, before: set<Key>, after: set<Key>)
    returns (fired: seq<Binding>)
    ensures Distinct(fired)
    ensures forall b :: b in fired <==>
              b.trigger == trigger && b.target.Combo? && b.target.keys in table
              && ComboCondition(trigger, b.target.keys, before, after)
  {
    fired := [];
    var todo := table.Keys;
    while todo != {}
      invariant todo <= table.Keys
      invariant Distinct(fired)
      invariant forall b :: b in fired <==>
                  b.trigger == trigger && b.target.Combo? && b.target.keys in table && b.target.keys !in todo
                  && ComboCondition(trigger, b.target.keys, before, after)
      decreases todo
    {
      var c :| c in todo;
      if ComboCondition(trigger, c, before, after) {
        fired := fired + [Binding(trigger, Combo(c))];
      }
      todo := todo - {c};
    }
  }

  /** One pass over a single-key table: the keys of `table` that are held in `pressed`. */
  method ScanHeldKeys(table: map<Key, KeyAction>, trigger: Trigger, pressed: set<Key>)
    returns (fired: seq<Binding>)
    ensures Distinct(fired)
    ensures forall b :: b in fired <==>
              b.trigger == trigger && b.target.Single? && b.target.key in table && b.target.key in pressed
  {
    fired := [];
    var todo := table.Keys;
    while todo != {}
      invariant todo <= table.Keys
      invariant Distinct(fired)
      invariant forall b :: b in fired <==>
                  b.trigger == trigger && b.target.Single? && b.target.key in table && b.target.key !in todo
                  && b.target.key in pressed
      decreases todo
    {
      var k :| k in todo;
      if k in pressed {
        fired := fired + [Binding(trigger, Single(k))];
      }
      todo := todo - {k};
    }
  }

  /** Appending bindings that all lie in phase `p` to distinct, ordered bindings of
      earlier phases keeps the sequence distinct and in phase order. */
  lemma AppendLaterPhase(s: seq<Binding>, t: seq<Binding>, p: nat)
    requires Distinct(s) && InPhaseOrder(s) && forall x :: x in s ==> Phase(x) < p
    requires Distinct(t) && forall y :: y in t ==> Phase(y) == p
    ensures Distinct(s + t) && InPhaseOrder(s + t)
    ensures forall z :: z in s + t ==> Phase(z) <= p
  {
  }

  class KeyHandler {
    /** The value `Listen` reports back: whether the event counts as handled. */
    const consume: bool
    /** Hold ticks per second; zero or less means one tick per display frame. */
    const holdTriggerFrequency: int

    var pressedKeys: set<Key>

    var onPressKeys: map<Key, KeyAction>
    var onReleaseKeys: map<Key, KeyAction>
    var onHoldKeys: map<Key, KeyAction>
    var onRepeatKeys: map<Key, KeyAction>

    var onPressCombos: map<set<Key>, KeyAction>
    var onReleaseCombos: map<set<Key>, KeyAction>
    var onHoldCombos: map<set<Key>, KeyAction>
    var onRepeatCombos: map<set<Key>, KeyAction>

    /** The single-key table of a trigger. */
    function KeyTable(trigger: Trigger): map<Key, KeyAction>
      reads this
    {
      match trigger
      case OnPress => onPressKeys
      case OnRelease => onReleaseKeys
      case OnHold => onHoldKeys
      case OnRepeat => onRepeatKeys
    }

    /** The combination table of a trigger. */
    function ComboTable(trigger: Trigger): map<set<Key>, KeyAction>
      reads this
    {
      match trigger
      case OnPress => onPressCombos
      case OnRelease => onReleaseCombos
      case OnHold => onHoldCombos
      case OnRepeat => onRepeatCombos
    }

    /** Binding `b` has an entry in its table. */
    predicate Registered(b: Binding)
      reads this
    {
      match b.target
      case Single(k) => k in KeyTable(b.trigger)
      case Combo(c) => c in ComboTable(b.trigger)
    }

    /** The single-key table of `trigger` is now `updated`; the pressed set and
        every other table are as they were. */
    twostate predicate KeysUpdated(trigger: Trigger, updated: map<Key, KeyAction>)
      reads this
    {
      && pressedKeys == old(pressedKeys)
      && KeyTable(trigger) == updated
      && (forall t :: t != trigger ==> KeyTable(t) == old(KeyTable(t)))
      && (forall t :: ComboTable(t) == old(ComboTable(t)))
    }

    /** The combination table of `trigger` is now `updated`; the pressed set and
        every other table are as they were. */
    twostate predicate CombosUpdated(trigger: Trigger, updated: map<set<Key>, KeyAction>)
      reads this
    {
      && pressedKeys == old(pressedKeys)
      && ComboTable(trigger) == updated
      && (forall t :: t != trigger ==> ComboTable(t) == old(ComboTable(t)))
      && (forall t :: KeyTable(t) == old(KeyTable(t)))
    }

    /** A new handler holds no keys and has eight empty tables. */
    constructor (consume: bool := true, holdTriggerFrequency: int := 60)
      ensures this.consume == consume && this.holdTriggerFrequency == holdTriggerFrequency
      ensures pressedKeys == {}
      ensures forall t :: KeyTable(t) == map[] && ComboTable(t) == map[]
    {
      this.consume := consume;
      this.holdTriggerFrequency := holdTriggerFrequency;
      pressedKeys := {};
      onPressKeys, onReleaseKeys, onHoldKeys, onRepeatKeys := map[], map[], map[], map[];
      onPressCombos, onReleaseCombos, onHoldCombos, onRepeatCombos := map[], map[], map[], map[];
    }

    /** Binds `key` under `trigger`, replacing any earlier binding of that key in
        that table; the description lookup then yields the new description. */
    method AddKey(key: Key, trigger: Trigger, description: string := NoDescription, action: ActionId)
      modifies this
      ensures KeysUpdated(trigger, old(KeyTable(trigger))[key := KeyAction(description, action)])
      ensures GetDescription(key, trigger) == Some(description)
    {
      match trigger
      case OnPress => onPressKeys := onPressKeys[key := KeyAction(description, action)];
      case OnRelease => onReleaseKeys := onReleaseKeys[key := KeyAction(description, action)];
      case OnHold => onHoldKeys := onHoldKeys[key := KeyAction(description, action)];
      case OnRepeat => onRepeatKeys := onRepeatKeys[key := KeyAction(description, action)];
    }

    /** Binds the combination `keySet` under `trigger`, replacing any earlier
        binding of the same set in that table. */
    method AddCombo(keySet: set<Key>, trigger: Trigger, description: string, action: ActionId)
      modifies this
      ensures CombosUpdated(trigger, old(ComboTable(trigger))[keySet := KeyAction(description, action)])
      ensures GetComboDescription(keySet, trigger) == Some(description)
    {
      match trigger
      case OnPress => onPressCombos := onPressCombos[keySet := KeyAction(description, action)];
      case OnRelease => onReleaseCombos := onReleaseCombos[keySet := KeyAction(description, action)];
      case OnHold => onHoldCombos := onHoldCombos[keySet := KeyAction(description, action)];
      case OnRepeat => onRepeatCombos := onRepeatCombos[keySet := KeyAction(description, action)];
    }

    /** The description bound to `key` under `trigger`, or None when there is no such binding. */
    function GetDescription(key: Key, trigger: Trigger): (r: Option<string>)
      reads this
      ensures r.Some? <==> key in KeyTable(trigger)
      ensures r.Some? ==> r.value == KeyTable(trigger)[key].description
    {
      match trigger
      case OnPress => if key in onPressKeys then Some(onPressKeys[key].description) else None
      case OnRelease => if key in onReleaseKeys then Some(onReleaseKeys[key].description) else None
      case OnHold => if key in onHoldKeys then Some(onHoldKeys[key].description) else None
      case OnRepeat => if key in onRepeatKeys then Some(onRepeatKeys[key].description) else None
    }

    /** The description bound to the combination `combination` under `trigger`,
        or None when there is no such binding. */
    function GetComboDescription(combination: set<Key>, trigger: Trigger): (r: Option<string>)
      reads this
      ensures r.Some? <==> combination in ComboTable(trigger)
      ensures r.Some? ==> r.value == ComboTable(trigger)[combination].description
    {
      match trigger
      case OnPress => if combination in onPressCombos then Some(onPressCombos[combination].description) else None
      case OnRelease => if combination in onReleaseCombos then Some(onReleaseCombos[combination].description) else None
      case OnHold => if combination in onHoldCombos then Some(onHoldCombos[combination].description) else None
      case OnRepeat => if combination in onRepeatCombos then Some(onRepeatCombos[combination].description) else None
    }

    /** A builder that registers press bindings on this handler. */
    method OnPress() returns (builder: KeyActionBuilder)
      ensures fresh(builder) && builder.handler == this && builder.trigger == Trigger.OnPress
    {
      builder := new KeyActionBuilder(this, Trigger.OnPress);
    }

    /** A builder that registers release bindings on this handler. */
    method OnRelease() returns (builder: KeyActionBuilder)
      ensures fresh(builder) && builder.handler == this && builder.trigger == Trigger.OnRelease
    {
      builder := new KeyActionBuilder(this, Trigger.OnRelease);
    }

    /** A builder that registers hold bindings on this handler. */
    method OnHold() returns (builder: KeyActionBuilder)
      ensures fresh(builder) && builder.handler == this && builder.trigger == Trigger.OnHold
    {
      builder := new KeyActionBuilder(this, Trigger.OnHold);
    }

    /** A builder that registers repeat bindings on this handler. */
    method OnRepeat() returns (builder: KeyActionBuilder)
      ensures fresh(builder) && builder.handler == this && builder.trigger == Trigger.OnRepeat
    {
      builder := new KeyActionBuilder(this, Trigger.OnRepeat);
    }

    /** The event entry point. It updates the pressed set, reports every
        registered binding the firing rule selects exactly once and in table
        order, leaves all eight tables alone, and always answers `consume`. */
    method Listen(event: KeyEvent) returns (consumed: bool, fired: seq<Binding>)
      modifies this`pressedKeys
      ensures pressedKeys == PressedAfter(old(pressedKeys), event)
      ensures consumed == consume
      ensures Distinct(fired) && InPhaseOrder(fired)
      ensures forall b :: b in fired <==> Registered(b) && Fires(b, old(pressedKeys), event)
    {
      match event.kind {
        case KeyDown => fired := HandleKeyDown(event.key);
        case KeyUp => fired := HandleKeyUp(event.key);
      }
      consumed := consume;
    }

    /** The key-down arm of `Listen`. */
    method HandleKeyDown(k: Key) returns (fired: seq<Binding>)
      modifies this`pressedKeys
      ensures pressedKeys == old(pressedKeys) + {k}
      ensures Distinct(fired) && InPhaseOrder(fired)
      ensures forall b :: b in fired <==> Registered(b) && Fires(b, old(pressedKeys), KeyEvent(k, KeyDown))
    {
      var previousPressedKeys := pressedKeys;
      if k !in previousPressedKeys {
        pressedKeys := previousPressedKeys + {k};
      }
      var single := KeyDownSingles(k, previousPressedKeys);
      var pressCombos := ScanCombos(onPressCombos, Trigger.OnPress, previousPressedKeys, pressedKeys);
      var repeatCombos := ScanCombos(onRepeatCombos, Trigger.OnRepeat, previousPressedKeys, pressedKeys);
      AppendLaterPhase(single, pressCombos, 2);
      AppendLaterPhase(single + pressCombos, repeatCombos, 3);
      fired := single + pressCombos + repeatCombos;
      forall b: Binding | b.target.Single?
        ensures b in fired <==> Registered(b) && Fires(b, previousPressedKeys, KeyEvent(k, KeyDown))
      {
        assert b !in pressCombos && b !in repeatCombos;
      }
      forall b: Binding | b.target.Combo?
        ensures b in fired <==> Registered(b) && Fires(b, previousPressedKeys, KeyEvent(k, KeyDown))
      {
        assert b !in single;
      }
    }

    /** The single-key part of the key-down arm: the press binding of `k` if `k`
        was not held in `before`, then the repeat binding of `k`. */
    method KeyDownSingles(k: Key, before: set<Key>) returns (single: seq<Binding>)
      ensures Distinct(single) && InPhaseOrder(single)
      ensures forall x :: x in single ==> Phase(x) < 2
      ensures forall b :: b in single <==> b.target.Single? && Registered(b) && Fires(b, before, KeyEvent(k, KeyDown))
    {
      single := [];
      if k in onPressKeys && k !in before {
        single := single + [Binding(Trigger.OnPress, Single(k))];
      }
      if k in onRepeatKeys {
        single := single + [Binding(Trigger.OnRepeat, Single(k))];
      }
    }

    /** The key-up arm of `Listen`. */
    method HandleKeyUp(k: Key) returns (fired: seq<Binding>)
      modifies this`pressedKeys
      ensures pressedKeys == old(pressedKeys) - {k}
      ensures Distinct(fired) && InPhaseOrder(fired)
      ensures forall b :: b in fired <==> Registered(b) && Fires(b, old(pressedKeys), KeyEvent(k, KeyUp))
    {
      var previousPressedKeys := pressedKeys;
      pressedKeys := pressedKeys - {k};
      var single: seq<Binding> := [];
      if k in onReleaseKeys {
        single := [Binding(Trigger.OnRelease, Single(k))];
      }
      var releaseCombos := ScanCombos(onReleaseCombos, Trigger.OnRelease, previousPressedKeys, pressedKeys);
      AppendLaterPhase(single, releaseCombos, 2);
      fired := single + releaseCombos;
      forall b: Binding | b.target.Single?
        ensures b in fired <==> Registered(b) && Fires(b, previousPressedKeys, KeyEvent(k, KeyUp))
      {
        assert b !in releaseCombos;
      }
      forall b: Binding | b.target.Combo?
        ensures b in fired <==> Registered(b) && Fires(b, previousPressedKeys, KeyEvent(k, KeyUp))
      {
        assert b !in single;
      }
    }

    /** One tick of the hold loop: every hold binding whose key, or all of whose
        keys, are held is reported once, single keys first; nothing changes. The
        loop then pauses for `wait` before the next tick. */
    method HoldTick() returns (fired: seq<Binding>, wait: Wait)
      ensures Distinct(fired) && InPhaseOrder(fired)
      ensures forall b :: b in fired <==> Registered(b) && HoldFires(b, pressedKeys)
      ensures wait == HoldWait(holdTriggerFrequency)
    {
      var keys := ScanHeldKeys(onHoldKeys, Trigger.OnHold, pressedKeys);
      var combos := ScanCombos(onHoldCombos, Trigger.OnHold, pressedKeys, pressedKeys);
      AppendLaterPhase([], keys, 1);
      assert [] + keys == keys;
      AppendLaterPhase(keys, combos, 3);
      fired := keys + combos;
      wait := HoldWait(holdTriggerFrequency);
    }
  }

  /** Registration scoped to one trigger: every call forwards to the handler
      with the builder's fixed trigger. */
  class KeyActionBuilder {
    const handler: KeyHandler
    const trigger: Trigger

    constructor (handler: KeyHandler, trigger: Trigger)
      ensures this.handler == handler && this.trigger == trigger
    {
      this.handler := handler;
      this.trigger := trigger;
    }

    /** Binds one key, exactly as the handler's `AddKey` with this builder's trigger. */
    method BindKey(key: Key, description: string := NoDescription, action: ActionId)
      modifies handler
      ensures handler.KeysUpdated(trigger, old(handler.KeyTable(trigger))[key := KeyAction(description, action)])
    {
      handler.AddKey(key, trigger, description, action);
    }

    /** Binds two keys individually to the same description and action: the
        effect of two `AddKey` calls in argument order. */
    method BindKeys2(key1: Key, key2: Key, description: string := NoDescription, action: ActionId)
      modifies handler
      ensures handler.KeysUpdated(trigger, old(handler.KeyTable(trigger))
                [key1 := KeyAction(description, action)][key2 := KeyAction(description, action)])
    {
      handler.AddKey(key1, trigger, description, action);
      handler.AddKey(key2, trigger, description, action);
    }

    /** Binds three keys individually to the same description and action: the
        effect of three `AddKey` calls in argument order. */
    method BindKeys3(key1: Key, key2: Key, key3: Key, description: string := NoDescription, action: ActionId)
      modifies handler
      ensures handler.KeysUpdated(trigger, old(handler.KeyTable(trigger))
                [key1 := KeyAction(description, action)][key2 := KeyAction(description, action)]
                [key3 := KeyAction(description, action)])
    {
      handler.AddKey(key1, trigger, description, action);
      handler.AddKey(key2, trigger, description, action);
      handler.AddKey(key3, trigger, description, action);
    }

    /** Binds the combination of two keys as one entry keyed by their set. */
    method BindCombo2(key1: Key, key2: Key, description: string := NoDescription, action: ActionId)
      modifies handler
      ensures handler.CombosUpdated(trigger, old(handler.ComboTable(trigger))[{key1, key2} := KeyAction(description, action)])
    {
      handler.AddCombo({key1, key2}, trigger, description, action);
    }

    /** Binds the combination of three keys as one entry keyed by their set. */
    method BindCombo3(key1: Key, key2: Key, key3: Key, description: string := NoDescription, action: ActionId)
      modifies handler
      ensures handler.CombosUpdated(trigger, old(handler.ComboTable(trigger))[{key1, key2, key3} := KeyAction(description, action)])
    {
      handler.AddCombo({key1, key2, key3}, trigger, description, action);
    }

    /** Binds the combination of four keys as one entry keyed by their set. */
    method BindCombo4(key1: Key, key2: Key, key3: Key, key4: Key, description: string := NoDescription, action: ActionId)
      modifies handler
      ensures handler.CombosUpdated(trigger, old(handler.ComboTable(trigger))[{key1, key2, key3, key4} := KeyAction(description, action)])
    {
      handler.AddCombo({key1, key2, key3, key4}, trigger, description, action);
    }
  }

  /** Argument order does not matter: `combo(a, b)` followed by `combo(b, a)`
      leaves one entry, holding the later description and action. */
  method ComboOrderIrrelevant(builder: KeyActionBuilder, a: Key, b: Key,
                              d1: string, a1: ActionId, d2: string, a2: ActionId)
    modifies builder.handler
    ensures builder.handler.ComboTable(builder.trigger)
         == old(builder.handler.ComboTable(builder.trigger))[{a, b} := KeyAction(d2, a2)]
    ensures builder.handler.GetComboDescription({b, a}, builder.trigger) == Some(d2)
  {
    builder.BindCombo2(a, b, d1, a1);
    builder.BindCombo2(b, a, d2, a2);
    assert {b, a} == {a, b};
  }

  /** Repeated arguments collapse: `combo(a, a)` binds the one-key set {a}, and
      without a description it is "No description". */
  method ComboRepeatedKeyCollapses(builder: KeyActionBuilder, a: Key, action: ActionId)
    modifies builder.handler
    ensures builder.handler.ComboTable(builder.trigger)
         == old(builder.handler.ComboTable(builder.trigger))[{a} := KeyAction("No description", action)]
  {
    builder.BindCombo2(a, a, action := action);
    assert {a, a} == {a};
  }

  /** Registering a key a second time under the same trigger replaces the first
      binding entirely: its callback can no longer fire. */
  method OverwriteReplaces(handler: KeyHandler, k: Key, trigger: Trigger,
                           d1: string, a1: ActionId, d2: string, a2: ActionId)
    modifies handler
    ensures k in handler.KeyTable(trigger) && handler.KeyTable(trigger)[k] == KeyAction(d2, a2)
    ensures handler.GetDescription(k, trigger) == Some(d2)
  {
    handler.AddKey(k, trigger, d1, a1);
    handler.AddKey(k, trigger, d2, a2);
  }

  /** Feeding a trace of events to `Listen` one by one leaves the pressed set at
      `Run` of the trace, and a registered binding fires on exactly `Firings` of
      its events, so the trace lemmas of the firing rules hold of the handler. */
  method Replay(handler: KeyHandler, events: seq<KeyEvent>, b: Binding) returns (count: nat)
    requires handler.Registered(b)
    modifies handler`pressedKeys
    ensures handler.pressedKeys == Run(old(handler.pressedKeys), events)
    ensures count == Firings(b, old(handler.pressedKeys), events)
  {
    count := 0;
    var i := 0;
    while i < |events|
      invariant 0 <= i <= |events|
      invariant handler.Registered(b)
      invariant handler.pressedKeys == Run(old(handler.pressedKeys), events[..i])
      invariant count == Firings(b, old(handler.pressedKeys), events[..i])
    {
      var _, fired := handler.Listen(events[i]);
      assert events[..i + 1][..i] == events[..i];
      if b in fired {
        count := count + 1;
      }
      i := i + 1;
    }
    assert events[..i] == events;
  }
}
