/** Keys, key events and the set of currently pressed keys, shared by both handlers.

    A key is whatever the UI framework supplies; the handlers use it only for
    equality and as a set or map key. A callback is foreign code, so it is an
    opaque action identifier: two identifiers are equal exactly when they denote
    the same callback object. */
module Keys {

  /** A physical or logical keyboard key. */
  type Key(==, !new)

  /** The identity of a zero-argument callback. */
  type ActionId(==, !new)

  datatype Option<+T> = None | Some(value: T)

  datatype EventType = KeyDown | KeyUp

  /** A raw key event, reduced to the key and the direction. */
  datatype KeyEvent = KeyEvent(key: Key, kind: EventType)

  /** No element of `s` occurs twice: every binding fires at most once. */
  predicate Distinct<T(==)>(s: seq<T>)
  {
    forall i, j :: 0 <= i < j < |s| ==> s[i] != s[j]
  }

  /** The pressed set after one event: a key-down adds the key, a key-up removes it. */
  function PressedAfter(pressed: set<Key>, e: KeyEvent): (after: set<Key>)
    ensures e.key in after <==> e.kind == KeyDown
    ensures forall k :: k != e.key ==> (k in after <==> k in pressed)
    ensures e.kind == KeyDown ==> pressed <= after
    ensures e.kind == KeyUp ==> after <= pressed
  {
    match e.kind
    case KeyDown => pressed + {e.key}
    case KeyUp => pressed - {e.key}
  }

  /** A second key-down for a key already held leaves the pressed set as it is. */
  lemma KeyDownIdempotent(pressed: set<Key>, k: Key)
    requires k in pressed
    ensures PressedAfter(pressed, KeyEvent(k, KeyDown)) == pressed
  {
  }

  /** Pressing and then releasing a key that was not held restores the pressed set. */
  lemma DownUpRestores(pressed: set<Key>, k: Key)
    requires k !in pressed
    ensures PressedAfter(PressedAfter(pressed, KeyEvent(k, KeyDown)), KeyEvent(k, KeyUp)) == pressed
  {
  }

  /** The pressed set after a whole trace of events, starting from `pressed`. */
  function Run(pressed: set<Key>, events: seq<KeyEvent>): set<Key>
    decreases |events|
  {
    if events == [] then pressed
    else PressedAfter(Run(pressed, events[..|events| - 1]), events[|events| - 1])
  }

  /** The direction of the last event in `events` that concerns key `k`, if any. */
  function LastEventOn(events: seq<KeyEvent>, k: Key): Option<EventType>
    decreases |events|
  {
    if events == [] then None
    else if events[|events| - 1].key == k then Some(events[|events| - 1].kind)
    else LastEventOn(events[..|events| - 1], k)
  }

  /** A key is held after a trace exactly when the last event on it was a key-down,
      or when no event touched it and it was held at the start. */
  lemma {:induction false} RunMembership(pressed: set<Key>, events: seq<KeyEvent>, k: Key)
    ensures k in Run(pressed, events) <==>
              match LastEventOn(events, k)
              case Some(kind) => kind == KeyDown
              case None => k in pressed
    decreases |events|
  {
    if events != [] {
      RunMembership(pressed, events[..|events| - 1], k);
    }
  }
}
