# compose-keyhandler, modelled in Dafny

This project models the key-event state machine of compose-keyhandler, a
key-binding helper for Compose UIs. It covers two handlers.

- **The trigger-table `KeyHandler`** keeps the set of pressed keys and eight
  binding tables: {press, release, hold, repeat} x {single key, combination}.
  Each table maps a key or a key set to a `KeyAction`, which is a description
  plus a callback. `listen` takes one key event. It updates the pressed set and
  fires the bindings the event selects:
  - single-key press bindings fire on the edge, when the key was not yet held;
  - single-key repeat bindings fire on every key-down;
  - single-key release bindings fire on every key-up;
  - press combinations fire when "all keys held" becomes true;
  - release combinations fire when it becomes false;
  - repeat combinations fire on every key-down while all their keys are held.

  The hold loop fires the hold bindings of the held keys and combinations once
  per tick. `KeyActionBuilder` fixes one trigger and forwards registrations to
  the handler.
- **The older `KeyHandler`** keeps a pressed set, a growing set of one-entry
  maps key -> callback, and `activate`, which runs every binding whose key is held.

Modules:

- `Keys` (keys.dfy): keys, callbacks and key events. It holds the pressed-set
  update shared by both handlers, plus traces of events.
- `Dispatch` (dispatch.dfy): triggers, bindings and the firing rules as
  predicates on the pressed set before an event and the event itself. It also
  holds the single-event and whole-trace properties of those rules.
- `ComposeKeyHandler` (compose_key_handler.dfy): the trigger-table handler and
  the builder, as classes whose methods update fields in place.
- `LegacyKeyHandler` (legacy_key_handler.dfy): the older handler, as a class.

Representation choices:

- A key is an opaque type with equality.
- A callback is an opaque `ActionId`. Two ids are equal exactly when they denote
  the same callback object.
- `Listen`, `HoldTick` and `Activate` return the bindings they fire, in the
  order they fire them, instead of running the callbacks. The callback a fired
  binding runs is its table entry, and none of these methods changes the tables.
- A table is scanned in hash-map order, which the source leaves unspecified.
  The loops therefore pick the next entry with `:|`. The contracts fix only which
  bindings fire, that each fires once, and the order between tables.

## Model

| member | source | states |
|---|---|---|
| `Keys.PressedAfter` | keyhandler/src/commonMain/kotlin/io/github/compose_keyhandler/KeyHandler.kt:22-29 | after an event the event's key is held iff the event was a key-down, and every other key keeps its state; key-down only grows the set, key-up only shrinks it |
| `Keys.KeyDownIdempotent` | compose-keyhandler/src/commonMain/kotlin/io/github/compose_keyhandler/KeyHandler.kt:92-95 | a key-down for a key already held leaves the pressed set unchanged |
| `Keys.DownUpRestores` | keyhandler/src/commonMain/kotlin/io/github/compose_keyhandler/KeyHandler.kt:22-29 | key-down then key-up of a key that was not held restores the original pressed set |
| `Keys.RunMembership` | compose-keyhandler/src/commonMain/kotlin/io/github/compose_keyhandler/KeyHandler.kt:91-125 | after any trace of events, a key is held iff the last event on it was a key-down, or no event touched it and it was held at the start |
| `Dispatch.SinglePressIsEdge` | compose-keyhandler/src/commonMain/kotlin/io/github/compose_keyhandler/KeyHandler.kt:98-100 | a single-key press binding fires on key-down of its key iff the key was not held, so a second key-down without a key-up does not re-fire it |
| `Dispatch.SingleRepeatIsLevel` | compose-keyhandler/src/commonMain/kotlin/io/github/compose_keyhandler/KeyHandler.kt:103-105 | a single-key repeat binding fires on every key-down of its key, held or not |
| `Dispatch.SingleReleaseUnconditional` | compose-keyhandler/src/commonMain/kotlin/io/github/compose_keyhandler/KeyHandler.kt:125-129 | a single-key release binding fires on every key-up of its key, even when the key was not held |
| `Dispatch.PressComboFiresOnCompletion` | compose-keyhandler/src/commonMain/kotlin/io/github/compose_keyhandler/KeyHandler.kt:108-114 | a press combination fires on key-down of k iff k is in it, k was not held, and all its other keys were held |
| `Dispatch.PressComboNoRefire` | compose-keyhandler/src/commonMain/kotlin/io/github/compose_keyhandler/KeyHandler.kt:108-114 | once a press combination has fired, no following key-down fires it again, even one of an unrelated key |
| `Dispatch.ReleaseComboFiresOnBreak` | compose-keyhandler/src/commonMain/kotlin/io/github/compose_keyhandler/KeyHandler.kt:132-138 | a release combination fires on key-up of k iff it was fully held and k is in it |
| `Dispatch.ReleaseComboNoRefire` | compose-keyhandler/src/commonMain/kotlin/io/github/compose_keyhandler/KeyHandler.kt:132-138 | once a release combination has fired, a key-up of another of its keys does not fire it again |
| `Dispatch.RepeatComboIsLevel` | compose-keyhandler/src/commonMain/kotlin/io/github/compose_keyhandler/KeyHandler.kt:117-121 | a repeat combination fires on a key-down iff all its keys are held after it, including the key-down of a key outside the combination |
| `Dispatch.ListenNeverFiresHold` | compose-keyhandler/src/commonMain/kotlin/io/github/compose_keyhandler/KeyHandler.kt:88-142 | the event listener never fires a hold binding |
| `Dispatch.ComboEdgeStep` | compose-keyhandler/src/commonMain/kotlin/io/github/compose_keyhandler/KeyHandler.kt:108-138 | on one event, press firing minus release firing of a combination equals the change in whether it is fully held |
| `Dispatch.PressReleaseAlternate` | compose-keyhandler/src/commonMain/kotlin/io/github/compose_keyhandler/KeyHandler.kt:108-138 | over any trace, press and release firings of a combination alternate: press count minus release count equals Held(end) - Held(start), so press count - release count + Held(start) stays within 0..1 |
| `Dispatch.PressComboScenario` | compose-keyhandler/src/commonMain/kotlin/io/github/compose_keyhandler/KeyHandler.kt:108-114 | with {a, b} bound to press: pressing a then b fires it once, a third key does not re-fire it, and releasing and re-pressing a fires it once more |
| `Dispatch.ReleaseComboScenario` | compose-keyhandler/src/commonMain/kotlin/io/github/compose_keyhandler/KeyHandler.kt:132-138 | with {a, b} bound to release and held: releasing a fires it once, releasing b afterwards does not |
| `ComposeKeyHandler.HoldWait` | compose-keyhandler/src/commonMain/kotlin/io/github/compose_keyhandler/KeyHandler.kt:145 | for a positive frequency the pause is the integer quotient 1000 / frequency (largest d with d * frequency <= 1000); otherwise the loop waits for the next frame |
| `ComposeKeyHandler.HoldDelayAsWritten` | compose-keyhandler/src/commonMain/kotlin/io/github/compose_keyhandler/KeyHandler.kt:145 | the pause as written: 1000 / frequency for a positive frequency, otherwise the frame time reported by the frame clock |
| `ComposeKeyHandler.FrameDelayIsClockReading` | compose-keyhandler/src/commonMain/kotlin/io/github/compose_keyhandler/KeyHandler.kt:145 | with frequency 0 and a frame clock reading one hour, the written code sleeps one hour, while the intended behaviour waits one frame |
| `ComposeKeyHandler.DelaysAgreeForPositiveFrequency` | compose-keyhandler/src/commonMain/kotlin/io/github/compose_keyhandler/KeyHandler.kt:145 | for every positive frequency and every frame-clock reading, the corrected wait is the same sleep the code as written computes; the correction only changes the non-positive case |
| `ComposeKeyHandler.ScanCombos` | compose-keyhandler/src/commonMain/kotlin/io/github/compose_keyhandler/KeyHandler.kt:108-121 | a `forEach` over a combination table reports exactly the combinations of the table that pass the trigger's test, each once |
| `ComposeKeyHandler.ScanHeldKeys` | compose-keyhandler/src/commonMain/kotlin/io/github/compose_keyhandler/KeyHandler.kt:147-151 | a `forEach` over the hold-key table reports exactly its held keys, each once |
| `ComposeKeyHandler.KeyHandler.constructor` | compose-keyhandler/src/commonMain/kotlin/io/github/compose_keyhandler/KeyHandler.kt:13-31 | a new handler keeps its consume flag and frequency, holds no keys and has eight empty tables |
| `ComposeKeyHandler.KeyHandler.AddKey` | compose-keyhandler/src/commonMain/kotlin/io/github/compose_keyhandler/KeyHandler.kt:38-45 | overwrites the key's entry in the table of the given trigger only; the other seven tables and the pressed set are unchanged; the description lookup then yields the new description |
| `ComposeKeyHandler.KeyHandler.AddCombo` | compose-keyhandler/src/commonMain/kotlin/io/github/compose_keyhandler/KeyHandler.kt:47-54 | overwrites the set's entry in the combination table of the given trigger only; everything else is unchanged; the description lookup then yields the new description |
| `ComposeKeyHandler.KeyHandler.GetDescription` | compose-keyhandler/src/commonMain/kotlin/io/github/compose_keyhandler/KeyHandler.kt:56-63 | returns a description iff the key has an entry in the trigger's table, and then that entry's description; otherwise None (null) |
| `ComposeKeyHandler.KeyHandler.GetComboDescription` | compose-keyhandler/src/commonMain/kotlin/io/github/compose_keyhandler/KeyHandler.kt:65-72 | returns a description iff the set has an entry in the trigger's combination table, and then that entry's description; otherwise None (null) |
| `ComposeKeyHandler.KeyHandler.OnPress` | compose-keyhandler/src/commonMain/kotlin/io/github/compose_keyhandler/KeyHandler.kt:74-76 | yields a new builder on this handler fixed to the press trigger |
| `ComposeKeyHandler.KeyHandler.OnRelease` | compose-keyhandler/src/commonMain/kotlin/io/github/compose_keyhandler/KeyHandler.kt:77-79 | yields a new builder on this handler fixed to the release trigger |
| `ComposeKeyHandler.KeyHandler.OnHold` | compose-keyhandler/src/commonMain/kotlin/io/github/compose_keyhandler/KeyHandler.kt:80-82 | yields a new builder on this handler fixed to the hold trigger |
| `ComposeKeyHandler.KeyHandler.OnRepeat` | compose-keyhandler/src/commonMain/kotlin/io/github/compose_keyhandler/KeyHandler.kt:83-85 | yields a new builder on this handler fixed to the repeat trigger |
| `ComposeKeyHandler.KeyHandler.Listen` | compose-keyhandler/src/commonMain/kotlin/io/github/compose_keyhandler/KeyHandler.kt:88-142 | updates the pressed set by the event; fires exactly the registered bindings the firing rule selects, each once and in table order; changes no table; returns `consume` unconditionally |
| `ComposeKeyHandler.KeyHandler.HandleKeyDown` | compose-keyhandler/src/commonMain/kotlin/io/github/compose_keyhandler/KeyHandler.kt:91-122 | key-down arm: the pressed set becomes old + {k}; fires the press-key binding only if k was not held, the repeat-key binding always, and press and repeat combinations by their tests on the snapshot and the new set |
| `ComposeKeyHandler.KeyHandler.KeyDownSingles` | compose-keyhandler/src/commonMain/kotlin/io/github/compose_keyhandler/KeyHandler.kt:98-105 | the single-key part of key-down: exactly the registered single-key bindings the firing rule selects (press only if the key was not held, repeat always), press before repeat |
| `ComposeKeyHandler.KeyHandler.HandleKeyUp` | compose-keyhandler/src/commonMain/kotlin/io/github/compose_keyhandler/KeyHandler.kt:124-139 | key-up arm: the pressed set becomes old - {k}; fires the release-key binding if registered and the release combinations that were fully held and no longer are |
| `ComposeKeyHandler.KeyHandler.HoldTick` | compose-keyhandler/src/commonMain/kotlin/io/github/compose_keyhandler/KeyHandler.kt:147-157 | one tick fires exactly the hold-key bindings of held keys and the hold combinations fully held, each once, single keys first; changes nothing; then pauses by `HoldWait` |
| `ComposeKeyHandler.KeyActionBuilder.constructor` | compose-keyhandler/src/commonMain/kotlin/io/github/compose_keyhandler/KeyActionBuilder.kt:5-8 | the builder remembers its handler and its fixed trigger |
| `ComposeKeyHandler.KeyActionBuilder.BindKey` | compose-keyhandler/src/commonMain/kotlin/io/github/compose_keyhandler/KeyActionBuilder.kt:9-11 | same effect as `AddKey` with the builder's trigger; description defaults to "No description" |
| `ComposeKeyHandler.KeyActionBuilder.BindKeys2` | compose-keyhandler/src/commonMain/kotlin/io/github/compose_keyhandler/KeyActionBuilder.kt:13-16 | same effect as two `AddKey` calls in argument order, with the same description and action; only the builder's table changes |
| `ComposeKeyHandler.KeyActionBuilder.BindKeys3` | compose-keyhandler/src/commonMain/kotlin/io/github/compose_keyhandler/KeyActionBuilder.kt:18-22 | same effect as three `AddKey` calls in argument order; only the builder's table changes |
| `ComposeKeyHandler.KeyActionBuilder.BindCombo2` | compose-keyhandler/src/commonMain/kotlin/io/github/compose_keyhandler/KeyActionBuilder.kt:24-26 | registers one entry keyed by the set {k1, k2} in the builder's combination table only |
| `ComposeKeyHandler.KeyActionBuilder.BindCombo3` | compose-keyhandler/src/commonMain/kotlin/io/github/compose_keyhandler/KeyActionBuilder.kt:28-30 | registers one entry keyed by the set {k1, k2, k3} in the builder's combination table only |
| `ComposeKeyHandler.KeyActionBuilder.BindCombo4` | compose-keyhandler/src/commonMain/kotlin/io/github/compose_keyhandler/KeyActionBuilder.kt:32-34 | registers one entry keyed by the set {k1, k2, k3, k4} in the builder's combination table only |
| `ComposeKeyHandler.ComboOrderIrrelevant` | compose-keyhandler/src/commonMain/kotlin/io/github/compose_keyhandler/KeyActionBuilder.kt:24-26 | `combo(a, b)` then `combo(b, a)` address one entry: the later call overwrites the earlier one |
| `ComposeKeyHandler.ComboRepeatedKeyCollapses` | compose-keyhandler/src/commonMain/kotlin/io/github/compose_keyhandler/KeyActionBuilder.kt:24-26 | `combo(a, a)` without a description registers the singleton {a} with "No description" |
| `ComposeKeyHandler.OverwriteReplaces` | compose-keyhandler/src/commonMain/kotlin/io/github/compose_keyhandler/KeyHandler.kt:38-45 | a second registration of the same key and trigger replaces description and callback entirely |
| `ComposeKeyHandler.Replay` | compose-keyhandler/src/commonMain/kotlin/io/github/compose_keyhandler/KeyHandler.kt:88-142 | feeding a trace to `Listen` leaves the pressed set at `Run` of the trace, and a registered binding fires on exactly `Firings` of its events, so the trace lemmas hold of the handler |
| `LegacyKeyHandler.KeyHandler.constructor` | keyhandler/src/commonMain/kotlin/io/github/compose_keyhandler/KeyHandler.kt:8-12 | a new handler holds no keys and no bindings |
| `LegacyKeyHandler.KeyHandler.AddKey` | keyhandler/src/commonMain/kotlin/io/github/compose_keyhandler/KeyHandler.kt:15-17 | the binding set only grows: every earlier binding is kept and the one-entry map {key -> action} is added |
| `LegacyKeyHandler.KeyHandler.Listener` | keyhandler/src/commonMain/kotlin/io/github/compose_keyhandler/KeyHandler.kt:20-31 | key-down adds the key and key-up removes it; always returns true; bindings unchanged |
| `LegacyKeyHandler.KeyHandler.Activate` | keyhandler/src/commonMain/kotlin/io/github/compose_keyhandler/KeyHandler.kt:33-44 | runs exactly the registered bindings whose key is held, once per binding, and none whose key is not held; changes nothing |
| `LegacyKeyHandler.BothBindingsRun` | keyhandler/src/commonMain/kotlin/io/github/compose_keyhandler/KeyHandler.kt:15-17 | registering one key with two callbacks keeps both, and with the key down `Activate` runs both |

## Findings

| source | as written | input that shows it | evidently intended | confidence | as-written member | corrected member |
|---|---|---|---|---|---|---|
| compose-keyhandler/src/commonMain/kotlin/io/github/compose_keyhandler/KeyHandler.kt:145 | for `holdTriggerFrequency <= 0` the per-tick delay is the value returned by `withFrameMillis { it }`. That value is the frame time, a clock reading in milliseconds, not a frame length. | `holdTriggerFrequency = 0` with a frame clock at 3 600 000 ms: each tick is followed by a one-hour `delay` | wait for the next display frame between ticks | medium; not executed | `ComposeKeyHandler.HoldDelayAsWritten` (shown by `ComposeKeyHandler.FrameDelayIsClockReading`) | `ComposeKeyHandler.HoldWait`, used by `ComposeKeyHandler.KeyHandler.HoldTick` |

## Left out

- The coroutine side of `startHoldLoop` is not modelled: the `isActive` loop, `delay`, frame waiting and cancellation. These are scheduling and concurrency. `HoldTick` models one pass of the loop body. Its `wait` is the pause the source computes once, before the loop, and uses after every tick, except for a non-positive frequency (see the next line).
- `ComposeKeyHandler.KeyHandler.HoldTick`: for a non-positive `holdTriggerFrequency` its `wait` is the intended `NextFrame`, not the source's per-tick `delay` of the frame-clock reading returned by `withFrameMillis`. That behaviour as written is modelled by `ComposeKeyHandler.HoldDelayAsWritten` (see Findings).
- `ComposeKeyHandler.KeyHandler.OnPress`, `OnRelease`, `OnHold`, `OnRepeat`: in the source each takes the caller's builder block, applies it to a new builder and returns nothing. The model returns the builder and leaves the registrations to later calls on it. So, unlike in the source, the builder stays usable after the call returns.
- `toString` of both handlers is not modelled. It is a diagnostic dump that depends on the framework's key names and on hash-map order.
- Compose reactive state (`mutableStateOf`, `mutableStateMapOf`) is not modelled: not recomposition, and not its thread-safety. The state is plain fields.
- What callbacks do is not modelled. A callback is an `ActionId`, and the methods report fired bindings instead of running them.
- An exception thrown by a callback is not modelled. In the source it propagates out of `listen` or the hold tick and skips the bindings after it. The model reports every binding as fired.
- The constructor's `init` block (compose KeyHandler.kt:16, 34-36) runs registrations at construction. The model expresses these as ordinary calls after the constructor.
- The `KeyEvent` type is reduced to (key, down or up). KeyHandlerHost.kt, App.kt, KeyHandlerTest.kt, main.kt and build.gradle.kts are UI glue, demos and build configuration.
- KeyHandlerTest.kt calls registration functions that the handler does not define. It is not used as evidence of behaviour.
- `Trigger` has the four cases ON_PRESS, ON_RELEASE, ON_HOLD and ON_REPEAT that KeyHandler.kt and KeyActionBuilder.kt use; the model has exactly those four.
- `Dispatch.PressReleaseAlternate` covers combinations only. A single-key release binding fires on every key-up, even for a key that is not held, so single-key press and release firings need not alternate.
- `addCombo` is meant for sets of two or more keys, since the builder offers two to four. The code accepts any set, and so does the model. This includes the empty set, which is always "fully held", so its press and release entries never fire.
- The older handler's `keys` field is public and callers may assign it. `Activate` is therefore specified for any set of maps, not only the one-entry maps `AddKey` creates.
