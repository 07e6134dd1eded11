/** The older, simpler key handler: a pressed set kept up to date by the event
    listener, a growing set of single-key bindings, and `Activate`, which runs
    every binding whose key is held. */
module LegacyKeyHandler {
  import opened Keys

  /** One callback run by `Activate`: the entry `key` of the registered map `binding`. */
  datatype Activation = Activation(binding: map<Key, ActionId>, key: Key)

  class KeyHandler {
    var pressedKeys: set<Key>
    /** Every registration adds the one-entry map {key -> action} to this set. */
    var keys: set<map<Key, ActionId>>

    constructor ()
      ensures pressedKeys == {} && keys == {}
    {
      pressedKeys := {};
      keys := {};
    }

    /** Adds the binding key -> action; earlier bindings, for this key too, are kept. */
    method AddKey(key: Key, action: ActionId)
      modifies this`keys
      ensures keys == old(keys) + {map[key := action]}
    {
      keys := keys + {map[key := action]};
    }

    /** The event listener: key-down adds the key, key-up removes it, and the
        event is always reported as handled. */
    method Listener(event: KeyEvent) returns (handled: bool)
      modifies this`pressedKeys
      ensures pressedKeys == PressedAfter(old(pressedKeys), event)
      ensures handled
    {
      match event.kind {
        case KeyDown => pressedKeys := pressedKeys + {event.key};
        case KeyUp => pressedKeys := pressedKeys - {event.key};
      }
      handled := true;
    }

    /** Runs every registered binding whose key is held, once per binding, and
        no other; neither the pressed set nor the bindings change. */
    method Activate() returns (fired: seq<Activation>)
      ensures Distinct(fired)
      ensures forall a :: a in fired <==> a.binding in keys && a.key in a.binding && a.key in pressedKeys
    {
      fired := [];
      var maps := keys;
      while maps != {}
        invariant maps <= keys
        invariant Distinct(fired)
        invariant forall a :: a in fired <==>
                    a.binding in keys && a.binding !in maps && a.key in a.binding && a.key in pressedKeys
        decreases maps
      {
        var m :| m in maps;
        var entries := m.Keys;
        while entries != {}
          invariant entries <= m.Keys
          invariant Distinct(fired)
          invariant forall a :: a in fired <==>
                      a.binding in keys && a.key in a.binding && a.key in pressedKeys &&
                      (a.binding !in maps || (a.binding == m && a.key !in entries))
          decreases entries
        {
          var k :| k in entries;
          if k in pressedKeys {
            fired := fired + [Activation(m, k)];
          }
          entries := entries - {k};
        }
        maps := maps - {m};
      }
    }
  }

  /** Registering the same key twice with different callbacks keeps both: once
      the key is down, `Activate` runs each of them. */
  method BothBindingsRun(handler: KeyHandler, k: Key, a1: ActionId, a2: ActionId)
    returns (fired: seq<Activation>)
    modifies handler
    ensures Activation(map[k := a1], k) in fired && Activation(map[k := a2], k) in fired
  {
    handler.AddKey(k, a1);
    handler.AddKey(k, a2);
    var _ := handler.Listener(KeyEvent(k, KeyDown));
    fired := handler.Activate();
  }
}
