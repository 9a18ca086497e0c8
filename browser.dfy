/** The browser globals the components share: `window.localStorage` and the set of event
    listeners registered on `window`. */
module Browser {

  /** A registered event listener: the event name and the identity of the handler closure. */
  datatype Listener = Listener(event: string, handler: nat)

  class Window {
    var localStorage: map<string, string>
    var listeners: set<Listener>
    /** Identities not yet given to any handler closure. */
    var nextHandler: nat

    ghost predicate Valid()
      reads this
    {
      forall l :: l in listeners ==> l.handler < nextHandler
    }

    constructor (saved: map<string, string>)
      ensures Valid()
      ensures localStorage == saved && listeners == {}
    {
      localStorage := saved;
      listeners := {};
      nextHandler := 0;
    }

    /** `localStorage.setItem(key, value)`. */
    method SetItem(key: string, value: string)
      modifies this`localStorage
      ensures localStorage == old(localStorage)[key := value]
    {
      localStorage := localStorage[key := value];
    }

    /** `localStorage.removeItem(key)`; removing a missing key changes nothing. */
    method RemoveItem(key: string)
      modifies this`localStorage
      ensures localStorage == old(localStorage) - {key}
    {
      localStorage := localStorage - {key};
    }

    /** A new handler closure for `event`: its identity differs from every registered one. */
    method NewHandler(event: string) returns (l: Listener)
      requires Valid()
      modifies this`nextHandler
      ensures Valid()
      ensures l.event == event && l !in listeners
      ensures l.handler == old(nextHandler) && nextHandler == old(nextHandler) + 1
    {
      l := Listener(event, nextHandler);
      nextHandler := nextHandler + 1;
    }

    /** `window.addEventListener`: registering the same listener twice keeps one copy. */
    method AddEventListener(l: Listener)
      requires Valid() && l.handler < nextHandler
      modifies this`listeners
      ensures Valid()
      ensures listeners == old(listeners) + {l}
    {
      listeners := listeners + {l};
    }

    /** `window.removeEventListener`. */
    method RemoveEventListener(l: Listener)
      requires Valid()
      modifies this`listeners
      ensures Valid()
      ensures listeners == old(listeners) - {l}
    {
      listeners := listeners - {l};
    }
  }
}
