/** The exported object of index.js: it swaps the global `XMLHttpRequest`
    slot, owns the `_globalEventListeners` array and registers handlers with
    `MockXMLHttpRequest`. Each method is proved against `MockState.Step`. */
module XhrMock {
  import opened Requests
  import opened Matching
  import opened MockState

  /** The array object held in `_globalEventListeners`. It is an object because
      every registration keeps a reference to it: pushing onto it is seen
      through those references, and `reset` replaces it rather than clearing it. */
  class ListenerArray {
    var items: seq<GlobalListener>

    constructor()
      ensures items == []
    {
      items := [];
    }

    /** `Array.prototype.push` of one entry. */
    method Push(entry: GlobalListener)
      modifies this
      ensures items == old(items) + [entry]
    {
      items := items + [entry];
    }
  }

  /** What one `addHandler(handler, listeners)` call hands over. */
  datatype Registration = Registration(handler: Value, listeners: ListenerArray)

  /** The handlers in registration order, without the listener arrays. */
  function HandlerValues(regs: seq<Registration>): seq<Value> {
    seq(|regs|, i requires 0 <= i < |regs| => regs[i].handler)
  }

  /** The handler list of `MockXMLHttpRequest`, reduced to the two operations
      the facade calls on it: `addHandler` appends and `reset` clears. */
  class HandlerRegistry {
    var handlers: seq<Registration>

    constructor()
      ensures handlers == []
    {
      handlers := [];
    }

    method AddHandler(handler: Value, listeners: ListenerArray)
      modifies this
      ensures handlers == old(handlers) + [Registration(handler, listeners)]
    {
      handlers := handlers + [Registration(handler, listeners)];
    }

    method Reset()
      modifies this
      ensures handlers == []
    {
      handlers := [];
    }
  }

  class Facade {
    /** `real`: the global `XMLHttpRequest` when the module was loaded. */
    const original: Ctor
    /** `MockXMLHttpRequest`, also exported as the `XMLHttpRequest` property. */
    const registry: HandlerRegistry
    /** The global `window.XMLHttpRequest` slot. */
    var installed: Ctor
    var globalEventListeners: ListenerArray

    /** The state as a value: what `MockState.Step` is stated over. */
    ghost function Abstract(): State
      reads this, registry, globalEventListeners
    {
      State(installed, globalEventListeners.items, HandlerValues(registry.handlers))
    }

    /** Every registration made since the last reset holds the current
        `_globalEventListeners` array itself, not a copy. */
    ghost predicate ListenersShared()
      reads this, registry
    {
      forall i :: 0 <= i < |registry.handlers| ==> registry.handlers[i].listeners == globalEventListeners
    }

    /** Module load: `real` is read from the global slot, which is left as it
        is, and `_globalEventListeners` starts as an empty array. */
    constructor(ambient: Ctor, registry: HandlerRegistry)
      ensures original == ambient && installed == ambient && this.registry == registry
      ensures fresh(globalEventListeners) && globalEventListeners.items == []
    {
      original := ambient;
      this.registry := registry;
      installed := ambient;
      globalEventListeners := new ListenerArray();
    }

    /** `reset()`: a new empty listener array replaces the old one, which keeps
        its entries, and the handler registry is cleared. */
    method Reset() returns (self: Facade)
      modifies this, registry
      ensures self == this
      ensures Abstract() == Step(original, old(Abstract()), MockState.Reset)
      ensures installed == old(installed)
      ensures fresh(globalEventListeners) && unchanged(old(globalEventListeners))
      ensures ListenersShared()
    {
      globalEventListeners := new ListenerArray();
      registry.Reset();
      self := this;
    }

    /** `setup()`: installs the mock class, then resets. */
    method Setup() returns (self: Facade)
      modifies this, registry
      ensures self == this
      ensures Abstract() == Step(original, old(Abstract()), MockState.Setup)
      ensures installed == MockXhr && registry.handlers == [] && globalEventListeners.items == []
      ensures fresh(globalEventListeners) && ListenersShared()
    {
      installed := MockXhr;
      self := Reset();
    }

    /** `teardown()`: puts the original constructor back, then resets. */
    method Teardown() returns (self: Facade)
      modifies this, registry
      ensures self == this
      ensures Abstract() == Step(original, old(Abstract()), MockState.Teardown)
      ensures installed == original && registry.handlers == [] && globalEventListeners.items == []
      ensures fresh(globalEventListeners) && ListenersShared()
    {
      installed := original;
      self := Reset();
    }

    /** `mock(...args)`: resolves the call shape and registers exactly one
        handler, together with the current listener array; nothing else changes. */
    method Mock(args: seq<Value>) returns (self: Facade)
      modifies registry
      ensures self == this
      ensures Abstract() == Step(original, old(Abstract()), MockState.Mock(args))
      ensures registry.handlers == old(registry.handlers) + [Registration(Registered(args), globalEventListeners)]
      ensures old(ListenersShared()) ==> ListenersShared()
    {
      var handler := Normalize(Shape(args));
      registry.AddHandler(handler, globalEventListeners);
      self := this;
    }

    /** `get(url, fn)` is `mock('GET', url, fn)`. */
    method Get(url: Value, fn: Value) returns (self: Facade)
      modifies registry
      ensures self == this
      ensures Abstract() == Step(original, old(Abstract()), MockVerb(GET, url, fn))
      ensures registry.handlers == old(registry.handlers) + [Registration(Registered(VerbArgs(GET, url, fn)), globalEventListeners)]
      ensures old(ListenersShared()) ==> ListenersShared()
    {
      self := Mock([Str("GET"), url, fn]);
    }

    /** `post(url, fn)` is `mock('POST', url, fn)`. */
    method Post(url: Value, fn: Value) returns (self: Facade)
      modifies registry
      ensures self == this
      ensures Abstract() == Step(original, old(Abstract()), MockVerb(POST, url, fn))
      ensures registry.handlers == old(registry.handlers) + [Registration(Registered(VerbArgs(POST, url, fn)), globalEventListeners)]
      ensures old(ListenersShared()) ==> ListenersShared()
    {
      self := Mock([Str("POST"), url, fn]);
    }

    /** `put(url, fn)` is `mock('PUT', url, fn)`. */
    method Put(url: Value, fn: Value) returns (self: Facade)
      modifies registry
      ensures self == this
      ensures Abstract() == Step(original, old(Abstract()), MockVerb(PUT, url, fn))
      ensures registry.handlers == old(registry.handlers) + [Registration(Registered(VerbArgs(PUT, url, fn)), globalEventListeners)]
      ensures old(ListenersShared()) ==> ListenersShared()
    {
      self := Mock([Str("PUT"), url, fn]);
    }

    /** `patch(url, fn)` is `mock('PATCH', url, fn)`. */
    method Patch(url: Value, fn: Value) returns (self: Facade)
      modifies registry
      ensures self == this
      ensures Abstract() == Step(original, old(Abstract()), MockVerb(PATCH, url, fn))
      ensures registry.handlers == old(registry.handlers) + [Registration(Registered(VerbArgs(PATCH, url, fn)), globalEventListeners)]
      ensures old(ListenersShared()) ==> ListenersShared()
    {
      self := Mock([Str("PATCH"), url, fn]);
    }

    /** `delete(url, fn)` is `mock('DELETE', url, fn)`. */
    method Delete(url: Value, fn: Value) returns (self: Facade)
      modifies registry
      ensures self == this
      ensures Abstract() == Step(original, old(Abstract()), MockVerb(DELETE, url, fn))
      ensures registry.handlers == old(registry.handlers) + [Registration(Registered(VerbArgs(DELETE, url, fn)), globalEventListeners)]
      ensures old(ListenersShared()) ==> ListenersShared()
    {
      self := Mock([Str("DELETE"), url, fn]);
    }

    /** `addGlobalEventListener(event, listener)`: pushes one record onto the
        current array, so every handler registered since the last reset sees it
        through the array it was given. Returns nothing. */
    method AddGlobalEventListener(event: Value, listener: Value)
      modifies globalEventListeners
      ensures Abstract() == Step(original, old(Abstract()), MockState.AddGlobalEventListener(event, listener))
      ensures ListenersShared() ==>
        forall i :: 0 <= i < |registry.handlers| ==>
          registry.handlers[i].listeners.items == old(globalEventListeners.items) + [GlobalListener(event, listener)]
    {
      globalEventListeners.Push(GlobalListener(event, listener));
    }
  }
}
