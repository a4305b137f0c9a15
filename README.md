# xhr-mock facade, modelled in Dafny

xhr-mock replaces the browser's `XMLHttpRequest` with a mock class so that
tests can answer requests with handler functions instead of a network. This
project models the library's facade, `index.js`:

- `setup()` installs the mock constructor in the global `XMLHttpRequest` slot. `teardown()` puts back the constructor captured when the module loaded. Both then call `reset()`.
- `reset()` replaces `_globalEventListeners` with a new empty array and clears the handler registry of `MockXMLHttpRequest`.
- `mock(...)` registers one handler. Called with exactly three arguments `(method, url, fn)`, it registers a wrapper. The wrapper declines with `false` unless the request method is equal to `method` and the url is equal to `url`, or passes `url`'s test when `url` is a RegExp. When the request matches, the wrapper returns `fn(req, res)` unchanged. Called with any other number of arguments, `mock` registers its first argument as it is.
- `get`, `post`, `put`, `patch` and `delete` are `mock` with a fixed upper-case method.
- `addGlobalEventListener(event, listener)` pushes one `{event, listener}` record.

Layout:

- `requests.dfy` (module `Requests`): requests, responses and handler results. A handler result is `NoMatch` (the `false` sentinel), `Pending` (`undefined`), `Resolved(response)`, or `Thrown(error)` for an exception escaping the call. The module also holds the JavaScript argument values the facade tells apart: strings, RegExps, functions, `undefined`, and any other value by identity.
- `matching.dfy` (module `Matching`): the `matcher` and `handler` closures as pure functions. A registered method or url is compared with `===` against what `req.method()` and `req.url()` return: a string, or `undefined` when `open` did not set it. It also resolves the call shape by argument count and defines the verb helpers' arguments.
- `mock_state.dfy` (module `MockState`): the facade's state as a value. `Step` gives the effect of each call. `Replay` runs a series of calls, and lemmas describe what any series leaves behind.
- `facade.dfy` (module `XhrMock`): the mutable objects, each method proved against `Step`:
  - `Facade` holds the constructor slot and the listener array.
  - `ListenerArray` is the `_globalEventListeners` array object.
  - `HandlerRegistry` is `MockXMLHttpRequest`'s handler list, reduced to append and clear.
- `scenarios.dfy` (module `Scenarios`): the outcomes the test suite asserts.

`_globalEventListeners` is modelled as an object. Every `addHandler` call receives a reference to the current array, so later pushes are visible through every registration made since the last reset (`Facade.ListenersShared`). `reset` allocates a new array and leaves the old one's entries in place.

## Model

| member | source | states |
|---|---|---|
| Matching.Shape | index.js:50-69 | the three-argument shape is chosen exactly when there are three arguments and keeps them in order; otherwise the handler is the first argument, or `undefined` when there is none |
| Matching.RegisteredByArity | index.js:50-71 | a call with other than three arguments registers its first argument unchanged; a three-argument call registers the wrapper around `(method, url, fn)` |
| Matching.WrapRejectsOtherMethod | index.js:53-66 | when the request method is not strictly equal to the registered method, the wrapper returns the `false` sentinel, whatever `url` and `fn` are |
| Matching.WrapIgnoresFnOnMismatch | index.js:53-66 | when the matcher fails, the wrapper's result is `NoMatch` and does not depend on `fn`, so `fn` is not called |
| Matching.WrapExactUrl | index.js:55-66 | with a string url, the wrapper calls `fn` if and only if the method and the url are both exactly equal to the request's; otherwise it returns `NoMatch` |
| Matching.WrapPatternUrl | index.js:55-66 | with a RegExp url, the wrapper calls `fn` if and only if the method is equal and the pattern's test succeeds on the request url (on the text "undefined" when the request has no url) |
| Matching.WrapUndefinedUrl | index.js:55-66 | with an `undefined` url, as in `get(undefined, fn)`, the wrapper calls `fn` if and only if the method is equal and the request was opened without a url |
| Matching.WrapForwardsResult | index.js:61-64 | when the matcher succeeds, the wrapper's result is exactly `fn(req, res)` |
| Matching.VerbName | index.js:82-124 | each verb helper's method string is non-empty and upper case |
| Matching.VerbNameInjective | index.js:82-124 | distinct verb helpers pass distinct method strings, so a handler registered through one never matches another verb's requests |
| Matching.VerbArgs | index.js:82-124 | a verb helper's arguments always select the three-argument shape of `mock`, with its verb string as the method, even when `url` or `fn` is `undefined` |
| Matching.VerbIsMock | index.js:82-124 | each verb helper registers exactly the wrapper `mock(VERB, url, fn)` registers |
| MockState.MockAppendsOne | index.js:50-74 | `mock` and the verb helpers append exactly one handler after the existing ones and change neither the listeners nor the installed constructor |
| MockState.ListenerAppendsOne | index.js:132-137 | `addGlobalEventListener(e, l)` appends exactly `{event: e, listener: l}` after the earlier entries and changes nothing else |
| MockState.SetupTeardownReset | index.js:19-41 | `setup()` ends with the mock installed and no handler or listener, whatever came before; `teardown()` ends the same way with the original installed; repeating `setup`, `teardown` or `reset` changes nothing |
| MockState.ReplayHandlers | index.js:37-124 | after any series of calls, the registry holds exactly the handlers registered since the last `setup`, `teardown` or `reset`, in order; the initial handlers remain only when no such call happened |
| MockState.ReplayListeners | index.js:37-137 | after any series of calls, the global listeners are exactly those added since the last reset, in order; the initial listeners remain only when nothing reset them |
| MockState.ReplayInstalled | index.js:19-31 | after any series of calls, the installed constructor is decided by the last `setup` (the mock) or `teardown` (the original); no other call touches it |
| MockState.SetupThenTeardownRestores | index.js:19-31 | after `setup()` the mock is installed; after any later calls that end in `teardown()`, the original is installed again and no handler or listener is left |
| XhrMock.ListenerArray.Push | index.js:133-136 | pushing appends one entry at the end of the array |
| XhrMock.HandlerRegistry.AddHandler | index.js:71 | `addHandler(handler, listeners)` appends one registration holding that handler and that array reference |
| XhrMock.HandlerRegistry.Reset | index.js:39 | `MockXMLHttpRequest.reset()` leaves the handler registry empty |
| XhrMock.Facade.constructor | index.js:3-13 | at load, `real` is the current global constructor, which is left installed, and `_globalEventListeners` is a new empty array |
| XhrMock.Facade.Reset | index.js:37-41 | the new state is `Step(Reset)` of the old one; the listener array is a fresh object, the old array keeps its entries, every remaining registration shares the current array, and `this` is returned |
| XhrMock.Facade.Setup | index.js:19-22 | the new state is `Step(Setup)`: the mock is installed, and the registry and listener array are empty |
| XhrMock.Facade.Teardown | index.js:28-31 | the new state is `Step(Teardown)`: the original constructor is installed, and the registry and listener array are empty |
| XhrMock.Facade.Mock | index.js:50-74 | exactly one registration is appended: the handler resolved from the call shape, with the current listener array; only the registry changes; `this` is returned |
| XhrMock.Facade.Get | index.js:82-84 | the new state is `Step` of `mock('GET', url, fn)`; exactly one registration is appended, holding that wrapper and the current listener array; `this` is returned |
| XhrMock.Facade.Post | index.js:92-94 | the new state is `Step` of `mock('POST', url, fn)`; exactly one registration is appended, holding that wrapper and the current listener array; `this` is returned |
| XhrMock.Facade.Put | index.js:102-104 | the new state is `Step` of `mock('PUT', url, fn)`; exactly one registration is appended, holding that wrapper and the current listener array; `this` is returned |
| XhrMock.Facade.Patch | index.js:112-114 | the new state is `Step` of `mock('PATCH', url, fn)`; exactly one registration is appended, holding that wrapper and the current listener array; `this` is returned |
| XhrMock.Facade.Delete | index.js:122-124 | the new state is `Step` of `mock('DELETE', url, fn)`; exactly one registration is appended, holding that wrapper and the current listener array; `this` is returned |
| XhrMock.Facade.AddGlobalEventListener | index.js:132-137 | only the current listener array changes; it gains `{event, listener}` at its end, and every handler registered since the last reset sees the new entry through its shared array |
| Scenarios.SlashADigitsPattern | test/index.js:83 | the pattern `/\/a\/\d+/` accepts `/a/123` and rejects `/b/123` and `/a/` |
| Scenarios.DistinctUrlsScenario | test/index.js:53-78 | with handlers for `GET /a` and `GET /b`, a GET to `/a` reaches only the first, a GET to `/b` only the second, and a POST to `/a` or a GET to `/c` neither |
| Scenarios.PatternUrlScenario | test/index.js:80-98 | with `mock('POST', /\/a\/\d+/, h)`, a POST to `/a/123` is answered by `h`; a GET to `/a/123` and a POST to `/b/123` are declined |
| Scenarios.SetupTeardownScenario | test/index.js:9-17 | the constructor `setup()` installs (returned as `during`) is the mock and differs from the original, and `teardown()` restores the identical original |
| Scenarios.RemoveHandlersScenario | test/index.js:19-28 | a handler registered before `setup()` is gone after it; one registered after `setup()` is gone after `teardown()` |
| Scenarios.RemoveHandlersTrace | test/index.js:19-28 | the same two cases over traces, after any earlier calls: `get` then `setup` leaves no handler; `setup`, `get`, `teardown` ends in the original constructor with empty registry and listeners |

## Left out

- `lib/MockXMLHttpRequest` is not part of this model. This covers its dispatch loop, its response builder, the readyState and event lifecycle, and the firing of global listeners. Its handler list appears only as the append done by `addHandler` and the clear done by `reset`. Nothing here says how registered handlers are tried or which one answers a request. So the model does not say that a request no handler accepts ends in an error. It also does not state the count of global `load` events the listener test checks at test/index.js:120-146.
- Asynchronous event timing and the `onload` and `done()` callbacks of the tests are left out. They are event-loop scheduling.
- The JavaScript RegExp engine is not modelled. A RegExp is a record carrying its `test` as an uninterpreted predicate. The state that `test` keeps in `lastIndex` for global and sticky patterns is not modelled either: repeated tests with such a pattern may differ in JavaScript but not here.
- The `global`/`window` object appears only as the single `XMLHttpRequest` slot that `setup` and `teardown` write.
- The `XMLHttpRequest` property exported at index.js:11 appears only as the `registry` the facade holds.
- Handler results: a JavaScript function can return any value. The model keeps the four kinds that matter here (`false`, `undefined`, a response, and an exception). An exception from `fn` or from calling a non-function `fn` is shown as a `Thrown` result, not as control flow.
- `mock()` with no arguments raises nothing. It registers `undefined`, and the model does the same.
- `req.method()` and `req.url()` are modelled as a string or `undefined`. Other values they might return (numbers, objects) are not modelled, because the request object belongs to `lib/MockXMLHttpRequest`. A registered method or url that is neither a string, a RegExp nor `undefined` therefore never matches, which agrees with `===` against a string or `undefined`.
