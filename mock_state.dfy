/** The state the xhr-mock facade keeps, as a value, and the effect of each of
    its operations on it: the specification the `XhrMock.Facade` class is proved
    against. A sequence of operations is replayed to describe what any series of
    facade calls leaves behind. */
module MockState {
  import opened Requests
  import opened Matching

  /** A value of the global `XMLHttpRequest` slot: the mock class, or whatever
      the slot held when the module was loaded (`undefined` outside a browser
      included), known only by its identity. */
  datatype Ctor = Ambient(id: nat) | MockXhr

  /** One entry of `_globalEventListeners`. */
  datatype GlobalListener = GlobalListener(event: Value, listener: Value)

  /** The installed constructor, the global listener list and the handlers
      registered with `MockXMLHttpRequest`, in registration order. */
  datatype State = State(installed: Ctor, listeners: seq<GlobalListener>, handlers: seq<Value>)

  /** A call on the facade; `MockVerb` is `get`, `post`, `put`, `patch` or `delete`. */
  datatype Op =
    | Setup
    | Teardown
    | Reset
    | Mock(args: seq<Value>)
    | MockVerb(verb: Verb, url: Value, fn: Value)
    | AddGlobalEventListener(event: Value, listener: Value)

  /** The operations that end in `reset()`. */
  predicate Clears(op: Op) {
    op.Setup? || op.Teardown? || op.Reset?
  }

  /** The handler an operation registers, for the two that register one. */
  function RegisteredBy(op: Op): Value
    requires op.Mock? || op.MockVerb?
  {
    if op.Mock? then Registered(op.args) else Registered(VerbArgs(op.verb, op.url, op.fn))
  }

  /** The effect of one facade call; `original` is the constructor captured at load. */
  function Step(original: Ctor, s: State, op: Op): State {
    match op
    case Setup => State(MockXhr, [], [])
    case Teardown => State(original, [], [])
    case Reset => s.(listeners := [], handlers := [])
    case Mock(_) => s.(handlers := s.handlers + [RegisteredBy(op)])
    case MockVerb(_, _, _) => s.(handlers := s.handlers + [RegisteredBy(op)])
    case AddGlobalEventListener(e, l) => s.(listeners := s.listeners + [GlobalListener(e, l)])
  }

  /** The state after the calls `ops`, in order, starting from `s`. */
  function Replay(original: Ctor, s: State, ops: seq<Op>): State
    decreases |ops|
  {
    if ops == [] then s else Step(original, Replay(original, s, ops[..|ops| - 1]), ops[|ops| - 1])
  }

  /** Whether some call in `ops` resets the state. */
  predicate AnyClears(ops: seq<Op>)
    decreases |ops|
  {
    ops != [] && (Clears(ops[|ops| - 1]) || AnyClears(ops[..|ops| - 1]))
  }

  /** The calls made after the last reset in `ops` (all of them if none resets). */
  function SinceReset(ops: seq<Op>): (tail: seq<Op>)
    ensures |tail| <= |ops| && tail == ops[|ops| - |tail|..]
    ensures forall i :: 0 <= i < |tail| ==> !Clears(tail[i])
    ensures |tail| < |ops| ==> Clears(ops[|ops| - |tail| - 1])
    decreases |ops|
  {
    if ops == [] || Clears(ops[|ops| - 1]) then []
    else SinceReset(ops[..|ops| - 1]) + [ops[|ops| - 1]]
  }

  /** The handlers the calls in `ops` register, in order. */
  function HandlersOf(ops: seq<Op>): seq<Value>
    decreases |ops|
  {
    if ops == [] then []
    else
      var last := ops[|ops| - 1];
      HandlersOf(ops[..|ops| - 1]) + (if last.Mock? || last.MockVerb? then [RegisteredBy(last)] else [])
  }

  /** The global listeners the calls in `ops` add, in order. */
  function ListenersOf(ops: seq<Op>): seq<GlobalListener>
    decreases |ops|
  {
    if ops == [] then []
    else
      var last := ops[|ops| - 1];
      ListenersOf(ops[..|ops| - 1]) +
        (if last.AddGlobalEventListener? then [GlobalListener(last.event, last.listener)] else [])
  }

  /** The constructor installed after the calls `ops`: the last `setup` or
      `teardown` decides, and `initial` stays when there is none. */
  function InstalledAfter(original: Ctor, initial: Ctor, ops: seq<Op>): Ctor
    decreases |ops|
  {
    if ops == [] then initial
    else if ops[|ops| - 1].Setup? then MockXhr
    else if ops[|ops| - 1].Teardown? then original
    else InstalledAfter(original, initial, ops[..|ops| - 1])
  }

  /** `mock`, `get`, ... register exactly one handler, at the end of the
      registry, and change nothing else. */
  lemma MockAppendsOne(original: Ctor, s: State, op: Op)
    requires op.Mock? || op.MockVerb?
    ensures var t := Step(original, s, op);
      t.installed == s.installed && t.listeners == s.listeners &&
      |t.handlers| == |s.handlers| + 1 &&
      t.handlers[..|s.handlers|] == s.handlers && t.handlers[|s.handlers|] == RegisteredBy(op)
  {
  }

  /** `addGlobalEventListener(e, l)` appends exactly the record `{event: e,
      listener: l}` after the earlier ones and changes nothing else. */
  lemma ListenerAppendsOne(original: Ctor, s: State, event: Value, listener: Value)
    ensures var t := Step(original, s, AddGlobalEventListener(event, listener));
      t.installed == s.installed && t.handlers == s.handlers &&
      |t.listeners| == |s.listeners| + 1 && t.listeners[..|s.listeners|] == s.listeners &&
      t.listeners[|s.listeners|] == GlobalListener(event, listener)
  {
  }

  /** `setup()` and `teardown()` end in the reset state whatever came before,
      and repeating either one changes nothing. */
  lemma SetupTeardownReset(original: Ctor, s: State)
    ensures Step(original, s, Setup) == State(MockXhr, [], [])
    ensures Step(original, s, Teardown) == State(original, [], [])
    ensures Step(original, Step(original, s, Setup), Setup) == Step(original, s, Setup)
    ensures Step(original, Step(original, s, Teardown), Teardown) == Step(original, s, Teardown)
    ensures Step(original, Step(original, s, Reset), Reset) == Step(original, s, Reset)
  {
  }

  /** Replaying one more call is one more step. */
  lemma ReplaySnoc(original: Ctor, s: State, ops: seq<Op>, op: Op)
    ensures Replay(original, s, ops + [op]) == Step(original, Replay(original, s, ops), op)
  {
    assert (ops + [op])[..|ops|] == ops;
  }

  /** A call that does not reset extends the calls made since the last reset. */
  lemma SinceResetSnoc(ops: seq<Op>)
    requires ops != [] && !Clears(ops[|ops| - 1])
    ensures SinceReset(ops) == SinceReset(ops[..|ops| - 1]) + [ops[|ops| - 1]]
  {
  }

  /** The handlers registered by one more call come after the earlier ones. */
  lemma HandlersOfSnoc(ops: seq<Op>, op: Op)
    ensures HandlersOf(ops + [op]) == HandlersOf(ops) + (if op.Mock? || op.MockVerb? then [RegisteredBy(op)] else [])
  {
    assert (ops + [op])[..|ops|] == ops;
  }

  /** The listeners added by one more call come after the earlier ones. */
  lemma ListenersOfSnoc(ops: seq<Op>, op: Op)
    ensures ListenersOf(ops + [op]) ==
            ListenersOf(ops) + (if op.AddGlobalEventListener? then [GlobalListener(op.event, op.listener)] else [])
  {
    assert (ops + [op])[..|ops|] == ops;
  }

  /** The registered handlers after any series of calls are those registered
      since the last reset, in registration order, after the handlers present
      at the start when nothing reset them. */
  lemma {:induction false} ReplayHandlers(original: Ctor, s: State, ops: seq<Op>)
    ensures Replay(original, s, ops).handlers ==
            (if AnyClears(ops) then [] else s.handlers) + HandlersOf(SinceReset(ops))
    decreases |ops|
  {
    if ops != [] {
      var init, last := ops[..|ops| - 1], ops[|ops| - 1];
      ReplayHandlers(original, s, init);
      var before := Replay(original, s, init);
      assert Replay(original, s, ops) == Step(original, before, last);
      if Clears(last) {
        assert SinceReset(ops) == [];
      } else {
        SinceResetSnoc(ops);
        HandlersOfSnoc(SinceReset(init), last);
      }
    }
  }

  /** The global listeners after any series of calls are those added since the
      last reset, in order, after the ones present at the start when nothing
      reset them. */
  lemma {:induction false} ReplayListeners(original: Ctor, s: State, ops: seq<Op>)
    ensures Replay(original, s, ops).listeners ==
            (if AnyClears(ops) then [] else s.listeners) + ListenersOf(SinceReset(ops))
    decreases |ops|
  {
    if ops != [] {
      var init, last := ops[..|ops| - 1], ops[|ops| - 1];
      ReplayListeners(original, s, init);
      var before := Replay(original, s, init);
      assert Replay(original, s, ops) == Step(original, before, last);
      if Clears(last) {
        assert SinceReset(ops) == [];
      } else {
        SinceResetSnoc(ops);
        ListenersOfSnoc(SinceReset(init), last);
      }
    }
  }

  /** The installed constructor after any series of calls is decided by the
      last `setup` (the mock) or `teardown` (the original); no other call
      touches it. */
  lemma {:induction false} ReplayInstalled(original: Ctor, s: State, ops: seq<Op>)
    ensures Replay(original, s, ops).installed == InstalledAfter(original, s.installed, ops)
    decreases |ops|
  {
    if ops != [] {
      ReplayInstalled(original, s, ops[..|ops| - 1]);
    }
  }

  /** After `setup()` the installed constructor is the mock, and after any
      later calls ending in `teardown()` it is the original again, with no
      handler and no listener left, whatever was registered before. */
  lemma {:induction false} SetupThenTeardownRestores(original: Ctor, s: State, before: seq<Op>, between: seq<Op>)
    ensures Replay(original, s, before + [Setup]).installed == MockXhr
    ensures Replay(original, s, before + [Setup] + between + [Teardown]) == State(original, [], [])
  {
    ReplaySnoc(original, s, before, Setup);
    ReplaySnoc(original, s, before + [Setup] + between, Teardown);
  }
}
