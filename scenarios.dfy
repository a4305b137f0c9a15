/** The outcomes the xhr-mock test suite asserts, stated over the model. */
module Scenarios {
  import opened Requests
  import opened Matching
  import opened MockState
  import opened XhrMock

  /** What `/\/a\/\d+/.test(s)` decides: somewhere in `s` the characters
      `/a/` are followed by a digit (the pattern is not anchored, and one digit
      is enough for `\d+`). */
  predicate SlashADigits(s: string)
    decreases |s|
  {
    |s| >= 4 && ((s[..3] == "/a/" && '0' <= s[3] <= '9') || SlashADigits(s[1..]))
  }

  /** The RegExp `/\/a\/\d+/` with its test. */
  function SlashADigitsPattern(): (re: RegExp)
    ensures re.test("/a/123") && !re.test("/b/123") && !re.test("/a/")
  {
    var re := RegExp("\\/a\\/\\d+", SlashADigits);
    assert SlashADigits("/a/123") by {
      assert "/a/123"[..3] == "/a/";
    }
    assert !SlashADigits("/b/123") by {
      assert "/b/123"[..3] != "/a/" by { assert "/b/123"[1] != "/a/"[1]; }
      assert "/b/123"[1..] == "b/123";
      assert "b/123"[..3] != "/a/" by { assert "b/123"[0] != "/a/"[0]; }
      assert "b/123"[1..] == "/123";
      assert "/123"[..3] != "/a/" by { assert "/123"[1] != "/a/"[1]; }
      assert !SlashADigits("/123"[1..]);
    }
    re
  }

  /** With `GET /a` and `GET /b` registered, a GET to `/a` reaches only the
      first handler and a GET to `/b` only the second; a POST to `/a` and a GET
      to `/c` reach neither. */
  lemma DistinctUrlsScenario(handleA: Handler, handleB: Handler, res: Response, headers: map<string, string>)
    ensures var toA, toB := Request(Present("GET"), Present("/a"), headers, ""), Request(Present("GET"), Present("/b"), headers, "");
      var postA, toC := Request(Present("POST"), Present("/a"), headers, ""), Request(Present("GET"), Present("/c"), headers, "");
      var a, b := Wrap(Str("GET"), Str("/a"), Func(handleA)), Wrap(Str("GET"), Str("/b"), Func(handleB));
      a(toA, res) == handleA(toA, res) && b(toA, res) == NoMatch &&
      a(toB, res) == NoMatch && b(toB, res) == handleB(toB, res) &&
      a(postA, res) == NoMatch && b(postA, res) == NoMatch &&
      a(toC, res) == NoMatch && b(toC, res) == NoMatch
  {
    assert Present("/a") != Present("/b") by { assert "/a"[1] != "/b"[1]; }
    assert Present("/a") != Present("/c") by { assert "/a"[1] != "/c"[1]; }
    assert Present("/b") != Present("/c") by { assert "/b"[1] != "/c"[1]; }
    assert Present("POST") != Present("GET") by { assert "POST"[0] != "GET"[0]; }
    var toA, toB := Request(Present("GET"), Present("/a"), headers, ""), Request(Present("GET"), Present("/b"), headers, "");
    var postA, toC := Request(Present("POST"), Present("/a"), headers, ""), Request(Present("GET"), Present("/c"), headers, "");
    WrapExactUrl("GET", "/a", Func(handleA), toA, res);
    WrapExactUrl("GET", "/a", Func(handleA), toB, res);
    WrapExactUrl("GET", "/a", Func(handleA), postA, res);
    WrapExactUrl("GET", "/a", Func(handleA), toC, res);
    WrapExactUrl("GET", "/b", Func(handleB), toA, res);
    WrapExactUrl("GET", "/b", Func(handleB), toB, res);
    WrapExactUrl("GET", "/b", Func(handleB), postA, res);
    WrapExactUrl("GET", "/b", Func(handleB), toC, res);
  }

  /** With `mock('POST', /\/a\/\d+/, h)` registered, a POST to `/a/123` is
      answered by `h` and a GET to the same url or a POST to `/b/123` is not. */
  lemma PatternUrlScenario(h: Handler, res: Response, headers: map<string, string>)
    ensures var wrapper := Wrap(Str("POST"), Re(SlashADigitsPattern()), Func(h));
      var hit := Request(Present("POST"), Present("/a/123"), headers, "");
      wrapper(hit, res) == h(hit, res) &&
      wrapper(Request(Present("GET"), Present("/a/123"), headers, ""), res) == NoMatch &&
      wrapper(Request(Present("POST"), Present("/b/123"), headers, ""), res) == NoMatch
  {
    var re := SlashADigitsPattern();
    assert re.test("/a/123") && !re.test("/b/123");
    assert Present("GET") != Present("POST") by { assert "GET"[0] != "POST"[0]; }
    WrapPatternUrl("POST", re, Func(h), Request(Present("POST"), Present("/a/123"), headers, ""), res);
    WrapPatternUrl("POST", re, Func(h), Request(Present("GET"), Present("/a/123"), headers, ""), res);
    WrapPatternUrl("POST", re, Func(h), Request(Present("POST"), Present("/b/123"), headers, ""), res);
  }

  /** `setup()` replaces the global constructor (`during` is what it installs)
      and `teardown()` puts back the very value that was there. */
  method SetupTeardownScenario(mock: Facade) returns (during: Ctor)
    requires mock.installed == mock.original && mock.original != MockXhr
    modifies mock, mock.registry
    ensures during == MockXhr && during != mock.original
    ensures mock.installed == mock.original
  {
    var xhr := mock.installed;
    var _ := mock.Setup();
    during := mock.installed;
    var _ := mock.Teardown();
    assert mock.installed == xhr;
  }

  /** A handler registered before `setup()` is gone after it, and one
      registered after `setup()` is gone after `teardown()`. */
  method RemoveHandlersScenario(mock: Facade, fn: Value)
    modifies mock, mock.registry
    ensures mock.registry.handlers == []
  {
    var _ := mock.Get(Str("http://www.google.com/"), fn);
    var _ := mock.Setup();
    assert |mock.registry.handlers| == 0;
    var _ := mock.Get(Str("http://www.google.com/"), fn);
    assert |mock.registry.handlers| == 1;
    var _ := mock.Teardown();
  }

  /** The same two test cases over traces: whatever state and calls came
      before, `get` then `setup` leaves no handler, and `setup`, `get`,
      `teardown` leaves no handler and the original constructor. */
  lemma {:induction false} RemoveHandlersTrace(original: Ctor, s: State, before: seq<Op>, url: Value, fn: Value)
    ensures Replay(original, s, before + [MockVerb(GET, url, fn), Setup]).handlers == []
    ensures Replay(original, s, before + [Setup, MockVerb(GET, url, fn), Teardown]) == State(original, [], [])
  {
    var ops := before + [MockVerb(GET, url, fn), Setup];
    ReplayHandlers(original, s, ops);
    assert SinceReset(ops) == [];
    assert AnyClears(ops);
    SetupThenTeardownRestores(original, s, before, [MockVerb(GET, url, fn)]);
    assert before + [Setup] + [MockVerb(GET, url, fn)] + [Teardown] == before + [Setup, MockVerb(GET, url, fn), Teardown];
  }
}
