/** The pure part of `mock(method, url, fn)` in index.js: the `matcher` and
    `handler` closures built for a three-argument call, the choice between the
    two call shapes by argument count, and the verb helpers that forward to it. */
module Matching {
  import opened Requests

  /** `v === f` for a registered value `v` and a request field `f`: a string
      equals a string with the same characters, `undefined` equals `undefined`,
      and no other value is strictly equal to a string or to `undefined`. */
  predicate StrictEquals(v: Value, f: Field) {
    match v
    case Str(s) => f == Present(s)
    case Undefined => f.Absent?
    case _ => false
  }

  /** `req.method() !== method` is false exactly when the two are strictly equal. */
  predicate MethodMatches(httpMethod: Value, req: Request) {
    StrictEquals(httpMethod, req.httpMethod)
  }

  /** A RegExp url is tested against the request url's text; any other url is
      compared with `===`. */
  predicate UrlMatches(url: Value, reqUrl: Field) {
    if url.Re? then url.re.test(FieldText(reqUrl)) else StrictEquals(url, reqUrl)
  }

  /** The `matcher` closure: the method is checked first, then the url. */
  predicate Matches(httpMethod: Value, url: Value, req: Request) {
    MethodMatches(httpMethod, req) && UrlMatches(url, req.url)
  }

  /** `fn(req, res)`: a function value is called; calling anything else throws. */
  function Invoke(fn: Value, req: Request, res: Response): HandlerResult {
    if fn.Func? then fn.call(req, res) else Thrown(NotAFunction)
  }

  /** The `handler` closure registered for `mock(method, url, fn)`. */
  function Wrap(httpMethod: Value, url: Value, fn: Value): Handler {
    (req: Request, res: Response) =>
      if Matches(httpMethod, url, req) then Invoke(fn, req, res) else NoMatch
  }

  /** The two call shapes of `mock`, told apart by `arguments.length`. */
  datatype MockCall =
    | HandlerOnly(handler: Value)
    | MethodUrlHandler(httpMethod: Value, url: Value, fn: Value)

  /** Resolves the call shape once, at registration time. With other than three
      arguments the first one (`undefined` when there is none) is the handler. */
  function Shape(args: seq<Value>): (c: MockCall)
    ensures c.MethodUrlHandler? <==> |args| == 3
    ensures c.MethodUrlHandler? ==> [c.httpMethod, c.url, c.fn] == args
    ensures c.HandlerOnly? && |args| > 0 ==> c.handler == args[0]
    ensures c.HandlerOnly? && args == [] ==> c.handler.Undefined?
  {
    if |args| == 3 then MethodUrlHandler(args[0], args[1], args[2])
    else if |args| == 0 then HandlerOnly(Undefined)
    else HandlerOnly(args[0])
  }

  /** The value handed to `addHandler` for a call shape. */
  function Normalize(c: MockCall): Value {
    match c
    case HandlerOnly(h) => h
    case MethodUrlHandler(m, u, f) => Func(Wrap(m, u, f))
  }

  /** The handler that `mock(args...)` registers. */
  function Registered(args: seq<Value>): Value {
    Normalize(Shape(args))
  }

  /** The verb helpers `get`, `post`, `put`, `patch` and `delete`. */
  datatype Verb = GET | POST | PUT | PATCH | DELETE

  /** The fixed method string each verb helper passes to `mock`. */
  function VerbName(v: Verb): (name: string)
    ensures |name| >= 3
    ensures forall i :: 0 <= i < |name| ==> 'A' <= name[i] <= 'Z'
  {
    match v
    case GET => "GET"
    case POST => "POST"
    case PUT => "PUT"
    case PATCH => "PATCH"
    case DELETE => "DELETE"
  }

  /** The arguments a verb helper passes on: always exactly three. */
  function VerbArgs(v: Verb, url: Value, fn: Value): (args: seq<Value>)
    ensures Shape(args) == MethodUrlHandler(Str(VerbName(v)), url, fn)
  {
    [Str(VerbName(v)), url, fn]
  }

  /** Distinct verbs pass distinct method strings, so a handler registered
      through one verb helper never matches a request made with another verb. */
  lemma VerbNameInjective(v: Verb, w: Verb)
    ensures VerbName(v) == VerbName(w) ==> v == w
  {
    if VerbName(v) == VerbName(w) {
      assert VerbName(v)[|VerbName(v)| - 1] == VerbName(w)[|VerbName(w)| - 1];
      assert VerbName(v)[1] == VerbName(w)[1];
    }
  }

  /** When the method differs, the wrapper declines with the `false` sentinel,
      and its result is the same whatever `fn` is: `fn` is not consulted. */
  lemma WrapRejectsOtherMethod(httpMethod: Value, url: Value, fn: Value, req: Request, res: Response)
    requires !MethodMatches(httpMethod, req)
    ensures Wrap(httpMethod, url, fn)(req, res) == NoMatch
  {
  }

  /** Whenever the matcher fails the wrapper returns `false` for every `fn`. */
  lemma WrapIgnoresFnOnMismatch(httpMethod: Value, url: Value, fn: Value, other: Value, req: Request, res: Response)
    requires !Matches(httpMethod, url, req)
    ensures Wrap(httpMethod, url, fn)(req, res) == Wrap(httpMethod, url, other)(req, res) == NoMatch
  {
  }

  /** With a string url the wrapper calls `fn` if and only if the method and the
      url are both exactly equal to the request's. */
  lemma WrapExactUrl(httpMethod: string, url: string, fn: Value, req: Request, res: Response)
    ensures Wrap(Str(httpMethod), Str(url), fn)(req, res) ==
            if req.httpMethod == Present(httpMethod) && req.url == Present(url) then Invoke(fn, req, res) else NoMatch
  {
  }

  /** With a RegExp url the wrapper calls `fn` if and only if the method is equal
      and the pattern's test succeeds on the request url. */
  lemma WrapPatternUrl(httpMethod: string, re: RegExp, fn: Value, req: Request, res: Response)
    ensures Wrap(Str(httpMethod), Re(re), fn)(req, res) ==
            if req.httpMethod == Present(httpMethod) && re.test(FieldText(req.url)) then Invoke(fn, req, res) else NoMatch
  {
  }

  /** An `undefined` url, as in `get(undefined, fn)`, is strictly equal to the
      url of a request opened without one, and to no other url. */
  lemma WrapUndefinedUrl(httpMethod: string, fn: Value, req: Request, res: Response)
    ensures Wrap(Str(httpMethod), Undefined, fn)(req, res) ==
            if req.httpMethod == Present(httpMethod) && req.url.Absent? then Invoke(fn, req, res) else NoMatch
  {
  }

  /** When the matcher succeeds, the wrapper's result is `fn(req, res)` itself. */
  lemma WrapForwardsResult(httpMethod: Value, url: Value, f: Handler, req: Request, res: Response)
    requires Matches(httpMethod, url, req)
    ensures Wrap(httpMethod, url, Func(f))(req, res) == f(req, res)
  {
  }

  /** A call with other than three arguments registers its first argument as it
      is; a three-argument call registers the wrapper around its arguments. */
  lemma RegisteredByArity(args: seq<Value>)
    ensures |args| != 3 && |args| > 0 ==> Registered(args) == args[0]
    ensures |args| == 3 ==> Registered(args) == Func(Wrap(args[0], args[1], args[2]))
  {
  }

  /** Each verb helper registers exactly what `mock(VERB, url, fn)` registers. */
  lemma VerbIsMock(v: Verb, url: Value, fn: Value)
    ensures Registered(VerbArgs(v, url, fn)) == Func(Wrap(Str(VerbName(v)), url, fn))
  {
  }
}
