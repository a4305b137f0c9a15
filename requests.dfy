/** Values that flow through the xhr-mock facade: the intercepted request a
    handler inspects, the response it builds, what a handler returns, and the
    JavaScript values a caller may pass as arguments to `mock`. */
module Requests {

  /** What `req.method()` or `req.url()` returns: the string given to `open`,
      or `undefined` when `open` did not set it (`xhr.open('/')` sets no url). */
  datatype Field = Present(s: string) | Absent

  /** The text a RegExp test sees: JavaScript converts `undefined` to the
      string "undefined" before testing it. */
  function FieldText(f: Field): string {
    match f
    case Present(s) => s
    case Absent => "undefined"
  }

  /** An intercepted request as a handler sees it through `req.method()` and
      `req.url()`; headers and body are carried but never inspected here. */
  datatype Request = Request(httpMethod: Field, url: Field, headers: map<string, string>, body: string)

  /** The synthetic response a handler fills in (`res.status(..).body(..)`). */
  datatype Response = Response(status: int, headers: map<string, string>, body: string)

  /** What a handler call produces. `NoMatch` is the `false` sentinel (decline,
      try the next handler), `Pending` is `undefined` (the handler resolves the
      response later), `Resolved` carries the response, and `Thrown` is an
      exception escaping the call, which propagates to the caller unchanged. */
  datatype HandlerResult =
    | NoMatch
    | Pending
    | Resolved(response: Response)
    | Thrown(error: string)

  /** A handler function, called as `handler(req, res)`. */
  type Handler = (Request, Response) -> HandlerResult

  /** A JavaScript RegExp object. Its `test` method is the regular-expression
      engine, which is not modelled: it is carried as an uninterpreted predicate. */
  datatype RegExp = RegExp(source: string, test: string -> bool)

  /** A JavaScript value as passed to `mock`, `get`, ... : the kinds that the
      facade's code distinguishes (a string, a RegExp, a function, `undefined`)
      and every other value, known only by its identity. */
  datatype Value =
    | Undefined
    | Str(s: string)
    | Re(re: RegExp)
    | Func(call: Handler)
    | Opaque(id: nat)

  /** The message of the TypeError a call of a non-function value raises. */
  const NotAFunction: string := "TypeError: fn is not a function"
}
