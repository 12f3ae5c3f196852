/**
 * lib/try-catch.ts: normalising a thrown value to an Error, and the
 * `[error, null] | [null, value]` tuples of `tryCatch` and `asyncTryCatch`.
 */
module TryCatch {
  import opened Wrappers

  /**
   * A JavaScript `Error` instance. better-sqlite3 throws `SqliteError`, a subclass
   * that also carries the engine's result `code`; a plain `new Error(m)` has none.
   */
  datatype Error = Error(message: string, code: Option<string>)

  /** What the `message` property of a thrown object holds. */
  datatype Property = StringProperty(s: string) | OtherProperty

  /** A thrown value, told apart as far as `formatError` looks at it. */
  datatype Thrown =
    | ErrorInstance(error: Error)
    | StringValue(s: string)
    | ObjectValue(message: Option<Property>)  // non-null, not an Error; its `message`, if it has one
    | NullValue
    | OtherValue                              // undefined, numbers, booleans, symbols, functions, ...

  const UnknownError := Error("Unknown error", None)

  /** The string message a thrown value carries, if it carries one at all. */
  function CarriedMessage(t: Thrown): Option<string> {
    match t
    case ErrorInstance(e) => Some(e.message)
    case StringValue(s) => Some(s)
    case ObjectValue(Some(StringProperty(s))) => Some(s)
    case _ => None
  }

  /**
   * formatError: an Error is returned as it is (so a SqliteError keeps its code);
   * anything else becomes a fresh Error carrying the value's message, or
   * "Unknown error" when it has none.
   */
  function FormatError(t: Thrown): (e: Error)
    ensures t.ErrorInstance? ==> e == t.error
    ensures e.code.Some? ==> t.ErrorInstance?
    ensures CarriedMessage(t).Some? ==> e.message == CarriedMessage(t).value
    ensures CarriedMessage(t).None? ==> e == UnknownError
  {
    if t.ErrorInstance? then t.error
    else if t.StringValue? then Error(t.s, None)
    else if t.ObjectValue? && t.message.Some? && t.message.value.StringProperty? then Error(t.message.value.s, None)
    else UnknownError
  }

  /** Normalising an already normalised error changes nothing. */
  lemma FormatErrorIdempotent(t: Thrown)
    ensures FormatError(ErrorInstance(FormatError(t))) == FormatError(t)
  {
  }

  /** How a thunk ended: it returned a value or it threw. */
  datatype Outcome<T> = Returned(value: T) | Threw(thrown: Thrown)

  /** The `[error, value]` tuple; `None` stands for `null`. */
  datatype Pair<T> = Pair(error: Option<Error>, value: Option<T>)

  /**
   * tryCatch: the error side is set exactly on a throw. A normal return gives
   * `[null, value]`; a throw gives `[formatError(e), null]`, so a caller's
   * `if (err)` sees every failure. A thunk that returns `null` or `undefined`
   * has an `Option` result type here, so its `[null, null]` is
   * `Pair(None, Some(None))`: the value side holds the returned `None`.
   */
  function TryCatch<T>(o: Outcome<T>): (r: Pair<T>)
    ensures r.error.Some? != r.value.Some?
    ensures r.error.None? <==> o.Returned?
    ensures o.Returned? ==> r.value == Some(o.value)
    ensures o.Threw? ==> r.error == Some(FormatError(o.thrown))
  {
    match o
    case Returned(v) => Pair(None, Some(v))
    case Threw(t) => Pair(Some(FormatError(t)), None)
  }

  /** How a promise settled. */
  datatype Settled<T> = Resolved(value: T) | Rejected(reason: Thrown)

  function AsOutcome<T>(p: Settled<T>): Outcome<T> {
    match p
    case Resolved(v) => Returned(v)
    case Rejected(t) => Threw(t)
  }

  /** asyncTryCatch: the same mapping, for a resolved or rejected promise. */
  function AsyncTryCatch<T>(p: Settled<T>): (r: Pair<T>)
    ensures r.error.Some? != r.value.Some?
    ensures p.Resolved? ==> r == Pair(None, Some(p.value))
    ensures p.Rejected? ==> r == Pair(Some(FormatError(p.reason)), None)
  {
    match p
    case Resolved(v) => Pair(None, Some(v))
    case Rejected(t) => Pair(Some(FormatError(t)), None)
  }

  /** Awaiting a settled promise inside try/catch is running a thunk inside try/catch. */
  lemma AsyncTryCatchAgrees<T>(p: Settled<T>)
    ensures AsyncTryCatch(p) == TryCatch(AsOutcome(p))
  {
  }
}
