/** Go's `(value, error)` returns, and the message wrapping done by github.com/pkg/errors. */
module Results {

  /** A value that may be absent, as a nil error or a missing context value is. */
  datatype Option<+T> = None | Some(value: T)

  /** A call's outcome: a value, or an error carrying its message. */
  datatype Result<+T> = Ok(value: T) | Err(msg: string)

  /** `errors.Wrap(err, context)` on a non-nil error: the context, a colon, then the cause. */
  function Wrap(context: string, cause: string): (m: string)
    ensures |m| == |context| + 2 + |cause|
    ensures m[..|context|] == context && m[|m| - |cause|..] == cause
  {
    context + ": " + cause
  }

  /** `errors.Wrap` applied to a result: a nil error stays nil, a value is kept. */
  function WrapErr<T>(r: Result<T>, context: string): (w: Result<T>)
    ensures w.Ok? <==> r.Ok?
    ensures r.Ok? ==> w == r
    ensures r.Err? ==> w.msg == Wrap(context, r.msg)
  {
    match r
    case Ok(v) => Ok(v)
    case Err(e) => Err(Wrap(context, e))
  }
}
