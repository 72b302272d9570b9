/** Small failure-carrying datatypes shared by every module of the model. */
module Wrappers {

  /** A value that may be missing: Go's nil pointer, JavaScript's undefined. */
  datatype Option<+T> = None | Some(value: T) {
    function GetOr(default: T): T {
      match this
      case Some(v) => v
      case None => default
    }
  }

  /** The result of a Go function returning `(T, error)`: a value or the
      error's message (wrapped errors are messages joined by ": "). */
  datatype Result<+T> = Ok(value: T) | Err(msg: string)

  /** The result of a Go function returning only `error`. */
  type Outcome = Result<()>

  const Done: Outcome := Ok(())

  /** A successful `error`-only result carries nothing: it is `Done`. */
  lemma OkIsDone(o: Outcome)
    ensures o.Ok? ==> o == Done
  {
    if o.Ok? {
      var u: () := o.value;
      assert u == ();
    }
  }

  /** Go's `fmt.Errorf("<context>: %w", err)`: the context, a colon and the cause. */
  function Wrap(context: string, cause: string): string {
    context + ": " + cause
  }
}
