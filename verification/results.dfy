/** Outcomes shared by every layer of the adapter: the host protocol's status
    codes, the adapter's own error taxonomy, and the Option/Result wrappers
    that carry them. */
module Results {

  /** A value that may be absent (a null pointer, a missing optional suite). */
  datatype Option<+T> = None | Some(value: T) {

    predicate IsFailure() {
      None?
    }

    function PropagateFailure<U>(): Option<U>
      requires None?
    {
      None
    }

    function Extract(): T
      requires Some?
    {
      value
    }
  }

  /** The status enumeration every suite call and every `mainEntry` returns. */
  datatype Status =
    | OK
    | ReplyDefault
    | Failed
    | ErrFatal
    | ErrBadHandle
    | ErrBadIndex
    | ErrValue
    | ErrUnknown
    | ErrMemory
    | ErrUnsupported
    | ErrMissingHostFeature

  /** The adapter's error kinds. `HostFailure` carries a non-OK status that a
      suite call reported. */
  datatype Error =
    | InvalidSuite
    | InvalidHandle
    | InvalidAction
    | HostNotReady
    | SuiteNotInitialized
    | StringConversion
    | Unimplemented
    | HostFailure(status: Status)

  datatype Result<+T> = Ok(value: T) | Err(error: Error) {

    predicate IsFailure() {
      Err?
    }

    function PropagateFailure<U>(): Result<U>
      requires Err?
    {
      Err(error)
    }

    function Extract(): T
      requires Ok?
    {
      value
    }
  }

  /** How a suite call's status becomes a result: only `OK` is success, and a
      failure keeps the status it came from. */
  function Check(s: Status): (r: Result<()>)
    ensures r.Ok? <==> s == OK
    ensures r.Err? ==> r.error == HostFailure(s)
  {
    if s == OK then Ok(()) else Err(HostFailure(s))
  }
}
