/** The error values the client returns: EdgeX errors, which carry a kind,
    a message and the error they wrap, plus the small result wrappers used
    throughout the model. */
module Errors {

  datatype Option<+T> = None | Some(value: T)

  datatype Result<+T> = Ok(value: T) | Err(error: EdgeX)

  /** A call that returns only an error (Go: an `errors.EdgeX` that is nil or not). */
  datatype Outcome = Pass | Fail(error: EdgeX)

  /** The error kinds the client distinguishes; every other kind reported by a
      collaborator is carried by name. */
  datatype ErrKind =
    | KindUnknown
    | KindContractInvalid
    | KindServerError
    | KindOther(name: string)

  /** An EdgeX error: its kind, a message giving the context, and the error it wraps. */
  datatype EdgeX = EdgeX(kind: ErrKind, message: string, cause: Option<EdgeX>)

  /** `errors.Kind(err)`: the first kind other than `KindUnknown` met on the way
      down the chain of wrapped errors, or `KindUnknown` when there is none. */
  function Kind(e: EdgeX): (k: ErrKind)
    decreases e
  {
    if e.kind != KindUnknown || e.cause.None? then e.kind else Kind(e.cause.value)
  }

  /** `errors.NewCommonEdgeX(kind, message, cause)`. */
  function NewCommonEdgeX(kind: ErrKind, message: string, cause: Option<EdgeX>): (e: EdgeX)
    ensures e.kind == kind && e.message == message && e.cause == cause
  {
    EdgeX(kind, message, cause)
  }

  /** `errors.NewCommonEdgeXWrapper(err)`: a wrapper without message of its own that
      reports the kind of the error it wraps. */
  function NewCommonEdgeXWrapper(err: EdgeX): (e: EdgeX)
    ensures Kind(e) == Kind(err) && e.cause == Some(err) && e != err
  {
    EdgeX(Kind(err), "", Some(err))
  }

  /** The pattern `if err != nil { return NewCommonEdgeX(Kind(err), message, err) }`
      used by every public operation: a failure keeps its kind and gains context. */
  function Annotate(o: Outcome, message: string): (r: Outcome)
    ensures r.Pass? <==> o.Pass?
    ensures r.Fail? ==> Kind(r.error) == Kind(o.error) && r.error.message == message
                        && r.error.cause == Some(o.error)
  {
    match o
    case Pass => Pass
    case Fail(e) => Fail(NewCommonEdgeX(Kind(e), message, Some(e)))
  }
}
