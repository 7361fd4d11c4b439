/** Values shared by every part of the model: bytes, optional values, results
    and the error values the adapter builds (errors.New, errors.Wrap and the
    aggregate of go-multierror). */
module Base {

  newtype byte = b: int | 0 <= b < 256

  datatype Option<+T> = None | Some(value: T)

  datatype Result<+T> = Success(value: T) | Failure(error: Error)

  /** An error value: a plain message (errors.New), a message that wraps a
      cause (errors.Wrap), or an aggregate of several causes (multierror). */
  datatype Error =
    | New(text: string)
    | Wrap(context: string, cause: Error)
    | Multi(errors: seq<Error>)

  /** The causes an error contributes to an aggregate: an aggregate gives its
      list, every other error gives itself. */
  function Causes(e: Error): seq<Error>
  {
    if e.Multi? then e.errors else [e]
  }

  /** multierror.Append(err, next) as go-multierror defines it: both sides are
      flattened, so the result lists every cause of `err`, then every cause of
      `next`; neither is dropped. */
  function Append(err: Error, next: Error): (r: Error)
    ensures r.Multi?
    ensures forall c :: c in Causes(err) ==> c in r.errors
    ensures forall c :: c in Causes(next) ==> c in r.errors
    ensures |r.errors| == |Causes(err)| + |Causes(next)|
    ensures r.errors[..|Causes(err)|] == Causes(err) && r.errors[|Causes(err)|..] == Causes(next)
  {
    Multi(Causes(err) + Causes(next))
  }
}
