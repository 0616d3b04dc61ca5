/** Errors as the services produce them: provider errors classified by status
    code, and messages wrapped around a cause (github.com/pkg/errors). */
module Errors {

  /** The classification of a failed provider call. The provider model only
      produces these two: a missing resource, or any other server failure. */
  datatype ProviderError = NotFound | InternalServerError

  datatype Error =
    | Provider(cause: ProviderError)       // an error returned by a provider client
    | New(msg: string)                     // errors.New / errors.Errorf
    | Wrap(msg: string, inner: Error)      // errors.Wrap / errors.Wrapf

  /** The text the SDK gives a provider error (the format the tests expect). */
  function ProviderText(p: ProviderError): string {
    match p
    case NotFound => "#: Not found: StatusCode=404"
    case InternalServerError => "#: Internal Server Error: StatusCode=500"
  }

  /** err.Error(): a wrapper prints its message, ": ", then its cause. */
  function Text(e: Error): string {
    match e
    case Provider(p) => ProviderText(p)
    case New(m) => m
    case Wrap(m, inner) => m + ": " + Text(inner)
  }

  /** The innermost error, the one errors.Cause and errors.As reach. */
  function Cause(e: Error): (c: Error)
    ensures !c.Wrap?
  {
    match e
    case Wrap(_, inner) => Cause(inner)
    case _ => e
  }

  /** azure.ResourceNotFound: the error, looked through any wrapping, is a
      provider error with status 404. */
  predicate IsNotFound(e: Error) {
    Cause(e) == Provider(NotFound)
  }
}
