/**
 * What `reddit_error_handler` promises, stated over `Wrapper`: one call,
 * first-match classification, exit code 1 for every caught exception.
 */
module RedditProperties {
  import opened PyCall
  import opened RedditErrorHandler

  /** The clause chosen for each kind of exception. */
  lemma CatchTable(e: Exc)
    ensures Catch(e) == match e
      case NotFound(_) => Some(OnNotFound)
      case Forbidden(_) => Some(OnForbidden)
      case TooManyRequests(_) => Some(OnTooManyRequests)
      case ResponseException(_) => Some(OnResponseException)
      case PrawcoreException | OtherException(_) => Some(OnException)
      case SystemExit(_) => None
  {
  }

  /** NotFound, Forbidden and TooManyRequests are ResponseExceptions, but the
      clauses naming them come first, so each gets its own message. */
  lemma SpecificClausesPrecedeResponseException<R>(e: Exc)
    requires e.NotFound? || e.Forbidden? || e.TooManyRequests?
    ensures Catches(OnResponseException, e)
    ensures Wrapper<R>(Raise(e)).logs ==
      [if e.NotFound? then ResourceNotFound else if e.Forbidden? then AccessDenied else RateLimited]
  {
  }

  /** Every caught exception, TooManyRequests included, ends in exit 1 with one
      log line and no retry. */
  lemma CaughtFailuresExit<R>(e: Exc)
    requires Catch(e).Some?
    ensures Wrapper<R>(Raise(e)) == Handled(Exit(1), [ClauseTag(Catch(e).value, e, ResponseTagAsWritten)])
  {
  }

  /** As written, a ResponseException ends in exit 1 with the same line
      whatever its status; with the corrected test only the line changes for 401. */
  lemma ResponseStatusOnlyChangesTheLine<R>(r: HttpResponse)
    ensures Wrapper<R>(Raise(ResponseException(Some(r)))) == Handled(Exit(1), [ResponseError])
    ensures WrapperIntended<R>(Raise(ResponseException(Some(r)))) ==
      Handled(Exit(1), [if r.status == 401 then ResponseErrorUnauthorized else ResponseError])
  {
  }

  /** SystemExit, raised for instance by `exit(1)` in the credential loader
      inside the wrapped function, is not an Exception and passes through. */
  lemma ExitFromFuncPassesThrough<R>(code: int)
    ensures Wrapper<R>(Raise(SystemExit(code))) == Handled(Propagated(SystemExit(code)), [])
  {
  }

  /** A 401 response gets the generic line as written and the 401 line as intended. */
  lemma Unauthorized401Misreported()
    ensures ResponseTagAsWritten(Some(HttpResponse(401))) == ResponseError
    ensures ResponseTag(Some(HttpResponse(401))) == ResponseErrorUnauthorized
    ensures Wrapper<int>(Raise(ResponseException(Some(HttpResponse(401))))).logs == [ResponseError]
    ensures WrapperIntended<int>(Raise(ResponseException(Some(HttpResponse(401))))).logs == [ResponseErrorUnauthorized]
  {
  }
}
