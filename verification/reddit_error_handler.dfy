/**
 * The `reddit_error_handler` decorator: one call of the wrapped PRAW request,
 * whose prawcore failures (and any other Exception) are each logged once and
 * turned into exit code 1. Nothing is retried and nothing sleeps.
 */
module RedditErrorHandler {
  import opened PyCall

  /** The HTTP response a prawcore ResponseException carries. */
  datatype HttpResponse = HttpResponse(status: int)

  /** An exception instance, by its class. NotFound, Forbidden and
      TooManyRequests derive from ResponseException; ResponseException stands
      for every other subclass too (BadRequest, ServerError, InvalidToken, ...).
      PrawcoreException is a prawcore failure without a response
      (RequestException, OAuthException, ...). OtherException is any other
      Exception subclass; SystemExit derives from BaseException only. */
  datatype Exc =
    | NotFound(response: Option<HttpResponse>)
    | Forbidden(response: Option<HttpResponse>)
    | TooManyRequests(response: Option<HttpResponse>)
    | ResponseException(response: Option<HttpResponse>)
    | PrawcoreException
    | OtherException(name: string)
    | SystemExit(code: int)

  /** isinstance(e, prawcore.exceptions.ResponseException) */
  predicate IsResponseException(e: Exc) {
    e.NotFound? || e.Forbidden? || e.TooManyRequests? || e.ResponseException?
  }

  /** isinstance(e, Exception) */
  predicate IsException(e: Exc) {
    !e.SystemExit?
  }

  /** The except clauses of the wrapper, one per class named. */
  datatype Clause = OnNotFound | OnForbidden | OnTooManyRequests | OnResponseException | OnException

  /** The position of each clause in the chain. */
  function Rank(k: Clause): nat {
    match k
    case OnNotFound => 0
    case OnForbidden => 1
    case OnTooManyRequests => 2
    case OnResponseException => 3
    case OnException => 4
  }

  /** Whether the class that clause k names covers e. */
  predicate Catches(k: Clause, e: Exc) {
    match k
    case OnNotFound => e.NotFound?
    case OnForbidden => e.Forbidden?
    case OnTooManyRequests => e.TooManyRequests?
    case OnResponseException => IsResponseException(e)
    case OnException => IsException(e)
  }

  /** The clause that handles e: the first in order whose class covers e. */
  function Catch(e: Exc): (k: Option<Clause>)
    ensures k.Some? ==> Catches(k.value, e)
    ensures k.Some? ==> forall k' :: Rank(k') < Rank(k.value) ==> !Catches(k', e)
    ensures k.None? <==> forall k' :: !Catches(k', e)
  {
    if Catches(OnNotFound, e) then Some(OnNotFound)
    else if Catches(OnForbidden, e) then Some(OnForbidden)
    else if Catches(OnTooManyRequests, e) then Some(OnTooManyRequests)
    else if Catches(OnResponseException, e) then Some(OnResponseException)
    else if Catches(OnException, e) then Some(OnException)
    else None
  }

  /** The log lines the wrapper writes, by the message they carry. The two
      ResponseException lines differ only in a colon after "Response Exception". */
  datatype Tag =
    | ResourceNotFound
    | AccessDenied
    | RateLimited
    | ResponseErrorUnauthorized
    | ResponseError
    | UnexpectedError

  /** The truth value of a `requests` Response: its `ok` property, false for
      every status from 400 to 599. */
  predicate Truthy(r: HttpResponse) {
    !(400 <= r.status < 600)
  }

  /** The ResponseException clause as written: `e.response and
      e.response.status_code == 401` tests the response's truth value first,
      and a 401 response is falsy, so the 401 line is never chosen. */
  function ResponseTagAsWritten(response: Option<HttpResponse>): (t: Tag)
    ensures t == ResponseError
  {
    if response.Some? && Truthy(response.value) && response.value.status == 401
    then ResponseErrorUnauthorized
    else ResponseError
  }

  /** The ResponseException clause as intended: a present response whose status is 401. */
  function ResponseTag(response: Option<HttpResponse>): (t: Tag)
    ensures t == ResponseErrorUnauthorized <==> response.Some? && response.value.status == 401
    ensures t == ResponseErrorUnauthorized || t == ResponseError
  {
    match response
    case Some(r) => if r.status == 401 then ResponseErrorUnauthorized else ResponseError
    case None => ResponseError
  }

  /** The line the handling clause k writes for e; `responseTag` picks the
      line of the ResponseException clause. */
  function ClauseTag(k: Clause, e: Exc, responseTag: Option<HttpResponse> -> Tag): Tag
    requires Catches(k, e)
  {
    match k
    case OnNotFound => ResourceNotFound
    case OnForbidden => AccessDenied
    case OnTooManyRequests => RateLimited
    case OnResponseException => responseTag(e.response)
    case OnException => UnexpectedError
  }

  /** What one call of the decorated function does: its outcome and the log
      lines written. The wrapped function runs once, with result `attempt`. */
  datatype Handled<R> = Handled(outcome: Outcome<R, Exc>, logs: seq<Tag>)

  /** The try/except of the wrapper, with the ResponseException line picked by
      `responseTag`. */
  function HandleWith<R>(attempt: Attempt<R, Exc>, responseTag: Option<HttpResponse> -> Tag): (h: Handled<R>)
    ensures attempt.Ok? ==> h == Handled(Returned(attempt.value), [])
    ensures attempt.Raise? && IsException(attempt.exc) ==> h.outcome == Exit(1) && |h.logs| == 1
    ensures attempt.Raise? && !IsException(attempt.exc) ==> h == Handled(Propagated(attempt.exc), [])
    ensures h.outcome.Exit? ==> h.outcome.code == 1
  {
    match attempt
    case Ok(v) => Handled(Returned(v), [])
    case Raise(e) =>
      match Catch(e)
      case None => Handled(Propagated(e), [])
      case Some(k) => Handled(Exit(1), [ClauseTag(k, e, responseTag)])
  }

  /** The decorator's `wrapper`, as written. */
  function Wrapper<R>(attempt: Attempt<R, Exc>): (h: Handled<R>)
    ensures attempt.Ok? ==> h == Handled(Returned(attempt.value), [])
    ensures attempt.Raise? && IsException(attempt.exc) ==> h.outcome == Exit(1) && |h.logs| == 1
    ensures attempt.Raise? && !IsException(attempt.exc) ==> h == Handled(Propagated(attempt.exc), [])
    ensures attempt.Raise? && attempt.exc.ResponseException? ==> h.logs == [ResponseError]
  {
    HandleWith(attempt, ResponseTagAsWritten)
  }

  /** The wrapper with the 401 test corrected: it ends exactly as `Wrapper`
      does, and writes the 401 line exactly for a ResponseException whose
      response has status 401. */
  function WrapperIntended<R>(attempt: Attempt<R, Exc>): (h: Handled<R>)
    ensures h.outcome == Wrapper(attempt).outcome
    ensures attempt.Raise? && attempt.exc.ResponseException? ==>
              (h.logs == [ResponseErrorUnauthorized] <==>
               attempt.exc.response.Some? && attempt.exc.response.value.status == 401)
    ensures !(attempt.Raise? && attempt.exc.ResponseException?) ==> h == Wrapper(attempt)
  {
    HandleWith(attempt, ResponseTag)
  }
}
