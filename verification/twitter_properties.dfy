/**
 * What `handle_twitter_error` promises, stated over the value model `Handle`:
 * which failures end the process, which sleep and retry, and how often the
 * wrapped request runs.
 */
module TwitterProperties {
  import opened PyCall
  import opened TwitterErrorHandler

  /** The clause chosen for each kind of exception. */
  lemma CatchTable(e: Exc)
    ensures Catch(e) == match e
      case Unauthorized => Some(OnUnauthorized)
      case Forbidden => Some(OnForbidden)
      case BadRequest(_) => Some(OnBadRequest)
      case TooManyRequests(_) => Some(OnTooManyRequests)
      case TwitterServerError(_) => Some(OnServerError)
      case NotFound | HTTPException(_) | TweepyException => Some(OnTweepyException)
      case OtherException(_) => Some(OnException)
      case SystemExit(_) => None
  {
  }

  /** The specific tweepy classes are also TweepyExceptions, yet the clauses
      that name them come first, so the generic clause never sees them. */
  lemma SpecificClausesPrecedeGeneric(e: Exc)
    requires e.Unauthorized? || e.Forbidden? || e.BadRequest? || e.TooManyRequests? || e.TwitterServerError?
    ensures Catches(OnTweepyException, e) && Catches(OnException, e)
    ensures Catch(e).Some? && Rank(Catch(e).value) < Rank(OnTweepyException)
  {
  }

  /** A clean first response is handed back after one call, with no effects. */
  lemma SuccessPassesThrough(func: nat -> Attempt<Response, Exc>, clock: nat -> real)
    requires func(0).Ok? && !HasErrors(func(0).value)
    ensures Handle(func, clock) == Run(Returned(func(0).value), Trace(1, [], []))
  {
  }

  /** A first response that carries errors raises a bare TweepyException,
      which only the generic tweepy clause catches: exit 1, no sleep, no retry. */
  lemma ErrorsPayloadIsTerminal(func: nat -> Attempt<Response, Exc>, clock: nat -> real)
    requires func(0).Ok? && HasErrors(func(0).value)
    ensures Catch(TweepyException) == Some(OnTweepyException)
    ensures Handle(func, clock) == Run(Exit(1), Trace(1, [], [ApiReturnedErrors, UnexpectedTwitterError]))
  {
  }

  /** Unauthorized and Forbidden end in exit 1 after a single call. */
  lemma CredentialFailuresAreTerminal(func: nat -> Attempt<Response, Exc>, clock: nat -> real)
    requires func(0) == Raise(Unauthorized) || func(0) == Raise(Forbidden)
    ensures Handle(func, clock).outcome == Exit(1)
    ensures Handle(func, clock).trace.calls == 1 && Handle(func, clock).trace.sleeps == []
    ensures Handle(func, clock).trace.logs == [if func(0).exc.Unauthorized? then InvalidCredentials else ActionForbidden]
  {
  }

  /** BadRequest reports the first entry that names "id", else a generic
      message; neither sleeps nor retries. A bare-string entry met first makes
      `.get` raise AttributeError, which escapes unlogged. */
  lemma BadRequestReportsFirstIdEntry(func: nat -> Attempt<Response, Exc>, clock: nat -> real, errs: seq<ApiError>)
    requires func(0) == Raise(BadRequest(errs))
    ensures Handle(func, clock).trace.calls == 1 && Handle(func, clock).trace.sleeps == []
    ensures ScanStop(errs).None? ==> Handle(func, clock) == Run(Exit(1), Trace(1, [], [BadRequestGeneric]))
    ensures forall k :: ScanStop(errs) == Some(k) && NamesId(errs[k]) && |Params(errs[k])["id"]| > 0 ==>
              && (forall j :: 0 <= j < k ==> !NamesId(errs[j]))
              && Handle(func, clock) == Run(Exit(1), Trace(1, [], [InvalidTweetId(Params(errs[k])["id"][0])]))
    ensures forall k :: ScanStop(errs) == Some(k) && errs[k].Message? ==>
              Handle(func, clock) == Run(Propagated(OtherException("AttributeError")), Trace(1, [], []))
  {
  }

  /** A rate limit sleeps `max(reset - now, 10) + 1`, at least 11 seconds, then
      calls `func` a second and last time. */
  lemma RateLimitSleepsThenRetriesOnce(func: nat -> Attempt<Response, Exc>, clock: nat -> real, h: ResetHeader)
    requires func(0) == Raise(TooManyRequests(h)) && !h.Unparsable?
    ensures var r := Handle(func, clock);
      && r.trace.calls == 2
      && r.trace.sleeps == [RateLimitWait(ResetTime(h, clock(0)).value, clock(1)) + 1.0]
      && r.trace.sleeps[0] >= 11.0
      && r.trace.logs[0] == RateLimitSleeping(r.trace.sleeps[0] - 1.0)
  {
  }

  /** Without a reset header the reset time is `int(now + 60)`. */
  lemma MissingResetHeaderWaitsAboutAMinute(func: nat -> Attempt<Response, Exc>, clock: nat -> real)
    requires func(0) == Raise(TooManyRequests(Absent))
    requires clock(0) == clock(1) && clock(0) >= 0.0
    ensures var s := Handle(func, clock).trace.sleeps;
      |s| == 1 && 60.0 < s[0] <= 61.0
  {
  }

  /** A reset time five seconds ahead still sleeps the 10-second floor plus one. */
  lemma RateLimitFiveSecondsAhead(func: nat -> Attempt<Response, Exc>, clock: nat -> real, reset: int)
    requires func(0) == Raise(TooManyRequests(Numeric(reset)))
    requires reset as real == clock(1) + 5.0
    ensures Handle(func, clock).trace.sleeps == [11.0]
    ensures Handle(func, clock).trace.calls == 2
  {
  }

  /** A header `int()` rejects raises ValueError inside the handler, which
      escapes the wrapper before any sleep or log line. */
  lemma UnparsableResetEscapes(func: nat -> Attempt<Response, Exc>, clock: nat -> real)
    requires func(0) == Raise(TooManyRequests(Unparsable))
    ensures Handle(func, clock) == Run(Propagated(OtherException("ValueError")), Trace(1, [], []))
  {
  }

  /** A server error sleeps exactly 10 seconds, whatever its status, then
      calls `func` a second and last time. */
  lemma ServerErrorSleepsTenThenRetriesOnce(func: nat -> Attempt<Response, Exc>, clock: nat -> real, status: int)
    requires func(0) == Raise(TwitterServerError(status))
    ensures Handle(func, clock).trace.calls == 2
    ensures Handle(func, clock).trace.sleeps == [10.0]
    ensures Handle(func, clock).trace.logs[0] == ServerErrorRetrying
  {
  }

  /** The first failure is one the wrapper retries. */
  predicate Retried(e: Exc) {
    e.TwitterServerError? || (e.TooManyRequests? && !e.reset.Unparsable?)
  }

  /** After a retry: a response is returned as it is (its errors are not
      checked again), a TweepyException ends in exit 1, anything else escapes. */
  lemma RetryOutcome(func: nat -> Attempt<Response, Exc>, clock: nat -> real)
    requires func(0).Raise? && Retried(func(0).exc)
    ensures var r := Handle(func, clock);
      && (func(1).Ok? ==> r.outcome == Returned(func(1).value))
      && (func(1).Raise? && IsTweepy(func(1).exc) ==> r.outcome == Exit(1))
      && (func(1).Raise? && !IsTweepy(func(1).exc) ==> r.outcome == Propagated(func(1).exc))
  {
  }

  /** A retry whose response carries errors is still returned. */
  lemma RetriedErrorsPayloadReturned(func: nat -> Attempt<Response, Exc>, clock: nat -> real)
    requires func(0).Raise? && Retried(func(0).exc)
    requires func(1).Ok? && HasErrors(func(1).value)
    ensures Handle(func, clock).outcome == Returned(func(1).value)
  {
  }

  /** Only the first two calls of `func` are ever observed: a third is never made. */
  lemma NoThirdCall(f: nat -> Attempt<Response, Exc>, g: nat -> Attempt<Response, Exc>, clock: nat -> real)
    requires f(0) == g(0) && f(1) == g(1)
    ensures Handle(f, clock) == Handle(g, clock)
  {
  }

  /** When the wrapper reports one call, the second is not observed either. */
  lemma OneCallObservesOnlyTheFirst(f: nat -> Attempt<Response, Exc>, g: nat -> Attempt<Response, Exc>, clock: nat -> real)
    requires f(0) == g(0) && Handle(f, clock).trace.calls == 1
    ensures Handle(f, clock) == Handle(g, clock)
  {
  }

  /** A non-tweepy Exception from the first call ends in exit 1 without retry. */
  lemma OtherFirstFailureIsTerminal(func: nat -> Attempt<Response, Exc>, clock: nat -> real, name: string)
    requires func(0) == Raise(OtherException(name))
    ensures Handle(func, clock) == Run(Exit(1), Trace(1, [], [UnexpectedError]))
  {
  }

  /** NotFound has no clause of its own; the generic tweepy clause ends it. */
  lemma NotFoundIsTerminal(func: nat -> Attempt<Response, Exc>, clock: nat -> real)
    requires func(0) == Raise(NotFound)
    ensures Handle(func, clock) == Run(Exit(1), Trace(1, [], [UnexpectedTwitterError]))
  {
  }

  /** SystemExit is not an Exception: it passes through the wrapper untouched. */
  lemma ExitFromFuncPassesThrough(func: nat -> Attempt<Response, Exc>, clock: nat -> real, code: int)
    requires func(0) == Raise(SystemExit(code))
    ensures Handle(func, clock) == Run(Propagated(SystemExit(code)), Trace(1, [], []))
  {
  }
}
