/**
 * The `handle_twitter_error` decorator: it calls the wrapped Tweepy request,
 * turns a response that carries an `errors` payload into a failure, and
 * dispatches failures through a chain of except clauses. Rate-limit and
 * server errors sleep and retry the request once; every other caught failure
 * ends the process with exit code 1.
 *
 * The wrapped function is `func`, where `func(i)` is what its i-th call does.
 * The clock is `clock`, where `clock(i)` is what the i-th `time.time()` read
 * returns. Sleeps and log lines are recorded in a `Trace` instead of being
 * performed.
 */
module TwitterErrorHandler {
  import opened PyCall

  /** A response of the wrapped request. `errors` is None when the response has
      no `errors` attribute. */
  datatype Response = Response(data: string, errors: Option<seq<string>>)

  /** One entry of a BadRequest's `api_errors` list: a dict, whose `parameters`
      is None when it has no "parameters" key and otherwise maps each parameter
      to a list of values, or a bare string (tweepy appends the body's "error"
      text as one). */
  datatype ApiError =
    | Entry(parameters: Option<map<string, seq<string>>>)
    | Message(text: string)

  /** The `x-rate-limit-reset` header of a TooManyRequests response: absent,
      an integer literal, or text that `int()` rejects. */
  datatype ResetHeader = Absent | Numeric(seconds: int) | Unparsable

  /** An exception instance, by its class. The tweepy classes Unauthorized,
      Forbidden, BadRequest, NotFound, TooManyRequests and TwitterServerError
      derive from HTTPException, which derives from TweepyException.
      OtherException is any other Exception subclass (ValueError, IndexError, ...),
      named by its class; SystemExit derives from BaseException only. */
  datatype Exc =
    | Unauthorized
    | Forbidden
    | BadRequest(apiErrors: seq<ApiError>)
    | NotFound
    | TooManyRequests(reset: ResetHeader)
    | TwitterServerError(status: int)
    | HTTPException(status: int)
    | TweepyException
    | OtherException(name: string)
    | SystemExit(code: int)

  /** isinstance(e, tweepy.TweepyException) */
  predicate IsTweepy(e: Exc) {
    !(e.OtherException? || e.SystemExit?)
  }

  /** isinstance(e, Exception) */
  predicate IsException(e: Exc) {
    !e.SystemExit?
  }

  /** The except clauses of the wrapper's outer try, one per class named. */
  datatype Clause =
    | OnUnauthorized | OnForbidden | OnBadRequest | OnTooManyRequests
    | OnServerError | OnTweepyException | OnException

  /** The position of each clause in the chain. */
  function Rank(k: Clause): nat {
    match k
    case OnUnauthorized => 0
    case OnForbidden => 1
    case OnBadRequest => 2
    case OnTooManyRequests => 3
    case OnServerError => 4
    case OnTweepyException => 5
    case OnException => 6
  }

  /** Whether the class that clause k names covers e. */
  predicate Catches(k: Clause, e: Exc) {
    match k
    case OnUnauthorized => e.Unauthorized?
    case OnForbidden => e.Forbidden?
    case OnBadRequest => e.BadRequest?
    case OnTooManyRequests => e.TooManyRequests?
    case OnServerError => e.TwitterServerError?
    case OnTweepyException => IsTweepy(e)
    case OnException => IsException(e)
  }

  /** The clause that handles e: clauses are tried in order and the first whose
      class covers e wins; None when no clause does. */
  function Catch(e: Exc): (k: Option<Clause>)
    ensures k.Some? ==> Catches(k.value, e)
    ensures k.Some? ==> forall k' :: Rank(k') < Rank(k.value) ==> !Catches(k', e)
    ensures k.None? <==> forall k' :: !Catches(k', e)
  {
    if Catches(OnUnauthorized, e) then Some(OnUnauthorized)
    else if Catches(OnForbidden, e) then Some(OnForbidden)
    else if Catches(OnBadRequest, e) then Some(OnBadRequest)
    else if Catches(OnTooManyRequests, e) then Some(OnTooManyRequests)
    else if Catches(OnServerError, e) then Some(OnServerError)
    else if Catches(OnTweepyException, e) then Some(OnTweepyException)
    else if Catches(OnException, e) then Some(OnException)
    else None
  }

  /** The log lines the wrapper writes, by the message they carry. */
  datatype Tag =
    | ApiReturnedErrors
    | InvalidCredentials
    | ActionForbidden
    | InvalidTweetId(id: string)
    | BadRequestGeneric
    | RateLimitSleeping(wait: real)
    | StillRateLimited
    | ServerErrorRetrying
    | StillFailingAfterServerError
    | UnexpectedTwitterError
    | UnexpectedError

  datatype Level = Warning | Error

  function LevelOf(t: Tag): Level {
    if t.RateLimitSleeping? || t.ServerErrorRetrying? then Warning else Error
  }

  /** The effects of one wrapper call: how often `func` ran, the `time.sleep`
      durations in order, and the log lines in order. */
  datatype Trace = Trace(calls: nat, sleeps: seq<real>, logs: seq<Tag>)

  datatype Run = Run(outcome: Outcome<Response, Exc>, trace: Trace)

  /** `hasattr(response, "errors") and response.errors`: present and non-empty. */
  predicate HasErrors(r: Response) {
    r.errors.Some? && |r.errors.value| > 0
  }

  /** `error.get("parameters", {})` on a dict entry. */
  function Params(a: ApiError): map<string, seq<string>>
    requires a.Entry?
  {
    match a.parameters
    case Some(p) => p
    case None => map[]
  }

  /** A dict entry whose parameters name "id". */
  predicate NamesId(a: ApiError) {
    a.Entry? && "id" in Params(a)
  }

  /** The scan of the BadRequest clause stops at an entry either because it
      names "id" or because `.get` raises AttributeError on a bare string. */
  predicate StopsScan(a: ApiError) {
    a.Message? || NamesId(a)
  }

  /** The position of the first entry where the scan stops. */
  function ScanStop(apiErrors: seq<ApiError>): (r: Option<nat>)
    ensures r.Some? ==> r.value < |apiErrors| && StopsScan(apiErrors[r.value])
    ensures r.Some? ==> forall j :: 0 <= j < r.value ==> !StopsScan(apiErrors[j])
    ensures r.None? ==> forall j :: 0 <= j < |apiErrors| ==> !StopsScan(apiErrors[j])
  {
    if |apiErrors| == 0 then None
    else if StopsScan(apiErrors[0]) then Some(0)
    else match ScanStop(apiErrors[1..])
      case None => None
      case Some(k) => Some(k + 1)
  }

  /** The `for error in e.api_errors` loop of the BadRequest clause, which
      leaves at the first entry whose parameters name "id", or at the first
      bare string, where `.get` raises. */
  method ScanApiErrors(apiErrors: seq<ApiError>) returns (found: Option<nat>)
    ensures found == ScanStop(apiErrors)
  {
    for i := 0 to |apiErrors|
      invariant forall j :: 0 <= j < i ==> !StopsScan(apiErrors[j])
    {
      if StopsScan(apiErrors[i]) {
        return Some(i);
      }
    }
    return None;
  }

  /** Python's `int(x)` on a float: truncation toward zero. */
  function Trunc(x: real): (n: int)
    ensures 0.0 <= x ==> n as real <= x < n as real + 1.0
    ensures x < 0.0 ==> n as real - 1.0 < x <= n as real
  {
    if 0.0 <= x then x.Floor else -((-x).Floor)
  }

  /** `int(headers.get("x-rate-limit-reset", now + 60))`; None when `int()`
      raises ValueError on the header's text. */
  function ResetTime(h: ResetHeader, now: real): (r: Option<int>)
    ensures h.Numeric? ==> r == Some(h.seconds)
    ensures h.Absent? && 0.0 <= now + 60.0 ==> r.Some? && now + 59.0 < r.value as real <= now + 60.0
    ensures h.Absent? && now + 60.0 < 0.0 ==> r.Some? && now + 60.0 <= r.value as real < now + 61.0
    ensures r.None? <==> h.Unparsable?
  {
    match h
    case Absent => Some(Trunc(now + 60.0))
    case Numeric(s) => Some(s)
    case Unparsable => None
  }

  /** `max(reset_time - now, 10)` */
  function RateLimitWait(reset: int, now: real): (wait: real)
    ensures wait >= 10.0 && wait >= reset as real - now
    ensures wait == 10.0 || wait == reset as real - now
  {
    if reset as real - now >= 10.0 then reset as real - now else 10.0
  }

  /** A handler that logs its last line and raises SystemExit(1), after one call. */
  function Terminal(logs: seq<Tag>): Run {
    Run(Exit(1), Trace(1, [], logs))
  }

  /** The second call of `func`, made inside a handler after `sleeps`; only a
      TweepyException from it is caught, and ends in exit code 1. */
  function Retry(second: Attempt<Response, Exc>, sleeps: seq<real>, logs: seq<Tag>, failTag: Tag): Run {
    match second
    case Ok(response) => Run(Returned(response), Trace(2, sleeps, logs))
    case Raise(e) =>
      if IsTweepy(e) then Run(Exit(1), Trace(2, sleeps, logs + [failTag]))
      else Run(Propagated(e), Trace(2, sleeps, logs))
  }

  /** The BadRequest clause. */
  function BadRequestClause(apiErrors: seq<ApiError>, logs: seq<Tag>): Run {
    match ScanStop(apiErrors)
    case Some(k) =>
      if apiErrors[k].Message? then Run(Propagated(OtherException("AttributeError")), Trace(1, [], logs))
      else
        var ids := Params(apiErrors[k])["id"];
        if |ids| == 0 then Run(Propagated(OtherException("IndexError")), Trace(1, [], logs))
        else Terminal(logs + [InvalidTweetId(ids[0])])
    case None => Terminal(logs + [BadRequestGeneric])
  }

  /** The TooManyRequests clause. */
  function RateLimitClause(h: ResetHeader, logs: seq<Tag>, func: nat -> Attempt<Response, Exc>, clock: nat -> real): Run {
    match ResetTime(h, clock(0))
    case None => Run(Propagated(OtherException("ValueError")), Trace(1, [], logs))
    case Some(reset) =>
      var wait := RateLimitWait(reset, clock(1));
      Retry(func(1), [wait + 1.0], logs + [RateLimitSleeping(wait)], StillRateLimited)
  }

  /** The outer except clauses, entered with the failure e of the first call
      and the log lines already written. */
  function Dispatch(e: Exc, logs: seq<Tag>, func: nat -> Attempt<Response, Exc>, clock: nat -> real): Run {
    match Catch(e)
    case None => Run(Propagated(e), Trace(1, [], logs))
    case Some(k) =>
      match k
      case OnUnauthorized => Terminal(logs + [InvalidCredentials])
      case OnForbidden => Terminal(logs + [ActionForbidden])
      case OnBadRequest => BadRequestClause(e.apiErrors, logs)
      case OnTooManyRequests => RateLimitClause(e.reset, logs, func, clock)
      case OnServerError => Retry(func(1), [10.0], logs + [ServerErrorRetrying], StillFailingAfterServerError)
      case OnTweepyException => Terminal(logs + [UnexpectedTwitterError])
      case OnException => Terminal(logs + [UnexpectedError])
  }

  /** One call of the decorated function, as a value. */
  function Handle(func: nat -> Attempt<Response, Exc>, clock: nat -> real): (r: Run)
    ensures r.trace.calls == 1 || r.trace.calls == 2
    ensures r.trace.calls == 2 <==> |r.trace.sleeps| == 1
    ensures r.trace.calls == 2 ==> func(0).Raise? && (func(0).exc.TooManyRequests? || func(0).exc.TwitterServerError?)
    ensures forall i :: 0 <= i < |r.trace.sleeps| ==> r.trace.sleeps[i] >= 10.0
    ensures |r.trace.logs| <= 2
    ensures r.outcome.Exit? ==> r.outcome.code == 1
    ensures r.outcome.Exit? ==> |r.trace.logs| > 0 && LevelOf(r.trace.logs[|r.trace.logs| - 1]) == Error
    ensures r.outcome.Returned? ==>
              || (r.trace.calls == 1 && func(0) == Ok(r.outcome.value) && !HasErrors(r.outcome.value))
              || (r.trace.calls == 2 && func(1) == Ok(r.outcome.value))
  {
    match func(0)
    case Ok(response) =>
      if HasErrors(response) then Dispatch(TweepyException, [ApiReturnedErrors], func, clock)
      else Run(Returned(response), Trace(1, [], []))
    case Raise(e) => Dispatch(e, [], func, clock)
  }

  /** The decorator's `wrapper`, step by step: each call of `func`, sleep and
      log line is appended to the trace as it happens. */
  method Wrapper(func: nat -> Attempt<Response, Exc>, clock: nat -> real)
    returns (outcome: Outcome<Response, Exc>, trace: Trace)
    ensures Run(outcome, trace) == Handle(func, clock)
  {
    var calls: nat, sleeps: seq<real>, logs: seq<Tag> := 0, [], [];
    var e: Exc;
    var first := func(calls);
    calls := calls + 1;
    match first {
      case Ok(response) =>
        if !HasErrors(response) {
          return Returned(response), Trace(calls, sleeps, logs);
        }
        logs := logs + [ApiReturnedErrors];
        e := TweepyException;
      case Raise(raised) =>
        e := raised;
    }
    var clause := Catch(e);
    if clause.None? {
      return Propagated(e), Trace(calls, sleeps, logs);
    }
    match clause.value {
      case OnUnauthorized =>
        logs := logs + [InvalidCredentials];
        outcome := Exit(1);
      case OnForbidden =>
        logs := logs + [ActionForbidden];
        outcome := Exit(1);
      case OnBadRequest =>
        var entry := ScanApiErrors(e.apiErrors);
        if entry.Some? {
          if e.apiErrors[entry.value].Message? {
            return Propagated(OtherException("AttributeError")), Trace(calls, sleeps, logs);
          }
          var ids := Params(e.apiErrors[entry.value])["id"];
          if |ids| == 0 {
            return Propagated(OtherException("IndexError")), Trace(calls, sleeps, logs);
          }
          logs := logs + [InvalidTweetId(ids[0])];
        } else {
          logs := logs + [BadRequestGeneric];
        }
        outcome := Exit(1);
      case OnTooManyRequests =>
        var reset := ResetTime(e.reset, clock(0));
        if reset.None? {
          return Propagated(OtherException("ValueError")), Trace(calls, sleeps, logs);
        }
        var wait := RateLimitWait(reset.value, clock(1));
        logs := logs + [RateLimitSleeping(wait)];
        sleeps := sleeps + [wait + 1.0];
        var second := func(calls);
        calls := calls + 1;
        match second {
          case Ok(response) =>
            outcome := Returned(response);
          case Raise(again) =>
            if IsTweepy(again) {
              logs := logs + [StillRateLimited];
              outcome := Exit(1);
            } else {
              outcome := Propagated(again);
            }
        }
      case OnServerError =>
        logs := logs + [ServerErrorRetrying];
        sleeps := sleeps + [10.0];
        var second := func(calls);
        calls := calls + 1;
        match second {
          case Ok(response) =>
            outcome := Returned(response);
          case Raise(again) =>
            if IsTweepy(again) {
              logs := logs + [StillFailingAfterServerError];
              outcome := Exit(1);
            } else {
              outcome := Propagated(again);
            }
        }
      case OnTweepyException =>
        logs := logs + [UnexpectedTwitterError];
        outcome := Exit(1);
      case OnException =>
        logs := logs + [UnexpectedError];
        outcome := Exit(1);
    }
    trace := Trace(calls, sleeps, logs);
  }
}
