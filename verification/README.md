# Error-handling decorators of the Twitter-like and Reddit-fetch scripts

This project models the two decorators that wrap the single API call of each
script.

- `handle_twitter_error` (twitter_like/twitter_error_handler.py). It calls the wrapped Tweepy request.
  - A response whose `errors` payload is non-empty becomes a failure.
  - Failures go through the except chain in order.
  - On a rate limit it sleeps `max(reset - now, 10) + 1` seconds and calls the request once more.
  - On a Twitter server error it sleeps 10 seconds and calls it once more.
  - Every other caught failure, and a Tweepy failure on the retry, ends with `SystemExit(1)`.
- `reddit_error_handler` (reddit_fetch/reddit_error_handler.py). It calls the wrapped PRAW request once.
  - Each caught exception writes one log line and ends with `SystemExit(1)`.
  - Nothing is retried.

The model replaces the script's environment with inputs and records effects in a trace:
- The wrapped function is `func: nat -> Attempt`, where `func(i)` is the result of its i-th call.
- The clock is `clock: nat -> real`, where `clock(i)` is the value of the i-th `time.time()` read.
- Sleeps, log lines (as tags) and the number of calls are recorded in a `Trace`.
- Exception classes are datatype constructors. Each `except` clause is a `Clause` value with its position (`Rank`) and the classes it covers (`Catches`).

Modules:
- `PyCall` (pycall.dfy): the call result `Attempt` and the wrapper result `Outcome`, which is `Returned`, `Exit(code)` or `Propagated(exc)`.
- `TwitterErrorHandler` (twitter_error_handler.dfy) has two models of the wrapper.
  - `Handle` is a value model.
  - `Wrapper` is a step-by-step method that builds its trace as it goes and is proved equal to `Handle`.
  - The BadRequest `for` loop is the method `ScanApiErrors`.
- `TwitterProperties` (twitter_properties.dfy): the lemmas about the Twitter handler.
- `RedditErrorHandler` (reddit_error_handler.dfy): the Reddit wrapper as a function of the single attempt.
  - `Wrapper` is the code as written.
  - `WrapperIntended` is the same wrapper with the 401 test corrected (see Findings).
- `RedditProperties` (reddit_properties.dfy): the lemmas about the Reddit handler.

Some behaviours of the code are easy to miss. The model keeps them as written:
- The Twitter handler has no NotFound clause. A NotFound falls to the generic `TweepyException` clause.
- Without a reset header, the reset time is `int(now + 60)`, not `now`.
- On the retry, only a `TweepyException` is caught. Any other exception escapes the wrapper.
- A response with an errors payload writes two log lines: the payload line, then the generic Tweepy line.
- Inside a handler, three exceptions can be raised, and each escapes the wrapper without being logged:
  - `int()` raises ValueError on a bad reset header.
  - `.get` raises AttributeError on a bare-string `api_errors` entry. Tweepy adds one for a body's `"error"` text.
  - `['id'][0]` raises IndexError on an empty list.

## Model

| member | source | states |
|---|---|---|
| TwitterErrorHandler.Catch | twitter_like/twitter_error_handler.py:19-62 | the clause chosen covers the exception, and no earlier clause does; None exactly when no clause covers it |
| TwitterErrorHandler.ScanStop | twitter_like/twitter_error_handler.py:28-29 | the result is the first `api_errors` entry where the scan stops: a dict whose parameters contain "id", or a bare string on which `.get` raises; None means the scan finds neither |
| TwitterErrorHandler.ScanApiErrors | twitter_like/twitter_error_handler.py:28-31 | the loop leaves at the entry `ScanStop` names, or finishes with None when `ScanStop` is None |
| TwitterErrorHandler.Trunc | twitter_like/twitter_error_handler.py:37 | `int()` on a float truncates toward zero: the result lies within 1 of the argument, on the side of zero |
| TwitterErrorHandler.ResetTime | twitter_like/twitter_error_handler.py:36-37 | a numeric header is used as given; a missing one gives a reset in (now+59, now+60] when now ≥ -60, and in [now+60, now+61) when now < -60; a bad one raises |
| TwitterErrorHandler.RateLimitWait | twitter_like/twitter_error_handler.py:38 | the wait is at least 10, at least `reset - now`, and equal to one of the two |
| TwitterErrorHandler.Handle | twitter_like/twitter_error_handler.py:10-62 | 1 or 2 calls; a second call happens exactly when one sleep happens, and only after a rate-limit or server error; every sleep is at least 10; at most 2 log lines; an exit is always code 1 and is preceded by an error line; a returned response is a clean first response or the second response |
| TwitterErrorHandler.Wrapper | twitter_like/twitter_error_handler.py:10-62 | the step-by-step wrapper has the same outcome and trace as `Handle` |
| TwitterProperties.CatchTable | twitter_like/twitter_error_handler.py:19-62 | which clause handles each exception class; NotFound, other HTTP errors and bare TweepyException reach the generic clause; SystemExit reaches none |
| TwitterProperties.SpecificClausesPrecedeGeneric | twitter_like/twitter_error_handler.py:19-58 | the specific tweepy classes are also covered by the generic clauses, but a clause of lower rank handles them |
| TwitterProperties.SuccessPassesThrough | twitter_like/twitter_error_handler.py:12-17 | a first response without errors is returned as it is, after one call, with no sleep and no log |
| TwitterProperties.ErrorsPayloadIsTerminal | twitter_like/twitter_error_handler.py:12-58 | a first response with errors ends in exit 1 by way of the generic tweepy clause, after one call and no sleep |
| TwitterProperties.CredentialFailuresAreTerminal | twitter_like/twitter_error_handler.py:19-25 | Unauthorized and Forbidden each end in exit 1 after one call, with no sleep and their own line |
| TwitterProperties.BadRequestReportsFirstIdEntry | twitter_like/twitter_error_handler.py:27-33 | BadRequest logs the first id value of the first entry naming "id", or else the generic line, and either way exits 1 after one call; a bare-string entry met first raises AttributeError out of the wrapper |
| TwitterProperties.RateLimitSleepsThenRetriesOnce | twitter_like/twitter_error_handler.py:35-42 | a rate limit sleeps `max(reset - now, 10) + 1`, at least 11, logs that wait, and makes exactly two calls |
| TwitterProperties.MissingResetHeaderWaitsAboutAMinute | twitter_like/twitter_error_handler.py:36-40 | with no reset header, and the clock unchanged between its two reads, the sleep is in (60, 61] |
| TwitterProperties.RateLimitFiveSecondsAhead | twitter_like/twitter_error_handler.py:37-42 | a reset 5 seconds ahead gives a sleep of 11, then a retry |
| TwitterProperties.UnparsableResetEscapes | twitter_like/twitter_error_handler.py:37 | a reset header that `int()` rejects raises ValueError out of the wrapper, before any sleep or log |
| TwitterProperties.ServerErrorSleepsTenThenRetriesOnce | twitter_like/twitter_error_handler.py:47-51 | a server error with any status sleeps exactly 10, logs a warning, and makes exactly two calls |
| TwitterProperties.RetryOutcome | twitter_like/twitter_error_handler.py:41-54 | after a retry, a response is returned, a TweepyException ends in exit 1, and any other exception escapes |
| TwitterProperties.RetriedErrorsPayloadReturned | twitter_like/twitter_error_handler.py:41-54 | after either kind of retry, the errors payload of the second response is not checked again, and that response is returned |
| TwitterProperties.NoThirdCall | twitter_like/twitter_error_handler.py:10-62 | two wrapped functions that agree on their first two calls give the same run, so no third call is made |
| TwitterProperties.OneCallObservesOnlyTheFirst | twitter_like/twitter_error_handler.py:10-62 | a run that reports one call depends only on the first call |
| TwitterProperties.OtherFirstFailureIsTerminal | twitter_like/twitter_error_handler.py:60-62 | a non-tweepy Exception from the first call ends in exit 1 with no retry |
| TwitterProperties.NotFoundIsTerminal | twitter_like/twitter_error_handler.py:56-58 | NotFound ends in exit 1 by way of the generic tweepy clause |
| TwitterProperties.ExitFromFuncPassesThrough | twitter_like/twitter_error_handler.py:10-62 | a SystemExit from the wrapped function escapes unlogged |
| RedditErrorHandler.Catch | reddit_fetch/reddit_error_handler.py:13-31 | the clause chosen covers the exception, and no earlier clause does; None exactly when no clause covers it |
| RedditErrorHandler.ResponseTagAsWritten | reddit_fetch/reddit_error_handler.py:22-28 | as written, the ResponseException clause always writes the line without the colon |
| RedditErrorHandler.ResponseTag | reddit_fetch/reddit_error_handler.py:22-28 | as intended, the 401 line is written exactly for a response with status 401 |
| RedditErrorHandler.HandleWith | reddit_fetch/reddit_error_handler.py:10-31 | the try/except, whichever ResponseException line is used: a result is returned unchanged with no log; each caught exception ends in exit 1 with exactly one line; a non-Exception escapes unlogged |
| RedditErrorHandler.Wrapper | reddit_fetch/reddit_error_handler.py:10-31 | as written: the properties of `HandleWith`, and a ResponseException of any status writes the line without the colon |
| RedditErrorHandler.WrapperIntended | reddit_fetch/reddit_error_handler.py:10-31 | with the 401 test corrected: ends exactly as `Wrapper`; a ResponseException writes the 401 line exactly when its response has status 401; otherwise identical to `Wrapper` |
| RedditProperties.CatchTable | reddit_fetch/reddit_error_handler.py:13-31 | which clause handles each exception class; prawcore failures without a response reach the Exception clause |
| RedditProperties.SpecificClausesPrecedeResponseException | reddit_fetch/reddit_error_handler.py:13-22 | NotFound, Forbidden and TooManyRequests are ResponseExceptions, yet each gets its own line |
| RedditProperties.CaughtFailuresExit | reddit_fetch/reddit_error_handler.py:13-31 | every caught exception, TooManyRequests included, ends in exit 1 with its clause's line and no retry |
| RedditProperties.ResponseStatusOnlyChangesTheLine | reddit_fetch/reddit_error_handler.py:22-28 | as written, a ResponseException ends in exit 1 with the colon-less line whatever its status; in `WrapperIntended` only the line changes, for status 401 |
| RedditProperties.ExitFromFuncPassesThrough | reddit_fetch/reddit_error_handler.py:29-31 | a SystemExit raised in the wrapped function, such as the credential loader's `exit(1)`, escapes unlogged |
| RedditProperties.Unauthorized401Misreported | reddit_fetch/reddit_error_handler.py:23 | a 401 response gets the generic line from `ResponseTagAsWritten` and `Wrapper`, and the 401 line from `ResponseTag` and `WrapperIntended` |

## Left out

- Logging: only which line is written is modelled, as a tag. The message text and its formatting are not.
- `time.time()` and `time.sleep`: `time.time()` readings are inputs and sleeps are recorded. Float rounding in `int(time.time() + 60)` and `reset_time - time.time()` is not modelled. The arithmetic is on `real`.
- The reset header's text: it is already classified as absent, an integer, or text `int()` rejects. Python's rules for what `int()` accepts (whitespace, signs, underscores) are not modelled.
- The tweepy and prawcore class hierarchies: they are reduced to the classes the except clauses name. Other `Exception` subclasses appear only by name.
- The Tweepy response: it is reduced to its `errors` list. Other fields are not inspected by the wrapper.
- Arguments passed through `*args, **kwargs` to the wrapped function are not modelled.
- `setup_logging`, `load_credentials`, `load_reddit_credentials`, argument parsing and `main` are not part of this model. They are filesystem, environment and command-line glue. Their only effect on the wrappers, an `exit(1)` from inside the wrapped function, is modelled as a SystemExit that passes through.
- `initialize_twitter_client`, `like_tweet` and `fetch_latest_posts`: calls into tweepy and praw whose code is not part of this model. Their results enter as `func`.
- RedditErrorHandler.Wrapper: the function receives one attempt, so "exactly one call" follows from its signature rather than from a counted trace.

## Findings

| source | as written | input that shows it | evidently intended | confidence | as-written member | corrected member |
|---|---|---|---|---|---|---|
| reddit_fetch/reddit_error_handler.py:23 | `if e.response and e.response.status_code == 401` tests the truth value of a `requests` Response. That value is false for every status from 400 to 599, so the 401 branch is never taken | a ResponseException whose response has status 401 | a 401 response writes the "Response Exception:" line | medium, not executed; relies on `requests.Response.__bool__` returning `ok` | RedditErrorHandler.ResponseTagAsWritten | RedditErrorHandler.ResponseTag |

Both branches exit with code 1, so the finding changes only the log line. `RedditErrorHandler.Wrapper` is the code as written. `RedditErrorHandler.WrapperIntended` uses the corrected `ResponseTag`. `RedditProperties.Unauthorized401Misreported` shows the 401 input under both.
