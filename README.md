# Location relay handler: rate limiter and response selection

This project models the request-gating core of the location relay endpoint
`api/sendLocation.js`. The endpoint takes a latitude/longitude pair and
forwards it to a messaging API. Each request first passes a fixed-window
throttle kept per client:

- a map from client id to request count,
- the time of the last reset,
- a window of 60000 ms,
- at most 5 requests per window.

Then come the method check, the coordinate check and the downstream call.

Files:

- `duration.dfy` (module `Duration`) models `formatDuration`. It covers
  `Math.ceil(ms / 1000)`, the way JavaScript prints an integer, the
  " second"/" seconds" suffix, and a parser that reads such a text back.
- `send_location.dfy` (module `SendLocation`) has the specification and the
  handler:
  - `Window` is the rate-limit state. `Reset` is the lazy window reset.
    `CountIn` does the reset and the increment. `Respond` chooses the
    response. `Step` combines them for one request, and `Run` handles a
    sequence of requests.
  - The class `Handler` holds the module-level state (`counts`,
    `lastReset`) and a ghost log of the client ids seen since the last
    reset. Its invariant is that the counts are the tally of that log.
    `CountRequest` performs the reset and the increment in place, and
    `Handle` then chooses the response. Both are proved to follow `CountIn`
    and `Respond`.
  - A `Response` keeps each duration of its body in milliseconds. Its
    member functions `FormattedRetryAfter` (the 429's `formattedRetryAfter`)
    and `RateLimitReset` (the 200's `rateLimitReset`) give the text through
    `FormatDuration`.

The current time and the outcome of the downstream call are parameters of
`Handle`. The client id is an opaque string. The body fields `lat` and `lon`
are JSON values with JavaScript truthiness, so the model keeps the quirk that
a coordinate of `0` is rejected with 400. The counter is incremented before
any check, so requests answered 429, 405 or 400 also use up the quota.

Two behaviours of the code are worth stating outright:

- **Downstream failures.** The code answers 500 only when `fetch` or
  `telegramResponse.json()` throws (api/sendLocation.js:73-103). If the
  messaging API returns an error status with a JSON body, neither call
  throws, and the handler answers 200. `Outcome` is therefore "completed" or
  "threw", not "success" or "failure".
- **Zero retry delay.** A 429's retry delay can be 0. The reset test at
  api/sendLocation.js:30 is a strict `>`. So a request that arrives exactly
  60000 ms after the reset stays in the old window, and line 45 gives it
  `retryAfterMs == 0` and "0 seconds". `RetryAfterCanBeZero` exhibits this
  case.

## Model

| member | source | states |
|---|---|---|
| Duration.CeilSeconds | api/sendLocation.js:22 | the result is the least integer s with ms <= 1000*s, i.e. (s-1)*1000 < ms <= s*1000 |
| Duration.CeilSecondsNonNegative | api/sendLocation.js:22 | for 0 <= ms the seconds are nonnegative, and at most 60 when ms <= 60000 |
| Duration.NatString | api/sendLocation.js:23 | the printed seconds are a nonempty string of decimal digits with no leading zero (except "0") |
| Duration.IntString | api/sendLocation.js:23 | the printed integer is in canonical decimal form: it starts with '-' exactly when it is negative, the rest is digits, and there is no leading zero for any nonzero value of either sign |
| Duration.NatStringValue | api/sendLocation.js:23 | the digits printed for n read back as n |
| Duration.IntStringRoundTrip | api/sendLocation.js:23 | the printed integer, with its sign, parses back to the same integer |
| Duration.FormatDuration | api/sendLocation.js:21-24 | the text ends in "s" exactly when the rounded-up seconds are not 1 |
| Duration.FullMinuteText | api/sendLocation.js:21-24 | a whole window, 60000 ms, is printed as "60 seconds" |
| Duration.FormatDurationRoundTrip | api/sendLocation.js:21-24 | the duration text reads back to ceil(ms/1000), as "1 second" or "<n> seconds" for n other than 1 |
| SendLocation.Reset | api/sendLocation.js:30-33 | the state is replaced by an empty map starting now exactly when more than 60000 ms have passed, and is otherwise unchanged; afterwards now - lastReset <= 60000 and lastReset never decreases |
| SendLocation.CountIn | api/sendLocation.js:30-41 | after the reset step, the caller's count becomes its old value (0 if absent) plus 1, the map minus the caller's entry is unchanged (so every other client's count is too), the caller is in the map, and positive counts stay positive |
| SendLocation.Respond | api/sendLocation.js:44-52 | the response is 429 exactly when the caller's incremented count exceeds 5, checked before the method and the coordinates |
| SendLocation.Truthy | api/sendLocation.js:63 | undefined and null are falsy, a boolean is its own value, a number is truthy exactly when it is not 0, a string exactly when it is not empty, and an object or array is always truthy |
| SendLocation.Step | api/sendLocation.js:26-104 | one request moves the window as Reset does, adds 1 to the caller's count, leaves the rest of the map as the reset left it, keeps counts positive, and is answered 429 exactly when the new count exceeds 5 |
| SendLocation.OtherClientsUntouched | api/sendLocation.js:40-41 | a request leaves every other client's count as the reset left it |
| SendLocation.ErrorIdentifiesStatus | api/sendLocation.js:44-103 | the four error texts ("Too many requests", "Method not allowed", "Missing latitude or longitude", "Failed to send location") are distinct, so two rejections have the same text exactly when they have the same status |
| SendLocation.StatusOrder | api/sendLocation.js:44-103 | the status is 429 iff the count exceeds 5, else 405 iff the method is not POST, else 400 iff lat or lon is falsy, else 200 iff the downstream call completes and 500 iff it throws |
| SendLocation.FailureDetails | api/sendLocation.js:86-102 | a 500 only follows a downstream call that threw, and its details are that error's message; a 200 only follows a completed call |
| SendLocation.NoBadRequestUnlessPost | api/sendLocation.js:54-68 | a request that is not a POST is answered 429 or 405, never 400 |
| SendLocation.ZeroCoordinateRejected | api/sendLocation.js:63-68 | a POST with a zero latitude or longitude that is not rate-limited is answered 400 |
| SendLocation.RetryAfterBounds | api/sendLocation.js:30-33 | with a clock that does not run backwards, retryAfterMs of a 429 equals lastReset + 60000 - now, lies in [0, 60000], and its text reads back to a number of seconds in [0, 60] |
| SendLocation.RetryAfterCanBeZero | api/sendLocation.js:44-50 | a request arriving exactly 60000 ms after the reset, over the limit, gets retryAfterMs 0 and "0 seconds" |
| SendLocation.RemainingBounds | api/sendLocation.js:87-95 | on a 200, requestsRemaining is 5 minus the caller's count and lies in [0, 4] |
| SendLocation.RateLimitResetBounds | api/sendLocation.js:92-94 | on a 200, the reported reset delay is lastReset + 60000 - now, as at line 93; with a clock that does not run backwards its text reads back to ceil of that delay in seconds, which lies in [0, 60] |
| SendLocation.ResetLiftsLimit | api/sendLocation.js:30-44 | after the window has run out, the next request leaves only its own client in the map with count 1 and is not rate-limited |
| SendLocation.Run | api/sendLocation.js:26-104 | a sequence of requests yields one response per request |
| SendLocation.RunCountsInWindow | api/sendLocation.js:30-41 | within one window the reset never fires, and a client's count grows by exactly its number of requests |
| SendLocation.AdmittedInWindow | api/sendLocation.js:40-52 | within one window, exactly min(old + n, 5) - min(old, 5) of a client's n requests are not answered 429 |
| SendLocation.WindowQuota | api/sendLocation.js:40-52 | within one window, a client's count grows by its number of requests and exactly min(old + n, 5) - min(old, 5) of them are not answered 429 |
| SendLocation.AtMostFivePerWindow | api/sendLocation.js:3 | within one window a client receives at most 5 responses other than 429 |
| SendLocation.AtMostFiveFromReset | api/sendLocation.js:30-52 | the request that opens a new window counts towards it: with the requests that follow in that window, a client gets at most 5 responses other than 429 |
| SendLocation.WithinQuotaNeverLimited | api/sendLocation.js:44-52 | a client whose count stays within 5 in a window is never answered 429 |
| SendLocation.Tally | api/sendLocation.js:40-41 | adding up a log of client ids one request at a time gives a map whose counts are all at least 1 |
| SendLocation.TallyCountsOccurrences | api/sendLocation.js:40-41 | in the tally of a log, each client's count is the number of times it occurs in the log |
| SendLocation.Handler.constructor | api/sendLocation.js:4-5 | the state starts with an empty count map, an empty log and the window starting at the load time |
| SendLocation.Handler.CountRequest | api/sendLocation.js:30-41 | in place: when more than 60000 ms have passed the map and the log are emptied and lastReset becomes now; then the caller's count is incremented and the caller is appended to the log; the result is CountIn of the old state, the returned count is the caller's new count, and the counts stay the tally of the log |
| SendLocation.Handler.Handle | api/sendLocation.js:26-104 | the new state is CountIn of the old state, whatever the response, and the log gains the caller (after emptying when the window has run out); the response is Respond on the new state; the counts stay the tally of the log |
| SendLocation.FirstRequestDelivered | api/sendLocation.js:26-95 | a POST delivered d <= 60000 ms after module load, as the first request, gets requestsRemaining 4 and rateLimitReset formatDuration(60000 - d); at the load instant that text is "60 seconds" |
| SendLocation.SixthRequestLimited | api/sendLocation.js:40-52 | a client with 5 requests in the current window is answered 429 on the next one, whatever its method, coordinates and downstream outcome, with a delay in [0, 60000], and that request is counted |

## Left out

- `formatTimestamp` (`toLocaleString` with locale and time zone) is not modelled. The `timestamp`, `formattedTimestamp` and `formattedErrorTime` fields are therefore absent from `Response`.
- The `fetch` call, `telegramResponse.json()` and the `process.env` reads are not modelled. They are network I/O. Their effect is the `Outcome` parameter: the call completes, or it throws with a message.
- `Date.now()` is not modelled. The current time is a parameter of `Handle`, and the load time is a parameter of the constructor.
- The client id comes from `x-forwarded-for` or the connection's remote address. The model does not derive it. It is an opaque string.
- The map link and the message text are not modelled. They print floating-point numbers.
- A request whose body is `null` or `undefined` is not modelled. Destructuring such a body throws before any response is chosen, and the model takes `lat` and `lon` as given values.
- Each request is handled to completion before the next. In the source, the reset, `get` and `set` (api/sendLocation.js:30-41) all run before the first `await` (line 74). So requests in one process cannot interleave on the map, and separate processes each keep their own map.
- SendLocation.Respond: computes the delay behind `rateLimitReset` from the request's own post-reset `lastReset`. The source reads the module-level `lastResetTime` at line 93, after the awaits at lines 74 and 86. If another request resets the window meanwhile, the source's value uses the new reset time and can exceed 60 seconds. The model assumes `lastResetTime` does not change across the awaits.
- `res.status(...).json(...)` serialisation is not modelled. A `Response` gives the status and the non-timestamp fields.
- Duration.FormatDuration: takes the milliseconds as an unbounded integer. The result is therefore exact, while the source divides a double by 1000. The two agree for every delay the handler can compute.
- Duration.NatString: prints every integer in plain digits. JavaScript switches to exponent notation at 10^21, far beyond any delay the handler computes.
