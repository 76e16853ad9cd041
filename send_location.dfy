/**
 * The location relay handler: a fixed-window, per-client request counter
 * that gates every request, followed by the method check, the coordinate
 * check and the downstream delivery.  The pure part (`Window`, `Step`, `Run`)
 * is the specification; the class `Handler` holds the module-level state of
 * the handler (the count map and the time of the last reset) and updates it
 * in place, proved to follow `Step`.
 */
module SendLocation {
  import opened Duration

  const RateLimitWindowMs: int := 60 * 1000
  const MaxRequestsPerWindow: nat := 5

  /** A field of the parsed request body, with JavaScript's notion of truthiness. */
  datatype JsonValue =
    | Undefined
    | Null
    | Bool(b: bool)
    | Number(x: real)
    | Str(s: string)
    | Compound

  function Truthy(v: JsonValue): (b: bool)
    ensures v.Undefined? || v.Null? ==> !b
    ensures v.Number? ==> (b <==> v.x != 0.0)
    ensures v.Str? ==> (b <==> v.s != "")
    ensures v.Bool? ==> b == v.b
    ensures v.Compound? ==> b
  {
    match v
    case Undefined => false
    case Null => false
    case Bool(b) => b
    case Number(x) => x != 0.0
    case Str(s) => s != ""
    case Compound => true
  }

  /** What the call to the messaging API does: it completes, or it throws an error with a message. */
  datatype Outcome = Delivered | Threw(message: string)

  /** One request: the client key, the HTTP method and the two body fields. */
  datatype Request = Request(clientId: string, httpMethod: string, lat: JsonValue, lon: JsonValue)

  /** A request arriving at time `now` (milliseconds) and what its downstream call does. */
  datatype Event = Event(now: int, req: Request, outcome: Outcome)

  /**
   * The response: its status and the fields of its body other than the
   * timestamps.  The two duration texts are kept as the milliseconds they
   * print; `FormattedRetryAfter` and `RateLimitReset` give the texts.
   */
  datatype Response =
    | TooManyRequests(retryAfterMs: int)
    | MethodNotAllowed
    | MissingCoordinates
    | Sent(requestsRemaining: int, msUntilReset: int)
    | SendFailed(details: string)
  {
    function Status(): int
    {
      match this
      case TooManyRequests(_) => 429
      case MethodNotAllowed => 405
      case MissingCoordinates => 400
      case Sent(_, _) => 200
      case SendFailed(_) => 500
    }

    /** The `formattedRetryAfter` field of a 429. */
    function FormattedRetryAfter(): string
      requires TooManyRequests?
    {
      FormatDuration(retryAfterMs)
    }

    /** The `rateLimitReset` field of a 200. */
    function RateLimitReset(): string
      requires Sent?
    {
      FormatDuration(msUntilReset)
    }

    /** The `error` field of the response body. */
    function Error(): string
      requires !Sent?
    {
      match this
      case TooManyRequests(_) => "Too many requests"
      case MethodNotAllowed => "Method not allowed"
      case MissingCoordinates => "Missing latitude or longitude"
      case SendFailed(_) => "Failed to send location"
    }
  }

  /** The rate-limit state: requests per client in the current window, and when the window began. */
  datatype Window = Window(counts: map<string, nat>, lastReset: int)

  /** Every client in the map has made at least one request in the window. */
  predicate CountsPositive(w: Window)
  {
    forall id :: id in w.counts ==> w.counts[id] >= 1
  }

  /** `ipRequestCounts.get(id) || 0`. */
  function Count(w: Window, id: string): nat
  {
    if id in w.counts then w.counts[id] else 0
  }

  /** The lazy reset: a window older than the window length is replaced by an empty one starting now. */
  function Reset(w: Window, now: int): (w': Window)
    ensures now - w'.lastReset <= RateLimitWindowMs
    ensures w'.lastReset >= w.lastReset
    ensures w.lastReset <= now ==> w'.lastReset <= now
    ensures w' == w || (w'.counts == map[] && w'.lastReset == now)
    ensures w' != w <==> now - w.lastReset > RateLimitWindowMs
  {
    if now - w.lastReset > RateLimitWindowMs then Window(map[], now) else w
  }

  /** `lastResetTime + RATE_LIMIT_WINDOW_MS - currentTime` for the window after the reset step. */
  function TimeLeft(w: Window, now: int): int
  {
    w.lastReset + RateLimitWindowMs - now
  }

  /** The reset step followed by the increment of the caller's count (`ipRequestCounts.set`). */
  function CountIn(w: Window, now: int, id: string): (w': Window)
    ensures w'.lastReset == Reset(w, now).lastReset
    ensures Count(w', id) == Count(Reset(w, now), id) + 1
    ensures w'.counts - {id} == Reset(w, now).counts - {id}
    ensures w'.counts.Keys == Reset(w, now).counts.Keys + {id}
    ensures CountsPositive(w) ==> CountsPositive(w')
  {
    var w0 := Reset(w, now);
    Window(w0.counts[id := Count(w0, id) + 1], w0.lastReset)
  }

  /** The window `CountIn` leaves, in terms of the window after the reset step. */
  lemma CountInAfterReset(w: Window, now: int, id: string)
    ensures var w0 := Reset(w, now);
      CountIn(w, now, id) == Window(w0.counts[id := Count(w0, id) + 1], w0.lastReset)
  {
  }

  /** The chain of checks, given the window after the caller's count was incremented. */
  function Respond(w1: Window, e: Event): (r: Response)
    ensures r.TooManyRequests? <==> Count(w1, e.req.clientId) > MaxRequestsPerWindow
  {
    var requestCount := Count(w1, e.req.clientId);
    if requestCount > MaxRequestsPerWindow then
      TooManyRequests(TimeLeft(w1, e.now))
    else if e.req.httpMethod != "POST" then
      MethodNotAllowed
    else if !Truthy(e.req.lat) || !Truthy(e.req.lon) then
      MissingCoordinates
    else
      match e.outcome
      case Delivered =>
        Sent(MaxRequestsPerWindow - requestCount, TimeLeft(w1, e.now))
      case Threw(message) =>
        SendFailed(message)
  }

  /** One request handled against the window: reset, count, then the chain of checks. */
  function Step(w: Window, e: Event): (res: (Window, Response))
    ensures res.0.lastReset == Reset(w, e.now).lastReset
    ensures Count(res.0, e.req.clientId) == Count(Reset(w, e.now), e.req.clientId) + 1
    ensures res.0.counts - {e.req.clientId} == Reset(w, e.now).counts - {e.req.clientId}
    ensures CountsPositive(w) ==> CountsPositive(res.0)
    ensures res.1.TooManyRequests? <==> Count(res.0, e.req.clientId) > MaxRequestsPerWindow
  {
    var w1 := CountIn(w, e.now, e.req.clientId);
    (w1, Respond(w1, e))
  }

  /** A request changes no other client's count beyond what the reset does. */
  lemma OtherClientsUntouched(w: Window, e: Event, other: string)
    requires other != e.req.clientId
    ensures Count(Step(w, e).0, other) == Count(Reset(w, e.now), other)
  {
    assert other in Step(w, e).0.counts - {e.req.clientId} <==> other in Step(w, e).0.counts;
  }

  /**
   * The response order: 429 first, then 405 for any method other than POST,
   * then 400 for a falsy coordinate, then 200 or 500 by the downstream outcome.
   */
  lemma StatusOrder(w: Window, e: Event)
    ensures var count := Count(Step(w, e).0, e.req.clientId);
      var status := Step(w, e).1.Status();
      && (status == 429 <==> count > MaxRequestsPerWindow)
      && (status == 405 <==> count <= MaxRequestsPerWindow && e.req.httpMethod != "POST")
      && (status == 400 <==> count <= MaxRequestsPerWindow && e.req.httpMethod == "POST"
                             && (!Truthy(e.req.lat) || !Truthy(e.req.lon)))
      && (status == 200 <==> count <= MaxRequestsPerWindow && e.req.httpMethod == "POST"
                             && Truthy(e.req.lat) && Truthy(e.req.lon) && e.outcome.Delivered?)
      && (status == 500 <==> count <= MaxRequestsPerWindow && e.req.httpMethod == "POST"
                             && Truthy(e.req.lat) && Truthy(e.req.lon) && e.outcome.Threw?)
  {
  }

  /** A 500 carries the message of the error the downstream call threw, and a 200 only follows a completed call. */
  lemma FailureDetails(w: Window, e: Event)
    ensures Step(w, e).1.SendFailed? ==> e.outcome.Threw? && Step(w, e).1.details == e.outcome.message
    ensures Step(w, e).1.Sent? ==> e.outcome.Delivered?
  {
  }

  /** The error text of a rejected response tells which of the four rejections it is. */
  lemma ErrorIdentifiesStatus(a: Response, b: Response)
    requires !a.Sent? && !b.Sent?
    ensures a.Error() == b.Error() <==> a.Status() == b.Status()
  {
  }

  /** A request that is not a POST is never answered 400, whatever its body. */
  lemma NoBadRequestUnlessPost(w: Window, e: Event)
    requires e.req.httpMethod != "POST"
    ensures Step(w, e).1.Status() in {429, 405}
  {
  }

  /** A coordinate of zero is falsy, so a POST carrying one is answered 400 unless rate-limited. */
  lemma ZeroCoordinateRejected(w: Window, e: Event)
    requires e.req.httpMethod == "POST"
    requires e.req.lat == Number(0.0) || e.req.lon == Number(0.0)
    requires Count(Reset(w, e.now), e.req.clientId) < MaxRequestsPerWindow
    ensures Step(w, e).1 == MissingCoordinates
  {
  }

  /**
   * With a clock that does not run backwards, the retry delay of a 429 lies
   * in [0, 60000] milliseconds and its text in [0, 60] seconds.
   */
  lemma RetryAfterBounds(w: Window, e: Event)
    requires w.lastReset <= e.now
    requires Step(w, e).1.TooManyRequests?
    ensures Step(w, e).1.retryAfterMs == Step(w, e).0.lastReset + RateLimitWindowMs - e.now
    ensures 0 <= Step(w, e).1.retryAfterMs <= RateLimitWindowMs
    ensures 0 <= CeilSeconds(Step(w, e).1.retryAfterMs) <= 60
    ensures ParseDuration(Step(w, e).1.FormattedRetryAfter()) == Some(CeilSeconds(Step(w, e).1.retryAfterMs))
  {
    var r := Step(w, e).1;
    CeilSecondsNonNegative(r.retryAfterMs);
    FormatDurationRoundTrip(r.retryAfterMs);
  }

  /**
   * The delay is 0, not positive, for a request that arrives exactly one window
   * length after the reset: the reset test is a strict `>`.
   */
  lemma RetryAfterCanBeZero(id: string)
    ensures var w := Window(map[id := MaxRequestsPerWindow], 0);
      var e := Event(RateLimitWindowMs, Request(id, "POST", Number(1.0), Number(1.0)), Delivered);
      Step(w, e).1 == TooManyRequests(0) && Step(w, e).1.FormattedRetryAfter() == "0 seconds"
  {
  }

  /** A delivered request reports between 0 and 4 requests remaining in the window. */
  lemma RemainingBounds(w: Window, e: Event)
    requires Step(w, e).1.Sent?
    ensures Step(w, e).1.requestsRemaining == MaxRequestsPerWindow - Count(Step(w, e).0, e.req.clientId)
    ensures 0 <= Step(w, e).1.requestsRemaining <= MaxRequestsPerWindow - 1
  {
  }

  /** A 200 reports the time left in the window after the caller's count was incremented. */
  lemma SentDelay(w1: Window, e: Event)
    requires Respond(w1, e).Sent?
    ensures Respond(w1, e).msUntilReset == TimeLeft(w1, e.now)
    ensures Respond(w1, e).RateLimitReset() == FormatDuration(TimeLeft(w1, e.now))
  {
  }

  /**
   * On a 200, `rateLimitReset` is the time left until the window resets: its
   * text reads back to that many milliseconds rounded up to seconds, which
   * lie in [0, 60] when the clock does not run backwards.
   */
  lemma RateLimitResetBounds(w: Window, e: Event)
    requires w.lastReset <= e.now
    requires Step(w, e).1.Sent?
    ensures Step(w, e).1.msUntilReset == Step(w, e).0.lastReset + RateLimitWindowMs - e.now
    ensures ParseDuration(Step(w, e).1.RateLimitReset()) == Some(CeilSeconds(Step(w, e).0.lastReset + RateLimitWindowMs - e.now))
    ensures 0 <= CeilSeconds(Step(w, e).0.lastReset + RateLimitWindowMs - e.now) <= 60
  {
    var w1 := CountIn(w, e.now, e.req.clientId);
    SentDelay(w1, e);
    var t := TimeLeft(w1, e.now);
    CeilSecondsNonNegative(t);
    FormatDurationRoundTrip(t);
  }

  /** Once the window has run out, a client's next request starts a fresh count and is not rate-limited. */
  lemma ResetLiftsLimit(w: Window, e: Event)
    requires e.now - w.lastReset > RateLimitWindowMs
    ensures Step(w, e).0 == Window(map[e.req.clientId := 1], e.now)
    ensures !Step(w, e).1.TooManyRequests?
  {
  }

  /** The responses to a sequence of requests, and the window they leave behind. */
  function Run(w: Window, evs: seq<Event>): (res: (Window, seq<Response>))
    ensures |res.1| == |evs|
    decreases |evs|
  {
    if evs == [] then (w, [])
    else
      var (w1, r) := Step(w, evs[0]);
      var (w2, rs) := Run(w1, evs[1..]);
      (w2, [r] + rs)
  }

  /** How many of the events come from client `c`. */
  function RequestsFrom(evs: seq<Event>, c: string): nat
  {
    if evs == [] then 0
    else (if evs[0].req.clientId == c then 1 else 0) + RequestsFrom(evs[1..], c)
  }

  /** How many of the events from client `c` got a response other than 429. */
  function Admitted(evs: seq<Event>, rs: seq<Response>, c: string): nat
    requires |rs| == |evs|
  {
    if evs == [] then 0
    else (if evs[0].req.clientId == c && !rs[0].TooManyRequests? then 1 else 0)
         + Admitted(evs[1..], rs[1..], c)
  }

  function Min(a: int, b: int): int { if a <= b then a else b }

  /** Every event of `evs` arrives before the window `w` runs out, so no reset happens. */
  predicate WithinWindow(w: Window, evs: seq<Event>)
  {
    forall i :: 0 <= i < |evs| ==> evs[i].now - w.lastReset <= RateLimitWindowMs
  }

  /** The first request of a run is handled by `Step`, the rest by `Run` from the window it leaves. */
  lemma RunFirst(w: Window, evs: seq<Event>)
    requires evs != []
    ensures Run(w, evs).0 == Run(Step(w, evs[0]).0, evs[1..]).0
    ensures Run(w, evs).1 == [Step(w, evs[0]).1] + Run(Step(w, evs[0]).0, evs[1..]).1
  {
  }

  lemma AdmittedFirst(evs: seq<Event>, r: Response, rs: seq<Response>, c: string)
    requires evs != [] && |rs| == |evs| - 1
    ensures Admitted(evs, [r] + rs, c)
         == (if evs[0].req.clientId == c && !r.TooManyRequests? then 1 else 0) + Admitted(evs[1..], rs, c)
  {
    assert ([r] + rs)[1..] == rs;
  }

  lemma WithinWindowRest(w: Window, w1: Window, evs: seq<Event>)
    requires evs != [] && WithinWindow(w, evs) && w1.lastReset == w.lastReset
    ensures WithinWindow(w1, evs[1..])
  {
    forall i | 0 <= i < |evs[1..]|
      ensures evs[1..][i].now - w1.lastReset <= RateLimitWindowMs
    {
      assert evs[1..][i] == evs[i + 1];
    }
  }

  /** A request inside the window leaves lastReset alone and adds 1 to its own client's count. */
  lemma StepInWindow(w: Window, e: Event, c: string)
    requires e.now - w.lastReset <= RateLimitWindowMs
    ensures Step(w, e).0.lastReset == w.lastReset
    ensures Count(Step(w, e).0, c) == Count(w, c) + (if e.req.clientId == c then 1 else 0)
    ensures e.req.clientId == c ==> (Step(w, e).1.TooManyRequests? <==> Count(w, c) + 1 > MaxRequestsPerWindow)
  {
    assert Reset(w, e.now) == w;
  }

  /** Within one window the reset never fires, and a client's count grows by one per request of its own. */
  lemma {:induction false} RunCountsInWindow(w: Window, evs: seq<Event>, c: string)
    requires WithinWindow(w, evs)
    ensures Run(w, evs).0.lastReset == w.lastReset
    ensures Count(Run(w, evs).0, c) == Count(w, c) + RequestsFrom(evs, c)
    decreases |evs|
  {
    if evs != [] {
      var w1 := Step(w, evs[0]).0;
      StepInWindow(w, evs[0], c);
      RunFirst(w, evs);
      WithinWindowRest(w, w1, evs);
      RunCountsInWindow(w1, evs[1..], c);
    }
  }

  /** The first request of a run inside the window is admitted exactly when it brings its client's count up to at most 5. */
  lemma AdmittedFirstStep(w: Window, evs: seq<Event>, c: string)
    requires evs != [] && evs[0].now - w.lastReset <= RateLimitWindowMs
    ensures var d := if evs[0].req.clientId == c then 1 else 0;
      && Step(w, evs[0]).0.lastReset == w.lastReset
      && Count(Step(w, evs[0]).0, c) == Count(w, c) + d
      && RequestsFrom(evs, c) == d + RequestsFrom(evs[1..], c)
      && Admitted(evs, Run(w, evs).1, c)
         == Min(Count(w, c) + d, MaxRequestsPerWindow) - Min(Count(w, c), MaxRequestsPerWindow)
            + Admitted(evs[1..], Run(Step(w, evs[0]).0, evs[1..]).1, c)
  {
    var (w1, r) := Step(w, evs[0]);
    var k, d := Count(w, c), if evs[0].req.clientId == c then 1 else 0;
    StepInWindow(w, evs[0], c);
    assert (if d == 1 && !r.TooManyRequests? then 1 else 0)
        == Min(k + d, MaxRequestsPerWindow) - Min(k, MaxRequestsPerWindow);
    RunFirst(w, evs);
    AdmittedFirst(evs, r, Run(w1, evs[1..]).1, c);
  }

  /** Within one window, only the requests that bring a client's count up to 5 are admitted. */
  lemma {:induction false} AdmittedInWindow(w: Window, evs: seq<Event>, c: string)
    requires WithinWindow(w, evs)
    ensures Admitted(evs, Run(w, evs).1, c)
         == Min(Count(w, c) + RequestsFrom(evs, c), MaxRequestsPerWindow) - Min(Count(w, c), MaxRequestsPerWindow)
    decreases |evs|
  {
    if evs != [] {
      var w1 := Step(w, evs[0]).0;
      AdmittedFirstStep(w, evs, c);
      WithinWindowRest(w, w1, evs);
      AdmittedInWindow(w1, evs[1..], c);
    }
  }

  /**
   * Within one window, a client's count grows by one per request and only the
   * requests that bring it up to 5 are admitted.
   */
  lemma WindowQuota(w: Window, evs: seq<Event>, c: string)
    requires WithinWindow(w, evs)
    ensures Run(w, evs).0.lastReset == w.lastReset
    ensures Count(Run(w, evs).0, c) == Count(w, c) + RequestsFrom(evs, c)
    ensures Admitted(evs, Run(w, evs).1, c)
         == Min(Count(w, c) + RequestsFrom(evs, c), MaxRequestsPerWindow) - Min(Count(w, c), MaxRequestsPerWindow)
  {
    RunCountsInWindow(w, evs, c);
    AdmittedInWindow(w, evs, c);
  }

  /** No client gets more than 5 responses other than 429 within one window. */
  lemma AtMostFivePerWindow(w: Window, evs: seq<Event>, c: string)
    requires WithinWindow(w, evs)
    ensures Admitted(evs, Run(w, evs).1, c) <= MaxRequestsPerWindow
  {
    WindowQuota(w, evs, c);
  }

  /**
   * The request that opens a new window counts towards it: together with the
   * requests that follow within that window, a client still gets at most 5
   * responses other than 429.
   */
  lemma AtMostFiveFromReset(w: Window, e0: Event, evs: seq<Event>, c: string)
    requires e0.now - w.lastReset > RateLimitWindowMs
    requires WithinWindow(Step(w, e0).0, evs)
    ensures Admitted([e0] + evs, Run(w, [e0] + evs).1, c) <= MaxRequestsPerWindow
  {
    var all := [e0] + evs;
    var (w1, r) := Step(w, e0);
    assert all[0] == e0 && all[1..] == evs;
    assert Run(w, all).1 == [r] + Run(w1, evs).1;
    assert Count(w1, c) == if e0.req.clientId == c then 1 else 0;
    WindowQuota(w1, evs, c);
  }

  /** A client that stays within 5 requests in a window is never rate-limited. */
  lemma WithinQuotaNeverLimited(w: Window, evs: seq<Event>, c: string)
    requires WithinWindow(w, evs)
    requires Count(w, c) + RequestsFrom(evs, c) <= MaxRequestsPerWindow
    ensures Admitted(evs, Run(w, evs).1, c) == RequestsFrom(evs, c)
  {
    WindowQuota(w, evs, c);
  }

  /** Every count in the map is at least 1. */
  predicate AllPositive(m: map<string, nat>)
  {
    forall id :: id in m ==> m[id] >= 1
  }

  /** The count map that a log of client ids, oldest first, adds up to. */
  function Tally(ids: seq<string>): (m: map<string, nat>)
    ensures AllPositive(m)
  {
    if ids == [] then map[]
    else
      var m0 := Tally(ids[..|ids| - 1]);
      var last := ids[|ids| - 1];
      m0[last := (if last in m0 then m0[last] else 0) + 1]
  }

  /** One more request in the log adds one to its client's tally. */
  lemma TallyAppend(ids: seq<string>, id: string)
    ensures Tally(ids + [id]) == Tally(ids)[id := (if id in Tally(ids) then Tally(ids)[id] else 0) + 1]
  {
    var s := ids + [id];
    var m := Tally(ids);
    assert s[..|s| - 1] == ids && s[|s| - 1] == id;
    assert Tally(s) == m[id := (if id in m then m[id] else 0) + 1];
  }

  /** In a tally, each client's count is the number of times it occurs in the log. */
  lemma {:induction false} TallyCountsOccurrences(ids: seq<string>, id: string)
    ensures (if id in Tally(ids) then Tally(ids)[id] else 0) == multiset(ids)[id]
  {
    if ids != [] {
      var init := ids[..|ids| - 1];
      assert ids == init + [ids[|ids| - 1]];
      TallyCountsOccurrences(init, id);
    }
  }

  /** The module-level state of the handler, which every request updates in place. */
  class Handler {
    var counts: map<string, nat>
    var lastReset: int
    // the client ids of the requests received since the last reset, in arrival order
    ghost var requests: seq<string>

    /** The counts are the tally of the requests received in the current window. */
    ghost predicate Valid()
      reads this
    {
      counts == Tally(requests)
    }

    function State(): Window
      reads this
    {
      Window(counts, lastReset)
    }

    /** The state at module load: no counts, and the window starting at the load time. */
    constructor (startTime: int)
      ensures Valid()
      ensures counts == map[] && lastReset == startTime && requests == []
    {
      counts := map[];
      lastReset := startTime;
      requests := [];
    }

    /**
     * The lazy window reset and the increment of the caller's count, which
     * every request goes through before any check; returns the new count.
     */
    method CountRequest(now: int, clientId: string) returns (requestCount: nat)
      requires Valid()
      modifies this
      ensures Valid()
      ensures State() == CountIn(old(State()), now, clientId)
      ensures requestCount == Count(State(), clientId)
      ensures lastReset == (if now - old(lastReset) > RateLimitWindowMs then now else old(lastReset))
      ensures counts == (if now - old(lastReset) > RateLimitWindowMs then map[] else old(counts))
                          [clientId := requestCount]
      ensures requests == (if now - old(lastReset) > RateLimitWindowMs then [] else old(requests)) + [clientId]
    {
      ghost var start := State();
      if now - lastReset > RateLimitWindowMs {
        counts := map[];
        lastReset := now;
        requests := [];
      }
      var current, log := counts, requests;
      assert Window(current, lastReset) == Reset(start, now);
      TallyAppend(log, clientId);

      requestCount := (if clientId in current then current[clientId] else 0) + 1;
      counts := current[clientId := requestCount];
      requests := log + [clientId];
      CountInAfterReset(start, now, clientId);
    }

    /** `handler(req, res)`, with the current time and the downstream outcome given as parameters. */
    method Handle(now: int, clientId: string, httpMethod: string, lat: JsonValue, lon: JsonValue, outcome: Outcome)
      returns (resp: Response)
      requires Valid()
      modifies this
      ensures Valid()
      ensures State() == CountIn(old(State()), now, clientId)
      ensures requests == (if now - old(lastReset) > RateLimitWindowMs then [] else old(requests)) + [clientId]
      ensures resp == Respond(State(), Event(now, Request(clientId, httpMethod, lat, lon), outcome))
    {
      var requestCount := CountRequest(now, clientId);

      if requestCount > MaxRequestsPerWindow {
        var retryAfter := lastReset + RateLimitWindowMs - now;
        return TooManyRequests(retryAfter);
      }

      if httpMethod != "POST" {
        return MethodNotAllowed;
      }

      if !Truthy(lat) || !Truthy(lon) {
        return MissingCoordinates;
      }

      match outcome {
        case Delivered =>
          resp := Sent(MaxRequestsPerWindow - requestCount, lastReset + RateLimitWindowMs - now);
        case Threw(message) =>
          resp := SendFailed(message);
      }
    }
  }

  /** The first POST after module load is delivered, with 4 requests left and the rest of the window to go. */
  method FirstRequestDelivered(startTime: int, now: int, clientId: string) returns (r: Response)
    requires startTime <= now <= startTime + RateLimitWindowMs
    ensures r == Sent(4, startTime + RateLimitWindowMs - now)
    ensures r.RateLimitReset() == FormatDuration(startTime + RateLimitWindowMs - now)
    ensures now == startTime ==> r.RateLimitReset() == "60 seconds"
  {
    var h := new Handler(startTime);
    r := h.Handle(now, clientId, "POST", Number(1.0), Number(2.0), Delivered);
    assert h.State() == Window(map[clientId := 1], startTime);
    if now == startTime {
      FullMinuteText();
    }
  }

  /**
   * A client that already made 5 requests in the current window is answered
   * 429 on its sixth, with a retry delay within the window, and that request
   * is counted too.
   */
  method SixthRequestLimited(h: Handler, now: int, clientId: string, httpMethod: string,
                             lat: JsonValue, lon: JsonValue, outcome: Outcome) returns (r: Response)
    requires h.Valid() && h.lastReset <= now && now - h.lastReset <= RateLimitWindowMs
    requires Count(h.State(), clientId) == MaxRequestsPerWindow
    modifies h
    ensures r.TooManyRequests? && 0 <= r.retryAfterMs <= RateLimitWindowMs
    ensures Count(h.State(), clientId) == MaxRequestsPerWindow + 1
  {
    r := h.Handle(now, clientId, httpMethod, lat, lon, outcome);
  }
}
