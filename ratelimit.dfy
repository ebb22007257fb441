/**
 * Fixed-window rate limiting (src/lib/rateLimit.ts).
 *
 * Requests are counted per key `identifier:pathname` in a process-wide map
 * of windows.  A window lives until its `resetTime`; a request that finds no
 * window, or one whose `resetTime` lies before now, opens a fresh one.  A
 * periodic sweep drops expired windows.  Rejected requests get a 429
 * response with retry guidance; accepted ones carry the counters as headers.
 * The clock is a parameter.
 */
module RateLimit {
  import opened Options
  import opened Text

  // ---------------------------------------------------------------------------
  // Configuration and results
  // ---------------------------------------------------------------------------

  datatype RateLimitConfig = RateLimitConfig(windowMs: int, maxRequests: int, identifier: Option<string>)

  datatype RateLimitResult = RateLimitResult(success: bool, limit: int, remaining: int, reset: int)

  const Minute: int := 60 * 1000

  /** `RateLimitConfigs`: four policies that differ only in window and ceiling. */
  const Strict: RateLimitConfig := RateLimitConfig(15 * Minute, 20, None)
  const Moderate: RateLimitConfig := RateLimitConfig(15 * Minute, 100, None)
  const Lenient: RateLimitConfig := RateLimitConfig(15 * Minute, 300, None)
  const Tracking: RateLimitConfig := RateLimitConfig(Minute, 60, None)

  // ---------------------------------------------------------------------------
  // Who is asking
  // ---------------------------------------------------------------------------

  /** Request headers by lower-case name, as `headers.get` reads them. */
  type Headers = map<string, string>

  /** The header value, or "" when absent (both are falsy in the source). */
  function Header(headers: Headers, name: string): string
  {
    if name in headers then headers[name] else ""
  }

  /** `split(",")[0]` is the longest comma-free prefix. */
  lemma {:induction false} FirstPiece(s: string, sep: char)
    ensures var p := Split(s, sep)[0];
      p <= s && sep !in p && (|p| == |s| || s[|p|] == sep)
    decreases |s|
  {
    if s != [] && s[0] != sep {
      FirstPiece(s[1..], sep);
      var rest := Split(s[1..], sep);
      assert Split(s, sep)[0] == [s[0]] + rest[0];
      assert s == [s[0]] + s[1..];
    }
  }

  /**
   * The identifier of a request: the configured one; else the first
   * comma-separated piece of x-forwarded-for; else x-real-ip; else
   * "unknown", each used only when it is not empty.
   */
  function ClientIdentifier(configured: Option<string>, headers: Headers): (r: string)
    ensures r != ""
    ensures configured.Some? && configured.value != "" ==> r == configured.value
    ensures configured.None? || configured.value == "" ==>
      var forwarded := Header(headers, "x-forwarded-for");
      var realIp := Header(headers, "x-real-ip");
      if forwarded != [] && forwarded[0] != ',' then
        r <= forwarded && ',' !in r && (|r| == |forwarded| || forwarded[|r|] == ',')
      else if realIp != "" then r == realIp
      else r == "unknown"
  {
    var forwarded := Split(Header(headers, "x-forwarded-for"), ',')[0];
    FirstPiece(Header(headers, "x-forwarded-for"), ',');
    var ip := if forwarded != "" then forwarded
              else if Header(headers, "x-real-ip") != "" then Header(headers, "x-real-ip")
              else "unknown";
    if configured.Some? && configured.value != "" then configured.value else ip
  }

  /** The store key: identifier and route path joined by a colon. */
  function Key(identifier: string, pathname: string): string
  {
    identifier + ":" + pathname
  }

  /** A key starts with its identifier, followed by the colon. */
  lemma KeyLayout(identifier: string, pathname: string)
    ensures var k := Key(identifier, pathname);
      && |k| > |identifier| && k[|identifier|] == ':'
      && k[..|identifier|] == identifier && k[|identifier| + 1..] == pathname
      && forall i :: 0 <= i < |identifier| ==> k[i] == identifier[i]
  {
  }

  /**
   * For identifiers without a colon (an IPv4 address, "unknown"), two
   * requests share a window exactly when they share identifier and path.
   */
  lemma KeyInjective(id1: string, path1: string, id2: string, path2: string)
    requires ':' !in id1 && ':' !in id2
    ensures Key(id1, path1) == Key(id2, path2) <==> id1 == id2 && path1 == path2
  {
    KeyLayout(id1, path1);
    KeyLayout(id2, path2);
    // the first colon of a key marks where its identifier ends
    assert forall i :: 0 <= i < |id1| ==> Key(id1, path1)[i] != ':';
    assert forall i :: 0 <= i < |id2| ==> Key(id2, path2)[i] != ':';
  }

  // ---------------------------------------------------------------------------
  // One window
  // ---------------------------------------------------------------------------

  datatype Window = Window(count: nat, resetTime: int)

  function Lookup(store: map<string, Window>, key: string): Option<Window>
  {
    if key in store then Some(store[key]) else None
  }

  /** A window is stale once its reset time lies strictly before now. */
  predicate Expired(w: Window, now: int)
  {
    w.resetTime < now
  }

  /** The window after one more request: the stored one, or a fresh empty one, counted once more. */
  function NextWindow(stored: Option<Window>, now: int, windowMs: int): (w: Window)
    ensures stored.None? || Expired(stored.value, now) ==> w == Window(1, now + windowMs)
    ensures stored.Some? && !Expired(stored.value, now) ==>
      w.count == stored.value.count + 1 && w.resetTime == stored.value.resetTime
  {
    var data := if stored.None? || Expired(stored.value, now) then Window(0, now + windowMs) else stored.value;
    data.(count := data.count + 1)
  }

  /**
   * A window restarts exactly when there is none or it has expired: a window
   * whose reset time is now is still in use.
   */
  lemma RestartsExactlyWhenStale(stored: Option<Window>, now: int, windowMs: int)
    requires stored.Some? ==> stored.value.count >= 1
    ensures NextWindow(stored, now, windowMs).count == 1 <==> stored.None? || stored.value.resetTime < now
    ensures stored.Some? && stored.value.resetTime == now ==>
      NextWindow(stored, now, windowMs) == stored.value.(count := stored.value.count + 1)
  {
  }

  function Max(a: int, b: int): int
  {
    if a >= b then a else b
  }

  /** What `rateLimit` returns for the window it has just stored. */
  function Report(w: Window, maxRequests: int): (r: RateLimitResult)
    ensures r.remaining >= 0
    ensures r.success <==> w.count <= maxRequests
    ensures r.success ==> r.remaining == maxRequests - w.count
    ensures !r.success ==> r.remaining == 0
    ensures r.limit == maxRequests && r.reset == w.resetTime
  {
    RateLimitResult(w.count <= maxRequests, maxRequests, Max(0, maxRequests - w.count), w.resetTime)
  }

  // ---------------------------------------------------------------------------
  // Many requests
  // ---------------------------------------------------------------------------

  /** The store after one request on `key` at `now`. */
  function Hit(store: map<string, Window>, key: string, now: int, windowMs: int): (s: map<string, Window>)
    ensures key in s
    ensures forall k :: k != key ==> Lookup(s, k) == Lookup(store, k)
  {
    store[key := NextWindow(Lookup(store, key), now, windowMs)]
  }

  /** The store after requests on `key` at the given times, in order. */
  function Hits(store: map<string, Window>, key: string, times: seq<int>, windowMs: int): map<string, Window>
    decreases |times|
  {
    if times == [] then store else Hits(Hit(store, key, times[0], windowMs), key, times[1..], windowMs)
  }

  /** Requests made no later than a window's reset time add to its count and keep its reset time. */
  lemma {:induction false} HitsWithinWindow(store: map<string, Window>, key: string, times: seq<int>, windowMs: int)
    requires key in store
    requires forall i :: 0 <= i < |times| ==> times[i] <= store[key].resetTime
    ensures var s := Hits(store, key, times, windowMs);
      key in s && s[key] == Window(store[key].count + |times|, store[key].resetTime)
    decreases |times|
  {
    if times != [] {
      var next := Hit(store, key, times[0], windowMs);
      assert next[key] == Window(store[key].count + 1, store[key].resetTime);
      HitsWithinWindow(next, key, times[1..], windowMs);
    }
  }

  /** Requests on `key` leave every other key as it was. */
  lemma {:induction false} HitsElsewhere(store: map<string, Window>, key: string, times: seq<int>, windowMs: int, other: string)
    requires other != key
    ensures Lookup(Hits(store, key, times, windowMs), other) == Lookup(store, other)
    decreases |times|
  {
    if times != [] {
      HitsElsewhere(Hit(store, key, times[0], windowMs), key, times[1..], windowMs, other);
    }
  }

  /**
   * The n-th request of a window opened at `start` (all requests made no
   * later than `start + windowMs`) is admitted exactly when n is at most the
   * ceiling, and leaves max(0, ceiling - n) requests.
   */
  lemma NthRequestOfWindow(store: map<string, Window>, key: string, times: seq<int>, config: RateLimitConfig)
    requires |times| >= 1
    requires key !in store || store[key].resetTime < times[0]
    requires forall i :: 0 <= i < |times| ==> times[i] <= times[0] + config.windowMs
    ensures var s := Hits(store, key, times, config.windowMs);
      && key in s
      && Report(s[key], config.maxRequests) ==
         RateLimitResult(|times| <= config.maxRequests, config.maxRequests,
                         Max(0, config.maxRequests - |times|), times[0] + config.windowMs)
  {
    var first := Hit(store, key, times[0], config.windowMs);
    assert first[key] == Window(1, times[0] + config.windowMs);
    HitsWithinWindow(first, key, times[1..], config.windowMs);
  }

  /** Under the strict policy the 20th request of a window passes with none left and the 21st fails. */
  lemma StrictPolicyExample(store: map<string, Window>, key: string, times: seq<int>)
    requires |times| == 21
    requires key !in store || store[key].resetTime < times[0]
    requires forall i :: 0 <= i < |times| ==> times[i] <= times[0] + Strict.windowMs
    ensures var twenty := Hits(store, key, times[..20], Strict.windowMs);
      key in twenty && Report(twenty[key], Strict.maxRequests).success
      && Report(twenty[key], Strict.maxRequests).remaining == 0
    ensures var all := Hits(store, key, times, Strict.windowMs);
      key in all && !Report(all[key], Strict.maxRequests).success
  {
    NthRequestOfWindow(store, key, times[..20], Strict);
    NthRequestOfWindow(store, key, times, Strict);
  }

  // ---------------------------------------------------------------------------
  // The sweep
  // ---------------------------------------------------------------------------

  /** The windows the sweep keeps: those whose reset time is not before now. */
  function Unexpired(store: map<string, Window>, now: int): (r: map<string, Window>)
    ensures forall k :: k in r <==> k in store && !Expired(store[k], now)
    ensures forall k :: k in r ==> r[k] == store[k]
  {
    map k | k in store && !Expired(store[k], now) :: store[k]
  }

  /**
   * Sweeping at any time up to now changes nothing a request sees: the
   * request stores the same window for its key and reports the same result.
   */
  lemma SweepIsUnobservable(store: map<string, Window>, sweptAt: int, key: string, now: int, config: RateLimitConfig)
    requires sweptAt <= now
    ensures NextWindow(Lookup(Unexpired(store, sweptAt), key), now, config.windowMs)
         == NextWindow(Lookup(store, key), now, config.windowMs)
  {
    if key in store && Expired(store[key], sweptAt) {
      assert Lookup(Unexpired(store, sweptAt), key) == None;
    }
  }

  // ---------------------------------------------------------------------------
  // The in-memory store
  // ---------------------------------------------------------------------------

  /** `rateLimitStore`, the process-wide map of windows. */
  class RateLimiter {
    var store: map<string, Window>

    /** Every stored window has counted at least one request. */
    ghost predicate Valid()
      reads this
    {
      forall k :: k in store ==> store[k].count >= 1
    }

    constructor ()
      ensures Valid() && store == map[]
    {
      store := map[];
    }

    /**
     * `rateLimit`: count the request in its key's window and report.  Only
     * that key's entry changes.
     */
    method Check(headers: Headers, pathname: string, config: RateLimitConfig, now: int)
      returns (result: RateLimitResult)
      requires Valid()
      modifies this
      ensures Valid()
      ensures var key := Key(ClientIdentifier(config.identifier, headers), pathname);
        && store == Hit(old(store), key, now, config.windowMs)
        && result == Report(store[key], config.maxRequests)
    {
      var identifier := ClientIdentifier(config.identifier, headers);
      var key := Key(identifier, pathname);
      var data: Window;
      if key !in store || store[key].resetTime < now {
        data := Window(0, now + config.windowMs);
      } else {
        data := store[key];
      }
      data := data.(count := data.count + 1);
      store := store[key := data];
      var remaining := Max(0, config.maxRequests - data.count);
      var success := data.count <= config.maxRequests;
      result := RateLimitResult(success, config.maxRequests, remaining, data.resetTime);
    }

    /** The periodic cleanup: delete every window whose reset time lies before now. */
    method Sweep(now: int)
      requires Valid()
      modifies this
      ensures Valid()
      ensures store == Unexpired(old(store), now)
    {
      var keys := store.Keys;
      while keys != {}
        invariant keys <= old(store).Keys
        invariant forall k :: k in store <==> k in old(store) && (k in keys || !Expired(old(store)[k], now))
        invariant forall k :: k in store ==> store[k] == old(store)[k]
        decreases keys
      {
        var k :| k in keys;
        if store[k].resetTime < now {
          store := store - {k};
        }
        keys := keys - {k};
      }
    }
  }

  // ---------------------------------------------------------------------------
  // Responses
  // ---------------------------------------------------------------------------

  /** The JSON body of a 429 response. */
  datatype ErrorBody = ErrorBody(error: string, message: string, retryAfter: int)

  /** The parts of a `NextResponse` the rate limiter sets or reads. */
  class HttpResponse {
    var status: int
    var headers: map<string, string>
    var error: Option<ErrorBody>

    constructor (status: int, headers: map<string, string>, error: Option<ErrorBody>)
      ensures this.status == status && this.headers == headers && this.error == error
    {
      this.status := status;
      this.headers := headers;
      this.error := error;
    }
  }

  /** Seconds until the window resets, rounded up: `Math.ceil((reset - now) / 1000)`. */
  function RetryAfter(reset: int, now: int): (s: int)
    ensures (s - 1) * 1000 < reset - now <= s * 1000
  {
    0 - (now - reset) / 1000
  }

  /** The three counters as header text. */
  function LimitHeaders(result: RateLimitResult): (h: map<string, string>)
    ensures h.Keys == {"X-RateLimit-Limit", "X-RateLimit-Remaining", "X-RateLimit-Reset"}
  {
    map["X-RateLimit-Limit" := IntToString(result.limit),
        "X-RateLimit-Remaining" := IntToString(result.remaining),
        "X-RateLimit-Reset" := IntToString(result.reset)]
  }

  /** A client reading the counter headers back gets the numbers of the result. */
  lemma LimitHeadersReadBack(result: RateLimitResult)
    ensures var h := LimitHeaders(result);
      && ParseInt(h["X-RateLimit-Limit"]) == result.limit
      && ParseInt(h["X-RateLimit-Remaining"]) == result.remaining
      && ParseInt(h["X-RateLimit-Reset"]) == result.reset
  {
    ParseIntToString(result.limit);
    ParseIntToString(result.remaining);
    ParseIntToString(result.reset);
  }

  /** The headers of the 429 response. */
  function ErrorHeaders(result: RateLimitResult, now: int): (h: map<string, string>)
    ensures h.Keys == {"content-type", "X-RateLimit-Limit", "X-RateLimit-Remaining", "X-RateLimit-Reset", "Retry-After"}
    ensures h["content-type"] == "application/json"
    ensures h["X-RateLimit-Limit"] == IntToString(result.limit)
    ensures h["X-RateLimit-Remaining"] == "0"
    ensures h["X-RateLimit-Reset"] == IntToString(result.reset)
    ensures h["Retry-After"] == IntToString(RetryAfter(result.reset, now))
  {
    map["content-type" := "application/json",
        "X-RateLimit-Limit" := IntToString(result.limit),
        "X-RateLimit-Remaining" := "0",
        "X-RateLimit-Reset" := IntToString(result.reset),
        "Retry-After" := IntToString(RetryAfter(result.reset, now))]
  }

  /**
   * A client reading the 429 headers back gets the limit, no remaining
   * requests, the reset time, and a Retry-After of s seconds with
   * (s - 1) * 1000 < reset - now <= s * 1000.
   */
  lemma ErrorHeadersReadBack(result: RateLimitResult, now: int)
    ensures var h := ErrorHeaders(result, now);
      && ParseInt(h["X-RateLimit-Limit"]) == result.limit
      && ParseInt(h["X-RateLimit-Remaining"]) == 0
      && ParseInt(h["X-RateLimit-Reset"]) == result.reset
      && var s := ParseInt(h["Retry-After"]);
         (s - 1) * 1000 < result.reset - now <= s * 1000
  {
    ParseIntToString(result.limit);
    ParseIntToString(0);
    ParseIntToString(result.reset);
    ParseIntToString(RetryAfter(result.reset, now));
  }

  /**
   * For a request the limiter rejected, the 429 headers carry the same
   * counters as the success path would, plus Retry-After and the JSON type.
   */
  lemma RejectionHeadersAgree(w: Window, maxRequests: int, now: int)
    requires !Report(w, maxRequests).success
    ensures var r := Report(w, maxRequests);
      forall name :: name in LimitHeaders(r) ==> name in ErrorHeaders(r, now) && ErrorHeaders(r, now)[name] == LimitHeaders(r)[name]
  {
    assert IntToString(0) == "0";
  }

  /** `addRateLimitHeaders`: set the three counter headers on the response. */
  method AddRateLimitHeaders(response: HttpResponse, result: RateLimitResult) returns (r: HttpResponse)
    modifies response
    ensures r == response
    ensures response.headers == old(response.headers) + LimitHeaders(result)
    ensures response.status == old(response.status) && response.error == old(response.error)
  {
    response.headers := response.headers["X-RateLimit-Limit" := IntToString(result.limit)];
    response.headers := response.headers["X-RateLimit-Remaining" := IntToString(result.remaining)];
    response.headers := response.headers["X-RateLimit-Reset" := IntToString(result.reset)];
    r := response;
  }

  /** `createRateLimitErrorResponse`: a fresh 429 with the error body and retry guidance. */
  method CreateRateLimitErrorResponse(result: RateLimitResult, now: int) returns (response: HttpResponse)
    ensures fresh(response)
    ensures response.status == 429
    ensures response.error ==
      Some(ErrorBody("Too many requests", "Rate limit exceeded. Please try again later.", RetryAfter(result.reset, now)))
    ensures response.headers == ErrorHeaders(result, now)
  {
    var retryAfter := RetryAfter(result.reset, now);
    response := new HttpResponse(429, map["content-type" := "application/json"],
      Some(ErrorBody("Too many requests", "Rate limit exceeded. Please try again later.", retryAfter)));
    response.headers := response.headers["X-RateLimit-Limit" := IntToString(result.limit)];
    response.headers := response.headers["X-RateLimit-Remaining" := "0"];
    response.headers := response.headers["X-RateLimit-Reset" := IntToString(result.reset)];
    response.headers := response.headers["Retry-After" := IntToString(retryAfter)];
  }
}
