// The per-client fixed-window rate limiter that sits in front of every API
// route (`RateLimitMiddleware`): its configuration, its in-memory table
// from client address to `{count, window_start}`, and the headers it sets.
module RateLimiting {
  import opened Wrappers
  import opened Text
  import opened Numerals

  const ExceededDetail := "Rate limit exceeded. Please try again later."
  const DefaultLimitText := "100"
  const DefaultWindow := 60
  const Loopback := "127.0.0.1"

  /** One client's window: requests admitted so far and when it started
      (seconds since the epoch). */
  datatype Entry = Entry(count: int, windowStart: real)

  datatype RateHeaders = RateHeaders(limit: int, remaining: int, reset: int)

  /** What the middleware does with a request: hand it on with the rate
      headers, or answer it itself. */
  datatype Response = Forwarded(headers: RateHeaders) | Rejected(status: int, detail: String)

  /** `int(os.getenv("RATE_LIMIT", "100"))`; a value `int()` refuses makes
      the import fail. */
  function InitialLimit(rateLimitEnv: Option<String>): (r: Result<int, String>)
    ensures r.Ok? <==> PyInt(rateLimitEnv.GetOr(DefaultLimitText)).Some?
  {
    match PyInt(rateLimitEnv.GetOr(DefaultLimitText))
    case Some(n) => Ok(n)
    case None => Err("ValueError")
  }

  /** Unset, the limit is 100; set to a numeral, it is that number. */
  lemma {:induction false} InitialLimitValues(n: int)
    ensures InitialLimit(None) == Ok(100)
    ensures InitialLimit(Some(IntToString(n))) == Ok(n)
  {
    assert NatToString(1) == "1";
    assert NatToString(10) == "10";
    assert IntToString(100) == DefaultLimitText;
    PyIntRoundTrip(100);
    PyIntRoundTrip(n);
  }

  /** Python's `int(x)` on a float: truncation toward zero. */
  function TruncToInt(x: real): (r: int)
    ensures x >= 0.0 ==> r as real <= x < r as real + 1.0
    ensures x < 0.0 ==> r as real - 1.0 < x <= r as real
  {
    if x >= 0.0 then x.Floor else -((-x).Floor)
  }

  /** The key a request is counted under: the first `X-Forwarded-For`
      entry, trimmed; else the peer's host; else the loopback address. */
  function ClientKey(forwardedFor: Option<String>, peer: Option<String>): (key: String)
    ensures forwardedFor.Some? && forwardedFor.value != [] ==>
              key == Trim(FirstField(forwardedFor.value, ','))
    ensures (forwardedFor.None? || forwardedFor.value == []) && peer.Some? ==> key == peer.value
    ensures (forwardedFor.None? || forwardedFor.value == []) && peer.None? ==> key == Loopback
  {
    if forwardedFor.Some? && forwardedFor.value != [] then Trim(FirstField(forwardedFor.value, ','))
    else if peer.Some? then peer.value
    else Loopback
  }

  /** The entry a request sees once it has been created or its window
      restarted: a window older than `window` seconds (strictly) starts
      over at `now` with count 0. */
  function CurrentWindow(e: Option<Entry>, now: real, window: int): (cur: Entry)
    ensures e.None? ==> cur == Entry(0, now)
    ensures e.Some? && now - e.value.windowStart > window as real ==> cur == Entry(0, now)
    ensures e.Some? && now - e.value.windowStart <= window as real ==> cur == e.value
  {
    var start := if e.Some? then e.value else Entry(0, now);
    if now - start.windowStart > window as real then Entry(0, now) else start
  }

  /** Whether the request is admitted, and the entry stored afterwards. */
  function Admit(e: Option<Entry>, now: real, limit: int, window: int): (r: (bool, Entry))
    ensures var cur := CurrentWindow(e, now, window);
            (r.0 <==> cur.count < limit)
            && r.1.windowStart == cur.windowStart
            && r.1.count == if r.0 then cur.count + 1 else cur.count
  {
    var cur := CurrentWindow(e, now, window);
    if cur.count >= limit then (false, cur) else (true, cur.(count := cur.count + 1))
  }

  /** A client under its limit stays under it: the count never exceeds a
      non-negative limit, so `limit - count` is never negative. */
  lemma {:induction false} AdmitKeepsBound(e: Option<Entry>, now: real, limit: int, window: int)
    requires limit >= 0
    requires e.Some? ==> 0 <= e.value.count <= limit
    ensures 0 <= Admit(e, now, limit, window).1.count <= limit
  {
  }

  /** A request in a fresh window (first ever, or after expiry) is admitted
      with `limit - 1` remaining whenever the limit is positive. */
  lemma {:induction false} FreshWindowAdmits(e: Option<Entry>, now: real, limit: int, window: int)
    requires limit >= 1
    requires e.None? || now - e.value.windowStart > window as real
    ensures Admit(e, now, limit, window) == (true, Entry(1, now))
  {
  }

  /** A window exactly `window` seconds old is not yet expired. */
  lemma {:induction false} BoundaryDoesNotReset(c: int, start: real, window: int)
    ensures CurrentWindow(Some(Entry(c, start)), start + window as real, window) == Entry(c, start)
  {
  }

  /** Replaying requests from one client at the given times. */
  function Replay(e: Option<Entry>, times: seq<real>, limit: int, window: int): (r: (Option<Entry>, seq<bool>))
    ensures |r.1| == |times|
    ensures |times| > 0 ==> r.0.Some?
    decreases |times|
  {
    if |times| == 0 then (e, [])
    else
      var step := Admit(e, times[0], limit, window);
      var rest := Replay(Some(step.1), times[1..], limit, window);
      (rest.0, [step.0] + rest.1)
  }

  function Burst(n: nat, now: real): (times: seq<real>)
    ensures |times| == n && forall i :: 0 <= i < n ==> times[i] == now
  {
    seq(n, i => now)
  }

  /** A burst of requests at one instant from one client, starting `k` into
      a window opened at `now`: the first `limit - k` pass, then every
      further one is refused. */
  lemma {:induction false} BurstFromCount(k: nat, n: nat, now: real, limit: int, window: int)
    requires 0 <= window && k <= limit
    ensures forall i :: 0 <= i < n ==> (Replay(Some(Entry(k, now)), Burst(n, now), limit, window).1[i] <==> k + i < limit)
    decreases n
  {
    if n > 0 {
      var times := Burst(n, now);
      assert times[1..] == Burst(n - 1, now);
      var step := Admit(Some(Entry(k, now)), now, limit, window);
      var rest := Replay(Some(step.1), Burst(n - 1, now), limit, window);
      var r := Replay(Some(Entry(k, now)), times, limit, window);
      assert r.1 == [step.0] + rest.1;
      if k < limit {
        assert step == (true, Entry(k + 1, now));
        BurstFromCount(k + 1, n - 1, now, limit, window);
      } else {
        assert step == (false, Entry(k, now));
        BurstStaysRefused(k, n - 1, now, limit, window);
      }
      forall i | 0 <= i < n ensures (r.1[i] <==> k + i < limit) {
        if i > 0 {
          assert r.1[i] == rest.1[i - 1];
          assert rest.1[i - 1] <==> k + 1 + (i - 1) < limit;
        }
      }
    }
  }

  lemma {:induction false} BurstStaysRefused(k: nat, n: nat, now: real, limit: int, window: int)
    requires 0 <= window && k >= limit
    ensures forall i :: 0 <= i < n ==> !Replay(Some(Entry(k, now)), Burst(n, now), limit, window).1[i]
    decreases n
  {
    if n > 0 {
      var times := Burst(n, now);
      assert times[1..] == Burst(n - 1, now);
      var step := Admit(Some(Entry(k, now)), now, limit, window);
      assert step == (false, Entry(k, now));
      var rest := Replay(Some(step.1), Burst(n - 1, now), limit, window);
      var r := Replay(Some(Entry(k, now)), times, limit, window);
      assert r.1 == [step.0] + rest.1;
      BurstStaysRefused(k, n - 1, now, limit, window);
      forall i | 0 <= i < n ensures !r.1[i] {
        if i > 0 {
          assert r.1[i] == rest.1[i - 1];
          assert !rest.1[i - 1];
        }
      }
    }
  }

  /** From a cleared table, `limit` requests at one instant pass and the
      next one is refused. */
  lemma {:induction false} BurstHitsLimit(n: nat, now: real, limit: nat, window: nat)
    ensures forall i :: 0 <= i < n ==> (Replay(None, Burst(n, now), limit, window).1[i] <==> i < limit)
  {
    if n > 0 {
      var times := Burst(n, now);
      assert times[1..] == Burst(n - 1, now);
      var step := Admit(None, now, limit, window);
      var rest := Replay(Some(step.1), Burst(n - 1, now), limit, window);
      var r := Replay(None, times, limit, window);
      assert r.1 == [step.0] + rest.1;
      if limit > 0 {
        assert step == (true, Entry(1, now));
        BurstFromCount(1, n - 1, now, limit, window);
      } else {
        assert step == (false, Entry(0, now));
        BurstStaysRefused(0, n - 1, now, limit, window);
      }
      forall i | 0 <= i < n ensures (r.1[i] <==> i < limit) {
        if i > 0 {
          assert r.1[i] == rest.1[i - 1];
        }
      }
    }
  }

  /** `get_rate_limit_headers`: the three headers as decimal text. */
  function HeaderMap(h: RateHeaders): (m: map<String, String>)
    ensures m.Keys == {"X-RateLimit-Limit", "X-RateLimit-Remaining", "X-RateLimit-Reset"}
  {
    map["X-RateLimit-Limit" := IntToString(h.limit),
        "X-RateLimit-Remaining" := IntToString(h.remaining),
        "X-RateLimit-Reset" := IntToString(h.reset)]
  }

  /** A client reading the headers back with `int()` recovers the numbers. */
  lemma {:induction false} HeaderMapRoundTrip(h: RateHeaders)
    ensures PyInt(HeaderMap(h)["X-RateLimit-Limit"]) == Some(h.limit)
    ensures PyInt(HeaderMap(h)["X-RateLimit-Remaining"]) == Some(h.remaining)
    ensures PyInt(HeaderMap(h)["X-RateLimit-Reset"]) == Some(h.reset)
  {
    HeaderMapAt(h);
    PyIntRoundTrip(h.limit);
    PyIntRoundTrip(h.remaining);
    PyIntRoundTrip(h.reset);
  }

  /** Each header holds the decimal text of its own number. */
  lemma {:induction false} HeaderMapAt(h: RateHeaders)
    ensures HeaderMap(h)["X-RateLimit-Limit"] == IntToString(h.limit)
    ensures HeaderMap(h)["X-RateLimit-Remaining"] == IntToString(h.remaining)
    ensures HeaderMap(h)["X-RateLimit-Reset"] == IntToString(h.reset)
  {
    assert "X-RateLimit-Limit"[12] == 'L' && "X-RateLimit-Remaining"[12] == 'R' && "X-RateLimit-Reset"[12] == 'R';
    assert "X-RateLimit-Remaining"[14] == 'm' && "X-RateLimit-Reset"[14] == 's';
  }

  /** `os.getenv("ENVIRONMENT", "").lower() == "test"`. */
  predicate IsTestEnvironment(environment: String)
  {
    Lower(environment) == "test"
  }

  /** The module-level state: `RATE_LIMIT_CONFIG` and `rate_limit_data`. */
  class RateLimiter {
    var limit: int
    var window: int
    var data: map<String, Entry>

    /** Every stored count is non-negative and at most the limit. */
    ghost predicate Bounded()
      reads this
    {
      CountsWithin(data, limit)
    }

    /** Module import: configured limit, 60-second window, empty table. */
    constructor (initialLimit: int)
      ensures limit == initialLimit && window == DefaultWindow && data == map[]
    {
      limit := initialLimit;
      window := DefaultWindow;
      data := map[];
    }

    /** `RateLimitMiddleware.__init__` overwrites the shared configuration;
        the table is kept. */
    method ConfigureMiddleware(maxRequests: int, timeWindow: int)
      modifies this
      ensures limit == maxRequests && window == timeWindow && data == old(data)
    {
      limit := maxRequests;
      window := timeWindow;
    }

    /** `dispatch` for one request. `environment` is `ENVIRONMENT` (empty
        when unset) and `now` is `time.time()`. */
    method Dispatch(environment: String, forwardedFor: Option<String>, peer: Option<String>, now: real)
      returns (resp: Response)
      modifies this
      ensures limit == old(limit) && window == old(window)
      ensures IsTestEnvironment(environment) ==>
                data == old(data) && resp == Forwarded(RateHeaders(limit, limit, window))
      ensures !IsTestEnvironment(environment) ==>
                var key := ClientKey(forwardedFor, peer);
                var step := Admit(if key in old(data) then Some(old(data)[key]) else None, now, limit, window);
                data == old(data)[key := step.1]
                && (step.0 ==> resp == Forwarded(RateHeaders(limit, limit - step.1.count,
                                                             TruncToInt(step.1.windowStart + window as real - now))))
                && (!step.0 ==> resp == Rejected(429, ExceededDetail))
      ensures !IsTestEnvironment(environment) && resp.Forwarded? ==> resp.headers.remaining >= 0
      ensures old(Bounded()) && limit >= 0 ==> Bounded()
    {
      if IsTestEnvironment(environment) {
        resp := Forwarded(RateHeaders(limit, limit, window));
      } else {
        var key := ClientKey(forwardedFor, peer);
        var admitted := CountRequest(key, now);
        if admitted {
          var remaining := limit - data[key].count;
          var reset := TruncToInt(data[key].windowStart + window as real - now);
          resp := Forwarded(RateHeaders(limit, remaining, reset));
        } else {
          resp := Rejected(429, ExceededDetail);
        }
      }
    }

    /** Lines 45-65 of `dispatch`: create the client's entry if needed,
        restart an expired window, then refuse at the limit or count the
        request. */
    method CountRequest(key: String, now: real) returns (admitted: bool)
      modifies this
      ensures limit == old(limit) && window == old(window)
      ensures var step := Admit(if key in old(data) then Some(old(data)[key]) else None, now, limit, window);
              admitted == step.0 && data == old(data)[key := step.1]
      ensures old(Bounded()) && limit >= 0 ==> Bounded()
    {
      ghost var before := if key in data then Some(data[key]) else None;
      ghost var cur := CurrentWindow(before, now, window);
      BoundedAfterAdmit(data, key, now, limit, window);
      if key !in data {
        data := data[key := Entry(0, now)];
      }
      if now - data[key].windowStart > window as real {
        data := data[key := Entry(0, now)];
      }
      assert data[key] == cur;
      if data[key].count >= limit {
        admitted := false;
      } else {
        data := data[key := data[key].(count := data[key].count + 1)];
        admitted := true;
      }
    }
  }

  ghost predicate CountsWithin(data: map<String, Entry>, limit: int)
  {
    forall k :: k in data ==> 0 <= data[k].count <= limit
  }

  /** Storing the entry `Admit` produces keeps every count within a
      non-negative limit. */
  lemma {:induction false} BoundedAfterAdmit(data: map<String, Entry>, key: String, now: real, limit: int, window: int)
    ensures var step := Admit(if key in data then Some(data[key]) else None, now, limit, window);
            CountsWithin(data, limit) && limit >= 0 ==> CountsWithin(data[key := step.1], limit)
  {
    var e := if key in data then Some(data[key]) else None;
    if CountsWithin(data, limit) && limit >= 0 {
      AdmitKeepsBound(e, now, limit, window);
    }
  }
}
