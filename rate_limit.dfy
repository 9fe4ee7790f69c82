/**
 * Request rate limiting per API key: `check_rate_limit` of services.py, which counts requests
 * in a fixed window per key, and `RateLimit.should_limit` of models.py.
 *
 * The database is a map from API key to its rate-limit record plus the set of existing API
 * keys; the clock is the parameter `now`, and `RATE_LIMIT_MAX` and `RATE_LIMIT_INTERVAL` are
 * the parameters `maxCount` and `interval`. Each call is one sequential step (the lock that
 * serialises calls is what makes that faithful).
 */
module RateLimiting {

  /** A rate-limit record as stored: the requests counted in the current window and the time
      the window ends. `reset_time` is an `IntegerField`, so the stored end is a whole number
      of seconds, and every call reads the record afresh from the database. */
  datatype Window = Window(count: int, resetTime: int)

  /** Python's `int()` of a float, which is what saving a float into an `IntegerField` keeps:
      the fraction is dropped, rounding toward zero. */
  function Truncate(x: real): (n: int)
    ensures x >= 0.0 ==> n as real <= x < n as real + 1.0
    ensures x < 0.0 ==> n as real - 1.0 < x <= n as real
  {
    if x >= 0.0 then x.Floor else -((-x).Floor)
  }

  /** The window end a request at `now` opens, as the database keeps it. */
  function WindowEnd(now: real, interval: real): int {
    Truncate(now + interval)
  }

  /** One request against an existing record at time `now`: whether it is let through, and the
      record afterwards. */
  function Admit(w: Window, now: real, maxCount: int, interval: real): (bool, Window) {
    if now > w.resetTime as real then (true, Window(1, WindowEnd(now, interval)))
    else if w.count < maxCount then (true, Window(w.count + 1, w.resetTime))
    else (false, w)
  }

  /** A request is let through exactly when the window has ended or the count is under the
      limit; a refused request leaves the record as it was, and an admitted one within the
      window counts exactly once. */
  lemma AdmitDecision(w: Window, now: real, maxCount: int, interval: real)
    ensures Admit(w, now, maxCount, interval).0 <==> now > w.resetTime as real || w.count < maxCount
    ensures !Admit(w, now, maxCount, interval).0 ==> Admit(w, now, maxCount, interval).1 == w
    ensures now <= w.resetTime as real && Admit(w, now, maxCount, interval).0 ==>
      Admit(w, now, maxCount, interval).1 == w.(count := w.count + 1)
    ensures now > w.resetTime as real ==> Admit(w, now, maxCount, interval).1 == Window(1, WindowEnd(now, interval))
    ensures now > w.resetTime as real && now + interval >= 0.0 ==>
      var e := Admit(w, now, maxCount, interval).1.resetTime as real;
      e <= now + interval < e + 1.0
  {
  }

  /** The stored end is cut to whole seconds, so a window opened at 40.5 with an interval of
      60 ends at 100, and a request at 100.2 opens a new window even when the count is full. */
  lemma TruncatedEndOpensNewWindow()
    ensures WindowEnd(40.5, 60.0) == 100
    ensures Admit(Window(5, WindowEnd(40.5, 60.0)), 100.2, 5, 60.0) == (true, Window(1, 160))
  {
  }

  /** With a limit of at least one, a count within the limit stays within it. */
  lemma AdmitKeepsBound(w: Window, now: real, maxCount: int, interval: real)
    requires 1 <= maxCount && w.count <= maxCount
    ensures Admit(w, now, maxCount, interval).1.count <= maxCount
  {
  }

  /** The requests at times `nows`, one after the other: how many were let through, and the
      record at the end. */
  function AdmitAll(w: Window, nows: seq<real>, maxCount: int, interval: real): (int, Window)
    decreases |nows|
  {
    if nows == [] then (0, w)
    else
      var (ok, w1) := Admit(w, nows[0], maxCount, interval);
      var (n, w2) := AdmitAll(w1, nows[1..], maxCount, interval);
      (if ok then n + 1 else n, w2)
  }

  /** Within one window no more than `maxCount` requests get through: requests that all come
      before the window ends let through at most the room left in it. */
  lemma {:induction false} AtMostMaxPerWindow(w: Window, nows: seq<real>, maxCount: int, interval: real)
    requires forall k :: 0 <= k < |nows| ==> nows[k] <= w.resetTime as real
    ensures AdmitAll(w, nows, maxCount, interval).0 <= if w.count < maxCount then maxCount - w.count else 0
    ensures AdmitAll(w, nows, maxCount, interval).1.resetTime == w.resetTime
    decreases |nows|
  {
    if nows != [] {
      var (ok, w1) := Admit(w, nows[0], maxCount, interval);
      assert w1.resetTime == w.resetTime;
      AtMostMaxPerWindow(w1, nows[1..], maxCount, interval);
    }
  }

  /** The rate-limit records of all API keys, and the API keys themselves. A record belongs
      to an existing key. */
  class RateLimitStore {
    var apiKeys: set<string>
    var records: map<string, Window>

    predicate Valid()
      reads this
    {
      records.Keys <= apiKeys
    }

    constructor(keys: set<string>)
      ensures Valid() && apiKeys == keys && records == map[]
    {
      apiKeys := keys;
      records := map[];
    }

    /** `check_rate_limit`: an existing record is advanced by `Admit`; a key without a record
        gets a new window holding this request; an unknown key is refused. No other record
        changes. */
    method CheckRateLimit(key: string, now: real, maxCount: int, interval: real) returns (allowed: bool)
      requires Valid()
      modifies this
      ensures Valid() && apiKeys == old(apiKeys)
      ensures key in old(records) ==>
        allowed == Admit(old(records)[key], now, maxCount, interval).0
        && records == old(records)[key := Admit(old(records)[key], now, maxCount, interval).1]
      ensures key !in old(records) && key in apiKeys ==>
        allowed && records == old(records)[key := Window(1, WindowEnd(now, interval))]
      ensures key !in old(records) && key !in apiKeys ==> !allowed && records == old(records)
    {
      if key in records {
        var w := records[key];
        if now > w.resetTime as real {
          records := records[key := Window(1, WindowEnd(now, interval))];
          allowed := true;
        } else if w.count < maxCount {
          records := records[key := w.(count := w.count + 1)];
          allowed := true;
        } else {
          allowed := false;
        }
      } else if key in apiKeys {
        records := records[key := Window(1, WindowEnd(now, interval))];
        allowed := true;
      } else {
        allowed := false;
      }
    }
  }

  /** The rate-limit record of models.py, with its own check. */
  class RateLimit {
    var count: int
    var resetTime: real

    constructor(count: int, resetTime: real)
      ensures this.count == count && this.resetTime == resetTime
    {
      this.count := count;
      this.resetTime := resetTime;
    }

    /** `should_limit`: once the window has ended, a new window starts with a count of zero
        and the request is not limited; within the window the request is limited exactly when
        the count has reached `maxRequests`, and nothing changes. The count is never
        incremented here. */
    method ShouldLimit(maxRequests: int, interval: real, now: real) returns (limit: bool)
      modifies this
      ensures now > old(resetTime) ==> !limit && count == 0 && resetTime == now + interval
      ensures now <= old(resetTime) ==>
        limit == (old(count) >= maxRequests) && count == old(count) && resetTime == old(resetTime)
    {
      if now > resetTime {
        count := 0;
        resetTime := now + interval;
        limit := false;
      } else {
        limit := count >= maxRequests;
      }
    }
  }
}
