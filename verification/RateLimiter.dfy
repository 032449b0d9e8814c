/** The fixed-window rate limiter: the counting script, and how many requests a history lets through. */
module RateLimiter {
  import opened Common

  /** A counter of the store with the instant, in milliseconds, at which it disappears. */
  datatype Counter = Counter(count: nat, expiresAt: int)

  datatype Consumed = Allowed(remaining: nat) | Throttled(retryAfterSeconds: int)

  predicate Live(c: Option<Counter>, now: int) {
    c.Some? && now < c.value.expiresAt
  }

  /** The script: count, and let the first count of a window set the window's end. */
  function Increment(c: Option<Counter>, window: int, now: int): Counter {
    if Live(c, now) then Counter(c.value.count + 1, c.value.expiresAt) else Counter(1, now + 1000 * window)
  }

  /** Remaining whole seconds as the store reports them, rounded to the nearest. */
  function Ttl(c: Counter, now: int): int {
    (c.expiresAt - now + 500) / 1000
  }

  class ValkeyFixedWindowRateLimiter {
    var counters: map<string, Counter>

    ghost function At(key: string): Option<Counter>
      reads this
    {
      if key in counters then Some(counters[key]) else None
    }

    /**
     * Everyone counts, the throttled ones too. The delay is what is left of the window, to the nearest
     * second; in its last half second, for which the store reports no second, a whole window.
     */
    method Consume(key: string, limit: int, windowSeconds: int, now: int) returns (r: Consumed)
      modifies this
      ensures counters == old(counters)[key := Increment(old(At(key)), windowSeconds, now)]
      ensures r.Allowed? <==> counters[key].count <= limit
      ensures r.Allowed? ==> r.remaining == limit - counters[key].count
      ensures r.Throttled? ==> 1 <= r.retryAfterSeconds
      ensures r.Throttled? && counters[key].expiresAt <= now + 1000 * windowSeconds ==> r.retryAfterSeconds <= Max(1, windowSeconds)
      ensures r.Throttled? && counters[key].expiresAt - now >= 500 ==>
        -500 <= 1000 * r.retryAfterSeconds - (counters[key].expiresAt - now) <= 500
      ensures r.Throttled? && counters[key].expiresAt - now < 500 ==> r.retryAfterSeconds == Max(1, windowSeconds)
    {
      var count := 1;
      if key in counters && now < counters[key].expiresAt {
        count := counters[key].count + 1;
        counters := counters[key := Counter(count, counters[key].expiresAt)];
      } else {
        counters := counters[key := Counter(count, now + 1000 * windowSeconds)];
      }
      var ttl := Ttl(counters[key], now);
      if count > limit {
        return Throttled(Max(1, if ttl > 0 then ttl else windowSeconds));
      }
      return Allowed(Max(0, limit - count));
    }
  }

  // ---- Histories ----

  datatype Request = Request(key: string, limit: int, window: int, now: int)

  predicate Monotone(from: int, h: seq<Request>)
    decreases |h|
  {
    h == [] || (from <= h[0].now && Monotone(h[0].now, h[1..]))
  }

  /** All requests on `key` use one limit and one window; other keys do as they like. */
  predicate Fixed(h: seq<Request>, key: string, limit: int, window: int) {
    forall i :: 0 <= i < |h| && h[i].key == key ==> h[i].limit == limit && h[i].window == window
  }

  /** How many requests on `key` with an instant in [lo, hi) are allowed, from counter `c` on. */
  function AllowedIn(c: Option<Counter>, h: seq<Request>, key: string, lo: int, hi: int): nat
    decreases |h|
  {
    if h == [] then 0
    else if h[0].key != key then AllowedIn(c, h[1..], key, lo, hi)
    else
      var after := Increment(c, h[0].window, h[0].now);
      (if after.count <= h[0].limit && lo <= h[0].now < hi then 1 else 0) + AllowedIn(Some(after), h[1..], key, lo, hi)
  }

  lemma {:induction false} NothingAfterTheInterval(c: Option<Counter>, h: seq<Request>, key: string, from: int, lo: int, hi: int)
    requires Monotone(from, h) && hi <= from
    ensures AllowedIn(c, h, key, lo, hi) == 0
    decreases |h|
  {
    if h != [] {
      NothingAfterTheInterval(if h[0].key == key then Some(Increment(c, h[0].window, h[0].now)) else c, h[1..], key, h[0].now, lo, hi);
    }
  }

  /** A window that lasts through the interval allows what is left of its limit, and no more. */
  lemma {:induction false} RestOfWindow(c: Counter, h: seq<Request>, key: string, limit: int, window: int, from: int, lo: int, hi: int)
    requires Monotone(from, h) && Fixed(h, key, limit, window) && hi <= c.expiresAt
    ensures AllowedIn(Some(c), h, key, lo, hi) <= Max(0, limit - c.count)
    decreases |h|
  {
    if h != [] {
      if h[0].now >= hi {
        NothingAfterTheInterval(Some(c), h, key, h[0].now, lo, hi);
      } else {
        RestOfWindow(if h[0].key == key then Increment(Some(c), window, h[0].now) else c, h[1..], key, limit, window, h[0].now, lo, hi);
      }
    }
  }

  /** A window opened by a first count allows at most `limit` requests until it ends. */
  lemma WindowAllowsAtMostLimit(c: Option<Counter>, h: seq<Request>, key: string, limit: int, window: int)
    requires h != [] && h[0].key == key && !Live(c, h[0].now)
    requires Monotone(h[0].now, h) && Fixed(h, key, limit, window)
    ensures AllowedIn(c, h, key, h[0].now, h[0].now + 1000 * window) <= Max(0, limit)
  {
    RestOfWindow(Increment(c, window, h[0].now), h[1..], key, limit, window, h[0].now, h[0].now, h[0].now + 1000 * window);
  }

  /** From the start of an interval on: the rest of the running window, and one more window. */
  lemma {:induction false} InsideInterval(c: Option<Counter>, h: seq<Request>, key: string, limit: int, window: int, from: int, lo: int)
    requires Monotone(from, h) && Fixed(h, key, limit, window) && lo <= from
    ensures AllowedIn(c, h, key, lo, lo + 1000 * window) <=
      (if c.Some? then Max(0, limit - c.value.count) else 0) + Max(0, limit)
    decreases |h|
  {
    var hi := lo + 1000 * window;
    if h != [] {
      if h[0].now >= hi {
        NothingAfterTheInterval(c, h, key, h[0].now, lo, hi);
      } else if h[0].key != key || Live(c, h[0].now) {
        InsideInterval(if h[0].key == key then Some(Increment(c, window, h[0].now)) else c, h[1..], key, limit, window, h[0].now, lo);
      } else {
        RestOfWindow(Increment(c, window, h[0].now), h[1..], key, limit, window, h[0].now, lo, hi);
      }
    }
  }

  /**
   * Wherever an interval of the window's length lies, it sees at most 2 * limit - 1 allowed requests:
   * two windows can share it, but the request that opened the first one lies before it.
   */
  lemma {:induction false} AnyIntervalAllowsLessThanTwice(c: Option<Counter>, h: seq<Request>, key: string, limit: int,
                                                          window: int, from: int, lo: int)
    requires Monotone(from, h) && Fixed(h, key, limit, window) && (c.Some? ==> c.value.count >= 1)
    ensures AllowedIn(c, h, key, lo, lo + 1000 * window) <= Max(0, 2 * limit - 1)
    decreases |h|
  {
    if h != [] {
      if h[0].now >= lo {
        InsideInterval(c, h, key, limit, window, h[0].now, lo);
      } else {
        AnyIntervalAllowsLessThanTwice(if h[0].key == key then Some(Increment(c, window, h[0].now)) else c,
                                       h[1..], key, limit, window, h[0].now, lo);
      }
    }
  }

  // ---- The bound is reached ----

  function Burst(k: nat, r: Request): seq<Request> {
    if k == 0 then [] else [r] + Burst(k - 1, r)
  }

  lemma {:induction false} BurstInWindow(c: Counter, k: nat, r: Request, rest: seq<Request>, lo: int, hi: int)
    requires r.now < c.expiresAt && lo <= r.now < hi && c.count + k <= r.limit
    ensures AllowedIn(Some(c), Burst(k, r) + rest, r.key, lo, hi)
         == k + AllowedIn(Some(Counter(c.count + k, c.expiresAt)), rest, r.key, lo, hi)
    decreases k
  {
    if k == 0 {
      assert Burst(k, r) + rest == rest;
    } else {
      assert (Burst(k, r) + rest)[1..] == Burst(k - 1, r) + rest;
      BurstInWindow(Counter(c.count + 1, c.expiresAt), k - 1, r, rest, lo, hi);
    }
  }

  lemma {:induction false} BurstIsMonotone(k: nat, r: Request, rest: seq<Request>, from: int)
    requires from <= r.now && Monotone(r.now, rest)
    ensures Monotone(from, Burst(k, r) + rest)
    ensures Monotone(from, rest)
  {
    if k == 0 {
      assert Burst(k, r) + rest == rest;
    } else {
      assert (Burst(k, r) + rest)[1..] == Burst(k - 1, r) + rest;
      BurstIsMonotone(k - 1, r, rest, r.now);
    }
  }

  /** One request at 0, limit - 1 just before the window ends, limit right after. */
  function Worst(key: string, limit: int, window: int): seq<Request>
    requires limit >= 1
  {
    var at := (t: int) => Request(key, limit, window, t);
    [at(0)] + (Burst(limit - 1, at(1000 * window - 1)) + Burst(limit, at(1000 * window)))
  }

  lemma WorstIsMonotone(key: string, limit: int, window: int)
    requires limit >= 1 && window >= 1
    ensures Monotone(0, Worst(key, limit, window))
  {
    var early, late := Request(key, limit, window, 1000 * window - 1), Request(key, limit, window, 1000 * window);
    BurstIsMonotone(limit, late, [], early.now);
    assert Burst(limit, late) + [] == Burst(limit, late);
    BurstIsMonotone(limit - 1, early, Burst(limit, late), 0);
    assert Worst(key, limit, window)[1..] == Burst(limit - 1, early) + Burst(limit, late);
  }

  lemma BoundIsReached(key: string, limit: int, window: int)
    requires limit >= 1 && window >= 1
    ensures AllowedIn(None, Worst(key, limit, window), key, 1000 * window - 1, 2000 * window - 1) == 2 * limit - 1
  {
    var lo, hi, w := 1000 * window - 1, 2000 * window - 1, 1000 * window;
    var early, late := Request(key, limit, window, w - 1), Request(key, limit, window, w);
    var tail := Burst(limit, late);
    var c := Counter(1, w);
    assert Worst(key, limit, window)[1..] == Burst(limit - 1, early) + tail;
    BurstInWindow(c, limit - 1, early, tail, lo, hi);
    var used := Some(Counter(limit, w));
    assert tail[1..] == Burst(limit - 1, late);
    assert AllowedIn(used, tail, key, lo, hi) == 1 + AllowedIn(Some(Counter(1, 2 * w)), Burst(limit - 1, late), key, lo, hi);
    assert Burst(limit - 1, late) + [] == Burst(limit - 1, late);
    BurstInWindow(Counter(1, 2 * w), limit - 1, late, [], lo, hi);
  }
}
