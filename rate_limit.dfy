/**
 * Fixed-window rate limiting keyed by client IP (lib/rate-limit.ts).
 * The module-level `store`, a plain object, is the field of a
 * `RateLimiter` object; the clock readings are parameters.
 */
module RateLimit {
  import opened Common

  /** Request headers by lower-case name; an absent header is `null`. */
  type Headers = map<string, string>

  datatype Record = Record(count: int, resetTime: int)

  datatype Config = Config(windowMs: int, maxRequests: int, keyGenerator: Option<Headers -> string>)

  datatype Decision = Decision(allowed: bool, remaining: int, resetTime: int)

  /**
   * What `checkRateLimit` returns. The store is a plain object, so a key
   * named like an `Object.prototype` member that the store does not own
   * finds the inherited member, which is truthy: neither `resetTime < now`
   * nor `count >= maxRequests` holds for its undefined fields, `count++`
   * gives NaN, and the request is allowed with `remaining: NaN` and
   * `resetTime: undefined`. That outcome is `InheritedAllowed`.
   */
  datatype CheckResult = Checked(decision: Decision) | InheritedAllowed
  {
    predicate Allowed()
    {
      InheritedAllowed? || decision.allowed
    }
  }

  /** A header value, "" standing for an absent one (both are falsy). */
  function Header(h: Headers, name: string): string
  {
    if name in h then h[name] else ""
  }

  /** `forwarded.split(',')[0]?.trim()`. */
  function FirstForwarded(xff: string): string
  {
    Trim(Split(xff, ',')[0])
  }

  /**
   * `defaultKeyGenerator(request)`: the first non-empty of cf-connecting-ip,
   * x-real-ip and the first x-forwarded-for entry, else "unknown".
   */
  function DefaultKeyGenerator(h: Headers): (key: string)
    ensures IsPrefix("rate-limit:", key)
    ensures Header(h, "cf-connecting-ip") != "" ==> key == "rate-limit:" + Header(h, "cf-connecting-ip")
    ensures Header(h, "cf-connecting-ip") == "" && Header(h, "x-real-ip") != "" ==>
      key == "rate-limit:" + Header(h, "x-real-ip")
    ensures (Header(h, "cf-connecting-ip") == "" && Header(h, "x-real-ip") == ""
             && FirstForwarded(Header(h, "x-forwarded-for")) != "") ==>
      key == "rate-limit:" + FirstForwarded(Header(h, "x-forwarded-for"))
    ensures (Header(h, "cf-connecting-ip") == "" && Header(h, "x-real-ip") == ""
             && FirstForwarded(Header(h, "x-forwarded-for")) == "") ==>
      key == "rate-limit:unknown"
  {
    var cf := Header(h, "cf-connecting-ip");
    var realIp := Header(h, "x-real-ip");
    var xff := Header(h, "x-forwarded-for");
    var fwd := if xff != "" then FirstForwarded(xff) else "";
    var ip := if cf != "" then cf else if realIp != "" then realIp else if fwd != "" then fwd else "unknown";
    var prefix := "rate-limit:";
    assert (prefix + ip)[..|prefix|] == prefix;
    prefix + ip
  }

  function Key(config: Config, h: Headers): string
  {
    if config.keyGenerator.Some? then config.keyGenerator.value(h) else DefaultKeyGenerator(h)
  }

  /**
   * The decision for one request, given the key's stored record: a new
   * window starts when there is none or it has expired; a full window
   * denies and leaves the record alone; otherwise the count goes up.
   * The second component is the record stored afterwards.
   */
  function Decide(record: Option<Record>, config: Config, now: int): (r: (Decision, Record))
    ensures record.None? || record.value.resetTime < now ==>
      r.1 == Record(1, now + config.windowMs) && r.0 == Decision(true, config.maxRequests - 1, now + config.windowMs)
    ensures record.Some? && record.value.resetTime >= now && record.value.count >= config.maxRequests ==>
      r.0 == Decision(false, 0, record.value.resetTime) && r.1 == record.value
    ensures record.Some? && record.value.resetTime >= now && record.value.count < config.maxRequests ==>
      r.1 == record.value.(count := record.value.count + 1) && r.0.allowed
    ensures r.0.allowed ==> r.0.remaining == config.maxRequests - r.1.count && r.0.resetTime == r.1.resetTime
    ensures config.maxRequests >= 1 && (record.Some? ==> 0 <= record.value.count <= config.maxRequests) ==>
      1 <= r.1.count <= config.maxRequests && r.0.remaining >= 0
  {
    if record.None? || record.value.resetTime < now then
      (Decision(true, config.maxRequests - 1, now + config.windowMs), Record(1, now + config.windowMs))
    else if record.value.count >= config.maxRequests then
      (Decision(false, 0, record.value.resetTime), record.value)
    else
      var rec := record.value.(count := record.value.count + 1);
      (Decision(true, config.maxRequests - rec.count, rec.resetTime), rec)
  }

  /** The number of requests allowed among `n` arriving at the same instant. */
  function AllowedAmong(record: Option<Record>, config: Config, now: int, n: nat): nat
    decreases n
  {
    if n == 0 then 0
    else
      var (d, rec) := Decide(record, config, now);
      (if d.allowed then 1 else 0) + AllowedAmong(Some(rec), config, now, n - 1)
  }

  lemma {:induction false} AllowedWithinWindow(rec: Record, config: Config, now: int, n: nat)
    requires rec.resetTime >= now && 0 <= rec.count <= config.maxRequests
    ensures AllowedAmong(Some(rec), config, now, n) == Min(n, config.maxRequests - rec.count)
    decreases n
  {
    if n > 0 {
      var (d, next) := Decide(Some(rec), config, now);
      AllowedWithinWindow(next, config, now, n - 1);
    }
  }

  /** Of n requests arriving together at a fresh key, exactly min(n, maxRequests) pass. */
  lemma AllowedPerWindow(config: Config, now: int, n: nat)
    requires config.maxRequests >= 1 && config.windowMs >= 0
    ensures AllowedAmong(None, config, now, n) == Min(n, config.maxRequests)
  {
    if n > 0 {
      var (d, rec) := Decide(None, config, now);
      AllowedWithinWindow(rec, config, now, n - 1);
    }
  }

  /** The records that survive the cleanup at time `now`. */
  function Unexpired(store: map<string, Record>, now: int): (r: map<string, Record>)
    ensures forall k :: k in r <==> k in store && store[k].resetTime >= now
    ensures forall k :: k in r ==> r[k] == store[k]
  {
    map k | k in store && store[k].resetTime >= now :: store[k]
  }

  /** The store kept before looking up the key: cleaned only when over 10000 entries. */
  function BeforeLookup(store: map<string, Record>, now: int): map<string, Record>
  {
    if |store| > 10000 then Unexpired(store, now) else store
  }

  function Lookup(store: map<string, Record>, key: string): Option<Record>
  {
    if key in store then Some(store[key]) else None
  }

  datatype LimitBody = LimitBody(error: string, message: string, retryAfter: int)

  datatype Response = Response(status: int, headers: map<string, string>, body: LimitBody)

  /** `Math.ceil(a / b)` for a positive divisor. */
  function CeilDiv(a: int, b: int): (q: int)
    requires b > 0
    ensures (q - 1) * b < a <= q * b
  {
    -((-a) / b)
  }

  /**
   * A later clock reading never gives more seconds left, and one at most a
   * second later gives at most one second fewer.
   */
  lemma CeilDivLater(resetTime: int, bodyNow: int, headerNow: int)
    ensures bodyNow <= headerNow ==> CeilDiv(resetTime - headerNow, 1000) <= CeilDiv(resetTime - bodyNow, 1000)
    ensures bodyNow <= headerNow <= bodyNow + 1000 ==>
      CeilDiv(resetTime - bodyNow, 1000) - 1 <= CeilDiv(resetTime - headerNow, 1000)
  {
    var b := CeilDiv(resetTime - bodyNow, 1000);
    var h := CeilDiv(resetTime - headerNow, 1000);
    if bodyNow <= headerNow {
      assert (h - 1) * 1000 < b * 1000;
      if headerNow <= bodyNow + 1000 {
        assert (b - 2) * 1000 < h * 1000;
      }
    }
  }

  /** The refusal's five headers, with their values already written out. */
  function HeaderMap(limit: string, remaining: string, reset: string, retry: string): (h: map<string, string>)
    ensures h.Keys == {"Content-Type", "X-RateLimit-Limit", "X-RateLimit-Remaining", "X-RateLimit-Reset", "Retry-After"}
    ensures "Content-Type" in h && h["Content-Type"] == "application/json"
    ensures "X-RateLimit-Limit" in h && h["X-RateLimit-Limit"] == limit
    ensures "X-RateLimit-Remaining" in h && h["X-RateLimit-Remaining"] == remaining
    ensures "X-RateLimit-Reset" in h && h["X-RateLimit-Reset"] == reset
    ensures "Retry-After" in h && h["Retry-After"] == retry
  {
    map[
      "Content-Type" := "application/json",
      "X-RateLimit-Limit" := limit,
      "X-RateLimit-Remaining" := remaining,
      "X-RateLimit-Reset" := reset,
      "Retry-After" := retry]
  }

  /** The numeric headers as `String(n)`; each parses back to its number. */
  function LimitHeaders(limit: int, remaining: int, reset: int, retry: int): (h: map<string, string>)
    ensures h.Keys == {"Content-Type", "X-RateLimit-Limit", "X-RateLimit-Remaining", "X-RateLimit-Reset", "Retry-After"}
    ensures "Content-Type" in h && h["Content-Type"] == "application/json"
    ensures "X-RateLimit-Limit" in h && ParseInt(h["X-RateLimit-Limit"]) == Some(limit)
    ensures "X-RateLimit-Remaining" in h && ParseInt(h["X-RateLimit-Remaining"]) == Some(remaining)
    ensures "X-RateLimit-Reset" in h && ParseInt(h["X-RateLimit-Reset"]) == Some(reset)
    ensures "Retry-After" in h && ParseInt(h["Retry-After"]) == Some(retry)
  {
    ParseIntOfIntToString(limit);
    ParseIntOfIntToString(remaining);
    ParseIntOfIntToString(reset);
    ParseIntOfIntToString(retry);
    HeaderMap(IntToString(limit), IntToString(remaining), IntToString(reset), IntToString(retry))
  }

  /**
   * The middleware's answer to a refusal: a 429 naming the limit and the
   * remaining count. The clock is read twice after the decision: `bodyNow`
   * for the body's `retryAfter`, then `headerNow` for the Retry-After
   * header, so the two can differ by a second.
   */
  function LimitResponse(d: Decision, config: Config, bodyNow: int, headerNow: int): (r: Option<Response>)
    ensures r.None? <==> d.allowed
    ensures r.Some? ==> r.value.status == 429
    ensures r.Some? ==> "X-RateLimit-Limit" in r.value.headers && "X-RateLimit-Remaining" in r.value.headers
    ensures r.Some? ==> ParseInt(r.value.headers["X-RateLimit-Limit"]) == Some(config.maxRequests)
    ensures r.Some? ==> ParseInt(r.value.headers["X-RateLimit-Remaining"]) == Some(d.remaining)
    ensures r.Some? ==> "X-RateLimit-Reset" in r.value.headers && "Retry-After" in r.value.headers
    ensures r.Some? ==>
      var reset := ParseInt(r.value.headers["X-RateLimit-Reset"]);
      reset.Some? && (reset.value - 1) * 1000 < d.resetTime <= reset.value * 1000
    ensures r.Some? ==> r.value.body.retryAfter == CeilDiv(d.resetTime - bodyNow, 1000)
    ensures r.Some? ==> ParseInt(r.value.headers["Retry-After"]) == Some(CeilDiv(d.resetTime - headerNow, 1000))
    ensures r.Some? && bodyNow <= headerNow ==>
      CeilDiv(d.resetTime - headerNow, 1000) <= r.value.body.retryAfter
      && (headerNow <= bodyNow + 1000 ==> r.value.body.retryAfter - 1 <= CeilDiv(d.resetTime - headerNow, 1000))
    ensures r.Some? ==>
      && r.value.body.error == "Too many requests"
      && r.value.body.message == "Rate limit exceeded. Please try again later."
      && r.value.headers.Keys == {"Content-Type", "X-RateLimit-Limit", "X-RateLimit-Remaining", "X-RateLimit-Reset", "Retry-After"}
      && r.value.headers["Content-Type"] == "application/json"
  {
    if d.allowed then None
    else
      var retry := CeilDiv(d.resetTime - bodyNow, 1000);
      var header := CeilDiv(d.resetTime - headerNow, 1000);
      CeilDivLater(d.resetTime, bodyNow, headerNow);
      Some(Response(429,
        LimitHeaders(config.maxRequests, d.remaining, CeilDiv(d.resetTime, 1000), header),
        LimitBody("Too many requests", "Rate limit exceeded. Please try again later.", retry)))
  }

  /** The in-memory store shared by every request. */
  class RateLimiter {
    var store: map<string, Record>

    constructor ()
      ensures store == map[]
    {
      store := map[];
    }

    /** Counts never exceed the limit (holds while one limit is used). */
    predicate Within(maxRequests: int)
      reads this
    {
      forall k :: k in store ==> 0 <= store[k].count <= maxRequests
    }

    /** The cleanup loop: deletes exactly the records whose window has ended. */
    method CleanupExpired(now: int)
      modifies this
      ensures store == Unexpired(old(store), now)
    {
      var keys := store.Keys;
      ghost var done: set<string> := {};
      while keys != {}
        invariant keys !! done && keys + done == old(store).Keys
        invariant forall k :: k in store <==> k in keys || (k in done && old(store)[k].resetTime >= now)
        invariant forall k :: k in store ==> store[k] == old(store)[k]
        decreases keys
      {
        var k :| k in keys;
        if store[k].resetTime < now {
          store := store - {k};
        }
        keys := keys - {k};
        done := done + {k};
      }
    }

    /**
     * `checkRateLimit(request, config)` at time `now`: only the requested
     * key's record may change, besides the cleanup of a store over 10000
     * entries. A key the store does not own but inherits is allowed and
     * leaves the store's own entries alone.
     */
    method CheckRateLimit(h: Headers, config: Config, now: int) returns (c: CheckResult)
      modifies this
      ensures var kept := BeforeLookup(old(store), now);
              var key := Key(config, h);
              if key !in kept && IsInheritedKey(key) then
                c == InheritedAllowed && store == kept
              else
                c == Checked(Decide(Lookup(kept, key), config, now).0)
                && store == kept[key := Decide(Lookup(kept, key), config, now).1]
      ensures config.maxRequests >= 1 && old(Within(config.maxRequests)) ==> Within(config.maxRequests)
    {
      var key := Key(config, h);
      if |store| > 10000 {
        CleanupExpired(now);
      }
      if key !in store && IsInheritedKey(key) {
        return InheritedAllowed;
      }
      var record := Lookup(store, key);
      var (decision, rec) := Decide(record, config, now);
      store := store[key := rec];
      c := Checked(decision);
    }

    /**
     * The middleware built by `createRateLimit(config)`, applied to one
     * request: `now` is the clock reading of the check, `bodyNow` and
     * `headerNow` the two readings of the refusal.
     */
    method Middleware(h: Headers, config: Config, now: int, bodyNow: int, headerNow: int) returns (r: Option<Response>)
      modifies this
      ensures var kept := BeforeLookup(old(store), now);
              var key := Key(config, h);
              var dec := Decide(Lookup(kept, key), config, now);
              if key !in kept && IsInheritedKey(key) then
                r.None? && store == kept
              else
                r == LimitResponse(dec.0, config, bodyNow, headerNow) && store == kept[key := dec.1]
    {
      var c := CheckRateLimit(h, config, now);
      if c.Allowed() {
        return None;
      }
      r := LimitResponse(c.decision, config, bodyNow, headerNow);
    }
  }
}
