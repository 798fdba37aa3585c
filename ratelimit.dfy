/** The fixed-window, per-client rate limiter both serverless endpoints keep in memory
    (`checkAuthRateLimit` in `api/admin-auth.ts`, `checkRateLimit` and
    `cleanupRateLimitStore` in `api/chat.ts`). A client's first request opens a window of
    `window` milliseconds; within it at most `max` requests are allowed; a request after
    the window's reset time opens a new one. Times are milliseconds since the epoch. */
module RateLimit {
  import opened Wrappers

  /** One client's record: requests counted in the current window, and when it ends. */
  datatype Entry = Entry(count: nat, resetTime: int)

  /** What the check answers: whether the request may proceed, how many more requests the
      window allows, and when the window ends. */
  datatype Decision = Decision(allowed: bool, remaining: int, resetTime: int)

  /** `Math.ceil(x / d)` for an integer `x` and a positive divisor. */
  function CeilDiv(x: int, d: nat): (q: int)
    requires d > 0
    ensures d * (q - 1) < x <= d * q
  {
    -((-x) / d)
  }

  /** A record still governs requests at `now` until its reset time has passed. */
  predicate Active(e: Entry, now: int) {
    now <= e.resetTime
  }

  /** One check for a client whose record was `prior`: the decision, and the record
      afterwards. A missing or expired record is replaced by a fresh window counting this
      request; a full window refuses without counting; otherwise the request is counted. */
  function WindowCheck(prior: Option<Entry>, now: int, max: nat, window: nat): (r: (Decision, Entry))
    requires max >= 1
    ensures var (d, e) := r;
            && (d.allowed <==> prior.None? || !Active(prior.value, now) || prior.value.count < max)
            && (prior.None? || !Active(prior.value, now) ==> e == Entry(1, now + window))
            && (!d.allowed ==> e == prior.value && d.remaining == 0)
            && (prior.Some? && Active(prior.value, now) && prior.value.count < max ==>
                  e == prior.value.(count := prior.value.count + 1))
            && (d.allowed ==> d.remaining == max - e.count)
            && d.resetTime == e.resetTime
  {
    if prior.None? || now > prior.value.resetTime then
      var resetTime := now + window;
      (Decision(true, max - 1, resetTime), Entry(1, resetTime))
    else if prior.value.count >= max then
      (Decision(false, 0, prior.value.resetTime), prior.value)
    else
      var e := prior.value.(count := prior.value.count + 1);
      (Decision(true, max - e.count, e.resetTime), e)
  }

  /** A record never counts more than `max` requests, and the remaining figure it reports
      lies between 0 and `max - 1`. */
  lemma CountStaysBounded(prior: Option<Entry>, now: int, max: nat, window: nat)
    requires max >= 1
    requires prior.Some? ==> prior.value.count <= max
    ensures var (d, e) := WindowCheck(prior, now, max, window);
            1 <= e.count <= max && 0 <= d.remaining < max
  {
  }

  /** Runs the check for one client at each of the times `nows`; answers how many of
      those requests were allowed. */
  function AllowedCount(prior: Option<Entry>, nows: seq<int>, max: nat, window: nat): nat
    requires max >= 1
    decreases |nows|
  {
    if nows == [] then 0
    else
      var (d, e) := WindowCheck(prior, nows[0], max, window);
      (if d.allowed then 1 else 0) + AllowedCount(Some(e), nows[1..], max, window)
  }

  /** Within a window still active, at most `max - count` further requests get through,
      however many are made. */
  lemma {:induction false} ActiveWindowBound(e: Entry, nows: seq<int>, max: nat, window: nat)
    requires max >= 1 && e.count <= max
    requires forall i :: 0 <= i < |nows| ==> nows[i] <= e.resetTime
    ensures AllowedCount(Some(e), nows, max, window) <= max - e.count
    decreases |nows|
  {
    if nows != [] {
      var (d, e') := WindowCheck(Some(e), nows[0], max, window);
      assert e'.resetTime == e.resetTime;
      ActiveWindowBound(e', nows[1..], max, window);
    }
  }

  /** The limit the endpoints promise: of the requests one client makes from the moment
      it opens a window up to that window's end, at most `max` are allowed. */
  lemma AtMostMaxPerWindow(now0: int, nows: seq<int>, max: nat, window: nat)
    requires max >= 1
    requires forall i :: 0 <= i < |nows| ==> nows[i] <= now0 + window
    ensures AllowedCount(None, [now0] + nows, max, window) <= max
  {
    var s := [now0] + nows;
    assert s[1..] == nows;
    ActiveWindowBound(Entry(1, now0 + window), nows, max, window);
  }

  /** The records left after `cleanupRateLimitStore` at `now`: the expired ones are gone. */
  function Sweep(m: map<string, Entry>, now: int): (r: map<string, Entry>)
    ensures forall ip :: ip in r <==> ip in m && Active(m[ip], now)
    ensures forall ip :: ip in r ==> r[ip] == m[ip]
  {
    map ip | ip in m && Active(m[ip], now) :: m[ip]
  }

  /** Sweeping before a check changes no decision and no resulting record: an expired
      record and a missing one are treated alike. */
  lemma SweepPreservesDecision(m: map<string, Entry>, ip: string, now: int, max: nat, window: nat)
    requires max >= 1
    ensures var before := if ip in m then Some(m[ip]) else None;
            var swept := Sweep(m, now);
            var after := if ip in swept then Some(swept[ip]) else None;
            WindowCheck(before, now, max, window) == WindowCheck(after, now, max, window)
  {
  }

  /** The in-memory store of one endpoint: a map from client address to record, updated
      in place, with the endpoint's limit and window length. */
  class RateLimiter {
    var entries: map<string, Entry>
    const max: nat
    const window: nat

    constructor (max: nat, window: nat)
      requires max >= 1
      ensures this.max == max && this.window == window && entries == map[]
    {
      this.max := max;
      this.window := window;
      entries := map[];
    }

    /** The record for `ip`, if any. */
    function Lookup(ip: string): Option<Entry>
      reads this
    {
      if ip in entries then Some(entries[ip]) else None
    }

    /** The check for `ip` at `now`; only that client's record can change, and it becomes
        the record `WindowCheck` describes. */
    method Check(ip: string, now: int) returns (d: Decision)
      requires max >= 1
      modifies this
      ensures ip in entries && entries == old(entries)[ip := entries[ip]]
      ensures (d, entries[ip]) == WindowCheck(old(Lookup(ip)), now, max, window)
    {
      var record := Lookup(ip);
      if record.None? || now > record.value.resetTime {
        var resetTime := now + window;
        entries := entries[ip := Entry(1, resetTime)];
        return Decision(true, max - 1, resetTime);
      }
      if record.value.count >= max {
        assert entries == entries[ip := entries[ip]];
        return Decision(false, 0, record.value.resetTime);
      }
      var count := record.value.count + 1;
      entries := entries[ip := record.value.(count := count)];
      return Decision(true, max - count, record.value.resetTime);
    }

    /** `cleanupRateLimitStore`: walks the records and deletes each whose reset time has
        passed. */
    method Cleanup(now: int)
      modifies this
      ensures entries == Sweep(old(entries), now)
    {
      var keys := entries.Keys;
      while keys != {}
        invariant keys <= old(entries).Keys
        invariant forall ip :: ip in entries <==>
                    ip in old(entries) && (ip in keys || Active(old(entries)[ip], now))
        invariant forall ip :: ip in entries ==> entries[ip] == old(entries)[ip]
        decreases keys
      {
        var ip :| ip in keys;
        if now > entries[ip].resetTime {
          entries := entries - {ip};
        }
        keys := keys - {ip};
      }
    }
  }
}
