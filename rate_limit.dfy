/** The in-memory fixed-window rate limiter of `src/lib/rate-limit.ts`:
    a map from client key to a request count and a window end, five
    requests per fifteen-minute window, and a periodic sweep that deletes
    expired entries. The clock is a parameter of every operation. */
module RateLimit {
  import opened Common

  const RATE_LIMIT_WINDOW: int := 15 * 60 * 1000
  const MAX_REQUESTS: int := 5
  const TOO_MANY_STATUS: int := 429
  const TOO_MANY_MESSAGE: string := "Terlalu banyak percobaan. Silakan coba lagi dalam 15 menit."

  datatype Entry = Entry(count: int, resetTime: Time)

  /** What `rateLimit` returns: `null` (let the request through) or a 429
      response carrying a Retry-After header in seconds. */
  datatype Decision = Allowed | Denied(status: int, message: string, retryAfter: int)

  /** The parts of the incoming request the limiter reads. */
  datatype ClientRequest = ClientRequest(ip: Option<string>, forwardedFor: Option<string>)

  /** `rate_limit_` followed by the first truthy of the address, the
      forwarded-for header and `unknown`. */
  function ClientKey(request: ClientRequest): (key: string)
    ensures Truthy(request.ip) ==> key == "rate_limit_" + request.ip.value
    ensures !Truthy(request.ip) && Truthy(request.forwardedFor) ==> key == "rate_limit_" + request.forwardedFor.value
    ensures !Truthy(request.ip) && !Truthy(request.forwardedFor) ==> key == "rate_limit_unknown"
  {
    "rate_limit_" + Or(request.ip, Or(request.forwardedFor, "unknown"))
  }

  /** `Math.ceil(d / 1000)` on integers. */
  function CeilSeconds(d: int): (r: int)
    ensures (r - 1) * 1000 < d <= r * 1000
  {
    -((-d) / 1000)
  }

  /** Every stored entry has a count between one and the quota. */
  ghost predicate CountsBounded(m: map<string, Entry>) {
    forall k :: k in m ==> 1 <= m[k].count <= MAX_REQUESTS
  }

  /** No window ends later than one window from `now`; a clock that never
      runs backwards keeps this true. */
  ghost predicate WindowsWithin(m: map<string, Entry>, now: Time) {
    forall k :: k in m ==> m[k].resetTime <= now + RATE_LIMIT_WINDOW
  }

  /** One call of `rateLimit` for `key` at time `now`: the decision and the new map. */
  function Step(m: map<string, Entry>, key: string, now: Time): (r: (Decision, map<string, Entry>))
    ensures r.1.Keys == m.Keys + {key}
    ensures forall k :: k in m && k != key ==> r.1[k] == m[k]
    ensures r.0.Allowed? <==> key !in m || now > m[key].resetTime || m[key].count < MAX_REQUESTS
    ensures r.0.Denied? ==> r.1 == m && r.0.status == TOO_MANY_STATUS && r.0.message == TOO_MANY_MESSAGE
    ensures r.0.Denied? ==> 0 <= r.0.retryAfter && r.0.retryAfter == CeilSeconds(m[key].resetTime - now)
    ensures r.0.Allowed? && key in m && now <= m[key].resetTime ==> r.1[key] == m[key].(count := m[key].count + 1)
    ensures r.0.Allowed? && (key !in m || now > m[key].resetTime) ==> r.1[key] == Entry(1, now + RATE_LIMIT_WINDOW)
  {
    if key !in m then
      (Allowed, m[key := Entry(1, now + RATE_LIMIT_WINDOW)])
    else
      var entry := m[key];
      if now > entry.resetTime then
        (Allowed, m[key := Entry(1, now + RATE_LIMIT_WINDOW)])
      else if entry.count >= MAX_REQUESTS then
        (Denied(TOO_MANY_STATUS, TOO_MANY_MESSAGE, CeilSeconds(entry.resetTime - now)), m)
      else
        (Allowed, m[key := entry.(count := entry.count + 1)])
  }

  /** A step never breaks the counter bound. */
  lemma StepKeepsCountsBounded(m: map<string, Entry>, key: string, now: Time)
    requires CountsBounded(m)
    ensures CountsBounded(Step(m, key, now).1)
  {
  }

  /** With a clock that does not run backwards, a denial asks the client to
      wait at most 900 seconds, the length of a window. */
  lemma RetryAfterAtMostWindow(m: map<string, Entry>, key: string, now: Time)
    requires WindowsWithin(m, now)
    ensures Step(m, key, now).0.Denied? ==> Step(m, key, now).0.retryAfter <= RATE_LIMIT_WINDOW / 1000
    ensures WindowsWithin(Step(m, key, now).1, now)
  {
  }

  lemma WindowsWithinLater(m: map<string, Entry>, now: Time, later: Time)
    requires WindowsWithin(m, now) && now <= later
    ensures WindowsWithin(m, later)
  {
  }

  /** The decisions of a run of requests for one key at the given times. */
  function Replay(m: map<string, Entry>, key: string, times: seq<Time>): (r: seq<Decision>)
    ensures |r| == |times|
    decreases |times|
  {
    if times == [] then []
    else
      var (d, m') := Step(m, key, times[0]);
      [d] + Replay(m', key, times[1..])
  }

  /** Inside a live window whose entry has count `c`, the i-th further
      request is allowed exactly while `c + i` is below the quota. */
  lemma {:induction false} ReplayInsideWindow(m: map<string, Entry>, key: string, times: seq<Time>, i: nat)
    requires key in m && 1 <= m[key].count <= MAX_REQUESTS
    requires forall j :: 0 <= j < |times| ==> times[j] <= m[key].resetTime
    requires i < |times|
    ensures Replay(m, key, times)[i].Allowed? <==> m[key].count + i < MAX_REQUESTS
    decreases |times|
  {
    var (d, m') := Step(m, key, times[0]);
    assert Replay(m, key, times) == [d] + Replay(m', key, times[1..]);
    if i > 0 {
      if m[key].count < MAX_REQUESTS {
        assert m'[key] == m[key].(count := m[key].count + 1);
      } else {
        assert m' == m;
      }
      ReplayInsideWindow(m', key, times[1..], i - 1);
    }
  }

  /** From a key with no entry, when every request falls inside the window
      the first one opens, requests one to five are allowed and every later
      one is denied. */
  lemma {:induction false} FreshKeyBurst(m: map<string, Entry>, key: string, times: seq<Time>, i: nat)
    requires key !in m
    requires |times| > 0
    requires forall j :: 0 <= j < |times| ==> times[j] <= times[0] + RATE_LIMIT_WINDOW
    requires i < |times|
    ensures Replay(m, key, times)[i].Allowed? <==> i < MAX_REQUESTS
  {
    var m' := Step(m, key, times[0]).1;
    assert Replay(m, key, times) == [Allowed] + Replay(m', key, times[1..]);
    if i > 0 {
      assert m'[key] == Entry(1, times[0] + RATE_LIMIT_WINDOW);
      ReplayInsideWindow(m', key, times[1..], i - 1);
    }
  }

  /** The sweep keeps exactly the entries whose window has not ended. */
  function Swept(m: map<string, Entry>, now: Time): (r: map<string, Entry>)
    ensures forall k :: k in r <==> k in m && now <= m[k].resetTime
    ensures forall k :: k in r ==> r[k] == m[k]
  {
    map k | k in m && now <= m[k].resetTime :: m[k]
  }

  /** A request at `now` decides the same way whether or not the sweep ran
      at `now` first, and leaves the same map up to that sweep: an expired
      entry behaves as an absent one. */
  lemma SweepUnobservable(m: map<string, Entry>, key: string, now: Time)
    ensures Step(Swept(m, now), key, now).0 == Step(m, key, now).0
    ensures Step(Swept(m, now), key, now).1 == Swept(Step(m, key, now).1, now)
  {
    var lhs := Step(Swept(m, now), key, now).1;
    var rhs := Swept(Step(m, key, now).1, now);
    assert lhs.Keys == rhs.Keys;
  }

  /** The shared map of the module, owned by one object. */
  class RateLimiter {
    var entries: map<string, Entry>

    ghost predicate Valid()
      reads this
    {
      CountsBounded(entries)
    }

    constructor ()
      ensures Valid() && entries == map[]
    {
      entries := map[];
    }

    /** `rateLimit(request)` at time `now`. */
    method Check(request: ClientRequest, now: Time) returns (d: Decision)
      requires Valid()
      modifies this
      ensures Valid()
      ensures (d, entries) == Step(old(entries), ClientKey(request), now)
    {
      var key := ClientKey(request);
      if key !in entries {
        entries := entries[key := Entry(1, now + RATE_LIMIT_WINDOW)];
        return Allowed;
      }
      var entry := entries[key];
      if now > entry.resetTime {
        entries := entries[key := Entry(1, now + RATE_LIMIT_WINDOW)];
        return Allowed;
      }
      if entry.count >= MAX_REQUESTS {
        return Denied(TOO_MANY_STATUS, TOO_MANY_MESSAGE, CeilSeconds(entry.resetTime - now));
      }
      entry := entry.(count := entry.count + 1);
      entries := entries[key := entry];
      d := Allowed;
    }

    /** The body of the periodic timer: delete every entry whose window
        ended before `now`, visiting the keys one at a time. */
    method Sweep(now: Time)
      requires Valid()
      modifies this
      ensures Valid()
      ensures entries == Swept(old(entries), now)
    {
      ghost var start := entries;
      var pending := entries.Keys;
      while pending != {}
        invariant pending <= start.Keys
        invariant entries.Keys == set k | k in start && (k in pending || now <= start[k].resetTime)
        invariant forall k :: k in entries ==> entries[k] == start[k]
        decreases pending
      {
        var k :| k in pending;
        if now > entries[k].resetTime {
          entries := entries - {k};
        }
        pending := pending - {k};
      }
      assert entries == Swept(start, now);
    }
  }
}
