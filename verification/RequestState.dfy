/**
 * The data that one credential and host share: the throttle deadline with its
 * exponential backoff, and the bounded cache of responses. All of it is protected by
 * the request gate (see RequestGate), so the methods here run one at a time.
 */
module RequestState {
  import opened Prelude

  /** A point in time or a duration, in nanoseconds. */
  type Time = int

  const SECOND: Time := 1_000_000_000
  const MINUTE: Time := 60 * SECOND
  const HOUR: Time := 60 * MINUTE
  /** Go's zero time, the first instant of year 1, on the Unix scale. */
  const ZERO_TIME: Time := -62_135_596_800 * SECOND
  const MAX_BACKOFF: Time := 15 * MINUTE
  const PACKAGE_CACHE_TTL: Time := 2 * MINUTE
  const MAX_CACHED_RESPONSES: nat := 256
  const MAX_CACHED_BYTES: nat := 0x10_0000

  /**
   * Cache keys are SHA-256 digests of a scope followed by either a request URL or the
   * JSON list naming a listing. The digest is taken to be injective, so a key is
   * modelled by what was hashed; a JSON list opens with a bracket and is never a URL.
   */
  datatype CacheKey =
    | PageKey(scope: string, url: string)
    | ListingKey(scope: string, baseUrl: string, parts: seq<string>)

  datatype CachedResponse = CachedResponse(status: int, body: string, expires: Time)

  type Responses = map<CacheKey, CachedResponse>

  /** A Retry-After header: section 10.2.3 of RFC 9110 allows seconds or a date. */
  datatype RetryAfter = Absent | Seconds(seconds: int) | Date(date: Time) | Unreadable

  /** The parts of an HTTP response that throttling looks at. */
  datatype Response = Response(status: int, remainingIsZero: bool, reset: Option<int>, retryAfter: RetryAfter)

  datatype Throttle = Throttle(until: Time, backoff: Time)

  const UNTHROTTLED := Throttle(ZERO_TIME, 0)

  // Throttling.

  predicate IsThrottled(r: Response, bodyMentionsLimit: bool) {
    || r.status == 429
    || (r.status == 403 && (r.retryAfter != Absent || r.remainingIsZero || bodyMentionsLimit))
  }

  function NextBackoff(backoff: Time): Time {
    if backoff == 0 then MINUTE else Min(backoff * 2, MAX_BACKOFF)
  }

  function ResetDeadline(r: Response): Time {
    if r.remainingIsZero && r.reset.Some? then r.reset.value * SECOND + SECOND else ZERO_TIME
  }

  /** When a throttled response allows another request, never at or before `now`. */
  function RetryDeadline(r: Response, backoff: Time, now: Time): Time {
    var wanted :=
      match r.retryAfter
      case Seconds(n) => if n >= 0 then now + n * SECOND else now + backoff
      case Date(date) => date
      case _ => now + backoff;
    if wanted > now then wanted else now + SECOND
  }

  function Observed(t: Throttle, r: Response, bodyMentionsLimit: bool, now: Time): Throttle {
    if IsThrottled(r, bodyMentionsLimit) then
      var backoff := NextBackoff(t.backoff);
      Throttle(Max(t.until, Max(ResetDeadline(r), RetryDeadline(r, backoff, now))), backoff)
    else
      Throttle(Max(t.until, ResetDeadline(r)), if 200 <= r.status < 300 then 0 else t.backoff)
  }

  /** One exchange: the headers are observed first, then, unless they throttle, the body too. */
  function Exchanged(t: Throttle, r: Response, bodyMentionsLimit: bool, now: Time): Throttle {
    var afterHeaders := Observed(t, r, false, now);
    if IsThrottled(r, false) then afterHeaders else Observed(afterHeaders, r, bodyMentionsLimit, now)
  }

  /** One response as far as throttling has seen it: its body may not have been read. */
  datatype Seen = Seen(response: Response, bodyMentionsLimit: bool, at: Time)

  /** The throttle of a fresh state after it has observed a series of responses. */
  function Replay(seen: seq<Seen>): Throttle {
    if seen == [] then UNTHROTTLED
    else
      var last := seen[|seen| - 1];
      Observed(Replay(seen[..|seen| - 1]), last.response, last.bodyMentionsLimit, last.at)
  }

  /** Observing the headers and then the body is the same as observing the whole response once. */
  lemma {:induction false} ExchangeObservesOnce(t: Throttle, r: Response, bodyMentionsLimit: bool, now: Time)
    ensures Exchanged(t, r, bodyMentionsLimit, now) == Observed(t, r, bodyMentionsLimit, now)
  {
  }

  function Pow2(n: nat): (r: nat)
    ensures r >= 1
  {
    if n == 0 then 1 else 2 * Pow2(n - 1)
  }

  /** How many responses throttled since the last successful one. */
  function ThrottledRun(seen: seq<Seen>): nat {
    if seen == [] then 0
    else
      var last, earlier := seen[|seen| - 1], ThrottledRun(seen[..|seen| - 1]);
      if IsThrottled(last.response, last.bodyMentionsLimit) then earlier + 1
      else if 200 <= last.response.status < 300 then 0
      else earlier
  }

  /** The wait after the k-th throttled response in a row: 1, 2, 4, 8, then 15 minutes. */
  function BackoffAfter(k: nat): Time {
    if k == 0 then 0 else Min(Pow2(k - 1), 15) * MINUTE
  }

  lemma {:induction false} BackoffCounts(seen: seq<Seen>)
    ensures Replay(seen).backoff == BackoffAfter(ThrottledRun(seen))
  {
    if seen != [] {
      BackoffCounts(seen[..|seen| - 1]);
      var k := ThrottledRun(seen[..|seen| - 1]);
      if k > 0 {
        assert Pow2(k) == 2 * Pow2(k - 1);
      }
    }
  }

  /**
   * A throttled response always moves the deadline into the future, and without a usable
   * Retry-After header the k-th one since the last success waits min(2^(k-1), 15) minutes.
   */
  lemma {:induction false} ThrottledWaits(seen: seq<Seen>)
    requires seen != []
    requires IsThrottled(seen[|seen| - 1].response, seen[|seen| - 1].bodyMentionsLimit)
    ensures Replay(seen).until > seen[|seen| - 1].at
    ensures var r := seen[|seen| - 1].response;
      r.retryAfter.Absent? || r.retryAfter.Unreadable? || (r.retryAfter.Seconds? && r.retryAfter.seconds < 0) ==>
        Replay(seen).until >= seen[|seen| - 1].at + Min(Pow2(ThrottledRun(seen) - 1), 15) * MINUTE
  {
    BackoffCounts(seen);
  }

  // What a deadline means, by the fields of the responses.

  /** The response tells the client to slow down: 429, or 403 with a sign of a rate limit. */
  predicate SaysSlowDown(x: Seen) {
    || x.response.status == 429
    || (x.response.status == 403 && x.response.retryAfter != Absent)
    || (x.response.status == 403 && x.response.remainingIsZero)
    || (x.response.status == 403 && x.bodyMentionsLimit)
  }

  /** The k-th response asks that no request is made before `at`. */
  ghost predicate AsksFor(seen: seq<Seen>, k: nat, at: Time)
    requires k < |seen|
  {
    var x, r := seen[k], seen[k].response;
    || (r.remainingIsZero && r.reset.Some? && at == (r.reset.value + 1) * SECOND)
    || (SaysSlowDown(x) && at == SlowDownEnd(x, ThrottledRun(seen[..k + 1])))
  }

  /**
   * When the run-th throttled response in a row ends: after its seconds, at its date, or after
   * 1, 2, 4, 8, then 15 minutes; in a second if it names no time ahead.
   */
  function SlowDownEnd(x: Seen, run: nat): Time {
    match x.response.retryAfter
    case Seconds(n) => if n > 0 then x.at + n * SECOND else if n == 0 then x.at + SECOND else x.at + BackoffAfter(run)
    case Date(date) => if date > x.at then date else x.at + SECOND
    case _ => x.at + BackoffAfter(run)
  }

  /** Exactly the responses that say so throttle. */
  lemma {:induction false} ThrottledExactlyWhenSaid(x: Seen)
    ensures IsThrottled(x.response, x.bodyMentionsLimit) <==> SaysSlowDown(x)
  {
  }

  /**
   * What one response, observed at `now`, does to the deadline, by its fields: no time that it asks for is cut
   * short, and nothing waits for a time that it does not ask for.
   */
  ghost predicate KeepsTo(t: Throttle, r: Response, bodyMentionsLimit: bool, now: Time, t': Throttle) {
    var throttled := SaysSlowDown(Seen(r, bodyMentionsLimit, now));
    && t'.until >= t.until
    && (r.remainingIsZero && r.reset.Some? ==> t'.until >= (r.reset.value + 1) * SECOND)
    && (throttled ==>
         && t'.until > now
         && (r.retryAfter.Seconds? && r.retryAfter.seconds > 0 ==> t'.until >= now + r.retryAfter.seconds * SECOND)
         && (r.retryAfter.Date? ==> t'.until >= r.retryAfter.date))
    && (|| t'.until == t.until || t'.until == ZERO_TIME
        || (r.remainingIsZero && r.reset.Some? && t'.until == (r.reset.value + 1) * SECOND)
        || (throttled && r.retryAfter.Seconds? && r.retryAfter.seconds > 0 && t'.until == now + r.retryAfter.seconds * SECOND)
        || (throttled && r.retryAfter.Date? && t'.until == r.retryAfter.date)
        || (throttled && (t'.until == now + SECOND || t'.until == now + t'.backoff)))
  }

  lemma {:induction false} ObservedKeepsTo(t: Throttle, r: Response, bodyMentionsLimit: bool, now: Time)
    ensures KeepsTo(t, r, bodyMentionsLimit, now, Observed(t, r, bodyMentionsLimit, now))
  {
  }

  lemma {:induction false} NeverBeforeZero(seen: seq<Seen>)
    ensures Replay(seen).until >= ZERO_TIME
  {
    if seen != [] {
      NeverBeforeZero(seen[..|seen| - 1]);
    }
  }

  lemma {:induction false} OneMoreSeen(seen: seq<Seen>)
    requires seen != []
    ensures var n, before := |seen| - 1, Replay(seen[..|seen| - 1]).until;
      && Replay(seen).until >= before
      && (forall at | AsksFor(seen, n, at) :: at <= Replay(seen).until)
      && (Replay(seen).until == before || AsksFor(seen, n, Replay(seen).until))
  {
    var n := |seen| - 1;
    assert seen[..n + 1] == seen;
    NeverBeforeZero(seen[..n]);
    BackoffCounts(seen);
    if ThrottledRun(seen) > 0 {
      assert BackoffAfter(ThrottledRun(seen)) >= MINUTE;
    }
    hide ThrottledRun, BackoffAfter;
  }

  lemma {:induction false} SameAsk(seen: seq<Seen>, n: nat, k: nat, at: Time)
    requires k < n <= |seen|
    ensures AsksFor(seen[..n], k, at) <==> AsksFor(seen, k, at)
  {
    hide SlowDownEnd, ThrottledRun;
    assert seen[..n][..k + 1] == seen[..k + 1];
  }

  /**
   * The deadline is the latest time that any observed response asks for: none is cut short, and nobody waits
   * for longer than asked.
   */
  lemma {:induction false} DeadlineIsLatestAsked(seen: seq<Seen>)
    ensures forall k, at | 0 <= k < |seen| && AsksFor(seen, k, at) :: at <= Replay(seen).until
    ensures Replay(seen).until == ZERO_TIME || exists k :: 0 <= k < |seen| && AsksFor(seen, k, Replay(seen).until)
  {
    if seen != [] {
      var n := |seen| - 1;
      OneMoreSeen(seen);
      DeadlineIsLatestAsked(seen[..n]);
      hide AsksFor, Replay;
      forall k, at | 0 <= k < |seen| && AsksFor(seen, k, at) ensures at <= Replay(seen).until {
        if k < n {
          SameAsk(seen, n, k, at);
        }
      }
      var before := Replay(seen[..n]).until;
      if Replay(seen).until == before && before != ZERO_TIME {
        var k: nat :| k < n && AsksFor(seen[..n], k, before);
        SameAsk(seen, n, k, before);
      } else if Replay(seen).until != ZERO_TIME {
        assert AsksFor(seen, n, Replay(seen).until);
      }
    }
  }

  // The response cache.

  function Unexpired(m: Responses, now: Time): Responses {
    map k | k in m && now < m[k].expires :: m[k]
  }

  ghost function TotalBytes(m: Responses): nat {
    if m == map[] then 0
    else
      var k :| k in m;
      |m[k].body| + TotalBytes(m - {k})
  }

  lemma {:induction false} TotalBytesSplit(m: Responses, k: CacheKey)
    requires k in m
    ensures TotalBytes(m) == |m[k].body| + TotalBytes(m - {k})
    decreases |m|
  {
    var c :| c in m && TotalBytes(m) == |m[c].body| + TotalBytes(m - {c});
    if c != k {
      TotalBytesSplit(m - {c}, k);
      TotalBytesSplit(m - {k}, c);
      assert m - {c} - {k} == m - {k} - {c};
    }
  }

  lemma {:induction false} TotalBytesPut(m: Responses, k: CacheKey, value: CachedResponse)
    requires k !in m
    ensures TotalBytes(m[k := value]) == TotalBytes(m) + |value.body|
    ensures |m[k := value]| == |m| + 1
  {
    TotalBytesSplit(m[k := value], k);
    assert m[k := value] - {k} == m;
  }

  lemma {:induction false} TotalBytesDrop(m: Responses, k: CacheKey)
    ensures TotalBytes(m - {k}) + (if k in m then |m[k].body| else 0) == TotalBytes(m)
    ensures |m - {k}| <= |m| && (k !in m ==> m - {k} == m)
  {
    assert (m - {k}).Keys == m.Keys - {k};
    if k in m {
      TotalBytesSplit(m, k);
    } else {
      assert m - {k} == m;
    }
  }

  lemma {:induction false} TotalBytesEmpty()
    ensures TotalBytes(map[]) == 0
  {
  }

  ghost predicate Bounded(m: Responses) {
    TotalBytes(m) <= MAX_CACHED_BYTES && |m| <= MAX_CACHED_RESPONSES
  }

  /** Store forgets every entry rather than exceed a bound, and ignores an oversized body. */
  ghost function Stored(m: Responses, key: CacheKey, value: CachedResponse): Responses {
    if |value.body| > MAX_CACHED_BYTES then m
    else
      WithRoom(m - {key}, value)[key := value]
  }

  ghost function WithRoom(others: Responses, value: CachedResponse): Responses {
    if |others| >= MAX_CACHED_RESPONSES || TotalBytes(others) + |value.body| > MAX_CACHED_BYTES then map[] else others
  }

  lemma {:induction false} RoomFits(others: Responses, key: CacheKey, value: CachedResponse)
    requires key !in others && |value.body| <= MAX_CACHED_BYTES
    ensures var kept := WithRoom(others, value);
      && (kept == if |others| >= MAX_CACHED_RESPONSES || TotalBytes(others) + |value.body| > MAX_CACHED_BYTES then map[] else others)
      && TotalBytes(map[]) == 0
      && TotalBytes(kept[key := value]) == TotalBytes(kept) + |value.body| && Bounded(kept[key := value])
  {
    hide TotalBytes;
    TotalBytesEmpty();
    TotalBytesPut(WithRoom(others, value), key, value);
  }

  lemma {:induction false} StoredFrom(m: Responses, key: CacheKey, value: CachedResponse, k: CacheKey)
    requires k in Stored(m, key, value)
    ensures (k == key && Stored(m, key, value)[k] == value) || (k in m && Stored(m, key, value)[k] == m[k])
  {
  }

  /** retryError: a failure while the deadline is in the future becomes a rate limit. */
  function RetryLimit(t: Throttle, now: Time): Option<Time> {
    if now < t.until then Some(t.until) else None
  }

  class RequestState {
    var until: Time
    var backoff: Time
    var responses: Responses
    var bytes: int

    ghost predicate Valid()
      reads this
    {
      bytes == TotalBytes(responses) && Bounded(responses)
    }

    function CurrentThrottle(): Throttle
      reads this
    {
      Throttle(until, backoff)
    }

    constructor ()
      ensures Valid() && responses == map[] && CurrentThrottle() == UNTHROTTLED
    {
      until, backoff, responses, bytes := ZERO_TIME, 0, map[], 0;
    }

    method Observe(r: Response, bodyMentionsLimit: bool, now: Time) returns (throttled: bool)
      modifies this`until, this`backoff
      ensures throttled == IsThrottled(r, bodyMentionsLimit) == SaysSlowDown(Seen(r, bodyMentionsLimit, now))
      ensures KeepsTo(old(CurrentThrottle()), r, bodyMentionsLimit, now, CurrentThrottle())
      ensures CurrentThrottle() == Observed(old(CurrentThrottle()), r, bodyMentionsLimit, now)
    {
      hide KeepsTo, SaysSlowDown;
      ThrottledExactlyWhenSaid(Seen(r, bodyMentionsLimit, now));
      var limit := ZERO_TIME;
      if r.remainingIsZero && r.reset.Some? {
        limit := r.reset.value * SECOND + SECOND;
      }
      throttled := r.status == 429 || (r.status == 403 && (r.retryAfter != Absent || r.remainingIsZero || bodyMentionsLimit));
      if throttled {
        if backoff == 0 {
          backoff := MINUTE;
        } else {
          backoff := Min(backoff * 2, MAX_BACKOFF);
        }
        var retry := now + backoff;
        match r.retryAfter {
          case Seconds(n) => if n >= 0 { retry := now + n * SECOND; }
          case Date(date) => retry := date;
          case _ =>
        }
        if retry <= now {
          retry := now + SECOND;
        }
        if retry > limit {
          limit := retry;
        }
      } else if 200 <= r.status < 300 {
        backoff := 0;
      }
      if limit > until {
        until := limit;
      }
      ObservedKeepsTo(old(CurrentThrottle()), r, bodyMentionsLimit, now);
    }

    method Expire(now: Time)
      requires Valid()
      modifies this`responses, this`bytes
      ensures Valid()
      ensures responses == Unexpired(old(responses), now)
    {
      var todo := responses.Keys;
      while todo != {}
        invariant todo <= responses.Keys
        invariant Valid()
        invariant forall k :: k in responses <==> k in old(responses) && (k in todo || now < old(responses)[k].expires)
        invariant forall k :: k in responses ==> responses[k] == old(responses)[k]
        decreases todo
      {
        var k :| k in todo;
        todo := todo - {k};
        if responses[k].expires <= now {
          TotalBytesDrop(responses, k);
          bytes := bytes - |responses[k].body|;
          responses := responses - {k};
        }
      }
    }

    method Store(key: CacheKey, value: CachedResponse)
      requires Valid()
      modifies this`responses, this`bytes
      ensures Valid()
      ensures responses == Stored(old(responses), key, value)
    {
      hide TotalBytes, Bounded, WithRoom;
      if |value.body| > MAX_CACHED_BYTES {
        return;
      }
      ghost var others := responses - {key};
      TotalBytesDrop(responses, key);
      if key in responses {
        bytes := bytes - |responses[key].body|;
        responses := responses - {key};
      }
      assert responses == others && bytes == TotalBytes(others);
      RoomFits(others, key, value);
      if |responses| >= MAX_CACHED_RESPONSES || bytes + |value.body| > MAX_CACHED_BYTES {
        responses := map[];
        bytes := 0;
      }
      responses := responses[key := value];
      bytes := bytes + |value.body|;
    }
  }
}
