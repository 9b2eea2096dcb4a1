/** `CacheCleanupMiddleware` of middlewares/cache_cleanup.py: on each
    request it checks how long ago the last sweep was scheduled and, when
    more than the interval has passed, schedules a sweep of expired cache
    entries and records the time. The clock is the parameter `now`; the
    next handler (`call_next`) is a function parameter. */
module CacheCleanup {
  import opened CacheStore

  /** `timedelta(hours=1)` */
  const Hour := 3600 * Second

  /** The interval measured from a sweep's predecessor: the start time
      for the first sweep, the previous sweep otherwise. */
  function Previous(start: int, sweeps: seq<int>, i: nat): int
    requires i < |sweeps|
  {
    if i == 0 then start else sweeps[i - 1]
  }

  /** Each sweep came more than `interval` after its predecessor. */
  predicate Spaced(start: int, interval: int, sweeps: seq<int>) {
    forall i :: 0 <= i < |sweeps| ==> sweeps[i] - Previous(start, sweeps, i) > interval
  }

  lemma {:induction false} SpacedFromStart(start: int, interval: int, sweeps: seq<int>, i: nat)
    requires interval >= 0 && Spaced(start, interval, sweeps) && i < |sweeps|
    ensures sweeps[i] - start > interval
  {
    if i > 0 {
      SpacedFromStart(start, interval, sweeps, i - 1);
      assert sweeps[i] - sweeps[i - 1] > interval;
    }
  }

  lemma {:induction false} SpacedChain(start: int, interval: int, sweeps: seq<int>, i: nat, j: nat)
    requires interval >= 0 && Spaced(start, interval, sweeps) && i < j < |sweeps|
    ensures sweeps[j] - sweeps[i] > interval
    decreases j
  {
    assert sweeps[j] - Previous(start, sweeps, j) > interval;
    if j > i + 1 {
      SpacedChain(start, interval, sweeps, i, j - 1);
    }
  }

  /** With a non-negative interval, any two sweeps (and the first sweep and
      the start) are more than one interval apart, in increasing order. */
  lemma SpacedPairwise(start: int, interval: int, sweeps: seq<int>)
    requires interval >= 0 && Spaced(start, interval, sweeps)
    ensures forall i :: 0 <= i < |sweeps| ==> sweeps[i] - start > interval
    ensures forall i, j :: 0 <= i < j < |sweeps| ==> sweeps[j] - sweeps[i] > interval
  {
    forall i | 0 <= i < |sweeps| ensures sweeps[i] - start > interval {
      SpacedFromStart(start, interval, sweeps, i);
    }
    forall i, j | 0 <= i < j < |sweeps| ensures sweeps[j] - sweeps[i] > interval {
      SpacedChain(start, interval, sweeps, i, j);
    }
  }

  /** The sweep times a sequence of requests at `times` schedules, starting
      from `last`: the reference definition of the trigger. */
  function Scheduled(last: int, interval: int, times: seq<int>): (s: seq<int>)
    ensures |s| <= |times|
    ensures forall t :: t in s ==> t in times
    decreases |times|
  {
    if times == [] then []
    else if times[0] - last > interval then [times[0]] + Scheduled(times[0], interval, times[1..])
    else Scheduled(last, interval, times[1..])
  }

  /** Whatever the clock does, the sweeps the trigger schedules are spaced. */
  lemma {:induction false} ScheduledSpaced(last: int, interval: int, times: seq<int>)
    ensures Spaced(last, interval, Scheduled(last, interval, times))
    decreases |times|
  {
    if times != [] {
      var t := times[0];
      if t - last > interval {
        ScheduledSpaced(t, interval, times[1..]);
        var rest := Scheduled(t, interval, times[1..]);
        var s := [t] + rest;
        assert forall i :: 1 <= i < |s| ==> s[i] == rest[i - 1] && Previous(last, s, i) == Previous(t, rest, i - 1);
      } else {
        ScheduledSpaced(last, interval, times[1..]);
      }
    }
  }

  class CleanupMiddleware {
    const cache: CacheService
    /** `cleanup_interval` */
    const interval: int
    /** `last_cleanup` */
    var lastCleanup: int
    /** Construction time and the times at which sweeps were scheduled. */
    ghost const started: int
    ghost var sweeps: seq<int>

    ghost predicate Valid()
      reads this
    {
      Spaced(started, interval, sweeps)
      && lastCleanup == (if sweeps == [] then started else sweeps[|sweeps| - 1])
    }

    /** `__init__`: `last_cleanup` starts at construction time, so the first
        sweep waits a full interval. */
    constructor (cache: CacheService, interval: int, now: int)
      ensures this.cache == cache && this.interval == interval
      ensures lastCleanup == now && sweeps == []
      ensures Valid()
    {
      this.cache := cache;
      this.interval := interval;
      lastCleanup := now;
      started := now;
      sweeps := [];
    }

    /** `dispatch`: schedule a sweep when more than the interval has passed
        since the last one, then forward the request. `sweep` reports
        whether a sweep task was created; running it is
        `CleanupExpiredCache`. */
    method Dispatch<Request, Response>(request: Request, callNext: Request -> Response, now: int)
      returns (response: Response, sweep: bool)
      requires Valid()
      modifies this`lastCleanup, this`sweeps
      ensures Valid()
      ensures sweep <==> now - old(lastCleanup) > interval
      ensures lastCleanup == if sweep then now else old(lastCleanup)
      ensures sweeps == old(sweeps) + (if sweep then [now] else [])
      ensures response == callNext(request)
    {
      sweep := now - lastCleanup > interval;
      if sweep {
        sweeps := sweeps + [now];
        lastCleanup := now;
      }
      response := callNext(request);
    }

    /** `_cleanup_expired_cache`: `aclear_expired` at the time the scheduled job
        runs; every error is caught and logged, so nothing is raised. */
    method CleanupExpiredCache(now: int, fault: bool)
      modifies cache`entries
      ensures cache.entries == if fault then old(cache.entries) else Sweep(old(cache.entries), now)
    {
      cache.AClearExpired(now, fault);
    }
  }

  /** `setup_cache_cleanup_middleware`: the installed middleware sweeps at
      most once an hour. */
  method SetupCacheCleanupMiddleware(cache: CacheService, now: int) returns (m: CleanupMiddleware)
    ensures fresh(m) && m.Valid() && m.sweeps == []
    ensures m.cache == cache && m.interval == Hour && m.lastCleanup == now
  {
    m := new CleanupMiddleware(cache, Hour, now);
  }

  /** One request of the reference trace is exactly one `Dispatch`: the
      sweep it schedules, followed by the trace from the new `last_cleanup`. */
  lemma ScheduledStep(last: int, interval: int, t: int, rest: seq<int>)
    ensures Scheduled(last, interval, [t] + rest) ==
      (if t - last > interval then [t] else []) + Scheduled(if t - last > interval then t else last, interval, rest)
  {
    assert ([t] + rest)[1..] == rest;
  }
}
