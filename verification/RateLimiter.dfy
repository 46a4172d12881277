/** The fixed-window rate limiter of internal/server/middleware.go: its decision
    on values, and the class that updates its buckets in place. */
module RateLimiter {
  type Key = string

  // Nanoseconds since Go's zero time, so 0 is the value for which IsZero holds.
  type Time = nat

  datatype Bucket = Bucket(count: int, reset: Time)

  datatype Config = Config(limit: int, window: int) {
    // Outside this range the limiter admits everything.
    predicate Enforcing() {
      limit >= 1 && window > 0
    }
  }

  datatype State = State(buckets: map<Key, Bucket>, lastPrune: Time)

  datatype Answer = Answer(allowed: bool, retryAfter: int)

  const INITIAL := State(map[], 0)
  const ZERO_BUCKET := Bucket(0, 0)

  // A Go map read: the zero bucket when the key is missing.
  function Lookup(buckets: map<Key, Bucket>, key: Key): Bucket {
    if key in buckets then buckets[key] else ZERO_BUCKET
  }

  function Unexpired(buckets: map<Key, Bucket>, now: Time): map<Key, Bucket> {
    map key | key in buckets && now < buckets[key].reset :: buckets[key]
  }

  function Pruned(cfg: Config, st: State, now: Time): State {
    if st.lastPrune != 0 && now - st.lastPrune < cfg.window then st
    else State(Unexpired(st.buckets, now), now)
  }

  // What one call does to one bucket.
  function Decide(cfg: Config, bucket: Bucket, now: Time): (Bucket, Answer)
    requires cfg.Enforcing()
  {
    if bucket.reset == 0 || now >= bucket.reset then (Bucket(1, now + cfg.window), Answer(true, 0))
    else if bucket.count >= cfg.limit then (bucket, Answer(false, bucket.reset - now))
    else (Bucket(bucket.count + 1, bucket.reset), Answer(true, 0))
  }

  function Allowed(cfg: Config, st: State, key: Key, now: Time): (State, Answer) {
    if !cfg.Enforcing() then (st, Answer(true, 0))
    else
      var pruned := Pruned(cfg, st, now);
      var (bucket, answer) := Decide(cfg, Lookup(pruned.buckets, key), now);
      (pruned.(buckets := pruned.buckets[key := bucket]), answer)
  }

  const NANOS_PER_SECOND := 1_000_000_000

  /** The Retry-After header: the wait in seconds, rounded up. Exactly; the program's
      64-bit floating point agrees for waits of less than 2^23 seconds. */
  function RetryAfterSeconds(retryAfter: int): (seconds: int)
    ensures (seconds - 1) * 1_000_000_000 < retryAfter <= seconds * 1_000_000_000
  {
    -(-(retryAfter as real / NANOS_PER_SECOND as real)).Floor
  }

  class Limiter {
    const cfg: Config
    var buckets: map<Key, Bucket>
    var lastPrune: Time

    constructor (limit: int, window: int)
      ensures cfg == Config(limit, window)
      ensures Contents() == INITIAL
    {
      cfg := Config(limit, window);
      buckets := map[];
      lastPrune := 0;
    }

    function Contents(): State
      reads this
    {
      State(buckets, lastPrune)
    }

    method PruneExpired(now: Time)
      modifies this
      ensures Contents() == Pruned(cfg, old(Contents()), now)
      ensures old(lastPrune) != 0 && now - old(lastPrune) < cfg.window ==>
        buckets == old(buckets) && lastPrune == old(lastPrune)
      ensures old(lastPrune) == 0 || now - old(lastPrune) >= cfg.window ==>
        && lastPrune == now
        && (forall key :: key in buckets <==> key in old(buckets) && now < old(buckets)[key].reset)
        && (forall key :: key in buckets ==> buckets[key] == old(buckets)[key])
    {
      if lastPrune != 0 && now - lastPrune < cfg.window {
        return;
      }
      var todo := buckets.Keys;
      while todo != {}
        invariant todo <= buckets.Keys <= old(buckets).Keys
        invariant forall key :: key in buckets ==> buckets[key] == old(buckets)[key]
        invariant forall key :: key in old(buckets) && key !in todo ==>
          (key in buckets <==> now < old(buckets)[key].reset)
      {
        var key :| key in todo;
        todo := todo - {key};
        if now >= buckets[key].reset {
          buckets := buckets - {key};
        }
      }
      lastPrune := now;
    }

    method Allow(key: Key, now: Time) returns (allowed: bool, retryAfter: int)
      modifies this
      ensures (Contents(), Answer(allowed, retryAfter)) == Allowed(cfg, old(Contents()), key, now)
      // Without a limit or a window everything is admitted and nothing is recorded.
      ensures cfg.limit < 1 || cfg.window <= 0 ==>
        allowed && retryAfter == 0 && buckets == old(buckets) && lastPrune == old(lastPrune)
      // Else the first call of a window opens a bucket, and `limit` calls fill it.
      ensures cfg.limit >= 1 && cfg.window > 0 ==>
        if key !in old(buckets) || now >= old(buckets)[key].reset then
          allowed && retryAfter == 0 && key in buckets && buckets[key] == Bucket(1, now + cfg.window)
        else if old(buckets)[key].count < cfg.limit then
          && allowed && retryAfter == 0
          && key in buckets && buckets[key] == Bucket(old(buckets)[key].count + 1, old(buckets)[key].reset)
        else
          && !allowed && retryAfter == old(buckets)[key].reset - now
          && key in buckets && buckets[key] == old(buckets)[key]
    {
      if cfg.limit < 1 || cfg.window <= 0 {
        return true, 0;
      }
      PruneExpired(now);
      var bucket := Lookup(buckets, key);
      if bucket.reset == 0 || now >= bucket.reset {
        buckets := buckets[key := Bucket(1, now + cfg.window)];
        return true, 0;
      }
      if bucket.count >= cfg.limit {
        assert buckets[key := bucket] == buckets;
        return false, bucket.reset - now;
      }
      bucket := bucket.(count := bucket.count + 1);
      buckets := buckets[key := bucket];
      return true, 0;
    }
  }
}
