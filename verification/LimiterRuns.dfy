/** What the limiter guarantees over whole traces of calls whose clock does not
    run backwards in the order the lock is taken. */
module LimiterRuns {
  import opened RateLimiter

  datatype Call = Call(key: Key, now: Time)

  predicate Monotone(calls: seq<Call>) {
    forall i, j :: 0 <= i < j < |calls| ==> calls[i].now <= calls[j].now
  }

  predicate NotBefore(calls: seq<Call>, t: Time) {
    forall i :: 0 <= i < |calls| ==> t <= calls[i].now
  }

  function Run(cfg: Config, st: State, calls: seq<Call>): (answers: seq<Answer>)
    ensures |answers| == |calls|
    decreases calls
  {
    if calls == [] then []
    else
      var (next, answer) := Allowed(cfg, st, calls[0].key, calls[0].now);
      [answer] + Run(cfg, next, calls[1..])
  }

  function After(cfg: Config, st: State, calls: seq<Call>): State
    decreases calls
  {
    if calls == [] then st
    else After(cfg, Allowed(cfg, st, calls[0].key, calls[0].now).0, calls[1..])
  }

  lemma {:induction false} AfterAppend(cfg: Config, st: State, a: seq<Call>, b: seq<Call>)
    ensures After(cfg, st, a + b) == After(cfg, After(cfg, st, a), b)
    ensures Run(cfg, st, a + b) == Run(cfg, st, a) + Run(cfg, After(cfg, st, a), b)
    decreases a
  {
    if a == [] {
      assert a + b == b;
    } else {
      assert (a + b)[1..] == a[1..] + b;
      AfterAppend(cfg, Allowed(cfg, st, a[0].key, a[0].now).0, a[1..], b);
    }
  }

  // ---- Pruning and other keys never change a decision ----

  /** The reference limiter: the same decision, no pruning, a single key. */
  function RunUnpruned(cfg: Config, bucket: Bucket, times: seq<Time>): seq<Answer>
    requires cfg.Enforcing()
    decreases times
  {
    if times == [] then []
    else
      var (next, answer) := Decide(cfg, bucket, times[0]);
      [answer] + RunUnpruned(cfg, next, times[1..])
  }

  function TimesOf(calls: seq<Call>, key: Key): seq<Time> {
    if calls == [] then []
    else (if calls[0].key == key then [calls[0].now] else []) + TimesOf(calls[1..], key)
  }

  function AnswersTo(calls: seq<Call>, answers: seq<Answer>, key: Key): seq<Answer>
    requires |calls| == |answers|
  {
    if calls == [] then []
    else (if calls[0].key == key then [answers[0]] else []) + AnswersTo(calls[1..], answers[1..], key)
  }

  // The pruned map agrees with the unpruned bucket, or has dropped it once expired.
  predicate Tracks(buckets: map<Key, Bucket>, key: Key, bucket: Bucket, now: Time) {
    Lookup(buckets, key) == bucket || (key !in buckets && bucket.reset <= now)
  }

  lemma {:induction false} NonInterferenceFrom(cfg: Config, st: State, calls: seq<Call>, key: Key, bucket: Bucket,
                                               now: Time)
    requires cfg.Enforcing() && Monotone(calls) && NotBefore(calls, now)
    requires Tracks(st.buckets, key, bucket, now)
    ensures AnswersTo(calls, Run(cfg, st, calls), key) == RunUnpruned(cfg, bucket, TimesOf(calls, key))
    decreases calls
  {
    if calls != [] {
      var call := calls[0];
      var (next, answer) := Allowed(cfg, st, call.key, call.now);
      var pruned := Pruned(cfg, st, call.now);
      assert Tracks(pruned.buckets, key, bucket, call.now);
      var bucket' := if call.key == key then Decide(cfg, bucket, call.now).0 else bucket;
      assert Run(cfg, st, calls)[1..] == Run(cfg, next, calls[1..]);
      NonInterferenceFrom(cfg, next, calls[1..], key, bucket', call.now);
      if call.key == key {
        assert TimesOf(calls, key) == [call.now] + TimesOf(calls[1..], key);
        assert answer == Decide(cfg, bucket, call.now).1;
        assert TimesOf(calls, key)[1..] == TimesOf(calls[1..], key);
        assert RunUnpruned(cfg, bucket, TimesOf(calls, key))
            == [answer] + RunUnpruned(cfg, bucket', TimesOf(calls[1..], key));
      } else {
        assert TimesOf(calls, key) == TimesOf(calls[1..], key);
      }
    }
  }

  /** Whatever other clients do and whenever pruning happens, a key gets exactly
      the answers of a limiter that never prunes and sees only that key. */
  lemma NonInterference(cfg: Config, calls: seq<Call>, key: Key)
    requires cfg.limit >= 1 && cfg.window > 0 && Monotone(calls)
    ensures AnswersTo(calls, Run(cfg, INITIAL, calls), key)
         == RunUnpruned(cfg, ZERO_BUCKET, TimesOf(calls, key))
  {
    NonInterferenceFrom(cfg, INITIAL, calls, key, ZERO_BUCKET, 0);
  }

  /** A limiter without limit or window admits every call and records nothing. */
  lemma {:induction false} UnlimitedAdmitsAll(cfg: Config, st: State, calls: seq<Call>)
    requires cfg.limit < 1 || cfg.window <= 0
    ensures After(cfg, st, calls) == st
    ensures forall i :: 0 <= i < |calls| ==> Run(cfg, st, calls)[i] == Answer(true, 0)
    decreases calls
  {
    if calls != [] {
      UnlimitedAdmitsAll(cfg, st, calls[1..]);
    }
  }

  // ---- How many calls an interval can admit ----

  function Hit(call: Call, answer: Answer, key: Key, lo: Time, hi: int): nat {
    if call.key == key && answer.allowed && lo <= call.now < hi then 1 else 0
  }

  function AdmittedIn(calls: seq<Call>, answers: seq<Answer>, key: Key, lo: Time, hi: int): nat
    requires |calls| == |answers|
  {
    if calls == [] then 0
    else
      Hit(calls[0], answers[0], key, lo, hi) + AdmittedIn(calls[1..], answers[1..], key, lo, hi)
  }

  predicate WellFormed(cfg: Config, st: State) {
    forall key :: key in st.buckets ==> 1 <= st.buckets[key].count <= cfg.limit && st.buckets[key].reset > 0
  }

  // The key has `spent` admissions in a bucket that ends at `reset`; once it has
  // expired the bucket may also have been pruned.
  predicate Spent(st: State, key: Key, spent: int, reset: Time, calls: seq<Call>) {
    if key in st.buckets then st.buckets[key] == Bucket(spent, reset) else NotBefore(calls, reset)
  }

  lemma {:induction false} NoneAdmittedPast(cfg: Config, st: State, calls: seq<Call>, key: Key, lo: Time, hi: Time)
    requires NotBefore(calls, hi)
    ensures AdmittedIn(calls, Run(cfg, st, calls), key, lo, hi) == 0
    decreases calls
  {
    if calls != [] {
      var next := Allowed(cfg, st, calls[0].key, calls[0].now).0;
      assert Run(cfg, st, calls)[1..] == Run(cfg, next, calls[1..]);
      NoneAdmittedPast(cfg, next, calls[1..], key, lo, hi);
    }
  }

  // k * x, unfolded so that the induction below stays linear.
  function Repeated(k: nat, x: int): (total: int)
    ensures x >= 0 ==> total >= 0
  {
    if k == 0 then 0 else x + Repeated(k - 1, x)
  }

  lemma RepeatedIsProduct(k: nat, x: int)
    ensures Repeated(k, x) == k * x
  {
  }

  lemma AdmittedInStep(cfg: Config, st: State, calls: seq<Call>, key: Key, lo: Time, hi: int)
    requires calls != []
    ensures var (next, answer) := Allowed(cfg, st, calls[0].key, calls[0].now);
            AdmittedIn(calls, Run(cfg, st, calls), key, lo, hi)
            == Hit(calls[0], answer, key, lo, hi) + AdmittedIn(calls[1..], Run(cfg, next, calls[1..]), key, lo, hi)
  {
    var next := Allowed(cfg, st, calls[0].key, calls[0].now).0;
    assert Run(cfg, st, calls)[1..] == Run(cfg, next, calls[1..]);
  }

  lemma AllowedKeepsWellFormed(cfg: Config, st: State, key: Key, now: Time)
    requires cfg.Enforcing() && WellFormed(cfg, st)
    ensures WellFormed(cfg, Allowed(cfg, st, key, now).0)
  {
  }

  lemma {:induction false} BoundFrom(cfg: Config, st: State, calls: seq<Call>, key: Key, lo: Time, hi: Time,
                                     spent: int, reset: Time, k: nat)
    requires cfg.Enforcing() && Monotone(calls) && WellFormed(cfg, st)
    requires Spent(st, key, spent, reset, calls) && spent <= cfg.limit
    requires hi <= reset + Repeated(k, cfg.window)
    ensures AdmittedIn(calls, Run(cfg, st, calls), key, lo, hi) <= cfg.limit - spent + Repeated(k, cfg.limit)
    decreases calls
  {
    if calls != [] {
      var call := calls[0];
      var next := Allowed(cfg, st, call.key, call.now).0;
      AdmittedInStep(cfg, st, calls, key, lo, hi);
      AllowedKeepsWellFormed(cfg, st, call.key, call.now);
      if call.key != key {
        BoundFrom(cfg, next, calls[1..], key, lo, hi, spent, reset, k);
      } else if hi <= call.now {
        NoneAdmittedPast(cfg, st, calls, key, lo, hi);
        RepeatedIsProduct(k, cfg.limit);
      } else if call.now < reset {
        BoundFrom(cfg, next, calls[1..], key, lo, hi, next.buckets[key].count, reset, k);
      } else {
        BoundFrom(cfg, next, calls[1..], key, lo, hi, 1, call.now + cfg.window, k - 1);
      }
    } else {
      RepeatedIsProduct(k, cfg.limit);
    }
  }

  lemma {:induction false} SlidingBoundFrom(cfg: Config, st: State, calls: seq<Call>, key: Key, lo: Time, k: nat)
    requires cfg.Enforcing() && Monotone(calls) && WellFormed(cfg, st) && k >= 1
    ensures AdmittedIn(calls, Run(cfg, st, calls), key, lo, lo + k * cfg.window) <= (k + 1) * cfg.limit - 1
    decreases calls
  {
    var hi := lo + k * cfg.window;
    RepeatedIsProduct(k, cfg.window);
    RepeatedIsProduct(k, cfg.limit);
    if calls != [] {
      var call := calls[0];
      if key in st.buckets && lo < st.buckets[key].reset {
        BoundFrom(cfg, st, calls, key, lo, hi, st.buckets[key].count, st.buckets[key].reset, k);
      } else if key !in st.buckets && lo <= call.now {
        BoundFrom(cfg, st, calls, key, lo, hi, cfg.limit, lo, k);
      } else if lo <= call.now {
        var expired := st.(buckets := st.buckets - {key});
        BoundFrom(cfg, expired, calls, key, lo, hi, cfg.limit, lo, k);
        ExpiredIsAbsent(cfg, st, calls, key);
      } else {
        var next := Allowed(cfg, st, call.key, call.now).0;
        assert Run(cfg, st, calls)[1..] == Run(cfg, next, calls[1..]);
        SlidingBoundFrom(cfg, next, calls[1..], key, lo, k);
      }
    }
  }

  // An expired bucket answers like a missing one.
  lemma {:induction false} ExpiredIsAbsent(cfg: Config, st: State, calls: seq<Call>, key: Key)
    requires cfg.Enforcing() && Monotone(calls)
    requires key in st.buckets && NotBefore(calls, st.buckets[key].reset)
    ensures Run(cfg, st, calls) == Run(cfg, st.(buckets := st.buckets - {key}), calls)
    decreases calls
  {
    if calls != [] {
      var call := calls[0];
      var st' := st.(buckets := st.buckets - {key});
      var next := Allowed(cfg, st, call.key, call.now).0;
      var next' := Allowed(cfg, st', call.key, call.now).0;
      if call.key == key || key !in next.buckets {
        assert next.buckets == next'.buckets;
      } else {
        assert next' == next.(buckets := next.buckets - {key});
        ExpiredIsAbsent(cfg, next, calls[1..], key);
      }
    }
  }

  /** Over any k windows, wherever they start, a key is admitted at most
      (k + 1) * limit - 1 times. */
  lemma SlidingBound(cfg: Config, calls: seq<Call>, key: Key, lo: Time, k: nat)
    requires cfg.limit >= 1 && cfg.window > 0 && Monotone(calls) && k >= 1
    ensures AdmittedIn(calls, Run(cfg, INITIAL, calls), key, lo, lo + k * cfg.window) <= (k + 1) * cfg.limit - 1
  {
    SlidingBoundFrom(cfg, INITIAL, calls, key, lo, k);
  }

  lemma MonotoneTail(before: seq<Call>, calls: seq<Call>)
    requires Monotone(before + calls)
    ensures Monotone(calls) && (calls != [] ==> Monotone(calls[1..]))
  {
    assert calls == (before + calls)[|before|..];
  }

  // The call finds no bucket, or an expired one.
  lemma Opens(cfg: Config, st: State, key: Key, now: Time)
    requires cfg.Enforcing() && Lookup(st.buckets, key).reset <= now
    ensures var (next, answer) := Allowed(cfg, st, key, now);
            answer.allowed && key in next.buckets && next.buckets[key] == Bucket(1, now + cfg.window)
  {
  }

  /** A call that opens a bucket starts a period of one window that admits at most `limit`. */
  lemma {:induction false} PeriodBound(cfg: Config, before: seq<Call>, calls: seq<Call>)
    requires cfg.limit >= 1 && cfg.window > 0 && Monotone(before + calls) && calls != []
    requires Lookup(After(cfg, INITIAL, before).buckets, calls[0].key).reset <= calls[0].now
    ensures var st := After(cfg, INITIAL, before);
            var open := calls[0].now;
            AdmittedIn(calls, Run(cfg, st, calls), calls[0].key, open, open + cfg.window) <= cfg.limit
  {
    hide AdmittedIn, Run, After, Allowed, Lookup, Monotone;
    var st := After(cfg, INITIAL, before);
    var call := calls[0];
    AfterKeepsWellFormed(cfg, INITIAL, before);
    MonotoneTail(before, calls);
    Opens(cfg, st, call.key, call.now);
    var next := Allowed(cfg, st, call.key, call.now).0;
    AdmittedInStep(cfg, st, calls, call.key, call.now, call.now + cfg.window);
    AllowedKeepsWellFormed(cfg, st, call.key, call.now);
    BoundFrom(cfg, next, calls[1..], call.key, call.now, call.now + cfg.window, 1, call.now + cfg.window, 0);
  }

  lemma {:induction false} AfterKeepsWellFormed(cfg: Config, st: State, calls: seq<Call>)
    requires cfg.Enforcing() && WellFormed(cfg, st)
    ensures WellFormed(cfg, After(cfg, st, calls))
    decreases calls
  {
    if calls != [] {
      AllowedKeepsWellFormed(cfg, st, calls[0].key, calls[0].now);
      AfterKeepsWellFormed(cfg, Allowed(cfg, st, calls[0].key, calls[0].now).0, calls[1..]);
    }
  }

  // ---- The sliding bound cannot be improved ----

  function Burst(key: Key, n: nat, t: Time): seq<Call> {
    if n == 0 then [] else [Call(key, t)] + Burst(key, n - 1, t)
  }

  // One full burst at the start of each of the windows j, j + 1, ..., k.
  function Bursts(cfg: Config, key: Key, j: nat, k: nat): seq<Call>
    requires cfg.Enforcing()
    decreases k - j
  {
    if j > k then [] else Burst(key, cfg.limit, Repeated(j, cfg.window) + 1) + Bursts(cfg, key, j + 1, k)
  }

  /** One call opens a bucket, the rest of its allowance comes just before it
      ends, and every later window is used up as soon as it opens. */
  function WorstCase(cfg: Config, key: Key, k: nat): seq<Call>
    requires cfg.Enforcing()
  {
    [Call(key, 1)] + Burst(key, cfg.limit - 1, cfg.window) + Bursts(cfg, key, 1, k)
  }

  lemma {:induction false} BurstCounts(cfg: Config, st: State, key: Key, n: nat, t: Time, rest: seq<Call>, lo: Time,
                                       hi: int)
    requires cfg.Enforcing() && lo <= t < hi
    requires key in st.buckets && t < st.buckets[key].reset && st.buckets[key].count + n <= cfg.limit
    ensures var st' := After(cfg, st, Burst(key, n, t));
            && key in st'.buckets
            && st'.buckets[key] == Bucket(st.buckets[key].count + n, st.buckets[key].reset)
            && AdmittedIn(Burst(key, n, t) + rest, Run(cfg, st, Burst(key, n, t) + rest), key, lo, hi)
               == n + AdmittedIn(rest, Run(cfg, st', rest), key, lo, hi)
    decreases n
  {
    var calls := Burst(key, n, t) + rest;
    if n == 0 {
      assert calls == rest;
    } else {
      var next := Allowed(cfg, st, key, t).0;
      AdmittedInStep(cfg, st, calls, key, lo, hi);
      assert calls[1..] == Burst(key, n - 1, t) + rest;
      BurstCounts(cfg, next, key, n - 1, t, rest, lo, hi);
    }
  }

  lemma {:induction false} RepeatedMonotone(j: nat, k: nat, x: nat)
    requires j <= k
    ensures Repeated(j, x) <= Repeated(k, x)
    decreases k
  {
    if j < k {
      RepeatedMonotone(j, k - 1, x);
    }
  }

  // A burst of `limit` calls that finds the bucket missing or expired is admitted in full.
  lemma OpeningBurst(cfg: Config, st: State, key: Key, n: nat, t: Time, rest: seq<Call>, lo: Time, hi: int)
    requires cfg.Enforcing() && lo <= t < hi && 1 <= n <= cfg.limit
    requires Lookup(st.buckets, key).reset <= t
    ensures var st' := After(cfg, st, Burst(key, n, t));
            && key in st'.buckets && st'.buckets[key] == Bucket(n, t + cfg.window)
            && AdmittedIn(Burst(key, n, t) + rest, Run(cfg, st, Burst(key, n, t) + rest), key, lo, hi)
               == n + AdmittedIn(rest, Run(cfg, st', rest), key, lo, hi)
  {
    var next := Allowed(cfg, st, key, t).0;
    var tail := Burst(key, n - 1, t);
    assert Burst(key, n, t) + rest == [Call(key, t)] + (tail + rest);
    AdmittedInStep(cfg, st, Burst(key, n, t) + rest, key, lo, hi);
    BurstCounts(cfg, next, key, n - 1, t, rest, lo, hi);
  }

  lemma {:induction false} BurstsCount(cfg: Config, st: State, key: Key, j: nat, k: nat, lo: Time, hi: int)
    requires cfg.Enforcing() && key in st.buckets && 1 <= j <= k + 1
    requires st.buckets[key].reset == Repeated(j, cfg.window) + 1
    requires lo <= Repeated(j, cfg.window) && Repeated(k, cfg.window) + 1 < hi
    ensures AdmittedIn(Bursts(cfg, key, j, k), Run(cfg, st, Bursts(cfg, key, j, k)), key, lo, hi)
         == Repeated(k + 1 - j, cfg.limit)
    decreases k + 1 - j
  {
    if j <= k {
      var t := Repeated(j, cfg.window) + 1;
      RepeatedMonotone(j, k, cfg.window);
      OpeningBurst(cfg, st, key, cfg.limit, t, Bursts(cfg, key, j + 1, k), lo, hi);
      BurstsCount(cfg, After(cfg, st, Burst(key, cfg.limit, t)), key, j + 1, k, lo, hi);
    }
  }

  lemma {:induction false} BurstAt(key: Key, n: nat, t: Time)
    ensures forall i :: 0 <= i < |Burst(key, n, t)| ==> Burst(key, n, t)[i] == Call(key, t)
    decreases n
  {
    if n > 0 {
      BurstAt(key, n - 1, t);
    }
  }

  lemma MonotoneAppend(a: seq<Call>, b: seq<Call>, t: Time)
    requires Monotone(a) && Monotone(b) && NotBefore(b, t)
    requires forall i :: 0 <= i < |a| ==> a[i].now <= t
    ensures Monotone(a + b)
  {
  }

  lemma {:induction false} BurstsMonotone(cfg: Config, key: Key, j: nat, k: nat)
    requires cfg.Enforcing()
    ensures Monotone(Bursts(cfg, key, j, k)) && NotBefore(Bursts(cfg, key, j, k), Repeated(j, cfg.window) + 1)
    decreases k - j
  {
    if j <= k {
      var t := Repeated(j, cfg.window) + 1;
      BurstAt(key, cfg.limit, t);
      BurstsMonotone(cfg, key, j + 1, k);
      MonotoneAppend(Burst(key, cfg.limit, t), Bursts(cfg, key, j + 1, k), Repeated(j + 1, cfg.window) + 1);
    }
  }

  lemma WorstCaseMonotone(cfg: Config, key: Key, k: nat)
    requires cfg.Enforcing()
    ensures Monotone(WorstCase(cfg, key, k))
  {
    var lo := cfg.window;
    var first, early, late := [Call(key, 1)], Burst(key, cfg.limit - 1, lo), Bursts(cfg, key, 1, k);
    assert Repeated(1, lo) == lo + Repeated(0, lo) == lo;
    BurstAt(key, cfg.limit - 1, lo);
    BurstsMonotone(cfg, key, 1, k);
    MonotoneAppend(first, early, lo);
    MonotoneAppend(first + early, late, lo);
  }

  lemma WorstCaseCount(cfg: Config, key: Key, k: nat, hi: Time)
    requires cfg.Enforcing() && cfg.window >= 2 && k >= 1 && Repeated(k, cfg.window) + 1 < hi
    ensures var calls := WorstCase(cfg, key, k);
            AdmittedIn(calls, Run(cfg, INITIAL, calls), key, cfg.window, hi) == cfg.limit - 1 + Repeated(k, cfg.limit)
  {
    hide AdmittedIn, Run, After, Burst, Bursts, Allowed;
    var lo := cfg.window;
    var early, late := Burst(key, cfg.limit - 1, lo), Bursts(cfg, key, 1, k);
    var calls := WorstCase(cfg, key, k);
    Opens(cfg, INITIAL, key, 1);
    assert Repeated(1, lo) == lo + Repeated(0, lo) == lo;
    RepeatedMonotone(1, k, lo);
    assert calls == [Call(key, 1)] + (early + late);
    var next := Allowed(cfg, INITIAL, key, 1).0;
    AdmittedInStep(cfg, INITIAL, calls, key, lo, hi);
    assert calls[1..] == early + late;
    BurstCounts(cfg, next, key, cfg.limit - 1, lo, late, lo, hi);
    BurstsCount(cfg, After(cfg, next, early), key, 1, k, lo, hi);
  }

  /** SlidingBound is attained for every limit, every window longer than the
      clock's resolution, and every number of windows. */
  lemma SlidingBoundAttained(cfg: Config, key: Key, k: nat)
    requires cfg.limit >= 1 && cfg.window > 0 && cfg.window >= 2 && k >= 1
    ensures var calls := WorstCase(cfg, key, k);
            && Monotone(calls)
            && AdmittedIn(calls, Run(cfg, INITIAL, calls), key, cfg.window, cfg.window + k * cfg.window)
               == (k + 1) * cfg.limit - 1
  {
    RepeatedIsProduct(k, cfg.window);
    RepeatedIsProduct(k, cfg.limit);
    WorstCaseMonotone(cfg, key, k);
    WorstCaseCount(cfg, key, k, cfg.window + k * cfg.window);
  }

  // ---- A denial says exactly how long to wait ----

  // No bucket outlives one window.
  predicate ResetsWithin(cfg: Config, st: State, now: Time) {
    forall key :: key in st.buckets ==> st.buckets[key].reset <= now + cfg.window
  }

  lemma {:induction false} AfterResetsWithin(cfg: Config, st: State, calls: seq<Call>, now: Time)
    requires cfg.Enforcing() && Monotone(calls) && ResetsWithin(cfg, st, now)
    requires if calls == [] then true else now <= calls[0].now
    ensures ResetsWithin(cfg, After(cfg, st, calls), if calls == [] then now else calls[|calls| - 1].now)
    decreases calls
  {
    if calls != [] {
      var next := Allowed(cfg, st, calls[0].key, calls[0].now).0;
      AfterResetsWithin(cfg, next, calls[1..], calls[0].now);
    }
  }

  // The bucket is untouched, or has expired and been pruned.
  predicate Waits(st: State, key: Key, bucket: Bucket, now: Time) {
    if key in st.buckets then st.buckets[key] == bucket else bucket.reset <= now
  }

  // A full bucket stays as it is until it expires, whatever other keys do.
  lemma {:induction false} FullWaits(cfg: Config, st: State, calls: seq<Call>, key: Key, bucket: Bucket, now: Time,
                                     later: Time)
    requires cfg.Enforcing() && bucket.count >= cfg.limit && bucket.reset > 0 && Waits(st, key, bucket, now)
    requires Monotone(calls) && NotBefore(calls, now) && now <= later
    requires forall i :: 0 <= i < |calls| ==> calls[i].now <= later
    requires forall i :: 0 <= i < |calls| && calls[i].key == key ==> calls[i].now < bucket.reset
    ensures Waits(After(cfg, st, calls), key, bucket, later)
    decreases calls
  {
    if calls != [] {
      FullWaits(cfg, Allowed(cfg, st, calls[0].key, calls[0].now).0, calls[1..], key, bucket, calls[0].now, later);
    }
  }

  lemma DeniedBucket(cfg: Config, st: State, key: Key, now: Time)
    requires cfg.Enforcing() && !Allowed(cfg, st, key, now).1.allowed
    ensures var (st', answer) := Allowed(cfg, st, key, now);
            && key in st.buckets && key in st'.buckets && st'.buckets[key] == st.buckets[key]
            && st.buckets[key].count >= cfg.limit
            && answer.retryAfter == st.buckets[key].reset - now > 0
  {
  }

  lemma WaitsAnswer(cfg: Config, st: State, key: Key, bucket: Bucket, now: Time)
    requires cfg.Enforcing() && bucket.count >= cfg.limit && bucket.reset > 0 && Waits(st, key, bucket, now)
    ensures Allowed(cfg, st, key, now).1.allowed <==> now >= bucket.reset
  {
  }

  /** A denial's wait is positive and at most a window. Unless the key itself calls
      again at or after the deadline it names, and whatever other keys do meanwhile,
      the key is next admitted if and only if it calls at or after that deadline. */
  lemma DenialIsHonest(cfg: Config, before: seq<Call>, denied: Call, between: seq<Call>, later: Time)
    requires cfg.limit >= 1 && cfg.window > 0 && Monotone(before + [denied] + between + [Call(denied.key, later)])
    requires !Allowed(cfg, After(cfg, INITIAL, before), denied.key, denied.now).1.allowed
    requires var answer := Allowed(cfg, After(cfg, INITIAL, before), denied.key, denied.now).1;
             forall i :: 0 <= i < |between| && between[i].key == denied.key ==>
               between[i].now < denied.now + answer.retryAfter
    ensures var (st, answer) := Allowed(cfg, After(cfg, INITIAL, before), denied.key, denied.now);
            && 0 < answer.retryAfter <= cfg.window
            && (Allowed(cfg, After(cfg, st, between), denied.key, later).1.allowed
                <==> later >= denied.now + answer.retryAfter)
  {
    var at := After(cfg, INITIAL, before);
    var st := Allowed(cfg, at, denied.key, denied.now).0;
    DeniedBucket(cfg, at, denied.key, denied.now);
    MonotoneParts(before, denied, between, Call(denied.key, later));
    ResetsBefore(cfg, before, denied);
    var bucket := st.buckets[denied.key];
    FullWaits(cfg, st, between, denied.key, bucket, denied.now, later);
    WaitsAnswer(cfg, After(cfg, st, between), denied.key, bucket, later);
  }

  lemma MonotoneParts(before: seq<Call>, denied: Call, between: seq<Call>, last: Call)
    requires Monotone(before + [denied] + between + [last])
    ensures Monotone(before + [denied]) && Monotone(between) && NotBefore(between, denied.now) && denied.now <= last.now
    ensures forall i :: 0 <= i < |between| ==> between[i].now <= last.now
  {
    var calls, n := before + [denied] + between + [last], |before| + 1;
    assert calls[n - 1] == denied && calls[n + |between|] == last;
    assert forall i :: 0 <= i < n ==> calls[i] == (before + [denied])[i];
    assert forall i :: 0 <= i < |between| ==> calls[n + i] == between[i];
  }

  lemma ResetsBefore(cfg: Config, before: seq<Call>, last: Call)
    requires cfg.Enforcing() && Monotone(before + [last])
    ensures ResetsWithin(cfg, After(cfg, INITIAL, before), last.now)
  {
    var calls := before + [last];
    assert before == calls[..|before|];
    AfterResetsWithin(cfg, INITIAL, before, 0);
    if before != [] {
      assert calls[|before| - 1].now <= calls[|before|].now;
    }
  }

  // ---- Stored buckets are recent ----

  predicate Recent(cfg: Config, st: State, now: Time) {
    && st.lastPrune <= now < st.lastPrune + cfg.window
    && forall key :: key in st.buckets ==> st.lastPrune < st.buckets[key].reset
  }

  lemma RecentStep(cfg: Config, st: State, call: Call, before: Time)
    requires cfg.Enforcing() && (st == INITIAL || (Recent(cfg, st, before) && before <= call.now))
    ensures Recent(cfg, Allowed(cfg, st, call.key, call.now).0, call.now)
  {
  }

  lemma RecentMeans(cfg: Config, st: State, now: Time)
    requires cfg.Enforcing() && Recent(cfg, st, now)
    ensures forall key :: key in st.buckets ==> now - (st.buckets[key].reset - cfg.window) < 2 * cfg.window
  {
  }

  lemma MonotoneFront(calls: seq<Call>)
    requires Monotone(calls) && |calls| > 1
    ensures Monotone(calls[..|calls| - 1]) && calls[|calls| - 2].now <= calls[|calls| - 1].now
  {
  }

  lemma AfterOne(cfg: Config, st: State, call: Call)
    ensures After(cfg, st, [call]) == Allowed(cfg, st, call.key, call.now).0
  {
    assert [call][1..] == [];
  }

  /** After the last call of any non-empty trace every stored bucket was opened
      (one window before its reset) less than two windows ago. */
  lemma {:induction false} BucketsAreRecent(cfg: Config, calls: seq<Call>)
    requires cfg.limit >= 1 && cfg.window > 0 && Monotone(calls) && calls != []
    ensures var st := After(cfg, INITIAL, calls);
            var now := calls[|calls| - 1].now;
            && Recent(cfg, st, now)
            && forall key :: key in st.buckets ==> now - (st.buckets[key].reset - cfg.window) < 2 * cfg.window
    decreases |calls|
  {
    var init, last := calls[..|calls| - 1], calls[|calls| - 1];
    var st, before := INITIAL, 0;
    if init != [] {
      MonotoneFront(calls);
      BucketsAreRecent(cfg, init);
      st, before := After(cfg, INITIAL, init), init[|init| - 1].now;
    }
    hide Monotone, Recent, Allowed;
    assert calls == init + [last];
    AfterAppend(cfg, INITIAL, init, [last]);
    AfterOne(cfg, st, last);
    RecentStep(cfg, st, last, before);
    RecentMeans(cfg, After(cfg, INITIAL, calls), last.now);
  }
}
