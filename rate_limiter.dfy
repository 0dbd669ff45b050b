/** The fixed-window rate limiter (middlewares/rate-limiter.ts): a counter
    per key in the cache, given its lifetime when it is first created. */
module RateLimiter {
  import opened Wrappers
  import opened Records
  import opened Store

  /** The key prefix used when the caller gives none. */
  const DefaultPrefix: string := "rl:"

  /** The limiter's answer: whether the call may go ahead, how many calls the
      window still admits, and the counter's remaining lifetime. */
  datatype Verdict = Verdict(allowed: bool, remaining: int, reset: int)

  /** `${keyPrefix}${key}`, with `keyPrefix` defaulting to "rl:". */
  function CounterKey(key: string, keyPrefix: Option<string>): (r: string)
    ensures |r| >= |key| && r[|r| - |key|..] == key
    ensures keyPrefix.None? ==> |r| >= 3 && r[..3] == DefaultPrefix
  {
    keyPrefix.GetOr(DefaultPrefix) + key
  }

  /** Under one prefix, different keys get different counters. */
  lemma CounterKeyInjective(a: string, b: string, keyPrefix: Option<string>)
    requires a != b
    ensures CounterKey(a, keyPrefix) != CounterKey(b, keyPrefix)
  {
    var p := keyPrefix.GetOr(DefaultPrefix);
    if |a| == |b| {
      assert (p + a)[|p|..] == a && (p + b)[|p|..] == b;
    }
  }

  /** The value of a counter, 0 when it is missing. */
  function CountOf(counters: map<string, Entry<int>>, k: string): int {
    if k in counters then counters[k].value else 0
  }

  /** The counters after one call on `k`: `INCR`, and `EXPIRE k ttl` only
      when the counter has just become 1. */
  function Bump(counters: map<string, Entry<int>>, k: string, ttl: int): (r: map<string, Entry<int>>)
    ensures forall j :: j != k ==> (j in r <==> j in counters) && (j in counters ==> r[j] == counters[j])
    ensures ttl > 0 ==> CountOf(r, k) == CountOf(counters, k) + 1
    ensures k in counters && counters[k].value != 0 ==>
              k in r && r[k] == Entry(counters[k].value + 1, counters[k].ttl)
    ensures ttl > 0 && CountOf(counters, k) == 0 ==> TtlOf(r, k) == ttl
  {
    var count := CountOf(counters, k) + 1;
    var incremented := counters[k := Entry(count, if k in counters then counters[k].ttl else NoExpiry)];
    if count == 1 then ExpireIn(incremented, k, ttl) else incremented
  }

  /** The verdict for a counter that has reached `count`. */
  function Decide(count: int, limit: int, reset: int): (v: Verdict)
    ensures v.allowed <==> count <= limit
    ensures v.remaining >= 0 && v.remaining >= limit - count
    ensures v.remaining == 0 || v.remaining == limit - count
    ensures v.reset == reset
  {
    var remaining := limit - count;
    Verdict(count <= limit, if remaining < 0 then 0 else remaining, reset)
  }

  /** `rateLimiter(key, { limit, ttl, keyPrefix })`. */
  method Check(cache: Cache, key: string, limit: int, ttl: int, keyPrefix: Option<string>)
    returns (v: Verdict)
    modifies cache
    ensures cache.json == old(cache.json) && cache.strings == old(cache.strings)
    ensures var k := CounterKey(key, keyPrefix);
            cache.counters == Bump(old(cache.counters), k, ttl)
            && v == Decide(CountOf(old(cache.counters), k) + 1, limit, TtlOf(cache.counters, k))
  {
    var redisKey := keyPrefix.GetOr(DefaultPrefix) + key;
    var current := cache.Incr(redisKey);
    if current == 1 {
      cache.ExpireCounter(redisKey, ttl);
    }
    var remaining := limit - current;
    var reset := cache.TtlCounter(redisKey);
    v := Verdict(current <= limit, if remaining < 0 then 0 else remaining, reset);
  }

  /** The counters after `n` calls on `k` with no expiry in between. */
  function Calls(counters: map<string, Entry<int>>, k: string, ttl: int, n: nat): map<string, Entry<int>>
    decreases n
  {
    if n == 0 then counters else Bump(Calls(counters, k, ttl, n - 1), k, ttl)
  }

  /** Starting from no counter, `n` calls leave the count at `n` and the
      lifetime the first call gave it: later calls do not extend the window. */
  lemma {:induction false} CallsCount(counters: map<string, Entry<int>>, k: string, ttl: int, n: nat)
    requires k !in counters && ttl > 0
    ensures CountOf(Calls(counters, k, ttl, n), k) == n
    ensures n >= 1 ==> TtlOf(Calls(counters, k, ttl, n), k) == ttl
  {
    if n > 0 {
      CallsCount(counters, k, ttl, n - 1);
    }
  }

  /** Within one window the `n`-th call is allowed exactly when `n` is at most
      the limit: the first `limit` calls pass and every later one is refused. */
  lemma WindowAdmitsLimit(counters: map<string, Entry<int>>, k: string, ttl: int, limit: int, n: nat)
    requires k !in counters && ttl > 0 && n >= 1
    ensures var before := Calls(counters, k, ttl, n - 1);
            Decide(CountOf(before, k) + 1, limit, TtlOf(Calls(counters, k, ttl, n), k))
              == Verdict(n <= limit, if n <= limit then limit - n else 0, ttl)
  {
    CallsCount(counters, k, ttl, n - 1);
    CallsCount(counters, k, ttl, n);
  }
}
