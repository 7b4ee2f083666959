/** `checkRateLimit`: a sorted set of request times per key, pruned at every call and dropped when it
    expires, against the full history of requests. Times are whole milliseconds. */
module SlidingWindow {
  import opened Options

  /** The members of the set are their own scores; the key is gone from `expiresAt` on. */
  datatype Bucket = Bucket(times: set<nat>, expiresAt: nat)

  const FRESH := Bucket({}, 0)

  function Max(a: int, b: int): int { if a > b then a else b }

  /** What is left of the set at time `now` after expiry and `zRemRangeByScore(0, now - window)`. */
  function Live(b: Bucket, now: nat, windowMs: nat): set<nat> {
    if now >= b.expiresAt then {} else set x | x in b.times && x > now - windowMs
  }

  datatype Verdict = Verdict(bucket: Bucket, count: nat, allowed: bool, remaining: int)

  /** One call: prune, count, add, expire. */
  function Check(b: Bucket, now: nat, maxRequests: nat, windowMs: nat): Verdict {
    var live := Live(b, now, windowMs);
    Verdict(Bucket(live + {now}, now + windowMs), |live|, |live| < maxRequests, Max(0, maxRequests - |live| - 1))
  }

  // ---------------------------------------------------------------- against the full history

  predicate Ordered(times: seq<nat>) {
    |times| <= 1 || (Ordered(times[..|times| - 1]) && times[|times| - 2] <= times[|times| - 1])
  }

  /** The bucket after requests at the given times. */
  function After(times: seq<nat>, maxRequests: nat, windowMs: nat): Bucket {
    if times == [] then FRESH
    else
      var n := |times| - 1;
      Check(After(times[..n], maxRequests, windowMs), times[n], maxRequests, windowMs).bucket
  }

  /** The distinct milliseconds of earlier requests in (now - window, now]. */
  function Recent(times: seq<nat>, now: nat, windowMs: nat): set<nat> {
    set x | x in times && now - windowMs < x <= now
  }

  lemma {:induction false} NoneLater(times: seq<nat>)
    requires Ordered(times) && times != []
    ensures forall x | x in times :: x <= times[|times| - 1]
  {
    if |times| > 1 {
      NoneLater(times[..|times| - 1]);
      assert times == times[..|times| - 1] + [times[|times| - 1]];
    }
  }

  /** The pruned, expiring set is at every later moment exactly the recent requests. */
  lemma {:induction false} LiveIsRecent(times: seq<nat>, now: nat, maxRequests: nat, windowMs: nat)
    requires Ordered(times) && (times != [] ==> times[|times| - 1] <= now)
    ensures Live(After(times, maxRequests, windowMs), now, windowMs) == Recent(times, now, windowMs)
  {
    if times != [] {
      var n := |times| - 1;
      var last := times[n];
      NoneLater(times);
      LiveIsRecent(times[..n], last, maxRequests, windowMs);
      assert times == times[..n] + [last];
    }
  }

  /** So every call counts, without knowing it, the distinct milliseconds of the full history that
      lie in its window, and decides by them. */
  lemma CountIsHistory(times: seq<nat>, now: nat, maxRequests: nat, windowMs: nat)
    requires Ordered(times + [now])
    ensures var v := Check(After(times, maxRequests, windowMs), now, maxRequests, windowMs);
      && v.count == |Recent(times, now, windowMs)|
      && (v.allowed <==> |Recent(times, now, windowMs)| < maxRequests)
      && (v.allowed ==> v.remaining == maxRequests - |Recent(times, now, windowMs)| - 1)
      && (!v.allowed ==> v.remaining == 0)
  {
    assert (times + [now])[..|times|] == times;
    LiveIsRecent(times, now, maxRequests, windowMs);
  }

  /** The milliseconds with an allowed request. */
  function Allowed(times: seq<nat>, maxRequests: nat, windowMs: nat): set<nat> {
    if times == [] then {}
    else
      var n := |times| - 1;
      Allowed(times[..n], maxRequests, windowMs)
      + if Check(After(times[..n], maxRequests, windowMs), times[n], maxRequests, windowMs).allowed
        then {times[n]} else {}
  }

  function Within(times: set<nat>, x: int, windowMs: nat): set<nat> { set m | m in times && x < m <= x + windowMs }

  lemma {:induction false} AllowedInHistory(times: seq<nat>, maxRequests: nat, windowMs: nat)
    ensures forall m | m in Allowed(times, maxRequests, windowMs) :: m in times
  {
    if times != [] {
      var n := |times| - 1;
      AllowedInHistory(times[..n], maxRequests, windowMs);
    }
  }

  lemma SubsetSize(a: set<nat>, b: set<nat>)
    requires a <= b
    ensures |a| <= |b|
  {
    assert b == a + (b - a);
  }

  lemma WithinAdd(a: set<nat>, t: nat, x: int, windowMs: nat)
    ensures Within(a + {t}, x, windowMs) == Within(a, x, windowMs) + if x < t <= x + windowMs then {t} else {}
  {
  }

  /** An allowed request and everything allowed before it in one window. */
  lemma LastAllowed(before: seq<nat>, t: nat, x: int, maxRequests: nat, windowMs: nat)
    requires Ordered(before + [t]) && x < t <= x + windowMs
    requires Check(After(before, maxRequests, windowMs), t, maxRequests, windowMs).allowed
    ensures |Within(Allowed(before, maxRequests, windowMs), x, windowMs) + {t}| <= maxRequests
  {
    var recent := Recent(before, t, windowMs);
    var all := Within(Allowed(before, maxRequests, windowMs), x, windowMs);
    CountIsHistory(before, t, maxRequests, windowMs);
    AllowedInHistory(before, maxRequests, windowMs);
    NoneLater(before + [t]);
    forall m | m in all ensures m in recent {
      assert m in before + [t];
    }
    SubsetSize(all, recent);
  }

  /** No window of the given length, wherever it is laid, holds more than maxRequests distinct
      milliseconds with an allowed request. */
  lemma {:induction false} AtMostMaxPerWindow(times: seq<nat>, x: int, maxRequests: nat, windowMs: nat)
    requires Ordered(times)
    ensures |Within(Allowed(times, maxRequests, windowMs), x, windowMs)| <= maxRequests
  {
    if times != [] {
      var n := |times| - 1;
      var before, t := times[..n], times[n];
      AtMostMaxPerWindow(before, x, maxRequests, windowMs);
      assert before + [t] == times;
      if Check(After(before, maxRequests, windowMs), t, maxRequests, windowMs).allowed {
        WithinAdd(Allowed(before, maxRequests, windowMs), t, x, windowMs);
        if x < t <= x + windowMs { LastAllowed(before, t, x, maxRequests, windowMs); }
      } else {
        assert Allowed(times, maxRequests, windowMs) == Allowed(before, maxRequests, windowMs);
      }
    }
  }

  // ---------------------------------------------------------------- requests, not milliseconds

  /** How many of the requests in a window were allowed. */
  function AllowedRequests(times: seq<nat>, x: int, maxRequests: nat, windowMs: nat): nat {
    if times == [] then 0
    else
      var n := |times| - 1;
      AllowedRequests(times[..n], x, maxRequests, windowMs)
      + if x < times[n] <= x + windowMs
           && Check(After(times[..n], maxRequests, windowMs), times[n], maxRequests, windowMs).allowed then 1 else 0
  }

  predicate Increasing(times: seq<nat>) {
    |times| <= 1 || (Increasing(times[..|times| - 1]) && times[|times| - 2] < times[|times| - 1])
  }

  lemma {:induction false} IncreasingIsOrdered(times: seq<nat>)
    requires Increasing(times)
    ensures Ordered(times)
    ensures forall i | 0 <= i < |times| - 1 :: times[i] < times[|times| - 1]
  {
    if |times| > 1 {
      var before := times[..|times| - 1];
      IncreasingIsOrdered(before);
      assert forall i | 0 <= i < |before| :: before[i] == times[i];
    }
  }

  /** With no two requests in one millisecond the allowed requests are as many as their milliseconds. */
  lemma {:induction false} OneRequestEach(times: seq<nat>, x: int, maxRequests: nat, windowMs: nat)
    requires Increasing(times)
    ensures AllowedRequests(times, x, maxRequests, windowMs)
         == |Within(Allowed(times, maxRequests, windowMs), x, windowMs)|
  {
    if times != [] {
      var n := |times| - 1;
      var before, t := times[..n], times[n];
      OneRequestEach(before, x, maxRequests, windowMs);
      IncreasingIsOrdered(times);
      AllowedInHistory(before, maxRequests, windowMs);
      WithinAdd(Allowed(before, maxRequests, windowMs), t, x, windowMs);
      assert t !in Within(Allowed(before, maxRequests, windowMs), x, windowMs);
      if !Check(After(before, maxRequests, windowMs), t, maxRequests, windowMs).allowed {
        assert Allowed(times, maxRequests, windowMs) == Allowed(before, maxRequests, windowMs);
      }
    }
  }

  /** So then no window holds more than maxRequests allowed requests. */
  lemma AtMostMaxRequests(times: seq<nat>, x: int, maxRequests: nat, windowMs: nat)
    requires Increasing(times)
    ensures AllowedRequests(times, x, maxRequests, windowMs) <= maxRequests
  {
    IncreasingIsOrdered(times);
    OneRequestEach(times, x, maxRequests, windowMs);
    AtMostMaxPerWindow(times, x, maxRequests, windowMs);
  }

  /** But requests in the same millisecond are one member of the set: any number of them is allowed
      where two are. */
  lemma {:induction false} OneMillisecondIsUnlimited(n: nat, t: nat, maxRequests: nat, windowMs: nat)
    requires maxRequests >= 2 && windowMs >= 1
    ensures Live(After(seq(n, _ => t), maxRequests, windowMs), t, windowMs) == if n == 0 then {} else {t}
    ensures AllowedRequests(seq(n, _ => t), t - 1, maxRequests, windowMs) == n
  {
    if n > 0 {
      OneMillisecondIsUnlimited(n - 1, t, maxRequests, windowMs);
      assert seq(n, _ => t)[..n - 1] == seq(n - 1, _ => t);
    }
  }

  // ---------------------------------------------------------------- many keys

  /** A call of `checkRateLimit`: whose it is, its limits, when it runs, and how the database answers. */
  datatype Call = Call(key: string, maxRequests: nat, windowSeconds: nat, now: nat, outcome: Outcome)

  /** The buckets after one call, and its answer. If the call fails, the request is let through. */
  function Serve(buckets: map<string, Bucket>, c: Call): (map<string, Bucket>, bool, int) {
    var v := Check(if c.key in buckets then buckets[c.key] else FRESH, c.now, c.maxRequests, c.windowSeconds * 1000);
    (if c.outcome == Failed then buckets else buckets[c.key := v.bucket],
     c.outcome != Done || v.allowed,
     if c.outcome == Done then v.remaining else c.maxRequests)
  }

  /** The buckets after calls one after another, from an empty database. */
  function Served(calls: seq<Call>): map<string, Bucket> {
    if calls == [] then map[] else Serve(Served(calls[..|calls| - 1]), calls[|calls| - 1]).0
  }

  /** The times of the calls for one key that reached the database. */
  function TimesOf(calls: seq<Call>, key: string): seq<nat> {
    if calls == [] then []
    else
      var before, c := TimesOf(calls[..|calls| - 1], key), calls[|calls| - 1];
      if c.key == key && c.outcome != Failed then before + [c.now] else before
  }

  /** The clock does not go back, and every key keeps its window. */
  predicate Steady(calls: seq<Call>, windowOf: string -> nat) {
    calls == [] ||
    var n := |calls| - 1;
    && Steady(calls[..n], windowOf) && (n > 0 ==> calls[n - 1].now <= calls[n].now)
    && calls[n].windowSeconds == windowOf(calls[n].key)
  }

  /** The calls so far were made by `now`, in order. */
  predicate OrderedBy(times: seq<nat>, now: nat) { Ordered(times) && (times != [] ==> times[|times| - 1] <= now) }

  lemma OneMore(times: seq<nat>, t: nat, maxRequests: nat, windowMs: nat)
    ensures After(times + [t], maxRequests, windowMs)
         == Check(After(times, maxRequests, windowMs), t, maxRequests, windowMs).bucket
    ensures OrderedBy(times, t) ==> OrderedBy(times + [t], t)
  {
    assert (times + [t])[..|times|] == times;
  }

  /** What one call does to a bucket. */
  lemma ServeBucket(buckets: map<string, Bucket>, c: Call, key: string, maxRequests: nat)
    ensures var buckets' := Serve(buckets, c).0;
      var before := if key in buckets then buckets[key] else FRESH;
      if c.key == key && c.outcome != Failed
      then key in buckets' && buckets'[key] == Check(before, c.now, maxRequests, c.windowSeconds * 1000).bucket
      else (key in buckets' <==> key in buckets) && (key in buckets ==> buckets'[key] == buckets[key])
  {
  }

  /** Each key's bucket is what its own calls have made of it, whatever calls lie in between. */
  lemma {:induction false} BucketIsOwn(calls: seq<Call>, windowOf: string -> nat, key: string, maxRequests: nat)
    requires Steady(calls, windowOf)
    ensures (if key in Served(calls) then Served(calls)[key] else FRESH)
         == After(TimesOf(calls, key), maxRequests, windowOf(key) * 1000)
  {
    if calls != [] {
      var n := |calls| - 1;
      BucketIsOwn(calls[..n], windowOf, key, maxRequests);
      ServeBucket(Served(calls[..n]), calls[n], key, maxRequests);
      OneMore(TimesOf(calls[..n], key), calls[n].now, maxRequests, windowOf(key) * 1000);
    }
  }

  lemma {:induction false} TimesOrdered(calls: seq<Call>, windowOf: string -> nat, key: string, now: nat)
    requires Steady(calls, windowOf) && (calls != [] ==> calls[|calls| - 1].now <= now)
    ensures OrderedBy(TimesOf(calls, key), now)
  {
    if calls != [] {
      var n := |calls| - 1;
      TimesOrdered(calls[..n], windowOf, key, calls[n].now);
      OneMore(TimesOf(calls[..n], key), calls[n].now, 0, 0);
    }
  }

  /** In any sequence of calls over any keys, each call that goes through is answered by the history of
      its own key alone: allowed exactly if fewer than the limit of distinct milliseconds of earlier
      calls lie in its window, and told how many are left. One that fails is let through. */
  lemma AnswerIsHistory(calls: seq<Call>, c: Call, windowOf: string -> nat)
    requires Steady(calls + [c], windowOf)
    ensures var (buckets, allowed, remaining) := Serve(Served(calls), c);
      var recent := Recent(TimesOf(calls, c.key), c.now, windowOf(c.key) * 1000);
      && (c.outcome == Done ==>
            && (allowed <==> |recent| < c.maxRequests)
            && remaining == if allowed then c.maxRequests - |recent| - 1 else 0)
      && (c.outcome != Done ==> allowed && remaining == c.maxRequests)
      && buckets == Served(calls + [c])
      && forall other | other != c.key :: (other in buckets <==> other in Served(calls))
           && (other in buckets ==> buckets[other] == Served(calls)[other])
  {
    var times, windowMs := TimesOf(calls, c.key), windowOf(c.key) * 1000;
    assert (calls + [c])[..|calls|] == calls;
    BucketIsOwn(calls, windowOf, c.key, c.maxRequests);
    TimesOrdered(calls, windowOf, c.key, c.now);
    LiveIsRecent(times, c.now, c.maxRequests, windowMs);
  }

  // ---------------------------------------------------------------- the service

  class CacheService {
    var buckets: map<string, Bucket>

    constructor ()
      ensures buckets == Served([])
    {
      buckets := map[];
    }

    /** The four commands of one MULTI; other keys are not touched. If the call fails, the request is
        let through. */
    method CheckRateLimit(key: string, maxRequests: nat, windowSeconds: nat, now: nat, outcome: Outcome)
      returns (allowed: bool, remaining: int)
      modifies this
      ensures (buckets, allowed, remaining)
           == Serve(old(buckets), Call(key, maxRequests, windowSeconds, now, outcome))
      ensures outcome != Failed ==>
        key in buckets && buckets[key].expiresAt == now + windowSeconds * 1000 && now in buckets[key].times
    {
      if outcome == Failed {
        return true, maxRequests;
      }
      var windowMs := windowSeconds * 1000;
      var stored := if key in buckets && now < buckets[key].expiresAt then buckets[key].times else {};
      var pruned := set x | x in stored && x > now - windowMs;
      var count := |pruned|;
      assert pruned == Live(if key in buckets then buckets[key] else FRESH, now, windowMs);
      buckets := buckets[key := Bucket(pruned + {now}, now + windowMs)];
      if outcome == FailedAfter {
        return true, maxRequests;
      }
      allowed := count < maxRequests;
      remaining := if maxRequests - count - 1 > 0 then maxRequests - count - 1 else 0;
    }
  }
}
