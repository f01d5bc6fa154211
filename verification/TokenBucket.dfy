/** The server's token bucket, kept in a store that forgets idle keys, over real numbers. */
module TokenBucket {
  import opened Protocol

  /** The source falls back to defaults for missing or zero settings. */
  datatype Limits = Limits(capacity: nat, refill: real)
  {
    ghost predicate Valid() {
      1 <= capacity && 0.0 < refill
    }
  }

  /** Times are milliseconds of the store's clock. */
  datatype Bucket = Bucket(tokens: real, updated: int)

  datatype Reply = Allowed | Denied(retryAfter: int)

  function Min(a: real, b: real): real {
    if a <= b then a else b
  }

  function Ceil(x: real): (n: int)
    ensures x <= n as real < x + 1.0
  {
    -((-x).Floor)
  }

  function Elapsed(b: Bucket, now: int): real {
    if b.updated < now then (now - b.updated) as real / 1000.0 else 0.0
  }

  /** What the bucket holds when a request comes in; a missing bucket counts as a full one. */
  function Filled(p: Limits, b: Option<Bucket>, now: int): real {
    if b.None? then p.capacity as real else Min(p.capacity as real, b.value.tokens + Elapsed(b.value, now) * p.refill)
  }

  function Ask(p: Limits, b: Option<Bucket>, now: int): (Reply, Bucket)
    requires p.refill != 0.0
  {
    var tokens := Filled(p, b, now);
    if 1.0 <= tokens then (Allowed, Bucket(tokens - 1.0, now))
    else
      var wait := Ceil((1.0 - tokens) / p.refill);
      (Denied(if wait < 1 then 1 else wait), Bucket(tokens, now))
  }

  /** Seconds until the store forgets a bucket nobody asked for. */
  function Ttl(p: Limits): int
    requires p.refill != 0.0
  {
    var ttl := Ceil(p.capacity as real / p.refill * 2.0);
    if ttl < 1 then 1 else ttl
  }

  ghost predicate InRange(p: Limits, b: Option<Bucket>) {
    b.Some? ==> 0.0 <= b.value.tokens <= p.capacity as real
  }

  lemma AskKeepsRange(p: Limits, b: Option<Bucket>, now: int)
    requires p.Valid() && InRange(p, b)
    ensures InRange(p, Some(Ask(p, b, now).1)) && Ask(p, b, now).1.updated == now
    ensures 0.0 <= Filled(p, b, now) <= p.capacity as real
  {
  }

  // ------------------------------------------------------------ a stream of requests

  ghost predicate Monotone(times: seq<int>) {
    forall i, j :: 0 <= i < j < |times| ==> times[i] <= times[j]
  }

  /** The bucket after the first k requests, were it never forgotten. */
  function After(p: Limits, b: Option<Bucket>, times: seq<int>, k: nat): Option<Bucket>
    requires p.refill != 0.0 && k <= |times|
  {
    if k == 0 then b else Some(Ask(p, After(p, b, times, k - 1), times[k - 1]).1)
  }

  function ReplyAt(p: Limits, b: Option<Bucket>, times: seq<int>, k: nat): Reply
    requires p.refill != 0.0 && k < |times|
  {
    Ask(p, After(p, b, times, k), times[k]).0
  }

  /** How many of the requests i to j - 1 were admitted. */
  function Admitted(p: Limits, b: Option<Bucket>, times: seq<int>, i: nat, j: nat): nat
    requires p.refill != 0.0 && i <= j <= |times|
    decreases j - i
  {
    if i == j then 0
    else Admitted(p, b, times, i, j - 1) + if ReplyAt(p, b, times, j - 1).Allowed? then 1 else 0
  }

  lemma {:induction false} StaysInRange(p: Limits, b: Option<Bucket>, times: seq<int>, k: nat)
    requires p.Valid() && InRange(p, b) && k <= |times|
    ensures InRange(p, After(p, b, times, k))
  {
    if k > 0 {
      StaysInRange(p, b, times, k - 1);
      AskKeepsRange(p, After(p, b, times, k - 1), times[k - 1]);
    }
  }

  function Count(r: Reply): nat {
    if r.Allowed? then 1 else 0
  }

  lemma Spends(p: Limits, b: Option<Bucket>, now: int)
    requires p.Valid() && InRange(p, b)
    ensures Ask(p, b, now).1.tokens + Count(Ask(p, b, now).0) as real == Filled(p, b, now) <= p.capacity as real
    ensures b.Some? ==> Filled(p, b, now) <= b.value.tokens + Earned(p, Ahead(b.value.updated, now))
  {
  }

  /** How far the clock moves forward. */
  function Ahead(from: int, to: int): nat {
    if from < to then to - from else 0
  }

  /** How far the clock moves forward, in all, between requests i and j - 1; a step back counts as nothing. */
  function Forward(times: seq<int>, i: nat, j: nat): nat
    requires i < j <= |times|
    decreases j - i
  {
    if j == i + 1 then 0 else Forward(times, i, j - 1) + Ahead(times[j - 2], times[j - 1])
  }

  function Backward(times: seq<int>, i: nat, j: nat): nat
    requires i < j <= |times|
    decreases j - i
  {
    if j == i + 1 then 0 else Backward(times, i, j - 1) + Ahead(times[j - 1], times[j - 2])
  }

  function Earned(p: Limits, milliseconds: int): real {
    milliseconds as real / 1000.0 * p.refill
  }

  lemma EarnedAdds(p: Limits, a: int, b: int)
    ensures Earned(p, a) + Earned(p, b) == Earned(p, a + b)
    ensures Earned(p, 0) == 0.0
  {
    assert a as real / 1000.0 + b as real / 1000.0 == (a + b) as real / 1000.0;
  }

  lemma Chain(before: real, admitted: nat, cap: real, earned: real, gain: real, total: real, filled: real, after: real, spent: nat)
    requires before + admitted as real <= cap + earned
    requires filled <= before + gain && after + spent as real == filled && earned + gain == total
    ensures after + (admitted + spent) as real <= cap + total
  {
  }

  /** Every token spent in the window was in the full bucket or was earned while the clock moved forward. */
  lemma {:induction false} TokensBalance(p: Limits, b: Option<Bucket>, times: seq<int>, i: nat, j: nat)
    requires p.Valid() && InRange(p, b) && i < j <= |times|
    ensures After(p, b, times, j).value.updated == times[j - 1]
    ensures After(p, b, times, j).value.tokens + Admitted(p, b, times, i, j) as real
              <= p.capacity as real + Earned(p, Forward(times, i, j))
    decreases j - i
  {
    var seen := After(p, b, times, j - 1);
    StaysInRange(p, b, times, j - 1);
    Spends(p, seen, times[j - 1]);
    var after, reply := After(p, b, times, j).value.tokens, ReplyAt(p, b, times, j - 1);
    if j == i + 1 {
      assert Admitted(p, b, times, i, j) == Count(reply);
      EarnedAdds(p, 0, 0);
    } else {
      TokensBalance(p, b, times, i, j - 1);
      EarnedAdds(p, Forward(times, i, j - 1), Ahead(times[j - 2], times[j - 1]));
      Chain(seen.value.tokens, Admitted(p, b, times, i, j - 1), p.capacity as real, Earned(p, Forward(times, i, j - 1)),
            Earned(p, Ahead(times[j - 2], times[j - 1])), Earned(p, Forward(times, i, j)), Filled(p, seen, times[j - 1]),
            after, Count(reply));
    }
  }

  lemma {:induction false} ForwardAndBackward(times: seq<int>, i: nat, j: nat)
    requires i < j <= |times|
    ensures Forward(times, i, j) == times[j - 1] - times[i] + Backward(times, i, j)
    ensures Monotone(times) ==> Backward(times, i, j) == 0
    decreases j - i
  {
    if j > i + 1 {
      ForwardAndBackward(times, i, j - 1);
    }
  }

  /**
    Whatever the clock does, a window of requests admits at most the capacity and what the clock's
    forward movement refills: what passed between its ends, and every step back once more.
   */
  lemma WindowBoundForAnyClock(p: Limits, b: Option<Bucket>, times: seq<int>, i: nat, j: nat)
    requires p.Valid() && InRange(p, b) && i < j <= |times|
    ensures Admitted(p, b, times, i, j) as real <= p.capacity as real + Earned(p, Forward(times, i, j))
    ensures Earned(p, Forward(times, i, j)) == Earned(p, times[j - 1] - times[i]) + Earned(p, Backward(times, i, j))
  {
    TokensBalance(p, b, times, i, j);
    StaysInRange(p, b, times, j);
    ForwardAndBackward(times, i, j);
    EarnedAdds(p, times[j - 1] - times[i], Backward(times, i, j));
  }

  /** With a clock that never steps back, a window of requests admits at most the capacity and what it refills. */
  lemma WindowBound(p: Limits, b: Option<Bucket>, times: seq<int>, i: nat, j: nat)
    requires p.Valid() && InRange(p, b) && Monotone(times) && i < j <= |times|
    ensures Admitted(p, b, times, i, j) as real <= p.capacity as real + Earned(p, times[j - 1] - times[i])
  {
    WindowBoundForAnyClock(p, b, times, i, j);
    ForwardAndBackward(times, i, j);
  }

  lemma Balanced(before: real, admitted: nat, start: real, earned: real, gain: real, total: real, filled: real, after: real, spent: nat)
    requires before + admitted as real == start + earned
    requires filled == before + gain && after + spent as real == filled && earned + gain == total
    ensures after + (admitted + spent) as real == start + total
  {
  }

  /** No request finds the bucket full. */
  ghost predicate NeverFull(p: Limits, b: Bucket, times: seq<int>, j: nat)
    requires p.refill != 0.0 && j <= |times|
  {
    forall k {:trigger times[k]} :: 0 <= k < j ==> Filled(p, After(p, Some(b), times, k), times[k]) < p.capacity as real
  }

  /** How far the clock moves forward from the bucket's last request to request j - 1. */
  function Since(b: Bucket, times: seq<int>, j: nat): nat
    requires 0 < j <= |times|
  {
    Ahead(b.updated, times[0]) + Forward(times, 0, j)
  }

  /** While no request finds the bucket full, not a fraction of a token is lost: what is left was there or was earned, and not spent. */
  lemma {:induction false} NothingIsLost(p: Limits, b: Bucket, times: seq<int>, j: nat)
    requires p.Valid() && InRange(p, Some(b)) && 0 < j <= |times| && NeverFull(p, b, times, j)
    ensures After(p, Some(b), times, j).value.tokens + Admitted(p, Some(b), times, 0, j) as real == b.tokens + Earned(p, Since(b, times, j))
    decreases j
  {
    if j == 1 {
      Spends(p, Some(b), times[0]);
      FillsExactly(p, b, times[0]);
      assert Admitted(p, Some(b), times, 0, 1) == Count(ReplyAt(p, Some(b), times, 0));
    } else {
      NothingIsLost(p, b, times, j - 1);
      StaysInRange(p, Some(b), times, j - 1);
      TokensBalance(p, Some(b), times, 0, j - 1);
      LosesNothing(p, b, times, j, After(p, Some(b), times, j - 1).value);
    }
  }

  lemma LosesNothing(p: Limits, b: Bucket, times: seq<int>, j: nat, seen: Bucket)
    requires p.Valid() && 1 < j <= |times| && NeverFull(p, b, times, j)
    requires After(p, Some(b), times, j - 1) == Some(seen) && InRange(p, Some(seen)) && seen.updated == times[j - 2]
    requires seen.tokens + Admitted(p, Some(b), times, 0, j - 1) as real == b.tokens + Earned(p, Since(b, times, j - 1))
    ensures After(p, Some(b), times, j).value.tokens + Admitted(p, Some(b), times, 0, j) as real == b.tokens + Earned(p, Since(b, times, j))
  {
    var now, gain := times[j - 1], Ahead(times[j - 2], times[j - 1]);
    FillsExactly(p, seen, now);
    Spends(p, Some(seen), now);
    EarnedAdds(p, Since(b, times, j - 1), gain);
    Balanced(seen.tokens, Admitted(p, Some(b), times, 0, j - 1), b.tokens, Earned(p, Since(b, times, j - 1)), Earned(p, gain),
             Earned(p, Since(b, times, j)), Filled(p, Some(seen), now), Ask(p, Some(seen), now).1.tokens, Count(Ask(p, Some(seen), now).0));
  }

  lemma FillsExactly(p: Limits, b: Bucket, now: int)
    requires p.Valid() && Filled(p, Some(b), now) < p.capacity as real
    ensures Filled(p, Some(b), now) == b.tokens + Earned(p, Ahead(b.updated, now))
  {
    EarnedAdds(p, 0, 0);
  }

  /** The bound is met: from a full bucket a burst gets exactly the capacity through, and the next request waits. */
  lemma {:induction false} BurstIsCapacity(p: Limits, times: seq<int>, k: nat)
    requires p.Valid() && k <= |times| && (forall i :: 0 <= i < |times| ==> times[i] == times[0])
    ensures Admitted(p, None, times, 0, k) == if k <= p.capacity then k else p.capacity
    ensures k > 0 ==> After(p, None, times, k) == Some(Bucket((if k <= p.capacity then p.capacity - k else 0) as real, times[0]))
  {
    if k > 0 {
      BurstIsCapacity(p, times, k - 1);
    }
  }

  // ------------------------------------------------------------ waiting

  lemma CeilDivides(x: real, rate: real, n: int)
    requires 0.0 < rate && x / rate <= n as real
    ensures x <= n as real * rate
  {
    assert x == x / rate * rate;
  }

  lemma CeilTight(x: real, rate: real, n: int)
    requires 0.0 < rate && n as real < x / rate
    ensures n as real * rate < x
  {
    assert x == x / rate * rate;
  }

  lemma ElapsedSeconds(b: Bucket, now: int, later: int, seconds: int)
    requires b.updated == now && 0 <= seconds && now + seconds * 1000 <= later
    ensures seconds as real <= Elapsed(b, later)
    ensures later == now + seconds * 1000 ==> Elapsed(b, later) == seconds as real
  {
    assert seconds as real <= (later - now) as real / 1000.0;
  }

  lemma Multiplies(a: real, b: real, rate: real)
    requires a <= b && 0.0 < rate
    ensures a * rate <= b * rate
  {
  }

  /** Waiting long enough for what is missing up to a level fills the bucket to that level. */
  lemma WaitFills(p: Limits, b: Bucket, now: int, later: int, seconds: int, level: real)
    requires p.Valid() && b.updated == now && 0 <= seconds && now + seconds * 1000 <= later
    requires level <= p.capacity as real && level - b.tokens <= seconds as real * p.refill
    ensures level <= Filled(p, Some(b), later)
  {
    ElapsedSeconds(b, now, later, seconds);
    Multiplies(seconds as real, Elapsed(b, later), p.refill);
  }

  lemma WaitFallsShort(p: Limits, b: Bucket, now: int, seconds: int)
    requires p.Valid() && b.updated == now && 0 <= seconds && seconds as real * p.refill < 1.0 - b.tokens
    ensures Filled(p, Some(b), now + seconds * 1000) < 1.0
  {
    var later := now + seconds * 1000;
    ElapsedSeconds(b, now, later, seconds);
    Multiplies(Elapsed(b, later), seconds as real, p.refill);
    assert Filled(p, Some(b), later) <= b.tokens + Elapsed(b, later) * p.refill;
  }

  lemma AllowedIff(p: Limits, b: Option<Bucket>, now: int)
    requires p.Valid()
    ensures Ask(p, b, now).0.Allowed? <==> 1.0 <= Filled(p, b, now)
  {
  }

  /** What a refused request is told, and what it leaves. */
  lemma DeniedFacts(p: Limits, b: Option<Bucket>, now: int, reply: Reply, next: Bucket)
    requires p.Valid() && InRange(p, b) && Ask(p, b, now) == (reply, next) && reply.Denied?
    ensures next.updated == now && 0.0 <= next.tokens < 1.0 && 1 <= reply.retryAfter
    ensures (1.0 - next.tokens) / p.refill <= reply.retryAfter as real
    ensures 1 < reply.retryAfter ==> (reply.retryAfter - 1) as real < (1.0 - next.tokens) / p.refill
  {
    AskKeepsRange(p, b, now);
  }

  /** After the seconds it was told to wait, a request that nobody else's came before is admitted. */
  lemma RetryAfterIsEnough(p: Limits, b: Option<Bucket>, now: int, later: int)
    requires p.Valid() && InRange(p, b) && Ask(p, b, now).0.Denied?
    requires now + Ask(p, b, now).0.retryAfter * 1000 <= later
    ensures Ask(p, Some(Ask(p, b, now).1), later).0.Allowed?
  {
    var (reply, next) := Ask(p, b, now);
    DeniedFacts(p, b, now, reply, next);
    CeilDivides(1.0 - next.tokens, p.refill, reply.retryAfter);
    WaitFills(p, next, now, later, reply.retryAfter, 1.0);
    AllowedIff(p, Some(next), later);
  }

  /** A second less, when there is a second to spare, would not have been enough. */
  lemma RetryAfterIsTight(p: Limits, b: Option<Bucket>, now: int)
    requires p.Valid() && InRange(p, b) && Ask(p, b, now).0.Denied? && 1 < Ask(p, b, now).0.retryAfter
    ensures Ask(p, Some(Ask(p, b, now).1), now + (Ask(p, b, now).0.retryAfter - 1) * 1000).0.Denied?
  {
    var (reply, next) := Ask(p, b, now);
    DeniedFacts(p, b, now, reply, next);
    CeilTight(1.0 - next.tokens, p.refill, reply.retryAfter - 1);
    WaitFallsShort(p, next, now, reply.retryAfter - 1);
    AllowedIff(p, Some(next), now + (reply.retryAfter - 1) * 1000);
  }

  // ------------------------------------------------------------ forgetting

  lemma Doubles(a: real, rate: real)
    requires 0.0 < rate
    ensures a / rate * 2.0 == a * 2.0 / rate
  {
  }

  /** A key lives twice as long as an empty bucket takes to fill, in whole seconds and at least one, and no second longer. */
  lemma TtlIsLeast(p: Limits)
    requires p.Valid()
    ensures 1 <= Ttl(p) && 2.0 * p.capacity as real <= Ttl(p) as real * p.refill
    ensures 1 < Ttl(p) ==> (Ttl(p) - 1) as real * p.refill < 2.0 * p.capacity as real
  {
    var x := p.capacity as real * 2.0;
    Doubles(p.capacity as real, p.refill);
    CeilDivides(x, p.refill, Ttl(p));
    if 1 < Ttl(p) {
      CeilTight(x, p.refill, Ttl(p) - 1);
    }
  }

  lemma TtlFills(p: Limits)
    requires p.Valid()
    ensures p.capacity as real <= Ttl(p) as real * p.refill
  {
    TtlIsLeast(p);
  }

  lemma SameFillSameAnswer(p: Limits, a: Option<Bucket>, b: Option<Bucket>, now: int)
    requires p.Valid() && Filled(p, a, now) == Filled(p, b, now)
    ensures Ask(p, a, now) == Ask(p, b, now)
  {
  }

  /** Once its key may expire, a bucket is full again: asking it and asking a missing one are the same. */
  lemma ExpiredIsFull(p: Limits, b: Bucket, now: int)
    requires p.Valid() && InRange(p, Some(b)) && b.updated + Ttl(p) * 1000 <= now
    ensures Ask(p, None, now) == Ask(p, Some(b), now)
  {
    TtlFills(p);
    WaitFills(p, b, b.updated, now, Ttl(p), p.capacity as real);
    SameFillSameAnswer(p, None, Some(b), now);
  }

  /** The store at work: `gone[k]` says that request k finds no key. */
  function StoreAfter(p: Limits, b: Option<Bucket>, times: seq<int>, gone: seq<bool>, k: nat): Option<Bucket>
    requires p.refill != 0.0 && k <= |times| == |gone|
  {
    if k == 0 then b
    else Some(Ask(p, if gone[k - 1] then None else StoreAfter(p, b, times, gone, k - 1), times[k - 1]).1)
  }

  function StoreReply(p: Limits, b: Option<Bucket>, times: seq<int>, gone: seq<bool>, k: nat): Reply
    requires p.refill != 0.0 && k < |times| == |gone|
  {
    Ask(p, if gone[k] then None else StoreAfter(p, b, times, gone, k), times[k]).0
  }

  /** A key is never gone before its time to live is over, counted from the last request. */
  ghost predicate ExpiresOnTime(p: Limits, b: Option<Bucket>, times: seq<int>, gone: seq<bool>)
    requires p.refill != 0.0 && |times| == |gone|
  {
    forall k {:trigger gone[k]} :: 0 <= k < |times| && gone[k] ==>
      var seen := StoreAfter(p, b, times, gone, k);
      seen.None? || seen.value.updated + Ttl(p) * 1000 <= times[k]
  }

  /** No stream of requests can tell a store that forgets idle buckets from one that keeps them for ever. */
  lemma ExpiryIsUnseen(p: Limits, b: Option<Bucket>, times: seq<int>, gone: seq<bool>, k: nat)
    requires p.Valid() && InRange(p, b) && |times| == |gone| && ExpiresOnTime(p, b, times, gone) && k < |times|
    ensures StoreReply(p, b, times, gone, k) == ReplyAt(p, b, times, k)
  {
    StoreMatches(p, b, times, gone, k);
    SameAnswer(p, b, times, gone, k);
  }

  lemma {:induction false} StoreMatches(p: Limits, b: Option<Bucket>, times: seq<int>, gone: seq<bool>, k: nat)
    requires p.Valid() && InRange(p, b) && |times| == |gone| && ExpiresOnTime(p, b, times, gone) && k <= |times|
    ensures StoreAfter(p, b, times, gone, k) == After(p, b, times, k)
  {
    if k > 0 {
      StoreMatches(p, b, times, gone, k - 1);
      StoreStep(p, b, times, gone, k - 1);
    }
  }

  lemma StoreStep(p: Limits, b: Option<Bucket>, times: seq<int>, gone: seq<bool>, k: nat)
    requires p.Valid() && InRange(p, b) && |times| == |gone| && ExpiresOnTime(p, b, times, gone) && k < |times|
    requires StoreAfter(p, b, times, gone, k) == After(p, b, times, k)
    ensures StoreAfter(p, b, times, gone, k + 1) == After(p, b, times, k + 1)
  {
    SameAnswer(p, b, times, gone, k);
  }

  lemma SameAnswer(p: Limits, b: Option<Bucket>, times: seq<int>, gone: seq<bool>, k: nat)
    requires p.Valid() && InRange(p, b) && |times| == |gone| && ExpiresOnTime(p, b, times, gone) && k < |times|
    requires StoreAfter(p, b, times, gone, k) == After(p, b, times, k)
    ensures Ask(p, if gone[k] then None else StoreAfter(p, b, times, gone, k), times[k]) == Ask(p, After(p, b, times, k), times[k])
  {
    var seen := After(p, b, times, k);
    StaysInRange(p, b, times, k);
    if gone[k] && seen.Some? {
      ExpiredIsFull(p, seen.value, times[k]);
    }
  }

  // ------------------------------------------------------------ a clock that steps back

  /** Time that passes twice refills twice: two requests at one reading of the clock, with a capacity of one. */
  lemma SteppingBackRefillsTwice() returns (p: Limits, times: seq<int>)
    ensures p.Valid() && |times| == 3 && times[0] == times[2] && !Monotone(times)
    ensures Admitted(p, None, times, 0, 3) as real > p.capacity as real + Earned(p, times[2] - times[0])
    ensures Admitted(p, None, times, 0, 3) as real == p.capacity as real + Earned(p, Forward(times, 0, 3))
  {
    p, times := Limits(1, 1.0), [1_000, 0, 1_000];
    assert After(p, None, times, 1) == Some(Bucket(0.0, 1_000));
    assert Elapsed(Bucket(0.0, 1_000), 0) == 0.0;
    assert After(p, None, times, 2) == Some(Bucket(0.0, 0));
    assert Elapsed(Bucket(0.0, 0), 1_000) == 1.0;
    assert ReplyAt(p, None, times, 0).Allowed? && ReplyAt(p, None, times, 1).Denied? && ReplyAt(p, None, times, 2).Allowed?;
    assert Admitted(p, None, times, 0, 1) == 1 && Admitted(p, None, times, 0, 2) == 1;
    assert Forward(times, 0, 2) == 0 && Forward(times, 0, 3) == 1_000;
  }

  // ------------------------------------------------------------ the limiter

  lemma NoTimeNoTokens(p: Limits)
    ensures 0.0 / 1000.0 * p.refill == 0.0
  {
  }

  class DeviceRateLimiter {
    const limits: Limits
    var store: map<string, Bucket>
    var unavailableUntil: real

    constructor (capacity: nat, refill: real)
      requires 1 <= capacity && 0.0 < refill
      ensures limits == Limits(capacity, refill) && store == map[] && unavailableUntil == 0.0
    {
      limits, store, unavailableUntil := Limits(capacity, refill), map[], 0.0;
    }

    function BucketOf(key: string): Option<Bucket>
      reads this`store
    {
      if key in store then Some(store[key]) else None
    }

    ghost predicate Valid()
      reads this
    {
      limits.Valid() && forall key :: key in store ==> InRange(limits, Some(store[key]))
    }

    /** The script, run in the store as one step. */
    method RunScript(key: string, nowMs: int) returns (reply: Reply)
      requires Valid()
      modifies this`store
      ensures Valid() && reply == Ask(limits, old(BucketOf(key)), nowMs).0
      ensures store == old(store)[key := Ask(limits, old(BucketOf(key)), nowMs).1]
    {
      var tokens := if key in store then store[key].tokens else limits.capacity as real;
      var updated := if key in store then store[key].updated else nowMs;
      var elapsed := (if updated < nowMs then nowMs - updated else 0) as real / 1000.0;
      tokens := Min(limits.capacity as real, tokens + elapsed * limits.refill);
      assert tokens == Filled(limits, BucketOf(key), nowMs) by {
        NoTimeNoTokens(limits);
        assert key in store ==> elapsed == Elapsed(store[key], nowMs);
      }
      AskKeepsRange(limits, BucketOf(key), nowMs);
      ghost var answer := Ask(limits, BucketOf(key), nowMs);
      if 1.0 <= tokens {
        tokens := tokens - 1.0;
        reply := Allowed;
      } else {
        var wait := Ceil((1.0 - tokens) / limits.refill);
        reply := Denied(if wait < 1 then 1 else wait);
      }
      assert (reply, Bucket(tokens, nowMs)) == answer;
      store := store[key := Bucket(tokens, nowMs)];
    }

    /** While the store does not answer, and for a minute after, every request passes and nothing changes. */
    method Enforce(key: string, now: real, nowMs: int, answers: bool) returns (reply: Reply)
      requires Valid()
      modifies this
      ensures Valid()
      ensures now < old(unavailableUntil) || !answers ==> reply == Allowed && store == old(store)
      ensures unavailableUntil == if old(unavailableUntil) <= now && !answers then now + 60.0 else old(unavailableUntil)
      ensures old(unavailableUntil) <= now && answers ==>
                && reply == Ask(limits, old(BucketOf(key)), nowMs).0
                && store == old(store)[key := Ask(limits, old(BucketOf(key)), nowMs).1]
    {
      if now < unavailableUntil {
        return Allowed;
      }
      if !answers {
        unavailableUntil := now + 60.0;
        return Allowed;
      }
      reply := RunScript(key, nowMs);
    }

    /** The store drops a key whose time to live is over. */
    method Expire(key: string, nowMs: int)
      requires Valid() && key in store && store[key].updated + Ttl(limits) * 1000 <= nowMs
      modifies this`store
      ensures Valid() && store == old(store) - {key}
      ensures Ask(limits, BucketOf(key), nowMs) == Ask(limits, old(BucketOf(key)), nowMs)
    {
      ExpiredIsFull(limits, store[key], nowMs);
      store := store - {key};
    }
  }
}
