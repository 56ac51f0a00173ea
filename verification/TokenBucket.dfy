/** One principal's token bucket (sentinelmcp/gateway/limits.py), over exact
    reals. The clock is a parameter of each call. */
module TokenBucket {
  import opened Arithmetic
  import opened Wrappers

  datatype Level = Level(tokens: real, lastRefill: real)

  /** A refill law: the capacity, and the tokens earned by the clock up to each
      moment. The limiter's own law earns at a constant rate. */
  datatype Schedule = Schedule(capacity: real, earned: real -> real)

  ghost predicate ValidSchedule(s: Schedule) {
    s.capacity > 0.0 && forall t, u :: t <= u ==> s.earned(t) <= s.earned(u)
  }

  function ConstantRate(capacity: real, refillRate: real): Schedule {
    Schedule(capacity, t => refillRate * t)
  }

  function Min(x: real, y: real): real { if x <= y then x else y }

  function Max(x: real, y: real): real { if x >= y then x else y }

  /** The token count once refill up to `now` has been applied. */
  function Refilled(s: Schedule, b: Level, now: real): real {
    Min(s.capacity, b.tokens + Max(0.0, s.earned(now) - s.earned(b.lastRefill)))
  }

  predicate Grants(s: Schedule, b: Level, now: real, amount: real) {
    Refilled(s, b, now) >= amount
  }

  function Consume(s: Schedule, b: Level, now: real, amount: real): Level {
    Level(if Grants(s, b, now, amount) then Refilled(s, b, now) - amount else Refilled(s, b, now), now)
  }

  lemma ElapsedTimesRate(refillRate: real, last: real, now: real)
    requires refillRate > 0.0
    ensures Max(0.0, now - last) * refillRate == Max(0.0, refillRate * now - refillRate * last)
  {
    if now >= last {
      ProductNonNegative(now - last, refillRate);
    } else {
      ProductNonNegative(last - now, refillRate);
    }
  }

  lemma ConstantRateIsValid(capacity: real, refillRate: real)
    requires capacity > 0.0 && refillRate > 0.0
    ensures ValidSchedule(ConstantRate(capacity, refillRate))
  {
    var s := ConstantRate(capacity, refillRate);
    forall t, u | t <= u ensures s.earned(t) <= s.earned(u) {
      ProductNonNegative(refillRate, u - t);
    }
  }

  class Bucket {
    const capacity: real
    const refillRate: real
    var tokens: real
    var lastRefill: real

    constructor (capacity: real, refillRate: real, now: real)
      requires capacity > 0.0 && refillRate > 0.0
      ensures this.capacity == capacity && this.refillRate == refillRate && Now() == Level(capacity, now)
    {
      this.capacity := capacity;
      this.refillRate := refillRate;
      tokens := capacity;
      lastRefill := now;
    }

    /** The constructor's checks: a non-positive setting is an error. */
    static method Create(capacity: real, refillRate: real, now: real) returns (r: Result<Bucket>)
      ensures r.Failure? <==> capacity <= 0.0 || refillRate <= 0.0
      ensures r.Success? ==> fresh(r.value) && r.value.capacity == capacity && r.value.refillRate == refillRate
                             && r.value.Now() == Level(capacity, now)
    {
      if capacity <= 0.0 { return Failure("capacity must be positive"); }
      if refillRate <= 0.0 { return Failure("refill_rate must be positive"); }
      var bucket := new Bucket(capacity, refillRate, now);
      return Success(bucket);
    }

    function Now(): Level
      reads this
    {
      Level(tokens, lastRefill)
    }

    function Law(): Schedule {
      ConstantRate(capacity, refillRate)
    }

    method TryConsume(now: real, amount: real) returns (granted: bool)
      requires refillRate > 0.0
      modifies this
      ensures granted == Grants(Law(), old(Now()), now, amount)
      ensures Now() == Consume(Law(), old(Now()), now, amount)
    {
      ElapsedTimesRate(refillRate, lastRefill, now);
      var elapsed := Max(0.0, now - lastRefill);
      tokens := Min(capacity, tokens + elapsed * refillRate);
      lastRefill := now;
      if tokens >= amount {
        tokens := tokens - amount;
        return true;
      }
      return false;
    }

    method AvailableTokens(now: real) returns (available: real)
      requires refillRate > 0.0
      ensures available == Refilled(Law(), Now(), now)
    {
      ElapsedTimesRate(refillRate, lastRefill, now);
      var elapsed := Max(0.0, now - lastRefill);
      available := Min(capacity, tokens + elapsed * refillRate);
    }
  }

  // ----- A whole history of requests -----

  datatype Request = Request(time: real, amount: real)

  /** Times never go back, and nobody returns tokens. */
  ghost predicate Timely(start: real, reqs: seq<Request>) {
    && (forall i :: 0 <= i < |reqs| ==> start <= reqs[i].time && reqs[i].amount >= 0.0)
    && (forall i, j :: 0 <= i < j < |reqs| ==> reqs[i].time <= reqs[j].time)
  }

  /** `now` is no earlier than the first `n` requests. */
  ghost predicate NotBefore(start: real, reqs: seq<Request>, n: nat, now: real)
    requires n <= |reqs|
  {
    if n == 0 then start <= now else reqs[n - 1].time <= now
  }

  /** The bucket after the first `n` requests, having been created full at `start`. */
  ghost function After(s: Schedule, start: real, reqs: seq<Request>, n: nat): Level
    requires n <= |reqs|
  {
    if n == 0 then Level(s.capacity, start)
    else Consume(s, After(s, start, reqs, n - 1), reqs[n - 1].time, reqs[n - 1].amount)
  }

  ghost predicate Granted(s: Schedule, start: real, reqs: seq<Request>, i: nat)
    requires i < |reqs|
  {
    Grants(s, After(s, start, reqs, i), reqs[i].time, reqs[i].amount)
  }

  ghost function Decisions(s: Schedule, start: real, reqs: seq<Request>): (d: seq<bool>)
    ensures |d| == |reqs| && forall i :: 0 <= i < |d| ==> d[i] == Granted(s, start, reqs, i)
  {
    seq(|reqs|, i requires 0 <= i < |reqs| => Granted(s, start, reqs, i))
  }

  /** Tokens that an admission sequence hands to the requests `k`, ..., `n - 1`. */
  ghost function Spent(reqs: seq<Request>, admitted: seq<bool>, k: nat, n: nat): real
    requires n <= |reqs| == |admitted|
  {
    if k >= n then 0.0
    else Spent(reqs, admitted, k, n - 1) + if admitted[n - 1] then reqs[n - 1].amount else 0.0
  }

  /** The most a window from request `k` up to `now` may spend. */
  ghost function Allowance(s: Schedule, reqs: seq<Request>, k: nat, now: real): real
    requires k < |reqs|
  {
    s.capacity + (s.earned(now) - s.earned(reqs[k].time))
  }

  /** What a window still has at `now`, after the bucket's first `n` decisions. */
  ghost function Left(s: Schedule, start: real, reqs: seq<Request>, k: nat, n: nat, now: real): real
    requires k < n <= |reqs|
  {
    Allowance(s, reqs, k, now) - Spent(reqs, Decisions(s, start, reqs), k, n)
  }

  /** What request `i` takes. */
  ghost function Fee(s: Schedule, start: real, reqs: seq<Request>, i: nat): real
    requires i < |reqs|
  {
    if Granted(s, start, reqs, i) then reqs[i].amount else 0.0
  }

  ghost function LevelAt(s: Schedule, start: real, reqs: seq<Request>, n: nat, now: real): real
    requires n <= |reqs|
  {
    Refilled(s, After(s, start, reqs, n), now)
  }

  lemma LevelMoves(s: Schedule, start: real, reqs: seq<Request>, n: nat, now: real)
    requires ValidSchedule(s) && n < |reqs| && reqs[n].time <= now
    ensures LevelAt(s, start, reqs, n + 1, now)
            == Min(s.capacity, LevelAt(s, start, reqs, n, reqs[n].time) - Fee(s, start, reqs, n)
                               + (s.earned(now) - s.earned(reqs[n].time)))
    ensures Fee(s, start, reqs, n) <= LevelAt(s, start, reqs, n, reqs[n].time) || Fee(s, start, reqs, n) == 0.0
  {
  }

  lemma LeftMoves(s: Schedule, start: real, reqs: seq<Request>, k: nat, n: nat, now: real)
    requires k <= n < |reqs|
    ensures Left(s, start, reqs, k, n + 1, now)
            == (if k == n then s.capacity else Left(s, start, reqs, k, n, reqs[n].time)) - Fee(s, start, reqs, n)
               + (s.earned(now) - s.earned(reqs[n].time))
  {
    assert Spent(reqs, Decisions(s, start, reqs), k, n + 1)
           == Spent(reqs, Decisions(s, start, reqs), k, n) + Fee(s, start, reqs, n);
  }

  /** The level is exactly the least allowance left over all windows opened so
      far: it is below each, and equal to one unless the bucket is full. */
  lemma {:induction false} LevelIsLeastAllowanceLeft(s: Schedule, start: real, reqs: seq<Request>, n: nat, now: real)
    requires ValidSchedule(s) && Timely(start, reqs) && n <= |reqs| && NotBefore(start, reqs, n, now)
    ensures 0.0 <= LevelAt(s, start, reqs, n, now) <= s.capacity
    ensures forall k :: 0 <= k < n ==> LevelAt(s, start, reqs, n, now) <= Left(s, start, reqs, k, n, now)
    ensures LevelAt(s, start, reqs, n, now) == s.capacity
            || exists k :: 0 <= k < n && LevelAt(s, start, reqs, n, now) == Left(s, start, reqs, k, n, now)
  {
    if n > 0 {
      var m := n - 1;
      var t := reqs[m].time;
      var before := LevelAt(s, start, reqs, m, t);
      LevelIsLeastAllowanceLeft(s, start, reqs, m, t);
      LevelMoves(s, start, reqs, m, now);
      assert s.earned(t) <= s.earned(now);
      forall k | 0 <= k < n ensures LevelAt(s, start, reqs, n, now) <= Left(s, start, reqs, k, n, now) {
        LeftMoves(s, start, reqs, k, m, now);
      }
      if before == s.capacity {
        LeftMoves(s, start, reqs, m, m, now);
      } else {
        var k :| 0 <= k < m && before == Left(s, start, reqs, k, m, t);
        LeftMoves(s, start, reqs, k, m, now);
      }
    }
  }

  /** A request is granted exactly when every window ending at it, its own amount
      included, stays within its allowance. */
  lemma {:induction false} GrantedIffEveryWindowFits(s: Schedule, start: real, reqs: seq<Request>, n: nat)
    requires ValidSchedule(s) && Timely(start, reqs) && n < |reqs|
    ensures Granted(s, start, reqs, n) <==>
              reqs[n].amount <= s.capacity
              && forall k :: 0 <= k < n ==>
                   Spent(reqs, Decisions(s, start, reqs), k, n) + reqs[n].amount <= Allowance(s, reqs, k, reqs[n].time)
  {
    var t, d := reqs[n].time, Decisions(s, start, reqs);
    LevelIsLeastAllowanceLeft(s, start, reqs, n, t);
    var level := LevelAt(s, start, reqs, n, t);
    if Granted(s, start, reqs, n) {
      forall k | 0 <= k < n ensures Spent(reqs, d, k, n) + reqs[n].amount <= Allowance(s, reqs, k, t) {
        assert level <= Left(s, start, reqs, k, n, t);
      }
    } else if level != s.capacity {
      var k :| 0 <= k < n && level == Left(s, start, reqs, k, n, t);
      assert Spent(reqs, d, k, n) + reqs[n].amount > Allowance(s, reqs, k, t);
    }
  }

  /** An admission sequence that over-spends no window. */
  ghost predicate Respects(s: Schedule, reqs: seq<Request>, admitted: seq<bool>) {
    && |admitted| == |reqs|
    && forall i, j :: 0 <= i < j <= |reqs| ==> Spent(reqs, admitted, i, j) <= Allowance(s, reqs, i, reqs[j - 1].time)
  }

  lemma {:induction false} NoWindowOverspent(s: Schedule, start: real, reqs: seq<Request>, i: nat, j: nat)
    requires ValidSchedule(s) && Timely(start, reqs) && i < j <= |reqs|
    ensures Spent(reqs, Decisions(s, start, reqs), i, j) <= Allowance(s, reqs, i, reqs[j - 1].time)
    decreases j
  {
    GrantedIffEveryWindowFits(s, start, reqs, j - 1);
    if i < j - 1 {
      NoWindowOverspent(s, start, reqs, i, j - 1);
      assert s.earned(reqs[j - 2].time) <= s.earned(reqs[j - 1].time);
    } else {
      assert Spent(reqs, Decisions(s, start, reqs), i, j - 1) == 0.0;
    }
  }

  lemma BucketRespects(s: Schedule, start: real, reqs: seq<Request>)
    requires ValidSchedule(s) && Timely(start, reqs)
    ensures Respects(s, reqs, Decisions(s, start, reqs))
  {
    forall i, j | 0 <= i < j <= |reqs|
      ensures Spent(reqs, Decisions(s, start, reqs), i, j) <= Allowance(s, reqs, i, reqs[j - 1].time)
    {
      NoWindowOverspent(s, start, reqs, i, j);
    }
  }

  lemma AllowanceAtConstantRate(capacity: real, refillRate: real, reqs: seq<Request>, k: nat, now: real)
    requires k < |reqs|
    ensures Allowance(ConstantRate(capacity, refillRate), reqs, k, now) == capacity + refillRate * (now - reqs[k].time)
  {
    assert refillRate * (now - reqs[k].time) == refillRate * now - refillRate * reqs[k].time;
  }

  /** The limiter's own bucket, in the limiter's units: in no window does it hand
      out more than the capacity plus the refill rate times the window's length. */
  lemma {:induction false} BucketStaysWithinItsRate(capacity: real, refillRate: real, start: real, reqs: seq<Request>,
                                                    i: nat, j: nat)
    requires capacity > 0.0 && refillRate > 0.0 && Timely(start, reqs) && i < j <= |reqs|
    ensures Spent(reqs, Decisions(ConstantRate(capacity, refillRate), start, reqs), i, j)
            <= capacity + refillRate * (reqs[j - 1].time - reqs[i].time)
  {
    var s := ConstantRate(capacity, refillRate);
    ConstantRateIsValid(capacity, refillRate);
    BucketRespects(s, start, reqs);
    WindowBound(capacity, refillRate, reqs, Decisions(s, start, reqs), i, j);
  }

  lemma WindowBound(capacity: real, refillRate: real, reqs: seq<Request>, admitted: seq<bool>, i: nat, j: nat)
    requires Respects(ConstantRate(capacity, refillRate), reqs, admitted) && i < j <= |reqs|
    ensures Spent(reqs, admitted, i, j) <= capacity + refillRate * (reqs[j - 1].time - reqs[i].time)
  {
    AllowanceAtConstantRate(capacity, refillRate, reqs, i, reqs[j - 1].time);
    AtMostEqual(Spent(reqs, admitted, i, j), Allowance(ConstantRate(capacity, refillRate), reqs, i, reqs[j - 1].time),
                capacity + refillRate * (reqs[j - 1].time - reqs[i].time));
  }

  /** The window from request `k` to request `n`, that one's own amount included, is
      within the capacity plus the refill rate times the window's length. */
  ghost predicate WithinRate(capacity: real, refillRate: real, reqs: seq<Request>, decisions: seq<bool>, k: nat, n: nat)
    requires k <= n < |reqs| && |decisions| == |reqs|
  {
    Spent(reqs, decisions, k, n) + reqs[n].amount <= capacity + refillRate * (reqs[n].time - reqs[k].time)
  }

  /** Every window that ends at request `n` is. */
  ghost predicate AllWithinRate(capacity: real, refillRate: real, reqs: seq<Request>, decisions: seq<bool>, n: nat)
    requires n < |reqs| && |decisions| == |reqs|
  {
    forall k :: 0 <= k < n ==> WithinRate(capacity, refillRate, reqs, decisions, k, n)
  }

  lemma WithinRateIffAllowed(capacity: real, refillRate: real, reqs: seq<Request>, decisions: seq<bool>, k: nat, n: nat)
    requires k <= n < |reqs| && |decisions| == |reqs|
    ensures WithinRate(capacity, refillRate, reqs, decisions, k, n) <==>
              Spent(reqs, decisions, k, n) + reqs[n].amount
              <= Allowance(ConstantRate(capacity, refillRate), reqs, k, reqs[n].time)
  {
    AllowanceAtConstantRate(capacity, refillRate, reqs, k, reqs[n].time);
    SameBound(Spent(reqs, decisions, k, n) + reqs[n].amount,
              Allowance(ConstantRate(capacity, refillRate), reqs, k, reqs[n].time),
              capacity + refillRate * (reqs[n].time - reqs[k].time));
  }

  /** The limiter's decision in its own units: granted exactly when the capacity is
      enough and every window ending at the request is within the rate. */
  lemma GrantedExactlyWithinTheRate(capacity: real, refillRate: real, start: real, reqs: seq<Request>, n: nat)
    requires capacity > 0.0 && refillRate > 0.0 && Timely(start, reqs) && n < |reqs|
    ensures var s := ConstantRate(capacity, refillRate);
            Granted(s, start, reqs, n) <==>
              reqs[n].amount <= capacity && AllWithinRate(capacity, refillRate, reqs, Decisions(s, start, reqs), n)
  {
    var s := ConstantRate(capacity, refillRate);
    var d := Decisions(s, start, reqs);
    ConstantRateIsValid(capacity, refillRate);
    GrantedIffEveryWindowFits(s, start, reqs, n);
    forall k | 0 <= k < n
      ensures WithinRate(capacity, refillRate, reqs, d, k, n) <==>
                Spent(reqs, d, k, n) + reqs[n].amount <= Allowance(s, reqs, k, reqs[n].time)
    {
      WithinRateIffAllowed(capacity, refillRate, reqs, d, k, n);
    }
  }

  /** Nobody is starved: whoever lets one token be earned after the last request gets
      one, if the capacity holds one at all. */
  lemma WaitingIsRewarded(s: Schedule, start: real, reqs: seq<Request>, n: nat)
    requires ValidSchedule(s) && s.capacity >= 1.0 && Timely(start, reqs) && n < |reqs| && reqs[n].amount == 1.0
    requires n > 0 ==> s.earned(reqs[n].time) >= s.earned(reqs[n - 1].time) + 1.0
    ensures Granted(s, start, reqs, n)
  {
    GrantedIffEveryWindowFits(s, start, reqs, n);
    forall k | 0 <= k < n
      ensures Spent(reqs, Decisions(s, start, reqs), k, n) + reqs[n].amount <= Allowance(s, reqs, k, reqs[n].time)
    {
      NoWindowOverspent(s, start, reqs, k, n);
    }
  }

  /** At a constant rate that takes one over the rate. */
  lemma OneTokenLater(capacity: real, refillRate: real, before: real, after: real)
    requires refillRate > 0.0 && after >= before + 1.0 / refillRate
    ensures var s := ConstantRate(capacity, refillRate); s.earned(after) >= s.earned(before) + 1.0
  {
    var wait := 1.0 / refillRate;
    assert refillRate * wait == 1.0;
    ProductNonNegative(refillRate, after - before - wait);
    assert refillRate * (after - before - wait) == refillRate * after - refillRate * before - refillRate * wait;
  }

  /** These keep a product out of the comparison. */
  lemma SameBound(x: real, y: real, z: real)
    requires y == z
    ensures x <= y <==> x <= z
  {
  }

  lemma AtMostEqual(x: real, y: real, z: real)
    requires x <= y && y == z
    ensures x <= z
  {
  }

  // ----- Greedy optimality -----

  ghost function Count(admitted: seq<bool>, i: nat, j: nat): nat
    requires j <= |admitted|
  {
    if i >= j then 0 else Count(admitted, i, j - 1) + if admitted[j - 1] then 1 else 0
  }

  ghost predicate SameCost(reqs: seq<Request>, cost: real) {
    forall i :: 0 <= i < |reqs| ==> reqs[i].amount == cost
  }

  /** `cost`, `count` times over. */
  ghost function Times(count: nat, cost: real): real { if count == 0 then 0.0 else Times(count - 1, cost) + cost }

  lemma {:induction false} TimesGrows(fewer: nat, more: nat, cost: real)
    requires cost > 0.0 && fewer < more
    ensures Times(fewer, cost) + cost <= Times(more, cost)
  {
    if fewer < more - 1 { TimesGrows(fewer, more - 1, cost); }
  }

  lemma {:induction false} SpentIsCountTimesCost(reqs: seq<Request>, admitted: seq<bool>, cost: real, i: nat, j: nat)
    requires j <= |reqs| == |admitted| && SameCost(reqs, cost)
    ensures Spent(reqs, admitted, i, j) == Times(Count(admitted, i, j), cost)
    decreases j
  {
    if i < j { SpentIsCountTimesCost(reqs, admitted, cost, i, j - 1); }
  }

  lemma {:induction false} CountSplits(admitted: seq<bool>, k: nat, n: nat)
    requires k <= n <= |admitted|
    ensures Count(admitted, 0, n) == Count(admitted, 0, k) + Count(admitted, k, n)
  {
    if k < n { CountSplits(admitted, k, n - 1); }
  }

  /** Spending less than one more request would cost means admitting no more. */
  lemma SpendingLessAdmitsNoMore(reqs: seq<Request>, mine: seq<bool>, other: seq<bool>, cost: real,
                                 k: nat, m: nat, n: nat)
    requires cost > 0.0 && SameCost(reqs, cost) && m <= n <= |reqs| == |mine| == |other|
    requires Spent(reqs, other, k, n) < Spent(reqs, mine, k, m) + cost
    ensures Count(other, k, n) <= Count(mine, k, m)
  {
    SpentIsCountTimesCost(reqs, mine, cost, k, m);
    SpentIsCountTimesCost(reqs, other, cost, k, n);
    if Count(mine, k, m) < Count(other, k, n) { TimesGrows(Count(mine, k, m), Count(other, k, n), cost); }
  }

  /** At every prefix the bucket has admitted at least as many equal-cost requests
      as any other admission sequence that over-spends no window. */
  lemma {:induction false} BucketIsGreedyOptimum(s: Schedule, start: real, reqs: seq<Request>, cost: real,
                                                 other: seq<bool>, n: nat)
    requires ValidSchedule(s) && Timely(start, reqs) && n <= |reqs|
    requires cost > 0.0 && SameCost(reqs, cost)
    requires Respects(s, reqs, other)
    ensures Count(other, 0, n) <= Count(Decisions(s, start, reqs), 0, n)
  {
    if n > 0 {
      var mine := Decisions(s, start, reqs);
      var last := n - 1;
      BucketIsGreedyOptimum(s, start, reqs, cost, other, last);
      if !mine[last] && other[last] {
        var k := ExhaustedWindow(s, start, reqs, other, last);
        SpendingLessAdmitsNoMore(reqs, mine, other, cost, k, last, n);
        BucketIsGreedyOptimum(s, start, reqs, cost, other, k);
        CountSplits(mine, k, last);
        CountSplits(other, k, n);
      }
    }
  }

  /** A denial points at a window the bucket has exhausted; no other respectful
      sequence can have spent as much in it as the bucket plus one request. */
  lemma ExhaustedWindow(s: Schedule, start: real, reqs: seq<Request>, other: seq<bool>, last: nat) returns (k: nat)
    requires ValidSchedule(s) && Timely(start, reqs) && last < |reqs|
    requires Respects(s, reqs, other) && other[last] && !Granted(s, start, reqs, last)
    ensures k < last
    ensures Spent(reqs, other, k, last + 1) < Spent(reqs, Decisions(s, start, reqs), k, last) + reqs[last].amount
  {
    GrantedIffEveryWindowFits(s, start, reqs, last);
    assert Spent(reqs, other, last, last + 1) == reqs[last].amount;
    assert Spent(reqs, other, last, last + 1) <= Allowance(s, reqs, last, reqs[last].time);
    k :| 0 <= k < last && Spent(reqs, Decisions(s, start, reqs), k, last) + reqs[last].amount
                            > Allowance(s, reqs, k, reqs[last].time);
    assert Spent(reqs, other, k, last + 1) <= Allowance(s, reqs, k, reqs[last + 1 - 1].time);
  }

  /** Equal costs matter: with costs 2, 1, 1 at one moment and capacity 2, the
      bucket admits one request where two would respect every window. */
  lemma GreedyNeedsEqualCosts(s: Schedule)
    requires ValidSchedule(s) && s.capacity == 2.0
    ensures var reqs := [Request(0.0, 2.0), Request(0.0, 1.0), Request(0.0, 1.0)];
            Respects(s, reqs, [false, true, true])
            && Count(Decisions(s, 0.0, reqs), 0, 3) < Count([false, true, true], 0, 3)
  {
    var reqs := [Request(0.0, 2.0), Request(0.0, 1.0), Request(0.0, 1.0)];
    var d, e := Decisions(s, 0.0, reqs), [false, true, true];
    assert After(s, 0.0, reqs, 0) == Level(2.0, 0.0);
    assert After(s, 0.0, reqs, 1) == Level(0.0, 0.0);
    assert After(s, 0.0, reqs, 2) == Level(0.0, 0.0);
    assert d[0] && !d[1] && !d[2];
    assert Count(d, 0, 1) == 1 && Count(d, 0, 2) == 1 && Count(d, 0, 3) == 1;
    assert Count(e, 0, 1) == 0 && Count(e, 0, 2) == 1 && Count(e, 0, 3) == 2;
    forall i, j | 0 <= i < j <= 3 ensures Spent(reqs, e, i, j) <= Allowance(s, reqs, i, reqs[j - 1].time) {
      assert Spent(reqs, e, i, i) == 0.0;
      if j >= i + 2 { assert Spent(reqs, e, i, i + 1) <= 1.0; }
      if j == i + 3 { assert Spent(reqs, e, i, i + 1) == 0.0; assert Spent(reqs, e, i, i + 2) == 1.0; }
    }
  }

  // ----- Refill composes -----

  /** Refilling twice is refilling once, for times in order. */
  lemma RefillComposes(s: Schedule, b: Level, mid: real, now: real)
    requires ValidSchedule(s) && b.lastRefill <= mid <= now
    ensures Refilled(s, Level(Refilled(s, b, mid), mid), now) == Refilled(s, b, now)
  {
  }

  /** The requests that were granted, in order. */
  ghost function GrantedOnly(s: Schedule, start: real, reqs: seq<Request>, n: nat): seq<Request>
    requires n <= |reqs|
  {
    if n == 0 then []
    else if Granted(s, start, reqs, n - 1) then GrantedOnly(s, start, reqs, n - 1) + [reqs[n - 1]]
    else GrantedOnly(s, start, reqs, n - 1)
  }

  lemma {:induction false} AfterIgnoresLater(s: Schedule, start: real, reqs: seq<Request>, more: seq<Request>, n: nat)
    requires n <= |reqs|
    ensures After(s, start, reqs + more, n) == After(s, start, reqs, n)
  {
    if n > 0 { AfterIgnoresLater(s, start, reqs, more, n - 1); }
  }

  lemma AfterOneMore(s: Schedule, start: real, reqs: seq<Request>, r: Request)
    ensures After(s, start, reqs + [r], |reqs| + 1) == Consume(s, After(s, start, reqs, |reqs|), r.time, r.amount)
  {
    AfterIgnoresLater(s, start, reqs, [r], |reqs|);
    assert (reqs + [r])[|reqs|] == r;
  }

  lemma LastRefillIsLastRequest(s: Schedule, start: real, reqs: seq<Request>, n: nat)
    requires n <= |reqs|
    ensures After(s, start, reqs, n).lastRefill == if n == 0 then start else reqs[n - 1].time
  {
  }

  /** The bucket as it would be had the denied requests never been made. */
  ghost function WithoutDenials(s: Schedule, start: real, reqs: seq<Request>, n: nat): Level
    requires n <= |reqs|
  {
    if n == 0 then Level(s.capacity, start)
    else if Granted(s, start, reqs, n - 1) then
      Consume(s, WithoutDenials(s, start, reqs, n - 1), reqs[n - 1].time, reqs[n - 1].amount)
    else WithoutDenials(s, start, reqs, n - 1)
  }

  lemma {:induction false} WithoutDenialsReplaysTheGranted(s: Schedule, start: real, reqs: seq<Request>, n: nat)
    requires n <= |reqs|
    ensures var kept := GrantedOnly(s, start, reqs, n);
            WithoutDenials(s, start, reqs, n) == After(s, start, kept, |kept|)
  {
    if n > 0 {
      WithoutDenialsReplaysTheGranted(s, start, reqs, n - 1);
      AfterOneMore(s, start, GrantedOnly(s, start, reqs, n - 1), reqs[n - 1]);
    }
  }

  /** Buckets at equal levels take a request alike and stay level. */
  lemma ConsumeKeepsAgreement(s: Schedule, b: Level, b': Level, at: real, amount: real, now: real)
    requires Refilled(s, b, at) == Refilled(s, b', at)
    ensures Refilled(s, Consume(s, b, at, amount), now) == Refilled(s, Consume(s, b', at, amount), now)
  {
  }

  lemma DenialKeepsLevel(s: Schedule, start: real, reqs: seq<Request>, n: nat, now: real)
    requires ValidSchedule(s) && Timely(start, reqs) && 0 < n <= |reqs| && NotBefore(start, reqs, n, now)
    requires !Granted(s, start, reqs, n - 1)
    ensures Refilled(s, After(s, start, reqs, n), now) == Refilled(s, After(s, start, reqs, n - 1), now)
  {
    LastRefillIsLastRequest(s, start, reqs, n - 1);
    RefillComposes(s, After(s, start, reqs, n - 1), reqs[n - 1].time, now);
  }

  /** The bucket stands at the same level with and without its denials. */
  ghost predicate Agrees(s: Schedule, start: real, reqs: seq<Request>, n: nat, now: real)
    requires n <= |reqs|
  {
    Refilled(s, WithoutDenials(s, start, reqs, n), now) == Refilled(s, After(s, start, reqs, n), now)
  }

  lemma GrantKeepsAgreement(s: Schedule, start: real, reqs: seq<Request>, n: nat, now: real)
    requires 0 < n <= |reqs| && Granted(s, start, reqs, n - 1) && Agrees(s, start, reqs, n - 1, reqs[n - 1].time)
    ensures Agrees(s, start, reqs, n, now)
  {
    var r := reqs[n - 1];
    ConsumeKeepsAgreement(s, WithoutDenials(s, start, reqs, n - 1), After(s, start, reqs, n - 1),
                          r.time, r.amount, now);
  }

  lemma DenialKeepsAgreement(s: Schedule, start: real, reqs: seq<Request>, n: nat, now: real)
    requires ValidSchedule(s) && Timely(start, reqs) && 0 < n <= |reqs| && NotBefore(start, reqs, n, now)
    requires !Granted(s, start, reqs, n - 1) && Agrees(s, start, reqs, n - 1, now)
    ensures Agrees(s, start, reqs, n, now)
  {
    DenialKeepsLevel(s, start, reqs, n, now);
  }

  lemma NotBeforeEarlier(start: real, reqs: seq<Request>, n: nat, now: real)
    requires Timely(start, reqs) && 0 < n <= |reqs| && NotBefore(start, reqs, n, now)
    ensures NotBefore(start, reqs, n - 1, reqs[n - 1].time) && NotBefore(start, reqs, n - 1, now)
  {
  }

  lemma {:induction false} WithoutDenialsKeepsLevel(s: Schedule, start: real, reqs: seq<Request>, n: nat, now: real)
    requires ValidSchedule(s) && Timely(start, reqs) && n <= |reqs| && NotBefore(start, reqs, n, now)
    ensures Agrees(s, start, reqs, n, now)
  {
    if n > 0 {
      NotBeforeEarlier(start, reqs, n, now);
      if Granted(s, start, reqs, n - 1) {
        WithoutDenialsKeepsLevel(s, start, reqs, n - 1, reqs[n - 1].time);
        GrantKeepsAgreement(s, start, reqs, n, now);
      } else {
        WithoutDenialsKeepsLevel(s, start, reqs, n - 1, now);
        DenialKeepsAgreement(s, start, reqs, n, now);
      }
    }
  }

  /** A denied request leaves no trace: replaying only the granted requests gives
      the same level at every later moment. */
  lemma DenialsLeaveNoTrace(s: Schedule, start: real, reqs: seq<Request>, n: nat, now: real)
    requires ValidSchedule(s) && Timely(start, reqs) && n <= |reqs| && NotBefore(start, reqs, n, now)
    ensures var kept := GrantedOnly(s, start, reqs, n);
            Refilled(s, After(s, start, kept, |kept|), now) == Refilled(s, After(s, start, reqs, n), now)
  {
    WithoutDenialsReplaysTheGranted(s, start, reqs, n);
    WithoutDenialsKeepsLevel(s, start, reqs, n, now);
  }
}
