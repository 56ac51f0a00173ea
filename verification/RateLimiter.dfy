/** One token bucket per principal, created on first use
    (sentinelmcp/gateway/limits.py). Each call is one atomic step: the guarded
    bodies never suspend. */
module RateLimiter {
  import opened TokenBucket

  type Levels = map<string, Level>

  /** The principal's bucket, or the full one its first use would create. */
  function LevelFor(s: Schedule, levels: Levels, principal: string, now: real): Level {
    if principal in levels then levels[principal] else Level(s.capacity, now)
  }

  predicate Admits(s: Schedule, levels: Levels, principal: string, now: real) {
    Grants(s, LevelFor(s, levels, principal, now), now, 1.0)
  }

  function AfterAcquire(s: Schedule, levels: Levels, principal: string, now: real): Levels {
    levels[principal := Consume(s, LevelFor(s, levels, principal, now), now, 1.0)]
  }

  class Limiter {
    const capacity: real
    const refillRate: real
    var buckets: map<string, Bucket>

    ghost predicate Valid()
      reads this
    {
      && capacity > 0.0 && refillRate > 0.0
      && (forall p :: p in buckets ==> buckets[p].capacity == capacity && buckets[p].refillRate == refillRate)
      && (forall p, q :: p in buckets && q in buckets && p != q ==> buckets[p] != buckets[q])
    }

    ghost function Law(): Schedule { ConstantRate(capacity, refillRate) }

    ghost function Contents(): Levels
      reads this, buckets.Values
    {
      map p | p in buckets :: buckets[p].Now()
    }

    constructor (capacity: real, refillRate: real)
      requires capacity > 0.0 && refillRate > 0.0
      ensures Valid() && Contents() == map[] && buckets == map[]
      ensures this.capacity == capacity && this.refillRate == refillRate
    {
      this.capacity := capacity;
      this.refillRate := refillRate;
      buckets := map[];
    }

    method BucketFor(principal: string, now: real) returns (bucket: Bucket)
      requires Valid()
      modifies this`buckets
      ensures Valid() && principal in buckets && buckets[principal] == bucket
      ensures fresh(buckets.Values - old(buckets.Values))
      ensures Contents() == old(Contents())[principal := LevelFor(Law(), old(Contents()), principal, now)]
    {
      if principal in buckets {
        return buckets[principal];
      }
      bucket := new Bucket(capacity, refillRate, now);
      buckets := buckets[principal := bucket];
    }

    method TryAcquire(principal: string, now: real) returns (granted: bool)
      requires Valid()
      modifies this`buckets, buckets.Values
      ensures Valid() && fresh(buckets.Values - old(buckets.Values))
      ensures granted == Admits(Law(), old(Contents()), principal, now)
      ensures Contents() == AfterAcquire(Law(), old(Contents()), principal, now)
    {
      var bucket := BucketFor(principal, now);
      ghost var level := LevelFor(Law(), old(Contents()), principal, now);
      assert bucket.Now() == Contents()[principal] == level;
      granted := ConsumeFrom(bucket, principal, now);
    }

    /** One token from one bucket; the others stay as they are. */
    method ConsumeFrom(bucket: Bucket, ghost principal: string, now: real) returns (granted: bool)
      requires Valid() && principal in buckets && buckets[principal] == bucket
      modifies bucket
      ensures Valid()
      ensures granted == Grants(Law(), old(bucket.Now()), now, 1.0)
      ensures Contents() == old(Contents())[principal := Consume(Law(), old(bucket.Now()), now, 1.0)]
    {
      granted := bucket.TryConsume(now, 1.0);
      assert forall p :: p in buckets && p != principal ==> buckets[p].Now() == old(buckets[p].Now());
    }
  }

  // ----- A whole interleaved history -----

  /** Fetching a bucket to look at it creates it, and takes nothing. */
  datatype Event = Acquire(id: nat, principal: string, time: real) | Inspect(principal: string, time: real)

  ghost predicate Orderly(start: real, events: seq<Event>) {
    && (forall i :: 0 <= i < |events| ==> start <= events[i].time)
    && (forall i, j :: 0 <= i < j < |events| ==> events[i].time <= events[j].time)
  }

  ghost predicate Settled(start: real, events: seq<Event>, n: nat, now: real)
    requires n <= |events|
  {
    if n == 0 then start <= now else events[n - 1].time <= now
  }

  ghost function LevelsAfter(s: Schedule, events: seq<Event>, n: nat): Levels
    requires n <= |events|
  {
    if n == 0 then map[]
    else
      var e, before := events[n - 1], LevelsAfter(s, events, n - 1);
      if e.Acquire? then AfterAcquire(s, before, e.principal, e.time)
      else before[e.principal := LevelFor(s, before, e.principal, e.time)]
  }

  /** One principal's own requests. */
  ghost function RequestsOf(events: seq<Event>, n: nat, principal: string): seq<Request>
    requires n <= |events|
  {
    if n == 0 then []
    else if events[n - 1].Acquire? && events[n - 1].principal == principal then
      RequestsOf(events, n - 1, principal) + [Request(events[n - 1].time, 1.0)]
    else RequestsOf(events, n - 1, principal)
  }

  lemma {:induction false} RequestsOfAreTimely(start: real, events: seq<Event>, n: nat, principal: string)
    requires Orderly(start, events) && n <= |events|
    ensures var reqs := RequestsOf(events, n, principal);
            Timely(start, reqs) && SameCost(reqs, 1.0)
            && forall i :: 0 <= i < |reqs| ==> n > 0 && reqs[i].time <= events[n - 1].time
  {
    if n > 0 { RequestsOfAreTimely(start, events, n - 1, principal); }
  }

  lemma FullStaysFull(s: Schedule, created: real, now: real)
    requires ValidSchedule(s) && created <= now
    ensures Refilled(s, Level(s.capacity, created), now) == s.capacity
  {
  }

  /** A bucket made full at process start and given one principal's requests. */
  ghost function OwnLevel(s: Schedule, start: real, events: seq<Event>, n: nat, principal: string): Level
    requires n <= |events|
  {
    if n == 0 then Level(s.capacity, start)
    else if events[n - 1].Acquire? && events[n - 1].principal == principal then
      Consume(s, OwnLevel(s, start, events, n - 1, principal), events[n - 1].time, 1.0)
    else OwnLevel(s, start, events, n - 1, principal)
  }

  lemma {:induction false} OwnLevelReplaysOwnRequests(s: Schedule, start: real, events: seq<Event>, n: nat,
                                                      principal: string)
    requires n <= |events|
    ensures var reqs := RequestsOf(events, n, principal);
            OwnLevel(s, start, events, n, principal) == After(s, start, reqs, |reqs|)
  {
    if n > 0 {
      OwnLevelReplaysOwnRequests(s, start, events, n - 1, principal);
      AfterOneMore(s, start, RequestsOf(events, n - 1, principal), Request(events[n - 1].time, 1.0));
    }
  }

  /** Events that take nothing from `principal` do not move its level. */
  lemma OtherEventsKeepLevel(s: Schedule, start: real, events: seq<Event>, n: nat, principal: string, now: real)
    requires ValidSchedule(s) && Orderly(start, events) && 0 < n <= |events| && events[n - 1].time <= now
    requires !(events[n - 1].Acquire? && events[n - 1].principal == principal)
    ensures Refilled(s, LevelFor(s, LevelsAfter(s, events, n), principal, now), now)
            == Refilled(s, LevelFor(s, LevelsAfter(s, events, n - 1), principal, now), now)
  {
    FullStaysFull(s, events[n - 1].time, now);
    FullStaysFull(s, now, now);
  }

  /** The principal's level in the shared table is that of a bucket of its own. */
  ghost predicate Shares(s: Schedule, start: real, events: seq<Event>, n: nat, principal: string, now: real)
    requires n <= |events|
  {
    Refilled(s, LevelFor(s, LevelsAfter(s, events, n), principal, now), now)
    == Refilled(s, OwnLevel(s, start, events, n, principal), now)
  }

  lemma OtherEventKeepsSharing(s: Schedule, start: real, events: seq<Event>, n: nat, principal: string, now: real)
    requires ValidSchedule(s) && Orderly(start, events) && 0 < n <= |events| && events[n - 1].time <= now
    requires !(events[n - 1].Acquire? && events[n - 1].principal == principal)
    requires Shares(s, start, events, n - 1, principal, now)
    ensures Shares(s, start, events, n, principal, now)
  {
    OtherEventsKeepLevel(s, start, events, n, principal, now);
  }

  /** The principal's own request, taken from buckets at equal levels. */
  lemma OwnRequestKeepsLevel(s: Schedule, start: real, events: seq<Event>, n: nat, principal: string, now: real)
    requires 0 < n <= |events| && events[n - 1].Acquire? && events[n - 1].principal == principal
    requires Shares(s, start, events, n - 1, principal, events[n - 1].time)
    ensures Shares(s, start, events, n, principal, now)
  {
    ConsumeKeepsAgreement(s, LevelFor(s, LevelsAfter(s, events, n - 1), principal, events[n - 1].time),
                          OwnLevel(s, start, events, n - 1, principal), events[n - 1].time, 1.0, now);
  }

  lemma {:induction false} SharedLevelIsOwnLevel(s: Schedule, start: real, events: seq<Event>, n: nat,
                                                 principal: string, now: real)
    requires ValidSchedule(s) && Orderly(start, events) && n <= |events| && Settled(start, events, n, now)
    ensures Shares(s, start, events, n, principal, now)
  {
    if n == 0 {
      FullStaysFull(s, start, now);
      FullStaysFull(s, now, now);
    } else {
      var e := events[n - 1];
      if e.Acquire? && e.principal == principal {
        SharedLevelIsOwnLevel(s, start, events, n - 1, principal, e.time);
        OwnRequestKeepsLevel(s, start, events, n, principal, now);
      } else {
        SharedLevelIsOwnLevel(s, start, events, n - 1, principal, now);
        OtherEventKeepsSharing(s, start, events, n, principal, now);
      }
    }
  }

  /** Isolation, and laziness without effect: at every moment a principal's level
      is that of a bucket of its own, created full at process start and given
      only that principal's requests. Other principals, lazy creation and
      inspection do not show. */
  lemma PrincipalSeesItsOwnBucket(s: Schedule, start: real, events: seq<Event>, n: nat, principal: string, now: real)
    requires ValidSchedule(s) && Orderly(start, events) && n <= |events| && Settled(start, events, n, now)
    ensures var reqs := RequestsOf(events, n, principal);
            Refilled(s, LevelFor(s, LevelsAfter(s, events, n), principal, now), now)
            == Refilled(s, After(s, start, reqs, |reqs|), now)
  {
    SharedLevelIsOwnLevel(s, start, events, n, principal, now);
    OwnLevelReplaysOwnRequests(s, start, events, n, principal);
  }

  lemma RequestsExtend(events: seq<Event>, i: nat, j: nat, principal: string)
    requires i <= j <= |events|
    ensures RequestsOf(events, i, principal) <= RequestsOf(events, j, principal)
    decreases j
  {
    if i < j { RequestsExtend(events, i, j - 1, principal); }
  }

  /** Each decision is the one that own bucket would take. */
  lemma DecisionIsOwnBucketDecision(s: Schedule, start: real, events: seq<Event>, n: nat)
    requires ValidSchedule(s) && Orderly(start, events) && n < |events| && events[n].Acquire?
    ensures var e := events[n];
            var reqs := RequestsOf(events, n + 1, e.principal);
            Admits(s, LevelsAfter(s, events, n), e.principal, e.time) <==> Granted(s, start, reqs, |reqs| - 1)
  {
    var e := events[n];
    var own := RequestsOf(events, n, e.principal);
    PrincipalSeesItsOwnBucket(s, start, events, n, e.principal, e.time);
    AfterIgnoresLater(s, start, own, [Request(e.time, 1.0)], |own|);
  }

  // ----- Counting grants -----

  /** Event `n` hands `principal` a token. */
  ghost predicate Grant(s: Schedule, events: seq<Event>, n: nat, principal: string)
    requires n < |events|
  {
    var e := events[n];
    e.Acquire? && e.principal == principal && Admits(s, LevelsAfter(s, events, n), principal, e.time)
  }

  /** The tokens handed to `principal` by events `i`, ..., `j - 1`. */
  ghost function GrantCount(s: Schedule, events: seq<Event>, i: nat, j: nat, principal: string): nat
    requires j <= |events|
  {
    if i >= j then 0
    else GrantCount(s, events, i, j - 1, principal) + if Grant(s, events, j - 1, principal) then 1 else 0
  }

  /** The attempts of `principal` granted a token by events `i`, ..., `j - 1`. */
  ghost function GrantedIds(s: Schedule, events: seq<Event>, i: nat, j: nat, principal: string): set<nat>
    requires j <= |events|
  {
    if i >= j then {}
    else
      GrantedIds(s, events, i, j - 1, principal)
      + if Grant(s, events, j - 1, principal) then {events[j - 1].id} else {}
  }

  lemma {:induction false} NoMoreIdsThanGrants(s: Schedule, events: seq<Event>, i: nat, j: nat, principal: string)
    requires j <= |events|
    ensures |GrantedIds(s, events, i, j, principal)| <= GrantCount(s, events, i, j, principal)
  {
    if i < j { NoMoreIdsThanGrants(s, events, i, j - 1, principal); }
  }

  lemma {:induction false} SpentIgnoresLater(reqs: seq<Request>, d: seq<bool>, reqs': seq<Request>, d': seq<bool>,
                                             k: nat, n: nat)
    requires |reqs| == |d| && |reqs'| == |d'| && n <= |reqs| && reqs <= reqs' && d <= d'
    ensures Spent(reqs', d', k, n) == Spent(reqs, d, k, n)
    decreases n
  {
    if k < n { SpentIgnoresLater(reqs, d, reqs', d', k, n - 1); }
  }

  lemma DecisionsExtend(s: Schedule, start: real, reqs: seq<Request>, more: seq<Request>)
    ensures Decisions(s, start, reqs) <= Decisions(s, start, reqs + more)
  {
    forall i | 0 <= i < |reqs| ensures Granted(s, start, reqs + more, i) == Granted(s, start, reqs, i) {
      AfterIgnoresLater(s, start, reqs, more, i);
    }
  }

  lemma OneMoreSpent(s: Schedule, start: real, own: seq<Request>, r: Request, k: nat)
    requires k <= |own|
    ensures var longer := own + [r];
            Spent(longer, Decisions(s, start, longer), k, |own| + 1)
            == Spent(own, Decisions(s, start, own), k, |own|)
               + if Granted(s, start, longer, |own|) then r.amount else 0.0
  {
    DecisionsExtend(s, start, own, [r]);
    SpentIgnoresLater(own, Decisions(s, start, own), own + [r], Decisions(s, start, own + [r]), k, |own|);
    assert (own + [r])[|own|] == r;
  }

  /** What `principal` has spent, by the first `n` events, since its request `k`. */
  ghost function SpentBy(s: Schedule, start: real, events: seq<Event>, n: nat, principal: string, k: nat): real
    requires n <= |events|
  {
    var reqs := RequestsOf(events, n, principal);
    Spent(reqs, Decisions(s, start, reqs), k, |reqs|)
  }

  lemma OwnRequestSpends(s: Schedule, start: real, events: seq<Event>, n: nat, k: nat)
    requires ValidSchedule(s) && Orderly(start, events) && n < |events| && events[n].Acquire?
    requires k <= |RequestsOf(events, n, events[n].principal)|
    ensures var e := events[n];
            SpentBy(s, start, events, n + 1, e.principal, k)
            == SpentBy(s, start, events, n, e.principal, k)
               + if Admits(s, LevelsAfter(s, events, n), e.principal, e.time) then 1.0 else 0.0
  {
    DecisionIsOwnBucketDecision(s, start, events, n);
    OneMoreSpent(s, start, RequestsOf(events, n, events[n].principal), Request(events[n].time, 1.0), k);
  }

  lemma OtherEventsSpendNothing(s: Schedule, start: real, events: seq<Event>, n: nat, principal: string, k: nat)
    requires n < |events| && !(events[n].Acquire? && events[n].principal == principal)
    ensures SpentBy(s, start, events, n + 1, principal, k) == SpentBy(s, start, events, n, principal, k)
  {
    assert RequestsOf(events, n + 1, principal) == RequestsOf(events, n, principal);
  }

  lemma NothingSpentYet(s: Schedule, start: real, events: seq<Event>, n: nat, principal: string)
    requires n <= |events|
    ensures SpentBy(s, start, events, n, principal, |RequestsOf(events, n, principal)|) == 0.0
  {
  }

  lemma OneMoreGrant(s: Schedule, start: real, events: seq<Event>, n: nat, principal: string, k: nat)
    requires ValidSchedule(s) && Orderly(start, events) && n < |events| && k <= |RequestsOf(events, n, principal)|
    ensures SpentBy(s, start, events, n + 1, principal, k)
            == SpentBy(s, start, events, n, principal, k) + if Grant(s, events, n, principal) then 1.0 else 0.0
  {
    if events[n].Acquire? && events[n].principal == principal {
      OwnRequestSpends(s, start, events, n, k);
    } else {
      OtherEventsSpendNothing(s, start, events, n, principal, k);
    }
  }

  /** Each grant costs one token. */
  lemma {:induction false} GrantsAreSpent(s: Schedule, start: real, events: seq<Event>, i: nat, j: nat,
                                          principal: string)
    requires ValidSchedule(s) && Orderly(start, events) && i <= j <= |events|
    ensures GrantCount(s, events, i, j, principal) as real
            == SpentBy(s, start, events, j, principal, |RequestsOf(events, i, principal)|)
    decreases j
  {
    var k := |RequestsOf(events, i, principal)|;
    if i == j {
      NothingSpentYet(s, start, events, i, principal);
    } else {
      GrantsAreSpent(s, start, events, i, j - 1, principal);
      RequestsExtend(events, i, j - 1, principal);
      OneMoreGrant(s, start, events, j - 1, principal, k);
    }
  }

  /** Over any stretch of events, however principals and attempts interleave, a
      principal is granted at most the capacity plus what the clock earned. */
  lemma GrantsInWindow(s: Schedule, start: real, events: seq<Event>, i: nat, j: nat, principal: string)
    requires ValidSchedule(s) && Orderly(start, events) && i < j <= |events|
    ensures GrantCount(s, events, i, j, principal) as real
            <= s.capacity + (s.earned(events[j - 1].time) - s.earned(events[i].time))
  {
    var reqs, k := RequestsOf(events, j, principal), |RequestsOf(events, i, principal)|;
    GrantsAreSpent(s, start, events, i, j, principal);
    RequestsExtend(events, i, j, principal);
    RequestsOfAreTimely(start, events, j, principal);
    assert s.earned(events[i].time) <= s.earned(events[j - 1].time);
    if k < |reqs| {
      NoWindowOverspent(s, start, reqs, k, |reqs|);
      RequestsAfter(start, events, i, j, principal);
      assert s.earned(events[i].time) <= s.earned(reqs[k].time);
      assert s.earned(reqs[|reqs| - 1].time) <= s.earned(events[j - 1].time);
    }
  }

  lemma {:induction false} RequestsAfter(start: real, events: seq<Event>, i: nat, j: nat, principal: string)
    requires Orderly(start, events) && i < |events| && i <= j <= |events|
    ensures var reqs, k := RequestsOf(events, j, principal), |RequestsOf(events, i, principal)|;
            k <= |reqs| && forall m :: k <= m < |reqs| ==> events[i].time <= reqs[m].time
    decreases j
  {
    if i < j { RequestsAfter(start, events, i, j - 1, principal); }
  }
}
