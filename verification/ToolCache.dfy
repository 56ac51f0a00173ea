/** The gateway-wide cache of the upstream's tool list (sentinelmcp/gateway/bridge.py).

    The lock is held across a fetch, so taking it, the fetch's return or failure,
    and an invalidation are separate steps. `history` records them. */
module ToolCache {
  import opened Wrappers
  import opened Json

  datatype Tool = Tool(name: string, inputSchema: Option<Json>)

  /** Who uses the cache: an attempt of `tools/call`, or a `tools/list` request. */
  datatype User = Call(id: nat) | Listing(id: nat)

  datatype CacheEvent =
    | FetchStarted(user: User)
    | FetchSucceeded(user: User, tools: seq<Tool>)
    | FetchFailed(user: User)
    | Served(user: User, tools: seq<Tool>)
    | Invalidated

  datatype Cache = Cache(tools: Option<seq<Tool>>, holder: Option<User>, history: seq<CacheEvent>)

  const EMPTY_CACHE := Cache(None, None, [])

  /** A failed fetch is one that raised or whose caller was cancelled. */
  datatype CacheStep =
    | Enter(user: User)
    | FetchReturns(user: User, tools: seq<Tool>)
    | FetchEnds(user: User)
    | Invalidate

  ghost predicate Enabled(c: Cache, step: CacheStep) {
    match step
    case Enter(_) => c.holder == None
    case FetchReturns(user, _) => c.holder == Some(user)
    case FetchEnds(user) => c.holder == Some(user)
    case Invalidate => c.holder == None
  }

  ghost function Next(c: Cache, step: CacheStep): Cache
    requires Enabled(c, step)
  {
    match step
    case Enter(user) =>
      if c.tools.Some? then c.(history := c.history + [Served(user, c.tools.value)])
      else c.(holder := Some(user), history := c.history + [FetchStarted(user)])
    case FetchReturns(user, tools) =>
      Cache(Some(tools), None, c.history + [FetchSucceeded(user, tools)] + [Served(user, tools)])
    case FetchEnds(user) => c.(holder := None, history := c.history + [FetchFailed(user)])
    case Invalidate => c.(tools := None, history := c.history + [Invalidated])
  }

  /** The list of the latest successful fetch, unless invalidated since. */
  ghost function Latest(history: seq<CacheEvent>): Option<seq<Tool>> {
    if history == [] then None
    else
      var e := history[|history| - 1];
      match e
      case FetchSucceeded(_, tools) => Some(tools)
      case Invalidated => None
      case _ => Latest(history[..|history| - 1])
  }

  datatype Tally = Tally(started: nat, succeeded: nat, failed: nat, invalidations: nat)

  ghost function Tallied(history: seq<CacheEvent>): Tally {
    if history == [] then Tally(0, 0, 0, 0)
    else
      var t := Tallied(history[..|history| - 1]);
      match history[|history| - 1]
      case FetchStarted(_) => t.(started := t.started + 1)
      case FetchSucceeded(_, _) => t.(succeeded := t.succeeded + 1)
      case FetchFailed(_) => t.(failed := t.failed + 1)
      case Served(_, _) => t
      case Invalidated => t.(invalidations := t.invalidations + 1)
  }

  ghost function Started(c: Cache): nat { Tallied(c.history).started }

  lemma TalliedOneMore(history: seq<CacheEvent>, e: CacheEvent)
    ensures Tallied(history + [e]).started == Tallied(history).started + if e.FetchStarted? then 1 else 0
  {
    assert (history + [e])[..|history|] == history;
  }

  /** A fetch is asked for by whoever enters and finds nothing. */
  lemma StartedAfter(c: Cache, step: CacheStep)
    requires Enabled(c, step)
    ensures Started(Next(c, step)) == Started(c) + if step.Enter? && c.tools.None? then 1 else 0
  {
    match step
    case Enter(user) =>
      TalliedOneMore(c.history, if c.tools.Some? then Served(user, c.tools.value) else FetchStarted(user));
    case FetchReturns(user, tools) =>
      TalliedOneMore(c.history, FetchSucceeded(user, tools));
      TalliedOneMore(c.history + [FetchSucceeded(user, tools)], Served(user, tools));
    case FetchEnds(user) => TalliedOneMore(c.history, FetchFailed(user));
    case Invalidate => TalliedOneMore(c.history, Invalidated);
  }

  /** Every list handed out was, at that moment, the latest one. */
  ghost predicate ServedAreLatest(history: seq<CacheEvent>) {
    forall i :: 0 <= i < |history| && history[i].Served? ==> Latest(history[..i]) == Some(history[i].tools)
  }

  ghost predicate CacheOk(c: Cache) {
    var t := Tallied(c.history);
    && c.tools == Latest(c.history)
    && ServedAreLatest(c.history)
    && (c.holder.Some? ==> c.tools == None)
    && t.started == t.succeeded + t.failed + (if c.holder.Some? then 1 else 0)
    && t.succeeded <= t.invalidations + (if c.tools.Some? then 1 else 0)
  }

  lemma OneMoreEvent(history: seq<CacheEvent>, e: CacheEvent)
    requires ServedAreLatest(history) && (e.Served? ==> Latest(history) == Some(e.tools))
    ensures (history + [e])[..|history|] == history
    ensures ServedAreLatest(history + [e])
  {
    var longer := history + [e];
    assert longer[..|history|] == history;
    forall i | 0 <= i < |longer| && longer[i].Served? ensures Latest(longer[..i]) == Some(longer[i].tools) {
      if i < |history| {
        assert longer[..i] == history[..i];
      }
    }
  }

  lemma NextKeepsCacheOk(c: Cache, step: CacheStep)
    requires CacheOk(c) && Enabled(c, step)
    ensures CacheOk(Next(c, step))
  {
    match step
    case Enter(user) =>
      OneMoreEvent(c.history, if c.tools.Some? then Served(user, c.tools.value) else FetchStarted(user));
    case FetchReturns(user, tools) =>
      var fetched := c.history + [FetchSucceeded(user, tools)];
      OneMoreEvent(c.history, FetchSucceeded(user, tools));
      assert Latest(fetched) == Some(tools);
      OneMoreEvent(fetched, Served(user, tools));
    case FetchEnds(user) => OneMoreEvent(c.history, FetchFailed(user));
    case Invalidate => OneMoreEvent(c.history, Invalidated);
  }

  /** Whoever is served, by this step, gets the latest list. */
  ghost function ServedBy(c: Cache, step: CacheStep): Option<seq<Tool>> {
    match step
    case Enter(_) => c.tools
    case FetchReturns(_, tools) => Some(tools)
    case _ => None
  }

  /** `caches` is a run: it starts empty and `steps[i]` leads from cache i to i + 1. */
  ghost predicate Run(caches: seq<Cache>, steps: seq<CacheStep>) {
    && |caches| == |steps| + 1
    && caches[0] == EMPTY_CACHE
    && forall i :: 0 <= i < |steps| ==> Enabled(caches[i], steps[i]) && caches[i + 1] == Next(caches[i], steps[i])
  }

  lemma {:induction false} RunIsOk(caches: seq<Cache>, steps: seq<CacheStep>, n: nat)
    requires Run(caches, steps) && n < |caches|
    ensures CacheOk(caches[n])
  {
    if n > 0 {
      RunIsOk(caches, steps, n - 1);
      assert caches[n - 1 + 1] == Next(caches[n - 1], steps[n - 1]);
      NextKeepsCacheOk(caches[n - 1], steps[n - 1]);
    }
  }

  /** Under any interleaving of users and invalidations: at most one fetch is in
      flight, every list served is the latest and not invalidated, and fetches
      are bounded by invalidations and failures. */
  lemma CacheAgreement(caches: seq<Cache>, steps: seq<CacheStep>)
    requires Run(caches, steps)
    ensures var c := caches[|steps|]; var t := Tallied(c.history);
            && 0 <= t.started - t.succeeded - t.failed <= 1
            && (t.started - t.succeeded - t.failed == 1 <==> c.holder.Some?)
            && ServedAreLatest(c.history)
            && t.succeeded <= 1 + t.invalidations
            && t.started <= 1 + t.invalidations + t.failed
  {
    RunIsOk(caches, steps, |steps|);
  }

  // ----- Invalidation is final -----

  lemma HistoryGrows(caches: seq<Cache>, steps: seq<CacheStep>, i: nat, n: nat)
    requires Run(caches, steps) && i <= n < |caches|
    ensures caches[i].history <= caches[n].history
    decreases n - i
  {
    if i < n {
      assert caches[i + 1] == Next(caches[i], steps[i]);
      HistoryGrows(caches, steps, i + 1, n);
    }
  }

  /** The latest list comes from a successful fetch with no invalidation since. */
  lemma {:induction false} LatestWasFetched(history: seq<CacheEvent>, after: nat) returns (m: nat)
    requires after < |history| && history[after].Invalidated? && Latest(history).Some?
    ensures after < m < |history| && history[m].FetchSucceeded? && Some(history[m].tools) == Latest(history)
  {
    m := |history| - 1;
    if !history[m].FetchSucceeded? {
      m := LatestWasFetched(history[..m], after);
    }
  }

  /** Whatever is served after an invalidation was fetched after it. */
  lemma InvalidationIsFinal(caches: seq<Cache>, steps: seq<CacheStep>, i: nat, j: nat) returns (m: nat)
    requires Run(caches, steps) && i < |steps| && steps[i] == Invalidate
    requires var history := caches[|steps|].history; |caches[i].history| <= j < |history| && history[j].Served?
    ensures var history := caches[|steps|].history;
            |caches[i].history| < m < j && history[m].FetchSucceeded? && history[m].tools == history[j].tools
  {
    var history, mark := caches[|steps|].history, |caches[i].history|;
    assert caches[i + 1] == Next(caches[i], steps[i]);
    HistoryGrows(caches, steps, i + 1, |steps|);
    assert history[mark] == caches[i + 1].history[mark] == Invalidated;
    RunIsOk(caches, steps, |steps|);
    assert Latest(history[..j]) == Some(history[j].tools);
    m := LatestWasFetched(history[..j], mark);
  }

  /** What a step leaves cached, and who is served what by it. */
  lemma StepsDoWhatTheySay(c: Cache, user: User, tools: seq<Tool>)
    ensures c.holder == None ==> Next(c, Invalidate).tools == None && Next(c, Invalidate).holder == None
    ensures c.holder == None && c.tools.Some? ==>
              Next(c, Enter(user)) == c.(history := c.history + [Served(user, c.tools.value)])
    ensures c.holder == None && c.tools.None? ==>
              Next(c, Enter(user)).holder == Some(user) && Next(c, Enter(user)).tools == None
    ensures c.holder == Some(user) ==>
              && Next(c, FetchReturns(user, tools)).tools == Some(tools)
                 && Next(c, FetchReturns(user, tools)).holder == None
              && Next(c, FetchEnds(user)).tools == c.tools && Next(c, FetchEnds(user)).holder == None
  {
  }
}
