/** The `tools/call` handler written the way sentinelmcp/gateway/bridge.py writes it:
    local variables updated stage by stage, early returns, an inner `async with`
    and an outer exception handler. Left alone, it takes the steps of the pipeline
    machine that the upstream's answers call for, and no others. */
module Handler {
  import opened Wrappers
  import opened Json
  import opened ArgumentPolicy
  import opened AuditLog
  import opened ToolCache
  import opened Pipeline
  import opened PipelineProgress
  import opened Uninterrupted
  import Rate = RateLimiter
  import Slot = ConcurrencyLimiter

  /** The upstream as one call meets it: what it would answer, how often it has been
      asked for its tools, and which calls it has received. */
  class Upstream {
    const answers: Answers
    var listRequests: nat
    var received: seq<(string, Arguments)>

    constructor (answers: Answers)
      ensures this.answers == answers && listRequests == 0 && received == []
    {
      this.answers := answers;
      listRequests := 0;
      received := [];
    }

    method ListTools() returns (reply: FetchReply)
      modifies this`listRequests
      ensures listRequests == old(listRequests) + 1
      ensures reply == answers.fetch
    {
      listRequests := listRequests + 1;
      reply := answers.fetch;
    }

    method CallTool(tool: string, arguments: Arguments) returns (reply: CallReply)
      modifies this`received
      ensures received == old(received) + [(tool, arguments)]
      ensures reply == answers.call
    {
      received := received + [(tool, arguments)];
      reply := answers.call;
    }
  }

  /** The cache object; the lock lets one user in at a time, for a whole fetch. */
  class UpstreamToolCache {
    var tools: Option<seq<Tool>>

    constructor ()
      ensures tools == None
    {
      tools := None;
    }

    /** The upstream is asked only if nothing is cached, and only a list it answers
        with is cached. */
    method Get(upstream: Upstream) returns (reply: FetchReply)
      modifies this, upstream`listRequests
      ensures old(tools).Some? ==> reply == Lists(old(tools).value) && tools == old(tools)
      ensures old(tools).None? ==>
                reply == upstream.answers.fetch && tools == if reply.Lists? then Some(reply.tools) else None
      ensures upstream.listRequests == old(upstream.listRequests) + if old(tools).None? then 1 else 0
    {
      if tools.None? {
        reply := upstream.ListTools();
        if !reply.Lists? {
          return;
        }
        tools := Some(reply.tools);
      }
      return Lists(tools.value);
    }

    method Drop()
      modifies this
      ensures tools == None
    {
      tools := None;
    }
  }

  ghost function CategoryOf(reply: CallReply): Category {
    match reply
    case Replies(_) => CategorySuccess
    case TimesOut => CategoryTimeout
    case Raises => CategoryError
    case CallCancelled => CategoryCancelled
  }

  /** The audit write that a reply leads to. */
  ghost function AfterReply(id: nat, tool: string, reply: CallReply): Pc {
    var ending := AfterCall(id, tool, reply);
    Emitting(ending.outcome, true, Some(CategoryOf(reply)), ending.exit)
  }

  lemma ReplyLeadsTo(c: Config, id: nat, g: Shared, a: Attempt, answers: Answers)
    requires a.pc == Calling
    ensures var (g', a') := Perform(c, id, g, a, Response(Calling, answers));
            && g' == g.(replies := g'.replies)
            && a' == a.(result := a'.result, upstreamLatency := true, pc := AfterReply(id, a.tool, answers.call))
  {
    match answers.call
    case Replies(_) =>
    case TimesOut =>
    case Raises =>
    case CallCancelled =>
  }

  lemma OneMoreMoment(c: Config, id: nat, moments: seq<(Shared, Attempt)>, actions: seq<Action>, answers: Answers)
    requires LeftAlone(c, id, moments, actions, answers)
    requires var (g, a) := moments[|actions|]; !a.pc.Finished? && Can(id, g, a, Response(a.pc, answers))
    ensures var (g, a) := moments[|actions|];
            var action := Response(a.pc, answers);
            LeftAlone(c, id, moments + [Perform(c, id, g, a, action)], actions + [action], answers)
  {
    var (g, a) := moments[|actions|];
    var longer, more := moments + [Perform(c, id, g, a, Response(a.pc, answers))], actions + [Response(a.pc, answers)];
    forall i | 0 <= i < |more|
      ensures !longer[i].1.pc.Finished? && more[i] == Response(longer[i].1.pc, answers)
      ensures Can(id, longer[i].0, longer[i].1, more[i])
      ensures longer[i + 1] == Perform(c, id, longer[i].0, longer[i].1, more[i])
    {
      if i < |actions| {
        assert more[i] == actions[i] && longer[i] == moments[i] && longer[i + 1] == moments[i + 1];
      }
    }
  }

  /** What of the calls reaches the upstream. */
  ghost function Wires(calls: seq<UpstreamCall>): seq<(string, Arguments)> {
    seq(|calls|, i requires 0 <= i < |calls| => (calls[i].tool, calls[i].arguments))
  }

  lemma OneMoreWire(calls: seq<UpstreamCall>, call: UpstreamCall)
    ensures Wires(calls + [call]) == Wires(calls) + [(call.tool, call.arguments)]
  {
  }

  lemma TakenAndGivenBack(s: Slot.Slots, principal: string)
    requires Slot.NonNegative(s)
    ensures forall p :: Slot.ActiveOf(Slot.Released(Slot.Acquired(s, principal), principal), p) == Slot.ActiveOf(s, p)
  {
    forall p ensures Slot.ActiveOf(Slot.Released(Slot.Acquired(s, principal), principal), p) == Slot.ActiveOf(s, p) {
      Slot.ReleaseUndoesAcquire(s, principal, p);
    }
  }

  /** One call in progress: the objects it shares, its parameters, and the local
      variables of the handler. `g`, `a` and `trace` follow the machine. */
  class CallHandler {
    const c: Config
    const rateLimiter: Rate.Limiter
    const slots: Slot.Limiter
    const cache: UpstreamToolCache
    const upstream: Upstream
    const logger: AuditLogger
    const id: nat
    const principal: string
    const tool: string
    const arguments: Arguments
    const now: real

    var rateLimitResult: StageResult
    var schemaResult: StageResult
    var policyResult: StageResult
    var concurrencyResult: StageResult
    var matchedRule: Option<string>
    var policyLatency: bool
    var upstreamLatency: bool
    var auditEmitted: bool

    ghost const g0: Shared
    ghost var g: Shared
    ghost var a: Attempt
    ghost var moments: seq<(Shared, Attempt)>
    ghost var trace: seq<Action>

    function Asked(): Request { Request(principal, tool, arguments) }

    ghost function Arrival(): Attempt { NewAttempt(principal, tool, arguments) }

    /** The shared objects hold what the machine's shared state says. */
    ghost predicate Mirrored()
      reads this`g, slots, cache, logger
    {
      && slots.Valid() && slots.maxConcurrent == c.maxConcurrent && logger.Valid()
      && g.slots == slots.Contents() && g.cache.tools == cache.tools && g.log == logger.emitted && g.now == now
    }

    ghost predicate LimiterAgrees()
      reads this`g, rateLimiter, rateLimiter.buckets.Values
    {
      && rateLimiter.Valid() && rateLimiter.capacity == c.capacity && rateLimiter.refillRate == c.refillRate
      && g.levels == rateLimiter.Contents()
    }

    ghost predicate UpstreamAgrees()
      reads this`g, upstream
    {
      upstream.received == Wires(g.calls) && upstream.listRequests == Started(g.cache)
    }

    /** The local variables are the attempt's. */
    ghost predicate LocalsAgree()
      reads this
    {
      LocalsAre(a)
    }

    ghost predicate LocalsAre(b: Attempt)
      reads this
    {
      && b.principal == principal && b.tool == tool && b.arguments == arguments
      && b.rate == rateLimitResult && b.schema == schemaResult && b.policy == policyResult
      && b.concurrency == concurrencyResult && b.matchedRule == matchedRule
      && b.policyLatency == policyLatency && b.upstreamLatency == upstreamLatency && b.auditEmitted == auditEmitted
    }

    /** The machine got here by the steps called for, and by no others. */
    ghost predicate OnTrack()
      reads this`g, this`a, this`moments, this`trace
    {
      && LeftAlone(c, id, moments, trace, upstream.answers)
      && moments[0] == (g0, Arrival()) && moments[|trace|] == (g, a)
    }

    /** Nothing recorded, and the concurrency stage not reached. */
    ghost predicate BeforeSlot()
      reads this`a
    {
      !a.auditEmitted && a.concurrency == NotEvaluated && !a.slotHeld
    }

    constructor (c: Config, rateLimiter: Rate.Limiter, slots: Slot.Limiter, cache: UpstreamToolCache,
                 upstream: Upstream,
                 logger: AuditLogger, id: nat, principal: string, tool: string, arguments: Arguments, now: real,
                 ghost g: Shared)
      requires rateLimiter.Valid() && rateLimiter.capacity == c.capacity && rateLimiter.refillRate == c.refillRate
      requires slots.Valid() && slots.maxConcurrent == c.maxConcurrent && logger.Valid()
      requires g.levels == rateLimiter.Contents() && g.slots == slots.Contents()
      requires g.cache.tools == cache.tools && g.log == logger.emitted && g.now == now
      requires upstream.received == Wires(g.calls) && upstream.listRequests == Started(g.cache)
      ensures Mirrored() && LimiterAgrees() && UpstreamAgrees() && LocalsAgree() && OnTrack()
      ensures this.g == g0 == g && trace == [] && a == Arrival()
      ensures this.c == c && this.id == id && Asked() == Request(principal, tool, arguments)
              && this.upstream == upstream
      ensures this.rateLimiter == rateLimiter && this.slots == slots && this.cache == cache && this.logger == logger
    {
      this.c, this.rateLimiter, this.slots, this.cache := c, rateLimiter, slots, cache;
      this.upstream, this.logger := upstream, logger;
      this.id, this.principal, this.tool, this.arguments, this.now := id, principal, tool, arguments, now;
      rateLimitResult := Failed;
      schemaResult, policyResult, concurrencyResult := NotEvaluated, NotEvaluated, NotEvaluated;
      matchedRule := None;
      policyLatency, upstreamLatency, auditEmitted := false, false, false;
      this.g0, this.g, this.a := g, g, NewAttempt(principal, tool, arguments);
      this.moments, this.trace := [(g, NewAttempt(principal, tool, arguments))], [];
    }

    /** Follow the machine for the one step called for. */
    ghost method Follow()
      requires OnTrack() && !a.pc.Finished? && Can(id, g, a, Response(a.pc, upstream.answers))
      modifies this`g, this`a, this`trace, this`moments
      ensures OnTrack() && (g, a) == Perform(c, id, old(g), old(a), Response(old(a).pc, upstream.answers))
    {
      var action := Response(a.pc, upstream.answers);
      var (g', a') := Perform(c, id, g, a, action);
      OneMoreMoment(c, id, moments, trace, upstream.answers);
      g, a, moments, trace := g', a', moments + [(g', a')], trace + [action];
    }

    // The same, place by place, with the step each one makes.

    ghost method FollowCheckRate()
      requires OnTrack() && a.pc == Arrived
      modifies this`g, this`a, this`trace, this`moments
      ensures OnTrack() && (g, a) == RateStep(c, id, old(g), old(a))
    {
      Follow();
    }

    ghost method FollowAuthorize()
      requires OnTrack() && a.pc == Authorizing
      modifies this`g, this`a, this`trace, this`moments
      ensures OnTrack() && g == old(g) && a == AuthorizeStep(c, id, old(a))
    {
      Follow();
    }

    ghost method FollowEnterCache()
      requires OnTrack() && a.pc == CacheWait && g.cache.holder == None
      modifies this`g, this`a, this`trace, this`moments
      ensures OnTrack() && g == old(g).(cache := g.cache) && g.cache.tools == old(g).cache.tools
      ensures Started(g.cache) == Started(old(g).cache) + if old(g).cache.tools.None? then 1 else 0
      ensures if g.cache.tools.Some? then a == old(a).(upstreamTools := g.cache.tools, pc := Checking)
              else a == old(a).(pc := Fetching) && g.cache.holder == Some(Call(id))
    {
      StartedAfter(g.cache, Enter(Call(id)));
      Follow();
    }

    /** Through the lock, and through the fetch if nothing is cached. */
    ghost method FollowCache()
      requires OnTrack() && a.pc == CacheWait && g.cache.holder == None
      modifies this`g, this`a, this`trace, this`moments
      ensures OnTrack() && g == old(g).(cache := g.cache)
      ensures Started(g.cache) == Started(old(g).cache) + if old(g).cache.tools.None? then 1 else 0
      ensures match (old(g).cache.tools, upstream.answers.fetch)
              case (Some(cached), _) =>
                g.cache.tools == Some(cached) && a == old(a).(upstreamTools := Some(cached), pc := Checking)
              case (None, Lists(tools)) =>
                g.cache.tools == Some(tools) && a == old(a).(upstreamTools := Some(tools), pc := Checking)
              case (None, FetchRaises) => g.cache.tools == None && a == old(a).(pc := Unwinding(Fault))
              case (None, FetchCancelled) => g.cache.tools == None && a == old(a).(pc := Unwinding(Cancellation))
    {
      FollowEnterCache();
      if a.pc == Fetching {
        FollowFetch();
      }
    }

    ghost method FollowFetch()
      requires OnTrack() && a.pc == Fetching && g.cache.holder == Some(Call(id))
      modifies this`g, this`a, this`trace, this`moments
      ensures OnTrack() && g == old(g).(cache := g.cache) && Started(g.cache) == Started(old(g).cache)
      ensures match upstream.answers.fetch
              case Lists(tools) =>
                g.cache.tools == Some(tools) && a == old(a).(upstreamTools := Some(tools), pc := Checking)
              case FetchRaises => g.cache.tools == old(g).cache.tools && a == old(a).(pc := Unwinding(Fault))
              case FetchCancelled => g.cache.tools == old(g).cache.tools && a == old(a).(pc := Unwinding(Cancellation))
    {
      var fetch := upstream.answers.fetch;
      StartedAfter(g.cache, if fetch.Lists? then FetchReturns(Call(id), fetch.tools) else FetchEnds(Call(id)));
      Follow();
    }

    ghost function Checked(before: Attempt, found: Option<Tool>): Attempt {
      var checked := before.(upstreamTool := found);
      if found.None? then Reject(id, checked.(policy := Failed), PolicyDenied, UnknownTool(before.tool))
      else if !SchemaAccepts(c, found.value, before.arguments) then
        Reject(id, checked.(schema := Failed, policyLatency := true), SchemaRejected, SchemaInvalid(before.tool))
      else checked.(schema := Passed, pc := Evaluating)
    }

    ghost method FollowCheckSchema(found: Option<Tool>)
      requires OnTrack() && a.pc == Checking && a.upstreamTools.Some?
               && found == FindTool(a.upstreamTools.value, a.tool)
      modifies this`g, this`a, this`trace, this`moments
      ensures OnTrack() && g == old(g)
      ensures a == Checked(old(a), found)
    {
      Follow();
    }

    ghost method FollowEvaluatePolicy(violated: bool)
      requires OnTrack() && a.pc == Evaluating && a.toolPolicy.Some?
      requires violated <==> !Accepts(a.toolPolicy.value, a.arguments, c.fullmatch)
      modifies this`g, this`a, this`trace, this`moments
      ensures OnTrack() && g == old(g)
      ensures a == if violated then
                     Reject(id, old(a).(policy := Failed, policyLatency := true), PolicyDenied,
                            PolicyInvalid(old(a).tool))
                   else old(a).(policy := Passed, policyLatency := true, pc := Acquiring)
    {
      Follow();
    }

    ghost method FollowAcquireSlot()
      requires OnTrack() && a.pc == Acquiring
      modifies this`g, this`a, this`trace, this`moments
      ensures OnTrack() && (g, a) == SlotStep(c, id, old(g), old(a))
    {
      Follow();
    }

    ghost method FollowCall()
      requires OnTrack() && a.pc == Calling
      modifies this`g, this`a, this`trace, this`moments
      ensures OnTrack() && g == old(g).(replies := g.replies)
      ensures a == old(a).(result := a.result, upstreamLatency := true,
                           pc := AfterReply(id, old(a).tool, upstream.answers.call))
    {
      ReplyLeadsTo(c, id, g, a, upstream.answers);
      Follow();
    }

    ghost method FollowWrite()
      requires OnTrack() && AtWrite(a.pc)
      modifies this`g, this`a, this`trace, this`moments
      ensures OnTrack() && a == WrittenStep(old(a)) && g == old(g).(log := old(g).log + [RecordOf(id, old(a))])
    {
      Follow();
    }

    ghost method FollowLeaveScope()
      requires OnTrack() && a.pc.LeavingScope?
      modifies this`g, this`a, this`trace, this`moments
      ensures OnTrack() && a == old(a).(slotHeld := false, pc := AfterExit(old(a).pc.exit))
      ensures g == if old(a).slotHeld then old(g).(slots := Slot.Released(old(g).slots, old(a).principal)) else old(g)
    {
      Follow();
    }

    ghost method FollowUnwind()
      requires OnTrack() && a.pc.Unwinding?
      modifies this`g, this`a, this`trace, this`moments
      ensures OnTrack() && g == old(g) && a == UnwindStep(old(a))
    {
      Follow();
    }

    /** Log the record of the local variables; the flag goes up once it is written. */
    method Emit(outcome: Outcome, attempted: bool, category: Option<Category>)
      requires Mirrored() && LocalsAgree() && OnTrack() && AtWrite(a.pc)
      requires var r := RecordOf(id, a);
               r.outcome == outcome && r.upstreamAttempted == attempted && r.upstreamCategory == category
      modifies this`auditEmitted, this`g, this`a, this`trace, this`moments, logger
      ensures Mirrored() && LocalsAgree() && OnTrack()
      ensures a == WrittenStep(old(a)) && g == old(g).(log := old(g).log + [RecordOf(id, old(a))])
    {
      logger.Emit(AuditRecord(id, principal, tool, Object(arguments), outcome, matchedRule, schemaResult, policyResult,
                              rateLimitResult, concurrencyResult, attempted, category, policyLatency, upstreamLatency));
      auditEmitted := true;
      FollowWrite();
    }

    /** About to record a rejection. */
    ghost function RejectedAt(outcome: Outcome, body: Body): Pc {
      Emitting(outcome, false, None, Return(Finalize(ErrorResult(body), id)))
    }

    /** The attempt ends with this error result, and one record of this outcome. */
    ghost predicate Rejected(before: seq<AuditRecord>, exit: Option<Exit>, outcome: Outcome, body: Body)
      reads logger
    {
      && exit == Some(Return(Finalize(ErrorResult(body), id)))
      && |logger.emitted| == |before| + 1 && before <= logger.emitted
      && IsAbout(logger.emitted[|before|], id, Asked()) && logger.emitted[|before|].outcome == outcome
    }

    /** A rejection before the concurrency stage: one record, one error result. */
    method Refuse(outcome: Outcome, body: Body) returns (exit: Option<Exit>)
      requires Mirrored() && LocalsAgree() && OnTrack() && BeforeSlot()
      requires a.pc == RejectedAt(outcome, body)
      modifies this`auditEmitted, this`g, this`a, this`trace, this`moments, logger
      ensures Mirrored() && LocalsAgree() && OnTrack() && g == old(g).(log := g.log)
      ensures Rejected(old(logger.emitted), exit, outcome, body) && a.pc == Finished(exit.value)
    {
      Emit(outcome, false, None);
      return Some(Return(Finalize(ErrorResult(body), id)));
    }

    /** One token from the principal's bucket; nothing else moves. */
    method TakeToken() returns (granted: bool)
      requires LimiterAgrees() && OnTrack() && a.pc == Arrived && a.principal == principal && g.now == now
      modifies this`g, this`a, this`trace, this`moments, rateLimiter`buckets, rateLimiter.buckets.Values
      ensures LimiterAgrees() && OnTrack() && fresh(rateLimiter.buckets.Values - old(rateLimiter.buckets.Values))
      ensures granted == Rate.Admits(Law(c), old(g).levels, principal, now)
      ensures g == old(g).(levels := g.levels, rateLog := g.rateLog)
      ensures a == if granted then old(a).(rate := Passed, pc := Authorizing)
                   else Reject(id, old(a), RateLimited, RateLimitExceeded(old(a).tool))
    {
      granted := rateLimiter.TryAcquire(principal, now);
      FollowCheckRate();
    }

    /** What the limiter's answer leads to. */
    method SettleToken(granted: bool) returns (exit: Option<Exit>)
      requires Mirrored() && OnTrack() && LocalsAre(Arrival())
      requires a == if granted then Arrival().(rate := Passed, pc := Authorizing)
                    else Reject(id, Arrival(), RateLimited, RateLimitExceeded(tool))
      modifies this`rateLimitResult, this`auditEmitted, this`g, this`a, this`trace, this`moments, logger
      ensures Mirrored() && LocalsAgree() && OnTrack() && g == old(g).(log := g.log)
      ensures if granted then exit == None && logger.emitted == old(logger.emitted)
              else Rejected(old(logger.emitted), exit, RateLimited, RateLimitExceeded(tool))
      ensures if exit.Some? then a.pc == Finished(exit.value) else a.pc == Authorizing && BeforeSlot()
    {
      if !granted {
        exit := Refuse(RateLimited, RateLimitExceeded(tool));
        return;
      }
      rateLimitResult := Passed;
      return None;
    }

    method FindRule() returns (exit: Option<Exit>, toolPolicy: Option<ToolPolicy>)
      requires Mirrored() && LocalsAgree() && OnTrack() && a.pc == Authorizing && BeforeSlot()
      modifies this`matchedRule, this`policyResult, this`auditEmitted
      modifies this`g, this`a, this`trace, this`moments, logger
      ensures Mirrored() && LocalsAgree() && OnTrack() && g == old(g).(log := g.log)
      ensures if Allows(c.policy, principal, tool) then
                && toolPolicy == Some(c.policy.principals[principal][tool])
                && exit == None && logger.emitted == old(logger.emitted)
              else Rejected(old(logger.emitted), exit, PolicyDenied, UnknownTool(tool))
      ensures if exit.Some? then a.pc == Finished(exit.value)
              else a.pc == CacheWait && BeforeSlot() && toolPolicy.Some? && a.toolPolicy == toolPolicy
    {
      ResolvesToTheEntry(c.policy, principal, tool);
      toolPolicy := ResolveToolPolicy(c.policy, principal, tool);
      matchedRule := if HasRule(c.policy, principal, tool) then Some(tool) else None;
      FollowAuthorize();
      exit := SettleRule(toolPolicy.Some?);
    }

    /** What the rule, or its absence, leads to. */
    method SettleRule(allowed: bool) returns (exit: Option<Exit>)
      requires Mirrored() && OnTrack() && BeforeSlot() && LocalsAre(a.(policy := policyResult))
      requires if allowed then a.pc == CacheWait && a.policy == policyResult
               else a.policy == Failed
                    && a.pc == RejectedAt(PolicyDenied, UnknownTool(tool))
      modifies this`policyResult, this`auditEmitted, this`g, this`a, this`trace, this`moments, logger
      ensures Mirrored() && LocalsAgree() && OnTrack() && g == old(g).(log := g.log)
      ensures if allowed then exit == None && a == old(a) && logger.emitted == old(logger.emitted)
              else Rejected(old(logger.emitted), exit, PolicyDenied, UnknownTool(tool)) && a.pc == Finished(exit.value)
    {
      if !allowed {
        policyResult := Failed;
        exit := Refuse(PolicyDenied, UnknownTool(tool));
        return;
      }
      return None;
    }

    /** The cached list; or the fetched one, which is then cached; or what the fetch
        raised. */
    method UpstreamTools() returns (raised: Option<Cause>, tools: seq<Tool>)
      requires Mirrored() && LocalsAgree() && OnTrack() && UpstreamAgrees()
      requires a.pc == CacheWait && BeforeSlot() && g.cache.holder == None
      modifies this`g, this`a, this`trace, this`moments, cache, upstream`listRequests
      ensures Mirrored() && LocalsAgree() && OnTrack() && UpstreamAgrees()
      ensures g == old(g).(cache := g.cache) && BeforeSlot() && a.toolPolicy == old(a.toolPolicy)
      ensures upstream.listRequests == old(upstream.listRequests) + if old(cache.tools).None? then 1 else 0
      ensures if raised.Some? then a.pc == Unwinding(raised.value)
              else a.pc == Checking && a.upstreamTools == Some(tools)
      ensures match (old(cache.tools), upstream.answers.fetch)
              case (Some(cached), _) => raised == None && tools == cached
              case (None, Lists(listed)) => raised == None && tools == listed
              case (None, FetchRaises) => raised == Some(Fault)
              case (None, FetchCancelled) => raised == Some(Cancellation)
    {
      var reply := cache.Get(upstream);
      FollowCache();
      if !reply.Lists? {
        return Some(if reply.FetchRaises? then Fault else Cancellation), [];
      }
      return None, reply.tools;
    }

    method ValidateSchema(tools: seq<Tool>) returns (exit: Option<Exit>)
      requires Mirrored() && LocalsAgree() && OnTrack()
      requires a.pc == Checking && BeforeSlot() && a.upstreamTools == Some(tools)
      modifies this`policyResult, this`schemaResult, this`policyLatency, this`auditEmitted
      modifies this`g, this`a, this`trace, this`moments, logger
      ensures Mirrored() && LocalsAgree() && OnTrack() && g == old(g).(log := g.log)
      ensures var found := FindTool(tools, tool);
              if found.None? then Rejected(old(logger.emitted), exit, PolicyDenied, UnknownTool(tool))
              else if !SchemaAccepts(c, found.value, arguments) then
                Rejected(old(logger.emitted), exit, SchemaRejected, SchemaInvalid(tool))
              else exit == None && logger.emitted == old(logger.emitted)
      ensures if exit.Some? then a.pc == Finished(exit.value)
              else a.pc == Evaluating && BeforeSlot() && a.toolPolicy == old(a.toolPolicy)
    {
      var upstreamTool := FindTool(tools, tool);
      FollowCheckSchema(upstreamTool);
      if upstreamTool.None? {
        exit := SettleRule(false);
        return;
      }
      exit := SettleSchema(SchemaAccepts(c, upstreamTool.value, arguments));
    }

    /** What the schema's answer leads to. */
    method SettleSchema(accepted: bool) returns (exit: Option<Exit>)
      requires Mirrored() && OnTrack() && BeforeSlot() && a.schema == if accepted then Passed else Failed
      requires LocalsAre(a.(schema := schemaResult, policyLatency := policyLatency))
      requires a.policyLatency == (policyLatency || !accepted)
      requires a.pc == if accepted then Evaluating
                       else RejectedAt(SchemaRejected, SchemaInvalid(tool))
      modifies this`schemaResult, this`policyLatency, this`auditEmitted
      modifies this`g, this`a, this`trace, this`moments, logger
      ensures Mirrored() && LocalsAgree() && OnTrack() && g == old(g).(log := g.log)
      ensures if accepted then exit == None && logger.emitted == old(logger.emitted)
              else Rejected(old(logger.emitted), exit, SchemaRejected, SchemaInvalid(tool))
      ensures if exit.Some? then a.pc == Finished(exit.value)
              else a.pc == Evaluating && BeforeSlot() && a.toolPolicy == old(a.toolPolicy)
    {
      if !accepted {
        schemaResult := Failed;
        policyLatency := true;
        exit := Refuse(SchemaRejected, SchemaInvalid(tool));
        return;
      }
      schemaResult := Passed;
      return None;
    }

    method Violates(toolPolicy: ToolPolicy) returns (violated: bool)
      ensures violated <==> !Accepts(toolPolicy, arguments, c.fullmatch)
    {
      var violation := EvaluateArgumentPolicy(toolPolicy, arguments, c.fullmatch);
      violated := violation.Some?;
    }

    method EvaluateArguments(toolPolicy: ToolPolicy) returns (exit: Option<Exit>)
      requires Mirrored() && LocalsAgree() && OnTrack()
      requires a.pc == Evaluating && BeforeSlot() && a.toolPolicy == Some(toolPolicy)
      modifies this`policyResult, this`policyLatency, this`auditEmitted
      modifies this`g, this`a, this`trace, this`moments, logger
      ensures Mirrored() && LocalsAgree() && OnTrack() && g == old(g).(log := g.log)
      ensures if Accepts(toolPolicy, arguments, c.fullmatch) then exit == None && logger.emitted == old(logger.emitted)
              else Rejected(old(logger.emitted), exit, PolicyDenied, PolicyInvalid(tool))
      ensures if exit.Some? then a.pc == Finished(exit.value) else a.pc == Acquiring && BeforeSlot()
    {
      var violated := Violates(toolPolicy);
      policyLatency := true;
      policyResult := if violated then Failed else Passed;
      FollowEvaluatePolicy(violated);
      exit := SettlePolicy(violated);
    }

    /** What the argument policy's answer leads to. */
    method SettlePolicy(violated: bool) returns (exit: Option<Exit>)
      requires Mirrored() && LocalsAgree() && OnTrack() && BeforeSlot()
      requires a.pc
              == if violated then RejectedAt(PolicyDenied, PolicyInvalid(tool))
                       else Acquiring
      modifies this`auditEmitted, this`g, this`a, this`trace, this`moments, logger
      ensures Mirrored() && LocalsAgree() && OnTrack() && g == old(g).(log := g.log)
      ensures if violated then Rejected(old(logger.emitted), exit, PolicyDenied, PolicyInvalid(tool))
              else exit == None && logger.emitted == old(logger.emitted)
      ensures if exit.Some? then a.pc == Finished(exit.value) else a.pc == Acquiring && BeforeSlot()
    {
      if violated {
        exit := Refuse(PolicyDenied, PolicyInvalid(tool));
        return;
      }
      return None;
    }

    /** The end of the inner `try`, or the exception clause that the reply reaches. */
    method Conclude(reply: CallReply) returns (exit: Exit)
      requires Mirrored() && LocalsAgree() && OnTrack() && a.pc == AfterReply(id, tool, reply)
               && a.concurrency == Passed && a.slotHeld
      modifies this`auditEmitted, this`g, this`a, this`trace, this`moments, logger
      ensures Mirrored() && LocalsAgree() && OnTrack() && g == old(g).(log := old(g).log + [RecordOf(id, old(a))])
      ensures a.pc == LeavingScope(exit) && a.slotHeld && auditEmitted
      ensures exit == AfterCall(id, tool, reply).exit
    {
      match reply {
        case Replies(result) =>
          Emit(UpstreamSuccess, true, Some(CategorySuccess));
          exit := Return(Finalize(result, id));
        case TimesOut =>
          Emit(UpstreamTimeout, true, Some(CategoryTimeout));
          exit := Return(Finalize(ErrorResult(UpstreamTimedOut(tool)), id));
        case CallCancelled =>
          Emit(Cancelled, true, Some(CategoryCancelled));
          exit := Raise(Cancellation);
        case Raises =>
          Emit(UpstreamError, true, Some(CategoryError));
          exit := Return(Finalize(ErrorResult(UpstreamFailed(tool)), id));
      }
    }

    /** The upstream call and its own exception clauses. */
    method Contact() returns (exit: Exit)
      requires Mirrored() && LocalsAgree() && OnTrack() && a.pc == Calling && a.concurrency == Passed && a.slotHeld
      modifies this`upstreamLatency, this`auditEmitted
      modifies this`g, this`a, this`trace, this`moments, logger, upstream`received
      ensures Mirrored() && LocalsAgree() && OnTrack() && g == old(g).(log := g.log, replies := g.replies)
      ensures a.pc == LeavingScope(exit) && a.slotHeld && auditEmitted
      ensures upstream.received == old(upstream.received) + [(tool, arguments)]
      ensures exit == AfterCall(id, tool, upstream.answers.call).exit
      ensures |g.log| == |old(g).log| + 1
              && g.log[|old(g).log|].outcome == AfterCall(id, tool, upstream.answers.call).outcome
    {
      var reply := upstream.CallTool(tool, arguments);
      upstreamLatency := true;
      FollowCall();
      exit := Conclude(reply);
    }

    method TakeSlot() returns (acquired: bool)
      requires Mirrored() && LocalsAgree() && OnTrack() && a.pc == Acquiring && BeforeSlot()
      modifies this`concurrencyResult, this`g, this`a, this`trace, this`moments, slots
      ensures Mirrored() && LocalsAgree() && OnTrack() && a.slotHeld == acquired && a.concurrency != NotEvaluated
      ensures acquired <==> Slot.ActiveOf(old(slots.Contents()), principal) < c.maxConcurrent
      ensures slots.Contents()
              == if acquired then Slot.Acquired(old(slots.Contents()), principal) else old(slots.Contents())
      ensures g == old(g).(slots := g.slots, calls := g.calls)
      ensures g.calls == old(g).calls + if acquired then [UpstreamCall(id, principal, tool, arguments)] else []
      ensures if acquired then a.pc == Calling && a.concurrency == Passed
              else a.pc == RejectedAt(ConcurrencyRejected, ConcurrencyExceeded(tool))
    {
      acquired := slots.TryAcquire(principal);
      FollowAcquireSlot();
      concurrencyResult := if acquired then Passed else Failed;
    }

    method GiveSlotBack(acquired: bool, ghost exit: Exit)
      requires Mirrored() && LocalsAgree() && OnTrack() && a.pc == LeavingScope(exit) && a.slotHeld == acquired
      modifies this`g, this`a, this`trace, this`moments, slots
      ensures Mirrored() && LocalsAgree() && OnTrack() && g == old(g).(slots := g.slots) && a.pc == AfterExit(exit)
      ensures auditEmitted == old(auditEmitted) && upstream.received == old(upstream.received)
      ensures slots.Contents()
              == if acquired then Slot.Released(old(slots.Contents()), principal) else old(slots.Contents())
    {
      if acquired {
        slots.Release(principal);
      }
      FollowLeaveScope();
    }

    /** Inside the `async with`, a slot in hand or not. */
    method WithSlot(acquired: bool) returns (exit: Exit)
      requires Mirrored() && LocalsAgree() && OnTrack() && a.slotHeld == acquired && a.concurrency != NotEvaluated
      requires if acquired then a.pc == Calling && a.concurrency == Passed
               else a.pc == RejectedAt(ConcurrencyRejected, ConcurrencyExceeded(tool))
      modifies this`upstreamLatency, this`auditEmitted
      modifies this`g, this`a, this`trace, this`moments, logger, upstream`received
      ensures Mirrored() && LocalsAgree() && OnTrack() && g == old(g).(log := g.log, replies := g.replies)
      ensures a.pc == LeavingScope(exit) && a.slotHeld == acquired && auditEmitted
      ensures slots.Contents() == old(slots.Contents())
      ensures upstream.received == old(upstream.received) + if acquired then [(tool, arguments)] else []
      ensures exit == if acquired then AfterCall(id, tool, upstream.answers.call).exit
                      else Return(Finalize(ErrorResult(ConcurrencyExceeded(tool)), id))
    {
      if !acquired {
        Emit(ConcurrencyRejected, false, None);
        exit := Return(Finalize(ErrorResult(ConcurrencyExceeded(tool)), id));
      } else {
        exit := Contact();
      }
    }

    /** The rest of the `async with` block, to its end. */
    method UseSlot(acquired: bool) returns (exit: Exit)
      requires Mirrored() && LocalsAgree() && OnTrack() && a.slotHeld == acquired && a.concurrency != NotEvaluated
      requires if acquired then a.pc == Calling && a.concurrency == Passed
               else a.pc == RejectedAt(ConcurrencyRejected, ConcurrencyExceeded(tool))
      modifies this`upstreamLatency, this`auditEmitted
      modifies this`g, this`a, this`trace, this`moments, slots, logger, upstream`received
      ensures Mirrored() && LocalsAgree() && OnTrack() && auditEmitted && a.pc == AfterExit(exit)
      ensures g.levels == old(g.levels) && g.calls == old(g).calls && g.cache == old(g.cache)
      ensures exit == if acquired then AfterCall(id, tool, upstream.answers.call).exit
                      else Return(Finalize(ErrorResult(ConcurrencyExceeded(tool)), id))
      ensures upstream.received == old(upstream.received) + if acquired then [(tool, arguments)] else []
      ensures slots.Contents()
              == if acquired then Slot.Released(old(slots.Contents()), principal) else old(slots.Contents())
    {
      exit := WithSlot(acquired);
      GiveSlotBack(acquired, exit);
    }

    /** A slot taken, used and given back, on every way out. */
    method HoldingSlot() returns (acquired: bool, exit: Exit)
      requires Mirrored() && LocalsAgree() && OnTrack() && a.pc == Acquiring && BeforeSlot()
      modifies this`concurrencyResult, this`upstreamLatency, this`auditEmitted
      modifies this`g, this`a, this`trace, this`moments, slots, logger, upstream`received
      ensures Mirrored() && LocalsAgree() && OnTrack() && auditEmitted && a.pc == AfterExit(exit)
      ensures g.levels == old(g.levels) && g.cache == old(g.cache)
      ensures acquired <==> Slot.ActiveOf(old(slots.Contents()), principal) < c.maxConcurrent
      ensures exit == if acquired then AfterCall(id, tool, upstream.answers.call).exit
                      else Return(Finalize(ErrorResult(ConcurrencyExceeded(tool)), id))
      ensures g.calls == old(g).calls + if acquired then [UpstreamCall(id, principal, tool, arguments)] else []
      ensures upstream.received == old(upstream.received) + if acquired then [(tool, arguments)] else []
      ensures slots.Contents()
              == if acquired then Slot.Released(Slot.Acquired(old(slots.Contents()), principal), principal)
                                  else old(slots.Contents())
    {
      acquired := TakeSlot();
      exit := UseSlot(acquired);
    }

    /** The `async with` block: take a slot, call, and give the slot back. */
    method CallUpstream() returns (exit: Exit)
      requires Mirrored() && LocalsAgree() && OnTrack() && UpstreamAgrees() && a.pc == Acquiring && BeforeSlot()
      modifies this`concurrencyResult, this`upstreamLatency, this`auditEmitted
      modifies this`g, this`a, this`trace, this`moments, slots, logger, upstream`received
      ensures Mirrored() && LocalsAgree() && OnTrack() && UpstreamAgrees() && g.levels == old(g.levels)
      ensures match exit
              case Return(_) => a.pc == Finished(exit)
              case Raise(cause) => a.pc == Unwinding(cause) && auditEmitted
      ensures exit == AfterPolicy(c, id, old(slots.Contents()), Asked(), upstream.answers.call).exit
      ensures upstream.received
              == old(upstream.received)
                 + if Slot.ActiveOf(old(slots.Contents()), principal) < c.maxConcurrent then [(tool, arguments)] else []
      ensures forall p :: Slot.ActiveOf(slots.Contents(), p) == Slot.ActiveOf(old(slots.Contents()), p)
    {
      ghost var before, calls := slots.Contents(), g.calls;
      var acquired;
      acquired, exit := HoldingSlot();
      OneMoreWire(calls, UpstreamCall(id, principal, tool, arguments));
      TakenAndGivenBack(before, principal);
    }

    /** How often the upstream is asked for its tools, once there is a token. */
    ghost function ListsAsked(cached: Option<seq<Tool>>): nat {
      if Allows(c.policy, principal, tool) && cached.None? then 1 else 0
    }

    /** Where the body of the outer `try` leaves an attempt. */
    ghost predicate LeftBy(exit: Exit)
      reads this`a, this`auditEmitted
    {
      match exit
      case Return(_) => a.pc == Finished(exit)
      case Raise(cause) => a.pc == Unwinding(cause) && (auditEmitted || BeforeSlot())
    }

    /** The stages that need the upstream's tools, and the call. */
    method WithTools(toolPolicy: ToolPolicy, tools: seq<Tool>) returns (exit: Exit)
      requires Mirrored() && LocalsAgree() && OnTrack() && UpstreamAgrees() && a.pc == Checking && BeforeSlot()
      requires a.upstreamTools == Some(tools) && a.toolPolicy == Some(toolPolicy)
      modifies this, slots, logger, upstream`received
      ensures Mirrored() && LocalsAgree() && OnTrack() && UpstreamAgrees() && g.levels == old(g.levels) && LeftBy(exit)
    {
      var invalid := ValidateSchema(tools);
      if invalid.Some? { return invalid.value; }
      var violated := EvaluateArguments(toolPolicy);
      if violated.Some? { return violated.value; }
      exit := CallUpstream();
    }

    method WithRule(toolPolicy: ToolPolicy) returns (exit: Exit)
      requires Mirrored() && LocalsAgree() && OnTrack() && UpstreamAgrees()
      requires a.pc == CacheWait && BeforeSlot() && g.cache.holder == None && a.toolPolicy == Some(toolPolicy)
      modifies this, slots, cache, logger, upstream
      ensures Mirrored() && LocalsAgree() && OnTrack() && UpstreamAgrees() && g.levels == old(g.levels) && LeftBy(exit)
      ensures upstream.listRequests == old(upstream.listRequests) + if old(cache.tools).None? then 1 else 0
    {
      var raised, tools := UpstreamTools();
      if raised.Some? { return Raise(raised.value); }
      exit := WithTools(toolPolicy, tools);
    }

    /** The body of the outer `try`, once a token has been granted. */
    method Stages() returns (exit: Exit)
      requires Mirrored() && LocalsAgree() && OnTrack() && UpstreamAgrees()
      requires a.pc == Authorizing && BeforeSlot() && g.cache.holder == None
      modifies this, slots, cache, logger, upstream
      ensures Mirrored() && LocalsAgree() && OnTrack() && UpstreamAgrees() && g.levels == old(g.levels)
      ensures upstream.listRequests == old(upstream.listRequests) + ListsAsked(old(cache.tools))
      ensures LeftBy(exit)
    {
      var denied, toolPolicy := FindRule();
      if denied.Some? { return denied.value; }
      exit := WithRule(toolPolicy.value);
    }

    /** The outer exception clauses: record what has not been recorded, and raise. */
    method RecordInterruption(cause: Cause)
      requires Mirrored() && LocalsAgree() && OnTrack() && a.pc == Unwinding(cause) && (auditEmitted || BeforeSlot())
      modifies this`auditEmitted, this`g, this`a, this`trace, this`moments, logger
      ensures Mirrored() && LocalsAgree() && OnTrack() && g == old(g).(log := g.log) && a.pc == Finished(Raise(cause))
      ensures if old(auditEmitted) then logger.emitted == old(logger.emitted)
              else logger.emitted == old(logger.emitted) + [RecordOf(id, old(a).(pc := Recording(cause)))]
    {
      FollowUnwind();
      if !auditEmitted {
        Emit(if cause == Cancellation then Cancelled else InternalError, false, None);
      }
    }

    /** The outer `try` from authorization on, with its exception clauses. */
    method RunStages() returns (exit: Exit)
      requires Mirrored() && LocalsAgree() && OnTrack() && UpstreamAgrees()
      requires a.pc == Authorizing && BeforeSlot() && g.cache.holder == None
      modifies this, slots, cache, logger, upstream
      ensures Mirrored() && LocalsAgree() && OnTrack() && UpstreamAgrees() && g.levels == old(g.levels)
              && a.pc == Finished(exit)
      ensures upstream.listRequests == old(upstream.listRequests) + ListsAsked(old(cache.tools))
    {
      exit := Stages();
      if exit.Raise? {
        RecordInterruption(exit.cause);
      }
    }

    /** The limiter's answer, with all else as it was. */
    method Admit() returns (granted: bool)
      requires Mirrored() && LimiterAgrees() && UpstreamAgrees() && LocalsAgree() && OnTrack() && a == Arrival()
      modifies this`g, this`a, this`trace, this`moments, rateLimiter`buckets, rateLimiter.buckets.Values
      ensures Mirrored() && LimiterAgrees() && UpstreamAgrees() && LocalsAre(Arrival()) && OnTrack()
              && g.cache == old(g.cache)
      ensures fresh(rateLimiter.buckets.Values - old(rateLimiter.buckets.Values))
      ensures granted == Rate.Admits(Law(c), old(g).levels, principal, now)
      ensures a == if granted then Arrival().(rate := Passed, pc := Authorizing)
                   else Reject(id, Arrival(), RateLimited, RateLimitExceeded(tool))
    {
      granted := TakeToken();
    }

    twostate lemma LimiterUntouched()
      requires old(LimiterAgrees()) && unchanged(rateLimiter) && unchanged(rateLimiter.buckets.Values)
      requires g.levels == old(g.levels)
      ensures LimiterAgrees()
    {
    }

    /** The whole of the outer `try` after the limiter's answer. */
    method Answered(granted: bool) returns (exit: Exit)
      requires Mirrored() && UpstreamAgrees() && OnTrack() && LocalsAre(Arrival()) && g.cache.holder == None
      requires a == if granted then Arrival().(rate := Passed, pc := Authorizing)
                    else Reject(id, Arrival(), RateLimited, RateLimitExceeded(tool))
      modifies this, slots, cache, logger, upstream
      ensures Mirrored() && LocalsAgree() && OnTrack() && UpstreamAgrees() && g.levels == old(g.levels)
              && a.pc == Finished(exit)
      ensures upstream.listRequests == old(upstream.listRequests) + if granted then ListsAsked(old(cache.tools)) else 0
    {
      var limited := SettleToken(granted);
      if limited.Some? { return limited.value; }
      exit := RunStages();
    }

    /** The handler moves the shared objects as the machine does, to its end. */
    method RunHandler() returns (exit: Exit)
      requires Mirrored() && LimiterAgrees() && UpstreamAgrees() && LocalsAgree() && OnTrack()
      requires a == Arrival() && g.cache.holder == None
      modifies this, rateLimiter`buckets, rateLimiter.buckets.Values, slots, cache, logger, upstream
      ensures Mirrored() && LimiterAgrees() && UpstreamAgrees() && LocalsAgree() && OnTrack() && a.pc == Finished(exit)
      ensures upstream.listRequests == old(upstream.listRequests)
                + if Rate.Admits(Law(c), old(g).levels, principal, now) then ListsAsked(old(cache.tools)) else 0
    {
      var granted := Admit();
      label Taken:
      exit := Answered(granted);
      LimiterUntouched@Taken();
    }

    /** A call left alone ends as `EndingOf` says of what it finds and of what the
        upstream answers: with that exit; with one more record, of that outcome;
        with the call sent to the upstream, name and arguments unchanged, exactly
        if that says so; and with every active count as before. The upstream is
        asked for its tools exactly when the call gets as far and none are cached. */
    method HandleCallTool() returns (exit: Exit)
      requires Mirrored() && LimiterAgrees() && UpstreamAgrees() && LocalsAgree() && OnTrack()
      requires trace == [] && g.cache.holder == None
      modifies this, rateLimiter`buckets, rateLimiter.buckets.Values, slots, cache, logger, upstream
      ensures Mirrored() && LimiterAgrees() && UpstreamAgrees() && LocalsAgree() && OnTrack() && a.pc == Finished(exit)
      ensures var ending := EndingOf(c, id, old(g), Asked(), upstream.answers);
              && exit == ending.exit
              && |logger.emitted| == |old(logger.emitted)| + 1 && old(logger.emitted) <= logger.emitted
              && IsAbout(logger.emitted[|old(logger.emitted)|], id, Asked())
              && logger.emitted[|old(logger.emitted)|].outcome == ending.outcome
              && upstream.received == old(upstream.received) + (if ending.forwarded then [(tool, arguments)] else [])
      ensures upstream.listRequests == old(upstream.listRequests)
                + if Rate.Admits(Law(c), old(g).levels, principal, now) then ListsAsked(old(cache.tools)) else 0
      ensures forall p :: Slot.ActiveOf(slots.Contents(), p) == Slot.ActiveOf(old(slots.Contents()), p)
    {
      exit := RunHandler();
      UninterruptedCall(c, id, Asked(), moments, trace, upstream.answers);
    }
  }
}
