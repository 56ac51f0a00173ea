/** Runs that show that what the theorems allow does happen. */
module Witnesses {
  import opened Wrappers
  import opened Json
  import opened ArgumentPolicy
  import opened AuditLog
  import opened ToolCache
  import opened Pipeline
  import opened PipelineInvariants
  import opened PipelineTheorems
  import opened PipelineAudit
  import opened PipelineProgress
  import opened Denials
  import opened Verdicts
  import TokenBucket
  import Rate = RateLimiter
  import Slot = ConcurrencyLimiter

  lemma Extend(c: Config, start: real, states: seq<System>, steps: seq<Step>, step: Step)
      returns (states': seq<System>, steps': seq<Step>)
    requires Pipeline.Run(c, start, states, steps) && Possible(states[|steps|], step)
    ensures Pipeline.Run(c, start, states', steps') && steps' == steps + [step]
    ensures states'[|steps'|] == Apply(c, states[|steps|], step) && states <= states'
  {
    OneMoreStep(c, start, states, steps, step);
    states', steps' := states + [Apply(c, states[|steps|], step)], steps + [step];
  }

  lemma Started(c: Config, start: real, id: nat, principal: string, tool: string, arguments: Arguments)
      returns (states: seq<System>, steps: seq<Step>)
    requires ValidConfig(c) && c.capacity >= 1.0
    ensures Pipeline.Run(c, start, states, steps) && NoWriteCut(steps)
    ensures var s := states[|steps|];
            && s.attempts == map[id := NewAttempt(principal, tool, arguments).(rate := Passed, pc := Authorizing)]
            && s.shared.cache == EMPTY_CACHE && s.shared.log == [] && s.shared.calls == []
            && s.shared.slots == Slot.NO_SLOTS
  {
    states, steps := [Initial(start)], [];
    states, steps := Extend(c, start, states, steps, Arrive(id, principal, tool, arguments));
    var g := states[|steps|].shared;
    assert Rate.Admits(Law(c), g.levels, principal, g.now);
    states, steps := Extend(c, start, states, steps, Act(id, CheckRate));
  }

  // ----- A deny rule in the audit trail -----

  /** Under any policy that denies, a first call of that tool leaves a record in
      which the deny shows. */
  lemma DenyShowsInARecord(c: Config, principal: string, tool: string, start: real, id: nat, arguments: Arguments)
      returns (states: seq<System>, steps: seq<Step>)
    requires ValidConfig(c) && c.capacity >= 1.0 && Denies(c.policy, principal, tool)
    ensures Pipeline.Run(c, start, states, steps)
    ensures var log := states[|steps|].shared.log;
            && |log| == 1 && log[0].correlationId == id && log[0].matchedRule == Some(tool)
            && BlindRecord(log[0], principal, tool) != log[0]
  {
    states, steps := Started(c, start, id, principal, tool, arguments);
    states, steps := Extend(c, start, states, steps, Act(id, Authorize));
    states, steps := Extend(c, start, states, steps, Act(id, Write));
  }

  // ----- A record that denies the call -----

  lemma CutShortAndLost(c: Config, start: real, states: seq<System>, steps: seq<Step>, s: System, id: nat, cause: Cause)
      returns (states': seq<System>, steps': seq<Step>)
    requires Reached(c, start, states, steps, s) && id in s.attempts && s.attempts[id].pc == Calling
    ensures Pipeline.Run(c, start, states', steps')
    ensures var t := states'[|steps'|];
            && t.shared.log == s.shared.log && t.shared.calls == s.shared.calls && WasCalled(t.shared.calls, id)
            && id in t.attempts && t.attempts[id].pc == LeavingScope(Raise(cause))
            && !t.attempts[id].auditEmitted && t.attempts[id].concurrency == Passed
  {
    var a := s.attempts[id];
    assert CallsLinked(s) && PcFits(c, id, a) && StageFacts(c, a) by {
      Reachable(c, start, states, steps, |steps|);
      assert LocalOk(c, id, a);
    }
    assert a.concurrency == Passed && !a.auditEmitted;
    states', steps' := Extend(c, start, states, steps, Act(id, UpstreamTimesOut));
    states', steps' := Extend(c, start, states', steps', Act(id, InterruptWrite(cause, false)));
  }

  /** Any call in flight may time out. If its record is then cut short and lost,
      the outer clause records that no call was attempted. */
  lemma CutCallRecordDeniesTheCall(c: Config, start: real, states: seq<System>, steps: seq<Step>, s: System, id: nat,
                                   cause: Cause)
      returns (states': seq<System>, steps': seq<Step>)
    requires Reached(c, start, states, steps, s) && id in s.attempts && s.attempts[id].pc == Calling
    ensures Pipeline.Run(c, start, states', steps')
    ensures var log := states'[|steps'|].shared.log;
            && log != [] && log[..|log| - 1] == s.shared.log
            && var r := log[|log| - 1];
            && r.correlationId == id && !r.upstreamAttempted && r.concurrencyResult == Passed && !StageConsistent(r)
            && WasCalled(states'[|steps'|].shared.calls, id)
  {
    states', steps' := CutShortAndLost(c, start, states, steps, s, id, cause);
    states', steps' := Extend(c, start, states', steps', Act(id, LeaveScope));
    states', steps' := Extend(c, start, states', steps', Act(id, Unwind));
    states', steps' := Extend(c, start, states', steps', Act(id, Write));
  }

  /** A policy that lets `principal` call `tool` with whatever arguments. */
  function Permissive(principal: string, tool: string): PolicyConfig {
    PolicyConfig(map[principal := map[tool := ToolPolicy(Allow, [], [], false, [])]])
  }

  /** Some call does go out: over a permissive policy, of a tool without a schema. */
  lemma SomeCallGoesOut(c: Config, start: real, id: nat, principal: string, tool: string, arguments: Arguments)
      returns (states: seq<System>, steps: seq<Step>)
    requires ValidConfig(c) && c.capacity >= 1.0 && c.policy == Permissive(principal, tool)
    ensures Pipeline.Run(c, start, states, steps)
    ensures var s := states[|steps|]; id in s.attempts && s.attempts[id].pc == Calling && s.shared.log == []
  {
    states, steps := Started(c, start, id, principal, tool, arguments);
    states, steps := Extend(c, start, states, steps, Act(id, Authorize));
    states, steps := Extend(c, start, states, steps, Act(id, EnterCache));
    states, steps := Extend(c, start, states, steps, Act(id, FetchReturn([Tool(tool, None)])));
    states, steps := Extend(c, start, states, steps, Act(id, CheckSchema));
    assert Accepts(ToolPolicy(Allow, [], [], false, []), arguments, c.fullmatch);
    states, steps := Extend(c, start, states, steps, Act(id, EvaluatePolicy));
    states, steps := Extend(c, start, states, steps, Act(id, AcquireSlot));
  }

  /** From process start: one call sent, and one record, under its id, that says no
      call was attempted. */
  lemma ARecordDeniesItsCall(c: Config, start: real, principal: string, tool: string, arguments: Arguments,
                             cause: Cause)
      returns (states: seq<System>, steps: seq<Step>)
    requires ValidConfig(c) && c.capacity >= 1.0 && c.policy == Permissive(principal, tool)
    ensures Pipeline.Run(c, start, states, steps)
    ensures var g := states[|steps|].shared;
            |g.log| == 1 && g.log[0].correlationId == 0 && !g.log[0].upstreamAttempted && WasCalled(g.calls, 0)
  {
    states, steps := SomeCallGoesOut(c, start, 0, principal, tool, arguments);
    states, steps := CutCallRecordDeniesTheCall(c, start, states, steps, states[|steps|], 0, cause);
  }

  // ----- Whatever can interrupt an attempt does -----

  /** The attempt has left the handler with this exception, and the last record is
      its own, of this outcome. */
  ghost predicate EndedBy(s: System, t: System, id: nat, cause: Cause, outcome: Outcome, attempted: bool) {
    && id in t.attempts && t.attempts[id].pc == Finished(Raise(cause))
    && |t.shared.log| == |s.shared.log| + 1 && s.shared.log <= t.shared.log
    && var r := t.shared.log[|s.shared.log|];
    && r.correlationId == id && r.outcome == outcome && r.upstreamAttempted == attempted
  }

  /** Thrown out of a stage: the outer clause records, and the exception goes on. */
  lemma ThrownOut(c: Config, start: real, states: seq<System>, steps: seq<Step>, s: System, id: nat, cause: Cause)
      returns (states': seq<System>, steps': seq<Step>)
    requires Reached(c, start, states, steps, s) && id in s.attempts
    requires s.attempts[id].pc == Unwinding(cause) && !s.attempts[id].auditEmitted
    ensures Pipeline.Run(c, start, states', steps')
    ensures EndedBy(s, states'[|steps'|], id, cause, if cause == Cancellation then Cancelled else InternalError, false)
  {
    states', steps' := Extend(c, start, states, steps, Act(id, Unwind));
    states', steps' := Extend(c, start, states', steps', Act(id, Write));
  }

  /** An attempt that waits for the tool list can be cancelled there and then. */
  lemma AnyWaiterCanBeCancelled(c: Config, start: real, states: seq<System>, steps: seq<Step>, s: System, id: nat)
      returns (states': seq<System>, steps': seq<Step>)
    requires Reached(c, start, states, steps, s) && id in s.attempts && s.attempts[id].pc in {CacheWait, Fetching}
    ensures Pipeline.Run(c, start, states', steps')
    ensures EndedBy(s, states'[|steps'|], id, Cancellation, Cancelled, false)
  {
    assert HolderLinked(s) && PcFits(c, id, s.attempts[id]) && StageFacts(c, s.attempts[id]) by {
      Reachable(c, start, states, steps, |steps|);
      assert LocalOk(c, id, s.attempts[id]);
    }
    assert !s.attempts[id].auditEmitted;
    states', steps' := Extend(c, start, states, steps, Act(id, Cancel));
    var t := states'[|steps'|];
    states', steps' := ThrownOut(c, start, states', steps', t, id, Cancellation);
  }

  /** A stage between the limiter and the slot can fail there and then. */
  lemma AnyStageCanCrash(c: Config, start: real, states: seq<System>, steps: seq<Step>, s: System, id: nat)
      returns (states': seq<System>, steps': seq<Step>)
    requires Reached(c, start, states, steps, s) && id in s.attempts
    requires s.attempts[id].pc in {Authorizing, Checking, Evaluating}
    ensures Pipeline.Run(c, start, states', steps')
    ensures EndedBy(s, states'[|steps'|], id, Fault, InternalError, false)
  {
    assert PcFits(c, id, s.attempts[id]) && StageFacts(c, s.attempts[id]) by {
      Reachable(c, start, states, steps, |steps|);
      assert LocalOk(c, id, s.attempts[id]);
    }
    assert !s.attempts[id].auditEmitted;
    states', steps' := Extend(c, start, states, steps, Act(id, Crash));
    var t := states'[|steps'|];
    states', steps' := ThrownOut(c, start, states', steps', t, id, Fault);
  }

  /** A call in flight can be cancelled: that is recorded as a call, and the slot is
      free again. */
  lemma AnyCallCanBeCancelled(c: Config, start: real, states: seq<System>, steps: seq<Step>, s: System, id: nat)
      returns (states': seq<System>, steps': seq<Step>)
    requires Reached(c, start, states, steps, s) && id in s.attempts && s.attempts[id].pc == Calling
    ensures Pipeline.Run(c, start, states', steps')
    ensures EndedBy(s, states'[|steps'|], id, Cancellation, Cancelled, true) && !states'[|steps'|].attempts[id].slotHeld
  {
    assert PcFits(c, id, s.attempts[id]) by {
      Reachable(c, start, states, steps, |steps|);
      assert LocalOk(c, id, s.attempts[id]);
    }
    states', steps' := Extend(c, start, states, steps, Act(id, Cancel));
    states', steps' := Extend(c, start, states', steps', Act(id, Write));
    states', steps' := OutOfTheScope(c, start, states', steps', id, Cancellation);
  }

  lemma OutOfTheScope(c: Config, start: real, states: seq<System>, steps: seq<Step>, id: nat, cause: Cause)
      returns (states': seq<System>, steps': seq<Step>)
    requires Pipeline.Run(c, start, states, steps) && id in states[|steps|].attempts
    requires states[|steps|].attempts[id].pc == LeavingScope(Raise(cause)) && states[|steps|].attempts[id].auditEmitted
    ensures Pipeline.Run(c, start, states', steps') && id in states'[|steps'|].attempts
    ensures var a := states'[|steps'|].attempts[id]; a.pc == Finished(Raise(cause)) && !a.slotHeld
    ensures states'[|steps'|].shared.log == states[|steps|].shared.log
  {
    states', steps' := Extend(c, start, states, steps, Act(id, LeaveScope));
    states', steps' := Extend(c, start, states', steps', Act(id, Unwind));
  }

  // ----- The cache under invalidation -----

  /** Whenever the lock is free the cache can be invalidated; then whoever comes
      next, call or listing, fetches. */
  lemma InvalidationForcesAFetch(c: Config, start: real, states: seq<System>, steps: seq<Step>, s: System, listing: nat)
      returns (states': seq<System>, steps': seq<Step>)
    requires Reached(c, start, states, steps, s) && s.shared.cache.holder == None
    ensures Pipeline.Run(c, start, states', steps')
    ensures var cache := states'[|steps'|].shared.cache;
            && cache.holder == Some(Listing(listing)) && cache.tools == None
            && cache.history == s.shared.cache.history + [Invalidated] + [FetchStarted(Listing(listing))]
    ensures |steps'| == |steps| + 2
    ensures forall id :: id in s.attempts && s.attempts[id].pc == CacheWait ==>
              var t := states'[|steps'| - 1];
              && Possible(t, Act(id, EnterCache))
              && Apply(c, t, Act(id, EnterCache)).attempts[id].pc == Fetching
  {
    states', steps' := Extend(c, start, states, steps, CacheUse(Invalidate));
    var t := states'[|steps'|];
    states', steps' := Extend(c, start, states', steps', CacheUse(Enter(Listing(listing))));
    assert states'[|steps'| - 1] == t;
  }

  // ----- Time, and tokens with it -----

  /** Whatever has happened, one token's worth of time later a new call of any
      principal gets past the limiter. */
  lemma TokensComeBack(c: Config, start: real, states: seq<System>, steps: seq<Step>, s: System,
                       id: nat, principal: string, tool: string, arguments: Arguments)
      returns (states': seq<System>, steps': seq<Step>)
    requires Reached(c, start, states, steps, s) && c.capacity >= 1.0 && id !in s.attempts
    ensures Pipeline.Run(c, start, states', steps')
    ensures var t := states'[|steps'|];
            && t.shared.now == s.shared.now + 1.0 / c.refillRate
            && id in t.attempts && t.attempts[id].pc == Authorizing && t.attempts[id].rate == Passed
  {
    assert RateLinked(c, start, s) by { Reachable(c, start, states, steps, |steps|); }
    var later := s.shared.now + 1.0 / c.refillRate;
    TokenBucket.OneTokenLater(c.capacity, c.refillRate, s.shared.now, later);
    states', steps' := Extend(c, start, states, steps, Tick(later));
    states', steps' := Extend(c, start, states', steps', Arrive(id, principal, tool, arguments));
    states', steps' := AskForToken(c, start, states', steps', id, s.shared.rateLog, s.shared.now);
  }

  lemma AskForToken(c: Config, start: real, states: seq<System>, steps: seq<Step>, id: nat,
                    earlier: seq<Rate.Event>, since: real)
      returns (states': seq<System>, steps': seq<Step>)
    requires ValidConfig(c) && Pipeline.Run(c, start, states, steps) && c.capacity >= 1.0
    requires var s := states[|steps|];
             && id in s.attempts && s.attempts[id].pc == Arrived && s.shared.rateLog == earlier
             && Rate.Settled(start, earlier, |earlier|, since)
             && Law(c).earned(s.shared.now) >= Law(c).earned(since) + 1.0
    ensures Pipeline.Run(c, start, states', steps')
    ensures var t := states'[|steps'|];
            && t.shared.now == states[|steps|].shared.now
            && id in t.attempts && t.attempts[id].pc == Authorizing && t.attempts[id].rate == Passed
  {
    OneMoreStep(c, start, states, steps, Act(id, CheckRate));
    states', steps' := states + [Apply(c, states[|steps|], Act(id, CheckRate))], steps + [Act(id, CheckRate)];
    FreshTokenGranted(c, start, states', steps', |steps|, id, earlier, since);
    assert PcFits(c, id, states'[|steps'|].attempts[id]) by {
      Reachable(c, start, states', steps', |steps'|);
      assert LocalOk(c, id, states'[|steps'|].attempts[id]);
    }
  }

  lemma FreshTokenGranted(c: Config, start: real, states: seq<System>, steps: seq<Step>, n: nat, id: nat,
                          earlier: seq<Rate.Event>, since: real)
    requires ValidConfig(c) && Pipeline.Run(c, start, states, steps) && n < |steps| && steps[n] == Act(id, CheckRate)
    requires c.capacity >= 1.0 && states[n].shared.rateLog == earlier && Rate.Settled(start, earlier, |earlier|, since)
    requires Law(c).earned(states[n].shared.now) >= Law(c).earned(since) + 1.0
    ensures id in states[n + 1].attempts && states[n + 1].attempts[id].rate == Passed
  {
    TokenAsked(c, start, states, steps, n, id);
    var events, p := states[n + 1].shared.rateLog, states[n].attempts[id].principal;
    var last := |events| - 1;
    assert states[n + 1] == Apply(c, states[n], steps[n]) && events[..last] == earlier;
    assert last > 0 ==> events[last - 1] == earlier[last - 1];
    TokenBucket.ConstantRateIsValid(c.capacity, c.refillRate);
    Rate.DecisionIsOwnBucketDecision(Law(c), start, events, last);
    Rate.RequestsOfAreTimely(start, events, last, p);
    Rate.RequestsOfAreTimely(start, events, |events|, p);
    var own, before := Rate.RequestsOf(events, |events|, p), Rate.RequestsOf(events, last, p);
    assert own == before + [TokenBucket.Request(states[n].shared.now, 1.0)];
    TokenBucket.WaitingIsRewarded(Law(c), start, own, |own| - 1);
  }

  // ----- None, one or two records -----

  /** From process start, over a bucket too small for any call: one attempt, its two
      writes cut short, and a record for each that landed. */
  lemma NoneOneOrTwoRecords(c: Config, start: real, principal: string, tool: string, arguments: Arguments,
                            landed: bool, landedToo: bool)
      returns (states: seq<System>, steps: seq<Step>)
    requires ValidConfig(c) && c.capacity < 1.0
    ensures Pipeline.Run(c, start, states, steps) && AllFinished(states[|steps|]) && |states[|steps|].attempts| == 1
    ensures RecordsUnder(states[|steps|].shared.log, 0) == (if landed then 1 else 0) + (if landedToo then 1 else 0)
  {
    states, steps := [Initial(start)], [];
    states, steps := Extend(c, start, states, steps, Arrive(0, principal, tool, arguments));
    var g := states[|steps|].shared;
    assert !Rate.Admits(Law(c), g.levels, principal, g.now);
    var moments, actions := CutWritesBreakTheCount(c, 0, g, principal, tool, arguments, landed, landedToo);
    states, steps := PathContinuesTheRun(c, start, states, steps, 0, moments, actions, 4);
    assert states[|steps|].attempts.Keys == {0};
  }
}
